/** Judge prompt rendering: one left-to-right pass that replaces the placeholders of a template. */
module Template {
  import opened Prelude

  // ---- The pattern: an alternation of literal texts ---------------------------------------

  /** Which alternative `t` begins with: one attempt of the regular expression. */
  function MatchHead(pattern: seq<string>, t: string): (r: Option<nat>)
    ensures r.Some? ==> r.value < |pattern| && pattern[r.value] <= t
    ensures r.None? ==> forall p :: 0 <= p < |pattern| ==> !(pattern[p] <= t)
  {
    if pattern == [] then None
    else
      var init := |pattern| - 1;
      match MatchHead(pattern[..init], t)
      case Some(p) => Some(p)
      case None => if pattern[init] <= t then Some(init) else None
  }

  /** Where the leftmost match at or after `from` starts. */
  function NextMatch(pattern: seq<string>, t: string, from: nat): (r: Option<nat>)
    requires from <= |t|
    ensures r.Some? ==> from <= r.value <= |t| && MatchHead(pattern, t[r.value..]).Some?
    ensures forall i {:trigger t[i..]} :: from <= i < (if r.Some? then r.value else |t| + 1) ==> MatchHead(pattern, t[i..]).None?
    decreases |t| - from
  {
    if MatchHead(pattern, t[from..]).Some? then Some(from)
    else if from == |t| then None
    else NextMatch(pattern, t, from + 1)
  }

  /** No alternative is empty. */
  ghost predicate Proper(pattern: seq<string>) {
    forall p :: 0 <= p < |pattern| ==> pattern[p] != ""
  }

  // ---- Specification: tokenise once, then substitute --------------------------------------

  datatype Token = Literal(c: char) | Hole(p: nat)

  function Tokens(pattern: seq<string>, t: string): seq<Token>
    requires Proper(pattern)
    decreases |t|
  {
    if t == [] then []
    else
      match MatchHead(pattern, t)
      case Some(p) => [Hole(p)] + Tokens(pattern, t[|pattern[p]|..])
      case None => [Literal(t[0])] + Tokens(pattern, t[1..])
  }

  function TextOf(token: Token, values: seq<string>): string {
    match token
    case Literal(c) => [c]
    case Hole(p) => if p < |values| then values[p] else ""
  }

  function Substitute(tokens: seq<Token>, values: seq<string>): string
  {
    if tokens == [] then ""
    else TextOf(tokens[0], values) + Substitute(tokens[1..], values)
  }

  function Render(pattern: seq<string>, t: string, values: seq<string>): string
    requires Proper(pattern) && |values| == |pattern|
  {
    Substitute(Tokens(pattern, t), values)
  }

  lemma {:induction false} SubstituteStep(token: Token, tokens: seq<Token>, values: seq<string>)
    ensures Substitute([token] + tokens, values) == TextOf(token, values) + Substitute(tokens, values)
  {
    assert ([token] + tokens)[1..] == tokens;
  }

  lemma {:induction false} SubstituteConcat(a: seq<Token>, b: seq<Token>, values: seq<string>)
    ensures Substitute(a + b, values) == Substitute(a, values) + Substitute(b, values)
  {
    hide TextOf;
    if a == [] {
      assert a + b == b;
    } else {
      SubstituteConcat(a[1..], b, values);
      SubstituteStep(a[0], a[1..], values);
      SubstituteStep(a[0], a[1..] + b, values);
      hide Substitute;
      assert a + b == [a[0]] + (a[1..] + b) && a == [a[0]] + a[1..];
      AppendAssociates(TextOf(a[0], values), Substitute(a[1..], values), Substitute(b, values));
    }
  }

  /** Text in front of the next match is copied unchanged. */
  lemma {:induction false} LiteralRun(pattern: seq<string>, t: string, n: nat, values: seq<string>)
    requires Proper(pattern) && |values| == |pattern|
    requires n <= |t| && forall i {:trigger t[i..]} :: 0 <= i < n ==> MatchHead(pattern, t[i..]).None?
    ensures Render(pattern, t, values) == t[..n] + Render(pattern, t[n..], values)
  {
    if n == 0 {
      assert t[n..] == t;
    } else {
      assert t[0..] == t;
      forall i | 0 <= i < n - 1 ensures MatchHead(pattern, t[1..][i..]).None? {
        assert t[1..][i..] == t[i + 1..];
      }
      LiteralRun(pattern, t[1..], n - 1, values);
      TokensStep(pattern, t);
      SubstituteStep(Literal(t[0]), Tokens(pattern, t[1..]), values);
      hide Tokens, Substitute, MatchHead, Proper;
      assert t[1..][n - 1..] == t[n..];
      assert [t[0]] + t[1..][..n - 1] == t[..n];
      AppendAssociates([t[0]], t[1..][..n - 1], Render(pattern, t[n..], values));
    }
  }

  /** One turn of the loop: copy up to the match, insert the value, go on behind it. */
  lemma {:induction false} RenderFrom(pattern: seq<string>, t: string, last: nat, start: nat, values: seq<string>)
    requires Proper(pattern) && |values| == |pattern|
    requires last <= start <= |t|
    requires forall i {:trigger t[i..]} :: last <= i < start ==> MatchHead(pattern, t[i..]).None?
    ensures Render(pattern, t[last..], values) == t[last..start] + Render(pattern, t[start..], values)
  {
    hide Render, MatchHead, Proper;
    var tail := t[last..];
    forall i | 0 <= i < start - last ensures MatchHead(pattern, tail[i..]).None? {
      assert tail[i..] == t[last + i..];
    }
    LiteralRun(pattern, tail, start - last, values);
    assert tail[start - last..] == t[start..];
    assert tail[..start - last] == t[last..start];
  }

  lemma {:induction false} RenderMatch(pattern: seq<string>, t: string, start: nat, p: nat, values: seq<string>)
    requires Proper(pattern) && |values| == |pattern|
    requires start <= |t| && MatchHead(pattern, t[start..]) == Some(p)
    ensures start + |pattern[p]| <= |t|
    ensures Render(pattern, t[start..], values) == values[p] + Render(pattern, t[start + |pattern[p]|..], values)
  {
    assert t[start..][|pattern[p]|..] == t[start + |pattern[p]|..];
    assert Tokens(pattern, t[start..]) == [Hole(p)] + Tokens(pattern, t[start + |pattern[p]|..]);
  }

  lemma {:induction false} LoopTurn(parts: seq<string>, piece: string, value: string, tail: string, whole: string)
    requires Concat(parts) + (piece + (value + tail)) == whole
    ensures Concat(parts + [piece] + [value]) + tail == whole
  {
    ConcatAppend(parts, piece);
    ConcatAppend(parts + [piece], value);
    assert Concat(parts) + piece + value + tail == Concat(parts) + (piece + (value + tail));
  }

  /** The `parts`/`last` loop computes the specification. */
  method RenderTemplate(pattern: seq<string>, template: string, values: seq<string>) returns (r: string)
    requires Proper(pattern) && |values| == |pattern|
    ensures r == Render(pattern, template, values)
  {
    ghost var whole := Render(pattern, template, values);
    var parts: seq<string> := [];
    var last := 0;
    var found := NextMatch(pattern, template, 0);
    assert template[0..] == template;
    while found.Some?
      invariant last <= |template| && found == NextMatch(pattern, template, last)
      invariant Concat(parts) + Render(pattern, template[last..], values) == whole
      decreases |template| - last
    {
      var start := found.value;
      var p := MatchHead(pattern, template[start..]).value;
      var end := start + |pattern[p]|;
      RenderFrom(pattern, template, last, start, values);
      RenderMatch(pattern, template, start, p, values);
      LoopTurn(parts, template[last..start], values[p], Render(pattern, template[end..], values), whole);
      parts := parts + [template[last..start]];
      parts := parts + [values[p]];
      last := end;
      found := NextMatch(pattern, template, last);
    }
    RenderFrom(pattern, template, last, |template|, values);
    ConcatAppend(parts, template[last..]);
    parts := parts + [template[last..]];
    r := Concat(parts);
  }

  // ---- What the specification means -------------------------------------------------------

  /** A template in which nothing matches is returned as it is. */
  lemma {:induction false} NoPlaceholderUnchanged(pattern: seq<string>, t: string, values: seq<string>)
    requires Proper(pattern) && |values| == |pattern|
    requires forall i {:trigger t[i..]} :: 0 <= i < |t| ==> MatchHead(pattern, t[i..]).None?
    ensures Render(pattern, t, values) == t
  {
    LiteralRun(pattern, t, |t|, values);
  }

  /** No match of `a + b` starts inside `a` and ends inside `b`. */
  ghost predicate SplitsCleanly(pattern: seq<string>, a: string, b: string) {
    forall i, p :: 0 <= i < |a| && 0 <= p < |pattern| && pattern[p] <= (a + b)[i..] ==> i + |pattern[p]| <= |a|
  }

  lemma {:induction false} MatchHeadAgrees(pattern: seq<string>, s: string, t: string)
    requires forall p :: 0 <= p < |pattern| ==> (pattern[p] <= s <==> pattern[p] <= t)
    ensures MatchHead(pattern, s) == MatchHead(pattern, t)
  {
    if pattern != [] {
      var init := pattern[..|pattern| - 1];
      forall p | 0 <= p < |init| ensures init[p] <= s <==> init[p] <= t {
        assert init[p] == pattern[p];
      }
      MatchHeadAgrees(init, s, t);
    }
  }

  lemma {:induction false} MatchHeadOfFront(pattern: seq<string>, a: string, b: string)
    requires a != [] && SplitsCleanly(pattern, a, b)
    ensures MatchHead(pattern, a + b) == MatchHead(pattern, a)
  {
    assert (a + b)[0..] == a + b;
    forall p | 0 <= p < |pattern| ensures pattern[p] <= a + b <==> pattern[p] <= a {
      if pattern[p] <= a + b {
        assert pattern[p] <= (a + b)[0..];
        assert a == (a + b)[..|a|];
      }
    }
    MatchHeadAgrees(pattern, a + b, a);
  }

  lemma {:induction false} SplitsCleanlyRest(pattern: seq<string>, a: string, b: string, k: nat)
    requires SplitsCleanly(pattern, a, b) && k <= |a|
    ensures (a + b)[k..] == a[k..] + b
    ensures SplitsCleanly(pattern, a[k..], b)
  {
    forall i, p | 0 <= i < |a[k..]| && 0 <= p < |pattern| && pattern[p] <= (a[k..] + b)[i..]
      ensures i + |pattern[p]| <= |a[k..]|
    {
      assert (a[k..] + b)[i..] == (a + b)[k + i..];
    }
  }

  lemma {:induction false} TokensStep(pattern: seq<string>, t: string)
    requires Proper(pattern) && t != []
    ensures var p := MatchHead(pattern, t);
      Tokens(pattern, t) == if p.Some? then [Hole(p.value)] + Tokens(pattern, t[|pattern[p.value]|..])
                            else [Literal(t[0])] + Tokens(pattern, t[1..])
  {
  }

  lemma {:induction false} TokensConcat(pattern: seq<string>, a: string, b: string)
    requires Proper(pattern) && SplitsCleanly(pattern, a, b)
    ensures Tokens(pattern, a + b) == Tokens(pattern, a) + Tokens(pattern, b)
    decreases |a|
  {
    if a == [] {
      assert a + b == b;
    } else {
      MatchHeadOfFront(pattern, a, b);
      TokensStep(pattern, a);
      TokensStep(pattern, a + b);
      hide Tokens, MatchHead, SplitsCleanly, Proper;
      var head := MatchHead(pattern, a);
      var n := if head.Some? then |pattern[head.value]| else 1;
      SplitsCleanlyRest(pattern, a, b, n);
      TokensConcat(pattern, a[n..], b);
      var token := if head.Some? then Hole(head.value) else Literal(a[0]);
      assert Tokens(pattern, a) == [token] + Tokens(pattern, a[n..]);
      assert Tokens(pattern, a + b) == [token] + Tokens(pattern, a[n..] + b);
      AppendAssociates([token], Tokens(pattern, a[n..]), Tokens(pattern, b));
    }
  }

  /** Rendering distributes over concatenation at every split that is not inside a placeholder. */
  lemma {:induction false} RenderConcat(pattern: seq<string>, a: string, b: string, values: seq<string>)
    requires Proper(pattern) && |values| == |pattern| && SplitsCleanly(pattern, a, b)
    ensures Render(pattern, a + b, values) == Render(pattern, a, values) + Render(pattern, b, values)
  {
    TokensConcat(pattern, a, b);
    SubstituteConcat(Tokens(pattern, a), Tokens(pattern, b), values);
  }

  // ---- The three placeholders of a judge prompt -------------------------------------------

  const PLACEHOLDERS: seq<string> := ["{{original_messages}}", "{{candidate_answers}}", "{{critique}}"]

  ghost predicate BracedText(s: string) {
    |s| > 2 && forall k :: 0 <= k < |s| ==> (s[k] == '{' <==> k < 2)
  }

  /** Opening braces stand at the two first places of every alternative and nowhere else. */
  ghost predicate Braced(pattern: seq<string>) {
    forall p :: 0 <= p < |pattern| ==> BracedText(pattern[p])
  }

  /** No alternative is a prefix of another. */
  ghost predicate PrefixFree(pattern: seq<string>) {
    forall p, q :: 0 <= p < |pattern| && 0 <= q < |pattern| && pattern[p] <= pattern[q] ==> p == q
  }

  lemma {:induction false} PlaceholdersShape()
    ensures Braced(PLACEHOLDERS) && PrefixFree(PLACEHOLDERS)
  {
    assert BracedText("{{original_messages}}");
    assert BracedText("{{candidate_answers}}");
    assert BracedText("{{critique}}");
    assert PLACEHOLDERS[0][2] == 'o' && PLACEHOLDERS[1][3] == 'a' && PLACEHOLDERS[2][3] == 'r';
  }

  lemma {:induction false} PlaceholderStartsClean(pattern: seq<string>, pre: string, p: nat, post: string)
    requires Braced(pattern) && p < |pattern|
    ensures SplitsCleanly(pattern, pre, pattern[p] + post)
  {
    var t := pre + (pattern[p] + post);
    assert t[|pre|] == pattern[p][0] && t[|pre| + 1] == pattern[p][1];
    forall i, q | 0 <= i < |pre| && 0 <= q < |pattern| && pattern[q] <= t[i..] ensures i + |pattern[q]| <= |pre| {
      // otherwise both opening braces stand at places after the first of `pattern[q]`
      assert forall k :: 0 <= k < |pattern[q]| ==> pattern[q][k] == t[i..][k] == t[i + k];
      assert |pre| < i + |pattern[q]| ==> i == |pre| - 1;
      assert pattern[q][2] == t[i + 2];
    }
  }

  lemma {:induction false} MatchHeadHit(pattern: seq<string>, p: nat, post: string)
    requires p < |pattern| && PrefixFree(pattern) && Braced(pattern)
    ensures MatchHead(pattern, pattern[p] + post) == Some(p)
  {
    var t := pattern[p] + post;
    var r := MatchHead(pattern, t);
    assert pattern[p] <= t;
    PrefixesOfOne(pattern[p], pattern[r.value], t);
  }

  lemma {:induction false} PrefixesOfOne(a: string, b: string, t: string)
    requires a <= t && b <= t
    ensures a <= b || b <= a
  {
    assert forall i :: 0 <= i < |a| ==> a[i] == t[i];
    assert forall i :: 0 <= i < |b| ==> b[i] == t[i];
  }

  /** Wherever a placeholder stands, its value is inserted verbatim: what the value itself contains,
      placeholder text included, is never looked at again. */
  lemma {:induction false} ValueInsertedVerbatim(pattern: seq<string>, pre: string, p: nat, post: string, values: seq<string>)
    requires Braced(pattern) && PrefixFree(pattern) && |values| == |pattern| && p < |pattern|
    ensures Proper(pattern)
    ensures Render(pattern, pre + pattern[p] + post, values)
         == Render(pattern, pre, values) + values[p] + Render(pattern, post, values)
  {
    var rest := pattern[p] + post;
    assert pre + pattern[p] + post == pre + rest;
    PlaceholderStartsClean(pattern, pre, p, post);
    RenderConcat(pattern, pre, rest, values);
    MatchHeadHit(pattern, p, post);
    assert rest[0..] == rest && rest[|pattern[p]|..] == post;
    RenderMatch(pattern, rest, 0, p, values);
  }
}
