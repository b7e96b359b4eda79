/** JSON text (sections 4 to 7 of RFC 8259): the hand-written scanner that cuts the first balanced
    object out of a model's reply, and a printer it has to undo. */
module JsonText {
  import opened Prelude

  // ---- The scanner -------------------------------------------------------------------------

  /** What the scanner remembers: brace depth, inside a string, behind a backslash. */
  datatype Lex = Lex(depth: int, inString: bool, escaped: bool)

  function Outside(depth: int): Lex { Lex(depth, false, false) }

  function Next(s: Lex, c: char): Lex {
    if s.inString then
      if s.escaped then s.(escaped := false)
      else if c == '\\' then s.(escaped := true)
      else if c == '"' then s.(inString := false)
      else s
    else if c == '"' then s.(inString := true)
    else if c == '{' then s.(depth := s.depth + 1)
    else if c == '}' then s.(depth := s.depth - 1)
    else s
  }

  function Scan(s: Lex, t: string): Lex {
    if t == [] then s else Next(Scan(s, t[..|t| - 1]), t[|t| - 1])
  }

  function FirstBrace(t: string): (r: Option<nat>)
    ensures r.Some? ==> r.value < |t| && t[r.value] == '{' && '{' !in t[..r.value]
    ensures r.None? ==> '{' !in t
  {
    if t == [] then None
    else if t[0] == '{' then Some(0)
    else
      match FirstBrace(t[1..])
      case None => None
      case Some(i) =>
        assert t[..i + 1] == [t[0]] + t[1..][..i];
        Some(i + 1)
  }

  /** The out-of-string depth is back at 0 at the end of `text[start..end]`. */
  predicate Closed(text: string, start: nat, end: nat)
    requires start < end <= |text|
  {
    Scan(Outside(0), text[start..end]).depth == 0
  }

  /** The least `end >= from` that closes what begins at `start`. */
  function FirstClose(text: string, start: nat, from: nat): (r: Option<nat>)
    requires start < from <= |text| + 1
    ensures r.Some? ==> from <= r.value <= |text| && Closed(text, start, r.value)
    ensures forall e :: from <= e < (if r.Some? then r.value else |text| + 1) ==> !Closed(text, start, e)
    decreases |text| + 1 - from
  {
    if from > |text| then None
    else if Closed(text, start, from) then Some(from)
    else FirstClose(text, start, from + 1)
  }

  /** The shortest segment from the first opening brace whose depth returns to 0, if there is one. */
  function ExtractedObject(text: string): Option<string> {
    match FirstBrace(text)
    case None => None
    case Some(start) =>
      match FirstClose(text, start, start + 1)
      case None => None
      case Some(end) => Some(text[start..end])
  }

  ghost predicate FirstBraceAt(text: string, start: nat) {
    start < |text| && text[start] == '{' && '{' !in text[..start]
  }

  /** The result is the segment that begins at the first brace and ends where the depth is 0 again
      for the first time. */
  lemma {:induction false} ExtractedIsShortest(text: string, start: nat, end: nat)
    requires FirstBraceAt(text, start) && start < end <= |text|
    ensures ExtractedObject(text) == Some(text[start..end])
       <==> Closed(text, start, end) && forall e :: start < e < end ==> !Closed(text, start, e)
  {
    FirstBraceIs(text, start);
    var r := FirstClose(text, start, start + 1);
    assert r.Some? ==> |text[start..r.value]| == r.value - start;
  }

  lemma {:induction false} FirstBraceIs(text: string, start: nat)
    requires FirstBraceAt(text, start)
    ensures FirstBrace(text) == Some(start)
  {
    var r := FirstBrace(text);
    assert text[start] in text;
    assert forall j :: 0 <= j < r.value ==> text[..r.value][j] == text[j];
    assert forall j :: 0 <= j < start ==> text[..start][j] == text[j];
  }

  /** Nothing is returned exactly when no segment from the first brace closes. */
  lemma {:induction false} ExtractedNoneIff(text: string)
    ensures ExtractedObject(text).None?
       <==> forall start: nat, end: nat :: FirstBraceAt(text, start) && start < end <= |text| ==> !Closed(text, start, end)
  {
    match FirstBrace(text) {
      case None =>
      case Some(first) =>
        forall start: nat | FirstBraceAt(text, start) ensures start == first {
          FirstBraceIs(text, start);
        }
        assert FirstBraceAt(text, first);
        var r := FirstClose(text, first, first + 1);
        assert r.Some? ==> Closed(text, first, r.value);
    }
  }

  /** One more character of the text. */
  lemma {:induction false} ScanStep(text: string, start: nat, i: nat)
    requires start <= i < |text|
    ensures Scan(Outside(0), text[start..i + 1]) == Next(Scan(Outside(0), text[start..i]), text[i])
    ensures FirstClose(text, start, i + 1)
         == if Scan(Outside(0), text[start..i + 1]).depth == 0 then Some(i + 1) else FirstClose(text, start, i + 2)
  {
    assert text[start..i + 1][..i - start] == text[start..i];
  }

  /** The single pass over `depth`, `in_string` and `escaped`. */
  method ExtractJsonObject(text: string) returns (r: Option<string>)
    ensures r == ExtractedObject(text)
  {
    var first := FirstBrace(text);
    if first.None? {
      return None;
    }
    var start := first.value;
    var depth := 0;
    var inString, escaped := false, false;
    for i := start to |text|
      invariant Lex(depth, inString, escaped) == Scan(Outside(0), text[start..i])
      invariant !inString ==> !escaped
      invariant i > start ==> depth > 0
      invariant FirstClose(text, start, start + 1) == FirstClose(text, start, i + 1)
    {
      hide Scan, FirstClose, Closed;
      var ch := text[i];
      ScanStep(text, start, i);
      if inString {
        if escaped {
          escaped := false;
        } else if ch == '\\' {
          escaped := true;
        } else if ch == '"' {
          inString := false;
        }
        continue;
      }
      if ch == '"' {
        inString := true;
      } else if ch == '{' {
        depth := depth + 1;
      } else if ch == '}' {
        depth := depth - 1;
        if depth == 0 {
          return Some(text[start..i + 1]);
        }
      }
    }
    return None;
  }

  // ---- The printer -------------------------------------------------------------------------

  datatype Json =
    | Null
    | Bool(b: bool)
    | Number(text: string)
    | Str(s: string)
    | Arr(items: seq<Json>)
    | Obj(fields: seq<Field>)

  datatype Field = Field(name: string, value: Json)

  /** A place in a document: the positions of the enclosing values, from the outermost one inwards. */
  type Place = seq<nat>

  /** The liberties the grammar leaves to a writer, taken anew at every place: white space around each
      structural character and the escape used for each character of a string. */
  datatype Style = Style(comma: Place -> string, colon: Place -> string, open: Place -> string, close: Place -> string,
                         escape: (Place, char) -> string)

  predicate Unescaped(c: char) {
    c >= ' ' && c != '"' && c != '\\'
  }

  predicate HexDigit(c: char) {
    '0' <= c <= '9' || 'a' <= c <= 'f' || 'A' <= c <= 'F'
  }

  predicate UnicodeEscape(e: string) {
    |e| == 6 && e[0] == '\\' && e[1] == 'u' && forall k :: 2 <= k < 6 ==> HexDigit(e[k])
  }

  /** One character inside a string literal: plain, two-character escape, or one or two \u escapes. */
  predicate ValidEscape(e: string) {
    || (|e| == 1 && Unescaped(e[0]))
    || (|e| == 2 && e[0] == '\\' && e[1] in "\"\\/bfnrt")
    || UnicodeEscape(e)
    || (|e| == 12 && UnicodeEscape(e[..6]) && UnicodeEscape(e[6..]))
  }

  predicate WhiteSpace(s: string) {
    forall k :: 0 <= k < |s| ==> s[k] in " \t\n\r"
  }

  /** `s` is `mark` with white space around it. */
  ghost predicate Structural(s: string, mark: char) {
    exists k :: 0 <= k < |s| && s[k] == mark && WhiteSpace(s[..k]) && WhiteSpace(s[k + 1..])
  }

  ghost predicate ValidStyle(style: Style) {
    && (forall at :: Structural(style.comma(at), ','))
    && (forall at :: Structural(style.colon(at), ':'))
    && (forall at :: WhiteSpace(style.open(at)))
    && (forall at :: WhiteSpace(style.close(at)))
    && forall at, c :: ValidEscape(style.escape(at, c))
  }

  predicate NumberText(s: string) {
    s != "" && forall k :: 0 <= k < |s| ==> '0' <= s[k] <= '9' || s[k] in "+-.eE"
  }

  predicate WellFormed(v: Json) {
    match v
    case Number(text) => NumberText(text)
    case Arr(items) => forall i :: 0 <= i < |items| ==> WellFormed(items[i])
    case Obj(fields) => forall i :: 0 <= i < |fields| ==> WellFormed(fields[i].value)
    case _ => true
  }

  /** The inside of a string literal; the character at position `i` is written in the style of that place. */
  function PrintBody(style: Style, at: Place, s: string): string {
    if s == [] then "" else PrintBody(style, at, s[..|s| - 1]) + style.escape(at + [|s| - 1], s[|s| - 1])
  }

  function PrintString(style: Style, at: Place, s: string): string {
    "\"" + PrintBody(style, at, s) + "\""
  }

  function Print(style: Style, at: Place, v: Json): string
    decreases v, 1
  {
    match v
    case Null => "null"
    case Bool(b) => if b then "true" else "false"
    case Number(text) => text
    case Str(s) => PrintString(style, at, s)
    case Arr(items) => "[" + style.open(at) + PrintItems(style, at, v, items, 0) + style.close(at) + "]"
    case Obj(fields) => "{" + style.open(at) + PrintFields(style, at, v, fields, 0) + style.close(at) + "}"
  }

  /** The items from position `k` on. */
  function PrintItems(style: Style, at: Place, ghost whole: Json, items: seq<Json>, k: nat): string
    requires forall i :: 0 <= i < |items| ==> items[i] < whole
    decreases whole, 0, |items|
  {
    if items == [] then ""
    else if |items| == 1 then Print(style, at + [k], items[0])
    else Print(style, at + [k], items[0]) + style.comma(at + [k]) + PrintItems(style, at, whole, items[1..], k + 1)
  }

  function PrintField(style: Style, at: Place, f: Field): string
    decreases f.value, 2
  {
    PrintString(style, at + [0], f.name) + style.colon(at) + Print(style, at + [1], f.value)
  }

  function PrintFields(style: Style, at: Place, ghost whole: Json, fields: seq<Field>, k: nat): string
    requires forall i :: 0 <= i < |fields| ==> fields[i].value < whole
    decreases whole, 0, |fields|
  {
    if fields == [] then ""
    else if |fields| == 1 then PrintField(style, at + [k], fields[0])
    else PrintField(style, at + [k], fields[0]) + style.comma(at + [k]) + PrintFields(style, at, whole, fields[1..], k + 1)
  }

  // ---- Printed text is neutral for the scanner ---------------------------------------------

  lemma {:induction false} ScanConcat(s: Lex, a: string, b: string)
    ensures Scan(s, a + b) == Scan(Scan(s, a), b)
  {
    if b == [] {
      assert a + b == a;
    } else {
      ScanConcat(s, a, b[..|b| - 1]);
      assert (a + b)[..|a + b| - 1] == a + b[..|b| - 1];
    }
  }

  /** From any depth outside a string, `t` leads back to where it began and never goes below. */
  ghost predicate Neutral(t: string) {
    forall d :: Scan(Outside(d), t) == Outside(d) && StaysAtLeast(Outside(d), t, d)
  }

  ghost predicate StaysAtLeast(s: Lex, t: string, d: int) {
    forall k :: 0 <= k <= |t| ==> Scan(s, t[..k]).depth >= d
  }

  lemma {:induction false} StaysConcat(s: Lex, a: string, b: string, d: int)
    requires StaysAtLeast(s, a, d) && StaysAtLeast(Scan(s, a), b, d)
    ensures StaysAtLeast(s, a + b, d)
  {
    forall k | 0 <= k <= |a + b| ensures Scan(s, (a + b)[..k]).depth >= d {
      if k <= |a| {
        assert (a + b)[..k] == a[..k];
      } else {
        assert (a + b)[..k] == a + b[..k - |a|];
        ScanConcat(s, a, b[..k - |a|]);
      }
    }
  }

  lemma {:induction false} NeutralConcat(a: string, b: string)
    requires Neutral(a) && Neutral(b)
    ensures Neutral(a + b)
  {
    forall d ensures Scan(Outside(d), a + b) == Outside(d) && StaysAtLeast(Outside(d), a + b, d) {
      ScanConcat(Outside(d), a, b);
      StaysConcat(Outside(d), a, b, d);
    }
  }

  /** Text without quotes and braces is neutral: literals, numbers, separators, white space. */
  lemma {:induction false} PlainNeutral(t: string)
    requires forall k :: 0 <= k < |t| ==> t[k] !in "\"{}"
    ensures Neutral(t)
  {
    if t != [] {
      var init := t[..|t| - 1];
      PlainNeutral(init);
      forall d ensures Scan(Outside(d), t) == Outside(d) && StaysAtLeast(Outside(d), t, d) {
        assert Scan(Outside(d), init) == Outside(d);
        forall k | 0 <= k <= |t| ensures Scan(Outside(d), t[..k]).depth >= d {
          assert k < |t| ==> t[..k] == init[..k];
          assert k == |t| ==> t[..k] == t;
        }
      }
    }
  }

  lemma {:induction false} StructuralNeutral(s: string, mark: char)
    requires Structural(s, mark) && mark !in "\"{}"
    ensures Neutral(s)
  {
    var i :| 0 <= i < |s| && s[i] == mark && WhiteSpace(s[..i]) && WhiteSpace(s[i + 1..]);
    forall k | 0 <= k < |s| ensures s[k] !in "\"{}" {
      assert k < i ==> s[k] == s[..i][k];
      assert k > i ==> s[k] == s[i + 1..][k - i - 1];
    }
    PlainNeutral(s);
  }

  function Inside(d: int): Lex { Lex(d, true, false) }

  /** A valid escape keeps the scanner inside the string and leaves no backslash pending. */
  lemma {:induction false} EscapeStaysInside(d: int, e: string)
    requires ValidEscape(e)
    ensures Scan(Inside(d), e) == Inside(d)
    decreases |e|
  {
    if |e| == 1 {
      assert e[..0] == "";
    } else if |e| == 2 {
      assert e[..1][..0] == "";
      assert Scan(Inside(d), e[..1]) == Inside(d).(escaped := true);
    } else if |e| == 6 {
      assert e[..5][..4] == e[..4] && e[..4][..3] == e[..3] && e[..3][..2] == e[..2] && e[..2][..1] == e[..1] && e[..1][..0] == "";
      assert Scan(Inside(d), e[..1]) == Inside(d).(escaped := true);
      assert Scan(Inside(d), e[..2]) == Inside(d);
      assert Scan(Inside(d), e[..3]) == Inside(d);
      assert Scan(Inside(d), e[..4]) == Inside(d);
      assert Scan(Inside(d), e[..5]) == Inside(d);
    } else {
      EscapeStaysInside(d, e[..6]);
      EscapeStaysInside(d, e[6..]);
      assert e == e[..6] + e[6..];
      ScanConcat(Inside(d), e[..6], e[6..]);
    }
  }

  lemma {:induction false} BodyStaysInside(style: Style, at: Place, s: string, d: int)
    requires ValidStyle(style)
    ensures Scan(Inside(d), PrintBody(style, at, s)) == Inside(d)
    ensures StaysAtLeast(Inside(d), PrintBody(style, at, s), d)
  {
    if s != [] {
      var init, e := PrintBody(style, at, s[..|s| - 1]), style.escape(at + [|s| - 1], s[|s| - 1]);
      assert ValidEscape(e);
      hide ValidStyle, ValidEscape;
      BodyStaysInside(style, at, s[..|s| - 1], d);
      EscapeStaysInside(d, e);
      ScanConcat(Inside(d), init, e);
      InStringNeverShrinks(Inside(d), e);
      StaysConcat(Inside(d), init, e, d);
    }
  }

  /** Inside a string literal nothing lowers the depth; a short text can at most leave the string. */
  lemma {:induction false} InStringNeverShrinks(s: Lex, e: string)
    requires ValidEscape(e) && s == Inside(s.depth)
    ensures StaysAtLeast(s, e, s.depth)
  {
    forall k | 0 <= k <= |e| ensures Scan(s, e[..k]).depth >= s.depth {
      EscapePrefix(s.depth, e, k);
    }
  }

  /** Every proper prefix of a valid escape is still inside the string. */
  lemma {:induction false} TakeAcross<T>(s: seq<T>, m: nat, k: nat)
    requires m <= k <= |s|
    ensures s[..k] == s[..m] + s[m..][..k - m]
  {
  }

  lemma {:induction false} EscapePrefix(d: int, e: string, k: nat)
    requires ValidEscape(e) && k <= |e|
    ensures Scan(Inside(d), e[..k]).depth == d && Scan(Inside(d), e[..k]).inString
    decreases |e|, k
  {
    if k == 0 {
    } else if |e| == 12 {
      if k <= 6 {
        EscapePrefix(d, e[..6], k);
        assert e[..6][..k] == e[..k];
      } else {
        EscapeStaysInside(d, e[..6]);
        EscapePrefix(d, e[6..], k - 6);
        TakeAcross(e, 6, k);
        ScanConcat(Inside(d), e[..6], e[6..][..k - 6]);
      }
    } else {
      EscapePrefix(d, e, k - 1);
      assert e[..k][..k - 1] == e[..k - 1];
      if k == |e| {
        EscapeStaysInside(d, e);
        assert e[..k] == e;
      }
    }
  }

  lemma {:induction false} StringNeutral(style: Style, at: Place, s: string)
    requires ValidStyle(style)
    ensures Neutral(PrintString(style, at, s))
  {
    hide ValidStyle, PrintBody;
    var body := PrintBody(style, at, s);
    forall d ensures Scan(Outside(d), PrintString(style, at, s)) == Outside(d) && StaysAtLeast(Outside(d), PrintString(style, at, s), d) {
      BodyStaysInside(style, at, s, d);
      Bracketed(Outside(d), '"', body, '"', d);
    }
  }

  /** Characters that need no escape keep the scanner inside the string. */
  lemma {:induction false} PlainInside(d: int, s: string)
    requires forall k :: 0 <= k < |s| ==> Unescaped(s[k])
    ensures Scan(Inside(d), s) == Inside(d) && StaysAtLeast(Inside(d), s, d)
  {
    if s != [] {
      var init := s[..|s| - 1];
      PlainInside(d, init);
      forall k | 0 <= k <= |s| ensures Scan(Inside(d), s[..k]).depth >= d {
        assert k < |s| ==> s[..k] == init[..k];
        assert k == |s| ==> s[..k] == s;
      }
    }
  }

  lemma {:induction false} QuotedNeutral(s: string)
    requires forall k :: 0 <= k < |s| ==> Unescaped(s[k])
    ensures Neutral(['"'] + s + ['"'])
  {
    forall d ensures Scan(Outside(d), ['"'] + s + ['"']) == Outside(d) && StaysAtLeast(Outside(d), ['"'] + s + ['"'], d) {
      PlainInside(d, s);
      Bracketed(Outside(d), '"', s, '"', d);
    }
  }

  /** `open body close`, when `body` keeps the state that `open` leads to and stays at depth `d`. */
  lemma {:induction false} Bracketed(s: Lex, open: char, body: string, close: char, d: int)
    requires s.depth >= d
    requires var inner := Next(s, open); Scan(inner, body) == inner && StaysAtLeast(inner, body, d) && inner.depth >= d
    requires Next(Next(s, open), close) == s
    ensures Scan(s, [open] + body + [close]) == s
    ensures StaysAtLeast(s, [open] + body + [close], d)
  {
    var inner := Next(s, open);
    SingleStep(s, open);
    SingleStep(inner, close);
    ScanConcat(s, [open], body);
    ScanConcat(s, [open] + body, [close]);
    StaysConcat(s, [open], body, d);
    StaysConcat(s, [open] + body, [close], d);
  }

  lemma {:induction false} SingleStep(s: Lex, c: char)
    ensures Scan(s, [c]) == Next(s, c)
    ensures forall d :: d <= s.depth && d <= Next(s, c).depth ==> StaysAtLeast(s, [c], d)
  {
    assert [c][..0] == [] && [c][..1] == [c];
  }

  lemma {:induction false} PrintNeutral(style: Style, at: Place, v: Json)
    requires ValidStyle(style) && WellFormed(v)
    ensures Neutral(Print(style, at, v))
    decreases v, 1
  {
    hide ValidStyle, Neutral, PrintItems, PrintFields;
    match v {
      case Null => PlainNeutral("null");
      case Bool(b) =>
        PlainNeutral("true");
        PlainNeutral("false");
      case Number(text) => PlainNeutral(text);
      case Str(s) => StringNeutral(style, at, s);
      case Arr(items) =>
        ItemsNeutral(style, at, v, items, 0);
        MarksNeutral(style, at);
        ArrayNeutral(style.open(at), PrintItems(style, at, v, items, 0), style.close(at));
      case Obj(fields) =>
        FieldsNeutral(style, at, v, fields, 0);
        PaddedNeutral(style, at, PrintFields(style, at, v, fields, 0));
        PrintedObject(style, at, fields);
        ObjectNeutral(style.open(at) + PrintFields(style, at, v, fields, 0) + style.close(at));
    }
  }

  lemma {:induction false} ArrayNeutral(open: string, body: string, close: string)
    requires Neutral(open) && Neutral(body) && Neutral(close)
    ensures Neutral("[" + open + body + close + "]")
  {
    hide Neutral;
    PlainNeutral("[");
    PlainNeutral("]");
    NeutralConcat("[", open);
    NeutralConcat("[" + open, body);
    NeutralConcat("[" + open + body, close);
    NeutralConcat("[" + open + body + close, "]");
  }

  lemma {:induction false} ObjectNeutral(inner: string)
    requires Neutral(inner)
    ensures Neutral(['{'] + inner + ['}'])
  {
    forall d ensures Scan(Outside(d), ['{'] + inner + ['}']) == Outside(d)
      ensures StaysAtLeast(Outside(d), ['{'] + inner + ['}'], d)
    {
      assert Scan(Outside(d + 1), inner) == Outside(d + 1) && StaysAtLeast(Outside(d + 1), inner, d + 1);
      Bracketed(Outside(d), '{', inner, '}', d);
    }
  }

  /** A printed object is what stands between its braces. */
  lemma {:induction false} PrintedObject(style: Style, at: Place, fields: seq<Field>)
    ensures Print(style, at, Obj(fields))
         == ['{'] + (style.open(at) + PrintFields(style, at, Obj(fields), fields, 0) + style.close(at)) + ['}']
  {
    hide PrintFields;
    var open, body, close := style.open(at), PrintFields(style, at, Obj(fields), fields, 0), style.close(at);
    assert "{" + open + body + close + "}" == ['{'] + (open + body + close) + ['}'];
  }

  /** What the style writes at one place besides the values. */
  lemma {:induction false} MarksNeutral(style: Style, at: Place)
    requires ValidStyle(style)
    ensures Neutral(style.open(at)) && Neutral(style.close(at)) && Neutral(style.comma(at)) && Neutral(style.colon(at))
  {
    assert WhiteSpace(style.open(at)) && WhiteSpace(style.close(at));
    assert Structural(style.comma(at), ',') && Structural(style.colon(at), ':');
    hide ValidStyle, Neutral, Structural;
    PlainNeutral(style.open(at));
    PlainNeutral(style.close(at));
    StructuralNeutral(style.comma(at), ',');
    StructuralNeutral(style.colon(at), ':');
  }

  lemma {:induction false} PaddedNeutral(style: Style, at: Place, body: string)
    requires ValidStyle(style) && Neutral(body)
    ensures Neutral(style.open(at) + body + style.close(at))
  {
    MarksNeutral(style, at);
    hide ValidStyle, Neutral;
    NeutralConcat(style.open(at), body);
    NeutralConcat(style.open(at) + body, style.close(at));
  }

  lemma {:induction false} ItemsNeutral(style: Style, at: Place, whole: Json, items: seq<Json>, k: nat)
    requires ValidStyle(style)
    requires forall i :: 0 <= i < |items| ==> items[i] < whole && WellFormed(items[i])
    ensures Neutral(PrintItems(style, at, whole, items, k))
    decreases whole, 0, |items|
  {
    hide ValidStyle, Neutral, WellFormed, Print;
    if items == [] {
      PlainNeutral("");
    } else {
      var first := Print(style, at + [k], items[0]);
      PrintNeutral(style, at + [k], items[0]);
      if |items| > 1 {
        MarksNeutral(style, at + [k]);
        ItemsNeutral(style, at, whole, items[1..], k + 1);
        NeutralConcat(first, style.comma(at + [k]));
        NeutralConcat(first + style.comma(at + [k]), PrintItems(style, at, whole, items[1..], k + 1));
      }
    }
  }

  lemma {:induction false} FieldNeutral(style: Style, at: Place, f: Field)
    requires ValidStyle(style) && WellFormed(f.value)
    ensures Neutral(PrintField(style, at, f))
    decreases f.value, 2
  {
    hide ValidStyle, Neutral, WellFormed, Print, PrintString;
    StringNeutral(style, at + [0], f.name);
    MarksNeutral(style, at);
    PrintNeutral(style, at + [1], f.value);
    NeutralConcat(PrintString(style, at + [0], f.name), style.colon(at));
    NeutralConcat(PrintString(style, at + [0], f.name) + style.colon(at), Print(style, at + [1], f.value));
  }

  lemma {:induction false} FieldsNeutral(style: Style, at: Place, whole: Json, fields: seq<Field>, k: nat)
    requires ValidStyle(style)
    requires forall i :: 0 <= i < |fields| ==> fields[i].value < whole && WellFormed(fields[i].value)
    ensures Neutral(PrintFields(style, at, whole, fields, k))
    decreases whole, 0, |fields|
  {
    hide ValidStyle, Neutral, WellFormed, PrintField;
    if fields == [] {
      PlainNeutral("");
    } else {
      var first := PrintField(style, at + [k], fields[0]);
      FieldNeutral(style, at + [k], fields[0]);
      if |fields| > 1 {
        MarksNeutral(style, at + [k]);
        FieldsNeutral(style, at, whole, fields[1..], k + 1);
        NeutralConcat(first, style.comma(at + [k]));
        NeutralConcat(first + style.comma(at + [k]), PrintFields(style, at, whole, fields[1..], k + 1));
      }
    }
  }

  // ---- The scanner undoes the printer ------------------------------------------------------

  /** Between its own braces an object never returns to depth 0. */
  lemma {:induction false} ObjectClosesAtItsEnd(inner: string)
    requires Neutral(inner)
    ensures Scan(Outside(0), ['{'] + inner + ['}']) == Outside(0)
    ensures forall k :: 0 < k <= |inner| + 1 ==> Scan(Outside(0), (['{'] + inner + ['}'])[..k]).depth > 0
  {
    assert Scan(Outside(1), inner) == Outside(1) && StaysAtLeast(Outside(1), inner, 1);
    assert StaysAtLeast(Outside(1), inner, 0);
    Bracketed(Outside(0), '{', inner, '}', 0);
    SingleStep(Outside(0), '{');
    forall k | 0 < k <= |inner| + 1 ensures Scan(Outside(0), (['{'] + inner + ['}'])[..k]).depth > 0 {
      assert (['{'] + inner + ['}'])[..k] == ['{'] + inner[..k - 1];
      ScanConcat(Outside(0), ['{'], inner[..k - 1]);
    }
  }

  lemma {:induction false} ExtractBetween(before: string, inner: string, behind: string)
    requires Neutral(inner) && '{' !in before
    ensures ExtractedObject(before + (['{'] + inner + ['}'] + behind)) == Some(['{'] + inner + ['}'])
  {
    var printed := ['{'] + inner + ['}'];
    var text := before + (printed + behind);
    var start, end := |before|, |before| + |printed|;
    ObjectClosesAtItsEnd(inner);
    hide Scan, Neutral, FirstClose;
    assert text[start] == '{' && text[..start] == before;
    assert text[start..end] == printed;
    forall e | start < e < end ensures !Closed(text, start, e) {
      assert text[start..e] == printed[..e - start];
    }
    assert Closed(text, start, end);
    hide Closed;
    ExtractedIsShortest(text, start, end);
  }

  /** Whatever stands in front (without an opening brace) and behind, the scanner returns exactly the
      printed object. */
  lemma {:induction false} ExtractInvertsPrint(style: Style, at: Place, fields: seq<Field>, before: string, behind: string)
    requires ValidStyle(style) && WellFormed(Obj(fields)) && '{' !in before
    ensures ExtractedObject(before + Print(style, at, Obj(fields)) + behind) == Some(Print(style, at, Obj(fields)))
  {
    var whole := Obj(fields);
    var body := PrintFields(style, at, whole, fields, 0);
    var inner := style.open(at) + body + style.close(at);
    PrintedObject(style, at, fields);
    assert forall i :: 0 <= i < |fields| ==> WellFormed(fields[i].value);
    hide ExtractedObject, Neutral, PrintFields, ValidStyle, WellFormed, Print;
    FieldsNeutral(style, at, whole, fields, 0);
    PaddedNeutral(style, at, body);
    ExtractBetween(before, inner, behind);
    AppendAssociates(before, Print(style, at, whole), behind);
  }

  // ---- Printed text holds no line break ----------------------------------------------------

  predicate OneLine(s: string) {
    '\n' !in s
  }

  ghost predicate OneLineStyle(style: Style) {
    && ValidStyle(style)
    && (forall at :: OneLine(style.comma(at)))
    && (forall at :: OneLine(style.colon(at)))
    && (forall at :: OneLine(style.open(at)))
    && forall at :: OneLine(style.close(at))
  }

  lemma {:induction false} EscapeOneLine(e: string)
    requires ValidEscape(e)
    ensures OneLine(e)
  {
    if |e| == 12 {
      assert e == e[..6] + e[6..];
      assert OneLine(e[..6]) && OneLine(e[6..]);
    }
  }

  lemma {:induction false} BodyOneLine(style: Style, at: Place, s: string)
    requires ValidStyle(style)
    ensures OneLine(PrintBody(style, at, s))
  {
    if s != [] {
      var e := style.escape(at + [|s| - 1], s[|s| - 1]);
      assert ValidEscape(e);
      EscapeOneLine(e);
      hide ValidStyle, ValidEscape;
      BodyOneLine(style, at, s[..|s| - 1]);
    }
  }

  lemma {:induction false} MarksOneLine(style: Style, at: Place)
    requires OneLineStyle(style)
    ensures ValidStyle(style)
    ensures OneLine(style.open(at)) && OneLine(style.close(at)) && OneLine(style.comma(at)) && OneLine(style.colon(at))
  {
    hide ValidStyle;
  }

  /** In every style whose separators keep to one line, the text of every value does: a line break
      inside a string is written as an escape. */
  lemma {:induction false} PrintOneLine(style: Style, at: Place, v: Json)
    requires OneLineStyle(style) && WellFormed(v)
    ensures OneLine(Print(style, at, v))
    decreases v, 1
  {
    MarksOneLine(style, at);
    hide OneLineStyle, ValidStyle, PrintItems, PrintFields, PrintBody;
    match v {
      case Null =>
      case Bool(_) =>
      case Number(_) =>
      case Str(s) => BodyOneLine(style, at, s);
      case Arr(items) => ItemsOneLine(style, at, v, items, 0);
      case Obj(fields) => FieldsOneLine(style, at, v, fields, 0);
    }
  }

  lemma {:induction false} ItemsOneLine(style: Style, at: Place, whole: Json, items: seq<Json>, k: nat)
    requires OneLineStyle(style)
    requires forall i :: 0 <= i < |items| ==> items[i] < whole && WellFormed(items[i])
    ensures OneLine(PrintItems(style, at, whole, items, k))
    decreases whole, 0, |items|
  {
    if items != [] {
      MarksOneLine(style, at + [k]);
      hide OneLineStyle, ValidStyle, Print, WellFormed;
      PrintOneLine(style, at + [k], items[0]);
      ItemsOneLine(style, at, whole, items[1..], k + 1);
    }
  }

  lemma {:induction false} FieldsOneLine(style: Style, at: Place, whole: Json, fields: seq<Field>, k: nat)
    requires OneLineStyle(style)
    requires forall i :: 0 <= i < |fields| ==> fields[i].value < whole && WellFormed(fields[i].value)
    ensures OneLine(PrintFields(style, at, whole, fields, k))
    decreases whole, 0, |fields|
  {
    if fields != [] {
      var here := at + [k];
      MarksOneLine(style, here);
      hide OneLineStyle, ValidStyle, Print, PrintBody, WellFormed;
      BodyOneLine(style, here + [0], fields[0].name);
      PrintOneLine(style, here + [1], fields[0].value);
      FieldsOneLine(style, at, whole, fields[1..], k + 1);
    }
  }
}
