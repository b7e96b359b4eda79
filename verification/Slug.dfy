/** Provider slugs: the URL names under which providers are routed. */
module Slug {
  import opened Prelude

  // ---- Cleaning ----------------------------------------------------------------------------

  predicate AlphaNum(c: char) {
    'a' <= c <= 'z' || '0' <= c <= '9'
  }

  /** `re.sub(r"[^a-z0-9]+", "-", name)`: `inRun` says that the character before was already replaced. */
  function Hyphenate(name: string, inRun: bool): string {
    if name == "" then ""
    else if AlphaNum(name[0]) then [name[0]] + Hyphenate(name[1..], false)
    else (if inRun then "" else "-") + Hyphenate(name[1..], true)
  }

  /** `.strip("-")` */
  function Strip(s: string): string {
    if s != "" && s[0] == '-' then Strip(s[1..])
    else if s != "" && s[|s| - 1] == '-' then Strip(s[..|s| - 1])
    else s
  }

  /** `re.sub(r"-{2,}", "-", s)` */
  function Collapse(s: string): string {
    if s == "" then ""
    else if s[0] == '-' && |s| > 1 && s[1] == '-' then Collapse(s[1..])
    else [s[0]] + Collapse(s[1..])
  }

  /** The slug text of a lower-cased name; may be empty. */
  function Base(lowered: string): string {
    Collapse(Strip(Hyphenate(lowered, false)))
  }

  /** Letters and digits in groups separated by single hyphens. */
  predicate Clean(s: string) {
    && (forall i :: 0 <= i < |s| ==> AlphaNum(s[i]) || s[i] == '-')
    && (forall i :: 0 <= i < |s| - 1 ==> !(s[i] == '-' && s[i + 1] == '-'))
  }

  predicate IsSlug(s: string) {
    Clean(s) && (s != "" ==> s[0] != '-' && s[|s| - 1] != '-')
  }

  lemma {:induction false} HyphenateIsClean(name: string, inRun: bool)
    ensures Clean(Hyphenate(name, inRun))
    ensures inRun && Hyphenate(name, inRun) != "" ==> Hyphenate(name, inRun)[0] != '-'
  {
    if name != "" {
      HyphenateIsClean(name[1..], !AlphaNum(name[0]));
    }
  }

  lemma {:induction false} StripIsSlug(s: string)
    requires Clean(s)
    ensures IsSlug(Strip(s))
  {
    if s != "" && s[0] == '-' {
      StripIsSlug(s[1..]);
    } else if s != "" && s[|s| - 1] == '-' {
      StripIsSlug(s[..|s| - 1]);
    }
  }

  /** The second regular expression never finds anything left to do. */
  lemma {:induction false} CollapseKeepsClean(s: string)
    requires Clean(s)
    ensures Collapse(s) == s
  {
    if s != "" {
      CollapseKeepsClean(s[1..]);
      assert s == [s[0]] + s[1..];
    }
  }

  lemma {:induction false} HyphenateKeepsClean(s: string, inRun: bool)
    requires Clean(s) && (inRun && s != "" ==> s[0] != '-')
    ensures Hyphenate(s, inRun) == s
  {
    if s != "" {
      HyphenateKeepsClean(s[1..], s[0] == '-');
      assert s == [s[0]] + s[1..];
    }
  }

  /** Cleaning always gives a slug, and it leaves alone exactly the texts that are slugs already. */
  lemma {:induction false} BaseIsSlug(name: string)
    ensures IsSlug(Base(name))
    ensures Base(name) == name <==> IsSlug(name)
  {
    HyphenateIsClean(name, false);
    StripIsSlug(Hyphenate(name, false));
    CollapseKeepsClean(Strip(Hyphenate(name, false)));
    if IsSlug(name) {
      HyphenateKeepsClean(name, false);
    }
  }

  /** The letters and digits of a text in order, each with whether something else stands between it and the
      one before. */
  function Marks(s: string, seen: bool, gap: bool): seq<(char, bool)> {
    if s == "" then []
    else if 'a' <= s[0] <= 'z' || '0' <= s[0] <= '9' then [(s[0], seen && gap)] + Marks(s[1..], true, false)
    else Marks(s[1..], seen, true)
  }

  lemma {:induction false} HyphenateKeepsMarks(s: string, inRun: bool, seen: bool, gap: bool)
    requires inRun ==> gap
    ensures Marks(Hyphenate(s, inRun), seen, gap) == Marks(s, seen, gap)
  {
    if s != "" {
      var rest := s[1..];
      if AlphaNum(s[0]) {
        HyphenateKeepsMarks(rest, false, true, false);
        assert ([s[0]] + Hyphenate(rest, false))[1..] == Hyphenate(rest, false);
      } else {
        HyphenateKeepsMarks(rest, true, seen, true);
        assert ("-" + Hyphenate(rest, true))[1..] == Hyphenate(rest, true);
        assert "" + Hyphenate(rest, true) == Hyphenate(rest, true);
      }
    }
  }

  /** In front of the first letter or digit a gap does not count. */
  lemma {:induction false} LeadingGap(s: string, a: bool, b: bool)
    ensures Marks(s, false, a) == Marks(s, false, b)
  {
    if s != "" {
      LeadingGap(s[1..], true, true);
    }
  }

  lemma {:induction false} TrailingHyphen(s: string, seen: bool, gap: bool)
    requires s != "" && s[|s| - 1] == '-'
    ensures Marks(s[..|s| - 1], seen, gap) == Marks(s, seen, gap)
  {
    var front := s[..|s| - 1];
    if front != "" {
      var alnum := AlphaNum(s[0]);
      TrailingHyphen(s[1..], if alnum then true else seen, !alnum);
      assert s[1..][..|s[1..]| - 1] == front[1..];
    } else {
      assert s[1..] == "";
    }
  }

  lemma {:induction false} StripKeepsMarks(s: string)
    ensures Marks(Strip(s), false, false) == Marks(s, false, false)
  {
    if s != "" && s[0] == '-' {
      StripKeepsMarks(s[1..]);
      LeadingGap(s[1..], true, false);
    } else if s != "" && s[|s| - 1] == '-' {
      StripKeepsMarks(s[..|s| - 1]);
      TrailingHyphen(s, false, false);
    }
  }

  /** A slug has the letters and digits of the name, in order and grouped as in the name. */
  lemma {:induction false} BaseKeepsGroups(name: string)
    ensures Marks(Base(name), false, false) == Marks(name, false, false)
  {
    HyphenateIsClean(name, false);
    StripIsSlug(Hyphenate(name, false));
    CollapseKeepsClean(Strip(Hyphenate(name, false)));
    HyphenateKeepsMarks(name, false, false, false);
    StripKeepsMarks(Hyphenate(name, false));
  }

  /** Its groups determine a slug. */
  lemma {:induction false} SlugDetermined(a: string, b: string, seen: bool)
    requires Clean(a) && Clean(b) && Marks(a, seen, false) == Marks(b, seen, false)
    requires a != "" ==> a[|a| - 1] != '-' && (!seen ==> a[0] != '-')
    requires b != "" ==> b[|b| - 1] != '-' && (!seen ==> b[0] != '-')
    ensures a == b
    decreases |a| + |b|
  {
    MarksOfClean(a, seen);
    MarksOfClean(b, seen);
    if a != "" && b != "" {
      var m, n := if a[0] == '-' then 2 else 1, if b[0] == '-' then 2 else 1;
      SameHeads((a[m - 1], m == 2), Marks(a[m..], true, false), (b[n - 1], n == 2), Marks(b[n..], true, false));
      SlugDetermined(a[m..], b[m..], true);
      assert a == a[..m] + a[m..] && b == b[..m] + b[m..];
      assert a[..m] == b[..m];
    }
  }

  lemma {:induction false} SameHeads<T>(x: T, a: seq<T>, y: T, b: seq<T>)
    requires [x] + a == [y] + b
    ensures x == y && a == b
  {
    assert ([x] + a)[0] == x && ([y] + b)[0] == y;
    assert ([x] + a)[1..] == a && ([y] + b)[1..] == b;
  }

  /** What the marks of a text that does not end in a hyphen begin with. */
  lemma {:induction false} MarksOfClean(s: string, seen: bool)
    requires Clean(s) && (s != "" ==> s[|s| - 1] != '-' && (!seen ==> s[0] != '-'))
    ensures s == "" <==> Marks(s, seen, false) == []
    ensures s != "" && s[0] != '-' ==> Marks(s, seen, false) == [(s[0], false)] + Marks(s[1..], true, false)
    ensures s != "" && s[0] == '-' ==> |s| > 1 && s[1] != '-' && Marks(s, seen, false) == [(s[1], true)] + Marks(s[2..], true, false)
    ensures s != "" && s[0] != '-' ==> Clean(s[1..])
    ensures s != "" && s[0] == '-' ==> Clean(s[2..])
  {
    if s != "" && s[0] == '-' {
      assert s[1..][1..] == s[2..];
    }
  }

  // ---- Making it unique --------------------------------------------------------------------

  /** The slugs tried in order: the candidate itself, then with serial numbers from 2. */
  function Tried(candidate: string, k: nat): string {
    if k == 0 then candidate else candidate + "-" + Decimal(k + 1)
  }

  function CandidateOf(lowered: string, fallback: string): string {
    if Base(lowered) == "" then fallback else Base(lowered)
  }

  lemma {:induction false} TriedInjective(candidate: string, j: nat, k: nat)
    requires Tried(candidate, j) == Tried(candidate, k)
    ensures j == k
  {
    if j > 0 && k > 0 {
      var a, b := Tried(candidate, j), Tried(candidate, k);
      assert a[|candidate| + 1..] == Decimal(j + 1) && b[|candidate| + 1..] == Decimal(k + 1);
      DecimalInjective(j + 1, k + 1);
    }
  }

  /** The first of the tried slugs that is free. */
  ghost predicate FirstFree(candidate: string, taken: set<string>, k: nat) {
    Tried(candidate, k) !in taken && forall j: nat :: j < k ==> Tried(candidate, j) in taken
  }

  /** What `derive_slug` promises about its result. */
  ghost predicate Derived(lowered: string, taken: set<string>, fallback: string, slug: string) {
    exists k: nat :: k <= |taken| && slug == Tried(CandidateOf(lowered, fallback), k) && FirstFree(CandidateOf(lowered, fallback), taken, k)
  }

  lemma {:induction false} SubsetSize<T>(a: set<T>, b: set<T>)
    requires a <= b
    ensures |a| <= |b|
  {
    assert b == a + (b - a);
  }

  /** The search stops within |taken| + 1 tries, at the first free slug. */
  method DeriveSlug(lowered: string, taken: set<string>, fallback: string) returns (slug: string)
    ensures Derived(lowered, taken, fallback, slug)
  {
    hide Base;
    var base := Base(lowered);
    var candidate := if base == "" then fallback else base;
    slug := candidate;
    var serial := 2;
    ghost var tried: set<string> := {};
    while slug in taken
      invariant serial >= 2 && slug == Tried(candidate, serial - 2)
      invariant forall j: nat :: j < serial - 2 ==> Tried(candidate, j) in tried
      invariant forall t :: t in tried ==> exists j: nat :: j < serial - 2 && t == Tried(candidate, j)
      invariant tried <= taken && |tried| == serial - 2
      decreases |taken| + 2 - serial
    {
      SubsetSize(tried + {slug}, taken);
      if slug in tried {
        var j: nat :| j < serial - 2 && slug == Tried(candidate, j);
        TriedInjective(candidate, j, serial - 2);
        assert false;
      }
      tried := tried + {slug};
      slug := candidate + "-" + Decimal(serial);
      serial := serial + 1;
    }
    SubsetSize(tried, taken);
    assert FirstFree(candidate, taken, serial - 2);
    assert slug == Tried(CandidateOf(lowered, fallback), serial - 2);
  }

  /** There is only one such slug, it is free, and it is not empty when the fallback is not. */
  lemma {:induction false} DerivedOnce(lowered: string, taken: set<string>, fallback: string, slug: string)
    requires Derived(lowered, taken, fallback, slug)
    ensures slug !in taken && (fallback != "" ==> slug != "")
    ensures forall other :: Derived(lowered, taken, fallback, other) ==> other == slug
  {
    hide Base, Decimal;
    var candidate := CandidateOf(lowered, fallback);
    var k: nat :| k <= |taken| && slug == Tried(candidate, k) && FirstFree(candidate, taken, k);
    forall other | Derived(lowered, taken, fallback, other) ensures other == slug {
      var j: nat :| j <= |taken| && other == Tried(candidate, j) && FirstFree(candidate, taken, j);
      assert j == k by {
        hide Tried;
      }
    }
  }

  // ---- Filling in missing slugs ------------------------------------------------------------

  datatype Row = Row(id: nat, lowered: string, slug: string)

  /** The slugs in use when row `i` gets its turn. */
  ghost function Taken(before: seq<Row>, after: seq<Row>, i: nat): set<string>
    requires |after| == |before| && i <= |before|
  {
    (set j | 0 <= j < |before| && before[j].slug != "" :: before[j].slug)
    + (set j | 0 <= j < i && before[j].slug == "" :: after[j].slug)
  }

  /** Row `i` is as the backfill leaves it, given what the rows before it were given. */
  ghost predicate Filled(before: seq<Row>, after: seq<Row>, i: nat)
    requires |after| == |before| && i < |before|
  {
    && after[i] == before[i].(slug := after[i].slug)
    && (before[i].slug != "" ==> after[i] == before[i])
    && (before[i].slug == "" ==> Derived(before[i].lowered, Taken(before, after, i), "provider-" + Decimal(before[i].id), after[i].slug))
  }

  ghost predicate Backfilled(before: seq<Row>, after: seq<Row>) {
    |after| == |before| && forall i :: 0 <= i < |before| ==> Filled(before, after, i)
  }

  function Slugs(rows: seq<Row>): seq<string> {
    seq(|rows|, i requires 0 <= i < |rows| => rows[i].slug)
  }

  predicate DistinctSlugs(rows: seq<Row>) {
    forall i, j :: 0 <= i < j < |rows| && rows[i].slug != "" ==> rows[i].slug != rows[j].slug
  }

  /** `_backfill_provider_slugs`, in place on the provider table. */
  method BackfillProviderSlugs(rows: array<Row>)
    modifies rows
    ensures Backfilled(old(rows[..]), rows[..])
  {
    hide Derived;
    ghost var before := rows[..];
    var taken := set j | 0 <= j < rows.Length && rows[j].slug != "" :: rows[j].slug;
    for i := 0 to rows.Length
      invariant forall j :: i <= j < rows.Length ==> rows[j] == before[j]
      invariant forall j :: 0 <= j < i ==> Filled(before, rows[..], j)
      invariant taken == Taken(before, rows[..], i)
    {
      if rows[i].slug == "" {
        var slug := DeriveSlug(rows[i].lowered, taken, "provider-" + Decimal(rows[i].id));
        taken := taken + {slug};
        ghost var earlier := rows[..];
        rows[i] := rows[i].(slug := slug);
        FilledBefore(before, earlier, rows[..], i);
      }
    }
  }

  /** What one row is given depends only on the rows before it. */
  lemma {:induction false} FilledBefore(before: seq<Row>, a: seq<Row>, b: seq<Row>, i: nat)
    requires |a| == |b| == |before| && i <= |before| && a[..i] == b[..i]
    ensures Taken(before, a, i) == Taken(before, b, i)
    ensures forall j :: 0 <= j < i && Filled(before, a, j) ==> Filled(before, b, j)
  {
    hide Derived;
    assert forall j :: 0 <= j < i ==> a[j] == b[j] by {
      assert forall j :: 0 <= j < i ==> a[j] == a[..i][j] && b[j] == b[..i][j];
    }
    assert forall j :: 0 <= j <= i ==> Taken(before, a, j) == Taken(before, b, j);
  }

  /** After the backfill every slug is non-empty, rows that had one keep it, and the slugs are pairwise
      different exactly when the ones that were there before were. */
  lemma {:induction false} BackfillDistinctIff(before: seq<Row>, after: seq<Row>)
    requires Backfilled(before, after)
    ensures forall i :: 0 <= i < |after| ==> after[i].slug != ""
    ensures forall i :: 0 <= i < |after| && before[i].slug != "" ==> after[i] == before[i]
    ensures Distinct(Slugs(after)) <==> DistinctSlugs(before)
  {
    hide Derived, Decimal;
    forall i | 0 <= i < |after|
      ensures after[i].slug != "" && (before[i].slug != "" ==> after[i] == before[i])
      ensures before[i].slug == "" ==> after[i].slug !in Taken(before, after, i)
    {
      assert Filled(before, after, i);
      if before[i].slug == "" {
        DerivedOnce(before[i].lowered, Taken(before, after, i), "provider-" + Decimal(before[i].id), after[i].slug);
      }
    }
    if DistinctSlugs(before) {
      forall i, j | 0 <= i < j < |after| ensures after[i].slug != after[j].slug {
        assert before[j].slug == "" ==> after[i].slug in Taken(before, after, j);
        assert before[i].slug == "" && before[j].slug != "" ==> after[j].slug in Taken(before, after, i);
      }
    } else {
      var i, j :| 0 <= i < j < |before| && before[i].slug != "" && before[i].slug == before[j].slug;
      assert Slugs(after)[i] == Slugs(after)[j];
    }
  }
}
