/** Tool-call deltas: streamed fragments merged by index into complete calls. */
module ToolDeltas {
  import opened Prelude
  import opened Calls

  /** One fragment of a streamed delta; a missing text field is "", a missing index counts as 0. */
  datatype Fragment = Fragment(index: Option<int>, id: string, kind: string, name: string, arguments: string)

  function IndexOf(f: Fragment): int {
    match f.index case Some(i) => i case None => 0
  }

  const BLANK := ToolCall("", "function", None, None)

  function TextOr(o: Option<string>, default: string): string {
    match o case Some(s) => s case None => default
  }

  /** What one fragment does to the call it belongs to. */
  function Absorb(call: ToolCall, f: Fragment): ToolCall {
    ToolCall(
      if f.id != "" then f.id else call.id,
      if f.kind != "" then f.kind else call.kind,
      if f.name != "" then Some(f.name) else call.name,
      if f.arguments != "" then Some(TextOr(call.arguments, "") + f.arguments) else call.arguments)
  }

  function Merge(fragments: seq<Fragment>): map<int, ToolCall> {
    if fragments == [] then map[]
    else
      var merged, f := Merge(fragments[..|fragments| - 1]), fragments[|fragments| - 1];
      var i := IndexOf(f);
      merged[i := Absorb(if i in merged then merged[i] else BLANK, f)]
  }

  /** The field updates for one fragment. */
  method AbsorbInPlace(entry: ToolCall, f: Fragment) returns (call: ToolCall)
    ensures call == Absorb(entry, f)
  {
    call := entry;
    if f.id != "" {
      call := call.(id := f.id);
    }
    if f.kind != "" {
      call := call.(kind := f.kind);
    }
    if f.name != "" {
      call := call.(name := Some(f.name));
    }
    if f.arguments != "" {
      call := call.(arguments := Some(TextOr(call.arguments, "") + f.arguments));
    }
  }

  /** `merge_tool_call_deltas` */
  method MergeDeltas(fragments: seq<Fragment>) returns (merged: map<int, ToolCall>)
    ensures merged == Merge(fragments)
  {
    hide Absorb;
    merged := map[];
    for k := 0 to |fragments|
      invariant merged == Merge(fragments[..k])
    {
      assert fragments[..k + 1][..k] == fragments[..k];
      var i := IndexOf(fragments[k]);
      if i !in merged {
        merged := merged[i := BLANK];
      }
      var call := AbsorbInPlace(merged[i], fragments[k]);
      merged := merged[i := call];
    }
    assert fragments[..|fragments|] == fragments;
  }

  /** A fragment without an index belongs to the call with index 0, one with an index to that call. */
  lemma {:induction false} IndexedAs(fragments: seq<Fragment>, f: Fragment)
    ensures Merge(fragments + [f.(index := None)]) == Merge(fragments + [f.(index := Some(0))])
    ensures f.index.Some? ==> Merge(fragments + [f]).Keys == Merge(fragments).Keys + {f.index.value}
  {
    hide Absorb;
    assert (fragments + [f.(index := None)])[..|fragments|] == fragments;
    assert (fragments + [f.(index := Some(0))])[..|fragments|] == fragments;
    assert (fragments + [f])[..|fragments|] == fragments;
    AbsorbIgnoresIndex(BLANK, f);
    forall call ensures Absorb(call, f.(index := None)) == Absorb(call, f.(index := Some(0))) {
      AbsorbIgnoresIndex(call, f);
    }
  }

  lemma {:induction false} AbsorbIgnoresIndex(call: ToolCall, f: Fragment)
    ensures Absorb(call, f.(index := None)) == Absorb(call, f.(index := Some(0)))
  {
  }

  // ---- Each call depends on its own fragments only -----------------------------------------

  function OfIndex(fragments: seq<Fragment>, i: int): seq<Fragment> {
    if fragments == [] then []
    else
      OfIndex(fragments[..|fragments| - 1], i)
        + (if IndexOf(fragments[|fragments| - 1]) == i then [fragments[|fragments| - 1]] else [])
  }

  function MergeOne(fragments: seq<Fragment>): ToolCall {
    if fragments == [] then BLANK else Absorb(MergeOne(fragments[..|fragments| - 1]), fragments[|fragments| - 1])
  }

  lemma {:induction false} MergeByIndex(fragments: seq<Fragment>, i: int)
    ensures i in Merge(fragments) <==> OfIndex(fragments, i) != []
    ensures i in Merge(fragments) ==> Merge(fragments)[i] == MergeOne(OfIndex(fragments, i))
  {
    if fragments != [] {
      var init, f := fragments[..|fragments| - 1], fragments[|fragments| - 1];
      MergeByIndex(init, i);
      if IndexOf(f) == i {
        var own := OfIndex(init, i);
        assert (own + [f])[..|own|] == own;
        assert own == [] ==> MergeOne(own) == BLANK;
      } else {
        assert OfIndex(fragments, i) == OfIndex(init, i);
      }
    }
  }

  /** Any interleaving that keeps the order of the fragments of each index merges to the same calls. */
  lemma {:induction false} MergeIgnoresInterleaving(a: seq<Fragment>, b: seq<Fragment>)
    requires forall i :: OfIndex(a, i) == OfIndex(b, i)
    ensures Merge(a) == Merge(b)
  {
    forall i ensures (i in Merge(a) <==> i in Merge(b)) && (i in Merge(a) ==> Merge(a)[i] == Merge(b)[i]) {
      MergeByIndex(a, i);
      MergeByIndex(b, i);
    }
  }

  function LastText(texts: seq<string>, default: string): string {
    if texts == [] then default
    else if texts[|texts| - 1] != "" then texts[|texts| - 1]
    else LastText(texts[..|texts| - 1], default)
  }

  function TextsOf(fragments: seq<Fragment>, field: Fragment -> string): seq<string> {
    seq(|fragments|, k requires 0 <= k < |fragments| => field(fragments[k]))
  }

  /** The arguments of a call are those of its fragments, one after another; its id, kind and name are
      the last ones that were not empty. (The function's own documentation says the first.) */
  lemma {:induction false} MergedFields(fragments: seq<Fragment>)
    ensures var call := MergeOne(fragments);
      && TextOr(call.arguments, "") == Concat(TextsOf(fragments, (f: Fragment) => f.arguments))
      && call.id == LastText(TextsOf(fragments, (f: Fragment) => f.id), "")
      && call.kind == LastText(TextsOf(fragments, (f: Fragment) => f.kind), "function")
      && TextOr(call.name, "") == LastText(TextsOf(fragments, (f: Fragment) => f.name), "")
      && Canonical(call)
  {
    if fragments != [] {
      var init, last := fragments[..|fragments| - 1], fragments[|fragments| - 1];
      MergedFields(init);
      TextsOfSnoc(init, last, (f: Fragment) => f.arguments);
      TextsOfSnoc(init, last, (f: Fragment) => f.id);
      TextsOfSnoc(init, last, (f: Fragment) => f.kind);
      TextsOfSnoc(init, last, (f: Fragment) => f.name);
      assert fragments == init + [last];
      ConcatAppend(TextsOf(init, (f: Fragment) => f.arguments), last.arguments);
    }
  }

  function FirstText(texts: seq<string>, default: string): string {
    if texts == [] then default
    else if texts[0] != "" then texts[0]
    else FirstText(texts[1..], default)
  }

  /** The claim of the documentation - id and name are the first ones - is met exactly when the first and
      the last of those that are set are the same text. */
  lemma {:induction false} FirstTakenIff(fragments: seq<Fragment>, i: int)
    requires i in Merge(fragments)
    ensures var call, own := Merge(fragments)[i], OfIndex(fragments, i);
      var ids, names := TextsOf(own, (f: Fragment) => f.id), TextsOf(own, (f: Fragment) => f.name);
      && (call.id == FirstText(ids, "") <==> forall j, k :: FirstSet(ids, j) && LastSet(ids, k) ==> ids[j] == ids[k])
      && (TextOr(call.name, "") == FirstText(names, "") <==>
           forall j, k :: FirstSet(names, j) && LastSet(names, k) ==> names[j] == names[k])
  {
    hide Merge, MergeOne, OfIndex, TextsOf;
    MergeByIndex(fragments, i);
    var own := OfIndex(fragments, i);
    MergedFields(own);
    FirstAndLast(TextsOf(own, (f: Fragment) => f.id));
    FirstAndLast(TextsOf(own, (f: Fragment) => f.name));
  }

  /** `texts[k]` is the first one that is not empty. */
  predicate FirstSet(texts: seq<string>, k: int) {
    0 <= k < |texts| && texts[k] != "" && forall j :: 0 <= j < k ==> texts[j] == ""
  }

  /** `texts[k]` is the last one that is not empty. */
  predicate LastSet(texts: seq<string>, k: int) {
    0 <= k < |texts| && texts[k] != "" && forall j :: k < j < |texts| ==> texts[j] == ""
  }

  lemma {:induction false} FirstAndLast(texts: seq<string>)
    ensures FirstText(texts, "") == LastText(texts, "") <==> forall j, k :: FirstSet(texts, j) && LastSet(texts, k) ==> texts[j] == texts[k]
  {
    FirstTextIs(texts);
    LastTextIs(texts);
    if FirstText(texts, "") == LastText(texts, "") {
      forall j, k | FirstSet(texts, j) && LastSet(texts, k) ensures texts[j] == texts[k] {
        FirstSetUnique(texts, j);
        LastSetUnique(texts, k);
      }
    }
  }

  lemma {:induction false} FirstTextIs(texts: seq<string>)
    ensures if FirstText(texts, "") == "" then forall k :: 0 <= k < |texts| ==> texts[k] == ""
            else exists k :: FirstSet(texts, k) && texts[k] == FirstText(texts, "")
  {
    if texts != [] && texts[0] == "" {
      FirstTextIs(texts[1..]);
      if FirstText(texts, "") != "" {
        var k :| FirstSet(texts[1..], k) && texts[1..][k] == FirstText(texts[1..], "");
        forall j | 0 <= j < k + 1 ensures texts[j] == "" {
          assert j > 0 ==> texts[j] == texts[1..][j - 1];
        }
        assert FirstSet(texts, k + 1);
      } else {
        forall k | 0 <= k < |texts| ensures texts[k] == "" {
          assert k > 0 ==> texts[k] == texts[1..][k - 1];
        }
      }
    } else if texts != [] {
      assert FirstSet(texts, 0);
    }
  }

  lemma {:induction false} LastTextIs(texts: seq<string>)
    ensures if LastText(texts, "") == "" then forall k :: 0 <= k < |texts| ==> texts[k] == ""
            else exists k :: LastSet(texts, k) && texts[k] == LastText(texts, "")
  {
    if texts != [] {
      var n := |texts| - 1;
      if texts[n] != "" {
        assert LastSet(texts, n);
      } else {
        LastTextIs(texts[..n]);
        if LastText(texts, "") != "" {
          var k :| LastSet(texts[..n], k) && texts[..n][k] == LastText(texts[..n], "");
          assert LastSet(texts, k);
        }
      }
    }
  }

  lemma {:induction false} FirstSetUnique(texts: seq<string>, j: int)
    requires FirstSet(texts, j)
    ensures FirstText(texts, "") == texts[j]
  {
    FirstTextIs(texts);
    var k :| FirstSet(texts, k) && texts[k] == FirstText(texts, "");
    assert j == k;
  }

  lemma {:induction false} LastSetUnique(texts: seq<string>, j: int)
    requires LastSet(texts, j)
    ensures LastText(texts, "") == texts[j]
  {
    LastTextIs(texts);
    var k :| LastSet(texts, k) && texts[k] == LastText(texts, "");
    assert j == k;
  }

  lemma {:induction false} TextsOfSnoc(init: seq<Fragment>, last: Fragment, field: Fragment -> string)
    ensures TextsOf(init + [last], field) == TextsOf(init, field) + [field(last)]
    ensures TextsOf(init + [last], field)[..|init|] == TextsOf(init, field)
  {
  }

  // ---- The list of calls, and back ---------------------------------------------------------

  /** The keys of a dictionary in ascending order. */
  ghost function SortedKeys(keys: set<int>): seq<int>
    decreases |keys|
  {
    if keys == {} then []
    else
      HasLeast(keys);
      var least :| least in keys && forall k :: k in keys ==> least <= k;
      [least] + SortedKeys(keys - {least})
  }

  lemma {:induction false} SortedKeysOf(keys: set<int>)
    ensures forall k :: k in SortedKeys(keys) <==> k in keys
    ensures forall i, j :: 0 <= i < j < |SortedKeys(keys)| ==> SortedKeys(keys)[i] < SortedKeys(keys)[j]
    decreases |keys|
  {
    if keys != {} {
      HasLeast(keys);
      var sorted := SortedKeys(keys);
      var least := sorted[0];
      SortedKeysOf(keys - {least});
      var rest := SortedKeys(keys - {least});
      assert sorted == [least] + rest;
      forall j | 0 <= j < |rest| ensures least < rest[j] {
        assert rest[j] in rest;
      }
    }
  }

  /** An ascending list is determined by its elements. */
  lemma {:induction false} AscendingUnique(a: seq<int>, b: seq<int>)
    requires forall i, j :: 0 <= i < j < |a| ==> a[i] < a[j]
    requires forall i, j :: 0 <= i < j < |b| ==> b[i] < b[j]
    requires forall k :: k in a <==> k in b
    ensures a == b
  {
    if a == [] {
      NoElement(b);
    } else {
      assert a[0] in b && b[0] in a;
      assert a[0] == b[0];
      forall k ensures k in a[1..] <==> k in b[1..] {
        assert k in a[1..] ==> k in a && k != a[0];
        assert k in b[1..] ==> k in b && k != b[0];
        assert a == [a[0]] + a[1..] && b == [b[0]] + b[1..];
      }
      AscendingUnique(a[1..], b[1..]);
    }
  }

  /** `[merged[i] for i in sorted(merged)]` */
  ghost function CallList(merged: map<int, ToolCall>): seq<ToolCall> {
    SortedKeysOf(merged.Keys);
    var keys := SortedKeys(merged.Keys);
    assert forall i :: 0 <= i < |keys| ==> keys[i] in keys;
    seq(|keys|, i requires 0 <= i < |keys| => merged[keys[i]])
  }

  /** The shape of a merged call: a kind, and no empty text where a text may be missing. */
  predicate Canonical(call: ToolCall) {
    call.kind != "" && call.name != Some("") && call.arguments != Some("")
  }

  /** A complete call sent as one indexed fragment. */
  function AsFragment(call: ToolCall, i: nat): Fragment {
    Fragment(Some(i), call.id, call.kind, TextOr(call.name, ""), TextOr(call.arguments, ""))
  }

  function Split(calls: seq<ToolCall>): seq<Fragment> {
    seq(|calls|, i requires 0 <= i < |calls| => AsFragment(calls[i], i))
  }

  lemma {:induction false} SplitMerged(calls: seq<ToolCall>)
    ensures forall i :: i in Merge(Split(calls)) <==> 0 <= i < |calls|
    ensures forall i :: 0 <= i < |calls| ==> Merge(Split(calls))[i] == Absorb(BLANK, AsFragment(calls[i], i))
  {
    if calls != [] {
      var n := |calls| - 1;
      SplitMerged(calls[..n]);
      assert Split(calls)[..n] == Split(calls[..n]);
    }
  }

  /** Complete calls split into one fragment each and merged again are the same list exactly when each
      has the shape of a merged call - which every merged call has. */
  lemma {:induction false} SplitThenMergeIff(calls: seq<ToolCall>)
    ensures CallList(Merge(Split(calls))) == calls <==> forall i :: 0 <= i < |calls| ==> Canonical(calls[i])
  {
    hide Merge, SortedKeys;
    SplitMerged(calls);
    var merged := Merge(Split(calls));
    var upTo := seq(|calls|, i => i);
    SortedKeysOf(merged.Keys);
    forall k ensures k in upTo <==> 0 <= k < |calls| {
      assert 0 <= k < |calls| ==> upTo[k] == k;
    }
    AscendingUnique(SortedKeys(merged.Keys), upTo);
    assert CallList(merged) == seq(|calls|, i requires 0 <= i < |calls| => Absorb(BLANK, AsFragment(calls[i], i)));
    forall i | 0 <= i < |calls| ensures Absorb(BLANK, AsFragment(calls[i], i)) == calls[i] <==> Canonical(calls[i]) {
      assert "" + TextOr(calls[i].arguments, "") == TextOr(calls[i].arguments, "");
    }
    if CallList(merged) == calls {
      forall i | 0 <= i < |calls| ensures Canonical(calls[i]) {
        assert CallList(merged)[i] == calls[i];
      }
    }
  }

  /** So what a gateway merged and sends on call by call arrives unchanged. */
  lemma {:induction false} MergedCallsTravel(fragments: seq<Fragment>)
    ensures CallList(Merge(Split(CallList(Merge(fragments))))) == CallList(Merge(fragments))
  {
    var calls := CallList(Merge(fragments));
    var keys := SortedKeys(Merge(fragments).Keys);
    SortedKeysOf(Merge(fragments).Keys);
    forall i | 0 <= i < |calls| ensures Canonical(calls[i]) {
      assert keys[i] in keys;
      MergeByIndex(fragments, keys[i]);
      MergedFields(OfIndex(fragments, keys[i]));
    }
    SplitThenMergeIff(calls);
  }
}
