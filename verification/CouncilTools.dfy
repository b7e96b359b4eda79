/** The fallback of the tool aggregation and the list of offered functions, in terms of the survivors'
    calls and of the request's `tools`. */
module CouncilTools {
  import opened Prelude
  import opened JsonText
  import opened Calls
  import opened Council

  // ---- The fallback ------------------------------------------------------------------------

  /** The names of all calls of the survivors, in configuration order and then in call order. */
  function NamesCalled(ok: seq<Outcome>): seq<string> {
    if ok == [] then [] else NamesCalled(ok[..|ok| - 1]) + NamesIn(ok[|ok| - 1].toolCalls)
  }

  function NamesIn(calls: seq<ToolCall>): seq<string> {
    if calls == [] then []
    else NamesIn(calls[..|calls| - 1]) + (match calls[|calls| - 1].name case Some(name) => [name] case None => [])
  }

  /** Every call has a name - without, the intents of the members could not have been written. */
  ghost predicate Named(calls: seq<ToolCall>) {
    forall i :: 0 <= i < |calls| ==> calls[i].name.Some?
  }

  lemma {:induction false} NamesAreIn(calls: seq<ToolCall>)
    requires Named(calls)
    ensures NamesOf(calls) == NamesIn(calls)
  {
    if calls != [] {
      var n := |calls| - 1;
      NamesAreIn(calls[..n]);
      assert NamesOf(calls) == NamesOf(calls[..n]) + [calls[n].name.value];
    }
  }

  lemma {:induction false} CallListsSnoc(ok: seq<Outcome>, o: Outcome)
    ensures CallLists(ok + [o]) == CallLists(ok) + (if o.toolCalls != [] then [o.toolCalls] else [])
  {
    if ok == [] {
      assert [] + [o] == [o] && [o][1..] == [];
    } else {
      assert (ok + [o])[0] == ok[0] && (ok + [o])[1..] == ok[1..] + [o];
      CallListsSnoc(ok[1..], o);
      hide CallLists;
      var first := if ok[0].toolCalls != [] then [ok[0].toolCalls] else [];
      AppendAssociates(first, CallLists(ok[1..]), if o.toolCalls != [] then [o.toolCalls] else []);
    }
  }

  lemma {:induction false} AllNamesSnoc(lists: seq<seq<ToolCall>>, calls: seq<ToolCall>)
    ensures AllNames(lists + [calls]) == AllNames(lists) + NamesOf(calls)
  {
    hide NamesOf;
    if lists == [] {
      assert [] + [calls] == [calls] && [calls][1..] == [];
    } else {
      assert (lists + [calls])[0] == lists[0] && (lists + [calls])[1..] == lists[1..] + [calls];
      AllNamesSnoc(lists[1..], calls);
    }
  }

  lemma {:induction false} AllNamesAre(ok: seq<Outcome>)
    requires forall i :: 0 <= i < |ok| ==> Named(ok[i].toolCalls)
    ensures AllNames(CallLists(ok)) == NamesCalled(ok)
  {
    if ok != [] {
      hide AllNames, CallLists, NamesOf, Named;
      var front, o := ok[..|ok| - 1], ok[|ok| - 1];
      AllNamesAre(front);
      SplitLast([], ok);
      CallListsSnoc(front, o);
      if o.toolCalls != [] {
        AllNamesSnoc(CallLists(front), o.toolCalls);
        NamesAreIn(o.toolCalls);
      } else {
        assert CallLists(front) + [] == CallLists(front);
        assert NamesIn([]) == [];
      }
    } else {
      assert CallLists([]) == [] && AllNames([]) == [];
    }
  }

  /** Which survivor the `k`-th list belongs to: those before it have its predecessors or none. */
  lemma {:induction false} ListOwner(ok: seq<Outcome>, k: nat) returns (i: nat)
    requires k < |CallLists(ok)|
    ensures i < |ok| && ok[i].toolCalls == CallLists(ok)[k] && ok[i].toolCalls != []
    ensures forall j :: 0 <= j < i ==> ok[j].toolCalls == [] || ok[j].toolCalls in CallLists(ok)[..k]
  {
    if ok[0].toolCalls != [] && k == 0 {
      i := 0;
    } else {
      var skipped := if ok[0].toolCalls != [] then 1 else 0;
      var rest := CallLists(ok[1..]);
      assert CallLists(ok) == (if skipped == 1 then [ok[0].toolCalls] else []) + rest;
      var m := ListOwner(ok[1..], k - skipped);
      i := m + 1;
      forall j | 0 <= j < i ensures ok[j].toolCalls == [] || ok[j].toolCalls in CallLists(ok)[..k] {
        if j > 0 {
          assert ok[j] == ok[1..][j - 1];
          assert CallLists(ok)[..k] == (if skipped == 1 then [ok[0].toolCalls] else []) + rest[..k - skipped];
        } else if skipped == 1 {
          assert CallLists(ok)[..k][0] == ok[0].toolCalls;
        }
      }
    }
  }

  lemma {:induction false} PickedParts(lists: seq<seq<ToolCall>>, calls: seq<ToolCall>) returns (top: string, k: nat)
    requires Picked(lists, calls)
    ensures Majority(AllNames(lists), top) && k < |lists| && lists[k] == calls && top in NamesOf(calls)
    ensures forall other :: other in lists[..k] ==> top !in NamesOf(other)
  {
    hide Majority, NamesOf, AllNames;
    top, k :| Majority(AllNames(lists), top) && FirstUser(lists, top, k) && lists[k] == calls;
  }

  lemma {:induction false} NoNames()
    ensures NamesIn([]) == []
  {
  }

  /** The calls that replace an unusable answer are those of the first survivor that calls the function
      which the survivors together call most often. */
  lemma {:induction false} PickedIs(ok: seq<Outcome>, calls: seq<ToolCall>)
    requires forall i :: 0 <= i < |ok| ==> Named(ok[i].toolCalls)
    requires Picked(CallLists(ok), calls)
    ensures exists top, i ::
      && Majority(NamesCalled(ok), top)
      && 0 <= i < |ok| && ok[i].toolCalls == calls && top in NamesIn(calls)
      && forall j :: 0 <= j < i ==> top !in NamesIn(ok[j].toolCalls)
  {
    AllNamesAre(ok);
    var top, k := PickedParts(CallLists(ok), calls);
    hide *;
    var i := ListOwner(ok, k);
    NamesAreIn(ok[i].toolCalls);
    forall j | 0 <= j < i ensures top !in NamesIn(ok[j].toolCalls) {
      NamesAreIn(ok[j].toolCalls);
      if ok[j].toolCalls == [] {
        NoNames();
      } else {
        assert ok[j].toolCalls in CallLists(ok)[..k];
      }
    }
  }

  // ---- The offered functions ---------------------------------------------------------------

  /** The value that a decoded object has under a name: the one written last. */
  ghost predicate Has(fields: seq<Field>, name: string, value: Json) {
    exists k :: 0 <= k < |fields| && fields[k] == Field(name, value) && forall j :: k < j < |fields| ==> fields[j].name != name
  }

  lemma {:induction false} LookupIs(fields: seq<Field>, name: string)
    ensures match Lookup(fields, name)
            case Some(value) => Has(fields, name, value)
            case None => forall k :: 0 <= k < |fields| ==> fields[k].name != name
  {
    if fields != [] {
      var n := |fields| - 1;
      if fields[n].name == name {
        assert fields[n] == Field(name, fields[n].value);
      } else {
        var front := fields[..n];
        LookupIs(front, name);
        assert forall k :: 0 <= k < n ==> front[k] == fields[k];
        if Lookup(front, name).Some? {
          var k :| 0 <= k < n && front[k] == Field(name, Lookup(front, name).value) && forall j :: k < j < n ==> front[j].name != name;
          assert fields[k] == Field(name, Lookup(front, name).value);
        }
      }
    }
  }

  lemma {:induction false} HasOne(fields: seq<Field>, name: string, a: Json, b: Json)
    requires Has(fields, name, a) && Has(fields, name, b)
    ensures a == b
  {
    var i :| 0 <= i < |fields| && fields[i] == Field(name, a) && forall j :: i < j < |fields| ==> fields[j].name != name;
    var k :| 0 <= k < |fields| && fields[k] == Field(name, b) && forall j :: k < j < |fields| ==> fields[j].name != name;
    assert i == k;
  }

  lemma {:induction false} HasIff(fields: seq<Field>, name: string, value: Json)
    ensures Has(fields, name, value) <==> Lookup(fields, name) == Some(value)
  {
    LookupIs(fields, name);
    if Has(fields, name, value) && Lookup(fields, name).Some? {
      HasOne(fields, name, value, Lookup(fields, name).value);
    }
  }

  /** An element of `tools` offers a function under a name exactly when it is an object with a `function`
      that is an object with this `name`. */
  lemma {:induction false} OffersIff(entry: Json, name: string)
    ensures Offers(entry, name) <==>
      entry.Obj? && exists inner :: Has(entry.fields, "function", Obj(inner)) && Has(inner, "name", Str(name))
  {
    hide Has;
    if entry.Obj? {
      forall v ensures Has(entry.fields, "function", v) <==> Lookup(entry.fields, "function") == Some(v) {
        HasIff(entry.fields, "function", v);
      }
      forall inner, v ensures Has(inner, "name", v) <==> Lookup(inner, "name") == Some(v) {
        HasIff(inner, "name", v);
      }
      hide Lookup;
    }
  }

  /** Listing the offered functions raises exactly when some element is an object with a `function` that is
      no object, has no `name`, or has a list or an object for its name. */
  lemma {:induction false} UnlistableIff(list: seq<Json>)
    ensures Unlistable(list) <==>
      exists i :: 0 <= i < |list| && BadFunction(list[i])
  {
    hide BadFunction, OfferOf;
    forall i | 0 <= i < |list| ensures OfferOf(list[i]).Unreadable? <==> BadFunction(list[i]) {
      BadIff(list[i]);
    }
  }

  ghost predicate NoName(fields: seq<Field>) {
    forall name :: Has(fields, "name", name) ==> name.Arr? || name.Obj?
  }

  ghost predicate BadFunction(entry: Json) {
    entry.Obj? && exists f :: Has(entry.fields, "function", f) && (f.Obj? ==> NoName(f.fields))
  }

  lemma {:induction false} BadIff(entry: Json)
    ensures OfferOf(entry).Unreadable? <==> BadFunction(entry)
  {
    hide Has;
    if entry.Obj? {
      forall v ensures Has(entry.fields, "function", v) <==> Lookup(entry.fields, "function") == Some(v) {
        HasIff(entry.fields, "function", v);
      }
      forall inner, v ensures Has(inner, "name", v) <==> Lookup(inner, "name") == Some(v) {
        HasIff(inner, "name", v);
      }
      hide Lookup;
      var f := Lookup(entry.fields, "function");
      assert f.Some? ==> Has(entry.fields, "function", f.value);
    }
  }
}
