/** Synchronising the model rows of a provider with the list its upstream offers. */
module ModelSync {
  import opened Prelude
  import opened Store

  // ---- What one synchronisation does ---------------------------------------------------------

  /** What happens to a row of the provider. */
  function SyncRow(row: Model, upstream: seq<string>): Model {
    if row.upstream in upstream then
      if row.missing then row.(missing := false, enabled := true) else row
    else if row.missing then row
    else row.(missing := true, enabled := false)
  }

  function Known(models: map<Id, Model>, provider: Id): set<string> {
    set m | m in models && models[m].provider == provider :: models[m].upstream
  }

  /** The offered ids without a row yet, in the order offered - with repetitions. */
  function NewIds(upstream: seq<string>, known: set<string>): seq<string> {
    if upstream == [] then []
    else
      var id := upstream[|upstream| - 1];
      NewIds(upstream[..|upstream| - 1], known) + (if id in known then [] else [id])
  }

  /** The ids newly found missing, in row order. */
  function Retired(models: map<Id, Model>, rows: seq<Id>, upstream: seq<string>): seq<string>
    requires forall i :: 0 <= i < |rows| ==> rows[i] in models
  {
    if rows == [] then []
    else
      var row := models[rows[|rows| - 1]];
      Retired(models, rows[..|rows| - 1], upstream) + (if row.upstream in upstream || row.missing then [] else [row.upstream])
  }

  /** `rows` lists the rows of the provider, in whatever order the database returns them. */
  ghost predicate RowsOf(models: map<Id, Model>, provider: Id, rows: seq<Id>) {
    Distinct(rows) && forall m :: m in rows <==> m in models && models[m].provider == provider
  }

  /** Old rows stay, with `change` applied to those of the provider; `ids` are the rows of the new ids. */
  ghost predicate Extended(before: map<Id, Model>, after: map<Id, Model>, provider: Id, change: Model -> Model,
                           added: seq<string>, ids: seq<Id>) {
    && |ids| == |added| && Distinct(ids)
    && (forall m :: m in after <==> m in before || m in ids)
    && (forall m :: m in before ==>
      m !in ids && after[m] == if before[m].provider == provider then change(before[m]) else before[m])
    && (forall i :: 0 <= i < |ids| ==> after[ids[i]] == Model(provider, added[i], true, false))
  }

  ghost predicate Synced(before: map<Id, Model>, after: map<Id, Model>, provider: Id, upstream: seq<string>,
                         added: seq<string>, ids: seq<Id>) {
    && added == NewIds(upstream, Known(before, provider))
    && Extended(before, after, provider, (row: Model) => SyncRow(row, upstream), added, ids)
  }

  lemma {:induction false} ExtendedStep(before: map<Id, Model>, after: map<Id, Model>, provider: Id,
        added: seq<string>, ids: seq<Id>,
                     row: Id, upstreamId: string)
    requires Extended(before, after, provider, (r: Model) => r, added, ids) && row !in after
    ensures Extended(before, after[row := Model(provider, upstreamId, true, false)], provider, (r: Model) => r,
      added + [upstreamId], ids + [row])
  {
    assert forall i :: 0 <= i < |ids| ==> ids[i] in ids && ids[i] in after;
    assert forall m :: m in ids + [row] <==> m in ids || m == row;
  }

  /** The loop over the offered ids. */
  method AddNew(before: map<Id, Model>, provider: Id, upstream: seq<string>, existing: set<string>)
    returns (after: map<Id, Model>, added: seq<string>, ghost ids: seq<Id>)
    ensures added == NewIds(upstream, existing)
    ensures Extended(before, after, provider, (r: Model) => r, added, ids)
  {
    hide Extended;
    after, added, ids := before, [], [];
    assert Extended(before, after, provider, (r: Model) => r, [], []) by {
      NothingAdded(before, provider);
    }
    assert upstream[..0] == [];
    for i := 0 to |upstream|
      invariant added == NewIds(upstream[..i], existing)
      invariant Extended(before, after, provider, (r: Model) => r, added, ids)
    {
      assert upstream[..i + 1][..i] == upstream[..i];
      if upstream[i] in existing {
        continue;
      }
      var row := FreshId(after.Keys);
      ExtendedStep(before, after, provider, added, ids, row, upstream[i]);
      after := after[row := Model(provider, upstream[i], true, false)];
      added := added + [upstream[i]];
      ids := ids + [row];
    }
    assert upstream[..|upstream|] == upstream;
  }

  lemma {:induction false} NothingAdded(before: map<Id, Model>, provider: Id)
    ensures Extended(before, before, provider, (r: Model) => r, [], [])
  {
  }

  /** The rows of the list are changed, nothing else is. */
  ghost predicate Changed(before: map<Id, Model>, after: map<Id, Model>, rows: seq<Id>, upstream: seq<string>) {
    && after.Keys == before.Keys
    && forall m :: m in before ==> after[m] == if m in rows then SyncRow(before[m], upstream) else before[m]
  }

  /** The loop over the old rows: back on the list, or newly gone. */
  method MarkMissing(before: map<Id, Model>, rows: seq<Id>, upstream: seq<string>)
    returns (after: map<Id, Model>, removed: seq<string>)
    requires Distinct(rows) && forall i :: 0 <= i < |rows| ==> rows[i] in before
    ensures Changed(before, after, rows, upstream) && removed == Retired(before, rows, upstream)
  {
    after, removed := before, [];
    assert rows[..0] == [];
    for i := 0 to |rows|
      invariant Changed(before, after, rows[..i], upstream)
      invariant removed == Retired(before, rows[..i], upstream)
    {
      var row := before[rows[i]];
      assert rows[..i + 1][..i] == rows[..i] && rows[..i + 1] == rows[..i] + [rows[i]];
      assert rows[i] !in rows[..i];
      if row.upstream in upstream {
        if row.missing {
          after := after[rows[i] := row.(missing := false, enabled := true)];
        }
      } else if !row.missing {
        after := after[rows[i] := row.(missing := true, enabled := false)];
        removed := removed + [row.upstream];
      }
    }
    assert rows[..|rows|] == rows;
  }

  /** `_sync_models` */
  method SyncModels(db: Database, provider: Id, upstream: seq<string>, rows: seq<Id>)
    returns (added: seq<string>, removed: seq<string>, ghost ids: seq<Id>)
    requires db.Valid() && provider in db.providers && RowsOf(db.models, provider, rows)
    modifies db`models
    ensures db.Valid()
    ensures Synced(old(db.models), db.models, provider, upstream, added, ids)
    ensures (forall i :: 0 <= i < |rows| ==> rows[i] in old(db.models)) && removed == Retired(old(db.models), rows, upstream)
  {
    hide JudgesRefer, MembersRefer, GrantsRefer, GrantsOwned;
    hide Owned, UniqueGrants, UniquePipelineNames, UniqueProviders, UniqueUsernames;
    hide ModelsRefer, Changed, Extended, SyncRow, Distinct;
    var before := db.models;
    var existing := Known(before, provider);
    var extended, offered, newIds := AddNew(before, provider, upstream, existing);
    OldRows(before, extended, provider, offered, newIds, rows, upstream);
    var after, gone := MarkMissing(extended, rows, upstream);
    SyncedBoth(before, extended, after, provider, upstream, offered, newIds, rows);
    SyncedKeeps(before, after, provider, upstream, offered, newIds, db.providers.Keys, db.pipelines, db.members, db.grants);
    db.models := after;
    return offered, gone, newIds;
  }

  lemma {:induction false} OldRows(before: map<Id, Model>, extended: map<Id, Model>, provider: Id, added: seq<string>,
        ids: seq<Id>,
                rows: seq<Id>, upstream: seq<string>)
    requires Extended(before, extended, provider, (r: Model) => r, added, ids) && RowsOf(before, provider, rows)
    ensures forall i :: 0 <= i < |rows| ==> rows[i] in before && rows[i] in extended
    ensures Retired(extended, rows, upstream) == Retired(before, rows, upstream)
  {
    assert forall i :: 0 <= i < |rows| ==> rows[i] in rows;
    RetiredSame(before, extended, rows, upstream);
  }

  lemma {:induction false} RetiredSame(a: map<Id, Model>, b: map<Id, Model>, rows: seq<Id>, upstream: seq<string>)
    requires forall i :: 0 <= i < |rows| ==> rows[i] in a && rows[i] in b && a[rows[i]] == b[rows[i]]
    ensures Retired(a, rows, upstream) == Retired(b, rows, upstream)
  {
    if rows != [] {
      RetiredSame(a, b, rows[..|rows| - 1], upstream);
    }
  }

  lemma {:induction false} SyncedBoth(before: map<Id, Model>, extended: map<Id, Model>, after: map<Id, Model>,
        provider: Id, upstream: seq<string>,
                   added: seq<string>, ids: seq<Id>, rows: seq<Id>)
    requires added == NewIds(upstream, Known(before, provider)) && RowsOf(before, provider, rows)
    requires Extended(before, extended, provider, (r: Model) => r, added, ids) && Changed(extended, after, rows, upstream)
    ensures Synced(before, after, provider, upstream, added, ids)
  {
    hide SyncRow, Known, NewIds;
    assert forall i :: 0 <= i < |ids| ==> ids[i] in ids && ids[i] in extended && ids[i] !in rows;
  }

  /** New rows and changed flags break no reference. */
  lemma {:induction false} SyncedKeeps(before: map<Id, Model>, after: map<Id, Model>, provider: Id,
        upstream: seq<string>, added: seq<string>,
                    ids: seq<Id>, providers: set<Id>, pipelines: map<Id, Pipeline>, members: map<Id, Member>, grants: map<Id, Grant>)
    requires Synced(before, after, provider, upstream, added, ids) && provider in providers
    requires ModelsRefer(before, providers) && JudgesRefer(pipelines, before.Keys) && MembersRefer(members, pipelines.Keys, before.Keys)
    requires GrantsRefer(grants, pipelines.Keys, before.Keys, providers)
    ensures ModelsRefer(after, providers) && JudgesRefer(pipelines, after.Keys) && MembersRefer(members, pipelines.Keys, after.Keys)
    ensures GrantsRefer(grants, pipelines.Keys, after.Keys, providers)
  {
    forall m | m in after ensures after[m].provider in providers {
      if m !in before {
        var i :| 0 <= i < |ids| && ids[i] == m;
      }
    }
  }

  // ---- What the administrator can rely on ----------------------------------------------------

  lemma {:induction false} NewIdsAre(upstream: seq<string>, known: set<string>)
    ensures forall u :: u in NewIds(upstream, known) <==> u in upstream && u !in known
    ensures Distinct(upstream) ==> Distinct(NewIds(upstream, known))
  {
    if upstream != [] {
      var init, last := upstream[..|upstream| - 1], upstream[|upstream| - 1];
      NewIdsAre(init, known);
      assert upstream == init + [last];
      assert Distinct(upstream) ==> Distinct(init) && last !in init;
    }
  }

  /** A row that was not there before is one of the new ids. */
  lemma {:induction false} NewRow(before: map<Id, Model>, after: map<Id, Model>, provider: Id, upstream: seq<string>,
        added: seq<string>, ids: seq<Id>, m: Id)
    returns (i: nat)
    requires Synced(before, after, provider, upstream, added, ids) && m in after && m !in before
    ensures i < |ids| && ids[i] == m && after[m] == Model(provider, added[i], true, false) && added[i] in upstream
    ensures added[i] !in Known(before, provider)
  {
    i :| 0 <= i < |ids| && ids[i] == m;
    NewIdsAre(upstream, Known(before, provider));
    assert added[i] in added;
  }

  /** After a synchronisation no row is gone, and a row of the provider is marked missing exactly when
      the upstream does not offer it. */
  lemma {:induction false} MissingIffAbsent(before: map<Id, Model>, after: map<Id, Model>, provider: Id,
        upstream: seq<string>, added: seq<string>, ids: seq<Id>)
    requires Synced(before, after, provider, upstream, added, ids)
    ensures before.Keys <= after.Keys
    ensures forall m :: m in after && after[m].provider == provider ==> (after[m].missing <==> after[m].upstream !in upstream)
    ensures forall u :: u in upstream ==> u in Known(after, provider)
  {
    forall m | m in after && after[m].provider == provider ensures after[m].missing <==> after[m].upstream !in upstream {
      if m !in before {
        var i := NewRow(before, after, provider, upstream, added, ids, m);
      }
    }
    NewIdsAre(upstream, Known(before, provider));
    forall u | u in upstream ensures u in Known(after, provider) {
      if u in Known(before, provider) {
        var m :| m in before && before[m].provider == provider && before[m].upstream == u;
        assert after[m].upstream == u;
      } else {
        assert u in added;
        var i :| 0 <= i < |added| && added[i] == u;
        assert ids[i] in ids;
        assert after[ids[i]].upstream == u;
      }
    }
  }

  /** Synchronising again with the same list reports nothing and changes nothing. */
  lemma {:induction false} SyncTwice(a: map<Id, Model>, b: map<Id, Model>, c: map<Id, Model>, provider: Id,
        upstream: seq<string>, rows: seq<Id>,
                  added: seq<string>, ids: seq<Id>, again: seq<string>, ids2: seq<Id>)
    requires Synced(a, b, provider, upstream, added, ids) && Synced(b, c, provider, upstream, again, ids2)
    requires RowsOf(b, provider, rows)
    ensures again == [] && c == b
    ensures (forall i :: 0 <= i < |rows| ==> rows[i] in b) && Retired(b, rows, upstream) == []
  {
    MissingIffAbsent(a, b, provider, upstream, added, ids);
    NewIdsAre(upstream, Known(b, provider));
    NoElement(again);
    forall m | m in b ensures c[m] == b[m] {
      assert b[m].provider == provider ==> SyncRow(b[m], upstream) == b[m];
    }
    assert c.Keys == b.Keys;
    assert forall i :: 0 <= i < |rows| ==> rows[i] in rows;
    NothingRetired(b, rows, upstream);
  }

  lemma {:induction false} NothingRetired(models: map<Id, Model>, rows: seq<Id>, upstream: seq<string>)
    requires forall i :: 0 <= i < |rows| ==> rows[i] in models
    requires forall i :: 0 <= i < |rows| ==> (models[rows[i]].missing <==> models[rows[i]].upstream !in upstream)
    ensures Retired(models, rows, upstream) == []
  {
    if rows != [] {
      NothingRetired(models, rows[..|rows| - 1], upstream);
    }
  }

  predicate OneRowPerId(models: map<Id, Model>, provider: Id) {
    forall m, n ::
      (m in models && n in models && models[m].provider == models[n].provider == provider && models[m].upstream == models[n].upstream)
      ==> m == n
  }

  /** The rows stay one per upstream id exactly when no new id is offered twice; a list without
      repetitions is enough. */
  lemma {:induction false} OneRowPerIdIff(before: map<Id, Model>, after: map<Id, Model>, provider: Id,
        upstream: seq<string>, added: seq<string>, ids: seq<Id>)
    requires Synced(before, after, provider, upstream, added, ids)
    ensures OneRowPerId(after, provider) <==> OneRowPerId(before, provider) && Distinct(added)
    ensures Distinct(upstream) ==> Distinct(added)
  {
    NewIdsAre(upstream, Known(before, provider));
    if OneRowPerId(before, provider) && Distinct(added) {
      forall m, n | m in after && n in after && after[m].provider == provider && after[n].provider == provider
        && after[m].upstream == after[n].upstream ensures m == n {
        SameRow(before, after, provider, upstream, added, ids, m, n);
      }
    }
    if OneRowPerId(after, provider) {
      forall m, n | m in before && n in before && before[m].provider == provider && before[n].provider == provider
        && before[m].upstream == before[n].upstream ensures m == n {
        assert after[m].upstream == after[n].upstream;
      }
      forall i, j | 0 <= i < j < |added| ensures added[i] != added[j] {
        assert ids[i] in ids && ids[j] in ids;
        assert after[ids[i]].upstream == added[i] && after[ids[j]].upstream == added[j];
      }
    }
  }

  lemma {:induction false} SameRow(before: map<Id, Model>, after: map<Id, Model>, provider: Id, upstream: seq<string>,
        added: seq<string>, ids: seq<Id>,
                m: Id, n: Id)
    requires Synced(before, after, provider, upstream, added, ids)
    requires OneRowPerId(before, provider) && Distinct(added)
    requires m in after && n in after && after[m].provider == provider && after[n].provider == provider
    requires after[m].upstream == after[n].upstream
    ensures m == n
  {
    KnownIds(before, provider);
    if m !in before {
      var i := NewRow(before, after, provider, upstream, added, ids, m);
      if n !in before {
        var j := NewRow(before, after, provider, upstream, added, ids, n);
      }
    } else if n !in before {
      var j := NewRow(before, after, provider, upstream, added, ids, n);
    }
  }

  lemma {:induction false} KnownIds(models: map<Id, Model>, provider: Id)
    ensures forall m :: m in models && models[m].provider == provider ==> models[m].upstream in Known(models, provider)
  {
  }

  // ---- Runs of synchronisations --------------------------------------------------------------

  function RowAfter(row: Model, lists: seq<seq<string>>): Model {
    if lists == [] then row else SyncRow(RowAfter(row, lists[..|lists| - 1]), lists[|lists| - 1])
  }

  ghost predicate SyncedWith(before: map<Id, Model>, after: map<Id, Model>, provider: Id, upstream: seq<string>) {
    exists added, ids :: Synced(before, after, provider, upstream, added, ids)
  }

  /** States of the model table joined by synchronisations of one provider. */
  ghost predicate SyncRun(states: seq<map<Id, Model>>, provider: Id, lists: seq<seq<string>>) {
    |states| == |lists| + 1 && forall i :: 0 <= i < |lists| ==> SyncedWith(states[i], states[i + 1], provider, lists[i])
  }

  lemma {:induction false} RowStep(before: map<Id, Model>, after: map<Id, Model>, provider: Id, upstream: seq<string>, m: Id)
    requires SyncedWith(before, after, provider, upstream) && m in before && before[m].provider == provider
    ensures m in after && after[m] == SyncRow(before[m], upstream) && after[m].provider == provider
  {
    var added, ids :| Synced(before, after, provider, upstream, added, ids);
  }

  /** In a run every row of the provider evolves on its own. */
  lemma {:induction false} RunRow(states: seq<map<Id, Model>>, provider: Id, lists: seq<seq<string>>, m: Id, n: nat)
    requires SyncRun(states, provider, lists) && m in states[0] && states[0][m].provider == provider && n <= |lists|
    ensures m in states[n] && states[n][m] == RowAfter(states[0][m], lists[..n]) && states[n][m].provider == provider
  {
    if n > 0 {
      hide SyncedWith, SyncRow;
      RunRow(states, provider, lists, m, n - 1);
      RowStep(states[n - 1], states[n], provider, lists[n - 1], m);
      assert lists[..n][..n - 1] == lists[..n - 1];
    }
  }

  predicate AllOffer(lists: seq<seq<string>>, id: string) {
    forall i :: 0 <= i < |lists| ==> id in lists[i]
  }

  lemma {:induction false} OfferedRow(row: Model, lists: seq<seq<string>>)
    requires !row.missing
    ensures RowAfter(row, lists).upstream == row.upstream
    ensures RowAfter(row, lists).missing <==> lists != [] && row.upstream !in lists[|lists| - 1]
    ensures AllOffer(lists, row.upstream) ==> RowAfter(row, lists) == row
    ensures !AllOffer(lists, row.upstream) ==> RowAfter(row, lists).enabled == !RowAfter(row, lists).missing
  {
    if lists != [] {
      var init, last := lists[..|lists| - 1], lists[|lists| - 1];
      OfferedRow(row, init);
      assert AllOffer(lists, row.upstream) <==> AllOffer(init, row.upstream) && row.upstream in last by {
        assert lists == init + [last];
        assert forall i :: 0 <= i < |init| ==> lists[i] == init[i];
      }
    }
  }

  /** A model the administrator switched off by hand stays off through every run of synchronisations
      that keep offering it; it comes back on its own exactly when some list left it out and the last
      one offers it again. */
  lemma {:induction false} ManualDisableIff(states: seq<map<Id, Model>>, provider: Id, lists: seq<seq<string>>, m: Id)
    requires SyncRun(states, provider, lists) && m in states[0] && states[0][m].provider == provider
    requires !states[0][m].enabled && !states[0][m].missing
    ensures m in states[|lists|]
    ensures states[|lists|][m].enabled
       <==> !AllOffer(lists, states[0][m].upstream) && states[0][m].upstream in lists[|lists| - 1]
    ensures AllOffer(lists, states[0][m].upstream) ==> states[|lists|][m] == states[0][m]
  {
    hide SyncedWith, AllOffer, RowAfter;
    var row := states[0][m];
    NoLists(lists, row.upstream);
    RunRow(states, provider, lists, m, |lists|);
    assert lists[..|lists|] == lists;
    OfferedRow(row, lists);
  }

  lemma {:induction false} NoLists(lists: seq<seq<string>>, id: string)
    ensures lists == [] ==> AllOffer(lists, id)
  {
  }
}
