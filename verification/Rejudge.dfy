/** Rejudging a trace: the answers rebuilt from the logged calls, against the answers the live engine had. */
module Rejudge {
  import opened Prelude
  import opened Calls
  import opened Ice
  import opened IceDrivers
  import opened IceTheorems
  import opened IceAgreement

  // ---- The replay --------------------------------------------------------------------------

  /** `c.round or -1`: round 0 counts like no round. */
  function Rank(c: Outcome): int {
    match c.round
    case None => -1
    case Some(r) => if r == 0 then -1 else r
  }

  /** A row is of a later round than another exactly when it has a positive round that the other has not
      reached: round 0 and no round are never later than anything. */
  lemma {:induction false} LaterIff(a: Outcome, b: Outcome)
    ensures Rank(a) > Rank(b) <==>
      a.round.Some? && a.round.value > 0 && (b.round.None? || a.round.value > b.round.value)
  {
  }

  /** `member_order` and `latest`. */
  datatype Replay = Replay(order: seq<int>, latest: map<int, Outcome>)

  function Note(r: Replay, c: Outcome): Replay {
    if c.role != Member || !Ok(c) then r
    else if c.modelId !in r.latest then Replay(r.order + [c.modelId], r.latest[c.modelId := c])
    else if Rank(c) > Rank(r.latest[c.modelId]) then r.(latest := r.latest[c.modelId := c])
    else r
  }

  function Replayed(r: Replay, calls: seq<Outcome>): Replay {
    if calls == [] then r else Note(Replayed(r, calls[..|calls| - 1]), calls[|calls| - 1])
  }

  const NOTHING := Replay([], map[])

  ghost predicate Coherent(r: Replay) {
    && Distinct(r.order)
    && (forall id :: id in r.order <==> id in r.latest)
    && (forall id :: id in r.latest ==> r.latest[id].modelId == id)
  }

  lemma {:induction false} AllListed(order: seq<int>, latest: map<int, Outcome>)
    ensures (forall id :: id in order ==> id in latest) ==> forall i :: 0 <= i < |order| ==> order[i] in latest
  {
    if forall id :: id in order ==> id in latest {
      forall i | 0 <= i < |order| ensures order[i] in latest {
        var id := order[i];
        assert id in order;
      }
    }
  }

  lemma {:induction false} NoteKeepsCoherent(r: Replay, c: Outcome)
    requires Coherent(r)
    ensures Coherent(Note(r, c))
  {
  }

  lemma {:induction false} ReplayedCoherent(r: Replay, calls: seq<Outcome>)
    requires Coherent(r)
    ensures Coherent(Replayed(r, calls))
  {
    if calls != [] {
      ReplayedCoherent(r, calls[..|calls| - 1]);
      NoteKeepsCoherent(Replayed(r, calls[..|calls| - 1]), calls[|calls| - 1]);
    }
  }

  lemma {:induction false} ReplayedConcat(r: Replay, a: seq<Outcome>, b: seq<Outcome>)
    ensures Replayed(r, a + b) == Replayed(Replayed(r, a), b)
  {
    if b == [] {
      assert a + b == a;
    } else {
      ReplayedConcat(r, a, b[..|b| - 1]);
      assert (a + b)[..|a + b| - 1] == a + b[..|b| - 1];
    }
  }

  /** The rows whose answers a rejudge uses. */
  function RebuiltRows(calls: seq<Outcome>): (rows: seq<Outcome>)
    ensures |rows| == |Replayed(NOTHING, calls).order|
  {
    ReplayedCoherent(NOTHING, calls);
    var r := Replayed(NOTHING, calls);
    AllListed(r.order, r.latest);
    seq(|r.order|, i requires 0 <= i < |r.order| => r.latest[r.order[i]])
  }

  /** The loop of `prepare_rejudge`. */
  method RebuildAnswers(calls: seq<Outcome>) returns (answers: seq<(string, string)>)
    ensures answers == Answers(RebuiltRows(calls))
  {
    var latest: map<int, Outcome>, memberOrder: seq<int> := map[], [];
    for i := 0 to |calls|
      invariant Replay(memberOrder, latest) == Replayed(NOTHING, calls[..i])
      invariant forall id :: id in memberOrder ==> id in latest
    {
      var c := calls[i];
      assert calls[..i + 1][..i] == calls[..i];
      if c.role != Member || !Ok(c) {
        continue;
      }
      if c.modelId !in latest {
        memberOrder := memberOrder + [c.modelId];
        latest := latest[c.modelId := c];
      } else if Rank(c) > Rank(latest[c.modelId]) {
        latest := latest[c.modelId := c];
      }
    }
    assert calls[..|calls|] == calls;
    AllListed(memberOrder, latest);
    answers := seq(|memberOrder|, i requires 0 <= i < |memberOrder| && memberOrder[i] in latest =>
      (latest[memberOrder[i]].upstreamModelId, latest[memberOrder[i]].content));
  }

  // ---- One round in the log ----------------------------------------------------------------

  function Ids(rows: seq<Outcome>): seq<int> {
    seq(|rows|, i requires 0 <= i < |rows| => rows[i].modelId)
  }

  ghost predicate DistinctIds(rows: seq<Outcome>) {
    Distinct(Ids(rows))
  }

  /** `latest` holds exactly the answers `ok`. */
  ghost predicate Holds(r: Replay, ok: seq<Outcome>) {
    && Coherent(r)
    && (forall o :: o in ok ==> o.modelId in r.latest && r.latest[o.modelId] == o)
    && (forall id :: id in r.latest ==> id in Ids(ok))
  }

  lemma {:induction false} DistinctIdsSnoc(init: seq<Outcome>, last: Outcome)
    ensures Ids(init + [last]) == Ids(init) + [last.modelId]
    ensures DistinctIds(init + [last]) <==> DistinctIds(init) && last.modelId !in Ids(init)
  {
    var all := Ids(init + [last]);
    assert all == Ids(init) + [last.modelId];
    if DistinctIds(init + [last]) {
      forall i, j | 0 <= i < j < |init| ensures Ids(init)[i] != Ids(init)[j] {
        assert all[i] != all[j];
      }
      forall i | 0 <= i < |init| ensures Ids(init)[i] != last.modelId {
        assert all[i] != all[|init|];
      }
    }
  }

  lemma {:induction false} IdOfMember(rows: seq<Outcome>, c: Outcome)
    requires c in rows
    ensures c.modelId in Ids(rows)
  {
    var j :| 0 <= j < |rows| && rows[j] == c;
    assert Ids(rows)[j] == c.modelId;
  }

  ghost predicate LaterRows(r: Replay, rows: seq<Outcome>) {
    forall c :: c in rows ==> c.role == Member && c.modelId in r.latest && Rank(c) > Rank(r.latest[c.modelId])
  }

  /** What the rows of one later round make of `latest`. */
  ghost predicate RoundMerged(r: Replay, rows: seq<Outcome>, after: Replay) {
    && after.order == r.order && after.latest.Keys == r.latest.Keys
    && (forall c :: c in rows && c.modelId in r.latest ==> after.latest[c.modelId] == if Ok(c) then c else r.latest[c.modelId])
    && (forall id :: id in r.latest && id !in Ids(rows) ==> after.latest[id] == r.latest[id])
  }

  /** The member rows of one later round, in any order: each success replaces what was there. */
  lemma {:induction false} RoundNoted(r: Replay, rows: seq<Outcome>)
    requires DistinctIds(rows) && LaterRows(r, rows)
    ensures RoundMerged(r, rows, Replayed(r, rows))
  {
    if rows != [] {
      var n := |rows| - 1;
      var init, last := rows[..n], rows[n];
      assert rows == init + [last];
      DistinctIdsSnoc(init, last);
      assert LaterRows(r, init);
      RoundNoted(r, init);
      RoundMergedSnoc(r, init, Replayed(r, init), last);
    }
  }

  lemma {:induction false} RoundMergedSnoc(r: Replay, init: seq<Outcome>, mid: Replay, last: Outcome)
    requires RoundMerged(r, init, mid) && last.modelId !in Ids(init)
    requires last.role == Member && last.modelId in r.latest && Rank(last) > Rank(r.latest[last.modelId])
    ensures RoundMerged(r, init + [last], Note(mid, last))
  {
    hide Rank, Ids;
    DistinctIdsSnoc(init, last);
    var after := Note(mid, last);
    forall c | c in init + [last] && c.modelId in r.latest
      ensures after.latest[c.modelId] == if Ok(c) then c else r.latest[c.modelId]
    {
      if c in init {
        IdOfMember(init, c);
      }
    }
  }

  lemma {:induction false} HoldsSnoc(r: Replay, ok: seq<Outcome>, c: Outcome)
    requires Holds(r, ok) && r.order == Ids(ok)
    requires c.role == Member && Ok(c) && c.modelId !in Ids(ok)
    ensures Holds(Note(r, c), ok + [c]) && Note(r, c).order == Ids(ok + [c])
  {
    hide Rank, Ids;
    DistinctIdsSnoc(ok, c);
    NoteKeepsCoherent(r, c);
    forall o | o in ok ensures o.modelId != c.modelId {
      IdOfMember(ok, o);
    }
  }

  /** Rows of round 0: the successful ones are noted in the order in which they stand. */
  lemma {:induction false} FirstRoundNoted(rows: seq<Outcome>)
    requires forall c :: c in rows ==> c.role == Member
    requires DistinctIds(Survivors(rows))
    ensures Holds(Replayed(NOTHING, rows), Survivors(rows)) && Replayed(NOTHING, rows).order == Ids(Survivors(rows))
  {
    if rows != [] {
      hide Holds, Ids, Note;
      var n := |rows| - 1;
      var init, last := rows[..n], rows[n];
      assert rows == init + [last];
      SurvivorsSnoc(init, last);
      if Ok(last) {
        DistinctIdsSnoc(Survivors(init), last);
        FirstRoundNoted(init);
        HoldsSnoc(Replayed(NOTHING, init), Survivors(init), last);
      } else {
        FirstRoundNoted(init);
        SkipFailed(Replayed(NOTHING, init), last);
      }
    }
  }

  lemma {:induction false} SkipFailed(r: Replay, c: Outcome)
    requires !Ok(c) || c.role != Member
    ensures Note(r, c) == r
  {
  }

  lemma {:induction false} SurvivorsSnoc(init: seq<Outcome>, last: Outcome)
    ensures Survivors(init + [last]) == if Ok(last) then Survivors(init) + [last] else Survivors(init)
  {
    SurvivorsConcat(init, [last]);
    assert Survivors([last]) == (if Ok(last) then [last] else []) + Survivors([]);
  }

  lemma {:induction false} SurvivorsCons(o: Outcome, rest: seq<Outcome>)
    ensures Survivors([o] + rest) == (if Ok(o) then [o] else []) + Survivors(rest)
  {
    assert ([o] + rest)[1..] == rest;
  }

  lemma {:induction false} SurvivorsConcat(a: seq<Outcome>, b: seq<Outcome>)
    ensures Survivors(a + b) == Survivors(a) + Survivors(b)
  {
    if a == [] {
      assert a + b == b;
    } else {
      hide Survivors;
      assert a == [a[0]] + a[1..] && a + b == [a[0]] + (a[1..] + b);
      SurvivorsCons(a[0], a[1..]);
      SurvivorsCons(a[0], a[1..] + b);
      SurvivorsConcat(a[1..], b);
      AppendAssociates(if Ok(a[0]) then [a[0]] else [], Survivors(a[1..]), Survivors(b));
    }
  }

  lemma {:induction false} IdsRearranged(a: seq<Outcome>, b: seq<Outcome>)
    requires multiset(a) == multiset(b)
    ensures multiset(Ids(a)) == multiset(Ids(b))
    decreases |a|
  {
    if a == [] {
      assert |b| == |multiset(b)| == 0;
    } else {
      assert a[0] in multiset(b);
      var k :| 0 <= k < |b| && b[k] == a[0];
      WithoutMultiset(a, 0);
      WithoutMultiset(b, k);
      IdsRearranged(Without(a, 0), Without(b, k));
      IdsWithout(a, 0);
      IdsWithout(b, k);
    }
  }

  lemma {:induction false} IdsWithout(a: seq<Outcome>, k: nat)
    requires k < |a|
    ensures multiset(Ids(a)) == multiset(Ids(Without(a, k))) + multiset{a[k].modelId}
  {
    assert Ids(Without(a, k)) == Without(Ids(a), k);
    WithoutMultiset(Ids(a), k);
  }

  // ---- A whole log -------------------------------------------------------------------------

  ghost predicate RoundsUpTo(ok: seq<Outcome>, k: nat) {
    forall o :: o in ok ==> o.round.Some? && o.round.value <= k
  }

  lemma {:induction false} RefinedRows(run: Run, ok: seq<Outcome>, critique: string, round: nat)
    requires Known(run, ok)
    ensures var refined := RefineRound(run, ok, critique, round);
      && |refined| == |ok|
      && forall i :: 0 <= i < |refined| ==>
           refined[i].role == Member && refined[i].modelId == ok[i].modelId && refined[i].round == Some(round)
  {
    hide RefinePrompt, BuildRequest, RefineMessages, MergeParams, SpecOf;
  }

  lemma {:induction false} CritiqueIsJudges(run: Run, ok: seq<Outcome>, session: seq<Message>, round: nat)
    ensures RoundCritique(run, ok, session, round).role == JudgeCritique
  {
    hide CritiquePrompt, BuildRequest;
  }

  lemma {:induction false} RowsOfRound(run: Run, s: State)
    requires Known(run, s.ok)
    ensures var refined := NextRound(run, s).refined;
      && |refined| == |s.ok|
      && (forall i :: 0 <= i < |refined| ==>
            refined[i].role == Member && refined[i].modelId == s.ok[i].modelId && refined[i].round == Some(s.round + 1))
      && NextRound(run, s).after.ok == Carry(s.ok, refined)
      && NextRound(run, s).critique.role == JudgeCritique
  {
    hide Known, RefineRound, RoundCritique, Extended, ParseVerdict, Carry;
    RefinedRows(run, s.ok, s.verdict.critique, s.round + 1);
    CritiqueIsJudges(run, Carry(s.ok, RefineRound(run, s.ok, s.verdict.critique, s.round + 1)), s.session, s.round + 1);
  }

  /** The rows of a round answer for the members of the round before, in a later round. */
  ghost predicate Follows(ok: seq<Outcome>, refined: seq<Outcome>, k: nat) {
    && |refined| == |ok|
    && forall i :: 0 <= i < |ok| ==>
         refined[i].role == Member && refined[i].modelId == ok[i].modelId && refined[i].round == Some(k + 1)
  }

  lemma {:induction false} RowsReady(r: Replay, ok: seq<Outcome>, refined: seq<Outcome>, rows: seq<Outcome>, k: nat)
    requires Holds(r, ok) && DistinctIds(ok) && RoundsUpTo(ok, k) && Follows(ok, refined, k)
    requires multiset(rows) == multiset(refined)
    ensures DistinctIds(rows) && LaterRows(r, rows)
  {
    assert Ids(refined) == Ids(ok);
    IdsRearranged(rows, refined);
    DistinctRearranged(Ids(refined), Ids(rows));
    forall c | c in rows ensures c.role == Member && c.modelId in r.latest && Rank(c) > Rank(r.latest[c.modelId]) {
      assert c in multiset(refined);
      var i :| 0 <= i < |refined| && refined[i] == c;
      assert ok[i] in ok;
    }
  }

  lemma {:induction false} MergedIsCarry(r: Replay, ok: seq<Outcome>, refined: seq<Outcome>, rows: seq<Outcome>,
        k: nat, after: Replay)
    requires Holds(r, ok) && Follows(ok, refined, k) && multiset(rows) == multiset(refined)
    requires RoundMerged(r, rows, after) && Coherent(after)
    ensures Holds(after, Carry(ok, refined))
  {
    var next := Carry(ok, refined);
    assert Ids(next) == Ids(ok);
    forall o | o in next ensures o.modelId in after.latest && after.latest[o.modelId] == o {
      var i :| 0 <= i < |next| && next[i] == o;
      assert ok[i] in ok;
      assert refined[i] in multiset(rows);
    }
  }

  lemma {:induction false} CarryRounds(ok: seq<Outcome>, refined: seq<Outcome>, k: nat)
    requires RoundsUpTo(ok, k) && Follows(ok, refined, k)
    ensures RoundsUpTo(Carry(ok, refined), k + 1)
    ensures DistinctIds(ok) ==> DistinctIds(Carry(ok, refined))
  {
    var next := Carry(ok, refined);
    assert Ids(next) == Ids(ok);
    forall o | o in next ensures o.round.Some? && o.round.value <= k + 1 {
      var i :| 0 <= i < |next| && next[i] == o;
      assert ok[i] in ok;
    }
  }

  /** One round of the log, members in any order, takes the replay from the answers before the round to
      the answers after it. */
  lemma {:induction false} RoundReplayed(run: Run, r: Replay, s: State, rows: seq<Outcome>)
    requires Known(run, s.ok) && Holds(r, s.ok) && DistinctIds(s.ok) && RoundsUpTo(s.ok, s.round)
    requires multiset(rows) == multiset(NextRound(run, s).refined)
    ensures var after := Replayed(r, rows + [NextRound(run, s).critique]);
      Holds(after, NextRound(run, s).after.ok) && after.order == r.order
    ensures DistinctIds(NextRound(run, s).after.ok) && RoundsUpTo(NextRound(run, s).after.ok, s.round + 1)
  {
    hide NextRound, Note, Known, LaterRows, DistinctIds, RoundsUpTo, Replayed, Carry;
    var next := NextRound(run, s);
    RowsOfRound(run, s);
    assert Follows(s.ok, next.refined, s.round);
    RowsReady(r, s.ok, next.refined, rows, s.round);
    CarryRounds(s.ok, next.refined, s.round);
    hide Follows;
    RoundNoted(r, rows);
    ReplayedConcat(r, rows, [next.critique]);
    CritiqueIgnored(Replayed(r, rows), next.critique);
    ReplayedCoherent(r, rows);
    MergedIsCarry(r, s.ok, next.refined, rows, s.round, Replayed(r, rows));
  }

  lemma {:induction false} CritiqueIgnored(r: Replay, c: Outcome)
    requires c.role != Member
    ensures Replayed(r, [c]) == r
  {
    assert [c][..0] == [];
  }

  /** The rows of process blocks, in the order in which they are recorded. */
  function CallsOf(blocks: seq<Block>): seq<Outcome> {
    if blocks == [] then []
    else CallsOf(blocks[..|blocks| - 1]) + (blocks[|blocks| - 1].members + Maybe(blocks[|blocks| - 1].critique))
  }

  lemma {:induction false} CallsOfSnoc(blocks: seq<Block>, b: Block)
    ensures CallsOf(blocks + [b]) == CallsOf(blocks) + (b.members + Maybe(b.critique))
  {
    assert (blocks + [b])[..|blocks|] == blocks;
  }

  /** `front` has been replayed up to the state `s`; the block of the next round goes on from there. */
  lemma {:induction false} BlockReplayed(run: Run, r: Replay, front: seq<Outcome>, s: State, b: Block)
    requires Known(run, s.ok) && Holds(Replayed(r, front), s.ok) && DistinctIds(s.ok) && RoundsUpTo(s.ok, s.round)
    requires multiset(b.members) == multiset(NextRound(run, s).refined) && b.critique == Some(NextRound(run, s).critique)
    ensures var after := Replayed(r, front + (b.members + Maybe(b.critique)));
      Holds(after, NextRound(run, s).after.ok) && after.order == Replayed(r, front).order
    ensures DistinctIds(NextRound(run, s).after.ok) && RoundsUpTo(NextRound(run, s).after.ok, s.round + 1)
  {
    hide Holds, DistinctIds, RoundsUpTo, NextRound, Known, Replayed;
    RoundReplayed(run, Replayed(r, front), s, b.members);
    ReplayedConcat(r, front, b.members + Maybe(b.critique));
  }

  /** Replaying the first `k` rounds of the log leads to the answers with which round `k` begins. */
  ghost predicate InStep(r: Replay, log: seq<Outcome>, s: State) {
    && Holds(Replayed(r, log), s.ok) && Replayed(r, log).order == r.order
    && DistinctIds(s.ok) && RoundsUpTo(s.ok, s.round)
  }

  lemma {:induction false} InStepNext(run: Run, r: Replay, s: State, it: Iteration, blocks: seq<Block>, k: nat)
    requires IsIteration(run, s, it) && Rearranged(blocks, it.rounds) && k < |blocks|
    requires InStep(r, CallsOf(blocks[..k]), Before(s, it, k))
    ensures InStep(r, CallsOf(blocks[..k + 1]), Before(s, it, k + 1))
  {
    hide Holds, DistinctIds, RoundsUpTo, Iterate, Known, Replayed, CallsOf, NextRound, IsIteration;
    var b, before := blocks[k], Before(s, it, k);
    RoundsAre(run, s, it, k);
    NextRoundNumber(run, before);
    BlockReplayed(run, r, CallsOf(blocks[..k]), before, b);
    assert blocks[..k + 1] == blocks[..k] + [b];
    CallsOfSnoc(blocks[..k], b);
  }

  /** The whole iteration: at the start of every round the replay holds exactly the answers of that round. */
  lemma {:induction false} RoundsReplayed(run: Run, r: Replay, s: State, it: Iteration, blocks: seq<Block>, k: nat)
    requires IsIteration(run, s, it) && Rearranged(blocks, it.rounds) && k <= |blocks|
    requires InStep(r, [], s)
    ensures InStep(r, CallsOf(blocks[..k]), Before(s, it, k))
  {
    hide InStep;
    if k == 0 {
      assert CallsOf(blocks[..0]) == [];
    } else {
      RoundsReplayed(run, r, s, it, blocks, k - 1);
      InStepNext(run, r, s, it, blocks, k - 1);
    }
  }

  // ---- The rebuilt answers and the live ones -----------------------------------------------

  /** The blocks of a log that lists the members in configuration order. */
  function InOrder(rounds: seq<Round>): seq<Block> {
    seq(|rounds|, k requires 0 <= k < |rounds| => Block(rounds[k].refined, Some(rounds[k].critique)))
  }

  lemma {:induction false} InOrderCalls(rounds: seq<Round>)
    ensures CallsOf(InOrder(rounds)) == RoundCalls(rounds)
  {
    if rounds != [] {
      var n := |rounds| - 1;
      InOrderCalls(rounds[..n]);
      assert InOrder(rounds)[..n] == InOrder(rounds[..n]);
    }
  }

  /** The log of a run that reached its final call: round 0 with its critique, the rounds, the final call. */
  function LogOf(round0: seq<Outcome>, critique: Outcome, blocks: seq<Block>, final: Outcome): seq<Outcome> {
    round0 + [critique] + CallsOf(blocks) + [final]
  }

  lemma {:induction false} Round0Rows(run: Run)
    ensures forall c :: c in Round0(run) ==> c.role == Member && c.round == Some(0)
  {
  }

  lemma {:induction false} SurvivorsCount(a: seq<Outcome>, o: Outcome)
    ensures multiset(Survivors(a))[o] == if Ok(o) then multiset(a)[o] else 0
  {
    if a != [] {
      SurvivorsCount(a[1..], o);
      assert a == [a[0]] + a[1..];
    }
  }

  lemma {:induction false} SurvivorsRearranged(a: seq<Outcome>, b: seq<Outcome>)
    requires multiset(a) == multiset(b)
    ensures multiset(Survivors(a)) == multiset(Survivors(b))
  {
    forall o ensures multiset(Survivors(a))[o] == multiset(Survivors(b))[o] {
      SurvivorsCount(a, o);
      SurvivorsCount(b, o);
    }
  }

  lemma {:induction false} HoldsRearranged(r: Replay, a: seq<Outcome>, b: seq<Outcome>)
    requires Holds(r, a) && multiset(a) == multiset(b)
    ensures Holds(r, b)
  {
    hide Coherent, Ids;
    IdsRearranged(a, b);
    assert forall o :: o in b <==> o in multiset(a);
    assert forall id :: id in Ids(a) <==> id in multiset(Ids(b));
  }

  /** Round 0 in any order, then its critique. */
  lemma {:induction false} Round0Replayed(seen: seq<Outcome>, round0: seq<Outcome>, critique: Outcome)
    requires multiset(seen) == multiset(round0) && DistinctIds(Survivors(round0)) && critique.role != Member
    requires forall c :: c in round0 ==> c.role == Member && c.round == Some(0)
    ensures var r := Replayed(NOTHING, seen + [critique]);
      r.order == Ids(Survivors(seen)) && Holds(r, Survivors(round0))
    ensures RoundsUpTo(Survivors(round0), 0)
  {
    hide Replayed, Ids, Holds;
    var ok := Survivors(round0);
    assert forall c :: c in seen <==> c in multiset(round0);
    SurvivorsRearranged(seen, round0);
    IdsRearranged(Survivors(seen), ok);
    DistinctRearranged(Ids(ok), Ids(Survivors(seen)));
    FirstRoundNoted(seen);
    HoldsRearranged(Replayed(NOTHING, seen), Survivors(seen), ok);
    SurvivorsAre(round0);
    CritiqueIgnored(Replayed(NOTHING, seen), critique);
    ReplayedConcat(NOTHING, seen, [critique]);
  }

  /** After round 0 and its critique the replay is where the iteration starts. */
  lemma {:induction false} OpeningReplayed(run: Run, seen: seq<Outcome>)
    requires Open(run).Opened? && multiset(seen) == multiset(Open(run).round0) && DistinctIds(Open(run).ok)
    ensures var r := Replayed(NOTHING, seen + [Open(run).critique]);
      r.order == Ids(Survivors(seen)) && InStep(r, [], Open(run).start)
  {
    hide Replayed, Ids, Holds, DistinctIds, RoundsUpTo, Survivors, Round0;
    var o := Open(run);
    Round0Rows(run);
    assert o.critique.role == JudgeCritique && o.start.ok == o.ok && o.start.round == 0;
    Round0Replayed(seen, o.round0, o.critique);
    ReplayedNothing(Replayed(NOTHING, seen + [o.critique]));
  }

  lemma {:induction false} ReplayedNothing(r: Replay)
    ensures Replayed(r, []) == r
  {
  }

  /** Replaying a log whose rounds list their members in any order gives the live answers: one per
      survivor of round 0, in the order in which the survivors of round 0 stand in the log. */
  lemma {:induction false} LogReplayed(run: Run, seen: seq<Outcome>, blocks: seq<Block>, final: Outcome)
    requires Open(run).Opened? && multiset(seen) == multiset(Open(run).round0)
    requires Rearranged(blocks, Iterate(run, Open(run).start).rounds) && final.role != Member
    requires DistinctIds(Open(run).ok)
    ensures var it := Iterate(run, Open(run).start);
      var r := Replayed(NOTHING, LogOf(seen, Open(run).critique, blocks, final));
      && r.order == Ids(Survivors(seen)) && Holds(r, it.last.ok)
  {
    hide Iterate, Replayed, CallsOf, NextRound, RoundCritique, Rearranged, Ids, Holds;
    var o := Open(run);
    var it := Iterate(run, o.start);
    var r := Replayed(NOTHING, seen + [o.critique]);
    OpeningReplayed(run, seen);
    RoundsReplayedToEnd(run, r, it, blocks);
    ReplayedConcat(NOTHING, seen + [o.critique], CallsOf(blocks));
    CritiqueIgnored(Replayed(r, CallsOf(blocks)), final);
    ReplayedConcat(NOTHING, seen + [o.critique] + CallsOf(blocks), [final]);
  }

  lemma {:induction false} RoundsReplayedToEnd(run: Run, r: Replay, it: Iteration, blocks: seq<Block>)
    requires Open(run).Opened? && it == Iterate(run, Open(run).start) && Rearranged(blocks, it.rounds)
    requires InStep(r, [], Open(run).start)
    ensures InStep(r, CallsOf(blocks), it.last)
  {
    hide InStep, Iterate;
    RoundsReplayed(run, r, Open(run).start, it, blocks, |blocks|);
    assert blocks[..|blocks|] == blocks;
    LastFailure(run, Open(run).start, it);
  }

  /** When the order is the order of `ok`, the rebuilt rows are `ok`. */
  lemma {:induction false} RowsInOrder(calls: seq<Outcome>, ok: seq<Outcome>)
    requires Holds(Replayed(NOTHING, calls), ok)
    ensures RebuiltRows(calls) == ok <==> Replayed(NOTHING, calls).order == Ids(ok)
  {
    var r := Replayed(NOTHING, calls);
    var rows := RebuiltRows(calls);
    assert forall i :: 0 <= i < |ok| ==> ok[i] in ok;
    assert forall i :: 0 <= i < |r.order| ==> r.order[i] in r.order && rows[i].modelId == r.order[i];
    if rows == ok {
      assert r.order == Ids(ok);
    }
    if r.order == Ids(ok) {
      assert forall i :: 0 <= i < |ok| ==> r.order[i] == ok[i].modelId;
    }
  }

  // ---- Exactly when the rebuilt answers are the live ones ------------------------------------

  lemma {:induction false} OrderComesFromRows(calls: seq<Outcome>)
    ensures forall id :: id in Replayed(NOTHING, calls).order ==>
      exists c :: c in calls && c.role == Member && Ok(c) && c.modelId == id
  {
    if calls != [] {
      var init, last := calls[..|calls| - 1], calls[|calls| - 1];
      assert calls == init + [last];
      OrderComesFromRows(init);
    }
  }

  lemma {:induction false} SetOfSeq(s: seq<int>)
    ensures |set x | x in s| <= |s|
    ensures |set x | x in s| == |s| ==> Distinct(s)
  {
    if s != [] {
      var init, last := s[..|s| - 1], s[|s| - 1];
      assert s == init + [last];
      SetOfSeq(init);
      assert (set x | x in s) == (set x | x in init) + {last};
      if |set x | x in s| == |s| {
        assert last !in init;
      }
    }
  }

  lemma {:induction false} SetOfDistinct(s: seq<int>)
    requires Distinct(s)
    ensures |set x | x in s| == |s|
  {
    if s != [] {
      var init, last := s[..|s| - 1], s[|s| - 1];
      assert s == init + [last];
      SetOfDistinct(init);
      assert (set x | x in s) == (set x | x in init) + {last};
    }
  }

  /** A list without repetitions over the ids of `ok` is as long as `ok` only if those are distinct. */
  lemma {:induction false} OrderTooShort(order: seq<int>, ids: seq<int>)
    requires Distinct(order) && (forall id :: id in order ==> id in ids) && |order| >= |ids|
    ensures Distinct(ids)
  {
    SetOfSeq(ids);
    SetOfDistinct(order);
    var a, b := set x | x in order, set x | x in ids;
    assert a <= b;
    assert |a| <= |b| by {
      assert b == a + (b - a);
    }
  }

  lemma {:induction false} RoundCallsHave(rounds: seq<Round>, c: Outcome)
    requires c in RoundCalls(rounds)
    ensures exists k :: 0 <= k < |rounds| && (c in rounds[k].refined || c == rounds[k].critique)
  {
    if rounds != [] {
      var n := |rounds| - 1;
      if c in RoundCalls(rounds[..n]) {
        RoundCallsHave(rounds[..n], c);
      } else {
        assert c in rounds[n].refined || c == rounds[n].critique;
      }
    }
  }

  /** The member rows of a round belong to the survivors of round 0. */
  lemma {:induction false} RoundRowsAreSurvivors(run: Run, s: State, it: Iteration, k: nat, c: Outcome)
    requires IsIteration(run, s, it) && k < |it.rounds| && c.role == Member
    requires c in it.rounds[k].refined || c == it.rounds[k].critique
    ensures c.modelId in Ids(s.ok)
  {
    hide Iterate, NextRound, Known, IsIteration;
    RoundsAre(run, s, it, k);
    RowsOfRound(run, Before(s, it, k));
    MemberIdentity(run, s, it, k);
    var i :| 0 <= i < |it.rounds[k].refined| && it.rounds[k].refined[i] == c;
    assert Ids(s.ok)[i] == c.modelId;
  }

  /** Every successful member row of a run belongs to a survivor of round 0. */
  lemma {:induction false} SuccessesAreSurvivors(run: Run, final: Outcome, c: Outcome)
    requires Open(run).Opened? && final.role != Member && c.role == Member && Ok(c)
    requires c in Open(run).round0 + [Open(run).critique] + RoundCalls(Iterate(run, Open(run).start).rounds) + [final]
    ensures c.modelId in Ids(Open(run).ok)
  {
    var o := Open(run);
    OpeningParts(run);
    hide Iterate, Open, Ids, Survivors, Known;
    var it := Iterate(run, o.start);
    if c in o.round0 {
      SurvivorsAre(o.round0);
      IdOfMember(o.ok, c);
    } else {
      RoundCallsHave(it.rounds, c);
      var k :| 0 <= k < |it.rounds| && (c in it.rounds[k].refined || c == it.rounds[k].critique);
      RoundRowsAreSurvivors(run, o.start, it, k, c);
    }
  }

  lemma {:induction false} OpeningParts(run: Run)
    requires Open(run).Opened?
    ensures var o := Open(run);
      && o.ok == Survivors(o.round0) && o.start.ok == o.ok && Known(run, o.start.ok) && o.critique.role == JudgeCritique
  {
    hide Round0, Survivors, Known, ParseVerdict, Extended, RoundCritique;
    CritiqueIsJudges(run, Open(run).ok, [], 0);
  }

  /** Two survivors with the same id leave fewer rebuilt answers than there are live ones. */
  lemma {:induction false} SameIdsTooFew(run: Run, log: seq<Outcome>, final: Outcome)
    requires Open(run).Opened? && final.role == Judge && !DistinctIds(Open(run).ok)
    requires log == Open(run).round0 + [Open(run).critique] + RoundCalls(Iterate(run, Open(run).start).rounds) + [final]
    ensures |Replayed(NOTHING, log).order| < |Open(run).ok|
  {
    hide Iterate, Open, Replayed, RoundCalls;
    var o := Open(run);
    var order := Replayed(NOTHING, log).order;
    ReplayedCoherent(NOTHING, log);
    OrderComesFromRows(log);
    forall id | id in order ensures id in Ids(o.ok) {
      var c :| c in log && c.role == Member && Ok(c) && c.modelId == id;
      SuccessesAreSurvivors(run, final, c);
    }
    if |order| >= |o.ok| {
      OrderTooShort(order, Ids(o.ok));
    }
  }

  /** With distinct ids the rebuilt rows are the live answers. */
  lemma {:induction false} DistinctIdsRebuilt(run: Run, log: seq<Outcome>, final: Outcome)
    requires Open(run).Opened? && final.role == Judge && DistinctIds(Open(run).ok)
    requires log == Open(run).round0 + [Open(run).critique] + RoundCalls(Iterate(run, Open(run).start).rounds) + [final]
    ensures RebuiltRows(log) == Iterate(run, Open(run).start).last.ok
  {
    OpeningParts(run);
    hide Iterate, Open, Replayed, Holds, RoundCalls, CallsOf, RebuiltRows, DistinctIds, Known, Survivors, InOrder;
    var o := Open(run);
    var it := Iterate(run, o.start);
    InOrderCalls(it.rounds);
    InOrderRearranged(it.rounds);
    hide Rearranged;
    LogReplayed(run, o.round0, InOrder(it.rounds), final);
    LiveIds(run, o.start);
    RowsInOrder(log, it.last.ok);
  }

  lemma {:induction false} InOrderRearranged(rounds: seq<Round>)
    ensures Rearranged(InOrder(rounds), rounds)
  {
  }

  lemma {:induction false} LiveIds(run: Run, s: State)
    requires Known(run, s.ok)
    ensures Ids(Iterate(run, s).last.ok) == Ids(s.ok) && |Iterate(run, s).last.ok| == |s.ok|
  {
    hide Iterate, Known;
    IterateKeeps(run, s);
  }

  /** The log of a `run` or of a prepared stream that reached its final call: the rebuilt answers are the
      answers of the final instruction, in order, exactly when the members that survived round 0 have
      pairwise distinct model ids. */
  lemma {:induction false} ReplayAgreesIff(run: Run, final: Outcome)
    requires Open(run).Opened? && final.role == Judge
    ensures var o := Open(run); var it := Iterate(run, o.start);
      var log := o.round0 + [o.critique] + RoundCalls(it.rounds) + [final];
      Answers(RebuiltRows(log)) == Answers(it.last.ok) <==> DistinctIds(o.ok)
  {
    OpeningParts(run);
    hide Iterate, Open, Replayed, RoundCalls, RebuiltRows, DistinctIds, Known, Survivors, Ids;
    var o := Open(run);
    var it := Iterate(run, o.start);
    var log := o.round0 + [o.critique] + RoundCalls(it.rounds) + [final];
    if DistinctIds(o.ok) {
      DistinctIdsRebuilt(run, log, final);
    } else {
      SameIdsTooFew(run, log, final);
      LiveIds(run, o.start);
      assert |Answers(RebuiltRows(log))| == |RebuiltRows(log)| == |Replayed(NOTHING, log).order|;
      assert |Answers(it.last.ok)| == |o.ok|;
    }
  }

  /** The log of a process stream lists members in completion order. With distinct ids the rebuilt rows
      are the live answers exactly when the survivors of round 0 completed in configuration order;
      otherwise they are the same answers in completion order. */
  lemma {:induction false} ProcessReplayIff(run: Run, blocks: seq<Block>, final: Outcome)
    requires Open(run).Opened? && final.role == Judge && DistinctIds(Open(run).ok)
    requires blocks != [] && multiset(blocks[0].members) == multiset(Open(run).round0)
    requires blocks[0].critique == Some(Open(run).critique)
    requires Rearranged(blocks[1..], Iterate(run, Open(run).start).rounds)
    ensures var it := Iterate(run, Open(run).start); var seen := Survivors(blocks[0].members);
      var log := OutcomesOf(EventsOf(blocks)) + [final];
      && (RebuiltRows(log) == it.last.ok <==> Ids(seen) == Ids(Open(run).ok))
      && Replayed(NOTHING, log).order == Ids(seen) && Holds(Replayed(NOTHING, log), it.last.ok)
  {
    hide Iterate, RoundCritique, RunOne, Replayed, NextRound, Holds, Survivors, Known, EventsOf, OutcomesOf, LogOf, RebuiltRows;
    var o := Open(run);
    var it := Iterate(run, o.start);
    var log := OutcomesOf(EventsOf(blocks)) + [final];
    EventLog(blocks, o.critique, final);
    LogReplayed(run, blocks[0].members, blocks[1..], final);
    RowsInOrder(log, it.last.ok);
    LiveIds(run, o.start);
  }

  lemma {:induction false} EventLog(blocks: seq<Block>, critique: Outcome, final: Outcome)
    requires blocks != [] && blocks[0].critique == Some(critique)
    ensures OutcomesOf(EventsOf(blocks)) + [final] == LogOf(blocks[0].members, critique, blocks[1..], final)
  {
    hide EventsOf, OutcomesOf, BlockEvents;
    EventsAreCalls(blocks[1..]);
    assert blocks == [blocks[0]] + blocks[1..];
    EventsOfCons(blocks[0], blocks[1..]);
    OutcomesOfConcat(BlockEvents(blocks[0]), EventsOf(blocks[1..]));
    OutcomesOfBlock(blocks[0]);
  }

  lemma {:induction false} EventsAreCalls(blocks: seq<Block>)
    ensures OutcomesOf(EventsOf(blocks)) == CallsOf(blocks)
  {
    if blocks != [] {
      var n := |blocks| - 1;
      EventsAreCalls(blocks[..n]);
      OutcomesOfConcat(EventsOf(blocks[..n]), BlockEvents(blocks[n]));
      OutcomesOfBlock(blocks[n]);
    }
  }
}
