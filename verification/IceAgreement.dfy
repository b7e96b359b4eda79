/** The three ICE drivers agree, and what each of them reports is what it called. */
module IceAgreement {
  import opened Prelude
  import opened Calls
  import opened Ice
  import opened IceDrivers
  import opened IceTheorems

  // ---- Reading the calls off what a driver reports -----------------------------------------

  function YieldedCalls(yielded: seq<RoundResult>): seq<Outcome> {
    if yielded == [] then []
    else
      var last := yielded[|yielded| - 1];
      YieldedCalls(yielded[..|yielded| - 1]) + last.members + (if last.critique.Some? then [last.critique.value] else [])
  }

  lemma {:induction false} YieldedSnoc(yielded: seq<RoundResult>, last: RoundResult)
    ensures YieldedCalls(yielded + [last])
         == YieldedCalls(yielded) + last.members + (if last.critique.Some? then [last.critique.value] else [])
  {
    assert (yielded + [last])[..|yielded|] == yielded;
  }

  lemma {:induction false} YieldedAreRoundCalls(rounds: seq<Round>)
    ensures YieldedCalls(RoundResults(rounds)) == RoundCalls(rounds)
  {
    if rounds != [] {
      hide YieldedCalls;
      var n := |rounds| - 1;
      var front, r := RoundResults(rounds[..n]), rounds[n];
      YieldedAreRoundCalls(rounds[..n]);
      var members, critique := RoundResult(n + 1, r.refined, None), RoundResult(n + 1, [], Some(r.critique));
      YieldedSnoc(front, members);
      YieldedSnoc(front + [members], critique);
      assert front + [members, critique] == front + [members] + [critique];
    }
  }

  lemma {:induction false} OutcomesOfConcat(a: seq<ProcessEvent>, b: seq<ProcessEvent>)
    ensures OutcomesOf(a + b) == OutcomesOf(a) + OutcomesOf(b)
  {
  }

  lemma {:induction false} OutcomesOfBlock(b: Block)
    ensures OutcomesOf(BlockEvents(b)) == b.members + (if b.critique.Some? then [b.critique.value] else [])
  {
  }

  lemma {:induction false} EventsAreRoundCalls(blocks: seq<Block>, rounds: seq<Round>)
    requires Rearranged(blocks, rounds)
    ensures multiset(OutcomesOf(EventsOf(blocks))) == multiset(RoundCalls(rounds))
  {
    if blocks != [] {
      var n := |blocks| - 1;
      EventsAreRoundCalls(blocks[..n], rounds[..n]);
      OutcomesOfConcat(EventsOf(blocks[..n]), BlockEvents(blocks[n]));
      OutcomesOfBlock(blocks[n]);
    } else {
      assert OutcomesOf(EventsOf(blocks)) == [];
    }
  }

  // ---- The drivers agree -------------------------------------------------------------------

  /** The final judge request of a `run`, when it got as far as the final call. */
  function FinalRequestOf(end: Ending): Option<Request> {
    match end
    case Returned(_, _, _, calls) => if calls == [] then None else Some(calls[|calls| - 1].payload)
    case Raised(_, _, Some(judge)) => Some(judge.payload)
    case Raised(_, _, None) => None
  }

  /** One run, three times, under any scheduling of the member tasks. */
  datatype Observed = Observed(end: Ending, plan: Plan, yielded: seq<RoundResult>, streamEnd: StreamEnd,
                               events: seq<ProcessEvent>, processEnd: ProcessEnd)

  /** `o` is what the three drivers deliver: exactly what their contracts promise. */
  ghost predicate Delivers(run: Run, o: Observed) {
    && o.end == RunEnding(run)
    && Prepared(run, o.plan) && Streamed(run, o.plan, o.yielded, o.streamEnd)
    && exists blocks :: o.events == EventsOf(blocks) && Shows(run, blocks, o.processEnd)
  }

  /** `run` made its final call with the request that both streams forward. */
  ghost predicate SameFinal(o: Observed, request: Request) {
    && FinalRequestOf(o.end) == Some(request)
    && o.streamEnd == FinalPlan(request)
    && o.processEnd == ProcessPlan(request)
  }

  /** All three ended in the iteration with the same failed critique. */
  ghost predicate SameStrictFailure(o: Observed) {
    && o.end.Raised? && o.end.judge == None && o.streamEnd.IterationRaised? && o.processEnd.ProcessRaised?
    && o.end.critique == Some(o.streamEnd.critique) == o.processEnd.critique
    && multiset(o.processEnd.members) == multiset(o.streamEnd.members)
  }

  /** The calls in front of the final one, as each driver reports them. */
  ghost predicate SameCalls(o: Observed, pre: seq<Outcome>) {
    && multiset(OutcomesOf(o.events)) == multiset(pre + YieldedCalls(o.yielded))
    && (o.end.Returned? ==> o.end.calls != [] && o.end.calls[..|o.end.calls| - 1] == pre + YieldedCalls(o.yielded))
  }

  lemma {:induction false} ConcludeRequest(run: Run, ok: seq<Outcome>, request: Request, degraded: bool, calls: seq<Outcome>)
    requires ok != []
    ensures var end := Conclude(run, ok, request, degraded, calls);
      && FinalRequestOf(end) == Some(request)
      && (end.Returned? ==> end.calls[..|end.calls| - 1] == calls)
  {
  }

  /** Once the critique of round 0 has succeeded, the three drivers go through the same rounds - same
      outcomes, payloads included - and all fail with the same critique exactly when that critique ended the
      rounds and `judge_failure` is strict; otherwise all arrive at the final request that follows from the
      last round. The order in which the member tasks complete decides only the order of events. */
  lemma {:induction false} DriversAgree(run: Run, o: Observed)
    requires Open(run).Opened? && Delivers(run, o)
    ensures var it := Iterate(run, Open(run).start);
      && o.yielded == RoundResults(it.rounds)
      && SameCalls(o, Open(run).round0 + [Open(run).critique])
      && (SameStrictFailure(o) <==> it.failed && run.ctx.judgeStrict)
      && (!(it.failed && run.ctx.judgeStrict) ==> SameFinal(o, LastRequest(run, it.last)))
  {
    hide Open, Iterate, LastRequest, Conclude, Known, SameCalls, RunEnding, Prepared, Streamed, Shows, EndsAs, StreamEnding;
    var blocks :| o.events == EventsOf(blocks) && Shows(run, blocks, o.processEnd);
    StreamOfOpened(run, o.plan, o.yielded, o.streamEnd);
    ShowsOpened(run, blocks, o.processEnd);
    hide EventsOf, RoundResults;
    AgreeOnCalls(run, o, blocks);
    AgreeOnEnds(run, o);
  }

  /** What a prepared stream yields behind a successful critique, with or without rounds. */
  lemma {:induction false} StreamOfOpened(run: Run, plan: Plan, yielded: seq<RoundResult>, end: StreamEnd)
    requires Open(run).Opened? && Prepared(run, plan) && Streamed(run, plan, yielded, end)
    ensures var it := Iterate(run, Open(run).start);
      yielded == RoundResults(it.rounds) && (it.failed ==> it.rounds != []) && end == StreamEnding(run, it)
  {
    hide Open, Iterate, Finished, Known, LastRequest;
    var start := Open(run).start;
    if plan.Ready? {
      IterateEnd(run, start, []);
      assert Iterate(run, start).rounds == [] + Iterate(run, start).rounds;
    }
  }

  lemma {:induction false} ShowsOpened(run: Run, blocks: seq<Block>, end: ProcessEnd)
    requires Open(run).Opened? && Shows(run, blocks, end)
    ensures var it := Iterate(run, Open(run).start);
      && blocks != [] && multiset(blocks[0].members) == multiset(Open(run).round0) && blocks[0].critique == Some(Open(run).critique)
      && Rearranged(blocks[1..], it.rounds) && EndsAs(run, it, end)
  {
    hide Open, Iterate, Rearranged, EndsAs;
  }

  lemma {:induction false} AgreeOnEnds(run: Run, o: Observed)
    requires Open(run).Opened? && o.end == RunEnding(run)
    requires var it := Iterate(run, Open(run).start);
      (it.failed ==> it.rounds != []) && o.streamEnd == StreamEnding(run, it) && EndsAs(run, it, o.processEnd)
    ensures var it := Iterate(run, Open(run).start);
      && (SameStrictFailure(o) <==> it.failed && run.ctx.judgeStrict)
      && (!(it.failed && run.ctx.judgeStrict) ==> SameFinal(o, LastRequest(run, it.last)))
  {
    hide Iterate, LastRequest, Conclude, Known, RunEnding, RoundCalls, Survivors, RoundCritique;
    var opening := Open(run);
    var it := Iterate(run, opening.start);
    EndingFromOpening(run, opening.start, opening.critique);
    hide Open;
    if !(it.failed && run.ctx.judgeStrict) {
      ConcludeRequest(run, it.last.ok, LastRequest(run, it.last), it.failed,
                      opening.round0 + [opening.critique] + RoundCalls(it.rounds));
    }
  }

  /** A prepared stream from its plan to the end of its rounds. */
  method ObserveStream(run: Run) returns (plan: Plan, yielded: seq<RoundResult>, end: StreamEnd)
    requires Open(run).Opened?
    ensures Prepared(run, plan) && Streamed(run, plan, yielded, end)
  {
    hide Open, Iterate, Known, Finished, LastRequest, RoundResults, StreamEnding;
    plan := PrepareStream(run);
    if plan.Ready? {
      return plan, [], FinalPlan(plan.request);
    }
    StartsAtRound0(run);
    yielded, end := IterateStream(run, plan);
  }

  lemma {:induction false} StartsAtRound0(run: Run)
    ensures Open(run).Opened? ==> Open(run).start.round == 0
  {
    hide Round0, Survivors, RoundCritique, ParseVerdict, Extended;
  }

  /** The three drivers, one after the other: what they deliver is what `DriversAgree` speaks of. */
  method ObserveDrivers(run: Run) returns (o: Observed)
    requires Open(run).Opened?
    ensures Delivers(run, o)
    ensures var it := Iterate(run, Open(run).start);
      if it.failed && run.ctx.judgeStrict then SameStrictFailure(o) else SameFinal(o, LastRequest(run, it.last))
  {
    hide Open, Iterate, LastRequest, Known, RunEnding, SameFinal, SameStrictFailure, SameCalls, Prepared, Streamed, Shows, EventsOf;
    var end := RunIce(run);
    var plan, yielded, streamEnd := ObserveStream(run);
    var events, processEnd := RunStreamProcess(run);
    o := Observed(end, plan, yielded, streamEnd, events, processEnd);
    DriversAgree(run, o);
  }

  /** The events of a process stream show the calls of the run, each as often as it was made. */
  lemma {:induction false} EventsAreCallsOfRun(blocks: seq<Block>, round0: seq<Outcome>, critique: Outcome, rounds: seq<Round>)
    requires blocks != [] && multiset(blocks[0].members) == multiset(round0) && blocks[0].critique == Some(critique)
    requires Rearranged(blocks[1..], rounds)
    ensures multiset(OutcomesOf(EventsOf(blocks))) == multiset(round0 + [critique] + RoundCalls(rounds))
  {
    hide OutcomesOf, EventsOf, RoundCalls, Rearranged, BlockEvents;
    assert blocks == [blocks[0]] + blocks[1..];
    EventsOfCons(blocks[0], blocks[1..]);
    OutcomesOfConcat(BlockEvents(blocks[0]), EventsOf(blocks[1..]));
    OutcomesOfBlock(blocks[0]);
    EventsAreRoundCalls(blocks[1..], rounds);
  }

  lemma {:induction false} AgreeOnCalls(run: Run, o: Observed, blocks: seq<Block>)
    requires Open(run).Opened? && blocks != []
    requires var it := Iterate(run, Open(run).start);
      && o.end == RunEnding(run) && o.yielded == RoundResults(it.rounds) && o.events == EventsOf(blocks)
      && multiset(blocks[0].members) == multiset(Open(run).round0) && blocks[0].critique == Some(Open(run).critique)
      && Rearranged(blocks[1..], it.rounds)
    ensures SameCalls(o, Open(run).round0 + [Open(run).critique])
  {
    StartHasSurvivors(run);
    hide Iterate, LastRequest, Conclude, Known, EventsOf, Rearranged, RoundResults, RunEnding, Open, Round0, YieldedCalls, RoundCalls;
    hide OutcomesOf;
    var opening := Open(run);
    var it := Iterate(run, opening.start);
    var pre := opening.round0 + [opening.critique];
    YieldedAreRoundCalls(it.rounds);
    EventsAreCallsOfRun(blocks, opening.round0, opening.critique, it.rounds);
    EndingFromOpening(run, opening.start, opening.critique);
    if !(it.failed && run.ctx.judgeStrict) {
      ConcludeRequest(run, it.last.ok, LastRequest(run, it.last), it.failed, pre + RoundCalls(it.rounds));
    }
  }

  // ---- What is logged is what was called ---------------------------------------------------

  function Maybe<T>(o: Option<T>): seq<T> {
    if o.Some? then [o.value] else []
  }

  /** The rows the gateway writes for a run that is not streamed. */
  function RecordedRows(end: Ending): seq<Outcome> {
    match end
    case Returned(_, _, _, calls) => calls
    case Raised(members, critique, judge) => members + Maybe(critique) + Maybe(judge)
  }

  /** Members first, then the critique, then the final call. */
  lemma {:induction false} RowsInOrder(members: seq<Outcome>, critique: Outcome, judge: Outcome)
    ensures RecordedRows(Raised(members, Some(critique), Some(judge))) == members + [critique, judge]
  {
  }

  /** The upstream calls in front of the final one, in the order in which a run makes them. */
  function CallsBeforeFinal(run: Run): seq<Outcome> {
    match Open(run)
    case NoMembers(round0) => round0
    case NoCritique(round0, _, critique) => round0 + [critique]
    case Opened(round0, _, critique, start) => round0 + [critique] + RoundCalls(Iterate(run, start).rounds)
  }

  /** All upstream calls of a run in the order in which they were made. */
  function MadeCalls(run: Run): seq<Outcome> {
    match Open(run)
    case Opened(_, _, _, start) =>
      var it := Iterate(run, start);
      CallsBeforeFinal(run) + (if it.failed && run.ctx.judgeStrict then [] else [FinalOutcome(run, LastRequest(run, it.last))])
    case _ => CallsBeforeFinal(run)
  }

  /** Whatever becomes of the run, the events of its process stream show exactly the calls in front of the
      final one, each as often as it was made. */
  lemma {:induction false} EventsShowCalls(run: Run, blocks: seq<Block>, end: ProcessEnd)
    requires Shows(run, blocks, end)
    ensures multiset(OutcomesOf(EventsOf(blocks))) == multiset(CallsBeforeFinal(run))
  {
    hide OutcomesOf, EventsOf, RoundCalls, Rearranged, BlockEvents, Iterate, EndsAs;
    match Open(run) {
      case Opened(round0, _, critique, start) =>
        EventsAreCallsOfRun(blocks, round0, critique, Iterate(run, start).rounds);
      case _ =>
        assert blocks == [blocks[0]] + [];
        EventsOfCons(blocks[0], []);
        NoBlocks();
        assert BlockEvents(blocks[0]) + [] == BlockEvents(blocks[0]);
        OutcomesOfBlock(blocks[0]);
    }
  }

  /** When round 0 or its critique fails, both streams raise the same error, and the rows written for it
      are the calls made, each once. Only `run` writes that critique twice, and it may return instead. */
  lemma {:induction false} FailuresAgree(run: Run, o: Observed)
    requires o.end == RunEnding(run) && Prepared(run, o.plan)
    requires exists blocks :: Shows(run, blocks, o.processEnd)
    ensures o.plan.PlanRaised? <==> !Open(run).Opened?
    ensures o.plan.PlanRaised? ==>
      && o.processEnd == ProcessRaised(o.plan.members, o.plan.critique)
      && RecordedRows(Raised(o.plan.members, o.plan.critique, None)) == CallsBeforeFinal(run) == MadeCalls(run)
      && (o.end.Returned? <==> o.plan.critique.Some? && !run.ctx.judgeStrict)
      && (o.end.Raised? && o.plan.critique.Some? ==> RecordedRows(o.end) == MadeCalls(run) + [o.plan.critique.value])
  {
    hide Round0, Survivors, RoundCritique, Iterate, EndsAs, Rearranged, UsageOf;
    var blocks :| Shows(run, blocks, o.processEnd);
  }

  /** A critique failed, or the final call did. */
  ghost predicate JudgeFailed(run: Run) {
    match Open(run)
    case NoMembers(_) => false
    case NoCritique(_, _, _) => true
    case Opened(_, _, _, start) =>
      var it := Iterate(run, start);
      it.failed || !Ok(FinalOutcome(run, LastRequest(run, it.last)))
  }

  lemma {:induction false} MembersOfShorter(calls: seq<Outcome>)
    ensures |MembersOf(calls)| <= |calls|
    ensures (exists o :: o in calls && o.role != Member) ==> |MembersOf(calls)| < |calls|
  {
    if calls != [] {
      MembersOfShorter(calls[1..]);
      assert calls == [calls[0]] + calls[1..];
    }
  }

  lemma {:induction false} SameRowsSameLength<T>(a: seq<T>, b: seq<T>)
    requires multiset(a) == multiset(b)
    ensures |a| == |b|
  {
    assert |a| == |multiset(a)| == |multiset(b)| == |b|;
  }

  /** Every call of a run is logged exactly once, unless a judge call fails while `judge_failure` is
      strict: a failed critique is then logged twice, a failed final call drops all critiques. */
  lemma {:induction false} RecordedOnceIff(run: Run)
    ensures multiset(RecordedRows(RunEnding(run))) == multiset(MadeCalls(run))
       <==> !(run.ctx.judgeStrict && JudgeFailed(run))
  {
    hide Iterate, RoundCritique, FinalRequest, FinalOutcome, Round0, Survivors;
    var recorded, made := RecordedRows(RunEnding(run)), MadeCalls(run);
    if run.ctx.judgeStrict && JudgeFailed(run) {
      if Open(run).Opened? {
        StrictLoss(run);
      }
      assert |recorded| != |made|;
      if multiset(recorded) == multiset(made) {
        SameRowsSameLength(recorded, made);
      }
    } else {
      assert RecordedRows(RunEnding(run)) == MadeCalls(run);
    }
  }

  lemma {:induction false} StrictLoss(run: Run)
    requires run.ctx.judgeStrict && Open(run).Opened? && JudgeFailed(run)
    ensures |RecordedRows(RunEnding(run))| != |MadeCalls(run)|
  {
    hide Iterate, LastRequest, Round0, Survivors, RenderJudgePrompt, FinalOutcome, RoundCalls, MembersOf, RunEnding, FirstState, BuildRequest;
    var o := Open(run);
    var it := Iterate(run, o.start);
    StartHasSurvivors(run);
    EndingFromOpening(run, o.start, o.critique);
    assert o.critique.role == JudgeCritique;
    hide Open;
    if !it.failed {
      var calls, final := CallsBeforeFinal(run), FinalOutcome(run, LastRequest(run, it.last));
      assert calls[|o.round0|] == o.critique;
      assert final.role == Judge by {
        FinalIsJudge(run, LastRequest(run, it.last));
      }
      FrontMembers(calls, final);
      MembersOfShorter(calls);
    }
  }

  lemma {:induction false} StartHasSurvivors(run: Run)
    ensures var o := Open(run); o.Opened? ==> o == Opened(Round0(run), o.start.ok, o.critique, o.start)
  {
    hide Round0, Survivors, RoundCritique, ParseVerdict, Extended;
  }

  lemma {:induction false} FinalIsJudge(run: Run, request: Request)
    ensures FinalOutcome(run, request).role == Judge
  {
  }

  lemma {:induction false} FrontMembers(calls: seq<Outcome>, last: Outcome)
    requires last.role != Member
    ensures MembersOf(calls + [last]) == MembersOf(calls)
  {
    if calls == [] {
      assert calls + [last] == [last];
      assert [last][1..] == [];
    } else {
      assert calls + [last] == [calls[0]] + (calls[1..] + [last]);
      FrontMembers(calls[1..], last);
    }
  }

  /** The token total of a returned result is the total of its call rows, all four columns. */
  lemma {:induction false} ReturnedUsage(run: Run)
    ensures var end := RunEnding(run); end.Returned? ==> end.usage == UsageOf(end.calls) && end.calls == MadeCalls(run)
  {
    hide Iterate, RoundCritique, FinalRequest, FinalOutcome, Round0, Survivors, SumOf;
  }

  // ---- The rows of strict failures ---------------------------------------------------------

  lemma {:induction false} MembersOfConcat(a: seq<Outcome>, b: seq<Outcome>)
    ensures MembersOf(a + b) == MembersOf(a) + MembersOf(b)
  {
    if a == [] {
      assert a + b == b;
    } else {
      assert (a + b)[0] == a[0] && (a + b)[1..] == a[1..] + b;
      MembersOfConcat(a[1..], b);
      AppendAssociates(if a[0].role == Member then [a[0]] else [], MembersOf(a[1..]), MembersOf(b));
    }
  }

  lemma {:induction false} AllMembers(calls: seq<Outcome>)
    requires forall i :: 0 <= i < |calls| ==> calls[i].role == Member
    ensures MembersOf(calls) == calls
  {
    if calls != [] {
      AllMembers(calls[1..]);
      SplitFirst(calls);
    }
  }

  lemma {:induction false} NoMember(o: Outcome)
    requires o.role != Member
    ensures MembersOf([o]) == []
  {
    assert [o][1..] == [];
  }

  /** The member calls of the rounds, in order. */
  function RefinedCalls(rounds: seq<Round>): seq<Outcome> {
    if rounds == [] then [] else RefinedCalls(rounds[..|rounds| - 1]) + rounds[|rounds| - 1].refined
  }

  /** Members refine, and the arbiter criticises. */
  ghost predicate RolesFit(r: Round) {
    r.critique.role != Member && forall i :: 0 <= i < |r.refined| ==> r.refined[i].role == Member
  }

  lemma {:induction false} MembersOfRounds(rounds: seq<Round>)
    requires forall k :: 0 <= k < |rounds| ==> RolesFit(rounds[k])
    ensures MembersOf(RoundCalls(rounds)) == RefinedCalls(rounds)
  {
    if rounds != [] {
      hide MembersOf, RolesFit;
      var front, r := rounds[..|rounds| - 1], rounds[|rounds| - 1];
      MembersOfRounds(front);
      MembersOfConcat(RoundCalls(front) + r.refined, [r.critique]);
      MembersOfConcat(RoundCalls(front), r.refined);
      MembersOfRound(r);
      assert RefinedCalls(front) + r.refined + [] == RefinedCalls(front) + r.refined;
    } else {
      assert RoundCalls(rounds) == [] && MembersOf([]) == [];
    }
  }

  lemma {:induction false} MembersOfRound(r: Round)
    requires RolesFit(r)
    ensures MembersOf(r.refined) == r.refined && MembersOf([r.critique]) == []
  {
    AllMembers(r.refined);
    NoMember(r.critique);
  }

  lemma {:induction false} NextRolesFit(run: Run, s: State)
    requires Known(run, s.ok)
    ensures RolesFit(NextRound(run, s))
  {
    hide SpecOf, BuildRequest, RenderJudgePrompt, ParseVerdict, Extended, Known;
    assert Known(run, s.ok);
  }

  lemma {:induction false} OpenRolesFit(run: Run)
    requires Open(run).Opened?
    ensures MembersOf(Open(run).round0) == Open(run).round0 && MembersOf([Open(run).critique]) == []
  {
    hide BuildRequest, RenderJudgePrompt, ParseVerdict, MembersOf, Survivors, MembersFailed, FirstState;
    AllMembers(Open(run).round0);
    NoMember(Open(run).critique);
  }

  /** The rows that are written when a call of the arbiter fails while `judge_failure` is strict: a failed
      critique stands twice at the end; a failed final call stands behind the member calls alone. */
  lemma {:induction false} StrictRows(run: Run)
    requires run.ctx.judgeStrict
    ensures var o, rows := Open(run), RecordedRows(RunEnding(run));
      && (o.NoCritique? ==> rows == o.round0 + [o.critique, o.critique])
      && (o.Opened? ==>
            var it := Iterate(run, o.start);
            var final := FinalOutcome(run, LastRequest(run, it.last));
            && (it.failed ==> it.rounds != [] && rows == o.round0 + [o.critique] + RoundCalls(it.rounds) + [it.rounds[|it.rounds| - 1].critique])
            && (!it.failed && final.status != Success ==> rows == o.round0 + RefinedCalls(it.rounds) + [final]))
  {
    var o := Open(run);
    if o.NoCritique? {
      StrictFirst(run);
    }
    if o.Opened? {
      StrictLater(run);
    }
  }

  lemma {:induction false} StrictFirst(run: Run)
    requires run.ctx.judgeStrict && Open(run).NoCritique?
    ensures RecordedRows(RunEnding(run)) == Open(run).round0 + [Open(run).critique, Open(run).critique]
  {
    hide Open;
    var o := Open(run);
    assert o.round0 + [o.critique] + [o.critique] + [] == o.round0 + [o.critique, o.critique];
  }

  lemma {:induction false} StrictLater(run: Run)
    requires run.ctx.judgeStrict && Open(run).Opened?
    ensures var o, rows := Open(run), RecordedRows(RunEnding(run));
      var it := Iterate(run, o.start);
      var final := FinalOutcome(run, LastRequest(run, it.last));
      && (it.failed ==> it.rounds != [] && rows == o.round0 + [o.critique] + RoundCalls(it.rounds) + [it.rounds[|it.rounds| - 1].critique])
      && (!it.failed && final.status != Success ==> rows == o.round0 + RefinedCalls(it.rounds) + [final])
  {
    hide *;
    var o := Open(run);
    var it := Iterate(run, o.start);
    StartHasSurvivors(run);
    EndingFromOpening(run, o.start, o.critique);
    StartKnown(run);
    IterateKeeps(run, o.start);
    var calls := o.round0 + [o.critique] + RoundCalls(it.rounds);
    if it.failed {
      RaisedRows(calls, it.rounds[|it.rounds| - 1].critique);
    } else {
      var final := FinalOutcome(run, LastRequest(run, it.last));
      forall k | 0 <= k < |it.rounds| ensures RolesFit(it.rounds[k]) {
        IsIterationOf(run, o.start);
        RoundsAre(run, o.start, it, k);
        NextRolesFit(run, Before(o.start, it, k));
      }
      MembersOfRounds(it.rounds);
      OpenRolesFit(run);
      FinalIsJudge(run, LastRequest(run, it.last));
      NoMember(final);
      MembersOfConcat(calls, [final]);
      MembersOfConcat(o.round0 + [o.critique], RoundCalls(it.rounds));
      MembersOfConcat(o.round0, [o.critique]);
      StrictConclusion(run, it.last.ok, LastRequest(run, it.last), it.failed, calls);
      var members := o.round0 + RefinedCalls(it.rounds);
      assert o.round0 + [] == o.round0 && members + [] == members;
    }
  }

  lemma {:induction false} StartKnown(run: Run)
    requires Open(run).Opened?
    ensures Known(run, Open(run).start.ok)
  {
    hide Open, Known;
  }

  lemma {:induction false} IsIterationOf(run: Run, s: State)
    requires Known(run, s.ok)
    ensures IsIteration(run, s, Iterate(run, s))
  {
    hide Known, Iterate;
  }

  lemma {:induction false} RaisedRows(calls: seq<Outcome>, critique: Outcome)
    ensures RecordedRows(Raised(calls, Some(critique), None)) == calls + [critique]
  {
    assert calls + [critique] + [] == calls + [critique];
  }

  lemma {:induction false} StrictConclusion(run: Run, ok: seq<Outcome>, request: Request, degraded: bool, calls: seq<Outcome>)
    requires ok != [] && run.ctx.judgeStrict
    ensures var final := FinalOutcome(run, request);
      final.status != Success ==> RecordedRows(Conclude(run, ok, request, degraded, calls)) == MembersOf(calls + [final]) + [final]
  {
    hide FinalOutcome, MembersOf, UsageOf;
    var final := FinalOutcome(run, request);
    assert MembersOf(calls + [final]) + [] == MembersOf(calls + [final]);
  }
}
