/** The three drivers of the ICE protocol - one answer at the end, rounds behind a prepared stream, and a
    stream of process events - each proved against the specification in `Ice`. */
module IceDrivers {
  import opened Prelude
  import opened Calls
  import opened Ice
  import opened Executor

  // ---- Specifications of the drivers -------------------------------------------------------

  /** How a strategy ends: with a result, or with an error that carries the calls made so far. */
  datatype Ending =
    | Returned(content: string, usage: Usage, degraded: bool, calls: seq<Outcome>)
    | Raised(members: seq<Outcome>, critique: Option<Outcome>, judge: Option<Outcome>)

  lemma {:induction false} SurvivorsKnown(run: Run)
    ensures Known(run, Survivors(Round0(run)))
    ensures !MembersFailed(Round0(run), run.ctx.memberStrict) ==> Survivors(Round0(run)) != []
  {
    var round0 := Round0(run);
    SurvivorsAre(round0);
    var ok := Survivors(round0);
    forall i | 0 <= i < |ok| ensures SpecOf(run.ctx.members, ok[i].modelId).Some? {
      assert ok[i] in ok;
      var k :| 0 <= k < |round0| && round0[k] == ok[i];
      assert run.ctx.members[k] in run.ctx.members;
    }
    if !MembersFailed(round0, run.ctx.memberStrict) {
      var o :| o in round0 && Ok(o);
      assert o in ok;
    }
  }

  /** What happens before the first iteration: round 0 and its critique. */
  datatype Opening =
    | NoMembers(round0: seq<Outcome>)
    | NoCritique(round0: seq<Outcome>, ok: seq<Outcome>, critique: Outcome)
    | Opened(round0: seq<Outcome>, ok: seq<Outcome>, critique: Outcome, start: State)

  function Open(run: Run): (o: Opening)
    ensures !o.NoMembers? ==> o.ok != []
    ensures o.Opened? ==> Known(run, o.start.ok)
  {
    var round0 := Round0(run);
    if MembersFailed(round0, run.ctx.memberStrict) then NoMembers(round0)
    else
      SurvivorsKnown(run);
      var ok := Survivors(round0);
      var critique := RoundCritique(run, ok, [], 0);
      if Ok(critique) then Opened(round0, ok, critique, FirstState(run, ok, critique)) else NoCritique(round0, ok, critique)
  }

  /** The final judge call and what is returned or raised after it. */
  function Conclude(run: Run, ok: seq<Outcome>, request: Request, degraded: bool, calls: seq<Outcome>): Ending
    requires ok != []
  {
    var final := FinalOutcome(run, request);
    var all := calls + [final];
    if Ok(final) then Returned(final.content, UsageOf(all), degraded, all)
    else if run.ctx.judgeStrict then Raised(MembersOf(all), None, Some(final))
    else Returned(ok[0].content, UsageOf(all), true, all)
  }

  /** `[o for o in outcomes if o.role == "member"]` */
  function MembersOf(calls: seq<Outcome>): seq<Outcome> {
    if calls == [] then []
    else (if calls[0].role == Member then [calls[0]] else []) + MembersOf(calls[1..])
  }

  function LastRequest(run: Run, s: State): Request {
    FinalRequest(run, s.session, s.ok, s.critiqueText)
  }

  /** `IceStrategy.run` */
  function RunEnding(run: Run): Ending {
    hide Iterate, Round0, Survivors, RoundCritique, Known;
    match Open(run)
    case NoMembers(round0) => Raised(round0, None, None)
    case NoCritique(round0, ok, critique) =>
      if run.ctx.judgeStrict then Raised(round0 + [critique], Some(critique), None)
      else Returned(ok[0].content, UsageOf(round0 + [critique]), true, round0 + [critique])
    case Opened(round0, ok, critique, start) =>
      IterateKeeps(run, start);
      var it := Iterate(run, start);
      var calls := round0 + [critique] + RoundCalls(it.rounds);
      if it.failed && run.ctx.judgeStrict then Raised(calls, Some(it.rounds[|it.rounds| - 1].critique), None)
      else Conclude(run, it.last.ok, LastRequest(run, it.last), it.failed, calls)
  }

  /** The iteration never loses, gains or swaps a member; a failed critique is the last one. */
  lemma {:induction false} IterateKeeps(run: Run, s: State)
    requires Known(run, s.ok)
    ensures var it := Iterate(run, s);
      && Known(run, it.last.ok)
      && |it.last.ok| == |s.ok|
      && (forall i :: 0 <= i < |s.ok| ==> it.last.ok[i].modelId == s.ok[i].modelId)
      && (it.failed ==> it.rounds != [] && !Ok(it.rounds[|it.rounds| - 1].critique))
      && (it.rounds != [] ==> it.last == it.rounds[|it.rounds| - 1].after)
      && (it.rounds == [] ==> it.last == s)
    decreases run.params.maxRounds - s.round
  {
    hide NextRound, Known;
    if !Finished(run, s) {
      var r := NextRound(run, s);
      NextRoundNumber(run, s);
      RoundKeepsKnown(run, s);
      if Ok(r.critique) {
        IterateKeeps(run, r.after);
      }
    }
  }

  // ---- The arbiter's session and the shared steps ------------------------------------------

  /** The list of turns that `_run_round_critique` extends in place. */
  class JudgeSession {
    var turns: seq<Message>

    constructor ()
      ensures turns == []
    {
      turns := [];
    }

    method Critique(run: Run, ok: seq<Outcome>, round: nat) returns (critique: Outcome)
      modifies this
      ensures critique == RoundCritique(run, ok, old(turns), round)
      ensures turns == Extended(run, ok, old(turns), critique)
      ensures !Ok(critique) ==> turns == old(turns)
    {
      var question := CritiquePrompt(run, ok, turns);
      var request := BuildRequest(run.ctx.judgeUpstreamId, turns + [question], JudgeParams(run.ctx));
      critique := Pending(JudgeCritique, run.ctx.judgeModelId, run.ctx.judgeUpstreamId, run.ctx.judgeProvider, request, Some(round));
      var reply := run.w.up(CritiqueCall(round), run.ctx.judgeProvider, request);
      critique := JudgeOutcome(critique, reply);
      if reply.Answer? {
        turns := turns + [question, Message("assistant", reply.content)];
      }
    }
  }

  /** `run_members` up to the failure check: concurrent calls, results in configuration order. */
  method RunMembers(run: Run) returns (round0: seq<Outcome>, completed: seq<nat>)
    ensures round0 == Round0(run)
    ensures Permutation(completed, |round0|)
  {
    var n := |run.ctx.members|;
    var blank := Pending(Member, 0, "", "", BuildRequest("", [], map[]), None);
    round0, completed := RunTasks(n, run.ctx.maxConcurrency, (i: nat) => if i < |run.ctx.members| then RunOne(run, i) else blank);
  }

  /** The concurrent calls of one refinement round. */
  method RunRefineRound(run: Run, ok: seq<Outcome>, critique: string, round: nat) returns (refined: seq<Outcome>,
        completed: seq<nat>)
    requires Known(run, ok)
    ensures refined == RefineRound(run, ok, critique, round) && |refined| == |ok|
    ensures Permutation(completed, |refined|)
  {
    var prompt := RefinePrompt(run, critique);
    var blank := Pending(Member, 0, "", "", BuildRequest("", [], map[]), None);
    refined, completed := RunTasks(|ok|, run.ctx.maxConcurrency,
      (i: nat) => if i < |ok| && SpecOf(run.ctx.members, ok[i].modelId).Some? then RefineOne(run, ok[i], prompt, round, i) else blank);
  }

  /** `_run_final` */
  method RunFinal(run: Run, session: JudgeSession, ok: seq<Outcome>, critiqueText: string) returns (final: Outcome)
    ensures final == FinalOutcome(run, FinalRequest(run, session.turns, ok, critiqueText))
  {
    var request := FinalRequest(run, session.turns, ok, critiqueText);
    final := Pending(Judge, run.ctx.judgeModelId, run.ctx.judgeUpstreamId, run.ctx.judgeProvider, request, None);
    var reply := run.w.up(FinalCall, run.ctx.judgeProvider, request);
    final := JudgeOutcome(final, reply);
  }

  // ---- Driver 1: run -----------------------------------------------------------------------

  lemma {:induction false} RoundCallsSnoc(rounds: seq<Round>, r: Round)
    ensures RoundCalls(rounds + [r]) == RoundCalls(rounds) + r.refined + [r.critique]
  {
    assert (rounds + [r])[..|rounds|] == rounds;
  }

  /** Rounds already made in front of an iteration that goes on. */
  function After(made: seq<Round>, it: Iteration): Iteration {
    it.(rounds := made + it.rounds)
  }

  /** The end of `run`: the final call, its fallback and its strict failure. */
  method Finish(run: Run, session: JudgeSession, ok: seq<Outcome>, critiqueText: string, degraded: bool, calls: seq<Outcome>)
    returns (end: Ending)
    requires ok != []
    ensures end == Conclude(run, ok, FinalRequest(run, session.turns, ok, critiqueText), degraded, calls)
  {
    var final := RunFinal(run, session, ok, critiqueText);
    var outcomes := calls + [final];
    if !Ok(final) {
      if run.ctx.judgeStrict {
        return Raised(MembersOf(outcomes), None, Some(final));
      }
      var usage := SumUsage(outcomes);
      return Returned(ok[0].content, usage, true, outcomes);
    }
    var usage := SumUsage(outcomes);
    return Returned(final.content, usage, degraded, outcomes);
  }

  /** One turn of the loop, seen from the whole iteration. */
  lemma {:induction false} IterateTurn(run: Run, s: State, made: seq<Round>)
    requires Known(run, s.ok) && !Finished(run, s)
    ensures var r := NextRound(run, s);
      && Known(run, r.after.ok) && |r.after.ok| == |s.ok|
      && After(made, Iterate(run, s)) ==
         if Ok(r.critique) then After(made + [r], Iterate(run, r.after)) else Iteration(made + [r], r.after, true)
  {
    hide NextRound, Finished;
    RoundKeepsKnown(run, s);
    var r := NextRound(run, s);
    if Ok(r.critique) {
      AppendAssociates(made, [r], Iterate(run, r.after).rounds);
    }
  }

  lemma {:induction false} RoundMade(run: Run, s: State, refined: seq<Outcome>, ok: seq<Outcome>, critique: Outcome)
    requires Known(run, s.ok) && refined == RefineRound(run, s.ok, s.verdict.critique, s.round + 1)
    requires ok == Carry(s.ok, refined) && critique == RoundCritique(run, ok, s.session, s.round + 1)
    ensures var r := NextRound(run, s);
      var verdict := ParseVerdict(run.w, critique.content);
      && r.refined == refined && r.critique == critique
      && r.after == if !Ok(critique) then s.(round := s.round + 1, ok := ok)
                    else State(s.round + 1, ok, Extended(run, ok, s.session, critique), verdict,
                               if verdict.parsed then s.conf + [verdict.confidence] else s.conf, critique.content)
  {
    hide Known, RefineRound, Carry, RoundCritique, Extended, ParseVerdict;
  }

  lemma {:induction false} IterateEnd(run: Run, s: State, made: seq<Round>)
    requires Known(run, s.ok) && Finished(run, s)
    ensures After(made, Iterate(run, s)) == Iteration(made, s, false)
  {
    assert made + [] == made;
  }

  lemma {:induction false} EndingFromOpening(run: Run, start: State, critique: Outcome)
    requires Open(run) == Opened(Round0(run), start.ok, critique, start)
    ensures var it := Iterate(run, start);
      var calls := Round0(run) + [critique] + RoundCalls(it.rounds);
      && it.last.ok != []
      && RunEnding(run) ==
         if it.failed && run.ctx.judgeStrict then Raised(calls, Some(it.rounds[|it.rounds| - 1].critique), None)
         else Conclude(run, it.last.ok, LastRequest(run, it.last), it.failed, calls)
  {
    IterateKeeps(run, start);
  }

  /** The `while` loop of `run`, up to the decision about a failed critique. */
  method RunRounds(run: Run, session: JudgeSession, ghost start: State, firstOk: seq<Outcome>, firstVerdict: Verdict,
                   firstConf: seq<Float>, firstText: string, calls: seq<Outcome>)
    returns (ok: seq<Outcome>, critiqueText: string, failed: bool, critique: Option<Outcome>, outcomes: seq<Outcome>)
    requires Known(run, firstOk)
    requires start == State(0, firstOk, session.turns, firstVerdict, firstConf, firstText)
    modifies session
    ensures var it := Iterate(run, start);
      && it.last.ok == ok && it.last.session == session.turns && it.last.critiqueText == critiqueText && it.failed == failed
      && outcomes == calls + RoundCalls(it.rounds)
      && (failed ==> it.rounds != [] && critique == Some(it.rounds[|it.rounds| - 1].critique))
  {
    hide Iterate, NextRound, RefineRound, Carry, RoundCritique, Extended, ParseVerdict, Known;
    ok, critiqueText, failed, critique, outcomes := firstOk, firstText, false, None, calls;
    var roundNo, verdict, confHistory := 0, firstVerdict, firstConf;
    ghost var s := start;
    ghost var made: seq<Round> := [];
    assert After(made, Iterate(run, start)) == Iterate(run, start);
    while !ShouldFinish(run.params, verdict, roundNo, confHistory)
      invariant Known(run, ok)
      invariant s == State(roundNo, ok, session.turns, verdict, confHistory, critiqueText)
      invariant After(made, Iterate(run, s)) == Iterate(run, start)
      invariant outcomes == calls + RoundCalls(made)
      decreases run.params.maxRounds - roundNo
    {
      IterateTurn(run, s, made);
      roundNo := roundNo + 1;
      var refined, _ := RunRefineRound(run, ok, verdict.critique, roundNo);
      outcomes := outcomes + refined;
      ok := Carry(ok, refined);
      var called := session.Critique(run, ok, roundNo);
      outcomes := outcomes + [called];
      RoundMade(run, s, refined, ok, called);
      RoundCallsSnoc(made, NextRound(run, s));
      made := made + [NextRound(run, s)];
      if !Ok(called) {
        failed, critique := true, Some(called);
        return;
      }
      verdict := ParseVerdict(run.w, called.content);
      critiqueText := called.content;
      if verdict.parsed {
        confHistory := confHistory + [verdict.confidence];
      }
      s := NextRound(run, s).after;
    }
    IterateEnd(run, s, made);
  }

  method RunIce(run: Run) returns (end: Ending)
    ensures end == RunEnding(run)
  {
    hide Conclude, Iterate, RoundCritique, Extended, ParseVerdict, FinalRequest, UsageOf, Survivors, Round0, Known;
    SurvivorsKnown(run);
    var round0, _ := RunMembers(run);
    if MembersFailed(round0, run.ctx.memberStrict) {
      return Raised(round0, None, None);
    }
    var outcomes := round0;
    var ok := Survivors(round0);
    var session := new JudgeSession();
    var critique := session.Critique(run, ok, 0);
    outcomes := outcomes + [critique];
    if !Ok(critique) {
      if run.ctx.judgeStrict {
        return Raised(outcomes, Some(critique), None);
      }
      var usage := SumUsage(outcomes);
      return Returned(ok[0].content, usage, true, outcomes);
    }
    var verdict := ParseVerdict(run.w, critique.content);
    var confHistory := if verdict.parsed then [verdict.confidence] else [];
    EndingFromOpening(run, FirstState(run, ok, critique), critique);
    hide RunEnding, Open;
    var finalOk, critiqueText, failed, lastCritique, calls :=
      RunRounds(run, session, FirstState(run, ok, critique), ok, verdict, confHistory, critique.content, outcomes);
    if failed && run.ctx.judgeStrict {
      return Raised(calls, lastCritique, None);
    }
    end := Finish(run, session, finalOk, critiqueText, failed, calls);
  }

  // ---- Driver 2: prepare_stream and _iterate -----------------------------------------------

  /** A stream plan: ready, or carrying the state from which the gateway drives the rounds. */
  datatype Plan =
    | PlanRaised(members: seq<Outcome>, critique: Option<Outcome>)
    | Ready(pre: seq<Outcome>, base: Usage, request: Request)
    | Iterating(pre: seq<Outcome>, base: Usage, start: State, session: JudgeSession)

  /** What `prepare_stream` hands over: an error, a ready plan, or the state behind round 0 - with the usage
      of exactly the calls made so far. */
  ghost predicate Prepared(run: Run, plan: Plan) {
    match Open(run)
    case NoMembers(round0) => plan == PlanRaised(round0, None)
    case NoCritique(round0, _, critique) => plan == PlanRaised(round0, Some(critique))
    case Opened(round0, _, critique, start) =>
      if Finished(run, start) then plan == Ready(round0 + [critique], UsageOf(round0 + [critique]), LastRequest(run, start))
      else plan.Iterating? && plan.pre == round0 + [critique] && plan.base == UsageOf(plan.pre) && plan.start == start
  }

  method PrepareStream(run: Run) returns (plan: Plan)
    ensures Prepared(run, plan)
    ensures plan.Iterating? ==> fresh(plan.session) && plan.session.turns == plan.start.session && Known(run, plan.start.ok)
  {
    hide RoundCritique, Extended, ParseVerdict, FinalRequest, UsageOf, Survivors, Round0, Known;
    SurvivorsKnown(run);
    var round0, _ := RunMembers(run);
    if MembersFailed(round0, run.ctx.memberStrict) {
      return PlanRaised(round0, None);
    }
    var ok := Survivors(round0);
    var session := new JudgeSession();
    var critique := session.Critique(run, ok, 0);
    if !Ok(critique) {
      return PlanRaised(round0, Some(critique));
    }
    var pre := round0 + [critique];
    var base := SumUsage(pre);
    var verdict := ParseVerdict(run.w, critique.content);
    var confHistory := if verdict.parsed then [verdict.confidence] else [];
    if ShouldFinish(run.params, verdict, 0, confHistory) {
      return Ready(pre, base, FinalRequest(run, session.turns, ok, critique.content));
    }
    return Iterating(pre, base, State(0, ok, session.turns, verdict, confHistory, critique.content), session);
  }

  /** What `_iterate` yields: the members of a round, then its critique. */
  datatype RoundResult = RoundResult(round: nat, members: seq<Outcome>, critique: Option<Outcome>)

  function RoundResults(rounds: seq<Round>): seq<RoundResult> {
    if rounds == [] then []
    else
      var k, r := |rounds|, rounds[|rounds| - 1];
      RoundResults(rounds[..k - 1]) + [RoundResult(k, r.refined, None), RoundResult(k, [], Some(r.critique))]
  }

  lemma {:induction false} RoundResultsSnoc(rounds: seq<Round>, r: Round)
    ensures RoundResults(rounds + [r])
         == RoundResults(rounds) + [RoundResult(|rounds| + 1, r.refined, None), RoundResult(|rounds| + 1, [], Some(r.critique))]
  {
    assert (rounds + [r])[..|rounds|] == rounds;
  }

  /** How the rounds of a stream end: with an error, or with the final request to forward. */
  datatype StreamEnd =
    | IterationRaised(members: seq<Outcome>, critique: Outcome)
    | FinalPlan(request: Request)

  /** The end of the rounds, from the specification; `members` are the last round's. */
  function StreamEnding(run: Run, it: Iteration): StreamEnd
    requires it.failed ==> it.rounds != []
  {
    if it.failed && run.ctx.judgeStrict then
      var r := it.rounds[|it.rounds| - 1];
      IterationRaised(r.refined, r.critique)
    else FinalPlan(LastRequest(run, it.last))
  }

  method IterateStream(run: Run, plan: Plan) returns (yielded: seq<RoundResult>, end: StreamEnd)
    requires plan.Iterating? && Known(run, plan.start.ok)
    requires plan.start.round == 0 && plan.session.turns == plan.start.session
    modifies plan.session
    ensures var it := Iterate(run, plan.start);
      && yielded == RoundResults(it.rounds)
      && (it.failed ==> it.rounds != [])
      && end == StreamEnding(run, it)
  {
    hide Iterate, NextRound, RefineRound, Carry, RoundCritique, Extended, ParseVerdict, FinalRequest, Known;
    var session := plan.session;
    var roundNo, ok, verdict, confHistory, critiqueText := 0, plan.start.ok, plan.start.verdict, plan.start.conf, plan.start.critiqueText;
    yielded := [];
    ghost var s := plan.start;
    ghost var made: seq<Round> := [];
    assert After(made, Iterate(run, s)) == Iterate(run, s);
    while !ShouldFinish(run.params, verdict, roundNo, confHistory)
      invariant Known(run, ok)
      invariant s == State(roundNo, ok, session.turns, verdict, confHistory, critiqueText)
      invariant After(made, Iterate(run, s)) == Iterate(run, plan.start)
      invariant yielded == RoundResults(made) && |made| == roundNo
      decreases run.params.maxRounds - roundNo
    {
      IterateTurn(run, s, made);
      roundNo := roundNo + 1;
      var refined, _ := RunRefineRound(run, ok, verdict.critique, roundNo);
      yielded := yielded + [RoundResult(roundNo, refined, None)];
      ok := Carry(ok, refined);
      var critique := session.Critique(run, ok, roundNo);
      yielded := yielded + [RoundResult(roundNo, [], Some(critique))];
      RoundMade(run, s, refined, ok, critique);
      RoundResultsSnoc(made, NextRound(run, s));
      made := made + [NextRound(run, s)];
      if !Ok(critique) {
        if run.ctx.judgeStrict {
          return yielded, IterationRaised(refined, critique);
        }
        return yielded, FinalPlan(FinalRequest(run, session.turns, ok, critiqueText));
      }
      verdict := ParseVerdict(run.w, critique.content);
      critiqueText := critique.content;
      if verdict.parsed {
        confHistory := confHistory + [verdict.confidence];
      }
      s := NextRound(run, s).after;
    }
    IterateEnd(run, s, made);
    end := FinalPlan(FinalRequest(run, session.turns, ok, critiqueText));
  }

  /** What a prepared stream yields and how it goes on: a ready plan has no rounds to yield. */
  ghost predicate Streamed(run: Run, plan: Plan, yielded: seq<RoundResult>, end: StreamEnd) {
    match plan
    case PlanRaised(_, _) => false
    case Ready(_, _, request) => yielded == [] && end == FinalPlan(request)
    case Iterating(_, _, start, _) =>
      Known(run, start.ok) &&
      var it := Iterate(run, start);
      yielded == RoundResults(it.rounds) && (it.failed ==> it.rounds != []) && end == StreamEnding(run, it)
  }

  // ---- Driver 3: run_stream_process --------------------------------------------------------

  datatype ProcessEvent = MemberEvent(outcome: Outcome) | CritiqueEvent(outcome: Outcome)

  /** The calls that the events show. */
  function OutcomesOf(events: seq<ProcessEvent>): seq<Outcome> {
    seq(|events|, i requires 0 <= i < |events| => events[i].outcome)
  }

  /** The events of one round: its members in completion order, then its critique unless there is none. */
  datatype Block = Block(members: seq<Outcome>, critique: Option<Outcome>)

  function BlockEvents(b: Block): seq<ProcessEvent> {
    MemberEvents(b.members) + (if b.critique.Some? then [CritiqueEvent(b.critique.value)] else [])
  }

  function MemberEvents(members: seq<Outcome>): seq<ProcessEvent> {
    seq(|members|, i requires 0 <= i < |members| => MemberEvent(members[i]))
  }

  function EventsOf(blocks: seq<Block>): seq<ProcessEvent> {
    if blocks == [] then [] else EventsOf(blocks[..|blocks| - 1]) + BlockEvents(blocks[|blocks| - 1])
  }

  /** `blocks[k]` holds exactly the calls of round `k + 1`, in whatever order its members completed. */
  ghost predicate Rearranged(blocks: seq<Block>, rounds: seq<Round>) {
    && |blocks| == |rounds|
    && forall k :: 0 <= k < |blocks| ==>
         multiset(blocks[k].members) == multiset(rounds[k].refined) && blocks[k].critique == Some(rounds[k].critique)
  }

  datatype ProcessEnd =
    | ProcessRaised(members: seq<Outcome>, critique: Option<Outcome>)
    | ProcessPlan(request: Request)

  lemma {:induction false} EventsOfSnoc(blocks: seq<Block>, b: Block)
    ensures EventsOf(blocks + [b]) == EventsOf(blocks) + BlockEvents(b)
  {
    assert (blocks + [b])[..|blocks|] == blocks;
  }

  /** Consumes the tasks of a refinement round as they complete: an event each, and `new_ok[i]` replaced
      by what succeeded. */
  method ConsumeRefined(ok: seq<Outcome>, results: seq<Outcome>, completed: seq<nat>)
    returns (newOk: seq<Outcome>, refined: seq<Outcome>, events: seq<ProcessEvent>)
    requires |results| == |ok| && Permutation(completed, |ok|)
    ensures newOk == Carry(ok, results)
    ensures multiset(refined) == multiset(results)
    ensures events == MemberEvents(refined)
  {
    PermutationInRange(completed, |ok|);
    newOk, refined, events := ok, [], [];
    for j := 0 to |completed|
      invariant |newOk| == |ok|
      invariant forall i: nat :: i < |ok| ==> newOk[i] == if i in completed[..j] && Ok(results[i]) then results[i] else ok[i]
      invariant refined == Pick(results, completed[..j])
      invariant events == MemberEvents(refined)
    {
      var i := completed[j];
      var outcome := results[i];
      refined := refined + [outcome];
      if Ok(outcome) {
        newOk := newOk[i := outcome];
      }
      events := events + [MemberEvent(outcome)];
      assert completed[..j + 1] == completed[..j] + [i];
    }
    assert completed[..|completed|] == completed;
    assert forall i: nat :: i < |ok| ==> i in completed;
    PickIsRearrangement(results, completed);
  }

  /** Consumes the tasks of round 0 as they complete, writing each outcome to its configured place. */
  method ConsumeRound0(results: seq<Outcome>, completed: seq<nat>) returns (round0: seq<Outcome>, seen: seq<Outcome>,
        events: seq<ProcessEvent>)
    requires Permutation(completed, |results|)
    ensures round0 == results
    ensures multiset(seen) == multiset(results)
    ensures events == MemberEvents(seen)
  {
    PermutationInRange(completed, |results|);
    var ordered: seq<Option<Outcome>> := seq(|results|, _ => None);
    seen, events := [], [];
    for j := 0 to |completed|
      invariant |ordered| == |results|
      invariant forall i: nat :: i < |results| ==> ordered[i] == if i in completed[..j] then Some(results[i]) else None
      invariant seen == Pick(results, completed[..j])
      invariant events == MemberEvents(seen)
    {
      var i := completed[j];
      ordered := ordered[i := Some(results[i])];
      seen := seen + [results[i]];
      events := events + [MemberEvent(results[i])];
      assert completed[..j + 1] == completed[..j] + [i];
    }
    assert completed[..|completed|] == completed;
    assert forall i: nat :: i < |results| ==> i in completed;
    PickIsRearrangement(results, completed);
    round0 := seq(|ordered|, i requires 0 <= i < |ordered| && ordered[i].Some? => ordered[i].value);
  }

  lemma {:induction false} RearrangedSnoc(blocks: seq<Block>, rounds: seq<Round>, b: Block, r: Round)
    requires Rearranged(blocks, rounds)
    requires multiset(b.members) == multiset(r.refined) && b.critique == Some(r.critique)
    ensures Rearranged(blocks + [b], rounds + [r])
  {
  }

  /** How the process stream ends after its rounds. */
  ghost predicate EndsAs(run: Run, it: Iteration, end: ProcessEnd) {
    if it.failed && run.ctx.judgeStrict then
      && it.rounds != [] && end.ProcessRaised?
      && multiset(end.members) == multiset(it.rounds[|it.rounds| - 1].refined)
      && end.critique == Some(it.rounds[|it.rounds| - 1].critique)
    else end == ProcessPlan(LastRequest(run, it.last))
  }

  lemma {:induction false} NoBlocks()
    ensures EventsOf([]) == [] && Rearranged([], [])
  {
  }

  /** One round's events, appended to those of the rounds before it. */
  lemma {:induction false} BlockAdded(blocks: seq<Block>, rounds: seq<Round>, members: seq<Outcome>, critique: Outcome, r: Round)
    requires Rearranged(blocks, rounds) && multiset(members) == multiset(r.refined) && critique == r.critique
    ensures Rearranged(blocks + [Block(members, Some(critique))], rounds + [r])
    ensures EventsOf(blocks + [Block(members, Some(critique))]) == EventsOf(blocks) + MemberEvents(members) + [CritiqueEvent(critique)]
  {
    var b := Block(members, Some(critique));
    RearrangedSnoc(blocks, rounds, b, r);
    EventsOfSnoc(blocks, b);
    assert BlockEvents(b) == MemberEvents(members) + [CritiqueEvent(critique)];
  }

  /** A round whose critique failed is the last one. */
  lemma {:induction false} LastRoundEnds(run: Run, it: Iteration, made: seq<Round>, members: seq<Outcome>)
    requires made != [] && it == Iteration(made, made[|made| - 1].after, true) && multiset(members) == multiset(made[|made| - 1].refined)
    ensures EndsAs(run, it, if run.ctx.judgeStrict then ProcessRaised(members, Some(made[|made| - 1].critique))
                            else ProcessPlan(LastRequest(run, it.last)))
  {
    hide FinalRequest;
  }

  /** The rounds of `run_stream_process` behind the first critique. */
  method ProcessRounds(run: Run, session: JudgeSession, ghost start: State, firstOk: seq<Outcome>, firstVerdict: Verdict,
                       firstConf: seq<Float>, firstText: string)
    returns (events: seq<ProcessEvent>, end: ProcessEnd, ghost blocks: seq<Block>)
    requires Known(run, firstOk)
    requires start == State(0, firstOk, session.turns, firstVerdict, firstConf, firstText)
    modifies session
    ensures events == EventsOf(blocks)
    ensures Rearranged(blocks, Iterate(run, start).rounds) && EndsAs(run, Iterate(run, start), end)
  {
    hide Iterate, NextRound, RefineRound, Carry, RoundCritique, Extended, ParseVerdict, FinalRequest, Known, MemberEvents;
    hide EventsOf, Rearranged;
    assert EventsOf([]) == [] && Rearranged([], []) by {
      NoBlocks();
    }
    var roundNo, ok, verdict, confHistory, critiqueText := 0, firstOk, firstVerdict, firstConf, firstText;
    events, blocks := [], [];
    ghost var s := start;
    ghost var made: seq<Round> := [];
    assert After(made, Iterate(run, s)) == Iterate(run, s);
    while !ShouldFinish(run.params, verdict, roundNo, confHistory)
      invariant Known(run, ok)
      invariant s == State(roundNo, ok, session.turns, verdict, confHistory, critiqueText)
      invariant After(made, Iterate(run, s)) == Iterate(run, start)
      invariant events == EventsOf(blocks) && Rearranged(blocks, made)
      decreases run.params.maxRounds - roundNo
    {
      IterateTurn(run, s, made);
      roundNo := roundNo + 1;
      var results, completed := RunRefineRound(run, ok, verdict.critique, roundNo);
      var newOk, refined, seen := ConsumeRefined(ok, results, completed);
      events := events + seen;
      ok := newOk;
      var critique := session.Critique(run, ok, roundNo);
      events := events + [CritiqueEvent(critique)];
      RoundMade(run, s, results, ok, critique);
      BlockAdded(blocks, made, refined, critique, NextRound(run, s));
      blocks := blocks + [Block(refined, Some(critique))];
      made := made + [NextRound(run, s)];
      if !Ok(critique) {
        LastRoundEnds(run, Iterate(run, start), made, refined);
        if run.ctx.judgeStrict {
          end := ProcessRaised(refined, Some(critique));
        } else {
          end := ProcessPlan(FinalRequest(run, session.turns, ok, critiqueText));
        }
        return;
      }
      verdict := ParseVerdict(run.w, critique.content);
      critiqueText := critique.content;
      if verdict.parsed {
        confHistory := confHistory + [verdict.confidence];
      }
      s := NextRound(run, s).after;
    }
    IterateEnd(run, s, made);
    end := ProcessPlan(FinalRequest(run, session.turns, ok, critiqueText));
  }

  /** What a process stream shows, with `blocks` its events round by round, and how it ends. */
  ghost predicate Shows(run: Run, blocks: seq<Block>, end: ProcessEnd) {
    blocks != [] &&
    match Open(run)
    case NoMembers(round0) =>
      && end == ProcessRaised(round0, None)
      && |blocks| == 1 && multiset(blocks[0].members) == multiset(round0) && blocks[0].critique == None
    case NoCritique(round0, _, critique) =>
      && end == ProcessRaised(round0, Some(critique))
      && |blocks| == 1 && multiset(blocks[0].members) == multiset(round0) && blocks[0].critique == Some(critique)
    case Opened(round0, _, critique, start) =>
      && multiset(blocks[0].members) == multiset(round0) && blocks[0].critique == Some(critique)
      && Rearranged(blocks[1..], Iterate(run, start).rounds)
      && EndsAs(run, Iterate(run, start), end)
  }

  method RunStreamProcess(run: Run) returns (events: seq<ProcessEvent>, end: ProcessEnd)
    ensures exists blocks :: events == EventsOf(blocks) && Shows(run, blocks, end)
  {
    hide Iterate, RoundCritique, Extended, ParseVerdict, FinalRequest, Survivors, Round0, Known, MemberEvents, EndsAs, Rearranged;
    SurvivorsKnown(run);
    var results, completed := RunMembers(run);
    var round0, seen, events0 := ConsumeRound0(results, completed);
    if MembersFailed(round0, run.ctx.memberStrict) {
      EventsOfSnoc([], Block(seen, None));
      assert Shows(run, [Block(seen, None)], ProcessRaised(round0, None));
      return events0, ProcessRaised(round0, None);
    }
    var ok := Survivors(round0);
    var session := new JudgeSession();
    var critique := session.Critique(run, ok, 0);
    events := events0 + [CritiqueEvent(critique)];
    ghost var first := Block(seen, Some(critique));
    EventsOfSnoc([], first);
    if !Ok(critique) {
      assert Shows(run, [first], ProcessRaised(round0, Some(critique)));
      return events, ProcessRaised(round0, Some(critique));
    }
    var verdict := ParseVerdict(run.w, critique.content);
    var confHistory := if verdict.parsed then [verdict.confidence] else [];
    var later, last, laterBlocks :=
      ProcessRounds(run, session, FirstState(run, ok, critique), ok, verdict, confHistory, critique.content);
    EventsOfCons(first, laterBlocks);
    assert Shows(run, [first] + laterBlocks, last);
    return events + later, last;
  }

  lemma {:induction false} EventsOfCons(b: Block, blocks: seq<Block>)
    ensures EventsOf([b] + blocks) == BlockEvents(b) + EventsOf(blocks)
  {
    if blocks == [] {
      assert [b] + blocks == [] + [b];
      EventsOfSnoc([], b);
    } else {
      hide EventsOf, BlockEvents;
      var init, last := blocks[..|blocks| - 1], blocks[|blocks| - 1];
      EventsOfCons(b, init);
      SplitLast([b], blocks);
      EventsOfSnoc([b] + init, last);
      EventsOfSnoc(init, last);
      AppendAssociates(BlockEvents(b), EventsOf(init), BlockEvents(last));
    }
  }
}
