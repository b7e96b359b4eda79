/** Whole streamed requests: the plans and the events that the strategies deliver, put through the streaming
    protocol. What is persisted is compared with the calls that were made. */
module GatewayRuns {
  import opened Prelude
  import Calls
  import opened StreamProtocol
  import opened GatewayPaths
  import Ice
  import Drivers = IceDrivers
  import Agreement = IceAgreement
  import Council

  // ---- Prepared streams --------------------------------------------------------------------

  /** The stream behind a ready plan: the final call is forwarded, the calls of the plan are logged before. */
  ghost predicate Forwards(c: Config, up: Upstream, base: Calls.Usage) {
    c.script == DirectScript(up, false) && c.initial == FreshWith("stop", true) && c.base == base
  }

  /** The stream behind a plan with rounds; `final` is the final call's stream if the rounds lead to one. */
  ghost predicate Iterates(c: Config, yielded: seq<Drivers.RoundResult>, final: Option<Upstream>, progress: bool,
        total: int, base: Calls.Usage)
  {
    c.script == IterativeScript(yielded, final, progress, total) && c.initial == FreshWith("", false) && c.base == base
  }

  /** A council stream: its plan starts from the tokens of the calls made, whatever part of them was served
      from a cache, so the totals are the sums over those calls and the final row. */
  lemma {:induction false} CouncilPlanStream(setup: Council.Setup, plan: Council.Plan, c: Config, s: System, up: Upstream)
    requires Council.Prepared(setup, plan) && plan.Ready?
    requires Forwards(c, up, plan.base) && Reachable(c, s) && s.saved.Some?
    ensures plan.pre == Council.CallsBeforeFinal(setup) && Records(c, s, Council.CallsBeforeFinal(setup), [])
  {
    hide Records, Reachable, Council.Open, Calls.SumOf, Council.LastRequest, Calls.UsageOf;
    var o := Council.Open(setup);
    Council.TokensOfPre(o.members, o.critique);
    DirectStream(c, s, up, false, plan.pre);
  }

  /** An ICE stream whose first critique already ended the rounds. */
  lemma {:induction false} IceReadyStream(run: Ice.Run, plan: Drivers.Plan, c: Config, s: System, up: Upstream)
    requires Drivers.Prepared(run, plan) && plan.Ready?
    requires Forwards(c, up, plan.base) && Reachable(c, s) && s.saved.Some?
    ensures plan.pre == Agreement.CallsBeforeFinal(run) && Records(c, s, Agreement.CallsBeforeFinal(run), [])
  {
    hide Records, Reachable, Calls.SumOf, Drivers.LastRequest, Drivers.Open, Ice.Iterate;
    Drivers.IterateEnd(run, Drivers.Open(run).start, []);
    assert plan.pre + [] == plan.pre;
    DirectStream(c, s, up, false, plan.pre);
  }

  /** An ICE stream with rounds: not cut off, the calls logged before it and its rows are the calls in front
      of the final one, in order, and the final row if the rounds led to it. */
  lemma {:induction false} IceRoundsStream(run: Ice.Run, plan: Drivers.Plan, yielded: seq<Drivers.RoundResult>,
        end: Drivers.StreamEnd, c: Config, s: System, final: Option<Upstream>, progress: bool, total: int)
    requires Drivers.Prepared(run, plan) && plan.Iterating? && Drivers.Streamed(run, plan, yielded, end)
    requires final.Some? <==> end.FinalPlan?
    requires Iterates(c, yielded, final, progress, total, plan.base) && Reachable(c, s) && s.saved.Some?
    ensures Records(c, s, plan.pre, Agreement.YieldedCalls(yielded))
    ensures plan.pre + Agreement.YieldedCalls(yielded) == Agreement.CallsBeforeFinal(run)
    ensures c.detach || s.ferry == Drained ==>
      plan.pre + s.saved.value.rows == Agreement.CallsBeforeFinal(run) + FinalRows(c, s.sink)
  {
    hide Reachable, Calls.SumOf, Drivers.Open, Ice.Iterate, Agreement.YieldedCalls, FinalRows, IterativeScript;
    hide TextOf, SentLines, WithoutPings;
    IterativeStream(c, s, yielded, final, progress, total, plan.pre);
    Agreement.YieldedAreRoundCalls(Ice.Iterate(run, plan.start).rounds);
    if c.detach || s.ferry == Drained {
      AppendAssociates(plan.pre, Agreement.YieldedCalls(yielded), FinalRows(c, s.sink));
    }
  }

  // ---- Process streams ---------------------------------------------------------------------

  /** The script of an ICE process stream. */
  ghost predicate PlaysIce(c: Config, d: Display, events: seq<Drivers.ProcessEvent>, end: Drivers.ProcessEnd, final: Option<Upstream>) {
    && (final.Some? <==> end.ProcessPlan?)
    && c.script == ProcessScript(d, events, final) && c.initial == FreshWith("", false) && StartsFrom(c.base, [])
  }

  /** Not cut off, a process stream has a final row exactly when its strategy came to a final plan. */
  lemma {:induction false} ForwardsIffPlanned(c: Config, s: System, d: Display, events: seq<Drivers.ProcessEvent>, final: Option<Upstream>)
    requires c.script == ProcessScript(d, events, final) && c.initial == FreshWith("", false)
    requires Reachable(c, s) && s.saved.Some? && (c.detach || s.ferry == Drained)
    ensures FinalRows(c, s.sink) == if final.Some? then [JudgeRow(c, s.sink)] else []
  {
    hide Reachable, PlanEffects, JudgeRow, SoundEffects, AppliedAll, LinesOf, ProcessEffect, Inv, UsageAfter, Summary;
    var effects, front := c.script.effects, ProcessEffects(d, events);
    ProcessSound(d, events, final);
    ScriptSound(c);
    Uncut(c, s);
    QuietEvents(d, events);
    assert effects[..|effects|] == effects;
    assert front + [] == front;
    StagedShape(c, front, final);
    NoResult(c, |effects|);
    if final.Some? {
      PlanShape(final.value);
      UsageGuarded(c, |front|, |effects|);
    } else {
      QuietPart(c, |effects|);
    }
  }

  lemma {:induction false} Uncut(c: Config, s: System)
    requires WellFormedConfig(c) && Reachable(c, s) && s.saved.Some? && (c.detach || s.ferry == Drained)
    ensures s.sink == AppliedAll(c.initial, c.script.effects).(status := FinalStatus(c), error := FinalError(c))
  {
    var run :| After(c, StreamProtocol.Initial(c), run) == Some(s);
    ReachableInv(c, run);
    hide Conserved, Summary, SentIs, SinkIs;
    UninterruptedPump(c, s);
  }

  /** An ICE process stream: not cut off, its rows are the calls in front of the final one, each as often as
      it was made, and the final row if the rounds led to it. */
  lemma {:induction false} IceProcessStream(run: Ice.Run, blocks: seq<Drivers.Block>, end: Drivers.ProcessEnd,
        c: Config, s: System, d: Display, final: Option<Upstream>)
    requires Drivers.Shows(run, blocks, end) && PlaysIce(c, d, Drivers.EventsOf(blocks), end, final)
    requires Reachable(c, s) && s.saved.Some?
    ensures Records(c, s, [], Drivers.OutcomesOf(Drivers.EventsOf(blocks)))
    ensures c.detach || s.ferry == Drained ==>
      multiset(s.saved.value.rows) == multiset(Agreement.CallsBeforeFinal(run) + FinalRows(c, s.sink))
  {
    hide Reachable, Calls.SumOf, Drivers.Open, Drivers.Shows, Drivers.OutcomesOf, Drivers.EventsOf, FinalRows, ProcessScript;
    hide TextOf, SentLines, WithoutPings, Agreement.CallsBeforeFinal;
    ProcessStream(c, s, d, Drivers.EventsOf(blocks), final);
    Agreement.EventsShowCalls(run, blocks, end);
  }

  /** What the pump is handed as the result of a tool aggregation. */
  function ResultOf(d: Council.Delivered): FinalResult {
    FinalResult(d.content, d.finish, d.judge, d.degraded)
  }

  function CallsOf(d: Council.Delivered): seq<Calls.ToolCall> {
    if d.calls.Some? then d.calls.value else []
  }

  /** The script of a council process stream. */
  ghost predicate PlaysCouncil(c: Config, d: Display, events: seq<Drivers.ProcessEvent>, end: Council.ProcessEnd, final: Option<Upstream>) {
    && (final.Some? <==> end.Plan?)
    && c.initial == FreshWith("", false) && StartsFrom(c.base, [])
    && c.script == match end
         case Result(delivered) => ResultScript(d, events, ResultOf(delivered), CallsOf(delivered))
         case ProcessUncaught => BrokenScript(d, events)
         case _ => ProcessScript(d, events, final)
  }

  /** The final row of a process stream that was not cut off. */
  ghost function FinalRow(c: Config, s: System, end: Council.ProcessEnd): seq<Calls.Outcome> {
    match end
    case Plan(_) => [JudgeRow(c, s.sink)]
    case Result(delivered) => [delivered.judge]
    case _ => []
  }

  lemma {:induction false} CouncilFinalRow(c: Config, s: System, d: Display, events: seq<Drivers.ProcessEvent>, end: Council.ProcessEnd,
        final: Option<Upstream>)
    requires PlaysCouncil(c, d, events, end, final) && Reachable(c, s) && s.saved.Some?
    ensures c.detach || s.ferry == Drained ==> s.saved.value.rows == Drivers.OutcomesOf(events) + FinalRow(c, s, end)
    ensures s.saved.value.promptTokens == Calls.SumOf(s.saved.value.rows, Calls.Prompt)
    ensures s.saved.value.completionTokens == Calls.SumOf(s.saved.value.rows, Calls.Completion)
  {
    hide Reachable, Calls.SumOf, Drivers.OutcomesOf, TextOf, SentLines, WithoutPings;
    match end {
      case Result(delivered) => ResultStream(c, s, d, events, ResultOf(delivered), CallsOf(delivered));
      case ProcessUncaught =>
        BrokenStream(c, s, d, events);
        assert Drivers.OutcomesOf(events) + [] == Drivers.OutcomesOf(events);
      case _ =>
        ProcessStream(c, s, d, events, final);
        assert [] + s.saved.value.rows == s.saved.value.rows;
        if c.detach || s.ferry == Drained {
          ForwardsIffPlanned(c, s, d, events, final);
        }
    }
  }

  /** The final call failed in tool mode while `judge_failure` is strict. */
  predicate StrictToolFailure(setup: Council.Setup) {
    var o := Council.Open(setup);
    o.Opened? && setup.tools.Some? && setup.ctx.judgeStrict && Council.FinalReply(setup, Council.LastRequest(setup, o)).Error?
  }

  /** A council process stream. Its totals are always the sums over its rows. Not cut off, its rows are the
      calls in front of the final one, each as often as it was made, and the final row - so every call is
      logged exactly once, unless the final call has no row: it failed in strict tool mode, or validating
      its calls raised. */
  lemma {:induction false} CouncilProcessStream(setup: Council.Setup, seen: seq<Calls.Outcome>, events: seq<Drivers.ProcessEvent>,
        end: Council.ProcessEnd, c: Config, s: System, d: Display, final: Option<Upstream>)
    requires Council.Shows(setup, seen, events, end) && PlaysCouncil(c, d, events, end, final)
    requires Reachable(c, s) && s.saved.Some?
    ensures s.saved.value.promptTokens == Calls.SumOf(s.saved.value.rows, Calls.Prompt)
    ensures s.saved.value.completionTokens == Calls.SumOf(s.saved.value.rows, Calls.Completion)
    ensures c.detach || s.ferry == Drained ==>
      && multiset(s.saved.value.rows) == multiset(Council.CallsBeforeFinal(setup) + FinalRow(c, s, end))
      && (|s.saved.value.rows| == |Council.MadeCalls(setup)| <==> !StrictToolFailure(setup) && !Council.BreaksLate(setup))
      && (end.Result? ==> multiset(s.saved.value.rows) == multiset(Council.MadeCalls(setup)))
      && (end.Result? ==>
            && s.saved.value.content == end.delivered.content && s.saved.value.finish == end.delivered.finish
            && s.saved.value.status == if end.delivered.degraded then Degraded else Success)
  {
    hide Reachable, Calls.SumOf, Drivers.OutcomesOf, Council.Open, PlaysCouncil, JudgeRow, Council.CallsBeforeFinal;
    CouncilFinalRow(c, s, d, events, end, final);
    Council.EventsShowCalls(setup, seen, events, end);
    if c.detach || s.ferry == Drained {
      Agreement.SameRowsSameLength(s.saved.value.rows, Council.CallsBeforeFinal(setup) + FinalRow(c, s, end));
      FinalRowMade(setup, seen, events, end);
      if end.Result? {
        ResultSaved(c, s, d, events, end, final);
      }
    }
  }

  /** The request of a tool aggregation that was not cut off is saved with content, finish reason and flag
      of the result. */
  lemma {:induction false} ResultSaved(c: Config, s: System, d: Display, events: seq<Drivers.ProcessEvent>, end: Council.ProcessEnd,
        final: Option<Upstream>)
    requires PlaysCouncil(c, d, events, end, final) && end.Result? && Reachable(c, s) && s.saved.Some?
    requires c.detach || s.ferry == Drained
    ensures s.saved.value.content == end.delivered.content && s.saved.value.finish == end.delivered.finish
    ensures s.saved.value.status == if end.delivered.degraded then Degraded else Success
  {
    hide Reachable, Calls.SumOf, Drivers.OutcomesOf, TextOf, SentLines, WithoutPings, ResultScript;
    ResultStream(c, s, d, events, ResultOf(end.delivered), CallsOf(end.delivered));
  }

  /** Not cut off, a council process stream is recorded as cancelled by the client exactly when its strategy
      ended in an exception that the pump does not catch. */
  lemma {:induction false} CancelledIffUncaught(c: Config, s: System, d: Display, events: seq<Drivers.ProcessEvent>,
        end: Council.ProcessEnd, final: Option<Upstream>)
    requires PlaysCouncil(c, d, events, end, final) && Reachable(c, s) && s.saved.Some? && (c.detach || s.ferry == Drained)
    ensures s.saved.value.status == ClientCancelled <==> end.ProcessUncaught?
  {
    hide Reachable, Calls.SumOf, Drivers.OutcomesOf, TextOf, SentLines, WithoutPings, ProcessEffects, PlanEffects, AppliedAll;
    match end {
      case Result(delivered) => ResultStream(c, s, d, events, ResultOf(delivered), CallsOf(delivered));
      case ProcessUncaught => BrokenStream(c, s, d, events);
      case _ => PlannedStatus(c, s, d, events, final);
    }
  }

  /** A process stream that comes to a plan or to an error succeeds or fails. */
  lemma {:induction false} PlannedStatus(c: Config, s: System, d: Display, events: seq<Drivers.ProcessEvent>, final: Option<Upstream>)
    requires c.script == ProcessScript(d, events, final) && c.initial == FreshWith("", false)
    requires Reachable(c, s) && s.saved.Some? && (c.detach || s.ferry == Drained)
    ensures s.saved.value.status != ClientCancelled
  {
    hide Reachable, ProcessEffects, PlanEffects, AppliedAll, SoundEffects, QuietFailure, Summary;
    ProcessSound(d, events, final);
    ScriptSound(c);
    hide WellFormedConfig;
    Uncut(c, s);
    SavedFrom(c, s);
    SavedStatus(c, s.sink);
    if final.Some? && final.value.error == None {
      PlanSucceeds(c.initial, ProcessEffects(d, events), final.value);
    }
  }

  lemma {:induction false} SavedStatus(c: Config, s: Sink)
    ensures Summary(c, s).status == ClientCancelled <==> s.status == ClientCancelled
  {
    hide JudgeRow;
  }

  lemma {:induction false} PlanSucceeds(s: Sink, front: seq<Effect>, up: Upstream)
    requires up.error == None
    ensures AppliedAll(s, front + PlanEffects(up)).status == Success
  {
    hide OpenEffect, ContentEffects;
    var body := [OpenEffect()] + ContentEffects(up.events);
    assert front + PlanEffects(up) == front + body + [EndEffect("stop")];
    OneMoreDone(s, [], front + body, EndEffect("stop"));
  }

  /** The end of a process stream, against the final call. */
  lemma {:induction false} FinalRowMade(setup: Council.Setup, seen: seq<Calls.Outcome>, events: seq<Drivers.ProcessEvent>, end: Council.ProcessEnd)
    requires Council.Shows(setup, seen, events, end)
    ensures end.Plan? || end.Result? ==> Council.Open(setup).Opened?
    ensures Council.Open(setup).Opened? && !end.Plan? && !end.Result? <==> StrictToolFailure(setup) || Council.BreaksLate(setup)
    ensures end.Result? ==> end.delivered.judge == Council.FinalOutcome(setup, Council.LastRequest(setup, Council.Open(setup)))
  {
    hide Council.Open, Council.FinalRequest, Council.FallbackOf, Council.ValidCall, Council.CallLists, Council.Unlistable;
  }

  // ---- Refused process streams ---------------------------------------------------------------

  ghost predicate SomeSuccess(events: seq<Drivers.ProcessEvent>) {
    exists i :: 0 <= i < |events| && events[i].MemberEvent? && Calls.Ok(events[i].outcome)
  }

  /** The response begins with the first successful member. */
  lemma {:induction false} GateOpensIff(events: seq<Drivers.ProcessEvent>)
    ensures Gate(events) <= |events| <==> SomeSuccess(events)
  {
    if events != [] {
      GateOpensIff(events[1..]);
      if SomeSuccess(events[1..]) {
        var i :| 0 <= i < |events[1..]| && events[1..][i].MemberEvent? && Calls.Ok(events[1..][i].outcome);
        assert events[i + 1] == events[1..][i];
      }
      if SomeSuccess(events) && !(events[0].MemberEvent? && Calls.Ok(events[0].outcome)) {
        var i :| 0 <= i < |events| && events[i].MemberEvent? && Calls.Ok(events[i].outcome);
        assert events[1..][i - 1] == events[i];
      }
    }
  }

  /** A process stream is refused only when no member succeeds; then its response never begins, so nothing
      is sent to the client and nothing is persisted. */
  lemma {:induction false} RefusedIffNoSuccess(c: Config, s: System, events: seq<Drivers.ProcessEvent>)
    requires WellFormedConfig(c) && Reachable(c, s)
    requires c.script.gate == Gate(events) && |c.script.effects| >= |events|
    requires !SomeSuccess(events) ==> |c.script.effects| == |events|
    ensures s.ferry == Refused ==> !SomeSuccess(events)
    ensures !SomeSuccess(events) ==> (s.ferry == NotServing || s.ferry == Refused) && s.received == [] && s.saved == None
  {
    hide Summary, SinkIs;
    GateOpensIff(events);
    var run :| After(c, StreamProtocol.Initial(c), run) == Some(s);
    ReachableInv(c, run);
  }

  /** A member that succeeded shows; when the members are all that is shown, so does nothing else. */
  lemma {:induction false} SuccessShows(events: seq<Drivers.ProcessEvent>, seen: seq<Calls.Outcome>, members: seq<Calls.Outcome>)
    requires multiset(seen) == multiset(members) && Drivers.MemberEvents(seen) <= events
    requires events == Drivers.MemberEvents(seen) || exists o :: o in members && Calls.Ok(o)
    ensures SomeSuccess(events) <==> exists o :: o in members && Calls.Ok(o)
  {
    if o :| o in members && Calls.Ok(o) {
      assert o in multiset(seen);
      var i :| 0 <= i < |seen| && seen[i] == o;
      assert events[i] == Drivers.MemberEvents(seen)[i];
    }
    if SomeSuccess(events) && events == Drivers.MemberEvents(seen) {
      var i :| 0 <= i < |events| && events[i].MemberEvent? && Calls.Ok(events[i].outcome);
      assert seen[i] in multiset(members);
    }
  }

  /** A process stream whose members all fail. */
  lemma {:induction false} IceAllFailed(run: Ice.Run, blocks: seq<Drivers.Block>, end: Drivers.ProcessEnd)
    requires Drivers.Shows(run, blocks, end)
    ensures SomeSuccess(Drivers.EventsOf(blocks)) <==> exists o :: o in Ice.Round0(run) && Calls.Ok(o)
    ensures !SomeSuccess(Drivers.EventsOf(blocks)) ==>
      && end == Drivers.ProcessRaised(Ice.Round0(run), None)
      && Agreement.RecordedRows(Drivers.Raised(end.members, end.critique, None)) == Agreement.MadeCalls(run)
  {
    hide Drivers.EventsOf, Ice.Iterate, Drivers.EndsAs, Drivers.Rearranged, Ice.Round0, Calls.Survivors, Ice.RoundCritique, SomeSuccess;
    FirstBlock(blocks);
    SuccessShows(Drivers.EventsOf(blocks), blocks[0].members, Ice.Round0(run));
  }

  /** Whether the response to an ICE process stream begins: exactly when some member succeeds in round 0.
      Otherwise the request is answered with an error - nothing is sent or persisted by the stream, and the
      rows written for the error are the calls made, which the events showed, each once. */
  lemma {:induction false} IceRefused(run: Ice.Run, blocks: seq<Drivers.Block>, end: Drivers.ProcessEnd, c: Config, s: System, d: Display,
        final: Option<Upstream>)
    requires Drivers.Shows(run, blocks, end) && PlaysIce(c, d, Drivers.EventsOf(blocks), end, final) && Reachable(c, s)
    ensures var answered := exists o :: o in Ice.Round0(run) && Calls.Ok(o);
      && (s.ferry == Refused ==> !answered)
      && (!answered ==> (s.ferry == NotServing || s.ferry == Refused) && s.received == [] && s.saved == None)
      && (!answered ==>
           && end == Drivers.ProcessRaised(Ice.Round0(run), None)
           && Agreement.RecordedRows(Drivers.Raised(end.members, end.critique, None)) == Agreement.MadeCalls(run)
           && multiset(Drivers.OutcomesOf(Drivers.EventsOf(blocks))) == multiset(Agreement.MadeCalls(run)))
  {
    hide Reachable, Drivers.OutcomesOf, Drivers.EventsOf, Drivers.Shows, Ice.Iterate, Ice.Round0, Calls.Survivors, Ice.RoundCritique;
    hide ProcessEffects, PlanEffects, QuietFailure, SoundEffects, SomeSuccess;
    var events := Drivers.EventsOf(blocks);
    ProcessSound(d, events, final);
    ScriptSound(c);
    hide WellFormedConfig;
    IceAllFailed(run, blocks, end);
    ProcessLength(d, events);
    RefusedIffNoSuccess(c, s, events);
    Agreement.EventsShowCalls(run, blocks, end);
    if !SomeSuccess(events) {
      AllFailedCalls(run);
    }
  }

  lemma {:induction false} AllFailedCalls(run: Ice.Run)
    requires forall o :: o in Ice.Round0(run) ==> !Calls.Ok(o)
    ensures Agreement.MadeCalls(run) == Agreement.CallsBeforeFinal(run)
  {
    hide Ice.Round0, Ice.Iterate, Calls.Survivors, Ice.RoundCritique;
  }

  lemma {:induction false} ProcessLength(d: Display, events: seq<Drivers.ProcessEvent>)
    ensures |ProcessEffects(d, events)| == |events|
  {
  }

  lemma {:induction false} FirstBlock(blocks: seq<Drivers.Block>)
    requires blocks != []
    ensures Drivers.MemberEvents(blocks[0].members) <= Drivers.EventsOf(blocks)
    ensures |blocks| == 1 && blocks[0].critique == None ==> Drivers.EventsOf(blocks) == Drivers.MemberEvents(blocks[0].members)
  {
    hide Drivers.EventsOf, Drivers.MemberEvents;
    assert blocks == [blocks[0]] + blocks[1..];
    Drivers.EventsOfCons(blocks[0], blocks[1..]);
    Drivers.NoBlocks();
    assert Drivers.BlockEvents(blocks[0]) + [] == Drivers.BlockEvents(blocks[0]);
    assert Drivers.MemberEvents(blocks[0].members) + [] == Drivers.MemberEvents(blocks[0].members);
  }

  /** The same of a council process stream. */
  lemma {:induction false} CouncilRefused(setup: Council.Setup, seen: seq<Calls.Outcome>, events: seq<Drivers.ProcessEvent>,
        end: Council.ProcessEnd, c: Config, s: System, d: Display, final: Option<Upstream>)
    requires Council.Shows(setup, seen, events, end) && PlaysCouncil(c, d, events, end, final) && Reachable(c, s)
    ensures var answered := exists o :: o in Council.Members(setup) && Calls.Ok(o);
      && (s.ferry == Refused ==> !answered)
      && (!answered ==> (s.ferry == NotServing || s.ferry == Refused) && s.received == [] && s.saved == None)
      && (!answered ==>
           && end == Council.ProcessRaised(Council.Members(setup), None, None)
           && Council.RecordedRows(Council.Raised(end.members, end.critique, end.judge)) == Council.MadeCalls(setup)
           && multiset(Drivers.OutcomesOf(events)) == multiset(Council.MadeCalls(setup)))
  {
    hide Reachable, Drivers.OutcomesOf, Council.Members, Council.Shown, Calls.Survivors, Council.Critique, Council.ProcessEnds;
    hide ProcessEffects, PlanEffects, QuietFailure, SoundEffects, ResultEffect, Drivers.MemberEvents;
    CouncilSound(c, d, events, end, final);
    ProcessLength(d, events);
    assert Drivers.MemberEvents(seen) + [] == Drivers.MemberEvents(seen);
    SuccessShows(events, seen, Council.Members(setup));
    RefusedIffNoSuccess(c, s, events);
    Council.EventsShowCalls(setup, seen, events, end);
  }

  lemma {:induction false} CouncilSound(c: Config, d: Display, events: seq<Drivers.ProcessEvent>, end: Council.ProcessEnd, final: Option<Upstream>)
    requires PlaysCouncil(c, d, events, end, final)
    ensures WellFormedConfig(c)
  {
    hide ProcessEffects, PlanEffects, SoundEffects, ResultEffect, AllLines, UsageNeedsFinal;
    match end {
      case Result(delivered) => ResultConfig(c, d, events, ResultOf(delivered), CallsOf(delivered));
      case ProcessUncaught => BrokenConfig(c, d, events);
      case _ =>
        ProcessSound(d, events, final);
        ScriptSound(c);
    }
  }
}
