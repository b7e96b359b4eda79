/** The row of a forwarded final call: what the persist step of a stream writes about it, from the part of
    the upstream's answer that had arrived. */
module GatewayFinal {
  import opened Prelude
  import Calls
  import opened ToolDeltas
  import opened StreamProtocol
  import opened GatewayPaths
  import Drivers = IceDrivers
  import Agreement = IceAgreement
  import Runs = GatewayRuns

  // ---- What has arrived --------------------------------------------------------------------

  /** All text of some events of the final stream. */
  function TextsIn(events: seq<StreamEvent>): string {
    if events == [] then "" else TextsIn(events[..|events| - 1]) + events[|events| - 1].text
  }

  function FragmentsIn(events: seq<StreamEvent>): seq<Fragment> {
    if events == [] then [] else FragmentsIn(events[..|events| - 1]) + events[|events| - 1].tools
  }

  /** The usage reported last. */
  function UsageIn(events: seq<StreamEvent>): Calls.Usage {
    if events == [] then Calls.Usage(0, 0, 0, 0)
    else if events[|events| - 1].usage.Some? then events[|events| - 1].usage.value
    else UsageIn(events[..|events| - 1])
  }

  /** The events that a pump has taken in `pos` steps when the final stream is opened by step `start`. */
  function Arrived(events: seq<StreamEvent>, start: nat, pos: nat): seq<StreamEvent> {
    if pos <= start then [] else if pos - start - 1 <= |events| then events[..pos - start - 1] else events
  }

  // ---- The row -----------------------------------------------------------------------------

  /** The final call of a pipeline is planned with this request. */
  ghost predicate Plans(c: Config, ctx: Calls.Context, request: Calls.Request) {
    c.judge == Calls.Pending(Calls.Judge, ctx.judgeModelId, ctx.judgeUpstreamId, ctx.judgeProvider, request, None)
  }

  /** The last row is that of the final call: the arbiter's, with the planned request. It succeeded, failed
      or was cancelled as the stream was, with the error text of the upstream after a failure; it keeps the
      text that arrived unless it failed, the last reported usage in any case, and the tool calls merged from
      the fragments. Tool calls and finish reasons are looked at only by the plain stream. */
  ghost predicate LogsFinal(saved: Saved, ctx: Calls.Context, request: Calls.Request, arrived: seq<StreamEvent>,
        tools: bool, failure: Option<string>)
  {
    && saved.rows != []
    && var row := saved.rows[|saved.rows| - 1];
    && row.role == Calls.Judge && row.modelId == ctx.judgeModelId && row.upstreamModelId == ctx.judgeUpstreamId
    && row.providerName == ctx.judgeProvider && row.payload == request && row.round == None
    && (saved.status == Success || saved.status == Failed || saved.status == ClientCancelled)
    && (row.status == Calls.Success <==> saved.status == Success)
    && (row.status == Calls.Failed <==> saved.status == Failed)
    && (row.status == Calls.ClientCancelled <==> saved.status == ClientCancelled)
    && (saved.status == Success ==> row.error == "") && (saved.status == Failed ==> failure == Some(row.error))
    && (saved.status == ClientCancelled ==> row.error == "" || failure == Some(row.error))
    && row.content == (if saved.status == Failed then "" else TextsIn(arrived))
    && row.usage == UsageIn(arrived)
    && row.toolCalls == (if tools then CallList(Merge(FragmentsIn(arrived))) else [])
    && saved.content == TextsIn(arrived)
    && saved.finish == (if tools then LastFinish(arrived) else "")
  }

  /** Step `i` of the script is the event that arrives with it, if one does. */
  ghost predicate CarriesStep(e: Effect, i: int, start: nat, events: seq<StreamEvent>, tools: bool) {
    && e.result == None
    && if start < i <= start + |events| then
         var event := events[i - start - 1];
         && e.text == event.text && e.usage == event.usage
         && e.fragments == (if tools then event.tools else []) && e.finish == (if tools then event.finish else "")
       else e.text == "" && e.usage == None && e.fragments == [] && e.finish == ""
  }

  ghost predicate Carries(effects: seq<Effect>, start: nat, events: seq<StreamEvent>, tools: bool) {
    forall i :: 0 <= i < |effects| ==> CarriesStep(effects[i], i, start, events, tools)
  }

  /** A step that carries an event adds it to what has arrived; the others add nothing. */
  lemma {:induction false} ArrivedSnoc(events: seq<StreamEvent>, start: nat, k: nat)
    ensures Arrived(events, start, k + 1) ==
      if start < k <= start + |events| then Arrived(events, start, k) + [events[k - start - 1]] else Arrived(events, start, k)
  {
    if k - start - 1 == |events| {
      assert events[..|events|] == events;
    }
    if start < k < start + |events| {
      assert events[..k - start] == events[..k - start - 1] + [events[k - start - 1]];
    }
  }

  lemma {:induction false} InSnoc(events: seq<StreamEvent>, event: StreamEvent)
    ensures TextsIn(events + [event]) == TextsIn(events) + event.text
    ensures FragmentsIn(events + [event]) == FragmentsIn(events) + event.tools
    ensures LastFinish(events + [event]) == if event.finish != "" then event.finish else LastFinish(events)
    ensures UsageIn(events + [event]) == if event.usage.Some? then event.usage.value else UsageIn(events)
  {
    assert (events + [event])[..|events|] == events;
  }

  /** The sink holds what has arrived. */
  ghost predicate Holds(sink: Sink, arrived: seq<StreamEvent>, tools: bool) {
    && Concat(sink.parts) == TextsIn(arrived) && UsageOr0(sink.usage) == UsageIn(arrived)
    && sink.finish == (if tools then LastFinish(arrived) else "")
    && sink.fragments == (if tools then FragmentsIn(arrived) else [])
    && sink.result == None
  }

  lemma {:induction false} HoldsMore(sink: Sink, e: Effect, arrived: seq<StreamEvent>, tools: bool, event: StreamEvent)
    requires Holds(sink, arrived, tools) && e.result == None
    requires e.text == event.text && e.usage == event.usage
    requires e.fragments == (if tools then event.tools else []) && e.finish == (if tools then event.finish else "")
    ensures Holds(Applied(sink, e), arrived + [event], tools)
  {
    InSnoc(arrived, event);
    ConcatAppend(sink.parts, e.text);
    hide TextsIn, FragmentsIn, UsageIn, Concat;
    assert TextsIn(arrived) + "" == TextsIn(arrived);
  }

  lemma {:induction false} HoldsStill(sink: Sink, e: Effect, arrived: seq<StreamEvent>, tools: bool)
    requires Holds(sink, arrived, tools) && e.result == None
    requires e.text == "" && e.usage == None && e.fragments == [] && e.finish == ""
    ensures Holds(Applied(sink, e), arrived, tools)
  {
    hide TextsIn, FragmentsIn, UsageIn, Concat;
    assert sink.fragments + [] == sink.fragments;
  }

  lemma {:induction false} SinkHolds(c: Config, start: nat, events: seq<StreamEvent>, tools: bool, k: nat)
    requires k <= |c.script.effects| && Carries(c.script.effects, start, events, tools) && Holds(c.initial, [], tools)
    ensures Holds(AppliedAll(c.initial, c.script.effects[..k]), Arrived(events, start, k), tools)
  {
    hide Holds, Applied, AppliedAll, Arrived;
    if k == 0 {
      assert c.script.effects[..0] == [];
      assert AppliedAll(c.initial, []) == c.initial && Arrived(events, start, 0) == [] by {
        NothingYet(c.initial, events, start);
      }
    } else {
      SinkHolds(c, start, events, tools, k - 1);
      AppliedAllSnoc(c.initial, c.script.effects, k - 1);
      ArrivedSnoc(events, start, k - 1);
      var sink, e := AppliedAll(c.initial, c.script.effects[..k - 1]), c.script.effects[k - 1];
      assert CarriesStep(e, k - 1, start, events, tools);
      if start < k - 1 <= start + |events| {
        HoldsMore(sink, e, Arrived(events, start, k - 1), tools, events[k - 1 - start - 1]);
      } else {
        HoldsStill(sink, e, Arrived(events, start, k - 1), tools);
      }
    }
  }

  lemma {:induction false} NothingYet(s: Sink, events: seq<StreamEvent>, start: nat)
    ensures AppliedAll(s, []) == s && Arrived(events, start, 0) == []
  {
  }

  /** A failure has the upstream's error text, a success has none, and a client that left may have come
      before or behind the failure. */
  ghost predicate ErrorFits(s: Sink, failure: Option<string>) {
    || (s.status == Success && s.error == "")
    || (s.status == Failed && failure == Some(s.error))
    || (s.status == ClientCancelled && (s.error == "" || failure == Some(s.error)))
  }

  /** What is saved about a sink that forwards. */
  lemma {:induction false} RowSays(c: Config, s: Sink, ctx: Calls.Context, request: Calls.Request, arrived: seq<StreamEvent>, tools: bool,
        failure: Option<string>)
    requires Plans(c, ctx, request) && Holds(s, arrived, tools) && s.forwarding && ErrorFits(s, failure)
    ensures LogsFinal(Summary(c, s), ctx, request, arrived, tools, failure)
  {
    hide TextsIn, FragmentsIn, UsageIn, Concat, Merge, CallList, Calls.SumOf;
    NoFragments();
  }

  lemma {:induction false} NoFragments()
    ensures CallList(Merge([])) == []
  {
  }

  lemma {:induction false} HoldsAnyStatus(s: Sink, t: Sink, arrived: seq<StreamEvent>, tools: bool)
    requires Holds(s, arrived, tools) && s.(status := Pending, error := "") == t.(status := Pending, error := "")
    ensures Holds(t, arrived, tools) && t.forwarding == s.forwarding && t.result == None
  {
    assert t == s.(status := t.status, error := t.error);
  }

  /** The status of a sink, wherever its pump ended. */
  lemma {:induction false} EndStatus(c: Config, s: System)
    requires WellFormedConfig(c) && Reachable(c, s) && s.saved.Some?
    ensures s.sink.status == Success || s.sink.status == Failed || s.sink.status == ClientCancelled
    ensures s.sink.status == if s.ferry == Gone && !c.detach then ClientCancelled else FinalStatus(c)
  {
    SavedFrom(c, s);
    StatusTerminal(c, c.script.effects);
  }

  /** The scripts in question fail with an upstream's error, or end in success. */
  ghost predicate EndsLike(c: Config, failure: Option<string>) {
    && c.initial.error == ""
    && match failure
       case Some(m) => c.script.failure.Some? && c.script.error == m
       case None => c.script.failure.None? && AppliedAll(c.initial, c.script.effects).status == Success
  }

  lemma {:induction false} ErrorKept(s: Sink, effects: seq<Effect>)
    ensures AppliedAll(s, effects).error == s.error
  {
    if effects != [] {
      ErrorKept(s, effects[..|effects| - 1]);
    }
  }

  lemma {:induction false} ErrorIs(c: Config, s: System, failure: Option<string>)
    requires WellFormedConfig(c) && Reachable(c, s) && s.saved.Some? && EndsLike(c, failure)
    ensures ErrorFits(s.sink, failure)
  {
    SavedFrom(c, s);
    EndStatus(c, s);
    hide AppliedAll, Reachable, WellFormedConfig, Summary;
    ErrorKept(c.initial, c.script.effects);
    ErrorKept(c.initial, c.script.effects[..s.pos]);
  }

  /** Any stream with a final call opened by step `start`: its record names that call exactly from there on,
      as far as the upstream's answer had arrived. */
  lemma {:induction false} FinalIsLogged(c: Config, s: System, start: nat, events: seq<StreamEvent>, tools: bool,
        ctx: Calls.Context, request: Calls.Request, failure: Option<string>)
    requires EndsLike(c, failure)
    requires Plans(c, ctx, request) && Carries(c.script.effects, start, events, tools) && Holds(c.initial, [], tools)
    requires WellFormedConfig(c) && UsageAfter(c, start) && Reachable(c, s) && s.saved.Some?
    requires s.pos > start || c.initial.forwarding
    ensures LogsFinal(s.saved.value, ctx, request, Arrived(events, start, s.pos), tools, failure) && s.sink.result == None
  {
    SavedFrom(c, s);
    ErrorIs(c, s, failure);
    SinkHolds(c, start, events, tools, s.pos);
    UsageGuarded(c, start, s.pos);
    hide EndsLike, ErrorFits, Holds, Arrived, LogsFinal, Summary, AppliedAll, Reachable, WellFormedConfig, UsageAfter;
    hide Carries, FinalStatus, Plans;
    HoldsAnyStatus(AppliedAll(c.initial, c.script.effects[..s.pos]), s.sink, Arrived(events, start, s.pos), tools);
    RowSays(c, s.sink, ctx, request, Arrived(events, start, s.pos), tools, failure);
  }

  // ---- The three streams with a forwarded final call ---------------------------------------

  lemma {:induction false} FreshHolds()
    ensures Holds(FreshWith("stop", true), [], true) && Holds(FreshWith("", false), [], false)
  {
  }

  lemma {:induction false} DirectCarries(up: Upstream)
    ensures Carries(DirectScript(up, false).effects, 0, up.events, true)
  {
    var effects := DirectScript(up, false).effects;
    forall i | 0 <= i < |effects| ensures CarriesStep(effects[i], i, 0, up.events, true) {
      assert 0 < i <= |up.events| ==> effects[i] == EventEffect(up.events[i - 1]);
    }
  }

  lemma {:induction false} DirectSize(up: Upstream)
    ensures var script := DirectScript(up, false);
      && |up.events| + 1 <= |script.effects| <= |up.events| + 2
      && (script.failure.None? <==> up.error.None?)
      && (up.error.None? ==> script.effects == script.effects[..|script.effects| - 1] + [EndEffect(LastFinish(up.events))])
  {
  }

  /** Plain pipeline streams, for council and ICE alike: the one row of the stream is that of the final call. */
  lemma {:induction false} DirectFinal(c: Config, s: System, up: Upstream, ctx: Calls.Context, request: Calls.Request)
    requires Runs.Forwards(c, up, c.base) && Plans(c, ctx, request) && Reachable(c, s) && s.saved.Some?
    ensures |s.saved.value.rows| == 1
    ensures LogsFinal(s.saved.value, ctx, request, Arrived(up.events, 0, s.pos), true, up.error)
    ensures c.detach || s.ferry == Drained ==>
      Arrived(up.events, 0, s.pos) == up.events && s.saved.value.status == if up.error.None? then Success else Failed
    ensures !c.detach && s.ferry == Gone ==> s.saved.value.status == ClientCancelled
  {
    DirectSound(up, false);
    ScriptSound(c);
    DirectCarries(up);
    FreshHolds();
    DirectEndsLike(c, up);
    hide Reachable, WellFormedConfig, Carries, Holds, LogsFinal, DirectScript, SoundEffects, QuietFailure, Plans, EndsLike;
    FinalIsLogged(c, s, 0, up.events, true, ctx, request, up.error);
    OneRow(c, s, up);
    DirectEnd(c, s, up);
  }

  lemma {:induction false} DirectRows(up: Upstream)
    ensures forall i :: 0 <= i < |DirectScript(up, false).effects| ==> DirectScript(up, false).effects[i].rows == []
    ensures DirectScript(up, false).effects[0].usage == None
  {
  }

  /** A stream that is not cut off takes all its steps. */
  lemma {:induction false} UncutSteps(c: Config, s: System)
    requires WellFormedConfig(c) && Reachable(c, s) && s.saved.Some? && (c.detach || s.ferry == Drained)
    ensures s.pos == |c.script.effects|
  {
    hide Conserved, SinkIs, SentIs, Summary, AppliedAll;
    ClientSeesPrefix(c, s);
    if c.detach {
      var run :| After(c, StreamProtocol.Initial(c), run) == Some(s);
      ReachableInv(c, run);
      DetachedRunsToTheEnd(c, s);
    }
  }

  lemma {:induction false} SuccessAtEnd(s: Sink, front: seq<Effect>, finish: string)
    ensures AppliedAll(s, front + [EndEffect(finish)]).status == Success
  {
    hide AppliedAll;
    OneMoreDone(s, [], front, EndEffect(finish));
  }

  /** What is saved of a sink without a computed result. */
  lemma {:induction false} SummaryIs(c: Config, s: Sink)
    requires s.result == None
    ensures Summary(c, s).status == s.status && Summary(c, s).content == Concat(s.parts)
    ensures Summary(c, s).rows == s.rows + if s.forwarding then [JudgeRow(c, s)] else []
  {
    hide JudgeRow, CallList, Calls.SumOf;
  }

  /** Apart from its status, the saved sink is what the steps done leave. */
  lemma {:induction false} SavedSink(c: Config, s: System)
    requires WellFormedConfig(c) && Reachable(c, s) && s.saved.Some?
    ensures s.pos <= |c.script.effects| && s.saved == Some(Summary(c, s.sink))
    ensures var sink := AppliedAll(c.initial, c.script.effects[..s.pos]);
      s.sink.rows == sink.rows && s.sink.forwarding == sink.forwarding && s.sink.parts == sink.parts && s.sink.result == sink.result
    ensures s.sink.rows == c.initial.rows + RowsOf(c.script.effects[..s.pos])
  {
    SavedFrom(c, s);
    hide AppliedAll, Summary, Reachable, WellFormedConfig, RowsOf;
    SinkRows(c.initial, c.script.effects[..s.pos]);
    var sink := AppliedAll(c.initial, c.script.effects[..s.pos]);
    assert s.sink == sink.(status := s.sink.status, error := s.sink.error);
  }

  lemma {:induction false} DirectEndsLike(c: Config, up: Upstream)
    requires Runs.Forwards(c, up, c.base)
    ensures EndsLike(c, up.error)
  {
    DirectSize(up);
    assert up.error.Some? ==> c.script.error == up.error.value;
    hide DirectScript, AppliedAll;
    if up.error.None? {
      SuccessAtEnd(c.initial, c.script.effects[..|c.script.effects| - 1], LastFinish(up.events));
    }
  }

  lemma {:induction false} OneRow(c: Config, s: System, up: Upstream)
    requires Runs.Forwards(c, up, c.base) && WellFormedConfig(c) && Reachable(c, s) && s.saved.Some? && s.sink.result == None
    ensures |s.saved.value.rows| == 1
  {
    DirectRows(up);
    assert UsageAfter(c, 0);
    assert c.initial.rows == [] && c.initial.forwarding;
    hide *;
    SavedSink(c, s);
    SummaryIs(c, s.sink);
    NoRows(c.script.effects[..s.pos]);
    UsageGuarded(c, 0, s.pos);
  }

  lemma {:induction false} DirectEnd(c: Config, s: System, up: Upstream)
    requires Runs.Forwards(c, up, c.base) && WellFormedConfig(c) && Reachable(c, s) && s.saved.Some? && s.sink.result == None
    ensures c.detach || s.ferry == Drained ==> Arrived(up.events, 0, s.pos) == up.events
    ensures s.saved.value.status == if !c.detach && s.ferry == Gone then ClientCancelled
                                    else if up.error.None? then Success else Failed
  {
    DirectSize(up);
    SavedFrom(c, s);
    EndStatus(c, s);
    hide Reachable, WellFormedConfig, DirectScript, AppliedAll, SinkIs, Summary;
    SummaryIs(c, s.sink);
    if c.detach || s.ferry == Drained {
      UncutSteps(c, s);
    }
    if up.error.None? {
      SuccessAtEnd(c.initial, c.script.effects[..|c.script.effects| - 1], LastFinish(up.events));
    }
  }

  /** Steps of a strategy in front of its plan: rows and lines, but nothing of the final call. */
  ghost predicate InFront(front: seq<Effect>) {
    forall i :: 0 <= i < |front| ==> Quiet(front[i]) && front[i].fragments == []
  }

  /** `start` steps come before the plan is reached, and `rows` are what they leave. The row of the final call
      is written exactly when the plan was reached, and behind all of these; before, there is no content. */
  ghost predicate FinalRecorded(c: Config, s: System, start: nat, rows: seq<Calls.Outcome>, up: Upstream, ctx: Calls.Context,
        request: Calls.Request)
  {
    s.saved.Some? &&
    var saved := s.saved.value;
    && (s.pos > start ==>
          && |saved.rows| == |rows| + 1 && rows <= saved.rows
          && LogsFinal(saved, ctx, request, Arrived(up.events, start, s.pos), false, up.error))
    && (s.pos <= start ==> saved.rows <= rows && saved.content == "")
    && (c.detach || s.ferry == Drained ==>
          && s.pos > start && Arrived(up.events, start, s.pos) == up.events
          && saved.status == if up.error.None? then Success else Failed)
    && (!c.detach && s.ferry == Gone ==> saved.status == ClientCancelled)
  }

  lemma {:induction false} PlanCarries(up: Upstream, i: int)
    requires 0 <= i < |PlanEffects(up)|
    ensures CarriesStep(PlanEffects(up)[i], i, 0, up.events, false)
    ensures i == 0 ==> PlanEffects(up)[i].opensFinal
    ensures PlanEffects(up)[i].rows == []
  {
    assert 0 < i <= |up.events| ==> PlanEffects(up)[i] == ContentEffect(up.events[i - 1]);
  }

  lemma {:induction false} PlanSize(up: Upstream)
    ensures |up.events| + 1 <= |PlanEffects(up)| <= |up.events| + 2
  {
  }

  lemma {:induction false} StagedCarries(c: Config, front: seq<Effect>, up: Upstream)
    requires Staged(c.script, front, Some(up)) && c.initial == FreshWith("", false) && InFront(front)
    ensures Carries(c.script.effects, |front|, up.events, false) && UsageAfter(c, |front|)
  {
    var effects := c.script.effects;
    PlanSize(up);
    hide PlanEffects, FreshWith;
    forall i | 0 <= i < |effects| ensures CarriesStep(effects[i], i, |front|, up.events, false) {
      if i < |front| {
        assert effects[i] == front[i];
      } else {
        PlanCarries(up, i - |front|);
        assert effects[i] == PlanEffects(up)[i - |front|];
      }
    }
    PlanCarries(up, 0);
    assert effects[|front|] == PlanEffects(up)[0];
    assert forall i :: 0 <= i < |front| ==> effects[i] == front[i];
    FreshUsage();
  }

  lemma {:induction false} FreshUsage()
    ensures FreshWith("", false).usage == None && FreshWith("", false).rows == []
  {
  }

  /** The rows of the steps done, with and without the final call begun. */
  lemma {:induction false} StagedSteps(c: Config, front: seq<Effect>, up: Upstream, k: nat)
    requires Staged(c.script, front, Some(up)) && InFront(front) && k <= |c.script.effects|
    ensures if k <= |front| then RowsOf(c.script.effects[..k]) <= RowsOf(front) else RowsOf(c.script.effects[..k]) == RowsOf(front)
    ensures forall i :: 0 <= i < |front| && i < |c.script.effects| ==> Quiet(c.script.effects[i])
  {
    hide RowsOf, PlanEffects, Quiet;
    var effects := c.script.effects;
    if k <= |front| {
      assert effects[..k] == front[..k];
      RowsPrefix(front, k);
    } else {
      var plan := PlanEffects(up)[..k - |front|];
      assert effects[..k] == front + plan;
      forall i | 0 <= i < |plan| ensures plan[i].rows == [] {
        PlanCarries(up, i);
      }
      NoRows(plan);
      RowsOfConcat(front, plan);
    }
    assert forall i :: 0 <= i < |front| && i < |effects| ==> effects[i] == front[i];
  }

  lemma {:induction false} StagedRows(c: Config, s: System, front: seq<Effect>, up: Upstream)
    requires Staged(c.script, front, Some(up)) && InFront(front) && c.initial == FreshWith("", false)
    requires UsageAfter(c, |front|) && WellFormedConfig(c) && Reachable(c, s) && s.saved.Some? && s.sink.result == None
    ensures s.pos > |front| ==> |s.saved.value.rows| == |RowsOf(front)| + 1 && RowsOf(front) <= s.saved.value.rows
    ensures s.pos <= |front| ==> s.saved.value.rows <= RowsOf(front) && s.saved.value.content == ""
  {
    assert c.initial.rows == [] by { FreshUsage(); }
    hide *;
    SavedSink(c, s);
    SummaryIs(c, s.sink);
    StagedSteps(c, front, up, s.pos);
    var rows := RowsOf(c.script.effects[..s.pos]);
    assert [] + rows == rows && rows + [] == rows;
    if s.pos <= |front| {
      QuietPart(c, s.pos);
      assert Concat<char>([]) == [] by { ConcatNone(); }
    } else {
      UsageGuarded(c, |front|, s.pos);
    }
  }

  lemma {:induction false} ConcatNone()
    ensures Concat<char>([]) == []
  {
  }

  lemma {:induction false} StagedEnd(c: Config, s: System, front: seq<Effect>, up: Upstream)
    requires Staged(c.script, front, Some(up)) && (c.script.failure.None? <==> up.error.None?)
    requires WellFormedConfig(c) && Reachable(c, s) && s.saved.Some? && s.sink.result == None
    ensures c.detach || s.ferry == Drained ==> s.pos > |front| && Arrived(up.events, |front|, s.pos) == up.events
    ensures s.saved.value.status == if !c.detach && s.ferry == Gone then ClientCancelled
                                    else if up.error.None? then Success else Failed
  {
    PlanSize(up);
    SavedFrom(c, s);
    EndStatus(c, s);
    hide Reachable, WellFormedConfig, PlanEffects, AppliedAll, SinkIs, Summary;
    SummaryIs(c, s.sink);
    if c.detach || s.ferry == Drained {
      UncutSteps(c, s);
    }
    if up.error.None? {
      Runs.PlanSucceeds(c.initial, front, up);
    }
  }

  lemma {:induction false} StagedEndsLike(c: Config, front: seq<Effect>, up: Upstream)
    requires Staged(c.script, front, Some(up)) && c.initial == FreshWith("", false)
    requires (c.script.failure.None? <==> up.error.None?) && c.script.error == ErrorOf(up)
    ensures EndsLike(c, up.error)
  {
    hide PlanEffects, AppliedAll;
    if up.error.None? {
      Runs.PlanSucceeds(c.initial, front, up);
    }
  }

  /** A final call behind strategy steps. */
  lemma {:induction false} StagedFinal(c: Config, s: System, front: seq<Effect>, up: Upstream, ctx: Calls.Context, request: Calls.Request)
    requires Staged(c.script, front, Some(up)) && c.initial == FreshWith("", false) && InFront(front)
    requires (c.script.failure.None? <==> up.error.None?) && c.script.error == ErrorOf(up)
    requires WellFormedConfig(c) && Plans(c, ctx, request) && Reachable(c, s) && s.saved.Some?
    ensures FinalRecorded(c, s, |front|, RowsOf(front), up, ctx, request)
  {
    StagedCarries(c, front, up);
    FreshHolds();
    NoResultHeld(c, s, |front|, up.events);
    StagedEndsLike(c, front, up);
    hide EndsLike, Staged, FreshWith, Carries, UsageAfter, Holds, LogsFinal, Plans, InFront, Reachable, WellFormedConfig, RowsOf, Arrived;
    StagedRows(c, s, front, up);
    StagedEnd(c, s, front, up);
    if s.pos > |front| {
      FinalIsLogged(c, s, |front|, up.events, false, ctx, request, up.error);
    }
  }

  lemma {:induction false} NoResultHeld(c: Config, s: System, start: nat, events: seq<StreamEvent>)
    requires Carries(c.script.effects, start, events, false) && Holds(c.initial, [], false)
    requires WellFormedConfig(c) && Reachable(c, s) && s.saved.Some?
    ensures s.sink.result == None
  {
    SavedFrom(c, s);
    hide Reachable, WellFormedConfig, Carries, AppliedAll, Summary;
    SinkHolds(c, start, events, false, s.pos);
  }

  lemma {:induction false} RoundsInFront(yielded: seq<Drivers.RoundResult>, progress: bool, total: int)
    ensures var front := [Plain(if progress then [CommentLine(1, total)] else [])] + RoundEffects(yielded, progress, total);
      |front| == 1 + |yielded| && InFront(front)
  {
  }

  lemma {:induction false} RowsInFront(yielded: seq<Drivers.RoundResult>, progress: bool, total: int)
    ensures RowsOf([Plain(if progress then [CommentLine(1, total)] else [])] + RoundEffects(yielded, progress, total))
         == Agreement.YieldedCalls(yielded)
  {
    hide RoundEffects, RowsOf, Agreement.YieldedCalls;
    var head := [Plain(if progress then [CommentLine(1, total)] else [])];
    RoundRows(yielded, progress, total);
    NoRows(head);
    RowsOfConcat(head, RoundEffects(yielded, progress, total));
    assert [] + Agreement.YieldedCalls(yielded) == Agreement.YieldedCalls(yielded);
  }

  lemma {:induction false} IterativeStaged(yielded: seq<Drivers.RoundResult>, up: Upstream, progress: bool, total: int)
    ensures var script := IterativeScript(yielded, Some(up), progress, total);
      && Staged(script, [Plain(if progress then [CommentLine(1, total)] else [])] + RoundEffects(yielded, progress, total), Some(up))
      && (script.failure.None? <==> up.error.None?) && script.error == ErrorOf(up) && QuietFailure(script)
  {
    hide PlanEffects, RoundEffects;
  }

  lemma {:induction false} EventsInFront(d: Display, events: seq<Drivers.ProcessEvent>)
    ensures InFront(ProcessEffects(d, events))
  {
  }

  /** ICE rounds behind a prepared stream, when they lead to a final call. */
  lemma {:induction false} IterativeFinal(c: Config, s: System, yielded: seq<Drivers.RoundResult>, up: Upstream, progress: bool,
        total: int, ctx: Calls.Context, request: Calls.Request)
    requires Runs.Iterates(c, yielded, Some(up), progress, total, c.base) && Plans(c, ctx, request)
    requires Reachable(c, s) && s.saved.Some?
    ensures FinalRecorded(c, s, 1 + |yielded|, Agreement.YieldedCalls(yielded), up, ctx, request)
  {
    hide *;
    var front := [Plain(if progress then [CommentLine(1, total)] else [])] + RoundEffects(yielded, progress, total);
    Iterated(c, yielded, up, progress, total);
    IterativeStaged(yielded, up, progress, total);
    IterativeSound(yielded, Some(up), progress, total);
    ScriptSound(c);
    RoundsInFront(yielded, progress, total);
    RowsInFront(yielded, progress, total);
    StagedFinal(c, s, front, up, ctx, request);
  }

  lemma {:induction false} Iterated(c: Config, yielded: seq<Drivers.RoundResult>, up: Upstream, progress: bool, total: int)
    requires Runs.Iterates(c, yielded, Some(up), progress, total, c.base)
    ensures c.script == IterativeScript(yielded, Some(up), progress, total)
    ensures c.initial == FreshWith("", false) && c.initial.status == ClientCancelled
  {
  }

  /** Process streams that come to a plan, for ICE and council alike. */
  lemma {:induction false} ProcessFinal(c: Config, s: System, d: Display, events: seq<Drivers.ProcessEvent>, up: Upstream,
        ctx: Calls.Context, request: Calls.Request)
    requires c.script == ProcessScript(d, events, Some(up)) && c.initial == FreshWith("", false) && Plans(c, ctx, request)
    requires Reachable(c, s) && s.saved.Some?
    ensures FinalRecorded(c, s, |events|, Drivers.OutcomesOf(events), up, ctx, request)
  {
    var front := ProcessEffects(d, events);
    ProcessSound(d, events, Some(up));
    ScriptSound(c);
    EventsInFront(d, events);
    ProcessRows(d, events);
    assert |front| == |events|;
    hide Reachable, WellFormedConfig, InFront, FinalRecorded, PlanEffects, SoundEffects, QuietFailure, ProcessEffects, RowsOf, Plans;
    StagedFinal(c, s, front, up, ctx, request);
  }
}
