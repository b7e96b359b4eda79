/** The streams of the strategies with their calls in flight: every call that came back has its row, except
    those that a client which leaves cuts off between coming back and being taken. */
module GatewayCalls {
  import opened Prelude
  import Calls
  import opened StreamProtocol
  import opened GatewayPaths
  import opened InFlight
  import Executor
  import Ice
  import Drivers = IceDrivers
  import Agreement = IceAgreement
  import Theorems = IceTheorems
  import Council
  import Runs = GatewayRuns

  // ---- Rows against calls ------------------------------------------------------------------

  lemma {:induction false} CallsAreRows(effects: seq<Effect>)
    requires forall i :: 0 <= i < |effects| ==> effects[i].result == None
    ensures CallsOfSteps(effects) == RowsOf(effects)
  {
    if effects != [] {
      var n := |effects| - 1;
      CallsAreRows(effects[..n]);
      assert CallsIn(effects[n]) == effects[n].rows;
    }
  }

  lemma {:induction false} FrontCalls(effects: seq<Effect>, k: nat)
    requires k <= |effects| && forall i :: 0 <= i < k ==> effects[i].result == None
    ensures Between(effects, 0, k) == RowsOf(effects[..k])
  {
    assert effects[0..k] == effects[..k];
    CallsAreRows(effects[..k]);
  }

  /** A stream whose steps carry no computed result. */
  lemma {:induction false} PlainTallies(c: Config, s: System)
    requires WellFormedConfig(c) && FreshSink(c) && Reachable(c, s) && s.saved.Some?
    requires forall i :: 0 <= i < |c.script.effects| ==> c.script.effects[i].result == None
    ensures Tallies(c, s)
  {
    hide Reachable, JudgeRow, RowsOf, AppliedAll, Between, WellFormedConfig;
    SavedFrom(c, s);
    NoResult(c, s.pos);
    SinkRows(c.initial, c.script.effects[..s.pos]);
    FrontCalls(c.script.effects, s.pos);
    assert c.initial.rows + RowsOf(c.script.effects[..s.pos]) == RowsOf(c.script.effects[..s.pos]);
  }

  lemma {:induction false} StagedUsage(c: Config, front: seq<Effect>, final: Option<Upstream>)
    requires Staged(c.script, front, final) && c.initial.usage == None
    requires forall i :: 0 <= i < |front| ==> front[i].usage == None && front[i].result == None
    ensures UsageNeedsFinal(c)
  {
    hide PlanEffects, RowsOf, UsageAfter;
    StagedShape(c, front, final);
    forall k | 0 <= k <= |c.script.effects|
      ensures var sink := AppliedAll(c.initial, c.script.effects[..k]); sink.usage.Some? ==> sink.forwarding
    {
      UsageGuarded(c, |front|, k);
    }
  }

  /** A stream of strategy steps and possibly a forwarded final call. */
  lemma {:induction false} StagedAccounts(t: Timeline, l: Live, front: seq<Effect>, final: Option<Upstream>, pre: seq<Calls.Outcome>)
    requires Proper(t) && CanLive(t, l) && l.sys.saved.Some? && FreshSink(t.config) && StartsFrom(t.config.base, pre)
    requires Staged(t.config.script, front, final) && t.config.initial.usage == None
    requires forall i :: 0 <= i < |front| ==> front[i].usage == None && front[i].result == None
    ensures Accounted(t, l, pre)
  {
    StagedShape(t.config, front, final);
    StagedUsage(t.config, front, final);
    FromRun(t, l);
    assert t.config.initial.rows == [];
    hide *;
    PlainTallies(t.config, l.sys);
    Accounts(t, l, pre);
  }

  /** ICE rounds behind a prepared stream, with the calls of the round in flight. */
  lemma {:induction false} IterativeCalls(t: Timeline, l: Live, yielded: seq<Drivers.RoundResult>, final: Option<Upstream>,
                        progress: bool, total: int, pre: seq<Calls.Outcome>)
    requires Proper(t) && CanLive(t, l) && l.sys.saved.Some?
    requires Runs.Iterates(t.config, yielded, final, progress, total, t.config.base) && StartsFrom(t.config.base, pre)
    ensures Accounted(t, l, pre)
  {
    hide Proper, CanLive, Accounted, PlanEffects, RoundEffects, StartsFrom;
    var front := [Plain(if progress then [CommentLine(1, total)] else [])] + RoundEffects(yielded, progress, total);
    RoundsShape(yielded, progress, total);
    assert front + [] == front;
    StagedAccounts(t, l, front, final, pre);
  }

  /** A process stream, with the calls that have come back but not been shown. */
  lemma {:induction false} ProcessCalls(t: Timeline, l: Live, d: Display, events: seq<Drivers.ProcessEvent>, final: Option<Upstream>)
    requires Proper(t) && CanLive(t, l) && l.sys.saved.Some?
    requires t.config.script == ProcessScript(d, events, final)
    requires t.config.initial == FreshWith("", false) && StartsFrom(t.config.base, [])
    ensures Accounted(t, l, [])
  {
    hide Proper, CanLive, Accounted, PlanEffects, StartsFrom;
    QuietEvents(d, events);
    assert ProcessEffects(d, events) + [] == ProcessEffects(d, events);
    StagedAccounts(t, l, ProcessEffects(d, events), final, []);
  }

  lemma {:induction false} BrokenCalls(t: Timeline, l: Live, d: Display, events: seq<Drivers.ProcessEvent>)
    requires Proper(t) && CanLive(t, l) && l.sys.saved.Some?
    requires t.config.script == BrokenScript(d, events)
    requires t.config.initial == FreshWith("", false) && StartsFrom(t.config.base, [])
    ensures Accounted(t, l, [])
  {
    hide Proper, CanLive, Accounted, PlanEffects, StartsFrom;
    QuietEvents(d, events);
    assert ProcessEffects(d, events) + [] == ProcessEffects(d, events);
    StagedAccounts(t, l, ProcessEffects(d, events), None, []);
  }

  lemma {:induction false} ResultStepCalls(d: Display, events: seq<Drivers.ProcessEvent>, r: FinalResult, calls: seq<Calls.ToolCall>, k: nat)
    requires k <= |events| + 1
    ensures var effects := ProcessEffects(d, events) + [ResultEffect(r, calls)]; var shown := Drivers.OutcomesOf(events);
      Between(effects, 0, k) == if k > |events| then shown + [r.judge] else shown[..k]
  {
    hide RowsOf, ProcessEffect, CallsOfSteps, ResultBody;
    var front, last := ProcessEffects(d, events), ResultEffect(r, calls);
    QuietEvents(d, events);
    FrontRows(d, events, if k > |events| then |events| else k);
    if k > |events| {
      assert (front + [last])[0..k] == front + [last];
      assert front[..|front|] == front;
      FrontCalls(front, |front|);
      assert front[0..|front|] == front;
      CallsOfSnoc(front, last);
      assert CallsIn(last) == [r.judge];
    } else {
      assert (front + [last])[..k] == front[..k];
      FrontCalls(front + [last], k);
    }
  }

  lemma {:induction false} NotForwarding(c: Config, s: System, d: Display, events: seq<Drivers.ProcessEvent>, r: FinalResult,
        calls: seq<Calls.ToolCall>)
    requires c.script == ResultScript(d, events, r, calls) && c.initial == FreshWith("", false)
    requires Reachable(c, s) && s.saved.Some?
    ensures !s.sink.forwarding && s.pos <= |events| + 1
  {
    hide Reachable, AppliedAll, ResultEffect, ProcessEffect, Summary, WellFormedConfig;
    ResultConfig(c, d, events, r, calls);
    ResultEffectsPlain(d, events, r, calls);
    SavedFrom(c, s);
    NeverUsage(c, s.pos);
  }

  /** A process stream whose result is computed in the strategy; the final call is in flight in front of it. */
  lemma {:induction false} ResultCalls(t: Timeline, l: Live, d: Display, events: seq<Drivers.ProcessEvent>, r: FinalResult,
        calls: seq<Calls.ToolCall>)
    requires Proper(t) && CanLive(t, l) && l.sys.saved.Some?
    requires t.config.script == ResultScript(d, events, r, calls)
    requires t.config.initial == FreshWith("", false) && StartsFrom(t.config.base, [])
    ensures Accounted(t, l, [])
  {
    var c, s := t.config, l.sys;
    FromRun(t, l);
    assert c.initial.rows == [];
    assert c.script.effects == ProcessEffects(d, events) + [ResultEffect(r, calls)];
    hide *;
    ResultConfig(c, d, events, r, calls);
    NotForwarding(c, s, d, events, r, calls);
    ResultStream(c, s, d, events, r, calls);
    ResultStepCalls(d, events, r, calls, s.pos);
    ResultTallies(c, s, d, events, r, calls);
    Accounts(t, l, []);
  }

  lemma {:induction false} ResultTallies(c: Config, s: System, d: Display, events: seq<Drivers.ProcessEvent>, r: FinalResult,
        calls: seq<Calls.ToolCall>)
    requires s.saved.Some? && !s.sink.forwarding
    requires s.saved.value.rows == Between(c.script.effects, 0, s.pos)
    ensures Tallies(c, s)
  {
    hide Between;
    assert Between(c.script.effects, 0, s.pos) + [] == Between(c.script.effects, 0, s.pos);
  }

  // ---- The strategies ----------------------------------------------------------------------

  /** The groups of an ICE process stream: the members of each round, its critique, and the steps behind. */
  function BlockCut(b: Drivers.Block): seq<nat> {
    (if b.members == [] then [] else [|b.members|]) + (if b.critique.Some? then [1] else [])
  }

  function BlockCuts(blocks: seq<Drivers.Block>): seq<nat> {
    if blocks == [] then [] else BlockCuts(blocks[..|blocks| - 1]) + BlockCut(blocks[|blocks| - 1])
  }

  lemma {:induction false} BlockCutFits(b: Drivers.Block)
    ensures Calls.Sum(BlockCut(b)) == |Drivers.BlockEvents(b)| && forall i :: 0 <= i < |BlockCut(b)| ==> BlockCut(b)[i] > 0
  {
    var n: nat := |b.members|;
    assert Calls.Sum([]) == 0;
    var one: nat := 1;
    assert [one][1..] == [] && [n][1..] == [] && [n, one][1..] == [one];
    assert Calls.Sum([one]) == 1 && Calls.Sum([n]) == n && Calls.Sum([n, one]) == n + 1;
    assert BlockCut(b) == if b.members == [] then (if b.critique.Some? then [one] else [])
                          else if b.critique.Some? then [n, one] else [n];
  }

  lemma {:induction false} BlockCutsFit(blocks: seq<Drivers.Block>)
    ensures Calls.Sum(BlockCuts(blocks)) == |Drivers.EventsOf(blocks)|
    ensures forall i :: 0 <= i < |BlockCuts(blocks)| ==> BlockCuts(blocks)[i] > 0
  {
    if blocks != [] {
      var n := |blocks| - 1;
      BlockCutsFit(blocks[..n]);
      BlockCutFits(blocks[n]);
      hide BlockCut, Calls.Sum, Drivers.BlockEvents;
      Calls.SumConcat(BlockCuts(blocks[..n]), BlockCut(blocks[n]));
    }
  }

  lemma {:induction false} OnesFit(n: nat)
    ensures Calls.Sum(Ones(n)) == n && forall i :: 0 <= i < |Ones(n)| ==> Ones(n)[i] > 0
  {
    if n > 0 {
      OnesFit(n - 1);
      assert Ones(n)[1..] == Ones(n - 1);
    }
  }

  /** An ICE process stream as it runs: its script, its groups and its semaphore. */
  function IceTimeline(run: Ice.Run, c: Config, blocks: seq<Drivers.Block>): Timeline {
    var shown := |Drivers.EventsOf(blocks)|;
    Timeline(c, BlockCuts(blocks) + Ones(if shown <= |c.script.effects| then |c.script.effects| - shown else 0),
             Executor.Capacity(run.ctx.maxConcurrency))
  }

  /** A stream all of whose steps take what they take as a whole. */
  function RoundsTimeline(run: Ice.Run, c: Config): Timeline {
    Timeline(c, Ones(|c.script.effects|), Executor.Capacity(run.ctx.maxConcurrency))
  }

  lemma {:induction false} IceGroupsFit(run: Ice.Run, c: Config, blocks: seq<Drivers.Block>)
    requires |Drivers.EventsOf(blocks)| <= |c.script.effects| && WellFormedConfig(c)
    ensures Proper(IceTimeline(run, c, blocks))
  {
    hide Drivers.EventsOf, BlockCuts, WellFormedConfig, Calls.Sum, Ones;
    var behind := |c.script.effects| - |Drivers.EventsOf(blocks)|;
    BlockCutsFit(blocks);
    OnesFit(behind);
    Calls.SumConcat(BlockCuts(blocks), Ones(behind));
  }

  /** Every ICE process stream, however its client behaves, accounts for every call that came back. */
  lemma {:induction false} IceProcessCalls(run: Ice.Run, blocks: seq<Drivers.Block>, end: Drivers.ProcessEnd,
        c: Config, d: Display, final: Option<Upstream>, l: Live)
    requires Drivers.Shows(run, blocks, end) && Runs.PlaysIce(c, d, Drivers.EventsOf(blocks), end, final)
    ensures Proper(IceTimeline(run, c, blocks))
    ensures CanLive(IceTimeline(run, c, blocks), l) && l.sys.saved.Some? ==> Accounted(IceTimeline(run, c, blocks), l, [])
  {
    var events := Drivers.EventsOf(blocks);
    IceScript(c, d, events, end, final);
    assert IceTimeline(run, c, blocks).config == c;
    hide *;
    IceGroupsFit(run, c, blocks);
    if CanLive(IceTimeline(run, c, blocks), l) && l.sys.saved.Some? {
      ProcessCalls(IceTimeline(run, c, blocks), l, d, events, final);
    }
  }

  lemma {:induction false} IceScript(c: Config, d: Display, events: seq<Drivers.ProcessEvent>, end: Drivers.ProcessEnd, final: Option<Upstream>)
    requires Runs.PlaysIce(c, d, events, end, final)
    ensures WellFormedConfig(c) && |events| <= |c.script.effects|
    ensures c.script == ProcessScript(d, events, final) && c.initial == FreshWith("", false) && StartsFrom(c.base, [])
  {
    hide PlanEffects, QuietFailure, SoundEffects, Calls.SumOf;
    ProcessSound(d, events, final);
    ScriptSound(c);
    Runs.ProcessLength(d, events);
  }

  /** The same for the rounds of a prepared ICE stream. */
  lemma {:induction false} IceRoundsCalls(run: Ice.Run, plan: Drivers.Plan, yielded: seq<Drivers.RoundResult>, end: Drivers.StreamEnd,
        c: Config, final: Option<Upstream>, progress: bool, total: int, l: Live)
    requires Drivers.Prepared(run, plan) && plan.Iterating? && Drivers.Streamed(run, plan, yielded, end)
    requires Runs.Iterates(c, yielded, final, progress, total, plan.base)
    ensures Proper(RoundsTimeline(run, c))
    ensures CanLive(RoundsTimeline(run, c), l) && l.sys.saved.Some? ==> Accounted(RoundsTimeline(run, c), l, plan.pre)
  {
    hide Drivers.Open, Ice.Iterate, PlanEffects, CanLive, Accounted, QuietFailure, SoundEffects, RoundEffects, Calls.SumOf;
    IterativeSound(yielded, final, progress, total);
    ScriptSound(c);
    OnesFit(|c.script.effects|);
    hide Ones, WellFormedConfig, Calls.Sum;
    assert Proper(RoundsTimeline(run, c));
    hide Proper;
    if CanLive(RoundsTimeline(run, c), l) && l.sys.saved.Some? {
      IterativeCalls(RoundsTimeline(run, c), l, yielded, final, progress, total, plan.pre);
    }
  }

  /** A council process stream: its members are in flight together, then the critique, then - in tool mode -
      the final call. */
  function CouncilTimeline(setup: Council.Setup, c: Config, seen: seq<Calls.Outcome>): Timeline {
    var behind := if |seen| <= |c.script.effects| then |c.script.effects| - |seen| else 0;
    Timeline(c, (if seen == [] then [] else [|seen|]) + Ones(behind), Executor.Capacity(setup.ctx.maxConcurrency))
  }

  lemma {:induction false} CouncilProcessCalls(setup: Council.Setup, seen: seq<Calls.Outcome>, events: seq<Drivers.ProcessEvent>,
        end: Council.ProcessEnd, c: Config, d: Display, final: Option<Upstream>, l: Live)
    requires Council.Shows(setup, seen, events, end) && Runs.PlaysCouncil(c, d, events, end, final)
    ensures Proper(CouncilTimeline(setup, c, seen))
    ensures CanLive(CouncilTimeline(setup, c, seen), l) && l.sys.saved.Some? ==> Accounted(CouncilTimeline(setup, c, seen), l, [])
  {
    hide Council.Open, Council.Members, Council.ProcessEnds, PlanEffects, CanLive, Accounted, QuietFailure, SoundEffects, ResultEffect;
    var t := CouncilTimeline(setup, c, seen);
    Runs.CouncilSound(c, d, events, end, final);
    Runs.ProcessLength(d, events);
    assert |seen| <= |events| by {
      assert |Drivers.MemberEvents(seen)| == |seen|;
    }
    GroupAndOnes(|seen|, |c.script.effects| - |seen|);
    hide Ones, WellFormedConfig, Calls.Sum, Council.Shows;
    assert Proper(t);
    hide Proper;
    if CanLive(t, l) && l.sys.saved.Some? {
      match end {
        case Result(delivered) => ResultCalls(t, l, d, events, Runs.ResultOf(delivered), Runs.CallsOf(delivered));
        case ProcessUncaught => BrokenCalls(t, l, d, events);
        case _ => ProcessCalls(t, l, d, events, final);
      }
    }
  }

  lemma {:induction false} GroupAndOnes(group: nat, n: nat)
    ensures var stages := (if group == 0 then [] else [group]) + Ones(n);
      Calls.Sum(stages) == group + n && forall i :: 0 <= i < |stages| ==> stages[i] > 0
  {
    OnesFit(n);
    hide Ones;
    var head: seq<nat> := if group == 0 then [] else [group];
    assert group > 0 ==> head[1..] == [];
    assert Calls.Sum(head) == group by {
      assert Calls.Sum([]) == 0;
    }
    Calls.SumConcat(head, Ones(n));
  }

  // ---- The loss happens --------------------------------------------------------------------

  /** Every prepared ICE stream with rounds and two or more survivors can lose a call, if it is attached: its
      first refinement has come back when the client leaves, and has neither a row nor a part in the totals. */
  lemma {:induction false} IceRoundLost(run: Ice.Run, plan: Drivers.Plan, yielded: seq<Drivers.RoundResult>, end: Drivers.StreamEnd,
        c: Config, final: Option<Upstream>, progress: bool, total: int) returns (l: Live)
    requires Drivers.Prepared(run, plan) && plan.Iterating? && Drivers.Streamed(run, plan, yielded, end)
    requires Runs.Iterates(c, yielded, final, progress, total, plan.base) && !c.detach && |Drivers.Open(run).ok| >= 2
    ensures var t := RoundsTimeline(run, c);
      && CanLive(t, l) && l.sys.saved.Some? && yielded != [] && |yielded[0].members| == |Drivers.Open(run).ok|
      && Unseen(t, l) == [yielded[0].members[0]]
  {
    IceRoundsCalls(run, plan, yielded, end, c, final, progress, total, Opening(RoundsTimeline(run, c)));
    FirstYielded(run, plan, yielded, end);
    FirstRoundSteps(c, yielded, final, progress, total);
    var t := RoundsTimeline(run, c);
    hide Proper, CanLive, CallsIn, Unseen, Drivers.Open, Drivers.Streamed, IterativeScript;
    l := MidRoundLoss(t);
  }

  lemma {:induction false} FirstYielded(run: Ice.Run, plan: Drivers.Plan, yielded: seq<Drivers.RoundResult>, end: Drivers.StreamEnd)
    requires Drivers.Prepared(run, plan) && plan.Iterating? && Drivers.Streamed(run, plan, yielded, end)
    ensures yielded != [] && yielded[0].critique == None && |yielded[0].members| == |Drivers.Open(run).ok|
  {
    hide Ice.NextRound, Ice.Finished, Ice.Known, Calls.Survivors, Ice.RoundCritique;
    var it := Ice.Iterate(run, plan.start);
    if it.rounds == [] {
      Theorems.LastFailure(run, plan.start, it);
      Theorems.FinishedAtEnd(run, plan.start, it);
      assert false;
    } else {
      hide Ice.Iterate;
      Theorems.RoundsAre(run, plan.start, it, 0);
      FirstResult(it.rounds);
    }
  }

  lemma {:induction false} FirstResult(rounds: seq<Ice.Round>)
    requires rounds != []
    ensures Drivers.RoundResults(rounds) != []
    ensures Drivers.RoundResults(rounds)[0] == Drivers.RoundResult(1, rounds[0].refined, None)
  {
    if |rounds| > 1 {
      FirstResult(rounds[..|rounds| - 1]);
    } else {
      assert Drivers.RoundResults(rounds[..0]) == [];
    }
  }

  lemma {:induction false} FirstRoundSteps(c: Config, yielded: seq<Drivers.RoundResult>, final: Option<Upstream>, progress: bool, total: int)
    requires c.script == IterativeScript(yielded, final, progress, total) && yielded != [] && yielded[0].critique == None
    ensures |c.script.effects| >= 2 && c.script.gate == 0
    ensures CallsIn(c.script.effects[0]) == [] && CallsIn(c.script.effects[1]) == yielded[0].members
  {
    hide PlanEffects;
    assert RoundEffects(yielded, progress, total)[0] == RoundEffect(yielded[0], progress, total);
  }

  /** Every ICE process stream with two or more members can lose a call, if it is attached and the first
      member to answer succeeds: the second has answered when the client leaves, and was not shown. */
  lemma {:induction false} IceUnshownLost(run: Ice.Run, blocks: seq<Drivers.Block>, end: Drivers.ProcessEnd,
        c: Config, d: Display, final: Option<Upstream>) returns (l: Live)
    requires Drivers.Shows(run, blocks, end) && Runs.PlaysIce(c, d, Drivers.EventsOf(blocks), end, final)
    requires !c.detach && |blocks[0].members| >= 2 && Calls.Ok(blocks[0].members[0])
    ensures var t := IceTimeline(run, c, blocks);
      CanLive(t, l) && l.sys.saved.Some? && Unseen(t, l) == [blocks[0].members[1]]
  {
    assert blocks != [] && c.script == ProcessScript(d, Drivers.EventsOf(blocks), final);
    hide *;
    var t := IceTimeline(run, c, blocks);
    IceProcessCalls(run, blocks, end, c, d, final, Opening(t));
    IceFirstGroup(run, c, blocks);
    Runs.FirstBlock(blocks);
    FirstEvents(c, d, blocks, final);
    l := SecondUnshown(t, blocks[0].members);
  }

  lemma {:induction false} SecondUnshown(t: Timeline, members: seq<Calls.Outcome>) returns (l: Live)
    requires Proper(t) && !t.config.detach && t.config.script.gate == 1
    requires t.stages != [] && t.stages[0] == |members| >= 2 && |t.config.script.effects| >= |members|
    requires forall k :: 0 <= k < |members| ==> CallsIn(t.config.script.effects[k]) == [members[k]]
    ensures CanLive(t, l) && l.sys.saved.Some? && Unseen(t, l) == [members[1]]
  {
    hide *;
    l := UnshownLoss(t);
  }

  lemma {:induction false} IceFirstGroup(run: Ice.Run, c: Config, blocks: seq<Drivers.Block>)
    requires blocks != [] && blocks[0].members != []
    ensures var t := IceTimeline(run, c, blocks);
      t.config == c && t.stages != [] && t.stages[0] == |blocks[0].members|
  {
    hide BlockCuts, Drivers.EventsOf, Ones;
    FirstCut(blocks);
  }

  lemma {:induction false} FirstCut(blocks: seq<Drivers.Block>)
    requires blocks != [] && blocks[0].members != []
    ensures BlockCuts(blocks) != [] && BlockCuts(blocks)[0] == |blocks[0].members|
  {
    if |blocks| > 1 {
      FirstCut(blocks[..|blocks| - 1]);
    } else {
      assert BlockCuts(blocks[..0]) == [];
    }
  }

  lemma {:induction false} FirstEvents(c: Config, d: Display, blocks: seq<Drivers.Block>, final: Option<Upstream>)
    requires blocks != [] && |blocks[0].members| >= 2 && Calls.Ok(blocks[0].members[0])
    requires Drivers.MemberEvents(blocks[0].members) <= Drivers.EventsOf(blocks)
    requires c.script == ProcessScript(d, Drivers.EventsOf(blocks), final)
    ensures c.script.gate == 1 && |c.script.effects| >= |blocks[0].members|
    ensures forall k :: 0 <= k < |blocks[0].members| ==> CallsIn(c.script.effects[k]) == [blocks[0].members[k]]
  {
    hide Drivers.EventsOf, PlanEffects, Header, Body, Reasoning;
    var events, members := Drivers.EventsOf(blocks), blocks[0].members;
    var shown := Drivers.MemberEvents(members);
    forall k | 0 <= k < |members| ensures events[k] == Drivers.MemberEvent(members[k]) {
      assert events[k] == shown[k];
    }
    assert events[0] == Drivers.MemberEvent(members[0]);
    forall k | 0 <= k < |members| ensures CallsIn(c.script.effects[k]) == [members[k]] {
      assert c.script.effects[k] == ProcessEffect(d, events[k], k == 0);
    }
  }
}
