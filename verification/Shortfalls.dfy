/** Concrete inputs at which a claim fails. The lemmas beside each claim say for exactly which inputs it holds;
    the ones here show that the others do occur, whatever the built-in templates say. */
module Shortfalls {
  import opened Prelude
  import opened Calls
  import opened Ice
  import opened IceDrivers
  import opened IceTheorems
  import opened IceAgreement
  import Council
  import Csv
  import Gateway = GatewayPaths
  import GatewayCalls
  import Runs = GatewayRuns
  import InFlight
  import J = JsonText
  import ModelSync
  import Rejudge
  import Store
  import Stream = StreamProtocol
  import ToolDeltas

  // ---- Small runs --------------------------------------------------------------------------

  function SmallContext(prompts: Prompts, ids: seq<int>, strict: bool): Context {
    var members := seq(|ids|, i requires 0 <= i < |ids| => MemberSpec(ids[i], "m", "p", map[], map[]));
    Context([Message("user", "hi")], map[], members, 9, "j", "q", map[], "", prompts, false, strict, 10)
  }

  /** A run whose members have these model ids and always answer; `arbiter` replies to the arbiter's calls. */
  function SmallRun(prompts: Prompts, ids: seq<int>, arbiter: Slot -> Reply, loads: string -> Loaded, maxRounds: int, strict: bool): Run {
    var up: Upstream := (slot: Slot, provider: string, request: Request) =>
      if slot.MemberCall? then Answer("a", NO_USAGE, [], "stop") else arbiter(slot);
    Run(SmallContext(prompts, ids, strict), IceParams(maxRounds, 0.8, true, false), World(up, loads, (text: string) => text))
  }

  function Down(slot: Slot): Reply {
    Error(false, "down")
  }

  function Agrees(slot: Slot): Reply {
    Answer("yes", NO_USAGE, [], "stop")
  }

  function NoObject(text: string): Loaded {
    NotADict
  }

  lemma {:induction false} AllSurvive(outcomes: seq<Outcome>)
    requires forall o :: o in outcomes ==> Ok(o)
    ensures Survivors(outcomes) == outcomes
  {
    if outcomes != [] {
      AllSurvive(outcomes[1..]);
      assert outcomes == [outcomes[0]] + outcomes[1..];
    }
  }

  lemma {:induction false} SmallRound0(run: Run, prompts: Prompts, ids: seq<int>, arbiter: Slot -> Reply, loads: string -> Loaded,
        maxRounds: int, strict: bool)
    requires run == SmallRun(prompts, ids, arbiter, loads, maxRounds, strict)
    ensures |Round0(run)| == |ids| && Rejudge.Ids(Round0(run)) == ids
    ensures Survivors(Round0(run)) == Round0(run) && forall o :: o in Round0(run) ==> Ok(o)
  {
    hide BuildRequest, MergeParams, Survivors;
    AllSurvive(Round0(run));
  }

  /** Every member of a small run survives, so the run gets as far as its first critique allows. */
  lemma {:induction false} SmallRunOpens(run: Run, prompts: Prompts, ids: seq<int>, arbiter: Slot -> Reply, loads: string -> Loaded,
        maxRounds: int, strict: bool)
    requires ids != [] && run == SmallRun(prompts, ids, arbiter, loads, maxRounds, strict)
    ensures Open(run).Opened? ==> Open(run).start.ok == Open(run).ok && Open(run).start.round == 0
    ensures |Round0(run)| == |ids| && Rejudge.Ids(Round0(run)) == ids
    ensures if arbiter(CritiqueCall(0)).Answer? then Open(run).Opened? else Open(run).NoCritique?
    ensures Open(run).ok == Open(run).round0 == Round0(run) && forall o :: o in Round0(run) ==> Ok(o)
  {
    hide Round0, Survivors, Rejudge.Ids, CritiquePrompt, BuildRequest, ParseVerdict, Extended;
    SmallRound0(run, prompts, ids, arbiter, loads, maxRounds, strict);
    assert Round0(run)[0] in Round0(run);
  }

  // ---- ICE: the log ------------------------------------------------------------------------

  /** A strict judge: the failed critique of round 0 was made once and is logged twice. */
  lemma {:induction false} StrictCritiqueLoggedTwice(prompts: Prompts)
    ensures var run := SmallRun(prompts, [1], Down, NoObject, 3, true); Open(run).NoCritique? && var critique := Open(run).critique;
      multiset(MadeCalls(run))[critique] == 1 && multiset(RecordedRows(RunEnding(run)))[critique] == 2
  {
    hide RenderJudgePrompt, BuildRequest, Round0, Survivors;
    var run := SmallRun(prompts, [1], Down, NoObject, 3, true);
    SmallRunOpens(run, prompts, [1], Down, NoObject, 3, true);
    Rejudge.Round0Rows(run);
    var critique := Open(run).critique;
    assert critique.role == JudgeCritique && critique !in Round0(run);
  }

  // ---- ICE: the rejudge --------------------------------------------------------------------

  /** The log of a run with two members of the same model: two answers went into the final instruction, and
      the rebuilt ones are not these two. */
  lemma {:induction false} SameModelTwice(prompts: Prompts, final: Outcome)
    requires final.role == Judge
    ensures var run := SmallRun(prompts, [1, 1], Agrees, NoObject, 1, false);
      && Open(run).Opened?
      && var o := Open(run); var it := Iterate(run, o.start);
         var log := o.round0 + [o.critique] + RoundCalls(it.rounds) + [final];
         |it.last.ok| == 2 && Ice.Answers(Rejudge.RebuiltRows(log)) != Ice.Answers(it.last.ok)
  {
    hide Round0, Open, Rejudge.RebuiltRows, Iterate, RoundCalls;
    var run := SmallRun(prompts, [1, 1], Agrees, NoObject, 1, false);
    SmallRunOpens(run, prompts, [1, 1], Agrees, NoObject, 1, false);
    hide SmallRun;
    var o := Open(run);
    assert !Rejudge.DistinctIds(o.ok) by {
      assert Rejudge.Ids(o.ok)[0] == Rejudge.Ids(o.ok)[1];
    }
    hide Rejudge.DistinctIds, Rejudge.Ids, Ice.Answers;
    IterateKeeps(run, o.start);
    Rejudge.ReplayAgreesIff(run, final);
  }

  /** The blocks of a process stream whose two members complete round 0 in the opposite order. */
  function Reversed(o: Opening, rounds: seq<Round>): seq<Block>
    requires o.Opened? && |o.round0| == 2
  {
    [Block([o.round0[1], o.round0[0]], Some(o.critique))] + Rejudge.InOrder(rounds)
  }

  lemma {:induction false} ReversedShows(run: Run)
    requires Open(run).Opened? && |Open(run).round0| == 2 && !run.ctx.judgeStrict
    ensures var it := Iterate(run, Open(run).start);
      Shows(run, Reversed(Open(run), it.rounds), ProcessPlan(LastRequest(run, it.last)))
  {
    hide Round0, Open, Iterate, LastRequest;
    var o := Open(run);
    var blocks := Reversed(o, Iterate(run, o.start).rounds);
    assert o.round0 == [o.round0[0], o.round0[1]];
    assert blocks[1..] == Rejudge.InOrder(Iterate(run, o.start).rounds);
  }

  /** With two distinct members that completed the other way round, the rebuilt rows are not the live ones. */
  lemma {:induction false} ReversedRebuilt(run: Run, blocks: seq<Block>, final: Outcome)
    requires Open(run).Opened? && |Open(run).round0| == 2 && final.role == Judge
    requires Open(run).ok == Open(run).round0 && forall o :: o in Open(run).round0 ==> Ok(o)
    requires Open(run).round0[0].modelId != Open(run).round0[1].modelId
    requires blocks == Reversed(Open(run), Iterate(run, Open(run).start).rounds)
    ensures Rejudge.RebuiltRows(OutcomesOf(EventsOf(blocks)) + [final]) != Iterate(run, Open(run).start).last.ok
  {
    hide Round0, Open, Rejudge.RebuiltRows, Iterate, EventsOf, OutcomesOf, Survivors;
    var o := Open(run);
    assert o.round0 == [o.round0[0], o.round0[1]];
    assert blocks[1..] == Rejudge.InOrder(Iterate(run, o.start).rounds);
    AllSurvive(blocks[0].members);
    assert Rejudge.DistinctIds(o.ok);
    assert Rejudge.Ids(blocks[0].members)[0] != Rejudge.Ids(o.ok)[0];
    Rejudge.ProcessReplayIff(run, blocks, final);
  }

  /** A process stream may well show two members in the opposite order; what it logs is then rebuilt in that
      order, not in the live one. */
  lemma {:induction false} OppositeOrder(prompts: Prompts, final: Outcome)
    requires final.role == Judge
    ensures var run := SmallRun(prompts, [1, 2], Agrees, NoObject, 1, false);
      && Open(run).Opened? && |Open(run).round0| == 2
      && var o := Open(run); var it := Iterate(run, o.start);
         && (exists end :: Shows(run, Reversed(o, it.rounds), end))
         && Rejudge.RebuiltRows(OutcomesOf(EventsOf(Reversed(o, it.rounds))) + [final]) != it.last.ok
  {
    hide Round0, Open, Rejudge.RebuiltRows, Iterate, EventsOf, OutcomesOf, Reversed, Shows, LastRequest;
    var run := SmallRun(prompts, [1, 2], Agrees, NoObject, 1, false);
    SmallRunOpens(run, prompts, [1, 2], Agrees, NoObject, 1, false);
    assert !run.ctx.judgeStrict;
    hide SmallRun;
    var o := Open(run);
    assert Rejudge.Ids(o.round0)[0] == 1 && Rejudge.Ids(o.round0)[1] == 2;
    ReversedShows(run);
    ReversedRebuilt(run, Reversed(o, Iterate(run, o.start).rounds), final);
  }

  // ---- ICE: stagnation ---------------------------------------------------------------------

  function Quoted(s: string): string {
    ['"'] + s + ['"']
  }

  /** The inside of the object an arbiter prints. */
  function VerdictBody(confidence: string): string {
    Quoted("consensus") + ": false, " + (Quoted("confidence") + ": " + confidence + ", " + (Quoted("critique") + ": " + Quoted("")))
  }

  /** `{"consensus": false, "confidence": ..., "critique": ""}` */
  function VerdictText(confidence: string): string {
    ['{'] + VerdictBody(confidence) + ['}']
  }

  function Numeral(k: nat): string {
    if k == 0 then "0.9" else if k == 1 then "NaN" else "0.1"
  }

  function Confidence(k: nat): Float {
    if k == 0 then Finite(0.9) else if k == 1 then NaN else Finite(0.1)
  }

  /** An arbiter that is sure, then not a number, then nearly sure of the contrary. */
  function Sways(slot: Slot): Reply {
    Answer(VerdictText(Numeral(if slot.CritiqueCall? then slot.round else 2)), NO_USAGE, [], "stop")
  }

  /** A decoder that reads these three objects as the JSON decoder does; it is asked about no others. */
  function Swaying(text: string): Loaded {
    if text == VerdictText("0.9") then Dict(Flag(false), Num(Finite(0.9)), Text(""))
    else if text == VerdictText("NaN") then Dict(Flag(false), Num(NaN), Text(""))
    else if text == VerdictText("0.1") then Dict(Flag(false), Num(Finite(0.1)), Text(""))
    else NotADict
  }

  function SwayingRun(prompts: Prompts): Run {
    SmallRun(prompts, [1], Sways, Swaying, 4, false)
  }

  lemma {:induction false} BodyNeutral(confidence: string)
    requires confidence == "0.9" || confidence == "NaN" || confidence == "0.1"
    ensures J.Neutral(VerdictBody(confidence))
  {
    hide J.Neutral;
    J.QuotedNeutral("consensus");
    J.QuotedNeutral("confidence");
    J.QuotedNeutral("critique");
    J.QuotedNeutral("");
    J.PlainNeutral(": false, ");
    J.PlainNeutral(": ");
    J.PlainNeutral(", ");
    J.PlainNeutral(confidence);
    var last := Quoted("critique") + ": " + Quoted("");
    J.NeutralConcat(Quoted("critique"), ": ");
    J.NeutralConcat(Quoted("critique") + ": ", Quoted(""));
    J.NeutralConcat(Quoted("confidence"), ": ");
    J.NeutralConcat(Quoted("confidence") + ": ", confidence);
    J.NeutralConcat(Quoted("confidence") + ": " + confidence, ", ");
    J.NeutralConcat(Quoted("confidence") + ": " + confidence + ", ", last);
    J.NeutralConcat(Quoted("consensus"), ": false, ");
    J.NeutralConcat(Quoted("consensus") + ": false, ", Quoted("confidence") + ": " + confidence + ", " + last);
  }

  lemma {:induction false} VerdictExtracted(confidence: string)
    requires confidence == "0.9" || confidence == "NaN" || confidence == "0.1"
    ensures J.ExtractedObject(VerdictText(confidence)) == Some(VerdictText(confidence))
  {
    BodyNeutral(confidence);
    hide *;
    J.ExtractBetween("", VerdictBody(confidence), "");
    Surrounded(confidence);
  }

  lemma {:induction false} Surrounded(confidence: string)
    ensures "" + (['{'] + VerdictBody(confidence) + ['}'] + "") == VerdictText(confidence) == ['{'] + VerdictBody(confidence) + ['}']
  {
    hide VerdictBody;
  }

  /** The three texts differ where the numerals do. */
  lemma {:induction false} TextsDiffer()
    ensures VerdictText("0.9") != VerdictText("NaN") && VerdictText("0.9") != VerdictText("0.1") && VerdictText("NaN") != VerdictText("0.1")
  {
    NumeralAt("0.9");
    NumeralAt("NaN");
    NumeralAt("0.1");
  }

  lemma {:induction false} NumeralAt(confidence: string)
    ensures |VerdictText(confidence)| >= 35 + |confidence| && VerdictText(confidence)[35..35 + |confidence|] == confidence
  {
    var front := ['{'] + Quoted("consensus") + ": false, " + Quoted("confidence") + ": ";
    var behind := ", " + (Quoted("critique") + ": " + Quoted("")) + ['}'];
    assert |front| == 35;
    assert VerdictText(confidence) == front + confidence + behind;
    assert (front + confidence + behind)[35..35 + |confidence|] == confidence;
  }

  lemma {:induction false} SwayingVerdict(prompts: Prompts, k: nat)
    ensures ParseVerdict(SwayingRun(prompts).w, Sways(CritiqueCall(k)).content) == Verdict(false, Confidence(k), "", true)
  {
    VerdictExtracted(Numeral(k));
    SwayingReads(k);
    hide VerdictText, J.ExtractedObject, Swaying, Numeral, SmallContext;
  }

  lemma {:induction false} SwayingReads(k: nat)
    ensures Swaying(VerdictText(Numeral(k))) == Dict(Flag(false), Num(Confidence(k)), Text(""))
  {
    TextsDiffer();
    hide VerdictText;
  }

  /** One turn of the loop adds the confidence of its critique. */
  lemma {:induction false} SwayingTurn(prompts: Prompts, s: State)
    requires Known(SwayingRun(prompts), s.ok)
    ensures var r := NextRound(SwayingRun(prompts), s);
      && Ok(r.critique) && Known(SwayingRun(prompts), r.after.ok)
      && r.after.round == s.round + 1 && !r.after.verdict.consensus
      && r.after.conf == s.conf + [Confidence(s.round + 1)]
  {
    hide ParseVerdict, RenderJudgePrompt, BuildRequest, Extended, RefineRound, Carry, Confidence, Known, SmallContext, RefinePrompt;
    hide VerdictText, Numeral;
    SwayingVerdict(prompts, s.round + 1);
    RoundKeepsKnown(SwayingRun(prompts), s);
  }

  lemma {:induction false} IterationGoesOn(run: Run, s: State)
    requires Known(run, s.ok) && !Finished(run, s) && Ok(NextRound(run, s).critique)
    ensures Known(run, NextRound(run, s).after.ok)
    ensures Iterate(run, s).rounds == [NextRound(run, s)] + Iterate(run, NextRound(run, s).after).rounds
  {
    hide NextRound, Finished;
    RoundKeepsKnown(run, s);
  }

  /** A run that goes on although its confidences fall from 0.9 to 0.1: a NaN stands between them. */
  lemma {:induction false} NaNHidesStagnation(prompts: Prompts)
    ensures var run := SwayingRun(prompts);
      && run.params.stagnation && Open(run).Opened?
      && var it := Iterate(run, Open(run).start);
         && |it.rounds| > 2
         && Before(Open(run).start, it, 2).conf == [Finite(0.9), NaN, Finite(0.1)]
         && Rising(Before(Open(run).start, it, 2).conf) && !Increasing(Before(Open(run).start, it, 2).conf)
  {
    hide NextRound, Iterate, Known, Open, Sways, Swaying;
    var run := SwayingRun(prompts);
    SwayingStart(prompts);
    var s0 := Open(run).start;
    SwayingTurn(prompts, s0);
    IterationGoesOn(run, s0);
    var s1 := NextRound(run, s0).after;
    SwayingTurn(prompts, s1);
    IterationGoesOn(run, s1);
    var s2 := NextRound(run, s1).after;
    SwayingTurn(prompts, s2);
    IterationGoesOn(run, s2);
    assert Before(s0, Iterate(run, s0), 2) == s2;
    assert !Lt(s2.conf[0], s2.conf[1]);
  }

  lemma {:induction false} SwayingStart(prompts: Prompts)
    ensures Open(SwayingRun(prompts)).Opened?
    ensures var s := Open(SwayingRun(prompts)).start;
      s.round == 0 && s.conf == [Finite(0.9)] && !s.verdict.consensus && Known(SwayingRun(prompts), s.ok)
  {
    hide ParseVerdict, Extended, Iterate, Round0, Known, RenderJudgePrompt, BuildRequest, VerdictText, Numeral;
    SmallRunOpens(SwayingRun(prompts), prompts, [1], Sways, Swaying, 4, false);
    SwayingVerdict(prompts, 0);
  }

  // ---- ICE: the round in flight ------------------------------------------------------------

  /** An attached ICE stream of two members: the client leaves when one of them has refined its answer and
      the other has not, and the call that came back has no row. `session` is whatever list the plan holds. */
  lemma {:induction false} RefinementLost(prompts: Prompts, session: JudgeSession, total: int) returns (c: Stream.Config, l: InFlight.Live)
    ensures var run := SmallRun(prompts, [1, 2], Agrees, NoObject, 3, false); var t := GatewayCalls.RoundsTimeline(run, c);
      && Open(run).Opened?
      && var yielded := RoundResults(Iterate(run, Open(run).start).rounds);
         && yielded != [] && |yielded[0].members| == 2
         && !c.detach && c.script.effects != [] && Gateway.RoundEffects(yielded, true, total) <= c.script.effects[1..]
         && InFlight.CanLive(t, l) && l.sys.saved.Some?
         && InFlight.Unseen(t, l) == [yielded[0].members[0]]
  {
    var run := SmallRun(prompts, [1, 2], Agrees, NoObject, 3, false);
    SmallRunOpens(run, prompts, [1, 2], Agrees, NoObject, 3, false);
    NotYetFinished(prompts);
    assert !run.ctx.judgeStrict && |Open(run).ok| == 2;
    hide *;
    var plan, yielded, end, final;
    plan, yielded, end, final, c := AttachedStream(run, session, total);
    RoundsInScript(c, yielded, final, total);
    l := GatewayCalls.IceRoundLost(run, plan, yielded, end, c, final, true, total);
  }

  /** The attached stream of a run whose rounds are not over with the first critique. */
  lemma {:induction false} AttachedStream(run: Run, session: JudgeSession, total: int)
    returns (plan: Plan, yielded: seq<RoundResult>, end: StreamEnd, final: Option<Gateway.Upstream>, c: Stream.Config)
    requires Open(run).Opened? && !Finished(run, Open(run).start) && !run.ctx.judgeStrict
    ensures Prepared(run, plan) && plan.Iterating? && Streamed(run, plan, yielded, end)
    ensures yielded == RoundResults(Iterate(run, Open(run).start).rounds)
    ensures Runs.Iterates(c, yielded, final, true, total, plan.base) && !c.detach
  {
    hide Open, Iterate, Finished, Gateway.IterativeScript, UsageOf, LastRequest, RoundResults, Known;
    var o := Open(run);
    var it := Iterate(run, o.start);
    IterateKeeps(run, o.start);
    plan := Iterating(o.round0 + [o.critique], UsageOf(o.round0 + [o.critique]), o.start, session);
    yielded, end, final := RoundResults(it.rounds), FinalPlan(LastRequest(run, it.last)), Some(Gateway.Upstream([], None));
    c := Stream.Config(false, true, Gateway.IterativeScript(yielded, final, true, total), Gateway.FreshWith("", false), plan.base, InFlight.BLANK);
  }

  lemma {:induction false} RoundsInScript(c: Stream.Config, yielded: seq<RoundResult>, final: Option<Gateway.Upstream>, total: int)
    requires c.script == Gateway.IterativeScript(yielded, final, true, total)
    ensures c.script.effects != [] && Gateway.RoundEffects(yielded, true, total) <= c.script.effects[1..]
  {
    hide Gateway.RoundEffects, Gateway.PlanEffects;
    var head, rounds := [Gateway.Plain([Stream.CommentLine(1, total)])], Gateway.RoundEffects(yielded, true, total);
    assert (head + rounds)[1..] == rounds;
    if final.Some? {
      assert (head + rounds + Gateway.PlanEffects(final.value))[1..] == rounds + Gateway.PlanEffects(final.value);
    }
  }

  lemma {:induction false} NotYetFinished(prompts: Prompts)
    ensures var run := SmallRun(prompts, [1, 2], Agrees, NoObject, 3, false); Open(run).Opened? ==> !Finished(run, Open(run).start)
  {
    hide Round0, Survivors, RenderJudgePrompt, BuildRequest, Extended;
    assert J.ExtractedObject("yes") == None by {
      assert '{' !in "yes";
    }
  }

  // ---- The council -------------------------------------------------------------------------

  /** Every call costs a token each way. */
  function OneToken(text: string, calls: seq<ToolCall>, cached: nat): Reply {
    Answer(text, Usage(1, 1, cached, 0), calls, "stop")
  }

  /** A council of one member, which answers with `calls`; `cached` is what the critique reports as cached. */
  function SmallCouncil(prompts: Prompts, tools: Option<Council.Tools>, calls: seq<ToolCall>, cached: nat, final: Reply,
        strict: bool): Council.Setup
  {
    var up: Upstream := (slot: Slot, provider: string, request: Request) =>
      match slot
      case MemberCall(_, _) => OneToken("a", calls, 0)
      case CritiqueCall(_) => OneToken("c", [], cached)
      case FinalCall => final;
    Council.Setup(SmallContext(prompts, [1], strict), tools, up)
  }

  /** A request with one tool; its function has these fields. */
  function OneTool(fields: seq<J.Field>): Council.Tools {
    Council.Tools([J.Obj([J.Field("type", J.Str("function")), J.Field("function", J.Obj(fields))])], None, (text: string) => text == "{}", "")
  }

  const NAMED := OneTool([J.Field("name", J.Str("f"))])

  const DOWN := Error(false, "down")

  lemma {:induction false} SmallCouncilMembers(c: Council.Setup, prompts: Prompts, tools: Option<Council.Tools>, calls: seq<ToolCall>, cached: nat,
        final: Reply, strict: bool)
    requires c == SmallCouncil(prompts, tools, calls, cached, final, strict)
    ensures var members := Council.Members(c);
      && |members| == 1 && Ok(members[0]) && members[0].toolCalls == calls && members[0].usage == Usage(1, 1, 0, 0)
      && Survivors(members) == members && !MembersFailed(members, false)
  {
    hide Council.MemberRequest, Survivors;
    var members := Council.Members(c);
    AllSurvive(members);
    assert members[0] in members;
  }

  /** A member without calls leaves nothing in the way of the critique, which succeeds. */
  lemma {:induction false} SmallCouncilOpens(c: Council.Setup, prompts: Prompts, tools: Option<Council.Tools>, cached: nat, final: Reply,
        strict: bool)
    requires c == SmallCouncil(prompts, tools, [], cached, final, strict)
    ensures Council.Open(c).Opened? && Council.Open(c).members == Council.Open(c).ok == Council.Members(c)
    ensures Council.Open(c).critique.usage == Usage(1, 1, cached, 0)
  {
    SmallCouncilMembers(c, prompts, tools, [], cached, final, strict);
    hide Council.Members, Survivors, MembersFailed, Council.CritiqueRequest;
    assert Council.Intent(Council.Members(c)[0]).Some?;
  }

  /** The final text call fails, the first survivor's text is returned, and the token of the critique is in
      the call rows but not in the totals. */
  lemma {:induction false} CritiqueTokenMissing(prompts: Prompts) returns (end: Council.Ending)
    ensures Council.Ends(SmallCouncil(prompts, None, [], 0, DOWN, false), end)
    ensures end.Returned? && end.usage.prompt == 1 && SumOf(end.calls, Prompt) == 2
  {
    var c := SmallCouncil(prompts, None, [], 0, DOWN, false);
    SmallCouncilMembers(c, prompts, None, [], 0, DOWN, false);
    SmallCouncilOpens(c, prompts, None, 0, DOWN, false);
    hide Council.Members, Council.Open, Council.LastRequest, SumOf;
    var members, o := Council.Members(c), Council.Open(c);
    var judge := JudgeOutcome(Council.FinalPending(c, Council.LastRequest(c, o)), DOWN);
    end := Council.Returned(members[0].content, UsageOf(members), true, members + [o.critique] + [judge], "stop", None);
    assert end.calls[..|end.calls| - 1] == members + [o.critique];
    assert members == [members[0]];
    SumOfOne(members[0], Prompt);
    Council.ReturnedTokens(c, end);
  }

  /** Nothing fails, but the critique was served from a cache: its cached tokens are in no total. */
  lemma {:induction false} CachedTokensMissing(prompts: Prompts) returns (end: Council.Ending)
    ensures Council.Ends(SmallCouncil(prompts, None, [], 1, OneToken("f", [], 0), false), end)
    ensures end.Returned? && !end.degraded && end.usage.cached == 0 && SumOf(end.calls, Cached) == 1
  {
    var c := SmallCouncil(prompts, None, [], 1, OneToken("f", [], 0), false);
    SmallCouncilMembers(c, prompts, None, [], 1, OneToken("f", [], 0), false);
    SmallCouncilOpens(c, prompts, None, 1, OneToken("f", [], 0), false);
    hide Council.Members, Council.Open, Council.LastRequest, SumOf;
    var members, o := Council.Members(c), Council.Open(c);
    var judge := JudgeOutcome(Council.FinalPending(c, Council.LastRequest(c, o)), OneToken("f", [], 0));
    var usage := Council.PlusTokens(Council.PlusTokens(UsageOf(members), o.critique.usage), judge.usage);
    end := Council.Returned("f", usage, false, members + [o.critique] + [judge], "stop", None);
    assert end.calls[..|end.calls| - 1] == members + [o.critique];
    assert members == [members[0]];
    SumOfOne(members[0], Cached);
    Council.ReturnedTokens(c, end);
  }

  const BARE_CALL := ToolCall("1", "function", Some("f"), None)

  /** Tool mode, and a member that calls a function without arguments: the council cannot end otherwise than
      in an exception that nothing catches. */
  lemma {:induction false} CallWithoutArguments(prompts: Prompts, end: Council.Ending)
    ensures Council.Ends(SmallCouncil(prompts, Some(NAMED), [BARE_CALL], 0, DOWN, false), end) <==> end == Council.Uncaught
  {
    var c := SmallCouncil(prompts, Some(NAMED), [BARE_CALL], 0, DOWN, false);
    SmallCouncilMembers(c, prompts, Some(NAMED), [BARE_CALL], 0, DOWN, false);
    hide Council.Members, Survivors, MembersFailed;
    assert Council.Intent(Council.Members(c)[0]).None?;
  }

  const FULL_CALL := ToolCall("1", "function", Some("f"), Some("{}"))

  /** Tool mode, a tool whose function has no name, and an arbiter that answers with a call: the same end,
      although no member called anything. */
  lemma {:induction false} ToolWithoutName(prompts: Prompts, end: Council.Ending)
    ensures var c := SmallCouncil(prompts, Some(OneTool([])), [], 0, OneToken("", [FULL_CALL], 0), false);
      !Council.IncompleteCall(c) && (Council.Ends(c, end) <==> end == Council.Uncaught)
  {
    var c := SmallCouncil(prompts, Some(OneTool([])), [], 0, OneToken("", [FULL_CALL], 0), false);
    SmallCouncilMembers(c, prompts, Some(OneTool([])), [], 0, OneToken("", [FULL_CALL], 0), false);
    SmallCouncilOpens(c, prompts, Some(OneTool([])), 0, OneToken("", [FULL_CALL], 0), false);
    hide Council.Members, Council.Open, Council.LastRequest, Survivors, MembersFailed;
    Nameless();
  }

  lemma {:induction false} Nameless()
    ensures Council.Unlistable(OneTool([]).list)
  {
    var inner: seq<J.Field> := [];
    var fields := [J.Field("type", J.Str("function")), J.Field("function", J.Obj(inner))];
    assert Council.Lookup(inner, "name") == None;
    assert Council.Lookup(fields, "function") == Some(J.Obj(inner));
    assert Council.OfferOf(OneTool([]).list[0]).Unreadable?;
  }

  // ---- Streams -----------------------------------------------------------------------------

  /** A stream whose client stays to the end. */
  lemma {:induction false} StayedToTheEnd(c: Stream.Config) returns (s: Stream.System)
    requires Stream.WellFormedConfig(c)
    ensures Stream.Reachable(c, s) && (s.ferry == Stream.Refused || (s.ferry == Stream.Drained && s.saved.Some?))
  {
    hide Stream.After, Stream.Summary, Stream.SentIs, Stream.SinkIs, Stream.Conserved;
    Stream.InitialInv(c);
    var run := Stream.CanEnd(c, Stream.Initial(c));
    s := Stream.After(c, Stream.Initial(c), run).value;
    Stream.ReachableInv(c, run);
  }

  const DISPLAY := Gateway.Display((text: string) => text, (text: string) => [text])

  /** The attached process stream of a council that shows these events and ends like this. */
  function AttachedConfig(events: seq<ProcessEvent>, end: Council.ProcessEnd): Stream.Config {
    var script := match end
      case Result(delivered) => Gateway.ResultScript(DISPLAY, events, Runs.ResultOf(delivered), Runs.CallsOf(delivered))
      case ProcessUncaught => Gateway.BrokenScript(DISPLAY, events)
      case _ => Gateway.ProcessScript(DISPLAY, events, None);
    Stream.Config(false, true, script, Gateway.FreshWith("", false), NO_USAGE, InFlight.BLANK)
  }

  lemma {:induction false} AttachedPlays(events: seq<ProcessEvent>, end: Council.ProcessEnd)
    requires !end.Plan?
    ensures Runs.PlaysCouncil(AttachedConfig(events, end), DISPLAY, events, end, None) && !AttachedConfig(events, end).detach
    ensures Stream.WellFormedConfig(AttachedConfig(events, end))
  {
    hide Gateway.ResultScript, Gateway.BrokenScript, Gateway.ProcessScript, SumOf, Stream.WellFormedConfig;
    UsageOfNone();
    Runs.CouncilSound(AttachedConfig(events, end), DISPLAY, events, end, None);
  }

  /** The process stream of a council some member of which answers, read to its end. */
  lemma {:induction false} ReadToTheEnd(setup: Council.Setup, seen: seq<Outcome>, events: seq<ProcessEvent>, end: Council.ProcessEnd)
    returns (s: Stream.System)
    requires Council.Shows(setup, seen, events, end) && !end.Plan? && exists o :: o in Council.Members(setup) && Ok(o)
    ensures var c := AttachedConfig(events, end);
      && Runs.PlaysCouncil(c, DISPLAY, events, end, None) && !c.detach
      && Stream.Reachable(c, s) && s.ferry == Stream.Drained && s.saved.Some?
  {
    var answered: Outcome :| answered in Council.Members(setup) && Ok(answered);
    hide *;
    AttachedPlays(events, end);
    s := StayedToTheEnd(AttachedConfig(events, end));
    Runs.CouncilRefused(setup, seen, events, end, AttachedConfig(events, end), s, DISPLAY, None);
  }

  /** Strict tool mode, and the final call fails: the client reads the process stream to its end, three calls
      were made, and the record has two rows. */
  lemma {:induction false} StrictToolCallLost(prompts: Prompts) returns (events: seq<ProcessEvent>, end: Council.ProcessEnd, s: Stream.System)
    ensures var setup := SmallCouncil(prompts, Some(NAMED), [], 0, DOWN, true); var c := AttachedConfig(events, end);
      && (exists seen :: Council.Shows(setup, seen, events, end)) && Runs.PlaysCouncil(c, DISPLAY, events, end, None)
      && Stream.Reachable(c, s) && s.ferry == Stream.Drained && s.saved.Some?
      && |Council.MadeCalls(setup)| == 3 && |s.saved.value.rows| == 2
  {
    var setup := SmallCouncil(prompts, Some(NAMED), [], 0, DOWN, true);
    SmallCouncilMembers(setup, prompts, Some(NAMED), [], 0, DOWN, true);
    SmallCouncilOpens(setup, prompts, Some(NAMED), 0, DOWN, true);
    hide Council.Members, Council.Open, Council.LastRequest, Survivors, MembersFailed, MemberEvents, Council.Unlistable;
    var o := Council.Open(setup);
    var judge := JudgeOutcome(Council.FinalPending(setup, Council.LastRequest(setup, o)), DOWN);
    events := MemberEvents(o.members) + [CritiqueEvent(o.critique)];
    end := Council.ProcessRaised(o.members, Some(o.critique), Some(judge));
    assert Council.Shows(setup, o.members, events, end);
    assert o.members[0] in Council.Members(setup);
    hide SmallCouncil, Council.Shows, AttachedConfig;
    s := ReadToTheEnd(setup, o.members, events, end);
    TwoRows(setup, o.members, events, end, AttachedConfig(events, end), s);
  }

  lemma {:induction false} TwoRows(setup: Council.Setup, seen: seq<Outcome>, events: seq<ProcessEvent>, end: Council.ProcessEnd,
        c: Stream.Config, s: Stream.System)
    requires Council.Shows(setup, seen, events, end) && Runs.PlaysCouncil(c, DISPLAY, events, end, None)
    requires Stream.Reachable(c, s) && s.saved.Some? && s.ferry == Stream.Drained && end.ProcessRaised?
    requires Council.Open(setup).Opened? && |Council.Open(setup).members| == 1
    ensures |Council.MadeCalls(setup)| == 3 && |s.saved.value.rows| == 2
  {
    hide Council.Open, Council.Shows, Runs.PlaysCouncil, Stream.Reachable, Council.FinalOutcome, Council.LastRequest;
    Runs.CouncilProcessStream(setup, seen, events, end, c, s, DISPLAY, None);
    var o := Council.Open(setup);
    assert Council.CallsBeforeFinal(setup) + [] == o.members + [o.critique];
    SameRowsSameLength(s.saved.value.rows, o.members + [o.critique]);
  }

  /** Tool mode and a member's call without arguments: the client reads the process stream to its end, and
      it is recorded as cancelled by the client. */
  lemma {:induction false} CancelledThoughRead(prompts: Prompts) returns (events: seq<ProcessEvent>, s: Stream.System)
    ensures var setup := SmallCouncil(prompts, Some(NAMED), [BARE_CALL], 0, DOWN, false); var c := AttachedConfig(events, Council.ProcessUncaught);
      && (exists seen :: Council.Shows(setup, seen, events, Council.ProcessUncaught))
      && Stream.Reachable(c, s) && s.ferry == Stream.Drained && Stream.WithoutPings(s.received) == Stream.AllLines(c.script)
      && s.saved.Some? && s.saved.value.status == Stream.ClientCancelled
  {
    var setup := SmallCouncil(prompts, Some(NAMED), [BARE_CALL], 0, DOWN, false);
    SmallCouncilMembers(setup, prompts, Some(NAMED), [BARE_CALL], 0, DOWN, false);
    hide Council.Members, Survivors, MembersFailed, MemberEvents;
    var members := Council.Members(setup);
    assert Council.Intent(members[0]).None?;
    events := MemberEvents(members);
    assert Council.Shows(setup, members, events, Council.ProcessUncaught);
    assert members[0] in members;
    var end := Council.ProcessUncaught;
    hide *;
    s := ReadToTheEnd(setup, members, events, end);
    AttachedPlays(events, end);
    var c := AttachedConfig(events, end);
    Stream.ClientSeesPrefix(c, s);
    Runs.CancelledIffUncaught(c, s, DISPLAY, events, end, None);
  }

  /** A computed result with a text and a call: the text is recorded and only the call is sent. */
  lemma {:induction false} TextNotSent(judge: Outcome)
    ensures var result := Stream.FinalResult("text", "tool_calls", judge, false);
      Stream.TextOf(Gateway.ResultEffect(result, [FULL_CALL]).lines) != result.content
  {
    hide Stream.TextOf, Gateway.ResultEffect, ToolDeltas.CallList;
    Gateway.ResultSent(Stream.FinalResult("text", "tool_calls", judge, false), [FULL_CALL]);
  }

  // ---- Text formats and tables -------------------------------------------------------------

  /** Two fragments of one call with different ids: the second id is kept. */
  lemma {:induction false} SecondIdKept()
    ensures var fragments := [ToolDeltas.Fragment(Some(0), "a", "", "f", ""), ToolDeltas.Fragment(Some(0), "b", "", "", "{}")];
      0 in ToolDeltas.Merge(fragments) && ToolDeltas.Merge(fragments)[0].id == "b"
  {
    var f, g := ToolDeltas.Fragment(Some(0), "a", "", "f", ""), ToolDeltas.Fragment(Some(0), "b", "", "", "{}");
    assert [f, g][..1] == [f] && [f][..0] == [];
    assert ToolDeltas.Merge([f]) == map[0 := ToolDeltas.Absorb(ToolDeltas.BLANK, f)];
  }

  /** A file without columns and with one row reads back as something else. */
  lemma {:induction false} NoColumnsReadBack()
    ensures Csv.ReadCsv(Csv.ToCsv([], [[]])) != Some([[], []])
  {
    var none: seq<string> := [];
    Csv.CsvRoundTripIff(none, [none]);
    assert [none] + [none] == [none, none];
  }

  /** An upstream that offers one id twice gets two rows for it. */
  lemma {:induction false} OfferedTwice()
    ensures var row := Store.Model(0, "m", true, false);
      && ModelSync.OneRowPerId(map[], 0)
      && ModelSync.Synced(map[], map[0 := row, 1 := row], 0, ["m", "m"], ["m", "m"], [0, 1])
      && !ModelSync.OneRowPerId(map[0 := row, 1 := row], 0)
  {
    var row := Store.Model(0, "m", true, false);
    var after := map[0 := row, 1 := row];
    assert ["m", "m"][..1] == ["m"] && ["m"][..0] == [];
    assert ModelSync.NewIds(["m"], {}) == ["m"];
    assert ModelSync.Known(map[], 0) == {};
    assert 0 in after && 1 in after && after[0].upstream == after[1].upstream;
  }
}
