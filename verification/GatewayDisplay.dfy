/** What a process stream shows of each call, and with which call its response begins. */
module GatewayDisplay {
  import opened Prelude
  import Calls
  import opened StreamProtocol
  import opened GatewayPaths
  import opened ToolDeltas
  import Drivers = IceDrivers
  import Council
  import Runs = GatewayRuns

  /** What is shown behind the heading: the pieces of a successful answer, or one note about the failure,
      with the error or else the name of the status. */
  ghost predicate ShowsOutcome(d: Display, o: Calls.Outcome, lines: seq<Line>) {
    if o.status == Calls.Success then
      var pieces := d.splitLines(d.sanitize(o.content));
      |lines| == |pieces| && forall i :: 0 <= i < |lines| ==> lines[i] == ReasoningLine(pieces[i], false)
    else
      var reason :=
        if |o.error| > 0 then o.error
        else if o.status == Calls.Failed then "failed"
        else if o.status == Calls.TimedOut then "timeout"
        else "client_cancelled";
      lines == [ReasoningLine(d.sanitize("（调用失败：" + reason + "）\n"), false)]
  }

  /** Each event is a step of its own: a heading that names the member or the round, the role with the very
      first one, then what came back. Its row is the call itself. */
  lemma {:induction false} EventShown(d: Display, events: seq<Drivers.ProcessEvent>, k: nat)
    requires k < |events|
    ensures |ProcessEffects(d, events)| == |events|
    ensures var e := ProcessEffects(d, events)[k];
      var heading :=
        match events[k]
        case MemberEvent(o) => "【成员 " + o.upstreamModelId + "】\n"
        case CritiqueEvent(o) =>
          match o.round
          case Some(round) => "【第 " + Decimal(round) + " 轮评论】\n"
          case None => "【评论】\n";
      && |e.lines| > 0 && e.lines[0] == ReasoningLine(heading, k == 0)
      && ShowsOutcome(d, events[k].outcome, e.lines[1..])
      && e.rows == [events[k].outcome]
      && e.text == "" && e.fragments == [] && e.usage == None && !e.opensFinal && !e.succeeds
  {
    hide Decimal;
    HeadingText(events[k]);
    hide Header;
  }

  lemma {:induction false} HeadingText(ev: Drivers.ProcessEvent)
    ensures ev.CritiqueEvent? && ev.outcome.round.Some? ==> Header(ev) == "【第 " + Decimal(ev.outcome.round.value) + " 轮评论】\n"
    ensures ev.CritiqueEvent? && ev.outcome.round.None? ==> Header(ev) == "【评论】\n"
  {
    hide Decimal;
    if ev.CritiqueEvent? && ev.outcome.round.Some? {
      assert "【第 " == "【" + "第 " && " 轮评论】\n" == " 轮评论" + "】\n";
    } else {
      assert "【评论】\n" == "【" + "评论" + "】\n";
    }
  }

  /** The response begins behind the first successful member, and not at all without one. */
  lemma {:induction false} GateIs(events: seq<Drivers.ProcessEvent>, k: nat)
    requires k < |events| && events[k].MemberEvent? && events[k].outcome.status == Calls.Success
    requires forall j :: 0 <= j < k ==> events[j].CritiqueEvent? || events[j].outcome.status != Calls.Success
    ensures Gate(events) == k + 1
  {
    if k > 0 {
      GateIs(events[1..], k - 1);
    }
  }

  lemma {:induction false} GateStaysShut(events: seq<Drivers.ProcessEvent>)
    requires forall j :: 0 <= j < |events| ==> events[j].CritiqueEvent? || events[j].outcome.status != Calls.Success
    ensures Gate(events) == |events| + 1
  {
    if events != [] {
      GateStaysShut(events[1..]);
    }
  }

  /** A response whose stream has no gate has begun from the start, so it is never refused: plain streams
      and ICE rounds behind a prepared stream. */
  lemma {:induction false} BegunFromTheStart(c: Config, s: System, up: Upstream, passthrough: bool, yielded: seq<Drivers.RoundResult>,
        final: Option<Upstream>, progress: bool, total: int)
    requires c.script == DirectScript(up, passthrough) || c.script == IterativeScript(yielded, final, progress, total)
    requires Reachable(c, s)
    ensures s.ferry == Serving || s.ferry == Drained || s.ferry == Gone
  {
    var run :| After(c, StreamProtocol.Initial(c), run) == Some(s);
    NoGate(up, passthrough, yielded, final, progress, total);
    hide DirectScript, IterativeScript;
    StaysBegun(c, run);
  }

  lemma {:induction false} NoGate(up: Upstream, passthrough: bool, yielded: seq<Drivers.RoundResult>, final: Option<Upstream>,
        progress: bool, total: int)
    ensures DirectScript(up, passthrough).gate == 0 && IterativeScript(yielded, final, progress, total).gate == 0
  {
    hide PlanEffects, RoundEffects, EventEffects;
  }

  lemma {:induction false} StaysBegun(c: Config, run: seq<Action>)
    requires c.script.gate == 0 && After(c, StreamProtocol.Initial(c), run).Some?
    ensures After(c, StreamProtocol.Initial(c), run).value.ferry in {Serving, Drained, Gone}
  {
    hide Summary, Applied, Items;
    if run != [] {
      StaysBegun(c, run[..|run| - 1]);
    }
  }

  // ---- What arrives of a computed result ---------------------------------------------------

  lemma {:induction false} EventsSayNothing(effects: seq<Effect>)
    requires forall i :: 0 <= i < |effects| ==> FaithfulEffect(effects[i]) && effects[i].text == "" && effects[i].fragments == []
    ensures TextOf(LinesOf(effects)) == "" && ToolsOf(LinesOf(effects)) == []
  {
    if effects != [] {
      hide TextOf, ToolsOf;
      var n := |effects| - 1;
      EventsSayNothing(effects[..n]);
      TextOfConcat(LinesOf(effects[..n]), effects[n].lines);
      assert FaithfulEffect(effects[n]);
    } else {
      NothingSent(effects);
    }
  }

  lemma {:induction false} ResultText(r: FinalResult, calls: seq<Calls.ToolCall>)
    ensures TextOf(ResultEffect(r, calls).lines) == if calls == [] then r.content else ""
    ensures ToolsOf(ResultEffect(r, calls).lines) == Split(calls)
  {
    ResultSent(r, calls);
    hide TextOf, ToolsOf;
    ToolLinesText(calls);
    OneLine(ContentLine(r.content));
    NoText([RoleLine]);
    NoText([]);
    NoText([FinishLine(r.finish), DoneLine]);
    TextOfConcat([RoleLine], ResultBody(r, calls));
    TextOfConcat([RoleLine] + ResultBody(r, calls), [FinishLine(r.finish), DoneLine]);
  }

  /** A client that reads the process stream of a tool aggregation to its end gets exactly the delivered
      calls, one fragment each, or else exactly the delivered text. */
  lemma {:induction false} ResultReceived(c: Config, s: System, d: Display, events: seq<Drivers.ProcessEvent>, end: Council.ProcessEnd,
        final: Option<Upstream>)
    requires Runs.PlaysCouncil(c, d, events, end, final) && end.Result? && Reachable(c, s) && s.ferry == Drained
    ensures var calls := match end.delivered.calls case Some(calls) => calls case None => [];
      && ToolsOf(WithoutPings(s.received)) == Split(calls)
      && TextOf(WithoutPings(s.received)) == if calls == [] then end.delivered.content else ""
  {
    hide *;
    var r, calls := Runs.ResultOf(end.delivered), Runs.CallsOf(end.delivered);
    ResultPlays(c, d, events, end, final);
    ResultConfig(c, d, events, r, calls);
    ClientSeesPrefix(c, s);
    ResultLines(d, events, r, calls);
    EventsSayNothing(ProcessEffects(d, events));
    ResultText(r, calls);
    TextOfConcat(LinesOf(ProcessEffects(d, events)), ResultEffect(r, calls).lines);
    var text, tools := TextOf(ResultEffect(r, calls).lines), ToolsOf(ResultEffect(r, calls).lines);
    assert "" + text == text && [] + tools == tools;
  }

  lemma {:induction false} ResultPlays(c: Config, d: Display, events: seq<Drivers.ProcessEvent>, end: Council.ProcessEnd,
        final: Option<Upstream>)
    requires Runs.PlaysCouncil(c, d, events, end, final) && end.Result?
    ensures var r, calls := Runs.ResultOf(end.delivered), Runs.CallsOf(end.delivered);
      && c.script == ResultScript(d, events, r, calls) && c.initial == FreshWith("", false)
      && r.content == end.delivered.content
      && calls == match end.delivered.calls case Some(calls) => calls case None => []
  {
    hide ResultScript;
  }

  lemma {:induction false} ResultLines(d: Display, events: seq<Drivers.ProcessEvent>, r: FinalResult, calls: seq<Calls.ToolCall>)
    ensures AllLines(ResultScript(d, events, r, calls)) == LinesOf(ProcessEffects(d, events)) + ResultEffect(r, calls).lines
    ensures forall i :: 0 <= i < |ProcessEffects(d, events)| ==>
      var e := ProcessEffects(d, events)[i]; FaithfulEffect(e) && e.text == "" && e.fragments == []
  {
    ProcessSound(d, events, None);
    QuietEvents(d, events);
    EventsPlain(d, events);
    hide ResultEffect, ProcessEffects, LinesOf, FaithfulEffect;
    var front, last := ProcessEffects(d, events), ResultEffect(r, calls);
    assert (front + [last])[..|front|] == front && (front + [last])[..|front| + 1] == front + [last];
    LinesOfSnoc(front + [last], |front|);
    assert LinesOf(front + [last]) + [] == LinesOf(front + [last]);
  }

  lemma {:induction false} EventsPlain(d: Display, events: seq<Drivers.ProcessEvent>)
    requires SoundEffects(ProcessScript(d, events, None).effects)
    ensures forall i :: 0 <= i < |ProcessEffects(d, events)| ==>
      FaithfulEffect(ProcessEffects(d, events)[i]) && ProcessEffects(d, events)[i].fragments == []
  {
    hide FaithfulEffect;
    forall i | 0 <= i < |ProcessEffects(d, events)|
      ensures FaithfulEffect(ProcessEffects(d, events)[i]) && ProcessEffects(d, events)[i].fragments == []
    {
      assert SoundEffect(ProcessScript(d, events, None).effects[i]);
    }
  }
}
