/** The gateway's streamed paths - passthrough and plain pipeline, ICE rounds, process stream - as pump
    loops over what the strategies deliver, each an instance of the streaming protocol. */
module GatewayPaths {
  import opened Prelude
  import Calls
  import opened ToolDeltas
  import opened StreamProtocol
  import Ice
  import Drivers = IceDrivers
  import Agreement = IceAgreement

  /** An event of the final upstream stream; missing parts are "", [] and None. */
  datatype StreamEvent = StreamEvent(text: string, usage: Option<Calls.Usage>, tools: seq<Fragment>, finish: string)

  /** How process outcomes are shown: tag removal and line splitting are outside this model. */
  datatype Display = Display(sanitize: string -> string, splitLines: string -> seq<string>)

  // ---- The steps of the pumps --------------------------------------------------------------

  function Plain(lines: seq<Line>): Effect {
    Effect(lines, "", [], None, "", [], false, None, false)
  }

  function ToolPart(tools: seq<Fragment>): seq<Line> {
    if tools != [] then [ToolLine(tools)] else []
  }

  function TextPart(text: string): seq<Line> {
    if text != "" then [ContentLine(text)] else []
  }

  function EventEffect(e: StreamEvent): Effect {
    Effect(ToolPart(e.tools) + TextPart(e.text), e.text, e.tools, e.usage, e.finish, [], false, None, false)
  }

  /** On the ICE and process paths only text and usage of the final stream are looked at. */
  function ContentEffect(e: StreamEvent): Effect {
    Effect(TextPart(e.text), e.text, [], e.usage, "", [], false, None, false)
  }

  function EndEffect(finish: string): Effect {
    Plain([FinishLine(finish), DoneLine]).(succeeds := true)
  }

  function OpenEffect(): Effect {
    Plain([RoleLine]).(opensFinal := true)
  }

  function RoundEffect(r: Drivers.RoundResult, progress: bool, total: int): Effect {
    Plain(if r.members != [] && progress then [CommentLine(r.round + 1, total)] else [])
      .(rows := r.members + (if r.critique.Some? then [r.critique.value] else []))
  }

  function Header(ev: Drivers.ProcessEvent): string {
    match ev
    case MemberEvent(o) => "【成员 " + o.upstreamModelId + "】\n"
    case CritiqueEvent(o) => "【" + (match o.round case Some(k) => "第 " + Decimal(k) + " 轮评论" case None => "评论") + "】\n"
  }

  function StatusName(status: Calls.Status): string {
    match status
    case Success => "success"
    case Failed => "failed"
    case TimedOut => "timeout"
    case ClientCancelled => "client_cancelled"
  }

  function Body(d: Display, o: Calls.Outcome): seq<string> {
    if Calls.Ok(o) then d.splitLines(d.sanitize(o.content))
    else [d.sanitize("（调用失败：" + (if o.error != "" then o.error else StatusName(o.status)) + "）\n")]
  }

  function Reasoning(texts: seq<string>): seq<Line> {
    seq(|texts|, i requires 0 <= i < |texts| => ReasoningLine(texts[i], false))
  }

  function ProcessEffect(d: Display, ev: Drivers.ProcessEvent, first: bool): Effect {
    Plain([ReasoningLine(Header(ev), first)] + Reasoning(Body(d, ev.outcome))).(rows := [ev.outcome])
  }

  function ToolLines(calls: seq<Calls.ToolCall>): seq<Line> {
    seq(|calls|, i requires 0 <= i < |calls| => ToolLine([AsFragment(calls[i], i)]))
  }

  /** A result computed inside the strategy is sent in one piece. */
  function ResultEffect(r: FinalResult, calls: seq<Calls.ToolCall>): Effect {
    Plain([RoleLine] + ResultBody(r, calls) + [FinishLine(r.finish), DoneLine]).(result := Some(r), succeeds := true)
  }

  function ResultBody(r: FinalResult, calls: seq<Calls.ToolCall>): seq<Line> {
    if calls != [] then ToolLines(calls) else if r.content != "" then [ContentLine(r.content)] else []
  }

  lemma {:induction false} ItemsOfResult(queued: seq<Item>, body: seq<Line>, finish: string)
    ensures queued + Items([RoleLine]) + Items(body) + Items([FinishLine(finish)]) + Items([DoneLine])
         == queued + Items([RoleLine] + body + [FinishLine(finish), DoneLine])
  {
    assert Items([RoleLine] + body + [FinishLine(finish), DoneLine])
      == Items([RoleLine]) + Items(body) + Items([FinishLine(finish)]) + Items([DoneLine]);
  }

  // ---- The pump closures over the shared outcome -------------------------------------------

  /** `StreamOutcome`, the queue and the lists of the enclosing function, as the pump mutates them. */
  class Pump {
    var status: Status
    var parts: seq<string>
    var fragments: seq<Fragment>
    var usage: Option<Calls.Usage>
    var finish: string
    var rows: seq<Calls.Outcome>
    var forwarding: bool
    var result: Option<FinalResult>
    var queue: seq<Item>
    var roleSent: bool
    var error: string

    ghost function View(): Sink
      reads this
    {
      Sink(status, parts, fragments, usage, finish, rows, forwarding, result, error)
    }

    /** The pump did `e` and nothing else. */
    ghost predicate Did(before: Sink, queued: seq<Item>, e: Effect)
      reads this
    {
      View() == Applied(before, e) && queue == queued + Items(e.lines)
    }

    constructor (finish: string, forwarding: bool)
      ensures View() == Sink(ClientCancelled, [], [], None, finish, [], forwarding, None)
      ensures queue == [] && !roleSent
    {
      status, parts, fragments, usage := ClientCancelled, [], [], None;
      this.finish, rows, this.forwarding, result, queue, roleSent := finish, [], forwarding, None, [], false;
      error := "";
    }

    method Send(line: Line)
      modifies `queue
      ensures queue == old(queue) + Items([line])
    {
      queue := queue + [Chunk(line)];
    }

    method OnTools(tools: seq<Fragment>)
      modifies `fragments, `queue
      ensures fragments == old(fragments) + tools && queue == old(queue) + Items(ToolPart(tools))
    {
      NoItems();
      if tools != [] {
        fragments := fragments + tools;
        Send(ToolLine(tools));
      }
    }

    method OnText(text: string)
      modifies `parts, `queue
      ensures parts == (if text != "" then old(parts) + [text] else old(parts)) && queue == old(queue) + Items(TextPart(text))
    {
      NoItems();
      if text != "" {
        parts := parts + [text];
        Send(ContentLine(text));
      }
    }

    method OnEvent(e: StreamEvent)
      modifies this
      ensures Did(old(View()), old(queue), EventEffect(e)) && roleSent == old(roleSent)
    {
      hide Items, ToolPart, TextPart;
      if e.usage.Some? {
        usage := e.usage;
      }
      if e.finish != "" {
        finish := e.finish;
      }
      OnTools(e.tools);
      OnText(e.text);
      ItemsConcat(ToolPart(e.tools), TextPart(e.text));
      AppendAssociates(old(queue), Items(ToolPart(e.tools)), Items(TextPart(e.text)));
    }

    method OnContent(e: StreamEvent)
      modifies this
      ensures Did(old(View()), old(queue), ContentEffect(e)) && roleSent == old(roleSent)
    {
      hide Items, TextPart;
      if e.usage.Some? {
        usage := e.usage;
      }
      OnText(e.text);
    }

    method OnExhausted(reason: string)
      modifies this
      ensures Did(old(View()), old(queue), EndEffect(reason)) && roleSent == old(roleSent)
    {
      Send(FinishLine(reason));
      Send(DoneLine);
      status := Success;
    }

    method OnFinalPlan()
      modifies this
      ensures Did(old(View()), old(queue), OpenEffect()) && roleSent == old(roleSent)
    {
      forwarding := true;
      Send(RoleLine);
    }

    method OnRound(r: Drivers.RoundResult, progress: bool, total: int)
      modifies this
      ensures Did(old(View()), old(queue), RoundEffect(r, progress, total)) && roleSent == old(roleSent)
    {
      rows := rows + r.members;
      if r.critique.Some? {
        rows := rows + [r.critique.value];
      }
      if r.members != [] && progress {
        Send(CommentLine(r.round + 1, total));
      }
    }

    method SendReasoning(texts: seq<string>)
      modifies `queue
      ensures queue == old(queue) + Items(Reasoning(texts))
    {
      for i := 0 to |texts|
        modifies `queue
        invariant queue == old(queue) + Items(Reasoning(texts[..i]))
      {
        Send(ReasoningLine(texts[i], false));
        assert Reasoning(texts[..i + 1]) == Reasoning(texts[..i]) + [ReasoningLine(texts[i], false)];
      }
      assert texts[..|texts|] == texts;
    }

    method OnProcessEvent(d: Display, ev: Drivers.ProcessEvent)
      modifies this
      ensures Did(old(View()), old(queue), ProcessEffect(d, ev, !old(roleSent))) && roleSent
    {
      hide Items, Header, Body, Reasoning;
      rows := rows + [ev.outcome];
      var first := !roleSent;
      roleSent := true;
      Send(ReasoningLine(Header(ev), first));
      var texts := Body(d, ev.outcome);
      SendReasoning(texts);
      ItemsConcat([ReasoningLine(Header(ev), first)], Reasoning(texts));
    }

    method SendCalls(calls: seq<Calls.ToolCall>)
      modifies `queue
      ensures queue == old(queue) + Items(ToolLines(calls))
    {
      for i := 0 to |calls|
        modifies `queue
        invariant queue == old(queue) + Items(ToolLines(calls[..i]))
      {
        Send(ToolLine([AsFragment(calls[i], i)]));
        assert ToolLines(calls[..i + 1]) == ToolLines(calls[..i]) + [ToolLine([AsFragment(calls[i], i)])];
      }
      assert calls[..|calls|] == calls;
    }

    method SendBody(r: FinalResult, calls: seq<Calls.ToolCall>)
      modifies `queue
      ensures queue == old(queue) + Items(ResultBody(r, calls))
    {
      if calls != [] {
        SendCalls(calls);
      } else if r.content != "" {
        Send(ContentLine(r.content));
      } else {
        assert Items([]) == [];
      }
    }

    method OnFinalResult(r: FinalResult, calls: seq<Calls.ToolCall>)
      modifies this
      ensures Did(old(View()), old(queue), ResultEffect(r, calls)) && roleSent == old(roleSent)
    {
      hide Items, ResultBody;
      result := Some(r);
      Send(RoleLine);
      SendBody(r, calls);
      Send(FinishLine(r.finish));
      Send(DoneLine);
      status := Success;
      ItemsOfResult(old(queue), ResultBody(r, calls), r.finish);
    }

    // -- The pumps, when nobody stops them -----------------------------------------------------

    /** The pump did these steps, in this order, and nothing else. */
    ghost predicate DidAll(before: Sink, queued: seq<Item>, effects: seq<Effect>)
      reads this
    {
      View() == AppliedAll(before, effects) && queue == queued + Items(LinesOf(effects))
    }

    /** The pump is over: the whole script is done and the end marker is queued. */
    ghost predicate Finished(before: Sink, script: Script)
      reads this
    {
      && View() == (if script.failure.Some? then AppliedAll(before, script.effects).(status := Failed, error := script.error)
                    else AppliedAll(before, script.effects))
      && queue == Items(AllLines(script)) + [End]
    }

    method SendEnd()
      modifies `queue
      ensures queue == old(queue) + [End]
    {
      queue := queue + [End];
    }

    method ForwardEvents(events: seq<StreamEvent>)
      modifies this
      ensures DidAll(old(View()), old(queue), EventEffects(events)) && roleSent == old(roleSent)
      ensures old(finish) == "stop" ==> finish == LastFinish(events)
    {
      hide EventEffect, Applied, Items, LinesOf;
      NoneDone(View(), queue);
      assert EventEffects(events[..0]) == [];
      for i := 0 to |events|
        invariant DidAll(old(View()), old(queue), EventEffects(events[..i])) && roleSent == old(roleSent)
        invariant old(finish) == "stop" ==> finish == LastFinish(events[..i])
      {
        OneMoreDone(old(View()), old(queue), EventEffects(events[..i]), EventEffect(events[i]));
        assert EventEffects(events[..i + 1]) == EventEffects(events[..i]) + [EventEffect(events[i])];
        assert events[..i + 1][..i] == events[..i];
        FinishApplied(View(), events[i]);
        OnEvent(events[i]);
      }
      assert events[..|events|] == events;
    }

    method ForwardContent(events: seq<StreamEvent>)
      modifies this
      ensures DidAll(old(View()), old(queue), ContentEffects(events)) && roleSent == old(roleSent)
    {
      hide ContentEffect, Applied, Items, LinesOf;
      NoneDone(View(), queue);
      assert ContentEffects(events[..0]) == [];
      for i := 0 to |events|
        invariant DidAll(old(View()), old(queue), ContentEffects(events[..i])) && roleSent == old(roleSent)
      {
        OneMoreDone(old(View()), old(queue), ContentEffects(events[..i]), ContentEffect(events[i]));
        assert ContentEffects(events[..i + 1]) == ContentEffects(events[..i]) + [ContentEffect(events[i])];
        OnContent(events[i]);
      }
      assert events[..|events|] == events;
    }

    /** The pump of a plain pipeline stream, and of a passthrough. */
    method PumpDirect(up: Upstream, passthrough: bool)
      requires View() == FreshWith("stop", true) && queue == []
      modifies this
      ensures Finished(FreshWith("stop", true), DirectScript(up, passthrough))
    {
      hide Applied, AppliedAll, Items, LinesOf, EventEffects, FreshWith, EndEffect;
      ghost var first := View();
      var head := [Plain([RoleLine])];
      NoneDone(View(), queue);
      OneMoreDone(View(), queue, [], Plain([RoleLine]));
      PlainLeaves(View(), [RoleLine]);
      Send(RoleLine);
      assert [] + head == head;
      assert finish == "stop" by {
        FreshFinish();
      }
      ForwardEvents(up.events);
      MoreDone(first, [], head, EventEffects(up.events));
      ghost var done := head + EventEffects(up.events);
      if up.error.Some? {
        status, error := Failed, up.error.value;
        ghost var lines := queue;
        if passthrough {
          Send(ErrorLine(up.error.value));
          Send(DoneLine);
        }
        SendEnd();
        FailureLines(lines, done, if passthrough then [ErrorLine(up.error.value), DoneLine] else []);
        return;
      }
      OneMoreDone(first, [], done, EndEffect(finish));
      OnExhausted(finish);
      SendEnd();
      AllDone(done + [EndEffect(LastFinish(up.events))]);
    }

    /** The final stream behind a plan. */
    method ForwardPlan(up: Upstream)
      modifies this
      ensures DidAll(old(View()), old(queue), PlanEffects(up)) && roleSent == old(roleSent)
    {
      hide Applied, AppliedAll, Items, LinesOf, ContentEffects, OpenEffect, EndEffect;
      ghost var before, queued := View(), queue;
      NoneDone(before, queued);
      OneMoreDone(before, queued, [], OpenEffect());
      assert [] + [OpenEffect()] == [OpenEffect()];
      OnFinalPlan();
      MoreDone(before, queued, [OpenEffect()], ContentEffects(up.events));
      ForwardContent(up.events);
      ghost var done := [OpenEffect()] + ContentEffects(up.events);
      if up.error.None? {
        OneMoreDone(before, queued, done, EndEffect("stop"));
        OnExhausted("stop");
      } else {
        assert done + [] == done;
      }
    }

    /** The end of the ICE and process pumps: the plan if there is one, the status, the end marker. The text of
        an error that the strategy raised goes into no row, so it is not kept. */
    method PumpFinal(final: Option<Upstream>, ghost before: Sink, ghost front: seq<Effect>)
      requires DidAll(before, [], front)
      modifies this
      ensures Finished(before, match final
        case None => Script(front, Some([]), 0)
        case Some(up) => Script(front + PlanEffects(up), if up.error == None then None else Some([]), 0, ErrorOf(up)))
    {
      hide Applied, AppliedAll, Items, LinesOf, PlanEffects;
      ghost var done := front;
      if final.Some? {
        MoreDone(before, [], front, PlanEffects(final.value));
        ForwardPlan(final.value);
        done := front + PlanEffects(final.value);
      }
      if final.None? || final.value.error.Some? {
        status := Failed;
        error := if final.Some? then final.value.error.value else "";
        FailureLines(queue, done, []);
      } else {
        AllDone(done);
      }
      SendEnd();
    }

    /** The pump of ICE rounds behind a prepared stream. */
    method PumpIterative(yielded: seq<Drivers.RoundResult>, final: Option<Upstream>, progress: bool, total: int)
      requires View() == FreshWith("", false) && queue == []
      modifies this
      ensures Finished(FreshWith("", false), IterativeScript(yielded, final, progress, total))
    {
      hide Applied, AppliedAll, Items, LinesOf, RoundEffect, FreshWith, PlanEffects, Finished;
      ghost var before := View();
      ghost var head := Plain(if progress then [CommentLine(1, total)] else []);
      NoneDone(before, queue);
      OneMoreDone(before, queue, [], head);
      PlainLeaves(before, head.lines);
      NoItems();
      assert [] + [head] == [head];
      if progress {
        Send(CommentLine(1, total));
      }
      assert [head] + RoundEffects(yielded[..0], progress, total) == [head];
      for i := 0 to |yielded|
        invariant DidAll(before, [], [head] + RoundEffects(yielded[..i], progress, total))
      {
        ghost var done := [head] + RoundEffects(yielded[..i], progress, total);
        OneMoreDone(before, [], done, RoundEffect(yielded[i], progress, total));
        assert [head] + RoundEffects(yielded[..i + 1], progress, total) == done + [RoundEffect(yielded[i], progress, total)];
        OnRound(yielded[i], progress, total);
      }
      assert yielded[..|yielded|] == yielded;
      PumpFinal(final, before, [head] + RoundEffects(yielded, progress, total));
    }

    /** The part of the process pump in front of the final step: one step for each event. */
    method ShowEvents(d: Display, events: seq<Drivers.ProcessEvent>)
      requires !roleSent && queue == []
      modifies this
      ensures DidAll(old(View()), [], ProcessEffects(d, events))
    {
      hide Applied, AppliedAll, Items, LinesOf, ProcessEffect;
      ghost var before := View();
      NoneDone(before, queue);
      assert ProcessEffects(d, events[..0]) == [];
      for i := 0 to |events|
        invariant DidAll(before, [], ProcessEffects(d, events[..i])) && (roleSent <==> i > 0)
      {
        OneMoreDone(before, [], ProcessEffects(d, events[..i]), ProcessEffect(d, events[i], i == 0));
        assert ProcessEffects(d, events[..i + 1]) == ProcessEffects(d, events[..i]) + [ProcessEffect(d, events[i], i == 0)];
        OnProcessEvent(d, events[i]);
      }
      assert events[..|events|] == events;
    }

    /** The pump of a process stream; without a final plan the strategy raised. */
    method PumpProcess(d: Display, events: seq<Drivers.ProcessEvent>, final: Option<Upstream>)
      requires View() == FreshWith("", false) && queue == [] && !roleSent
      modifies this
      ensures Finished(FreshWith("", false), ProcessScript(d, events, final).(gate := 0))
    {
      hide AppliedAll, Items, LinesOf, ProcessEffects, FreshWith, PlanEffects, Finished;
      ShowEvents(d, events);
      PumpFinal(final, FreshWith("", false), ProcessEffects(d, events));
    }

    /** The pump of a process stream whose strategy ends with an exception that the pump does not catch:
        `finally` queues the end marker, and the status stays what it was. */
    method PumpBroken(d: Display, events: seq<Drivers.ProcessEvent>)
      requires View() == FreshWith("", false) && queue == [] && !roleSent
      modifies this
      ensures Finished(FreshWith("", false), BrokenScript(d, events).(gate := 0))
    {
      hide AppliedAll, Items, LinesOf, ProcessEffects, FreshWith;
      ShowEvents(d, events);
      SendEnd();
      AllDone(ProcessEffects(d, events));
    }

    /** The pump of a process stream whose result is computed in the strategy. */
    method PumpResult(d: Display, events: seq<Drivers.ProcessEvent>, r: FinalResult, calls: seq<Calls.ToolCall>)
      requires View() == FreshWith("", false) && queue == [] && !roleSent
      modifies this
      ensures Finished(FreshWith("", false), ResultScript(d, events, r, calls).(gate := 0))
    {
      hide Applied, AppliedAll, Items, LinesOf, ProcessEffects, FreshWith, ResultEffect;
      ShowEvents(d, events);
      OneMoreDone(FreshWith("", false), [], ProcessEffects(d, events), ResultEffect(r, calls));
      OnFinalResult(r, calls);
      SendEnd();
      AllDone(ProcessEffects(d, events) + [ResultEffect(r, calls)]);
    }
  }

  // ---- The scripts of the paths ------------------------------------------------------------

  function EventEffects(events: seq<StreamEvent>): seq<Effect> {
    seq(|events|, i requires 0 <= i < |events| => EventEffect(events[i]))
  }

  function ContentEffects(events: seq<StreamEvent>): seq<Effect> {
    seq(|events|, i requires 0 <= i < |events| => ContentEffect(events[i]))
  }

  function LastFinish(events: seq<StreamEvent>): string {
    if events == [] then "stop"
    else if events[|events| - 1].finish != "" then events[|events| - 1].finish
    else LastFinish(events[..|events| - 1])
  }

  /** How the upstream stream of the final call ends. */
  datatype Upstream = Upstream(events: seq<StreamEvent>, error: Option<string>)

  function ErrorOf(up: Upstream): string {
    if up.error.Some? then up.error.value else ""
  }

  /** Plain pipeline stream; a passthrough also reports its error to the client. */
  function DirectScript(up: Upstream, passthrough: bool): Script {
    match up.error
    case None => Script([Plain([RoleLine])] + EventEffects(up.events) + [EndEffect(LastFinish(up.events))], None, 0)
    case Some(m) =>
      Script([Plain([RoleLine])] + EventEffects(up.events), Some(if passthrough then [ErrorLine(m), DoneLine] else []), 0, m)
  }

  /** The steps behind a final plan: role, content, finish. */
  function PlanEffects(up: Upstream): seq<Effect> {
    [OpenEffect()] + ContentEffects(up.events) + (if up.error == None then [EndEffect("stop")] else [])
  }

  function RoundEffects(yielded: seq<Drivers.RoundResult>, progress: bool, total: int): seq<Effect> {
    seq(|yielded|, i requires 0 <= i < |yielded| => RoundEffect(yielded[i], progress, total))
  }

  /** ICE rounds behind a prepared stream; without a final plan the iteration raised. */
  function IterativeScript(yielded: seq<Drivers.RoundResult>, final: Option<Upstream>, progress: bool, total: int): Script {
    var rounds := [Plain(if progress then [CommentLine(1, total)] else [])] + RoundEffects(yielded, progress, total);
    match final
    case None => Script(rounds, Some([]), 0)
    case Some(up) => Script(rounds + PlanEffects(up), if up.error == None then None else Some([]), 0, ErrorOf(up))
  }

  function ProcessEffects(d: Display, events: seq<Drivers.ProcessEvent>): seq<Effect> {
    seq(|events|, i requires 0 <= i < |events| => ProcessEffect(d, events[i], i == 0))
  }

  /** The number of steps after which the response begins: up to the first successful member. */
  function Gate(events: seq<Drivers.ProcessEvent>): nat {
    if events == [] then 1
    else if events[0].MemberEvent? && Calls.Ok(events[0].outcome) then 1
    else 1 + Gate(events[1..])
  }

  function ProcessScript(d: Display, events: seq<Drivers.ProcessEvent>, final: Option<Upstream>): Script {
    match final
    case None => Script(ProcessEffects(d, events), Some([]), Gate(events))
    case Some(up) =>
      Script(ProcessEffects(d, events) + PlanEffects(up), if up.error == None then None else Some([]), Gate(events), ErrorOf(up))
  }

  /** A process stream whose result is computed in the strategy. */
  function ResultScript(d: Display, events: seq<Drivers.ProcessEvent>, r: FinalResult, calls: seq<Calls.ToolCall>): Script {
    Script(ProcessEffects(d, events) + [ResultEffect(r, calls)], None, Gate(events))
  }

  /** A process stream that breaks off with an uncaught exception behind its events. */
  function BrokenScript(d: Display, events: seq<Drivers.ProcessEvent>): Script {
    Script(ProcessEffects(d, events), None, Gate(events))
  }

  lemma {:induction false} NoneDone(before: Sink, queued: seq<Item>)
    ensures AppliedAll(before, []) == before && queued + Items(LinesOf([])) == queued
  {
  }

  lemma {:induction false} OneMoreDone(before: Sink, queued: seq<Item>, effects: seq<Effect>, e: Effect)
    ensures AppliedAll(before, effects + [e]) == Applied(AppliedAll(before, effects), e)
    ensures queued + Items(LinesOf(effects + [e])) == queued + Items(LinesOf(effects)) + Items(e.lines)
  {
    assert (effects + [e])[..|effects|] == effects;
    ItemsConcat(LinesOf(effects), e.lines);
  }

  lemma {:induction false} MoreDone(before: Sink, queued: seq<Item>, a: seq<Effect>, b: seq<Effect>)
    ensures AppliedAll(before, a + b) == AppliedAll(AppliedAll(before, a), b)
    ensures queued + Items(LinesOf(a + b)) == queued + Items(LinesOf(a)) + Items(LinesOf(b))
  {
    hide Applied, Items;
    if b == [] {
      assert a + b == a;
      NoneDone(AppliedAll(before, a), queued + Items(LinesOf(a)));
    } else {
      var init, last := b[..|b| - 1], b[|b| - 1];
      MoreDone(before, queued, a, init);
      assert a + b == (a + init) + [last] && b == init + [last];
      OneMoreDone(before, queued, a + init, last);
      OneMoreDone(AppliedAll(before, a), queued + Items(LinesOf(a)), init, last);
    }
  }

  lemma {:induction false} FinishApplied(s: Sink, e: StreamEvent)
    ensures Applied(s, EventEffect(e)).finish == if e.finish != "" then e.finish else s.finish
  {
  }

  lemma {:induction false} PlainLeaves(s: Sink, lines: seq<Line>)
    ensures Applied(s, Plain(lines)) == s
  {
    assert s.fragments + [] == s.fragments && s.rows + [] == s.rows;
  }

  lemma {:induction false} FreshFinish()
    ensures FreshWith("stop", true).finish == "stop"
  {
  }

  /** The lines of a failure behind the lines of the steps. */
  lemma {:induction false} FailureLines(queued: seq<Item>, effects: seq<Effect>, lines: seq<Line>)
    ensures queued == Items(LinesOf(effects)) ==> queued + Items(lines) + [End] == Items(AllLines(Script(effects, Some(lines), 0))) + [End]
    ensures |lines| == 2 ==> queued + Items([lines[0]]) + Items([lines[1]]) == queued + Items(lines)
    ensures lines == [] ==> queued + Items(lines) == queued
  {
    ItemsConcat(LinesOf(effects), lines);
    assert |lines| == 2 ==> lines == [lines[0]] + [lines[1]];
  }

  lemma {:induction false} NoItems()
    ensures Items([]) == []
  {
  }

  lemma {:induction false} AllDone(effects: seq<Effect>)
    ensures AllLines(Script(effects, None, 0)) == LinesOf(effects)
  {
    assert LinesOf(effects) + [] == LinesOf(effects);
  }

  // ---- Each path is an instance of the protocol --------------------------------------------

  ghost predicate SoundEffect(e: Effect) {
    FaithfulEffect(e) && Ping !in e.lines
  }

  ghost predicate SoundEffects(effects: seq<Effect>) {
    forall i :: 0 <= i < |effects| ==> SoundEffect(effects[i])
  }

  lemma {:induction false} NoText(lines: seq<Line>)
    requires forall i :: 0 <= i < |lines| ==> !lines[i].ContentLine? && !lines[i].ToolLine?
    ensures TextOf(lines) == "" && ToolsOf(lines) == []
  {
    if lines != [] {
      NoText(lines[..|lines| - 1]);
    }
  }

  lemma {:induction false} OneLine(line: Line)
    ensures TextOf([line]) == if line.ContentLine? then line.text else ""
    ensures ToolsOf([line]) == if line.ToolLine? then line.fragments else []
  {
    assert [line][..0] == [];
  }

  lemma {:induction false} PartsSound(tools: seq<Fragment>, text: string)
    ensures TextOf(ToolPart(tools)) == "" && ToolsOf(ToolPart(tools)) == tools
    ensures TextOf(TextPart(text)) == text && ToolsOf(TextPart(text)) == []
  {
    OneLine(ContentLine(text));
    OneLine(ToolLine(tools));
    NoText([]);
    hide TextOf, ToolsOf;
  }

  lemma {:induction false} EventSound(e: StreamEvent)
    ensures SoundEffect(EventEffect(e)) && SoundEffect(ContentEffect(e))
  {
    hide TextOf, ToolsOf;
    PartsSound(e.tools, e.text);
    TextOfConcat(ToolPart(e.tools), TextPart(e.text));
  }

  lemma {:induction false} PlainSound(lines: seq<Line>)
    requires forall i :: 0 <= i < |lines| ==> !lines[i].ContentLine? && !lines[i].ToolLine? && !lines[i].Ping?
    ensures SoundEffect(Plain(lines))
  {
    NoText(lines);
  }

  lemma {:induction false} PlanSound(up: Upstream)
    ensures SoundEffects(PlanEffects(up))
  {
    PlainSound([RoleLine]);
    PlainSound([FinishLine("stop"), DoneLine]);
    forall i | 0 <= i < |up.events| ensures SoundEffect(ContentEffects(up.events)[i]) {
      EventSound(up.events[i]);
    }
  }

  lemma {:induction false} DirectSound(up: Upstream, passthrough: bool)
    ensures SoundEffects(DirectScript(up, passthrough).effects)
  {
    PlainSound([RoleLine]);
    PlainSound([FinishLine(LastFinish(up.events)), DoneLine]);
    forall i | 0 <= i < |up.events| ensures SoundEffect(EventEffects(up.events)[i]) {
      EventSound(up.events[i]);
    }
  }

  lemma {:induction false} IterativeSound(yielded: seq<Drivers.RoundResult>, final: Option<Upstream>, progress: bool, total: int)
    ensures SoundEffects(IterativeScript(yielded, final, progress, total).effects)
  {
    if final.Some? {
      PlanSound(final.value);
    }
    PlainSound([CommentLine(1, total)]);
    PlainSound([]);
    forall i | 0 <= i < |yielded| ensures SoundEffect(RoundEffects(yielded, progress, total)[i]) {
      PlainSound(RoundEffect(yielded[i], progress, total).lines);
    }
  }

  lemma {:induction false} ProcessSound(d: Display, events: seq<Drivers.ProcessEvent>, final: Option<Upstream>)
    ensures SoundEffects(ProcessScript(d, events, final).effects)
  {
    if final.Some? {
      PlanSound(final.value);
    }
    forall i | 0 <= i < |events| ensures SoundEffect(ProcessEffects(d, events)[i]) {
      PlainSound(ProcessEffect(d, events[i], i == 0).lines);
    }
  }

  lemma {:induction false} SoundLines(effects: seq<Effect>)
    requires SoundEffects(effects)
    ensures Ping !in LinesOf(effects)
  {
    if effects != [] {
      SoundLines(effects[..|effects| - 1]);
      assert SoundEffect(effects[|effects| - 1]);
    }
  }

  /** Before the final call has begun no step reports usage. */
  ghost predicate UsageAfter(c: Config, start: nat) {
    && c.initial.usage == None
    && (forall i :: 0 <= i < start && i < |c.script.effects| ==> c.script.effects[i].usage == None)
    && (c.initial.forwarding || (start < |c.script.effects| ==> c.script.effects[start].opensFinal))
  }

  lemma {:induction false} UsageGuarded(c: Config, start: nat, k: nat)
    requires UsageAfter(c, start) && k <= |c.script.effects|
    ensures var sink := AppliedAll(c.initial, c.script.effects[..k]);
      (sink.usage.Some? ==> sink.forwarding) && (k > start || c.initial.forwarding ==> sink.forwarding)
      && (k <= start ==> sink.usage == None)
  {
    if k > 0 {
      UsageGuarded(c, start, k - 1);
      AppliedAllSnoc(c.initial, c.script.effects, k - 1);
    }
  }

  lemma {:induction false} RowsOfSnoc(front: seq<Effect>, last: Effect)
    ensures RowsOf(front + [last]) == RowsOf(front) + last.rows
  {
    assert (front + [last])[..|front|] == front;
  }

  lemma {:induction false} RowsOfConcat(a: seq<Effect>, b: seq<Effect>)
    ensures RowsOf(a + b) == RowsOf(a) + RowsOf(b)
  {
    if b == [] {
      assert a + b == a;
    } else {
      hide RowsOf;
      var init, last := b[..|b| - 1], b[|b| - 1];
      RowsOfConcat(a, init);
      SplitLast(a, b);
      RowsOfSnoc(a + init, last);
      RowsOfSnoc(init, last);
      AppendAssociates(RowsOf(a), RowsOf(init), last.rows);
    }
  }

  lemma {:induction false} NoRows(effects: seq<Effect>)
    requires forall i :: 0 <= i < |effects| ==> effects[i].rows == []
    ensures RowsOf(effects) == []
  {
    if effects != [] {
      NoRows(effects[..|effects| - 1]);
    }
  }

  lemma {:induction false} RoundRows(yielded: seq<Drivers.RoundResult>, progress: bool, total: int)
    ensures RowsOf(RoundEffects(yielded, progress, total)) == Agreement.YieldedCalls(yielded)
  {
    if yielded != [] {
      var n := |yielded| - 1;
      RoundRows(yielded[..n], progress, total);
      assert RoundEffects(yielded, progress, total)[..n] == RoundEffects(yielded[..n], progress, total);
    }
  }

  lemma {:induction false} ProcessRows(d: Display, events: seq<Drivers.ProcessEvent>)
    ensures RowsOf(ProcessEffects(d, events)) == Drivers.OutcomesOf(events)
  {
    if events != [] {
      var n := |events| - 1;
      ProcessRows(d, events[..n]);
      assert ProcessEffects(d, events)[..n] == ProcessEffects(d, events[..n]);
      assert Drivers.OutcomesOf(events) == Drivers.OutcomesOf(events[..n]) + [events[n].outcome];
    }
  }

  // ---- What each path records --------------------------------------------------------------

  ghost predicate Recorded(c: Config, s: System, taken: seq<Calls.Outcome>) {
    s.saved.Some? && s.saved.value.rows == taken + FinalRows(c, s.sink)
  }

  /** The record a stream leaves: the content sent, every outcome the pump took exactly once and in order
      - all of them if the pump was not cut off -, the final call's row once it had begun, and totals that
      are the sums over all logged rows. */
  ghost predicate Records(c: Config, s: System, pre: seq<Calls.Outcome>, outcomes: seq<Calls.Outcome>) {
    && s.saved.Some?
    && var saved := s.saved.value;
    && saved.content == TextOf(SentLines(s.sent))
    && (s.ferry == Drained ==> saved.content == TextOf(WithoutPings(s.received)))
    && (exists taken :: Recorded(c, s, taken) && taken <= outcomes && (c.detach || s.ferry == Drained ==> taken == outcomes))
    && saved.promptTokens == Calls.SumOf(pre + saved.rows, Calls.Prompt)
    && saved.completionTokens == Calls.SumOf(pre + saved.rows, Calls.Completion)
  }

  lemma {:induction false} RowsPrefix(effects: seq<Effect>, k: nat)
    requires k <= |effects|
    ensures RowsOf(effects[..k]) <= RowsOf(effects)
  {
    assert effects == effects[..k] + effects[k..];
    RowsOfConcat(effects[..k], effects[k..]);
  }

  ghost predicate FreshSink(c: Config) {
    && c.initial.status == ClientCancelled && c.initial.parts == [] && c.initial.fragments == []
    && c.initial.rows == [] && c.initial.result == None
  }

  lemma {:induction false} NoResult(c: Config, k: nat)
    requires k <= |c.script.effects| && c.initial.result == None
    requires forall i :: 0 <= i < |c.script.effects| ==> c.script.effects[i].result == None
    ensures AppliedAll(c.initial, c.script.effects[..k]).result == None
  {
    if k > 0 {
      NoResult(c, k - 1);
      AppliedAllSnoc(c.initial, c.script.effects, k - 1);
    }
  }

  ghost predicate QuietFailure(script: Script) {
    script.failure.Some? ==>
      forall i :: 0 <= i < |script.failure.value| ==>
        !script.failure.value[i].ContentLine? && !script.failure.value[i].ToolLine? && !script.failure.value[i].Ping?
  }

  lemma {:induction false} ScriptSound(c: Config)
    requires SoundEffects(c.script.effects) && QuietFailure(c.script) && c.initial.status == ClientCancelled
    ensures WellFormedConfig(c) && Faithful(c.script)
  {
    SoundLines(c.script.effects);
    if c.script.failure.Some? {
      NoText(c.script.failure.value);
    }
    assert forall k :: 0 <= k < |c.script.effects| ==> SoundEffect(c.script.effects[k]);
  }

  lemma {:induction false} StreamRecords(c: Config, s: System, start: nat, pre: seq<Calls.Outcome>, outcomes: seq<Calls.Outcome>)
    requires FreshSink(c) && SoundEffects(c.script.effects) && QuietFailure(c.script) && UsageAfter(c, start)
    requires forall i :: 0 <= i < |c.script.effects| ==> c.script.effects[i].result == None
    requires RowsOf(c.script.effects) == outcomes && StartsFrom(c.base, pre)
    requires Reachable(c, s) && s.saved.Some?
    ensures Records(c, s, pre, outcomes)
  {
    hide AppliedAll, SentLines, TextOf, ToolsOf, WithoutPings, FinalRows;
    hide Calls.SumOf, CallList, LinesOf, AllLines, SoundEffects, QuietFailure;
    ScriptSound(c);
    forall k | 0 <= k <= |c.script.effects|
      ensures var sink := AppliedAll(c.initial, c.script.effects[..k]); sink.usage.Some? ==> sink.forwarding
    {
      UsageGuarded(c, start, k);
    }
    PersistedRows(c, s, pre);
    ContentIsWhatWasSent(c, s);
    ClientSeesPrefix(c, s);
    SavedContent(c, s);
    RowsPrefix(c.script.effects, s.pos);
    assert Recorded(c, s, RowsOf(c.script.effects[..s.pos]));
    assert s.pos == |c.script.effects| ==> c.script.effects[..s.pos] == c.script.effects;
  }

  /** What is saved, from the steps done. */
  lemma {:induction false} SavedFrom(c: Config, s: System)
    requires WellFormedConfig(c) && Reachable(c, s) && s.saved.Some?
    ensures s.pos <= |c.script.effects| && s.saved == Some(Summary(c, s.sink)) && SinkIs(c, s) && s.pump == Over
  {
    hide Conserved, SentIs, SinkIs, Summary;
    var run :| After(c, StreamProtocol.Initial(c), run) == Some(s);
    ReachableInv(c, run);
  }

  lemma {:induction false} SavedContent(c: Config, s: System)
    requires WellFormedConfig(c) && Reachable(c, s) && s.saved.Some? && c.initial.result == None
    requires forall i :: 0 <= i < |c.script.effects| ==> c.script.effects[i].result == None
    ensures s.saved.value.content == Concat(s.sink.parts)
  {
    hide Reachable, CallList, Calls.SumOf, JudgeRow;
    SavedFrom(c, s);
    NoResult(c, s.pos);
  }

  function FreshWith(finish: string, forwarding: bool): Sink {
    Sink(ClientCancelled, [], [], None, finish, [], forwarding, None)
  }

  /** Passthrough and plain pipeline streams: one row for the final call besides those written before. */
  lemma {:induction false} DirectStream(c: Config, s: System, up: Upstream, passthrough: bool, pre: seq<Calls.Outcome>)
    requires c.script == DirectScript(up, passthrough) && c.initial == FreshWith("stop", true) && StartsFrom(c.base, pre)
    requires Reachable(c, s) && s.saved.Some?
    ensures Records(c, s, pre, [])
    ensures s.ferry == Drained ==> JudgeRow(c, s.sink).toolCalls == CallList(Merge(ToolsOf(WithoutPings(s.received))))
  {
    hide Records, CallList, JudgeRow, SoundEffects, TextOf, ToolsOf, WithoutPings, Merge, RowsOf, Reachable;
    DirectSound(up, passthrough);
    NoRows(c.script.effects);
    StreamRecords(c, s, 0, pre, []);
    ScriptSound(c);
    ContentIsWhatWasSent(c, s);
    JudgeCalls(c, s.sink);
  }

  lemma {:induction false} JudgeCalls(c: Config, s: Sink)
    ensures JudgeRow(c, s).toolCalls == CallList(Merge(s.fragments))
  {
  }

  /** Strategy steps, then possibly the steps of a final plan. */
  ghost predicate Staged(script: Script, front: seq<Effect>, final: Option<Upstream>) {
    script.effects == front + (match final case Some(up) => PlanEffects(up) case None => [])
  }

  lemma {:induction false} StagedShape(c: Config, front: seq<Effect>, final: Option<Upstream>)
    requires Staged(c.script, front, final) && c.initial.usage == None
    requires forall i :: 0 <= i < |front| ==> front[i].usage == None && front[i].result == None
    ensures UsageAfter(c, |front|) && RowsOf(c.script.effects) == RowsOf(front)
    ensures forall i :: 0 <= i < |c.script.effects| ==> c.script.effects[i].result == None
  {
    hide PlanEffects, RowsOf;
    match final {
      case Some(up) =>
        PlanShape(up);
        RowsOfConcat(front, PlanEffects(up));
      case None =>
        assert front + [] == front;
    }
  }

  /** ICE rounds behind a prepared stream, also when cancelled between or inside rounds: the outcomes of
      the rounds are what `_iterate` yields. */
  lemma {:induction false} IterativeStream(c: Config, s: System, yielded: seq<Drivers.RoundResult>, final: Option<Upstream>,
                        progress: bool, total: int, pre: seq<Calls.Outcome>)
    requires c.script == IterativeScript(yielded, final, progress, total) && c.initial == FreshWith("", false)
    requires StartsFrom(c.base, pre) && Reachable(c, s) && s.saved.Some?
    ensures Records(c, s, pre, Agreement.YieldedCalls(yielded))
  {
    hide Records, Reachable, SoundEffects, PlanEffects, RowsOf, UsageAfter, RoundEffects, Agreement.YieldedCalls;
    var head := [Plain(if progress then [CommentLine(1, total)] else [])];
    var front := head + RoundEffects(yielded, progress, total);
    IterativeSound(yielded, final, progress, total);
    RoundRows(yielded, progress, total);
    RoundsShape(yielded, progress, total);
    RowsOfConcat(head, RoundEffects(yielded, progress, total));
    NoRows(head);
    assert front + [] == front;
    StagedShape(c, front, final);
    StreamRecords(c, s, |front|, pre, Agreement.YieldedCalls(yielded));
  }

  lemma {:induction false} RoundsShape(yielded: seq<Drivers.RoundResult>, progress: bool, total: int)
    ensures forall i :: 0 <= i < |yielded| ==>
      RoundEffects(yielded, progress, total)[i].usage == None && RoundEffects(yielded, progress, total)[i].result == None
    ensures |RoundEffects(yielded, progress, total)| == |yielded|
  {
  }

  lemma {:induction false} PlanShape(up: Upstream)
    ensures PlanEffects(up) != [] && PlanEffects(up)[0].opensFinal && RowsOf(PlanEffects(up)) == []
    ensures forall i :: 0 <= i < |PlanEffects(up)| ==> PlanEffects(up)[i].result == None
  {
    PlanSteps(up);
    hide RowsOf, PlanEffects;
    NoRows(PlanEffects(up));
  }

  lemma {:induction false} PlanSteps(up: Upstream)
    ensures PlanEffects(up) != [] && PlanEffects(up)[0].opensFinal
    ensures forall i :: 0 <= i < |PlanEffects(up)| ==> PlanEffects(up)[i].result == None && PlanEffects(up)[i].rows == []
  {
  }

  /** The process stream: the outcomes are those of the events, each member and critique once. */
  lemma {:induction false} ProcessStream(c: Config, s: System, d: Display, events: seq<Drivers.ProcessEvent>,
        final: Option<Upstream>)
    requires c.script == ProcessScript(d, events, final) && c.initial == FreshWith("", false)
    requires StartsFrom(c.base, []) && Reachable(c, s) && s.saved.Some?
    ensures Records(c, s, [], Drivers.OutcomesOf(events))
  {
    hide Records, SoundEffects, PlanEffects, RowsOf, UsageAfter;
    var front := ProcessEffects(d, events);
    ProcessSound(d, events, final);
    ProcessRows(d, events);
    assert front + [] == front;
    StagedShape(c, front, final);
    StreamRecords(c, s, |front|, [], Drivers.OutcomesOf(events));
  }

  // ---- Results computed inside the strategy, and failures before the response --------------

  lemma {:induction false} ToolLinesText(calls: seq<Calls.ToolCall>)
    ensures TextOf(ToolLines(calls)) == "" && ToolsOf(ToolLines(calls)) == Split(calls)
  {
    if calls != [] {
      var n := |calls| - 1;
      ToolLinesText(calls[..n]);
      assert ToolLines(calls)[..n] == ToolLines(calls[..n]);
      assert Split(calls) == Split(calls[..n]) + [AsFragment(calls[n], n)];
    }
  }

  /** A computed result is recorded with its content. That is the content sent exactly when the result
      has no tool calls or no content: with both, only the calls are sent. The calls themselves arrive as
      they are when they have the shape of merged calls. */
  lemma {:induction false} ResultSent(r: FinalResult, calls: seq<Calls.ToolCall>)
    ensures TextOf(ResultEffect(r, calls).lines) == r.content <==> calls == [] || r.content == ""
    ensures ToolsOf(ResultEffect(r, calls).lines) == Split(calls)
    ensures (forall i :: 0 <= i < |calls| ==> Canonical(calls[i])) ==>
      CallList(Merge(ToolsOf(ResultEffect(r, calls).lines))) == calls
  {
    hide Canonical, CallList, Merge, TextOf, ToolsOf;
    var body := if calls != [] then ToolLines(calls) else if r.content != "" then [ContentLine(r.content)] else [];
    ToolLinesText(calls);
    OneLine(ContentLine(r.content));
    NoText([RoleLine]);
    NoText([]);
    NoText([FinishLine(r.finish), DoneLine]);
    TextOfConcat([RoleLine], body);
    TextOfConcat([RoleLine] + body, [FinishLine(r.finish), DoneLine]);
    assert calls == [] ==> Split(calls) == [];
    SplitThenMergeIff(calls);
  }

  /** The process stream of a tool aggregation, wherever it is persisted: the rows are the outcomes of the
      events that the pump took, then the judge row that came with the result, once the pump took that; the
      totals are the sums over these rows, and content and finish are the result's. */
  lemma {:induction false} ResultStream(c: Config, s: System, d: Display, events: seq<Drivers.ProcessEvent>,
        r: FinalResult, calls: seq<Calls.ToolCall>)
    requires c.script == ResultScript(d, events, r, calls)
    requires c.initial == FreshWith("", false) && StartsFrom(c.base, [])
    requires Reachable(c, s) && s.saved.Some?
    ensures var saved := s.saved.value; var complete := s.pos > |events|;
      && saved.rows == (if complete then Drivers.OutcomesOf(events) + [r.judge] else Drivers.OutcomesOf(events)[..s.pos])
      && saved.promptTokens == Calls.SumOf(saved.rows, Calls.Prompt)
      && saved.completionTokens == Calls.SumOf(saved.rows, Calls.Completion)
      && saved.content == (if complete then r.content else "") && saved.finish == (if complete then r.finish else "")
      && (c.detach || s.ferry == Drained ==>
           complete && saved.status == if r.degraded then Degraded else Success)
      && (!c.detach && s.ferry == Gone ==> saved.status == ClientCancelled)
  {
    hide Reachable, TextOf, ToolsOf, RowsOf, Calls.SumOf, JudgeRow;
    hide CallList, ProcessEffect, LinesOf, AppliedAll, WithoutPings, SentLines;
    var front, last := ProcessEffects(d, events), ResultEffect(r, calls);
    ResultConfig(c, d, events, r, calls);
    PersistedRows(c, s, []);
    PersistedRecord(c, s);
    ClientSeesPrefix(c, s);
    SavedFrom(c, s);
    assert [] + s.saved.value.rows == s.saved.value.rows;
    FrontRows(d, events, if s.pos > |events| then |events| else s.pos);
    if s.pos > |events| {
      assert c.script.effects[..s.pos] == front + [last];
      QuietFront(c, d, events, r, calls);
      RowsOfSnoc(front, last);
      assert Drivers.OutcomesOf(events) + [] + [r.judge] == Drivers.OutcomesOf(events) + [r.judge];
    } else {
      assert c.script.effects[..s.pos] == front[..s.pos];
      QuietEvents(d, events);
      QuietPart(c, s.pos);
      assert Drivers.OutcomesOf(events)[..s.pos] + [] == Drivers.OutcomesOf(events)[..s.pos];
    }
  }

  /** The rows of the first `k` events. */
  lemma {:induction false} FrontRows(d: Display, events: seq<Drivers.ProcessEvent>, k: nat)
    requires k <= |events|
    ensures RowsOf(ProcessEffects(d, events)[..k]) == Drivers.OutcomesOf(events)[..k]
    ensures RowsOf(ProcessEffects(d, events)) == Drivers.OutcomesOf(events)
  {
    ProcessRows(d, events);
    ProcessRows(d, events[..k]);
    assert ProcessEffects(d, events)[..k] == ProcessEffects(d, events[..k]);
    assert Drivers.OutcomesOf(events)[..k] == Drivers.OutcomesOf(events[..k]);
  }

  /** Steps that only show events leave no text, no result and no final call. */
  ghost predicate Quiet(e: Effect) {
    e.text == "" && e.usage == None && e.finish == "" && !e.opensFinal && e.result == None && !e.succeeds
  }

  lemma {:induction false} QuietPart(c: Config, k: nat)
    requires k <= |c.script.effects| && c.initial == FreshWith("", false)
    requires forall i :: 0 <= i < k ==> Quiet(c.script.effects[i])
    ensures var sink := AppliedAll(c.initial, c.script.effects[..k]);
      sink.parts == [] && sink.finish == "" && sink.usage == None && !sink.forwarding && sink.result == None
      && sink.status == ClientCancelled
  {
    if k > 0 {
      QuietPart(c, k - 1);
      AppliedAllSnoc(c.initial, c.script.effects, k - 1);
    }
  }

  /** A process stream that breaks off with an uncaught exception of the strategy is
      persisted as if the client had left, even when the client stayed and got every line: the rows are the
      outcomes of the events, the totals the sums over them, and there is no content. */
  lemma {:induction false} BrokenStream(c: Config, s: System, d: Display, events: seq<Drivers.ProcessEvent>)
    requires c.script == BrokenScript(d, events)
    requires c.initial == FreshWith("", false) && StartsFrom(c.base, [])
    requires Reachable(c, s) && s.saved.Some?
    ensures var saved := s.saved.value;
      && saved.status == ClientCancelled && saved.content == "" && saved.finish == ""
      && s.pos <= |events| && saved.rows == Drivers.OutcomesOf(events)[..s.pos]
      && (c.detach || s.ferry == Drained ==> saved.rows == Drivers.OutcomesOf(events))
      && saved.promptTokens == Calls.SumOf(saved.rows, Calls.Prompt)
      && saved.completionTokens == Calls.SumOf(saved.rows, Calls.Completion)
  {
    hide Reachable, TextOf, ToolsOf, RowsOf, Calls.SumOf, JudgeRow;
    hide CallList, ProcessEffect, LinesOf, AppliedAll, WithoutPings, SentLines;
    BrokenConfig(c, d, events);
    PersistedRows(c, s, []);
    ClientSeesPrefix(c, s);
    SavedFrom(c, s);
    FrontRows(d, events, s.pos);
    QuietEvents(d, events);
    QuietPart(c, s.pos);
    QuietPart(c, |events|);
    assert c.script.effects[..|events|] == c.script.effects;
    var shown := Drivers.OutcomesOf(events);
    assert shown[..s.pos] + [] == shown[..s.pos] && shown[..|events|] == shown;
    assert [] + s.saved.value.rows == s.saved.value.rows;
  }

  lemma {:induction false} QuietEvents(d: Display, events: seq<Drivers.ProcessEvent>)
    ensures forall i :: 0 <= i < |events| ==> Quiet(ProcessEffects(d, events)[i])
  {
  }

  lemma {:induction false} BrokenConfig(c: Config, d: Display, events: seq<Drivers.ProcessEvent>)
    requires c.script == BrokenScript(d, events) && c.initial == FreshWith("", false)
    ensures WellFormedConfig(c) && UsageNeedsFinal(c)
  {
    hide TextOf, ToolsOf, ProcessEffect, LinesOf, AppliedAll;
    ProcessSound(d, events, None);
    assert ProcessScript(d, events, None).effects == ProcessEffects(d, events);
    SoundLines(ProcessEffects(d, events));
    AllDone(ProcessEffects(d, events));
    QuietEvents(d, events);
    forall k | 0 <= k <= |c.script.effects|
      ensures var sink := AppliedAll(c.initial, c.script.effects[..k]); sink.usage.Some? ==> sink.forwarding
    {
      QuietPart(c, k);
    }
  }

  lemma {:induction false} ResultEffectsPlain(d: Display, events: seq<Drivers.ProcessEvent>, r: FinalResult,
        calls: seq<Calls.ToolCall>)
    ensures var effects := ProcessEffects(d, events) + [ResultEffect(r, calls)];
      forall i :: 0 <= i < |effects| ==> effects[i].usage == None && !effects[i].opensFinal
    ensures Ping !in ResultEffect(r, calls).lines
  {
  }

  lemma {:induction false} ResultConfig(c: Config, d: Display, events: seq<Drivers.ProcessEvent>, r: FinalResult,
        calls: seq<Calls.ToolCall>)
    requires c.script == ResultScript(d, events, r, calls)
    requires c.initial == FreshWith("", false)
    ensures WellFormedConfig(c) && UsageNeedsFinal(c)
  {
    hide TextOf, ToolsOf, ProcessEffect, ResultEffect, LinesOf, AppliedAll;
    ResultEffectsPlain(d, events, r, calls);
    ProcessSound(d, events, None);
    assert ProcessScript(d, events, None).effects == ProcessEffects(d, events);
    SoundLines(ProcessEffects(d, events));
    assert c.script.effects[..|events|] == ProcessEffects(d, events);
    LinesOfSnoc(c.script.effects, |events|);
    assert c.script.effects[..|events| + 1] == c.script.effects;
    forall k | 0 <= k <= |c.script.effects|
      ensures var sink := AppliedAll(c.initial, c.script.effects[..k]); sink.usage.Some? ==> sink.forwarding
    {
      NeverUsage(c, k);
    }
  }

  lemma {:induction false} NeverUsage(c: Config, k: nat)
    requires k <= |c.script.effects| && c.initial.usage == None && !c.initial.forwarding
    requires forall i :: 0 <= i < |c.script.effects| ==> c.script.effects[i].usage == None && !c.script.effects[i].opensFinal
    ensures AppliedAll(c.initial, c.script.effects[..k]).usage == None && !AppliedAll(c.initial, c.script.effects[..k]).forwarding
  {
    if k > 0 {
      NeverUsage(c, k - 1);
      AppliedAllSnoc(c.initial, c.script.effects, k - 1);
    }
  }

  /** After all the steps the sink holds the result and nothing was forwarded. */
  lemma {:induction false} QuietFront(c: Config, d: Display, events: seq<Drivers.ProcessEvent>, r: FinalResult,
        calls: seq<Calls.ToolCall>)
    requires c.script == ResultScript(d, events, r, calls)
    requires c.initial == FreshWith("", false)
    ensures var sink := AppliedAll(c.initial, c.script.effects);
      sink.result == Some(r) && !sink.forwarding && sink.usage == None && sink.status == Success
  {
    hide ProcessEffect, AppliedAll;
    ResultEffectsPlain(d, events, r, calls);
    NeverUsage(c, |c.script.effects|);
    assert c.script.effects[..|c.script.effects|] == c.script.effects;
    AppliedAllSnoc(c.initial, c.script.effects, |events|);
    assert c.script.effects[..|events| + 1] == c.script.effects;
  }
}
