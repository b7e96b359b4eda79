/** The streaming protocol of the gateway: a pump task fills a queue, a ferry hands it to the client with
    heartbeats in between, the client may disconnect at any time, and a background step persists. */
module StreamProtocol {
  import opened Prelude
  import Calls
  import opened ToolDeltas

  // ---- What travels ------------------------------------------------------------------------

  datatype Line =
    | RoleLine
    | ContentLine(text: string)
    | ReasoningLine(text: string, withRole: bool)
    | ToolLine(fragments: seq<Fragment>)
    | FinishLine(reason: string)
    | DoneLine
    | CommentLine(k: nat, total: int)
    | ErrorLine(message: string)
    | Ping

  datatype Item = Chunk(line: Line) | End

  datatype Status = Pending | Success | Degraded | Failed | ClientCancelled

  /** A strategy result that was computed before the stream began (tool aggregation). */
  datatype FinalResult = FinalResult(content: string, finish: string, judge: Calls.Outcome, degraded: bool)

  /** What the pump does between two awaits. */
  datatype Effect = Effect(
    lines: seq<Line>, text: string, fragments: seq<Fragment>, usage: Option<Calls.Usage>, finish: string,
    rows: seq<Calls.Outcome>, opensFinal: bool, result: Option<FinalResult>, succeeds: bool)

  /** All the pump would do if nobody stopped it: its steps, then either the end of the iterator or an
      error with the lines sent for it and its text. `gate` steps have to be done before the response begins. */
  datatype Script = Script(effects: seq<Effect>, failure: Option<seq<Line>>, gate: nat, error: string := "")

  /** The shared `StreamOutcome`, with the lists that the pump fills beside it. */
  datatype Sink = Sink(
    status: Status, parts: seq<string>, fragments: seq<Fragment>, usage: Option<Calls.Usage>, finish: string,
    rows: seq<Calls.Outcome>, forwarding: bool, result: Option<FinalResult>, error: string := "")

  function Applied(s: Sink, e: Effect): Sink {
    Sink(
      if e.succeeds then Success else s.status,
      if e.text != "" then s.parts + [e.text] else s.parts,
      s.fragments + e.fragments,
      if e.usage.Some? then e.usage else s.usage,
      if e.finish != "" then e.finish else s.finish,
      s.rows + e.rows, s.forwarding || e.opensFinal,
      if e.result.Some? then e.result else s.result, s.error)
  }

  function AppliedAll(s: Sink, effects: seq<Effect>): Sink {
    if effects == [] then s else Applied(AppliedAll(s, effects[..|effects| - 1]), effects[|effects| - 1])
  }

  function Items(lines: seq<Line>): seq<Item> {
    seq(|lines|, i requires 0 <= i < |lines| => Chunk(lines[i]))
  }

  function LinesOf(effects: seq<Effect>): seq<Line> {
    if effects == [] then [] else LinesOf(effects[..|effects| - 1]) + effects[|effects| - 1].lines
  }

  function TextOf(lines: seq<Line>): string {
    if lines == [] then ""
    else TextOf(lines[..|lines| - 1]) + (if lines[|lines| - 1].ContentLine? then lines[|lines| - 1].text else "")
  }

  function ToolsOf(lines: seq<Line>): seq<Fragment> {
    if lines == [] then []
    else ToolsOf(lines[..|lines| - 1]) + (if lines[|lines| - 1].ToolLine? then lines[|lines| - 1].fragments else [])
  }

  function WithoutPings(lines: seq<Line>): seq<Line> {
    if lines == [] then []
    else WithoutPings(lines[..|lines| - 1]) + (if lines[|lines| - 1].Ping? then [] else [lines[|lines| - 1]])
  }

  // ---- The system --------------------------------------------------------------------------

  datatype PumpPhase = Created | Active | Over

  /** NotServing: the response has not begun. Drained: `_END` was received. Gone: closed before that.
      Refused: the pump failed before the response began, and the request is answered with an error. */
  datatype FerryPhase = NotServing | Serving | Drained | Gone | Refused

  datatype Config = Config(detach: bool, heartbeat: bool, script: Script, initial: Sink, base: Calls.Usage, judge: Calls.Outcome)

  /** `pos` steps of the script are done; `sent` is all that was ever put on the queue. */
  datatype System = System(
    pos: nat, pump: PumpPhase, cancelAsked: bool, sink: Sink, sent: seq<Item>, queue: seq<Item>,
    ferry: FerryPhase, inFlight: Option<Line>, received: seq<Line>, saved: Option<Saved>)

  datatype Action = PumpStep | PumpAbort | Serve | Refuse | Take | Deliver | Heartbeat | Disconnect | Persist

  /** What the persist step writes: the request row and the call rows of the stream. */
  datatype Saved = Saved(status: Status, content: string, finish: string,
                         rows: seq<Calls.Outcome>, promptTokens: nat, completionTokens: nat)

  function Initial(c: Config): System {
    System(0, Created, false, c.initial, [], [], if c.script.gate == 0 then Serving else NotServing, None, [], None)
  }

  predicate Enabled(c: Config, s: System, a: Action) {
    match a
    case PumpStep => s.pump != Over && !s.cancelAsked
    case PumpAbort => s.pump != Over && s.cancelAsked
    case Serve => s.ferry == NotServing && s.pos >= c.script.gate
    case Refuse => s.ferry == NotServing && s.pos < c.script.gate && s.pump == Over
    case Take => s.ferry == Serving && s.inFlight == None && s.queue != []
    case Deliver => s.ferry == Serving && s.inFlight.Some?
    case Heartbeat => s.ferry == Serving && s.inFlight == None && c.heartbeat
    case Disconnect => s.ferry == Serving
    case Persist => (s.ferry == Drained || s.ferry == Gone) && s.pump == Over && s.saved == None
  }

  function Put(s: System, items: seq<Item>): System {
    s.(sent := s.sent + items, queue := s.queue + items)
  }

  /** One await-free stretch of the pump: the next step of the script, or its end with `finally`. */
  function Pumped(c: Config, s: System): System {
    if s.pos < |c.script.effects| then
      var e := c.script.effects[s.pos];
      Put(s.(pos := s.pos + 1, pump := Active, sink := Applied(s.sink, e)), Items(e.lines))
    else
      match c.script.failure
      case None => Put(s.(pump := Over), [End])
      case Some(lines) => Put(s.(pump := Over, sink := s.sink.(status := Failed, error := c.script.error)), Items(lines) + [End])
  }

  /** `finally` of the event stream. */
  function FerryEnds(c: Config, s: System, drained: bool): System {
    var t := s.(ferry := if drained then Drained else Gone, inFlight := None);
    if c.detach then t
    else t.(cancelAsked := true, sink := if drained then t.sink else t.sink.(status := ClientCancelled))
  }

  ghost function Step(c: Config, s: System, a: Action): System
    requires Enabled(c, s, a)
  {
    match a
    case PumpStep => Pumped(c, s)
    // a task cancelled before it ever ran does not reach its `finally`
    case PumpAbort => if s.pump == Created then s.(pump := Over) else Put(s.(pump := Over), [End])
    case Serve => s.(ferry := Serving)
    case Refuse => s.(ferry := Refused)
    case Take =>
      if s.queue[0].End? then FerryEnds(c, s.(queue := s.queue[1..]), true)
      else s.(queue := s.queue[1..], inFlight := Some(s.queue[0].line))
    case Deliver => s.(inFlight := None, received := s.received + [s.inFlight.value])
    case Heartbeat => s.(inFlight := Some(Ping))
    case Disconnect => FerryEnds(c, s, false)
    case Persist => s.(saved := Some(Summary(c, s.sink)))
  }

  // ---- The persist step --------------------------------------------------------------------

  function CallStatus(status: Status): Calls.Status {
    match status
    case Failed => Calls.Failed
    case ClientCancelled => Calls.ClientCancelled
    case _ => Calls.Success
  }

  /** The judge row restored from the sink of a forwarded stream. */
  ghost function JudgeRow(c: Config, s: Sink): Calls.Outcome {
    c.judge.(content := if s.status == Failed then "" else Concat(s.parts),
             toolCalls := CallList(Merge(s.fragments)),
             status := CallStatus(s.status), error := s.error,
             usage := UsageOr0(s.usage))
  }

  ghost function FinalRows(c: Config, s: Sink): seq<Calls.Outcome> {
    if s.forwarding then [JudgeRow(c, s)]
    else match s.result
         case Some(r) => [r.judge]
         case None => []
  }

  function UsageOr0(usage: Option<Calls.Usage>): Calls.Usage {
    match usage case Some(u) => u case None => Calls.NO_USAGE
  }

  /** The usage of the final call, as the persist step adds it to the totals. */
  function FinalUsage(s: Sink): Calls.Usage {
    if s.result.Some? && !s.forwarding then s.result.value.judge.usage else UsageOr0(s.usage)
  }

  ghost function Summary(c: Config, s: Sink): Saved {
    var rows := s.rows + FinalRows(c, s);
    var finished := if s.forwarding then None else s.result;
    Saved(
      if s.result.Some? && s.result.value.degraded && s.status == Success then Degraded else s.status,
      if finished.Some? then finished.value.content else Concat(s.parts),
      if finished.Some? then finished.value.finish else s.finish,
      rows,
      c.base.prompt + Calls.SumOf(s.rows, Calls.Prompt) + FinalUsage(s).prompt,
      c.base.completion + Calls.SumOf(s.rows, Calls.Completion) + FinalUsage(s).completion)
  }

  /** The loops of the persist step over the recorded outcomes. */
  method RequestTotals(base: Calls.Usage, rows: seq<Calls.Outcome>, final: Calls.Usage) returns (prompt: nat, completion: nat)
    ensures prompt == base.prompt + Calls.SumOf(rows, Calls.Prompt) + final.prompt
    ensures completion == base.completion + Calls.SumOf(rows, Calls.Completion) + final.completion
  {
    hide Calls.SumOf;
    prompt, completion := base.prompt, base.completion;
    Calls.UsageOfNone();
    assert rows[..0] == [];
    for i := 0 to |rows|
      invariant prompt == base.prompt + Calls.SumOf(rows[..i], Calls.Prompt)
      invariant completion == base.completion + Calls.SumOf(rows[..i], Calls.Completion)
    {
      assert rows[..i + 1] == rows[..i] + [rows[i]];
      Calls.SumOfConcat(rows[..i], [rows[i]], Calls.Prompt);
      Calls.SumOfConcat(rows[..i], [rows[i]], Calls.Completion);
      Calls.SumOfOne(rows[i], Calls.Prompt);
      Calls.SumOfOne(rows[i], Calls.Completion);
      prompt := prompt + rows[i].usage.prompt;
      completion := completion + rows[i].usage.completion;
    }
    assert rows[..|rows|] == rows;
    prompt, completion := prompt + final.prompt, completion + final.completion;
  }

  // ---- The invariant -----------------------------------------------------------------------

  /** All the lines that have been sent, apart from the end marker. */
  ghost predicate SentIs(c: Config, s: System)
    requires s.pos <= |c.script.effects|
  {
    var done := LinesOf(c.script.effects[..s.pos]);
    match s.pump
    case Created => s.pos == 0 && s.sent == []
    case Active => s.sent == Items(done)
    case Over =>
      || (s.cancelAsked && !c.detach && s.ferry == Gone && (s.sent == Items(done) + [End] || (s.pos == 0 && s.sent == [])))
      || (s.pos == |c.script.effects| && s.sent == Items(AllLines(c.script)) + [End])
  }

  function AllLines(script: Script): seq<Line> {
    LinesOf(script.effects) + (match script.failure case Some(lines) => lines case None => [])
  }

  function FinalStatus(c: Config): Status {
    if c.script.failure.Some? then Failed else AppliedAll(c.initial, c.script.effects).status
  }

  function FinalError(c: Config): string {
    if c.script.failure.Some? then c.script.error else AppliedAll(c.initial, c.script.effects).error
  }

  /** The sink is what the steps done so far make of it, except for the status, which the end of the pump
      and a client that leaves may have set, and the error, which the end of the pump may have. */
  ghost predicate SinkIs(c: Config, s: System)
    requires s.pos <= |c.script.effects|
  {
    && var done := AppliedAll(c.initial, c.script.effects[..s.pos]);
    && s.sink.(status := Pending, error := "") == done.(status := Pending, error := "")
    && (if s.pump != Over then s.sink.error == done.error
        else s.sink.error == FinalError(c) || (s.ferry == Gone && !c.detach && s.sink.error == done.error))
    && s.sink.status ==
         if s.ferry == Gone && !c.detach then ClientCancelled
         else if s.pump == Over then FinalStatus(c)
         else done.status
  }

  /** Nothing is lost or duplicated between the pump and the client. */
  ghost predicate Conserved(s: System) {
    var got := Items(WithoutPings(s.received + (if s.inFlight.Some? then [s.inFlight.value] else [])));
    match s.ferry
    case NotServing => s.received == [] && s.inFlight == None && s.queue == s.sent
    case Refused => s.received == [] && s.inFlight == None && s.queue == s.sent
    case Serving => got + s.queue == s.sent
    case Drained => s.inFlight == None && got + [End] == s.sent && s.queue == []
    case Gone => s.inFlight == None && got <= s.sent
  }

  ghost predicate WellFormedConfig(c: Config) {
    && Ping !in AllLines(c.script)
    && c.initial.status == ClientCancelled
  }

  ghost predicate Inv(c: Config, s: System) {
    && s.pos <= |c.script.effects|
    && (s.cancelAsked ==> !c.detach && (s.ferry == Gone || (s.ferry == Drained && s.pump == Over)))
    && (s.ferry == Gone && !c.detach ==> s.cancelAsked)
    && (s.ferry == Drained ==> s.pump == Over)
    && (s.ferry == Refused ==> s.pump == Over && s.pos < c.script.gate)
    && (s.ferry in {Serving, Drained, Gone} ==> s.pos >= c.script.gate)
    && SentIs(c, s) && SinkIs(c, s) && Conserved(s)
    && (s.saved.Some? ==> (s.ferry == Drained || s.ferry == Gone) && s.pump == Over && s.saved == Some(Summary(c, s.sink)))
  }

  lemma {:induction false} LinesOfSnoc(effects: seq<Effect>, k: nat)
    requires k < |effects|
    ensures LinesOf(effects[..k + 1]) == LinesOf(effects[..k]) + effects[k].lines
  {
    assert effects[..k + 1][..k] == effects[..k];
  }

  lemma {:induction false} AppliedAllSnoc(s: Sink, effects: seq<Effect>, k: nat)
    requires k < |effects|
    ensures AppliedAll(s, effects[..k + 1]) == Applied(AppliedAll(s, effects[..k]), effects[k])
  {
    assert effects[..k + 1][..k] == effects[..k];
  }

  lemma {:induction false} ItemsConcat(a: seq<Line>, b: seq<Line>)
    ensures Items(a + b) == Items(a) + Items(b)
  {
  }

  lemma {:induction false} WithoutPingsSnoc(lines: seq<Line>, line: Line)
    ensures WithoutPings(lines + [line]) == WithoutPings(lines) + (if line.Ping? then [] else [line])
  {
    assert (lines + [line])[..|lines|] == lines;
  }

  lemma {:induction false} InitialInv(c: Config)
    requires WellFormedConfig(c)
    ensures Inv(c, Initial(c))
  {
    assert c.script.effects[..0] == [];
    assert Items([]) == [];
  }

  /** The pump's end of the queue grows, so every client keeps a prefix of it. */
  lemma {:induction false} PutConserves(s: System, items: seq<Item>)
    requires Conserved(s) && s.ferry != Drained
    ensures Conserved(Put(s, items))
  {
  }

  lemma {:induction false} LinesOfNone(effects: seq<Effect>)
    ensures LinesOf(effects[..0]) == [] && Items([]) == []
  {
    assert effects[..0] == [];
  }

  lemma {:induction false} EffectKeepsInv(c: Config, s: System)
    requires Inv(c, s) && Enabled(c, s, PumpStep) && s.pos < |c.script.effects|
    ensures Inv(c, Pumped(c, s))
  {
    hide Conserved, Summary, Items, LinesOf, AppliedAll;
    var effects := c.script.effects;
    LinesOfNone(effects);
    var e := effects[s.pos];
    LinesOfSnoc(effects, s.pos);
    AppliedAllSnoc(c.initial, effects, s.pos);
    ItemsConcat(LinesOf(effects[..s.pos]), e.lines);
    PutConserves(s, Items(e.lines));
    ConservedIgnoresSink(Put(s, Items(e.lines)), Pumped(c, s));
    assert [] + Items(e.lines) == Items(e.lines);
  }

  lemma {:induction false} EndKeepsInv(c: Config, s: System)
    requires Inv(c, s) && Enabled(c, s, PumpStep) && s.pos == |c.script.effects|
    ensures Inv(c, Pumped(c, s))
  {
    hide Conserved, Summary, Items, LinesOf, AppliedAll;
    var effects := c.script.effects;
    LinesOfNone(effects);
    assert effects[..s.pos] == effects;
    var failed := match c.script.failure case Some(lines) => lines case None => [];
    ItemsConcat(LinesOf(effects), failed);
    PutConserves(s, Items(failed) + [End]);
    assert Items([]) + [End] == [End];
    assert LinesOf(effects) + [] == LinesOf(effects);
    ConservedIgnoresSink(Put(s, Items(failed) + [End]), Pumped(c, s));
  }

  lemma {:induction false} PumpKeepsInv(c: Config, s: System)
    requires Inv(c, s) && Enabled(c, s, PumpStep)
    ensures Inv(c, Pumped(c, s))
  {
    assert s.pos <= |c.script.effects|;
    hide Inv, Pumped;
    if s.pos < |c.script.effects| {
      EffectKeepsInv(c, s);
    } else {
      EndKeepsInv(c, s);
    }
  }

  lemma {:induction false} ConservedIgnoresSink(s: System, t: System)
    requires Conserved(s) && s.ferry == t.ferry && s.received == t.received && s.inFlight == t.inFlight && s.queue == t.queue && s.sent == t.sent
    ensures Conserved(t)
  {
  }

  lemma {:induction false} AbortKeepsInv(c: Config, s: System)
    requires Inv(c, s) && Enabled(c, s, PumpAbort)
    ensures Inv(c, Step(c, s, PumpAbort))
  {
    hide Conserved, Summary;
    PutConserves(s, [End]);
    ConservedIgnoresSink(Put(s, [End]), Put(s.(pump := Over), [End]));
    ConservedIgnoresSink(s, s.(pump := Over));
    assert Items(LinesOf(c.script.effects[..s.pos])) + [End] == Items(LinesOf(c.script.effects[..s.pos])) + [End];
  }

  /** Lines sent are chunks; the end marker is the last item. */
  lemma {:induction false} SentShape(c: Config, s: System, i: nat)
    requires Inv(c, s) && i < |s.sent|
    ensures s.sent[i].End? ==> i == |s.sent| - 1 && s.pump == Over
    ensures s.sent[i].Chunk? ==> s.sent[i].line in AllLines(c.script)
  {
    var effects := c.script.effects;
    PrefixLines(effects, s.pos);
  }

  lemma {:induction false} PrefixLines(effects: seq<Effect>, k: nat)
    requires k <= |effects|
    ensures LinesOf(effects[..k]) <= LinesOf(effects)
    decreases |effects| - k
  {
    if k < |effects| {
      PrefixLines(effects, k + 1);
      LinesOfSnoc(effects, k);
    } else {
      assert effects[..k] == effects;
    }
  }

  lemma {:induction false} TakeLineConserves(s: System)
    requires s.ferry == Serving && s.inFlight == None && Conserved(s)
    requires s.queue != [] && s.queue[0].Chunk? && !s.queue[0].line.Ping?
    ensures Conserved(s.(queue := s.queue[1..], inFlight := Some(s.queue[0].line)))
  {
    hide WithoutPings;
    var line := s.queue[0].line;
    WithoutPingsSnoc(s.received, line);
    assert s.received + [] == s.received;
    assert Items(WithoutPings(s.received) + [line]) == Items(WithoutPings(s.received)) + [s.queue[0]];
    assert s.queue == [s.queue[0]] + s.queue[1..];
  }

  lemma {:induction false} TakeEndConserves(s: System)
    requires s.ferry == Serving && s.inFlight == None && Conserved(s) && s.queue == [End]
    ensures Conserved(s.(ferry := Drained, queue := []))
  {
    hide WithoutPings;
    assert s.received + [] == s.received;
  }

  lemma {:induction false} TakeKeepsConserved(c: Config, s: System)
    requires Inv(c, s) && Enabled(c, s, Take) && WellFormedConfig(c)
    ensures Conserved(Step(c, s, Take))
    ensures s.queue[0].End? ==> s.pump == Over
  {
    hide Summary, SinkIs, SentIs, WithoutPings, Items, AllLines;
    assert s.received + [] == s.received;
    var n := |s.sent| - |s.queue|;
    assert s.sent[n] == s.queue[0];
    SentShape(c, s, n);
    if s.queue[0].End? {
      assert s.queue == [End];
      TakeEndConserves(s);
      ConservedIgnoresSink(s.(ferry := Drained, queue := []), Step(c, s, Take));
    } else {
      TakeLineConserves(s);
      ConservedIgnoresSink(s.(queue := s.queue[1..], inFlight := Some(s.queue[0].line)), Step(c, s, Take));
    }
  }

  lemma {:induction false} DeliverConserves(s: System)
    requires s.ferry == Serving && s.inFlight.Some? && Conserved(s)
    ensures Conserved(s.(inFlight := None, received := s.received + [s.inFlight.value]))
  {
    hide WithoutPings, Items;
    assert s.received + [s.inFlight.value] + [] == s.received + [s.inFlight.value];
  }

  lemma {:induction false} HeartbeatConserves(s: System)
    requires s.ferry == Serving && s.inFlight == None && Conserved(s)
    ensures Conserved(s.(inFlight := Some(Ping)))
  {
    WithoutPingsSnoc(s.received, Ping);
    hide WithoutPings, Items;
    assert s.received + [] == s.received;
    assert WithoutPings(s.received) + [] == WithoutPings(s.received);
  }

  lemma {:induction false} ServeConserves(s: System)
    requires s.ferry == NotServing && Conserved(s)
    ensures Conserved(s.(ferry := Serving)) && Conserved(s.(ferry := Refused))
  {
    assert Items(WithoutPings([] + [])) == [];
    assert [] + s.queue == s.queue;
  }

  lemma {:induction false} TakeKeepsInv(c: Config, s: System)
    requires Inv(c, s) && Enabled(c, s, Take) && WellFormedConfig(c)
    ensures Inv(c, Step(c, s, Take))
  {
    TakeKeepsConserved(c, s);
    hide Conserved, Summary, AppliedAll, LinesOf, AllLines;
  }

  /** Serving, delivering and pinging change nothing but the ferry's own fields. */
  lemma {:induction false} FerryKeepsInv(c: Config, s: System, a: Action)
    requires Inv(c, s) && Enabled(c, s, a) && (a.Deliver? || a.Heartbeat? || a.Serve? || a.Refuse?)
    ensures Inv(c, Step(c, s, a))
  {
    hide Summary, AppliedAll, LinesOf, AllLines, Conserved;
    match a {
      case Deliver => DeliverConserves(s);
      case Heartbeat => HeartbeatConserves(s);
      case Serve => ServeConserves(s);
      case Refuse => ServeConserves(s);
    }
  }

  lemma {:induction false} DisconnectKeepsInv(c: Config, s: System)
    requires Inv(c, s) && Enabled(c, s, Disconnect)
    ensures Inv(c, Step(c, s, Disconnect))
  {
    hide Summary, AppliedAll, LinesOf, AllLines, Conserved;
    DisconnectKeepsConserved(c, s);
  }

  lemma {:induction false} DisconnectKeepsConserved(c: Config, s: System)
    requires Conserved(s) && s.ferry == Serving
    ensures Conserved(FerryEnds(c, s, false))
  {
    var flight := if s.inFlight.Some? then [s.inFlight.value] else [];
    if s.inFlight.Some? {
      WithoutPingsSnoc(s.received, s.inFlight.value);
    }
    assert s.received + [] == s.received;
    assert Items(WithoutPings(s.received)) <= Items(WithoutPings(s.received + flight));
  }

  lemma {:induction false} StepKeepsInv(c: Config, s: System, a: Action)
    requires Inv(c, s) && Enabled(c, s, a) && WellFormedConfig(c)
    ensures Inv(c, Step(c, s, a))
  {
    match a {
      case PumpStep => PumpKeepsInv(c, s);
      case PumpAbort => AbortKeepsInv(c, s);
      case Persist => ConservedIgnoresSink(s, Step(c, s, a));
      case Take => TakeKeepsInv(c, s);
      case Disconnect => DisconnectKeepsInv(c, s);
      case _ => FerryKeepsInv(c, s, a);
    }
  }

  // ---- Every interleaving ------------------------------------------------------------------

  /** `s` after a run of actions; None when one of them is not enabled when its turn comes. */
  ghost function After(c: Config, s: System, run: seq<Action>): Option<System> {
    if run == [] then Some(s)
    else
      match After(c, s, run[..|run| - 1])
      case None => None
      case Some(t) => if Enabled(c, t, run[|run| - 1]) then Some(Step(c, t, run[|run| - 1])) else None
  }

  ghost predicate Reachable(c: Config, s: System) {
    exists run :: After(c, Initial(c), run) == Some(s)
  }

  lemma {:induction false} ReachableInv(c: Config, run: seq<Action>)
    requires WellFormedConfig(c) && After(c, Initial(c), run).Some?
    ensures Inv(c, After(c, Initial(c), run).value)
  {
    if run == [] {
      InitialInv(c);
    } else {
      ReachableInv(c, run[..|run| - 1]);
      StepKeepsInv(c, After(c, Initial(c), run[..|run| - 1]).value, run[|run| - 1]);
    }
  }

  /** What the client has, heartbeats aside, is always a prefix of what was sent, and all of it once the
      stream is drained - which is then all the pump had to say. */
  lemma {:induction false} ClientSeesPrefix(c: Config, s: System)
    requires WellFormedConfig(c) && Reachable(c, s)
    ensures Items(WithoutPings(s.received)) <= s.sent
    ensures s.ferry == Drained ==> s.pump == Over && s.pos == |c.script.effects| && WithoutPings(s.received) == AllLines(c.script)
  {
    var run :| After(c, Initial(c), run) == Some(s);
    ReachableInv(c, run);
    if s.inFlight.Some? {
      WithoutPingsSnoc(s.received, s.inFlight.value);
    }
    assert s.received + [] == s.received;
    var got := WithoutPings(s.received);
    if s.ferry == Drained {
      ItemsInjective(got, AllLines(c.script));
    }
  }

  lemma {:induction false} ItemsInjective(a: seq<Line>, b: seq<Line>)
    ensures Items(a) + [End] == Items(b) + [End] ==> a == b
  {
    var x, y := Items(a) + [End], Items(b) + [End];
    if x == y {
      assert |a| == |x| - 1 == |b|;
      forall i | 0 <= i < |a| ensures a[i] == b[i] {
        assert x[i] == y[i];
      }
    }
  }

  /** Nothing is persisted before the pump is over, and then once, with a terminal status. Detached, the
      record depends on the upstream alone; attached, success means that the client got everything. */
  lemma {:induction false} PersistedRecord(c: Config, s: System)
    requires WellFormedConfig(c) && Reachable(c, s) && s.saved.Some?
    ensures s.pump == Over && s.saved.value.status in {Success, Degraded, Failed, ClientCancelled}
    ensures c.detach ==>
      s.saved.value == Summary(c, AppliedAll(c.initial, c.script.effects).(status := FinalStatus(c), error := FinalError(c)))
    ensures !c.detach && s.saved.value.status in {Success, Degraded} ==>
      s.ferry == Drained && WithoutPings(s.received) == AllLines(c.script)
    ensures !c.detach && s.ferry == Gone ==> s.saved.value.status == ClientCancelled
  {
    hide Conserved, SentIs;
    var run :| After(c, Initial(c), run) == Some(s);
    ReachableInv(c, run);
    ClientSeesPrefix(c, s);
    StatusTerminal(c, c.script.effects[..s.pos]);
    StatusTerminal(c, c.script.effects);
    assert c.script.effects[..|c.script.effects|] == c.script.effects;
    if c.detach {
      DetachedRunsToTheEnd(c, s);
      assert s.sink == AppliedAll(c.initial, c.script.effects).(status := FinalStatus(c), error := FinalError(c));
    }
  }

  /** A pump that nobody cut short has sent its whole script and left what the script's steps leave. */
  lemma {:induction false} UninterruptedPump(c: Config, s: System)
    requires WellFormedConfig(c) && Reachable(c, s) && s.pump == Over && (s.ferry == Gone ==> c.detach)
    ensures s.sent == Items(AllLines(c.script)) + [End]
    ensures s.sink == AppliedAll(c.initial, c.script.effects).(status := FinalStatus(c), error := FinalError(c))
  {
    hide Conserved, Summary;
    var run :| After(c, Initial(c), run) == Some(s);
    ReachableInv(c, run);
    assert c.script.effects[..|c.script.effects|] == c.script.effects;
  }

  lemma {:induction false} DetachedRunsToTheEnd(c: Config, s: System)
    requires Inv(c, s) && c.detach && s.pump == Over
    ensures s.pos == |c.script.effects|
  {
  }

  lemma {:induction false} StatusTerminal(c: Config, effects: seq<Effect>)
    requires WellFormedConfig(c)
    ensures AppliedAll(c.initial, effects).status in {Success, ClientCancelled}
  {
    if effects != [] {
      StatusTerminal(c, effects[..|effects| - 1]);
    }
  }

  // ---- What is persisted, against what was sent --------------------------------------------

  function SentLines(sent: seq<Item>): seq<Line> {
    if sent == [] then []
    else SentLines(sent[..|sent| - 1]) + (if sent[|sent| - 1].Chunk? then [sent[|sent| - 1].line] else [])
  }

  lemma {:induction false} SentLinesOf(lines: seq<Line>)
    ensures SentLines(Items(lines)) == lines
    ensures SentLines(Items(lines) + [End]) == lines
  {
    var items := Items(lines);
    assert (items + [End])[..|items|] == items;
    if lines != [] {
      SentLinesOf(lines[..|lines| - 1]);
      assert items[..|items| - 1] == Items(lines[..|lines| - 1]);
    }
  }

  lemma {:induction false} TextOfSnoc(lines: seq<Line>, line: Line)
    ensures TextOf(lines + [line]) == TextOf(lines) + (if line.ContentLine? then line.text else "")
    ensures ToolsOf(lines + [line]) == ToolsOf(lines) + (if line.ToolLine? then line.fragments else [])
  {
    assert (lines + [line])[..|lines|] == lines;
  }

  lemma {:induction false} TextOfConcat(a: seq<Line>, b: seq<Line>)
    ensures TextOf(a + b) == TextOf(a) + TextOf(b)
    ensures ToolsOf(a + b) == ToolsOf(a) + ToolsOf(b)
  {
    if b == [] {
      assert a + b == a;
    } else {
      hide TextOf, ToolsOf;
      var init, last := b[..|b| - 1], b[|b| - 1];
      TextOfConcat(a, init);
      SplitLast(a, b);
      TextOfSnoc(a + init, last);
      TextOfSnoc(init, last);
      AppendAssociates(TextOf(a), TextOf(init), if last.ContentLine? then last.text else "");
      AppendAssociates(ToolsOf(a), ToolsOf(init), if last.ToolLine? then last.fragments else []);
    }
  }

  /** Every step records exactly the content and the tool fragments it sends; an error sends none. */
  ghost predicate Faithful(script: Script) {
    && (forall k :: 0 <= k < |script.effects| ==> FaithfulEffect(script.effects[k]))
    && (script.failure.Some? ==> TextOf(script.failure.value) == "" && ToolsOf(script.failure.value) == [])
  }

  ghost predicate FaithfulEffect(e: Effect) {
    TextOf(e.lines) == e.text && ToolsOf(e.lines) == e.fragments
  }

  lemma {:induction false} RecordedWhatWasSent(c: Config, k: nat)
    requires Faithful(c.script) && k <= |c.script.effects| && c.initial.parts == [] && c.initial.fragments == []
    ensures var sink := AppliedAll(c.initial, c.script.effects[..k]); var lines := LinesOf(c.script.effects[..k]);
      Concat(sink.parts) == TextOf(lines) && sink.fragments == ToolsOf(lines)
  {
    if k > 0 {
      RecordedWhatWasSent(c, k - 1);
      var e := c.script.effects[k - 1];
      LinesOfSnoc(c.script.effects, k - 1);
      AppliedAllSnoc(c.initial, c.script.effects, k - 1);
      TextOfConcat(LinesOf(c.script.effects[..k - 1]), e.lines);
      ConcatAppend(AppliedAll(c.initial, c.script.effects[..k - 1]).parts, e.text);
      assert FaithfulEffect(e);
    }
  }

  lemma {:induction false} AllLinesText(script: Script)
    requires Faithful(script)
    ensures TextOf(AllLines(script)) == TextOf(LinesOf(script.effects)) && ToolsOf(AllLines(script)) == ToolsOf(LinesOf(script.effects))
  {
    TextOfConcat(LinesOf(script.effects), match script.failure case Some(lines) => lines case None => []);
  }

  lemma {:induction false} SentText(c: Config, s: System)
    requires Inv(c, s) && Faithful(c.script)
    ensures TextOf(SentLines(s.sent)) == TextOf(LinesOf(c.script.effects[..s.pos]))
    ensures ToolsOf(SentLines(s.sent)) == ToolsOf(LinesOf(c.script.effects[..s.pos]))
  {
    hide Conserved, SinkIs, Summary, LinesOf, AllLines, TextOf, ToolsOf, SentLines, Items;
    var done := LinesOf(c.script.effects[..s.pos]);
    SentLinesOf(done);
    SentLinesOf(AllLines(c.script));
    SentLinesOf([]);
    AllLinesText(c.script);
    assert s.pos == |c.script.effects| ==> c.script.effects[..s.pos] == c.script.effects;
    if s.sent == [] {
      NothingSent(c.script.effects);
      ItemsEmpty(done);
    }
  }

  lemma {:induction false} NothingSent(effects: seq<Effect>)
    ensures LinesOf(effects[..0]) == [] && TextOf([]) == "" && ToolsOf([]) == [] && SentLines([]) == []
  {
    assert effects[..0] == [];
  }

  lemma {:induction false} ItemsEmpty(lines: seq<Line>)
    ensures |Items(lines)| == |lines|
  {
  }

  /** At every moment the recorded content is the content of the lines sent so far, and merging the
      recorded fragments is merging the fragments sent so far. */
  lemma {:induction false} ContentIsWhatWasSent(c: Config, s: System)
    requires WellFormedConfig(c) && Reachable(c, s) && Faithful(c.script)
    requires c.initial.parts == [] && c.initial.fragments == []
    ensures Concat(s.sink.parts) == TextOf(SentLines(s.sent)) && s.sink.fragments == ToolsOf(SentLines(s.sent))
    ensures s.ferry == Drained ==>
      Concat(s.sink.parts) == TextOf(WithoutPings(s.received)) && s.sink.fragments == ToolsOf(WithoutPings(s.received))
  {
    var run :| After(c, Initial(c), run) == Some(s);
    ReachableInv(c, run);
    ClientSeesPrefix(c, s);
    hide LinesOf, AllLines, TextOf, ToolsOf, SentLines, Items, AppliedAll, Faithful, Summary;
    RecordedWhatWasSent(c, s.pos);
    SentText(c, s);
    AllLinesText(c.script);
    assert s.pos == |c.script.effects| ==> c.script.effects[..s.pos] == c.script.effects;
  }

  // ---- Call rows and totals ----------------------------------------------------------------

  function RowsOf(effects: seq<Effect>): seq<Calls.Outcome> {
    if effects == [] then [] else RowsOf(effects[..|effects| - 1]) + effects[|effects| - 1].rows
  }

  lemma {:induction false} SinkRows(s: Sink, effects: seq<Effect>)
    ensures AppliedAll(s, effects).rows == s.rows + RowsOf(effects)
  {
    if effects != [] {
      SinkRows(s, effects[..|effects| - 1]);
    } else {
      assert s.rows + [] == s.rows;
    }
  }

  /** Usage is reported only for a final call that has begun. */
  ghost predicate UsageNeedsFinal(c: Config) {
    forall k :: 0 <= k <= |c.script.effects| ==>
      var sink := AppliedAll(c.initial, c.script.effects[..k]); sink.usage.Some? ==> sink.forwarding
  }

  /** The totals begin with the input and output tokens of the calls logged before the stream. The cached
      part of `base` is not added up and may be anything. */
  ghost predicate StartsFrom(base: Calls.Usage, pre: seq<Calls.Outcome>) {
    base.prompt == Calls.SumOf(pre, Calls.Prompt) && base.completion == Calls.SumOf(pre, Calls.Completion)
  }

  /** Wherever the persist step runs, and whatever was cut off: every outcome the pump took from the
      strategy is a row exactly once, in order, followed by the final call's row if that had begun, and
      the request totals are the sums over all rows logged for the request, those written before the
      stream included. */
  lemma {:induction false} PersistedRows(c: Config, s: System, pre: seq<Calls.Outcome>)
    requires WellFormedConfig(c) && Reachable(c, s) && s.saved.Some?
    requires c.initial.rows == [] && UsageNeedsFinal(c)
    requires StartsFrom(c.base, pre)
    ensures s.pos <= |c.script.effects|
    ensures s.saved.value.rows == RowsOf(c.script.effects[..s.pos]) + FinalRows(c, s.sink)
    ensures s.saved.value.promptTokens == Calls.SumOf(pre + s.saved.value.rows, Calls.Prompt)
    ensures s.saved.value.completionTokens == Calls.SumOf(pre + s.saved.value.rows, Calls.Completion)
    ensures c.detach ==> s.pos == |c.script.effects|
  {
    hide Conserved, SentIs, Calls.SumOf, CallList, LinesOf, AllLines;
    var run :| After(c, Initial(c), run) == Some(s);
    ReachableInv(c, run);
    SinkRows(c.initial, c.script.effects[..s.pos]);
    assert [] + RowsOf(c.script.effects[..s.pos]) == RowsOf(c.script.effects[..s.pos]);
    if c.detach {
      DetachedRunsToTheEnd(c, s);
    }
    FinalRowUsage(c, s.sink, Calls.Prompt);
    FinalRowUsage(c, s.sink, Calls.Completion);
    Calls.SumOfConcat(s.sink.rows, FinalRows(c, s.sink), Calls.Prompt);
    Calls.SumOfConcat(s.sink.rows, FinalRows(c, s.sink), Calls.Completion);
    Calls.SumOfConcat(pre, s.saved.value.rows, Calls.Prompt);
    Calls.SumOfConcat(pre, s.saved.value.rows, Calls.Completion);
  }

  lemma {:induction false} FinalRowUsage(c: Config, s: Sink, kind: Calls.Tokens)
    requires s.usage.Some? ==> s.forwarding
    ensures Calls.SumOf(FinalRows(c, s), kind) == FinalUsage(s).Get(kind)
  {
    hide CallList;
    if s.forwarding {
      Calls.SumOfOne(JudgeRow(c, s), kind);
    } else if s.result.Some? {
      Calls.SumOfOne(s.result.value.judge, kind);
    } else {
      assert Calls.Column([], kind) == [];
    }
  }

  // ---- Progress ----------------------------------------------------------------------------

  /** Once the pump is over, an end marker waits for a ferry that still serves. */
  lemma {:induction false} EndIsQueued(c: Config, s: System)
    requires Inv(c, s) && s.pump == Over && s.ferry == Serving && s.inFlight == None
    ensures s.queue != []
  {
    hide SinkIs, Summary, LinesOf, AllLines, WithoutPings, Items;
    assert s.received + [] == s.received;
    assert s.sent[|s.sent| - 1] == End;
    if s.queue == [] {
      assert Items(WithoutPings(s.received)) == s.sent;
      NoEndAmongLines(WithoutPings(s.received));
    }
  }

  lemma {:induction false} NoEndAmongLines(lines: seq<Line>)
    ensures forall i :: 0 <= i < |Items(lines)| ==> Items(lines)[i] != End
  {
  }

  /** Until the request is persisted or refused, some step other than a heartbeat or a disconnect can
      be taken. */
  lemma {:induction false} NeverStuck(c: Config, s: System)
    requires WellFormedConfig(c) && Inv(c, s) && s.saved == None && s.ferry != Refused
    ensures exists a :: Enabled(c, s, a) && !a.Heartbeat? && !a.Disconnect?
  {
    hide SinkIs, SentIs, Conserved, Summary;
    if s.pump != Over {
      assert Enabled(c, s, if s.cancelAsked then PumpAbort else PumpStep);
    } else if s.ferry == NotServing {
      assert Enabled(c, s, if s.pos >= c.script.gate then Serve else Refuse);
    } else if s.ferry == Serving {
      if s.inFlight.Some? {
        assert Enabled(c, s, Deliver);
      } else {
        EndIsQueued(c, s);
        assert Enabled(c, s, Take);
      }
    } else {
      assert Enabled(c, s, Persist);
    }
  }

  function FerryWork(f: FerryPhase): nat {
    match f case NotServing => 2 case Serving => 1 case _ => 0
  }

  /** What is left to do, heartbeats not counted. */
  ghost function Work(c: Config, s: System): int {
    (if s.pump == Over then 0 else |c.script.effects| - s.pos + 1)
      + 3 * (|AllLines(c.script)| + 1 - |s.sent|) + 2 * |s.queue|
      + (if s.inFlight.Some? && !s.inFlight.value.Ping? then 1 else 0)
      + FerryWork(s.ferry) + (if s.saved.Some? then 0 else 1)
  }

  lemma {:induction false} WorkBound(c: Config, s: System)
    requires Inv(c, s)
    ensures |s.sent| <= |AllLines(c.script)| + 1 && Work(c, s) >= 0
  {
    PrefixLines(c.script.effects, s.pos);
  }

  /** Every step but a heartbeat and its delivery brings the stream nearer to its end, so a run has only
      boundedly many others. */
  lemma {:induction false} StepReducesWork(c: Config, s: System, a: Action)
    requires WellFormedConfig(c) && Inv(c, s) && Enabled(c, s, a)
    ensures if a.Heartbeat? || (a.Deliver? && s.inFlight.value.Ping?) then Work(c, Step(c, s, a)) == Work(c, s)
            else Work(c, Step(c, s, a)) < Work(c, s)
    ensures Work(c, s) >= 0
  {
    hide Summary, SinkIs, Conserved, LinesOf, WithoutPings;
    WorkBound(c, s);
    if a.Take? && s.queue[0].Chunk? {
      TakeKeepsConserved(c, s);
      var n := |s.sent| - |s.queue|;
      QueueIsTail(s);
      SentShape(c, s, n);
    }
  }

  lemma {:induction false} AfterSnoc(c: Config, s: System, run: seq<Action>, a: Action)
    ensures After(c, s, run + [a]) == match After(c, s, run)
      case None => None
      case Some(t) => if Enabled(c, t, a) then Some(Step(c, t, a)) else None
  {
    hide Enabled, Step;
    assert (run + [a])[..|run|] == run;
  }

  lemma {:induction false} AfterFirst(c: Config, s: System, a: Action, run: seq<Action>)
    requires Enabled(c, s, a)
    ensures After(c, s, [a] + run) == After(c, Step(c, s, a), run)
  {
    if run == [] {
      assert [a] + run == [] + [a];
      AfterSnoc(c, s, [], a);
    } else {
      hide After, Enabled, Step;
      var front, last := run[..|run| - 1], run[|run| - 1];
      AfterFirst(c, s, a, front);
      SplitLast([a], run);
      AfterSnoc(c, s, [a] + front, last);
      AfterSnoc(c, Step(c, s, a), front, last);
    }
  }

  lemma {:induction false} OnlyLeaving(c: Config, s: System, a: Action)
    requires Enabled(c, s, a) && s.ferry != Gone && !a.Disconnect?
    ensures Step(c, s, a).ferry != Gone
  {
  }

  /** However far a stream has come, it can be brought to its end without the client doing anything: some
      run of further steps, without a disconnect, leads to a persisted or a refused request. */
  lemma {:induction false} CanEnd(c: Config, s: System) returns (run: seq<Action>)
    requires WellFormedConfig(c) && Inv(c, s)
    ensures Disconnect !in run && After(c, s, run).Some?
    ensures var t := After(c, s, run).value;
      (t.saved.Some? || t.ferry == Refused) && (s.ferry != Gone ==> t.ferry != Gone)
    decreases Work(c, s), if s.inFlight.Some? then 1 else 0
  {
    hide Inv, Work, WellFormedConfig, Pumped, FerryEnds, Summary, Put;
    WorkBound(c, s);
    if s.saved.Some? || s.ferry == Refused {
      return [];
    }
    NeverStuck(c, s);
    var a :| Enabled(c, s, a) && !a.Heartbeat? && !a.Disconnect?;
    StepReducesWork(c, s, a);
    StepKeepsInv(c, s, a);
    WorkBound(c, Step(c, s, a));
    assert a.Deliver? ==> Step(c, s, a).inFlight == None;
    if s.ferry != Gone {
      OnlyLeaving(c, s, a);
    }
    hide Step, Enabled;
    var rest := CanEnd(c, Step(c, s, a));
    AfterFirst(c, s, a, rest);
    run := [a] + rest;
  }

  lemma {:induction false} QueueIsTail(s: System)
    requires Conserved(s) && s.ferry == Serving && s.inFlight == None && s.queue != []
    ensures |s.queue| <= |s.sent| && s.sent[|s.sent| - |s.queue|] == s.queue[0]
  {
  }
}
