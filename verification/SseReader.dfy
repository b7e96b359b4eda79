/** The incremental reader of server-sent events in the web client, and the printer on the server. */
module SseReader {
  import opened Prelude
  import opened JsonText

  // ---- The reader --------------------------------------------------------------------------

  /** `buffer.indexOf("\n\n")` */
  function Separator(s: string): (r: Option<nat>)
    ensures r.Some? ==> r.value + 2 <= |s| && s[r.value] == '\n' && s[r.value + 1] == '\n'
    ensures forall i :: 0 <= i < (if r.Some? then r.value else |s| - 1) && i + 1 < |s| ==> !(s[i] == '\n' && s[i + 1] == '\n')
  {
    if |s| < 2 then None
    else if s[0] == '\n' && s[1] == '\n' then Some(0)
    else
      match Separator(s[1..])
      case None => None
      case Some(i) => Some(i + 1)
  }

  /** `block.split("\n")` */
  function Split(block: string): seq<string> {
    if block == [] then [""]
    else
      var rest := Split(block[1..]);
      if block[0] == '\n' then [""] + rest
      else if rest == [] then [[block[0]]]
      else [[block[0]] + rest[0]] + rest[1..]
  }

  const PREFIX := "data: "

  /** The first line that begins with the prefix. */
  function DataLine(lines: seq<string>): (r: Option<string>)
    ensures r.Some? ==> PREFIX <= r.value
  {
    if lines == [] then None
    else if PREFIX <= lines[0] then Some(lines[0])
    else DataLine(lines[1..])
  }

  /** `event.type === "done"`; of equal names the last one counts. */
  predicate IsDone(event: Json) {
    event.Obj? && TypeOf(event.fields) == Some(Str("done"))
  }

  function TypeOf(fields: seq<Field>): Option<Json> {
    if fields == [] then None
    else if fields[|fields| - 1].name == "type" then Some(fields[|fields| - 1].value)
    else TypeOf(fields[..|fields| - 1])
  }

  /** `JSON.parse`; None when it throws. */
  type Parser = string -> Option<Json>

  /** Unread text, the events handed to the callback, and whether the reader has thrown. */
  datatype Reading = Reading(buffer: string, events: seq<Json>, sawDone: bool, thrown: bool)

  /** One block: no data line, or an event for the callback, or an exception - also on `null.type`. */
  function Handle(parse: Parser, r: Reading, block: string): Reading {
    match DataLine(Split(block))
    case None => r
    case Some(line) =>
      match parse(line[|PREFIX|..])
      case None => r.(thrown := true)
      case Some(event) =>
        if event == Null then r.(thrown := true)
        else r.(events := r.events + [event], sawDone := r.sawDone || IsDone(event))
  }

  /** All complete blocks of the buffer, from the left: the whole text at once. */
  function Drain(parse: Parser, r: Reading): Reading
    decreases |r.buffer|
  {
    match Separator(r.buffer)
    case None => r
    case Some(i) =>
      if r.thrown then r
      else Drain(parse, Handle(parse, r.(buffer := r.buffer[i + 2..]), r.buffer[..i]))
  }

  function Whole(text: string): Reading {
    Reading(text, [], false, false)
  }

  predicate SameOutcome(a: Reading, b: Reading) {
    a.events == b.events && a.thrown == b.thrown && a.sawDone == b.sawDone && (!a.thrown ==> a.buffer == b.buffer)
  }

  lemma {:induction false} SeparatorExtends(s: string, more: string)
    ensures Separator(s).Some? ==> Separator(s + more) == Separator(s)
  {
    var t := s + more;
    assert forall i :: 0 <= i < |s| ==> t[i] == s[i];
    var r := Separator(t);
    if Separator(s).Some? {
      assert r.Some? && r.value <= Separator(s).value;
    }
  }

  /** What is left when the first block has been taken off the buffer. */
  function Popped(parse: Parser, r: Reading): Reading
    requires Separator(r.buffer).Some?
  {
    var i := Separator(r.buffer).value;
    Handle(parse, r.(buffer := r.buffer[i + 2..]), r.buffer[..i])
  }

  lemma {:induction false} DrainStep(parse: Parser, r: Reading)
    requires Separator(r.buffer).Some? && !r.thrown
    ensures Drain(parse, r) == Drain(parse, Popped(parse, r))
    ensures Popped(parse, r).buffer == r.buffer[Separator(r.buffer).value + 2..]
  {
    HandleKeepsBuffer(parse, r.(buffer := r.buffer[Separator(r.buffer).value + 2..]), r.buffer[..Separator(r.buffer).value], "");
    hide Handle, Separator;
  }

  /** A block is handled without a look at the buffer. */
  lemma {:induction false} HandleKeepsBuffer(parse: Parser, r: Reading, block: string, buffer: string)
    ensures Handle(parse, r.(buffer := buffer), block) == Handle(parse, r, block).(buffer := buffer)
    ensures Handle(parse, r, block).buffer == r.buffer
  {
    hide DataLine, Split, IsDone;
  }

  /** One block of the buffer: the same with and without more text behind it. */
  lemma {:induction false} DrainBlock(parse: Parser, r: Reading, more: string)
    requires Separator(r.buffer).Some? && !r.thrown
    ensures var next := Popped(parse, r);
      && |next.buffer| < |r.buffer|
      && Drain(parse, r) == Drain(parse, next)
      && Drain(parse, r.(buffer := r.buffer + more)) == Drain(parse, next.(buffer := next.buffer + more))
  {
    hide Handle, Drain, Separator;
    var i := Separator(r.buffer).value;
    var longer := r.(buffer := r.buffer + more);
    SeparatorExtends(r.buffer, more);
    SlicesOfFront(r.buffer, more, i);
    SlicesOfFront(r.buffer, more, i + 2);
    HandleKeepsBuffer(parse, r.(buffer := r.buffer[i + 2..]), r.buffer[..i], r.buffer[i + 2..] + more);
    DrainStep(parse, r);
    DrainStep(parse, longer);
  }

  /** Reading what is complete first and going on with more text is reading all of it at once. */
  lemma {:induction false} DrainMore(parse: Parser, r: Reading, more: string)
    ensures var first := Drain(parse, r); var all := Drain(parse, r.(buffer := r.buffer + more));
      SameOutcome(all, if first.thrown then first else Drain(parse, first.(buffer := first.buffer + more)))
    decreases |r.buffer|
  {
    hide Separator, Handle;
    if r.thrown {
      DrainThrown(parse, r);
      DrainThrown(parse, r.(buffer := r.buffer + more));
    } else if Separator(r.buffer).Some? {
      hide Drain;
      DrainBlock(parse, r, more);
      DrainMore(parse, Popped(parse, r), more);
    }
  }

  lemma {:induction false} DrainThrown(parse: Parser, r: Reading)
    requires r.thrown
    ensures Drain(parse, r) == r
  {
  }

  /** The inner loop: callbacks for the complete blocks of the buffer. */
  method DrainBuffer(parse: Parser, before: Reading) returns (r: Reading)
    requires !before.thrown
    ensures SameOutcome(r, Drain(parse, before))
  {
    hide Drain, DataLine, Split, IsDone;
    var buffer, events, sawDone := before.buffer, before.events, before.sawDone;
    var separator := Separator(buffer);
    while separator.Some?
      invariant separator == Separator(buffer)
      invariant Drain(parse, Reading(buffer, events, sawDone, false)) == Drain(parse, before)
      decreases |buffer|
    {
      DrainStep(parse, Reading(buffer, events, sawDone, false));
      var block := buffer[..separator.value];
      buffer := buffer[separator.value + 2..];
      separator := Separator(buffer);
      var line := DataLine(Split(block));
      if line.None? {
        continue;
      }
      var event := parse(line.value[|PREFIX|..]);
      if event.None? || event.value == Null {
        DrainThrown(parse, Reading(buffer, events, sawDone, true));
        return Reading(buffer, events, sawDone, true);
      }
      if IsDone(event.value) {
        sawDone := true;
      }
      events := events + [event.value];
    }
    DrainEnd(parse, Reading(buffer, events, sawDone, false));
    r := Reading(buffer, events, sawDone, false);
  }

  lemma {:induction false} DrainEnd(parse: Parser, r: Reading)
    requires Separator(r.buffer).None?
    ensures Drain(parse, r) == r
  {
  }

  /** `streamRejudge`: however the text is cut into chunks, the callbacks, the result and any exception
      are those of the whole text. */
  method StreamRejudge(parse: Parser, chunks: seq<string>) returns (r: Reading)
    ensures SameOutcome(r, Drain(parse, Whole(Concat(chunks))))
  {
    DrainEnd(parse, Whole(""));
    hide Drain;
    r := Whole("");
    for k := 0 to |chunks|
      invariant !r.thrown && r == Drain(parse, Whole(Concat(chunks[..k])))
    {
      ConcatAppend(chunks[..k], chunks[k]);
      assert chunks[..k + 1] == chunks[..k] + [chunks[k]];
      DrainMore(parse, Whole(Concat(chunks[..k])), chunks[k]);
      r := DrainBuffer(parse, r.(buffer := r.buffer + chunks[k]));
      if r.thrown {
        ThrownStays(parse, chunks, k + 1);
        return;
      }
    }
    assert chunks[..|chunks|] == chunks;
  }

  /** After an exception the rest of the text does not matter. */
  lemma {:induction false} ThrownStays(parse: Parser, chunks: seq<string>, k: nat)
    requires k <= |chunks| && Drain(parse, Whole(Concat(chunks[..k]))).thrown
    ensures SameOutcome(Drain(parse, Whole(Concat(chunks))), Drain(parse, Whole(Concat(chunks[..k]))))
  {
    ConcatConcat(chunks[..k], chunks[k..]);
    assert chunks == chunks[..k] + chunks[k..];
    DrainMore(parse, Whole(Concat(chunks[..k])), Concat(chunks[k..]));
  }

  // ---- What the reader's steps mean --------------------------------------------------------

  /** Splitting undoes joining: the lines have no line break, and joined by line breaks they are the block. */
  lemma {:induction false} SplitIs(block: string)
    ensures Split(block) != [] && Join("\n", Split(block)) == block
    ensures forall k :: 0 <= k < |Split(block)| ==> '\n' !in Split(block)[k]
  {
    if block != [] {
      SplitIs(block[1..]);
      var rest := Split(block[1..]);
      assert block == [block[0]] + block[1..];
      if block[0] == '\n' {
        assert ([""] + rest)[1..] == rest;
        JoinFirst("\n", "", rest);
      } else {
        assert ([[block[0]] + rest[0]] + rest[1..])[1..] == rest[1..];
        JoinGrows("\n", block[0], rest);
      }
    }
  }

  lemma {:induction false} JoinFirst(separator: string, first: string, rest: seq<string>)
    requires rest != []
    ensures Join(separator, [first] + rest) == first + separator + Join(separator, rest)
  {
    assert ([first] + rest)[1..] == rest;
  }

  lemma {:induction false} JoinGrows(separator: string, c: char, parts: seq<string>)
    requires parts != []
    ensures Join(separator, [[c] + parts[0]] + parts[1..]) == [c] + Join(separator, parts)
  {
    if |parts| == 1 {
      assert [[c] + parts[0]] + parts[1..] == [[c] + parts[0]];
    } else {
      hide Join;
      JoinFirst(separator, [c] + parts[0], parts[1..]);
      SplitFirst(parts);
      JoinFirst(separator, parts[0], parts[1..]);
      AppendAssociates([c], parts[0] + separator, Join(separator, parts[1..]));
      AppendAssociates([c], parts[0], separator);
    }
  }

  /** The data line is the first line that begins with `data: `, if there is one. */
  lemma {:induction false} DataLineIs(lines: seq<string>)
    ensures match DataLine(lines)
            case Some(line) =>
              exists k :: 0 <= k < |lines| && lines[k] == line && "data: " <= line && forall j :: 0 <= j < k ==> !("data: " <= lines[j])
            case None => forall j :: 0 <= j < |lines| ==> !("data: " <= lines[j])
  {
    if lines != [] && !("data: " <= lines[0]) {
      DataLineIs(lines[1..]);
      if DataLine(lines[1..]).Some? {
        var k :| 0 <= k < |lines[1..]| && lines[1..][k] == DataLine(lines).value
              && forall j :: 0 <= j < k ==> !("data: " <= lines[1..][j]);
        forall j | 0 <= j < k + 1 ensures !("data: " <= lines[j]) {
          assert j > 0 ==> lines[j] == lines[1..][j - 1];
        }
        assert lines[k + 1] == DataLine(lines).value;
      } else {
        forall j | 0 <= j < |lines| ensures !("data: " <= lines[j]) {
          assert j > 0 ==> lines[j] == lines[1..][j - 1];
        }
      }
    }
  }

  /** A done event is an object whose last `type` is the text `done`. */
  lemma {:induction false} IsDoneIff(event: Json)
    ensures IsDone(event) <==>
      event.Obj? && exists k :: 0 <= k < |event.fields| && event.fields[k] == Field("type", Str("done"))
                             && forall j :: k < j < |event.fields| ==> event.fields[j].name != "type"
  {
    if event.Obj? {
      TypeIs(event.fields);
    }
  }

  lemma {:induction false} TypeIs(fields: seq<Field>)
    ensures forall v :: TypeOf(fields) == Some(v) <==>
      exists k :: 0 <= k < |fields| && fields[k] == Field("type", v) && forall j :: k < j < |fields| ==> fields[j].name != "type"
  {
    forall v ensures TypeOf(fields) == Some(v) <==>
      exists k :: 0 <= k < |fields| && fields[k] == Field("type", v) && forall j :: k < j < |fields| ==> fields[j].name != "type"
    {
      TypeValue(fields, v);
    }
  }

  lemma {:induction false} TypeValue(fields: seq<Field>, v: Json)
    ensures TypeOf(fields) == Some(v) <==>
      exists k :: 0 <= k < |fields| && fields[k] == Field("type", v) && forall j :: k < j < |fields| ==> fields[j].name != "type"
  {
    if fields != [] {
      var n := |fields| - 1;
      TypeValue(fields[..n], v);
      if fields[n].name == "type" {
        assert fields[n] == Field("type", fields[n].value);
      } else {
        assert forall k :: 0 <= k < n ==> fields[..n][k] == fields[k];
      }
    }
  }

  // ---- The printer -------------------------------------------------------------------------

  /** `_rejudge_sse`: one event as one block. */
  function Block(style: Style, event: Json): string {
    PREFIX + Print(style, [], event) + "\n\n"
  }

  function Blocks(style: Style, events: seq<Json>): string {
    if events == [] then "" else Block(style, events[0]) + Blocks(style, events[1..])
  }

  lemma {:induction false} SplitOneLine(line: string)
    requires OneLine(line)
    ensures Split(line) == [line]
  {
    if line != [] {
      SplitOneLine(line[1..]);
      assert line == [line[0]] + line[1..];
    }
  }

  lemma {:induction false} SeparatorBehindLine(line: string, rest: string)
    requires OneLine(line)
    ensures Separator(line + "\n\n" + rest) == Some(|line|)
  {
    var s := line + "\n\n" + rest;
    assert s[|line|] == '\n' && s[|line| + 1] == '\n';
    assert forall i :: 0 <= i < |line| ==> s[i] == line[i];
  }

  predicate Any(events: seq<Json>) {
    exists e :: e in events && IsDone(e)
  }

  /** A block of one data line is the event it carries. */
  lemma {:induction false} HandleLine(parse: Parser, r: Reading, line: string, event: Json)
    requires Split(line) == [line] && PREFIX <= line && parse(line[|PREFIX|..]) == Some(event) && event != Null
    ensures Handle(parse, r, line) == r.(events := r.events + [event], sawDone := r.sawDone || IsDone(event))
  {
    hide IsDone, Split;
  }

  lemma {:induction false} OneLineBlock(printed: string)
    requires OneLine(printed)
    ensures OneLine(PREFIX + printed)
  {
  }

  /** One printed block at the front of the buffer. */
  lemma {:induction false} DrainPrinted(parse: Parser, style: Style, r: Reading, event: Json, later: string)
    requires OneLineStyle(style) && !r.thrown && r.buffer == Block(style, event) + later
    requires WellFormed(event) && event != Null && parse(Print(style, [], event)) == Some(event)
    ensures Drain(parse, r) == Drain(parse, Reading(later, r.events + [event], r.sawDone || IsDone(event), false))
  {
    hide Drain, Print, Handle, Separator, WellFormed, OneLine, Split, IsDone;
    var printed := Print(style, [], event);
    var line := PREFIX + printed;
    PrintOneLine(style, [], event);
    OneLineBlock(printed);
    SplitOneLine(line);
    SeparatorBehindLine(line, later);
    assert r.buffer == line + "\n\n" + later;
    assert r.buffer[..|line|] == line && r.buffer[|line| + 2..] == later;
    assert line[|PREFIX|..] == printed;
    HandleLine(parse, r.(buffer := later), line, event);
    DrainStep(parse, r);
  }

  lemma {:induction false} AnyStep(events: seq<Json>)
    requires events != []
    ensures Any(events) <==> IsDone(events[0]) || Any(events[1..])
  {
    hide IsDone;
    assert forall e :: e in events <==> e == events[0] || e in events[1..];
  }

  /** The client's parser gives every one of the events back from its text. */
  ghost predicate Readable(parse: Parser, style: Style, events: seq<Json>) {
    forall e :: e in events ==> WellFormed(e) && e != Null && parse(Print(style, [], e)) == Some(e)
  }

  lemma {:induction false} ReadableStep(parse: Parser, style: Style, events: seq<Json>)
    requires events != [] && Readable(parse, style, events)
    ensures WellFormed(events[0]) && events[0] != Null && parse(Print(style, [], events[0])) == Some(events[0])
    ensures Readable(parse, style, events[1..])
  {
    hide WellFormed, Print;
    assert events[0] in events;
    assert forall e :: e in events[1..] ==> e in events;
  }

  lemma {:induction false} BlocksStep(style: Style, events: seq<Json>)
    requires events != []
    ensures Blocks(style, events) == Block(style, events[0]) + Blocks(style, events[1..])
  {
  }

  /** Reading what the server printed gives the events back, in order, and `sawDone` exactly when one of
      them is a done event; nothing is left over. */
  lemma {:induction false} ReaderUndoesPrinter(parse: Parser, style: Style, r: Reading, events: seq<Json>)
    requires OneLineStyle(style) && !r.thrown && r.buffer == Blocks(style, events)
    requires Readable(parse, style, events)
    ensures Drain(parse, r) == Reading("", r.events + events, r.sawDone || Any(events), false)
    decreases |events|
  {
    hide Print, WellFormed, IsDone, Block, OneLineStyle, Readable;
    if events == [] {
      DrainEnd(parse, r);
      assert r.events + events == r.events;
    } else {
      BlocksStep(style, events);
      hide Drain, Any, Blocks;
      var event, later := events[0], Blocks(style, events[1..]);
      ReadableStep(parse, style, events);
      DrainPrinted(parse, style, r, event, later);
      AnyStep(events);
      ReaderUndoesPrinter(parse, style, Reading(later, r.events + [event], r.sawDone || IsDone(event), false), events[1..]);
      AppendAssociates(r.events, [event], events[1..]);
      SplitFirst(events);
    }
  }
}
