/** The adapter base: timed event streams and `complete` with its retries. Times are seconds. */
module Adapter {
  import opened Prelude
  import opened Calls
  import opened ToolDeltas

  // ---- One attempt -------------------------------------------------------------------------

  /** A streamed event; empty fields are absent. `reasoning` counts as activity, never as answer. */
  datatype Event = Event(text: string, reasoning: string, fragments: seq<Fragment>, finish: string, usage: Option<Usage>)

  /** An event and the time the reader waits for it. */
  datatype Arrival = Arrival(gap: real, event: Event)

  datatype Failure = Failure(kind: string, retryable: bool)

  /** What follows the last event: the stream ends, the provider raises, or nothing ever comes. */
  datatype Ending = Exhausted(gap: real) | Raises(gap: real, failure: Failure) | Silent

  /** What an upstream does in one attempt. */
  datatype Source = Source(arrivals: seq<Arrival>, ending: Ending)

  /** How the timed stream ends for its reader. */
  datatype End = Done | Broken(failure: Failure)

  /** The events the reader gets and how its stream ends; `gotEvent` says that there was one before. */
  function Timed(arrivals: seq<Arrival>, ending: Ending, timeout: real, gotEvent: bool): (seq<Event>, End) {
    if arrivals == [] then
      ([],
       match ending
       case Exhausted(gap) => if gap > timeout then Broken(Failure("timeout", !gotEvent)) else Done
       case Raises(gap, failure) => if gap > timeout then Broken(Failure("timeout", !gotEvent)) else Broken(failure)
       case Silent => Broken(Failure("timeout", !gotEvent)))
    else if arrivals[0].gap > timeout then ([], Broken(Failure("timeout", !gotEvent)))
    else
      var (events, end) := Timed(arrivals[1..], ending, timeout, true);
      ([arrivals[0].event] + events, end)
  }

  function Delivered(source: Source, timeout: real): seq<Event> {
    Timed(source.arrivals, source.ending, timeout, false).0
  }

  function EndOf(source: Source, timeout: real): End {
    Timed(source.arrivals, source.ending, timeout, false).1
  }

  function EventsOf(arrivals: seq<Arrival>): seq<Event> {
    seq(|arrivals|, i requires 0 <= i < |arrivals| => arrivals[i].event)
  }

  /** `_timed_events`, as its consumer sees it. */
  method TimedEvents(source: Source, timeout: real) returns (events: seq<Event>, end: End)
    ensures events == Delivered(source, timeout) && end == EndOf(source, timeout)
  {
    events := [];
    var gotEvent := false;
    var k := 0;
    while k < |source.arrivals|
      invariant k <= |source.arrivals| && (gotEvent <==> k > 0)
      invariant var rest := Timed(source.arrivals[k..], source.ending, timeout, gotEvent);
        Delivered(source, timeout) == events + rest.0 && EndOf(source, timeout) == rest.1
    {
      if source.arrivals[k].gap > timeout {
        return events, Broken(Failure("timeout", !gotEvent));
      }
      gotEvent := true;
      assert source.arrivals[k..][1..] == source.arrivals[k + 1..];
      events := events + [source.arrivals[k].event];
      k := k + 1;
    }
    match source.ending
    case Exhausted(gap) =>
      end := if gap > timeout then Broken(Failure("timeout", !gotEvent)) else Done;
    case Raises(gap, failure) =>
      end := if gap > timeout then Broken(Failure("timeout", !gotEvent)) else Broken(failure);
    case Silent =>
      end := Broken(Failure("timeout", !gotEvent));
  }

  predicate NoLongGap(source: Source, timeout: real) {
    && (forall i :: 0 <= i < |source.arrivals| ==> source.arrivals[i].gap <= timeout)
    && source.ending.Exhausted? && source.ending.gap <= timeout
  }

  lemma {:induction false} TimedIsPrefix(arrivals: seq<Arrival>, ending: Ending, timeout: real, gotEvent: bool)
    ensures var (events, end) := Timed(arrivals, ending, timeout, gotEvent);
      && |events| <= |arrivals| && events == EventsOf(arrivals[..|events|])
      && (forall i :: 0 <= i < |events| ==> arrivals[i].gap <= timeout)
      && (|events| < |arrivals| ==> arrivals[|events|].gap > timeout && end == Broken(Failure("timeout", !gotEvent && events == [])))
      && (end.Done? ==> events == EventsOf(arrivals) && ending.Exhausted? && ending.gap <= timeout)
      && (|events| == |arrivals| && ending.Exhausted? && ending.gap <= timeout ==> end == Done)
  {
    if arrivals == [] || arrivals[0].gap > timeout {
      assert arrivals[..0] == [];
    } else {
      var rest, end := Timed(arrivals[1..], ending, timeout, true).0, Timed(arrivals[1..], ending, timeout, true).1;
      assert Timed(arrivals, ending, timeout, gotEvent) == ([arrivals[0].event] + rest, end);
      TimedIsPrefix(arrivals[1..], ending, timeout, true);
      hide Timed;
      EventsOfFront(arrivals, |rest|);
      EventsOfFront(arrivals, |arrivals| - 1);
      assert arrivals[..|arrivals|] == arrivals && arrivals[1..][..|arrivals| - 1] == arrivals[1..];
    }
  }

  lemma {:induction false} EventsOfFront(arrivals: seq<Arrival>, n: nat)
    requires n < |arrivals|
    ensures EventsOf(arrivals[..n + 1]) == [arrivals[0].event] + EventsOf(arrivals[1..][..n])
  {
  }

  /** A stream is read to its end exactly when no wait in it is longer than the timeout, however long it
      runs in all; its reader then has every event. */
  lemma {:induction false} NeverCutIff(source: Source, timeout: real)
    ensures EndOf(source, timeout) == Done <==> NoLongGap(source, timeout)
    ensures EndOf(source, timeout) == Done ==> Delivered(source, timeout) == EventsOf(source.arrivals)
  {
    TimedIsPrefix(source.arrivals, source.ending, timeout, false);
    var events := Delivered(source, timeout);
    assert |events| == |source.arrivals| ==> source.arrivals[..|events|] == source.arrivals;
    hide Timed;
  }

  /** A wait that is too long can be retried exactly when nothing had arrived before it. */
  lemma {:induction false} CutRetryableIff(source: Source, timeout: real, k: nat)
    requires k < |source.arrivals| && source.arrivals[k].gap > timeout
    requires forall i :: 0 <= i < k ==> source.arrivals[i].gap <= timeout
    ensures EndOf(source, timeout) == Broken(Failure("timeout", k == 0))
    ensures Delivered(source, timeout) == EventsOf(source.arrivals[..k])
  {
    TimedIsPrefix(source.arrivals, source.ending, timeout, false);
    hide Timed;
    var events := Delivered(source, timeout);
    assert |events| == k;
  }

  // ---- Retries -----------------------------------------------------------------------------

  function TextOf(events: seq<Event>): string {
    if events == [] then "" else TextOf(events[..|events| - 1]) + events[|events| - 1].text
  }

  function FragmentsOf(events: seq<Event>): seq<Fragment> {
    if events == [] then [] else FragmentsOf(events[..|events| - 1]) + events[|events| - 1].fragments
  }

  function FinishOf(events: seq<Event>, before: string): string {
    if events == [] then before
    else if events[|events| - 1].finish != "" then events[|events| - 1].finish
    else FinishOf(events[..|events| - 1], before)
  }

  function UsageIn(events: seq<Event>, before: Usage): Usage {
    if events == [] then before
    else
      match events[|events| - 1].usage
      case Some(usage) => usage
      case None => UsageIn(events[..|events| - 1], before)
  }

  /** What `complete` keeps between events - and between attempts. */
  datatype Collected = Collected(text: string, fragments: seq<Fragment>, finish: string, usage: Usage)

  const NOTHING := Collected("", [], "stop", NO_USAGE)

  function Collect(before: Collected, events: seq<Event>): Collected {
    Collected(before.text + TextOf(events), before.fragments + FragmentsOf(events),
      FinishOf(events, before.finish), UsageIn(events, before.usage))
  }

  /** `merged` are the tool calls by index; an empty dictionary stands for no tool calls. */
  datatype Completion =
    | Completed(content: string, merged: map<int, ToolCall>, finish: string, usage: Usage)
    | Raised(failure: Failure)
    | RuntimeError

  /** The upstream in each attempt. */
  type Attempts = nat -> Source

  /** Everything delivered in the attempts before `n`. */
  function Earlier(attempts: Attempts, timeout: real, n: nat): seq<Event> {
    if n == 0 then [] else Earlier(attempts, timeout, n - 1) + Delivered(attempts(n - 1), timeout)
  }

  function Pow2(n: nat): nat {
    if n == 0 then 1 else 2 * Pow2(n - 1)
  }

  function Times(a: real, b: real): real { a * b }

  /** Attempt `k` failed in a way that may be repeated. */
  predicate Repeatable(attempts: Attempts, timeout: real, k: nat) {
    && EndOf(attempts(k), timeout).Broken?
    && EndOf(attempts(k), timeout).failure.retryable
    && TextOf(Delivered(attempts(k), timeout)) == ""
  }

  lemma {:induction false} CollectMore(before: Collected, a: seq<Event>, b: seq<Event>)
    ensures Collect(before, a + b) == Collect(Collect(before, a), b)
  {
    if b == [] {
      assert a + b == a;
      CollectNothing(Collect(before, a));
    } else {
      hide Collect;
      var init, last := b[..|b| - 1], b[|b| - 1];
      CollectMore(before, a, init);
      SplitLast(a, b);
      CollectOne(before, a + init, last);
      CollectOne(Collect(before, a), init, last);
    }
  }

  /** One more event. */
  function Absorbed(c: Collected, e: Event): Collected {
    Collected(c.text + e.text, c.fragments + e.fragments,
      if e.finish != "" then e.finish else c.finish,
      match e.usage case Some(usage) => usage case None => c.usage)
  }

  lemma {:induction false} CollectOne(before: Collected, events: seq<Event>, e: Event)
    ensures Collect(before, events + [e]) == Absorbed(Collect(before, events), e)
  {
    assert (events + [e])[..|events|] == events;
  }

  /** The loop over the events of one attempt. */
  method CollectEvents(before: Collected, events: seq<Event>) returns (after: Collected)
    ensures after == Collect(before, events)
  {
    var parts, fragments, finish, usage := before.text, before.fragments, before.finish, before.usage;
    assert Collect(before, []) == before;
    assert events[..0] == [];
    for k := 0 to |events|
      invariant Collected(parts, fragments, finish, usage) == Collect(before, events[..k])
    {
      var event := events[k];
      CollectOne(before, events[..k], event);
      assert events[..k + 1] == events[..k] + [event];
      if event.text != "" {
        parts := parts + event.text;
      }
      if event.fragments != [] {
        fragments := fragments + event.fragments;
      }
      if event.finish != "" {
        finish := event.finish;
      }
      if event.usage.Some? {
        usage := event.usage.value;
      }
    }
    assert events[..|events|] == events;
    after := Collected(parts, fragments, finish, usage);
  }

  /** `complete`: `made` attempts, `slept` seconds between them. With a negative number of retries the
      loop makes no attempt at all, and the call ends in the error behind it. */
  method Complete(attempts: Attempts, maxRetries: int, baseDelay: real, timeout: real)
    returns (r: Completion, made: nat, slept: real)
    ensures maxRetries < 0 <==> r == RuntimeError
    ensures if maxRetries < 0 then made == 0 && slept == 0.0
      else 1 <= made <= maxRetries + 1 && Completes(attempts, maxRetries, baseDelay, timeout, r, made, slept)
  {
    if maxRetries < 0 {
      return RuntimeError, 0, 0.0;
    }
    r, made, slept := TryRepeatedly(attempts, maxRetries, baseDelay, timeout);
  }

  /** Every attempt but the last failed in a way that may be repeated, the last one did not or was the
      last allowed; the content is the text of the last attempt alone. */
  ghost predicate Completes(attempts: Attempts, maxRetries: nat, baseDelay: real, timeout: real, r: Completion, made: nat, slept: real)
    requires made >= 1
  {
    && slept == (if baseDelay > 0.0 then Times(baseDelay, (Pow2(made - 1) - 1) as real) else 0.0)
    && (forall k :: 0 <= k < made - 1 ==> Repeatable(attempts, timeout, k))
    && (made - 1 < maxRetries ==> !Repeatable(attempts, timeout, made - 1))
    && r == match EndOf(attempts(made - 1), timeout)
      case Broken(failure) => Raised(failure)
      case Done =>
        var all := Earlier(attempts, timeout, made);
        Completed(TextOf(Delivered(attempts(made - 1), timeout)), Merge(FragmentsOf(all)), FinishOf(all, "stop"),
                  UsageIn(all, Usage(0, 0, 0, 0)))
  }

  /** The loop over the attempts. */
  method TryRepeatedly(attempts: Attempts, maxRetries: nat, baseDelay: real, timeout: real)
    returns (r: Completion, made: nat, slept: real)
    ensures 1 <= made <= maxRetries + 1 && Completes(attempts, maxRetries, baseDelay, timeout, r, made, slept)
  {
    hide Timed, Merge, Collect, TextOf, Repeatable;
    var kept := NOTHING;
    made, slept := 0, 0.0;
    CollectNothing(NOTHING);
    NoDelay(baseDelay);
    for attempt := 0 to maxRetries + 1
      invariant made == attempt
      invariant kept == Collect(NOTHING, Earlier(attempts, timeout, attempt)) && kept.text == ""
      invariant slept == if baseDelay > 0.0 then Times(baseDelay, (Pow2(attempt) - 1) as real) else 0.0
      invariant forall k :: 0 <= k < attempt ==> Repeatable(attempts, timeout, k)
      invariant attempt <= maxRetries
    {
      made := attempt + 1;
      var events, end := TimedEvents(attempts(attempt), timeout);
      CollectMore(NOTHING, Earlier(attempts, timeout, attempt), events);
      CollectText(kept, events);
      kept := CollectEvents(kept, events);
      RepeatableIff(attempts, timeout, attempt);
      if end.Done? {
        var merged := MergeDeltas(kept.fragments);
        CollectedAll(Earlier(attempts, timeout, made));
        return Completed(kept.text, merged, kept.finish, kept.usage), made, slept;
      }
      if !end.failure.retryable || kept.text != "" || attempt == maxRetries {
        return Raised(end.failure), made, slept;
      }
      var delay := Times(baseDelay, Pow2(attempt) as real);
      DelaysAdd(baseDelay, attempt);
      if delay > 0.0 {
        slept := slept + delay;
      }
    }
    assert false;
  }

  lemma {:induction false} CollectedAll(events: seq<Event>)
    ensures Collect(NOTHING, events)
         == Collected(TextOf(events), FragmentsOf(events), FinishOf(events, "stop"), UsageIn(events, Usage(0, 0, 0, 0)))
  {
    assert "" + TextOf(events) == TextOf(events) && [] + FragmentsOf(events) == FragmentsOf(events);
  }

  lemma {:induction false} CollectNothing(before: Collected)
    ensures Collect(before, []) == before
  {
  }

  lemma {:induction false} CollectText(before: Collected, events: seq<Event>)
    ensures Collect(before, events).text == before.text + TextOf(events)
    ensures before.text == "" ==> Collect(before, events).text == TextOf(events)
  {
  }

  lemma {:induction false} RepeatableIff(attempts: Attempts, timeout: real, k: nat)
    ensures var end := EndOf(attempts(k), timeout);
      (Repeatable(attempts, timeout, k) <==> end.Broken? && end.failure.retryable && TextOf(Delivered(attempts(k), timeout)) == "")
  {
  }

  lemma {:induction false} NoDelay(baseDelay: real)
    ensures Times(baseDelay, (Pow2(0) - 1) as real) == 0.0
  {
  }

  lemma {:induction false} Pow2Positive(n: nat)
    ensures Pow2(n) >= 1
  {
    if n > 0 {
      Pow2Positive(n - 1);
    }
  }

  /** The delays add up: 1 + 2 + ... + 2^k = 2^(k+1) - 1 times the base delay. */
  lemma {:induction false} DelaysAdd(baseDelay: real, k: nat)
    ensures Times(baseDelay, (Pow2(k) - 1) as real) + Times(baseDelay, Pow2(k) as real) == Times(baseDelay, (Pow2(k + 1) - 1) as real)
    ensures Times(baseDelay, Pow2(k) as real) > 0.0 <==> baseDelay > 0.0
  {
    Pow2Positive(k);
    var p := Pow2(k) as real;
    assert (Pow2(k) - 1) as real == p - 1.0 && (Pow2(k + 1) - 1) as real == 2.0 * p - 1.0;
    assert baseDelay * (p - 1.0) + baseDelay * p == baseDelay * (2.0 * p - 1.0);
  }

  lemma {:induction false} Pow2Monotone(m: nat, n: nat)
    requires m <= n
    ensures Pow2(m) <= Pow2(n)
  {
    if m < n {
      Pow2Monotone(m, n - 1);
    }
  }

  /** The sleep of `made` attempts never exceeds the bound for all of them. */
  lemma {:induction false} SleepBound(baseDelay: real, made: nat, maxRetries: nat)
    requires 1 <= made <= maxRetries + 1 && baseDelay >= 0.0
    ensures Times(baseDelay, (Pow2(made - 1) - 1) as real) <= Times(baseDelay, (Pow2(maxRetries) - 1) as real)
  {
    Pow2Monotone(made - 1, maxRetries);
    var a, b := (Pow2(made - 1) - 1) as real, (Pow2(maxRetries) - 1) as real;
    assert baseDelay * (b - a) >= 0.0;
  }

  // ---- Replayed tool fragments ---------------------------------------------------------------

  lemma {:induction false} OfIndexSnoc(a: seq<Fragment>, f: Fragment, i: int)
    ensures OfIndex(a + [f], i) == OfIndex(a, i) + (if IndexOf(f) == i then [f] else [])
  {
    assert (a + [f])[..|a|] == a;
  }

  lemma {:induction false} OfIndexConcat(a: seq<Fragment>, b: seq<Fragment>, i: int)
    ensures OfIndex(a + b, i) == OfIndex(a, i) + OfIndex(b, i)
  {
    if b == [] {
      assert a + b == a;
    } else {
      hide OfIndex, IndexOf;
      var init, last := b[..|b| - 1], b[|b| - 1];
      OfIndexConcat(a, init, i);
      SplitLast(a, b);
      OfIndexSnoc(a + init, last, i);
      OfIndexSnoc(init, last, i);
      AppendAssociates(OfIndex(a, i), OfIndex(init, i), if IndexOf(last) == i then [last] else []);
    }
  }

  lemma {:induction false} LastTextConcat(x: seq<string>, y: seq<string>, default: string)
    ensures LastText(x + y, default) == LastText(y, LastText(x, default))
  {
    if y == [] {
      assert x + y == x;
    } else {
      LastTextConcat(x, y[..|y| - 1], default);
      assert (x + y)[..|x + y| - 1] == x + y[..|y| - 1];
    }
  }

  lemma {:induction false} LastTextDefault(x: seq<string>, default: string)
    ensures LastText(x, default) == if LastText(x, "") != "" then LastText(x, "") else default
  {
    if x != [] {
      LastTextDefault(x[..|x| - 1], default);
    }
  }

  function Ids(f: seq<Fragment>): seq<string> { TextsOf(f, (f: Fragment) => f.id) }
  function Kinds(f: seq<Fragment>): seq<string> { TextsOf(f, (f: Fragment) => f.kind) }
  function Names(f: seq<Fragment>): seq<string> { TextsOf(f, (f: Fragment) => f.name) }
  function Arguments(f: seq<Fragment>): seq<string> { TextsOf(f, (f: Fragment) => f.arguments) }

  /** The fragments `a` of one call leave no trace behind the fragments `b` of the same call. */
  predicate Overwritten(a: seq<Fragment>, b: seq<Fragment>) {
    && Concat(Arguments(a)) == ""
    && (LastText(Ids(a), "") != "" ==> LastText(Ids(b), "") != "")
    && (LastText(Names(a), "") != "" ==> LastText(Names(b), "") != "")
    && (LastText(Kinds(a), "function") != "function" ==> LastText(Kinds(b), "") != "")
  }

  lemma {:induction false} FieldsOfBoth(a: seq<Fragment>, b: seq<Fragment>)
    ensures TextOr(MergeOne(a + b).arguments, "") == Concat(Arguments(a)) + Concat(Arguments(b))
    ensures MergeOne(a + b).id == LastText(Ids(b), LastText(Ids(a), ""))
    ensures MergeOne(a + b).kind == LastText(Kinds(b), LastText(Kinds(a), "function"))
    ensures TextOr(MergeOne(a + b).name, "") == LastText(Names(b), LastText(Names(a), ""))
    ensures Canonical(MergeOne(a + b))
  {
    MergedFields(a + b);
    hide LastText, MergeOne, Concat, Canonical;
    assert Ids(a + b) == Ids(a) + Ids(b);
    assert Kinds(a + b) == Kinds(a) + Kinds(b);
    assert Names(a + b) == Names(a) + Names(b);
    assert Arguments(a + b) == Arguments(a) + Arguments(b);
    LastTextConcat(Ids(a), Ids(b), "");
    LastTextConcat(Kinds(a), Kinds(b), "function");
    LastTextConcat(Names(a), Names(b), "");
    ConcatConcat(Arguments(a), Arguments(b));
  }

  lemma {:induction false} OverwrittenIff(a: seq<Fragment>, b: seq<Fragment>)
    ensures MergeOne(a + b) == MergeOne(b) <==> Overwritten(a, b)
  {
    FieldsOfBoth(a, b);
    FieldsOfBoth([], b);
    assert [] + b == b;
    hide LastText, MergeOne, Ids, Kinds, Names, Arguments;
    Blank();
    LastTextDefault(Ids(b), LastText(Ids(a), ""));
    LastTextDefault(Names(b), LastText(Names(a), ""));
    LastTextDefault(Kinds(b), LastText(Kinds(a), "function"));
    LastTextDefault(Kinds(b), "function");
    LastTextDefault(Kinds(a), "function");
    assert "" + Concat(Arguments(b)) == Concat(Arguments(b));
    assert Concat(Arguments(a)) + Concat(Arguments(b)) == Concat(Arguments(b)) <==> Concat(Arguments(a)) == "" by {
      PrefixEmpty(Concat(Arguments(a)), Concat(Arguments(b)));
    }
  }

  lemma {:induction false} Blank()
    ensures LastText(Ids([]), "") == "" && LastText(Names([]), "") == "" && LastText(Kinds([]), "function") == "function"
    ensures Concat(Arguments([])) == ""
  {
  }

  lemma {:induction false} PrefixEmpty(a: string, b: string)
    ensures a + b == b <==> a == ""
  {
    assert |a + b| == |a| + |b|;
    assert a == "" ==> a + b == b;
  }

  /** What call `i` has from earlier fragments does not show. */
  predicate NoTrace(earlier: seq<Fragment>, last: seq<Fragment>, i: int) {
    OfIndex(earlier, i) != [] ==> OfIndex(last, i) != [] && Overwritten(OfIndex(earlier, i), OfIndex(last, i))
  }

  predicate SameAt(a: map<int, ToolCall>, b: map<int, ToolCall>, i: int) {
    if i in a then i in b && a[i] == b[i] else i !in b
  }

  lemma {:induction false} EqualMapsIff(a: map<int, ToolCall>, b: map<int, ToolCall>)
    ensures a == b <==> forall i :: SameAt(a, b, i)
  {
    if forall i :: SameAt(a, b, i) {
      forall i ensures (i in a <==> i in b) && (i in a ==> a[i] == b[i]) {
        assert SameAt(a, b, i);
      }
    }
  }

  lemma {:induction false} NoReplayAt(earlier: seq<Fragment>, last: seq<Fragment>, i: int)
    ensures SameAt(Merge(earlier + last), Merge(last), i) <==> NoTrace(earlier, last, i)
  {
    hide Merge, OfIndex, MergeOne, Overwritten;
    var a, b := OfIndex(earlier, i), OfIndex(last, i);
    MergeByIndex(earlier + last, i);
    MergeByIndex(last, i);
    OfIndexConcat(earlier, last, i);
    OverwrittenIff(a, b);
    assert a == [] ==> a + b == b;
  }

  ghost predicate Traceless(earlier: seq<Fragment>, last: seq<Fragment>) {
    forall i :: NoTrace(earlier, last, i)
  }

  /** Fragments are kept from one attempt to the next. The result has the tool calls of the last attempt
      alone exactly when every call begun in an earlier one begins again, and nothing the earlier
      fragments set is left: no arguments, and no id, name or kind that the later ones do not set too. */
  lemma {:induction false} NoReplayIff(earlier: seq<Fragment>, last: seq<Fragment>)
    ensures Merge(earlier + last) == Merge(last) <==> Traceless(earlier, last)
  {
    hide Merge, NoTrace, SameAt;
    forall i ensures SameAt(Merge(earlier + last), Merge(last), i) <==> NoTrace(earlier, last, i) {
      NoReplayAt(earlier, last, i);
    }
    EqualMapsIff(Merge(earlier + last), Merge(last));
  }

  lemma {:induction false} FragmentsOfConcat(a: seq<Event>, b: seq<Event>)
    ensures FragmentsOf(a + b) == FragmentsOf(a) + FragmentsOf(b)
  {
    if b == [] {
      assert a + b == a;
    } else {
      var init, last := b[..|b| - 1], b[|b| - 1];
      FragmentsOfConcat(a, init);
      SplitLast(a, b);
      FragmentsOfSnoc(a + init, last);
      FragmentsOfSnoc(init, last);
      hide FragmentsOf;
      AppendAssociates(FragmentsOf(a), FragmentsOf(init), last.fragments);
    }
  }

  lemma {:induction false} FragmentsOfSnoc(events: seq<Event>, last: Event)
    ensures FragmentsOf(events + [last]) == FragmentsOf(events) + last.fragments
  {
    assert (events + [last])[..|events|] == events;
  }

  /** What `complete` returns holds the tool calls of its last attempt alone exactly when nothing that the
      failed attempts delivered leaves a trace. */
  lemma {:induction false} CompletedReplayIff(attempts: Attempts, maxRetries: nat, baseDelay: real, timeout: real, r: Completion,
        made: nat, slept: real)
    requires made >= 1 && Completes(attempts, maxRetries, baseDelay, timeout, r, made, slept) && r.Completed?
    ensures r.merged == Merge(FragmentsOf(Delivered(attempts(made - 1), timeout)))
       <==> Traceless(FragmentsOf(Earlier(attempts, timeout, made - 1)), FragmentsOf(Delivered(attempts(made - 1), timeout)))
  {
    hide Merge, Traceless, Repeatable, FragmentsOf, Delivered, EndOf, TextOf;
    var before, events := Earlier(attempts, timeout, made - 1), Delivered(attempts(made - 1), timeout);
    assert Earlier(attempts, timeout, made) == before + events;
    assert r.merged == Merge(FragmentsOf(before + events));
    FragmentsOfConcat(before, events);
    NoReplayIff(FragmentsOf(before), FragmentsOf(events));
  }

  function ArgumentsAt(merged: map<int, ToolCall>, i: int): Option<string> {
    if i in merged then merged[i].arguments else None
  }

  const CALL := Fragment(Some(0), "a", "function", "f", "{}")

  const CALL_EVENT := Event("", "", [CALL], "", None)

  /** An upstream that loses the connection behind the first fragment of a call, and then works. */
  function Flaky(attempt: nat): Source {
    Source([Arrival(0.0, CALL_EVENT)], if attempt == 0 then Raises(0.0, Failure("connection", true)) else Exhausted(0.0))
  }

  /** The replay happens: a connection lost behind the first fragment of a call, and a second attempt
      that succeeds, give arguments that no attempt sent. */
  lemma {:induction false} ReplayedArguments()
    ensures Repeatable(Flaky, 1.0, 0) && EndOf(Flaky(1), 1.0) == Done
    ensures ArgumentsAt(Merge(Collect(NOTHING, Earlier(Flaky, 1.0, 2)).fragments), 0) == Some("{}{}")
    ensures ArgumentsAt(Merge(FragmentsOf(Delivered(Flaky(1), 1.0))), 0) == Some("{}")
  {
    OneArrival(CALL_EVENT, Flaky(0).ending);
    OneArrival(CALL_EVENT, Flaky(1).ending);
    TwoFragments(CALL_EVENT, CALL);
    FlakyEvents();
    hide Timed, Collect, Merge, TextOf, FragmentsOf, Earlier, ArgumentsAt;
  }

  lemma {:induction false} FlakyEvents()
    ensures Earlier(Flaky, 1.0, 2) == [CALL_EVENT] + [CALL_EVENT]
  {
    OneArrival(CALL_EVENT, Flaky(0).ending);
    OneArrival(CALL_EVENT, Flaky(1).ending);
    hide Timed;
    assert Earlier(Flaky, 1.0, 0) == [];
    assert Earlier(Flaky, 1.0, 1) == [] + [CALL_EVENT];
  }

  lemma {:induction false} OneArrival(event: Event, ending: Ending)
    requires !ending.Silent? && ending.gap == 0.0
    ensures Timed([Arrival(0.0, event)], ending, 1.0, false) == ([event], if ending.Raises? then Broken(ending.failure) else Done)
  {
    var arrivals := [Arrival(0.0, event)];
    assert arrivals[1..] == [];
    assert Timed([], ending, 1.0, true) == ([], if ending.Raises? then Broken(ending.failure) else Done);
    assert [event] + [] == [event];
  }

  lemma {:induction false} TwoFragments(event: Event, f: Fragment)
    requires event == Event("", "", [f], "", None) && f == Fragment(Some(0), "a", "function", "f", "{}")
    ensures TextOf([event]) == "" && FragmentsOf([event]) == [f]
    ensures Collect(NOTHING, [event] + [event]).fragments == [f, f]
    ensures ArgumentsAt(Merge([f]), 0) == Some("{}")
    ensures ArgumentsAt(Merge([f, f]), 0) == Some("{}{}")
  {
    assert [event][..0] == [] && ([event] + [event])[..1] == [event];
    assert [f][..0] == [] && [f, f][..1] == [f];
    assert FragmentsOf([event]) == [f];
    assert FragmentsOf([event] + [event]) == [f] + [f];
    assert "" + "{}" == "{}" && "{}" + "{}" == "{}{}";
    assert Merge([]) == map[];
    assert Merge([f]) == map[0 := Absorb(BLANK, f)];
    assert Merge([f, f])[0] == Absorb(Absorb(BLANK, f), f);
  }
}
