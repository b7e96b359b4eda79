/** Calls in flight behind a stream. The pump takes an outcome from the strategy only after its call has come
    back; a client that leaves an attached stream cancels the calls that are still out, and what had come
    back by then but was not taken is gone. */
module InFlight {
  import opened Prelude
  import Calls
  import opened StreamProtocol
  import E = Executor

  // ---- Rounds in flight --------------------------------------------------------------------

  /** The calls whose outcomes a step takes from the strategy. */
  function CallsIn(e: Effect): seq<Calls.Outcome> {
    e.rows + (match e.result case Some(r) => [r.judge] case None => [])
  }

  function CallsOfSteps(effects: seq<Effect>): seq<Calls.Outcome> {
    if effects == [] then [] else CallsOfSteps(effects[..|effects| - 1]) + CallsIn(effects[|effects| - 1])
  }

  /** A stream and its rounds: `stages` cuts the steps of the script into groups, and the calls of a group
      are in flight together. A group of one step is taken as a whole when all its calls are back, as
      `gather` does; the steps of a longer one are taken as the calls come back, as with `as_completed`,
      and its calls are numbered in the order in which they do. */
  datatype Timeline = Timeline(config: Config, stages: seq<nat>, capacity: nat)

  ghost predicate Proper(t: Timeline) {
    && WellFormedConfig(t.config) && t.capacity >= 1
    && Calls.Sum(t.stages) == |t.config.script.effects| && forall i :: 0 <= i < |t.stages| ==> t.stages[i] > 0
  }

  /** The protocol, and beside it the group in flight: its first step, the sizes of this and the later
      groups, its pool of calls. `answered` lists every call that ever came back, in that order. */
  datatype Live = Live(sys: System, first: nat, rest: seq<nat>, pool: E.Pool<Calls.Outcome>, answered: seq<Calls.Outcome>)

  function Group(effects: seq<Effect>, first: nat, rest: seq<nat>): seq<Effect> {
    if rest != [] && first + rest[0] <= |effects| then effects[first..first + rest[0]] else []
  }

  /** The calls in flight. */
  function Tasks(t: Timeline, first: nat, rest: seq<nat>): seq<Calls.Outcome> {
    CallsOfSteps(Group(t.config.script.effects, first, rest))
  }

  const BLANK := Calls.Pending(Calls.Member, 0, "", "", Calls.BuildRequest("", [], map[]), None)

  /** What each of the calls comes back with. */
  function Replies(tasks: seq<Calls.Outcome>): nat -> Calls.Outcome {
    (i: nat) => if i < |tasks| then tasks[i] else BLANK
  }

  function Back(tasks: seq<Calls.Outcome>, completed: seq<nat>): seq<Calls.Outcome> {
    seq(|completed|, k requires 0 <= k < |completed| => Replies(tasks)(completed[k]))
  }

  function Begin(t: Timeline, sys: System, first: nat, rest: seq<nat>, answered: seq<Calls.Outcome>): Live {
    Live(sys, first, rest, E.Initial(|Tasks(t, first, rest)|, t.capacity), answered)
  }

  datatype Event = Protocol(a: Action) | Call(m: E.Move)

  /** All calls of the next step are back. */
  predicate Ready(t: Timeline, l: Live) {
    AreBack(l.pool, |Between(t.config.script.effects, l.first, l.sys.pos + 1)|)
  }

  predicate Takes(t: Timeline, l: Live, e: Event) {
    e == Protocol(PumpStep) && l.sys.pos < |t.config.script.effects|
  }

  /** Calls start and come back while the pump lives; they are cancelled only when it has been. */
  predicate Allowed(l: Live, m: E.Move) {
    match m
    case Start(_) => l.sys.pump != Over
    case Finish(i) => l.sys.pump != Over && (l.rest != [] && l.rest[0] > 1 ==> i == |l.pool.completed|)
    case Cancel(_) => l.sys.cancelAsked
  }

  predicate Possible(t: Timeline, l: Live, e: Event) {
    match e
    case Protocol(a) => Enabled(t.config, l.sys, a) && (Takes(t, l, e) ==> Ready(t, l))
    case Call(m) => E.Enabled(l.pool, m) && Allowed(l, m)
  }

  ghost function Next(t: Timeline, l: Live, e: Event): Live
    requires Possible(t, l, e)
  {
    match e
    case Protocol(a) =>
      var sys := Step(t.config, l.sys, a);
      if Takes(t, l, e) && l.rest != [] && sys.pos == l.first + l.rest[0] then Begin(t, sys, sys.pos, l.rest[1..], l.answered)
      else l.(sys := sys)
    case Call(m) =>
      var replies := Replies(Tasks(t, l.first, l.rest));
      l.(pool := E.Apply(replies, l.pool, m), answered := if m.Finish? then l.answered + [replies(m.i)] else l.answered)
  }

  function Opening(t: Timeline): Live {
    Begin(t, StreamProtocol.Initial(t.config), 0, t.stages, [])
  }

  /** `l` after a run of events; None when one of them is not possible when its turn comes. */
  ghost function Lived(t: Timeline, l: Live, run: seq<Event>): Option<Live> {
    if run == [] then Some(l)
    else
      match Lived(t, l, run[..|run| - 1])
      case None => None
      case Some(m) => if Possible(t, m, run[|run| - 1]) then Some(Next(t, m, run[|run| - 1])) else None
  }

  ghost predicate CanLive(t: Timeline, l: Live) {
    exists run :: Lived(t, Opening(t), run) == Some(l)
  }

  /** The calls that came back and that no step has taken. */
  function Unseen(t: Timeline, l: Live): seq<Calls.Outcome> {
    var taken := |Between(t.config.script.effects, l.first, l.sys.pos)|;
    if taken <= |l.pool.completed| then Back(Tasks(t, l.first, l.rest), l.pool.completed[taken..]) else []
  }

  // ---- What every run keeps ----------------------------------------------------------------

  lemma {:induction false} CallsOfSnoc(effects: seq<Effect>, e: Effect)
    ensures CallsOfSteps(effects + [e]) == CallsOfSteps(effects) + CallsIn(e)
  {
    assert (effects + [e])[..|effects|] == effects;
  }

  lemma {:induction false} CallsOfConcat(a: seq<Effect>, b: seq<Effect>)
    ensures CallsOfSteps(a + b) == CallsOfSteps(a) + CallsOfSteps(b)
  {
    if b == [] {
      assert a + b == a;
    } else {
      hide *;
      var init, last := b[..|b| - 1], b[|b| - 1];
      CallsOfConcat(a, init);
      SplitLast(a, b);
      CallsOfSnoc(a + init, last);
      CallsOfSnoc(init, last);
      AppendAssociates(CallsOfSteps(a), CallsOfSteps(init), CallsIn(last));
    }
  }

  /** The calls of the steps up to `m`, cut at `k`. */
  lemma {:induction false} CallsCut(effects: seq<Effect>, j: nat, k: nat, m: nat)
    requires j <= k <= m <= |effects|
    ensures CallsOfSteps(effects[j..m]) == CallsOfSteps(effects[j..k]) + CallsOfSteps(effects[k..m])
  {
    hide *;
    assert effects[j..m] == effects[j..k] + effects[k..m];
    CallsOfConcat(effects[j..k], effects[k..m]);
  }

  ghost predicate Placed(effects: seq<Effect>, first: nat, rest: seq<nat>, pos: nat) {
    && first <= pos <= |effects|
    && Calls.Sum(rest) == |effects| - first && (forall i :: 0 <= i < |rest| ==> rest[i] > 0)
    && (rest != [] ==> pos < first + rest[0])
  }

  ghost predicate Pooled(tasks: seq<Calls.Outcome>, capacity: nat, rest: seq<nat>, pool: E.Pool<Calls.Outcome>) {
    && E.Valid(Replies(tasks), capacity, pool) && |pool.phase| == |tasks|
    && (rest != [] && rest[0] > 1 ==> forall k :: 0 <= k < |pool.completed| ==> pool.completed[k] == k)
  }

  /** The first `n` calls of the group in flight are back. */
  predicate AreBack(pool: E.Pool<Calls.Outcome>, n: nat) {
    forall i :: 0 <= i < n ==> i < |pool.phase| && pool.phase[i] == E.Done
  }

  /** The calls of the steps from the `j`th to in front of the `k`th. */
  function Between(effects: seq<Effect>, j: nat, k: nat): seq<Calls.Outcome> {
    if j <= k <= |effects| then CallsOfSteps(effects[j..k]) else []
  }

  ghost predicate AnsweredIs(effects: seq<Effect>, first: nat, tasks: seq<Calls.Outcome>, completed: seq<nat>, answered: seq<Calls.Outcome>) {
    multiset(answered) == multiset(Between(effects, 0, first)) + multiset(Back(tasks, completed))
  }

  ghost predicate Keeps(t: Timeline, l: Live) {
    var effects, tasks := t.config.script.effects, Tasks(t, l.first, l.rest);
    && Inv(t.config, l.sys) && Placed(effects, l.first, l.rest, l.sys.pos) && Pooled(tasks, t.capacity, l.rest, l.pool)
    && AreBack(l.pool, |Between(effects, l.first, l.sys.pos)|)
    && AnsweredIs(effects, l.first, tasks, l.pool.completed, l.answered)
  }

  lemma {:induction false} GroupFits(effects: seq<Effect>, first: nat, rest: seq<nat>, pos: nat)
    requires Placed(effects, first, rest, pos) && rest != []
    ensures first + rest[0] <= |effects| && Calls.Sum(rest[1..]) == |effects| - first - rest[0]
  {
  }

  lemma {:induction false} GroupGone(effects: seq<Effect>, first: nat, rest: seq<nat>, pos: nat)
    requires Placed(effects, first, rest, pos)
    ensures rest == [] ==> first == pos == |effects|
    ensures pos == |effects| ==> rest == []
  {
    if rest == [] {
      assert Calls.Sum(rest) == 0;
    }
  }

  lemma {:induction false} GroupLeft(effects: seq<Effect>, first: nat, rest: seq<nat>, pos: nat)
    requires Placed(effects, first, rest, pos) && pos < |effects|
    ensures rest != [] && pos < first + rest[0]
  {
    assert Calls.Sum([]) == 0;
  }

  lemma {:induction false} NothingYet(tasks: seq<Calls.Outcome>, effects: seq<Effect>, k: nat)
    ensures Back(tasks, []) == [] && Between(effects, k, k) == []
  {
    assert k <= |effects| ==> effects[k..k] == [];
  }

  lemma {:induction false} BeginKeeps(t: Timeline, sys: System, first: nat, rest: seq<nat>, answered: seq<Calls.Outcome>)
    requires Inv(t.config, sys) && sys.pos == first && Calls.Sum(rest) == |t.config.script.effects| - first
    requires forall i :: 0 <= i < |rest| ==> rest[i] > 0
    requires multiset(answered) == multiset(Between(t.config.script.effects, 0, first))
    ensures Keeps(t, Begin(t, sys, first, rest, answered))
  {
    hide Inv, Calls.Sum, Tasks, Between, Back, E.Valid, Replies;
    E.InitialValid(Replies(Tasks(t, first, rest)), |Tasks(t, first, rest)|, t.capacity);
    NothingYet(Tasks(t, first, rest), t.config.script.effects, first);
  }

  lemma {:induction false} OpeningKeeps(t: Timeline)
    requires Proper(t)
    ensures Keeps(t, Opening(t))
  {
    InitialInv(t.config);
    hide Inv, Between;
    NothingYet([], t.config.script.effects, 0);
    BeginKeeps(t, StreamProtocol.Initial(t.config), 0, t.stages, []);
  }

  lemma {:induction false} PoolMoves(tasks: seq<Calls.Outcome>, capacity: nat, rest: seq<nat>, pool: E.Pool<Calls.Outcome>, m: E.Move)
    requires Pooled(tasks, capacity, rest, pool) && E.Enabled(pool, m)
    requires m.Finish? && rest != [] && rest[0] > 1 ==> m.i == |pool.completed|
    ensures Pooled(tasks, capacity, rest, E.Apply(Replies(tasks), pool, m))
  {
    E.StepKeepsValid(Replies(tasks), capacity, pool, m);
    hide E.Valid, Replies;
  }

  lemma {:induction false} BackStays(tasks: seq<Calls.Outcome>, pool: E.Pool<Calls.Outcome>, m: E.Move, n: nat)
    requires AreBack(pool, n) && E.Enabled(pool, m)
    ensures AreBack(E.Apply(Replies(tasks), pool, m), n)
  {
    hide Replies;
  }

  lemma {:induction false} OneMoreBack(effects: seq<Effect>, first: nat, tasks: seq<Calls.Outcome>, pool: E.Pool<Calls.Outcome>, m: E.Move,
        answered: seq<Calls.Outcome>)
    requires AnsweredIs(effects, first, tasks, pool.completed, answered) && E.Enabled(pool, m)
    ensures AnsweredIs(effects, first, tasks, E.Apply(Replies(tasks), pool, m).completed,
      if m.Finish? then answered + [Replies(tasks)(m.i)] else answered)
  {
    hide Between, Replies;
    assert Back(tasks, pool.completed + [m.i]) == Back(tasks, pool.completed) + [Replies(tasks)(m.i)];
  }

  lemma {:induction false} MoveKeeps(t: Timeline, l: Live, m: E.Move)
    requires Keeps(t, l) && Possible(t, l, Call(m))
    ensures Keeps(t, Next(t, l, Call(m)))
  {
    hide Inv, Placed, Pooled, AreBack, AnsweredIs, Between, Tasks, Replies, E.Apply, E.Enabled;
    var tasks := Tasks(t, l.first, l.rest);
    PoolMoves(tasks, t.capacity, l.rest, l.pool, m);
    BackStays(tasks, l.pool, m, |Between(t.config.script.effects, l.first, l.sys.pos)|);
    OneMoreBack(t.config.script.effects, l.first, tasks, l.pool, m, l.answered);
  }

  /** A step of the protocol that takes nothing from the strategy. */
  lemma {:induction false} ProtocolKeeps(t: Timeline, l: Live, a: Action)
    requires Keeps(t, l) && Possible(t, l, Protocol(a)) && !Takes(t, l, Protocol(a)) && WellFormedConfig(t.config)
    ensures Keeps(t, Next(t, l, Protocol(a)))
  {
    StepKeepsInv(t.config, l.sys, a);
    SamePos(t.config, l.sys, a);
    hide Inv, Placed, Pooled, AreBack, AnsweredIs, Between, Tasks, Step, Enabled, WellFormedConfig;
  }

  lemma {:induction false} SamePos(c: Config, s: System, a: Action)
    requires Enabled(c, s, a) && !(a.PumpStep? && s.pos < |c.script.effects|)
    ensures Step(c, s, a).pos == s.pos
  {
  }

  /** When every call of a group is back, what came back is what the group called. */
  lemma {:induction false} WholeGroup(tasks: seq<Calls.Outcome>, capacity: nat, rest: seq<nat>, pool: E.Pool<Calls.Outcome>)
    requires Pooled(tasks, capacity, rest, pool) && AreBack(pool, |tasks|)
    ensures multiset(Back(tasks, pool.completed)) == multiset(tasks)
  {
    E.FinishedPool(Replies(tasks), capacity, pool);
    E.PickIsRearrangement(tasks, pool.completed);
    assert Back(tasks, pool.completed) == E.Pick(tasks, pool.completed);
  }

  lemma {:induction false} WholeAnswered(effects: seq<Effect>, first: nat, end: nat, capacity: nat, rest: seq<nat>,
        pool: E.Pool<Calls.Outcome>, answered: seq<Calls.Outcome>)
    requires first <= end <= |effects|
    requires var tasks := Between(effects, first, end);
      Pooled(tasks, capacity, rest, pool) && AreBack(pool, |tasks|) && AnsweredIs(effects, first, tasks, pool.completed, answered)
    ensures multiset(answered) == multiset(Between(effects, 0, end))
  {
    hide CallsOfSteps, Pooled, AreBack, Back;
    WholeGroup(Between(effects, first, end), capacity, rest, pool);
    CallsCut(effects, 0, first, end);
  }

  lemma {:induction false} TasksAre(t: Timeline, first: nat, rest: seq<nat>)
    requires rest != [] && first + rest[0] <= |t.config.script.effects|
    ensures Tasks(t, first, rest) == Between(t.config.script.effects, first, first + rest[0])
  {
  }

  /** The pump takes a step, and others of the group are left. */
  lemma {:induction false} TakeStays(t: Timeline, l: Live, sys: System)
    requires Keeps(t, l) && Ready(t, l) && Inv(t.config, sys)
    requires sys.pos == l.sys.pos + 1 && l.rest != [] && sys.pos < l.first + l.rest[0] <= |t.config.script.effects|
    ensures Keeps(t, l.(sys := sys))
  {
    hide Inv, Pooled, AreBack, AnsweredIs, Between, Tasks, Calls.Sum;
  }

  /** The pump takes the last step of a group. */
  lemma {:induction false} TakeEnds(t: Timeline, l: Live, sys: System)
    requires Keeps(t, l) && Ready(t, l) && Inv(t.config, sys) && l.rest != [] && l.first + l.rest[0] <= |t.config.script.effects|
    requires sys.pos == l.sys.pos + 1 == l.first + l.rest[0]
    ensures Keeps(t, Begin(t, sys, sys.pos, l.rest[1..], l.answered))
  {
    var effects := t.config.script.effects;
    hide Inv, Pooled, AreBack, AnsweredIs, Between, Tasks, Begin, Calls.Sum;
    GroupFits(effects, l.first, l.rest, l.sys.pos);
    TasksAre(t, l.first, l.rest);
    WholeAnswered(effects, l.first, sys.pos, t.capacity, l.rest, l.pool, l.answered);
    hide Keeps;
    BeginKeeps(t, sys, sys.pos, l.rest[1..], l.answered);
  }

  lemma {:induction false} TakeKeeps(t: Timeline, l: Live)
    requires Keeps(t, l) && Possible(t, l, Protocol(PumpStep)) && Takes(t, l, Protocol(PumpStep)) && WellFormedConfig(t.config)
    ensures Keeps(t, Next(t, l, Protocol(PumpStep)))
  {
    var effects := t.config.script.effects;
    StepKeepsInv(t.config, l.sys, PumpStep);
    TakesOne(t.config, l.sys);
    GroupLeft(effects, l.first, l.rest, l.sys.pos);
    GroupFits(effects, l.first, l.rest, l.sys.pos);
    var sys := Step(t.config, l.sys, PumpStep);
    hide Inv, Keeps, Ready, Step, Enabled, Begin, WellFormedConfig, Tasks;
    if sys.pos == l.first + l.rest[0] {
      TakeEnds(t, l, sys);
    } else {
      TakeStays(t, l, sys);
    }
  }

  lemma {:induction false} TakesOne(c: Config, s: System)
    requires Enabled(c, s, PumpStep) && s.pos < |c.script.effects|
    ensures Step(c, s, PumpStep).pos == s.pos + 1
  {
  }

  lemma {:induction false} EventKeeps(t: Timeline, l: Live, e: Event)
    requires Keeps(t, l) && Possible(t, l, e) && WellFormedConfig(t.config)
    ensures Keeps(t, Next(t, l, e))
  {
    hide *;
    match e {
      case Call(m) => MoveKeeps(t, l, m);
      case Protocol(a) =>
        if Takes(t, l, e) {
          TakesIsPump(t, l, e);
          TakeKeeps(t, l);
        } else {
          ProtocolKeeps(t, l, a);
        }
    }
  }

  lemma {:induction false} TakesIsPump(t: Timeline, l: Live, e: Event)
    requires Takes(t, l, e)
    ensures e == Protocol(PumpStep)
  {
  }

  lemma {:induction false} LivedSnoc(t: Timeline, l: Live, run: seq<Event>)
    requires run != [] && Lived(t, l, run).Some?
    ensures var front, e := run[..|run| - 1], run[|run| - 1];
      && Lived(t, l, front).Some? && Possible(t, Lived(t, l, front).value, e)
      && Lived(t, l, run).value == Next(t, Lived(t, l, front).value, e)
  {
    hide Possible, Next;
  }

  lemma {:induction false} NextSys(t: Timeline, l: Live, e: Event)
    requires Possible(t, l, e)
    ensures e.Protocol? ==> Enabled(t.config, l.sys, e.a) && Next(t, l, e).sys == Step(t.config, l.sys, e.a)
    ensures e.Call? ==> Next(t, l, e).sys == l.sys
  {
    hide Enabled, Step, Ready, Tasks;
  }

  /** The invariant holds after every run, and the protocol part of a run is a run of the protocol. */
  lemma {:induction false} LivedKeeps(t: Timeline, run: seq<Event>)
    requires Proper(t) && Lived(t, Opening(t), run).Some?
    ensures Keeps(t, Lived(t, Opening(t), run).value)
  {
    if run == [] {
      OpeningKeeps(t);
    } else {
      assert WellFormedConfig(t.config);
      hide *;
      LivedSnoc(t, Opening(t), run);
      LivedKeeps(t, run[..|run| - 1]);
      EventKeeps(t, Lived(t, Opening(t), run[..|run| - 1]).value, run[|run| - 1]);
    }
  }

  lemma {:induction false} LivedReaches(t: Timeline, run: seq<Event>) returns (actions: seq<Action>)
    requires Lived(t, Opening(t), run).Some?
    ensures After(t.config, StreamProtocol.Initial(t.config), actions) == Some(Lived(t, Opening(t), run).value.sys)
  {
    if run == [] {
      actions := [];
    } else {
      hide *;
      LivedSnoc(t, Opening(t), run);
      var front, e := run[..|run| - 1], run[|run| - 1];
      actions := LivedReaches(t, front);
      NextSys(t, Lived(t, Opening(t), front).value, e);
      if e.Protocol? {
        AfterSnoc(t.config, StreamProtocol.Initial(t.config), actions, e.a);
        actions := actions + [e.a];
      }
    }
  }

  // ---- Every call that came back -----------------------------------------------------------

  lemma {:induction false} BackSplits(tasks: seq<Calls.Outcome>, completed: seq<nat>, n: nat)
    requires n <= |completed|
    ensures Back(tasks, completed) == Back(tasks, completed[..n]) + Back(tasks, completed[n..])
  {
  }

  /** Taken one by one, the first `n` calls that came back are the first `n` of the group. */
  lemma {:induction false} FirstBack(tasks: seq<Calls.Outcome>, capacity: nat, rest: seq<nat>, pool: E.Pool<Calls.Outcome>, n: nat)
    requires Pooled(tasks, capacity, rest, pool) && rest != [] && rest[0] > 1 && AreBack(pool, n) && n <= |tasks|
    ensures n <= |pool.completed| && Back(tasks, pool.completed[..n]) == tasks[..n]
  {
    if n > 0 {
      var last: nat := n - 1;
      assert last in pool.completed;
      var k :| 0 <= k < |pool.completed| && pool.completed[k] == last;
      assert k == last;
    }
  }

  /** The calls that came back are those of the steps taken, and the unseen ones. */
  lemma {:induction false} AnsweredSplits(t: Timeline, l: Live)
    requires Keeps(t, l)
    ensures multiset(l.answered) == multiset(Between(t.config.script.effects, 0, l.sys.pos)) + multiset(Unseen(t, l))
  {
    var effects, pos := t.config.script.effects, l.sys.pos;
    var tasks, taken := Tasks(t, l.first, l.rest), Between(effects, l.first, pos);
    hide Inv, Pooled, AreBack, Back, Calls.Sum, CallsOfSteps;
    if l.rest != [] && l.rest[0] > 1 {
      GroupFits(effects, l.first, l.rest, pos);
      TasksAre(t, l.first, l.rest);
      CallsCut(effects, l.first, pos, l.first + l.rest[0]);
      CallsCut(effects, 0, l.first, pos);
      hide Between, Tasks;
      assert tasks[..|taken|] == taken;
      FirstBack(tasks, t.capacity, l.rest, l.pool, |taken|);
      BackSplits(tasks, l.pool.completed, |taken|);
    } else {
      GroupGone(effects, l.first, l.rest, pos);
      NothingYet(tasks, effects, pos);
      assert l.pool.completed[0..] == l.pool.completed;
    }
  }

  /** The row of a final call that the pump forwards. */
  ghost function Forwarded(c: Config, s: Sink): seq<Calls.Outcome> {
    if s.forwarding then [JudgeRow(c, s)] else []
  }

  /** Every call that came back while the stream lived, and the forwarded final call, has its row, except
      those that no step has taken; so each has exactly one row exactly when there are none of those. The
      totals are short by their tokens. Only a client that leaves an attached stream brings this about. */
  ghost predicate Accounted(t: Timeline, l: Live, pre: seq<Calls.Outcome>)
    requires l.sys.saved.Some?
  {
    var saved, lost, made := l.sys.saved.value, Unseen(t, l), l.answered + Forwarded(t.config, l.sys.sink);
    && multiset(saved.rows + lost) == multiset(made)
    && (multiset(saved.rows) == multiset(made) <==> lost == [])
    && saved.promptTokens + Calls.SumOf(lost, Calls.Prompt) == Calls.SumOf(pre + made, Calls.Prompt)
    && saved.completionTokens + Calls.SumOf(lost, Calls.Completion) == Calls.SumOf(pre + made, Calls.Completion)
    && (t.config.detach || l.sys.ferry == Drained ==> lost == [])
  }

  /** The rows are those of the steps taken, and the forwarded one. */
  ghost predicate Tallies(c: Config, s: System)
    requires s.saved.Some?
  {
    multiset(s.saved.value.rows) == multiset(Between(c.script.effects, 0, s.pos) + Forwarded(c, s.sink))
  }

  lemma {:induction false} SumsAgree(pre: seq<Calls.Outcome>, rows: seq<Calls.Outcome>, lost: seq<Calls.Outcome>, made: seq<Calls.Outcome>,
        kind: Calls.Tokens)
    requires multiset(rows + lost) == multiset(made)
    ensures Calls.SumOf(pre + rows, kind) + Calls.SumOf(lost, kind) == Calls.SumOf(pre + made, kind)
  {
    hide Calls.SumOf;
    Calls.SumOfConcat(pre, rows, kind);
    Calls.SumOfConcat(pre, made, kind);
    Calls.SumOfConcat(rows, lost, kind);
    Calls.SumOfPermutation(rows + lost, made, kind);
  }

  lemma {:induction false} LostOrNot(rows: seq<Calls.Outcome>, lost: seq<Calls.Outcome>, made: seq<Calls.Outcome>)
    requires multiset(rows + lost) == multiset(made)
    ensures multiset(rows) == multiset(made) <==> lost == []
  {
    if lost == [] {
      assert rows + lost == rows;
    } else {
      assert lost[0] in multiset(lost);
      assert multiset(rows + lost)[lost[0]] == multiset(rows)[lost[0]] + multiset(lost)[lost[0]];
    }
  }

  /** When no step is left, no call is. */
  lemma {:induction false} NothingLeft(t: Timeline, l: Live)
    requires Keeps(t, l) && l.sys.pos == |t.config.script.effects|
    ensures Unseen(t, l) == []
  {
    hide Inv, AnsweredIs, Between, AreBack, CallsOfSteps;
    GroupGone(t.config.script.effects, l.first, l.rest, l.sys.pos);
    NoTasks(t, l.first);
    assert l.pool.completed == [] by {
      NoElement(l.pool.completed);
    }
  }

  lemma {:induction false} NoTasks(t: Timeline, first: nat)
    ensures Tasks(t, first, []) == []
  {
  }

  lemma {:induction false} FromRun(t: Timeline, l: Live)
    requires Proper(t) && CanLive(t, l)
    ensures WellFormedConfig(t.config) && Keeps(t, l) && Reachable(t.config, l.sys)
  {
    var run :| Lived(t, Opening(t), run) == Some(l);
    assert WellFormedConfig(t.config);
    hide Proper, WellFormedConfig, Keeps, Lived, After;
    LivedKeeps(t, run);
    var actions := LivedReaches(t, run);
  }

  lemma {:induction false} Accounts(t: Timeline, l: Live, pre: seq<Calls.Outcome>)
    requires Proper(t) && CanLive(t, l) && l.sys.saved.Some?
    requires StartsFrom(t.config.base, pre) && t.config.initial.rows == [] && UsageNeedsFinal(t.config) && Tallies(t.config, l.sys)
    ensures Accounted(t, l, pre) && Reachable(t.config, l.sys)
  {
    hide *;
    var c, s := t.config, l.sys;
    FromRun(t, l);
    AnsweredSplits(t, l);
    PersistedRows(c, s, pre);
    if c.detach || s.ferry == Drained {
      ClientSeesPrefix(c, s);
      NothingLeft(t, l);
    }
    Conclude(t, l, pre);
  }

  lemma {:induction false} Conclude(t: Timeline, l: Live, pre: seq<Calls.Outcome>)
    requires l.sys.saved.Some? && Tallies(t.config, l.sys)
    requires multiset(l.answered) == multiset(Between(t.config.script.effects, 0, l.sys.pos)) + multiset(Unseen(t, l))
    requires l.sys.saved.value.promptTokens == Calls.SumOf(pre + l.sys.saved.value.rows, Calls.Prompt)
    requires l.sys.saved.value.completionTokens == Calls.SumOf(pre + l.sys.saved.value.rows, Calls.Completion)
    requires t.config.detach || l.sys.ferry == Drained ==> Unseen(t, l) == []
    ensures Accounted(t, l, pre)
  {
    hide Between, Unseen, Forwarded, Calls.SumOf, Tallies;
    RowsAndLost(t, l);
    var rows, lost, made := l.sys.saved.value.rows, Unseen(t, l), l.answered + Forwarded(t.config, l.sys.sink);
    LostOrNot(rows, lost, made);
    SumsAgree(pre, rows, lost, made, Calls.Prompt);
    SumsAgree(pre, rows, lost, made, Calls.Completion);
  }

  lemma {:induction false} RowsAndLost(t: Timeline, l: Live)
    requires l.sys.saved.Some? && Tallies(t.config, l.sys)
    requires multiset(l.answered) == multiset(Between(t.config.script.effects, 0, l.sys.pos)) + multiset(Unseen(t, l))
    ensures multiset(l.sys.saved.value.rows + Unseen(t, l)) == multiset(l.answered + Forwarded(t.config, l.sys.sink))
  {
    hide Between, Unseen, Forwarded;
  }

  // ---- It does happen ----------------------------------------------------------------------

  lemma {:induction false} Goes(t: Timeline, l: Live, e: Event)
    requires CanLive(t, l) && Possible(t, l, e)
    ensures CanLive(t, Next(t, l, e))
  {
    var run :| Lived(t, Opening(t), run) == Some(l);
    hide Possible, Next, Opening;
    assert (run + [e])[..|run|] == run;
    assert Lived(t, Opening(t), run + [e]) == Some(Next(t, l, e));
  }

  lemma {:induction false} Begins(t: Timeline)
    ensures CanLive(t, Opening(t))
  {
    hide Opening;
    assert Lived(t, Opening(t), []) == Some(Opening(t));
  }

  /** The client leaves, the pump is stopped where it is, and the request is persisted. */
  lemma {:induction false} ClientLeaves(t: Timeline, l: Live) returns (end: Live)
    requires CanLive(t, l) && !t.config.detach && l.sys.ferry == Serving && l.sys.pump == Active && l.sys.saved == None
    ensures CanLive(t, end) && end.sys.saved.Some? && end.answered == l.answered && Unseen(t, end) == Unseen(t, l)
    ensures end.sys.sink == l.sys.sink.(status := ClientCancelled) && end.sys.pos == l.sys.pos
  {
    hide Opening, Lived, CanLive, Between, Tasks, Back, Ready, Summary;
    Goes(t, l, Protocol(Disconnect));
    var gone := Next(t, l, Protocol(Disconnect));
    Goes(t, gone, Protocol(PumpAbort));
    var stopped := Next(t, gone, Protocol(PumpAbort));
    Goes(t, stopped, Protocol(Persist));
    end := Next(t, stopped, Protocol(Persist));
  }

  /** The next call of the group is made and comes back. */
  lemma {:induction false} CallComesBack(t: Timeline, l: Live, i: nat) returns (after: Live)
    requires CanLive(t, l) && l.sys.pump != Over && i < |l.pool.phase| == |l.pool.result| && l.pool.phase[i] == E.Waiting && l.pool.free > 0
    requires i == |l.pool.completed| && i < |Tasks(t, l.first, l.rest)|
    ensures CanLive(t, after) && after.sys == l.sys && after.first == l.first && after.rest == l.rest
    ensures after.pool.completed == l.pool.completed + [i] && after.pool.free == l.pool.free
    ensures |after.pool.phase| == |l.pool.phase| == |after.pool.result|
    ensures forall j :: 0 <= j < |l.pool.phase| ==> after.pool.phase[j] == if j == i then E.Done else l.pool.phase[j]
    ensures after.answered == l.answered + [Tasks(t, l.first, l.rest)[i]]
  {
    hide Opening, Lived, CanLive, Tasks, Ready;
    Goes(t, l, Call(E.Start(i)));
    var out := Next(t, l, Call(E.Start(i)));
    Goes(t, out, Call(E.Finish(i)));
    after := Next(t, out, Call(E.Finish(i)));
  }

  // ---- Every run of the protocol -----------------------------------------------------------

  /** The first `k` calls of the group in flight are back, in their order, and the others have not begun. */
  predicate Eager(t: Timeline, l: Live, k: nat) {
    && |l.pool.phase| == |l.pool.result| == |Tasks(t, l.first, l.rest)| && l.pool.free == t.capacity
    && |l.pool.completed| == k && (forall j :: 0 <= j < k ==> l.pool.completed[j] == j)
    && forall j :: 0 <= j < |l.pool.phase| ==> l.pool.phase[j] == if j < k then E.Done else E.Waiting
  }

  lemma {:induction false} CallsComeBack(t: Timeline, l: Live, k: nat, n: nat) returns (after: Live)
    requires CanLive(t, l) && Eager(t, l, k) && k <= n <= |Tasks(t, l.first, l.rest)| && l.sys.pump != Over && t.capacity >= 1
    ensures CanLive(t, after) && Eager(t, after, n) && after.sys == l.sys && after.first == l.first && after.rest == l.rest
    decreases n - k
  {
    hide CanLive, Tasks;
    if k == n {
      return l;
    }
    var next := CallComesBack(t, l, k);
    after := CallsComeBack(t, next, k + 1, n);
  }

  /** The calls of the next step are among those of the group. */
  lemma {:induction false} NextFits(effects: seq<Effect>, first: nat, rest: seq<nat>, pos: nat)
    requires Placed(effects, first, rest, pos) && pos < |effects|
    ensures rest != [] && first + rest[0] <= |effects|
    ensures |Between(effects, first, pos)| <= |Between(effects, first, pos + 1)| <= |Between(effects, first, first + rest[0])|
  {
    hide Calls.Sum, Between;
    GroupLeft(effects, first, rest, pos);
    GroupFits(effects, first, rest, pos);
    BetweenGrows(effects, first, pos, pos + 1);
    BetweenGrows(effects, first, pos + 1, first + rest[0]);
  }

  lemma {:induction false} BetweenGrows(effects: seq<Effect>, j: nat, k: nat, m: nat)
    requires j <= k <= m <= |effects|
    ensures |Between(effects, j, k)| <= |Between(effects, j, m)|
  {
    hide CallsOfSteps;
    CallsCut(effects, j, k, m);
  }

  lemma {:induction false} EagerTake(t: Timeline, l: Live) returns (after: Live)
    requires CanLive(t, l) && Keeps(t, l) && t.capacity >= 1 && Eager(t, l, |Between(t.config.script.effects, l.first, l.sys.pos)|)
    requires Enabled(t.config, l.sys, PumpStep) && l.sys.pos < |t.config.script.effects|
    ensures CanLive(t, after) && after.sys == Step(t.config, l.sys, PumpStep)
    ensures Eager(t, after, |Between(t.config.script.effects, after.first, after.sys.pos)|)
  {
    hide *;
    var effects, pos := t.config.script.effects, l.sys.pos;
    StillPumping(t, l);
    NextFits(effects, l.first, l.rest, pos);
    TasksAre(t, l.first, l.rest);
    var back := CallsComeBack(t, l, |Between(effects, l.first, pos)|, |Between(effects, l.first, pos + 1)|);
    after := TakeReady(t, back);
  }

  lemma {:induction false} StillPumping(t: Timeline, l: Live)
    requires Keeps(t, l) && Enabled(t.config, l.sys, PumpStep)
    ensures Placed(t.config.script.effects, l.first, l.rest, l.sys.pos) && l.sys.pump != Over
  {
    hide Inv, Placed, Pooled, AreBack, AnsweredIs, Between, Tasks;
  }

  /** All calls of the next step are back, and none of the others. */
  lemma {:induction false} TakeReady(t: Timeline, l: Live) returns (after: Live)
    requires CanLive(t, l) && Eager(t, l, |Between(t.config.script.effects, l.first, l.sys.pos + 1)|)
    requires |Between(t.config.script.effects, l.first, l.sys.pos + 1)| <= |Tasks(t, l.first, l.rest)|
    requires Enabled(t.config, l.sys, PumpStep) && l.sys.pos < |t.config.script.effects|
    ensures CanLive(t, after) && after.sys == Step(t.config, l.sys, PumpStep)
    ensures Eager(t, after, |Between(t.config.script.effects, after.first, after.sys.pos)|)
  {
    var sys := Step(t.config, l.sys, PumpStep);
    TakesOne(t.config, l.sys);
    NothingYet([], t.config.script.effects, l.sys.pos + 1);
    ReadyWhenEager(t, l);
    NextOfTake(t, l);
    hide *;
    Goes(t, l, Protocol(PumpStep));
    after := Next(t, l, Protocol(PumpStep));
    if l.rest != [] {
      EagerBegin(t, sys, sys.pos, l.rest[1..], l.answered);
    }
    EagerSys(t, l, sys, |Between(t.config.script.effects, l.first, l.sys.pos + 1)|);
  }

  lemma {:induction false} ReadyWhenEager(t: Timeline, l: Live)
    requires Eager(t, l, |Between(t.config.script.effects, l.first, l.sys.pos + 1)|)
    requires |Between(t.config.script.effects, l.first, l.sys.pos + 1)| <= |Tasks(t, l.first, l.rest)|
    ensures Ready(t, l)
  {
    hide Between, Tasks;
  }

  lemma {:induction false} NextOfTake(t: Timeline, l: Live)
    requires Ready(t, l) && Enabled(t.config, l.sys, PumpStep) && l.sys.pos < |t.config.script.effects|
    ensures Possible(t, l, Protocol(PumpStep))
    ensures var sys := Step(t.config, l.sys, PumpStep);
      Next(t, l, Protocol(PumpStep)) ==
        if l.rest != [] && sys.pos == l.first + l.rest[0] then Begin(t, sys, sys.pos, l.rest[1..], l.answered) else l.(sys := sys)
  {
    hide Ready, Enabled, Step, Begin;
  }

  lemma {:induction false} EagerBegin(t: Timeline, sys: System, first: nat, rest: seq<nat>, answered: seq<Calls.Outcome>)
    ensures var l := Begin(t, sys, first, rest, answered); Eager(t, l, 0) && l.sys == sys && l.first == first
  {
    hide Tasks;
  }

  lemma {:induction false} EagerSys(t: Timeline, l: Live, sys: System, k: nat)
    requires Eager(t, l, k)
    ensures Eager(t, l.(sys := sys), k)
  {
    hide Tasks;
  }

  /** Every run of the protocol is the protocol part of a run with calls in flight: one in which the calls
      come back one after the other, right in time. */
  lemma {:induction false} EveryRunLives(t: Timeline, run: seq<Action>) returns (l: Live)
    requires Proper(t) && After(t.config, StreamProtocol.Initial(t.config), run).Some?
    ensures CanLive(t, l) && l.sys == After(t.config, StreamProtocol.Initial(t.config), run).value
    ensures Eager(t, l, |Between(t.config.script.effects, l.first, l.sys.pos)|)
  {
    if run == [] {
      Begins(t);
      NothingYet([], t.config.script.effects, 0);
      l := Opening(t);
    } else {
      var front, a := run[..|run| - 1], run[|run| - 1];
      assert t.capacity >= 1;
      hide CanLive, Keeps, Proper, Eager, Between, Step, Enabled;
      var before := EveryRunLives(t, front);
      if a.PumpStep? && before.sys.pos < |t.config.script.effects| {
        FromRun(t, before);
        l := EagerTake(t, before);
      } else {
        l := EagerOther(t, before, a);
      }
    }
  }

  lemma {:induction false} EagerOther(t: Timeline, l: Live, a: Action) returns (after: Live)
    requires CanLive(t, l) && Eager(t, l, |Between(t.config.script.effects, l.first, l.sys.pos)|)
    requires Enabled(t.config, l.sys, a) && !(a.PumpStep? && l.sys.pos < |t.config.script.effects|)
    ensures CanLive(t, after) && after.sys == Step(t.config, l.sys, a)
    ensures Eager(t, after, |Between(t.config.script.effects, after.first, after.sys.pos)|)
  {
    SamePos(t.config, l.sys, a);
    hide CanLive, Between, Tasks, Step, Enabled;
    Goes(t, l, Protocol(a));
    after := Next(t, l, Protocol(a));
  }

  /** The size of every group is one step. */
  function Ones(n: nat): seq<nat> {
    seq(n, _ => 1)
  }

  /** The calls of one step. */
  lemma {:induction false} StepCalls(effects: seq<Effect>, k: nat)
    requires k < |effects|
    ensures Between(effects, k, k + 1) == CallsIn(effects[k]) && Between(effects, k, k) == []
  {
    assert effects[k..k + 1] == [effects[k]] && effects[k..k] == [];
    OneStep(effects[k]);
  }

  /** The pump is through with a first step that takes nothing, and the round behind it begins. */
  lemma {:induction false} RoundBegins(t: Timeline) returns (l: Live)
    requires t.config.script.gate == 0 && |t.config.script.effects| >= 2 && t.stages == Ones(|t.config.script.effects|)
    requires CallsIn(t.config.script.effects[0]) == []
    ensures CanLive(t, l) && l == Begin(t, l.sys, 1, Ones(|t.config.script.effects|)[1..], [])
    ensures l.sys.pos == 1 && l.sys.pump == Active && l.sys.ferry == Serving && l.sys.saved == None
    ensures Tasks(t, l.first, l.rest) == CallsIn(t.config.script.effects[1])
  {
    var effects := t.config.script.effects;
    Begins(t);
    StepCalls(effects, 0);
    StepCalls(effects, 1);
    TasksAre(t, 1, Ones(|effects|)[1..]);
    hide CanLive, Lived, CallsIn, Between, Tasks;
    Goes(t, Opening(t), Protocol(PumpStep));
    l := Next(t, Opening(t), Protocol(PumpStep));
  }

  /** Every attached stream whose second step takes the outcomes of a round as a whole can lose the first of
      them: it has come back when the client leaves, and the others have not. */
  lemma {:induction false} MidRoundLoss(t: Timeline) returns (l: Live)
    requires Proper(t) && !t.config.detach && t.config.script.gate == 0
    requires |t.config.script.effects| >= 2 && t.stages == Ones(|t.config.script.effects|)
    requires CallsIn(t.config.script.effects[0]) == [] && |CallsIn(t.config.script.effects[1])| >= 2
    ensures CanLive(t, l) && l.sys.saved.Some? && l.sys.pos == 1
    ensures Unseen(t, l) == [CallsIn(t.config.script.effects[1])[0]]
  {
    var begun := RoundBegins(t);
    StepCalls(t.config.script.effects, 1);
    assert t.capacity >= 1;
    hide CanLive, Proper, CallsIn, Between, Tasks, Ones;
    var back := CallComesBack(t, begun, 0);
    assert back.pool.completed == [0];
    OneBack(Tasks(t, begun.first, begun.rest), back.pool.completed, 0);
    l := ClientLeaves(t, back);
  }

  lemma {:induction false} OneBack(tasks: seq<Calls.Outcome>, completed: seq<nat>, k: nat)
    requires k < |tasks| && |completed| == k + 1 && completed[k] == k
    ensures Back(tasks, completed[k..]) == [tasks[k]]
  {
    var left := completed[k..];
    assert |left| == 1 && left[0] == k;
    assert Replies(tasks)(k) == tasks[k];
    assert Back(tasks, left)[0] == Replies(tasks)(left[0]);
  }

  /** The first call of a group that is taken one by one comes back, is taken, and the response begins. */
  lemma {:induction false} FirstShown(t: Timeline) returns (l: Live)
    requires Proper(t) && t.config.script.gate == 1 && t.stages != [] && t.stages[0] >= 2
    requires forall k :: 0 <= k < t.stages[0] && k < |t.config.script.effects| ==> |CallsIn(t.config.script.effects[k])| == 1
    ensures CanLive(t, l) && l.first == 0 && l.rest == t.stages && l.answered == [CallsIn(t.config.script.effects[0])[0]]
    ensures |l.pool.phase| == |l.pool.result| == |Tasks(t, 0, t.stages)| >= 2
    ensures l.pool.phase[1] == E.Waiting && l.pool.free > 0 && l.pool.completed == [0]
    ensures l.sys.pos == 1 && l.sys.pump == Active && l.sys.ferry == Serving && l.sys.saved == None
    ensures t.stages[0] <= |t.config.script.effects|
    ensures Tasks(t, 0, t.stages)[..2] == CallsIn(t.config.script.effects[0]) + CallsIn(t.config.script.effects[1])
  {
    FirstTwo(t);
    StepCalls(t.config.script.effects, 0);
    assert t.capacity >= 1;
    hide CanLive, Lived, Proper, CallsIn, Tasks, Between;
    Begins(t);
    var back := CallComesBack(t, Opening(t), 0);
    hide CallsOfSteps;
    Goes(t, back, Protocol(PumpStep));
    var taken := Next(t, back, Protocol(PumpStep));
    Goes(t, taken, Protocol(Serve));
    l := Next(t, taken, Protocol(Serve));
  }

  lemma {:induction false} FirstTwo(t: Timeline)
    requires Proper(t) && t.stages != [] && t.stages[0] >= 2
    requires forall k :: 0 <= k < t.stages[0] && k < |t.config.script.effects| ==> |CallsIn(t.config.script.effects[k])| == 1
    ensures t.stages[0] <= |t.config.script.effects| && |Tasks(t, 0, t.stages)| >= 2
    ensures |CallsIn(t.config.script.effects[0])| == 1 && |CallsIn(t.config.script.effects[1])| == 1
    ensures Tasks(t, 0, t.stages)[..2] == CallsIn(t.config.script.effects[0]) + CallsIn(t.config.script.effects[1])
    ensures Tasks(t, 0, t.stages)[0] == CallsIn(t.config.script.effects[0])[0]
  {
    var effects := t.config.script.effects;
    SumAtLeast(t.stages);
    TasksAre(t, 0, t.stages);
    CallsCut(effects, 0, 2, t.stages[0]);
    CallsCut(effects, 0, 1, 2);
    StepCalls(effects, 0);
    StepCalls(effects, 1);
    var first, second := CallsIn(effects[0]), CallsIn(effects[1]);
    hide CallsIn, Tasks, CallsOfSteps, Calls.Sum;
    assert (first + second)[0] == first[0];
  }

  lemma {:induction false} SumAtLeast(numbers: seq<nat>)
    requires numbers != []
    ensures numbers[0] <= Calls.Sum(numbers)
  {
  }

  /** So can every attached process stream that begins with two or more calls: the second call has come back
      when the client leaves, and the pump has not come to it. */
  lemma {:induction false} UnshownLoss(t: Timeline) returns (l: Live)
    requires Proper(t) && !t.config.detach && t.config.script.gate == 1 && t.stages != [] && t.stages[0] >= 2
    requires forall k :: 0 <= k < t.stages[0] && k < |t.config.script.effects| ==> |CallsIn(t.config.script.effects[k])| == 1
    ensures CanLive(t, l) && l.sys.saved.Some? && l.sys.pos == 1 && |t.config.script.effects| >= 2
    ensures Unseen(t, l) == CallsIn(t.config.script.effects[1])
  {
    FirstTwo(t);
    var tasks, first, second := Tasks(t, 0, t.stages), CallsIn(t.config.script.effects[0]), CallsIn(t.config.script.effects[1]);
    StepCalls(t.config.script.effects, 0);
    SecondOf(tasks, first, second);
    hide CanLive, Proper, CallsIn, Between, Tasks, Lived;
    var shown := FirstShown(t);
    var back := CallComesBack(t, shown, 1);
    assert back.pool.completed == [0, 1];
    OneBack(tasks, back.pool.completed, 1);
    l := ClientLeaves(t, back);
  }

  lemma {:induction false} SecondOf(tasks: seq<Calls.Outcome>, first: seq<Calls.Outcome>, second: seq<Calls.Outcome>)
    requires |tasks| >= 2 && |first| == 1 && |second| == 1 && tasks[..2] == first + second
    ensures [tasks[1]] == second
  {
    assert tasks[..2][1] == tasks[1];
  }

  lemma {:induction false} OneStep(e: Effect)
    ensures CallsOfSteps([e]) == CallsIn(e)
  {
    assert [e][..0] == [];
    assert [] + CallsIn(e) == CallsIn(e);
  }
}
