/** The member executor: tasks that share one semaphore, under an arbitrary scheduler. */
module Executor {
  import opened Prelude

  /** `max(1, int(max_concurrency or 10))` */
  function Capacity(maxConcurrency: int): (c: nat)
    ensures c >= 1
    ensures maxConcurrency >= 1 ==> c == maxConcurrency
    ensures maxConcurrency == 0 ==> c == 10
    ensures maxConcurrency < 0 ==> c == 1
  {
    var wanted := if maxConcurrency == 0 then 10 else maxConcurrency;
    if wanted < 1 then 1 else wanted
  }

  datatype Phase = Waiting | Running | Done | Cancelled

  /** `free` semaphore permits, one phase and at most one result per task in configuration order, and
      the tasks that finished in the order in which they did. */
  datatype Pool<R> = Pool(free: nat, phase: seq<Phase>, result: seq<Option<R>>, completed: seq<nat>)

  /** The atomic steps: a task gets a permit and calls upstream; its call returns and the permit goes
      back; a task is cancelled, in its call or before it. */
  datatype Move = Start(i: nat) | Finish(i: nat) | Cancel(i: nat)

  predicate Enabled<R>(s: Pool<R>, m: Move) {
    && m.i < |s.phase| == |s.result|
    && match m
       case Start(i) => s.phase[i] == Waiting && s.free > 0
       case Finish(i) => s.phase[i] == Running
       case Cancel(i) => s.phase[i] == Running || s.phase[i] == Waiting
  }

  function Apply<R>(f: nat -> R, s: Pool<R>, m: Move): Pool<R>
    requires Enabled(s, m)
  {
    match m
    case Start(i) => s.(free := s.free - 1, phase := s.phase[i := Running])
    case Finish(i) =>
      s.(free := s.free + 1, phase := s.phase[i := Done], result := s.result[i := Some(f(i))],
         completed := s.completed + [i])
    case Cancel(i) =>
      s.(free := if s.phase[i] == Running then s.free + 1 else s.free, phase := s.phase[i := Cancelled])
  }

  function Initial<R>(n: nat, capacity: nat): Pool<R> {
    Pool(capacity, seq(n, _ => Waiting), seq(n, _ => None), [])
  }

  function Count(phase: seq<Phase>, p: Phase): nat {
    if phase == [] then 0 else (if phase[0] == p then 1 else 0) + Count(phase[1..], p)
  }

  lemma {:induction false} CountUpdate(phase: seq<Phase>, i: nat, q: Phase, p: Phase)
    requires i < |phase|
    ensures Count(phase[i := q], p)
         == Count(phase, p) - (if phase[i] == p then 1 else 0) + (if q == p then 1 else 0)
  {
    var changed := phase[i := q];
    if i == 0 {
      assert changed[1..] == phase[1..];
    } else {
      assert changed[1..] == phase[1..][i - 1 := q];
      CountUpdate(phase[1..], i - 1, q, p);
    }
  }

  lemma {:induction false} CountBound(phase: seq<Phase>, p: Phase)
    ensures Count(phase, p) <= |phase|
    ensures Count(phase, p) > 0 <==> p in phase
  {
    if phase != [] {
      CountBound(phase[1..], p);
      assert phase == [phase[0]] + phase[1..];
    }
  }

  // ---- What every schedule keeps -----------------------------------------------------------

  ghost predicate Valid<R>(f: nat -> R, capacity: nat, s: Pool<R>) {
    && |s.phase| == |s.result|
    && s.free + Count(s.phase, Running) == capacity
    && (forall i :: 0 <= i < |s.phase| ==> s.result[i] == if s.phase[i] == Done then Some(f(i)) else None)
    && Distinct(s.completed)
    && (forall i: nat :: i in s.completed <==> i < |s.phase| && s.phase[i] == Done)
  }

  lemma {:induction false} InitialValid<R>(f: nat -> R, n: nat, capacity: nat)
    ensures Valid(f, capacity, Initial(n, capacity))
  {
    CountBound(seq(n, _ => Waiting), Running);
  }

  lemma {:induction false} StepKeepsValid<R>(f: nat -> R, capacity: nat, s: Pool<R>, m: Move)
    requires Valid(f, capacity, s) && Enabled(s, m)
    ensures Valid(f, capacity, Apply(f, s, m))
  {
    var q := match m case Start(_) => Running case Finish(_) => Done case Cancel(_) => Cancelled;
    CountUpdate(s.phase, m.i, q, Running);
  }

  /** Work left to do: two steps for a task that waits, one for a task that runs. */
  function Work(phase: seq<Phase>): nat {
    2 * Count(phase, Waiting) + Count(phase, Running)
  }

  lemma {:induction false} StepReducesWork<R>(f: nat -> R, s: Pool<R>, m: Move)
    requires Enabled(s, m)
    ensures Work(Apply(f, s, m).phase) < Work(s.phase)
  {
    var q := match m case Start(_) => Running case Finish(_) => Done case Cancel(_) => Cancelled;
    CountUpdate(s.phase, m.i, q, Running);
    CountUpdate(s.phase, m.i, q, Waiting);
  }

  /** `s` followed through a schedule; None when the schedule asks for a step that is not enabled. */
  function Follow<R>(f: nat -> R, s: Pool<R>, schedule: seq<Move>): Option<Pool<R>>
    decreases |schedule|
  {
    if schedule == [] then Some(s)
    else if Enabled(s, schedule[0]) then Follow(f, Apply(f, s, schedule[0]), schedule[1..])
    else None
  }

  /** Every schedule keeps `permits + running == capacity`, so never more than `capacity` calls are in
      flight, and is over after at most two steps a task. */
  lemma {:induction false} EverySchedule<R>(f: nat -> R, capacity: nat, s: Pool<R>, schedule: seq<Move>)
    requires Valid(f, capacity, s) && Follow(f, s, schedule).Some?
    ensures var end := Follow(f, s, schedule).value;
      Valid(f, capacity, end) && Count(end.phase, Running) <= capacity && |end.phase| == |s.phase|
    ensures |schedule| <= Work(s.phase)
    decreases |schedule|
  {
    if schedule != [] {
      StepKeepsValid(f, capacity, s, schedule[0]);
      StepReducesWork(f, s, schedule[0]);
      EverySchedule(f, capacity, Apply(f, s, schedule[0]), schedule[1..]);
    }
  }

  /** The tasks whose calls return in a schedule, in the order in which they do. */
  function Returned(schedule: seq<Move>): seq<nat> {
    if schedule == [] then []
    else (match schedule[0] case Finish(i) => [i] case _ => []) + Returned(schedule[1..])
  }

  /** The completion order is the order in which the calls return. */
  lemma {:induction false} CompletionOrder<R>(f: nat -> R, s: Pool<R>, schedule: seq<Move>)
    requires Follow(f, s, schedule).Some?
    ensures Follow(f, s, schedule).value.completed == s.completed + Returned(schedule)
    decreases |schedule|
  {
    if schedule == [] {
      assert s.completed + [] == s.completed;
    } else {
      var next := Apply(f, s, schedule[0]);
      CompletionOrder(f, next, schedule[1..]);
      var first: seq<nat> := match schedule[0] case Finish(i) => [i] case _ => [];
      assert next.completed == s.completed + first;
      AppendAssociates(s.completed, first, Returned(schedule[1..]));
    }
  }

  /** No deadlock: while a task is unfinished, one can start or one can finish. */
  lemma {:induction false} SomeStepEnabled<R>(f: nat -> R, capacity: nat, s: Pool<R>)
    requires Valid(f, capacity, s) && capacity >= 1
    requires exists i :: 0 <= i < |s.phase| && (s.phase[i] == Waiting || s.phase[i] == Running)
    ensures exists i: nat :: Enabled(s, Start(i)) || Enabled(s, Finish(i))
  {
    CountBound(s.phase, Running);
    if Running in s.phase {
      var i: nat :| i < |s.phase| && s.phase[i] == Running;
      assert Enabled(s, Finish(i));
    } else {
      var i: nat :| i < |s.phase| && s.phase[i] == Waiting;
      assert Enabled(s, Start(i));
    }
  }

  ghost predicate Permutation(order: seq<nat>, n: nat) {
    && Distinct(order)
    && (forall i: nat :: i in order <==> i < n)
  }

  /** When nothing is left to do and nothing was cancelled, the results in configuration order are the
      calls' own results, whatever the completion order was, and every task completed exactly once. */
  lemma {:induction false} FinishedPool<R>(f: nat -> R, capacity: nat, s: Pool<R>)
    requires Valid(f, capacity, s)
    requires forall i :: 0 <= i < |s.phase| ==> s.phase[i] == Done
    ensures forall i :: 0 <= i < |s.phase| ==> s.result[i] == Some(f(i))
    ensures Permutation(s.completed, |s.phase|) && |s.completed| == |s.phase|
  {
    PermutationLength(s.completed, |s.phase|);
  }

  lemma {:induction false} DropLargest(order: seq<nat>, n: nat) returns (k: nat)
    requires Permutation(order, n) && n > 0
    ensures k < |order| && order[k] == n - 1 && Permutation(Without(order, k), n - 1)
  {
    var last: nat := n - 1;
    assert last in order;
    k :| k < |order| && order[k] == last;
    var rest := Without(order, k);
    forall i: nat ensures i in rest <==> i < n - 1 {
      if i in rest {
        assert i in order;
      }
      if i < n - 1 {
        assert i in order;
        var j :| 0 <= j < |order| && order[j] == i;
        assert rest[if j < k then j else j - 1] == i;
      }
    }
  }

  lemma {:induction false} PermutationInRange(order: seq<nat>, n: nat)
    requires Permutation(order, n)
    ensures forall k :: 0 <= k < |order| ==> order[k] < n
  {
    assert forall k :: 0 <= k < |order| ==> order[k] in order;
  }

  lemma {:induction false} PermutationLength(order: seq<nat>, n: nat)
    requires Permutation(order, n)
    ensures |order| == n
  {
    PermutationInRange(order, n);
    assert |order| > 0 ==> order[0] < n;
    if n > 0 {
      var k := DropLargest(order, n);
      PermutationLength(Without(order, k), n - 1);
    }
  }

  function Pick<T>(xs: seq<T>, order: seq<nat>): seq<T>
    requires forall k :: 0 <= k < |order| ==> order[k] < |xs|
  {
    seq(|order|, k requires 0 <= k < |order| => xs[order[k]])
  }

  lemma {:induction false} PickWithout<T>(xs: seq<T>, order: seq<nat>, k: nat)
    requires xs != [] && k < |order| && forall j :: 0 <= j < |order| ==> order[j] < |xs|
    requires forall j :: 0 <= j < |order| && j != k ==> order[j] < |xs| - 1
    ensures forall j :: 0 <= j < |Without(order, k)| ==> Without(order, k)[j] < |xs| - 1
    ensures Without(Pick(xs, order), k) == Pick(xs[..|xs| - 1], Without(order, k))
  {
  }

  /** Seen in completion order the results are a rearrangement of the results in configuration order. */
  lemma {:induction false} PickIsRearrangement<T>(xs: seq<T>, order: seq<nat>)
    requires Permutation(order, |xs|)
    ensures forall k :: 0 <= k < |order| ==> order[k] < |xs|
    ensures multiset(Pick(xs, order)) == multiset(xs)
    decreases |xs|
  {
    PermutationInRange(order, |xs|);
    PermutationLength(order, |xs|);
    if xs == [] {
      assert Pick(xs, order) == xs;
    } else {
      var last := |xs| - 1;
      var k := DropLargest(order, |xs|);
      PickWithout(xs, order, k);
      PickIsRearrangement(xs[..last], Without(order, k));
      SameBesidesLast(Pick(xs, order), k, xs);
    }
  }

  lemma {:induction false} SameBesidesLast<T>(a: seq<T>, k: nat, b: seq<T>)
    requires b != [] && k < |a| && a[k] == b[|b| - 1]
    requires multiset(Without(a, k)) == multiset(b[..|b| - 1])
    ensures multiset(a) == multiset(b)
  {
    assert a == a[..k] + ([a[k]] + a[k + 1..]);
    assert b == b[..|b| - 1] + [b[|b| - 1]];
  }

  /** `gather` and `as_completed` over the same tasks: any scheduler may choose every step. */
  method RunTasks<R>(n: nat, maxConcurrency: int, f: nat -> R) returns (results: seq<R>, completed: seq<nat>)
    ensures |results| == n && forall i :: 0 <= i < n ==> results[i] == f(i)
    ensures Permutation(completed, n) && |completed| == n
  {
    var capacity := Capacity(maxConcurrency);
    var pool := Initial(n, capacity);
    InitialValid(f, n, capacity);
    while exists i :: 0 <= i < n && pool.phase[i] != Done
      invariant Valid(f, capacity, pool) && |pool.phase| == n
      invariant Cancelled !in pool.phase
      decreases Work(pool.phase)
    {
      SomeStepEnabled(f, capacity, pool);
      var i: nat, start: bool :| i < n && Enabled(pool, if start then Start(i) else Finish(i));
      var move := if start then Start(i) else Finish(i);
      StepKeepsValid(f, capacity, pool, move);
      StepReducesWork(f, pool, move);
      pool := Apply(f, pool, move);
    }
    FinishedPool(f, capacity, pool);
    results := seq(n, i requires 0 <= i < n => pool.result[i].value);
    completed := pool.completed;
  }
}
