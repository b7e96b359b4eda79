/** Temporary lockout after failed logins: a sliding window per user name. Times are seconds of a
    monotonic clock. */
module Lockout {
  import opened Prelude

  const LOCK_THRESHOLD := 5
  const LOCK_SECONDS := 300.0

  /** Failures that still count at `now`. */
  function Live(failures: seq<real>, now: real): seq<real> {
    if failures == [] then []
    else (if now - failures[0] < LOCK_SECONDS then [failures[0]] else []) + Live(failures[1..], now)
  }

  datatype Outcome = Locked(remaining: real) | Rejected | Accepted

  function StoredFor(state: map<string, seq<real>>, username: string): seq<real> {
    if username in state then state[username] else []
  }

  /** What an attempt is answered, given the failures stored before it. */
  function Answer(stored: seq<real>, now: real, verified: bool): Outcome {
    var failures := Live(stored, now);
    if |failures| >= LOCK_THRESHOLD then Locked(LOCK_SECONDS - (now - failures[0]))
    else if verified then Accepted
    else Rejected
  }

  /** The failures stored after it. */
  function Kept(stored: seq<real>, now: real, verified: bool): seq<real> {
    match Answer(stored, now, verified)
    case Locked(_) => Live(stored, now)
    case Accepted => []
    case Rejected => Live(stored, now) + [now]
  }

  /** The module-level dictionary of the authentication service. */
  class LoginGuard {
    var state: map<string, seq<real>>

    constructor ()
      ensures state == map[]
    {
      state := map[];
    }

    method LockoutRemaining(username: string, now: real) returns (remaining: real)
      modifies this
      ensures state == old(state)[username := Live(StoredFor(old(state), username), now)]
      ensures var failures := Live(StoredFor(old(state), username), now);
        remaining == if |failures| >= LOCK_THRESHOLD then LOCK_SECONDS - (now - failures[0]) else 0.0
    {
      var failures := Live(StoredFor(state, username), now);
      state := state[username := failures];
      if |failures| >= LOCK_THRESHOLD {
        return LOCK_SECONDS - (now - failures[0]);
      }
      return 0.0;
    }

    method RecordLoginFailure(username: string, now: real)
      modifies this
      ensures state == old(state)[username := Live(StoredFor(old(state), username), now) + [now]]
    {
      var failures := Live(StoredFor(state, username), now);
      failures := failures + [now];
      state := state[username := failures];
    }

    method ResetLoginFailures(username: string)
      modifies this
      ensures state == old(state) - {username}
    {
      state := state - {username};
    }

    /** The gate in `login`; `verified` says that the user exists, is enabled and the password fits. */
    method Login(username: string, now: real, verified: bool) returns (outcome: Outcome)
      modifies this
      ensures outcome == Answer(StoredFor(old(state), username), now, verified)
      ensures StoredFor(state, username) == Kept(StoredFor(old(state), username), now, verified)
      ensures forall other :: other != username ==> StoredFor(state, other) == StoredFor(old(state), other)
    {
      LiveIsLive(StoredFor(state, username), now);
      LiveTwice(StoredFor(state, username), now);
      var remaining := LockoutRemaining(username, now);
      if remaining > 0.0 {
        return Locked(remaining);
      }
      if !verified {
        RecordLoginFailure(username, now);
        return Rejected;
      }
      ResetLoginFailures(username);
      return Accepted;
    }
  }

  lemma {:induction false} LiveIsLive(failures: seq<real>, now: real)
    ensures forall i :: 0 <= i < |Live(failures, now)| ==> now - Live(failures, now)[i] < LOCK_SECONDS
  {
    if failures != [] {
      LiveIsLive(failures[1..], now);
    }
  }

  lemma {:induction false} LiveTwice(failures: seq<real>, now: real)
    ensures Live(Live(failures, now), now) == Live(failures, now)
  {
    if failures != [] {
      var rest := Live(failures[1..], now);
      LiveTwice(failures[1..], now);
      assert Live(failures, now) == if now - failures[0] < LOCK_SECONDS then [failures[0]] + rest else rest;
      assert ([failures[0]] + rest)[1..] == rest;
    }
  }

  // ---- Runs --------------------------------------------------------------------------------

  /** One attempt of one user. */
  datatype Attempt = Attempt(now: real, verified: bool)

  predicate Chronological(attempts: seq<Attempt>) {
    forall i, j :: 0 <= i < j < |attempts| ==> attempts[i].now <= attempts[j].now
  }

  /** The failures the service has stored after a run. */
  function Stored(attempts: seq<Attempt>): seq<real> {
    if attempts == [] then []
    else
      var a := attempts[|attempts| - 1];
      Kept(Stored(attempts[..|attempts| - 1]), a.now, a.verified)
  }

  /** The answer to one more attempt after a run. */
  function AnswerAfter(attempts: seq<Attempt>, a: Attempt): Outcome {
    Answer(Stored(attempts), a.now, a.verified)
  }

  /** The policy in plain terms, on the full record of rejected attempts since the last success: locked
      while the fifth most recent of them is less than 300 seconds old. */
  predicate LockedAt(record: seq<real>, now: real) {
    |record| >= 5 && now - record[|record| - 5] < 300.0
  }

  function Record(attempts: seq<Attempt>): seq<real> {
    if attempts == [] then []
    else Recorded(Record(attempts[..|attempts| - 1]), attempts[|attempts| - 1])
  }

  function Recorded(record: seq<real>, a: Attempt): seq<real> {
    if LockedAt(record, a.now) then record
    else if a.verified then []
    else record + [a.now]
  }

  predicate Sorted(s: seq<real>) {
    forall i, j :: 0 <= i < j < |s| ==> s[i] <= s[j]
  }

  /** `stored` is what is left of the record: the dropped part has expired. */
  ghost predicate Tail(record: seq<real>, stored: seq<real>, now: real) {
    && |stored| <= LOCK_THRESHOLD && |stored| <= |record|
    && stored == record[|record| - |stored|..]
    && forall i :: 0 <= i < |record| - |stored| ==> now - record[i] >= LOCK_SECONDS
  }

  lemma {:induction false} AllLive(s: seq<real>, now: real)
    requires forall i :: 0 <= i < |s| ==> now - s[i] < LOCK_SECONDS
    ensures Live(s, now) == s
  {
    if s != [] {
      AllLive(s[1..], now);
    }
  }

  lemma {:induction false} LiveOfSorted(s: seq<real>, now: real)
    requires Sorted(s)
    ensures |Live(s, now)| <= |s| && Live(s, now) == s[|s| - |Live(s, now)|..]
    ensures forall i :: 0 <= i < |s| - |Live(s, now)| ==> now - s[i] >= LOCK_SECONDS
  {
    if s == [] {
    } else if now - s[0] < LOCK_SECONDS {
      AllLive(s, now);
    } else {
      LiveOfSorted(s[1..], now);
      assert Live(s, now) == Live(s[1..], now);
    }
  }

  /** Any six of the recorded failures span at least 300 seconds. */
  predicate Spaced(record: seq<real>) {
    forall k :: 0 <= k < |record| - 5 ==> record[k + 5] - record[k] >= 300.0
  }

  ghost predicate Sound(record: seq<real>, stored: seq<real>, now: real) {
    Sorted(record) && Spaced(record) && Tail(record, stored, now) && forall i :: 0 <= i < |record| ==> record[i] <= now
  }

  /** What is left after pruning is a suffix of the record, too. */
  lemma {:induction false} PrunedTail(record: seq<real>, stored: seq<real>, now: real)
    requires Sorted(record) && Tail(record, stored, now)
    ensures Sorted(stored) && Tail(record, Live(stored, now), now)
  {
    var cut := |record| - |stored|;
    assert forall i :: 0 <= i < |stored| ==> stored[i] == record[cut + i];
    LiveOfSorted(stored, now);
    hide Live;
    var live := Live(stored, now);
    assert live == record[|record| - |live|..];
    forall i | 0 <= i < |record| - |live| ensures now - record[i] >= LOCK_SECONDS {
      if i >= cut {
        assert record[i] == stored[i - cut];
      }
    }
  }

  /** Five live failures, or fewer: told by the fifth most recent one. */
  lemma {:induction false} LockedByTail(record: seq<real>, live: seq<real>, now: real)
    requires Tail(record, live, now) && forall i :: 0 <= i < |live| ==> now - live[i] < LOCK_SECONDS
    ensures |live| >= LOCK_THRESHOLD <==> LockedAt(record, now)
    ensures LockedAt(record, now) ==> live[0] == record[|record| - LOCK_THRESHOLD]
  {
    if |live| >= LOCK_THRESHOLD {
      assert live[0] == record[|record| - |live|];
    }
  }

  /** Pruning what is stored, against the record. */
  lemma {:induction false} Prune(record: seq<real>, stored: seq<real>, now: real)
    requires Sound(record, stored, now)
    ensures var live := Live(stored, now);
      && Sound(record, live, now)
      && (|live| >= LOCK_THRESHOLD <==> LockedAt(record, now))
      && (LockedAt(record, now) ==> live[0] == record[|record| - LOCK_THRESHOLD])
  {
    PrunedTail(record, stored, now);
    LiveIsLive(stored, now);
    LockedByTail(record, Live(stored, now), now);
    hide Live, Spaced, Tail, Sorted;
  }

  /** Recording a failure keeps the record sorted and spaced, and the stored list a suffix of it. */
  lemma {:induction false} Append(record: seq<real>, live: seq<real>, now: real)
    requires Sound(record, live, now) && |live| < LOCK_THRESHOLD && !LockedAt(record, now)
    ensures Sound(record + [now], live + [now], now)
  {
    var longer := record + [now];
    assert longer[|longer| - |live| - 1..] == live + [now];
  }

  lemma {:induction false} SoundLater(record: seq<real>, stored: seq<real>, now: real, later: real)
    requires Sound(record, stored, now) && now <= later
    ensures Sound(record, stored, later)
  {
  }

  lemma {:induction false} SoundStep(record: seq<real>, stored: seq<real>, a: Attempt)
    requires Sound(record, stored, a.now)
    ensures Sound(Recorded(record, a), Kept(stored, a.now, a.verified), a.now)
  {
    Prune(record, stored, a.now);
    if !LockedAt(record, a.now) && !a.verified {
      Append(record, Live(stored, a.now), a.now);
    }
    hide Live, LockedAt, Tail, Sorted, Spaced;
  }

  lemma {:induction false} ChronologicalInit(attempts: seq<Attempt>, next: Attempt)
    requires Chronological(attempts + [next])
    ensures Chronological(attempts)
    ensures forall i :: 0 <= i < |attempts| ==> attempts[i].now <= next.now
  {
    var all := attempts + [next];
    assert forall i :: 0 <= i < |attempts| ==> attempts[i] == all[i];
    assert all[|attempts|] == next;
  }

  lemma {:induction false} RunSound(attempts: seq<Attempt>, next: Attempt)
    requires Chronological(attempts + [next])
    ensures Sound(Record(attempts), Stored(attempts), next.now)
  {
    if attempts != [] {
      hide Sound, Kept, Recorded, Chronological;
      var init, a := attempts[..|attempts| - 1], attempts[|attempts| - 1];
      ChronologicalInit(attempts, next);
      assert init + [a] == attempts;
      RunSound(init, a);
      SoundStep(Record(init), Stored(init), a);
      SoundLater(Record(attempts), Stored(attempts), a.now, next.now);
    }
  }

  /** After every chronological run: the stored list is a sorted suffix of the record with at most five
      entries, and the next attempt is locked exactly by the policy, with the time left until the fifth
      most recent failure is 300 seconds old. */
  lemma {:induction false} RunFollowsPolicy(attempts: seq<Attempt>, next: Attempt)
    requires Chronological(attempts + [next])
    ensures Sorted(Stored(attempts)) && Tail(Record(attempts), Stored(attempts), next.now)
    ensures AnswerAfter(attempts, next) ==
      if LockedAt(Record(attempts), next.now) then
        Locked(300.0 - (next.now - Record(attempts)[|Record(attempts)| - 5]))
      else if next.verified then Accepted
      else Rejected
  {
    hide Live, Stored, Record;
    RunSound(attempts, next);
    Prune(Record(attempts), Stored(attempts), next.now);
  }

  lemma {:induction false} SpacedApart(record: seq<real>, i: nat, j: nat)
    requires Spaced(record) && Sorted(record) && i + 5 <= j < |record|
    ensures record[j] - record[i] >= 300.0
  {
    assert record[i + 5] - record[i] >= 300.0;
    assert i + 5 < j ==> record[i + 5] <= record[j];
  }

  /** Between two successes, a window shorter than 300 seconds holds at most five rejected attempts. */
  lemma {:induction false} AtMostFivePerWindow(attempts: seq<Attempt>, i: nat, j: nat)
    requires Chronological(attempts)
    requires i <= j < |Record(attempts)| && Record(attempts)[j] - Record(attempts)[i] < 300.0
    ensures j - i + 1 <= 5
  {
    if attempts != [] {
      var last := attempts[|attempts| - 1];
      assert Chronological(attempts + [last]);
      RunSound(attempts, last);
      hide Record, Tail;
      if j - i >= 5 {
        SpacedApart(Record(attempts), i, j);
      }
    }
  }

  /** The remaining time is in (0, 300] exactly while the account is locked. */
  lemma {:induction false} RemainingRange(attempts: seq<Attempt>, next: Attempt)
    requires Chronological(attempts + [next])
    ensures AnswerAfter(attempts, next).Locked? <==> LockedAt(Record(attempts), next.now)
    ensures AnswerAfter(attempts, next).Locked? ==> 0.0 < AnswerAfter(attempts, next).remaining <= 300.0
  {
    RunFollowsPolicy(attempts, next);
    RunSound(attempts, next);
    hide Record, Stored, AnswerAfter;
  }

  /** The attempts that were not turned away by the lock. */
  function Counted(attempts: seq<Attempt>): seq<Attempt> {
    if attempts == [] then []
    else
      var init, a := attempts[..|attempts| - 1], attempts[|attempts| - 1];
      Counted(init) + (if AnswerAfter(init, a).Locked? then [] else [a])
  }

  lemma {:induction false} CountedTimes(attempts: seq<Attempt>, now: real)
    requires forall i :: 0 <= i < |attempts| ==> attempts[i].now <= now
    ensures forall i :: 0 <= i < |Counted(attempts)| ==> Counted(attempts)[i].now <= now
  {
    if attempts != [] {
      CountedTimes(attempts[..|attempts| - 1], now);
    }
  }

  lemma {:induction false} CountedInit(attempts: seq<Attempt>, a: Attempt)
    requires Chronological(attempts) && forall i :: 0 <= i < |attempts| ==> attempts[i].now <= a.now
    ensures Chronological(attempts + [a]) && Record(attempts + [a]) == Recorded(Record(attempts), a)
  {
    assert (attempts + [a])[..|attempts|] == attempts;
  }

  lemma {:induction false} CountedRecord(attempts: seq<Attempt>)
    requires Chronological(attempts)
    ensures Chronological(Counted(attempts)) && Record(Counted(attempts)) == Record(attempts)
  {
    if attempts != [] {
      hide Chronological, AnswerAfter, LockedAt, Stored, Tail, Sorted;
      var init, a := attempts[..|attempts| - 1], attempts[|attempts| - 1];
      assert attempts == init + [a];
      ChronologicalInit(init, a);
      CountedRecord(init);
      CountedTimes(init, a.now);
      RunFollowsPolicy(init, a);
      CountedInit(Counted(init), a);
      assert Counted(init) + [] == Counted(init);
    }
  }

  /** Attempts made while locked change nothing: the next answer is the one the user would have had
      without them, so they never extend the lock. */
  lemma {:induction false} LockedAttemptsDoNotCount(attempts: seq<Attempt>, next: Attempt)
    requires Chronological(attempts + [next])
    ensures AnswerAfter(Counted(attempts), next) == AnswerAfter(attempts, next)
  {
    ChronologicalInit(attempts, next);
    CountedRecord(attempts);
    CountedTimes(attempts, next.now);
    assert Chronological(Counted(attempts) + [next]);
    RunFollowsPolicy(attempts, next);
    RunFollowsPolicy(Counted(attempts), next);
  }
}
