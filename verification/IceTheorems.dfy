/** What holds of every ICE run, and that the three drivers run the same protocol. */
module IceTheorems {
  import opened Prelude
  import opened Calls
  import opened Ice
  import opened IceDrivers
  import J = JsonText

  // ---- Rounds ------------------------------------------------------------------------------

  /** The state in which round `k` of the iteration begins. */
  function Before(s: State, it: Iteration, k: nat): State
    requires k <= |it.rounds|
  {
    if k == 0 then s else it.rounds[k - 1].after
  }

  ghost predicate IsIteration(run: Run, s: State, it: Iteration) {
    Known(run, s.ok) && it == Iterate(run, s)
  }

  /** Round by round: each round is the next round of the state before it, that state was not finished,
      and only the last critique can have failed. */
  lemma {:induction false} RoundsAre(run: Run, s: State, it: Iteration, k: nat)
    requires IsIteration(run, s, it) && k < |it.rounds|
    ensures Known(run, Before(s, it, k).ok) && it.rounds[k] == NextRound(run, Before(s, it, k))
    ensures !Finished(run, Before(s, it, k)) && Before(s, it, k).round == s.round + k
    ensures Ok(it.rounds[k].critique) <==> !(it.failed && k == |it.rounds| - 1)
    ensures |it.rounds[k].refined| == |s.ok|
    decreases k
  {
    hide RefineRound, Carry, RoundCritique, Extended, ParseVerdict, ShouldFinish;
    var r := NextRound(run, s);
    RoundKeepsKnown(run, s);
    if Ok(r.critique) {
      var rest := Iterate(run, r.after);
      assert it.rounds == [r] + rest.rounds;
      if k > 0 {
        RoundsAre(run, r.after, rest, k - 1);
        assert Before(s, it, k) == Before(r.after, rest, k - 1);
      } else {
        LastFailure(run, r.after, rest);
      }
    }
  }

  lemma {:induction false} LastFailure(run: Run, s: State, it: Iteration)
    requires IsIteration(run, s, it)
    ensures it.failed ==> it.rounds != []
    ensures it.last == Before(s, it, |it.rounds|)
  {
    IterateKeeps(run, s);
  }

  // ---- Session, rounds and calls -----------------------------------------------------------

  ghost predicate Alternates(session: seq<Message>) {
    && |session| % 2 == 0
    && forall k :: 0 <= k < |session| ==> session[k].role == if k % 2 == 0 then "user" else "assistant"
  }

  /** A round leaves the session as it is or adds one question and one answer to it. */
  lemma {:induction false} RoundExtendsSession(run: Run, s: State)
    requires Known(run, s.ok)
    ensures var r := NextRound(run, s);
      && s.session <= r.after.session
      && |r.after.session| == |s.session| + (if Ok(r.critique) then 2 else 0)
      && (Alternates(s.session) ==> Alternates(r.after.session))
      && (Ok(r.critique) ==> r.after.session[|s.session| + 1].content == r.critique.content)
  {
    hide RefineRound, RoundCritique, ParseVerdict, RenderJudgePrompt;
  }

  /** At the start of round `k` the session has two turns for the first critique and two for each round,
      and every earlier session is a prefix of it. */
  lemma {:induction false} SessionAt(run: Run, s: State, it: Iteration, k: nat)
    requires IsIteration(run, s, it) && k <= |it.rounds|
    ensures s.session <= Before(s, it, k).session
    ensures |Before(s, it, k).session| == |s.session| + 2 * (if it.failed && k == |it.rounds| then k - 1 else k)
    ensures Alternates(s.session) ==> Alternates(Before(s, it, k).session)
    ensures k > 0 ==> Before(s, it, k - 1).session <= Before(s, it, k).session
  {
    hide Iterate, NextRound, Known;
    LastFailure(run, s, it);
    if k > 0 {
      SessionAt(run, s, it, k - 1);
      RoundsAre(run, s, it, k - 1);
      RoundExtendsSession(run, Before(s, it, k - 1));
    }
  }

  lemma {:induction false} MemberIdentity(run: Run, s: State, it: Iteration, k: nat)
    requires IsIteration(run, s, it) && k <= |it.rounds|
    ensures |Before(s, it, k).ok| == |s.ok|
    ensures forall i :: 0 <= i < |s.ok| ==> Before(s, it, k).ok[i].modelId == s.ok[i].modelId
  {
    hide NextRound, Iterate, Known;
    if k > 0 {
      MemberIdentity(run, s, it, k - 1);
      RoundsAre(run, s, it, k - 1);
      RoundKeepsKnown(run, Before(s, it, k - 1));
    }
  }

  lemma {:induction false} RoundCallsCount(rounds: seq<Round>, n: nat)
    requires forall k :: 0 <= k < |rounds| ==> |rounds[k].refined| == n
    ensures |RoundCalls(rounds)| == |rounds| * n + |rounds|
  {
    if rounds != [] {
      var m := |rounds| - 1;
      RoundCallsCount(rounds[..m], n);
      assert (m + 1) * n == m * n + n;
    }
  }

  /** The shape of every run that gets past its first critique: at most `max_rounds` member rounds, a
      session of two turns per successful critique, the same members throughout, and the number of calls
      made before the final one. */
  lemma {:induction false} RunStructure(run: Run)
    requires Open(run).Opened?
    ensures var o := Open(run); var it := Iterate(run, o.start); var rounds := |it.rounds| + 1;
      && (rounds == 1 || rounds <= run.params.maxRounds)
      && Alternates(it.last.session)
      && |it.last.session| == 2 * (if it.failed then rounds - 1 else rounds)
      && |it.last.ok| == |o.ok|
      && (forall i :: 0 <= i < |o.ok| ==> it.last.ok[i].modelId == o.ok[i].modelId)
      && |o.round0 + [o.critique] + RoundCalls(it.rounds)| == |run.ctx.members| + (rounds - 1) * |o.ok| + rounds
  {
    hide RoundCritique, ParseVerdict, RenderJudgePrompt, RunOne, Iterate, NextRound, RunEnding;
    var o := Open(run);
    var it := Iterate(run, o.start);
    var n := |it.rounds|;
    LastFailure(run, o.start, it);
    SessionAt(run, o.start, it, n);
    MemberIdentity(run, o.start, it, n);
    if n > 0 {
      RoundsAre(run, o.start, it, n - 1);
    }
    forall k | 0 <= k < n ensures |it.rounds[k].refined| == |o.ok| {
      RoundsAre(run, o.start, it, k);
    }
    RoundCallsCount(it.rounds, |o.ok|);
  }

  // ---- Stagnation --------------------------------------------------------------------------

  /** No confidence is at most the one before it. */
  ghost predicate Rising(conf: seq<Float>) {
    forall k :: 0 < k < |conf| ==> !Le(conf[k], conf[k - 1])
  }

  function Init(conf: seq<Float>): seq<Float> {
    if conf == [] then [] else conf[..|conf| - 1]
  }

  lemma {:induction false} RisingInit(conf: seq<Float>)
    requires Rising(conf)
    ensures Rising(Init(conf))
  {
    hide Le;
  }

  lemma {:induction false} NotStagnantRises(p: IceParams, conf: seq<Float>)
    requires Rising(Init(conf)) && p.stagnation && !Stagnant(p, conf)
    ensures Rising(conf)
  {
    hide Le;
    forall j | 0 < j < |conf| ensures !Le(conf[j], conf[j - 1]) {
      assert j < |conf| - 1 ==> !Le(Init(conf)[j], Init(conf)[j - 1]);
    }
  }

  /** A round adds at most one confidence. */
  lemma {:induction false} RoundAddsConfidence(run: Run, s: State)
    requires Known(run, s.ok)
    ensures var conf := NextRound(run, s).after.conf; conf == s.conf || Init(conf) == s.conf
  {
    hide Known, RefineRound, Carry, RoundCritique, Extended, ParseVerdict;
  }

  /** With stagnation on, the parsed confidences rise at every round that was continued. */
  lemma {:induction false} ContinuedMeansRising(run: Run, s: State, it: Iteration, k: nat)
    requires IsIteration(run, s, it) && k <= |it.rounds| && run.params.stagnation && Rising(Init(s.conf))
    ensures Rising(Init(Before(s, it, k).conf))
    ensures k < |it.rounds| ==> Rising(Before(s, it, k).conf)
  {
    hide Iterate, NextRound, Known, Rising, Init, Stagnant;
    if k > 0 {
      ContinuedMeansRising(run, s, it, k - 1);
      RoundsAre(run, s, it, k - 1);
      RoundAddsConfidence(run, Before(s, it, k - 1));
      RisingInit(Before(s, it, k - 1).conf);
    }
    if k < |it.rounds| {
      RoundsAre(run, s, it, k);
      NotStagnantRises(run.params, Before(s, it, k).conf);
    }
  }

  /** Strictly less, as floating point numbers are compared. */
  ghost predicate Lt(a: Float, b: Float) {
    && a != NaN && b != NaN && a != b
    && (a == NegInf || b == PosInf || (a.Finite? && b.Finite? && a.r < b.r))
  }

  lemma {:induction false} RisingIsIncreasing(conf: seq<Float>, i: nat, j: nat)
    requires Rising(conf) && NaN !in conf && i < j < |conf|
    ensures Lt(conf[i], conf[j])
  {
    if i + 1 < j {
      RisingIsIncreasing(conf, i, j - 1);
    }
    assert conf[j - 1] in conf && conf[j] in conf && conf[i] in conf;
  }

  ghost predicate Increasing(conf: seq<Float>) {
    forall i, j :: 0 <= i < j < |conf| ==> Lt(conf[i], conf[j])
  }

  lemma {:induction false} RisingIncreasesIff(conf: seq<Float>)
    requires Rising(conf) && |conf| >= 2
    ensures Increasing(conf) <==> NaN !in conf
  {
    if NaN in conf {
      var i :| 0 <= i < |conf| && conf[i] == NaN;
      if i > 0 {
        assert !Lt(conf[0], conf[i]);
      } else {
        assert !Lt(conf[i], conf[1]);
      }
    } else {
      forall i, j | 0 <= i < j < |conf| ensures Lt(conf[i], conf[j]) {
        RisingIsIncreasing(conf, i, j);
      }
    }
  }

  /** At every continued round of a run with stagnation on, two or more parsed confidences are strictly
      increasing exactly when none of them is NaN. */
  lemma {:induction false} ConfidencesIncreaseIff(run: Run, k: nat)
    requires Open(run).Opened? && run.params.stagnation
    requires k < |Iterate(run, Open(run).start).rounds|
    ensures var conf := Before(Open(run).start, Iterate(run, Open(run).start), k).conf;
      |conf| >= 2 ==> (Increasing(conf) <==> NaN !in conf)
  {
    hide Iterate, RoundCritique, ParseVerdict, Extended, Increasing;
    var s := Open(run).start;
    assert |s.conf| <= 1;
    ContinuedMeansRising(run, s, Iterate(run, s), k);
    var conf := Before(s, Iterate(run, s), k).conf;
    if |conf| >= 2 {
      RisingIncreasesIff(conf);
    }
  }

  /** A critique that could not be parsed never ends the run as stagnation: if the rounds end behind it,
      they are used up. */
  lemma {:induction false} UnparsedNeverStagnates(run: Run, s: State, it: Iteration)
    requires IsIteration(run, s, it) && it.rounds != [] && !it.failed && !it.last.verdict.parsed
    ensures Exhausted(run.params, it.last.round) && !Stagnant(run.params, it.last.conf)
  {
    hide RefineRound, Carry, RoundCritique, Extended;
    var k := |it.rounds| - 1;
    LastFailure(run, s, it);
    RoundsAre(run, s, it, k);
    FinishedAtEnd(run, s, it);
  }

  lemma {:induction false} FinishedAtEnd(run: Run, s: State, it: Iteration)
    requires IsIteration(run, s, it) && !it.failed
    ensures Finished(run, it.last)
    decreases run.params.maxRounds - s.round
  {
    hide RefineRound, Carry, RoundCritique, Extended, ParseVerdict;
    if !Finished(run, s) {
      RoundKeepsKnown(run, s);
      FinishedAtEnd(run, NextRound(run, s).after, Iterate(run, NextRound(run, s).after));
    }
  }

  // ---- Verdicts ----------------------------------------------------------------------------

  /** Whatever chatter stands around it (without an opening brace in front), and in whatever style it is
      printed, the arbiter's object is the one that is decoded, and its fields become the verdict: a flag, a
      number and a text; a field of another kind counts as no consensus, as confidence 0, and as the whole
      answer for its critique. */
  lemma {:induction false} VerdictIsRead(w: World, text: string, style: J.Style, fields: seq<J.Field>, before: string,
        behind: string, consensus: Value, confidence: Value, critique: Value)
    requires J.ValidStyle(style) && J.WellFormed(J.Obj(fields)) && '{' !in before
    requires w.strip(text) == before + J.Print(style, [], J.Obj(fields)) + behind
    requires w.loads(J.Print(style, [], J.Obj(fields))) == Dict(consensus, confidence, critique)
    ensures var v := ParseVerdict(w, text);
      && v.parsed
      && (v.consensus <==> consensus == Flag(true))
      && (confidence.Num? ==> v.confidence == confidence.f) && (!confidence.Num? ==> v.confidence == Finite(0.0))
      && (critique.Text? ==> v.critique == critique.s) && (!critique.Text? ==> v.critique == text)
  {
    J.ExtractInvertsPrint(style, [], fields, before, behind);
  }

  /** An answer without a closed object, or with one that does not decode to a dictionary, counts as a
      critique without consensus. */
  lemma {:induction false} UnreadableVerdict(w: World, text: string)
    requires forall found :: J.ExtractedObject(w.strip(text)) == Some(found) ==> w.loads(found) == NotADict
    ensures ParseVerdict(w, text) == Verdict(false, Finite(0.0), text, false)
  {
    hide J.ExtractedObject;
  }

  // ---- What the requests say ---------------------------------------------------------------

  /** All requests to the arbiter are one conversation: each round's question stands behind everything
      said before, and the final instruction behind the last answer. */
  lemma {:induction false} OneConversation(run: Run, s: State, it: Iteration, k: nat)
    requires IsIteration(run, s, it) && k < |it.rounds| && Ok(it.rounds[k].critique)
    ensures var asked := it.rounds[k].critique.payload.messages;
      && asked + [Message("assistant", it.rounds[k].critique.content)] == Before(s, it, k + 1).session
      && (k + 1 < |it.rounds| ==> Before(s, it, k + 1).session <= it.rounds[k + 1].critique.payload.messages)
      && (k + 1 == |it.rounds| ==> Before(s, it, k + 1).session <= LastRequest(run, it.last).messages)
  {
    hide Iterate, Known, RefineRound, Carry, ParseVerdict, RenderJudgePrompt, Sampling;
    LastFailure(run, s, it);
    RoundsAre(run, s, it, k);
    if k + 1 < |it.rounds| {
      RoundsAre(run, s, it, k + 1);
    }
  }

  // ---- The answers that reach the final call -----------------------------------------------

  /** Member `i`'s answer of the latest round in which it succeeded. */
  function LatestSuccess(first: Outcome, rounds: seq<Round>, i: nat): Outcome
    requires forall k :: 0 <= k < |rounds| ==> i < |rounds[k].refined|
  {
    if rounds == [] then first
    else
      var last := rounds[|rounds| - 1].refined[i];
      if Ok(last) then last else LatestSuccess(first, rounds[..|rounds| - 1], i)
  }

  lemma {:induction false} AnswersAreLatest(run: Run, s: State, it: Iteration, k: nat, i: nat)
    requires IsIteration(run, s, it) && k <= |it.rounds| && i < |s.ok|
    ensures forall j :: 0 <= j < k ==> |it.rounds[j].refined| == |s.ok|
    ensures |Before(s, it, k).ok| == |s.ok| && Before(s, it, k).ok[i] == LatestSuccess(s.ok[i], it.rounds[..k], i)
  {
    hide RefineRound, RoundCritique, Extended, ParseVerdict, Iterate;
    if k > 0 {
      AnswersAreLatest(run, s, it, k - 1, i);
      RoundsAre(run, s, it, k - 1);
      assert it.rounds[..k][..k - 1] == it.rounds[..k - 1];
      assert |it.rounds[k - 1].refined| == |s.ok|;
    }
  }
}
