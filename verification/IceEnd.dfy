/** When an ICE run goes on and when it stops, in terms of what the arbiter answered. */
module IceEnd {
  import opened Prelude
  import opened Calls
  import opened Ice
  import opened IceDrivers
  import opened IceTheorems

  /** `a <= b` on floating point numbers, where NaN is in no relation to anything. */
  predicate AtMost(a: Float, b: Float) {
    && a != NaN && b != NaN
    && (a == NegInf || b == PosInf || (a.Finite? && b.Finite? && a.r <= b.r))
  }

  /** Behind each successful critique, round `k` of an iteration follows exactly unless the arbiter sees a
      consensus and is confident enough, or the rounds are used up, or - with stagnation on - the last of
      two or more parsed confidences is at most the one before it. */
  lemma {:induction false} EndsIff(run: Run, s: State, it: Iteration, k: nat)
    requires IsIteration(run, s, it) && k <= |it.rounds| && (it.failed ==> k < |it.rounds|)
    ensures var b, p := Before(s, it, k), run.params;
      k == |it.rounds| <==>
        || (b.verdict.consensus
            && (b.verdict.confidence == PosInf || (b.verdict.confidence.Finite? && b.verdict.confidence.r >= p.threshold)))
        || s.round + k >= p.maxRounds - 1
        || (p.stagnation && |b.conf| >= 2 && AtMost(b.conf[|b.conf| - 1], b.conf[|b.conf| - 2]))
  {
    hide Iterate, Known, NextRound;
    LastFailure(run, s, it);
    RoundCount(run, s, it, k);
    if k < |it.rounds| {
      RoundsAre(run, s, it, k);
    } else {
      FinishedAtEnd(run, s, it);
    }
  }

  /** Round numbers count up. */
  lemma {:induction false} RoundCount(run: Run, s: State, it: Iteration, k: nat)
    requires IsIteration(run, s, it) && k <= |it.rounds|
    ensures Before(s, it, k).round == s.round + k
  {
    hide Iterate, Known, NextRound;
    if k > 0 {
      RoundsAre(run, s, it, k - 1);
      NextRoundNumber(run, Before(s, it, k - 1));
    }
  }

  /** A run that stops early, without stagnation to stop it, has a consensus above the threshold. */
  lemma {:induction false} EarlyEndIsConsensus(run: Run, s: State, it: Iteration)
    requires IsIteration(run, s, it) && !it.failed && it.last.round < run.params.maxRounds - 1
    requires !run.params.stagnation || |it.last.conf| < 2
    ensures it.last.verdict.consensus
    ensures match it.last.verdict.confidence
            case PosInf => true
            case Finite(c) => c >= run.params.threshold
            case _ => false
  {
    hide Iterate, Known;
    LastFailure(run, s, it);
    RoundCount(run, s, it, |it.rounds|);
    EndsIff(run, s, it, |it.rounds|);
  }

  // ---- Where verdict and confidences come from ---------------------------------------------

  /** The confidences of those texts that could be parsed. */
  function Confidences(w: World, texts: seq<string>): seq<Float> {
    if texts == [] then []
    else
      var v := ParseVerdict(w, texts[|texts| - 1]);
      Confidences(w, texts[..|texts| - 1]) + (if v.parsed then [v.confidence] else [])
  }

  /** The state knows the last critique as text and as verdict, and all parsed confidences in order. */
  ghost predicate Heard(run: Run, s: State, texts: seq<string>) {
    && texts != []
    && s.critiqueText == texts[|texts| - 1]
    && s.verdict == ParseVerdict(run.w, texts[|texts| - 1])
    && s.conf == Confidences(run.w, texts)
  }

  /** The texts of the successful critiques before round `k`. */
  function CritiqueTexts(first: seq<string>, it: Iteration, k: nat): seq<string>
    requires k <= |it.rounds|
  {
    if k == 0 then first
    else CritiqueTexts(first, it, k - 1)
         + (if it.rounds[k - 1].critique.status == Success then [it.rounds[k - 1].critique.content] else [])
  }

  lemma {:induction false} HeardMore(run: Run, s: State, texts: seq<string>)
    requires Known(run, s.ok) && Heard(run, s, texts)
    ensures var r := NextRound(run, s);
      Heard(run, r.after, texts + (if r.critique.status == Success then [r.critique.content] else []))
  {
    hide Known, RefineRound, Carry, RoundCritique, Extended, ParseVerdict;
    var r := NextRound(run, s);
    if Ok(r.critique) {
      assert (texts + [r.critique.content])[..|texts|] == texts;
    } else {
      assert texts + [] == texts;
    }
  }

  /** Every round begins with what the arbiter has said so far. */
  lemma {:induction false} HeardAt(run: Run, s: State, it: Iteration, first: seq<string>, k: nat)
    requires IsIteration(run, s, it) && Heard(run, s, first) && k <= |it.rounds|
    ensures Heard(run, Before(s, it, k), CritiqueTexts(first, it, k))
  {
    hide Iterate, Known, NextRound, Heard;
    if k > 0 {
      HeardAt(run, s, it, first, k - 1);
      RoundsAre(run, s, it, k - 1);
      HeardMore(run, Before(s, it, k - 1), CritiqueTexts(first, it, k - 1));
    }
  }

  /** The iteration begins behind the critique of round 0. */
  lemma {:induction false} StartHeard(run: Run)
    requires Open(run).Opened?
    ensures var o := Open(run);
      && o.start.round == 0 && o.start.ok == o.ok
      && Heard(run, o.start, [o.critique.content])
  {
    hide ParseVerdict, RoundCritique, Round0, Survivors, Extended, Known;
    var text := Open(run).critique.content;
    assert [text][..0] == [];
    assert Confidences(run.w, []) == [];
  }
}
