/** The ICE protocol as a specification: what the requests, the verdicts and the rounds of one run are,
    as functions of the context and of whatever the upstreams reply. */
module Ice {
  import opened Prelude
  import opened Calls
  import JsonText

  // ---- Verdicts ----------------------------------------------------------------------------

  /** A floating point confidence. `json.loads` accepts NaN and the infinities. */
  datatype Float = NaN | NegInf | Finite(r: real) | PosInf

  predicate Le(a: Float, b: Float) {
    match (a, b)
    case (NaN, _) => false
    case (_, NaN) => false
    case (NegInf, _) => true
    case (_, PosInf) => true
    case (Finite(x), Finite(y)) => x <= y
    case _ => false
  }

  datatype Verdict = Verdict(consensus: bool, confidence: Float, critique: string, parsed: bool)

  /** What `json.loads` makes of the extracted text, as far as the verdict looks at it. */
  datatype Loaded = NotADict | Dict(consensus: Value, confidence: Value, critique: Value)
  datatype Value = Flag(b: bool) | Num(f: Float) | Text(s: string) | OtherValue

  /** Everything outside the engine: the upstreams, the JSON decoder and the code-fence stripper. */
  datatype World = World(up: Upstream, loads: string -> Loaded, strip: string -> string)

  /** `parse_verdict` */
  function ParseVerdict(w: World, text: string): Verdict {
    var loaded := match JsonText.ExtractedObject(w.strip(text)) case Some(candidate) => w.loads(candidate) case None => NotADict;
    match loaded
    case NotADict => Verdict(false, Finite(0.0), text, false)
    case Dict(consensus, confidence, critique) =>
      Verdict(
        if consensus.Flag? then consensus.b else false,
        if confidence.Num? then confidence.f else Finite(0.0),
        if critique.Text? then critique.s else text,
        true)
  }

  // ---- Parameters and the end condition ----------------------------------------------------

  datatype IceParams = IceParams(maxRounds: int, threshold: real, stagnation: bool, progressComments: bool)

  datatype Run = Run(ctx: Context, params: IceParams, w: World)

  predicate Consensus(p: IceParams, v: Verdict) {
    v.consensus && Le(Finite(p.threshold), v.confidence)
  }

  predicate Exhausted(p: IceParams, round: int) {
    round >= p.maxRounds - 1
  }

  predicate Stagnant(p: IceParams, conf: seq<Float>) {
    p.stagnation && |conf| >= 2 && Le(conf[|conf| - 1], conf[|conf| - 2])
  }

  /** `_should_finish` */
  predicate ShouldFinish(p: IceParams, v: Verdict, round: int, conf: seq<Float>) {
    if Consensus(p, v) then true
    else if Exhausted(p, round) then true
    else Stagnant(p, conf)
  }

  // ---- The calls of one round --------------------------------------------------------------

  /** `specs[model_id]` of a dictionary built in member order: of equal ids the last one stays. */
  function SpecOf(members: seq<MemberSpec>, modelId: int): (r: Option<MemberSpec>)
    ensures r.Some? ==> r.value.modelId == modelId
    ensures r.None? ==> forall s :: s in members ==> s.modelId != modelId
  {
    if members == [] then None
    else if members[|members| - 1].modelId == modelId then Some(members[|members| - 1])
    else SpecOf(members[..|members| - 1], modelId)
  }

  function RunOne(run: Run, i: nat): Outcome
    requires i < |run.ctx.members|
  {
    var spec := run.ctx.members[i];
    var request := BuildRequest(spec.upstreamModelId, run.ctx.messages, MergeParams(spec.defaults, spec.overrides));
    MemberOutcome(
      Pending(Member, spec.modelId, spec.upstreamModelId, spec.providerName, request, Some(0)),
      run.w.up(MemberCall(0, i), spec.providerName, request))
  }

  function Round0(run: Run): seq<Outcome> {
    seq(|run.ctx.members|, i requires 0 <= i < |run.ctx.members| => RunOne(run, i))
  }

  function RefinePrompt(run: Run, critique: string): string {
    RenderJudgePrompt(run.ctx.prompts.refine, run.ctx.messages, [], critique)
  }

  function RefineMessages(run: Run, prev: Outcome, prompt: string): seq<Message> {
    run.ctx.messages + [Message("assistant", prev.content), Message("user", prompt)]
  }

  /** Each survivor's model is one of the configured members. */
  predicate Known(run: Run, ok: seq<Outcome>) {
    forall i :: 0 <= i < |ok| ==> SpecOf(run.ctx.members, ok[i].modelId).Some?
  }

  function RefineOne(run: Run, prev: Outcome, prompt: string, round: nat, i: nat): Outcome
    requires SpecOf(run.ctx.members, prev.modelId).Some?
  {
    var spec := SpecOf(run.ctx.members, prev.modelId).value;
    var request := BuildRequest(spec.upstreamModelId, RefineMessages(run, prev, prompt), MergeParams(spec.defaults, spec.overrides));
    // tool calls of a refinement are not kept
    MemberOutcome(
      Pending(Member, spec.modelId, spec.upstreamModelId, spec.providerName, request, Some(round)),
      run.w.up(MemberCall(round, i), spec.providerName, request)).(toolCalls := [])
  }

  function RefineRound(run: Run, ok: seq<Outcome>, critique: string, round: nat): seq<Outcome>
    requires Known(run, ok)
  {
    var prompt := RefinePrompt(run, critique);
    seq(|ok|, i requires 0 <= i < |ok| => RefineOne(run, ok[i], prompt, round, i))
  }

  /** Members that fail keep the answer of the round before. */
  function Carry(ok: seq<Outcome>, refined: seq<Outcome>): (r: seq<Outcome>)
    requires |refined| == |ok|
  {
    seq(|ok|, i requires 0 <= i < |ok| => if Ok(refined[i]) then refined[i] else ok[i])
  }

  function Answers(ok: seq<Outcome>): seq<(string, string)> {
    seq(|ok|, i requires 0 <= i < |ok| => (ok[i].upstreamModelId, ok[i].content))
  }

  function JudgeParams(ctx: Context): Params {
    MergeParams(ctx.judgeDefaults, ctx.userParams)
  }

  function CritiquePrompt(run: Run, ok: seq<Outcome>, session: seq<Message>): Message {
    var template := if session == [] then run.ctx.prompts.critique else run.ctx.prompts.roundCritique;
    Message("user", RenderJudgePrompt(template, run.ctx.messages, Answers(ok), ""))
  }

  function RoundCritique(run: Run, ok: seq<Outcome>, session: seq<Message>, round: nat): Outcome {
    var ctx := run.ctx;
    var request := BuildRequest(ctx.judgeUpstreamId, session + [CritiquePrompt(run, ok, session)], JudgeParams(ctx));
    JudgeOutcome(
      Pending(JudgeCritique, ctx.judgeModelId, ctx.judgeUpstreamId, ctx.judgeProvider, request, Some(round)),
      run.w.up(CritiqueCall(round), ctx.judgeProvider, request))
  }

  /** A successful critique adds its question and its answer to the arbiter's session. */
  function Extended(run: Run, ok: seq<Outcome>, session: seq<Message>, critique: Outcome): seq<Message> {
    if Ok(critique) then session + [CritiquePrompt(run, ok, session), Message("assistant", critique.content)]
    else session
  }

  function FinalRequest(run: Run, session: seq<Message>, ok: seq<Outcome>, critiqueText: string): Request {
    var ctx := run.ctx;
    var template := if ctx.judgeTemplate != "" then ctx.judgeTemplate else ctx.prompts.defaultJudge;
    var instruction := RenderJudgePrompt(template, ctx.messages, Answers(ok), critiqueText);
    BuildRequest(ctx.judgeUpstreamId, session + [Message("user", instruction)], JudgeParams(ctx))
  }

  function FinalOutcome(run: Run, request: Request): Outcome {
    var ctx := run.ctx;
    JudgeOutcome(
      Pending(Judge, ctx.judgeModelId, ctx.judgeUpstreamId, ctx.judgeProvider, request, None),
      run.w.up(FinalCall, ctx.judgeProvider, request))
  }

  // ---- The iteration -----------------------------------------------------------------------

  /** What the loop variables hold after a critique. */
  datatype State = State(round: nat, ok: seq<Outcome>, session: seq<Message>, verdict: Verdict, conf: seq<Float>, critiqueText: string)

  datatype Round = Round(refined: seq<Outcome>, critique: Outcome, after: State)

  /** The rounds after round 0, where they lead, and whether the last critique failed. */
  datatype Iteration = Iteration(rounds: seq<Round>, last: State, failed: bool)

  /** The state after the successful critique of round 0. */
  function FirstState(run: Run, ok: seq<Outcome>, critique: Outcome): State {
    var verdict := ParseVerdict(run.w, critique.content);
    State(0, ok, Extended(run, ok, [], critique), verdict, if verdict.parsed then [verdict.confidence] else [], critique.content)
  }

  /** One turn of the loop: refine, carry, critique; a failed critique leaves verdict and session alone. */
  function NextRound(run: Run, s: State): Round
    requires Known(run, s.ok)
  {
    var refined := RefineRound(run, s.ok, s.verdict.critique, s.round + 1);
    var ok := Carry(s.ok, refined);
    var critique := RoundCritique(run, ok, s.session, s.round + 1);
    if !Ok(critique) then Round(refined, critique, s.(round := s.round + 1, ok := ok))
    else
      var verdict := ParseVerdict(run.w, critique.content);
      Round(refined, critique,
        State(s.round + 1, ok, Extended(run, ok, s.session, critique), verdict,
              if verdict.parsed then s.conf + [verdict.confidence] else s.conf, critique.content))
  }

  predicate Finished(run: Run, s: State) {
    ShouldFinish(run.params, s.verdict, s.round, s.conf)
  }

  function Iterate(run: Run, s: State): Iteration
    requires Known(run, s.ok)
    decreases run.params.maxRounds - s.round
  {
    if Finished(run, s) then Iteration([], s, false)
    else
      var r := NextRound(run, s);
      if !Ok(r.critique) then Iteration([r], r.after, true)
      else
        RoundKeepsKnown(run, s);
        var rest := Iterate(run, r.after);
        rest.(rounds := [r] + rest.rounds)
  }

  lemma {:induction false} RefinedIds(run: Run, ok: seq<Outcome>, critique: string, round: nat)
    requires Known(run, ok)
    ensures var refined := RefineRound(run, ok, critique, round);
      |refined| == |ok| && forall i :: 0 <= i < |ok| ==> refined[i].modelId == ok[i].modelId
  {
    hide RefinePrompt, BuildRequest, RefineMessages, MergeParams, SpecOf;
  }

  lemma {:induction false} RoundKeepsKnown(run: Run, s: State)
    requires Known(run, s.ok)
    ensures Known(run, NextRound(run, s).after.ok)
    ensures |NextRound(run, s).after.ok| == |s.ok| == |NextRound(run, s).refined|
    ensures forall i :: 0 <= i < |s.ok| ==> NextRound(run, s).after.ok[i].modelId == s.ok[i].modelId
  {
    hide RefineRound, RoundCritique, ParseVerdict, Extended, SpecOf;
    RefinedIds(run, s.ok, s.verdict.critique, s.round + 1);
  }

  lemma {:induction false} NextRoundNumber(run: Run, s: State)
    requires Known(run, s.ok)
    ensures NextRound(run, s).after.round == s.round + 1
  {
    hide Known, RefineRound, Carry, RoundCritique, Extended, ParseVerdict;
  }

  /** The calls of the rounds in the order in which they are logged: members, then critique. */
  function RoundCalls(rounds: seq<Round>): seq<Outcome> {
    if rounds == [] then []
    else RoundCalls(rounds[..|rounds| - 1]) + rounds[|rounds| - 1].refined + [rounds[|rounds| - 1].critique]
  }
}
