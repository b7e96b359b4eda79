/** What each call of an ICE run asks, and what becomes of its reply. */
module IceRequests {
  import opened Prelude
  import opened Calls
  import opened CallRecords
  import opened PromptText
  import opened Ice
  import opened IceDrivers
  import opened IceTheorems

  // ---- Round 0 -----------------------------------------------------------------------------

  /** Each member is asked the conversation as it is, with its own sampling parameters. */
  lemma {:induction false} FirstCalls(run: Run, i: nat)
    requires i < |run.ctx.members|
    ensures |Open(run).round0| == |run.ctx.members|
    ensures var o, m := Open(run).round0[i], run.ctx.members[i];
      && Asks(o.payload, m.upstreamModelId, run.ctx.messages, m.defaults, m.overrides)
      && MemberLogged(o, m, Some(0), run.w.up(MemberCall(0, i), m.providerName, o.payload), true)
  {
    hide RoundCritique, FirstState, Survivors, MembersFailed, MemberOutcome, Pending, MemberLogged, Asks, BuildRequest, MergeParams;
    var m := run.ctx.members[i];
    var request := BuildRequest(m.upstreamModelId, run.ctx.messages, MergeParams(m.defaults, m.overrides));
    RequestAsks(m.upstreamModelId, run.ctx.messages, m.defaults, m.overrides);
    MemberIsLogged(m, request, Some(0), run.w.up(MemberCall(0, i), m.providerName, request));
  }

  /** The reply to member `i` in round 0. */
  function FirstReply(run: Run, i: nat): Reply
    requires i < |run.ctx.members| && i < |Open(run).round0|
  {
    run.w.up(MemberCall(0, i), run.ctx.members[i].providerName, Open(run).round0[i].payload)
  }

  /** Round 0 is lost exactly when all replies are errors, or one of them in strict mode. */
  lemma {:induction false} OpeningFailsIff(run: Run)
    ensures |Open(run).round0| == |run.ctx.members|
    ensures Open(run).NoMembers? <==>
      || (forall i: nat :: i < |run.ctx.members| ==> FirstReply(run, i).Error?)
      || (run.ctx.memberStrict && exists i: nat :: i < |run.ctx.members| && FirstReply(run, i).Error?)
  {
    hide *;
    OpenIs(run);
    forall i: nat | i < |run.ctx.members|
      ensures Open(run).round0[i].status == Success <==> FirstReply(run, i).Answer?
    {
      FirstStatus(run, i);
    }
    MembersFailedIff(Open(run).round0, run.ctx.memberStrict);
  }

  lemma {:induction false} OpenIs(run: Run)
    ensures |Open(run).round0| == |run.ctx.members|
    ensures Open(run).NoMembers? <==> MembersFailed(Open(run).round0, run.ctx.memberStrict)
  {
    hide RunOne, RoundCritique, FirstState, Survivors, MembersFailed;
  }

  lemma {:induction false} FirstStatus(run: Run, i: nat)
    requires i < |run.ctx.members|
    ensures |Open(run).round0| == |run.ctx.members|
    ensures Open(run).round0[i].status == Success <==> FirstReply(run, i).Answer?
  {
    hide Open;
    FirstCalls(run, i);
  }

  /** `answers` are the answers of `ok`, in order. */
  ghost predicate AnswersOf(answers: seq<(string, string)>, ok: seq<Outcome>) {
    |answers| == |ok| && forall i :: 0 <= i < |ok| ==> answers[i].1 == ok[i].content
  }

  /** The first critique asks about the answers of the survivors, in a session of its own; behind its answer
      the session consists of these two turns. */
  lemma {:induction false} FirstCritique(run: Run, answers: seq<(string, string)>)
    requires !Open(run).NoMembers? && AnswersOf(answers, Open(run).ok)
    ensures var o, ctx := Open(run), run.ctx;
      && o.ok == Survivors(o.round0)
      && Asks(o.critique.payload, ctx.judgeUpstreamId,
              [Message("user", RenderJudgePrompt(ctx.prompts.critique, ctx.messages, answers, ""))],
              ctx.judgeDefaults, ctx.userParams)
      && JudgeLogged(o.critique, JudgeCritique, ctx, Some(0), run.w.up(CritiqueCall(0), ctx.judgeProvider, o.critique.payload))
      && (o.Opened? <==> run.w.up(CritiqueCall(0), ctx.judgeProvider, o.critique.payload).Answer?)
      && (o.Opened? ==> o.start.session == o.critique.payload.messages + [Message("assistant", o.critique.content)])
  {
    hide *;
    OpenCritique(run);
    CritiqueAsks(run, Open(run).ok, [], 0, answers);
    CritiqueStatus(run, Open(run).ok, [], 0);
    if Open(run).Opened? {
      FirstTurns(run);
    }
    assert [] + [Message("user", RenderJudgePrompt(run.ctx.prompts.critique, run.ctx.messages, answers, ""))]
        == [Message("user", RenderJudgePrompt(run.ctx.prompts.critique, run.ctx.messages, answers, ""))];
  }

  lemma {:induction false} OpenCritique(run: Run)
    requires !Open(run).NoMembers?
    ensures var o := Open(run);
      && o.ok == Survivors(o.round0) && o.critique == RoundCritique(run, o.ok, [], 0) && (o.Opened? <==> Ok(o.critique))
      && (o.Opened? ==> o.start == FirstState(run, o.ok, o.critique))
  {
    hide RunOne, RoundCritique, FirstState, Survivors, MembersFailed, Round0;
  }

  lemma {:induction false} FirstTurns(run: Run)
    requires Open(run).Opened?
    ensures Open(run).start.session == Open(run).critique.payload.messages + [Message("assistant", Open(run).critique.content)]
  {
    hide Open, RenderJudgePrompt, ParseVerdict, Sampling;
    OpenCritique(run);
  }

  // ---- Refinement --------------------------------------------------------------------------

  /** Of members with the same id the last one answers for it. */
  lemma {:induction false} SpecIsLast(members: seq<MemberSpec>, modelId: int)
    requires SpecOf(members, modelId).Some?
    ensures exists j :: 0 <= j < |members| && members[j] == SpecOf(members, modelId).value
                     && forall l :: j < l < |members| ==> members[l].modelId != modelId
  {
    var n := |members| - 1;
    if members[n].modelId != modelId {
      var front := members[..n];
      SpecIsLast(front, modelId);
      var j :| 0 <= j < |front| && front[j] == SpecOf(front, modelId).value
            && forall l :: j < l < |front| ==> front[l].modelId != modelId;
      assert members[j] == front[j];
    } else {
      assert members[n] == SpecOf(members, modelId).value;
    }
  }

  /** What survivor `i` is sent in a refinement: the conversation, its own latest answer, and the arbiter's
      critique in the refine template. */
  ghost predicate Improves(run: Run, m: MemberSpec, request: Request, answer: string, critique: string) {
    Asks(request, m.upstreamModelId,
         run.ctx.messages + [Message("assistant", answer),
                             Message("user", RenderJudgePrompt(run.ctx.prompts.refine, run.ctx.messages, [], critique))],
         m.defaults, m.overrides)
  }

  lemma {:induction false} RefineAsks(run: Run, ok: seq<Outcome>, critique: string, round: nat, i: nat)
    requires Known(run, ok) && i < |ok|
    ensures |RefineRound(run, ok, critique, round)| == |ok|
    ensures var o, m := RefineRound(run, ok, critique, round)[i], SpecOf(run.ctx.members, ok[i].modelId).value;
      && Improves(run, m, o.payload, ok[i].content, critique)
      && MemberLogged(o, m, Some(round), run.w.up(MemberCall(round, i), m.providerName, o.payload), false)
  {
    hide SpecOf, RenderJudgePrompt, MemberOutcome, Pending, BuildRequest, MergeParams, Asks;
    var m := SpecOf(run.ctx.members, ok[i].modelId).value;
    var messages := RefineMessages(run, ok[i], RefinePrompt(run, critique));
    var request := BuildRequest(m.upstreamModelId, messages, MergeParams(m.defaults, m.overrides));
    RequestAsks(m.upstreamModelId, messages, m.defaults, m.overrides);
    MemberIsLogged(m, request, Some(round), run.w.up(MemberCall(round, i), m.providerName, request));
  }

  /** In refinement round `k + 1`, every survivor is asked by the model and provider configured for it to
      improve its latest successful answer in the light of the verdict before the round - of the critique
      that the verdict names, not of the text of the arbiter as a whole. */
  lemma {:induction false} RefinementAsks(run: Run, s: State, it: Iteration, k: nat, i: nat)
    requires IsIteration(run, s, it) && k < |it.rounds| && i < |s.ok|
    ensures forall j :: 0 <= j <= k ==> |it.rounds[j].refined| == |s.ok|
    ensures var o, m, round := it.rounds[k].refined[i], SpecOf(run.ctx.members, s.ok[i].modelId).value, s.round + k + 1;
      && Improves(run, m, o.payload, LatestSuccess(s.ok[i], it.rounds[..k], i).content, Before(s, it, k).verdict.critique)
      && MemberLogged(o, m, Some(round), run.w.up(MemberCall(round, i), m.providerName, o.payload), false)
  {
    hide *;
    forall j | 0 <= j <= k ensures |it.rounds[j].refined| == |s.ok| {
      RoundsAre(run, s, it, j);
    }
    var b := Before(s, it, k);
    RoundsAre(run, s, it, k);
    AnswersAreLatest(run, s, it, k, i);
    MemberIdentity(run, s, it, k);
    RefinedBy(run, b);
    RefineAsks(run, b.ok, b.verdict.critique, b.round + 1, i);
  }

  lemma {:induction false} RefinedBy(run: Run, s: State)
    requires Known(run, s.ok)
    ensures NextRound(run, s).refined == RefineRound(run, s.ok, s.verdict.critique, s.round + 1)
  {
    hide Known, RefineRound, Carry, RoundCritique, Extended, ParseVerdict;
  }

  // ---- Critiques ---------------------------------------------------------------------------

  lemma {:induction false} CritiqueAsks(run: Run, ok: seq<Outcome>, session: seq<Message>, round: nat, answers: seq<(string, string)>)
    requires AnswersOf(answers, ok)
    ensures var o, ctx := RoundCritique(run, ok, session, round), run.ctx;
      var template := if session == [] then ctx.prompts.critique else ctx.prompts.roundCritique;
      && Asks(o.payload, ctx.judgeUpstreamId,
              session + [Message("user", RenderJudgePrompt(template, ctx.messages, answers, ""))], ctx.judgeDefaults, ctx.userParams)
      && JudgeLogged(o, JudgeCritique, ctx, Some(round), run.w.up(CritiqueCall(round), ctx.judgeProvider, o.payload))
  {
    var ctx := run.ctx;
    var template := if session == [] then ctx.prompts.critique else ctx.prompts.roundCritique;
    PromptIsAnonymous(template, ctx.messages, Answers(ok), answers, "");
    hide RenderJudgePrompt, JudgeOutcome, Pending, BuildRequest, MergeParams, Asks, JudgeLogged, Answers;
    var messages := session + [CritiquePrompt(run, ok, session)];
    var request := BuildRequest(ctx.judgeUpstreamId, messages, MergeParams(ctx.judgeDefaults, ctx.userParams));
    RequestAsks(ctx.judgeUpstreamId, messages, ctx.judgeDefaults, ctx.userParams);
    JudgeIsLogged(JudgeCritique, ctx, request, Some(round), run.w.up(CritiqueCall(round), ctx.judgeProvider, request));
  }

  lemma {:induction false} CritiqueStatus(run: Run, ok: seq<Outcome>, session: seq<Message>, round: nat)
    ensures var o := RoundCritique(run, ok, session, round);
      Ok(o) <==> run.w.up(CritiqueCall(round), run.ctx.judgeProvider, o.payload).Answer?
  {
    hide CritiquePrompt, BuildRequest, JudgeParams;
  }

  /** The critique of a later round asks behind the session, in the shorter template, about the answers
      that the round left. */
  lemma {:induction false} LaterCritique(run: Run, s: State, it: Iteration, k: nat, answers: seq<(string, string)>)
    requires IsIteration(run, s, it) && k < |it.rounds| && s.session != []
    requires AnswersOf(answers, Before(s, it, k + 1).ok)
    ensures var o, round, ctx := it.rounds[k].critique, s.round + k + 1, run.ctx;
      && Asks(o.payload, ctx.judgeUpstreamId,
              Before(s, it, k).session
              + [Message("user", RenderJudgePrompt(ctx.prompts.roundCritique, ctx.messages, answers, ""))],
              ctx.judgeDefaults, ctx.userParams)
      && JudgeLogged(o, JudgeCritique, ctx, Some(round), run.w.up(CritiqueCall(round), ctx.judgeProvider, o.payload))
  {
    hide *;
    var b := Before(s, it, k);
    RoundsAre(run, s, it, k);
    SessionAt(run, s, it, k);
    PrefixNotEmpty(s.session, b.session);
    CritiquedBy(run, b);
    AfterIs(s, it, k);
    CritiqueAsks(run, NextRound(run, b).after.ok, b.session, b.round + 1, answers);
  }

  lemma {:induction false} PrefixNotEmpty(a: seq<Message>, b: seq<Message>)
    requires a <= b && a != []
    ensures b != []
  {
  }

  lemma {:induction false} AfterIs(s: State, it: Iteration, k: nat)
    requires k < |it.rounds|
    ensures Before(s, it, k + 1) == it.rounds[k].after
  {
  }

  lemma {:induction false} CritiquedBy(run: Run, s: State)
    requires Known(run, s.ok)
    ensures NextRound(run, s).critique == RoundCritique(run, NextRound(run, s).after.ok, s.session, s.round + 1)
  {
    hide Known, RefineRound, Carry, RoundCritique, Extended, ParseVerdict;
  }

  // ---- The final call ----------------------------------------------------------------------

  /** The final request goes on with the session; its instruction is the pipeline's template, or the
      built-in one when there is none, with the latest answers and the last critique as the arbiter wrote it. */
  lemma {:induction false} FinalAsks(run: Run, s: State, answers: seq<(string, string)>)
    requires AnswersOf(answers, s.ok)
    ensures var ctx := run.ctx;
      var template := if |ctx.judgeTemplate| > 0 then ctx.judgeTemplate else ctx.prompts.defaultJudge;
      Asks(LastRequest(run, s), ctx.judgeUpstreamId,
           s.session + [Message("user", RenderJudgePrompt(template, ctx.messages, answers, s.critiqueText))],
           ctx.judgeDefaults, ctx.userParams)
  {
    var ctx := run.ctx;
    var template := if |ctx.judgeTemplate| > 0 then ctx.judgeTemplate else ctx.prompts.defaultJudge;
    PromptIsAnonymous(template, ctx.messages, Answers(s.ok), answers, s.critiqueText);
    hide RenderJudgePrompt, BuildRequest, MergeParams, Asks, Answers;
    RequestAsks(ctx.judgeUpstreamId,
      s.session + [Message("user", RenderJudgePrompt(template, ctx.messages, answers, s.critiqueText))],
      ctx.judgeDefaults, ctx.userParams);
  }

  /** The final call is logged as a call of the arbiter that belongs to no round. */
  lemma {:induction false} FinalIsLogged(run: Run, request: Request)
    ensures var o := FinalOutcome(run, request);
      o.payload == request && JudgeLogged(o, Judge, run.ctx, None, run.w.up(FinalCall, run.ctx.judgeProvider, request))
  {
    hide JudgeOutcome, Pending, JudgeLogged;
    JudgeIsLogged(Judge, run.ctx, request, None, run.w.up(FinalCall, run.ctx.judgeProvider, request));
  }
}
