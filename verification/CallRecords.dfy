/** What a request asks for, and what the log keeps of a call, field by field. */
module CallRecords {
  import opened Prelude
  import opened JsonText
  import opened Calls

  /** The sampling parameters sent are temperature, token limit and top-p, as far as one of the two layers
      sets them; the higher layer decides, and a null in it withdraws what the lower one says. */
  ghost predicate Samples(sent: Params, low: Params, high: Params) {
    forall key: string ::
      && (key in sent <==>
            && (key == "temperature" || key == "max_tokens" || key == "top_p")
            && (if key in high then high[key] != Null else key in low && low[key] != Null))
      && (key in sent ==> sent[key] == if key in high then high[key] else low[key])
  }

  /** A request for `messages` to `model`, with these tools. */
  ghost predicate AsksWith(request: Request, model: string, messages: seq<Message>, low: Params, high: Params,
        tools: seq<Json>, choice: Option<Json>)
  {
    && request.model == model && request.messages == messages
    && request.tools == tools && request.toolChoice == choice
    && Samples(request.sampling, low, high)
  }

  ghost predicate Asks(request: Request, model: string, messages: seq<Message>, low: Params, high: Params) {
    AsksWith(request, model, messages, low, high, [], None)
  }

  /** The call of a member that `reply` answered. A failed call leaves no content, no calls and no usage. */
  ghost predicate MemberLogged(o: Outcome, spec: MemberSpec, round: Option<nat>, reply: Reply, keepsCalls: bool) {
    && o.role == Member && o.modelId == spec.modelId && o.upstreamModelId == spec.upstreamModelId
    && o.providerName == spec.providerName && o.round == round
    && match reply
       case Answer(content, usage, calls, _) =>
         && o.status == Success && o.content == content && o.usage == usage && o.error == ""
         && o.toolCalls == (if keepsCalls then calls else [])
       case Error(timeout, message) =>
         && o.status == (if timeout then TimedOut else Failed) && o.error == message
         && o.content == "" && o.toolCalls == [] && o.usage == Usage(0, 0, 0, 0)
  }

  /** A call of the arbiter; its timeouts are failures like any other. */
  ghost predicate JudgeLogged(o: Outcome, role: Role, ctx: Context, round: Option<nat>, reply: Reply) {
    && o.role == role && o.modelId == ctx.judgeModelId && o.upstreamModelId == ctx.judgeUpstreamId
    && o.providerName == ctx.judgeProvider && o.round == round && o.toolCalls == []
    && match reply
       case Answer(content, usage, _, _) => o.status == Success && o.content == content && o.usage == usage && o.error == ""
       case Error(_, message) => o.status == Failed && o.error == message && o.content == "" && o.usage == Usage(0, 0, 0, 0)
  }

  lemma {:induction false} RequestAsks(model: string, messages: seq<Message>, low: Params, high: Params)
    ensures Asks(BuildRequest(model, messages, MergeParams(low, high)), model, messages, low, high)
  {
  }

  lemma {:induction false} MemberIsLogged(spec: MemberSpec, request: Request, round: Option<nat>, reply: Reply)
    ensures var o := MemberOutcome(Pending(Member, spec.modelId, spec.upstreamModelId, spec.providerName, request, round), reply);
      o.payload == request && MemberLogged(o, spec, round, reply, true)
  {
  }

  lemma {:induction false} JudgeIsLogged(role: Role, ctx: Context, request: Request, round: Option<nat>, reply: Reply)
    ensures var o := JudgeOutcome(Pending(role, ctx.judgeModelId, ctx.judgeUpstreamId, ctx.judgeProvider, request, round), reply);
      o.payload == request && JudgeLogged(o, role, ctx, round, reply)
  {
  }

  // ---- Filters -----------------------------------------------------------------------------

  /** The survivors are the successful calls, each as often and in the order in which they were made. */
  lemma {:induction false} SurvivorsConcat(a: seq<Outcome>, b: seq<Outcome>)
    ensures Survivors(a + b) == Survivors(a) + Survivors(b)
  {
    if a == [] {
      assert a + b == b;
    } else {
      assert (a + b)[0] == a[0] && (a + b)[1..] == a[1..] + b;
      SurvivorsConcat(a[1..], b);
      AppendAssociates(if Ok(a[0]) then [a[0]] else [], Survivors(a[1..]), Survivors(b));
    }
  }

  lemma {:induction false} SurvivorsOfOne(o: Outcome)
    ensures Survivors([o]) == if o.status == Success then [o] else []
  {
    assert Survivors([o][1..]) == [];
  }

  /** A list of member calls ends the run when all of them failed, or one of them in strict mode. */
  lemma {:induction false} MembersFailedIff(outcomes: seq<Outcome>, strict: bool)
    ensures MembersFailed(outcomes, strict) <==>
      || (forall i :: 0 <= i < |outcomes| ==> outcomes[i].status != Success)
      || (strict && exists i :: 0 <= i < |outcomes| && outcomes[i].status != Success)
  {
    if strict && exists i :: 0 <= i < |outcomes| && outcomes[i].status != Success {
      var i :| 0 <= i < |outcomes| && outcomes[i].status != Success;
      assert outcomes[i] in outcomes && !Ok(outcomes[i]);
    }
    if exists i :: 0 <= i < |outcomes| && outcomes[i].status == Success {
      var i :| 0 <= i < |outcomes| && outcomes[i].status == Success;
      assert outcomes[i] in outcomes && Ok(outcomes[i]);
    }
  }
}
