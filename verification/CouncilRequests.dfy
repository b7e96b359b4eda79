/** What each call of a council asks - with tools and without - and what becomes of its reply. */
module CouncilRequests {
  import opened Prelude
  import opened JsonText
  import opened Calls
  import opened CallRecords
  import opened PromptText
  import opened Council

  // ---- Requests with tools -----------------------------------------------------------------

  /** The tools that go along in tool mode, and none otherwise. */
  function ToolsSent(c: Setup): seq<Json> {
    match c.tools
    case None => []
    case Some(t) => t.list
  }

  /** A tool choice only goes along with tools. */
  function ChoiceSent(c: Setup, choice: Option<Json>): Option<Json> {
    if ToolsSent(c) == [] then None else choice
  }

  lemma {:induction false} ToolRequestAsks(model: string, messages: seq<Message>, low: Params, high: Params, tools: seq<Json>,
        choice: Option<Json>)
    ensures AsksWith(BuildToolRequest(model, messages, MergeParams(low, high), tools, choice),
                     model, messages, low, high, tools, if tools == [] then None else choice)
  {
    RequestAsks(model, messages, low, high);
    hide MergeParams;
  }

  /** The arbiter is held to the requested choice unless there is none to speak of: nothing, null, false, an
      empty text, list or object, or a zero. Then the choice is left to it. */
  lemma {:induction false} FinalChoiceIs(t: Tools)
    ensures FinalChoice(t) ==
      match t.choice
      case None => Str("auto")
      case Some(v) =>
        if v == Null || v == Bool(false) || v == Str("") || v == Arr([]) || v == Obj([]) then Str("auto")
        else if v.Number? && forall k :: 0 <= k < |v.text| && '1' <= v.text[k] <= '9' ==> 'e' in v.text[..k] || 'E' in v.text[..k]
        then Str("auto")
        else v
  {
  }

  // ---- Members -----------------------------------------------------------------------------

  /** Each member is asked the conversation as it is, with its own sampling parameters, and in tool mode
      with the tools and the tool choice of the request. */
  ghost predicate MemberAsked(c: Setup, i: nat, o: Outcome) {
    i < |c.ctx.members| &&
    var m := c.ctx.members[i];
    && AsksWith(o.payload, m.upstreamModelId, c.ctx.messages, m.defaults, m.overrides, ToolsSent(c),
                if c.tools.Some? then ChoiceSent(c, c.tools.value.choice) else None)
    && MemberLogged(o, m, None, c.up(MemberCall(0, i), m.providerName, o.payload), true)
  }

  lemma {:induction false} MembersAsked(c: Setup, i: nat)
    requires i < |c.ctx.members|
    ensures |Members(c)| == |c.ctx.members| && MemberAsked(c, i, Members(c)[i])
  {
    var m := c.ctx.members[i];
    hide MemberOutcome, Pending, BuildRequest, BuildToolRequest, MergeParams, AsksWith, MemberLogged;
    RequestAsks(m.upstreamModelId, c.ctx.messages, m.defaults, m.overrides);
    if c.tools.Some? {
      var t := c.tools.value;
      ToolRequestAsks(m.upstreamModelId, c.ctx.messages, m.defaults, m.overrides, t.list, t.choice);
    }
    var request := MemberRequest(c, i);
    MemberIsLogged(m, request, None, c.up(MemberCall(0, i), m.providerName, request));
  }

  // ---- What the arbiter is shown -----------------------------------------------------------

  function PartText(part: Option<string>): string {
    if part.Some? then part.value else ""
  }

  /** Calls as text: names with their arguments, one after the other. */
  function CallTexts(calls: seq<ToolCall>): string {
    if calls == [] then ""
    else
      var n := |calls|;
      CallTexts(calls[..n - 1]) + (if n > 1 then "; " else "")
      + (PartText(calls[n - 1].name) + "(" + PartText(calls[n - 1].arguments) + ")")
  }

  /** A survivor as the arbiter sees it in tool mode: the calls it decided on, with its text as a note, or
      its text alone. */
  function IntentText(o: Outcome): string {
    if o.toolCalls != [] && o.content != "" then "决定调用工具: " + CallTexts(o.toolCalls) + ("（附说明: " + o.content + "）")
    else if o.toolCalls != [] then "决定调用工具: " + CallTexts(o.toolCalls)
    else if o.content != "" then o.content
    else "（无输出）"
  }

  lemma {:induction false} CallsAsText(calls: seq<ToolCall>, parts: seq<string>)
    requires |parts| == |calls|
    requires forall i :: 0 <= i < |calls| ==> parts[i] == PartText(calls[i].name) + "(" + PartText(calls[i].arguments) + ")"
    ensures Join("; ", parts) == CallTexts(calls)
  {
    if calls != [] {
      var n := |calls|;
      CallsAsText(calls[..n - 1], parts[..n - 1]);
      SplitLast([], parts);
      JoinAppend("; ", parts[..n - 1], parts[n - 1]);
      hide Join;
    }
  }

  /** An intent is the text of the calls and the answer, whenever it can be written. */
  lemma {:induction false} IntentIs(o: Outcome)
    ensures Intent(o).Some? <==> AllComplete(o.toolCalls)
    ensures Intent(o).Some? ==> Intent(o).value == IntentText(o)
  {
    hide Join, CallTexts;
    var calls := o.toolCalls;
    if calls != [] && AllComplete(calls) {
      var parts := seq(|calls|, i requires 0 <= i < |calls| && Complete(calls[i]) =>
        calls[i].name.value + "(" + calls[i].arguments.value + ")");
      CallsAsText(calls, parts);
      assert parts == seq(|o.toolCalls|, i requires 0 <= i < |o.toolCalls| && Complete(o.toolCalls[i]) =>
        o.toolCalls[i].name.value + "(" + o.toolCalls[i].arguments.value + ")");
      assert "决定调用工具: " + CallTexts(calls) + "" == "决定调用工具: " + CallTexts(calls);
    }
  }

  /** `answers` show the survivors in order: their texts, in tool mode their intents. */
  ghost predicate ShowsSurvivors(c: Setup, ok: seq<Outcome>, answers: seq<(string, string)>) {
    && |answers| == |ok|
    && forall i :: 0 <= i < |ok| ==> answers[i].1 == if c.tools.Some? then IntentText(ok[i]) else ok[i].content
  }

  lemma {:induction false} ShownIs(c: Setup, ok: seq<Outcome>)
    requires Shown(c, ok).Some?
    ensures ShowsSurvivors(c, ok, Shown(c, ok).value)
  {
    hide Intent, IntentText;
    forall i | 0 <= i < |ok| ensures Intent(ok[i]).Some? ==> Intent(ok[i]).value == IntentText(ok[i]) {
      IntentIs(ok[i]);
    }
  }

  // ---- The arbiter -------------------------------------------------------------------------

  /** The critique is asked for without tools, whatever the mode. */
  ghost predicate CritiqueAsked(c: Setup, answers: seq<(string, string)>, o: Outcome) {
    var ctx := c.ctx;
    && Asks(o.payload, ctx.judgeUpstreamId,
            [Message("user", RenderJudgePrompt(ctx.prompts.critique, ctx.messages, answers, ""))],
            ctx.judgeDefaults, ctx.userParams)
    && JudgeLogged(o, JudgeCritique, ctx, None, c.up(CritiqueCall(0), ctx.judgeProvider, o.payload))
  }

  /** The final request goes on with the session of the critique: what was asked, what was answered, and the
      instruction - the built-in one in tool mode, else the pipeline's, else the default. In tool mode it
      carries the tools and the requested choice, or "auto". */
  ghost predicate FinalAsked(c: Setup, answers: seq<(string, string)>, critique: Outcome, request: Request) {
    var ctx := c.ctx;
    var template :=
      match c.tools
      case Some(t) => t.template
      case None => if |ctx.judgeTemplate| > 0 then ctx.judgeTemplate else ctx.prompts.defaultJudge;
    AsksWith(request, ctx.judgeUpstreamId,
      critique.payload.messages
        + [Message("assistant", critique.content),
           Message("user", RenderJudgePrompt(template, ctx.messages, answers, critique.content))],
      ctx.judgeDefaults, ctx.userParams, ToolsSent(c),
      if c.tools.Some? then ChoiceSent(c, Some(FinalChoice(c.tools.value))) else None)
  }

  /** The final call as the log keeps it; calls that the arbiter made are kept in tool mode. */
  ghost predicate FinalLogged(c: Setup, o: Outcome) {
    var reply := c.up(FinalCall, c.ctx.judgeProvider, o.payload);
    && JudgeLogged(o.(toolCalls := []), Judge, c.ctx, None, reply)
    && o.toolCalls == (if c.tools.Some? && reply.Answer? then reply.toolCalls else [])
  }

  lemma {:induction false} CritiqueIs(c: Setup, ok: seq<Outcome>, answers: seq<(string, string)>)
    requires Shown(c, ok).Some? && ShowsSurvivors(c, ok, answers)
    ensures CritiqueAsked(c, answers, Critique(c, Shown(c, ok).value))
  {
    var ctx := c.ctx;
    var shown := Shown(c, ok).value;
    ShownIs(c, ok);
    hide RenderJudgePrompt, BuildRequest, MergeParams, Asks, Shown, IntentText, JudgeOutcome, Pending, JudgeLogged;
    PromptIsAnonymous(ctx.prompts.critique, ctx.messages, shown, answers, "");
    var messages := [Message("user", RenderJudgePrompt(ctx.prompts.critique, ctx.messages, shown, ""))];
    RequestAsks(ctx.judgeUpstreamId, messages, ctx.judgeDefaults, ctx.userParams);
    var request := CritiqueRequest(c, shown);
    JudgeIsLogged(JudgeCritique, ctx, request, None, c.up(CritiqueCall(0), ctx.judgeProvider, request));
  }

  lemma {:induction false} FinalIs(c: Setup, ok: seq<Outcome>, critique: Outcome, answers: seq<(string, string)>)
    requires Shown(c, ok).Some? && ShowsSurvivors(c, ok, answers)
    ensures FinalAsked(c, answers, critique, FinalRequest(c, Shown(c, ok).value, critique))
  {
    var ctx := c.ctx;
    var shown := Shown(c, ok).value;
    ShownIs(c, ok);
    hide RenderJudgePrompt, BuildRequest, BuildToolRequest, MergeParams, AsksWith, Shown, IntentText, FinalChoice;
    var template :=
      match c.tools
      case Some(t) => t.template
      case None => if |ctx.judgeTemplate| > 0 then ctx.judgeTemplate else ctx.prompts.defaultJudge;
    PromptIsAnonymous(template, ctx.messages, shown, answers, critique.content);
    var instruction := RenderJudgePrompt(template, ctx.messages, answers, critique.content);
    var messages := critique.payload.messages + [Message("assistant", critique.content), Message("user", instruction)];
    RequestAsks(ctx.judgeUpstreamId, messages, ctx.judgeDefaults, ctx.userParams);
    if c.tools.Some? {
      var t := c.tools.value;
      ToolRequestAsks(ctx.judgeUpstreamId, messages, ctx.judgeDefaults, ctx.userParams, t.list, Some(FinalChoice(t)));
    }
  }

  lemma {:induction false} FinalIsLogged(c: Setup, request: Request)
    ensures FinalOutcome(c, request).payload == request && FinalLogged(c, FinalOutcome(c, request))
  {
  }

  // ---- The calls of a council --------------------------------------------------------------

  /** `rows` are the calls of one council, member calls first, then critique and final call as far as they
      were made. */
  ghost predicate Asked(c: Setup, rows: seq<Outcome>, answers: seq<(string, string)>) {
    var n := |c.ctx.members|;
    && n <= |rows| <= n + 2
    && (forall i: nat :: i < n ==> MemberAsked(c, i, rows[i]))
    && (|rows| > n && ShowsSurvivors(c, Survivors(rows[..n]), answers) ==> CritiqueAsked(c, answers, rows[n]))
    && (|rows| > n + 1 && ShowsSurvivors(c, Survivors(rows[..n]), answers) ==>
          FinalAsked(c, answers, rows[n], rows[n + 1].payload) && FinalLogged(c, rows[n + 1]))
  }

  /** The final request that a driver hands over or makes, behind these rows. */
  ghost predicate FinalOf(c: Setup, rows: seq<Outcome>, answers: seq<(string, string)>, request: Request) {
    var n := |c.ctx.members|;
    |rows| == n + 1 && (ShowsSurvivors(c, Survivors(rows[..n]), answers) ==> FinalAsked(c, answers, rows[n], request))
  }

  lemma {:induction false} CallsAsked(c: Setup, answers: seq<(string, string)>)
    ensures Asked(c, CallsBeforeFinal(c), answers)
    ensures Open(c).Opened? ==> FinalOf(c, CallsBeforeFinal(c), answers, LastRequest(c, Open(c)))
  {
    hide *;
    var rows, n := CallsBeforeFinal(c), |c.ctx.members|;
    BeforeFinalIs(c);
    MembersCount(c);
    var members := Members(c);
    forall i: nat | i < n ensures MemberAsked(c, i, rows[i]) {
      MembersAsked(c, i);
    }
    if |rows| > n && ShowsSurvivors(c, Survivors(members), answers) {
      CritiqueIs(c, Survivors(members), answers);
      FinalIs(c, Survivors(members), rows[n], answers);
    }
    IsAsked(c, rows, members, answers);
    if Open(c).Opened? {
      IsFinalOf(c, rows, members, answers, LastRequest(c, Open(c)));
    }
  }

  lemma {:induction false} IsAsked(c: Setup, rows: seq<Outcome>, members: seq<Outcome>, answers: seq<(string, string)>)
    requires |members| == |c.ctx.members| && members <= rows && |rows| <= |members| + 1
    requires forall i: nat :: i < |members| ==> MemberAsked(c, i, rows[i])
    requires |rows| > |members| && ShowsSurvivors(c, Survivors(members), answers) ==> CritiqueAsked(c, answers, rows[|members|])
    ensures Asked(c, rows, answers)
  {
    hide MemberAsked, ShowsSurvivors, CritiqueAsked, FinalAsked, FinalLogged, Survivors;
    assert rows[..|members|] == members;
  }

  lemma {:induction false} IsFinalOf(c: Setup, rows: seq<Outcome>, members: seq<Outcome>, answers: seq<(string, string)>, request: Request)
    requires |members| == |c.ctx.members| && members <= rows && |rows| == |members| + 1
    requires ShowsSurvivors(c, Survivors(members), answers) ==> FinalAsked(c, answers, rows[|members|], request)
    ensures FinalOf(c, rows, answers, request)
  {
    hide ShowsSurvivors, FinalAsked, Survivors;
    assert rows[..|members|] == members;
  }

  lemma {:induction false} MembersCount(c: Setup)
    ensures |Members(c)| == |c.ctx.members|
  {
  }

  lemma {:induction false} BeforeFinalIs(c: Setup)
    ensures var members, rows := Members(c), CallsBeforeFinal(c);
      && members <= rows && |rows| <= |members| + 1
      && (|rows| > |members| ==>
            Shown(c, Survivors(members)).Some? && rows[|members|] == Critique(c, Shown(c, Survivors(members)).value))
      && (Open(c).Opened? ==>
            |rows| > |members| && LastRequest(c, Open(c)) == FinalRequest(c, Shown(c, Survivors(members)).value, rows[|members|]))
  {
    hide Members, Survivors, MembersFailed, Shown, Critique, FinalRequest;
  }

  /** Every call that a `run` logs asks what it should, in tool mode with the tools and outside it without
      any - whether the run returns, falls back or raises. */
  lemma {:induction false} RunAsks(c: Setup, end: Ending, answers: seq<(string, string)>)
    requires Ends(c, end) && end != Uncaught
    ensures Asked(c, RecordedRows(end), answers)
  {
    hide *;
    RecordedOnceIff(c, end);
    CallsAsked(c, answers);
    MadeIs(c);
    if Open(c).Opened? {
      FinalIsLogged(c, LastRequest(c, Open(c)));
      AskedWithFinal(c, CallsBeforeFinal(c), answers, FinalOutcome(c, LastRequest(c, Open(c))));
    }
  }

  lemma {:induction false} MadeIs(c: Setup)
    ensures MadeCalls(c) == if Open(c).Opened? then CallsBeforeFinal(c) + [FinalOutcome(c, LastRequest(c, Open(c)))]
                            else CallsBeforeFinal(c)
  {
    hide Open, CallsBeforeFinal, FinalOutcome, LastRequest;
  }

  lemma {:induction false} AskedWithFinal(c: Setup, rows: seq<Outcome>, answers: seq<(string, string)>, final: Outcome)
    requires Asked(c, rows, answers) && FinalOf(c, rows, answers, final.payload) && FinalLogged(c, final)
    ensures Asked(c, rows + [final], answers)
  {
    hide MemberAsked, ShowsSurvivors, CritiqueAsked, FinalAsked, FinalLogged, Survivors;
    assert (rows + [final])[..|c.ctx.members|] == rows[..|c.ctx.members|];
  }

  /** The same for the calls in front of a prepared stream and the final request that it forwards. */
  lemma {:induction false} PlanAsks(c: Setup, plan: Council.Plan, answers: seq<(string, string)>)
    requires Prepared(c, plan) && !plan.PlanUncaught?
    ensures Asked(c, PlanRows(plan), answers)
    ensures plan.Ready? ==> FinalOf(c, PlanRows(plan), answers, plan.request)
  {
    hide *;
    PlanIs(c, plan);
    CallsAsked(c, answers);
  }

  lemma {:induction false} PlanIs(c: Setup, plan: Council.Plan)
    requires Prepared(c, plan) && !plan.PlanUncaught?
    ensures PlanRows(plan) == CallsBeforeFinal(c)
    ensures plan.Ready? ==> Open(c).Opened? && plan.request == LastRequest(c, Open(c))
  {
    hide Members, Survivors, MembersFailed, Shown, Critique, FinalRequest, UsageOf;
  }

  /** A process stream shows a rearrangement of such calls, and makes or hands on such a final request. */
  lemma {:induction false} ProcessAsks(c: Setup, seen: seq<Outcome>, events: seq<Drivers.ProcessEvent>, end: ProcessEnd,
        answers: seq<(string, string)>)
    requires Shows(c, seen, events, end)
    ensures exists rows ::
      && multiset(rows) == multiset(Drivers.OutcomesOf(events)) && Asked(c, rows, answers)
      && (ProcessRequest(end).Some? ==> FinalOf(c, rows, answers, ProcessRequest(end).value))
  {
    hide *;
    EventsShowCalls(c, seen, events, end);
    CallsAsked(c, answers);
    if ProcessRequest(end).Some? {
      ProcessRequestIs(c, seen, events, end);
    }
  }

  lemma {:induction false} ProcessRequestIs(c: Setup, seen: seq<Outcome>, events: seq<Drivers.ProcessEvent>, end: ProcessEnd)
    requires Shows(c, seen, events, end) && ProcessRequest(end).Some?
    ensures Open(c).Opened? && ProcessRequest(end) == Some(LastRequest(c, Open(c)))
  {
    hide Members, Survivors, MembersFailed, Shown, Critique, FinalRequest, DeliversAnswer, FallbackOf, Unlistable;
    if Open(c).Opened? {
      JudgePayload(c, end);
    }
  }
}
