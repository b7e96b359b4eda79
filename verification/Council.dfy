/** The council strategy: members, one critique, one final call - with or without tools. */
module Council {
  import opened Prelude
  import opened JsonText
  import opened Calls
  import opened Executor
  import Drivers = IceDrivers

  // ---- Requests ----------------------------------------------------------------------------

  /** Tool aggregation: the tools of the request body, its `tool_choice` if it is not null, and whether the
      JSON decoder reads a text as an object. */
  datatype Tools = Tools(list: seq<Json>, choice: Option<Json>, isObject: string -> bool, template: string)

  /** One council call. `tools` is set exactly in tool mode. */
  datatype Setup = Setup(ctx: Context, tools: Option<Tools>, up: Upstream)

  function BuildToolRequest(model: string, messages: seq<Message>, merged: Params, tools: seq<Json>,
        choice: Option<Json>): Request {
    if tools == [] then BuildRequest(model, messages, merged)
    else BuildRequest(model, messages, merged).(tools := tools, toolChoice := choice)
  }

  /** Python's truth of a JSON value; a number is false when its digits, up to an exponent, are all 0. */
  predicate Truthy(v: Json) {
    match v
    case Null => false
    case Bool(b) => b
    case Str(s) => s != ""
    case Arr(items) => items != []
    case Obj(fields) => fields != []
    case Number(text) => exists k :: 0 <= k < |text| && '1' <= text[k] <= '9' && 'e' !in text[..k] && 'E' !in text[..k]
  }

  /** `body.get("tool_choice") or "auto"` */
  function FinalChoice(t: Tools): Json {
    if t.choice.Some? && Truthy(t.choice.value) then t.choice.value else Str("auto")
  }

  function MemberRequest(c: Setup, i: nat): Request
    requires i < |c.ctx.members|
  {
    var spec := c.ctx.members[i];
    var merged := MergeParams(spec.defaults, spec.overrides);
    match c.tools
    case None => BuildRequest(spec.upstreamModelId, c.ctx.messages, merged)
    case Some(t) => BuildToolRequest(spec.upstreamModelId, c.ctx.messages, merged, t.list, t.choice)
  }

  function RunOne(c: Setup, i: nat): Outcome
    requires i < |c.ctx.members|
  {
    var spec := c.ctx.members[i];
    var request := MemberRequest(c, i);
    MemberOutcome(Pending(Member, spec.modelId, spec.upstreamModelId, spec.providerName, request, None),
                  c.up(MemberCall(0, i), spec.providerName, request))
  }

  function Members(c: Setup): seq<Outcome> {
    seq(|c.ctx.members|, i requires 0 <= i < |c.ctx.members| => RunOne(c, i))
  }

  /** A merged call has the keys that the text of an intent reads. */
  predicate Complete(call: ToolCall) {
    call.name.Some? && call.arguments.Some?
  }

  predicate AllComplete(calls: seq<ToolCall>) {
    forall i :: 0 <= i < |calls| ==> Complete(calls[i])
  }

  /** `format_tool_intent`; None when a key is missing and it raises. */
  function Intent(o: Outcome): Option<string> {
    if o.toolCalls == [] then Some(if o.content != "" then o.content else "（无输出）")
    else if !AllComplete(o.toolCalls) then None
    else
      var calls := Join("; ", seq(|o.toolCalls|, i requires 0 <= i < |o.toolCalls| && Complete(o.toolCalls[i]) =>
        o.toolCalls[i].name.value + "(" + o.toolCalls[i].arguments.value + ")"));
      Some("决定调用工具: " + calls + (if o.content != "" then "（附说明: " + o.content + "）" else ""))
  }

  /** What the arbiter is shown of each survivor. */
  function Shown(c: Setup, ok: seq<Outcome>): Option<seq<(string, string)>> {
    if c.tools.None? then Some(seq(|ok|, i requires 0 <= i < |ok| => (ok[i].upstreamModelId, ok[i].content)))
    else if forall i :: 0 <= i < |ok| ==> Intent(ok[i]).Some? then
      Some(seq(|ok|, i requires 0 <= i < |ok| && Intent(ok[i]).Some? => (ok[i].upstreamModelId, Intent(ok[i]).value)))
    else None
  }

  function JudgeParams(c: Setup): Params {
    MergeParams(c.ctx.judgeDefaults, c.ctx.userParams)
  }

  function CritiqueRequest(c: Setup, shown: seq<(string, string)>): Request {
    BuildRequest(c.ctx.judgeUpstreamId,
      [Message("user", RenderJudgePrompt(c.ctx.prompts.critique, c.ctx.messages, shown, ""))], JudgeParams(c))
  }

  function Critique(c: Setup, shown: seq<(string, string)>): Outcome {
    var request := CritiqueRequest(c, shown);
    JudgeOutcome(Pending(JudgeCritique, c.ctx.judgeModelId, c.ctx.judgeUpstreamId, c.ctx.judgeProvider, request, None),
                 c.up(CritiqueCall(0), c.ctx.judgeProvider, request))
  }

  /** The final call goes on with the session of the critique. */
  function FinalRequest(c: Setup, shown: seq<(string, string)>, critique: Outcome): Request {
    var template :=
      if c.tools.Some? then c.tools.value.template
      else if c.ctx.judgeTemplate != "" then c.ctx.judgeTemplate
      else c.ctx.prompts.defaultJudge;
    var instruction := RenderJudgePrompt(template, c.ctx.messages, shown, critique.content);
    var messages := critique.payload.messages + [Message("assistant", critique.content), Message("user", instruction)];
    match c.tools
    case None => BuildRequest(c.ctx.judgeUpstreamId, messages, JudgeParams(c))
    case Some(t) => BuildToolRequest(c.ctx.judgeUpstreamId, messages, JudgeParams(c), t.list, Some(FinalChoice(t)))
  }

  function FinalPending(c: Setup, request: Request): Outcome {
    Pending(Judge, c.ctx.judgeModelId, c.ctx.judgeUpstreamId, c.ctx.judgeProvider, request, None)
  }

  function FinalReply(c: Setup, request: Request): Reply {
    c.up(FinalCall, c.ctx.judgeProvider, request)
  }

  // ---- Validation and fallback ---------------------------------------------------------------

  /** The value under a key of a decoded object: of equal keys the last one stays. */
  function Lookup(fields: seq<Field>, name: string): Option<Json> {
    if fields == [] then None
    else if fields[|fields| - 1].name == name then Some(fields[|fields| - 1].value)
    else Lookup(fields[..|fields| - 1], name)
  }

  /** What `t["function"]["name"]` makes of one element of `tools`: elements that are no objects, or have no
      function, are skipped; reading the name of any other one may raise. */
  datatype Offer = NoFunction | Unreadable | Offered(name: Json)

  function OfferOf(entry: Json): Offer {
    match entry
    case Obj(fields) =>
      (match Lookup(fields, "function")
       case None => NoFunction
       case Some(Obj(inner)) =>
         (match Lookup(inner, "name")
          case None => Unreadable
          case Some(name) => if name.Arr? || name.Obj? then Unreadable else Offered(name))
       case Some(_) => Unreadable)
    case _ => NoFunction
  }

  /** Some element of `tools` has a function without a name that could be listed. */
  predicate Unlistable(list: seq<Json>) {
    exists i :: 0 <= i < |list| && OfferOf(list[i]).Unreadable?
  }

  predicate Offers(entry: Json, name: string) {
    OfferOf(entry) == Offered(Str(name))
  }

  predicate Known(list: seq<Json>, name: string) {
    exists i :: 0 <= i < |list| && Offers(list[i], name)
  }

  /** The set comprehension over `tools`; None when it raises. */
  method ListNames(list: seq<Json>) returns (known: Option<set<string>>)
    ensures known.None? <==> Unlistable(list)
    ensures known.Some? ==> forall name :: name in known.value <==> Known(list, name)
  {
    hide OfferOf;
    var names: set<string> := {};
    for i := 0 to |list|
      invariant forall k :: 0 <= k < i ==> !OfferOf(list[k]).Unreadable?
      invariant forall name :: name in names <==> exists k :: 0 <= k < i && Offers(list[k], name)
    {
      var offer := OfferOf(list[i]);
      if offer.Unreadable? {
        return None;
      }
      if offer.Offered? && offer.name.Str? {
        names := names + {offer.name.s};
        assert Offers(list[i], offer.name.s);
      }
    }
    return Some(names);
  }

  predicate ValidCall(t: Tools, call: ToolCall) {
    && call.name.Some? && Known(t.list, call.name.value)
    && t.isObject(if call.arguments.Some? && call.arguments.value != "" then call.arguments.value else "{}")
  }

  /** `validate_tool_calls`; None when listing the tools raises, which happens before the calls are looked at. */
  method ValidateToolCalls(t: Tools, calls: seq<ToolCall>) returns (valid: Option<bool>)
    ensures valid.None? <==> Unlistable(t.list)
    ensures valid.Some? ==> (valid.value <==> calls != [] && forall i :: 0 <= i < |calls| ==> ValidCall(t, calls[i]))
  {
    hide Known, Unlistable;
    var known := ListNames(t.list);
    if known.None? {
      return None;
    }
    if calls == [] {
      return Some(false);
    }
    for i := 0 to |calls|
      invariant forall k :: 0 <= k < i ==> ValidCall(t, calls[k])
    {
      if calls[i].name.None? || calls[i].name.value !in known.value {
        return Some(false);
      }
      if !t.isObject(if calls[i].arguments.Some? && calls[i].arguments.value != "" then calls[i].arguments.value else "{}") {
        return Some(false);
      }
    }
    return Some(true);
  }

  /** The calls of the survivors that made any, in configuration order. */
  function CallLists(ok: seq<Outcome>): seq<seq<ToolCall>> {
    if ok == [] then [] else (if ok[0].toolCalls != [] then [ok[0].toolCalls] else []) + CallLists(ok[1..])
  }

  function NamesOf(calls: seq<ToolCall>): seq<string> {
    seq(|calls|, i requires 0 <= i < |calls| => match calls[i].name case Some(n) => n case None => "")
  }

  function AllNames(lists: seq<seq<ToolCall>>): seq<string> {
    if lists == [] then [] else NamesOf(lists[0]) + AllNames(lists[1..])
  }

  function Count(names: seq<string>, name: string): nat {
    multiset(names)[name]
  }

  /** `Counter(names).most_common(1)`: the most frequent name; of equally frequent ones the first seen. */
  method MostCommon(names: seq<string>) returns (top: string)
    requires names != []
    ensures Majority(names, top)
  {
    top := names[0];
    var first := 0;
    for i := 1 to |names|
      invariant 0 <= first < i && top == names[first] && top !in names[..first]
      invariant forall k :: 0 <= k < i ==> Count(names, names[k]) <= Count(names, top)
      invariant forall k :: 0 <= k < first ==> Count(names, names[k]) < Count(names, top)
    {
      if Count(names, names[i]) > Count(names, top) {
        assert names[i] !in names[..i] by {
          assert forall k :: 0 <= k < i ==> names[..i][k] == names[k];
        }
        top, first := names[i], i;
      }
    }
  }

  /** No name occurs more often, and every name that first occurs earlier occurs less often. */
  ghost predicate Majority(names: seq<string>, top: string) {
    && top in names
    && (forall n :: n in names ==> Count(names, n) <= Count(names, top))
    && exists first :: 0 <= first < |names| && names[first] == top && forall k :: 0 <= k < first ==> Count(names, names[k]) < Count(names, top)
  }

  lemma {:induction false} MajorityUnique(names: seq<string>, a: string, b: string)
    requires Majority(names, a) && Majority(names, b)
    ensures a == b
  {
    var i :| 0 <= i < |names| && names[i] == a && forall k :: 0 <= k < i ==> Count(names, names[k]) < Count(names, a);
    var j :| 0 <= j < |names| && names[j] == b && forall k :: 0 <= k < j ==> Count(names, names[k]) < Count(names, b);
    assert Count(names, a) == Count(names, b);
  }

  /** The calls of the first member that calls the majority function. */
  ghost predicate Picked(lists: seq<seq<ToolCall>>, calls: seq<ToolCall>) {
    exists top, k :: Majority(AllNames(lists), top) && FirstUser(lists, top, k) && lists[k] == calls
  }

  predicate FirstUser(lists: seq<seq<ToolCall>>, top: string, k: int) {
    0 <= k < |lists| && top in NamesOf(lists[k]) && forall j :: 0 <= j < k ==> top !in NamesOf(lists[j])
  }

  /** `pick_fallback_tool_calls`, for survivors whose calls are complete. */
  method PickFallback(ok: seq<Outcome>) returns (r: Option<seq<ToolCall>>)
    ensures r.None? <==> CallLists(ok) == []
    ensures r.Some? ==> r.value != [] && Picked(CallLists(ok), r.value)
  {
    var lists := CallLists(ok);
    CallListsNonEmpty(ok);
    if lists == [] {
      return None;
    }
    var names := AllNames(lists);
    assert names != [] by {
      assert |NamesOf(lists[0])| > 0;
    }
    var top := MostCommon(names);
    for k := 0 to |lists|
      invariant forall j :: 0 <= j < k ==> top !in NamesOf(lists[j])
    {
      if top in NamesOf(lists[k]) {
        assert FirstUser(lists, top, k);
        return Some(lists[k]);
      }
    }
    NotInAllNames(lists, top);
    assert false;
    r := None;
  }

  lemma {:induction false} CallListsNonEmpty(ok: seq<Outcome>)
    ensures forall k :: 0 <= k < |CallLists(ok)| ==> CallLists(ok)[k] != []
  {
    if ok != [] {
      CallListsNonEmpty(ok[1..]);
    }
  }

  lemma {:induction false} NotInAllNames(lists: seq<seq<ToolCall>>, top: string)
    requires forall j :: 0 <= j < |lists| ==> top !in NamesOf(lists[j])
    ensures top !in AllNames(lists)
  {
    if lists != [] {
      NotInAllNames(lists[1..], top);
    }
  }

  /** The fallback is determined by the survivors. */
  lemma {:induction false} PickedUnique(lists: seq<seq<ToolCall>>, a: seq<ToolCall>, b: seq<ToolCall>)
    requires Picked(lists, a) && Picked(lists, b)
    ensures a == b
  {
    var top, k :| Majority(AllNames(lists), top) && FirstUser(lists, top, k) && lists[k] == a;
    var other, j :| Majority(AllNames(lists), other) && FirstUser(lists, other, j) && lists[j] == b;
    hide Majority, NamesOf, AllNames;
    MajorityUnique(AllNames(lists), top, other);
    assert k == j;
  }

  // ---- Results -------------------------------------------------------------------------------

  /** What the final round delivers. */
  datatype Delivered = Delivered(judge: Outcome, calls: Option<seq<ToolCall>>, finish: string, degraded: bool, content: string)

  datatype Ending =
    | Returned(content: string, usage: Usage, degraded: bool, calls: seq<Outcome>, finish: string, toolCalls: Option<seq<ToolCall>>)
    | Raised(members: seq<Outcome>, critique: Option<Outcome>, judge: Option<Outcome>)
    | Uncaught

  /** How far a call gets before its final request. */
  datatype Opening =
    | NoMembers(members: seq<Outcome>)
    | NoIntent(members: seq<Outcome>)
    | NoCritique(members: seq<Outcome>, ok: seq<Outcome>, critique: Outcome)
    | Opened(members: seq<Outcome>, ok: seq<Outcome>, shown: seq<(string, string)>, critique: Outcome)

  function Open(c: Setup): Opening {
    var members := Members(c);
    if MembersFailed(members, c.ctx.memberStrict) then NoMembers(members)
    else
      var ok := Survivors(members);
      match Shown(c, ok)
      case None => NoIntent(members)
      case Some(shown) =>
        var critique := Critique(c, shown);
        if Ok(critique) then Opened(members, ok, shown, critique) else NoCritique(members, ok, critique)
  }

  /** The request of the final call, once the critique has succeeded. */
  function LastRequest(c: Setup, o: Opening): Request
    requires o.Opened?
  {
    FinalRequest(c, o.shown, o.critique)
  }

  /** Input and output tokens are added; the cached part of a judge call is not. */
  function PlusTokens(total: Usage, u: Usage): Usage {
    total.(prompt := total.prompt + u.prompt, completion := total.completion + u.completion)
  }

  /** The calls a member made, if any survivor made some. */
  ghost predicate FallbackOf(ok: seq<Outcome>, calls: Option<seq<ToolCall>>) {
    if CallLists(ok) == [] then calls.None? else calls.Some? && Picked(CallLists(ok), calls.value)
  }

  /** The arbiter answered with calls, and validating them raises: a tool has no name. */
  predicate Breaks(c: Setup, answer: Reply) {
    c.tools.Some? && answer.Answer? && answer.toolCalls != [] && Unlistable(c.tools.value.list)
  }

  /** What the final round may deliver after a successful call of the arbiter. */
  ghost predicate DeliversAnswer(c: Setup, o: Opening, answer: Reply, d: Delivered)
    requires o.Opened? && c.tools.Some? && answer.Answer?
  {
    && d.content == answer.content
    && d.judge == FinalPending(c, LastRequest(c, o)).(content := answer.content, toolCalls := answer.toolCalls, usage := answer.usage)
    && var valid := forall i :: 0 <= i < |answer.toolCalls| ==> ValidCall(c.tools.value, answer.toolCalls[i]);
       if answer.toolCalls == [] then d.calls == None && d.finish == "stop" && !d.degraded
       else if valid then d.calls == Some(answer.toolCalls) && d.finish == answer.finish && !d.degraded
       else if CallLists(o.ok) == [] then d.calls == None && d.finish == "stop" && !d.degraded
       else FallbackOf(o.ok, d.calls) && d.finish == "tool_calls" && d.degraded
  }

  /** What is delivered instead, when a call of the arbiter failed: the calls picked from the members in
      tool mode, and otherwise the first survivor's text. */
  ghost predicate FallsBack(c: Setup, ok: seq<Outcome>, last: Outcome, d: Delivered)
    requires ok != []
  {
    && d.judge == last && d.degraded
    && (if c.tools.None? then d.calls.None? else FallbackOf(ok, d.calls))
    && d.finish == (if d.calls.Some? then "tool_calls" else "stop")
    && d.content == (if d.calls.Some? then "" else ok[0].content)
  }

  /** How the final tool round ends: with a result, with the error of a strict judge failure, or with an
      exception that nothing catches. */
  datatype ToolRound = Made(delivered: Delivered) | JudgeRaised | Broke

  /** `_run_tool_final_round` */
  method RunToolFinalRound(c: Setup, o: Opening) returns (r: ToolRound)
    requires o == Open(c) && o.Opened? && c.tools.Some? && o.ok != []
    ensures var reply := FinalReply(c, LastRequest(c, o));
      if Breaks(c, reply) then r.Broke?
      else if reply.Answer? then r.Made? && DeliversAnswer(c, o, reply, r.delivered)
      else if c.ctx.judgeStrict then r.JudgeRaised?
      else r.Made? && FallsBack(c, o.ok, JudgeOutcome(FinalPending(c, LastRequest(c, o)), reply), r.delivered)
  {
    hide Open, FinalRequest, Picked, FallbackOf, ValidCall, Unlistable;
    var request := LastRequest(c, o);
    var judge := FinalPending(c, request);
    var reply := FinalReply(c, request);
    if reply.Error? {
      judge := judge.(status := Failed, error := reply.message);
      if c.ctx.judgeStrict {
        return JudgeRaised;
      }
      var fallback := PickFallback(o.ok);
      IsFallback(o.ok, fallback);
      if fallback.Some? {
        return Made(Delivered(judge, fallback, "tool_calls", true, ""));
      }
      return Made(Delivered(judge, None, "stop", true, o.ok[0].content));
    }
    judge := judge.(content := reply.content, toolCalls := reply.toolCalls, usage := reply.usage);
    var finalCalls, finish, degraded := if reply.toolCalls != [] then Some(reply.toolCalls) else None, reply.finish, false;
    if reply.toolCalls != [] {
      var valid := ValidateToolCalls(c.tools.value, reply.toolCalls);
      if valid.None? {
        return Broke;
      }
      if !valid.value {
        var fallback := PickFallback(o.ok);
        IsFallback(o.ok, fallback);
        if fallback.Some? {
          finalCalls, finish, degraded := fallback, "tool_calls", true;
        } else {
          finalCalls, finish := None, "stop";
        }
      }
    } else {
      finish := "stop";
    }
    return Made(Delivered(judge, finalCalls, finish, degraded, reply.content));
  }

  lemma {:induction false} IsFallback(ok: seq<Outcome>, r: Option<seq<ToolCall>>)
    requires r.None? <==> CallLists(ok) == []
    requires r.Some? ==> Picked(CallLists(ok), r.value)
    ensures FallbackOf(ok, r)
  {
  }

  // ---- Driver 1: run -------------------------------------------------------------------------

  /** `run_members` up to its failure check. */
  method RunMembers(c: Setup) returns (members: seq<Outcome>, completed: seq<nat>)
    ensures members == Members(c) && Permutation(completed, |members|)
  {
    var blank := Pending(Member, 0, "", "", BuildRequest("", [], map[]), None);
    members, completed := RunTasks(|c.ctx.members|, c.ctx.maxConcurrency,
      (i: nat) => if i < |c.ctx.members| then RunOne(c, i) else blank);
  }

  lemma {:induction false} SurvivorExists(members: seq<Outcome>, strict: bool)
    requires !MembersFailed(members, strict)
    ensures Survivors(members) != []
  {
    SurvivorsAre(members);
    var o :| o in members && Ok(o);
    assert o in Survivors(members);
  }

  /** The last call and the answer of a result. */
  function LastDelivered(end: Ending): Delivered
    requires end.Returned? && end.calls != []
  {
    Delivered(end.calls[|end.calls| - 1], end.toolCalls, end.finish, end.degraded, end.content)
  }

  /** How `run` ends behind a successful critique. */
  ghost predicate EndsOpened(c: Setup, o: Opening, end: Ending)
    requires o.Opened? && o.ok != []
  {
    var request := LastRequest(c, o);
    var reply := FinalReply(c, request);
    var judge := JudgeOutcome(FinalPending(c, request), reply);
    if Breaks(c, reply) then end == Uncaught
    else if reply.Error? && c.ctx.judgeStrict then end == Raised(o.members, Some(o.critique), Some(judge))
    else
      && end.Returned? && end.calls != [] && end.calls[..|end.calls| - 1] == o.members + [o.critique]
      && end.usage == (if reply.Error? && c.tools.None? then UsageOf(o.members)
                       else PlusTokens(PlusTokens(UsageOf(o.members), o.critique.usage), judge.usage))
      && var d := LastDelivered(end);
         if reply.Error? then FallsBack(c, o.ok, judge, d)
         else if c.tools.None? then d == Delivered(judge, None, "stop", false, reply.content)
         else DeliversAnswer(c, o, reply, d)
  }

  /** How `run` ends. */
  ghost predicate Ends(c: Setup, end: Ending) {
    match Open(c)
    case NoMembers(members) => end == Raised(members, None, None)
    case NoIntent(_) => end == Uncaught
    case NoCritique(members, ok, critique) =>
      if c.ctx.judgeStrict then end == Raised(members, Some(critique), None)
      else (
        ok != [] && end.Returned? && end.calls == members + [critique] && end.usage == UsageOf(members)
        && FallsBack(c, ok, critique, LastDelivered(end)))
    case Opened(_, ok, _, _) => ok != [] && EndsOpened(c, Open(c), end)
  }

  /** Calls are delivered when they are valid, or when they are those of a member and marked as degraded. */
  ghost predicate SafeCalls(c: Setup, ok: seq<Outcome>, degraded: bool, calls: seq<ToolCall>)
    requires c.tools.Some?
  {
    if degraded then Picked(CallLists(ok), calls) else calls != [] && forall i :: 0 <= i < |calls| ==> ValidCall(c.tools.value, calls[i])
  }

  method RunCritique(c: Setup, shown: seq<(string, string)>) returns (critique: Outcome)
    ensures critique == Critique(c, shown)
  {
    var request := CritiqueRequest(c, shown);
    critique := Pending(JudgeCritique, c.ctx.judgeModelId, c.ctx.judgeUpstreamId, c.ctx.judgeProvider, request, None);
    var reply := c.up(CritiqueCall(0), c.ctx.judgeProvider, request);
    critique := JudgeOutcome(critique, reply);
  }

  method Run(c: Setup) returns (end: Ending)
    ensures Ends(c, end)
  {
    hide MembersFailed, Survivors, Members, Shown, Critique, FinalRequest;
    hide UsageOf, Picked, CallLists, ValidCall, FallbackOf, EndsOpened;
    var members, _ := RunMembers(c);
    if MembersFailed(members, c.ctx.memberStrict) {
      return Raised(members, None, None);
    }
    SurvivorExists(members, c.ctx.memberStrict);
    var ok := Survivors(members);
    var shown := Shown(c, ok);
    if shown.None? {
      return Uncaught;
    }
    var critique := RunCritique(c, shown.value);
    var total := SumUsage(members);
    if !Ok(critique) {
      if c.ctx.judgeStrict {
        return Raised(members, Some(critique), None);
      }
      if c.tools.None? {
        return Returned(ok[0].content, total, true, members + [critique], "stop", None);
      }
      var fallback := PickFallback(ok);
      IsFallback(ok, fallback);
      if fallback.Some? {
        return Returned("", total, true, members + [critique], "tool_calls", fallback);
      }
      return Returned(ok[0].content, total, true, members + [critique], "stop", None);
    }
    end := FinishRun(c, members, ok, shown.value, critique, total);
  }

  /** The final call of `run` and its fallbacks. */
  method FinishRun(c: Setup, members: seq<Outcome>, ok: seq<Outcome>, shown: seq<(string, string)>, critique: Outcome,
        total: Usage)
    returns (end: Ending)
    requires Open(c) == Opened(members, ok, shown, critique) && ok != [] && total == UsageOf(members)
    ensures EndsOpened(c, Opened(members, ok, shown, critique), end)
  {
    hide Open, FinalRequest, UsageOf, FallbackOf, ValidCall, CallLists, Unlistable;
    var request := FinalRequest(c, shown, critique);
    var reply := FinalReply(c, request);
    var pre := members + [critique];
    if c.tools.None? {
      var judge := JudgeOutcome(FinalPending(c, request), reply);
      assert (pre + [judge])[..|pre|] == pre;
      if reply.Error? {
        if c.ctx.judgeStrict {
          return Raised(members, Some(critique), Some(judge));
        }
        return Returned(ok[0].content, total, true, pre + [judge], "stop", None);
      }
      var usage := PlusTokens(PlusTokens(total, critique.usage), reply.usage);
      return Returned(reply.content, usage, false, pre + [judge], "stop", None);
    }
    var r := RunToolFinalRound(c, Opened(members, ok, shown, critique));
    if r.Broke? {
      return Uncaught;
    }
    if r.JudgeRaised? {
      return Raised(members, Some(critique), Some(JudgeOutcome(FinalPending(c, request), reply)));
    }
    var d := r.delivered;
    assert (pre + [d.judge])[..|pre|] == pre;
    var usage := PlusTokens(PlusTokens(total, critique.usage), d.judge.usage);
    end := Returned(d.content, usage, d.degraded, pre + [d.judge], d.finish, d.calls);
    assert LastDelivered(end) == d;
  }

  // ---- Drivers 2 and 3: prepared stream and process stream -----------------------------------

  datatype Plan =
    | Ready(pre: seq<Outcome>, base: Usage, request: Request)
    | PlanRaised(members: seq<Outcome>, critique: Option<Outcome>)
    | PlanUncaught

  /** What `prepare_stream` hands over. */
  ghost predicate Prepared(c: Setup, plan: Plan) {
    match Open(c)
    case NoMembers(members) => plan == PlanRaised(members, None)
    case NoIntent(_) => plan == PlanUncaught
    case NoCritique(members, _, critique) => plan == PlanRaised(members, Some(critique))
    case Opened(members, _, _, critique) =>
      plan == Ready(members + [critique], PlusTokens(UsageOf(members), critique.usage), LastRequest(c, Open(c)))
  }

  method PrepareStream(c: Setup) returns (plan: Plan)
    ensures Prepared(c, plan)
  {
    hide MembersFailed, Survivors, Members, Shown, Critique, FinalRequest, UsageOf;
    var members, _ := RunMembers(c);
    if MembersFailed(members, c.ctx.memberStrict) {
      return PlanRaised(members, None);
    }
    var ok := Survivors(members);
    var shown := Shown(c, ok);
    if shown.None? {
      return PlanUncaught;
    }
    var critique := RunCritique(c, shown.value);
    if !Ok(critique) {
      return PlanRaised(members, Some(critique));
    }
    var base := SumUsage(members);
    return Ready(members + [critique], PlusTokens(base, critique.usage), FinalRequest(c, shown.value, critique));
  }

  datatype ProcessEnd =
    | Plan(request: Request)
    | Result(delivered: Delivered)
    | ProcessRaised(members: seq<Outcome>, critique: Option<Outcome>, judge: Option<Outcome>)
    | ProcessUncaught

  /** What a process stream shows - the members as `seen`, in completion order, then the critique if it
      was asked for - and how it ends. */
  ghost predicate Shows(c: Setup, seen: seq<Outcome>, events: seq<Drivers.ProcessEvent>, end: ProcessEnd) {
    multiset(seen) == multiset(Members(c)) &&
    match Open(c)
    case NoMembers(members) => events == Drivers.MemberEvents(seen) && end == ProcessRaised(members, None, None)
    case NoIntent(_) => events == Drivers.MemberEvents(seen) && end == ProcessUncaught
    case NoCritique(members, _, critique) =>
      && events == Drivers.MemberEvents(seen) + [Drivers.CritiqueEvent(critique)]
      && end == ProcessRaised(members, Some(critique), None)
    case Opened(members, ok, _, critique) =>
      events == Drivers.MemberEvents(seen) + [Drivers.CritiqueEvent(critique)] && ProcessEnds(c, end)
  }

  method RunStreamProcess(c: Setup) returns (events: seq<Drivers.ProcessEvent>, end: ProcessEnd)
    ensures exists seen :: Shows(c, seen, events, end)
  {
    hide MembersFailed, Survivors, Members, Shown, Critique, FinalRequest, UsageOf, Drivers.MemberEvents;
    var results, completed := RunMembers(c);
    var members, seen, memberEvents := Drivers.ConsumeRound0(results, completed);
    events := memberEvents;
    if MembersFailed(members, c.ctx.memberStrict) {
      assert Shows(c, seen, events, ProcessRaised(members, None, None));
      return events, ProcessRaised(members, None, None);
    }
    SurvivorExists(members, c.ctx.memberStrict);
    var ok := Survivors(members);
    var shown := Shown(c, ok);
    if shown.None? {
      assert Shows(c, seen, events, ProcessUncaught);
      return events, ProcessUncaught;
    }
    var critique := RunCritique(c, shown.value);
    events := events + [Drivers.CritiqueEvent(critique)];
    if !Ok(critique) {
      assert Shows(c, seen, events, ProcessRaised(members, Some(critique), None));
      return events, ProcessRaised(members, Some(critique), None);
    }
    end := FinishProcess(c, Opened(members, ok, shown.value, critique));
    assert Shows(c, seen, events, end);
  }

  /** How a process stream ends behind a successful critique. */
  ghost predicate ProcessEnds(c: Setup, end: ProcessEnd) {
    var o := Open(c);
    o.Opened? &&
    var request := LastRequest(c, o);
    var reply := FinalReply(c, request);
    var judge := JudgeOutcome(FinalPending(c, request), reply);
    if c.tools.None? then end == Plan(request)
    else if Breaks(c, reply) then end == ProcessUncaught
    else if reply.Answer? then end.Result? && DeliversAnswer(c, o, reply, end.delivered)
    else if c.ctx.judgeStrict then end == ProcessRaised(o.members, Some(o.critique), Some(judge))
    else end.Result? && o.ok != [] && FallsBack(c, o.ok, judge, end.delivered)
  }

  method FinishProcess(c: Setup, o: Opening) returns (end: ProcessEnd)
    requires o == Open(c) && o.Opened? && o.ok != []
    ensures ProcessEnds(c, end)
  {
    hide Open, FinalRequest, FallbackOf, DeliversAnswer;
    var request := LastRequest(c, o);
    if c.tools.None? {
      return Plan(request);
    }
    var r := RunToolFinalRound(c, o);
    match r
    case Broke => return ProcessUncaught;
    case JudgeRaised =>
      return ProcessRaised(o.members, Some(o.critique), Some(JudgeOutcome(FinalPending(c, request), FinalReply(c, request))));
    case Made(delivered) => return Result(delivered);
  }

  // ---- What holds of them --------------------------------------------------------------------

  /** The final call of a `run`, when it was made. */
  function FinalCallOf(end: Ending): Option<Outcome> {
    match end
    case Returned(_, _, _, calls, _, _) => if calls == [] then None else Some(calls[|calls| - 1])
    case Raised(_, _, judge) => judge
    case Uncaught => None
  }

  /** The final request of a process stream, made or planned. */
  function ProcessRequest(end: ProcessEnd): Option<Request> {
    match end
    case Plan(request) => Some(request)
    case Result(d) => Some(d.judge.payload)
    case ProcessRaised(_, _, Some(judge)) => Some(judge.payload)
    case ProcessRaised(_, _, None) => None
    case ProcessUncaught => None
  }

  /** The final call succeeded, and validating its calls raises. */
  predicate BreaksLate(c: Setup) {
    Open(c).Opened? && Breaks(c, FinalReply(c, LastRequest(c, Open(c))))
  }

  /** One call, three times, under any scheduling of the member tasks. */
  datatype Observed = Observed(end: Ending, plan: Plan, events: seq<Drivers.ProcessEvent>, processEnd: ProcessEnd)

  /** `o` is what the three drivers deliver: exactly what their contracts promise. */
  ghost predicate Delivers(c: Setup, o: Observed) {
    Ends(c, o.end) && Prepared(c, o.plan) && exists seen :: Shows(c, seen, o.events, o.processEnd)
  }

  /** Once the critique has succeeded, the three drivers have made the same member calls and the same
      critique, and they make or hand on the final request that follows from them - in tool mode, too, unless
      validating the calls of the final answer raises in the two that make it. The prepared stream starts
      from the tokens of exactly the calls before. */
  lemma {:induction false} DriversAgree(c: Setup, o: Observed)
    requires Open(c).Opened? && Delivers(c, o)
    ensures var pre, request := Open(c).members + [Open(c).critique], LastRequest(c, Open(c));
      && o.plan.Ready? && o.plan.pre == pre && o.plan.request == request
      && (if BreaksLate(c) then o.end == Uncaught && o.processEnd == ProcessUncaught
          else FinalCallOf(o.end).Some? && FinalCallOf(o.end).value.payload == request && ProcessRequest(o.processEnd) == Some(request))
      && (o.end.Returned? ==> o.end.calls != [] && o.end.calls[..|o.end.calls| - 1] == pre)
      && (o.end.Raised? ==> o.end.critique.Some? && o.end.members + [o.end.critique.value] == pre)
      && |o.events| == |pre| && multiset(Drivers.OutcomesOf(o.events)) == multiset(pre)
      && o.plan.base.prompt == SumOf(pre, Prompt) && o.plan.base.completion == SumOf(pre, Completion)
  {
    hide FinalRequest, SumOf, Members, Survivors, MembersFailed, Shown, Critique, DeliversAnswer, FallbackOf, SafeCalls, Unlistable;
    var seen :| Shows(c, seen, o.events, o.processEnd);
    var opening := Open(c);
    EventsShow(seen, opening.critique);
    assert |seen| == |multiset(seen)| == |opening.members|;
    TokensOfPre(opening.members, opening.critique);
    JudgePayload(c, o.processEnd);
    RunPayload(c, o.end);
    hide Open, Breaks;
  }

  /** The three drivers, one after the other: what they deliver is what `DriversAgree` speaks of. */
  method ObserveDrivers(c: Setup) returns (o: Observed)
    requires Open(c).Opened?
    ensures Delivers(c, o) && o.plan.Ready?
    ensures BreaksLate(c) ==> o.end == Uncaught && o.processEnd == ProcessUncaught
    ensures !BreaksLate(c) ==> FinalCallOf(o.end).Some? && FinalCallOf(o.end).value.payload == o.plan.request
    ensures !BreaksLate(c) ==> ProcessRequest(o.processEnd) == Some(o.plan.request)
  {
    hide Open, Ends, Prepared, Shows, BreaksLate;
    var end := Run(c);
    var plan := PrepareStream(c);
    var events, processEnd := RunStreamProcess(c);
    o := Observed(end, plan, events, processEnd);
    DriversAgree(c, o);
  }

  lemma {:induction false} EventsShow(seen: seq<Outcome>, critique: Outcome)
    ensures Drivers.OutcomesOf(Drivers.MemberEvents(seen) + [Drivers.CritiqueEvent(critique)]) == seen + [critique]
  {
  }

  lemma {:induction false} JudgePayload(c: Setup, end: ProcessEnd)
    requires ProcessEnds(c, end)
    ensures if BreaksLate(c) then end == ProcessUncaught else ProcessRequest(end) == Some(LastRequest(c, Open(c)))
  {
    hide Open, FinalRequest, FallbackOf, ValidCall, CallLists, Unlistable;
  }

  lemma {:induction false} RunPayload(c: Setup, end: Ending)
    requires Ends(c, end) && Open(c).Opened?
    ensures if BreaksLate(c) then end == Uncaught
            else FinalCallOf(end).Some? && FinalCallOf(end).value.payload == LastRequest(c, Open(c))
  {
    hide Open, FinalRequest, FallbackOf, ValidCall, CallLists, UsageOf, Unlistable;
  }

  lemma {:induction false} TokensOfPre(members: seq<Outcome>, last: Outcome)
    ensures PlusTokens(UsageOf(members), last.usage).prompt == SumOf(members + [last], Prompt)
    ensures PlusTokens(UsageOf(members), last.usage).completion == SumOf(members + [last], Completion)
  {
    SumOfConcat(members, [last], Prompt);
    SumOfConcat(members, [last], Completion);
    SumOfOne(last, Prompt);
    SumOfOne(last, Completion);
    hide SumOf;
  }

  // ---- What is logged is what was called -----------------------------------------------------

  /** The upstream calls in front of the final one. */
  function CallsBeforeFinal(c: Setup): seq<Outcome> {
    match Open(c)
    case NoMembers(members) => members
    case NoIntent(members) => members
    case NoCritique(members, _, critique) => members + [critique]
    case Opened(members, _, _, critique) => members + [critique]
  }

  /** The outcome of a final call that the strategy makes itself; only tool mode keeps its calls. */
  function FinalOutcome(c: Setup, request: Request): Outcome {
    match FinalReply(c, request)
    case Answer(content, usage, calls, _) =>
      FinalPending(c, request).(content := content, usage := usage, toolCalls := if c.tools.Some? then calls else [])
    case Error(_, message) => FinalPending(c, request).(status := Failed, error := message)
  }

  /** All upstream calls of a `run`, in order. */
  function MadeCalls(c: Setup): seq<Outcome> {
    CallsBeforeFinal(c) + (if Open(c).Opened? then [FinalOutcome(c, LastRequest(c, Open(c)))] else [])
  }

  /** The rows the gateway writes for a `run`: those of its result or of its error. An exception of another
      kind passes the gateway, and nothing is written. */
  function RecordedRows(end: Ending): seq<Outcome> {
    match end
    case Returned(_, _, _, calls, _, _) => calls
    case Raised(members, critique, judge) =>
      members + (if critique.Some? then [critique.value] else []) + (if judge.Some? then [judge.value] else [])
    case Uncaught => []
  }

  /** A council `run` logs every call once and in order, strict failures included - unless it ends in an
      exception that nothing catches, which loses them all. */
  lemma {:induction false} RecordedOnceIff(c: Setup, end: Ending)
    requires Ends(c, end)
    ensures RecordedRows(end) == MadeCalls(c) <==> end != Uncaught
  {
    hide Members, Shown, FinalRequest, CallLists, FallbackOf, ValidCall, UsageOf, Critique;
    match Open(c) {
      case NoMembers(members) =>
      case NoIntent(members) => assert members != [] by { SomeMember(c); }
      case NoCritique(_, _, _) =>
      case Opened(members, ok, _, critique) =>
        hide Open, Ends;
        OpenedRecords(c, Open(c), end);
    }
  }

  lemma {:induction false} SomeMember(c: Setup)
    requires Open(c).NoIntent?
    ensures Open(c).members != []
  {
    hide Shown, Members;
  }

  lemma {:induction false} OpenedRecords(c: Setup, o: Opening, end: Ending)
    requires o.Opened? && o.ok != [] && EndsOpened(c, o, end)
    ensures end.Returned? ==> end.calls == RecordedRows(end)
    ensures end != Uncaught ==> RecordedRows(end) == o.members + [o.critique] + [FinalOutcome(c, LastRequest(c, o))]
  {
    hide Open, FinalRequest, CallLists, FallbackOf, ValidCall, UsageOf, Unlistable;
  }

  /** The rows written in front of a prepared stream: those of its plan or of its error. */
  function PlanRows(plan: Plan): seq<Outcome> {
    match plan
    case Ready(pre, _, _) => pre
    case PlanRaised(members, critique) => members + (if critique.Some? then [critique.value] else [])
    case PlanUncaught => []
  }

  /** The three drivers fail alike. When a call fails before its final request, both streams raise the same
      error; the rows written in front of a prepared stream are the calls made, each once, exactly unless
      an intent cannot be written - then no row is written at all. */
  lemma {:induction false} FailuresAgree(c: Setup, o: Observed)
    requires Delivers(c, o)
    ensures o.plan.Ready? <==> Open(c).Opened?
    ensures o.plan.PlanUncaught? <==> Open(c).NoIntent?
    ensures o.plan.PlanRaised? ==>
      o.processEnd == ProcessRaised(o.plan.members, o.plan.critique, None) && PlanRows(o.plan) == MadeCalls(c)
    ensures PlanRows(o.plan) == CallsBeforeFinal(c) <==> !o.plan.PlanUncaught?
    ensures o.end.Uncaught? <==> o.processEnd.ProcessUncaught?
    ensures o.end.Uncaught? <==> o.plan.PlanUncaught? || BreaksLate(c)
  {
    hide Members, Survivors, MembersFailed, Shown, Critique, FinalRequest, UsageOf, FallbackOf, DeliversAnswer, Unlistable;
    if Open(c).NoIntent? {
      SomeMember(c);
    }
  }

  /** The events show exactly the calls in front of the final one, each as often as it was made. */
  lemma {:induction false} EventsShowCalls(c: Setup, seen: seq<Outcome>, events: seq<Drivers.ProcessEvent>, end: ProcessEnd)
    requires Shows(c, seen, events, end)
    ensures multiset(Drivers.OutcomesOf(events)) == multiset(CallsBeforeFinal(c))
  {
    hide Members, Survivors, MembersFailed, Shown, Critique, FinalRequest, ProcessEnds, Drivers.OutcomesOf, Drivers.MemberEvents;
    if Open(c).Opened? || Open(c).NoCritique? {
      EventsShow(seen, Open(c).critique);
    }
    MembersShow(seen);
  }

  lemma {:induction false} MembersShow(seen: seq<Outcome>)
    ensures Drivers.OutcomesOf(Drivers.MemberEvents(seen)) == seen
  {
  }

  /** The final text call failed, and the answer fell back. */
  predicate FinalFellBack(c: Setup) {
    Open(c).Opened? && c.tools.None? && FinalReply(c, LastRequest(c, Open(c))).Error?
  }

  /** What the usage of a returned result leaves out: the cached parts of the arbiter's calls, and all of
      the critique when the final text call fell back. */
  function Missing(c: Setup): Usage {
    var o := Open(c);
    if !o.Opened? then NO_USAGE
    else if FinalFellBack(c) then o.critique.usage
    else
      var final := FinalOutcome(c, LastRequest(c, o)).usage;
      Usage(0, 0, o.critique.usage.cached + final.cached, o.critique.usage.cacheWrite + final.cacheWrite)
  }

  /** In all four columns, the usage of a returned result and what is missing are the sums over its calls. */
  lemma {:induction false} ReturnedTokens(c: Setup, end: Ending)
    requires Ends(c, end) && end.Returned?
    ensures UsageOf(end.calls) == end.usage.Plus(Missing(c))
  {
    hide FinalRequest, SumOf, Members, Survivors, MembersFailed, Shown, SafeCalls, UsageOf;
    match Open(c) {
      case NoCritique(members, _, critique) =>
        CritiqueTokens(c, critique);
        UsageOfConcat(members, [critique]);
        UsageOfOne(critique);
      case Opened(members, ok, _, critique) =>
        hide Critique, Ends;
        OpenedTokens(c, Open(c), end);
      case _ =>
    }
  }

  lemma {:induction false} OpenedTokens(c: Setup, o: Opening, end: Ending)
    requires o == Open(c) && o.Opened? && o.ok != [] && EndsOpened(c, o, end) && end.Returned?
    ensures UsageOf(end.calls) == end.usage.Plus(Missing(c))
  {
    hide *;
    OpenedRecords(c, o, end);
    OpenedUsage(c, o, end);
    FinalUsage(c, LastRequest(c, o));
    MissingIs(c, o);
    var final := FinalOutcome(c, LastRequest(c, o));
    ThreeParts(o.members, o.critique, final);
    LeftOut(UsageOf(o.members), o.critique.usage, final.usage);
  }

  lemma {:induction false} MissingIs(c: Setup, o: Opening)
    requires o == Open(c) && o.Opened?
    ensures var final := FinalOutcome(c, LastRequest(c, o)).usage;
      Missing(c) == if FinalReply(c, LastRequest(c, o)).Error? && c.tools.None? then o.critique.usage
                    else Usage(0, 0, o.critique.usage.cached + final.cached, o.critique.usage.cacheWrite + final.cacheWrite)
  {
    hide Open, LastRequest, FinalReply, FinalOutcome;
  }

  lemma {:induction false} LeftOut(members: Usage, critique: Usage, final: Usage)
    ensures members.Plus(critique).Plus(final) == PlusTokens(PlusTokens(members, critique), final)
      .Plus(Usage(0, 0, critique.cached + final.cached, critique.cacheWrite + final.cacheWrite))
    ensures final == NO_USAGE ==> members.Plus(critique).Plus(final) == members.Plus(critique)
  {
  }

  lemma {:induction false} OpenedUsage(c: Setup, o: Opening, end: Ending)
    requires o.Opened? && o.ok != [] && EndsOpened(c, o, end) && end.Returned?
    ensures var reply := FinalReply(c, LastRequest(c, o));
      end.usage == if reply.Error? && c.tools.None? then UsageOf(o.members)
                   else PlusTokens(PlusTokens(UsageOf(o.members), o.critique.usage),
                                   JudgeOutcome(FinalPending(c, LastRequest(c, o)), reply).usage)
  {
    hide Open, LastRequest, UsageOf, DeliversAnswer, FallsBack, Unlistable, FinalPending, FinalReply, JudgeOutcome;
  }

  lemma {:induction false} FinalUsage(c: Setup, request: Request)
    ensures FinalOutcome(c, request).usage == JudgeOutcome(FinalPending(c, request), FinalReply(c, request)).usage
    ensures FinalReply(c, request).Error? ==> FinalOutcome(c, request).usage == NO_USAGE
  {
  }

  lemma {:induction false} ThreeParts(members: seq<Outcome>, critique: Outcome, final: Outcome)
    ensures UsageOf(members + [critique] + [final]) == UsageOf(members).Plus(critique.usage).Plus(final.usage)
  {
    hide UsageOf;
    UsageOfConcat(members + [critique], [final]);
    UsageOfConcat(members, [critique]);
    UsageOfOne(critique);
    UsageOfOne(final);
  }

  lemma {:induction false} CritiqueTokens(c: Setup, critique: Outcome)
    requires Open(c).NoCritique? && Open(c).critique == critique
    ensures critique.usage == NO_USAGE
  {
    hide CritiqueRequest, Members, Survivors, MembersFailed, Shown;
  }

  /** The totals that the request log takes over match the logged calls exactly when the final text call
      did not fall back, or the critique it leaves out cost nothing. */
  lemma {:induction false} TokensBalanceIff(c: Setup, end: Ending)
    requires Ends(c, end) && end.Returned?
    ensures end.usage.prompt == SumOf(end.calls, Prompt) && end.usage.completion == SumOf(end.calls, Completion)
       <==> !FinalFellBack(c) || (Open(c).critique.usage.prompt == 0 && Open(c).critique.usage.completion == 0)
  {
    hide Ends, SumOf, Open;
    ReturnedTokens(c, end);
  }

  /** The usage as a whole matches the calls exactly when, besides, neither call of the arbiter reports
      cached or cache-write tokens. */
  lemma {:induction false} UsageBalancesIff(c: Setup, end: Ending)
    requires Ends(c, end) && end.Returned?
    ensures var o := Open(c);
      end.usage == UsageOf(end.calls) <==>
        o.Opened? ==>
          && o.critique.usage.cached == 0 && o.critique.usage.cacheWrite == 0
          && (if FinalFellBack(c) then o.critique.usage.prompt == 0 && o.critique.usage.completion == 0
              else var final := FinalOutcome(c, LastRequest(c, o)).usage; final.cached == 0 && final.cacheWrite == 0)
  {
    hide Ends, SumOf, Open, FinalOutcome;
    ReturnedTokens(c, end);
  }

  /** Calls that reach the client name offered functions with object arguments, unless the result is
      marked as degraded - then they are a surviving member's, unchecked. This covers the fallback behind a
      failed critique, too. */
  lemma {:induction false} DeliveredCallsAreSafe(c: Setup, end: Ending)
    requires Ends(c, end) && end.Returned? && end.toolCalls.Some?
    ensures c.tools.Some? && (Open(c).Opened? || Open(c).NoCritique?)
    ensures SafeCalls(c, Open(c).ok, end.degraded, end.toolCalls.value)
  {
    hide FinalRequest, Open, Picked, ValidCall;
  }

  /** The same for the result of a process stream. */
  lemma {:induction false} ProcessCallsAreSafe(c: Setup, seen: seq<Outcome>, events: seq<Drivers.ProcessEvent>, end: ProcessEnd)
    requires Shows(c, seen, events, end) && end.Result? && end.delivered.calls.Some?
    ensures c.tools.Some? && Open(c).Opened?
    ensures SafeCalls(c, Open(c).ok, end.delivered.degraded, end.delivered.calls.value)
  {
    hide FinalRequest, Open, Picked, ValidCall;
  }

  /** Some surviving member made a call without a name or without arguments - a call of a function that
      takes none may well have no arguments. */
  ghost predicate IncompleteCall(c: Setup) {
    exists o :: o in Members(c) && Ok(o) && !AllComplete(o.toolCalls)
  }

  /** Tool mode breaks down exactly when a surviving member made an incomplete call, or when the arbiter
      answers with calls although a tool of the request has a function without a name. */
  lemma {:induction false} UncaughtIff(c: Setup, end: Ending)
    requires Ends(c, end) && !MembersFailed(Members(c), c.ctx.memberStrict)
    ensures end == Uncaught <==> c.tools.Some? && (IncompleteCall(c) || BreaksLate(c))
  {
    IntentFailsIff(c);
    hide Members, MembersFailed, Critique, FinalRequest, SafeCalls, Survivors, Shown, Unlistable, DeliversAnswer, FallsBack, IncompleteCall;
  }

  lemma {:induction false} IntentFailsIff(c: Setup)
    requires !MembersFailed(Members(c), c.ctx.memberStrict)
    ensures Open(c).NoIntent? <==> c.tools.Some? && IncompleteCall(c)
    ensures !Open(c).NoMembers?
  {
    var members := Members(c);
    var ok := Survivors(members);
    SurvivorsAre(members);
    hide Members, MembersFailed, Critique, Survivors;
    if IncompleteCall(c) {
      var o :| o in members && Ok(o) && !AllComplete(o.toolCalls);
      assert o in ok;
      var i :| 0 <= i < |ok| && ok[i] == o;
      assert o.toolCalls != [];
      assert Intent(ok[i]).None?;
    } else {
      forall i | 0 <= i < |ok| ensures Intent(ok[i]).Some? {
        assert ok[i] in ok;
      }
    }
  }
}
