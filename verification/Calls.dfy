/** The vocabulary of the strategy engine: requests, replies, call outcomes, and how a call is made. */
module Calls {
  import opened Prelude
  import opened JsonText
  import Template

  datatype Tokens = Prompt | Completion | Cached | CacheWrite

  datatype Usage = Usage(prompt: nat, completion: nat, cached: nat, cacheWrite: nat) {
    function Get(kind: Tokens): nat {
      match kind
      case Prompt => prompt
      case Completion => completion
      case Cached => cached
      case CacheWrite => cacheWrite
    }

    function Plus(other: Usage): Usage {
      Usage(prompt + other.prompt, completion + other.completion, cached + other.cached, cacheWrite + other.cacheWrite)
    }
  }

  const NO_USAGE := Usage(0, 0, 0, 0)

  datatype Message = Message(role: string, content: string)

  type Params = map<string, Json>

  datatype Request = Request(model: string, messages: seq<Message>, sampling: Params, tools: seq<Json>, toolChoice: Option<Json>)

  datatype ToolCall = ToolCall(id: string, kind: string, name: Option<string>, arguments: Option<string>)

  datatype Role = Member | JudgeCritique | Judge

  datatype Status = Success | Failed | TimedOut | ClientCancelled

  /** One upstream call with everything the log keeps of it. */
  datatype Outcome = Outcome(
    role: Role, modelId: int, upstreamModelId: string, providerName: string, payload: Request,
    content: string, toolCalls: seq<ToolCall>, status: Status, error: string, usage: Usage, round: Option<nat>)

  /** How an adapter call ends: with an answer or with an `AdapterError`. */
  datatype Reply =
    | Answer(content: string, usage: Usage, toolCalls: seq<ToolCall>, finish: string)
    | Error(timeout: bool, message: string)

  /** Which call of a run this is. */
  datatype Slot = MemberCall(round: nat, index: nat) | CritiqueCall(round: nat) | FinalCall

  /** The upstreams of one run: any reply to any request, which may also depend on when it is asked. */
  type Upstream = (Slot, string, Request) -> Reply

  datatype MemberSpec = MemberSpec(modelId: int, upstreamModelId: string, providerName: string, defaults: Params, overrides: Params)

  /** One strategy call: request body, pipeline configuration and the resolved rows. */
  datatype Context = Context(
    messages: seq<Message>, userParams: Params,
    members: seq<MemberSpec>,
    judgeModelId: int, judgeUpstreamId: string, judgeProvider: string, judgeDefaults: Params,
    judgeTemplate: string, prompts: Prompts,
    memberStrict: bool, judgeStrict: bool, maxConcurrency: int)

  /** The built-in template texts. */
  datatype Prompts = Prompts(critique: string, roundCritique: string, refine: string, defaultJudge: string)

  // ---- Requests ----------------------------------------------------------------------------

  /** Later layers win. */
  function MergeParams(low: Params, high: Params): Params {
    low + high
  }

  /** The sampling parameters that are sent: the three known ones, when they are not null. */
  function Sampling(merged: Params): Params {
    map key | key in {"temperature", "max_tokens", "top_p"} && key in merged && merged[key] != Null :: merged[key]
  }

  function BuildRequest(model: string, messages: seq<Message>, merged: Params): Request {
    Request(model, messages, Sampling(merged), [], None)
  }

  function SerializeMessages(messages: seq<Message>): string {
    Join("\n", seq(|messages|, i requires 0 <= i < |messages| => "[" + messages[i].role + "] " + messages[i].content))
  }

  /** Answers are numbered and anonymous: the model names do not go into the prompt. */
  function CandidateAnswers(answers: seq<(string, string)>): string {
    Join("\n\n", seq(|answers|, i requires 0 <= i < |answers| => "【回答 " + Decimal(i + 1) + "】\n" + answers[i].1))
  }

  function RenderJudgePrompt(template: string, messages: seq<Message>, answers: seq<(string, string)>, critique: string): string {
    Template.PlaceholdersShape();
    Template.Render(Template.PLACEHOLDERS, template, [SerializeMessages(messages), CandidateAnswers(answers), critique])
  }

  // ---- Members -----------------------------------------------------------------------------

  function MemberOutcome(base: Outcome, reply: Reply): Outcome {
    match reply
    case Answer(content, usage, toolCalls, _) =>
      base.(status := Success, content := content, usage := usage, toolCalls := toolCalls)
    case Error(timeout, message) => base.(status := if timeout then TimedOut else Failed, error := message)
  }

  function JudgeOutcome(base: Outcome, reply: Reply): Outcome {
    match reply
    case Answer(content, usage, toolCalls, _) => base.(status := Success, content := content, usage := usage)
    case Error(_, message) => base.(status := Failed, error := message)
  }

  function Pending(role: Role, modelId: int, upstreamId: string, provider: string, payload: Request,
        round: Option<nat>): Outcome {
    Outcome(role, modelId, upstreamId, provider, payload, "", [], Success, "", NO_USAGE, round)
  }

  predicate Ok(o: Outcome) { o.status == Success }

  /** `[o for o in outcomes if o.status == "success"]` */
  function Survivors(outcomes: seq<Outcome>): (r: seq<Outcome>)
    ensures |r| <= |outcomes|
  {
    if outcomes == [] then []
    else (if Ok(outcomes[0]) then [outcomes[0]] else []) + Survivors(outcomes[1..])
  }

  lemma {:induction false} SurvivorsAre(outcomes: seq<Outcome>)
    ensures forall o :: o in Survivors(outcomes) <==> o in outcomes && Ok(o)
  {
    if outcomes != [] {
      SurvivorsAre(outcomes[1..]);
      assert outcomes == [outcomes[0]] + outcomes[1..];
    }
  }

  /** `check_member_failures`: does this list of member outcomes end the run? */
  predicate MembersFailed(outcomes: seq<Outcome>, strict: bool) {
    (strict && exists o :: o in outcomes && !Ok(o)) || (forall o :: o in outcomes ==> !Ok(o))
  }

  // ---- Token totals ------------------------------------------------------------------------

  function Sum(numbers: seq<nat>): nat {
    if numbers == [] then 0 else numbers[0] + Sum(numbers[1..])
  }

  lemma {:induction false} SumConcat(a: seq<nat>, b: seq<nat>)
    ensures Sum(a + b) == Sum(a) + Sum(b)
  {
    if a == [] {
      assert a + b == b;
    } else {
      assert a + b == [a[0]] + (a[1..] + b);
      SumConcat(a[1..], b);
    }
  }

  /** One column of the call table. */
  function Column(outcomes: seq<Outcome>, kind: Tokens): seq<nat> {
    seq(|outcomes|, i requires 0 <= i < |outcomes| => outcomes[i].usage.Get(kind))
  }

  function SumOf(outcomes: seq<Outcome>, kind: Tokens): nat {
    Sum(Column(outcomes, kind))
  }

  lemma {:induction false} SumOfConcat(a: seq<Outcome>, b: seq<Outcome>, kind: Tokens)
    ensures SumOf(a + b, kind) == SumOf(a, kind) + SumOf(b, kind)
  {
    assert Column(a + b, kind) == Column(a, kind) + Column(b, kind);
    SumConcat(Column(a, kind), Column(b, kind));
  }

  lemma {:induction false} SumOfOne(o: Outcome, kind: Tokens)
    ensures SumOf([o], kind) == o.usage.Get(kind)
  {
    var n := o.usage.Get(kind);
    assert Column([o], kind) == [n];
    assert Sum([n]) == n + Sum([]);
  }

  lemma {:induction false} SumOfRemove(a: seq<Outcome>, k: nat, kind: Tokens)
    requires k < |a|
    ensures SumOf(a, kind) == a[k].usage.Get(kind) + SumOf(Without(a, k), kind)
  {
    hide SumOf;
    assert a == a[..k] + ([a[k]] + a[k + 1..]);
    SumOfConcat(a[..k], [a[k]] + a[k + 1..], kind);
    SumOfConcat([a[k]], a[k + 1..], kind);
    SumOfConcat(a[..k], a[k + 1..], kind);
    SumOfOne(a[k], kind);
  }

  /** The sum does not depend on the order of the calls. */
  lemma {:induction false} SumOfPermutation(a: seq<Outcome>, b: seq<Outcome>, kind: Tokens)
    requires multiset(a) == multiset(b)
    ensures SumOf(a, kind) == SumOf(b, kind)
    decreases |a|
  {
    if a == [] {
      assert |b| == |multiset(b)| == 0;
    } else {
      hide SumOf;
      assert a[0] in multiset(b);
      var k :| 0 <= k < |b| && b[k] == a[0];
      WithoutMultiset(a, 0);
      WithoutMultiset(b, k);
      SumOfPermutation(Without(a, 0), Without(b, k), kind);
      SumOfRemove(a, 0, kind);
      SumOfRemove(b, k, kind);
    }
  }

  function UsageOf(outcomes: seq<Outcome>): Usage {
    Usage(SumOf(outcomes, Prompt), SumOf(outcomes, Completion),
          SumOf(outcomes, Cached), SumOf(outcomes, CacheWrite))
  }

  lemma {:induction false} UsageOfNone()
    ensures forall kind :: SumOf([], kind) == 0
  {
    assert forall kind :: Column([], kind) == [];
  }

  lemma {:induction false} UsageOfConcat(a: seq<Outcome>, b: seq<Outcome>)
    ensures UsageOf(a + b) == UsageOf(a).Plus(UsageOf(b))
  {
    hide SumOf;
    SumOfConcat(a, b, Prompt);
    SumOfConcat(a, b, Completion);
    SumOfConcat(a, b, Cached);
    SumOfConcat(a, b, CacheWrite);
  }

  lemma {:induction false} UsageOfOne(o: Outcome)
    ensures UsageOf([o]) == o.usage
  {
    SumOfOne(o, Prompt);
    SumOfOne(o, Completion);
    SumOfOne(o, Cached);
    SumOfOne(o, CacheWrite);
  }

  lemma {:induction false} UsageOfPermutation(a: seq<Outcome>, b: seq<Outcome>)
    requires multiset(a) == multiset(b)
    ensures UsageOf(a) == UsageOf(b)
  {
    SumOfPermutation(a, b, Prompt);
    SumOfPermutation(a, b, Completion);
    SumOfPermutation(a, b, Cached);
    SumOfPermutation(a, b, CacheWrite);
  }

  /** `sum_usage` */
  method SumUsage(outcomes: seq<Outcome>) returns (usage: Usage)
    ensures usage == UsageOf(outcomes)
  {
    usage := NO_USAGE;
    for i := 0 to |outcomes|
      invariant usage == UsageOf(outcomes[..i])
    {
      assert outcomes[..i] + [outcomes[i]] == outcomes[..i + 1];
      UsageOfConcat(outcomes[..i], [outcomes[i]]);
      UsageOfOne(outcomes[i]);
      usage := usage.Plus(outcomes[i].usage);
    }
    assert outcomes[..|outcomes|] == outcomes;
  }
}
