# Verified model of a model-aggregation gateway

The gateway answers one chat request with several language models: members answer concurrently, an
arbiter criticises and decides, optionally over several rounds, and the answer is returned or streamed.
This project models its engine, its streaming protocol, its text codecs and its configuration store in
Dafny 4.11 and proves what they promise. `dafny verify dfyconfig.toml` checks everything.

Upstreams are functions from a call's place in the run and its request to any reply or failure, so every
statement holds for all replies, all failures and - where calls are concurrent - all completion orders.

| file | what it holds |
|---|---|
| `Prelude.dfy` | optional values, joined text, decimal numerals, sequences |
| `Template.dfy` | single-pass template rendering against tokenise-and-substitute |
| `JsonText.dfy` | the balanced-brace scanner against a JSON printer |
| `Executor.dfy` | member calls under one semaphore and an arbitrary scheduler |
| `Calls.dfy`, `CallRecords.dfy`, `PromptText.dfy` | requests, outcomes, token totals; what a request asks and a row keeps, field by field; what a rendered prompt says |
| `Ice.dfy`, `IceDrivers.dfy` | the iterated protocol as a specification, and its three drivers |
| `IceEnd.dfy`, `IceRequests.dfy` | when a run ends, and what each of its calls asks, in terms of the replies |
| `IceTheorems.dfy`, `IceAgreement.dfy` | structure of every run; agreement of the drivers; logging |
| `Rejudge.dfy`, `RejudgeRequests.dfy` | the answers rebuilt from the log, and the requests made of them, against the live ones |
| `Council.dfy` | the two-call strategy, with and without tools |
| `CouncilRequests.dfy`, `CouncilTools.dfy` | what each of its calls asks; its fallback and the offered functions |
| `ToolDeltas.dfy`, `Adapter.dfy` | merging of tool-call fragments; timeouts and retries |
| `StreamProtocol.dfy`, `GatewayPaths.dfy` | pump, queue, ferry, heartbeat, disconnect, persist; the streamed paths |
| `GatewayFinal.dfy`, `GatewayDisplay.dfy` | the row of a forwarded final call; what a process stream shows |
| `GatewayRuns.dfy` | whole streamed requests: what is persisted against the calls that were made |
| `InFlight.dfy`, `GatewayCalls.dfy` | the protocol with the calls of each round in flight: what came back, what was taken, what is lost |
| `SseReader.dfy`, `JsonDumps.dfy`, `Csv.dfy` | the web client's event reader, the server's JSON style, the CSV export |
| `Slug.dfy`, `Lockout.dfy` | provider slugs; the login-failure window |
| `Store.dfy`, `StoreQueries.dfy`, `ModelSync.dfy`, `AdminRuns.dfy` | the configuration store, model synchronisation, runs of requests |
| `Shortfalls.dfy` | concrete inputs at which a claim fails |

## Where the code falls short of a claim

For each of these claims the first member named proves for exactly which inputs the code meets it, and the
last one is a concrete input for which it does not.

- Every call of an ICE `run` is logged once: not when a judge call fails while `judge_failure` is strict - a
  failed critique is then logged twice, a failed final call drops the critiques
  (`IceAgreement.RecordedOnceIff`; `Shortfalls.StrictCritiqueLoggedTwice`).
- Every call that comes back behind a stream is logged once, also when the client leaves: not when, in the
  round in flight, a call is back that the pump has not taken (`InFlight.Accounts`, for the strategies
  `GatewayCalls.IceRoundsCalls`, `GatewayCalls.IceProcessCalls` and `GatewayCalls.CouncilProcessCalls`;
  `GatewayCalls.IceRoundLost`, `GatewayCalls.IceUnshownLost`, `Shortfalls.RefinementLost`).
- Every call of a council process stream is logged once: not the final call, when it fails in strict tool mode
  or the validation of its calls raises (`GatewayRuns.CouncilProcessStream`; `Shortfalls.StrictToolCallLost`).
- The answers rebuilt for a rejudge are the live ones: not when surviving members share a model id
  (`Rejudge.ReplayAgreesIff`; `Shortfalls.SameModelTwice`). After a process stream they come in the same
  order: not when the survivors completed in another order (`Rejudge.ProcessReplayIff`; `Shortfalls.OppositeOrder`).
- With stagnation on, continued confidences increase strictly: not when one is NaN, which the JSON decoder
  accepts (`IceTheorems.ConfidencesIncreaseIff`; `Shortfalls.NaNHidesStagnation`).
- The council's totals are the sums over its calls: not when only the final text call fails
  (`Council.TokensBalanceIff`; `Shortfalls.CritiqueTokenMissing`). Its usage is, in all four columns: not, besides,
  when a call of the arbiter reports cached tokens (`Council.UsageBalancesIff`; `Shortfalls.CachedTokensMissing`).
- Tool aggregation ends in a result or in a strategy error: not when a surviving member's call has no arguments
  or no name, and not when the arbiter calls although a tool has no name (`Council.UncaughtIff`;
  `Shortfalls.CallWithoutArguments`, `Shortfalls.ToolWithoutName`). A `run` then logs none of its calls
  (`Council.RecordedOnceIff`).
- A process stream that is read to its end is not recorded as cancelled by the client: it is, when its strategy
  ended in an uncaught exception (`GatewayRuns.CancelledIffUncaught`; `Shortfalls.CancelledThoughRead`).
- `complete` returns the tool calls of the attempt that succeeded: not when the fragments of a failed one leave a
  trace (`Adapter.CompletedReplayIff`; `Adapter.ReplayedArguments`).
- `merge_tool_call_deltas` takes the first id and name, as its documentation says: not when the last non-empty
  one differs (`ToolDeltas.FirstTakenIff`; `Shortfalls.SecondIdKept`).
- The recorded content of a tool aggregation is the content sent: not when the result has calls and a text
  (`GatewayPaths.ResultSent`; `Shortfalls.TextNotSent`).
- An exported CSV file reads back: not without columns (`Csv.CsvRoundTripIff`; `Shortfalls.NoColumnsReadBack`).
- A synchronised provider has one row for each upstream id: not when a new id is offered twice
  (`ModelSync.OneRowPerIdIff`; `Shortfalls.OfferedTwice`).

## Model

| member | source | states |
|---|---|---|
| `Template.RenderTemplate` | backend/app/strategies/council.py:158-165 | the `parts`/`last` loop computes the token-wise substitution of the template |
| `Template.ValueInsertedVerbatim` | backend/app/strategies/council.py:147-165 | wherever a placeholder stands, its value is inserted as it is, placeholder text inside it included; what stands before and behind is rendered on its own |
| `Template.RenderConcat` | backend/app/strategies/council.py:158-165 | rendering distributes over every split that is not inside a placeholder |
| `Template.NoPlaceholderUnchanged` | backend/app/strategies/council.py:158-165 | a template without placeholders is returned unchanged |
| `JsonText.ExtractJsonObject` | backend/app/strategies/ice.py:119-145 | the one-pass scanner with its three flags computes the segment specification |
| `JsonText.ExtractedIsShortest` | backend/app/strategies/ice.py:119-145 | a segment from the first brace is returned exactly when its out-of-string depth is 0 at its end and nowhere earlier |
| `JsonText.ExtractedNoneIff` | backend/app/strategies/ice.py:119-145 | nothing is returned exactly when no segment from the first brace closes |
| `JsonText.ExtractInvertsPrint` | backend/app/strategies/ice.py:119-145 | for every JSON object, printed with any white space around its structural characters and any escapes that sections 2 to 7 of RFC 8259 allow - chosen anew at every place, so indented documents and mixed escapes are covered -, any brace-free prefix and any suffix, the scanner returns exactly the printed object |
| `JsonText.PrintOneLine` | backend/app/admin/traces.py:152-153 | the text of a value never holds a line break when the separators do not: line breaks inside strings are escaped |
| `Executor.EverySchedule` | backend/app/strategies/council.py:344-364 | under every schedule, cancellations included, permits plus running calls are constant, at most the capacity is in flight, and the schedule is over after at most two steps a task |
| `Executor.SomeStepEnabled` | backend/app/strategies/council.py:356-362 | no deadlock: while a task is unfinished one can start or finish |
| `Executor.FinishedPool` | backend/app/strategies/council.py:356-362 | when all is done, the results in configuration order are those of the calls, and the completion order is a permutation |
| `Executor.CompletionOrder` | backend/app/strategies/council.py:337-362 | the completion order is the order in which the calls return in the schedule |
| `Executor.Capacity` | backend/app/strategies/council.py:356 | the limit is the configured one when positive, 10 when it is 0 or missing, and 1 when it is negative |
| `Executor.RunTasks` | backend/app/strategies/council.py:356-362 | any scheduler choice yields the results in configuration order together with a completion order that is a permutation |
| `Executor.PickIsRearrangement` | backend/app/strategies/council.py:753-757 | results consumed in completion order are a rearrangement of the results in configuration order |
| `Calls.SumUsage` | backend/app/strategies/council.py:253-260 | the accumulating loop gives, in each of the four columns, the sum over the calls |
| `Calls.UsageOfConcat` | backend/app/strategies/council.py:253-260 | totals of consecutive groups of calls add up |
| `Calls.UsageOfPermutation` | backend/app/strategies/council.py:253-260 | totals do not depend on the order of the calls |
| `Calls.SurvivorsAre` | backend/app/strategies/council.py:619 | the survivors are exactly the successful outcomes |
| `PromptText.CritiqueStands` | backend/app/strategies/council.py:147-165 | a template is rendered with the critique verbatim where `{{critique}}` stands; with no other placeholder around it, the prompt is exactly the text before, the critique, the text behind |
| `PromptText.AnswersStand` | backend/app/strategies/council.py:149-157 | the same for `{{candidate_answers}}`: answer i stands behind its heading with number i, in order, a blank line between two |
| `PromptText.MessagesStand` | backend/app/strategies/council.py:135-137 | the same for `{{original_messages}}`: one line for each message, role in brackets and content, in order |
| `PromptText.DecimalReadsBack` | backend/app/strategies/council.py:152-154 | the number in a heading reads back as the number, in digits without a leading zero |
| `CallRecords.SurvivorsConcat` | backend/app/strategies/council.py:619 | survivors keep the order of the calls, each as often as it was made |
| `CallRecords.MembersFailedIff` | backend/app/strategies/council.py:327-334 | member calls end the run exactly when all failed, or one of them in strict mode |
| `Ice.RoundKeepsKnown` | backend/app/strategies/ice.py:463-471 | a round keeps the number of members, their model ids and their order, whatever fails |
| `Ice.SpecOf` | backend/app/strategies/ice.py:385 | looking a member up by model id finds one with that id, or there is none |
| `IceDrivers.RunMembers` | backend/app/strategies/council.py:344-364 | concurrent members: results in configuration order for every completion order |
| `IceDrivers.RunRefineRound` | backend/app/strategies/ice.py:370-404 | a concurrent refinement round equals the round of the specification, one outcome for each survivor in the same order; what each of its calls asks and keeps, IceRequests.RefinementAsks says |
| `IceDrivers.JudgeSession.Critique` | backend/app/strategies/ice.py:231-272 | the session list grows by the question and the answer exactly when the critique succeeds and is untouched otherwise |
| `IceDrivers.RunFinal` | backend/app/strategies/ice.py:295-323 | the final call is made with the request that is a function of session, answers and last critique text |
| `IceDrivers.IterateKeeps` | backend/app/strategies/ice.py:461-487 | the iteration never loses, gains or swaps a member, and a failed critique is always the last one |
| `IceDrivers.RunRounds` | backend/app/strategies/ice.py:457-487 | the loop of `run` leaves session, answers, critique text, failure flag and call list as the iteration of the specification does; when that ends IceEnd.EndsIff says, and what its calls ask IceRequests |
| `IceDrivers.RunIce` | backend/app/strategies/ice.py:408-510 | `run` as a whole: every return and every raise, with content, usage, flags and calls; its end condition is that of IceEnd.EndsIff |
| `IceDrivers.PrepareStream` | backend/app/strategies/ice.py:572-642 | a prepared stream fails, is ready with the final request, or carries the state from which the rounds go on, with usage of exactly the calls made |
| `IceDrivers.IterateStream` | backend/app/strategies/ice.py:514-570 | the generator yields exactly the rounds of the specification and ends with the same request or the same error |
| `IceDrivers.ConsumeRefined` | backend/app/strategies/ice.py:727-745 | consuming a round in completion order leaves the answers of the configuration-order computation |
| `IceDrivers.ConsumeRound0` | backend/app/strategies/ice.py:673-684 | writing outcomes to their places in completion order gives the configuration-order list; the events show each once |
| `IceDrivers.ProcessRounds` | backend/app/strategies/ice.py:703-781 | the process stream goes through the same rounds, its events a rearrangement inside each round |
| `IceDrivers.RunStreamProcess` | backend/app/strategies/ice.py:646-785 | the whole process stream: events and end in every case |
| `IceTheorems.RoundsAre` | backend/app/strategies/ice.py:461-487 | round k of a run is the next round of the state before it; only the last critique can have failed |
| `IceTheorems.SessionAt` | backend/app/strategies/ice.py:242-272 | the session holds two turns for each successful critique, alternates user and assistant, and every earlier session is a prefix of it |
| `IceTheorems.MemberIdentity` | backend/app/strategies/ice.py:468-471 | number and model ids of the answers never change during a run |
| `IceTheorems.RunStructure` | backend/app/strategies/ice.py:408-490 | rounds are at most max_rounds, and the calls before the final one number M + (R-1) times the survivors + R |
| `IceTheorems.ContinuedMeansRising` | backend/app/strategies/ice.py:206-218 | with stagnation on, no parsed confidence at a continued round is at most the one before it |
| `IceTheorems.ConfidencesIncreaseIff` | backend/app/strategies/ice.py:206-218 | with stagnation on, two or more parsed confidences of a continued round are strictly increasing exactly when none of them is NaN |
| `IceTheorems.UnparsedNeverStagnates` | backend/app/strategies/ice.py:456-487 | a run that ends behind an unparsed critique has used up its rounds; stagnation never ends it |
| `IceTheorems.FinishedAtEnd` | backend/app/strategies/ice.py:461-487 | rounds that end without a failed critique end in a finished state; which states these are, IceEnd.EndsIff says |
| `IceTheorems.VerdictIsRead` | backend/app/strategies/ice.py:148-171 | an arbiter that prints its object in any style, with chatter around it, has exactly its fields read as the verdict; a consensus that is no flag counts as false, a confidence that is no number as 0, a critique that is no text as the whole answer |
| `PromptText.PromptIsAnonymous` | backend/app/strategies/council.py:147-157 | the arbiter's prompt does not depend on the names of the answering models |
| `IceTheorems.UnreadableVerdict` | backend/app/strategies/ice.py:148-159 | an answer without a closed object, or with one that is no dictionary, counts as an unparsed critique without consensus |
| `IceTheorems.OneConversation` | backend/app/strategies/ice.py:242-293 | each request to the arbiter begins with the whole session so far, the final one included |
| `IceTheorems.AnswersAreLatest` | backend/app/strategies/ice.py:468-471 | each answer that reaches the final call is that member's answer of the latest round in which it succeeded |
| `IceEnd.EndsIff` | backend/app/strategies/ice.py:206-218 | behind each successful critique the next round follows exactly unless the arbiter sees a consensus with a confidence not below the threshold, or the rounds are used up, or - stagnation on - the last of two or more parsed confidences is not above the one before |
| `IceEnd.EarlyEndIsConsensus` | backend/app/strategies/ice.py:206-218 | a run that ends before its last round, where stagnation cannot end it, has a consensus and a confidence of at least the threshold |
| `IceEnd.StartHeard` | backend/app/strategies/ice.py:448-456 | the first round begins with text, verdict and confidence of the critique of round 0 |
| `IceEnd.HeardAt` | backend/app/strategies/ice.py:481-487 | every round begins with the text and the verdict of the last successful critique and with all parsed confidences in order |
| `IceRequests.FirstCalls` | backend/app/strategies/council.py:281-324 | in round 0 every member is asked the conversation as it is, with its own sampling parameters (later layers win, null withdraws); its row keeps the reply, and a failure keeps no content, calls or usage |
| `IceRequests.OpeningFailsIff` | backend/app/strategies/council.py:327-334 | round 0 is lost exactly when all replies are errors, or one of them in strict mode |
| `IceRequests.FirstCritique` | backend/app/strategies/ice.py:231-272 | the first critique is asked in a session of its own about the survivors of round 0; the iteration opens exactly when it is answered, with these two turns as the session |
| `IceRequests.SpecIsLast` | backend/app/strategies/ice.py:385 | of members with one id the last configured one is asked |
| `IceRequests.RefinementAsks` | backend/app/strategies/ice.py:327-368 | in each refinement every survivor's own model and provider is asked the conversation, then its latest successful answer as assistant, then the refine template with the critique of the verdict as user; its row keeps the reply to that, without tool calls |
| `IceRequests.LaterCritique` | backend/app/strategies/ice.py:231-272 | each later critique is asked behind the whole session, in the shorter template, about the latest answers; its row keeps the reply |
| `IceRequests.FinalAsks` | backend/app/strategies/ice.py:274-293 | the final request goes on with the session; its instruction is the pipeline's template or the default, with the latest answers and the last critique as it was written |
| `IceRequests.FinalIsLogged` | backend/app/strategies/ice.py:295-323 | the final call is logged as the arbiter's, with this request, what was replied, and no round |
| `IceAgreement.DriversAgree` | backend/app/strategies/ice.py:408-781 | whatever the three drivers deliver by their contracts, for any replies, failures and completion orders: once the critique of round 0 succeeds, `run`, the prepared stream and the process stream make the same calls; all fail with the same critique exactly when a critique failed and judge_failure is strict, and otherwise all arrive at the final request that follows from the last round |
| `IceAgreement.ObserveDrivers` | backend/app/strategies/ice.py:408-781 | running the three drivers one after the other delivers such a triple, so the agreement is about them |
| `IceAgreement.FailuresAgree` | backend/app/strategies/ice.py:602-606 | when round 0 or its critique fails, both streams raise the same error and its rows are the calls made, each once; only `run` may return instead, and only its error writes that critique twice |
| `IceAgreement.EventsShowCalls` | backend/app/strategies/ice.py:674-754 | in every case, failures included, the process events show exactly the calls in front of the final one, each as often as it was made |
| `IceAgreement.AgreeOnCalls` | backend/app/strategies/ice.py:646-658 | the calls reported by the three are the same: equal in order for two of them, as a multiset for the events |
| `IceAgreement.EventsAreCallsOfRun` | backend/app/strategies/ice.py:674-754 | the process events show the calls of the run, each as often as it was made |
| `IceAgreement.RecordedOnceIff` | backend/app/strategies/ice.py:440-498 | every call is logged exactly once exactly when no judge call fails while judge_failure is strict |
| `IceAgreement.StrictLoss` | backend/app/strategies/ice.py:441-498 | in the strict failure cases the number of logged rows is not the number of calls made |
| `IceAgreement.StrictRows` | backend/app/strategies/ice.py:438-498 | the rows of strict failures: all calls and the failed critique once more, or all member calls in order and the failed final call |
| `IceAgreement.ReturnedUsage` | backend/app/strategies/ice.py:505-510 | the usage of a returned result is the sum over its calls in all four columns, and its calls are the calls made |
| `Rejudge.RebuildAnswers` | backend/app/rejudge_svc.py:71-86 | the loop over the log computes, in first-seen order, each member's successful row of the highest round |
| `Rejudge.LaterIff` | backend/app/rejudge_svc.py:79-82 | a row replaces the kept one exactly when its round is positive and the kept one has none or an earlier one: round 0 and no round never replace anything |
| `Rejudge.RebuiltRows` | backend/app/rejudge_svc.py:71-86 | there is one rebuilt row for each member in first-seen order |
| `Rejudge.LogReplayed` | backend/app/rejudge_svc.py:71-86 | replaying a log whose rounds list members in any order gives exactly the live answers, ordered as the survivors of round 0 stand in it |
| `Rejudge.ReplayAgreesIff` | backend/app/rejudge_svc.py:71-86 | for a run or a prepared stream the rebuilt answers are those of the final instruction, in order, exactly when the surviving members have distinct model ids |
| `Rejudge.ProcessReplayIff` | backend/app/rejudge_svc.py:71-86 | for a process stream they are in the same order exactly when the survivors of round 0 completed in configuration order |
| `Rejudge.SuccessesAreSurvivors` | backend/app/rejudge_svc.py:75-77 | every successful member row of a run belongs to a survivor of round 0 |
| `RejudgeRequests.OneRoundRebuiltIff` | backend/app/rejudge_svc.py:71-86 | a log with one row for each member gives the survivors back in order exactly when their model ids are distinct |
| `RejudgeRequests.CouncilReproduced` | backend/app/rejudge_svc.py:50-61 | rejudging a council call with its own arbiter: same answers exactly when the surviving ids are distinct; then the same critique request, and for the same critique text the same final request |
| `RejudgeRequests.IceInstructionReproduced` | backend/app/rejudge_svc.py:50-61 | rejudging an ICE run with distinct ids ends with the same final instruction, for the same critique text |
| `ToolDeltas.MergeDeltas` | backend/app/adapters/base.py:91-110 | the dictionary loop computes the merge of the fragments |
| `ToolDeltas.IndexedAs` | backend/app/adapters/base.py:95-97 | a fragment belongs to the call of its index, one without index to that of index 0 |
| `ToolDeltas.MergeByIndex` | backend/app/adapters/base.py:95-109 | each call is the merge of the fragments with its index alone |
| `ToolDeltas.MergeIgnoresInterleaving` | backend/app/adapters/base.py:95-109 | any interleaving that keeps the order inside each index merges to the same calls |
| `ToolDeltas.MergedFields` | backend/app/adapters/base.py:98-109 | arguments are the in-order concatenation; id, kind and name are the last non-empty ones |
| `ToolDeltas.FirstTakenIff` | backend/app/adapters/base.py:91-109 | the documented claim: id and name of a merged call are the first ones exactly when the first and the last non-empty ones of its index are equal |
| `ToolDeltas.SplitThenMergeIff` | backend/app/gateways/llm_gateway.py:1027-1029 | calls split into one indexed fragment each and merged again are the same list exactly when each has the shape of a merged call |
| `ToolDeltas.MergedCallsTravel` | backend/app/gateways/llm_gateway.py:1027-1029 | so what was merged and is sent on call by call arrives unchanged |
| `Adapter.TimedEvents` | backend/app/adapters/base.py:144-174 | the timed generator delivers events and end as the specification of waits says |
| `Adapter.NeverCutIff` | backend/app/adapters/base.py:145-174 | a stream is read to its end exactly when no single wait exceeds the timeout, however long it runs; then every event is delivered |
| `Adapter.CutRetryableIff` | backend/app/adapters/base.py:155-170 | a wait that is too long is retryable exactly when no event came before it, and the events before it were delivered |
| `Adapter.Complete` | backend/app/adapters/base.py:193-228 | with a negative max_retries the call ends in the error behind the loop without an attempt; otherwise at most max_retries + 1 attempts; every attempt but the last failed repeatably without text and the last is not repeatable unless attempts ran out; the content is the text of the last attempt alone, finish reason (`stop` if there is none) and usage are the last ones of any attempt; time slept is the base delay times 2^(attempts-1) - 1 |
| `Adapter.SleepBound` | backend/app/adapters/base.py:222-227 | time slept is at most the base delay times 2^max_retries - 1 |
| `Adapter.NoReplayIff` | backend/app/adapters/base.py:199-219 | for fragments kept from earlier attempts: the merged calls are those of the last attempt exactly when every call begun earlier begins again and nothing of the earlier fragments shows |
| `Adapter.CompletedReplayIff` | backend/app/adapters/base.py:193-219 | so for every completed call, after any number of attempts: its tool calls are those of the last attempt exactly when nothing the failed attempts delivered leaves such a trace |
| `Adapter.ReplayedArguments` | backend/app/adapters/base.py:199-219 | a concrete upstream for which the merged arguments are sent twice over although each attempt sent them once |
| `StreamProtocol.StepKeepsInv` | backend/app/gateways/llm_gateway.py:727-855 | every atomic step of pump, ferry, heartbeat, disconnect and persist keeps the protocol invariant |
| `StreamProtocol.ReachableInv` | backend/app/gateways/llm_gateway.py:744-855 | the invariant holds after every interleaving |
| `StreamProtocol.ClientSeesPrefix` | backend/app/gateways/llm_gateway.py:727-741 | lines received minus pings are a prefix of the lines sent, and everything the pump had to say once drained |
| `StreamProtocol.PersistedRecord` | backend/app/gateways/llm_gateway.py:772-852 | persisted once, after the pump, with a terminal status; detached it depends on the upstream alone; attached, success implies that the client got everything |
| `StreamProtocol.ContentIsWhatWasSent` | backend/app/gateways/llm_gateway.py:781-790 | recorded content and tool fragments are, at every moment, those of the lines sent |
| `StreamProtocol.PersistedRows` | backend/app/gateways/llm_gateway.py:817-852 | wherever persist runs, each outcome taken from the strategy is a row once, in order, and the request totals are the sums over all rows of the request; the final row itself is that of GatewayFinal.DirectFinal, IterativeFinal and ProcessFinal |
| `StreamProtocol.NeverStuck` | backend/app/gateways/llm_gateway.py:801-854 | until it is persisted or refused, a request can take a step that is neither a heartbeat nor a disconnect |
| `StreamProtocol.CanEnd` | backend/app/gateways/llm_gateway.py:801-854 | from every state of every stream some run of steps without a disconnect leads to a persisted or a refused request |
| `StreamProtocol.StepReducesWork` | backend/app/gateways/llm_gateway.py:801-854 | every step but a heartbeat and its delivery brings the stream nearer to its end |
| `StreamProtocol.UninterruptedPump` | backend/app/gateways/llm_gateway.py:772-799 | a pump that nobody cut short has sent its whole script and the end marker and left what its steps leave |
| `StreamProtocol.RequestTotals` | backend/app/gateways/llm_gateway.py:938-946 | the accumulating loops give base plus rows plus final call, for input and for output tokens |
| `GatewayPaths.Pump.OnEvent` | backend/app/gateways/llm_gateway.py:776-790 | one upstream event of a plain stream changes queue and shared outcome as its protocol step does |
| `GatewayPaths.Pump.OnContent` | backend/app/gateways/llm_gateway.py:903-910 | the same for the final stream of the ICE and process paths, where only text and usage count |
| `GatewayPaths.Pump.OnExhausted` | backend/app/gateways/llm_gateway.py:791-793 | finish line, end marker line and success, in this order |
| `GatewayPaths.Pump.OnFinalPlan` | backend/app/gateways/llm_gateway.py:1036-1039 | the final plan opens the forwarding and sends the role line |
| `GatewayPaths.Pump.OnRound` | backend/app/gateways/llm_gateway.py:893-900 | a yielded round adds its members and its critique to the rows and at most one comment line |
| `GatewayPaths.Pump.OnProcessEvent` | backend/app/gateways/llm_gateway.py:1052-1069 | a process event is one row, one header line, and the reasoning lines of its text; the role goes with the first line only |
| `GatewayPaths.Pump.OnFinalResult` | backend/app/gateways/llm_gateway.py:1021-1035 | a computed result is sent in one piece: its calls if there are any, else its text |
| `GatewayPaths.Pump.PumpDirect` | backend/app/gateways/llm_gateway.py:772-799 | the whole pump of a plain stream or a passthrough: lines in order, shared outcome, failure and end marker are those of its script |
| `GatewayPaths.Pump.PumpIterative` | backend/app/gateways/llm_gateway.py:884-920 | the whole pump of ICE rounds and final stream does its script |
| `GatewayPaths.Pump.PumpProcess` | backend/app/gateways/llm_gateway.py:1016-1081 | the whole pump of a process stream with a forwarded final call does its script |
| `GatewayPaths.Pump.PumpResult` | backend/app/gateways/llm_gateway.py:1016-1081 | the whole pump of a process stream with a computed result does its script |
| `GatewayPaths.Pump.PumpBroken` | backend/app/gateways/llm_gateway.py:1070-1081 | an exception that the pump does not catch leaves the events shown, the end marker, and the status as it was |
| `GatewayPaths.DirectStream` | backend/app/gateways/llm_gateway.py:744-855 | plain pipeline stream and passthrough over every interleaving: content, totals, one final row, and tool calls equal to the merge of the fragments the client received; the row is that of GatewayFinal.DirectFinal |
| `GatewayPaths.IterativeStream` | backend/app/gateways/llm_gateway.py:858-977 | ICE stream over every interleaving: of the outcomes the generator yields, those the pump took are rows once and in order, all of them when it was not cut off, and the totals are sums over the rows; the calls behind outcomes not yet yielded are the subject of GatewayCalls |
| `GatewayPaths.ProcessStream` | backend/app/gateways/llm_gateway.py:980-1171 | process stream over every interleaving: of the outcomes of the events, those the pump took are rows once and in order, all of them when it was not cut off, and the totals are sums over the rows |
| `GatewayPaths.ResultStream` | backend/app/gateways/llm_gateway.py:1142-1167 | tool aggregation in a process stream, over every interleaving and also when the client leaves: the rows are the outcomes of the events taken, then the judge row once the result was taken; totals are the sums over these rows; content, finish and degraded status are those of the result |
| `GatewayPaths.BrokenStream` | backend/app/gateways/llm_gateway.py:1070-1081 | a process stream that breaks off with an uncaught exception is persisted as client_cancelled even when the client got everything; its rows are the event outcomes and the totals their sums |
| `GatewayPaths.ResultSent` | backend/app/gateways/llm_gateway.py:1027-1032 | the recorded content is the content sent exactly when the result has no tool calls or no content; the calls arrive as they are |
| `GatewayFinal.DirectFinal` | backend/app/gateways/llm_gateway.py:817-852 | a plain stream in every saved state has one row, that of the final call: the arbiter's, with the planned request, success, failure or cancellation exactly as the stream's, the upstream's error text after a failure, the text that had arrived (none after a failure), the usage reported last, the calls merged from the fragments |
| `GatewayFinal.IterativeFinal` | backend/app/gateways/llm_gateway.py:948-963 | ICE rounds behind a prepared stream: the same row, written exactly when the plan was reached and behind all rows of the rounds; before, there is no content |
| `GatewayFinal.ProcessFinal` | backend/app/gateways/llm_gateway.py:1125-1145 | the same for a process stream that comes to a plan, for both strategies |
| `GatewayDisplay.EventShown` | backend/app/gateways/llm_gateway.py:1052-1069 | each event of a process stream shows its heading - member name or round -, the role with the very first one, then the pieces of the answer or one note with the error or the name of the status; its row is the call itself |
| `GatewayDisplay.GateIs` | backend/app/gateways/llm_gateway.py:1064-1065 | the response of a process stream begins with the first successful member and no earlier |
| `GatewayDisplay.GateStaysShut` | backend/app/gateways/llm_gateway.py:1064-1065 | and never without one |
| `GatewayDisplay.BegunFromTheStart` | backend/app/gateways/llm_gateway.py:744-977 | a plain stream and one with ICE rounds have begun from the start and are never refused |
| `GatewayDisplay.ResultReceived` | backend/app/gateways/llm_gateway.py:1021-1035 | a client that reads a tool aggregation to its end gets exactly the delivered calls, one fragment each, or else exactly the delivered text |
| `GatewayRuns.CouncilPlanStream` | backend/app/strategies/council.py:718-730 | a council stream, whatever part of the tokens came from a cache: rows and totals cover exactly the members, the critique and the final call |
| `GatewayRuns.IceReadyStream` | backend/app/strategies/ice.py:611-625 | the same for an ICE stream without further rounds |
| `GatewayRuns.IceRoundsStream` | backend/app/gateways/llm_gateway.py:858-977 | an ICE stream with rounds: not cut off, the rows before and of the stream are the calls of the run in order; cut off anywhere, the totals are the sums over the rows |
| `GatewayRuns.IceProcessStream` | backend/app/gateways/llm_gateway.py:980-1171 | an ICE process stream: not cut off, its rows are the calls in front of the final one, each as often as it was made, and the final row |
| `GatewayRuns.ForwardsIffPlanned` | backend/app/gateways/llm_gateway.py:1108-1132 | a process stream that was not cut off has a forwarded final row exactly when its strategy came to a final plan |
| `GatewayRuns.CouncilProcessStream` | backend/app/gateways/llm_gateway.py:980-1171 | a council process stream with any end: totals are the sums over its rows; not cut off, its rows are the calls in front of the final one, each as often as it was made, and the final row - which is missing exactly when the final call failed in strict tool mode or the validation of its calls raised; content, finish reason and degraded flag of a result are saved as delivered |
| `GatewayRuns.CancelledIffUncaught` | backend/app/gateways/llm_gateway.py:1070-1081 | a council process stream that was not cut off is recorded as cancelled by the client exactly when its strategy ended in an uncaught exception |
| `GatewayRuns.GateOpensIff` | backend/app/gateways/llm_gateway.py:1064-1065 | the response begins at an event exactly when some member event is a success |
| `GatewayRuns.IceRefused` | backend/app/gateways/llm_gateway.py:1070-1091 | an ICE process stream is refused only when no member of round 0 succeeded, and then it sends and persists nothing; the rows written for the error are the calls made, which the events showed, each once |
| `GatewayRuns.CouncilRefused` | backend/app/gateways/llm_gateway.py:1070-1091 | the same for a council process stream |
| `InFlight.EventKeeps` | backend/app/strategies/ice.py:370-404 | every start, return and cancellation of a call and every step of the stream keeps the account: what came back is what the steps taken called and what came back of the round in flight |
| `InFlight.LivedKeeps` | backend/app/strategies/ice.py:370-404 | so the account holds after every interleaving of calls, pump, client and persist step |
| `InFlight.EveryRunLives` | backend/app/gateways/llm_gateway.py:744-855 | putting the calls in flight loses no behaviour: every run of the protocol is the protocol part of a run with calls |
| `InFlight.AnsweredSplits` | backend/app/strategies/ice.py:463-471 | in every state the calls that came back are those of the steps taken and the unseen ones of the round in flight, with multiplicity |
| `InFlight.Accounts` | backend/app/gateways/llm_gateway.py:801-852 | in every saved state the rows and the unseen calls are the calls that came back and the forwarded final call; each of these has exactly one row exactly when nothing unseen was back; the totals are short by exactly the unseen tokens; without a client that leaves an attached stream nothing is unseen |
| `InFlight.MidRoundLoss` | backend/app/strategies/ice.py:463-466 | every attached stream with a round of two or more calls has a run in which the first call came back, the client left, and the call has no row |
| `InFlight.UnshownLoss` | backend/app/strategies/ice.py:733-757 | every attached process stream that begins with two or more calls has a run in which the second came back, was not shown, and has no row |
| `GatewayCalls.IterativeCalls` | backend/app/gateways/llm_gateway.py:858-977 | the account for ICE rounds behind a prepared stream, cut off between or inside rounds or not at all |
| `GatewayCalls.ProcessCalls` | backend/app/gateways/llm_gateway.py:980-1171 | the account for process streams, with calls that came back and were not shown |
| `GatewayCalls.ResultCalls` | backend/app/gateways/llm_gateway.py:1142-1167 | the account for tool aggregation, the final call made in the strategy included |
| `GatewayCalls.IceRoundsCalls` | backend/app/strategies/ice.py:541-544 | it holds of every prepared ICE stream as it runs: its rounds one after the other, each in flight as a whole, under the semaphore of the pipeline |
| `GatewayCalls.IceProcessCalls` | backend/app/strategies/ice.py:660-757 | it holds of every ICE process stream as it runs: the members of each round in flight together and shown as they complete |
| `GatewayCalls.CouncilProcessCalls` | backend/app/strategies/council.py:745-818 | it holds of every council process stream, with any end |
| `GatewayCalls.IceRoundLost` | backend/app/strategies/ice.py:541-544 | every attached prepared ICE stream with rounds and two or more survivors can lose its first refinement |
| `GatewayCalls.IceUnshownLost` | backend/app/strategies/ice.py:673-684 | every attached ICE process stream whose first answer is a success and that has two or more members can lose the second answer |
| `Council.ListNames` | backend/app/strategies/council.py:97-99 | the comprehension over the tools raises exactly when some entry has a function without a name that can be listed; otherwise it gives exactly the offered names |
| `Council.ValidateToolCalls` | backend/app/strategies/council.py:94-112 | raises exactly when listing the tools does; otherwise calls are valid exactly when there are some and each names an offered function with object arguments |
| `Council.MostCommon` | backend/app/strategies/council.py:125 | the name is a most frequent one, and every name seen earlier is less frequent |
| `Council.MajorityUnique` | backend/app/strategies/council.py:125 | there is only one such name |
| `Council.PickFallback` | backend/app/strategies/council.py:115-129 | none exactly when no survivor made calls; otherwise the calls of the first survivor that uses the majority function |
| `Council.PickedUnique` | backend/app/strategies/council.py:115-129 | the fallback is determined by the survivors |
| `Council.RunToolFinalRound` | backend/app/strategies/council.py:516-576 | all branches of the final tool round: which calls, finish reason, flag and content are delivered, the strict error, and the exception of the validation; the request it is made with is that of CouncilRequests.RunAsks |
| `Council.Run` | backend/app/strategies/council.py:578-683 | every return and raise of `run`, with and without tools, uncaught exceptions in front of and behind the final call included; what its calls ask, CouncilRequests.RunAsks says |
| `Council.PrepareStream` | backend/app/strategies/council.py:685-730 | failure cases, and otherwise the calls made, their usage and the final request |
| `Council.RunStreamProcess` | backend/app/strategies/council.py:732-818 | events in completion order and the end of the process stream in every case, uncaught exceptions included; what its calls ask, CouncilRequests.ProcessAsks says |
| `Council.DriversAgree` | backend/app/strategies/council.py:732-741 | whatever the three drivers deliver by their contracts: the same calls, and the final request that follows from them made or handed on, in tool mode too, unless the validation of the final answer raises, which it does in both drivers that make that call or in neither; the base usage is the sum over the calls made |
| `Council.ObserveDrivers` | backend/app/strategies/council.py:615-818 | running the three drivers one after the other delivers such a triple |
| `Council.RecordedOnceIff` | backend/app/gateways/llm_gateway.py:659-670 | a `run` logs every call once and in order, strict failures included, exactly unless it ends in an uncaught exception, which loses them all |
| `Council.FailuresAgree` | backend/app/strategies/council.py:694-700 | a call that fails before its final request: both streams raise the same error and its rows are the calls made, each once; the rows in front of a prepared stream are the calls made exactly unless an intent cannot be written - then there are none; `run` and the process stream end in an uncaught exception for the same inputs |
| `Council.EventsShowCalls` | backend/app/strategies/council.py:753-776 | in every case the process events show exactly the calls in front of the final one, each as often as it was made |
| `Council.ReturnedTokens` | backend/app/strategies/council.py:615-683 | for every returned result and each of the four columns: the usage and what is missing are the sums over its calls; missing are the cached parts of the arbiter's calls, and the whole critique when the final text call fell back |
| `Council.TokensBalanceIff` | backend/app/strategies/council.py:664-683 | the two totals the request log takes over equal the sums over the calls exactly when the final text call did not fall back or its critique cost nothing |
| `Council.UsageBalancesIff` | backend/app/strategies/council.py:664-683 | the usage as a whole equals the sums over the calls exactly when, besides, no call of the arbiter reports cached or cache-write tokens |
| `Council.DeliveredCallsAreSafe` | backend/app/strategies/council.py:565-576 | calls delivered without the degraded mark are valid; marked ones are those picked from a surviving member, behind a failed critique, too |
| `Council.ProcessCallsAreSafe` | backend/app/strategies/council.py:784-801 | the same for the result of a process stream |
| `Council.UncaughtIff` | backend/app/strategies/council.py:80-99 | tool mode breaks down exactly when a surviving member made a call that lacks a name or arguments, or the arbiter answers with calls although some tool has a function without a name |
| `CouncilRequests.FinalChoiceIs` | backend/app/strategies/council.py:420 | the final call in tool mode is held to the requested choice, and to `auto` when that is missing, null, false, zero or empty |
| `CouncilRequests.RunAsks` | backend/app/strategies/council.py:281-446 | every call that a `run` logs, whether it returns, falls back or raises: members are asked the conversation, in tool mode with the tools and the choice of the request; the critique is asked without tools about the survivors' texts or intents; the final call goes on with that session and carries the tools and the choice, or neither outside tool mode; each row keeps the reply to that request |
| `CouncilRequests.PlanAsks` | backend/app/strategies/council.py:685-730 | the same for the calls in front of a prepared stream and the request it forwards |
| `CouncilRequests.ProcessAsks` | backend/app/strategies/council.py:732-818 | a process stream shows a rearrangement of such calls, and makes or hands on such a final request |
| `CouncilRequests.IntentIs` | backend/app/strategies/council.py:80-91 | an intent is written exactly when every call has name and arguments: the calls in order with the text as a note, or the text alone |
| `CouncilTools.PickedIs` | backend/app/strategies/council.py:115-131 | the fallback calls are those of the first survivor that calls the function which the survivors together call most often |
| `CouncilTools.OffersIff` | backend/app/strategies/council.py:97-99 | an element of `tools` offers a name exactly when it is an object whose function is an object with this name; of equal keys the last counts |
| `CouncilTools.UnlistableIff` | backend/app/strategies/council.py:97-99 | listing raises exactly when some function is no object, has no name, or has a list or an object for one |
| `SseReader.DrainBuffer` | frontend/src/lib/api.ts:427-437 | the inner loop hands over every complete block of the buffer |
| `SseReader.StreamRejudge` | frontend/src/lib/api.ts:419-439 | for every way to cut the text into chunks, callbacks, result and exceptions are those of the whole text |
| `SseReader.DrainMore` | frontend/src/lib/api.ts:423-438 | reading what is complete first and going on with more text is reading all of it at once |
| `SseReader.ReaderUndoesPrinter` | backend/app/admin/traces.py:152-153 | reading what the server printed gives the events back in order, nothing left over, and done is seen exactly when one of them is a done event |
| `SseReader.SplitIs` | frontend/src/lib/api.ts:427-437 | splitting a block undoes joining its lines |
| `SseReader.DataLineIs` | frontend/src/lib/api.ts:427-437 | the data line is the first line with the prefix, if there is one |
| `SseReader.IsDoneIff` | frontend/src/lib/api.ts:427-437 | a done event is an object whose last `type` is the text done |
| `JsonDumps.DumpsIsValid` | backend/app/admin/traces.py:152-153 | the server's own JSON style is one of those the reader reads back |
| `JsonDumps.GrammarIs` | backend/app/strategies/ice.py:119-145 | the printed documents are those of the grammar: its white space, escapes and digits, and no others |
| `JsonDumps.DoneEvent` | backend/app/admin/traces.py:152-153 | one nested object, written out in it |
| `Csv.QuotedIff` | frontend/src/lib/stats.ts:47-50 | a field is quoted exactly when it holds a quote, a comma or a line break |
| `Csv.FieldRoundTrip` | frontend/src/lib/stats.ts:47-50 | a written field reads back by the grammar of RFC 4180 section 2, with quotes, commas and line breaks in it |
| `Csv.RecordRoundTrip` | frontend/src/lib/stats.ts:51-54 | a written record with at least one field reads back field for field |
| `Csv.CsvRoundTripIff` | frontend/src/lib/stats.ts:46-56 | the file reads back as header and rows, cell for cell, exactly when there is at least one column |
| `Slug.BaseIsSlug` | backend/app/repos.py:33-34 | cleaning always gives groups of letters and digits joined by single hyphens, and leaves alone exactly the texts of that form |
| `Slug.BaseKeepsGroups` | backend/app/repos.py:33-34 | cleaning keeps the letters and digits of the name, in order and grouped as in the name |
| `Slug.SlugDetermined` | backend/app/repos.py:33-34 | these groups determine the slug |
| `Slug.CollapseKeepsClean` | backend/app/repos.py:25-34 | the second regular expression never finds anything left to do |
| `Slug.DeriveSlug` | backend/app/repos.py:35-41 | the loop stops within the number of taken slugs plus one tries, at the first free slug of the series |
| `Slug.DerivedOnce` | backend/app/repos.py:35-41 | that slug is unique, free, and not empty when the fallback is not |
| `Slug.BackfillProviderSlugs` | backend/app/db.py:85-101 | every row without a slug gets the first free one, given those before it; other rows are untouched |
| `Slug.BackfillDistinctIff` | backend/app/db.py:85-101 | after the backfill no slug is empty, and all are pairwise different exactly when those that existed were |
| `Lockout.LoginGuard.LockoutRemaining` | backend/app/auth_svc.py:55-61 | expired failures are dropped from the dictionary and the time left is computed from the oldest of five or more |
| `Lockout.LoginGuard.RecordLoginFailure` | backend/app/auth_svc.py:64-67 | a failure is appended to the live ones |
| `Lockout.LoginGuard.ResetLoginFailures` | backend/app/auth_svc.py:70-71 | the entry of the user is removed, no other |
| `Lockout.LoginGuard.Login` | backend/app/auth_svc.py:215-232 | the gate answers and stores as one step of the window does and leaves other users alone |
| `Lockout.RunFollowsPolicy` | backend/app/auth_svc.py:55-67 | after every chronological run the stored list is a sorted suffix of at most five of all failures since the last success, and the next attempt is locked exactly while the fifth most recent of them is under 300 seconds old, with exactly the time left until it is not |
| `Lockout.AtMostFivePerWindow` | backend/app/auth_svc.py:49-67 | between two successes any window shorter than 300 seconds holds at most five rejected attempts |
| `Lockout.RemainingRange` | backend/app/auth_svc.py:215-220 | the time left lies in (0, 300] exactly while locked |
| `Lockout.LockedAttemptsDoNotCount` | backend/app/auth_svc.py:215-220 | attempts made while locked never change a later answer, so they never extend the lock |
| `Store.SurvivorsRun` | backend/app/repos.py:120-125 | a pipeline that survives a model deletion keeps its judge, all its other members, and at least one member if it had any |
| `Store.BrokenCannotRun` | backend/app/repos.py:120-125 | a pipeline is deleted exactly when its judge is deleted or the deletion would empty it |
| `Store.BrokenIsComputed` | backend/app/repos.py:128-146 | the three queries around the member deletion find exactly the broken pipelines |
| `Store.Database.DeleteModelsCascade` | backend/app/repos.py:120-154 | exactly the broken pipelines, their members, the models and the grants on both go; every single delete respects the foreign keys |
| `Store.Database.DeleteBroken` | backend/app/repos.py:147-151 | members before pipelines before their grants |
| `Store.Database.DeleteProvider` | backend/app/admin/providers.py:154-170 | a provider goes with its models, the pipelines they break, and all grants on any of them |
| `Store.Database.DeleteModel` | backend/app/admin/models.py:61-67 | 404, or the cascade for one model |
| `Store.Database.CreateProvider` | backend/app/admin/providers.py:86-103 | a fresh number without inherited grants and a slug that is the first free one; a taken name changes nothing |
| `Store.Database.UpdateProvider` | backend/app/admin/providers.py:134-151 | slug unchanged, names stay unique |
| `Store.Database.CreateModel` | backend/app/admin/models.py:21-28 | 422 for an unknown provider, else a fresh row without inherited grants |
| `Store.Database.UpdateModel` | backend/app/admin/models.py:45-58 | the provider is checked first; references stay intact |
| `Store.Database.ReplaceMembers` | backend/app/admin/pipelines.py:57-70 | the pipeline's rows are exactly the new ones, numbered in order; other pipelines keep theirs |
| `Store.ReplacedReadsBack` | backend/app/admin/pipelines.py:17-23 | reading the members back in order gives the list that was written |
| `Store.Database.CreatePipeline` | backend/app/admin/pipelines.py:73-101 | which error for which request, nothing changed on error, and otherwise row and member list as requested |
| `Store.Database.UpdatePipeline` | backend/app/admin/pipelines.py:120-151 | the same for a partial update, members replaced only when given - possibly by an empty list |
| `Store.Database.DeletePipeline` | backend/app/admin/pipelines.py:154-159 | the pipeline goes with its members and the grants on it |
| `Store.Database.PutGrants` | backend/app/admin/users.py:387-424 | 404, 422, or afterwards exactly the requested grants in one row each; other users keep theirs |
| `Store.Database.CanDemote` | backend/app/admin/users.py:78-83 | exactly the built-in administrator and the last enabled one are protected |
| `Store.Database.DeleteUserCascade` | backend/app/repos.py:190-196 | keys, grants and sessions of the user go before the user, no foreign key is broken in between |
| `Store.Database.DeleteUser` | backend/app/admin/users.py:225-242 | 404, 409, or the cascade; an enabled administrator remains |
| `Store.Database.CreateUser` | backend/app/admin/users.py:127-160 | user names stay unique, an administrator needs a password |
| `Store.Database.UpdateUser` | backend/app/admin/users.py:163-206 | role and enabled flag change only when the guard allows it; an enabled administrator remains |
| `Store.Database.CreateKey` | backend/app/admin/users.py:285-312 | a key belongs to an existing user |
| `Store.Database.DeleteKey` | backend/app/admin/users.py:344-352 | only the user's own key is deleted, the special key 0 never |
| `StoreQueries.ValidMeans` | backend/app/orm.py:64-254 | a valid store, field by field: every reference has its row, names, slugs and grants are unique |
| `StoreQueries.RowsLeft` | backend/app/repos.py:120-154 | row by row: a pipeline goes with its judge or its last member, a member with its model or pipeline, a grant with its target |
| `StoreQueries.ProviderRows` | backend/app/admin/providers.py:154-170 | a provider takes exactly its own models, and the grants on itself |
| `StoreQueries.UserRows` | backend/app/repos.py:190-196 | a user takes exactly the own grants, keys and sessions |
| `StoreQueries.GrantedIff` | backend/app/repos.py:215-224 | after a grant request a user may use a thing exactly when it was listed under its kind |
| `StoreQueries.PatchesAre` | backend/app/admin/pipelines.py:120-151 | a partial update changes the given fields and no other |
| `AdminRuns.Handle` | backend/app/orm.py:64-254 | one request of any kind keeps all references, uniqueness and an enabled administrator |
| `AdminRuns.Serve` | backend/app/orm.py:64-254 | so does every sequence of requests |
| `ModelSync.SyncModels` | backend/app/admin/providers.py:48-83 | added and removed lists and the new table, row by row; the store stays valid |
| `ModelSync.MissingIffAbsent` | backend/app/admin/providers.py:51-55 | no row is deleted, and a row of the provider is marked missing exactly when the upstream does not offer it |
| `ModelSync.SyncTwice` | backend/app/admin/providers.py:56-83 | a second synchronisation with the same list reports nothing and changes nothing |
| `ModelSync.OneRowPerIdIff` | backend/app/admin/providers.py:61-72 | rows stay one per upstream id exactly when no new id is offered twice |
| `ModelSync.RunRow` | backend/app/admin/providers.py:74-82 | in a run of synchronisations every row evolves on its own |
| `ModelSync.ManualDisableIff` | backend/app/admin/providers.py:51-55 | a model switched off by hand stays off while it is offered; it comes back by itself exactly when some list left it out and the last one offers it |
| `Shortfalls.StrictCritiqueLoggedTwice` | backend/app/strategies/ice.py:438-447 | a concrete run in which the failed critique was made once and is logged twice |
| `Shortfalls.RefinementLost` | backend/app/strategies/ice.py:541-544 | a concrete attached stream of two members whose client leaves in the middle of a round: the refinement that came back has no row |
| `Shortfalls.SameModelTwice` | backend/app/rejudge_svc.py:71-86 | a concrete run with two members of one model id: two live answers that the log does not give back |
| `Shortfalls.OppositeOrder` | backend/app/rejudge_svc.py:71-86 | a concrete process stream whose two members complete the other way round: the rebuilt rows are not the live ones |
| `Shortfalls.NaNHidesStagnation` | backend/app/strategies/ice.py:161-171 | a concrete run whose arbiter prints objects with confidence 0.9, NaN and 0.1 and which goes on with stagnation on |
| `Shortfalls.CritiqueTokenMissing` | backend/app/strategies/council.py:664-670 | a concrete call that returns a total of 1 input token while its rows sum to 2 |
| `Shortfalls.CachedTokensMissing` | backend/app/strategies/council.py:674-683 | a concrete call in which nothing fails and whose cached tokens are in no total |
| `Shortfalls.CallWithoutArguments` | backend/app/strategies/council.py:80-91 | a concrete call in tool mode that can only end in an uncaught exception: a member calls a function without arguments |
| `Shortfalls.ToolWithoutName` | backend/app/strategies/council.py:97-99 | another one: a tool without a name, an arbiter that answers with a call, and no incomplete call of a member |
| `Shortfalls.StrictToolCallLost` | backend/app/strategies/council.py:545-554 | a concrete process stream, read to its end, that made three calls and has two rows |
| `Shortfalls.CancelledThoughRead` | backend/app/gateways/llm_gateway.py:1070-1081 | a concrete process stream, read to its end, that is recorded as cancelled by the client |
| `Shortfalls.TextNotSent` | backend/app/gateways/llm_gateway.py:1027-1032 | a concrete result whose text is recorded and not sent |
| `Shortfalls.SecondIdKept` | backend/app/adapters/base.py:98-104 | two fragments of one call with different ids, of which the second is kept |
| `Shortfalls.NoColumnsReadBack` | frontend/src/lib/stats.ts:46-56 | a concrete file without columns that reads back as something else |
| `Shortfalls.OfferedTwice` | backend/app/admin/providers.py:61-72 | a concrete list whose synchronisation makes two rows for one upstream id |

## Left out

- Provider SDK calls and the mapping of their errors: an upstream is a function, an adapter attempt a list of timed events with an end.
- `json.loads`, the code-fence stripper and `JSON.parse` are parameters; only the hand-written scanner is modelled. The decoder is taken to be total, so a too deep nesting or an integer too large for a float is not covered.
- The texts of the prompt templates are parameters; the statements hold for all of them.
- FinalChoiceIs: a number so small that it reads as 0.0 counts as given.
- Durations, first-token times, request ids and timestamps: they decide nothing that is stated here.
- The log is taken in the order in which rows are recorded, which is what `created_at, id` gives when rows are written one after another.
- Starlette's handling of a disconnect before the event stream starts (its `finally` then does not take place), and the non-streaming detach paths.
- A client that leaves before the response begins: the calls in flight are modelled behind the start of a stream, so not for a `run` and not for the first round in front of a prepared stream.
- Calls shown as they complete are numbered in that order, which a script fixes in advance; a run in which they come back in another order belongs to another script.
- Sanitising of reasoning text and the splitting into lines are parameters of the process stream.
- The event reader works on decoded text; the UTF-8 decoder in front of it, and the HTTP request, are not part of this model.
- Slug derivation starts from the lower-cased name; Unicode lower-casing is outside.
- The lockout statements are about attempts one after another; between the check and the recording the service awaits the database, so simultaneous attempts can pass the gate together.
- The rejections of a rejudge other than missing answers, the rejudge stream generator, and its persistence.
- Login sessions and audit rows are not created by any modelled request; existing sessions are deleted with their user.
- Columns that no reference or guard depends on (remarks, base URLs, keys, parameters, timestamps), and strategy names and parameters, which enter requests as the outcome of their check.
- Routing, authentication, encryption, masking, usage statistics, settings and the user interface.
- Login: time is a real number; rounding of floating-point seconds is not modelled.
- SyncModels: the order in which the database returns the provider's rows is a parameter.
- TimedEvents: a wait of exactly the timeout counts as in time, where the event loop may decide either way.
