# agent-templates: the deterministic control core, in Dafny

The agent-templates repository holds four small LLM agent templates. This
project models their control logic and proves properties of it:

- **Memory agent** (`templates/agent-memory/agent.py`). It has an
  append-only conversation, a table of long-term facts and a working-state
  dictionary. It renders a token-budgeted context for the model: a system
  entry (the prompt, then the ten most important facts), an omission notice
  when older messages had to be dropped, and the newest messages that fit.
  Module `AgentMemory` (`memory.dfy`); class `Memory`.
- **Tool-calling agent** (`templates/tool-calling-agent/agent.py`). A
  per-service circuit breaker, and a tool executor wrapped in a retry
  decorator (three attempts, retrying only transient errors). The
  `robust_agent` loop never lets a tool error end the run. Modules
  `CircuitBreakers` (`breaker.dfy`), `ToolRetry` (`retry.dfy`) and
  `RobustAgent` (`robust.dfy`).
- **ReAct agent** (`templates/react-agent/agent.py`). A bounded
  reason/act/observe loop whose tool executor turns every failure into a
  text. Module `ReactAgent` (`react.dfy`). Its conversation vocabulary is
  shared with the robust agent and lives in module `Chat` (`chat.dfy`).
- **Multi-agent orchestrator**
  (`templates/multi-agent-orchestrator/orchestrator.py`). A keyword planner
  chains research, analysis and writing specialists. Each specialist gets
  the outputs of its successful dependencies, and the outputs are combined
  into one answer. Module `Orchestration` (`orchestrator.dfy`).

Module `Strings` (`strings.dfy`) holds the text helpers used by the others:
decimal rendering, ASCII lower-casing, substring search and join.

How the model is built:

- Where the source updates an object in place, the model is a class. This
  covers `Memory` and `CircuitBreaker`. Each method's postcondition ties the
  new state to a pure function of the old state.
- The loops are methods with invariants: the agent loops, the retry loop,
  the context walk, task formatting and plan execution. Each method is
  proved equal to a recursive specification function. The properties the
  source promises are proved about those functions as lemmas.
- Nothing outside the program is modelled directly; each becomes a
  parameter:
  - the language model is a function of what it is shown;
  - the tokenizer is a function `string -> nat`;
  - tools are functions of the history, the call and the attempt number;
  - the clock is a function giving integer microseconds.

Behaviours of the code worth noting:

- **Budget.** The context budget counts the system entry's tokens twice.
  The walk starts from the system tokens and compares against
  `max_context_tokens - system tokens - 500`. The 4-token per-message
  overhead of `count_messages_tokens` is not applied, and the omission
  notice is not counted (`agent-memory/agent.py:198-213`).
- **Half-open.** The breaker enters half-open only when the elapsed time is
  strictly greater than the timeout (`tool-calling-agent/agent.py:84`).
- **Permanent errors.** A `PermanentError` raised by a tool is turned into
  an `Error: ...` string. It records no breaker failure
  (`tool-calling-agent/agent.py:243-246`).
- **Writing dependencies.** The writing step depends only on the nearest
  earlier step: analysis if planned, otherwise research. It does not depend
  on every earlier step (`multi-agent-orchestrator/orchestrator.py:257-262`).

## Model

| member | source | states |
|---|---|---|
| AgentMemory.CountMessagesTokens | templates/agent-memory/agent.py:48-55 | the total is the content tokens of all messages plus 4 per message |
| AgentMemory.ContentTokensConcat | templates/agent-memory/agent.py:48-55 | token counts add up over concatenated message lists |
| AgentMemory.FindFact | templates/agent-memory/agent.py:248-251 | absent exactly when no stored fact has the key; when present, it is the value of a fact stored under that key |
| AgentMemory.FindAfterPut | templates/agent-memory/agent.py:241-251 | after adding a fact, reading its key gives the new value and every other key reads as before |
| AgentMemory.Memory.GetFact | templates/agent-memory/agent.py:248-251 | absent exactly when no stored fact has the key; when present, the value of the fact stored under it (see `FindFact`, `FindAfterPut`) |
| AgentMemory.PutFactKeys | templates/agent-memory/agent.py:241-246 | adding a fact adds exactly its key to the key set |
| AgentMemory.PutFactAppends | templates/agent-memory/agent.py:241-246 | a new key is appended at the end (dictionary insertion order) |
| AgentMemory.PutFactOverwrites | templates/agent-memory/agent.py:241-246 | an existing key is replaced in its own position |
| AgentMemory.PutFactUnique | templates/agent-memory/agent.py:241-246 | keys stay unique |
| AgentMemory.PutFactShape | templates/agent-memory/agent.py:232-246 | the four facts above together: unique keys kept, key set grows by the key, append when new, in-place update when present |
| AgentMemory.InsertByImportancePerm | templates/agent-memory/agent.py:259-263 | one insertion step adds exactly the inserted fact |
| AgentMemory.InsertByImportanceSorted | templates/agent-memory/agent.py:259-263 | one insertion step keeps the list in non-increasing importance |
| AgentMemory.InsertByImportanceStable | templates/agent-memory/agent.py:259-263 | one insertion step keeps the relative order of facts of equal importance |
| AgentMemory.SortByImportanceSpec | templates/agent-memory/agent.py:259-263 | the sort is in non-increasing importance, is a permutation, and is stable (equal importances keep dictionary order) |
| AgentMemory.TopFactsSorted | templates/agent-memory/agent.py:266 | the shown facts number min(10, n), are in non-increasing importance and are drawn from the stored facts |
| AgentMemory.TopFactsDominate | templates/agent-memory/agent.py:259-266 | every fact left out is no more important than any fact shown |
| AgentMemory.FormatFactsSpec | templates/agent-memory/agent.py:253-269 | empty exactly when there are no facts; otherwise the header followed by one line per shown fact, with the count, order, membership and dominance facts above |
| AgentMemory.FitCountFits | templates/agent-memory/agent.py:202-213 | the messages the backward walk takes fit within the limit |
| AgentMemory.FitCountStops | templates/agent-memory/agent.py:202-213 | when the walk stops early, the next older message would have exceeded the limit |
| AgentMemory.RenderContextShape | templates/agent-memory/agent.py:185-226 | the context is the system entry, then an omission notice with the number of dropped messages exactly when some were dropped, then a contiguous suffix of the conversation in chronological order |
| AgentMemory.RenderContextBudget | templates/agent-memory/agent.py:197-213 | system tokens plus kept tokens stay within max - system tokens - 500, and adding the next older message would exceed it |
| AgentMemory.KeepRecent | templates/agent-memory/agent.py:202-213 | the loop keeps exactly the newest messages the budget walk admits |
| AgentMemory.RenderContextFrom | templates/agent-memory/agent.py:188-226 | the system entry, the kept suffix and the notice assemble into the rendered context |
| AgentMemory.SavedConversation | templates/agent-memory/agent.py:124 | the saved conversation is the last min(20, n) messages |
| AgentMemory.LookupAfterSet | templates/agent-memory/agent.py:275-281 | after setting a key it reads back its value, other keys read as before, and a missing key reads as the default |
| AgentMemory.Memory.constructor | templates/agent-memory/agent.py:82-100 | a new memory has the given user and budget and empty conversation, facts and state |
| AgentMemory.Memory.AddMessage | templates/agent-memory/agent.py:163-169 | the conversation grows by exactly the new message; facts and state are unchanged |
| AgentMemory.Memory.GetConversationContext | templates/agent-memory/agent.py:171-226 | returns the rendered context of the current conversation and facts |
| AgentMemory.Memory.AddFact | templates/agent-memory/agent.py:232-246 | the fact table becomes the keyed update of the old one and keeps unique keys; conversation and state unchanged |
| AgentMemory.Memory.SetState | templates/agent-memory/agent.py:275-277 | the working state becomes the old one updated at the key; the rest unchanged |
| AgentMemory.Memory.GetState | templates/agent-memory/agent.py:279-281 | the value set under the key, or the default when none was (see `LookupAfterSet`) |
| AgentMemory.ThreeMessageWindowExample | templates/agent-memory/agent.py:197-224 | with 10 system tokens, messages of 2000, 50 and 30 tokens and a 2060 budget, the two newest are kept after a notice of one omitted message |
| AgentMemory.SystemTokensCountedTwiceExample | templates/agent-memory/agent.py:198-205 | a 1000-token prompt and a 2000-token message are not rendered together in a 4000-token window |
| CircuitBreakers.SucceededSpec | templates/tool-calling-agent/agent.py:63-67 | a success zeroes the service's count and closes its circuit; other services are untouched |
| CircuitBreakers.FailedSpec | templates/tool-calling-agent/agent.py:70-75 | a failure adds one to the service's count; it stamps the open marker with now exactly when the threshold is reached; other services keep their counts and markers |
| CircuitBreakers.ProbeSpec | templates/tool-calling-agent/agent.py:78-90 | answers open exactly while the marker exists and is at most the timeout old; clears only an expired marker; never changes counts |
| CircuitBreakers.TrippedPreserved | templates/tool-calling-agent/agent.py:63-90 | all three operations keep the invariant that an open service has reached the threshold |
| CircuitBreakers.ClosedBelowThreshold | templates/tool-calling-agent/agent.py:70-90 | under the invariant, a service below the threshold is closed and the check changes nothing |
| CircuitBreakers.FailAllSpec | templates/tool-calling-agent/agent.py:70-75 | a run of failures adds its length to the count and, once the threshold is reached, stamps the last instant |
| CircuitBreakers.OpenAfterThresholdFailures | templates/tool-calling-agent/agent.py:70-90 | threshold consecutive failures open the circuit for the whole timeout after the last one |
| CircuitBreakers.StaysOpenWithinCooldown | templates/tool-calling-agent/agent.py:78-90 | within the timeout the check answers open and changes nothing |
| CircuitBreakers.HalfOpenAfterCooldown | templates/tool-calling-agent/agent.py:84-88 | the first check strictly after the timeout answers closed and clears the marker, so later checks answer closed too |
| CircuitBreakers.ReopenOnTrialFailure | templates/tool-calling-agent/agent.py:70-90 | after half-open, a single failed trial re-opens the circuit at once |
| CircuitBreakers.ClosedUntilNextFailure | templates/tool-calling-agent/agent.py:63-90 | once a service's marker is gone, every check of it answers closed until a failure of that service is recorded |
| CircuitBreakers.ThresholdTwoScenario | templates/tool-calling-agent/agent.py:70-90 | with threshold 2: one failure leaves it closed, two open it, it is still open exactly 60 s later, and half-open 1 µs after that |
| CircuitBreakers.CircuitBreaker.constructor | templates/tool-calling-agent/agent.py:56-61 | a new breaker has the given threshold and timeout and no counts or markers, so it satisfies the breaker invariant |
| CircuitBreakers.CircuitBreaker.RecordSuccess | templates/tool-calling-agent/agent.py:63-67 | the breaker's new state is the success update of the old one |
| CircuitBreakers.CircuitBreaker.RecordFailure | templates/tool-calling-agent/agent.py:70-75 | the breaker's new state is the failure update of the old one at instant now |
| CircuitBreakers.CircuitBreaker.IsOpen | templates/tool-calling-agent/agent.py:78-90 | the answer and the new state are those of the check at instant now |
| ToolRetry.RetryBounds | templates/tool-calling-agent/agent.py:118-129 | between one and three attempts, at most one tool call per attempt, and a retryable error escapes only after all three |
| ToolRetry.AlwaysRetryable | templates/tool-calling-agent/agent.py:118-129 | a tool that always fails transiently, with its circuit closed, is called exactly three times; three failures are recorded and the last error is re-raised |
| ToolRetry.CircuitOpensDuringRetries | templates/tool-calling-agent/agent.py:212-241 | with the default threshold and three earlier failures, the second attempt's failure opens the circuit and the third attempt fails fast without calling the tool |
| ToolRetry.OpenCircuitFailsFast | templates/tool-calling-agent/agent.py:212-214 | an open circuit gives one attempt, no tool call, an unchanged breaker and the unavailable error |
| ToolRetry.UnknownToolFailsFast | templates/tool-calling-agent/agent.py:222-223 | an unknown tool gives one attempt, no tool call, the unknown-tool error and unchanged counts |
| ToolRetry.PermanentErrorAnsweredOnce | templates/tool-calling-agent/agent.py:243-251 | a permanent or unexpected tool error becomes an error text after one attempt, with no failure recorded |
| ToolRetry.RecoversAfterOneRetry | templates/tool-calling-agent/agent.py:225-241 | one transient failure, then success: two calls, the second text returned, and the count reset with the circuit closed |
| ToolRetry.RetryFromTripped | templates/tool-calling-agent/agent.py:200-251 | retrying keeps the breaker invariant |
| ToolRetry.ExecuteTool | templates/tool-calling-agent/agent.py:211-251 | one attempt on the breaker object: the exit and the new breaker state are those of the attempt specification |
| ToolRetry.ExecuteToolWithRetry | templates/tool-calling-agent/agent.py:118-129 | the attempt loop returns the exit and leaves the breaker state of the retry specification |
| ReactAgent.ToolExecutorSpec | templates/react-agent/agent.py:68-94 | an unknown name yields the fixed error whatever the tool would do; a tool's text is returned unchanged; its exception becomes an error naming the tool |
| ReactAgent.ObserveAnswers | templates/react-agent/agent.py:209-224 | one tool entry per call, in order, each carrying its call's id |
| ReactAgent.ObserveAt | templates/react-agent/agent.py:209-224 | the j-th tool entry of a reply holds the executor's text for call j, run on the history with the earlier entries |
| ReactAgent.ReactFromReplies | templates/react-agent/agent.py:178-206 | every assistant entry the loop appends is the model's reply to the history before it |
| ReactAgent.ReactFromCount | templates/react-agent/agent.py:172-206 | each loop iteration makes one model call: the calls made are the assistant entries appended, plus one for the final tool-free reply when the loop completed |
| ReactAgent.ReactFromToolResults | templates/react-agent/agent.py:209-224 | every tool entry the loop appends holds the executor's text for the call it answers, run on the history before it |
| ReactAgent.ReactSpec | templates/react-agent/agent.py:143-233 | the history starts with the system prompt and the task and grows in whole request/result blocks; each assistant entry is the model's reply to the history before it and requests tools, and each tool entry holds the executor's text for its call; the model was called once per assistant entry, plus once for the answer when it completed, and at most max_iterations times; the answer is the first tool-free reply, or else the fixed not-completed message after every iteration |
| ReactAgent.AlwaysToolsExhausts | templates/react-agent/agent.py:172-233 | with the default limit, a model that always requests tools is called ten times and the run returns the not-completed message naming 10 |
| ReactAgent.RunCalls | templates/react-agent/agent.py:209-224 | the inner loop appends exactly the observed tool entries |
| ReactAgent.RunReactAgent | templates/react-agent/agent.py:143-233 | the loop returns the answer of the run specification |
| RobustAgent.ToolResultSpec | templates/tool-calling-agent/agent.py:350-356 | a returned value is passed on unchanged; an escaping error becomes an "Error: " text ending in "(all retries exhausted)" |
| RobustAgent.ExecutorKeepsTripped | templates/tool-calling-agent/agent.py:350-351 | executing a call with retries keeps the breaker invariant |
| RobustAgent.ObserveAnswers | templates/tool-calling-agent/agent.py:343-362 | one tool entry per call, in order, each carrying its call's id |
| RobustAgent.ObserveTripped | templates/tool-calling-agent/agent.py:343-362 | the calls of one reply keep the breaker invariant |
| RobustAgent.RobustFromReplies | templates/tool-calling-agent/agent.py:317-341 | every assistant entry the loop appends is the model's reply to the history before it |
| RobustAgent.RobustFromCount | templates/tool-calling-agent/agent.py:312-341 | each loop iteration makes one model call: the calls made are the assistant entries appended, plus one for the final tool-free reply when the loop completed |
| RobustAgent.RobustSpec | templates/tool-calling-agent/agent.py:290-368 | the history starts with the system prompt and the task and grows in whole request/result blocks; each assistant entry is the model's reply to the history before it and requests tools; the model was called once per assistant entry, plus once for the answer when it completed, and at most max_iterations times; the answer is the first tool-free reply, or else the "Task not completed" message after every iteration; the breaker keeps its invariant |
| RobustAgent.ExecuteCall | templates/tool-calling-agent/agent.py:350-351 | one call on the breaker object gives the executor's exit and breaker |
| RobustAgent.RunCalls | templates/tool-calling-agent/agent.py:343-362 | the inner loop appends exactly the observed entries and leaves the breaker they imply |
| RobustAgent.RunIterations | templates/tool-calling-agent/agent.py:312-368 | the iteration loop returns the answer and leaves the breaker of the run specification |
| RobustAgent.RunRobustAgent | templates/tool-calling-agent/agent.py:290-368 | robust_agent on the breaker object returns the specified answer and leaves the specified breaker |
| Orchestration.Agent | templates/multi-agent-orchestrator/orchestrator.py:182-188 | the specialist registered for each agent type has that type |
| Orchestration.ContextBlocksSplit | templates/multi-agent-orchestrator/orchestrator.py:102-104 | the context blocks of a range are those of its two halves, in order |
| Orchestration.FormatTaskShape | templates/multi-agent-orchestrator/orchestrator.py:97-106 | an empty context leaves the task unchanged; otherwise the task and header come first, and each entry's block sits after the earlier entries' blocks and before the later ones |
| Orchestration.FormatTask | templates/multi-agent-orchestrator/orchestrator.py:97-106 | the loop builds exactly the formatted task |
| Orchestration.Run | templates/multi-agent-orchestrator/orchestrator.py:60-95 | keeps the agent type; succeeds exactly when the model answers, with the reply as data and no error; otherwise no data and the exception text as error |
| Orchestration.PlanOrdered | templates/multi-agent-orchestrator/orchestrator.py:224-271 | plan agents appear in research, analysis, writing order, so each at most once |
| Orchestration.PlanFallback | templates/multi-agent-orchestrator/orchestrator.py:264-269 | the plan is never empty, and it is the single raw writing step exactly when no keyword matches |
| Orchestration.PlanSteps | templates/multi-agent-orchestrator/orchestrator.py:234-269 | each agent is in the plan exactly when its keywords match (writing also on the fallback), with its task prefix |
| Orchestration.PlanDependencies | templates/multi-agent-orchestrator/orchestrator.py:244-262 | every dependency is an agent of a strictly earlier step; analysis depends on research if planned; writing on analysis if planned, else research |
| Orchestration.DepContextSpec | templates/multi-agent-orchestrator/orchestrator.py:290-295 | a step's context holds exactly its dependencies with successful results, each once, with its own data |
| Orchestration.ResultsAfterKeys | templates/multi-agent-orchestrator/orchestrator.py:280-307 | there is a result exactly for each planned agent, and it is that agent's |
| Orchestration.ResultsAfterStep | templates/multi-agent-orchestrator/orchestrator.py:283-299 | with distinct agents, each step's stored result is its run on the context from the results before it |
| Orchestration.PlanDependenciesRunFirst | templates/multi-agent-orchestrator/orchestrator.py:283-295 | in a plan, every dependency of a step already has a result when the step runs |
| Orchestration.ExecutePlan | templates/multi-agent-orchestrator/orchestrator.py:273-307 | the loop returns exactly the results of running the steps in order |
| Orchestration.SynthesizeCases | templates/multi-agent-orchestrator/orchestrator.py:309-340 | nothing succeeded gives the all-failed message; a successful writer's text wins; otherwise the research then analysis sections of those that succeeded |
| Orchestration.RunOrchestrator | templates/multi-agent-orchestrator/orchestrator.py:190-222 | the answer is the synthesis of running the plan of the task |
| Orchestration.UnmatchedAnswer | templates/multi-agent-orchestrator/orchestrator.py:264-340 | a task matching no keyword is answered by the writer on the raw task, or by the all-failed message when its call raises |
| Orchestration.GreetingIsUnmatched | templates/multi-agent-orchestrator/orchestrator.py:234-239 | "Hi" matches no keyword |
| Strings.NatToStringRoundTrip | templates/agent-memory/agent.py:220 | the decimal text of a count reads back as that count |

## Left out

- Language-model calls: the model is a parameter. The memory agent's call, its `StatefulAgent` wrapper and fact extraction are not part of this model. So are the demo entry points.
- Token counting: `count_tokens` (tiktoken) is the parameter `tokens`. Its encoding fallback is not modelled.
- Persistence: `save`/`load`, the memory file path and JSON encoding are left out. Only the choice of the last 20 conversation entries is modelled (`SavedConversation`).
- Timestamps: message and fact timestamps are dropped. The breaker's clock is integer microseconds, passed in by the caller.
- Tools: the mock tools and their randomness are oracles indexed by the history, the call and the attempt. `json.dumps` of dictionary results is assumed already applied to their text.
- Retry timing: the exponential backoff sleeps and their logging do not change any value and are left out.
- Tool arguments: `json.loads` of the arguments is not modelled. A malformed argument text would raise outside the error handling and end the run.
- Message content: replies are modelled as strings. The chat API may return `None` content, and that case is not modelled.
- Synthesize: it renders absent data as "None". Python would return `None` itself when a successful writer had no content.
- Lower-casing: `str.lower` is modelled for ASCII letters only.
- Output: logging, printing and the orchestrator's token-usage metadata are left out.
- RobustAgent.RobustSpec: it does not state the content of each tool entry. That content depends on the breaker state left by earlier calls, which the history does not record; `RobustAgent.RunCalls` and `RobustAgent.Observe` fix it call by call.
- Breaker instance: the module-level breaker singleton is an explicit `CircuitBreaker` object handed to the agent loop.
- Concurrency: none; asynchronous or parallel execution is not modelled.
- Model determinism: the model is a function, so two calls shown the same input get the same reply. Different replies to a growing history are still covered, because the history only grows.
- The orchestrator's unused `context` dictionary (`multi-agent-orchestrator/orchestrator.py:281`) has no counterpart.
