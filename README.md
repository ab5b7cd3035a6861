# BaseAgent step engine, modelled in Dafny

This project models the step-execution engine of the `BaseAgent` class of
yu-ai-agent (`src/main/java/com/yupi/yuaiagent/agent/BaseAgent.java`). The
agent moves through the states IDLE, RUNNING, FINISHED and ERROR. It keeps a
step counter (`currentStep`), a step budget (`maxSteps`, 10 by default) and a
conversation memory (`messageList`). It has two ways to run:

- `run(userPrompt)` is blocking. It checks that the agent is IDLE and that
  the prompt is not blank, then records the prompt as a user turn. It calls
  the abstract `step()` until a step sets FINISHED or the budget is spent.
  Each result is recorded as `Step N: <text>`, and a truncation line is added
  when the budget is reached. The records are returned joined by newlines.
  When a step throws, the state becomes ERROR and only `执行错误` plus the
  exception message is returned. `cleanup()` runs on every path after the
  checks.
- `runStream(userPrompt)` runs the same loop in a background task. It sends
  each record to a server-sent-event emitter as soon as the step returns.
  Every terminating path goes through a completion guard, an `AtomicBoolean`
  claimed with `compareAndSet(false, true)`. Only the path that wins the
  claim may signal `complete()` or `completeWithError(ex)`. The emitter's
  timeout and completion callbacks claim the same guard.

How the model is built:

- `step()` is an oracle. `step(i)` is the outcome of the (i+1)-th call: it
  returns a text, sets FINISHED and returns a text, or throws with a message
  that may be null. Any outcome may first append turns to memory.
- `send` is an oracle too. The n-th send is delivered, fails with an
  `IOException`, or fails with an `IllegalStateException`.
- `Agent.BaseAgent` is a class with the Java fields. Its methods update them
  in place, with loops that carry their invariants.
- Each method is proved equal to a pure reference function:
  `Blocking.BlockingRun` for `run` and `Streaming.StreamRun` for the
  streaming task body. The properties of the engine are lemmas about those
  functions.
- The guard is the class `Completion.CompletionGuard`. Its state is the flag
  plus the log of terminal signals the emitter received. The pure
  `Completion.Claim` and `Completion.Replay` describe it.

Files:

- `text.dfy`: Java's decimal rendering of an `int`, `String.join`, and a
  split used to read a transcript back, plus `StrUtil.isBlank`.
- `agent_types.dfy`: states, memory turns, step and send outcomes, and the
  exact texts the engine produces.
- `step_loop.dfy`: the bounded early-exit loop both modes share.
- `blocking.dfy`: what `run` computes, and its properties.
- `completion.dfy`: the completion guard.
- `streaming.dfy`: what the streaming task body computes, and its
  properties.
- `agent.dfy`: the agent class, the emitter, and the callbacks.

Three behaviours of the code a reader might not expect:

- When a step throws, `run` returns `执行错误` followed by the exception
  message, with no separator. The records of the earlier steps are
  discarded, so the result contains no `Step 1: …` line
  (`Blocking.FailureAtStepTwo`).
- A consumer that closes the stream reaches the loop only through the
  completion callback, which sets FINISHED, and through sends that fail
  afterwards. If the callback runs before the loop checks its condition
  again, the loop stops after step 1 (`Streaming.ConsumerCloseBeforeStepTwo`).
  If it runs while step 2 is running, step 2 still runs and the loop stops
  when step 2's send fails (`Streaming.ConsumerCloseDuringStepTwo`). In both
  cases no terminal signal is sent.
- A rejected start of `run` throws a plain `RuntimeException`
  (`Agent.RunResult.Threw`). A rejected start of `runStream` throws nothing:
  it sends one explanatory event and completes the stream normally.

## Model

| member | source | states |
|---|---|---|
| Agent.BaseAgent.constructor | src/main/java/com/yupi/yuaiagent/agent/BaseAgent.java:37-47 | a new agent is IDLE, at step 0, with a budget of 10 and an empty memory |
| Agent.BaseAgent.SetMaxSteps | src/main/java/com/yupi/yuaiagent/agent/BaseAgent.java:41 | the budget becomes the value given, any int |
| Agent.BaseAgent.Step | src/main/java/com/yupi/yuaiagent/agent/BaseAgent.java:236 | a step appends its turns to memory and sets FINISHED if it finishes; the counter, the budget and the other state are left alone |
| Agent.BaseAgent.Cleanup | src/main/java/com/yupi/yuaiagent/agent/BaseAgent.java:241-243 | the hook counts one more cleanup and changes nothing else |
| Agent.BaseAgent.Run | src/main/java/com/yupi/yuaiagent/agent/BaseAgent.java:55-94 | not IDLE: throws the state message and changes nothing; IDLE and blank prompt: throws the empty-prompt message and changes nothing; cleanup is skipped in both cases, and the state check comes first. Otherwise exactly one user turn with the prompt is appended before the steps' turns, cleanup runs exactly once, and text, state, counter, memory and step calls are those of `Blocking.BlockingRun` |
| Agent.BaseAgent.RunLoop | src/main/java/com/yupi/yuaiagent/agent/BaseAgent.java:71-79 | the loop stops after k steps where only the k-th may finish or throw, and k is below the budget only if it did; the exception's message if the k-th threw, otherwise the records `Step 1..k`; the counter is k, or unchanged when no step ran; memory grows by the turns of those k steps, exactly k steps are called |
| Agent.BaseAgent.Execute | src/main/java/com/yupi/yuaiagent/agent/BaseAgent.java:69-93 | the try/catch/finally of `run` returns the text and leaves the state, counter, memory and step calls that `Blocking.BlockingRun` gives, with exactly one cleanup |
| Agent.Emitter.constructor | src/main/java/com/yupi/yuaiagent/agent/BaseAgent.java:104 | definition: a new emitter has sent nothing yet, and its sends answer as the given oracle says |
| Agent.Emitter.Send | src/main/java/com/yupi/yuaiagent/agent/BaseAgent.java:168-179 | every send is logged in order, and its outcome is the oracle's answer for that send's position |
| Agent.BaseAgent.StreamIteration | src/main/java/com/yupi/yuaiagent/agent/BaseAgent.java:159-179 | one pass: the counter is k+1 and step k+1 runs; if it throws, nothing is sent; otherwise its record is sent; the pass halts the loop iff the step threw or the send failed; only an IOException claims the guard with an error signal |
| Agent.BaseAgent.StreamLoop | src/main/java/com/yupi/yuaiagent/agent/BaseAgent.java:159-180 | the loop stops after k steps where every earlier step returned and had its record delivered; the records of steps 1..k-1, or 1..k if step k returned, were passed to `send`, and all but possibly the k-th were delivered; the guard is claimed with an error signal exactly when step k's send hit an IOException; counter, memory and step calls as for `run` |
| Agent.BaseAgent.StreamExecute | src/main/java/com/yupi/yuaiagent/agent/BaseAgent.java:157-208 | the try/catch/finally of the task body leaves state, counter, memory, step calls, sent events and guard exactly as `Streaming.StreamRun` says, with exactly one cleanup |
| Agent.BaseAgent.StreamBody | src/main/java/com/yupi/yuaiagent/agent/BaseAgent.java:126-209 | not IDLE, or IDLE with a blank prompt: sends the one matching error event, completes the stream normally and changes nothing else (no cleanup). Otherwise the prompt is appended and the task ends as `Streaming.StreamRun` says |
| Agent.BaseAgent.OnTimeout | src/main/java/com/yupi/yuaiagent/agent/BaseAgent.java:212-217 | the timeout callback sets ERROR, runs cleanup and claims the guard for normal completion |
| Agent.BaseAgent.OnCompletion | src/main/java/com/yupi/yuaiagent/agent/BaseAgent.java:219-227 | the completion callback changes the state only from RUNNING to FINISHED, runs cleanup, and claims the guard without a signal |
| Agent.CallbackEvent | src/main/java/com/yupi/yuaiagent/agent/BaseAgent.java:211-227 | definition: the timeout callback claims the guard for normal completion, the completion callback claims it without a signal |
| Agent.CallbackEvents | src/main/java/com/yupi/yuaiagent/agent/BaseAgent.java:211-227 | definition: the claims of a sequence of callbacks, one per callback, in firing order |
| Agent.CallbackState | src/main/java/com/yupi/yuaiagent/agent/BaseAgent.java:211-227 | definition: the timeout callback forces ERROR; the completion callback turns only RUNNING into FINISHED |
| Agent.CallbacksState | src/main/java/com/yupi/yuaiagent/agent/BaseAgent.java:211-227 | after callbacks fire in any order, the state is ERROR once a timeout has fired; otherwise FINISHED if the agent was RUNNING and a completion fired; otherwise unchanged; no non-empty sequence of callbacks leaves the agent RUNNING |
| Agent.BaseAgent.Fire | src/main/java/com/yupi/yuaiagent/agent/BaseAgent.java:211-227 | a fired callback changes the state as that callback does, runs cleanup once, and makes its own claim on the guard |
| Agent.BaseAgent.FireAll | src/main/java/com/yupi/yuaiagent/agent/BaseAgent.java:211-227 | callbacks fired in any order leave the state their sequence gives, run cleanup once each, and claim the guard in that order |
| Agent.BaseAgent.RunStream | src/main/java/com/yupi/yuaiagent/agent/BaseAgent.java:102-229 | callbacks fire before and after the task body. The task body starts from the state the earlier callbacks leave. It sends the one matching error event when not IDLE or given a blank prompt, and otherwise the events of `Streaming.StreamRun`. The agent ends with the counter, memory and step calls of that task body and the state the later callbacks make of it. Cleanup runs once per callback plus once for a task body that ran. The guard ends as the claims of the earlier callbacks, then those of the task body (`Streaming.EndRequests`, or normal completion after a refused start), then those of the later callbacks, leave it; so the one terminal signal is `completeWithError` exactly when an IOException on a send won the claim. The emitter gets at most one terminal signal, and exactly one unless the completion callback came first |
| Completion.CompletionGuard.constructor | src/main/java/com/yupi/yuaiagent/agent/BaseAgent.java:106 | the flag starts clear and nothing has been signalled |
| Completion.CompletionGuard.SafeCompleteWithError | src/main/java/com/yupi/yuaiagent/agent/BaseAgent.java:107-115 | error completion is signalled only by the call that wins the claim |
| Completion.CompletionGuard.SafeComplete | src/main/java/com/yupi/yuaiagent/agent/BaseAgent.java:116-124 | normal completion is signalled only by the call that wins the claim |
| Completion.CompletionGuard.MarkCompleted | src/main/java/com/yupi/yuaiagent/agent/BaseAgent.java:225 | the completion callback's claim sets the flag and signals nothing |
| Completion.Claim | src/main/java/com/yupi/yuaiagent/agent/BaseAgent.java:106-124 | one terminating call, defined as `compareAndSet(false, true)` followed by the winner's signal: afterwards the flag is set whatever the call, a guard with at most one signal and none before its flag was set keeps that property, and the signal log only grows, by at most one signal |
| Completion.Replay | src/main/java/com/yupi/yuaiagent/agent/BaseAgent.java:106-124 | definition: the guard after a sequence of terminating calls, applied in order |
| Completion.CompletedIsFinal | src/main/java/com/yupi/yuaiagent/agent/BaseAgent.java:106-124 | once the flag is set, no sequence of calls changes the guard again |
| Completion.FirstClaimWins | src/main/java/com/yupi/yuaiagent/agent/BaseAgent.java:106-124 | from a clear flag, only the first call of any sequence signals |
| Completion.AtMostOneSignal | src/main/java/com/yupi/yuaiagent/agent/BaseAgent.java:106-124 | any sequence of calls leaves at most one terminal signal |
| Completion.ReplayConcat | src/main/java/com/yupi/yuaiagent/agent/BaseAgent.java:106-124 | two rounds of calls, one after the other, act as their concatenation |
| Completion.OneTerminalSignal | src/main/java/com/yupi/yuaiagent/agent/BaseAgent.java:106-124 | callbacks, then a task ending that opens with a signalling call, then more callbacks: at most one signal, and exactly one unless the first callback only marked |
| StepLoop.ScanFrom | src/main/java/com/yupi/yuaiagent/agent/BaseAgent.java:71 | scanning from step i, the loop runs past i, within the budget, stopping before the budget only at a halting step |
| StepLoop.StepsRun | src/main/java/com/yupi/yuaiagent/agent/BaseAgent.java:71 | the loop runs no step on a budget of zero or less, and otherwise 1..maxSteps steps, stopping early only after a halting step |
| StepLoop.ExecutesUnique | src/main/java/com/yupi/yuaiagent/agent/BaseAgent.java:71 | the number of steps run is determined by the outcomes and the budget |
| StepLoop.StepLines | src/main/java/com/yupi/yuaiagent/agent/BaseAgent.java:72-78 | there is one record per step run |
| StepLoop.StepLinesAt | src/main/java/com/yupi/yuaiagent/agent/BaseAgent.java:72-78 | record j is `Step j+1: ` followed by step j+1's text, so step numbers run 1..k with no gaps |
| StepLoop.StepLinesNext | src/main/java/com/yupi/yuaiagent/agent/BaseAgent.java:72-78 | each step appends its record after the earlier ones |
| StepLoop.Added | src/main/java/com/yupi/yuaiagent/agent/BaseAgent.java:76 | definition: the turns the first k steps append to memory, in call order |
| StepLoop.AddedNext | src/main/java/com/yupi/yuaiagent/agent/BaseAgent.java:47 | memory after one more step is the earlier memory followed by that step's turns |
| StepLoop.AddedGrows | src/main/java/com/yupi/yuaiagent/agent/BaseAgent.java:47 | memory only grows: earlier memory is a prefix of later memory |
| Blocking.Halts | src/main/java/com/yupi/yuaiagent/agent/BaseAgent.java:71 | definition: in blocking mode a step stops the loop when it sets FINISHED or throws |
| Blocking.Ending | src/main/java/com/yupi/yuaiagent/agent/BaseAgent.java:80-89 | definition: after k steps, the failure text in ERROR if step k threw; otherwise the joined records, with the truncation line and FINISHED when the counter reached the budget |
| Blocking.BlockingRun | src/main/java/com/yupi/yuaiagent/agent/BaseAgent.java:71-93 | the loop's step count; memory grows by the steps' turns; when a step ran, the counter is the number of steps called and at most the budget, otherwise it keeps its old value; the state is never IDLE afterwards; it stays RUNNING only when no step ran and the stale counter is below the budget; it is ERROR iff the last step threw |
| Blocking.StoppedExecutes | src/main/java/com/yupi/yuaiagent/agent/BaseAgent.java:71 | a loop that stopped after k steps, with only step k finishing or throwing, ran exactly the steps the loop condition allows |
| Blocking.RunEndsAt | src/main/java/com/yupi/yuaiagent/agent/BaseAgent.java:71-89 | a run whose loop called k steps ends as the k-step ending says |
| Blocking.RunsWholeBudget | src/main/java/com/yupi/yuaiagent/agent/BaseAgent.java:71-85 | if steps never finish or throw, exactly maxSteps are called; the result is all the records plus the truncation line, and the state is FINISHED |
| Blocking.ZeroBudget | src/main/java/com/yupi/yuaiagent/agent/BaseAgent.java:71-85 | with maxSteps = 0, no step runs and the result is exactly `Terminated: Reached max steps (0)`, in FINISHED |
| Blocking.FinishesEarly | src/main/java/com/yupi/yuaiagent/agent/BaseAgent.java:71-84 | a step k below the budget that sets FINISHED stops the loop after k steps, with no truncation line |
| Blocking.FinishesAtBudget | src/main/java/com/yupi/yuaiagent/agent/BaseAgent.java:71-84 | a step that sets FINISHED at k = maxSteps still gets the truncation line |
| Blocking.ThrowDiscardsResults | src/main/java/com/yupi/yuaiagent/agent/BaseAgent.java:86-89 | a throw at step k: no later step runs, the state is ERROR, and the result is exactly `执行错误` plus the message, with earlier records discarded |
| Blocking.LinesFree | src/main/java/com/yupi/yuaiagent/agent/BaseAgent.java:77-83 | records and the truncation line contain no line break unless a step's text does |
| Blocking.NoEarlierThrow | src/main/java/com/yupi/yuaiagent/agent/BaseAgent.java:71-89 | only the last step called can have thrown, and none did unless the run is in ERROR |
| Blocking.SplitRecords | src/main/java/com/yupi/yuaiagent/agent/BaseAgent.java:77-85 | splitting the joined records (and the truncation line) at newlines gives them back |
| Blocking.TranscriptLines | src/main/java/com/yupi/yuaiagent/agent/BaseAgent.java:71-85 | a successful result read back line by line is `Step 1..k` in order, each with its step's text, followed by the truncation line exactly when the budget was reached |
| Blocking.ThreeStepTranscript | src/main/java/com/yupi/yuaiagent/agent/BaseAgent.java:71-85 | budget 3, steps returning ok-1, ok-2, ok-3: the exact four-line result, in FINISHED |
| Blocking.FailureAtStepTwo | src/main/java/com/yupi/yuaiagent/agent/BaseAgent.java:86-89 | budget 5, step 2 throws "model unavailable": exactly `执行错误model unavailable`, in ERROR, after 2 steps |
| Streaming.Halts | src/main/java/com/yupi/yuaiagent/agent/BaseAgent.java:159-179 | definition: in streaming mode a step also stops the loop when its send fails, either way |
| Streaming.StreamEnding | src/main/java/com/yupi/yuaiagent/agent/BaseAgent.java:181-204 | definition: after k steps, ERROR and the failure event if step k threw; otherwise the truncation event and FINISHED when the counter reached the budget |
| Streaming.EndRequests | src/main/java/com/yupi/yuaiagent/agent/BaseAgent.java:170-192 | the task body always ends by requesting normal completion, and never claims without signalling |
| Streaming.StoppedExecutes | src/main/java/com/yupi/yuaiagent/agent/BaseAgent.java:159 | a loop that stopped after k steps, with every earlier step returning and delivered, ran exactly the steps the loop and its breaks allow |
| Streaming.StreamRun | src/main/java/com/yupi/yuaiagent/agent/BaseAgent.java:157-208 | the loop's step count; memory and counter as for `run`; ERROR iff the last step threw; one event per step called plus at most one closing event; the guard calls are those of `Streaming.EndRequests` |
| Streaming.StreamEndsAt | src/main/java/com/yupi/yuaiagent/agent/BaseAgent.java:159-204 | a task body whose loop called k steps ends as the k-step ending says |
| Streaming.EndGuard | src/main/java/com/yupi/yuaiagent/agent/BaseAgent.java:170-192 | the guard after the task body: an error claim if the last returning step's send hit an IOException, then the normal completion claim |
| Streaming.StreamsWholeBudget | src/main/java/com/yupi/yuaiagent/agent/BaseAgent.java:159-192 | if every send is delivered and no step finishes or throws, every record then the truncation event is sent, in FINISHED, with only normal completion requested |
| Streaming.TransportFailureStops | src/main/java/com/yupi/yuaiagent/agent/BaseAgent.java:168-192 | an IOException on step k's send: no later step runs, the error signal wins the guard, and the later normal completion is a no-op |
| Streaming.ClosedChannelStops | src/main/java/com/yupi/yuaiagent/agent/BaseAgent.java:175-192 | an IllegalStateException on step k's send: no later step runs, there is no error signal, and normal completion is still requested |
| Streaming.StepFailureCompletesNormally | src/main/java/com/yupi/yuaiagent/agent/BaseAgent.java:193-204 | a throw at step k: ERROR, the earlier records then `执行错误：` plus the message are sent, and the stream ends with normal completion, never an error signal |
| Streaming.StreamSignalsAtMostOnce | src/main/java/com/yupi/yuaiagent/agent/BaseAgent.java:157-208 | whatever steps and sends do, the task body leaves at most one terminal signal, and exactly one if the guard was still clear |
| Streaming.AgreesWithBlocking | src/main/java/com/yupi/yuaiagent/agent/BaseAgent.java:159-180 | when every send is delivered, streaming calls the same steps as `run` and ends with the same state, counter and memory |
| Streaming.ConsumerCloseBeforeStepTwo | src/main/java/com/yupi/yuaiagent/agent/BaseAgent.java:159-192 | the consumer closes after the first event and the completion callback runs before the loop checks its condition again: one step runs, only its event is sent, the agent ends FINISHED, and no terminal signal is sent |
| Streaming.ConsumerCloseDuringStepTwo | src/main/java/com/yupi/yuaiagent/agent/BaseAgent.java:159-192 | the consumer closes after the first event and the callback runs while step 2 runs: step 2's event is sent to a completed emitter, that send fails, two steps run, the agent ends FINISHED, and no terminal signal is sent |
| AgentTypes.StateName | src/main/java/com/yupi/yuaiagent/agent/BaseAgent.java:58 | definition: a state prints as its enum constant's name |
| AgentTypes.ExceptionText | src/main/java/com/yupi/yuaiagent/agent/BaseAgent.java:89 | definition: a null exception message prints as `null` |
| AgentTypes.StepLine | src/main/java/com/yupi/yuaiagent/agent/BaseAgent.java:77 | definition: the record `Step N: <text>` |
| AgentTypes.Truncation | src/main/java/com/yupi/yuaiagent/agent/BaseAgent.java:83 | definition: the line `Terminated: Reached max steps (N)` |
| AgentTypes.StreamTruncation | src/main/java/com/yupi/yuaiagent/agent/BaseAgent.java:186 | definition: the event `执行结束：达到最大步骤（N）` |
| AgentTypes.FailureReturn | src/main/java/com/yupi/yuaiagent/agent/BaseAgent.java:89 | definition: `执行错误` followed directly by the exception message |
| AgentTypes.FailureEvent | src/main/java/com/yupi/yuaiagent/agent/BaseAgent.java:198 | definition: `执行错误：` followed by the exception message |
| AgentTypes.NotIdleMessage | src/main/java/com/yupi/yuaiagent/agent/BaseAgent.java:58 | definition: `Cannot run agent from state: ` followed by the state |
| AgentTypes.BlankPromptMessage | src/main/java/com/yupi/yuaiagent/agent/BaseAgent.java:61 | definition: `Cannot run agent with empty user prompt` |
| AgentTypes.NotIdleEvent | src/main/java/com/yupi/yuaiagent/agent/BaseAgent.java:131 | definition: `错误：无法从状态运行代理：` followed by the state |
| AgentTypes.BlankPromptEvent | src/main/java/com/yupi/yuaiagent/agent/BaseAgent.java:140 | definition: `错误：不能使用空提示词运行代理` |
| Text.IntToString | src/main/java/com/yupi/yuaiagent/agent/BaseAgent.java:77 | definition: Java's decimal rendering of an int, with a minus sign for negatives |
| Text.Join | src/main/java/com/yupi/yuaiagent/agent/BaseAgent.java:85 | definition: `String.join`, the lines with the separator between consecutive ones |
| Text.IsBlank | src/main/java/com/yupi/yuaiagent/agent/BaseAgent.java:60 | definition: empty, or made only of blank characters |
| Text.NatToString | src/main/java/com/yupi/yuaiagent/agent/BaseAgent.java:77 | the decimal rendering of a step number is non-empty, all digits, with no leading zero |
| Text.ParseNatToString | src/main/java/com/yupi/yuaiagent/agent/BaseAgent.java:77 | reading the rendered number back gives the number |
| Text.IntToStringInjective | src/main/java/com/yupi/yuaiagent/agent/BaseAgent.java:77 | distinct step numbers render differently |
| Text.SplitJoin | src/main/java/com/yupi/yuaiagent/agent/BaseAgent.java:85 | joining lines without line breaks with `\n` and splitting again gives the lines back |

## Left out

- Threads and timing: the background task (`CompletableFuture.runAsync`) and
  the 300000 ms emitter timeout are not modelled. Callbacks are modelled as
  firing before or after the task body, in any order. A callback firing in
  the middle of the loop is not modelled. Such a callback could set FINISHED
  and so stop the loop early, or make a later send fail.
- Agent.BaseAgent.RunStream: its guarantee covers callbacks that fire before
  or after the task body, not those that interleave with it. Two such
  interleavings, a consumer closing the stream before or during step 2, are
  stated as lemmas about the task body alone
  (`Streaming.ConsumerCloseBeforeStepTwo`,
  `Streaming.ConsumerCloseDuringStepTwo`). Those lemmas leave out the cleanup
  that the callback runs.
- The `SseEmitter` transport is reduced to the send-outcome oracle, the log
  of sent events, and the log of terminal signals. An exception thrown by
  `complete()` or `completeWithError()`, which the guard swallows, is not
  modelled. Neither is the exception object itself: an error signal carries
  only its message.
- Logging (`log.info`, `log.warn`, `log.error`) is left out.
- `ChatClient`, Spring AI `Message` and `UserMessage` are foreign library
  types. A memory turn is a role and a text. The fields `name`,
  `systemPrompt`, `nextStepPrompt` and `chatClient` are not used by the
  engine and are left out.
- The concrete `step()` and `cleanup()` live in subclasses that are not part
  of this model. `step()` is an oracle, and `cleanup()` is a no-op whose calls
  are counted.
- Text.IsBlank: `StrUtil.isBlank` is modelled as "empty or only blank
  characters", over a fixed set of characters. These are Java's whitespace
  and space characters plus the three that Hutool adds: byte-order mark,
  left-to-right embedding and NUL. Newer Hutool versions add a few more
  fillers, and those are not included.
- A null prompt is not modelled, because a `string` cannot be null.
- The streaming `results` list is built but never read, so it is left out.
- The outer `catch` of the streaming preconditions
  (`BaseAgent.java:147-149`) cannot be reached. Both sends inside it already
  catch the only exceptions a send throws. It is left out.
- Java `int` overflow is not modelled, because integers are unbounded. The
  loop only ever sets the counter to `i + 1` with `i < maxSteps`, so the
  counter cannot overflow. When no step runs, for example with a budget of
  zero or less, the counter keeps its old value, which may exceed the budget.
- `StepOutcome.Throw` stands for a `java.lang.Exception` only. A
  `java.lang.Error` thrown by `step()` is caught by neither
  `catch (Exception e)`, at `BaseAgent.java:86` or at `BaseAgent.java:193`.
  `run` would rethrow such an error after cleanup and leave the state
  RUNNING, and the streaming task would end without any completion call.
  Neither case is modelled.
- `src/main/java/com/yupi/yuaiagent/tools/PDFGenerationTool.java` and
  `src/main/java/com/yupi/yuaiagent/tools/genaratorImg.java` are file and
  HTTP I/O around library calls. They are not part of this model.
