# skill-up: verified models of its protocols, parsers and state machines

skill-up evaluates agent skills: it expands evaluation cases into tasks, runs them
concurrently, and reports what happens as a log of events. This Dafny project models the
parts of it whose correctness depends on order, interleaving or a shared grammar, and
proves what they promise for all inputs, all runs and all interleavings.

- **Event protocol.** `EvalEvent` (payloads and their validation), `JsonlSink` (the file
  sink and its short-write loop), `Publishing` (sequence numbers and the sticky error) and
  `LifecycleSpec`/`Lifecycles` (the lifecycle as a step function on values, and as a class
  proved to take exactly those steps). `RunGrammar` says which logs are well formed, from
  the log alone. `LifecycleTheorems` proves that every call sequence, with any arguments,
  clock readings and sink failures, delivers a well-formed log; `LifecycleConverse` proves
  that every well-formed log is delivered by some run, so the grammar is exact. `RunShape`
  spells out what well-formed means at positions of the log. `EventLogText` reads the file
  back.
- **Planning and scheduling.** `TaskPlans` (BuildPlan), `EventPlans` (the announced plan),
  `PlanSnapshots` (which plans a lifecycle accepts), `Scheduler` (EvaluatePlan as
  interleaved steps), `Adapter`, `Composition` and `RunnerLoop` (scheduler, adapter and
  lifecycle together), `Heartbeats` (the heartbeat goroutine, its channels and the mutex) and
  `HeartbeatFlags` (its flags and events against the lifecycle's).
- **Texts.** `Templates` (the configuration-time resolver and the run-time renderer of
  `${...}`), `Shebang` (the `env -S` tokenizer and its inverse), `RecordReader` (the bounded
  JSONL reader), `JsonPath` (a parser and its grammar), `JudgeKeys` (a streaming key
  scanner against a predicate on JSON values).
- **Conversations.** `CodexEvents` (tool calls and their results), `TurnTemplates`
  (the placeholders of a message and the captures of a response), `MultiTurn` and
  `MultiTurnEngine` (turn isolation, token accounting, result shapes), `MultiTurnFilling`
  (which cases get stuck, and what is lost then).

Code that updates fields is a class or a method with loops; each such method is proved
equal to a function on values, and the theorems are about that function. A Go string is a
`string` with one `char` per byte. Randomness, clocks, agents, regular expressions and
`json.Marshal` are parameters. The mutexes make each lifecycle, publisher and sink method
one atomic step, which is how the value-level models take them.

Three findings:

- The configuration-time resolver does not always keep the run-time meaning of a template,
  even when environment values and defaults contain neither `$` nor `{`: in `$${A:-}{B}` an
  empty default brings a `$` and a `{` together, and the result is a new reference, for all
  run-time variables (`Templates.EmptyDefaultOpensReference`). `Templates.PreservedExactly`
  gives the exact condition, and `Templates.SolidIsPreserved` a condition on the template's
  own references.
- A multi-turn run whose agent cannot resume sessions returns an error and no results at
  all, so "an error entry exists iff an error is returned" fails for it, and results have
  one of the promised shapes exactly if the agent can resume (`MultiTurn.ShapedExactly`).
- However a multi-turn conversation ends, the session that it returns is the account of the
  sessions heard, those of the turns that got a reply, with one exception: when the template
  of a later turn cannot be filled in, internal/evaluator/multiturn.go:99-104 returns the
  session of the last turn as it came, and what the turns before it cost and said is lost
  (`MultiTurnFilling.LateFailureLosesTurns` is such a conversation). No check of the
  configuration rules such a case out, but the case alone decides. A conversation can only
  fail at the first turn with a placeholder that no earlier turn captures
  (`MultiTurnFilling.FailsOnlyThere`, `FailsExactlyThere`). So every agent's sessions are
  accounted for exactly if there is no such turn, or some turn before it accepts no response
  (`MultiTurnFilling.AccountedExactly`); tokens, and messages, are really lost with some
  agent exactly if the case can get stuck at its third turn or later
  (`MultiTurnFilling.LostExactly`), and no messages are lost when every turn re-reads the
  session (`MultiTurnFilling.ReReadLosesNoMessages`).

## Model

| member | source | states |
|---|---|---|
| EvalEvent.ElapsedMSRange | internal/evalevent/lifecycle.go:551-557 | every pair of clock readings gives a number of milliseconds below 2^53, and every number up to the bound is given by some pair |
| JsonlSink.WriteAllEffect | internal/evalevent/jsonl.go:65-78 | for any short writes and errors the write loop leaves a prefix of the record, and the whole record when it reports no error |
| JsonlSink.DeliverEffect | internal/evalevent/jsonl.go:41-79 | a delivered event leaves exactly its line in the file, a refused one some prefix of its line; an open sink with a clean environment takes every event within the size limit |
| JsonlSink.JSONLSink.Publish | internal/evalevent/jsonl.go:41-79 | the loop over short writes does what the value-level sink says, including which error is reported, and terminates |
| JsonlSink.JSONLSink.Close | internal/evalevent/jsonl.go:82-95 | the writer is closed once; later calls report the first result |
| Publishing.PublishEventEffect | internal/evalevent/publisher.go:120-164 | one publication delivers exactly one event, with the next number, or none; a failure other than an invalid payload blocks all later publications; the file stays the log's lines and at most a prefix of one more |
| Publishing.ClosePublisherEffect | internal/evalevent/publisher.go:174-185 | closing keeps log and file, blocks publication, and is idempotent |
| Publishing.Publisher.Publish | internal/evalevent/publisher.go:111-164 | the object does what the value-level publisher does, in the source's order of checks |
| Publishing.Publisher.Close | internal/evalevent/publisher.go:174-185 | the object does what the value-level close does |
| RunGrammar.LegalIsValid | internal/evalevent/event.go:121-348 | every payload that may follow a well-formed log passes its own validation |
| RunGrammar.ObservedSound | internal/evalevent/lifecycle.go:248-285 | in every well-formed log the result counts add up to the completed tasks, which are among the started ones, which are planned |
| LifecycleRuns.CompleteIterationLegal | internal/evalevent/lifecycle.go:288-311 | an iteration_completed that the lifecycle announces comes after every case_completed of the iteration and carries its results |
| LifecycleRuns.AllTasksCompleted | internal/evalevent/lifecycle.go:301-303 | the per-iteration counter equals the planned number only when every task of the iteration has completed |
| LifecycleRuns.CompleteCaseMoves | internal/evalevent/lifecycle.go:248-285 | the fields after CaseCompleted are what a reader of the log would compute, and the snapshot that follows reports them |
| LifecycleRuns.FinishLegal | internal/evalevent/lifecycle.go:314-349 | run_finished reports the same fold; a completed status only after every task and iteration has completed |
| LifecycleTheorems.StepKeeps | internal/evalevent/lifecycle.go:141-349 | every call, accepted or refused, keeps the run invariant; none builds a payload that fails its own validation |
| LifecycleTheorems.RefusedKeeps | internal/evalevent/lifecycle.go:314-333 | a refused call changes nothing, the start of the heartbeat included, but, for Finish, the request that the heartbeat stop |
| LifecycleTheorems.RunIsSafe | internal/evalevent/lifecycle.go:141-349 | for every sequence of calls and every sink failure the delivered log is well formed, the file is its lines and at most a prefix of one more, and the only publication failures are sink errors, the end of publication and sequence exhaustion |
| LifecycleConverse.DeliveredExactly | internal/evalevent/lifecycle.go:141-349 | the logs delivered by some run over some sink are exactly the well-formed logs whose events fit the sink |
| EventLogText.FileReadsBack | internal/evalevent/jsonl.go:41-79 | split at its newlines, the file is the records of the delivered events in order and then a prefix of at most one more, none if nothing failed |
| RunShape.Opening | internal/evalevent/lifecycle.go:153-166 | a log starts with run_started and then a preparing snapshot, and is numbered from 1 without gaps |
| RunShape.SnapshotsReplay | internal/evalevent/lifecycle.go:363-372 | every snapshot and every count in the log equals a replay of the events before it; only the final snapshot reports no running tasks |
| RunShape.PhasesGoForward | internal/evalevent/lifecycle.go:172-189 | phases never go back |
| RunShape.CaseStartsInOrder | internal/evalevent/lifecycle.go:221-245 | a case starts at most once, with its planned fields, after its iteration has started and before it has completed |
| RunShape.CaseCompletesInOrder | internal/evalevent/lifecycle.go:248-285 | a case completes at most once and only after it has started |
| RunShape.IterationInOrder | internal/evalevent/lifecycle.go:288-311 | an iteration starts and completes at most once, and completes after all of its cases |
| RunShape.FinishedIsLast | internal/evalevent/publisher.go:116-164 | only run_finished carries the last-event flag, directly after the finalizing snapshot, and nothing follows it |
| RunShape.CompletedRunIsComplete | internal/evalevent/lifecycle.go:238-344 | a run that ends completed has exactly one case_started and case_completed for every planned task, and exactly one iteration_started and iteration_completed for every planned iteration |
| PlanSnapshots.SnapshotPlan | internal/evalevent/lifecycle.go:452-499 | accepts exactly the acceptable plans, returns the maps they describe, and never reports a missing task index |
| PlanSnapshots.NoIndexMissing | internal/evalevent/lifecycle.go:493-497 | pigeonhole: as many distinct indices as tasks, each within the total, leave no index out |
| PlanSnapshots.AcceptableIsValid | internal/evalevent/lifecycle.go:452-518 | an accepted plan gives a snapshot with everything the lifecycle relies on |
| PlanSnapshots.ValidatePlan | internal/evalevent/lifecycle.go:96-105 | succeeds exactly on acceptable plans; its check for an inconsistent snapshot never fires |
| Lifecycles.NewLifecycle | internal/evalevent/lifecycle.go:108-138 | succeeds exactly for a publisher, an acceptable plan and an interval that is not negative; the new lifecycle has a positive interval and is in the initial state of the theorems |
| Lifecycles.Lifecycle.Start | internal/evalevent/lifecycle.go:141-169 | the object takes the value-level step: refusals, fields, both publications, and the heartbeat only if both succeed |
| Lifecycles.Lifecycle.SetPhase | internal/evalevent/lifecycle.go:172-189 | the object takes the value-level step |
| Lifecycles.Lifecycle.Heartbeat | internal/evalevent/lifecycle.go:192-199 | the object takes the value-level step |
| Lifecycles.Lifecycle.IterationStarted | internal/evalevent/lifecycle.go:202-218 | the object takes the value-level step |
| Lifecycles.Lifecycle.CaseStarted | internal/evalevent/lifecycle.go:221-245 | the object takes the value-level step |
| Lifecycles.Lifecycle.CaseCompleted | internal/evalevent/lifecycle.go:248-285 | the object takes the value-level step |
| Lifecycles.Lifecycle.IterationCompleted | internal/evalevent/lifecycle.go:288-311 | the object takes the value-level step |
| Lifecycles.Lifecycle.Finish | internal/evalevent/lifecycle.go:314-349 | the object takes the value-level step; the search for an unfinished iteration may go in any order |
| TaskPlans.BuildPlan | internal/evaluator/plan.go:40-78 | the triple loop builds one task for every iteration, case and configuration, in that order, with consecutive indices, for any inputs including counts below 1 and machine-integer overflow |
| TaskPlans.RowsAt | internal/evaluator/plan.go:62-73 | case c and configuration f are paired at position c*F + f of the iteration |
| EventPlans.BuiltTask | internal/evaluator/plan.go:56-73 | task (i, c, f) has index i*C*F + c*F + f + 1 |
| EventPlans.EvaluationEventPlan | internal/cli/run_events.go:277-320 | converts exactly the convertible plans, to the announced plan they describe |
| EventPlans.ExpandedDistinct | internal/evaluator/plan.go:80-89 | all announced tasks have distinct IDs and distinct indices |
| EventPlans.BuiltPlanAccepted | internal/evaluator/plan.go:40-89 | a plan that BuildPlan makes from lists that fit in memory passes evaluationEventPlan and snapshotPlan exactly if it has cases and configurations, every case is present with valid texts, every configuration is known, and iteration numbers and task total are safe integers |
| Scheduler.StepKeeps | internal/evaluator/evaluator.go:219-275 | every step of the scheduling loop, of a goroutine or of the canceller keeps the scheduler's invariant |
| Scheduler.LimitKept | internal/evaluator/evaluator.go:224-244 | in every interleaving at most the configured number of tasks runs at once |
| Scheduler.ReturnedMeans | internal/evaluator/evaluator.go:219-275 | a returned call holds no semaphore slot, has started a prefix of the task list, gave each started task its two callbacks in order with the result in its own slot, and reports no error only if every task ran |
| Scheduler.ResultsStay | internal/evaluator/evaluator.go:255 | a written result slot is never written again |
| Scheduler.OwnSlotOnly | internal/evaluator/evaluator.go:255 | a result slot is written only by its own task |
| Scheduler.NoDeadlock | internal/evaluator/evaluator.go:226-269 | until the call has returned some step can be taken |
| Scheduler.StepsRunOut | internal/evaluator/evaluator.go:226-269 | every step brings the end of the call closer |
| Adapter.EvaluationEventAdapter.RecordError | internal/cli/run_events.go:521-530 | the first error stays |
| Adapter.EvaluationEventAdapter.OnTaskStart | internal/cli/run_events.go:496-498 | makes the lifecycle's CaseStarted step and records its error |
| Adapter.EvaluationEventAdapter.OnTaskComplete | internal/cli/run_events.go:500-512 | makes the lifecycle's CaseCompleted step and records its error; an unknown status is recorded and changes nothing |
| Adapter.EvaluationEventAdapter.OnIterationStart | internal/cli/run_events.go:478-485 | makes the lifecycle's IterationStarted step for a safe number and records the error otherwise |
| Adapter.EvaluationEventAdapter.OnIterationComplete | internal/cli/run_events.go:487-494 | makes the lifecycle's IterationCompleted step for a safe number and records the error otherwise |
| Composition.EveryCallAccepted | internal/cli/run_events.go:478-512 | while an iteration is open, the lifecycle refuses no call of the adapter, in any interleaving and with cancellation anywhere |
| Composition.IterationMayComplete | internal/runner/runner.go:230-236 | when EvaluatePlan returns without an error, the lifecycle accepts the iteration's completion |
| RunnerLoop.BeginAccepted | internal/cli/run_events.go:124-144 | for an accepted plan the lifecycle accepts Start and then the executing phase, or a Finish in between |
| RunnerLoop.EveryRunAccepted | internal/runner/runner.go:191-246 | however an invocation ends, before an iteration or inside one, every callback and every call of the adapter so far was accepted, and Finish with any status but completed is |
| RunnerLoop.UncancelledRunAccepted | internal/runner/runner.go:191-246 | when no iteration fails, every callback around the iterations is accepted and Finish may report completed |
| Heartbeats.StepKeeps | internal/evalevent/lifecycle.go:413-450 | every step of a caller or of the heartbeat goroutine keeps the locking invariant |
| Heartbeats.ShutdownIsSafe | internal/evalevent/lifecycle.go:314-450 | in every interleaving a Finish that waits holds no mutex and waits for a goroutine that exists and was asked to stop; neither channel is closed twice; no event follows run_finished |
| Heartbeats.NoDeadlock | internal/evalevent/lifecycle.go:423-450 | until every call has returned some step other than a tick can be taken |
| Heartbeats.StepsRunOut | internal/evalevent/lifecycle.go:423-450 | every step other than a tick brings the end closer, so shutdown needs only finitely many |
| HeartbeatFlags.WorkIsStep | internal/evalevent/lifecycle.go:141-349 | what a caller does under the mutex changes the flags and events as the lifecycle's own step does, with one of the modelled outcomes |
| HeartbeatFlags.RoutineIsStep | internal/evalevent/lifecycle.go:413-450 | what the goroutine does under the mutex is the lifecycle's Heartbeat |
| Templates.ResolveEnvRefs | internal/config/customengine.go:431-485 | the loop replaces every terminated reference, left to right, and reports the first failure |
| Templates.RenderTemplate | internal/agent/custom.go:1227-1253 | the loop replaces every terminated reference, left to right, and reports the first failure |
| Templates.RenderIsValue | internal/agent/custom.go:1255-1281 | rendering a template gives the values of the items that resolving it leaves, and fails if resolving fails |
| Templates.OpensNothingPreserves | internal/config/customengine.go:397-485 | in every environment, resolving first changes no run-time result if it brings no `$` and `{` together before a `}` |
| Templates.PreservedExactly | internal/config/customengine.go:397-485 | when no environment value that rendering the resolved text looks up has a `$`, resolving first keeps every run-time result, or failure, exactly if it opens no new reference |
| Templates.ResolveThenRender | internal/config/customengine.go:155-529 | the exact condition for the source's built-in variable names |
| Templates.SolidIsPreserved | internal/config/customengine.go:397-529 | resolving first keeps every run-time result if each reference to another variable that resolves has a value that is not empty and has no `$` and no `{` |
| Templates.CodeVarsAreBuiltin | internal/agent/custom.go:1029-1074 | all variables that a custom engine renders with, those for kwargs and those for the rest, have built-in names |
| Templates.EmptyDefaultOpensReference | internal/config/customengine.go:519-524 | a template whose meaning resolving changes for all run-time variables: an empty default between `$` and `{` |
| Shebang.TokenizerState.TokenizeStepSingle | internal/judge/interpreter.go:485-492 | the step inside single quotes |
| Shebang.TokenizerState.TokenizeStepUnquoted | internal/judge/interpreter.go:520-555 | the step outside quotes, with separators, escapes, `\c` and a final backslash |
| Shebang.TokenizeShebangSplitString | internal/judge/interpreter.go:455-483 | the loop over the state object computes the tokens of the automaton, or the unterminated-quote error |
| Shebang.TokenizeInvertsLine | internal/judge/interpreter.go:485-555 | words in any spelling, with any separators and escaped separators between them, and then perhaps `\c` and anything or a last backslash, read back as exactly the words' texts |
| Shebang.TokenizeInvertsSpelling | internal/judge/interpreter.go:485-555 | words spelled with single quotes, double quotes with their two escapes, and backslashes, in any mixture within a word, read back as exactly their texts, if each word leaves something to see |
| Shebang.BackslashBeforeNul | internal/judge/interpreter.go:532-534 | a backslash before a NUL byte is dropped and the NUL byte kept |
| Shebang.TokenizeInvertsQuote | internal/evaluator/evaluator.go:1490-1492 | tokenizing the space-joined quotes of any byte strings gives back exactly these strings |
| Shebang.InterpreterFromArgs | internal/judge/interpreter.go:400-409 | skips the leading assignments and takes the base name of the next argument |
| Shebang.QuotedInterpreter | internal/judge/interpreter.go:419-427 | a quoted command line gives the same interpreter and arguments as the list itself |
| Shebang.ParseEnvShebang | internal/judge/interpreter.go:343-395 | the loop over env's flags ends at the interpreter that the recursive description finds |
| Shebang.SplitSpellingsAgree | internal/judge/interpreter.go:347-376 | `-S x`, `-Sx`, `--split-string x` and `--split-string=x` mean the same, for an empty x too |
| RecordReader.ReadRecords | internal/agent/codex.go:927-963 | however the buffer fragments the input, the records applied and the error are those of splitting the whole input at newlines; the first record over the limit is reported by its number |
| RecordReader.PiecesJoin | internal/agent/codex.go:927-963 | the pieces hold no newline and joined by newlines are the input |
| RecordReader.JoinPieces | internal/agent/codex.go:927-963 | any list of newline-free pieces is recovered from its join |
| CodexEvents.CodexParseState.ApplyEvent | internal/agent/codex.go:981-1111 | the state object takes the value-level step for each event |
| CodexEvents.EveryResultAnswersACall | internal/agent/codex.go:1000-1111 | for every event stream each tool result comes after a tool call with its ID in the same turn |
| CodexEvents.FinalMessage | internal/agent/codex.go:1033-1039 | the final message is the text of the last agent message |
| CodexEvents.Totals | internal/agent/codex.go:981-998 | token totals are the largest reported ones; turns are counted |
| CodexEvents.RunTurns | internal/agent/codex.go:1000-1088 | every message belongs to a turn that has begun |
| JsonPath.ParseSimpleJSONPath | internal/evaluator/multiturn.go:441-486 | the scan computes the recursive parse and terminates on every input |
| JsonPath.ParseIsSpelling | internal/evaluator/multiturn.go:441-505 | parsing gives these segments exactly if the path is a `$` and then a spelling of each of them |
| JsonPath.ParseInvertsPrint | internal/evaluator/multiturn.go:441-505 | parsing the canonical printing of segments gives the segments back |
| JudgeKeys.ScanValue | internal/judge/agent_judge.go:638-688 | the recursive scan of the decoder computes the value-level verdict |
| JudgeKeys.ScanAgrees | internal/judge/agent_judge.go:638-707 | on the tokens of any JSON value, before any others, the scanner consumes exactly the value, or fails for a key |
| JudgeKeys.ValidationMeans | internal/judge/agent_judge.go:633-707 | validation succeeds exactly if no object at any depth repeats a name, the root object has only "results", and objects directly in that array have only the four contract names |
| MultiTurn.TranscriptForLogicalTurn | internal/evaluator/multiturn.go:271-289 | isolates what the turn appended, stamped with its number, and says whether the session was re-read |
| MultiTurn.TranscriptHasPrefix | internal/evaluator/multiturn.go:293-303 | true exactly if roles and contents of the prefix agree |
| MultiTurn.ReachableTotalsAreBases | internal/evaluator/multiturn.go:208-303 | between two turns, and after the session of any turn has been absorbed, of one that ends the conversation too, the totals equal the bases and the aggregate transcript goes through the turns in order |
| MultiTurn.EveryConversationAccounted | internal/evaluator/multiturn.go:76-154 | however a conversation ends, the session returned has the transcript, tokens, duration and turn count of the account of the sessions heard; if a template fails, it is the last session heard, or none |
| MultiTurnFilling.FailsOnlyThere | internal/evaluator/multiturn.go:96-104 | a template can only fail at the first turn whose placeholders are not all captured by earlier turns, after exactly one session was heard in each turn before it, all of which accept some response |
| MultiTurnFilling.FailsExactlyThere | internal/evaluator/multiturn.go:96-151 | and it fails in exactly those conversations that complete every turn before that one and go on |
| MultiTurnFilling.AccountedExactly | internal/evaluator/multiturn.go:98-104 | every agent's sessions are accounted for exactly if every placeholder is captured by an earlier turn, or some turn before the first other one accepts no response |
| MultiTurnFilling.LostExactly | internal/evaluator/multiturn.go:98-104 | with some agent tokens are lost, and with some agent messages are, exactly if the case can get stuck at its third turn or later |
| MultiTurnFilling.ReReadLosesNoMessages | internal/evaluator/multiturn.go:98-104 | when every turn with a reply after the first re-reads the session, no messages are lost |
| MultiTurnFilling.LateFailureLosesTurns | internal/evaluator/multiturn.go:99-104 | a case with `{{x}}` in its third turn and no captures returns the second session and loses the tokens of the first |
| TurnTemplates.PlaceholdersAre | internal/evaluator/multiturn.go:306-322 | the placeholders of a message are exactly the words that occur in it between double braces |
| TurnTemplates.SubstitutesExactly | internal/evaluator/multiturn.go:306-322 | substitution succeeds exactly if every placeholder has a value, and otherwise reports exactly those that have none |
| TurnTemplates.PartsAreText | internal/evaluator/multiturn.go:306-322 | the parts that substitution keeps or replaces make up the message |
| TurnTemplates.CaptureVariables | internal/evaluator/multiturn.go:363-376 | the loop over the rules computes the captured variables, or the first failure |
| TurnTemplates.CapturesExactly | internal/evaluator/multiturn.go:363-376 | capturing succeeds exactly if every rule finds a value that is not empty, and then captures exactly the variables named |
| MultiTurn.ReReadConversation | internal/evaluator/multiturn.go:609-655 | when every turn with a reply after the first re-reads the session, the totals are the largest readings and the aggregate transcript has the words of the last session transcript, however the conversation ends, unless a template fails |
| MultiTurn.PerTurnConversation | internal/evaluator/multiturn.go:609-619 | when no turn re-reads the session, the totals are the sums over the turns with a reply, unless a template fails |
| MultiTurn.TranscriptOfConversation | internal/evaluator/multiturn.go:259-303 | the aggregate transcript goes through the turns in order, and its messages stamped k are exactly those that the k-th session added, unless a template fails |
| MultiTurn.ConversationShape | internal/evaluator/multiturn.go:96-154 | for an agent that can resume, results are numbered 1..n and are completed turns followed by nothing, an error, a failure, or a failure and skipped turns; an error entry exactly if an error is returned; the first and last shape cover every turn |
| MultiTurn.ShapedExactly | internal/evaluator/multiturn.go:83-154 | for any agent, the conversation has one of these shapes exactly if the agent can resume sessions |
| MultiTurn.MultiTurnStatus | internal/evaluator/multiturn.go:678-720 | the first error or failed turn decides; otherwise skipped or completed turns do |
| MultiTurn.StatusOfConversation | internal/evaluator/multiturn.go:678-720 | without an error a case with turns is never given an error or skip status, and fails exactly if its last result is a failed turn |
| MultiTurnEngine.ExecuteMultiTurn | internal/evaluator/multiturn.go:76-154 | the loop over the state object computes the conversation of the value-level model |
| MultiTurnEngine.MultiTurnState.AbsorbTurnSession | internal/evaluator/multiturn.go:208-257 | session ID, boundary transcript, totals and the normalized result of a turn |
| MultiTurnEngine.MultiTurnState.HandlePostCondition | internal/evaluator/multiturn.go:567-606 | fails exactly if the condition does not hold; adds a skipped entry for every remaining turn if the condition asks for it |
| MultiTurnEngine.MultiTurnState.BuildAggregateResult | internal/evaluator/multiturn.go:633-655 | the aggregate session of the value-level model |
| MultiTurnEngine.EvaluatePostCondition | internal/evaluator/multiturn.go:326-360 | true exactly if all required texts, one of the alternatives and none of the forbidden texts occur |

## Left out

- Attributes, invocation IDs, wall-clock times, nil payloads and the copying of payloads in the publisher: the sink may refuse any event, and equal payloads are equal values.
- Opening the event log file, and `eventRunStatus`, `joinDistinctErrors` and the path checks around it: plumbing.
- Memory limits: `BuildPlan` is modelled for any list lengths; Go refuses to allocate lists that are too long. Counters that count elements in memory are unbounded.
- The strict resolver and its regular expressions for secrets in internal/config/customengine.go: abstract predicates over the same loop.
- `RequiredErr`'s message trimming: which token fails is kept, its text is not.
- parseShebang's split of the whole line at whitespace: it collapses runs of spaces inside quotes before the tokenizer sees them, so the quoting theorem is about the `-S` body.
- JSON decoding in the Codex reader and the trimming of its lines: the event machine takes decoded events. The status text of an MCP item is modelled by whether it means success.
- Overflow of token counts in multi-turn accounting: counts are integers.
- Regular expressions and JSON paths in capture rules: each rule's extractor is an arbitrary function of the response. The texts of failure reasons are not modelled.
- Per-turn timeouts: the agent may fail at any turn.
- Heartbeats: of an event only matters whether it is run_finished; the payloads are in the lifecycle model.
- The number of spaces and other details of JSON text: tokens are what the scanner sees.
- Progress observers for the terminal, workspaces, reports, agents, runtimes, judges and credentials: input and output with no deep property.
