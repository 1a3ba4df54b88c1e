# A verified model of anie

This project models, in Dafny, the state machines at the heart of the coding agent anie and
proves what they keep over every run:

- **The agent run** (`Sanitizer`, `SanitizerResults`, `Pairing`, `StreamCollector`, `StreamProofs`,
  `StreamOutcomes`, `ToolBatch`, `ToolOutcomes`, `AgentRun`, `AgentRunProofs`, `AgentRunRequests`,
  `AgentRunOutcomes`): the Read/Eval/Print/Decide stepper with its
  two message logs, the collector that turns provider deltas into messages and events, parallel
  and sequential tool batches, and the sanitizer in front of each provider request.
- **The interactive controller** (`RetryPolicy`, `CompactionGate`, `Controller`,
  `ControllerProofs`, `ControllerResults`, `ControllerLog`, `ControllerTermination`,
  `ControllerCommands`): one run at a time, an armed
  retry between runs, the prompt queue, the per-turn compaction budget and the session log.
- **The OAuth refresh lock** (`RefreshLock`, `RefreshProofs`): any number of processes that share
  one credential entry, an advisory lock, and a server that rotates refresh tokens as section 6
  of RFC 6749 allows.
- **The credential store** (`CredentialStore`): keyring, `auth.json` and `auth.json.migrated`.
- **Two small structures** (`ModelCatalog`, `ToolRegistry`).

Code that changes state is written as classes and methods, each proved against a specification
function on plain values (`AgentRun.Next`, `Controller.Step`, `RefreshLock.Step`, ...); the
theorems are then about these functions, for every input, schedule and sequence of events.
Everything from outside (provider streams, tool results, hooks, user actions, clocks, I/O
failures, the choice of the scheduler) is an input that the theorems quantify over.

## Hypotheses

- Pairing of calls and results assumes that the history a run starts from, what hooks inject and
  what the gate puts in place of the context are well paired themselves. Injected messages that
  carry unpaired calls are outside the theorem.
- The session log is a sequence of prompts and outcomes, and appending to it does not fail.
- The controller's theorems are about states at the head of its loop. What a fatal error leaves
  behind has theorems of its own (`ControllerLog.CrashesIff` and those after it).
- The refresh is one provider's entry, and nobody logs in meanwhile. The server rejects a refresh
  token that is not the current one.

## What turned out false

- *Every refresh presents the server's current token.* It does if and only if the entry held it at
  the start and no earlier step lost a rotation: a save that writes nothing, a reply that never
  arrives, or a process that dies before it saves (`RefreshProofs.CallIsCurrentIff`,
  `EveryCallIsCurrentIff`, `LostExactlyThen`; a run that fails: `FailedSaveMakesTheNextCallStale`).
- *Every prompt in a session gets an outcome.* The log owes exactly one outcome for each panicking
  run and, after a move to another session, what that session's log owed, less a prompt that the
  misplaced breadcrumb of an armed retry answers (`ControllerLog.LogOwesExactly`,
  `UnansweredWithoutMoves`, `UnansweredSinceMove`); it alternates prompts with outcomes if and only
  if it owes nothing (`EveryPromptIsAnsweredIff`). The log that a move leaves behind keeps an open
  prompt exactly if a retry was armed (`MoveStrandsAnArmedRetry`).
- *No prompt is left dangling.* A fatal error leaves one open exactly if something was in flight
  (a retry armed, or a run), or if it came between logging a prompt and starting its run
  (`ControllerLog.CrashesIff`, `FatalErrorLeavesPromptOpenIff`, `CrashedLogOwesExactly`). For
  instance, `/compact` cancels an armed retry only after the compaction, so one that fails leaves
  that retry's prompt open.
- *Automatic compactions stay within `max_per_turn`.* A turn exceeds it exactly if it is 0 and the
  context was compacted before the prompt, which does not ask the budget
  (`ControllerResults.OverspentIff`, `BudgetIsNotAskedBeforeThePrompt`).
- *`get_credential` sees what `get` sees.* It falls back per file, so an OAuth entry that a
  migration left in `auth.json.migrated` disappears as soon as `auth.json` exists again, though the
  comment at crates/anie-auth/src/store.rs:130-134 promises it to the refresh
  (`CredentialStore.GetCredentialAgreesIff`, `MigrationThenSetHidesOAuth`).
- *A stored credential is read back by `get`.* Not if the keyring holds something else for the
  provider (`CredentialStore.StoredCredentialIsReadBack`, `StoredKeyIsReadBackIff`).
- *With the keyring disabled the files are one plain map.* Exactly unless a delete cannot write a
  file that holds the provider; if only `auth.json` was written, the provider's older credential in
  `auth.json.migrated` comes back (`CredentialStore.ApplyRefinesPlainIff`,
  `HalfDeleteBringsBackMigrated`).
- *A tool call's arguments are its own deltas.* With a repeated id all deltas go to the first call
  and later ones keep their initial arguments (`StreamProofs.ToolArguments`).
- *A cancelled run finishes within three steps.* Each step brings the end nearer exactly unless the
  follow-up hook answers it (`AgentRunRequests.CancelledStepAdvancesIff`, `CancelledRunIsBounded`).
- *The NUL-joined key is injective.* Models of two providers can share a key if and only if one
  provider is the other followed by a NUL and perhaps more; deduplicating keeps the last model of
  every address if and only if no two models of the catalog collide
  (`ModelCatalog.ProvidersCollideIff`, `KeepsLastAddressesIff`).

## Model

| member | source | states |
|---|---|---|
| Sanitizer.ContextNeedsSanitization | crates/anie-agent/src/agent_loop.rs:1737-1782 | the fast path answers true exactly if sanitizing would change the context, for all flags |
| Sanitizer.SanitizeContextForRequest | crates/anie-agent/src/agent_loop.rs:1706-1731 | the request is the sanitized context, borrowed exactly when nothing changes |
| Sanitizer.KeepBlocksUnchangedIff | crates/anie-agent/src/agent_loop.rs:1784-1835 | filtering an assistant's blocks changes nothing exactly if each block may be kept |
| Sanitizer.UnchangedIffEachUnchanged | crates/anie-agent/src/agent_loop.rs:1706-1782 | sanitizing a context is the identity exactly if it is on each message |
| Sanitizer.SanitizeConcat | crates/anie-agent/src/agent_loop.rs:1706-1731 | sanitizing works message by message: it distributes over concatenation |
| Sanitizer.SanitizeIdempotent | crates/anie-agent/src/agent_loop.rs:1706-1835 | sanitizing twice is sanitizing once, so its output never needs sanitizing |
| Sanitizer.SanitizedIsRequestReady | crates/anie-agent/src/agent_loop.rs:1784-1835 | in a sanitized context no assistant failed or is empty, and no block is one the replay flags forbid |
| SanitizerResults.SanitizesExactly | crates/anie-agent/src/agent_loop.rs:1784-1835 | dropped are exactly failed assistants and those without non-blank text, image or tool call, and of the others exactly blank text and thinking and the reasoning that the flags forbid; all else stays, in order |
| SanitizerResults.KeepsRemaining | crates/anie-agent/src/agent_loop.rs:1784-1835 | the same for one assistant's blocks, and when something visible is left |
| SanitizerResults.WhitespaceByCodePoint | crates/anie-agent/src/agent_loop.rs:1800-1806 | white space is what Unicode says, code point by code point |
| SanitizerResults.BlankIffTrimsToNothing | crates/anie-agent/src/agent_loop.rs:1800-1806 | blank means that trimming both ends leaves nothing |
| Pairing.SanitizeKeepsPairing | crates/anie-agent/src/agent_loop.rs:1706-1835 | sanitizing a well-paired context leaves it well paired: no assistant that got results is dropped |
| Pairing.WellPairedIffPairedOnTheWire | crates/anie-agent/src/agent_loop.rs:228-233 | the left-to-right scan accepts exactly the contexts in which results follow their calls at once, same ids, same order, and none is orphaned |
| Pairing.SanitizedIsPairedOnTheWire | crates/anie-agent/src/agent_loop.rs:901-930 | what is sent for a well-paired context is paired in that declarative sense |
| Pairing.ResultsClear | crates/anie-agent/src/agent_loop.rs:1362-1387 | results with the ids of a batch in its order answer exactly the calls that wait |
| StreamCollector.AssistantMessageBuilder.AddText | crates/anie-agent/src/agent_loop.rs:1959-1964 | extends the last block if it is text, else opens one |
| StreamCollector.AssistantMessageBuilder.AddThinking | crates/anie-agent/src/agent_loop.rs:1966-1973 | extends the last block if it is thinking, else opens one |
| StreamCollector.AssistantMessageBuilder.AppendToolCallDelta | crates/anie-agent/src/agent_loop.rs:1980-1989 | the first call with the id gets the delta; an unknown id changes nothing |
| StreamCollector.AssistantMessageBuilder.FinishToolCall | crates/anie-agent/src/agent_loop.rs:1991-1995 | the first call with the id parses its buffer |
| StreamCollector.FindTool | crates/anie-agent/src/agent_loop.rs:2027-2033 | the position found is the first tool call with the id, and none exists if nothing is found |
| StreamCollector.StartDeltaIfNeeded | crates/anie-agent/src/agent_loop.rs:1329-1346 | closes another kind and opens this one, or does nothing if it is open |
| StreamCollector.FinishActiveDelta | crates/anie-agent/src/agent_loop.rs:1348-1360 | closes whatever is open |
| StreamCollector.HandleEvent | crates/anie-agent/src/agent_loop.rs:1262-1308 | one event changes builder and trace as specified, and the active delta stays the kind of the builder's last block |
| StreamCollector.HandleEvents | crates/anie-agent/src/agent_loop.rs:1226-1327 | the loop consumes exactly the events before cancellation, Done, failure or the end |
| StreamCollector.CollectStream | crates/anie-agent/src/agent_loop.rs:1226-1327 | the collected assistant and error, and everything sent, for each way the stream can end |
| StreamProofs.LiveBrackets | crates/anie-agent/src/agent_loop.rs:1226-1360 | after any events the deltas sent bracket properly, and what is open is the kind of the builder's last block |
| StreamProofs.StreamBracketsClosed | crates/anie-agent/src/agent_loop.rs:1310-1360 | brackets never nest and are all closed before MessageEnd |
| StreamProofs.ReplayRebuilds | crates/anie-agent/src/agent_loop.rs:1226-1327 | replaying the deltas sent rebuilds the builder's content exactly |
| StreamProofs.ReplayGivesMessage | crates/anie-agent/src/agent_loop.rs:1226-1327 | hence the final message can be rebuilt from the deltas alone |
| StreamProofs.ToolStatesAfter | crates/anie-agent/src/agent_loop.rs:1975-1995 | at any point a call holds its initial arguments and its own deltas in order, whatever is interleaved |
| StreamProofs.ToolArguments | crates/anie-agent/src/agent_loop.rs:1997-2095 | each finished call's arguments are those its own deltas give, wherever or however often it was ended; a call that repeats an id keeps its initial ones |
| StreamOutcomes.CollectedErrorIsTheStreams | crates/anie-agent/src/agent_loop.rs:1253-1322 | the collected error is that of the first failure if no cancellation or finished message comes before it, or the cut-stream error if nothing ends the stream |
| StreamOutcomes.MessageEndsAsItsStream | crates/anie-agent/src/agent_loop.rs:1253-1322 | stop reason, error text or finished message, one clause for each way a stream ends |
| StreamOutcomes.UnfinishedMessageShowsParts | crates/anie-agent/src/agent_loop.rs:1997-2025 | a message cut short shows every part that is not blank, or its error text if there is none |
| StreamOutcomes.StreamIsFramed | crates/anie-agent/src/agent_loop.rs:1232-1247 | an empty message opens the stream, the final one closes it, only deltas come between |
| StreamOutcomes.BuilderHoldsWhatWasStreamed | crates/anie-agent/src/agent_loop.rs:1959-1973 | the builder's text and thinking are what was streamed, in order, nothing lost |
| ToolBatch.ExecuteSingleTool | crates/anie-agent/src/agent_loop.rs:1389-1519 | one call's events and result message, refused, blocked or executed |
| ToolBatch.ExecuteSequential | crates/anie-agent/src/agent_loop.rs:1362-1387 | sequential mode runs the calls one after the other |
| ToolBatch.ExecuteParallel | crates/anie-agent/src/agent_loop.rs:1362-1387 | under any schedule, results in call order, equal to those of the calls run alone |
| ToolBatch.ExecuteToolCalls | crates/anie-agent/src/agent_loop.rs:1362-1387 | both modes |
| ToolBatch.TaskStepKeepsInvariant | crates/anie-agent/src/agent_loop.rs:1389-1519 | each small step of a task keeps its invariant and sends exactly what its new place adds |
| ToolBatch.EveryInterleaving | crates/anie-agent/src/agent_loop.rs:1362-1519 | under every interleaving each task's part of the trace is its start, the updates forwarded so far, and its end |
| ToolBatch.ExecutedAtMostOnce | crates/anie-agent/src/agent_loop.rs:1397-1440 | at any point a tool has run at most once, and never if it is unknown, invalid or blocked |
| ToolBatch.ParallelIsSequentialPerCall | crates/anie-agent/src/agent_loop.rs:1362-1519 | a completed batch gives each call the events, result and flag it would have alone, index by index |
| ToolBatch.ListenerSeesEachCallInOrder | crates/anie-agent/src/agent_loop.rs:1362-1519 | filtering the merged trace by an id used once gives start, updates in send order, end |
| ToolBatch.BatchShape | crates/anie-agent/src/agent_loop.rs:1362-1387 | results have the calls' ids in order, and a batch sends tool events only |
| ToolOutcomes.SingleCallIsAnswered | crates/anie-agent/src/agent_loop.rs:1405-1519 | error flag, content and details of every answer: the text of the first check that failed, or the tool's result or error unless the hook overrides it; details keep their fields and gain name, path and command only where absent |
| ToolOutcomes.ListenerHearsTheAnswer | crates/anie-agent/src/agent_loop.rs:1396-1519 | start with the arguments, the updates if the tool runs, and an end with the content, details and flag of the result message |
| ToolOutcomes.EachCallMeetsItsOwn | crates/anie-agent/src/agent_loop.rs:1443-1497 | in every schedule a call meets what its own hooks and tool did, and nothing of the others |
| ToolOutcomes.ChannelIsBounded | crates/anie-agent/src/agent_loop.rs:1468-1468 | at most 16 updates wait for the forwarder |
| ToolOutcomes.EveryCallIsAnswered | crates/anie-agent/src/agent_loop.rs:1362-1519 | so in both modes, under every schedule, each call is answered in its place |
| AgentRun.AgentRunMachine.constructor | crates/anie-agent/src/agent_loop.rs:802-824 | a run starts with the prompts appended and announced |
| AgentRun.AgentRunMachine.AppendToolResults | crates/anie-agent/src/agent_loop.rs:556-565 | results go to both logs in order |
| AgentRun.AgentRunMachine.FinishWithAssistant | crates/anie-agent/src/agent_loop.rs:1185-1224 | a preflight failure sends its assistant, TurnEnd and AgentEnd, and suppresses the tail one |
| AgentRun.AgentRunMachine.EvalModelTurn | crates/anie-agent/src/agent_loop.rs:871-964 | policy messages, the sanitized request, the stream or a preflight failure |
| AgentRun.AgentRunMachine.RunGate | crates/anie-agent/src/agent_loop.rs:972-1010 | the gate replaces the context only if it compacted, and a turn starts either way |
| AgentRun.AgentRunMachine.EvalStep | crates/anie-agent/src/agent_loop.rs:833-862 | evaluates the current intent |
| AgentRun.AgentRunMachine.PrintStep | crates/anie-agent/src/agent_loop.rs:1023-1102 | prints the observation: logs, steering messages, TurnEnd |
| AgentRun.AgentRunMachine.NextStep | crates/anie-agent/src/agent_loop.rs:1607-1666 | one step is `Next`; a finished run stays as it is |
| AgentRun.AgentRunMachine.Conclude | crates/anie-agent/src/agent_loop.rs:1675-1686 | one AgentEnd in all, and the result |
| AgentRun.PhasesMakeOneStep | crates/anie-agent/src/agent_loop.rs:1607-1666 | Eval, Print and Decide, written apart as in the code, compose to the one-step function |
| AgentRun.RunSteps | crates/anie-cli/src/controller.rs:1672-1684 | driving the machine gives the trace and the result of the specification |
| AgentRunProofs.RunIsHeard | crates/anie-agent/src/agent_loop.rs:1607-1686 | at every point the trace is a prefix of the grammar, and the turns heard are the generated messages |
| AgentRunProofs.FinishedTraceFitsGrammar | crates/anie-agent/src/agent_loop.rs:802-1224 | a finished run: AgentStart first, turns strictly alternate with one assistant each, one AgentEnd, last; and the TurnEnds concatenate to generated messages, AgentEnd payload and result |
| AgentRunRequests.EveryRequestIsPaired | crates/anie-agent/src/agent_loop.rs:871-1177 | on every model turn of every run the request is paired on the wire, and a finished run leaves paired logs |
| AgentRunRequests.EverySessionRequestIsPaired | crates/anie-cli/src/controller.rs:948-1049 | also across runs, retries and compactions whose outputs are persisted or dropped, each run with a model and replay flags of its own |
| AgentRunRequests.ContextShape | crates/anie-agent/src/agent_loop.rs:505-611 | the context is the last replacement (at first the initial context and the prompts), then an interleaving of the generated and injected messages since; over the whole run the generated ones are `generated_messages`, compactions or not |
| AgentRunRequests.SinceLastReplacement | crates/anie-agent/src/agent_loop.rs:972-1010 | as an equation: after the last compaction the context holds exactly the rest of both, counted by how much there was when it happened |
| AgentRunRequests.NeverReplaced | crates/anie-agent/src/agent_loop.rs:588-591 | without a compaction the base is the initial context and the prompts |
| AgentRunRequests.FinishedRunHasOutput | crates/anie-agent/src/agent_loop.rs:1185-1224 | a finished run generated an assistant first and only assistants and results |
| AgentRunRequests.CancelledRunExecutesOneBatch | crates/anie-agent/src/agent_loop.rs:1111-1177 | once cancelled at most one more batch is executed, and the run ends with it |
| AgentRunRequests.CancelledStepAdvancesIff | crates/anie-agent/src/agent_loop.rs:1111-1177 | a cancelled step brings the end nearer exactly unless the follow-up hook answers a clean reply |
| AgentRunRequests.CancelledRunIsBounded | crates/anie-agent/src/agent_loop.rs:1111-1177 | with any hooks at most three steps, and two for each time the hook answers |
| AgentRunRequests.CancelledRunFinishes | crates/anie-agent/src/agent_loop.rs:1111-1177 | without a follow-up hook a cancelled run finishes within three steps of any state |
| AgentRunRequests.FollowUpsOutliveCancellation | crates/anie-agent/src/agent_loop.rs:1111-1177 | with one it can go on to another model turn |
| AgentRunOutcomes.StepStopsIff | crates/anie-agent/src/agent_loop.rs:1111-1177 | which steps end a run, cancelled or not, and where each other step leads |
| AgentRunOutcomes.BatchLeadsToAnotherTurn | crates/anie-agent/src/agent_loop.rs:1157-1162 | after a batch that is not cancelled the run goes on to another model turn |
| AgentRunOutcomes.FinishedRunEndsWithAnswerIff | crates/anie-agent/src/agent_loop.rs:1111-1177 | a finished run ends with an assistant that failed or calls no tool, not with tool results, exactly unless it was cancelled during a batch |
| AgentRunOutcomes.TerminalErrorIsTheLastTurns | crates/anie-agent/src/agent_loop.rs:593-611 | a run's terminal error is exactly that of its last model turn, the stream's or the preparation's, and has ended the run |
| AgentRunOutcomes.FailedPreparationIsTheAnswer | crates/anie-agent/src/agent_loop.rs:901-960 | a preparation that fails is answered by an assistant with its error text |
| AgentRunOutcomes.RunRequestsExactly | crates/anie-agent/src/agent_loop.rs:889-950 | the requests of a run are, for each model turn that reaches the provider, all of the context then and of the policy's messages that is not to be dropped |
| AgentRunOutcomes.StartIsAnnounced | crates/anie-agent/src/agent_loop.rs:802-824 | AgentStart, TurnStart, then each prompt |
| AgentRunOutcomes.GateIsReported | crates/anie-agent/src/agent_loop.rs:972-1010 | the new transcript is sent exactly if the gate compacted, its reason exactly if it skipped |
| RetryPolicy.DecideUsesUpAllowance | crates/anie-cli/src/retry_policy.rs:110-240 | retries exactly below the error's own cap, compacts exactly on a first overflow with budget; each uses something up |
| RetryPolicy.GivesUpBecause | crates/anie-cli/src/retry_policy.rs:110-240 | exactly when each reason for giving up is given |
| RetryPolicy.RateLimitDelayIs | crates/anie-cli/src/retry_policy.rs:260-269 | a rate limit waits what was asked, at least 2 s, or 15 s |
| RetryPolicy.BackoffDelayIs | crates/anie-cli/src/retry_policy.rs:270-281 | other errors wait the initial delay times a power of the multiplier |
| RetryPolicy.RetryDelayMs | crates/anie-cli/src/retry_policy.rs:255-294 | within a quarter of the clamped base delay, and exactly that without jitter |
| CompactionGate.Budget.Spend | crates/anie-cli/src/compaction_gate.rs:121-126 | a saturating decrement |
| CompactionGate.ControllerCompactionGate.MaybeCompact | crates/anie-cli/src/compaction_gate.rs:68-157 | exactly when it compacts, skips or fails; budget spent exactly when it compacts; which events are sent |
| CompactionGate.OverIff | crates/anie-cli/src/compaction_gate.rs:76-83 | the threshold is exceeded exactly if there are tokens and with the reserve they exceed the window |
| Controller.InteractiveController.CancelRetry | crates/anie-cli/src/controller.rs:918-946 | an armed retry becomes a breadcrumb of the failed run, once |
| Controller.InteractiveController.StartPrompt | crates/anie-cli/src/controller.rs:948-1020 | breadcrumb first, then budget, prompt, compaction, run |
| Controller.InteractiveController.TryDrainQueuedPrompt | crates/anie-cli/src/controller.rs:219-232 | the front prompt is started |
| Controller.InteractiveController.Settle | crates/anie-cli/src/controller.rs:262-421 | persist, retry or compact and continue |
| Controller.InteractiveController.RunCompleted | crates/anie-cli/src/controller.rs:258-445 | the whole run-completion arm |
| Controller.InteractiveController.TryHandleAction | crates/anie-cli/src/controller.rs:525-886 | every user action |
| Controller.InteractiveController.Iterate | crates/anie-cli/src/controller.rs:246-497 | one iteration of the main loop is `Step` |
| Controller.InteractiveController.Run | crates/anie-cli/src/controller.rs:234-500 | the loop over any events is `After` |
| ControllerProofs.StepKeepsLoopHead | crates/anie-cli/src/controller.rs:234-500 | every event keeps the whole invariant of the loop head |
| ControllerProofs.EveryReachableState | crates/anie-cli/src/controller.rs:234-500 | so it holds in every reachable state |
| ControllerProofs.AcceptKeepsOrder | crates/anie-cli/src/controller.rs:539-617 | accepting keeps interrupts ahead, latest first, and follow-ups in order |
| ControllerProofs.DrainConserves | crates/anie-cli/src/controller.rs:219-232 | starting the front prompt loses and repeats none |
| ControllerResults.OneThingInFlight | crates/anie-cli/src/controller.rs:246-489 | a run and an armed retry never coexist; prompts queue only behind a run; an armed retry means an empty queue |
| ControllerResults.EachPromptStartedOnce | crates/anie-cli/src/controller.rs:219-232 | every accepted prompt is either waiting or was started, exactly once |
| ControllerResults.NextPromptIsDue | crates/anie-cli/src/controller.rs:527-617 | the next prompt is the latest interrupt or else the earliest follow-up, and no follow-up overtakes another |
| ControllerResults.TurnIsBounded | crates/anie-cli/src/controller.rs:965-1049 | budget left is allowance minus automatic compactions; these are at most max(1, allowance), one reactive; at most `max_retries + 2` runs a prompt |
| ControllerResults.OverspentIff | crates/anie-cli/src/controller.rs:965-994 | a turn exceeds its allowance exactly if that is 0 and the pre-prompt compaction ran; no later step changes this |
| ControllerResults.BudgetIsNotAskedBeforeThePrompt | crates/anie-cli/src/controller.rs:983-994 | a run in which that happens |
| ControllerLog.LogOwesExactly | crates/anie-cli/src/controller.rs:258-421 | after any events the unanswered prompts are what the events make the log owe, and the one in flight |
| ControllerLog.StepTally | crates/anie-cli/src/controller.rs:417-421 | only a panicking run and a session change alter what a log owes, each by how much |
| ControllerLog.UnansweredWithoutMoves | crates/anie-cli/src/controller.rs:417-421 | without a session change: unanswered at the start, plus panics, plus the one in flight |
| ControllerLog.UnansweredSinceMove | crates/anie-cli/src/controller.rs:753-831 | after one: unanswered in the new log less the prompt a misplaced breadcrumb answers, plus panics since, plus the one in flight |
| ControllerLog.AlternatesIff | crates/anie-cli/src/controller.rs:897-917 | no gap and no stray outcome exactly if the log strictly alternates prompts with outcomes |
| ControllerLog.EveryPromptIsAnsweredIff | crates/anie-cli/src/controller.rs:258-421 | the log alternates, its last prompt open exactly while something is in flight, if and only if it owes nothing |
| ControllerLog.EveryPromptIsAccountedFor | crates/anie-cli/src/controller.rs:258-421 | over all sessions, each prompt has one outcome, a panic, or is in flight |
| ControllerLog.EachOutcomeFollowsItsPrompt | crates/anie-cli/src/controller.rs:258-421 | without panics and session changes the log grows by each prompt followed by its outcome, which comes from a run started for that prompt |
| ControllerLog.RestingLogIsAnsweredIff | crates/anie-cli/src/controller.rs:417-421 | at rest all prompts are answered exactly if the events make the log owe none |
| ControllerResults.OutcomesNameTheirRuns | crates/anie-cli/src/controller.rs:373-383 | always: outcomes belong to distinct runs and distinct prompts in order, and a breadcrumb has the model its run was started with |
| ControllerResults.RunIsPersistedUnlessResumed | crates/anie-cli/src/controller.rs:262-444 | a returned run is persisted as it is, ahead of the next prompt, exactly unless it is retried or compacted and continued |
| ControllerLog.EveryUserMessageIsAnswered | crates/anie-cli/src/controller.rs:897-917 | at message level, in a log that owes nothing: an assistant stands between any two user messages, and after the last one at rest |
| ControllerLog.MoveStrandsAnArmedRetry | crates/anie-cli/src/controller.rs:753-831 | replacing the session leaves the old prompt open exactly if a retry was armed, and puts its breadcrumb in the new log |
| ControllerLog.CrashesIff | crates/anie-cli/src/controller.rs:514-523 | which events end the controller with an error: exactly the failing commands and the failing summarizer, also when a queued prompt is drained |
| ControllerLog.FatalErrorLeavesPromptOpenIff | crates/anie-cli/src/controller.rs:745-757 | such an error leaves a prompt open exactly if something was in flight or the prompt had just been logged |
| ControllerLog.CrashedLogOwesExactly | crates/anie-cli/src/controller.rs:948-1020 | over whole runs, what the log owes when the controller ended that way |
| ControllerTermination.StepUsesUp | crates/anie-cli/src/controller.rs:264-483 | every run end and deadline lowers the rank, and no run is started that was not allowed for |
| ControllerTermination.ComesToRest | crates/anie-cli/src/controller.rs:264-497 | without user actions only `Rank` run ends and deadlines happen, and at most `max_retries + 2` runs start per prompt in flight or queued |
| ControllerTermination.NeverStuck | crates/anie-cli/src/controller.rs:246-489 | something in flight can always go on; otherwise nothing is queued |
| ControllerTermination.QuitLeadsToStop | crates/anie-cli/src/controller.rs:491-497 | after Quit the controller serves only while something is in flight |
| ControllerCommands.BeginsAsConfigured | crates/anie-cli/src/controller.rs:155-177 | a controller begins idle, with what it was given |
| ControllerCommands.RunIsCancelledIff | crates/anie-cli/src/controller.rs:580-639 | a run becomes cancelled by exactly Abort, AbortAndQueuePrompt, Quit and a closed interface, stays so, and a new one is not; nothing else about it changes |
| ControllerCommands.InFlightIsCancelledIffAsked | crates/anie-cli/src/controller.rs:246-257 | over whole runs: what is in flight is cancelled exactly if that was asked since it was started |
| ControllerCommands.SettingsChangeIff | crates/anie-cli/src/controller.rs:640-684 | model and allowance are what the last settings change let through left, for the model also the last session moved to |
| ControllerCommands.StopsIff | crates/anie-cli/src/controller.rs:438-497 | an event stops the controller exactly if nothing is left in flight and it is quitting, the interface is gone, or a one-shot run has ended |
| ControllerCommands.OneShotEnds | crates/anie-cli/src/controller.rs:438-444 | left alone, a one-shot controller serves only while busy, and has stopped or failed after `Rank` run ends and deadlines |
| ControllerCommands.IdleControllerTakesPrompt | crates/anie-cli/src/controller.rs:527-617 | with nothing running every prompt is logged and gets a fresh run under the current model |
| ControllerCommands.BusyControllerQueuesPrompt | crates/anie-cli/src/controller.rs:527-617 | with a run active a submitted prompt is refused and a queued one accepted, at the back or ahead |
| ControllerCommands.LookingChangesNothing | crates/anie-cli/src/controller.rs:736-880 | queries change nothing |
| ControllerCommands.RunIsResumedAsItWas | crates/anie-cli/src/controller.rs:275-342 | a retry is armed with the run's error, model and next attempt; a compacted run continues as the same attempt |
| ControllerCommands.DeadlineResumesWhatWasArmed | crates/anie-cli/src/controller.rs:479-482 | the deadline starts exactly the run that was armed |
| ControllerCommands.RetryIsGivenUpIff | crates/anie-cli/src/controller.rs:888-946 | which events give up an armed retry, each leaving its breadcrumb; nothing else touches it |
| ControllerCommands.BudgetIsSpentExactly | crates/anie-cli/src/controller.rs:965-994 | a turn begins with the allowance as it is then, and exactly the automatic compactions are counted |
| RefreshLock.OAuthRefresher.ReadCached | crates/anie-auth/src/refresh.rs:161-171 | the fast path returns a token with headroom or an error, or goes on to the lock |
| RefreshLock.OAuthRefresher.AcquireLockBlocking | crates/anie-auth/src/refresh.rs:281-326 | gets the lock, fails on I/O, or times out, and that only after its deadline; it always ends |
| RefreshLock.OAuthRefresher.Refresh | crates/anie-auth/src/refresh.rs:208-213 | the tokens to save exactly if the server granted them |
| RefreshLock.OAuthRefresher.RefreshUnderLock | crates/anie-auth/src/refresh.rs:196-237 | under any interference, its outcome is the protocol's |
| RefreshLock.OAuthRefresher.ResolveAccessToken | crates/anie-auth/src/refresh.rs:161-194 | among arbitrary other processes the code is a run of the protocol and returns its outcome |
| RefreshProofs.StepKeeps | crates/anie-auth/src/refresh.rs:161-326 | every step of every process keeps lock, token and call invariants |
| RefreshProofs.NearExpiryIsThirtySeconds | crates/anie-auth/src/refresh.rs:329-338 | a token is refreshed from 30 seconds before its expiry on |
| RefreshProofs.ReadingAnswers | crates/anie-auth/src/refresh.rs:161-206 | what each entry is answered with, outside the lock and in it |
| RefreshProofs.TryingTheLockAnswers | crates/anie-auth/src/refresh.rs:306-325 | a free lock is taken, a held one awaited until the deadline |
| RefreshProofs.RefreshingAnswers | crates/anie-auth/src/refresh.rs:208-236 | a token is returned exactly if the server granted it and it was written without error |
| RefreshProofs.LeavingAnswers | crates/anie-auth/src/refresh.rs:177-194 | unlocking frees the lock and keeps the answer |
| RefreshProofs.MutualExclusion | crates/anie-auth/src/refresh.rs:177-184 | at most one process is between lock and unlock |
| RefreshProofs.CallIsCurrentIff | crates/anie-auth/src/refresh.rs:196-234 | a call presents the current token if and only if the entry held it at the start and no earlier step lost a rotation |
| RefreshProofs.EveryCallIsCurrentIff | crates/anie-auth/src/refresh.rs:161-234 | so all calls do if and only if no call follows a lost rotation |
| RefreshProofs.RefreshPresentsCurrentTokenIff | crates/anie-auth/src/refresh.rs:196-234 | the same of the calls on record; no process calls twice, and a timed-out one never |
| RefreshProofs.LostExactlyThen | crates/anie-auth/src/refresh.rs:208-234 | which steps lose a rotation |
| RefreshProofs.OneExpiryOneRefresh | crates/anie-auth/src/refresh.rs:161-237 | while new tokens stay clear of the 30 s margin, one expiry rotates once, and all who get a token get the new one |
| RefreshProofs.FailedSaveMakesTheNextCallStale | crates/anie-auth/src/refresh.rs:229-234 | a run in which a failed save makes the next call stale |
| CredentialStore.Store.Get | crates/anie-auth/src/store.rs:75-84 | keyring first, then both files as one map |
| CredentialStore.Store.GetCredential | crates/anie-auth/src/store.rs:275-279 | the structured credential of the first file that loads |
| CredentialStore.Store.ListProviders | crates/anie-auth/src/store.rs:240-252 | exactly the keys of both files as one map |
| CredentialStore.Store.Set | crates/anie-auth/src/store.rs:159-187 | keyring with mirror, or the file alone, with every failure |
| CredentialStore.Store.Delete | crates/anie-auth/src/store.rs:213-237 | all layers are tried and success means all succeeded |
| CredentialStore.Store.MigrateFromJson | crates/anie-auth/src/store.rs:113-156 | exactly when it does nothing, fails on a refused key with none of the refused written, or completes, and the state it leaves in each case |
| CredentialStore.DeletedFromLayer | crates/anie-auth/src/store.rs:427-446 | a successful removal takes out exactly this provider |
| CredentialStore.ApplyRefinesPlainIff | crates/anie-auth/src/lib.rs:360-395 | with the keyring disabled one operation, whatever writes fail, is one on a plain map exactly unless a delete misses a file that holds the provider |
| CredentialStore.ApplySucceedsIff | crates/anie-auth/src/store.rs:213-237 | and reports success exactly if its files are readable and its writes succeeded |
| CredentialStore.HalfDeleteBringsBackMigrated | crates/anie-auth/src/store.rs:221-231 | a delete that cannot write the migrated file brings its older credential back |
| CredentialStore.FilesRefineOneMap | crates/anie-auth/src/store.rs:75-252 | so is any sequence of operations in which no delete misses, other writes failing or not |
| CredentialStore.MigrationKeepsLookupIff | crates/anie-auth/src/store.rs:128-140 | after any part of a migration `get` is as before exactly if the keyring did not disagree |
| CredentialStore.MigrationIsDueAndComplete | crates/anie-auth/src/store.rs:86-156 | when a migration is due, and that it leaves every API key in the keyring and nothing else there changed |
| CredentialStore.CorruptFileIsLeftAlone | crates/anie-auth/src/lib.rs:365-378 | a file that cannot be read is never written |
| CredentialStore.FileIsRemovedIff | crates/anie-auth/src/store.rs:427-446 | a file goes away exactly with its last provider |
| CredentialStore.RenameKeepsLookup | crates/anie-auth/src/store.rs:142-148 | the rename changes no lookup and there is no second migration |
| CredentialStore.MigrationThenSetHidesOAuth | crates/anie-auth/src/store.rs:275-279 | after a migration and one `set` an OAuth entry is invisible to the refresh |
| CredentialStore.GetCredentialAgreesIff | crates/anie-auth/src/store.rs:275-279 | it agrees with the one map exactly if no migrated entry hides behind an `auth.json` without it |
| CredentialStore.StoredCredentialIsReadBack | crates/anie-auth/src/store.rs:413-430 | what the refresh saves it loads again; `get` sees it exactly if the keyring has nothing else |
| CredentialStore.StoredKeyIsReadBackIff | crates/anie-auth/src/store.rs:159-187 | when `get` returns the key just set |
| CredentialStore.KeyIsMirrored | crates/anie-auth/src/store.rs:159-187 | a key goes to the keyring and to the file, and either is enough |
| CredentialStore.DeleteTriesEveryLayer | crates/anie-auth/src/store.rs:213-237 | each layer that can be written loses the provider, whatever fails in the others |
| CredentialStore.DeletedIsGone | crates/anie-auth/src/store.rs:213-237 | after a successful delete nothing of the provider is left and nothing else changed |
| ModelCatalog.Catalog.Dedupe | crates/anie-cli/src/model_catalog.rs:507-525 | reverse, retain with a seen set, reverse gives the last occurrences |
| ModelCatalog.Catalog.RetainUnseen | crates/anie-cli/src/model_catalog.rs:518-523 | keeps the first occurrence of each key |
| ModelCatalog.Catalog.Upsert | crates/anie-cli/src/model_catalog.rs:491-501 | replaces the first model with the address or appends |
| ModelCatalog.KeepsLastOccurrences | crates/anie-cli/src/model_catalog.rs:503-525 | exactly the positions that are last with their key are kept, in order |
| ModelCatalog.DedupeIsClean | crates/anie-cli/src/model_catalog.rs:503-525 | keys are distinct and all still there, and deduplicating again changes nothing |
| ModelCatalog.KeyIsAddress | crates/anie-cli/src/model_catalog.rs:512-522 | the joined key tells models apart as their addresses do unless their providers clash |
| ModelCatalog.ProvidersCollideIff | crates/anie-cli/src/model_catalog.rs:512-522 | models of two providers can share a key exactly if one provider is the other with a NUL appended, and perhaps more |
| ModelCatalog.KeepsLastAddressesIff | crates/anie-cli/src/model_catalog.rs:503-525 | deduplicating keeps exactly the last model of every address if and only if no two models collide |
| ModelCatalog.DedupedIsUnique | crates/anie-cli/src/model_catalog.rs:503-525 | a deduplicated catalog addresses every model uniquely |
| ModelCatalog.UpsertKeepsUnique | crates/anie-cli/src/model_catalog.rs:491-501 | upsert keeps that, holds the model, and moves no other |
| ToolRegistry.Registry.Register | crates/anie-agent/src/tool.rs:171-183 | replaces the tool of that name and keeps list and validators in step |
| ToolRegistry.Registry.RebuildSortedDefinitions | crates/anie-agent/src/tool.rs:216-220 | the list is strictly sorted and holds exactly the tools' definitions |
| ToolRegistry.LessIff | crates/anie-agent/src/tool.rs:216-220 | the order is that of the dictionary |
| ToolRegistry.Registry.RegisterAll | crates/anie-agent/src/tool.rs:171-183 | a whole startup registers the last tool of each name |
| ToolRegistry.Registry.Validator | crates/anie-agent/src/tool.rs:188-190 | the validator of the tool now registered, none for an unknown name |
| ToolRegistry.ListIsUnique | crates/anie-agent/src/tool.rs:216-220 | the tools determine the sorted list |
| ToolRegistry.LastRegisteredWins | crates/anie-agent/src/tool.rs:171-183 | a name is registered exactly if some tool had it, and the last one won |
| ToolRegistry.OrderDoesNotMatter | crates/anie-agent/src/tool.rs:159-220 | tools with distinct names may be registered in any order |

## Left out

- Token usage and timestamps of messages, tracing, event delivery to a dropped receiver, status
  texts, the TUI, print and RPC modes, onboarding: presentation.
- JSON text, serde formats, JSON-schema validation: parsing and validating are function-valued
  parameters; object fields are a map.
- HTTP, OAuth endpoints, login flows, PKCE, file permissions, file locking itself: a refresh is one
  server step that may be refused or lose its reply.
- The session crate's cut points, token estimates, summarizer and compaction entries: the gate's and
  the pre-prompt compaction's results are inputs; a compaction leaves prompts and outcomes in the
  log.
- Session-log appends that fail, and `flush` on exit: a failed append is a fatal error in the code.
- Controller.InteractiveController.TryHandleAction: of what a failing command had already changed it
  models the settings, and that a session is replaced only by a command that succeeds; nothing reads
  the rest once the controller has ended.
- ToolBatch.ExecuteParallel: takes the schedule as an input instead of spawning tasks; its small
  steps (start, hooks, updates, forwarder, end) are those at which the tasks can interleave.
- RefreshLock.OAuthRefresher.ResolveAccessToken: the other processes act only at its pauses, at
  which any sequence of their steps may happen; between pauses it reads and writes atomically. The
  real save is a read-modify-write of a file shared by all providers.
- RetryPolicy.RetryDelayMs: real numbers in place of floating point.
- The 32-bit and 64-bit widths of counters, attempts and delays: unbounded here.
- Context-length, help and status actions: one action `Query` that changes no modelled state.
- Manual `/compact` is not counted as an automatic compaction, as in the code.
- ToolRegistry.Registry.Register: assumes a tool's definition never changes.
- ToolRegistry.SortByName: an insertion sort stands in for the library's sort.
- `effective_reserve`, `effective_tool_output_budget`, thinking levels, model selection order and
  provider default URLs: simple choices that would only add easy members.
