# OpenJarvis, modelled in Dafny

A model of the hard core of OpenJarvis, a chat-agent runtime: the chain from the channel router through
the session cache and store, the thread aggregate and the agent worker and loop, to the messages sent to
the model provider; and the memory repository, command sessions, hook quoting, attachment markers and tool
registry beside it. `dafny verify dfyconfig.toml` checks the whole project.

## How it is built

Every component that changes state step by step appears twice: as a class or a method with loops that
updates its fields in place, and as a function on values that says what one step does. The method's
`ensures` equates the two (`View() == Commit(env, old(View()), …)`), and what the code promises is then
proved about the function, over single steps and over whole runs.

| file | models |
|---|---|
| `Wrappers.dfy`, `Text.dfy`, `ChatModel.dfy` | options and results; trimming, finding, ASCII case and string order; chat messages |
| `OpenAiMessages.dfy` | the serializer of `src/llm.rs`, against a reference meaning of a history |
| `ThreadAggregate.dfy` | the `Thread` of `src/thread.rs` and its turn machine |
| `AgentLoop.dfy` | the agent loop, compaction and tool batches as functions of an environment |
| `AgentTurn.dfy` | what every step of one turn keeps |
| `ToolPairing.dfy` | the provider's pairing rule, and exactly when a batch meets it |
| `FailedBatches.dfy` | what a batch leaves however it ends, and exactly when a request can follow it |
| `NextRequests.dfy` | the request that does follow it, of the next iteration or of the next turn |
| `ToolRecords.dfy` | the thread's record of the tool calls it ran |
| `TurnContents.dfy` | what each message and event says, and a batch and a pass as a whole |
| `TurnTranscripts.dfy` | that everything a whole turn says was said by the user, the model, a tool or the summarizer |
| `TurnRuns.dfy` | whole turns, after any number of iterations |
| `TurnReplies.dfy` | which turns succeed, with what reply, and with what error the others fail |
| `AgentWorker.dfy`, `WorkerRuns.dfy` | one request from lock to completion event; what completion means; many requests |
| `LiveThread.dfy` | the loop and the worker as they run, in place, against the functions above |
| `SessionProtocol.dfy`, `SessionRuns.dfy` | interleaved snapshot and locked writers over a compare-and-swap store |
| `SessionLosses.dfy`, `SessionHandles.dfy` | exactly which refused edits are lost, and exactly when the cache can fall behind for good |
| `SessionStores.dfy` | the memory and SQLite stores against one abstract store |
| `StoreHistories.dfy` | what the stores hold after any calls, told by the calls alone |
| `Router.dfy` | the channel router |
| `MemoryMarkdown.dfy`, `MemoryPaths.dfy`, `MemoryRepository.dfy` | memory documents, their paths, and the keyword index |
| `CommandSessions.dfy` | command sessions and output truncation |
| `HookCommand.dfy`, `AttachmentSyntax.dfy`, `ToolRegistry.dfy` | shell quoting, attachment markers, tool visibility |

**Environment.** The model, the tools, the hooks, the summarizer, the store, other writers and the event
channel are oracles: functions of a step counter, so that they may answer differently at every step. A theorem
without a hypothesis on the environment holds for all of them. `SoleWriter` says that nobody else saves the
thread; `SendsSucceed` that the event channel stays open; `Reliable` that in addition no store call fails.
The agent loop has no bound of its own in the source; the model observes it for `n` iterations, and every
theorem is for all `n`.

**Recorded history.** `dispatched`, `requests`, `log`, `saves`, `conflicts`, `intact` and `torn` in `AgentLoop.Run`,
`accepted`, `refused`, `answered` and `completed` in `Router.RouterState`, and `applied` and `delivered` in
`CommandSessions.Session` record what happened. No branch reads them; they are ghost fields in the classes. `torn` changes
in two places only: a batch sets it by what it added to the log, and a compaction between batches clears it; each
request is recorded with its value. In `SessionProtocol` each edit carries a stamp, which no branch reads either, so
that an edit made again is not taken for the one that was lost.

## What the model shows of the code

Most of what the code is for holds, and is stated in the table below. These are the cases where it does not, each
with a lemma that exhibits it and, where the failure is conditional, its exact condition:

- **A request can leave its turn open, which wedges its thread.** The fallback's `begin_turn` then fails
  (`src/agent/worker.rs:520-523`), so no completion event is sent, no later request of that thread can complete
  (`WorkerRuns.OpenTurnDrops`), and the router keeps the thread pending and queues its messages for ever
  (`Router.BlockedForever`). It takes no more than a refused save of the user message (`src/agent/agent_loop.rs:509-518`),
  by a failing store, or by a snapshot writer that saved first and still waits for the worker's guard
  (`WorkerRuns.RefusedMessageLeavesTurnOpen`); or a history over budget and a failing summarizer
  (`src/agent/agent_loop.rs:523-536`, `WorkerRuns.FailedCompactionLeavesTurnOpen`). It happens if and only if the user
  message is refused, or the loop reaches an iteration that cannot prepare its request, that is over budget and
  cannot compact, or that fails and cannot commit the reply that says so (`WorkerRuns.LiveLeavesOpen`).
- **A request can be dropped without a completion event**, for that reason, because it could not be set up, or because a
  closing save or event of its own turn or of the fallback's turn is refused; and for no other (`WorkerRuns.DroppedExactly`,
  for every environment; `WorkerRuns.ReliablyDroppedExactly` says what remains with a reliable store and channel).
- **A batch can leave a history that cannot be sent.** After a batch that ran to its end the loop sends the history as it
  is: it is paired if and only if no call of the batch rewrote it (`FailedBatches.PairedAtOnce`, `NextRequests.NextRequest`).
  After a batch that failed, the next request follows at least one plain message: it is paired if and only if every
  announced call was answered and nothing was rewritten, or nothing was appended after the last rewrite
  (`FailedBatches.PairedAfterBatch`, `NextRequests.RequestAfterFailedPass`). A history torn in either way stays ill-paired
  until a rewrite with no result right after it mends it, such as a compaction between batches; over whole runs, each request is paired if and only if it was not torn
  (`WorkerRuns.EveryRequestPaired`). A `compact` call that rewrites the history deletes the call messages that its own
  result then answers; only a failing hook between the two avoids it (`NextRequests.CompactCallDecides`, with two
  iterations whose second request is ill-paired in `NextRequests.CompactLoopWitness`).
- **A locked edit whose save is refused can be lost.** A working store refuses a locked save exactly while a snapshot writer
  has yet to refresh the cache (`SessionRuns.LockedSaveAccepted`); the refused edits are then in some later version if and only if that
  writer's copy already has them (`SessionLosses.UnsavedEditsLost`, with a schedule in `SessionLosses.UnsavedEditIsLost`).
  Edits that a failing store refused stay in the cache, and share the fate of the next accepted save
  (`SessionLosses.FailedStoreKeeps`).
- **The cache can go stale for good**, after which no save of the thread is ever accepted (`SessionHandles.StaleForever`). From
  an uncached thread this can happen if and only if the thread was never saved and at least two agents work on it
  (`SessionHandles.StaleExactly`); a cached thread never goes stale (`SessionHandles.CachedAgrees`).
- **The stores differ** on a dedup record of a thread that was never saved, and only then (`SessionStores.SaveExternalAgrees`);
  and on runs over threads of which two share an id, and only then (`SessionStores.AgreeExactly`), which takes a colon in a user
  or channel (`SessionStores.CleanKeysShareNothing`, `SessionStores.ThreadKeysCollide`). The memory store also hands back the open
  turn and pending tool events that serialization drops (`SessionStores.RawLoadAgrees`).
- **A message can be lost although it is redelivered**, because its id is remembered before it is handled: with dedup on the
  first delivery decides, and the message is never taken in, answered nor found processed if and only if its lookup fails,
  its command fails before a reply, or its thread is free and the worker's channel closed (`Router.FirstDeliveryDecides`). A
  message that was taken in is sent or queued (`Router.NothingLost`); once the channel is closed, what is queued then
  is never sent (`Router.QueuedStrands`).
- **Command output is lost when it is truncated**: the callers got all that left a session if and only if every chunk fitted
  the limit of its call (`CommandSessions.HandedExactly`).
- **Two stored active memory documents can share a keyword.** A write keeps all of them apart if and only if no other file named
  just `.md`, which the scan does not see, has one of its keywords (`MemoryRepository.UniqueExactly`, with a pair of writes in
  `MemoryRepository.HiddenDocumentsClash`); while only scanned paths are written they never do
  (`MemoryRepository.UniqueWhileSeen`). A path whose first component starts with a space does not name the document
  it was returned for (`MemoryPaths.NormalizeTwice`, `MemoryPaths.SpaceAfterDot`).
- **`register_if_missing` can give a tool name two owners** (`ToolRegistry.RegisteringKeeps`), and nothing stops a tool from
  taking the name of a toolset tool, which then is listed twice (`ToolRegistry.ListedOnce`).

## Model

| member | source | states |
|---|---|---|
| OpenAiMessages.SerializeOpenAiMessages | src/llm.rs:296-325 | the cursor loop terminates, fails exactly when some tool result has no call id, and otherwise yields the reference meaning of the history |
| OpenAiMessages.CollectToolCallMessages | src/llm.rs:389-419 | from the cursor it takes in exactly the run of `Toolcall` messages, and merges their calls in order behind the assistant message |
| OpenAiMessages.MessageStartsToolCallBatch | src/llm.rs:377-387 | an assistant message starts a batch exactly when it carries calls or a `Toolcall` follows it |
| OpenAiMessages.SerializeContext | src/llm.rs:327-356 | one message by itself: a tool result without a call id is the only error |
| OpenAiMessages.CallsPreserved | src/llm.rs:296-325 | the calls on the wire are the history's calls, in order, none lost or doubled |
| OpenAiMessages.ContentPreserved | src/llm.rs:296-375 | every message that is not a `Toolcall` reaches the wire once, in order, with its content; blank assistant text is dropped |
| OpenAiMessages.SplitIrrelevant | src/llm.rs:389-419 | two histories that differ only in how a batch is split across `Toolcall` messages serialize identically |
| OpenAiMessages.CallsMayMoveToAssistant | src/llm.rs:389-419 | calls may sit on the assistant message or on the `Toolcall`s after it: the request is the same |
| ThreadAggregate.Thread.BeginTurn | src/thread.rs:796-825 | refused while a turn is open; otherwise a new turn takes over the pending tool events |
| ThreadAggregate.Thread.AppendMessage | src/thread.rs:517-534 | needs an open turn, and appends one message |
| ThreadAggregate.Thread.BufferTurnEvent | src/thread.rs:537-541 | needs an open turn, and appends one event to it |
| ThreadAggregate.Thread.RecordToolEvent | src/thread.rs:438-445 | a tool event goes to the open turn, or to the pending list |
| ThreadAggregate.Thread.ReplaceMessagesAfterCompaction | src/thread.rs:571-602 | needs an open turn; keeps the system messages and puts the summary after them |
| ThreadAggregate.Thread.FinalizeTurnSuccess | src/thread.rs:834-877 | closes the turn, binds its tool events to its id and returns its events with the closed snapshot |
| ThreadAggregate.Thread.FinalizeTurnFailure | src/thread.rs:699-755 | the same for a failure, with a failure event if the turn had none |
| ThreadAggregate.Thread.ClearToInitialState | src/thread.rs:888-898 | everything goes but the revision |
| ThreadAggregate.Thread.SetRevision | src/thread.rs:376-378 | the one method that changes the revision, and nothing else |
| ThreadAggregate.Thread.LoadToolset | src/thread.rs:763-784 | inserts the trimmed name, and says whether it was new |
| ThreadAggregate.Thread.UnloadToolset | src/thread.rs:787-794 | removes the name, and says whether it was loaded |
| ThreadAggregate.ToolEventsConserved | src/thread.rs:438-445 | over any run without `/clear`: stored ++ turn ++ pending tool events are the recorded ones, in order, each once; pending is empty while a turn is open |
| ThreadAggregate.FinalizeBinds | src/thread.rs:834-877 | finalizing stores the turn's tool events after the older ones, each under that turn's id |
| ThreadAggregate.RevisionUntouched | src/thread.rs:376-378 | no run of mutators, `/clear` included, changes the revision |
| ThreadAggregate.ToolsetsStaySorted | src/thread.rs:763-794 | the loaded toolsets stay sorted and free of duplicates |
| AgentTurn.CommitOutcome | src/agent/agent_loop.rs:1277-1307 | one commit: the changes always stay, the event goes out only after its save, and then the stored snapshot is the live thread; with a reliable environment it cannot fail |
| AgentTurn.CommitKeeps | src/agent/agent_loop.rs:1277-1307 | one commit keeps the turn invariant: history follows the log, events align with dispatches, every emitted message is already stored, revision in step with the store |
| AgentTurn.CompactKeeps | src/agent/agent_loop.rs:952-1021 | a compaction keeps the turn invariant, saves and sends nothing, and changes the history only when it reports a rewrite: then to the system messages, one assistant message of the fixed prefix and the given summary, and the fixed user message |
| AgentTurn.CompactTells | src/compact/manager.rs:113-132 | a compaction that reports a rewrite leaves the system messages and two more: an assistant message without calls that reads the literal prefix and then the text that the summarizer gave, and the literal continue message of the user; and that pair is what the log takes in |
| AgentTurn.ModelCompactKeeps | src/agent/agent_loop.rs:1023-1212 | a model-requested compaction, failed or not, keeps the invariant, and changes the history only if the batch is marked as rewritten |
| AgentTurn.RunToolKeeps | src/agent/agent_loop.rs:660-783 | one tool call that ran to its end adds one message, the result that answers it, and ends in that message and its event, which tell the outcome; the loaded toolsets are those that its tool left |
| AgentTurn.RunToolTells | src/agent/agent_loop.rs:660-783 | by cases on the environment alone: the message that a call ends with reads what its tool answered, or what became of its compaction, as it is when that was no error and behind "Tool execution failed: " when it was; its event previews the same text with the same error flag, under the same call id |
| TurnContents.CompactNotes | src/agent/agent_loop.rs:952-1021 | a compaction buffers one event that says how many messages it replaced, or that there was no history, under the call that asked for it; one that fails or finds only system messages buffers none |
| TurnContents.CompactCallNotes | src/agent/agent_loop.rs:1023-1212 | a compact call answered with an error buffers one failed event with that error, and any other just what its compaction does |
| TurnContents.PreviewShows | src/agent/agent_loop.rs:1351-1380 | a channel is shown a tool's text whole up to 300 characters, and of a longer one the first 300 and its length, which reads back |
| TurnContents.BatchTells | src/agent/agent_loop.rs:644-783 | a finished batch, rewritten within or not, appends and dispatches exactly an announcement of each call, with its name, arguments and id, and then a result for each, in order, that tells what came of that call |
| TurnContents.ToolPassTells | src/agent/agent_loop.rs:570-783 | a pass that used tools says all of the model's answer and nothing else: its text unless blank, then an announcement of each call, then what came of each |
| TurnTranscripts.TurnTells | src/agent/agent_loop.rs:509-878 | over any number of iterations, in any environment and however the turn ends: its log starts with the user's message, and each later entry tells what the environment said at a step of its own, in the order of the steps: the model's text, a call it made, the outcome of one, the summary it was given, or that the turn failed; each dispatched event tells the same as its message |
| TurnTranscripts.LastSummaryIsGiven | src/compact/manager.rs:113-132 | so the last rewrite of any turn is the prefix with a summary that the summarizer gave at some step of it, and the continue message |
| AgentTurn.BatchKeeps | src/agent/agent_loop.rs:644-783 | a batch left intact added all its call messages, then one answer to each in order, and nothing else |
| AgentTurn.SystemsSurvive | src/compact/manager.rs:77-132 | whatever was appended or compacted, the history keeps exactly the initial system messages, in order |
| AgentTurn.LogSnoc | src/thread.rs:571-602 | the history is the initial one and the appended messages, or after a rewrite the system messages, the last summary pair, and what came since |
| AgentTurn.DispatchesAreEvents | src/agent/agent_loop.rs:1288-1297 | the dispatched events are the turn events in order, and only the first of a request replies to its source |
| ToolPairing.BatchPairing | src/llm.rs:296-325 | a request that contains a batch is paired if and only if tool results answering its calls in order come right after it and the rest is paired |
| ToolPairing.BatchKeepsReady | src/agent/agent_loop.rs:618-783 | a batch that ran to its end leaves a history that can be sent, its calls joining the assistant text before them |
| ToolPairing.PlainKeepsReady | src/agent/agent_loop.rs:586-612 | a user message or an assistant message without calls keeps a history sendable |
| ToolPairing.RewrittenIsReady | src/compact/manager.rs:113-132 | whatever the history was, the one that a compaction leaves can be sent |
| ToolPairing.UnansweredCallsBreakPairing | src/agent/agent_loop.rs:644-783 | calls left unanswered, once a plain message follows, make every request ill-paired until the history is rewritten |
| ToolPairing.RewriteInsideBatchBreaksPairing | src/agent/agent_loop.rs:692-703 | a rewritten history followed by a tool result is ill-paired, whatever comes after, until the next rewrite |
| FailedBatches.PairedAfterBatch | src/agent/agent_loop.rs:644-783 | from any history that could be sent, and however a batch ended, the history with a plain message after it is paired if and only if the batch left every announced call answered with no rewrite, or appended nothing after its last rewrite |
| FailedBatches.PairedAtOnce | src/agent/agent_loop.rs:521-784 | after a batch that ran to its end, the history as it is, which the loop sends next, is paired if and only if no call of the batch rewrote it |
| FailedBatches.BatchKeepsStanding | src/agent/agent_loop.rs:644-783 | the same from any history, torn before or not: a torn one no continuation mends, any other can be sent |
| FailedBatches.AnsweredExactly | src/agent/agent_loop.rs:644-783 | calls and the first answers to them can be followed by a plain message if and only if every call is answered |
| FailedBatches.BatchLeaves | src/agent/agent_loop.rs:644-783 | what a batch adds to log and history however it ends: its first call messages; if all were announced, what the tools added: since the last rewrite only results, and without one the answers to the first calls in order |
| FailedBatches.RewrittenExactly | src/agent/agent_loop.rs:692-783 | a rewritten history and leftover results can be followed by a plain message if and only if there are no such results |
| FailedBatches.RunToolGrows | src/agent/agent_loop.rs:660-783 | one call adds a rewrite exactly when it is a `compact` call, compaction is enabled, there is something to compact, and its hooks and the summarizer succeed; and its result exactly when the hook before it and the hook that reports its outcome succeed |
| NextRequests.NextRequest | src/agent/agent_loop.rs:521-573 | after a pass whose batch ran to its end, with no compaction in between, the next iteration sends exactly the history that the batch left, paired if and only if it was not torn before and no call of the batch rewrote it |
| NextRequests.PassTears | src/agent/agent_loop.rs:551-789 | however a pass ends, whether it leaves the history torn is decided by what it added to the log |
| NextRequests.FirstRequest | src/agent/agent_loop.rs:486-573 | the first request of a turn, with no compaction before it, is what earlier turns left and the user message, paired if and only if what they left was not torn |
| NextRequests.RequestAfterFailedPass | src/agent/agent_loop.rs:644-843 | after a request whose last pass failed, in a batch or elsewhere, the first request of the next turn is paired if and only if what that pass added left the history untorn |
| NextRequests.CompactCallDecides | src/agent/agent_loop.rs:692-703 | a batch of one `compact` call that rewrites the history leaves one that nothing but a rewrite mends if and only if the hook after the compaction succeeds; otherwise the batch fails and leaves one that can be sent |
| NextRequests.CompactCallWitness | src/agent/agent_loop.rs:692-703 | one environment and one call for each of the two outcomes |
| NextRequests.CompactLoopWitness | src/agent/agent_loop.rs:521-784 | two iterations in that environment, of which the second sends an ill-paired request |
| ToolRecords.BatchRecords | src/agent/agent_loop.rs:660-783 | a batch that ran to its end recorded exactly its calls, in order, each once, under its own id, and as the failure or success that the environment made it |
| ToolRecords.ModelCompactRecords | src/agent/agent_loop.rs:1023-1212 | a `compact` call is recorded once however it goes, as a failure exactly if it was one |
| TurnRuns.LoopCarries | src/agent/agent_loop.rs:521-843 | after any number of iterations the turn invariant holds, and every request sent so far, and the next one, is paired exactly if it is not torn |
| TurnRuns.RuntimeCompactCarries | src/agent/agent_loop.rs:523-549 | a compaction between batches keeps that, and leaves a history that can be sent when it rewrites it |
| TurnRuns.HardIteration | src/agent/agent_loop.rs:521-843 | an iteration fails outright if and only if its request cannot be prepared, it is over budget and its hook or summarizer fails, or its pass fails and the commit of the failure reply is refused; the last cannot happen with a reliable store and channel |
| TurnRuns.HardLoop | src/agent/agent_loop.rs:521-843 | the loop fails with its turn open if and only if it reaches such an iteration |
| TurnRuns.TurnOutcome | src/agent/agent_loop.rs:477-878 | a whole turn: closed with its events aligned, left open with its invariant, or still running with it |
| TurnRuns.CloseKeeps | src/agent/agent_loop.rs:845-878 | closing keeps what was dispatched: the finalized turn's visible events are the dispatched ones, in order; the turn has failed with the error if there was one and the failure reply to it, and otherwise has succeeded with the reply |
| TurnReplies.PassEnds | src/agent/agent_loop.rs:570-612 | a pass is answered if and only if the model, asked, answered without calls and with text that is not blank, and its commit was taken; the reply, the last message and the last event are then that text |
| TurnReplies.TurnConcludes | src/agent/agent_loop.rs:521-850 | over any number of iterations, in any environment: a turn that the loop closed has succeeded if and only if its last pass was answered, with the model's text as reply, last message and last event; otherwise it has failed with that pass's error, and all three are the failure reply to it |
| AgentWorker.InitializeRests | src/agent/worker.rs:228-263 | initialization fills an empty thread only, with the given prompts as system messages in order, which the store then holds too; it costs one save when it does, and emits nothing |
| AgentWorker.PublishOutcome | src/agent/worker.rs:482-512 | the finalized snapshot and its dedup record are stored by one save, before the two closing events |
| AgentWorker.FallbackKeeps | src/agent/worker.rs:513-600 | with no turn open, the fallback emits a stored failure message, its finalized turn, which has failed with the error and replies with the failure reply to it, and the completion |
| AgentWorker.RequestKeeps | src/agent/worker.rs:441-600 | a completed request emitted stored messages, then its finalized turn with the dedup record bound in the same save, then the completion; with a reliable environment it is dropped exactly when it could not be set up or failed inside an open turn |
| WorkerRuns.ExactRevision | src/agent/worker.rs:450-512 | over a working store a completed request has no conflict and moves the revision by 1 if the thread was initialized, plus the messages it appended, plus 1, whatever becomes of its events |
| WorkerRuns.RevisionCountsEvents | src/agent/worker.rs:450-512 | for a sole writer whose sends succeed, the same with the committed messages it published, even if the store fails now and then |
| WorkerRuns.CompletedTurn | src/agent/agent_loop.rs:793-878 | the turn in the finalized event: its visible events are all dispatched events in order, only the first replies to its source, its history is the one that its log describes; it has succeeded if and only if its last pass was answered, with the model's text as reply, and failed with that pass's error otherwise; its log tells what the environment said |
| WorkerRuns.LiveTells | src/agent/agent_loop.rs:477-878 | the same of every turn that the live loop closes, for any number of iterations and any environment |
| WorkerRuns.OpenTurnDrops | src/agent/worker.rs:520-523 | while a turn is left open every request of the thread is dropped, and changes and sends nothing |
| WorkerRuns.DroppedExactly | src/agent/worker.rs:441-600 | whatever the environment does, a request ends without its completion event if and only if it could not be set up, its loop left the turn open, or the closing save or events of its turn, or the message, closing save or events of the fallback turn, were refused |
| WorkerRuns.ReliablyDroppedExactly | src/agent/worker.rs:441-600 | with a reliable store and channel, if and only if it could not be set up or its loop reaches an iteration that cannot prepare its request, or is over budget and cannot compact |
| WorkerRuns.RefusedMessageLeavesTurnOpen | src/agent/agent_loop.rs:509-518 | if the save of the user message or its event is refused, the turn stays open with that message in it, nothing is sent, and the request is dropped |
| WorkerRuns.FallbackDropped | src/agent/worker.rs:513-600 | the fallback turn is dropped if and only if its message, its closing save or a closing event is refused |
| WorkerRuns.LiveEndsInStep | src/agent/agent_loop.rs:845-878 | a turn that the loop closed is at the store's revision, whatever the environment did before |
| WorkerRuns.LiveLeavesOpen | src/agent/agent_loop.rs:477-843 | the live loop leaves its turn open if and only if its user message is refused or it reaches an iteration that fails outright |
| WorkerRuns.FailedCompactionLeavesTurnOpen | src/agent/agent_loop.rs:523-536 | over budget with a failing summarizer: the request is dropped and its turn stays open |
| WorkerRuns.EveryRequestPaired | src/agent/agent_loop.rs:477-878 | over any number of requests, for any model, tools, summarizer, store and channel: every history sent serializes, and has every call answered at once and in order if and only if no batch since the last rewrite tore it; while every batch runs to its end with no rewrite inside it, none does |
| WorkerRuns.ServingNeverConflicts | src/agent/worker.rs:426-439 | however many requests it serves, a sole writer meets no conflict, and its thread stays at the store's revision |
| WorkerRuns.ServeKeeps | src/agent/worker.rs:426-439 | whatever becomes of each request, the thread is left fit for the next |
| LiveThread.LiveRun.SaveSnapshot | src/session.rs:836-857 | the save in place is the modelled compare-and-swap |
| LiveThread.LiveRun.PersistLocked | src/session.rs:513-526 | save a clone of the live thread, then overwrite the live thread with what was stored |
| LiveThread.LiveRun.CommitMessage | src/agent/agent_loop.rs:1277-1307 | the in-place commit, with its buffering and dispatch loops, is `Commit` |
| LiveThread.LiveRun.CompactTurn | src/agent/agent_loop.rs:952-1021 | the in-place compaction is `Compact` |
| LiveThread.LiveRun.HandleModelRequestedCompact | src/agent/agent_loop.rs:1023-1212 | the in-place compact call is `ModelCompact` |
| LiveThread.LiveRun.RunBatch | src/agent/agent_loop.rs:644-783 | the two loops over a batch are `Batch` |
| LiveThread.LiveRun.RunLiveThread | src/agent/agent_loop.rs:477-878 | the loop of a live turn is `RunLive` |
| LiveThread.LiveRun.PublishTurn | src/session.rs:615-648 | the in-place commit of a finalized turn is `Publish` |
| LiveThread.LiveRun.ServeRequest | src/agent/worker.rs:441-600 | the in-place request handler is `HandleRequest` |
| LiveThread.LiveRun.ServeAll | src/agent/worker.rs:426-439 | the worker's receive loop is `Serve`; from a fresh thread every history it sent is paired exactly if it was not torn, and all are while no batch is broken |
| SessionProtocol.NextKeeps | src/session.rs:489-664 | every step of every agent keeps the invariant: copies derive from the version their revision names, versions form a chain, one writer at most is between save and refresh |
| SessionProtocol.SettledStarts | src/session.rs:376-386 | a cached thread that agrees with the store, with nobody at work, meets the invariant |
| SessionProtocol.SaveKeeps | src/session.rs:836-857 | a save is accepted only when no other writer is pending, and makes its writer the pending one |
| SessionProtocol.EditIsApply | src/thread.rs:376-378 | editing a copy runs the mutator on its thread and leaves its revision alone |
| SessionRuns.NoLostUpdate | src/session.rs:836-857 | what is stored changes only by a save of a copy of the latest version, which extends every version before it by that copy's own edits |
| SessionRuns.GuardExcludes | src/session.rs:489-526 | while an agent holds the guard, no run of the other agents' steps changes the cached thread or its own state, and none of them gets a copy that it did not have |
| SessionRuns.EveryInterleaving | src/session.rs:489-664 | in every reachable state: the cached revision never exceeds the store's and never falls, trails by one exactly while one writer is pending, and with none pending the contents agree unless a locked edit is unsaved |
| SessionRuns.EveryCopyDerives | src/session.rs:389-413 | in every reachable state every live copy with revision r derives from version r |
| SessionRuns.LockedSaveAccepted | src/session.rs:513-526 | a locked save is accepted, by a working store, exactly when no snapshot writer is pending |
| SessionRuns.LoadThenSave | src/session.rs:651-664 | a loaded clone is saved exactly when nobody was pending at the load and no save was accepted since |
| SessionLosses.UnsavedEditsLost | src/session.rs:498-503 | while a snapshot writer is between save and refresh, and whatever anyone does from then on, the edits behind the guard are in a later version if and only if that writer's copy has them |
| SessionLosses.LaterVersions | src/session.rs:836-857 | the same for any edits made before a save that is still pending: later versions have them if and only if the saved one has |
| SessionLosses.FailedStoreKeeps | src/session.rs:498-503 | edits refused by a failing store with nobody pending stay in the cache until a save is accepted; then every later version has them, or none, as that first one does |
| SessionLosses.GuardRetries | src/session.rs:513-526 | a failing store changes nothing, and the guard's next accepted save has every edit behind it |
| SessionLosses.RefreshDrops | src/session.rs:756-782 | the refresh leaves an edit in the cache if and only if the refreshing writer's copy has it |
| SessionLosses.UnsavedEditIsLost | src/session.rs:498-503 | a schedule after which a refused edit is in no version of any continuation |
| SessionHandles.StaleForever | src/session.rs:756-799 | once the cache trails the store with nobody to refresh it, no save is ever accepted |
| SessionHandles.StaleExactly | src/session.rs:693-799 | from an uncached thread with nobody at work, some run makes the cache stale if and only if the thread was never saved and two agents or more work on it |
| SessionHandles.UncachedAgrees | src/session.rs:693-799 | from every other uncached start, in every reachable state: versions form a chain, and the cache, once filled, trails by one save exactly while one writer is pending and differs only by unsaved edits |
| SessionHandles.CachedAgrees | src/session.rs:376-386 | a cached thread's cache agrees with the store in the same sense, and is never stale |
| SessionHandles.UncachedHandleGoesStale | src/session.rs:784-798 | the run that does, for any number of agents and any edit |
| SessionRuns.SessionManager.SaveThreadSnapshot | src/session.rs:836-857 | accepted exactly for the latest revision, and then appends the copy |
| SessionRuns.SessionManager.EnsureThreadHandle | src/session.rs:693-754 | fetch and insert if absent |
| SessionRuns.SessionManager.StoreThreadContext | src/session.rs:651-664 | save and then overwrite the cache, or change nothing |
| SessionRuns.SessionManager.PersistLocked | src/session.rs:513-526 | save from behind the guard and refresh it, or leave it as it was |
| SessionRuns.SessionManager.MutateThreadContext | src/session.rs:489-510 | lock, edit, save, refresh, unlock; a refused save leaves the edits in the cache |
| SessionStores.StoresAgree | src/session/store/sqlite.rs:208-534 | over any calls that the manager makes on threads of which no two share an id, memory and SQLite give the same revisions, conflicts, sessions and serialized threads as the abstract store |
| SessionStores.AgreeExactly | src/session/store/sqlite.rs:208-534 | over a given set of threads the two stores agree on every run of the manager from new if and only if no two of the threads share an id |
| SessionStores.MemoryRefines | src/session/store/memory.rs:88-153 | each memory call answers as the abstract store does |
| SessionStores.SqlRefines | src/session/store/sqlite.rs:208-534 | each SQLite call answers as the abstract store does and keeps its tables' constraints |
| SessionStores.WriteSucceeds | src/session/store/sqlite.rs:345-425 | a save's statement violates no constraint, and its INSERT branch runs exactly when the thread has no row |
| SessionStores.RowIsOurs | src/session/store/sqlite.rs:286-322 | a resolved locator names the session that owns the thread's row |
| SessionStores.ThreadKeyInjective | src/session.rs:54-56 | without colons in channel and user, two threads share a key only if they are the same |
| SessionStores.CleanKeysShareNothing | src/session.rs:54-56 | so threads of such sessions never share an id |
| SessionStores.ThreadKeysCollide | src/session.rs:54-56 | with a colon in its user, a session shares every one of its thread keys with another session |
| SessionStores.SaveExternalAgrees | src/session/store/sqlite.rs:504-534 | both stores take a dedup record exactly when its thread was saved before |
| SessionStores.SharedIdsDiverge | src/session/store/sqlite.rs:286-322 | four calls from two new stores after which a session finds another's thread in memory and none in SQLite, whenever the two threads share an id |
| SessionStores.LoadAgrees | src/session/store/sqlite.rs:286-322 | a load gives the same serialized thread in both stores if and only if there is no row, or the row is that session's |
| SessionStores.RawLoadAgrees | src/session/store/memory.rs:80-86 | as returned, the threads are equal if and only if, besides, the one in memory has no open turn and no pending tool events |
| StoreHistories.LoadsLastSaved | src/session/store/sqlite.rs:286-452 | after any calls on a new store a thread loads as it was in its last accepted save, without open turn and pending tool events, under the number of its saves; and it is saved next exactly from that revision |
| StoreHistories.FindsLastTaken | src/session/store/sqlite.rs:454-534 | after any calls on a new store a processed message is found under the last record taken in for it, with an accepted save or on its own, and otherwise not at all |
| StoreHistories.SessionIsFirstResolved | src/session/store/sqlite.rs:163-284 | a session keeps the id and creation time of the call that first resolved it, and was updated when it was last resolved or one of its threads saved; one never resolved is not there |
| StoreHistories.BothLoadLastSaved | src/session/store/memory.rs:80-153 | so both stores, new and given the same calls of the manager, load a thread as it was in its last accepted save |
| SessionStores.MemorySessionStore.ResolveOrCreateSession | src/session/store/memory.rs:61-78 | the in-place call is the modelled one |
| SessionStores.MemorySessionStore.LoadThreadContext | src/session/store/memory.rs:80-86 | the in-place call is the modelled one |
| SessionStores.MemorySessionStore.SaveThreadContext | src/session/store/memory.rs:88-153 | the in-place call is the modelled one |
| SessionStores.MemorySessionStore.SaveExternalMessageRecord | src/session/store/memory.rs:167-178 | the in-place call is the modelled one |
| SessionStores.SqliteSessionStore.ResolveOrCreateSession | src/session/store/sqlite.rs:208-284 | the transaction is the modelled one |
| SessionStores.SqliteSessionStore.LoadThreadContext | src/session/store/sqlite.rs:286-322 | the query is the modelled one |
| SessionStores.SqliteSessionStore.SaveThreadContext | src/session/store/sqlite.rs:324-452 | the transaction is the modelled one: nothing is written unless every statement succeeds |
| SessionStores.SqliteSessionStore.SaveExternalMessageRecord | src/session/store/sqlite.rs:504-534 | the upsert is the modelled one |
| Router.NothingLost | src/router.rs:605-655 | over any run, channel open or closed: per thread, accepted messages are sent ++ queued in arrival order, none lost, doubled or reordered |
| Router.RunSerializes | src/router.rs:475-480 | in every state reached with the channel open, a thread is pending exactly when it has one outstanding request, and never has two |
| Router.OneAtATime | src/router.rs:595-655 | what was sent of a thread is the shortest prefix of what was accepted that keeps one request going |
| Router.HandleSerializes | src/router.rs:483-500 | one event keeps it |
| Router.BlockedForever | src/router.rs:633-655 | a thread whose request never completes stays pending, and nothing more of it is sent |
| Router.TakenInOnce | src/router.rs:586-593 | with dedup on, no external message id is taken in twice |
| Router.ArrivalDecides | src/router.rs:391-481 | by cases on what is known of a new delivery: a command that is executed, or that is for idle threads while its thread is busy, is answered and nothing else; a command that is not recognized, like any message for the agent, is queued behind a busy thread, sent to a free one, or refused by a closed channel; anything else is remembered at most |
| Router.FirstDeliveryDecides | src/router.rs:391-481 | with dedup on, whatever happens afterwards, redeliveries included, a message is taken in if and only if it was for the agent and its thread busy or the channel open, and answered if and only if it was an answerable command; it is never taken in, answered nor found processed if and only if its lookup failed, its command failed before a reply, or it was for the agent, its thread free and the channel closed |
| Router.QueuedStrands | src/router.rs:613-655 | once the worker's channel is closed nothing more is sent, and what is queued stays queued |
| Router.RememberedStays | src/router.rs:391-403 | the redelivery of a remembered id is a no-op |
| Router.ChannelRouter.HandleIncoming | src/router.rs:391-481 | the in-place handler is `Arrive` |
| Router.ChannelRouter.AdmitMessage | src/router.rs:475-480 | mark pending and send, or enqueue |
| Router.ChannelRouter.DispatchToAgent | src/router.rs:613-631 | a failed send frees the thread |
| Router.ChannelRouter.ReleaseOrDispatchNext | src/router.rs:633-655 | the next queued message takes over, or the thread becomes free |
| Router.ChannelRouter.RunUntilShutdown | src/router.rs:355-389 | the service loop handles its events one at a time |
| MemoryMarkdown.RoundTrip | src/agent/memory/repository.rs:574-642 | a rendered document parses to the same metadata and the content without trailing newlines, for every body, exactly when the YAML text neither contains nor completes a fence |
| MemoryMarkdown.SplitIsExact | src/agent/memory/repository.rs:632-642 | splitting finds a document's own closing fence under exactly that condition |
| MemoryMarkdown.SecondRender | src/agent/memory/repository.rs:574-642 | rendering what was parsed gives the same text again, so a second round trip changes nothing |
| MemoryMarkdown.NormalizeIs | src/agent/memory/repository.rs:644-659 | keywords are accepted exactly when their trimmed forms are non-blank and pairwise different ignoring ASCII case, and come back trimmed |
| MemoryMarkdown.NormalizeKeywordList | src/agent/memory/repository.rs:644-659 | the loop over seen keywords is `NormalizeKeywords` |
| MemoryPaths.NormalizeRelativePath | src/agent/memory/repository.rs:673-707 | the loop over path components is `NormalizePath` |
| MemoryPaths.NormalizesExactly | src/agent/memory/repository.rs:673-707 | a path is accepted if and only if, trimmed and with forward slashes, it is relative, names something, and has no `..` and no blank name; it then stands for the same names in the same order |
| MemoryPaths.NormalizeTwice | src/agent/memory/repository.rs:673-707 | a normalized path names itself exactly when it has no outer whitespace |
| MemoryPaths.SpaceAfterDot | src/agent/memory/repository.rs:673-707 | every name gives a path for which that fails |
| MemoryRepository.WrittenReadsBack | src/agent/memory/repository.rs:189-269 | after an accepted write the target parses to the type, normalized path and content of the request, its trimmed title and keywords, updated now, and created when the old file says if that was there and parsed, else now; the reply says the same, and no other file changes |
| MemoryRepository.AcceptedExactly | src/agent/memory/repository.rs:189-269 | a write is accepted if and only if its path names a document, its title is not blank, its keywords are non-blank and distinct, they are none for a passive document and some for an active one, every scanned document parses and no other has one of them, and the disk takes it; a refused one changes no file |
| MemoryRepository.WriteKeeps | src/agent/memory/repository.rs:503-525 | every write, accepted or not, keeps the scanned documents readable and free of shared keywords |
| MemoryRepository.WritesKeep | src/agent/memory/repository.rs:189-269 | so does any sequence of writes |
| MemoryRepository.CatalogNeverFails | src/agent/memory/repository.rs:391-435 | from an empty repository, after any writes and however the directory is listed, the catalog loads: sorted by path, each scanned document once, no keyword with two paths |
| MemoryRepository.UniqueExactly | src/agent/memory/repository.rs:503-525 | an accepted write keeps the keywords of all stored active documents unique, scanned or not, if and only if no file that the scan does not see, the target aside, has one of them |
| MemoryRepository.UniqueWhileSeen | src/agent/memory/repository.rs:189-269 | while only paths that the scan sees are written, no two stored active documents ever share a keyword |
| MemoryRepository.DisjointIsConsistent | src/agent/memory/repository.rs:391-435 | a scan is free of shared keywords exactly when the files are |
| MemoryRepository.HiddenDocumentsClash | src/agent/memory/repository.rs:557-560 | two documents with the same keyword, one of them stored as `.md` |
| MemoryRepository.Repository.LoadDocuments | src/agent/memory/repository.rs:475-501 | the scan yields the seen documents in listing order, or fails on an unreadable one |
| MemoryRepository.Repository.EnsureUniqueActiveKeywords | src/agent/memory/repository.rs:503-525 | fails exactly on an unreadable scan or a keyword of another seen document |
| MemoryRepository.Repository.WriteDocument | src/agent/memory/repository.rs:189-269 | the in-place write is `Write` |
| MemoryRepository.Repository.LoadActiveCatalog | src/agent/memory/repository.rs:391-435 | the loop with its keyword map is `Catalog`: it fails exactly on a shared keyword |
| CommandSessions.OutputConserved | src/agent/tool/command/session.rs:436-533 | over any calls: the chunks taken ++ pending output are the received output in order, nothing taken comes back, no event is lost, a finished task stays finished |
| CommandSessions.HandedExactly | src/agent/tool/command/session.rs:470-485 | over any calls, those that produced a chunk of a session got the chunks that left it, each truncated, and the whole of them if and only if every chunk fits the limit of its call |
| CommandSessions.CollectResultKeeps | src/agent/tool/command/session.rs:436-493 | a chunk gets the next id and all received output still pending; done means an exit code is set |
| CommandSessions.ExecCommandStarts | src/agent/tool/command/session.rs:204-254 | a blank command is refused and changes nothing; any other starts a session of its own thread with chunk 0, and touches no other session |
| CommandSessions.WriteStdinAnswers | src/agent/tool/command/session.rs:277-332 | a session takes polls of its own thread always, and input while no exit was received and its stdin is open; any other call is refused with its reason and changes nothing |
| CommandSessions.RefreshKeeps | src/agent/tool/command/session.rs:525-533 | a listing drains what arrived and sets the unread flag exactly when output is pending |
| CommandSessions.ListTasksShows | src/agent/tool/command/session.rs:343-409 | a listing receives all that every session's process has sent, takes no output, and shows of each whether it exited, with what code, and whether output is pending |
| CommandSessions.CommandSessionRecord.Send | src/agent/tool/command/session.rs:229-246 | the process side of the event channel, in place |
| CommandSessions.TruncateOutput | src/agent/tool/command/output.rs:17-33 | a prefix of at most the allowed tokens, and the whole text exactly when that fits |
| CommandSessions.CommandSessionRecord.Apply | src/agent/tool/command/session.rs:505-523 | one event, in place |
| CommandSessions.CommandSessionRecord.DrainAvailableEvents | src/agent/tool/command/session.rs:495-503 | the drain loop is `Drain` |
| CommandSessions.CommandSessionRecord.CollectChunk | src/agent/tool/command/session.rs:436-493 | the wait loop and the take are `CollectResult` |
| CommandSessions.CommandSessionRecord.RefreshSnapshot | src/agent/tool/command/session.rs:525-533 | the in-place refresh is `Refresh` |
| HookCommand.ShellReadsBack | src/agent/hook.rs:318-325 | a shell's word splitting by sections 2.2.2 and 2.2.3 of the POSIX.1-2017 Shell Command Language gives back exactly the arguments |
| HookCommand.InsideQuotes | src/agent/hook.rs:318-325 | the same for one argument inside its quotes |
| AttachmentSyntax.WeaveReadsBack | src/attachment_syntax.rs:40-67 | texts without markers interleaved with markers give back exactly the markers' paths, in order |
| AttachmentSyntax.MarkerCarries | src/attachment_syntax.rs:111-126 | a path without a closing bracket comes back from its marker exactly when it is absolute and has no outer whitespace |
| AttachmentSyntax.ParseContent | src/attachment_syntax.rs:40-67 | the cursor loop terminates on every input, leaves the text alone, and yields its attachments |
| ToolRegistry.VisibleIsRouted | src/agent/tool/mod.rs:540-641 | a tool is shown to the model exactly when calling its name reaches it |
| ToolRegistry.RegisteredIsRouted | src/agent/tool/mod.rs:346-356 | a call of a registered tool's name reaches its handler, whatever is loaded, unless the name was taken or is reserved; no other call goes anywhere else than before |
| ToolRegistry.MissingIsRouted | src/agent/tool/mod.rs:790-795 | `register_if_missing` keeps the handler of an always visible name, and otherwise calls of the name reach the new one; no other call goes anywhere else |
| ToolRegistry.RegisteredToolsetIsRouted | src/agent/tool/mod.rs:386-421 | a toolset is registered if and only if its name is new and not blank and its tools are new and distinct; calls of its tools then reach their handlers from every thread that loaded it, and other threads' calls go where they went |
| ToolRegistry.ListedOnce | src/agent/tool/mod.rs:540-559 | no name is listed twice exactly when none takes the name of a toolset tool |
| ToolRegistry.RegistrationsKeep | src/agent/tool/mod.rs:346-421 | after any registrations through `register` and `register_toolset`, every name has one owner |
| ToolRegistry.RegisteringKeeps | src/agent/tool/mod.rs:790-821 | one registration keeps it; `register_if_missing` exactly when no toolset owns the name |
| ToolRegistry.Tools.RegisterTool | src/agent/tool/mod.rs:346-356 | refused exactly for a taken name |
| ToolRegistry.Tools.RegisterToolIfMissing | src/agent/tool/mod.rs:790-795 | an entry that is there stays, and otherwise the handler is put in |
| ToolRegistry.Tools.RegisterStaticToolset | src/agent/tool/mod.rs:386-421 | refused exactly for a blank or taken toolset name, or a taken or repeated tool name |
| ToolRegistry.Tools.ListForContext | src/agent/tool/mod.rs:540-559 | fails exactly on an unregistered loaded toolset; otherwise everything visible, sorted by name |
| ToolRegistry.Tools.RouteForContext | src/agent/tool/mod.rs:562-641 | the routing loop is `RouteCall` |
| ToolRegistry.Tools.OpenTool | src/agent/tool/mod.rs:666-674 | loads registered toolsets only |
| ToolRegistry.Tools.CloseTool | src/agent/tool/mod.rs:699-716 | runs a loaded toolset's callback first, whose failure aborts; otherwise unloads, and says whether it was loaded |

## Left out

- Processes, the network, the real file system, Feishu, the browser and the MCP transports: only their event streams and path-to-text maps appear.
- Clocks, UUIDs, JSON and tracing: opaque values and injective encodings. YAML is a printer and reader with the hypothesis that one undoes the other (`MemoryMarkdown.Faithful`). Version-5 UUIDs are taken to be collision-free.
- Integer widths: revisions are unbounded, so SQLite's 64-bit range check is not modelled; `usize` appears only where `truncate_output` saturates.
- Liveness over the bounded channels: the router does not drain events while it waits to send or for a thread lock, so neither deadlock freedom nor eventual completion is claimed.
- Exactly-once processing across restarts: a duplicate queued before the first copy's dedup record is written is dispatched without another check.
- Cancellation of a task between its save and its refresh, and restarts of the process.
- What the model replies: an assistant message is taken to carry its text and no calls of its own, the calls coming separately, as `src/llm.rs` builds it.
- Tools: their effect on the thread is the loaded toolsets only, which is all that the registry lets them change.
- Event metadata, hook payloads, budget estimation, `used_tool_names` and the other loop metadata: no modelled property reads them.
- Error texts: those of the model, the summarizer, the missing reply and the disabled compaction are the source's; the others, of the store, the hooks and the channel, are stand-ins (`AgentLoop.Describe`).
- `execute_turn_compaction` outside a turn: the model refuses it at once, the code after its hook; the loop never does that.
- Concurrent calls on one command session, where one call's snapshot write may follow another's receive: calls are taken one at a time.
- The sorted task lists of `list_unread_tasks` and `export_task_snapshots`: only the refresh that they make; the session map is modelled on values.
- SessionRuns.SessionManager: one thread's slot of the session map, each operation uninterrupted; interleavings are those of `SessionProtocol`.
- Slash commands in `src/command.rs` beyond whether they stop at the router.
- MCP toolsets and `load_skill`: only statically registered handlers; names of MCP tools can collide.
- Searching and listing memory documents, directories that clash with files, and case-insensitive or non-Unix paths.
- Windows hook commands.
- Configuration, the CLI, the Anthropic placeholder, the read, write and edit tools and the skill registry: they would add easy members only.
