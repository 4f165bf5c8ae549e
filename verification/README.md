# Verified models of the houfeng agent and activity center

This project models the parts of houfeng that keep data from being lost, repeated or misattributed, and proves what
they promise over every run and every input:

- **The agent's replay queue** (`Envelope`, `Pruning`, `FileStore`, `QueueObject`, `QueueRuns`, `QueueTheorems`). A disk
  is the file now visible together with every file a power loss could leave in its place; a write fails before the
  rename, after it, or not at all. `QueueRuns.World` pairs the store with a history of what it has told its callers.
- **The agent's sync loop** (`SyncProtocol`, `SyncRound`, `AgentLog`, `AgentItems`, `AgentState`, `Runtime`), as a class over that queue,
  talking to a center that may answer anything. Every message and its answer go into one log, and the theorems are
  about that log: its order, what each tick adds to it, the exchange that explains each removed batch, and where each
  command result and IP report went.
- **The activity projector** (`ActivityTypes`, `Projector*`), over a source that may grow at any call and an adapter,
  publisher and checkpoint store that may fail at any call.
- **Canonical hashes, queries, cursors and pages** (`Bytes`, `Ordering`, `CanonicalHash`, `Query`, `CursorText`, `Cursor`,
  `PageStore`, `Pagination`, `PageWalks`).
- **The IP-quality collection manager** (`Manager`, `ManagerRuns`, `ManagerObject`).
- **The script scanner of the service probes** (`ScriptLexer`, `JsonText`, `ScriptJson`, `ScriptObject`), against the JSON
  grammar of RFC 8259 (sections 2 to 7).

Code that updates fields or runs a loop is a class or a method proved equal to a function; the theorems are about that
function and about runs of it. Clocks, random producer ids, file-system outcomes, network replies, adapter pages and the
JSON decoder are parameters or unconstrained values.

What the proofs found out about the code:

- Within one process the agent commits an `Enqueue` before it sends anything, so every send happens with the queue
  file settled on disk; every method that sends asks for that, and `AgentRuntime.Runtime.Run` shows it is always so.
- `Enqueue` could write a file that `decodeEnvelope` refuses only with a clock reading the zero time on an empty queue
  (`Envelopes.AppendAccepted`).
- The comment on the trailing window says a late row is always picked up. It is not when the trailing drain itself runs
  out of pages while the frontier completes: `ProjectorLoss.CappedTrailingLosesARow` is such a run, and
  `ProjectorLoss.LosesNothingExactly` and `ProjectorArrivals.LosesNothingWithArrivals` say exactly when a pass loses
  nothing, over a source at rest and over one that grows meanwhile.
- Catch-up reaches the head if and only if no instant on the way holds as many rows as one pass may read
  (`ProjectorCatchUp.CatchesUpExactly`).
- Over a source at rest the trailing window is not needed: any runs that end at the same head agree, cut short or not
  (`ProjectorConfluence.RunsAgree`).
- A missing actor is written as the number 0 and a present one as two strings, so the canonical bytes are unambiguous only
  because the presentation version is checked to be 1: `CanonicalHash.PreimageInjective` and
  `CanonicalHash.VersionsCanCollide`. A non-empty title is not needed.
- The manager remembers one handled request id, so a request repeated unchanged is collected again, with no stop, once
  another was handled in between (`ManagerRuns.RepeatsAfterAnother`); `ManagerRuns.CollectsExactly` and
  `ManagerRuns.HandledNotRepeated` say what does hold.
- A collection frequency over 9,223,372,036 seconds overflows its 64-bit duration, and rounds then start before it has
  passed (`ManagerRuns.StartsTooSoon`); `ManagerRuns.KeptExactly` says that no other frequency does that.

## Model

| member | source | states |
|---|---|---|
| `Envelopes.IdentityInjective` | agent/syncqueue/store.go:293-334 | a batch id names one producer and one sequence |
| `Envelopes.DecodeEnvelope` | agent/syncqueue/store.go:489-542 | the single pass comparing neighbours accepts exactly the envelopes whose entries are strictly ordered in sequence and time, all within the header's bounds, with the retired floor tight |
| `Envelopes.ThinningAccepted` | agent/syncqueue/store.go:424-432 | removing any entries of an accepted envelope and advancing the floor leaves an accepted one whose floor did not go back |
| `Envelopes.DeleteAccepted` | agent/syncqueue/store.go:371-387 | deletion by ids keeps the file acceptable |
| `Envelopes.IdsDistinct` | agent/syncqueue/store.go:489-542 | ids identify entries of an accepted envelope |
| `Envelopes.StampedMatches` | agent/syncqueue/store.go:336-349 | stamping a batch makes its identity check succeed, in the batch and every fact in it |
| `Envelopes.AppendAccepted` | agent/syncqueue/store.go:293-334 | an appended entry is acceptable to decoding if and only if its time is not the zero time |
| `Envelopes.GoJsonLawful` | agent/syncqueue/store.go:434-475 | the encoded size of an envelope is the size without entries plus the entries plus the commas between them, for any floor |
| `Pruning.PrunedUnique` | agent/syncqueue/store.go:434-475 | the longest suffix within age, count and encoded size is unique |
| `Pruning.PrunedIsLongest` | agent/syncqueue/store.go:434-475 | the reference pruning is the longest suffix meeting all three limits, and nothing else is |
| `Pruning.FirstCandidate` | agent/syncqueue/store.go:436-450 | the age scan and count cut stop at the first suffix within both limits |
| `Pruning.PruneEnvelope` | agent/syncqueue/store.go:434-475 | the linear pass with an incrementally kept size returns that longest suffix, or fails exactly when even the empty queue is too big |
| `Pruning.AgeScanIsFilter` | agent/syncqueue/store.go:436-446 | under the queue's order the age scan keeps exactly the fresh entries |
| `Pruning.PrunedAccepted` | agent/syncqueue/store.go:434-475 | a pruned queue is acceptable and small enough to write |
| `FileStores.MarkAccepted` | agent/syncqueue/store.go:389-402 | counting an attempt changes nothing else and keeps the file acceptable |
| `FileStores.MutatedEvolves` | agent/syncqueue/store.go:408-422 | every mutation leaves an acceptable, later state of the same authority |
| `FileStores.EnqueueEvolves` | agent/syncqueue/store.go:293-334 | so does Enqueue, consuming exactly the next sequence and fitting the byte limit |
| `FileStores.EnqueueSucceedsExactly` | agent/syncqueue/store.go:293-334 | a batch of the session is accepted if and only if dropping older ones can make room for it, so none ever keeps a new one out |
| `FileStores.EnqueueStores` | agent/syncqueue/store.go:293-334 | Enqueue leaves a suffix of the old queue with the stamped batch behind it |
| `QueueObject.FileStore.constructor` | agent/syncqueue/store.go:108-119 | a new process starts unlocked and unpoisoned on whatever is on disk, with usable limits |
| `QueueObject.FileStore.ReadEnvelope` | agent/syncqueue/store.go:477-487 | reading yields the file's envelope or its refusal |
| `QueueObject.FileStore.Ready` | agent/syncqueue/store.go:240-251 | an operation proceeds only on an open, unpoisoned, readable queue of this session |
| `QueueObject.FileStore.WriteEnvelope` | agent/syncqueue/store.go:611-659 | the new disk and poison for each way a write can end |
| `QueueObject.FileStore.Bootstrap` | agent/syncqueue/store.go:208-221 | a fresh authority is written, or the lock is released |
| `QueueObject.FileStore.OpenSession` | agent/syncqueue/store.go:133-221 | the whole new state for a missing, legacy, unreadable, same-session and other-session file |
| `QueueObject.FileStore.AdoptOrReplace` | agent/syncqueue/store.go:193-221 | the same session is adopted; another is retired first and replaced second |
| `QueueObject.FileStore.Close` | agent/syncqueue/store.go:234-238 | closing releases the lock and leaves the disk alone |
| `QueueObject.FileStore.ReplayState` | agent/syncqueue/store.go:253-267 | the bounds reported are those on disk |
| `QueueObject.FileStore.List` | agent/syncqueue/store.go:351-365 | the entries listed are those on disk, in order |
| `QueueObject.FileStore.Enqueue` | agent/syncqueue/store.go:293-334 | the new state and id as the specification used by the run theorems |
| `QueueObject.FileStore.ReserveLiveSequences` | agent/syncqueue/store.go:269-291 | the same for a live block, including refusal on overflow |
| `QueueObject.FileStore.DeleteMany` | agent/syncqueue/store.go:371-387 | the in-place filter loop deletes exactly the named entries |
| `QueueObject.FileStore.MarkAttempt` | agent/syncqueue/store.go:389-402 | the search loop counts the attempt of the first entry with the id, and rewrites the same queue when there is none |
| `QueueObject.FileStore.Prune` | agent/syncqueue/store.go:404-422 | pruning as a mutation |
| `QueueRuns.WriteKeepsInv` | agent/syncqueue/store.go:611-659 | an evolving write keeps every claim honoured by every file a crash could leave, however the write ends |
| `QueueRuns.ReplaceAuthorityKeepsInv` | agent/syncqueue/store.go:200-221 | retiring one authority and starting another with a fresh producer keeps them too |
| `QueueRuns.PowerLossKeepsInv` | agent/syncqueue/store.go:611-659 | a power loss leaving any possible file keeps them |
| `QueueRuns.StepKeepsInv` | agent/syncqueue/store.go:133-422 | every operation, restart, power loss and message keeps the invariant |
| `QueueTheorems.RunKeepsInv` | agent/syncqueue/store.go:133-422 | so does every run |
| `QueueTheorems.ReachableClosed` | agent/syncqueue/store.go:133-422 | reachable states are closed under every legal step |
| `QueueTheorems.NeverAllocatedTwice` | agent/syncqueue/store.go:293-334 | no run returns one producer's batch sequence twice; later ones are larger, across crashes |
| `QueueTheorems.BlocksNeverOverlap` | agent/syncqueue/store.go:269-291 | live blocks of one producer never overlap, across crashes |
| `QueueTheorems.MessagesStayInOrder` | agent/runtime/runtime.go:985-1019 | over every run, the messages of one producer stay in order: advertised bounds never go back, live sequences strictly increase, and one batch sequence never goes out with two different contents |
| `QueueTheorems.MessageCarriesItsBatch` | agent/runtime/runtime.go:739-763 | what is transmitted under a sequence is the batch Enqueue returned that sequence for, and is transmitted only after it was returned |
| `QueueTheorems.SnapshotsStayAcceptable` | agent/syncqueue/store.go:489-659 | every file on disk, or left by a crash at any point, is one decoding accepts |
| `QueueTheorems.LedgerIsExact` | agent/syncqueue/store.go:293-475 | every batch Enqueue returned is queued or has a recorded fate, and never both; one that was pruned fitted in no queue within the limits, and one retired with its session was of another session |
| `QueueTheorems.SettledRemovalIsFinal` | agent/syncqueue/store.go:371-387 | a removal that reached the disk is never undone by any later run |
| `QueueTheorems.OpensOnNothing` | agent/syncqueue/store.go:133-221 | a queue can be opened where there was none |
| `QueueTheorems.AllocatesNext` | agent/syncqueue/store.go:293-334 | an open queue with room allocates exactly the next sequence and stays open, so runs of any length exist |
| `QueueTheorems.PoisonedRefusesAll` | agent/syncqueue/store.go:240-251 | after an ambiguous write every operation is refused |
| `QueueTheorems.PoisonedIsInert` | agent/syncqueue/store.go:240-251 | until the process is replaced, a poisoned run changes nothing on disk and hands out no sequence |
| `QueueTheorems.RefusalLeavesDisk` | agent/syncqueue/store.go:269-422 | an operation that fails without ambiguity left the store as it was; one that succeeds left nothing in doubt |
| `QueueTheorems.PrunedWriteFits` | agent/syncqueue/store.go:434-475 | a write after pruning is never refused for its size |
| `SyncProtocol.TransportKeepsDigest` | internal/contracts/agentapi/sync_protocol.go:44-75 | marking a batch as backfill, refreshing its bounds and attaching a live signal keep its canonical digest input |
| `SyncRound.OperationEvolves` | agent/syncqueue/store.go:269-422 | while serving, the stored authority only moves forward |
| `AgentLog.WiresAreOk` | agent/runtime/runtime.go:739-1019 | in the log of everything handed to the center, the messages of one producer are in order across ticks, Runs and replaced processes |
| `AgentLog.WireCarriesItsBatch` | agent/runtime/runtime.go:739-763 | a logged message under a batch sequence has the digest input of the batch Enqueue returned it for |
| `AgentLog.StepJustified` | agent/runtime/runtime.go:631-727 | every queue operation leaves each removed batch with a reason found in the log: an acknowledgement of it, a rejection of its payload, a stop ordered while it was queued, the authority then served, the limits or another session |
| `AgentLog.AllAccounted` | agent/runtime/runtime.go:568-727 | so every batch returned is queued, or gone for a reason the log of exchanges shows; a stop explains only batches returned before it |
| `AgentLog.TemporaryAnswersKeepBatch` | agent/runtime/runtime.go:864-890 | a batch whose every answer was a failed connection, a 429, a server error or a deferral, with no stop ordered and only authorities it belongs to served since it was returned, is still queued unless the limits or another session displaced it; earlier stops and authorities do not matter |
| `AgentItems.ItemsStored` | agent/runtime/runtime.go:539-566 | everything pending is in the batch just returned, after everything that left before, and in no other |
| `AgentItems.ItemsDropped` | agent/runtime/runtime.go:948-983 | everything pending at a stop is dropped by the stop just ordered, once |
| `AgentItems.BatchHoldsStretch` | agent/runtime/runtime.go:494-566 | the command results and the IP reports in a batch are one stretch each of those produced, the reports up to the stamped batch id, and the stretches of different batches do not overlap |
| `AgentItems.NoResultIsLost` | agent/runtime/runtime.go:494-566 | over any stretch of the loop, a command result that was pending or is produced in it is pending, or in a batch returned in it, or dropped by a stop ordered in it |
| `AgentItems.NoReportIsLost` | agent/runtime/runtime.go:494-566 | the same for IP reports |
| `AgentState.OperationKeepsAgentInv` | agent/runtime/runtime.go:985-1004 | the unused part of the live block stays durably reserved and above all issued sequences |
| `AgentState.StepKeepsCore` | agent/runtime/runtime.go:319-448 | a queue operation keeps the agent's whole invariant: live block, log, reasons and the stop behind a stopped state |
| `AgentState.SayFacts` | agent/runtime/runtime.go:739-763 | so does handing over a message, whatever comes back |
| `AgentState.WireMayBeSaid` | agent/runtime/runtime.go:739-763 | a stored batch, marked or with an unused live sequence and with the stored bounds, continues every order promised so far and delivers the batch's facts |
| `AgentState.CurrentIsNewest` | agent/runtime/runtime.go:539-593 | the current batch of a round is the one just stored |
| `AgentState.StretchJoin` | agent/runtime/runtime.go:400-447 | stretches of the loop follow one another: nothing claimed, said or produced is forgotten, every plan answered is followed, and the back-off is what the answers asked for |
| `AgentState.RetainedStored` | agent/runtime/runtime.go:683-727 | entries kept by the stale filter are still stored after the others are deleted |
| `AgentState.StaleComplete` | agent/runtime/runtime.go:683-727 | and nothing else is |
| `AgentRuntime.Runtime.constructor` | agent/runtime/runtime.go:262-317 | a new process over any disk an earlier one could leave satisfies the runtime's invariants, log and claims included |
| `AgentRuntime.Runtime.AttachLiveSignal` | agent/runtime/runtime.go:985-1004 | the sequence issued is from a durably reserved block, above every one attached to a message so far and not available again; the batches stay as they were |
| `AgentRuntime.Runtime.RefreshReplayState` | agent/runtime/runtime.go:1006-1019 | the message carries the stored authority's bounds or is not sent |
| `AgentRuntime.Runtime.Ask` | agent/runtime/runtime.go:739-763 | handing over a message that may be said keeps every invariant, whatever is answered |
| `AgentRuntime.Runtime.Transmit` | agent/runtime/runtime.go:739-763 | at most one message goes out, with the stored bounds; for a batch, only while it is durably stored, with its facts unchanged |
| `AgentRuntime.Runtime.Exchange` | agent/runtime/runtime.go:739-763 | exactly this message is handed to the center, the answer is judged as it is, and the back-off becomes exactly what the answer asks for |
| `AgentRuntime.Runtime.SyncRequest` | agent/runtime/runtime.go:729-737 | backlog goes out as backfill and the current batch with a live signal; a message in the log is this batch's, and the result is the judgement of its answer |
| `AgentRuntime.Runtime.ApplySyncPlan` | agent/runtime/runtime.go:948-983 | the plan of the last logged acknowledgement: a stop drops everything pending, and otherwise only an executed action's result is added |
| `AgentRuntime.Runtime.HandleRefusal` | agent/runtime/runtime.go:631-681 | after this batch was refused: dropped exactly when the logged answer rejects its payload, and otherwise every batch stays |
| `AgentRuntime.Runtime.HandleAcknowledgement` | agent/runtime/runtime.go:631-681 | after this batch was acknowledged in the log: exactly it is dropped, with a stop the queue is emptied, and the plan is followed, its executed result recorded or the pending items dropped |
| `AgentRuntime.Runtime.SendEntry` | agent/runtime/runtime.go:631-681 | a stored entry is sent and is still stored when its answer is known |
| `AgentRuntime.Runtime.FlushSyncQueueEntry` | agent/runtime/runtime.go:631-681 | one batch is sent and its logged answer decides: only an acknowledgement that is not deferred or a rejection of its payload removes it, only an acknowledged stop clears the queue, every other answer leaves the same batches; its plan is followed, and a refusal is what the answer asked for |
| `AgentRuntime.Runtime.DiscardStale` | agent/runtime/runtime.go:683-727 | exactly the entries of this authority stay, in order |
| `AgentRuntime.Runtime.FlushBacklog` | agent/runtime/runtime.go:595-619 | the two oldest backlog batches are sent in order, fewer only after a back-off not over at the time read, a retry an answer asked for, a failure or a stop; nothing follows a stop, and the current batch stays stored |
| `AgentRuntime.Runtime.BacklogReady` | agent/runtime/runtime.go:597-602 | the backlog is sent if and only if there is no back-off or it is over at the time read |
| `AgentRuntime.Runtime.LocateCurrent` | agent/runtime/runtime.go:577-593 | the backlog is the ordered rest, and there is no current entry if and only if none or several have its id |
| `AgentRuntime.Runtime.GatherRound` | agent/runtime/runtime.go:568-593 | the entries of this authority, in order, split into the current one and the others; stale ones are deleted |
| `AgentRuntime.Runtime.FlushSyncQueue` | agent/runtime/runtime.go:568-629 | what a flush adds to the log is a round over the listed entries of this authority: the two oldest first unless a back-off holds them up, then the entry asked for, which went out if the flush succeeded without a stop |
| `AgentRuntime.Runtime.SendRound` | agent/runtime/runtime.go:595-629 | a successful round sends the two oldest backlog batches, or those there are, unless a back-off holds them up, and then the current one |
| `AgentRuntime.Runtime.SendCurrent` | agent/runtime/runtime.go:620-629 | the current batch ends the round, and success means it was sent |
| `AgentRuntime.Runtime.AcknowledgePendingPayloads` | agent/runtime/runtime.go:555-566 | the first queued items of each pending list are forgotten, the rest kept in order |
| `AgentRuntime.Runtime.StoreRound` | agent/runtime/runtime.go:539-553 | pending items are forgotten exactly when they are durably in the batch returned, which is the newest queued; a failed enqueue keeps them, marked as in doubt if the write was ambiguous |
| `AgentRuntime.Runtime.FlushStored` | agent/runtime/runtime.go:539-553 | after pruning, the round is around the batch just stored, with the two oldest others before it unless a back-off holds them up |
| `AgentRuntime.Runtime.EnqueueAndFlush` | agent/runtime/runtime.go:539-553 | everything pending is in the batch stored, the first thing claimed, or stays pending if none could be; the round that follows is over the queue as it was and that batch |
| `AgentRuntime.Runtime.SendControl` | agent/runtime/runtime.go:1041-1054 | while stopped, at most one message goes out, it carries nothing collected, collection resumes exactly when its acknowledgement orders no stop, and an executed result is recorded |
| `AgentRuntime.Runtime.BuildSyncRequest` | agent/runtime/runtime.go:494-537 | everything drained joins the pending reports and every pending result and report rides along; while stopped nothing is drained and the message is minimal |
| `AgentRuntime.Runtime.Tick` | agent/runtime/runtime.go:400-447 | what a tick adds to the log is a control message while stopped and otherwise a round around the batch it stored, the two oldest others first unless held up; what was pending or drained is in that batch or still pending; every plan answered is followed; and a tick that gives up or retries does so because an answer asked for it |
| `AgentRuntime.Runtime.TickUntil` | agent/runtime/runtime.go:400-447 | ticks follow one another, each drained report and each executed result recorded; while no answer asks for a back-off every round takes the two oldest along |
| `AgentRuntime.Runtime.Run` | agent/runtime/runtime.go:319-448 | any number of ticks adds tick after tick to the log, whose messages are in order; earlier claims, exchanges and items stay; every batch is accounted for by the log, every item by one batch, one stop or the pending list; an ambiguous write latches, and every later Run does nothing |
| `AgentRuntime.Replace` | agent/runtime/runtime.go:319-448 | a process replaced after a power loss is bound by every earlier claim and every exchange in the log |
| `AgentRuntime.StartAgain` | agent/runtime/runtime.go:319-448 | so is one started again over the same disk, with whatever is in doubt about it |
| `Projector.ValidateMeans` | internal/center/activity/projector.go:464-524 | a candidate passes if and only if it lies in the window, past the cursor, with valid content |
| `Projector.NoRefusal` | internal/center/activity/projector.go:453-460 | a page passes if and only if every candidate does |
| `ProjectorDrain.PageStepAdvances` | internal/center/activity/projector.go:394-451 | a full page strictly advances the keyset cursor, whatever the adapter returns |
| `ProjectorDrain.NeverStalled` | internal/center/activity/projector.go:394-451 | so a drain is never reported stalled |
| `ProjectorDrain.ReadWithinWindow` | internal/center/activity/projector.go:394-451 | nothing past the window's end counts as read |
| `ProjectorDrain.PublishKeeps` | internal/center/store/record_activity.go:87-201 | a batch adds its new rows and loses or changes none |
| `ProjectorDrain.DrainRefinesFilter` | internal/center/activity/projector.go:387-451 | a drain adds only rows of its window; complete, it has them all; capped, it lacks only rows at or after the last it read |
| `ProjectorDrain.ReadsInOrder` | internal/center/activity/projector.go:387-451 | rows are read in strict keyset order, none twice, even across pages sharing one time |
| `ProjectorRuns.CheckpointStaysInBounds` | internal/center/activity/projector.go:245-316 | the checkpoint never moves back, moves only in a pass that succeeds, and never passes the head |
| `ProjectorRuns.LateRowIsRecent` | internal/center/activity/source.go:36-62 | a row that becomes visible late is within lag and overlap of the clock |
| `ProjectorRuns.FrontierLeaves` | internal/center/activity/projector.go:245-316 | a row the frontier left unread is at or after the new checkpoint |
| `ProjectorRuns.TrailingCatches` | internal/center/activity/source.go:112-128 | a complete trailing drain projects every row within the overlap behind the checkpoint |
| `ProjectorRuns.PassKeepsRows` | internal/center/activity/projector.go:245-316 | one pass, failed or capped, with rows appearing while it runs, loses nothing unless its trailing drain was cut short |
| `ProjectorRuns.NoLateRowIsLost` | internal/center/activity/source.go:104-128 | over every run, each row not yet projected stays within reach of the trailing window |
| `ProjectorRuns.ArrivalsStayInReach` | internal/center/activity/source.go:104-128 | rows that become visible while a pass runs are never what it loses: whether one falls out of reach is decided by the rows visible when the head was taken |
| `ProjectorRuns.CaughtUpAfterLateRows` | internal/center/activity/projector.go:245-316 | once rows that arrived late have stopped arriving, a caught-up projection is exactly the rows through the head |
| `ProjectorRuns.RebuildIsUnique` | internal/center/activity/projector.go:245-316 | the rows through a head determine the projection |
| `ProjectorConfluence.PassKeepsBehind` | internal/center/activity/projector.go:245-316 | one pass, however it ends, leaves every row before the checkpoint projected, and one that reads its forward window to the end has projected every row through the head, its trailing drain cut short or not |
| `ProjectorConfluence.CaughtUpIsExact` | internal/center/activity/projector.go:245-316 | over a source at rest, a run whose last pass succeeded to the head has projected exactly the rows through it, whatever its batch sizes, page budgets, failures and capped drains |
| `ProjectorConfluence.RunsAgree` | internal/center/activity/projector.go:245-316 | so any two such runs, a rebuild from nothing among them, have the same projection |
| `ProjectorStatic.DrainReadsBudget` | internal/center/activity/projector.go:387-451 | over a source at rest a drain completes if and only if the window holds fewer rows than pages times batch size, and publishes exactly the first that many |
| `ProjectorStatic.QuietPass` | internal/center/activity/projector.go:245-316 | the whole outcome of a pass over a source at rest, in terms of its rows |
| `ProjectorCatchUp.IncompletePassAdvances` | internal/center/activity/projector.go:245-316 | a capped pass advances the checkpoint if and only if fewer rows than its budget share the checkpoint's instant |
| `ProjectorCatchUp.CatchUpTerminates` | internal/center/activity/projector.go:41-44 | without a crowded instant, at most one pass more than the rows ahead reaches the head |
| `ProjectorCatchUp.CrowdStopsForever` | internal/center/activity/projector.go:41-44 | a crowded instant is never passed, however many passes follow |
| `ProjectorCatchUp.CatchesUpExactly` | internal/center/activity/projector.go:245-316 | some pass reaches the head if and only if no instant up to it is crowded |
| `ProjectorLoss.LosesNothingExactly` | internal/center/activity/projector.go:245-316 | over a source at rest, checkable before the pass: it loses no row if and only if every row its trailing window could not reach stays within the overlap of the next checkpoint |
| `ProjectorLoss.CappedTrailingLosesARow` | internal/center/activity/projector.go:245-316 | two passes over an orderly, timely source that lose a row |
| `ProjectorArrivals.DrainStops` | internal/center/activity/projector.go:387-451 | over a growing source, where a drain stopped says exactly which rows of its window it has not projected |
| `ProjectorArrivals.LosesNothingWithArrivals` | internal/center/activity/projector.go:245-316 | whatever becomes visible while it runs, a successful pass loses no row if and only if every row visible as it took its head that its trailing drain passed over stays within the overlap of the checkpoint it wrote |
| `ProjectorLoss.PageExists` | internal/center/activity/projector.go:394-451 | every source has the page the adapter is asked for, so the drain theorems are about real adapters |
| `ProjectorObject.Stores.PublishBatch` | internal/center/store/record_activity.go:87-201 | the loop publishes all new rows of a batch or, on any conflict, none |
| `ProjectorObject.SourceProjector.ValidateCandidates` | internal/center/activity/projector.go:453-460 | the loop reports the first refusal |
| `ProjectorObject.SourceProjector.ReadPage` | internal/center/activity/projector.go:410-451 | one turn of the drain loop |
| `ProjectorObject.SourceProjector.Drain` | internal/center/activity/projector.go:394-451 | the loop, updating the stores in place, ends as the drain the theorems describe |
| `ProjectorObject.SourceProjector.RecordFailure` | internal/center/activity/projector.go:318-339 | a failure counts an attempt and leaves the position |
| `ProjectorObject.SourceProjector.ProjectSource` | internal/center/activity/projector.go:245-316 | the pass over mutable stores is the pass the theorems describe |
| `Bytes.Utf8Injective` | internal/center/activity/source.go:398-401 | a string is determined by its bytes |
| `Bytes.U64Split` | internal/center/activity/source.go:403-407 | eight bytes determine the number and leave the rest |
| `Bytes.FieldsSplit` | internal/center/activity/source.go:398-407 | field lists of one shape are determined by a concatenation, and so is what follows them |
| `CanonicalHash.SortedKeys` | internal/center/activity/source.go:369-396 | the keys are hashed in one order, whatever order the map yields them in |
| `CanonicalHash.SubjectPreimageInjective` | internal/center/activity/source.go:369-396 | a subject is determined by the bytes of its sub-digest |
| `CanonicalHash.WriteCandidate` | internal/center/activity/source.go:290-334 | the accumulating writes produce the preimage the theorems are about |
| `CanonicalHash.ActorTold` | internal/center/activity/source.go:316-327 | whether there was an actor can be told from the bytes |
| `CanonicalHash.PreimageInjective` | internal/center/activity/source.go:286-334 | two candidates of version 1 hash the same bytes if and only if they report the same fact, times to the microsecond |
| `CanonicalHash.SameHashSameFact` | internal/center/activity/source.go:286-334 | where SHA-256 does not collide, one hash means one fact, subjects included |
| `CanonicalHash.VersionsCanCollide` | internal/center/activity/types.go:232-244 | without the version check, for any candidate, an event without an actor and one with an actor hash the same bytes |
| `CanonicalHash.IdPreimageInjective` | internal/center/activity/types.go:185-221 | an activity id is derived from bytes that name project, source identity and kind |
| `Queries.SameQuestionSameNormal` | internal/center/activity/query.go:69-154 | two queries normalize alike if and only if they ask the same question, up to order and repeats of filters |
| `Queries.NormalIsStable` | internal/center/activity/query.go:69-154 | normalizing is idempotent and keeps the question |
| `Queries.NormalizeFilter` | internal/center/activity/query.go:73-154 | a filter is refused exactly on an unknown value and otherwise becomes the one increasing list of its values |
| `Queries.NormalizeQuery` | internal/center/activity/query.go:73-154 | exactly the askable queries normalize, to the normal form |
| `Queries.ResolvedEventKinds` | internal/center/activity/query.go:160-187 | a kind is admitted if and only if view and explicit filter both allow it, an empty overlap admitting none |
| `Queries.QueryPreimageInjective` | internal/center/activity/query.go:203-243 | a normalized query is determined by its digest's bytes |
| `Queries.DigestBindsQuestion` | internal/center/activity/query.go:203-243 | digest bytes agree if and only if the questions do |
| `CursorText.ReadsObject` | internal/center/activity/cursor.go:192-263 | reading the text of an object back gives its members |
| `CursorText.Unmarshals` | internal/center/activity/cursor.go:192-263 | the decoder, over any text, accepts what was marshalled and gives exactly that back |
| `CursorText.PayloadFits` | internal/center/activity/cursor.go:133-181 | a payload never needs more than 373 bytes |
| `CursorText.UnpadPad` | internal/center/activity/cursor.go:265-286 | padding fills the bucket and can be undone |
| `CursorText.PadCursorPlaintext` | internal/center/activity/cursor.go:267-275 | copying into a zeroed bucket is that padding |
| `Cursors.EncodeNeverOverflows` | internal/center/activity/cursor.go:133-181 | encoding fails if and only if the values are invalid, and every token's plaintext has one length |
| `Cursors.BindExactly` | internal/center/activity/cursor.go:188-263 | a token binds if and only if question, actor, generation and time are its own, giving back its position to the microsecond; and exactly when it is called expired rather than invalid |
| `Cursors.MatchesMeans` | internal/center/activity/cursor.go:288-300 | the binding digests agree if and only if question and normalized actor do |
| `PageStore.RevisionKeepsEarlier` | internal/center/store/record_activity.go:217-278 | publishing a revision leaves every earlier watermark's intervals as they were |
| `PageStore.PublishExtends` | internal/center/store/record_activity.go:87-201 | publication only extends a store |
| `PageStore.PublishKeepsOneCurrent` | internal/center/store/record_activity.go:202-278 | at every watermark a record has at most one current revision |
| `PageStore.WatermarkIsStable` | internal/center/store/record_activity_query.go:449-592 | a question has one answer at a fixed watermark, whatever is published later |
| `Pagination.TimelineUnique` | internal/center/store/record_activity_query.go:453-483 | the order of the page query determines the list |
| `Pagination.AfterIsSuffix` | internal/center/store/record_activity_query.go:579-592 | the keyset predicate selects exactly what follows a row |
| `Pagination.DeployedIsGenuine` | internal/center/activity/cursor.go:133-263 | a service over this codec is one of those the walks below are about |
| `Pagination.ListAtIsSlice` | internal/center/activity/service.go:206-316 | a page is a slice of the timeline, and has a next cursor exactly when more follows |
| `PageWalks.NextBinds` | internal/center/activity/service.go:255-285 | an unexpired next cursor of a page binds, to the walk's watermark and the last row of that page |
| `Pagination.WalkExists` | internal/center/activity/service.go:174-316 | every question the service can answer over a sound store has a walk: a watermark and its timeline |
| `Pagination.WalkServesAll` | internal/center/activity/service.go:174-316 | whatever was answered, following the cursor served the first watermark's timeline in order, and once it ended each row exactly once, however much is published meanwhile |
| `PageWalks.NextIsListed` | internal/center/activity/service.go:174-316 | a request with an unexpired next cursor of its walk is answered |
| `PageWalks.SnapshotIsListed` | internal/center/activity/service.go:274-285 | so is one with the unexpired snapshot cursor of any page, and it lists the first page again at the same watermark, whatever was published since |
| `PageWalks.WalkCompletes` | internal/center/activity/service.go:174-316 | one request more than the timeline has rows, each in time, is enough: following the cursor ends, having served every row exactly once, in order |
| `PageWalks.WalkCanComplete` | internal/center/activity/service.go:174-316 | asking again before anything expires is such a sequence, so every walk over a genuine service can be completed |
| `Pagination.TimelineIsExact` | internal/center/activity/service.go:206-234 | that timeline is exactly the authorized rows at or below the watermark |
| `CollectionManager.PeriodIsExact` | agent/ipquality/state.go:101-113 | the 64-bit duration is the plan's frequency if and only if that is at most 9,223,372,036 seconds; past that it is always too short |
| `CollectionManager.AggregateReportStatus` | agent/ipquality/manager.go:140-163 | the loop's flags decide the combined status of all reports |
| `ManagerRuns.StepKeepsInv` | agent/ipquality/manager.go:37-138 | every step of the manager and its rounds keeps the invariant |
| `ManagerRuns.AtMostOneRound` | agent/ipquality/manager.go:37-85 | at most one round is ever in flight, and the flag says whether |
| `ManagerRuns.StoppedNeverQueued` | agent/ipquality/manager.go:86-138 | nothing of a stopped round is ever queued or waits to be sent |
| `ManagerRuns.MarkedMatchesSelection` | agent/ipquality/manager.go:37-85 | a request marks only a round that collects exactly the families it selects |
| `ManagerRuns.ScheduledStartsApart` | agent/ipquality/state.go:101-113 | scheduled starts are at least the plan's duration after any earlier start, across restarts, for every frequency |
| `ManagerRuns.StartsTooSoon` | agent/ipquality/state.go:101-113 | for every frequency over 9,223,372,036 seconds, a run that starts two rounds before it has passed |
| `ManagerRuns.KeptExactly` | agent/ipquality/state.go:101-113 | every run keeps a frequency between scheduled starts if and only if it is at most 9,223,372,036 seconds |
| `ManagerRuns.HandledNotRepeated` | agent/ipquality/manager.go:37-138 | a handled request is collected again only after a stop, a restart or another handled request |
| `ManagerRuns.CollectsExactly` | agent/ipquality/manager.go:37-85 | an idle manager collects for a request if and only if it is not the one last handled |
| `ManagerRuns.RepeatsAfterAnother` | agent/ipquality/manager.go:37-138 | for any two requests, a run without stop or restart that collects the first twice |
| `ManagerObject.StateStore.Save` | agent/ipquality/state.go:54-99 | what is on disk after a save that succeeds, fails or is in doubt |
| `ManagerObject.StampReports` | agent/ipquality/manager.go:190-211 | every report carries the claimed request |
| `ManagerObject.IpQualityManager.MaybeStart` | agent/ipquality/manager.go:37-85 | the fields and the disk after it are the step the run theorems are about |
| `ManagerObject.IpQualityManager.Stop` | agent/ipquality/manager.go:86-98 | the same for a stop, which cancels the round |
| `ManagerObject.IpQualityManager.DrainReports` | agent/ipquality/manager.go:100-106 | everything waiting is handed over once |
| `ManagerObject.IpQualityManager.Finish` | agent/ipquality/manager.go:108-138 | the critical section that ends a round |
| `ScriptLexer.StepBrackets` | agent/ipquality/services.go:407-575 | only brackets in code change depth and slices; strings, comments and regular expressions hide them |
| `ScriptLexer.SlicesInOrder` | agent/ipquality/services.go:407-575 | for every script the pieces are disjoint, in order and bracketed |
| `ScriptJson.JsonGood` | agent/ipquality/services.go:407-575 | the tokens of any JSON text are balanced and never read as a comment or regular expression |
| `ScriptJson.JsonIsCutOut` | agent/ipquality/services.go:407-575 | from any top-level place, any JSON object or array is cut out as exactly that text |
| `ScriptJson.ScanSkipsJson` | agent/ipquality/services.go:407-575 | and the scan goes on right after it at the top level |
| `ScriptJson.JsonAlone` | agent/ipquality/services.go:407-575 | a script that is one JSON object or array is one piece |
| `ScriptObject.ReadWord` | agent/ipquality/services.go:407-580 | the word loop stops at the first character that is not a word byte |
| `ScriptObject.Turn` | agent/ipquality/services.go:407-575 | one turn of the loop is one step of the scanner |
| `ScriptObject.ServiceScriptObjects` | agent/ipquality/services.go:407-575 | the decoded objects are the pieces that decode, in order, and the YouTube ones those bound to its names |

## Left out

- Enrolment, configuration, HTTP, probes, host samples, command execution and logging.
- File-system mechanics: temporary files, permissions, locks held by other processes beyond whether one is obtained, and
  the option that skips fsync. A failed encoding is a write that fails before the rename.
- Producer ids: a fresh random one is assumed never to have been used.
- AgentRuntime.Runtime.Run: the number of ticks before cancellation is a parameter, and the order of ticks, cancellation
  and errors is the one loop of the source without its timers.
- AgentRuntime.Runtime.Tick: a failure of the agent's own (the queue, a missing fingerprint) may end any tick; what causes
  it is not part of the contract, only what it leaves.
- AgentRuntime.Replace: a process dies between two calls of its methods; a power loss in the middle of an operation is a
  step of `QueueRuns`.
- Digest inputs keep exactly the members the digest keeps; SHA-256 itself appears as a function assumed not to collide on
  the two inputs compared, and AES-GCM as a seal only its own key opens.
- Several sources in one projection run, worker leases, failure codes, outcome counts and readiness claims: they only add
  bookkeeping around one source's pass.
- Adopting a checkpoint whose stored kind is unset; the store always writes one.
- Deletion fences, tombstones, subject headers, freshness, source statuses and newer-event hints of a page.
- Text columns are ordered by code points; a database collation that differs is not modelled.
- Times outside 64-bit microseconds, where `UnixMicro` wraps, are excluded from the hash and cursor theorems.
- ScriptJson.JsonIsCutOut: says which text is handed to the decoder; the decoder may still refuse it (a number out of
  range), so decoding is a parameter.
- The HTML side of the service probes and what they conclude from the objects.
