# Verified models of the bot orchestrator

The orchestrator connects chat conversations to an App Server that runs agent turns. Its difficult parts are durable
state machines driven by conditional SQL statements, a worker per conversation with control barriers, a turn runtime
guarded by mutexes, and a few text and accounting algorithms. Each module below models one of them in Dafny 4.11 and
proves what it promises, over every input or over every interleaving of its steps.

`dafny verify dfyconfig.toml` checks the whole project.

## How the models are built

- A statement or transaction on a table, a section that holds a mutex, and an external call are atomic steps. A step is
  a function from state to state; a run is any sequence of steps (`After`), so every interleaving, every crash and every
  stale process is covered. The class methods next to the functions are the source's own sections, in imperative form,
  and are proved to take exactly those steps. Where the source runs several steps in sequence, the sequential method is
  proved to be a path of the interleaved machine.
- Properties are invariants that every step keeps, and lemmas about all runs derived from them. Logs and histories in
  the states (`sends`, `log`, `commits`, `calls`, `published`, `history`) record what an observer sees; no decision
  depends on them.
- Loops of the source are loops here, proved against specification functions or predicates that do not mention them.
- Text is a sequence of Unicode scalar values, except in `Utf8Chunks`, which works on bytes. Counters and times are
  unbounded integers.

| module | subject |
|---|---|
| `DocumentBatches` | planning descendant batches of a converted document: depth-first walk and greedy packing |
| `DeliveryOutbox` | result deliveries of scheduled runs: card, fallback, reconciliation |
| `ScheduleSlots` | slots of recurring tasks under racing schedulers and edits |
| `ChannelWorker` | the queue, batches, controls, timeout and shutdown of one conversation |
| `TurnRuntime` | one attempt: binding, goals, stops, the terminal fence and tool handlers |
| `Text`, `CompanionMarkers`, `CompanionLexer`, `CompanionSegments` | lexing a companion's answer and cutting it into messages |
| `CompanionDelivery` | sending these messages: order, retry, stop, record |
| `Utf8Chunks` | splitting payloads at character boundaries |
| `TokenUsage`, `UsageAttribution`, `UsageLedger` | token counters: attribution to loops, and the durable ledger |
| `ToolCallLedger` | task mutations asked for by tool calls, exactly once |
| `CatalogUpgrade` | replacing threads whose tool catalog is outdated |
| `ActionLedger` | actions on the chat platform, at most once |
| `TaskPages` | cursor pagination of an owner's tasks |

## Where the code does less than one might expect

Each of these is proved: a lemma at an input that shows it, and the exact condition under which it happens.

- `ScheduleSlots`: a scheduler that loses the race for a misfire ends its tick with an error, while one that loses a claim
  or a revocation goes on (internal/schedule/scheduler.go:141-161). `TwoSchedulersOneMisfire` is such a race,
  `LostMisfireEnds` says that everybody who still holds the observation fails, and `Tick` that a tick fails if and only if
  one of the observations it handles is a lost misfire, has a transaction that fails other than by a conflict, or is
  refused by the dispatcher.
- `ScheduleSlots`: creation and update refuse an empty payload but accept one of white space
  (internal/schedule/store.go:140-142 and :227-229), while a claim refuses both with an error that is not a conflict
  (internal/schedule/store.go:475-477). Only prompts get into that state: the service refuses a blank command, but asks of
  a prompt only that it has a byte (internal/scheduleaction/service.go:393-398). `BlankPayloadEndsTheTick` shows such a
  prompt end the tick; `Usable` is the condition.
- `DeliveryOutbox`: a crash can lose the fallback of a rejected card at two points before it is claimed: between the stored
  rejection and the insertion of the fallback row, and between that insertion and the claim, which leaves a pending row
  behind (internal/schedule/delivery_dispatcher.go:103-117). A later `Deliver` cannot claim the card again and never
  comes to the fallback (:80-83), and reconciliation looks at in-flight rows only (internal/schedule/delivery.go:172-189).
  `RejectedCardIsReachable` and `PendingFallbackIsReachable` reach the two moments, `CrashLosesTheFallback` shows that
  nothing more is sent and that the pending row stays pending, and `FallbackComesFromItsCall` says that the fallback of a
  rejected card can still come if and only if a call is alive that holds the fallback row or is on the way to it.
- `CatalogUpgrade`: an unfinished upgrade keeps its stored target, and completion compares that target with the current
  one (internal/storage/catalog.go:40 and :93). If the process is restarted with another target, every batch of the group
  starts a thread, fails to publish it and ends in an error. `RestartStrandsTheGroup` is such a run, `Processor.Process`
  states exactly when a batch succeeds, and `StrandedUpgradesStay` that only a restart helps.
- `CompanionDelivery`: when another path claims the terminal reason after the last segment, the batch is recorded through
  the plain completion, which carries no code (internal/worker/manager.go:1327-1342). The error of that completion is
  discarded, so that nothing at all is recorded when a cancelled context reaches the store. `CodeIsKeptUnlessClaimed` gives
  the exact condition of each case, and `RejectedYetCompleted` a run in which nothing arrived and a plain success, or
  nothing, is recorded.
- `CompanionMarkers`: the length limit of an inline marker is in bytes and is checked before the last character is added
  (internal/output/companion.go:106-111). `LongestMarker` is a recognised marker of 83 bytes, and `MarkersEndWithBracket`
  shows that none is longer.
- `UsageLedger`: a turn first recorded without a session and repeated with one creates a total of zero
  (internal/storage/usage.go:40-46); `RepeatedTurnsCountOnce` says exactly when, and that nothing else changes.

## Model

| member | source | states |
|---|---|---|
| `DocumentBatches.Plan` | internal/feishu/feishu.go:652-704 | planning succeeds if and only if the blocks form a forest over the given roots that covers every block once with each subtree within the limit; then the batches hold whole subtrees in preorder and root order, and no order-preserving split within the limit has fewer; each error names a defect that is there, as a missing, repeated or uncovered block, a cycle, two parents, or a root that is too large |
| `DocumentBatches.SubtreeWalk.Walk` | internal/feishu/feishu.go:706-735 | terminates on every index, cyclic ones included; succeeds exactly when the block unfolds to a finite tree without repetition that avoids all visited blocks, and returns its preorder |
| `DocumentBatches.SubtreeWalk.WalkChildren` | internal/feishu/feishu.go:721-732 | the same for the children of one block, after its earlier siblings |
| `DocumentBatches.Subtree` | internal/feishu/feishu.go:706-735 | an error means that no unfolding of the root is free of repetition; a cyclic error means a block below itself, two parents a block at two places of which neither is below the other, a missing child a reached identifier without a block |
| `DocumentBatches.IndexBlocks` | internal/feishu/feishu.go:656-665 | succeeds exactly when every block has an identifier and none occurs twice; the error says which |
| `DocumentBatches.Place` | internal/feishu/feishu.go:690-697 | a subtree is placed exactly when it shares no block with an earlier root |
| `DocumentBatches.AddRoot` | internal/feishu/feishu.go:676-698 | one round over the roots keeps the packing greedy; an error means that no forest over the roots exists |
| `DocumentBatches.UnfoldingIsUnique` | internal/feishu/feishu.go:706-735 | a block has at most one finite unfolding, so "the" forest is well defined |
| `DocumentBatches.PackIsSplit` | internal/feishu/feishu.go:676-699 | the greedy groups are an order-preserving split within the limit, without empty groups |
| `DocumentBatches.GreedyStaysAhead` | internal/feishu/feishu.go:676-699 | every other split of the same roots has more groups, or as many and a last group at least as full |
| `DocumentBatches.PlanKeepsOrder` | internal/feishu/feishu.go:652-704 | read in order, the batches give back the root list and the preorder of the forest: every block exactly once |
| `DeliveryOutbox.AtMostOneVisibleSend` | internal/schedule/delivery_dispatcher.go:59-142 | over all interleavings of dispatchers, crashes and reconciliation, a run causes at most one send that the platform did not itself reject; how the answer is classified has no part in the statement |
| `DeliveryOutbox.EachKindSentOnce` | internal/schedule/delivery.go:93-109 | the card of a run is sent at most once, and so is its fallback |
| `DeliveryOutbox.FallbackFollowsRejectedCard` | internal/schedule/delivery.go:140-170 | a fallback is sent only after a card of the same run that the platform rejected and whose stored outcome is rejected |
| `DeliveryOutbox.SilentRunSendsNothing` | internal/schedule/delivery.go:43-78 | a silent run sends nothing, ever |
| `DeliveryOutbox.DeliveriesNeedTerminalRuns` | internal/schedule/delivery.go:43-78 | every delivery row belongs to a run in a terminal state |
| `DeliveryOutbox.TerminalRunIsFrozen` | internal/schedule/run_state.go:68-112 | a terminal run never changes again, whatever happens later |
| `DeliveryOutbox.StepKeepsInv` | internal/schedule/delivery_dispatcher.go:59-142 | every step of every actor keeps the invariant behind these results |
| `DeliveryOutbox.ResultDeliveryDispatcher.Deliver` | internal/schedule/delivery_dispatcher.go:59-110 | the program is a path of the step machine; undisturbed, a call for an ended run whose card is free, with route and sender, sends the card once and one fallback if and only if the platform rejected the card; stored is sent only for an accepted message that can be audited, rejected only for a rejected one, unknown otherwise; in every other case nothing is sent, the error says why, and without a configured sender or a route a free card stays free |
| `DeliveryOutbox.RecordedReports` | internal/schedule/delivery_dispatcher.go:88-97 | which outcome is stored for which answer of the platform |
| `DeliveryOutbox.ResultDeliveryDispatcher.SendFallback` | internal/schedule/delivery_dispatcher.go:112-142 | a fallback row that could be inserted is claimed, sent once and stored with its outcome |
| `DeliveryOutbox.ResultDeliveryDispatcher.SendIntent` | internal/schedule/delivery_dispatcher.go:80-109 | claim, send and record: only a pending row is sent, with the state it leaves behind in each case |
| `DeliveryOutbox.SpentRunsStaySilent` | internal/schedule/delivery_dispatcher.go:66-83 | a run whose card was claimed, without a call that can still claim a row or store a rejection, never sends again, whatever happens; its rows stay the same ones and its pending rows stay pending |
| `DeliveryOutbox.FallbackComesFromItsCall` | internal/schedule/delivery_dispatcher.go:99-142 | after a stored rejection the fallback can still be sent if and only if some call of the run holds the fallback row, intends or loads one that is pending, or is about to insert one that is missing or pending; otherwise nothing is sent for the run |
| `DeliveryOutbox.CrashLosesTheFallback` | internal/schedule/delivery_dispatcher.go:103-117 | after a stored rejection a crash ends all sending for the run: no fallback row is inserted any more, and one that is pending stays pending |
| `DeliveryOutbox.RejectedCardIsReachable` | internal/schedule/delivery_dispatcher.go:99-109 | a concrete history that reaches a rejected card without a fallback row |
| `DeliveryOutbox.PendingFallbackIsReachable` | internal/schedule/delivery_dispatcher.go:112-117 | a history that reaches a rejected card with a fallback row that is pending |
| `DeliveryOutbox.Repository.CreateResultDelivery` | internal/schedule/delivery.go:43-78 | inserts exactly one row, for a terminal run without a card under a fresh identifier, suppressed if the run is silent and pending otherwise; returns the stored row on a duplicate |
| `DeliveryOutbox.Repository.ClaimDelivery` | internal/schedule/delivery.go:93-109 | only a pending row is claimed, and by one caller |
| `DeliveryOutbox.Repository.CompleteDelivery` | internal/schedule/delivery.go:111-138 | only an in-flight row gets an outcome |
| `DeliveryOutbox.Repository.CreateFallbackAfterRejected` | internal/schedule/delivery.go:140-170 | inserts a fallback only beside a card stored as rejected |
| `DeliveryOutbox.Repository.ReconcileInFlightDeliveries` | internal/schedule/delivery.go:172-189 | exactly the in-flight rows become unknown, all others stay |
| `DeliveryOutbox.Repository.FinishRun` | internal/schedule/run_state.go:68-112 | only the holder of the token moves a non-terminal run to a terminal state |
| `DeliveryOutbox.Repository.ReconcileInterruptedRuns` | internal/schedule/reconcile.go:13-29 | every non-terminal run becomes interrupted, terminal runs stay |
| `ScheduleSlots.SlotsAreDecidedOnce` | internal/schedule/store.go:431-688 | no slot of a task is recorded twice, whoever races and whatever is edited in between; the unique key of the run table is not needed for it |
| `ScheduleSlots.NextSlotIsNew` | internal/schedule/store.go:220-316 | the next slot of a task, when it has one, is later than every slot recorded for it |
| `ScheduleSlots.DecidedDueIsSpent` | internal/schedule/store.go:431-520 | acting again on an observation whose slot was decided records nothing, at any later time |
| `ScheduleSlots.Tick` | internal/schedule/scheduler.go:107-170 | over the observations of a scan, stale or not: the tick fails if and only if one it handles ends it (a failed transaction, a lost misfire or a refused dispatch); it takes the steps of every observation in order up to there, passing over prompts beyond the limit, and records and dispatches exactly what these decide |
| `ScheduleSlots.HandleDue` | internal/schedule/scheduler.go:140-167 | a revoked route is recorded as revoked, a misfire older than the grace as skipped, anything else claimed; a claim moves the task on from its slot, the others from the tick's time; which results end the tick |
| `ScheduleSlots.PromptsAreClaims` | internal/schedule/scheduler.go:152-164 | the prompts claimed by a tick are counted and never exceed the limit |
| `ScheduleSlots.NothingElseIsPassedOver` | internal/schedule/scheduler.go:140-167 | an observation that names a task and could be decided is recorded, and dispatched if it is a claim, unless it is a prompt beyond the limit |
| `ScheduleSlots.OnlyNamedTasksAreHandled` | internal/schedule/scheduler.go:136-140 | observations that name no task or no version are never acted upon |
| `ScheduleSlots.LostMisfireEnds` | internal/schedule/store.go:549-616 | a misfire decided by one scheduler ends the tick of everybody who still holds the observation, at any later time |
| `ScheduleSlots.TwoSchedulersOneMisfire` | internal/schedule/scheduler.go:146-151 | two schedulers that see the same misfire: the first skips it, the tick of the second fails |
| `ScheduleSlots.BlankPayloadEndsTheTick` | internal/schedule/store.go:475-477 | a prompt of white space is created, becomes due and ends the tick that comes to claim it |
| `ScheduleSlots.Repository.ListDue` | internal/schedule/scheduler.go:73-105 | at most `limit` due tasks, one observation per task, earliest first, and none left out that is due before a listed one |
| `ScheduleSlots.Repository.DecideSlot` | internal/schedule/store.go:431-688 | exactly when a transaction wins and when it conflicts; a winner records the slot with its mark and moves the task on, from the slot after a claim and from the tick's time otherwise; all others change nothing |
| `ScheduleSlots.Repository.UpdateOwnedTask` | internal/schedule/store.go:220-316 | succeeds exactly when nothing is wrong with the edit, and names something that is wrong otherwise; given fields are stored, the others stay, the version grows by one; disabled means no slot; a cron edit, re-enabling or a missing slot gives the next instant of the stored expression after now, anything else keeps the slot; nothing else changes |
| `ScheduleSlots.NewTaskIsScheduled` | internal/schedule/store.go:130-168 | a new task is enabled at version one and waits for the next instant of its expression |
| `ChannelWorker.ControlBarrier` | internal/worker/manager.go:553-606 | pending or running controls imply the barrier, the barrier implies an empty queue, and no batch is processing while a control runs |
| `ChannelWorker.BatchNeedsNoControl` | internal/worker/manager.go:645-753 | a batch starts only when no control is pending or running |
| `ChannelWorker.ControlsRunInOrder` | internal/worker/manager.go:669-705 | controls are taken once each, in submission order |
| `ChannelWorker.NothingCrossesAControl` | internal/worker/manager.go:553-606 | whatever happens after a control is submitted, no batch holds a message that was queued then, and none mixes messages accepted before and after it |
| `ChannelWorker.HandedBackIsNeverProcessed` | internal/worker/manager.go:553-636 | what a control, a shutdown or a timeout hands back is exactly the queue, and no batch ever holds one of these messages or mixes messages accepted before and after |
| `ChannelWorker.TimeoutEndsTheWorker` | internal/worker/manager.go:1000-1022 | after a batch that ran out of time nothing is accepted and no batch is started, whatever happens |
| `ChannelWorker.EveryMessageInOnePlace` | internal/worker/manager.go:533-551 | each accepted message is still queued, or in exactly one started batch or one drop |
| `ChannelWorker.HistoryFollowsAcceptance` | internal/worker/manager.go:707-753 | batches and drops follow acceptance order |
| `ChannelWorker.BatchesAreGreedy` | internal/worker/manager.go:707-753 | every batch is one exclusive message or the maximal prefix of ordinary messages of one actor |
| `ChannelWorker.BatchSizeIsBatch` | internal/worker/manager.go:707-753 | the scanned size is the only one with that property |
| `ChannelWorker.StoppedIsAbsorbing` | internal/worker/manager.go:1448-1461 | a stopped worker stays stopped with an empty queue, accepts nothing and starts nothing |
| `ChannelWorker.QueueStaysBounded` | internal/worker/manager.go:533-551 | the queue never exceeds its depth |
| `ChannelWorker.Channel.EnqueueMessage` | internal/worker/manager.go:533-551 | accepted exactly when the worker is open, no barrier is up and there is room |
| `ChannelWorker.Channel.SubmitChannelControl` | internal/worker/manager.go:553-606 | raises the barrier, detaches the queue and hands it back; refused when stopping |
| `ChannelWorker.Channel.ScanBatch` | internal/worker/manager.go:717-733 | the loop finds the next batch of the queue |
| `ChannelWorker.Channel.TakeBatch` | internal/worker/manager.go:707-753 | the batch and the remaining queue are the old queue, and the batch is the next one; nothing is taken while one is processed |
| `ChannelWorker.Channel.FinishBatch` | internal/worker/manager.go:1000-1028 | a timeout stops the worker, empties its queue and hands back exactly what was queued, as one drop; otherwise it becomes idle with its queue untouched |
| `ChannelWorker.Channel.DiscardQueuedForShutdown` | internal/worker/manager.go:608-636 | drops the queue, hands it back and leaves the state as it is |
| `TurnRuntime.NothingAfterFinish` | internal/codexapp/runtime.go:1091-1115 | after an attempt has finished no turn is bound, no handler gets its permit, and it does not finish again |
| `TurnRuntime.HandlersStartForTheCurrentTurn` | internal/codexapp/runtime.go:558-647 | every permit is for the turn bound last, with no other binding in between |
| `TurnRuntime.AtMostFourHandlersRun` | internal/codexapp/runtime.go:558-647 | at every moment at most four handlers of an attempt run |
| `TurnRuntime.AtMostOneResult` | internal/codexapp/runtime.go:1091-1115 | at most one result is delivered, and its sender finds the channel of capacity one empty |
| `TurnRuntime.OutcomeWasReported` | internal/codexapp/runtime.go:881-1008 | a goal ends without error only after the server reported it complete, and with a terminal status only after the server reported that status; an ordinary attempt ends without error only after a completed turn that names a turn bound before, or names none |
| `TurnRuntime.StopsAreNotLost` | internal/codexapp/runtime.go:293-351 | a stop requested before its goal is registered is remembered, and then the goal never starts its first turn |
| `TurnRuntime.StopsAreBegun` | internal/codexapp/runtime.go:293-351 | a stop of a registered goal is begun at once, a waiting one is begun instead of the first turn, and a goal nobody stopped starts its first turn |
| `TurnRuntime.ReplacedTurnsStayReplaced` | internal/codexapp/runtime.go:689-733 | a goal never returns to a turn that another one replaced |
| `TurnRuntime.NoTurnAfterStop` | internal/codexapp/runtime.go:689-733 | once a goal is stopping or its terminal status is known, no turn is bound |
| `TurnRuntime.StepKeepsInv` | internal/codexapp/runtime.go:353-1115 | every section keeps the invariant: fields agree with the observations, one result, slots held, calls fenced |
| `TurnRuntime.TurnAttempt.BindAttempt` | internal/codexapp/runtime.go:689-733 | binds exactly when not finished and, for a goal, not terminal, not stopping and not going back to a known turn |
| `TurnRuntime.TurnAttempt.DispatchToGoal` | internal/codexapp/runtime.go:789-879 | exactly how each notification is routed, from the state it meets, and what it does to the fields: a turn that may start or continue the goal becomes current, a completion of a known turn finishes a terminal goal or waits for the continuation, a terminal status is stored and finishes a goal without a running turn; all others change nothing |
| `TurnRuntime.TurnAttempt.DispatchToTurn` | internal/codexapp/runtime.go:797-868 | exactly which notifications reach an ordinary attempt, wait for its turn or are dropped, and what those that reach it do |
| `TurnRuntime.TurnAttempt.RouteGoalUpdated` | internal/codexapp/runtime.go:896-920 | a terminal status is stored, and the attempt is to be finished exactly when no turn is running |
| `TurnRuntime.TurnAttempt.RouteTurnCompleted` | internal/codexapp/runtime.go:921-984 | a goal waits for its continuation unless it is terminal; an ordinary attempt is to be finished |
| `TurnRuntime.TurnAttempt.StartStopping` | internal/codexapp/runtime.go:353-362 | marks the goal as stopping unless it is paused or terminal |
| `TurnRuntime.TurnAttempt.AnswerStopping` | internal/codexapp/runtime.go:381-411 | the status the server answers with becomes the terminal status; a goal without a turn is to be finished |
| `TurnRuntime.TurnAttempt.FinishAttempt` | internal/codexapp/runtime.go:1091-1115 | the first finisher wins and takes back the permission of every call that has not started |
| `TurnRuntime.TurnAttempt.PermitHandler` | internal/codexapp/runtime.go:628-637 | a permit is given exactly when not finished, for the current turn, to a registered call that has not started; otherwise the slot is returned |
| `TurnRuntime.TurnAttempt.RegisterRequest` | internal/codexapp/runtime.go:600-613 | requests are registered only for the current turn of a running attempt |
| `TurnRuntime.TurnAttempt.AcquireActionSlot` | internal/codexapp/runtime.go:622-627 | one of four slots |
| `CompanionSegments.CompanionMessages` | internal/output/companion.go:17-82 | for every answer not containing the delimiter the messages show exactly the visible characters of the stored text, in order; every message has at most 80 characters, except that a text without delimiters whose parts need more than three messages is sent whole |
| `CompanionSegments.SplitCompanion` | internal/output/companion.go:64-82 | visible characters between delimiters are kept; the messages are the bounded pieces of the delimited parts or, without delimiters, of the paragraphs or sentences, and the text is sent whole exactly when these are more than three |
| `CompanionSegments.SplitAndBound` | internal/output/companion.go:153-161 | the loop computes the merged pieces of the non-blank parts; nothing visible is lost and every piece has at most 80 characters |
| `CompanionSegments.HardSplit` | internal/output/companion.go:192-213 | the loop cuts off pieces one by one until the rest fits; a short text is left alone |
| `CompanionSegments.ChoppedKeeps` | internal/output/companion.go:192-213 | hard splitting loses nothing visible and every piece is within the limit |
| `CompanionSegments.ChoppedIsShort` | internal/output/companion.go:192-213 | there are no more pieces than cuts past the middle allow |
| `CompanionSegments.FindCut` | internal/output/companion.go:199-205 | the loop finds the cut |
| `CompanionSegments.CutIsUnique` | internal/output/companion.go:199-205 | the cut is the one place behind the last break in the second half, or the limit if there is no break |
| `CompanionSegments.MergeShortSegments` | internal/output/companion.go:215-228 | the loop joins each short segment to its predecessor when both fit |
| `CompanionSegments.MergedKeeps` | internal/output/companion.go:215-228 | merging loses nothing visible, keeps the bound, and leaves no short segment that would fit behind its predecessor |
| `CompanionSegments.SplitParagraphs` | internal/output/companion.go:163-173 | the loop computes the paragraphs |
| `CompanionSegments.ParagraphsKeep` | internal/output/companion.go:163-173 | nothing visible is lost, no paragraph holds a blank line, and a single paragraph is the whole text |
| `CompanionSegments.SplitSentences` | internal/output/companion.go:175-190 | the pieces concatenate to the text and are exactly its sentences: each ends at the first sentence end, or with the text |
| `CompanionLexer.LexCompanion` | internal/output/companion.go:17-62 | both written texts are renderings of the answer's tokens, and outside its delimiters the segmenter's input shows what is stored |
| `CompanionLexer.SegmentsShowStorage` | internal/output/companion.go:17-62 | for every answer the pieces between delimiters and the stored text show the same characters |
| `CompanionLexer.GapsAreClean` | internal/output/companion.go:17-62 | dropping markers and escapes never creates a delimiter that the answer did not contain |
| `CompanionLexer.EscapeFollowsSlash` | internal/output/companion.go:42-54 | the backslash removed for an escaped marker was the last character written, in both texts |
| `CompanionLexer.OpenFenceIsFenceBefore` | internal/output/companion.go:22-34 | the lexer's fence state is the one the lines of the answer open and close, whatever markers were consumed |
| `CompanionLexer.FencedTextStaysTogether` | internal/output/companion.go:17-62 | every stretch of fenced text is found whole inside one piece of the finished answer: no marker cuts it |
| `CompanionMarkers.MarkerEndIsFirst` | internal/output/companion.go:102-118 | an inline marker is recognised if and only if one starts there within the byte limit, and the shortest one is taken |
| `CompanionMarkers.DoubleMarkerEnd` | internal/output/companion.go:102-118 | the loop finds that marker |
| `CompanionMarkers.MarkersEndWithBracket` | internal/output/companion.go:102-118 | a recognised marker ends with a closing bracket and has at most 83 bytes |
| `CompanionMarkers.LongestMarker` | internal/output/companion.go:102-118 | a recognised marker of 83 bytes |
| `CompanionMarkers.SingleMarkerLineEnd` | internal/output/companion.go:124-151 | the loop strips quote and list prefixes and accepts a line that holds only a marker |
| `CompanionMarkers.OnlyMarkerLinesAreDropped` | internal/output/companion.go:124-151 | a dropped line consists of quote and list characters and the marker, and of nothing else |
| `CompanionMarkers.OddEscapes` | internal/output/companion.go:86-92 | parity of the backslashes in front of a position |
| `CompanionDelivery.DeliverSegments` | internal/worker/manager.go:1271-1326 | segments are sent in order until one stops the delivery; without error every segment was sent or explicitly rejected and the counters say how many; an error is exactly the one that the last send, or the wait after it, calls for |
| `CompanionDelivery.SendSegment` | internal/worker/manager.go:1284-1325 | one segment with its single retry after a rate-limit rejection |
| `CompanionDelivery.NothingAfterStop` | internal/worker/manager.go:1271-1326 | nothing is sent after an unknown or cancelled result, or after one that could not be recorded |
| `CompanionDelivery.SendsMoveForward` | internal/worker/manager.go:1271-1326 | later sends are for later segments, except the one retry that directly follows a rate-limited first try |
| `CompanionDelivery.VisibleSendsIncrease` | internal/worker/manager.go:1271-1326 | sends that were not rejected have strictly increasing segment numbers |
| `CompanionDelivery.CodeSaysWhatArrived` | internal/worker/manager.go:1327-1337 | no code if and only if every segment was sent; the "none" code if and only if every segment was rejected |
| `CompanionDelivery.CodeNamesTheError` | internal/worker/manager.go:1345-1353 | each failure code stands for its own errors |
| `CompanionDelivery.FailuresAreRecorded` | internal/worker/manager.go:1345-1358 | a failure that can be recorded is one of the delivery if its start was marked, and of the batch otherwise |
| `CompanionDelivery.CodeIsKeptUnlessClaimed` | internal/worker/manager.go:1327-1358 | the code is recorded if and only if no terminal reason was claimed by another path and the record could be stored; a plain success if and only if one was claimed and could be stored; nothing exactly when the store refuses what the branch writes |
| `CompanionDelivery.RejectedYetCompleted` | internal/worker/manager.go:1327-1342 | a run with a rejected segment and a late claim that is recorded as a plain success, or not at all when the completion is refused |
| `CompanionDelivery.DeliverCompanion` | internal/worker/manager.go:1255-1358 | success is recorded only when every segment is settled; nothing is sent when the window was cancelled first or the start could not be marked; the unknown and the incomplete-trace codes are recorded exactly when the last send calls for them; where a lifecycle is present, only a refusing store leaves the batch without a record |
| `CompanionDelivery.FirstClaimWins` | internal/worker/delivery.go:17-28 | among any claims the first real one decides, and it stays |
| `CompanionDelivery.CancelledWindowStaysShut` | internal/worker/delivery.go:51-101 | a cancellation before publication keeps the delivery window shut |
| `Utf8Chunks.SplitUtf8Chunks` | internal/observability/recorder.go:423-444 | chunks concatenate to the input for every byte string; for well-formed input (section 4 of RFC 3629) each chunk is well-formed, non-empty and within the limit, all but the last longer than the limit minus four, and their number is bounded |
| `Utf8Chunks.ChunkEnd` | internal/observability/recorder.go:430-440 | the end of a chunk backs off to a character boundary, or moves forward over one character |
| `Utf8Chunks.BoundaryNear` | internal/observability/recorder.go:423-444 | below every position of a well-formed string there is a boundary less than four bytes away |
| `Utf8Chunks.ValidIsEncoded` | internal/observability/recorder.go:423-444 | the bytes that the splitter takes for valid are exactly the encodings of texts, by the table of section 3 of RFC 3629 |
| `TokenUsage.DetailsPartitionTheTotal` | internal/observability/usage.go:66-86 | counters become buckets exactly when some partition of the total stands for them, and then as that one |
| `TokenUsage.Subtract` | internal/observability/usage.go:88-100 | a delta exists exactly when no counter went back, and adds up to the new snapshot |
| `UsageAttribution.UsageIsConserved` | internal/observability/recorder.go:243-297 | loop totals plus unallocated usage equal the sum, over the non-regressing stretches of distinct snapshots, of last minus first |
| `UsageAttribution.BaselineIsLastSnapshot` | internal/observability/recorder.go:243-297 | the active loop's baseline is the attempt's last snapshot |
| `UsageAttribution.SnapshotGoesToTheActiveLoop` | internal/observability/recorder.go:269-296 | what a snapshot adds goes to the loop that is active when it arrives and to nothing else, or is unallocated when none is |
| `UsageAttribution.DuplicatesChangeNothing` | internal/observability/recorder.go:263-272 | a snapshot key seen before changes nothing, whatever it now says |
| `UsageAttribution.ClosedProtocolAccountsForEverything` | internal/observability/recorder.go:334-363 | at the end, what spans report, what regressions withheld and what is unallocated add up to what was spent |
| `UsageAttribution.WithheldStaysWithheld` | internal/observability/recorder.go:269-363 | a loop in which a counter went back is withheld to the end |
| `UsageAttribution.OnlyCleanLoopsAreReported` | internal/observability/recorder.go:334-363 | the report adds up exactly the loops that are not withheld |
| `UsageAttribution.StretchesRise` | internal/observability/usage.go:88-100 | in each stretch no counter goes back |
| `UsageAttribution.StretchesMakeUp` | internal/observability/usage.go:88-108 | the stretches cover the history: every distinct snapshot is in exactly one stretch or is the one that ended it by going back |
| `UsageAttribution.OnlyTheStretchesMakeUp` | internal/observability/usage.go:88-108 | no other stretches do, so each is as long as it can be |
| `UsageAttribution.SpendingOnlyGrows` | internal/observability/usage.go:102-108 | what was spent never falls and is never negative |
| `UsageAttribution.Attempt.RecordProtocolEvent` | internal/observability/recorder.go:232-297 | a new reasoning item becomes the active loop and counts from the last snapshot; a new snapshot goes to the active loop or to nobody; one that goes back adds nothing, marks the loop as withheld and restarts the count; late events are only counted |
| `UsageLedger.ThreadUsageIsEffective` | internal/storage/usage.go:17-122 | after any records, a thread's stored usage is its last accepted snapshot plus the turns first recorded since |
| `UsageLedger.SessionTotalIsSumOfThreads` | internal/storage/usage.go:124-148 | a session total is the sum of its threads, and its count is the number of different ledger rows inserted for the session |
| `UsageLedger.TurnsAreLedgerRows` | internal/storage/usage.go:26-37 | two counted turns are two rows of the ledger |
| `UsageLedger.CountersNeverFall` | internal/storage/usage.go:59-122 | no counter of a thread or of a session ever falls |
| `UsageLedger.RepeatedTurnsCountOnce` | internal/storage/usage.go:17-53 | recording a turn again changes no thread row, no count and no existing total; it adds an empty total exactly when its session is valid and has none yet |
| `UsageLedger.Store.RecordTurnUsage` | internal/storage/usage.go:17-53 | exactly when it fails, and then every table stays as it was; otherwise the turn is in the ledger, and if it is new and has a session it adds its usage to its thread only and counts once in the derived total |
| `UsageLedger.Store.RecordThreadUsageSnapshot` | internal/storage/usage.go:59-91 | a snapshot in which no counter falls replaces the usage of its thread, and only of it; any other is ignored; the total is derived again either way |
| `UsageLedger.Store.SumThreadUsage` | internal/storage/usage.go:138-142 | the loop computes the sum over the rows of one session |
| `UsageLedger.SumMovesWithThread` | internal/storage/usage.go:138-142 | the sum of a session is zero without threads and moves by exactly as much as the usage of the thread that changes |
| `ToolCallLedger.AtMostOneCommit` | internal/schedule/tool_calls.go:77-146 | for each call at most one mutation is ever committed |
| `ToolCallLedger.RepetitionsReplay` | internal/schedule/tool_calls.go:281-310 | a carried-out call, repeated at any later time with the same arguments, returns the stored payload and changes nothing |
| `ToolCallLedger.OtherArgumentsConflict` | internal/schedule/tool_calls.go:300-302 | with another digest it conflicts and changes nothing |
| `ToolCallLedger.RejectedCallsNeverCommit` | internal/schedule/tool_calls.go:377-393 | a call rejected after its lease ran out was not carried out and never will be |
| `ToolCallLedger.Repository.ExecuteToolCall` | internal/schedule/tool_calls.go:77-264 | nothing happens for an incomplete input, a call that was there before, or a mutation that fails, and each has its answer; otherwise the task is created, or updated under a version check, and the answer is stored with the call in the same transaction |
| `ToolCallLedger.Repository.ClaimToolCallTx` | internal/schedule/tool_calls.go:281-310 | inserts the claim or answers from the stored row |
| `ToolCallLedger.Repository.ClaimToolCall` | internal/schedule/tool_calls.go:322-371 | a claim on its own: new, answered from the stored row, or refused for an incomplete input |
| `ToolCallLedger.Repository.CompleteToolCallTx` | internal/schedule/tool_calls.go:266-279 | completes only a claimed row |
| `ToolCallLedger.Repository.ReconcileExpiredToolCalls` | internal/schedule/tool_calls.go:377-393 | rejects exactly the unfinished calls whose lease lies before now, with the code of an expired lease |
| `CatalogUpgrade.ResumedThreadsHaveTheTools` | internal/codexapp/processor.go:175-238 | over all interleavings of batches, `/new`, crashes and restarts, a thread is resumed only if it was started with the tools of the target it is resumed for |
| `CatalogUpgrade.UpgradesPublishOnce` | internal/storage/catalog.go:89-102 | each upgrade publishes at most one thread |
| `CatalogUpgrade.StrandedUpgradesStay` | internal/storage/catalog.go:27-56 | an unfinished upgrade to another target stays unfinished until a restart, and nothing is resumed or published meanwhile |
| `CatalogUpgrade.Processor.Process` | internal/codexapp/processor.go:175-238 | exactly what one undisturbed batch does, by the row it finds: an up-to-date thread is resumed if the server agrees, and only then; otherwise a new thread is started and stored, or published with its upgrade; a batch whose server calls succeed fails if and only if it meets an upgrade to another target |
| `CatalogUpgrade.RestartStrandsTheGroup` | internal/codexapp/processor.go:175-238 | a group on its way to one target, a restart with another, and a batch that fails although every server call succeeds |
| `CatalogUpgrade.Processor.EnsureToolCatalog` | internal/codexapp/processor.go:254-286 | an up-to-date row or a ready upgrade is left as it is; an outdated thread is archived and the upgrade made ready, which fails exactly when the server refuses to archive |
| `CatalogUpgrade.Processor.ArchiveCurrentThread` | internal/codexapp/processor.go:152-173 | `/new` clears the thread of the row exactly when there is none or the server archives it |
| `CatalogUpgrade.ChatGroupStore.PrepareCatalogUpgrade` | internal/storage/catalog.go:27-56 | records an upgrade only on a stable row of another version |
| `CatalogUpgrade.ChatGroupStore.AdvanceCatalogUpgradeAfterArchive` | internal/storage/catalog.go:74-84 | clears the thread only for the recorded source thread |
| `CatalogUpgrade.ChatGroupStore.CompleteCatalogUpgrade` | internal/storage/catalog.go:89-102 | publishes thread and version together, only for the stored target |
| `CatalogUpgrade.ChatGroupStore.SwapThread` | internal/storage/messages.go:104-115 | replaces the thread only if it is the expected one |
| `ActionLedger.AtMostOneExternalCall` | internal/feishuaction/service.go:91-236 | over all executions, retries and crashes at most one external call is made per call identity |
| `ActionLedger.RecordedAnswersAreReplayed` | internal/feishuaction/service.go:94-112 | a recorded answer, with its success flag, is what every later execution with the same tool and digest gets; another tool or digest conflicts |
| `ActionLedger.FinishedIsFinal` | internal/storage/attachments.go:185-204 | a finished row never changes |
| `ActionLedger.SentCallsAreNotClaimed` | internal/storage/attachments.go:147-157 | once a call was sent no execution of it is about to send |
| `ActionLedger.ActionService.Execute` | internal/feishuaction/service.go:60-236 | the sequential program is a path of the machine; a first execution that is available, valid, not cancelled and started makes the external call once and returns its answer, any other makes none; a recorded answer is the answer returned and the one replayed |
| `ActionLedger.ShortNamesAreCompleted` | internal/feishuaction/service.go:60-236 | the four short tool names stand for the full ones, every other name for itself |
| `ActionLedger.ActionStore.ClaimAction` | internal/storage/attachments.go:133-145 | one claim per call identity |
| `ActionLedger.ActionStore.StartAction` | internal/storage/attachments.go:147-157 | only a claimed row is started |
| `ActionLedger.ActionStore.CompleteAction` | internal/storage/attachments.go:185-211 | only an unfinished row is completed |
| `TaskPages.FollowCursors` | internal/schedule/store.go:325-387 | over an unchanged table, pages of any sizes put together are the whole listing, or the walk fails exactly when a listed row is malformed |
| `TaskPages.ListOwnedTasks` | internal/schedule/store.go:325-387 | one page and its next cursor, with the error cases |
| `TaskPages.SelectBehind` | internal/schedule/store.go:338-346 | behind the cursor of the k-th row stand exactly the rows that follow it |
| `TaskPages.ListingIsComplete` | internal/schedule/store.go:325-387 | the listing holds each task of the owner exactly once, in order of `(updated_at, id)` |
| `TaskPages.NoTaskIsMissed` | internal/schedule/store.go:325-387 | if rows change between pages and a task's time never goes back, a task present throughout is listed |
| `TaskPages.SteadyWalkListsAll` | internal/schedule/store.go:326-390 | while nothing changes, each page gets the walk further, until it has listed every row of the owner once and in order |
| `TaskPages.PositionsAreOrdered` | internal/schedule/store.go:340-352 | the order of positions: by time, then by identifier, and of two different ones exactly one is before the other |
| `TaskPages.TokensRoundTrip` | internal/schedule/crypto.go:230-285 | a token decodes for its owner until it expires and for nobody else; the position is the same exactly when it is a whole number of milliseconds |
| `TaskPages.AcceptedTokensWereIssued` | internal/schedule/crypto.go:251-285 | an accepted token carries the code of a key of the ring for this owner, and is what encoding issues, except for white-space ids and the zero time, which encoding refuses |
| `TaskPages.TokenCarriesPosition` | internal/schedule/crypto.go:230-285 | a position of the table comes back from its token in time, and is refused later |
| `TaskPages.FollowTokens` | internal/schedule/crypto.go:230-285 | a client that follows the tokens lists what following the positions lists, unless a token expires |

## Left out

- Platform SDK calls, card rendering, uploads, message transport, process start, HTTP proxying, log rotation and configuration: input and output; where their answers matter they are parameters.
- Encryption, message authentication codes, JSON, base64 and cron parsing: sealed texts and signatures are values that only the right key and context open, and the calendar is any function whose next instant is later.
- Invalid UTF-8 in the companion lexer: text is a sequence of Unicode scalar values, so replacement characters for malformed bytes are not modelled.
- CompanionMarkers.DoubleMarkerEnd: upper-casing is spelled out only for the letters that can be part of a marker; other letters are unlike a marker in either case.
- Non-empty companion segments: the hard split may emit an empty piece for long white space, and the code does the same.
- Widths of integers: token counters, versions and times do not overflow here; a negative counter is refused where the unsigned columns refuse it.
- The quota of enabled tasks: only creation checks it, so it is an outcome of `ToolCallLedger.Mutate` and no invariant is claimed.
- Goal batches in `CatalogUpgrade`: they start threads with a fixed tool list and do not look at the catalog state, so the property about resumed threads is claimed for ordinary batches and `/new` only.
- The compatibility branch for stores without catalog state (internal/codexapp/processor.go:288-309).
- At most one handler per call identifier inside `TurnRuntime`: the entry of a call is removed once its response is written, so a repeated request may start another handler; the guarantee lives in the ledgers.
- Buffering of notifications before a turn is bound, their replay, and early goal updates: the replay runs outside the lock.
- The relation between a control and a replacement worker for the same conversation: worker properties hold per worker instance.
- DeliveryOutbox.ResultDeliveryDispatcher.Deliver: errors of the database connection, and a new row identifier that is already taken, are not specified.
- ScheduleSlots.Repository.UpdateOwnedTask: owners are not modelled; a task of another owner counts as missing.
- ScheduleSlots.Repository.DecideSlot: one method stands for the three slot transactions, which differ in the recorded mark and in the instant from which the next slot is computed; lease and trace columns, failing identifier generation and errors of the database connection are not modelled.
- ScheduleSlots.Repository.ListDue: among tasks due at the same instant the order by identifier is not modelled.
- ToolCallLedger.Repository.ExecuteToolCall: one method stands for creating, updating and listing; the fields of a task are reduced to identifier, version and body.
- TaskPages.ListOwnedTasks: the database's ordering is represented by a table kept in index order, and identifiers by their rank.
- UsageAttribution.Attempt.RecordProtocolEvent: spans and their attributes are not modelled, only the accounting.
- Waiting with timers in the runtime and the worker: timeouts are events that may come at any time.
- Attachments, dotenv and command parsing, script output capture, target deduplication and command classification: they would only add easy members.
