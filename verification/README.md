# Verified model of the agent runtime

This project models the parts of the repository that are hardest to get right and proves what they promise.
`dafny verify dfyconfig.toml` checks everything.

- **Execution lifecycle** (`Lifecycle`, `LifecycleRows`, `ExecutionRecords`, `LifecycleSystem`, `LifecycleActions`,
  `LifecycleInvariant`, `LifecycleSteps`, `LifecycleDelivery`, `LifecycleHandover`, `LifecycleTheorems`,
  `LifecycleRaces`, `LifecycleAnswers`). A chat turn is a row that the API, an outbox dispatcher, workers, a recovery
  beat and account administration change concurrently. `Lifecycle` gives each transaction as a function on the rows
  of one execution, and `LifecycleRows` says exactly when it happens and what it leaves; `ExecutionRecords` performs
  the same transactions on an object whose fields are updated in place, with the loops over tables of rows;
  `LifecycleSystem` runs all processes, the broker and the graphs' checkpoints against one store, where a run is any
  sequence of actions, and `LifecycleActions` says what each action does. Three invariants are kept by every action:
  of rows and workers (`LifecycleSteps`), of broker messages (`LifecycleDelivery`) and of the users' answers
  (`LifecycleHandover`). The theorems hold in every reachable state; `LifecycleAnswers` decides when an answer can be
  lost.
- **Fair merge of hotspot lists** (`FairMerge`): rotating rounds, deduplication with merged provenance, a cap.
- **Server-sent events** (`SseWire`, `EventCursor`, `EventStream`): the frame printer in Python, the
  incremental parser in TypeScript, the reconnect cursor, and the bounded replay stream in Redis.
- **Approval graph and tool audit** (`ApprovalGraph`, `ToolAudit`): the agent graph with human approval, and
  the at-most-once ledger of side-effecting tool calls.
- **Text, context and paging** (`TextDelta`, `ContextWindow`, `Summary`, `Pagination`, `RuntimeCache`).
- `Text`, `Sequences`, `Arithmetic`, `Wrappers` and `MessageOrder` hold string and sequence operations, division
  facts, `Option`/`Result` and the message order.

## Hypotheses of the lifecycle proofs

The processes of `LifecycleSystem` carry three hypotheses that the code itself does not enforce:

- **H1** Each check-then-write pair of the runner is one step: the start gate (runner.py:65-112), the suspension
  (the fence of execution_services.py:544-549 with the commits of runner.py:129-142), and the finish with the
  attempt it closes (runner.py:144-153). `UnfencedFinishLosesCancel`, `UnfencedSuspendLosesCancel` and
  `LateFailureOverwritesCompleted` show what a cancel or a failure in those gaps would do.
- **H2** A worker whose own lease has run out takes no further step on its execution. Heartbeats are exempt, and
  so is the checkpoint cleanup after a committed finish, which may come at any later time.
- **H3** A worker id is used for one claim only.

Everything else interleaves: crashes of workers and dispatchers at any point (also between handing a resume value
to the graph and saving its checkpoint), duplicate deliveries, messages acknowledged or redelivered at any time
after their claim returned, sends that raise although they reached the broker, unreadable checkpoints, and rows
skipped because another transaction locks them. The broker loses no message whose claim has not returned, and a
dispatcher locks a new batch only after it has settled the last one, as the loop of `dispatch_once` does.

## Where the code differs from what one would expect

Each of these is stated as a lemma with the exact condition where there is one.

- A completed turn deletes the session's checkpoint only after its commit has freed the session. If the next turn of
  the session asks its user, the late deletion can lose the answer, before a worker claims it
  (`LifecycleRaces.CleanupSkipsAnswer`) or while the claiming worker is handing it over
  (`LifecycleRaces.CleanupLosesAnswer`); such a run exists (`CleanupRaceIsReachable`). A turn can lose an answer
  exactly if such a deletion is outstanding when the turn is created (`LifecycleAnswers.NewTurnLosesExactly`), so
  waiting for it before creating the turn is enough (`AnswersArrive`). Whether a turn whose checkpoint vanished under
  the resume value completes or fails depends on LangGraph; the model allows both.
- A data payload with U+0085, U+2028 or U+2029 arrives changed, because `str.splitlines` cuts there while the
  parser joins with line feeds (`SseWire.DataSurvives`).
- The two key flags of `bounds` read the bits of a count, so with both keys present the stream flag is false;
  only "neither" is reliable (`EventStream.ExpiredExactly`).
- Between the cursor validation and the read, new events can evict one the reader has not seen; the read then
  skips it without reporting a gap (`EventStream.SplitReadCanSkip`). `EventStream.ReadIsComplete` says exactly when a
  read is complete, and `EventStream.ReplayAcrossReconnects` that readers who keep up miss nothing.
- A longer chunk that ends with everything shown so far and overlaps nothing is dropped
  (`TextDelta.DeltaJoinsExactly`), and an increment that repeats the end of the text is shortened
  (`TextDelta.IncrementKeptExactly`).
- An exception that interrupts the wait for a threaded tool marks the row failed while the thread goes on; a
  retry then runs beside it (`ToolAudit.AtMostOnceExactly`). tool_execution.py:143-160 does not tell this case
  from a failure of the tool; which exceptions can arrive there (a Celery soft time limit raises one in the main
  thread, celery_app.py:55) depends on the thread that runs the call.
- An exception without a message is recorded as completed (`ToolAudit.SilentFailureIsCompleted`).
- A `*` with white space around it stands for all tools when nothing else is permitted, but names no tool beside
  other permissions (`RuntimeCache.AllowedExactly`).
- With `min_focused_retain` 0 and a limit of 1 a focus message could push the latest message out
  (`ContextWindow.LatestKeptExactly`). The running service does not get there: its only caller passes a setting
  that must be at least 1 (core/config/settings.py:153).

## Model

| member | source | states |
|---|---|---|
| `LifecycleTheorems.OneActiveTurn` | apps/api/src/services/conversation_service.py:265-326 | in every reachable state two busy (pending, running, waiting) executions of one session are the same execution |
| `LifecycleTheorems.OneTurnPerIdempotencyKey` | apps/api/src/services/conversation_service.py:278-297 | in every reachable state one idempotency key names one execution of a session |
| `LifecycleTheorems.FinishedForever` | apps/api/src/services/execution_claim.py:49-53 | after an execution ends, no run of any actions changes anything of it except its outbox row |
| `LifecycleTheorems.NoLostExecution` | apps/api/src/services/tasks.py:118-189 | every unfinished execution waits for input with no open resume request, or is unclaimed with a live outbox row and, once that row says published, a broker message no claim has used up, or is claimed with a worker and a lease |
| `LifecycleTheorems.AlwaysRescuable` | apps/api/src/services/tasks.py:146-189 | from every reachable state with a pending or running execution, at most seven steps of the clock, the recovery beat, one idle dispatcher and one fresh worker hand it to that worker, with a lease and the recorded answer while the checkpoint shows an interrupt, if attempts are left, the user is active and an interrupt shown by the checkpoint is that of the open request with the same tool calls; and they end it otherwise |
| `LifecycleTheorems.ClaimRescues` | apps/api/src/services/execution_claim.py:49-164 | an unclaimed execution with an unused broker message is handed to the claimer, or ended if a claim must be refused |
| `LifecycleTheorems.DispatchSends` | apps/api/src/services/dispatcher.py:36-109 | lock, send and mark published by an idle dispatcher put a message of a dispatchable row on the broker and change nothing else of the row |
| `LifecycleTheorems.QueueRescues` | apps/api/src/services/dispatcher.py:42-55 | the same outcome for any unclaimed execution, by waiting out delay and lock, one dispatch pass and one claim |
| `LifecycleTheorems.RecoveryFrees` | apps/api/src/services/tasks.py:146-189 | once its lease has run out, one recovery pass makes an execution claimable again if attempts are left, and ends it otherwise |
| `LifecycleTheorems.LeaseRescues` | apps/api/src/services/tasks.py:155-189 | the same outcome for an execution whose worker vanished |
| `LifecycleActions.CancelTakesEffect` | apps/api/src/services/conversation_service.py:686-705 | a cancel ends a pending or waiting execution, leaves a request on a running one, and touches nothing else |
| `LifecycleTheorems.CancelIsFinal` | apps/api/src/services/conversation_service.py:686-705 | after a cancel of a busy execution no continuation completes it, lets it wait for input again, or lets a worker past the start gate with it; one that was not running stays cancelled |
| `LifecycleActions.DisableTakesEffect` | apps/api/src/services/admin_service.py:392-412 | disabling a user ends or requests to end exactly the busy executions of that user and withdraws what was not dispatched |
| `LifecycleTheorems.DisableIsFinal` | apps/api/src/services/admin_service.py:392-412 | the same finality for every busy execution of a disabled user |
| `LifecycleTheorems.CancelIsNeverLost` | apps/api/src/services/conversation_service.py:686-705 | once cancel_requested_at is set it keeps its value and the execution never becomes completed or waiting_input, over all continuations |
| `LifecycleTheorems.UnfencedFinishLosesCancel` | apps/api/src/agent/runtime/runner.py:144-153 | a cancel between the fence and the commit of a finish would be overtaken by completed; with fence and commit in one step it wins |
| `LifecycleTheorems.UnfencedSuspendLosesCancel` | apps/api/src/agent/runtime/execution_services.py:538-549 | a cancel between the last fence of the stream and the commit of a suspension (runner.py:129-142) would be overtaken by waiting_input, and a later resume would clear it |
| `LifecycleTheorems.LateFailureOverwritesCompleted` | apps/api/src/agent/runtime/runner.py:184-197 | a failure between the completed commit and the end of that step would turn completed into failed |
| `LifecycleTheorems.SingleOpenRequest` | apps/api/src/services/conversation_service.py:718-736 | at most one resume request is pending or claimed, it is the newest, and no two requests answer the same interrupt |
| `LifecycleTheorems.RequestsArePermanent` | apps/api/src/services/execution_resume.py:66-88 | a request keeps its interrupt, hash and value over all continuations, and consumed stays consumed |
| `LifecycleTheorems.HandoverMatchesCheckpoint` | apps/api/src/services/execution_claim.py:91-117 | a value about to be handed to the graph is the claimed request's own; the checkpoint, if there is one, shows exactly that request's interrupt, and if there is none it was deleted or the interrupt was answered before |
| `LifecycleTheorems.ConsumedWasHanded` | apps/api/src/services/execution_resume.py:66-88 | a consumed request had its recorded value handed to the graph for its own interrupt, unless the deletion of a checkpoint showing that interrupt is on record; when a deletion can come before the handover is what LifecycleAnswers.NewTurnLosesExactly decides |
| `LifecycleTheorems.AnswersAreRecorded` | apps/api/src/services/execution_resume.py:45-64 | over a whole history, crashes between handing over and saving included, an interrupt of an execution is only ever answered with one value, the one recorded against its id |
| `LifecycleTheorems.AttemptLedger` | apps/api/src/services/execution_claim.py:129-153 | ordinals are exactly 1..attempt_count, the last attempt is current, and attempt_count never exceeds the limit, resumes included |
| `LifecycleTheorems.ClosedAttemptsAreFrozen` | apps/api/src/agent/runtime/runner.py:238-249 | attempts keep ordinal, kind and worker for good, and a closed attempt never changes |
| `LifecycleTheorems.ReachableInv` | apps/api/src/services/execution_claim.py:37-164 | the three invariants behind all of the above (rows and workers, messages, answers) hold in every reachable state |
| `LifecycleTheorems.RunKeeps` | apps/api/src/services/execution_claim.py:37-164 | any sequence of actions keeps the invariants and only lets rows evolve (no reopening, no renumbering) |
| `LifecycleRaces.CleanupRaceIsReachable` | apps/api/src/agent/runtime/runner.py:154-164 | the service can reach a state in which a finished turn has yet to delete the session's checkpoint while the next turn is about to hand over the user's answer |
| `LifecycleRaces.CleanupLosesAnswer` | apps/api/src/agent/runtime/runner.py:154-164 | in every such state the deletion makes the handover impossible, and if the graph carries on the turn completes with the request consumed and the answer never handed over |
| `LifecycleRaces.NoCheckpointSkipsAnswer` | apps/api/src/services/execution_claim.py:91-127 | a claim with an open request and no checkpoint raises no objection and hands out no answer, and the turn can complete with that request consumed and nothing handed over |
| `LifecycleRaces.CleanupSkipsAnswer` | apps/api/src/agent/runtime/runner.py:154-164 | so a deletion between the user's answer and the claim loses the answer too |
| `LifecycleAnswers.NewTurnLosesExactly` | apps/api/src/agent/runtime/runner.py:144-164 | for a turn at its creation: some continuation consumes a request whose value no graph ever received, if and only if at that moment a worker that completed an earlier turn of the session has not deleted the checkpoint yet |
| `LifecycleAnswers.AnswersArrive` | apps/api/src/services/execution_resume.py:66-88 | from any reachable state in which nothing of the execution was lost or deleted and no such worker is left, every request it ever consumes has its recorded value handed to the graph, in every continuation |
| `LifecycleAnswers.HeldAnswerLostExactly` | apps/api/src/agent/runtime/runner.py:154-164 | an answer a worker holds while the checkpoint is there can still lose its checkpoint before the handover if and only if such a worker is left |
| `LifecycleAnswers.ApplyMoves` | apps/api/src/agent/runtime/runner.py:144-164 | every action keeps: a cleanup is owed only by ending the execution, only owed cleanups delete, and no worker but a new one gains an answer |
| `LifecycleRows.ClaimExactly` | apps/api/src/services/execution_claim.py:49-153 | a claim is granted if and only if the row is unfinished and unprotected, attempts are left, its context is found, the user is active and the checkpoint fits; every refusal leaves the state and error of its own reason |
| `LifecycleRows.ObjectionExactly` | apps/api/src/services/execution_claim.py:82-127 | each of the four reasons for which the checkpoint refuses a claim, if and only if; a readable checkpoint without an open request refuses nothing |
| `LifecycleRows.GrantExactly` | apps/api/src/services/execution_claim.py:91-127 | which request a claim is for, and that its value is handed out if and only if the checkpoint shows an interrupt |
| `LifecycleRows.GrantedExactly` | apps/api/src/services/execution_claim.py:129-153 | a new running attempt, a lease, the open request marked for the worker, and nothing else |
| `LifecycleRows.StartExactly` | apps/api/src/agent/runtime/runner.py:86-112 | the start gate opens if and only if the row is unfinished, no live worker runs it and no cancel was requested |
| `LifecycleRows.FinishExactly` | apps/api/src/agent/runtime/runner.py:144-153 | ignored from a worker that was replaced, a cancel if one was requested, else completed with exactly the granted request used up and the open attempt closed |
| `LifecycleRows.SuspendExactly` | apps/api/src/agent/runtime/execution_services.py:544-549 | the same refusals, else waiting with the raised interrupt |
| `LifecycleRows.CancelExactly` | apps/api/src/services/conversation_service.py:686-705 | cancelled at once if pending or waiting, a request that keeps its first time if running, nothing if finished |
| `LifecycleRows.DisableExactly` | apps/api/src/services/admin_service.py:392-412 | the same with its reason, and the outbox row withdrawn |
| `LifecycleRows.ResumeRejectedExactly` | apps/api/src/services/conversation_service.py:707-745 | each of the five rejections, if and only if |
| `LifecycleRows.ResumeExactly` | apps/api/src/services/conversation_service.py:737-767 | an accepted resume records the value for the interrupt and tool calls that were asked, and queues the row for a new worker at once |
| `LifecycleRows.ExpiryExactly` | apps/api/src/services/tasks.py:118-144 | expired if and only if pending, published, never claimed and too old |
| `LifecycleRows.RecoveryExactly` | apps/api/src/services/tasks.py:146-189 | requeued or given up if and only if claimed with a lease that has run out |
| `LifecycleRows.LockExactly` | apps/api/src/services/dispatcher.py:42-66 | a locked row is due for no dispatcher for exactly 30 seconds |
| `LifecycleRows.PublishExactly` | apps/api/src/services/dispatcher.py:117-132 | recorded by the holder of the lock only |
| `LifecycleRows.RetryExactly` | apps/api/src/services/dispatcher.py:134-150 | queued again by the holder of the lock only, after a delay that doubles with every failed send up to a minute |
| `LifecycleActions.CreateTakesEffect` | apps/api/src/services/conversation_service.py:265-326 | a turn is created if and only if the session has no unfinished turn and the idempotency key is new there |
| `LifecycleActions.ClaimTakesEffect` | apps/api/src/services/execution_claim.py:37-164 | a delivered message lets a new worker claim its execution once; a granted one starts with its lease, its request and its answer |
| `LifecycleActions.CommitTakesEffect` | apps/api/src/agent/runtime/runner.py:129-153 | a worker inside its lease commits what its graph came to, once its answer is handed over: waiting if the graph asked, else finished |
| `LifecycleActions.CleanupTakesEffect` | apps/api/src/agent/runtime/runner.py:154-164 | a finished worker deletes the checkpoint of its session, once |
| `LifecycleActions.LockTakesEffect` | apps/api/src/services/dispatcher.py:36-66 | an idle dispatcher locks exactly the due rows of its batch, and one with unsettled rows locks nothing |
| `LifecycleActions.SettleTakesEffect` | apps/api/src/services/dispatcher.py:84-109 | a send puts one message on the broker, and publishing or retrying settles the row |
| `LifecycleActions.AnswerTakesEffect` | apps/api/src/services/execution_claim.py:111-112 | the graph is given an answer if and only if its checkpoint shows the interrupt |
| `LifecycleSteps.ApplyKeeps` | apps/api/src/services/execution_claim.py:37-164 | every single action of every process keeps the invariant of rows and workers, and only evolves rows |
| `LifecycleSteps.ClaimKeeps` | apps/api/src/services/execution_claim.py:45-164 | a claim, granted or refused for any reason, keeps that invariant, also for every other worker |
| `LifecycleSteps.RecoverKeeps` | apps/api/src/services/tasks.py:109-189 | both passes of the recovery beat keep it, for any subset of rows they could lock |
| `LifecycleSteps.CleanupKeeps` | apps/api/src/agent/runtime/runner.py:154-164 | deleting a checkpoint at any later time keeps it |
| `LifecycleSteps.HolderIsNamed` | apps/api/src/services/execution_claim.py:52-53 | a worker inside its lease is the one the row names, and row and checkpoint agree with what it holds |
| `LifecycleDelivery.ApplyDelivers` | apps/api/src/services/dispatcher.py:36-150 | every action keeps: an unclaimed published row has an unused broker message, and so has one whose dispatcher has sent and still holds the lock |
| `LifecycleDelivery.ClaimedIsTaken` | apps/api/src/services/execution_claim.py:49-153 | whatever a claim does, the row no longer waits for a worker afterwards, so using up its message loses nothing |
| `LifecycleHandover.ApplyHanded` | apps/api/src/services/execution_claim.py:91-117 | every action keeps: open requests and raised interrupts are shown by the checkpoint or settled, and consumed ones are settled |
| `LifecycleHandover.GrantIsHanded` | apps/api/src/services/execution_claim.py:111-112 | a claim that continues from the checkpoint without handing a value over finds its request already settled |
| `LifecycleInvariant.ClaimKeepsRow` | apps/api/src/services/execution_claim.py:49-152 | for every outcome of a claim the row stays well formed, evolves and newly names the claimer only; a refusal leaves it alone or ends it |
| `LifecycleInvariant.SuspendKeepsRow` | apps/api/src/agent/runtime/runner.py:129-142 | suspension keeps the row well formed, so a row that waits for input has no open request |
| `LifecycleInvariant.FinishKeepsRow` | apps/api/src/agent/runtime/runner.py:144-153 | finishing keeps the row well formed and ends it if the worker is still named |
| `LifecycleInvariant.ResumeKeepsRow` | apps/api/src/services/conversation_service.py:707-767 | an accepted resume leaves exactly one open request, the new one, and an execution that waits for a worker |
| `LifecycleInvariant.RecoverKeepsRow` | apps/api/src/services/tasks.py:146-189 | recovery of an expired lease closes the current attempt as lease_lost and requeues the execution, or fails it at the limit |
| `ExecutionRecords.ExecutionRecord.CreateTurn` | apps/api/src/services/conversation_service.py:299-307 | a new record is pending, unclaimed, with a queued execute outbox row |
| `ExecutionRecords.ExecutionRecord.Claim` | apps/api/src/services/execution_claim.py:45-164 | in place: the new row and the outcome are those of the claim specification, for every refusal and the grant |
| `ExecutionRecords.ExecutionRecord.InspectCheckpoint` | apps/api/src/services/execution_claim.py:82-127 | the checkpoint checks and the handed-over value agree with their specification |
| `ExecutionRecords.ExecutionRecord.FailExecution` | apps/api/src/services/execution_claim.py:167-178 | in place: status, error and finish time only |
| `ExecutionRecords.ExecutionRecord.CancelForDisabledUser` | apps/api/src/services/execution_claim.py:181-201 | in place: cancelled, and the execute outbox row withdrawn |
| `ExecutionRecords.ExecutionRecord.Start` | apps/api/src/agent/runtime/runner.py:86-112 | in place: skipped, stopped by a cancel, or running, exactly as specified |
| `ExecutionRecords.ExecutionRecord.SuspendForInput` | apps/api/src/agent/runtime/runner.py:129-142 | in place: the fence (execution_services.py:544-549), then request consumed, waiting_input, attempt closed |
| `ExecutionRecords.ExecutionRecord.Finish` | apps/api/src/agent/runtime/runner.py:144-153 | in place: fenced, then request consumed, completed, attempt closed |
| `ExecutionRecords.ExecutionRecord.End` | apps/api/src/memory/execution_state.py:29-47 | in place: a terminal state keeps an earlier finish time and closes the open attempt |
| `ExecutionRecords.ExecutionRecord.Heartbeat` | apps/api/src/services/tasks.py:54-66 | in place: renewed only for the named worker of an unfinished execution |
| `ExecutionRecords.ExecutionRecord.Cancel` | apps/api/src/services/conversation_service.py:686-705 | in place: cancelled at once, or a cancel request whose first time is kept |
| `ExecutionRecords.ExecutionRecord.Resume` | apps/api/src/services/conversation_service.py:707-767 | in place: each of the rejections, or one new request and a requeued execution |
| `ExecutionRecords.ExecutionRecord.ExpireIfUnclaimed` | apps/api/src/services/tasks.py:118-144 | in place: failed exactly when published, never claimed and too old |
| `ExecutionRecords.ExecutionRecord.RecoverIfExpired` | apps/api/src/services/tasks.py:146-189 | in place: lease lost, then failed at the limit or requeued; says which |
| `ExecutionRecords.ExecutionRecord.Disable` | apps/api/src/services/admin_service.py:392-412 | in place: cancel requested when running, else cancelled and withdrawn |
| `ExecutionRecords.ExecutionRecord.Lock` | apps/api/src/services/dispatcher.py:61-66 | in place: a selected row is locked by the dispatcher for 30 seconds |
| `ExecutionRecords.ExecutionRecord.MarkPublished` | apps/api/src/services/dispatcher.py:117-132 | in place: only by the dispatcher that holds the lock |
| `ExecutionRecords.ExecutionRecord.MarkRetry` | apps/api/src/services/dispatcher.py:134-150 | in place: delayed by min(60, 2^min(attempts, 6)) seconds, only by the lock holder |
| `ExecutionRecords.RecoverExpiredExecutions` | apps/api/src/services/tasks.py:114-189 | the two loops leave every record as the row specification says and count the requeued ones |
| `ExecutionRecords.ExpireUnclaimedExecutions` | apps/api/src/services/tasks.py:134-144 | the first loop, over any table of distinct records |
| `ExecutionRecords.RecoverExpiredLeases` | apps/api/src/services/tasks.py:155-189 | the second loop, with its counter |
| `ExecutionRecords.DisableUserRuntime` | apps/api/src/services/admin_service.py:392-412 | exactly the user's unfinished executions change, each as specified |
| `ExecutionRecords.LockBatch` | apps/api/src/services/dispatcher.py:39-66 | the batch locks due rows only, at most batch_size of them, and changes no other row |
| `FairMerge.FairDedupeAndTrim` | apps/api/src/integrations/hotspot/hotspots.py:1393-1456 | the result is the ranked collapse of a trace that reads every list in order and by rounds: round 0 starts with the first list and each round one list further, wrapping around, a turn yields at most one entry, and a list read in round r has contributed r entries before; lists that still have items never differ by more than one entry; at most max_items, the configured limit and 200 entries, and everything is read if there are fewer than each |
| `FairMerge.ServeRound` | apps/api/src/integrations/hotspot/hotspots.py:1408-1453 | one round keeps every list within one accepted item of the others and reads something of every unread list |
| `FairMerge.ServeTurn` | apps/api/src/integrations/hotspot/hotspots.py:1409-1447 | one turn reads one list up to its first new item or its end |
| `FairMerge.ReadItem` | apps/api/src/integrations/hotspot/hotspots.py:1413-1447 | reading one item absorbs a duplicate or appends a new entry |
| `FairMerge.CollapseSignatures` | apps/api/src/integrations/hotspot/hotspots.py:1417-1446 | result signatures are distinct and are exactly those read |
| `FairMerge.CollapseSummarises` | apps/api/src/integrations/hotspot/hotspots.py:1426-1444 | each entry has a longest summary read for its signature and exactly the duplicate-free set of sources read for it |
| `FairMerge.ListOrderKept` | apps/api/src/integrations/hotspot/hotspots.py:1412-1414 | entries that come from one list are read in that list's order |
| `FairMerge.EntriesInOrder` | apps/api/src/integrations/hotspot/hotspots.py:1445-1446 | entries stand in the order in which their first items were read |
| `FairMerge.CompleteWhenAllRead` | apps/api/src/integrations/hotspot/hotspots.py:1407-1414 | when a list is read to its end every item of it was consumed |
| `FairMerge.RoundShrinks` | apps/api/src/integrations/hotspot/hotspots.py:1407-1412 | a round with an unread list lowers the number of unread items, so the loop ends |
| `SseWire.EncodeSseEvent` | apps/api/src/api/chat.py:913-928 | the printed text is the frame's lines, an empty line, and line feeds between |
| `SseWire.FetchEventStream.Dispatch` | apps/web/src/services/api.ts:263-280 | one block yields one message with its event, id and joined data lines |
| `SseWire.FetchEventStream.Feed` | apps/web/src/services/api.ts:239-248 | a chunk dispatches every completed block and buffers the rest |
| `SseWire.FetchEventStream.Close` | apps/web/src/services/api.ts:249-251 | at the end a non-blank rest is dispatched once |
| `SseWire.SplitAppends` | apps/web/src/services/api.ts:244-245 | splitting a longer text is splitting what was buffered together with the new text |
| `SseWire.ReadAll` | apps/web/src/services/api.ts:240-251 | for every way of cutting a text into chunks the same messages are dispatched |
| `SseWire.LinesComeBack` | apps/web/src/services/api.ts:264-264 | splitting a printed block into lines gives the printed lines |
| `SseWire.FramesRoundTrip` | apps/web/src/services/api.ts:263-280 | for frames with clean ids and names and any data the parser delivers exactly the frames, in order, with nothing left over |
| `SseWire.StreamRoundTrip` | apps/web/src/services/api.ts:240-251 | the same for any chunking of the concatenated frames |
| `SseWire.DataSurvives` | apps/api/src/api/chat.py:924-926 | JSON data arrives unchanged if and only if it holds none of U+0085, U+2028, U+2029 |
| `SseWire.UnfinishedFrameArrives` | apps/web/src/services/api.ts:249-251 | a last frame without its blank line is delivered as well |
| `SseWire.CrlfReadsAlike` | apps/web/src/services/api.ts:244-264 | a stream whose lines end with carriage return and line feed gives the same messages |
| `SseWire.LinesSetFields` | apps/web/src/services/api.ts:268-272 | an event, id or data line sets that field and no other |
| `SseWire.TextLinesComeBack` | apps/api/src/api/chat.py:924-926 | splitlines undoes joining with line feeds, with carriage returns, or with both |
| `EventCursor.CursorRoundTrip` | apps/api/src/api/chat.py:890-910 | the server's own event id parses to its sequence for the execution it names and is refused for every other |
| `EventCursor.OwnCursorAccepted` | apps/api/src/api/chat.py:893-899 | an execution's own id is accepted if and only if the execution id has no leading space |
| `EventCursor.BareCursorAccepted` | apps/api/src/api/chat.py:902-904 | a bare sequence number is accepted for every execution |
| `EventCursor.DigitsComeBack` | apps/api/src/api/chat.py:902-904 | reading the decimal digits of a number gives the number |
| `EventCursor.MissingCursorIsZero` | apps/api/src/api/chat.py:890-892 | a missing or blank header starts from the beginning |
| `EventCursor.CursorExactly` | apps/api/src/api/chat.py:893-910 | any other header: the part before the last colon has to name the execution, and the number behind it counts from 0 |
| `EventCursor.NumeralsExactly` | apps/api/src/api/chat.py:902-904 | exactly the digit groups with single underscores between digits are numbers |
| `EventCursor.BarsDoNotCount` | apps/api/src/api/chat.py:902-904 | underscores do not change the number |
| `EventCursor.SignedNumber` | apps/api/src/api/chat.py:902-904 | a sign in front of the number counts |
| `EventStream.ExecutionStream.Publish` | apps/api/src/services/event_stream.py:19-30 | the sequence is the next number, and whatever trimming keeps is the newest contiguous run of at least max_length events |
| `EventStream.GapExactly` | apps/api/src/services/event_stream.py:204-207 | a gap is reported if and only if an event the reader has not seen is no longer stored |
| `EventStream.NoGapWithinLimit` | apps/api/src/services/event_stream.py:204-207 | a reader at most max_length events behind never gets a gap |
| `EventStream.ExpiredExactly` | apps/api/src/services/event_stream.py:186-197 | expiry is reported if and only if the execution had an event and neither key exists, although the two flags are wrong one by one |
| `EventStream.InvalidCursorExactly` | apps/api/src/services/event_stream.py:208-211 | a cursor is invalid if and only if it is ahead of a stream that has events |
| `EventStream.ReadIsComplete` | apps/api/src/services/event_stream.py:225-236 | a read returns exactly the unseen events if and only if none of them was evicted |
| `EventStream.SplitReadCanSkip` | apps/api/src/services/event_stream.py:216-236 | for every retention and every surplus the trimming keeps, a longer burst between the validation and the read makes the read skip events unnoticed |
| `EventStream.ReplayRound` | apps/api/src/services/conversation_service.py:428-476 | one turn of the replay loop delivers consecutive events up to the newest, or ends for the stated reason: degraded, invalid cursor and expiry exactly under their conditions, a gap only if an unseen event is gone, and after the delivery exactly if the run has ended |
| `EventStream.Replay` | apps/api/src/services/conversation_service.py:408-476 | a request reads once a round at its cursor, ends at the first round that gives it a reason to, and delivers events in order, none twice; it delivers the exact run behind its first cursor if nothing is published between validation and read, or if at no read more than max_length events were unseen |
| `EventStream.ReplayAcrossReconnects` | apps/api/src/services/conversation_service.py:418-476 | reconnecting at the last cursor, however often and over however long a stream, delivers one consecutive run in order and without repeats, if the first condition holds for all requests or the second for all their reads |
| `ApprovalGraph.ToolsAreLicensed` | apps/api/src/agent/graph/factory.py:39-60 | on every path tools run only on tools the turn makes available, and if one needs confirmation only right after a human said yes to that agent message, with undecided replies alone in between; yes and no are written out |
| `ApprovalGraph.ApprovalExactly` | apps/api/src/agent/graph/nodes.py:173-209 | a reply approves if and only if it is True, approved: true or one of the twelve words up to case and surrounding space, rejects if and only if it is one of the opposites, and leaves it open otherwise |
| `ApprovalGraph.PathFollows` | apps/api/src/agent/graph/factory.py:39-60 | in every run each visit is the one that the model's calls, the policy of the turn, the tools' results and the human's reply lead to: a refusal ends the turn, an agreement runs the tools, valid calls without confirmation reach the tools, failed calls are reported and counted |
| `ApprovalGraph.RouteExactly` | apps/api/src/agent/graph/edges.py:11-32 | the route behind the agent for any state: each of the four nodes, if and only if |
| `ApprovalGraph.FlagsAfterVisit` | apps/api/src/agent/graph/nodes.py:81-156 | what each visit leaves of the approval and error flags |
| `ApprovalGraph.MessagesAreKept` | apps/api/src/agent/graph/nodes.py:81-156 | no node drops, repeats or reorders a message |
| `ApprovalGraph.StepKeeps` | apps/api/src/agent/graph/nodes.py:81-156 | every node and route keeps the invariant behind it |
| `ApprovalGraph.InvalidExactly` | apps/api/src/agent/graph/edges.py:59-66 | a call is invalid if and only if no configured name covers it |
| `ApprovalGraph.ConfirmationExactly` | apps/api/src/agent/graph/edges.py:47-56 | confirmation is required if and only if some call is covered by a configured name or by * |
| `ApprovalGraph.RunTurn` | apps/api/src/agent/runtime/execution_services.py:525-618 | one run takes at most 3 * max_iterations + 6 steps and ends, interrupts at the human node, or stops after exactly max_iterations + 1 agent visits |
| `ToolAudit.AuditLedger.StartAudit` | apps/api/src/agent/runtime/tool_execution.py:222-279 | refused if and only if side-effecting and completed or running; otherwise the row restarts as running |
| `ToolAudit.AuditLedger.FinishAudit` | apps/api/src/agent/runtime/tool_execution.py:282-309 | only the error text separates failed from completed, and keep_running leaves the row running |
| `ToolAudit.AuditLedger.ExecuteToolCall` | apps/api/src/agent/runtime/tool_execution.py:51-179 | for every ending the row and the reply, and the tool is called exactly when the start was not refused |
| `ToolAudit.ApplyGuards` | apps/api/src/agent/runtime/tool_execution.py:88-160 | every other step keeps: at most one live invocation, and a live one blocks the next start |
| `ToolAudit.UnguardedRepeats` | apps/api/src/agent/runtime/tool_execution.py:143-160 | an exception that interrupts the wait while the thread goes on lets the next call run beside it |
| `ToolAudit.AtMostOnceExactly` | apps/api/src/agent/runtime/tool_execution.py:58-160 | over any run no further call ever makes two invocations live, if and only if no wait was interrupted with an error message under a live thread |
| `ToolAudit.NoneAfterCompleted` | apps/api/src/agent/runtime/tool_execution.py:240-244 | in every run, after a row was recorded completed no invocation is ever started |
| `ToolAudit.SilentFailureIsCompleted` | apps/api/src/agent/runtime/tool_execution.py:297-304 | completed means returned, or failed with an empty message |
| `ToolAudit.EndingsAreRecorded` | apps/api/src/agent/runtime/tool_execution.py:282-309 | for every ending the status, the first 2000 characters of the error, the digest and the finish mark of the row |
| `ToolAudit.WaitEnds` | apps/api/src/agent/runtime/tool_execution.py:88-160 | when a wait ends the invocation is over, except for a thread that cannot be stopped, and no other invocation changes |
| `TextDelta.SuffixPrefixOverlap` | apps/api/src/agent/runtime/execution_services.py:1386-1391 | the downward search finds the largest overlap |
| `TextDelta.DeltaIsOverlap` | apps/api/src/agent/runtime/execution_services.py:1367-1383 | every fast path equals maximal overlap, except for a prepended chunk |
| `TextDelta.DeltaJoinsExactly` | apps/api/src/agent/runtime/execution_services.py:1367-1383 | previous + delta is the shortest text beginning with previous and ending with current, if and only if the chunk is not a longer text that ends with previous and overlaps nothing |
| `TextDelta.IncrementKeptExactly` | apps/api/src/agent/runtime/execution_services.py:1367-1383 | an increment is kept whole if and only if it overlaps nothing and does not end with what is shown |
| `TextDelta.SnapshotsReproduce` | apps/api/src/agent/runtime/execution_services.py:1223-1230 | folding growing snapshots gives the last snapshot |
| `TextDelta.ChunkEmitter.Emit` | apps/api/src/agent/runtime/execution_services.py:1183-1241 | the emitted delta extends exactly its own message, and the deltas of each message concatenate to its text |
| `TextDelta.EmitAll` | apps/api/src/agent/runtime/execution_services.py:1183-1241 | interleaved messages are shown as if each had been streamed alone |
| `TextDelta.FragmentsExactly` | apps/api/src/agent/runtime/execution_services.py:1218-1222 | the fragments of a message are, in order, exactly the texts that carry its id, or no id for the fallback message: two messages never share a text |
| `ContextWindow.TrimContextWindow` | apps/api/src/agent/context/window.py:56-94 | the window is the selected indexes of the specification whose properties follow |
| `ContextWindow.ChooseFocused` | apps/api/src/agent/context/window.py:77-91 | the loops keep the recent messages and the best scored ones |
| `ContextWindow.TrimToTokenBudget` | apps/api/src/agent/context/window.py:97-118 | the backward pass with its early exit equals the greedy specification |
| `ContextWindow.PickedInOrder` | apps/api/src/agent/context/window.py:56-94 | an order-preserving selection of at most limit messages, ending with the latest whenever any recent one is kept |
| `ContextWindow.LatestKeptExactly` | apps/api/src/agent/context/window.py:83-94 | with a focus message the latest survives the count limit if and only if keep_count is positive or no message is more relevant |
| `ContextWindow.PickedFillsBudget` | apps/api/src/agent/context/window.py:97-118 | the token total fits unless one message alone exceeds it, and every candidate left out would exceed it |
| `ContextWindow.NothingSlicedOff` | apps/api/src/agent/context/window.py:83-94 | if keep_count is below the limit the final slice drops nothing |
| `ContextWindow.RelevantStay` | apps/api/src/agent/context/window.py:86-91 | an older message stays only if relevant, and is left out only for the full number of better ranked ones |
| `ContextWindow.RecentStay` | apps/api/src/agent/context/window.py:83-85 | the newest keep_count messages stay, as far as the limit allows |
| `ContextWindow.ScoreCounts` | apps/api/src/agent/context/window.py:49-53 | the score is the number of focus tokens that occur in the text |
| `ContextWindow.EstimateTokens` | apps/api/src/agent/context/window.py:44-46 | the least positive number of tokens of four characters that covers the text |
| `ContextWindow.KeepCount` | apps/api/src/agent/context/window.py:83-83 | the larger of the setting and half the limit, rounded down |
| `ContextWindow.NoBudgetSendsAll` | apps/api/src/agent/context/window.py:69-69 | without a positive budget every candidate is sent |
| `Summary.MergeIsBounded` | apps/api/src/memory/summary.py:26-39 | no merge is longer than 2400 characters |
| `Summary.EarlyPartStays` | apps/api/src/memory/summary.py:36-39 | the right-stripped first 1200 characters of a merged summary begin every later one |
| `Summary.RecentTextStays` | apps/api/src/memory/summary.py:37-39 | an addition of at most 1195 characters is the end of the merge |
| `Summary.SummarizeMessages` | apps/api/src/memory/summary.py:8-23 | the loop gives the specified lines, cut to the last 2400 characters |
| `Summary.LatestTurnIsLast` | apps/api/src/memory/summary.py:10-23 | a batch summary ends with the line of its latest message |
| `Summary.BatchesPartition` | apps/api/src/memory/short_term.py:133-139 | batches of twelve cut the rows without loss, repetition or reordering |
| `Summary.ShortTermMemory.RefreshSummary` | apps/api/src/memory/short_term.py:92-161 | one refresh folds exactly the rows after the cursor and stores the summary and the new cursor, or nothing if blank |
| `Summary.RefreshesPartitionHistory` | apps/api/src/memory/short_term.py:106-130 | when messages arrive in key order, the history is what arrived, what was folded in is the history up to the cursor, and the next refresh takes exactly the rest |
| `Summary.SeenExactly` | apps/api/src/memory/short_term.py:120-128 | a message is seen by a refresh if and only if its key lies behind the cursor |
| `Summary.StoredEarlyPartStays` | apps/api/src/memory/short_term.py:66-90 | in every session the right-stripped first 1200 characters of a stored summary begin every later stored one, over any messages and refreshes |
| `Summary.UnsavedMeansBlank` | apps/api/src/memory/short_term.py:75-76 | a refresh that saves nothing had only blank messages to fold |
| `Summary.LinesExactly` | apps/api/src/memory/summary.py:10-22 | the lines of a batch are, in order, exactly those of its messages with text and a named role: speaker, colon, at most 360 characters |
| `Summary.TurnsExactly` | apps/api/src/memory/short_term.py:164-174 | exactly the user and assistant messages with text are folded in, trimmed and in order |
| `Summary.LastMergeStays` | apps/api/src/memory/summary.py:37-39 | after any number of merges the last addition, if it is not longer than 1195 characters, is the end |
| `Summary.ShortMergeIsWhole` | apps/api/src/memory/summary.py:28-36 | a merge that fits keeps both sides whole, one line after the other |
| `Summary.ShortBatchIsWhole` | apps/api/src/memory/summary.py:10-23 | a batch summary that fits holds every line of the newest max_items messages |
| `Pagination.CursorRoundTrip` | apps/api/src/services/conversation_service.py:811-834 | decoding undoes encoding if and only if the message has an id |
| `Pagination.CursorExactly` | apps/api/src/services/conversation_service.py:816-832 | a cursor is accepted if and only if it is a timestamp that parses, the separator and an id that is not empty, cut at the first separator |
| `Pagination.RefusedExactly` | apps/api/src/services/conversation_service.py:821-831 | a cursor is refused as empty if and only if it is blank, and for its timestamp if and only if it has two parts and the first does not parse |
| `Pagination.PageIsNewest` | apps/api/src/services/conversation_service.py:796-809 | a page is the newest part of what lies before the cursor, and next_cursor exists exactly when more is there |
| `Pagination.NextPage` | apps/api/src/services/conversation_service.py:778-809 | a later page does not depend on messages that arrived since |
| `Pagination.FollowCursor` | apps/api/src/services/conversation_service.py:769-809 | following next_cursor yields every message once, in order, in ceil(n / limit) pages, whatever arrives meanwhile |
| `MessageOrder.KeysAreOrdered` | apps/api/src/services/conversation_service.py:784-803 | messages are strictly and totally ordered, by time first and by id among equal times |
| `RuntimeCache.LruCache.Get` | apps/api/src/agent/runtime/container.py:196-205 | a hit returns the stored value and counts as a use; a miss changes nothing |
| `RuntimeCache.LruCache.Put` | apps/api/src/agent/runtime/container.py:207-217 | the value is stored, other kept values are unchanged, and the keys are the most recently used ones |
| `RuntimeCache.LruCache.Evict` | apps/api/src/agent/runtime/container.py:215-217 | the loop drops the oldest keys until the rest fits |
| `RuntimeCache.UseNewest` | apps/api/src/agent/runtime/container.py:202-217 | move-to-end and evict keep exactly the capacity most recently used keys |
| `RuntimeCache.ToolsAreInKey` | apps/api/src/agent/runtime/container.py:175-190 | the tools of a turn are exactly the registered ones whose names occur in the flat key |
| `RuntimeCache.KeyDecidesTools` | apps/api/src/agent/runtime/container.py:175-190 | equal keys mean equal model settings and equal tools, for any permissions |
| `RuntimeCache.AllowedExactly` | apps/api/src/agent/tools/registry.py:32-45 | a registered tool may be used if and only if the permissions stand for all tools or name it up to surrounding space |
| `RuntimeCache.SpellingDoesNotMatter` | apps/api/src/agent/runtime/container.py:84-90 | permissions that name the same tools, with a literal * in both or in neither, have one key, whatever their order, repetition and spacing |
| `RuntimeCache.RuntimeContainer.GetModel` | apps/api/src/agent/runtime/container.py:91-110 | cached or not, the model is the one a rebuild would give |
| `RuntimeCache.RuntimeContainer.GraphForPermissions` | apps/api/src/agent/runtime/container.py:120-138 | cached or not, the graph is the one a rebuild would give |

## Left out

- Redis, PostgreSQL, Celery and LangGraph themselves: they appear as one store with atomic steps, a broker with
  unclaimed and claimed messages, and a checkpoint that holds a set of pending interrupts.
- Exceptions between the commits that H1 joins, and the cancellation check after a completed run
  (runner.py:164-168), which finds no request under H1 (`CancelIsNeverLost`: a completed row has none).
- `use_lease=False` and `create_attempt=False` in `claim_execution`: the mode without leases and attempts.
- The postprocess outbox rows and their handling, session deletion, trace ids, event emission, timing metrics,
  markers and log messages.
- Error texts: a failure is a value of an enumeration, not its message.
- Identifiers in the lifecycle are numbers compared for equality; message ids in `MessageOrder` are their ranks
  among strings.
- LifecycleAnswers.NewTurnLosesExactly: speaks of services that allow a second attempt and grant a lease (the settings
  default to three attempts and demand 30 seconds); the direction that answers arrive, `AnswersArrive`, needs neither.
- FairMerge.FairDedupeAndTrim: the signature hash is an injective key, and an item carries the fields the merge
  reads (signature, summary, source and platform ids, rank); the other copied fields and `candidate_id` are not kept.
- The hotspot health counts, fetching and scoring.
- SseWire.ReadAll: works on decoded characters; splitting of UTF-8 bytes across chunks is the decoder's job, and
  the listener table and the final `close` event are not modelled. The JSON printer appears only as the text of a
  JSON object without control characters.
- EventCursor.CursorRoundTrip: non-ASCII digits and spaces, and the limit on the number of digits, of Python's
  `int` are not modelled.
- EventStream.Replay: one lifetime of the two Redis keys; the three commands of `bounds` see one state; blocking,
  polling delays, payload decoding and the non-transactional `publish` of explicit projections are not modelled.
  `iter_events` differs from the modelled loop only in stopping at the first empty read.
- ApprovalGraph.RunTurn: exceptions from the model or from tools, the retry of a broken model stream, and
  LangGraph's own recursion limit, which only stops runs earlier. Lower-casing of replies is ASCII.
- ToolAudit.AtMostOnceExactly: reading and marking the row in `_start_audit` is one step, so the insertion race and
  two simultaneous retries of a failed row are not modelled; output truncation is not modelled.
- TextDelta.ChunkEmitter.Emit: tool progress events and the filter on the graph node are one case without text.
- ContextWindow.TrimContextWindow: text normalisation and the splitting of the focus message are inputs.
- Summary.ShortTermMemory.RefreshSummary: stored rows are user and assistant text rows in key order; the format of
  the stored cursor and its parsing are not modelled.
- Pagination.CursorRoundTrip: timestamps are abstract, with their printing and parsing as parameters.
- RuntimeCache.RuntimeContainer: the registry and the settings do not change, the locks make each cache call one
  step, and graphs and models are identified with what they are built from.
- LLM clients, prompts, research synthesis, feeds, HTTP routing, login, mail, admin listings and the web user
  interface.
