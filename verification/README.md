# Delivery guarantees of the Kafka consumer, in Dafny

The consumer polls a topic, buffers messages per partition, cuts them into batches, hands
the batches over a bounded channel to a pool of workers and commits, per partition, the
offset that its coordinator reports. This project models that delivery pipeline and proves
what it guarantees: for any number of partitions, any message sequence and any
interleaving of the poll loop, linger timers, workers, rebalance callbacks and shutdown.

`dafny verify dfyconfig.toml` checks the whole project.

## How the model is laid out

* `Pipeline` is the concurrent protocol. One step is one critical section or one channel
  operation, and a run is any sequence of steps whose guards hold, whoever makes them. A
  batch cut from a buffer is a *flight* with a stage: assembled, checked, announced,
  refused, returned, queued, working, handled, abandoned or stranded. The state also carries
  history: what was sent in the current assignment, what was handled, and what became of the
  latest `BatchDispatched`.
* `Schedule` says who makes the steps. `Send`, the rebalance callbacks, commits and `Close`
  belong to the one goroutine of the poll loop (internal/pollloop/kafka.go:13,
  internal/kafka/adapter.go:260-261); a linger callback needs a timer that ran out; a sweep
  works through the partitions it found waiting and carries each batch it cuts. Every
  schedule is a run of the pipeline (`ScheduleIsRun`), so theorems about all runs hold of
  all schedules. Results that say what the code can reach are about schedules; that of
  `Shutdown` only carries on a batch that is already under way.
* `Views`: the pipeline as one partition sees it, a machine of its own. `Ledger`: the
  invariants of that machine, step by step.
* `Delivery`, `CommitSafety`, `Assignment`, `Shutdown`: theorems about all runs.
* `Departures`: where a property fails, from which states, and by which continuation.
  `Replay` builds schedules step by step, `Desks` shows that the poll loop can always finish
  what it is doing, `Sweeps` that a batch's sweep can cut any waiting partition, `Scenes` has
  concrete schedules of two partitions.
* `Storage`, `Dispatcher`, `Offsets`: the imperative code, method by method, with what each
  call comes to for the messages a partition has queued and buffered. `Atomic` shows that an
  undisturbed call of each dispatcher method is a run of pipeline steps, and which steps.
* `WakeUp`: exactly when a waiting partition is forgotten. The schedule follows timers
  themselves and not only the field that holds them: a callback that comes late may clear
  the field of a newer timer, which then still runs.
* `Processing`, `Backoff`: the worker's retry loop as an automaton over its effects, and the
  same told by the effects alone.
* `Breaker`, `Degraded`, `PollLoop`, `LoopHistory`: breaker notices, degraded mode, pause
  tracking, readiness.
* `EndToEnd`: the poll loop and the breaker's notices driving the schedule. `Locks`:
  deadlock freedom.

"Handled" means that `processBatch` reached one of its three completing ends: success,
non-retryable error, or retries exhausted.

## Assumptions

* One topic: all state is keyed by partition number alone.
* Offsets of a partition arrive in ascending order, from a log that does not change.
* Paused partitions deliver nothing, and only assigned partitions deliver.
* A reassigned partition resumes at its committed offset, or at the group's first position
  when nothing was committed.
* `BatchSize` and the channel's capacity are positive.
* Workers are not counted: whenever a batch is queued, one is or becomes free for it.

## Which results need which conditions

Conditions on a partition concern that partition's own steps only, whatever the others do.

* Every run, no condition: no coordinator panic, one live batch per partition, distinct
  partitions in the channel, abandonment, the account of sends on a closed channel.
* At most ChannelCap partitions: no dispatch is ever undone, and conservation holds in
  every interleaving. If in addition nothing polled from the partition is discarded, its
  commits are safe. `EndToEnd` replaces "nothing is discarded" by what causes it: pause and
  resume calls succeed and no assignment arrives while degraded. The second is necessary:
  from every state in which the loop is idle, the breaker closed, a batch at a worker and
  another partition about to be assigned with nothing of it under way, such an assignment can
  lose that partition's next message
  (`AssignmentWhileDegradedLosesMessage`), and every configuration with two partitions has
  such a state (`FirstMessageCanBeLost`).
* Any number of partitions, conservation: no revocation catches an undo of the partition
  between finding the channel full and the put-back (`UndoUncaught`). Before Close this is
  exact: from every state in which the poll loop may revoke a partition whose batch is being
  undone, and from every state in which a batch of a revoked assignment is about to be
  refused, some continuation is not conserved.
* Any number of partitions, three properties of reports, each with a condition of its own
  that says when a record may outlive its assignment. All three include `UndoUncaught`;
  discarded messages do no harm.
  * The record refines the offset tracker: no `BatchDispatched` comes after the coordinator
    has forgotten the batch's assignment (`InTime`).
  * The account of the undo: a `BatchDispatched` of an earlier assignment may come late, and
    an assignment may begin with a record of an earlier one, as long as its offset lies below
    every message this assignment has sent or can still send (`BelowTheRest`).
  * Reports never go down: as before, as long as the first batch of this assignment cannot
    end below that offset (`NotAboveTheFirst`).

  Before Close each is exact among schedules without a caught undo: from every state in
  which the next step would break the condition some continuation breaks the property
  (`LateAnnouncementBreaksTracker`, `RecordAboveTheRestMisreports`,
  `RecordAboveFirstBatchGoesDown`).

  A caught undo leaves the batch to the next assignment, where the sweep of another batch can
  cut it before anything is delivered. So the tracker is always broken by a refusal that
  comes after a revocation, and by a revocation during the undo while some batch is queued,
  at a worker or about to be swept (`CaughtUndoBreaksTracker`). With nothing due the next
  `Send` cuts the batch if it is full, and breaks the tracker unless the partition resumes at
  the batch's last message: that one is then handled twice and the tracker agrees
  (`HandledTwiceAgrees`). In all these cases reports go down if the partition resumes below
  the batch's last message, and one passes an unhandled message if a message that it sends
  again below the last one was not in the batch (`CaughtUndoMisreports`).
* Any number of partitions, commit safety: as for conservation, and nothing polled from the
  partition is discarded, and the coordinator is never read while the partition stands
  undone. Whoever cuts a batch that meets a full channel, the next commit passes the batch
  although nothing was handled: it is unsafe unless the batch had been handled before. A
  caught undo can be committed past in the same way (`CaughtUndoCommitsUnhandled`,
  `LateRefusalCommitsUnhandled`).
* No lost wake-up: every schedule, unless some put-back forgets a partition. Which put-backs
  do is decided by the state before them (`WakeUp.Forgets`), and every one that does loses a
  wake-up. If the undo of `dispatchBatch` is one piece, none does.

## Where the code departs from its documentation

The model follows the code in each of these.

* When the channel is full, the undo completes a batch that returns to the buffer, and the
  coordinator then offers an unhandled message for commit (unordered.go:395-409).
* `dispatchBatch` releases `mu` before it sends, so `Close` can race with the send although
  its comment says that it cannot (unordered.go:294-296, 377-387).
* Revocation clears the buffer but does not drain the batch in flight, although the callers
  and the interface say that it does (unordered.go:247-276, dispatcher.go:75-78).
* The sweep is said to unblock every partition that met backpressure
  (unordered.go:654-664); a partition whose put-back comes after the last sweep is not.
* A failed dead-letter produce is completed like a successful one (unordered.go:642-649).
* A half-open breaker at exhausted retries dead-letters the batch; the comment says the
  circuit is closed there (unordered.go:580-591).
* A partition assigned while degraded is not paused, and what it delivers is dropped
  (pollloop.go:153-161, 444-452).
* An assignment callback that names no partition makes the service ready
  (pollloop.go:444-449).
* A breaker notice that finds its channel full is dropped and never sent again, so a
  recovery can go unheard (unordered.go:158-166).
* `lingerMu` protects nothing that `mu` does not: it is only ever taken while holding `mu`.

## Model

| member | source | states |
|---|---|---|
| EndToEnd.CommittedIsHandledEndToEnd | internal/pollloop/pollloop.go:152-252 | Commit safety of poll loop and pipeline together: with at most ChannelCap partitions, successful pause and resume calls and no assignment while degraded, every message below a committed offset was handled, in every interleaving |
| EndToEnd.NothingPolledIsLost | internal/pollloop/pollloop.go:164-205 | Under the same conditions what was sent is exactly what was polled, and every message of it is handled, in flight, buffered or dropped by a revocation, in log order |
| EndToEnd.DrivenRunDiscardsNothing | internal/pollloop/pollloop.go:153-189 | Every such run of the system projects to a pipeline run in which neither the degraded poll nor the paused skip discards anything |
| EndToEnd.RoomResumesAll | internal/pollloop/pollloop.go:257-263 | In every healthy run outside degraded mode the ready signal makes every assigned partition deliver |
| EndToEnd.RefusedSendPauses | internal/pollloop/pollloop.go:191-203 | A Send of the schedule that meets backpressure stops the deliveries of its partition |
| EndToEnd.AssignmentWhileDegradedLosesMessage | internal/pollloop/pollloop.go:444-452 | From every reachable state with a closed breaker, no waiting notice and no degraded reason, a batch at a worker, and another partition of which nothing is under way and whose next message is unhandled and not its last: some schedule opens the breaker, assigns the partition, drops that message, closes the breaker and commits past it |
| EndToEnd.FirstMessageCanBeLost | internal/pollloop/pollloop.go:153-161 | In every configuration with a partition of two messages and another of one, some run from the start loses a message that way |
| CommitSafety.CommittedIsHandled | internal/dispatcher/unordered.go:318-410 | In every interleaving with at most ChannelCap partitions and nothing polled from the partition discarded, every message of its log below the committed offset was handled |
| CommitSafety.CommittedIsHandledUnlessReadUndone | internal/pollloop/pollloop.go:211-252 | The same with any number of partitions, when for this partition nothing is discarded, no undo is caught by a revocation and no report is read while it stands undone |
| CommitSafety.BackedRun | internal/offset/coordinator_impl.go:39-127 | Under those conditions what is reported, read and committed for the partition has only handled messages below it, throughout |
| CommitSafety.FewPartitionsNeverUndo | internal/dispatcher/unordered.go:386-409 | With at most ChannelCap partitions no step of any run refuses, undoes or puts back a batch |
| CommitSafety.PolledIsSent | internal/pollloop/pollloop.go:184-205 | If nothing polled from a partition is discarded, what was sent in an assignment is the stretch of the log that was polled |
| Delivery.NoCoordinatorPanic | internal/offset/coordinator_impl.go:44-90 | Neither panic of the coordinator is reachable, through undo, revocation with a batch in flight, reassignment and late completion |
| Delivery.InFlightRecordHasItsBatch | internal/offset/coordinator_impl.go:43-56 | A record in flight means the dispatcher's flag is set and a live batch of that partition carries the recorded offset |
| Delivery.OneBatchPerPartition | internal/dispatcher/unordered.go:318-371 | A partition has at most one live batch, of 1 to BatchSize messages; its flag is set and an in-flight record carries its offset |
| Delivery.BackpressureNeedsManyPartitions | internal/dispatcher/unordered.go:384-409 | Queued batches have pairwise distinct partitions, none the one being dispatched, so with at most ChannelCap partitions the full-channel branch cannot be taken |
| Assignment.NothingLostOrReordered | internal/dispatcher/unordered.go:194-214 | Unless a revocation catches an undo of the partition: handled messages, then the live or abandoned batch, then the buffer, then what a revocation dropped, are exactly what was sent in this assignment, in ascending order |
| Assignment.NothingLostWithFewPartitions | internal/dispatcher/unordered.go:343-410 | The same in every interleaving, without condition, when there are at most ChannelCap partitions |
| Assignment.ReportPassesUnhandledIffUndone | internal/dispatcher/unordered.go:384-409 | If no undo is caught and every record of an earlier assignment lies below what this one sends: the reported offset passes an unhandled message if and only if the latest BatchDispatched was undone by a full channel and the partition has not been dispatched since |
| Assignment.RecordRefinesTracker | internal/offset/coordinator_impl.go:39-115 | If no undo is caught and every dispatch is announced in its own assignment: unless undone, one record reports what a tracker of all acknowledged offsets reports, one past the longest handled prefix of what was sent |
| Assignment.ReportsNeverGoDown | internal/offset/coordinator_impl.go:104-115 | If no undo is caught and the first batch cannot end below a record of an earlier assignment, successive reports of an assignment never decrease, across undo and redispatch |
| Departures.FullChannelCommitsUnhandled | internal/dispatcher/unordered.go:395-409 | From every reachable state before Close in which Send, a sweep or the linger flush is about to cut a batch and the channel is full, some schedule puts the batch back and then commits past its last message although nothing was handled since; if no undo was caught before, its first message lies below the commit and is unhandled in this assignment |
| Scenes.CommitUnsafeWhenChannelFull | internal/dispatcher/unordered.go:395-409 | A concrete schedule with two partitions and room for one batch: the second Send meets a full channel, and the next commit passes a message nobody handled |
| Departures.CaughtUndoBreaksConservation | internal/dispatcher/unordered.go:395-409 | Before Close: from every state in which the poll loop may revoke a partition during its undo, and from every refusal of a batch of a revoked assignment, some schedule leads to a state in which what is buffered and handled is not what was sent |
| Departures.LateRefusalCommitsUnhandled | internal/dispatcher/unordered.go:395-409 | Outside a revocation of the partition, a refused batch of an earlier assignment whose record is still there can be committed past, although no step since has handled anything |
| Departures.LateAnnouncementBreaksTracker | internal/dispatcher/unordered.go:375-387 | From every state in which BatchDispatched comes after its assignment, some schedule has a record that reports although nothing of the assignment is acknowledged |
| Departures.RecordAboveTheRestMisreports | internal/dispatcher/unordered.go:375-387 | From every state in which a late BatchDispatched or an inherited record does not lie below what the assignment sends, some schedule has a report that passes an unhandled message with nothing undone |
| Departures.RecordAboveFirstBatchGoesDown | internal/offset/coordinator_impl.go:39-115 | From every state in which the first batch can end below such a record, some schedule has two reports of one assignment, the second lower |
| Departures.CaughtUndoBreaksTracker | internal/dispatcher/unordered.go:395-409 | A refusal after a revocation always, a revocation during the undo whenever another batch is due for a sweep, and otherwise that of a full batch whose partition does not resume at its last message, lead to a report that no tracker shares |
| Departures.HandledTwiceAgrees | internal/dispatcher/unordered.go:318-339 | If Send cuts the full batch that came back and the partition resumed at its last message, that message is handled twice and the report is the tracker's |
| Departures.CaughtUndoMisreports | internal/dispatcher/unordered.go:395-409 | After either kind of caught undo, if another batch is due or the batch was full, and the partition resumes below the batch's last message: a report that is followed by a lower one; and if some message sent again below the last one was not in the batch, that report passes an unhandled message |
| Departures.CaughtUndoCommitsUnhandled | internal/dispatcher/unordered.go:395-409 | If in that last case the message was never handled, some schedule commits past it and it still is not |
| Scenes.ConservationFailsWhenUndoIsRevoked | internal/dispatcher/unordered.go:414-459 | A concrete schedule: a linger callback meets the full channel, and a revocation comes before its put-back |
| Departures.OvertakenDispatchMisreports | internal/dispatcher/unordered.go:375-387 | From every state in which a timer or a sweep has cut a batch and not announced it, a rebalance leads to a report that no tracker shares and that passes an unhandled message if the partition resumes at or below the batch's last message, and to a lower one after it if it resumes below |
| Departures.ReportsGoDownAfterRevokeMidDispatch | internal/dispatcher/unordered.go:414-459 | A concrete schedule of one partition: a linger callback has cut two messages, a rebalance overtakes it, and reports of the new assignment go down |
| Shutdown.AbandonmentSticks | internal/dispatcher/unordered.go:464-513 | Once a worker panics on or leaves a batch, its partition never has another batch and is never committable again, even after revocation and reassignment |
| Shutdown.SendOnClosedIffDispatchUnderWay | internal/dispatcher/unordered.go:281-297 | After Close some continuation sends on the closed channel exactly when a dispatch was between its closed check and its send |
| WakeUp.NoLostWakeUp | internal/dispatcher/unordered.go:654-696 | In every schedule before shutdown, unless a put-back forgot a partition: a partition with buffered messages and no batch in flight has a running linger timer, or a goroutine that has yet to try it, or some batch is on its way to a sweep |
| WakeUp.AtRestSomebodyComes | internal/dispatcher/unordered.go:654-696 | So once Send, callbacks and sweeps have come to rest, ended sweeps included, its timer runs or some batch is queued, at a worker or about to be swept |
| WakeUp.StepForgetsExactly | internal/dispatcher/unordered.go:318-459 | A step leaves a waiting partition to nobody if and only if it is a put-back with no other batch on its way and a partition left without timer and goroutine, that of the batch or one waiting for the sweep that now breaks off |
| WakeUp.ForgottenIsLost | internal/dispatcher/unordered.go:386-409 | Such a put-back, in every schedule, leaves a waiting partition to nobody |
| WakeUp.UndoInOnePieceLosesNothing | internal/dispatcher/unordered.go:386-409 | If every refused batch is put back before any other step, as when dispatchBatch is one step, no wake-up is lost |
| WakeUp.UndoInOnePieceSomebodyComes | internal/dispatcher/unordered.go:654-696 | And then, at rest, a waiting partition's timer runs or some batch is queued, at a worker or about to be swept |
| Schedule.ScheduleIsRun | internal/dispatcher/unordered.go:194-214 | Every schedule of poll loop, timers, workers and sweeps is a run of the pipeline, and what its steps meet for a partition the run meets |
| Schedule.SoundCrewRun | internal/dispatcher/unordered.go:414-438 | Throughout a schedule a set timer field holds a running timer or its callback has yet to clear it, and the pipeline's invariants hold |
| Desks.DeskSoundStep | internal/pollloop/pollloop.go:130-147 | Send carries a batch of the current assignment from the append to the end of dispatchBatch, and a partition is being revoked exactly while the callback is working on it |
| Desks.PlayHome | internal/pollloop/pollloop.go:130-147 | Whatever the poll loop is doing, unless it is in a Send of the partition that carries its batch or may still cut one, some schedule brings it back to its select loop; the partition sees at most a report and the end of its revocation |
| Sweeps.PlaySweptAlong | internal/dispatcher/unordered.go:665-696 | While some batch is queued, at a worker or handled, some schedule sweeps it and cuts the batch of any given waiting partition, at once or through the timer that the sweep starts |
| Scenes.WakeUpLostWhenUndoIsOvertaken | internal/dispatcher/unordered.go:386-409 | A concrete schedule of two Sends and one worker that leaves a buffered message with no timer, no batch and nobody to wake it |
| Atomic.AttemptRun | internal/dispatcher/unordered.go:318-410 | An undisturbed tryDispatch or flushPartition, for any partition and in all branches, is a run of exactly the cut and the steps of dispatchBatch by one goroutine, with the function's effect and answer |
| Atomic.SendRun | internal/dispatcher/unordered.go:194-214 | An undisturbed Send is nothing when closed, otherwise the delivery, the tryDispatch and, if that cuts a batch, the steps of dispatchBatch |
| Atomic.LingerRun | internal/dispatcher/unordered.go:414-459 | An undisturbed callback is the forgetting of the timer, the flush and the steps of dispatchBatch |
| Atomic.DrainRun | internal/dispatcher/unordered.go:686-695 | The loop over the pending partitions calls tryDispatch once for each of them, in order, up to the first refusal |
| Atomic.CompletionRun | internal/dispatcher/unordered.go:541-552 | BatchComplete followed by onBatchDone is the completion, the sweep and then that loop |
| Atomic.RevokeRun | internal/dispatcher/unordered.go:251-276 | The revocation of a list of assigned partitions is one clearing step for each, in order |
| Atomic.AssignRun | internal/dispatcher/unordered.go:230-245 | The assignment of a list of unassigned partitions is one step for each, in order |
| Atomic.CloseRun | internal/dispatcher/unordered.go:281-297 | The same for Close |
| Dispatcher.UnorderedDispatcher.constructor | internal/dispatcher/unordered.go:115-126 | A new dispatcher knows no partition and keeps the agreement with the coordinator |
| Dispatcher.UnorderedDispatcher.Send | internal/dispatcher/unordered.go:194-214 | Rejected and without effect when closed. Otherwise the messages join the buffer; with none in flight and BatchSize of them there, exactly the first BatchSize go to the channel if it has room, or all go back and the answer is backpressure; with fewer the timer runs. An accepted partition is in flight, has a timer or has no messages; no other partition is touched |
| Dispatcher.UnorderedDispatcher.TryDispatch | internal/dispatcher/unordered.go:318-339 | The same for the messages that are buffered already; on a closed dispatcher a due batch is rejected; never panics the coordinator |
| Dispatcher.AttemptKeepsInHand | internal/dispatcher/unordered.go:343-410 | Unless it is rejected, an attempt to dispatch loses, repeats and reorders nothing: what is queued of a partition, then what is buffered, stays the same |
| Dispatcher.SentKeepsInHand | internal/dispatcher/unordered.go:194-214 | What is handed to Send joins the end of what the dispatcher holds of its partition, and only a closed dispatcher rejects it |
| Dispatcher.UnorderedDispatcher.DispatchBatch | internal/dispatcher/unordered.go:375-410 | Rejected when closed, queued when there is room, otherwise undone and put back; undisturbed, the send never meets a closed channel |
| Dispatcher.UnorderedDispatcher.LingerCallback | internal/dispatcher/unordered.go:414-459 | Afterwards no timer is set; unless one is in flight, the first BatchSize messages or all of fewer go to the channel, or back if it is full |
| Dispatcher.UnorderedDispatcher.OnBatchDone | internal/dispatcher/unordered.go:665-696 | The flag is cleared and readiness signalled. The waiting partitions are tried in turn; only a refusal ends that early and leaves the later ones untouched. Unless the channel is full or closed, afterwards every waiting partition has a timer; no message is lost, repeated or reordered |
| Dispatcher.DrainedSweeps | internal/dispatcher/unordered.go:686-695 | Of the pending partitions a first part was tried: each of them is in flight, empty or has a timer, except the last if it met a full channel; the others are unchanged |
| Dispatcher.SweptAreAttended | internal/dispatcher/unordered.go:654-664 | After a sweep of everything that waited, a partition with messages is in flight or has a timer, unless the channel is full |
| Dispatcher.UnorderedDispatcher.CollectPending | internal/dispatcher/unordered.go:673-678 | Lists exactly the partitions with messages and no batch in flight, each once |
| Dispatcher.UnorderedDispatcher.OnPartitionsAssigned | internal/dispatcher/unordered.go:230-245 | New partitions get an empty buffer, known ones keep theirs |
| Dispatcher.UnorderedDispatcher.OnPartitionsRevoked | internal/dispatcher/unordered.go:251-276 | Named partitions lose buffer and timer and keep their in-flight flag |
| Dispatcher.UnorderedDispatcher.Close | internal/dispatcher/unordered.go:281-297 | Closed together with the channel, every timer stopped, everything else unchanged |
| Storage.PartitionBuffer.Append | internal/dispatcher/unordered.go:201-209 | The slice holds the old messages then the new ones, in place or in fresh storage |
| Storage.PartitionBuffer.CopyWithin | internal/dispatcher/unordered.go:349-354 | A front-to-back copy is exact even when the ranges overlap, and touches nothing else |
| Storage.PartitionBuffer.AssembleBatch | internal/dispatcher/unordered.go:343-371 | The batch is a prefix of up to BatchSize messages in storage of its own; the remainder moves to the front of the same storage |
| Storage.PartitionBuffer.PutBack | internal/dispatcher/unordered.go:401-406 | The returned batch goes in front of what arrived meanwhile |
| Offsets.Coordinator.BatchDispatched | internal/offset/coordinator_impl.go:39-62 | The record is replaced by one in flight and the partition is not committable |
| Offsets.Coordinator.BatchComplete | internal/offset/coordinator_impl.go:66-99 | Unknown partitions and repeated completions are ignored, otherwise the partition becomes committable one past its offset |
| Offsets.Coordinator.Report | internal/offset/coordinator_impl.go:104-115 | Exactly the completed partitions, each at one past its offset |
| Offsets.Coordinator.Reset | internal/offset/coordinator_impl.go:118-127 | The record is gone and no other record changed |
| Processing.CompletedOnceExactlyWhenHandled | internal/dispatcher/unordered.go:492-602 | BatchComplete is called at most once, exactly on the handled ends, each time followed at once by the one onBatchDone; never on a shutdown exit or a panic |
| Processing.AllowsExactlyWhatMayFollow | internal/dispatcher/unordered.go:492-625 | Told by the effects alone: which effect may come next is decided by the latest effects and the failures of the round, and the automaton allows exactly those |
| Processing.CompletedExactlyWhenDone | internal/dispatcher/unordered.go:534-602 | In every finished trace BatchComplete and onBatchDone were called once exactly when the last attempt succeeded or met a non-retryable error or exhausted retries were dead-lettered, and not at all exactly when it ends in an interruption or a panic |
| Processing.ExhaustionIsEarned | internal/dispatcher/unordered.go:555-601 | A retries-exhausted decision follows exactly MaxRetries+1 transient failures of the current round and a breaker reading other than Open, and carries the last error |
| Processing.ExhaustionIsForced | internal/dispatcher/unordered.go:578-601 | After MaxRetries+1 transient failures of a round the breaker is read; Open is followed by a hold or an interruption only, anything else by the dead-letter decision with the last error only |
| Processing.RoundCounts | internal/dispatcher/unordered.go:496-578 | At every point the loop's counter is the number of transient failures of the current round; rejections never count |
| Processing.BackoffsCountUp | internal/dispatcher/unordered.go:496-513 | Without rejections and holds the retries call backoff with 0, 1, 2, ... in turn, at most MaxRetries times |
| Processing.Worker.ProcessBatch | internal/dispatcher/unordered.go:492-602 | For every finite script of answers, sleeps and breaker readings the loop ends. It takes answers up to the first that is neither a rejection nor a transient failure; it completes the batch once if that is a success or a non-retryable error, or if exhausted retries are dead-lettered, and otherwise ends in an interruption, a panic or the end of the script |
| Processing.Worker.HoldUntilCircuitCloses | internal/dispatcher/unordered.go:607-625 | The hold ends in shutdown or goes back to processing once the breaker does not read Open |
| Processing.Worker.Attempt | internal/dispatcher/unordered.go:496-577 | One pass of the retry loop, in all its exits |
| Backoff.DelayBounds | internal/dispatcher/retry.go:25-36 | For every attempt and draw the delay is at least min(100ms doubled n times, 30s) and less than 1.5 times that |
| Backoff.NominalDoubles | internal/dispatcher/retry.go:10-29 | The delay without jitter starts at 100ms and doubles up to 30s |
| Backoff.DelayIsJittered | internal/dispatcher/retry.go:31-36 | For a given draw the delay is the nominal one plus that share of half of it, truncated |
| Backoff.StrictlyIncreasingIffBelowCap | internal/dispatcher/retry.go:10-36 | An attempt waits less than the next whatever the draws if and only if it is below the eighth doubling |
| Backoff.RoundSleepsBounded | internal/dispatcher/unordered.go:496-513 | A worker without rejections and holds sleeps less than 150ms * (2^MaxRetries - 1) and at most 45s per retry |
| Breaker.BreakerAgreement | internal/dispatcher/unordered.go:150-167 | Hearing the queued notices makes TargetUnavailable mean "not Closed" exactly when the latest change to Open or Closed that found room on the channel is the same as the latest of all; so in every history without a dropped notice |
| Breaker.FirstThreeAreKept | internal/dispatcher/unordered.go:158-166 | While nobody listens the first three changes are kept in order and every further one is dropped |
| Breaker.HearsInOrder | internal/pollloop/pollloop.go:144-146 | Notices are heard in the order in which they were given, whenever there is one |
| Breaker.DroppedRecoveryIsNeverHeard | internal/dispatcher/unordered.go:158-166 | From every history in which a recovery finds the channel full, the loop goes on believing the target is down |
| Breaker.RecoveryCanBeDropped | internal/dispatcher/unordered.go:158-166 | Two trips and two probes that nobody hears lead to such a history |
| LoopHistory.BrokerReasonIsFailedCommits | internal/pollloop/pollloop.go:211-252 | BrokerUnavailable is active exactly when at least the last CommitFailureThreshold non-empty commits all failed, whatever else happened |
| LoopHistory.ReadyIffHealthy | internal/pollloop/pollloop.go:292-326 | In every history the service is ready exactly when no reason is active and the assigned count is positive or the latest rebalance callback was an assignment that named nothing |
| LoopHistory.EmptyGrantFakesReadiness | internal/pollloop/pollloop.go:444-452 | After any history without reasons and partitions, an assignment that names nothing makes the service ready |
| LoopHistory.AssignedCountIsExact | internal/pollloop/pollloop.go:444-472 | The running count is the number of partitions held, when rebalances name new and held partitions once |
| LoopHistory.NothingPolledIsDropped | internal/pollloop/pollloop.go:292-437 | If broker calls succeed and no assignment arrives while degraded, outside degraded mode the paused set is pausedPartitions, inside it everything assigned is paused, and no delivered message is dropped |
| LoopHistory.TrackedStep | internal/pollloop/pollloop.go:257-437 | Every handler keeps the pause tracking |
| LoopHistory.ReadyResumesAll | internal/pollloop/pollloop.go:257-263 | After the ready signal every assigned partition delivers and nothing is dropped, unless a reason is active or the call fails: then nothing changes |
| LoopHistory.CapacityResumesAll | internal/pollloop/pollloop.go:412-437 | The same after every history in which broker calls succeed and no assignment arrives while degraded |
| LoopHistory.BackpressureStops | internal/pollloop/pollloop.go:329-347 | A partition that meets backpressure delivers no more, no other is concerned, and a failing call changes nothing |
| LoopHistory.EnteringStopsAll | internal/pollloop/pollloop.go:292-307 | The first reason stops every delivery and clears readiness; a further one is only noted |
| LoopHistory.ExitingResumesAll | internal/pollloop/pollloop.go:311-326 | With the last reason gone every assigned partition delivers again and readiness returns; before that nothing is resumed |
| LoopHistory.DegradedModeStopsAndResumes | internal/pollloop/pollloop.go:211-288 | Whatever the event and if calls succeed: entering degraded mode stops every delivery and clears readiness, leaving it sets all going again |
| LoopHistory.OtherwiseNothingMoves | internal/pollloop/pollloop.go:211-288 | A tick or a notice that neither enters nor leaves degraded mode pauses and resumes nothing |
| LoopHistory.RebalanceDelivers | internal/pollloop/pollloop.go:444-504 | Exactly the granted and held partitions that are not paused deliver; a revoked one is neither assigned nor paused |
| LoopHistory.ForwardedIffNotDropped | internal/pollloop/pollloop.go:153-189 | A polled group is handed to Send, whole, exactly when the loop neither is degraded nor tracks its partition as paused |
| LoopHistory.GrantWhileDegradedDrops | internal/pollloop/pollloop.go:444-452 | An assignment while degraded makes messages be dropped exactly when it names a new partition |
| LoopHistory.NoticeSetsTargetReason | internal/pollloop/pollloop.go:267-288 | A notice changes TargetUnavailable as the breaker's account assumes, and no other reason |
| PollLoop.GroupKeepsPlace | internal/pollloop/pollloop.go:556-562 | Every polled message is in its partition's group, right after the earlier ones of that partition |
| PollLoop.GroupIsPure | internal/pollloop/pollloop.go:556-562 | A group holds only polled messages of its partition |
| PollLoop.GroupByPartition | internal/pollloop/pollloop.go:556-562 | The loop computes exactly those groups |
| PollLoop.PolledPartitions | internal/pollloop/pollloop.go:556-562 | A partition has a group exactly when one of its messages was polled |
| PollLoop.RoundsForOne | internal/pollloop/pollloop.go:184-205 | In whatever order the groups are taken: the group of an unpaused partition joins the end of what the dispatcher holds of it, and the partition is paused exactly if its messages were refused; nothing else changes |
| PollLoop.TurnsInAnyOrder | internal/pollloop/pollloop.go:184-205 | For given answers, the order in which the map yields partitions changes neither what is sent nor what is paused |
| PollLoop.RoundsInAnyOrder | internal/pollloop/pollloop.go:184-205 | With a dispatcher that answers by its own state, in every order exactly the unpaused groups are sent, once each, and exactly the refused ones are paused |
| PollLoop.PollLoop.constructor | internal/pollloop/pollloop.go:93-116 | The loop starts not degraded, with its ready flag set and nothing assigned or paused |
| PollLoop.PollLoop.IsReady | internal/pollloop/health.go:59-63 | The ready flag and the assignment flag together |
| PollLoop.PollLoop.Poll | internal/pollloop/pollloop.go:152-206 | When degraded nothing changes. Otherwise, for every partition: if it has polled messages and is not paused, all of them join the end of what the dispatcher holds of it, in polled order, and it is paused exactly if they were refused and the call works; if not, nothing of it changes |
| PollLoop.PollLoop.SendGroup | internal/pollloop/pollloop.go:185-204 | One turn of that loop: a paused partition is passed over, another has its group appended and is paused if it was refused; nobody else is concerned |
| PollLoop.PollLoop.CommitOffsets | internal/pollloop/pollloop.go:211-252 | What the coordinator reports is stored if the broker takes it; failures are counted up and degrade at the threshold, a success resets and recovers, an empty report changes nothing |
| PollLoop.PollLoop.EnterDegradedMode | internal/pollloop/pollloop.go:292-307 | The reason is added; the first reason also pauses everything assigned and clears readiness |
| PollLoop.PollLoop.ExitDegradedMode | internal/pollloop/pollloop.go:311-326 | The reason is removed; with the last one everything is resumed and readiness returns |
| PollLoop.PollLoop.ResumeAllPartitions | internal/pollloop/pollloop.go:379-408 | Everything assigned is resumed if the call succeeds; the tracked set is emptied even if it fails |
| PollLoop.PollLoop.OnCircuitStateChanged | internal/pollloop/pollloop.go:267-288 | Open and Closed move the TargetUnavailable reason, HalfOpen does nothing |
| PollLoop.PollLoop.OnDispatcherReady | internal/pollloop/pollloop.go:257-263 | Unless degraded, the tracked partitions are resumed and forgotten, or kept when the call fails; what that means for deliveries is ReadyResumesAll |
| PollLoop.PollLoop.PausePartition | internal/pollloop/pollloop.go:329-347 | The partition is paused and tracked once, and not tracked when the call fails |
| PollLoop.PollLoop.OnPartitionsAssigned | internal/pollloop/pollloop.go:444-452 | Count, flag and assignment grow, the dispatcher gets buffers; nothing is paused |
| PollLoop.PollLoop.OnPartitionsRevoked | internal/pollloop/pollloop.go:460-504 | Count, flag, assignment and tracked pauses shrink by the revoked partitions, the dispatcher clears their buffers; for each of them the reported offset, if there is one and the broker takes it, is stored, every other stored offset stays; exactly their records are gone |
| PollLoop.PollLoop.CommitRevoked | internal/pollloop/pollloop.go:477-497 | The report restricted to the revoked partitions, and nothing else, is committed |
| PollLoop.PollLoop.ForgetAll | internal/pollloop/pollloop.go:499-503 | Records and tracked pauses of the revoked partitions are gone, all others stay |
| Degraded.OrAddsReason | internal/pollloop/degraded.go:33-41 | Or-ing a bit adds that reason to the set the mask stands for |
| Degraded.AndNotRemovesReason | internal/pollloop/degraded.go:44-52 | Clearing a bit removes that reason and no other |
| Degraded.NonZeroIffReason | internal/pollloop/degraded.go:55-57 | A mask is nonzero exactly when some reason is active |
| Degraded.DegradedState.Set | internal/pollloop/degraded.go:33-41 | Whatever other goroutines store meanwhile, the reason is added to the value found at the successful swap |
| Degraded.DegradedState.Clear | internal/pollloop/degraded.go:44-52 | Likewise for removing a reason |
| Degraded.DegradedState.IsDegraded | internal/pollloop/degraded.go:55-57 | True exactly when some reason is active |
| Degraded.DegradedState.Includes | internal/pollloop/degraded.go:60-62 | True exactly when the reason is active |
| Locks.StuckOnlyWhenFinished | internal/dispatcher/unordered.go:318-459 | In every reachable state no goroutine can move exactly when all have finished, and then every lock is free |
| Locks.NoWaitChain | internal/dispatcher/unordered.go:251-297 | A goroutine that is waited for never waits itself: no chain and no cycle of waiting |
| Locks.LingerMuIsNeverContended | internal/dispatcher/unordered.go:414-438 | Nobody ever waits for lingerMu |
| Locks.CallsHoldNothing | internal/dispatcher/unordered.go:375-410 | Neither mutex is held while the coordinator or the processor is called, while a channel is sent to or received from, nor while waiting for mu |
| Locks.ChannelClosedUnderMu | internal/dispatcher/unordered.go:294-297 | The batch channel is closed while holding mu and nothing else |
| Locks.RoutinesAreDisciplined | internal/dispatcher/unordered.go:194-459 | Every execution of every routine takes lingerMu only inside mu and the other locks only while holding nothing |
| Locks.EveryScheduleFinishes | internal/dispatcher/unordered.go:318-459 | However the goroutines of a reachable state are scheduled, if no new one starts they get stuck exactly when all have finished, after the same number of steps |

## Left out

- The Kafka adapter, the dead-letter producer and librdkafka: only the contract of poll, pause, resume, assignment and commit appears, and Poll is taken to return messages of partitions held and unpaused at that moment.
- The inside of the circuit breaker (counts, windows, timeouts, generations): only its states and whether it admits a call; while a batch is at a worker it may change state at any moment.
- Metrics, logging, the HTTP health server, configuration checks and the wiring of the components: no delivery logic.
- Real time: linger, open timeout, shutdown timeout and sleeps are steps that may happen at any moment; only backoff durations are computed.
- Multi-topic subscriptions: the code keys its state by partition number alone.
- A bound on buffered messages: `Send` accepts without limit while a batch is in flight, so there is none.
- Partition-ordered and key-ordered dispatch: not implemented in the repository.
- Commits by other members of the group while a partition is assigned elsewhere: the committed offset changes only through this consumer.
- Integer widths: partitions and offsets are unbounded, so one past the largest int64 offset does not wrap.
- The poll loop's select loop and the order of its shutdown steps: closing the dispatcher, reading the coordinator and committing are pipeline steps that may come in any order, so every order the code takes is among the runs.
- Close: the wait for the workers and its deadline are not part of the method; in the pipeline workers go on after Close as they do in the code.
- Delay: float64 rounding is not modelled; the arithmetic is over reals with the final truncation.
- CaughtUndoBreaksConservation: before Close only, since a partition that is never assigned again cannot show the difference; the same holds of the other results of Departures.
- CaughtUndoBreaksTracker: with nothing due for a sweep, a revocation during the undo of a batch that is not full is left out, because what happens then depends on how much is delivered before the batch is cut again.
- CaughtUndoMisreports: for a partition that resumes at or above the last message that comes back, only the tracker is settled; whether the account and the order of reports survive is not stated.
- Polls of several partitions in a schedule: every group counts as a poll of its own, after which a callback may come; `PollLoop.RoundsInAnyOrder` is about one poll of many groups.
- Send: the buffer is a sequence in the dispatcher class; in-place storage, growth and aliasing are in Storage.PartitionBuffer, on one buffer at a time.
- Append: growth takes twice the old capacity plus the new messages, where Go's runtime chooses its own size.
