# worker-harness: verified model

worker-harness is a control plane for GPU workers and fleet agents. This project models its
protocols and proves what they keep over every run:

- **The durable GPU job queue.** `Ordering` says what an ORDER BY returns. `JobTable` is the `jobs`
  table as a value, with each worker's queue as the list of ids a query returns; `JobDb` is the class
  with one method per queue transaction, each tied to a queue operation. `Reservations` is GPU
  exclusivity. `JobManager` is dispatch, launch and crash recovery, and `RecoveryOrder` says when recovery
  restores the claim order. `JobProtocol` interleaves all `JobManager` operations at their await points,
  with arbitrary SSH answers and a cancellation or exception at any await; `JobOutcomes` says what each
  operation comes to, among other coroutines and alone; `RecoveryGuard` says exactly what recovery must
  check, and `OverlappingRecovery` is a concrete schedule that breaks it.
- **`Lanes`**: one worker's bounded FIFO semaphore with direct hand-off, where a timeout or
  cancellation may hit before or after the hand-off.
- **The Pi session mailbox and event log.** `EventLog` is the table with its numbering trigger, its
  pages and its stream; `Replay` is the web client; `PiMailbox` is commands, bridge incarnations and
  the blocked/question state.
- **The fleet.** `Fleet` interleaves manager launch, dispatch, task launch and idle retirement under
  the per-project lock; `Worktree` is the order of remote effects of one task's launch and teardown.
- `Prelude` holds what several modules share.
- **Smaller cores.** `Reports` (revisioned job reports), `RateLimit` (token buckets), `Shim` (argument
  encoding), `Terminal` (input splitting, complete writes).

Where the source mutates an object there is a class whose methods are proved equal to functions on
values; the theorems are about those functions and about all sequences of their application.

## Assumptions

- One `JobManager` per process, as README.md:31 asks. Each `Database` method is one atomic step: the
  queue methods hold the queue lock, the bridge methods the bridge lock.
- Clocks that stamp an acknowledgement are positive; a bridge incarnation is never empty (the request
  model demands at least one character). Generated ids are fresh.
- The service runs one recovery loop at a time. `JobProtocol.RunSafe` covers that; any number of loops is
  covered by `JobProtocol.GuardedRunSafe` under the condition that each recovery read finds its job on
  the worker whose lock it holds, and `RecoveryGuard.GuardIsExact` shows that condition is exact.
- A stopped or failed session gets no further bridge calls, because its token is refused
  (src/worker_harness/heartbeat.py:553-556).
- Claims about a job's life cycle are about SSH jobs. A delegated job may change with each newer
  report, and `Reports` says exactly how.

## What the proofs found

- Overlapping recovery loops can lose an update. `reconcile_starting_job` checks that the stored row
  is starting but not that it still belongs to the worker whose lock is held. That missing check is
  exactly what matters: from any state that satisfies the invariant, updates stay safe after a recovery
  read if and only if the check would have passed (`RecoveryGuard.GuardIsExact`), and two overlapping
  loops really lose one from the empty service (`OverlappingRecovery.OverlapRunLosesUpdate`).
- Recovery does not always restore FIFO. An edit or cancellation renumbers the queue from 1, so a claim
  in the same second as the one before it may carry a smaller key: `RecoveryOrder.SameSecondEditCrosses`
  is such a run, where job 9 was claimed before job 4 and recovery puts 4 first. Over any spell of
  queue operations the claim order comes back if and only if no claim crosses, a condition that can be
  read off the table before the claim (`RecoveryOrder.RecoveryKeepsClaimOrder`). One dispatch with a
  clock that does not run backwards is always undone exactly (`RecoveryOrder.DispatchThenRecover`).
- A manager relaunch that is cut short strands exactly the tasks of the earlier managers it has not
  reached (`Fleet.StrandedExactly`), and later dispatches keep the new manager without reparenting:
  `Fleet.InterruptedRelaunchStrandsTask` is such a run. Over every run a stranded task keeps
  its old parent until a later relaunch of the project reaches that parent (`Fleet.ParentUntilReached`),
  and none begins while the manager lives (`Fleet.StrandedWhileManagerLives`).
- "Every remote error leaves the row failed" holds for launch. In teardown it holds only for a shim
  refusal of the worktree removal; a stuck pane or a transport error leaves the row as it was
  (`Worktree.RemoteErrorInTeardown`, and `Worktree.TransportErrorKeepsRow` at an input). The refusal on a
  stuck pane is intended; a transport error during removal is not caught by the handler at
  src/worker_harness/orchestration.py:660.
- The retry time after a denial is exact if and only if the amount asked for fits the capacity
  (`RateLimit.RetryIsExact`).
- The shim decodes every argument but not the verb, so a command survives exactly if its verb needed
  no encoding (`Shim.VerbMustBeLiteral`).

## Model

| member | source | states |
|---|---|---|
| JobTable.QueuesDisjoint | src/worker_harness/db.py:1043-1069 | no id is in two workers' queues |
| JobTable.InsertAppends | src/worker_harness/db.py:1013-1041 | inserting appends to that worker's queue, leaves every other queue alone and keeps positions distinct and at least 1 |
| JobTable.ClaimPops | src/worker_harness/db.py:1071-1116 | a claim succeeds only for the head, removes it, and leaves every other queue alone |
| JobTable.RenumberReorders | src/worker_harness/db.py:1203-1211 | renumbering a permutation of a queue makes the queue that permutation and touches no other |
| JobTable.UpdateMoves | src/worker_harness/db.py:1118-1216 | an edit removes the id from its queue and puts it into the destination's; every other queue keeps its order without the id |
| JobTable.EditLands | src/worker_harness/db.py:1151-1185 | for a position p of at least 1 the edited job stands at index min(p - 1, number of other jobs) of its destination, a smaller one counts from the end; without a position it keeps its index, or stands last on another worker; the other jobs keep their order |
| JobTable.EditNumbers | src/worker_harness/db.py:1203-1211 | after an edit the rows of both queues are numbered 1, 2, ... in queue order |
| JobTable.UpdateWellOrdered | src/worker_harness/db.py:1118-1216 | an edit keeps positions distinct and at least 1 on every worker |
| JobTable.UpdateInPlace | src/worker_harness/db.py:1156-1170 | an edit without worker and position leaves every queue as it was |
| JobTable.FailRemoves | src/worker_harness/db.py:1218-1254 | cancelling removes exactly that id from the queues, in order, and renumbers from 1 |
| JobTable.ReconcileQueue | src/worker_harness/db.py:1268-1313 | a launch that was not seen goes to the front of its queue; a seen one changes no queue |
| JobTable.WriteBackQueue | src/worker_harness/db.py:967-984 | a full-row write of a job outside the queues changes no queue |
| JobDb.Database.InsertQueuedJob | src/worker_harness/db.py:1013-1041 | refines append: the new row waits, holds nothing and comes after every live job; a used id is refused and changes nothing |
| JobDb.Database.ClaimQueuedJob | src/worker_harness/db.py:1071-1116 | takes exactly the head of the queue, for as many GPUs as it asked for, none of which another active job of the worker holds; otherwise nothing changes |
| JobDb.Database.EnumerateOrders | src/worker_harness/db.py:1204-1211 | the renumbering loop |
| JobDb.Database.UpdatePendingJob | src/worker_harness/db.py:1118-1216 | each refusal exactly when the source refuses, in its order and without effect; otherwise every asked column changes, no other does, and the job stands where it was asked to among the other jobs of its worker |
| JobDb.Database.FailPendingJob | src/worker_harness/db.py:1218-1254 | the job fails with exit code -1, leaves its queue, and the rest move up; none exactly when the job is not pending in a queue |
| JobDb.Database.RunningQueueGpuIndices | src/worker_harness/db.py:1256-1266 | a GPU is in the result exactly if a starting or running queue job of the worker holds it, and no claim with one of them can succeed |
| JobDb.Database.ReconcileStartingJob | src/worker_harness/db.py:1268-1313 | exactly for starting jobs: seen, it runs; not seen, it waits first in its queue and holds nothing, or fails with exit code -1 if no queue owns it |
| JobDb.Database.UpdateJob | src/worker_harness/db.py:967-984 | overwrites every column of one row |
| Reservations.ClaimKeepsExclusive | src/worker_harness/db.py:1090-1095 | a claim keeps active jobs' GPU lists duplicate-free, of the asked length and pairwise disjoint |
| Reservations.UpdateKeepsExclusive | src/worker_harness/db.py:1118-1216 | edits and moves keep reservations exclusive |
| Reservations.ReconcileKeepsExclusive | src/worker_harness/db.py:1268-1313 | recovery keeps reservations exclusive and frees a requeued job's GPUs |
| Reservations.ReservationsFit | src/worker_harness/job.py:132-156 | by pigeonhole, disjoint reservations below a bound ask for at most that many GPUs in all |
| JobManager.PlanTakesPrefix | src/worker_harness/job.py:138-155 | what a dispatch launches is a prefix of the queue |
| JobManager.PlanIsLongestFit | src/worker_harness/job.py:138-145 | and the longest prefix whose jobs all fit in turn, where a definite failure gives its GPUs back: nothing passes the head |
| JobManager.PlanStep | src/worker_harness/job.py:139-155 | one turn of the loop: the claim succeeds and the rest of the plan is the plan of the new table |
| JobManager.FreeGpuIndices | src/worker_harness/job.py:111-127 | strictly increasing, and exactly the GPUs of an online worker that are flagged idle or, without a flag, use at most 0.5 GB or a tenth of their memory |
| JobManager.FirstPending | src/worker_harness/job.py:141-142 | the first pending entry of the listing is the queue's head |
| JobManager.Manager.LaunchJob | src/worker_harness/job.py:77-109 | running exactly for exit status 0, the starting row unchanged exactly for a negative status or 255, failed with exit code -1 for every other; queues are untouched |
| JobManager.Manager.ClaimAndLaunch | src/worker_harness/job.py:146-155 | one claim and its launch |
| JobManager.Manager.DispatchWorker | src/worker_harness/job.py:132-156 | terminates, launches exactly the planned prefix, and stops only at an empty queue or a head that does not fit; each launched job has the row its own exit status gives, no other row changes, and exactly the GPUs of launches that started or may have started are taken |
| JobManager.PlanGpus | src/worker_harness/job.py:138-145 | each launch gets the lowest GPUs that were free and that no earlier launch keeps |
| JobManager.DispatchLeaves | src/worker_harness/job.py:132-156 | every row and the taken GPUs after the planned launches, by each job's own exit status |
| JobManager.LostAscending | src/worker_harness/heartbeat.py:257-260 | the lost jobs keep the sort order of the starting jobs |
| JobManager.Manager.ReconcileStartingJob | src/worker_harness/job.py:158-170 | settles a job only if it is still starting and the probe answered |
| JobManager.Manager.RecoverQueues | src/worker_harness/heartbeat.py:245-264 | each queue becomes its absent jobs in ascending key order followed by the old queue; every starting SSH job of an online worker gets what its probe says, and every other row keeps all but its position |
| RecoveryOrder.RecoveryKeepsClaimOrder | src/worker_harness/heartbeat.py:252-264 | after any spell of claims, enqueues, edits and cancellations on any workers, recovery restores the lost claims of a worker in claim order if and only if no claim fell into the second of the previous one, after an edit, at a position not behind it |
| RecoveryOrder.OnlyEditsCross | src/worker_harness/heartbeat.py:257-258 | without an edit or cancellation no claim crosses, so claim order is always restored |
| RecoveryOrder.HeadAfterEdit | src/worker_harness/db.py:1208-1211 | an edit puts the next head of its queue at position 1 |
| RecoveryOrder.SameSecondEditCrosses | src/worker_harness/db.py:1208-1211 | a run of two claims in one second with an edit between them whose claim order recovery reverses |
| RecoveryOrder.DispatchThenRecover | src/worker_harness/heartbeat.py:245-264 | a dispatch that loses every launch, then recovery that finds none of them, gives back the old queue behind the jobs lost earlier |
| JobProtocol.StepKeeps | src/worker_harness/job.py:29-259 | every event of every coroutine, cancellations and exceptions at an await included, keeps the invariant and moves SSH jobs only along their life cycle |
| JobProtocol.NoLostUpdate | src/worker_harness/db.py:967-984 | in every run each pending full-row write of an SSH job is over exactly the row its writer read |
| JobProtocol.OneRecoveryGuards | src/worker_harness/heartbeat.py:252-264 | with one recovery loop, each recovery read finds its job on the worker whose lock is held |
| JobProtocol.RunSafe | src/worker_harness/job.py:29-259 | every reachable state has distinct queue positions, exclusive reservations and current snapshots |
| JobProtocol.GuardedRunSafe | src/worker_harness/job.py:158-170 | so does every run with overlapping recovery loops whose reads are guarded |
| JobProtocol.SafeStep | src/worker_harness/job.py:29-259 | each event is a legal life-cycle move of every SSH job |
| JobOutcomes.ExitCodesTell | src/worker_harness/job.py:248-251 | in every run, with any number of recovery loops, an SSH job is done only with exit code 0 and failed only with another one |
| JobOutcomes.ExitCodeDecides | src/worker_harness/job.py:240-251 | a refresh that reads exit code c stores done if c is 0 and failed otherwise, whatever other coroutines do before the write |
| JobOutcomes.StartAlone | src/worker_harness/job.py:29-48 | a start without interference leaves one unqueued job that is running, failed or still starting as the exit status says |
| JobOutcomes.StopAlone | src/worker_harness/job.py:172-217 | a stop without interference does nothing to a finished job or one of another worker, takes a waiting one out of its queue, and fails any other live one with exit code -1 exactly if the kill worked |
| JobOutcomes.RefreshAlone | src/worker_harness/job.py:219-251 | a refresh without interference settles exactly a running job of the worker whose exit code is known |
| JobOutcomes.DispatchAlone | src/worker_harness/job.py:132-156 | a dispatch without interference leaves the table that `JobManager.Manager.DispatchWorker` leaves |
| JobOutcomes.RecoveryAlone | src/worker_harness/heartbeat.py:245-264 | a recovery without interference leaves what `JobManager.Manager.RecoverQueues` leaves |
| JobOutcomes.EditsMean | src/worker_harness/db.py:1118-1216 | an edit between other events puts the job where it was asked to stand and takes it out of its old queue |
| JobOutcomes.InterruptionsMean | src/worker_harness/job.py:146-156 | a lost claim tries the queue again; an abort gives up the lock and changes no row; a failing visit lets recovery go on |
| JobProtocol.FinishedForever | src/worker_harness/job.py:172-259 | no interleaving changes any column of a done or failed SSH job |
| JobProtocol.RunFitsGpus | src/worker_harness/job.py:132-156 | at every point of every run a worker's active jobs hold disjoint GPUs and ask for no more than it has |
| RecoveryGuard.UnguardedLoses | src/worker_harness/job.py:158-170 | every recovery read of a job that starts on another worker has a continuation, with guarded reads only, in which a write overwrites a newer status |
| RecoveryGuard.GuardIsExact | src/worker_harness/job.py:158-170 | after any event of any invariant state updates stay safe for as long as later recovery reads are guarded if and only if the event was guarded |
| JobProtocol.UnguardedReadLosesUpdate | src/worker_harness/job.py:158-170 | the case of a job just being launched: recovery requeues it, and the launch writes RUNNING over PENDING |
| OverlappingRecovery.OverlapLosesUpdate | src/worker_harness/heartbeat.py:245-264 | two overlapping recovery loops reach such a read from the empty service |
| OverlappingRecovery.OverlapRunLosesUpdate | src/worker_harness/heartbeat.py:245-264 | and a schedule from the empty service ends in a state that loses an update |
| Lanes.WorkerLane.EnterSection | src/worker_harness/lanes.py:130-142 | the first critical section |
| Lanes.WorkerLane.ReleaseLocked | src/worker_harness/lanes.py:84-97 | hands the slot to the first waiter that is not done, or frees it |
| Lanes.WorkerLane.AbandonWaiter | src/worker_harness/lanes.py:99-115 | a waiter that was already handed a slot passes it on; the answer says so |
| Lanes.WorkerLane.Shutdown | src/worker_harness/lanes.py:200-209 | empties the queue and cancels exactly the pending waiters in it |
| Lanes.StepKeeps | src/worker_harness/lanes.py:117-167 | every event keeps slot conservation, the pending queue and FIFO order |
| Lanes.ReleaseSkips | src/worker_harness/lanes.py:84-97 | in any lane a release passes over every waiter that is done and serves the first other one |
| Lanes.GiveUpExactly | src/worker_harness/lanes.py:99-115 | giving up in the queue cancels the future and closes the gap; giving up after the hand-off passes the slot on |
| Lanes.StepExactly | src/worker_harness/lanes.py:117-209 | the exact lane after an arrival, a wake-up, a leave and a shutdown in every state of the invariant |
| Lanes.LaneConserves | src/worker_harness/lanes.py:84-167 | in every reachable state available plus in use is the maximum, in use counts holders and hand-offs under way, the queue is bounded and pending, a non-empty queue means no free slot, and hand-offs then queue are the arrivals that did not leave |
| Lanes.NewcomerNeverBarges | src/worker_harness/lanes.py:131-140 | a newcomer is admitted exactly when fewer than the maximum are owned, and refused exactly when all are and the queue is full |
| Lanes.BoundedOvertaking | src/worker_harness/lanes.py:84-142 | a waiter at index p that stays has its slot by the (p+1)-th release, whatever arrives meanwhile |
| EventLog.AppendKeepsGapless | src/worker_harness/db.py:302-311 | every session's sequence stays 1 to n in insertion order, and a repeated event id changes nothing |
| EventLog.PageIsSlice | src/worker_harness/db.py:892-907 | a page is the stretch of the session's log just above the cursor |
| EventLog.PageHolds | src/worker_harness/db.py:892-907 | a page holds as many rows as asked for, but at least one and at most a thousand, as far as the log goes; a negative cursor reads from the start |
| EventLog.Stream | src/worker_harness/heartbeat.py:350-371 | the stream sends exactly the rows above its start, in order, one page at each poll as far as they are there, whatever is appended while it runs |
| EventLog.QuietReach | src/worker_harness/heartbeat.py:350-371 | once the log has stopped growing each poll gains a whole page until nothing is left |
| Replay.Client.Apply | web/app.js:603-683 | one event on the client's fields |
| Replay.Client.ReplayEvents | web/app.js:569-577 | catch-up finishes at the first page that is not full and then shows exactly the fold of the log as of that page; every page before it advances the cursor by a whole page |
| Replay.Client.OnStream | web/app.js:585-591 | a repeated event is ignored |
| Replay.Client.Connection | src/worker_harness/heartbeat.py:1421-1438 | a connection that starts at or before the cursor delivers exactly what the stream sends, up to where it breaks, and leaves the client showing exactly the prefix that ends at the furthest event it has had |
| Replay.Client.Watch | web/app.js:579-596 | any series of connections, with any overlap and any breaks, leaves the client showing exactly the prefix that ends at the furthest event that arrived |
| Replay.Client.Tail | web/app.js:579-596 | an unbroken connection that polls often enough after the log stopped growing ends with the client showing the fold of the whole log |
| Replay.TimelineByFirstMention | web/app.js:603-617 | the timeline has each item once, exactly the items the log mentions, ordered by first mention |
| Replay.ChunksAreDeltas | web/app.js:626-631 | the text of each content block is the concatenation of its deltas in log order |
| Replay.CompletedIsFinal | web/app.js:632-645 | a message is done exactly if the log has its end, and shows the last end's content |
| Replay.ToolShowsLast | web/app.js:664-678 | a tool call is shown exactly if the log mentions it, is done exactly if its last event is an end, and keeps the name and time of its first |
| Replay.MessageShows | web/app.js:603-645 | the role and time a message shows are those its first event and its last ends give |
| Replay.ControlsShowLast | web/app.js:646-663 | the last settings are shown, and the last control error unless settings came after it |
| Replay.LifecycleShown | web/app.js:679-683 | every other event is shown once, as it came |
| PiMailbox.PiStore.RegisterBridge | src/worker_harness/db.py:621-704 | one registration, with its snapshot loop; `PiMailbox.RegisterMeans` and `PiMailbox.SnapshotIsStored` say what it leaves |
| PiMailbox.RegisterMeans | src/worker_harness/db.py:621-674 | the session belongs to the new incarnation, blocked if it was and idle otherwise; exactly the undelivered commands another incarnation had claimed are free again |
| PiMailbox.SnapshotIsStored | src/worker_harness/db.py:676-700 | every identified message of the snapshot is captured afterwards, unless its event id was used; only such events are added, and none that was captured |
| PiMailbox.PiStore.ApplyEvents | src/worker_harness/db.py:706-763 | one event batch; `PiMailbox.BatchMeans` and `PiMailbox.AcceptedBatch` say what it leaves |
| PiMailbox.AcceptedBatch | src/worker_harness/db.py:718-735 | after an accepted batch every event id of it is in the log; its session's rows are the old ones followed by the new events, once each, in batch order, under the next numbers; no other session's rows change |
| PiMailbox.BatchMeans | src/worker_harness/db.py:706-763 | accepted exactly from the live incarnation, else without effect; how state, question, pending flag and heartbeat follow from the batch |
| PiMailbox.PiStore.EnqueueCommand | src/worker_harness/db.py:765-782 | one more undelivered, unclaimed command |
| PiMailbox.EnqueueMeans | src/worker_harness/db.py:765-782 | a used id is refused; otherwise one unclaimed command is added and the session has pending messages |
| PiMailbox.PiStore.ClaimCommands | src/worker_harness/db.py:792-815 | leases and lists the commands the active incarnation holds |
| PiMailbox.ClaimMeans | src/worker_harness/db.py:792-811 | leases exactly the undelivered commands that nobody holds, the caller holds, or whose lease is over |
| PiMailbox.ClaimInOrder | src/worker_harness/db.py:811-815 | returns exactly the commands then held, by creation time and then insertion |
| PiMailbox.PiStore.AckCommand | src/worker_harness/db.py:817-849 | first acknowledgements only, and the answer to a blocked prompt |
| PiMailbox.AckMeans | src/worker_harness/db.py:817-849 | delivers exactly the command of that id the caller holds; the first acknowledgement of a prompt answers a block |
| PiMailbox.PiStore.SetBlocked | src/worker_harness/db.py:592-609 | blocks a session that is not over |
| PiMailbox.PiStore.FinishSession | src/worker_harness/db.py:579-590 | ends a session and clears question, token and incarnation |
| PiMailbox.SessionCallsMean | src/worker_harness/db.py:579-609 | which sessions blocking, finishing and inserting accept and the exact session they leave |
| PiMailbox.PiStore.SweepStale | src/worker_harness/db.py:851-882 | stops exactly the expired sessions |
| PiMailbox.SweepMeans | src/worker_harness/db.py:851-877 | stops exactly the bridge-backed sessions that are not over and were last seen before the cutoff |
| PiMailbox.SweepNotes | src/worker_harness/db.py:877-881 | the log of each swept session gains exactly one note, and no other log changes |
| PiMailbox.PiStore.RecordEvent | src/worker_harness/db.py:884-889 | one more event, unless its id is known |
| PiMailbox.RecordMeans | src/worker_harness/db.py:884-889 | the event is stored once, under its session's next number |
| PiMailbox.StepKeeps | src/worker_harness/db.py:579-889 | every call keeps the mailbox invariant |
| PiMailbox.AcknowledgedOnce | src/worker_harness/db.py:817-849 | over any run each command is acknowledged at most once, delivered means acknowledged, and only after it was handed to its acknowledger |
| PiMailbox.AckedByHolder | src/worker_harness/db.py:823-849 | an acknowledgement succeeds exactly for the live incarnation that holds a not yet acknowledged command |
| PiMailbox.ClaimReturnsBacklog | src/worker_harness/db.py:669-675 | each claim of the live incarnation returns the whole unacknowledged backlog in (created_at, rowid) order |
| PiMailbox.QuestionMeansBlocked | src/worker_harness/db.py:592-609 | in every reachable session a question implies the blocked state |
| PiMailbox.BlockedUntil | src/worker_harness/db.py:732-761 | a blocked session leaves that state exactly by a first acknowledgement of a claimed prompt, a terminal batch, finish or expiry |
| PiMailbox.SnapshotIdempotent | src/worker_harness/db.py:676-700 | registering again with the same snapshot captures nothing twice |
| PiMailbox.PollsGrow | src/worker_harness/db.py:302-311 | at any later points of any run a session's log is gap-free and only longer |
| Fleet.StepKeeps | src/worker_harness/orchestration.py:236-324 | every event keeps one live manager per project, tasks under managers of their project, and what each lock holder relies on |
| Fleet.OneManagerPerProject | src/worker_harness/orchestration.py:247-279 | over every interleaving a project never has two live managers |
| Fleet.DispatchExactly | src/worker_harness/orchestration.py:247-259 | a dispatch takes the first live manager listed, waits for it if it is starting, and launches exactly if there is none |
| Fleet.TaskLaunchExactly | src/worker_harness/orchestration.py:281-324 | a task is inserted under the manager asked for exactly if that is a live manager of the project |
| Fleet.RetiresOnlyChildless | src/worker_harness/orchestration.py:705-750 | when poll retires a manager, no live task is its child |
| Fleet.RetireExactly | src/worker_harness/orchestration.py:728-750 | poll stops a manager if and only if it is idle, has no pending message, has been idle for long, and has no live task; otherwise it changes no session |
| Fleet.RetiresOnlyIdle | src/worker_harness/orchestration.py:728-750 | over every run a manager is stopped by poll only after a recheck under the lock found it so |
| Fleet.RelaunchTakesAllTasks | src/worker_harness/orchestration.py:267-279 | after a completed relaunch every task of the project is under the new manager |
| Fleet.RelaunchCompletes | src/worker_harness/orchestration.py:277-279 | a relaunch left to run moves exactly the project's tasks under earlier managers, and comes to the dispatch |
| Fleet.StrandedExactly | src/worker_harness/orchestration.py:267-279 | at any point of a relaunch in any run the tasks of the project are all under the new manager if and only if no task still has its parent among the earlier managers not yet reached, and leaving there changes no session |
| Fleet.ParentChanges | src/worker_harness/db.py:569-577 | in every state of the invariant a task changes its parent exactly when a relaunch of its project reaches that parent, and then to the new manager |
| Fleet.ParentUntilReached | src/worker_harness/orchestration.py:267-279 | over every run a task keeps its parent until a relaunch of its project reaches that parent |
| Fleet.StrandedWhileManagerLives | src/worker_harness/orchestration.py:247-279 | over every run, once no relaunch of a project is under way, its tasks keep their parents for as long as its live manager lives, whatever is dispatched meanwhile |
| Fleet.InterruptedRelaunchStrandsTask | src/worker_harness/orchestration.py:253-279 | a run in which an interrupted relaunch leaves a live task under an older manager |
| Worktree.Checkout.CreateWorktree | src/worker_harness/orchestration.py:84-112 | at most five names, in order, passing over one only on a shim error |
| Worktree.Checkout.DestroyWorktree | src/worker_harness/orchestration.py:115-129 | the removal is tried first and ends it if it fails; then the branch deletion is tried, and a shim error of that is only logged |
| Worktree.Checkout.CloseAfterFailedLaunch | src/worker_harness/orchestration.py:820-830 | tries to close the pane if there is one, then to remove the cached file, and nothing else; remote errors are swallowed, a cancellation or any other error ends it and is passed on |
| Worktree.Checkout.WaitForBridge | src/worker_harness/orchestration.py:566-607 | a timeout leaves the row failed with its token cleared |
| Worktree.Checkout.Prepare | src/worker_harness/orchestration.py:369-469 | it makes every setup call in order, or some call did not succeed; then, unless an error escapes while the prompt is read, the row is failed and the checkout cleaned up |
| Worktree.Checkout.Launch | src/worker_harness/orchestration.py:326-515 | a checkout whose agent may have run is never destroyed; it succeeds exactly if the bridge registered, after every call in order; it raises only after a failed call or a wait in vain, and then leaves an inserted row failed with its token cleared and tries to close its pane, unless an error escapes while the prompt or the failed pane is read |
| Worktree.MadeExactly | src/worker_harness/orchestration.py:369-515 | the calls of a successful launch, one by one |
| Worktree.Checkout.Teardown | src/worker_harness/orchestration.py:625-673 | for any task row it walks the protocol as far as its outcomes allow; refused without a PR or force; the row is settled exactly as `AfterTeardown` says |
| Worktree.TeardownExactly | src/worker_harness/orchestration.py:625-673 | which calls a teardown makes after which outcomes, when it is complete, and what it leaves in the row |
| Worktree.RemoteErrorInTeardown | src/worker_harness/orchestration.py:633-662 | a remote error that ends a teardown leaves the row failed if and only if it is a shim error of the removal; otherwise the row is as it was |
| Worktree.TransportErrorKeepsRow | src/worker_harness/orchestration.py:633-662 | a teardown whose removal meets a transport error and whose row stays as it was |
| Worktree.SafeAppend | src/worker_harness/orchestration.py:633-662 | a teardown removes the checkout only after its own approval and a successful pane close |
| Worktree.Checkout.LaunchThenTeardowns | src/worker_harness/orchestration.py:464-662 | over one launch and any teardowns, once the agent may have run the checkout goes only by an approved teardown that closed the pane; the calls made are the launch's followed by what each teardown request adds, and the row is settled teardown by teardown |
| Reports.ReportStore.UpsertReported | src/worker_harness/db.py:1325-1380 | one report: each identity error exactly when the source raises it and without effect, otherwise a first report, a newer one, or nothing is stored |
| Reports.ReportStore.Batch | src/worker_harness/heartbeat.py:331-347 | a batch stores its reports up to the first refused one, is refused exactly if there is one, and counts the reports that changed a row |
| Reports.ChangedIffNewer | src/worker_harness/db.py:1339-1370 | `changed` is true exactly on a strict increase, an answer is never older than its report, and no identity ever changes |
| Reports.HoldsLatest | src/worker_harness/db.py:1325-1380 | after any deliveries a row holds the greatest revision delivered for it and the content of that revision's first delivery |
| Reports.Converge | src/worker_harness/db.py:1325-1331 | the same reports in any order, with any repetition, give the same row |
| RateLimit.TokenBucket.Consume | src/worker_harness/ratelimit.py:48-70 | granted if and only if the refilled level, at most the capacity, covers the amount, which is then taken off; a denial names the time the rest takes to flow in |
| RateLimit.TokensStayInRange | src/worker_harness/ratelimit.py:57-64 | tokens stay between zero and the capacity over any calls |
| RateLimit.WindowBound | src/worker_harness/ratelimit.py:48-70 | in any window of any run at most the capacity plus the inflow is granted |
| RateLimit.GrantsExactlyConforming | src/worker_harness/ratelimit.py:48-70 | timely calls are all granted if and only if no window of them asks for more than the capacity and its inflow, and no prefix for more than the bucket held and its inflow |
| RateLimit.SmallRunsGranted | src/worker_harness/ratelimit.py:57-66 | calls that together ask for no more than the bucket holds are all granted |
| RateLimit.RetryIsExact | src/worker_harness/ratelimit.py:67-70 | polls before the named time are denied, and the first at or after it succeeds if and only if the amount fits the capacity |
| RateLimit.AgentRateLimiter.CheckAgent | src/worker_harness/ratelimit.py:98-121 | touches only that agent's bucket, created full on its first request |
| RateLimit.OneTokenEach | src/worker_harness/ratelimit.py:98-121 | each request takes one token; a first request finds a full bucket |
| RateLimit.AgentsAreIndependent | src/worker_harness/ratelimit.py:81-113 | however requests interleave, each agent's bucket is the one its own calls alone would give |
| Shim.Base64RoundTrip | src/worker_harness/herdr_host.py:69 | decoding undoes encoding on all byte strings |
| Shim.GroupsByValue | src/worker_harness/herdr_host.py:69 | each group of three bytes and its four digits are the same number, as section 4 of RFC 4648 asks |
| Shim.TokensAreWords | src/worker_harness/herdr_host.py:63-69 | each token is non-empty and has no whitespace |
| Shim.SentAsIs | src/worker_harness/herdr_host.py:63-69 | an argument is refused exactly for a NUL and sent as it is exactly if the literal pattern admits it |
| Shim.AcceptsCanonicalOnly | scripts/wh-remote-shim:70-90 | the shim accepts a b64 token exactly if it is the canonical encoding of a NUL-free argument |
| Shim.DecodeArgs | scripts/wh-remote-shim:70-90 | the decoding loop, refusing on the first bad token |
| Shim.EncodingInjective | src/worker_harness/herdr_host.py:63-69 | different arguments have different tokens |
| Shim.CommandRoundTrip | src/worker_harness/herdr_host.py:82 | splitting the joined command and decoding each token gives back the arguments |
| Shim.VerbMustBeLiteral | scripts/wh-remote-shim:98-104 | a command arrives as sent if and only if its verb is literal |
| Terminal.FirstOf | src/worker_harness/pi_terminal.py:144-154 | the first control byte of a chunk and its direction |
| Terminal.SendInput | src/worker_harness/pi_terminal.py:142-159 | what is sent and returned depends on the typed bytes alone, not on the chunks: everything before the first of 0x1d, 0x1e, 0x1f, of which 0x1e goes on and 0x1f goes back |
| Terminal.WriteAll | src/worker_harness/pi_terminal.py:195-203 | for every schedule of partial writes it raises if and only if some write makes no progress while bytes are left; otherwise it emits exactly the data |

## Left out

- SQLite and aiosqlite: tables are maps and sequences, a transaction is one step; rollback on a shared
  connection across coroutines, schema creation and migrations are not modelled.
- SSH, tmux, HTTP routes, authorization tables, tunnels and websockets: arbitrary answers take their
  place.
- Columns that no modelled statement reads (command, tmux session, labels, detail, updated_at and the
  like). Idle time in `Fleet` is therefore an arbitrary answer of the recheck.
- Claim followed by reading the claimed row back is taken as one step.
- Ids of jobs, workers and sessions are opaque numbers or strings; only their equality and order matter.
- Deleting or pruning workers: pruning touches no job, and worker deletion has no caller.
- Logs, failure records, metrics, the cache and the telemetry that decides GPU availability: `Worker`
  carries the telemetry as given.
- Floating point: VRAM thresholds and token buckets are over reals, without rounding.
- JobProtocol.RunSafe: assumes one recovery loop, because with overlapping loops the claim is false;
  `RecoveryGuard.GuardIsExact` gives the exact condition for them.
- Lanes.BoundedOvertaking: speaks of one lane state up to shutdown. Shutdown drops the registry entry, so
  a later caller gets a fresh lane while old holders still finish on the old one.
- Lanes: the wait and timeout clock, and the counters of acquisitions and timeouts.
- Replay.Client.Apply: message ids are taken not to begin with `tool:` or `event:`, so the three kinds of
  timeline keys never collide; payloads of the wrong shape and the DOM are not modelled.
- PiMailbox: that `has_pending_messages` covers every undelivered command; registration overwrites the
  flag, so that holds only between registrations.
- PiMailbox: that a terminal session stays terminal in the database; registration and event batches can
  revive a row, and only the token gate prevents it.
- Fleet: the orchestrator session, which has no project and no children.
- RecoveryOrder.RecoveryKeepsClaimOrder: the spell begins with no claim of the worker outstanding and holds
  no other recovery, stop or refresh of its claimed jobs.
- Worktree.Checkout.Launch: only the task role; a session that ends itself during the wait may keep its
  token, since only its bridge reported the end; a second cancellation inside a handler is not modelled, and
  database writes always succeed. An exception outside the handled ones while the prompt or the
  failed pane is read escapes without marking the row, as in the source, and the contract excepts it.
- Shim: arguments are their UTF-8 bytes; strings that have no UTF-8 encoding are not modelled.
- Terminal: resizing and the receiving loop around the complete writes.
- The herdr revive-and-retry loop and transcript tailing: one remote call with an arbitrary outcome here.
- The web client's global view, which keeps a cursor per session beside the session view modelled here.
- The marimo, port-forward and gateway-attachment code: bookkeeping without properties of this kind.
