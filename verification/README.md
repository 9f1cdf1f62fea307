# Taskrunner: the broker, the scheduler protocol around it, and its mirrors

A Dafny model of the scheduler's in-memory broker (`InMemoryTaskQueue`) and of what is built on it:
the engine's handlers, the workers' reservation slots, the task table of the store, the event bus and
the message codec. `dafny verify dfyconfig.toml` checks it.

The project has four layers.

1. **The broker in its own form.** `TaskQueue.dfy` is the class with the ready heaps, the delayed
   heap, the task table, the in-flight, dead-letter and cancelled tables and the sequence number;
   envelopes are objects shared by the tables. `Heap.dfy`, `EntryHeaps.dfy` and `ReadyHeaps.dfy` are
   heapq (sift loops on a sequence) and what the broker does with its heaps. Every public method is
   proved against the function of the same name in `BrokerModel.dfy`, where the broker is a value; the
   class keeps a ghost field `model` with that value, and `Valid` says that heaps are heaps, that the
   tables hold the same objects, and that all of them say what `model` says.
2. **Runs of the broker.** `BrokerRuns.dfy` takes the operations apart into seven kinds of event
   (submit, promote, scan, dispatch, complete, retry, cancel) and keeps the history the claims speak
   of: every push with its due time, what was released, lost, dropped and dispatched, and how often a
   terminal task came back to life. `RunInvariants.dfy`, `Discipline.dfy` and `Pacing.dfy` prove what
   all runs, disciplined runs, and disciplined runs under a nondecreasing clock keep.
   `Operations.dfy` proves that each operation is a sequence of events, and `OperationRuns.dfy` and it
   carry the results over to sequences of method calls. `BrokerLaws.dfy`, `BrokerOutcomes.dfy` and
   `OpEffects.dfy` say what single operations achieve and leave alone, field by field.
3. **The cluster.** `Cluster.dfy` is the state machine of broker, engine, store and worker slots.
   A handler's part between two awaits is one step of the event loop, and the upserts that end it are
   drained before the loop does anything else; reservations and the reaper's sweep run in threads and
   may fall between a handler's broker call and its upsert. `ClusterRuns.dfy` and `ClusterMirror.dfy`
   prove the lease bound, the dependency order and the store mirror over all its runs;
   `ClusterBatches.dfy` says exactly which batches keep the mirror, `SteadyRuns.dfy` when the runs are
   disciplined, and `ClusterTiming.dfy` carries due times, backoff and cancellation over; `Reports.dfy` and
   `ClusterOutcomes.dfy` say what reports and leases come to. `Engine.dfy` has the handlers as methods over the queue and
   the store, `EngineSteps.dfy` proves that they are runs of the machine's steps, and `Worker.dfy` has
   the consume loops' bookkeeping.
4. **Side models.** `Store.dfy` (the task table as a map), `EventBus.dfy`, `Codec.dfy`.

Conventions. Clock readings are parameters, one per call of `time()`, as reals; a nondecreasing clock
is assumed only where a statement says so. The order in which a set or a dictionary is walked is a
parameter that no specification mentions, so results do not depend on it. Task ids are fresh on
submission, as `uuid4` makes them. A run is *disciplined* when every completion and every retry hits a
task that is in flight at that moment. A run of the cluster is *steady* when the reaper finds no expired
lease of a task that a slot is still executing, and only executing slots report, only tasks that no slot
executes are cancelled, and only tasks in flight that no slot executes (their slot died) are retried by
hand. Sweeps, dying slots and the recovery of their tasks are part of steady runs.

Where the code does less than its interface suggests, the code was followed. `Findings.dfy` has the
runs: a failure reported after the lease expired queues the task twice; a success reported then leaves
an entry that is handed out again; a report overwrites a cancellation; a refused batch leaves rows
missing in the store. `BrokerLaws.dfy` has the exact conditions under which a report is harmless, and
`ClusterBatches.dfy` the exact condition on a batch: it fits, or it finds no room at all. The command line describes `retry` as retrying
failed or dead-lettered tasks (`taskrunner/cli/main.py:97`); the broker dead-letters such a task
again (`BrokerLaws.SpentStaysSpent`). A worker's `_failed` counter goes by the error text of a result,
not by its status (`Worker.WorkerRuntime.Finish`).

## Model

| member | source | states |
|---|---|---|
| RunInvariants.DispatchBudget | taskrunner/queue/broker.py:111-128 | in every run, for every task: dispatches + entries dropped by scans or at promotion + entries still in a heap = 1 + min(attempts, max_retries), late reports, duplicate entries and manual retries included |
| RunInvariants.DispatchLimit | taskrunner/queue/broker.py:111-128 | so each task is dispatched at most max_retries + 1 times |
| RunInvariants.TotalBudget | taskrunner/queue/broker.py:196-246 | in every run all dispatches together are at most the sum of (1 + max_retries) over the submitted tasks |
| RunInvariants.NoTaskLost | taskrunner/queue/broker.py:111-151 | in every run a queued or retrying task that was not cancelled has an entry in the delayed heap or a ready heap |
| RunInvariants.EntriesSpeakTruly | taskrunner/queue/broker.py:196-215 | in every run each entry names a known task, and a ready entry carries that task's own priority and creation time |
| ReadyHeaps.EntryInOwnHeap | taskrunner/queue/broker.py:196-204 | an entry is in the heap of its own task's queue and in no other |
| RunInvariants.InflightIsRunning | taskrunner/queue/broker.py:75-79 | in every run an id is in the in-flight table exactly when its status is RUNNING, and then worker and deadline are set |
| RunInvariants.DepthBounded | taskrunner/queue/broker.py:184-194 | in every run depth <= max(0, max_depth) + the number of steps that made a terminal task active |
| RunInvariants.NoEarlyDispatch | taskrunner/queue/broker.py:206-215 | under a nondecreasing clock the dispatches are at every moment matched one to one by pushes already due |
| RunInvariants.CancellationIsFinal | taskrunner/queue/broker.py:130-139 | after a cancel no continuation of the run dispatches the task, whatever is reported or retried |
| RunInvariants.EveryRun | taskrunner/queue/broker.py:20-32 | the joint invariant behind the statements above holds after every sequence of events |
| Discipline.DisciplinedRun | taskrunner/queue/broker.py:98-151 | in disciplined runs every queued or retrying task has exactly one entry, every running, succeeded, failed or dead-lettered one none, a cancelled one at most one, and no terminal task comes back |
| Discipline.ExclusiveLease | taskrunner/queue/broker.py:61-79 | in disciplined runs what is dispatched is waiting and not in flight, and has just the entry that is taken |
| Discipline.SnapshotAgreesWithDepth | taskrunner/queue/broker.py:168-194 | in disciplined runs queued + delayed + inflight of the snapshot = depth + leftover entries of cancelled tasks, and depth <= max(0, max_depth) |
| Pacing.BackoffRespected | taskrunner/queue/broker.py:116-126 | in disciplined runs under a nondecreasing clock a task dispatched k times before is dispatched again no sooner than delay + backoff * k(k+1)/2 after its submission |
| Pacing.SubmittedAtIsRead | taskrunner/queue/broker.py:40 | the submission time in that bound is the first clock reading of a submission of the task |
| Operations.OperationIsEvents | taskrunner/queue/broker.py:34-151 | each operation, as its method is specified, has the effect of its events, and dispatches exactly the id that reserve returns |
| Operations.RunOfOperations | taskrunner/queue/broker.py:34-182 | every sequence of operations is a run of events with the same broker and the same ids handed out |
| Operations.HandedWithinBudget | taskrunner/queue/broker.py:61-85 | over any sequence of operations reserve returns each id at most max_retries + 1 times |
| Operations.CancelledNotHanded | taskrunner/queue/broker.py:130-139 | after cancel no later reserve returns the id |
| OperationRuns.NothingHandedEarly | taskrunner/queue/broker.py:61-85 | over any operations under a nondecreasing clock, the ids that reserve returned are matched one to one by pushes already due |
| OperationRuns.ReserveNeverReturnsInFlight | taskrunner/queue/broker.py:61-85 | in disciplined runs of operations reserve never returns an id that is in flight |
| OperationRuns.ReserveRespectsBackoff | taskrunner/queue/broker.py:116-126 | in disciplined runs of operations under a nondecreasing clock the reserve that returns an id after k earlier ones comes no sooner than delay + backoff * k(k+1)/2 after its submission |
| BrokerLaws.PromotionEmptiesDue | taskrunner/queue/broker.py:206-215 | after a promotion nothing delayed is due, and what is not due is still there |
| BrokerLaws.PromotionMovesLive | taskrunner/queue/broker.py:211-215 | the entries that move are the due ones whose task is neither cancelled nor dead-lettered |
| BrokerLaws.PromotionArrivals | taskrunner/queue/broker.py:212-215 | what arrives in the ready heaps comes from a due entry of a live task, with that task's own order keys and the current sequence number |
| BrokerRuns.PromoteMoves | taskrunner/queue/broker.py:208-215 | counted by id, what leaves the delayed heap is what arrives in the ready heaps and what is lost with dead or cancelled tasks |
| BrokerLaws.PromotionAbsorbs | taskrunner/queue/broker.py:206-215 | promoting at an earlier time first makes no difference |
| BrokerLaws.SelectionFindsWork | taskrunner/queue/broker.py:217-246 | the scan returns nothing exactly when no ready entry is of an uncancelled, dependency-ready task that suits the worker: its queue is the worker's, its affinity is empty or shares a label, and the worker is idle or busy |
| BrokerLaws.SelectionTakesLeast | taskrunner/queue/broker.py:241-246 | otherwise it returns the first such entry by priority, creation time, sequence number and code points of the id, over all the worker's queues, and removes one occurrence of it |
| BrokerLaws.SelectionKeepsOthers | taskrunner/queue/broker.py:227-239 | whether or not something is returned, every other entry of a task not cancelled stays as often as it was; cancelled ones leave the scanned queues only |
| Models.AcceptsWhatSuits | taskrunner/shared/models.py:159-162 | a worker accepts exactly what suits it: queue, shared label or no affinity, idle or busy |
| Ordering.StrLessDecides | taskrunner/queue/broker.py:243 | ids are compared by the first place where they differ, a proper prefix first |
| BrokerOutcomes.ReserveFindsWork | taskrunner/queue/broker.py:61-85 | one attempt returns nothing exactly when no uncancelled, dependency-ready task that suits the worker has a ready entry, or a delayed one that is due while the task is live |
| BrokerOutcomes.ReserveReturnsWork | taskrunner/queue/broker.py:61-85 | and what it returns is such a task |
| OpEffects.ReserveTables | taskrunner/queue/broker.py:74-79 | a reservation changes the tables at the returned task only: running, with the worker and the deadline, and in flight |
| OpEffects.OthersKept | taskrunner/queue/broker.py:34-182 | an operation leaves the row and all table memberships of every task it does not return as they were |
| OpEffects.TouchedEffect | taskrunner/queue/broker.py:34-151 | a task that an operation returns is in flight afterwards only if it was reserved, and keeps its spec and creation time |
| BrokerLaws.RetryQueuesWhileAttemptsLast | taskrunner/queue/broker.py:111-128 | retry queues the task once more exactly when attempts < max_retries; otherwise it dead-letters it and pushes nothing |
| BrokerOutcomes.RetryOutcome | taskrunner/queue/broker.py:111-128 | the row field by field: due at t0 + backoff * (attempts + 1) while attempts are left, with one new entry, delayed until then or ready if due; otherwise dead-lettered with no entry and no sequence number spent |
| BrokerOutcomes.RetryBecomesReady | taskrunner/queue/broker.py:120-128 | any promotion from that time on leaves the task a ready entry with its own keys |
| BrokerOutcomes.RetryWaits | taskrunner/queue/broker.py:206-215 | and any promotion before it leaves the entry delayed |
| BrokerLaws.SpentStaysSpent | taskrunner/queue/broker.py:116-122 | a task whose attempts are spent is dead-lettered again by every later retry, in every continuation |
| BrokerLaws.BatchTakesLongestPrefix | taskrunner/queue/broker.py:46-59 | a batch is accepted up to min(its length, max(0, max_depth - depth)), each accepted task raising depth, sequence and its entries by one |
| BrokerLaws.BatchKeys | taskrunner/queue/broker.py:46-59 | exactly the accepted prefix is in the table, each row queued, due at t0 + max(0, delay), its spec normalized; the rest is absent and all other rows are as they were |
| BrokerOutcomes.BatchEntries | taskrunner/queue/broker.py:196-204 | a batch brings one entry for each accepted task, delayed until its due time or ready if due, numbered in the order of the batch |
| BrokerOutcomes.SubmissionOutcome | taskrunner/queue/broker.py:34-44 | a submission is accepted exactly when depth < max_depth; then the row is queued, due at t0 + max(0, delay), with one such entry, and otherwise nothing changes |
| BrokerOutcomes.DepthCounts | taskrunner/queue/broker.py:184-194 | depth is the number of tasks that are pending, queued, running, acknowledged or retrying |
| BrokerOutcomes.CompletionOutcome | taskrunner/queue/broker.py:98-109 | status, error and lease change, the worker stays; the dead-letter table grows exactly for that status; heaps and other tasks stay |
| BrokerOutcomes.CancellationOutcome | taskrunner/queue/broker.py:130-139 | status and request, and out of flight; entries stay until they are met |
| BrokerLaws.ReapingIsExact | taskrunner/queue/broker.py:141-151 | exactly the tasks in flight whose deadline is set and before now leave the in-flight table, each returned once, an attempt spent and queued again or dead-lettered; every other task is untouched |
| BrokerLaws.ReapedIsDue | taskrunner/queue/broker.py:111-151 | a reaped task with attempts left is due at its own clock reading + backoff * attempts |
| BrokerOutcomes.LeaseLasts | taskrunner/queue/broker.py:75-79 | a task reserved at t keeps its worker and its deadline t + lease_seconds over any operations that leave it alone, sweeps up to the deadline included |
| BrokerOutcomes.SweepTakesLeaseExactlyAfterDeadline | taskrunner/queue/broker.py:141-151 | such a task is taken by a sweep at `now` if and only if now > t + lease_seconds |
| ClusterOutcomes.SentLeaseLasts | taskrunner/scheduler/engine.py:117-133 | the same over the steps of the cluster |
| BrokerLaws.RetryKeepsPlacement | taskrunner/queue/broker.py:111-128 | a retry keeps the exact placement if and only if its task is neither waiting nor cancelled by request |
| BrokerLaws.CompleteKeepsPlacement | taskrunner/queue/broker.py:98-109 | a completion does if and only if its task is not waiting and a requested cancellation is reported as such |
| Findings.LateFailureQueuesTwice | taskrunner/scheduler/engine.py:157-159 | a run of the cluster in which a failure reported after lease expiry leaves two entries of one task |
| Findings.LateSuccessIsHandedOutAgain | taskrunner/queue/broker.py:231-237 | a run of the cluster in which a task already reported as succeeded is sent to a worker again |
| Findings.ReportOverwritesCancellation | taskrunner/queue/broker.py:100-105 | a run of the cluster in which a cancelled task shows as succeeded |
| Findings.RefusedBatchLeavesRowsMissing | taskrunner/scheduler/engine.py:79-88 | a run in which a refused batch leaves a queued task without a row, with no upsert owed |
| TaskQueue.InMemoryTaskQueue.constructor | taskrunner/queue/broker.py:23-32 | a new queue is the empty broker |
| TaskQueue.InMemoryTaskQueue.Push | taskrunner/queue/broker.py:196-204 | the push goes to the delayed heap when not due, else to the ready heap of its queue; heaps stay heaps |
| TaskQueue.InMemoryTaskQueue.Depth | taskrunner/queue/broker.py:184-194 | the number of tasks whose status is not terminal |
| TaskQueue.InMemoryTaskQueue.Submit | taskrunner/queue/broker.py:34-44 | refused when full, changing nothing; otherwise the envelope is normalized, queued, registered and pushed |
| TaskQueue.InMemoryTaskQueue.SubmitMany | taskrunner/queue/broker.py:46-59 | the same broker, envelopes and tables as submitting one by one until one is refused |
| TaskQueue.InMemoryTaskQueue.PromoteDelayed | taskrunner/queue/broker.py:206-215 | the loop that stops at the first root not due moves exactly what promotion by the due time moves |
| TaskQueue.InMemoryTaskQueue.PopEligible | taskrunner/queue/broker.py:217-246 | the scan that empties and refills each queue's heap selects by one specification, for every order of the queues |
| TaskQueue.InMemoryTaskQueue.Reserve | taskrunner/queue/broker.py:61-85 | one attempt: promotion, selection, and the lease on the selected task's own object |
| TaskQueue.InMemoryTaskQueue.Complete | taskrunner/queue/broker.py:98-109 | status, error and lease of a known task; unknown ids change nothing |
| TaskQueue.InMemoryTaskQueue.Retry | taskrunner/queue/broker.py:111-128 | attempt counted, then dead-lettered or pushed with its backoff |
| TaskQueue.InMemoryTaskQueue.Cancel | taskrunner/queue/broker.py:130-139 | cancelled by status and by request, and out of flight |
| TaskQueue.InMemoryTaskQueue.RequeueExpiredLeases | taskrunner/queue/broker.py:141-151 | the loop over a snapshot of a table it mutates retries the expired tasks in order and returns their objects |
| TaskQueue.InMemoryTaskQueue.Snapshot | taskrunner/queue/broker.py:168-182 | after a promotion, the size of each structure, and the pressure: their sum divided by max(1, max_depth) |
| TaskQueue.TaskEnvelope.MarkRetried | taskrunner/queue/broker.py:116-125 | the field assignments of a retry, the due time t0 + backoff * attempts included |
| TaskQueue.TaskEnvelope.MarkQueued | taskrunner/queue/broker.py:38-40 | the field assignments of a submission, the due time t0 + max(0, delay) included |
| TaskQueue.TaskEnvelope.MarkRunning | taskrunner/queue/broker.py:75-77 | those of a reservation |
| TaskQueue.TaskEnvelope.MarkCompleted | taskrunner/queue/broker.py:103-105 | those of a completion |
| TaskQueue.TaskEnvelope.MarkCancelled | taskrunner/queue/broker.py:135 | that of a cancellation |
| Heap.Push | taskrunner/queue/broker.py:199-204 | heappush keeps the heap and adds one element |
| Heap.Pop | taskrunner/queue/broker.py:208-209 | heappop returns a least element, removes one occurrence and keeps the heap |
| Heap.Heapify | taskrunner/queue/broker.py:244-245 | heapify makes a heap of the same elements |
| EntryHeaps.RootIsEarliest | taskrunner/queue/broker.py:208 | nothing in the delayed heap is due before its root, which justifies the early stop |
| Ordering.ReadyTotal | taskrunner/queue/broker.py:243 | the tuple order of ready entries is a strict total order |
| ClusterMirror.LeasesWithinCapacity | taskrunner/workers/manager.py:75-77 | in every run, late and duplicate reports and lease expiry included, a worker has at most as many tasks in flight as it was launched with slots |
| ClusterMirror.DispatchIsTopological | taskrunner/scheduler/engine.py:121-127 | in every run a dispatch comes after the reported success of each dependency, itself after a dispatch of that dependency |
| ClusterMirror.CyclesAreNeverDispatched | taskrunner/queue/broker.py:235-237 | no task on a dependency cycle or behind one is ever dispatched |
| ClusterMirror.MirrorAtRest | taskrunner/scheduler/engine.py:66-88 | when no upsert is owed, every row there is agrees with its live task and bears the latest result, and the tasks without rows are those of refused batches not written since |
| ClusterBatches.MirrorHolds | taskrunner/scheduler/engine.py:66-88 | when no upsert is owed and every batch fitted or found no room, the table has exactly the live tasks, each row agreeing with its task and bearing the latest result |
| ClusterBatches.BatchOrphansExactly | taskrunner/scheduler/engine.py:79-83 | in every state a batch leaves tasks without rows to come if and only if 0 < room < its length, room being max(0, max_depth - depth) |
| ClusterBatches.BatchKeepsMirror | taskrunner/scheduler/engine.py:79-83 | from any state at rest with a full mirror, a batch handled to its end leaves the mirror full if and only if it fits or finds no room |
| ClusterMirror.CountsAgree | taskrunner/database/store.py:181-183 | at rest with no task missing from the table, the tasks shown in a status are the live tasks in it |
| ClusterBatches.CountsHold | taskrunner/database/store.py:181-183 | at rest, when every batch fitted or found no room, the tasks shown in a status are the live tasks in it |
| ClusterMirror.EverySystemRun | taskrunner/scheduler/engine.py:117-197 | at every moment each row agrees with its task or an upsert is owed; each row's result is the latest one or its upsert is next; leases are held by slots; dispatches follow dependencies |
| ClusterMirror.SendsWithinBudget | taskrunner/workers/manager.py:93-108 | in every run a task is sent to workers at most max_retries + 1 times |
| ClusterMirror.BrokerRunOf | taskrunner/scheduler/engine.py:66-197 | every run of the cluster is, for the broker, the run of its events |
| ClusterTiming.NothingSentEarly | taskrunner/queue/broker.py:206-215 | in every run under a nondecreasing clock the tasks sent to workers are matched one to one by pushes already due |
| ClusterTiming.SendsRespectBackoff | taskrunner/queue/broker.py:116-126 | in steady runs under a nondecreasing clock a task sent k times before is sent again no sooner than delay + backoff * k(k+1)/2 after its submission |
| ClusterTiming.CancelledNeverSent | taskrunner/scheduler/engine.py:182-191 | after cancel_task no run sends the task to a worker again, whatever is reported or retried |
| ClusterRuns.ReserveHonoursDependencies | taskrunner/queue/broker.py:235-237 | reserve returns a task only when its dependencies are among those given as completed, and its worker accepts it |
| SteadyRuns.ReserveTakesWaiting | taskrunner/queue/broker.py:70-79 | where the placement is exact, reserve returns a waiting task, never one in flight |
| SteadyRuns.EverySteadyRun | taskrunner/scheduler/engine.py:142-159 | in every steady run, sweeps, dying slots and recovery included, the placement is exact, nothing is revived, and executing slots hold distinct tasks, each in flight and assigned to the slot's worker |
| SteadyRuns.SteadyRunIsDisciplined | taskrunner/queue/broker.py:98-151 | a steady run is, for the broker, a disciplined run: every completion and retry, the reaper's included, hits a task in flight |
| SteadyRuns.OneHolder | taskrunner/workers/manager.py:93-102 | then what a slot executes is in flight, leased to the slot's worker and executed by no other slot, and what is in flight is held by a slot of its worker, executing it unless that slot died |
| Engine.SchedulerEngine.Submit | taskrunner/scheduler/engine.py:66-77 | queue and row change together, or QueueFullError changes nothing |
| Engine.SchedulerEngine.SubmitBatch | taskrunner/scheduler/engine.py:79-88 | new envelopes with normalized specs; all rows or, when the batch is refused, none, while the queue keeps the accepted prefix |
| Engine.SchedulerEngine.MakeBatch | taskrunner/scheduler/engine.py:80 | one new envelope for each spec, in order |
| Engine.SchedulerEngine.RegisterWorker | taskrunner/scheduler/engine.py:90-99 | the worker is known, idle, with its heartbeat now, in the registry and in its row |
| Engine.SchedulerEngine.Heartbeat | taskrunner/scheduler/engine.py:101-115 | a known worker's count, status and heartbeat, in the registry and in its row; nothing for an unknown one |
| Engine.SchedulerEngine.ReserveTask | taskrunner/scheduler/engine.py:117-140 | nothing for unknown or offline workers; else one attempt, which returns the live envelope of the task handed out, running, leased until t + lease_seconds and shown by its row, or null exactly when there is none, and then the worker is as it was |
| Engine.SchedulerEngine.ReportResult | taskrunner/scheduler/engine.py:142-180 | the task as reported, error text included, its row showing it and bearing the result, the completed set, the results, and the worker with one task less; an unknown task changes nothing |
| Engine.SchedulerEngine.CancelTask | taskrunner/scheduler/engine.py:182-191 | the task is cancelled and its row shows it |
| Engine.SchedulerEngine.RetryTask | taskrunner/scheduler/engine.py:193-197 | an attempt is spent for a "manual retry" and the row shows it |
| Engine.SchedulerEngine.ReapLeases | taskrunner/scheduler/engine.py:241-246 | every expired task's row is written after the sweep |
| EngineSteps.ReportIsSteps | taskrunner/scheduler/engine.py:142-162 | a report handler is its step and the drain of its upsert |
| Reports.ReportOutcome | taskrunner/scheduler/engine.py:150-159 | success: no error; cancelled: the reported error; anything else: an attempt spent and the reported error, or "task failed" when there is none or an empty one |
| ClusterOutcomes.ReportLeaves | taskrunner/scheduler/engine.py:142-162 | a report handled to its end leaves that outcome on the task and in its row, with the result |
| EngineSteps.MutationIsSteps | taskrunner/scheduler/engine.py:182-197 | so are a cancel and a manual retry |
| EngineSteps.SubmitIsSteps | taskrunner/scheduler/engine.py:66-69 | a submission is its step and, when accepted, the drain of its upsert; a refused one changes nothing |
| EngineSteps.ReserveIsSteps | taskrunner/scheduler/engine.py:121-133 | a reservation is its attempt and, when it brings a task, the continuation and its upsert |
| EngineSteps.BatchIsSteps | taskrunner/scheduler/engine.py:79-83 | an accepted batch is its step and the drains of its upserts |
| EngineSteps.RefusedBatchIsStep | taskrunner/scheduler/engine.py:79-83 | a refused batch is its step alone: the prefix stays in the queue and no upsert follows |
| EngineSteps.UpsertingUpserts | taskrunner/scheduler/engine.py:244-246 | the reaper's continuation writes the expired tasks' rows in order |
| Worker.WorkerRuntime.constructor | taskrunner/workers/manager.py:75-77 | capacity free slots |
| Worker.WorkerRuntime.Receive | taskrunner/workers/manager.py:93-102 | an answered reservation occupies its own slot and adds one execution |
| Worker.WorkerRuntime.Finish | taskrunner/workers/manager.py:104-114 | a report frees the slot and counts once, as failed exactly when there is an error text |
| Worker.WorkerRuntime.Break | taskrunner/workers/manager.py:99-102 | an execution that raises ends its loop with the task unreported |
| Worker.WorkerRuntime.RunningTasks | taskrunner/workers/manager.py:116-119 | a heartbeat reports the executing slots, never more than the capacity |
| Store.UpsertMirrors | taskrunner/database/store.py:67-101 | an upsert makes the row agree with the task, keeps the last result there was, and leaves other rows alone |
| Store.SQLiteStore.UpsertTask | taskrunner/database/store.py:67-101 | insert, or update of the status columns with the result kept by COALESCE |
| Store.SQLiteStore.UpsertWorker | taskrunner/database/store.py:103-134 | the worker's row is what the worker is; other rows stay |
| Store.SQLiteStore.TaskCounts | taskrunner/database/store.py:181-183 | one count per status that occurs, each the number of rows in it |
| EventBus.ReplayJoinsLive | taskrunner/shared/events.py:27-39 | a replaying subscriber's events, given and to come, are the suffix of the log from max(0, n - replay_size) if and only if its buffer never overflowed |
| EventBus.OrderIsKept | taskrunner/shared/events.py:19-25 | in every case they are an order-preserving subsequence of the log |
| EventBus.Delivery | taskrunner/shared/events.py:19-37 | after the history come the events published since, all of them exactly when the buffer never overflowed |
| EventBus.SubsequenceDistinct | taskrunner/shared/events.py:19-25 | distinct events are delivered at most once |
| EventBus.WindowIsSuffix | taskrunner/shared/events.py:16-21 | the bounded deque holds the last replay_size events of the log |
| EventBus.EventBus.Publish | taskrunner/shared/events.py:19-25 | the log and the window grow, and every subscriber is offered the event once |
| EventBus.EventBus.Subscribe | taskrunner/shared/events.py:27-31 | a subscriber joins with the window or with nothing |
| EventBus.EventBus.Unsubscribe | taskrunner/shared/events.py:37-39 | only that subscriber leaves |
| EventBus.Subscriber.Put | taskrunner/shared/events.py:23-28 | a buffer of 1000 events refuses the next one and keeps what it has |
| EventBus.Subscriber.Next | taskrunner/shared/events.py:32-36 | history first, then the buffer |
| Codec.SpecRoundTrip | taskrunner/grpc/codec.py:17-55 | decode(encode(s)) of a normal spec is s but for priority 0, backoff 0 and an empty batch key; encoding fails exactly for numbers that are not int32 |
| Codec.SecondTripIsIdentity | taskrunner/grpc/codec.py:17-55 | a second trip changes nothing |
| Codec.SurvivesExactlyWhen | taskrunner/grpc/codec.py:35-55 | any spec survives a trip if and only if it is normal and has none of those three values |
| Codec.AbsentValues | taskrunner/grpc/codec.py:43-55 | a message with nothing but a target decodes to the defaults |
| Codec.TaskRoundTrip | taskrunner/grpc/codec.py:58-81 | an envelope arrives with its lease deadline and its empty strings gone |
| Codec.AbsentTaskValues | taskrunner/grpc/codec.py:71-81 | a message without status, worker and error decodes to a pending task |
| Codec.ResultRoundTrip | taskrunner/grpc/codec.py:110-137 | a result arrives as sent, but an empty error is no error |
| Codec.AbsentResult | taskrunner/grpc/codec.py:122-137 | a result message without status is a failure; an absent result is nothing, and text that is not JSON stays text |
| Codec.DictRoundTrip | taskrunner/shared/models.py:91-116 | from_dict(to_dict(t)) is t if and only if its spec is normal, and t with its spec normalized in any case |
| Codec.DictSettles | taskrunner/shared/models.py:99-116 | from_dict of any dictionary, defaults for missing keys included, is an envelope with a normal spec, which a second trip returns unchanged; it fails exactly for a missing id, spec or target or an unknown kind or status |
| Codec.MissingKeys | taskrunner/shared/models.py:99-116 | a dictionary with nothing but an id and a target yields the defaults |
| Codec.Names | taskrunner/shared/models.py:10-26 | the names of kinds and statuses |
| Codec.DecodePayload | taskrunner/grpc/codec.py:36-41 | every payload value is parsed, or kept as a string when it is not JSON |
| Models.NormalizedIsNormal | taskrunner/shared/models.py:62-76 | normalizing yields the normal form, each number the least one not below itself and its bound, and changes a spec exactly when it is not normal |

## Left out

- `ack` and `batch`: no engine code calls them; ACKED and PENDING occur in no run of the model.
- Waiting inside `reserve`: condition variables and timeouts; a call is any number of single attempts, each an atomic step under the broker's lock.
- `complete` with a status that is not terminal: the engine completes with SUCCEEDED and CANCELLED only, so the runs complete with terminal statuses; the method itself takes any status.
- TaskQueue.InMemoryTaskQueue.Submit: takes an envelope whose id is not in the task table; ids come from `uuid4`, so resubmission of a known id is not part of this model.
- TaskQueue.InMemoryTaskQueue.SubmitMany: likewise, with distinct ids in the batch.
- SQL, WAL and JSON text, the log table, `recent_tasks`, and host, pid and start time of workers: the tables are maps, and JSON printing and parsing are parameters assumed to be inverse.
- The reading of an envelope for an upsert is one step; a thread that changes the envelope meanwhile owes an upsert of its own.
- gRPC transport and stubs, FastAPI, WebSockets, the command line, settings, logging, metrics, `autoscaling_recommendation`, `worker_to_proto` and `worker_from_proto`.
- The executor: what a job computes is any result for the task its slot holds; timeouts and process pools are not part of this model.
- IPC channels, the lock manager and event publishing by the engine's handlers.
- The heartbeat reaper, whose last write of a worker row differs from the live worker in `last_heartbeat`; in the cluster's runs any worker record may be passed to a reservation, so the registry restricts nothing.
- Sharing of one WorkerInfo object between the registry and a pending reservation: the registry is a map of values.
- Codec.TaskRoundTrip: attempt counts are natural numbers, so a message with a negative count, which no broker sends, has no image.
- Unknown keys in a dictionary, which make the record constructor raise.
- Rounding of floating-point numbers: times and backoffs are reals.
