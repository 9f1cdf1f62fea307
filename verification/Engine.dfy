/**
 * taskrunner/scheduler/engine.py in its own form: the handlers of `SchedulerEngine` over the queue
 * and the store. Each method is one handler, from its first await-free part to its last upsert, with
 * nothing in between; what other threads may do in between is the subject of Cluster, and EngineSteps
 * proves that these methods are runs of its steps.
 */
module Engine {
  import opened Models
  import opened BrokerRuns
  import opened Operations
  import opened Store
  import opened TaskQueue
  import opened Cluster
  import opened OpEffects
  import opened Reports
  import opened BrokerOutcomes
  import B = BrokerModel

  /** What the handlers change together. */
  datatype EngineState = EngineState(
    b: B.Broker,
    completed: set<string>,
    results: map<string, TaskResult>,
    rows: map<string, Row>)

  /** A broker call about one task, and the upsert of that task. */
  ghost function Mutated(e: EngineState, op: Op, id: string, result: Option<TaskResult>): EngineState {
    var b' := Perform(e.b, op);
    if id !in b'.tasks then e
    else e.(b := b', rows := Upserted(e.rows, id, b'.tasks[id], result))
  }

  ghost function Reported(e: EngineState, r: TaskResult, t0: real, t1: real): EngineState {
    Mutated(e, ReportOp(r, t0, t1), r.taskId, Some(r)).(
      completed := if r.status.Succeeded? then e.completed + {r.taskId} else e.completed,
      results := e.results[r.taskId := r])
  }

  ghost function Reserved(e: EngineState, w: WorkerInfo, leaseSeconds: real, now: real, t: real): EngineState {
    var op := Operations.Reserve(w, e.completed, leaseSeconds, now, t);
    var best := B.Reserve(e.b, w, e.completed, leaseSeconds, now, t).1;
    if best.None? then e.(b := Perform(e.b, op)) else Mutated(e, op, best.value, None)
  }

  /** The upserts of a list of tasks, one after the other. */
  ghost function UpsertedAll(rows: map<string, Row>, tasks: map<string, Task>, ids: seq<string>): map<string, Row>
    requires forall i | 0 <= i < |ids| :: ids[i] in tasks
  {
    if ids == [] then rows
    else
      var last := ids[|ids| - 1];
      Upserted(UpsertedAll(rows, tasks, ids[..|ids| - 1]), last, tasks[last], None)
  }

  // ---------- Workers ----------

  /** A worker with one task less, never fewer than none; it is idle when that leaves none. */
  function OneLess(w: WorkerInfo): (r: WorkerInfo)
    ensures r.runningTasks >= 0 && r.runningTasks >= w.runningTasks - 1
    ensures r.runningTasks == 0 || r.runningTasks == w.runningTasks - 1
    ensures r.status == (if r.runningTasks == 0 then WorkerStatus.Idle else WorkerStatus.Busy)
    ensures r == w.(runningTasks := r.runningTasks, status := r.status)
  {
    var n := if w.runningTasks > 1 then w.runningTasks - 1 else 0;
    w.(runningTasks := n, status := if n == 0 then WorkerStatus.Idle else WorkerStatus.Busy)
  }

  // ---------- Batches ----------

  /** A spec to submit, with the id and the clock readings its envelope takes. */
  datatype Request = Request(id: string, spec: TaskSpec, createdAt: real, t0: real, t1: real)

  /** The submission a request becomes: a new envelope with the normalized spec. */
  ghost function SubmissionOf(r: Request): B.Submission {
    B.Submission(r.id, NewTask(r.spec.Normalized(), r.createdAt), r.t0, r.t1)
  }

  ghost function Submissions(requests: seq<Request>): (subs: seq<B.Submission>)
    ensures |subs| == |requests| && forall i | 0 <= i < |requests| :: subs[i] == SubmissionOf(requests[i])
  {
    seq(|requests|, i requires 0 <= i < |requests| => SubmissionOf(requests[i]))
  }

  ghost function Ids(subs: seq<B.Submission>): seq<string> {
    seq(|subs|, i requires 0 <= i < |subs| => subs[i].id)
  }

  lemma RequestFields(requests: seq<Request>)
    ensures forall i | 0 <= i < |requests| ::
              var s := Submissions(requests)[i];
              s.id == requests[i].id && s.t0 == requests[i].t0 && s.t1 == requests[i].t1
              && s.task == SubmissionOf(requests[i]).task
  {
  }

  // ---------- The handlers ----------

  lemma ReportPerformed(b: B.Broker, r: TaskResult, t0: real, t1: real)
    requires r.taskId in b.tasks
    ensures Perform(b, ReportOp(r, t0, t1)) ==
            match r.status
            case Succeeded => B.Complete(b, r.taskId, TaskStatus.Succeeded, None)
            case Cancelled => B.Complete(b, r.taskId, TaskStatus.Cancelled, r.error)
            case _ => B.Retry(b, r.taskId, Reason(r.error), t0, t1)
  {
    hide B.Complete, B.Retry;
  }

  lemma SubmitOutcome(b: B.Broker, id: string, task: Task, t0: real, t1: real)
    ensures B.Submit(b, id, task, t0, t1).1 <==> B.Depth(b) < b.maxDepth
    ensures B.Depth(b) >= b.maxDepth ==> B.Submit(b, id, task, t0, t1).0 == b
  {
  }

  /** A row shows what its task is now. */
  ghost predicate RowShows(row: Row, task: TaskEnvelope)
    reads task
  {
    && row.status == task.status && row.attempts == task.attempts
    && row.error == task.lastError && row.assignedWorker == task.assignedWorker
  }

  class SchedulerEngine {
    const queue: InMemoryTaskQueue
    const store: SQLiteStore
    const leaseSeconds: real
    var workers: map<string, WorkerInfo>
    var completedTasks: set<string>
    var results: map<string, TaskResult>

    /** A worker is registered under its own id. */
    ghost predicate Registry()
      reads this
    {
      forall id | id in workers :: workers[id].workerId == id
    }

    constructor (queue: InMemoryTaskQueue, store: SQLiteStore, leaseSeconds: real)
      ensures this.queue == queue && this.store == store && this.leaseSeconds == leaseSeconds
      ensures workers == map[] && completedTasks == {} && results == map[] && Registry()
    {
      this.queue, this.store, this.leaseSeconds := queue, store, leaseSeconds;
      workers, completedTasks, results := map[], {}, map[];
    }

    /** The worker table shows the registry. */
    ghost predicate WorkersMirrored()
      reads this, store
    {
      store.workers == workers
    }

    ghost function State(): EngineState
      reads this, queue, store
    {
      EngineState(queue.model, completedTasks, results, store.rows)
    }

    /** `submit`; null stands for QueueFullError. */
    method Submit(id: string, spec: TaskSpec, createdAt: real, t0: real, t1: real) returns (task: TaskEnvelope?)
      requires queue.Valid() && id !in queue.tasks
      modifies queue, store`rows
      ensures queue.Valid()
      ensures task == null <==> B.Depth(old(queue.model)) >= old(queue.model).maxDepth
      ensures task != null ==> id in queue.tasks && queue.tasks[id] == task && fresh(task)
      ensures var s := B.Submission(id, NewTask(spec.Normalized(), createdAt), t0, t1);
              State() == if task == null then old(State()) else Mutated(old(State()), SubmitOne(s), id, None)
      ensures task != null ==> id in store.rows && RowShows(store.rows[id], task)
    {
      hide InMemoryTaskQueue.Valid, B.Submit, B.Depth;
      queue.Row(id);
      task := new TaskEnvelope(id, spec.Normalized(), createdAt, createdAt);
      var ok := queue.Submit(task, t0, t1);
      SubmitOutcome(old(queue.model), id, NewTask(spec.Normalized(), createdAt), t0, t1);
      if !ok {
        task := null;
      } else {
        queue.Row(id);
        store.UpsertTask(id, task.Value(), None);
      }
    }

    /** A changed worker, in the registry and in its row. */
    method SetWorker(w: WorkerInfo)
      modifies `workers, store`workers
      ensures workers == old(workers)[w.workerId := w]
      ensures old(WorkersMirrored()) ==> WorkersMirrored()
    {
      workers := workers[w.workerId := w];
      store.UpsertWorker(w);
    }

    /** `register_worker`. */
    method RegisterWorker(worker: WorkerInfo, now: real)
      modifies `workers, store`workers
      ensures workers == old(workers)[worker.workerId := worker.(status := WorkerStatus.Idle, lastHeartbeat := now)]
      ensures (old(Registry()) ==> Registry()) && (old(WorkersMirrored()) ==> WorkersMirrored())
    {
      SetWorker(worker.(status := WorkerStatus.Idle, lastHeartbeat := now));
    }

    /** `heartbeat`: false when the worker is unknown. */
    method Heartbeat(workerId: string, runningTasks: int, now: real) returns (known: bool)
      requires Registry()
      modifies `workers, store`workers
      ensures Registry() && (old(WorkersMirrored()) ==> WorkersMirrored())
      ensures known == (workerId in old(workers))
      ensures workers == if !known then old(workers)
                         else old(workers)[workerId := old(workers)[workerId].(
                                runningTasks := runningTasks, lastHeartbeat := now,
                                status := if runningTasks == 0 then WorkerStatus.Idle else WorkerStatus.Busy)]
    {
      if workerId !in workers {
        return false;
      }
      var status := if runningTasks != 0 then WorkerStatus.Busy else WorkerStatus.Idle;
      SetWorker(workers[workerId].(runningTasks := runningTasks, status := status, lastHeartbeat := now));
      known := true;
    }

    /** `reserve_task` with one attempt of the queue; unknown and offline workers get nothing. */
    method ReserveTask(workerId: string, order: seq<string>, now: real, t: real) returns (task: TaskEnvelope?)
      requires queue.Valid() && Registry()
      requires workerId in workers ==> workers[workerId].queues == set q | q in order
      modifies `workers, queue, queue.tasks.Values, store
      ensures queue.Valid() && Registry() && (old(WorkersMirrored()) ==> WorkersMirrored())
      ensures workerId !in old(workers) || old(workers[workerId]).status.Offline? ==>
                task == null && State() == old(State())
      ensures workerId in old(workers) && !old(workers[workerId]).status.Offline? ==>
                var w := old(workers[workerId]);
                && State() == Reserved(old(State()), w, leaseSeconds, now, t)
                && match B.Reserve(old(queue.model), w, old(completedTasks), leaseSeconds, now, t).1
                   case None => task == null
                   case Some(id) => id in queue.tasks && task == queue.tasks[id]
                                    && task.status == Running && task.assignedWorker == Some(workerId)
                                    && task.leaseDeadline == Some(t + leaseSeconds)
                                    && id in store.rows && RowShows(store.rows[id], task)
      ensures workers == if task == null then old(workers)
                         else old(workers)[workerId := old(workers)[workerId].(
                                runningTasks := old(workers)[workerId].runningTasks + 1, status := WorkerStatus.Busy)]
    {
      hide InMemoryTaskQueue.Valid, B.Reserve;
      task := null;
      if workerId in workers && !workers[workerId].status.Offline? {
        var w := workers[workerId];
        task := queue.Reserve(w, order, completedTasks, leaseSeconds, now, t);
        if task != null {
          queue.Row(B.Reserve(old(queue.model), w, completedTasks, leaseSeconds, now, t).1.value);
          ReserveTables(old(queue.model), w, completedTasks, leaseSeconds, now, t);
          SetWorker(w.(runningTasks := w.runningTasks + 1, status := WorkerStatus.Busy));
          store.UpsertTask(task.taskId, task.Value(), None);
        }
      }
    }

    /** The worker's part of `report_result`. */
    method FreeSlot(workerId: string)
      requires Registry()
      modifies `workers, store`workers
      ensures Registry() && (old(WorkersMirrored()) ==> WorkersMirrored())
      ensures workers == if workerId in old(workers) then old(workers)[workerId := OneLess(old(workers)[workerId])]
                         else old(workers)
    {
      if workerId in workers {
        var w := workers[workerId];
        var n := if w.runningTasks - 1 > 0 then w.runningTasks - 1 else 0;
        SetWorker(w.(runningTasks := n, status := if n == 0 then WorkerStatus.Idle else WorkerStatus.Busy));
      }
    }

    /** The queue's part of `report_result`: complete or retry by the reported status. */
    method Settle(r: TaskResult, t0: real, t1: real) returns (task: TaskEnvelope)
      requires queue.Valid() && r.taskId in queue.tasks
      modifies queue`inflight, queue`deadLetter, queue`ready, queue`delayed, queue`sequence, queue`model, queue.ObjectOf(r.taskId)
      ensures queue.Valid() && task == queue.tasks[r.taskId]
      ensures queue.model == Perform(old(queue.model), ReportOp(r, t0, t1))
    {
      hide InMemoryTaskQueue.Valid, B.Complete, B.Retry, Terminal, Fresh, IsNew;
      queue.Row(r.taskId);
      ReportPerformed(queue.model, r, t0, t1);
      hide Perform, ReportOp;
      if r.status.Succeeded? {
        task := queue.Complete(r.taskId, TaskStatus.Succeeded, None);
      } else if r.status.Cancelled? {
        task := queue.Complete(r.taskId, TaskStatus.Cancelled, r.error);
      } else {
        var reason := if r.error.Some? && r.error.value != "" then r.error.value else "task failed";
        task := queue.Retry(r.taskId, reason, t0, t1);
      }
    }

    /** `report_result`; null stands for TaskNotFoundError, which leaves everything as it was. */
    method ReportResult(r: TaskResult, t0: real, t1: real) returns (task: TaskEnvelope?)
      requires queue.Valid() && Registry()
      modifies `workers, `completedTasks, `results, queue, queue.tasks.Values, store
      ensures queue.Valid() && Registry() && (old(WorkersMirrored()) ==> WorkersMirrored())
      ensures task == if r.taskId in old(queue.tasks) then old(queue.tasks)[r.taskId] else null
      ensures task == null <==> r.taskId !in old(queue.model).tasks
      ensures workers == if task != null && r.workerId in old(workers)
                         then old(workers)[r.workerId := OneLess(old(workers)[r.workerId])] else old(workers)
      ensures State() == if task == null then old(State()) else Reported(old(State()), r, t0, t1)
      ensures task != null ==>
                && ReportedRow(task.Value(), old(queue.model).tasks[r.taskId], r)
                && r.taskId in store.rows && RowShows(store.rows[r.taskId], task) && store.rows[r.taskId].result == Some(r)
                && (r.status == TaskStatus.Succeeded ==> r.taskId in completedTasks)
    {
      hide InMemoryTaskQueue.Valid, Perform, ReportOp, ReportedRow, ReportedError;
      queue.Row(r.taskId);
      if r.taskId !in queue.tasks {
        return null;
      }
      FreeSlot(r.workerId);
      task := Settle(r, t0, t1);
      if r.status.Succeeded? {
        completedTasks := completedTasks + {r.taskId};
      }
      results := results[r.taskId := r];
      queue.Row(r.taskId);
      ReportOutcome(old(queue.model), r, t0, t1);
      store.UpsertTask(r.taskId, task.Value(), Some(r));
    }

    /** `cancel_task`. */
    method CancelTask(id: string) returns (task: TaskEnvelope?)
      requires queue.Valid()
      modifies queue, queue.tasks.Values, store`rows
      ensures queue.Valid()
      ensures task == if id in old(queue.tasks) then old(queue.tasks)[id] else null
      ensures task == null <==> id !in old(queue.model).tasks
      ensures State() == if task == null then old(State()) else Mutated(old(State()), Operations.Cancel(id), id, None)
      ensures task != null ==>
                && task.Value() == old(queue.model).tasks[id].(status := TaskStatus.Cancelled)
                && id in store.rows && RowShows(store.rows[id], task)
    {
      hide InMemoryTaskQueue.Valid, B.Cancel, OnlyRow;
      queue.Row(id);
      if id in queue.tasks {
        CancellationOutcome(queue.model, id);
      }
      task := queue.Cancel(id);
      if task != null {
        queue.Row(id);
        store.UpsertTask(id, task.Value(), None);
      }
    }

    /** `retry_task`. */
    method RetryTask(id: string, t0: real, t1: real) returns (task: TaskEnvelope?)
      requires queue.Valid()
      modifies queue, queue.tasks.Values, store`rows
      ensures queue.Valid()
      ensures task == if id in old(queue.tasks) then old(queue.tasks)[id] else null
      ensures task == null <==> id !in old(queue.model).tasks
      ensures State() == if task == null then old(State())
                         else Mutated(old(State()), Operations.Retry(id, "manual retry", t0, t1), id, None)
      ensures task != null ==>
                && RetriedRow(task.Value(), old(queue.model).tasks[id], "manual retry")
                && id in store.rows && RowShows(store.rows[id], task)
    {
      hide InMemoryTaskQueue.Valid, B.Retry, OnlyRow, PushedOnce, RetryDue, RetriedRow;
      queue.Row(id);
      if id in queue.tasks {
        RetryOutcome(queue.model, id, "manual retry", t0, t1);
      }
      task := queue.Retry(id, "manual retry", t0, t1);
      if task != null {
        queue.Row(id);
        store.UpsertTask(id, task.Value(), None);
      }
    }

    /** The upserts at the end of `submit_batch` and of a round of `_lease_reaper`. */
    method UpsertAll(tasks: seq<TaskEnvelope>, ghost ids: seq<string>)
      requires queue.Valid() && Denotes(tasks, queue.tasks, ids)
      modifies store`rows
      ensures forall i | 0 <= i < |ids| :: ids[i] in queue.model.tasks
      ensures store.rows == UpsertedAll(old(store.rows), queue.model.tasks, ids)
    {
      forall i | 0 <= i < |ids| ensures ids[i] in queue.model.tasks {
      }
      for i := 0 to |tasks|
        invariant store.rows == UpsertedAll(old(store.rows), queue.model.tasks, ids[..i])
      {
        assert ids[..i + 1][..i] == ids[..i];
        assert ids[i] in queue.tasks && tasks[i].taskId == ids[i];
        store.UpsertTask(tasks[i].taskId, tasks[i].Value(), None);
      }
      assert ids[..|tasks|] == ids;
    }

    /** The list comprehension of `submit_batch`: a new envelope for each spec. */
    method MakeBatch(requests: seq<Request>) returns (batch: seq<TaskEnvelope>)
      ensures |batch| == |requests|
      ensures forall i | 0 <= i < |batch| :: fresh(batch[i]) && batch[i].taskId == requests[i].id
      ensures forall i | 0 <= i < |batch| :: batch[i].Value() == SubmissionOf(requests[i]).task
    {
      batch := [];
      for i := 0 to |requests|
        invariant |batch| == i
        invariant forall j | 0 <= j < i :: fresh(batch[j]) && batch[j].taskId == requests[j].id
        invariant forall j | 0 <= j < i :: batch[j].Value() == SubmissionOf(requests[j]).task
      {
        var r := requests[i];
        var task := new TaskEnvelope(r.id, r.spec.Normalized(), r.createdAt, r.createdAt);
        batch := batch + [task];
      }
    }

    /** `submit_batch`; false stands for QueueFullError, after which nothing is upserted. */
    method SubmitBatch(requests: seq<Request>) returns (ok: bool, batch: seq<TaskEnvelope>)
      requires queue.Valid() && forall i | 0 <= i < |requests| :: requests[i].id !in queue.tasks
      requires forall i, j | 0 <= i < j < |requests| :: requests[i].id != requests[j].id
      modifies queue, store`rows
      ensures queue.Valid() && completedTasks == old(completedTasks) && results == old(results)
      ensures queue.model == B.SubmitEach(old(queue.model), Submissions(requests)).0
      ensures ok == (B.SubmitEach(old(queue.model), Submissions(requests)).1 == |requests|)
      ensures !ok ==> store.rows == old(store.rows)
      ensures ok ==> Denotes(batch, queue.tasks, Ids(Submissions(requests)))
                     && (forall i | 0 <= i < |requests| :: Ids(Submissions(requests))[i] in queue.model.tasks)
                     && store.rows == UpsertedAll(old(store.rows), queue.model.tasks, Ids(Submissions(requests)))
    {
      hide InMemoryTaskQueue.Valid, B.SubmitEach, SubmissionOf;
      batch := MakeBatch(requests);
      var clocks := seq(|requests|, i requires 0 <= i < |requests| => (requests[i].t0, requests[i].t1));
      RequestFields(requests);
      ok := queue.SubmitMany(batch, clocks, Submissions(requests));
      if ok {
        UpsertAll(batch, Ids(Submissions(requests)));
      }
    }

    /** One round of `_lease_reaper`. */
    method ReapLeases(now: real, visits: seq<B.Visit>) returns (expired: seq<TaskEnvelope>)
      requires queue.Valid() && Enumerates(visits, queue.inflight.Keys)
      modifies queue, queue.tasks.Values, store`rows
      ensures queue.Valid() && completedTasks == old(completedTasks) && results == old(results)
      ensures queue.model == B.Requeue(old(queue.model), now, visits).0
      ensures Denotes(expired, queue.tasks, B.Requeue(old(queue.model), now, visits).1)
      ensures var ids := B.Requeue(old(queue.model), now, visits).1;
              && (forall i | 0 <= i < |ids| :: ids[i] in queue.model.tasks)
              && store.rows == UpsertedAll(old(store.rows), queue.model.tasks, ids)
    {
      hide B.Requeue, Denotes, Enumerates;
      expired := queue.RequeueExpiredLeases(now, visits);
      UpsertAll(expired, B.Requeue(old(queue.model), now, visits).1);
    }
  }
}
