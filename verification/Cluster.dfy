/**
 * The scheduler and its workers as one state machine: the broker, the engine of
 * taskrunner/scheduler/engine.py with its store, and the reservation slots of
 * taskrunner/workers/manager.py. A handler's part between two awaits is one step of the event loop;
 * the upserts that end it are drained one by one before the loop does anything else. Reservations
 * and the reaper's sweep run in threads: their steps may fall anywhere, also between a handler's
 * broker call and its upsert, and the loop takes up their upserts later.
 */
module Cluster {
  import opened Models
  import opened Bags
  import opened BrokerRuns
  import opened Operations
  import opened BrokerLaws
  import opened OpEffects
  import opened Store
  import B = BrokerModel

  /** A consume loop: between reservations, holding a reserved task, or ended while holding one. */
  datatype Slot = Free | Holding(id: string) | Dead(id: string)

  /** An upsert that the running handler still has to make. */
  datatype Upsert = Upsert(id: string, result: Option<TaskResult>)

  /** What the dispatch order is about: a task handed to a worker, a task reported as succeeded. */
  datatype Mark = Sent(id: string, worker: string) | Done(id: string)

  datatype System = System(
    h: Hist,
    slots: map<string, seq<Slot>>,
    completed: set<string>,
    results: map<string, TaskResult>,
    rows: map<string, Row>,
    loop: seq<Upsert>,
    resume: multiset<string>,
    orphans: set<string>,
    trace: seq<Mark>)

  datatype Step =
    | Launch(worker: string, capacity: nat)
    | Submit(item: B.Submission)
    | SubmitBatch(batch: seq<B.Submission>)
    | Attempt(info: WorkerInfo, slot: nat, completed: set<string>, leaseSeconds: real, now: real, t: real)
    | Resume(id: string)
    | Drain
    | Report(worker: string, slot: nat, result: TaskResult, t0: real, t1: real)
    | CancelTask(id: string)
    | RetryTask(id: string, t0: real, t1: real)
    | Reap(now: real, visits: seq<B.Visit>)
    | Die(worker: string, slot: nat)
    | Snapshot(now: real)

  ghost function Boot(maxDepth: int, clock: real): System {
    System(Start(maxDepth, clock), map[], {}, map[], map[], [], multiset{}, {}, [])
  }

  ghost predicate HasSlot(s: System, worker: string, slot: nat) {
    worker in s.slots && slot < |s.slots[worker]|
  }

  /** The reporter holds the task, whether or not it still holds the lease. */
  ghost predicate Reports(s: System, worker: string, slot: nat, r: TaskResult) {
    && HasSlot(s, worker, slot) && !s.slots[worker][slot].Free? && s.slots[worker][slot].id == r.taskId
    && r.workerId == worker && r.taskId in s.h.b.tasks
  }

  /** The handlers run one at a time; a worker id has one session; a thread may see an older set of completed tasks. */
  ghost predicate Enabled(s: System, step: Step) {
    match step
    case Launch(worker, _) => worker !in s.slots
    case Submit(item) => s.loop == [] && IsNew(s.h.b, item)
    case SubmitBatch(batch) => s.loop == [] && Fresh(s.h.b, batch)
    case Attempt(info, slot, completed, _, _, _) =>
      HasSlot(s, info.workerId, slot) && s.slots[info.workerId][slot].Free? && completed <= s.completed
    case Resume(id) => s.loop == [] && id in s.resume
    case Drain => s.loop != [] && s.loop[0].id in s.h.b.tasks
    case Report(worker, slot, r, _, _) => s.loop == [] && Reports(s, worker, slot, r)
    case CancelTask(id) => s.loop == [] && id in s.h.b.tasks
    case RetryTask(id, _, _) => s.loop == [] && id in s.h.b.tasks
    case Reap(_, visits) => DistinctVisits(visits) && forall id :: Visited(visits, id) <==> id in s.h.b.inflight
    case Die(worker, slot) => HasSlot(s, worker, slot) && s.slots[worker][slot].Holding?
    case Snapshot(_) => true
  }

  /** `result.error or "task failed"`. */
  ghost function Reason(error: Option<string>): string {
    if error.Some? && error.value != "" then error.value else "task failed"
  }

  /** The broker call of a report: it depends on the reported status only. */
  ghost function ReportOp(r: TaskResult, t0: real, t1: real): Op {
    match r.status
    case Succeeded => Operations.Complete(r.taskId, Succeeded, None)
    case Cancelled => Operations.Complete(r.taskId, Cancelled, r.error)
    case _ => Operations.Retry(r.taskId, Reason(r.error), t0, t1)
  }

  /** The broker call of a step, if it makes one. */
  ghost function OpOf(step: Step): Option<Op> {
    match step
    case Submit(item) => Some(SubmitOne(item))
    case SubmitBatch(batch) => Some(SubmitMany(batch))
    case Attempt(info, _, completed, leaseSeconds, now, t) => Some(Reserve(info, completed, leaseSeconds, now, t))
    case Report(_, _, r, t0, t1) => Some(ReportOp(r, t0, t1))
    case CancelTask(id) => Some(Operations.Cancel(id))
    case RetryTask(id, t0, t1) => Some(Operations.Retry(id, "manual retry", t0, t1))
    case Reap(now, visits) => Some(Requeue(now, visits))
    case Snapshot(now) => Some(Operations.Snapshot(now))
    case _ => None
  }

  ghost function Best(b: B.Broker, step: Step): Option<string>
    requires step.Attempt?
  {
    B.Reserve(b, step.info, step.completed, step.leaseSeconds, step.now, step.t).1
  }

  ghost function SetSlot(slots: map<string, seq<Slot>>, worker: string, slot: nat, x: Slot): map<string, seq<Slot>>
    requires worker in slots && slot < |slots[worker]|
  {
    slots[worker := slots[worker][slot := x]]
  }

  ghost function Upserts(batch: seq<B.Submission>): seq<Upsert> {
    seq(|batch|, i requires 0 <= i < |batch| => Upsert(batch[i].id, None))
  }

  /** A reservation that brought a task: the slot holds it, and its upsert is owed to the loop. */
  ghost function Delivered(s: System, worker: string, slot: nat, id: string): System
    requires HasSlot(s, worker, slot)
  {
    s.(slots := SetSlot(s.slots, worker, slot, Holding(id)),
       resume := s.resume + multiset{id},
       trace := s.trace + [Sent(id, worker)])
  }

  /** A report: the slot is free again, unless its loop had ended. */
  ghost function Settled(s: System, worker: string, slot: nat, r: TaskResult): System
    requires HasSlot(s, worker, slot)
  {
    s.(slots := if s.slots[worker][slot].Holding? then SetSlot(s.slots, worker, slot, Free) else s.slots,
       completed := if r.status.Succeeded? then s.completed + {r.taskId} else s.completed,
       results := s.results[r.taskId := r],
       loop := [Upsert(r.taskId, Some(r))],
       trace := if r.status.Succeeded? then s.trace + [Done(r.taskId)] else s.trace)
  }

  /** The next upsert writes what the task is now. */
  ghost function Drained(s: System): System
    requires s.loop != [] && s.loop[0].id in s.h.b.tasks
  {
    var u := s.loop[0];
    s.(rows := Upserted(s.rows, u.id, s.h.b.tasks[u.id], u.result), loop := s.loop[1..], orphans := s.orphans - {u.id})
  }

  /** A batch: when it does not fit, the tasks that were accepted are never upserted by this handler. */
  ghost function Batched(s: System, batch: seq<B.Submission>): System {
    var n := B.SubmitEach(s.h.b, batch).1;
    if n == |batch| then s.(loop := Upserts(batch)) else s.(orphans := s.orphans + BatchIds(batch[..n]))
  }

  ghost function Ended(s: System, worker: string, slot: nat): System
    requires HasSlot(s, worker, slot) && s.slots[worker][slot].Holding?
  {
    s.(slots := SetSlot(s.slots, worker, slot, Dead(s.slots[worker][slot].id)))
  }

  /** The engine's and the workers' part of a step, the broker being that before it. */
  ghost function Around(s: System, step: Step): System
    requires Enabled(s, step)
  {
    match step
    case Launch(worker, capacity) => s.(slots := s.slots[worker := seq(capacity, _ => Free)])
    case Submit(item) => if B.Depth(s.h.b) < s.h.b.maxDepth then s.(loop := [Upsert(item.id, None)]) else s
    case SubmitBatch(batch) => Batched(s, batch)
    case Attempt(info, slot, _, _, _, _) =>
      if Best(s.h.b, step).Some? then Delivered(s, info.workerId, slot, Best(s.h.b, step).value) else s
    case Resume(id) => s.(resume := s.resume - multiset{id}, loop := [Upsert(id, None)])
    case Drain => Drained(s)
    case Report(worker, slot, r, _, _) => Settled(s, worker, slot, r)
    case CancelTask(id) => s.(loop := [Upsert(id, None)])
    case RetryTask(id, _, _) => s.(loop := [Upsert(id, None)])
    case Reap(now, visits) => s.(resume := s.resume + Bag(B.Requeue(s.h.b, now, visits).1))
    case Die(worker, slot) => Ended(s, worker, slot)
    case Snapshot(_) => s
  }

  /** A step that is not enabled does not happen. */
  ghost function Do(s: System, step: Step): System {
    if !Enabled(s, step) then s
    else
      var op := OpOf(step);
      Around(s, step).(h := if op.Some? then Operate(s.h, op.value) else s.h)
  }

  ghost function Run(s: System, steps: seq<Step>): System {
    if steps == [] then s else Do(Run(s, steps[..|steps| - 1]), steps[|steps| - 1])
  }
}
