/**
 * taskrunner/queue/broker.py in its own form: `InMemoryTaskQueue` with its heaps, tables and shared
 * task envelopes. Every method is proved against the function of the same name in BrokerModel.
 * The clock readings a method takes, and the order in which it walks a set or a dictionary, are
 * parameters.
 */
module TaskQueue {
  import opened Models
  import opened Ordering
  import opened Bags
  import opened EntryHeaps
  import opened ReadyHeaps
  import B = BrokerModel

  class TaskEnvelope {
    const taskId: string
    const createdAt: real
    var spec: TaskSpec
    var availableAt: real
    var attempts: nat
    var status: TaskStatus
    var lastError: Option<string>
    var assignedWorker: Option<string>
    var leaseDeadline: Option<real>

    function Value(): Task
      reads this
    {
      Task(spec, createdAt, availableAt, attempts, status, lastError, assignedWorker, leaseDeadline)
    }

    constructor (taskId: string, spec: TaskSpec, createdAt: real, availableAt: real)
      ensures this.taskId == taskId
      ensures Value() == Task(spec, createdAt, availableAt, 0, Pending, None, None, None)
    {
      this.taskId, this.spec, this.createdAt, this.availableAt := taskId, spec, createdAt, availableAt;
      attempts, status := 0, Pending;
      lastError, assignedWorker, leaseDeadline := None, None, None;
    }

    method MarkQueued(t0: real)
      modifies this
      ensures status == Queued && NormalFormOf(spec, old(spec))
      ensures availableAt == if old(spec).delaySeconds > 0.0 then t0 + old(spec).delaySeconds else t0
      ensures Value() == old(Value()).(spec := spec, status := status, availableAt := availableAt)
      ensures Value() == B.Enqueued(old(Value()), t0)
    {
      spec := spec.Normalized();
      status := Queued;
      availableAt := t0 + spec.delaySeconds;
    }

    method MarkRunning(worker: string, deadline: real)
      modifies this
      ensures Value() == old(Value()).(status := Running, assignedWorker := Some(worker), leaseDeadline := Some(deadline))
    {
      status := Running;
      assignedWorker := Some(worker);
      leaseDeadline := Some(deadline);
    }

    method MarkCompleted(status: TaskStatus, error: Option<string>)
      modifies this
      ensures Value() == old(Value()).(status := status, lastError := error, leaseDeadline := None)
    {
      this.status := status;
      lastError := error;
      leaseDeadline := None;
    }

    method MarkRetried(reason: string, t0: real)
      modifies this
      ensures attempts == old(attempts) + 1 && lastError == Some(reason)
      ensures assignedWorker == None && leaseDeadline == None && spec == old(spec)
      ensures old(attempts) >= spec.maxRetries ==> status == DeadLettered && availableAt == old(availableAt)
      ensures old(attempts) < spec.maxRetries ==>
                status == Retrying && availableAt == t0 + spec.retryBackoffSeconds * (old(attempts) + 1) as real
      ensures Value() == B.Retried(old(Value()), reason, t0)
    {
      attempts := attempts + 1;
      lastError := Some(reason);
      assignedWorker := None;
      leaseDeadline := None;
      if attempts > spec.maxRetries {
        status := DeadLettered;
      } else {
        status := Retrying;
        availableAt := t0 + spec.retryBackoffSeconds * attempts as real;
      }
    }

    method MarkCancelled()
      modifies this
      ensures Value() == old(Value()).(status := Cancelled)
    {
      status := Cancelled;
    }
  }

  /** Every object of one table is the object the other holds under the same id. */
  ghost predicate Within(part: map<string, TaskEnvelope>, whole: map<string, TaskEnvelope>) {
    forall id {:trigger part[id]} | id in part :: id in whole && part[id] == whole[id]
  }

  lemma WithinGrow(part: map<string, TaskEnvelope>, whole: map<string, TaskEnvelope>, id: string, task: TaskEnvelope)
    requires Within(part, whole) && id !in whole
    ensures Within(part, whole[id := task])
  {
  }

  lemma WithinShrink(part: map<string, TaskEnvelope>, whole: map<string, TaskEnvelope>, id: string)
    requires Within(part, whole)
    ensures Within(part - {id}, whole)
  {
  }

  lemma WithinAdd(part: map<string, TaskEnvelope>, whole: map<string, TaskEnvelope>, id: string)
    requires Within(part, whole) && id in whole
    ensures Within(part[id := whole[id]], whole)
  {
  }

  /** A table of task objects holds these ids and these values. */
  ghost predicate Match(objects: map<string, TaskEnvelope>, table: map<string, Task>)
    reads objects.Values
  {
    && objects.Keys == table.Keys
    && (forall id {:trigger objects[id]} | id in objects ::
          objects[id].taskId == id && objects[id].Value() == table[id])
  }

  /** The same for all objects but one. */
  ghost predicate MatchBut(objects: map<string, TaskEnvelope>, table: map<string, Task>, task: TaskEnvelope)
    reads objects.Values - {task}
  {
    && objects.Keys == table.Keys && task.taskId in objects && objects[task.taskId] == task
    && (forall id {:trigger objects[id]} | id in objects && id != task.taskId ::
          objects[id] != task && objects[id].taskId == id && objects[id].Value() == table[id])
  }

  lemma SetAside(objects: map<string, TaskEnvelope>, table: map<string, Task>, task: TaskEnvelope)
    requires Match(objects, table) && task.taskId in objects && objects[task.taskId] == task
    ensures MatchBut(objects, table, task) && task.Value() == table[task.taskId]
  {
  }

  /** Changing one object's fields changes one row. */
  lemma PutBack(objects: map<string, TaskEnvelope>, table: map<string, Task>, task: TaskEnvelope)
    requires MatchBut(objects, table, task)
    ensures Match(objects, table[task.taskId := task.Value()])
  {
  }

  /** Adding an object with a fresh id adds one row. */
  lemma Added(objects: map<string, TaskEnvelope>, table: map<string, Task>, task: TaskEnvelope)
    requires Match(objects, table) && task.taskId !in objects
    ensures Match(objects[task.taskId := task], table[task.taskId := task.Value()])
  {
  }

  /** The visits name every one of the ids once. */
  ghost predicate Enumerates(visits: seq<B.Visit>, ids: set<string>) {
    && (forall i | 0 <= i < |visits| :: visits[i].id in ids)
    && (forall id | id in ids :: exists i :: 0 <= i < |visits| && visits[i].id == id)
    && (forall i, j | 0 <= i < j < |visits| :: visits[i].id != visits[j].id)
  }

  ghost predicate Listed(tasks: map<string, TaskEnvelope>, task: TaskEnvelope, id: string) {
    id in tasks && tasks[id] == task && task.taskId == id
  }

  /** The objects are those the table holds under the ids, in order. */
  predicate Denotes(objects: seq<TaskEnvelope>, tasks: map<string, TaskEnvelope>, ids: seq<string>) {
    |objects| == |ids| && forall i | 0 <= i < |ids| :: ids[i] in tasks && objects[i] == tasks[ids[i]]
  }

  lemma DenotesMore(objects: seq<TaskEnvelope>, tasks: map<string, TaskEnvelope>, ids: seq<string>, task: TaskEnvelope, id: string)
    requires Denotes(objects, tasks, ids) && Listed(tasks, task, id)
    ensures Denotes(objects + [task], tasks, ids + [id])
  {
  }

  /** tasks is tasks0 with the first n envelopes of a batch added. */
  ghost predicate Registers(tasks0: map<string, TaskEnvelope>, batch: seq<TaskEnvelope>, n: nat,
                            tasks: map<string, TaskEnvelope>)
    requires n <= |batch|
  {
    && (forall id :: id in tasks <==> id in tasks0 || exists i :: 0 <= i < n && batch[i].taskId == id)
    && (forall i | 0 <= i < n :: batch[i].taskId in tasks && tasks[batch[i].taskId] == batch[i])
    && (forall id | id in tasks0 :: id in tasks && tasks[id] == tasks0[id])
  }

  lemma RegistersMore(tasks0: map<string, TaskEnvelope>, batch: seq<TaskEnvelope>, n: nat, tasks: map<string, TaskEnvelope>)
    requires n < |batch| && Registers(tasks0, batch, n, tasks) && batch[n].taskId !in tasks
    ensures Registers(tasks0, batch, n + 1, tasks[batch[n].taskId := batch[n]])
  {
  }

  lemma QuotientTimes(x: real, y: real)
    requires y > 0.0
    ensures x / y * y == x
  {
  }

  /** The fields of a snapshot: the pressure is the share of the maximal depth, or of 1, that the counts make up. */
  lemma SnapshotOf(b: B.Broker)
    ensures var s, n := B.Snapshot(b), if b.maxDepth > 1 then b.maxDepth else 1;
            && s.queued == |b.ready| && s.delayed == |b.delayed| && s.inflight == |b.inflight|
            && s.deadLettered == |b.deadLetter|
            && s.pressure == (s.queued + s.delayed + s.inflight) as real / n as real
            && s.pressure * n as real == (s.queued + s.delayed + s.inflight) as real
  {
    var n := if b.maxDepth > 1 then b.maxDepth else 1;
    QuotientTimes((|b.ready| + |b.delayed| + |b.inflight|) as real, n as real);
  }

  class InMemoryTaskQueue {
    const maxDepth: int
    var ready: Heaps
    var delayed: seq<DelayedEntry>
    var tasks: map<string, TaskEnvelope>
    var inflight: map<string, TaskEnvelope>
    var deadLetter: map<string, TaskEnvelope>
    var cancelled: set<string>
    var sequence: nat

    /** The state as a value: what the methods' contracts speak of. */
    ghost var model: B.Broker

    /** The model holds the values of the task objects and the keys of the tables. */
    ghost predicate TablesOk()
      reads this, tasks.Values
    {
      && Match(tasks, model.tasks)
      && Within(inflight, tasks) && inflight.Keys == model.inflight
      && Within(deadLetter, tasks) && deadLetter.Keys == model.deadLetter
      && maxDepth == model.maxDepth && cancelled == model.cancelled && sequence == model.sequence
    }

    /** In addition the heaps are heaps and hold the model's entries. */
    ghost predicate Valid()
      reads this, tasks.Values
    {
      TablesOk() && Holds(ready, delayed, model)
    }

    constructor (maxDepth: int)
      ensures Valid() && model == B.Empty(maxDepth)
      ensures tasks == map[]
    {
      this.maxDepth := maxDepth;
      ready, delayed := map[], [];
      tasks, inflight, deadLetter := map[], map[], map[];
      cancelled, sequence := {}, 0;
      model := B.Empty(maxDepth);
    }

    /** The object of a known task holds the task's row. */
    lemma Row(id: string)
      requires Valid()
      ensures id in tasks <==> id in model.tasks
      ensures id in tasks ==> tasks[id].taskId == id && tasks[id].Value() == model.tasks[id]
    {
    }

    /** `_push`. */
    method Push(task: TaskEnvelope, now: real)
      requires Valid() && task.taskId in tasks && tasks[task.taskId] == task
      modifies `sequence, `delayed, `ready, `model
      ensures Valid() && model == B.Push(old(model), task.taskId, now)
    {
      hide Holds;
      B.PushKeeps(model, task.taskId, now);
      var n := sequence + 1;
      var r, d := PushTask(ready, delayed, model, task.taskId, task.Value(), n, now);
      sequence, ready, delayed, model := n, r, d, B.Push(model, task.taskId, now);
    }

    /** `depth`. */
    method Depth() returns (n: nat)
      requires Valid()
      ensures n == B.Depth(model)
    {
      var terminal := set id | id in tasks && Terminal(tasks[id].status);
      assert tasks.Keys == terminal + B.Active(model);
      n := |tasks| - |terminal|;
    }

    /** `self._tasks[task.task_id] = task`. */
    method AddTask(task: TaskEnvelope)
      requires Valid() && task.taskId !in tasks
      modifies `tasks, `model
      ensures Valid() && tasks == old(tasks)[task.taskId := task]
      ensures model == old(model).(tasks := old(model).tasks[task.taskId := task.Value()])
    {
      ghost var b := model.(tasks := model.tasks[task.taskId := task.Value()]);
      assert task.taskId !in model.tasks;
      HoldsGrow(ready, delayed, model, b);
      WithinGrow(inflight, tasks, task.taskId, task);
      WithinGrow(deadLetter, tasks, task.taskId, task);
      Added(tasks, model.tasks, task);
      hide Holds, Match, Within;
      tasks, model := tasks[task.taskId := task], b;
    }

    /** The accepting part of `submit`, which `submit_many` repeats. */
    method Admit(task: TaskEnvelope, t0: real, t1: real)
      requires Valid() && task.taskId !in tasks
      modifies this, task
      ensures Valid()
      ensures model == B.Enqueue(old(model), task.taskId, old(task.Value()), t0, t1)
      ensures tasks == old(tasks)[task.taskId := task]
    {
      hide Holds, Within, B.Push, B.Enqueued;
      task.MarkQueued(t0);
      AddTask(task);
      Push(task, t1);
    }

    /** `submit` of an envelope with a fresh id. */
    method Submit(task: TaskEnvelope, t0: real, t1: real) returns (ok: bool)
      requires Valid() && task.taskId !in tasks
      modifies this, task
      ensures Valid()
      ensures (model, ok) == B.Submit(old(model), task.taskId, old(task.Value()), t0, t1)
      ensures tasks == if ok then old(tasks)[task.taskId := task] else old(tasks)
      ensures !ok ==> task.Value() == old(task.Value())
    {
      var depth := Depth();
      if depth >= maxDepth {
        return false;
      }
      Admit(task, t0, t1);
      ok := true;
    }

    // ---------- Promotion ----------

    /** The loop of `_promote_delayed_locked`. */
    method PromoteHeaps(now: real) returns (r: Heaps, d: seq<DelayedEntry>)
      requires Valid()
      ensures Holds(r, d, B.Promote(model, now))
    {
      r, d := ready, delayed;
      ghost var taken: multiset<DelayedEntry> := multiset{};
      B.NothingPromoted(model);
      hide Holds, B.PartlyPromoted, B.Promote;
      while d != [] && d[0].availableAt <= now
        invariant taken <= model.delayed
        invariant forall e | e in taken :: e.availableAt <= now
        invariant Holds(r, d, B.PartlyPromoted(model, taken))
        decreases |d|
      {
        var e;
        e, d := TakeEarliest(r, d, model, taken);
        var task := tasks[e.id];
        var live := !task.status.Cancelled? && !task.status.DeadLettered?;
        r := PlaceDue(r, d, model, taken, e, live, task.spec.queue,
                      ReadyEntry(task.spec.priority, task.createdAt, sequence, e.id));
        taken := taken + multiset{e};
      }
      NoneDue(r, d, B.PartlyPromoted(model, taken), now);
      B.PromotionDone(model, taken, now);
    }

    method PromoteDelayed(now: real)
      requires Valid()
      modifies `ready, `delayed, `model
      ensures Valid() && model == B.Promote(old(model), now)
    {
      B.PromoteKeeps(model, now);
      hide Holds, B.Promote;
      var r, d := PromoteHeaps(now);
      ready, delayed, model := r, d, B.Promote(model, now);
    }

    // ---------- Changing one task ----------

    /** The field assignments of `reserve`. */
    method RunTask(task: TaskEnvelope, worker: string, deadline: real)
      requires Valid() && task.taskId in tasks && tasks[task.taskId] == task
      modifies `model, task
      ensures Valid()
      ensures model == old(model).(tasks := old(model).tasks[task.taskId := old(model).tasks[task.taskId].(
                status := Running, assignedWorker := Some(worker), leaseDeadline := Some(deadline))])
    {
      ghost var b := model.(tasks := model.tasks[task.taskId := model.tasks[task.taskId].(
                       status := Running, assignedWorker := Some(worker), leaseDeadline := Some(deadline))]);
      HoldsGrow(ready, delayed, model, b);
      SetAside(tasks, model.tasks, task);
      hide Holds, Match, MatchBut, Within;
      task.MarkRunning(worker, deadline);
      PutBack(tasks, model.tasks, task);
      model := b;
    }

    /** The field assignments of `complete`. */
    method CompleteTask(task: TaskEnvelope, status: TaskStatus, error: Option<string>)
      requires Valid() && task.taskId in tasks && tasks[task.taskId] == task
      modifies `model, task
      ensures Valid()
      ensures model == old(model).(tasks := old(model).tasks[task.taskId := old(model).tasks[task.taskId].(
                status := status, lastError := error, leaseDeadline := None)])
    {
      ghost var b := model.(tasks := model.tasks[task.taskId := model.tasks[task.taskId].(
                       status := status, lastError := error, leaseDeadline := None)]);
      HoldsGrow(ready, delayed, model, b);
      SetAside(tasks, model.tasks, task);
      hide Holds, Match, MatchBut, Within;
      task.MarkCompleted(status, error);
      PutBack(tasks, model.tasks, task);
      model := b;
    }

    /** The field assignments of `retry`. */
    method RetryTask(task: TaskEnvelope, reason: string, t0: real)
      requires Valid() && task.taskId in tasks && tasks[task.taskId] == task
      modifies `model, task
      ensures Valid()
      ensures model == old(model).(tasks := old(model).tasks[task.taskId := B.Retried(old(model).tasks[task.taskId], reason, t0)])
      ensures task.Value() == model.tasks[task.taskId]
    {
      ghost var b := model.(tasks := model.tasks[task.taskId := B.Retried(model.tasks[task.taskId], reason, t0)]);
      HoldsGrow(ready, delayed, model, b);
      SetAside(tasks, model.tasks, task);
      hide Holds, Match, MatchBut, Within;
      task.MarkRetried(reason, t0);
      PutBack(tasks, model.tasks, task);
      model := b;
    }

    /** The field assignment of `cancel`. */
    method CancelTask(task: TaskEnvelope)
      requires Valid() && task.taskId in tasks && tasks[task.taskId] == task
      modifies `model, task
      ensures Valid()
      ensures model == old(model).(tasks := old(model).tasks[task.taskId := old(model).tasks[task.taskId].(status := Cancelled)])
    {
      ghost var b := model.(tasks := model.tasks[task.taskId := model.tasks[task.taskId].(status := Cancelled)]);
      HoldsGrow(ready, delayed, model, b);
      SetAside(tasks, model.tasks, task);
      hide Holds, Match, MatchBut, Within;
      task.MarkCancelled();
      PutBack(tasks, model.tasks, task);
      model := b;
    }

    /** `self._inflight.pop(task_id, None)`. */
    method PopInflight(id: string)
      requires Valid()
      modifies `inflight, `model
      ensures Valid() && model == old(model).(inflight := old(model).inflight - {id})
    {
      ghost var b := model.(inflight := model.inflight - {id});
      HoldsGrow(ready, delayed, model, b);
      WithinShrink(inflight, tasks, id);
      hide Holds, Match, Within;
      inflight, model := inflight - {id}, b;
    }

    /** `self._inflight[task.task_id] = task`. */
    method PutInflight(task: TaskEnvelope)
      requires Valid() && task.taskId in tasks && tasks[task.taskId] == task
      modifies `inflight, `model
      ensures Valid() && model == old(model).(inflight := old(model).inflight + {task.taskId})
    {
      ghost var b := model.(inflight := model.inflight + {task.taskId});
      HoldsGrow(ready, delayed, model, b);
      WithinAdd(inflight, tasks, task.taskId);
      hide Holds, Match, Within;
      inflight, model := inflight[task.taskId := task], b;
    }

    /** `self._dead_letter[task.task_id] = task`. */
    method PutDeadLetter(task: TaskEnvelope)
      requires Valid() && task.taskId in tasks && tasks[task.taskId] == task
      modifies `deadLetter, `model
      ensures Valid() && model == old(model).(deadLetter := old(model).deadLetter + {task.taskId})
    {
      ghost var b := model.(deadLetter := model.deadLetter + {task.taskId});
      HoldsGrow(ready, delayed, model, b);
      WithinAdd(deadLetter, tasks, task.taskId);
      hide Holds, Match, Within;
      deadLetter, model := deadLetter[task.taskId := task], b;
    }

    /** `self._cancelled.add(task_id)`. */
    method AddCancelled(id: string)
      requires Valid()
      modifies `cancelled, `model
      ensures Valid() && model == old(model).(cancelled := old(model).cancelled + {id})
    {
      ghost var b := model.(cancelled := model.cancelled + {id});
      HoldsGrow(ready, delayed, model, b);
      hide Holds, Match, Within;
      cancelled, model := cancelled + {id}, b;
    }

    // ---------- Reservation ----------

    /** `worker.accepts(task) and dependencies_ready`, for a task that is not cancelled. */
    method Takes(w: WorkerInfo, completed: set<string>, id: string) returns (ok: bool)
      requires Valid() && id in model.tasks && id !in cancelled
      ensures ok == B.CanTake(model, w, completed, id)
    {
      assert tasks[id].Value() == model.tasks[id];
      var spec := tasks[id].spec;
      ok := w.Accepts(spec) && spec.dependsOn <= completed;
    }

    /** The part of the scan that empties one heap: what is retained, and what the worker may take. */
    method ScanHeap(heap: seq<ReadyEntry>, w: WorkerInfo, completed: set<string>)
      returns (kept: seq<ReadyEntry>, found: seq<ReadyEntry>)
      requires Valid() && ReadyHeap(heap) && forall e | e in Bag(heap) :: e.id in model.tasks
      ensures ReadyHeap(kept)
      ensures forall e :: Bag(kept)[e] == if e.id in model.cancelled then 0 else Bag(heap)[e]
      ensures forall e :: e in found <==> e in Bag(heap) && B.CanTake(model, w, completed, e.id)
    {
      hide Holds, Within, Match;
      var queue := heap;
      var retained: seq<ReadyEntry> := [];
      found := [];
      ghost var seen: multiset<ReadyEntry> := multiset{};
      while queue != []
        invariant ReadyHeap(queue) && Bag(heap) == Bag(queue) + seen
        invariant Retained(retained, seen, cancelled)
        invariant FoundIn(found, seen, model, w, completed)
        decreases |queue|
      {
        var e;
        e, queue := PopReady(queue);
        assert e in Bag(heap);
        RetainedMore(retained, seen, cancelled, e);
        FoundMore(found, seen, model, w, completed, e);
        seen := seen + multiset{e};
        if e.id !in cancelled {
          retained := retained + [e];
          var ok := Takes(w, completed, e.id);
          if ok {
            found := found + [e];
          }
        }
      }
      kept := Refill(retained);
    }

    /** The loop over the worker's queues, in the order in which the set yields them. */
    method ScanQueues(w: WorkerInfo, order: seq<string>, completed: set<string>)
      returns (r: Heaps, candidates: seq<(ReadyEntry, string)>)
      requires Valid() && w.queues == set q | q in order
      ensures Holds(r, delayed, B.DropCancelled(model, w.queues))
      ensures CandidatesOk(candidates, model, w, completed, w.queues)
    {
      r, candidates := ready, [];
      ghost var scanned: set<string> := {};
      B.DropNothing(model);
      hide Holds, Within, Match, B.DropCancelled;
      for i := 0 to |order|
        invariant scanned == set q | q in order[..i]
        invariant Holds(r, delayed, B.DropCancelled(model, scanned))
        invariant CandidatesOk(candidates, model, w, completed, scanned)
      {
        var q := order[i];
        var heap := HeapOf(r, q);
        ghost var d := B.DropCancelled(model, scanned);
        B.DropKeeps(model, scanned);
        B.DropOneMore(model, scanned, q);
        HeapUsable(r, delayed, d, q);
        if heap == [] {
          CandidatesMore(r, delayed, model, w, completed, scanned, candidates, q, []);
          HoldsDropEmpty(r, delayed, d, q);
          assert candidates + Tag([], q) == candidates;
        } else {
          var kept, found := ScanHeap(heap, w, completed);
          CandidatesMore(r, delayed, model, w, completed, scanned, candidates, q, found);
          HoldsDrop(r, delayed, d, q, kept);
          r := r[q := kept];
          candidates := candidates + Tag(found, q);
        }
        assert order[..i + 1] == order[..i] + [q];
        scanned := scanned + {q};
      }
      assert order[..|order|] == order;
    }

    /** The heap part of `_pop_eligible_locked`, and the id of the least eligible entry if there is one. */
    method SelectEligible(w: WorkerInfo, order: seq<string>, completed: set<string>)
      returns (r: Heaps, best: Option<string>)
      requires Valid() && w.queues == set q | q in order
      ensures Holds(r, delayed, B.PopEligible(model, w, completed).0)
      ensures best == B.PopEligible(model, w, completed).1
      ensures best.Some? ==> best.value in tasks
    {
      ghost var d := B.DropCancelled(model, w.queues);
      ghost var eligible := B.Eligible(d, w, completed);
      B.ScanFindsEligible(model, w, completed);
      B.DropKeeps(model, w.queues);
      hide Holds, Within, B.DropCancelled, B.Eligible;
      var candidates;
      r, candidates := ScanQueues(w, order, completed);
      if candidates == [] {
        return r, None;
      }
      var e, q := MinCandidate(candidates);
      assert candidates[0].0 in Found(candidates);
      LeastUnique(e, Least(eligible), eligible);
      B.EligibleMember(d, w, completed, e);
      r := RemoveEntry(r, delayed, d, q, e);
      best := Some(e.id);
    }

    /** `_pop_eligible_locked`: discards the cancelled entries of the worker's queues, takes the least eligible one. */
    method PopEligible(w: WorkerInfo, order: seq<string>, completed: set<string>) returns (task: TaskEnvelope?)
      requires Valid() && w.queues == set q | q in order
      modifies `ready, `model
      ensures Valid() && model == B.PopEligible(old(model), w, completed).0
      ensures match B.PopEligible(old(model), w, completed).1
              case None => task == null
              case Some(id) => id in tasks && task == tasks[id] && task.taskId == id
    {
      B.PopKeeps(model, w, completed);
      hide Holds, Within, B.PopEligible;
      var r, best := SelectEligible(w, order, completed);
      task := null;
      if best.Some? {
        task := tasks[best.value];
        assert task.taskId == best.value;
      }
      hide Match;
      ready, model := r, B.PopEligible(model, w, completed).0;
    }

    /** One attempt of `reserve`. */
    method Reserve(w: WorkerInfo, order: seq<string>, completed: set<string>, leaseSeconds: real, now: real, t: real)
      returns (task: TaskEnvelope?)
      requires Valid() && w.queues == set q | q in order
      modifies `inflight, `deadLetter, `ready, `delayed, `sequence, `model, tasks.Values
      ensures Valid()
      ensures model == B.Reserve(old(model), w, completed, leaseSeconds, now, t).0
      ensures match B.Reserve(old(model), w, completed, leaseSeconds, now, t).1
              case None => task == null
              case Some(id) => id in tasks && task == tasks[id]
    {
      hide Holds, Within, Match, B.Promote, B.PopEligible;
      PromoteDelayed(now);
      task := PopEligible(w, order, completed);
      if task != null {
        RunTask(task, w.workerId, t + leaseSeconds);
        PutInflight(task);
      }
    }

    // ---------- Completion, retry, cancellation ----------

    /** The object a task id denotes, as a frame. */
    ghost function ObjectOf(id: string): set<object>
      reads this
    {
      if id in tasks then {tasks[id]} else {}
    }

    /** `complete` of a task that was found. */
    method CompleteKnown(task: TaskEnvelope, status: TaskStatus, error: Option<string>)
      requires Valid() && task.taskId in tasks && tasks[task.taskId] == task
      modifies `inflight, `deadLetter, `ready, `delayed, `sequence, `model, task
      ensures Valid()
      ensures model == B.Complete(old(model), task.taskId, status, error)
    {
      assert task.taskId in model.tasks;
      hide Holds, TablesOk;
      PopInflight(task.taskId);
      CompleteTask(task, status, error);
      if status.DeadLettered? {
        PutDeadLetter(task);
      }
    }

    /** `complete`; null stands for TaskNotFoundError. */
    method Complete(id: string, status: TaskStatus, error: Option<string>) returns (task: TaskEnvelope?)
      requires Valid()
      modifies `inflight, `deadLetter, `ready, `delayed, `sequence, `model, ObjectOf(id)
      ensures Valid()
      ensures task == if id in tasks then tasks[id] else null
      ensures model == if id in old(model).tasks then B.Complete(old(model), id, status, error) else old(model)
    {
      if id !in tasks {
        return null;
      }
      task := tasks[id];
      assert task.taskId == id && id in model.tasks;
      hide Holds, TablesOk, B.Complete;
      CompleteKnown(task, status, error);
    }

    /** `retry` of a task that was found. */
    method RetryKnown(task: TaskEnvelope, reason: string, t0: real, t1: real)
      requires Valid() && task.taskId in tasks && tasks[task.taskId] == task
      modifies `inflight, `deadLetter, `ready, `delayed, `sequence, `model, task
      ensures Valid()
      ensures model == B.Retry(old(model), task.taskId, reason, t0, t1)
    {
      assert task.taskId in model.tasks;
      hide Valid, B.Push, B.Retried;
      ghost var t, b := B.Retried(model.tasks[task.taskId], reason, t0), model;
      PopInflight(task.taskId);
      RetryTask(task, reason, t0);
      assert model == b.(tasks := b.tasks[task.taskId := t], inflight := b.inflight - {task.taskId});
      assert task.status == t.status;
      if task.status.DeadLettered? {
        PutDeadLetter(task);
      } else {
        Push(task, t1);
      }
    }

    /** `retry`. */
    method Retry(id: string, reason: string, t0: real, t1: real) returns (task: TaskEnvelope?)
      requires Valid()
      modifies `inflight, `deadLetter, `ready, `delayed, `sequence, `model, ObjectOf(id)
      ensures Valid()
      ensures task == if id in tasks then tasks[id] else null
      ensures model == if id in old(model).tasks then B.Retry(old(model), id, reason, t0, t1) else old(model)
    {
      if id !in tasks {
        return null;
      }
      task := tasks[id];
      assert task.taskId == id && id in model.tasks;
      hide Holds, TablesOk, B.Retry;
      RetryKnown(task, reason, t0, t1);
    }

    /** `cancel`. */
    method Cancel(id: string) returns (task: TaskEnvelope?)
      requires Valid()
      modifies `inflight, `deadLetter, `ready, `delayed, `sequence, `model, `cancelled, ObjectOf(id)
      ensures Valid()
      ensures task == if id in tasks then tasks[id] else null
      ensures model == if id in old(model).tasks then B.Cancel(old(model), id) else old(model)
    {
      if id !in tasks {
        return null;
      }
      task := tasks[id];
      assert task.taskId == id && id in model.tasks;
      hide Holds, TablesOk, B.Push;
      CancelTask(task);
      AddCancelled(id);
      PopInflight(id);
    }

    // ---------- Batches, reaping, snapshot ----------

    /** The envelopes of the batch from i on are not in the table yet and hold the submitted values. */
    ghost predicate Waiting(batch: seq<TaskEnvelope>, subs: seq<B.Submission>, i: nat)
      requires |batch| == |subs|
      reads `tasks, set task | task in batch
    {
      forall j | i <= j < |batch| :: batch[j].taskId !in tasks && batch[j].Value() == subs[j].task
    }

    /** The accepting part of one turn of the batch loop. */
    method AdmitNext(batch: seq<TaskEnvelope>, ghost subs: seq<B.Submission>, i: nat, t0: real, t1: real)
      requires Valid() && |batch| == |subs| && i < |batch| && Waiting(batch, subs, i)
      requires forall j | i < j < |batch| :: batch[i].taskId != batch[j].taskId
      modifies this, batch[i]
      ensures Valid() && model == B.Enqueue(old(model), batch[i].taskId, subs[i].task, t0, t1)
      ensures tasks == old(tasks)[batch[i].taskId := batch[i]] && Waiting(batch, subs, i + 1)
    {
      hide Holds, Match, Within, B.Enqueue;
      Admit(batch[i], t0, t1);
    }

    /** The batch loop has accepted the first i envelopes, starting from b0 and tasks0. */
    ghost predicate Accepted(batch: seq<TaskEnvelope>, subs: seq<B.Submission>, i: nat, b0: B.Broker,
                             tasks0: map<string, TaskEnvelope>)
      requires i <= |batch| == |subs|
      reads this, tasks.Values, set task | task in batch
    {
      && Valid() && (model, i) == B.SubmitEach(b0, subs[..i])
      && Registers(tasks0, batch, i, tasks) && Waiting(batch, subs, i)
    }

    /** One turn of the batch loop. */
    method SubmitNext(batch: seq<TaskEnvelope>, ghost subs: seq<B.Submission>, i: nat, t0: real, t1: real,
                      ghost b0: B.Broker, ghost tasks0: map<string, TaskEnvelope>)
      returns (ok: bool)
      requires i < |batch| == |subs| && Accepted(batch, subs, i, b0, tasks0)
      requires subs[i].id == batch[i].taskId && subs[i].t0 == t0 && subs[i].t1 == t1
      requires forall j | i < j < |batch| :: batch[i].taskId != batch[j].taskId
      modifies this, batch[i]
      ensures ok ==> Accepted(batch, subs, i + 1, b0, tasks0)
      ensures !ok ==> Valid() && (model, i) == B.SubmitEach(b0, subs) && Registers(tasks0, batch, i, tasks)
    {
      B.SubmitEachStep(b0, subs, i);
      assert maxDepth == model.maxDepth;
      RegistersMore(tasks0, batch, i, tasks);
      hide Valid, Waiting, Registers, B.Enqueue, B.SubmitEach, B.Depth;
      var depth := Depth();
      if depth >= maxDepth {
        B.RefusalEnds(b0, subs, i + 1);
        return false;
      }
      AdmitNext(batch, subs, i, t0, t1);
      ok := true;
    }

    /** `submit_many`: false stands for QueueFullError, which leaves the accepted prefix in place. */
    method SubmitMany(batch: seq<TaskEnvelope>, clocks: seq<(real, real)>, ghost subs: seq<B.Submission>) returns (ok: bool)
      requires Valid() && |batch| == |clocks| == |subs| && Waiting(batch, subs, 0)
      requires forall i, j | 0 <= i < j < |batch| :: batch[i].taskId != batch[j].taskId
      requires forall i | 0 <= i < |batch| ::
                 subs[i].id == batch[i].taskId && subs[i].t0 == clocks[i].0 && subs[i].t1 == clocks[i].1
      modifies this, set task | task in batch
      ensures Valid()
      ensures model == B.SubmitEach(old(model), subs).0 && ok == (B.SubmitEach(old(model), subs).1 == |batch|)
      ensures Registers(old(tasks), batch, B.SubmitEach(old(model), subs).1, tasks)
    {
      for i := 0 to |batch|
        invariant Accepted(batch, subs, i, old(model), old(tasks))
      {
        hide Accepted, Valid, B.SubmitEach;
        ok := SubmitNext(batch, subs, i, clocks[i].0, clocks[i].1, old(model), old(tasks));
        if !ok {
          return;
        }
      }
      assert subs[..|batch|] == subs;
      ok := true;
    }

    /** `task.assigned_worker = None` in the reaping loop. */
    method UnassignTask(task: TaskEnvelope)
      requires Valid() && task.taskId in tasks && tasks[task.taskId] == task
      modifies `model, task
      ensures Valid()
      ensures model == old(model).(tasks := old(model).tasks[task.taskId :=
                                   old(model).tasks[task.taskId].(assignedWorker := None)])
    {
      ghost var b := model.(tasks := model.tasks[task.taskId := model.tasks[task.taskId].(assignedWorker := None)]);
      HoldsGrow(ready, delayed, model, b);
      SetAside(tasks, model.tasks, task);
      hide Holds, Match, MatchBut, Within;
      task.assignedWorker := None;
      PutBack(tasks, model.tasks, task);
      model := b;
    }

    /** The body of the reaping loop for one task of the snapshot. */
    method VisitLease(task: TaskEnvelope, now: real, t0: real, t1: real) returns (hit: bool)
      requires Valid() && task.taskId in tasks && tasks[task.taskId] == task
      modifies `inflight, `deadLetter, `ready, `delayed, `sequence, `model, task
      ensures Valid() && hit == B.LeaseExpired(old(model), task.taskId, now)
      ensures hit == (old(task.leaseDeadline).Some? && old(task.leaseDeadline).value < now)
      ensures model == if hit then B.Retry(old(model), task.taskId, "lease expired", t0, t1) else old(model)
    {
      assert task.taskId in model.tasks && task.Value() == model.tasks[task.taskId];
      hide Holds, Match, Within, B.Retry;
      hit := task.leaseDeadline.Some? && task.leaseDeadline.value < now;
      if hit {
        B.RetryAbsorbs(model, task.taskId, "lease expired", t0, t1);
        PopInflight(task.taskId);
        UnassignTask(task);
        var _ := Retry(task.taskId, "lease expired", t0, t1);
      }
    }

    /** `list(self._inflight.items())`, in the order of the visits. */
    method ListInflight(visits: seq<B.Visit>) returns (objects: seq<TaskEnvelope>)
      requires Valid() && Enumerates(visits, inflight.Keys)
      ensures |objects| == |visits|
      ensures forall i | 0 <= i < |visits| :: Listed(tasks, objects[i], visits[i].id)
    {
      objects := [];
      for i := 0 to |visits|
        invariant |objects| == i && forall j | 0 <= j < i :: Listed(tasks, objects[j], visits[j].id)
      {
        assert visits[i].id in inflight.Keys && tasks[visits[i].id].taskId == visits[i].id;
        objects := objects + [inflight[visits[i].id]];
      }
    }

    /** The reaping loop has visited the first i in-flight tasks, starting from b0. */
    ghost predicate Reaped(now: real, visits: seq<B.Visit>, i: nat, b0: B.Broker, expired: seq<TaskEnvelope>)
      requires i <= |visits|
      reads this, tasks.Values
    {
      && Valid() && model == B.Requeue(b0, now, visits[..i]).0
      && Denotes(expired, tasks, B.Requeue(b0, now, visits[..i]).1)
    }

    /** One turn of the reaping loop. */
    method VisitNext(now: real, visits: seq<B.Visit>, i: nat, task: TaskEnvelope, ghost b0: B.Broker, before: seq<TaskEnvelope>)
      returns (expired: seq<TaskEnvelope>)
      requires i < |visits| && Reaped(now, visits, i, b0, before) && Listed(tasks, task, visits[i].id)
      modifies `inflight, `deadLetter, `ready, `delayed, `sequence, `model, task
      ensures Reaped(now, visits, i + 1, b0, expired)
    {
      B.RequeueStep(b0, now, visits, i);
      DenotesMore(before, tasks, B.Requeue(b0, now, visits[..i]).1, task, visits[i].id);
      hide Valid, Denotes, B.Requeue, B.Retry, B.LeaseExpired;
      expired := before;
      var hit := VisitLease(task, now, visits[i].t0, visits[i].t1);
      if hit {
        expired := expired + [task];
      }
    }

    /** `requeue_expired_leases`; the visits walk the in-flight table as it was at the start. */
    method RequeueExpiredLeases(now: real, visits: seq<B.Visit>) returns (expired: seq<TaskEnvelope>)
      requires Valid() && Enumerates(visits, inflight.Keys)
      modifies `inflight, `deadLetter, `ready, `delayed, `sequence, `model, tasks.Values
      ensures Valid()
      ensures model == B.Requeue(old(model), now, visits).0
      ensures Denotes(expired, tasks, B.Requeue(old(model), now, visits).1)
    {
      var objects := ListInflight(visits);
      expired := [];
      for i := 0 to |visits|
        invariant Reaped(now, visits, i, old(model), expired)
      {
        hide Reaped, Enumerates, Valid;
        assert Listed(tasks, objects[i], visits[i].id);
        expired := VisitNext(now, visits, i, objects[i], old(model), expired);
      }
      assert visits[..|visits|] == visits;
    }

    /** The tables and the delayed heap are as large as the model says. */
    lemma TableSizes()
      requires Valid()
      ensures |delayed| == |model.delayed| && maxDepth == model.maxDepth
      ensures |inflight.Keys| == |model.inflight| && |deadLetter.Keys| == |model.deadLetter|
    {
      BagIsMultiset(delayed);
    }

    method Counts() returns (s: QueueSnapshot)
      requires Valid()
      ensures s == B.Snapshot(model)
      ensures s.queued == |model.ready| && s.delayed == |delayed| && s.inflight == |inflight.Keys|
      ensures s.deadLettered == |deadLetter.Keys|
      ensures maxDepth == model.maxDepth
    {
      hide B.Snapshot;
      assert ReadyOk(ready, model.tasks, model.ready);
      TableSizes();
      SnapshotOf(model);
      hide Valid, ReadyOk;
      var queued := CountReady(ready, model.tasks, model.ready);
      var active := queued + |delayed| + |inflight.Keys|;
      s := QueueSnapshot(queued, |delayed|, |inflight.Keys|, |deadLetter.Keys|,
                         active as real / (if maxDepth < 1 then 1 else maxDepth) as real);
    }

    /** `snapshot`. */
    method Snapshot(now: real) returns (s: QueueSnapshot)
      requires Valid()
      modifies `ready, `delayed, `model
      ensures Valid() && model == B.Promote(old(model), now) && s == B.Snapshot(model)
      ensures s.queued == |model.ready| && s.delayed == |delayed| && s.inflight == |inflight.Keys|
      ensures s.deadLettered == |deadLetter.Keys|
      ensures s.pressure * (if maxDepth > 1 then maxDepth else 1) as real == (s.queued + s.delayed + s.inflight) as real
    {
      hide Valid, B.Snapshot, B.Promote;
      PromoteDelayed(now);
      s := Counts();
      SnapshotOf(model);
    }
  }
}
