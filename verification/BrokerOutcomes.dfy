/**
 * What single operations leave behind, field by field: rows, due times, entries and leases, in terms
 * of the arguments and the broker before the call.
 */
module BrokerOutcomes {
  import opened Models
  import opened Ordering
  import opened Bags
  import opened BrokerRuns
  import opened Operations
  import opened BrokerLaws
  import opened OpEffects
  import B = BrokerModel

  /** The one new entry of a task that is due at `due`: delayed until then, or ready if it is due by now. */
  ghost predicate PushedOnce(b: B.Broker, b': B.Broker, id: string, due: real, now: real, priority: int, createdAt: real) {
    && b'.sequence == b.sequence + 1
    && (due > now ==> b'.ready == b.ready && b'.delayed == b.delayed + multiset{DelayedEntry(due, b.sequence + 1, id)})
    && (due <= now ==> b'.delayed == b.delayed
                       && b'.ready == b.ready + multiset{ReadyEntry(priority, createdAt, b.sequence + 1, id)})
  }

  /** No table but the task table has changed, and that at one task only. */
  ghost predicate OnlyRow(b: B.Broker, b': B.Broker, id: string) {
    && id in b'.tasks && b'.tasks.Keys == b.tasks.Keys + {id}
    && forall x | x in b.tasks && x != id :: b'.tasks[x] == b.tasks[x]
  }

  // ---------- Depth ----------

  /** Depth counts the tasks that are pending, queued, running, acknowledged or retrying. */
  lemma DepthCounts(b: B.Broker)
    ensures B.Depth(b) == |set id | id in b.tasks && (b.tasks[id].status.Pending? || b.tasks[id].status.Queued?
                             || b.tasks[id].status.Running? || b.tasks[id].status.Acked? || b.tasks[id].status.Retrying?)|
  {
    assert B.Active(b) == set id | id in b.tasks && (b.tasks[id].status.Pending? || b.tasks[id].status.Queued?
                             || b.tasks[id].status.Running? || b.tasks[id].status.Acked? || b.tasks[id].status.Retrying?);
  }

  // ---------- Submission ----------

  /** An accepted submission is queued, due after its delay, with one entry; a refused one leaves no trace. */
  lemma {:induction false} SubmissionOutcome(b: B.Broker, s: B.Submission)
    ensures var (b', ok) := B.Submit(b, s.id, s.task, s.t0, s.t1);
            && (ok <==> B.Depth(b) < b.maxDepth)
            && (!ok ==> b' == b)
            && (ok ==> OnlyRow(b, b', s.id) && QueuedRow(b'.tasks[s.id], s)
                       && PushedOnce(b, b', s.id, DueAt(s), s.t1, b'.tasks[s.id].spec.priority, s.task.createdAt))
  {
    hide B.Depth;
    EnqueuedRow(s);
    var task := B.Enqueued(s.task, s.t0);
    hide B.Enqueued;
    if B.Depth(b) < b.maxDepth {
      B.PushKeeps(b.(tasks := b.tasks[s.id := task]), s.id, s.t1);
    }
  }

  /** The delayed entries that an accepted batch brings, the first one with sequence number n + 1. */
  ghost function DelayedOf(batch: seq<B.Submission>, n: nat): multiset<DelayedEntry> {
    if batch == [] then multiset{}
    else
      var s := batch[|batch| - 1];
      DelayedOf(batch[..|batch| - 1], n) +
      if DueAt(s) > s.t1 then multiset{DelayedEntry(DueAt(s), n + |batch|, s.id)} else multiset{}
  }

  /** And the ready entries, of the tasks that are due at once. */
  ghost function ReadyOf(batch: seq<B.Submission>, n: nat): multiset<ReadyEntry> {
    if batch == [] then multiset{}
    else
      var s := batch[|batch| - 1];
      ReadyOf(batch[..|batch| - 1], n) +
      if DueAt(s) > s.t1 then multiset{}
      else multiset{ReadyEntry(if s.task.spec.priority > 0 then s.task.spec.priority else 0, s.task.createdAt, n + |batch|, s.id)}
  }

  /** What one submission adds to the heaps. */
  lemma SubmissionEntries(b: B.Broker, s: B.Submission)
    requires B.Depth(b) < b.maxDepth
    ensures var d, p := B.Submit(b, s.id, s.task, s.t0, s.t1).0, if s.task.spec.priority > 0 then s.task.spec.priority else 0;
            PushedOnce(b, d, s.id, DueAt(s), s.t1, p, s.task.createdAt)
  {
    hide B.Depth, B.Submit, DueAt, PushedOnce, OnlyRow;
    SubmissionOutcome(b, s);
  }

  lemma PlusNothing<T>(m: multiset<T>)
    ensures m + multiset{} == m
  {
  }

  lemma EntriesOfLast(batch: seq<B.Submission>, n: nat)
    requires batch != []
    ensures var front, s := batch[..|batch| - 1], batch[|batch| - 1];
            var p := if s.task.spec.priority > 0 then s.task.spec.priority else 0;
            if DueAt(s) > s.t1
            then DelayedOf(batch, n) == DelayedOf(front, n) + multiset{DelayedEntry(DueAt(s), n + |batch|, s.id)}
                 && ReadyOf(batch, n) == ReadyOf(front, n)
            else ReadyOf(batch, n) == ReadyOf(front, n) + multiset{ReadyEntry(p, s.task.createdAt, n + |batch|, s.id)}
                 && DelayedOf(batch, n) == DelayedOf(front, n)
  {
    var front := batch[..|batch| - 1];
    PlusNothing(DelayedOf(front, n));
    PlusNothing(ReadyOf(front, n));
  }

  lemma EntriesMore(b: B.Broker, c: B.Broker, batch: seq<B.Submission>)
    requires batch != [] && B.Depth(c) < c.maxDepth
    requires var front := batch[..|batch| - 1];
             && c.delayed == b.delayed + DelayedOf(front, b.sequence)
             && c.ready == b.ready + ReadyOf(front, b.sequence)
             && c.sequence == b.sequence + |front|
    ensures var s := batch[|batch| - 1];
            var d := B.Submit(c, s.id, s.task, s.t0, s.t1).0;
            && d.delayed == b.delayed + DelayedOf(batch, b.sequence)
            && d.ready == b.ready + ReadyOf(batch, b.sequence)
            && d.sequence == b.sequence + |batch|
  {
    hide B.Depth, B.Submit, DueAt, DelayedOf, ReadyOf;
    var front, s, n := batch[..|batch| - 1], batch[|batch| - 1], b.sequence + |batch|;
    var p := if s.task.spec.priority > 0 then s.task.spec.priority else 0;
    SubmissionEntries(c, s);
    EntriesOfLast(batch, b.sequence);
    if DueAt(s) > s.t1 {
      Regroup(b.delayed, DelayedOf(front, b.sequence), multiset{DelayedEntry(DueAt(s), n, s.id)});
    } else {
      Regroup(b.ready, ReadyOf(front, b.sequence), multiset{ReadyEntry(p, s.task.createdAt, n, s.id)});
    }
  }

  /** A batch brings exactly these entries, each due when its task is, numbered in the order of the batch. */
  lemma {:induction false} BatchEntries(b: B.Broker, batch: seq<B.Submission>)
    requires Fresh(b, batch)
    ensures var (b', n) := B.SubmitEach(b, batch);
            && b'.delayed == b.delayed + DelayedOf(batch[..n], b.sequence)
            && b'.ready == b.ready + ReadyOf(batch[..n], b.sequence)
            && b'.sequence == b.sequence + n
  {
    hide B.Depth, B.Submit, Fresh;
    if batch == [] {
      assert b.delayed + multiset{} == b.delayed && b.ready + multiset{} == b.ready;
    } else {
      var front, s := batch[..|batch| - 1], batch[|batch| - 1];
      FreshFront(b, batch);
      BatchEntries(b, front);
      var (c, n) := B.SubmitEach(b, front);
      SubmissionOutcome(c, s);
      if n < |front| {
        assert batch[..n] == front[..n];
      } else if B.Depth(c) < c.maxDepth {
        assert front[..n] == front && batch[..n + 1] == batch;
        EntriesMore(b, c, batch);
      } else {
        assert front[..n] == front && batch[..n] == front;
      }
    }
  }

  // ---------- Retry ----------

  /** When a retried task is due again: one backoff for each attempt made so far, this one included. */
  ghost function RetryDue(task: Task, t0: real): real {
    t0 + task.spec.retryBackoffSeconds * (task.attempts + 1) as real
  }

  /** The row after a retry, whatever becomes of the task. */
  ghost predicate RetriedRow(row: Task, was: Task, reason: string) {
    && row.attempts == was.attempts + 1 && row.lastError == Some(reason)
    && row.assignedWorker == None && row.leaseDeadline == None
    && row.spec == was.spec && row.createdAt == was.createdAt
  }

  /**
   * While attempts are left a retried task waits for its backoff, with one new entry; afterwards it is
   * dead-lettered, and no entry and no sequence number is spent.
   */
  lemma {:induction false} RetryOutcome(b: B.Broker, id: string, reason: string, t0: real, t1: real)
    requires id in b.tasks
    ensures var b', was := B.Retry(b, id, reason, t0, t1), b.tasks[id];
            && OnlyRow(b, b', id) && RetriedRow(b'.tasks[id], was, reason)
            && b'.inflight == b.inflight - {id} && b'.cancelled == b.cancelled
            && (was.attempts < was.spec.maxRetries ==>
                  && b'.tasks[id].status == Retrying && b'.tasks[id].availableAt == RetryDue(was, t0)
                  && b'.deadLetter == b.deadLetter
                  && PushedOnce(b, b', id, RetryDue(was, t0), t1, was.spec.priority, was.createdAt))
            && (was.attempts >= was.spec.maxRetries ==>
                  && b'.tasks[id].status == DeadLettered && b'.tasks[id].availableAt == was.availableAt
                  && b'.deadLetter == b.deadLetter + {id}
                  && b'.ready == b.ready && b'.delayed == b.delayed && b'.sequence == b.sequence)
  {
    var task := B.Retried(b.tasks[id], reason, t0);
    assert task.availableAt == if task.status.DeadLettered? then b.tasks[id].availableAt else RetryDue(b.tasks[id], t0);
    hide RetryDue;
  }

  /** A due entry of a live task becomes a ready one. */
  lemma PromotionReadies(b: B.Broker, d: DelayedEntry, now: real)
    requires d in b.delayed && d.id in b.tasks && d.availableAt <= now
    requires !b.tasks[d.id].status.Cancelled? && !b.tasks[d.id].status.DeadLettered?
    ensures ReadyEntry(b.tasks[d.id].spec.priority, b.tasks[d.id].createdAt, b.sequence, d.id) in B.Promote(b, now).ready
  {
    var moved, f := B.Moved(b, now), B.ToReady(b.tasks, b.sequence);
    assert d in B.DueEntries(b, now);
    assert d in moved;
    assert f(d) == ReadyEntry(b.tasks[d.id].spec.priority, b.tasks[d.id].createdAt, b.sequence, d.id);
    hide Filter;
    ImageMember(moved, f, f(d));
    hide Image;
  }

  lemma PromotionKeepsReady(b: B.Broker, now: real, e: ReadyEntry)
    requires e in b.ready
    ensures e in B.Promote(b, now).ready
  {
    hide Image, Filter;
  }

  /** A retried task with attempts left has a ready entry after any promotion from its due time on. */
  lemma {:induction false} RetryBecomesReady(b: B.Broker, id: string, reason: string, t0: real, t1: real, now: real)
    requires id in b.tasks && b.tasks[id].attempts < b.tasks[id].spec.maxRetries && now >= RetryDue(b.tasks[id], t0)
    ensures exists e :: e in B.Promote(B.Retry(b, id, reason, t0, t1), now).ready && e.id == id
                        && e.priority == b.tasks[id].spec.priority && e.createdAt == b.tasks[id].createdAt
  {
    hide B.Retry, RetryDue, B.Promote;
    RetryOutcome(b, id, reason, t0, t1);
    var b' := B.Retry(b, id, reason, t0, t1);
    var due, n := RetryDue(b.tasks[id], t0), b.sequence + 1;
    if due > t1 {
      PromotionReadies(b', DelayedEntry(due, n, id), now);
    } else {
      var e := ReadyEntry(b.tasks[id].spec.priority, b.tasks[id].createdAt, n, id);
      assert e in b'.ready;
      PromotionKeepsReady(b', now, e);
    }
  }

  /** And none by this retry before that: until it is due, its entry stays delayed. */
  lemma {:induction false} RetryWaits(b: B.Broker, id: string, reason: string, t0: real, t1: real, now: real)
    requires id in b.tasks && b.tasks[id].attempts < b.tasks[id].spec.maxRetries
    requires t1 < RetryDue(b.tasks[id], t0) && now < RetryDue(b.tasks[id], t0)
    ensures var d := DelayedEntry(RetryDue(b.tasks[id], t0), b.sequence + 1, id);
            B.Promote(B.Retry(b, id, reason, t0, t1), now).delayed[d] == b.delayed[d] + 1
  {
    hide B.Retry, RetryDue, B.Promote;
    RetryOutcome(b, id, reason, t0, t1);
    PromotionEmptiesDue(B.Retry(b, id, reason, t0, t1), now, DelayedEntry(RetryDue(b.tasks[id], t0), b.sequence + 1, id));
  }

  // ---------- Promotion and reservation ----------

  /**
   * There is work for a worker: a task that is not cancelled, suits it and waits for nothing, with a
   * ready entry or with a delayed one that is due.
   */
  ghost predicate WorkFor(b: B.Broker, w: WorkerInfo, completed: set<string>, now: real, id: string) {
    && id in b.tasks && id !in b.cancelled
    && Suits(w, b.tasks[id].spec) && b.tasks[id].spec.dependsOn <= completed
    && ((exists e :: e in b.ready && e.id == id) ||
        (!b.tasks[id].status.Cancelled? && !b.tasks[id].status.DeadLettered?
         && exists d :: d in b.delayed && d.id == id && d.availableAt <= now))
  }

  lemma {:induction false} WorkAfterPromotion(b: B.Broker, w: WorkerInfo, completed: set<string>, now: real, e: ReadyEntry)
    requires WellFormed(b) && Takeable(B.Promote(b, now), w, completed, e)
    ensures WorkFor(b, w, completed, now, e.id)
  {
    hide Suits;
    B.PromoteKeeps(b, now);
    if e !in b.ready {
      PromotionArrivals(b, now, e);
      var d :| d in b.delayed && d.id == e.id && d.availableAt <= now && B.Promotable(b.tasks, d.id);
      hide B.Promote;
    }
  }

  lemma {:induction false} WorkIsTakeable(b: B.Broker, w: WorkerInfo, completed: set<string>, now: real, id: string) returns (e: ReadyEntry)
    requires WorkFor(b, w, completed, now, id)
    ensures Takeable(B.Promote(b, now), w, completed, e) && e.id == id
  {
    hide Suits, B.Promote;
    B.PromoteKeeps(b, now);
    if x :| x in b.ready && x.id == id {
      e := x;
      PromotionKeepsReady(b, now, e);
    } else {
      var d :| d in b.delayed && d.id == id && d.availableAt <= now;
      PromotionReadies(b, d, now);
      e := ReadyEntry(b.tasks[id].spec.priority, b.tasks[id].createdAt, b.sequence, id);
    }
  }

  /** One attempt of reserve returns nothing exactly when there is no work for the worker by now. */
  lemma {:induction false} ReserveFindsWork(b: B.Broker, w: WorkerInfo, completed: set<string>, leaseSeconds: real, now: real, t: real)
    requires WellFormed(b)
    ensures B.Reserve(b, w, completed, leaseSeconds, now, t).1.None? <==> !exists id :: WorkFor(b, w, completed, now, id)
  {
    hide B.PopEligible, B.Promote, WorkFor, Takeable, WellFormed;
    var p := B.Promote(b, now);
    SelectionFindsWork(p, w, completed);
    if e :| Takeable(p, w, completed, e) {
      WorkAfterPromotion(b, w, completed, now, e);
    }
    if id :| WorkFor(b, w, completed, now, id) {
      var e := WorkIsTakeable(b, w, completed, now, id);
    }
  }

  /** And what it returns is work for the worker. */
  lemma {:induction false} ReserveReturnsWork(b: B.Broker, w: WorkerInfo, completed: set<string>, leaseSeconds: real, now: real, t: real)
    requires WellFormed(b) && B.Reserve(b, w, completed, leaseSeconds, now, t).1.Some?
    ensures WorkFor(b, w, completed, now, B.Reserve(b, w, completed, leaseSeconds, now, t).1.value)
  {
    hide B.PopEligible, B.Promote, WorkFor, Takeable, WellFormed;
    var e := SelectionTakesLeast(B.Promote(b, now), w, completed);
    WorkAfterPromotion(b, w, completed, now, e);
  }

  // ---------- Completion and cancellation ----------

  /** A completion ends the lease and records the error; the worker, the heaps and all other tasks stay as they are. */
  lemma CompletionOutcome(b: B.Broker, id: string, status: TaskStatus, error: Option<string>)
    requires id in b.tasks
    ensures var b', was := B.Complete(b, id, status, error), b.tasks[id];
            && OnlyRow(b, b', id)
            && b'.tasks[id] == was.(status := status, lastError := error, leaseDeadline := None)
            && b'.inflight == b.inflight - {id} && b'.cancelled == b.cancelled
            && (forall x :: x in b'.deadLetter <==> x in b.deadLetter || (x == id && status == DeadLettered))
            && b'.ready == b.ready && b'.delayed == b.delayed && b'.sequence == b.sequence
  {
  }

  /** A cancellation marks the task, by status and by request, and takes it out of flight; entries stay until they are met. */
  lemma CancellationOutcome(b: B.Broker, id: string)
    requires id in b.tasks
    ensures var b', was := B.Cancel(b, id), b.tasks[id];
            && OnlyRow(b, b', id) && b'.tasks[id] == was.(status := TaskStatus.Cancelled)
            && b'.cancelled == b.cancelled + {id} && b'.inflight == b.inflight - {id} && b'.deadLetter == b.deadLetter
            && b'.ready == b.ready && b'.delayed == b.delayed && b'.sequence == b.sequence
  {
  }

  // ---------- Leases over runs ----------

  /** The operation leaves a lease with this deadline alone: nobody reports, retries or cancels the task, or is given it again. */
  ghost predicate Spares(b: B.Broker, op: Op, id: string, deadline: real) {
    match op
    case Complete(x, _, _) => x != id
    case Retry(x, _, _, _) => x != id
    case Cancel(x) => x != id
    case Reserve(_, _, _, _, _) => id !in HandedBy(b, op)
    case Requeue(now, _) => now <= deadline
    case _ => true
  }

  ghost predicate SparedBy(b: B.Broker, ops: seq<Op>, id: string, deadline: real) {
    ops == [] || (SparedBy(b, ops[..|ops| - 1], id, deadline)
                  && Spares(Performed(b, ops[..|ops| - 1]), ops[|ops| - 1], id, deadline))
  }

  /** The task runs under this lease. */
  ghost predicate Leases(b: B.Broker, id: string, worker: string, deadline: real) {
    && id in b.inflight && id in b.tasks && b.tasks[id].status == Running
    && b.tasks[id].assignedWorker == Some(worker) && b.tasks[id].leaseDeadline == Some(deadline)
  }

  lemma {:induction false} ReapedIsOverdue(b: B.Broker, now: real, visits: seq<B.Visit>, id: string)
    requires id in IdsIn(B.Requeue(b, now, visits).1)
    ensures id in b.tasks && b.tasks[id].leaseDeadline.Some? && b.tasks[id].leaseDeadline.value < now
  {
    hide B.Retry;
    var front, v := visits[..|visits| - 1], visits[|visits| - 1];
    var (c, expired) := B.Requeue(b, now, front);
    RequeueTouches(b, now, front, id);
    if id in IdsIn(expired) {
      ReapedIsOverdue(b, now, front, id);
    } else {
      IdsMore(expired, v.id);
    }
  }

  lemma AcceptedIsNew(b: B.Broker, batch: seq<B.Submission>, id: string)
    requires Fresh(b, batch) && id in BatchIds(batch[..B.SubmitEach(b, batch).1])
    ensures id !in b.tasks
  {
    hide B.SubmitEach;
    var accepted := batch[..B.SubmitEach(b, batch).1];
    var i :| 0 <= i < |accepted| && accepted[i].id == id;
    assert IsNew(b, batch[i]);
  }

  lemma SparedIsUntouched(b: B.Broker, op: Op, id: string, worker: string, deadline: real)
    requires Leases(b, id, worker, deadline) && Spares(b, op, id, deadline)
    ensures id !in Touched(b, op)
  {
    hide B.Depth, B.SubmitEach, B.Reserve, B.Requeue;
    match op {
      case Requeue(now, visits) =>
        if id in Touched(b, op) {
          ReapedIsOverdue(b, now, visits, id);
        }
      case SubmitMany(batch) =>
        if id in Touched(b, op) {
          AcceptedIsNew(b, batch, id);
        }
      case _ =>
    }
  }

  lemma ReservedLeases(b: B.Broker, op: Op, id: string)
    requires op.Reserve? && id in HandedBy(b, op)
    ensures Leases(Perform(b, op), id, op.worker.workerId, op.t + op.leaseSeconds)
  {
    hide B.Reserve;
    ReserveTables(b, op.worker, op.completed, op.leaseSeconds, op.now, op.t);
  }

  /**
   * A task reserved at t keeps its worker and its deadline t + lease_seconds over any operations that
   * leave the task alone, sweeps included, as long as no sweep comes after the deadline.
   */
  lemma {:induction false} LeaseLasts(b: B.Broker, op: Op, id: string, ops: seq<Op>)
    requires op.Reserve? && id in HandedBy(b, op)
    requires SparedBy(Perform(b, op), ops, id, op.t + op.leaseSeconds)
    ensures Leases(Performed(Perform(b, op), ops), id, op.worker.workerId, op.t + op.leaseSeconds)
  {
    hide Perform, HandedBy, Touched, Spares;
    if ops == [] {
      ReservedLeases(b, op, id);
    } else {
      var front, last := ops[..|ops| - 1], ops[|ops| - 1];
      LeaseLasts(b, op, id, front);
      var c := Performed(Perform(b, op), front);
      SparedIsUntouched(c, last, id, op.worker.workerId, op.t + op.leaseSeconds);
      OthersKept(c, last, id);
    }
  }

  /** So no sweep up to the deadline returns the task, and every sweep of the whole table after it does. */
  lemma {:induction false} SweepTakesLeaseExactlyAfterDeadline(b: B.Broker, op: Op, id: string, ops: seq<Op>, now: real,
                                                              visits: seq<B.Visit>)
    requires op.Reserve? && id in HandedBy(b, op)
    requires SparedBy(Perform(b, op), ops, id, op.t + op.leaseSeconds)
    requires var c := Performed(Perform(b, op), ops);
             DistinctVisits(visits) && forall x :: Visited(visits, x) <==> x in c.inflight
    ensures id in B.Requeue(Performed(Perform(b, op), ops), now, visits).1 <==> now > op.t + op.leaseSeconds
  {
    hide Perform, HandedBy, Performed, B.Requeue, B.Entries, SparedBy;
    LeaseLasts(b, op, id, ops);
    ReapingIsExact(Performed(Perform(b, op), ops), now, visits);
  }
}
