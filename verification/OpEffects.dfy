/** Which tasks an operation touches, and what it does to the rest: nothing. */
module OpEffects {
  import opened Models
  import opened BrokerRuns
  import opened Operations
  import opened BrokerLaws
  import B = BrokerModel

  ghost function IdsIn(ids: seq<string>): set<string> {
    set i | 0 <= i < |ids| :: ids[i]
  }

  ghost function BatchIds(batch: seq<B.Submission>): set<string> {
    set i | 0 <= i < |batch| :: batch[i].id
  }

  /** The tasks whose rows an operation may change; these are the tasks it returns to the engine. */
  ghost function Touched(b: B.Broker, op: Op): set<string> {
    if !Allowed(b, op) then {}
    else
      match op
      case SubmitOne(s) => if B.Depth(b) < b.maxDepth then {s.id} else {}
      case SubmitMany(batch) => BatchIds(batch[..B.SubmitEach(b, batch).1])
      case Reserve(w, completed, leaseSeconds, now, t) =>
        var best := B.Reserve(b, w, completed, leaseSeconds, now, t).1;
        if best.Some? then {best.value} else {}
      case Complete(id, _, _) => if id in b.tasks then {id} else {}
      case Retry(id, _, _, _) => if id in b.tasks then {id} else {}
      case Cancel(id) => if id in b.tasks then {id} else {}
      case Requeue(now, visits) => IdsIn(B.Requeue(b, now, visits).1)
      case Snapshot(_) => {}
  }

  // ---------- Each operation ----------

  lemma SubmitTouches(b: B.Broker, s: B.Submission, id: string)
    requires id != s.id
    ensures SameRow(b, B.Submit(b, s.id, s.task, s.t0, s.t1).0, id)
  {
    hide B.Submit, B.Depth, B.Enqueued;
    SubmitIfRoom(b, s);
    if B.Depth(b) < b.maxDepth {
      SubmitTables(b, s);
    }
  }

  lemma BatchTouches(b: B.Broker, batch: seq<B.Submission>, id: string)
    requires Fresh(b, batch) && id !in BatchIds(batch[..B.SubmitEach(b, batch).1])
    ensures SameRow(b, B.SubmitEach(b, batch).0, id)
  {
    hide B.SubmitEach;
    BatchKeys(b, batch);
  }

  lemma ReserveTables(b: B.Broker, w: WorkerInfo, completed: set<string>, leaseSeconds: real, now: real, t: real)
    ensures var (b', best) := B.Reserve(b, w, completed, leaseSeconds, now, t);
            if best.None? then b'.tasks == b.tasks && b'.inflight == b.inflight && b'.cancelled == b.cancelled
                               && b'.deadLetter == b.deadLetter
            else best.value in b.tasks && b'.inflight == b.inflight + {best.value}
                 && b'.cancelled == b.cancelled && b'.deadLetter == b.deadLetter
                 && b'.tasks == b.tasks[best.value := b.tasks[best.value].(status := Running,
                      assignedWorker := Some(w.workerId), leaseDeadline := Some(t + leaseSeconds))]
  {
    hide B.Promote, B.PopEligible;
    B.PromoteKeeps(b, now);
    B.PopKeeps(B.Promote(b, now), w, completed);
  }

  lemma ReserveTouches(b: B.Broker, op: Op, id: string)
    requires op.Reserve? && id !in Touched(b, op)
    ensures SameRow(b, Perform(b, op), id)
  {
    hide B.Reserve;
    ReserveTables(b, op.worker, op.completed, op.leaseSeconds, op.now, op.t);
  }

  lemma IdsMore(ids: seq<string>, id: string)
    ensures IdsIn(ids + [id]) == IdsIn(ids) + {id}
  {
    forall x ensures x in IdsIn(ids + [id]) <==> x in IdsIn(ids) + {id} {
      if x in IdsIn(ids) {
        var i :| 0 <= i < |ids| && ids[i] == x;
        assert (ids + [id])[i] == x;
      }
      assert (ids + [id])[|ids|] == id;
    }
  }

  lemma RetryEffect(b: B.Broker, id: string, reason: string, t0: real, t1: real, x: string)
    requires id in b.tasks
    ensures var b' := B.Retry(b, id, reason, t0, t1);
            && id in b'.tasks && id !in b'.inflight && b'.tasks[id].leaseDeadline.None?
            && b'.tasks[id].spec == b.tasks[id].spec && b'.tasks[id].createdAt == b.tasks[id].createdAt
            && (x != id ==> SameRow(b, b', x))
            && SameIdentity(b.tasks, b'.tasks) && b'.tasks.Keys == b.tasks.Keys
  {
    hide B.Push;
    var task := B.Retried(b.tasks[id], reason, t0);
    RetryRows(b, id, reason, t0, t1, x);
    if !task.status.DeadLettered? {
      B.PushKeeps(b.(tasks := b.tasks[id := task], inflight := b.inflight - {id}), id, t1);
    }
  }

  lemma {:induction false} RequeueTouches(b: B.Broker, now: real, visits: seq<B.Visit>, id: string)
    ensures var (b', expired) := B.Requeue(b, now, visits);
            && (id in IdsIn(expired) ==> id in b'.tasks && id !in b'.inflight && b'.tasks[id].leaseDeadline.None?)
            && (id !in IdsIn(expired) ==> SameRow(b, b', id))
            && SameIdentity(b.tasks, b'.tasks) && b'.tasks.Keys == b.tasks.Keys
  {
    hide B.Retry;
    if visits != [] {
      var front, v := visits[..|visits| - 1], visits[|visits| - 1];
      RequeueTouches(b, now, front, id);
      var (c, expired) := B.Requeue(b, now, front);
      if B.LeaseExpired(c, v.id, now) {
        IdsMore(expired, v.id);
        RetryEffect(c, v.id, "lease expired", v.t0, v.t1, id);
      }
    }
  }

  // ---------- All operations ----------

  /** An operation leaves the rows of all other tasks alone. */
  lemma OthersKept(b: B.Broker, op: Op, id: string)
    requires id !in Touched(b, op)
    ensures SameRow(b, Perform(b, op), id)
  {
    hide B.Submit, B.SubmitEach, B.Reserve, B.Retry, B.Requeue, B.Promote, B.Depth, B.Enqueued, Fresh, IsNew;
    if Allowed(b, op) {
      match op {
        case SubmitOne(s) => if id != s.id { SubmitTouches(b, s, id); } else { SubmitIfRoom(b, s); }
        case SubmitMany(batch) => BatchTouches(b, batch, id);
        case Reserve(_, _, _, _, _) => ReserveTouches(b, op, id);
        case Retry(x, reason, t0, t1) => if x in b.tasks { RetryRows(b, x, reason, t0, t1, id); }
        case Requeue(now, visits) => RequeueTouches(b, now, visits, id);
        case Snapshot(now) => B.PromoteKeeps(b, now);
        case Complete(_, _, _) =>
        case Cancel(_) =>
      }
    }
  }

  lemma BatchEffect(b: B.Broker, batch: seq<B.Submission>, id: string)
    requires Fresh(b, batch) && id in BatchIds(batch[..B.SubmitEach(b, batch).1]) && b.inflight <= b.tasks.Keys
    ensures var b' := B.SubmitEach(b, batch).0; id in b'.tasks && id !in b'.inflight && id !in b.tasks
  {
    hide B.SubmitEach, B.Enqueued;
    BatchKeys(b, batch);
    var accepted := batch[..B.SubmitEach(b, batch).1];
    var i :| 0 <= i < |accepted| && accepted[i].id == id;
    assert IsNew(b, batch[i]);
  }

  /** What an operation does to a task it touches: it stays or comes known, and is in flight only if it was reserved. */
  lemma TouchedEffect(b: B.Broker, op: Op, id: string)
    requires id in Touched(b, op) && b.inflight <= b.tasks.Keys
    ensures id in Perform(b, op).tasks
    ensures id in Perform(b, op).inflight ==>
              op.Reserve? && Perform(b, op).tasks[id].assignedWorker == Some(op.worker.workerId)
    ensures id in b.tasks ==> Perform(b, op).tasks[id].spec == b.tasks[id].spec
                              && Perform(b, op).tasks[id].createdAt == b.tasks[id].createdAt
    ensures id !in b.tasks <==> op.SubmitOne? || op.SubmitMany?
  {
    hide B.Submit, B.SubmitEach, B.Reserve, B.Retry, B.Requeue, B.Promote, B.Depth, B.Enqueued, Fresh;
    match op {
      case SubmitOne(s) => SubmitTables(b, s);
      case SubmitMany(batch) => BatchEffect(b, batch, id);
      case Reserve(w, completed, leaseSeconds, now, t) => ReserveTables(b, w, completed, leaseSeconds, now, t);
      case Retry(x, reason, t0, t1) => RetryEffect(b, x, reason, t0, t1, x);
      case Requeue(now, visits) => RequeueTouches(b, now, visits, id);
      case Complete(_, _, _) =>
      case Cancel(_) =>
      case Snapshot(_) =>
    }
  }
}
