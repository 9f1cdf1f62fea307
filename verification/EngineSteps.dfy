/** The engine's handlers, run without interruption, are runs of the cluster's steps. */
module EngineSteps {
  import opened Models
  import opened Bags
  import opened Operations
  import opened BrokerLaws
  import opened OpEffects
  import opened Store
  import opened Cluster
  import opened ClusterRuns
  import opened Engine
  import B = BrokerModel

  /** What of the cluster the engine's methods speak of. */
  ghost function Face(s: System): EngineState {
    EngineState(s.h.b, s.completed, s.results, s.rows)
  }

  lemma DrainStep(s: System)
    requires s.loop != [] && s.loop[0].id in s.h.b.tasks
    ensures var t, u := Do(s, Drain), s.loop[0];
            && t == s.(rows := Upserted(s.rows, u.id, s.h.b.tasks[u.id], u.result), loop := s.loop[1..],
                       orphans := s.orphans - {u.id})
  {
    hide Upserted;
  }

  lemma TouchedKnown(b: B.Broker, op: Op, id: string)
    requires id in Touched(b, op)
    ensures id in Perform(b, op).tasks
  {
    hide B.Submit, B.SubmitEach, B.Reserve, B.Retry, B.Requeue, B.Promote, B.Depth, B.Enqueued, Fresh, IsNew;
    match op {
      case SubmitOne(s) => SubmitTables(b, s);
      case SubmitMany(batch) =>
        BatchKeys(b, batch);
        var accepted := batch[..B.SubmitEach(b, batch).1];
        var i :| 0 <= i < |accepted| && accepted[i].id == id;
      case Reserve(w, completed, leaseSeconds, now, t) => ReserveTables(b, w, completed, leaseSeconds, now, t);
      case Retry(x, reason, t0, t1) => RetryEffect(b, x, reason, t0, t1, x);
      case Requeue(now, visits) => RequeueTouches(b, now, visits, id);
      case Complete(_, _, _) =>
      case Cancel(_) =>
      case Snapshot(_) =>
    }
  }

  lemma OpKeepsTasks(b: B.Broker, op: Op, id: string)
    requires id in b.tasks
    ensures id in Perform(b, op).tasks
  {
    hide Perform, Touched;
    if id in Touched(b, op) {
      TouchedKnown(b, op, id);
    } else {
      OthersKept(b, op, id);
    }
  }

  lemma StillKnown(s: System, step: Step, id: string)
    requires Enabled(s, step) && id in s.h.b.tasks
    ensures id in Do(s, step).h.b.tasks
  {
    hide Enabled, Around, Operate, Perform, OpOf;
    BrokerStep(s, step);
    if OpOf(step).Some? {
      OpKeepsTasks(s.h.b, OpOf(step).value, id);
    }
  }

  /** A report handler is the report step and the drain of its upsert. */
  lemma ReportIsSteps(s: System, worker: string, slot: nat, r: TaskResult, t0: real, t1: real)
    requires Enabled(s, Report(worker, slot, r, t0, t1))
    ensures Face(Do(Do(s, Report(worker, slot, r, t0, t1)), Drain)) == Reported(Face(s), r, t0, t1)
  {
    hide Upserted, Operate, Perform, SetSlot, B.Complete, B.Retry;
    var step := Report(worker, slot, r, t0, t1);
    BrokerStep(s, step);
    StillKnown(s, step, r.taskId);
    DrainStep(Do(s, step));
    hide OpOf, ReportOp;
  }

  /** A cancel or retry handler is its step and the drain of its upsert. */
  lemma MutationIsSteps(s: System, step: Step)
    requires Enabled(s, step) && (step.CancelTask? || step.RetryTask?)
    ensures Face(Do(Do(s, step), Drain)) == Mutated(Face(s), OpOf(step).value, step.id, None)
  {
    hide Upserted, Operate, Perform;
    BrokerStep(s, step);
    StillKnown(s, step, step.id);
    DrainStep(Do(s, step));
  }

  lemma RefusedSubmission(b: B.Broker, item: B.Submission)
    requires B.Depth(b) >= b.maxDepth
    ensures Perform(b, SubmitOne(item)) == b
  {
  }

  /** A submission is its step and, when it is accepted, the drain of its upsert. */
  lemma {:induction false} SubmitIsSteps(s: System, item: B.Submission)
    requires Enabled(s, Cluster.Submit(item))
    ensures var t := Do(s, Cluster.Submit(item));
            if B.Depth(s.h.b) < s.h.b.maxDepth
            then Face(Do(t, Drain)) == Mutated(Face(s), SubmitOne(item), item.id, None)
            else Face(t) == Face(s) && t.loop == []
  {
    hide Upserted, Operate, Perform, B.Depth, IsNew;
    var step := Cluster.Submit(item);
    BrokerStep(s, step);
    if B.Depth(s.h.b) < s.h.b.maxDepth {
      TouchedKnown(s.h.b, SubmitOne(item), item.id);
      DrainStep(Do(s, step));
    } else {
      RefusedSubmission(s.h.b, item);
    }
  }

  /** A reservation is its attempt, and when it brings a task the continuation and its upsert. */
  lemma {:induction false} ReserveIsSteps(s: System, step: Step)
    requires step.Attempt? && Enabled(s, step) && s.loop == [] && step.completed == s.completed
    ensures var t := Do(s, step);
            var best := Best(s.h.b, step);
            Face(if best.None? then t else Do(Do(t, Resume(best.value)), Drain))
            == Reserved(Face(s), step.info, step.leaseSeconds, step.now, step.t)
  {
    hide Upserted, Operate, Perform, SetSlot, B.Reserve;
    BrokerStep(s, step);
    var t, best := Do(s, step), Best(s.h.b, step);
    if best.Some? {
      TouchedKnown(s.h.b, OpOf(step).value, best.value);
      var u := Do(t, Resume(best.value));
      assert u.h == t.h && u.loop == [Upsert(best.value, None)];
      DrainStep(u);
    }
  }

  ghost function Drains(n: nat): seq<Step> {
    seq(n, _ => Drain)
  }

  /** Draining the first n upserts of a handler, none of which carries a result. */
  lemma {:induction false} DrainsUpsert(s: System, ids: seq<string>, n: nat)
    requires n <= |ids| == |s.loop| && forall i | 0 <= i < |ids| :: s.loop[i] == Upsert(ids[i], None)
    requires forall i | 0 <= i < |ids| :: ids[i] in s.h.b.tasks
    ensures var t := Run(s, Drains(n));
            && t.h == s.h && t.completed == s.completed && t.results == s.results && t.loop == s.loop[n..]
            && t.rows == UpsertedAll(s.rows, s.h.b.tasks, ids[..n])
  {
    hide Do, Upserted;
    if n > 0 {
      DrainsUpsert(s, ids, n - 1);
      assert Drains(n)[..n - 1] == Drains(n - 1);
      assert ids[..n][..n - 1] == ids[..n - 1];
      DrainStep(Run(s, Drains(n - 1)));
    }
  }

  /** An accepted batch is its step and the drains of its upserts. */
  lemma {:induction false} BatchIsSteps(s: System, batch: seq<B.Submission>)
    requires Enabled(s, Cluster.SubmitBatch(batch)) && B.SubmitEach(s.h.b, batch).1 == |batch|
    ensures var b' := B.SubmitEach(s.h.b, batch).0;
            && (forall i | 0 <= i < |batch| :: Ids(batch)[i] in b'.tasks)
            && Face(Run(Do(s, Cluster.SubmitBatch(batch)), Drains(|batch|)))
               == Face(s).(b := b', rows := UpsertedAll(s.rows, b'.tasks, Ids(batch)))
  {
    hide Operate, B.SubmitEach, Drains, UpsertedAll, Run;
    var t := Do(s, Cluster.SubmitBatch(batch));
    BrokerStep(s, Cluster.SubmitBatch(batch));
    BatchKeys(s.h.b, batch);
    assert batch[..|batch|] == batch;
    hide Fresh;
    assert Ids(batch)[..|batch|] == Ids(batch);
    DrainsUpsert(t, Ids(batch), |batch|);
  }

  /** A refused batch is its step alone: the accepted prefix stays in the queue, and no upsert follows. */
  lemma RefusedBatchIsStep(s: System, batch: seq<B.Submission>)
    requires Enabled(s, Cluster.SubmitBatch(batch)) && B.SubmitEach(s.h.b, batch).1 != |batch|
    ensures var t := Do(s, Cluster.SubmitBatch(batch));
            Face(t) == Face(s).(b := B.SubmitEach(s.h.b, batch).0) && t.loop == []
  {
    hide Operate, B.SubmitEach, Fresh;
    BrokerStep(s, Cluster.SubmitBatch(batch));
  }

  ghost function Upserting(ids: seq<string>): seq<Step> {
    if ids == [] then [] else Upserting(ids[..|ids| - 1]) + [Resume(ids[|ids| - 1]), Drain]
  }

  lemma ResumeStep(s: System, id: string)
    requires s.loop == [] && id in s.resume
    ensures Do(s, Resume(id)) == s.(resume := s.resume - multiset{id}, loop := [Upsert(id, None)])
  {
  }

  lemma TwoSteps(s: System, steps: seq<Step>, a: Step, c: Step)
    ensures Run(s, steps + [a, c]) == Do(Do(Run(s, steps), a), c)
  {
    hide Do;
    var both := steps + [a, c];
    assert both[..|both| - 1] == steps + [a];
    assert (steps + [a])[..|steps|] == steps;
  }

  /** The reaper's continuation: the upserts of the ids it was given, in order. */
  lemma {:induction false} UpsertingUpserts(s: System, ids: seq<string>)
    requires s.loop == [] && Bag(ids) <= s.resume && forall i | 0 <= i < |ids| :: ids[i] in s.h.b.tasks
    ensures var t := Run(s, Upserting(ids));
            && t.h == s.h && t.completed == s.completed && t.results == s.results && t.loop == []
            && t.resume == s.resume - Bag(ids)
            && t.rows == UpsertedAll(s.rows, s.h.b.tasks, ids)
  {
    hide Do, Upserted;
    if ids != [] {
      var front, id := ids[..|ids| - 1], ids[|ids| - 1];
      assert Bag(ids) == Bag(front) + multiset{id};
      hide Bag;
      TakeBoth(s.resume, Bag(front), id);
      UpsertingUpserts(s, front);
      var t := Run(s, Upserting(front));
      ResumeStep(t, id);
      DrainStep(Do(t, Resume(id)));
      TwoSteps(s, Upserting(front), Resume(id), Drain);
    }
  }
}
