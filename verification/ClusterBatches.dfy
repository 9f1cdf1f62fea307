/**
 * When the store mirrors the broker: a batch that is refused after part of it was accepted leaves
 * that part without rows, so the mirror holds as long as every batch fits or finds no room at all.
 */
module ClusterBatches {
  import opened Models
  import opened Operations
  import opened BrokerLaws
  import opened OpEffects
  import opened Store
  import opened Cluster
  import opened ClusterRuns
  import opened ClusterMirror
  import opened EngineSteps
  import Engine
  import B = BrokerModel

  /** How many more tasks the queue takes. */
  ghost function Room(b: B.Broker): nat {
    if b.maxDepth > B.Depth(b) then b.maxDepth - B.Depth(b) else 0
  }

  /** The whole batch fits, or nothing of it does. */
  ghost predicate Fits(b: B.Broker, batch: seq<B.Submission>) {
    |batch| <= Room(b) || Room(b) == 0
  }

  /** A row shows a task: spec, creation time, status, attempts, error and worker. */
  ghost predicate Shows(row: Row, task: Task) {
    && row.spec == task.spec && row.createdAt == task.createdAt
    && row.status == task.status && row.attempts == task.attempts
    && row.error == task.lastError && row.assignedWorker == task.assignedWorker
  }

  /** Every task has a row, and every row shows its task. */
  ghost predicate FullMirror(s: System) {
    s.rows.Keys == s.h.b.tasks.Keys && forall id | id in s.rows :: Shows(s.rows[id], s.h.b.tasks[id])
  }

  lemma AgreeingShows(row: Row, task: Task)
    ensures Agrees(row, task) <==> Shows(row, task)
  {
  }

  lemma MirrorShows(s: System)
    ensures FullMirror(s) <==>
            s.rows.Keys == s.h.b.tasks.Keys && forall id | id in s.rows :: Agrees(s.rows[id], s.h.b.tasks[id])
  {
    hide Agrees, Shows;
    forall id | id in s.rows && id in s.h.b.tasks
      ensures Agrees(s.rows[id], s.h.b.tasks[id]) <==> Shows(s.rows[id], s.h.b.tasks[id])
    {
      AgreeingShows(s.rows[id], s.h.b.tasks[id]);
    }
  }

  // ---------- One batch ----------

  lemma NoIds(batch: seq<B.Submission>)
    ensures BatchIds(batch[..0]) == {}
  {
  }

  lemma NothingMore<T>(s: set<T>)
    ensures s + {} == s
  {
  }

  lemma BatchAround(s: System, batch: seq<B.Submission>)
    requires Enabled(s, SubmitBatch(batch))
    ensures Do(s, SubmitBatch(batch)).orphans ==
            s.orphans + if Fits(s.h.b, batch) then {} else BatchIds(batch[..Room(s.h.b)])
    ensures Do(s, SubmitBatch(batch)).loop == if |batch| <= Room(s.h.b) then Upserts(batch) else []
    ensures Do(s, SubmitBatch(batch)).resume == s.resume
  {
    hide Operate, B.SubmitEach, B.Depth, B.Entries, Upserts, IsNew, Fresh, BatchIds;
    BatchTakesLongestPrefix(s.h.b, batch);
    NoIds(batch);
    NothingMore(s.orphans);
  }

  /** A batch leaves tasks without rows to come if and only if it fits in part. */
  lemma BatchOrphansExactly(s: System, batch: seq<B.Submission>)
    requires Enabled(s, SubmitBatch(batch)) && MirrorOk(s)
    ensures Do(s, SubmitBatch(batch)).orphans == s.orphans <==> Fits(s.h.b, batch)
  {
    hide Do, Mirrored;
    BatchAround(s, batch);
    if !Fits(s.h.b, batch) {
      var first := batch[..Room(s.h.b)];
      assert first[0].id in BatchIds(first);
      BatchIsNew(s.h.b, batch, Room(s.h.b), first[0].id);
      assert Known(s, first[0].id);
    }
    hide Enabled, Known, MirrorOk, BatchIds, B.Depth;
    assert s.orphans + {} == s.orphans;
  }

  // ---------- Runs ----------

  ghost predicate SuitableStep(s: System, step: Step) {
    step.SubmitBatch? && Enabled(s, step) ==> Fits(s.h.b, step.batch)
  }

  /** Every batch of the run that is submitted fits or finds no room. */
  ghost predicate SuitableBatches(s: System, steps: seq<Step>) {
    steps == [] || (SuitableBatches(s, steps[..|steps| - 1]) && SuitableStep(Run(s, steps[..|steps| - 1]), steps[|steps| - 1]))
  }

  lemma OtherOrphans(s: System, step: Step)
    requires !step.SubmitBatch? || !Enabled(s, step)
    ensures Do(s, step).orphans <= s.orphans
  {
    hide B.Reserve, B.Depth, B.SubmitEach, B.Requeue, Operate, Upserted, Enabled;
  }

  lemma OrphansKept(s: System, step: Step)
    requires SuitableStep(s, step) && s.orphans == {}
    ensures Do(s, step).orphans == {}
  {
    if Enabled(s, step) && step.SubmitBatch? {
      BatchAround(s, step.batch);
    } else {
      hide B.Reserve, B.Depth, B.SubmitEach, B.Requeue, Operate, Upserted;
      OtherOrphans(s, step);
    }
  }

  lemma {:induction false} SuitableLeavesNone(s: System, steps: seq<Step>)
    requires s.orphans == {} && SuitableBatches(s, steps)
    ensures Run(s, steps).orphans == {}
  {
    hide Do, SuitableStep;
    if steps != [] {
      SuitableLeavesNone(s, steps[..|steps| - 1]);
      OrphansKept(Run(s, steps[..|steps| - 1]), steps[|steps| - 1]);
    }
  }

  /**
   * When no upsert is owed and every batch fitted or found no room, the table has a row for every
   * task and no other, each agrees with its task, and each bears the latest result reported.
   */
  lemma {:induction false} MirrorHolds(maxDepth: int, clock: real, steps: seq<Step>)
    requires AtRest(Run(Boot(maxDepth, clock), steps)) && SuitableBatches(Boot(maxDepth, clock), steps)
    ensures var s := Run(Boot(maxDepth, clock), steps);
            FullMirror(s) && forall id | id in s.rows :: s.rows[id].result == ResultOf(s.results, id)
  {
    hide Run, SuitableBatches, Agrees, AtRest, FullMirror;
    SuitableLeavesNone(Boot(maxDepth, clock), steps);
    MirrorAtRest(maxDepth, clock, steps);
    MirrorShows(Run(Boot(maxDepth, clock), steps));
  }

  /** And then the tasks that the table shows in a status are the live tasks in that status. */
  lemma {:induction false} CountsHold(maxDepth: int, clock: real, steps: seq<Step>, status: TaskStatus)
    requires AtRest(Run(Boot(maxDepth, clock), steps)) && SuitableBatches(Boot(maxDepth, clock), steps)
    ensures var s := Run(Boot(maxDepth, clock), steps);
            WithStatus(s.rows, status) == set id | id in s.h.b.tasks && s.h.b.tasks[id].status == status
  {
    hide Run, SuitableBatches, AtRest;
    SuitableLeavesNone(Boot(maxDepth, clock), steps);
    CountsAgree(maxDepth, clock, steps, status);
  }

  // ---------- The condition is exact ----------

  lemma IdleDrain(s: System)
    requires s.loop == []
    ensures Do(s, Drain) == s
  {
  }

  lemma {:induction false} IdleDrains(s: System, n: nat)
    requires s.loop == []
    ensures Run(s, Drains(n)) == s
  {
    hide Do;
    if n > 0 {
      IdleDrains(s, n - 1);
      assert Drains(n)[..n - 1] == Drains(n - 1);
      IdleDrain(s);
    }
  }

  lemma DrainKeeps(s: System)
    ensures Do(s, Drain).orphans <= s.orphans && Do(s, Drain).resume == s.resume
  {
    hide Upserted;
  }

  lemma {:induction false} DrainsKeep(s: System, n: nat)
    ensures Run(s, Drains(n)).orphans <= s.orphans && Run(s, Drains(n)).resume == s.resume
  {
    hide Do;
    if n > 0 {
      DrainsKeep(s, n - 1);
      assert Drains(n)[..n - 1] == Drains(n - 1);
      DrainKeeps(Run(s, Drains(n - 1)));
    }
  }

  lemma MirrorOf(s: System)
    requires SystemInv(s)
    ensures MirrorOk(s)
  {
  }

  lemma BatchLoop(s: System, batch: seq<B.Submission>)
    requires Enabled(s, SubmitBatch(batch)) && B.SubmitEach(s.h.b, batch).1 == |batch|
    ensures var u, ids := Do(s, SubmitBatch(batch)), Engine.Ids(batch);
            && |u.loop| == |ids| && (forall i | 0 <= i < |ids| :: u.loop[i] == Upsert(ids[i], None))
            && (forall i | 0 <= i < |ids| :: ids[i] in u.h.b.tasks)
  {
    hide Operate, B.SubmitEach, IsNew;
    BrokerStep(s, SubmitBatch(batch));
    BatchKeys(s.h.b, batch);
    assert batch[..|batch|] == batch;
    hide Fresh;
  }

  lemma BatchDrained(s: System, batch: seq<B.Submission>)
    requires Enabled(s, SubmitBatch(batch)) && |batch| <= Room(s.h.b)
    ensures Run(Do(s, SubmitBatch(batch)), Drains(|batch|)).loop == []
  {
    hide Operate, B.SubmitEach, B.Entries, Drains, Run, IsNew, Fresh, B.Depth;
    BatchTakesLongestPrefix(s.h.b, batch);
    BatchLoop(s, batch);
    var u := Do(s, SubmitBatch(batch));
    hide Do;
    DrainsUpsert(u, Engine.Ids(batch), |batch|);
  }

  /** A batch handled to its end, from a state at rest: what is owed, and which rows are still to come. */
  lemma BatchHandled(s: System, batch: seq<B.Submission>)
    requires SystemInv(s) && AtRest(s) && s.orphans == {} && Enabled(s, SubmitBatch(batch))
    ensures var t := Run(Do(s, SubmitBatch(batch)), Drains(|batch|));
            AtRest(t) && (t.orphans == {} <==> Fits(s.h.b, batch))
  {
    hide Run, Drains, Do, SystemInv, Enabled, Room, Upserts;
    MirrorOf(s);
    BatchOrphansExactly(s, batch);
    BatchAround(s, batch);
    var u := Do(s, SubmitBatch(batch));
    DrainsKeep(u, |batch|);
    if |batch| <= Room(s.h.b) {
      BatchDrained(s, batch);
    } else {
      IdleDrains(u, |batch|);
    }
    hide MirrorOk, BatchIds;
  }

  lemma RunOne(s: System, step: Step)
    ensures Run(s, [step]) == Do(s, step)
  {
    hide Do;
    assert [step][..0] == [];
    assert Run(s, []) == s;
  }

  /**
   * From any state at rest whose mirror is full, submitting a batch and draining its upserts leaves
   * the mirror full if and only if the batch fits or finds no room.
   */
  lemma {:induction false} BatchKeepsMirror(maxDepth: int, clock: real, steps: seq<Step>, batch: seq<B.Submission>)
    requires var s := Run(Boot(maxDepth, clock), steps); AtRest(s) && FullMirror(s) && Enabled(s, SubmitBatch(batch))
    ensures var s := Run(Boot(maxDepth, clock), steps);
            var t := Run(Do(s, SubmitBatch(batch)), Drains(|batch|));
            AtRest(t) && (FullMirror(t) <==> Fits(s.h.b, batch))
  {
    hide Run, Drains, Agrees, Enabled, SystemInv, Suits, AtRest, Do;
    var s0 := Boot(maxDepth, clock);
    var s := Run(s0, steps);
    EverySystemRun(maxDepth, clock, steps);
    MirrorShows(s);
    MirrorAtRest(maxDepth, clock, steps);
    BatchHandled(s, batch);
    var t := Run(Do(s, SubmitBatch(batch)), Drains(|batch|));
    RunOne(s, SubmitBatch(batch));
    RunAppend(s, [SubmitBatch(batch)], Drains(|batch|));
    RunAppend(s0, steps, [SubmitBatch(batch)] + Drains(|batch|));
    MirrorAtRest(maxDepth, clock, steps + ([SubmitBatch(batch)] + Drains(|batch|)));
    MirrorShows(t);
  }
}
