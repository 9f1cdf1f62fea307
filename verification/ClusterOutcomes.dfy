/** What a report and a reservation leave behind in the cluster: the task, its row, and the lease over the steps that follow. */
module ClusterOutcomes {
  import opened Models
  import opened Operations
  import opened BrokerOutcomes
  import opened OpEffects
  import opened Store
  import opened Cluster
  import opened ClusterRuns
  import opened EngineSteps
  import opened Reports
  import B = BrokerModel

  lemma SpecKept(was: Task, row: Task, r: TaskResult)
    requires ReportedRow(row, was, r)
    ensures row.spec == was.spec && row.createdAt == was.createdAt
  {
  }

  lemma ErrorKept(row: Task, was: Task, r: TaskResult)
    requires ReportedRow(row, was, r)
    ensures ReportedError(row.lastError, r)
  {
  }

  /** A report handled to its end: the task and its row bear the reported outcome, and the row bears the result. */
  lemma {:induction false} ReportLeaves(s: System, worker: string, slot: nat, r: TaskResult, t0: real, t1: real)
    requires Enabled(s, Report(worker, slot, r, t0, t1))
    requires r.taskId in s.rows ==>
               s.rows[r.taskId].spec == s.h.b.tasks[r.taskId].spec
               && s.rows[r.taskId].createdAt == s.h.b.tasks[r.taskId].createdAt
    ensures var t, id := Do(Do(s, Report(worker, slot, r, t0, t1)), Drain), r.taskId;
            && id in s.h.b.tasks && id in t.h.b.tasks && id in t.rows
            && ReportedRow(t.h.b.tasks[id], s.h.b.tasks[id], r)
            && ReportedError(t.rows[id].error, r) && t.rows[id].status == t.h.b.tasks[id].status
            && t.rows[id].attempts == t.h.b.tasks[id].attempts
            && t.rows[id].assignedWorker == t.h.b.tasks[id].assignedWorker
            && t.rows[id].result == Some(r)
            && (r.status == TaskStatus.Succeeded ==> id in t.completed)
  {
    hide Operate, Perform, SetSlot, ReportedRow, ReportedError, Upserted, ReportOp;
    var step := Report(worker, slot, r, t0, t1);
    BrokerStep(s, step);
    ReportOutcome(s.h.b, r, t0, t1);
    var u := Do(s, step);
    assert u.loop == [Upsert(r.taskId, Some(r))] && u.rows == s.rows;
    assert r.status == TaskStatus.Succeeded ==> r.taskId in u.completed;
    SpecKept(s.h.b.tasks[r.taskId], u.h.b.tasks[r.taskId], r);
    UpsertMirrors(s.rows, r.taskId, u.h.b.tasks[r.taskId], Some(r));
    hide Do;
    DrainStep(u);
    ErrorKept(u.h.b.tasks[r.taskId], s.h.b.tasks[r.taskId], r);
  }

  // ---------- A lease over the steps that follow ----------

  /** The step leaves a lease with this deadline alone: nobody reports, retries or cancels the task, or is sent it again. */
  ghost predicate StepSpares(s: System, step: Step, id: string, deadline: real) {
    match step
    case Report(_, _, r, _, _) => r.taskId != id
    case CancelTask(x) => x != id
    case RetryTask(x, _, _) => x != id
    case Attempt(_, _, _, _, _, _) => Best(s.h.b, step) != Some(id)
    case Reap(now, _) => now <= deadline
    case _ => true
  }

  ghost predicate StepsSpare(s: System, steps: seq<Step>, id: string, deadline: real) {
    steps == [] || (StepsSpare(s, steps[..|steps| - 1], id, deadline)
                    && StepSpares(Run(s, steps[..|steps| - 1]), steps[|steps| - 1], id, deadline))
  }

  lemma StepSparesOp(s: System, step: Step, id: string, deadline: real)
    requires Enabled(s, step) && StepSpares(s, step, id, deadline) && OpOf(step).Some?
    ensures Spares(s.h.b, OpOf(step).value, id, deadline)
  {
    hide B.Reserve, Enabled;
  }

  lemma LeaseKeptByStep(s: System, step: Step, id: string, worker: string, deadline: real)
    requires Leases(s.h.b, id, worker, deadline) && StepSpares(s, step, id, deadline)
    ensures Leases(Do(s, step).h.b, id, worker, deadline)
  {
    hide Enabled, Around, Operate, Perform, StepSpares, Spares, Touched, OpOf;
    if Enabled(s, step) {
      BrokerStep(s, step);
      if OpOf(step).Some? {
        StepSparesOp(s, step, id, deadline);
        SparedIsUntouched(s.h.b, OpOf(step).value, id, worker, deadline);
        OthersKept(s.h.b, OpOf(step).value, id);
      }
    }
  }

  lemma SentLeases(s: System, step: Step, id: string)
    requires step.Attempt? && Enabled(s, step) && Best(s.h.b, step) == Some(id)
    ensures Leases(Do(s, step).h.b, id, step.info.workerId, step.t + step.leaseSeconds)
  {
    hide Enabled, Around, Operate, B.Reserve, Leases, Perform;
    BrokerStep(s, step);
    ReservedLeases(s.h.b, OpOf(step).value, id);
  }

  /** A task sent to a worker at t keeps its lease until t + lease_seconds over any steps that leave it alone, sweeps included. */
  lemma {:induction false} SentLeaseLasts(s: System, step: Step, id: string, steps: seq<Step>)
    requires step.Attempt? && Enabled(s, step) && Best(s.h.b, step) == Some(id)
    requires StepsSpare(Do(s, step), steps, id, step.t + step.leaseSeconds)
    ensures Leases(Run(Do(s, step), steps).h.b, id, step.info.workerId, step.t + step.leaseSeconds)
  {
    hide Do, Leases, StepSpares, Best, Enabled;
    if steps == [] {
      SentLeases(s, step, id);
    } else {
      var front := steps[..|steps| - 1];
      SentLeaseLasts(s, step, id, front);
      LeaseKeptByStep(Run(Do(s, step), front), steps[|steps| - 1], id, step.info.workerId, step.t + step.leaseSeconds);
    }
  }
}
