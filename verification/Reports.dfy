/** What a reported result does to its task, by the reported status. */
module Reports {
  import opened Models
  import opened Operations
  import opened BrokerOutcomes
  import opened Cluster
  import B = BrokerModel

  /**
   * The error that a report leaves on its task: none after a success, what a cancelled job says, and
   * for any other status what the result says or, when that is nothing or empty, "task failed".
   */
  ghost predicate ReportedError(error: Option<string>, r: TaskResult) {
    match r.status
    case Succeeded => error == None
    case Cancelled => error == r.error
    case _ => if r.error == None || r.error == Some("") then error == Some("task failed") else error == r.error
  }

  /** The row after a report: a success and a cancellation end the task, anything else spends an attempt. */
  ghost predicate ReportedRow(row: Task, was: Task, r: TaskResult) {
    && ReportedError(row.lastError, r) && row.leaseDeadline == None
    && row.spec == was.spec && row.createdAt == was.createdAt
    && match r.status
       case Succeeded => row.status == TaskStatus.Succeeded && row.attempts == was.attempts
                         && row.assignedWorker == was.assignedWorker
       case Cancelled => row.status == TaskStatus.Cancelled && row.attempts == was.attempts
                         && row.assignedWorker == was.assignedWorker
       case _ => row.attempts == was.attempts + 1 && row.assignedWorker == None
                 && row.status == if was.attempts < was.spec.maxRetries then Retrying else DeadLettered
  }

  lemma CompleteKeepsKeys(b: B.Broker, r: TaskResult, t0: real, t1: real)
    requires r.taskId in b.tasks && (r.status.Succeeded? || r.status.Cancelled?)
    ensures Perform(b, ReportOp(r, t0, t1)).tasks.Keys == b.tasks.Keys
  {
  }

  lemma EndingReport(b: B.Broker, r: TaskResult, t0: real, t1: real)
    requires r.taskId in b.tasks && (r.status.Succeeded? || r.status.Cancelled?)
    ensures var b' := Perform(b, ReportOp(r, t0, t1));
            && r.taskId in b'.tasks && ReportedRow(b'.tasks[r.taskId], b.tasks[r.taskId], r)
            && b'.inflight == b.inflight - {r.taskId}
  {
    hide B.Complete, OnlyRow;
    if r.status.Succeeded? {
      CompletionOutcome(b, r.taskId, TaskStatus.Succeeded, None);
    } else {
      CompletionOutcome(b, r.taskId, TaskStatus.Cancelled, r.error);
    }
    CompleteKeepsKeys(b, r, t0, t1);
  }

  lemma FailingReport(b: B.Broker, r: TaskResult, t0: real, t1: real)
    requires r.taskId in b.tasks && !r.status.Succeeded? && !r.status.Cancelled?
    ensures var b' := Perform(b, ReportOp(r, t0, t1));
            && r.taskId in b'.tasks && ReportedRow(b'.tasks[r.taskId], b.tasks[r.taskId], r)
            && b'.inflight == b.inflight - {r.taskId}
  {
    hide B.Retry, PushedOnce, RetryDue;
    assert Perform(b, ReportOp(r, t0, t1)) == B.Retry(b, r.taskId, Reason(r.error), t0, t1);
    hide Perform;
    RetryOutcome(b, r.taskId, Reason(r.error), t0, t1);
  }

  /** A report leaves this row, and takes its task out of flight. */
  lemma {:induction false} ReportOutcome(b: B.Broker, r: TaskResult, t0: real, t1: real)
    requires r.taskId in b.tasks
    ensures var b' := Perform(b, ReportOp(r, t0, t1));
            && r.taskId in b'.tasks && ReportedRow(b'.tasks[r.taskId], b.tasks[r.taskId], r)
            && b'.inflight == b.inflight - {r.taskId}
  {
    hide Perform, ReportOp, ReportedRow;
    if r.status.Succeeded? || r.status.Cancelled? {
      EndingReport(b, r, t0, t1);
    } else {
      FailingReport(b, r, t0, t1);
    }
  }
}
