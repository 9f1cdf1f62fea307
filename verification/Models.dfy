/** The records of taskrunner/shared/models.py that the broker, the engine and the codec share. */
module Models {
  datatype Option<+T> = None | Some(value: T)

  datatype TaskKind = Cpu | Io | Async | Scheduled

  datatype TaskStatus =
    | Pending | Queued | Running | Acked | Succeeded | Failed | Retrying | Cancelled | DeadLettered

  datatype WorkerStatus = Starting | Idle | Busy | Draining | Offline

  /** A JSON value; its printing and parsing are not part of this model. */
  type Json(==, !new, 0)

  datatype TaskSpec = TaskSpec(
    target: string,
    payload: map<string, Json>,
    kind: TaskKind,
    queue: string,
    priority: int,
    delaySeconds: real,
    maxRetries: int,
    retryBackoffSeconds: real,
    timeoutSeconds: real,
    affinity: set<string>,
    dependsOn: set<string>,
    batchKey: Option<string>)
  {
    function Normalized(): TaskSpec {
      this.(queue := if queue == "" then "default" else queue,
            priority := if priority < 0 then 0 else priority,
            delaySeconds := if delaySeconds < 0.0 then 0.0 else delaySeconds,
            maxRetries := if maxRetries < 0 then 0 else maxRetries,
            retryBackoffSeconds := if retryBackoffSeconds < 0.0 then 0.0 else retryBackoffSeconds,
            timeoutSeconds := if timeoutSeconds < 0.1 then 0.1 else timeoutSeconds)
    }

    /** What normalization establishes: exactly the specs it leaves alone. */
    predicate IsNormal() {
      queue != "" && priority >= 0 && delaySeconds >= 0.0 && maxRetries >= 0
      && retryBackoffSeconds >= 0.0 && timeoutSeconds >= 0.1
    }
  }

  /** The fields of a TaskEnvelope other than its id. */
  datatype Task = Task(
    spec: TaskSpec,
    createdAt: real,
    availableAt: real,
    attempts: nat,
    status: TaskStatus,
    lastError: Option<string>,
    assignedWorker: Option<string>,
    leaseDeadline: Option<real>)

  datatype TaskResult = TaskResult(
    taskId: string,
    workerId: string,
    status: TaskStatus,
    startedAt: real,
    finishedAt: real,
    result: Json,
    error: Option<string>)

  datatype WorkerInfo = WorkerInfo(
    workerId: string,
    queues: set<string>,
    labels: set<string>,
    capacity: int,
    status: WorkerStatus,
    runningTasks: int,
    lastHeartbeat: real)
  {
    predicate Accepts(spec: TaskSpec) {
      && spec.queue in queues
      && (spec.affinity == {} || spec.affinity * labels != {})
      && (status.Idle? || status.Busy?)
    }
  }

  datatype QueueSnapshot = QueueSnapshot(queued: nat, delayed: nat, inflight: nat, deadLettered: nat, pressure: real)

  predicate Terminal(s: TaskStatus) {
    s.Succeeded? || s.Failed? || s.Cancelled? || s.DeadLettered?
  }

  /**
   * n is the normal form of s: an empty queue is "default", each number is the least one that is
   * neither below the original nor below its bound, and all else is as it was.
   */
  ghost predicate NormalFormOf(n: TaskSpec, s: TaskSpec) {
    && (if s.queue == "" then n.queue == "default" else n.queue == s.queue)
    && n.priority >= s.priority && n.priority >= 0 && (n.priority == s.priority || n.priority == 0)
    && n.delaySeconds >= s.delaySeconds && n.delaySeconds >= 0.0
    && (n.delaySeconds == s.delaySeconds || n.delaySeconds == 0.0)
    && n.maxRetries >= s.maxRetries && n.maxRetries >= 0 && (n.maxRetries == s.maxRetries || n.maxRetries == 0)
    && n.retryBackoffSeconds >= s.retryBackoffSeconds && n.retryBackoffSeconds >= 0.0
    && (n.retryBackoffSeconds == s.retryBackoffSeconds || n.retryBackoffSeconds == 0.0)
    && n.timeoutSeconds >= s.timeoutSeconds && n.timeoutSeconds >= 0.1
    && (n.timeoutSeconds == s.timeoutSeconds || n.timeoutSeconds == 0.1)
    && n.target == s.target && n.payload == s.payload && n.kind == s.kind
    && n.affinity == s.affinity && n.dependsOn == s.dependsOn && n.batchKey == s.batchKey
  }

  /** Normalizing yields the normal form, and changes a spec exactly when it is not normal. */
  lemma NormalizedIsNormal(s: TaskSpec)
    ensures s.Normalized().IsNormal()
    ensures s.Normalized() == s <==> s.IsNormal()
    ensures s.Normalized().Normalized() == s.Normalized()
    ensures NormalFormOf(s.Normalized(), s)
  {
  }

  /**
   * A worker takes tasks of its queues that ask for no label or for one it has, and only while it is
   * idle or busy.
   */
  ghost predicate Suits(w: WorkerInfo, spec: TaskSpec) {
    && spec.queue in w.queues
    && (spec.affinity == {} || exists x :: x in spec.affinity && x in w.labels)
    && (w.status == WorkerStatus.Idle || w.status == WorkerStatus.Busy)
  }

  lemma AcceptsWhatSuits(w: WorkerInfo, spec: TaskSpec)
    ensures w.Accepts(spec) <==> Suits(w, spec)
  {
    if x :| x in spec.affinity && x in w.labels {
      assert x in spec.affinity * w.labels;
    }
    if spec.affinity * w.labels != {} {
      var x :| x in spec.affinity * w.labels;
    }
  }
}
