/**
 * Runs of the cluster in which the code does less than its interface suggests. The exact conditions
 * are in BrokerLaws, for reports, and in ClusterBatches, for refused batches.
 */
module Findings {
  import opened Models
  import opened Ordering
  import opened Bags
  import opened BrokerRuns
  import opened Operations
  import opened BrokerLaws
  import opened OpEffects
  import opened Cluster
  import opened ClusterRuns
  import opened ClusterMirror
  import opened ClusterTiming
  import opened EngineSteps
  import B = BrokerModel

  // ---------- The cast ----------

  function Spec(maxRetries: int): TaskSpec {
    TaskSpec("job", map[], Io, "default", 100, 0.0, maxRetries, 0.0, 60.0, {}, {}, None)
  }

  function Worker(id: string): WorkerInfo {
    WorkerInfo(id, {"default"}, {}, 1, WorkerStatus.Idle, 0, 0.0)
  }

  /** The entry of task "a" after its n-th push. */
  function Entry(n: nat): ReadyEntry {
    ReadyEntry(100, 0.0, n, "a")
  }

  ghost function TaskA(attempts: nat, status: TaskStatus, availableAt: real, error: Option<string>, worker: Option<string>,
                       lease: Option<real>): Task
  {
    Task(Spec(3), 0.0, availableAt, attempts, status, error, worker, lease)
  }

  /** The broker with task "a" alone. */
  ghost function Alone(task: Task, ready: multiset<ReadyEntry>, inflight: set<string>, cancelled: set<string>,
                       sequence: nat): B.Broker
  {
    B.Broker(1, ready, multiset{}, map["a" := task], inflight, {}, cancelled, sequence)
  }

  ghost function Queued(): B.Broker {
    Alone(TaskA(0, TaskStatus.Queued, 0.0, None, None, None), multiset{Entry(1)}, {}, {}, 1)
  }

  ghost function Reserved(): B.Broker {
    Alone(TaskA(0, Running, 0.0, None, Some("w"), Some(30.0)), multiset{}, {"a"}, {}, 1)
  }

  /** After the lease expired. */
  ghost function Expired(): B.Broker {
    Alone(TaskA(1, Retrying, 40.0, Some("lease expired"), None, None), multiset{Entry(2)}, {}, {}, 2)
  }

  ghost function Item(): B.Submission {
    B.Submission("a", NewTask(Spec(3), 0.0), 0.0, 0.0)
  }

  function Take(now: real): Step {
    Attempt(Worker("w"), 0, {}, 30.0, now, now)
  }

  ghost function Sweep(): Step {
    Reap(40.0, [B.Visit("a", 40.0, 40.0)])
  }

  function Success(result: Json): TaskResult {
    TaskResult("a", "w", TaskStatus.Succeeded, 0.0, 50.0, result, None)
  }

  function Failure(result: Json): TaskResult {
    TaskResult("a", "w", TaskStatus.Failed, 0.0, 50.0, result, Some("crashed"))
  }

  // ---------- What the broker calls do ----------

  lemma SubmitValue()
    ensures Perform(B.Empty(1), SubmitOne(Item())) == Queued()
  {
    assert B.Active(B.Empty(1)) == {};
  }

  lemma PromoteNothing(b: B.Broker, now: real)
    requires b.delayed == multiset{}
    ensures B.Promote(b, now) == b
  {
    assert B.DueEntries(b, now) == multiset{} && B.Moved(b, now) == multiset{};
    assert b.ready + multiset{} == b.ready;
  }

  lemma OneKey<T>(key: string, x: T, y: T)
    ensures map[key := x][key := y] == map[key := y]
  {
  }

  lemma OnlyEligible(task: Task, e: ReadyEntry, sequence: nat)
    requires task.spec == Spec(3) && e.id == "a"
    ensures B.PopEligible(Alone(task, multiset{e}, {}, {}, sequence), Worker("w"), {}) ==
            (Alone(task, multiset{}, {}, {}, sequence), Some("a"))
  {
    var b, w := Alone(task, multiset{e}, {}, {}, sequence), Worker("w");
    assert B.Dropped(b, w.queues) == multiset{};
    assert B.DropCancelled(b, w.queues) == b;
    hide B.DropCancelled;
    assert B.Eligible(b, w, {}) == {e};
    assert Least({e}) == e;
    assert multiset{e} - multiset{e} == multiset{};
  }

  /** The only entry, when it can be taken, is taken. */
  lemma ReserveOnly(task: Task, e: ReadyEntry, sequence: nat, now: real)
    requires task.spec == Spec(3) && e.id == "a"
    ensures B.Reserve(Alone(task, multiset{e}, {}, {}, sequence), Worker("w"), {}, 30.0, now, now) ==
            (Alone(task.(status := Running, assignedWorker := Some("w"), leaseDeadline := Some(now + 30.0)),
                   multiset{}, {"a"}, {}, sequence), Some("a"))
  {
    hide B.Promote, B.PopEligible;
    PromoteNothing(Alone(task, multiset{e}, {}, {}, sequence), now);
    OnlyEligible(task, e, sequence);
    OneKey("a", task, task.(status := Running, assignedWorker := Some("w"), leaseDeadline := Some(now + 30.0)));
    assert {} + {"a"} == {"a"};
  }

  lemma SweepRetry()
    ensures B.Retry(Reserved(), "a", "lease expired", 40.0, 40.0) == Expired()
  {
    var task := TaskA(0, Running, 0.0, None, Some("w"), Some(30.0));
    OneKey("a", task, B.Retried(task, "lease expired", 40.0));
    assert {"a"} - {"a"} == {};
    assert multiset{} + multiset{Entry(2)} == multiset{Entry(2)};
  }

  lemma SweepValue()
    ensures B.Requeue(Reserved(), 40.0, [B.Visit("a", 40.0, 40.0)]) == (Expired(), ["a"])
  {
    var visits := [B.Visit("a", 40.0, 40.0)];
    hide B.Retry;
    SweepRetry();
    assert visits[..0] == [];
    assert B.Requeue(Reserved(), 40.0, []) == (Reserved(), []);
    assert [] + ["a"] == ["a"];
  }

  // ---------- The run up to the expiry ----------

  /** The system with one worker of one slot. */
  ghost predicate Looks(s: System, b: B.Broker, slot: Slot, loop: seq<Upsert>, resume: multiset<string>) {
    s.h.b == b && s.slots == map["w" := [slot]] && s.loop == loop && s.resume == resume
  }

  lemma RunThree(s: System, a: Step, b: Step, c: Step)
    ensures Run(s, [a, b, c]) == Do(Do(Do(s, a), b), c)
  {
    hide Do;
    RunAppend(s, [a, b], [c]);
    RunAppend(s, [a], [b]);
    assert [a, b] + [c] == [a, b, c] && [a] + [b] == [a, b];
    assert [a][..0] == [] && [b][..0] == [] && [c][..0] == [];
  }

  lemma Drained(s: System, slot: Slot, b: B.Broker, u: Upsert, resume: multiset<string>)
    requires Looks(s, b, slot, [u], resume) && u.id in b.tasks
    ensures Looks(Do(s, Drain), b, slot, [], resume)
  {
    hide Do;
    DrainStep(s);
  }

  lemma Resumed(s: System, slot: Slot, b: B.Broker)
    requires Looks(s, b, slot, [], multiset{"a"}) && "a" in b.tasks
    ensures Looks(Do(Do(s, Resume("a")), Drain), b, slot, [], multiset{})
  {
    hide Do;
    ResumeStep(s, "a");
    assert multiset{"a"} - multiset{"a"} == multiset{};
    Drained(Do(s, Resume("a")), slot, b, Upsert("a", None), multiset{});
  }

  /** Worker "w" starts with one slot; task "a" is submitted. */
  lemma Submitted()
    ensures Looks(Run(Boot(1, 0.0), [Launch("w", 1), Cluster.Submit(Item()), Drain]), Queued(), Free, [], multiset{})
  {
    hide Operate, Run, Perform;
    var s := Boot(1, 0.0);
    RunThree(s, Launch("w", 1), Cluster.Submit(Item()), Drain);
    var t := Do(s, Launch("w", 1));
    assert seq(1, _ => Free) == [Free];
    assert t.h == s.h && t.loop == [] && t.slots == map["w" := [Free]];
    SubmitValue();
    BrokerStep(t, Cluster.Submit(Item()));
    assert B.Active(t.h.b) == {};
    assert Looks(Do(t, Cluster.Submit(Item())), Queued(), Free, [Upsert("a", None)], multiset{});
    Drained(Do(t, Cluster.Submit(Item())), Free, Queued(), Upsert("a", None), multiset{});
  }

  /** An attempt of the free slot that brings task "a". */
  lemma Taken(s: System, task: Task, n: nat, now: real)
    requires Looks(s, Alone(task, multiset{Entry(n)}, {}, {}, n), Free, [], multiset{}) && task.spec == Spec(3)
    ensures Enabled(s, Take(now)) && Best(s.h.b, Take(now)) == Some("a")
    ensures Looks(Do(s, Take(now)),
                  Alone(task.(status := Running, assignedWorker := Some("w"), leaseDeadline := Some(now + 30.0)),
                        multiset{}, {"a"}, {}, n),
                  Holding("a"), [], multiset{"a"})
  {
    hide Operate, B.Reserve, Alone;
    ReserveOnly(task, Entry(n), n, now);
    BrokerStep(s, Take(now));
    OneKey("w", [Free], [Holding("a")]);
    assert [Free][0 := Holding("a")] == [Holding("a")];
    assert multiset{} + multiset{"a"} == multiset{"a"};
  }

  /** The slot takes the task, and its row is written. */
  lemma InExecution(s: System)
    requires Looks(s, Queued(), Free, [], multiset{})
    ensures Looks(Run(s, [Take(0.0), Resume("a"), Drain]), Reserved(), Holding("a"), [], multiset{})
  {
    hide Run, Do, Take;
    RunThree(s, Take(0.0), Resume("a"), Drain);
    Taken(s, TaskA(0, TaskStatus.Queued, 0.0, None, None, None), 1, 0.0);
    Resumed(Do(s, Take(0.0)), Holding("a"), Reserved());
  }

  lemma SweepEnabled(s: System)
    requires Looks(s, Reserved(), Holding("a"), [], multiset{})
    ensures Enabled(s, Sweep())
  {
    var visits := [B.Visit("a", 40.0, 40.0)];
    assert visits[0].id == "a";
    forall id ensures Visited(visits, id) <==> id in s.h.b.inflight {
    }
  }

  lemma Swept(s: System)
    requires Looks(s, Reserved(), Holding("a"), [], multiset{})
    ensures Looks(Do(s, Sweep()), Expired(), Holding("a"), [], multiset{"a"})
  {
    hide Operate, B.Requeue, Reserved, Expired;
    SweepValue();
    SweepEnabled(s);
    BrokerStep(s, Sweep());
    assert Bag(["a"]) == multiset{"a"} by { BagIsMultiset(["a"]); }
    assert multiset{} + multiset{"a"} == multiset{"a"};
  }

  /** The lease expires; the task is queued again while the slot goes on. */
  lemma LeaseRunsOut(s: System)
    requires Looks(s, Reserved(), Holding("a"), [], multiset{})
    ensures Looks(Run(s, [Sweep(), Resume("a"), Drain]), Expired(), Holding("a"), [], multiset{})
  {
    hide Run, Do, Sweep, Reserved;
    RunThree(s, Sweep(), Resume("a"), Drain);
    Swept(s);
    Resumed(Do(s, Sweep()), Holding("a"), Expired());
  }

  /** Task "a" is submitted and reserved, its lease expires, and it is queued again. */
  ghost function Prelude(): seq<Step> {
    ([Launch("w", 1), Cluster.Submit(Item()), Drain] + [Take(0.0), Resume("a"), Drain]) + [Sweep(), Resume("a"), Drain]
  }

  lemma AfterPrelude()
    ensures Looks(Run(Boot(1, 0.0), Prelude()), Expired(), Holding("a"), [], multiset{})
  {
    hide Run, Take, Sweep, Reserved, Queued, Expired;
    var first, second := [Launch("w", 1), Cluster.Submit(Item()), Drain], [Take(0.0), Resume("a"), Drain];
    Submitted();
    InExecution(Run(Boot(1, 0.0), first));
    RunAppend(Boot(1, 0.0), first, second);
    LeaseRunsOut(Run(Boot(1, 0.0), first + second));
    RunAppend(Boot(1, 0.0), first + second, [Sweep(), Resume("a"), Drain]);
  }

  lemma RunMore(s: System, steps: seq<Step>, step: Step)
    ensures Run(s, steps + [step]) == Do(Run(s, steps), step)
  {
    hide Do;
    assert (steps + [step])[..|steps|] == steps;
  }

  // ---------- Late reports ----------

  lemma FailureValue(result: Json)
    ensures Entry(2) in Perform(Expired(), ReportOp(Failure(result), 50.0, 50.0)).ready
    ensures Entry(3) in Perform(Expired(), ReportOp(Failure(result), 50.0, 50.0)).ready
  {
  }

  /** A failure reported after the lease expired queues the task a second time. */
  lemma {:induction false} LateFailureQueuesTwice(result: Json)
    ensures var b := Run(Boot(1, 0.0), Prelude() + [Report("w", 0, Failure(result), 50.0, 50.0)]).h.b;
            Entry(2) in b.ready && Entry(3) in b.ready
  {
    hide Run, Do, Perform, Prelude, ReportOp;
    AfterPrelude();
    var s, step := Run(Boot(1, 0.0), Prelude()), Report("w", 0, Failure(result), 50.0, 50.0);
    RunMore(Boot(1, 0.0), Prelude(), step);
    BrokerStep(s, step);
    FailureValue(result);
  }

  lemma LateSuccessValue(result: Json)
    ensures Perform(Expired(), ReportOp(Success(result), 50.0, 50.0)) ==
            Alone(TaskA(1, TaskStatus.Succeeded, 40.0, None, None, None), multiset{Entry(2)}, {}, {}, 2)
  {
    OneKey("a", TaskA(1, Retrying, 40.0, Some("lease expired"), None, None),
           TaskA(1, TaskStatus.Succeeded, 40.0, None, None, None));
    assert {} - {"a"} == {};
  }

  /** The system after a late success, its row written. */
  lemma Settled(s: System, result: Json)
    requires Looks(s, Expired(), Holding("a"), [], multiset{})
    ensures var t := Do(Do(s, Report("w", 0, Success(result), 50.0, 50.0)), Drain);
            && Looks(t, Alone(TaskA(1, TaskStatus.Succeeded, 40.0, None, None, None), multiset{Entry(2)}, {}, {}, 2),
                     Free, [], multiset{})
            && t.trace == s.trace + [Done("a")]
  {
    hide Operate;
    var step := Report("w", 0, Success(result), 50.0, 50.0);
    BrokerStep(s, step);
    var u := Do(s, step);
    OneKey("w", [Holding("a")], [Free]);
    assert [Holding("a")][0 := Free] == [Free];
    LateSuccessValue(result);
    hide Perform;
    assert Looks(u, Alone(TaskA(1, TaskStatus.Succeeded, 40.0, None, None, None), multiset{Entry(2)}, {}, {}, 2),
                 Free, [Upsert("a", Some(Success(result)))], multiset{});
    hide Do;
    DrainStep(u);
  }

  lemma HandedAgain(s: System)
    requires Looks(s, Alone(TaskA(1, TaskStatus.Succeeded, 40.0, None, None, None), multiset{Entry(2)}, {}, {}, 2),
                   Free, [], multiset{})
    ensures "a" in s.h.b.tasks && s.h.b.tasks["a"].status.Succeeded?
    ensures Do(s, Take(60.0)).trace == s.trace + [Sent("a", "w")]
  {
    hide Do, Enabled, Best;
    Taken(s, TaskA(1, TaskStatus.Succeeded, 40.0, None, None, None), 2, 60.0);
    DoTrace(s, Take(60.0));
  }

  /** A success reported after the lease expired leaves an entry, and the succeeded task is handed out again. */
  lemma {:induction false} LateSuccessIsHandedOutAgain(result: Json)
    ensures var late := Prelude() + [Report("w", 0, Success(result), 50.0, 50.0)] + [Drain];
            var s, t := Run(Boot(1, 0.0), late), Run(Boot(1, 0.0), late + [Take(60.0)]);
            && "a" in s.h.b.tasks && s.h.b.tasks["a"].status.Succeeded? && Done("a") in s.trace
            && t.trace == s.trace + [Sent("a", "w")]
  {
    hide Run, Do, Prelude, Take, Looks;
    AfterPrelude();
    var report := Report("w", 0, Success(result), 50.0, 50.0);
    RunMore(Boot(1, 0.0), Prelude(), report);
    RunMore(Boot(1, 0.0), Prelude() + [report], Drain);
    Settled(Run(Boot(1, 0.0), Prelude()), result);
    var late := Prelude() + [report] + [Drain];
    RunMore(Boot(1, 0.0), late, Take(60.0));
    HandedAgain(Run(Boot(1, 0.0), late));
  }

  lemma CancelledThenReported(s: System, result: Json)
    requires s.slots == map["w" := [Holding("a")]] && s.loop == [] && "a" in s.h.b.cancelled && "a" in s.h.b.tasks
    ensures var b := Do(s, Report("w", 0, Success(result), 50.0, 50.0)).h.b;
            "a" in b.cancelled && "a" in b.tasks && b.tasks["a"].status.Succeeded?
  {
    hide Operate;
    BrokerStep(s, Report("w", 0, Success(result), 50.0, 50.0));
  }

  lemma Overwritten(s: System, result: Json)
    requires Looks(s, Expired(), Holding("a"), [], multiset{})
    ensures var b := Do(Do(Do(s, CancelTask("a")), Drain), Report("w", 0, Success(result), 50.0, 50.0)).h.b;
            "a" in b.cancelled && "a" in b.tasks && b.tasks["a"].status.Succeeded?
  {
    hide Operate;
    BrokerStep(s, CancelTask("a"));
    var t := Do(s, CancelTask("a"));
    assert t.loop == [Upsert("a", None)] && t.slots == s.slots && "a" in t.h.b.cancelled && "a" in t.h.b.tasks;
    hide Do, Perform;
    DrainStep(t);
    CancelledThenReported(Do(t, Drain), result);
  }

  /** A report overwrites a cancellation: the task shows as succeeded although it was cancelled. */
  lemma {:induction false} ReportOverwritesCancellation(result: Json)
    ensures var b := Run(Boot(1, 0.0), Prelude() + [CancelTask("a"), Drain, Report("w", 0, Success(result), 50.0, 50.0)]).h.b;
            "a" in b.cancelled && "a" in b.tasks && b.tasks["a"].status.Succeeded?
  {
    hide Run, Prelude;
    AfterPrelude();
    var s, report := Run(Boot(1, 0.0), Prelude()), Report("w", 0, Success(result), 50.0, 50.0);
    RunAppend(Boot(1, 0.0), Prelude(), [CancelTask("a"), Drain, report]);
    RunThree(s, CancelTask("a"), Drain, report);
    Overwritten(s, result);
    hide Do;
  }

  // ---------- A refused batch ----------

  ghost function Pair(): seq<B.Submission> {
    [B.Submission("a", NewTask(Spec(3), 0.0), 0.0, 0.0), B.Submission("b", NewTask(Spec(3), 0.0), 0.0, 0.0)]
  }

  lemma OneFits(b: B.Broker)
    requires b == B.Empty(1) && Fresh(b, Pair())
    ensures B.SubmitEach(b, Pair()).1 == 1 && "a" in B.SubmitEach(b, Pair()).0.tasks
    ensures "a" in BatchIds(Pair()[..1])
  {
    hide B.SubmitEach, IsNew, Fresh;
    assert B.Active(b) == {};
    BatchTakesLongestPrefix(b, Pair());
    BatchKeys(b, Pair());
    assert Pair()[..1][0].id == "a";
    hide B.Entries, Image;
  }

  lemma FreshBatchRefused(s: System)
    requires s == Boot(1, 0.0) && Fresh(s.h.b, Pair())
    ensures var t := Do(s, SubmitBatch(Pair()));
            AtRest(t) && "a" in t.h.b.tasks && "a" !in t.rows && "a" in t.orphans
  {
    hide Operate, B.SubmitEach, IsNew, Fresh, BatchIds;
    OneFits(s.h.b);
    OperationIsEvents(s.h, SubmitMany(Pair()));
  }

  /** A batch that does not fit leaves its first tasks queued in the broker and missing from the store. */
  lemma RefusedBatchLeavesRowsMissing()
    ensures var s := Run(Boot(1, 0.0), [SubmitBatch(Pair())]);
            AtRest(s) && "a" in s.h.b.tasks && "a" !in s.rows && "a" in s.orphans
  {
    var s, step := Boot(1, 0.0), SubmitBatch(Pair());
    assert [step][..0] == [];
    assert Run(s, []) == s;
    hide Do, Run;
    assert Fresh(s.h.b, Pair()) by {
      forall i | 0 <= i < |Pair()| ensures IsNew(s.h.b, Pair()[i]) {
      }
    }
    FreshBatchRefused(s);
  }
}
