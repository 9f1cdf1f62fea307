/** The store as a mirror of the live tasks: in every run each row agrees with its task or an upsert is owed. */
module ClusterMirror {
  import opened Models
  import opened Bags
  import opened BrokerRuns
  import opened RunInvariants
  import opened Operations
  import opened OpEffects
  import opened Store
  import opened Cluster
  import opened ClusterRuns
  import B = BrokerModel

  ghost predicate InLoop(loop: seq<Upsert>, id: string) {
    exists i :: 0 <= i < |loop| && loop[i].id == id
  }

  /** Some operation still owes an upsert of this task. */
  ghost predicate Owes(s: System, id: string) {
    id in s.resume || InLoop(s.loop, id)
  }

  /** The task's row agrees with it, or an upsert is owed, or it came in with a batch that was refused half way. */
  ghost predicate Mirrored(s: System, id: string) {
    id in s.h.b.tasks ==> id in s.orphans || Owes(s, id) || (id in s.rows && Agrees(s.rows[id], s.h.b.tasks[id]))
  }

  /** Rows, orphans and owed upserts speak of known tasks; a row keeps its task's spec; an orphan has no row. */
  ghost predicate Known(s: System, id: string) {
    && (Owes(s, id) || id in s.orphans || id in s.rows ==> id in s.h.b.tasks)
    && (id in s.orphans ==> id !in s.rows)
    && (id in s.rows && id in s.h.b.tasks ==>
          s.rows[id].spec == s.h.b.tasks[id].spec && s.rows[id].createdAt == s.h.b.tasks[id].createdAt)
  }

  ghost predicate MirrorOk(s: System) {
    forall id :: Mirrored(s, id) && Known(s, id)
  }

  // ---------- What a step does to rows, orphans and owed upserts ----------

  lemma LoopTail(loop: seq<Upsert>, id: string)
    requires loop != []
    ensures InLoop(loop, id) <==> loop[0].id == id || InLoop(loop[1..], id)
  {
    if InLoop(loop, id) && loop[0].id != id {
      var i :| 0 <= i < |loop| && loop[i].id == id;
      assert loop[1..][i - 1].id == id;
    }
    if InLoop(loop[1..], id) {
      var i :| 0 <= i < |loop[1..]| && loop[1..][i].id == id;
      assert loop[i + 1].id == id;
    }
  }

  lemma LoopOne(u: Upsert, id: string)
    ensures InLoop([u], id) <==> u.id == id
  {
    assert [u][0] == u;
  }

  lemma UpsertsLoop(batch: seq<B.Submission>, id: string)
    ensures InLoop(Upserts(batch), id) <==> id in BatchIds(batch)
  {
    if id in BatchIds(batch) {
      var i :| 0 <= i < |batch| && batch[i].id == id;
      assert Upserts(batch)[i].id == id;
    }
  }

  lemma BagMember(ids: seq<string>, id: string)
    ensures id in Bag(ids) <==> id in IdsIn(ids)
  {
    BagIsMultiset(ids);
  }

  lemma NothingOwed(id: string)
    ensures !InLoop([], id)
  {
  }

  lemma BatchIsNew(b: B.Broker, batch: seq<B.Submission>, n: nat, id: string)
    requires Fresh(b, batch) && n <= |batch| && id in BatchIds(batch[..n])
    ensures id !in b.tasks
  {
    var i :| 0 <= i < |batch[..n]| && batch[..n][i].id == id;
    assert IsNew(b, batch[i]);
  }

  lemma {:induction false} BatchOwes(s: System, batch: seq<B.Submission>, id: string)
    requires Enabled(s, SubmitBatch(batch))
    ensures var s', n := Around(s, SubmitBatch(batch)), B.SubmitEach(s.h.b, batch).1;
            && (Owes(s', id) || id in s'.orphans <==> Owes(s, id) || id in s.orphans || id in BatchIds(batch[..n]))
            && (id in s.orphans ==> id in s'.orphans)
            && (id in s'.orphans && id !in s.orphans ==> id !in s.h.b.tasks)
            && s'.rows == s.rows
  {
    hide B.SubmitEach, Upserts, BatchIds, InLoop, Fresh;
    NothingOwed(id);
    var n := B.SubmitEach(s.h.b, batch).1;
    assert n == |batch| ==> batch[..n] == batch;
    UpsertsLoop(batch, id);
    if id in BatchIds(batch[..n]) {
      BatchIsNew(s.h.b, batch, n, id);
    }
  }

  /** A handler that leaves just this upsert owes just that. */
  lemma OwesOne(s: System, s': System, u: Upsert, id: string)
    requires s.loop == [] && s'.loop == [u] && s'.resume == s.resume
    ensures Owes(s', id) <==> Owes(s, id) || id == u.id
  {
    hide InLoop;
    NothingOwed(id);
    LoopOne(u, id);
  }

  lemma ResumeOwes(s: System, id: string, x: string)
    requires Enabled(s, Resume(x))
    ensures Owes(Around(s, Resume(x)), id) <==> Owes(s, id)
  {
    hide InLoop;
    NothingOwed(id);
    LoopOne(Upsert(x, None), id);
  }

  lemma HandlerOwes(s: System, step: Step, id: string)
    requires Enabled(s, step)
    requires step.Submit? || step.Resume? || step.Report? || step.CancelTask? || step.RetryTask?
    ensures var s' := Around(s, step);
            var touched := OpOf(step).Some? && id in Touched(s.h.b, OpOf(step).value);
            && (Owes(s', id) <==> Owes(s, id) || touched)
            && s'.orphans == s.orphans && s'.rows == s.rows
  {
    hide B.Depth, Owes, SetSlot, IsNew;
    var s' := Around(s, step);
    match step {
      case Submit(item) => if s'.loop != [] { OwesOne(s, s', Upsert(item.id, None), id); }
      case Resume(x) => ResumeOwes(s, id, x);
      case Report(_, _, r, _, _) => OwesOne(s, s', Upsert(r.taskId, Some(r)), id);
      case CancelTask(x) => OwesOne(s, s', Upsert(x, None), id);
      case RetryTask(x, _, _) => OwesOne(s, s', Upsert(x, None), id);
    }
  }

  lemma ThreadOwes(s: System, step: Step, id: string)
    requires Enabled(s, step)
    requires step.Launch? || step.Attempt? || step.Reap? || step.Die? || step.Snapshot?
    ensures var s' := Around(s, step);
            var touched := OpOf(step).Some? && id in Touched(s.h.b, OpOf(step).value);
            && (Owes(s', id) <==> Owes(s, id) || touched)
            && s'.orphans == s.orphans && s'.rows == s.rows
  {
    hide B.Reserve, B.Requeue, Bag, IdsIn, InLoop, SetSlot;
    match step {
      case Reap(now, visits) => BagMember(B.Requeue(s.h.b, now, visits).1, id);
      case _ =>
    }
  }

  /** A step that does not drain owes what its broker call touched, and forgets nothing. */
  lemma OwesAfter(s: System, step: Step, id: string)
    requires Enabled(s, step) && !step.Drain? && !step.SubmitBatch?
    ensures var s' := Around(s, step);
            var touched := OpOf(step).Some? && id in Touched(s.h.b, OpOf(step).value);
            && (Owes(s', id) <==> Owes(s, id) || touched)
            && s'.orphans == s.orphans && s'.rows == s.rows
  {
    hide Enabled, Around, Touched, OpOf, Owes;
    if step.Launch? || step.Attempt? || step.Reap? || step.Die? || step.Snapshot? {
      ThreadOwes(s, step, id);
    } else {
      HandlerOwes(s, step, id);
    }
  }

  lemma DrainAfter(s: System, id: string)
    requires Enabled(s, Drain)
    ensures var s', u := Around(s, Drain), s.loop[0];
            && (id != u.id ==> (Owes(s, id) <==> Owes(s', id)) && (id in s.orphans <==> id in s'.orphans)
                               && (id in s.rows <==> id in s'.rows) && (id in s.rows ==> s'.rows[id] == s.rows[id]))
            && u.id in s'.rows && u.id !in s'.orphans
            && s'.rows[u.id].status == s.h.b.tasks[u.id].status && s'.rows[u.id].attempts == s.h.b.tasks[u.id].attempts
            && s'.rows[u.id].error == s.h.b.tasks[u.id].lastError
            && s'.rows[u.id].assignedWorker == s.h.b.tasks[u.id].assignedWorker
            && (u.id in s.rows ==> s'.rows[u.id].spec == s.rows[u.id].spec && s'.rows[u.id].createdAt == s.rows[u.id].createdAt)
            && (u.id !in s.rows ==> s'.rows[u.id].spec == s.h.b.tasks[u.id].spec
                                    && s'.rows[u.id].createdAt == s.h.b.tasks[u.id].createdAt)
  {
    hide InLoop;
    LoopTail(s.loop, id);
  }

  // ---------- The mirror is kept ----------

  lemma BatchTouched(s: System, step: Step)
    requires Enabled(s, step)
    ensures step.SubmitBatch? ==>
              OpOf(step).Some? && Touched(s.h.b, OpOf(step).value) == BatchIds(step.batch[..B.SubmitEach(s.h.b, step.batch).1])
  {
    hide B.SubmitEach, Fresh, BatchIds;
  }

  lemma SameOwes(s: System, step: Step, id: string)
    requires Enabled(s, step)
    ensures Owes(Do(s, step), id) <==> Owes(Around(s, step), id)
  {
    hide Around, Enabled, Operate;
  }

  lemma MirrorKeptBy(s: System, step: Step, id: string)
    requires Enabled(s, step) && !step.Drain? && Inv(s.h) && Mirrored(s, id) && Known(s, id)
    ensures Mirrored(Do(s, step), id) && Known(Do(s, step), id)
  {
    hide Around, Enabled, Inv, Operate, Perform, Owes, Agrees, SameIdentity;
    if step.SubmitBatch? {
      BatchOwes(s, step.batch, id);
    } else {
      OwesAfter(s, step, id);
    }
    BrokerStep(s, step);
    SameOwes(s, step, id);
    InvIsWellFormed(s.h);
    BatchTouched(s, step);
    hide OpOf;
    if OpOf(step).Some? {
      var op := OpOf(step).value;
      if id in Touched(s.h.b, op) {
        TouchedEffect(s.h.b, op, id);
      } else {
        OthersKept(s.h.b, op, id);
      }
      hide Touched;
    }
  }

  lemma MirrorKeptByDrain(s: System, id: string)
    requires Enabled(s, Drain) && Mirrored(s, id) && Known(s, id) && Known(s, s.loop[0].id)
    ensures Mirrored(Do(s, Drain), id) && Known(Do(s, Drain), id)
  {
    hide Around, Owes;
    DrainAfter(s, id);
    SameOwes(s, Drain, id);
    hide Enabled;
  }

  lemma DrainIsEnabled(s: System)
    requires Enabled(s, Drain)
    ensures s.loop != []
  {
  }

  lemma {:induction false} MirrorKept(s: System, step: Step)
    requires MirrorOk(s) && Inv(s.h)
    ensures MirrorOk(Do(s, step))
  {
    if Enabled(s, step) {
      hide Do, Inv, Mirrored, Known, Enabled;
      if step.Drain? {
        DrainIsEnabled(s);
      }
      forall id ensures Mirrored(Do(s, step), id) && Known(Do(s, step), id) {
        if step.Drain? {
          MirrorKeptByDrain(s, id);
        } else {
          MirrorKeptBy(s, step, id);
        }
      }
    }
  }

  // ---------- Results ----------

  ghost function ResultOf(results: map<string, TaskResult>, id: string): Option<TaskResult> {
    if id in results then Some(results[id]) else None
  }

  /** The row's result is the latest one reported, or the upsert that carries that one is next. */
  ghost predicate ResultOk(rows: map<string, Row>, results: map<string, TaskResult>, loop: seq<Upsert>, id: string) {
    || ResultIn(rows, id) == ResultOf(results, id)
    || (|loop| == 1 && loop[0].id == id && loop[0].result.Some? && loop[0].result == ResultOf(results, id))
  }

  /** An upsert with a result stands alone and carries the latest result. */
  ghost predicate CarriesLatest(results: map<string, TaskResult>, loop: seq<Upsert>) {
    forall i | 0 <= i < |loop| && loop[i].result.Some? :: |loop| == 1 && loop[i].result == ResultOf(results, loop[i].id)
  }

  ghost predicate ResultsOk(rows: map<string, Row>, results: map<string, TaskResult>, loop: seq<Upsert>) {
    CarriesLatest(results, loop) && forall id :: ResultOk(rows, results, loop, id)
  }

  lemma CarriesKept(s: System, step: Step)
    requires Enabled(s, step) && CarriesLatest(s.results, s.loop)
    ensures CarriesLatest(Around(s, step).results, Around(s, step).loop)
  {
    hide B.Reserve, B.Depth, B.SubmitEach, B.Requeue, Bag, BatchIds, SetSlot, IsNew, Fresh, Reports;
    match step {
      case Drain => assert forall i | 0 <= i < |s.loop[1..]| :: s.loop[1..][i] == s.loop[i + 1];
      case SubmitBatch(batch) => assert forall i | 0 <= i < |batch| :: Upserts(batch)[i].result == None;
      case _ =>
    }
  }

  lemma ResultKept(s: System, step: Step, id: string)
    requires Enabled(s, step) && CarriesLatest(s.results, s.loop) && ResultOk(s.rows, s.results, s.loop, id)
    ensures ResultOk(Around(s, step).rows, Around(s, step).results, Around(s, step).loop, id)
  {
    hide B.Reserve, B.Depth, B.SubmitEach, B.Requeue, Bag, BatchIds, SetSlot, IsNew, Fresh, Reports, Upserts;
  }

  lemma ResultsKept(s: System, step: Step)
    requires ResultsOk(s.rows, s.results, s.loop)
    ensures var s' := Do(s, step); ResultsOk(s'.rows, s'.results, s'.loop)
  {
    if Enabled(s, step) {
      hide Around, Enabled, Operate, ResultOk, CarriesLatest;
      CarriesKept(s, step);
      var s' := Around(s, step);
      forall id ensures ResultOk(s'.rows, s'.results, s'.loop, id) {
        ResultKept(s, step, id);
      }
    }
  }

  // ---------- Every run ----------

  ghost predicate SystemInv(s: System) {
    && Inv(s.h)
    && LeaseOk(s.h.b, s.slots)
    && TopoOk(s)
    && MirrorOk(s)
    && ResultsOk(s.rows, s.results, s.loop)
  }

  lemma SystemInvAtStart(maxDepth: int, clock: real)
    ensures SystemInv(Boot(maxDepth, clock))
  {
    InvAtStart(maxDepth, clock);
    hide Inv;
    assert Boot(maxDepth, clock).trace == [];
  }

  lemma SystemInvKept(s: System, step: Step)
    requires SystemInv(s)
    ensures SystemInv(Do(s, step))
  {
    hide Do, Inv, LeaseOk, TopoOk, MirrorOk, ResultsOk;
    InvIsWellFormed(s.h);
    InvStep(s, step);
    LeaseKept(s, step);
    TopoKept(s, step);
    MirrorKept(s, step);
    ResultsKept(s, step);
  }

  /** The invariant holds in every run of the scheduler with its workers. */
  lemma {:induction false} EverySystemRun(maxDepth: int, clock: real, steps: seq<Step>)
    ensures SystemInv(Run(Boot(maxDepth, clock), steps))
  {
    hide SystemInv, Do;
    if steps == [] {
      SystemInvAtStart(maxDepth, clock);
    } else {
      EverySystemRun(maxDepth, clock, steps[..|steps| - 1]);
      SystemInvKept(Run(Boot(maxDepth, clock), steps[..|steps| - 1]), steps[|steps| - 1]);
    }
  }

  lemma LeaseBoundIn(s: System, worker: string)
    requires SystemInv(s)
    ensures |Leased(s.h.b, worker)| <= if worker in s.slots then |s.slots[worker]| else 0
  {
    LeaseBound(s, worker);
  }

  lemma Launched(s: System, worker: string, capacity: nat)
    requires worker !in s.slots
    ensures var s' := Do(s, Launch(worker, capacity)); worker in s'.slots && |s'.slots[worker]| == capacity
  {
  }

  lemma {:induction false} RunAppend(s: System, a: seq<Step>, c: seq<Step>)
    ensures Run(s, a + c) == Run(Run(s, a), c)
  {
    hide Do;
    if c == [] {
      assert a + c == a;
    } else {
      assert (a + c)[..|a + c| - 1] == a + c[..|c| - 1];
      RunAppend(s, a, c[..|c| - 1]);
    }
  }

  /** In every run a worker has at most as many leases as it was launched with slots. */
  lemma {:induction false} LeasesWithinCapacity(maxDepth: int, clock: real, before: seq<Step>, worker: string,
                                                capacity: nat, after: seq<Step>)
    requires worker !in Run(Boot(maxDepth, clock), before).slots
    ensures var s := Run(Run(Boot(maxDepth, clock), before + [Launch(worker, capacity)]), after);
            |Leased(s.h.b, worker)| <= capacity
  {
    hide SystemInv, Do, HeldIds, Leased;
    var s0 := Boot(maxDepth, clock);
    var launch := before + [Launch(worker, capacity)];
    assert launch[..|launch| - 1] == before;
    Launched(Run(s0, before), worker, capacity);
    CapacityFixed(Run(s0, launch), after, worker);
    RunAppend(s0, launch, after);
    EverySystemRun(maxDepth, clock, launch + after);
    LeaseBoundIn(Run(s0, launch + after), worker);
  }

  /** In every run a dispatch comes after the reported success of each dependency, itself after a dispatch of that dependency. */
  lemma {:induction false} DispatchIsTopological(maxDepth: int, clock: real, steps: seq<Step>, k: nat)
    requires var s := Run(Boot(maxDepth, clock), steps); k < |s.trace| && s.trace[k].Sent?
    ensures var s := Run(Boot(maxDepth, clock), steps);
            && s.trace[k].id in s.h.b.tasks
            && forall d | d in s.h.b.tasks[s.trace[k].id].spec.dependsOn :: SentThenDone(s.trace, d, k)
  {
    hide Run, Inv, LeaseOk, MirrorOk, ResultsOk, SentThenDone;
    EverySystemRun(maxDepth, clock, steps);
    var s := Run(Boot(maxDepth, clock), steps);
    assert MarkOk(s.trace[..k], s.trace[k], s.h.b.tasks);
    forall d | d in s.h.b.tasks[s.trace[k].id].spec.dependsOn ensures SentThenDone(s.trace, d, k) {
      SentAfterDependencies(s.trace, s.h.b.tasks, k, d);
    }
  }

  /** In every run no task on a dependency cycle, or behind one, is ever dispatched. */
  lemma CyclesAreNeverDispatched(maxDepth: int, clock: real, steps: seq<Step>, ids: set<string>, k: nat)
    requires var s := Run(Boot(maxDepth, clock), steps);
             Stuck(s.h.b.tasks, ids) && k < |s.trace| && s.trace[k].Sent?
    ensures Run(Boot(maxDepth, clock), steps).trace[k].id !in ids
  {
    hide Run, Inv, LeaseOk, MirrorOk, ResultsOk;
    EverySystemRun(maxDepth, clock, steps);
    var s := Run(Boot(maxDepth, clock), steps);
    StuckNeverSent(s.trace, s.h.b.tasks, ids, k);
  }

  /** No upsert is owed. */
  ghost predicate AtRest(s: System) {
    s.loop == [] && s.resume == multiset{}
  }

  /** At rest every row agrees with its task and bears the latest result, exactly when no refused batch has left rows missing. */
  lemma {:induction false} MirrorAtRest(maxDepth: int, clock: real, steps: seq<Step>)
    requires AtRest(Run(Boot(maxDepth, clock), steps))
    ensures var s := Run(Boot(maxDepth, clock), steps);
            && ((s.rows.Keys == s.h.b.tasks.Keys && forall id | id in s.rows :: Agrees(s.rows[id], s.h.b.tasks[id]))
                <==> s.orphans == {})
            && (forall id | id in s.rows :: id in s.h.b.tasks && Agrees(s.rows[id], s.h.b.tasks[id]))
            && (forall id | id in s.rows :: s.rows[id].result == ResultOf(s.results, id))
  {
    hide Run, Inv, LeaseOk, TopoOk, Agrees;
    EverySystemRun(maxDepth, clock, steps);
    var s := Run(Boot(maxDepth, clock), steps);
    forall id
      ensures id in s.h.b.tasks ==> id in s.orphans || (id in s.rows && Agrees(s.rows[id], s.h.b.tasks[id]))
      ensures (id in s.rows || id in s.orphans ==> id in s.h.b.tasks) && (id in s.orphans ==> id !in s.rows)
      ensures ResultIn(s.rows, id) == ResultOf(s.results, id)
    {
      assert Mirrored(s, id) && Known(s, id);
      assert ResultOk(s.rows, s.results, s.loop, id);
    }
    hide MirrorOk, ResultsOk;
  }

  /** At rest, with no batch refused, the table's count of a status is that of the live tasks. */
  lemma CountsAgree(maxDepth: int, clock: real, steps: seq<Step>, status: TaskStatus)
    requires var s := Run(Boot(maxDepth, clock), steps); AtRest(s) && s.orphans == {}
    ensures var s := Run(Boot(maxDepth, clock), steps);
            WithStatus(s.rows, status) == set id | id in s.h.b.tasks && s.h.b.tasks[id].status == status
  {
    hide Run;
    MirrorAtRest(maxDepth, clock, steps);
  }

  // ---------- The broker's theorems in the cluster ----------

  /** The broker's events in a step. */
  ghost function StepEvents(s: System, step: Step): seq<Event> {
    if Enabled(s, step) && OpOf(step).Some? then Events(s.h.b, OpOf(step).value) else []
  }

  ghost function RunEvents(s: System, steps: seq<Step>): seq<Event> {
    if steps == [] then []
    else RunEvents(s, steps[..|steps| - 1]) + StepEvents(Run(s, steps[..|steps| - 1]), steps[|steps| - 1])
  }

  lemma StepIsEvents(s: System, step: Step)
    ensures Do(s, step).h == After(s.h, StepEvents(s, step))
  {
    hide Around, Enabled, Next, Events;
  }

  /** Every run of the cluster is, for the broker, one of its runs of events. */
  lemma {:induction false} BrokerRunOf(s: System, steps: seq<Step>)
    ensures Run(s, steps).h == After(s.h, RunEvents(s, steps))
  {
    hide Do, Next, StepEvents;
    if steps != [] {
      var front, step := steps[..|steps| - 1], steps[|steps| - 1];
      BrokerRunOf(s, front);
      StepIsEvents(Run(s, front), step);
      AfterAppend(s.h, RunEvents(s, front), StepEvents(Run(s, front), step));
    }
  }

  /** The ids of the tasks sent to workers. */
  ghost function SentIds(trace: seq<Mark>): multiset<string> {
    if trace == [] then multiset{}
    else
      var m := trace[|trace| - 1];
      SentIds(trace[..|trace| - 1]) + if m.Sent? then multiset{m.id} else multiset{}
  }

  lemma SentPlus(trace: seq<Mark>, marks: seq<Mark>)
    requires |marks| <= 1
    ensures SentIds(trace + marks) == SentIds(trace) + SentIds(marks)
  {
    if marks == [] {
      assert trace + marks == trace;
      assert SentIds(trace) + multiset{} == SentIds(trace);
    } else {
      assert (trace + marks)[..|trace|] == trace;
      assert marks[..0] == [];
    }
  }

  lemma MarksAreHanded(s: System, step: Step)
    requires Enabled(s, step)
    ensures |NewMarks(s, step)| <= 1
    ensures SentIds(NewMarks(s, step)) == if OpOf(step).Some? then HandedBy(s.h.b, OpOf(step).value) else multiset{}
  {
    hide Enabled, B.Reserve;
    var marks := NewMarks(s, step);
    if marks != [] {
      assert marks[..0] == [];
      assert SentIds([]) == multiset{};
    }
  }

  lemma SentMore(s: System, step: Step)
    requires Enabled(s, step) && SentIds(s.trace) == s.h.flow.dispatched
    ensures SentIds(Do(s, step).trace) == Do(s, step).h.flow.dispatched
  {
    hide Around, Enabled, Operate, SentIds, NewMarks, HandedBy, Perform;
    TraceAfter(s, step);
    MarksAreHanded(s, step);
    SentPlus(s.trace, NewMarks(s, step));
    if OpOf(step).Some? {
      OperationIsEvents(s.h, OpOf(step).value);
    }
  }

  lemma Refused(s: System, step: Step)
    requires !Enabled(s, step)
    ensures Do(s, step) == s
  {
  }

  lemma {:induction false} SentAreDispatched(maxDepth: int, clock: real, steps: seq<Step>)
    ensures var s := Run(Boot(maxDepth, clock), steps); SentIds(s.trace) == s.h.flow.dispatched
  {
    hide Do;
    if steps != [] {
      var s, step := Run(Boot(maxDepth, clock), steps[..|steps| - 1]), steps[|steps| - 1];
      SentAreDispatched(maxDepth, clock, steps[..|steps| - 1]);
      if Enabled(s, step) {
        SentMore(s, step);
      } else {
        Refused(s, step);
      }
    }
  }

  /** In every run of the cluster a task is sent to workers at most max_retries + 1 times. */
  lemma {:induction false} SendsWithinBudget(maxDepth: int, clock: real, steps: seq<Step>, id: string)
    ensures var s := Run(Boot(maxDepth, clock), steps);
            SentIds(s.trace)[id] <= if id in s.h.b.tasks then 1 + s.h.b.tasks[id].spec.maxRetries else 0
  {
    hide Run, After, SentIds, Image;
    SentAreDispatched(maxDepth, clock, steps);
    BrokerRunOf(Boot(maxDepth, clock), steps);
    DispatchLimit(maxDepth, clock, RunEvents(Boot(maxDepth, clock), steps), id);
  }
}
