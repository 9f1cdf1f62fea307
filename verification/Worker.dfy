/** taskrunner/workers/manager.py: the consume loops of a worker as slots, with its running set and counters. */
module Worker {
  import opened Models
  import opened RunInvariants
  import opened Cluster

  /** The slots whose loop is executing a task. */
  ghost function BusySlots(slots: seq<Slot>): set<nat> {
    set i: nat | i < |slots| && slots[i].Holding?
  }

  /** There are no more executions than slots. */
  lemma {:induction false} BusyBound(slots: seq<Slot>)
    ensures |BusySlots(slots)| <= |slots|
  {
    if slots != [] {
      var front := slots[..|slots| - 1];
      BusyBound(front);
      SubsetSize(BusySlots(slots), BusySlots(front) + {|front|});
    }
  }

  class WorkerRuntime {
    const workerId: string
    var slots: seq<Slot>
    var running: set<nat>
    var completed: nat
    var failed: nat

    ghost predicate Valid()
      reads this
    {
      running == BusySlots(slots)
    }

    constructor (workerId: string, capacity: nat)
      ensures Valid() && this.workerId == workerId && slots == seq(capacity, _ => Free)
      ensures completed == 0 && failed == 0
    {
      this.workerId := workerId;
      slots, running := seq(capacity, _ => Free), {};
      completed, failed := 0, 0;
    }

    /** One turn of `_consume_loop` up to the execution: the answer to a reservation. */
    method Receive(slot: nat, answer: Option<string>)
      requires Valid() && slot < |slots| && slots[slot].Free?
      modifies `slots, `running
      ensures Valid()
      ensures slots == if answer.None? then old(slots) else old(slots)[slot := Holding(answer.value)]
      ensures |running| == |old(running)| + if answer.None? then 0 else 1
    {
      if answer.Some? {
        assert slot !in running;
        slots := slots[slot := Holding(answer.value)];
        running := running + {slot};
      }
    }

    /** The rest of the turn: the result was reported and the loop goes on; the counters go by the error text. */
    method Finish(slot: nat, error: Option<string>)
      requires Valid() && slot < |slots| && slots[slot].Holding?
      modifies `slots, `running, `completed, `failed
      ensures Valid() && slots == old(slots)[slot := Free] && |running| == |old(running)| - 1
      ensures completed + failed == old(completed) + old(failed) + 1
      ensures failed == old(failed) <==> error.None? || error.value == ""
    {
      assert slot in running;
      slots, running := slots[slot := Free], running - {slot};
      if error.Some? && error.value != "" {
        failed := failed + 1;
      } else {
        completed := completed + 1;
      }
    }

    /** The report, or the delivery of the task, raised: the loop ends with the task unreported. */
    method Break(slot: nat)
      requires Valid() && slot < |slots| && slots[slot].Holding?
      modifies `slots, `running
      ensures Valid() && slots == old(slots)[slot := Dead(old(slots)[slot].id)] && |running| == |old(running)| - 1
    {
      assert slot in running;
      slots, running := slots[slot := Dead(slots[slot].id)], running - {slot};
    }

    /** The number that a heartbeat carries. */
    method RunningTasks() returns (n: nat)
      requires Valid()
      ensures n == |BusySlots(slots)| && n <= |slots|
    {
      BusyBound(slots);
      n := |running|;
    }
  }
}
