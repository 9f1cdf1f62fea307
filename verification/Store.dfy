/** taskrunner/database/store.py: the task and worker tables as maps, insert-or-update, and the count by status. */
module Store {
  import opened Models

  /** The columns of a task row; queue, priority, target and payload are those of the spec. */
  datatype Row = Row(
    spec: TaskSpec,
    createdAt: real,
    status: TaskStatus,
    attempts: nat,
    error: Option<string>,
    assignedWorker: Option<string>,
    result: Option<TaskResult>)

  /** The columns that an upsert takes from the live task agree with it. */
  ghost predicate Agrees(row: Row, task: Task) {
    && row.spec == task.spec && row.createdAt == task.createdAt
    && row.status == task.status && row.attempts == task.attempts
    && row.error == task.lastError && row.assignedWorker == task.assignedWorker
  }

  /** `upsert_task`: on conflict the spec columns stay, and a missing result keeps the stored one. */
  function Upserted(rows: map<string, Row>, id: string, task: Task, result: Option<TaskResult>): map<string, Row> {
    if id in rows then
      rows[id := rows[id].(status := task.status, attempts := task.attempts, error := task.lastError,
                           assignedWorker := task.assignedWorker,
                           result := if result.Some? then result else rows[id].result)]
    else
      rows[id := Row(task.spec, task.createdAt, task.status, task.attempts, task.lastError, task.assignedWorker, result)]
  }

  ghost function ResultIn(rows: map<string, Row>, id: string): Option<TaskResult> {
    if id in rows then rows[id].result else None
  }

  /** An upsert makes the row agree with the task, keeps the last result there was, and leaves other rows alone. */
  lemma UpsertMirrors(rows: map<string, Row>, id: string, task: Task, result: Option<TaskResult>)
    requires id in rows ==> rows[id].spec == task.spec && rows[id].createdAt == task.createdAt
    ensures var rows' := Upserted(rows, id, task, result);
            && id in rows' && rows'[id].spec == task.spec && rows'[id].createdAt == task.createdAt
            && rows'[id].status == task.status && rows'[id].attempts == task.attempts
            && rows'[id].error == task.lastError && rows'[id].assignedWorker == task.assignedWorker
            && rows'[id].result == (if result.Some? then result else ResultIn(rows, id))
            && rows'.Keys == rows.Keys + {id}
            && forall x | x in rows && x != id :: rows'[x] == rows[x]
  {
  }

  /** The tasks that the table shows in a status. */
  ghost function WithStatus(rows: map<string, Row>, status: TaskStatus): set<string> {
    set id | id in rows && rows[id].status == status
  }

  ghost predicate CountsOne(counts: map<TaskStatus, nat>, rows: map<string, Row>, status: TaskStatus) {
    && (status in counts <==> WithStatus(rows, status) != {})
    && (status in counts ==> counts[status] == |WithStatus(rows, status)|)
  }

  /** A count by status: no entry for a status that no row has. */
  ghost predicate CountsRows(counts: map<TaskStatus, nat>, rows: map<string, Row>) {
    forall status: TaskStatus :: CountsOne(counts, rows, status)
  }

  lemma WithStatusMore(rows: map<string, Row>, id: string, row: Row, status: TaskStatus)
    requires id !in rows
    ensures WithStatus(rows[id := row], status) == WithStatus(rows, status) + if status == row.status then {id} else {}
    ensures id !in WithStatus(rows, status)
  {
  }

  lemma CountsMore(counts: map<TaskStatus, nat>, rows: map<string, Row>, id: string, row: Row)
    requires CountsRows(counts, rows) && id !in rows
    ensures CountsRows(counts[row.status := (if row.status in counts then counts[row.status] else 0) + 1], rows[id := row])
  {
    hide WithStatus;
    var n := (if row.status in counts then counts[row.status] else 0) + 1;
    var counts', rows' := counts[row.status := n], rows[id := row];
    forall status: TaskStatus ensures CountsOne(counts', rows', status) {
      WithStatusMore(rows, id, row, status);
      assert CountsOne(counts, rows, status);
    }
  }

  class SQLiteStore {
    var rows: map<string, Row>
    var workers: map<string, WorkerInfo>

    constructor ()
      ensures rows == map[] && workers == map[]
    {
      rows, workers := map[], map[];
    }

    method UpsertTask(id: string, task: Task, result: Option<TaskResult>)
      modifies `rows
      ensures id in rows && rows.Keys == old(rows).Keys + {id}
      ensures rows[id].status == task.status && rows[id].attempts == task.attempts
      ensures rows[id].error == task.lastError && rows[id].assignedWorker == task.assignedWorker
      ensures rows[id].result == if result.Some? || id !in old(rows) then result else old(rows)[id].result
      ensures forall x | x in old(rows) && x != id :: rows[x] == old(rows)[x]
      ensures rows == Upserted(old(rows), id, task, result)
    {
      if id in rows {
        var kept := if result.Some? then result else rows[id].result;
        rows := rows[id := rows[id].(status := task.status, attempts := task.attempts, error := task.lastError,
                                     assignedWorker := task.assignedWorker, result := kept)];
      } else {
        rows := rows[id := Row(task.spec, task.createdAt, task.status, task.attempts, task.lastError,
                               task.assignedWorker, result)];
      }
    }

    /** `upsert_worker`: the row of a worker is what the worker is. */
    method UpsertWorker(worker: WorkerInfo)
      modifies `workers
      ensures workers == old(workers)[worker.workerId := worker]
    {
      workers := workers[worker.workerId := worker];
    }

    /** `task_counts`: SELECT status, COUNT(*) GROUP BY status. */
    method TaskCounts() returns (counts: map<TaskStatus, nat>)
      ensures CountsRows(counts, rows)
    {
      counts := map[];
      var seen: map<string, Row>, left := map[], rows.Keys;
      while left != {}
        invariant left <= rows.Keys && seen == map id | id in rows && id !in left :: rows[id]
        invariant CountsRows(counts, seen)
        decreases |left|
      {
        var id :| id in left;
        CountsMore(counts, seen, id, rows[id]);
        var status := rows[id].status;
        counts := counts[status := (if status in counts then counts[status] else 0) + 1];
        seen, left := seen[id := rows[id]], left - {id};
      }
      assert seen == rows;
    }
  }
}
