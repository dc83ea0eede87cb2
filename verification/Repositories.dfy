/** The database and its two repositories. Every method is one SQL statement or one transaction. */
module Repositories {
  import opened Domain
  import opened TaskTable

  const DEFAULT_MAX_RETRIES: nat := 3

  /** The row as stored: gorm leaves a zero max_retries to the column default. */
  function StoredRow(task: Task): Task {
    if task.spec.maxRetries == 0 then task.(spec := task.spec.(maxRetries := DEFAULT_MAX_RETRIES)) else task
  }

  function Inserted(rows: Rows, tasks: seq<Task>): Rows {
    if tasks == [] then rows
    else
      var last := StoredRow(tasks[|tasks|-1]);
      Inserted(rows, tasks[..|tasks|-1])[last.spec.id := last]
  }

  predicate FreshIds(rows: Rows, tasks: seq<Task>) {
    && (forall i | 0 <= i < |tasks| :: tasks[i].spec.id !in rows)
    && (forall i, j | 0 <= i < j < |tasks| :: tasks[i].spec.id != tasks[j].spec.id)
  }

  lemma {:induction false} InsertedRow(rows: Rows, tasks: seq<Task>, i: nat)
    requires FreshIds(rows, tasks) && i < |tasks|
    ensures tasks[i].spec.id in Inserted(rows, tasks) && Inserted(rows, tasks)[tasks[i].spec.id] == StoredRow(tasks[i])
  {
    if i < |tasks| - 1 {
      InsertedRow(rows, tasks[..|tasks|-1], i);
    }
  }

  lemma {:induction false} InsertedKeys(rows: Rows, tasks: seq<Task>, t: TaskId)
    ensures t in Inserted(rows, tasks) <==> t in rows || exists i :: 0 <= i < |tasks| && tasks[i].spec.id == t
    ensures t in rows && (forall i | 0 <= i < |tasks| :: tasks[i].spec.id != t) ==> Inserted(rows, tasks)[t] == rows[t]
  {
    if tasks != [] {
      var n := |tasks| - 1;
      InsertedKeys(rows, tasks[..n], t);
      assert forall i | 0 <= i < n :: tasks[..n][i] == tasks[i];
      assert t == tasks[n].spec.id ==> exists i :: 0 <= i < |tasks| && tasks[i].spec.id == t;
    }
  }

  /** Inserting adds exactly the given tasks and leaves every other row alone. */
  lemma InsertedMeaning(rows: Rows, tasks: seq<Task>)
    requires FreshIds(rows, tasks)
    ensures forall t | t in rows :: t in Inserted(rows, tasks) && Inserted(rows, tasks)[t] == rows[t]
    ensures forall i | 0 <= i < |tasks| ::
              && tasks[i].spec.id in Inserted(rows, tasks)
              && Inserted(rows, tasks)[tasks[i].spec.id] == StoredRow(tasks[i])
    ensures forall t | t in Inserted(rows, tasks) :: t in rows || exists i :: 0 <= i < |tasks| && tasks[i].spec.id == t
  {
    forall t
      ensures t in Inserted(rows, tasks) <==> t in rows || exists i :: 0 <= i < |tasks| && tasks[i].spec.id == t
    {
      InsertedKeys(rows, tasks, t);
    }
    forall t | t in rows ensures Inserted(rows, tasks)[t] == rows[t] {
      InsertedKeys(rows, tasks, t);
    }
    forall i | 0 <= i < |tasks|
      ensures tasks[i].spec.id in Inserted(rows, tasks)
      ensures Inserted(rows, tasks)[tasks[i].spec.id] == StoredRow(tasks[i])
    {
      InsertedRow(rows, tasks, i);
    }
  }

  /** One more insert: it clashes exactly when an id is taken or repeated. */
  lemma InsertedNext(rows: Rows, tasks: seq<Task>, i: nat)
    requires i < |tasks| && FreshIds(rows, tasks[..i])
    ensures tasks[i].spec.id in Inserted(rows, tasks[..i]) ==> !FreshIds(rows, tasks)
    ensures tasks[i].spec.id !in Inserted(rows, tasks[..i]) ==> FreshIds(rows, tasks[..i+1])
    ensures Inserted(rows, tasks[..i+1]) == Inserted(rows, tasks[..i])[tasks[i].spec.id := StoredRow(tasks[i])]
  {
    InsertedMeaning(rows, tasks[..i]);
    assert tasks[..i+1][..i] == tasks[..i];
    assert tasks[..i+1] == tasks[..i] + [tasks[i]];
  }

  /** A zero limit is stored as 3, any other as it is; nothing else changes. */
  lemma StoredLimit(task: Task)
    ensures StoredRow(task).spec.maxRetries == (if task.spec.maxRetries == 0 then 3 else task.spec.maxRetries)
    ensures StoredRow(task).(spec := task.spec) == task
    ensures StoredRow(task).spec.(maxRetries := task.spec.maxRetries) == task.spec
  {
  }

  class Database {
    var rows: Rows
    var verdicts: Verdicts

    constructor ()
      ensures rows == map[] && verdicts == map[]
    {
      rows, verdicts := map[], map[];
    }
  }

  class TaskRepository {
    const db: Database

    constructor (db: Database)
      ensures this.db == db
    {
      this.db := db;
    }

    /** One transaction: the execution and all its tasks, or nothing when an id is taken. */
    method CreateExecution(execution: ExecutionId, tasks: seq<Task>) returns (ok: bool)
      modifies db
      ensures ok <==> && execution !in old(db.verdicts)
                      && (forall i | 0 <= i < |tasks| :: tasks[i].spec.id !in old(db.rows))
                      && (forall i, j | 0 <= i < j < |tasks| :: tasks[i].spec.id != tasks[j].spec.id)
      ensures ok ==> db.verdicts == old(db.verdicts)[execution := WorkflowRunning]
      ensures ok ==> db.rows == Inserted(old(db.rows), tasks)
      ensures ok ==> forall t :: t in db.rows
                            <==> t in old(db.rows) || exists i :: 0 <= i < |tasks| && tasks[i].spec.id == t
      ensures ok ==> forall t | t in old(db.rows) :: db.rows[t] == old(db.rows)[t]
      ensures ok ==> forall i | 0 <= i < |tasks| ::
                && tasks[i].spec.id in db.rows
                && var row := db.rows[tasks[i].spec.id];
                   && row.spec.maxRetries == (if tasks[i].spec.maxRetries == 0 then 3 else tasks[i].spec.maxRetries)
                   && row.(spec := row.spec.(maxRetries := tasks[i].spec.maxRetries)) == tasks[i]
      ensures !ok ==> db.rows == old(db.rows) && db.verdicts == old(db.verdicts)
    {
      if execution in db.verdicts {
        return false;
      }
      var before := db.rows;
      var i := 0;
      while i < |tasks|
        invariant 0 <= i <= |tasks|
        invariant FreshIds(before, tasks[..i])
        invariant db.rows == Inserted(before, tasks[..i]) && db.verdicts == old(db.verdicts)
      {
        InsertedNext(before, tasks, i);
        if tasks[i].spec.id in db.rows {
          db.rows := before;
          return false;
        }
        db.rows := db.rows[tasks[i].spec.id := StoredRow(tasks[i])];
        i := i + 1;
      }
      assert tasks[..i] == tasks;
      InsertedMeaning(before, tasks);
      forall k | 0 <= k < |tasks|
        ensures tasks[k].spec.id in db.rows && db.rows[tasks[k].spec.id] == StoredRow(tasks[k])
      {
        StoredLimit(tasks[k]);
      }
      db.verdicts := db.verdicts[execution := WorkflowRunning];
      ok := true;
    }

    method FindTaskByID(id: TaskId) returns (task: Option<Task>)
      ensures task == Find(db.rows, id)
      ensures if id in db.rows then task == Some(db.rows[id]) else task == None
    {
      task := if id in db.rows then Some(db.rows[id]) else None;
    }

    /** Guarded by the version alone. */
    method ClaimTask(id: TaskId, worker: WorkerId, version: int) returns (ok: bool)
      modifies db`rows
      ensures ok <==> id in old(db.rows) && old(db.rows)[id].version == version
      ensures db.rows == WithRow(old(db.rows), id, ClaimedRow(Find(old(db.rows), id), worker, version))
      ensures !ok ==> db.rows == old(db.rows)
      ensures ok ==> db.rows == old(db.rows)[id := old(db.rows)[id].(status := Running, workerId := Some(worker),
                                                                    version := version + 1)]
    {
      ok := id in db.rows && db.rows[id].version == version;
      if ok {
        db.rows := db.rows[id := db.rows[id].(status := Running, workerId := Some(worker), version := version + 1)];
      }
    }

    method IncrementRetryCount(id: TaskId, version: int) returns (ok: bool)
      modifies db`rows
      ensures ok <==> id in old(db.rows) && old(db.rows)[id].version == version
      ensures db.rows == WithRow(old(db.rows), id, RetriedRow(Find(old(db.rows), id), version))
      ensures !ok ==> db.rows == old(db.rows)
      ensures ok ==> db.rows == old(db.rows)[id := old(db.rows)[id].(retryCount := old(db.rows)[id].retryCount + 1,
                                                                    status := Pending, version := version + 1)]
    {
      ok := id in db.rows && db.rows[id].version == version;
      if ok {
        var row := db.rows[id];
        db.rows := db.rows[id := row.(retryCount := row.retryCount + 1, status := Pending, version := version + 1)];
      }
    }

    /** MarkCompleted, MarkFailed and MarkSkipped: no guard at all. */
    method Mark(id: TaskId, status: TaskStatus)
      modifies db`rows
      ensures db.rows == WithRow(old(db.rows), id, MarkedRow(Find(old(db.rows), id), status))
      ensures db.rows == if id in old(db.rows) then old(db.rows)[id := old(db.rows)[id].(status := status)]
                         else old(db.rows)
    {
      if id in db.rows {
        db.rows := db.rows[id := db.rows[id].(status := status)];
      }
    }

    /** The UPDATE, row by row in whatever order the table is scanned, returning id and in_degree of each changed
        row. */
    method UpdateChildren(execution: ExecutionId, ref: RefId, taint: bool) returns (returned: seq<(TaskId, int)>)
      modifies db`rows
      ensures db.rows == Decrement(old(db.rows), execution, ref, taint)
      ensures db.rows.Keys == old(db.rows).Keys
      ensures forall t | t in old(db.rows) :: var row := old(db.rows)[t];
                db.rows[t] == if row.spec.executionId == execution && ref in row.spec.dependencies
                              then row.(inDegree := row.inDegree - 1, skipHint := row.skipHint || taint,
                                        status := if row.inDegree == 1 then Queued else row.status)
                              else row
      ensures forall i, j | 0 <= i < j < |returned| :: returned[i].0 != returned[j].0
      ensures forall t, d :: (t, d) in returned <==>
                t in old(db.rows) && DependsOn(old(db.rows)[t], execution, ref) && d == old(db.rows)[t].inDegree - 1
    {
      returned := [];
      var todo := db.rows.Keys;
      while todo != {}
        invariant todo <= db.rows.Keys == old(db.rows).Keys
        invariant forall t | t in todo :: db.rows[t] == old(db.rows)[t]
        invariant forall t | t in db.rows && t !in todo ::
                    db.rows[t] == Decrement(old(db.rows), execution, ref, taint)[t]
        invariant forall i, j | 0 <= i < j < |returned| :: returned[i].0 != returned[j].0
        invariant forall t, d :: (t, d) in returned <==>
                    t in old(db.rows) && t !in todo && DependsOn(old(db.rows)[t], execution, ref)
                    && d == old(db.rows)[t].inDegree - 1
        decreases todo
      {
        var t :| t in todo;
        var row := db.rows[t];
        forall i | 0 <= i < |returned| ensures returned[i].0 != t {
          var (u, d) := returned[i];
          assert (u, d) in returned;
        }
        todo := todo - {t};
        if DependsOn(row, execution, ref) {
          var changed := DecrementedRow(row, taint);
          db.rows := db.rows[t := changed];
          returned := returned + [(t, changed.inDegree)];
        }
      }
    }

    /** The rows that reached zero, in the order they were returned. */
    method CollectReady(returned: seq<(TaskId, int)>) returns (ready: seq<TaskId>)
      requires forall i, j | 0 <= i < j < |returned| :: returned[i].0 != returned[j].0
      ensures NoDuplicates(ready)
      ensures forall t :: t in ready <==> (t, 0) in returned
    {
      ready := [];
      var i := 0;
      while i < |returned|
        invariant 0 <= i <= |returned|
        invariant NoDuplicates(ready)
        invariant forall t :: t in ready <==> (t, 0) in returned[..i]
      {
        assert returned[..i+1] == returned[..i] + [returned[i]];
        if returned[i].1 == 0 {
          assert (returned[i].0, 0) !in returned[..i];
          ready := ready + [returned[i].0];
        }
        i := i + 1;
      }
      assert returned[..i] == returned;
    }

    method DecrementAndGetReadyTasks(execution: ExecutionId, ref: RefId) returns (ready: seq<TaskId>)
      modifies db`rows
      ensures db.rows == Decrement(old(db.rows), execution, ref, false)
      ensures Enumerates(ready, ReadySet(old(db.rows), execution, ref))
      ensures NoDuplicates(ready)
      ensures forall t :: t in ready <==> && t in old(db.rows) && old(db.rows)[t].spec.executionId == execution
                                          && ref in old(db.rows)[t].spec.dependencies && old(db.rows)[t].inDegree == 1
    {
      var returned := UpdateChildren(execution, ref, false);
      ready := CollectReady(returned);
    }

    method DecrementAndSetSkipHint(execution: ExecutionId, ref: RefId) returns (ready: seq<TaskId>)
      modifies db`rows
      ensures db.rows == Decrement(old(db.rows), execution, ref, true)
      ensures Enumerates(ready, ReadySet(old(db.rows), execution, ref))
      ensures NoDuplicates(ready)
      ensures forall t :: t in ready <==> && t in old(db.rows) && old(db.rows)[t].spec.executionId == execution
                                          && ref in old(db.rows)[t].spec.dependencies && old(db.rows)[t].inDegree == 1
    {
      var returned := UpdateChildren(execution, ref, true);
      ready := CollectReady(returned);
    }

    /** Counts the rows of the execution that are not COMPLETED. */
    method AreAllTasksCompleted(execution: ExecutionId) returns (all: bool)
      ensures all <==> AllCompleted(db.rows, execution)
      ensures all <==> forall t | t in db.rows && db.rows[t].spec.executionId == execution ::
                         db.rows[t].status == Completed
    {
      var count := 0;
      var todo := db.rows.Keys;
      while todo != {}
        invariant todo <= db.rows.Keys && count >= 0
        invariant count == 0 <==> forall t | t in db.rows && t !in todo && db.rows[t].spec.executionId == execution ::
                                    db.rows[t].status == Completed
        decreases todo
      {
        var t :| t in todo;
        todo := todo - {t};
        if db.rows[t].spec.executionId == execution && db.rows[t].status != Completed {
          count := count + 1;
        }
      }
      all := count == 0;
    }
  }

  class WorkflowRepository {
    const db: Database

    constructor (db: Database)
      ensures this.db == db
    {
      this.db := db;
    }

    /** The WHERE clause skips an equal status and never leaves FAILED. */
    method UpdateStatus(execution: ExecutionId, status: WorkflowStatus)
      modifies db`verdicts
      ensures db.verdicts == UpdatedStatus(old(db.verdicts), execution, status)
      ensures db.verdicts.Keys == old(db.verdicts).Keys
      ensures forall e | e in old(db.verdicts) && e != execution :: db.verdicts[e] == old(db.verdicts)[e]
      ensures execution in old(db.verdicts) ==>
                (db.verdicts[execution]
                 == if old(db.verdicts)[execution] == WorkflowFailed then WorkflowFailed else status)
    {
      if execution in db.verdicts && db.verdicts[execution] != status && db.verdicts[execution] != WorkflowFailed {
        db.verdicts := db.verdicts[execution := status];
      }
    }
  }
}
