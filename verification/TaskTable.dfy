/** What each SQL statement of the two repositories does to the tables, as functions on values. */
module TaskTable {
  import opened Domain

  type Rows = map<TaskId, Task>
  type Verdicts = map<ExecutionId, WorkflowStatus>

  function Find(rows: Rows, id: TaskId): Option<Task> {
    if id in rows then Some(rows[id]) else None
  }

  /** The row after a successful claim, or None when the version guard does not hold. */
  function ClaimedRow(row: Option<Task>, worker: WorkerId, version: int): Option<Task> {
    if row.Some? && row.value.version == version then
      Some(row.value.(status := Running, workerId := Some(worker), version := version + 1))
    else
      None
  }

  /** The row after a successful retry increment, or None when the version guard does not hold. */
  function RetriedRow(row: Option<Task>, version: int): Option<Task> {
    if row.Some? && row.value.version == version then
      Some(row.value.(retryCount := row.value.retryCount + 1, status := Pending, version := version + 1))
    else
      None
  }

  /** The unguarded status updates: they change the row if there is one. */
  function MarkedRow(row: Option<Task>, status: TaskStatus): Option<Task> {
    if row.Some? then Some(row.value.(status := status)) else None
  }

  function WithRow(rows: Rows, id: TaskId, row: Option<Task>): Rows {
    if row.Some? then rows[id := row.value] else rows
  }

  predicate DependsOn(task: Task, execution: ExecutionId, ref: RefId) {
    task.spec.executionId == execution && ref in task.spec.dependencies
  }

  /** One row of the decrement statements; `taint` tells the skip-hint variant from the plain one. */
  function DecrementedRow(task: Task, taint: bool): Task {
    task.(inDegree := task.inDegree - 1,
          skipHint := task.skipHint || taint,
          status := if task.inDegree - 1 == 0 then Queued else task.status)
  }

  function Decrement(rows: Rows, execution: ExecutionId, ref: RefId, taint: bool): Rows {
    map t | t in rows :: if DependsOn(rows[t], execution, ref) then DecrementedRow(rows[t], taint) else rows[t]
  }

  /** The ids a decrement statement returns with in_degree 0. */
  function ReadySet(rows: Rows, execution: ExecutionId, ref: RefId): set<TaskId> {
    set t | t in rows && DependsOn(rows[t], execution, ref) && rows[t].inDegree - 1 == 0
  }

  predicate AllCompleted(rows: Rows, execution: ExecutionId) {
    forall t | t in rows && rows[t].spec.executionId == execution :: rows[t].status == Completed
  }

  /** The guarded verdict update: FAILED is never left. */
  function UpdatedStatus(verdicts: Verdicts, execution: ExecutionId, status: WorkflowStatus): Verdicts {
    if execution in verdicts && verdicts[execution] != status && verdicts[execution] != WorkflowFailed
    then verdicts[execution := status]
    else verdicts
  }
}
