/** The entities the engine stores and passes around: tasks, workflow verdicts and events. */
module Domain {

  type TaskId = nat
  type ExecutionId = nat
  type WorkerId = nat

  datatype RefId = RefId(name: string)
  datatype Action = Action(name: string)

  datatype Option<+T> = None | Some(value: T)

  datatype TaskStatus = Pending | Queued | Running | Completed | Failed | Skipped

  datatype WorkflowStatus = WorkflowRunning | WorkflowCompleted | WorkflowFailed

  /** The columns of a task row that no statement ever updates. */
  datatype TaskSpec = TaskSpec(
    id: TaskId,
    executionId: ExecutionId,
    refId: RefId,
    action: Action,
    dependencies: seq<RefId>,
    maxRetries: nat)

  /** A task row, and also the snapshot of a row that a worker keeps in memory. */
  datatype Task = Task(
    spec: TaskSpec,
    status: TaskStatus,
    retryCount: nat,
    inDegree: int,
    skipHint: bool,
    workerId: Option<WorkerId>,
    version: int)
  {
    predicate CanRetry(maxRetry: nat) {
      retryCount < maxRetry
    }

    predicate Terminal() {
      status == Completed || status == Failed || status == Skipped
    }
  }

  datatype Termination = TerminationFailed | TerminationSkipped

  datatype Event =
    | TaskCompleted(executionId: ExecutionId, taskId: TaskId, refId: RefId)
    | TaskTerminated(executionId: ExecutionId, taskId: TaskId, refId: RefId, kind: Termination)

  function CompletedEvent(spec: TaskSpec): Event {
    TaskCompleted(spec.executionId, spec.id, spec.refId)
  }

  function TerminatedEvent(spec: TaskSpec, kind: Termination): Event {
    TaskTerminated(spec.executionId, spec.id, spec.refId, kind)
  }

  /** The row a task has right after its workflow was stored. */
  function InitialRow(spec: TaskSpec): Task {
    Task(spec, if spec.dependencies == [] then Queued else Pending, 0, |spec.dependencies|, false, None, 1)
  }

  predicate NoDuplicates<T(==)>(xs: seq<T>) {
    forall i, j :: 0 <= i < j < |xs| ==> xs[i] != xs[j]
  }

  /** `xs` lists the elements of `s`, each exactly once, in some order. */
  ghost predicate Enumerates<T(!new)>(xs: seq<T>, s: set<T>) {
    NoDuplicates(xs) && forall x :: x in xs <==> x in s
  }
}
