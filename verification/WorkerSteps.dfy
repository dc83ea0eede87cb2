/** The worker's program, one atomic statement at a time. */
module WorkerSteps {
  import opened Domain
  import opened TaskTable

  /** What a worker thread has just done, with the snapshot it holds in memory. */
  datatype Pc =
    | Idle
    | Popped(id: TaskId)
    | Fetched(task: Task)
    | SkipMarked(task: Task)
    | Owned(task: Task)
    | UnknownMarked(task: Task)
    | UnknownAnnounced(task: Task)
    | Succeeded(task: Task)
    | Errored(task: Task)
    | CompletedMarked(task: Task)
    | RetryCounted(task: Task)
    | FailedMarked(task: Task)
    | VerdictFailed(task: Task)
  {
    function Held(): TaskId
      requires !Idle?
    {
      if Popped? then id else task.spec.id
    }

    /** How many statements of this call may still follow. */
    function Rank(): nat {
      match this
      case Idle => 0
      case SkipMarked(_) | CompletedMarked(_) | RetryCounted(_) | VerdictFailed(_) => 1
      case Succeeded(_) | FailedMarked(_) => 2
      case Errored(_) => 3
      case UnknownAnnounced(_) => 4
      case UnknownMarked(_) => 5
      case Owned(_) => 6
      case Fetched(_) => 7
      case Popped(_) => 8
    }
  }

  datatype Effect =
    | NoEffect
    | PushRetry(id: TaskId)
    | Announce(event: Event)
    | FailWorkflow(execution: ExecutionId)

  /** One statement's outcome: the next program point, the row written (if any), the effect elsewhere. */
  datatype Move = Move(pc: Pc, row: Option<Task>, effect: Effect)

  /** Which actions are registered, and whether the handler succeeds on a given attempt of a task. */
  datatype Handlers = Handlers(registry: set<Action>, succeeds: (TaskId, nat) -> bool)

  /** The next statement of a worker at `pc`; `row` is the current table row of the held task. */
  function Advance(h: Handlers, w: WorkerId, pc: Pc, row: Option<Task>): Move
    requires !pc.Idle?
  {
    match pc
    case Popped(_) =>
      Move(if row.Some? then Fetched(row.value) else Idle, None, NoEffect)
    case Fetched(m) =>
      if m.skipHint then
        Move(SkipMarked(m), MarkedRow(row, Skipped), NoEffect)
      else
        var claimed := ClaimedRow(row, w, m.version);
        Move(if claimed.Some? then Owned(m.(version := m.version + 1)) else Idle, claimed, NoEffect)
    case SkipMarked(m) =>
      Move(Idle, None, Announce(TerminatedEvent(m.spec, TerminationSkipped)))
    case Owned(m) =>
      if m.spec.action !in h.registry then
        Move(UnknownMarked(m), MarkedRow(row, Failed), NoEffect)
      else
        Move(if h.succeeds(m.spec.id, m.retryCount) then Succeeded(m) else Errored(m), None, NoEffect)
    case UnknownMarked(m) =>
      Move(UnknownAnnounced(m), None, Announce(TerminatedEvent(m.spec, TerminationFailed)))
    case UnknownAnnounced(m) =>
      Move(Errored(m), None, FailWorkflow(m.spec.executionId))
    case Succeeded(m) =>
      Move(CompletedMarked(m), MarkedRow(row, Completed), NoEffect)
    case CompletedMarked(m) =>
      Move(Idle, None, Announce(CompletedEvent(m.spec)))
    case Errored(m) =>
      if m.CanRetry(m.spec.maxRetries) then
        var retried := RetriedRow(row, m.version);
        Move(if retried.Some? then RetryCounted(m) else Idle, retried, NoEffect)
      else
        Move(FailedMarked(m), MarkedRow(row, Failed), NoEffect)
    case RetryCounted(m) =>
      Move(Idle, None, PushRetry(m.spec.id))
    case FailedMarked(m) =>
      Move(VerdictFailed(m), None, FailWorkflow(m.spec.executionId))
    case VerdictFailed(m) =>
      Move(Idle, None, Announce(TerminatedEvent(m.spec, TerminationFailed)))
  }

  /** The shared data a worker writes to. */
  datatype Store = Store(
    rows: Rows,
    verdicts: Verdicts,
    retryQueue: seq<TaskId>,
    completed: seq<Event>,
    terminated: seq<Event>)

  function ApplyEffect(st: Store, effect: Effect): Store {
    match effect
    case NoEffect => st
    case PushRetry(id) => st.(retryQueue := st.retryQueue + [id])
    case Announce(event) =>
      if event.TaskCompleted? then st.(completed := st.completed + [event])
      else st.(terminated := st.terminated + [event])
    case FailWorkflow(e) => st.(verdicts := UpdatedStatus(st.verdicts, e, WorkflowFailed))
  }

  function MoveOf(h: Handlers, w: WorkerId, st: Store, pc: Pc): Move
    requires !pc.Idle?
  {
    Advance(h, w, pc, Find(st.rows, pc.Held()))
  }

  /** The shared data after the worker's next statement. */
  function StoreAfter(h: Handlers, w: WorkerId, st: Store, pc: Pc): Store
    requires !pc.Idle?
  {
    var move := MoveOf(h, w, st, pc);
    ApplyEffect(st.(rows := WithRow(st.rows, pc.Held(), move.row)), move.effect)
  }

  /** The shared data after the worker ran undisturbed from `pc` to the end of the call. */
  function RunToIdle(h: Handlers, w: WorkerId, st: Store, pc: Pc): Store
    decreases pc.Rank()
  {
    if pc.Idle? then st else RunToIdle(h, w, StoreAfter(h, w, st, pc), MoveOf(h, w, st, pc).pc)
  }
}
