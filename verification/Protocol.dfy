/** The engine as one transition system: submitters, worker threads, channels and the coordinator interleave. */
module Protocol {
  import opened Domain
  import opened TaskTable
  import opened WorkerSteps

  datatype Pool = MainPool | RetryPool

  /** The stored workflows, the worker threads and the handlers of a run. */
  datatype Config = Config(
    specs: map<TaskId, TaskSpec>,
    order: map<ExecutionId, seq<TaskId>>,
    workers: map<WorkerId, Pool>,
    handlers: Handlers)

  datatype CoordinatorPc =
    | Waiting
    | Got(event: Event)
    | Pushing(ready: seq<TaskId>)
    | Checking(execution: ExecutionId)
    | Deciding(execution: ExecutionId)

  /** `log` (tasks whose event was resolved, in order) and `claims` (successful claims per task) are history:
      no step reads them. */
  datatype State = State(
    store: Store,
    mainQueue: seq<TaskId>,
    submitters: map<ExecutionId, seq<TaskId>>,
    workers: map<WorkerId, Pc>,
    coordinator: CoordinatorPc,
    log: seq<TaskId>,
    claims: map<TaskId, nat>)

  datatype Step =
    | SubmitPush(execution: ExecutionId)
    | Pop(worker: WorkerId)
    | Work(worker: WorkerId)
    | Take(completed: bool)
    | Resolve(ready: seq<TaskId>)
    | CoordinatorPush
    | Check
    | Decide
    // Losses: a push fails, a published event vanishes, a worker or the coordinator stops.
    | SubmitFails(execution: ExecutionId)
    | Abandon(worker: WorkerId)
    | LoseEvent(completed: bool, index: nat)
    | CoordinatorPushFails
    | CoordinatorStops
    // An entry nobody in the protocol pushed.
    | Intrude(retry: bool, id: TaskId)

  /** How much may go wrong in a run. */
  datatype Mode = Reliable | Lossy | Chaotic

  predicate Allowed(mode: Mode, step: Step) {
    match step
    case SubmitFails(_) | Abandon(_) | LoseEvent(_, _) | CoordinatorPushFails | CoordinatorStops => !mode.Reliable?
    case Intrude(_, _) => mode.Chaotic?
    case _ => true
  }

  // ---- configurations ----

  /** What storing the workflows guarantees: generated ids are unique, and each task belongs to one workflow. */
  ghost predicate ValidConfig(c: Config) {
    && (forall t | t in c.specs ::
          && c.specs[t].id == t
          && c.specs[t].executionId in c.order
          && t in c.order[c.specs[t].executionId])
    && (forall e | e in c.order :: NoDuplicates(c.order[e]))
    && (forall e, t | e in c.order && t in c.order[e] :: t in c.specs && c.specs[t].executionId == e)
  }

  /** What nothing validates: reference ids are unique within a workflow. */
  ghost predicate UniqueRefs(c: Config) {
    forall t, u | t in c.specs && u in c.specs && c.specs[t].executionId == c.specs[u].executionId
                  && c.specs[t].refId == c.specs[u].refId :: t == u
  }

  ghost predicate Registered(c: Config) {
    forall t | t in c.specs :: c.specs[t].action in c.handlers.registry
  }

  /** The tasks of a request that wait for nothing, in request order. */
  function Roots(specs: map<TaskId, TaskSpec>, ids: seq<TaskId>): seq<TaskId>
    requires forall t | t in ids :: t in specs
  {
    if ids == [] then []
    else (if specs[ids[0]].dependencies == [] then [ids[0]] else []) + Roots(specs, ids[1..])
  }

  function InitialRows(specs: map<TaskId, TaskSpec>): Rows {
    map t | t in specs :: InitialRow(specs[t])
  }

  function InitialRoots(specs: map<TaskId, TaskSpec>, order: map<ExecutionId,
                    seq<TaskId>>): map<ExecutionId, seq<TaskId>>
    requires forall e, t | e in order && t in order[e] :: t in specs
  {
    map e | e in order :: Roots(specs, order[e])
  }

  function InitialState(specs: map<TaskId, TaskSpec>, order: map<ExecutionId, seq<TaskId>>, workers: map<WorkerId,
                    Pool>): State
    requires forall e, t | e in order && t in order[e] :: t in specs
  {
    State(
      Store(InitialRows(specs), map e | e in order :: WorkflowRunning, [], [], []),
      [],
      InitialRoots(specs, order),
      map w | w in workers :: Idle,
      Waiting,
      [],
      map t | t in specs :: 0)
  }

  /** The workflows are stored, and every submitter is about to push its roots. */
  ghost function Init(c: Config): State
    requires ValidConfig(c)
  {
    InitialState(c.specs, c.order, c.workers)
  }

  // ---- steps ----

  function Channel(s: State, completed: bool): seq<Event> {
    if completed then s.store.completed else s.store.terminated
  }

  function WithChannel(s: State, completed: bool, events: seq<Event>): State {
    if completed then s.(store := s.store.(completed := events))
    else s.(store := s.store.(terminated := events))
  }

  function QueueOf(s: State, pool: Pool): seq<TaskId> {
    if pool.MainPool? then s.mainQueue else s.store.retryQueue
  }

  function WithQueue(s: State, pool: Pool, q: seq<TaskId>): State {
    if pool.MainPool? then s.(mainQueue := q) else s.(store := s.store.(retryQueue := q))
  }

  function Without<T>(q: seq<T>, i: nat): seq<T>
    requires i < |q|
  {
    q[..i] + q[i+1..]
  }

  ghost predicate Enabled(c: Config, s: State, step: Step) {
    match step
    case SubmitPush(e) => e in s.submitters && s.submitters[e] != []
    case SubmitFails(e) => e in s.submitters && s.submitters[e] != []
    case Pop(w) => w in s.workers && w in c.workers && s.workers[w].Idle? && QueueOf(s, c.workers[w]) != []
    case Work(w) => w in s.workers && !s.workers[w].Idle?
    case Abandon(w) => w in s.workers && !s.workers[w].Idle?
    case Take(completed) => s.coordinator.Waiting? && Channel(s, completed) != []
    case LoseEvent(completed, i) => i < |Channel(s, completed)|
    case Resolve(ready) =>
      && s.coordinator.Got?
      && Enumerates(ready, ReadySet(s.store.rows, s.coordinator.event.executionId, s.coordinator.event.refId))
    case CoordinatorPush => s.coordinator.Pushing? && s.coordinator.ready != []
    case CoordinatorPushFails => s.coordinator.Pushing? && s.coordinator.ready != []
    case CoordinatorStops => !s.coordinator.Waiting?
    case Check => s.coordinator.Checking?
    case Decide => s.coordinator.Deciding?
    case Intrude(_, _) => true
  }

  function AfterWork(c: Config, s: State, w: WorkerId): State
    requires w in s.workers && !s.workers[w].Idle?
  {
    var pc := s.workers[w];
    var move := MoveOf(c.handlers, w, s.store, pc);
    s.(store := StoreAfter(c.handlers, w, s.store, pc),
       workers := s.workers[w := move.pc],
       claims := if move.pc.Owned? && pc.Held() in s.claims
                 then s.claims[pc.Held() := s.claims[pc.Held()] + 1] else s.claims)
  }

  /** What the coordinator does after the decrement statement returned `ready`. */
  function AfterDecrement(event: Event, ready: seq<TaskId>): CoordinatorPc {
    if ready != [] then Pushing(ready)
    else if event.TaskCompleted? then Checking(event.executionId)
    else Waiting
  }

  function AfterPush(ready: seq<TaskId>): CoordinatorPc
    requires ready != []
  {
    if ready[1..] == [] then Waiting else Pushing(ready[1..])
  }

  function AfterResolve(s: State, ready: seq<TaskId>): State
    requires s.coordinator.Got?
  {
    var ev := s.coordinator.event;
    s.(store := s.store.(rows := Decrement(s.store.rows, ev.executionId, ev.refId, ev.TaskTerminated?)),
       coordinator := AfterDecrement(ev, ready),
       log := s.log + [ev.taskId])
  }

  ghost function After(c: Config, s: State, step: Step): State
    requires Enabled(c, s, step)
  {
    match step
    case SubmitPush(e) =>
      s.(mainQueue := s.mainQueue + [s.submitters[e][0]],
         submitters := s.submitters[e := s.submitters[e][1..]])
    case SubmitFails(e) => s.(submitters := s.submitters[e := []])
    case Pop(w) =>
      var q := QueueOf(s, c.workers[w]);
      WithQueue(s, c.workers[w], q[1..]).(workers := s.workers[w := Popped(q[0])])
    case Work(w) => AfterWork(c, s, w)
    case Abandon(w) => s.(workers := s.workers[w := Idle])
    case Take(completed) =>
      var events := Channel(s, completed);
      WithChannel(s, completed, events[1..]).(coordinator := Got(events[0]))
    case LoseEvent(completed, i) => WithChannel(s, completed, Without(Channel(s, completed), i))
    case Resolve(ready) => AfterResolve(s, ready)
    case CoordinatorPush =>
      s.(mainQueue := s.mainQueue + [s.coordinator.ready[0]],
         coordinator := AfterPush(s.coordinator.ready))
    case CoordinatorPushFails => s.(coordinator := AfterPush(s.coordinator.ready))
    case CoordinatorStops => s.(coordinator := Waiting)
    case Check =>
      s.(coordinator := if AllCompleted(s.store.rows, s.coordinator.execution)
                        then Deciding(s.coordinator.execution) else Waiting)
    case Decide =>
      s.(store := s.store.(verdicts := UpdatedStatus(s.store.verdicts, s.coordinator.execution, WorkflowCompleted)),
         coordinator := Waiting)
    case Intrude(retry, id) =>
      var pool := if retry then RetryPool else MainPool;
      WithQueue(s, pool, QueueOf(s, pool) + [id])
  }

  // ---- runs ----

  ghost predicate Run(c: Config, mode: Mode, states: seq<State>, steps: seq<Step>) {
    && ValidConfig(c)
    && |states| == |steps| + 1
    && states[0] == Init(c)
    && forall i {:trigger steps[i]} | 0 <= i < |steps| :: RunStep(c, mode, states[i], steps[i], states[i+1])
  }

  ghost predicate RunStep(c: Config, mode: Mode, s: State, step: Step, s': State) {
    Allowed(mode, step) && Enabled(c, s, step) && s' == After(c, s, step)
  }

  ghost predicate Reachable(c: Config, mode: Mode, s: State) {
    exists states, steps :: Run(c, mode, states, steps) && s == states[|steps|]
  }

  /** Only blocked pops and empty channels remain. */
  ghost predicate Quiescent(c: Config, s: State) {
    forall step | Allowed(Reliable, step) :: !Enabled(c, s, step)
  }
}
