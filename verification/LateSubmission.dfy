/** Storing a workflow while others run is the same as having stored it before the run: no step of theirs touches it. */
module LateSubmission {
  import opened Domain
  import opened TaskTable
  import opened WorkerSteps
  import opened Protocol
  import opened Progress
  import opened Projection

  // ---- what the parties refer to is stored ----

  ghost predicate KnownIds(c: Config, q: seq<TaskId>) {
    forall t | t in q :: t in c.specs
  }

  ghost predicate KnownEvents(c: Config, q: seq<Event>, completed: bool) {
    forall ev | ev in q :: ev.executionId in c.order && ev.TaskCompleted? == completed
  }

  ghost predicate KnownPc(c: Config, pc: Pc) {
    !pc.Idle? ==> pc.Held() in c.specs && (pc.Popped? || pc.task.spec == c.specs[pc.Held()])
  }

  ghost predicate KnownCoordinator(c: Config, pc: CoordinatorPc) {
    match pc
    case Waiting => true
    case Got(ev) => ev.executionId in c.order
    case Pushing(ready) => KnownIds(c, ready)
    case Checking(e) => e in c.order
    case Deciding(e) => e in c.order
  }

  ghost predicate KnownStore(c: Config, st: Store) {
    && st.rows.Keys == c.specs.Keys && (forall t | t in c.specs :: st.rows[t].spec == c.specs[t])
    && st.verdicts.Keys == c.order.Keys
    && KnownIds(c, st.retryQueue) && KnownEvents(c, st.completed, true) && KnownEvents(c, st.terminated, false)
  }

  /** Nobody holds a stray identifier. */
  ghost predicate Known(c: Config, s: State) {
    && KnownStore(c, s.store)
    && s.submitters.Keys == c.order.Keys && s.claims.Keys == c.specs.Keys
    && KnownIds(c, s.mainQueue) && (forall e | e in s.submitters :: KnownIds(c, s.submitters[e]))
    && (forall w | w in s.workers :: KnownPc(c, s.workers[w]))
    && KnownCoordinator(c, s.coordinator)
  }

  lemma AdvanceKnown(c: Config, w: WorkerId, pc: Pc, row: Task)
    requires !pc.Idle? && KnownPc(c, pc) && row.spec == c.specs[pc.Held()] && row.spec.id == pc.Held()
    requires row.spec.executionId in c.order
    ensures var move := Advance(c.handlers, w, pc, Some(row));
            && KnownPc(c, move.pc) && (move.row.Some? ==> move.row.value.spec == row.spec)
            && (move.effect.PushRetry? ==> move.effect.id == row.spec.id)
            && (move.effect.Announce? ==> move.effect.event.executionId == row.spec.executionId)
            && (move.effect.FailWorkflow? ==> move.effect.execution == row.spec.executionId)
  {
  }

  lemma StoreStaysKnown(c: Config, w: WorkerId, st: Store, pc: Pc)
    requires ValidConfig(c) && KnownStore(c, st) && !pc.Idle? && KnownPc(c, pc)
    ensures KnownStore(c, StoreAfter(c.handlers, w, st, pc)) && KnownPc(c, MoveOf(c.handlers, w, st, pc).pc)
  {
    var t := pc.Held();
    var move := MoveOf(c.handlers, w, st, pc);
    AdvanceKnown(c, w, pc, st.rows[t]);
    EffectStaysKnown(c, st.(rows := WithRow(st.rows, t, move.row)), move.effect, c.specs[t]);
  }

  lemma EffectStaysKnown(c: Config, st: Store, effect: Effect, spec: TaskSpec)
    requires KnownStore(c, st) && spec.id in c.specs && spec.executionId in c.order
    requires effect.PushRetry? ==> effect.id == spec.id
    requires effect.Announce? ==> effect.event.executionId == spec.executionId
    ensures KnownStore(c, ApplyEffect(st, effect))
  {
  }

  lemma WorkStaysKnown(c: Config, s: State, w: WorkerId)
    requires ValidConfig(c) && Known(c, s) && Enabled(c, s, Work(w))
    ensures Known(c, After(c, s, Work(w)))
  {
    StoreStaysKnown(c, w, s.store, s.workers[w]);
  }

  lemma ResolveStaysKnown(c: Config, s: State, ready: seq<TaskId>)
    requires Known(c, s) && Enabled(c, s, Resolve(ready))
    ensures Known(c, After(c, s, Resolve(ready)))
  {
    var ev := s.coordinator.event;
    forall t | t in ready ensures t in c.specs {
      assert t in ReadySet(s.store.rows, ev.executionId, ev.refId);
    }
  }

  lemma QueueStaysKnown(c: Config, s: State, step: Step)
    requires Known(c, s) && Enabled(c, s, step)
    requires step.SubmitPush? || step.SubmitFails? || step.Abandon? || step.CoordinatorPush?
    ensures Known(c, After(c, s, step))
  {
    if step.SubmitPush? {
      assert KnownIds(c, s.submitters[step.execution]);
    }
  }

  lemma PopStaysKnown(c: Config, s: State, w: WorkerId)
    requires Known(c, s) && Enabled(c, s, Pop(w))
    ensures Known(c, After(c, s, Pop(w)))
  {
    assert KnownIds(c, QueueOf(s, c.workers[w]));
  }

  lemma ChannelStaysKnown(c: Config, s: State, step: Step)
    requires Known(c, s) && Enabled(c, s, step)
    requires step.Take? || step.LoseEvent?
    ensures Known(c, After(c, s, step))
  {
    assert KnownEvents(c, Channel(s, step.completed), step.completed);
  }

  lemma RestStaysKnown(c: Config, s: State, step: Step)
    requires Known(c, s) && Enabled(c, s, step)
    requires step.CoordinatorPushFails? || step.CoordinatorStops? || step.Check? || step.Decide?
    ensures Known(c, After(c, s, step))
  {
  }

  lemma StepStaysKnown(c: Config, s: State, step: Step)
    requires ValidConfig(c) && Known(c, s) && Enabled(c, s, step) && !step.Intrude?
    ensures Known(c, After(c, s, step))
  {
    match step
    case Work(w) => WorkStaysKnown(c, s, w);
    case Resolve(ready) => ResolveStaysKnown(c, s, ready);
    case SubmitPush(_) => QueueStaysKnown(c, s, step);
    case SubmitFails(_) => QueueStaysKnown(c, s, step);
    case Pop(w) => PopStaysKnown(c, s, w);
    case Abandon(_) => QueueStaysKnown(c, s, step);
    case CoordinatorPush => QueueStaysKnown(c, s, step);
    case Take(_) => ChannelStaysKnown(c, s, step);
    case LoseEvent(_, _) => ChannelStaysKnown(c, s, step);
    case _ => RestStaysKnown(c, s, step);
  }

  lemma RunStepKnown(c: Config, mode: Mode, s: State, step: Step, s': State)
    requires ValidConfig(c) && !mode.Chaotic? && Known(c, s) && RunStep(c, mode, s, step, s')
    ensures Known(c, s')
  {
    StepStaysKnown(c, s, step);
  }

  lemma {:induction false} SomeRoots(specs: map<TaskId, TaskSpec>, ids: seq<TaskId>)
    requires forall t | t in ids :: t in specs
    ensures forall t | t in Roots(specs, ids) :: t in ids
  {
    if ids != [] {
      SomeRoots(specs, ids[1..]);
    }
  }

  lemma InitKnownRoots(specs: map<TaskId, TaskSpec>, order: map<ExecutionId, seq<TaskId>>)
    requires forall e, t | e in order && t in order[e] :: t in specs
    ensures forall e, t | e in order && t in InitialRoots(specs, order)[e] :: t in specs
  {
    forall e, t | e in order && t in InitialRoots(specs, order)[e] ensures t in specs {
      SomeRoots(specs, order[e]);
    }
  }

  lemma InitKnown(c: Config)
    requires ValidConfig(c)
    ensures Known(c, Init(c))
  {
    var s := Init(c);
    InitKnownRoots(c.specs, c.order);
    assert s.submitters == InitialRoots(c.specs, c.order);
    assert KnownStore(c, s.store);
  }

  lemma {:induction false} RunKnown(c: Config, mode: Mode, states: seq<State>, steps: seq<Step>, i: nat)
    requires Run(c, mode, states, steps) && !mode.Chaotic? && i < |states|
    ensures Known(c, states[i])
  {
    if i == 0 {
      InitKnown(c);
    } else {
      RunKnown(c, mode, states, steps, i - 1);
      RunStepKnown(c, mode, states[i-1], steps[i-1], states[i]);
    }
  }

  // ---- one workflow more ----

  /** Rows of a workflow that is not there. */
  ghost predicate Foreign(c: Config, more: Rows, e: ExecutionId) {
    && e !in c.order && more.Keys !! c.specs.Keys
    && forall t | t in more :: more[t].spec.executionId == e
  }

  function NoClaims(ts: set<TaskId>): map<TaskId, nat> {
    map t | t in ts :: 0
  }

  function WidenedStore(st: Store, more: Rows, e: ExecutionId): Store {
    st.(rows := st.rows + more, verdicts := st.verdicts[e := WorkflowRunning])
  }

  /** The same moment, with one more workflow stored and nothing of it done. */
  function Widened(s: State, more: Rows, e: ExecutionId, roots: seq<TaskId>): State {
    s.(store := WidenedStore(s.store, more, e),
       submitters := s.submitters[e := roots],
       claims := s.claims + NoClaims(more.Keys))
  }

  ghost predicate SameParties(c: Config, c': Config) {
    c'.workers == c.workers && c'.handlers == c.handlers
  }

  ghost predicate Widens(c: Config, c': Config, s: State, step: Step, more: Rows, e: ExecutionId, roots: seq<TaskId>)
    requires Enabled(c, s, step)
  {
    && Enabled(c', Widened(s, more, e, roots), step)
    && After(c', Widened(s, more, e, roots), step) == Widened(After(c, s, step), more, e, roots)
  }

  lemma EffectWidens(st: Store, effect: Effect, more: Rows, e: ExecutionId)
    requires effect.FailWorkflow? ==> effect.execution != e
    ensures ApplyEffect(WidenedStore(st, more, e), effect) == WidenedStore(ApplyEffect(st, effect), more, e)
  {
  }

  lemma RowWidens(rows: Rows, t: TaskId, row: Option<Task>, more: Rows)
    requires t !in more
    ensures WithRow(rows + more, t, row) == WithRow(rows, t, row) + more
  {
  }

  lemma StoreWidens(c: Config, w: WorkerId, st: Store, pc: Pc, more: Rows, e: ExecutionId)
    requires ValidConfig(c) && KnownStore(c, st) && !pc.Idle? && KnownPc(c, pc) && Foreign(c, more, e)
    ensures MoveOf(c.handlers, w, WidenedStore(st, more, e), pc) == MoveOf(c.handlers, w, st, pc)
    ensures StoreAfter(c.handlers, w, WidenedStore(st, more, e), pc)
         == WidenedStore(StoreAfter(c.handlers, w, st, pc), more, e)
  {
    var t := pc.Held();
    var move := MoveOf(c.handlers, w, st, pc);
    assert Find(st.rows + more, t) == Find(st.rows, t);
    AdvanceKnown(c, w, pc, st.rows[t]);
    RowWidens(st.rows, t, move.row, more);
    EffectWidens(st.(rows := WithRow(st.rows, t, move.row)), move.effect, more, e);
  }

  lemma ShapeWidens(s: State, s': State, w: WorkerId, pc: Pc, store: Store, claim: bool, more: Rows, e: ExecutionId,
                    roots: seq<TaskId>)
    requires WorkShape(s, s', w, pc, store, claim)
    requires s.workers[w].Held() in s.claims && s.workers[w].Held() !in more
    ensures WorkShape(Widened(s, more, e, roots), Widened(s', more, e, roots), w, pc, WidenedStore(store, more, e),
                      claim)
  {
    var t := s.workers[w].Held();
    ClaimWidens(s.claims, t, more);
  }

  lemma ClaimWidens(claims: map<TaskId, nat>, t: TaskId, more: Rows)
    requires t in claims && t !in more
    ensures (claims + NoClaims(more.Keys))[t] == claims[t]
    ensures (claims + NoClaims(more.Keys))[t := claims[t] + 1]
         == claims[t := claims[t] + 1] + NoClaims(more.Keys)
  {
  }

  lemma WorkWidens(c: Config, c': Config, s: State, w: WorkerId, more: Rows, e: ExecutionId, roots: seq<TaskId>)
    requires ValidConfig(c) && Known(c, s) && Enabled(c, s, Work(w)) && Foreign(c, more, e) && SameParties(c, c')
    ensures Widens(c, c', s, Work(w), more, e, roots)
  {
    var pc := s.workers[w];
    var move := MoveOf(c.handlers, w, s.store, pc);
    var store := StoreAfter(c.handlers, w, s.store, pc);
    var s' := After(c, s, Work(w));
    StoreWidens(c, w, s.store, pc, more, e);
    WorkHasShape(c, s, w, move, store);
    ShapeWidens(s, s', w, move.pc, store, move.pc.Owned?, more, e, roots);
    WorkHasShape(c', Widened(s, more, e, roots), w, move, WidenedStore(store, more, e));
  }

  lemma DecrementWidens(rows: Rows, more: Rows, x: ExecutionId, ref: RefId, taint: bool)
    requires forall t | t in more :: more[t].spec.executionId != x
    ensures rows.Keys !! more.Keys ==> ReadySet(rows + more, x, ref) == ReadySet(rows, x, ref)
    ensures Decrement(rows + more, x, ref, taint) == Decrement(rows, x, ref, taint) + more
  {
  }

  lemma ResolveWidens(c: Config, c': Config, s: State, ready: seq<TaskId>, more: Rows, e: ExecutionId,
                      roots: seq<TaskId>)
    requires Known(c, s) && Enabled(c, s, Resolve(ready)) && Foreign(c, more, e)
    ensures Widens(c, c', s, Resolve(ready), more, e, roots)
  {
    var ev := s.coordinator.event;
    DecrementWidens(s.store.rows, more, ev.executionId, ev.refId, ev.TaskTerminated?);
  }

  lemma CompletedWidens(rows: Rows, more: Rows, x: ExecutionId)
    requires rows.Keys !! more.Keys && forall t | t in more :: more[t].spec.executionId != x
    ensures AllCompleted(rows + more, x) <==> AllCompleted(rows, x)
  {
    assert forall t | t in rows :: t in rows + more && (rows + more)[t] == rows[t];
  }

  lemma StatusWidens(verdicts: Verdicts, x: ExecutionId, e: ExecutionId)
    requires x != e
    ensures UpdatedStatus(verdicts[e := WorkflowRunning], x, WorkflowCompleted)
         == UpdatedStatus(verdicts, x, WorkflowCompleted)[e := WorkflowRunning]
  {
  }

  lemma VerdictWidens(c: Config, c': Config, s: State, step: Step, more: Rows, e: ExecutionId, roots: seq<TaskId>)
    requires Known(c, s) && Enabled(c, s, step) && (step.Check? || step.Decide?) && Foreign(c, more, e)
    ensures Widens(c, c', s, step, more, e, roots)
  {
    var x := s.coordinator.execution;
    if step.Check? {
      CompletedWidens(s.store.rows, more, x);
    } else {
      StatusWidens(s.store.verdicts, x, e);
    }
  }

  lemma SubmitterWidens(c: Config, c': Config, s: State, step: Step, more: Rows, e: ExecutionId, roots: seq<TaskId>)
    requires Known(c, s) && Enabled(c, s, step) && (step.SubmitPush? || step.SubmitFails?) && Foreign(c, more, e)
    ensures Widens(c, c', s, step, more, e, roots)
  {
    var x := step.execution;
    assert x != e;
    var left := if step.SubmitPush? then s.submitters[x][1..] else [];
    assert s.submitters[e := roots][x := left] == s.submitters[x := left][e := roots];
  }

  lemma PopWidens(c: Config, c': Config, s: State, w: WorkerId, more: Rows, e: ExecutionId, roots: seq<TaskId>)
    requires Enabled(c, s, Pop(w)) && SameParties(c, c')
    ensures Widens(c, c', s, Pop(w), more, e, roots)
  {
    assert QueueOf(Widened(s, more, e, roots), c.workers[w]) == QueueOf(s, c.workers[w]);
  }

  lemma RestWidens(c: Config, c': Config, s: State, step: Step, more: Rows, e: ExecutionId, roots: seq<TaskId>)
    requires Enabled(c, s, step)
    requires step.Abandon? || step.Take? || step.LoseEvent? || step.CoordinatorPush? || step.CoordinatorPushFails?
             || step.CoordinatorStops?
    ensures Widens(c, c', s, step, more, e, roots)
  {
  }

  /** Whatever happens next happens just the same with one more workflow in the tables. */
  lemma StepWidens(c: Config, c': Config, s: State, step: Step, more: Rows, e: ExecutionId, roots: seq<TaskId>)
    requires ValidConfig(c) && Known(c, s) && Enabled(c, s, step) && !step.Intrude?
    requires Foreign(c, more, e) && SameParties(c, c')
    ensures Widens(c, c', s, step, more, e, roots)
  {
    match step
    case Work(w) => WorkWidens(c, c', s, w, more, e, roots);
    case Resolve(ready) => ResolveWidens(c, c', s, ready, more, e, roots);
    case Check => VerdictWidens(c, c', s, step, more, e, roots);
    case Decide => VerdictWidens(c, c', s, step, more, e, roots);
    case SubmitPush(_) => SubmitterWidens(c, c', s, step, more, e, roots);
    case SubmitFails(_) => SubmitterWidens(c, c', s, step, more, e, roots);
    case Pop(w) => PopWidens(c, c', s, w, more, e, roots);
    case _ => RestWidens(c, c', s, step, more, e, roots);
  }

  lemma StartWidens(c: Config, c': Config, mode: Mode, more: Rows, e: ExecutionId, roots: seq<TaskId>)
    requires ValidConfig(c) && ValidConfig(c') && Widened(Init(c), more, e, roots) == Init(c')
    ensures Reachable(c', mode, Widened(Init(c), more, e, roots))
  {
    StartsReachable(c');
    MoreMayHappen(c', mode, Init(c'));
  }

  lemma KnownStep(c: Config, mode: Mode, states: seq<State>, steps: seq<Step>, i: nat)
    requires Run(c, mode, states, steps) && !mode.Chaotic? && i < |steps|
    ensures ValidConfig(c) && Known(c, states[i]) && RunStep(c, mode, states[i], steps[i], states[i+1])
  {
    RunKnown(c, mode, states, steps, i);
  }

  lemma {:induction false} RunWidens(c: Config, c': Config, mode: Mode, states: seq<State>, steps: seq<Step>, i: nat,
                                     more: Rows, e: ExecutionId, roots: seq<TaskId>)
    requires Run(c, mode, states, steps) && !mode.Chaotic? && i < |states|
    requires Foreign(c, more, e) && SameParties(c, c') && Reachable(c', mode, Widened(states[0], more, e, roots))
    ensures Reachable(c', mode, Widened(states[i], more, e, roots))
  {
    if i > 0 {
      RunWidens(c, c', mode, states, steps, i - 1, more, e, roots);
      KnownStep(c, mode, states, steps, i - 1);
      RunStepWidens(c, c', mode, states[i-1], steps[i-1], states[i], more, e, roots);
    }
  }

  lemma RunStepWidens(c: Config, c': Config, mode: Mode, s: State, step: Step, s': State, more: Rows, e: ExecutionId,
                      roots: seq<TaskId>)
    requires ValidConfig(c) && Known(c, s) && RunStep(c, mode, s, step, s') && !mode.Chaotic?
    requires Foreign(c, more, e) && SameParties(c, c') && Reachable(c', mode, Widened(s, more, e, roots))
    ensures Reachable(c', mode, Widened(s', more, e, roots))
  {
    StepWidens(c, c', s, step, more, e, roots);
    StepOn(c', mode, Widened(s, more, e, roots), step);
  }

  lemma ReachableWidens(c: Config, c': Config, mode: Mode, s: State, more: Rows, e: ExecutionId, roots: seq<TaskId>)
    requires ValidConfig(c) && ValidConfig(c') && Reachable(c, mode, s) && !mode.Chaotic?
    requires Foreign(c, more, e) && SameParties(c, c') && Widened(Init(c), more, e, roots) == Init(c')
    ensures Reachable(c', mode, Widened(s, more, e, roots))
  {
    var states, steps :| Run(c, mode, states, steps) && s == states[|steps|];
    StartWidens(c, c', mode, more, e, roots);
    RunWidens(c, c', mode, states, steps, |steps|, more, e, roots);
  }

  lemma ReachableIsValid(c: Config, mode: Mode, s: State)
    requires Reachable(c, mode, s)
    ensures ValidConfig(c)
  {
  }

  lemma ReachableKnown(c: Config, mode: Mode, s: State)
    requires Reachable(c, mode, s) && !mode.Chaotic?
    ensures Known(c, s)
  {
    var states, steps :| Run(c, mode, states, steps) && s == states[|steps|];
    RunKnown(c, mode, states, steps, |steps|);
  }
}
