/** Every run is finite: each step uses up part of a budget fixed by the stored tasks. */
module Termination {
  import opened Domain
  import opened TaskTable
  import opened WorkerSteps
  import opened Protocol
  import opened Tokens
  import opened TokenSteps
  import opened ResolveStep
  import opened Invariant
  import opened Delivery

  // ---- sums over the tasks ----

  ghost function Sum(m: map<TaskId, nat>): nat
    decreases |m|
  {
    if m == map[] then 0
    else
      var k :| k in m;
      assert |m - {k}| < |m| by { SmallerMap(m, k); }
      m[k] + Sum(m - {k})
  }

  lemma SmallerMap(m: map<TaskId, nat>, k: TaskId)
    requires k in m
    ensures |m - {k}| == |m| - 1
  {
    assert (m - {k}).Keys == m.Keys - {k};
    assert |(m - {k}).Keys| == |m - {k}|;
  }

  lemma {:induction false} SumSplit(m: map<TaskId, nat>, k: TaskId)
    requires k in m
    ensures Sum(m) == m[k] + Sum(m - {k})
    decreases |m|
  {
    assert m != map[];
    var j :| j in m && Sum(m) == m[j] + Sum(m - {j});
    if j != k {
      SmallerMap(m, j);
      SmallerMap(m, k);
      SumSplit(m - {j}, k);
      SumSplit(m - {k}, j);
      assert m - {j} - {k} == m - {k} - {j};
    }
  }

  lemma {:induction false} SumMonotone(m: map<TaskId, nat>, m': map<TaskId, nat>)
    requires m.Keys == m'.Keys && forall k | k in m :: m'[k] <= m[k]
    ensures Sum(m') <= Sum(m)
    decreases |m|
  {
    if m != map[] {
      var k :| k in m;
      SmallerMap(m, k);
      SumSplit(m, k);
      SumSplit(m', k);
      SumMonotone(m - {k}, m' - {k});
    } else {
      assert m' == map[];
    }
  }

  lemma SumDrops(m: map<TaskId, nat>, m': map<TaskId, nat>, k: TaskId, d: nat)
    requires m.Keys == m'.Keys && forall j | j in m :: m'[j] <= m[j]
    requires k in m && m'[k] + d <= m[k]
    ensures Sum(m') + d <= Sum(m)
  {
    SumSplit(m, k);
    SumSplit(m', k);
    SumMonotone(m - {k}, m' - {k});
  }

  lemma OneMoreFactor(n: int, b: nat)
    ensures (n - 1) * b + b == n * b
  {
  }

  lemma {:induction false} SumBound(m: map<TaskId, nat>, b: nat)
    requires forall k | k in m :: m[k] <= b
    ensures Sum(m) <= |m| * b
    decreases |m|
  {
    if m != map[] {
      var k :| k in m;
      SmallerMap(m, k);
      SumSplit(m, k);
      SumBound(m - {k}, b);
      OneMoreFactor(|m|, b);
    }
  }

  // ---- the budget ----

  function RetriesLeft(row: Task): nat {
    if row.retryCount <= row.spec.maxRetries then row.spec.maxRetries - row.retryCount else 0
  }

  function PcWeight(pc: Pc, left: nat): nat {
    match pc
    case Idle | UnknownMarked(_) | UnknownAnnounced(_) => 0
    case Popped(_) => 10 + 6 * left
    case Fetched(_) => 9 + 6 * left
    case Owned(_) => 8 + 6 * left
    case Errored(_) => 7 + 6 * left
    case RetryCounted(_) => 12 + 6 * left
    case Succeeded(_) | FailedMarked(_) => 6
    case SkipMarked(_) | CompletedMarked(_) | VerdictFailed(_) => 5
  }

  function PlaceWeight(s: State, p: Place, left: nat): nat {
    match p
    case WithSubmitter(_) | WithCoordinator => 12 + 6 * left
    case InMainQueue | InRetryQueue => 11 + 6 * left
    case AtWorker(w) => if w in s.workers then PcWeight(s.workers[w], left) else 0
    case InChannel(_) => 4
    case InCoordinator => 3
    case Processed => 0
  }

  ghost function Spot(s: State, t: TaskId): Place
    requires Somewhere(s, t)
  {
    var p :| At(s, p, t);
    p
  }

  /** How many steps a task can still cause. */
  ghost function Weight(s: State, t: TaskId): nat
    requires t in s.store.rows
  {
    var row := s.store.rows[t];
    if row.inDegree > 0 then 12 + 6 * row.spec.maxRetries
    else if Somewhere(s, t) then PlaceWeight(s, Spot(s, t), RetriesLeft(row))
    else 0
  }

  function CoordinatorWeight(pc: CoordinatorPc): nat {
    if pc.Checking? then 2 else if pc.Deciding? then 1 else 0
  }

  ghost function Weights(s: State): map<TaskId, nat> {
    map t | t in s.store.rows :: Weight(s, t)
  }

  ghost function Budget(s: State): nat {
    Sum(Weights(s)) + CoordinatorWeight(s.coordinator)
  }

  lemma WeightAt(s: State, p: Place, t: TaskId)
    requires OneToken(s) && At(s, p, t) && t in s.store.rows && s.store.rows[t].inDegree <= 0
    ensures Weight(s, t) == PlaceWeight(s, p, RetriesLeft(s.store.rows[t]))
  {
    assert At(s, Spot(s, t), t);
  }

  // ---- steps that move at most one task ----

  /** The task whose budget the step uses up. */
  ghost function Mover(c: Config, s: State, step: Step): Option<TaskId> {
    match ShiftOf(c, s, step)
    case Go(from, i, _) => if i < |Holds(s, from)| then Some(Holds(s, from)[i]) else None
    case Vanish(from) => if Holds(s, from) != [] then Some(Holds(s, from)[0]) else None
    case Stay => if step.Work? && step.worker in s.workers && !s.workers[step.worker].Idle?
                 then Some(s.workers[step.worker].Held()) else None
  }

  lemma OthersKeepPlace(s: State, s': State, shift: Shift, p: Place, t: TaskId)
    requires Shifts(s, s', shift) && At(s', p, t)
    requires shift.Go? ==> t != Holds(s, shift.from)[shift.i]
    ensures At(s, p, t)
    ensures shift.Vanish? ==> p != shift.place
  {
  }

  /** A task that the step does not move keeps its weight, or is dropped. */
  lemma OthersKeepWeight(s: State, s': State, shift: Shift, t: TaskId)
    requires OneToken(s) && Shifts(s, s', shift) && t in s.store.rows && t in s'.store.rows
    requires SameElsewhere(s, s', shift) || (shift.Stay? && exists w :: OnlyWorker(s, s', w, t))
    requires shift.Go? ==> t != Holds(s, shift.from)[shift.i]
    requires shift.Go? && shift.from.AtWorker? ==> |Holds(s, shift.from)| == 1
    requires shift.Go? && shift.to.Some? && shift.to.value.AtWorker? ==> Holds(s, shift.to.value) == []
    requires s'.store.rows[t] == s.store.rows[t]
    ensures Weight(s', t) <= Weight(s, t)
  {
    if s.store.rows[t].inDegree <= 0 && Somewhere(s', t) {
      var p := Spot(s', t);
      OthersKeepPlace(s, s', shift, p, t);
      WeightAt(s, p, t);
    }
  }

  ghost predicate OnlyWorker(s: State, s': State, w: WorkerId, t: TaskId) {
    && w in s.workers && !At(s, AtWorker(w), t)
    && s'.workers.Keys == s.workers.Keys && forall w' | w' in s.workers && w' != w :: s'.workers[w'] == s.workers[w']
  }

  lemma Gone(s: State, s': State, shift: Shift, t: TaskId)
    requires OneToken(s) && Shifts(s, s', shift)
    requires match shift
             case Go(from, i, to) => to.None? && t == Holds(s, from)[i]
             case Vanish(from) => At(s, from, t)
             case Stay => false
    ensures !Somewhere(s', t)
  {
    var from := if shift.Go? then shift.from else shift.place;
    assert At(s, from, t);
    if shift.Go? {
      WithoutMember(Holds(s, from), shift.i);
    }
    forall p ensures !At(s', p, t) {
      assert p != from ==> !At(s, p, t);
    }
  }

  lemma Arrived(s: State, s': State, shift: Shift)
    requires Shifts(s, s', shift) && shift.Go? && shift.to.Some?
    ensures At(s', shift.to.value, Holds(s, shift.from)[shift.i])
  {
    assert Holds(s', shift.to.value)[|Holds(s, shift.to.value)|] == Holds(s, shift.from)[shift.i];
  }

  /** Where a rowless step's mover stood, and what its places are worth. */
  lemma RowlessPlaceDrops(c: Config, s: State, step: Step, left: nat)
    requires Placed(c, s) && Enabled(c, s, step) && Simple(step) && !step.Work?
    requires (s.coordinator.Pushing? ==> s.coordinator.ready != [])
    requires Mover(c, s, step).Some?
    ensures var shift := ShiftOf(c, s, step); var s' := After(c, s, step);
            match shift
            case Go(from, _, to) => PlaceWeight(s, from, left) > if to.Some? then PlaceWeight(s', to.value, left) else 0
            case Vanish(from) => PlaceWeight(s, from, left) > 0
            case Stay => true
  {
    if step.Abandon? {
      var t := s.workers[step.worker].Held();
      assert At(s, AtWorker(step.worker), t);
    }
  }

  lemma RowlessMoverDrops(c: Config, s: State, step: Step, t: TaskId)
    requires TokenInv(c, s) && Registered(c) && Enabled(c, s, step) && Simple(step) && !step.Work?
    requires Mover(c, s, step) == Some(t)
    ensures t in s.store.rows && t in After(c, s, step).store.rows && Weight(After(c, s, step), t) < Weight(s, t)
  {
    var s' := After(c, s, step);
    var shift := ShiftOf(c, s, step);
    StepShifts(c, s, step);
    ShiftKeepsOneToken(s, s', shift);
    RowlessElsewhere(c, s, step);
    var from := if shift.Go? then shift.from else shift.place;
    assert At(s, from, t);
    RowlessPlaceDrops(c, s, step, RetriesLeft(s.store.rows[t]));
    WeightAt(s, from, t);
    if shift.Go? && shift.to.Some? {
      Arrived(s, s', shift);
      WeightAt(s', shift.to.value, t);
    } else {
      Gone(s, s', shift, t);
    }
  }

  /** What the statement's outcome is still worth. */
  function MoveWeight(move: Move, left: nat): nat {
    match move.effect
    case PushRetry(_) => 11 + 6 * left
    case Announce(_) => 4
    case _ => PcWeight(move.pc, left)
  }

  lemma AdvanceDrops(h: Handlers, w: WorkerId, pc: Pc, row: Task)
    requires !pc.Idle? && PcFits(h, pc, row) && row.spec.action in h.registry && row.retryCount <= row.spec.maxRetries
    ensures var move := Advance(h, w, pc, Some(row));
            PcWeight(pc, RetriesLeft(row)) > MoveWeight(move, RetriesLeft(RowAfter(move, row)))
  {
  }

  lemma WorkedMoverDrops(c: Config, s: State, s': State, w: WorkerId, move: Move, row': Task)
    requires OneToken(s) && OneToken(s') && Worked(c, s, s', w, move, row')
    requires Shifts(s, s', Destination(w, move.effect))
    requires PcWeight(s.workers[w], RetriesLeft(s.store.rows[s.workers[w].Held()]))
           > MoveWeight(move, RetriesLeft(row'))
    ensures Weight(s', s.workers[w].Held()) < Weight(s, s.workers[w].Held())
  {
    var t := s.workers[w].Held();
    var shift := Destination(w, move.effect);
    WeightAt(s, AtWorker(w), t);
    if shift.Go? {
      Arrived(s, s', shift);
      WeightAt(s', shift.to.value, t);
    } else {
      assert At(s', AtWorker(w), t);
      WeightAt(s', AtWorker(w), t);
    }
  }

  lemma WorkedOthers(c: Config, s: State, s': State, w: WorkerId, move: Move, row': Task, t: TaskId)
    requires OneToken(s) && Worked(c, s, s', w, move, row') && Shifts(s, s', Destination(w, move.effect))
    requires t in s.store.rows && t != s.workers[w].Held()
    ensures Weight(s', t) <= Weight(s, t)
  {
    assert OnlyWorker(s, s', w, t);
    OthersKeepWeight(s, s', Destination(w, move.effect), t);
  }

  lemma WorkDoneDrops(c: Config, s: State, w: WorkerId) returns (move: Move, row': Task)
    requires TokenInv(c, s) && Registered(c) && Enabled(c, s, Work(w))
    ensures Worked(c, s, After(c, s, Work(w)), w, move, row')
    ensures ShiftOf(c, s, Work(w)) == Destination(w, move.effect)
    ensures PcWeight(s.workers[w], RetriesLeft(s.store.rows[s.workers[w].Held()]))
          > MoveWeight(move, RetriesLeft(row'))
  {
    HeldRow(c, s, w);
    var t := s.workers[w].Held();
    move, row' := WorkDone(c, s, w);
    AdvanceDrops(c.handlers, w, s.workers[w], s.store.rows[t]);
  }

  lemma WorkWeights(c: Config, s: State, w: WorkerId, t: TaskId)
    requires TokenInv(c, s) && Registered(c) && Enabled(c, s, Work(w)) && t in s.store.rows
    ensures t in After(c, s, Work(w)).store.rows && Weight(After(c, s, Work(w)), t) <= Weight(s, t)
    ensures t == s.workers[w].Held() ==> Weight(After(c, s, Work(w)), t) < Weight(s, t)
  {
    StepShifts(c, s, Work(w));
    ShiftKeepsOneToken(s, After(c, s, Work(w)), ShiftOf(c, s, Work(w)));
    var move, row' := WorkDoneDrops(c, s, w);
    if t == s.workers[w].Held() {
      WorkedMoverDrops(c, s, After(c, s, Work(w)), w, move, row');
    } else {
      assert RowFits(c.handlers, s.store.rows[t], s.claims[t]);
      WorkedOthers(c, s, After(c, s, Work(w)), w, move, row', t);
    }
  }

  lemma RowlessOthers(c: Config, s: State, step: Step, t: TaskId)
    requires TokenInv(c, s) && Registered(c) && Enabled(c, s, step) && Simple(step) && !step.Work?
    requires t in s.store.rows && Mover(c, s, step) != Some(t)
    ensures t in After(c, s, step).store.rows && Weight(After(c, s, step), t) <= Weight(s, t)
  {
    StepShifts(c, s, step);
    RowlessElsewhere(c, s, step);
    OthersKeepWeight(s, After(c, s, step), ShiftOf(c, s, step), t);
  }

  lemma SimpleWeights(c: Config, s: State, step: Step, t: TaskId)
    requires TokenInv(c, s) && Registered(c) && Enabled(c, s, step) && Simple(step) && t in s.store.rows
    ensures t in After(c, s, step).store.rows && Weight(After(c, s, step), t) <= Weight(s, t)
    ensures Mover(c, s, step) == Some(t) ==> Weight(After(c, s, step), t) < Weight(s, t)
  {
    if step.Work? {
      WorkMoverIsHeld(c, s, step.worker);
      WorkWeights(c, s, step.worker, t);
    } else if Mover(c, s, step) == Some(t) {
      RowlessMoverDrops(c, s, step, t);
    } else {
      RowlessOthers(c, s, step, t);
    }
  }

  lemma WorkMoverIsHeld(c: Config, s: State, w: WorkerId)
    requires Enabled(c, s, Work(w))
    ensures Mover(c, s, Work(w)) == Some(s.workers[w].Held())
  {
  }

  /** A step without a mover is a step of the coordinator's completion check. */
  lemma NoMover(c: Config, s: State, step: Step)
    requires Announced(s) && Enabled(c, s, step) && Simple(step)
    ensures var before := CoordinatorWeight(s.coordinator);
            var after := CoordinatorWeight(After(c, s, step).coordinator);
            if Mover(c, s, step).None? then after < before else after <= before
  {
    if step.Work? {
      WorkMoverIsHeld(c, s, step.worker);
    }
  }

  lemma MoverStored(c: Config, s: State, step: Step, t: TaskId)
    requires Placed(c, s) && Enabled(c, s, step) && Simple(step) && Mover(c, s, step) == Some(t)
    ensures t in s.store.rows
  {
    if step.Work? {
      WorkMoverIsHeld(c, s, step.worker);
      assert At(s, AtWorker(step.worker), t);
    } else {
      var shift := ShiftOf(c, s, step);
      assert At(s, if shift.Go? then shift.from else shift.place, t);
    }
  }

  lemma BudgetDrops(s: State, s': State, mover: Option<TaskId>, d: nat)
    requires s'.store.rows.Keys == s.store.rows.Keys
    requires forall t | t in s.store.rows :: Weight(s', t) <= Weight(s, t)
    requires mover.Some? ==> mover.value in s.store.rows && Weight(s', mover.value) + d <= Weight(s, mover.value)
    requires CoordinatorWeight(s'.coordinator) < CoordinatorWeight(s.coordinator) + (if mover.Some? then d else 0)
    ensures Budget(s') < Budget(s)
  {
    if mover.Some? {
      SumDrops(Weights(s), Weights(s'), mover.value, d);
    } else {
      SumMonotone(Weights(s), Weights(s'));
    }
  }

  lemma SimpleDrops(c: Config, s: State, step: Step)
    requires TokenInv(c, s) && Registered(c) && Enabled(c, s, step) && Simple(step)
    ensures Budget(After(c, s, step)) < Budget(s)
  {
    forall t | t in s.store.rows
      ensures t in After(c, s, step).store.rows && Weight(After(c, s, step), t) <= Weight(s, t)
    {
      SimpleWeights(c, s, step, t);
    }
    SimpleKeepsCounters(c, s, step);
    NoMover(c, s, step);
    var mover := Mover(c, s, step);
    if mover.Some? {
      MoverStored(c, s, step, mover.value);
      SimpleWeights(c, s, step, mover.value);
    }
    BudgetDrops(s, After(c, s, step), mover, 1);
  }

  // ---- the decrement ----

  /** Leaving the wait for a place with the coordinator costs nothing. */
  lemma ReleasedWeight(s: State, s': State, t: TaskId)
    requires OneToken(s') && At(s', WithCoordinator, t) && t in s.store.rows && t in s'.store.rows
    requires s.store.rows[t].inDegree > 0 && s'.store.rows[t].inDegree <= 0
    requires s'.store.rows[t].spec == s.store.rows[t].spec
    ensures Weight(s', t) <= Weight(s, t)
  {
    WeightAt(s', WithCoordinator, t);
  }

  /** Resolving a task's event uses up what its place with the coordinator is worth. */
  lemma LoggedWeight(s: State, s': State, t: TaskId)
    requires OneToken(s) && OneToken(s') && At(s, InCoordinator, t) && At(s', Processed, t)
    requires t in s.store.rows && t in s'.store.rows
    requires s.store.rows[t].inDegree <= 0 && s'.store.rows[t].inDegree <= 0
    ensures Weight(s', t) + 3 <= Weight(s, t)
  {
    WeightAt(s, InCoordinator, t);
    WeightAt(s', Processed, t);
  }

  lemma ReadyWeight(c: Config, s: State, ready: seq<TaskId>, t: TaskId)
    requires TokenInv(c, s) && Enabled(c, s, Resolve(ready)) && t in ready
    ensures t in s.store.rows && t in After(c, s, Resolve(ready)).store.rows
    ensures Weight(After(c, s, Resolve(ready)), t) <= Weight(s, t)
  {
    assert t in s.store.rows;
    ResolveRow(c, s, ready, t);
    ResolveKeepsOneToken(c, s, ready);
    assert At(After(c, s, Resolve(ready)), WithCoordinator, t) by {
      ReleaseHolds(c, s, ready, WithCoordinator);
    }
    ReleasedWeight(s, After(c, s, Resolve(ready)), t);
  }

  lemma EventArrives(c: Config, s: State, ready: seq<TaskId>)
    requires s.coordinator.Got? && Enabled(c, s, Resolve(ready))
    ensures At(s, InCoordinator, s.coordinator.event.taskId)
    ensures At(After(c, s, Resolve(ready)), Processed, s.coordinator.event.taskId)
  {
    ReleaseHolds(c, s, ready, Processed);
  }

  lemma EventPlaces(c: Config, s: State, ready: seq<TaskId>)
    requires TokenInv(c, s) && Enabled(c, s, Resolve(ready))
    ensures var t := s.coordinator.event.taskId; var s' := After(c, s, Resolve(ready));
            && At(s, InCoordinator, t) && At(s', Processed, t)
            && t in s.store.rows && t in s'.store.rows
            && s.store.rows[t].inDegree <= 0 && s'.store.rows[t].inDegree <= 0
  {
    EventArrives(c, s, ready);
    ResolvedIsReleased(c, s, s.coordinator.event.taskId);
    FinishedKept(c, s, ready, s.coordinator.event.taskId);
  }

  lemma EventWeight(c: Config, s: State, ready: seq<TaskId>)
    requires TokenInv(c, s) && Enabled(c, s, Resolve(ready))
    ensures var t := s.coordinator.event.taskId;
            && t in s.store.rows && t in After(c, s, Resolve(ready)).store.rows
            && Weight(After(c, s, Resolve(ready)), t) + 3 <= Weight(s, t)
  {
    ResolveKeepsOneToken(c, s, ready);
    EventPlaces(c, s, ready);
    LoggedWeight(s, After(c, s, Resolve(ready)), s.coordinator.event.taskId);
  }

  lemma BystanderPlace(c: Config, s: State, ready: seq<TaskId>, p: Place, t: TaskId)
    requires Enabled(c, s, Resolve(ready)) && At(After(c, s, Resolve(ready)), p, t)
    requires t !in ready && t != s.coordinator.event.taskId
    ensures At(s, p, t)
    ensures forall left :: PlaceWeight(After(c, s, Resolve(ready)), p, left) == PlaceWeight(s, p, left)
  {
    ReleaseHolds(c, s, ready, p);
  }

  /** A task that only got a late decrement, if any, keeps its weight. */
  lemma LateWeight(s: State, s': State, t: TaskId)
    requires OneToken(s) && t in s.store.rows && t in s'.store.rows && LateOnly(s.store.rows[t], s'.store.rows[t])
    requires s.store.rows[t].inDegree > 0 ==> s'.store.rows[t].inDegree > 0
    requires s.store.rows[t].inDegree <= 0 ==>
               forall p | At(s', p, t) ::
                 At(s, p, t) && forall left :: PlaceWeight(s', p, left) == PlaceWeight(s, p, left)
    ensures Weight(s', t) <= Weight(s, t)
  {
    if s.store.rows[t].inDegree <= 0 && Somewhere(s', t) {
      var p := Spot(s', t);
      WeightAt(s, p, t);
    }
  }

  lemma BystanderWeight(c: Config, s: State, ready: seq<TaskId>, t: TaskId)
    requires TokenInv(c, s) && Enabled(c, s, Resolve(ready))
    requires t in c.specs && t !in ready && t != s.coordinator.event.taskId
    ensures t in After(c, s, Resolve(ready)).store.rows
    ensures Weight(After(c, s, Resolve(ready)), t) <= Weight(s, t)
  {
    var s' := After(c, s, Resolve(ready));
    ResolveRow(c, s, ready, t);
    forall p | At(s', p, t)
      ensures At(s, p, t) && forall left :: PlaceWeight(s', p, left) == PlaceWeight(s, p, left)
    {
      BystanderPlace(c, s, ready, p, t);
    }
    LateWeight(s, s', t);
  }

  lemma ResolveWeights(c: Config, s: State, ready: seq<TaskId>, t: TaskId)
    requires TokenInv(c, s) && Enabled(c, s, Resolve(ready)) && t in c.specs
    ensures t in After(c, s, Resolve(ready)).store.rows
    ensures Weight(After(c, s, Resolve(ready)), t) <= Weight(s, t)
  {
    if t in ready {
      ReadyWeight(c, s, ready, t);
    } else if t == s.coordinator.event.taskId {
      EventWeight(c, s, ready);
    } else {
      BystanderWeight(c, s, ready, t);
    }
  }

  lemma AllResolveWeights(c: Config, s: State, ready: seq<TaskId>)
    requires TokenInv(c, s) && Enabled(c, s, Resolve(ready))
    ensures After(c, s, Resolve(ready)).store.rows.Keys == s.store.rows.Keys
    ensures forall t | t in s.store.rows :: Weight(After(c, s, Resolve(ready)), t) <= Weight(s, t)
  {
    forall t | t in s.store.rows ensures Weight(After(c, s, Resolve(ready)), t) <= Weight(s, t) {
      ResolveWeights(c, s, ready, t);
    }
  }

  lemma CoordinatorWeightBound(pc: CoordinatorPc)
    ensures CoordinatorWeight(pc) <= 2
  {
  }

  lemma ResolveDrops(c: Config, s: State, ready: seq<TaskId>)
    requires TokenInv(c, s) && Enabled(c, s, Resolve(ready))
    ensures Budget(After(c, s, Resolve(ready))) < Budget(s)
  {
    var s' := After(c, s, Resolve(ready));
    AllResolveWeights(c, s, ready);
    EventWeight(c, s, ready);
    CoordinatorWeightBound(s'.coordinator);
    BudgetDrops(s, s', Some(s.coordinator.event.taskId), 3);
  }

  lemma StepDrops(c: Config, s: State, step: Step)
    requires Registered(c) && Base(c, s) && Enabled(c, s, step) && !step.Intrude?
    ensures Budget(After(c, s, step)) < Budget(s)
  {
    if step.Resolve? {
      ResolveDrops(c, s, step.ready);
    } else {
      SimpleDrops(c, s, step);
    }
  }

  // ---- runs ----

  lemma RunStepDrops(c: Config, mode: Mode, s: State, step: Step, s': State)
    requires Stored(c) && !mode.Chaotic? && Base(c, s) && RunStep(c, mode, s, step, s')
    ensures Budget(s') < Budget(s)
  {
    StepDrops(c, s, step);
  }

  lemma AdjacentBudgets(c: Config, mode: Mode, states: seq<State>, steps: seq<Step>, i: nat)
    requires Stored(c) && Run(c, mode, states, steps) && !mode.Chaotic? && i < |steps|
    ensures Budget(states[i+1]) < Budget(states[i])
  {
    RunKeeps(c, mode, states, steps, i);
    RunStepDrops(c, mode, states[i], steps[i], states[i+1]);
  }

  lemma {:induction false} Descent(budgets: seq<nat>, i: nat)
    requires i < |budgets| && forall k {:trigger budgets[k]} | 0 < k < |budgets| :: budgets[k] < budgets[k-1]
    ensures i + budgets[i] <= budgets[0]
  {
    if i > 0 {
      Descent(budgets, i - 1);
    }
  }

  ghost function Budgets(states: seq<State>): seq<nat> {
    seq(|states|, i requires 0 <= i < |states| => Budget(states[i]))
  }

  lemma RunSpends(c: Config, mode: Mode, states: seq<State>, steps: seq<Step>)
    requires Stored(c) && Run(c, mode, states, steps) && !mode.Chaotic?
    ensures |steps| + Budget(states[|steps|]) <= Budget(states[0])
  {
    forall k | 0 < k < |states| ensures Budgets(states)[k] < Budgets(states)[k-1] {
      AdjacentBudgets(c, mode, states, steps, k - 1);
    }
    Descent(Budgets(states), |steps|);
  }

  lemma InitialWeight(s: State, t: TaskId, r: nat)
    requires t in s.store.rows && s.store.rows[t].spec.maxRetries <= r
    requires forall w | w in s.workers :: s.workers[w].Idle?
    ensures Weight(s, t) <= 12 * (r + 1)
  {
  }

  lemma KeysSize(m: map<TaskId, nat>, keys: set<TaskId>)
    requires m.Keys == keys
    ensures |m| == |keys|
  {
    assert |m.Keys| == |m|;
  }

  lemma RowsSize(rows: Rows)
    ensures |rows.Keys| == |rows|
  {
  }

  lemma FullWeights(s: State, r: nat)
    requires forall t | t in s.store.rows :: s.store.rows[t].spec.maxRetries <= r
    requires forall w | w in s.workers :: s.workers[w].Idle?
    ensures forall t | t in Weights(s) :: Weights(s)[t] <= 12 * (r + 1)
  {
    forall t | t in s.store.rows ensures Weight(s, t) <= 12 * (r + 1) {
      InitialWeight(s, t, r);
    }
  }

  lemma FullBudget(s: State, n: nat, r: nat)
    requires |s.store.rows| == n && forall t | t in s.store.rows :: s.store.rows[t].spec.maxRetries <= r
    requires s.coordinator.Waiting? && forall w | w in s.workers :: s.workers[w].Idle?
    ensures Budget(s) <= n * (12 * (r + 1))
  {
    FullWeights(s, r);
    SumBound(Weights(s), 12 * (r + 1));
    KeysSize(Weights(s), s.store.rows.Keys);
    RowsSize(s.store.rows);
  }

  lemma InitialShape(c: Config)
    requires ValidConfig(c)
    ensures |Init(c).store.rows| == |c.specs|
    ensures forall t | t in Init(c).store.rows :: t in c.specs && Init(c).store.rows[t].spec == c.specs[t]
    ensures Init(c).coordinator.Waiting? && forall w | w in Init(c).workers :: Init(c).workers[w].Idle?
  {
    var rows := Init(c).store.rows;
    assert rows.Keys == c.specs.Keys;
    assert |rows.Keys| == |rows| && |c.specs.Keys| == |c.specs|;
  }

  lemma InitialBudget(c: Config, r: nat)
    requires ValidConfig(c) && forall t | t in c.specs :: c.specs[t].maxRetries <= r
    ensures Budget(Init(c)) <= |c.specs| * (12 * (r + 1))
  {
    InitialShape(c);
    FullBudget(Init(c), |c.specs|, r);
  }

  /** Every run of n tasks with at most r retries each stops within 12 n (r + 1) steps, losses included. */
  lemma RunsAreBounded(c: Config, mode: Mode, states: seq<State>, steps: seq<Step>, r: nat)
    requires Stored(c) && Run(c, mode, states, steps) && !mode.Chaotic?
    requires forall t | t in c.specs :: c.specs[t].maxRetries <= r
    ensures |steps| <= |c.specs| * (12 * (r + 1))
  {
    RunSpends(c, mode, states, steps);
    InitialBudget(c, r);
  }
}
