/** Balanced requests run in order: what every reachable state of theirs keeps beyond the general invariant. */
module Order {
  import opened Domain
  import opened WorkerSteps
  import opened Protocol
  import opened Tokens
  import opened TokenSteps
  import opened Counting
  import opened Closure
  import opened ResolveStep
  import opened Invariant

  // ---- the invariant ----

  /** No late decrement: a counter stops at zero, and nothing that was claimed is ever tainted. */
  predicate StrictRow(row: Task, claims: nat) {
    && row.inDegree >= 0
    && (row.status == Skipped ==> row.retryCount == 0)
    && (claims > 0 ==> !row.skipHint)
  }

  ghost predicate StrictRows(c: Config, s: State) {
    forall t | t in c.specs && t in s.store.rows && t in s.claims :: StrictRow(s.store.rows[t], s.claims[t])
  }

  /** Snapshots are up to date, the skip hint included. */
  ghost predicate FreshSnapshots(s: State) {
    forall w | w in s.workers && s.workers[w].Fetched? :: FreshSnapshot(s, s.workers[w].task)
  }

  predicate FreshSnapshot(s: State, m: Task) {
    m.spec.id in s.store.rows && s.store.rows[m.spec.id] == m
  }

  ghost predicate Inv(c: Config, s: State) {
    Base(c, s) && StrictRows(c, s) && FreshSnapshots(s) && Ordered(c, s.log)
  }

  /** The event being handled, if any, is in order: its task was unlocked, and its children still wait. */
  ghost predicate Fresh(c: Config, s: State) {
    s.coordinator.Got? ==> FreshEvent(c, s, s.coordinator.event.taskId)
  }

  ghost predicate FreshEvent(c: Config, s: State, u: TaskId) {
    && u in c.specs && Unlocked(c, LogSet(s.log), u)
    && forall t | Parent(c, u, t) :: t in s.store.rows && s.store.rows[t].inDegree > 0
  }

  // ---- steps ----

  lemma AdvanceStrict(h: Handlers, w: WorkerId, pc: Pc, row: Task, claims: nat)
    requires !pc.Idle? && PcFits(h, pc, row) && RowFits(h, row, claims) && StrictRow(row, claims)
    requires row.spec.action in h.registry && (pc.Fetched? ==> pc.task == row)
    ensures var move := Advance(h, w, pc, Some(row));
            && StrictRow(RowAfter(move, row), ClaimsAfter(move, claims))
            && (move.pc.Fetched? ==> move.pc.task == RowAfter(move, row))
  {
  }

  lemma WorkKeepsStrict(c: Config, s: State, w: WorkerId)
    requires Registered(c) && TokenInv(c, s) && StrictRows(c, s) && FreshSnapshots(s) && Enabled(c, s, Work(w))
    ensures StrictRows(c, After(c, s, Work(w))) && FreshSnapshots(After(c, s, Work(w)))
  {
    HeldRow(c, s, w);
    var t := s.workers[w].Held();
    var move, row' := WorkDone(c, s, w);
    AdvanceStrict(c.handlers, w, s.workers[w], s.store.rows[t], s.claims[t]);
    WorkedKeepsStrict(c, s, After(c, s, Work(w)), w, move, row');
  }

  lemma WorkedKeepsStrict(c: Config, s: State, s': State, w: WorkerId, move: Move, row': Task)
    requires OneToken(s) && StrictRows(c, s) && FreshSnapshots(s) && Worked(c, s, s', w, move, row')
    requires StrictRow(row', ClaimsAfter(move, s.claims[s.workers[w].Held()]))
    requires move.pc.Fetched? ==> move.pc.task == row'
    ensures StrictRows(c, s') && FreshSnapshots(s')
  {
    var t := s.workers[w].Held();
    forall v | v in s'.workers && s'.workers[v].Fetched? ensures FreshSnapshot(s', s'.workers[v].task) {
      if v != w {
        assert s'.workers[v] == s.workers[v];
        assert At(s, AtWorker(v), s.workers[v].Held()) && At(s, AtWorker(w), t);
        assert FreshSnapshot(s, s.workers[v].task);
      }
    }
  }

  lemma RowlessKeepsStrict(c: Config, s: State, step: Step)
    requires StrictRows(c, s) && FreshSnapshots(s) && Enabled(c, s, step) && Simple(step) && !step.Work?
    ensures StrictRows(c, After(c, s, step)) && FreshSnapshots(After(c, s, step))
  {
    var s' := After(c, s, step);
    RowlessElsewhere(c, s, step);
    forall v | v in s'.workers && s'.workers[v].Fetched? ensures FreshSnapshot(s', s'.workers[v].task) {
      RowlessFetches(c, s, step, v);
      assert FreshSnapshot(s, s.workers[v].task);
    }
  }

  lemma RowlessFetches(c: Config, s: State, step: Step, v: WorkerId)
    requires Enabled(c, s, step) && Simple(step) && !step.Work?
    requires v in After(c, s, step).workers && After(c, s, step).workers[v].Fetched?
    ensures v in s.workers && s.workers[v] == After(c, s, step).workers[v]
  {
  }

  lemma ResolveStrictRow(c: Config, s: State, ready: seq<TaskId>, t: TaskId)
    requires TokenInv(c, s) && StrictRows(c, s) && Fresh(c, s) && Enabled(c, s, Resolve(ready)) && t in c.specs
    ensures t in After(c, s, Resolve(ready)).store.rows
    ensures StrictRow(After(c, s, Resolve(ready)).store.rows[t], s.claims[t])
    ensures s.store.rows[t].inDegree <= 0 ==> After(c, s, Resolve(ready)).store.rows[t] == s.store.rows[t]
  {
    assert RowFits(c.handlers, s.store.rows[t], s.claims[t]);
    assert StrictRow(s.store.rows[t], s.claims[t]);
    ResolveRow(c, s, ready, t);
    ChildIsParent(c, s, t);
  }

  lemma ResolveKeepsStrict(c: Config, s: State, ready: seq<TaskId>)
    requires TokenInv(c, s) && StrictRows(c, s) && FreshSnapshots(s) && Fresh(c, s) && Enabled(c, s, Resolve(ready))
    ensures StrictRows(c, After(c, s, Resolve(ready))) && FreshSnapshots(After(c, s, Resolve(ready)))
  {
    var s' := After(c, s, Resolve(ready));
    ResolveFrame(c, s, ready);
    forall t | t in c.specs && t in s'.store.rows && t in s'.claims ensures StrictRow(s'.store.rows[t], s'.claims[t]) {
      ResolveStrictRow(c, s, ready, t);
    }
    forall v | v in s'.workers && s'.workers[v].Fetched? ensures FreshSnapshot(s', s'.workers[v].task) {
      assert FreshSnapshot(s, s.workers[v].task);
      HeldRow(c, s, v);
      ResolveStrictRow(c, s, ready, s.workers[v].Held());
    }
  }

  lemma ResolveKeepsOrder(c: Config, s: State, ready: seq<TaskId>)
    requires TokenInv(c, s) && Ordered(c, s.log) && Fresh(c, s) && Enabled(c, s, Resolve(ready))
    ensures Ordered(c, After(c, s, Resolve(ready)).log)
  {
    EventIsNew(c, s);
    ResolveLogs(c, s, ready);
    var e := s.coordinator.event.taskId;
    assert FreshEvent(c, s, e);
    forall t | t in s.log ensures !Parent(c, e, t) {
      assert At(s, Processed, t);
    }
    OrderedGrows(c, s.log, e);
  }

  /** Every step but a stray queue entry keeps the order, as long as the event it handles is in order. */
  lemma StepKeepsOrder(c: Config, s: State, step: Step)
    requires Registered(c) && Inv(c, s) && Fresh(c, s) && Enabled(c, s, step) && !step.Intrude?
    ensures Inv(c, After(c, s, step))
  {
    StepKeeps(c, s, step);
    if step.Resolve? {
      ResolveKeepsStrict(c, s, step.ready);
      ResolveKeepsOrder(c, s, step.ready);
    } else {
      SimpleKeepsLog(c, s, step);
      if step.Work? {
        WorkKeepsStrict(c, s, step.worker);
      } else {
        RowlessKeepsStrict(c, s, step);
      }
    }
  }

  // ---- balanced requests ----

  /** A request the engine runs in order. */
  ghost predicate Sound(c: Config) {
    Stored(c) && Orderly(c)
  }

  /** What was released can run, was unlocked, and has all its parents that can run in the log. */
  lemma ReleasedInOrder(c: Config, s: State, done: set<TaskId>, t: TaskId)
    requires LeastClosed(c, done) && Balanced(c, done) && Tallied(c, s) && Ordered(c, s.log)
    requires t in c.specs && t in s.store.rows && s.store.rows[t].inDegree <= 0
    ensures t in done && Unlocked(c, LogSet(s.log), t)
    ensures forall u | u in done && Parent(c, u, t) :: u in s.log
  {
    EnoughParents(c, s.log, done, t);
    forall u | u in done && Parent(c, u, t) ensures u in s.log {
      assert u in ParentsIn(c, done, t);
      assert u in ParentsIn(c, LogSet(s.log), t);
    }
  }

  lemma BalancedIsFresh(c: Config, s: State, done: set<TaskId>)
    requires LeastClosed(c, done) && Balanced(c, done) && TokenInv(c, s) && Tallied(c, s) && Ordered(c, s.log)
    ensures Fresh(c, s)
  {
    if s.coordinator.Got? {
      EventIsNew(c, s);
      var u := s.coordinator.event.taskId;
      ReleasedInOrder(c, s, done, u);
      forall t | Parent(c, u, t) ensures t in s.store.rows && s.store.rows[t].inDegree > 0 {
        if s.store.rows[t].inDegree <= 0 {
          ReleasedInOrder(c, s, done, t);
        }
      }
    }
  }

  lemma AlwaysFresh(c: Config, s: State)
    requires Orderly(c) && TokenInv(c, s) && Tallied(c, s) && Ordered(c, s.log)
    ensures Fresh(c, s)
  {
    var done :| LeastClosed(c, done) && Balanced(c, done);
    BalancedIsFresh(c, s, done);
  }

  lemma InitInv(c: Config)
    requires ValidConfig(c)
    ensures Inv(c, Init(c))
  {
    InitBase(c);
    InitShape(c);
  }

  lemma RunStepInOrder(c: Config, mode: Mode, s: State, step: Step, s': State)
    requires Sound(c) && !mode.Chaotic? && Inv(c, s) && RunStep(c, mode, s, step, s')
    ensures Inv(c, s')
  {
    AlwaysFresh(c, s);
    StepKeepsOrder(c, s, step);
  }

  lemma {:induction false} RunInOrder(c: Config, mode: Mode, states: seq<State>, steps: seq<Step>, i: nat)
    requires Sound(c) && Run(c, mode, states, steps) && !mode.Chaotic? && i < |states|
    ensures Inv(c, states[i])
  {
    if i == 0 {
      InitInv(c);
    } else {
      RunInOrder(c, mode, states, steps, i - 1);
      RunStepInOrder(c, mode, states[i-1], steps[i-1], states[i]);
    }
  }

  lemma ReachableInOrder(c: Config, mode: Mode, s: State)
    requires Sound(c) && Reachable(c, mode, s) && !mode.Chaotic?
    ensures Inv(c, s)
  {
    var states, steps :| Run(c, mode, states, steps) && s == states[|steps|];
    RunInOrder(c, mode, states, steps, |steps|);
  }

  /** No SKIPPED task was ever claimed. */
  lemma SkippedNeverClaimed(c: Config, mode: Mode, s: State, t: TaskId)
    requires Sound(c) && Reachable(c, mode, s) && !mode.Chaotic? && t in c.specs
    ensures t in s.store.rows && t in s.claims && (s.store.rows[t].status == Skipped ==> s.claims[t] == 0)
  {
    ReachableInOrder(c, mode, s);
    assert RowFits(c.handlers, s.store.rows[t], s.claims[t]);
    assert StrictRow(s.store.rows[t], s.claims[t]);
  }

  // ---- two states of one run ----

  /** Counter and hint of a released task are frozen, and a finished row is final. */
  predicate Settles(row: Task, row': Task) {
    && (row.inDegree <= 0 ==> row'.inDegree == row.inDegree && row'.skipHint == row.skipHint)
    && (row.Terminal() ==> row' == row)
  }

  ghost predicate RowsSettle(s: State, s': State) {
    forall t | t in s.store.rows :: t in s'.store.rows && Settles(s.store.rows[t], s'.store.rows[t])
  }

  lemma ResolveSettles(c: Config, s: State, ready: seq<TaskId>, t: TaskId)
    requires Inv(c, s) && Fresh(c, s) && Enabled(c, s, Resolve(ready)) && t in c.specs
    ensures t in After(c, s, Resolve(ready)).store.rows
    ensures Settles(s.store.rows[t], After(c, s, Resolve(ready)).store.rows[t])
  {
    assert RowFits(c.handlers, s.store.rows[t], s.claims[t]);
    ResolveStrictRow(c, s, ready, t);
  }

  lemma StepSettles(c: Config, s: State, step: Step)
    requires Registered(c) && Inv(c, s) && Fresh(c, s) && Enabled(c, s, step) && !step.Intrude?
    ensures RowsSettle(s, After(c, s, step))
  {
    if step.Resolve? {
      forall t | t in s.store.rows
        ensures t in After(c, s, step).store.rows && Settles(s.store.rows[t], After(c, s, step).store.rows[t])
      {
        ResolveSettles(c, s, step.ready, t);
      }
    } else {
      SimpleKeepsCounters(c, s, step);
    }
  }

  lemma RunStepSettles(c: Config, mode: Mode, s: State, step: Step, s': State)
    requires Sound(c) && !mode.Chaotic? && Inv(c, s) && RunStep(c, mode, s, step, s')
    ensures RowsSettle(s, s')
  {
    AlwaysFresh(c, s);
    StepSettles(c, s, step);
  }

  lemma SettlesTransitive(s: State, s': State, s'': State)
    requires RowsSettle(s, s') && RowsSettle(s', s'')
    ensures RowsSettle(s, s'')
  {
    forall t | t in s.store.rows ensures t in s''.store.rows && Settles(s.store.rows[t], s''.store.rows[t]) {
      assert Settles(s.store.rows[t], s'.store.rows[t]);
      assert Settles(s'.store.rows[t], s''.store.rows[t]);
    }
  }

  /** Along a run of a balanced request finished rows are final, and a released task's counter and hint are frozen. */
  lemma {:induction false} RunSettles(c: Config, mode: Mode, states: seq<State>, steps: seq<Step>, i: nat, j: nat)
    requires Sound(c) && Run(c, mode, states, steps) && !mode.Chaotic? && i <= j < |states|
    ensures RowsSettle(states[i], states[j])
    decreases j
  {
    if i < j {
      RunSettles(c, mode, states, steps, i, j - 1);
      RunInOrder(c, mode, states, steps, j - 1);
      RunStepSettles(c, mode, states[j-1], steps[j-1], states[j]);
      SettlesTransitive(states[i], states[j-1], states[j]);
    }
  }
}
