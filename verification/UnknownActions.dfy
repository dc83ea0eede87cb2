/** What an unknown action does to its workflow, in every mode: no assumption on requests, queues, losses or the
    registry. */
module UnknownActions {
  import opened Domain
  import opened TaskTable
  import opened WorkerSteps
  import opened Protocol
  import opened RetryBound

  // ---- FAILED is final ----

  /** No verdict is forgotten, and FAILED is never left. */
  ghost predicate FailuresStay(verdicts: Verdicts, verdicts': Verdicts) {
    && verdicts'.Keys == verdicts.Keys
    && forall e | e in verdicts && verdicts[e] == WorkflowFailed :: verdicts'[e] == WorkflowFailed
  }

  lemma EffectKeepsFailures(st: Store, effect: Effect)
    ensures FailuresStay(st.verdicts, ApplyEffect(st, effect).verdicts)
  {
  }

  lemma WorkKeepsFailures(h: Handlers, w: WorkerId, st: Store, pc: Pc)
    requires !pc.Idle?
    ensures FailuresStay(st.verdicts, StoreAfter(h, w, st, pc).verdicts)
  {
    var move := MoveOf(h, w, st, pc);
    EffectKeepsFailures(st.(rows := WithRow(st.rows, pc.Held(), move.row)), move.effect);
  }

  lemma StepKeepsFailures(c: Config, s: State, step: Step)
    requires Enabled(c, s, step)
    ensures FailuresStay(s.store.verdicts, After(c, s, step).store.verdicts)
  {
    if step.Work? {
      WorkKeepsFailures(c.handlers, step.worker, s.store, s.workers[step.worker]);
    }
  }

  lemma RunStepKeepsFailures(c: Config, mode: Mode, s: State, step: Step, s': State)
    requires RunStep(c, mode, s, step, s')
    ensures FailuresStay(s.store.verdicts, s'.store.verdicts)
  {
    StepKeepsFailures(c, s, step);
  }

  /** Along any run, stray entries and unknown actions included, a workflow that FAILED stays FAILED. */
  lemma {:induction false} FailedIsFinal(c: Config, mode: Mode, states: seq<State>, steps: seq<Step>, i: nat, j: nat,
                                         e: ExecutionId)
    requires Run(c, mode, states, steps) && i <= j < |states|
    requires e in states[i].store.verdicts && states[i].store.verdicts[e] == WorkflowFailed
    ensures e in states[j].store.verdicts && states[j].store.verdicts[e] == WorkflowFailed
    decreases j
  {
    if i < j {
      FailedIsFinal(c, mode, states, steps, i, j - 1, e);
      RunStepKeepsFailures(c, mode, states[j-1], steps[j-1], states[j]);
    }
  }

  // ---- what an unknown action leaves behind ----

  ghost predicate HasFailed(verdicts: Verdicts, e: ExecutionId) {
    e in verdicts && verdicts[e] == WorkflowFailed
  }

  /** An unknown action never succeeds, and once it is treated as an error its workflow is FAILED. */
  ghost predicate PcCharged(h: Handlers, verdicts: Verdicts, pc: Pc) {
    !pc.Idle? && !pc.Popped? && pc.task.spec.action !in h.registry ==>
      && !pc.Succeeded? && !pc.CompletedMarked?
      && (pc.Errored? || pc.RetryCounted? || pc.FailedMarked? || pc.VerdictFailed? ==>
            HasFailed(verdicts, pc.task.spec.executionId))
  }

  ghost predicate RowCharged(h: Handlers, verdicts: Verdicts, row: Task) {
    row.spec.action !in h.registry ==>
      && row.status != Completed
      && (row.retryCount > 0 ==> HasFailed(verdicts, row.spec.executionId))
  }

  ghost predicate Charged(c: Config, s: State) {
    && s.store.verdicts.Keys == c.order.Keys
    && (forall w | w in s.workers :: PcCharged(c.handlers, s.store.verdicts, s.workers[w]))
    && forall t | t in s.store.rows :: RowCharged(c.handlers, s.store.verdicts, s.store.rows[t])
  }

  lemma AdvanceCharges(h: Handlers, w: WorkerId, st: Store, pc: Pc)
    requires !pc.Idle? && PcCharged(h, st.verdicts, pc)
    requires pc.Held() in st.rows && RowCharged(h, st.verdicts, st.rows[pc.Held()])
    requires pc.Popped? || pc.task.spec == st.rows[pc.Held()].spec
    requires st.rows[pc.Held()].spec.executionId in st.verdicts
    ensures PcCharged(h, StoreAfter(h, w, st, pc).verdicts, MoveOf(h, w, st, pc).pc)
    ensures pc.Held() in StoreAfter(h, w, st, pc).rows
    ensures RowCharged(h, StoreAfter(h, w, st, pc).verdicts, StoreAfter(h, w, st, pc).rows[pc.Held()])
  {
  }

  lemma WorkKeepsCharged(c: Config, s: State, w: WorkerId)
    requires ValidConfig(c) && Bounded(c, s) && Charged(c, s) && Enabled(c, s, Work(w))
    ensures Charged(c, After(c, s, Work(w)))
  {
    var s' := After(c, s, Work(w));
    var pc := s.workers[w];
    var t := pc.Held();
    WorkFrame(c, s, w);
    WorkKeepsFailures(c.handlers, w, s.store, pc);
    assert PcBounded(s.store.rows, pc);
    if t in s.store.rows {
      assert RowOf(c, s, t);
      AdvanceCharges(c.handlers, w, s.store, pc);
    }
  }

  lemma RestKeepsCharged(c: Config, s: State, step: Step)
    requires Charged(c, s) && Enabled(c, s, step) && !step.Work?
    ensures Charged(c, After(c, s, step))
  {
    var s' := After(c, s, step);
    StepKeepsFailures(c, s, step);
    UnguardedKeys(c, s, step);
    forall t | t in s'.store.rows ensures RowCharged(c.handlers, s'.store.verdicts, s'.store.rows[t]) {
      UnguardedStep(c, s, step, t);
      DecrementCompletesNobody(c, s, step, t);
    }
    forall w | w in s'.workers ensures PcCharged(c.handlers, s'.store.verdicts, s'.workers[w]) {
      UnguardedWorkers(c, s, step, w);
    }
  }

  lemma DecrementCompletesNobody(c: Config, s: State, step: Step, t: TaskId)
    requires Enabled(c, s, step) && !step.Work? && t in s.store.rows
    ensures t in After(c, s, step).store.rows
    ensures After(c, s, step).store.rows[t].status == Completed ==> s.store.rows[t].status == Completed
  {
    UnguardedRows(c, s, step);
  }

  lemma RunStepCharged(c: Config, mode: Mode, s: State, step: Step, s': State)
    requires ValidConfig(c) && Bounded(c, s) && Charged(c, s) && RunStep(c, mode, s, step, s')
    ensures Charged(c, s')
  {
    if step.Work? {
      WorkKeepsCharged(c, s, step.worker);
    } else {
      RestKeepsCharged(c, s, step);
    }
  }

  lemma InitCharged(c: Config)
    requires ValidConfig(c)
    ensures Charged(c, Init(c))
  {
    var s := Init(c);
    forall w | w in s.workers ensures PcCharged(c.handlers, s.store.verdicts, s.workers[w]) {
      assert s.workers[w].Idle?;
    }
    forall t | t in s.store.rows ensures RowCharged(c.handlers, s.store.verdicts, s.store.rows[t]) {
      assert s.store.rows[t] == InitialRow(c.specs[t]);
    }
  }

  lemma {:induction false} RunCharged(c: Config, mode: Mode, states: seq<State>, steps: seq<Step>, i: nat)
    requires Run(c, mode, states, steps) && i < |states|
    ensures Charged(c, states[i])
  {
    if i == 0 {
      InitCharged(c);
    } else {
      RunCharged(c, mode, states, steps, i - 1);
      RunBounded(c, mode, states, steps, i - 1);
      RunStepCharged(c, mode, states[i-1], steps[i-1], states[i]);
    }
  }

  lemma ReachableCharged(c: Config, mode: Mode, s: State)
    requires Reachable(c, mode, s)
    ensures Charged(c, s)
  {
    var states, steps :| Run(c, mode, states, steps) && s == states[|steps|];
    RunCharged(c, mode, states, steps, |steps|);
  }

  /** A worker that treats an unknown action as an error has made its workflow FAILED. */
  lemma UnknownFailsWorkflow(c: Config, mode: Mode, s: State, w: WorkerId)
    requires Reachable(c, mode, s) && w in s.workers
    requires var pc := s.workers[w]; pc.Errored? || pc.RetryCounted? || pc.FailedMarked? || pc.VerdictFailed?
    requires s.workers[w].task.spec.action !in c.handlers.registry
    ensures var e := s.workers[w].task.spec.executionId;
            e in s.store.verdicts && s.store.verdicts[e] == WorkflowFailed
  {
    ReachableCharged(c, mode, s);
    assert PcCharged(c.handlers, s.store.verdicts, s.workers[w]);
  }

  /** A task with an unknown action never completes, and when it was retried its workflow is FAILED. */
  lemma UnknownNeverCompletes(c: Config, mode: Mode, s: State, t: TaskId)
    requires Reachable(c, mode, s) && t in c.specs && c.specs[t].action !in c.handlers.registry
    ensures t in s.store.rows && s.store.rows[t].status != Completed
    ensures s.store.rows[t].retryCount > 0 ==>
              var e := c.specs[t].executionId; e in s.store.verdicts && s.store.verdicts[e] == WorkflowFailed
  {
    ReachableCharged(c, mode, s);
    RetriesAreBounded(c, mode, s, t);
    var states, steps :| Run(c, mode, states, steps) && s == states[|steps|];
    RunBounded(c, mode, states, steps, |steps|);
    assert RowOf(c, s, t) && RowCharged(c.handlers, s.store.verdicts, s.store.rows[t]);
  }

  // ---- with nothing lost ----

  predicate OnItsWay(pc: Pc, t: TaskId) {
    (pc.Owned? || pc.UnknownMarked? || pc.UnknownAnnounced?) && pc.task.spec.id == t
  }

  /** Whoever claimed a task with an unknown action is about to charge its workflow, or has. */
  ghost predicate Charging(c: Config, s: State, t: TaskId)
    requires t in c.specs
  {
    c.specs[t].action !in c.handlers.registry && t in s.claims && s.claims[t] > 0 ==>
      || HasFailed(s.store.verdicts, c.specs[t].executionId)
      || exists w :: w in s.workers && OnItsWay(s.workers[w], t)
  }

  ghost predicate AllCharging(c: Config, s: State) {
    forall t | t in c.specs :: Charging(c, s, t)
  }

  lemma AdvanceKeepsCharging(h: Handlers, w: WorkerId, st: Store, pc: Pc, t: TaskId, e: ExecutionId)
    requires !pc.Idle? && e in st.verdicts
    requires OnItsWay(pc, t) ==> pc.task.spec.action !in h.registry && pc.task.spec.executionId == e
    ensures OnItsWay(pc, t) ==>
              OnItsWay(MoveOf(h, w, st, pc).pc, t) || HasFailed(StoreAfter(h, w, st, pc).verdicts, e)
    ensures MoveOf(h, w, st, pc).pc.Owned? ==> OnItsWay(MoveOf(h, w, st, pc).pc, pc.Held())
  {
  }

  lemma ClaimedByOwner(c: Config, s: State, w: WorkerId, t: TaskId)
    requires Enabled(c, s, Work(w)) && t in s.claims
    ensures var s' := After(c, s, Work(w));
            && w in s'.workers && s'.workers[w] == MoveOf(c.handlers, w, s.store, s.workers[w]).pc
            && t in s'.claims && (s'.claims[t] > s.claims[t] ==> s'.workers[w].Owned? && s.workers[w].Held() == t)
            && (s'.claims[t] <= s.claims[t] ==> s'.claims[t] == s.claims[t])
            && s'.store == StoreAfter(c.handlers, w, s.store, s.workers[w])
  {
  }

  lemma WorkMoves(c: Config, s: State, w: WorkerId, t: TaskId)
    requires ValidConfig(c) && Bounded(c, s) && Charged(c, s) && Enabled(c, s, Work(w))
    requires t in c.specs && c.specs[t].action !in c.handlers.registry
    ensures var s' := After(c, s, Work(w));
            && FailuresStay(s.store.verdicts, s'.store.verdicts) && w in s'.workers
            && (OnItsWay(s.workers[w], t) ==>
                  OnItsWay(s'.workers[w], t) || HasFailed(s'.store.verdicts, c.specs[t].executionId))
            && t in s.claims && t in s'.claims && (s'.claims[t] > s.claims[t] ==> OnItsWay(s'.workers[w], t))
  {
    var pc := s.workers[w];
    assert PcBounded(s.store.rows, pc) && RowOf(c, s, t);
    ClaimedByOwner(c, s, w, t);
    WorkKeepsFailures(c.handlers, w, s.store, pc);
    AdvanceKeepsCharging(c.handlers, w, s.store, pc, t, c.specs[t].executionId);
  }

  lemma MoveKeepsCharging(c: Config, s: State, s': State, w: WorkerId, t: TaskId)
    requires t in c.specs && c.specs[t].action !in c.handlers.registry && Charging(c, s, t)
    requires FailuresStay(s.store.verdicts, s'.store.verdicts) && w in s.workers
    requires s'.workers.Keys == s.workers.Keys
    requires forall v | v in s.workers && v != w :: s'.workers[v] == s.workers[v]
    requires OnItsWay(s.workers[w], t) ==>
               OnItsWay(s'.workers[w], t) || HasFailed(s'.store.verdicts, c.specs[t].executionId)
    requires t in s.claims && t in s'.claims && (s'.claims[t] > s.claims[t] ==> OnItsWay(s'.workers[w], t))
    ensures Charging(c, s', t)
  {
    if v :| v in s.workers && OnItsWay(s.workers[v], t) {
      assert v in s'.workers && (v != w ==> OnItsWay(s'.workers[v], t));
    }
  }

  lemma WorkKeepsCharging(c: Config, s: State, w: WorkerId, t: TaskId)
    requires ValidConfig(c) && Bounded(c, s) && Charged(c, s) && Enabled(c, s, Work(w))
    requires t in c.specs && Charging(c, s, t)
    ensures Charging(c, After(c, s, Work(w)), t)
  {
    if c.specs[t].action !in c.handlers.registry {
      WorkFrame(c, s, w);
      WorkMoves(c, s, w, t);
      MoveKeepsCharging(c, s, After(c, s, Work(w)), w, t);
    }
  }

  lemma RestKeepsCharging(c: Config, s: State, step: Step, t: TaskId)
    requires t in c.specs && Charging(c, s, t) && Enabled(c, s, step) && Allowed(Reliable, step) && !step.Work?
    ensures Charging(c, After(c, s, step), t)
  {
    var s' := After(c, s, step);
    StepKeepsFailures(c, s, step);
    UnguardedKeys(c, s, step);
    if v :| v in s.workers && OnItsWay(s.workers[v], t) {
      assert v in s'.workers && OnItsWay(s'.workers[v], t);
    }
  }

  lemma RunStepCharging(c: Config, s: State, step: Step, s': State)
    requires ValidConfig(c) && Bounded(c, s) && Charged(c, s) && AllCharging(c, s) && RunStep(c, Reliable, s, step, s')
    ensures AllCharging(c, s')
  {
    forall t | t in c.specs ensures Charging(c, s', t) {
      assert Charging(c, s, t);
      if step.Work? {
        WorkKeepsCharging(c, s, step.worker, t);
      } else {
        RestKeepsCharging(c, s, step, t);
      }
    }
  }

  lemma {:induction false} RunCharging(c: Config, states: seq<State>, steps: seq<Step>, i: nat)
    requires Run(c, Reliable, states, steps) && i < |states|
    ensures AllCharging(c, states[i])
  {
    if i > 0 {
      RunCharging(c, states, steps, i - 1);
      RunCharged(c, Reliable, states, steps, i - 1);
      RunBounded(c, Reliable, states, steps, i - 1);
      RunStepCharging(c, states[i-1], steps[i-1], states[i]);
    }
  }

  /** With nothing lost, when nothing can move, the workflow of every claimed task with an unknown action is FAILED,
      whatever the request says. */
  lemma UnknownFailsInTheEnd(c: Config, s: State, t: TaskId)
    requires Reachable(c, Reliable, s) && Quiescent(c, s)
    requires t in c.specs && c.specs[t].action !in c.handlers.registry && t in s.claims && s.claims[t] > 0
    ensures var e := c.specs[t].executionId; e in s.store.verdicts && s.store.verdicts[e] == WorkflowFailed
  {
    var states, steps :| Run(c, Reliable, states, steps) && s == states[|steps|];
    RunCharging(c, states, steps, |steps|);
    assert Charging(c, s, t);
    if w :| w in s.workers && OnItsWay(s.workers[w], t) {
      assert Enabled(c, s, Work(w)) && Allowed(Reliable, Work(w));
    }
  }
}
