/** What holds in every reachable state and between any two states of a run, whatever the request says. */
module Reachability {
  import opened Domain
  import opened TaskTable
  import opened WorkerSteps
  import opened Protocol
  import opened Tokens
  import opened Counting
  import opened ResolveStep
  import opened Invariant
  import opened Verdict
  import opened Delivery

  /** Kept by every run without intruding queue entries, whatever is lost. */
  ghost predicate Safe(c: Config, s: State) {
    Base(c, s) && VerdictsFit(s)
  }

  /** Kept by every run with reliable delivery. */
  ghost predicate Good(c: Config, s: State) {
    Safe(c, s) && NoneLost(s) && CompletionSeen(c, s) && FailureSeen(s)
  }

  lemma InitNoneLost(c: Config, t: TaskId)
    requires ValidConfig(c) && t in c.specs && c.specs[t].dependencies == []
    ensures Somewhere(Init(c), t)
  {
    var e := c.specs[t].executionId;
    RootsMeaning(c.specs, c.order[e]);
    assert At(Init(c), WithSubmitter(e), t);
  }

  lemma InitDone(c: Config, e: ExecutionId)
    requires ValidConfig(c)
    ensures !AllDone(c, Init(c), e)
  {
    if e in c.order && c.order[e] != [] {
      var t := c.order[e][0];
      assert t in c.order[e];
      assert t in c.specs && c.specs[t].executionId == e;
      assert Init(c).log == [];
    }
  }

  lemma InitNobodyLost(c: Config)
    requires ValidConfig(c)
    ensures NoneLost(Init(c))
  {
    InitShape(c);
    forall t | t in Init(c).store.rows && Init(c).store.rows[t].inDegree <= 0 ensures Somewhere(Init(c), t) {
      InitNoneLost(c, t);
    }
  }

  lemma InitUndecided(c: Config)
    requires ValidConfig(c)
    ensures VerdictsFit(Init(c)) && FailureSeen(Init(c)) && CompletionSeen(c, Init(c))
  {
    forall e ensures !AllDone(c, Init(c), e) {
      InitDone(c, e);
    }
  }

  lemma InitGood(c: Config)
    requires ValidConfig(c)
    ensures Good(c, Init(c))
  {
    InitBase(c);
    InitNobodyLost(c);
    InitUndecided(c);
  }

  lemma RunStepSafe(c: Config, mode: Mode, s: State, step: Step, s': State)
    requires Stored(c) && !mode.Chaotic? && Safe(c, s) && RunStep(c, mode, s, step, s')
    ensures Safe(c, s')
  {
    StepKeeps(c, s, step);
    StepKeepsVerdicts(c, s, step);
  }

  lemma RunStepGood(c: Config, s: State, step: Step, s': State)
    requires Stored(c) && Good(c, s) && RunStep(c, Reliable, s, step, s')
    ensures Good(c, s')
  {
    RunStepSafe(c, Reliable, s, step, s');
    StepKeepsNoneLost(c, s, step);
    StepKeepsCompletionSeen(c, s, step);
    StepKeepsFailureSeen(c, s, step);
  }

  lemma {:induction false} RunSafe(c: Config, mode: Mode, states: seq<State>, steps: seq<Step>, i: nat)
    requires Stored(c) && Run(c, mode, states, steps) && !mode.Chaotic? && i < |states|
    ensures Safe(c, states[i])
  {
    if i == 0 {
      InitGood(c);
    } else {
      RunSafe(c, mode, states, steps, i - 1);
      RunStepSafe(c, mode, states[i-1], steps[i-1], states[i]);
    }
  }

  lemma {:induction false} RunGood(c: Config, states: seq<State>, steps: seq<Step>, i: nat)
    requires Stored(c) && Run(c, Reliable, states, steps) && i < |states|
    ensures Good(c, states[i])
  {
    if i == 0 {
      InitGood(c);
    } else {
      RunGood(c, states, steps, i - 1);
      RunStepGood(c, states[i-1], steps[i-1], states[i]);
    }
  }

  lemma ReachableSafe(c: Config, mode: Mode, s: State)
    requires Stored(c) && Reachable(c, mode, s) && !mode.Chaotic?
    ensures Safe(c, s)
  {
    var states, steps :| Run(c, mode, states, steps) && s == states[|steps|];
    RunSafe(c, mode, states, steps, |steps|);
  }

  lemma ReachableGood(c: Config, s: State)
    requires Stored(c) && Reachable(c, Reliable, s)
    ensures Good(c, s)
  {
    var states, steps :| Run(c, Reliable, states, steps) && s == states[|steps|];
    RunGood(c, states, steps, |steps|);
  }

  // ---- tokens ----

  /** In every reachable state, losses included, no task is in two places, nor twice in one. */
  lemma TokenConservation(c: Config, mode: Mode, s: State, p: Place, i: nat, q: Place, j: nat)
    requires Stored(c) && Reachable(c, mode, s) && !mode.Chaotic?
    requires i < |Holds(s, p)| && j < |Holds(s, q)| && Holds(s, p)[i] == Holds(s, q)[j]
    ensures p == q && i == j
  {
    ReachableSafe(c, mode, s);
    assert At(s, p, Holds(s, p)[i]) && At(s, q, Holds(s, q)[j]);
  }

  /** With reliable delivery a task is either still waiting for a dependency or at some place, never both. */
  lemma NoTaskIsLost(c: Config, s: State, t: TaskId)
    requires Stored(c) && Reachable(c, Reliable, s) && t in c.specs
    ensures t in s.store.rows
    ensures s.store.rows[t].inDegree > 0 <==> forall p :: t !in Holds(s, p)
  {
    ReachableGood(c, s);
    assert t in s.store.rows && RowFits(c.handlers, s.store.rows[t], s.claims[t]);
    if s.store.rows[t].inDegree > 0 {
      forall p ensures t !in Holds(s, p) {
        assert !At(s, p, t);
      }
    } else {
      var p :| At(s, p, t);
    }
  }

  // ---- counting ----

  /** The in-degree column is the length of the dependency list less the number of parents already resolved. */
  lemma InDegreeTally(c: Config, mode: Mode, s: State, t: TaskId)
    requires Stored(c) && Reachable(c, mode, s) && !mode.Chaotic? && t in c.specs
    ensures t in s.store.rows
    ensures s.store.rows[t].inDegree == |c.specs[t].dependencies| - |ParentsIn(c, LogSet(s.log), t)|
  {
    ReachableSafe(c, mode, s);
  }

  /** The skip hint says exactly that a parent ended without completing. */
  lemma SkipHintMeaning(c: Config, mode: Mode, s: State, t: TaskId)
    requires Stored(c) && Reachable(c, mode, s) && !mode.Chaotic? && t in c.specs
    ensures t in s.store.rows
    ensures s.store.rows[t].skipHint <==> exists u :: Taints(c, s, u, t)
  {
    ReachableSafe(c, mode, s);
    assert HintFits(c, s, t);
  }

  predicate Accounted(row: Task, claims: nat) {
    && row.version == 1 + claims + row.retryCount
    && row.version == (if row.status == Running || row.status == Completed || row.status == Failed
                       then 2 + 2 * row.retryCount else 1 + 2 * row.retryCount)
    && claims <= row.spec.maxRetries + 1
  }

  lemma FittingIsAccounted(h: Handlers, row: Task, claims: nat)
    requires RowFits(h, row, claims)
    ensures Accounted(row, claims)
  {
  }

  /** Versions and claims are tied to the retry counter, so the handler runs at most maxRetries + 1 times. */
  lemma VersionAccounting(c: Config, mode: Mode, s: State, t: TaskId)
    requires Stored(c) && Reachable(c, mode, s) && !mode.Chaotic? && t in c.specs
    ensures t in s.store.rows && t in s.claims
    ensures s.store.rows[t].spec == c.specs[t] && Accounted(s.store.rows[t], s.claims[t])
  {
    ReachableSafe(c, mode, s);
    FittingIsAccounted(c.handlers, s.store.rows[t], s.claims[t]);
  }

  // ---- two states of one run ----

  lemma EvolvesTransitive(s: State, s': State, s'': State)
    requires RowsEvolve(s, s') && RowsEvolve(s', s'')
    ensures RowsEvolve(s, s'')
  {
    forall t | t in s.store.rows ensures Evolves(s.store.rows[t], s''.store.rows[t]) {
      assert Evolves(s.store.rows[t], s'.store.rows[t]);
      assert Evolves(s'.store.rows[t], s''.store.rows[t]);
    }
  }

  lemma RunStepEvolves(c: Config, mode: Mode, s: State, step: Step, s': State)
    requires Stored(c) && !mode.Chaotic? && Safe(c, s) && RunStep(c, mode, s, step, s')
    ensures RowsEvolve(s, s')
    ensures VerdictsStay(s, s')
  {
    StepEvolves(c, s, step);
    StepKeepsVerdicts(c, s, step);
  }

  ghost predicate VerdictsStay(s: State, s': State) {
    forall e | e in s.store.verdicts && s.store.verdicts[e] != WorkflowRunning ::
      e in s'.store.verdicts && s'.store.verdicts[e] == s.store.verdicts[e]
  }

  /** Along a run: given verdicts are final, finished rows keep all but counter and hint, released tasks stay released,
      and in-degrees only fall. */
  lemma {:induction false} RunEvolves(c: Config, mode: Mode, states: seq<State>, steps: seq<Step>, i: nat, j: nat)
    requires Stored(c) && Run(c, mode, states, steps) && !mode.Chaotic? && i <= j < |states|
    ensures RowsEvolve(states[i], states[j])
    ensures VerdictsStay(states[i], states[j])
    decreases j
  {
    if i < j {
      RunEvolves(c, mode, states, steps, i, j - 1);
      RunSafe(c, mode, states, steps, j - 1);
      RunStepEvolves(c, mode, states[j-1], steps[j-1], states[j]);
      EvolvesTransitive(states[i], states[j-1], states[j]);
    }
  }

  /** COMPLETED is given only when every task completed, and FAILED only when some task failed; losses included. */
  lemma VerdictIsSound(c: Config, mode: Mode, s: State, e: ExecutionId)
    requires Stored(c) && Reachable(c, mode, s) && !mode.Chaotic? && e in c.order
    ensures e in s.store.verdicts
    ensures s.store.verdicts[e] == WorkflowCompleted ==> AllCompleted(s.store.rows, e)
    ensures s.store.verdicts[e] == WorkflowFailed ==> SomeFailed(s.store.rows, e)
  {
    ReachableSafe(c, mode, s);
    assert VerdictFits(s, e);
  }
}
