/** Runs always end, and what a run spends is never given back. */
module Progress {
  import opened Domain
  import opened Protocol
  import opened Tokens
  import opened ResolveStep
  import opened Invariant
  import opened Delivery
  import opened Termination

  lemma Extends(c: Config, mode: Mode, states: seq<State>, steps: seq<Step>, step: Step)
    requires Run(c, mode, states, steps) && Allowed(mode, step) && Enabled(c, states[|steps|], step)
    ensures Run(c, mode, states + [After(c, states[|steps|], step)], steps + [step])
  {
    var states' := states + [After(c, states[|steps|], step)];
    var steps' := steps + [step];
    forall i | 0 <= i < |steps'| ensures RunStep(c, mode, states'[i], steps'[i], states'[i+1]) {
      if i < |steps| {
        assert RunStep(c, mode, states[i], steps[i], states[i+1]);
        assert steps'[i] == steps[i] && states'[i] == states[i] && states'[i+1] == states[i+1];
      }
    }
  }

  lemma StartsReachable(c: Config)
    requires ValidConfig(c)
    ensures Reachable(c, Reliable, Init(c))
  {
    assert Run(c, Reliable, [Init(c)], []) && [Init(c)][0] == Init(c);
  }

  lemma StepOn(c: Config, mode: Mode, s: State, step: Step)
    requires Reachable(c, mode, s) && Allowed(mode, step) && Enabled(c, s, step)
    ensures Reachable(c, mode, After(c, s, step))
  {
    var states, steps :| Run(c, mode, states, steps) && s == states[|steps|];
    Extends(c, mode, states, steps, step);
    var states' := states + [After(c, s, step)];
    assert Run(c, mode, states', steps + [step]) && states'[|steps| + 1] == After(c, s, step);
  }

  lemma MoreMayHappen(c: Config, mode: Mode, s: State)
    requires Reachable(c, Reliable, s)
    ensures Reachable(c, mode, s)
  {
    var states, steps :| Run(c, Reliable, states, steps) && s == states[|steps|];
    forall i | 0 <= i < |steps| ensures RunStep(c, mode, states[i], steps[i], states[i+1]) {
      assert RunStep(c, Reliable, states[i], steps[i], states[i+1]);
    }
    assert Run(c, mode, states, steps);
  }

  lemma ExtensionSpends(c: Config, mode: Mode, states: seq<State>, steps: seq<Step>, step: Step)
    requires Stored(c) && Run(c, mode, states, steps) && !mode.Chaotic?
    requires Allowed(mode, step) && Enabled(c, states[|steps|], step)
    ensures Budget(After(c, states[|steps|], step)) < Budget(states[|steps|])
  {
    RunKeeps(c, mode, states, steps, |steps|);
    RunStepDrops(c, mode, states[|steps|], step, After(c, states[|steps|], step));
  }

  /** Every run, whatever was lost in it, can be continued without further loss until nothing can move. */
  lemma {:induction false} ReachesQuiescence(c: Config, mode: Mode, states: seq<State>, steps: seq<Step>)
      returns (states': seq<State>, steps': seq<Step>)
    requires Stored(c) && Run(c, mode, states, steps) && !mode.Chaotic?
    ensures Run(c, mode, states', steps') && states <= states' && steps <= steps'
    ensures forall i | |steps| <= i < |steps'| :: Allowed(Reliable, steps'[i])
    ensures Quiescent(c, states'[|steps'|])
    decreases Budget(states[|steps|])
  {
    if Quiescent(c, states[|steps|]) {
      states', steps' := states, steps;
    } else {
      var step :| Allowed(Reliable, step) && Enabled(c, states[|steps|], step);
      Extends(c, mode, states, steps, step);
      ExtensionSpends(c, mode, states, steps, step);
      var longer := states + [After(c, states[|steps|], step)];
      assert longer[|steps + [step]|] == After(c, states[|steps|], step);
      states', steps' := ReachesQuiescence(c, mode, longer, steps + [step]);
      assert steps'[|steps|] == (steps + [step])[|steps|];
    }
  }

  // ---- the main queue ----

  /** The task can cause at most as many steps after as before. */
  ghost predicate Lighter(s: State, s': State, t: TaskId) {
    t in s.store.rows && t in s'.store.rows && Weight(s', t) <= Weight(s, t)
  }

  lemma StepWeights(c: Config, s: State, step: Step, t: TaskId)
    requires Registered(c) && Base(c, s) && Enabled(c, s, step) && !step.Intrude? && t in c.specs
    ensures Lighter(s, After(c, s, step), t)
  {
    if step.Resolve? {
      ResolveWeights(c, s, step.ready, t);
    } else {
      SimpleWeights(c, s, step, t);
    }
  }

  lemma StoredIn(c: Config, mode: Mode, states: seq<State>, steps: seq<Step>, i: nat, t: TaskId)
    requires Stored(c) && Run(c, mode, states, steps) && !mode.Chaotic? && i < |states| && t in c.specs
    ensures t in states[i].store.rows
  {
    RunKeeps(c, mode, states, steps, i);
  }

  lemma AdjacentWeights(c: Config, mode: Mode, states: seq<State>, steps: seq<Step>, i: nat, t: TaskId)
    requires Stored(c) && Run(c, mode, states, steps) && !mode.Chaotic? && i < |steps| && t in c.specs
    ensures Lighter(states[i], states[i+1], t)
  {
    RunKeeps(c, mode, states, steps, i);
    assert RunStep(c, mode, states[i], steps[i], states[i+1]);
    StepWeights(c, states[i], steps[i], t);
  }

  lemma {:induction false} RunWeights(c: Config, mode: Mode, states: seq<State>, steps: seq<Step>, i: nat, j: nat,
                    t: TaskId)
    requires Stored(c) && Run(c, mode, states, steps) && !mode.Chaotic? && i <= j < |states| && t in c.specs
    ensures Lighter(states[i], states[j], t)
    decreases j
  {
    if i == j {
      StoredIn(c, mode, states, steps, i, t);
    } else {
      RunWeights(c, mode, states, steps, i, j - 1, t);
      AdjacentWeights(c, mode, states, steps, j - 1, t);
    }
  }

  /** A queued task has spent nothing but its push, and no other place is worth the same. */
  lemma MainQueueWeight(c: Config, s: State, t: TaskId)
    requires OneToken(s) && Placed(c, s) && RowsFit(c, s) && t in c.specs
    ensures Weight(s, t) == 11 + 6 * c.specs[t].maxRetries <==> t in s.mainQueue
  {
    var row := s.store.rows[t];
    assert RowFits(c.handlers, row, s.claims[t]);
    assert t in s.mainQueue <==> At(s, InMainQueue, t);
    if At(s, InMainQueue, t) {
      WeightAt(s, InMainQueue, t);
    } else if row.inDegree <= 0 && Somewhere(s, t) {
      var p := Spot(s, t);
      assert At(s, p, t) && PlaceFits(c, s, p, t);
    }
  }

  /** A task enters the main queue at most once: once it has left, it never comes back. */
  lemma EntersMainQueueOnce(c: Config, mode: Mode, states: seq<State>, steps: seq<Step>, i: nat, j: nat, k: nat,
                    t: TaskId)
    requires Stored(c) && Run(c, mode, states, steps) && !mode.Chaotic? && i <= j <= k < |states| && t in c.specs
    requires t in states[i].mainQueue && t !in states[j].mainQueue
    ensures t !in states[k].mainQueue
  {
    RunKeeps(c, mode, states, steps, i);
    RunKeeps(c, mode, states, steps, j);
    RunKeeps(c, mode, states, steps, k);
    MainQueueWeight(c, states[i], t);
    MainQueueWeight(c, states[j], t);
    MainQueueWeight(c, states[k], t);
    RunWeights(c, mode, states, steps, i, j, t);
    RunWeights(c, mode, states, steps, j, k, t);
  }
}
