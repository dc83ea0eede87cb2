/** The workflow verdict: when it is given, what it implies, and that it is never revised. */
module Verdict {
  import opened Domain
  import opened TaskTable
  import opened WorkerSteps
  import opened Protocol
  import opened TokenSteps
  import opened ResolveStep
  import opened Invariant

  ghost predicate SomeFailed(rows: Rows, e: ExecutionId) {
    exists t :: t in rows && rows[t].spec.executionId == e && rows[t].status == Failed
  }

  ghost predicate VerdictFits(s: State, e: ExecutionId)
    requires e in s.store.verdicts
  {
    && (s.store.verdicts[e] == WorkflowCompleted ==> AllCompleted(s.store.rows, e))
    && (s.store.verdicts[e] == WorkflowFailed ==> SomeFailed(s.store.rows, e))
  }

  ghost predicate VerdictsFit(s: State) {
    && (forall e | e in s.store.verdicts :: VerdictFits(s, e))
    && (s.coordinator.Deciding? ==> AllCompleted(s.store.rows, s.coordinator.execution))
  }

  /** Finished rows are final, so what a verdict rests on is stable. */
  lemma VerdictGroundsStay(s: State, s': State, e: ExecutionId)
    requires RowsEvolve(s, s')
    ensures AllCompleted(s.store.rows, e) ==> AllCompleted(s'.store.rows, e)
    ensures SomeFailed(s.store.rows, e) ==> SomeFailed(s'.store.rows, e)
  {
    if SomeFailed(s.store.rows, e) {
      var t :| t in s.store.rows && s.store.rows[t].spec.executionId == e && s.store.rows[t].status == Failed;
      assert Evolves(s.store.rows[t], s'.store.rows[t]);
    }
  }

  /** The three ways a step may touch the verdicts and the coordinator's decision. */
  ghost predicate VerdictMove(s: State, s': State) {
    || (s'.store.verdicts == s.store.verdicts
        && (s'.coordinator.Deciding? ==>
              s'.coordinator == s.coordinator || AllCompleted(s.store.rows, s'.coordinator.execution)))
    || (s'.coordinator == s.coordinator && FailureDeclared(s, s'))
    || (s.coordinator.Deciding? && s'.coordinator.Waiting?
        && s'.store.verdicts == UpdatedStatus(s.store.verdicts, s.coordinator.execution, WorkflowCompleted))
  }

  ghost predicate FailureDeclared(s: State, s': State) {
    exists e :: SomeFailed(s'.store.rows, e) && s'.store.verdicts == UpdatedStatus(s.store.verdicts, e, WorkflowFailed)
  }

  lemma WorkedVerdicts(c: Config, s: State, s': State, w: WorkerId, move: Move, row': Task)
    requires Worked(c, s, s', w, move, row')
    ensures VerdictMove(s, s')
  {
    var t := s.workers[w].Held();
    if move.effect.FailWorkflow? {
      assert t in s'.store.rows && s'.store.rows[t].status == Failed;
      assert SomeFailed(s'.store.rows, move.effect.execution);
    }
  }

  lemma RestVerdicts(c: Config, s: State, step: Step)
    requires Enabled(c, s, step) && !step.Work? && !step.Intrude?
    ensures VerdictMove(s, After(c, s, step))
  {
  }

  lemma MoveKeepsVerdicts(s: State, s': State)
    requires VerdictsFit(s) && RowsEvolve(s, s') && VerdictMove(s, s')
    ensures VerdictsFit(s')
    ensures forall e | e in s.store.verdicts && s.store.verdicts[e] != WorkflowRunning ::
              e in s'.store.verdicts && s'.store.verdicts[e] == s.store.verdicts[e]
  {
    forall e | e in s.store.verdicts ensures VerdictFits(s', e) {
      VerdictGroundsStay(s, s', e);
      NotBoth(s'.store.rows, e);
    }
  }

  /** A verdict, once given, stays: FAILED by the guard, COMPLETED because no task of the workflow can fail any more. */
  lemma StepKeepsVerdicts(c: Config, s: State, step: Step)
    requires Registered(c) && Base(c, s) && Enabled(c, s, step) && !step.Intrude?
    requires VerdictsFit(s)
    ensures VerdictsFit(After(c, s, step))
    ensures forall e | e in s.store.verdicts && s.store.verdicts[e] != WorkflowRunning ::
              e in After(c, s, step).store.verdicts && After(c, s, step).store.verdicts[e] == s.store.verdicts[e]
  {
    StepEvolves(c, s, step);
    if step.Work? {
      var move, row' := WorkDone(c, s, step.worker);
      WorkedVerdicts(c, s, After(c, s, step), step.worker, move, row');
    } else {
      RestVerdicts(c, s, step);
    }
    MoveKeepsVerdicts(s, After(c, s, step));
  }

  lemma NotBoth(rows: Rows, e: ExecutionId)
    ensures !(AllCompleted(rows, e) && SomeFailed(rows, e))
  {
  }
}
