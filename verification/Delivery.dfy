/** With reliable delivery no task is lost and no verdict is missed. */
module Delivery {
  import opened Domain
  import opened TaskTable
  import opened WorkerSteps
  import opened Protocol
  import opened Tokens
  import opened TokenSteps
  import opened ResolveStep
  import opened Invariant
  import opened Verdict

  // ---- no task is lost ----

  ghost predicate Somewhere(s: State, t: TaskId) {
    exists p :: At(s, p, t)
  }

  /** A task that waits for nothing is at some place. */
  ghost predicate NoneLost(s: State) {
    forall t | t in s.store.rows :: s.store.rows[t].inDegree <= 0 ==> Somewhere(s, t)
  }

  predicate KeepsTasks(shift: Shift) {
    shift.Stay? || (shift.Go? && shift.to.Some?)
  }

  lemma WithoutKeeps(q: seq<TaskId>, i: nat, t: TaskId)
    requires i < |q| && t in q && t != q[i]
    ensures t in Without(q, i)
  {
    var j :| 0 <= j < |q| && q[j] == t;
    assert Without(q, i)[if j < i then j else j - 1] == t;
  }

  /** A task at `p` is still there, or has followed the shift. */
  lemma ShiftKeepsAt(s: State, s': State, shift: Shift, p: Place, t: TaskId)
    requires Shifts(s, s', shift) && KeepsTasks(shift) && t in Holds(s, p)
    ensures t in Holds(s', p) || (shift.Go? && t in Holds(s', shift.to.value))
  {
    if shift.Go? && p == shift.from {
      var q := Holds(s, shift.from);
      if t == q[shift.i] {
        assert t in Holds(s, shift.to.value) + [q[shift.i]];
      } else {
        WithoutKeeps(q, shift.i, t);
      }
    }
  }

  lemma ShiftKeepsTask(s: State, s': State, shift: Shift, t: TaskId)
    requires Shifts(s, s', shift) && KeepsTasks(shift) && Somewhere(s, t)
    ensures Somewhere(s', t)
  {
    var p :| At(s, p, t);
    ShiftKeepsAt(s, s', shift, p, t);
    assert At(s', p, t) || At(s', shift.to.value, t);
  }

  lemma ReliableShift(c: Config, s: State, step: Step)
    requires Allowed(Reliable, step) && !step.Resolve?
    ensures Simple(step) && KeepsTasks(ShiftOf(c, s, step))
  {
  }

  lemma ReleaseKeepsAt(c: Config, s: State, ready: seq<TaskId>, p: Place, t: TaskId)
    requires Enabled(c, s, Resolve(ready)) && t in Holds(Logged(s), p)
    ensures t in Holds(After(c, s, Resolve(ready)), p)
  {
    ReleaseHolds(c, s, ready, p);
  }

  lemma ResolveKeepsSomewhere(c: Config, s: State, ready: seq<TaskId>, t: TaskId)
    requires Enabled(c, s, Resolve(ready)) && Somewhere(s, t)
    ensures Somewhere(After(c, s, Resolve(ready)), t)
  {
    LoggedShifts(s);
    var p :| At(s, p, t);
    var shift := Go(InCoordinator, 0, Some(Processed));
    ShiftKeepsAt(s, Logged(s), shift, p, t);
    var q := if t in Holds(Logged(s), p) then p else Processed;
    ReleaseKeepsAt(c, s, ready, q, t);
    assert At(After(c, s, Resolve(ready)), q, t);
  }

  lemma ResolveKeepsTask(c: Config, s: State, ready: seq<TaskId>, t: TaskId)
    requires RowsFit(c, s) && Enabled(c, s, Resolve(ready)) && t in c.specs
    requires s.store.rows[t].inDegree <= 0 ==> Somewhere(s, t)
    ensures var s' := After(c, s, Resolve(ready));
            t in s'.store.rows && (s'.store.rows[t].inDegree <= 0 ==> Somewhere(s', t))
  {
    ResolveRow(c, s, ready, t);
    if t in ready {
      ReleaseHolds(c, s, ready, WithCoordinator);
      assert At(After(c, s, Resolve(ready)), WithCoordinator, t);
    } else if s.store.rows[t].inDegree <= 0 {
      ResolveKeepsSomewhere(c, s, ready, t);
    }
  }

  lemma StepKeepsNoneLost(c: Config, s: State, step: Step)
    requires Registered(c) && Base(c, s) && Enabled(c, s, step) && Allowed(Reliable, step)
    requires NoneLost(s)
    ensures NoneLost(After(c, s, step))
  {
    var s' := After(c, s, step);
    if step.Resolve? {
      forall t | t in c.specs ensures t in s'.store.rows && (s'.store.rows[t].inDegree <= 0 ==> Somewhere(s', t)) {
        ResolveKeepsTask(c, s, step.ready, t);
      }
      ResolveKeepsRows(c, s, step.ready);
    } else {
      ReliableShift(c, s, step);
      StepShifts(c, s, step);
      SimpleKeepsCounters(c, s, step);
      forall t | t in s'.store.rows && s'.store.rows[t].inDegree <= 0 ensures Somewhere(s', t) {
        ShiftKeepsTask(s, s', ShiftOf(c, s, step), t);
      }
    }
  }

  // ---- the completion filter misses nothing ----

  /** Every task of a non-empty workflow completed and its event was resolved. */
  ghost predicate AllDone(c: Config, s: State, e: ExecutionId) {
    && e in c.order && c.order[e] != []
    && forall t | t in c.specs && c.specs[t].executionId == e :: Done(s, t)
  }

  predicate Done(s: State, t: TaskId) {
    t in s.log && t in s.store.rows && s.store.rows[t].status == Completed
  }

  ghost predicate Judged(s: State, e: ExecutionId) {
    || (e in s.store.verdicts && s.store.verdicts[e] == WorkflowCompleted)
    || s.coordinator == Checking(e)
    || s.coordinator == Deciding(e)
  }

  ghost predicate CompletionSeen(c: Config, s: State) {
    forall e | AllDone(c, s, e) :: Judged(s, e)
  }

  /** A decrement completes no task. */
  lemma ResolveCompletesNoRow(c: Config, s: State, ready: seq<TaskId>, t: TaskId)
    requires RowsFit(c, s) && Enabled(c, s, Resolve(ready)) && t in c.specs
    ensures var rows' := After(c, s, Resolve(ready)).store.rows;
            t in rows' && (rows'[t].status == Completed ==> s.store.rows[t].status == Completed)
  {
    ResolveRow(c, s, ready, t);
  }

  lemma ResolveCompletesNothing(c: Config, s: State, ready: seq<TaskId>, t: TaskId)
    requires RowsFit(c, s) && Enabled(c, s, Resolve(ready)) && t in c.specs
    requires Done(After(c, s, Resolve(ready)), t)
    ensures s.store.rows[t].status == Completed && (t in s.log || t == s.coordinator.event.taskId)
  {
    ResolveCompletesNoRow(c, s, ready, t);
    ResolveLogs(c, s, ready);
  }

  lemma LastTask(c: Config, s: State, ready: seq<TaskId>, t: TaskId)
    requires TokenInv(c, s) && Enabled(c, s, Resolve(ready)) && t in c.specs
    requires Done(After(c, s, Resolve(ready)), t) && !Done(s, t)
    ensures s.coordinator.event.TaskCompleted? && s.coordinator.event.executionId == c.specs[t].executionId
  {
    ResolveCompletesNothing(c, s, ready, t);
    EventIsNew(c, s);
  }

  lemma UndoneTask(c: Config, s: State, s': State, e: ExecutionId) returns (t: TaskId)
    requires AllDone(c, s', e) && !AllDone(c, s, e)
    ensures t in c.specs && c.specs[t].executionId == e && Done(s', t) && !Done(s, t)
  {
    t :| t in c.specs && c.specs[t].executionId == e && !Done(s, t);
  }

  /** A decrement finishes a workflow only through the task of its event. */
  lemma LastEvent(c: Config, s: State, ready: seq<TaskId>, e: ExecutionId)
    requires TokenInv(c, s) && Enabled(c, s, Resolve(ready))
    requires AllDone(c, After(c, s, Resolve(ready)), e) && !AllDone(c, s, e)
    ensures s.coordinator.event.TaskCompleted? && s.coordinator.event.executionId == e
  {
    var t := UndoneTask(c, s, After(c, s, Resolve(ready)), e);
    LastTask(c, s, ready, t);
  }

  /** The event that finishes a workflow readies nobody. */
  lemma LastEventReadiesNobody(c: Config, s: State, ready: seq<TaskId>)
    requires TokenInv(c, s) && Enabled(c, s, Resolve(ready))
    requires AllDone(c, After(c, s, Resolve(ready)), s.coordinator.event.executionId)
    ensures ready == []
  {
    if ready != [] {
      var r := ready[0];
      assert r in ready;
      assert r in s.store.rows;
      ResolveRow(c, s, ready, r);
      EventIsNew(c, s);
      assert false;
    }
  }

  /** So the coordinator does check after it. */
  lemma LastEventIsChecked(c: Config, s: State, ready: seq<TaskId>, e: ExecutionId)
    requires TokenInv(c, s) && Enabled(c, s, Resolve(ready))
    requires AllDone(c, After(c, s, Resolve(ready)), e) && !AllDone(c, s, e)
    ensures After(c, s, Resolve(ready)).coordinator == Checking(e)
  {
    LastEvent(c, s, ready, e);
    LastEventReadiesNobody(c, s, ready);
  }

  lemma AllDoneAllCompleted(c: Config, s: State, e: ExecutionId)
    requires RowsFit(c, s) && AllDone(c, s, e)
    ensures AllCompleted(s.store.rows, e)
  {
  }

  lemma StepKeepsJudged(c: Config, s: State, step: Step, e: ExecutionId)
    requires Registered(c) && Base(c, s) && Enabled(c, s, step) && Allowed(Reliable, step)
    requires VerdictsFit(s) && Judged(s, e) && AllDone(c, s, e)
    ensures Judged(After(c, s, step), e)
  {
    StepKeepsVerdicts(c, s, step);
    AllDoneAllCompleted(c, s, e);
    NotBoth(s.store.rows, e);
    if step.Work? {
      var move, row' := WorkDone(c, s, step.worker);
      WorkedVerdicts(c, s, After(c, s, step), step.worker, move, row');
    }
  }

  lemma OnlyResolvingFinishes(c: Config, s: State, step: Step, e: ExecutionId)
    requires Registered(c) && TokenInv(c, s) && Enabled(c, s, step) && Allowed(Reliable, step)
    requires AllDone(c, After(c, s, step), e) && !AllDone(c, s, e)
    ensures step.Resolve?
  {
    if !step.Resolve? {
      SimpleKeepsDone(c, s, step, e);
    }
  }

  lemma StepKeepsSeen(c: Config, s: State, step: Step, e: ExecutionId)
    requires Registered(c) && Base(c, s) && Enabled(c, s, step) && Allowed(Reliable, step)
    requires VerdictsFit(s) && AllDone(c, After(c, s, step), e) && (AllDone(c, s, e) ==> Judged(s, e))
    ensures Judged(After(c, s, step), e)
  {
    if AllDone(c, s, e) {
      StepKeepsJudged(c, s, step, e);
    } else {
      OnlyResolvingFinishes(c, s, step, e);
      LastEventIsChecked(c, s, step.ready, e);
    }
  }

  lemma StepKeepsCompletionSeen(c: Config, s: State, step: Step)
    requires Registered(c) && Base(c, s) && Enabled(c, s, step) && Allowed(Reliable, step)
    requires VerdictsFit(s) && CompletionSeen(c, s)
    ensures CompletionSeen(c, After(c, s, step))
  {
    forall e | AllDone(c, After(c, s, step), e) ensures Judged(After(c, s, step), e) {
      StepKeepsSeen(c, s, step, e);
    }
  }

  lemma SimpleKeepsDone(c: Config, s: State, step: Step, e: ExecutionId)
    requires Registered(c) && TokenInv(c, s) && Enabled(c, s, step) && Simple(step)
    requires AllDone(c, After(c, s, step), e)
    ensures AllDone(c, s, e)
  {
    SimpleKeepsLog(c, s, step);
    SimpleKeepsCounters(c, s, step);
    forall t | t in c.specs && c.specs[t].executionId == e ensures t in s.log && s.store.rows[t].status == Completed {
      assert t in s.log;
      assert At(s, Processed, t);
    }
  }

  // ---- no failure is missed ----

  /** A failed task's workflow is marked, except while its worker is between its two statements. */
  ghost predicate FailureSeen(s: State) {
    forall t | t in s.store.rows && s.store.rows[t].status == Failed ::
      FailureSeenFor(s, t)
  }

  ghost predicate FailureSeenFor(s: State, t: TaskId)
    requires t in s.store.rows
  {
    VerdictFailedFor(s, s.store.rows[t].spec.executionId) || exists w :: Declaring(s, w, t)
  }

  ghost predicate VerdictFailedFor(s: State, e: ExecutionId) {
    e in s.store.verdicts && s.store.verdicts[e] == WorkflowFailed
  }

  ghost predicate Declaring(s: State, w: WorkerId, t: TaskId) {
    w in s.workers && s.workers[w].FailedMarked? && s.workers[w].Held() == t
  }

  /** A row that a statement fails has its worker between its two statements, or already its verdict. */
  lemma WorkedDeclares(c: Config, s: State, s': State, w: WorkerId, move: Move, row': Task)
    requires Worked(c, s, s', w, move, row') && row'.status == Failed && RowsFit(c, s)
    ensures var t := s.workers[w].Held();
            || (!s.workers[w].FailedMarked? && s.store.rows[t].status == Failed)
            || Declaring(s', w, t)
            || VerdictFailedFor(s', row'.spec.executionId)
  {
  }

  lemma WorkedKeepsDeclaring(c: Config, s: State, s': State, w: WorkerId, move: Move, row': Task, w': WorkerId,
                    t: TaskId)
    requires OneToken(s) && Worked(c, s, s', w, move, row') && Declaring(s, w', t) && w' != w
    ensures Declaring(s', w', t) && t != s.workers[w].Held()
  {
    assert At(s, AtWorker(w'), t);
  }

  lemma WorkedKeepsFailureSeen(c: Config, s: State, s': State, w: WorkerId, move: Move, row': Task, t: TaskId)
    requires OneToken(s) && RowsFit(c, s) && Worked(c, s, s', w, move, row') && t in s.store.rows
    requires s.store.rows[t].status == Failed ==> FailureSeenFor(s, t)
    requires VerdictFailedFor(s, s.store.rows[t].spec.executionId) ==>
               VerdictFailedFor(s', s.store.rows[t].spec.executionId)
    requires s'.store.rows[t].status == Failed
    ensures FailureSeenFor(s', t)
  {
    if t == s.workers[w].Held() {
      WorkedDeclares(c, s, s', w, move, row');
    }
    if s.store.rows[t].status == Failed && !VerdictFailedFor(s, s.store.rows[t].spec.executionId) {
      var w' :| Declaring(s, w', t);
      if w' != w {
        WorkedKeepsDeclaring(c, s, s', w, move, row', w', t);
      }
    }
  }

  /** Steps other than a worker's fail no task and move no busy worker. */
  lemma RestKeepsFailure(c: Config, s: State, step: Step, t: TaskId)
    requires RowsFit(c, s) && Enabled(c, s, step) && Allowed(Reliable, step) && !step.Work?
    requires var rows' := After(c, s, step).store.rows; t in rows' && rows'[t].status == Failed
    ensures t in s.store.rows && s.store.rows[t].status == Failed
  {
    if !step.Resolve? {
      RowlessElsewhere(c, s, step);
    }
  }

  lemma RestKeepsDeclaring(c: Config, s: State, step: Step, w: WorkerId, t: TaskId)
    requires Enabled(c, s, step) && Allowed(Reliable, step) && !step.Work? && Declaring(s, w, t)
    ensures Declaring(After(c, s, step), w, t)
  {
  }

  lemma FailureStaysSeen(s: State, s': State, t: TaskId)
    requires t in s.store.rows && t in s'.store.rows && s'.store.rows[t].spec == s.store.rows[t].spec
    requires FailureSeenFor(s, t)
    requires VerdictFailedFor(s, s.store.rows[t].spec.executionId) ==>
               VerdictFailedFor(s', s.store.rows[t].spec.executionId)
    requires forall w | Declaring(s, w, t) :: Declaring(s', w, t)
    ensures FailureSeenFor(s', t)
  {
  }

  lemma RestKeepsFailureSeen(c: Config, s: State, step: Step, t: TaskId)
    requires RowsFit(c, s) && Enabled(c, s, step) && Allowed(Reliable, step) && !step.Work?
    requires FailureSeen(s) && t in s.store.rows && t in After(c, s, step).store.rows
    requires After(c, s, step).store.rows[t].spec == s.store.rows[t].spec
    requires After(c, s, step).store.rows[t].status == Failed
    requires VerdictFailedFor(s, s.store.rows[t].spec.executionId) ==>
               VerdictFailedFor(After(c, s, step), s.store.rows[t].spec.executionId)
    ensures FailureSeenFor(After(c, s, step), t)
  {
    RestKeepsFailure(c, s, step, t);
    forall w | Declaring(s, w, t) ensures Declaring(After(c, s, step), w, t) {
      RestKeepsDeclaring(c, s, step, w, t);
    }
    FailureStaysSeen(s, After(c, s, step), t);
  }

  lemma StepKeepsFailureSeen(c: Config, s: State, step: Step)
    requires Registered(c) && Base(c, s) && Enabled(c, s, step) && Allowed(Reliable, step)
    requires VerdictsFit(s) && FailureSeen(s)
    ensures FailureSeen(After(c, s, step))
  {
    StepEvolves(c, s, step);
    StepKeepsVerdicts(c, s, step);
    if step.Work? {
      var move, row' := WorkDone(c, s, step.worker);
      forall t | t in s.store.rows && After(c, s, step).store.rows[t].status == Failed
        ensures FailureSeenFor(After(c, s, step), t)
      {
        WorkedKeepsFailureSeen(c, s, After(c, s, step), step.worker, move, row', t);
      }
    } else {
      forall t | t in s.store.rows && After(c, s, step).store.rows[t].status == Failed
        ensures FailureSeenFor(After(c, s, step), t)
      {
        RestKeepsFailureSeen(c, s, step, t);
      }
    }
  }
}
