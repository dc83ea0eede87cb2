/** How general the runs are: what may go wrong at any moment, and how little happens in one step. */
module Faults {
  import opened Domain
  import opened TaskTable
  import opened WorkerSteps
  import opened Protocol
  import opened Progress

  // ---- what may go wrong ----

  /** A worker may stop between any two statements of its program; its task is then nowhere. */
  lemma WorkerMayStop(c: Config, s: State, w: WorkerId)
    requires Reachable(c, Lossy, s) && w in s.workers && !s.workers[w].Idle?
    ensures Reachable(c, Lossy, s.(workers := s.workers[w := Idle]))
  {
    StepOn(c, Lossy, s, Abandon(w));
  }

  /** The coordinator may stop at any point of handling an event; what it had not done yet is not done. */
  lemma CoordinatorMayStop(c: Config, s: State)
    requires Reachable(c, Lossy, s) && !s.coordinator.Waiting?
    ensures Reachable(c, Lossy, s.(coordinator := Waiting))
  {
    StepOn(c, Lossy, s, CoordinatorStops);
  }

  /** Any published event may vanish, the others stay in order. */
  lemma EventMayVanish(c: Config, s: State, i: nat)
    requires Reachable(c, Lossy, s)
    ensures i < |s.store.completed| ==>
              Reachable(c, Lossy, s.(store := s.store.(completed := s.store.completed[..i] + s.store.completed[i+1..])))
    ensures i < |s.store.terminated| ==>
              Reachable(c, Lossy,
                        s.(store := s.store.(terminated := s.store.terminated[..i] + s.store.terminated[i+1..])))
  {
    if i < |s.store.completed| {
      StepOn(c, Lossy, s, LoseEvent(true, i));
    }
    if i < |s.store.terminated| {
      StepOn(c, Lossy, s, LoseEvent(false, i));
    }
  }

  /** A submitter's push may fail after any number of successful ones: the remaining roots are never pushed. */
  lemma {:induction false} SubmissionMayFail(c: Config, s: State, e: ExecutionId, k: nat)
    requires Reachable(c, Lossy, s) && e in s.submitters && k < |s.submitters[e]|
    ensures Reachable(c, Lossy, s.(mainQueue := s.mainQueue + s.submitters[e][..k],
                                   submitters := s.submitters[e := []]))
    decreases k
  {
    var roots := s.submitters[e];
    if k == 0 {
      StepOn(c, Lossy, s, SubmitFails(e));
      assert s.mainQueue + roots[..0] == s.mainQueue;
    } else {
      StepOn(c, Lossy, s, SubmitPush(e));
      var s1 := After(c, s, SubmitPush(e));
      SubmissionMayFail(c, s1, e, k - 1);
      assert s.mainQueue + [roots[0]] + roots[1..][..k-1] == s.mainQueue + roots[..k];
      assert s.submitters[e := roots[1..]][e := []] == s.submitters[e := []];
    }
  }

  /** What arrives when some pushes fail: `fails[i]` is the fate of `ids[i]`. */
  function Arrived(ids: seq<TaskId>, fails: seq<bool>): seq<TaskId>
    requires |ids| == |fails|
  {
    if ids == [] then [] else (if fails[0] then [] else [ids[0]]) + Arrived(ids[1..], fails[1..])
  }

  /** Any of the coordinator's pushes may fail; it goes on with the next, and each failure costs one task only. */
  lemma {:induction false} PushesMayFail(c: Config, s: State, fails: seq<bool>)
    requires Reachable(c, Lossy, s) && s.coordinator.Pushing? && s.coordinator.ready != []
    requires |fails| == |s.coordinator.ready|
    ensures Reachable(c, Lossy, s.(mainQueue := s.mainQueue + Arrived(s.coordinator.ready, fails),
                                   coordinator := Waiting))
    decreases |fails|
  {
    var rest := s.coordinator.ready[1..];
    var head := if fails[0] then [] else [s.coordinator.ready[0]];
    var s1 := OnePushDone(c, s, fails[0]);
    if rest == [] {
      assert Arrived(rest, fails[1..]) == [];
    } else {
      assert s1.coordinator == Pushing(rest);
      PushesMayFail(c, s1, fails[1..]);
    }
    assert s1.mainQueue + Arrived(rest, fails[1..]) == s.mainQueue + (head + Arrived(rest, fails[1..]));
  }

  lemma OnePushDone(c: Config, s: State, fails: bool) returns (s': State)
    requires Reachable(c, Lossy, s) && s.coordinator.Pushing? && s.coordinator.ready != []
    ensures Reachable(c, Lossy, s')
    ensures s' == s.(mainQueue := s.mainQueue + (if fails then [] else [s.coordinator.ready[0]]),
                     coordinator := AfterPush(s.coordinator.ready))
  {
    var step := if fails then CoordinatorPushFails else CoordinatorPush;
    StepOn(c, Lossy, s, step);
    s' := After(c, s, step);
    assert s.mainQueue + [] == s.mainQueue;
  }

  /** A stray entry, known or unknown, may appear in either queue at any time. */
  lemma StrayMayAppear(c: Config, s: State, id: TaskId)
    requires Reachable(c, Chaotic, s)
    ensures Reachable(c, Chaotic, s.(mainQueue := s.mainQueue + [id]))
    ensures Reachable(c, Chaotic, s.(store := s.store.(retryQueue := s.store.retryQueue + [id])))
  {
    StepOn(c, Chaotic, s, Intrude(false, id));
    StepOn(c, Chaotic, s, Intrude(true, id));
  }

  // ---- how little happens at once ----

  /** How many of the database tables, lists and channels differ. */
  function Touched(s: State, s': State): nat {
    (if s'.store.rows != s.store.rows then 1 else 0)
    + (if s'.store.verdicts != s.store.verdicts then 1 else 0)
    + (if s'.store.retryQueue != s.store.retryQueue then 1 else 0)
    + (if s'.store.completed != s.store.completed then 1 else 0)
    + (if s'.store.terminated != s.store.terminated then 1 else 0)
    + (if s'.mainQueue != s.mainQueue then 1 else 0)
  }

  lemma StatementIsAtomic(h: Handlers, w: WorkerId, st: Store, pc: Pc, row: Option<Task>)
    requires !pc.Idle?
    ensures Advance(h, w, pc, row).row.Some? ==> Advance(h, w, pc, row).effect.NoEffect?
  {
  }

  lemma WorkIsAtomic(c: Config, s: State, w: WorkerId)
    requires Enabled(c, s, Work(w))
    ensures Touched(s, After(c, s, Work(w))) <= 1
  {
    var pc := s.workers[w];
    StatementIsAtomic(c.handlers, w, s.store, pc, Find(s.store.rows, pc.Held()));
  }

  lemma TransferIsAtomic(c: Config, s: State, step: Step)
    requires Enabled(c, s, step) && (step.Pop? || step.Take? || step.LoseEvent? || step.Intrude?)
    ensures Touched(s, After(c, s, step)) <= 1
  {
  }

  /** No step touches two of them: between any two statements anyone else may act. */
  lemma StepsAreAtomic(c: Config, s: State, step: Step)
    requires Enabled(c, s, step)
    ensures Touched(s, After(c, s, step)) <= 1
  {
    if step.Work? {
      WorkIsAtomic(c, s, step.worker);
    } else if step.Pop? || step.Take? || step.LoseEvent? || step.Intrude? {
      TransferIsAtomic(c, s, step);
    }
  }

  // ---- whose turn it is ----

  /** A worker that is idle may pop and one that is busy may go on, whatever the others are doing. */
  lemma AnyWorkerMayMove(c: Config, mode: Mode, s: State, w: WorkerId)
    requires Reachable(c, mode, s) && w in s.workers && w in c.workers
    ensures s.workers[w].Idle? && c.workers[w].MainPool? && s.mainQueue != [] ==>
              Reachable(c, mode, s.(mainQueue := s.mainQueue[1..], workers := s.workers[w := Popped(s.mainQueue[0])]))
    ensures s.workers[w].Idle? && c.workers[w].RetryPool? && s.store.retryQueue != [] ==>
              Reachable(c, mode, s.(store := s.store.(retryQueue := s.store.retryQueue[1..]),
                                    workers := s.workers[w := Popped(s.store.retryQueue[0])]))
    ensures !s.workers[w].Idle? ==> Reachable(c, mode, AfterWork(c, s, w))
  {
    if !s.workers[w].Idle? {
      StepOn(c, mode, s, Work(w));
    } else if QueueOf(s, c.workers[w]) != [] {
      StepOn(c, mode, s, Pop(w));
    }
  }

  /** A submitter may push its next root at any time. */
  lemma AnySubmitterMayMove(c: Config, mode: Mode, s: State, e: ExecutionId)
    requires Reachable(c, mode, s) && e in s.submitters && s.submitters[e] != []
    ensures Reachable(c, mode, s.(mainQueue := s.mainQueue + [s.submitters[e][0]],
                                  submitters := s.submitters[e := s.submitters[e][1..]]))
  {
    StepOn(c, mode, s, SubmitPush(e));
  }

  /** The coordinator may take from either channel, handle what the decrement returned in any order, and between its
      count and its write of the verdict anything may happen. */
  lemma CoordinatorMayMove(c: Config, mode: Mode, s: State, ready: seq<TaskId>)
    requires Reachable(c, mode, s)
    ensures s.coordinator.Waiting? && s.store.completed != [] ==>
              Reachable(c, mode, s.(store := s.store.(completed := s.store.completed[1..]),
                                    coordinator := Got(s.store.completed[0])))
    ensures s.coordinator.Waiting? && s.store.terminated != [] ==>
              Reachable(c, mode, s.(store := s.store.(terminated := s.store.terminated[1..]),
                                    coordinator := Got(s.store.terminated[0])))
    ensures s.coordinator.Got?
            && Enumerates(ready, ReadySet(s.store.rows, s.coordinator.event.executionId, s.coordinator.event.refId)) ==>
              Reachable(c, mode, AfterResolve(s, ready))
    ensures s.coordinator.Checking? && AllCompleted(s.store.rows, s.coordinator.execution) ==>
              Reachable(c, mode, s.(coordinator := Deciding(s.coordinator.execution)))
    ensures s.coordinator.Checking? && !AllCompleted(s.store.rows, s.coordinator.execution) ==>
              Reachable(c, mode, s.(coordinator := Waiting))
    ensures s.coordinator.Deciding? ==>
              Reachable(c, mode, s.(store := s.store.(verdicts :=
                                      UpdatedStatus(s.store.verdicts, s.coordinator.execution, WorkflowCompleted)),
                                    coordinator := Waiting))
  {
    match s.coordinator
    case Waiting =>
      if s.store.completed != [] {
        StepOn(c, mode, s, Take(true));
      }
      if s.store.terminated != [] {
        StepOn(c, mode, s, Take(false));
      }
    case Got(ev) =>
      if Enumerates(ready, ReadySet(s.store.rows, ev.executionId, ev.refId)) {
        StepOn(c, mode, s, Resolve(ready));
      }
    case Pushing(_) =>
    case Checking(_) => StepOn(c, mode, s, Check);
    case Deciding(_) => StepOn(c, mode, s, Decide);
  }
}
