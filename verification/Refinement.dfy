/** The classes refine the protocol: what a method does undisturbed is a run of the protocol's atomic steps. */
module Refinement {
  import opened Domain
  import opened TaskTable
  import opened WorkerSteps
  import opened Protocol
  import opened Progress
  import opened Submission
  import opened CoordinatorLoop

  ghost predicate Executes(c: Config, s: State, steps: seq<Step>, s': State)
    decreases |steps|
  {
    if steps == [] then s' == s
    else Enabled(c, s, steps[0]) && Allowed(Reliable, steps[0]) && Executes(c, After(c, s, steps[0]), steps[1..], s')
  }

  lemma FirstStep(c: Config, s: State, step: Step, rest: seq<Step>, s': State)
    requires Enabled(c, s, step) && Allowed(Reliable, step) && Executes(c, After(c, s, step), rest, s')
    ensures Executes(c, s, [step] + rest, s')
  {
    assert ([step] + rest)[1..] == rest;
  }

  /** What is executed with nothing lost is part of some run, in every mode. */
  lemma {:induction false} ExecutedIsReachable(c: Config, mode: Mode, s: State, steps: seq<Step>, s': State)
    requires Reachable(c, mode, s) && Executes(c, s, steps, s')
    ensures Reachable(c, mode, s')
    decreases |steps|
  {
    if steps != [] {
      StepOn(c, mode, s, steps[0]);
      ExecutedIsReachable(c, mode, After(c, s, steps[0]), steps[1..], s');
    }
  }

  // ---- workers ----

  /** Everything but the store, the claims and worker `w`. */
  ghost predicate OnlyWorkerRan(s: State, s': State, w: WorkerId) {
    && w in s.workers && s'.workers == s.workers[w := Idle]
    && s'.mainQueue == s.mainQueue && s'.submitters == s.submitters
    && s'.coordinator == s.coordinator && s'.log == s.log
  }

  lemma {:induction false} WorkToIdle(c: Config, s: State, w: WorkerId) returns (steps: seq<Step>, s': State)
    requires w in s.workers
    ensures Executes(c, s, steps, s') && OnlyWorkerRan(s, s', w)
    ensures forall step | step in steps :: step == Work(w)
    ensures s'.store == RunToIdle(c.handlers, w, s.store, s.workers[w])
    decreases s.workers[w].Rank()
  {
    if s.workers[w].Idle? {
      steps, s' := [], s;
      assert s.workers == s.workers[w := Idle];
    } else {
      var s1 := After(c, s, Work(w));
      RankFalls(c.handlers, w, s.store, s.workers[w]);
      var rest;
      rest, s' := WorkToIdle(c, s1, w);
      FirstStep(c, s, Work(w), rest, s');
      steps := [Work(w)] + rest;
      assert s1.workers[w := Idle] == s.workers[w := Idle];
    }
  }

  lemma RankFalls(h: Handlers, w: WorkerId, st: Store, pc: Pc)
    requires !pc.Idle?
    ensures MoveOf(h, w, st, pc).pc.Rank() < pc.Rank()
  {
  }

  /** Worker.ProcessNextTask on a non-empty queue is one pop followed by that worker's statements. */
  lemma ProcessNextTaskIsARun(c: Config, s: State, w: WorkerId) returns (steps: seq<Step>, s': State)
    requires Enabled(c, s, Pop(w))
    ensures Executes(c, s, steps, s') && s'.workers == s.workers
    ensures s'.submitters == s.submitters && s'.coordinator == s.coordinator && s'.log == s.log
    ensures var q := QueueOf(s, c.workers[w]);
            && s'.mainQueue == (if c.workers[w].MainPool? then q[1..] else s.mainQueue)
            && s'.store == RunToIdle(c.handlers, w,
                 if c.workers[w].MainPool? then s.store else s.store.(retryQueue := q[1..]), Popped(q[0]))
  {
    var s1 := After(c, s, Pop(w));
    var rest;
    rest, s' := WorkToIdle(c, s1, w);
    FirstStep(c, s, Pop(w), rest, s');
    steps := [Pop(w)] + rest;
    assert s.workers[w := Popped(QueueOf(s, c.workers[w])[0])][w := Idle] == s.workers;
  }

  lemma OneStatement(h: Handlers, w: WorkerId, st: Store, pc: Pc) returns (st': Store, pc': Pc)
    requires !pc.Idle?
    ensures st' == StoreAfter(h, w, st, pc) && pc' == MoveOf(h, w, st, pc).pc
    ensures RunToIdle(h, w, st, pc) == RunToIdle(h, w, st', pc')
  {
    st', pc' := StoreAfter(h, w, st, pc), MoveOf(h, w, st, pc).pc;
  }

  // ---- one call, in full ----

  /** The verdicts after a task of `e` failed. */
  function Charged(verdicts: Verdicts, e: ExecutionId): Verdicts {
    if e in verdicts then verdicts[e := WorkflowFailed] else verdicts
  }

  /** The row after an undisturbed claim. */
  function Taken(row: Task, w: WorkerId): Task {
    row.(status := Running, workerId := Some(w), version := row.version + 1)
  }

  function FailedEvent(spec: TaskSpec): Event {
    TaskTerminated(spec.executionId, spec.id, spec.refId, TerminationFailed)
  }

  /** What an undisturbed call on a stored task does, as the six ways it can end. */
  function Lifecycle(h: Handlers, w: WorkerId, st: Store, row: Task): Store {
    var spec := row.spec;
    var back := row.(status := Pending, workerId := Some(w), version := row.version + 2,
                     retryCount := row.retryCount + 1);
    var lost := row.(status := Failed, workerId := Some(w), version := row.version + 1);
    if row.skipHint then
      st.(rows := st.rows[spec.id := row.(status := Skipped)],
          terminated := st.terminated + [TaskTerminated(spec.executionId, spec.id, spec.refId, TerminationSkipped)])
    else if spec.action !in h.registry && row.retryCount < spec.maxRetries then
      st.(rows := st.rows[spec.id := back],
          verdicts := Charged(st.verdicts, spec.executionId),
          terminated := st.terminated + [FailedEvent(spec)],
          retryQueue := st.retryQueue + [spec.id])
    else if spec.action !in h.registry then
      st.(rows := st.rows[spec.id := lost],
          verdicts := Charged(st.verdicts, spec.executionId),
          terminated := st.terminated + [FailedEvent(spec), FailedEvent(spec)])
    else if h.succeeds(spec.id, row.retryCount) then
      st.(rows := st.rows[spec.id := row.(status := Completed, workerId := Some(w), version := row.version + 1)],
          completed := st.completed + [TaskCompleted(spec.executionId, spec.id, spec.refId)])
    else if row.retryCount < spec.maxRetries then
      st.(rows := st.rows[spec.id := back], retryQueue := st.retryQueue + [spec.id])
    else
      st.(rows := st.rows[spec.id := lost],
          verdicts := Charged(st.verdicts, spec.executionId),
          terminated := st.terminated + [FailedEvent(spec)])
  }

  /** A retry, with any snapshot and on any table: refused when the version moved on, and then the call is over. */
  lemma RetryCall(h: Handlers, w: WorkerId, st: Store, m: Task)
    requires m.retryCount < m.spec.maxRetries
    ensures RunToIdle(h, w, st, Errored(m))
         == if m.spec.id in st.rows && st.rows[m.spec.id].version == m.version then
              st.(rows := st.rows[m.spec.id := st.rows[m.spec.id].(retryCount := st.rows[m.spec.id].retryCount + 1,
                                                                   status := Pending, version := m.version + 1)],
                  retryQueue := st.retryQueue + [m.spec.id])
            else st
  {
    var st1, pc1 := OneStatement(h, w, st, Errored(m));
    if m.spec.id in st.rows && st.rows[m.spec.id].version == m.version {
      var st2, pc2 := OneStatement(h, w, st1, pc1);
      assert pc2.Idle?;
    }
  }

  /** A permanent failure has no guard: whatever happened to the row, it is marked if it is there. */
  lemma FailureCall(h: Handlers, w: WorkerId, st: Store, m: Task)
    requires m.retryCount >= m.spec.maxRetries
    ensures RunToIdle(h, w, st, Errored(m))
         == st.(rows := if m.spec.id in st.rows then st.rows[m.spec.id := st.rows[m.spec.id].(status := Failed)]
                        else st.rows,
                verdicts := Charged(st.verdicts, m.spec.executionId),
                terminated := st.terminated + [FailedEvent(m.spec)])
  {
    var st1, pc1 := OneStatement(h, w, st, Errored(m));
    var st2, pc2 := OneStatement(h, w, st1, pc1);
    ChargedOnce(st.verdicts, m.spec.executionId);
    var st3, pc3 := OneStatement(h, w, st2, pc2);
    assert pc3.Idle?;
  }

  /** Nor has a completion. */
  lemma SuccessCall(h: Handlers, w: WorkerId, st: Store, m: Task)
    ensures RunToIdle(h, w, st, Succeeded(m))
         == st.(rows := if m.spec.id in st.rows then st.rows[m.spec.id := st.rows[m.spec.id].(status := Completed)]
                        else st.rows,
                completed := st.completed + [TaskCompleted(m.spec.executionId, m.spec.id, m.spec.refId)])
  {
    var st1, pc1 := OneStatement(h, w, st, Succeeded(m));
    var st2, pc2 := OneStatement(h, w, st1, pc1);
    assert pc2.Idle?;
  }

  /** Nor has a skip. */
  lemma SkipCall(h: Handlers, w: WorkerId, st: Store, m: Task)
    requires m.skipHint
    ensures RunToIdle(h, w, st, Fetched(m))
         == st.(rows := if m.spec.id in st.rows then st.rows[m.spec.id := st.rows[m.spec.id].(status := Skipped)]
                        else st.rows,
                terminated := st.terminated + [TaskTerminated(m.spec.executionId, m.spec.id, m.spec.refId,
                                                              TerminationSkipped)])
  {
    var st1, pc1 := OneStatement(h, w, st, Fetched(m));
    var st2, pc2 := OneStatement(h, w, st1, pc1);
    assert pc2.Idle?;
  }

  /** An entry for an unknown id, or a claim with an old version, does nothing at all. */
  lemma RefusedCall(h: Handlers, w: WorkerId, st: Store, id: TaskId, m: Task)
    ensures id !in st.rows ==> RunToIdle(h, w, st, Popped(id)) == st
    ensures !m.skipHint && (m.spec.id !in st.rows || st.rows[m.spec.id].version != m.version) ==>
              RunToIdle(h, w, st, Fetched(m)) == st
  {
    if id !in st.rows {
      var st1, pc1 := OneStatement(h, w, st, Popped(id));
    }
    if !m.skipHint && (m.spec.id !in st.rows || st.rows[m.spec.id].version != m.version) {
      var st1, pc1 := OneStatement(h, w, st, Fetched(m));
    }
  }

  lemma ChargedOnce(verdicts: Verdicts, e: ExecutionId)
    ensures UpdatedStatus(verdicts, e, WorkflowFailed) == Charged(verdicts, e)
    ensures UpdatedStatus(Charged(verdicts, e), e, WorkflowFailed) == Charged(verdicts, e)
    ensures Charged(Charged(verdicts, e), e) == Charged(verdicts, e)
  {
  }

  /** An unknown action is marked, announced and charged to the workflow, and then treated as an error. */
  lemma UnknownCall(h: Handlers, w: WorkerId, st: Store, m: Task)
    requires m.spec.action !in h.registry && m.spec.id in st.rows
    ensures RunToIdle(h, w, st, Owned(m))
         == RunToIdle(h, w, st.(rows := st.rows[m.spec.id := st.rows[m.spec.id].(status := Failed)],
                                verdicts := Charged(st.verdicts, m.spec.executionId),
                                terminated := st.terminated + [FailedEvent(m.spec)]), Errored(m))
  {
    var st1, pc1 := OneStatement(h, w, st, Owned(m));
    var st2, pc2 := OneStatement(h, w, st1, pc1);
    ChargedOnce(st.verdicts, m.spec.executionId);
    var st3, pc3 := OneStatement(h, w, st2, pc2);
  }

  /** What a call does when nobody disturbs it. */
  lemma UndisturbedLifecycle(h: Handlers, w: WorkerId, st: Store, row: Task)
    requires row.spec.id in st.rows && st.rows[row.spec.id] == row
    ensures RunToIdle(h, w, st, Popped(row.spec.id)) == Lifecycle(h, w, st, row)
  {
    var st1, pc1 := OneStatement(h, w, st, Popped(row.spec.id));
    assert st1 == st && pc1 == Fetched(row);
    if row.skipHint {
      SkipCall(h, w, st, row);
    } else {
      var st2, pc2 := OneStatement(h, w, st1, pc1);
      assert pc2 == Owned(row.(version := row.version + 1));
      assert st2 == st.(rows := st.rows[row.spec.id := Taken(row, w)]);
      OwnedLifecycle(h, w, st, st2, row);
    }
  }

  /** The same with the whole final store written out: a call on an unknown action. */
  lemma UnknownActionLifecycle(h: Handlers, w: WorkerId, st: Store, row: Task)
    requires row.spec.id in st.rows && st.rows[row.spec.id] == row && row.spec.executionId in st.verdicts
    requires !row.skipHint && row.spec.action !in h.registry
    ensures var final := RunToIdle(h, w, st, Popped(row.spec.id));
            var spec := row.spec;
            var event := TaskTerminated(spec.executionId, spec.id, spec.refId, TerminationFailed);
            && final.verdicts == st.verdicts[spec.executionId := WorkflowFailed]
            && final.completed == st.completed
            && if row.retryCount < spec.maxRetries then
                 && final.rows == st.rows[spec.id := row.(status := Pending, workerId := Some(w),
                                                          version := row.version + 2, retryCount := row.retryCount + 1)]
                 && final.retryQueue == st.retryQueue + [spec.id] && final.terminated == st.terminated + [event]
               else
                 && final.rows == st.rows[spec.id := row.(status := Failed, workerId := Some(w),
                                                          version := row.version + 1)]
                 && final.retryQueue == st.retryQueue && final.terminated == st.terminated + [event, event]
  {
    UndisturbedLifecycle(h, w, st, row);
  }

  /** And a call on a registered action, or on a tainted task. */
  lemma KnownActionLifecycle(h: Handlers, w: WorkerId, st: Store, row: Task)
    requires row.spec.id in st.rows && st.rows[row.spec.id] == row && row.spec.executionId in st.verdicts
    requires row.skipHint || row.spec.action in h.registry
    ensures var final := RunToIdle(h, w, st, Popped(row.spec.id));
            var spec := row.spec; var (e, id, ref) := (spec.executionId, spec.id, spec.refId);
            if row.skipHint then
              final == st.(rows := st.rows[id := row.(status := Skipped)],
                           terminated := st.terminated + [TaskTerminated(e, id, ref, TerminationSkipped)])
            else if h.succeeds(id, row.retryCount) then
              final == st.(rows := st.rows[id := row.(status := Completed, workerId := Some(w),
                                                      version := row.version + 1)],
                           completed := st.completed + [TaskCompleted(e, id, ref)])
            else if row.retryCount < spec.maxRetries then
              final == st.(rows := st.rows[id := row.(status := Pending, workerId := Some(w),
                                                      version := row.version + 2, retryCount := row.retryCount + 1)],
                           retryQueue := st.retryQueue + [id])
            else
              final == st.(rows := st.rows[id := row.(status := Failed, workerId := Some(w),
                                                      version := row.version + 1)],
                           verdicts := st.verdicts[e := WorkflowFailed],
                           terminated := st.terminated + [TaskTerminated(e, id, ref, TerminationFailed)])
  {
    UndisturbedLifecycle(h, w, st, row);
  }

  lemma OwnedLifecycle(h: Handlers, w: WorkerId, st: Store, st2: Store, row: Task)
    requires !row.skipHint && st2 == st.(rows := st.rows[row.spec.id := Taken(row, w)])
    ensures RunToIdle(h, w, st2, Owned(row.(version := row.version + 1))) == Lifecycle(h, w, st, row)
  {
    var m := row.(version := row.version + 1);
    if row.spec.action !in h.registry {
      UnknownLifecycle(h, w, st, st2, row);
    } else {
      var st3, pc3 := OneStatement(h, w, st2, Owned(m));
      assert st3 == st2;
      if h.succeeds(row.spec.id, row.retryCount) {
        SuccessCall(h, w, st2, m);
      } else if row.retryCount < row.spec.maxRetries {
        RetryCall(h, w, st2, m);
      } else {
        FailureCall(h, w, st2, m);
      }
    }
  }

  lemma UnknownLifecycle(h: Handlers, w: WorkerId, st: Store, st2: Store, row: Task)
    requires !row.skipHint && row.spec.action !in h.registry
    requires st2 == st.(rows := st.rows[row.spec.id := Taken(row, w)])
    ensures RunToIdle(h, w, st2, Owned(row.(version := row.version + 1))) == Lifecycle(h, w, st, row)
  {
    var m := row.(version := row.version + 1);
    UnknownCall(h, w, st2, m);
    var st3 := st2.(rows := st2.rows[row.spec.id := Taken(row, w).(status := Failed)],
                    verdicts := Charged(st2.verdicts, row.spec.executionId),
                    terminated := st2.terminated + [FailedEvent(row.spec)]);
    ChargedOnce(st.verdicts, row.spec.executionId);
    if row.retryCount < row.spec.maxRetries {
      RetryCall(h, w, st3, m);
    } else {
      FailureCall(h, w, st3, m);
      assert st.terminated + [FailedEvent(row.spec)] + [FailedEvent(row.spec)]
          == st.terminated + [FailedEvent(row.spec), FailedEvent(row.spec)];
    }
  }

  // ---- the coordinator ----

  /** Handling one event, with no interference, as Coordinator.HandleTaskCompleted and HandleTaskTerminated do. */
  lemma EventHandlingIsARun(c: Config, s: State, ready: seq<TaskId>) returns (steps: seq<Step>, s': State)
    requires Enabled(c, s, Resolve(ready))
    ensures Executes(c, s, steps, s') && s'.coordinator.Waiting?
    ensures s'.workers == s.workers && s'.submitters == s.submitters && s'.claims == s.claims
    ensures s'.log == s.log + [s.coordinator.event.taskId]
    ensures var ev := s.coordinator.event;
            && s'.mainQueue == s.mainQueue + ready
            && s'.store.rows == Decrement(s.store.rows, ev.executionId, ev.refId, ev.TaskTerminated?)
            && s'.store.verdicts == VerdictsAfter(s'.store.rows, s.store.verdicts, ev, ready)
            && s'.store == s.store.(rows := s'.store.rows, verdicts := s'.store.verdicts)
  {
    var s1 := After(c, s, Resolve(ready));
    var rest;
    if ready != [] {
      rest, s' := PushAllIsARun(c, s1);
    } else if s.coordinator.event.TaskCompleted? {
      rest, s' := CheckIsARun(c, s1);
    } else {
      rest, s' := [], s1;
    }
    FirstStep(c, s, Resolve(ready), rest, s');
    steps := [Resolve(ready)] + rest;
  }

  /** One turn of the coordinator's loop, with no interference, as Coordinator.HandleNext does. */
  lemma HandleNextIsARun(c: Config, s: State, pick: bool, ready: seq<TaskId>) returns (steps: seq<Step>, s': State)
    requires s.coordinator.Waiting? && Channel(s, pick) != [] && (pick <==> Channel(s, pick)[0].TaskCompleted?)
    requires NoDuplicates(ready)
    requires var ev := Channel(s, pick)[0];
             forall t :: t in ready <==>
               && t in s.store.rows && s.store.rows[t].spec.executionId == ev.executionId
               && ev.refId in s.store.rows[t].spec.dependencies && s.store.rows[t].inDegree == 1
    ensures Executes(c, s, steps, s') && s'.coordinator.Waiting?
    ensures s'.workers == s.workers && s'.submitters == s.submitters && s'.claims == s.claims
    ensures s'.mainQueue == s.mainQueue + ready && s'.store.retryQueue == s.store.retryQueue
    ensures s'.log == s.log + [Channel(s, pick)[0].taskId]
    ensures s'.store.completed == if pick then s.store.completed[1..] else s.store.completed
    ensures s'.store.terminated == if pick then s.store.terminated else s.store.terminated[1..]
    ensures var ev := Channel(s, pick)[0];
            && s'.store.rows == Decrement(s.store.rows, ev.executionId, ev.refId, !pick)
            && s'.store.verdicts == VerdictsAfter(s'.store.rows, s.store.verdicts, ev, ready)
  {
    var ev := Channel(s, pick)[0];
    var s1 := After(c, s, Take(pick));
    assert Enumerates(ready, ReadySet(s1.store.rows, ev.executionId, ev.refId));
    var rest;
    rest, s' := EventHandlingIsARun(c, s1, ready);
    FirstStep(c, s, Take(pick), rest, s');
    steps := [Take(pick)] + rest;
  }

  lemma {:induction false} PushAllIsARun(c: Config, s: State) returns (steps: seq<Step>, s': State)
    requires s.coordinator.Pushing? && s.coordinator.ready != []
    ensures Executes(c, s, steps, s')
    ensures s' == s.(mainQueue := s.mainQueue + s.coordinator.ready, coordinator := Waiting)
    decreases |s.coordinator.ready|
  {
    var ready := s.coordinator.ready;
    var s1 := After(c, s, CoordinatorPush);
    var rest;
    if ready[1..] == [] {
      rest, s' := [], s1;
      assert ready == [ready[0]];
    } else {
      rest, s' := PushAllIsARun(c, s1);
      assert s.mainQueue + [ready[0]] + ready[1..] == s.mainQueue + ready;
    }
    FirstStep(c, s, CoordinatorPush, rest, s');
    steps := [CoordinatorPush] + rest;
  }

  lemma CheckIsARun(c: Config, s: State) returns (steps: seq<Step>, s': State)
    requires s.coordinator.Checking?
    ensures Executes(c, s, steps, s')
    ensures s' == s.(coordinator := Waiting, store := s.store.(verdicts :=
                      if AllCompleted(s.store.rows, s.coordinator.execution)
                      then UpdatedStatus(s.store.verdicts, s.coordinator.execution, WorkflowCompleted)
                      else s.store.verdicts))
  {
    var s1 := After(c, s, Check);
    var rest;
    if AllCompleted(s.store.rows, s.coordinator.execution) {
      s' := After(c, s1, Decide);
      FirstStep(c, s1, Decide, [], s');
      rest := [Decide] + [];
    } else {
      rest, s' := [], s1;
    }
    FirstStep(c, s, Check, rest, s');
    steps := [Check] + rest;
  }

  // ---- submission ----

  lemma {:induction false} RootsAppend(specs: map<TaskId, TaskSpec>, ids: seq<TaskId>, id: TaskId)
    requires id in specs && forall t | t in ids :: t in specs
    ensures Roots(specs, ids + [id]) == Roots(specs, ids) + (if specs[id].dependencies == [] then [id] else [])
  {
    if ids == [] {
      assert ids + [id] == [id] && [id][1..] == [];
    } else {
      var head := if specs[ids[0]].dependencies == [] then [ids[0]] else [];
      var tail := if specs[id].dependencies == [] then [id] else [];
      RootsAppend(specs, ids[1..], id);
      assert (ids + [id])[0] == ids[0] && (ids + [id])[1..] == ids[1..] + [id];
      assert head + (Roots(specs, ids[1..]) + tail) == (head + Roots(specs, ids[1..])) + tail;
    }
  }

  /** The service queues exactly the protocol's roots, in request order. */
  lemma {:induction false} ServiceRoots(specs: map<TaskId, TaskSpec>, tasks: seq<Task>)
    requires forall i | 0 <= i < |tasks| ::
               && tasks[i].spec.id in specs
               && tasks[i].inDegree == |specs[tasks[i].spec.id].dependencies|
    ensures forall t | t in IdsOf(tasks) :: t in specs
    ensures IdsOf(RootsOf(tasks)) == Roots(specs, IdsOf(tasks))
  {
    if tasks != [] {
      var last := tasks[|tasks|-1];
      var rest := tasks[..|tasks|-1];
      ServiceRoots(specs, rest);
      RootsAppend(specs, IdsOf(rest), last.spec.id);
      assert IdsOf(tasks) == IdsOf(rest) + [last.spec.id];
      if last.inDegree == 0 {
        assert IdsOf(RootsOf(rest) + [last]) == IdsOf(RootsOf(rest)) + [last.spec.id];
      } else {
        assert RootsOf(tasks) == RootsOf(rest);
      }
    }
  }

  /** Pushing all roots of a workflow is a run of its submitter's steps. */
  lemma {:induction false} EnqueueIsARun(c: Config, s: State, e: ExecutionId) returns (steps: seq<Step>, s': State)
    requires e in s.submitters
    ensures Executes(c, s, steps, s')
    ensures s' == s.(mainQueue := s.mainQueue + s.submitters[e], submitters := s.submitters[e := []])
    decreases |s.submitters[e]|
  {
    var roots := s.submitters[e];
    if roots == [] {
      steps, s' := [], s;
      assert s.submitters[e := []] == s.submitters;
      assert s.mainQueue + [] == s.mainQueue;
    } else {
      var s1 := After(c, s, SubmitPush(e));
      var rest;
      rest, s' := EnqueueIsARun(c, s1, e);
      FirstStep(c, s, SubmitPush(e), rest, s');
      steps := [SubmitPush(e)] + rest;
      assert s.mainQueue + [roots[0]] + roots[1..] == s.mainQueue + roots;
      assert s.submitters[e := roots[1..]][e := []] == s.submitters[e := []];
    }
  }
}
