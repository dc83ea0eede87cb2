/** A stored request with a repeated reference, and a run of it that goes wrong with nothing lost. */
module EarlyRelease {
  import opened Domain
  import opened TaskTable
  import opened WorkerSteps
  import opened Protocol
  import opened Counting
  import opened Closure
  import opened Progress
  import opened Kahn
  import opened RetryBound
  import opened Refinement
  import opened RepeatedReferences

  const X := RefId("x")
  const Y := RefId("y")
  const ACTION := Action("a")

  /** Two tasks called x, one called y, and one that waits for both names. */
  function TwinSpec(id: TaskId): TaskSpec {
    if id < 2 then TaskSpec(id, 0, X, ACTION, [], 3)
    else if id == 2 then TaskSpec(id, 0, Y, ACTION, [], 3)
    else TaskSpec(id, 0, RefId("z"), ACTION, [X, Y], 3)
  }

  /** The request, stored as workflow 0, with a thread on each queue and a handler that never fails. */
  function TwinRequest(): Config {
    Config(
      map t: TaskId | 0 <= t < 4 :: TwinSpec(t),
      map[0 := [0, 1, 2, 3]],
      map[0 := MainPool, 1 := RetryPool],
      Handlers({ACTION}, (t, attempt) => true))
  }

  lemma TwinRoots(specs: map<TaskId, TaskSpec>)
    requires forall t | 0 <= t < 4 :: t in specs && specs[t] == TwinSpec(t)
    ensures Roots(specs, [0, 1, 2, 3]) == [0, 1, 2]
  {
    assert [0, 1, 2, 3][1..] == [1, 2, 3] && [1, 2, 3][1..] == [2, 3] && [2, 3][1..] == [3] && [3][1..] == [];
    assert Roots(specs, [3]) == [];
    assert Roots(specs, [2, 3]) == [2];
    assert Roots(specs, [1, 2, 3]) == [1, 2];
  }

  lemma TwinRequestIsStored()
    ensures var c := TwinRequest(); ValidConfig(c) && Registered(c) && Staffed(c)
  {
    var c := TwinRequest();
    assert c.workers[0].MainPool? && c.workers[1].RetryPool?;
  }

  /** Nothing is under way, and the submitter of workflow 0 still has `left` to push. */
  predicate Resting(s: State, left: seq<TaskId>) {
    && s.workers == map[0 := Idle, 1 := Idle] && s.coordinator.Waiting?
    && s.mainQueue == [] && s.store.retryQueue == [] && s.store.completed == [] && s.store.terminated == []
    && s.submitters == map[0 := left]
  }

  function CompletedRow(row: Task): Task {
    row.(status := Completed, workerId := Some(0), version := row.version + 1)
  }

  /** Worker 0 takes the queued task through an undisturbed lifecycle. */
  lemma WorkerCompletes(c: Config, s: State, t: TaskId) returns (s': State)
    requires Reachable(c, Reliable, s) && s.mainQueue == [t] && 0 in s.workers && s.workers[0].Idle?
    requires 0 in c.workers && c.workers[0].MainPool?
    requires t in s.store.rows && s.store.rows[t].spec.id == t && !s.store.rows[t].skipHint
    requires s.store.rows[t].spec.action in c.handlers.registry && c.handlers.succeeds(t, s.store.rows[t].retryCount)
    ensures Reachable(c, Reliable, s') && s'.mainQueue == []
    ensures s'.workers == s.workers && s'.submitters == s.submitters && s'.coordinator == s.coordinator
    ensures s'.log == s.log
    ensures s'.store == s.store.(rows := s.store.rows[t := CompletedRow(s.store.rows[t])],
                                 completed := s.store.completed + [CompletedEvent(s.store.rows[t].spec)])
  {
    var steps;
    steps, s' := ProcessNextTaskIsARun(c, s, 0);
    ExecutedIsReachable(c, Reliable, s, steps, s');
    UndisturbedLifecycle(c.handlers, 0, s.store, s.store.rows[t]);
  }

  lemma PushedState(c: Config, s: State, t: TaskId, rest: seq<TaskId>)
    requires s.mainQueue == [] && s.submitters == map[0 := [t] + rest]
    ensures Enabled(c, s, SubmitPush(0))
    ensures After(c, s, SubmitPush(0)) == s.(mainQueue := [t], submitters := map[0 := rest])
  {
    assert ([t] + rest)[1..] == rest && [] + [t] == [t];
    assert s.submitters[0 := rest] == map[0 := rest];
  }

  lemma RootIsPushed(c: Config, s: State, t: TaskId, rest: seq<TaskId>) returns (s': State)
    requires Reachable(c, Reliable, s) && Resting(s, [t] + rest)
    ensures Reachable(c, Reliable, s') && s' == s.(mainQueue := [t], submitters := map[0 := rest])
  {
    PushedState(c, s, t, rest);
    StepOn(c, Reliable, s, SubmitPush(0));
    s' := After(c, s, SubmitPush(0));
  }

  lemma EventIsTaken(c: Config, s: State, ev: Event) returns (s': State)
    requires Reachable(c, Reliable, s) && s.coordinator.Waiting? && s.store.completed == [ev]
    ensures Reachable(c, Reliable, s') && s' == s.(coordinator := Got(ev), store := s.store.(completed := []))
  {
    s' := After(c, s, Take(true));
    StepOn(c, Reliable, s, Take(true));
  }

  /** The next root is pushed and completed, and the coordinator has its event in hand. */
  lemma RootCompletes(c: Config, s: State, t: TaskId, rest: seq<TaskId>) returns (s': State)
    requires Reachable(c, Reliable, s) && Resting(s, [t] + rest) && 0 in c.workers && c.workers[0].MainPool?
    requires t in s.store.rows && s.store.rows[t].spec.id == t && !s.store.rows[t].skipHint
    requires s.store.rows[t].spec.action in c.handlers.registry && c.handlers.succeeds(t, s.store.rows[t].retryCount)
    ensures Reachable(c, Reliable, s')
    ensures s' == s.(submitters := map[0 := rest], coordinator := Got(CompletedEvent(s.store.rows[t].spec)),
                     store := s.store.(rows := s.store.rows[t := CompletedRow(s.store.rows[t])]), claims := s'.claims)
  {
    var s1 := RootIsPushed(c, s, t, rest);
    var s2 := WorkerCompletes(c, s1, t);
    s' := EventIsTaken(c, s2, CompletedEvent(s.store.rows[t].spec));
  }

  /** The next root is pushed, completed and resolved before anything else happens. */
  lemma RootResolves(c: Config, s: State, t: TaskId, rest: seq<TaskId>, ready: seq<TaskId>) returns (s': State)
    requires Reachable(c, Reliable, s) && Resting(s, [t] + rest) && 0 in c.workers && c.workers[0].MainPool?
    requires t in s.store.rows && s.store.rows[t].spec.id == t && !s.store.rows[t].skipHint
    requires s.store.rows[t].spec.action in c.handlers.registry && c.handlers.succeeds(t, s.store.rows[t].retryCount)
    requires var spec := s.store.rows[t].spec;
             Enumerates(ready, ReadySet(s.store.rows[t := CompletedRow(s.store.rows[t])], spec.executionId, spec.refId))
    ensures Reachable(c, Reliable, s') && s'.mainQueue == ready && s'.log == s.log + [t]
    ensures ready == [] ==> Resting(s', rest)
    ensures s'.workers == s.workers && s'.submitters == map[0 := rest]
    ensures var spec := s.store.rows[t].spec;
            s'.store.rows ==
              Decrement(s.store.rows[t := CompletedRow(s.store.rows[t])], spec.executionId, spec.refId, false)
  {
    var s1 := RootCompletes(c, s, t, rest);
    var steps;
    steps, s' := EventHandlingIsARun(c, s1, ready);
    ExecutedIsReachable(c, Reliable, s1, steps, s');
  }

  /** The stored rows once the first `k` of the two tasks called x were resolved. */
  predicate TwinRows(rows: Rows, k: nat) {
    && rows.Keys == {0, 1, 2, 3}
    && rows[0] == (if k >= 1 then CompletedRow(InitialRow(TwinSpec(0))) else InitialRow(TwinSpec(0)))
    && rows[1] == (if k >= 2 then CompletedRow(InitialRow(TwinSpec(1))) else InitialRow(TwinSpec(1)))
    && rows[2] == InitialRow(TwinSpec(2))
    && rows[3] == InitialRow(TwinSpec(3)).(inDegree := 2 - k, status := if k == 2 then Queued else Pending)
  }

  lemma TwinDecrements(rows: Rows, k: nat)
    requires k < 2 && TwinRows(rows, k)
    ensures var completed := rows[k := CompletedRow(rows[k])];
            && TwinRows(Decrement(completed, 0, X, false), k + 1)
            && ReadySet(completed, 0, X) == (if k == 1 then {3} else {})
  {
    var completed := rows[k := CompletedRow(rows[k])];
    assert X in TwinSpec(3).dependencies by { assert TwinSpec(3).dependencies[0] == X; }
    assert forall t | t in completed :: DependsOn(completed[t], 0, X) <==> t == 3;
  }

  /** Twice the same: the next task called x is resolved, and the waiting task counts one dependency less. */
  lemma TwinResolves(c: Config, s: State, k: nat, rest: seq<TaskId>) returns (s': State)
    requires k < 2 && TwinRows(s.store.rows, k) && Reachable(c, Reliable, s) && Resting(s, [k] + rest)
    requires 0 in c.workers && c.workers[0].MainPool? && ACTION in c.handlers.registry && c.handlers.succeeds(k, 0)
    ensures Reachable(c, Reliable, s') && s'.log == s.log + [k] && TwinRows(s'.store.rows, k + 1)
    ensures s'.workers == s.workers && s'.submitters == map[0 := rest]
    ensures if k == 0 then Resting(s', rest) else s'.mainQueue == [3]
  {
    TwinDecrements(s.store.rows, k);
    s' := RootResolves(c, s, k, rest, if k == 1 then [3] else []);
  }

  lemma FirstRows(specs: map<TaskId, TaskSpec>)
    requires specs.Keys == {0, 1, 2, 3} && forall t | t in specs :: specs[t] == TwinSpec(t)
    ensures TwinRows(InitialRows(specs), 0)
  {
  }

  lemma StartRests(c: Config, ids: seq<TaskId>)
    requires ValidConfig(c)
    requires c.order == map[0 := ids] && c.workers.Keys == {0, 1} && forall t | t in ids :: t in c.specs
    ensures Resting(Init(c), Roots(c.specs, ids))
  {
    assert Init(c).submitters == map[0 := Roots(c.specs, ids)];
    assert Init(c).workers == map[0 := Idle, 1 := Idle];
  }

  /** From the stored request on: both tasks called x, and then the task that waits. */
  lemma TwinRun(c: Config, start: State) returns (s: State)
    requires Reachable(c, Reliable, start) && Resting(start, [0, 1, 2]) && start.log == []
    requires TwinRows(start.store.rows, 0)
    requires 0 in c.workers && c.workers[0].MainPool? && ACTION in c.handlers.registry
    requires forall t, k :: c.handlers.succeeds(t, k)
    ensures Reachable(c, Reliable, s) && s.log == [0, 1] && s.submitters == map[0 := [2]]
    ensures 2 in s.store.rows && s.store.rows[2].status == Queued
    ensures 3 in s.store.rows && s.store.rows[3].status == Completed && s.store.rows[3].inDegree == 0
    ensures s.store.rows[3].version == 2 && s.store.rows[3].retryCount == 0
  {
    assert [0] + [1, 2] == [0, 1, 2] && [1] + [2] == [1, 2];
    s := TwinResolves(c, start, 0, [1, 2]);
    s := TwinResolves(c, s, 1, [2]);
    s := WorkerCompletes(c, s, 3);
  }

  lemma StoredTwins(c: Config, ids: seq<TaskId>) returns (s: State)
    requires ValidConfig(c) && c.order == map[0 := ids] && c.workers.Keys == {0, 1}
    requires forall t | t in ids :: t in c.specs
    requires c.specs.Keys == {0, 1, 2, 3} && forall t | t in c.specs :: c.specs[t] == TwinSpec(t)
    ensures Reachable(c, Reliable, s) && Resting(s, Roots(c.specs, ids)) && s.log == [] && TwinRows(s.store.rows, 0)
  {
    s := Init(c);
    StartsReachable(c);
    FirstRows(c.specs);
    StartRests(c, ids);
  }

  lemma TwinRequestMeaning(c: Config)
    requires c == TwinRequest()
    ensures ValidConfig(c) && Registered(c) && Staffed(c) && Parent(c, 2, 3)
    ensures c.order == map[0 := [0, 1, 2, 3]] && c.workers.Keys == {0, 1} && c.workers[0].MainPool?
    ensures c.specs.Keys == {0, 1, 2, 3} && forall t | t in c.specs :: c.specs[t] == TwinSpec(t)
    ensures ACTION in c.handlers.registry && forall t, k :: c.handlers.succeeds(t, k)
  {
    TwinRequestIsStored();
    assert Y in TwinSpec(3).dependencies by { assert TwinSpec(3).dependencies[1] == Y; }
  }

  /** With nothing lost, both tasks called x complete, and the task that waits for x and y is run to completion while y
      has not even been queued: the column has counted x twice, and order is broken. */
  lemma TwinsReleaseEarly(c: Config) returns (s: State)
    requires c == TwinRequest()
    ensures ValidConfig(c) && Registered(c) && Staffed(c) && Reachable(c, Reliable, s)
    ensures Parent(c, 2, 3) && s.log == [0, 1]
    ensures 2 in s.store.rows && s.store.rows[2].status == Queued && s.submitters == map[0 := [2]]
    ensures 3 in s.store.rows && s.store.rows[3].status == Completed && 3 in s.claims && s.claims[3] == 1
    ensures s.store.rows[3].inDegree == 0 && !Counted(c, s)
    ensures forall done | LeastClosed(c, done) :: !OrderKept(c, done, s)
  {
    TwinRequestMeaning(c);
    s := StoredTwinRun(c);
    TwinMiscounted(c, s);
    forall done | LeastClosed(c, done) ensures !OrderKept(c, done, s) {
      TwinOutOfOrder(c, done, s);
    }
  }

  lemma TwinMiscounted(c: Config, s: State)
    requires c.specs.Keys == {0, 1, 2, 3} && forall t | t in c.specs :: c.specs[t] == TwinSpec(t)
    requires s.log == [0, 1] && 3 in s.store.rows && s.store.rows[3].inDegree == 0
    ensures !Counted(c, s)
  {
    assert Y !in DoneRefs(c, s.log, 0);
    assert Y in DepSet(c.specs[3]) by { assert c.specs[3].dependencies[1] == Y; }
    CountMeaning(c, s.log, c.specs[3]);
  }

  lemma TwinOutOfOrder(c: Config, done: set<TaskId>, s: State)
    requires c.specs.Keys == {0, 1, 2, 3} && (forall t | t in c.specs :: c.specs[t] == TwinSpec(t)) && Parent(c, 2, 3)
    requires LeastClosed(c, done) && s.log == [0, 1] && 3 in s.store.rows && s.store.rows[3].inDegree == 0
    ensures !OrderKept(c, done, s)
  {
    assert Unlocked(c, done, 2);
    assert 2 in done && 2 !in s.log;
    assert !OrderKeptFor(c, done, s, 3);
  }

  lemma ClaimedOnce(c: Config, s: State, t: TaskId)
    requires Reachable(c, Reliable, s) && t in c.specs && t in s.store.rows
    requires s.store.rows[t].version == 2 && s.store.rows[t].retryCount == 0
    ensures t in s.claims && s.claims[t] == 1
  {
    RetriesAreBounded(c, Reliable, s, t);
  }

  lemma StoredTwinRun(c: Config) returns (s: State)
    requires ValidConfig(c) && c.order == map[0 := [0, 1, 2, 3]] && c.workers.Keys == {0, 1} && c.workers[0].MainPool?
    requires c.specs.Keys == {0, 1, 2, 3} && forall t | t in c.specs :: c.specs[t] == TwinSpec(t)
    requires ACTION in c.handlers.registry && forall t, k :: c.handlers.succeeds(t, k)
    ensures Reachable(c, Reliable, s) && s.log == [0, 1] && s.submitters == map[0 := [2]]
    ensures 2 in s.store.rows && s.store.rows[2].status == Queued
    ensures 3 in s.store.rows && s.store.rows[3].status == Completed && 3 in s.claims && s.claims[3] == 1
    ensures s.store.rows[3].inDegree == 0
  {
    TwinRoots(c.specs);
    s := StoredTwins(c, [0, 1, 2, 3]);
    s := TwinRun(c, s);
    ClaimedOnce(c, s, 3);
  }

  // ---- a repetition that does no harm ----

  /** Two tasks called x, and one on x and on two names nobody has. */
  function LooseSpec(id: TaskId): TaskSpec {
    TaskSpec(id, 0, if id < 2 then X else RefId("w"), ACTION, if id < 2 then [] else [X, Y, RefId("z")], 3)
  }

  /** Order does not need references that can be told apart: here the two called x share one that is listed, and still
      nothing is ever released out of order. */
  lemma LooseIsBalanced(c: Config)
    requires c.specs.Keys == {0, 1, 2} && forall t | t in c.specs :: c.specs[t] == LooseSpec(t)
    ensures LeastClosed(c, {0, 1}) && Balanced(c, {0, 1}) && !ToldApart(c, {0, 1})
  {
    forall other | Closed(c, other) ensures {0, 1} <= other {
      assert Unlocked(c, other, 0) && Unlocked(c, other, 1);
    }
    assert !Named(c, {0, 1}, 0, Y) && Y in LooseSpec(2).dependencies by { assert LooseSpec(2).dependencies[1] == Y; }
    assert X in LooseSpec(2).dependencies by { assert LooseSpec(2).dependencies[0] == X; }
    assert Closed(c, {0, 1});
    assert Parent(c, 0, 2) && Listed(c, 0) && Twins(c, 0, 1);
    forall t | t in c.specs ensures BalancedAt(c, {0, 1}, t) {
      if t == 2 {
        assert ParentsIn(c, {0, 1}, t) == {0, 1};
      } else {
        assert ParentsIn(c, {0, 1}, t) == {};
      }
    }
  }
}
