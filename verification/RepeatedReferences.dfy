/** Requests with repeated references: exactly which of them run in order, and for which the in-degree column counts
    references. */
module RepeatedReferences {
  import opened Domain
  import opened TaskTable
  import opened Protocol
  import opened TokenSteps
  import opened Counting
  import opened Closure
  import opened ResolveStep
  import opened Invariant
  import opened Delivery
  import opened Termination
  import opened Progress
  import opened Reachability
  import opened Order
  import opened Kahn

  // ---- runs that stay in order for as long as they can ----

  ghost predicate Harmless(c: Config, s: State) {
    Inv(c, s) && NoneLost(s)
  }

  lemma StepHarmless(c: Config, s: State, step: Step)
    requires Registered(c) && Harmless(c, s) && Fresh(c, s) && Enabled(c, s, step) && Allowed(Reliable, step)
    ensures Harmless(c, After(c, s, step)) && Budget(After(c, s, step)) < Budget(s)
  {
    StepKeepsOrder(c, s, step);
    StepKeepsNoneLost(c, s, step);
    StepDrops(c, s, step);
  }

  /** A reliable run either comes to handle an event out of order, or comes to an end without one. */
  lemma {:induction false} StrayOrEnd(c: Config, s: State) returns (s': State)
    requires Registered(c) && Reachable(c, Reliable, s) && Harmless(c, s)
    ensures Reachable(c, Reliable, s') && Harmless(c, s') && (!Fresh(c, s') || Quiescent(c, s'))
    decreases Budget(s)
  {
    if !Fresh(c, s) || Quiescent(c, s) {
      s' := s;
    } else {
      var step :| Allowed(Reliable, step) && Enabled(c, s, step);
      StepOn(c, Reliable, s, step);
      StepHarmless(c, s, step);
      s' := StrayOrEnd(c, After(c, s, step));
    }
  }

  lemma InitHarmless(c: Config)
    requires ValidConfig(c)
    ensures Harmless(c, Init(c))
  {
    InitGood(c);
    InitInv(c);
  }

  lemma FirstStray(c: Config) returns (s: State)
    requires Stored(c)
    ensures Reachable(c, Reliable, s) && Harmless(c, s) && (!Fresh(c, s) || Quiescent(c, s))
  {
    InitHarmless(c);
    StartsReachable(c);
    s := StrayOrEnd(c, Init(c));
  }

  // ---- dependency order ----

  /** Whatever was released had all its dependencies resolved, and all its parents that can run. */
  ghost predicate OrderKept(c: Config, done: set<TaskId>, s: State) {
    forall t | t in c.specs && t in s.store.rows && s.store.rows[t].inDegree <= 0 :: OrderKeptFor(c, done, s, t)
  }

  ghost predicate OrderKeptFor(c: Config, done: set<TaskId>, s: State, t: TaskId)
    requires t in c.specs
  {
    Unlocked(c, LogSet(s.log), t) && forall u | u in done && Parent(c, u, t) :: u in s.log
  }

  ghost predicate KeepsOrder(c: Config, mode: Mode, done: set<TaskId>) {
    forall s | Reachable(c, mode, s) :: OrderKept(c, done, s)
  }

  lemma BalancedKeepsOrder(c: Config, mode: Mode, done: set<TaskId>)
    requires Stored(c) && LeastClosed(c, done) && Balanced(c, done) && !mode.Chaotic?
    ensures KeepsOrder(c, mode, done)
  {
    forall s | Reachable(c, mode, s) ensures OrderKept(c, done, s) {
      ReachableInOrder(c, mode, s);
      forall t | t in c.specs && t in s.store.rows && s.store.rows[t].inDegree <= 0
        ensures OrderKeptFor(c, done, s, t)
      {
        ReleasedInOrder(c, s, done, t);
      }
    }
  }

  /** As long as order is kept, events are handled in order. */
  lemma OrderKeptIsFresh(c: Config, done: set<TaskId>, s: State)
    requires LeastClosed(c, done) && TokenInv(c, s) && Ordered(c, s.log) && OrderKept(c, done, s)
    ensures Fresh(c, s)
  {
    if s.coordinator.Got? {
      EventIsNew(c, s);
      var u := s.coordinator.event.taskId;
      assert OrderKeptFor(c, done, s, u);
      LogStaysInside(c, s.log, done);
      UnlockedMonotone(c, LogSet(s.log), done, u);
      forall t | Parent(c, u, t) ensures t in s.store.rows && s.store.rows[t].inDegree > 0 {
        assert s.store.rows[t].inDegree <= 0 ==> OrderKeptFor(c, done, s, t);
      }
    }
  }

  lemma StrayBreaksOrder(c: Config, done: set<TaskId>, s: State)
    requires LeastClosed(c, done) && TokenInv(c, s) && Ordered(c, s.log) && !Fresh(c, s)
    ensures !OrderKept(c, done, s)
  {
    if OrderKept(c, done, s) {
      OrderKeptIsFresh(c, done, s);
    }
  }

  /** A run that ends without one shows that the request is balanced. */
  lemma EndIsBalanced(c: Config, done: set<TaskId>, s: State)
    requires LeastClosed(c, done) && Harmless(c, s) && Quiescent(c, s) && Staffed(c)
    ensures LogSet(s.log) == done && Balanced(c, done)
  {
    QuiescentLeastClosed(c, s);
    LeastClosedIsUnique(c, done, LogSet(s.log));
    forall t | t in c.specs ensures BalancedAt(c, done, t) {
      QuiescentTask(c, s, t);
      assert StrictRow(s.store.rows[t], s.claims[t]);
      assert t in s.log <==> t in done;
    }
  }

  lemma UnbalancedBreaksOrder(c: Config, done: set<TaskId>) returns (s: State)
    requires Stored(c) && Staffed(c) && LeastClosed(c, done) && !Balanced(c, done)
    ensures Reachable(c, Reliable, s) && !OrderKept(c, done, s)
  {
    s := FirstStray(c);
    if Fresh(c, s) {
      EndIsBalanced(c, done, s);
      assert false;
    }
    StrayBreaksOrder(c, done, s);
  }

  /** In every run, whatever is lost and whatever the handlers answer, no task is released before its dependencies are
      resolved, and all its parents that can run, if and only if no task has more parents that can run than its list is
      long, and as many only if it can run itself. */
  lemma DependencyOrderExactly(c: Config, mode: Mode, done: set<TaskId>)
    requires Stored(c) && Staffed(c) && LeastClosed(c, done) && !mode.Chaotic?
    ensures KeepsOrder(c, mode, done) <==> Balanced(c, done)
  {
    if Balanced(c, done) {
      BalancedKeepsOrder(c, mode, done);
    } else {
      var s := UnbalancedBreaksOrder(c, done);
      MoreMayHappen(c, mode, s);
    }
  }

  // ---- the in-degree column ----

  /** In every reachable state the in-degree of each task is the length of its list less the distinct references
      resolved. */
  ghost predicate Counts(c: Config, mode: Mode) {
    forall s | Reachable(c, mode, s) :: Counted(c, s)
  }

  lemma ToldApartCounts(c: Config, s: State, done: set<TaskId>)
    requires Tallied(c, s) && LogSet(s.log) <= done && ToldApart(c, done)
    ensures Counted(c, s)
  {
    FewerToldApart(c, done, LogSet(s.log));
    forall t | t in c.specs && t in s.store.rows
      ensures s.store.rows[t].inDegree == |c.specs[t].dependencies| - |DoneDeps(c, s.log, c.specs[t])|
    {
      OneParentPerRef(c, LogSet(s.log), t);
      ReadyMeansUnlocked(c, s.log, t);
    }
  }

  /** The in-degree column is the length of the dependency list less the distinct references already resolved. */
  lemma InDegreeFormula(c: Config, mode: Mode, s: State, done: set<TaskId>, t: TaskId)
    requires Stored(c) && LeastClosed(c, done) && ToldApart(c, done)
    requires Reachable(c, mode, s) && !mode.Chaotic? && t in c.specs
    ensures t in s.store.rows
    ensures s.store.rows[t].inDegree == |c.specs[t].dependencies| - |DoneDeps(c, s.log, c.specs[t])|
    ensures s.store.rows[t].inDegree >= 0
    ensures s.store.rows[t].inDegree == 0 <==> Ready(c, s.log, c.specs[t])
  {
    ToldApartIsBalanced(c, done);
    ReachableInOrder(c, mode, s);
    LogStaysInside(c, s.log, done);
    ToldApartCounts(c, s, done);
    CountMeaning(c, s.log, c.specs[t]);
  }

  /** Two resolved tasks that share a listed reference make the column wrong. */
  lemma TwinsUncount(c: Config, s: State, u: TaskId, v: TaskId, t: TaskId)
    requires Tallied(c, s) && u in s.log && v in s.log && u != v && Twins(c, u, v) && Parent(c, u, t)
    requires t in s.store.rows
    ensures !Counted(c, s)
  {
    var us := ParentsIn(c, LogSet(s.log), t);
    assert u in us && v in us;
    SharedRefs(c, us, u, v);
    ReadyMeansUnlocked(c, s.log, t);
  }

  /** An event out of order either shows a wrong column, or makes one. */
  lemma StrayUncounts(c: Config, s: State) returns (s': State)
    requires Registered(c) && Reachable(c, Reliable, s) && Base(c, s) && !Fresh(c, s)
    ensures Reachable(c, Reliable, s') && !Counted(c, s')
  {
    EventIsNew(c, s);
    var ev := s.coordinator.event;
    var u := ev.taskId;
    if !Counted(c, s) {
      s' := s;
    } else {
      CountMeaning(c, s.log, c.specs[u]);
      ReadyMeansUnlocked(c, s.log, u);
      var t :| Parent(c, u, t) && t in s.store.rows && s.store.rows[t].inDegree <= 0;
      var v := LoggedTwin(c, s, u, t);
      var ready := EnumerationExists(ReadySet(s.store.rows, ev.executionId, ev.refId));
      StepOn(c, Reliable, s, Resolve(ready));
      s' := After(c, s, Resolve(ready));
      ResolveKeeps(c, s, ready);
      ResolveLogs(c, s, ready);
      TwinsUncount(c, s', u, v, t);
    }
  }

  lemma LoggedTwin(c: Config, s: State, u: TaskId, t: TaskId) returns (v: TaskId)
    requires Counted(c, s) && Parent(c, u, t) && t in s.store.rows && s.store.rows[t].inDegree <= 0
    ensures v in s.log && Twins(c, u, v)
  {
    CountMeaning(c, s.log, c.specs[t]);
    assert c.specs[u].refId in DepSet(c.specs[t]);
    v :| v in s.log && v in c.specs && c.specs[v].executionId == c.specs[t].executionId
         && c.specs[v].refId == c.specs[u].refId;
  }

  lemma EndUncounts(c: Config, done: set<TaskId>, s: State)
    requires Tallied(c, s) && s.store.rows.Keys == c.specs.Keys && LogSet(s.log) == done && !ToldApart(c, done)
    ensures !Counted(c, s)
  {
    var u, v :| u in done && v in done && Twins(c, u, v) && Listed(c, u) && u != v;
    var t :| Parent(c, u, t);
    assert u in LogSet(s.log) && v in LogSet(s.log);
    TwinsUncount(c, s, u, v, t);
  }

  lemma SharedReferenceUncounts(c: Config, done: set<TaskId>) returns (s: State)
    requires Stored(c) && Staffed(c) && LeastClosed(c, done) && !ToldApart(c, done)
    ensures Reachable(c, Reliable, s) && !Counted(c, s)
  {
    s := FirstStray(c);
    if Fresh(c, s) {
      EndIsBalanced(c, done, s);
      EndUncounts(c, done, s);
    } else {
      s := StrayUncounts(c, s);
    }
  }

  /** In every run, whatever is lost and whatever the handlers answer, the in-degree column counts distinct references,
      if and only if no two tasks of a workflow that its dependency lists let run share a reference that one of its
      tasks lists. */
  lemma InDegreesExactly(c: Config, mode: Mode, done: set<TaskId>)
    requires Stored(c) && Staffed(c) && LeastClosed(c, done) && !mode.Chaotic?
    ensures Counts(c, mode) <==> ToldApart(c, done)
  {
    if ToldApart(c, done) {
      forall s | Reachable(c, mode, s) ensures Counted(c, s) {
        ToldApartIsBalanced(c, done);
        ReachableInOrder(c, mode, s);
        LogStaysInside(c, s.log, done);
        ToldApartCounts(c, s, done);
      }
    } else {
      var s := SharedReferenceUncounts(c, done);
      MoreMayHappen(c, mode, s);
    }
  }
}
