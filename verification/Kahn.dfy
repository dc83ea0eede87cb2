/** What the coordinator resolves, on arbitrary dependency lists. */
module Kahn {
  import opened Domain
  import opened TaskTable
  import opened Protocol
  import opened Tokens
  import opened Counting
  import opened Closure
  import opened ResolveStep
  import opened Verdict
  import opened Delivery
  import opened Reachability
  import opened Order

  // ---- what can no longer move ----

  lemma {:induction false} EnumerationExists(s: set<TaskId>) returns (xs: seq<TaskId>)
    ensures Enumerates(xs, s)
  {
    if s == {} {
      xs := [];
    } else {
      var x :| x in s;
      var rest := EnumerationExists(s - {x});
      xs := [x] + rest;
      assert forall y :: y in xs <==> y == x || y in rest;
    }
  }

  /** Both pools have a thread, as the server starts them. */
  ghost predicate Staffed(c: Config) {
    exists m, r :: m in c.workers && r in c.workers && c.workers[m].MainPool? && c.workers[r].RetryPool?
  }

  lemma CoordinatorCanMove(c: Config, s: State) returns (step: Step)
    requires Announced(s) && !s.coordinator.Waiting?
    ensures Allowed(Reliable, step) && Enabled(c, s, step)
  {
    match s.coordinator
    case Got(ev) =>
      var ready := EnumerationExists(ReadySet(s.store.rows, ev.executionId, ev.refId));
      step := Resolve(ready);
    case Pushing(_) => step := CoordinatorPush;
    case Checking(_) => step := Check;
    case Deciding(_) => step := Decide;
  }

  lemma CoordinatorWaits(c: Config, s: State)
    requires Quiescent(c, s) && Announced(s)
    ensures s.coordinator.Waiting? && s.store.completed == [] && s.store.terminated == []
  {
    if s.coordinator.Waiting? {
      assert !Enabled(c, s, Take(true));
      assert !Enabled(c, s, Take(false));
    } else {
      var step := CoordinatorCanMove(c, s);
    }
  }

  lemma WorkersWait(c: Config, s: State, w: WorkerId)
    requires Quiescent(c, s) && w in s.workers && w in c.workers
    ensures s.workers[w].Idle? && QueueOf(s, c.workers[w]) == []
  {
    assert !Enabled(c, s, Work(w));
    assert !Enabled(c, s, Pop(w));
  }

  lemma NothingHeld(c: Config, s: State, p: Place)
    requires Quiescent(c, s) && Announced(s) && RowsFit(c, s) && Staffed(c) && p != Processed
    ensures Holds(s, p) == []
  {
    CoordinatorWaits(c, s);
    var m, r :| m in c.workers && r in c.workers && c.workers[m].MainPool? && c.workers[r].RetryPool?;
    WorkersWait(c, s, m);
    WorkersWait(c, s, r);
    match p
    case WithSubmitter(e) => assert !Enabled(c, s, SubmitPush(e));
    case AtWorker(w) => if w in s.workers { WorkersWait(c, s, w); }
    case _ =>
  }

  /** When only blocked pops remain, a task was resolved or still waits for a dependency. */
  lemma QuiescentTask(c: Config, s: State, t: TaskId)
    requires Announced(s) && RowsFit(c, s) && Placed(c, s) && NoneLost(s)
    requires Quiescent(c, s) && Staffed(c) && t in c.specs
    ensures t in s.store.rows
    ensures t in s.log <==> s.store.rows[t].inDegree <= 0
  {
    assert t in s.log <==> At(s, Processed, t);
    if s.store.rows[t].inDegree <= 0 {
      var p :| At(s, p, t);
      if p != Processed {
        NothingHeld(c, s, p);
      }
    }
  }

  // ---- Kahn's algorithm ----

  /** On any dependency lists (cycles, dangling and duplicate entries included), the tasks resolved when nothing
      can move are exactly the least set closed under unlocking. */
  lemma ResolvedIsLeastClosed(c: Config, s: State)
    requires Sound(c) && Staffed(c) && Reachable(c, Reliable, s) && Quiescent(c, s)
    ensures LeastClosed(c, LogSet(s.log))
  {
    ReachableGood(c, s);
    ReachableInOrder(c, Reliable, s);
    QuiescentLeastClosed(c, s);
  }

  lemma QuiescentLeastClosed(c: Config, s: State)
    requires Base(c, s) && Ordered(c, s.log) && NoneLost(s) && Quiescent(c, s) && Staffed(c)
    ensures LeastClosed(c, LogSet(s.log))
  {
    forall t | t in c.specs && Unlocked(c, LogSet(s.log), t) ensures t in LogSet(s.log) {
      UnlockedHasParents(c, LogSet(s.log), t);
      QuiescentTask(c, s, t);
    }
    forall other | Closed(c, other) ensures LogSet(s.log) <= other {
      LogStaysInside(c, s.log, other);
    }
  }

  /** What was released is in every closed set. */
  lemma ReleasedIsInside(c: Config, s: State, t: TaskId, done: set<TaskId>)
    requires Orderly(c) && Tallied(c, s) && Ordered(c, s.log) && Closed(c, done)
    requires t in c.specs && t in s.store.rows && s.store.rows[t].inDegree <= 0
    ensures t in done
  {
    var least :| LeastClosed(c, least) && Balanced(c, least);
    ReleasedInOrder(c, s, least, t);
  }

  /** A workflow with a task that the least closed set misses is never COMPLETED, and that task never leaves PENDING. */
  lemma StuckWorkflowNeverCompletes(c: Config, mode: Mode, s: State, t: TaskId, done: set<TaskId>)
    requires Sound(c) && Reachable(c, mode, s) && !mode.Chaotic?
    requires t in c.specs && Closed(c, done) && t !in done
    ensures t in s.store.rows && s.store.rows[t].status == Pending && t in s.claims && s.claims[t] == 0
    ensures var e := c.specs[t].executionId; e in s.store.verdicts && s.store.verdicts[e] != WorkflowCompleted
  {
    ReachableSafe(c, mode, s);
    ReachableInOrder(c, mode, s);
    assert RowFits(c.handlers, s.store.rows[t], s.claims[t]);
    if s.store.rows[t].inDegree <= 0 {
      ReleasedIsInside(c, s, t, done);
    }
    assert VerdictFits(s, c.specs[t].executionId);
  }

  // ---- well-formed workflows ----

  /** No dangling or duplicate entry, and the dependencies go down in `rank`: the workflow is a DAG. */
  ghost predicate WellFormed(c: Config, e: ExecutionId, rank: map<TaskId, nat>) {
    forall t | t in c.specs && c.specs[t].executionId == e ::
      && t in rank
      && NoDuplicates(c.specs[t].dependencies)
      && (forall d | d in c.specs[t].dependencies :: Named(c, c.specs.Keys, e, d))
      && (forall u | Parent(c, u, t) :: u in rank && rank[u] < rank[t])
  }

  lemma {:induction false} WellFormedIsInside(c: Config, e: ExecutionId, rank: map<TaskId, nat>, done: set<TaskId>,
                    t: TaskId)
    requires WellFormed(c, e, rank) && Closed(c, done) && t in c.specs && c.specs[t].executionId == e
    ensures t in done
    decreases rank[t]
  {
    forall d | d in c.specs[t].dependencies ensures Named(c, done, e, d) {
      assert Named(c, c.specs.Keys, e, d);
      var u :| u in c.specs && c.specs[u].executionId == e && c.specs[u].refId == d;
      assert Parent(c, u, t);
      WellFormedIsInside(c, e, rank, done, u);
    }
    assert Unlocked(c, done, t);
  }

  ghost function IndexIn(log: seq<TaskId>, t: TaskId): nat
    ensures t in log ==> IndexIn(log, t) < |log| && log[IndexIn(log, t)] == t
  {
    if t in log then (var i :| 0 <= i < |log| && log[i] == t; i) else |log|
  }

  /** A logged parent is logged before its child. */
  lemma ParentFirst(c: Config, log: seq<TaskId>, u: TaskId, t: TaskId)
    requires Ordered(c, log) && NoDuplicates(log) && t in log && u in log && Parent(c, u, t)
    ensures IndexIn(log, u) < IndexIn(log, t)
  {
    var i := IndexIn(log, t);
    assert OrderedAt(c, log, i);
    var j :| 0 <= j < i && log[j] == u;
    assert IndexIn(log, u) == j;
  }

  lemma LeastClosedCoversWellFormed(c: Config, log: seq<TaskId>, e: ExecutionId)
    requires Ordered(c, log) && NoDuplicates(log) && Closed(c, LogSet(log))
    ensures (forall t | t in c.specs && c.specs[t].executionId == e :: t in log)
       <==> exists rank :: WellFormed(c, e, rank)
  {
    if rank :| WellFormed(c, e, rank) {
      forall t | t in c.specs && c.specs[t].executionId == e ensures t in log {
        WellFormedIsInside(c, e, rank, LogSet(log), t);
      }
    }
    if forall t | t in c.specs && c.specs[t].executionId == e :: t in log {
      ResolvedIsWellFormed(c, log, e);
    }
  }

  lemma LogOnce(s: State)
    requires OneToken(s)
    ensures NoDuplicates(s.log)
  {
    assert NoDuplicates(Holds(s, Processed));
  }

  /** At every moment, losses included, the coordinator's log is duplicate-free, all dependencies of a logged task name
      tasks logged before, and no parent is logged after its child. */
  lemma LogIsTopological(c: Config, mode: Mode, s: State)
    requires Sound(c) && Reachable(c, mode, s) && !mode.Chaotic?
    ensures NoDuplicates(s.log)
    ensures forall i | 0 <= i < |s.log| :: s.log[i] in c.specs && Unlocked(c, LogSet(s.log[..i]), s.log[i])
    ensures forall i, u | 0 <= i < |s.log| && u in s.log && Parent(c, u, s.log[i]) :: u in s.log[..i]
  {
    ReachableInOrder(c, mode, s);
    LogOnce(s);
    forall i | 0 <= i < |s.log|
      ensures s.log[i] in c.specs && Unlocked(c, LogSet(s.log[..i]), s.log[i])
      ensures forall u | u in s.log && Parent(c, u, s.log[i]) :: u in s.log[..i]
    {
      assert OrderedAt(c, s.log, i);
    }
  }

  lemma FinalLog(c: Config, s: State)
    requires Sound(c) && Staffed(c) && Reachable(c, Reliable, s) && Quiescent(c, s)
    ensures Ordered(c, s.log) && NoDuplicates(s.log) && Closed(c, LogSet(s.log))
  {
    ReachableInOrder(c, Reliable, s);
    LogOnce(s);
    ResolvedIsLeastClosed(c, s);
  }

  /** With reliable delivery a workflow has all its tasks resolved, when nothing can move, if and only if it is
      well-formed. */
  lemma AllResolvedIffWellFormed(c: Config, s: State, e: ExecutionId)
    requires Sound(c) && Staffed(c) && Reachable(c, Reliable, s) && Quiescent(c, s)
    ensures (forall t | t in c.specs && c.specs[t].executionId == e :: t in s.log)
       <==> exists rank :: WellFormed(c, e, rank)
  {
    FinalLog(c, s);
    LeastClosedCoversWellFormed(c, s.log, e);
  }

  lemma LoggedHasRank(c: Config, log: seq<TaskId>, rank: map<TaskId, nat>, t: TaskId)
    requires Ordered(c, log) && NoDuplicates(log) && t in log
    requires rank == map u | u in c.specs :: IndexIn(log, u)
    ensures t in c.specs && t in rank && NoDuplicates(c.specs[t].dependencies)
    ensures forall d | d in c.specs[t].dependencies :: Named(c, c.specs.Keys, c.specs[t].executionId, d)
    ensures forall u | u in log && Parent(c, u, t) :: u in rank && rank[u] < rank[t]
  {
    var i := IndexIn(log, t);
    assert OrderedAt(c, log, i);
    UnlockedKeys(c, LogSet(log[..i]), t);
    forall u | u in log && Parent(c, u, t) ensures u in rank && rank[u] < rank[t] {
      ParentFirst(c, log, u, t);
    }
  }

  lemma ResolvedIsWellFormed(c: Config, log: seq<TaskId>, e: ExecutionId)
    requires Ordered(c, log) && NoDuplicates(log)
    requires forall t | t in c.specs && c.specs[t].executionId == e :: t in log
    ensures exists rank :: WellFormed(c, e, rank)
  {
    var rank := map t | t in c.specs :: IndexIn(log, t);
    forall t | t in c.specs && c.specs[t].executionId == e
      ensures && t in rank && NoDuplicates(c.specs[t].dependencies)
              && (forall d | d in c.specs[t].dependencies :: Named(c, c.specs.Keys, e, d))
              && (forall u | Parent(c, u, t) :: u in rank && rank[u] < rank[t])
    {
      LoggedHasRank(c, log, rank, t);
    }
    assert WellFormed(c, e, rank);
  }

  lemma UnlockedKeys(c: Config, done: set<TaskId>, t: TaskId)
    requires t in c.specs && Unlocked(c, done, t)
    ensures forall d | d in c.specs[t].dependencies :: Named(c, c.specs.Keys, c.specs[t].executionId, d)
  {
    forall d | d in c.specs[t].dependencies ensures Named(c, c.specs.Keys, c.specs[t].executionId, d) {
      assert Named(c, done, c.specs[t].executionId, d);
    }
  }
}
