/** What a run computes: it does not depend on the interleaving. */
module Outcome {
  import opened Domain
  import opened TaskTable
  import opened WorkerSteps
  import opened Protocol
  import opened Tokens
  import opened TokenSteps
  import opened Counting
  import opened Invariant
  import opened Closure
  import opened Order
  import opened Kahn

  // ---- parents and ancestors ----

  /** A set of tasks whose members are resolved before whatever waits for them is released: what a balanced request lets
      run, or any closed set whose listed references can be told apart (with unique references, all tasks). */
  ghost predicate Accountable(c: Config, done: set<TaskId>) {
    (LeastClosed(c, done) && Balanced(c, done)) || (Closed(c, done) && ToldApart(c, done))
  }

  lemma AccountableIsOrderly(c: Config, done: set<TaskId>)
    requires Accountable(c, done)
    ensures Orderly(c)
  {
    if Closed(c, done) && ToldApart(c, done) {
      var least := LeastClosedExists(c);
      FewerToldApart(c, done, least);
      ToldApartIsBalanced(c, least);
    }
  }

  /** A parent, in such a set, of a released task has been resolved. */
  lemma ParentResolved(c: Config, s: State, done: set<TaskId>, u: TaskId, t: TaskId)
    requires Accountable(c, done) && Tallied(c, s) && Ordered(c, s.log)
    requires u in done && Parent(c, u, t) && t in s.store.rows && s.store.rows[t].inDegree <= 0
    ensures u in s.log
  {
    AccountableIsOrderly(c, done);
    var least :| LeastClosed(c, least) && Balanced(c, least);
    ReleasedInOrder(c, s, least, t);
    if LeastClosed(c, done) {
      LeastClosedIsUnique(c, done, least);
    } else {
      LogStaysInside(c, s.log, done);
      assert Named(c, LogSet(s.log), c.specs[t].executionId, c.specs[u].refId);
      var v :| v in LogSet(s.log) && v in c.specs && c.specs[v].executionId == c.specs[t].executionId
               && c.specs[v].refId == c.specs[u].refId;
      assert Twins(c, u, v) && Listed(c, u);
    }
  }

  lemma LoggedIsTerminal(c: Config, s: State, t: TaskId)
    requires Placed(c, s) && t in s.log
    ensures t in s.store.rows && s.store.rows[t].Terminal() && s.store.rows[t].inDegree <= 0
  {
    assert At(s, Processed, t);
  }

  /** `path` follows dependencies downwards, from an ancestor to a strict descendant, through tasks of `done`. */
  ghost predicate Path(c: Config, done: set<TaskId>, path: seq<TaskId>) {
    && |path| >= 2
    && (forall i | 0 <= i < |path| :: path[i] in done)
    && forall i | 0 <= i < |path| - 1 :: Link(c, path, i)
  }

  ghost predicate Link(c: Config, path: seq<TaskId>, i: nat)
    requires i < |path| - 1
  {
    Parent(c, path[i], path[i+1])
  }

  /** The hint of a task is set by each resolved parent that did not complete. */
  lemma ParentTaints(c: Config, s: State, u: TaskId, t: TaskId)
    requires Hinted(c, s) && Placed(c, s) && Parent(c, u, t) && u in s.log && t in s.store.rows
    ensures u in s.store.rows
    ensures s.store.rows[u].status != Completed ==> s.store.rows[t].skipHint
  {
    LoggedIsTerminal(c, s, u);
    assert HintFits(c, s, t);
    assert s.store.rows[u].status != Completed ==> Taints(c, s, u, t);
  }

  /** Whenever a task has been claimed, all its strict ancestors in the set are COMPLETED; losses included. */
  lemma DependencySafety(c: Config, mode: Mode, s: State, done: set<TaskId>, path: seq<TaskId>, i: nat)
    requires Stored(c) && Accountable(c, done) && Reachable(c, mode, s) && !mode.Chaotic?
    requires Path(c, done, path) && i < |path| - 1
    requires path[|path|-1] in s.claims && s.claims[path[|path|-1]] > 0
    ensures path[i] in s.store.rows && s.store.rows[path[i]].status == Completed
  {
    AccountableIsOrderly(c, done);
    ReachableInOrder(c, mode, s);
    ClaimsDoRest(c, s, done);
    ClaimedAncestors(c, s, done, path, i);
  }

  lemma ClaimedParent(c: Config, s: State, done: set<TaskId>, u: TaskId, t: TaskId)
    requires Accountable(c, done) && Inv(c, s)
    requires Parent(c, u, t) && u in done && s.claims[t] > 0
    ensures u in s.store.rows && s.store.rows[u].status == Completed && s.claims[u] > 0
  {
    assert RowFits(c.handlers, s.store.rows[t], s.claims[t]) && StrictRow(s.store.rows[t], s.claims[t]);
    ParentResolved(c, s, done, u, t);
    ParentTaints(c, s, u, t);
    assert RowFits(c.handlers, s.store.rows[u], s.claims[u]);
  }

  /** A claimed task's parents completed, and so were claimed. */
  ghost predicate ClaimsRest(c: Config, s: State, done: set<TaskId>) {
    forall u, t | u in done && Parent(c, u, t) && t in s.claims && s.claims[t] > 0 ::
      u in s.store.rows && s.store.rows[u].status == Completed && u in s.claims && s.claims[u] > 0
  }

  lemma ClaimsDoRest(c: Config, s: State, done: set<TaskId>)
    requires Accountable(c, done) && Inv(c, s)
    ensures ClaimsRest(c, s, done)
  {
    forall u, t | u in done && Parent(c, u, t) && t in s.claims && s.claims[t] > 0
      ensures u in s.store.rows && s.store.rows[u].status == Completed && u in s.claims && s.claims[u] > 0
    {
      ClaimedParent(c, s, done, u, t);
    }
  }

  lemma {:induction false} ClaimedAncestors(c: Config, s: State, done: set<TaskId>, path: seq<TaskId>, i: nat)
    requires ClaimsRest(c, s, done) && Path(c, done, path) && i < |path| - 1
    requires path[|path|-1] in s.claims && s.claims[path[|path|-1]] > 0
    ensures path[i] in s.store.rows && s.store.rows[path[i]].status == Completed
    ensures path[i] in s.claims && s.claims[path[i]] > 0
    decreases |path| - i
  {
    assert Link(c, path, i);
    if i < |path| - 2 {
      ClaimedAncestors(c, s, done, path, i + 1);
    }
  }

  // ---- what a worker fetches ----

  /** A parent that is finished, of a task that was released, has been resolved. */
  lemma FinishedParentResolved(c: Config, s: State, u: TaskId, t: TaskId)
    requires Orderly(c) && Tallied(c, s) && Ordered(c, s.log) && Parent(c, u, t) && u in s.store.rows
    requires t in s.store.rows
    requires s.store.rows[t].inDegree <= 0 && s.store.rows[u].inDegree <= 0
    ensures u in s.log
  {
    var done :| LeastClosed(c, done) && Balanced(c, done);
    ReleasedInOrder(c, s, done, u);
    ReleasedInOrder(c, s, done, t);
  }

  ghost predicate FailedParent(c: Config, rows: Rows, u: TaskId, t: TaskId) {
    Parent(c, u, t) && u in rows && (rows[u].status == Failed || rows[u].status == Skipped)
  }

  lemma ReleasedHint(c: Config, s: State, t: TaskId)
    requires Orderly(c) && Inv(c, s) && t in c.specs && s.store.rows[t].inDegree <= 0
    ensures s.store.rows[t].skipHint <==> exists u :: FailedParent(c, s.store.rows, u, t)
  {
    assert HintFits(c, s, t);
    if u :| Taints(c, s, u, t) {
      LoggedIsTerminal(c, s, u);
      assert FailedParent(c, s.store.rows, u, t);
    }
    if u :| FailedParent(c, s.store.rows, u, t) {
      assert RowFits(c.handlers, s.store.rows[u], s.claims[u]);
      FinishedParentResolved(c, s, u, t);
      assert Taints(c, s, u, t);
    }
  }

  /** A worker skips what it fetched exactly when, at that moment and at every later one before it acts, some parent has
      FAILED or was SKIPPED; losses included, and on retries as on the first attempt. */
  lemma FetchedHint(c: Config, mode: Mode, s: State, w: WorkerId)
    requires Sound(c) && Reachable(c, mode, s) && !mode.Chaotic?
    requires w in s.workers && s.workers[w].Fetched?
    ensures s.workers[w].task.skipHint <==> exists u :: FailedParent(c, s.store.rows, u, s.workers[w].task.spec.id)
  {
    ReachableInOrder(c, mode, s);
    HeldRow(c, s, w);
    assert FreshSnapshot(s, s.workers[w].task);
    ReleasedHint(c, s, s.workers[w].task.spec.id);
  }

  // ---- the failure cone ----

  ghost predicate HasFailedAncestor(c: Config, done: set<TaskId>, rows: Rows, t: TaskId) {
    exists path :: FailedPath(c, done, rows, path, t)
  }

  ghost predicate FailedPath(c: Config, done: set<TaskId>, rows: Rows, path: seq<TaskId>, t: TaskId) {
    Path(c, done, path) && path[|path|-1] == t && path[0] in rows && rows[path[0]].status == Failed
  }

  lemma FinishedChild(c: Config, s: State, done: set<TaskId>, u: TaskId, t: TaskId)
    requires Accountable(c, done) && Inv(c, s)
    requires Parent(c, u, t) && u in done && s.store.rows[t].Terminal()
    ensures s.store.rows[u].Terminal()
    ensures s.store.rows[u].status != Completed ==> s.store.rows[t].status == Skipped
  {
    assert RowFits(c.handlers, s.store.rows[t], s.claims[t]);
    ParentResolved(c, s, done, u, t);
    LoggedIsTerminal(c, s, u);
    ParentTaints(c, s, u, t);
  }

  /** A finished task's parents are finished, and it was skipped if one of them did not complete. */
  ghost predicate SkipsRest(c: Config, done: set<TaskId>, rows: Rows) {
    forall u, t | u in done && Parent(c, u, t) && t in rows && rows[t].Terminal() ::
      u in rows && rows[u].Terminal() && (rows[u].status != Completed ==> rows[t].status == Skipped)
  }

  lemma SkipsDoRest(c: Config, s: State, done: set<TaskId>)
    requires Accountable(c, done) && Inv(c, s)
    ensures SkipsRest(c, done, s.store.rows)
  {
    forall u, t | u in done && Parent(c, u, t) && t in s.store.rows && s.store.rows[t].Terminal()
      ensures u in s.store.rows && s.store.rows[u].Terminal()
      ensures s.store.rows[u].status != Completed ==> s.store.rows[t].status == Skipped
    {
      FinishedChild(c, s, done, u, t);
    }
  }

  lemma {:induction false} AncestorsFinished(c: Config, done: set<TaskId>, rows: Rows, path: seq<TaskId>, i: nat)
    requires SkipsRest(c, done, rows) && Path(c, done, path) && i < |path|
    requires path[|path|-1] in rows && rows[path[|path|-1]].Terminal()
    ensures path[i] in rows && rows[path[i]].Terminal()
    decreases |path| - i
  {
    if i < |path| - 1 {
      AncestorsFinished(c, done, rows, path, i + 1);
      assert Link(c, path, i);
    }
  }

  /** Below a failed task everything finished was skipped. */
  lemma {:induction false} FailurePropagates(c: Config, done: set<TaskId>, rows: Rows, path: seq<TaskId>, i: nat)
    requires SkipsRest(c, done, rows) && Path(c, done, path) && 0 < i < |path| && path[0] in rows
    requires rows[path[0]].status == Failed
    requires path[|path|-1] in rows && rows[path[|path|-1]].Terminal()
    ensures path[i] in rows && rows[path[i]].status == Skipped
    decreases i
  {
    if i > 1 {
      FailurePropagates(c, done, rows, path, i - 1);
    }
    AncestorsFinished(c, done, rows, path, i);
    assert Link(c, path, i - 1);
  }

  /** A skipped task has a resolved parent that failed or was itself skipped. */
  lemma SkippedParent(c: Config, s: State, t: TaskId) returns (u: TaskId)
    requires Placed(c, s) && Hinted(c, s) && RowsFit(c, s)
    requires t in c.specs && s.store.rows[t].status == Skipped
    ensures Parent(c, u, t) && u in s.log && u in s.store.rows
    ensures s.store.rows[u].status == Failed || s.store.rows[u].status == Skipped
  {
    assert RowFits(c.handlers, s.store.rows[t], s.claims[t]);
    assert HintFits(c, s, t);
    u :| Taints(c, s, u, t);
    LoggedIsTerminal(c, s, u);
  }

  lemma FailedPathGrows(c: Config, done: set<TaskId>, rows: Rows, u: TaskId, t: TaskId)
    requires Parent(c, u, t) && t in done && HasFailedAncestor(c, done, rows, u)
    ensures HasFailedAncestor(c, done, rows, t)
  {
    var path :| FailedPath(c, done, rows, path, u);
    var longer := path + [t];
    forall i | 0 <= i < |longer| - 1 ensures Link(c, longer, i) {
      assert i < |path| - 1 ==> Link(c, path, i);
    }
    assert FailedPath(c, done, rows, longer, t);
  }

  lemma {:induction false} SkippedHasCause(c: Config, s: State, done: set<TaskId>, t: TaskId)
    requires Placed(c, s) && Hinted(c, s) && RowsFit(c, s)
    requires Ordered(c, s.log) && NoDuplicates(s.log) && LogSet(s.log) <= done
    requires t in done && t in c.specs && s.store.rows[t].status == Skipped
    ensures HasFailedAncestor(c, done, s.store.rows, t)
    decreases IndexIn(s.log, t)
  {
    var u := SkippedParent(c, s, t);
    assert u in LogSet(s.log);
    if s.store.rows[u].status == Failed {
      assert Link(c, [u, t], 0);
      assert FailedPath(c, done, s.store.rows, [u, t], t);
    } else {
      if t in s.log {
        ParentFirst(c, s.log, u, t);
      }
      SkippedHasCause(c, s, done, u);
      FailedPathGrows(c, done, s.store.rows, u, t);
    }
  }

  lemma CauseSkips(c: Config, done: set<TaskId>, rows: Rows, t: TaskId)
    requires SkipsRest(c, done, rows) && t in rows && rows[t].Terminal() && HasFailedAncestor(c, done, rows, t)
    ensures rows[t].status == Skipped
  {
    var path :| FailedPath(c, done, rows, path, t);
    FailurePropagates(c, done, rows, path, |path| - 1);
  }

  /** In every reachable state, losses included: a finished task is SKIPPED exactly when a strict ancestor in the set
      FAILED; so failed tasks never lie above one another. */
  lemma FailureCone(c: Config, mode: Mode, s: State, done: set<TaskId>, t: TaskId)
    requires Stored(c) && Accountable(c, done) && Reachable(c, mode, s) && !mode.Chaotic?
    requires t in c.specs && t in s.store.rows && s.store.rows[t].Terminal()
    ensures s.store.rows[t].status == Skipped <==> HasFailedAncestor(c, done, s.store.rows, t)
  {
    AccountableIsOrderly(c, done);
    ReachableInOrder(c, mode, s);
    LogOnce(s);
    LogStaysInside(c, s.log, done);
    SkipsDoRest(c, s, done);
    if s.store.rows[t].status == Skipped {
      FinishedIsInside(c, s, done, t);
      SkippedHasCause(c, s, done, t);
    } else if HasFailedAncestor(c, done, s.store.rows, t) {
      CauseSkips(c, done, s.store.rows, t);
    }
  }

  lemma FinishedIsInside(c: Config, s: State, done: set<TaskId>, t: TaskId)
    requires Orderly(c) && Inv(c, s) && Closed(c, done) && t in c.specs && s.store.rows[t].Terminal()
    ensures t in done
  {
    assert RowFits(c.handlers, s.store.rows[t], s.claims[t]);
    ReleasedIsInside(c, s, t, done);
  }

  // ---- confluence ----

  /** A finished row is determined by its skip hint and the handler's answers. */
  lemma FinishedRowDetermined(h: Handlers, row: Task, claims: nat, row': Task, claims': nat)
    requires RowFits(h, row, claims) && RowFits(h, row', claims') && StrictRow(row, claims) && StrictRow(row', claims')
    requires row.spec == row'.spec && row.inDegree <= 0 && row'.inDegree <= 0
    requires row.Terminal() && row'.Terminal() && row.skipHint == row'.skipHint
    ensures row'.(workerId := row.workerId) == row && claims' == claims
  {
    if row.retryCount < row'.retryCount {
      assert false;
    }
    if row'.retryCount < row.retryCount {
      assert false;
    }
  }

  /** The two runs agree on a task, up to which worker ran it. */
  ghost predicate SameFinish(s: State, s': State, t: TaskId) {
    && t in s.store.rows && t in s'.store.rows && t in s.claims && t in s'.claims
    && s'.store.rows[t].(workerId := s.store.rows[t].workerId) == s.store.rows[t]
    && s'.claims[t] == s.claims[t]
  }

  lemma SameTaints(c: Config, s: State, s': State, t: TaskId)
    requires forall u | u in s.log && Parent(c, u, t) :: u in s'.log && SameFinish(s, s', u)
    requires forall u | u in s'.log && Parent(c, u, t) :: u in s.log
    ensures (exists u :: Taints(c, s, u, t)) <==> (exists u :: Taints(c, s', u, t))
  {
    if u :| Taints(c, s, u, t) {
      assert Taints(c, s', u, t);
    }
    if u :| Taints(c, s', u, t) {
      assert Taints(c, s, u, t);
    }
  }

  lemma {:induction false} SameLogged(c: Config, s: State, s': State, t: TaskId)
    requires Inv(c, s) && Inv(c, s') && LogSet(s.log) == LogSet(s'.log) && t in s.log
    ensures SameFinish(s, s', t)
    decreases IndexIn(s.log, t)
  {
    assert t in LogSet(s.log);
    assert t in s'.log;
    LoggedIsTerminal(c, s, t);
    LoggedIsTerminal(c, s', t);
    LogOnce(s);
    forall u | u in s.log && Parent(c, u, t) ensures u in s'.log && SameFinish(s, s', u) {
      ParentFirst(c, s.log, u, t);
      assert u in LogSet(s'.log);
      SameLogged(c, s, s', u);
    }
    forall u | u in s'.log && Parent(c, u, t) ensures u in s.log {
      assert u in LogSet(s.log);
    }
    assert HintFits(c, s, t) && HintFits(c, s', t);
    SameTaints(c, s, s', t);
    assert StrictRow(s.store.rows[t], s.claims[t]) && StrictRow(s'.store.rows[t], s'.claims[t]);
    FinishedRowDetermined(c.handlers, s.store.rows[t], s.claims[t], s'.store.rows[t], s'.claims[t]);
  }
}
