/** What a workflow computes, as a function of the request and of the handlers' answers. */
module Evaluation {
  import opened Domain
  import opened TaskTable
  import opened WorkerSteps
  import opened Protocol
  import opened Tokens
  import opened Counting
  import opened Closure
  import opened Invariant
  import opened Verdict
  import opened Reachability
  import opened Order
  import opened Kahn
  import opened Outcome
  import opened Confluence

  // ---- the recursive evaluation ----

  predicate Succeeds(h: Handlers, spec: TaskSpec) {
    exists k: nat | k <= spec.maxRetries :: h.succeeds(spec.id, k)
  }

  /** The dependencies inside `done` go down in `rank`. */
  ghost predicate Ranked(c: Config, done: set<TaskId>, rank: map<TaskId, nat>) {
    forall t | t in done :: RankedAt(c, done, rank, t)
  }

  ghost predicate RankedAt(c: Config, done: set<TaskId>, rank: map<TaskId, nat>, t: TaskId) {
    && t in c.specs && t in rank
    && forall u | u in done && Parent(c, u, t) :: u in rank && rank[u] < rank[t]
  }

  /** Parents first: SKIPPED below anything that did not complete, else what the handler's attempts give. */
  ghost function Evaluated(c: Config, done: set<TaskId>, rank: map<TaskId, nat>, t: TaskId): TaskStatus
    requires Ranked(c, done, rank) && t in done
    decreases rank[t]
  {
    if exists u :: u in done && Parent(c, u, t) && Evaluated(c, done, rank, u) != Completed then Skipped
    else if Succeeds(c.handlers, c.specs[t]) then Completed
    else Failed
  }

  lemma {:induction false} RankDoesNotMatter(c: Config, done: set<TaskId>, rank: map<TaskId, nat>, rank': map<TaskId,
                    nat>, t: TaskId)
    requires Ranked(c, done, rank) && Ranked(c, done, rank') && t in done
    ensures Evaluated(c, done, rank, t) == Evaluated(c, done, rank', t)
    decreases rank[t]
  {
    forall u | u in done && Parent(c, u, t) ensures Evaluated(c, done, rank, u) == Evaluated(c, done, rank', u) {
      RankDoesNotMatter(c, done, rank, rank', u);
    }
  }

  /** What a balanced request lets run can be ranked, parents first. */
  lemma LeastClosedIsRanked(c: Config, done: set<TaskId>) returns (rank: map<TaskId, nat>)
    requires LeastClosed(c, done) && Balanced(c, done)
    ensures Ranked(c, done, rank)
  {
    var log := LeastClosedHasOrder(c, done);
    rank := LogIsRanked(c, log);
  }

  lemma LogIsRanked(c: Config, log: seq<TaskId>) returns (rank: map<TaskId, nat>)
    requires Ordered(c, log) && NoDuplicates(log)
    ensures Ranked(c, LogSet(log), rank)
  {
    rank := map u | u in c.specs :: IndexIn(log, u);
    forall t | t in LogSet(log) ensures RankedAt(c, LogSet(log), rank, t) {
      LoggedHasRank(c, log, rank, t);
    }
  }

  // ---- rows ----

  /** A finished, untainted row says whether the handler ever succeeded. */
  lemma UntaintedRow(h: Handlers, row: Task, claims: nat)
    requires RowFits(h, row, claims) && StrictRow(row, claims) && row.Terminal()
    ensures row.skipHint <==> row.status == Skipped
    ensures !row.skipHint ==> (row.status == Completed <==> Succeeds(h, row.spec))
  {
    if row.status == Completed {
      assert h.succeeds(row.spec.id, row.retryCount);
    }
  }

  /** `done` was resolved, with every resolved parent of its tasks. */
  ghost predicate Covered(c: Config, log: seq<TaskId>, done: set<TaskId>) {
    done <= LogSet(log) && forall u, t | t in done && u in log && Parent(c, u, t) :: u in done
  }

  /** A resolved task has the status of the evaluation, even while others of its workflow are still under way. */
  lemma {:induction false} ResolvedEvaluates(c: Config, s: State, done: set<TaskId>, rank: map<TaskId, nat>, t: TaskId)
    requires Placed(c, s) && RowsFit(c, s) && StrictRows(c, s) && Hinted(c, s) && Covered(c, s.log, done)
    requires Ranked(c, done, rank) && t in done
    ensures t in s.store.rows && s.store.rows[t].status == Evaluated(c, done, rank, t)
    decreases rank[t]
  {
    assert t in s.log by { assert t in LogSet(s.log); }
    LoggedIsTerminal(c, s, t);
    forall u | u in s.log && Parent(c, u, t)
      ensures u in done && u in s.store.rows && s.store.rows[u].status == Evaluated(c, done, rank, u)
    {
      ResolvedEvaluates(c, s, done, rank, u);
    }
    HintEvaluates(c, s, done, rank, t);
    assert StrictRow(s.store.rows[t], s.claims[t]);
    UntaintedRow(c.handlers, s.store.rows[t], s.claims[t]);
  }

  lemma HintEvaluates(c: Config, s: State, done: set<TaskId>, rank: map<TaskId, nat>, t: TaskId)
    requires Hinted(c, s) && Covered(c, s.log, done) && Ranked(c, done, rank) && t in done && t in s.store.rows
    requires forall u | u in s.log && Parent(c, u, t) ::
               u in done && u in s.store.rows && s.store.rows[u].status == Evaluated(c, done, rank, u)
    ensures s.store.rows[t].skipHint
       <==> exists u :: u in done && Parent(c, u, t) && Evaluated(c, done, rank, u) != Completed
  {
    assert HintFits(c, s, t);
    if u :| Taints(c, s, u, t) {
      assert u in done && Parent(c, u, t) && Evaluated(c, done, rank, u) != Completed;
    }
    if u :| u in done && Parent(c, u, t) && Evaluated(c, done, rank, u) != Completed {
      assert u in LogSet(s.log);
      assert Taints(c, s, u, t);
    }
  }

  /** At every moment, losses included, what was resolved has the status of the recursive evaluation. */
  lemma LoggedEvaluates(c: Config, mode: Mode, s: State, rank: map<TaskId, nat>, t: TaskId)
    requires Sound(c) && Reachable(c, mode, s) && !mode.Chaotic?
    requires Ranked(c, LogSet(s.log), rank) && t in LogSet(s.log)
    ensures t in s.store.rows && s.store.rows[t].status == Evaluated(c, LogSet(s.log), rank, t)
  {
    ReachableInOrder(c, mode, s);
    ResolvedEvaluates(c, s, LogSet(s.log), rank, t);
  }

  /** On any dependency lists, when nothing can move: what the lists let run ended with the status of the recursive
      evaluation, and everything else is still PENDING. */
  lemma MatchesEvaluation(c: Config, s: State, done: set<TaskId>, rank: map<TaskId, nat>, t: TaskId)
    requires Sound(c) && Staffed(c) && Reachable(c, Reliable, s) && Quiescent(c, s)
    requires LeastClosed(c, done) && Ranked(c, done, rank) && t in c.specs
    ensures t in s.store.rows
    ensures t in done ==> s.store.rows[t].status == Evaluated(c, done, rank, t)
    ensures t !in done ==> s.store.rows[t].status == Pending
  {
    ResolvedIsLeastClosed(c, s);
    LeastClosedIsUnique(c, done, LogSet(s.log));
    if t in done {
      LoggedEvaluates(c, Reliable, s, rank, t);
    } else {
      StuckWorkflowNeverCompletes(c, Reliable, s, t, done);
    }
  }

  // ---- verdicts ----

  /** The verdict of a workflow with tasks, from the request alone. */
  ghost function VerdictOf(c: Config, done: set<TaskId>, rank: map<TaskId, nat>, e: ExecutionId): WorkflowStatus
    requires Ranked(c, done, rank)
  {
    if forall t | t in TasksOf(c, e) :: t in done && Evaluated(c, done, rank, t) == Completed then WorkflowCompleted
    else if exists t | t in TasksOf(c, e) :: t in done && Evaluated(c, done, rank, t) == Failed then WorkflowFailed
    else WorkflowRunning
  }

  /** On any dependency lists, when nothing can move, a non-empty workflow is COMPLETED if all its tasks can run and
      evaluate to COMPLETED, FAILED if one that can run evaluates to FAILED, and otherwise RUNNING for ever. */
  lemma VerdictIsEvaluated(c: Config, s: State, e: ExecutionId, done: set<TaskId>, rank: map<TaskId, nat>)
    requires Sound(c) && Staffed(c) && Reachable(c, Reliable, s) && Quiescent(c, s)
    requires e in c.order && c.order[e] != [] && LeastClosed(c, done) && Ranked(c, done, rank)
    ensures e in s.store.verdicts && s.store.verdicts[e] == VerdictOf(c, done, rank, e)
  {
    FinalVerdict(c, s, e);
    StoredSpecs(c, s);
    forall t | t in c.specs
      ensures s.store.rows[t].status == if t in done then Evaluated(c, done, rank, t) else Pending
    {
      MatchesEvaluation(c, s, done, rank, t);
    }
    EvaluatedVerdict(c, s.store.rows, e, done, rank);
  }

  lemma EvaluatedVerdict(c: Config, rows: Rows, e: ExecutionId, done: set<TaskId>, rank: map<TaskId, nat>)
    requires rows.Keys == c.specs.Keys && (forall t | t in c.specs :: rows[t].spec == c.specs[t])
    requires Ranked(c, done, rank)
    requires forall t | t in c.specs :: rows[t].status == if t in done then Evaluated(c, done, rank, t) else Pending
    ensures ExpectedVerdict(rows, e) == VerdictOf(c, done, rank, e)
  {
    if t :| t in TasksOf(c, e) && t in done && Evaluated(c, done, rank, t) == Failed {
      assert rows[t].status == Failed;
    }
  }

  // ---- well-formed workflows ----

  /** All tasks of a workflow can run if and only if it is well-formed. */
  lemma AllRunIffWellFormed(c: Config, done: set<TaskId>, e: ExecutionId)
    requires LeastClosed(c, done) && Balanced(c, done)
    ensures TasksOf(c, e) <= done <==> exists rank :: WellFormed(c, e, rank)
  {
    var log := LeastClosedHasOrder(c, done);
    LeastClosedCoversWellFormed(c, log, e);
    assert forall t :: t in done <==> t in log;
  }

  /** No deadlock, and the right answer: in a well-formed workflow, when nothing can move, every task ended with the
      status of the recursive evaluation of its workflow. */
  lemma WellFormedEvaluates(c: Config, s: State, e: ExecutionId, rank: map<TaskId, nat>, t: TaskId)
    requires Sound(c) && Staffed(c) && Reachable(c, Reliable, s) && Quiescent(c, s)
    requires WellFormed(c, e, rank) && t in TasksOf(c, e)
    ensures t in s.store.rows && s.store.rows[t].status == Evaluated(c, TasksOf(c, e), rank, t)
  {
    AllResolvedIffWellFormed(c, s, e);
    ReachableInOrder(c, Reliable, s);
    ResolvedEvaluates(c, s, TasksOf(c, e), rank, t);
  }

  lemma {:induction false} FailedAbove(c: Config, e: ExecutionId, rank: map<TaskId, nat>, t: TaskId) returns (u: TaskId)
    requires Ranked(c, TasksOf(c, e), rank) && t in TasksOf(c, e)
    requires Evaluated(c, TasksOf(c, e), rank, t) != Completed
    ensures u in TasksOf(c, e) && Evaluated(c, TasksOf(c, e), rank, u) == Failed
    decreases rank[t]
  {
    if Evaluated(c, TasksOf(c, e), rank, t) == Failed {
      u := t;
    } else {
      var v :| v in TasksOf(c, e) && Parent(c, v, t) && Evaluated(c, TasksOf(c, e), rank, v) != Completed;
      u := FailedAbove(c, e, rank, v);
    }
  }

  /** A non-empty well-formed workflow always gets its verdict: COMPLETED if every task evaluates to COMPLETED,
      otherwise FAILED, with a failed task to show for it. */
  lemma WellFormedVerdict(c: Config, s: State, e: ExecutionId, rank: map<TaskId, nat>)
    requires Sound(c) && Staffed(c) && Reachable(c, Reliable, s) && Quiescent(c, s)
    requires e in c.order && c.order[e] != [] && WellFormed(c, e, rank)
    ensures e in s.store.verdicts
    ensures if forall t | t in TasksOf(c, e) :: Evaluated(c, TasksOf(c, e), rank, t) == Completed
            then s.store.verdicts[e] == WorkflowCompleted
            else s.store.verdicts[e] == WorkflowFailed && SomeFailed(s.store.rows, e)
  {
    FinalVerdict(c, s, e);
    StoredSpecs(c, s);
    forall t | t in TasksOf(c, e) ensures s.store.rows[t].status == Evaluated(c, TasksOf(c, e), rank, t) {
      WellFormedEvaluates(c, s, e, rank, t);
    }
    if t :| t in TasksOf(c, e) && Evaluated(c, TasksOf(c, e), rank, t) != Completed {
      var u := FailedAbove(c, e, rank, t);
      assert s.store.rows[u].status == Failed;
      NotBoth(s.store.rows, e);
    }
  }

  lemma StoredSpecs(c: Config, s: State)
    requires Stored(c) && Reachable(c, Reliable, s)
    ensures s.store.rows.Keys == c.specs.Keys && forall t | t in c.specs :: s.store.rows[t].spec == c.specs[t]
  {
    ReachableGood(c, s);
  }
}
