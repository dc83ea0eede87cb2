/** Every run that can go no further ends in the same tables. */
module Confluence {
  import opened Domain
  import opened TaskTable
  import opened WorkerSteps
  import opened Protocol
  import opened Tokens
  import opened Counting
  import opened Invariant
  import opened Verdict
  import opened Delivery
  import opened Reachability
  import opened Order
  import opened Kahn
  import opened Outcome

  // ---- rows ----

  /** A row that still waits is determined by its counters. */
  lemma WaitingRowDetermined(h: Handlers, row: Task, claims: nat, row': Task, claims': nat)
    requires RowFits(h, row, claims) && RowFits(h, row', claims') && row.spec == row'.spec
    requires row.inDegree == row'.inDegree && row.inDegree > 0 && row.skipHint == row'.skipHint
    ensures row'.(workerId := row.workerId) == row && claims' == claims
  {
  }

  lemma SameHints(c: Config, s: State, s': State, t: TaskId)
    requires Hinted(c, s) && Hinted(c, s') && LogSet(s.log) == LogSet(s'.log)
    requires forall u | u in s.log :: SameFinish(s, s', u)
    requires t in c.specs && t in s.store.rows && t in s'.store.rows
    ensures s.store.rows[t].skipHint == s'.store.rows[t].skipHint
  {
    assert forall u :: u in s.log <==> u in LogSet(s.log);
    assert forall u :: u in s'.log <==> u in LogSet(s'.log);
    assert HintFits(c, s, t) && HintFits(c, s', t);
    SameTaints(c, s, s', t);
  }

  lemma SameWaiting(c: Config, s: State, s': State, t: TaskId)
    requires RowsFit(c, s) && RowsFit(c, s') && Tallied(c, s) && Tallied(c, s') && LogSet(s.log) == LogSet(s'.log)
    requires t in c.specs && s.store.rows[t].inDegree > 0 && s.store.rows[t].skipHint == s'.store.rows[t].skipHint
    ensures SameFinish(s, s', t)
  {
    WaitingRowDetermined(c.handlers, s.store.rows[t], s.claims[t], s'.store.rows[t], s'.claims[t]);
  }

  lemma SameLog(c: Config, s: State, s': State)
    requires Sound(c) && Staffed(c)
    requires Reachable(c, Reliable, s) && Quiescent(c, s) && Reachable(c, Reliable, s') && Quiescent(c, s')
    ensures LogSet(s.log) == LogSet(s'.log)
  {
    ResolvedIsLeastClosed(c, s);
    ResolvedIsLeastClosed(c, s');
  }

  lemma AllLoggedSame(c: Config, s: State, s': State)
    requires Inv(c, s) && Inv(c, s') && LogSet(s.log) == LogSet(s'.log)
    ensures forall u | u in s.log :: SameFinish(s, s', u)
  {
    forall u | u in s.log ensures SameFinish(s, s', u) {
      SameLogged(c, s, s', u);
    }
  }

  /** Two runs of the same workflows that can go no further agree on every task: status, retries, version, in-degree,
      skip hint and number of executions. Only the worker that ran a task may differ. */
  lemma Confluent(c: Config, s: State, s': State, t: TaskId)
    requires Sound(c) && Staffed(c)
    requires Reachable(c, Reliable, s) && Quiescent(c, s) && Reachable(c, Reliable, s') && Quiescent(c, s')
    requires t in c.specs
    ensures SameFinish(s, s', t)
  {
    SameLog(c, s, s');
    ReachableGood(c, s);
    ReachableInOrder(c, Reliable, s);
    ReachableInOrder(c, Reliable, s');
    AllLoggedSame(c, s, s');
    QuiescentTask(c, s, t);
    if t !in s.log {
      SameHints(c, s, s', t);
      SameWaiting(c, s, s', t);
    }
  }

  // ---- verdicts ----

  ghost function ExpectedVerdict(rows: Rows, e: ExecutionId): WorkflowStatus {
    if AllCompleted(rows, e) then WorkflowCompleted
    else if SomeFailed(rows, e) then WorkflowFailed
    else WorkflowRunning
  }

  lemma AllCompletedAllDone(c: Config, s: State, e: ExecutionId)
    requires Announced(s) && RowsFit(c, s) && Placed(c, s) && NoneLost(s) && Quiescent(c, s) && Staffed(c)
    requires e in c.order && c.order[e] != [] && AllCompleted(s.store.rows, e)
    ensures AllDone(c, s, e)
  {
    forall t | t in c.specs && c.specs[t].executionId == e ensures t in s.log && s.store.rows[t].status == Completed {
      QuiescentTask(c, s, t);
      assert RowFits(c.handlers, s.store.rows[t], s.claims[t]);
    }
  }

  lemma FailureIsDeclared(c: Config, s: State, e: ExecutionId)
    requires RowsFit(c, s) && FailureSeen(s) && Quiescent(c, s) && SomeFailed(s.store.rows, e)
    ensures VerdictFailedFor(s, e)
  {
    var t :| t in s.store.rows && s.store.rows[t].spec.executionId == e && s.store.rows[t].status == Failed;
    assert FailureSeenFor(s, t);
    if w :| Declaring(s, w, t) {
      WorkersWait(c, s, w);
    }
  }

  /** When nothing can move, a non-empty workflow is COMPLETED exactly when all its tasks are, FAILED exactly when
      one of them failed, and otherwise still RUNNING: the completion filter loses no verdict. */
  lemma FinalVerdict(c: Config, s: State, e: ExecutionId)
    requires Stored(c) && Staffed(c) && Reachable(c, Reliable, s) && Quiescent(c, s)
    requires e in c.order && c.order[e] != []
    ensures e in s.store.verdicts && s.store.verdicts[e] == ExpectedVerdict(s.store.rows, e)
  {
    ReachableGood(c, s);
    CoordinatorWaits(c, s);
    NotBoth(s.store.rows, e);
    assert VerdictFits(s, e);
    if AllCompleted(s.store.rows, e) {
      AllCompletedAllDone(c, s, e);
      assert Judged(s, e);
    } else if SomeFailed(s.store.rows, e) {
      FailureIsDeclared(c, s, e);
    }
  }

  /** So the verdicts of two such runs agree as well. */
  lemma ConfluentVerdicts(c: Config, s: State, s': State, e: ExecutionId)
    requires Sound(c) && Staffed(c)
    requires Reachable(c, Reliable, s) && Quiescent(c, s) && Reachable(c, Reliable, s') && Quiescent(c, s')
    requires e in c.order && c.order[e] != []
    ensures e in s.store.verdicts && e in s'.store.verdicts && s.store.verdicts[e] == s'.store.verdicts[e]
  {
    FinalVerdict(c, s, e);
    FinalVerdict(c, s', e);
    StoredTasks(c, s);
    StoredTasks(c, s');
    forall t | t in c.specs ensures SameFinish(s, s', t) {
      Confluent(c, s, s', t);
    }
    SameVerdict(s, s', e);
  }

  lemma StoredTasks(c: Config, s: State)
    requires Stored(c) && Reachable(c, Reliable, s)
    ensures s.store.rows.Keys == c.specs.Keys
  {
    ReachableGood(c, s);
  }

  lemma SameVerdict(s: State, s': State, e: ExecutionId)
    requires s.store.rows.Keys == s'.store.rows.Keys && forall t | t in s.store.rows :: SameFinish(s, s', t)
    ensures ExpectedVerdict(s.store.rows, e) == ExpectedVerdict(s'.store.rows, e)
  {
    forall t | t in s.store.rows
      ensures s'.store.rows[t].status == s.store.rows[t].status && s'.store.rows[t].spec == s.store.rows[t].spec
    {
      assert SameFinish(s, s', t);
    }
  }
}
