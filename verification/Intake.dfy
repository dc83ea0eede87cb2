/** A request stored at any moment of a run: what the handler leaves behind is as if the workflow had been there from
    the start. */
module Intake {
  import opened Domain
  import opened TaskTable
  import opened WorkerSteps
  import opened Protocol
  import opened Tokens
  import opened Counting
  import opened Invariant
  import opened Reachability
  import opened Order
  import opened Kahn
  import opened Outcome
  import opened Evaluation
  import opened Projection
  import opened LateSubmission
  import opened Submission
  import opened Refinement

  // ---- the configuration with one more workflow ----

  /** The identifiers are new and distinct. */
  ghost predicate NewIds(c: Config, execution: ExecutionId, ids: seq<TaskId>) {
    && execution !in c.order
    && (forall i | 0 <= i < |ids| :: ids[i] !in c.specs)
    && forall i, j | 0 <= i < j < |ids| :: ids[i] != ids[j]
  }

  /** `c'` has the workflows of `c` and `ids` as one more, in this order. */
  ghost predicate OneMore(c: Config, c': Config, execution: ExecutionId, ids: seq<TaskId>) {
    && SameParties(c, c') && c'.order == c.order[execution := ids]
    && (forall t :: t in c'.specs <==> t in c.specs || t in ids)
    && forall t | t in c.specs :: c'.specs[t] == c.specs[t]
  }

  /** Its tasks are the requested ones, with the default limit of 3. */
  ghost predicate Requested(c': Config, execution: ExecutionId, ids: seq<TaskId>, requests: seq<TaskRequest>) {
    && |ids| == |requests|
    && forall i | 0 <= i < |ids| ::
         && ids[i] in c'.specs
         && c'.specs[ids[i]] == TaskSpec(ids[i], execution, requests[i].refId, requests[i].action,
                                         requests[i].dependencies, 3)
  }

  ghost function Submitted(c: Config, execution: ExecutionId, ids: seq<TaskId>, requests: seq<TaskRequest>): Config
    requires |ids| == |requests|
  {
    var specs := map t | t in ids ::
                   var request := requests[IndexIn(ids, t)];
                   TaskSpec(t, execution, request.refId, request.action, request.dependencies, 3);
    c.(specs := c.specs + specs, order := c.order[execution := ids])
  }

  /** There is such a configuration for every request with new identifiers. */
  lemma SubmittedMeaning(c: Config, execution: ExecutionId, ids: seq<TaskId>, requests: seq<TaskRequest>)
    requires |ids| == |requests| && NewIds(c, execution, ids)
    ensures OneMore(c, Submitted(c, execution, ids, requests), execution, ids)
    ensures Requested(Submitted(c, execution, ids, requests), execution, ids, requests)
  {
    forall t | t in c.specs ensures t !in ids {}
    forall i | 0 <= i < |ids| ensures IndexIn(ids, ids[i]) == i {
      assert ids[i] in ids;
    }
  }

  lemma OneMoreIsValid(c: Config, c': Config, execution: ExecutionId, ids: seq<TaskId>)
    requires ValidConfig(c) && NewIds(c, execution, ids) && OneMore(c, c', execution, ids)
    requires forall t | t in ids :: c'.specs[t].id == t && c'.specs[t].executionId == execution
    ensures ValidConfig(c')
  {
  }

  lemma RequestedIds(c': Config, execution: ExecutionId, ids: seq<TaskId>, requests: seq<TaskRequest>)
    requires Requested(c', execution, ids, requests)
    ensures forall t | t in ids :: t in c'.specs && c'.specs[t].id == t && c'.specs[t].executionId == execution
  {
    forall t | t in ids ensures t in c'.specs && c'.specs[t].id == t && c'.specs[t].executionId == execution {
      var i :| 0 <= i < |ids| && ids[i] == t;
    }
  }

  // ---- the roots in the queue ----

  /** The roots of a stored request, position by position. */
  lemma {:induction false} RequestedRoots(specs: map<TaskId, TaskSpec>, ids: seq<TaskId>, requests: seq<TaskRequest>)
    requires |ids| == |requests|
    requires forall i | 0 <= i < |ids| :: ids[i] in specs && specs[ids[i]].dependencies == requests[i].dependencies
    ensures |Roots(specs, ids)| == RootRequests(requests)
    ensures forall i | 0 <= i < |ids| && requests[i].dependencies == [] ::
              && RootRequests(requests[..i]) < RootRequests(requests)
              && Roots(specs, ids)[RootRequests(requests[..i])] == ids[i]
  {
    if ids != [] {
      var n := |ids| - 1;
      RequestedRoots(specs, ids[..n], requests[..n]);
      RootsAppend(specs, ids[..n], ids[n]);
      assert ids == ids[..n] + [ids[n]];
      forall i | 0 <= i < |ids| && requests[i].dependencies == []
        ensures RootRequests(requests[..i]) < RootRequests(requests)
        ensures Roots(specs, ids)[RootRequests(requests[..i])] == ids[i]
      {
        assert i < n ==> requests[..n][..i] == requests[..i] && requests[..n][i] == requests[i];
      }
    }
  }

  /** Every position is that of some requested root. */
  lemma {:induction false} RootAt(requests: seq<TaskRequest>, p: nat) returns (i: nat)
    requires p < RootRequests(requests)
    ensures i < |requests| && requests[i].dependencies == [] && RootRequests(requests[..i]) == p
  {
    var n := |requests| - 1;
    if p < RootRequests(requests[..n]) {
      i := RootAt(requests[..n], p);
      assert requests[..n][..i] == requests[..i] && requests[..n][i] == requests[i];
    } else {
      i := n;
    }
  }

  lemma SameRoots(specs: map<TaskId, TaskSpec>, ids: seq<TaskId>, requests: seq<TaskRequest>, added: seq<TaskId>)
    requires |ids| == |requests|
    requires forall i | 0 <= i < |ids| :: ids[i] in specs && specs[ids[i]].dependencies == requests[i].dependencies
    requires |added| == RootRequests(requests)
    requires forall i | 0 <= i < |ids| && requests[i].dependencies == [] ::
               RootRequests(requests[..i]) < |added| && added[RootRequests(requests[..i])] == ids[i]
    ensures added == Roots(specs, ids)
  {
    RequestedRoots(specs, ids, requests);
    forall p | 0 <= p < |added| ensures added[p] == Roots(specs, ids)[p] {
      var i := RootAt(requests, p);
    }
  }

  /** A queue to which the roots were appended in request order was given exactly the protocol's roots. */
  lemma QueuedRoots(specs: map<TaskId, TaskSpec>, ids: seq<TaskId>, requests: seq<TaskRequest>,
                    before: seq<TaskId>, after: seq<TaskId>)
    requires |ids| == |requests|
    requires forall i | 0 <= i < |ids| :: ids[i] in specs && specs[ids[i]].dependencies == requests[i].dependencies
    requires RootsAppended(before, after, ids, requests)
    ensures after == before + Roots(specs, ids)
  {
    var added := after[|before|..];
    assert after == before + added;
    forall i | 0 <= i < |ids| && requests[i].dependencies == []
      ensures RootRequests(requests[..i]) < |added| && added[RootRequests(requests[..i])] == ids[i]
    {
      assert after[|before| + RootRequests(requests[..i])] == ids[i];
    }
    SameRoots(specs, ids, requests, added);
  }

  // ---- the tables ----

  /** The rows of the workflow, right after it was stored. */
  function NewRows(specs: map<TaskId, TaskSpec>, ids: seq<TaskId>): Rows
    requires forall t | t in ids :: t in specs
  {
    map t | t in ids :: InitialRow(specs[t])
  }

  lemma SameRootsOf(specs: map<TaskId, TaskSpec>, specs': map<TaskId, TaskSpec>, ids: seq<TaskId>)
    requires forall t | t in ids :: t in specs
    requires forall t | t in specs :: t in specs' && specs'[t] == specs[t]
    ensures Roots(specs', ids) == Roots(specs, ids)
  {
    AloneRoots(specs, specs', ids);
  }

  ghost predicate RootsFor(specs: map<TaskId, TaskSpec>, order: map<ExecutionId, seq<TaskId>>,
                           roots: map<ExecutionId, seq<TaskId>>, e: ExecutionId) {
    e in order && e in roots && (forall t | t in order[e] :: t in specs) && roots[e] == Roots(specs, order[e])
  }

  lemma SameRootsFor(specs: map<TaskId, TaskSpec>, specs': map<TaskId, TaskSpec>,
                     order: map<ExecutionId, seq<TaskId>>, order': map<ExecutionId, seq<TaskId>>,
                     roots: map<ExecutionId, seq<TaskId>>, roots': map<ExecutionId, seq<TaskId>>, e: ExecutionId)
    requires forall t | t in specs :: t in specs' && specs'[t] == specs[t]
    requires RootsFor(specs, order, roots, e) && RootsFor(specs', order', roots', e) && order'[e] == order[e]
    ensures roots'[e] == roots[e]
  {
    SameRootsOf(specs, specs', order[e]);
  }

  lemma OtherRootsStay(c: Config, c': Config, s: State, s': State, e: ExecutionId)
    requires StartRoots(c, s) && StartRoots(c', s')
    requires forall t | t in c.specs :: t in c'.specs && c'.specs[t] == c.specs[t]
    requires e in c.order && e in c'.order && c'.order[e] == c.order[e]
    ensures s'.submitters[e] == s.submitters[e]
  {
    assert RootsFor(c.specs, c.order, s.submitters, e);
    assert RootsFor(c'.specs, c'.order, s'.submitters, e);
    SameRootsFor(c.specs, c'.specs, c.order, c'.order, s.submitters, s'.submitters, e);
  }

  lemma MapGrows<K, V>(m: map<K, V>, m': map<K, V>, k: K)
    requires m'.Keys == m.Keys + {k} && k !in m && forall x | x in m :: m'[x] == m[x]
    ensures m' == m[k := m'[k]]
  {
  }

  lemma RootsWiden(c: Config, c': Config, s: State, s': State, execution: ExecutionId, ids: seq<TaskId>)
    requires StartRoots(c, s) && StartRoots(c', s')
    requires forall t | t in c.specs :: t in c'.specs && c'.specs[t] == c.specs[t]
    requires c'.order == c.order[execution := ids] && execution !in c.order
    ensures forall t | t in ids :: t in c'.specs
    ensures s'.submitters == s.submitters[execution := Roots(c'.specs, ids)]
  {
    assert RootsFor(c'.specs, c'.order, s'.submitters, execution);
    forall e | e in s.submitters ensures s'.submitters[e] == s.submitters[e] {
      OtherRootsStay(c, c', s, s', e);
    }
    MapGrows(s.submitters, s'.submitters, execution);
  }

  /** An initial state, field by field. */
  ghost predicate Starts(specs: map<TaskId, TaskSpec>, executions: set<ExecutionId>, workers: set<WorkerId>, s: State) {
    && s.store.rows == InitialRows(specs)
    && s.store.verdicts.Keys == executions
    && (forall e | e in s.store.verdicts :: s.store.verdicts[e] == WorkflowRunning)
    && s.store.retryQueue == [] && s.store.completed == [] && s.store.terminated == [] && s.mainQueue == []
    && s.workers.Keys == workers && (forall w | w in s.workers :: s.workers[w] == Idle)
    && s.coordinator == Waiting && s.log == []
    && s.claims.Keys == specs.Keys && forall t | t in s.claims :: s.claims[t] == 0
  }

  ghost predicate StartRoots(c: Config, s: State) {
    s.submitters.Keys == c.order.Keys && forall e | e in c.order :: RootsFor(c.specs, c.order, s.submitters, e)
  }

  lemma InitStarts(c: Config)
    requires ValidConfig(c)
    ensures Starts(c.specs, c.order.Keys, c.workers.Keys, Init(c))
  {
  }

  lemma InitStartRoots(c: Config)
    requires ValidConfig(c)
    ensures StartRoots(c, Init(c))
  {
    var roots := Init(c).submitters;
    forall e | e in c.order ensures RootsFor(c.specs, c.order, roots, e) {
      assert forall t | t in c.order[e] :: t in c.specs;
    }
  }

  lemma RowsWiden(c: Config, c': Config, e: ExecutionId, ids: seq<TaskId>)
    requires OneMore(c, c', e, ids) && forall t | t in ids :: t !in c.specs
    ensures forall t | t in ids :: t in c'.specs
    ensures InitialRows(c'.specs) == InitialRows(c.specs) + NewRows(c'.specs, ids)
    ensures c'.specs.Keys == c.specs.Keys + NewRows(c'.specs, ids).Keys
  {
  }

  lemma ClaimsWiden(claims: map<TaskId, nat>, claims': map<TaskId, nat>, more: Rows)
    requires claims'.Keys == claims.Keys + more.Keys
    requires (forall t | t in claims :: claims[t] == 0) && forall t | t in claims' :: claims'[t] == 0
    ensures claims' == claims + NoClaims(more.Keys)
  {
  }

  lemma VerdictsWiden(verdicts: Verdicts, verdicts': Verdicts, e: ExecutionId)
    requires verdicts'.Keys == verdicts.Keys + {e}
    requires (forall x | x in verdicts :: verdicts[x] == WorkflowRunning)
    requires (forall x | x in verdicts' :: verdicts'[x] == WorkflowRunning)
    ensures verdicts' == verdicts[e := WorkflowRunning]
  {
  }

  lemma SameIdle(workers: map<WorkerId, Pc>, workers': map<WorkerId, Pc>)
    requires workers'.Keys == workers.Keys
    requires (forall w | w in workers :: workers[w] == Idle) && forall w | w in workers' :: workers'[w] == Idle
    ensures workers' == workers
  {
  }

  lemma StartsWiden(c: Config, c': Config, s: State, s': State, e: ExecutionId, ids: seq<TaskId>, roots: seq<TaskId>)
    requires OneMore(c, c', e, ids) && forall t | t in ids :: t !in c.specs
    requires Starts(c.specs, c.order.Keys, c.workers.Keys, s) && Starts(c'.specs, c'.order.Keys, c'.workers.Keys, s')
    requires s'.submitters == s.submitters[e := roots]
    ensures forall t | t in ids :: t in c'.specs
    ensures Widened(s, NewRows(c'.specs, ids), e, roots) == s'
  {
    RowsWiden(c, c', e, ids);
    ClaimsWiden(s.claims, s'.claims, NewRows(c'.specs, ids));
    VerdictsWiden(s.store.verdicts, s'.store.verdicts, e);
    SameIdle(s.workers, s'.workers);
  }

  lemma InitWidens(c: Config, c': Config, s: State, s': State, e: ExecutionId, ids: seq<TaskId>)
    requires NewIds(c, e, ids) && OneMore(c, c', e, ids)
    requires Starts(c.specs, c.order.Keys, c.workers.Keys, s) && Starts(c'.specs, c'.order.Keys, c'.workers.Keys, s')
    requires StartRoots(c, s) && StartRoots(c', s')
    ensures forall t | t in ids :: t in c'.specs
    ensures Widened(s, NewRows(c'.specs, ids), e, Roots(c'.specs, ids)) == s'
  {
    RootsWiden(c, c', s, s', e, ids);
    StartsWiden(c, c', s, s', e, ids, Roots(c'.specs, ids));
  }

  lemma NewRowsAreForeign(c: Config, c': Config, e: ExecutionId, ids: seq<TaskId>)
    requires NewIds(c, e, ids) && forall t | t in ids :: t in c'.specs && c'.specs[t].executionId == e
    ensures Foreign(c, NewRows(c'.specs, ids), e)
  {
  }

  /** A workflow stored at any moment of a run, whatever its actions and whatever was lost, finds the system in a state
      that a run with that workflow stored from the start reaches. */
  lemma StoredAnytime(c: Config, c': Config, mode: Mode, s: State, e: ExecutionId, ids: seq<TaskId>,
                    requests: seq<TaskRequest>)
    requires Reachable(c, mode, s) && !mode.Chaotic?
    requires NewIds(c, e, ids) && OneMore(c, c', e, ids) && Requested(c', e, ids, requests)
    ensures ValidConfig(c') && forall t | t in ids :: t in c'.specs
    ensures Reachable(c', mode, Widened(s, NewRows(c'.specs, ids), e, Roots(c'.specs, ids)))
  {
    ReachableIsValid(c, mode, s);
    RequestedIds(c', e, ids, requests);
    OneMoreIsValid(c, c', e, ids);
    InitStarts(c);
    InitStarts(c');
    InitStartRoots(c);
    InitStartRoots(c');
    InitWidens(c, c', Init(c), Init(c'), e, ids);
    NewRowsAreForeign(c, c', e, ids);
    ReachableWidens(c, c', mode, s, NewRows(c'.specs, ids), e, Roots(c'.specs, ids));
  }

  lemma RootsArePushed(c: Config, mode: Mode, s: State, more: Rows, e: ExecutionId, roots: seq<TaskId>)
      returns (s': State)
    requires Reachable(c, mode, Widened(s, more, e, roots))
    ensures Reachable(c, mode, s')
    ensures s' == s.(store := WidenedStore(s.store, more, e), mainQueue := s.mainQueue + roots,
                     submitters := s.submitters[e := []], claims := s.claims + NoClaims(more.Keys))
  {
    var stored := Widened(s, more, e, roots);
    var steps;
    steps, s' := EnqueueIsARun(c, stored, e);
    ExecutedIsReachable(c, mode, stored, steps, s');
    PushedState(s, stored, s', more, e, roots);
  }

  lemma PushedState(s: State, stored: State, s': State, more: Rows, e: ExecutionId, roots: seq<TaskId>)
    requires stored == Widened(s, more, e, roots)
    requires s' == stored.(mainQueue := stored.mainQueue + stored.submitters[e],
                           submitters := stored.submitters[e := []])
    ensures s' == s.(store := WidenedStore(s.store, more, e), mainQueue := s.mainQueue + roots,
                     submitters := s.submitters[e := []], claims := s.claims + NoClaims(more.Keys))
  {
    assert s.submitters[e := roots][e := []] == s.submitters[e := []];
  }

  // ---- the handler ----

  /** The handler's test on the tables is the test on the workflows stored. */
  lemma TablesTellNew(c: Config, mode: Mode, s: State, execution: ExecutionId, ids: seq<TaskId>)
    requires Reachable(c, mode, s) && !mode.Chaotic?
    ensures NewIds(c, execution, ids)
       <==> && execution !in s.store.verdicts && (forall i | 0 <= i < |ids| :: ids[i] !in s.store.rows)
            && forall i, j | 0 <= i < j < |ids| :: ids[i] != ids[j]
  {
    ReachableKnown(c, mode, s);
  }

  lemma HandledRows(c': Config, execution: ExecutionId, ids: seq<TaskId>, requests: seq<TaskRequest>,
                    rows: Rows, rows': Rows)
    requires Requested(c', execution, ids, requests) && forall t | t in ids :: t in c'.specs
    requires forall t :: t in rows' <==> t in rows || t in ids
    requires forall t | t in rows :: rows'[t] == rows[t]
    requires forall i | 0 <= i < |ids| :: ids[i] !in rows && rows'[ids[i]] == StoredTask(execution, ids[i], requests[i])
    ensures rows' == rows + NewRows(c'.specs, ids)
  {
    forall t | t in ids ensures t !in rows && rows'[t] == InitialRow(c'.specs[t]) {
      var i :| 0 <= i < |ids| && ids[i] == t;
    }
  }

  lemma HandledQueue(c': Config, execution: ExecutionId, ids: seq<TaskId>, requests: seq<TaskRequest>,
                     before: seq<TaskId>, after: seq<TaskId>)
    requires Requested(c', execution, ids, requests) && forall t | t in ids :: t in c'.specs
    requires RootsAppended(before, after, ids, requests)
    ensures after == before + Roots(c'.specs, ids)
  {
    QueuedRoots(c'.specs, ids, requests, before, after);
  }

  lemma HandledState(c: Config, c': Config, mode: Mode, s: State, execution: ExecutionId, ids: seq<TaskId>,
                     requests: seq<TaskRequest>) returns (s': State)
    requires Reachable(c, mode, s) && !mode.Chaotic?
    requires NewIds(c, execution, ids) && OneMore(c, c', execution, ids) && Requested(c', execution, ids, requests)
    ensures Reachable(c', mode, s') && forall t | t in ids :: t in c'.specs
    ensures var more := NewRows(c'.specs, ids);
            s' == s.(store := WidenedStore(s.store, more, execution), mainQueue := s.mainQueue + Roots(c'.specs, ids),
                     submitters := s.submitters[execution := []], claims := s.claims + NoClaims(more.Keys))
  {
    StoredAnytime(c, c', mode, s, execution, ids, requests);
    s' := RootsArePushed(c', mode, s, NewRows(c'.specs, ids), execution, Roots(c'.specs, ids));
  }

  /** Submission during a run: from the tables and the main queue of a reachable state, what the handler leaves behind
      are the tables and the main queue of a reachable state of the system that had the workflow from the start. */
  lemma SubmissionIsReachable(c: Config, c': Config, mode: Mode, s: State, execution: ExecutionId, ids: seq<TaskId>,
                    requests: seq<TaskRequest>, rows: Rows, verdicts: Verdicts, queue: seq<TaskId>) returns (s': State)
    requires Reachable(c, mode, s) && !mode.Chaotic?
    requires OneMore(c, c', execution, ids) && Requested(c', execution, ids, requests)
    requires execution !in s.store.verdicts && (forall i | 0 <= i < |ids| :: ids[i] !in s.store.rows)
    requires forall i, j | 0 <= i < j < |ids| :: ids[i] != ids[j]
    requires verdicts == s.store.verdicts[execution := WorkflowRunning]
    requires forall t :: t in rows <==> t in s.store.rows || t in ids
    requires forall t | t in s.store.rows :: rows[t] == s.store.rows[t]
    requires forall i | 0 <= i < |ids| ::
               rows[ids[i]] == Task(TaskSpec(ids[i], execution, requests[i].refId, requests[i].action,
                                             requests[i].dependencies, 3),
                                    if requests[i].dependencies == [] then Queued else Pending,
                                    0, |requests[i].dependencies|, false, None, 1)
    requires RootsAppended(s.mainQueue, queue, ids, requests)
    ensures Reachable(c', mode, s')
    ensures s' == s.(store := s.store.(rows := rows, verdicts := verdicts), mainQueue := queue,
                     submitters := s.submitters[execution := []], claims := s'.claims)
  {
    TablesTellNew(c, mode, s, execution, ids);
    s' := HandledState(c, c', mode, s, execution, ids, requests);
    HandledRows(c', execution, ids, requests, s.store.rows, rows);
    HandledQueue(c', execution, ids, requests, s.mainQueue, queue);
  }

  /** And such a system exists. */
  lemma SubmissionExtends(c: Config, mode: Mode, s: State, execution: ExecutionId, ids: seq<TaskId>,
                          requests: seq<TaskRequest>, rows: Rows, verdicts: Verdicts, queue: seq<TaskId>)
      returns (c': Config, s': State)
    requires Reachable(c, mode, s) && !mode.Chaotic? && |ids| == |requests| && NewIds(c, execution, ids)
    requires verdicts == s.store.verdicts[execution := WorkflowRunning]
    requires forall t :: t in rows <==> t in s.store.rows || t in ids
    requires forall t | t in s.store.rows :: rows[t] == s.store.rows[t]
    requires forall i | 0 <= i < |ids| ::
               rows[ids[i]] == Task(TaskSpec(ids[i], execution, requests[i].refId, requests[i].action,
                                             requests[i].dependencies, 3),
                                    if requests[i].dependencies == [] then Queued else Pending,
                                    0, |requests[i].dependencies|, false, None, 1)
    requires RootsAppended(s.mainQueue, queue, ids, requests)
    ensures OneMore(c, c', execution, ids) && Requested(c', execution, ids, requests)
    ensures Reachable(c', mode, s')
    ensures s' == s.(store := s.store.(rows := rows, verdicts := verdicts), mainQueue := queue,
                     submitters := s.submitters[execution := []], claims := s'.claims)
  {
    c' := Submitted(c, execution, ids, requests);
    SubmittedMeaning(c, execution, ids, requests);
    TablesTellNew(c, mode, s, execution, ids);
    s' := SubmissionIsReachable(c, c', mode, s, execution, ids, requests, rows, verdicts, queue);
  }

  // ---- attempts ----

  /** However the run goes, a requested task is claimed at most four times. */
  lemma AtMostFourAttempts(c: Config, mode: Mode, s: State, execution: ExecutionId, ids: seq<TaskId>,
                           requests: seq<TaskRequest>, i: nat)
    requires Requested(c, execution, ids, requests) && i < |ids|
    requires Stored(c) && Reachable(c, mode, s) && !mode.Chaotic?
    ensures ids[i] in s.claims && s.claims[ids[i]] <= 4
  {
    VersionAccounting(c, mode, s, ids[i]);
  }

  /** A requested task that ended with no parent FAILED or SKIPPED is COMPLETED if one of attempts 0 to 3 succeeds, and
      FAILED if none does; losses included. */
  lemma FourAttemptsDecide(c: Config, mode: Mode, s: State, execution: ExecutionId, ids: seq<TaskId>,
                           requests: seq<TaskRequest>, i: nat)
    requires Requested(c, execution, ids, requests) && i < |ids|
    requires Sound(c) && Reachable(c, mode, s) && !mode.Chaotic?
    requires ids[i] in s.store.rows && s.store.rows[ids[i]].Terminal()
    requires forall u | Parent(c, u, ids[i]) && u in s.store.rows ::
               s.store.rows[u].status != Failed && s.store.rows[u].status != Skipped
    ensures s.store.rows[ids[i]].status
         == if exists k: nat | k <= 3 :: c.handlers.succeeds(ids[i], k) then Completed else Failed
  {
    var t := ids[i];
    ReachableInOrder(c, mode, s);
    assert RowFits(c.handlers, s.store.rows[t], s.claims[t]) && StrictRow(s.store.rows[t], s.claims[t]);
    ReleasedHint(c, s, t);
    assert forall u :: !FailedParent(c, s.store.rows, u, t);
    UntaintedRow(c.handlers, s.store.rows[t], s.claims[t]);
  }
}
