/** What the version guard alone gives: no assumption on the queues, on lost messages or on the registry. */
module RetryBound {
  import opened Domain
  import opened TaskTable
  import opened WorkerSteps
  import opened Protocol
  import opened Tokens

  // ---- one row, one snapshot ----

  predicate RowBounded(row: Task, claims: nat) {
    row.retryCount <= row.spec.maxRetries && row.version == 1 + claims + row.retryCount
  }

  /** A snapshot is never newer than its row, and with an equal version it has the right retry count. */
  predicate SnapshotFits(m: Task, row: Task) {
    m.spec == row.spec && m.version <= row.version && (m.version == row.version ==> m.retryCount == row.retryCount)
  }

  predicate PcBounded(rows: Rows, pc: Pc) {
    pc.Idle? || pc.Popped? || (pc.task.spec.id in rows && SnapshotFits(pc.task, rows[pc.task.spec.id]))
  }

  /** A statement by a worker with any snapshot that fits, however stale. */
  lemma AdvanceBounded(h: Handlers, w: WorkerId, pc: Pc, row: Task, claims: nat)
    requires !pc.Idle? && RowBounded(row, claims) && (pc.Popped? || SnapshotFits(pc.task, row))
    ensures var move := Advance(h, w, pc, Some(row));
            var row' := RowAfter(move, row);
            && RowBounded(row', ClaimsAfter(move, claims))
            && row'.spec == row.spec && row.retryCount <= row'.retryCount
            && (row'.version == row.version ==> row'.retryCount == row.retryCount)
            && (move.pc.Idle? || SnapshotFits(move.pc.task, row'))
            && !move.pc.Popped?
  {
  }

  lemma SnapshotStaysFit(m: Task, row: Task, row': Task)
    requires SnapshotFits(m, row) && row'.spec == row.spec && row.version <= row'.version
    requires row'.version == row.version ==> row'.retryCount == row.retryCount
    ensures SnapshotFits(m, row')
  {
  }

  // ---- states ----

  ghost predicate Bounded(c: Config, s: State) {
    && s.store.rows.Keys == c.specs.Keys == s.claims.Keys
    && (forall t | t in c.specs :: RowOf(c, s, t))
    && (forall w | w in s.workers :: PcBounded(s.store.rows, s.workers[w]))
  }

  ghost predicate RowOf(c: Config, s: State, t: TaskId)
    requires t in c.specs && t in s.store.rows && t in s.claims
  {
    s.store.rows[t].spec == c.specs[t] && c.specs[t].id == t && RowBounded(s.store.rows[t], s.claims[t])
  }

  /** Nothing that the guards rest on ever goes back. */
  ghost predicate Advances(s: State, s': State) {
    && s'.store.rows.Keys == s.store.rows.Keys && s'.claims.Keys == s.claims.Keys
    && forall t | t in s.store.rows && t in s.claims ::
         && s.store.rows[t].retryCount <= s'.store.rows[t].retryCount
         && s.claims[t] <= s'.claims[t]
  }

  /** A step that is not a worker's changes the rows by a decrement or not at all. */
  lemma UnguardedRows(c: Config, s: State, step: Step)
    requires Enabled(c, s, step) && !step.Work?
    ensures After(c, s, step).claims == s.claims
    ensures !step.Resolve? ==> After(c, s, step).store.rows == s.store.rows
    ensures step.Resolve? ==>
              var ev := s.coordinator.event;
              After(c, s, step).store.rows == Decrement(s.store.rows, ev.executionId, ev.refId, ev.TaskTerminated?)
  {
  }

  /** The rows change only in columns the guards do not look at. */
  lemma UnguardedStep(c: Config, s: State, step: Step, t: TaskId)
    requires Enabled(c, s, step) && !step.Work? && t in s.store.rows
    ensures var s' := After(c, s, step);
            && s'.store.rows.Keys == s.store.rows.Keys && s'.claims == s.claims
            && s'.store.rows[t].spec == s.store.rows[t].spec
            && s'.store.rows[t].version == s.store.rows[t].version
            && s'.store.rows[t].retryCount == s.store.rows[t].retryCount
  {
    UnguardedRows(c, s, step);
  }

  lemma UnguardedWorkers(c: Config, s: State, step: Step, w: WorkerId)
    requires Enabled(c, s, step) && !step.Work? && w in After(c, s, step).workers
    ensures After(c, s, step).workers[w].Idle? || After(c, s, step).workers[w].Popped?
            || (w in s.workers && After(c, s, step).workers[w] == s.workers[w])
  {
  }

  lemma UnguardedKeeps(c: Config, s: State, step: Step)
    requires Bounded(c, s) && Enabled(c, s, step) && !step.Work?
    ensures Bounded(c, After(c, s, step)) && Advances(s, After(c, s, step))
  {
    var s' := After(c, s, step);
    forall t | t in s.store.rows
      ensures t in s'.store.rows && t in s'.claims && RowOf(c, s', t)
      ensures s'.store.rows[t].spec == s.store.rows[t].spec && s'.store.rows[t].version == s.store.rows[t].version
      ensures s'.store.rows[t].retryCount == s.store.rows[t].retryCount && s'.claims == s.claims
    {
      assert RowOf(c, s, t);
      UnguardedStep(c, s, step, t);
    }
    UnguardedKeys(c, s, step);
    forall w | w in s'.workers ensures PcBounded(s'.store.rows, s'.workers[w]) {
      UnguardedWorkers(c, s, step, w);
    }
  }

  lemma UnguardedKeys(c: Config, s: State, step: Step)
    requires Enabled(c, s, step) && !step.Work?
    ensures After(c, s, step).store.rows.Keys == s.store.rows.Keys && After(c, s, step).claims == s.claims
  {
    UnguardedRows(c, s, step);
  }

  /** A statement touches no row but the held task's, and no other worker. */
  lemma WorkFrame(c: Config, s: State, w: WorkerId)
    requires Enabled(c, s, Work(w))
    ensures var s' := After(c, s, Work(w)); var t := s.workers[w].Held();
            && s'.workers.Keys == s.workers.Keys
            && (forall w' | w' in s.workers && w' != w :: s'.workers[w'] == s.workers[w'])
            && (forall u | u in s.store.rows && u != t :: u in s'.store.rows && s'.store.rows[u] == s.store.rows[u])
            && (forall u | u in s.claims && u != t :: u in s'.claims && s'.claims[u] == s.claims[u])
            && s'.store.rows.Keys == s.store.rows.Keys
            && s'.claims.Keys == s.claims.Keys
  {
    var pc := s.workers[w];
    var move := MoveOf(c.handlers, w, s.store, pc);
    NoRowFromNothing(c.handlers, w, pc, Find(s.store.rows, pc.Held()));
    assert StoreAfter(c.handlers, w, s.store, pc).rows == WithRow(s.store.rows, pc.Held(), move.row);
  }

  lemma NoRowFromNothing(h: Handlers, w: WorkerId, pc: Pc, row: Option<Task>)
    requires !pc.Idle?
    ensures Advance(h, w, pc, row).row.Some? ==> row.Some?
  {
  }

  lemma WorkRow(c: Config, s: State, w: WorkerId)
    requires Bounded(c, s) && Enabled(c, s, Work(w))
    ensures var s' := After(c, s, Work(w)); var t := s.workers[w].Held();
            && PcBounded(s'.store.rows, s'.workers[w])
            && (t in c.specs ==>
                 && t in s'.store.rows && t in s'.claims
                 && RowOf(c, s', t) && s.claims[t] <= s'.claims[t]
                 && s.store.rows[t].retryCount <= s'.store.rows[t].retryCount
                 && (s'.store.rows[t].version == s.store.rows[t].version ==>
                       s'.store.rows[t].retryCount == s.store.rows[t].retryCount))
  {
    var pc := s.workers[w];
    var t := pc.Held();
    assert PcBounded(s.store.rows, pc);
    if t in s.store.rows {
      assert RowOf(c, s, t);
      AdvanceBounded(c.handlers, w, pc, s.store.rows[t], s.claims[t]);
    }
  }

  lemma OthersStayBounded(c: Config, s: State, w: WorkerId, w': WorkerId)
    requires Bounded(c, s) && Enabled(c, s, Work(w)) && w' in s.workers && w' != w
    ensures w' in After(c, s, Work(w)).workers
    ensures PcBounded(After(c, s, Work(w)).store.rows, After(c, s, Work(w)).workers[w'])
  {
    WorkFrame(c, s, w);
    WorkRow(c, s, w);
    var s' := After(c, s, Work(w));
    var pc := s.workers[w'];
    assert PcBounded(s.store.rows, pc);
    if !pc.Idle? && !pc.Popped? {
      var u := pc.task.spec.id;
      if u == s.workers[w].Held() {
        assert RowOf(c, s, u) && RowOf(c, s', u);
        SnapshotStaysFit(pc.task, s.store.rows[u], s'.store.rows[u]);
      }
    }
  }

  lemma WorkKeepsBounded(c: Config, s: State, w: WorkerId)
    requires Bounded(c, s) && Enabled(c, s, Work(w))
    ensures Bounded(c, After(c, s, Work(w))) && Advances(s, After(c, s, Work(w)))
  {
    var s' := After(c, s, Work(w));
    WorkFrame(c, s, w);
    WorkRow(c, s, w);
    forall t | t in c.specs ensures RowOf(c, s', t) {
      assert RowOf(c, s, t);
    }
    forall w' | w' in s'.workers ensures PcBounded(s'.store.rows, s'.workers[w']) {
      if w' != w {
        OthersStayBounded(c, s, w, w');
      }
    }
  }

  // ---- runs ----

  lemma RunStepBounded(c: Config, mode: Mode, s: State, step: Step, s': State)
    requires Bounded(c, s) && RunStep(c, mode, s, step, s')
    ensures Bounded(c, s') && Advances(s, s')
  {
    if step.Work? {
      WorkKeepsBounded(c, s, step.worker);
    } else {
      UnguardedKeeps(c, s, step);
    }
  }

  lemma InitBounded(c: Config)
    requires ValidConfig(c)
    ensures Bounded(c, Init(c))
  {
  }

  lemma {:induction false} RunBounded(c: Config, mode: Mode, states: seq<State>, steps: seq<Step>, i: nat)
    requires Run(c, mode, states, steps) && i < |states|
    ensures Bounded(c, states[i])
  {
    if i == 0 {
      InitBounded(c);
    } else {
      RunBounded(c, mode, states, steps, i - 1);
      RunStepBounded(c, mode, states[i-1], steps[i-1], states[i]);
    }
  }

  /** With intruding and duplicate queue entries, stale snapshots, losses and unregistered actions: no task is retried
      more often than allowed, and its version counts its claims and retries. */
  lemma RetriesAreBounded(c: Config, mode: Mode, s: State, t: TaskId)
    requires Reachable(c, mode, s) && t in c.specs
    ensures t in s.store.rows && t in s.claims
    ensures s.store.rows[t].retryCount <= c.specs[t].maxRetries
    ensures s.store.rows[t].version == 1 + s.claims[t] + s.store.rows[t].retryCount
  {
    var states, steps :| Run(c, mode, states, steps) && s == states[|steps|];
    RunBounded(c, mode, states, steps, |steps|);
    assert RowOf(c, s, t);
  }

  /** In the same setting, whenever a worker's guarded update succeeds, its snapshot has the stored retry count. */
  lemma GuardMeansFresh(c: Config, mode: Mode, s: State, w: WorkerId)
    requires Reachable(c, mode, s) && w in s.workers && !s.workers[w].Idle? && !s.workers[w].Popped?
    ensures var m := s.workers[w].task;
            && m.spec.id in s.store.rows && m.version <= s.store.rows[m.spec.id].version
            && (m.version == s.store.rows[m.spec.id].version ==> m.retryCount == s.store.rows[m.spec.id].retryCount)
  {
    var states, steps :| Run(c, mode, states, steps) && s == states[|steps|];
    RunBounded(c, mode, states, steps, |steps|);
    assert PcBounded(s.store.rows, s.workers[w]);
  }

  lemma AdvancesTransitive(s: State, s': State, s'': State)
    requires Advances(s, s') && Advances(s', s'')
    ensures Advances(s, s'')
  {
  }

  lemma {:induction false} RunAdvances(c: Config, mode: Mode, states: seq<State>, steps: seq<Step>, i: nat, j: nat)
    requires Run(c, mode, states, steps) && i <= j < |states|
    ensures Advances(states[i], states[j])
    decreases j
  {
    if i < j {
      RunAdvances(c, mode, states, steps, i, j - 1);
      RunBounded(c, mode, states, steps, j - 1);
      RunStepBounded(c, mode, states[j-1], steps[j-1], states[j]);
      AdvancesTransitive(states[i], states[j-1], states[j]);
    }
  }

  /** An unchanged version means that nobody claimed or retried the task in between: this is what a worker learns
      when its guarded update succeeds. */
  lemma SameVersionMeansUndisturbed(c: Config, mode: Mode, states: seq<State>, steps: seq<Step>, i: nat, k: nat,
                    j: nat, t: TaskId)
    requires Run(c, mode, states, steps) && i <= k <= j < |states| && t in c.specs
    requires t in states[i].store.rows && t in states[j].store.rows
    requires states[i].store.rows[t].version == states[j].store.rows[t].version
    ensures t in states[i].claims && t in states[k].claims && t in states[k].store.rows
    ensures states[k].claims[t] == states[i].claims[t]
    ensures states[k].store.rows[t].retryCount == states[i].store.rows[t].retryCount
  {
    RunAdvances(c, mode, states, steps, i, k);
    RunAdvances(c, mode, states, steps, k, j);
    RunBounded(c, mode, states, steps, i);
    RunBounded(c, mode, states, steps, j);
    assert RowOf(c, states[i], t) && RowOf(c, states[j], t);
  }
}
