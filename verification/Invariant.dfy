/** What every reachable state keeps, whatever the request says, and what no step ever undoes. */
module Invariant {
  import opened Domain
  import opened WorkerSteps
  import opened Protocol
  import opened Tokens
  import opened TokenSteps
  import opened Counting
  import opened ResolveStep

  // ---- what a step may do to a row ----

  /** A finished row keeps all but its counter and its hint; a released task stays released; counters only fall. */
  predicate Evolves(row: Task, row': Task) {
    && row'.spec == row.spec
    && (row.Terminal() ==> LateOnly(row, row'))
    && (row.inDegree <= 0 ==> row'.inDegree <= 0)
    && row.inDegree >= row'.inDegree
    && (row.skipHint ==> row'.skipHint)
    && row.retryCount <= row'.retryCount
    && row.version <= row'.version
  }

  ghost predicate RowsEvolve(s: State, s': State) {
    && s'.store.rows.Keys == s.store.rows.Keys
    && forall t | t in s.store.rows :: Evolves(s.store.rows[t], s'.store.rows[t])
  }

  lemma WorkedEvolves(c: Config, s: State, s': State, w: WorkerId, move: Move, row': Task)
    requires Worked(c, s, s', w, move, row')
    ensures RowsEvolve(s, s')
  {
  }

  lemma RowEvolves(c: Config, s: State, ready: seq<TaskId>, t: TaskId)
    requires RowsFit(c, s) && Enabled(c, s, Resolve(ready)) && t in c.specs
    ensures t in After(c, s, Resolve(ready)).store.rows
    ensures Evolves(s.store.rows[t], After(c, s, Resolve(ready)).store.rows[t])
  {
    assert RowFits(c.handlers, s.store.rows[t], s.claims[t]);
    ResolveRow(c, s, ready, t);
  }

  lemma ResolveEvolves(c: Config, s: State, ready: seq<TaskId>)
    requires RowsFit(c, s) && Enabled(c, s, Resolve(ready))
    ensures RowsEvolve(s, After(c, s, Resolve(ready)))
  {
    ResolveFrame(c, s, ready);
    forall t | t in s.store.rows ensures Evolves(s.store.rows[t], After(c, s, Resolve(ready)).store.rows[t]) {
      RowEvolves(c, s, ready, t);
    }
  }

  lemma StepEvolves(c: Config, s: State, step: Step)
    requires Registered(c) && TokenInv(c, s) && Enabled(c, s, step) && !step.Intrude?
    ensures RowsEvolve(s, After(c, s, step))
  {
    if step.Work? {
      var move, row' := WorkDone(c, s, step.worker);
      WorkedEvolves(c, s, After(c, s, step), step.worker, move, row');
    } else if step.Resolve? {
      ResolveEvolves(c, s, step.ready);
    } else {
      RowlessElsewhere(c, s, step);
    }
  }

  // ---- the invariant ----

  lemma SimpleKeepsLog(c: Config, s: State, step: Step)
    requires Enabled(c, s, step) && Simple(step)
    ensures After(c, s, step).log == s.log
  {
  }

  /** Counters, hints and finished rows, between two states. */
  ghost predicate SameCounters(s: State, s': State) {
    && s'.store.rows.Keys == s.store.rows.Keys
    && forall t | t in s.store.rows ::
         && s'.store.rows[t].inDegree == s.store.rows[t].inDegree
         && s'.store.rows[t].skipHint == s.store.rows[t].skipHint
         && (s.store.rows[t].Terminal() ==> s'.store.rows[t] == s.store.rows[t])
  }

  lemma WorkedKeepsCounters(c: Config, s: State, s': State, w: WorkerId, move: Move, row': Task)
    requires Worked(c, s, s', w, move, row')
    ensures SameCounters(s, s')
  {
  }

  lemma SimpleKeepsCounters(c: Config, s: State, step: Step)
    requires TokenInv(c, s) && Registered(c) && Enabled(c, s, step) && Simple(step)
    ensures SameCounters(s, After(c, s, step))
  {
    if step.Work? {
      var move, row' := WorkDone(c, s, step.worker);
      WorkedKeepsCounters(c, s, After(c, s, step), step.worker, move, row');
    } else {
      RowlessElsewhere(c, s, step);
    }
  }

  lemma SimpleKeepsHints(c: Config, s: State, s': State)
    requires Placed(c, s) && Hinted(c, s) && s'.log == s.log && SameCounters(s, s')
    ensures Hinted(c, s')
  {
    forall u, t ensures Taints(c, s', u, t) <==> Taints(c, s, u, t) {
      if u in s.log {
        assert At(s, Processed, u);
      }
    }
    forall t | t in c.specs && t in s'.store.rows
      ensures HintFits(c, s', t)
    {
      assert HintFits(c, s, t);
    }
  }

  /** No step but a stray queue entry breaks the invariant. */
  lemma StepKeeps(c: Config, s: State, step: Step)
    requires Registered(c) && Base(c, s) && Enabled(c, s, step) && !step.Intrude?
    ensures Base(c, After(c, s, step))
  {
    if step.Resolve? {
      ResolveKeeps(c, s, step.ready);
    } else {
      SimpleKeeps(c, s, step);
      SimpleKeepsLog(c, s, step);
      SimpleKeepsCounters(c, s, step);
      SimpleKeepsHints(c, s, After(c, s, step));
    }
  }

  // ---- the initial state ----

  lemma {:induction false} RootsMeaning(specs: map<TaskId, TaskSpec>, ids: seq<TaskId>)
    requires forall t | t in ids :: t in specs
    ensures forall t :: t in Roots(specs, ids) <==> t in ids && specs[t].dependencies == []
    ensures NoDuplicates(ids) ==> NoDuplicates(Roots(specs, ids))
  {
    if ids != [] {
      var rest := ids[1..];
      RootsMeaning(specs, rest);
      assert ids == [ids[0]] + rest;
      forall t ensures t in Roots(specs, ids) <==> t in ids && specs[t].dependencies == [] {
        assert t in ids <==> t == ids[0] || t in rest;
      }
      if NoDuplicates(ids) {
        assert NoDuplicates(rest);
        assert ids[0] !in rest;
      }
    }
  }

  lemma InitHolds(c: Config, p: Place)
    requires ValidConfig(c)
    ensures NoDuplicates(Holds(Init(c), p))
    ensures forall t | At(Init(c), p, t) ::
              t in c.specs && c.specs[t].dependencies == [] && p == WithSubmitter(c.specs[t].executionId)
  {
    if p.WithSubmitter? && p.execution in c.order {
      RootsMeaning(c.specs, c.order[p.execution]);
    }
  }

  lemma InitOneToken(c: Config)
    requires ValidConfig(c)
    ensures OneToken(Init(c))
  {
    forall p ensures NoDuplicates(Holds(Init(c), p)) {
      InitHolds(c, p);
    }
    forall p, q, t | At(Init(c), p, t) && At(Init(c), q, t) ensures p == q {
      InitHolds(c, p);
      InitHolds(c, q);
    }
  }

  lemma InitPlaced(c: Config)
    requires ValidConfig(c)
    ensures Placed(c, Init(c))
  {
    forall p, t | At(Init(c), p, t) ensures t in Init(c).store.rows && PlaceFits(c, Init(c), p, t) {
      InitHolds(c, p);
    }
  }

  lemma InitialRowFits(h: Handlers, spec: TaskSpec)
    ensures RowFits(h, InitialRow(spec), 0)
  {
  }

  lemma FreshRowsFit(c: Config, s: State)
    requires ValidConfig(c) && s.store.rows == InitialRows(c.specs) && s.claims == map t | t in c.specs :: 0
    requires s.store.verdicts.Keys == c.order.Keys == s.submitters.Keys && s.workers.Keys == c.workers.Keys
    ensures RowsFit(c, s)
  {
    forall t | t in c.specs
      ensures s.store.rows[t].spec == c.specs[t] && RowFits(c.handlers, s.store.rows[t], s.claims[t])
    {
      InitialRowFits(c.handlers, c.specs[t]);
    }
  }

  lemma InitShape(c: Config)
    requires ValidConfig(c)
    ensures Init(c).store.rows == InitialRows(c.specs) && Init(c).claims == map t | t in c.specs :: 0
    ensures Init(c).store.verdicts.Keys == c.order.Keys == Init(c).submitters.Keys
    ensures Init(c).workers.Keys == c.workers.Keys
  {
  }

  lemma InitRowsFit(c: Config)
    requires ValidConfig(c)
    ensures RowsFit(c, Init(c))
  {
    InitShape(c);
    FreshRowsFit(c, Init(c));
  }

  lemma InitAnnounced(c: Config)
    requires ValidConfig(c)
    ensures Announced(Init(c))
  {
  }

  lemma InitCounts(c: Config)
    requires ValidConfig(c)
    ensures Tallied(c, Init(c)) && Hinted(c, Init(c))
  {
    forall t ensures ParentsIn(c, LogSet([]), t) == {} {}
  }

  lemma InitBase(c: Config)
    requires ValidConfig(c)
    ensures Base(c, Init(c))
  {
    InitOneToken(c);
    InitPlaced(c);
    InitRowsFit(c);
    InitAnnounced(c);
    InitCounts(c);
  }

  // ---- runs ----

  /** Workflows as the engine stores them, with known actions; nothing is asked of references and dependency lists. */
  ghost predicate Stored(c: Config) {
    ValidConfig(c) && Registered(c)
  }

  lemma {:induction false} RunKeeps(c: Config, mode: Mode, states: seq<State>, steps: seq<Step>, i: nat)
    requires Stored(c) && Run(c, mode, states, steps) && !mode.Chaotic? && i < |states|
    ensures Base(c, states[i])
  {
    if i == 0 {
      InitBase(c);
    } else {
      RunKeeps(c, mode, states, steps, i - 1);
      assert RunStep(c, mode, states[i-1], steps[i-1], states[i]);
      StepKeeps(c, states[i-1], steps[i-1]);
    }
  }
}
