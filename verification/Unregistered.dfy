/** Exactly when tokens are conserved: an unregistered action is announced while its worker still holds the task,
    so every task that the dependencies let run needs a registered action. */
module Unregistered {
  import opened Domain
  import opened TaskTable
  import opened WorkerSteps
  import opened Protocol
  import opened Tokens
  import opened TokenSteps
  import opened ResolveStep
  import opened Invariant
  import opened Counting
  import opened Closure
  import opened Order
  import opened Kahn
  import opened Outcome
  import opened Progress
  import opened RetryBound

  /** The same workflows with handlers that answer as given. */
  function Behaving(c: Config, succeeds: (TaskId, nat) -> bool): Config {
    c.(handlers := c.handlers.(succeeds := succeeds))
  }

  /** The same workflows with every named action registered. */
  function Lenient(c: Config): Config {
    c.(handlers := c.handlers.(registry := c.handlers.registry + set t | t in c.specs :: c.specs[t].action))
  }

  ghost predicate Conserves(c: Config, mode: Mode) {
    forall s | Reachable(c, mode, s) :: OneToken(s)
  }

  /** Worker `w` is about to execute an unregistered action. */
  predicate Stumbles(c: Config, s: State, w: WorkerId) {
    w in s.workers && s.workers[w].Owned? && s.workers[w].task.spec.action !in c.handlers.registry
  }

  lemma LenientStored(c: Config)
    requires ValidConfig(c)
    ensures Stored(Lenient(c))
  {
  }

  lemma SameStart(c: Config, l: Config)
    requires ValidConfig(c) && ValidConfig(l) && l.specs == c.specs && l.order == c.order && l.workers == c.workers
    ensures Init(l) == Init(c)
  {
  }

  lemma LenientSound(c: Config)
    requires ValidConfig(c) && Orderly(c)
    ensures Sound(Lenient(c)) && Init(Lenient(c)) == Init(c)
  {
    LenientStored(c);
    SameStart(c, Lenient(c));
    OrderlyBySpecs(c, Lenient(c));
  }

  /** Only a stumbling worker tells the two registries apart. */
  lemma SameAdvance(c: Config, w: WorkerId, pc: Pc, row: Option<Task>)
    requires !pc.Idle? && (pc.Owned? ==> pc.task.spec.action in c.handlers.registry)
    ensures Advance(Lenient(c).handlers, w, pc, row) == Advance(c.handlers, w, pc, row)
  {
  }

  lemma SameStep(c: Config, s: State, step: Step)
    requires step.Work? ==> !Stumbles(c, s, step.worker)
    ensures Enabled(Lenient(c), s, step) <==> Enabled(c, s, step)
    ensures Enabled(c, s, step) ==> After(Lenient(c), s, step) == After(c, s, step)
  {
    if Enabled(c, s, step) && step.Work? {
      var pc := s.workers[step.worker];
      SameAdvance(c, step.worker, pc, Find(s.store.rows, pc.Held()));
    }
  }

  // ---- registered where it matters ----

  ghost predicate RegisteredInside(c: Config, done: set<TaskId>) {
    forall t | t in done && t in c.specs :: c.specs[t].action in c.handlers.registry
  }

  /** A task in a worker's hands is in every closed set. */
  lemma OwnedIsInside(c: Config, s: State, done: set<TaskId>, w: WorkerId)
    requires Orderly(c) && Inv(c, s) && Closed(c, done) && w in s.workers && s.workers[w].Owned?
    ensures s.workers[w].Held() in done && s.workers[w].Held() in c.specs
    ensures s.workers[w].task.spec == c.specs[s.workers[w].Held()]
  {
    HeldRow(c, s, w);
    ReleasedIsInside(c, s, s.workers[w].Held(), done);
  }

  lemma NobodyStumbles(c: Config, s: State, done: set<TaskId>, w: WorkerId)
    requires Orderly(c) && Inv(Lenient(c), s) && Closed(c, done) && RegisteredInside(c, done)
    ensures !Stumbles(c, s, w)
  {
    if w in s.workers && s.workers[w].Owned? {
      ClosedBySpecs(c, Lenient(c), done);
      OrderlyBySpecs(c, Lenient(c));
      OwnedIsInside(Lenient(c), s, done, w);
    }
  }

  lemma {:induction false} InsideKeeps(c: Config, mode: Mode, states: seq<State>, steps: seq<Step>, done: set<TaskId>,
                    i: nat)
    requires Orderly(c) && Run(c, mode, states, steps) && !mode.Chaotic? && i < |states|
    requires Closed(c, done) && RegisteredInside(c, done)
    ensures Inv(Lenient(c), states[i])
  {
    if i == 0 {
      InsideStart(c);
    } else {
      InsideKeeps(c, mode, states, steps, done, i - 1);
      InsideStep(c, mode, states[i-1], steps[i-1], states[i], done);
    }
  }

  lemma InsideStart(c: Config)
    requires ValidConfig(c) && Orderly(c)
    ensures Inv(Lenient(c), Init(c))
  {
    LenientSound(c);
    InitInv(Lenient(c));
  }

  lemma InsideStep(c: Config, mode: Mode, s: State, step: Step, s': State, done: set<TaskId>)
    requires ValidConfig(c) && Orderly(c) && !mode.Chaotic? && Inv(Lenient(c), s) && RunStep(c, mode, s, step, s')
    requires Closed(c, done) && RegisteredInside(c, done)
    ensures Inv(Lenient(c), s')
  {
    LenientSound(c);
    if step.Work? {
      NobodyStumbles(c, s, done, step.worker);
    }
    SameStep(c, s, step);
    AlwaysFresh(Lenient(c), s);
    StepKeepsOrder(Lenient(c), s, step);
  }

  lemma RegisteredConserves(c: Config, mode: Mode, done: set<TaskId>)
    requires Orderly(c) && !mode.Chaotic? && Closed(c, done) && RegisteredInside(c, done)
    ensures Conserves(c, mode)
  {
    forall s | Reachable(c, mode, s) ensures OneToken(s) {
      var states, steps :| Run(c, mode, states, steps) && s == states[|steps|];
      InsideKeeps(c, mode, states, steps, done, |steps|);
    }
  }

  // ---- an unregistered action within reach ----

  /** The worker marks the task FAILED, and is about to announce it. */
  lemma StumbleIsMarked(c: Config, mode: Mode, s: State, w: WorkerId) returns (s': State)
    requires Reachable(c, mode, s) && Stumbles(c, s, w)
    ensures s' == After(c, s, Work(w)) && Reachable(c, mode, s')
    ensures w in s'.workers && s'.workers[w] == UnknownMarked(s.workers[w].task)
  {
    s' := After(c, s, Work(w));
    StepOn(c, mode, s, Work(w));
  }

  lemma UnknownIsAnnounced(c: Config, mode: Mode, s: State, w: WorkerId) returns (s': State)
    requires Reachable(c, mode, s) && w in s.workers && s.workers[w].UnknownMarked?
    ensures s' == After(c, s, Work(w)) && Reachable(c, mode, s')
    ensures var t := s.workers[w].Held(); At(s', AtWorker(w), t) && At(s', InChannel(false), t)
  {
    s' := After(c, s, Work(w));
    StepOn(c, mode, s, Work(w));
    var events := Channel(s', false);
    assert events[|events|-1].taskId == s.workers[w].Held();
    assert Ids(events)[|events|-1] == s.workers[w].Held();
  }

  /** In any state of any run, two statements later a worker that stumbled still holds the task, and has announced its
      termination. */
  lemma StumbleBreaks(c: Config, mode: Mode, s: State, w: WorkerId) returns (marked: State, s': State)
    requires Reachable(c, mode, s) && Stumbles(c, s, w)
    ensures Enabled(c, s, Work(w)) && marked == After(c, s, Work(w))
    ensures Enabled(c, marked, Work(w)) && s' == After(c, marked, Work(w))
    ensures var t := s.workers[w].Held(); At(s', AtWorker(w), t) && At(s', InChannel(false), t)
    ensures Reachable(c, mode, s') && !Conserves(c, mode)
  {
    marked := StumbleIsMarked(c, mode, s, w);
    s' := UnknownIsAnnounced(c, mode, marked, w);
  }

  /** A run of the lenient workflows is one of the real ones for as long as nobody stumbled. */
  lemma {:induction false} Follows(c: Config, states: seq<State>, steps: seq<Step>, i: nat)
    requires ValidConfig(c) && Orderly(c) && Run(Lenient(c), Reliable, states, steps) && i < |states|
    requires forall j, w | 0 <= j < i :: !Stumbles(c, states[j], w)
    ensures Reachable(c, Reliable, states[i])
  {
    LenientSound(c);
    if i == 0 {
      assert Run(c, Reliable, [states[0]], []) && [states[0]][0] == states[0];
    } else {
      Follows(c, states, steps, i - 1);
      assert RunStep(Lenient(c), Reliable, states[i-1], steps[i-1], states[i]);
      FollowsStep(c, states[i-1], steps[i-1], states[i]);
    }
  }

  lemma FollowsStep(c: Config, s: State, step: Step, s': State)
    requires Reachable(c, Reliable, s) && RunStep(Lenient(c), Reliable, s, step, s')
    requires forall w :: !Stumbles(c, s, w)
    ensures Reachable(c, Reliable, s')
  {
    SameStep(c, s, step);
    StepOn(c, Reliable, s, step);
  }

  lemma {:induction false} FirstStumble(c: Config, states: seq<State>, n: nat, v: WorkerId)
      returns (j: nat, w: WorkerId)
    requires n < |states| && Stumbles(c, states[n], v)
    ensures j <= n && Stumbles(c, states[j], w)
    ensures forall i, u | 0 <= i < j :: !Stumbles(c, states[i], u)
  {
    if i, u :| 0 <= i < n && Stumbles(c, states[i], u) {
      j, w := FirstStumble(c, states, i, u);
    } else {
      j, w := n, v;
    }
  }

  /** Only a successful claim changes the count of claims. */
  lemma ClaimMade(c: Config, s: State, step: Step, t: TaskId)
    requires Enabled(c, s, step) && t in s.claims && t in After(c, s, step).claims
    requires After(c, s, step).claims[t] != s.claims[t]
    ensures step.Work? && step.worker in After(c, s, step).workers
    ensures var pc := After(c, s, step).workers[step.worker]; pc.Owned? && pc.Held() == t
  {
    if !step.Work? {
      UnguardedKeys(c, s, step);
      assert false;
    }
  }

  lemma OwnerStumbles(c: Config, l: Config, s: State, w: WorkerId)
    requires l.specs == c.specs && TokenInv(l, s) && w in s.workers && s.workers[w].Owned?
    requires s.workers[w].Held() in c.specs && c.specs[s.workers[w].Held()].action !in c.handlers.registry
    ensures Stumbles(c, s, w)
  {
    HeldRow(l, s, w);
  }

  /** The claim of a task with an unregistered action leaves its worker stumbling. */
  lemma ClaimStumbles(c: Config, l: Config, s: State, step: Step, s': State, t: TaskId)
    requires l.specs == c.specs && TokenInv(l, s') && RunStep(l, Reliable, s, step, s')
    requires t in c.specs && c.specs[t].action !in c.handlers.registry
    requires t in s.claims && t in s'.claims && s'.claims[t] != s.claims[t]
    ensures step.Work? && Stumbles(c, s', step.worker)
  {
    ClaimMade(l, s, step, t);
    OwnerStumbles(c, l, s', step.worker);
  }

  lemma CountedClaims(c: Config, states: seq<State>, steps: seq<Step>, i: nat, t: TaskId)
    requires Stored(c) && Run(c, Reliable, states, steps) && i < |states| && t in c.specs
    ensures t in states[i].claims && (i == 0 ==> states[i].claims[t] == 0)
  {
    RunKeeps(c, Reliable, states, steps, i);
  }

  /** The task's claims are counted in every state, from none on. */
  predicate ClaimsCounted(states: seq<State>, t: TaskId) {
    && (forall j | 0 <= j < |states| :: t in states[j].claims)
    && (states != [] ==> states[0].claims[t] == 0)
  }

  lemma RunCountsClaims(c: Config, states: seq<State>, steps: seq<Step>, t: TaskId)
    requires Stored(c) && Run(c, Reliable, states, steps) && t in c.specs
    ensures ClaimsCounted(states, t)
  {
    forall j | 0 <= j < |states| ensures t in states[j].claims && (j == 0 ==> states[j].claims[t] == 0) {
      CountedClaims(c, states, steps, j, t);
    }
  }

  lemma {:induction false} FirstClaim(states: seq<State>, i: nat, t: TaskId) returns (k: nat)
    requires ClaimsCounted(states, t) && i < |states| && states[i].claims[t] > 0
    ensures k < i && states[k+1].claims[t] != states[k].claims[t]
  {
    if states[i-1].claims[t] == 0 {
      k := i - 1;
    } else {
      k := FirstClaim(states, i - 1, t);
    }
  }

  lemma ClaimInRun(c: Config, l: Config, states: seq<State>, steps: seq<Step>, i: nat, t: TaskId)
      returns (w: WorkerId)
    requires l.specs == c.specs && Stored(l) && Run(l, Reliable, states, steps) && i < |states| - 1
    requires t in c.specs && c.specs[t].action !in c.handlers.registry
    requires t in states[i].claims && t in states[i+1].claims && states[i+1].claims[t] != states[i].claims[t]
    ensures Stumbles(c, states[i+1], w)
  {
    RunKeeps(l, Reliable, states, steps, i + 1);
    ClaimStumbles(c, l, states[i], steps[i], states[i+1], t);
    w := steps[i].worker;
  }

  lemma ClaimedMeansStumbled(c: Config, l: Config, states: seq<State>, steps: seq<Step>, i: nat, t: TaskId)
      returns (j: nat, w: WorkerId)
    requires l.specs == c.specs && Stored(l) && Run(l, Reliable, states, steps) && i < |states|
    requires t in c.specs && c.specs[t].action !in c.handlers.registry
    requires t in states[i].claims && states[i].claims[t] > 0
    ensures j < |states| && Stumbles(c, states[j], w)
  {
    RunCountsClaims(l, states, steps, t);
    var k := FirstClaim(states, i, t);
    w := ClaimInRun(c, l, states, steps, k, t);
    j := k + 1;
  }

  lemma NoneFailed(c: Config, s: State, done: set<TaskId>, t: TaskId)
    requires RowsFit(c, s) && forall u, k :: c.handlers.succeeds(u, k)
    ensures !HasFailedAncestor(c, done, s.store.rows, t)
    ensures t in s.store.rows ==> s.store.rows[t].status != Failed
  {
    forall u | u in s.store.rows ensures s.store.rows[u].status != Failed {
      assert RowFits(c.handlers, s.store.rows[u], s.claims[u]);
    }
  }

  /** When no handler ever fails, everything resolved was claimed. */
  lemma AllSucceed(c: Config, s: State, t: TaskId)
    requires Sound(c) && Reachable(c, Reliable, s) && t in s.log
    requires forall u, k :: c.handlers.succeeds(u, k)
    ensures t in s.claims && s.claims[t] > 0
  {
    ReachableInOrder(c, Reliable, s);
    LoggedSucceeded(c, s, t);
  }

  lemma LoggedSucceeded(c: Config, s: State, t: TaskId)
    requires Base(c, s) && Ordered(c, s.log) && t in s.log && forall u, k :: c.handlers.succeeds(u, k)
    ensures t in s.claims && s.claims[t] > 0
  {
    LoggedIsTerminal(c, s, t);
    NoneFailed(c, s, LogSet(s.log), t);
    assert t in LogSet(s.log);
    if s.store.rows[t].status == Skipped {
      LogOnce(s);
      SkippedHasCause(c, s, LogSet(s.log), t);
      assert false;
    }
    assert RowFits(c.handlers, s.store.rows[t], s.claims[t]);
  }

  lemma LenientFinish(c: Config) returns (states: seq<State>, steps: seq<Step>)
    requires Sound(Lenient(c)) && Staffed(c)
    ensures Run(Lenient(c), Reliable, states, steps) && LeastClosed(Lenient(c), LogSet(states[|steps|].log))
  {
    var start := Init(Lenient(c));
    assert Run(Lenient(c), Reliable, [start], []);
    states, steps := ReachesQuiescence(Lenient(c), Reliable, [start], []);
    assert Reachable(Lenient(c), Reliable, states[|steps|]);
    ResolvedIsLeastClosed(Lenient(c), states[|steps|]);
  }

  lemma UnregisteredBreaks(c: Config, mode: Mode, done: set<TaskId>, t: TaskId)
    requires ValidConfig(c) && Orderly(c) && Staffed(c) && LeastClosed(c, done)
    requires t in done && t in c.specs && c.specs[t].action !in c.handlers.registry
    requires forall u, k :: c.handlers.succeeds(u, k)
    ensures !Conserves(c, mode)
  {
    LenientSound(c);
    var states, steps := LenientFinish(c);
    var s := states[|steps|];
    ClosedBySpecs(c, Lenient(c), LogSet(s.log));
    assert Reachable(Lenient(c), Reliable, s);
    AllSucceed(Lenient(c), s, t);
    var n, v := ClaimedMeansStumbled(c, Lenient(c), states, steps, |steps|, t);
    var j, w := FirstStumble(c, states, n, v);
    Follows(c, states, steps, j);
    MoreMayHappen(c, mode, states[j]);
    var marked, s' := StumbleBreaks(c, mode, states[j], w);
  }

  // ---- the exact condition ----

  /** Whatever the handlers answer, no task is ever in two places if and only if every task that the dependency lists
      let run names a registered action. */
  lemma TokensExactly(c: Config, mode: Mode, done: set<TaskId>)
    requires ValidConfig(c) && Orderly(c) && Staffed(c) && LeastClosed(c, done) && !mode.Chaotic?
    ensures (forall succeeds: (TaskId, nat) -> bool :: Conserves(Behaving(c, succeeds), mode))
       <==> (forall t | t in done && t in c.specs :: c.specs[t].action in c.handlers.registry)
  {
    if forall t | t in done && t in c.specs :: c.specs[t].action in c.handlers.registry {
      forall succeeds: (TaskId, nat) -> bool ensures Conserves(Behaving(c, succeeds), mode) {
        ClosedBySpecs(c, Behaving(c, succeeds), done);
        OrderlyBySpecs(c, Behaving(c, succeeds));
        RegisteredConserves(Behaving(c, succeeds), mode, done);
      }
    }
    if t :| t in done && t in c.specs && c.specs[t].action !in c.handlers.registry {
      var always: (TaskId, nat) -> bool := (u, k) => true;
      LeastClosedBySpecs(c, Behaving(c, always), done);
      OrderlyBySpecs(c, Behaving(c, always));
      BehavingValid(c, always);
      UnregisteredBreaks(Behaving(c, always), mode, done, t);
    }
  }

  lemma BehavingValid(c: Config, succeeds: (TaskId, nat) -> bool)
    requires ValidConfig(c) && Staffed(c)
    ensures ValidConfig(Behaving(c, succeeds)) && Staffed(Behaving(c, succeeds))
  {
    var m, r :| m in c.workers && r in c.workers && c.workers[m].MainPool? && c.workers[r].RetryPool?;
    var b := Behaving(c, succeeds);
    assert m in b.workers && r in b.workers && b.workers[m].MainPool? && b.workers[r].RetryPool?;
  }

  /** For workflows without cycles, dangling or duplicate dependencies: if and only if every action is registered. */
  lemma WellFormedTokensExactly(c: Config, mode: Mode)
    requires ValidConfig(c) && Orderly(c) && Staffed(c) && !mode.Chaotic?
    requires forall e | e in c.order :: exists rank :: WellFormed(c, e, rank)
    ensures (forall succeeds: (TaskId, nat) -> bool :: Conserves(Behaving(c, succeeds), mode)) <==> Registered(c)
  {
    forall other | Closed(c, other) ensures c.specs.Keys <= other {
      forall t | t in c.specs ensures t in other {
        var rank :| WellFormed(c, c.specs[t].executionId, rank);
        WellFormedIsInside(c, c.specs[t].executionId, rank, other, t);
      }
    }
    TokensExactly(c, mode, c.specs.Keys);
  }
}
