/** Workflows sharing the table, the queues, the channels, the workers and the coordinator do not affect one another:
    what one workflow sees of a run is a run of that workflow alone. */
module Projection {
  import opened Domain
  import opened TaskTable
  import opened WorkerSteps
  import opened Protocol
  import opened Closure
  import opened Tokens
  import opened TokenSteps
  import opened ResolveStep
  import opened Invariant
  import opened Termination
  import opened Progress

  // ---- lists ----

  function Kept(q: seq<TaskId>, keep: set<TaskId>): seq<TaskId> {
    if q == [] then [] else (if q[0] in keep then [q[0]] else []) + Kept(q[1..], keep)
  }

  function KeptEvents(q: seq<Event>, keep: set<TaskId>): seq<Event> {
    if q == [] then [] else (if q[0].taskId in keep then [q[0]] else []) + KeptEvents(q[1..], keep)
  }

  lemma {:induction false} KeptAppend(q: seq<TaskId>, t: TaskId, keep: set<TaskId>)
    ensures Kept(q + [t], keep) == Kept(q, keep) + (if t in keep then [t] else [])
  {
    if q == [] {
      assert q + [t] == [t] && [t][1..] == [];
    } else {
      var head := if q[0] in keep then [q[0]] else [];
      var tail := if t in keep then [t] else [];
      KeptAppend(q[1..], t, keep);
      assert (q + [t])[0] == q[0] && (q + [t])[1..] == q[1..] + [t];
      assert head + (Kept(q[1..], keep) + tail) == (head + Kept(q[1..], keep)) + tail;
    }
  }

  lemma {:induction false} KeptEventsAppend(q: seq<Event>, ev: Event, keep: set<TaskId>)
    ensures KeptEvents(q + [ev], keep) == KeptEvents(q, keep) + (if ev.taskId in keep then [ev] else [])
  {
    if q == [] {
      assert q + [ev] == [ev] && [ev][1..] == [];
    } else {
      var head := if q[0].taskId in keep then [q[0]] else [];
      var tail := if ev.taskId in keep then [ev] else [];
      KeptEventsAppend(q[1..], ev, keep);
      assert (q + [ev])[0] == q[0] && (q + [ev])[1..] == q[1..] + [ev];
      assert head + (KeptEvents(q[1..], keep) + tail) == (head + KeptEvents(q[1..], keep)) + tail;
    }
  }

  lemma {:induction false} KeptEventsWithout(q: seq<Event>, i: nat, keep: set<TaskId>) returns (j: nat)
    requires i < |q|
    ensures q[i].taskId in keep ==>
              j < |KeptEvents(q, keep)| && KeptEvents(Without(q, i), keep) == Without(KeptEvents(q, keep), j)
    ensures q[i].taskId !in keep ==> KeptEvents(Without(q, i), keep) == KeptEvents(q, keep)
  {
    if i == 0 {
      j := 0;
      assert Without(q, 0) == q[1..];
      assert q[0].taskId in keep ==> Without(KeptEvents(q, keep), 0) == KeptEvents(q[1..], keep);
    } else {
      var k := KeptEventsWithout(q[1..], i - 1, keep);
      assert Without(q, i)[0] == q[0] && Without(q, i)[1..] == Without(q[1..], i - 1);
      var head := if q[0].taskId in keep then [q[0]] else [];
      j := k + |head|;
      if q[i].taskId in keep {
        assert Without(head + KeptEvents(q[1..], keep), j) == head + Without(KeptEvents(q[1..], keep), k);
      }
    }
  }

  lemma {:induction false} KeptWhole(q: seq<TaskId>, keep: set<TaskId>)
    ensures (forall t | t in q :: t in keep) ==> Kept(q, keep) == q
    ensures (forall t | t in q :: t !in keep) ==> Kept(q, keep) == []
  {
    if q != [] {
      KeptWhole(q[1..], keep);
      assert q == [q[0]] + q[1..];
    }
  }

  // ---- what one workflow sees ----

  function Alone(c: Config, e: ExecutionId): Config {
    Config(SeenMap(c.specs, TasksOf(c, e)), SeenOf(c.order, e), c.workers, c.handlers)
  }

  function SeenPc(pc: Pc, keep: set<TaskId>): Pc {
    if !pc.Idle? && pc.Held() in keep then pc else Idle
  }

  function SeenCoordinator(pc: CoordinatorPc, keep: set<TaskId>, e: ExecutionId): CoordinatorPc {
    match pc
    case Waiting => Waiting
    case Got(ev) => if ev.taskId in keep then pc else Waiting
    case Pushing(ready) => if Kept(ready, keep) == [] then Waiting else Pushing(Kept(ready, keep))
    case Checking(x) => if x == e then pc else Waiting
    case Deciding(x) => if x == e then pc else Waiting
  }

  function SeenMap<V>(m: map<TaskId, V>, keep: set<TaskId>): map<TaskId, V> {
    map t | t in m && t in keep :: m[t]
  }

  function SeenOf<V>(m: map<ExecutionId, V>, e: ExecutionId): map<ExecutionId, V> {
    map x | x in m && x == e :: m[x]
  }

  function SeenWorkers(workers: map<WorkerId, Pc>, keep: set<TaskId>): map<WorkerId, Pc> {
    map w | w in workers :: SeenPc(workers[w], keep)
  }

  function SeenStore(st: Store, keep: set<TaskId>, e: ExecutionId): Store {
    Store(SeenMap(st.rows, keep), SeenOf(st.verdicts, e), Kept(st.retryQueue, keep),
          KeptEvents(st.completed, keep), KeptEvents(st.terminated, keep))
  }

  function Seen(s: State, keep: set<TaskId>, e: ExecutionId): State {
    State(SeenStore(s.store, keep, e), Kept(s.mainQueue, keep), SeenOf(s.submitters, e),
          SeenWorkers(s.workers, keep), SeenCoordinator(s.coordinator, keep, e),
          Kept(s.log, keep), SeenMap(s.claims, keep))
  }

  /** The step does nothing to what the workflow sees, or is a step of the workflow alone. */
  ghost predicate Mirrors(c: Config, mode: Mode, e: ExecutionId, s: State, s': State) {
    var keep := TasksOf(c, e);
    || Seen(s', keep, e) == Seen(s, keep, e)
    || exists step :: RunStep(Alone(c, e), mode, Seen(s, keep, e), step, Seen(s', keep, e))
  }

  lemma MapUpdate<V>(m: map<TaskId, V>, t: TaskId, v: V, keep: set<TaskId>)
    ensures SeenMap(m[t := v], keep) == if t in keep then SeenMap(m, keep)[t := v] else SeenMap(m, keep)
  {
  }

  lemma OfUpdate<V>(m: map<ExecutionId, V>, x: ExecutionId, v: V, e: ExecutionId)
    ensures SeenOf(m[x := v], e) == if x == e then SeenOf(m, e)[x := v] else SeenOf(m, e)
  {
  }

  lemma WorkersUpdate(workers: map<WorkerId, Pc>, w: WorkerId, pc: Pc, keep: set<TaskId>)
    requires w in workers
    ensures SeenWorkers(workers[w := pc], keep) == SeenWorkers(workers, keep)[w := SeenPc(pc, keep)]
    ensures SeenPc(pc, keep) == SeenPc(workers[w], keep) ==>
              SeenWorkers(workers[w := pc], keep) == SeenWorkers(workers, keep)
  {
  }

  // ---- submitters, queues and channels ----

  lemma SubmitSeen(c: Config, e: ExecutionId, s: State)
    requires Placed(c, s) && RowsFit(c, s) && Enabled(c, s, SubmitPush(e))
    ensures var keep := TasksOf(c, e);
            && Enabled(Alone(c, e), Seen(s, keep, e), SubmitPush(e))
            && Seen(After(c, s, SubmitPush(e)), keep, e) == After(Alone(c, e), Seen(s, keep, e), SubmitPush(e))
  {
    var t := s.submitters[e][0];
    assert At(s, WithSubmitter(e), t);
    KeptAppend(s.mainQueue, t, TasksOf(c, e));
    OfUpdate(s.submitters, e, s.submitters[e][1..], e);
  }

  lemma SubmitUnseen(c: Config, e: ExecutionId, s: State, x: ExecutionId)
    requires Placed(c, s) && RowsFit(c, s) && Enabled(c, s, SubmitPush(x)) && x != e
    ensures Seen(After(c, s, SubmitPush(x)), TasksOf(c, e), e) == Seen(s, TasksOf(c, e), e)
  {
    var t := s.submitters[x][0];
    assert At(s, WithSubmitter(x), t);
    KeptAppend(s.mainQueue, t, TasksOf(c, e));
    OfUpdate(s.submitters, x, s.submitters[x][1..], e);
  }

  lemma SubmitMirrors(c: Config, mode: Mode, e: ExecutionId, s: State, x: ExecutionId)
    requires Placed(c, s) && RowsFit(c, s) && Enabled(c, s, SubmitPush(x))
    ensures Mirrors(c, mode, e, s, After(c, s, SubmitPush(x)))
  {
    if x == e {
      SubmitSeen(c, e, s);
      var seen := Seen(s, TasksOf(c, e), e);
      assert RunStep(Alone(c, e), mode, seen, SubmitPush(e), After(Alone(c, e), seen, SubmitPush(e)));
    } else {
      SubmitUnseen(c, e, s, x);
    }
  }

  lemma SubmitFailsMirrors(c: Config, mode: Mode, e: ExecutionId, s: State, x: ExecutionId)
    requires Enabled(c, s, SubmitFails(x)) && Allowed(mode, SubmitFails(x))
    ensures Mirrors(c, mode, e, s, After(c, s, SubmitFails(x)))
  {
    var keep := TasksOf(c, e);
    OfUpdate(s.submitters, x, [], e);
    if x == e {
      assert RunStep(Alone(c, e), mode, Seen(s, keep, e), SubmitFails(e), Seen(After(c, s, SubmitFails(x)), keep, e));
    }
  }

  lemma PopMirrors(c: Config, mode: Mode, e: ExecutionId, s: State, w: WorkerId)
    requires Enabled(c, s, Pop(w))
    ensures Mirrors(c, mode, e, s, After(c, s, Pop(w)))
  {
    var keep := TasksOf(c, e);
    var t := QueueOf(s, c.workers[w])[0];
    WorkersUpdate(s.workers, w, Popped(t), keep);
    if t in keep {
      PopSeen(c, e, s, w);
      assert RunStep(Alone(c, e), mode, Seen(s, keep, e), Pop(w), Seen(After(c, s, Pop(w)), keep, e));
    }
  }

  lemma PopSeen(c: Config, e: ExecutionId, s: State, w: WorkerId)
    requires Enabled(c, s, Pop(w)) && QueueOf(s, c.workers[w])[0] in TasksOf(c, e)
    ensures var keep := TasksOf(c, e);
            && Enabled(Alone(c, e), Seen(s, keep, e), Pop(w))
            && After(Alone(c, e), Seen(s, keep, e), Pop(w)) == Seen(After(c, s, Pop(w)), keep, e)
  {
    var keep := TasksOf(c, e);
    var q := QueueOf(s, c.workers[w]);
    WorkersUpdate(s.workers, w, Popped(q[0]), keep);
    assert QueueOf(Seen(s, keep, e), c.workers[w]) == Kept(q, keep);
    assert Kept(q, keep)[0] == q[0] && Kept(q, keep)[1..] == Kept(q[1..], keep);
  }

  lemma AbandonMirrors(c: Config, mode: Mode, e: ExecutionId, s: State, w: WorkerId)
    requires Enabled(c, s, Abandon(w)) && Allowed(mode, Abandon(w))
    ensures Mirrors(c, mode, e, s, After(c, s, Abandon(w)))
  {
    var keep := TasksOf(c, e);
    WorkersUpdate(s.workers, w, Idle, keep);
    if s.workers[w].Held() in keep {
      assert RunStep(Alone(c, e), mode, Seen(s, keep, e), Abandon(w), Seen(After(c, s, Abandon(w)), keep, e));
    }
  }

  lemma TakeSeen(c: Config, e: ExecutionId, s: State, completed: bool)
    requires Enabled(c, s, Take(completed)) && Channel(s, completed)[0].taskId in TasksOf(c, e)
    ensures var keep := TasksOf(c, e);
            && Enabled(Alone(c, e), Seen(s, keep, e), Take(completed))
            && After(Alone(c, e), Seen(s, keep, e), Take(completed)) == Seen(After(c, s, Take(completed)), keep, e)
  {
    var keep := TasksOf(c, e);
    var q := Channel(s, completed);
    assert Channel(Seen(s, keep, e), completed) == KeptEvents(q, keep);
    assert KeptEvents(q, keep)[0] == q[0] && KeptEvents(q, keep)[1..] == KeptEvents(q[1..], keep);
  }

  lemma TakeMirrors(c: Config, mode: Mode, e: ExecutionId, s: State, completed: bool)
    requires Enabled(c, s, Take(completed))
    ensures Mirrors(c, mode, e, s, After(c, s, Take(completed)))
  {
    var keep := TasksOf(c, e);
    if Channel(s, completed)[0].taskId in keep {
      TakeSeen(c, e, s, completed);
      assert RunStep(Alone(c, e), mode, Seen(s, keep, e), Take(completed), Seen(After(c, s, Take(completed)), keep, e));
    }
  }

  lemma LoseEventMirrors(c: Config, mode: Mode, e: ExecutionId, s: State, completed: bool, i: nat)
    requires Enabled(c, s, LoseEvent(completed, i)) && Allowed(mode, LoseEvent(completed, i))
    ensures Mirrors(c, mode, e, s, After(c, s, LoseEvent(completed, i)))
  {
    var keep := TasksOf(c, e);
    var q := Channel(s, completed);
    assert Channel(Seen(s, keep, e), completed) == KeptEvents(q, keep);
    var j := KeptEventsWithout(q, i, keep);
    if q[i].taskId in keep {
      assert RunStep(Alone(c, e), mode, Seen(s, keep, e), LoseEvent(completed, j),
                     Seen(After(c, s, LoseEvent(completed, i)), keep, e));
    }
  }

  // ---- the coordinator ----

  lemma PushSeen(c: Config, e: ExecutionId, s: State, step: Step)
    requires Enabled(c, s, step) && (step == CoordinatorPush || step == CoordinatorPushFails)
    requires s.coordinator.ready[0] in TasksOf(c, e)
    ensures var keep := TasksOf(c, e);
            && Enabled(Alone(c, e), Seen(s, keep, e), step)
            && After(Alone(c, e), Seen(s, keep, e), step) == Seen(After(c, s, step), keep, e)
  {
    var keep := TasksOf(c, e);
    var ready := s.coordinator.ready;
    KeptAppend(s.mainQueue, ready[0], keep);
    assert Kept(ready, keep)[0] == ready[0] && Kept(ready, keep)[1..] == Kept(ready[1..], keep);
  }

  lemma PushUnseen(c: Config, e: ExecutionId, s: State, step: Step)
    requires Enabled(c, s, step) && (step == CoordinatorPush || step == CoordinatorPushFails)
    requires s.coordinator.ready[0] !in TasksOf(c, e)
    ensures Seen(After(c, s, step), TasksOf(c, e), e) == Seen(s, TasksOf(c, e), e)
  {
    var keep := TasksOf(c, e);
    var ready := s.coordinator.ready;
    KeptAppend(s.mainQueue, ready[0], keep);
    assert Kept(ready, keep) == Kept(ready[1..], keep);
  }

  lemma PushMirrors(c: Config, mode: Mode, e: ExecutionId, s: State, step: Step)
    requires Enabled(c, s, step) && Allowed(mode, step) && (step == CoordinatorPush || step == CoordinatorPushFails)
    ensures Mirrors(c, mode, e, s, After(c, s, step))
  {
    var keep := TasksOf(c, e);
    if s.coordinator.ready[0] in keep {
      PushSeen(c, e, s, step);
      assert RunStep(Alone(c, e), mode, Seen(s, keep, e), step, Seen(After(c, s, step), keep, e));
    } else {
      PushUnseen(c, e, s, step);
    }
  }

  lemma StopMirrors(c: Config, mode: Mode, e: ExecutionId, s: State)
    requires Enabled(c, s, CoordinatorStops) && Allowed(mode, CoordinatorStops)
    ensures Mirrors(c, mode, e, s, After(c, s, CoordinatorStops))
  {
    var keep := TasksOf(c, e);
    if !SeenCoordinator(s.coordinator, keep, e).Waiting? {
      var s' := After(c, s, CoordinatorStops);
      assert RunStep(Alone(c, e), mode, Seen(s, keep, e), CoordinatorStops, Seen(s', keep, e));
    }
  }

  lemma SeenAllCompleted(c: Config, s: State, e: ExecutionId)
    requires RowsFit(c, s)
    ensures AllCompleted(SeenMap(s.store.rows, TasksOf(c, e)), e) <==> AllCompleted(s.store.rows, e)
  {
    var seen := SeenMap(s.store.rows, TasksOf(c, e));
    if AllCompleted(seen, e) {
      forall t | t in s.store.rows && s.store.rows[t].spec.executionId == e
        ensures s.store.rows[t].status == Completed
      {
        assert t in c.specs;
        assert t in seen;
      }
    }
  }

  lemma VerdictSeen(c: Config, e: ExecutionId, s: State, step: Step)
    requires RowsFit(c, s) && Enabled(c, s, step) && (step == Check || step == Decide) && s.coordinator.execution == e
    ensures var keep := TasksOf(c, e);
            && Enabled(Alone(c, e), Seen(s, keep, e), step)
            && After(Alone(c, e), Seen(s, keep, e), step) == Seen(After(c, s, step), keep, e)
  {
    OfUpdate(s.store.verdicts, e, WorkflowCompleted, e);
    if step == Check {
      SeenAllCompleted(c, s, e);
    }
  }

  lemma VerdictMirrors(c: Config, mode: Mode, e: ExecutionId, s: State, step: Step)
    requires RowsFit(c, s) && Enabled(c, s, step) && (step == Check || step == Decide)
    ensures Mirrors(c, mode, e, s, After(c, s, step))
  {
    var keep := TasksOf(c, e);
    if s.coordinator.execution == e {
      VerdictSeen(c, e, s, step);
      assert RunStep(Alone(c, e), mode, Seen(s, keep, e), step, Seen(After(c, s, step), keep, e));
    } else {
      OfUpdate(s.store.verdicts, s.coordinator.execution, WorkflowCompleted, e);
    }
  }

  // ---- the decrement ----

  lemma DecrementSeen(rows: Rows, x: ExecutionId, ref: RefId, taint: bool, keep: set<TaskId>, e: ExecutionId)
    requires forall t | t in rows :: t in keep <==> rows[t].spec.executionId == e
    ensures SeenMap(Decrement(rows, x, ref, taint), keep)
         == if x == e then Decrement(SeenMap(rows, keep), x, ref, taint) else SeenMap(rows, keep)
    ensures x == e ==> ReadySet(SeenMap(rows, keep), x, ref) == ReadySet(rows, x, ref)
    ensures forall t | t in ReadySet(rows, x, ref) :: t in keep <==> x == e
  {
  }

  lemma MembersOfRows(c: Config, s: State, e: ExecutionId)
    requires RowsFit(c, s)
    ensures forall t | t in s.store.rows :: t in TasksOf(c, e) <==> s.store.rows[t].spec.executionId == e
  {
  }

  lemma EventMember(c: Config, s: State, e: ExecutionId)
    requires TokenInv(c, s) && s.coordinator.Got?
    ensures s.coordinator.event.taskId in TasksOf(c, e) <==> s.coordinator.event.executionId == e
  {
    EventIsNew(c, s);
  }

  lemma ReadySeen(s: State, ready: seq<TaskId>, keep: set<TaskId>, e: ExecutionId)
    requires s.coordinator.Got?
    requires var ev := s.coordinator.event; Enumerates(ready, ReadySet(s.store.rows, ev.executionId, ev.refId))
    requires forall t | t in s.store.rows :: t in keep <==> s.store.rows[t].spec.executionId == e
    ensures Kept(ready, keep) == if s.coordinator.event.executionId == e then ready else []
  {
    var ev := s.coordinator.event;
    DecrementSeen(s.store.rows, ev.executionId, ev.refId, true, keep, e);
    assert forall t | t in ready :: t in keep <==> ev.executionId == e;
    KeptWhole(ready, keep);
  }

  lemma ResolvedSeen(s: State, ready: seq<TaskId>, keep: set<TaskId>, e: ExecutionId)
    requires s.coordinator.Got? && s.coordinator.event.executionId == e && s.coordinator.event.taskId in keep
    requires forall t | t in s.store.rows :: t in keep <==> s.store.rows[t].spec.executionId == e
    requires Kept(ready, keep) == ready
    ensures AfterResolve(Seen(s, keep, e), ready) == Seen(AfterResolve(s, ready), keep, e)
  {
    var ev := s.coordinator.event;
    DecrementSeen(s.store.rows, ev.executionId, ev.refId, ev.TaskTerminated?, keep, e);
    KeptAppend(s.log, ev.taskId, keep);
  }

  lemma ResolveSeen(c: Config, e: ExecutionId, s: State, ready: seq<TaskId>)
    requires TokenInv(c, s) && Enabled(c, s, Resolve(ready)) && s.coordinator.event.executionId == e
    ensures var keep := TasksOf(c, e);
            && Enabled(Alone(c, e), Seen(s, keep, e), Resolve(ready))
            && After(Alone(c, e), Seen(s, keep, e), Resolve(ready)) == Seen(After(c, s, Resolve(ready)), keep, e)
  {
    var keep := TasksOf(c, e);
    var ev := s.coordinator.event;
    MembersOfRows(c, s, e);
    EventMember(c, s, e);
    ReadySeen(s, ready, keep, e);
    DecrementSeen(s.store.rows, ev.executionId, ev.refId, ev.TaskTerminated?, keep, e);
    ResolvedSeen(s, ready, keep, e);
  }

  lemma ResolvedUnseen(s: State, ready: seq<TaskId>, keep: set<TaskId>, e: ExecutionId)
    requires s.coordinator.Got? && s.coordinator.event.executionId != e && s.coordinator.event.taskId !in keep
    requires forall t | t in s.store.rows :: t in keep <==> s.store.rows[t].spec.executionId == e
    requires Kept(ready, keep) == []
    ensures Seen(AfterResolve(s, ready), keep, e) == Seen(s, keep, e)
  {
    var ev := s.coordinator.event;
    DecrementSeen(s.store.rows, ev.executionId, ev.refId, ev.TaskTerminated?, keep, e);
    KeptAppend(s.log, ev.taskId, keep);
  }

  lemma ResolveUnseen(c: Config, e: ExecutionId, s: State, ready: seq<TaskId>)
    requires TokenInv(c, s) && Enabled(c, s, Resolve(ready)) && s.coordinator.event.executionId != e
    ensures Seen(After(c, s, Resolve(ready)), TasksOf(c, e), e) == Seen(s, TasksOf(c, e), e)
  {
    MembersOfRows(c, s, e);
    EventMember(c, s, e);
    ReadySeen(s, ready, TasksOf(c, e), e);
    ResolvedUnseen(s, ready, TasksOf(c, e), e);
  }

  lemma ResolveMirrors(c: Config, mode: Mode, e: ExecutionId, s: State, ready: seq<TaskId>)
    requires TokenInv(c, s) && Enabled(c, s, Resolve(ready))
    ensures Mirrors(c, mode, e, s, After(c, s, Resolve(ready)))
  {
    var keep := TasksOf(c, e);
    if s.coordinator.event.executionId == e {
      ResolveSeen(c, e, s, ready);
      assert RunStep(Alone(c, e), mode, Seen(s, keep, e), Resolve(ready), Seen(After(c, s, Resolve(ready)), keep, e));
    } else {
      ResolveUnseen(c, e, s, ready);
    }
  }

  // ---- workers ----

  lemma EffectSeen(st: Store, effect: Effect, keep: set<TaskId>, e: ExecutionId, mine: bool)
    requires match effect
             case NoEffect => true
             case PushRetry(id) => id in keep <==> mine
             case Announce(ev) => ev.taskId in keep <==> mine
             case FailWorkflow(x) => x == e <==> mine
    ensures SeenStore(ApplyEffect(st, effect), keep, e)
         == if mine then ApplyEffect(SeenStore(st, keep, e), effect) else SeenStore(st, keep, e)
  {
    match effect
    case NoEffect =>
    case PushRetry(id) => KeptAppend(st.retryQueue, id, keep);
    case Announce(ev) =>
      KeptEventsAppend(st.completed, ev, keep);
      KeptEventsAppend(st.terminated, ev, keep);
    case FailWorkflow(x) => OfUpdate(st.verdicts, x, WorkflowFailed, e);
  }

  lemma WorkSeenEffect(c: Config, e: ExecutionId, s: State, w: WorkerId)
    requires TokenInv(c, s) && Registered(c) && Enabled(c, s, Work(w))
    ensures var keep := TasksOf(c, e); var t := s.workers[w].Held();
            var move := MoveOf(c.handlers, w, s.store, s.workers[w]);
            && t in s.store.rows
            && (t in keep <==> s.store.rows[t].spec.executionId == e)
            && (!move.pc.Idle? ==> move.pc.Held() == t)
            && match move.effect
               case NoEffect => true
               case PushRetry(id) => id == t
               case Announce(ev) => ev.taskId == t
               case FailWorkflow(x) => x == s.store.rows[t].spec.executionId
  {
    HeldRow(c, s, w);
    AdvanceKeepsRow(c.handlers, w, s.workers[w], s.store.rows[s.workers[w].Held()], s.claims[s.workers[w].Held()]);
  }

  lemma StoreSeen(h: Handlers, w: WorkerId, st: Store, pc: Pc, keep: set<TaskId>, e: ExecutionId)
    requires !pc.Idle? && pc.Held() in st.rows
    requires var mine := pc.Held() in keep;
             match MoveOf(h, w, st, pc).effect
             case NoEffect => true
             case PushRetry(id) => id in keep <==> mine
             case Announce(ev) => ev.taskId in keep <==> mine
             case FailWorkflow(x) => x == e <==> mine
    ensures pc.Held() in keep ==> MoveOf(h, w, SeenStore(st, keep, e), pc) == MoveOf(h, w, st, pc)
    ensures SeenStore(StoreAfter(h, w, st, pc), keep, e)
         == if pc.Held() in keep then StoreAfter(h, w, SeenStore(st, keep, e), pc) else SeenStore(st, keep, e)
  {
    var t := pc.Held();
    var move := MoveOf(h, w, st, pc);
    assert t in keep ==> Find(SeenMap(st.rows, keep), t) == Find(st.rows, t);
    if move.row.Some? {
      MapUpdate(st.rows, t, move.row.value, keep);
    }
    EffectSeen(st.(rows := WithRow(st.rows, t, move.row)), move.effect, keep, e, t in keep);
  }

  /** A worker's step, with the outcome of its statement given: it touches only its own slots. */
  ghost predicate WorkShape(s: State, s': State, w: WorkerId, pc: Pc, store: Store, claim: bool) {
    && w in s.workers && !s.workers[w].Idle?
    && s' == s.(store := store, workers := s.workers[w := pc],
                claims := if claim && s.workers[w].Held() in s.claims
                          then s.claims[s.workers[w].Held() := s.claims[s.workers[w].Held()] + 1] else s.claims)
  }

  lemma ShapeSeen(s: State, s': State, w: WorkerId, pc: Pc, store: Store, claim: bool, keep: set<TaskId>,
                  e: ExecutionId)
    requires WorkShape(s, s', w, pc, store, claim) && s.workers[w].Held() in keep
    requires !pc.Idle? ==> pc.Held() == s.workers[w].Held()
    ensures WorkShape(Seen(s, keep, e), Seen(s', keep, e), w, pc, SeenStore(store, keep, e), claim)
  {
    WorkersUpdate(s.workers, w, pc, keep);
    if s.workers[w].Held() in s.claims {
      MapUpdate(s.claims, s.workers[w].Held(), s.claims[s.workers[w].Held()] + 1, keep);
    }
  }

  lemma ShapeUnseen(s: State, s': State, w: WorkerId, pc: Pc, store: Store, claim: bool, keep: set<TaskId>,
                    e: ExecutionId)
    requires WorkShape(s, s', w, pc, store, claim) && s.workers[w].Held() !in keep
    requires !pc.Idle? ==> pc.Held() == s.workers[w].Held()
    requires SeenStore(store, keep, e) == SeenStore(s.store, keep, e)
    ensures Seen(s', keep, e) == Seen(s, keep, e)
  {
    WorkersUpdate(s.workers, w, pc, keep);
    if s.workers[w].Held() in s.claims {
      MapUpdate(s.claims, s.workers[w].Held(), s.claims[s.workers[w].Held()] + 1, keep);
    }
  }

  lemma WorkHasShape(c: Config, s: State, w: WorkerId, move: Move, store: Store)
    requires Enabled(c, s, Work(w))
    requires move == MoveOf(c.handlers, w, s.store, s.workers[w])
    requires store == StoreAfter(c.handlers, w, s.store, s.workers[w])
    ensures WorkShape(s, After(c, s, Work(w)), w, move.pc, store, move.pc.Owned?)
    ensures forall s' :: WorkShape(s, s', w, move.pc, store, move.pc.Owned?) ==> s' == After(c, s, Work(w))
  {
  }

  lemma WorkSeen(c: Config, e: ExecutionId, s: State, w: WorkerId)
    requires TokenInv(c, s) && Registered(c) && Enabled(c, s, Work(w))
    ensures var keep := TasksOf(c, e);
            if s.workers[w].Held() in keep then
              && Enabled(Alone(c, e), Seen(s, keep, e), Work(w))
              && After(Alone(c, e), Seen(s, keep, e), Work(w)) == Seen(After(c, s, Work(w)), keep, e)
            else Seen(After(c, s, Work(w)), keep, e) == Seen(s, keep, e)
  {
    var keep := TasksOf(c, e);
    var pc := s.workers[w];
    var move := MoveOf(c.handlers, w, s.store, pc);
    var store := StoreAfter(c.handlers, w, s.store, pc);
    WorkSeenEffect(c, e, s, w);
    StoreSeen(c.handlers, w, s.store, pc, keep, e);
    WorkHasShape(c, s, w, move, store);
    if pc.Held() in keep {
      ShapeSeen(s, After(c, s, Work(w)), w, move.pc, store, move.pc.Owned?, keep, e);
      WorkHasShape(Alone(c, e), Seen(s, keep, e), w, move, SeenStore(store, keep, e));
    } else {
      ShapeUnseen(s, After(c, s, Work(w)), w, move.pc, store, move.pc.Owned?, keep, e);
    }
  }

  lemma WorkMirrors(c: Config, mode: Mode, e: ExecutionId, s: State, w: WorkerId)
    requires TokenInv(c, s) && Registered(c) && Enabled(c, s, Work(w))
    ensures Mirrors(c, mode, e, s, After(c, s, Work(w)))
  {
    var keep := TasksOf(c, e);
    WorkSeen(c, e, s, w);
    if s.workers[w].Held() in keep {
      assert RunStep(Alone(c, e), mode, Seen(s, keep, e), Work(w), Seen(After(c, s, Work(w)), keep, e));
    }
  }

  // ---- runs ----

  /** Every step of the shared system is a step of workflow `e` alone, or none at all, in the eyes of `e`. */
  lemma StepMirrors(c: Config, mode: Mode, e: ExecutionId, s: State, step: Step)
    requires Registered(c) && Base(c, s) && !mode.Chaotic? && Allowed(mode, step) && Enabled(c, s, step)
    ensures Mirrors(c, mode, e, s, After(c, s, step))
  {
    match step
    case SubmitPush(x) => SubmitMirrors(c, mode, e, s, x);
    case SubmitFails(x) => SubmitFailsMirrors(c, mode, e, s, x);
    case Pop(w) => PopMirrors(c, mode, e, s, w);
    case Work(w) => WorkMirrors(c, mode, e, s, w);
    case Abandon(w) => AbandonMirrors(c, mode, e, s, w);
    case Take(completed) => TakeMirrors(c, mode, e, s, completed);
    case LoseEvent(completed, i) => LoseEventMirrors(c, mode, e, s, completed, i);
    case Resolve(ready) => ResolveMirrors(c, mode, e, s, ready);
    case CoordinatorPush => PushMirrors(c, mode, e, s, step);
    case CoordinatorPushFails => PushMirrors(c, mode, e, s, step);
    case CoordinatorStops => StopMirrors(c, mode, e, s);
    case Check => VerdictMirrors(c, mode, e, s, step);
    case Decide => VerdictMirrors(c, mode, e, s, step);
  }

  lemma {:induction false} AloneRoots(specs: map<TaskId, TaskSpec>, specs': map<TaskId, TaskSpec>, ids: seq<TaskId>)
    requires forall t | t in ids :: t in specs && t in specs' && specs[t] == specs'[t]
    ensures Roots(specs, ids) == Roots(specs', ids)
  {
    if ids != [] {
      AloneRoots(specs, specs', ids[1..]);
    }
  }

  lemma AloneValid(c: Config, e: ExecutionId)
    requires ValidConfig(c)
    ensures ValidConfig(Alone(c, e))
  {
  }

  lemma InitRowsSeen(specs: map<TaskId, TaskSpec>, keep: set<TaskId>)
    ensures SeenMap(InitialRows(specs), keep) == InitialRows(SeenMap(specs, keep))
  {
  }

  lemma InitRootsSeen(specs: map<TaskId, TaskSpec>, order: map<ExecutionId, seq<TaskId>>, keep: set<TaskId>,
                    e: ExecutionId)
    requires forall x, t | x in order && t in order[x] :: t in specs
    requires forall t | e in order && t in order[e] :: t in keep
    ensures SeenOf(InitialRoots(specs, order), e) == InitialRoots(SeenMap(specs, keep), SeenOf(order, e))
  {
    if e in order {
      AloneRoots(specs, SeenMap(specs, keep), order[e]);
    }
  }

  lemma InitialStateSeen(specs: map<TaskId, TaskSpec>, order: map<ExecutionId, seq<TaskId>>, workers: map<WorkerId,
                    Pool>,
                         keep: set<TaskId>, e: ExecutionId)
    requires forall x, t | x in order && t in order[x] :: t in specs
    requires forall t | e in order && t in order[e] :: t in keep
    ensures Seen(InitialState(specs, order, workers), keep, e)
         == InitialState(SeenMap(specs, keep), SeenOf(order, e), workers)
  {
    InitRowsSeen(specs, keep);
    InitRootsSeen(specs, order, keep, e);
  }

  lemma InitSeen(c: Config, e: ExecutionId)
    requires ValidConfig(c)
    ensures ValidConfig(Alone(c, e)) && Seen(Init(c), TasksOf(c, e), e) == Init(Alone(c, e))
  {
    AloneValid(c, e);
    InitialStateSeen(c.specs, c.order, c.workers, TasksOf(c, e), e);
  }

  /** `states'` passes, in order, through each of `seen`: `at[k]` is the moment that shows `seen[k]`, and from one to
      the next there is one step or none. */
  predicate Paced(seen: seq<State>, states': seq<State>, at: seq<nat>) {
    && |at| == |seen| > 0 && at[0] == 0 && at[|at|-1] + 1 == |states'|
    && (forall k | 0 < k < |at| :: at[k-1] <= at[k] <= at[k-1] + 1)
    && (forall k | 0 <= k < |at| :: at[k] < |states'| && states'[at[k]] == seen[k])
  }

  lemma PacedWaits(seen: seq<State>, states': seq<State>, at: seq<nat>)
    requires Paced(seen, states', at)
    ensures Paced(seen + [states'[|states'|-1]], states', at + [|states'| - 1])
  {
  }

  lemma PacedMoves(seen: seq<State>, s: State, states': seq<State>, at: seq<nat>)
    requires Paced(seen, states', at)
    ensures Paced(seen + [s], states' + [s], at + [|states'|])
  {
    var longer := at + [|states'|];
    forall k | 0 <= k < |longer| ensures longer[k] < |states' + [s]| && (states' + [s])[longer[k]] == (seen + [s])[k] {
      if k < |at| {
        assert longer[k] == at[k] && (states' + [s])[at[k]] == states'[at[k]];
      }
    }
  }

  /** What `e` sees of each state. */
  function SeenAll(c: Config, e: ExecutionId, states: seq<State>): (seen: seq<State>)
    ensures |seen| == |states| && forall k | 0 <= k < |states| :: seen[k] == Seen(states[k], TasksOf(c, e), e)
  {
    seq(|states|, k requires 0 <= k < |states| => Seen(states[k], TasksOf(c, e), e))
  }

  /** A run of workflow `e` alone that passes through what `e` sees of each of `states`. */
  ghost predicate Traces(c: Config, mode: Mode, e: ExecutionId, states: seq<State>,
                         states': seq<State>, steps': seq<Step>, at: seq<nat>) {
    Run(Alone(c, e), mode, states', steps') && Paced(SeenAll(c, e, states), states', at)
  }

  lemma SeenAllGrows(c: Config, e: ExecutionId, states: seq<State>, s: State)
    ensures SeenAll(c, e, states + [s]) == SeenAll(c, e, states) + [Seen(s, TasksOf(c, e), e)]
  {
  }

  lemma TraceWaits(c: Config, mode: Mode, e: ExecutionId, states: seq<State>, s: State,
                   states': seq<State>, steps': seq<Step>, at: seq<nat>)
    requires Traces(c, mode, e, states, states', steps', at)
    requires Seen(s, TasksOf(c, e), e) == Seen(states[|states|-1], TasksOf(c, e), e)
    ensures Traces(c, mode, e, states + [s], states', steps', at + [|steps'|])
  {
    SeenAllGrows(c, e, states, s);
    PacedWaits(SeenAll(c, e, states), states', at);
  }

  lemma TraceMoves(c: Config, mode: Mode, e: ExecutionId, states: seq<State>, s: State,
                   states': seq<State>, steps': seq<Step>, at: seq<nat>, step: Step)
    requires Traces(c, mode, e, states, states', steps', at)
    requires RunStep(Alone(c, e), mode, Seen(states[|states|-1], TasksOf(c, e), e), step, Seen(s, TasksOf(c, e), e))
    ensures Traces(c, mode, e, states + [s],
                   states' + [Seen(s, TasksOf(c, e), e)], steps' + [step], at + [|steps'| + 1])
  {
    SeenAllGrows(c, e, states, s);
    PacedMoves(SeenAll(c, e, states), Seen(s, TasksOf(c, e), e), states', at);
    Extends(Alone(c, e), mode, states', steps', step);
  }

  lemma TraceGrows(c: Config, mode: Mode, e: ExecutionId, states: seq<State>, s: State,
                   states': seq<State>, steps': seq<Step>, at: seq<nat>)
      returns (states'': seq<State>, steps'': seq<Step>, at': seq<nat>)
    requires Traces(c, mode, e, states, states', steps', at)
    requires Mirrors(c, mode, e, states[|states|-1], s)
    ensures Traces(c, mode, e, states + [s], states'', steps'', at')
  {
    var keep := TasksOf(c, e);
    if Seen(s, keep, e) == Seen(states[|states|-1], keep, e) {
      TraceWaits(c, mode, e, states, s, states', steps', at);
      states'', steps'', at' := states', steps', at + [|steps'|];
    } else {
      var step :| RunStep(Alone(c, e), mode, Seen(states[|states|-1], keep, e), step, Seen(s, keep, e));
      TraceMoves(c, mode, e, states, s, states', steps', at, step);
      states'', steps'', at' := states' + [Seen(s, keep, e)], steps' + [step], at + [|steps'| + 1];
    }
  }

  lemma RunStepMirrors(c: Config, mode: Mode, e: ExecutionId, s: State, step: Step, s': State)
    requires Stored(c) && Base(c, s) && !mode.Chaotic? && RunStep(c, mode, s, step, s')
    ensures Mirrors(c, mode, e, s, s')
  {
    StepMirrors(c, mode, e, s, step);
  }

  lemma RunMirrors(c: Config, mode: Mode, e: ExecutionId, states: seq<State>, steps: seq<Step>, i: nat)
    requires Stored(c) && Run(c, mode, states, steps) && !mode.Chaotic? && i < |steps|
    ensures Mirrors(c, mode, e, states[i], states[i+1])
  {
    RunKeeps(c, mode, states, steps, i);
    RunStepMirrors(c, mode, e, states[i], steps[i], states[i+1]);
  }

  lemma StartTraces(c: Config, mode: Mode, e: ExecutionId)
    requires ValidConfig(c)
    ensures Traces(c, mode, e, [Init(c)], [Init(Alone(c, e))], [], [0])
  {
    InitSeen(c, e);
  }

  lemma PrefixGrows(c: Config, mode: Mode, e: ExecutionId, states: seq<State>, steps: seq<Step>, i: nat,
                    states': seq<State>, steps': seq<Step>, at: seq<nat>)
      returns (states'': seq<State>, steps'': seq<Step>, at': seq<nat>)
    requires Stored(c) && Run(c, mode, states, steps) && !mode.Chaotic? && 0 < i < |states|
    requires Traces(c, mode, e, states[..i], states', steps', at)
    ensures Traces(c, mode, e, states[..i+1], states'', steps'', at')
  {
    RunMirrors(c, mode, e, states, steps, i - 1);
    states'', steps'', at' := TraceGrows(c, mode, e, states[..i], states[i], states', steps', at);
    assert states[..i] + [states[i]] == states[..i+1];
  }

  lemma {:induction false} PrefixTraces(c: Config, mode: Mode, e: ExecutionId, states: seq<State>, steps: seq<Step>,
                                        i: nat) returns (states': seq<State>, steps': seq<Step>, at: seq<nat>)
    requires Stored(c) && Run(c, mode, states, steps) && !mode.Chaotic? && i < |states|
    ensures Traces(c, mode, e, states[..i+1], states', steps', at)
  {
    if i == 0 {
      StartTraces(c, mode, e);
      states', steps', at := [Init(Alone(c, e))], [], [0];
      assert states[..1] == [Init(c)];
    } else {
      states', steps', at := PrefixTraces(c, mode, e, states, steps, i - 1);
      states', steps', at := PrefixGrows(c, mode, e, states, steps, i, states', steps', at);
    }
  }

  /** Any run over many workflows, even with coinciding reference ids, shows each workflow one run of that workflow
      alone: the same moments in the same order, with nothing but pauses in between. */
  lemma RunProjects(c: Config, mode: Mode, e: ExecutionId, states: seq<State>, steps: seq<Step>)
      returns (states': seq<State>, steps': seq<Step>, at: seq<nat>)
    requires Stored(c) && Run(c, mode, states, steps) && !mode.Chaotic?
    ensures Run(Alone(c, e), mode, states', steps')
    ensures |at| == |states| && at[0] == 0 && at[|at|-1] == |steps'|
    ensures forall k | 0 < k < |at| :: at[k-1] <= at[k] <= at[k-1] + 1
    ensures forall k | 0 <= k < |at| :: at[k] <= |steps'| && states'[at[k]] == Seen(states[k], TasksOf(c, e), e)
  {
    states', steps', at := PrefixTraces(c, mode, e, states, steps, |steps|);
    assert states[..|steps|+1] == states;
  }

  /** In particular what a workflow sees of a reachable state is reachable for that workflow alone. */
  lemma ReachableAlone(c: Config, mode: Mode, e: ExecutionId, s: State)
    requires Stored(c) && Reachable(c, mode, s) && !mode.Chaotic?
    ensures Reachable(Alone(c, e), mode, Seen(s, TasksOf(c, e), e))
  {
    var states, steps :| Run(c, mode, states, steps) && s == states[|steps|];
    var states', steps', at := RunProjects(c, mode, e, states, steps);
    assert at[|steps|] == |steps'|;
  }

  lemma NothingToRun(c: Config, mode: Mode, s: State)
    requires Stored(c) && Reachable(c, mode, s) && !mode.Chaotic? && c.specs == map[]
    ensures s == Init(c)
  {
    var states, steps :| Run(c, mode, states, steps) && s == states[|steps|];
    RunsAreBounded(c, mode, states, steps, 0);
  }

  /** A stored workflow without tasks never gets a verdict: no event of its own ever triggers the check. */
  lemma EmptyWorkflowStaysRunning(c: Config, mode: Mode, e: ExecutionId, s: State)
    requires Stored(c) && Reachable(c, mode, s) && !mode.Chaotic? && e in c.order && c.order[e] == []
    ensures e in s.store.verdicts && s.store.verdicts[e] == WorkflowRunning
  {
    ReachableAlone(c, mode, e, s);
    AloneValid(c, e);
    assert TasksOf(c, e) == {};
    assert Alone(c, e).specs == map[];
    NothingToRun(Alone(c, e), mode, Seen(s, TasksOf(c, e), e));
    assert e in Seen(s, TasksOf(c, e), e).store.verdicts;
  }
}
