/** Every step other than the coordinator's decrement keeps the token and row invariants. */
module TokenSteps {
  import opened Domain
  import opened TaskTable
  import opened WorkerSteps
  import opened Protocol
  import opened Tokens

  ghost predicate TokenInv(c: Config, s: State) {
    OneToken(s) && Placed(c, s) && Announced(s) && RowsFit(c, s)
  }

  // ---- which task each step moves, and where ----

  function Source(c: Config, w: WorkerId): Place
    requires w in c.workers
  {
    if c.workers[w].MainPool? then InMainQueue else InRetryQueue
  }

  /** Where a worker's statement puts its task. */
  function Destination(w: WorkerId, effect: Effect): Shift {
    match effect
    case PushRetry(_) => Go(AtWorker(w), 0, Some(InRetryQueue))
    case Announce(ev) => Go(AtWorker(w), 0, Some(InChannel(ev.TaskCompleted?)))
    case _ => Stay
  }

  /** The steps that move at most one task, or lose tasks; the decrement is treated apart. */
  predicate Simple(step: Step) {
    !step.Resolve? && !step.Intrude?
  }

  function ShiftOf(c: Config, s: State, step: Step): Shift {
    match step
    case SubmitPush(e) => Go(WithSubmitter(e), 0, Some(InMainQueue))
    case SubmitFails(e) => Vanish(WithSubmitter(e))
    case Pop(w) => if w in c.workers then Go(Source(c, w), 0, Some(AtWorker(w))) else Stay
    case Work(w) =>
      if w in s.workers && !s.workers[w].Idle?
      then Destination(w, MoveOf(c.handlers, w, s.store, s.workers[w]).effect) else Stay
    case Abandon(w) => Vanish(AtWorker(w))
    case Take(completed) => Go(InChannel(completed), 0, Some(InCoordinator))
    case LoseEvent(completed, i) => Go(InChannel(completed), i, None)
    case CoordinatorPush => Go(WithCoordinator, 0, Some(InMainQueue))
    case CoordinatorPushFails => Go(WithCoordinator, 0, None)
    case CoordinatorStops => Vanish(if s.coordinator.Got? then InCoordinator else WithCoordinator)
    case _ => Stay
  }

  lemma WithoutFirst<T>(q: seq<T>)
    requires q != []
    ensures Without(q, 0) == q[1..]
  {
  }

  lemma PopElsewhere(c: Config, s: State, w: WorkerId, p: Place)
    requires Enabled(c, s, Pop(w)) && p != AtWorker(w)
    requires p != Source(c, w)
    ensures Holds(After(c, s, Pop(w)), p) == Holds(s, p)
  {
  }

  lemma PopShifts(c: Config, s: State, w: WorkerId)
    requires Enabled(c, s, Pop(w))
    ensures Shifts(s, After(c, s, Pop(w)), ShiftOf(c, s, Pop(w)))
  {
    WithoutFirst(QueueOf(s, c.workers[w]));
    forall p | p != AtWorker(w) && p != Source(c, w) ensures Holds(After(c, s, Pop(w)), p) == Holds(s, p) {
      PopElsewhere(c, s, w, p);
    }
  }

  lemma SubmitElsewhere(c: Config, s: State, e: ExecutionId, p: Place)
    requires Enabled(c, s, SubmitPush(e)) && p != WithSubmitter(e) && p != InMainQueue
    ensures Holds(After(c, s, SubmitPush(e)), p) == Holds(s, p)
  {
  }

  lemma SubmitPushShifts(c: Config, s: State, e: ExecutionId)
    requires Enabled(c, s, SubmitPush(e))
    ensures Shifts(s, After(c, s, SubmitPush(e)), ShiftOf(c, s, SubmitPush(e)))
  {
    WithoutFirst(s.submitters[e]);
    forall p | p != WithSubmitter(e) && p != InMainQueue ensures Holds(After(c, s, SubmitPush(e)), p) == Holds(s, p) {
      SubmitElsewhere(c, s, e, p);
    }
  }

  lemma SubmitShifts(c: Config, s: State, step: Step)
    requires Enabled(c, s, step)
    requires (step.SubmitPush? || step.SubmitFails? || step.Abandon? || step.Check? || step.Decide?)
    ensures Shifts(s, After(c, s, step), ShiftOf(c, s, step))
  {
    if step.SubmitPush? {
      SubmitPushShifts(c, s, step.execution);
    }
  }

  lemma IdsWithout(events: seq<Event>, i: nat)
    requires i < |events|
    ensures Ids(Without(events, i)) == Without(Ids(events), i)
  {
  }

  lemma IdsAppend(events: seq<Event>, ev: Event)
    ensures Ids(events + [ev]) == Ids(events) + [ev.taskId]
  {
  }

  lemma TakeShifts(c: Config, s: State, completed: bool)
    requires Enabled(c, s, Take(completed))
    ensures Shifts(s, After(c, s, Take(completed)), ShiftOf(c, s, Take(completed)))
  {
    var s' := After(c, s, Take(completed));
    IdsWithout(Channel(s, completed), 0);
    WithoutFirst(Channel(s, completed));
    assert Channel(s', completed) == Without(Channel(s, completed), 0);
    forall p | p != InChannel(completed) && p != InCoordinator ensures Holds(s', p) == Holds(s, p) {
      OtherPlaces(s, s', completed, p);
    }
  }

  lemma LoseEventShifts(c: Config, s: State, completed: bool, i: nat)
    requires Enabled(c, s, LoseEvent(completed, i))
    ensures Shifts(s, After(c, s, LoseEvent(completed, i)), ShiftOf(c, s, LoseEvent(completed, i)))
  {
    var s' := After(c, s, LoseEvent(completed, i));
    IdsWithout(Channel(s, completed), i);
    assert Channel(s', completed) == Without(Channel(s, completed), i);
    forall p | p != InChannel(completed) ensures Holds(s', p) == Holds(s, p) {
      if p.InCoordinator? || p.WithCoordinator? {
      } else {
        OtherPlaces(s, s', completed, p);
      }
    }
  }

  /** Changing one channel leaves the other places alone. */
  lemma OtherPlaces(s: State, s': State, completed: bool, p: Place)
    requires p != InChannel(completed) && !p.InCoordinator?
    requires (p.WithCoordinator? ==> !s.coordinator.Pushing? && !s'.coordinator.Pushing?)
    requires exists events, pc :: s' == WithChannel(s, completed, events).(coordinator := pc)
    ensures Holds(s', p) == Holds(s, p)
  {
    if p.InChannel? {
      assert p.completed == !completed;
    }
  }

  lemma ReadyElsewhere(c: Config, s: State, step: Step, p: Place)
    requires Enabled(c, s, step) && (step.CoordinatorPush? || step.CoordinatorPushFails?)
    requires p != WithCoordinator && (step.CoordinatorPush? ==> p != InMainQueue)
    ensures Holds(After(c, s, step), p) == Holds(s, p)
  {
  }

  lemma ReadyShifts(c: Config, s: State, step: Step)
    requires Enabled(c, s, step) && (step.CoordinatorPush? || step.CoordinatorPushFails?)
    ensures Shifts(s, After(c, s, step), ShiftOf(c, s, step))
  {
    WithoutFirst(s.coordinator.ready);
    forall p | p != WithCoordinator && (step.CoordinatorPush? ==> p != InMainQueue)
      ensures Holds(After(c, s, step), p) == Holds(s, p)
    {
      ReadyElsewhere(c, s, step, p);
    }
  }

  lemma CoordinatorShifts(c: Config, s: State, step: Step)
    requires Enabled(c, s, step) && (step.CoordinatorPush? || step.CoordinatorPushFails? || step.CoordinatorStops?)
    ensures Shifts(s, After(c, s, step), ShiftOf(c, s, step))
  {
    if !step.CoordinatorStops? {
      ReadyShifts(c, s, step);
    }
  }

  /** A worker's statement, seen only through the effect it has outside the row. */
  ghost predicate Acts(s: State, s': State, w: WorkerId, pc: Pc, effect: Effect) {
    && w in s.workers && !s.workers[w].Idle?
    && s'.workers == s.workers[w := pc]
    && s'.mainQueue == s.mainQueue && s'.submitters == s.submitters
    && s'.coordinator == s.coordinator && s'.log == s.log
    && s'.store == ApplyEffect(s.store.(rows := s'.store.rows), effect)
    && match effect
       case PushRetry(id) => pc.Idle? && id == s.workers[w].Held()
       case Announce(ev) => pc.Idle? && ev.taskId == s.workers[w].Held()
       case _ => !pc.Idle? && pc.Held() == s.workers[w].Held()
  }

  lemma ActsShifts(s: State, s': State, w: WorkerId, pc: Pc, effect: Effect)
    requires Acts(s, s', w, pc, effect)
    ensures Shifts(s, s', Destination(w, effect))
  {
    match effect
    case Announce(ev) =>
      var b := ev.TaskCompleted?;
      IdsAppend(Channel(s, b), ev);
      WithoutFirst(Holds(s, AtWorker(w)));
      forall p | p != AtWorker(w) && p != InChannel(b) ensures Holds(s', p) == Holds(s, p) {
        if p.InChannel? { assert p.completed == !b; }
      }
    case PushRetry(_) =>
      WithoutFirst(Holds(s, AtWorker(w)));
    case _ =>
  }

  // ---- the invariant, step by step ----

  /** What a worker's step does, without reference to its program. */
  ghost predicate Worked(c: Config, s: State, s': State, w: WorkerId, move: Move, row': Task) {
    && Acts(s, s', w, move.pc, move.effect)
    && var t := s.workers[w].Held();
       && t in c.specs && t in s.store.rows && t in s.claims && At(s, AtWorker(w), t)
       && s.store.rows[t].spec == c.specs[t] && c.specs[t].id == t
       && RowWorked(c.handlers, s.workers[w], s.store.rows[t], s.claims[t], move, row')
       && s'.store.rows == s.store.rows[t := row']
       && s'.claims == s.claims[t := ClaimsAfter(move, s.claims[t])]
  }

  lemma HeldRow(c: Config, s: State, w: WorkerId)
    requires TokenInv(c, s) && w in s.workers && !s.workers[w].Idle?
    ensures var t := s.workers[w].Held();
            && t in c.specs && t in s.store.rows && t in s.claims && At(s, AtWorker(w), t)
            && s.store.rows[t].spec == c.specs[t] && c.specs[t].id == t
            && PcFits(c.handlers, s.workers[w], s.store.rows[t]) && s.store.rows[t].inDegree <= 0
            && RowFits(c.handlers, s.store.rows[t], s.claims[t])
  {
    assert At(s, AtWorker(w), s.workers[w].Held());
  }

  lemma WorkWrites(c: Config, s: State, w: WorkerId, move: Move)
    requires Enabled(c, s, Work(w)) && move == MoveOf(c.handlers, w, s.store, s.workers[w])
    requires var t := s.workers[w].Held(); t in s.store.rows && t in s.claims
    ensures var s' := After(c, s, Work(w)); var t := s.workers[w].Held();
            && s'.store.rows == s.store.rows[t := RowAfter(move, s.store.rows[t])]
            && s'.claims == s.claims[t := ClaimsAfter(move, s.claims[t])]
            && s'.store == ApplyEffect(s.store.(rows := s'.store.rows), move.effect)
            && s' == s.(store := s'.store, claims := s'.claims, workers := s.workers[w := move.pc])
  {
    var t := s.workers[w].Held();
    var st := s.store.(rows := WithRow(s.store.rows, t, move.row));
    EffectKeepsRows(st, move.effect);
    assert StoreAfter(c.handlers, w, s.store, s.workers[w]) == ApplyEffect(st, move.effect);
    assert s.store.rows[t := s.store.rows[t]] == s.store.rows;
    assert s.claims[t := s.claims[t]] == s.claims;
  }

  lemma EffectKeepsRows(st: Store, effect: Effect)
    ensures ApplyEffect(st, effect).rows == st.rows
  {
  }

  lemma WorkDone(c: Config, s: State, w: WorkerId) returns (move: Move, row': Task)
    requires TokenInv(c, s) && Registered(c) && Enabled(c, s, Work(w))
    ensures Worked(c, s, After(c, s, Work(w)), w, move, row')
    ensures ShiftOf(c, s, Work(w)) == Destination(w, move.effect)
    ensures move == MoveOf(c.handlers, w, s.store, s.workers[w])
    ensures row' == RowAfter(move, s.store.rows[s.workers[w].Held()])
  {
    HeldRow(c, s, w);
    var t := s.workers[w].Held();
    move := MoveOf(c.handlers, w, s.store, s.workers[w]);
    row' := RowAfter(move, s.store.rows[t]);
    AdvanceKeepsRow(c.handlers, w, s.workers[w], s.store.rows[t], s.claims[t]);
    WorkWrites(c, s, w, move);
  }

  lemma StepShifts(c: Config, s: State, step: Step)
    requires TokenInv(c, s) && Registered(c) && Enabled(c, s, step) && Simple(step)
    ensures Shifts(s, After(c, s, step), ShiftOf(c, s, step))
  {
    match step
    case Pop(w) => PopShifts(c, s, w);
    case Work(w) =>
      var move, row' := WorkDone(c, s, w);
      ActsShifts(s, After(c, s, step), w, move.pc, move.effect);
    case Take(completed) => TakeShifts(c, s, completed);
    case LoseEvent(completed, i) => LoseEventShifts(c, s, completed, i);
    case CoordinatorPush => CoordinatorShifts(c, s, step);
    case CoordinatorPushFails => CoordinatorShifts(c, s, step);
    case CoordinatorStops => CoordinatorShifts(c, s, step);
    case _ => SubmitShifts(c, s, step);
  }

  /** A step that writes no row puts the moved task where its row belongs. */
  lemma RowlessArrives(c: Config, s: State, step: Step)
    requires Placed(c, s) && Enabled(c, s, step) && Simple(step) && !step.Work?
    requires var shift := ShiftOf(c, s, step); shift.Go? && shift.i < |Holds(s, shift.from)|
    ensures var shift := ShiftOf(c, s, step); var t := Holds(s, shift.from)[shift.i];
            && t in s.store.rows
            && (shift.to.Some? ==> PlaceFits(c, After(c, s, step), shift.to.value, t))
  {
    var shift := ShiftOf(c, s, step);
    var t := Holds(s, shift.from)[shift.i];
    assert At(s, shift.from, t);
  }

  lemma RowlessElsewhere(c: Config, s: State, step: Step)
    requires Enabled(c, s, step) && Simple(step) && !step.Work?
    ensures SameElsewhere(s, After(c, s, step), ShiftOf(c, s, step))
    ensures After(c, s, step).store.rows == s.store.rows && After(c, s, step).claims == s.claims
  {
  }

  lemma RowlessKeepsPlaced(c: Config, s: State, step: Step)
    requires TokenInv(c, s) && Registered(c) && Enabled(c, s, step) && Simple(step) && !step.Work?
    ensures Placed(c, After(c, s, step))
  {
    StepShifts(c, s, step);
    var shift := ShiftOf(c, s, step);
    if shift.Go? {
      RowlessArrives(c, s, step);
    }
    RowlessElsewhere(c, s, step);
    ShiftKeepsPlaced(c, s, After(c, s, step), shift);
  }

  lemma FewerFit(rows: Rows, events: seq<Event>, i: nat, completed: bool)
    requires ChannelFits(rows, events, completed) && i < |events|
    ensures ChannelFits(rows, Without(events, i), completed)
  {
    var fewer := Without(events, i);
    forall k | 0 <= k < |fewer| ensures fewer[k].TaskCompleted? == completed && EventFits(rows, fewer[k]) {
      assert fewer[k] == events[if k < i then k else k + 1];
    }
  }

  lemma ChannelAnnounced(s: State, completed: bool)
    requires Announced(s)
    ensures ChannelFits(s.store.rows, Channel(s, completed), completed)
  {
  }

  lemma TakeKeepsEvents(c: Config, s: State, completed: bool)
    requires Announced(s) && Enabled(c, s, Take(completed))
    ensures Announced(After(c, s, Take(completed)))
  {
    ChannelAnnounced(s, completed);
    FewerFit(s.store.rows, Channel(s, completed), 0, completed);
    WithoutFirst(Channel(s, completed));
  }

  lemma LoseKeepsEvents(c: Config, s: State, completed: bool, i: nat)
    requires Announced(s) && Enabled(c, s, LoseEvent(completed, i))
    ensures Announced(After(c, s, LoseEvent(completed, i)))
  {
    ChannelAnnounced(s, completed);
    FewerFit(s.store.rows, Channel(s, completed), i, completed);
  }

  lemma RowlessKeepsEvents(c: Config, s: State, step: Step)
    requires Announced(s) && Enabled(c, s, step) && Simple(step) && !step.Work?
    ensures Announced(After(c, s, step))
  {
    match step
    case Take(completed) => TakeKeepsEvents(c, s, completed);
    case LoseEvent(completed, i) => LoseKeepsEvents(c, s, completed, i);
    case _ =>
  }

  lemma WorkedKeepsPlaced(c: Config, s: State, s': State, w: WorkerId, move: Move, row': Task)
    requires Placed(c, s) && OneToken(s') && Worked(c, s, s', w, move, row')
    requires Shifts(s, s', Destination(w, move.effect))
    ensures Placed(c, s')
  {
    var shift := Destination(w, move.effect);
    var t := s.workers[w].Held();
    var to := if shift.Go? then shift.to.value else AtWorker(w);
    WorkedArrives(c, s, s', w, move, row');
    forall p, u | At(s', p, u) ensures u in s'.store.rows && PlaceFits(c, s', p, u) {
      if u == t {
        assert p == to;
      } else {
        WorkKeepsOthers(c, s, s', w, shift, p, u);
      }
    }
  }

  lemma WorkedArrives(c: Config, s: State, s': State, w: WorkerId, move: Move, row': Task)
    requires Worked(c, s, s', w, move, row') && Shifts(s, s', Destination(w, move.effect))
    ensures var shift := Destination(w, move.effect); var t := s.workers[w].Held();
            var to := if shift.Go? then shift.to.value else AtWorker(w);
            At(s', to, t) && t in s'.store.rows && PlaceFits(c, s', to, t)
  {
    var shift := Destination(w, move.effect);
    if shift.Go? {
      assert Holds(s', shift.to.value)[|Holds(s, shift.to.value)|] == s.workers[w].Held();
    }
  }

  lemma WorkKeepsOthers(c: Config, s: State, s': State, w: WorkerId, shift: Shift, p: Place, u: TaskId)
    requires Placed(c, s) && Shifts(s, s', shift) && At(s', p, u)
    requires w in s.workers && !s.workers[w].Idle? && u != s.workers[w].Held()
    requires || shift.Stay?
             || (shift.Go? && shift.from == AtWorker(w) && shift.i == 0 && shift.to.Some? && !shift.to.value.AtWorker?)
    requires s'.workers.Keys == s.workers.Keys
    requires forall w' | w' in s.workers && w' != w :: s'.workers[w'] == s.workers[w']
    requires s'.store.rows.Keys == s.store.rows.Keys
    requires forall t | t in s.store.rows && t != s.workers[w].Held() :: s'.store.rows[t] == s.store.rows[t]
    ensures u in s'.store.rows && PlaceFits(c, s', p, u)
  {
    assert At(s, p, u);
  }

  lemma WorkedKeepsEvents(c: Config, s: State, s': State, w: WorkerId, move: Move, row': Task)
    requires Announced(s) && Worked(c, s, s', w, move, row')
    ensures Announced(s')
  {
    ChannelKeepsFit(s.store.rows, s'.store.rows, s.store.completed, true);
    ChannelKeepsFit(s.store.rows, s'.store.rows, s.store.terminated, false);
    EffectKeepsEvents(c.handlers, s.workers[w], s.store.(rows := s'.store.rows), s'.store, move, row');
  }

  lemma ChannelKeepsFit(rows: Rows, rows': Rows, events: seq<Event>, completed: bool)
    requires ChannelFits(rows, events, completed)
    requires rows'.Keys == rows.Keys
    requires forall t | t in rows && rows[t].Terminal() ::
               rows'[t].spec == rows[t].spec && rows'[t].status == rows[t].status
    ensures ChannelFits(rows', events, completed)
  {
  }

  lemma EffectKeepsEvents(h: Handlers, pc: Pc, st: Store, st': Store, move: Move, row: Task)
    requires row.spec.id in st.rows && st.rows[row.spec.id] == row
    requires MoveFits(h, pc, move, row)
    requires st' == ApplyEffect(st, move.effect)
    requires ChannelFits(st.rows, st.completed, true) && ChannelFits(st.rows, st.terminated, false)
    ensures ChannelFits(st'.rows, st'.completed, true) && ChannelFits(st'.rows, st'.terminated, false)
  {
  }

  lemma RowlessKeepsRows(c: Config, s: State, step: Step)
    requires RowsFit(c, s) && Enabled(c, s, step) && Simple(step) && !step.Work?
    ensures RowsFit(c, After(c, s, step))
  {
    RowlessElsewhere(c, s, step);
  }

  lemma OneRowKeepsRows(c: Config, s: State, s': State, t: TaskId, row: Task, claims: nat)
    requires RowsFit(c, s) && t in c.specs
    requires s'.store.rows == s.store.rows[t := row] && s'.claims == s.claims[t := claims]
    requires row.spec == c.specs[t] && RowFits(c.handlers, row, claims)
    requires s'.store.verdicts.Keys == s.store.verdicts.Keys && s'.submitters == s.submitters
    requires s'.workers.Keys == s.workers.Keys
    ensures RowsFit(c, s')
  {
  }

  lemma WorkedKeepsRows(c: Config, s: State, s': State, w: WorkerId, move: Move, row': Task)
    requires RowsFit(c, s) && Worked(c, s, s', w, move, row')
    ensures RowsFit(c, s')
  {
    var t := s.workers[w].Held();
    OneRowKeepsRows(c, s, s', t, row', ClaimsAfter(move, s.claims[t]));
  }

  lemma SimpleKeeps(c: Config, s: State, step: Step)
    requires TokenInv(c, s) && Registered(c) && Enabled(c, s, step) && Simple(step)
    ensures TokenInv(c, After(c, s, step))
  {
    StepShifts(c, s, step);
    ShiftKeepsOneToken(s, After(c, s, step), ShiftOf(c, s, step));
    if step.Work? {
      var move, row' := WorkDone(c, s, step.worker);
      WorkedKeepsPlaced(c, s, After(c, s, step), step.worker, move, row');
      WorkedKeepsEvents(c, s, After(c, s, step), step.worker, move, row');
      WorkedKeepsRows(c, s, After(c, s, step), step.worker, move, row');
    } else {
      RowlessKeepsPlaced(c, s, step);
      RowlessKeepsEvents(c, s, step);
      RowlessKeepsRows(c, s, step);
    }
  }
}
