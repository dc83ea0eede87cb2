/** Where each task is: a task is never in two places at once. */
module Tokens {
  import opened Domain
  import opened TaskTable
  import opened WorkerSteps
  import opened Protocol

  /** The places that can hold a task between its release and the end of its life. */
  datatype Place =
    | WithSubmitter(execution: ExecutionId)
    | InMainQueue
    | InRetryQueue
    | AtWorker(worker: WorkerId)
    | InChannel(completed: bool)
    | InCoordinator
    | WithCoordinator
    | Processed

  function Ids(events: seq<Event>): (ids: seq<TaskId>)
    ensures |ids| == |events|
    ensures forall i :: 0 <= i < |events| ==> ids[i] == events[i].taskId
  {
    seq(|events|, i requires 0 <= i < |events| => events[i].taskId)
  }

  /** The tasks at a place, in order. */
  function Holds(s: State, p: Place): seq<TaskId> {
    match p
    case WithSubmitter(e) => if e in s.submitters then s.submitters[e] else []
    case InMainQueue => s.mainQueue
    case InRetryQueue => s.store.retryQueue
    case AtWorker(w) => if w in s.workers && !s.workers[w].Idle? then [s.workers[w].Held()] else []
    case InChannel(completed) => Ids(Channel(s, completed))
    case InCoordinator => if s.coordinator.Got? then [s.coordinator.event.taskId] else []
    case WithCoordinator => if s.coordinator.Pushing? then s.coordinator.ready else []
    case Processed => s.log
  }

  ghost predicate At(s: State, p: Place, t: TaskId) {
    t in Holds(s, p)
  }

  ghost predicate OneToken(s: State) {
    && (forall p :: NoDuplicates(Holds(s, p)))
    && (forall p, q, t :: At(s, p, t) && At(s, q, t) ==> p == q)
  }

  lemma WithoutMember<T>(q: seq<T>, i: nat)
    requires i < |q| && NoDuplicates(q)
    ensures NoDuplicates(Without(q, i))
    ensures forall x :: x in Without(q, i) <==> x in q && x != q[i]
  {
    var r := Without(q, i);
    forall x ensures x in r <==> x in q && x != q[i] {
      if x in q && x != q[i] {
        var j :| 0 <= j < |q| && q[j] == x;
        assert r[if j < i then j else j - 1] == x;
      }
    }
  }

  /** How a step moves tasks between places; Go moves the task at index `i` of `from` to the end of `to`,
      or away when `to` is None; Vanish empties a place. */
  datatype Shift =
    | Stay
    | Go(from: Place, i: nat, to: Option<Place>)
    | Vanish(place: Place)

  ghost predicate Shifts(s: State, s': State, shift: Shift) {
    match shift
    case Stay => forall p :: Holds(s', p) == Holds(s, p)
    case Go(from, i, to) =>
      && i < |Holds(s, from)|
      && (forall p | p != from && to != Some(p) :: Holds(s', p) == Holds(s, p))
      && Holds(s', from) == Without(Holds(s, from), i)
      && (to.Some? ==> to.value != from && Holds(s', to.value) == Holds(s, to.value) + [Holds(s, from)[i]])
    case Vanish(from) => Holds(s', from) == [] && forall p | p != from :: Holds(s', p) == Holds(s, p)
  }

  lemma ShiftKeepsOneToken(s: State, s': State, shift: Shift)
    requires OneToken(s) && Shifts(s, s', shift)
    ensures OneToken(s')
  {
    match shift
    case Stay =>
      forall p ensures NoDuplicates(Holds(s', p)) && forall u :: At(s', p, u) <==> At(s, p, u) {}
    case Vanish(from) =>
      forall p ensures NoDuplicates(Holds(s', p)) && forall u :: At(s', p, u) <==> p != from && At(s, p, u) {}
    case Go(from, i, to) =>
      GoKeepsOneToken(s, s', from, i, to);
  }

  lemma GoKeepsOneToken(s: State, s': State, from: Place, i: nat, to: Option<Place>)
    requires OneToken(s) && Shifts(s, s', Go(from, i, to))
    ensures OneToken(s')
  {
    var t := Holds(s, from)[i];
    assert At(s, from, t);
    WithoutMember(Holds(s, from), i);
    forall p ensures NoDuplicates(Holds(s', p)) &&
                     forall u :: At(s', p, u) <==> if u == t then to == Some(p) else At(s, p, u)
    {
      assert p != from ==> !At(s, p, t);
    }
  }

  // ---- the row of a task, by place ----

  predicate Unclaimed(row: Task) {
    row.status == Queued || (row.status == Pending && row.retryCount > 0)
  }

  /** The snapshot a worker holds after its claim agrees with the row it claimed. */
  predicate InHand(m: Task, row: Task) {
    row.status == Running && m.spec == row.spec && m.version == row.version && m.retryCount == row.retryCount
  }

  /** The snapshot a worker fetched has what the claim is guarded by; its skip hint may be out of date. */
  predicate Snapshot(m: Task, row: Task) {
    m.spec == row.spec && m.version == row.version && m.retryCount == row.retryCount && (m.skipHint ==> row.skipHint)
  }

  predicate PcFits(h: Handlers, pc: Pc, row: Task) {
    match pc
    case Idle => false
    case Popped(_) => Unclaimed(row)
    case Fetched(m) => Snapshot(m, row) && Unclaimed(row)
    case SkipMarked(m) => m.spec == row.spec && row.status == Skipped
    case Owned(m) => InHand(m, row)
    case UnknownMarked(_) => false
    case UnknownAnnounced(_) => false
    case Succeeded(m) => InHand(m, row) && h.succeeds(row.spec.id, row.retryCount)
    case Errored(m) => InHand(m, row) && !h.succeeds(row.spec.id, row.retryCount)
    case CompletedMarked(m) => m.spec == row.spec && row.status == Completed
    case RetryCounted(m) => m.spec == row.spec && row.status == Pending && row.retryCount > 0
    case FailedMarked(m) => m.spec == row.spec && row.status == Failed
    case VerdictFailed(m) => m.spec == row.spec && row.status == Failed
  }

  predicate PlaceFits(c: Config, s: State, p: Place, t: TaskId)
    requires t in s.store.rows
  {
    var row := s.store.rows[t];
    && row.inDegree <= 0
    && match p
       case WithSubmitter(e) => row.status == Queued && row.spec.executionId == e
       case WithCoordinator => row.status == Queued
       case InMainQueue => row.status == Queued
       case InRetryQueue => row.status == Pending && row.retryCount > 0
       case AtWorker(w) => w in s.workers && PcFits(c.handlers, s.workers[w], row)
       case InChannel(_) => row.Terminal()
       case InCoordinator => row.Terminal()
       case Processed => row.Terminal()
  }

  predicate EventFits(rows: Rows, ev: Event) {
    && ev.taskId in rows
    && ev.executionId == rows[ev.taskId].spec.executionId
    && ev.refId == rows[ev.taskId].spec.refId
    && rows[ev.taskId].status == (if ev.TaskCompleted? then Completed
                                  else if ev.kind.TerminationFailed? then Failed else Skipped)
  }

  predicate ChannelFits(rows: Rows, events: seq<Event>, completed: bool) {
    forall i :: 0 <= i < |events| ==> events[i].TaskCompleted? == completed && EventFits(rows, events[i])
  }

  ghost predicate Placed(c: Config, s: State) {
    forall p, t :: At(s, p, t) ==> t in s.store.rows && PlaceFits(c, s, p, t)
  }

  ghost predicate Announced(s: State) {
    && ChannelFits(s.store.rows, s.store.completed, true)
    && ChannelFits(s.store.rows, s.store.terminated, false)
    && (s.coordinator.Got? ==> EventFits(s.store.rows, s.coordinator.event))
    && (s.coordinator.Pushing? ==> s.coordinator.ready != [])
  }

  /** The program points of the workers that the shift does not involve stay. */
  ghost predicate SameElsewhere(s: State, s': State, shift: Shift) {
    && s'.workers.Keys == s.workers.Keys
    && forall w | w in s.workers && !Involves(shift, AtWorker(w)) :: s'.workers[w] == s.workers[w]
  }

  predicate Involves(shift: Shift, p: Place) {
    match shift
    case Stay => false
    case Go(from, _, to) => p == from || to == Some(p)
    case Vanish(from) => p == from
  }

  lemma ShiftKeepsPlaced(c: Config, s: State, s': State, shift: Shift)
    requires Placed(c, s) && Shifts(s, s', shift) && SameElsewhere(s, s', shift)
    requires s'.store.rows == s.store.rows
    requires shift.Go? ==>
               && Holds(s, shift.from)[shift.i] in s.store.rows
               && (shift.to.Some? ==> PlaceFits(c, s', shift.to.value, Holds(s, shift.from)[shift.i]))
               && (shift.from.AtWorker? ==> |Holds(s, shift.from)| == 1)
    ensures Placed(c, s')
  {
    forall p, t | At(s', p, t) ensures t in s'.store.rows && PlaceFits(c, s', p, t) {
      if shift.Go? && shift.to == Some(p) && t == Holds(s, shift.from)[shift.i] {
      } else {
        assert At(s, p, t);
      }
    }
  }

  // ---- rows, wherever the task is ----

  function Finished(row: Task): nat {
    if row.status == Running || row.status == Completed || row.status == Failed then 1 else 0
  }

  predicate RowFits(h: Handlers, row: Task, claims: nat) {
    && row.retryCount <= row.spec.maxRetries
    && claims == row.retryCount + Finished(row)
    && row.version == 1 + claims + row.retryCount
    && (forall k: nat | k < row.retryCount :: !h.succeeds(row.spec.id, k))
    && (row.status == Completed ==> h.succeeds(row.spec.id, row.retryCount))
    && (row.status == Failed ==> row.retryCount == row.spec.maxRetries && !h.succeeds(row.spec.id, row.retryCount))
    && (row.inDegree > 0 ==> row.status == Pending)
    && (row.status == Pending ==> (row.inDegree > 0 <==> row.retryCount == 0))
    && (row.status == Queued ==> row.retryCount == 0)
    && (row.status == Skipped ==> row.skipHint)
  }

  ghost predicate RowsFit(c: Config, s: State) {
    && s.store.rows.Keys == c.specs.Keys == s.claims.Keys
    && s.store.verdicts.Keys == c.order.Keys == s.submitters.Keys
    && s.workers.Keys == c.workers.Keys
    && forall t | t in c.specs ::
         s.store.rows[t].spec == c.specs[t] && c.specs[t].id == t && c.specs[t].executionId in c.order
         && RowFits(c.handlers, s.store.rows[t], s.claims[t])
  }

  // ---- one statement of a worker, on one row ----

  function ClaimsAfter(move: Move, claims: nat): nat {
    if move.pc.Owned? then claims + 1 else claims
  }

  function RowAfter(move: Move, row: Task): Task {
    if move.row.Some? then move.row.value else row
  }

  /** What a worker's statement does to the row and where it leaves the task. */
  ghost predicate MoveFits(h: Handlers, pc: Pc, move: Move, row: Task) {
    match move.effect
    case NoEffect =>
      && !move.pc.Idle? && !move.pc.VerdictFailed? && !pc.FailedMarked?
      && move.pc.Held() == row.spec.id && PcFits(h, move.pc, row)
    case FailWorkflow(e) =>
      && e == row.spec.executionId && row.status == Failed
      && move.pc.VerdictFailed? && move.pc.Held() == row.spec.id && PcFits(h, move.pc, row)
    case PushRetry(id) => move.pc.Idle? && id == row.spec.id && row.status == Pending && row.retryCount > 0
    case Announce(ev) =>
      && !pc.FailedMarked?
      && move.pc.Idle?
      && ev == (if row.status == Completed then CompletedEvent(row.spec)
                else TerminatedEvent(row.spec, if row.status == Failed then TerminationFailed else TerminationSkipped))
      && row.Terminal()
  }

  /** A worker's statement on the row it holds. */
  ghost predicate RowWorked(h: Handlers, pc: Pc, row: Task, claims: nat, move: Move, row': Task) {
    && PcFits(h, pc, row) && row.inDegree <= 0
    && RowFits(h, row', ClaimsAfter(move, claims))
    && MoveFits(h, pc, move, row')
    && row'.spec == row.spec && row'.inDegree == row.inDegree && row'.skipHint == row.skipHint
    && row.retryCount <= row'.retryCount && row.version <= row'.version
    && (row.Terminal() ==> row' == row)
    && (!move.effect.NoEffect? ==> row' == row)
  }

  lemma AdvanceKeepsRow(h: Handlers, w: WorkerId, pc: Pc, row: Task, claims: nat)
    requires !pc.Idle? && pc.Held() == row.spec.id
    requires row.spec.action in h.registry
    requires PcFits(h, pc, row) && RowFits(h, row, claims) && row.inDegree <= 0
    ensures var move := Advance(h, w, pc, Some(row)); RowWorked(h, pc, row, claims, move, RowAfter(move, row))
  {
  }
}
