/** The decrement statement keeps what does not depend on the request: tokens, rows, tallies and skip hints. */
module ResolveStep {
  import opened Domain
  import opened TaskTable
  import opened WorkerSteps
  import opened Protocol
  import opened Tokens
  import opened TokenSteps
  import opened Counting

  /** Kept by every run with registered actions, whatever the dependency lists and references say. */
  ghost predicate Base(c: Config, s: State) {
    TokenInv(c, s) && Tallied(c, s) && Hinted(c, s)
  }

  predicate Child(s: State, t: TaskId)
    requires s.coordinator.Got? && t in s.store.rows
  {
    DependsOn(s.store.rows[t], s.coordinator.event.executionId, s.coordinator.event.refId)
  }

  /** The event being handled belongs to a terminal task that was not logged before. */
  lemma EventIsNew(c: Config, s: State)
    requires TokenInv(c, s) && s.coordinator.Got?
    ensures var t := s.coordinator.event.taskId;
            && t in c.specs && t !in s.log
            && s.store.rows[t].Terminal() && s.store.rows[t].inDegree <= 0
            && s.coordinator.event.executionId == c.specs[t].executionId
            && s.coordinator.event.refId == c.specs[t].refId
            && (s.coordinator.event.TaskTerminated? <==> s.store.rows[t].status != Completed)
  {
    var t := s.coordinator.event.taskId;
    assert At(s, InCoordinator, t);
    if t in s.log {
      assert At(s, Processed, t);
    }
  }

  lemma ChildIsParent(c: Config, s: State, t: TaskId)
    requires TokenInv(c, s) && s.coordinator.Got? && t in c.specs
    ensures t in s.store.rows && (Child(s, t) <==> Parent(c, s.coordinator.event.taskId, t))
  {
    EventIsNew(c, s);
  }

  // ---- rows ----

  /** A late decrement: the counter falls below zero, the hint may be set, and nothing else changes. */
  predicate LateOnly(row: Task, row': Task) {
    && row' == row.(inDegree := row'.inDegree, skipHint := row'.skipHint)
    && row'.inDegree <= row.inDegree && (row.skipHint ==> row'.skipHint)
  }

  lemma ResolveRow(c: Config, s: State, ready: seq<TaskId>, t: TaskId)
    requires RowsFit(c, s) && Enabled(c, s, Resolve(ready)) && t in c.specs
    ensures var rows' := After(c, s, Resolve(ready)).store.rows; var row := s.store.rows[t];
            && t in rows'
            && rows'[t] == (if Child(s, t) then DecrementedRow(row, s.coordinator.event.TaskTerminated?) else row)
            && RowFits(c.handlers, rows'[t], s.claims[t])
            && (t in ready <==> row.inDegree > 0 && rows'[t].inDegree <= 0)
            && (t in ready ==> rows'[t].status == Queued)
            && (t !in ready ==> LateOnly(row, rows'[t]))
  {
    var row := s.store.rows[t];
    assert RowFits(c.handlers, row, s.claims[t]);
    DecrementKeepsRow(c.handlers, row, s.claims[t], s.coordinator.event.TaskTerminated?);
  }

  lemma DecrementKeepsRow(h: Handlers, row: Task, claims: nat, taint: bool)
    ensures RowFits(h, row, claims) ==> RowFits(h, DecrementedRow(row, taint), claims)
  {
  }

  lemma ResolveFrame(c: Config, s: State, ready: seq<TaskId>)
    requires Enabled(c, s, Resolve(ready))
    ensures var s' := After(c, s, Resolve(ready));
            && s'.store.rows.Keys == s.store.rows.Keys && s'.claims == s.claims && s'.store.verdicts == s.store.verdicts
            && s'.submitters == s.submitters && s'.workers == s.workers
  {
  }

  lemma ResolveLogs(c: Config, s: State, ready: seq<TaskId>)
    requires Enabled(c, s, Resolve(ready))
    ensures After(c, s, Resolve(ready)).log == s.log + [s.coordinator.event.taskId]
  {
  }

  lemma RowsRefit(c: Config, s: State, s': State)
    requires RowsFit(c, s) && s'.store.rows.Keys == s.store.rows.Keys && s'.claims == s.claims
    requires s'.store.verdicts == s.store.verdicts && s'.submitters == s.submitters && s'.workers == s.workers
    requires forall t | t in c.specs ::
               && t in s'.store.rows && s'.store.rows[t].spec == c.specs[t]
               && RowFits(c.handlers, s'.store.rows[t], s.claims[t])
    ensures RowsFit(c, s')
  {
  }

  lemma ResolveKeepsRows(c: Config, s: State, ready: seq<TaskId>)
    requires RowsFit(c, s) && Enabled(c, s, Resolve(ready))
    ensures RowsFit(c, After(c, s, Resolve(ready)))
  {
    forall t | t in c.specs
      ensures var rows' := After(c, s, Resolve(ready)).store.rows;
              t in rows' && rows'[t].spec == c.specs[t] && RowFits(c.handlers, rows'[t], s.claims[t])
    {
      ResolveRow(c, s, ready, t);
    }
    ResolveFrame(c, s, ready);
    RowsRefit(c, s, After(c, s, Resolve(ready)));
  }

  lemma TerminalKept(c: Config, s: State, ready: seq<TaskId>, t: TaskId)
    requires RowsFit(c, s) && Enabled(c, s, Resolve(ready)) && t in c.specs && s.store.rows[t].Terminal()
    ensures t in After(c, s, Resolve(ready)).store.rows
    ensures LateOnly(s.store.rows[t], After(c, s, Resolve(ready)).store.rows[t])
  {
    assert RowFits(c.handlers, s.store.rows[t], s.claims[t]);
    ResolveRow(c, s, ready, t);
  }

  lemma ResolveChannels(c: Config, s: State, ready: seq<TaskId>)
    requires Enabled(c, s, Resolve(ready))
    ensures var s' := After(c, s, Resolve(ready));
            && s'.store.completed == s.store.completed && s'.store.terminated == s.store.terminated
            && !s'.coordinator.Got? && (s'.coordinator.Pushing? ==> s'.coordinator.ready != [])
  {
  }

  lemma ResolveKeepsEvents(c: Config, s: State, ready: seq<TaskId>)
    requires RowsFit(c, s) && Announced(s) && Enabled(c, s, Resolve(ready))
    ensures Announced(After(c, s, Resolve(ready)))
  {
    var rows' := After(c, s, Resolve(ready)).store.rows;
    forall t | t in s.store.rows && s.store.rows[t].Terminal()
      ensures t in rows' && LateOnly(s.store.rows[t], rows'[t])
    {
      TerminalKept(c, s, ready, t);
    }
    ResolveFrame(c, s, ready);
    ResolveChannels(c, s, ready);
    ChannelKeepsFit(s.store.rows, rows', s.store.completed, true);
    ChannelKeepsFit(s.store.rows, rows', s.store.terminated, false);
  }

  // ---- places ----

  /** The state between the decrement's two effects on places: the event is logged, nothing is released yet. */
  ghost function Logged(s: State): State
    requires s.coordinator.Got?
  {
    s.(coordinator := Waiting, log := s.log + [s.coordinator.event.taskId])
  }

  lemma LoggedShifts(s: State)
    requires s.coordinator.Got?
    ensures Shifts(s, Logged(s), Go(InCoordinator, 0, Some(Processed)))
  {
  }

  lemma ReleaseHolds(c: Config, s: State, ready: seq<TaskId>, p: Place)
    requires Enabled(c, s, Resolve(ready))
    ensures Holds(After(c, s, Resolve(ready)), p) == if p == WithCoordinator then ready else Holds(Logged(s), p)
  {
  }

  /** Tasks that become ready were nowhere before: their counter was positive. */
  lemma ReadyNowhere(c: Config, s: State, ready: seq<TaskId>, p: Place, t: TaskId)
    requires TokenInv(c, s) && Enabled(c, s, Resolve(ready)) && t in ready
    ensures !At(Logged(s), p, t)
  {
    assert t in s.store.rows;
    EventIsNew(c, s);
    var e := s.coordinator.event.taskId;
    assert At(Logged(s), p, t) ==> At(s, p, t) || t == e;
  }

  lemma ResolveKeepsOneToken(c: Config, s: State, ready: seq<TaskId>)
    requires TokenInv(c, s) && Enabled(c, s, Resolve(ready))
    ensures OneToken(After(c, s, Resolve(ready)))
  {
    var mid := Logged(s);
    var s' := After(c, s, Resolve(ready));
    LoggedShifts(s);
    ShiftKeepsOneToken(s, mid, Go(InCoordinator, 0, Some(Processed)));
    forall p ensures NoDuplicates(Holds(s', p)) &&
                     forall t :: At(s', p, t) <==> (if p == WithCoordinator then t in ready else At(mid, p, t)) {
      ReleaseHolds(c, s, ready, p);
    }
    forall p, q, t | At(s', p, t) && At(s', q, t) ensures p == q {
      if t in ready {
        ReadyNowhere(c, s, ready, p, t);
        ReadyNowhere(c, s, ready, q, t);
      }
    }
  }

  /** A released row only gets late decrements. */
  lemma ReleasedKept(c: Config, s: State, ready: seq<TaskId>, u: TaskId)
    requires RowsFit(c, s) && Enabled(c, s, Resolve(ready))
    requires u in c.specs && s.store.rows[u].inDegree <= 0
    ensures u in After(c, s, Resolve(ready)).store.rows
    ensures LateOnly(s.store.rows[u], After(c, s, Resolve(ready)).store.rows[u])
  {
    ResolveRow(c, s, ready, u);
  }

  lemma PlaceStillFits(c: Config, s: State, s': State, p: Place, t: TaskId)
    requires t in s.store.rows && t in s'.store.rows && LateOnly(s.store.rows[t], s'.store.rows[t])
    requires s'.workers == s.workers
    requires PlaceFits(c, s, p, t)
    ensures PlaceFits(c, s', p, t)
  {
  }

  lemma ReadyPlaced(c: Config, s: State, ready: seq<TaskId>, t: TaskId)
    requires RowsFit(c, s) && Enabled(c, s, Resolve(ready)) && t in ready
    ensures t in After(c, s, Resolve(ready)).store.rows && PlaceFits(c, After(c, s, Resolve(ready)), WithCoordinator, t)
  {
    assert t in s.store.rows;
    ResolveRow(c, s, ready, t);
  }

  lemma BystanderPlaced(c: Config, s: State, ready: seq<TaskId>, p: Place, t: TaskId)
    requires TokenInv(c, s) && Enabled(c, s, Resolve(ready)) && At(s, p, t)
    ensures t in After(c, s, Resolve(ready)).store.rows && PlaceFits(c, After(c, s, Resolve(ready)), p, t)
  {
    ReleasedKept(c, s, ready, t);
    ResolveFrame(c, s, ready);
    PlaceStillFits(c, s, After(c, s, Resolve(ready)), p, t);
  }

  lemma EventPlaced(c: Config, s: State, ready: seq<TaskId>)
    requires TokenInv(c, s) && Enabled(c, s, Resolve(ready))
    ensures var t := s.coordinator.event.taskId;
            t in After(c, s, Resolve(ready)).store.rows && PlaceFits(c, After(c, s, Resolve(ready)), Processed, t)
  {
    EventIsNew(c, s);
    ReleasedKept(c, s, ready, s.coordinator.event.taskId);
  }

  /** What is at a place after the decrement was there before, was readied, or is the event's task. */
  lemma ResolvedFrom(c: Config, s: State, ready: seq<TaskId>, p: Place, t: TaskId)
    requires Enabled(c, s, Resolve(ready)) && At(After(c, s, Resolve(ready)), p, t)
    ensures (p == WithCoordinator && t in ready) || At(s, p, t) || (p == Processed && t == s.coordinator.event.taskId)
  {
    ReleaseHolds(c, s, ready, p);
  }

  lemma ResolvePlaces(c: Config, s: State, ready: seq<TaskId>, p: Place, t: TaskId)
    requires TokenInv(c, s) && Enabled(c, s, Resolve(ready))
    requires At(After(c, s, Resolve(ready)), p, t)
    ensures var s' := After(c, s, Resolve(ready)); t in s'.store.rows && PlaceFits(c, s', p, t)
  {
    ResolvedFrom(c, s, ready, p, t);
    if At(s, p, t) {
      BystanderPlaced(c, s, ready, p, t);
    } else if t in ready && p == WithCoordinator {
      ReadyPlaced(c, s, ready, t);
    } else {
      EventPlaced(c, s, ready);
    }
  }

  lemma ResolveKeepsPlaced(c: Config, s: State, ready: seq<TaskId>)
    requires TokenInv(c, s) && Enabled(c, s, Resolve(ready))
    ensures Placed(c, After(c, s, Resolve(ready)))
  {
    forall p, t | At(After(c, s, Resolve(ready)), p, t)
      ensures var s' := After(c, s, Resolve(ready)); t in s'.store.rows && PlaceFits(c, s', p, t)
    {
      ResolvePlaces(c, s, ready, p, t);
    }
  }

  // ---- tallies and hints ----

  lemma ResolveTally(c: Config, s: State, ready: seq<TaskId>, t: TaskId)
    requires TokenInv(c, s) && Enabled(c, s, Resolve(ready)) && t in c.specs
    ensures t in s.store.rows && t in After(c, s, Resolve(ready)).store.rows
    ensures After(c, s, Resolve(ready)).store.rows[t].inDegree
         == s.store.rows[t].inDegree - (if Parent(c, s.coordinator.event.taskId, t) then 1 else 0)
  {
    ResolveRow(c, s, ready, t);
    ChildIsParent(c, s, t);
  }

  lemma ResolveKeepsTally(c: Config, s: State, ready: seq<TaskId>)
    requires TokenInv(c, s) && Tallied(c, s) && Enabled(c, s, Resolve(ready))
    ensures Tallied(c, After(c, s, Resolve(ready)))
  {
    EventIsNew(c, s);
    ResolveLogs(c, s, ready);
    forall t | t in c.specs
      ensures var s' := After(c, s, Resolve(ready));
              t in s'.store.rows
              && s'.store.rows[t].inDegree == |c.specs[t].dependencies| - |ParentsIn(c, LogSet(s'.log), t)|
    {
      ResolveTally(c, s, ready, t);
      ParentsStep(c, s.log, s.coordinator.event.taskId, t);
    }
  }

  lemma ResolvedIsReleased(c: Config, s: State, u: TaskId)
    requires TokenInv(c, s) && s.coordinator.Got? && (u in s.log || u == s.coordinator.event.taskId)
    ensures u in s.store.rows && u in c.specs && s.store.rows[u].inDegree <= 0
  {
    EventIsNew(c, s);
    if u in s.log {
      assert At(s, Processed, u);
    }
  }

  /** The rows of resolved tasks only get late decrements. */
  lemma FinishedKept(c: Config, s: State, ready: seq<TaskId>, u: TaskId)
    requires TokenInv(c, s) && Enabled(c, s, Resolve(ready))
    requires u in s.log || u == s.coordinator.event.taskId
    ensures u in s.store.rows && u in c.specs && u in After(c, s, Resolve(ready)).store.rows
    ensures LateOnly(s.store.rows[u], After(c, s, Resolve(ready)).store.rows[u])
  {
    ResolvedIsReleased(c, s, u);
    ReleasedKept(c, s, ready, u);
  }

  lemma TaintStep(c: Config, s: State, ready: seq<TaskId>, u: TaskId, t: TaskId)
    requires TokenInv(c, s) && Enabled(c, s, Resolve(ready)) && t in c.specs
    ensures var e := s.coordinator.event.taskId;
            e in s.store.rows &&
            (Taints(c, After(c, s, Resolve(ready)), u, t)
             <==> Taints(c, s, u, t) || (u == e && Parent(c, e, t) && s.store.rows[e].status != Completed))
  {
    EventIsNew(c, s);
    ResolveLogs(c, s, ready);
    if u in s.log || u == s.coordinator.event.taskId {
      FinishedKept(c, s, ready, u);
    }
  }

  lemma ResolveHint(c: Config, s: State, ready: seq<TaskId>, t: TaskId)
    requires TokenInv(c, s) && Enabled(c, s, Resolve(ready)) && t in c.specs
    ensures t in s.store.rows && t in After(c, s, Resolve(ready)).store.rows
    ensures s.coordinator.event.taskId in s.store.rows
    ensures var e := s.coordinator.event.taskId;
            After(c, s, Resolve(ready)).store.rows[t].skipHint
            <==> s.store.rows[t].skipHint || (Parent(c, e, t) && s.store.rows[e].status != Completed)
  {
    ResolveRow(c, s, ready, t);
    EventIsNew(c, s);
    ChildIsParent(c, s, t);
  }

  lemma ResolveKeepsHint(c: Config, s: State, ready: seq<TaskId>, t: TaskId)
    requires TokenInv(c, s) && Enabled(c, s, Resolve(ready)) && t in c.specs
    requires t in s.store.rows && HintFits(c, s, t)
    ensures t in After(c, s, Resolve(ready)).store.rows && HintFits(c, After(c, s, Resolve(ready)), t)
  {
    var s' := After(c, s, Resolve(ready));
    var e := s.coordinator.event.taskId;
    ResolveHint(c, s, ready, t);
    forall u
      ensures Taints(c, s', u, t)
         <==> (Taints(c, s, u, t) || (u == e && Parent(c, e, t) && s.store.rows[e].status != Completed))
    {
      TaintStep(c, s, ready, u, t);
    }
    if Parent(c, e, t) && s.store.rows[e].status != Completed {
      assert Taints(c, s', e, t);
    }
  }

  lemma ResolveKeepsHints(c: Config, s: State, ready: seq<TaskId>)
    requires TokenInv(c, s) && Hinted(c, s) && Enabled(c, s, Resolve(ready))
    ensures Hinted(c, After(c, s, Resolve(ready)))
  {
    forall t | t in c.specs
      ensures t in After(c, s, Resolve(ready)).store.rows && HintFits(c, After(c, s, Resolve(ready)), t)
    {
      ResolveKeepsHint(c, s, ready, t);
    }
  }

  lemma ResolveKeeps(c: Config, s: State, ready: seq<TaskId>)
    requires Base(c, s) && Enabled(c, s, Resolve(ready))
    ensures Base(c, After(c, s, Resolve(ready)))
  {
    ResolveKeepsRows(c, s, ready);
    ResolveKeepsEvents(c, s, ready);
    ResolveKeepsOneToken(c, s, ready);
    ResolveKeepsPlaced(c, s, ready);
    ResolveKeepsTally(c, s, ready);
    ResolveKeepsHints(c, s, ready);
  }
}
