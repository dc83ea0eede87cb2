/** Resolving the same events in another order gives the same table and releases the same tasks. */
module OrderIndependence {
  import opened Domain
  import opened TaskTable
  import opened Counting

  function Resolve(rows: Rows, ev: Event): Rows {
    Decrement(rows, ev.executionId, ev.refId, ev.TaskTerminated?)
  }

  /** The table after handling the events one after the other. */
  function ResolveAll(rows: Rows, events: seq<Event>): Rows {
    if events == [] then rows else Resolve(ResolveAll(rows, events[..|events|-1]), events[|events|-1])
  }

  /** The tasks the `i`-th event releases. */
  function ReadyAt(rows: Rows, events: seq<Event>, i: nat): set<TaskId>
    requires i < |events|
  {
    ReadySet(ResolveAll(rows, events[..i]), events[i].executionId, events[i].refId)
  }

  /** All tasks released on the way. */
  function ReadyAll(rows: Rows, events: seq<Event>): set<TaskId> {
    set i, t | 0 <= i < |events| && t in ReadyAt(rows, events, i) :: t
  }

  function Hit(task: Task, ev: Event): nat {
    if DependsOn(task, ev.executionId, ev.refId) then 1 else 0
  }

  function Hits(task: Task, events: seq<Event>): nat {
    if events == [] then 0 else Hits(task, events[..|events|-1]) + Hit(task, events[|events|-1])
  }

  predicate Tainted(task: Task, events: seq<Event>) {
    exists ev | ev in events :: ev.TaskTerminated? && Hit(task, ev) == 1
  }

  /** The row after any number of events, in closed form: only how many hit it matters, and whether one taints. */
  function Settled(task: Task, events: seq<Event>): Task {
    task.(inDegree := task.inDegree - Hits(task, events),
          skipHint := task.skipHint || Tainted(task, events),
          status := if 1 <= task.inDegree <= Hits(task, events) then Queued else task.status)
  }

  lemma {:induction false} ResolveAllSettles(rows: Rows, events: seq<Event>)
    ensures ResolveAll(rows, events).Keys == rows.Keys
    ensures forall t | t in rows :: ResolveAll(rows, events)[t] == Settled(rows[t], events)
  {
    if events != [] {
      var rest := events[..|events|-1];
      ResolveAllSettles(rows, rest);
      forall t | t in rows ensures ResolveAll(rows, events)[t] == Settled(rows[t], events) {
        SettledStep(rows[t], rest, events[|events|-1]);
        assert rest + [events[|events|-1]] == events;
      }
    }
  }

  lemma SettledStep(task: Task, events: seq<Event>, ev: Event)
    ensures var before := Settled(task, events);
            Settled(task, events + [ev]) ==
              if Hit(task, ev) == 1 then DecrementedRow(before, ev.TaskTerminated?) else before
  {
    TaintedStep(task, events, ev);
    assert (events + [ev])[..|events|] == events;
  }

  lemma TaintedStep(task: Task, events: seq<Event>, ev: Event)
    ensures Tainted(task, events + [ev]) <==> Tainted(task, events) || (ev.TaskTerminated? && Hit(task, ev) == 1)
  {
    assert forall x :: x in events + [ev] <==> x in events || x == ev;
  }

  lemma {:induction false} HitsReach(task: Task, events: seq<Event>, d: nat)
    requires 1 <= d <= Hits(task, events)
    ensures exists i :: 0 <= i < |events| && Hits(task, events[..i]) == d - 1 && Hit(task, events[i]) == 1
  {
    var rest := events[..|events|-1];
    if d <= Hits(task, rest) {
      HitsReach(task, rest, d);
      var i :| 0 <= i < |rest| && Hits(task, rest[..i]) == d - 1 && Hit(task, rest[i]) == 1;
      assert rest[..i] == events[..i];
    }
  }

  lemma {:induction false} HitsPrefix(task: Task, events: seq<Event>, i: nat)
    requires i <= |events|
    ensures Hits(task, events[..i]) <= Hits(task, events)
    decreases |events|
  {
    if i < |events| {
      var rest := events[..|events|-1];
      assert rest[..i] == events[..i];
      HitsPrefix(task, rest, i);
    } else {
      assert events[..i] == events;
    }
  }

  lemma ReadyAtMeaning(rows: Rows, events: seq<Event>, i: nat, t: TaskId)
    requires i < |events|
    ensures t in ReadyAt(rows, events, i)
       <==> t in rows && Hit(rows[t], events[i]) == 1 && rows[t].inDegree == Hits(rows[t], events[..i]) + 1
  {
    ResolveAllSettles(rows, events[..i]);
  }

  /** A task is released exactly when enough events hit it. */
  lemma ReleasedMeaning(rows: Rows, events: seq<Event>, t: TaskId)
    ensures t in ReadyAll(rows, events) <==> t in rows && 1 <= rows[t].inDegree <= Hits(rows[t], events)
  {
    forall i | 0 <= i < |events|
      ensures t in ReadyAt(rows, events, i)
         <==> t in rows && Hit(rows[t], events[i]) == 1 && rows[t].inDegree == Hits(rows[t], events[..i]) + 1
    {
      ReadyAtMeaning(rows, events, i, t);
    }
    if t in rows && 1 <= rows[t].inDegree <= Hits(rows[t], events) {
      HitsReach(rows[t], events, rows[t].inDegree);
    }
    if i :| 0 <= i < |events| && t in ReadyAt(rows, events, i) {
      assert events[..i+1][..i] == events[..i];
      HitsPrefix(rows[t], events, i + 1);
    }
  }

  /** No task is released twice, however often its dependencies are announced. */
  lemma ReleasedOnce(rows: Rows, events: seq<Event>, i: nat, j: nat, t: TaskId)
    requires i < j < |events| && t in ReadyAt(rows, events, i)
    ensures t !in ReadyAt(rows, events, j)
  {
    ReadyAtMeaning(rows, events, i, t);
    ReadyAtMeaning(rows, events, j, t);
    assert events[..i+1][..i] == events[..i];
    assert events[..j][..i+1] == events[..i+1];
    HitsPrefix(rows[t], events[..j], i + 1);
  }

  // ---- permutations ----

  lemma {:induction false} HitsConcat(task: Task, xs: seq<Event>, ys: seq<Event>)
    ensures Hits(task, xs + ys) == Hits(task, xs) + Hits(task, ys)
  {
    if ys == [] {
      assert xs + ys == xs;
    } else {
      var rest := ys[..|ys|-1];
      assert (xs + ys)[..|xs + ys|-1] == xs + rest;
      HitsConcat(task, xs, rest);
    }
  }

  lemma HitsSingle(task: Task, ev: Event)
    ensures Hits(task, [ev]) == Hit(task, ev)
  {
    assert [ev][..0] == [];
  }

  /** Taking one occurrence out lowers the count by that event's hit. */
  lemma HitsWithout(task: Task, ys: seq<Event>, i: nat)
    requires i < |ys|
    ensures Hits(task, ys) == Hits(task, ys[..i] + ys[i+1..]) + Hit(task, ys[i])
  {
    assert ys == (ys[..i] + [ys[i]]) + ys[i+1..];
    HitsConcat(task, ys[..i] + [ys[i]], ys[i+1..]);
    HitsConcat(task, ys[..i], [ys[i]]);
    HitsConcat(task, ys[..i], ys[i+1..]);
    HitsSingle(task, ys[i]);
  }

  lemma MultisetWithout(ys: seq<Event>, i: nat)
    requires i < |ys|
    ensures multiset(ys[..i] + ys[i+1..]) == multiset(ys) - multiset{ys[i]}
  {
    assert ys == ys[..i] + [ys[i]] + ys[i+1..];
  }

  lemma {:induction false} HitsPermuted(task: Task, xs: seq<Event>, ys: seq<Event>)
    requires multiset(xs) == multiset(ys)
    ensures Hits(task, xs) == Hits(task, ys)
    decreases |xs|
  {
    assert |xs| == |multiset(xs)| && |ys| == |multiset(ys)|;
    if xs != [] {
      var n := |xs| - 1;
      assert xs[n] in multiset(ys);
      var i :| 0 <= i < |ys| && ys[i] == xs[n];
      MultisetWithout(xs, n);
      MultisetWithout(ys, i);
      HitsWithout(task, ys, i);
      assert xs[..n] + xs[n+1..] == xs[..n];
      HitsPermuted(task, xs[..n], ys[..i] + ys[i+1..]);
    }
  }

  /** The events in any order: the same table, and the same tasks released. */
  lemma AnyOrder(rows: Rows, xs: seq<Event>, ys: seq<Event>)
    requires multiset(xs) == multiset(ys)
    ensures ResolveAll(rows, xs) == ResolveAll(rows, ys)
    ensures ReadyAll(rows, xs) == ReadyAll(rows, ys)
  {
    ResolveAllSettles(rows, xs);
    ResolveAllSettles(rows, ys);
    forall t | t in rows
      ensures Settled(rows[t], xs) == Settled(rows[t], ys) && Hits(rows[t], xs) == Hits(rows[t], ys)
    {
      HitsPermuted(rows[t], xs, ys);
      assert forall ev :: ev in xs <==> ev in multiset(xs);
      assert forall ev :: ev in ys <==> ev in multiset(ys);
    }
    forall t ensures t in ReadyAll(rows, xs) <==> t in ReadyAll(rows, ys) {
      ReleasedMeaning(rows, xs, t);
      ReleasedMeaning(rows, ys, t);
    }
  }

  // ---- what a release means ----

  /** No reference of a workflow is announced twice. */
  predicate AnnouncedOnce(events: seq<Event>) {
    forall i, j | 0 <= i < j < |events| :: !SameReference(events[i], events[j])
  }

  predicate SameReference(ev: Event, ev': Event) {
    ev.executionId == ev'.executionId && ev.refId == ev'.refId
  }

  /** The dependencies of the task that the events announce. */
  function AnnouncedDeps(task: Task, events: seq<Event>): set<RefId> {
    set ev | ev in events && DependsOn(task, ev.executionId, ev.refId) :: ev.refId
  }

  /** A stored task that waits for a list of different tasks. */
  predicate Waiting(task: Task) {
    task.spec.dependencies != [] && NoDuplicates(task.spec.dependencies) && task.inDegree == |task.spec.dependencies|
  }

  predicate Released(task: Task, events: seq<Event>) {
    1 <= task.inDegree <= Hits(task, events)
  }

  lemma AnnouncedDepsStep(task: Task, events: seq<Event>, ev: Event)
    ensures AnnouncedDeps(task, events + [ev])
         == AnnouncedDeps(task, events) + (if Hit(task, ev) == 1 then {ev.refId} else {})
  {
    assert forall x :: x in events + [ev] <==> x in events || x == ev;
  }

  lemma {:induction false} HitsCountDeps(task: Task, events: seq<Event>)
    requires AnnouncedOnce(events)
    ensures Hits(task, events) == |AnnouncedDeps(task, events)|
  {
    if events != [] {
      var n := |events| - 1;
      HitsCountDeps(task, events[..n]);
      AnnouncedDepsStep(task, events[..n], events[n]);
      assert events == events[..n] + [events[n]];
      if Hit(task, events[n]) == 1 {
        LastIsNew(task, events);
      }
    }
  }

  lemma LastIsNew(task: Task, events: seq<Event>)
    requires AnnouncedOnce(events) && events != [] && Hit(task, events[|events|-1]) == 1
    ensures events[|events|-1].refId !in AnnouncedDeps(task, events[..|events|-1])
  {
    var n := |events| - 1;
    assert forall k | 0 <= k < n :: !SameReference(events[k], events[n]);
    assert forall ev | ev in events[..n] :: !SameReference(ev, events[n]);
  }

  /** When no reference is announced twice, a task is released exactly when all its dependencies were announced. */
  lemma ReleasedWhenAllAnnounced(task: Task, events: seq<Event>)
    requires AnnouncedOnce(events) && Waiting(task)
    ensures Released(task, events) <==> AnnouncedDeps(task, events) == DepSet(task.spec)
  {
    HitsCountDeps(task, events);
    DepSetSize(task.spec.dependencies);
    SubsetSize(AnnouncedDeps(task, events), DepSet(task.spec));
  }

  function FreshName(events: seq<Event>): string {
    if events == [] then "a" else events[0].refId.name + FreshName(events[1..])
  }

  lemma {:induction false} FreshNameIsLonger(events: seq<Event>, i: nat)
    requires i < |events|
    ensures |events[i].refId.name| < |FreshName(events)|
  {
    if i > 0 {
      FreshNameIsLonger(events[1..], i - 1);
    } else {
      FreshNameIsNotEmpty(events[1..]);
    }
  }

  lemma {:induction false} FreshNameIsNotEmpty(events: seq<Event>)
    ensures FreshName(events) != ""
  {
    if events != [] {
      FreshNameIsNotEmpty(events[1..]);
    }
  }

  /** A task that waits for a reference announced twice and for one that is never announced. */
  function Victim(events: seq<Event>, i: nat): Task
    requires i < |events|
  {
    var deps := [events[i].refId, RefId(FreshName(events))];
    InitialRow(TaskSpec(0, events[i].executionId, RefId(""), Action(""), deps, 0))
  }

  lemma {:induction false} HitsTwice(task: Task, events: seq<Event>, i: nat, j: nat)
    requires i < j < |events| && Hit(task, events[i]) == 1 && Hit(task, events[j]) == 1
    ensures Hits(task, events) >= 2
  {
    HitsPrefix(task, events, j + 1);
    assert events[..j+1][..j] == events[..j];
    HitsPrefix(task, events[..j], i + 1);
    assert events[..j][..i+1] == events[..i+1] && events[..i+1][..i] == events[..i];
  }

  lemma VictimIsReleased(events: seq<Event>, i: nat, j: nat)
    requires i < j < |events| && SameReference(events[i], events[j])
    ensures var task := Victim(events, i);
            Waiting(task) && Released(task, events) && AnnouncedDeps(task, events) != DepSet(task.spec)
  {
    var task := Victim(events, i);
    var absent := RefId(FreshName(events));
    FreshNameIsLonger(events, i);
    HitsTwice(task, events, i, j);
    assert absent in task.spec.dependencies by { assert task.spec.dependencies[1] == absent; }
    forall ev | ev in events ensures ev.refId != absent {
      var k :| 0 <= k < |events| && events[k] == ev;
      FreshNameIsLonger(events, k);
    }
    assert absent !in AnnouncedDeps(task, events) && absent in DepSet(task.spec);
  }

  /** Why reference ids must be unique: releases mean what they should, for every waiting task, if and only if no
      reference of a workflow is announced twice. */
  lemma ReleasesExactly(events: seq<Event>)
    ensures AnnouncedOnce(events)
       <==> forall task | Waiting(task) :: Released(task, events) <==> AnnouncedDeps(task, events) == DepSet(task.spec)
  {
    if AnnouncedOnce(events) {
      forall task | Waiting(task) ensures Released(task, events) <==> AnnouncedDeps(task, events) == DepSet(task.spec) {
        ReleasedWhenAllAnnounced(task, events);
      }
    } else {
      var i, j :| 0 <= i < j < |events| && SameReference(events[i], events[j]);
      VictimIsReleased(events, i, j);
    }
  }
}
