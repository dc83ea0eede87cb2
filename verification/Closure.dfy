/** Which tasks the dependency lists let run, and what a request must keep to for them to run in order. */
module Closure {
  import opened Domain
  import opened Protocol
  import opened Counting

  function TasksOf(c: Config, e: ExecutionId): set<TaskId> {
    set t | t in c.specs && c.specs[t].executionId == e
  }

  /** The dependency list of `t` has no duplicate and each entry names a task of `done` in the same workflow. */
  ghost predicate Unlocked(c: Config, done: set<TaskId>, t: TaskId)
    requires t in c.specs
  {
    && NoDuplicates(c.specs[t].dependencies)
    && forall d | d in c.specs[t].dependencies :: Named(c, done, c.specs[t].executionId, d)
  }

  ghost predicate Named(c: Config, done: set<TaskId>, e: ExecutionId, d: RefId) {
    exists u :: u in done && u in c.specs && c.specs[u].executionId == e && c.specs[u].refId == d
  }

  ghost predicate Closed(c: Config, done: set<TaskId>) {
    forall t | t in c.specs && Unlocked(c, done, t) :: t in done
  }

  ghost predicate LeastClosed(c: Config, done: set<TaskId>) {
    Closed(c, done) && forall other | Closed(c, other) :: done <= other
  }

  lemma UnlockedMonotone(c: Config, done: set<TaskId>, more: set<TaskId>, t: TaskId)
    requires t in c.specs && done <= more && Unlocked(c, done, t)
    ensures Unlocked(c, more, t)
  {
    forall d | d in c.specs[t].dependencies ensures Named(c, more, c.specs[t].executionId, d) {
      assert Named(c, done, c.specs[t].executionId, d);
      var u :| u in done && u in c.specs && c.specs[u].executionId == c.specs[t].executionId && c.specs[u].refId == d;
      assert u in more;
    }
  }

  lemma LeastClosedIsUnique(c: Config, done: set<TaskId>, other: set<TaskId>)
    requires LeastClosed(c, done) && LeastClosed(c, other)
    ensures done == other
  {
    assert done <= other && other <= done;
  }

  lemma {:induction false} GrowsToLeastClosed(c: Config, inside: set<TaskId>) returns (done: set<TaskId>)
    requires inside <= c.specs.Keys && forall other | Closed(c, other) :: inside <= other
    ensures done <= c.specs.Keys && LeastClosed(c, done)
    decreases c.specs.Keys - inside
  {
    if Closed(c, inside) {
      done := inside;
    } else {
      var t :| t in c.specs && Unlocked(c, inside, t) && t !in inside;
      forall other | Closed(c, other) ensures inside + {t} <= other {
        UnlockedMonotone(c, inside, other, t);
      }
      done := GrowsToLeastClosed(c, inside + {t});
    }
  }

  /** Each task of the least closed set is unlocked by the others. */
  lemma LeastClosedUnlocked(c: Config, done: set<TaskId>, t: TaskId)
    requires LeastClosed(c, done) && t in done
    ensures t in c.specs && Unlocked(c, done, t)
  {
    if t !in c.specs || !Unlocked(c, done, t) {
      var fewer := done - {t};
      forall u | u in c.specs && Unlocked(c, fewer, u) ensures u in fewer {
        UnlockedMonotone(c, fewer, done, u);
      }
      assert Closed(c, fewer);
    }
  }

  /** Whatever the lists say, there is a least closed set of tasks. */
  lemma LeastClosedExists(c: Config) returns (done: set<TaskId>)
    ensures done <= c.specs.Keys && LeastClosed(c, done)
  {
    done := GrowsToLeastClosed(c, {});
  }

  // ---- the order of a log ----

  /** Each logged task was unlocked when it was logged, and no parent is logged after its child. */
  ghost predicate Ordered(c: Config, log: seq<TaskId>) {
    forall i | 0 <= i < |log| :: OrderedAt(c, log, i)
  }

  ghost predicate OrderedAt(c: Config, log: seq<TaskId>, i: nat)
    requires i < |log|
  {
    && log[i] in c.specs
    && Unlocked(c, LogSet(log[..i]), log[i])
    && forall u | u in log && Parent(c, u, log[i]) :: u in log[..i]
  }

  lemma OrderedPrefix(c: Config, log: seq<TaskId>, n: nat)
    requires Ordered(c, log) && n <= |log|
    ensures Ordered(c, log[..n])
  {
    forall i | 0 <= i < n ensures OrderedAt(c, log[..n], i) {
      assert OrderedAt(c, log, i);
      assert log[..n][..i] == log[..i];
    }
  }

  /** No ordered log leaves a closed set. */
  lemma {:induction false} LogStaysInside(c: Config, log: seq<TaskId>, done: set<TaskId>)
    requires Ordered(c, log) && Closed(c, done)
    ensures LogSet(log) <= done
  {
    if log != [] {
      var n := |log| - 1;
      OrderedPrefix(c, log, n);
      LogStaysInside(c, log[..n], done);
      assert OrderedAt(c, log, n);
      UnlockedMonotone(c, LogSet(log[..n]), done, log[n]);
      assert log == log[..n] + [log[n]];
      LogSetGrows(log[..n], log[n]);
    }
  }

  lemma OrderedGrows(c: Config, log: seq<TaskId>, e: TaskId)
    requires Ordered(c, log) && e in c.specs && Unlocked(c, LogSet(log), e)
    requires !Parent(c, e, e) && forall t | t in log :: !Parent(c, e, t)
    ensures Ordered(c, log + [e])
  {
    var longer := log + [e];
    forall i | 0 <= i < |longer| ensures OrderedAt(c, longer, i) {
      assert longer[..i] == log[..i];
      if i < |log| {
        assert OrderedAt(c, log, i);
      } else {
        assert log[..i] == log;
      }
    }
  }

  // ---- counting parents ----

  function RefsOf(c: Config, us: set<TaskId>): set<RefId> {
    set u | u in us && u in c.specs :: c.specs[u].refId
  }

  lemma {:induction false} FewerRefs(c: Config, us: set<TaskId>)
    ensures |RefsOf(c, us)| <= |us|
  {
    if us != {} {
      var u :| u in us;
      FewerRefs(c, us - {u});
      if u in c.specs {
        assert RefsOf(c, us) == RefsOf(c, us - {u}) + {c.specs[u].refId};
      } else {
        assert RefsOf(c, us) == RefsOf(c, us - {u});
      }
    } else {
      assert RefsOf(c, us) == {};
    }
  }

  lemma SharedRefs(c: Config, us: set<TaskId>, u: TaskId, v: TaskId)
    requires u in us && v in us && u != v && Twins(c, u, v)
    ensures |RefsOf(c, us)| < |us|
  {
    assert RefsOf(c, us) == RefsOf(c, us - {v});
    FewerRefs(c, us - {v});
  }

  lemma {:induction false} AsManyRefs(c: Config, us: set<TaskId>)
    requires us <= c.specs.Keys && forall u, v | u in us && v in us && c.specs[u].refId == c.specs[v].refId :: u == v
    ensures |RefsOf(c, us)| == |us|
  {
    if us != {} {
      var u :| u in us;
      AsManyRefs(c, us - {u});
      assert RefsOf(c, us) == RefsOf(c, us - {u}) + {c.specs[u].refId};
    } else {
      assert RefsOf(c, us) == {};
    }
  }

  /** The references of the parents in `done` are the listed ones that name a task of `done`. */
  lemma ParentRefs(c: Config, done: set<TaskId>, t: TaskId, d: RefId)
    requires t in c.specs
    ensures d in RefsOf(c, ParentsIn(c, done, t))
       <==> (d in c.specs[t].dependencies && Named(c, done, c.specs[t].executionId, d))
  {
    if d in RefsOf(c, ParentsIn(c, done, t)) {
      var u :| u in ParentsIn(c, done, t) && c.specs[u].refId == d;
      assert u in done;
    }
    if d in c.specs[t].dependencies && Named(c, done, c.specs[t].executionId, d) {
      var u :| u in done && u in c.specs && c.specs[u].executionId == c.specs[t].executionId && c.specs[u].refId == d;
      assert u in ParentsIn(c, done, t);
    }
  }

  lemma ListedRefs(c: Config, done: set<TaskId>, t: TaskId)
    requires t in c.specs
    ensures RefsOf(c, ParentsIn(c, done, t)) <= DepSet(c.specs[t])
    ensures Unlocked(c, done, t)
       <==> (NoDuplicates(c.specs[t].dependencies) && RefsOf(c, ParentsIn(c, done, t)) == DepSet(c.specs[t]))
  {
    forall d ensures d in RefsOf(c, ParentsIn(c, done, t))
                <==> d in c.specs[t].dependencies && Named(c, done, c.specs[t].executionId, d)
    {
      ParentRefs(c, done, t, d);
    }
    assert forall d :: d in DepSet(c.specs[t]) <==> d in c.specs[t].dependencies;
  }

  /** A task is unlocked by no fewer parents than its list is long. */
  lemma UnlockedHasParents(c: Config, done: set<TaskId>, t: TaskId)
    requires t in c.specs && Unlocked(c, done, t)
    ensures |ParentsIn(c, done, t)| >= |c.specs[t].dependencies|
  {
    ListedRefs(c, done, t);
    FewerRefs(c, ParentsIn(c, done, t));
    DepSetSize(c.specs[t].dependencies);
  }

  lemma FewerParents(c: Config, done: set<TaskId>, more: set<TaskId>, t: TaskId)
    requires done <= more
    ensures ParentsIn(c, done, t) <= ParentsIn(c, more, t) && |ParentsIn(c, done, t)| <= |ParentsIn(c, more, t)|
  {
    SubsetSize(ParentsIn(c, done, t), ParentsIn(c, more, t));
  }

  // ---- what a request must keep to ----

  /** No task has more parents in `done` than its list is long, and as many only if it is in `done` itself. */
  ghost predicate Balanced(c: Config, done: set<TaskId>) {
    forall t | t in c.specs :: BalancedAt(c, done, t)
  }

  ghost predicate BalancedAt(c: Config, done: set<TaskId>, t: TaskId)
    requires t in c.specs
  {
    && |ParentsIn(c, done, t)| <= |c.specs[t].dependencies|
    && (|ParentsIn(c, done, t)| == |c.specs[t].dependencies| ==> t in done)
  }

  ghost predicate Orderly(c: Config) {
    exists done :: LeastClosed(c, done) && Balanced(c, done)
  }

  /** Some task of the workflow lists the reference of `u`. */
  ghost predicate Listed(c: Config, u: TaskId) {
    exists t :: Parent(c, u, t)
  }

  /** No two tasks of `done` in one workflow share a reference that some task of that workflow lists. */
  ghost predicate ToldApart(c: Config, done: set<TaskId>) {
    forall u, v | u in done && v in done && Twins(c, u, v) && Listed(c, u) :: u == v
  }

  predicate Twins(c: Config, u: TaskId, v: TaskId) {
    && u in c.specs && v in c.specs
    && c.specs[u].executionId == c.specs[v].executionId && c.specs[u].refId == c.specs[v].refId
  }

  lemma FewerToldApart(c: Config, done: set<TaskId>, fewer: set<TaskId>)
    requires ToldApart(c, done) && fewer <= done
    ensures ToldApart(c, fewer)
  {
  }

  /** Where references can be told apart, each listed reference stands for at most one parent. */
  lemma OneParentPerRef(c: Config, done: set<TaskId>, t: TaskId)
    requires ToldApart(c, done)
    ensures |ParentsIn(c, done, t)| == |RefsOf(c, ParentsIn(c, done, t))|
  {
    var us := ParentsIn(c, done, t);
    forall u, v | u in us && v in us && c.specs[u].refId == c.specs[v].refId ensures u == v {
      assert Parent(c, u, t) && Listed(c, u) && Twins(c, u, v);
    }
    AsManyRefs(c, us);
  }

  /** References that can be told apart are balanced. */
  lemma ToldApartIsBalanced(c: Config, done: set<TaskId>)
    requires LeastClosed(c, done) && ToldApart(c, done)
    ensures Balanced(c, done) && Orderly(c)
  {
    forall t | t in c.specs ensures BalancedAt(c, done, t) {
      OneParentPerRef(c, done, t);
      ListedRefs(c, done, t);
      SubsetSize(RefsOf(c, ParentsIn(c, done, t)), DepSet(c.specs[t]));
      DepSetSize(c.specs[t].dependencies);
    }
  }

  /** With unique references all tasks can be told apart, those that never run included. */
  lemma UniqueIsOrderly(c: Config)
    requires UniqueRefs(c)
    ensures Closed(c, c.specs.Keys) && ToldApart(c, c.specs.Keys) && Orderly(c)
  {
    assert Closed(c, c.specs.Keys) && ToldApart(c, c.specs.Keys);
    var done := LeastClosedExists(c);
    FewerToldApart(c, c.specs.Keys, done);
    ToldApartIsBalanced(c, done);
  }

  /** In a balanced request, whatever has as many parents in an ordered log as its list is long can run, and all its
      parents that can run are in the log. */
  lemma EnoughParents(c: Config, log: seq<TaskId>, done: set<TaskId>, t: TaskId)
    requires LeastClosed(c, done) && Balanced(c, done) && Ordered(c, log) && t in c.specs
    requires |ParentsIn(c, LogSet(log), t)| >= |c.specs[t].dependencies|
    ensures t in done && Unlocked(c, LogSet(log), t) && ParentsIn(c, LogSet(log), t) == ParentsIn(c, done, t)
  {
    LogStaysInside(c, log, done);
    FewerParents(c, LogSet(log), done, t);
    assert BalancedAt(c, done, t);
    SubsetSize(ParentsIn(c, LogSet(log), t), ParentsIn(c, done, t));
    LeastClosedUnlocked(c, done, t);
    ListedRefs(c, done, t);
    ListedRefs(c, LogSet(log), t);
  }

  /** Whatever is unlocked next, nobody logged was waiting for it. */
  lemma NextIsLast(c: Config, log: seq<TaskId>, done: set<TaskId>, e: TaskId, t: TaskId)
    requires LeastClosed(c, done) && Balanced(c, done) && Ordered(c, log)
    requires e in done && e !in log && t in LogSet(log)
    ensures !Parent(c, e, t)
  {
    var i :| 0 <= i < |log| && log[i] == t;
    assert OrderedAt(c, log, i);
    UnlockedMonotone(c, LogSet(log[..i]), LogSet(log), t);
    UnlockedHasParents(c, LogSet(log), t);
    EnoughParents(c, log, done, t);
    assert e !in ParentsIn(c, LogSet(log), t);
  }

  lemma NotItsOwnParent(c: Config, log: seq<TaskId>, done: set<TaskId>, e: TaskId)
    requires LeastClosed(c, done) && Balanced(c, done) && Ordered(c, log)
    requires e in c.specs && e in done && e !in log && Unlocked(c, LogSet(log), e)
    ensures !Parent(c, e, e)
  {
    UnlockedHasParents(c, LogSet(log), e);
    EnoughParents(c, log, done, e);
    assert e !in ParentsIn(c, LogSet(log), e);
  }

  lemma {:induction false} OrderGrows(c: Config, done: set<TaskId>, log: seq<TaskId>) returns (full: seq<TaskId>)
    requires LeastClosed(c, done) && Balanced(c, done) && Ordered(c, log) && NoDuplicates(log)
    ensures Ordered(c, full) && NoDuplicates(full) && LogSet(full) == done
    decreases done - LogSet(log)
  {
    LogStaysInside(c, log, done);
    if Closed(c, LogSet(log)) {
      full := log;
    } else {
      var e :| e in c.specs && Unlocked(c, LogSet(log), e) && e !in LogSet(log);
      UnlockedMonotone(c, LogSet(log), done, e);
      forall t | t in log ensures !Parent(c, e, t) {
        NextIsLast(c, log, done, e, t);
      }
      NotItsOwnParent(c, log, done, e);
      OrderedGrows(c, log, e);
      LogSetGrows(log, e);
      full := OrderGrows(c, done, log + [e]);
    }
  }

  /** What a balanced request lets run can be listed in order: each task after its parents. */
  lemma LeastClosedHasOrder(c: Config, done: set<TaskId>) returns (log: seq<TaskId>)
    requires LeastClosed(c, done) && Balanced(c, done)
    ensures Ordered(c, log) && NoDuplicates(log) && LogSet(log) == done
  {
    log := OrderGrows(c, done, []);
  }

  lemma ReadyMeansUnlocked(c: Config, log: seq<TaskId>, t: TaskId)
    requires t in c.specs
    ensures DoneDeps(c, log, c.specs[t]) == RefsOf(c, ParentsIn(c, LogSet(log), t))
    ensures Ready(c, log, c.specs[t]) <==> Unlocked(c, LogSet(log), t)
  {
    var e := c.specs[t].executionId;
    forall d ensures d in DoneRefs(c, log, e) <==> Named(c, LogSet(log), e, d) {
      if d in DoneRefs(c, log, e) {
        var u :| u in log && u in c.specs && c.specs[u].executionId == e && c.specs[u].refId == d;
        assert u in LogSet(log);
      }
    }
    forall d ensures d in DepSet(c.specs[t]) <==> d in c.specs[t].dependencies {}
    forall d ensures d in DoneDeps(c, log, c.specs[t]) <==> d in RefsOf(c, ParentsIn(c, LogSet(log), t)) {
      ParentRefs(c, LogSet(log), t, d);
    }
  }

  // ---- only the stored tasks matter ----

  lemma UnlockedBySpecs(c: Config, c': Config, done: set<TaskId>, t: TaskId)
    requires c'.specs == c.specs && t in c.specs
    ensures Unlocked(c', done, t) <==> Unlocked(c, done, t)
  {
    forall e, d ensures Named(c', done, e, d) <==> Named(c, done, e, d) {}
  }

  lemma ClosedBySpecs(c: Config, c': Config, done: set<TaskId>)
    requires c'.specs == c.specs
    ensures Closed(c', done) <==> Closed(c, done)
  {
    forall t | t in c.specs ensures Unlocked(c', done, t) <==> Unlocked(c, done, t) {
      UnlockedBySpecs(c, c', done, t);
    }
  }

  lemma LeastClosedBySpecs(c: Config, c': Config, done: set<TaskId>)
    requires c'.specs == c.specs
    ensures LeastClosed(c', done) <==> LeastClosed(c, done)
  {
    forall other ensures Closed(c', other) <==> Closed(c, other) {
      ClosedBySpecs(c, c', other);
    }
  }

  lemma OrderlyBySpecs(c: Config, c': Config)
    requires c'.specs == c.specs && Orderly(c)
    ensures Orderly(c')
  {
    var done :| LeastClosed(c, done) && Balanced(c, done);
    LeastClosedBySpecs(c, c', done);
    forall t | t in c.specs ensures BalancedAt(c', done, t) {
      assert BalancedAt(c, done, t);
      assert ParentsIn(c', done, t) == ParentsIn(c, done, t);
    }
  }
}
