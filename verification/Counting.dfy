/** The in-degree column counts the dependencies whose event is still to come. */
module Counting {
  import opened Domain
  import opened Protocol

  function DepSet(spec: TaskSpec): set<RefId> {
    set d | d in spec.dependencies
  }

  predicate Parent(c: Config, u: TaskId, t: TaskId) {
    && u in c.specs && t in c.specs
    && c.specs[u].executionId == c.specs[t].executionId
    && c.specs[u].refId in c.specs[t].dependencies
  }

  /** The tasks of `done` whose events decrement `t`. */
  function ParentsIn(c: Config, done: set<TaskId>, t: TaskId): set<TaskId> {
    set u | u in done && Parent(c, u, t)
  }

  function LogSet(log: seq<TaskId>): set<TaskId> {
    set t | t in log
  }

  /** The in-degree column is the length of the list less the number of parents resolved. */
  ghost predicate Tallied(c: Config, s: State) {
    forall t | t in c.specs && t in s.store.rows ::
      s.store.rows[t].inDegree == |c.specs[t].dependencies| - |ParentsIn(c, LogSet(s.log), t)|
  }

  /** The reference ids of an execution whose event the coordinator has resolved. */
  function DoneRefs(c: Config, log: seq<TaskId>, e: ExecutionId): set<RefId> {
    set u | u in log && u in c.specs && c.specs[u].executionId == e :: c.specs[u].refId
  }

  function DoneDeps(c: Config, log: seq<TaskId>, spec: TaskSpec): set<RefId> {
    DepSet(spec) * DoneRefs(c, log, spec.executionId)
  }

  ghost predicate Counted(c: Config, s: State) {
    forall t | t in c.specs && t in s.store.rows ::
      s.store.rows[t].inDegree == |c.specs[t].dependencies| - |DoneDeps(c, s.log, c.specs[t])|
  }

  /** A resolved parent of `t` that did not complete. */
  ghost predicate Taints(c: Config, s: State, u: TaskId, t: TaskId) {
    u in s.log && Parent(c, u, t) && u in s.store.rows && s.store.rows[u].status != Completed
  }

  ghost predicate HintFits(c: Config, s: State, t: TaskId)
    requires t in s.store.rows
  {
    s.store.rows[t].skipHint <==> exists u :: Taints(c, s, u, t)
  }

  ghost predicate Hinted(c: Config, s: State) {
    forall t | t in c.specs && t in s.store.rows :: HintFits(c, s, t)
  }

  predicate Ready(c: Config, log: seq<TaskId>, spec: TaskSpec) {
    NoDuplicates(spec.dependencies) && DepSet(spec) <= DoneRefs(c, log, spec.executionId)
  }

  // ---- counting a list ----

  lemma {:induction false} DepSetSize(deps: seq<RefId>)
    ensures var ds := set d | d in deps;
            |ds| <= |deps| && (|ds| == |deps| <==> NoDuplicates(deps))
  {
    var ds := set d | d in deps;
    if deps == [] {
      assert ds == {};
    } else {
      var last := deps[|deps|-1];
      var rest := deps[..|deps|-1];
      DepSetSize(rest);
      var rs := set d | d in rest;
      assert ds == rs + {last} by {
        forall d ensures d in ds <==> d in rs + {last} {
          assert deps == rest + [last];
        }
      }
      if last in rest {
        assert ds == rs;
        var i :| 0 <= i < |rest| && rest[i] == last;
        assert deps[i] == deps[|deps|-1];
      } else {
        assert |ds| == |rs| + 1;
        assert NoDuplicates(rest) ==> NoDuplicates(deps);
        assert NoDuplicates(deps) ==> NoDuplicates(rest);
      }
    }
  }

  lemma SubsetSize<T>(a: set<T>, b: set<T>)
    requires a <= b
    ensures |a| <= |b| && (|a| == |b| <==> a == b)
  {
    assert b == a + (b - a);
    assert |b| == |a| + |b - a|;
  }

  /** The counter is never negative, and it is zero exactly when nothing is left to wait for. */
  lemma CountMeaning(c: Config, log: seq<TaskId>, spec: TaskSpec)
    ensures var left := |spec.dependencies| - |DoneDeps(c, log, spec)|;
            left >= 0 && (left == 0 <==> Ready(c, log, spec))
  {
    DepSetSize(spec.dependencies);
    SubsetSize(DoneDeps(c, log, spec), DepSet(spec));
  }

  lemma LogSetGrows(log: seq<TaskId>, u: TaskId)
    ensures LogSet(log + [u]) == LogSet(log) + {u}
  {
    forall t ensures t in LogSet(log + [u]) <==> t in LogSet(log) + {u} {
      assert t in log + [u] <==> t in log || t == u;
    }
  }

  /** One more event: exactly its children have one parent more resolved. */
  lemma ParentsStep(c: Config, log: seq<TaskId>, u: TaskId, t: TaskId)
    requires u !in log
    ensures |ParentsIn(c, LogSet(log + [u]), t)| == |ParentsIn(c, LogSet(log), t)| + (if Parent(c, u, t) then 1 else 0)
  {
    LogSetGrows(log, u);
    var before := ParentsIn(c, LogSet(log), t);
    if Parent(c, u, t) {
      assert ParentsIn(c, LogSet(log + [u]), t) == before + {u};
    } else {
      assert ParentsIn(c, LogSet(log + [u]), t) == before;
    }
  }
}
