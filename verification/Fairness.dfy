/** Whose turn it is: what the queue's order means for targets. */
module Fairness {
  import opened Monitor
  import opened MonitorInvariant
  import opened MonitorProperties
  import P = WorkerPool
  import PoolProperties

  /** The job at position i of the queue belongs to a generation whose context is not done. */
  predicate Alive(s: State, i: nat) {
    && i < |s.pool.queue| && s.pool.queue[i] < |s.owners| && s.pool.queue[i] < |s.pool.calls|
    && s.owners[s.pool.queue[i]] < |s.plan.gens| && !CtxDone(s, s.owners[s.pool.queue[i]])
  }

  /** The positions up to k of such jobs. */
  function AliveUpTo(s: State, k: nat): set<nat> { set i | 0 <= i <= k && Alive(s, i) }

  function TargetAt(s: State, i: nat): string
    requires Alive(s, i)
  {
    s.pool.calls[s.pool.queue[i]].target.id
  }

  lemma AliveIsWaiting(s: State, i: nat)
    requires Inv(s) && Alive(s, i)
    ensures Waits(s, s.pool.queue[i]) && Outstanding(s.pool.calls[s.pool.queue[i]])
    ensures TargetAt(s, i) in s.plan.running
  {
    var c := s.pool.queue[i];
    assert |s.pool.calls[c].job| == 1;
    OutstandingIsParked(s, c);
    WaitsUnderItsRecord(s, c);
  }

  lemma DifferentTargets(s: State, i: nat, j: nat)
    requires Inv(s) && Alive(s, i) && Alive(s, j) && i != j
    ensures TargetAt(s, i) != TargetAt(s, j)
  {
    AliveIsWaiting(s, i);
    AliveIsWaiting(s, j);
    WaitsUnderItsRecord(s, s.pool.queue[i]);
    WaitsUnderItsRecord(s, s.pool.queue[j]);
    P.QueueDistinct(s.pool.queue, s.pool.enqueued, s.pool.picked);
  }

  lemma {:induction false} CountedByTarget(s: State, places: set<nat>, ids: set<string>)
    requires Inv(s) && forall i :: i in places ==> Alive(s, i) && TargetAt(s, i) in ids
    ensures |places| <= |ids|
    decreases places
  {
    if i :| i in places {
      forall j | j in places && j != i ensures TargetAt(s, j) != TargetAt(s, i) {
        DifferentTargets(s, i, j);
      }
      CountedByTarget(s, places - {i}, ids - {TargetAt(s, i)});
    }
  }

  /** Job k of p's queue has been picked in q exactly if k + 1 more jobs have been, and the jobs picked until then are
      the first of p's queue in their order. */
  ghost predicate TakenInTurn(p: P.State, q: P.State, k: nat)
    requires k < |p.queue|
  {
    && (p.queue[k] in q.picked <==> |q.picked| > |p.picked| + k)
    && (forall i :: 0 <= i <= k && |q.picked| > |p.picked| + i ==> q.picked[|p.picked| + i] == p.queue[i])
  }

  lemma InOrder(p: P.State, steps: seq<P.Step>, k: nat)
    requires P.Inv(p) && P.ValidRun(p, steps) && k < |p.queue|
    ensures TakenInTurn(p, P.After(p, steps), k)
  {
    forall i: nat | i <= k
      ensures var q := P.After(p, steps);
        && (p.queue[i] in q.picked <==> |q.picked| > |p.picked| + i)
        && (|q.picked| > |p.picked| + i ==> q.picked[|p.picked| + i] == p.queue[i])
    {
      PoolProperties.FirstInFirstOut(p, steps, i);
    }
  }

  ghost predicate AllDifferent(s: State) {
    forall i: nat, j: nat :: i < j && Alive(s, i) && Alive(s, j) ==> TargetAt(s, i) != TargetAt(s, j)
  }

  lemma AtMostAsTargets(s: State, k: nat)
    requires Inv(s)
    ensures |AliveUpTo(s, k)| <= |s.plan.running|
  {
    forall i | i in AliveUpTo(s, k) ensures TargetAt(s, i) in s.plan.running.Keys {
      AliveIsWaiting(s, i);
    }
    CountedByTarget(s, AliveUpTo(s, k), s.plan.running.Keys);
    assert |s.plan.running.Keys| == |s.plan.running|;
  }

  /** No target is starved once its job is queued. Over any run, the jobs picked up until job k of the queue is, are
      the first k of the queue, in their order; those of generations whose context was not done then are of
      pairwise different targets; and there are no more of them, job k included, than scheduled targets. */
  lemma ServedInTurn(limits: P.Limits, steps: seq<Step>, more: seq<Step>, k: nat)
    requires Reachable(limits, steps) && ValidRun(At(limits, steps), more) && k < |At(limits, steps).pool.queue|
    ensures TakenInTurn(At(limits, steps).pool, After(At(limits, steps), more).pool, k)
    ensures AllDifferent(At(limits, steps))
    ensures |AliveUpTo(At(limits, steps), k)| <= |At(limits, steps).plan.running|
  {
    AtInv(limits, steps);
    var s := At(limits, steps);
    RunProjects(s, more);
    InOrder(s.pool, PoolRun(s, more), k);
    forall i: nat, j: nat | i < j && Alive(s, i) && Alive(s, j) ensures TargetAt(s, i) != TargetAt(s, j) {
      DifferentTargets(s, i, j);
    }
    AtMostAsTargets(s, k);
  }
}
