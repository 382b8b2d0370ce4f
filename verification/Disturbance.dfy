/** Which generations a reconciliation pass leaves alone, and when repeating a pass disturbs nothing. */
module Disturbance {
  import opened Wrappers
  import opened Targets
  import opened Schedules

  /** No id is listed with two different meanings. Every listing with distinct ids is consistent. */
  ghost predicate Consistent(list: seq<Target>) {
    forall i, j :: 0 <= i < |list| && 0 <= j < |list| && list[i].id == list[j].id && Schedulable(list[i]) ==>
      list[j] == list[i]
  }

  ghost predicate DistinctIds(list: seq<Target>) {
    forall i, j :: 0 <= i < |list| && 0 <= j < |list| && list[i].id == list[j].id ==> i == j
  }

  /** Generations are only ever added and cancelled, never replaced or revived. */
  ghost predicate Grows(a: seq<Generation>, b: seq<Generation>) {
    |a| <= |b| && forall g :: 0 <= g < |a| ==> b[g].target == a[g].target && (a[g].cancelled ==> b[g].cancelled)
  }

  lemma {:induction false} SweepGrows(p: Plan, list: seq<Target>)
    requires InBounds(p)
    ensures Grows(p.gens, Sweep(p, list).gens)
  {
    if list != [] {
      SweepGrows(p, list[..|list| - 1]);
    }
  }

  lemma PassGrows(p: Plan, list: seq<Target>)
    requires InBounds(p)
    ensures Grows(p.gens, Pass(p, list).gens)
  {
    SweepGrows(p, list);
  }

  // ---------------------------------------------------------------- survivors

  /** A generation whose id is listed only with its own target is visited without effect. */
  lemma {:induction false} SweepKeeps(p: Plan, list: seq<Target>, g: nat)
    requires WellFormed(p) && g < |p.gens| && !p.gens[g].cancelled
    requires forall i :: 0 <= i < |list| && list[i].id == p.gens[g].target.id ==> list[i] == p.gens[g].target
    ensures g < |Sweep(p, list).gens| && !Sweep(p, list).gens[g].cancelled
    ensures Sweep(p, list).gens[g].target == p.gens[g].target
  {
    if list != [] {
      var front := list[..|list| - 1];
      SweepKeeps(p, front, g);
      SweepWellFormed(p, front);
    }
  }

  lemma PruneKeeps(p: Plan, keep: set<string>, g: nat)
    requires WellFormed(p) && g < |p.gens| && !p.gens[g].cancelled && p.gens[g].target.id in keep
    ensures !Prune(p, keep).gens[g].cancelled
  {
    assert !Dropped(p, keep, g);
  }

  lemma LastIsListed(list: seq<Target>, id: string)
    requires id in Ids(list)
    ensures exists i :: 0 <= i < |list| && list[i] == Last(list, id).value
  {
  }

  /** A generation survives a pass if and only if its exact target is listed. */
  lemma SurvivesIffListed(p: Plan, list: seq<Target>, g: nat)
    requires WellFormed(p) && Consistent(list)
    requires g < |p.gens| && !p.gens[g].cancelled
    ensures g < |Pass(p, list).gens|
    ensures !Pass(p, list).gens[g].cancelled <==> p.gens[g].target in list
  {
    var t, q := p.gens[g].target, Pass(p, list);
    PassGrows(p, list);
    if t in list {
      var i :| 0 <= i < |list| && list[i] == t;
      assert Schedulable(t) by { assert p.running[t.id] == g; }
      SweepKeeps(p, list, g);
      SweepWellFormed(p, list);
      PruneKeeps(Sweep(p, list), Ids(list), g);
    }
    if !q.gens[g].cancelled {
      PassComputesDesired(p, list);
      assert q.running[t.id] == g;
      assert Scheduled(q)[t.id] == t;
      assert Desired(list)[t.id] == t;
    }
  }

  // ---------------------------------------------------------------- started and cancelled, exactly

  /** Targets of the generations that q has and p had not. */
  function Started(p: Plan, q: Plan): set<Target> {
    set g | |p.gens| <= g < |q.gens| :: q.gens[g].target
  }

  /** Targets of the generations of p that q cancelled. */
  function Cancelled(p: Plan, q: Plan): set<Target>
    requires |p.gens| <= |q.gens|
  {
    set g | 0 <= g < |p.gens| && !p.gens[g].cancelled && q.gens[g].cancelled :: p.gens[g].target
  }

  lemma DesiredValues(list: seq<Target>, t: Target)
    requires Consistent(list)
    ensures t in Desired(list).Values <==> t in list && Schedulable(t)
  {
    if t in Desired(list).Values {
      var id :| id in Desired(list) && Desired(list)[id] == t;
    }
    if t in list && Schedulable(t) {
      var i :| 0 <= i < |list| && list[i] == t;
      LastIsListed(list, t.id);
      var j :| 0 <= j < |list| && list[j] == Last(list, t.id).value;
      assert list[j] == list[i];
      assert Desired(list)[t.id] == t;
    }
  }

  /** What a sweep starts is listed, was not scheduled with that value, and is still running at the end. */
  ghost predicate FreshStarts(p: Plan, q: Plan, list: seq<Target>)
    requires InBounds(p)
  {
    forall g :: |p.gens| <= g < |q.gens| ==>
      && !q.gens[g].cancelled && q.gens[g].target in list && Schedulable(q.gens[g].target)
      && q.gens[g].target !in Scheduled(p).Values
  }

  lemma ScheduledValues(p: Plan, t: Target)
    requires WellFormed(p)
    ensures t in Scheduled(p).Values <==> exists g :: 0 <= g < |p.gens| && !p.gens[g].cancelled && p.gens[g].target == t
  {
    if t in Scheduled(p).Values {
      var id :| id in Scheduled(p) && Scheduled(p)[id] == t;
      assert p.gens[p.running[id]].target == t;
    }
    if g :| 0 <= g < |p.gens| && !p.gens[g].cancelled && p.gens[g].target == t {
      assert p.running[t.id] == g;
      assert Scheduled(p)[t.id] == t;
    }
  }

  lemma SweepStarts(p: Plan, list: seq<Target>, n: nat)
    requires WellFormed(p) && Consistent(list) && n <= |list|
    ensures FreshStarts(p, Sweep(p, list[..n]), list)
    decreases n
  {
    if n == 0 {
      assert list[..0] == [];
    } else {
      var front, t := list[..n - 1], list[n - 1];
      assert list[..n][..n - 1] == front;
      var q := Sweep(p, front);
      SweepStarts(p, list, n - 1);
      SweepWellFormed(p, front);
      SweepGrows(p, front);
      VisitStarts(p, q, list, n - 1);
    }
  }

  lemma VisitStarts(p: Plan, q: Plan, list: seq<Target>, k: nat)
    requires WellFormed(p) && WellFormed(q) && Consistent(list) && k < |list|
    requires q == Sweep(p, list[..k]) && FreshStarts(p, q, list)
    ensures FreshStarts(p, Visit(q, list[k]), list)
  {
    var t := list[k];
    var r := Visit(q, t);
    if t.id in q.running && q.running[t.id] >= |p.gens| {
      var u := q.gens[q.running[t.id]].target;
      var i :| 0 <= i < |list| && list[i] == u;
      assert list[k] == list[i];
      assert r == q;
    } else if |r.gens| > |q.gens| {
      assert Schedulable(t) && r.gens[|q.gens|].target == t;
      if t in Scheduled(p).Values {
        ScheduledValues(p, t);
        var g :| 0 <= g < |p.gens| && !p.gens[g].cancelled && p.gens[g].target == t;
        forall i | 0 <= i < |list[..k]| && list[..k][i].id == t.id ensures list[..k][i] == t {
          assert list[i] == list[k];
        }
        SweepKeeps(p, list[..k], g);
        assert false;
      }
    }
  }

  /** The generations a pass starts and cancels are exactly the two differences between the desired schedule and
      the old one; none of the started ones is started twice. */
  lemma ExactDisturbance(p: Plan, list: seq<Target>)
    requires WellFormed(p) && Consistent(list)
    ensures |p.gens| <= |Pass(p, list).gens|
    ensures Started(p, Pass(p, list)) == Desired(list).Values - Scheduled(p).Values
    ensures Cancelled(p, Pass(p, list)) == Scheduled(p).Values - Desired(list).Values
    ensures forall g, h :: |p.gens| <= g < h < |Pass(p, list).gens| ==>
              Pass(p, list).gens[g].target.id != Pass(p, list).gens[h].target.id
  {
    var s, q := Sweep(p, list), Pass(p, list);
    PassGrows(p, list);
    PassComputesDesired(p, list);
    SweepWellFormed(p, list);
    SweepStarts(p, list, |list|);
    assert list[..|list|] == list;
    forall g | |p.gens| <= g < |q.gens| ensures !q.gens[g].cancelled {
      PruneKeeps(s, Ids(list), g);
    }
    forall t ensures t in Started(p, q) <==> t in Desired(list).Values - Scheduled(p).Values {
      DesiredValues(list, t);
      ScheduledValues(p, t);
      if t in Desired(list).Values && t !in Scheduled(p).Values {
        ScheduledValues(q, t);
        var g :| 0 <= g < |q.gens| && !q.gens[g].cancelled && q.gens[g].target == t;
        assert g >= |p.gens|;
      }
    }
    forall t ensures t in Cancelled(p, q) <==> t in Scheduled(p).Values - Desired(list).Values {
      CancelledIsDifference(p, list, t);
    }
  }

  lemma CancelledIsDifference(p: Plan, list: seq<Target>, t: Target)
    requires WellFormed(p) && Consistent(list) && |p.gens| <= |Pass(p, list).gens|
    ensures t in Cancelled(p, Pass(p, list)) <==> t in Scheduled(p).Values - Desired(list).Values
  {
    DesiredValues(list, t);
    ScheduledValues(p, t);
    if g :| 0 <= g < |p.gens| && !p.gens[g].cancelled && p.gens[g].target == t {
      assert p.running[t.id] == g;
      SurvivesIffListed(p, list, g);
    }
    if t in Cancelled(p, Pass(p, list)) {
      var g :| 0 <= g < |p.gens| && !p.gens[g].cancelled && Pass(p, list).gens[g].cancelled && p.gens[g].target == t;
      SurvivesIffListed(p, list, g);
    }
  }

  // ---------------------------------------------------------------- repeating a pass

  lemma GrowsAntisymmetric(a: seq<Generation>, b: seq<Generation>)
    requires Grows(a, b) && Grows(b, a)
    ensures a == b
  {
  }

  /** A visit that leaves the generations alone leaves the plan alone. */
  lemma VisitMovesGenerations(p: Plan, t: Target)
    requires WellFormed(p) && Visit(p, t).gens == p.gens
    ensures Visit(p, t) == p
  {
    assert t.id in p.running ==> StopGen(p, t.id).gens[p.running[t.id]].cancelled;
  }

  lemma {:induction false} QuietSweepVisits(p: Plan, list: seq<Target>)
    requires WellFormed(p) && Sweep(p, list).gens == p.gens
    ensures Sweep(p, list) == p
    ensures forall i :: 0 <= i < |list| ==> Visit(p, list[i]) == p
  {
    if list != [] {
      var front, t := list[..|list| - 1], list[|list| - 1];
      var q := Sweep(p, front);
      SweepGrows(p, front);
      GrowsAntisymmetric(p.gens, q.gens);
      QuietSweepVisits(p, front);
      VisitMovesGenerations(p, t);
      assert forall i :: 0 <= i < |front| ==> list[i] == front[i];
    }
  }

  lemma {:induction false} SweepOfQuietVisits(p: Plan, list: seq<Target>)
    requires WellFormed(p) && (forall i :: 0 <= i < |list| ==> Visit(p, list[i]) == p)
    ensures Sweep(p, list) == p
  {
    if list != [] {
      SweepOfQuietVisits(p, list[..|list| - 1]);
    }
  }

  /** Repeating a pass on the same listing starts and cancels nothing if and only if the listing is consistent:
      an id listed twice with different values is restarted by every pass. */
  lemma RepeatIsQuietIffConsistent(p: Plan, list: seq<Target>)
    requires WellFormed(p)
    ensures Pass(Pass(p, list), list) == Pass(p, list) <==> Consistent(list)
  {
    var q := Pass(p, list);
    PassComputesDesired(p, list);
    if Consistent(list) {
      ConsistentRepeat(q, list);
    }
    if Pass(q, list) == q {
      QuietRepeat(q, list);
    }
  }

  lemma ConsistentRepeat(q: Plan, list: seq<Target>)
    requires WellFormed(q) && Scheduled(q) == Desired(list) && Consistent(list)
    ensures Pass(q, list) == q
  {
    forall i | 0 <= i < |list| ensures Visit(q, list[i]) == q {
      ConsistentVisitIsQuiet(q, list, i);
    }
    SweepOfQuietVisits(q, list);
    assert q.running.Keys == Scheduled(q).Keys <= Ids(list);
    PruneNothing(q, Ids(list));
  }

  lemma PruneNothing(q: Plan, keep: set<string>)
    requires InBounds(q) && q.running.Keys <= keep
    ensures Prune(q, keep) == q
  {
    forall g | 0 <= g < |q.gens| ensures Prune(q, keep).gens[g] == q.gens[g] {
      assert !Dropped(q, keep, g);
    }
    assert Prune(q, keep).running == q.running;
  }

  lemma QuietRepeat(q: Plan, list: seq<Target>)
    requires WellFormed(q) && Pass(q, list) == q
    ensures Consistent(list)
  {
    SweepGrows(q, list);
    GrowsAntisymmetric(q.gens, Sweep(q, list).gens);
    QuietSweepVisits(q, list);
    forall i, j | 0 <= i < |list| && 0 <= j < |list| && list[i].id == list[j].id && Schedulable(list[i])
      ensures list[j] == list[i]
    {
      QuietVisitsAgree(q, list[i], list[j]);
    }
  }

  lemma ConsistentVisitIsQuiet(q: Plan, list: seq<Target>, i: nat)
    requires WellFormed(q) && Consistent(list) && i < |list| && Scheduled(q) == Desired(list)
    ensures Visit(q, list[i]) == q
  {
    var t := list[i];
    assert t.id in Ids(list);
    LastIsListed(list, t.id);
    var j :| 0 <= j < |list| && list[j] == Last(list, t.id).value;
    assert t.id in q.running <==> t.id in Desired(list);
    assert Schedulable(list[i]) ==> list[j] == list[i];
    if t.id in q.running {
      assert Scheduled(q)[t.id] == Desired(list)[t.id];
      assert Schedulable(list[j]);
      assert list[i] == list[j];
    }
  }

  /** Visiting a target other than the recorded one adds or cancels a generation. */
  lemma VisitReplaces(q: Plan, t: Target)
    requires WellFormed(q)
    ensures Schedulable(t) && !(t.id in q.running && q.gens[q.running[t.id]].target == t) ==>
              |Visit(q, t).gens| > |q.gens|
    ensures t.id in q.running && q.gens[q.running[t.id]].target != t ==>
              q.running[t.id] < |Visit(q, t).gens| && Visit(q, t).gens[q.running[t.id]].cancelled
  {
  }

  lemma QuietVisitsAgree(q: Plan, t: Target, u: Target)
    requires WellFormed(q) && t.id == u.id && Schedulable(t) && Visit(q, t) == q && Visit(q, u) == q
    ensures u == t
  {
    VisitReplaces(q, t);
    VisitReplaces(q, u);
  }

  // ---------------------------------------------------------------- an inconsistent listing

  /** Two schedulable targets with one id: every further pass over them cancels the generation in charge and starts
      two more, one of which it cancels again. */
  lemma RepeatedIdThrashes(p: Plan, t: Target, u: Target)
    requires WellFormed(p) && t != u && t.id == u.id && Schedulable(t) && Schedulable(u)
    ensures var q := Pass(p, [t, u]);
      var r := Pass(q, [t, u]);
      && !Consistent([t, u])
      && Scheduled(q) == Scheduled(r) == map[t.id := u]
      && |r.gens| == |q.gens| + 2 && r.gens[|q.gens|] == Generation(t, true)
      && r.gens[|q.gens| + 1] == Generation(u, false)
      && (forall g :: 0 <= g < |q.gens| ==> r.gens[g].cancelled)
  {
    var list := [t, u];
    assert list[0].id == list[1].id && list[0] != list[1];
    var q := Pass(p, list);
    PassComputesDesired(p, list);
    PassComputesDesired(q, list);
    DesiredPair(t, u);
    RestartsTwice(q, t, u);
  }

  lemma DesiredPair(t: Target, u: Target)
    requires t.id == u.id && Schedulable(u)
    ensures Desired([t, u]) == map[t.id := u] && Ids([t, u]) == {t.id}
  {
    assert [t, u][..1] == [t] && u in [t, u];
    assert Ids([t, u]) == {t.id} by { assert t in [t, u]; }
    assert Last([t, u], t.id) == Some(u);
  }

  lemma RestartsTwice(q: Plan, t: Target, u: Target)
    requires WellFormed(q) && t != u && t.id == u.id && Schedulable(t) && Schedulable(u)
    requires Scheduled(q) == map[t.id := u]
    ensures var r := Pass(q, [t, u]);
      && |r.gens| == |q.gens| + 2 && r.gens[|q.gens|] == Generation(t, true)
      && r.gens[|q.gens| + 1] == Generation(u, false)
      && (forall g :: 0 <= g < |q.gens| ==> r.gens[g].cancelled)
  {
    assert t.id in Scheduled(q);
    assert [t, u][..1] == [t] && [t][..0] == [];
    assert Sweep(q, [t]) == Visit(q, t);
    var mid := Visit(Visit(q, t), u);
    assert Sweep(q, [t, u]) == mid;
    DesiredPair(t, u);
    assert q.running.Keys == Scheduled(q).Keys == {t.id};
    assert mid.running == map[t.id := |q.gens| + 1];
    assert forall g: nat :: !Dropped(mid, {t.id}, g);
    forall g | 0 <= g < |q.gens| ensures mid.gens[g].cancelled {
      if !q.gens[g].cancelled {
        assert q.gens[g].target.id in Scheduled(q);
      }
    }
  }
}
