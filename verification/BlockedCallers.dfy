/**
 How many callers can be inside Submit at once: as many as there are generations that have not exited.
 */
module BlockedCallers {
  import opened Sums
  import opened Schedules
  import opened Monitor
  import opened MonitorInvariant
  import opened MonitorRuns
  import Overlap

  /** A call that has not returned is the one its generation is parked in. */
  lemma {:induction false} CountedByOwner(s: State, cs: set<nat>, gs: set<nat>)
    requires Inv(s)
    requires forall c :: c in cs ==>
               c < |s.pool.calls| && !s.pool.calls[c].phase.Returned? && s.owners[c] in gs
    ensures |cs| <= |gs|
    decreases cs
  {
    if c :| c in cs {
      var g := s.owners[c];
      assert s.loops[g].phase.Checking? && s.loops[g].phase.call == c;
      forall d | d in cs && d != c ensures s.owners[d] != g {
        assert s.loops[s.owners[d]].phase.Checking? && s.loops[s.owners[d]].phase.call == d;
      }
      CountedByOwner(s, cs - {c}, gs - {g});
    }
  }

  function Callers(s: State): set<nat> {
    set c | 0 <= c < |s.pool.calls| && !s.pool.calls[c].phase.Returned?
  }

  function UnexitedSet(loops: seq<Loop>): set<nat> { set g | 0 <= g < |loops| && !loops[g].phase.Gone? }

  lemma {:induction false} SumCounts(loops: seq<Loop>)
    ensures Sum(loops, Unexited) == |UnexitedSet(loops)|
  {
    if loops == [] {
      assert UnexitedSet(loops) == {};
    } else {
      var last := |loops| - 1;
      SumCounts(loops[..last]);
      if loops[last].phase.Gone? {
        assert UnexitedSet(loops) == UnexitedSet(loops[..last]);
      } else {
        assert UnexitedSet(loops) == UnexitedSet(loops[..last]) + {last};
      }
    }
  }

  /** In every state the callers inside Submit are at most as many as the wait group counts. */
  lemma CallersBoundedByLive(s: State)
    requires Inv(s)
    ensures |Callers(s)| <= s.live
  {
    SumCounts(s.loops);
    forall c | c in Callers(s) ensures s.owners[c] in UnexitedSet(s.loops) {
      assert s.loops[s.owners[c]].phase.Checking?;
    }
    CountedByOwner(s, Callers(s), UnexitedSet(s.loops));
  }

  lemma QuietKeepsLive(s: State, step: Step)
    requires Enabled(s, step) && Quiet(step)
    ensures Next(s, step).live <= s.live
  {
    match step {
      case PoolStep(_) =>
      case OfLoop(l) => LoopKeepsLive(s, l);
      case OfMain(_) =>
    }
  }

  lemma LoopKeepsLive(s: State, l: LoopStep)
    requires LoopEnabled(s, l)
    ensures LoopNext(s, l).live <= s.live
  {
  }

  lemma {:induction false} LiveFalls(s: State, steps: seq<Step>)
    requires Inv(s) && ValidRun(s, steps) && Only(steps, Quiet)
    ensures |Callers(After(s, steps))| <= s.live && After(s, steps).plan == s.plan
    decreases |steps|
  {
    if steps == [] {
      CallersBoundedByLive(s);
    } else {
      assert Quiet(steps[0]);
      StepInv(s, steps[0]);
      QuietKeepsLive(s, steps[0]);
      Overlap.QuietIsStill(s, steps[0]);
      LiveFalls(Next(s, steps[0]), steps[1..]);
    }
  }

  /** Every generation below n that has not exited is inside Check. */
  ghost predicate AllInCheck(s: State, n: nat) {
    forall g :: 0 <= g < n && g < |s.loops| && !s.loops[g].phase.Gone? ==> s.loops[g].phase.Checking?
  }

  lemma {:induction false} BringAll(s: State, n: nat) returns (t: State)
    requires Inv(s) && n <= |s.loops|
    ensures Inv(t) && Leads(Quiet, s, t) && t.plan == s.plan && |t.loops| == |s.loops| && AllInCheck(t, n)
    ensures forall g :: 0 <= g < |s.loops| ==> (t.loops[g].phase.Gone? <==> s.loops[g].phase.Gone?)
    decreases n
  {
    if n == 0 {
      LeadsSelf(Quiet, s);
      t := s;
    } else {
      var u := BringAll(s, n - 1);
      t := BringOneMore(u, n - 1);
      LeadsTransitive(Quiet, s, u, t);
    }
  }

  lemma BringOneMore(s: State, n: nat) returns (t: State)
    requires Inv(s) && n < |s.loops| && AllInCheck(s, n)
    ensures Inv(t) && Leads(Quiet, s, t) && t.plan == s.plan && |t.loops| == |s.loops| && AllInCheck(t, n + 1)
    ensures forall g :: 0 <= g < |s.loops| ==> (t.loops[g].phase.Gone? <==> s.loops[g].phase.Gone?)
  {
    if s.loops[n].phase.Gone? {
      LeadsSelf(Quiet, s);
      t := s;
    } else {
      t := BringToSubmit(s, n);
    }
  }

  /** Generations inside Check are at most as many as the calls that have not returned. */
  lemma {:induction false} CountedByCall(s: State, gs: set<nat>, cs: set<nat>)
    requires Inv(s)
    requires forall g :: g in gs ==> g < |s.loops| && s.loops[g].phase.Checking? && s.loops[g].phase.call in cs
    ensures |gs| <= |cs|
    decreases gs
  {
    if g :| g in gs {
      var c := s.loops[g].phase.call;
      assert ParkedAt(s.pool.calls, s.owners, g, c);
      forall h | h in gs && h != g ensures s.loops[h].phase.call != c {
        assert ParkedAt(s.pool.calls, s.owners, h, s.loops[h].phase.call);
      }
      CountedByCall(s, gs - {g}, cs - {c});
    }
  }

  lemma {:induction false} CountedByRecord(p: Plan, ids: set<string>, gs: set<nat>)
    requires Current(p)
    requires forall id :: id in ids ==> id in p.running && p.running[id] in gs
    ensures |ids| <= |gs|
    decreases ids
  {
    if id :| id in ids {
      CountedByRecord(p, ids - {id}, gs - {p.running[id]});
    }
  }

  /** Every generation that has not exited can be brought into Submit at the same time. */
  lemma AllCanCall(s: State) returns (t: State)
    requires Inv(s)
    ensures Leads(Quiet, s, t) && t.plan == s.plan && |Callers(t)| == s.live
  {
    t := BringAll(s, |s.loops|);
    SumCounts(s.loops);
    SumCounts(t.loops);
    assert UnexitedSet(t.loops) == UnexitedSet(s.loops);
    forall g | g in UnexitedSet(t.loops) ensures t.loops[g].phase.Checking? && t.loops[g].phase.call in Callers(t) {
      assert t.loops[g].phase.Checking?;
      assert ParkedAt(t.pool.calls, t.owners, g, t.loops[g].phase.call);
    }
    CountedByCall(t, UnexitedSet(t.loops), Callers(t));
    CallersBoundedByLive(t);
  }

  /** Every cancelled generation has exited. */
  ghost predicate NoneLingers(s: State) { forall id: string, g: nat :: !Overlap.Lingers(s, id, g) }

  lemma LiveExceedsIff(s: State)
    requires Inv(s) && !s.pool.done
    ensures s.live > |s.plan.running| <==> !NoneLingers(s)
  {
    var records := set h | 0 <= h < |s.loops| && !s.plan.gens[h].cancelled;
    SumCounts(s.loops);
    RecordsAreCounted(s, records);
    if id: string, g: nat :| Overlap.Lingers(s, id, g) {
      assert records + {g} <= UnexitedSet(s.loops);
      CardinalityOfSubset(records + {g}, UnexitedSet(s.loops));
    } else {
      forall g | g in UnexitedSet(s.loops) ensures g in records {
        assert !Overlap.Lingers(s, s.plan.gens[g].target.id, g);
      }
      CardinalityOfSubset(UnexitedSet(s.loops), records);
    }
  }

  lemma {:induction false} CardinalityOfSubset(a: set<nat>, b: set<nat>)
    requires a <= b
    ensures |a| <= |b|
    decreases a
  {
    if x :| x in a {
      CardinalityOfSubset(a - {x}, b - {x});
    }
  }

  lemma RecordsAreCounted(s: State, records: set<nat>)
    requires Inv(s) && !s.pool.done && records == set h | 0 <= h < |s.loops| && !s.plan.gens[h].cancelled
    ensures |records| == |s.plan.running|
  {
    CountedByRecord(s.plan, s.plan.running.Keys, records);
    CountedById(s.plan, records, s.plan.running.Keys);
    assert |s.plan.running.Keys| == |s.plan.running|;
  }

  lemma {:induction false} CountedById(p: Plan, gs: set<nat>, ids: set<string>)
    requires Recorded(p)
    requires forall g :: g in gs ==> g < |p.gens| && !p.gens[g].cancelled && p.gens[g].target.id in ids
    ensures |gs| <= |ids|
    decreases gs
  {
    if g :| g in gs {
      var id := p.gens[g].target.id;
      assert p.running[id] == g;
      forall h | h in gs && h != g ensures p.gens[h].target.id != id {
        assert p.running[p.gens[h].target.id] == h;
      }
      CountedById(p, gs - {g}, ids - {id});
    }
  }

  /** Before the scheduler moves again more callers can be inside Submit than targets are scheduled if and only if
      the wait group counts more goroutines than targets are scheduled; while the root context lasts that is the case
      if and only if some cancelled generation has not exited. */
  lemma CallersExceedTargetsIff(s: State)
    requires Inv(s)
    ensures (exists t :: Leads(Quiet, s, t) && |Callers(t)| > |t.plan.running|) <==> s.live > |s.plan.running|
    ensures !s.pool.done ==> (s.live > |s.plan.running| <==> !NoneLingers(s))
  {
    if s.live > |s.plan.running| {
      var t := AllCanCall(s);
    }
    if t :| Leads(Quiet, s, t) && |Callers(t)| > |t.plan.running| {
      var steps :| ValidRun(s, steps) && Only(steps, Quiet) && After(s, steps) == t;
      LiveFalls(s, steps);
    }
    if !s.pool.done {
      LiveExceedsIff(s);
    }
  }
}
