/** The scheduler's own goroutine: the mutable running map, reconciliation, and the loop of Start. */
module SchedulerLoop {
  import opened Targets
  import opened Schedules

  /** cancel names the generation whose context the stored CancelFunc cancels. */
  datatype RunningTarget = RunningTarget(cancel: nat, target: Target)

  lemma CancelOneMore(mid: Plan, keep: set<string>, id: string)
    requires WellFormed(mid) && id in mid.running && id in keep
    ensures Prune(mid, keep - {id}) == StopGen(Prune(mid, keep), id)
  {
    var p, q := Prune(mid, keep), Prune(mid, keep - {id});
    forall g | 0 <= g < |mid.gens|
      ensures Dropped(mid, keep - {id}, g) <==> Dropped(mid, keep, g) || g == mid.running[id]
    {
    }
    assert q.gens == StopGen(p, id).gens;
    assert q.running == StopGen(p, id).running;
  }

  /** One step of walking the map: what is still pending counts as kept. */
  lemma WalkOneMore(mid: Plan, seen: set<string>, pending: set<string>, id: string)
    requires WellFormed(mid) && id in pending && pending <= mid.running.Keys
    ensures id !in seen ==> Prune(mid, seen + (pending - {id})) == StopGen(Prune(mid, seen + pending), id)
    ensures id in seen ==> Prune(mid, seen + (pending - {id})) == Prune(mid, seen + pending)
  {
    if id !in seen {
      CancelOneMore(mid, seen + pending, id);
      assert seen + pending - {id} == seen + (pending - {id});
    } else {
      assert seen + pending == seen + (pending - {id});
    }
  }

  lemma WalkBegins(mid: Plan, seen: set<string>)
    requires WellFormed(mid)
    ensures Prune(mid, seen + mid.running.Keys) == mid
  {
    PruneNone(mid);
    PruneIgnores(mid, mid.running.Keys, seen + mid.running.Keys);
  }

  lemma PruneIgnores(mid: Plan, keep: set<string>, other: set<string>)
    requires InBounds(mid) && (forall id :: id in mid.running ==> (id in keep <==> id in other))
    ensures Prune(mid, keep) == Prune(mid, other)
  {
    assert forall g: nat :: Dropped(mid, keep, g) <==> Dropped(mid, other, g);
  }

  lemma PruneNone(mid: Plan)
    requires InBounds(mid)
    ensures Prune(mid, mid.running.Keys) == mid
  {
    assert forall g: nat :: !Dropped(mid, mid.running.Keys, g);
  }

  lemma NextPass(listings: seq<Listing>, n: nat)
    requires n < |listings|
    ensures Passes(EMPTY_PLAN, listings[..n + 1]) == Reconciled(Passes(EMPTY_PLAN, listings[..n]), listings[n])
  {
    assert listings[..n + 1][..n] == listings[..n];
  }

  lemma FirstPass(listings: seq<Listing>)
    requires listings != []
    ensures Passes(EMPTY_PLAN, listings[..1]) == Reconciled(EMPTY_PLAN, listings[0])
  {
    NextPass(listings, 0);
  }

  lemma CancelAllKeepsSchedule(p: Plan)
    requires InBounds(p)
    ensures Scheduled(CancelAll(p)) == Scheduled(p)
  {
  }

  class Scheduler {
    var running: map<string, RunningTarget>
    /** The goroutines spawned so far and whether their contexts are cancelled. */
    var gens: seq<Generation>
    /** Calls of wg.Add(1). */
    var added: nat

    function ThePlan(): (p: Plan)
      reads this
      ensures p.gens == gens && p.running.Keys == running.Keys
    {
      Plan(map id | id in running :: running[id].cancel, gens)
    }

    /** The map's entries and the wait group agree with the goroutines. */
    ghost predicate Linked()
      reads this
    {
      && (forall id :: id in running ==>
            running[id].cancel < |gens| && running[id].target == gens[running[id].cancel].target)
      && added == |gens|
    }

    ghost predicate Valid()
      reads this
    {
      WellFormed(ThePlan()) && Linked()
    }

    constructor ()
      ensures Valid() && ThePlan() == EMPTY_PLAN
    {
      running, gens, added := map[], [], 0;
    }

    method StopTarget(id: string)
      requires Valid()
      modifies this
      ensures Valid()
      ensures ThePlan() == StopGen(old(ThePlan()), id)
    {
      StopWellFormed(ThePlan(), id);
      if id !in running {
        return;
      }
      var rt := running[id];
      gens := gens[rt.cancel := gens[rt.cancel].(cancelled := true)];
      running := running - {id};
      assert ThePlan().running == old(ThePlan()).running - {id};
    }

    method StartTarget(t: Target)
      requires Valid()
      modifies this
      ensures Linked() && InBounds(ThePlan())
      ensures ThePlan() == StartGen(old(ThePlan()), t)
      ensures t.enabled && t.id !in old(running) ==> Valid()
    {
      if t.interval <= 0 {
        return;
      }
      if t.enabled && t.id !in running {
        StartWellFormed(ThePlan(), t);
      }
      running := running[t.id := RunningTarget(|gens|, t)];
      added := added + 1;
      gens := gens + [Generation(t, false)];
      assert ThePlan().running == old(ThePlan()).running[t.id := |old(gens)|];
    }

    /** The body of the loop over the listed targets. */
    method VisitTarget(t: Target)
      requires Valid()
      modifies this
      ensures Valid()
      ensures ThePlan() == Visit(old(ThePlan()), t)
    {
      if !t.enabled {
        StopTarget(t.id);
        return;
      }
      if t.id in running {
        if running[t.id].target == t {
          return;
        }
        StopTarget(t.id);
      }
      StartTarget(t);
    }

    /** The loop over the listed targets. */
    method SweepListed(list: seq<Target>) returns (seen: set<string>)
      requires Valid()
      modifies this
      ensures Valid()
      ensures ThePlan() == Sweep(old(ThePlan()), list)
      ensures seen == Ids(list)
    {
      seen := {};
      for i := 0 to |list|
        invariant Valid()
        invariant ThePlan() == Sweep(old(ThePlan()), list[..i])
        invariant seen == Ids(list[..i])
      {
        seen := seen + {list[i].id};
        VisitTarget(list[i]);
        assert list[..i + 1] == list[..i] + [list[i]];
        IdsAppend(list[..i], list[i]);
      }
      assert list[..|list|] == list;
    }

    method StopIfUnseen(id: string, seen: set<string>)
      requires Valid()
      modifies this
      ensures Valid()
      ensures ThePlan() == if id in seen then old(ThePlan()) else StopGen(old(ThePlan()), id)
    {
      if id !in seen {
        StopTarget(id);
      }
    }

    /** The loop over the map: walked in an arbitrary order, with entries deleted on the way. */
    method StopUnseen(seen: set<string>)
      requires Valid()
      modifies this
      ensures Valid()
      ensures ThePlan() == Prune(old(ThePlan()), seen)
    {
      ghost var mid := ThePlan();
      var pending := running.Keys;
      WalkBegins(mid, seen);
      while pending != {}
        invariant Valid() && pending <= mid.running.Keys
        invariant ThePlan() == Prune(mid, seen + pending)
        decreases |pending|
      {
        var id :| id in pending;
        WalkOneMore(mid, seen, pending, id);
        StopIfUnseen(id, seen);
        pending := pending - {id};
      }
      assert seen + pending == seen;
    }

    /** Brings the running goroutines in line with a listing; a failed listing changes nothing. */
    method Reconcile(listing: Listing)
      requires Valid()
      modifies this
      ensures Valid()
      ensures ThePlan() == Reconciled(old(ThePlan()), listing)
      ensures listing.Ok? ==> Scheduled(ThePlan()) == Desired(listing.value)
    {
      if listing.Err? {
        return;
      }
      PassComputesDesired(ThePlan(), listing.value);
      var seen := SweepListed(listing.value);
      StopUnseen(seen);
    }

    /** The deferred loop of Start: every recorded context is cancelled, the records stay. */
    method CancelRecorded()
      requires Valid()
      modifies this`gens
      ensures ThePlan() == CancelAll(old(ThePlan()))
      ensures forall g :: 0 <= g < |gens| ==> gens[g].cancelled
    {
      ghost var mid := ThePlan();
      var pending := running.Keys;
      PruneNone(mid);
      while pending != {}
        invariant pending <= mid.running.Keys
        invariant gens == Prune(mid, pending).gens
        decreases |pending|
      {
        var id :| id in pending;
        CancelOneMore(mid, pending, id);
        var rt := running[id];
        assert rt.cancel == mid.running[id];
        gens := gens[rt.cancel := gens[rt.cancel].(cancelled := true)];
        pending := pending - {id};
      }
      CancelAllCancels(mid);
    }

    /** A pass at once, then one per discovery tick until the context is done. */
    method DiscoverUntilDone(first: Listing, later: seq<Listing>)
      requires Valid() && ThePlan() == EMPTY_PLAN
      modifies this
      ensures Valid()
      ensures ThePlan() == Passes(EMPTY_PLAN, [first] + later)
    {
      ghost var listings := [first] + later;
      Reconcile(first);
      FirstPass(listings);
      for i := 0 to |later|
        invariant Valid()
        invariant ThePlan() == Passes(EMPTY_PLAN, listings[..i + 1])
      {
        assert later[i] == listings[i + 1];
        NextPass(listings, i + 1);
        Reconcile(later[i]);
      }
      assert listings[..|later| + 1] == listings;
    }

    /** One run of Start on a scheduler that has scheduled nothing yet: a pass at once, a pass per discovery tick,
        and the deferred cancellation. The schedule follows the listings; at the end no generation is left
        uncancelled, and every one of them was added to the wait group. */
    method Start(first: Listing, later: seq<Listing>)
      requires Valid() && ThePlan() == EMPTY_PLAN
      modifies this
      ensures InBounds(ThePlan())
      ensures ThePlan() == CancelAll(Passes(EMPTY_PLAN, [first] + later))
      ensures Scheduled(ThePlan()) == Desired(LastSuccess([first] + later))
      ensures forall g :: 0 <= g < |gens| ==> gens[g].cancelled
      ensures added == |gens|
    {
      ghost var listings := [first] + later;
      DiscoverUntilDone(first, later);
      PassesConverge(listings);
      CancelAllKeepsSchedule(ThePlan());
      CancelRecorded();
    }
  }
}
