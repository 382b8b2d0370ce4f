/**
 Reconciliation on values: which targets are scheduled, and by which generation. A generation is one goroutine
 started for a target; it is named by its position in gens, so a restarted target gets a new one.
 */
module Schedules {
  import opened Wrappers
  import opened Targets

  datatype Generation = Generation(target: Target, cancelled: bool)

  /** running maps a target id to the generation recorded for it. */
  datatype Plan = Plan(running: map<string, nat>, gens: seq<Generation>)

  const EMPTY_PLAN := Plan(map[], [])

  predicate Schedulable(t: Target) { t.enabled && t.interval > 0 }

  ghost predicate InBounds(p: Plan) {
    forall id :: id in p.running ==> p.running[id] < |p.gens|
  }

  /** Every uncancelled generation is the recorded one of its target: no orphans. */
  ghost predicate Recorded(p: Plan) {
    forall g :: 0 <= g < |p.gens| && !p.gens[g].cancelled ==>
      p.gens[g].target.id in p.running && p.running[p.gens[g].target.id] == g
  }

  /** Every record points to an uncancelled generation of a schedulable target with that id. */
  ghost predicate Current(p: Plan) {
    forall id :: id in p.running ==>
      && p.running[id] < |p.gens|
      && p.gens[p.running[id]].target.id == id
      && !p.gens[p.running[id]].cancelled
      && Schedulable(p.gens[p.running[id]].target)
  }

  ghost predicate WellFormed(p: Plan) { Recorded(p) && Current(p) }

  // ---------------------------------------------------------------- the operations

  function StopGen(p: Plan, id: string): (q: Plan)
    requires InBounds(p)
    ensures InBounds(q)
  {
    if id in p.running then
      Plan(p.running - {id}, p.gens[p.running[id] := p.gens[p.running[id]].(cancelled := true)])
    else p
  }

  function StartGen(p: Plan, t: Target): (q: Plan)
    requires InBounds(p)
    ensures InBounds(q)
  {
    if t.interval <= 0 then p
    else Plan(p.running[t.id := |p.gens|], p.gens + [Generation(t, false)])
  }

  /** One iteration of the loop over the listed targets. */
  function Visit(p: Plan, t: Target): (q: Plan)
    requires InBounds(p)
    ensures InBounds(q)
  {
    if !t.enabled then StopGen(p, t.id)
    else if t.id in p.running && p.gens[p.running[t.id]].target == t then p
    else StartGen(StopGen(p, t.id), t)
  }

  function Sweep(p: Plan, list: seq<Target>): (q: Plan)
    requires InBounds(p)
    ensures InBounds(q)
  {
    if list == [] then p else Visit(Sweep(p, list[..|list| - 1]), list[|list| - 1])
  }

  function Ids(list: seq<Target>): set<string> { set t | t in list :: t.id }

  /** Everything recorded under an id outside keep is stopped. */
  function Prune(p: Plan, keep: set<string>): (q: Plan)
    requires InBounds(p)
    ensures InBounds(q)
  {
    Plan(map id | id in p.running && id in keep :: p.running[id],
         seq(|p.gens|, g requires 0 <= g < |p.gens| =>
           p.gens[g].(cancelled := p.gens[g].cancelled || Dropped(p, keep, g))))
  }

  predicate Dropped(p: Plan, keep: set<string>, g: nat) {
    exists id :: id in p.running && id !in keep && p.running[id] == g
  }

  /** One successful reconciliation pass. */
  function Pass(p: Plan, list: seq<Target>): (q: Plan)
    requires InBounds(p)
    ensures InBounds(q)
  {
    Prune(Sweep(p, list), Ids(list))
  }

  /** What List answered: a snapshot, or an error. */
  type Listing = Result<seq<Target>, string>

  function Reconciled(p: Plan, listing: Listing): (q: Plan)
    requires InBounds(p)
    ensures InBounds(q)
  {
    match listing
    case Err(_) => p
    case Ok(list) => Pass(p, list)
  }

  function Passes(p: Plan, listings: seq<Listing>): (q: Plan)
    requires InBounds(p)
    ensures InBounds(q)
  {
    if listings == [] then p else Reconciled(Passes(p, listings[..|listings| - 1]), listings[|listings| - 1])
  }

  /** The deferred cancellation of everything still recorded. */
  function CancelAll(p: Plan): (q: Plan)
    requires InBounds(p)
    ensures InBounds(q)
  {
    p.(gens := Prune(p, {}).gens)
  }

  // ---------------------------------------------------------------- what the operations are for

  function Last(list: seq<Target>, id: string): (t: Option<Target>)
    ensures t.Some? ==> t.value in list && t.value.id == id
    ensures t.None? <==> id !in Ids(list)
  {
    if list == [] then None
    else if list[|list| - 1].id == id then Some(list[|list| - 1])
    else
      assert forall t :: t in list <==> t in list[..|list| - 1] || t == list[|list| - 1];
      Last(list[..|list| - 1], id)
  }

  predicate Wanted(list: seq<Target>, id: string) {
    Last(list, id).Some? && Schedulable(Last(list, id).value)
  }

  /** The schedule a listing asks for: each id's last listed target, if that one can be scheduled. */
  function Desired(list: seq<Target>): map<string, Target> {
    map id | id in Ids(list) && Wanted(list, id) :: Last(list, id).value
  }

  function Scheduled(p: Plan): map<string, Target>
    requires InBounds(p)
  {
    map id | id in p.running :: p.gens[p.running[id]].target
  }

  // ---------------------------------------------------------------- every operation keeps the plan well formed

  lemma StopWellFormed(p: Plan, id: string)
    requires WellFormed(p)
    ensures WellFormed(StopGen(p, id))
    ensures id !in StopGen(p, id).running
    ensures forall other :: other != id ==>
              (other in StopGen(p, id).running <==> other in p.running)
              && (other in p.running ==> StopGen(p, id).running[other] == p.running[other])
  {
  }

  lemma StartWellFormed(p: Plan, t: Target)
    requires WellFormed(p) && t.id !in p.running && t.enabled
    ensures WellFormed(StartGen(p, t))
  {
  }

  lemma VisitWellFormed(p: Plan, t: Target)
    requires WellFormed(p)
    ensures WellFormed(Visit(p, t))
  {
    StopWellFormed(p, t.id);
    if t.enabled {
      StartWellFormed(StopGen(p, t.id), t);
    }
  }

  lemma {:induction false} SweepWellFormed(p: Plan, list: seq<Target>)
    requires WellFormed(p)
    ensures WellFormed(Sweep(p, list))
  {
    if list != [] {
      SweepWellFormed(p, list[..|list| - 1]);
      VisitWellFormed(Sweep(p, list[..|list| - 1]), list[|list| - 1]);
    }
  }

  lemma PruneWellFormed(p: Plan, keep: set<string>)
    requires WellFormed(p)
    ensures WellFormed(Prune(p, keep))
  {
    var q := Prune(p, keep);
    forall g | 0 <= g < |q.gens| && !q.gens[g].cancelled
      ensures q.gens[g].target.id in q.running && q.running[q.gens[g].target.id] == g
    {
      assert !p.gens[g].cancelled && !Dropped(p, keep, g);
    }
    forall id | id in q.running ensures !q.gens[q.running[id]].cancelled {
      assert !Dropped(p, keep, p.running[id]);
    }
  }

  // ---------------------------------------------------------------- a pass computes exactly the desired schedule

  /** The records of the ids in list are the ones list asks for. */
  ghost predicate Agrees(p: Plan, list: seq<Target>)
    requires InBounds(p)
  {
    forall id :: id in Ids(list) ==>
      && (id in p.running <==> Wanted(list, id))
      && (id in p.running ==> p.gens[p.running[id]].target == Last(list, id).value)
  }

  lemma IdsAppend(list: seq<Target>, t: Target)
    ensures Ids(list + [t]) == Ids(list) + {t.id}
    ensures forall id :: Last(list + [t], id) == if id == t.id then Some(t) else Last(list, id)
  {
    assert (list + [t])[..|list|] == list;
    assert forall u :: u in list + [t] <==> u in list || u == t;
  }

  lemma VisitAgrees(p: Plan, done: seq<Target>, t: Target)
    requires WellFormed(p) && Agrees(p, done)
    ensures Agrees(Visit(p, t), done + [t])
  {
    IdsAppend(done, t);
    StopWellFormed(p, t.id);
  }

  lemma {:induction false} SweepAgrees(p: Plan, list: seq<Target>)
    requires WellFormed(p)
    ensures Agrees(Sweep(p, list), list)
  {
    if list != [] {
      var front := list[..|list| - 1];
      SweepAgrees(p, front);
      SweepWellFormed(p, front);
      VisitAgrees(Sweep(p, front), front, list[|list| - 1]);
      assert front + [list[|list| - 1]] == list;
    }
  }

  lemma AgreementIsDesired(p: Plan, list: seq<Target>)
    requires WellFormed(p) && Agrees(p, list) && p.running.Keys <= Ids(list)
    ensures Scheduled(p) == Desired(list)
  {
    assert forall id :: id in p.running ==> id in Ids(list);
  }

  /** After a successful pass the schedule is the desired one, whatever was scheduled before, in whatever order
      the map was walked, and even when the listing repeats ids. */
  lemma PassComputesDesired(p: Plan, list: seq<Target>)
    requires WellFormed(p)
    ensures WellFormed(Pass(p, list))
    ensures Scheduled(Pass(p, list)) == Desired(list)
  {
    SweepWellFormed(p, list);
    SweepAgrees(p, list);
    PruneWellFormed(Sweep(p, list), Ids(list));
    AgreementIsDesired(Pass(p, list), list);
  }

  /** The most recent snapshot that was listed successfully; nothing listed counts as the empty one. */
  function LastSuccess(listings: seq<Listing>): seq<Target> {
    if listings == [] then []
    else match listings[|listings| - 1]
      case Ok(list) => list
      case Err(_) => LastSuccess(listings[..|listings| - 1])
  }

  /** Over any sequence of passes the schedule follows the most recent successful listing; a failed one changes
      nothing. */
  lemma {:induction false} PassesConverge(listings: seq<Listing>)
    ensures WellFormed(Passes(EMPTY_PLAN, listings))
    ensures Scheduled(Passes(EMPTY_PLAN, listings)) == Desired(LastSuccess(listings))
  {
    if listings != [] {
      var front := listings[..|listings| - 1];
      PassesConverge(front);
      match listings[|listings| - 1] {
        case Ok(list) => PassComputesDesired(Passes(EMPTY_PLAN, front), list);
        case Err(_) =>
      }
    }
  }

  /** The deferred loop leaves no generation uncancelled. */
  lemma CancelAllCancels(p: Plan)
    requires WellFormed(p)
    ensures forall g :: 0 <= g < |p.gens| ==> CancelAll(p).gens[g] == p.gens[g].(cancelled := true)
  {
    forall g | 0 <= g < |p.gens| ensures CancelAll(p).gens[g].cancelled {
      if !p.gens[g].cancelled {
        assert p.running[p.gens[g].target.id] == g;
        assert Dropped(p, {}, g);
      }
    }
  }
}
