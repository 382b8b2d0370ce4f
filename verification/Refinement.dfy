/**
 The scheduler inside the process carries out sequential reconciliation: whatever the other goroutines do meanwhile,
 what it has scheduled is what the passes of Schedules make of the listings it was given, in their order.
 */
module Refinement {
  import opened Wrappers
  import opened Targets
  import opened Schedules
  import opened Monitor
  import opened MonitorInvariant
  import opened MonitorProperties
  import Frames
  import P = WorkerPool
  import SchedulerLoop

  /** What List answered in a step. */
  function Answer(step: Step): seq<Listing> {
    match step
    case OfScheduler(Listed(list)) => [Ok(list)]
    case OfScheduler(ListFailed) => [Err("")]
    case _ => []
  }

  /** What List answered over a run. */
  function Listings(steps: seq<Step>): seq<Listing> {
    if steps == [] then [] else Answer(steps[0]) + Listings(steps[1..])
  }

  /** What the passes before the last listing have made. */
  ghost function Base(ls: seq<Listing>): Plan
    requires ls != []
  {
    Passes(EMPTY_PLAN, ls[..|ls| - 1])
  }

  ghost predicate LastIs(ls: seq<Listing>, list: seq<Target>) { ls != [] && ls[|ls| - 1] == Ok(list) }

  /** In the middle of a pass the plan is what that part of the pass makes. */
  ghost predicate PlanFollows(plan: Plan, phase: SchedulerPhase, ls: seq<Listing>) {
    match phase
    case InList | Looping => plan == Passes(EMPTY_PLAN, ls)
    case Visiting(list, at) => LastIs(ls, list) && at <= |list| && plan == Sweep(Base(ls), list[..at])
    case Starting(list, at) =>
      LastIs(ls, list) && at < |list| && TurnedTo(Sweep(Base(ls), list[..at]), list[at], plan)
    case Pruning(list, pending) =>
      && LastIs(ls, list) && pending <= Sweep(Base(ls), list).running.Keys
      && plan == Prune(Sweep(Base(ls), list), Ids(list) + pending)
    case Cancelling(pending) => CancelledBut(Passes(EMPTY_PLAN, ls), pending, plan)
    case Joining | Stopped => plan == CancelAll(Passes(EMPTY_PLAN, ls))
  }

  /** plan is p between the two halves of visiting t. */
  ghost predicate TurnedTo(p: Plan, t: Target, plan: Plan)
    requires InBounds(p)
  {
    && t.enabled && plan == StopGen(p, t.id)
    && !(t.id in p.running && p.gens[p.running[t.id]].target == t)
  }

  /** Everything recorded in p but pending is cancelled; the records stay. */
  ghost predicate CancelledBut(p: Plan, pending: set<string>, plan: Plan)
    requires InBounds(p)
  {
    plan.running == p.running && pending <= p.running.Keys && plan.gens == Prune(p, pending).gens
  }

  ghost predicate Follows(s: State, ls: seq<Listing>) {
    PlanFollows(s.plan, s.phase, ls) && s.snapshot == LastSuccess(ls)
  }

  lemma BaseWellFormed(ls: seq<Listing>, list: seq<Target>)
    requires ls != []
    ensures WellFormed(Base(ls)) && WellFormed(Sweep(Base(ls), list))
  {
    PassesConverge(ls[..|ls| - 1]);
    SweepWellFormed(Base(ls), list);
  }

  lemma VisitFollows(s: State, ls: seq<Listing>)
    requires SchedulerEnabled(s, VisitOne) && Follows(s, ls)
    ensures Follows(SchedulerNext(s, VisitOne), ls)
  {
    NextVisit(Base(ls), s.phase.list, s.phase.at);
  }

  lemma NextVisit(p: Plan, list: seq<Target>, at: nat)
    requires InBounds(p) && at < |list|
    ensures Sweep(p, list[..at + 1]) == Visit(Sweep(p, list[..at]), list[at])
  {
    assert list[..at + 1][..at] == list[..at];
  }

  lemma StartFollows(s: State, ls: seq<Listing>)
    requires SchedulerEnabled(s, StartOne) && Follows(s, ls)
    ensures Follows(SchedulerNext(s, StartOne), ls)
  {
    NextVisit(Base(ls), s.phase.list, s.phase.at);
  }

  lemma EndVisitsFollows(s: State, ls: seq<Listing>)
    requires SchedulerEnabled(s, EndVisits) && Follows(s, ls)
    ensures Follows(SchedulerNext(s, EndVisits), ls)
  {
    var list := s.phase.list;
    assert list[..|list|] == list;
    BaseWellFormed(ls, list);
    SchedulerLoop.WalkBegins(Sweep(Base(ls), list), Ids(list));
  }

  lemma PruneFollows(s: State, ls: seq<Listing>, id: string)
    requires SchedulerEnabled(s, PruneOne(id)) && Follows(s, ls)
    ensures Follows(SchedulerNext(s, PruneOne(id)), ls)
  {
    var list := s.phase.list;
    BaseWellFormed(ls, list);
    SchedulerLoop.WalkOneMore(Sweep(Base(ls), list), Ids(list), s.phase.pending, id);
  }

  lemma EndPruneFollows(s: State, ls: seq<Listing>)
    requires SchedulerEnabled(s, EndPrune) && Follows(s, ls)
    ensures Follows(SchedulerNext(s, EndPrune), ls)
  {
    assert Ids(s.phase.list) + {} == Ids(s.phase.list);
  }

  lemma ListedFollows(s: State, ls: seq<Listing>, list: seq<Target>)
    requires SchedulerEnabled(s, Listed(list)) && Follows(s, ls)
    ensures Follows(SchedulerNext(s, Listed(list)), ls + [Ok(list)])
  {
    assert (ls + [Ok(list)])[..|ls|] == ls && list[..0] == [];
  }

  lemma ListFailedFollows(s: State, ls: seq<Listing>)
    requires SchedulerEnabled(s, ListFailed) && Follows(s, ls)
    ensures Follows(SchedulerNext(s, ListFailed), ls + [Err("")])
  {
    assert (ls + [Err("")])[..|ls|] == ls;
  }

  lemma SeeDoneFollows(s: State, ls: seq<Listing>)
    requires SchedulerEnabled(s, SeeDone) && Follows(s, ls)
    ensures Follows(SchedulerNext(s, SeeDone), ls)
  {
    SchedulerLoop.PruneNone(s.plan);
  }

  lemma CancelFollows(s: State, ls: seq<Listing>, id: string)
    requires SchedulerEnabled(s, CancelOne(id)) && Follows(s, ls)
    ensures Follows(SchedulerNext(s, CancelOne(id)), ls)
  {
    PassesConverge(ls);
    SchedulerLoop.CancelOneMore(Passes(EMPTY_PLAN, ls), s.phase.pending, id);
  }

  lemma RestFollows(s: State, ls: seq<Listing>, c: SchedulerStep)
    requires SchedulerEnabled(s, c) && Follows(s, ls)
    requires c.DiscoveryTick? || c.TakeDiscovery? || c.EndCancel? || c.Join?
    ensures Follows(SchedulerNext(s, c), ls)
  {
  }

  lemma SchedulerFollows(s: State, ls: seq<Listing>, c: SchedulerStep)
    requires SchedulerEnabled(s, c) && Follows(s, ls)
    ensures Follows(SchedulerNext(s, c), ls + Answer(OfScheduler(c)))
  {
    assert ls + [] == ls;
    match c {
      case Listed(list) => ListedFollows(s, ls, list);
      case ListFailed => ListFailedFollows(s, ls);
      case VisitOne => VisitFollows(s, ls);
      case StartOne => StartFollows(s, ls);
      case EndVisits => EndVisitsFollows(s, ls);
      case PruneOne(id) => PruneFollows(s, ls, id);
      case EndPrune => EndPruneFollows(s, ls);
      case SeeDone => SeeDoneFollows(s, ls);
      case CancelOne(id) => CancelFollows(s, ls, id);
      case _ => RestFollows(s, ls, c);
    }
  }

  lemma StepFollows(s: State, ls: seq<Listing>, step: Step)
    requires Enabled(s, step) && Follows(s, ls)
    ensures Follows(Next(s, step), ls + Answer(step))
  {
    assert ls + [] == ls;
    match step {
      case PoolStep(p) => Frames.PoolFrame(s, p);
      case OfLoop(l) => Frames.LoopFrame(s, l);
      case OfScheduler(c) => SchedulerFollows(s, ls, c);
      case OfMain(m) => Frames.MainFrame(s, m);
    }
  }

  lemma AnswersInOrder(ls: seq<Listing>, steps: seq<Step>)
    ensures steps == [] ==> ls + Listings(steps) == ls
    ensures steps != [] ==> ls + Listings(steps) == ls + Answer(steps[0]) + Listings(steps[1..])
  {
  }

  lemma {:induction false} RunFollows(s: State, ls: seq<Listing>, steps: seq<Step>)
    requires ValidRun(s, steps) && Follows(s, ls)
    ensures Follows(After(s, steps), ls + Listings(steps))
    decreases |steps|
  {
    AnswersInOrder(ls, steps);
    if steps != [] {
      StepFollows(s, ls, steps[0]);
      RunFollows(Next(s, steps[0]), ls + Answer(steps[0]), steps[1..]);
    }
  }

  /** Over every run of the process, with any interleaving: while the scheduler lists or waits, its records and its
      generations are exactly what the sequential passes make of the answers of List in this run, whole listings in
      their order; when Start is over, what the deferred cancellation makes of that. */
  lemma SchedulerRefinesReconciliation(limits: P.Limits, steps: seq<Step>)
    requires Reachable(limits, steps)
    ensures var s, p := At(limits, steps), Passes(EMPTY_PLAN, Listings(steps));
      && (s.phase.InList? || s.phase.Looping? ==> s.plan == p)
      && (s.phase.Joining? || s.phase.Stopped? ==> s.plan == CancelAll(p))
      && s.snapshot == LastSuccess(Listings(steps))
  {
    RunFollows(Init(limits), [], steps);
    assert [] + Listings(steps) == Listings(steps);
  }

  /** Whenever the scheduler waits in its select, the schedule is exactly what the most recent successful answer of
      List in this run asks for, and while the process runs each scheduled target has a goroutine of its own, closed
      over exactly that target, that has not exited. */
  lemma ScheduleFollowsListings(limits: P.Limits, steps: seq<Step>, id: string)
    requires Reachable(limits, steps) && At(limits, steps).phase.Looping?
    ensures var s, desired := At(limits, steps), Desired(LastSuccess(Listings(steps)));
      && Scheduled(s.plan) == desired
      && (id in desired && !s.pool.done ==>
            && s.plan.running[id] < |s.loops| && !s.loops[s.plan.running[id]].phase.Gone?
            && s.plan.gens[s.plan.running[id]].target == desired[id]
            && !CtxDone(s, s.plan.running[id]))
  {
    AtInv(limits, steps);
    SchedulerRefinesReconciliation(limits, steps);
    PassesConverge(Listings(steps));
    var s := At(limits, steps);
    assert id in Scheduled(s.plan) <==> id in s.plan.running;
  }
}
