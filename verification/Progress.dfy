/**
 The process always gets on: what a generation inside Check waits for can always be brought about, and when the
 process has nothing left to do, everything is where it should be.
 */
module Progress {
  import opened Wrappers
  import opened Targets
  import opened Schedules
  import opened Monitor
  import opened MonitorInvariant
  import opened MonitorRuns
  import P = WorkerPool
  import BlockedCallers
  import Frames
  import Shutdown
  import AbortedCalls
  import CheckResults
  import Checker

  // ---------------------------------------------------------------- progress inside the process

  /** What moves a blocked generation on: its answer, or a step of the pool that works towards it. */
  predicate Helps(step: Step, g: nat, c: nat) {
    step == OfLoop(EndCheck(g, false)) || (step.PoolStep? && AbortedCalls.Drives(step.p, c))
  }

  /** The whole process is never deadlocked while it runs: a generation inside Check can be answered, or the pool can
      take a step towards its answer, however full the queue and whatever the others do. */
  lemma NeverDeadlocked(s: State, g: nat)
    requires Inv(s) && !s.pool.done && g < |s.loops| && s.loops[g].phase.Checking?
    ensures exists step :: Enabled(s, step) && Helps(step, g, s.loops[g].phase.call)
  {
    var c := s.loops[g].phase.call;
    if Distance(s, g) == 4 {
      DeliveredIsReady(s, g);
      assert Enabled(s, OfLoop(EndCheck(g, false)));
    } else {
      SubmitPhase(s, g);
      AbortedCalls.WorkerLeftMeans(s.pool);
      assert P.JobOk(s.pool.calls[c]);
      var p := AbortedCalls.Toward(s.pool, c);
      assert Enabled(s, PoolStep(p));
    }
  }

  /** And it can always be answered, not only abandoned. */
  lemma EveryCheckCanBeAnswered(s: State, g: nat)
    requires Inv(s) && !s.pool.done && g < |s.loops| && s.loops[g].phase.Checking?
    ensures exists t :: Leads(Quiet, s, t) && Enabled(t, OfLoop(EndCheck(g, false)))
                        && t.loops == s.loops
  {
    if Distance(s, g) == 4 {
      DeliveredIsReady(s, g);
      LeadsSelf(Quiet, s);
    } else {
      var t := Answers(s, g);
    }
  }

  lemma Answers(s: State, g: nat) returns (t: State)
    requires Inv(s) && !s.pool.done && InSubmit(s, g)
    ensures Leads(Quiet, s, t) && Enabled(t, OfLoop(EndCheck(g, false))) && t.loops == s.loops
  {
    var c := s.loops[g].phase.call;
    SubmitPhase(s, g);
    AbortedCalls.WorkerLeftMeans(s.pool);
    var s1 := Drain(s);
    if s.pool.calls[c].job == [] && s1.pool.calls[c].job == [] {
      var s2 := SendsJob(s1, c);
      t := Drain(s2);
      LeadsTransitive(Quiet, s1, s2, t);
      LeadsTransitive(Quiet, s, s1, t);
    } else {
      t := s1;
    }
    DrainedIsDelivered(t, g);
  }

  lemma DrainedIsDelivered(t: State, g: nat)
    requires Inv(t) && g < |t.loops| && t.loops[g].phase.Checking?
    requires forall c :: 0 <= c < |t.pool.calls| ==> !InFlight(t.pool.calls[c])
    requires t.loops[g].phase.call < |t.pool.calls| && t.pool.calls[t.loops[g].phase.call].phase.Waiting?
    ensures Enabled(t, OfLoop(EndCheck(g, false)))
  {
    var c := t.loops[g].phase.call;
    assert P.JobOk(t.pool.calls[c]) && P.CallerOk(t.pool.calls[c]);
    DeliveredIsReady(t, g);
  }

  /** Whatever a check in progress can find is what its generation can be handed: any result that some exchange with
      the call's own target explains. */
  lemma ResultReachesGeneration(s: State, w: nat, r: CheckResults.CheckResult)
    requires Inv(s) && w < |s.pool.workers| && s.pool.workers[w].Executing?
    requires var c := s.pool.workers[w].call;
      c < |s.pool.calls| && !s.pool.calls[c].phase.Returned? && Checker.Genuine(s.pool.calls[c].target, r)
    ensures exists t :: Leads(Quiet, s, t) && s.pool.workers[w].call < |t.pool.calls|
                        && t.pool.calls[s.pool.workers[w].call].phase == P.Returned(P.Answered(r), 4)
  {
    var c := s.pool.workers[w].call;
    var s1 := Finishes(s, w, r);
    var s2 := Delivers(s1, w, c);
    var t := IsAnswered(s2, c, r);
    LeadsTransitive(Quiet, s1, s2, t);
    LeadsTransitive(Quiet, s, s1, t);
  }

  lemma Finishes(s: State, w: nat, r: CheckResults.CheckResult) returns (t: State)
    requires Inv(s) && w < |s.pool.workers| && s.pool.workers[w].Executing?
    requires var c := s.pool.workers[w].call;
      c < |s.pool.calls| && !s.pool.calls[c].phase.Returned? && Checker.Genuine(s.pool.calls[c].target, r)
    ensures Inv(t) && Leads(Quiet, s, t) && w < |t.pool.workers|
    ensures t.pool.workers[w] == P.Delivering(s.pool.workers[w].call, r)
    ensures |t.pool.calls| == |s.pool.calls| && !t.pool.calls[s.pool.workers[w].call].phase.Returned?
  {
    var p := P.Finish(w, P.Completed(r));
    t := Next(s, PoolStep(p));
    PoolStepInv(s, p);
    LeadsSelf(Quiet, t);
    LeadsStep(Quiet, s, PoolStep(p), t, t);
  }

  lemma Delivers(s: State, w: nat, c: nat) returns (t: State)
    requires Inv(s) && w < |s.pool.workers| && s.pool.workers[w].Delivering? && s.pool.workers[w].call == c
    requires c < |s.pool.calls| && !s.pool.calls[c].phase.Returned?
    ensures Inv(t) && Leads(Quiet, s, t) && |t.pool.calls| == |s.pool.calls|
    ensures !t.pool.calls[c].phase.Returned? && t.pool.calls[c].slot == Some(s.pool.workers[w].result)
  {
    var p := AbortedCalls.BusyStep(s.pool, w);
    t := Next(s, PoolStep(p));
    PoolStepInv(s, p);
    LeadsSelf(Quiet, t);
    LeadsStep(Quiet, s, PoolStep(p), t, t);
  }

  lemma IsAnswered(s: State, c: nat, r: CheckResults.CheckResult) returns (t: State)
    requires Inv(s) && c < |s.pool.calls| && !s.pool.calls[c].phase.Returned? && s.pool.calls[c].slot == Some(r)
    ensures Leads(Quiet, s, t) && |t.pool.calls| == |s.pool.calls|
    ensures t.pool.calls[c].phase == P.Returned(P.Answered(r), 4)
  {
    assert P.JobOk(s.pool.calls[c]) && P.CallerOk(s.pool.calls[c]);
    var step := OfLoop(EndCheck(s.owners[c], false));
    t := Next(s, step);
    LeadsSelf(Quiet, t);
    LeadsStep(Quiet, s, step, t, t);
  }

  // ---------------------------------------------------------------- at rest

  /** Steps of the process itself: not ticks, not new requests, not the signal, not the end of the listener or of a
      request. */
  predicate Own(step: Step) {
    && !Shutdown.External(step) && step != OfMain(Signal) && step != OfMain(ServerFail) && step != OfMain(RequestDone)
  }

  ghost predicate AtRest(s: State) { forall step: Step :: Own(step) ==> !Enabled(s, step) }

  lemma RunningLoopMoves(s: State, g: nat) returns (step: Step)
    requires Inv(s) && !s.pool.done && g < |s.loops| && !s.loops[g].phase.Gone?
    requires s.loops[g].phase.Selecting? ==> s.loops[g].tick || s.plan.gens[g].cancelled
    ensures Own(step) && Enabled(s, step)
  {
    match s.loops[g].phase {
      case Fresh => step := OfLoop(FirstCheck(g));
      case Checking(c, _) =>
        NeverDeadlocked(s, g);
        step :| Enabled(s, step) && Helps(step, g, c);
      case Arming => step := OfLoop(Arm(g));
      case Selecting => step := OfLoop(if s.loops[g].tick then TakeTick(g) else Leave(g));
    }
  }

  lemma RunningSchedulerMoves(s: State) returns (step: Step)
    requires Inv(s) && !s.pool.done && (s.phase.Looping? ==> s.discovery == Some(true))
    ensures Own(step) && Enabled(s, step)
  {
    match s.phase {
      case InList => step := OfScheduler(ListFailed);
      case Visiting(list, at) => step := OfScheduler(if at < |list| then VisitOne else EndVisits);
      case Starting(_, _) => step := OfScheduler(StartOne);
      case Pruning(_, pending) =>
        if id :| id in pending {
          step := OfScheduler(PruneOne(id));
        } else {
          step := OfScheduler(EndPrune);
        }
      case Looping => step := OfScheduler(TakeDiscovery);
    }
  }

  lemma RunningPoolMoves(s: State) returns (step: Step)
    requires Inv(s) && !s.pool.done && (|s.pool.workers| < s.pool.limits.workers || !Idling(s.pool))
    ensures Own(step) && Enabled(s, step)
  {
    AbortedCalls.WorkerLeftMeans(s.pool);
    if |s.pool.workers| < s.pool.limits.workers {
      step := PoolStep(P.Spawn);
    } else {
      var p := NextDrainStep(s.pool);
      step := PoolStep(p);
    }
  }

  lemma RunningMainMoves(s: State) returns (step: Step)
    requires Inv(s) && !s.pool.done && (!s.main.Serving? || s.serverFailed)
    ensures Own(step) && Enabled(s, step)
  {
    match s.main {
      case Serving => step := OfMain(Notice);
      case ShuttingDown => step := OfMain(ShutdownReturns(false));
      case Stopping => step := OfMain(StopRoot);
    }
  }

  /** When the running process has nothing left to do until the outside acts, main serves, the scheduler is in its
      select with the schedule of its last listing, every worker is launched and idle, the queue is empty, every check
      has returned, every generation of the schedule waits for its next tick, and every cancelled one has exited: the
      wait group counts the scheduled targets and no more. */
  lemma RestWhileRunning(s: State)
    requires Inv(s) && !s.pool.done && AtRest(s)
    ensures s.main.Serving? && !s.serverFailed
    ensures s.phase.Looping? && s.discovery == Some(false) && Scheduled(s.plan) == Desired(s.snapshot)
    ensures |s.pool.workers| == s.pool.limits.workers && s.pool.queue == []
    ensures forall w :: 0 <= w < |s.pool.workers| ==> s.pool.workers[w].Idle?
    ensures forall c :: 0 <= c < |s.pool.calls| ==> s.pool.calls[c].phase.Returned?
    ensures forall g :: 0 <= g < |s.loops| ==>
              if s.plan.gens[g].cancelled then s.loops[g].phase.Gone? else s.loops[g] == Loop(Selecting, false)
    ensures s.live == |s.plan.running|
  {
    RestOfMainAndScheduler(s);
    RestOfPool(s);
    RestOfLoops(s);
    RestOfCalls(s);
    RestCounts(s);
  }

  lemma ThreeChannels(d: Option<bool>)
    ensures d == None || d == Some(false) || d == Some(true)
  {
    if d.Some? && d.value {
      assert d == Some(true);
    }
  }

  lemma RestOfMainAndScheduler(s: State)
    requires Inv(s) && !s.pool.done && AtRest(s)
    ensures s.main.Serving? && !s.serverFailed
    ensures s.phase.Looping? && s.discovery == Some(false) && Scheduled(s.plan) == Desired(s.snapshot)
  {
    if !s.main.Serving? || s.serverFailed {
      var step := RunningMainMoves(s);
    }
    if !s.phase.Looping? || s.discovery == Some(true) {
      var step := RunningSchedulerMoves(s);
    }
    ThreeChannels(s.discovery);
  }

  lemma RestOfPool(s: State)
    requires Inv(s) && !s.pool.done && AtRest(s)
    ensures |s.pool.workers| == s.pool.limits.workers && s.pool.queue == []
    ensures forall w :: 0 <= w < |s.pool.workers| ==> s.pool.workers[w].Idle?
  {
    if |s.pool.workers| < s.pool.limits.workers || !Idling(s.pool) {
      var step := RunningPoolMoves(s);
    }
    forall w | 0 <= w < |s.pool.workers| ensures s.pool.workers[w].Idle? {
      assert P.HolderOk(s.pool.calls, s.pool.workers, s.pool.done, w);
    }
  }

  lemma RestOfLoops(s: State)
    requires Inv(s) && !s.pool.done && AtRest(s)
    ensures forall g :: 0 <= g < |s.loops| ==>
              if s.plan.gens[g].cancelled then s.loops[g].phase.Gone? else s.loops[g] == Loop(Selecting, false)
  {
    if g :| 0 <= g < |s.loops| && !s.loops[g].phase.Gone?
            && !(s.loops[g] == Loop(Selecting, false) && !s.plan.gens[g].cancelled) {
      var step := RunningLoopMoves(s, g);
    }
  }

  lemma RestOfCalls(s: State)
    requires Inv(s) && forall g :: 0 <= g < |s.loops| ==> s.loops[g].phase.Gone? || s.loops[g].phase.Selecting?
    ensures forall c :: 0 <= c < |s.pool.calls| ==> s.pool.calls[c].phase.Returned?
  {
    forall c | 0 <= c < |s.pool.calls| ensures s.pool.calls[c].phase.Returned? {
      assert !s.loops[s.owners[c]].phase.Checking?;
    }
  }

  lemma RestCounts(s: State)
    requires Inv(s) && !s.pool.done
    requires forall g :: 0 <= g < |s.loops| ==> (s.plan.gens[g].cancelled <==> s.loops[g].phase.Gone?)
    ensures s.live == |s.plan.running|
  {
    BlockedCallers.SumCounts(s.loops);
    BlockedCallers.RecordsAreCounted(s, BlockedCallers.UnexitedSet(s.loops));
  }

  // ---------------------------------------------------------------- the scheduler can always follow

  predicate OfTheScheduler(step: Step) { step.OfScheduler? }

  function Stage(phase: SchedulerPhase): nat {
    match phase
    case InList => 3
    case Visiting(_, _) => 2
    case Starting(_, _) => 2
    case Pruning(_, _) => 1
    case _ => 0
  }

  function Left(phase: SchedulerPhase): nat {
    match phase
    case Visiting(list, at) => if at <= |list| then 2 * (|list| - at) + 1 else 0
    case Starting(list, at) => if at <= |list| then 2 * (|list| - at) else 0
    case Pruning(_, pending) => |pending|
    case _ => 0
  }

  predicate OfPass(c: SchedulerStep) {
    c.ListFailed? || c.VisitOne? || c.StartOne? || c.EndVisits? || c.PruneOne? || c.EndPrune?
  }

  ghost predicate Nearer(s: State, t: State) {
    && t.snapshot == s.snapshot
    && (Stage(t.phase) < Stage(s.phase) || (Stage(t.phase) == Stage(s.phase) && Left(t.phase) < Left(s.phase)))
  }

  lemma VisitNears(s: State)
    requires SchedulerEnabled(s, VisitOne)
    ensures Nearer(s, SchedulerNext(s, VisitOne))
  {
    Shutdown.VisitOutcomes(s);
    Shutdown.StopRunning(s, s.phase.list[s.phase.at].id);
  }

  lemma PassNears(s: State, c: SchedulerStep)
    requires SchedulerEnabled(s, c) && OfPass(c)
    ensures Nearer(s, SchedulerNext(s, c))
  {
    if c == VisitOne {
      VisitNears(s);
    }
  }

  /** The next step of a pass that is in progress; a listing that is awaited fails. */
  lemma NextPassStep(s: State) returns (c: SchedulerStep)
    requires Inv(s) && !s.pool.done && !s.phase.Looping?
    ensures SchedulerEnabled(s, c) && OfPass(c)
  {
    match s.phase {
      case InList => c := ListFailed;
      case Visiting(list, at) => c := if at < |list| then VisitOne else EndVisits;
      case Starting(_, _) => c := StartOne;
      case Pruning(_, pending) =>
        if id :| id in pending {
          c := PruneOne(id);
        } else {
          c := EndPrune;
        }
    }
  }

  lemma {:induction false} FinishesPass(s: State) returns (t: State)
    requires Inv(s) && !s.pool.done
    ensures Leads(OfTheScheduler, s, t) && Inv(t) && !t.pool.done && t.phase.Looping? && t.snapshot == s.snapshot
    decreases Stage(s.phase), Left(s.phase)
  {
    if s.phase.Looping? {
      LeadsSelf(OfTheScheduler, s);
      t := s;
    } else {
      var c := NextPassStep(s);
      var next := SchedulerNext(s, c);
      SchedulerStepInv(s, c);
      PassNears(s, c);
      Frames.SchedulerFrame(s, c);
      t := FinishesPass(next);
      LeadsStep(OfTheScheduler, s, OfScheduler(c), next, t);
    }
  }

  /** While the root context lasts the scheduler can always come to follow whatever List has to say: from every state,
      in the middle of a pass or not, a discovery tick and the steps of the scheduler alone lead to its select with
      the schedule that any given listing asks for. */
  lemma CanFollowAnyListing(s: State, list: seq<Target>)
    requires Inv(s) && !s.pool.done
    ensures exists t :: Leads(OfTheScheduler, s, t) && Inv(t) && t.phase.Looping?
                        && Scheduled(t.plan) == Desired(list)
  {
    var s1 := FinishesPass(s);
    var s2 := ListsNow(s1, list);
    var t := FinishesPass(s2);
    LeadsTransitive(OfTheScheduler, s1, s2, t);
    LeadsTransitive(OfTheScheduler, s, s1, t);
  }

  lemma ListsNow(s: State, list: seq<Target>) returns (t: State)
    requires Inv(s) && !s.pool.done && s.phase.Looping?
    ensures Leads(OfTheScheduler, s, t) && Inv(t) && !t.pool.done && t.snapshot == list
  {
    var s1 := SchedulerNext(s, DiscoveryTick);
    SchedulerStepInv(s, DiscoveryTick);
    var s2 := SchedulerNext(s1, TakeDiscovery);
    SchedulerStepInv(s1, TakeDiscovery);
    t := SchedulerNext(s2, Listed(list));
    SchedulerStepInv(s2, Listed(list));
    LeadsSelf(OfTheScheduler, t);
    LeadsStep(OfTheScheduler, s2, OfScheduler(Listed(list)), t, t);
    LeadsStep(OfTheScheduler, s1, OfScheduler(TakeDiscovery), s2, t);
    LeadsStep(OfTheScheduler, s, OfScheduler(DiscoveryTick), s1, t);
  }
}
