/**
 The process comes to rest, and shutdown terminates. Every step the process can take lowers a rank, however the
 selects fall: even after the root context is done workers may pick jobs, generations may take a waiting tick, and
 reconcile may start new ones. Only the outside can raise it, and what the outside does is paid for from a finite
 budget.
 */
module Shutdown {
  import opened Wrappers
  import opened Targets
  import opened Sums
  import opened Schedules
  import opened Monitor
  import opened MonitorInvariant
  import P = WorkerPool
  import AbortedCalls
  import Frames
  import PoolProperties
  import MonitorProperties

  // ---------------------------------------------------------------- the budget

  /** Ticks of generations' tickers, discovery ticks, targets returned by listings, and new requests. */
  datatype Budget = Budget(ticks: nat, passes: nat, listed: nat, requests: nat)

  function Price(step: Step): Budget {
    match step
    case OfLoop(Tick(_)) => Budget(1, 0, 0, 0)
    case OfScheduler(DiscoveryTick) => Budget(0, 1, 0, 0)
    case OfScheduler(Listed(list)) => Budget(0, 0, |list|, 0)
    case OfMain(Request) => Budget(0, 0, 0, 1)
    case _ => Budget(0, 0, 0, 0)
  }

  function Plus(a: Budget, b: Budget): Budget {
    Budget(a.ticks + b.ticks, a.passes + b.passes, a.listed + b.listed, a.requests + b.requests)
  }

  /** What the outside contributes to a run. */
  function Cost(steps: seq<Step>): Budget {
    if steps == [] then Budget(0, 0, 0, 0) else Plus(Price(steps[0]), Cost(steps[1..]))
  }

  predicate Within(a: Budget, b: Budget) {
    a.ticks <= b.ticks && a.passes <= b.passes && a.listed <= b.listed && a.requests <= b.requests
  }

  /** What is left of b after a step. */
  function Paid(b: Budget, step: Step): Budget
    requires Within(Price(step), b)
  {
    match step
    case OfLoop(Tick(_)) => b.(ticks := b.ticks - 1)
    case OfScheduler(DiscoveryTick) => b.(passes := b.passes - 1)
    case OfScheduler(Listed(list)) => b.(listed := b.listed - |list|)
    case OfMain(Request) => b.(requests := b.requests - 1)
    case _ => b
  }

  lemma PayFirst(steps: seq<Step>, b: Budget)
    requires steps != [] && Within(Cost(steps), b)
    ensures Within(Price(steps[0]), b) && Within(Cost(steps[1..]), Paid(b, steps[0]))
  {
  }

  // ---------------------------------------------------------------- the rank

  function LoopWeight(l: Loop): nat {
    (match l.phase
     case Fresh => 10
     case Checking(_, first) => if first then 3 else 2
     case Arming => 2
     case Selecting => 1
     case Gone => 0)
    + (if l.tick then 8 else 0)
  }

  /** Listed targets the current pass has still to visit. */
  function Remaining(phase: SchedulerPhase): nat {
    match phase
    case Visiting(list, at) => if at <= |list| then |list| - at else 0
    case Starting(list, at) => if at <= |list| then |list| - at else 0
    case _ => 0
  }

  /** A bound on the number of records from now on. */
  function Records(running: nat, phase: SchedulerPhase, b: Budget): nat { running + Remaining(phase) + b.listed }

  function PhaseRank(phase: SchedulerPhase, records: nat): nat {
    match phase
    case InList => 7 + 2 * records
    case Visiting(_, _) => 6 + 2 * records
    case Starting(_, _) => 5 + 2 * records
    case Pruning(_, pending) => 4 + records + |pending|
    case Looping => 3 + records
    case Cancelling(pending) => 2 + |pending|
    case Joining => 1
    case Stopped => 0
  }

  /** n * x, without multiplication. */
  function Repeat(n: nat, x: nat): nat { if n == 0 then 0 else Repeat(n - 1, x) + x }

  lemma {:induction false} RepeatMonotone(n: nat, x: nat, y: nat)
    requires x <= y
    ensures Repeat(n, x) <= Repeat(n, y)
  {
    if n > 0 {
      RepeatMonotone(n - 1, x, y);
    }
  }

  function ScheduleRank(running: nat, phase: SchedulerPhase, discovery: Option<bool>, b: Budget): nat {
    var records := Records(running, phase, b);
    PhaseRank(phase, records) + 12 * (Remaining(phase) + b.listed)
    + (if discovery == Some(true) then records + 5 else 0) + Repeat(b.passes, records + 6)
  }

  function MainRank(m: MainPhase): nat {
    match m
    case Serving => 6
    case ShuttingDown => 5
    case Stopping => 4
    case AwaitingScheduler => 3
    case AwaitingPool => 2
    case Closing => 1
    case Closed => 0
  }

  function ServerRank(serverUp: bool, handlers: nat, b: Budget): nat {
    (if serverUp then 1 else 0) + handlers + 2 * b.requests
  }

  function Rank(s: State, b: Budget): int {
    PoolProperties.Rank(s.pool) + Sum(s.loops, LoopWeight) + 9 * b.ticks
    + ScheduleRank(|s.plan.running|, s.phase, s.discovery, b)
    + MainRank(s.main) + ServerRank(s.serverUp, s.handlers, b)
  }

  lemma RankNonNegative(s: State, b: Budget)
    requires Inv(s)
    ensures Rank(s, b) >= 0
  {
    PoolProperties.RankNonNegative(s.pool);
  }

  // ---------------------------------------------------------------- every step lowers it

  ghost predicate Descends(s: State, b: Budget, step: Step)
    requires Enabled(s, step) && Within(Price(step), b)
  {
    Rank(Next(s, step), Paid(b, step)) < Rank(s, b)
  }

  lemma PoolDescends(s: State, b: Budget, p: P.Step)
    requires P.Inv(s.pool) && PoolEnabled(s, p)
    ensures Rank(s.(pool := P.Next(s.pool, p)), b) < Rank(s, b)
  {
    PoolProperties.RankDrops(s.pool, p);
  }

  /** A new check costs six pool steps and is paid for by its generation. */
  lemma BeginDescends(s: State, b: Budget, g: nat, first: bool)
    requires g < |s.loops| == |s.plan.gens|
    requires LoopWeight(s.loops[g]) > 6 + LoopWeight(Loop(Checking(|s.pool.calls|, first), false))
    ensures Rank(BeginCall(s, g, first), b) < Rank(s, b)
  {
    PoolProperties.RankBegin(s.pool, s.plan.gens[g].target, CtxDone(s, g));
    SumUpdate(s.loops, g, Loop(Checking(|s.pool.calls|, first), false), LoopWeight);
  }

  /** Only one generation's loop moves. */
  lemma OneLoopDescends(s: State, s': State, b: Budget, b': Budget, g: nat, l: Loop)
    requires g < |s.loops| && s' == s.(loops := s.loops[g := l], live := s'.live)
    requires b' == b.(ticks := b'.ticks) && LoopWeight(l) + 9 * b'.ticks < LoopWeight(s.loops[g]) + 9 * b.ticks
    ensures Rank(s', b') < Rank(s, b)
  {
    SumUpdate(s.loops, g, l, LoopWeight);
  }

  lemma LoopReturns(s: State, b: Budget, g: nat, aborted: bool)
    requires LoopEnabled(s, EndCheck(g, aborted))
    requires PoolProperties.Rank(P.Next(s.pool, EndOf(s.loops[g].phase.call, aborted))) < PoolProperties.Rank(s.pool)
    ensures Rank(LoopNext(s, EndCheck(g, aborted)), b) < Rank(s, b)
  {
    SumUpdate(s.loops, g, LoopNext(s, EndCheck(g, aborted)).loops[g], LoopWeight);
  }

  lemma EndCheckDescends(s: State, b: Budget, g: nat, aborted: bool)
    requires P.Inv(s.pool) && LoopEnabled(s, EndCheck(g, aborted))
    ensures Rank(LoopNext(s, EndCheck(g, aborted)), b) < Rank(s, b)
  {
    PoolProperties.RankDrops(s.pool, EndOf(s.loops[g].phase.call, aborted));
    LoopReturns(s, b, g, aborted);
  }

  /** Fewer records make a lower rank. */
  lemma ScheduleDescends(running: nat, phase: SchedulerPhase, running': nat, phase': SchedulerPhase,
                         discovery: Option<bool>, b: Budget)
    requires Records(running', phase', b) <= Records(running, phase, b)
    requires PhaseRank(phase', Records(running', phase', b)) + 12 * Remaining(phase')
             < PhaseRank(phase, Records(running, phase, b)) + 12 * Remaining(phase)
    ensures ScheduleRank(running', phase', discovery, b)
            <= ScheduleRank(running, phase, discovery, b)
               - (PhaseRank(phase, Records(running, phase, b)) + 12 * Remaining(phase)
                  - PhaseRank(phase', Records(running', phase', b)) - 12 * Remaining(phase'))
  {
    RepeatMonotone(b.passes, Records(running', phase', b) + 6, Records(running, phase, b) + 6);
  }

  /** A scheduling step that starts at most one generation, and pays for it. */
  lemma ScheduleMoves(s: State, s': State, b: Budget, started: nat)
    requires PoolProperties.Rank(s'.pool) == PoolProperties.Rank(s.pool)
    requires Sum(s'.loops, LoopWeight) <= Sum(s.loops, LoopWeight) + started
    requires s'.main == s.main && s'.serverUp == s.serverUp && s'.handlers == s.handlers && s'.discovery == s.discovery
    requires Records(|s'.plan.running|, s'.phase, b) <= Records(|s.plan.running|, s.phase, b)
    requires PhaseRank(s'.phase, Records(|s'.plan.running|, s'.phase, b)) + 12 * Remaining(s'.phase) + started
             < PhaseRank(s.phase, Records(|s.plan.running|, s.phase, b)) + 12 * Remaining(s.phase)
    ensures Rank(s', b) < Rank(s, b)
  {
    ScheduleDescends(|s.plan.running|, s.phase, |s'.plan.running|, s'.phase, s.discovery, b);
  }

  lemma StopRunning(s: State, id: string)
    requires InBounds(s.plan)
    ensures |StopIn(s, id).plan.running| == |s.plan.running| - (if id in s.plan.running then 1 else 0)
    ensures PoolProperties.Rank(StopIn(s, id).pool) == PoolProperties.Rank(s.pool)
    ensures StopIn(s, id) == s.(plan := StopIn(s, id).plan, pool := StopIn(s, id).pool)
  {
    if id in s.plan.running {
      assert StopIn(s, id).plan.running.Keys == s.plan.running.Keys - {id};
      PoolProperties.RankCancel(s.pool, CallsOf(s, s.plan.running[id]), false);
    }
  }

  /** Visiting a target, with or without a stop, lowers the phase's rank; so does turning to its start. */
  lemma VisitPays(running: nat, running': nat, list: seq<Target>, at: nat, b: Budget)
    requires at < |list| && running' <= running
    ensures Records(running', Visiting(list, at + 1), b) < Records(running, Visiting(list, at), b)
    ensures Records(running', Starting(list, at), b) <= Records(running, Visiting(list, at), b)
    ensures PhaseRank(Visiting(list, at + 1), Records(running', Visiting(list, at + 1), b))
            + 12 * Remaining(Visiting(list, at + 1))
            < PhaseRank(Visiting(list, at), Records(running, Visiting(list, at), b)) + 12 * Remaining(Visiting(list, at))
    ensures PhaseRank(Starting(list, at), Records(running', Starting(list, at), b)) + 12 * Remaining(Starting(list, at))
            < PhaseRank(Visiting(list, at), Records(running, Visiting(list, at), b)) + 12 * Remaining(Visiting(list, at))
  {
  }

  lemma VisitOutcomes(s: State)
    requires SchedulerEnabled(s, VisitOne)
    ensures var stopped, next, list, at :=
              StopIn(s, s.phase.list[s.phase.at].id), SchedulerNext(s, VisitOne), s.phase.list, s.phase.at;
      || next == s.(phase := Visiting(list, at + 1))
      || next == stopped.(phase := Visiting(list, at + 1))
      || next == stopped.(phase := Starting(list, at))
  {
  }

  lemma VisitDescends(s: State, b: Budget)
    requires SchedulerEnabled(s, VisitOne)
    ensures Rank(SchedulerNext(s, VisitOne), b) < Rank(s, b)
  {
    var id := s.phase.list[s.phase.at].id;
    VisitOutcomes(s);
    StopRunning(s, id);
    VisitMoves(s, s, b);
    VisitMoves(s, StopIn(s, id), b);
  }

  lemma VisitMoves(s: State, stopped: State, b: Budget)
    requires s.phase.Visiting? && s.phase.at < |s.phase.list|
    requires stopped == s.(plan := stopped.plan, pool := stopped.pool)
    requires PoolProperties.Rank(stopped.pool) == PoolProperties.Rank(s.pool)
    requires |stopped.plan.running| <= |s.plan.running|
    ensures Rank(stopped.(phase := Visiting(s.phase.list, s.phase.at + 1)), b) < Rank(s, b)
    ensures Rank(stopped.(phase := Starting(s.phase.list, s.phase.at)), b) < Rank(s, b)
  {
    VisitPays(|s.plan.running|, |stopped.plan.running|, s.phase.list, s.phase.at, b);
    ScheduleMoves(s, stopped.(phase := Visiting(s.phase.list, s.phase.at + 1)), b, 0);
    ScheduleMoves(s, stopped.(phase := Starting(s.phase.list, s.phase.at)), b, 0);
  }

  lemma StartDescends(s: State, b: Budget)
    requires SchedulerEnabled(s, StartOne) && s.phase.list[s.phase.at].id !in s.plan.running
    ensures Rank(SchedulerNext(s, StartOne), b) < Rank(s, b)
  {
    var t := s.phase.list[s.phase.at];
    var s' := StartIn(s, t).(phase := Visiting(s.phase.list, s.phase.at + 1));
    StartRunning(s, t);
    ScheduleMoves(s, s', b, 10);
  }

  lemma StartRunning(s: State, t: Target)
    requires InBounds(s.plan) && t.id !in s.plan.running
    ensures |StartIn(s, t).plan.running| == |s.plan.running| + (if t.interval > 0 then 1 else 0)
    ensures Sum(StartIn(s, t).loops, LoopWeight) == Sum(s.loops, LoopWeight) + (if t.interval > 0 then 10 else 0)
  {
    if t.interval > 0 {
      assert StartIn(s, t).plan.running.Keys == s.plan.running.Keys + {t.id};
      SumAppend(s.loops, Loop(Fresh, false), LoopWeight);
    }
  }

  lemma PruneDescends(s: State, b: Budget, id: string)
    requires SchedulerEnabled(s, PruneOne(id))
    ensures Rank(SchedulerNext(s, PruneOne(id)), b) < Rank(s, b)
  {
    var s' := SchedulerNext(s, PruneOne(id));
    StopRunning(s, id);
    ScheduleMoves(s, s', b, 0);
  }

  lemma CancelDescends(s: State, b: Budget, id: string)
    requires SchedulerEnabled(s, CancelOne(id))
    ensures Rank(SchedulerNext(s, CancelOne(id)), b) < Rank(s, b)
  {
    var s' := SchedulerNext(s, CancelOne(id));
    PoolProperties.RankCancel(s.pool, CallsOf(s, s.plan.running[id]), false);
    ScheduleDescends(|s.plan.running|, s.phase, |s'.plan.running|, s'.phase, s.discovery, b);
  }

  lemma PhaseDescends(s: State, b: Budget, step: SchedulerStep)
    requires SchedulerEnabled(s, step) && (step.EndVisits? || step.EndCancel? || step.Join?)
    ensures Rank(SchedulerNext(s, step), b) < Rank(s, b)
  {
    var s' := SchedulerNext(s, step);
    ScheduleDescends(|s.plan.running|, s.phase, |s'.plan.running|, s'.phase, s.discovery, b);
  }

  lemma EndPassDescends(s: State, b: Budget, step: SchedulerStep)
    requires SchedulerEnabled(s, step) && (step.EndPrune? || step.ListFailed?)
    ensures Rank(SchedulerNext(s, step), b) < Rank(s, b)
  {
    var s' := SchedulerNext(s, step);
    ScheduleDescends(|s.plan.running|, s.phase, |s'.plan.running|, s'.phase, s.discovery, b);
  }

  lemma ListedDescends(s: State, b: Budget, list: seq<Target>)
    requires SchedulerEnabled(s, Listed(list)) && |list| <= b.listed
    ensures Rank(SchedulerNext(s, Listed(list)), b.(listed := b.listed - |list|)) < Rank(s, b)
  {
    var b' := b.(listed := b.listed - |list|);
    assert Records(|s.plan.running|, Visiting(list, 0), b') == Records(|s.plan.running|, s.phase, b);
  }

  lemma DiscoveryDescends(s: State, b: Budget)
    requires SchedulerEnabled(s, DiscoveryTick) && b.passes >= 1
    ensures Rank(SchedulerNext(s, DiscoveryTick), b.(passes := b.passes - 1)) < Rank(s, b)
  {
  }

  lemma SelectDescends(s: State, b: Budget, step: SchedulerStep)
    requires SchedulerEnabled(s, step) && (step.TakeDiscovery? || step.SeeDone?)
    ensures Rank(SchedulerNext(s, step), b) < Rank(s, b)
  {
    assert |s.plan.running.Keys| == |s.plan.running|;
  }

  /** Only main, the server and its requests move. */
  lemma ServerMoves(s: State, s': State, b: Budget, b': Budget)
    requires s'.pool == s.pool && s'.loops == s.loops && s'.plan == s.plan && s'.phase == s.phase
    requires s'.discovery == s.discovery && b == b'.(requests := b.requests)
    requires MainRank(s'.main) + ServerRank(s'.serverUp, s'.handlers, b')
             < MainRank(s.main) + ServerRank(s.serverUp, s.handlers, b)
    ensures Rank(s', b') < Rank(s, b)
  {
  }

  lemma ServerDescends(s: State, b: Budget, m: MainStep)
    requires MainEnabled(s, m) && !m.Signal? && !m.StopRoot? && (m.Request? ==> b.requests >= 1)
    ensures Rank(MainNext(s, m), if m.Request? then b.(requests := b.requests - 1) else b) < Rank(s, b)
  {
    ServerMoves(s, MainNext(s, m), b, if m.Request? then b.(requests := b.requests - 1) else b);
  }

  lemma StopRootDescends(s: State, b: Budget)
    requires MainEnabled(s, StopRoot)
    ensures Rank(MainNext(s, StopRoot), b) < Rank(s, b)
  {
    PoolProperties.RankCancel(s.pool, AllCalls(s), true);
  }

  lemma SchedulerDescends(s: State, b: Budget, c: SchedulerStep)
    requires SchedulerEnabled(s, c) && Within(Price(OfScheduler(c)), b)
    requires c.StartOne? ==> s.phase.list[s.phase.at].id !in s.plan.running
    ensures Rank(SchedulerNext(s, c), Paid(b, OfScheduler(c))) < Rank(s, b)
  {
    match c {
      case Listed(list) => ListedDescends(s, b, list);
      case ListFailed => EndPassDescends(s, b, c);
      case VisitOne => VisitDescends(s, b);
      case StartOne => StartDescends(s, b);
      case EndVisits => PhaseDescends(s, b, c);
      case PruneOne(id) => PruneDescends(s, b, id);
      case EndPrune => EndPassDescends(s, b, c);
      case DiscoveryTick => DiscoveryDescends(s, b);
      case TakeDiscovery => SelectDescends(s, b, c);
      case SeeDone => SelectDescends(s, b, c);
      case CancelOne(id) => CancelDescends(s, b, id);
      case EndCancel => PhaseDescends(s, b, c);
      case Join => PhaseDescends(s, b, c);
    }
  }

  lemma LoopDescends(s: State, b: Budget, l: LoopStep)
    requires P.Inv(s.pool) && LoopEnabled(s, l) && Within(Price(OfLoop(l)), b)
    ensures Rank(LoopNext(s, l), Paid(b, OfLoop(l))) < Rank(s, b)
  {
    match l {
      case FirstCheck(g) => BeginDescends(s, b, g, true);
      case TakeTick(g) => BeginDescends(s, b, g, false);
      case EndCheck(g, aborted) => EndCheckDescends(s, b, g, aborted);
      case Arm(g) => OneLoopDescends(s, LoopNext(s, l), b, b, g, LoopNext(s, l).loops[g]);
      case Tick(g) => OneLoopDescends(s, LoopNext(s, l), b, Paid(b, OfLoop(l)), g, LoopNext(s, l).loops[g]);
      case Leave(g) => OneLoopDescends(s, LoopNext(s, l), b, b, g, LoopNext(s, l).loops[g]);
    }
  }

  lemma StartsOnlyUnrecorded(s: State)
    requires Inv(s) && s.phase.Starting?
    ensures s.phase.at < |s.phase.list| && s.phase.list[s.phase.at].id !in s.plan.running
  {
  }

  /** A cancelled root context stays cancelled. */
  lemma DoneStays(s: State, step: Step)
    requires Enabled(s, step) && s.pool.done
    ensures Next(s, step).pool.done
  {
    MonitorProperties.StepProjects(s, step);
  }

  lemma SchedulerStepDescends(s: State, b: Budget, c: SchedulerStep)
    requires Inv(s) && SchedulerEnabled(s, c) && Within(Price(OfScheduler(c)), b)
    ensures Descends(s, b, OfScheduler(c))
  {
    if c.StartOne? {
      StartsOnlyUnrecorded(s);
    }
    SchedulerDescends(s, b, c);
  }

  lemma MainStepDescends(s: State, b: Budget, m: MainStep)
    requires Inv(s) && MainEnabled(s, m) && !m.Signal? && Within(Price(OfMain(m)), b)
    ensures Descends(s, b, OfMain(m))
  {
    if m.StopRoot? {
      StopRootDescends(s, b);
    } else {
      ServerDescends(s, b, m);
    }
  }

  /** Every step but the signal lowers the rank, before and after the end of the root context. */
  lemma EveryStepDescends(s: State, b: Budget, step: Step)
    requires Inv(s) && Enabled(s, step) && step != OfMain(Signal) && Within(Price(step), b)
    ensures Descends(s, b, step)
    ensures s.pool.done ==> Next(s, step).pool.done
  {
    if s.pool.done {
      DoneStays(s, step);
    }
    match step {
      case PoolStep(p) => PoolDescends(s, b, p);
      case OfLoop(l) => LoopDescends(s, b, l);
      case OfScheduler(c) => SchedulerStepDescends(s, b, c);
      case OfMain(m) => MainStepDescends(s, b, m);
    }
  }

  /** The signal comes at most once and costs nothing else. */
  lemma SignalKeepsRank(s: State, b: Budget)
    requires MainEnabled(s, Signal)
    ensures Rank(MainNext(s, Signal), b) == Rank(s, b) && MainNext(s, Signal).pool.done
  {
    PoolProperties.RankCancel(s.pool, AllCalls(s), true);
  }

  function SignalsLeft(s: State): nat { if s.pool.done then 0 else 1 }

  lemma OneStepLess(s: State, b: Budget, step: Step)
    requires Inv(s) && Enabled(s, step) && Within(Price(step), b)
    ensures Rank(Next(s, step), Paid(b, step)) + SignalsLeft(Next(s, step)) < Rank(s, b) + SignalsLeft(s)
  {
    if step == OfMain(Signal) {
      SignalKeepsRank(s, b);
    } else {
      EveryStepDescends(s, b, step);
    }
  }

  /** Within any finite budget every run of the process is finite, from any state, with or without a shutdown. */
  lemma {:induction false} RunsAreFinite(s: State, steps: seq<Step>, b: Budget)
    requires Inv(s) && ValidRun(s, steps) && Within(Cost(steps), b)
    ensures |steps| <= Rank(s, b) + SignalsLeft(s)
    decreases |steps|
  {
    RankNonNegative(s, b);
    if steps != [] {
      PayFirst(steps, b);
      OneStepLess(s, b, steps[0]);
      StepInv(s, steps[0]);
      RunsAreFinite(Next(s, steps[0]), steps[1..], Paid(b, steps[0]));
    }
  }

  /** Within any finite budget every run from a shut-down state is finite: it has at most Rank(s, b) steps. */
  lemma ShutdownTerminates(s: State, steps: seq<Step>, b: Budget)
    requires Inv(s) && s.pool.done && ValidRun(s, steps) && Within(Cost(steps), b)
    ensures |steps| <= Rank(s, b)
  {
    RunsAreFinite(s, steps, b);
  }

  // ---------------------------------------------------------------- and it ends where it should

  /** Steps that only the outside can bring about. */
  predicate External(step: Step) {
    match step
    case OfLoop(l) => l.Tick?
    case OfScheduler(c) => c.DiscoveryTick?
    case OfMain(m) => m.Request?
    case PoolStep(_) => false
  }

  const NOTHING := Budget(0, 0, 0, 0)

  /** Steps of the process itself that neither cost anything nor end a request. */
  predicate Free(step: Step) { !External(step) && Price(step) == NOTHING && step != OfMain(RequestDone) }

  ghost predicate Stuck(s: State) { forall step: Step :: !External(step) ==> !Enabled(s, step) }

  lemma WorkerMoves(s: State, w: nat) returns (step: Step)
    requires Inv(s) && s.pool.done && w < |s.pool.workers| && s.pool.workers[w] != P.Exited
    ensures Free(step) && Enabled(s, step)
  {
    if s.pool.workers[w].Idle? {
      step := PoolStep(P.Exit(w));
    } else {
      var p := AbortedCalls.BusyStep(s.pool, w);
      step := PoolStep(p);
    }
  }

  lemma PoolMoves(s: State) returns (step: Step)
    requires Inv(s) && s.pool.done && !s.pool.startReturned
    ensures Free(step) && Enabled(s, step)
  {
    if |s.pool.workers| < s.pool.limits.workers {
      step := PoolStep(P.Spawn);
    } else if w :| 0 <= w < |s.pool.workers| && s.pool.workers[w] != P.Exited {
      step := WorkerMoves(s, w);
    } else {
      SumZero(s.pool.workers, P.Alive);
      step := PoolStep(P.StartReturn);
    }
  }

  lemma LoopMoves(s: State, g: nat) returns (step: Step)
    requires Inv(s) && s.pool.done && g < |s.loops| && !s.loops[g].phase.Gone?
    ensures Free(step) && Enabled(s, step)
  {
    match s.loops[g].phase {
      case Fresh => step := OfLoop(FirstCheck(g));
      case Checking(c, _) =>
        assert ParkedAt(s.pool.calls, s.owners, g, c);
        step := OfLoop(EndCheck(g, true));
      case Arming => step := OfLoop(Arm(g));
      case Selecting => step := OfLoop(Leave(g));
    }
  }

  lemma SchedulerMoves(s: State) returns (step: Step)
    requires Inv(s) && s.pool.done && s.live == 0 && !s.phase.Stopped?
    ensures Free(step) && Enabled(s, step)
  {
    match s.phase {
      case InList => step := OfScheduler(ListFailed);
      case Visiting(list, at) => step := OfScheduler(if at < |list| then VisitOne else EndVisits);
      case Starting(_, _) => step := OfScheduler(StartOne);
      case Pruning(_, pending) =>
        if id :| id in pending {
          step := OfScheduler(PruneOne(id));
        } else {
          step := OfScheduler(EndPrune);
        }
      case Looping => step := OfScheduler(SeeDone);
      case Cancelling(pending) =>
        if id :| id in pending {
          step := OfScheduler(CancelOne(id));
        } else {
          step := OfScheduler(EndCancel);
        }
      case Joining => step := OfScheduler(Join);
    }
  }

  lemma MainMoves(s: State) returns (step: Step)
    requires Inv(s) && s.pool.done && s.phase.Stopped? && s.pool.startReturned && !s.main.Closed?
    ensures Free(step) && Enabled(s, step)
  {
    match s.main {
      case Serving => step := OfMain(Notice);
      case ShuttingDown => step := OfMain(ShutdownReturns(false));
      case Stopping => step := OfMain(StopRoot);
      case AwaitingScheduler => step := OfMain(SchedulerJoined);
      case AwaitingPool => step := OfMain(PoolJoined);
      case Closing => step := OfMain(CloseDatabase);
    }
  }

  /** When nothing but the outside can move, every generation and every worker has exited, both Starts have
      returned, and main has closed the database. */
  lemma StuckMeansShutDown(s: State)
    requires Inv(s) && s.pool.done && Stuck(s)
    ensures s.main.Closed? && s.handlers == 0
    ensures s.phase.Stopped? && s.live == 0 && (forall g :: 0 <= g < |s.loops| ==> s.loops[g].phase.Gone?)
    ensures s.pool.startReturned
    ensures forall w :: 0 <= w < |s.pool.workers| ==> s.pool.workers[w] == P.Exited
  {
    if !s.pool.startReturned {
      var step := PoolMoves(s);
    }
    if w :| 0 <= w < |s.pool.workers| && s.pool.workers[w] != P.Exited {
      var step := WorkerMoves(s, w);
    }
    if g :| 0 <= g < |s.loops| && !s.loops[g].phase.Gone? {
      var step := LoopMoves(s, g);
    }
    SumZero(s.loops, Unexited);
    if !s.phase.Stopped? {
      var step := SchedulerMoves(s);
    }
    if !s.main.Closed? {
      var step := MainMoves(s);
    }
    assert !Enabled(s, OfMain(RequestDone));
  }

  // ---------------------------------------------------------------- requests against the database

  lemma SomethingMoves(s: State) returns (step: Step)
    requires Inv(s) && s.pool.done && !s.main.Closed?
    ensures Free(step) && Enabled(s, step)
  {
    if !s.pool.startReturned {
      step := PoolMoves(s);
    } else if g :| 0 <= g < |s.loops| && !s.loops[g].phase.Gone? {
      step := LoopMoves(s, g);
    } else {
      SumZero(s.loops, Unexited);
      if !s.phase.Stopped? {
        step := SchedulerMoves(s);
      } else {
        step := MainMoves(s);
      }
    }
  }

  /** Some run leads from s to the closed database with the given number of requests still in progress. */
  ghost predicate CanClose(s: State, handlers: nat) {
    exists steps :: ValidRun(s, steps) && After(s, steps).main.Closed? && After(s, steps).handlers == handlers
  }

  lemma CanCloseStep(s: State, step: Step, handlers: nat)
    requires Enabled(s, step) && CanClose(Next(s, step), handlers)
    ensures CanClose(s, handlers)
  {
    var rest :| ValidRun(Next(s, step), rest) && After(Next(s, step), rest).main.Closed?
                && After(Next(s, step), rest).handlers == handlers;
    assert ([step] + rest)[1..] == rest;
    assert ValidRun(s, [step] + rest) && After(s, [step] + rest) == After(Next(s, step), rest);
  }

  lemma HandlersStay(s: State, step: Step)
    requires Enabled(s, step) && step != OfMain(Request) && step != OfMain(RequestDone)
    ensures Next(s, step).handlers == s.handlers
  {
    match step {
      case PoolStep(p) => Frames.PoolFrame(s, p);
      case OfLoop(l) => Frames.LoopFrame(s, l);
      case OfScheduler(c) => Frames.SchedulerFrame(s, c);
      case OfMain(_) =>
    }
  }

  /** A shut-down process can close its database without any request in progress coming to an end. */
  lemma {:induction false} ClosesOverRequests(s: State)
    requires Inv(s) && s.pool.done
    ensures CanClose(s, s.handlers)
    decreases Rank(s, NOTHING)
  {
    RankNonNegative(s, NOTHING);
    if s.main.Closed? {
      assert ValidRun(s, []) && After(s, []) == s;
    } else {
      var step := SomethingMoves(s);
      EveryStepDescends(s, NOTHING, step);
      StepInv(s, step);
      HandlersStay(s, step);
      RankNonNegative(Next(s, step), NOTHING);
      ClosesOverRequests(Next(s, step));
      CanCloseStep(s, step, s.handlers);
    }
  }

  predicate PastShutdown(m: MainPhase) { !m.Serving? && !m.ShuttingDown? }

  lemma {:induction false} HandlersFall(s: State, steps: seq<Step>)
    requires Inv(s) && PastShutdown(s.main) && ValidRun(s, steps)
    ensures After(s, steps).handlers <= s.handlers
    decreases |steps|
  {
    if steps != [] {
      StepInv(s, steps[0]);
      MainAdvances(s, steps[0]);
      HandlersFall(Next(s, steps[0]), steps[1..]);
    }
  }

  lemma MainAdvances(s: State, step: Step)
    requires PastShutdown(s.main) && Enabled(s, step)
    ensures PastShutdown(Next(s, step).main) && Next(s, step).handlers <= s.handlers
  {
    match step {
      case PoolStep(p) => Frames.PoolFrame(s, p);
      case OfLoop(l) => Frames.LoopFrame(s, l);
      case OfScheduler(c) => Frames.SchedulerFrame(s, c);
      case OfMain(_) =>
    }
  }

  /** When server.Shutdown has returned, a request can still be in progress after the database is closed if and only
      if one is in progress now, which Shutdown allows only by running into its deadline. */
  lemma RequestOutlivesDatabaseIff(s: State)
    requires Inv(s) && s.main.Stopping?
    ensures (exists n: nat :: n > 0 && CanClose(s, n)) <==> s.handlers > 0
    ensures s.drained ==> s.handlers == 0
  {
    if n: nat :| n > 0 && CanClose(s, n) {
      var steps :| ValidRun(s, steps) && After(s, steps).main.Closed? && After(s, steps).handlers == n;
      HandlersFall(s, steps);
    }
    if s.handlers > 0 {
      StepInv(s, OfMain(StopRoot));
      HandlersStay(s, OfMain(StopRoot));
      ClosesOverRequests(Next(s, OfMain(StopRoot)));
      CanCloseStep(s, OfMain(StopRoot), s.handlers);
    }
  }
}
