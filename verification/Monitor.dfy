/**
 The whole process as one state machine: main, the scheduler's goroutine, one goroutine per started target, and the
 worker pool they share. Scheduler and pool run under one root context, whose end is pool.done.
 */
module Monitor {
  import opened Wrappers
  import opened Targets
  import opened Schedules
  import P = WorkerPool
  import Checker

  // ---------------------------------------------------------------- state

  /** Where runTarget is: before its first check, inside Check, about to create its ticker, in its select, gone. */
  datatype LoopPhase =
    | Fresh
    | Checking(call: nat, first: bool)
    | Arming
    | Selecting
    | Gone

  /** tick is the one-slot channel of the generation's ticker. */
  datatype Loop = Loop(phase: LoopPhase, tick: bool)

  /** Where Scheduler.Start is: in List, in one of reconcile's two loops, in its select, or in its deferred part.
      Starting lies between the two halves of a restart. */
  datatype SchedulerPhase =
    | InList
    | Visiting(list: seq<Target>, at: nat)
    | Starting(list: seq<Target>, at: nat)
    | Pruning(list: seq<Target>, pending: set<string>)
    | Looping
    | Cancelling(pending: set<string>)
    | Joining
    | Stopped

  /** Where main is after it has launched everything. */
  datatype MainPhase =
    | Serving
    | ShuttingDown
    | Stopping
    | AwaitingScheduler
    | AwaitingPool
    | Closing
    | Closed

  datatype State = State(
    pool: P.State,
    owners: seq<nat>,           // the generation behind each call of the pool
    plan: Plan,
    loops: seq<Loop>,           // one per generation
    live: int,                  // the scheduler's wait group
    phase: SchedulerPhase,
    discovery: Option<bool>,    // the discovery ticker, once it exists, and its one-slot channel
    snapshot: seq<Target>,      // the most recent successful listing
    main: MainPhase,
    serverUp: bool,             // ListenAndServe has not returned
    serverFailed: bool,
    handlers: nat,              // requests in progress; they use the database
    drained: bool)              // Shutdown reported that no request was left

  function Init(limits: P.Limits): State {
    State(P.Init(limits), [], EMPTY_PLAN, [], 0, InList, None, [], Serving, true, false, 0, false)
  }

  /** The context of generation g is done. */
  predicate CtxDone(s: State, g: nat)
    requires g < |s.plan.gens|
  {
    s.plan.gens[g].cancelled || s.pool.done
  }

  // ---------------------------------------------------------------- steps

  /** Steps of one generation's goroutine, and of its ticker. */
  datatype LoopStep =
    | FirstCheck(g: nat)
    | TakeTick(g: nat)
    | EndCheck(g: nat, aborted: bool)
    | Arm(g: nat)
    | Tick(g: nat)
    | Leave(g: nat)

  /** Steps of the scheduler's goroutine, and of the discovery ticker. */
  datatype SchedulerStep =
    | Listed(list: seq<Target>)
    | ListFailed
    | VisitOne
    | StartOne
    | EndVisits
    | PruneOne(id: string)
    | EndPrune
    | DiscoveryTick
    | TakeDiscovery
    | SeeDone
    | CancelOne(id: string)
    | EndCancel
    | Join

  /** Steps of main, of the HTTP server, and of the operating system. */
  datatype MainStep =
    | Signal
    | ServerFail
    | Notice
    | ShutdownReturns(clean: bool)
    | StopRoot
    | SchedulerJoined
    | PoolJoined
    | CloseDatabase
    | Request
    | RequestDone

  /** PoolStep has the worker pool's steps, except for those that begin or end a check. */
  datatype Step =
    | PoolStep(p: P.Step)
    | OfLoop(l: LoopStep)
    | OfScheduler(c: SchedulerStep)
    | OfMain(m: MainStep)

  /** A check of t can end like this: with a result some exchange explains, or with a panic. */
  ghost predicate MayReport(t: Target, e: P.Execution) {
    e.Completed? ==> Checker.Genuine(t, e.result)
  }

  predicate OwnStep(p: P.Step) {
    !p.Begin? && !p.Take? && !p.Abort? && !p.Cancel?
  }

  function EndOf(c: nat, aborted: bool): P.Step { if aborted then P.Abort(c) else P.Take(c) }

  ghost predicate Sized(s: State) { InBounds(s.plan) && |s.loops| == |s.plan.gens| }

  ghost predicate PoolEnabled(s: State, p: P.Step) {
    OwnStep(p) && P.Enabled(s.pool, p)
    && (p.Finish? ==> MayReport(s.pool.calls[s.pool.workers[p.worker].call].target, p.execution))
  }

  ghost predicate LoopEnabled(s: State, l: LoopStep) {
    Sized(s) && l.g < |s.loops| &&
    match l
    case FirstCheck(g) => s.loops[g].phase.Fresh?
    case TakeTick(g) => s.loops[g].phase.Selecting? && s.loops[g].tick
    case EndCheck(g, aborted) =>
      s.loops[g].phase.Checking? && P.Enabled(s.pool, EndOf(s.loops[g].phase.call, aborted))
    case Arm(g) => s.loops[g].phase.Arming?
    case Tick(g) => s.loops[g].phase.Selecting? || (s.loops[g].phase.Checking? && !s.loops[g].phase.first)
    case Leave(g) => s.loops[g].phase.Selecting? && CtxDone(s, g)
  }

  ghost predicate SchedulerEnabled(s: State, c: SchedulerStep) {
    Sized(s) &&
    match c
    case Listed(_) => s.phase.InList?
    case ListFailed => s.phase.InList?
    case VisitOne => s.phase.Visiting? && s.phase.at < |s.phase.list|
    case StartOne => s.phase.Starting? && s.phase.at < |s.phase.list|
    case EndVisits => s.phase.Visiting? && s.phase.at == |s.phase.list|
    case PruneOne(id) => s.phase.Pruning? && id in s.phase.pending
    case EndPrune => s.phase.Pruning? && s.phase.pending == {}
    case DiscoveryTick => s.discovery.Some?
    case TakeDiscovery => s.phase.Looping? && s.discovery == Some(true)
    case SeeDone => s.phase.Looping? && s.pool.done
    case CancelOne(id) => s.phase.Cancelling? && id in s.phase.pending && id in s.plan.running
    case EndCancel => s.phase.Cancelling? && s.phase.pending == {}
    case Join => s.phase.Joining? && s.live == 0
  }

  /** A request can begin on a live connection until Shutdown has returned, also after the listener has failed. */
  predicate MainEnabled(s: State, m: MainStep) {
    match m
    case Signal => !s.pool.done
    case ServerFail => s.serverUp
    case Notice => s.main.Serving? && (s.pool.done || s.serverFailed)
    case ShutdownReturns(clean) => s.main.ShuttingDown? && (clean ==> s.handlers == 0)
    case StopRoot => s.main.Stopping?
    case SchedulerJoined => s.main.AwaitingScheduler? && s.phase.Stopped?
    case PoolJoined => s.main.AwaitingPool? && s.pool.startReturned
    case CloseDatabase => s.main.Closing?
    case Request => s.main.Serving? || s.main.ShuttingDown?
    case RequestDone => s.handlers > 0
  }

  ghost predicate Enabled(s: State, step: Step) {
    match step
    case PoolStep(p) => PoolEnabled(s, p)
    case OfLoop(l) => LoopEnabled(s, l)
    case OfScheduler(c) => SchedulerEnabled(s, c)
    case OfMain(m) => MainEnabled(s, m)
  }

  /** Submit is called by generation g. */
  function BeginCall(s: State, g: nat, first: bool): State
    requires g < |s.plan.gens| && g < |s.loops|
  {
    s.(pool := P.Next(s.pool, P.Begin(s.plan.gens[g].target, CtxDone(s, g))),
       owners := s.owners + [g],
       loops := s.loops[g := Loop(Checking(|s.pool.calls|, first), false)])
  }

  function CallsOf(s: State, g: nat): set<nat> { set c | 0 <= c < |s.owners| && s.owners[c] == g }

  /** Generation g's CancelFunc is called. */
  function CancelCalls(s: State, g: nat): P.State { P.Next(s.pool, P.Cancel(CallsOf(s, g), false)) }

  function StopIn(s: State, id: string): State
    requires InBounds(s.plan)
  {
    if id in s.plan.running then
      s.(plan := StopGen(s.plan, id), pool := CancelCalls(s, s.plan.running[id]))
    else s
  }

  function StartIn(s: State, t: Target): State
    requires InBounds(s.plan)
  {
    if t.interval <= 0 then s
    else s.(plan := StartGen(s.plan, t), loops := s.loops + [Loop(Fresh, false)], live := s.live + 1)
  }

  /** reconcile is over; after the first one the discovery ticker is created. */
  function EndPass(s: State): State {
    s.(phase := Looping, discovery := if s.discovery.None? then Some(false) else s.discovery)
  }

  /** The root context is the parent of every generation's. */
  function AllCalls(s: State): set<nat> { set c | 0 <= c < |s.owners| && s.owners[c] < |s.plan.gens| }

  function RootCancel(s: State): State {
    s.(pool := P.Next(s.pool, P.Cancel(AllCalls(s), true)))
  }

  function LoopNext(s: State, l: LoopStep): State
    requires LoopEnabled(s, l)
  {
    match l
    case FirstCheck(g) => BeginCall(s, g, true)
    case TakeTick(g) => BeginCall(s, g, false)
    case EndCheck(g, aborted) =>
      s.(pool := P.Next(s.pool, EndOf(s.loops[g].phase.call, aborted)),
         loops := s.loops[g := s.loops[g].(phase := if s.loops[g].phase.first then Arming else Selecting)])
    case Arm(g) => s.(loops := s.loops[g := s.loops[g].(phase := Selecting)])
    case Tick(g) => s.(loops := s.loops[g := s.loops[g].(tick := true)])
    case Leave(g) => s.(loops := s.loops[g := Loop(Gone, false)], live := s.live - 1)
  }

  function SchedulerNext(s: State, c: SchedulerStep): State
    requires SchedulerEnabled(s, c)
  {
    match c
    case Listed(list) => s.(phase := Visiting(list, 0), snapshot := list)
    case ListFailed => EndPass(s)
    case VisitOne =>
      var t := s.phase.list[s.phase.at];
      if !t.enabled then StopIn(s, t.id).(phase := Visiting(s.phase.list, s.phase.at + 1))
      else if t.id in s.plan.running && s.plan.gens[s.plan.running[t.id]].target == t then
        s.(phase := Visiting(s.phase.list, s.phase.at + 1))
      else StopIn(s, t.id).(phase := Starting(s.phase.list, s.phase.at))
    case StartOne => StartIn(s, s.phase.list[s.phase.at]).(phase := Visiting(s.phase.list, s.phase.at + 1))
    case EndVisits => s.(phase := Pruning(s.phase.list, s.plan.running.Keys))
    case PruneOne(id) =>
      (if id in Ids(s.phase.list) then s else StopIn(s, id)).(phase := Pruning(s.phase.list, s.phase.pending - {id}))
    case EndPrune => EndPass(s)
    case DiscoveryTick => s.(discovery := Some(true))
    case TakeDiscovery => s.(phase := InList, discovery := Some(false))
    case SeeDone => s.(phase := Cancelling(s.plan.running.Keys), discovery := None)
    case CancelOne(id) =>
      s.(plan := s.plan.(gens := StopGen(s.plan, id).gens),
         pool := CancelCalls(s, s.plan.running[id]),
         phase := Cancelling(s.phase.pending - {id}))
    case EndCancel => s.(phase := Joining)
    case Join => s.(phase := Stopped)
  }

  function MainNext(s: State, m: MainStep): State
    requires MainEnabled(s, m)
  {
    match m
    case Signal => RootCancel(s)
    case ServerFail => s.(serverUp := false, serverFailed := true)
    case Notice => s.(main := ShuttingDown, serverUp := false)
    case ShutdownReturns(clean) => s.(main := Stopping, drained := clean)
    case StopRoot => RootCancel(s).(main := AwaitingScheduler)
    case SchedulerJoined => s.(main := AwaitingPool)
    case PoolJoined => s.(main := Closing)
    case CloseDatabase => s.(main := Closed)
    case Request => s.(handlers := s.handlers + 1)
    case RequestDone => s.(handlers := s.handlers - 1)
  }

  function Next(s: State, step: Step): State
    requires Enabled(s, step)
  {
    match step
    case PoolStep(p) => s.(pool := P.Next(s.pool, p))
    case OfLoop(l) => LoopNext(s, l)
    case OfScheduler(c) => SchedulerNext(s, c)
    case OfMain(m) => MainNext(s, m)
  }

  ghost predicate ValidRun(s: State, steps: seq<Step>)
    decreases |steps|
  {
    steps != [] ==> Enabled(s, steps[0]) && ValidRun(Next(s, steps[0]), steps[1..])
  }

  ghost function After(s: State, steps: seq<Step>): State
    requires ValidRun(s, steps)
    decreases |steps|
  {
    if steps == [] then s else After(Next(s, steps[0]), steps[1..])
  }
}
