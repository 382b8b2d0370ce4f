/**
 What a state tells about the run that led to it: counts of steps, ticks that wait, what has been asked for. None of
 these laws speaks of how a step is computed.
 */
module History {
  import opened Wrappers
  import opened Monitor
  import opened MonitorInvariant
  import opened MonitorProperties
  import Frames
  import Refinement
  import P = WorkerPool

  /** How often step x occurs. */
  function Times(x: Step, steps: seq<Step>): nat {
    if steps == [] then 0 else (if steps[0] == x then 1 else 0) + Times(x, steps[1..])
  }

  /** None of these steps occurs. */
  ghost predicate Without(steps: seq<Step>, these: set<Step>) {
    forall i :: 0 <= i < |steps| ==> steps[i] !in these
  }

  /** mark occurs, and none of the steps that spend it comes later. */
  ghost predicate Unspent(steps: seq<Step>, mark: Step, spends: set<Step>) {
    exists i :: UnspentAt(steps, mark, spends, i)
  }

  ghost predicate UnspentAt(steps: seq<Step>, mark: Step, spends: set<Step>, i: int) {
    0 <= i < |steps| && steps[i] == mark && Without(steps[i + 1..], spends)
  }

  lemma WithoutFirst(steps: seq<Step>, these: set<Step>)
    requires steps != []
    ensures Without(steps, these) <==> steps[0] !in these && Without(steps[1..], these)
  {
    if steps[0] !in these && Without(steps[1..], these) {
      forall i | 0 <= i < |steps| ensures steps[i] !in these {
        assert i > 0 ==> steps[i] == steps[1..][i - 1];
      }
    }
  }

  lemma UnspentFirst(steps: seq<Step>, mark: Step, spends: set<Step>)
    requires steps != []
    ensures Unspent(steps, mark, spends) <==>
              Unspent(steps[1..], mark, spends) || (steps[0] == mark && Without(steps[1..], spends))
  {
    var rest := steps[1..];
    if i :| UnspentAt(rest, mark, spends, i) {
      assert steps[i + 2..] == rest[i + 1..];
      assert UnspentAt(steps, mark, spends, i + 1);
    }
    if steps[0] == mark && Without(rest, spends) {
      assert UnspentAt(steps, mark, spends, 0);
    }
    if i :| UnspentAt(steps, mark, spends, i) && i > 0 {
      assert rest[i..] == steps[i + 1..];
      assert UnspentAt(rest, mark, spends, i - 1);
    }
  }

  // ---------------------------------------------------------------- ticks

  predicate TickWaits(s: State, g: nat) { g < |s.loops| && s.loops[g].tick }

  function Spending(g: nat): set<Step> { {OfLoop(TakeTick(g)), OfLoop(Leave(g))} }

  lemma TickStep(s: State, step: Step, g: nat)
    requires Inv(s) && Enabled(s, step)
    ensures TickWaits(Next(s, step), g) <==>
              step == OfLoop(Tick(g)) || (TickWaits(s, g) && step !in Spending(g))
  {
    match step {
      case PoolStep(p) => Frames.PoolFrame(s, p);
      case OfLoop(l) => TickLoopStep(s, l, g);
      case OfScheduler(c) => Frames.SchedulerFrame(s, c);
      case OfMain(m) => Frames.MainFrame(s, m);
    }
  }

  lemma TickLoopStep(s: State, l: LoopStep, g: nat)
    requires Inv(s) && LoopEnabled(s, l)
    ensures TickWaits(LoopNext(s, l), g) <==>
              l == Tick(g) || (TickWaits(s, g) && OfLoop(l) !in Spending(g))
  {
    Frames.LoopFrame(s, l);
  }

  lemma {:induction false} TickRun(s: State, steps: seq<Step>, g: nat)
    requires Inv(s) && ValidRun(s, steps)
    ensures TickWaits(After(s, steps), g) <==>
              || Unspent(steps, OfLoop(Tick(g)), Spending(g))
              || (TickWaits(s, g) && Without(steps, Spending(g)))
    decreases |steps|
  {
    if steps != [] {
      StepInv(s, steps[0]);
      TickStep(s, steps[0], g);
      TickRun(Next(s, steps[0]), steps[1..], g);
      UnspentFirst(steps, OfLoop(Tick(g)), Spending(g));
      WithoutFirst(steps, Spending(g));
    }
  }

  /** A tick of a generation's ticker waits, through any check that is in progress, until the generation takes it or
      leaves; nothing else waits in its channel. */
  lemma TickWaitsIff(limits: P.Limits, steps: seq<Step>, g: nat)
    requires Reachable(limits, steps)
    ensures TickWaits(At(limits, steps), g) <==> Unspent(steps, OfLoop(Tick(g)), Spending(g))
  {
    InitInv(limits);
    TickRun(Init(limits), steps, g);
  }

  const DISCOVERY_ENDS := {OfScheduler(TakeDiscovery), OfScheduler(SeeDone)}

  predicate DiscoveryWaits(s: State) { s.discovery == Some(true) }

  lemma DiscoveryStep(s: State, step: Step)
    requires Enabled(s, step)
    ensures DiscoveryWaits(Next(s, step)) <==>
              step == OfScheduler(DiscoveryTick) || (DiscoveryWaits(s) && step !in DISCOVERY_ENDS)
    ensures s.discovery.Some? && step != OfScheduler(SeeDone) ==> Next(s, step).discovery.Some?
  {
    match step {
      case PoolStep(p) => Frames.PoolFrame(s, p);
      case OfLoop(l) => Frames.LoopFrame(s, l);
      case OfScheduler(c) => DiscoverySchedulerStep(s, c);
      case OfMain(m) => Frames.MainFrame(s, m);
    }
  }

  lemma DiscoverySchedulerStep(s: State, c: SchedulerStep)
    requires SchedulerEnabled(s, c)
    ensures DiscoveryWaits(SchedulerNext(s, c)) <==>
              c == DiscoveryTick || (DiscoveryWaits(s) && OfScheduler(c) !in DISCOVERY_ENDS)
    ensures s.discovery.Some? && c != SeeDone ==> SchedulerNext(s, c).discovery.Some?
  {
  }

  lemma {:induction false} DiscoveryRun(s: State, steps: seq<Step>)
    requires ValidRun(s, steps)
    ensures DiscoveryWaits(After(s, steps)) <==>
              || Unspent(steps, OfScheduler(DiscoveryTick), DISCOVERY_ENDS)
              || (DiscoveryWaits(s) && Without(steps, DISCOVERY_ENDS))
    ensures s.discovery.Some? && OfScheduler(SeeDone) !in steps ==> After(s, steps).discovery.Some?
    decreases |steps|
  {
    if steps != [] {
      DiscoveryStep(s, steps[0]);
      DiscoveryRun(Next(s, steps[0]), steps[1..]);
      UnspentFirst(steps, OfScheduler(DiscoveryTick), DISCOVERY_ENDS);
      WithoutFirst(steps, DISCOVERY_ENDS);
    }
  }

  /** The scheduler's select has its ticker for as long as it goes on, and a discovery tick waits, through any pass
      that is in progress, until the select takes it or sees that the context is done. */
  lemma DiscoveryWaitsIff(limits: P.Limits, steps: seq<Step>)
    requires Reachable(limits, steps)
    ensures DiscoveryWaits(At(limits, steps)) <==> Unspent(steps, OfScheduler(DiscoveryTick), DISCOVERY_ENDS)
    ensures At(limits, steps).phase.Looping? ==> At(limits, steps).discovery.Some?
  {
    AtInv(limits, steps);
    DiscoveryRun(Init(limits), steps);
  }

  /** Start has left its loop. */
  predicate Deferred(phase: SchedulerPhase) {
    phase.Cancelling? || phase.Joining? || phase.Stopped?
  }

  predicate EndsPass(step: Step) { step == OfScheduler(ListFailed) || step == OfScheduler(EndPrune) }

  lemma ExistsStep(s: State, step: Step)
    requires Enabled(s, step)
    ensures Deferred(Next(s, step).phase) <==> Deferred(s.phase) || step == OfScheduler(SeeDone)
    ensures Deferred(s.phase) ==> !EndsPass(step)
    ensures Next(s, step).discovery.Some? <==>
              EndsPass(step) || (s.discovery.Some? && step != OfScheduler(SeeDone))
  {
    match step {
      case PoolStep(p) => Frames.PoolFrame(s, p);
      case OfLoop(l) => Frames.LoopFrame(s, l);
      case OfScheduler(c) => ExistsSchedulerStep(s, c);
      case OfMain(m) => Frames.MainFrame(s, m);
    }
  }

  lemma ExistsSchedulerStep(s: State, c: SchedulerStep)
    requires SchedulerEnabled(s, c)
    ensures Deferred(SchedulerNext(s, c).phase) <==> Deferred(s.phase) || c == SeeDone
    ensures Deferred(s.phase) ==> !EndsPass(OfScheduler(c))
    ensures SchedulerNext(s, c).discovery.Some? <==> EndsPass(OfScheduler(c)) || (s.discovery.Some? && c != SeeDone)
  {
  }

  ghost predicate PassEnded(steps: seq<Step>) { exists i :: 0 <= i < |steps| && EndsPass(steps[i]) }

  lemma PassEndedFirst(steps: seq<Step>)
    requires steps != []
    ensures PassEnded(steps) <==> EndsPass(steps[0]) || PassEnded(steps[1..])
  {
    if i :| 0 <= i < |steps[1..]| && EndsPass(steps[1..][i]) {
      assert EndsPass(steps[i + 1]);
    }
    if i :| 0 <= i < |steps| && EndsPass(steps[i]) && i > 0 {
      assert EndsPass(steps[1..][i - 1]);
    }
  }

  lemma {:induction false} ExistsRun(s: State, steps: seq<Step>)
    requires ValidRun(s, steps) && !(s.discovery.Some? && Deferred(s.phase))
    ensures After(s, steps).discovery.Some? <==>
              (s.discovery.Some? || PassEnded(steps)) && !Deferred(s.phase) && OfScheduler(SeeDone) !in steps
    decreases |steps|
  {
    if steps != [] {
      ExistsStep(s, steps[0]);
      ExistsRun(Next(s, steps[0]), steps[1..]);
      PassEndedFirst(steps);
      assert steps == [steps[0]] + steps[1..];
    }
  }

  /** A discovery tick can fire exactly from the end of the first pass, successful or not, until the select sees the
      end of the context. */
  lemma DiscoveryRunsIff(limits: P.Limits, steps: seq<Step>)
    requires Reachable(limits, steps)
    ensures Enabled(At(limits, steps), OfScheduler(DiscoveryTick)) <==>
              PassEnded(steps) && OfScheduler(SeeDone) !in steps
  {
    AtInv(limits, steps);
    ExistsRun(Init(limits), steps);
  }

  /** Once the discovery ticker exists it goes on existing until the select sees the end of the context. */
  lemma DiscoveryTickerStays(s: State, steps: seq<Step>)
    requires ValidRun(s, steps) && s.discovery.Some? && OfScheduler(SeeDone) !in steps
    ensures After(s, steps).discovery.Some?
  {
    DiscoveryRun(s, steps);
  }

  // ---------------------------------------------------------------- one pass per tick

  function One(b: bool): nat { if b then 1 else 0 }

  lemma PassStep(s: State, step: Step)
    requires Enabled(s, step)
    ensures |Refinement.Answer(step)| + One(Next(s, step).phase.InList?)
            == One(s.phase.InList?) + One(step == OfScheduler(TakeDiscovery))
    ensures One(step == OfScheduler(TakeDiscovery)) + One(DiscoveryWaits(Next(s, step)))
            <= One(step == OfScheduler(DiscoveryTick)) + One(DiscoveryWaits(s))
  {
    DiscoveryStep(s, step);
    match step {
      case PoolStep(p) => Frames.PoolFrame(s, p);
      case OfLoop(l) => Frames.LoopFrame(s, l);
      case OfScheduler(c) => PassSchedulerStep(s, c);
      case OfMain(m) => Frames.MainFrame(s, m);
    }
  }

  lemma PassSchedulerStep(s: State, c: SchedulerStep)
    requires SchedulerEnabled(s, c)
    ensures |Refinement.Answer(OfScheduler(c))| + One(SchedulerNext(s, c).phase.InList?)
            == One(s.phase.InList?) + One(c == TakeDiscovery)
  {
  }

  lemma {:induction false} PassRun(s: State, steps: seq<Step>)
    requires ValidRun(s, steps)
    ensures |Refinement.Listings(steps)| + One(After(s, steps).phase.InList?)
            == One(s.phase.InList?) + Times(OfScheduler(TakeDiscovery), steps)
    ensures Times(OfScheduler(TakeDiscovery), steps) + One(DiscoveryWaits(After(s, steps)))
            <= Times(OfScheduler(DiscoveryTick), steps) + One(DiscoveryWaits(s))
    decreases |steps|
  {
    if steps != [] {
      PassStep(s, steps[0]);
      PassRun(Next(s, steps[0]), steps[1..]);
    }
  }

  /** The scheduler lists once at once and once per discovery tick that it takes, and takes no more than have fired. */
  lemma OneListingPerTick(limits: P.Limits, steps: seq<Step>)
    requires Reachable(limits, steps)
    ensures |Refinement.Listings(steps)| + One(At(limits, steps).phase.InList?)
            == 1 + Times(OfScheduler(TakeDiscovery), steps)
    ensures Times(OfScheduler(TakeDiscovery), steps) + One(DiscoveryWaits(At(limits, steps)))
            <= Times(OfScheduler(DiscoveryTick), steps)
  {
    PassRun(Init(limits), steps);
  }

  // ---------------------------------------------------------------- one check per tick

  /** How many calls generation g has made. */
  function Made(owners: seq<nat>, g: nat): nat {
    if owners == [] then 0 else Made(owners[..|owners| - 1], g) + One(owners[|owners| - 1] == g)
  }

  lemma MadeOneMore(owners: seq<nat>, h: nat, g: nat)
    ensures Made(owners + [h], g) == Made(owners, g) + One(h == g)
  {
    assert (owners + [h])[..|owners|] == owners;
  }

  /** Generation g has begun its first check. */
  predicate HasBegun(s: State, g: nat) { g < |s.loops| && !s.loops[g].phase.Fresh? }

  /** The steps of a run that begin a check of g. */
  function Begins(step: Step, g: nat): nat { One(step == OfLoop(FirstCheck(g))) + One(step == OfLoop(TakeTick(g))) }

  lemma CheckStep(s: State, step: Step, g: nat)
    requires Inv(s) && Enabled(s, step)
    ensures Made(Next(s, step).owners, g) == Made(s.owners, g) + Begins(step, g)
    ensures One(HasBegun(Next(s, step), g)) == One(HasBegun(s, g)) + One(step == OfLoop(FirstCheck(g)))
    ensures One(step == OfLoop(TakeTick(g))) + One(TickWaits(Next(s, step), g))
            <= One(step == OfLoop(Tick(g))) + One(TickWaits(s, g))
  {
    TickStep(s, step, g);
    match step {
      case PoolStep(p) => Frames.PoolFrame(s, p);
      case OfLoop(l) => CheckLoopStep(s, l, g);
      case OfScheduler(c) => Frames.SchedulerFrame(s, c);
      case OfMain(m) => Frames.MainFrame(s, m);
    }
  }

  lemma CheckLoopStep(s: State, l: LoopStep, g: nat)
    requires LoopEnabled(s, l)
    ensures Made(LoopNext(s, l).owners, g) == Made(s.owners, g) + Begins(OfLoop(l), g)
    ensures One(HasBegun(LoopNext(s, l), g)) == One(HasBegun(s, g)) + One(l == FirstCheck(g))
    ensures l == TakeTick(g) ==> TickWaits(s, g)
  {
    Frames.LoopFrame(s, l);
    MadeOneMore(s.owners, l.g, g);
  }

  lemma {:induction false} CheckRun(s: State, steps: seq<Step>, g: nat)
    requires Inv(s) && ValidRun(s, steps)
    ensures Made(After(s, steps).owners, g)
            == Made(s.owners, g) + Times(OfLoop(FirstCheck(g)), steps) + Times(OfLoop(TakeTick(g)), steps)
    ensures One(HasBegun(After(s, steps), g)) == One(HasBegun(s, g)) + Times(OfLoop(FirstCheck(g)), steps)
    ensures Times(OfLoop(TakeTick(g)), steps) + One(TickWaits(After(s, steps), g))
            <= Times(OfLoop(Tick(g)), steps) + One(TickWaits(s, g))
    decreases |steps|
  {
    if steps != [] {
      StepInv(s, steps[0]);
      CheckStep(s, steps[0], g);
      CheckRun(Next(s, steps[0]), steps[1..], g);
    }
  }

  /** A generation checks once at once, exactly one time, and then once per tick that it takes, and takes no more than
      have fired. */
  lemma OneCheckPerTick(limits: P.Limits, steps: seq<Step>, g: nat)
    requires Reachable(limits, steps)
    ensures var s := At(limits, steps);
      && Made(s.owners, g) == One(HasBegun(s, g)) + Times(OfLoop(TakeTick(g)), steps)
      && Times(OfLoop(FirstCheck(g)), steps) == One(HasBegun(s, g))
      && Times(OfLoop(TakeTick(g)), steps) + One(TickWaits(s, g)) <= Times(OfLoop(Tick(g)), steps)
  {
    InitInv(limits);
    CheckRun(Init(limits), steps, g);
  }

  // ---------------------------------------------------------------- main and the server

  /** drained can only be set by a Shutdown that left no request. */
  lemma ServerStep(s: State, step: Step)
    requires Inv(s) && Enabled(s, step)
    ensures Next(s, step).handlers + One(step == OfMain(RequestDone)) == s.handlers + One(step == OfMain(Request))
    ensures Next(s, step).drained <==> s.drained || step == OfMain(ShutdownReturns(true))
    ensures Next(s, step).serverFailed <==> s.serverFailed || step == OfMain(ServerFail)
    ensures Next(s, step).serverUp <==> s.serverUp && step != OfMain(ServerFail) && step != OfMain(Notice)
    ensures Next(s, step).pool.done <==> s.pool.done || step == OfMain(Signal) || step == OfMain(StopRoot)
  {
    match step {
      case PoolStep(p) => Frames.PoolFrame(s, p);
      case OfLoop(l) => Frames.LoopFrame(s, l);
      case OfScheduler(c) => Frames.SchedulerFrame(s, c);
      case OfMain(m) => ServerMainStep(s, m);
    }
  }

  lemma ServerMainStep(s: State, m: MainStep)
    requires Inv(s) && MainEnabled(s, m)
    ensures MainNext(s, m).handlers + One(m == RequestDone) == s.handlers + One(m == Request)
    ensures MainNext(s, m).drained <==> s.drained || m == ShutdownReturns(true)
    ensures MainNext(s, m).serverFailed <==> s.serverFailed || m == ServerFail
    ensures MainNext(s, m).serverUp <==> s.serverUp && m != ServerFail && m != Notice
    ensures MainNext(s, m).pool.done <==> s.pool.done || m == Signal || m == StopRoot
  {
  }

  lemma {:induction false} ServerRun(s: State, steps: seq<Step>)
    requires Inv(s) && ValidRun(s, steps)
    ensures var t := After(s, steps);
      && t.handlers + Times(OfMain(RequestDone), steps) == s.handlers + Times(OfMain(Request), steps)
      && (t.drained <==> s.drained || OfMain(ShutdownReturns(true)) in steps)
      && (t.serverFailed <==> s.serverFailed || OfMain(ServerFail) in steps)
      && (t.serverUp <==> s.serverUp && OfMain(ServerFail) !in steps && OfMain(Notice) !in steps)
      && (t.pool.done <==> s.pool.done || OfMain(Signal) in steps || OfMain(StopRoot) in steps)
    decreases |steps|
  {
    if steps != [] {
      StepInv(s, steps[0]);
      ServerStep(s, steps[0]);
      ServerRun(Next(s, steps[0]), steps[1..]);
      assert steps == [steps[0]] + steps[1..];
    }
  }

  /** In every run: the requests in progress are those begun and not ended; the server counts as drained exactly if
      Shutdown returned cleanly, and as failed exactly if its listener did; and the root context is done exactly if a
      signal came or main has called stop. */
  lemma MainRemembers(limits: P.Limits, steps: seq<Step>)
    requires Reachable(limits, steps)
    ensures var s := At(limits, steps);
      && s.handlers + Times(OfMain(RequestDone), steps) == Times(OfMain(Request), steps)
      && (s.drained <==> OfMain(ShutdownReturns(true)) in steps)
      && (s.serverFailed <==> OfMain(ServerFail) in steps)
      && (s.serverUp <==> OfMain(ServerFail) !in steps && OfMain(Notice) !in steps)
      && (s.pool.done <==> OfMain(Signal) in steps || OfMain(StopRoot) in steps)
      && (Enabled(s, OfMain(Signal)) <==> OfMain(Signal) !in steps && OfMain(StopRoot) !in steps)
      && (Enabled(s, OfMain(ServerFail)) <==> OfMain(ServerFail) !in steps && OfMain(Notice) !in steps)
      && (Enabled(s, OfMain(RequestDone)) <==> Times(OfMain(RequestDone), steps) < Times(OfMain(Request), steps))
  {
    InitInv(limits);
    ServerRun(Init(limits), steps);
  }

  /** The place of a step in main's shutdown; 0 for what is no part of it. */
  function Place(step: Step): nat {
    match step
    case OfMain(Notice) => 1
    case OfMain(ShutdownReturns(_)) => 2
    case OfMain(StopRoot) => 3
    case OfMain(SchedulerJoined) => 4
    case OfMain(PoolJoined) => 5
    case OfMain(CloseDatabase) => 6
    case _ => 0
  }

  function Places(steps: seq<Step>): seq<nat> {
    if steps == [] then [] else (if Place(steps[0]) > 0 then [Place(steps[0])] else []) + Places(steps[1..])
  }

  function Reached(m: MainPhase): nat {
    match m
    case Serving => 0
    case ShuttingDown => 1
    case Stopping => 2
    case AwaitingScheduler => 3
    case AwaitingPool => 4
    case Closing => 5
    case Closed => 6
  }

  function FromTo(first: nat, last: nat): seq<nat>
    decreases last - first
  {
    if first < last then [first + 1] + FromTo(first + 1, last) else []
  }

  lemma PlaceStep(s: State, step: Step)
    requires Enabled(s, step)
    ensures if Place(step) > 0 then Reached(Next(s, step).main) == Reached(s.main) + 1 == Place(step)
            else Reached(Next(s, step).main) == Reached(s.main)
  {
    match step {
      case PoolStep(p) => Frames.PoolFrame(s, p);
      case OfLoop(l) => Frames.LoopFrame(s, l);
      case OfScheduler(c) => Frames.SchedulerFrame(s, c);
      case OfMain(_) =>
    }
  }

  lemma {:induction false} PlaceRun(s: State, steps: seq<Step>)
    requires ValidRun(s, steps)
    ensures Reached(s.main) <= Reached(After(s, steps).main)
    ensures Places(steps) == FromTo(Reached(s.main), Reached(After(s, steps).main))
    decreases |steps|
  {
    if steps != [] {
      PlaceStep(s, steps[0]);
      PlaceRun(Next(s, steps[0]), steps[1..]);
    }
  }

  /** In every run main goes through its shutdown once and in one order: it notices a reason, Shutdown returns, stop is
      called, the scheduler is awaited, then the pool, and the database is closed last. */
  lemma MainInOrder(limits: P.Limits, steps: seq<Step>)
    requires Reachable(limits, steps)
    ensures Places(steps) <= [1, 2, 3, 4, 5, 6]
    ensures At(limits, steps).main.Closed? <==> OfMain(CloseDatabase) in steps
    ensures At(limits, steps).main.Serving? <==> OfMain(Notice) !in steps
    ensures Enabled(At(limits, steps), OfMain(Request)) <==> 2 !in Places(steps)
  {
    PlaceRun(Init(limits), steps);
    var n := Reached(At(limits, steps).main);
    FirstPlaces(n);
    PlacesTell(steps, OfMain(CloseDatabase));
    PlacesTell(steps, OfMain(Notice));
  }

  lemma FirstPlaces(n: nat)
    requires n <= 6
    ensures FromTo(0, n) == [1, 2, 3, 4, 5, 6][..n]
    ensures 2 in FromTo(0, n) <==> n >= 2
  {
    FromToIs(0, n);
    assert n >= 2 ==> FromTo(0, n)[1] == 2;
  }

  lemma {:induction false} FromToIs(first: nat, last: nat)
    requires first <= last
    ensures |FromTo(first, last)| == last - first
    ensures forall i :: 0 <= i < last - first ==> FromTo(first, last)[i] == first + 1 + i
    decreases last - first
  {
    if first < last {
      FromToIs(first + 1, last);
    }
  }

  lemma {:induction false} PlacesTell(steps: seq<Step>, x: Step)
    requires x == OfMain(CloseDatabase) || x == OfMain(Notice)
    ensures Place(x) in Places(steps) <==> x in steps
  {
    if steps != [] {
      PlacesTell(steps[1..], x);
      assert steps == [steps[0]] + steps[1..];
    }
  }

  // ---------------------------------------------------------------- when the tickers run

  /** The ticker of generation g exists. */
  predicate Ticking(s: State, g: nat) {
    g < |s.loops| && (s.loops[g].phase.Selecting? || (s.loops[g].phase.Checking? && !s.loops[g].phase.first))
  }

  predicate HasLeft(s: State, g: nat) { g < |s.loops| && s.loops[g].phase.Gone? }

  lemma TickingStep(s: State, step: Step, g: nat)
    requires Enabled(s, step)
    ensures Ticking(Next(s, step), g) <==> step == OfLoop(Arm(g)) || (Ticking(s, g) && step != OfLoop(Leave(g)))
    ensures HasLeft(Next(s, step), g) <==> HasLeft(s, g) || step == OfLoop(Leave(g))
    ensures HasLeft(s, g) ==> step != OfLoop(Arm(g))
  {
    match step {
      case PoolStep(p) => Frames.PoolFrame(s, p);
      case OfLoop(l) => TickingLoopStep(s, l, g);
      case OfScheduler(c) => Frames.SchedulerFrame(s, c);
      case OfMain(m) => Frames.MainFrame(s, m);
    }
  }

  lemma TickingLoopStep(s: State, l: LoopStep, g: nat)
    requires LoopEnabled(s, l)
    ensures Ticking(LoopNext(s, l), g) <==> l == Arm(g) || (Ticking(s, g) && l != Leave(g))
    ensures HasLeft(LoopNext(s, l), g) <==> HasLeft(s, g) || l == Leave(g)
    ensures HasLeft(s, g) ==> l != Arm(g)
  {
    Frames.LoopFrame(s, l);
  }

  lemma {:induction false} TickingRun(s: State, steps: seq<Step>, g: nat)
    requires ValidRun(s, steps) && !(Ticking(s, g) && HasLeft(s, g))
    ensures HasLeft(After(s, steps), g) <==> HasLeft(s, g) || OfLoop(Leave(g)) in steps
    ensures Ticking(After(s, steps), g) <==>
              (Ticking(s, g) || OfLoop(Arm(g)) in steps) && !HasLeft(s, g) && OfLoop(Leave(g)) !in steps
    decreases |steps|
  {
    if steps != [] {
      TickingStep(s, steps[0], g);
      TickingRun(Next(s, steps[0]), steps[1..], g);
      assert steps == [steps[0]] + steps[1..];
    }
  }

  /** A generation's ticker can fire exactly from its creation, which follows the first check, until the generation
      leaves, also while a check is in progress. */
  lemma TickerRunsIff(limits: P.Limits, steps: seq<Step>, g: nat)
    requires Reachable(limits, steps)
    ensures Enabled(At(limits, steps), OfLoop(Tick(g))) <==> OfLoop(Arm(g)) in steps && OfLoop(Leave(g)) !in steps
    ensures OfLoop(Arm(g)) in steps ==> OfLoop(EndCheck(g, false)) in steps || OfLoop(EndCheck(g, true)) in steps
  {
    AtInv(limits, steps);
    TickingRun(Init(limits), steps, g);
    if OfLoop(Arm(g)) in steps {
      ArmRun(Init(limits), steps, g);
    }
  }

  predicate Arming(s: State, g: nat) { g < |s.loops| && s.loops[g].phase.Arming? }

  lemma ArmStep(s: State, step: Step, g: nat)
    requires Enabled(s, step)
    ensures Arming(Next(s, step), g) ==>
              Arming(s, g) || step == OfLoop(EndCheck(g, false)) || step == OfLoop(EndCheck(g, true))
    ensures step == OfLoop(Arm(g)) ==> Arming(s, g)
  {
    match step {
      case PoolStep(p) => Frames.PoolFrame(s, p);
      case OfLoop(l) => Frames.LoopFrame(s, l);
      case OfScheduler(c) => Frames.SchedulerFrame(s, c);
      case OfMain(m) => Frames.MainFrame(s, m);
    }
  }

  lemma {:induction false} ArmRun(s: State, steps: seq<Step>, g: nat)
    requires ValidRun(s, steps) && OfLoop(Arm(g)) in steps
    ensures Arming(s, g) || OfLoop(EndCheck(g, false)) in steps || OfLoop(EndCheck(g, true)) in steps
    decreases |steps|
  {
    assert steps == [steps[0]] + steps[1..];
    ArmStep(s, steps[0], g);
    if steps[0] != OfLoop(Arm(g)) {
      ArmRun(Next(s, steps[0]), steps[1..], g);
    }
  }
}
