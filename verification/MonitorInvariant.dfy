/** What holds in every state of every run of the process. */
module MonitorInvariant {
  import opened Wrappers
  import opened Targets
  import opened Sums
  import opened Schedules
  import opened Monitor
  import P = WorkerPool

  /** Every call belongs to a generation; every generation has one loop. */
  ghost predicate Shape(calls: seq<P.Call>, owners: seq<nat>, plan: Plan, loops: seq<Loop>) {
    && |owners| == |calls| && |loops| == |plan.gens| && InBounds(plan)
    && (forall c :: 0 <= c < |owners| ==> owners[c] < |loops|)
  }

  /** A call is for its generation's target and runs under its generation's context. */
  ghost predicate OwnersOk(calls: seq<P.Call>, owners: seq<nat>, gens: seq<Generation>, done: bool) {
    forall c :: 0 <= c < |owners| && c < |calls| && owners[c] < |gens| ==>
      && calls[c].target == gens[owners[c]].target
      && (calls[c].ctxDone <==> gens[owners[c]].cancelled || done)
  }

  /** A call that has not returned is the one its generation is parked in. */
  ghost predicate ParkedOk(calls: seq<P.Call>, owners: seq<nat>, loops: seq<Loop>) {
    && (forall c :: 0 <= c < |owners| && c < |calls| && owners[c] < |loops| && !calls[c].phase.Returned? ==>
          loops[owners[c]].phase.Checking? && loops[owners[c]].phase.call == c)
    && (forall g :: 0 <= g < |loops| && loops[g].phase.Checking? ==> ParkedAt(calls, owners, g, loops[g].phase.call))
  }

  ghost predicate ParkedAt(calls: seq<P.Call>, owners: seq<nat>, g: nat, c: nat) {
    c < |owners| && c < |calls| && owners[c] == g && !calls[c].phase.Returned?
  }

  function Unexited(l: Loop): nat { if l.phase.Gone? then 0 else 1 }

  /** The wait group counts the generations that have not exited. */
  ghost predicate LiveOk(live: int, loops: seq<Loop>) { live == Sum(loops, Unexited) }

  /** Only generations whose context is done have exited. */
  ghost predicate GoneOk(loops: seq<Loop>, gens: seq<Generation>, done: bool) {
    forall g :: 0 <= g < |loops| && g < |gens| && loops[g].phase.Gone? ==> gens[g].cancelled || done
  }

  /** A tick waits only where a ticker exists. */
  ghost predicate TicksOk(loops: seq<Loop>) {
    forall g :: 0 <= g < |loops| && loops[g].tick ==>
      loops[g].phase.Selecting? || (loops[g].phase.Checking? && !loops[g].phase.first)
  }

  ghost predicate ReportsOk(calls: seq<P.Call>) {
    forall c :: 0 <= c < |calls| && |calls[c].job| >= 3 && calls[c].job[2].Finished? ==>
      MayReport(calls[c].target, calls[c].job[2].execution)
  }

  /** Agreement with a listing on every id but one. */
  ghost predicate AgreesBut(p: Plan, list: seq<Target>, but: string)
    requires InBounds(p)
  {
    forall id :: id in Ids(list) && id != but ==>
      && (id in p.running <==> Wanted(list, id))
      && (id in p.running ==> p.gens[p.running[id]].target == Last(list, id).value)
  }

  ghost predicate IdsMatch(p: Plan)
    requires InBounds(p)
  {
    forall id :: id in p.running ==> p.gens[p.running[id]].target.id == id
  }

  ghost predicate AllCancelled(gens: seq<Generation>) { forall g :: 0 <= g < |gens| ==> gens[g].cancelled }

  ghost predicate PlanOk(plan: Plan, phase: SchedulerPhase, snapshot: seq<Target>, done: bool)
    requires InBounds(plan)
  {
    Recorded(plan) &&
    match phase
    case InList | Looping => WellFormed(plan) && Scheduled(plan) == Desired(snapshot)
    case Visiting(list, at) =>
      WellFormed(plan) && at <= |list| && snapshot == list && Agrees(plan, list[..at])
    case Starting(list, at) =>
      && WellFormed(plan) && at < |list| && snapshot == list
      && AgreesBut(plan, list[..at], list[at].id) && list[at].enabled && list[at].id !in plan.running
    case Pruning(list, pending) =>
      && WellFormed(plan) && snapshot == list && Agrees(plan, list)
      && plan.running.Keys <= Ids(list) + pending
    case Cancelling(pending) =>
      && done && IdsMatch(plan) && pending <= plan.running.Keys
      && (forall g :: 0 <= g < |plan.gens| && !plan.gens[g].cancelled ==> plan.gens[g].target.id in pending)
    case Joining | Stopped => done && AllCancelled(plan.gens)
  }

  /** The select of Start has a discovery ticker; the deferred part has none, and ends when the wait group is empty. */
  ghost predicate DeferredOk(phase: SchedulerPhase, discovery: Option<bool>, live: int) {
    && (phase.Looping? ==> discovery.Some?)
    && (phase.Cancelling? || phase.Joining? || phase.Stopped? ==> discovery.None?)
    && (phase.Stopped? ==> live == 0)
  }

  predicate PastStop(m: MainPhase) { m.AwaitingScheduler? || PastScheduler(m) }

  predicate PastScheduler(m: MainPhase) { m.AwaitingPool? || PastPool(m) }

  predicate PastPool(m: MainPhase) { m.Closing? || m.Closed? }

  ghost predicate WaitsOk(m: MainPhase, done: bool, phase: SchedulerPhase, startReturned: bool) {
    && (PastStop(m) ==> done)
    && (PastScheduler(m) ==> phase.Stopped?)
    && (PastPool(m) ==> startReturned)
  }

  ghost predicate ServerOk(m: MainPhase, serverUp: bool, serverFailed: bool, handlers: nat, drained: bool) {
    && (!m.Serving? ==> !serverUp)
    && (drained ==> handlers == 0 && !serverUp)
    && (serverUp ==> !serverFailed)
    && (m.Serving? && !serverUp ==> serverFailed)
    && (m.Serving? || m.ShuttingDown? ==> !drained)
  }

  ghost predicate Inv(s: State) {
    && P.Inv(s.pool)
    && Shape(s.pool.calls, s.owners, s.plan, s.loops)
    && OwnersOk(s.pool.calls, s.owners, s.plan.gens, s.pool.done)
    && ParkedOk(s.pool.calls, s.owners, s.loops)
    && LiveOk(s.live, s.loops)
    && GoneOk(s.loops, s.plan.gens, s.pool.done)
    && TicksOk(s.loops)
    && ReportsOk(s.pool.calls)
    && PlanOk(s.plan, s.phase, s.snapshot, s.pool.done)
    && DeferredOk(s.phase, s.discovery, s.live)
    && WaitsOk(s.main, s.pool.done, s.phase, s.pool.startReturned)
    && ServerOk(s.main, s.serverUp, s.serverFailed, s.handlers, s.drained)
  }

  lemma InitInv(limits: P.Limits)
    requires limits.workers >= 1 && limits.capacity >= 1
    ensures Inv(Init(limits))
  {
    P.InitInv(limits);
    EmptyPlanOk();
    NothingYet(P.Init(limits).calls, [], []);
  }

  /** Without calls and generations the part of the invariant about them holds. */
  lemma NothingYet(calls: seq<P.Call>, owners: seq<nat>, loops: seq<Loop>)
    requires calls == [] && owners == [] && loops == []
    ensures Shape(calls, owners, EMPTY_PLAN, loops) && OwnersOk(calls, owners, EMPTY_PLAN.gens, false)
    ensures ParkedOk(calls, owners, loops) && LiveOk(0, loops) && GoneOk(loops, EMPTY_PLAN.gens, false)
    ensures TicksOk(loops) && ReportsOk(calls)
  {
  }

  lemma EmptyPlanOk()
    ensures InBounds(EMPTY_PLAN) && PlanOk(EMPTY_PLAN, InList, [], false)
  {
    assert Scheduled(EMPTY_PLAN) == map[] == Desired([]);
  }

  // ---------------------------------------------------------------- the pool's own steps

  /** A pool step of the workers or of Submit changes no call's target, context or whether it has returned. */
  lemma OwnStepFrame(s: P.State, p: P.Step)
    requires P.Inv(s) && P.Enabled(s, p) && OwnStep(p)
    ensures var s' := P.Next(s, p);
      && s'.done == s.done && |s'.calls| == |s.calls| && (s.startReturned ==> s'.startReturned)
      && forall c :: 0 <= c < |s.calls| ==>
           && s'.calls[c].target == s.calls[c].target && s'.calls[c].ctxDone == s.calls[c].ctxDone
           && (s'.calls[c].phase.Returned? <==> s.calls[c].phase.Returned?)
  {
  }

  lemma PoolReports(s: P.State, p: P.Step)
    requires P.Inv(s) && P.Enabled(s, p) && ReportsOk(s.calls)
    requires p.Finish? ==> MayReport(s.calls[s.workers[p.worker].call].target, p.execution)
    ensures ReportsOk(P.Next(s, p).calls)
  {
    if p.Finish? {
      FinishReports(s, p.worker, p.execution);
    } else {
      OtherReports(s, p);
    }
  }

  lemma FinishReports(s: P.State, w: nat, e: P.Execution)
    requires P.Inv(s) && P.Enabled(s, P.Finish(w, e)) && ReportsOk(s.calls)
    requires MayReport(s.calls[s.workers[w].call].target, e)
    ensures ReportsOk(P.Next(s, P.Finish(w, e)).calls)
  {
    assert P.HolderOk(s.calls, s.workers, s.done, w);
  }

  lemma OtherReports(s: P.State, p: P.Step)
    requires P.Inv(s) && P.Enabled(s, p) && ReportsOk(s.calls) && !p.Finish?
    ensures ReportsOk(P.Next(s, p).calls)
  {
    var s' := P.Next(s, p);
    if p.Deliver? {
      assert P.HolderOk(s.calls, s.workers, s.done, p.worker);
    }
    forall c | 0 <= c < |s'.calls| && |s'.calls[c].job| >= 3 && s'.calls[c].job[2].Finished?
      ensures MayReport(s'.calls[c].target, s'.calls[c].job[2].execution)
    {
      if c < |s.calls| {
        assert P.JobOk(s.calls[c]);
      }
    }
  }

  /** Calls that keep their target, their context and their return status keep their place. */
  lemma CallsFrame(calls: seq<P.Call>, calls': seq<P.Call>, owners: seq<nat>, loops: seq<Loop>, gens: seq<Generation>,
                   done: bool)
    requires OwnersOk(calls, owners, gens, done) && ParkedOk(calls, owners, loops) && |calls'| == |calls|
    requires forall c :: 0 <= c < |calls| ==>
               && calls'[c].target == calls[c].target && calls'[c].ctxDone == calls[c].ctxDone
               && (calls'[c].phase.Returned? <==> calls[c].phase.Returned?)
    ensures OwnersOk(calls', owners, gens, done) && ParkedOk(calls', owners, loops)
  {
    forall g | 0 <= g < |loops| && loops[g].phase.Checking? ensures ParkedAt(calls', owners, g, loops[g].phase.call) {
      assert ParkedAt(calls, owners, g, loops[g].phase.call);
    }
  }

  lemma PoolStepInv(s: State, p: P.Step)
    requires Inv(s) && PoolEnabled(s, p)
    ensures Inv(s.(pool := P.Next(s.pool, p)))
  {
    P.StepInv(s.pool, p);
    OwnStepFrame(s.pool, p);
    PoolReports(s.pool, p);
    CallsFrame(s.pool.calls, P.Next(s.pool, p).calls, s.owners, s.loops, s.plan.gens, s.pool.done);
  }

  // ---------------------------------------------------------------- generations

  lemma BeginParked(s: State, g: nat, first: bool)
    requires Inv(s) && g < |s.loops|
    requires s.loops[g].phase.Fresh? || s.loops[g].phase.Selecting?
    ensures var s' := BeginCall(s, g, first);
      ParkedOk(s'.pool.calls, s'.owners, s'.loops) && OwnersOk(s'.pool.calls, s'.owners, s'.plan.gens, s'.pool.done)
  {
  }

  lemma BeginInv(s: State, g: nat, first: bool)
    requires Inv(s) && g < |s.loops|
    requires s.loops[g].phase.Fresh? || s.loops[g].phase.Selecting?
    ensures Inv(BeginCall(s, g, first))
  {
    var s' := BeginCall(s, g, first);
    P.StepInv(s.pool, P.Begin(s.plan.gens[g].target, CtxDone(s, g)));
    BeginParked(s, g, first);
    SumUpdate(s.loops, g, s'.loops[g], Unexited);
  }

  /** A call returns and its generation moves on. */
  lemma ReturnParked(calls: seq<P.Call>, calls': seq<P.Call>, owners: seq<nat>, loops: seq<Loop>, g: nat, l: Loop)
    requires ParkedOk(calls, owners, loops) && |calls'| == |calls| == |owners|
    requires g < |loops| && loops[g].phase.Checking? && !l.phase.Checking?
    requires forall c :: 0 <= c < |calls| && c != loops[g].phase.call ==> calls'[c] == calls[c]
    requires loops[g].phase.call < |calls| && calls'[loops[g].phase.call].phase.Returned?
    ensures ParkedOk(calls', owners, loops[g := l])
  {
    forall h | 0 <= h < |loops| && h != g && loops[h].phase.Checking?
      ensures ParkedAt(calls', owners, h, loops[h].phase.call)
    {
      assert ParkedAt(calls, owners, g, loops[g].phase.call) && ParkedAt(calls, owners, h, loops[h].phase.call);
    }
  }

  lemma EndCheckParked(s: State, g: nat, aborted: bool)
    requires Inv(s) && LoopEnabled(s, EndCheck(g, aborted))
    ensures var s' := LoopNext(s, EndCheck(g, aborted));
      ParkedOk(s'.pool.calls, s'.owners, s'.loops) && OwnersOk(s'.pool.calls, s'.owners, s'.plan.gens, s'.pool.done)
  {
    var s' := LoopNext(s, EndCheck(g, aborted));
    ReturnParked(s.pool.calls, s'.pool.calls, s.owners, s.loops, g, s'.loops[g]);
  }

  lemma EndCheckPool(s: State, p: P.Step)
    requires Inv(s) && P.Enabled(s.pool, p) && (p.Take? || p.Abort?)
    ensures var q := P.Next(s.pool, p);
      && P.Inv(q) && ReportsOk(q.calls) && |q.calls| == |s.pool.calls|
      && q.done == s.pool.done && q.startReturned == s.pool.startReturned
  {
    P.StepInv(s.pool, p);
    PoolReports(s.pool, p);
  }

  lemma EndCheckInv(s: State, g: nat, aborted: bool)
    requires Inv(s) && LoopEnabled(s, EndCheck(g, aborted))
    ensures Inv(LoopNext(s, EndCheck(g, aborted)))
  {
    EndCheckPool(s, EndOf(s.loops[g].phase.call, aborted));
    EndCheckParked(s, g, aborted);
    EndCheckLoops(s.loops, s.live, s.plan.gens, s.pool.done, g, LoopNext(s, EndCheck(g, aborted)).loops[g]);
  }

  lemma EndCheckLoops(loops: seq<Loop>, live: int, gens: seq<Generation>, done: bool, g: nat, l: Loop)
    requires LiveOk(live, loops) && GoneOk(loops, gens, done) && TicksOk(loops)
    requires g < |loops| && loops[g].phase.Checking?
    requires l == loops[g].(phase := if loops[g].phase.first then Arming else Selecting)
    ensures LiveOk(live, loops[g := l]) && GoneOk(loops[g := l], gens, done) && TicksOk(loops[g := l])
  {
    SumUpdate(loops, g, l, Unexited);
  }

  /** A generation outside Check moves on without touching the pool. */
  lemma LoopMoves(s: State, g: nat, l: Loop)
    requires Inv(s) && g < |s.loops|
    requires l.phase.Checking? || s.loops[g].phase.Checking? ==> l.phase == s.loops[g].phase
    requires l.tick ==> l.phase.Selecting? || (l.phase.Checking? && !l.phase.first)
    requires l.phase.Gone? ==> CtxDone(s, g)
    ensures ParkedOk(s.pool.calls, s.owners, s.loops[g := l])
    ensures GoneOk(s.loops[g := l], s.plan.gens, s.pool.done) && TicksOk(s.loops[g := l])
    ensures LiveOk(s.live - Unexited(s.loops[g]) + Unexited(l), s.loops[g := l])
  {
    SumUpdate(s.loops, g, l, Unexited);
  }

  lemma LoopStepInv(s: State, step: LoopStep)
    requires Inv(s) && LoopEnabled(s, step) && (step.Arm? || step.Tick? || step.Leave?)
    ensures Inv(LoopNext(s, step))
  {
    LoopMoves(s, step.g, LoopNext(s, step).loops[step.g]);
    if s.phase.Stopped? {
      SumZero(s.loops, Unexited);
    }
  }

  // ---------------------------------------------------------------- contexts

  /** Cancelling contexts keeps everything that does not speak about contexts. */
  lemma CancelFrame(s: State, gens: seq<Generation>, cs: set<nat>, pool: bool)
    requires Inv(s) && |gens| == |s.plan.gens|
    requires forall g :: 0 <= g < |gens| ==>
               gens[g].target == s.plan.gens[g].target && (s.plan.gens[g].cancelled ==> gens[g].cancelled)
    requires forall c :: 0 <= c < |s.owners| ==>
               (c in cs || CtxDone(s, s.owners[c]) <==> gens[s.owners[c]].cancelled || s.pool.done || pool)
    ensures var p := P.Next(s.pool, P.Cancel(cs, pool));
      && P.Inv(p) && |p.calls| == |s.pool.calls| && p.startReturned == s.pool.startReturned
      && OwnersOk(p.calls, s.owners, gens, p.done) && ParkedOk(p.calls, s.owners, s.loops)
      && ReportsOk(p.calls) && GoneOk(s.loops, gens, p.done)
  {
    var p := P.Next(s.pool, P.Cancel(cs, pool));
    P.StepInv(s.pool, P.Cancel(cs, pool));
    PoolReports(s.pool, P.Cancel(cs, pool));
    CancelOnlyContexts(s.pool, cs, pool);
    KeepParked(s.pool.calls, p.calls, s.owners, s.loops);
  }

  lemma CancelOnlyContexts(p: P.State, cs: set<nat>, pool: bool)
    ensures var q := P.Next(p, P.Cancel(cs, pool));
      && |q.calls| == |p.calls| && q.startReturned == p.startReturned && (q.done <==> p.done || pool)
      && (forall c :: 0 <= c < |p.calls| ==>
            && q.calls[c].phase == p.calls[c].phase && q.calls[c].target == p.calls[c].target
            && (q.calls[c].ctxDone <==> p.calls[c].ctxDone || c in cs))
  {
  }

  lemma KeepParked(calls: seq<P.Call>, calls': seq<P.Call>, owners: seq<nat>, loops: seq<Loop>)
    requires ParkedOk(calls, owners, loops) && |calls'| == |calls|
    requires forall c :: 0 <= c < |calls| ==> calls'[c].phase == calls[c].phase
    ensures ParkedOk(calls', owners, loops)
  {
    forall g | 0 <= g < |loops| && loops[g].phase.Checking? ensures ParkedAt(calls', owners, g, loops[g].phase.call) {
      assert ParkedAt(calls, owners, g, loops[g].phase.call);
    }
  }

  lemma StopInFrame(s: State, id: string)
    requires Inv(s)
    ensures var s' := StopIn(s, id);
      && P.Inv(s'.pool) && |s'.pool.calls| == |s.pool.calls| && |s'.plan.gens| == |s.plan.gens|
      && s'.pool.startReturned == s.pool.startReturned && s'.pool.done == s.pool.done
      && OwnersOk(s'.pool.calls, s.owners, s'.plan.gens, s'.pool.done) && ParkedOk(s'.pool.calls, s.owners, s.loops)
      && ReportsOk(s'.pool.calls) && GoneOk(s.loops, s'.plan.gens, s'.pool.done)
  {
    if id in s.plan.running {
      CancelFrame(s, StopGen(s.plan, id).gens, CallsOf(s, s.plan.running[id]), false);
    }
  }

  lemma RootCancelInv(s: State)
    requires Inv(s)
    ensures Inv(RootCancel(s)) && RootCancel(s).pool.done
  {
    CancelFrame(s, s.plan.gens, AllCalls(s), true);
  }

  // ---------------------------------------------------------------- the scheduler's goroutine

  /** Inv with another plan, reached by stopping at most one generation. */
  lemma AfterStop(s: State, id: string, phase: SchedulerPhase)
    requires Inv(s)
    requires !(s.phase.Cancelling? || s.phase.Joining? || s.phase.Stopped?)
    requires !(phase.Looping? || phase.Cancelling? || phase.Joining? || phase.Stopped?)
    requires PlanOk(StopIn(s, id).plan, phase, s.snapshot, s.pool.done)
    ensures Inv(StopIn(s, id).(phase := phase))
  {
    StopInFrame(s, id);
  }

  lemma AfterNothing(s: State, phase: SchedulerPhase)
    requires Inv(s)
    requires !(s.phase.Cancelling? || s.phase.Joining? || s.phase.Stopped?)
    requires !(phase.Looping? || phase.Cancelling? || phase.Joining? || phase.Stopped?)
    requires PlanOk(s.plan, phase, s.snapshot, s.pool.done)
    ensures Inv(s.(phase := phase))
  {
  }

  /** VisitOne is the first half of Schedules.Visit, or all of it when nothing is to be started. */
  lemma VisitHalves(p: Plan, list: seq<Target>, at: nat)
    requires WellFormed(p) && at < |list| && Agrees(p, list[..at])
    ensures var t := list[at];
      && WellFormed(StopGen(p, t.id)) && t.id !in StopGen(p, t.id).running
      && AgreesBut(StopGen(p, t.id), list[..at], t.id)
      && (!t.enabled ==> Agrees(StopGen(p, t.id), list[..at + 1]))
      && (t.enabled && t.id in p.running && p.gens[p.running[t.id]].target == t ==> Agrees(p, list[..at + 1]))
  {
    var t := list[at];
    StopWellFormed(p, t.id);
    assert list[..at + 1] == list[..at] + [t];
    VisitAgrees(p, list[..at], t);
  }

  lemma VisitStops(s: State, t: Target)
    requires Inv(s) && SchedulerEnabled(s, VisitOne) && t == s.phase.list[s.phase.at] && !t.enabled
    ensures Inv(StopIn(s, t.id).(phase := Visiting(s.phase.list, s.phase.at + 1)))
  {
    VisitHalves(s.plan, s.phase.list, s.phase.at);
    AfterStop(s, t.id, Visiting(s.phase.list, s.phase.at + 1));
  }

  lemma VisitSkips(s: State, t: Target)
    requires Inv(s) && SchedulerEnabled(s, VisitOne) && t == s.phase.list[s.phase.at] && t.enabled
    requires t.id in s.plan.running && s.plan.gens[s.plan.running[t.id]].target == t
    ensures Inv(s.(phase := Visiting(s.phase.list, s.phase.at + 1)))
  {
    VisitHalves(s.plan, s.phase.list, s.phase.at);
    AfterNothing(s, Visiting(s.phase.list, s.phase.at + 1));
  }

  lemma VisitTurns(s: State, t: Target)
    requires Inv(s) && SchedulerEnabled(s, VisitOne) && t == s.phase.list[s.phase.at] && t.enabled
    ensures Inv(StopIn(s, t.id).(phase := Starting(s.phase.list, s.phase.at)))
  {
    VisitHalves(s.plan, s.phase.list, s.phase.at);
    AfterStop(s, t.id, Starting(s.phase.list, s.phase.at));
  }

  lemma VisitInv(s: State)
    requires Inv(s) && SchedulerEnabled(s, VisitOne)
    ensures Inv(SchedulerNext(s, VisitOne))
  {
    var t := s.phase.list[s.phase.at];
    if !t.enabled {
      VisitStops(s, t);
    } else if t.id in s.plan.running && s.plan.gens[s.plan.running[t.id]].target == t {
      VisitSkips(s, t);
    } else {
      VisitTurns(s, t);
    }
  }

  /** StartOne is the second half. */
  lemma StartHalf(p: Plan, list: seq<Target>, at: nat)
    requires WellFormed(p) && at < |list| && AgreesBut(p, list[..at], list[at].id)
    requires list[at].enabled && list[at].id !in p.running
    ensures WellFormed(StartGen(p, list[at])) && Agrees(StartGen(p, list[at]), list[..at + 1])
  {
    StartWellFormed(p, list[at]);
    assert list[..at + 1] == list[..at] + [list[at]];
    IdsAppend(list[..at], list[at]);
  }

  lemma StartFrame(s: State, g: Generation)
    requires Inv(s)
    ensures OwnersOk(s.pool.calls, s.owners, s.plan.gens + [g], s.pool.done)
    ensures GoneOk(s.loops + [Loop(Fresh, false)], s.plan.gens + [g], s.pool.done)
    ensures LiveOk(s.live + 1, s.loops + [Loop(Fresh, false)])
    ensures TicksOk(s.loops + [Loop(Fresh, false)])
    ensures ParkedOk(s.pool.calls, s.owners, s.loops + [Loop(Fresh, false)])
  {
    SumAppend(s.loops, Loop(Fresh, false), Unexited);
  }

  lemma StartInv(s: State)
    requires Inv(s) && SchedulerEnabled(s, StartOne)
    ensures Inv(SchedulerNext(s, StartOne))
  {
    var t := s.phase.list[s.phase.at];
    StartHalf(s.plan, s.phase.list, s.phase.at);
    if t.interval <= 0 {
      AfterNothing(s, Visiting(s.phase.list, s.phase.at + 1));
    } else {
      StartFrame(s, Generation(t, false));
      Started(s, t);
    }
  }

  lemma Started(s: State, t: Target)
    requires Inv(s) && t.interval > 0 && s.phase.Starting?
    requires OwnersOk(s.pool.calls, s.owners, s.plan.gens + [Generation(t, false)], s.pool.done)
    requires GoneOk(s.loops + [Loop(Fresh, false)], s.plan.gens + [Generation(t, false)], s.pool.done)
    requires LiveOk(s.live + 1, s.loops + [Loop(Fresh, false)])
    requires TicksOk(s.loops + [Loop(Fresh, false)])
    requires ParkedOk(s.pool.calls, s.owners, s.loops + [Loop(Fresh, false)])
    requires PlanOk(StartGen(s.plan, t), Visiting(s.phase.list, s.phase.at + 1), s.snapshot, s.pool.done)
    ensures Inv(StartIn(s, t).(phase := Visiting(s.phase.list, s.phase.at + 1)))
  {
  }

  lemma PruneStop(p: Plan, list: seq<Target>, pending: set<string>, id: string)
    requires WellFormed(p) && Agrees(p, list) && p.running.Keys <= Ids(list) + pending && id in pending
    ensures id in Ids(list) ==> p.running.Keys <= Ids(list) + (pending - {id})
    ensures id !in Ids(list) ==>
              && WellFormed(StopGen(p, id)) && Agrees(StopGen(p, id), list)
              && StopGen(p, id).running.Keys <= Ids(list) + (pending - {id})
  {
    StopWellFormed(p, id);
  }

  lemma PruneInv(s: State, id: string)
    requires Inv(s) && SchedulerEnabled(s, PruneOne(id))
    ensures Inv(SchedulerNext(s, PruneOne(id)))
  {
    var phase := SchedulerNext(s, PruneOne(id)).phase;
    PruneStop(s.plan, s.phase.list, s.phase.pending, id);
    if id in Ids(s.phase.list) {
      AfterNothing(s, phase);
    } else {
      AfterStop(s, id, phase);
    }
  }

  lemma EndPruneInv(s: State)
    requires Inv(s) && SchedulerEnabled(s, EndPrune)
    ensures Inv(SchedulerNext(s, EndPrune))
  {
    AgreementIsDesired(s.plan, s.phase.list);
  }

  lemma CancelOneInv(s: State, id: string)
    requires Inv(s) && SchedulerEnabled(s, CancelOne(id))
    ensures Inv(SchedulerNext(s, CancelOne(id)))
  {
    CancelFrame(s, StopGen(s.plan, id).gens, CallsOf(s, s.plan.running[id]), false);
  }

  lemma ListedInv(s: State, list: seq<Target>)
    requires Inv(s) && SchedulerEnabled(s, Listed(list))
    ensures Inv(SchedulerNext(s, Listed(list)))
  {
    assert list[..0] == [];
  }

  lemma EndVisitsInv(s: State)
    requires Inv(s) && SchedulerEnabled(s, EndVisits)
    ensures Inv(SchedulerNext(s, EndVisits))
  {
    assert s.phase.list[..s.phase.at] == s.phase.list;
  }

  lemma SelectInv(s: State, step: SchedulerStep)
    requires Inv(s) && SchedulerEnabled(s, step)
    requires step.ListFailed? || step.DiscoveryTick? || step.TakeDiscovery?
    ensures Inv(SchedulerNext(s, step))
  {
  }

  lemma SeeDoneInv(s: State)
    requires Inv(s) && SchedulerEnabled(s, SeeDone)
    ensures Inv(SchedulerNext(s, SeeDone))
  {
  }

  lemma DeferredInv(s: State, step: SchedulerStep)
    requires Inv(s) && SchedulerEnabled(s, step) && (step.EndCancel? || step.Join?)
    ensures Inv(SchedulerNext(s, step))
  {
  }

  // ---------------------------------------------------------------- main

  lemma ServerStepInv(s: State, step: MainStep)
    requires Inv(s) && MainEnabled(s, step)
    requires step.ServerFail? || step.Request? || step.RequestDone?
    ensures Inv(MainNext(s, step))
  {
  }

  lemma ShutdownStepInv(s: State, step: MainStep)
    requires Inv(s) && MainEnabled(s, step) && (step.Notice? || step.ShutdownReturns?)
    ensures Inv(MainNext(s, step))
  {
  }

  lemma AwaitStepInv(s: State, step: MainStep)
    requires Inv(s) && MainEnabled(s, step) && (step.SchedulerJoined? || step.PoolJoined? || step.CloseDatabase?)
    ensures Inv(MainNext(s, step))
  {
  }

  lemma StopRootInv(s: State)
    requires Inv(s) && MainEnabled(s, StopRoot)
    ensures Inv(MainNext(s, StopRoot))
  {
    RootCancelInv(s);
  }

  lemma SchedulerStepInv(s: State, step: SchedulerStep)
    requires Inv(s) && SchedulerEnabled(s, step)
    ensures Inv(SchedulerNext(s, step))
  {
    match step {
      case Listed(list) => ListedInv(s, list);
      case ListFailed => SelectInv(s, step);
      case VisitOne => VisitInv(s);
      case StartOne => StartInv(s);
      case EndVisits => EndVisitsInv(s);
      case PruneOne(id) => PruneInv(s, id);
      case EndPrune => EndPruneInv(s);
      case DiscoveryTick => SelectInv(s, step);
      case TakeDiscovery => SelectInv(s, step);
      case SeeDone => SeeDoneInv(s);
      case CancelOne(id) => CancelOneInv(s, id);
      case EndCancel => DeferredInv(s, step);
      case Join => DeferredInv(s, step);
    }
  }

  lemma MainStepInv(s: State, step: MainStep)
    requires Inv(s) && MainEnabled(s, step)
    ensures Inv(MainNext(s, step))
  {
    match step {
      case Signal => RootCancelInv(s);
      case StopRoot => StopRootInv(s);
      case Notice => ShutdownStepInv(s, step);
      case ShutdownReturns(_) => ShutdownStepInv(s, step);
      case SchedulerJoined => AwaitStepInv(s, step);
      case PoolJoined => AwaitStepInv(s, step);
      case CloseDatabase => AwaitStepInv(s, step);
      case _ => ServerStepInv(s, step);
    }
  }

  lemma StepInv(s: State, step: Step)
    requires Inv(s) && Enabled(s, step)
    ensures Inv(Next(s, step))
  {
    match step {
      case PoolStep(p) => PoolStepInv(s, p);
      case OfScheduler(c) => SchedulerStepInv(s, c);
      case OfMain(m) => MainStepInv(s, m);
      case OfLoop(l) =>
        match l {
          case FirstCheck(g) => BeginInv(s, g, true);
          case TakeTick(g) => BeginInv(s, g, false);
          case EndCheck(g, aborted) => EndCheckInv(s, g, aborted);
          case _ => LoopStepInv(s, l);
        }
    }
  }

  lemma {:induction false} RunInv(s: State, steps: seq<Step>)
    requires Inv(s) && ValidRun(s, steps)
    ensures Inv(After(s, steps))
    decreases |steps|
  {
    if steps != [] {
      StepInv(s, steps[0]);
      RunInv(Next(s, steps[0]), steps[1..]);
    }
  }
}
