/** Runs that show where the comments of the source promise more than its code keeps. */
module Witnesses {
  import opened Wrappers
  import opened Targets
  import opened Schedules
  import opened Monitor
  import opened MonitorRuns
  import P = WorkerPool

  // ---------------------------------------------------------------- two checks of one target at once

  const OLD := Target("x", "name", "https://host/", "GET", 10, 5, 200, true)
  const NEW := OLD.(interval := 20)
  const TWO := P.Limits(2, 1)

  /** Two workers are executing checks of the same target id. */
  ghost predicate Overlapping(s: State) {
    exists v: nat, w: nat ::
      && v < w < |s.pool.workers| && s.pool.workers[v].Executing? && s.pool.workers[w].Executing?
      && s.pool.workers[v].call < |s.pool.calls| && s.pool.workers[w].call < |s.pool.calls|
      && s.pool.calls[s.pool.workers[v].call].target.id == s.pool.calls[s.pool.workers[w].call].target.id
  }

  function Pool1(queue: seq<nat>, workers: seq<P.Worker>, calls: seq<P.Call>, enqueued: seq<nat>, picked: seq<nat>)
    : P.State
  {
    P.State(TWO, false, calls, queue, workers, |workers|, false, enqueued, picked)
  }

  /** The process when its first listing was [OLD] and is in the given phase. */
  function Proc(pool: P.State, owners: seq<nat>, plan: Plan, loops: seq<Loop>, phase: SchedulerPhase,
                discovery: Option<bool>, snapshot: seq<Target>): State {
    State(pool, owners, plan, loops, |loops|, phase, discovery, snapshot, Serving, true, false, 0, false)
  }

  const FIRST_PLAN := Plan(map["x" := 0], [Generation(OLD, false)])
  const FIRST_LOOP := [Loop(Fresh, false)]

  /** The first pass schedules OLD. */
  lemma FirstPassStarts(t: State)
    requires Leads(AnyStep, Proc(P.Init(TWO), [], FIRST_PLAN, FIRST_LOOP, Visiting([OLD], 1), None, [OLD]), t)
    ensures Leads(AnyStep, Init(TWO), t)
  {
    var q := P.Init(TWO);
    var s1 := Proc(q, [], EMPTY_PLAN, [], Visiting([OLD], 0), None, [OLD]);
    var s2 := Proc(q, [], EMPTY_PLAN, [], Starting([OLD], 0), None, [OLD]);
    var s3 := Proc(q, [], FIRST_PLAN, FIRST_LOOP, Visiting([OLD], 1), None, [OLD]);
    LeadsStep(AnyStep, s2, OfScheduler(StartOne), s3, t);
    LeadsStep(AnyStep, s1, OfScheduler(VisitOne), s2, t);
    LeadsStep(AnyStep, Init(TWO), OfScheduler(Listed([OLD])), s1, t);
  }

  lemma FirstPass(t: State)
    requires Leads(AnyStep, Proc(P.Init(TWO), [], FIRST_PLAN, FIRST_LOOP, Looping, Some(false), [OLD]), t)
    ensures Leads(AnyStep, Init(TWO), t)
  {
    var q := P.Init(TWO);
    var s3 := Proc(q, [], FIRST_PLAN, FIRST_LOOP, Visiting([OLD], 1), None, [OLD]);
    var s4 := Proc(q, [], FIRST_PLAN, FIRST_LOOP, Pruning([OLD], {"x"}), None, [OLD]);
    var s5 := Proc(q, [], FIRST_PLAN, FIRST_LOOP, Pruning([OLD], {}), None, [OLD]);
    var s6 := Proc(q, [], FIRST_PLAN, FIRST_LOOP, Looping, Some(false), [OLD]);
    assert [OLD][0] in [OLD] && OLD.id in Ids([OLD]);
    assert FIRST_PLAN.running.Keys == {"x"} && {"x"} - {"x"} == {};
    LeadsStep(AnyStep, s5, OfScheduler(EndPrune), s6, t);
    LeadsStep(AnyStep, s4, OfScheduler(PruneOne("x")), s5, t);
    LeadsStep(AnyStep, s3, OfScheduler(EndVisits), s4, t);
    FirstPassStarts(t);
  }

  function FirstCall(ctxDone: bool, job: seq<P.JobEvent>, phase: P.CallPhase): P.Call {
    P.Call(OLD, ctxDone, phase, None, job)
  }

  const RUNNING_JOB := [P.Enqueued, P.Picked(0)]
  const BUSY_POOL :=
    Pool1([], [P.Executing(0), P.Idle], [FirstCall(false, RUNNING_JOB, P.Waiting)], [0], [0])

  /** Two workers start. */
  lemma WorkersStart(t: State)
    requires Leads(AnyStep,
                   Proc(Pool1([], [P.Idle, P.Idle], [], [], []), [], FIRST_PLAN, FIRST_LOOP, Looping, Some(false),
                        [OLD]), t)
    ensures Leads(AnyStep, Proc(P.Init(TWO), [], FIRST_PLAN, FIRST_LOOP, Looping, Some(false), [OLD]), t)
  {
    var s0 := Proc(P.Init(TWO), [], FIRST_PLAN, FIRST_LOOP, Looping, Some(false), [OLD]);
    var s1 := Proc(Pool1([], [P.Idle], [], [], []), [], FIRST_PLAN, FIRST_LOOP, Looping, Some(false), [OLD]);
    var s2 := Proc(Pool1([], [P.Idle, P.Idle], [], [], []), [], FIRST_PLAN, FIRST_LOOP, Looping, Some(false), [OLD]);
    assert [P.Idle] + [P.Idle] == [P.Idle, P.Idle] && [] + [P.Idle] == [P.Idle];
    LeadsStep(AnyStep, s1, PoolStep(P.Spawn), s2, t);
    LeadsStep(AnyStep, s0, PoolStep(P.Spawn), s1, t);
  }

  /** A worker takes the only queued job. */
  lemma PickedUp(p: P.State, w: nat, q: P.State)
    requires P.Enabled(p, P.Pick(w)) && |p.queue| == 1
    requires var c := p.queue[0];
      && q.calls == p.calls[c := p.calls[c].(job := p.calls[c].job + [P.Picked(w)])]
      && q.workers == p.workers[w := P.Executing(c)]
      && q.picked == p.picked + [c]
      && q == p.(calls := q.calls, queue := [], workers := q.workers, picked := q.picked)
    ensures P.Next(p, P.Pick(w)) == q
  {
    assert p.queue[1..] == [];
  }

  /** A job enters the empty queue. */
  lemma JoinsQueue(p: P.State, c: nat, q: P.State)
    requires P.Enabled(p, P.Enqueue(c)) && p.queue == []
    requires
      && q.calls == p.calls[c := p.calls[c].(job := p.calls[c].job + [P.Enqueued], phase := P.Waiting)]
      && q.enqueued == p.enqueued + [c]
      && q == p.(calls := q.calls, queue := [c], enqueued := q.enqueued)
    ensures P.Next(p, P.Enqueue(c)) == q
  {
    assert p.queue + [c] == [c];
  }

  /** One of them executes OLD's first check. */
  lemma FirstCheckRuns(t: State)
    requires Leads(AnyStep,
                   Proc(BUSY_POOL, [0], FIRST_PLAN, [Loop(Checking(0, true), false)], Looping, Some(false), [OLD]), t)
    ensures Leads(AnyStep, Proc(P.Init(TWO), [], FIRST_PLAN, FIRST_LOOP, Looping, Some(false), [OLD]), t)
  {
    var idle := [P.Idle, P.Idle];
    var parked := [Loop(Checking(0, true), false)];
    var q2, q3 := Pool1([], idle, [], [], []), Pool1([], idle, [FirstCall(false, [], P.Trying)], [], []);
    var q4 := Pool1([0], idle, [FirstCall(false, [P.Enqueued], P.Waiting)], [0], []);
    var s2 := Proc(q2, [], FIRST_PLAN, FIRST_LOOP, Looping, Some(false), [OLD]);
    var s3 := Proc(q3, [0], FIRST_PLAN, parked, Looping, Some(false), [OLD]);
    var s4 := Proc(q4, [0], FIRST_PLAN, parked, Looping, Some(false), [OLD]);
    var s5 := Proc(BUSY_POOL, [0], FIRST_PLAN, parked, Looping, Some(false), [OLD]);
    assert [P.Enqueued] + [P.Picked(0)] == RUNNING_JOB && [] + [0] == [0];
    assert idle[0 := P.Executing(0)] == [P.Executing(0), P.Idle];
    PickedUp(q4, 0, BUSY_POOL);
    LeadsStep(AnyStep, s4, PoolStep(P.Pick(0)), s5, t);
    assert [] + [P.Enqueued] == [P.Enqueued];
    JoinsQueue(q3, 0, q4);
    LeadsStep(AnyStep, s3, PoolStep(P.Enqueue(0)), s4, t);
    LeadsStep(AnyStep, s2, OfLoop(FirstCheck(0)), s3, t);
    WorkersStart(t);
  }

  const RESTARTED_PLAN := Plan(map["x" := 1], [Generation(OLD, true), Generation(NEW, false)])
  const ORPHANED_POOL :=
    Pool1([], [P.Executing(0), P.Idle], [FirstCall(true, RUNNING_JOB, P.Waiting)], [0], [0])

  /** The next listing has NEW: OLD's generation is cancelled while its check still runs. */
  lemma NextListing(t: State)
    requires Leads(AnyStep,
                   Proc(BUSY_POOL, [0], FIRST_PLAN, [Loop(Checking(0, true), false)], Visiting([NEW], 0), Some(false),
                        [NEW]), t)
    ensures Leads(AnyStep,
                  Proc(BUSY_POOL, [0], FIRST_PLAN, [Loop(Checking(0, true), false)], Looping, Some(false), [OLD]), t)
  {
    var parked := [Loop(Checking(0, true), false)];
    var s0 := Proc(BUSY_POOL, [0], FIRST_PLAN, parked, Looping, Some(false), [OLD]);
    var s1 := Proc(BUSY_POOL, [0], FIRST_PLAN, parked, Looping, Some(true), [OLD]);
    var s2 := Proc(BUSY_POOL, [0], FIRST_PLAN, parked, InList, Some(false), [OLD]);
    var s3 := Proc(BUSY_POOL, [0], FIRST_PLAN, parked, Visiting([NEW], 0), Some(false), [NEW]);
    LeadsStep(AnyStep, s2, OfScheduler(Listed([NEW])), s3, t);
    LeadsStep(AnyStep, s1, OfScheduler(TakeDiscovery), s2, t);
    LeadsStep(AnyStep, s0, OfScheduler(DiscoveryTick), s1, t);
  }

  lemma OrphanPool()
    ensures P.Next(BUSY_POOL, P.Cancel({0}, false)) == ORPHANED_POOL
  {
  }

  /** NEW's generation is started next to it. */
  lemma Restart(t: State)
    requires Leads(AnyStep,
                   Proc(ORPHANED_POOL, [0], RESTARTED_PLAN, [Loop(Checking(0, true), false), Loop(Fresh, false)],
                        Visiting([NEW], 1), Some(false), [NEW]), t)
    ensures Leads(AnyStep,
                  Proc(BUSY_POOL, [0], FIRST_PLAN, [Loop(Checking(0, true), false)], Looping, Some(false), [OLD]), t)
  {
    var parked := [Loop(Checking(0, true), false)];
    var stopped := Plan(map[], [Generation(OLD, true)]);
    var s3 := Proc(BUSY_POOL, [0], FIRST_PLAN, parked, Visiting([NEW], 0), Some(false), [NEW]);
    var s4 := Proc(ORPHANED_POOL, [0], stopped, parked, Starting([NEW], 0), Some(false), [NEW]);
    var s5 := Proc(ORPHANED_POOL, [0], RESTARTED_PLAN, [Loop(Checking(0, true), false), Loop(Fresh, false)],
                   Visiting([NEW], 1), Some(false), [NEW]);
    LeadsStep(AnyStep, s4, OfScheduler(StartOne), s5, t);
    assert CallsOf(s3, 0) == {0} by { assert s3.owners[0] == 0; }
    OrphanPool();
    assert StopGen(FIRST_PLAN, "x") == stopped;
    LeadsStep(AnyStep, s3, OfScheduler(VisitOne), s4, t);
    NextListing(t);
  }

  const BOTH_LOOPS := [Loop(Checking(0, true), false), Loop(Checking(1, true), false)]
  const BOTH_POOL :=
    Pool1([], [P.Executing(0), P.Executing(1)],
          [FirstCall(true, RUNNING_JOB, P.Waiting),
           P.Call(NEW, false, P.Waiting, None, [P.Enqueued, P.Picked(1)])], [0, 1], [0, 1])
  const BOTH_RUN := Proc(BOTH_POOL, [0, 1], RESTARTED_PLAN, BOTH_LOOPS, Visiting([NEW], 1), Some(false), [NEW])

  /** The idle worker executes NEW's first check. */
  lemma SecondCheckRuns(t: State)
    requires Leads(AnyStep, BOTH_RUN, t)
    ensures Leads(AnyStep,
                  Proc(ORPHANED_POOL, [0], RESTARTED_PLAN, [Loop(Checking(0, true), false), Loop(Fresh, false)],
                       Visiting([NEW], 1), Some(false), [NEW]), t)
  {
    var before := FirstCall(true, RUNNING_JOB, P.Waiting);
    var workers := [P.Executing(0), P.Idle];
    var q1 := Pool1([], workers, [before, P.Call(NEW, false, P.Trying, None, [])], [0], [0]);
    var q2 := Pool1([1], workers, [before, P.Call(NEW, false, P.Waiting, None, [P.Enqueued])], [0, 1], [0]);
    var s0 := Proc(ORPHANED_POOL, [0], RESTARTED_PLAN, [Loop(Checking(0, true), false), Loop(Fresh, false)],
                   Visiting([NEW], 1), Some(false), [NEW]);
    var s1 := Proc(q1, [0, 1], RESTARTED_PLAN, BOTH_LOOPS, Visiting([NEW], 1), Some(false), [NEW]);
    var s2 := Proc(q2, [0, 1], RESTARTED_PLAN, BOTH_LOOPS, Visiting([NEW], 1), Some(false), [NEW]);
    assert [P.Enqueued] + [P.Picked(1)] == [P.Enqueued, P.Picked(1)] && [0] + [1] == [0, 1];
    assert workers[1 := P.Executing(1)] == [P.Executing(0), P.Executing(1)];
    PickedUp(q2, 1, BOTH_POOL);
    LeadsStep(AnyStep, s2, PoolStep(P.Pick(1)), BOTH_RUN, t);
    assert [] + [P.Enqueued] == [P.Enqueued];
    JoinsQueue(q1, 1, q2);
    LeadsStep(AnyStep, s1, PoolStep(P.Enqueue(1)), s2, t);
    LeadsStep(AnyStep, s0, OfLoop(FirstCheck(1)), s1, t);
  }

  /** Checks of one target id can overlap across a restart: the comments promise at most one outstanding check per
      target, the code keeps that promise for uncancelled generations only. */
  lemma ChecksOverlapAcrossRestart()
    ensures exists s :: Leads(AnyStep, Init(TWO), s) && Overlapping(s)
  {
    LeadsSelf(AnyStep, BOTH_RUN);
    SecondCheckRuns(BOTH_RUN);
    Restart(BOTH_RUN);
    FirstCheckRuns(BOTH_RUN);
    FirstPass(BOTH_RUN);
    assert BOTH_POOL.workers[0].Executing? && BOTH_POOL.workers[1].Executing?;
    assert Overlapping(BOTH_RUN);
  }

  // ---------------------------------------------------------------- a request that outlives the database

  const ONE := P.Limits(1, 1)

  function Ending(workers: seq<P.Worker>, live: int, returned: bool, phase: SchedulerPhase, discovery: Option<bool>,
                  main: MainPhase): State {
    State(P.State(ONE, true, [], [], workers, live, returned, [], []), [], EMPTY_PLAN, [], 0, phase, discovery, [],
          main, false, false, 1, false)
  }

  /** A request arrives, and the signal comes. */
  lemma SignalComes(t: State)
    requires Leads(AnyStep, Init(ONE).(handlers := 1, pool := P.Init(ONE).(done := true)), t)
    ensures Leads(AnyStep, Init(ONE), t)
  {
    var s1 := Init(ONE).(handlers := 1);
    var s2 := Init(ONE).(handlers := 1, pool := P.Init(ONE).(done := true));
    assert P.Next(P.Init(ONE), P.Cancel(AllCalls(s1), true)) == P.Init(ONE).(done := true);
    LeadsStep(AnyStep, s1, OfMain(Signal), s2, t);
    LeadsStep(AnyStep, Init(ONE), OfMain(Request), s1, t);
  }

  /** Shutdown gives up on the request. */
  lemma ShutdownTimesOut(t: State)
    requires Leads(AnyStep, Ending([], 0, false, InList, None, Stopping), t)
    ensures Leads(AnyStep, Init(ONE), t)
  {
    var s2 := Init(ONE).(handlers := 1, pool := P.Init(ONE).(done := true));
    var s3 := Ending([], 0, false, InList, None, ShuttingDown);
    var s4 := Ending([], 0, false, InList, None, Stopping);
    LeadsStep(AnyStep, s3, OfMain(ShutdownReturns(false)), s4, t);
    LeadsStep(AnyStep, s2, OfMain(Notice), s3, t);
    SignalComes(t);
  }

  lemma SchedulerStops(t: State)
    requires Leads(AnyStep, Ending([], 0, false, Stopped, None, Stopping), t)
    ensures Leads(AnyStep, Ending([], 0, false, InList, None, Stopping), t)
  {
    var s0 := Ending([], 0, false, InList, None, Stopping);
    var s1 := Ending([], 0, false, Looping, Some(false), Stopping);
    var s2 := Ending([], 0, false, Cancelling({}), None, Stopping);
    var s3 := Ending([], 0, false, Joining, None, Stopping);
    var s4 := Ending([], 0, false, Stopped, None, Stopping);
    assert EMPTY_PLAN.running.Keys == {};
    LeadsStep(AnyStep, s3, OfScheduler(Join), s4, t);
    LeadsStep(AnyStep, s2, OfScheduler(EndCancel), s3, t);
    LeadsStep(AnyStep, s1, OfScheduler(SeeDone), s2, t);
    LeadsStep(AnyStep, s0, OfScheduler(ListFailed), s1, t);
  }

  lemma WorkerLeaves(t: State)
    requires Leads(AnyStep, Ending([P.Exited], 0, false, Stopped, None, Stopping), t)
    ensures Leads(AnyStep, Ending([], 0, false, Stopped, None, Stopping), t)
  {
    var s0 := Ending([], 0, false, Stopped, None, Stopping);
    var s1 := Ending([P.Idle], 1, false, Stopped, None, Stopping);
    var s2 := Ending([P.Exited], 0, false, Stopped, None, Stopping);
    assert [] + [P.Idle] == [P.Idle] && [P.Idle][0 := P.Exited] == [P.Exited];
    LeadsStep(AnyStep, s1, PoolStep(P.Exit(0)), s2, t);
    LeadsStep(AnyStep, s0, PoolStep(P.Spawn), s1, t);
  }

  lemma PoolStops(t: State)
    requires Leads(AnyStep, Ending([P.Exited], 0, true, Stopped, None, Stopping), t)
    ensures Leads(AnyStep, Ending([], 0, false, Stopped, None, Stopping), t)
  {
    var s2 := Ending([P.Exited], 0, false, Stopped, None, Stopping);
    var s3 := Ending([P.Exited], 0, true, Stopped, None, Stopping);
    LeadsStep(AnyStep, s2, PoolStep(P.StartReturn), s3, t);
    WorkerLeaves(t);
  }

  lemma MainEnds(t: State)
    requires Leads(AnyStep, Ending([P.Exited], 0, true, Stopped, None, Closed), t)
    ensures Leads(AnyStep, Ending([P.Exited], 0, true, Stopped, None, Stopping), t)
  {
    var s0 := Ending([P.Exited], 0, true, Stopped, None, Stopping);
    var s1 := Ending([P.Exited], 0, true, Stopped, None, AwaitingScheduler);
    var s2 := Ending([P.Exited], 0, true, Stopped, None, AwaitingPool);
    var s3 := Ending([P.Exited], 0, true, Stopped, None, Closing);
    var s4 := Ending([P.Exited], 0, true, Stopped, None, Closed);
    LeadsStep(AnyStep, s3, OfMain(CloseDatabase), s4, t);
    LeadsStep(AnyStep, s2, OfMain(PoolJoined), s3, t);
    LeadsStep(AnyStep, s1, OfMain(SchedulerJoined), s2, t);
    assert P.Next(s0.pool, P.Cancel(AllCalls(s0), true)) == s0.pool;
    LeadsStep(AnyStep, s0, OfMain(StopRoot), s1, t);
  }

  /** The database pool can be closed while a request is still in progress: Shutdown may run into its deadline. */
  lemma RequestCanOutliveDatabase()
    ensures exists s :: Leads(AnyStep, Init(ONE), s) && s.main.Closed? && s.handlers > 0
  {
    var last := Ending([P.Exited], 0, true, Stopped, None, Closed);
    LeadsSelf(AnyStep, last);
    MainEnds(last);
    PoolStops(last);
    SchedulerStops(last);
    ShutdownTimesOut(last);
  }
}
