/** Safety of the whole process, in every state of every run. */
module MonitorProperties {
  import opened Wrappers
  import opened Sums
  import opened Schedules
  import opened Monitor
  import opened MonitorInvariant
  import P = WorkerPool
  import PoolProperties
  import Checker
  import CheckResults

  ghost predicate Reachable(limits: P.Limits, steps: seq<Step>) {
    limits.workers >= 1 && limits.capacity >= 1 && ValidRun(Init(limits), steps)
  }

  ghost function At(limits: P.Limits, steps: seq<Step>): (s: State)
    requires Reachable(limits, steps)
    ensures Shape(s.pool.calls, s.owners, s.plan, s.loops)
  {
    InitInv(limits);
    RunInv(Init(limits), steps);
    After(Init(limits), steps)
  }

  lemma AtInv(limits: P.Limits, steps: seq<Step>)
    requires Reachable(limits, steps)
    ensures Inv(At(limits, steps))
  {
    InitInv(limits);
    RunInv(Init(limits), steps);
  }

  // ---------------------------------------------------------------- the pool inside the process

  /** The pool's part of a step: one pool step, or none. */
  ghost function LoopPart(s: State, l: LoopStep): seq<P.Step>
    requires LoopEnabled(s, l)
  {
    match l
    case FirstCheck(g) => [P.Begin(s.plan.gens[g].target, CtxDone(s, g))]
    case TakeTick(g) => [P.Begin(s.plan.gens[g].target, CtxDone(s, g))]
    case EndCheck(g, aborted) => [EndOf(s.loops[g].phase.call, aborted)]
    case _ => []
  }

  ghost function SchedulerPart(s: State, c: SchedulerStep): seq<P.Step>
    requires SchedulerEnabled(s, c)
  {
    match c
    case VisitOne =>
      var t := s.phase.list[s.phase.at];
      if t.id !in s.plan.running || (t.enabled && s.plan.gens[s.plan.running[t.id]].target == t) then []
      else [P.Cancel(CallsOf(s, s.plan.running[t.id]), false)]
    case PruneOne(id) =>
      if id in Ids(s.phase.list) || id !in s.plan.running then []
      else [P.Cancel(CallsOf(s, s.plan.running[id]), false)]
    case CancelOne(id) => [P.Cancel(CallsOf(s, s.plan.running[id]), false)]
    case _ => []
  }

  ghost function PoolPart(s: State, step: Step): seq<P.Step>
    requires Enabled(s, step)
  {
    match step
    case PoolStep(p) => [p]
    case OfLoop(l) => LoopPart(s, l)
    case OfScheduler(c) => SchedulerPart(s, c)
    case OfMain(m) => if m.Signal? || m.StopRoot? then [P.Cancel(AllCalls(s), true)] else []
  }

  /** part leads the pool from p to q. */
  ghost predicate Moves(p: P.State, part: seq<P.Step>, q: P.State) {
    if part == [] then q == p
    else |part| == 1 && P.Enabled(p, part[0]) && q == P.Next(p, part[0])
  }

  lemma LoopProjects(s: State, l: LoopStep)
    requires LoopEnabled(s, l)
    ensures Moves(s.pool, LoopPart(s, l), LoopNext(s, l).pool)
  {
  }

  lemma SchedulerProjects(s: State, c: SchedulerStep)
    requires SchedulerEnabled(s, c)
    ensures Moves(s.pool, SchedulerPart(s, c), SchedulerNext(s, c).pool)
  {
  }

  lemma StepProjects(s: State, step: Step)
    requires Enabled(s, step)
    ensures Moves(s.pool, PoolPart(s, step), Next(s, step).pool)
  {
    match step {
      case PoolStep(_) =>
      case OfLoop(l) => LoopProjects(s, l);
      case OfScheduler(c) => SchedulerProjects(s, c);
      case OfMain(_) =>
    }
  }

  ghost function PoolRun(s: State, steps: seq<Step>): seq<P.Step>
    requires ValidRun(s, steps)
    decreases |steps|
  {
    if steps == [] then [] else PoolPart(s, steps[0]) + PoolRun(Next(s, steps[0]), steps[1..])
  }

  lemma {:induction false} RunProjects(s: State, steps: seq<Step>)
    requires ValidRun(s, steps)
    ensures P.ValidRun(s.pool, PoolRun(s, steps))
    ensures P.After(s.pool, PoolRun(s, steps)) == After(s, steps).pool
    decreases |steps|
  {
    if steps != [] {
      var part, rest := PoolPart(s, steps[0]), PoolRun(Next(s, steps[0]), steps[1..]);
      StepProjects(s, steps[0]);
      RunProjects(Next(s, steps[0]), steps[1..]);
      if part == [] {
        assert part + rest == rest;
      } else {
        assert (part + rest)[0] == part[0] && (part + rest)[1..] == rest;
      }
    }
  }

  /** Every run of the process contains a run of the pool, so everything proved of the pool holds inside it. */
  lemma ContainsAPoolRun(limits: P.Limits, steps: seq<Step>)
    requires Reachable(limits, steps)
    ensures exists inner :: PoolProperties.Reachable(limits, inner)
                            && PoolProperties.At(limits, inner) == At(limits, steps).pool
  {
    RunProjects(Init(limits), steps);
    var inner := PoolRun(Init(limits), steps);
    assert PoolProperties.Reachable(limits, inner);
    assert PoolProperties.At(limits, inner) == At(limits, steps).pool;
  }

  // ---------------------------------------------------------------- non-overlap

  /** The call's job is queued, executing, or not yet received. */
  predicate Outstanding(call: P.Call) { 1 <= |call.job| <= 3 || call.slot.Some? }

  /** For every target id at most one job of an uncancelled generation is outstanding, and that generation is
      parked in Submit on exactly that job. */
  lemma ChecksNeverOverlap(limits: P.Limits, steps: seq<Step>, c: nat, d: nat)
    requires Reachable(limits, steps)
    requires var s := At(limits, steps);
      && c < |s.owners| && d < |s.owners|
      && Outstanding(s.pool.calls[c]) && Outstanding(s.pool.calls[d])
      && s.pool.calls[c].target.id == s.pool.calls[d].target.id
      && !CtxDone(s, s.owners[c]) && !CtxDone(s, s.owners[d])
    ensures var s := At(limits, steps);
      && c == d
      && s.loops[s.owners[c]].phase.Checking? && s.loops[s.owners[c]].phase.call == c
      && s.pool.calls[c].phase.Waiting?
  {
    AtInv(limits, steps);
    var s := At(limits, steps);
    OutstandingIsParked(s, c);
    OutstandingIsParked(s, d);
    assert s.plan.running[s.pool.calls[c].target.id] == s.owners[c];
  }

  lemma OutstandingIsParked(s: State, c: nat)
    requires Inv(s) && c < |s.owners| && Outstanding(s.pool.calls[c]) && !CtxDone(s, s.owners[c])
    ensures s.loops[s.owners[c]].phase.Checking? && s.loops[s.owners[c]].phase.call == c
    ensures s.pool.calls[c].phase.Waiting? && s.pool.calls[c].target == s.plan.gens[s.owners[c]].target
  {
    assert P.JobOk(s.pool.calls[c]) && P.CallerOk(s.pool.calls[c]);
  }

  /** An outstanding job is the one its generation is parked on if and only if that call was not aborted: the jobs
      beyond one per generation are exactly those a cancelled generation has abandoned. */
  lemma ParkedIffNotAbandoned(limits: P.Limits, steps: seq<Step>, c: nat)
    requires Reachable(limits, steps)
    requires c < |At(limits, steps).owners| && Outstanding(At(limits, steps).pool.calls[c])
    ensures var s := At(limits, steps);
      && ((s.loops[s.owners[c]].phase.Checking? && s.loops[s.owners[c]].phase.call == c) <==>
            !s.pool.calls[c].phase.Returned?)
      && (s.pool.calls[c].phase.Returned? ==>
            s.pool.calls[c].phase.outcome == P.Aborted && CtxDone(s, s.owners[c]))
  {
    AtInv(limits, steps);
    var s := At(limits, steps);
    assert P.JobOk(s.pool.calls[c]) && P.CallerOk(s.pool.calls[c]);
    if s.loops[s.owners[c]].phase.Checking? {
      assert ParkedAt(s.pool.calls, s.owners, s.owners[c], s.loops[s.owners[c]].phase.call);
    }
  }

  /** Call c has not returned and its generation has not been cancelled. */
  predicate Waits(s: State, c: nat) {
    && c < |s.owners| && c < |s.pool.calls| && !s.pool.calls[c].phase.Returned?
    && s.owners[c] < |s.plan.gens| && !s.plan.gens[s.owners[c]].cancelled
  }

  function Waiting(s: State): set<nat> { set c | 0 <= c < |s.owners| && Waits(s, c) }

  lemma WaitsUnderItsRecord(s: State, c: nat)
    requires Inv(s) && Waits(s, c)
    ensures var id := s.pool.calls[c].target.id;
      && id in s.plan.running && s.plan.running[id] == s.owners[c]
      && s.loops[s.owners[c]].phase.Checking? && s.loops[s.owners[c]].phase.call == c
  {
  }

  lemma {:induction false} CountedByTarget(s: State, cs: set<nat>, ids: set<string>)
    requires Inv(s)
    requires forall c :: c in cs ==> Waits(s, c) && s.pool.calls[c].target.id in ids
    ensures |cs| <= |ids|
    decreases cs
  {
    if c :| c in cs {
      var id := s.pool.calls[c].target.id;
      WaitsUnderItsRecord(s, c);
      forall d | d in cs && d != c ensures s.pool.calls[d].target.id != id {
        WaitsUnderItsRecord(s, d);
      }
      CountedByTarget(s, cs - {c}, ids - {id});
    }
  }

  /** Backpressure blocks no more callers than there are scheduled targets, cancelled generations that have not yet
      noticed aside. */
  lemma CallersBoundedByTargets(limits: P.Limits, steps: seq<Step>)
    requires Reachable(limits, steps)
    ensures |Waiting(At(limits, steps))| <= |At(limits, steps).plan.running|
  {
    AtInv(limits, steps);
    var s := At(limits, steps);
    forall c | c in Waiting(s) ensures s.pool.calls[c].target.id in s.plan.running.Keys {
      WaitsUnderItsRecord(s, c);
    }
    CountedByTarget(s, Waiting(s), s.plan.running.Keys);
    assert |s.plan.running.Keys| == |s.plan.running|;
  }

  // ---------------------------------------------------------------- no orphans

  /** A generation that has not exited is the recorded one of its target or has been cancelled; one that is
      recorded and uncancelled has not exited. The wait group counts the unexited ones, and none is left when Start
      returns. */
  lemma NoOrphans(limits: P.Limits, steps: seq<Step>, g: nat)
    requires Reachable(limits, steps) && g < |At(limits, steps).loops|
    ensures var s := At(limits, steps);
      && |s.loops| == |s.plan.gens|
      && (!s.loops[g].phase.Gone? ==>
            s.plan.gens[g].cancelled
            || (s.plan.gens[g].target.id in s.plan.running && s.plan.running[s.plan.gens[g].target.id] == g))
      && (!CtxDone(s, g) ==> !s.loops[g].phase.Gone?)
      && s.live == Sum(s.loops, Unexited)
      && (s.phase.Stopped? ==> s.loops[g].phase.Gone?)
  {
    AtInv(limits, steps);
    var s := At(limits, steps);
    if s.phase.Stopped? {
      SumZero(s.loops, Unexited);
      assert Unexited(s.loops[g]) == 0;
    }
  }

  // ---------------------------------------------------------------- results

  /** What Submit returned to a call; error is the context's error. */
  function Submitted(call: P.Call, error: P.ContextError): Result<CheckResults.CheckResult, P.ContextError>
    requires call.phase.Returned?
  {
    match call.phase.outcome
    case Answered(result) => Ok(result)
    case Aborted => Err(error)
  }

  /** Whatever Pool.Check hands to a generation, after a check, a recovered panic or an aborted submission, is a
      valid result for the generation's own target. It makes up a cancelled result only under a done context. */
  lemma ResultsAreValid(limits: P.Limits, steps: seq<Step>, c: nat, error: P.ContextError, freshId: string,
                        at: CheckResults.Time)
    requires Reachable(limits, steps)
    requires var s := At(limits, steps);
      && c < |s.owners| && s.pool.calls[c].phase.Returned? && s.plan.gens[s.owners[c]].target.id != ""
    requires freshId != "" && at != CheckResults.ZERO_TIME
    ensures var s := At(limits, steps);
      var call, t := s.pool.calls[c], s.plan.gens[s.owners[c]].target;
      var r := P.Handed(call.target, Submitted(call, error), freshId, at);
      && r.Ok? && r.value.Validate() == None && r.value.targetID == t.id
      && (call.phase.outcome.Aborted? ==> r.value.outcome == CheckResults.OutcomeCanceled && CtxDone(s, s.owners[c]))
  {
    AtInv(limits, steps);
    var s := At(limits, steps);
    var call := s.pool.calls[c];
    assert P.JobOk(call) && P.CallerOk(call);
    if call.phase.outcome.Answered? {
      AnswerIsValid(call);
    } else {
      assert |error.Text()| > 0;
    }
  }

  lemma AnswerIsValid(call: P.Call)
    requires P.JobOk(call) && P.CallerOk(call) && call.phase.Returned? && call.phase.outcome.Answered?
    requires call.target.id != "" && MayReport(call.target, call.job[2].execution)
    ensures call.phase.outcome.result.Validate() == None && call.phase.outcome.result.targetID == call.target.id
  {
    var e := call.job[2].execution;
    if e.Completed? {
      Checker.GenuineIsValid(call.target, e.result);
    } else {
      P.PanicSubstitute(call.target, e);
    }
  }

  // ---------------------------------------------------------------- shutdown order

  /** Once the database pool is closed nothing of the scheduler, of any generation or of the worker pool moves: no
      listing, no check, no worker step. The only thing left is a request that outlived Shutdown's deadline, and
      there is none if Shutdown reported that the server had drained. */
  lemma NothingRunsAfterClose(limits: P.Limits, steps: seq<Step>, step: Step)
    requires Reachable(limits, steps)
    requires At(limits, steps).main.Closed? && Enabled(At(limits, steps), step)
    ensures step == OfMain(RequestDone) && !At(limits, steps).drained
  {
    AtInv(limits, steps);
    var s := At(limits, steps);
    ClosedIsQuiet(s);
    match step {
      case PoolStep(p) => ClosedPool(s, p);
      case _ =>
    }
  }

  lemma ClosedIsQuiet(s: State)
    requires Inv(s) && s.phase.Stopped?
    ensures forall g :: 0 <= g < |s.loops| ==> s.loops[g].phase.Gone? && !s.loops[g].tick
    ensures forall c :: 0 <= c < |s.pool.calls| ==> s.pool.calls[c].phase.Returned?
  {
    SumZero(s.loops, Unexited);
    forall g | 0 <= g < |s.loops| ensures s.loops[g].phase.Gone? {
      assert Unexited(s.loops[g]) == 0;
    }
  }

  lemma ClosedPool(s: State, p: P.Step)
    requires Inv(s) && s.phase.Stopped? && s.pool.startReturned
    ensures !(OwnStep(p) && P.Enabled(s.pool, p))
  {
    ClosedIsQuiet(s);
    SumZero(s.pool.workers, P.Alive);
    if p.Pick? || p.Finish? || p.Deliver? || p.Exit? {
      if p.worker < |s.pool.workers| {
        assert P.Alive(s.pool.workers[p.worker]) == 0;
      }
    }
  }
}
