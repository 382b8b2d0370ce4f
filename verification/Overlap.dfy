/**
 When checks of one target can overlap. The comments promise at most one outstanding check per target. A generation
 whose context is done need not keep to that, alone or beside its replacement, until it has exited and its jobs are
 done; these lemmas say exactly when two checks can be in flight before the scheduler moves again.
 */
module Overlap {
  import opened Monitor
  import opened MonitorInvariant
  import opened MonitorRuns
  import opened Schedules
  import P = WorkerPool
  import PoolProperties
  import MonitorProperties
  import AbortedCalls

  /** Job c is a check of target id and is queued, executing or about to be delivered. */
  predicate Flies(s: State, id: string, c: nat) {
    c < |s.pool.calls| && InFlight(s.pool.calls[c]) && s.pool.calls[c].target.id == id
  }

  ghost predicate Overlaps(s: State, id: string) {
    exists c: nat, d: nat :: c != d && Flies(s, id, c) && Flies(s, id, d)
  }

  /** Without the scheduler taking a step and without the end of a context. */
  ghost predicate CanOverlap(s: State, id: string) {
    exists t :: Leads(Quiet, s, t) && Overlaps(t, id)
  }

  /** Generation g was started for target id and has not exited. */
  predicate Unended(s: State, id: string, g: nat) {
    && g < |s.loops| && g < |s.plan.gens| && !s.loops[g].phase.Gone? && s.plan.gens[g].target.id == id
  }

  /** And it is cancelled. */
  predicate Lingers(s: State, id: string, g: nat) { Unended(s, id, g) && s.plan.gens[g].cancelled }

  /** Job c is in flight for target id although its caller has returned. */
  predicate Abandoned(s: State, id: string, c: nat) { Flies(s, id, c) && s.pool.calls[c].phase.Returned? }

  /** The only worker would have to finish a job before the full queue, which holds none of id's, can move. */
  predicate Jammed(p: P.State, id: string) {
    && p.limits.workers == 1 && |p.queue| == p.limits.capacity
    && (forall i :: 0 <= i < |p.queue| ==> p.queue[i] < |p.calls| && p.calls[p.queue[i]].target.id != id)
  }

  /** The job at position i of the queue is a check of id. */
  predicate QueuedFor(p: P.State, id: string, i: nat) {
    i < |p.queue| && p.queue[i] < |p.calls| && p.calls[p.queue[i]].target.id == id
  }

  /** Two jobs of id can be in flight: a worker is left to make room, or the free slots of the queue and the jobs of
      id that are stuck in it are enough. */
  ghost predicate RoomForTwo(p: P.State, id: string) {
    || AbortedCalls.WorkerLeft(p)
    || |p.queue| + 2 <= p.limits.capacity
    || (|p.queue| + 1 <= p.limits.capacity && exists i: nat :: QueuedFor(p, id, i))
  }

  // ---------------------------------------------------------------- what quiet steps keep

  /** Neither plan nor root context changes, and what has exited has exited. */
  ghost predicate Still(s: State, t: State) {
    && t.plan == s.plan && t.pool.done == s.pool.done && |t.loops| == |s.loops|
    && (forall g :: 0 <= g < |s.loops| && s.loops[g].phase.Gone? ==> t.loops[g].phase.Gone?)
  }

  lemma LoopIsStill(s: State, l: LoopStep)
    requires LoopEnabled(s, l)
    ensures Still(s, LoopNext(s, l))
  {
  }

  lemma PoolIsStill(s: State, p: P.Step)
    requires PoolEnabled(s, p)
    ensures Still(s, s.(pool := P.Next(s.pool, p)))
  {
  }

  lemma MainIsStill(s: State, m: MainStep)
    requires MainEnabled(s, m) && Quiet(OfMain(m))
    ensures Still(s, MainNext(s, m))
  {
  }

  lemma QuietIsStill(s: State, step: Step)
    requires Enabled(s, step) && Quiet(step)
    ensures Still(s, Next(s, step))
  {
    match step {
      case PoolStep(p) => PoolIsStill(s, p);
      case OfLoop(l) => LoopIsStill(s, l);
      case OfMain(m) => MainIsStill(s, m);
    }
  }

  /** No generation of id but g0 is left. */
  ghost predicate Alone(s: State, id: string, g0: nat) {
    && g0 < |s.loops| && |s.loops| == |s.plan.gens| && s.plan.gens[g0].target.id == id
    && !s.plan.gens[g0].cancelled && !s.pool.done
    && (forall g :: 0 <= g < |s.loops| && g != g0 && s.plan.gens[g].target.id == id ==> s.loops[g].phase.Gone?)
  }

  ghost predicate Settled(s: State, id: string, g0: nat) {
    Alone(s, id, g0) && ((forall c: nat :: !Abandoned(s, id, c)) || Jammed(s.pool, id))
  }

  lemma JobsOfOne(s: State, id: string, g0: nat, c: nat)
    requires Inv(s) && Alone(s, id, g0) && Flies(s, id, c) && !s.pool.calls[c].phase.Returned?
    ensures s.owners[c] == g0 && s.loops[g0].phase.Checking? && s.loops[g0].phase.call == c
    ensures !s.pool.calls[c].ctxDone
  {
  }

  /** A caller of g0 does not give up: its context is alive. */
  lemma NoNewAbandonment(s: State, step: Step, id: string, g0: nat, c: nat)
    requires Inv(s) && Enabled(s, step) && Quiet(step) && Alone(s, id, g0)
    requires Abandoned(Next(s, step), id, c)
    ensures Abandoned(s, id, c)
  {
    match step {
      case PoolStep(p) => PoolAbandonsNothing(s.pool, p, id, c);
      case OfLoop(l) => LoopAbandonsNothing(s, l, id, g0, c);
      case OfMain(_) =>
    }
  }

  lemma PoolAbandonsNothing(s: P.State, p: P.Step, id: string, c: nat)
    requires P.Inv(s) && P.Enabled(s, p) && OwnStep(p) && c < |P.Next(s, p).calls|
    requires InFlight(P.Next(s, p).calls[c]) && P.Next(s, p).calls[c].phase.Returned?
    ensures c < |s.calls| && InFlight(s.calls[c]) && s.calls[c].phase.Returned?
    ensures s.calls[c].target == P.Next(s, p).calls[c].target
  {
    assert P.JobOk(s.calls[c]) && P.CallerOk(s.calls[c]);
    if p.Finish? || p.Deliver? || p.Pick? {
      assert P.HolderOk(s.calls, s.workers, s.done, p.worker);
    }
  }

  lemma LoopAbandonsNothing(s: State, l: LoopStep, id: string, g0: nat, c: nat)
    requires Inv(s) && LoopEnabled(s, l) && Alone(s, id, g0) && Abandoned(LoopNext(s, l), id, c)
    ensures Abandoned(s, id, c)
  {
    if l.EndCheck? {
      var d := s.loops[l.g].phase.call;
      assert ParkedAt(s.pool.calls, s.owners, l.g, d);
      assert P.JobOk(s.pool.calls[d]) && P.CallerOk(s.pool.calls[d]);
      assert s.owners[d] == l.g;
    }
  }

  /** A jammed pool stays so until none of id's jobs is left. */
  lemma JamStays(s: State, step: Step, id: string)
    requires Inv(s) && !s.pool.done && Enabled(s, step) && Quiet(step) && Jammed(s.pool, id)
    ensures Jammed(Next(s, step).pool, id) || forall c: nat :: !Flies(Next(s, step), id, c)
  {
    match step {
      case PoolStep(p) =>
        if p.Pick? {
          NothingHeld(s.pool, id, p.worker);
          PickBringsOther(s.pool, id, p.worker);
        } else {
          JamStaysInPool(s.pool, p, id);
        }
      case OfLoop(l) => JamStaysInLoop(s, l, id);
      case OfMain(_) =>
    }
  }

  lemma JamStaysInPool(s: P.State, p: P.Step, id: string)
    requires P.Inv(s) && P.Enabled(s, p) && OwnStep(p) && !p.Pick? && Jammed(s, id)
    ensures Jammed(P.Next(s, p), id)
  {
  }

  lemma JamStaysWithCallers(p: P.State, step: P.Step, id: string)
    requires P.Enabled(p, step) && (step.Begin? || step.Take? || step.Abort?) && Jammed(p, id)
    ensures Jammed(P.Next(p, step), id)
  {
  }

  lemma JamStaysInLoop(s: State, l: LoopStep, id: string)
    requires LoopEnabled(s, l) && Jammed(s.pool, id)
    ensures Jammed(LoopNext(s, l).pool, id)
  {
    MonitorProperties.LoopProjects(s, l);
    var part := MonitorProperties.LoopPart(s, l);
    if part != [] {
      JamStaysWithCallers(s.pool, part[0], id);
    }
  }

  /** With the only worker idle and none of id's jobs queued, none is in flight. */
  lemma NothingHeld(p: P.State, id: string, w: nat)
    requires P.Inv(p) && Jammed(p, id) && w < |p.workers| && p.workers[w].Idle?
    ensures forall c :: 0 <= c < |p.calls| && p.calls[c].target.id == id ==> !InFlight(p.calls[c])
  {
    forall c | 0 <= c < |p.calls| && p.calls[c].target.id == id ensures !InFlight(p.calls[c]) {
      PoolProperties.Place(p, c);
      assert forall v: nat :: !PoolProperties.HeldBy(p, v, c);
    }
  }

  lemma PickBringsOther(p: P.State, id: string, w: nat)
    requires P.Inv(p) && Jammed(p, id) && P.Enabled(p, P.Pick(w))
    requires forall c :: 0 <= c < |p.calls| && p.calls[c].target.id == id ==> !InFlight(p.calls[c])
    ensures var q := P.Next(p, P.Pick(w));
      forall c :: 0 <= c < |q.calls| && q.calls[c].target.id == id ==> !InFlight(q.calls[c])
  {
    assert p.calls[p.queue[0]].target.id != id;
  }

  lemma SettledStays(s: State, step: Step, id: string, g0: nat)
    requires Inv(s) && Enabled(s, step) && Quiet(step) && Settled(s, id, g0)
    ensures Settled(Next(s, step), id, g0)
  {
    QuietIsStill(s, step);
    if Jammed(s.pool, id) {
      JamStays(s, step, id);
    } else {
      forall c: nat ensures !Abandoned(Next(s, step), id, c) {
        if Abandoned(Next(s, step), id, c) {
          NoNewAbandonment(s, step, id, g0, c);
        }
      }
    }
  }

  lemma SettledMeansNoOverlap(s: State, id: string, g0: nat)
    requires Inv(s) && Settled(s, id, g0)
    ensures !Overlaps(s, id)
  {
    forall c: nat, d: nat | Flies(s, id, c) && Flies(s, id, d) ensures c == d {
      if Jammed(s.pool, id) {
        HeldByTheOne(s.pool, id, c);
        HeldByTheOne(s.pool, id, d);
      } else {
        assert !Abandoned(s, id, c) && !Abandoned(s, id, d);
        JobsOfOne(s, id, g0, c);
        JobsOfOne(s, id, g0, d);
      }
    }
  }

  lemma HeldByTheOne(p: P.State, id: string, c: nat)
    requires P.Inv(p) && Jammed(p, id) && c < |p.calls| && InFlight(p.calls[c]) && p.calls[c].target.id == id
    ensures PoolProperties.HeldBy(p, 0, c)
  {
    PoolProperties.Place(p, c);
    assert !PoolProperties.Queued(p, c);
    var w: nat :| PoolProperties.HeldBy(p, w, c);
    assert w == 0;
  }

  lemma {:induction false} SettledRun(s: State, steps: seq<Step>, id: string, g0: nat)
    requires Inv(s) && ValidRun(s, steps) && Only(steps, Quiet) && Settled(s, id, g0)
    ensures !Overlaps(After(s, steps), id)
    decreases |steps|
  {
    if steps == [] {
      SettledMeansNoOverlap(s, id, g0);
    } else {
      assert Quiet(steps[0]);
      StepInv(s, steps[0]);
      SettledStays(s, steps[0], id, g0);
      SettledRun(Next(s, steps[0]), steps[1..], id, g0);
    }
  }

  // ---------------------------------------------------------------- building the overlap

  /** A generation whose context is done can overlap with itself: it gives up a call whose job is in flight, takes a
      tick instead of its context, and submits another. */
  lemma SelfOverlaps(s: State, id: string, g: nat)
    requires Inv(s) && Unended(s, id, g) && CtxDone(s, g) && RoomForTwo(s.pool, id)
    ensures CanOverlap(s, id)
  {
    if AbortedCalls.WorkerLeft(s.pool) {
      OverlapsWithWorker(s, id, g);
    } else if |s.pool.queue| + 2 <= s.pool.limits.capacity {
      var s1, c := AddsJob(s, g);
      AddsBeside(s1, id, g, c);
      CanOverlapAfter(s, s1, id);
    } else {
      var i: nat :| QueuedFor(s.pool, id, i);
      assert |s.pool.calls[s.pool.queue[i]].job| == 1;
      AddsBeside(s, id, g, s.pool.queue[i]);
    }
  }

  lemma CanOverlapAfter(s: State, s1: State, id: string)
    requires Leads(Quiet, s, s1) && CanOverlap(s1, id)
    ensures CanOverlap(s, id)
  {
    var t :| Leads(Quiet, s1, t) && Overlaps(t, id);
    LeadsTransitive(Quiet, s, s1, t);
  }

  lemma AddsBeside(s: State, id: string, g: nat, c: nat)
    requires Inv(s) && Unended(s, id, g) && CtxDone(s, g) && Flies(s, id, c)
    requires |s.pool.queue| < s.pool.limits.capacity
    ensures CanOverlap(s, id)
  {
    var t, d := AddsJob(s, g);
    assert Flies(t, id, c) && Flies(t, id, d);
  }

  lemma OverlapsWithWorker(s: State, id: string, g: nat)
    requires Inv(s) && Unended(s, id, g) && CtxDone(s, g) && AbortedCalls.WorkerLeft(s.pool)
    ensures CanOverlap(s, id)
  {
    var s1 := Drain(s);
    var s2, c := AddsJob(s1, g);
    QueuedHasRoom(s2.pool, c);
    var s3 := MakeRoom(s2, c);
    AddsBeside(s3, id, g, c);
    CanOverlapAfter(s2, s3, id);
    CanOverlapAfter(s1, s2, id);
    CanOverlapAfter(s, s1, id);
  }

  /** A generation that has not exited can add a job to an abandoned one. */
  lemma AbandonedCanOverlap(s: State, id: string, c: nat, g: nat)
    requires Inv(s) && !s.pool.done && Abandoned(s, id, c) && !Jammed(s.pool, id)
    requires g < |s.loops| && !s.loops[g].phase.Gone? && s.plan.gens[g].target.id == id
    ensures CanOverlap(s, id)
  {
    var a := BesideWhich(s.pool, id, c);
    if !s.pool.calls[a].phase.Returned? {
      LeadsSelf(Quiet, s);
      assert Flies(s, id, a) && Flies(s, id, c);
    } else {
      assert s.loops[g].phase.Checking? ==> ParkedAt(s.pool.calls, s.owners, g, s.loops[g].phase.call);
      var t, d := Joins(s, a, g);
      assert Flies(t, id, a) && Flies(t, id, d);
    }
  }

  /** Outside a jam some job of id has room beside it: c itself, or one that is queued. */
  lemma BesideWhich(p: P.State, id: string, c: nat) returns (a: nat)
    requires P.Inv(p) && c < |p.calls| && InFlight(p.calls[c]) && p.calls[c].target.id == id && !Jammed(p, id)
    requires !p.done
    ensures a < |p.calls| && InFlight(p.calls[a]) && p.calls[a].target.id == id && RoomBeside(p, a)
    ensures a == c || a in p.queue
  {
    AbortedCalls.WorkerLeftMeans(p);
    if |p.queue| < p.limits.capacity {
      a := c;
    } else if p.limits.workers >= 2 {
      RunningHasRoom(p, c);
      a := c;
    } else {
      var i :| 0 <= i < |p.queue| && !(p.queue[i] < |p.calls| && p.calls[p.queue[i]].target.id != id);
      a := p.queue[i];
      assert |p.calls[a].job| == 1;
      QueuedHasRoom(p, a);
    }
  }

  // ---------------------------------------------------------------- exactly when

  lemma RecordIsLive(s: State, id: string)
    requires Inv(s) && !s.pool.done && id in s.plan.running
    ensures var g0 := s.plan.running[id];
      && g0 < |s.loops| && !s.loops[g0].phase.Gone?
      && s.plan.gens[g0].target.id == id && !s.plan.gens[g0].cancelled
  {
  }

  /** For a scheduled target, while the root context lasts. */
  lemma ScheduledOverlapIff(s: State, id: string)
    requires Inv(s) && !s.pool.done && id in s.plan.running
    ensures CanOverlap(s, id) <==>
              (exists g: nat :: Lingers(s, id, g)) || ((exists c: nat :: Abandoned(s, id, c)) && !Jammed(s.pool, id))
  {
    var g0 := s.plan.running[id];
    RecordIsLive(s, id);
    AbortedCalls.WorkerLeftMeans(s.pool);
    if g: nat :| Lingers(s, id, g) {
      SelfOverlaps(s, id, g);
    } else if c: nat :| Abandoned(s, id, c) && !Jammed(s.pool, id) {
      AbandonedCanOverlap(s, id, c, g0);
    } else {
      NoneLingersMeansAlone(s, id);
      if t :| Leads(Quiet, s, t) && Overlaps(t, id) {
        var steps :| ValidRun(s, steps) && Only(steps, Quiet) && After(s, steps) == t;
        SettledRun(s, steps, id, g0);
      }
    }
  }

  lemma NoneLingersMeansAlone(s: State, id: string)
    requires Inv(s) && !s.pool.done && id in s.plan.running && forall g: nat :: !Lingers(s, id, g)
    ensures Alone(s, id, s.plan.running[id])
  {
    var g0 := s.plan.running[id];
    RecordIsLive(s, id);
    forall g | 0 <= g < |s.loops| && g != g0 && s.plan.gens[g].target.id == id ensures s.loops[g].phase.Gone? {
      assert !Lingers(s, id, g);
    }
  }

  // ---------------------------------------------------------------- without any generation left

  ghost predicate Extinct(s: State, id: string) {
    |s.loops| == |s.plan.gens| && forall g: nat :: !Unended(s, id, g)
  }

  lemma NoCallers(s: State, id: string, c: nat)
    requires Inv(s) && Extinct(s, id) && c < |s.pool.calls| && s.pool.calls[c].target.id == id
    ensures s.pool.calls[c].phase.Returned?
  {
    assert !Unended(s, id, s.owners[c]);
  }

  lemma NoNewFlight(s: State, step: Step, id: string, c: nat)
    requires Inv(s) && Enabled(s, step) && Quiet(step) && Extinct(s, id) && Flies(Next(s, step), id, c)
    ensures Flies(s, id, c)
  {
    match step {
      case PoolStep(p) =>
        PoolLaunchesOnlyCallers(s.pool, p, c);
        NoCallers(s, id, c);
      case OfLoop(l) => LoopQueuesNothing(s, l, c);
      case OfMain(_) =>
    }
  }

  lemma PoolLaunchesOnlyCallers(p: P.State, step: P.Step, c: nat)
    requires P.Inv(p) && P.Enabled(p, step) && OwnStep(step)
    requires c < |P.Next(p, step).calls| && InFlight(P.Next(p, step).calls[c])
    ensures c < |p.calls| && P.Next(p, step).calls[c].target == p.calls[c].target
    ensures InFlight(p.calls[c]) || !p.calls[c].phase.Returned?
  {
    assert P.JobOk(p.calls[c]) && P.CallerOk(p.calls[c]);
    if step.Finish? || step.Deliver? || step.Pick? {
      assert P.HolderOk(p.calls, p.workers, p.done, step.worker);
    }
  }

  lemma CallersQueueNothing(p: P.State, step: P.Step, c: nat)
    requires P.Enabled(p, step) && (step.Begin? || step.Take? || step.Abort?)
    requires c < |P.Next(p, step).calls| && InFlight(P.Next(p, step).calls[c])
    ensures c < |p.calls| && InFlight(p.calls[c]) && p.calls[c].target == P.Next(p, step).calls[c].target
  {
  }

  lemma LoopQueuesNothing(s: State, l: LoopStep, c: nat)
    requires LoopEnabled(s, l) && c < |LoopNext(s, l).pool.calls| && InFlight(LoopNext(s, l).pool.calls[c])
    ensures c < |s.pool.calls| && InFlight(s.pool.calls[c])
    ensures s.pool.calls[c].target == LoopNext(s, l).pool.calls[c].target
  {
    MonitorProperties.LoopProjects(s, l);
    var part := MonitorProperties.LoopPart(s, l);
    if part != [] {
      CallersQueueNothing(s.pool, part[0], c);
    }
  }

  lemma {:induction false} ExtinctRun(s: State, steps: seq<Step>, id: string)
    requires Inv(s) && ValidRun(s, steps) && Only(steps, Quiet) && Extinct(s, id) && !Overlaps(s, id)
    ensures !Overlaps(After(s, steps), id)
    decreases |steps|
  {
    if steps != [] {
      assert Quiet(steps[0]);
      StepInv(s, steps[0]);
      ExtinctStays(s, steps[0], id);
      ExtinctRun(Next(s, steps[0]), steps[1..], id);
    }
  }

  lemma ExtinctStays(s: State, step: Step, id: string)
    requires Inv(s) && Enabled(s, step) && Quiet(step) && Extinct(s, id) && !Overlaps(s, id)
    ensures Extinct(Next(s, step), id) && !Overlaps(Next(s, step), id)
  {
    QuietIsStill(s, step);
    var t := Next(s, step);
    forall g: nat ensures !Unended(t, id, g) {
      assert !Unended(s, id, g);
    }
    forall c: nat, d: nat | Flies(t, id, c) && Flies(t, id, d) ensures c == d {
      NoNewFlight(s, step, id, c);
      NoNewFlight(s, step, id, d);
    }
  }

  // ---------------------------------------------------------------- without any worker left

  /** Nothing leaves the queue any more, and there is no room in it for a second job of id. */
  ghost predicate Starved(p: P.State, id: string) {
    && !AbortedCalls.WorkerLeft(p) && p.limits.capacity <= |p.queue| + 1
    && (|p.queue| < p.limits.capacity ==> forall i: nat :: !QueuedFor(p, id, i))
    && (forall i: nat, j: nat :: QueuedFor(p, id, i) && QueuedFor(p, id, j) ==> i == j)
  }

  lemma StarvedInFlight(p: P.State, id: string, c: nat)
    requires P.Inv(p) && !AbortedCalls.WorkerLeft(p) && c < |p.calls| && p.calls[c].target.id == id
    ensures InFlight(p.calls[c]) <==> exists i: nat :: QueuedFor(p, id, i) && p.queue[i] == c
  {
    AbortedCalls.WorkerLeftMeans(p);
    PoolProperties.Place(p, c);
    if i: nat :| i < |p.queue| && p.queue[i] == c {
      assert QueuedFor(p, id, i);
    }
  }

  lemma StarvedStep(p: P.State, step: P.Step, id: string)
    requires P.Inv(p) && P.Enabled(p, step) && Starved(p, id)
    ensures Starved(P.Next(p, step), id)
  {
    AbortedCalls.WorkerLeftMeans(p);
    var q := P.Next(p, step);
    QueueOnlyGrows(p, step);
    forall i: nat | QueuedFor(q, id, i) && i < |p.queue| ensures QueuedFor(p, id, i) {
    }
  }

  lemma QueueOnlyGrows(p: P.State, step: P.Step)
    requires P.Inv(p) && P.Enabled(p, step) && !AbortedCalls.WorkerLeft(p)
    ensures var q := P.Next(p, step);
      && !AbortedCalls.WorkerLeft(q) && q.limits == p.limits && |p.calls| <= |q.calls|
      && (q.queue == p.queue || (|p.queue| < p.limits.capacity && exists c :: q.queue == p.queue + [c]))
      && (forall c :: 0 <= c < |p.calls| ==> q.calls[c].target == p.calls[c].target)
  {
    AbortedCalls.WorkerLeftMeans(p);
    if step.Enqueue? {
      assert P.Next(p, step).queue == p.queue + [step.call];
    }
  }

  lemma {:induction false} StarvedRun(s: State, steps: seq<Step>, id: string)
    requires Inv(s) && ValidRun(s, steps) && Starved(s.pool, id)
    ensures !Overlaps(After(s, steps), id)
    decreases |steps|
  {
    if steps == [] {
      forall c: nat, d: nat | Flies(s, id, c) && Flies(s, id, d) ensures c == d {
        StarvedInFlight(s.pool, id, c);
        StarvedInFlight(s.pool, id, d);
      }
    } else {
      StepInv(s, steps[0]);
      MonitorProperties.StepProjects(s, steps[0]);
      var part := MonitorProperties.PoolPart(s, steps[0]);
      if part != [] {
        StarvedStep(s.pool, part[0], id);
      }
      StarvedRun(Next(s, steps[0]), steps[1..], id);
    }
  }

  lemma NoRoomStarves(s: State, id: string)
    requires Inv(s) && !RoomForTwo(s.pool, id) && !Overlaps(s, id)
    ensures Starved(s.pool, id)
  {
    var p := s.pool;
    forall i: nat, j: nat | QueuedFor(p, id, i) && QueuedFor(p, id, j) ensures i == j {
      assert |p.calls[p.queue[i]].job| == 1 && |p.calls[p.queue[j]].job| == 1;
      assert Flies(s, id, p.queue[i]) && Flies(s, id, p.queue[j]);
      P.QueueDistinct(p.queue, p.enqueued, p.picked);
    }
  }

  // ---------------------------------------------------------------- exactly when, for every id in every state

  /** Before the scheduler moves again and before another context ends, two checks of id can be in flight at once if
      and only if they are already, or: while the root context lasts, a cancelled generation of id has not exited, or
      id is scheduled, an abandoned job of it is in flight, and the pool is not jammed behind that job; after it has
      ended, some generation of id has not exited, and there is room for two of its jobs. */
  lemma OverlapIff(s: State, id: string)
    requires Inv(s)
    ensures CanOverlap(s, id) <==>
              || Overlaps(s, id)
              || (if s.pool.done then (exists g: nat :: Unended(s, id, g)) && RoomForTwo(s.pool, id)
                  else (exists g: nat :: Lingers(s, id, g))
                       || (id in s.plan.running && (exists c: nat :: Abandoned(s, id, c)) && !Jammed(s.pool, id)))
  {
    if Overlaps(s, id) {
      LeadsSelf(Quiet, s);
    } else if s.pool.done {
      EndedOverlapIff(s, id);
    } else if id in s.plan.running {
      ScheduledOverlapIff(s, id);
    } else {
      UnscheduledOverlapIff(s, id);
    }
  }

  lemma NeverOverlapsWhenExtinct(s: State, id: string)
    requires Inv(s) && Extinct(s, id) && !Overlaps(s, id)
    ensures !CanOverlap(s, id)
  {
    if t :| Leads(Quiet, s, t) && Overlaps(t, id) {
      var steps :| ValidRun(s, steps) && Only(steps, Quiet) && After(s, steps) == t;
      ExtinctRun(s, steps, id);
    }
  }

  /** For a target that has been disabled or deleted, while the root context lasts. */
  lemma UnscheduledOverlapIff(s: State, id: string)
    requires Inv(s) && !s.pool.done && id !in s.plan.running && !Overlaps(s, id)
    ensures CanOverlap(s, id) <==> exists g: nat :: Lingers(s, id, g)
  {
    AbortedCalls.WorkerLeftMeans(s.pool);
    if g: nat :| Lingers(s, id, g) {
      SelfOverlaps(s, id, g);
    } else {
      forall g: nat ensures !Unended(s, id, g) {
        assert !Lingers(s, id, g);
      }
      NeverOverlapsWhenExtinct(s, id);
    }
  }

  /** After the root context has ended: every generation that has not exited can overlap with itself. */
  lemma EndedOverlapIff(s: State, id: string)
    requires Inv(s) && s.pool.done && !Overlaps(s, id)
    ensures CanOverlap(s, id) <==> (exists g: nat :: Unended(s, id, g)) && RoomForTwo(s.pool, id)
  {
    if g: nat :| Unended(s, id, g) {
      if RoomForTwo(s.pool, id) {
        SelfOverlaps(s, id, g);
      } else {
        NoRoomStarves(s, id);
        if t :| Leads(Quiet, s, t) && Overlaps(t, id) {
          var steps :| ValidRun(s, steps) && Only(steps, Quiet) && After(s, steps) == t;
          StarvedRun(s, steps, id);
        }
      }
    } else {
      NeverOverlapsWhenExtinct(s, id);
    }
  }

  // ---------------------------------------------------------------- at a restart

  /** A target that is about to be started, new or for the second half of a restart: starting it makes an overlap
      possible if and only if any generation of it has not exited, or a job of it is still in flight and the pool is
      not jammed behind it. */
  lemma StartCanOverlapIff(s: State)
    requires Inv(s) && !s.pool.done && SchedulerEnabled(s, StartOne) && s.phase.list[s.phase.at].interval > 0
    ensures var id := s.phase.list[s.phase.at].id;
      CanOverlap(SchedulerNext(s, StartOne), id) <==>
        (exists g :: 0 <= g < |s.loops| && !s.loops[g].phase.Gone? && s.plan.gens[g].target.id == id)
        || ((exists c: nat :: Abandoned(s, id, c)) && !Jammed(s.pool, id))
  {
    var t := s.phase.list[s.phase.at];
    var s' := SchedulerNext(s, StartOne);
    StepInv(s, OfScheduler(StartOne));
    ScheduledOverlapIff(s', t.id);
    forall g: nat ensures Lingers(s', t.id, g) <==>
                            g < |s.loops| && !s.loops[g].phase.Gone? && s.plan.gens[g].target.id == t.id {
    }
    if g :| 0 <= g < |s.loops| && !s.loops[g].phase.Gone? && s.plan.gens[g].target.id == t.id {
      assert Lingers(s', t.id, g);
    }
    assert s'.pool == s.pool;
    assert forall c: nat :: Abandoned(s', t.id, c) <==> Abandoned(s, t.id, c);
  }

  /** Every restart of a scheduled target makes an overlap possible: the old generation is only cancelled, not
      awaited, before the new one is started. */
  lemma RestartCanOverlap(s: State)
    requires Inv(s) && !s.pool.done && SchedulerEnabled(s, VisitOne)
    requires var t := s.phase.list[s.phase.at];
      t.enabled && t.interval > 0 && t.id in s.plan.running && s.plan.gens[s.plan.running[t.id]].target != t
    ensures var s1 := SchedulerNext(s, VisitOne);
      SchedulerEnabled(s1, StartOne) && CanOverlap(SchedulerNext(s1, StartOne), s.phase.list[s.phase.at].id)
  {
    var t := s.phase.list[s.phase.at];
    var g := s.plan.running[t.id];
    RecordIsLive(s, t.id);
    var s1 := SchedulerNext(s, VisitOne);
    StepInv(s, OfScheduler(VisitOne));
    assert s1.loops == s.loops && s1.plan.gens[g].target.id == t.id;
    StartCanOverlapIff(s1);
  }

  // ---------------------------------------------------------------- at a stop, at shutdown

  /** A target that is disabled or no longer listed: stopping it makes it possible for its one generation to overlap
      with itself. */
  lemma StopCanOverlap(s: State, step: SchedulerStep, id: string)
    requires Inv(s) && !s.pool.done && SchedulerEnabled(s, step) && id in s.plan.running
    requires (step == VisitOne && s.phase.list[s.phase.at].id == id && !s.phase.list[s.phase.at].enabled)
             || (step == PruneOne(id) && id !in Ids(s.phase.list))
    ensures id !in SchedulerNext(s, step).plan.running && CanOverlap(SchedulerNext(s, step), id)
  {
    var g, t := s.plan.running[id], SchedulerNext(s, step);
    RecordIsLive(s, id);
    StepInv(s, OfScheduler(step));
    assert Lingers(t, id, g);
    OverlapIff(t, id);
  }

  /** The end of the root context makes it possible for every generation of the schedule to overlap with itself. */
  lemma SignalCanOverlap(s: State, id: string)
    requires Inv(s) && !s.pool.done && id in s.plan.running
    ensures CanOverlap(RootCancel(s), id)
  {
    var g, t := s.plan.running[id], RootCancel(s);
    RecordIsLive(s, id);
    RootCancelInv(s);
    AbortedCalls.WorkerLeftMeans(s.pool);
    assert Unended(t, id, g);
    OverlapIff(t, id);
  }

  // ---------------------------------------------------------------- checks after cancellation

  /** Generation g has made a call that it had not made in s. */
  ghost predicate ChecksAgain(s: State, t: State, g: nat) {
    exists c: nat :: |s.owners| <= c < |t.owners| && t.owners[c] == g
  }

  /** A generation whose context is done can still begin another check if and only if it has not exited: its select
      may prefer a tick, and its first check does not look at the context at all. */
  lemma StillChecksIff(s: State, g: nat)
    requires Inv(s) && g < |s.loops| && CtxDone(s, g)
    ensures (exists t :: Leads(Quiet, s, t) && ChecksAgain(s, t, g)) <==> !s.loops[g].phase.Gone?
  {
    if s.loops[g].phase.Gone? {
      if t :| Leads(Quiet, s, t) && ChecksAgain(s, t, g) {
        var steps :| ValidRun(s, steps) && Only(steps, Quiet) && After(s, steps) == t;
        GoneChecksNothing(s, steps, g, |s.owners|);
      }
    } else {
      var s1 := GivesUp(s, g);
      var t := BringToSubmit(s1, g);
      SubmitPhase(t, g);
      LeadsTransitive(Quiet, s, s1, t);
      assert t.owners[t.loops[g].phase.call] == g;
    }
  }

  lemma {:induction false} GoneChecksNothing(s: State, steps: seq<Step>, g: nat, n: nat)
    requires ValidRun(s, steps) && Only(steps, Quiet) && g < |s.loops| && s.loops[g].phase.Gone?
    requires forall c :: n <= c < |s.owners| ==> s.owners[c] != g
    ensures forall c :: n <= c < |After(s, steps).owners| ==> After(s, steps).owners[c] != g
    decreases |steps|
  {
    if steps != [] {
      assert Quiet(steps[0]);
      QuietIsStill(s, steps[0]);
      GoneMakesNoCall(s, steps[0], g);
      GoneChecksNothing(Next(s, steps[0]), steps[1..], g, n);
    }
  }

  lemma GoneMakesNoCall(s: State, step: Step, g: nat)
    requires Enabled(s, step) && Quiet(step) && g < |s.loops| && s.loops[g].phase.Gone?
    ensures var t := Next(s, step); t.owners == s.owners || exists h: nat :: h != g && t.owners == s.owners + [h]
  {
    match step {
      case PoolStep(_) =>
      case OfLoop(l) => LoopCallsForItself(s, l);
      case OfMain(_) =>
    }
  }

  lemma LoopCallsForItself(s: State, l: LoopStep)
    requires LoopEnabled(s, l)
    ensures LoopNext(s, l).owners == s.owners
            || (LoopNext(s, l).owners == s.owners + [l.g] && !s.loops[l.g].phase.Gone?)
  {
  }
}
