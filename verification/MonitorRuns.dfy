/** Building runs of the process: what can be made to happen from a given state, and with which steps. */
module MonitorRuns {
  import opened Monitor
  import opened MonitorInvariant
  import P = WorkerPool
  import PoolProperties
  import AbortedCalls

  predicate AnyStep(step: Step) { true }

  /** Steps that neither reconcile nor end a context. */
  predicate Quiet(step: Step) { !step.OfScheduler? && step != OfMain(Signal) && step != OfMain(StopRoot) }

  ghost predicate Only(steps: seq<Step>, allowed: Step -> bool) {
    forall i :: 0 <= i < |steps| ==> allowed(steps[i])
  }

  /** Some run of allowed steps leads from s to t. */
  ghost predicate Leads(allowed: Step -> bool, s: State, t: State) {
    exists steps :: ValidRun(s, steps) && Only(steps, allowed) && After(s, steps) == t
  }

  lemma LeadsSelf(allowed: Step -> bool, s: State)
    ensures Leads(allowed, s, s)
  {
    assert ValidRun(s, []) && Only([], allowed) && After(s, []) == s;
  }

  lemma LeadsStep(allowed: Step -> bool, s: State, step: Step, next: State, t: State)
    requires Enabled(s, step) && allowed(step) && next == Next(s, step) && Leads(allowed, next, t)
    ensures Leads(allowed, s, t)
  {
    var rest :| ValidRun(next, rest) && Only(rest, allowed) && After(next, rest) == t;
    assert ([step] + rest)[1..] == rest;
    assert ValidRun(s, [step] + rest) && Only([step] + rest, allowed) && After(s, [step] + rest) == t;
  }

  lemma LeadsTransitive(allowed: Step -> bool, s: State, t: State, u: State)
    requires Leads(allowed, s, t) && Leads(allowed, t, u)
    ensures Leads(allowed, s, u)
  {
    var steps :| ValidRun(s, steps) && Only(steps, allowed) && After(s, steps) == t;
    Prepend(allowed, s, steps, t, u);
  }

  lemma {:induction false} Prepend(allowed: Step -> bool, s: State, steps: seq<Step>, t: State, u: State)
    requires ValidRun(s, steps) && Only(steps, allowed) && After(s, steps) == t && Leads(allowed, t, u)
    ensures Leads(allowed, s, u)
    decreases |steps|
  {
    if steps != [] {
      assert allowed(steps[0]) && Only(steps[1..], allowed);
      Prepend(allowed, Next(s, steps[0]), steps[1..], t, u);
      LeadsStep(allowed, s, steps[0], Next(s, steps[0]), u);
    }
  }

  // ---------------------------------------------------------------- letting the workers work

  /** Only workers have moved: no call has changed hands, target or phase. */
  ghost predicate Worked(s: State, t: State) {
    && t == s.(pool := t.pool)
    && t.pool.limits == s.pool.limits && t.pool.done == s.pool.done && |t.pool.calls| == |s.pool.calls|
    && (forall c :: 0 <= c < |s.pool.calls| ==>
          t.pool.calls[c].phase == s.pool.calls[c].phase && t.pool.calls[c].target == s.pool.calls[c].target)
  }

  predicate OfWorkers(p: P.Step) {
    p.Spawn? || p.Pick? || p.Deliver? || (p.Finish? && p.execution.Panicked?)
  }

  lemma WorkersKeep(p: P.State, step: P.Step)
    requires P.Inv(p) && P.Enabled(p, step) && OfWorkers(step)
    ensures var q := P.Next(p, step);
      && q.limits == p.limits && q.done == p.done && |q.calls| == |p.calls|
      && (forall c :: 0 <= c < |p.calls| ==>
            q.calls[c].phase == p.calls[c].phase && q.calls[c].target == p.calls[c].target)
      && PoolProperties.Rank(q) < PoolProperties.Rank(p)
      && (AbortedCalls.WorkerLeft(p) ==> AbortedCalls.WorkerLeft(q))
  {
    PoolProperties.RankDrops(p, step);
  }

  lemma WorkerStep(s: State, p: P.Step) returns (next: State)
    requires Inv(s) && P.Enabled(s.pool, p) && OfWorkers(p)
    ensures Enabled(s, PoolStep(p)) && next == Next(s, PoolStep(p)) && next.pool == P.Next(s.pool, p)
    ensures Inv(next) && Worked(s, next) && PoolProperties.Rank(next.pool) < PoolProperties.Rank(s.pool)
    ensures AbortedCalls.WorkerLeft(s.pool) ==> AbortedCalls.WorkerLeft(next.pool)
  {
    next := Next(s, PoolStep(p));
    PoolStepInv(s, p);
    WorkersKeep(s.pool, p);
  }

  lemma WorkedOn(s: State, p: P.Step, next: State, t: State)
    requires P.Enabled(s.pool, p) && OfWorkers(p) && Enabled(s, PoolStep(p)) && next == Next(s, PoolStep(p))
    requires Worked(s, next) && Worked(next, t) && Leads(Quiet, next, t)
    ensures Worked(s, t) && Leads(Quiet, s, t)
  {
    LeadsStep(Quiet, s, PoolStep(p), next, t);
  }

  predicate InFlight(call: P.Call) { 1 <= |call.job| <= 3 }

  ghost predicate Idling(p: P.State) {
    p.queue == [] && forall w :: 0 <= w < |p.workers| ==> p.workers[w].Idle? || p.workers[w].Exited?
  }

  lemma IdlingHasNothing(p: P.State)
    requires P.Inv(p) && Idling(p)
    ensures forall c :: 0 <= c < |p.calls| ==> !InFlight(p.calls[c])
  {
    forall c | 0 <= c < |p.calls| ensures !InFlight(p.calls[c]) {
      PoolProperties.Place(p, c);
    }
  }

  lemma NextDrainStep(p: P.State) returns (step: P.Step)
    requires P.Inv(p) && AbortedCalls.WorkerLeft(p) && !Idling(p)
    ensures P.Enabled(p, step) && OfWorkers(step)
  {
    AbortedCalls.WorkerLeftMeans(p);
    if w :| 0 <= w < |p.workers| && !p.workers[w].Idle? && !p.workers[w].Exited? {
      step := AbortedCalls.BusyStep(p, w);
    } else if w :| 0 <= w < |p.workers| && !p.workers[w].Exited? {
      step := AbortedCalls.BusyStep(p, w);
    } else {
      step := P.Spawn;
    }
  }

  /** As long as a worker is left, the workers can finish everything they hold and everything that is queued. */
  lemma {:induction false} Drain(s: State) returns (t: State)
    requires Inv(s) && AbortedCalls.WorkerLeft(s.pool)
    ensures Inv(t) && Worked(s, t) && Leads(Quiet, s, t) && t.pool.queue == []
    ensures AbortedCalls.WorkerLeft(t.pool)
    ensures forall c :: 0 <= c < |t.pool.calls| ==> !InFlight(t.pool.calls[c])
    decreases PoolProperties.Rank(s.pool)
  {
    PoolProperties.RankNonNegative(s.pool);
    if Idling(s.pool) {
      IdlingHasNothing(s.pool);
      LeadsSelf(Quiet, s);
      t := s;
    } else {
      var p := NextDrainStep(s.pool);
      var next := WorkerStep(s, p);
      t := Drain(next);
      WorkedOn(s, p, next, t);
    }
  }

  function Busyness(w: P.Worker): nat { if w.Executing? then 2 else if w.Delivering? then 1 else 0 }

  /** The next step of worker w towards taking a job off the queue; job c, which it does not hold, stays in flight. */
  lemma TakingStep(p: P.State, c: nat, w: nat) returns (step: P.Step)
    requires P.Inv(p) && c < |p.calls| && InFlight(p.calls[c])
    requires w < |p.workers| && p.workers[w] != P.Exited && !PoolProperties.HeldBy(p, w, c) && p.queue != []
    ensures P.Enabled(p, step) && OfWorkers(step)
    ensures var q := P.Next(p, step);
      && |q.workers| == |p.workers| && |q.calls| == |p.calls| && InFlight(q.calls[c])
      && (if p.workers[w].Idle? then |q.queue| < p.limits.capacity
          else q.queue == p.queue && q.workers[w] != P.Exited && Busyness(q.workers[w]) < Busyness(p.workers[w])
               && !PoolProperties.HeldBy(q, w, c))
  {
    assert P.HolderOk(p.calls, p.workers, p.done, w);
    step := AbortedCalls.BusyStep(p, w);
    PoolProperties.Place(p, c);
  }

  /** A worker that does not hold job c gets free and takes a job off the queue. */
  lemma {:induction false} TakesOne(s: State, c: nat, w: nat) returns (t: State)
    requires Inv(s) && c < |s.pool.calls| && InFlight(s.pool.calls[c]) && s.pool.queue != []
    requires w < |s.pool.workers| && s.pool.workers[w] != P.Exited && !PoolProperties.HeldBy(s.pool, w, c)
    ensures Inv(t) && Worked(s, t) && Leads(Quiet, s, t)
    ensures InFlight(t.pool.calls[c]) && |t.pool.queue| < t.pool.limits.capacity
    decreases Busyness(s.pool.workers[w])
  {
    var p := TakingStep(s.pool, c, w);
    var next := WorkerStep(s, p);
    if s.pool.workers[w].Idle? {
      LeadsSelf(Quiet, next);
      t := next;
    } else {
      t := TakesOne(next, c, w);
    }
    WorkedOn(s, p, next, t);
  }

  /** There is room for one more job beside job c, or room can be made without finishing c. */
  ghost predicate RoomBeside(p: P.State, c: nat) {
    || |p.queue| < p.limits.capacity
    || |p.workers| < p.limits.workers
    || exists w: nat :: Spare(p, w, c)
  }

  /** Worker w is not gone and does not hold job c. */
  predicate Spare(p: P.State, w: nat, c: nat) {
    w < |p.workers| && p.workers[w] != P.Exited && !PoolProperties.HeldBy(p, w, c)
  }

  lemma CanLaunch(p: P.State)
    requires P.Inv(p) && |p.workers| < p.limits.workers
    ensures P.Enabled(p, P.Spawn) && P.Next(p, P.Spawn) == p.(workers := p.workers + [P.Idle], live := p.live + 1)
  {
  }

  lemma LaunchesAndTakes(s: State, c: nat) returns (t: State)
    requires Inv(s) && c < |s.pool.calls| && InFlight(s.pool.calls[c])
    requires |s.pool.workers| < s.pool.limits.workers && s.pool.queue != []
    ensures Inv(t) && Worked(s, t) && Leads(Quiet, s, t)
    ensures InFlight(t.pool.calls[c]) && |t.pool.queue| < t.pool.limits.capacity
  {
    CanLaunch(s.pool);
    var next := WorkerStep(s, P.Spawn);
    t := TakesOne(next, c, |s.pool.workers|);
    WorkedOn(s, P.Spawn, next, t);
  }

  lemma MakeRoom(s: State, c: nat) returns (t: State)
    requires Inv(s) && c < |s.pool.calls| && InFlight(s.pool.calls[c]) && RoomBeside(s.pool, c)
    ensures Inv(t) && Worked(s, t) && Leads(Quiet, s, t)
    ensures InFlight(t.pool.calls[c]) && |t.pool.queue| < t.pool.limits.capacity
  {
    if |s.pool.queue| < s.pool.limits.capacity {
      LeadsSelf(Quiet, s);
      t := s;
    } else if |s.pool.workers| < s.pool.limits.workers {
      t := LaunchesAndTakes(s, c);
    } else {
      var w: nat :| Spare(s.pool, w, c);
      t := TakesOne(s, c, w);
    }
  }

  lemma RoomStays(p: P.State, q: P.State, c: nat)
    requires RoomBeside(p, c) && q.queue == p.queue && q.workers == p.workers && q.limits == p.limits
    ensures RoomBeside(q, c)
  {
    if w: nat :| Spare(p, w, c) {
      assert Spare(q, w, c);
    }
  }

  lemma QueuedHasRoom(p: P.State, c: nat)
    requires P.Inv(p) && c in p.queue && AbortedCalls.WorkerLeft(p)
    ensures RoomBeside(p, c)
  {
    PoolProperties.Place(p, c);
    AbortedCalls.WorkerLeftMeans(p);
    if w :| 0 <= w < |p.workers| && p.workers[w] != P.Exited {
      assert Spare(p, w, c);
    }
  }

  lemma RunningHasRoom(p: P.State, c: nat)
    requires P.Inv(p) && !p.done && p.limits.workers >= 2
    ensures RoomBeside(p, c)
  {
    if |p.workers| == p.limits.workers {
      assert P.HolderOk(p.calls, p.workers, p.done, 0) && P.HolderOk(p.calls, p.workers, p.done, 1);
      if PoolProperties.HeldBy(p, 0, c) && PoolProperties.HeldBy(p, 1, c) {
        PoolProperties.HolderIsPicker(p, 0, c);
        PoolProperties.HolderIsPicker(p, 1, c);
      }
      assert Spare(p, 0, c) || Spare(p, 1, c);
    }
  }

  // ---------------------------------------------------------------- letting one generation go on

  /** Only generation g has moved, and no job has. */
  ghost predicate Kept(s: State, t: State, g: nat) {
    && t.plan == s.plan && t.pool.limits == s.pool.limits && t.pool.done == s.pool.done
    && t.pool.queue == s.pool.queue && t.pool.workers == s.pool.workers && t.pool.live == s.pool.live
    && |t.loops| == |s.loops| && (forall h :: 0 <= h < |s.loops| && h != g ==> t.loops[h] == s.loops[h])
    && |s.pool.calls| <= |t.pool.calls|
    && (forall c :: 0 <= c < |s.pool.calls| ==>
          t.pool.calls[c].job == s.pool.calls[c].job && t.pool.calls[c].target == s.pool.calls[c].target)
  }

  /** How far g is from a call whose result is still to come. */
  function Distance(s: State, g: nat): nat
    requires g < |s.loops|
  {
    match s.loops[g].phase
    case Fresh => 1
    case Checking(c, _) => if c < |s.pool.calls| && |s.pool.calls[c].job| == 4 then 4 else 0
    case Arming => 3
    case Selecting => if s.loops[g].tick then 1 else 2
    case Gone => 5
  }

  lemma DeliveredIsReady(s: State, g: nat)
    requires Inv(s) && g < |s.loops| && s.loops[g].phase.Checking? && Distance(s, g) > 0
    ensures P.Enabled(s.pool, P.Take(s.loops[g].phase.call))
  {
    var c := s.loops[g].phase.call;
    assert ParkedAt(s.pool.calls, s.owners, g, c);
    assert P.JobOk(s.pool.calls[c]) && P.CallerOk(s.pool.calls[c]);
  }

  lemma NextLoopStep(s: State, g: nat) returns (step: LoopStep)
    requires Inv(s) && g < |s.loops| && !s.loops[g].phase.Gone? && Distance(s, g) > 0
    ensures LoopEnabled(s, step) && step.g == g && !step.Leave? && (step.EndCheck? ==> !step.aborted)
    ensures step.Tick? ==> s.loops[g].phase.Selecting? && !s.loops[g].tick
    ensures step.EndCheck? ==> Distance(s, g) == 4
  {
    match s.loops[g].phase {
      case Fresh => step := FirstCheck(g);
      case Checking(c, _) =>
        DeliveredIsReady(s, g);
        step := EndCheck(g, false);
      case Arming => step := Arm(g);
      case Selecting => step := if s.loops[g].tick then TakeTick(g) else Tick(g);
    }
  }

  lemma LoopStepNears(s: State, step: LoopStep)
    requires Inv(s) && LoopEnabled(s, step) && !step.Leave? && (step.EndCheck? ==> Distance(s, step.g) == 4)
    requires step.Tick? ==> s.loops[step.g].phase.Selecting? && !s.loops[step.g].tick
    ensures var t, g := LoopNext(s, step), step.g;
      && Distance(t, g) < Distance(s, g) && !t.loops[g].phase.Gone?
      && (t.loops[g].phase.Checking? ==> NewCall(s, t, t.loops[g].phase.call))
  {
  }

  /** Call c was made after s and its job has not been queued. */
  predicate NewCall(s: State, t: State, c: nat) { |s.pool.calls| <= c < |t.pool.calls| && t.pool.calls[c].job == [] }

  lemma EndCheckKeeps(s: State, g: nat, aborted: bool)
    requires Inv(s) && LoopEnabled(s, EndCheck(g, aborted))
    ensures Kept(s, LoopNext(s, EndCheck(g, aborted)), g)
  {
  }

  lemma LoopStepKeeps(s: State, step: LoopStep)
    requires Inv(s) && LoopEnabled(s, step)
    ensures Kept(s, LoopNext(s, step), step.g)
  {
    match step {
      case EndCheck(g, aborted) => EndCheckKeeps(s, g, aborted);
      case _ =>
    }
  }

  /** Generation g is inside Submit and its result is still to come. */
  ghost predicate InSubmit(s: State, g: nat) {
    g < |s.loops| && s.loops[g].phase.Checking? && Distance(s, g) == 0
  }

  lemma Nearer(s: State, g: nat) returns (next: State)
    requires Inv(s) && g < |s.loops| && !s.loops[g].phase.Gone? && Distance(s, g) > 0
    ensures Inv(next) && Kept(s, next, g) && Leads(Quiet, s, next)
    ensures Distance(next, g) < Distance(s, g) && !next.loops[g].phase.Gone?
    ensures next.loops[g].phase.Checking? ==> NewCall(s, next, next.loops[g].phase.call)
  {
    var step := NextLoopStep(s, g);
    next := Next(s, OfLoop(step));
    StepInv(s, OfLoop(step));
    LoopStepKeeps(s, step);
    LoopStepNears(s, step);
    LeadsSelf(Quiet, next);
    LeadsStep(Quiet, s, OfLoop(step), next, next);
  }

  /** A generation that has not exited can be brought into Submit without moving anything else, cancelled or not. */
  lemma {:induction false} BringToSubmit(s: State, g: nat) returns (t: State)
    requires Inv(s) && g < |s.loops| && !s.loops[g].phase.Gone?
    ensures Inv(t) && Kept(s, t, g) && Leads(Quiet, s, t) && InSubmit(t, g)
    ensures NewCall(s, t, t.loops[g].phase.call)
            || (s.loops[g].phase.Checking? && t.loops[g].phase.call == s.loops[g].phase.call)
    decreases Distance(s, g)
  {
    if Distance(s, g) == 0 {
      LeadsSelf(Quiet, s);
      t := s;
    } else {
      var next := Nearer(s, g);
      t := BringToSubmit(next, g);
      KeptTransitive(s, next, t, g);
      LeadsTransitive(Quiet, s, next, t);
    }
  }

  lemma KeptTransitive(s: State, t: State, u: State, g: nat)
    requires Kept(s, t, g) && Kept(t, u, g)
    ensures Kept(s, u, g)
  {
  }

  lemma SubmitPhase(s: State, g: nat)
    requires Inv(s) && InSubmit(s, g)
    ensures var d := s.loops[g].phase.call;
      && d < |s.pool.calls| && d < |s.owners| && s.owners[d] == g && !s.pool.calls[d].phase.Returned?
      && s.pool.calls[d].target == s.plan.gens[g].target
      && (InFlight(s.pool.calls[d])
          || (s.pool.calls[d].job == [] && (s.pool.calls[d].phase.Trying? || s.pool.calls[d].phase.Blocked?)))
  {
    var d := s.loops[g].phase.call;
    assert ParkedAt(s.pool.calls, s.owners, g, d);
    assert P.JobOk(s.pool.calls[d]) && P.CallerOk(s.pool.calls[d]);
  }

  /** The send of a call that is in Submit without a queued job. */
  lemma SendsJob(s: State, d: nat) returns (t: State)
    requires Inv(s) && d < |s.pool.calls| && (s.pool.calls[d].phase.Trying? || s.pool.calls[d].phase.Blocked?)
    requires |s.pool.queue| < s.pool.limits.capacity
    ensures Inv(t) && Leads(Quiet, s, t) && t == s.(pool := t.pool) && t.pool == P.Next(s.pool, P.Enqueue(d))
    ensures InFlight(t.pool.calls[d]) && d in t.pool.queue
  {
    assert P.JobOk(s.pool.calls[d]) && P.CallerOk(s.pool.calls[d]);
    t := Next(s, PoolStep(P.Enqueue(d)));
    PoolStepInv(s, P.Enqueue(d));
    LeadsSelf(Quiet, t);
    LeadsStep(Quiet, s, PoolStep(P.Enqueue(d)), t, t);
  }

  /** A generation that has not exited can put a job of its own beside job c. */
  lemma Joins(s: State, c: nat, g: nat) returns (t: State, d: nat)
    requires Inv(s) && c < |s.pool.calls| && InFlight(s.pool.calls[c]) && RoomBeside(s.pool, c)
    requires g < |s.loops| && !s.loops[g].phase.Gone? && (s.loops[g].phase.Checking? ==> s.loops[g].phase.call != c)
    ensures Leads(Quiet, s, t) && c != d && c < |t.pool.calls| && d < |t.pool.calls|
    ensures InFlight(t.pool.calls[c]) && t.pool.calls[c].target == s.pool.calls[c].target
    ensures InFlight(t.pool.calls[d]) && t.pool.calls[d].target == s.plan.gens[g].target
  {
    var s1 := BringToSubmit(s, g);
    d := s1.loops[g].phase.call;
    RoomStays(s.pool, s1.pool, c);
    t := SendsBeside(s1, c, g);
    LeadsTransitive(Quiet, s, s1, t);
  }

  lemma SendsBeside(s: State, c: nat, g: nat) returns (t: State)
    requires Inv(s) && c < |s.pool.calls| && InFlight(s.pool.calls[c]) && RoomBeside(s.pool, c)
    requires InSubmit(s, g) && s.loops[g].phase.call != c
    ensures Leads(Quiet, s, t) && |t.pool.calls| == |s.pool.calls|
    ensures InFlight(t.pool.calls[c]) && t.pool.calls[c].target == s.pool.calls[c].target
    ensures var d := s.loops[g].phase.call;
      d < |s.pool.calls| && InFlight(t.pool.calls[d]) && t.pool.calls[d].target == s.plan.gens[g].target
  {
    var d := s.loops[g].phase.call;
    SubmitPhase(s, g);
    if InFlight(s.pool.calls[d]) {
      LeadsSelf(Quiet, s);
      t := s;
    } else {
      var s2 := MakeRoom(s, c);
      t := SendsJob(s2, d);
      LeadsTransitive(Quiet, s, s2, t);
    }
  }

  // ---------------------------------------------------------------- letting one generation go on by itself

  lemma CanGiveUp(s: State, g: nat)
    requires Inv(s) && g < |s.loops| && s.loops[g].phase.Checking? && CtxDone(s, g)
    ensures LoopEnabled(s, EndCheck(g, true))
  {
    assert ParkedAt(s.pool.calls, s.owners, g, s.loops[g].phase.call);
  }

  /** A generation whose context is done can give up the call it is in. */
  lemma GivesUp(s: State, g: nat) returns (t: State)
    requires Inv(s) && g < |s.loops| && !s.loops[g].phase.Gone? && CtxDone(s, g)
    ensures Inv(t) && Kept(s, t, g) && Leads(Quiet, s, t) && !t.loops[g].phase.Gone? && !t.loops[g].phase.Checking?
  {
    if s.loops[g].phase.Checking? {
      CanGiveUp(s, g);
      var step := EndCheck(g, true);
      t := LoopNext(s, step);
      StepInv(s, OfLoop(step));
      LoopStepKeeps(s, step);
      LeadsSelf(Quiet, t);
      LeadsStep(Quiet, s, OfLoop(step), t, t);
    } else {
      LeadsSelf(Quiet, s);
      t := s;
    }
  }

  /** Job d was queued after s; nothing else happened to any job. */
  ghost predicate Added(s: State, t: State, g: nat, d: nat) {
    && t.plan == s.plan && t.pool.done == s.pool.done && t.pool.limits == s.pool.limits
    && t.pool.queue == s.pool.queue + [d] && t.pool.workers == s.pool.workers && t.pool.live == s.pool.live
    && g < |t.loops| == |s.loops| && !t.loops[g].phase.Gone?
    && |s.pool.calls| <= d < |t.pool.calls| && InFlight(t.pool.calls[d])
    && (forall c :: 0 <= c < |s.pool.calls| ==>
          t.pool.calls[c].job == s.pool.calls[c].job && t.pool.calls[c].target == s.pool.calls[c].target)
  }

  /** A generation whose context is done and that has not exited can queue one more job of its target, whatever jobs
      it has in flight already: it gives up its call, and its select takes a tick instead of the context. */
  lemma AddsJob(s: State, g: nat) returns (t: State, d: nat)
    requires Inv(s) && g < |s.loops| && !s.loops[g].phase.Gone? && CtxDone(s, g)
    requires |s.pool.queue| < s.pool.limits.capacity
    ensures Inv(t) && Leads(Quiet, s, t) && Added(s, t, g, d)
    ensures t.pool.calls[d].target == s.plan.gens[g].target
  {
    var s1 := GivesUp(s, g);
    var s2 := BringToSubmit(s1, g);
    d := s2.loops[g].phase.call;
    SubmitPhase(s2, g);
    t := SendsJob(s2, d);
    LeadsTransitive(Quiet, s1, s2, t);
    LeadsTransitive(Quiet, s, s1, t);
  }
}
