/**
 What an error from Submit does not say. Its comments read it as "no worker had started" or "no result had arrived";
 the select that returns the error may find a result and a done context together and prefer the context.
 */
module AbortedCalls {
  import opened Wrappers
  import opened Targets
  import opened Sums
  import opened WorkerPool
  import opened PoolProperties

  // ---------------------------------------------------------------- runs made of some kinds of steps

  predicate AnyStep(step: Step) { true }

  /** Everything but the end of a context. */
  predicate NoCancel(step: Step) { !step.Cancel? }

  ghost predicate Only(steps: seq<Step>, allowed: Step -> bool) {
    forall i :: 0 <= i < |steps| ==> allowed(steps[i])
  }

  /** Some run of allowed steps leads from s to t. */
  ghost predicate Leads(allowed: Step -> bool, s: State, t: State) {
    exists steps :: ValidRun(s, steps) && Only(steps, allowed) && After(s, steps) == t
  }

  lemma LeadsSelf(allowed: Step -> bool, s: State)
    ensures Leads(allowed, s, s)
  {
    assert ValidRun(s, []) && Only([], allowed) && After(s, []) == s;
  }

  lemma LeadsStep(allowed: Step -> bool, s: State, step: Step, next: State, t: State)
    requires Enabled(s, step) && allowed(step) && next == Next(s, step) && Leads(allowed, next, t)
    ensures Leads(allowed, s, t)
  {
    var rest :| ValidRun(next, rest) && Only(rest, allowed) && After(next, rest) == t;
    assert ([step] + rest)[1..] == rest;
    assert ValidRun(s, [step] + rest) && Only([step] + rest, allowed) && After(s, [step] + rest) == t;
  }

  // ---------------------------------------------------------------- driving one job to its end

  /** A worker is running or still to be launched. */
  predicate WorkerLeft(s: State) { s.live > 0 || |s.workers| < s.limits.workers }

  lemma WorkerLeftMeans(s: State)
    requires Inv(s)
    ensures WorkerLeft(s) <==>
              |s.workers| < s.limits.workers || exists w :: 0 <= w < |s.workers| && s.workers[w] != Exited
    ensures !s.done ==> WorkerLeft(s)
  {
    SumZero(s.workers, Alive);
    if !s.done && |s.workers| == s.limits.workers {
      assert HolderOk(s.calls, s.workers, s.done, 0);
      assert Alive(s.workers[0]) == 1;
    }
  }

  /** Job c can be driven on: it is held, or it is or can be queued and some worker can get to it. */
  predicate Drivable(s: State, c: nat) {
    && c < |s.calls| && |s.calls[c].job| < 4
    && (s.calls[c].job != [] || !s.calls[c].phase.Returned?)
    && (|s.calls[c].job| >= 2 || WorkerLeft(s))
  }

  /** Steps that launch a worker, move one on, or queue job c. */
  predicate Drives(step: Step, c: nat) {
    step.Spawn? || step.Pick? || step.Finish? || step.Deliver? || step == Enqueue(c)
  }

  lemma BusyStep(s: State, w: nat) returns (step: Step)
    requires Inv(s) && w < |s.workers| && s.workers[w] != Exited && (s.workers[w].Idle? ==> s.queue != [])
    ensures Enabled(s, step) && (step == Pick(w) || step.Finish? || step.Deliver?)
    ensures step.worker == w && (step.Finish? ==> step.execution.Panicked?)
  {
    assert HolderOk(s.calls, s.workers, s.done, w);
    match s.workers[w] {
      case Idle =>
        assert s.queue[0] < |s.calls|;
        step := Pick(w);
      case Executing(c) => step := Finish(w, Panicked("", "x", 1));
      case Delivering(c, _) =>
        assert CallerOk(s.calls[c]);
        step := Deliver(w);
    }
  }

  lemma Toward(s: State, c: nat) returns (step: Step)
    requires Inv(s) && Drivable(s, c)
    ensures Enabled(s, step) && Drives(step, c) && (step.Finish? ==> step.execution.Panicked?)
  {
    var call := s.calls[c];
    assert JobOk(call) && CallerOk(call);
    if |call.job| >= 2 {
      assert HeldOk(s.calls, s.workers, c);
      step := BusyStep(s, call.job[1].worker);
    } else if call.job == [] && |s.queue| < s.limits.capacity {
      step := Enqueue(c);
    } else {
      assert |call.job| == 1 ==> c in s.queue;
      WorkerLeftMeans(s);
      if w :| 0 <= w < |s.workers| && s.workers[w] != Exited {
        step := BusyStep(s, w);
      } else {
        step := Spawn;
      }
    }
  }

  /** Driving changes neither a context nor whether a call has returned, and loses no worker. */
  lemma DrivingKeeps(s: State, step: Step, c: nat)
    requires Inv(s) && Enabled(s, step) && Drives(step, c) && c < |s.calls|
    ensures var s' := Next(s, step);
      && |s'.calls| == |s.calls| && s'.calls[c].ctxDone == s.calls[c].ctxDone
      && (s'.calls[c].phase.Returned? <==> s.calls[c].phase.Returned?)
      && |s'.calls[c].job| >= |s.calls[c].job| && (WorkerLeft(s) ==> WorkerLeft(s'))
  {
  }

  /** Nor does it queue any other job. */
  lemma DrivingQueuesNoOther(s: State, step: Step, c: nat)
    requires Inv(s) && Enabled(s, step) && Drives(step, c)
    ensures forall d :: 0 <= d < |s.calls| && d != c && s.calls[d].job == [] ==> Next(s, step).calls[d].job == []
  {
    if step.Pick? {
      assert |s.calls[s.queue[0]].job| == 1;
    } else if step.Finish? || step.Deliver? {
      assert HolderOk(s.calls, s.workers, s.done, step.worker);
    }
  }

  lemma {:induction false} Driven(s: State, c: nat) returns (t: State)
    requires Inv(s) && (Drivable(s, c) || (c < |s.calls| && |s.calls[c].job| == 4))
    ensures Leads(NoCancel, s, t) && Inv(t) && |t.calls| == |s.calls|
    ensures |t.calls[c].job| == 4 && t.calls[c].ctxDone == s.calls[c].ctxDone
    ensures t.calls[c].phase.Returned? <==> s.calls[c].phase.Returned?
    ensures forall d :: 0 <= d < |s.calls| && d != c && s.calls[d].job == [] ==> t.calls[d].job == []
    decreases Rank(s)
  {
    if |s.calls[c].job| == 4 {
      LeadsSelf(NoCancel, s);
      t := s;
    } else {
      var step := Toward(s, c);
      StepInv(s, step);
      DrivingKeeps(s, step, c);
      DrivingQueuesNoOther(s, step, c);
      RankDrops(s, step);
      RankNonNegative(s);
      assert JobOk(Next(s, step).calls[c]);
      t := Driven(Next(s, step), c);
      LeadsStep(NoCancel, s, step, Next(s, step), t);
    }
  }

  // ---------------------------------------------------------------- when a result is dropped

  /** Some run that ends no further context makes call c return an error after n of its job's events. */
  ghost predicate CanAbortAfter(s: State, c: nat, n: nat) {
    exists t :: Leads(NoCancel, s, t) && c < |t.calls| && t.calls[c].phase == Returned(Aborted, n)
  }

  lemma ContextStep(s: State, step: Step, c: nat)
    requires Enabled(s, step) && NoCancel(step) && c < |s.calls|
    ensures c < |Next(s, step).calls| && Next(s, step).calls[c].ctxDone == s.calls[c].ctxDone
  {
  }

  lemma {:induction false} ContextStays(s: State, steps: seq<Step>, c: nat)
    requires ValidRun(s, steps) && Only(steps, NoCancel) && c < |s.calls|
    ensures c < |After(s, steps).calls| && After(s, steps).calls[c].ctxDone == s.calls[c].ctxDone
    decreases |steps|
  {
    if steps != [] {
      ContextStep(s, steps[0], c);
      ContextStays(Next(s, steps[0]), steps[1..], c);
    }
  }

  lemma {:induction false} UnpickedStays(s: State, steps: seq<Step>, c: nat)
    requires Inv(s) && ValidRun(s, steps) && c < |s.calls| && |s.calls[c].job| < 2 && !WorkerLeft(s)
    ensures c < |After(s, steps).calls| && |After(s, steps).calls[c].job| < 2
    decreases |steps|
  {
    if steps != [] {
      StepInv(s, steps[0]);
      UnpickedStep(s, steps[0], c);
      UnpickedStays(Next(s, steps[0]), steps[1..], c);
    }
  }

  lemma UnpickedStep(s: State, step: Step, c: nat)
    requires Inv(s) && Enabled(s, step) && c < |s.calls| && |s.calls[c].job| < 2 && !WorkerLeft(s)
    ensures c < |Next(s, step).calls| && |Next(s, step).calls[c].job| < 2 && !WorkerLeft(Next(s, step))
  {
    WorkerLeftMeans(s);
    assert JobOk(s.calls[c]) && CallerOk(s.calls[c]);
  }

  lemma AbortNeeds(s: State, c: nat, n: nat)
    requires Inv(s) && c < |s.calls| && !s.calls[c].phase.Returned? && n >= 2 && CanAbortAfter(s, c, n)
    ensures s.calls[c].ctxDone && (|s.calls[c].job| >= 2 || WorkerLeft(s))
  {
    var t :| Leads(NoCancel, s, t) && c < |t.calls| && t.calls[c].phase == Returned(Aborted, n);
    var steps :| ValidRun(s, steps) && Only(steps, NoCancel) && After(s, steps) == t;
    ContextStays(s, steps, c);
    RunInv(s, steps);
    assert JobOk(t.calls[c]) && CallerOk(t.calls[c]);
    if |s.calls[c].job| < 2 && !WorkerLeft(s) {
      UnpickedStays(s, steps, c);
    }
  }

  /** For a call inside Submit: it can still return an error although its result has arrived if and only if its
      context is done and its job is held or delivered already or some worker is left to pick it. Under the same
      condition, and no other, it can return an error after a worker has started. While the pool runs the condition
      is just that the context is done. */
  lemma ResultDroppedIff(s: State, c: nat)
    requires Inv(s) && c < |s.calls| && !s.calls[c].phase.Returned?
    ensures var can := s.calls[c].ctxDone && (|s.calls[c].job| >= 2 || WorkerLeft(s));
      && (CanAbortAfter(s, c, 4) <==> can)
      && ((exists n :: n >= 2 && CanAbortAfter(s, c, n)) <==> can)
    ensures !s.done ==> WorkerLeft(s)
  {
    WorkerLeftMeans(s);
    if n :| n >= 2 && CanAbortAfter(s, c, n) {
      AbortNeeds(s, c, n);
    }
    if s.calls[c].ctxDone && (|s.calls[c].job| >= 2 || WorkerLeft(s)) {
      assert JobOk(s.calls[c]);
      AbortsAtTheEnd(s, c);
    }
  }

  lemma {:induction false} LeadsTransitive(allowed: Step -> bool, s: State, t: State, u: State)
    requires Leads(allowed, s, t) && Leads(allowed, t, u)
    ensures Leads(allowed, s, u)
  {
    var steps :| ValidRun(s, steps) && Only(steps, allowed) && After(s, steps) == t;
    Prepend(allowed, s, steps, t, u);
  }

  lemma {:induction false} Prepend(allowed: Step -> bool, s: State, steps: seq<Step>, t: State, u: State)
    requires ValidRun(s, steps) && Only(steps, allowed) && After(s, steps) == t && Leads(allowed, t, u)
    ensures Leads(allowed, s, u)
    decreases |steps|
  {
    if steps != [] {
      assert allowed(steps[0]) && Only(steps[1..], allowed);
      Prepend(allowed, Next(s, steps[0]), steps[1..], t, u);
      LeadsStep(allowed, s, steps[0], Next(s, steps[0]), u);
    }
  }

  lemma AbortsAtTheEnd(s: State, c: nat)
    requires Inv(s) && (Drivable(s, c) || (c < |s.calls| && |s.calls[c].job| == 4))
    requires s.calls[c].ctxDone && !s.calls[c].phase.Returned?
    ensures CanAbortAfter(s, c, 4)
  {
    var t := Driven(s, c);
    var u := Next(t, Abort(c));
    LeadsSelf(NoCancel, u);
    LeadsStep(NoCancel, t, Abort(c), u, u);
    LeadsTransitive(NoCancel, s, t, u);
    assert u.calls[c].phase == Returned(Aborted, 4);
  }

  // ---------------------------------------------------------------- jobs picked after the pool's context is done

  /** Start's comment says that workers stop pulling jobs once the context is done. A queued job can still be picked
      if and only if a worker is left: a worker's select may prefer the queue to the context. */
  lemma StillPickedIff(s: State, c: nat)
    requires Inv(s) && c in s.queue
    ensures (exists t :: Leads(NoCancel, s, t) && c in t.picked) <==> WorkerLeft(s)
  {
    assert c < |s.calls| && |s.calls[c].job| == 1;
    if t :| Leads(NoCancel, s, t) && c in t.picked {
      var steps :| ValidRun(s, steps) && Only(steps, NoCancel) && After(s, steps) == t;
      RunInv(s, steps);
      PickedIsPicked(t, c);
      if !WorkerLeft(s) {
        UnpickedStays(s, steps, c);
      }
    }
    if WorkerLeft(s) {
      var t := Driven(s, c);
      PickedIsPicked(t, c);
    }
  }

  lemma PickedIsPicked(s: State, c: nat)
    requires Inv(s)
    ensures c in s.picked <==> c < |s.calls| && |s.calls[c].job| >= 2
  {
    Place(s, c);
    if c in s.picked {
      var i :| 0 <= i < |s.picked| && s.picked[i] == c;
      assert s.enqueued[i] == c;
      forall j | 0 <= j < |s.queue| ensures s.queue[j] != c {
        assert s.queue[j] == s.enqueued[|s.picked| + j];
      }
    }
  }

  // ---------------------------------------------------------------- callers that wait for room

  /** Order is kept only in the queue. Of two calls whose jobs are not queued yet, either can have its check carried
      out before the other's job is even queued, also a new call before one that has long been blocked, if and only if
      a worker is left. */
  lemma OvertakenBeforeTheQueueIff(s: State, blocked: nat, other: nat)
    requires Inv(s) && blocked < |s.calls| && other < |s.calls| && blocked != other
    requires s.calls[blocked].phase.Blocked? && (s.calls[other].phase.Trying? || s.calls[other].phase.Blocked?)
    ensures (exists t :: Leads(NoCancel, s, t) && blocked < |t.calls| && other < |t.calls|
                         && |t.calls[other].job| == 4 && t.calls[blocked].job == []) <==> WorkerLeft(s)
  {
    assert JobOk(s.calls[blocked]) && CallerOk(s.calls[blocked]) && JobOk(s.calls[other]) && CallerOk(s.calls[other]);
    if t :| Leads(NoCancel, s, t) && other < |t.calls| && |t.calls[other].job| == 4 {
      var steps :| ValidRun(s, steps) && Only(steps, NoCancel) && After(s, steps) == t;
      if !WorkerLeft(s) {
        UnpickedStays(s, steps, other);
      }
    }
    if WorkerLeft(s) {
      var t := Driven(s, other);
    }
  }

  // ---------------------------------------------------------------- one such run

  const SMALLEST := Limits(1, 1)

  /** The smallest pool with one call. */
  function OneCall(call: Call, queue: seq<nat>, worker: Worker, picked: seq<nat>): State {
    State(SMALLEST, false, [call], queue, [worker], 1, false, if call.job == [] then [] else [0], picked)
  }

  lemma JobIsPicked(t: Target, last: State)
    requires Leads(AnyStep, OneCall(Call(t, false, Waiting, None, [Enqueued, Picked(0)]), [], Executing(0), [0]), last)
    ensures Leads(AnyStep, Init(SMALLEST), last)
  {
    var s1 := Init(SMALLEST).(workers := [Idle], live := 1);
    var s2 := OneCall(Call(t, false, Trying, None, []), [], Idle, []);
    var s3 := OneCall(Call(t, false, Waiting, None, [Enqueued]), [0], Idle, []);
    var s4 := OneCall(Call(t, false, Waiting, None, [Enqueued, Picked(0)]), [], Executing(0), [0]);
    assert [Enqueued] + [Picked(0)] == [Enqueued, Picked(0)] && [0][1..] == [] && [] + [0] == [0];
    assert s4.calls == s3.calls[0 := s4.calls[0]] && s4.workers == s3.workers[0 := s4.workers[0]];
    LeadsStep(AnyStep, s3, Pick(0), s4, last);
    assert [] + [Enqueued] == [Enqueued];
    assert s3.calls == s2.calls[0 := s3.calls[0]];
    LeadsStep(AnyStep, s2, Enqueue(0), s3, last);
    LeadsStep(AnyStep, s1, Begin(t, false), s2, last);
    LeadsStep(AnyStep, Init(SMALLEST), Spawn, s1, last);
  }

  lemma JobIsDelivered(t: Target, e: Execution, last: State)
    requires Plausible(e)
    requires var job := [Enqueued, Picked(0), Finished(e), Delivered];
      Leads(AnyStep, OneCall(Call(t, false, Waiting, Some(Reported(t, e)), job), [], Idle, [0]), last)
    ensures Leads(AnyStep, Init(SMALLEST), last)
  {
    var begun := [Enqueued, Picked(0)];
    var s4 := OneCall(Call(t, false, Waiting, None, begun), [], Executing(0), [0]);
    var s5 := OneCall(Call(t, false, Waiting, None, begun + [Finished(e)]), [], Delivering(0, Reported(t, e)), [0]);
    var s6 := OneCall(Call(t, false, Waiting, Some(Reported(t, e)), begun + [Finished(e)] + [Delivered]), [], Idle,
                      [0]);
    assert begun + [Finished(e)] + [Delivered] == [Enqueued, Picked(0), Finished(e), Delivered];
    assert s6.calls == s5.calls[0 := s6.calls[0]] && s6.workers == s5.workers[0 := s6.workers[0]];
    LeadsStep(AnyStep, s5, Deliver(0), s6, last);
    assert s5.calls == s4.calls[0 := s5.calls[0]] && s5.workers == s4.workers[0 := s5.workers[0]];
    LeadsStep(AnyStep, s4, Finish(0, e), s5, last);
    JobIsPicked(t, last);
  }

  /** Whatever the target and however its check ends, some run drops the result. */
  lemma AnswerCanBeDiscarded(t: Target, e: Execution)
    requires Plausible(e)
    ensures exists s ::
      && Leads(AnyStep, Init(SMALLEST), s) && |s.calls| == 1
      && s.calls[0].phase == Returned(Aborted, 4) && s.calls[0].slot == Some(Reported(t, e))
  {
    var job, slot := [Enqueued, Picked(0), Finished(e), Delivered], Some(Reported(t, e));
    var s6 := OneCall(Call(t, false, Waiting, slot, job), [], Idle, [0]);
    var s7 := OneCall(Call(t, true, Waiting, slot, job), [], Idle, [0]);
    var s8 := OneCall(Call(t, true, Returned(Aborted, 4), slot, job), [], Idle, [0]);
    LeadsSelf(AnyStep, s8);
    assert s8.calls == s7.calls[0 := s8.calls[0]];
    LeadsStep(AnyStep, s7, Abort(0), s8, s8);
    LeadsStep(AnyStep, s6, Cancel({0}, false), s7, s8);
    JobIsDelivered(t, e, s8);
  }
}
