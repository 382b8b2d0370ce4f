/**
 The pool as the object the goroutines share. Each method is one select or one loop of the source, written as it
 runs there; the step it returns says which step of the state machine it took.
 */
module PoolObject {
  import opened Wrappers
  import opened Targets
  import opened Sums
  import opened WorkerPool

  ghost predicate AllIdle(workers: seq<Worker>) { forall w :: 0 <= w < |workers| ==> workers[w] == Idle }

  lemma AllIdleIs(workers: seq<Worker>)
    requires AllIdle(workers)
    ensures workers == seq(|workers|, _ => Idle)
  {
  }

  class Pool {
    const limits: Limits
    var done: bool
    var calls: seq<Call>
    var queue: seq<nat>
    var workers: seq<Worker>
    var live: int
    var startReturned: bool
    ghost var enqueued: seq<nat>
    ghost var picked: seq<nat>

    ghost function S(): State
      reads this
    {
      State(limits, done, calls, queue, workers, live, startReturned, enqueued, picked)
    }

    constructor (limits: Limits)
      requires limits.workers >= 1 && limits.capacity >= 1
      ensures S() == Init(limits) && Inv(S())
    {
      this.limits := limits;
      done, calls, queue, workers, live, startReturned := false, [], [], [], 0, false;
      enqueued, picked := [], [];
      new;
      InitInv(limits);
    }

    method LaunchOne()
      requires Inv(S()) && Enabled(S(), Spawn)
      modifies this`live, this`workers
      ensures Inv(S()) && S() == Next(old(S()), Spawn)
    {
      StepInv(S(), Spawn);
      live := live + 1;
      workers := workers + [Idle];
    }

    /** Start's first loop: every worker is added to the wait group and launched. */
    method LaunchWorkers()
      requires Inv(S()) && workers == [] && !startReturned
      modifies this`live, this`workers
      ensures Inv(S()) && live == limits.workers
      ensures workers == seq(limits.workers, _ => Idle)
      ensures S() == old(S()).(workers := workers, live := live)
    {
      for i := 0 to limits.workers
        invariant Inv(S()) && live == i == |workers| && AllIdle(workers)
        invariant S() == old(S()).(workers := workers, live := live)
      {
        LaunchOne();
      }
      AllIdleIs(workers);
    }

    /** Submit: a job with an empty one-slot channel. */
    method NewJob(t: Target, ctxDone: bool) returns (c: nat)
      requires Inv(S())
      modifies this
      ensures Inv(S()) && c == |old(calls)|
      ensures S() == Next(old(S()), Begin(t, ctxDone))
    {
      StepInv(S(), Begin(t, ctxDone));
      c := |calls|;
      calls := calls + [Call(t, ctxDone, Trying, None, [])];
    }

    method Send(c: nat)
      requires Inv(S()) && Enabled(S(), Enqueue(c))
      modifies this
      ensures Inv(S()) && S() == Next(old(S()), Enqueue(c))
    {
      StepInv(S(), Enqueue(c));
      queue := queue + [c];
      enqueued := enqueued + [c];
      calls := calls[c := Log(calls[c], Enqueued).(phase := Waiting)];
    }

    method GiveUp(c: nat)
      requires Inv(S()) && Enabled(S(), Abort(c))
      modifies this
      ensures Inv(S()) && S() == Next(old(S()), Abort(c))
    {
      StepInv(S(), Abort(c));
      calls := calls[c := calls[c].(phase := Returned(Aborted, |calls[c].job|))];
    }

    /** Submit's first select: any ready arm, and the default arm when none is. */
    method TrySelect(c: nat) returns (step: Step)
      requires Inv(S()) && c < |calls| && calls[c].phase.Trying?
      modifies this
      ensures step == Enqueue(c) || step == Abort(c) || step == Block(c)
      ensures step.Enqueue? ==> |old(queue)| < limits.capacity
      ensures step.Abort? ==> old(calls[c].ctxDone)
      ensures step.Block? <==> |old(queue)| >= limits.capacity && !old(calls[c].ctxDone)
      ensures Inv(S()) && Enabled(old(S()), step) && S() == Next(old(S()), step)
    {
      if {
        case |queue| < limits.capacity =>
          step := Enqueue(c);
          Send(c);
        case calls[c].ctxDone =>
          step := Abort(c);
          GiveUp(c);
        case !(|queue| < limits.capacity) && !calls[c].ctxDone =>
          step := Block(c);
          StepInv(S(), Block(c));
          calls := calls[c := calls[c].(phase := Blocked)];
      }
    }

    /** The inner, blocking select, at a moment when it can proceed. */
    method BlockedSelect(c: nat) returns (step: Step)
      requires Inv(S()) && c < |calls| && calls[c].phase.Blocked?
      requires |queue| < limits.capacity || calls[c].ctxDone
      modifies this
      ensures step == Enqueue(c) || step == Abort(c)
      ensures Inv(S()) && Enabled(old(S()), step) && S() == Next(old(S()), step)
    {
      if {
        case |queue| < limits.capacity =>
          step := Enqueue(c);
          Send(c);
        case calls[c].ctxDone =>
          step := Abort(c);
          GiveUp(c);
      }
    }

    /** Submit's last select, at a moment when it can proceed. */
    method ResultSelect(c: nat) returns (step: Step)
      requires Inv(S()) && c < |calls| && calls[c].phase.Waiting?
      requires calls[c].slot.Some? || calls[c].ctxDone
      modifies this
      ensures step == Take(c) || step == Abort(c)
      ensures Inv(S()) && Enabled(old(S()), step) && S() == Next(old(S()), step)
    {
      if {
        case calls[c].slot.Some? =>
          step := Take(c);
          StepInv(S(), Take(c));
          var r := calls[c].slot.value;
          calls := calls[c := calls[c].(slot := None, phase := Returned(Answered(r), |calls[c].job|))];
        case calls[c].ctxDone =>
          step := Abort(c);
          GiveUp(c);
      }
    }

    /** runWorker's select, at a moment when it can proceed. With both arms ready, either may be taken. */
    method WorkerSelect(w: nat) returns (step: Step)
      requires Inv(S()) && w < |workers| && workers[w].Idle? && (done || queue != [])
      modifies this
      ensures step == Exit(w) || step == Pick(w)
      ensures Inv(S()) && Enabled(old(S()), step) && S() == Next(old(S()), step)
    {
      if {
        case done =>
          step := Exit(w);
          StepInv(S(), step);
          workers := workers[w := Exited];
          live := live - 1;
        case queue != [] =>
          step := Pick(w);
          StepInv(S(), step);
          var c := queue[0];
          queue := queue[1..];
          picked := picked + [c];
          workers := workers[w := Executing(c)];
          calls := calls[c := Log(calls[c], Picked(w))];
      }
    }

    /** The first half of process: the check runs under safeCheck. */
    method RunHeldCheck(w: nat, e: Execution)
      requires Inv(S()) && w < |workers| && workers[w].Executing? && Plausible(e)
      modifies this
      ensures Inv(S()) && Enabled(old(S()), Finish(w, e)) && S() == Next(old(S()), Finish(w, e))
    {
      assert HolderOk(S().calls, S().workers, S().done, w);
      StepInv(S(), Finish(w, e));
      var c := workers[w].call;
      var result := SafeCheck(calls[c].target, e);
      workers := workers[w := Delivering(c, result)];
      calls := calls[c := Log(calls[c], Finished(e))];
    }

    /** The second half: the send to the job's channel, which always has room. */
    method DeliverHeld(w: nat)
      requires Inv(S()) && w < |workers| && workers[w].Delivering?
      modifies this
      ensures Inv(S()) && Enabled(old(S()), Deliver(w)) && S() == Next(old(S()), Deliver(w))
    {
      assert HolderOk(S().calls, S().workers, S().done, w);
      assert CallerOk(calls[workers[w].call]);
      StepInv(S(), Deliver(w));
      var c, result := workers[w].call, workers[w].result;
      calls := calls[c := Log(calls[c], Delivered).(slot := Some(result))];
      workers := workers[w := Idle];
    }

    /** wg.Wait() at the end of Start. */
    method AwaitWorkers()
      requires Inv(S()) && |workers| == limits.workers && live == 0 && !startReturned
      modifies this
      ensures Inv(S()) && S() == Next(old(S()), StartReturn)
      ensures forall w :: 0 <= w < |workers| ==> workers[w] == Exited
    {
      StepInv(S(), StartReturn);
      SumZero(workers, Alive);
      startReturned := true;
      forall w | 0 <= w < |workers| ensures workers[w] == Exited {
        assert Alive(workers[w]) == 0;
      }
    }
  }
}
