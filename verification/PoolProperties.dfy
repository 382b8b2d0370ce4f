/** What callers of the worker pool may rely on, in every state of every run. */
module PoolProperties {
  import opened Wrappers
  import opened Targets
  import opened Sums
  import opened WorkerPool
  import Checker

  ghost predicate Reachable(limits: Limits, steps: seq<Step>) {
    limits.workers >= 1 && limits.capacity >= 1 && ValidRun(Init(limits), steps)
  }

  ghost function At(limits: Limits, steps: seq<Step>): (s: State)
    requires Reachable(limits, steps)
  {
    After(Init(limits), steps)
  }

  lemma AtInv(limits: Limits, steps: seq<Step>)
    requires Reachable(limits, steps)
    ensures Inv(At(limits, steps))
  {
    InitInv(limits);
    RunInv(Init(limits), steps);
  }

  // ---------------------------------------------------------------- where a job is

  predicate Queued(s: State, c: nat) { c in s.queue }

  predicate HeldBy(s: State, w: nat, c: nat) {
    w < |s.workers|
    && ((s.workers[w].Executing? && s.workers[w].call == c) || (s.workers[w].Delivering? && s.workers[w].call == c))
  }

  ghost predicate Held(s: State, c: nat) { exists w: nat :: HeldBy(s, w, c) }

  predicate WasDelivered(s: State, c: nat) { c < |s.calls| && Delivered in s.calls[c].job }

  /** Every enqueued job is in exactly one place, no job is picked twice, and both bounds hold. */
  lemma Conservation(limits: Limits, steps: seq<Step>)
    requires Reachable(limits, steps)
    ensures var s := At(limits, steps);
      && |s.queue| <= limits.capacity && |s.workers| <= limits.workers
      && Distinct(s.queue) && Distinct(s.picked)
      && (forall c: nat :: c in s.enqueued <==> Queued(s, c) || Held(s, c) || WasDelivered(s, c))
      && (forall c: nat :: !(Queued(s, c) && Held(s, c)) && !(Queued(s, c) && WasDelivered(s, c))
                           && !(Held(s, c) && WasDelivered(s, c)))
      && (forall v: nat, w: nat, c: nat :: HeldBy(s, v, c) && HeldBy(s, w, c) ==> v == w)
  {
    AtInv(limits, steps);
    LimitsFixed(Init(limits), steps);
    var s := At(limits, steps);
    forall c: nat
      ensures c in s.enqueued <==> Queued(s, c) || Held(s, c) || WasDelivered(s, c)
      ensures !(Queued(s, c) && Held(s, c)) && !(Queued(s, c) && WasDelivered(s, c))
              && !(Held(s, c) && WasDelivered(s, c))
    {
      Place(s, c);
    }
    forall v: nat, w: nat, c: nat | HeldBy(s, v, c) && HeldBy(s, w, c) ensures v == w {
      HolderIsPicker(s, v, c);
      HolderIsPicker(s, w, c);
    }
    assert forall i :: 0 <= i < |s.queue| ==> s.queue[i] == s.enqueued[|s.picked| + i];
    assert forall i :: 0 <= i < |s.picked| ==> s.picked[i] == s.enqueued[i];
  }

  lemma HolderIsPicker(s: State, w: nat, c: nat)
    requires Inv(s) && HeldBy(s, w, c)
    ensures c < |s.calls| && 2 <= |s.calls[c].job| <= 3 && s.calls[c].job[1] == Picked(w)
  {
    assert HolderOk(s.calls, s.workers, s.done, w);
  }

  /** The number of events in a job's history tells where the job is. */
  lemma Place(s: State, c: nat)
    requires Inv(s)
    ensures Queued(s, c) <==> c < |s.calls| && |s.calls[c].job| == 1
    ensures Held(s, c) <==> c < |s.calls| && 2 <= |s.calls[c].job| <= 3
    ensures WasDelivered(s, c) <==> c < |s.calls| && |s.calls[c].job| == 4
    ensures c in s.enqueued <==> c < |s.calls| && s.calls[c].job != []
  {
    if w: nat :| HeldBy(s, w, c) {
      HolderIsPicker(s, w, c);
    }
    if c < |s.calls| {
      assert JobOk(s.calls[c]) && HeldOk(s.calls, s.workers, c);
      if 2 <= |s.calls[c].job| <= 3 {
        assert HeldBy(s, s.calls[c].job[1].worker, c);
      }
      if |s.calls[c].job| == 4 {
        assert s.calls[c].job[3] == Delivered;
      }
    }
  }

  lemma {:induction false} LimitsFixed(s: State, steps: seq<Step>)
    requires ValidRun(s, steps)
    ensures After(s, steps).limits == s.limits
    decreases |steps|
  {
    if steps != [] {
      LimitsFixed(Next(s, steps[0]), steps[1..]);
    }
  }

  /** The result channel is empty whenever a worker sends to it, even if its caller left long ago. */
  lemma DeliveryNeverBlocks(limits: Limits, steps: seq<Step>, w: nat)
    requires Reachable(limits, steps)
    requires w < |At(limits, steps).workers| && At(limits, steps).workers[w].Delivering?
    ensures Enabled(At(limits, steps), Deliver(w))
  {
    AtInv(limits, steps);
    var s := At(limits, steps);
    assert HolderOk(s.calls, s.workers, s.done, w);
    assert CallerOk(s.calls[s.workers[w].call]);
  }

  /** Start returns only when every worker it launched is gone, and no worker does anything afterwards. */
  lemma StartJoinsEveryWorker(limits: Limits, steps: seq<Step>, w: nat, e: Execution)
    requires Reachable(limits, steps)
    requires At(limits, steps).startReturned
    ensures var s := At(limits, steps);
      && |s.workers| == limits.workers
      && (forall v :: 0 <= v < |s.workers| ==> s.workers[v] == Exited)
      && !Enabled(s, Spawn) && !Enabled(s, Pick(w)) && !Enabled(s, Finish(w, e)) && !Enabled(s, Deliver(w))
  {
    AtInv(limits, steps);
    LimitsFixed(Init(limits), steps);
    var s := At(limits, steps);
    SumZero(s.workers, Alive);
    forall v | 0 <= v < |s.workers| ensures s.workers[v] == Exited {
      assert Alive(s.workers[v]) == 0;
    }
  }

  // ---------------------------------------------------------------- Pool.Check against Checker.Check

  /** How often the check of this call has been started. */
  function Executions(job: seq<JobEvent>): nat {
    if job == [] then 0 else Executions(job[..|job| - 1]) + (if job[|job| - 1].Picked? then 1 else 0)
  }

  /** An answered call had exactly one execution, on its own target, begun after the call and ended before the
      return, and got that execution's report. A call that was not answered had its context done, and has had at
      most one execution. */
  lemma RefinesDirectCheck(limits: Limits, steps: seq<Step>, c: nat)
    requires Reachable(limits, steps)
    requires c < |At(limits, steps).calls| && At(limits, steps).calls[c].phase.Returned?
    ensures var call := At(limits, steps).calls[c];
      && Executions(call.job) <= 1
      && (!call.ctxDone ==> call.phase.outcome.Answered?)
      && call.phase.after <= |call.job|
      && (call.phase.outcome.Answered? ==>
            exists w: nat, e: Execution ::
              && Plausible(e)
              && call.job[..call.phase.after] == [Enqueued, Picked(w), Finished(e), Delivered]
              && Executions(call.job) == 1
              && call.phase.outcome.result == Reported(call.target, e))
  {
    AtInv(limits, steps);
    var call := At(limits, steps).calls[c];
    assert JobOk(call) && CallerOk(call);
    AtMostOneExecution(call);
    if call.phase.outcome.Answered? {
      var w, e := call.job[1].worker, call.job[2].execution;
      assert call.job[..call.phase.after] == [Enqueued, Picked(w), Finished(e), Delivered];
    }
  }

  lemma AtMostOneExecution(call: Call)
    requires JobOk(call)
    ensures Executions(call.job) == if |call.job| >= 2 then 1 else 0
  {
    var job := call.job;
    if |job| >= 1 { assert job[..1] == [Enqueued] && [Enqueued][..0] == []; assert Executions([Enqueued]) == 0; }
    if |job| >= 2 { assert job[..2][..1] == job[..1] && Executions(job[..2]) == 1; assert job[..|job|] == job; }
    if |job| >= 3 { assert job[..3][..2] == job[..2] && Executions(job[..3]) == 1; }
    if |job| >= 4 { assert job[..4][..3] == job[..3]; }
  }

  /** An answer is valid and carries the caller's target id when the checker's own results are genuine. */
  lemma AnswersBelongToTheirCaller(limits: Limits, steps: seq<Step>, c: nat)
    requires Reachable(limits, steps)
    requires c < |At(limits, steps).calls|
    requires var call := At(limits, steps).calls[c];
      && call.target.id != "" && call.phase.Returned? && call.phase.outcome.Answered?
      && (forall e: Execution :: Finished(e) in call.job && e.Completed? ==> Checker.Genuine(call.target, e.result))
    ensures var call := At(limits, steps).calls[c];
      call.phase.outcome.result.Validate() == None && call.phase.outcome.result.targetID == call.target.id
  {
    AtInv(limits, steps);
    var call := At(limits, steps).calls[c];
    assert JobOk(call) && CallerOk(call);
    var e := call.job[2].execution;
    if e.Completed? {
      Checker.GenuineIsValid(call.target, e.result);
    } else {
      PanicSubstitute(call.target, e);
    }
  }

  // ---------------------------------------------------------------- first in, first out

  lemma LogsGrowStep(s: State, step: Step)
    requires Enabled(s, step)
    ensures s.enqueued <= Next(s, step).enqueued && s.picked <= Next(s, step).picked
  {
  }

  lemma {:induction false} LogsGrow(s: State, steps: seq<Step>)
    requires ValidRun(s, steps)
    ensures s.enqueued <= After(s, steps).enqueued && s.picked <= After(s, steps).picked
    decreases |steps|
  {
    if steps != [] {
      LogsGrowStep(s, steps[0]);
      LogsGrow(Next(s, steps[0]), steps[1..]);
    }
  }

  /** The job with k jobs ahead of it is the one taken by the (k+1)-th later dequeue, and by no other: nothing
      submitted later overtakes it, and jobs start in the order in which they were enqueued. */
  lemma FirstInFirstOut(s: State, steps: seq<Step>, k: nat)
    requires Inv(s) && ValidRun(s, steps) && k < |s.queue|
    ensures var s' := After(s, steps);
      && (s.queue[k] in s'.picked <==> |s'.picked| > |s.picked| + k)
      && (|s'.picked| > |s.picked| + k ==> s'.picked[|s.picked| + k] == s.queue[k])
      && s'.picked <= s'.enqueued
  {
    LogsGrow(s, steps);
    RunInv(s, steps);
    var s' := After(s, steps);
    PickedInTurn(s.enqueued, s.picked, s.queue, s'.enqueued, s'.picked, s'.queue, k);
  }

  lemma PickedInTurn(enqueued: seq<nat>, picked: seq<nat>, queue: seq<nat>,
                     enqueued': seq<nat>, picked': seq<nat>, queue': seq<nat>, k: nat)
    requires enqueued == picked + queue && enqueued' == picked' + queue' && Distinct(enqueued')
    requires enqueued <= enqueued' && k < |queue|
    ensures queue[k] in picked' <==> |picked'| > |picked| + k
    ensures |picked'| > |picked| + k ==> picked'[|picked| + k] == queue[k]
  {
    var n := |picked| + k;
    assert enqueued[n] == queue[k] && enqueued'[n] == queue[k];
    assert forall i :: 0 <= i < |picked'| ==> picked'[i] == enqueued'[i];
  }

  // ---------------------------------------------------------------- progress

  /** Steps of a worker or of a caller inside Submit: not a new call, not a cancellation from outside. */
  predicate Internal(step: Step) { !step.Begin? && !step.Cancel? }

  /** While the pool runs, an unreturned call always leaves some caller or worker able to move. */
  lemma NeverDeadlocked(limits: Limits, steps: seq<Step>, c: nat)
    requires Reachable(limits, steps)
    requires var s := At(limits, steps);
      !s.done && |s.workers| == limits.workers && c < |s.calls| && !s.calls[c].phase.Returned?
    ensures exists step: Step :: Internal(step) && Enabled(At(limits, steps), step)
  {
    AtInv(limits, steps);
    LimitsFixed(Init(limits), steps);
    var s := At(limits, steps);
    assert JobOk(s.calls[c]) && CallerOk(s.calls[c]);
    match s.calls[c].phase {
      case Trying =>
        if |s.queue| < s.limits.capacity { assert Enabled(s, Enqueue(c)); }
        else if s.calls[c].ctxDone { assert Enabled(s, Abort(c)); }
        else { assert Enabled(s, Block(c)); }
      case Blocked =>
        if |s.queue| < s.limits.capacity { assert Enabled(s, Enqueue(c)); }
        else { var step := WorkerCanMove(s, 0); }
      case Waiting =>
        if |s.calls[c].job| == 4 { assert Enabled(s, Take(c)); }
        else if |s.calls[c].job| == 1 { assert c in s.queue; var step := WorkerCanMove(s, 0); }
        else {
          assert HeldOk(s.calls, s.workers, c);
          var step := WorkerCanMove(s, s.calls[c].job[1].worker);
        }
    }
  }

  lemma WorkerCanMove(s: State, w: nat) returns (step: Step)
    requires Inv(s) && w < |s.workers| && !s.done
    requires s.queue != [] || s.workers[w] != Idle
    ensures Internal(step) && Enabled(s, step)
  {
    assert HolderOk(s.calls, s.workers, s.done, w);
    match s.workers[w] {
      case Idle =>
        assert s.queue[0] < |s.calls|;
        step := Pick(w);
      case Executing(c) => step := Finish(w, Panicked("", "x", 1));
      case Delivering(c, _) =>
        assert CallerOk(s.calls[c]);
        step := Deliver(w);
      case Exited =>
        assert false;
        step := Spawn;
    }
  }

  function CallWeight(c: Call): nat {
    match c.phase
    case Trying => 6
    case Blocked => 5
    case Waiting => 1
    case Returned(_, _) => 0
  }

  function WorkerWeight(w: Worker): nat {
    match w
    case Idle => 1
    case Executing(_) => 3
    case Delivering(_, _) => 2
    case Exited => 0
  }

  /** An upper bound on the steps the pool can still take without a new call. */
  function Rank(s: State): int {
    Sum(s.calls, CallWeight) + 3 * |s.queue| + Sum(s.workers, WorkerWeight)
    + 2 * (s.limits.workers - |s.workers|) + (if s.startReturned then 0 else 1)
  }

  lemma RankDropsCaller(s: State, step: Step)
    requires Inv(s) && Enabled(s, step) && (step.Enqueue? || step.Block? || step.Abort? || step.Take?)
    ensures Rank(Next(s, step)) < Rank(s)
  {
    SumUpdate(s.calls, step.call, Next(s, step).calls[step.call], CallWeight);
  }

  lemma RankDropsPick(s: State, w: nat)
    requires Inv(s) && Enabled(s, Pick(w))
    ensures Rank(Next(s, Pick(w))) < Rank(s)
  {
    var s' := Next(s, Pick(w));
    SumUpdate(s.calls, s.queue[0], s'.calls[s.queue[0]], CallWeight);
    SumUpdate(s.workers, w, s'.workers[w], WorkerWeight);
  }

  lemma RankDropsWorker(s: State, step: Step)
    requires Inv(s) && Enabled(s, step) && (step.Finish? || step.Deliver?)
    ensures Rank(Next(s, step)) < Rank(s)
  {
    var s', w := Next(s, step), step.worker;
    SumUpdate(s.calls, s.workers[w].call, s'.calls[s.workers[w].call], CallWeight);
    SumUpdate(s.workers, w, s'.workers[w], WorkerWeight);
  }

  lemma RankDrops(s: State, step: Step)
    requires Inv(s) && Enabled(s, step) && Internal(step)
    ensures Rank(Next(s, step)) < Rank(s)
  {
    match step {
      case Spawn => SumAppend(s.workers, Idle, WorkerWeight);
      case Pick(w) => RankDropsPick(s, w);
      case Finish(_, _) => RankDropsWorker(s, step);
      case Deliver(_) => RankDropsWorker(s, step);
      case Exit(w) => SumUpdate(s.workers, w, Exited, WorkerWeight);
      case StartReturn =>
      case _ => RankDropsCaller(s, step);
    }
  }

  lemma RankBegin(s: State, t: Target, ctxDone: bool)
    ensures Rank(Next(s, Begin(t, ctxDone))) == Rank(s) + 6
  {
    SumAppend(s.calls, Call(t, ctxDone, Trying, None, []), CallWeight);
  }

  lemma RankCancel(s: State, cs: set<nat>, pool: bool)
    ensures Rank(Next(s, Cancel(cs, pool))) == Rank(s)
  {
    SumPointwise(s.calls, Next(s, Cancel(cs, pool)).calls, CallWeight);
  }

  lemma RankNonNegative(s: State)
    requires Inv(s)
    ensures Rank(s) >= 0
  {
  }

  /** Between new calls the pool always comes to rest, however its selects fall. */
  lemma {:induction false} ComesToRest(s: State, steps: seq<Step>)
    requires Inv(s) && ValidRun(s, steps) && (forall i :: 0 <= i < |steps| ==> Internal(steps[i]))
    ensures |steps| <= Rank(s)
    decreases |steps|
  {
    RankNonNegative(s);
    if steps != [] {
      StepInv(s, steps[0]);
      RankDrops(s, steps[0]);
      ComesToRest(Next(s, steps[0]), steps[1..]);
    }
  }

  /** At rest in normal running every call has returned, and every uncancelled one was answered. */
  lemma RestMeansAnswered(limits: Limits, steps: seq<Step>, c: nat)
    requires Reachable(limits, steps) && c < |At(limits, steps).calls|
    requires !At(limits, steps).done
    requires forall step: Step :: Internal(step) ==> !Enabled(At(limits, steps), step)
    ensures var call := At(limits, steps).calls[c];
      call.phase.Returned? && (!call.ctxDone ==> call.phase.outcome.Answered?)
  {
    AtInv(limits, steps);
    LimitsFixed(Init(limits), steps);
    var s := At(limits, steps);
    assert !Enabled(s, Spawn) && !Enabled(s, StartReturn);
    if !s.calls[c].phase.Returned? {
      NeverDeadlocked(limits, steps, c);
    } else {
      RefinesDirectCheck(limits, steps, c);
    }
  }
}
