/**
 The worker pool as a state machine. A step is one communication of one goroutine: an arm of a select, a channel
 send, the end of a check. Enabled says when a step can happen; when several can, any of them may, which is how
 Go's select treats its ready cases. Next is the state after the step.
 */
module WorkerPool {
  import opened Wrappers
  import opened Targets
  import opened CheckResults
  import opened Sums

  // ---------------------------------------------------------------- configuration

  const DEFAULT_WORKER_COUNT := 10
  const DEFAULT_QUEUE_SIZE := 100

  datatype Config = Config(hasChecker: bool, workerCount: int, queueSize: int)

  datatype Limits = Limits(workers: nat, capacity: nat)

  datatype ConfigError = CheckerRequired

  /** Err stands for the panic. A queue without a slot or a pool without a worker cannot be configured. */
  method New(cfg: Config) returns (r: Result<Limits, ConfigError>)
    ensures r.Ok? <==> cfg.hasChecker
    ensures r.Ok? ==> r.value.workers >= 1 && r.value.capacity >= 1
    ensures r.Ok? && cfg.workerCount > 0 ==> r.value.workers == cfg.workerCount
    ensures r.Ok? && cfg.queueSize > 0 ==> r.value.capacity == cfg.queueSize
    ensures r.Ok? && cfg.workerCount <= 0 ==> r.value.workers == 10
    ensures r.Ok? && cfg.queueSize <= 0 ==> r.value.capacity == 100
  {
    if !cfg.hasChecker {
      return Err(CheckerRequired);
    }
    var workerCount := cfg.workerCount;
    if workerCount <= 0 {
      workerCount := DEFAULT_WORKER_COUNT;
    }
    var queueSize := cfg.queueSize;
    if queueSize <= 0 {
      queueSize := DEFAULT_QUEUE_SIZE;
    }
    return Ok(Limits(workerCount, queueSize));
  }

  // ---------------------------------------------------------------- one check, as the pool reports it

  /** How Checker.Check ended. A panic also carries the id and the time its substitute result is built from. */
  datatype Execution =
    | Completed(result: CheckResult)
    | Panicked(reason: string, freshId: string, at: Time)

  predicate Plausible(e: Execution) { e.Panicked? ==> e.freshId != "" && e.at != ZERO_TIME }

  /** What a worker delivers for an execution. */
  function Reported(t: Target, e: Execution): CheckResult {
    match e
    case Completed(result) => result
    case Panicked(reason, freshId, at) =>
      var built := Build(t, OutcomeConnectionError, "worker: recovered from panic: " + reason, freshId, at);
      if built.Ok? then built.value else ZERO_RESULT
  }

  function Build(t: Target, outcome: Outcome, message: string, freshId: string, at: Time)
    : Result<CheckResult, ValidationError>
  {
    CheckResults.New(freshId, CheckResults.NewParams(t.id, at, outcome, 0, 0, message))
  }

  /** The named result starts as the zero value and is overwritten by the deferred recover. */
  method SafeCheck(t: Target, e: Execution) returns (result: CheckResult)
    ensures result == Reported(t, e)
    ensures e.Completed? ==> result == e.result
    ensures e.Panicked? && Plausible(e) && t.id != "" ==>
              && result.Sound()
              && result == CheckResult(e.freshId, t.id, e.at, OutcomeConnectionError, 0, 0,
                                       "worker: recovered from panic: " + e.reason)
    ensures e.Panicked? && t.id == "" ==>
              result == CheckResult("", "", ZERO_TIME, OutcomeOther(""), 0, 0, "") && !result.Sound()
  {
    result := ZERO_RESULT;
    match e {
      case Completed(r) =>
        result := r;
      case Panicked(reason, freshId, at) =>
        var built := Build(t, OutcomeConnectionError, "worker: recovered from panic: " + reason, freshId, at);
        assert |"worker: recovered from panic: " + reason| > 0;
        if built.Ok? {
          result := built.value;
        }
    }
  }

  /** ctx.Err() of a context that is done. */
  datatype ContextError = ContextCanceled | ContextDeadlineExceeded
  {
    function Text(): string {
      if ContextCanceled? then "context canceled" else "context deadline exceeded"
    }
  }

  /** What Pool.Check makes of what Submit returned. */
  function Handed(t: Target, submitted: Result<CheckResult, ContextError>, freshId: string, at: Time)
    : Result<CheckResult, ValidationError>
  {
    match submitted
    case Ok(result) => Ok(result)
    case Err(error) => Build(t, OutcomeCanceled, error.Text(), freshId, at)
  }

  /** Err stands for its panic, which only a target without an id can cause. */
  method Check(t: Target, submitted: Result<CheckResult, ContextError>, freshId: string, at: Time)
    returns (r: Result<CheckResult, ValidationError>)
    requires freshId != "" && at != ZERO_TIME
    ensures r == Handed(t, submitted, freshId, at)
    ensures submitted.Ok? ==> r == Ok(submitted.value)
    ensures submitted.Err? ==> (r.Ok? <==> t.id != "")
    ensures submitted.Err? && r.Ok? ==>
              && r.value.Validate() == None
              && r.value == CheckResult(freshId, t.id, at, OutcomeCanceled, 0, 0,
                                        if submitted.error.ContextCanceled? then "context canceled"
                                        else "context deadline exceeded")
  {
    if submitted.Ok? {
      return Ok(submitted.value);
    }
    r := Build(t, OutcomeCanceled, submitted.error.Text(), freshId, at);
  }

  /** The panic substitute is a valid connection error of its target, exactly when the target has an id. */
  lemma PanicSubstitute(t: Target, e: Execution)
    requires e.Panicked? && Plausible(e)
    ensures Reported(t, e).Validate() == None <==> t.id != ""
    ensures t.id != "" ==> Reported(t, e).targetID == t.id && Reported(t, e).outcome == OutcomeConnectionError
    ensures t.id == "" ==> Reported(t, e) == ZERO_RESULT
  {
    var message := "worker: recovered from panic: " + e.reason;
    assert message[0] == 'w';
  }

  // ---------------------------------------------------------------- state

  /** What happens to a call's job, in order. The position in Call.job is the order in time. */
  datatype JobEvent =
    | Enqueued
    | Picked(worker: nat)
    | Finished(execution: Execution)
    | Delivered

  datatype Return = Answered(result: CheckResult) | Aborted

  /** Where the caller is inside Submit. after counts the job events that preceded its return. */
  datatype CallPhase =
    | Trying
    | Blocked
    | Waiting
    | Returned(outcome: Return, after: nat)

  /** One call of Submit: its context, its goroutine, its one-slot result channel and its job's history. */
  datatype Call = Call(
    target: Target,
    ctxDone: bool,
    phase: CallPhase,
    slot: Option<CheckResult>,
    job: seq<JobEvent>)

  /** A job is named by the call that made it. */
  datatype Worker =
    | Idle
    | Executing(call: nat)
    | Delivering(call: nat, result: CheckResult)
    | Exited

  /** live is the wait group of Start. enqueued and picked only record the order of queue operations. */
  datatype State = State(
    limits: Limits,
    done: bool,
    calls: seq<Call>,
    queue: seq<nat>,
    workers: seq<Worker>,
    live: int,
    startReturned: bool,
    enqueued: seq<nat>,
    picked: seq<nat>)

  function Init(limits: Limits): State {
    State(limits, false, [], [], [], 0, false, [], [])
  }

  datatype Step =
    | Begin(target: Target, ctxDone: bool)   // Submit is called
    | Enqueue(call: nat)                     // either send to the queue
    | Block(call: nat)                       // the default arm: queue full
    | Abort(call: nat)                       // any of the three <-ctx.Done() arms of Submit
    | Take(call: nat)                        // the result is received
    | Cancel(calls: set<nat>, pool: bool)    // contexts are cancelled from outside
    | Spawn                                  // Start launches one more worker
    | Pick(worker: nat)                      // a worker receives from the queue
    | Finish(worker: nat, execution: Execution)
    | Deliver(worker: nat)                   // a worker sends to the job's result channel
    | Exit(worker: nat)                      // a worker takes its <-ctx.Done() arm
    | StartReturn                            // wg.Wait() is over

  ghost predicate Enabled(s: State, step: Step) {
    match step
    case Begin(_, _) => true
    case Enqueue(c) =>
      c < |s.calls| && (s.calls[c].phase.Trying? || s.calls[c].phase.Blocked?) && |s.queue| < s.limits.capacity
    case Block(c) =>
      c < |s.calls| && s.calls[c].phase.Trying? && !(|s.queue| < s.limits.capacity) && !s.calls[c].ctxDone
    case Abort(c) => c < |s.calls| && !s.calls[c].phase.Returned? && s.calls[c].ctxDone
    case Take(c) => c < |s.calls| && s.calls[c].phase.Waiting? && s.calls[c].slot.Some?
    case Cancel(_, _) => true
    case Spawn => |s.workers| < s.limits.workers && !s.startReturned
    case Pick(w) => w < |s.workers| && s.workers[w].Idle? && s.queue != [] && s.queue[0] < |s.calls|
    case Finish(w, e) =>
      w < |s.workers| && s.workers[w].Executing? && s.workers[w].call < |s.calls| && Plausible(e)
    case Deliver(w) =>
      w < |s.workers| && s.workers[w].Delivering? && s.workers[w].call < |s.calls|
      && s.calls[s.workers[w].call].slot.None?
    case Exit(w) => w < |s.workers| && s.workers[w].Idle? && s.done
    case StartReturn => !s.startReturned && |s.workers| == s.limits.workers && s.live == 0
  }

  function Log(call: Call, e: JobEvent): Call { call.(job := call.job + [e]) }

  function Next(s: State, step: Step): State
    requires Enabled(s, step)
  {
    match step
    case Begin(t, ctxDone) =>
      s.(calls := s.calls + [Call(t, ctxDone, Trying, None, [])])
    case Enqueue(c) =>
      s.(calls := s.calls[c := Log(s.calls[c], Enqueued).(phase := Waiting)],
         queue := s.queue + [c],
         enqueued := s.enqueued + [c])
    case Block(c) =>
      s.(calls := s.calls[c := s.calls[c].(phase := Blocked)])
    case Abort(c) =>
      s.(calls := s.calls[c := s.calls[c].(phase := Returned(Aborted, |s.calls[c].job|))])
    case Take(c) =>
      s.(calls := s.calls[c := s.calls[c].(phase := Returned(Answered(s.calls[c].slot.value), |s.calls[c].job|),
                                           slot := None)])
    case Cancel(cs, pool) =>
      s.(calls := seq(|s.calls|, c requires 0 <= c < |s.calls| =>
           s.calls[c].(ctxDone := s.calls[c].ctxDone || c in cs)),
         done := s.done || pool)
    case Spawn =>
      s.(workers := s.workers + [Idle], live := s.live + 1)
    case Pick(w) =>
      var c := s.queue[0];
      s.(calls := s.calls[c := Log(s.calls[c], Picked(w))],
         queue := s.queue[1..],
         workers := s.workers[w := Executing(c)],
         picked := s.picked + [c])
    case Finish(w, e) =>
      var c := s.workers[w].call;
      s.(calls := s.calls[c := Log(s.calls[c], Finished(e))],
         workers := s.workers[w := Delivering(c, Reported(s.calls[c].target, e))])
    case Deliver(w) =>
      var c := s.workers[w].call;
      s.(calls := s.calls[c := Log(s.calls[c], Delivered).(slot := Some(s.workers[w].result))],
         workers := s.workers[w := Idle])
    case Exit(w) =>
      s.(workers := s.workers[w := Exited], live := s.live - 1)
    case StartReturn =>
      s.(startReturned := true)
  }

  // ---------------------------------------------------------------- runs

  ghost predicate ValidRun(s: State, steps: seq<Step>)
    decreases |steps|
  {
    steps != [] ==> Enabled(s, steps[0]) && ValidRun(Next(s, steps[0]), steps[1..])
  }

  ghost function After(s: State, steps: seq<Step>): State
    requires ValidRun(s, steps)
    decreases |steps|
  {
    if steps == [] then s else After(Next(s, steps[0]), steps[1..])
  }

  // ---------------------------------------------------------------- the invariant

  /** A job's history is a prefix of: enqueued, picked, finished, delivered. */
  ghost predicate JobOk(call: Call) {
    && |call.job| <= 4
    && (|call.job| >= 1 ==> call.job[0] == Enqueued)
    && (|call.job| >= 2 ==> call.job[1].Picked?)
    && (|call.job| >= 3 ==> call.job[2].Finished? && Plausible(call.job[2].execution))
    && (|call.job| >= 4 ==> call.job[3] == Delivered)
  }

  ghost predicate CallerOk(call: Call)
    requires JobOk(call)
  {
    match call.phase
    case Trying | Blocked => call.job == [] && call.slot.None?
    case Waiting =>
      && call.job != []
      && call.slot == (if |call.job| == 4 then Some(Reported(call.target, call.job[2].execution)) else None)
    case Returned(Answered(r), after) =>
      |call.job| == 4 && after == 4 && call.slot.None? && r == Reported(call.target, call.job[2].execution)
    case Returned(Aborted, after) =>
      && call.ctxDone && after <= |call.job| && (after == 0 ==> call.job == [])
      && call.slot == (if |call.job| == 4 then Some(Reported(call.target, call.job[2].execution)) else None)
  }

  ghost predicate CallsOk(calls: seq<Call>) {
    forall c :: 0 <= c < |calls| ==> JobOk(calls[c]) && CallerOk(calls[c])
  }

  ghost predicate Distinct(q: seq<nat>) {
    forall i, j :: 0 <= i < j < |q| ==> q[i] != q[j]
  }

  /** The queue holds exactly the jobs whose last event is Enqueued. */
  ghost predicate QueueOk(calls: seq<Call>, queue: seq<nat>, capacity: nat) {
    && |queue| <= capacity
    && (forall i :: 0 <= i < |queue| ==> queue[i] < |calls| && |calls[queue[i]].job| == 1)
    && (forall c :: 0 <= c < |calls| && |calls[c].job| == 1 ==> c in queue)
  }

  /** The two logs tell the queue's whole history, and no job enters it twice. */
  ghost predicate LogsOk(calls: seq<Call>, queue: seq<nat>, enqueued: seq<nat>, picked: seq<nat>) {
    && enqueued == picked + queue
    && Distinct(enqueued)
    && (forall i :: 0 <= i < |enqueued| ==> enqueued[i] < |calls| && calls[enqueued[i]].job != [])
    && (forall c :: 0 <= c < |calls| && calls[c].job != [] ==> c in enqueued)
  }

  /** A busy worker holds the job that names it. */
  ghost predicate HolderOk(calls: seq<Call>, workers: seq<Worker>, done: bool, w: nat)
    requires w < |workers|
  {
    match workers[w]
    case Executing(c) => c < |calls| && |calls[c].job| == 2 && calls[c].job[1] == Picked(w)
    case Delivering(c, r) =>
      && c < |calls| && |calls[c].job| == 3 && calls[c].job[1] == Picked(w)
      && calls[c].job[2].Finished? && r == Reported(calls[c].target, calls[c].job[2].execution)
    case Exited => done
    case Idle => true
  }

  /** A job between pick-up and delivery is held by the worker that picked it. */
  ghost predicate HeldOk(calls: seq<Call>, workers: seq<Worker>, c: nat)
    requires c < |calls|
  {
    var job := calls[c].job;
    2 <= |job| <= 3 && job[1].Picked? ==>
      job[1].worker < |workers|
      && (if |job| == 2 then workers[job[1].worker] == Executing(c)
          else workers[job[1].worker].Delivering? && workers[job[1].worker].call == c)
  }

  ghost predicate WorkersOk(calls: seq<Call>, workers: seq<Worker>, done: bool) {
    && (forall w :: 0 <= w < |workers| ==> HolderOk(calls, workers, done, w))
    && (forall c :: 0 <= c < |calls| ==> HeldOk(calls, workers, c))
  }

  function Alive(w: Worker): nat { if w.Exited? then 0 else 1 }

  /** The wait group counts the workers that have not exited. */
  ghost predicate StartOk(workers: seq<Worker>, limit: nat, live: int, startReturned: bool) {
    && |workers| <= limit
    && live == Sum(workers, Alive)
    && (startReturned ==> |workers| == limit && live == 0)
  }

  ghost predicate Inv(s: State) {
    && s.limits.workers >= 1 && s.limits.capacity >= 1
    && CallsOk(s.calls)
    && QueueOk(s.calls, s.queue, s.limits.capacity)
    && LogsOk(s.calls, s.queue, s.enqueued, s.picked)
    && WorkersOk(s.calls, s.workers, s.done)
    && StartOk(s.workers, s.limits.workers, s.live, s.startReturned)
  }

  lemma InitInv(limits: Limits)
    requires limits.workers >= 1 && limits.capacity >= 1
    ensures Inv(Init(limits))
  {
  }

  /** A step of a caller, of Start, or of the outside. */
  predicate OutsideWorkers(step: Step) { !step.Pick? && !step.Finish? && !step.Deliver? }

  lemma CallerStepCalls(s: State, step: Step)
    requires CallsOk(s.calls) && Enabled(s, step) && OutsideWorkers(step)
    ensures CallsOk(Next(s, step).calls)
  {
    var s' := Next(s, step);
    forall c | 0 <= c < |s'.calls| ensures JobOk(s'.calls[c]) && CallerOk(s'.calls[c]) {
      if c < |s.calls| {
        assert JobOk(s.calls[c]) && CallerOk(s.calls[c]);
      }
    }
  }

  lemma WorkerStepCalls(s: State, step: Step)
    requires Inv(s) && Enabled(s, step) && !OutsideWorkers(step)
    ensures CallsOk(Next(s, step).calls)
  {
    var s' := Next(s, step);
    if step.Finish? || step.Deliver? {
      assert HolderOk(s.calls, s.workers, s.done, step.worker);
    }
    forall c | 0 <= c < |s'.calls| ensures JobOk(s'.calls[c]) && CallerOk(s'.calls[c]) {
      assert JobOk(s.calls[c]) && CallerOk(s.calls[c]);
    }
  }

  lemma StepCalls(s: State, step: Step)
    requires Inv(s) && Enabled(s, step)
    ensures CallsOk(Next(s, step).calls)
  {
    if OutsideWorkers(step) {
      CallerStepCalls(s, step);
    } else {
      WorkerStepCalls(s, step);
    }
  }

  // ---------------------------------------------------------------- the queue

  /** A change of calls that moves no job into or out of the queue. */
  lemma QueueFrame(calls: seq<Call>, calls': seq<Call>, queue: seq<nat>, capacity: nat)
    requires QueueOk(calls, queue, capacity) && |calls| <= |calls'|
    requires forall c :: 0 <= c < |calls| ==> (|calls'[c].job| == 1 <==> |calls[c].job| == 1)
    requires forall c :: |calls| <= c < |calls'| ==> calls'[c].job == []
    ensures QueueOk(calls', queue, capacity)
  {
  }

  /** A change of calls that enqueues nothing. */
  lemma LogsFrame(calls: seq<Call>, calls': seq<Call>, queue: seq<nat>, enqueued: seq<nat>, picked: seq<nat>)
    requires LogsOk(calls, queue, enqueued, picked) && |calls| <= |calls'|
    requires forall c :: 0 <= c < |calls| ==> (calls'[c].job == [] <==> calls[c].job == [])
    requires forall c :: |calls| <= c < |calls'| ==> calls'[c].job == []
    ensures LogsOk(calls', queue, enqueued, picked)
  {
  }

  lemma EnqueueKeepsQueue(calls: seq<Call>, calls': seq<Call>, queue: seq<nat>, capacity: nat, c: nat)
    requires QueueOk(calls, queue, capacity) && |queue| < capacity && c < |calls|
    requires |calls'| == |calls| && calls' == calls[c := calls'[c]] && |calls'[c].job| == 1 && |calls[c].job| != 1
    ensures QueueOk(calls', queue + [c], capacity)
  {
    forall d | 0 <= d < |calls'| && |calls'[d].job| == 1 ensures d in queue + [c] {
      if d != c {
        assert calls'[d] == calls[d] && d in queue;
      }
    }
  }

  lemma EnqueueKeepsLogs(calls: seq<Call>, calls': seq<Call>, queue: seq<nat>, enqueued: seq<nat>, picked: seq<nat>,
                         c: nat)
    requires LogsOk(calls, queue, enqueued, picked) && c < |calls|
    requires |calls'| == |calls| && calls' == calls[c := calls'[c]] && calls'[c].job != [] && calls[c].job == []
    ensures LogsOk(calls', queue + [c], enqueued + [c], picked)
  {
    assert enqueued + [c] == picked + (queue + [c]);
    forall d | 0 <= d < |calls'| && calls'[d].job != [] ensures d in enqueued + [c] {
      if d != c {
        assert calls'[d] == calls[d] && d in enqueued;
      }
    }
  }

  lemma PickKeepsQueue(calls: seq<Call>, calls': seq<Call>, queue: seq<nat>, capacity: nat)
    requires QueueOk(calls, queue, capacity) && queue != [] && Distinct(queue)
    requires queue[0] < |calls| == |calls'| && calls' == calls[queue[0] := calls'[queue[0]]]
    requires |calls'[queue[0]].job| == 2
    ensures QueueOk(calls', queue[1..], capacity)
  {
    forall i | 0 <= i < |queue[1..]| ensures queue[1..][i] < |calls'| && |calls'[queue[1..][i]].job| == 1 {
      assert queue[1..][i] == queue[i + 1] && queue[i + 1] != queue[0];
    }
    forall d | 0 <= d < |calls'| && |calls'[d].job| == 1 ensures d in queue[1..] {
      assert d != queue[0] && calls'[d] == calls[d] && d in queue;
    }
  }

  lemma PickKeepsLogs(calls: seq<Call>, calls': seq<Call>, queue: seq<nat>, enqueued: seq<nat>, picked: seq<nat>)
    requires LogsOk(calls, queue, enqueued, picked) && queue != []
    requires queue[0] < |calls| == |calls'| && calls' == calls[queue[0] := calls'[queue[0]]]
    requires calls'[queue[0]].job != [] && calls[queue[0]].job != []
    ensures LogsOk(calls', queue[1..], enqueued, picked + [queue[0]])
  {
    assert queue == [queue[0]] + queue[1..];
    assert picked + queue == picked + [queue[0]] + queue[1..];
    LogsFrame(calls, calls', queue, enqueued, picked);
  }

  lemma QueueDistinct(queue: seq<nat>, enqueued: seq<nat>, picked: seq<nat>)
    requires enqueued == picked + queue && Distinct(enqueued)
    ensures Distinct(queue) && Distinct(picked)
  {
    assert forall i :: 0 <= i < |queue| ==> queue[i] == enqueued[|picked| + i];
    assert forall i :: 0 <= i < |picked| ==> picked[i] == enqueued[i];
  }

  lemma EnqueueQueue(s: State, c: nat)
    requires Inv(s) && Enabled(s, Enqueue(c))
    ensures var s' := Next(s, Enqueue(c));
      QueueOk(s'.calls, s'.queue, s.limits.capacity) && LogsOk(s'.calls, s'.queue, s'.enqueued, s'.picked)
  {
    var s' := Next(s, Enqueue(c));
    assert CallerOk(s.calls[c]);
    EnqueueKeepsQueue(s.calls, s'.calls, s.queue, s.limits.capacity, c);
    EnqueueKeepsLogs(s.calls, s'.calls, s.queue, s.enqueued, s.picked, c);
  }

  lemma PickQueue(s: State, w: nat)
    requires Inv(s) && Enabled(s, Pick(w))
    ensures var s' := Next(s, Pick(w));
      QueueOk(s'.calls, s'.queue, s.limits.capacity) && LogsOk(s'.calls, s'.queue, s'.enqueued, s'.picked)
  {
    var s' := Next(s, Pick(w));
    QueueDistinct(s.queue, s.enqueued, s.picked);
    PickKeepsQueue(s.calls, s'.calls, s.queue, s.limits.capacity);
    PickKeepsLogs(s.calls, s'.calls, s.queue, s.enqueued, s.picked);
  }

  /** Any other step moves no job into or out of the queue. */
  lemma OtherStepsKeepQueued(s: State, step: Step)
    requires Inv(s) && Enabled(s, step) && !step.Enqueue? && !step.Pick?
    ensures var s' := Next(s, step);
      && s'.queue == s.queue && s'.enqueued == s.enqueued && s'.picked == s.picked && |s.calls| <= |s'.calls|
      && (forall c :: 0 <= c < |s.calls| ==> (|s'.calls[c].job| == 1 <==> |s.calls[c].job| == 1)
                                             && (s'.calls[c].job == [] <==> s.calls[c].job == []))
      && (forall c :: |s.calls| <= c < |s'.calls| ==> s'.calls[c].job == [])
  {
    if step.Finish? || step.Deliver? {
      assert HolderOk(s.calls, s.workers, s.done, step.worker);
    }
  }

  lemma StepQueue(s: State, step: Step)
    requires Inv(s) && Enabled(s, step)
    ensures QueueOk(Next(s, step).calls, Next(s, step).queue, s.limits.capacity)
    ensures LogsOk(Next(s, step).calls, Next(s, step).queue, Next(s, step).enqueued, Next(s, step).picked)
  {
    if step.Enqueue? {
      EnqueueQueue(s, step.call);
    } else if step.Pick? {
      PickQueue(s, step.worker);
    } else {
      OtherStepsKeepQueued(s, step);
      QueueFrame(s.calls, Next(s, step).calls, s.queue, s.limits.capacity);
      LogsFrame(s.calls, Next(s, step).calls, s.queue, s.enqueued, s.picked);
    }
  }

  // ---------------------------------------------------------------- the workers

  lemma WorkersFrame(calls: seq<Call>, calls': seq<Call>, workers: seq<Worker>, done: bool, done': bool)
    requires WorkersOk(calls, workers, done) && (done ==> done') && |calls| <= |calls'|
    requires forall c :: 0 <= c < |calls| ==> calls'[c].target == calls[c].target
    requires forall c :: 0 <= c < |calls| ==>
               calls'[c].job == calls[c].job || (|calls'[c].job| < 2 && |calls[c].job| < 2)
    requires forall c :: |calls| <= c < |calls'| ==> calls'[c].job == []
    ensures WorkersOk(calls', workers, done')
  {
    forall w | 0 <= w < |workers| ensures HolderOk(calls', workers, done', w) {
      assert HolderOk(calls, workers, done, w);
    }
    forall c | 0 <= c < |calls'| ensures HeldOk(calls', workers, c) {
      if c < |calls| {
        assert HeldOk(calls, workers, c);
      }
    }
  }

  /** A worker that takes or moves its own job c on leaves every other worker and job alone. */
  lemma BusyWorkers(calls: seq<Call>, calls': seq<Call>, workers: seq<Worker>, workers': seq<Worker>, done: bool,
                    w: nat, c: nat)
    requires WorkersOk(calls, workers, done) && w < |workers| && c < |calls|
    requires |workers'| == |workers| && workers' == workers[w := workers'[w]]
    requires |calls'| == |calls| && calls' == calls[c := calls'[c]]
    requires workers[w].Idle? || (workers[w].Executing? && workers[w].call == c)
             || (workers[w].Delivering? && workers[w].call == c)
    requires workers[w].Idle? ==> |calls[c].job| == 1
    requires HolderOk(calls', workers', done, w) && HeldOk(calls', workers', c)
    ensures WorkersOk(calls', workers', done)
  {
    assert HolderOk(calls, workers, done, w);
    forall v | 0 <= v < |workers'| ensures HolderOk(calls', workers', done, v) {
      if v != w {
        assert HolderOk(calls, workers, done, v);
      }
    }
    forall d | 0 <= d < |calls'| ensures HeldOk(calls', workers', d) {
      assert HeldOk(calls, workers, d);
    }
  }

  /** A worker without a job comes or goes. */
  lemma IdleWorkers(calls: seq<Call>, workers: seq<Worker>, workers': seq<Worker>, done: bool)
    requires WorkersOk(calls, workers, done) && |workers| <= |workers'|
    requires forall v :: 0 <= v < |workers| && !workers[v].Idle? ==> workers'[v] == workers[v]
    requires forall v :: 0 <= v < |workers'| && (v < |workers| ==> workers[v].Idle?) ==>
               workers'[v].Idle? || (workers'[v].Exited? && done)
    ensures WorkersOk(calls, workers', done)
  {
    forall v | 0 <= v < |workers'| ensures HolderOk(calls, workers', done, v) {
      if v < |workers| {
        assert HolderOk(calls, workers, done, v);
      }
    }
    forall c | 0 <= c < |calls| ensures HeldOk(calls, workers', c) {
      assert HeldOk(calls, workers, c);
    }
  }

  lemma PickWorkers(s: State, w: nat)
    requires Inv(s) && Enabled(s, Pick(w))
    ensures WorkersOk(Next(s, Pick(w)).calls, Next(s, Pick(w)).workers, s.done)
  {
    var s' := Next(s, Pick(w));
    assert |s.calls[s.queue[0]].job| == 1;
    BusyWorkers(s.calls, s'.calls, s.workers, s'.workers, s.done, w, s.queue[0]);
  }

  lemma MoveWorkers(s: State, step: Step)
    requires Inv(s) && Enabled(s, step) && (step.Finish? || step.Deliver?)
    ensures WorkersOk(Next(s, step).calls, Next(s, step).workers, s.done)
  {
    var s', w := Next(s, step), step.worker;
    assert HolderOk(s.calls, s.workers, s.done, w);
    BusyWorkers(s.calls, s'.calls, s.workers, s'.workers, s.done, w, s.workers[w].call);
  }

  lemma StartStepWorkers(s: State, step: Step)
    requires Inv(s) && Enabled(s, step) && (step.Exit? || step.Spawn?)
    ensures WorkersOk(Next(s, step).calls, Next(s, step).workers, Next(s, step).done)
  {
    IdleWorkers(s.calls, s.workers, Next(s, step).workers, s.done);
  }

  lemma CallerStepWorkers(s: State, step: Step)
    requires Inv(s) && Enabled(s, step) && OutsideWorkers(step) && !step.Exit? && !step.Spawn?
    ensures WorkersOk(Next(s, step).calls, Next(s, step).workers, Next(s, step).done)
  {
    if step.Enqueue? {
      assert CallerOk(s.calls[step.call]);
    }
    WorkersFrame(s.calls, Next(s, step).calls, s.workers, s.done, Next(s, step).done);
  }

  lemma StepWorkers(s: State, step: Step)
    requires Inv(s) && Enabled(s, step)
    ensures WorkersOk(Next(s, step).calls, Next(s, step).workers, Next(s, step).done)
  {
    if step.Pick? {
      PickWorkers(s, step.worker);
    } else if step.Finish? || step.Deliver? {
      MoveWorkers(s, step);
    } else if step.Exit? || step.Spawn? {
      StartStepWorkers(s, step);
    } else {
      CallerStepWorkers(s, step);
    }
  }

  lemma StepStart(s: State, step: Step)
    requires StartOk(s.workers, s.limits.workers, s.live, s.startReturned) && Enabled(s, step)
    ensures var s' := Next(s, step); StartOk(s'.workers, s.limits.workers, s'.live, s'.startReturned)
  {
    var s' := Next(s, step);
    if step.Spawn? {
      SumAppend(s.workers, Idle, Alive);
    } else if step.Pick? || step.Finish? || step.Deliver? || step.Exit? {
      SumUpdate(s.workers, step.worker, s'.workers[step.worker], Alive);
    }
    if s.startReturned {
      SumZero(s.workers, Alive);
    }
  }

  lemma StepInv(s: State, step: Step)
    requires Inv(s) && Enabled(s, step)
    ensures Inv(Next(s, step))
  {
    StepCalls(s, step);
    StepQueue(s, step);
    StepWorkers(s, step);
    StepStart(s, step);
  }

  lemma {:induction false} RunInv(s: State, steps: seq<Step>)
    requires Inv(s) && ValidRun(s, steps)
    ensures Inv(After(s, steps))
    decreases |steps|
  {
    if steps != [] {
      StepInv(s, steps[0]);
      RunInv(Next(s, steps[0]), steps[1..]);
    }
  }
}
