/**
 Time for one generation's loop. Check 0 is the first check, begun when the goroutine starts; the ticker is created
 only when it has ended, and ticks begin the later ones. The ticker's channel holds at most one tick and drops the
 rest.
 */
module TickGrid {
  import opened Wrappers

  datatype State = State(
    interval: int,
    now: int,
    created: Option<int>,  // when the ticker was created
    fired: nat,
    dropped: nat,
    buffered: bool,
    starts: seq<int>,
    ends: seq<int>)

  /** The goroutine starts at time begun, with its first check. */
  function Init(begun: int, interval: int): State {
    State(interval, begun, None, 0, 0, false, [begun], [])
  }

  predicate Busy(s: State) { |s.ends| < |s.starts| }

  /** The time of the n-th tick. */
  function TickAt(created: int, interval: int, n: nat): int {
    if n == 0 then created else TickAt(created, interval, n - 1) + interval
  }

  lemma {:induction false} TickAtIsLinear(created: int, interval: int, n: nat)
    ensures TickAt(created, interval, n) == created + n * interval
  {
    if n > 0 {
      TickAtIsLinear(created, interval, n - 1);
      assert n * interval == (n - 1) * interval + interval;
    }
  }

  lemma {:induction false} TickAtGrows(created: int, interval: int, m: nat, n: nat)
    requires interval > 0 && m <= n
    ensures TickAt(created, interval, m) <= TickAt(created, interval, n)
  {
    if m < n {
      TickAtGrows(created, interval, m, n - 1);
    }
  }

  /** When the next tick is due. */
  function Due(s: State): int
    requires s.created.Some?
  {
    TickAt(s.created.value, s.interval, s.fired + 1)
  }

  /** How long check k took. */
  function Duration(s: State, k: nat): int
    requires k < |s.starts| && k < |s.ends|
  {
    s.ends[k] - s.starts[k]
  }

  /** The distance between the starts of checks k and k + 1. */
  function Gap(s: State, k: nat): int
    requires k + 1 < |s.starts|
  {
    s.starts[k + 1] - s.starts[k]
  }

  datatype Step = Elapse(d: int) | EndCheck | CreateTicker | Fire | Receive

  predicate Enabled(s: State, step: Step) {
    match step
    case Elapse(d) => d > 0
    case EndCheck => Busy(s)
    case CreateTicker => s.created.None? && !Busy(s)
    case Fire => s.created.Some? && s.now >= Due(s)
    case Receive => s.buffered && !Busy(s)
  }

  function Next(s: State, step: Step): State {
    match step
    case Elapse(d) => s.(now := s.now + d)
    case CreateTicker => s.(created := Some(s.now))
    case Fire => s.(fired := s.fired + 1, dropped := s.dropped + (if s.buffered then 1 else 0), buffered := true)
    case Receive => s.(buffered := false, starts := s.starts + [s.now])
    case EndCheck => s.(ends := s.ends + [s.now])
  }

  ghost predicate ValidRun(s: State, steps: seq<Step>)
    decreases |steps|
  {
    steps != [] ==> Enabled(s, steps[0]) && ValidRun(Next(s, steps[0]), steps[1..])
  }

  ghost function After(s: State, steps: seq<Step>): State
    decreases |steps|
  {
    if steps == [] then s else After(Next(s, steps[0]), steps[1..])
  }

  /** The ticker fires on time, and before time moves on the loop creates its ticker or takes a waiting tick. */
  predicate Prompt(s: State, step: Step) {
    step.Elapse? ==>
      (if s.created.Some? then s.now + step.d <= Due(s) && !(s.buffered && !Busy(s)) else Busy(s))
  }

  ghost predicate PromptRun(s: State, steps: seq<Step>)
    decreases |steps|
  {
    steps != [] ==>
      Enabled(s, steps[0]) && Prompt(s, steps[0]) && PromptRun(Next(s, steps[0]), steps[1..])
  }

  // ---------------------------------------------------------------- any run: conservation and the rate bound

  /** What depends on the ticker: it was created after the first check, and tick k has to fire before check k. */
  ghost predicate TickerOk(s: State) {
    match s.created
    case None => |s.starts| == 1 && s.fired == 0 && !s.buffered
    case Some(created) =>
      && |s.ends| >= 1 && s.ends[0] <= created
      && TickAt(created, s.interval, s.fired) <= s.now
      && (forall k :: 1 <= k < |s.starts| ==> TickAt(created, s.interval, k) <= s.starts[k])
  }

  ghost predicate Inv(s: State) {
    && s.interval > 0
    && |s.starts| >= 1 && |s.ends| <= |s.starts| <= |s.ends| + 1
    && s.fired + 1 == |s.starts| + (if s.buffered then 1 else 0) + s.dropped
    && TickerOk(s)
    && (forall k :: 0 <= k < |s.starts| ==> s.starts[k] <= s.now)
    && (forall k :: 0 <= k < |s.ends| ==> 0 <= Duration(s, k) && s.ends[k] <= s.now)
    && (forall k :: 0 <= k < |s.starts| - 1 ==> Duration(s, k) <= Gap(s, k))
  }

  /** Steps only append to the two lists. */
  lemma StepKeeps(s: State, step: Step)
    requires |s.ends| <= |s.starts|
    ensures s.starts <= Next(s, step).starts && s.ends <= Next(s, step).ends
    ensures forall k :: 0 <= k < |s.ends| ==> Duration(Next(s, step), k) == Duration(s, k)
    ensures forall k :: 0 <= k < |s.starts| - 1 ==> Gap(Next(s, step), k) == Gap(s, k)
  {
  }

  lemma StepInv(s: State, step: Step)
    requires Inv(s) && Enabled(s, step)
    ensures Inv(Next(s, step))
  {
    var s' := Next(s, step);
    StepKeeps(s, step);
    if step.Receive? {
      TickAtGrows(s.created.value, s.interval, |s.starts|, s.fired);
    }
    forall k | 0 <= k < |s'.starts| - 1 ensures Duration(s', k) <= Gap(s', k) {
      assert Duration(s', k) == Duration(s, k);
      if k < |s.starts| - 1 {
        assert Gap(s', k) == Gap(s, k);
      }
    }
  }

  lemma {:induction false} RunInv(s: State, steps: seq<Step>)
    requires Inv(s) && ValidRun(s, steps)
    ensures Inv(After(s, steps))
    decreases |steps|
  {
    if steps != [] {
      StepInv(s, steps[0]);
      RunInv(Next(s, steps[0]), steps[1..]);
    }
  }

  lemma {:induction false} ConfigFixed(s: State, steps: seq<Step>)
    requires ValidRun(s, steps) && |s.ends| <= |s.starts| && s.starts != []
    ensures var t := After(s, steps);
      && t.interval == s.interval && s.starts <= t.starts && t.starts[0] == s.starts[0]
    decreases |steps|
  {
    if steps != [] {
      ConfigFixed(Next(s, steps[0]), steps[1..]);
    }
  }

  lemma QuotientBound(n: nat, x: int, i: int)
    requires i > 0 && x >= 0 && TickAt(0, i, n) <= x
    ensures n <= x / i
  {
    var q := x / i;
    assert x < q * i + i;
    TickAtIsLinear(0, i, q);
    assert TickAt(0, i, q + 1) > x;
    TickAtGrows(0, i, if q + 1 <= n then q + 1 else n, n);
  }

  lemma {:induction false} TickAtShifts(created: int, interval: int, n: nat)
    ensures TickAt(created, interval, n) == created + TickAt(0, interval, n)
  {
    if n > 0 {
      TickAtShifts(created, interval, n - 1);
    }
  }

  /** k intervals have to pass between the end of the first check and the start of check k. */
  lemma StartsAreLate(s: State, k: nat)
    requires Inv(s) && 1 <= k < |s.starts|
    ensures s.starts[k] >= s.ends[0] + TickAt(0, s.interval, k)
  {
    TickAtShifts(s.created.value, s.interval, k);
  }

  /** No tick is invented: each fired tick was received, is buffered (at most one), or was dropped. Until the ticker
      exists the first check is the only one; from then on at most 1 + (now - created) / interval checks have begun,
      however long checks take and however late ticks are served, and check n never begins before n intervals have
      passed since the end of the first. */
  lemma RateBound(begun: int, interval: int, steps: seq<Step>)
    requires interval > 0 && ValidRun(Init(begun, interval), steps)
    ensures var s := After(Init(begun, interval), steps);
      && |s.starts| >= 1 && s.starts[0] == begun && s.now >= begun
      && s.fired == |s.starts| - 1 + (if s.buffered then 1 else 0) + s.dropped
      && (s.created.None? ==> |s.starts| == 1)
      && (s.created.Some? ==> |s.starts| <= 1 + (s.now - s.created.value) / interval)
      && |s.starts| <= 1 + (s.now - begun) / interval
      && (forall k :: 1 <= k < |s.starts| ==>
            |s.ends| >= 1 && s.starts[k] >= begun + Duration(s, 0) + TickAt(0, interval, k))
  {
    RunInv(Init(begun, interval), steps);
    ConfigFixed(Init(begun, interval), steps);
    var s := After(Init(begun, interval), steps);
    forall k | 1 <= k < |s.starts| ensures s.starts[k] >= begun + Duration(s, 0) + TickAt(0, interval, k) {
      StartsAreLate(s, k);
    }
    BegunBy(s);
  }

  lemma BegunBy(s: State)
    requires Inv(s)
    ensures s.created.Some? ==> |s.starts| <= 1 + (s.now - s.created.value) / s.interval
    ensures |s.starts| <= 1 + (s.now - s.starts[0]) / s.interval
  {
    var n := |s.starts| - 1;
    if s.created.Some? {
      TickAtGrows(s.created.value, s.interval, n, s.fired);
      TickAtGrows(s.created.value, s.interval, 0, s.fired);
      TickAtShifts(s.created.value, s.interval, n);
      QuotientBound(n, s.now - s.created.value, s.interval);
      assert s.starts[0] <= s.created.value by { assert 0 <= Duration(s, 0); }
      QuotientBound(n, s.now - s.starts[0], s.interval);
    } else {
      QuotientBound(0, s.now - s.starts[0], s.interval);
    }
  }

  // ---------------------------------------------------------------- prompt runs: gaps

  function Max(a: int, b: int): int { if a < b then b else a }

  function LastStart(s: State): int
    requires s.starts != []
  {
    s.starts[|s.starts| - 1]
  }

  /** When a prompt loop may still be waiting for its ticker or for its next check. */
  ghost predicate Waits(s: State)
    requires |s.ends| <= |s.starts| && s.starts != []
  {
    match s.created
    case None => s.ends != [] ==> s.now == s.ends[0]
    case Some(created) =>
      && s.ends != [] && created == s.ends[0] && s.now <= Due(s)
      && (|s.starts| == 1 ==>
            if s.buffered then s.fired == 1 && s.now == created + s.interval else s.fired == 0)
      && (|s.starts| > 1 && !s.buffered ==> Due(s) <= LastStart(s) + s.interval)
      && (|s.starts| > 1 && s.buffered && !Busy(s) && |s.ends| == |s.starts| ==>
            s.now <= Max(LastStart(s) + s.interval, s.ends[|s.ends| - 1]))
  }

  /** The most that may lie between the starts of checks k and k + 1. */
  function Allowed(s: State, k: nat): int
    requires k < |s.starts| && k < |s.ends|
  {
    if k == 0 then s.interval + Duration(s, 0) else Max(s.interval, Duration(s, k))
  }

  ghost predicate Gaps(s: State) {
    && |s.starts| <= |s.ends| + 1
    && (|s.starts| > 1 ==> Gap(s, 0) == Allowed(s, 0))
    && (forall k :: 0 <= k < |s.starts| - 1 ==> Gap(s, k) <= Allowed(s, k))
  }

  lemma StepWaits(s: State, step: Step)
    requires Inv(s) && Waits(s) && Enabled(s, step) && Prompt(s, step)
    ensures Inv(Next(s, step)) && Waits(Next(s, step))
  {
    StepInv(s, step);
    if s.created.Some? {
      assert TickAt(s.created.value, s.interval, 1) == s.created.value + s.interval;
    } else if step.CreateTicker? {
      assert TickAt(s.now, s.interval, 1) == s.now + s.interval;
    }
  }

  lemma StepGaps(s: State, step: Step)
    requires Inv(s) && Waits(s) && Gaps(s) && Enabled(s, step) && Prompt(s, step)
    ensures Inv(Next(s, step)) && Waits(Next(s, step)) && Gaps(Next(s, step))
  {
    StepWaits(s, step);
    var s' := Next(s, step);
    StepKeeps(s, step);
    forall k | 0 <= k < |s'.starts| - 1
      ensures Gap(s', k) <= Allowed(s', k) && (k == 0 ==> Gap(s', 0) == Allowed(s', 0))
    {
      assert Duration(s', k) == Duration(s, k);
      if k < |s.starts| - 1 {
        assert Gap(s', k) == Gap(s, k);
      }
    }
  }

  lemma {:induction false} RunGaps(s: State, steps: seq<Step>)
    requires Inv(s) && Waits(s) && Gaps(s) && PromptRun(s, steps)
    ensures Inv(After(s, steps)) && Waits(After(s, steps)) && Gaps(After(s, steps))
    decreases |steps|
  {
    if steps != [] {
      StepGaps(s, steps[0]);
      RunGaps(Next(s, steps[0]), steps[1..]);
    }
  }

  lemma {:induction false} PromptIsValid(s: State, steps: seq<Step>)
    requires PromptRun(s, steps)
    ensures ValidRun(s, steps)
    decreases |steps|
  {
    if steps != [] {
      PromptIsValid(Next(s, steps[0]), steps[1..]);
    }
  }

  /** Served promptly, the second check begins exactly interval plus the first check's duration after the first, and
      every later one at most max(interval, duration of the check before) after the one before. */
  lemma GapBound(begun: int, interval: int, steps: seq<Step>)
    requires interval > 0 && PromptRun(Init(begun, interval), steps)
    ensures var s := After(Init(begun, interval), steps);
      && |s.ends| <= |s.starts| <= |s.ends| + 1 && |s.starts| >= 1 && s.starts[0] == begun
      && (|s.starts| > 1 ==> Gap(s, 0) == interval + Duration(s, 0))
      && (forall k :: 1 <= k < |s.starts| - 1 ==> Gap(s, k) <= Max(interval, Duration(s, k)))
  {
    PromptIsValid(Init(begun, interval), steps);
    RunGaps(Init(begun, interval), steps);
    ConfigFixed(Init(begun, interval), steps);
  }

  // ---------------------------------------------------------------- prompt runs: the grid

  /** No tick-driven check so far has outlasted the interval; the one in progress counts up to now. */
  ghost predicate Calm(s: State)
    requires |s.ends| <= |s.starts|
  {
    && (forall k :: 1 <= k < |s.ends| ==> Duration(s, k) <= s.interval)
    && (Busy(s) && |s.starts| > 1 ==> s.now - LastStart(s) <= s.interval)
  }

  /** Every tick-driven check before the most recent one ended within the interval. */
  ghost predicate CalmBefore(s: State)
    requires |s.ends| <= |s.starts|
  {
    forall k :: 1 <= k < |s.ends| && k < |s.starts| - 1 ==> Duration(s, k) <= s.interval
  }

  ghost predicate OnGrid(s: State) {
    s.created.Some? ==>
      forall k :: 1 <= k < |s.starts| ==> s.starts[k] == TickAt(s.created.value, s.interval, k)
  }

  ghost predicate Grid(s: State)
    requires |s.ends| <= |s.starts|
  {
    && (CalmBefore(s) ==> OnGrid(s))
    && (Calm(s) ==> s.dropped == 0)
    && (Calm(s) && s.created.Some? && s.buffered && !Busy(s) ==> s.now == TickAt(s.created.value, s.interval, s.fired))
  }

  lemma CalmIsCalmBefore(s: State)
    requires Inv(s) && Calm(s)
    ensures CalmBefore(s)
  {
  }

  lemma CalmBeforePasses(s: State, step: Step)
    requires Inv(s) && Enabled(s, step) && |Next(s, step).ends| <= |Next(s, step).starts|
    requires CalmBefore(Next(s, step))
    ensures CalmBefore(s) && (step.Receive? ==> Calm(s))
  {
    StepKeeps(s, step);
    forall k | 1 <= k < |s.ends| && (k < |s.starts| - 1 || step.Receive?) ensures Duration(s, k) <= s.interval {
      assert Duration(Next(s, step), k) == Duration(s, k);
    }
  }

  lemma CalmPasses(s: State, step: Step)
    requires Inv(s) && Enabled(s, step) && |Next(s, step).ends| <= |Next(s, step).starts|
    requires Calm(Next(s, step))
    ensures Calm(s)
  {
    var s' := Next(s, step);
    StepKeeps(s, step);
    forall k | 1 <= k < |s.ends| ensures Duration(s, k) <= s.interval {
      assert Duration(s', k) == Duration(s, k);
    }
    if step.EndCheck? {
      assert Duration(s', |s.ends|) == s.now - LastStart(s);
    }
  }

  lemma GridReceive(s: State)
    requires Inv(s) && Waits(s) && Grid(s) && Enabled(s, Receive)
    ensures Grid(Next(s, Receive))
  {
    var s' := Next(s, Receive);
    if Calm(s') {
      CalmPasses(s, Receive);
      assert CalmBefore(s') by { assert forall k :: 1 <= k < |s'.ends| ==> Duration(s', k) <= s'.interval; }
    }
    if CalmBefore(s') {
      CalmBeforePasses(s, Receive);
      assert s.fired == |s.starts|;
    }
  }

  lemma GridFire(s: State)
    requires Inv(s) && Waits(s) && Grid(s) && Enabled(s, Fire)
    ensures Grid(Next(s, Fire))
  {
    var s' := Next(s, Fire);
    if Calm(s') {
      CalmPasses(s, Fire);
      CalmIsCalmBefore(s);
      assert s.now == Due(s);
      assert s.buffered ==> s.fired == |s.starts|;
      assert !s.buffered;
    }
    if CalmBefore(s') {
      CalmBeforePasses(s, Fire);
    }
  }

  lemma GridEndCheck(s: State)
    requires Inv(s) && Waits(s) && Grid(s) && Enabled(s, EndCheck)
    ensures Grid(Next(s, EndCheck))
  {
    var s' := Next(s, EndCheck);
    if CalmBefore(s') {
      CalmBeforePasses(s, EndCheck);
    }
    if Calm(s') {
      CalmPasses(s, EndCheck);
      CalmIsCalmBefore(s);
      if s.buffered && s.created.Some? {
        assert s.fired == |s.starts|;
        assert s.now <= LastStart(s) + s.interval;
        assert LastStart(s) == TickAt(s.created.value, s.interval, |s.starts| - 1);
      }
    }
  }

  lemma StepGrid(s: State, step: Step)
    requires Inv(s) && Waits(s) && Grid(s) && Enabled(s, step) && Prompt(s, step)
    ensures |Next(s, step).ends| <= |Next(s, step).starts| && Grid(Next(s, step))
  {
    match step {
      case Receive => GridReceive(s);
      case Fire => GridFire(s);
      case EndCheck => GridEndCheck(s);
      case _ =>
        var s' := Next(s, step);
        if CalmBefore(s') {
          CalmBeforePasses(s, step);
        }
        if Calm(s') {
          CalmPasses(s, step);
        }
    }
  }

  lemma {:induction false} RunGrid(s: State, steps: seq<Step>)
    requires Inv(s) && Waits(s) && Gaps(s) && Grid(s) && PromptRun(s, steps)
    ensures Inv(After(s, steps)) && Waits(After(s, steps)) && Gaps(After(s, steps)) && Grid(After(s, steps))
    decreases |steps|
  {
    if steps != [] {
      StepGaps(s, steps[0]);
      StepGrid(s, steps[0]);
      RunGrid(Next(s, steps[0]), steps[1..]);
    }
  }

  lemma PromptRunInv(begun: int, interval: int, steps: seq<Step>)
    requires interval > 0 && PromptRun(Init(begun, interval), steps)
    ensures var s := After(Init(begun, interval), steps);
      Inv(s) && Waits(s) && Gaps(s) && Grid(s) && s.interval == interval && s.starts[0] == begun
  {
    PromptIsValid(Init(begun, interval), steps);
    RunGrid(Init(begun, interval), steps);
    ConfigFixed(Init(begun, interval), steps);
  }

  /** While no tick-driven check outlasts the interval no tick is lost, and check n begins exactly n intervals after
      the first check ended, however long that one took. */
  lemma NoDrift(begun: int, interval: int, steps: seq<Step>)
    requires interval > 0 && PromptRun(Init(begun, interval), steps)
    requires var s := After(Init(begun, interval), steps); |s.ends| <= |s.starts| && Calm(s)
    ensures var s := After(Init(begun, interval), steps);
      && s.dropped == 0
      && (forall k :: 1 <= k < |s.starts| ==>
            s.ends != [] && s.starts[k] == begun + Duration(s, 0) + TickAt(0, interval, k))
  {
    PromptRunInv(begun, interval, steps);
    var s := After(Init(begun, interval), steps);
    CalmIsCalmBefore(s);
    forall k | 1 <= k < |s.starts| ensures s.starts[k] == begun + Duration(s, 0) + TickAt(0, interval, k) {
      TickAtShifts(s.created.value, interval, k);
    }
  }

  /** How long check k may take without disturbing the spacing: the first one no time at all. */
  function Harmless(interval: int, k: nat): int { if k == 0 then 0 else interval }

  /** All checks are evenly spaced if and only if the first took no time and every later one, the most recent aside,
      ended within the interval; the checks after the first are, if and only if those did. The source says the
      spacing holds however long any check takes. */
  lemma EvenlySpacedIffChecksAreShort(begun: int, interval: int, steps: seq<Step>)
    requires interval > 0 && PromptRun(Init(begun, interval), steps)
    ensures var s := After(Init(begun, interval), steps);
      && |s.ends| <= |s.starts| <= |s.ends| + 1
      && ((forall k :: 0 <= k < |s.starts| - 1 ==> Gap(s, k) == interval) <==>
          (forall k :: 0 <= k < |s.starts| - 1 ==> Duration(s, k) <= Harmless(interval, k)))
      && ((forall k :: 1 <= k < |s.starts| - 1 ==> Gap(s, k) == interval) <==>
          (forall k :: 1 <= k < |s.starts| - 1 ==> Duration(s, k) <= interval))
  {
    PromptRunInv(begun, interval, steps);
    var s := After(Init(begun, interval), steps);
    TickDrivenSpacing(s);
    if |s.starts| > 1 {
      assert Gap(s, 0) == interval <==> Duration(s, 0) <= 0;
    }
    if forall k :: 0 <= k < |s.starts| - 1 ==> Gap(s, k) == interval {
      assert forall k :: 1 <= k < |s.starts| - 1 ==> Gap(s, k) == interval;
    }
    if forall k :: 0 <= k < |s.starts| - 1 ==> Duration(s, k) <= Harmless(interval, k) {
      forall k | 1 <= k < |s.starts| - 1 ensures Duration(s, k) <= interval {
        assert Duration(s, k) <= Harmless(interval, k);
      }
      assert |s.starts| > 1 ==> Duration(s, 0) <= Harmless(interval, 0);
    }
  }

  lemma TickDrivenSpacing(s: State)
    requires Inv(s) && Grid(s)
    ensures (forall k :: 1 <= k < |s.starts| - 1 ==> Gap(s, k) == s.interval) <==>
            (forall k :: 1 <= k < |s.starts| - 1 ==> Duration(s, k) <= s.interval)
  {
    if forall k :: 1 <= k < |s.starts| - 1 ==> Gap(s, k) == s.interval {
      forall k | 1 <= k < |s.starts| - 1 ensures Duration(s, k) <= s.interval {
        assert Gap(s, k) == s.interval;
      }
    }
    if forall k :: 1 <= k < |s.starts| - 1 ==> Duration(s, k) <= s.interval {
      assert OnGrid(s);
      forall k | 1 <= k < |s.starts| - 1 ensures Gap(s, k) == s.interval {
        assert s.starts[k] == TickAt(s.created.value, s.interval, k);
        assert s.starts[k + 1] == TickAt(s.created.value, s.interval, k + 1);
      }
    }
  }

  /** A prompt run leads from s to t. */
  ghost predicate Leads(s: State, t: State) {
    exists steps :: PromptRun(s, steps) && After(s, steps) == t
  }

  lemma LeadsSelf(s: State)
    ensures Leads(s, s)
  {
    assert PromptRun(s, []) && After(s, []) == s;
  }

  lemma LeadsStep(s: State, step: Step, next: State, t: State)
    requires Enabled(s, step) && Prompt(s, step) && next == Next(s, step) && Leads(next, t)
    ensures Leads(s, t)
  {
    var rest :| PromptRun(next, rest) && After(next, rest) == t;
    assert ([step] + rest)[1..] == rest;
    assert PromptRun(s, [step] + rest) && After(s, [step] + rest) == t;
  }

  /** An interval of 10 and a first check of 3: the ticker exists. */
  const ARMED := State(10, 3, Some(3), 0, 0, false, [0], [3])

  lemma TickerIsCreated(t: State)
    requires Leads(ARMED, t)
    ensures Leads(Init(0, 10), t)
  {
    var s1, s2 := Init(0, 10).(now := 3), Init(0, 10).(now := 3, ends := [3]);
    LeadsStep(s2, CreateTicker, ARMED, t);
    LeadsStep(s1, EndCheck, s2, t);
    LeadsStep(Init(0, 10), Elapse(3), s1, t);
  }

  /** The checks after it are short, and yet the spacing is uneven: 13, then 10. */
  lemma FirstCheckShifts()
    ensures exists s :: Leads(Init(0, 10), s) && s.starts == [0, 13, 23] && s.ends == [3, 14]
  {
    var s1 := State(10, 13, Some(3), 0, 0, false, [0], [3]);
    var s2 := State(10, 13, Some(3), 1, 0, true, [0], [3]);
    var s3 := State(10, 13, Some(3), 1, 0, false, [0, 13], [3]);
    var s4 := State(10, 14, Some(3), 1, 0, false, [0, 13], [3]);
    var s5 := State(10, 14, Some(3), 1, 0, false, [0, 13], [3, 14]);
    var s6 := State(10, 23, Some(3), 1, 0, false, [0, 13], [3, 14]);
    var s7 := State(10, 23, Some(3), 2, 0, true, [0, 13], [3, 14]);
    var s8 := State(10, 23, Some(3), 2, 0, false, [0, 13, 23], [3, 14]);
    assert TickAt(3, 10, 1) == 13 && TickAt(3, 10, 2) == 23;
    LeadsSelf(s8);
    LeadsStep(s7, Receive, s8, s8);
    LeadsStep(s6, Fire, s7, s8);
    LeadsStep(s5, Elapse(9), s6, s8);
    LeadsStep(s4, EndCheck, s5, s8);
    LeadsStep(s3, Elapse(1), s4, s8);
    LeadsStep(s2, Receive, s3, s8);
    LeadsStep(s1, Fire, s2, s8);
    LeadsStep(ARMED, Elapse(10), s1, s8);
    TickerIsCreated(s8);
  }

  /** A check of 25: the next one comes 25 after it, off the grid, and a tick is lost. */
  lemma LongChecksDrift()
    ensures exists s :: Leads(Init(0, 10), s) && s.starts == [0, 13, 38] && s.dropped == 1
  {
    var s1 := State(10, 13, Some(3), 0, 0, false, [0], [3]);
    var s2 := State(10, 13, Some(3), 1, 0, true, [0], [3]);
    var s3 := State(10, 13, Some(3), 1, 0, false, [0, 13], [3]);
    var s4 := State(10, 23, Some(3), 1, 0, false, [0, 13], [3]);
    var s5 := State(10, 23, Some(3), 2, 0, true, [0, 13], [3]);
    var s6 := State(10, 33, Some(3), 2, 0, true, [0, 13], [3]);
    var s7 := State(10, 33, Some(3), 3, 1, true, [0, 13], [3]);
    var s8 := State(10, 38, Some(3), 3, 1, true, [0, 13], [3]);
    var s9 := State(10, 38, Some(3), 3, 1, true, [0, 13], [3, 38]);
    var s10 := State(10, 38, Some(3), 3, 1, false, [0, 13, 38], [3, 38]);
    assert TickAt(3, 10, 1) == 13 && TickAt(3, 10, 2) == 23 && TickAt(3, 10, 3) == 33 && TickAt(3, 10, 4) == 43;
    LeadsSelf(s10);
    LeadsStep(s9, Receive, s10, s10);
    LeadsStep(s8, EndCheck, s9, s10);
    LeadsStep(s7, Elapse(5), s8, s10);
    LeadsStep(s6, Fire, s7, s10);
    LeadsStep(s5, Elapse(10), s6, s10);
    LeadsStep(s4, Fire, s5, s10);
    LeadsStep(s3, Elapse(10), s4, s10);
    LeadsStep(s2, Receive, s3, s10);
    LeadsStep(s1, Fire, s2, s10);
    LeadsStep(ARMED, Elapse(10), s1, s10);
    TickerIsCreated(s10);
  }
}
