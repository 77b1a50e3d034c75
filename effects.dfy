/**
  The three self-driving effects that `processMessage` in script.js starts,
  each as a state record and one step of it:

  - the vibration pattern of a multi-VIBRATE command, which `executeVibration`
    plays one entry at a time and re-arms with `setTimeout`;
  - the LINEAR stroke, which a `setInterval` callback moves back and forth;
  - the LINEAR_SPEED ramp, which `strokerLoop` runs in a `while (isStroking)`
    loop with a stroke duration interpolated from one value to another.

  Timers are not modelled: a step is what one timer callback (or one pass of
  the loop) does, and the outcome of each device call is a parameter.
*/
module Effects {
  import opened Wrappers
  import opened Commands

  /** What is sent to the device: `vibrate(speed)` or `linear(position, duration)`,
      with intensities and positions given in percent and sent as percent / 100. */
  datatype DeviceCall = Vibrate(speed: real) | Linear(position: real, durationMs: int)

  function Fraction(percent: int): real {
    percent as real / 100.0
  }

  // ---------------------------------------------------------------------------
  // The vibration pattern (multi-VIBRATE)
  // ---------------------------------------------------------------------------

  /** One entry of `pattern` after `JSON.parse`: a number of percent, or a value
      that `isNaN` rejects. */
  datatype Level = Percent(value: int) | NotANumber

  /** The `interval` member: absent or falsy (`0` is falsy too), one number, or an array. */
  datatype Interval = NoInterval | Every(ms: int) | Cycle(list: seq<int>)

  /** The parsed brace group of a multi-VIBRATE command; `pattern` is None when
      it is missing or not an array. */
  datatype PatternCommand = PatternCommand(pattern: Option<seq<Level>>, interval: Interval)

  /** A running pattern: its levels, its delays in ms and `patternIndex`. */
  datatype Pattern = Pattern(levels: seq<Level>, delays: seq<int>, index: nat)

  predicate Truthy(i: Interval) {
    match i
    case NoInterval => false
    case Every(ms) => ms != 0
    case Cycle(_) => true
  }

  /** The pattern a parsed command starts: only with an array `pattern` and a
      truthy `interval`; a single number becomes a one-element list of delays. */
  function StartPattern(c: PatternCommand): (r: Option<Pattern>)
    ensures r.Some? <==> c.pattern.Some? && Truthy(c.interval)
    ensures r.Some? ==> r.value.levels == c.pattern.value && r.value.index == 0
    ensures r.Some? ==> r.value.delays == if c.interval.Every? then [c.interval.ms] else c.interval.list
  {
    if c.pattern.None? || !Truthy(c.interval) then None
    else
      var delays := if c.interval.Every? then [c.interval.ms] else c.interval.list;
      Some(Pattern(c.pattern.value, delays, 0))
  }

  /** An entry is played only when it is a number within 0..100. */
  predicate Playable(l: Level) {
    l.Percent? && 0 <= l.value <= 100
  }

  /** The slot the next step plays: `patternIndex`, reset to 0 once it reaches the end. */
  function Slot(p: Pattern): nat {
    if p.index >= |p.levels| then 0 else p.index
  }

  /** `setTimeout` treats a negative delay (and the `undefined` that indexing an
      empty array gives) as 0. */
  function Wait(delays: seq<int>, slot: nat): (d: nat)
    ensures delays != [] && delays[slot % |delays|] >= 0 ==> d == delays[slot % |delays|]
    ensures delays == [] || delays[slot % |delays|] < 0 ==> d == 0
  {
    if delays == [] then 0
    else var d := delays[slot % |delays|]; if d < 0 then 0 else d
  }

  /** What one run of `executeVibration` does: the call it sends, if any, the
      delay before the next run, and the pattern it leaves behind. */
  datatype Beat = Beat(call: Option<DeviceCall>, delay: nat, next: Pattern)

  function Fire(p: Pattern): (b: Beat)
    ensures b.next == p.(index := Slot(p) + 1)
    ensures b.call.Some? <==> Slot(p) < |p.levels| && Playable(p.levels[Slot(p)])
    ensures b.call.Some? ==> b.call.value == Vibrate(Fraction(p.levels[Slot(p)].value))
    ensures b.delay == Wait(p.delays, Slot(p))
  {
    var i := Slot(p);
    var call := if i < |p.levels| && Playable(p.levels[i]) then Some(Vibrate(Fraction(p.levels[i].value))) else None;
    Beat(call, Wait(p.delays, i), p.(index := i + 1))
  }

  /** The pattern after `k` runs of `executeVibration`. */
  function After(p: Pattern, k: nat): Pattern {
    if k == 0 then p else Fire(After(p, k - 1)).next
  }

  /** `a mod n` is the remainder of any division of `a` by `n`. */
  lemma ModUnique(a: int, n: int, q: int, r: int)
    requires n > 0 && 0 <= r < n && a == q * n + r
    ensures a % n == r
  {
    var q', r' := a / n, a % n;
    assert (q - q') * n == r' - r;
    MulBound(q - q', n);
  }

  lemma MulBound(d: int, n: int)
    requires n > 0
    ensures d >= 1 ==> d * n >= n
    ensures d <= -1 ==> d * n <= -n
  {
    if d >= 1 {
      assert d * n == n + (d - 1) * n;
    } else if d <= -1 {
      assert d * n == -n + (d + 1) * n;
    }
  }

  lemma ModSucc(k: nat, n: nat)
    requires n > 0
    ensures (k + 1) % n == if k % n + 1 == n then 0 else k % n + 1
  {
    var q, r := k / n, k % n;
    if r + 1 == n {
      ModUnique(k + 1, n, q + 1, 0);
    } else {
      ModUnique(k + 1, n, q, r + 1);
    }
  }

  /** From a fresh start the `k`-th run plays slot `k mod |levels|`: the index wraps. */
  lemma {:induction false} SlotAfter(p: Pattern, k: nat)
    requires p.index == 0 && p.levels != []
    ensures After(p, k).levels == p.levels && After(p, k).delays == p.delays
    ensures Slot(After(p, k)) == k % |p.levels|
  {
    if k > 0 {
      SlotAfter(p, k - 1);
      ModSucc(k - 1, |p.levels|);
    }
  }

  /** The pattern repeats indefinitely: the `k`-th run plays entry `k mod n` if it
      is playable, and waits the delay of that slot, `delays[(k mod n) mod m]`,
      whether or not the entry was played. */
  lemma {:induction false} PatternRepeats(p: Pattern, k: nat)
    requires p.index == 0 && p.levels != []
    ensures var i := k % |p.levels|; var b := Fire(After(p, k));
      && (b.call.Some? <==> Playable(p.levels[i]))
      && (b.call.Some? ==> b.call.value == Vibrate(Fraction(p.levels[i].value)))
      && b.delay == Wait(p.delays, i)
  {
    SlotAfter(p, k);
  }

  /** An empty `pattern` is still started: every run finds the index past the
      end, resets it to 0, plays nothing and re-arms after the delay of slot 0. */
  lemma {:induction false} EmptyPatternIdles(p: Pattern, k: nat)
    requires p.levels == []
    ensures After(p, k).levels == [] && After(p, k).delays == p.delays
    ensures Fire(After(p, k)).call == None && Fire(After(p, k)).delay == Wait(p.delays, 0)
  {
    if k > 0 {
      EmptyPatternIdles(p, k - 1);
    }
  }

  /** With a single number as `interval`, every run waits that long (or 0 if it is negative). */
  lemma {:induction false} SingleIntervalIsConstant(c: PatternCommand, k: nat)
    requires c.pattern.Some? && c.pattern.value != [] && c.interval.Every? && c.interval.ms > 0
    ensures StartPattern(c).Some? && Fire(After(StartPattern(c).value, k)).delay == c.interval.ms
  {
    PatternRepeats(StartPattern(c).value, k);
  }

  // ---------------------------------------------------------------------------
  // The LINEAR stroke
  // ---------------------------------------------------------------------------

  /** A running LINEAR command: its numbers and `isAtStart`. */
  datatype Stroke = Stroke(args: LinearArgs, isAtStart: bool)

  /** `isAtStart ? endPos / 100 : startPos / 100` */
  function StrokeTarget(s: Stroke): real {
    Fraction(if s.isAtStart then s.args.endPos else s.args.startPos)
  }

  /** Starting a LINEAR command: the first move goes to `endPos` at once, and
      `isAtStart` flips whatever that call's outcome. */
  function StartStroke(a: LinearArgs): (r: (DeviceCall, Stroke))
    ensures r.0 == Linear(Fraction(a.endPos), a.duration)
    ensures r.1 == Stroke(a, false)
  {
    var s := Stroke(a, true);
    (Linear(StrokeTarget(s), a.duration), s.(isAtStart := false))
  }

  /** One interval callback: a move to the current target; `isAtStart` flips
      only when the device call succeeds. */
  function TickStroke(s: Stroke, ok: bool): (r: (DeviceCall, Stroke))
    ensures r.0 == Linear(StrokeTarget(s), s.args.duration)
    ensures r.1.args == s.args && (r.1.isAtStart <==> (s.isAtStart != ok))
  {
    (Linear(StrokeTarget(s), s.args.duration), if ok then s.(isAtStart := !s.isAtStart) else s)
  }

  /** The calls of successive interval callbacks with the given outcomes, and the stroke after them. */
  function Strokes(s: Stroke, outcomes: seq<bool>): (r: (seq<DeviceCall>, Stroke))
    ensures |r.0| == |outcomes|
    decreases |outcomes|
  {
    if outcomes == [] then ([], s)
    else
      var (c, s') := TickStroke(s, outcomes[0]);
      var (cs, last) := Strokes(s', outcomes[1..]);
      ([c] + cs, last)
  }

  function Successes(outcomes: seq<bool>): nat {
    if outcomes == [] then 0 else (if outcomes[0] then 1 else 0) + Successes(outcomes[1..])
  }

  /** `b`, flipped `n` times. */
  function Flipped(b: bool, n: nat): bool {
    if n % 2 == 0 then b else !b
  }

  /** The stroke alternates between the two positions, one step per successful
      move: call `i` goes where `isAtStart` points after the successes before it,
      and a failed move is repeated. */
  lemma {:induction false} StrokesAlternate(s: Stroke, outcomes: seq<bool>, i: nat)
    requires i < |outcomes|
    ensures Strokes(s, outcomes).0[i]
      == Linear(StrokeTarget(s.(isAtStart := Flipped(s.isAtStart, Successes(outcomes[..i])))), s.args.duration)
    ensures Strokes(s, outcomes).1 == s.(isAtStart := Flipped(s.isAtStart, Successes(outcomes)))
    decreases |outcomes|
  {
    var s' := TickStroke(s, outcomes[0]).1;
    if i == 0 {
      assert outcomes[..0] == [];
    } else {
      StrokesAlternate(s', outcomes[1..], i - 1);
      assert outcomes[..i][1..] == outcomes[1..][..i - 1];
    }
    if |outcomes| > 1 {
      StrokesAlternate(s', outcomes[1..], 0);
    } else {
      assert outcomes[1..] == [];
    }
  }

  /** After a LINEAR command, with every move succeeding, the moves go to the
      end, the start, the end, … */
  lemma {:induction false} LinearStrokesFromStart(a: LinearArgs, outcomes: seq<bool>, i: nat)
    requires i < |outcomes| && forall j | 0 <= j < |outcomes| :: outcomes[j]
    ensures Strokes(StartStroke(a).1, outcomes).0[i]
      == Linear(Fraction(if i % 2 == 0 then a.startPos else a.endPos), a.duration)
  {
    StrokesAlternate(StartStroke(a).1, outcomes, i);
    AllSucceed(outcomes[..i]);
  }

  lemma {:induction false} AllSucceed(outcomes: seq<bool>)
    requires forall j | 0 <= j < |outcomes| :: outcomes[j]
    ensures Successes(outcomes) == |outcomes|
  {
    if outcomes != [] {
      AllSucceed(outcomes[1..]);
    }
  }

  // ---------------------------------------------------------------------------
  // The LINEAR_SPEED ramp
  // ---------------------------------------------------------------------------

  /** A running `strokerLoop`: its numbers, `isAtStart` and `currentStep`. */
  datatype Ramp = Ramp(args: LinearSpeedArgs, isAtStart: bool, currentStep: nat)

  predicate ValidRamp(r: Ramp) {
    r.args.steps > 1 && r.currentStep < r.args.steps
  }

  /** A LINEAR_SPEED command starts a loop only when `steps > 1`, at step 0 with `isAtStart` set. */
  function StartRamp(a: LinearSpeedArgs): (r: Option<Ramp>)
    ensures r.Some? <==> a.steps > 1
    ensures r.Some? ==> r.value == Ramp(a, true, 0) && ValidRamp(r.value)
  {
    if a.steps > 1 then Some(Ramp(a, true, 0)) else None
  }

  /** `Math.round`: the nearest integer, halves rounded up. */
  function Round(x: real): (r: int)
    ensures x - 0.5 < r as real <= x + 0.5
  {
    (x + 0.5).Floor
  }

  /** The interpolated duration `startDur + (endDur - startDur) * k / (steps - 1)`, exactly. */
  function Interpolated(a: LinearSpeedArgs, k: nat): real
    requires a.steps > 1
  {
    a.startDur as real + (a.endDur as real - a.startDur as real) * (k as real / (a.steps - 1) as real)
  }

  lemma MulNonNegative(x: real, y: real)
    requires 0.0 <= x && 0.0 <= y
    ensures 0.0 <= x * y
  {
  }

  /** `k / n` lies in 0..1 when `k` does in 0..n. */
  lemma RatioInUnit(k: nat, n: nat)
    requires 0 < n && k <= n
    ensures 0.0 <= k as real / n as real <= 1.0
  {
    var q := k as real / n as real;
    assert q * n as real == k as real;
    if q < 0.0 {
      MulNonNegative(-q, n as real);
    }
    if q > 1.0 {
      MulNonNegative(q - 1.0, n as real);
    }
  }

  /** `j / n <= k / n` when `j <= k`. */
  lemma RatioMonotone(j: nat, k: nat, n: nat)
    requires 0 < n && j <= k
    ensures j as real / n as real <= k as real / n as real
  {
    var qj, qk := j as real / n as real, k as real / n as real;
    assert qj * n as real == j as real && qk * n as real == k as real;
    assert (qj - qk) * n as real == j as real - k as real;
    if qj > qk {
      MulPositive(qj - qk, n as real);
    }
  }

  lemma MulPositive(x: real, y: real)
    requires 0.0 < x && 0.0 < y
    ensures 0.0 < x * y
  {
  }

  lemma InterpolatedBetween(a: LinearSpeedArgs, k: nat)
    requires a.steps > 1 && k < a.steps
    ensures a.startDur <= a.endDur ==> a.startDur as real <= Interpolated(a, k) <= a.endDur as real
    ensures a.endDur <= a.startDur ==> a.endDur as real <= Interpolated(a, k) <= a.startDur as real
  {
    var q := k as real / (a.steps - 1) as real;
    var d := a.endDur as real - a.startDur as real;
    RatioInUnit(k, a.steps - 1);
    var e := if d >= 0.0 then d else -d;
    MulNonNegative(e, q);
    MulNonNegative(e, 1.0 - q);
    assert e * (1.0 - q) == e - e * q;
    assert d * q == if d >= 0.0 then e * q else -(e * q);
    assert Interpolated(a, k) == a.startDur as real + d * q;
  }

  /** The duration of step `k`: the interpolation rounded to the nearest ms. It
      starts at `startDur`, ends at `endDur` and stays between the two. */
  function StepDuration(a: LinearSpeedArgs, k: nat): (d: int)
    requires a.steps > 1 && k < a.steps
    ensures d as real - 0.5 <= Interpolated(a, k) < d as real + 0.5
    ensures k == 0 ==> d == a.startDur
    ensures k == a.steps - 1 ==> d == a.endDur
    ensures a.startDur <= a.endDur ==> a.startDur <= d <= a.endDur
    ensures a.endDur <= a.startDur ==> a.endDur <= d <= a.startDur
  {
    InterpolatedBetween(a, k);
    assert k == a.steps - 1 ==> k as real / (a.steps - 1) as real == 1.0;
    Round(Interpolated(a, k))
  }

  lemma RoundMonotone(x: real, y: real)
    requires x <= y
    ensures Round(x) <= Round(y)
  {
  }

  /** The durations move monotonically from `startDur` towards `endDur`. */
  lemma {:induction false} StepDurationMonotone(a: LinearSpeedArgs, j: nat, k: nat)
    requires a.steps > 1 && j <= k < a.steps
    ensures a.startDur <= a.endDur ==> StepDuration(a, j) <= StepDuration(a, k)
    ensures a.endDur <= a.startDur ==> StepDuration(a, k) <= StepDuration(a, j)
  {
    var n := (a.steps - 1) as real;
    var d := a.endDur as real - a.startDur as real;
    var qj, qk := j as real / n, k as real / n;
    RatioMonotone(j, k, a.steps - 1);
    var e := if d >= 0.0 then d else -d;
    MulNonNegative(e, qk - qj);
    assert e * (qk - qj) == e * qk - e * qj;
    assert d * qj == (if d >= 0.0 then e * qj else -(e * qj)) && d * qk == (if d >= 0.0 then e * qk else -(e * qk));
    if d >= 0.0 {
      RoundMonotone(Interpolated(a, j), Interpolated(a, k));
    } else {
      RoundMonotone(Interpolated(a, k), Interpolated(a, j));
    }
  }

  /** 1000 ms down to 200 ms over 5 steps gives 1000, 800, 600, 400, 200. */
  lemma RampExample()
    ensures var a := LinearSpeedArgs(10, 90, 1000, 200, 5);
      [StepDuration(a, 0), StepDuration(a, 1), StepDuration(a, 2), StepDuration(a, 3), StepDuration(a, 4)]
        == [1000, 800, 600, 400, 200]
  {
    var a := LinearSpeedArgs(10, 90, 1000, 200, 5);
    assert Interpolated(a, 1) == 800.0;
    assert Interpolated(a, 2) == 600.0;
    assert Interpolated(a, 3) == 400.0;
  }

  /** The move of one pass of the loop: to `endPos` when `isAtStart`, else to
      `startPos`, over the duration of the current step. */
  function RampMove(r: Ramp): DeviceCall
    requires ValidRamp(r)
  {
    Linear(Fraction(if r.isAtStart then r.args.endPos else r.args.startPos), StepDuration(r.args, r.currentStep))
  }

  /** After a successful pass: flip `isAtStart`, advance `currentStep`, back to 0 after the last step. */
  function Advance(r: Ramp): (r': Ramp)
    requires ValidRamp(r)
    ensures ValidRamp(r') && r'.args == r.args && r'.isAtStart == !r.isAtStart
    ensures r'.currentStep == (r.currentStep + 1) % r.args.steps
  {
    var next := r.currentStep + 1;
    r.(isAtStart := !r.isAtStart, currentStep := if next >= r.args.steps then 0 else next)
  }

  /** The ramp after `n` successful passes. */
  function Advanced(r: Ramp, n: nat): (r': Ramp)
    requires ValidRamp(r)
    ensures ValidRamp(r') && r'.args == r.args
  {
    if n == 0 then r else Advance(Advanced(r, n - 1))
  }

  /** The moves of the first `n` passes, when the first `n - 1` succeed. */
  function Moves(r: Ramp, n: nat): (ms: seq<DeviceCall>)
    requires ValidRamp(r)
    ensures |ms| == n
  {
    if n == 0 then [] else Moves(r, n - 1) + [RampMove(Advanced(r, n - 1))]
  }

  /** From the start, pass `n` is at step `n mod steps`, and `isAtStart` holds on even passes. */
  lemma {:induction false} AdvancedFromStart(a: LinearSpeedArgs, n: nat)
    requires a.steps > 1
    ensures Advanced(Ramp(a, true, 0), n) == Ramp(a, n % 2 == 0, n % a.steps)
  {
    if n > 0 {
      AdvancedFromStart(a, n - 1);
      ModSucc(n - 1, a.steps);
      ModSucc(n - 1, 2);
    }
  }

  /** The loop's moves alternate end, start, end, … and follow the duration ramp,
      which starts over after the last step. */
  lemma {:induction false} RampMoves(a: LinearSpeedArgs, n: nat, i: nat)
    requires a.steps > 1 && i < n
    ensures Moves(Ramp(a, true, 0), n)[i]
      == Linear(Fraction(if i % 2 == 0 then a.endPos else a.startPos), StepDuration(a, i % a.steps))
  {
    if i < n - 1 {
      RampMoves(a, n - 1, i);
    } else {
      AdvancedFromStart(a, i);
    }
  }

  function LeadingSuccesses(outcomes: seq<bool>): (n: nat)
    ensures n <= |outcomes|
    ensures forall j | 0 <= j < n :: outcomes[j]
    ensures n < |outcomes| ==> !outcomes[n]
  {
    if outcomes == [] || !outcomes[0] then 0 else 1 + LeadingSuccesses(outcomes[1..])
  }

  /** The waits of the first `n` passes, when all of them succeed. */
  function Durations(r: Ramp, n: nat): (ds: seq<int>)
    requires ValidRamp(r)
    ensures |ds| == n
  {
    if n == 0 then [] else Durations(r, n - 1) + [StepDuration(r.args, Advanced(r, n - 1).currentStep)]
  }

  /** `strokerLoop` while nothing else clears `isStroking`: each pass sends the
      move of the current step; when the call succeeds it waits that step's
      duration, flips the target and advances the step; a failed call clears
      `isStroking`, which ends the loop. `outcomes` are the results of the
      device calls in turn; the method stops when they run out. */
  method StrokerLoop(r0: Ramp, outcomes: seq<bool>) returns (moves: seq<DeviceCall>, waits: seq<int>, r: Ramp, stroking: bool)
    requires ValidRamp(r0)
    ensures var n := LeadingSuccesses(outcomes);
      && stroking == (n == |outcomes|)
      && moves == Moves(r0, if stroking then n else n + 1)
      && waits == Durations(r0, n)
      && r == Advanced(r0, n)
  {
    moves, waits, r, stroking := [], [], r0, true;
    var i := 0;
    while stroking && i < |outcomes|
      invariant 0 <= |waits| <= i <= |outcomes| && |waits| <= LeadingSuccesses(outcomes)
      invariant stroking ==> |waits| == i
      invariant !stroking ==> |waits| == i - 1 == LeadingSuccesses(outcomes)
      invariant ValidRamp(r) && r == Advanced(r0, |waits|)
      invariant waits == Durations(r0, |waits|) && moves == Moves(r0, i)
      decreases |outcomes| - i, stroking
    {
      var move := RampMove(r);
      moves := moves + [move];
      if outcomes[i] {
        waits := waits + [StepDuration(r.args, r.currentStep)];
        r := Advance(r);
      } else {
        stroking := false;
      }
      i := i + 1;
    }
  }
}
