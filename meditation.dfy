/** The breathing-exercise page: a countdown of the session's seconds, a four-step
    box-breathing cycle that advances every four seconds, start and stop, and the
    `m:ss` formatting of the remaining time. Interval callbacks are explicit method
    calls (one call per firing); the set of live intervals is kept as a map from
    handle to the kind of interval it drives, so what `clearInterval` does and does
    not cancel is visible. */
module Meditation {
  import opened Common

  datatype BreathStep = BreathStep(name: string, duration: nat, instruction: string)

  /** The fixed four-step box-breathing cycle. */
  const BreatheSteps: seq<BreathStep> := [
    BreathStep("Inhale", 4, "Breathe in slowly..."),
    BreathStep("Hold", 4, "Hold your breath..."),
    BreathStep("Exhale", 4, "Release slowly..."),
    BreathStep("Hold", 4, "Keep lungs empty...")
  ]

  /** The duration slider: initial value and range, in minutes. */
  const DefaultDuration := 5
  const MinDuration := 1
  const MaxDuration := 15

  // ---------------------------------------------------------------------------
  // formatTime: seconds -> "m:ss"

  predicate IsDigit(c: char) {
    '0' <= c <= '9'
  }

  predicate AllDigits(s: string) {
    forall i | 0 <= i < |s| :: IsDigit(s[i])
  }

  function DigitValue(c: char): nat
    requires IsDigit(c)
  {
    c as int - '0' as int
  }

  function DigitChar(d: nat): (c: char)
    requires d < 10
    ensures IsDigit(c) && DigitValue(c) == d
  {
    ('0' as int + d) as char
  }

  /** `n.toString()` for a non-negative integer: decimal, without leading zeros. */
  function Decimal(n: nat): (r: string)
    ensures 1 <= |r| && AllDigits(r)
    decreases n
  {
    if n < 10 then [DigitChar(n)] else Decimal(n / 10) + [DigitChar(n % 10)]
  }

  /** `Decimal` writes no leading zero, and one or two digits below 100. */
  lemma {:induction false} DecimalShape(n: nat)
    ensures Decimal(n)[0] == '0' ==> n == 0
    ensures n < 10 ==> |Decimal(n)| == 1
    ensures 10 <= n < 100 ==> |Decimal(n)| == 2
    decreases n
  {
    if n >= 10 {
      DecimalShape(n / 10);
    }
  }

  /** The value of a string of decimal digits; the reading side of `Decimal`. */
  function ParseDecimal(s: string): nat
    requires AllDigits(s)
    decreases |s|
  {
    if |s| == 0 then 0 else ParseDecimal(s[..|s| - 1]) * 10 + DigitValue(s[|s| - 1])
  }

  lemma {:induction false} DecimalRoundTrip(n: nat)
    ensures ParseDecimal(Decimal(n)) == n
    decreases n
  {
    if n >= 10 {
      DecimalRoundTrip(n / 10);
      var r := Decimal(n);
      assert r[..|r| - 1] == Decimal(n / 10);
    }
  }

  /** A leading '0' does not change the value of a digit string. */
  lemma {:induction false} LeadingZero(s: string)
    requires AllDigits(s)
    ensures AllDigits(['0'] + s) && ParseDecimal(['0'] + s) == ParseDecimal(s)
    decreases |s|
  {
    var z := ['0'] + s;
    if |s| > 0 {
      LeadingZero(s[..|s| - 1]);
      assert z[..|z| - 1] == ['0'] + s[..|s| - 1];
    }
  }

  /** `s.padStart(width, fill)` for a one-character `fill`. */
  function PadStart(s: string, width: nat, fill: char): (r: string)
    ensures |r| == if |s| < width then width else |s|
    ensures r[|r| - |s|..] == s
    ensures forall i | 0 <= i < |r| - |s| :: r[i] == fill
  {
    if |s| >= width then s else seq(width - |s|, _ => fill) + s
  }

  /** `formatTime(seconds)`: whole minutes, a colon, then the remaining seconds as
      two digits. */
  function FormatTime(seconds: nat): (t: string)
    ensures ShowsMinutesSeconds(t, seconds / 60, seconds % 60)
    ensures t[..|t| - 3] == Decimal(seconds / 60)
  {
    MinutesSecondsText(seconds / 60, seconds % 60);
    Decimal(seconds / 60) + ":" + PadStart(Decimal(seconds % 60), 2, '0')
  }

  /** Two decimal digits whose value is `n`, for `n < 100`. */
  lemma TwoDigits(n: nat)
    requires n < 100
    ensures var p := PadStart(Decimal(n), 2, '0');
            |p| == 2 && AllDigits(p) && ParseDecimal(p) == n
  {
    DecimalRoundTrip(n);
    DecimalShape(n);
    var d := Decimal(n);
    if n < 10 {
      LeadingZero(d);
      assert PadStart(d, 2, '0') == ['0'] + d;
    } else {
      assert PadStart(d, 2, '0') == d;
    }
  }

  /** `t` is `m:ss` for minutes `q` and seconds `r`: digits before the colon that
      read as `q`, and exactly two digits after it that read as `r`. */
  predicate ShowsMinutesSeconds(t: string, q: nat, r: nat) {
    |t| >= 4 && t[|t| - 3] == ':'
    && AllDigits(t[..|t| - 3]) && ParseDecimal(t[..|t| - 3]) == q
    && AllDigits(t[|t| - 2..]) && ParseDecimal(t[|t| - 2..]) == r
  }

  /** Minutes in decimal, a colon and seconds padded to two digits show those
      minutes and seconds. */
  lemma MinutesSecondsText(q: nat, r: nat)
    requires r < 100
    ensures ShowsMinutesSeconds(Decimal(q) + ":" + PadStart(Decimal(r), 2, '0'), q, r)
  {
    var m, p := Decimal(q), PadStart(Decimal(r), 2, '0');
    TwoDigits(r);
    DecimalRoundTrip(q);
    ColonFields(m, p, q, r);
  }

  /** The fields of `m + ":" + p` for digit strings `m` and `p`, `p` of length two. */
  lemma ColonFields(m: string, p: string, q: nat, r: nat)
    requires 1 <= |m| && AllDigits(m) && ParseDecimal(m) == q
    requires |p| == 2 && AllDigits(p) && ParseDecimal(p) == r
    ensures ShowsMinutesSeconds(m + ":" + p, q, r)
  {
    var t := m + ":" + p;
    assert t[..|t| - 3] == m;
    assert t[|t| - 2..] == p;
  }

  /** Reads an `m:ss` text back as a number of seconds. */
  function ParseTime(t: string): Option<nat> {
    if |t| < 4 || t[|t| - 3] != ':' then None
    else
      var m, ss := t[..|t| - 3], t[|t| - 2..];
      if AllDigits(m) && AllDigits(ss) && ParseDecimal(ss) < 60
      then Some(ParseDecimal(m) * 60 + ParseDecimal(ss))
      else None
  }

  lemma FormatTimeRoundTrip(s: nat)
    ensures ParseTime(FormatTime(s)) == Some(s)
  {
    ParseShown(FormatTime(s), s);
  }

  /** A text that shows `s div 60` and `s mod 60` reads back as `s`. */
  lemma ParseShown(t: string, s: nat)
    requires ShowsMinutesSeconds(t, s / 60, s % 60)
    ensures ParseTime(t) == Some(s)
  {
    assert s % 60 < 60;
    assert s / 60 * 60 + s % 60 == s;
  }

  /** Distinct second counts are shown as distinct texts. */
  lemma FormatTimeInjective(a: nat, b: nat)
    requires FormatTime(a) == FormatTime(b)
    ensures a == b
  {
    FormatTimeRoundTrip(a);
    FormatTimeRoundTrip(b);
  }

  // ---------------------------------------------------------------------------
  // The countdown and the step cycle as functions of their previous value

  /** One countdown firing: `prev <= 1` goes to 0 (and stops the session), any
      larger value goes down by one. */
  function CountdownNext(t: nat): (r: nat)
    ensures t >= 1 ==> r == t - 1
    ensures t == 0 ==> r == 0
  {
    if t <= 1 then 0 else t - 1
  }

  /** The countdown value after `k` firings from `t`. */
  function AfterTicks(t: nat, k: nat): nat
    decreases k
  {
    if k == 0 then t else AfterTicks(CountdownNext(t), k - 1)
  }

  lemma {:induction false} AfterTicksValue(t: nat, k: nat)
    ensures AfterTicks(t, k) == if k >= t then 0 else t - k
    decreases k
  {
    if k > 0 {
      AfterTicksValue(CountdownNext(t), k - 1);
    }
  }

  /** From a start value `n >= 1`, exactly `n` firings reach 0: every earlier
      value is positive, and firings after that leave it at 0. */
  lemma ExactlyNTicksReachZero(n: nat, extra: nat)
    requires n >= 1
    ensures AfterTicks(n, n) == 0
    ensures forall k | 0 <= k < n :: AfterTicks(n, k) > 0
    ensures AfterTicks(n, n + extra) == 0
  {
    AfterTicksValue(n, n);
    AfterTicksValue(n, n + extra);
    forall k | 0 <= k < n
      ensures AfterTicks(n, k) > 0
    {
      AfterTicksValue(n, k);
    }
  }

  /** One firing of the cycle interval: `(prev + 1) % BREATHE_STEPS.length`. */
  function NextStep(s: nat): (r: nat)
    ensures r < |BreatheSteps|
  {
    (s + 1) % |BreatheSteps|
  }

  /** The step index after `k` cycle firings from the reset value 0. */
  function StepAfter(k: nat): nat
    decreases k
  {
    if k == 0 then 0 else NextStep(StepAfter(k - 1))
  }

  /** The step indicator runs 0, 1, 2, 3, 0, 1, ...: after `k` firings it shows
      step `k mod 4`. */
  lemma {:induction false} StepAfterIsMod(k: nat)
    ensures StepAfter(k) == k % 4
    decreases k
  {
    if k > 0 {
      StepAfterIsMod(k - 1);
    }
  }

  // ---------------------------------------------------------------------------
  // The page as written

  datatype IntervalKind = Countdown | Cycle

  /** The page's state: its four `useState` slots, `timerRef.current`, and the
      browser's table of live intervals with the next handle it will hand out
      (handles are positive, hence truthy). */
  class BreathingTimer {
    var isRunning: bool
    var currentStep: nat
    var duration: nat
    var timeLeft: nat
    var timerRef: Option<nat>
    var intervals: map<nat, IntervalKind>
    var nextHandle: nat

    ghost predicate Valid()
      reads this
    {
      currentStep < |BreatheSteps|
      && MinDuration <= duration <= MaxDuration
      && 1 <= nextHandle
      && (forall h | h in intervals :: 1 <= h < nextHandle)
      && (timerRef.Some? ==> 1 <= timerRef.value < nextHandle)
    }

    constructor ()
      ensures Valid()
      ensures !isRunning && currentStep == 0 && duration == DefaultDuration && timeLeft == 0
      ensures timerRef == None && intervals == map[]
    {
      isRunning, currentStep, duration, timeLeft := false, 0, DefaultDuration, 0;
      timerRef, intervals, nextHandle := None, map[], 1;
    }

    /** The duration slider's `onChange`; the range input only yields 1 to 15. */
    method SetDuration(minutes: nat)
      requires Valid() && MinDuration <= minutes <= MaxDuration
      modifies this`duration
      ensures Valid() && duration == minutes
    {
      duration := minutes;
    }

    /** `setInterval`: registers a new live interval under a fresh handle. */
    method SetInterval(kind: IntervalKind) returns (h: nat)
      requires Valid()
      modifies this`intervals, this`nextHandle
      ensures Valid()
      ensures h !in old(intervals) && h == old(nextHandle) && nextHandle == h + 1
      ensures intervals == old(intervals)[h := kind]
    {
      h := nextHandle;
      intervals := intervals[h := kind];
      nextHandle := nextHandle + 1;
    }

    /** `startBreathing`: starts the countdown, stores its handle in `timerRef`,
        then starts the step cycle, whose handle overwrites it. */
    method StartBreathing() returns (countdown: nat, cycle: nat)
      requires Valid()
      modifies this
      ensures Valid()
      ensures isRunning && timeLeft == old(duration) * 60 && currentStep == 0
      ensures duration == old(duration)
      ensures countdown !in old(intervals) && cycle !in old(intervals) && countdown != cycle
      ensures intervals == old(intervals)[countdown := Countdown][cycle := Cycle]
      ensures timerRef == Some(cycle)
    {
      isRunning := true;
      timeLeft := duration * 60;
      countdown := SetInterval(Countdown);
      timerRef := Some(countdown);
      cycle := StartBreathCycle();
    }

    /** `startBreathCycle`: resets the step and stores the cycle's handle. */
    method StartBreathCycle() returns (cycle: nat)
      requires Valid()
      modifies this`currentStep, this`intervals, this`nextHandle, this`timerRef
      ensures Valid()
      ensures currentStep == 0 && timerRef == Some(cycle)
      ensures cycle !in old(intervals) && cycle == old(nextHandle)
      ensures intervals == old(intervals)[cycle := Cycle]
    {
      currentStep := 0;
      cycle := SetInterval(Cycle);
      timerRef := Some(cycle);
    }

    /** `stopBreathing`: clears the one interval whose handle `timerRef` holds
        (clearing an already cleared handle does nothing), and resets the page.
        `timerRef` itself keeps its value. */
    method StopBreathing()
      requires Valid()
      modifies this`intervals, this`isRunning, this`currentStep
      ensures Valid()
      ensures !isRunning && currentStep == 0
      ensures intervals == if old(timerRef).Some? then old(intervals) - {old(timerRef).value}
                           else old(intervals)
    {
      if timerRef.Some? {
        intervals := intervals - {timerRef.value};
      }
      isRunning := false;
      currentStep := 0;
    }

    /** One firing of a live countdown interval. */
    method CountdownTick(h: nat)
      requires Valid() && h in intervals && intervals[h] == Countdown
      modifies this`intervals, this`isRunning, this`currentStep, this`timeLeft
      ensures Valid()
      ensures timeLeft == CountdownNext(old(timeLeft))
      ensures old(timeLeft) <= 1 ==>
                !isRunning && currentStep == 0
                && intervals == if timerRef.Some? then old(intervals) - {timerRef.value}
                                else old(intervals)
      ensures old(timeLeft) > 1 ==>
                isRunning == old(isRunning) && currentStep == old(currentStep)
                && intervals == old(intervals)
    {
      if timeLeft <= 1 {
        StopBreathing();
        timeLeft := 0;
      } else {
        timeLeft := timeLeft - 1;
      }
    }

    /** One firing of a live cycle interval. */
    method CycleTick(h: nat)
      requires Valid() && h in intervals && intervals[h] == Cycle
      modifies this`currentStep
      ensures Valid() && currentStep == NextStep(old(currentStep))
    {
      currentStep := NextStep(currentStep);
    }

    /** `BREATHE_STEPS[currentStep].instruction`, always in bounds. */
    method Instruction() returns (text: string)
      requires Valid()
      ensures text in ["Breathe in slowly...", "Hold your breath...", "Release slowly...", "Keep lungs empty..."]
      ensures text == BreatheSteps[currentStep].instruction
    {
      text := BreatheSteps[currentStep].instruction;
    }
  }

  /** Start then stop: the countdown interval is still live afterwards, because
      its handle was overwritten in `timerRef` by the cycle's. */
  method StopLeavesCountdownLive() returns (countdown: nat, live: map<nat, IntervalKind>)
    ensures countdown in live && live[countdown] == Countdown
  {
    var page := new BreathingTimer();
    var cycle;
    countdown, cycle := page.StartBreathing();
    page.StopBreathing();
    live := page.intervals;
  }

  /** Start, stop, start again: two countdown intervals are live, so each second
      decrements `timeLeft` twice. */
  method RestartRunsTwoCountdowns() returns (first: nat, second: nat, live: map<nat, IntervalKind>)
    ensures first != second
    ensures first in live && live[first] == Countdown
    ensures second in live && live[second] == Countdown
  {
    var page := new BreathingTimer();
    var c1, c2;
    first, c1 := page.StartBreathing();
    page.StopBreathing();
    second, c2 := page.StartBreathing();
    live := page.intervals;
  }

  // ---------------------------------------------------------------------------
  // The page as evidently intended: both handles kept, stop clears both

  class FixedBreathingTimer {
    var isRunning: bool
    var currentStep: nat
    var duration: nat
    var timeLeft: nat
    var countdownRef: Option<nat>
    var cycleRef: Option<nat>
    var intervals: map<nat, IntervalKind>
    var nextHandle: nat

    /** Every live interval is one of the two stored handles, and none is live
        while the session is stopped. */
    ghost predicate Valid()
      reads this
    {
      currentStep < |BreatheSteps|
      && MinDuration <= duration <= MaxDuration
      && 1 <= nextHandle
      && (forall h | h in intervals :: 1 <= h < nextHandle)
      && (forall h | h in intervals :: countdownRef == Some(h) || cycleRef == Some(h))
      && (!isRunning ==> intervals == map[])
    }

    constructor ()
      ensures Valid()
      ensures !isRunning && currentStep == 0 && duration == DefaultDuration && timeLeft == 0
      ensures intervals == map[]
    {
      isRunning, currentStep, duration, timeLeft := false, 0, DefaultDuration, 0;
      countdownRef, cycleRef, intervals, nextHandle := None, None, map[], 1;
    }

    /** The start button is rendered only while the session is stopped. */
    method StartBreathing()
      requires Valid() && !isRunning
      modifies this
      ensures Valid()
      ensures isRunning && timeLeft == old(duration) * 60 && currentStep == 0
      ensures duration == old(duration)
      ensures countdownRef.Some? && cycleRef.Some? && countdownRef != cycleRef
      ensures intervals == map[countdownRef.value := Countdown, cycleRef.value := Cycle]
    {
      isRunning := true;
      timeLeft := duration * 60;
      var c := nextHandle;
      var y := nextHandle + 1;
      nextHandle := nextHandle + 2;
      countdownRef, cycleRef := Some(c), Some(y);
      currentStep := 0;
      intervals := map[c := Countdown, y := Cycle];
    }

    /** Stop clears every live interval. */
    method StopBreathing()
      requires Valid()
      modifies this`intervals, this`isRunning, this`currentStep
      ensures Valid()
      ensures !isRunning && currentStep == 0 && intervals == map[]
    {
      var live := intervals;
      if countdownRef.Some? {
        live := live - {countdownRef.value};
      }
      if cycleRef.Some? {
        live := live - {cycleRef.value};
      }
      assert live.Keys == {};
      intervals := live;
      isRunning := false;
      currentStep := 0;
    }

    method CountdownTick(h: nat)
      requires Valid() && h in intervals && intervals[h] == Countdown
      modifies this`intervals, this`isRunning, this`currentStep, this`timeLeft
      ensures Valid()
      ensures timeLeft == CountdownNext(old(timeLeft))
      ensures old(timeLeft) <= 1 ==> !isRunning && currentStep == 0 && intervals == map[]
      ensures old(timeLeft) > 1 ==>
                isRunning && currentStep == old(currentStep) && intervals == old(intervals)
    {
      if timeLeft <= 1 {
        StopBreathing();
        timeLeft := 0;
      } else {
        timeLeft := timeLeft - 1;
      }
    }

    method CycleTick(h: nat)
      requires Valid() && h in intervals && intervals[h] == Cycle
      modifies this`currentStep
      ensures Valid() && currentStep == NextStep(old(currentStep))
    {
      currentStep := NextStep(currentStep);
    }
  }

  /** With both handles kept, start then stop leaves no interval live. */
  method FixedStopClearsAll() returns (live: map<nat, IntervalKind>)
    ensures live == map[]
  {
    var page := new FixedBreathingTimer();
    page.StartBreathing();
    page.StopBreathing();
    live := page.intervals;
  }
}
