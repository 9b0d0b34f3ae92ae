/**
 * The one-LED fade/flash program: an update task fades the LED up and down
 * by software pulse-width modulation with a 20 ms period, and switches to
 * a 100 ms on / 100 ms off flash for a burst after the button is pressed.
 *
 * The LED is modelled by its level and by the trace of level writes and
 * sleeps the task performs; brightness is the share of sleep time spent
 * with the level high.
 */
module LedFadeFlash {
  import FlashMode

  /** The PWM period, in milliseconds: `duty_off = 20 - duty`. */
  const PeriodMs: int := 20

  /** The half-period of a flash, in milliseconds: `flash_led(led, 100)`. */
  const FlashDelayMs: int := 100

  /** One action of the update task: write the LED level, or sleep. */
  datatype Action = Write(high: bool) | Sleep(ms: int)

  // ---------------------------------------------------------------------
  // Views of a trace

  /** The time a sleep of `ms` milliseconds lasts: a sleep of zero or a
      negative time returns at once, it never gives time back. */
  function Slept(ms: int): nat
  {
    if ms > 0 then ms else 0
  }

  /** The total time slept. */
  function SleepMs(s: seq<Action>): int
  {
    if s == [] then 0
    else SleepMs(s[..|s| - 1]) + (if s[|s| - 1].Sleep? then Slept(s[|s| - 1].ms) else 0)
  }

  /** The LED level after `s`, starting from `level`. */
  function Level(level: bool, s: seq<Action>): bool
  {
    if s == [] then level
    else if s[|s| - 1].Write? then s[|s| - 1].high
    else Level(level, s[..|s| - 1])
  }

  /** The time slept with the LED high, starting from `level`. */
  function HighMs(level: bool, s: seq<Action>): int
  {
    if s == [] then 0
    else
      var init := s[..|s| - 1];
      HighMs(level, init) +
        (if s[|s| - 1].Sleep? && Level(level, init) then Slept(s[|s| - 1].ms) else 0)
  }

  lemma {:induction false} ViewsAppend(level: bool, a: seq<Action>, b: seq<Action>)
    ensures SleepMs(a + b) == SleepMs(a) + SleepMs(b)
    ensures Level(level, a + b) == Level(Level(level, a), b)
    ensures HighMs(level, a + b) == HighMs(level, a) + HighMs(Level(level, a), b)
    decreases |b|
  {
    if b != [] {
      assert (a + b)[..|a + b| - 1] == a + b[..|b| - 1];
      ViewsAppend(level, a, b[..|b| - 1]);
    } else {
      assert a + b == a;
    }
  }

  /** The views of a write followed by a sleep. */
  lemma WriteSleep(level: bool, high: bool, ms: int)
    ensures SleepMs([Write(high), Sleep(ms)]) == Slept(ms)
    ensures Level(level, [Write(high), Sleep(ms)]) == high
    ensures HighMs(level, [Write(high), Sleep(ms)]) == if high then Slept(ms) else 0
  {
    var s := [Write(high), Sleep(ms)];
    assert s[..1] == [Write(high)];
    assert [Write(high)][..0] == [];
    assert SleepMs([Write(high)]) == SleepMs([]) + 0;
    assert HighMs(level, [Write(high)]) == HighMs(level, []) + 0;
    assert Level(level, [Write(high)]) == high;
  }

  // ---------------------------------------------------------------------
  // pwm_cycle

  /** One PWM period at duty `duty`: high for `duty` ms, then low for
      `20 - duty` ms, each phase left out when its length is zero. */
  function Period(duty: int): seq<Action>
  {
    (if duty != 0 then [Write(true), Sleep(duty)] else []) +
    (if PeriodMs - duty != 0 then [Write(false), Sleep(PeriodMs - duty)] else [])
  }

  /** `n` periods in a row. */
  function Repeat(p: seq<Action>, n: nat): seq<Action>
  {
    if n == 0 then [] else Repeat(p, n - 1) + p
  }

  /** The two phases of a period, written one after the other, make the
      period, and leave the level the period leaves. */
  lemma PeriodWritten(h0: bool, duty: int, t0: seq<Action>, t1: seq<Action>, t2: seq<Action>, h1: bool, h2: bool)
    requires t1 == t0 + (if duty != 0 then [Write(true), Sleep(duty)] else [])
    requires h1 == if duty != 0 then true else h0
    requires t2 == t1 + (if PeriodMs - duty != 0 then [Write(false), Sleep(PeriodMs - duty)] else [])
    requires h2 == if PeriodMs - duty != 0 then false else h1
    ensures t2 == t0 + Period(duty) && h2 == Level(h0, Period(duty))
  {
    var on := if duty != 0 then [Write(true), Sleep(duty)] else [];
    var off := if PeriodMs - duty != 0 then [Write(false), Sleep(PeriodMs - duty)] else [];
    assert t2 == t0 + (on + off);
    ViewsAppend(h0, on, off);
    WriteSleep(h0, true, duty);
    WriteSleep(Level(h0, on), false, PeriodMs - duty);
  }

  /** For a duty between 0 and 20 a period lasts 20 ms and the LED is high
      for exactly `duty` of them, whatever level it had before. A duty
      outside that range makes one phase a sleep of negative time, which
      returns at once, so the period lasts longer than 20 ms. A period ends
      low unless the duty is the full period. */
  lemma PeriodTiming(level: bool, duty: int)
    ensures 0 <= duty <= PeriodMs ==> SleepMs(Period(duty)) == PeriodMs
    ensures 0 <= duty <= PeriodMs ==> HighMs(level, Period(duty)) == duty
    ensures SleepMs(Period(duty)) == Slept(duty) + Slept(PeriodMs - duty)
    ensures duty > PeriodMs ==> SleepMs(Period(duty)) == duty
    ensures HighMs(level, Period(duty)) == Slept(duty)
    ensures Level(level, Period(duty)) == (duty == PeriodMs)
  {
    var on := if duty != 0 then [Write(true), Sleep(duty)] else [];
    var off := if PeriodMs - duty != 0 then [Write(false), Sleep(PeriodMs - duty)] else [];
    ViewsAppend(level, on, off);
    WriteSleep(level, true, duty);
    WriteSleep(Level(level, on), false, PeriodMs - duty);
  }

  /** A zero-length phase writes nothing: a duty of 0 never drives the LED
      high and a duty of 20 never drives it low. */
  lemma ZeroPhaseSkipped(duty: int)
    ensures duty == 0 ==> Period(duty) == [Write(false), Sleep(PeriodMs)]
    ensures duty == PeriodMs ==> Period(duty) == [Write(true), Sleep(PeriodMs)]
    ensures 0 < duty < PeriodMs ==> |Period(duty)| == 4
  {
  }

  /** `cycles` periods at duty `duty` last `20 * cycles` ms, with the LED
      high for `duty * cycles` of them. */
  lemma {:induction false} RepeatTiming(level: bool, duty: int, n: nat)
    requires 0 <= duty <= PeriodMs
    ensures SleepMs(Repeat(Period(duty), n)) == PeriodMs * n
    ensures HighMs(level, Repeat(Period(duty), n)) == duty * n
  {
    if n > 0 {
      var prev := Repeat(Period(duty), n - 1);
      RepeatTiming(level, duty, n - 1);
      ViewsAppend(level, prev, Period(duty));
      PeriodTiming(Level(level, prev), duty);
    }
  }

  // ---------------------------------------------------------------------
  // fade_led

  /** Duties 1, 2, ..., k. */
  function Ramp(k: nat): seq<int>
  {
    seq(k, i => i + 1)
  }

  /** Duties 20, 19, ..., i: what the downward loop has done once its
      counter has come down to `i`. */
  function RampDown(i: nat): seq<int>
    requires i <= 21
  {
    seq(21 - i, j => 20 - j)
  }

  /** The duties of one fade: 1, 2, ..., 20, then 20, 19, ..., 1. */
  function FadeDuties(): (r: seq<int>)
    ensures |r| == 40
  {
    Ramp(20) + RampDown(1)
  }

  /** One period at each of the duties `ds`, in order. */
  function Periods(ds: seq<int>): seq<Action>
  {
    if ds == [] then [] else Periods(ds[..|ds| - 1]) + Period(ds[|ds| - 1])
  }

  /** One more duty adds its period and sets the level as that period does. */
  lemma PeriodsSnoc(level: bool, ds: seq<int>, d: int)
    ensures Periods(ds + [d]) == Periods(ds) + Period(d)
    ensures Level(level, Periods(ds + [d])) == Level(Level(level, Periods(ds)), Period(d))
  {
    assert (ds + [d])[..|ds|] == ds;
    ViewsAppend(level, Periods(ds), Period(d));
  }

  /** One `pwm_cycle(led, d, 1)` after the periods at duties `ds` leaves
      the periods at duties `ds + [d]`. */
  lemma FadeStep(level: bool, pre: seq<Action>, ds: seq<int>, d: int,
                 t0: seq<Action>, h0: bool, t1: seq<Action>, h1: bool)
    requires t0 == pre + Periods(ds) && h0 == Level(level, Periods(ds))
    requires t1 == t0 + Repeat(Period(d), 1) && h1 == Level(h0, Repeat(Period(d), 1))
    ensures t1 == pre + Periods(ds + [d]) && h1 == Level(level, Periods(ds + [d]))
  {
    RepeatOnce(Period(d));
    PeriodsSnoc(level, ds, d);
    ExtendTrace(level, pre, Periods(ds), Period(d), Periods(ds + [d]), t0, h0, t1, h1);
  }

  lemma RepeatOnce(p: seq<Action>)
    ensures Repeat(p, 1) == p
  {
    assert Repeat(p, 0) == [];
  }

  /** Appending `q` to a trace that ends in `p` leaves a trace that ends in
      `p + q`, with the level `p + q` leaves. */
  lemma ExtendTrace(level: bool, pre: seq<Action>, p: seq<Action>, q: seq<Action>, pq: seq<Action>,
                    t0: seq<Action>, h0: bool, t1: seq<Action>, h1: bool)
    requires t0 == pre + p && h0 == Level(level, p)
    requires t1 == t0 + q && h1 == Level(h0, q)
    requires pq == p + q && Level(level, pq) == Level(Level(level, p), q)
    ensures t1 == pre + pq && h1 == Level(level, pq)
  {
    assert (pre + p) + q == pre + (p + q);
  }

  lemma RampSnoc(k: nat)
    ensures Ramp(k + 1) == Ramp(k) + [k + 1]
  {
  }

  lemma RampDownSnoc(i: nat)
    requires 1 <= i <= 20
    ensures Ramp(20) + RampDown(i) == (Ramp(20) + RampDown(i + 1)) + [i]
  {
    assert RampDown(i) == RampDown(i + 1) + [i];
  }

  /** The sum of the duties `ds`. */
  function Sum(ds: seq<int>): int
  {
    if ds == [] then 0 else Sum(ds[..|ds| - 1]) + ds[|ds| - 1]
  }

  /** Periods at duties between 0 and 20 last 20 ms each, with the LED high
      for the sum of the duties. */
  lemma {:induction false} PeriodsTiming(level: bool, ds: seq<int>)
    requires forall i :: 0 <= i < |ds| ==> 0 <= ds[i] <= PeriodMs
    ensures SleepMs(Periods(ds)) == PeriodMs * |ds|
    ensures HighMs(level, Periods(ds)) == Sum(ds)
  {
    if ds != [] {
      var init := ds[..|ds| - 1];
      PeriodsTiming(level, init);
      ViewsAppend(level, Periods(init), Period(ds[|ds| - 1]));
      PeriodTiming(Level(level, Periods(init)), ds[|ds| - 1]);
    }
  }

  lemma {:induction false} SumAppend(a: seq<int>, b: seq<int>)
    ensures Sum(a + b) == Sum(a) + Sum(b)
    decreases |b|
  {
    if b != [] {
      assert (a + b)[..|a + b| - 1] == a + b[..|b| - 1];
      SumAppend(a, b[..|b| - 1]);
    } else {
      assert a + b == a;
    }
  }

  /** 1 + 2 + ... + k == k * (k + 1) / 2. */
  lemma {:induction false} SumRamp(k: nat)
    ensures 2 * Sum(Ramp(k)) == k * (k + 1)
  {
    if k > 0 {
      SumRamp(k - 1);
      assert Ramp(k)[..k - 1] == Ramp(k - 1);
      assert (k - 1) * k + 2 * k == k * (k + 1);
    }
  }

  /** The downward half holds the same duties as the upward half, in
      reverse. */
  lemma FadeMirror(i: nat)
    requires i < 40
    ensures FadeDuties()[i] == FadeDuties()[39 - i]
    ensures 1 <= FadeDuties()[i] <= PeriodMs
    ensures i < 20 ==> FadeDuties()[i] == i + 1
  {
  }

  /** One fade lasts 800 ms with the LED high for 420 of them: the downward
      half is as bright as the upward half. */
  lemma FadeTiming(level: bool)
    ensures SleepMs(Periods(FadeDuties())) == 800
    ensures HighMs(level, Periods(FadeDuties())) == 420
  {
    var ds := FadeDuties();
    forall i | 0 <= i < |ds|
      ensures 0 <= ds[i] <= PeriodMs
    {
      FadeMirror(i);
    }
    PeriodsTiming(level, ds);
    SumAppend(Ramp(20), RampDown(1));
    SumRamp(20);
    SumRampDown(1);
  }

  /** A fade ends with the LED low, whatever its level before: its last
      period has duty 1, whose low phase is written last. */
  lemma FadeEndsLow(level: bool)
    ensures !Level(level, Periods(FadeDuties()))
  {
    var ds := FadeDuties();
    assert ds == ds[..39] + [ds[39]];
    FadeMirror(39);
    PeriodsSnoc(level, ds[..39], ds[39]);
    PeriodTiming(Level(level, Periods(ds[..39])), ds[39]);
  }

  /** 20 + 19 + ... + i == (420 - (i - 1) * i) / 2. */
  lemma {:induction false} SumRampDown(i: nat)
    requires 1 <= i <= 21
    ensures 2 * Sum(RampDown(i)) == 420 - (i - 1) * i
    decreases 21 - i
  {
    if i < 21 {
      SumRampDown(i + 1);
      assert RampDown(i)[..|RampDown(i)| - 1] == RampDown(i + 1);
      assert 420 - i * (i + 1) + 2 * i == 420 - (i - 1) * i;
    }
  }

  // ---------------------------------------------------------------------
  // flash_led

  /** `flash_led(led, delay)`: high, sleep, low, sleep. */
  function FlashSteps(delay: int): seq<Action>
  {
    [Write(true), Sleep(delay), Write(false), Sleep(delay)]
  }

  /** A flash spends `delay` ms high and `delay` ms low, and ends low. */
  lemma FlashTiming(level: bool, delay: int)
    ensures SleepMs(FlashSteps(delay)) == 2 * Slept(delay)
    ensures delay >= 0 ==> HighMs(level, FlashSteps(delay)) == delay
    ensures HighMs(level, FlashSteps(delay)) == Slept(delay)
    ensures Level(level, FlashSteps(delay)) == false
  {
    assert FlashSteps(delay) == [Write(true), Sleep(delay)] + [Write(false), Sleep(delay)];
    ViewsAppend(level, [Write(true), Sleep(delay)], [Write(false), Sleep(delay)]);
    WriteSleep(level, true, delay);
    WriteSleep(true, false, delay);
  }

  // ---------------------------------------------------------------------
  // The update task

  class Led {
    /** The level last written to the LED. */
    var high: bool
    /** What the update task has done so far. */
    var trace: seq<Action>
    /** The global `flash_count`, shared with the button task. */
    var flashCount: int

    ghost predicate Valid()
      reads this
    {
      flashCount >= 0
    }

    /** The start of `update_led`: no flashes pending. The LED keeps
        whatever level the hardware came up with. */
    constructor(initial: bool)
      ensures Valid()
      ensures high == initial && trace == [] && flashCount == 0
    {
      high := initial;
      trace := [];
      flashCount := 0;
    }

    /** `pwm_cycle(led, duty, cycles)`; a negative `cycles` runs no period,
        like `range(cycles)`. */
    method PwmCycle(duty: int, cycles: int)
      modifies this`high, this`trace
      ensures var n := if cycles > 0 then cycles else 0;
        trace == old(trace) + Repeat(Period(duty), n)
        && high == Level(old(high), Repeat(Period(duty), n))
    {
      var dutyOff := PeriodMs - duty;
      var n := if cycles > 0 then cycles else 0;
      for i := 0 to n
        invariant trace == old(trace) + Repeat(Period(duty), i)
        invariant high == Level(old(high), Repeat(Period(duty), i))
      {
        ghost var t0, h0 := trace, high;
        if duty != 0 {
          high := true;
          trace := trace + [Write(true), Sleep(duty)];
        }
        ghost var t1, h1 := trace, high;
        if dutyOff != 0 {
          high := false;
          trace := trace + [Write(false), Sleep(dutyOff)];
        }
        PeriodWritten(h0, duty, t0, t1, trace, h1, high);
        ExtendTrace(old(high), old(trace), Repeat(Period(duty), i), Period(duty), Repeat(Period(duty), i + 1),
          t0, h0, trace, high);
      }
    }

    /** `fade_led(led)`: one period at each duty 1, ..., 20, then 20, ..., 1. */
    method FadeLed()
      modifies this`high, this`trace
      ensures trace == old(trace) + Periods(FadeDuties())
      ensures high == Level(old(high), Periods(FadeDuties()))
      ensures !high
    {
      for duty := 1 to 21
        invariant trace == old(trace) + Periods(Ramp(duty - 1))
        invariant high == Level(old(high), Periods(Ramp(duty - 1)))
      {
        ghost var t0, h0 := trace, high;
        PwmCycle(duty, 1);
        RampSnoc(duty - 1);
        FadeStep(old(high), old(trace), Ramp(duty - 1), duty, t0, h0, trace, high);
      }
      assert Ramp(20) + RampDown(21) == Ramp(20);
      for duty := 21 downto 1
        invariant trace == old(trace) + Periods(Ramp(20) + RampDown(duty))
        invariant high == Level(old(high), Periods(Ramp(20) + RampDown(duty)))
      {
        ghost var t0, h0 := trace, high;
        PwmCycle(duty, 1);
        RampDownSnoc(duty);
        FadeStep(old(high), old(trace), Ramp(20) + RampDown(duty + 1), duty, t0, h0, trace, high);
      }
      FadeEndsLow(old(high));
    }

    /** `flash_led(led, delay)`. */
    method FlashLed(delay: int)
      modifies this`high, this`trace
      ensures trace == old(trace) + FlashSteps(delay)
      ensures !high
    {
      high := true;
      trace := trace + [Write(true), Sleep(delay)];
      high := false;
      trace := trace + [Write(false), Sleep(delay)];
    }

    /** One iteration of the `while True` loop of `update_led`. */
    method Step()
      requires Valid()
      modifies this`high, this`trace, this`flashCount
      ensures Valid()
      ensures flashCount == FlashMode.Consume(old(flashCount))
      ensures trace == old(trace) +
        if FlashMode.Flashes(old(flashCount)) then FlashSteps(FlashDelayMs) else Periods(FadeDuties())
      ensures !high
    {
      if flashCount > 0 {
        FlashLed(FlashDelayMs);
        flashCount := flashCount - 1;
      } else {
        FadeLed();
      }
    }

    /** One iteration of `check_button`, given what the button reads. */
    method CheckButton(pressed: bool)
      requires Valid()
      modifies this`flashCount
      ensures Valid()
      ensures flashCount == FlashMode.Poll(old(flashCount), pressed)
    {
      if pressed {
        flashCount := FlashMode.Burst;
      }
    }
  }
}
