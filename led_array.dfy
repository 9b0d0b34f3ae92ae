/**
 * The eight-LED "ping-pong" program: one update task lights the LEDs one at
 * a time, sweeping up from LED 0 to LED 7 and back down, and switches to
 * flashing all eight together for a burst after the button is pressed.
 *
 * The LEDs are modelled by their lit state, `lit[i]` for `LEDS[i]`, and by
 * the trace of switch and sleep actions the task performs.
 */
module LedArray {
  import FlashMode

  /** The update task's `delay`, in milliseconds. */
  const DelayMs: nat := 100

  /** One action of the update task: switch `LEDS[led]` on or off, or sleep. */
  datatype Action = Switch(led: nat, on: bool) | Sleep(ms: nat)

  /** The state of the update task: the shared flash count and the task's
      own `cycle_count` and `cycle_dir`. */
  datatype Mode = Mode(flashCount: int, cycleCount: int, cycleDir: int)

  // ---------------------------------------------------------------------
  // Traces and their effect on the LEDs

  /** Switching `LEDS[0]`, ..., `LEDS[n - 1]`, in that order, all on or all off. */
  function Switches(n: nat, on: bool): seq<Action>
  {
    if n == 0 then [] else Switches(n - 1, on) + [Switch(n - 1, on)]
  }

  /** The LEDs after the actions `s`, starting from `lit`; a sleep changes
      nothing and a switch sets one LED. */
  function Replay(lit: seq<bool>, s: seq<Action>): seq<bool>
  {
    if s == [] then lit
    else
      var before := Replay(lit, s[..|s| - 1]);
      match s[|s| - 1]
      case Switch(i, on) => if i < |before| then before[i := on] else before
      case Sleep(_) => before
  }

  /** Every one of the eight LEDs in the same state. */
  function All(on: bool): seq<bool>
  {
    seq(8, _ => on)
  }

  /** LED `k` lit and the seven others dark. */
  function OneHot(k: nat): seq<bool>
  {
    seq(8, i => i == k)
  }

  /** `cycle_count & 7` on an unbounded integer: the two's-complement AND
      with 7 keeps the three low bits, which is the remainder modulo 8
      rounded towards minus infinity, also for negative counts. */
  function Low3(c: int): (r: nat)
    ensures r < 8
    ensures (c - r) % 8 == 0
    ensures 0 <= c < 8 ==> r == c
  {
    c % 8
  }

  /** `cycle_leds(c, delay)`: every LED off, then `LEDS[c & 7]` on, then sleep. */
  function CycleSteps(c: int, delay: nat): seq<Action>
  {
    Switches(8, false) + [Switch(Low3(c), true), Sleep(delay)]
  }

  /** `flash_leds(delay)`: every LED on, sleep, every LED off, sleep. */
  function FlashSteps(delay: nat): seq<Action>
  {
    Switches(8, true) + [Sleep(delay)] + Switches(8, false) + [Sleep(delay)]
  }

  lemma {:induction false} ReplayAppend(lit: seq<bool>, a: seq<Action>, b: seq<Action>)
    ensures Replay(lit, a + b) == Replay(Replay(lit, a), b)
    decreases |b|
  {
    if b != [] {
      assert (a + b)[..|a + b| - 1] == a + b[..|b| - 1];
      ReplayAppend(lit, a, b[..|b| - 1]);
    } else {
      assert a + b == a;
    }
  }

  /** Switching the first `n` LEDs sets exactly those and keeps the others. */
  lemma {:induction false} ReplaySwitches(lit: seq<bool>, n: nat, on: bool)
    requires |lit| == 8 && n <= 8
    ensures Replay(lit, Switches(n, on)) == seq(8, i requires 0 <= i < 8 => if i < n then on else lit[i])
  {
    if n > 0 {
      ReplaySwitches(lit, n - 1, on);
      assert Switches(n, on)[..|Switches(n, on)| - 1] == Switches(n - 1, on);
    }
  }

  /** After `cycle_leds(c, delay)` exactly one LED is lit, `LEDS[c & 7]`,
      whatever was lit before. */
  lemma CycleLightsOne(lit: seq<bool>, c: int, delay: nat)
    requires |lit| == 8
    ensures Replay(lit, CycleSteps(c, delay)) == OneHot(Low3(c))
  {
    var off := Switches(8, false);
    ReplaySwitches(lit, 8, false);
    assert Replay(lit, off) == All(false);
    ReplayAppend(lit, off, [Switch(Low3(c), true), Sleep(delay)]);
    ReplayAppend(All(false), [Switch(Low3(c), true)], [Sleep(delay)]);
    assert [Switch(Low3(c), true)][..0] == [];
    assert [Sleep(delay)][..0] == [];
  }

  /** `flash_leds` lights all eight LEDs for its first sleep and leaves all
      eight dark at the end, whatever was lit before. */
  lemma FlashLightsAll(lit: seq<bool>, delay: nat)
    requires |lit| == 8
    ensures Replay(lit, Switches(8, true) + [Sleep(delay)]) == All(true)
    ensures Replay(lit, FlashSteps(delay)) == All(false)
  {
    var on, off := Switches(8, true), Switches(8, false);
    var half := on + [Sleep(delay)];
    ReplaySwitches(lit, 8, true);
    ReplayAppend(lit, on, [Sleep(delay)]);
    assert [Sleep(delay)][..0] == [];
    assert Replay(lit, half) == All(true);
    assert FlashSteps(delay) == half + off + [Sleep(delay)];
    ReplayAppend(lit, half + off, [Sleep(delay)]);
    ReplayAppend(lit, half, off);
    ReplaySwitches(All(true), 8, false);
  }

  // ---------------------------------------------------------------------
  // The sweep

  /** The reachable `(cycle_count, cycle_dir)` pairs: the count is a valid
      LED index, the direction is up or down, and a downward sweep never
      stands on LED 7. */
  predicate Phase(c: int, d: int)
  {
    0 <= c <= 7 && (d == 1 || (d == -1 && c <= 6))
  }

  /** One move of the sweep: step in the current direction, and on passing
      an end turn round onto the LED next to it. */
  function Bounce(c: int, d: int): (r: (int, int))
    ensures Phase(c, d) ==> Phase(r.0, r.1)
    ensures Phase(c, d) ==> r.0 == c + 1 || r.0 == c - 1
  {
    var n := c + d;
    if n > 7 then (6, -1)
    else if n < 0 then (1, 1)
    else (n, d)
  }

  /** The sweep after `n` moves from LED 0 going up. */
  function Sweep(n: nat): (int, int)
  {
    if n == 0 then (0, 1) else Bounce(Sweep(n - 1).0, Sweep(n - 1).1)
  }

  /** The LED lit by the `n`-th pattern step: 0, 1, ..., 7, 6, ..., 1, 0, 1, ...
      with period 14. */
  function Position(n: nat): nat
  {
    var m := n % 14;
    if m <= 7 then m else 14 - m
  }

  /** The direction after `n` moves: up on the way from 0 to 7 (including
      the start), down from 6 back to 0. */
  function Direction(n: nat): int
  {
    var m := n % 14;
    if n == 0 || 1 <= m <= 7 then 1 else -1
  }

  /** The sweep runs 0, 1, ..., 7, 6, ..., 0, 1, ...: it turns onto 6 after 7
      and onto 1 after 0, and it never leaves the eight LEDs. */
  lemma {:induction false} SweepSchedule(n: nat)
    ensures Sweep(n) == (Position(n), Direction(n))
    ensures Phase(Sweep(n).0, Sweep(n).1)
  {
    if n > 0 {
      var prev := Sweep(n - 1);
      assert prev == (Position(n - 1), Direction(n - 1)) by {
        SweepSchedule(n - 1);
      }
      assert Sweep(n) == Bounce(prev.0, prev.1);
      SweepStep(n - 1);
    }
  }

  /** One move of the sweep takes the schedule from step `k` to step `k + 1`. */
  lemma SweepStep(k: nat)
    ensures Bounce(Position(k), Direction(k)) == (Position(k + 1), Direction(k + 1))
    ensures Phase(Position(k + 1), Direction(k + 1))
  {
    var m, m' := k % 14, (k + 1) % 14;
    assert m' == if m == 13 then 0 else m + 1 by {
      ModStep(k);
    }
    assert Position(k) == if m <= 7 then m else 14 - m;
    assert Position(k + 1) == if m' <= 7 then m' else 14 - m';
    assert Direction(k) == if k == 0 || 1 <= m <= 7 then 1 else -1;
    assert Direction(k + 1) == if 1 <= m' <= 7 then 1 else -1;
  }

  lemma ModStep(k: nat)
    ensures (k + 1) % 14 == if k % 14 == 13 then 0 else k % 14 + 1
  {
    var q, m := k / 14, k % 14;
    assert k == 14 * q + m;
    if m == 13 {
      assert k + 1 == 14 * (q + 1) + 0;
    } else {
      assert k + 1 == 14 * q + (m + 1);
    }
  }

  /** One step of the update task on its state: flash and spend one unit
      of the burst, or light the next LED of the sweep. */
  function Next(m: Mode): (r: Mode)
    ensures FlashMode.Flashes(m.flashCount) ==>
      (r.cycleCount, r.cycleDir) == (m.cycleCount, m.cycleDir)
    ensures r.flashCount == FlashMode.Consume(m.flashCount)
    ensures Phase(m.cycleCount, m.cycleDir) ==> Phase(r.cycleCount, r.cycleDir)
  {
    if m.flashCount > 0 then m.(flashCount := m.flashCount - 1)
    else
      var b := Bounce(m.cycleCount, m.cycleDir);
      m.(cycleCount := b.0, cycleDir := b.1)
  }

  /** The state after `n` steps with no button press between. */
  function Steps(m: Mode, n: nat): Mode
  {
    if n == 0 then m else Next(Steps(m, n - 1))
  }

  /** A burst of `k` flashes pauses the sweep: after `k` steps the flash
      count is spent and the sweep resumes exactly where it stopped. */
  lemma {:induction false} BurstPausesSweep(m: Mode, n: nat)
    requires m.flashCount >= 0 && n <= m.flashCount
    ensures Steps(m, n) == m.(flashCount := m.flashCount - n)
  {
    if n > 0 {
      BurstPausesSweep(m, n - 1);
    }
  }

  /** With no press, the sweep advances one move per step. */
  lemma {:induction false} IdleFollowsSweep(n: nat)
    ensures Steps(Mode(0, 0, 1), n) == Mode(0, Sweep(n).0, Sweep(n).1)
  {
    if n > 0 {
      IdleFollowsSweep(n - 1);
    }
  }

  // ---------------------------------------------------------------------
  // The update task

  class Board {
    /** `lit[i]`: whether `LEDS[i]` is lit. */
    var lit: seq<bool>
    /** What the update task has done so far. */
    var trace: seq<Action>
    /** The global `flash_count`, shared with the button task. */
    var flashCount: int
    /** The update task's `cycle_count` and `cycle_dir`. */
    var cycleCount: int
    var cycleDir: int

    ghost predicate Valid()
      reads this
    {
      |lit| == 8 && flashCount >= 0 && Phase(cycleCount, cycleDir)
    }

    ghost function ModeOf(): Mode
      reads this
    {
      Mode(flashCount, cycleCount, cycleDir)
    }

    /** The start of `update_leds`: no flashes pending, the sweep at LED 0
        going up. The LEDs keep whatever state the hardware came up in. */
    constructor(initial: seq<bool>)
      requires |initial| == 8
      ensures Valid()
      ensures lit == initial && trace == []
      ensures flashCount == 0 && cycleCount == 0 && cycleDir == 1
    {
      lit := initial;
      trace := [];
      flashCount := 0;
      cycleCount := 0;
      cycleDir := 1;
    }

    /** `for led in LEDS: led.on()` (or `led.off()`). */
    method SwitchAll(on: bool)
      requires |lit| == 8
      modifies this`lit, this`trace
      ensures lit == All(on)
      ensures trace == old(trace) + Switches(8, on)
    {
      for i := 0 to 8
        invariant |lit| == 8
        invariant forall j :: 0 <= j < 8 ==> lit[j] == if j < i then on else old(lit)[j]
        invariant trace == old(trace) + Switches(i, on)
      {
        lit := lit[i := on];
        trace := trace + [Switch(i, on)];
      }
    }

    /** `cycle_leds(c, delay)`. */
    method CycleLeds(c: int, delay: nat)
      requires |lit| == 8
      modifies this`lit, this`trace
      ensures lit == OneHot(Low3(c))
      ensures trace == old(trace) + CycleSteps(c, delay)
    {
      SwitchAll(false);
      var k := Low3(c);
      lit := lit[k := true];
      trace := trace + [Switch(k, true), Sleep(delay)];
    }

    /** `flash_leds(delay)`. */
    method FlashLeds(delay: nat)
      requires |lit| == 8
      modifies this`lit, this`trace
      ensures lit == All(false)
      ensures trace == old(trace) + FlashSteps(delay)
    {
      ghost var t0 := trace;
      SwitchAll(true);
      trace := trace + [Sleep(delay)];
      SwitchAll(false);
      trace := trace + [Sleep(delay)];
      assert trace == t0 + FlashSteps(delay) by {
        var on, off, z := Switches(8, true), Switches(8, false), [Sleep(delay)];
        assert trace == t0 + on + z + off + z;
        assert FlashSteps(delay) == on + z + off + z;
      }
    }

    /** One iteration of the `while True` loop of `update_leds`. */
    method Step()
      requires Valid()
      modifies this`lit, this`trace, this`flashCount, this`cycleCount, this`cycleDir
      ensures Valid()
      ensures ModeOf() == Next(old(ModeOf()))
      ensures trace == old(trace) +
        if old(flashCount) > 0 then FlashSteps(DelayMs) else CycleSteps(old(cycleCount), DelayMs)
      ensures lit == if old(flashCount) > 0 then All(false) else OneHot(old(cycleCount))
    {
      if flashCount > 0 {
        FlashLeds(DelayMs);
        flashCount := flashCount - 1;
      } else {
        CycleLeds(cycleCount, DelayMs);
        cycleCount := cycleCount + cycleDir;
        if cycleCount > 7 {
          cycleCount := 6;
          cycleDir := -1;
        } else if cycleCount < 0 {
          cycleCount := 1;
          cycleDir := 1;
        }
      }
    }

    /** One iteration of `check_button`, given what the button reads. */
    method CheckButton(pressed: bool)
      requires Valid()
      modifies this`flashCount
      ensures Valid()
      ensures flashCount == FlashMode.Poll(old(flashCount), pressed)
    {
      if pressed {
        flashCount := FlashMode.Burst;
      }
    }
  }
}
