/** The 4x4 key table shared by both keypad scanners, and the two-state
    press/release rule that both scanners' `key_process` apply to one key. */
module KeyRule {
  import opened Wrappers

  // The keypad has 4 rows and 4 columns, hence 16 keys, numbered row-major:
  // key code = row * 4 + col. The geometry is written as literals so that
  // the arithmetic on key codes stays linear for the verifier.

  /** The characters on the keys, in key-code order. */
  const Layout: seq<char> := "123A456B789C*0#D"

  datatype KeyState = Up | Down
  datatype KeyEvent = KeyUp | KeyDown
  datatype Key = Key(ch: char, state: KeyState)

  /** The table both scanners start from: every key carries its character and is UP. */
  function InitialKeys(): (t: seq<Key>)
    ensures |t| == 16
    ensures forall k :: 0 <= k < 16 ==> t[k].ch == Layout[k] && t[k].state == Up
  {
    seq(16, k requires 0 <= k < 16 => Key(Layout[k], Up))
  }

  /** The state a key ends in when its column reads `pressed`. */
  function LevelState(pressed: bool): KeyState
  {
    if pressed then Down else Up
  }

  /** `key_process` on one key: the new state and the event returned.
      The state always follows the sampled column, and an event is
      reported exactly when the state changes: KeyDown on UP->DOWN,
      KeyUp on DOWN->UP. */
  function Process(s: KeyState, pressed: bool): (r: (KeyState, Option<KeyEvent>))
    ensures r.0 == LevelState(pressed)
    ensures r.1 == Some(KeyDown) <==> s == Up && pressed
    ensures r.1 == Some(KeyUp) <==> s == Down && !pressed
    ensures r.1 == None <==> r.0 == s
  {
    match (pressed, s)
    case (true, Up) => (Down, Some(KeyDown))
    case (false, Down) => (Up, Some(KeyUp))
    case _ => (s, None)
  }

  /** The events one key reports when its column is sampled `samples`, in
      order, starting from state `s`; and the state it ends in. */
  function Run(s: KeyState, samples: seq<bool>): (KeyState, seq<KeyEvent>)
    decreases |samples|
  {
    if samples == [] then (s, [])
    else
      var step := Process(s, samples[0]);
      var rest := Run(step.0, samples[1..]);
      (rest.0, (if step.1.Some? then [step.1.value] else []) + rest.1)
  }

  /** Whatever the column does, a key's events alternate: never two
      KeyDown (or two KeyUp) in a row. The first event leaves the starting
      state and the last one leads into the final state, which is the last
      level sampled. */
  lemma {:induction false} EventsAlternate(s: KeyState, samples: seq<bool>)
    ensures var (fin, es) := Run(s, samples);
      && (forall i :: 0 <= i < |es| - 1 ==> es[i] != es[i + 1])
      && (|es| > 0 ==> es[0] == (if s == Up then KeyDown else KeyUp))
      && (|es| > 0 ==> es[|es| - 1] == (if fin == Down then KeyDown else KeyUp))
      && (|es| == 0 ==> fin == s)
      && (samples != [] ==> fin == LevelState(samples[|samples| - 1]))
    decreases |samples|
  {
    if samples != [] {
      var step := Process(s, samples[0]);
      EventsAlternate(step.0, samples[1..]);
      var rest := Run(step.0, samples[1..]);
      if samples[1..] != [] {
        assert samples[1..][|samples[1..]| - 1] == samples[|samples| - 1];
      }
    }
  }

  /** The table after the first `n` columns of `cols` are run through
      `Process` one after another, for the keys `base`, `base + 1`, ...
      (the first `n` rounds of one row's column loop). */
  function SampleCols(t: seq<Key>, base: nat, cols: seq<bool>, n: nat): (r: seq<Key>)
    requires n <= |cols| && base + |cols| <= |t|
    ensures |r| == |t|
  {
    if n == 0 then t
    else
      var p := SampleCols(t, base, cols, n - 1);
      p[base + n - 1 := p[base + n - 1].(state := Process(p[base + n - 1].state, cols[n - 1]).0)]
  }

  /** Sampling `n` columns touches only the keys `base .. base + n - 1`:
      each of those ends in the level of its column, keeping its character,
      and every other key is unchanged. */
  lemma {:induction false} SampleColsAt(t: seq<Key>, base: nat, cols: seq<bool>, n: nat)
    requires n <= |cols| && base + |cols| <= |t|
    ensures forall k :: 0 <= k < |t| ==>
      SampleCols(t, base, cols, n)[k] ==
        if base <= k < base + n then t[k].(state := LevelState(cols[k - base])) else t[k]
  {
    if n > 0 {
      SampleColsAt(t, base, cols, n - 1);
    }
  }

  /** Sampling never changes a key's character. */
  lemma SampleColsKeepsChars(t: seq<Key>, base: nat, cols: seq<bool>, n: nat)
    requires n <= |cols| && base + |cols| <= |t|
    ensures forall k :: 0 <= k < |t| ==> SampleCols(t, base, cols, n)[k].ch == t[k].ch
  {
    SampleColsAt(t, base, cols, n);
  }

  /** A key not yet reached keeps its entry. */
  lemma SampleColsUntouched(t: seq<Key>, base: nat, cols: seq<bool>, n: nat, k: nat)
    requires n <= |cols| && base + |cols| <= |t| && k < |t| && !(base <= k < base + n)
    ensures SampleCols(t, base, cols, n)[k] == t[k]
  {
    SampleColsAt(t, base, cols, n);
  }

  /** Some key among the first `n` of the row starting at `base` goes from
      UP to DOWN when its column is sampled. */
  predicate Rising(t: seq<Key>, base: nat, cols: seq<bool>, n: nat)
    requires n <= |cols| && base + |cols| <= |t|
  {
    exists c :: 0 <= c < n && cols[c] && t[base + c].state == Up
  }
}
