/** The cooperative scanner (class Keypad_uasyncio): one pass of
    `scan_coro` asserts each row in turn, waits for it to settle, samples
    every column of it in order and deasserts it, pushing the character of
    every key that goes from UP to DOWN onto a FIFO queue.

    A pass is recorded as a trace of `Step`s: the row writes, the settle
    sleep, the sampling of each key and each push onto the queue. */
module KeypadAsync {
  import opened Wrappers
  import opened KeyRule

  /** The time budget of one pass, spread evenly over the rows. */
  const PassBudgetMs: nat := 40
  /** row_scan_delay_ms = 40 // len(rows) */
  const RowScanDelayMs: nat := PassBudgetMs / 4

  datatype Step =
    | RowWrite(row: nat, level: bool)   // row_pin.value(level)
    | Sleep(ms: nat)                    // await asyncio.sleep_ms(ms)
    | Sample(code: nat)                 // key_process on key `code`
    | Put(ch: char)                     // await queue.put(ch)

  /** Column levels for one pass: `samples[row][col]` is what column `col`
      reads while row `row` is asserted. */
  predicate WellShaped(samples: seq<seq<bool>>)
  {
    |samples| == 4 && forall r :: 0 <= r < 4 ==> |samples[r]| == 4
  }

  // ---------------------------------------------------------------------
  // What one pass does, row by row

  /** The table after the first `n` rows of a pass. */
  function SampleRows(t: seq<Key>, samples: seq<seq<bool>>, n: nat): (r: seq<Key>)
    requires |t| == 16 && WellShaped(samples) && n <= 4
    ensures |r| == 16
  {
    if n == 0 then t
    else SampleCols(SampleRows(t, samples, n - 1), (n - 1) * 4, samples[n - 1], 4)
  }

  /** The steps of the first `n` columns of a row whose first key is
      `base`; `t` is the table as it was when the pass began. */
  function ColSteps(t: seq<Key>, base: nat, cols: seq<bool>, n: nat): seq<Step>
    requires n <= |cols| && base + |cols| <= |t|
  {
    if n == 0 then []
    else
      var k := base + n - 1;
      ColSteps(t, base, cols, n - 1) + [Sample(k)] +
        (if cols[n - 1] && t[k].state == Up then [Put(t[k].ch)] else [])
  }

  /** The steps for row `row`: assert, settle, sample every column, deassert. */
  function RowSteps(t: seq<Key>, row: nat, cols: seq<bool>): seq<Step>
    requires |t| == 16 && row < 4 && |cols| == 4
  {
    [RowWrite(row, true), Sleep(RowScanDelayMs)] + ColSteps(t, row * 4, cols, 4) + [RowWrite(row, false)]
  }

  /** The steps of the first `n` rows of a pass. */
  function PassSteps(t: seq<Key>, samples: seq<seq<bool>>, n: nat): seq<Step>
    requires |t| == 16 && WellShaped(samples) && n <= 4
  {
    if n == 0 then [] else PassSteps(t, samples, n - 1) + RowSteps(t, n - 1, samples[n - 1])
  }

  // ---------------------------------------------------------------------
  // Views of a trace

  /** The characters pushed onto the queue, in order. */
  function Puts(s: seq<Step>): seq<char>
  {
    if s == [] then []
    else Puts(s[..|s| - 1]) + (if s[|s| - 1].Put? then [s[|s| - 1].ch] else [])
  }

  /** The key codes sampled, in order. */
  function Sampled(s: seq<Step>): seq<nat>
  {
    if s == [] then []
    else Sampled(s[..|s| - 1]) + (if s[|s| - 1].Sample? then [s[|s| - 1].code] else [])
  }

  /** The total time slept. */
  function SleepTotal(s: seq<Step>): nat
  {
    if s == [] then 0
    else SleepTotal(s[..|s| - 1]) + (if s[|s| - 1].Sleep? then s[|s| - 1].ms else 0)
  }

  /** The set of high rows after the steps `s`, starting from the set `h`. */
  function HighAfter(h: set<nat>, s: seq<Step>): set<nat>
  {
    if s == [] then h
    else
      var p := HighAfter(h, s[..|s| - 1]);
      match s[|s| - 1]
      case RowWrite(row, level) => if level then p + {row} else p - {row}
      case _ => p
  }

  /** Whenever a key is sampled, its own row is the only high row. */
  ghost predicate SampledAlone(h: set<nat>, s: seq<Step>)
  {
    forall i :: 0 <= i < |s| && s[i].Sample? ==> HighAfter(h, s[..i]) == {s[i].code / 4}
  }

  /** The characters of the keys that go from UP to DOWN among the first `n`
      key codes, in key-code (row-major) order: the independent description
      of what a pass pushes. */
  function Presses(t: seq<Key>, samples: seq<seq<bool>>, n: nat): seq<char>
    requires |t| == 16 && WellShaped(samples) && n <= 16
  {
    if n == 0 then []
    else
      var k := n - 1;
      Presses(t, samples, k) +
        (if samples[k / 4][k % 4] && t[k].state == Up then [t[k].ch] else [])
  }

  /** The characters of the keys among the first `n` columns of the row
      whose first key is `base` that go from UP to DOWN, in column order. */
  function ColPresses(t: seq<Key>, base: nat, cols: seq<bool>, n: nat): seq<char>
    requires n <= |cols| && base + |cols| <= |t|
  {
    if n == 0 then []
    else
      var k := base + n - 1;
      ColPresses(t, base, cols, n - 1) + (if cols[n - 1] && t[k].state == Up then [t[k].ch] else [])
  }

  // ---------------------------------------------------------------------
  // Trace views distribute over concatenation

  lemma {:induction false} PutsAppend(a: seq<Step>, b: seq<Step>)
    ensures Puts(a + b) == Puts(a) + Puts(b)
    decreases |b|
  {
    if b != [] {
      assert (a + b)[..|a + b| - 1] == a + b[..|b| - 1];
      PutsAppend(a, b[..|b| - 1]);
    } else {
      assert a + b == a;
    }
  }

  lemma {:induction false} SampledAppend(a: seq<Step>, b: seq<Step>)
    ensures Sampled(a + b) == Sampled(a) + Sampled(b)
    decreases |b|
  {
    if b != [] {
      assert (a + b)[..|a + b| - 1] == a + b[..|b| - 1];
      SampledAppend(a, b[..|b| - 1]);
    } else {
      assert a + b == a;
    }
  }

  lemma {:induction false} SleepTotalAppend(a: seq<Step>, b: seq<Step>)
    ensures SleepTotal(a + b) == SleepTotal(a) + SleepTotal(b)
    decreases |b|
  {
    if b != [] {
      assert (a + b)[..|a + b| - 1] == a + b[..|b| - 1];
      SleepTotalAppend(a, b[..|b| - 1]);
    } else {
      assert a + b == a;
    }
  }

  lemma {:induction false} HighAfterAppend(h: set<nat>, a: seq<Step>, b: seq<Step>)
    ensures HighAfter(h, a + b) == HighAfter(HighAfter(h, a), b)
    decreases |b|
  {
    if b != [] {
      assert (a + b)[..|a + b| - 1] == a + b[..|b| - 1];
      HighAfterAppend(h, a, b[..|b| - 1]);
    } else {
      assert a + b == a;
    }
  }

  // ---------------------------------------------------------------------
  // Properties of one pass

  /** After the first `n` rows of a pass every key of those rows is in the
      state its column read, keeping its character; later keys are as
      they were. */
  lemma {:induction false} SampleRowsAt(t: seq<Key>, samples: seq<seq<bool>>, n: nat)
    requires |t| == 16 && WellShaped(samples) && n <= 4
    ensures forall k :: 0 <= k < 16 ==>
      SampleRows(t, samples, n)[k] ==
        if k < n * 4 then t[k].(state := LevelState(samples[k / 4][k % 4])) else t[k]
  {
    if n > 0 {
      var base := (n - 1) * 4;
      var p := SampleRows(t, samples, n - 1);
      SampleRowsAt(t, samples, n - 1);
      SampleColsAt(p, base, samples[n - 1], 4);
      forall k | base <= k < base + 4
        ensures k / 4 == n - 1 && k % 4 == k - base
      {
        RowMajor(n - 1, k - base);
      }
    }
  }

  /** If `pre + part == whole`, extending `part` by `add` extends `whole` by `add`. */
  lemma ExtendBoth<T>(pre: seq<T>, part: seq<T>, add: seq<T>, part': seq<T>, whole: seq<T>, whole': seq<T>)
    requires pre + part == whole && part' == part + add && whole' == whole + add
    ensures pre + part' == whole'
  {
    assert pre + (part + add) == (pre + part) + add;
  }

  /** Key code `row * 4 + col` lies in row `row`, column `col`. */
  lemma RowMajor(row: nat, col: nat)
    requires col < 4
    ensures (row * 4 + col) / 4 == row && (row * 4 + col) % 4 == col
  {
  }

  /** A step of a column loop over the keys `lo .. hi - 1`: a sample of one
      of them or a push. */
  predicate ColStep(st: Step, lo: nat, hi: nat)
  {
    (st.Sample? && lo <= st.code < hi) || st.Put?
  }

  ghost predicate AllColSteps(s: seq<Step>, lo: nat, hi: nat)
  {
    forall i :: 0 <= i < |s| ==> ColStep(s[i], lo, hi)
  }

  /** The codes `lo, lo + 1, ..., hi - 1`. */
  function Range(lo: nat, hi: nat): seq<nat>
    decreases hi
  {
    if hi <= lo then [] else Range(lo, hi - 1) + [hi - 1]
  }

  /** `Range(lo, hi)` lists `hi - lo` codes, the `j`-th being `lo + j`. */
  lemma {:induction false} RangeAt(lo: nat, hi: nat)
    requires lo <= hi
    ensures |Range(lo, hi)| == hi - lo
    ensures forall j :: 0 <= j < hi - lo ==> Range(lo, hi)[j] == lo + j
    decreases hi
  {
    if lo < hi {
      RangeAt(lo, hi - 1);
    }
  }

  lemma {:induction false} RangeAppend(lo: nat, mid: nat, hi: nat)
    requires lo <= mid <= hi
    ensures Range(lo, mid) + Range(mid, hi) == Range(lo, hi)
    decreases hi
  {
    if mid < hi {
      RangeAppend(lo, mid, hi - 1);
      ExtendBoth(Range(lo, mid), Range(mid, hi - 1), [hi - 1], Range(mid, hi), Range(lo, hi - 1), Range(lo, hi));
    }
  }

  /** The column steps of a row only sample the keys `base .. base + n - 1`
      and push; they write no row and never sleep. */
  lemma {:induction false} ColStepsKinds(t: seq<Key>, base: nat, cols: seq<bool>, n: nat)
    requires n <= |cols| && base + |cols| <= |t|
    ensures AllColSteps(ColSteps(t, base, cols, n), base, base + n)
  {
    if n > 0 {
      var k := base + n - 1;
      var prev := ColSteps(t, base, cols, n - 1);
      var c := ColSteps(t, base, cols, n);
      ColStepsKinds(t, base, cols, n - 1);
      forall i | 0 <= i < |c|
        ensures ColStep(c[i], base, base + n)
      {
        if i < |prev| {
          assert c[i] == prev[i] && ColStep(prev[i], base, base + n - 1);
        }
      }
    }
  }

  /** One more column samples one more key, `base + n - 1`. */
  lemma ColStepsSampledStep(t: seq<Key>, base: nat, cols: seq<bool>, n: nat)
    requires 0 < n <= |cols| && base + |cols| <= |t|
    ensures Sampled(ColSteps(t, base, cols, n)) == Sampled(ColSteps(t, base, cols, n - 1)) + [base + n - 1]
  {
    var k := base + n - 1;
    var prev := ColSteps(t, base, cols, n - 1);
    var tail := if cols[n - 1] && t[k].state == Up then [Put(t[k].ch)] else [];
    assert ColSteps(t, base, cols, n) == prev + [Sample(k)] + tail;
    ViewsOne(Sample(k));
    SampledAppend(prev, [Sample(k)]);
    if tail != [] {
      ViewsOne(Put(t[k].ch));
    }
    SampledAppend(prev + [Sample(k)], tail);
  }

  /** The column steps of a row sample the keys `base .. base + n - 1`
      once each, in order. */
  lemma {:induction false} ColStepsSampled(t: seq<Key>, base: nat, cols: seq<bool>, n: nat)
    requires n <= |cols| && base + |cols| <= |t|
    ensures Sampled(ColSteps(t, base, cols, n)) == Range(base, base + n)
  {
    if n > 0 {
      ColStepsSampled(t, base, cols, n - 1);
      ColStepsSampledStep(t, base, cols, n);
      assert base + (n - 1) == base + n - 1;
    }
  }

  /** Steps that write no row leave the set of high rows as it was. */
  lemma {:induction false} HighAfterNoWrites(h: set<nat>, s: seq<Step>, lo: nat, hi: nat)
    requires AllColSteps(s, lo, hi)
    ensures HighAfter(h, s) == h
    decreases |s|
  {
    if s != [] {
      AllColStepsPrefix(s, lo, hi, |s| - 1);
      HighAfterNoWrites(h, s[..|s| - 1], lo, hi);
      assert ColStep(s[|s| - 1], lo, hi);
    }
  }

  lemma AllColStepsPrefix(s: seq<Step>, lo: nat, hi: nat, m: nat)
    requires AllColSteps(s, lo, hi) && m <= |s|
    ensures AllColSteps(s[..m], lo, hi)
  {
    forall i | 0 <= i < m
      ensures ColStep(s[..m][i], lo, hi)
    {
      assert s[..m][i] == s[i];
    }
  }

  /** Steps that never sleep take no time. */
  lemma {:induction false} SleepTotalNoSleeps(s: seq<Step>, lo: nat, hi: nat)
    requires AllColSteps(s, lo, hi)
    ensures SleepTotal(s) == 0
    decreases |s|
  {
    if s != [] {
      AllColStepsPrefix(s, lo, hi, |s| - 1);
      SleepTotalNoSleeps(s[..|s| - 1], lo, hi);
      assert ColStep(s[|s| - 1], lo, hi);
    }
  }

  /** Sampling discipline is kept across a concatenation when the second
      part keeps it from the rows the first part leaves high. */
  lemma SampledAloneAppend(h: set<nat>, a: seq<Step>, b: seq<Step>)
    requires SampledAlone(h, a) && SampledAlone(HighAfter(h, a), b)
    ensures SampledAlone(h, a + b)
  {
    forall i | 0 <= i < |a + b| && (a + b)[i].Sample?
      ensures HighAfter(h, (a + b)[..i]) == {(a + b)[i].code / 4}
    {
      if i < |a| {
        assert (a + b)[..i] == a[..i];
      } else {
        assert (a + b)[..i] == a + b[..i - |a|];
        HighAfterAppend(h, a, b[..i - |a|]);
      }
    }
  }

  /** Starting with every row low, one row's steps sample each key while its
      row alone is high, and leave every row low again. */
  lemma RowStepsAlone(t: seq<Key>, row: nat, cols: seq<bool>)
    requires |t| == 16 && row < 4 && |cols| == 4
    ensures SampledAlone({}, RowSteps(t, row, cols))
    ensures HighAfter({}, RowSteps(t, row, cols)) == {}
  {
    var base := row * 4;
    var head := [RowWrite(row, true), Sleep(RowScanDelayMs)];
    var c := ColSteps(t, base, cols, 4);
    var s := RowSteps(t, row, cols);
    ColStepsKinds(t, base, cols, 4);
    assert HighAfter({}, head) == {row} by {
      assert head == [RowWrite(row, true)] + [Sleep(RowScanDelayMs)];
      assert [RowWrite(row, true)][..0] == [];
      assert HighAfter({}, [RowWrite(row, true)]) == {row};
      HighAfterAppend({}, [RowWrite(row, true)], [Sleep(RowScanDelayMs)]);
      assert [Sleep(RowScanDelayMs)][..0] == [];
    }
    forall i | 0 <= i < |s| && s[i].Sample?
      ensures HighAfter({}, s[..i]) == {s[i].code / 4}
    {
      assert 2 <= i < 2 + |c| && s[i] == c[i - 2];
      assert ColStep(c[i - 2], base, base + 4);
      assert s[..i] == head + c[..i - 2];
      HighAfterAppend({}, head, c[..i - 2]);
      AllColStepsPrefix(c, base, base + 4, i - 2);
      HighAfterNoWrites({row}, c[..i - 2], base, base + 4);
      RowMajor(row, s[i].code - base);
    }
    assert s == (head + c) + [RowWrite(row, false)];
    HighAfterAppend({}, head, c);
    HighAfterNoWrites({row}, c, base, base + 4);
  }

  /** Two traces that each start and end with every row low, and sample
      each key while its row alone is high, compose. */
  lemma AloneConcat(a: seq<Step>, b: seq<Step>)
    requires SampledAlone({}, a) && HighAfter({}, a) == {}
    requires SampledAlone({}, b) && HighAfter({}, b) == {}
    ensures SampledAlone({}, a + b) && HighAfter({}, a + b) == {}
  {
    SampledAloneAppend({}, a, b);
    HighAfterAppend({}, a, b);
  }

  /** Starting with every row low, a pass samples each key while its own row
      alone is high, and ends with every row low. */
  lemma {:induction false} PassAlone(t: seq<Key>, samples: seq<seq<bool>>, n: nat)
    requires |t| == 16 && WellShaped(samples) && n <= 4
    ensures SampledAlone({}, PassSteps(t, samples, n))
    ensures HighAfter({}, PassSteps(t, samples, n)) == {}
  {
    if n > 0 {
      var prev := PassSteps(t, samples, n - 1);
      var row := RowSteps(t, n - 1, samples[n - 1]);
      assert PassSteps(t, samples, n) == prev + row;
      PassAlone(t, samples, n - 1);
      RowStepsAlone(t, n - 1, samples[n - 1]);
      AloneConcat(prev, row);
    }
  }

  /** The views of a one-step trace. */
  lemma ViewsOne(st: Step)
    ensures Puts([st]) == if st.Put? then [st.ch] else []
    ensures Sampled([st]) == if st.Sample? then [st.code] else []
    ensures SleepTotal([st]) == if st.Sleep? then st.ms else 0
  {
    assert [st][..0] == [];
  }

  /** Framing column steps `c` by a row's assert, settle sleep and deassert
      adds no sample and no push, and adds the settle time. */
  lemma RowFrameViews(row: nat, c: seq<Step>)
    ensures var s := [RowWrite(row, true), Sleep(RowScanDelayMs)] + c + [RowWrite(row, false)];
      && Sampled(s) == Sampled(c)
      && Puts(s) == Puts(c)
      && SleepTotal(s) == RowScanDelayMs + SleepTotal(c)
  {
    var a, b, z := RowWrite(row, true), Sleep(RowScanDelayMs), RowWrite(row, false);
    assert [a, b] + c + [z] == [a] + [b] + c + [z];
    ViewsOne(a);
    ViewsOne(b);
    ViewsOne(z);
    SampledAppend([a], [b]);
    SampledAppend([a] + [b], c);
    SampledAppend([a] + [b] + c, [z]);
    PutsAppend([a], [b]);
    PutsAppend([a] + [b], c);
    PutsAppend([a] + [b] + c, [z]);
    SleepTotalAppend([a], [b]);
    SleepTotalAppend([a] + [b], c);
    SleepTotalAppend([a] + [b] + c, [z]);
  }

  /** A row's steps sample the keys of that row, in column order. */
  lemma RowStepsSampled(t: seq<Key>, row: nat, cols: seq<bool>)
    requires |t| == 16 && row < 4 && |cols| == 4
    ensures Sampled(RowSteps(t, row, cols)) == Range(row * 4, row * 4 + 4)
  {
    RowFrameViews(row, ColSteps(t, row * 4, cols, 4));
    ColStepsSampled(t, row * 4, cols, 4);
  }

  /** A row's steps push what its column loop pushes. */
  lemma RowStepsPuts(t: seq<Key>, row: nat, cols: seq<bool>)
    requires |t| == 16 && row < 4 && |cols| == 4
    ensures Puts(RowSteps(t, row, cols)) == Puts(ColSteps(t, row * 4, cols, 4))
  {
    RowFrameViews(row, ColSteps(t, row * 4, cols, 4));
  }

  /** A row's steps sleep `row_scan_delay_ms` once. */
  lemma RowStepsSleep(t: seq<Key>, row: nat, cols: seq<bool>)
    requires |t| == 16 && row < 4 && |cols| == 4
    ensures SleepTotal(RowSteps(t, row, cols)) == RowScanDelayMs
  {
    var c := ColSteps(t, row * 4, cols, 4);
    RowFrameViews(row, c);
    ColStepsKinds(t, row * 4, cols, 4);
    SleepTotalNoSleeps(c, row * 4, row * 4 + 4);
  }

  /** One more row samples that row's keys. */
  lemma PassSampledStep(t: seq<Key>, samples: seq<seq<bool>>, row: nat)
    requires |t| == 16 && WellShaped(samples) && row < 4
    ensures Sampled(PassSteps(t, samples, row + 1)) ==
      Sampled(PassSteps(t, samples, row)) + Range(row * 4, row * 4 + 4)
  {
    var prev := PassSteps(t, samples, row);
    var rs := RowSteps(t, row, samples[row]);
    RowStepsSampled(t, row, samples[row]);
    assert PassSteps(t, samples, row + 1) == prev + rs;
    SampledAppend(prev, rs);
  }

  /** A pass samples every key exactly once, in row-major order. */
  lemma {:induction false} PassVisitsEveryKey(t: seq<Key>, samples: seq<seq<bool>>, n: nat)
    requires |t| == 16 && WellShaped(samples) && n <= 4
    ensures Sampled(PassSteps(t, samples, n)) == Range(0, n * 4)
  {
    if n > 0 {
      var base := (n - 1) * 4;
      PassVisitsEveryKey(t, samples, n - 1);
      PassSampledStep(t, samples, n - 1);
      RangeAppend(0, base, base + 4);
      assert base + 4 == n * 4;
    }
  }

  /** One more row adds that row's settle time. */
  lemma PassSleepStep(t: seq<Key>, samples: seq<seq<bool>>, row: nat)
    requires |t| == 16 && WellShaped(samples) && row < 4
    ensures SleepTotal(PassSteps(t, samples, row + 1)) == SleepTotal(PassSteps(t, samples, row)) + RowScanDelayMs
  {
    var prev := PassSteps(t, samples, row);
    var rs := RowSteps(t, row, samples[row]);
    RowStepsSleep(t, row, samples[row]);
    assert PassSteps(t, samples, row + 1) == prev + rs;
    SleepTotalAppend(prev, rs);
  }

  /** A pass sleeps only to let each row settle: 10 ms per row, so a full
      pass of four rows sleeps exactly its 40 ms budget. */
  lemma {:induction false} PassSleeps(t: seq<Key>, samples: seq<seq<bool>>, n: nat)
    requires |t| == 16 && WellShaped(samples) && n <= 4
    ensures SleepTotal(PassSteps(t, samples, n)) == 10 * n
    ensures n == 4 ==> SleepTotal(PassSteps(t, samples, n)) == PassBudgetMs
  {
    if n > 0 {
      PassSleeps(t, samples, n - 1);
      PassSleepStep(t, samples, n - 1);
    }
  }

  /** One more column pushes the key's character exactly when it goes DOWN. */
  lemma ColStepsPutsStep(t: seq<Key>, base: nat, cols: seq<bool>, n: nat)
    requires 0 < n <= |cols| && base + |cols| <= |t|
    ensures Puts(ColSteps(t, base, cols, n)) == Puts(ColSteps(t, base, cols, n - 1)) +
      (if cols[n - 1] && t[base + n - 1].state == Up then [t[base + n - 1].ch] else [])
  {
    var k := base + n - 1;
    var prev := ColSteps(t, base, cols, n - 1);
    var tail := if cols[n - 1] && t[k].state == Up then [Put(t[k].ch)] else [];
    assert ColSteps(t, base, cols, n) == prev + [Sample(k)] + tail;
    PutsAppend(prev + [Sample(k)], tail);
    PutsAppend(prev, [Sample(k)]);
    ViewsOne(Sample(k));
    if tail != [] {
      ViewsOne(Put(t[k].ch));
    } else {
      assert Puts(tail) == [];
    }
  }

  /** The next column of a row: its key is still as it was when the pass
      began, it is sampled, and its character is pushed exactly when it
      goes from UP to DOWN. */
  lemma ColStepsNext(t: seq<Key>, base: nat, cols: seq<bool>, n: nat)
    requires n < |cols| && base + |cols| <= |t|
    ensures var k := base + n;
      var rises := cols[n] && t[k].state == Up;
      && SampleCols(t, base, cols, n)[k] == t[k]
      && ColSteps(t, base, cols, n + 1) == ColSteps(t, base, cols, n) + [Sample(k)] + (if rises then [Put(t[k].ch)] else [])
      && ColPresses(t, base, cols, n + 1) == ColPresses(t, base, cols, n) + (if rises then [t[k].ch] else [])
  {
    SampleColsUntouched(t, base, cols, n, base + n);
  }

  /** One more key adds its character exactly when it goes DOWN. */
  lemma PressesStep(t: seq<Key>, samples: seq<seq<bool>>, row: nat, col: nat, k: nat)
    requires |t| == 16 && WellShaped(samples) && row < 4 && col < 4
    requires k == row * 4 + col
    ensures Presses(t, samples, k + 1) == Presses(t, samples, k) +
      (if samples[row][col] && t[k].state == Up then [t[k].ch] else [])
  {
    RowMajor(row, col);
  }

  /** The pushes in a row's column steps are the row's presses. */
  lemma {:induction false} ColStepsPuts(t: seq<Key>, base: nat, cols: seq<bool>, n: nat)
    requires n <= |cols| && base + |cols| <= |t|
    ensures Puts(ColSteps(t, base, cols, n)) == ColPresses(t, base, cols, n)
  {
    if n > 0 {
      ColStepsPuts(t, base, cols, n - 1);
      ColStepsPutsStep(t, base, cols, n);
    }
  }

  /** The presses of row `row` are what `Presses` adds for that row's keys. */
  lemma {:induction false} ColPressesFlat(t: seq<Key>, samples: seq<seq<bool>>, row: nat, base: nat, n: nat)
    requires |t| == 16 && WellShaped(samples) && row < 4 && n <= 4
    requires base == row * 4
    ensures Presses(t, samples, base) + ColPresses(t, base, samples[row], n) == Presses(t, samples, base + n)
  {
    if n > 0 {
      var k := base + (n - 1);
      var add := if samples[row][n - 1] && t[k].state == Up then [t[k].ch] else [];
      var pre := Presses(t, samples, base);
      var part, part' := ColPresses(t, base, samples[row], n - 1), ColPresses(t, base, samples[row], n);
      var whole, whole' := Presses(t, samples, k), Presses(t, samples, k + 1);
      assert part' == part + add;
      assert pre + part == whole by {
        ColPressesFlat(t, samples, row, base, n - 1);
      }
      assert whole' == whole + add by {
        PressesStep(t, samples, row, n - 1, k);
      }
      ExtendBoth(pre, part, add, part', whole, whole');
    }
  }

  /** One more row pushes that row's presses. */
  lemma PassPutsStep(t: seq<Key>, samples: seq<seq<bool>>, row: nat)
    requires |t| == 16 && WellShaped(samples) && row < 4
    ensures Puts(PassSteps(t, samples, row + 1)) ==
      Puts(PassSteps(t, samples, row)) + ColPresses(t, row * 4, samples[row], 4)
  {
    var prev := PassSteps(t, samples, row);
    var rs := RowSteps(t, row, samples[row]);
    assert Puts(rs) == ColPresses(t, row * 4, samples[row], 4) by {
      RowStepsPuts(t, row, samples[row]);
      ColStepsPuts(t, row * 4, samples[row], 4);
    }
    assert PassSteps(t, samples, row + 1) == prev + rs;
    PutsAppend(prev, rs);
  }

  /** The characters a pass pushes are exactly those of the keys that go
      from UP to DOWN, in row-major order; releases push nothing. */
  lemma {:induction false} PassPutsPresses(t: seq<Key>, samples: seq<seq<bool>>, n: nat)
    requires |t| == 16 && WellShaped(samples) && n <= 4
    ensures Puts(PassSteps(t, samples, n)) == Presses(t, samples, n * 4)
  {
    if n > 0 {
      var base := (n - 1) * 4;
      PassPutsPresses(t, samples, n - 1);
      PassPutsStep(t, samples, n - 1);
      ColPressesFlat(t, samples, n - 1, base, 4);
      assert base + 4 == n * 4;
    }
  }

  /** Splitting the budget over any number of rows by integer division never
      makes a pass longer than the budget; with four rows each row gets
      10 ms and a pass sleeps 40 ms. */
  lemma BudgetSplit(rows: nat)
    requires rows > 0
    ensures rows * (PassBudgetMs / rows) <= PassBudgetMs
    ensures PassBudgetMs - rows < rows * (PassBudgetMs / rows)
    ensures RowScanDelayMs == 10 && 4 * RowScanDelayMs == PassBudgetMs
  {
    var q := PassBudgetMs / rows;
    var m := PassBudgetMs % rows;
    assert PassBudgetMs == rows * q + m;
  }

  /** The presses of a row depend only on that row's keys. */
  lemma {:induction false} ColPressesAgree(t1: seq<Key>, t2: seq<Key>, base: nat, cols: seq<bool>, n: nat)
    requires n <= |cols| && base + |cols| <= |t1| && base + |cols| <= |t2|
    requires forall j :: base <= j < base + |cols| ==> t1[j] == t2[j]
    ensures ColPresses(t1, base, cols, n) == ColPresses(t2, base, cols, n)
  {
    if n > 0 {
      ColPressesAgree(t1, t2, base, cols, n - 1);
      assert t1[base + n - 1] == t2[base + n - 1];
    }
  }

  /** The column steps of a row depend only on that row's keys. */
  lemma {:induction false} ColStepsAgree(t1: seq<Key>, t2: seq<Key>, base: nat, cols: seq<bool>, n: nat)
    requires n <= |cols| && base + |cols| <= |t1| && base + |cols| <= |t2|
    requires forall j :: base <= j < base + |cols| ==> t1[j] == t2[j]
    ensures ColSteps(t1, base, cols, n) == ColSteps(t2, base, cols, n)
  {
    if n > 0 {
      ColStepsAgree(t1, t2, base, cols, n - 1);
      assert t1[base + n - 1] == t2[base + n - 1];
    }
  }

  /** Running the column loop of row `row` on the table, trace and queue
      left by the rows before it gives the table, trace and queue of the
      first `row + 1` rows of the pass. */
  lemma PassRowStep(t: seq<Key>, samples: seq<seq<bool>>, row: nat, q0: seq<char>,
                    keys: seq<Key>, steps: seq<Step>, queue: seq<char>,
                    keys': seq<Key>, rowSteps: seq<Step>, queue': seq<char>)
    requires |t| == 16 && WellShaped(samples) && row < 4
    requires keys == SampleRows(t, samples, row)
    requires steps == PassSteps(t, samples, row)
    requires queue == q0 + Presses(t, samples, row * 4)
    requires keys' == SampleCols(keys, row * 4, samples[row], 4)
    requires rowSteps == RowSteps(keys, row, samples[row])
    requires queue' == queue + ColPresses(keys, row * 4, samples[row], 4)
    ensures keys' == SampleRows(t, samples, row + 1)
    ensures steps + rowSteps == PassSteps(t, samples, row + 1)
    ensures queue' == q0 + Presses(t, samples, (row + 1) * 4)
  {
    var base := row * 4;
    SampleRowsAt(t, samples, row);
    ColStepsAgree(keys, t, base, samples[row], 4);
    ColPressesAgree(keys, t, base, samples[row], 4);
    ColPressesFlat(t, samples, row, base, 4);
    assert base + 4 == (row + 1) * 4;
    ExtendBoth(q0, Presses(t, samples, base), ColPresses(t, base, samples[row], 4),
      Presses(t, samples, base + 4), queue, queue');
  }

  // ---------------------------------------------------------------------
  // The scanner

  /** The scanner's state. `keys` is the key table, `queue` the characters
      pushed and not yet taken, `maxSize` the queue_size it was created
      with, `rowPins` the levels of the row outputs and `running` the flag
      scan_coro checks before each pass. */
  class Keypad {
    var keys: seq<Key>
    var queue: seq<char>
    var maxSize: nat
    var rowPins: seq<bool>
    var running: bool

    /** The geometry is fixed and the characters never change. */
    ghost predicate Valid()
      reads this
    {
      && |keys| == 16
      && |rowPins| == 4
      && (forall k :: 0 <= k < 16 ==> keys[k].ch == Layout[k])
    }

    /** Creates the scanner (__init__ calls init), with the same defaults:
        an unbounded queue and scanning off. The row outputs keep whatever
        levels they had, `rowLevels`. */
    constructor (rowLevels: seq<bool>, queueSize: nat := 0, start: bool := false)
      requires |rowLevels| == 4
      ensures Valid()
      ensures keys == InitialKeys() && queue == [] && maxSize == queueSize
      ensures rowPins == rowLevels && running == start
    {
      rowPins := rowLevels;
      new;
      Init(queueSize, start);
    }

    /** init: a new empty queue of size `queueSize`, every key UP with its
        character, and scanning on exactly when `start` is; the defaults
        are those of init. */
    method Init(queueSize: nat := 0, start: bool := false)
      requires |rowPins| == 4
      modifies this`keys, this`queue, this`maxSize, this`running
      ensures Valid()
      ensures keys == InitialKeys() && queue == [] && maxSize == queueSize && running == start
    {
      queue := [];
      maxSize := queueSize;
      keys := [];
      for k := 0 to 16
        modifies this`keys
        invariant keys == InitialKeys()[..k]
      {
        keys := keys + [Key(Layout[k], Up)];
      }
      running := start;
    }

    /** start: scanning continues with the next pass. */
    method Start()
      modifies this`running
      ensures running
    {
      running := true;
    }

    /** stop: scan_coro ends before its next pass. */
    method Stop()
      modifies this`running
      ensures !running
    {
      running := false;
    }

    /** get_key: takes the oldest queued character. On an empty queue the
        coroutine would suspend: the model returns None and changes nothing. */
    method GetKey() returns (c: Option<char>)
      requires Valid()
      modifies this`queue
      ensures Valid()
      ensures old(queue) == [] ==> c == None && queue == []
      ensures old(queue) != [] ==> c == Some(old(queue)[0]) && queue == old(queue)[1..]
    {
      if queue == [] {
        c := None;
      } else {
        c := Some(queue[0]);
        queue := queue[1..];
      }
    }

    /** key_process: runs the press/release rule on key `code` alone. */
    method KeyProcess(code: nat, pressed: bool) returns (ev: Option<KeyEvent>)
      requires code < |keys|
      modifies this`keys
      ensures keys == old(keys)[code := old(keys[code]).(state := Process(old(keys[code].state), pressed).0)]
      ensures ev == Process(old(keys[code].state), pressed).1
    {
      ev := None;
      if pressed {
        if keys[code].state == Up {
          ev := Some(KeyDown);
          keys := keys[code := keys[code].(state := Down)];
        }
      } else {
        if keys[code].state == Down {
          ev := Some(KeyUp);
          keys := keys[code := keys[code].(state := Up)];
        }
      }
    }

    /** The body of scan_coro's column loop for key `code`, whose column
        reads `pressed`: key_process, then a push of the key's character
        when it went from UP to DOWN. */
    method ScanKey(code: nat, pressed: bool) returns (st: seq<Step>)
      requires code < |keys|
      modifies this`keys, this`queue
      ensures keys == old(keys)[code := old(keys[code]).(state := Process(old(keys[code].state), pressed).0)]
      ensures var rises := pressed && old(keys[code].state) == Up;
        && st == [Sample(code)] + (if rises then [Put(old(keys[code].ch))] else [])
        && queue == old(queue) + (if rises then [old(keys[code].ch)] else [])
    {
      var ev := KeyProcess(code, pressed);
      st := [Sample(code)];
      if ev == Some(KeyDown) {
        var ch := keys[code].ch;
        queue := queue + [ch];
        st := st + [Put(ch)];
      }
    }

    /** The column loop of one row of scan_coro's pass: processes the keys
        `code ..` with the column levels `cols`, pushing the character of
        each key that goes DOWN. */
    method ScanCols(cols: seq<bool>, code: nat) returns (colSteps: seq<Step>)
      requires |cols| == 4 && code + 4 <= |keys|
      modifies this`keys, this`queue
      ensures keys == SampleCols(old(keys), code, cols, 4)
      ensures colSteps == ColSteps(old(keys), code, cols, 4)
      ensures queue == old(queue) + ColPresses(old(keys), code, cols, 4)
    {
      ghost var t := keys;
      colSteps := [];
      var next := code;
      for col := 0 to 4
        invariant next == code + col
        invariant keys == SampleCols(t, code, cols, col)
        invariant colSteps == ColSteps(t, code, cols, col)
        invariant queue == old(queue) + ColPresses(t, code, cols, col)
      {
        ColStepsNext(t, code, cols, col);
        var st := ScanKey(next, cols[col]);
        colSteps := colSteps + st;
        next := next + 1;
      }
    }

    /** One row of scan_coro's pass: assert row `row`, sleep, process its
        columns `cols` with key codes `code ..`, pushing the character of
        each key that goes DOWN, and deassert the row. */
    method ScanRow(row: nat, cols: seq<bool>, code: nat) returns (steps: seq<Step>, next: nat)
      requires |keys| == 16 && |rowPins| == 4
      requires row < 4 && |cols| == 4 && code == row * 4
      modifies this`keys, this`queue, this`rowPins
      ensures next == code + 4
      ensures keys == SampleCols(old(keys), code, cols, 4)
      ensures steps == RowSteps(old(keys), row, cols)
      ensures queue == old(queue) + ColPresses(old(keys), code, cols, 4)
      ensures rowPins == old(rowPins)[row := false]
    {
      assert code + 4 <= 16;
      rowPins := rowPins[row := true];
      var colSteps := ScanCols(cols, code);
      next := code + 4;
      rowPins := rowPins[row := false];
      steps := [RowWrite(row, true), Sleep(RowScanDelayMs)] + colSteps + [RowWrite(row, false)];
    }

    /** One pass of scan_coro's `while self.running` loop over the column
        levels `samples`: every key is processed once, in row-major order,
        the queue gains exactly the characters of the keys that went DOWN,
        in that order, and every row is low afterwards. If every row was
        low before, each key is sampled while its own row alone is high. */
    method ScanPass(samples: seq<seq<bool>>) returns (steps: seq<Step>)
      requires Valid() && WellShaped(samples)
      modifies this`keys, this`queue, this`rowPins
      ensures Valid()
      ensures keys == SampleRows(old(keys), samples, 4)
      ensures steps == PassSteps(old(keys), samples, 4)
      ensures queue == old(queue) + Presses(old(keys), samples, 16)
      ensures forall r :: 0 <= r < 4 ==> !rowPins[r]
      ensures (forall r :: 0 <= r < 4 ==> !old(rowPins)[r]) ==> SampledAlone({}, steps)
    {
      ghost var t := keys;
      var code := 0;
      steps := [];
      for row := 0 to 4
        invariant |rowPins| == 4
        invariant code == row * 4
        invariant keys == SampleRows(t, samples, row)
        invariant steps == PassSteps(t, samples, row)
        invariant queue == old(queue) + Presses(t, samples, code)
        invariant forall r :: 0 <= r < row ==> !rowPins[r]
      {
        ghost var before, queued := keys, queue;
        var rowSteps;
        rowSteps, code := ScanRow(row, samples[row], code);
        PassRowStep(t, samples, row, old(queue), before, steps, queued, keys, rowSteps, queue);
        steps := steps + rowSteps;
      }
      SampleRowsAt(t, samples, 4);
      PassAlone(t, samples, 4);
    }
  }
}
