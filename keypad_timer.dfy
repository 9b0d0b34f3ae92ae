/** The interrupt-driven scanner (class Keypad_Timer): every timer tick
    samples the columns of the row selected by `scanRow`, runs the
    press/release rule on that row's keys, records in a single slot the
    first key of a row in which a key went down, and moves the asserted row
    on by one. */
module KeypadTimer {
  import opened Wrappers
  import opened KeyRule

  /** The row after `row` (scan_row_update): one further on, and back to 0
      once past the last row. */
  function NextRow(row: nat): (r: nat)
    ensures r < 4
    ensures row < 4 ==> r == (row + 1) % 4
  {
    if row + 1 >= 4 then 0 else row + 1
  }

  /** The sampled row after `n` ticks from a freshly initialised scanner. */
  function RowAfter(n: nat): nat
  {
    if n == 0 then 0 else NextRow(RowAfter(n - 1))
  }

  /** Tick `n` samples row `n mod 4`: every row, hence every key, is
      sampled once every 4 ticks. */
  lemma {:induction false} RowAfterTicks(n: nat)
    ensures RowAfter(n) == n % 4
  {
    if n > 0 {
      RowAfterTicks(n - 1);
    }
  }

  /** The last-key slot after the first `n` rounds of timer_callback's
      column loop over `cols` for the keys `base ..`: each key that goes
      from UP to DOWN overwrites the slot with the row's FIRST key, `base`. */
  function SlotAfter(t: seq<Key>, base: nat, cols: seq<bool>, n: nat, code: Option<nat>, ch: Option<char>): (Option<nat>, Option<char>)
    requires n <= |cols| && base + |cols| <= |t|
  {
    if n == 0 then (code, ch)
    else if cols[n - 1] && t[base + n - 1].state == Up then (Some(base), Some(t[base].ch))
    else SlotAfter(t, base, cols, n - 1, code, ch)
  }

  /** After a row's column loop the slot holds the row's first key exactly
      when some key of the row went DOWN, and is unchanged otherwise. */
  lemma {:induction false} SlotAfterRising(t: seq<Key>, base: nat, cols: seq<bool>, n: nat, code: Option<nat>, ch: Option<char>)
    requires n <= |cols| && base + |cols| <= |t| && base < |t|
    ensures SlotAfter(t, base, cols, n, code, ch) ==
      if Rising(t, base, cols, n) then (Some(base), Some(t[base].ch)) else (code, ch)
  {
    if n > 0 {
      SlotAfterRising(t, base, cols, n - 1, code, ch);
      if Rising(t, base, cols, n) && !(cols[n - 1] && t[base + n - 1].state == Up) {
        var c :| 0 <= c < n && cols[c] && t[base + c].state == Up;
        assert Rising(t, base, cols, n - 1);
      }
    }
  }

  /** Every high row is `row` (at most one row is high, and if one is, it is `row`). */
  predicate HighRowsWithin(levels: seq<bool>, row: nat)
  {
    forall j :: 0 <= j < |levels| && levels[j] ==> j == row
  }

  /** Exactly one row is high: `row`. */
  predicate OnlyHigh(levels: seq<bool>, row: nat)
  {
    row < |levels| && levels[row] && HighRowsWithin(levels, row)
  }

  /** Deasserting `from` and then asserting `to` leaves exactly `to` high
      when no row other than `from` was high before. */
  lemma SwitchLeavesOneHigh(levels: seq<bool>, from: nat, to: nat)
    requires from < |levels| && to < |levels|
    requires HighRowsWithin(levels, from)
    ensures OnlyHigh(levels[from := false][to := true], to)
  {
  }

  /** The scanner's state. `keys` is the key table, `rowPins` the levels of
      the row outputs, `keyCode`/`keyChar` the last-key slot, `armed` whether
      the timer's callback is installed. */
  class Keypad {
    var keys: seq<Key>
    var rowPins: seq<bool>
    var scanRow: nat
    var keyCode: Option<nat>
    var keyChar: Option<char>
    var armed: bool

    /** The geometry is fixed, the characters never change, and the slot is
        empty or holds the code of the FIRST key of a row with that key's
        character. */
    ghost predicate Valid()
      reads this
    {
      && |keys| == 16
      && |rowPins| == 4
      && scanRow < 4
      && (forall k :: 0 <= k < 16 ==> keys[k].ch == Layout[k])
      && (keyCode.Some? <==> keyChar.Some?)
      && (keyCode.Some? ==>
            keyCode.value < 16 && keyCode.value % 4 == 0 &&
            keyChar.value == Layout[keyCode.value])
    }

    /** Creates the scanner (__init__ calls init). The row outputs keep
        whatever levels they had, `rowLevels`. */
    constructor (rowLevels: seq<bool>)
      requires |rowLevels| == 4
      ensures Valid()
      ensures keys == InitialKeys() && rowPins == rowLevels
      ensures scanRow == 0 && keyCode == None && keyChar == None && !armed
    {
      rowPins := rowLevels;
      new;
      Init();
    }

    /** init: every key UP with its character, row 0 selected, the slot
        empty and the timer callback removed. */
    method Init()
      requires |rowPins| == 4
      modifies this`keys, this`scanRow, this`keyCode, this`keyChar, this`armed
      ensures Valid()
      ensures keys == InitialKeys()
      ensures scanRow == 0 && keyCode == None && keyChar == None && !armed
    {
      keys := [];
      for k := 0 to 16
        invariant keys == InitialKeys()[..k]
      {
        keys := keys + [Key(Layout[k], Up)];
      }
      armed := false;
      scanRow, keyCode, keyChar := 0, None, None;
    }

    /** get_key: returns the slot's character and empties the slot, so a
        second call with no tick in between returns None. */
    method GetKey() returns (c: Option<char>)
      requires Valid()
      modifies this`keyCode, this`keyChar
      ensures Valid()
      ensures c == old(keyChar)
      ensures keyCode == None && keyChar == None
    {
      c := keyChar;
      keyCode := None;
      keyChar := None;
    }

    /** key_process: runs the press/release rule on key `code` alone. */
    method KeyProcess(code: nat, pressed: bool) returns (ev: Option<KeyEvent>)
      requires code < |keys|
      modifies this`keys
      ensures keys == old(keys)[code := old(keys[code]).(state := Process(old(keys[code].state), pressed).0)]
      ensures ev == Process(old(keys[code].state), pressed).1
    {
      ev := None;
      if pressed {
        if keys[code].state == Up {
          ev := Some(KeyDown);
          keys := keys[code := keys[code].(state := Down)];
        }
      } else {
        if keys[code].state == Down {
          ev := Some(KeyUp);
          keys := keys[code := keys[code].(state := Up)];
        }
      }
    }

    /** scan_row_update: deasserts the current row, moves on to the next
        row (wrapping to 0) and asserts it. If no other row was high, only
        the new row is high afterwards. */
    method ScanRowUpdate()
      requires Valid()
      modifies this`rowPins, this`scanRow
      ensures Valid()
      ensures scanRow == NextRow(old(scanRow))
      ensures rowPins == old(rowPins)[old(scanRow) := false][scanRow := true]
      ensures HighRowsWithin(old(rowPins), old(scanRow)) ==> OnlyHigh(rowPins, scanRow)
    {
      rowPins := rowPins[scanRow := false];
      scanRow := scanRow + 1;
      if scanRow >= |rowPins| {
        scanRow := 0;
      }
      rowPins := rowPins[scanRow := true];
      if HighRowsWithin(old(rowPins), old(scanRow)) {
        SwitchLeavesOneHigh(old(rowPins), old(scanRow), scanRow);
      }
    }

    /** timer_callback: `cols` are the column levels read during this tick.
        Only the keys of row `scanRow` change. When any of them goes DOWN,
        the slot records the code and character of the row's FIRST key
        (`keys[scan_row * len(cols)]`), not of the key pressed; otherwise the
        slot is unchanged. Then the row advances. */
    method TimerCallback(cols: seq<bool>)
      requires Valid() && |cols| == 4
      modifies this`keys, this`rowPins, this`scanRow, this`keyCode, this`keyChar
      ensures Valid()
      ensures keys == SampleCols(old(keys), old(scanRow) * 4, cols, 4)
      ensures if Rising(old(keys), old(scanRow) * 4, cols, 4)
              then keyCode == Some(old(scanRow) * 4) && keyChar == Some(Layout[old(scanRow) * 4])
              else keyCode == old(keyCode) && keyChar == old(keyChar)
      ensures scanRow == NextRow(old(scanRow))
      ensures rowPins == old(rowPins)[old(scanRow) := false][scanRow := true]
    {
      ghost var t := keys;
      var base := scanRow * 4;
      assert base % 4 == 0 && base + 4 <= 16;
      assert t[base].ch == Layout[base];
      for col := 0 to 4
        modifies this`keys, this`keyCode, this`keyChar
        invariant keys == SampleCols(t, base, cols, col)
        invariant keys[base].ch == t[base].ch
        invariant (keyCode, keyChar) == SlotAfter(t, base, cols, col, old(keyCode), old(keyChar))
      {
        SampleColsUntouched(t, base, cols, col, base + col);
        var ev := KeyProcess(base + col, cols[col]);
        if ev == Some(KeyDown) {
          keyCode := Some(base);
          keyChar := Some(keys[base].ch);
        }
      }
      SampleColsKeepsChars(t, base, cols, 4);
      SlotAfterRising(t, base, cols, 4, old(keyCode), old(keyChar));
      assert Valid();
      ScanRowUpdate();
    }

    /** start: installs the timer callback (idempotent). */
    method Start()
      modifies this`armed
      ensures armed
    {
      armed := true;
    }

    /** stop: removes the timer callback (idempotent). */
    method Stop()
      modifies this`armed
      ensures !armed
    {
      armed := false;
    }
  }

  /** With all keys UP, pressing only the third key of the second row ('6')
      leaves '4', the row's first character, in the slot after one tick of
      that row. */
  lemma SlotRecordsRowStart()
    ensures Rising(InitialKeys(), 1 * 4, [false, false, true, false], 4)
    ensures Layout[1 * 4] == '4' && Layout[1 * 4 + 2] == '6'
  {
    assert [false, false, true, false][2];
  }
}
