/**
 * The flash mode shared by both LED programs: a button task that arms a
 * burst of flashes, and an update task that spends one unit of the burst
 * per flash and falls back to its normal pattern when the burst is over.
 * The two tasks share one integer, `flash_count`.
 */
module FlashMode {

  /** A pressed button arms this many flashes. */
  const Burst: int := 10

  /** The update task flashes exactly when the count is positive. */
  predicate Flashes(count: int)
  {
    count > 0
  }

  /** What one poll of the button does to the count: a pressed button
      re-arms a full burst, a released one leaves the count alone. */
  function Poll(count: int, pressed: bool): (r: int)
    ensures count >= 0 ==> r >= 0
    ensures pressed ==> Flashes(r) && r == Burst
    ensures !pressed ==> r == count
  {
    if pressed then Burst else count
  }

  /** What one step of the update task does to the count: a flash spends
      one unit, and a step of the normal pattern leaves it alone. */
  function Consume(count: int): (r: int)
    ensures count >= 0 ==> 0 <= r <= count
    ensures r == count <==> !Flashes(count)
    ensures Flashes(count) ==> r == count - 1
  {
    if count > 0 then count - 1 else count
  }

  /** The count after `n` steps of the update task with no press between. */
  function Drain(count: int, n: nat): int
  {
    if n == 0 then count else Consume(Drain(count, n - 1))
  }

  /** Starting from a non-negative count `c`, the next `c` steps flash and
      every step after them does not; the count never goes negative. */
  lemma {:induction false} DrainCount(c: int, n: nat)
    requires c >= 0
    ensures Drain(c, n) == if n < c then c - n else 0
    ensures Flashes(Drain(c, n)) <==> n < c
  {
    if n > 0 {
      DrainCount(c, n - 1);
    }
  }

  /** A press arms exactly `Burst` flashes: after it, the next ten steps of
      the update task flash and the eleventh is back to the normal pattern. */
  lemma PressArmsBurst(count: int, n: nat)
    ensures Flashes(Drain(Poll(count, true), n)) <==> n < Burst
    ensures Drain(Poll(count, true), Burst) == 0
  {
    DrainCount(Burst, n);
    DrainCount(Burst, Burst);
  }
}
