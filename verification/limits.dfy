/**
  Rate arithmetic, and the second over which the one rule
      drawn each second = max(moved, reserved rate x 1 s)
  is applied.
 */
module Limits {
  import opened Numbers

  const SECOND_MS: u64 := 1_000

  /** Units per second that `units` over `ms` milliseconds comes to. */
  function RateFrom(units: u64, ms: u64): u64 {
    if ms == 0 then U64_MAX else Saturate(units * 1_000 / ms)
  }

  /** Units drawn at `rate` over `ms` milliseconds. */
  function UnitsIn(rate: u64, ms: u64): u64 {
    Saturate(Exact(rate, ms))
  }

  /** `UnitsIn` before it is brought back to 64 bits. */
  function Exact(rate: nat, ms: nat): nat {
    rate * ms / 1_000
  }

  function PowerOfTwo(k: nat): nat {
    if k == 0 then 1 else 2 * PowerOfTwo(k - 1)
  }

  /** The index of the highest set bit: 63 less the leading zeros of a 64-bit word. */
  function HighestBit(c: nat): nat
    requires c > 0
  {
    if c == 1 then 0 else 1 + HighestBit(c / 2)
  }

  lemma {:induction false} HighestBitBrackets(c: nat)
    requires c > 0
    ensures PowerOfTwo(HighestBit(c)) <= c < 2 * PowerOfTwo(HighestBit(c))
  {
    if c > 1 {
      HighestBitBrackets(c / 2);
    }
  }

  function RoundDown(c: u64): (r: u64)
    ensures r <= c
  {
    if c == 0 then 0 else HighestBitBrackets(c); PowerOfTwo(HighestBit(c))
  }

  /** The fastest a payer with `remaining` units left is carried near the end of its budget. */
  function PerTickCeiling(remaining: u64, tickMs: u64): u64 {
    RoundDown(RateFrom(remaining, Max(tickMs, 1)))
  }

  // ------------------------------------------------------------------------
  // The open second
  // ------------------------------------------------------------------------

  /** A reading: units moved since the last one, and when it was taken. */
  datatype Reading = Reading(moved: u64, now: Millis)

  datatype Second = Second(start: Millis, at: Millis, moved: u64) {

    ghost predicate Valid() {
      start <= at
    }

    /** Whole seconds complete once the clock has been seen at `now`. */
    function Whole(now: Millis): nat {
      SatSub(Max(at, now), start) / SECOND_MS
    }

    function Read(moved: u64, now: Millis, rate: u64): (Second, u64) {
      var total := SatAdd(this.moved, moved);
      var at' := Max(at, now);
      var whole := Whole(now);
      if whole == 0 then
        (Second(start, at', total), moved)
      else
        var floor := UnitsIn(rate, whole * SECOND_MS);
        (Second(SatAdd(start, whole * SECOND_MS), at', 0), SatAdd(moved, SatSub(floor, total)))
    }

    function Close(until: Millis, rate: u64): u64 {
      SatSub(UnitsIn(rate, SatSub(until, start)), moved)
    }
  }

  function Starting(now: Millis): Second {
    Second(now, now, 0)
  }
}
