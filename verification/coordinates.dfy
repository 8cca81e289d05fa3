/**
  Player positions arrive from the game server as floating-point coordinates.
  This module treats them as mathematical reals and defines the one conversion
  the plugin applies to them: PHP's `(int)` cast, which truncates toward zero.
 */
module Coordinates {

  /** PHP's `(int)` cast of a finite float: drop the fractional part, rounding toward zero. */
  function Trunc(r: real): (t: int)
    ensures 0.0 <= r ==> t as real <= r < t as real + 1.0
    ensures r < 0.0 ==> t as real - 1.0 < r <= t as real
  {
    if 0.0 <= r then r.Floor else -((-r).Floor)
  }

  /** Whole coordinates pass through the cast unchanged. */
  lemma TruncOfWhole(k: int)
    ensures Trunc(k as real) == k
  {
  }

  /** Truncation is symmetric about zero, unlike the floor. */
  lemma TruncNegate(r: real)
    ensures Trunc(-r) == -Trunc(r)
  {
  }

  /** Moving further along the axis never yields a smaller truncated coordinate. */
  lemma TruncMonotone(r1: real, r2: real)
    requires r1 <= r2
    ensures Trunc(r1) <= Trunc(r2)
  {
  }

  /** Every position strictly between -1 and 1 truncates to 0. */
  lemma TruncNearZero(r: real)
    requires -1.0 < r < 1.0
    ensures Trunc(r) == 0
  {
  }
}
