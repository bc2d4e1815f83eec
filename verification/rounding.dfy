/** Turning real amounts into whole ones, as the update does. */
module Rounding {

  /** The whole part; toward zero. */
  function Trunc(v: real): int {
    if v >= 0.0 then v.Floor else -((-v).Floor)
  }

  /** The nearest whole number; halves away from zero. */
  function Nearest(v: real): int {
    if v >= 0.0 then (v + 0.5).Floor else -((-v + 0.5).Floor)
  }

  /** Random rounding: down, or up if there is a positive fraction. */
  predicate RoundsTo(v: real, n: int) {
    n == Trunc(v) || (n == Trunc(v) + 1 && v > Trunc(v) as real)
  }

  /** Any outcome of the dice. */
  method RoundAvg(v: real) returns (n: int)
    ensures RoundsTo(v, n)
  {
    assert RoundsTo(v, Trunc(v));
    n :| RoundsTo(v, n);
  }

  /** A whole number cut to 16 bits. */
  function AsI16(n: int): int {
    (n + 32768) % 65536 - 32768
  }

  lemma {:induction false} FitsI16(n: int)
    requires -32768 <= n <= 32767
    ensures AsI16(n) == n
  {}

  /** No outcome leaves the whole bounds of what is rounded. */
  lemma {:induction false} RoundsWithin(v: real, low: int, high: int, n: int)
    requires low as real <= v <= high as real && RoundsTo(v, n)
    ensures low <= n <= high
  {}

  lemma {:induction false} NearestWithin(v: real, low: int, high: int)
    requires low as real <= v <= high as real
    ensures low <= Nearest(v) <= high
  {}
}
