/** Rounding and clamping, and the order facts everything priced from risk rests on. */
module Numeric {
  import opened Constants

  function Min(a: int, b: int): int { if a <= b then a else b }

  function Max(a: int, b: int): int { if a >= b then a else b }

  function ClampBondBps(value: int): int {
    Max(0, Min(MAX_PROVIDER_BOND_BPS, value))
  }

  function ClampDuration(value: int): int {
    Max(1, Min(MAX_DURATION, value))
  }

  /** Risk is clamped to this interval before it is spent on anything. */
  function ClampRisk(risk: real): (r: real)
    ensures 0.0 <= r <= 1.0
  {
    if risk < 0.0 then 0.0 else if risk > 1.0 then 1.0 else risk
  }

  /** Half away from zero, which is what Python's `ROUND_HALF_UP` does to either sign. */
  function RoundHalfUp(value: real): int {
    if value >= 0.0 then (value + 0.5).Floor else -((0.5 - value).Floor)
  }

  /** The rounded value is never more than half a unit away, and a tie goes away from zero. */
  lemma RoundIsNearest(value: real)
    ensures var r := RoundHalfUp(value) as real;
      && -0.5 <= r - value <= 0.5
      && (r - value == 0.5 ==> value > 0.0)
      && (r - value == -0.5 ==> value < 0.0)
  {
  }

  lemma RoundMonotone(a: real, b: real)
    requires a <= b
    ensures RoundHalfUp(a) <= RoundHalfUp(b)
  {
  }

  lemma ScaleMonotone(a: real, b: real, factor: real)
    requires a <= b && 0.0 <= factor
    ensures a * factor <= b * factor
  {
  }

  /** The rounded share of a sensitivity grows with risk when the sensitivity is non-negative. */
  lemma RoundScaleMonotone(a: real, b: real, factor: real)
    requires a <= b && 0.0 <= factor
    ensures RoundHalfUp(a * factor) <= RoundHalfUp(b * factor)
  {
  }

  /** ... and falls when it is not. */
  lemma RoundScaleAntitone(a: real, b: real, factor: real)
    requires a <= b && factor <= 0.0
    ensures RoundHalfUp(b * factor) <= RoundHalfUp(a * factor)
  {
  }

  /** A share of a non-negative whole number never rounds below zero or past the whole. */
  lemma RoundShareBounds(share: real, whole: int)
    requires 0.0 <= share <= 1.0 && 0 <= whole
    ensures 0 <= RoundHalfUp(share * whole as real) <= whole
  {
    ScaleMonotone(0.0, share, whole as real);
    ScaleMonotone(share, 1.0, whole as real);
    RoundMonotone(0.0, share * whole as real);
    RoundMonotone(share * whole as real, whole as real);
    assert RoundHalfUp(whole as real) == whole;
  }

  /** What a risk is rounded to before anybody is shown it: four places. */
  function DisplayedRisk(risk: real): (shown: real)
    requires 0.0 <= risk <= 1.0
    ensures 0.0 <= shown <= 1.0
  {
    RoundShareBounds(risk, 10_000);
    RoundHalfUp(risk * 10_000 as real) as real / 10_000.0
  }

  /** A part is no larger than the whole. */
  lemma SubsetIsNoLarger<T>(a: set<T>, b: set<T>)
    requires a <= b
    ensures |a| <= |b|
  {
    assert b == a + (b - a);
  }
}
