/** Rounding to a number of places, ties to even, in exact arithmetic. */
module Rounding {

  function RoundEven(x: real): int {
    var f := x.Floor;
    var rest := x - f as real;
    if rest < 0.5 then f
    else if rest > 0.5 then f + 1
    else if f % 2 == 0 then f
    else f + 1
  }

  /** A larger number never rounds to a smaller one. */
  lemma RoundEvenMonotone(x: real, y: real)
    requires x <= y
    ensures RoundEven(x) <= RoundEven(y)
  {
    assert x.Floor <= y.Floor;
    if x.Floor < y.Floor {
      assert RoundEven(x) <= x.Floor + 1 <= y.Floor <= RoundEven(y);
    }
  }

  function Round1(x: real): real {
    RoundEven(x * 10.0) as real / 10.0
  }

  function Round3(x: real): real {
    RoundEven(x * 1000.0) as real / 1000.0
  }

  lemma Round1Monotone(x: real, y: real)
    requires x <= y
    ensures Round1(x) <= Round1(y)
  {
    RoundEvenMonotone(x * 10.0, y * 10.0);
  }

  lemma Round3Monotone(x: real, y: real)
    requires x <= y
    ensures Round3(x) <= Round3(y)
  {
    RoundEvenMonotone(x * 1000.0, y * 1000.0);
  }

  /** A number with at most one place after the point. */
  predicate OnePlace(x: real) {
    (x * 10.0).Floor as real == x * 10.0
  }

  lemma RoundEvenNear(x: real)
    ensures -0.5 <= RoundEven(x) as real - x <= 0.5
  {
  }

  /** Rounding moves a number by at most half a unit of the last place. */
  lemma Round1Near(x: real)
    ensures -0.05 <= Round1(x) - x <= 0.05
  {
    RoundEvenNear(x * 10.0);
  }

  /** Rounding gives a number with one place, and leaves such a number as it is. */
  lemma Round1IsOnePlace(x: real)
    ensures OnePlace(Round1(x))
    ensures OnePlace(x) ==> Round1(x) == x
  {
    assert Round1(x) * 10.0 == RoundEven(x * 10.0) as real;
  }

  lemma RoundEvenShifts(x: real, n: int)
    ensures RoundEven(x + (2 * n) as real) == RoundEven(x) + 2 * n
  {
    assert (x + (2 * n) as real).Floor == x.Floor + 2 * n;
  }

  /** An even number of tenths passes through the rounding, ties included. */
  lemma Round1Shifts(x: real, n: int)
    ensures Round1(x + n as real / 5.0) == Round1(x) + n as real / 5.0
  {
    RoundEvenShifts(x * 10.0, n);
    assert (x + n as real / 5.0) * 10.0 == x * 10.0 + (2 * n) as real;
  }
}
