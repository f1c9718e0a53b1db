/** Decimal rounding as Python's `round(x, n)` does it, over the reals: the nearest
    multiple of the unit, and the even one of two equally near multiples. */
module Rounding {

  const HALF_MICRO: real := 0.0000005

  /** The integer nearest to x; of two equally near integers, the even one. */
  function RoundHalfEven(x: real): (r: int)
    ensures x - 0.5 <= r as real <= x + 0.5
  {
    var below := x.Floor;
    var fraction := x - below as real;
    if fraction < 0.5 then below
    else if fraction > 0.5 then below + 1
    else if below % 2 == 0 then below
    else below + 1
  }

  /** `round(x, 6)`: the unit of stored money, quantities and ratios. */
  function Round6(x: real): (r: real)
    ensures x - HALF_MICRO <= r <= x + HALF_MICRO
  {
    RoundHalfEven(x * 1000000.0) as real / 1000000.0
  }

  /** `round(x, 4)`: the unit of Strat prices. */
  function Round4(x: real): (r: real)
    ensures x - 0.00005 <= r <= x + 0.00005
  {
    RoundHalfEven(x * 10000.0) as real / 10000.0
  }

  /** x is what so many roundings to six decimals may make of y. */
  predicate Near(x: real, y: real, roundings: nat) {
    y - roundings as real * HALF_MICRO <= x <= y + roundings as real * HALF_MICRO
  }

  /** x is y rounded to four decimals, whichever way. */
  predicate Near4(x: real, y: real) {
    y - 0.00005 <= x <= y + 0.00005
  }

  /** x is a multiple of 0.000001. */
  predicate OnGrid(x: real) {
    (x * 1000000.0).Floor as real == x * 1000000.0
  }

  // ----- order, symmetry and uniqueness of the nearest integer

  lemma RoundHalfEvenMonotone(x: real, y: real)
    requires x <= y
    ensures RoundHalfEven(x) <= RoundHalfEven(y)
  {
    assert x.Floor <= y.Floor;
  }

  lemma RoundHalfEvenOdd(x: real)
    ensures RoundHalfEven(-x) == -RoundHalfEven(x)
  {
    if x == x.Floor as real {
      assert (-x).Floor == -x.Floor;
    } else {
      assert (-x).Floor == -x.Floor - 1;
    }
  }

  lemma RoundHalfEvenInteger(n: int)
    ensures RoundHalfEven(n as real) == n
  {
  }

  // ----- six decimals

  lemma Round6Monotone(x: real, y: real)
    requires x <= y
    ensures Round6(x) <= Round6(y)
  {
    RoundHalfEvenMonotone(x * 1000000.0, y * 1000000.0);
  }

  lemma Round6OnGrid(x: real)
    ensures OnGrid(Round6(x))
  {
    var n := RoundHalfEven(x * 1000000.0);
    assert Round6(x) * 1000000.0 == n as real;
  }

  lemma Round6Identity(x: real)
    requires OnGrid(x)
    ensures Round6(x) == x
  {
    RoundHalfEvenInteger((x * 1000000.0).Floor);
  }

  lemma GridAdd(x: real, y: real)
    requires OnGrid(x) && OnGrid(y)
    ensures OnGrid(x + y)
  {
    var n := (x * 1000000.0).Floor + (y * 1000000.0).Floor;
    assert (x + y) * 1000000.0 == n as real;
  }

  lemma GridSub(x: real, y: real)
    requires OnGrid(x) && OnGrid(y)
    ensures OnGrid(x - y)
  {
    var n := (x * 1000000.0).Floor - (y * 1000000.0).Floor;
    assert (x - y) * 1000000.0 == n as real;
  }

  lemma GridTimesInt(x: real, n: int)
    requires OnGrid(x)
    ensures OnGrid(x * n as real)
  {
    var m := (x * 1000000.0).Floor;
    assert m as real * n as real == (m * n) as real;
    assert (x * n as real) * 1000000.0 == (x * 1000000.0) * n as real;
    assert (x * n as real) * 1000000.0 == (m * n) as real;
  }

  /** Adding a rounded amount to a grid amount stays on the grid: rounding the sum again
      changes nothing. */
  lemma GridAddRounded(x: real, y: real)
    requires OnGrid(x)
    ensures OnGrid(x + Round6(y)) && Round6(x + Round6(y)) == x + Round6(y)
  {
    Round6OnGrid(y);
    GridAdd(x, Round6(y));
    Round6Identity(x + Round6(y));
  }

  lemma GridSubExact(x: real, y: real)
    requires OnGrid(x) && OnGrid(y)
    ensures OnGrid(x - y) && Round6(x - y) == x - y
  {
    GridSub(x, y);
    Round6Identity(x - y);
  }

  lemma GridAddExact(x: real, y: real)
    requires OnGrid(x) && OnGrid(y)
    ensures OnGrid(x + y) && Round6(x + y) == x + y
  {
    GridAdd(x, y);
    Round6Identity(x + y);
  }

  /** A positive multiple of the unit is at least the unit. */
  lemma GridPositive(x: real)
    requires OnGrid(x) && x > 0.0
    ensures x >= 0.000001
  {
    assert (x * 1000000.0).Floor >= 1;
  }

  // ----- four decimals

  lemma Round4Odd(x: real)
    ensures Round4(-x) == -Round4(x)
  {
    RoundHalfEvenOdd(x * 10000.0);
    assert (-x) * 10000.0 == -(x * 10000.0);
  }
}
