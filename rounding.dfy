/**
 * The integer rounding the controller uses: Python's `round` (half to even),
 * `round(x, 3)` and `math.ceil`, stated on exact reals.
 */
module Rounding {

  /** Python's `round(x)`: nearest integer, ties to the even neighbour. */
  function RoundHalfEven(x: real): (r: int)
    ensures x - 1.0 / 2.0 <= r as real <= x + 1.0 / 2.0
  {
    var f := x.Floor;
    var frac := x - f as real;
    if frac < 1.0 / 2.0 then f
    else if frac > 1.0 / 2.0 then f + 1
    else if f % 2 == 0 then f
    else f + 1
  }

  /** Rounding never leaves a closed integer interval that contains its argument. */
  lemma RoundHalfEvenWithin(x: real, lo: int, hi: int)
    requires lo as real <= x <= hi as real
    ensures lo <= RoundHalfEven(x) <= hi
  {
    var f := x.Floor;
    assert lo <= f <= hi;
    if f == hi {
      assert x == hi as real;
    }
  }

  /** Rounding fixes every integer. */
  lemma RoundHalfEvenOfInt(n: int)
    ensures RoundHalfEven(n as real) == n
  {
    assert (n as real).Floor == n;
  }

  /** Python's `round(x, 3)`: the nearest multiple of 1/1000, ties to even. */
  function Round3(x: real): (r: real)
    ensures x - 1.0 / 2000.0 <= r <= x + 1.0 / 2000.0
  {
    RoundHalfEven(x * 1000.0) as real / 1000.0
  }

  /** Python's `math.ceil`: the least integer not below `x`. */
  function Ceil(x: real): (n: int)
    ensures x <= n as real < x + 1.0
  {
    var f := x.Floor;
    if f as real == x then f else f + 1
  }
}
