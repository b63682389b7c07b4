/** Rounding to the nearest integer, ties to the even one: what amounts and doubles are rounded by. */
module Rounding {
  /** Python's `round` on one argument: to the nearest integer, ties to the even one. */
  function RoundHalfEven(x: real): (r: int) {
    var f := x.Floor;
    var d := x - f as real;
    if d < 0.5 then f
    else if d > 0.5 then f + 1
    else if f % 2 == 0 then f else f + 1
  }

  /** Nearest integer, the even one of two equally near. */
  predicate NearestEven(n: int, x: real) {
    -0.5 <= n as real - x <= 0.5 && (n as real - x == 0.5 || n as real - x == -0.5 ==> n % 2 == 0)
  }

  /** Rounding gives the nearest integer, ties to even, and no other integer qualifies. */
  lemma RoundIsNearest(n: int, x: real)
    ensures n == RoundHalfEven(x) <==> NearestEven(n, x)
  {
    var f, d := x.Floor, x - x.Floor as real;
    assert 0.0 <= d < 1.0;
    if NearestEven(n, x) {
      assert n == f || n == f + 1;
    }
  }

  lemma RoundMonotone(x: real, y: real)
    requires x <= y
    ensures RoundHalfEven(x) <= RoundHalfEven(y)
  {
    assert x.Floor <= y.Floor;
  }

  lemma RoundWhole(n: int)
    ensures RoundHalfEven(n as real) == n
  {
    assert (n as real).Floor == n;
  }
}
