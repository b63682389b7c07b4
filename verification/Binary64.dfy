/** Rounding to a double: the nearest number of 53 bits, ties to even, down to the subnormal 2^-1074. */
module Binary64 {
  import opened Numbers
  import opened Floats
  import opened Rounding

  const BITS52: real := 4503599627370496.0
  const BITS53: real := 9007199254740992.0

  /** Doubles x until it has its 53 bits before the point, at most `e` times. */
  function Down(x: real, e: nat): (r: real)
    decreases e
  {
    if x < BITS52 && e > 0 then Down(2.0 * x, e - 1) / 2.0 else RoundHalfEven(x) as real
  }

  /** Halves x until no more than 53 bits stand before the point. */
  function Up(x: real): (r: real)
    decreases x.Floor
  {
    if x >= BITS53 then 2.0 * Up(x / 2.0) else RoundHalfEven(x) as real
  }

  /** Magnitudes past the largest double are not cut off: infinities are not part of this model. */
  function Nearest(x: real): (r: real) {
    var a := AbsReal(x);
    var r := if a < BITS53 then Down(a, 1074) else Up(a);
    if x < 0.0 then -r else r
  }

  /** x times two to the power of k, and r divided by it. */
  function Times(x: real, k: nat): (r: real)
    decreases k
  {
    if k == 0 then x else Times(2.0 * x, k - 1)
  }

  function Over(r: real, k: nat): (x: real) {
    if k == 0 then r else Over(r, k - 1) / 2.0
  }

  lemma {:induction false} TimesGrows(x: real, k: nat)
    requires x >= 0.0
    ensures Times(x, k) >= x
    decreases k
  {
    if k > 0 {
      TimesGrows(2.0 * x, k - 1);
    }
  }

  // ----- what is a double -------------------------------------------------------------------------------

  /** From 2^52 on only whole numbers have 53 bits. */
  lemma KeptInteger(x: real, k: nat)
    requires IsInteger(Times(x, k)) && Times(x, k) <= BITS53 && (x >= BITS52 || k == 0)
    ensures IsInteger(x)
  {
    if k == 1 {
      assert Times(x, 1) == Times(2.0 * x, 0) == 2.0 * x;
    } else if k > 1 {
      TimesFour(x, k);
    }
  }

  lemma TimesFour(x: real, k: nat)
    requires x >= 0.0 && k > 1
    ensures Times(x, k) >= 4.0 * x
  {
    assert Times(x, k) == Times(2.0 * x, k - 1) == Times(4.0 * x, k - 2);
    TimesGrows(4.0 * x, k - 2);
  }

  lemma IntegerTwice(x: real)
    requires IsInteger(x)
    ensures IsInteger(2.0 * x)
  {
    assert 2.0 * x == (2 * x.Floor) as real;
  }

  lemma DownStops(x: real, e: nat)
    requires IsInteger(x) && (x >= BITS52 || e == 0)
    ensures Down(x, e) == x
  {
    RoundWhole(x.Floor);
  }

  lemma {:induction false} DownKeeps(x: real, k: nat, e: nat)
    requires k <= e && IsInteger(Times(x, k)) && Times(x, k) <= BITS53
    ensures Down(x, e) == x
    decreases e
  {
    hide IsInteger, RoundHalfEven;
    if x < BITS52 && e > 0 {
      if k > 0 {
        DownKeeps(2.0 * x, k - 1, e - 1);
      } else {
        IntegerTwice(x);
        DownKeeps(2.0 * x, 0, e - 1);
      }
    } else {
      KeptInteger(x, k);
      DownStops(x, e);
    }
  }

  /** Multiples of 2^-k below 2^53 of them, for k up to 1074, are doubles, and so are their opposites. */
  lemma Dyadic(x: real, k: nat)
    requires k <= 1074 && IsInteger(Times(AbsReal(x), k)) && Times(AbsReal(x), k) <= BITS53
    ensures Nearest(x) == x
  {
    hide Down, Times;
    var a := AbsReal(x);
    if a < BITS53 {
      DownKeeps(a, k, 1074);
    } else {
      TimesGrows(a, k);
      assert a == BITS53;
      UpKeeps();
    }
  }

  lemma UpKeeps()
    ensures Up(BITS53) == BITS53
  {
    assert BITS53 / 2.0 == BITS52;
    RoundWhole(4503599627370496);
  }

  lemma NearestKeepsIntegers(digits: Double64 -> Double)
    ensures KeepsIntegers(Arithmetic(Nearest, digits))
  {
    hide Nearest;
    forall x: real | IsInteger(x) && AbsReal(x) <= SAFE as real ensures Nearest(x) == x {
      assert -x == (-x.Floor) as real;
      Dyadic(x, 0);
    }
  }

  // ----- rounding to 53 bits ----------------------------------------------------------------------------

  lemma {:induction false} DownRounds(x: real, k: nat, e: nat)
    requires 0.0 <= x && k <= e && Times(x, k) >= BITS52 && (k > 0 ==> Times(x, k - 1) < BITS52)
    ensures Down(x, e) == Over(RoundHalfEven(Times(x, k)) as real, k)
    decreases k
  {
    hide RoundHalfEven;
    if k > 0 {
      TimesGrows(x, k - 1);
      DownRounds(2.0 * x, k - 1, e - 1);
    }
  }

  /** With k bits after the point 53 in all, x is rounded to the nearest multiple of 2^-k. */
  lemma Rounds(x: real, k: nat)
    requires 0.0 <= x < BITS53 && k <= 1074 && Times(x, k) >= BITS52 && (k > 0 ==> Times(x, k - 1) < BITS52)
    ensures Nearest(x) == Over(RoundHalfEven(Times(x, k)) as real, k)
  {
    hide Down, RoundHalfEven, Times;
    DownRounds(x, k, 1074);
  }
}
