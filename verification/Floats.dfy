/** Sums of doubles as the two runtimes compute them, over any rounding: the compensated builtin, and the plain fold. */
module Floats {
  import opened Numbers

  /** A finite double: its value, and its sign bit, which matters only for a zero. */
  datatype Double64 = Double64(value: real, negative: bool)

  const NOUGHT: Double64 := Double64(0.0, false)
  const ONE: Double64 := Double64(1.0, false)

  /** How a real is rounded to a double, and the shortest digits that read back as one; the same on both sides. */
  datatype Arithmetic = Arithmetic(round: real -> real, digits: Double64 -> Double)

  /** The double nearest to an exact result; `zero` is the sign of an exact zero. */
  function Rounded(ar: Arithmetic, exact: real, zero: bool): (r: Double64) {
    var v := ar.round(exact);
    Double64(v, if v != 0.0 then v < 0.0 else if exact != 0.0 then exact < 0.0 else zero)
  }

  function Of(ar: Arithmetic, x: real): (r: Double64) {
    Rounded(ar, x, false)
  }

  function Add(ar: Arithmetic, a: Double64, b: Double64): (r: Double64) {
    Rounded(ar, a.value + b.value, a.negative && b.negative)
  }

  function Sub(ar: Arithmetic, a: Double64, b: Double64): (r: Double64) {
    Add(ar, a, Double64(-b.value, !b.negative))
  }

  function Product(a: real, b: real): (r: real) {
    a * b
  }

  function Quotient(a: real, b: real): (r: real)
    requires b != 0.0
  {
    a / b
  }

  function Mul(ar: Arithmetic, a: Double64, b: Double64): (r: Double64) {
    Rounded(ar, Product(a.value, b.value), a.negative != b.negative)
  }

  function Div(ar: Arithmetic, a: Double64, b: Double64): (r: Double64)
    requires b.value != 0.0
  {
    Rounded(ar, Quotient(a.value, b.value), a.negative != b.negative)
  }

  function AbsValue(a: Double64): (v: real) {
    if a.value < 0.0 then -a.value else a.value
  }

  // ----- the two sums -----------------------------------------------------------------------------------

  /** `reduce((s, x) => s + x, 0)`. */
  function PlainSum(ar: Arithmetic, xs: seq<Double64>): (r: Double64) {
    if xs == [] then NOUGHT else Add(ar, PlainSum(ar, xs[..|xs| - 1]), xs[|xs| - 1])
  }

  /** What an addition to the running total loses, as Neumaier's algorithm computes it. */
  function Lost(ar: Arithmetic, total: Double64, x: Double64): (r: Double64) {
    var t := Add(ar, total, x);
    if AbsValue(total) >= AbsValue(x) then Add(ar, Sub(ar, total, t), x) else Add(ar, Sub(ar, x, t), total)
  }

  /** The compensation after the sum: the first item is added to the int zero before it starts. */
  function Compensation(ar: Arithmetic, xs: seq<Double64>): (c: Double64) {
    if |xs| <= 1 then NOUGHT else
      var front, last := xs[..|xs| - 1], xs[|xs| - 1];
      Add(ar, Compensation(ar, front), Lost(ar, PlainSum(ar, front), last))
  }

  /** The builtin `sum` of CPython from version 3.12 on: the running total is the plain one, corrected at the end. */
  function BuiltinSum(ar: Arithmetic, xs: seq<Double64>): (r: Double64) {
    var total, c := PlainSum(ar, xs), Compensation(ar, xs);
    if c.value != 0.0 then Add(ar, total, c) else total
  }

  /** The correction is nothing, or is lost when it is added. */
  predicate NoCorrection(ar: Arithmetic, xs: seq<Double64>) {
    var total, c := PlainSum(ar, xs), Compensation(ar, xs);
    c.value == 0.0 || Add(ar, total, c) == total
  }

  /** The two sums are the same exactly without a correction. */
  lemma SumsAgree(ar: Arithmetic, xs: seq<Double64>)
    ensures BuiltinSum(ar, xs) == PlainSum(ar, xs) <==> NoCorrection(ar, xs)
  {
  }

  /** CPython's loop: the total, and the compensation kept beside it. */
  method SumFloats(ar: Arithmetic, xs: seq<Double64>) returns (r: Double64)
    ensures r == BuiltinSum(ar, xs)
  {
    if xs == [] {
      return NOUGHT;
    }
    var total, c := Add(ar, NOUGHT, xs[0]), NOUGHT;
    assert xs[..1][..0] == [];
    for i := 1 to |xs|
      invariant total == PlainSum(ar, xs[..i]) && c == Compensation(ar, xs[..i])
    {
      assert xs[..i + 1][..i] == xs[..i];
      var x := xs[i];
      var t := Add(ar, total, x);
      if AbsValue(total) >= AbsValue(x) {
        c := Add(ar, c, Add(ar, Sub(ar, total, t), x));
      } else {
        c := Add(ar, c, Add(ar, Sub(ar, x, t), total));
      }
      total := t;
    }
    assert xs[..|xs|] == xs;
    if c.value != 0.0 {
      total := Add(ar, total, c);
    }
    return total;
  }

  // ----- exact sums -------------------------------------------------------------------------------------

  function Total(xs: seq<Double64>): (r: real) {
    if xs == [] then 0.0 else Total(xs[..|xs| - 1]) + xs[|xs| - 1].value
  }

  /** The double itself and its opposite are not rounded. */
  predicate Fits(ar: Arithmetic, x: real) {
    ar.round(x) == x && ar.round(-x) == -x
  }

  /** Every item and every partial sum is a double. */
  predicate ExactSum(ar: Arithmetic, xs: seq<Double64>) {
    if xs == [] then ar.round(0.0) == 0.0 else
      && ExactSum(ar, xs[..|xs| - 1])
      && Fits(ar, xs[|xs| - 1].value) && Fits(ar, Total(xs))
  }

  /** An exact sum needs no correction, on either side. */
  lemma {:induction false} ExactAgrees(ar: Arithmetic, xs: seq<Double64>)
    requires ExactSum(ar, xs)
    ensures PlainSum(ar, xs).value == Total(xs) && Compensation(ar, xs).value == 0.0
    ensures BuiltinSum(ar, xs) == PlainSum(ar, xs) && ar.round(0.0) == 0.0
  {
    if xs != [] {
      ExactAgrees(ar, xs[..|xs| - 1]);
      if |xs| > 1 {
        LostNothing(ar, PlainSum(ar, xs[..|xs| - 1]), xs[|xs| - 1]);
      }
    }
  }

  lemma LostNothing(ar: Arithmetic, total: Double64, x: Double64)
    requires ar.round(0.0) == 0.0 && Fits(ar, x.value) && ar.round(total.value + x.value) == total.value + x.value
    requires ar.round(-total.value) == -total.value
    ensures Lost(ar, total, x).value == 0.0
  {
  }

  // ----- whole numbers ----------------------------------------------------------------------------------

  const SAFE: int := 0x20_0000_0000_0000

  predicate IsInteger(x: real) {
    x == x.Floor as real
  }

  function AbsReal(x: real): (r: real) {
    if x < 0.0 then -x else x
  }

  /** Whole numbers up to 2^53 are doubles. */
  ghost predicate KeepsIntegers(ar: Arithmetic) {
    forall x: real | IsInteger(x) && AbsReal(x) <= SAFE as real :: ar.round(x) == x
  }

  function AbsTotal(xs: seq<Double64>): (r: real)
    ensures r >= 0.0
  {
    if xs == [] then 0.0 else AbsTotal(xs[..|xs| - 1]) + AbsReal(xs[|xs| - 1].value)
  }

  lemma IntegerFits(ar: Arithmetic, x: real)
    requires KeepsIntegers(ar) && IsInteger(x) && AbsReal(x) <= SAFE as real
    ensures Fits(ar, x)
  {
    OppositeInteger(x);
  }

  lemma OppositeInteger(x: real)
    requires IsInteger(x)
    ensures IsInteger(-x)
  {
    assert -x == (-x.Floor) as real;
  }

  /** Whole items whose magnitudes sum up to no more than 2^53 are summed exactly. */
  lemma {:induction false} IntegersExact(ar: Arithmetic, xs: seq<Double64>)
    requires KeepsIntegers(ar) && (forall x <- xs :: IsInteger(x.value)) && AbsTotal(xs) <= SAFE as real
    ensures ExactSum(ar, xs) && IsInteger(Total(xs)) && AbsReal(Total(xs)) <= AbsTotal(xs)
  {
    if xs == [] {
      assert IsInteger(0.0);
    } else {
      var front, last := xs[..|xs| - 1], xs[|xs| - 1];
      assert forall x <- front :: x in xs;
      IntegersExact(ar, front);
      IntegerSum(Total(front), last.value);
      IntegerFits(ar, last.value);
      IntegerFits(ar, Total(xs));
    }
  }

  lemma IntegerSum(a: real, b: real)
    requires IsInteger(a) && IsInteger(b)
    ensures IsInteger(a + b)
  {
    assert a + b == (a.Floor + b.Floor) as real;
  }

  // ----- digits -----------------------------------------------------------------------------------------

  /** The signed value of digits. */
  function Signed10(x: Decimal): (v: real) {
    if x.negative then -Magnitude(x) else Magnitude(x)
  }

  /** The digits of a double read back as it, and those of a zero show its sign. */
  ghost predicate ReadsBack(ar: Arithmetic) {
    && (forall x: real, negative: bool ::
          ar.round(Signed10(ar.digits(Double64(ar.round(x), negative)))) == ar.round(x))
    && (forall x: Double64 :: ar.digits(x).Zero? <==> x.value == 0.0)
    && (forall negative: bool :: ar.digits(Double64(0.0, negative)) == Zero(negative))
  }

  /** Two results whose digits the port shows alike have the same value. */
  lemma DigitsTell(ar: Arithmetic, x: real, a: bool, y: real, b: bool)
    requires ReadsBack(ar)
    requires Shown(ar.digits(Double64(ar.round(x), a))) == Shown(ar.digits(Double64(ar.round(y), b)))
    ensures ar.round(x) == ar.round(y)
  {
    hide Magnitude;
    var p, q := ar.digits(Double64(ar.round(x), a)), ar.digits(Double64(ar.round(y), b));
    if p.Zero? {
      assert q.Zero?;
    } else {
      assert p == q;
      assert ar.round(Signed10(p)) == ar.round(x) && ar.round(Signed10(q)) == ar.round(y);
    }
  }

  /** A result of an operation: rounded, with the sign of its value. */
  predicate IsRounded(ar: Arithmetic, exact: real, d: Double64) {
    d.value == ar.round(exact) && (d.value != 0.0 ==> d.negative == (d.value < 0.0))
  }

  /** Unless the first is a negative zero, the port shows its digits for the second exactly if the two are equal. */
  lemma SameDigits(ar: Arithmetic, x: real, a: Double64, y: real, b: Double64)
    requires ReadsBack(ar) && IsRounded(ar, x, a) && IsRounded(ar, y, b) && ar.digits(a) != Zero(true)
    ensures ar.digits(a) == Shown(ar.digits(b)) <==> a.value == b.value
  {
    if ar.digits(a) == Shown(ar.digits(b)) {
      assert Shown(ar.digits(a)) == ar.digits(a);
      DigitsTell(ar, x, a.negative, y, b.negative);
    }
    if a.value == b.value {
      assert a.value != 0.0 ==> a == b;
    }
  }

  /** The port's numbers: an int is held as the nearest double. */
  function JsOf(ar: Arithmetic): (js: Js) {
    var nearest: int -> Double := (n: int) => ar.digits(Of(ar, n as real));
    JavaScript(nearest)
  }

  /** Up to 2^53 the digits of a whole double are those of the number. */
  ghost predicate WritesIntegers(ar: Arithmetic) {
    KeepsIntegers(ar) && forall n: int | -SAFE <= n <= SAFE :: JsOf(ar).nearest(n) == DecimalOf(n)
  }
}
