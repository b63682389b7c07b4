/** A submission whose weighted score the service and the port store as different doubles, in the last bit. */
module LastDigit {
  import opened Model
  import opened Numbers
  import opened Rounding
  import opened Floats
  import opened Binary64
  import opened Weighing
  import Bodies
  import Grading
  import Json
  import Rows

  /** Weights 0.5, 0.3 and 0.2, scored 1, 1 and 2. */
  const CRITERIA: seq<Criterion> := [Criterion("a", 0.5, 1, 5), Criterion("b", 0.3, 1, 5), Criterion("c", 0.2, 1, 5)]
  const SCORES: ScoreSheet := map["a" := 1.0, "b" := 1.0, "c" := 2.0]

  /** Multiples of 2^-54, the last bit of doubles between a quarter and a half. */
  const UNITS: real := 18014398509481984.0

  function Ticks(n: int): (r: real) {
    n as real / UNITS
  }

  // ----- powers of two -----------------------------------------------------------------------------------

  lemma {:induction false} TimesSum(x: real, j: nat, k: nat)
    ensures Times(x, j + k) == Times(Times(x, j), k)
    decreases j
  {
    if j > 0 {
      TimesSum(2.0 * x, j - 1, k);
    }
  }

  lemma {:induction false} OverSum(r: real, j: nat, k: nat)
    ensures Over(r, j + k) == Over(Over(r, j), k)
  {
    if k > 0 {
      OverSum(r, j, k - 1);
    }
  }

  lemma TimesFive(x: real)
    ensures Times(x, 5) == 32.0 * x
  {
    assert Times(x, 5) == Times(2.0 * x, 4) == Times(4.0 * x, 3) == Times(8.0 * x, 2) == Times(16.0 * x, 1);
  }

  lemma OverFive(r: real)
    ensures Over(r, 5) == r / 32.0
  {
    assert Over(r, 1) == r / 2.0;
    assert Over(r, 2) == r / 4.0;
    assert Over(r, 3) == r / 8.0;
    assert Over(r, 4) == r / 16.0;
  }

  lemma TimesTwentyFive(x: real)
    ensures Times(x, 25) == 33554432.0 * x
  {
    hide Times;
    TimesFive(x);
    TimesSum(x, 5, 5);
    TimesFive(32.0 * x);
    TimesSum(x, 10, 5);
    TimesFive(1024.0 * x);
    TimesSum(x, 15, 5);
    TimesFive(32768.0 * x);
    TimesSum(x, 20, 5);
    TimesFive(1048576.0 * x);
  }

  lemma OverTwentyFive(r: real)
    ensures Over(r, 25) == r / 33554432.0
  {
    hide Over;
    OverFive(r);
    OverSum(r, 5, 5);
    OverFive(r / 32.0);
    OverSum(r, 10, 5);
    OverFive(r / 1024.0);
    OverSum(r, 15, 5);
    OverFive(r / 32768.0);
    OverSum(r, 20, 5);
    OverFive(r / 1048576.0);
  }

  /** From the fiftieth to the fifty-fifth power. */
  lemma TimesFifty(x: real)
    ensures Times(x, 51) == 2251799813685248.0 * x && Times(x, 52) == 4503599627370496.0 * x
    ensures Times(x, 53) == 9007199254740992.0 * x && Times(x, 54) == 18014398509481984.0 * x
    ensures Times(x, 55) == 36028797018963968.0 * x
  {
    TimesTwentyFive(x);
    TimesSum(x, 25, 25);
    TimesTwentyFive(33554432.0 * x);
    TimesSum(x, 50, 5);
    var y := 1125899906842624.0 * x;
    assert Times(x, 50) == y;
    TimesFive(y);
    TimesSum(x, 50, 1);
    TimesSum(x, 50, 2);
    TimesSum(x, 50, 3);
    TimesSum(x, 50, 4);
    assert Times(y, 1) == 2.0 * y;
    assert Times(y, 2) == Times(2.0 * y, 1);
    assert Times(y, 3) == Times(2.0 * y, 2) == Times(4.0 * y, 1);
    assert Times(y, 4) == Times(2.0 * y, 3) == Times(4.0 * y, 2) == Times(8.0 * y, 1);
  }

  lemma OverFifty(r: real)
    ensures Over(r, 52) == r / 4503599627370496.0 && Over(r, 53) == r / 9007199254740992.0
    ensures Over(r, 54) == r / 18014398509481984.0 && Over(r, 55) == r / 36028797018963968.0
  {
    OverTwentyFive(r);
    OverSum(r, 25, 25);
    OverTwentyFive(r / 33554432.0);
    assert Over(r, 50) == r / 1125899906842624.0;
    assert Over(r, 51) == r / 2251799813685248.0;
  }

  // ----- rounding multiples of 2^-54 ------------------------------------------------------------------------

  /** Up to 2^53 of them are doubles. */
  lemma Kept(n: int)
    requires -SAFE <= n <= SAFE
    ensures Nearest(Ticks(n)) == Ticks(n)
  {
    hide Nearest, Times;
    var a := AbsReal(Ticks(n));
    TimesFifty(a);
    assert Times(a, 54) == (if n < 0 then -n else n) as real;
    Dyadic(Ticks(n), 54);
  }

  /** Up to 2^54 of them every other one is, and up to 2^55 every fourth: ties go to the even one. */
  lemma Halved(n: int, m: int)
    requires SAFE <= n < 2 * SAFE && NearestEven(m, n as real / 2.0)
    ensures Nearest(Ticks(n)) == Ticks(2 * m)
  {
    hide Nearest, Times, Over, RoundHalfEven;
    TimesFifty(Ticks(n));
    RoundIsNearest(m, n as real / 2.0);
    assert Times(Ticks(n), 53) == n as real / 2.0;
    Rounds(Ticks(n), 53);
    OverFifty(m as real);
  }

  lemma Quartered(n: int, m: int)
    requires 2 * SAFE <= n < 4 * SAFE && NearestEven(m, n as real / 4.0)
    ensures Nearest(Ticks(n)) == Ticks(4 * m)
  {
    hide Nearest, Times, Over, RoundHalfEven;
    TimesFifty(Ticks(n));
    RoundIsNearest(m, n as real / 4.0);
    assert Times(Ticks(n), 52) == n as real / 4.0;
    Rounds(Ticks(n), 52);
    OverFifty(m as real);
  }

  /** 0.3 and 0.2 as doubles. */
  lemma Parsed()
    ensures Nearest(0.5) == Ticks(9007199254740992) == 0.5
    ensures Nearest(0.3) == Ticks(5404319552844595) && Nearest(0.2) == Ticks(3602879701896397)
  {
    hide Nearest, Times, Over, RoundHalfEven;
    Kept(9007199254740992);
    TimesFifty(0.3);
    RoundIsNearest(5404319552844595, 5404319552844595.2);
    Rounds(0.3, 54);
    OverFifty(5404319552844595.0);
    TimesFifty(0.2);
    RoundIsNearest(7205759403792794, 7205759403792793.6);
    Rounds(0.2, 55);
    OverFifty(7205759403792794.0);
  }

  // ----- the sums -------------------------------------------------------------------------------------------

  function Doubles(digits: Double64 -> Double): (ar: Arithmetic) {
    Arithmetic(Nearest, digits)
  }

  function At(n: int): (x: Double64) {
    Double64(Ticks(n), n < 0)
  }

  lemma Added(digits: Double64 -> Double, a: int, b: int, m: int)
    requires Nearest(Ticks(a + b)) == Ticks(m) && (m == 0 ==> a + b == 0 && (a >= 0 || b >= 0))
    ensures Add(Doubles(digits), At(a), At(b)) == At(m)
  {
    hide Nearest;
    assert Ticks(a) + Ticks(b) == Ticks(a + b);
  }

  lemma Exactly(digits: Double64 -> Double, a: int, b: int)
    requires -SAFE <= a + b <= SAFE && (a >= 0 || b >= 0)
    ensures Add(Doubles(digits), At(a), At(b)) == At(a + b)
  {
    hide Nearest, Add;
    Kept(a + b);
    Added(digits, a, b, a + b);
  }

  lemma Opposite(digits: Double64 -> Double, a: int, b: int)
    requires b > 0
    ensures Sub(Doubles(digits), At(a), At(b)) == Add(Doubles(digits), At(a), At(-b))
  {
    hide Nearest, Add;
    assert -Ticks(b) == Ticks(-b);
  }

  /** What adding b to a loses when the total is rounded to t. */
  lemma Loses(digits: Double64 -> Double, a: int, b: int, t: int)
    requires 0 < b <= a <= t && t - a <= SAFE && Nearest(Ticks(a + b)) == Ticks(t)
    requires -SAFE <= a - t + b <= SAFE
    ensures Lost(Doubles(digits), At(a), At(b)) == At(a - t + b)
  {
    hide Nearest, Add, Sub;
    assert Ticks(a) >= Ticks(b) > 0.0;
    Added(digits, a, b, t);
    Opposite(digits, a, t);
    Kept(a - t);
    Added2(digits, a, t);
    Exactly(digits, a - t, b);
  }

  lemma Added2(digits: Double64 -> Double, a: int, t: int)
    requires 0 < a <= t && Nearest(Ticks(a - t)) == Ticks(a - t)
    ensures Add(Doubles(digits), At(a), At(-t)) == At(a - t)
  {
    hide Nearest, Add;
    assert a + -t == a - t;
    Added(digits, a, -t, a - t);
  }

  lemma Three(ar: Arithmetic, a: Double64, b: Double64, c: Double64)
    ensures PlainSum(ar, [a, b, c]) == Add(ar, Add(ar, Add(ar, NOUGHT, a), b), c)
    ensures Compensation(ar, [a, b, c])
         == Add(ar, Add(ar, NOUGHT, Lost(ar, Add(ar, NOUGHT, a), b)), Lost(ar, Add(ar, Add(ar, NOUGHT, a), b), c))
  {
    hide Add, Lost, PlainSum, Compensation;
    assert [a] == [] + [a] && [a, b] == [a] + [b] && [a, b, c] == [a, b] + [c];
    NoItems(ar);
    Appended(ar, [], a);
    Appended(ar, [a], b);
    Appended(ar, [a, b], c);
  }

  lemma NoItems(ar: Arithmetic)
    ensures PlainSum(ar, []) == NOUGHT
  {
  }

  lemma Appended(ar: Arithmetic, xs: seq<Double64>, x: Double64)
    ensures PlainSum(ar, xs + [x]) == Add(ar, PlainSum(ar, xs), x)
    ensures Compensation(ar, xs + [x])
         == if xs == [] then NOUGHT else Add(ar, Compensation(ar, xs), Lost(ar, PlainSum(ar, xs), x))
  {
    assert (xs + [x])[..|xs|] == xs;
  }

  /** The sum of the weights: one on both sides, the two losses cancel. */
  lemma WeightSum(digits: Double64 -> Double)
    ensures var xs := [At(9007199254740992), At(5404319552844595), At(3602879701896397)];
            && PlainSum(Doubles(digits), xs) == At(18014398509481984)
            && BuiltinSum(Doubles(digits), xs) == At(18014398509481984)
  {
    hide Nearest, Add, Lost, PlainSum, Compensation;
    Three(Doubles(digits), At(9007199254740992), At(5404319552844595), At(3602879701896397));
    Exactly(digits, 0, 9007199254740992);
    Halved(14411518807585587, 7205759403792794);
    Added(digits, 9007199254740992, 5404319552844595, 14411518807585588);
    Loses(digits, 9007199254740992, 5404319552844595, 14411518807585588);
    Quartered(18014398509481985, 4503599627370496);
    Added(digits, 14411518807585588, 3602879701896397, 18014398509481984);
    Loses(digits, 14411518807585588, 3602879701896397, 18014398509481984);
    Exactly(digits, 0, -1);
    Exactly(digits, -1, 1);
  }

  /** The sum of the products: the compensated one is the double below. */
  lemma ProductSum(digits: Double64 -> Double)
    ensures var xs := [At(9007199254740992), At(5404319552844595), At(7205759403792794)];
            && PlainSum(Doubles(digits), xs) == At(21617278211378384)
            && BuiltinSum(Doubles(digits), xs) == At(21617278211378380)
  {
    hide Nearest, Add, Lost, PlainSum, Compensation;
    Three(Doubles(digits), At(9007199254740992), At(5404319552844595), At(7205759403792794));
    Exactly(digits, 0, 9007199254740992);
    Halved(14411518807585587, 7205759403792794);
    Added(digits, 9007199254740992, 5404319552844595, 14411518807585588);
    Loses(digits, 9007199254740992, 5404319552844595, 14411518807585588);
    Quartered(21617278211378382, 5404319552844596);
    Added(digits, 14411518807585588, 7205759403792794, 21617278211378384);
    Loses(digits, 14411518807585588, 7205759403792794, 21617278211378384);
    Exactly(digits, 0, -1);
    Kept(-3);
    Negatives(digits, -1, -2);
    Quartered(21617278211378381, 5404319552844595);
    Added(digits, 21617278211378384, -3, 21617278211378380);
  }

  lemma Negatives(digits: Double64 -> Double, a: int, b: int)
    requires a < 0 && b < 0 && Nearest(Ticks(a + b)) == Ticks(a + b)
    ensures Add(Doubles(digits), At(a), At(b)) == At(a + b)
  {
    hide Nearest, Add;
    Added(digits, a, b, a + b);
  }

  // ----- the two scores --------------------------------------------------------------------------------------

  lemma Parts(digits: Double64 -> Double)
    ensures Of(Doubles(digits), 0.5) == At(9007199254740992)
    ensures Of(Doubles(digits), 0.3) == At(5404319552844595) && Of(Doubles(digits), 0.2) == At(3602879701896397)
    ensures Of(Doubles(digits), 1.0) == Double64(1.0, false) && Of(Doubles(digits), 2.0) == Double64(2.0, false)
  {
    hide Nearest;
    Parsed();
    NearestKeepsIntegers(digits);
    assert IsInteger(1.0) && IsInteger(2.0);
    assert Doubles(digits).round(1.0) == 1.0 && Doubles(digits).round(2.0) == 2.0;
  }

  /** Scores of one and two times a weight. */
  lemma Scaled(digits: Double64 -> Double, k: int, n: int)
    requires (k == 1 || k == 2) && 0 < k * n <= SAFE
    ensures Mul(Doubles(digits), Double64(k as real, false), At(n)) == At(k * n)
  {
    hide Nearest;
    Kept(k * n);
    assert Product(k as real, Ticks(n)) == Ticks(k * n);
  }

  lemma Lists(digits: Double64 -> Double)
    ensures Weights(Doubles(digits), CRITERIA)
         == [At(9007199254740992), At(5404319552844595), At(3602879701896397)]
    ensures Products(Doubles(digits), CRITERIA, SCORES)
         == [At(9007199254740992), At(5404319552844595), At(7205759403792794)]
  {
    hide Nearest, Of, Mul, At;
    Parts(digits);
    Scaled(digits, 1, 9007199254740992);
    Scaled(digits, 1, 5404319552844595);
    Scaled(digits, 2, 3602879701896397);
    var a, b, c := CRITERIA[0], CRITERIA[1], CRITERIA[2];
    assert CRITERIA[..2] == [a, b] && [a, b][..1] == [a] && [a][..0] == [];
    assert Weights(Doubles(digits), [a]) == [At(9007199254740992)];
    assert Products(Doubles(digits), [a], SCORES) == [At(9007199254740992)];
    assert Weights(Doubles(digits), [a, b]) == [At(9007199254740992), At(5404319552844595)];
    assert Products(Doubles(digits), [a, b], SCORES) == [At(9007199254740992), At(5404319552844595)];
  }

  lemma OverOne(digits: Double64 -> Double, n: int)
    requires n > 0 && Nearest(Ticks(n)) == Ticks(n)
    ensures OrOne(At(18014398509481984)) == Double64(1.0, false)
    ensures Div(Doubles(digits), At(n), Double64(1.0, false)) == At(n)
  {
    hide Nearest;
    assert Quotient(Ticks(n), 1.0) == Ticks(n);
  }

  /**
   * In doubles the service stores 5404319552844595 / 2^52, which prints 1.2, and the port the next one,
   * 1.2000000000000002.
   */
  lemma ScoresDiffer(digits: Double64 -> Double)
    ensures Grading.ValidScores(CRITERIA, SCORES)
    ensures ServiceScore(Doubles(digits), CRITERIA, SCORES) == At(4 * 5404319552844595)
    ensures PortScore(Doubles(digits), CRITERIA, SCORES) == At(4 * 5404319552844596)
    ensures At(4 * 5404319552844595).value < At(4 * 5404319552844596).value
  {
    hide Nearest, BuiltinSum, PlainSum, Products, Weights, Div, OrOne;
    Lists(digits);
    ProductSum(digits);
    WeightSum(digits);
    Quartered(21617278211378380, 5404319552844595);
    Quartered(21617278211378384, 5404319552844596);
    OverOne(digits, 21617278211378380);
    OverOne(digits, 21617278211378384);
  }

  /** Whatever else the row holds, its two lines differ if digits read back as the doubles they are of. */
  lemma LinesDiffer(digits: Double64 -> Double, c: Rows.Contents)
    requires ReadsBack(Doubles(digits))
    requires c.weighted == digits(ServiceScore(Doubles(digits), CRITERIA, SCORES))
    ensures var js, w := JsOf(Doubles(digits)), digits(PortScore(Doubles(digits), CRITERIA, SCORES));
            Json.Stringify(Python, Rows.Row(Python, c), false)
            != Json.Stringify(js, Rows.Row(js, c.(weighted := w)), false)
  {
    hide Nearest, ServiceScore, PortScore, Json.Stringify, Rows.Row, ReadsBack;
    var ar, x, y := Doubles(digits), 4 * 5404319552844595, 4 * 5404319552844596;
    ScoresDiffer(digits);
    Quartered(x, 5404319552844595);
    Quartered(y, 5404319552844596);
    Bodies.RowsAgree(JsOf(ar), c, digits(At(y)));
    if c.weighted == Shown(digits(At(y))) {
      assert Shown(c.weighted) == Shown(digits(At(y)));
      DigitsTell(ar, Ticks(x), false, Ticks(y), false);
    }
  }

  // ----- a negative zero ---------------------------------------------------------------------------------------

  /** Weights 1 and -2, scored 2 and 1. */
  const OPPOSITE: seq<Criterion> := [Criterion("a", 1.0, 1, 5), Criterion("b", -2.0, 1, 5)]
  const BALANCED: ScoreSheet := map["a" := 2.0, "b" := 1.0]

  lemma SmallIntegers(ar: Arithmetic, x: real)
    requires KeepsIntegers(ar) && (x == 0.0 || x == 1.0 || x == -1.0 || x == 2.0 || x == -2.0)
    ensures ar.round(x) == x
  {
    assert IsInteger(x) && AbsReal(x) <= SAFE as real;
  }

  const ONE_UP: Double64 := Double64(1.0, false)
  const TWO_UP: Double64 := Double64(2.0, false)
  const ONE_DOWN: Double64 := Double64(-1.0, true)
  const TWO_DOWN: Double64 := Double64(-2.0, true)

  lemma BalancedTerms(ar: Arithmetic)
    requires KeepsIntegers(ar)
    ensures Of(ar, 1.0) == ONE_UP && Of(ar, 2.0) == TWO_UP && Of(ar, -2.0) == TWO_DOWN
    ensures Mul(ar, TWO_UP, ONE_UP) == TWO_UP && Mul(ar, ONE_UP, TWO_DOWN) == TWO_DOWN
  {
    hide KeepsIntegers;
    SmallIntegers(ar, 1.0);
    SmallIntegers(ar, 2.0);
    SmallIntegers(ar, -2.0);
    assert Product(2.0, 1.0) == 2.0 && Product(1.0, -2.0) == -2.0;
  }

  lemma BalancedLists(ar: Arithmetic)
    requires KeepsIntegers(ar)
    ensures Weights(ar, OPPOSITE) == [ONE_UP, TWO_DOWN] && Products(ar, OPPOSITE, BALANCED) == [TWO_UP, TWO_DOWN]
  {
    hide KeepsIntegers, Of, Mul;
    BalancedTerms(ar);
    var a, b := OPPOSITE[0], OPPOSITE[1];
    assert OPPOSITE[..1] == [a] && [a][..0] == [];
    assert Weights(ar, [a]) == [ONE_UP] && Products(ar, [a], BALANCED) == [TWO_UP];
  }

  lemma BalancedAdds(ar: Arithmetic)
    requires KeepsIntegers(ar)
    ensures Add(ar, NOUGHT, ONE_UP) == ONE_UP && Add(ar, NOUGHT, TWO_UP) == TWO_UP
    ensures Add(ar, ONE_UP, TWO_DOWN) == ONE_DOWN && Add(ar, TWO_UP, TWO_DOWN) == NOUGHT
    ensures Div(ar, NOUGHT, ONE_DOWN) == Double64(0.0, true)
  {
    hide KeepsIntegers;
    SmallIntegers(ar, 0.0);
    SmallIntegers(ar, 1.0);
    SmallIntegers(ar, -1.0);
    SmallIntegers(ar, 2.0);
    assert Quotient(0.0, -1.0) == 0.0;
  }

  lemma BalancedWhole()
    ensures WholeWeighing(OPPOSITE, BALANCED)
  {
    var a, b := OPPOSITE[0], OPPOSITE[1];
    assert OPPOSITE[..1] == [a] && [a][..0] == [];
    assert Term(a, BALANCED) == 2.0 && Term(b, BALANCED) == -2.0;
    assert ProductSize([a], BALANCED) == 2.0 && WeightSize([a]) == 1.0;
    assert IsInteger(1.0) && IsInteger(2.0) && IsInteger(-2.0);
  }

  /** A sum of zero over a negative total: both sides store a negative zero, and only the service prints its sign. */
  lemma NegativeZero(ar: Arithmetic)
    requires KeepsIntegers(ar)
    ensures Grading.ValidScores(OPPOSITE, BALANCED)
    ensures ServiceScore(ar, OPPOSITE, BALANCED) == PortScore(ar, OPPOSITE, BALANCED) == Double64(0.0, true)
  {
    hide KeepsIntegers, Add, Div, PlainSum, Products, Weights, ServiceScore, WholeWeighing;
    BalancedLists(ar);
    BalancedAdds(ar);
    Pair(ar, ONE_UP, TWO_DOWN);
    Pair(ar, TWO_UP, TWO_DOWN);
    BalancedWhole();
    WholeScores(ar, OPPOSITE, BALANCED);
  }

  lemma Pair(ar: Arithmetic, a: Double64, b: Double64)
    ensures PlainSum(ar, [a, b]) == Add(ar, Add(ar, NOUGHT, a), b)
  {
    hide Add, Lost, PlainSum, Compensation;
    assert [a] == [] + [a] && [a, b] == [a] + [b];
    NoItems(ar);
    Appended(ar, [], a);
    Appended(ar, [a], b);
  }

  // ----- ints past 2^53 --------------------------------------------------------------------------------------

  /** The port reads 2^53 + 1 as 2^53 and prints that. */
  lemma OddInteger(digits: Double64 -> Double)
    requires WritesIntegers(Doubles(digits))
    ensures var js := JsOf(Doubles(digits));
            && NumberText(js, Whole(9007199254740993), false) == Signed(9007199254740992)
            && NumberText(Python, Whole(9007199254740993), false) == Signed(9007199254740993)
            && !PortableNumber(js, Whole(9007199254740993), false)
  {
    hide Nearest, Signed, DecimalOf, FloatText;
    var js := JsOf(Doubles(digits));
    OddNearest();
    NearestKeepsIntegers(digits);
    assert IsInteger(9007199254740992.0);
    assert Nearest(9007199254740992.0) == 9007199254740992.0 by {
      assert Doubles(digits).round(9007199254740992.0) == 9007199254740992.0;
    }
    SameNearest(digits);
    assert js.nearest(9007199254740993) == js.nearest(9007199254740992) == DecimalOf(9007199254740992);
    SafeInteger(js, 9007199254740992);
    NumberAgrees(js, Whole(9007199254740992), false);
    assert NumberText(js, Whole(9007199254740993), false) == NumberText(js, Whole(9007199254740992), false);
    NumberAgrees(js, Whole(9007199254740993), false);
    SignedRoundTrip(9007199254740992);
    SignedRoundTrip(9007199254740993);
  }

  lemma SameNearest(digits: Double64 -> Double)
    requires Nearest(9007199254740992.0) == Nearest(9007199254740993.0) == 9007199254740992.0
    ensures var js := JsOf(Doubles(digits)); js.nearest(9007199254740993) == js.nearest(9007199254740992)
  {
    hide Nearest;
    var ar := Doubles(digits);
    assert Of(ar, 9007199254740993 as real) == Of(ar, 9007199254740992 as real);
  }

  lemma OddNearest()
    ensures Nearest(9007199254740993.0) == 9007199254740992.0
  {
    var half := 4503599627370496.5;
    assert 9007199254740993.0 / 2.0 == half;
    RoundIsNearest(4503599627370496, half);
    assert Up(half) == 4503599627370496.0;
  }
}
