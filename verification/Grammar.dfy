/** The texts of the two runtimes as JSON (RFC 8259): what a reader of the grammar finds in them, and when none can. */
module Grammar {
  import opened Wrappers
  import opened Numbers
  import opened Json
  import Jsonl

  // ----- numbers (section 6) ------------------------------------------------------------------------------

  datatype Exponent = Exponent(minus: bool, digits: Text)
  datatype Numeric = Numeric(minus: bool, whole: Text, fraction: Text, exponent: Option<Exponent>)

  /** Digits, no leading zero in front of another digit, and at least one digit in the exponent. */
  predicate WellFormed(p: Numeric) {
    && p.whole != [] && AllDigits(p.whole) && (p.whole[0] == 48 ==> |p.whole| == 1) && AllDigits(p.fraction)
    && (p.exponent.Some? ==> p.exponent.value.digits != [] && AllDigits(p.exponent.value.digits))
  }

  function Written(p: Numeric): (t: Text) {
    Front(p) + match p.exponent
               case None => []
               case Some(e) => [101, if e.minus then 45 else 43] + e.digits
  }

  function Front(p: Numeric): (t: Text) {
    (if p.minus then [45] else []) + (p.whole + (if p.fraction == [] then [] else [46] + p.fraction))
  }

  function ExponentOf(p: Numeric): (e: int) {
    match p.exponent
    case None => 0
    case Some(e) => if e.minus then -NumeralValue(e.digits) else NumeralValue(e.digits)
  }

  /** The digits as one integer, moved by the exponent and back by the digits behind the point. */
  function Amount(p: Numeric): (v: real) {
    Scaled(NumeralValue(p.whole + p.fraction) as real, ExponentOf(p) - |p.fraction|)
  }

  ghost predicate ReadsNumber(t: Text, minus: bool, amount: real, rest: Text) {
    Ends(rest) && exists p :: WellFormed(p) && t == Written(p) + rest && p.minus == minus && Amount(p) == amount
  }

  // ----- strings (section 7) ------------------------------------------------------------------------------

  predicate HexUnit(u: Unit) {
    48 <= u <= 57 || 97 <= u <= 102
  }

  function Hex(u: Unit): (d: int)
    requires HexUnit(u)
  {
    if u <= 57 then u - 48 else u - 97 + 10
  }

  /** How many units stand for the first unit of a string. */
  function UnitLength(t: Text): (n: nat)
    ensures n > 0
  {
    if t == [] || t[0] != 92 then 1 else if |t| > 1 && t[1] == 117 then 6 else 2
  }

  /** Itself, the letter of a short escape, or four hexadecimal digits. */
  predicate StandsFor(t: Text, c: Unit) {
    if |t| == 1 then t[0] == c && c >= 32 && c != 34 && c != 92
    else if |t| == 2 then
      t[0] == 92 && (t[1], c) in {(34, 34), (92, 92), (98, 8), (102, 12), (110, 10), (114, 13), (116, 9)}
    else
      && |t| == 6 && t[0] == 92 && t[1] == 117 && HexUnit(t[2]) && HexUnit(t[3]) && HexUnit(t[4]) && HexUnit(t[5])
      && Hex(t[2]) * 4096 + Hex(t[3]) * 256 + Hex(t[4]) * 16 + Hex(t[5]) == c
  }

  predicate ReadsUnits(t: Text, s: Text, rest: Text)
    decreases |s|
  {
    if s == [] then t != [] && t[0] == 34 && rest == t[1..]
    else
      var n := UnitLength(t);
      n <= |t| && StandsFor(t[..n], s[0]) && ReadsUnits(t[n..], s[1..], rest)
  }

  predicate ReadsString(t: Text, s: Text, rest: Text) {
    t != [] && t[0] == 34 && ReadsUnits(t[1..], s, rest)
  }

  // ----- values (sections 3 to 5) -------------------------------------------------------------------------

  predicate Spells(t: Text, word: string, rest: Text) {
    |t| >= |word| && (forall i | 0 <= i < |word| :: t[i] == word[i] as int) && rest == t[|word|..]
  }

  /** What a number is to a runtime: its sign and its absolute value. */
  function Meaning(rt: Runtime, x: Number): (r: (bool, real)) {
    if rt.JavaScript? then (Held(rt, x).negative, Magnitude(Held(rt, x)))
    else match x
      case Whole(n) => (n < 0, Abs(n) as real)
      case Float(d) => (d.negative, Magnitude(d))
  }

  /** The text starts with that value, written without blanks; what follows it is left. */
  ghost predicate Reads(rt: Runtime, t: Text, v: Json, rest: Text)
    decreases v
  {
    match v
    case Null => Spells(t, "null", rest)
    case Boolean(b) => Spells(t, if b then "true" else "false", rest)
    case Num(x) => ReadsNumber(t, Meaning(rt, x).0, Meaning(rt, x).1, rest)
    case Str(s) => ReadsString(t, s, rest)
    case Arr(items) => t != [] && t[0] == 91 && ReadsItems(rt, t[1..], items, rest)
    case Obj(fields) => t != [] && t[0] == 123 && ReadsFields(rt, t[1..], fields, rest)
  }

  ghost predicate ReadsItems(rt: Runtime, t: Text, items: Items, rest: Text)
    decreases items
  {
    match items
    case Nil => Closes(t, 93, rest)
    case Cons(head, tail) =>
      exists mid :: Reads(rt, t, head, mid)
        && if tail.Nil? then Closes(mid, 93, rest)
           else mid != [] && mid[0] == 44 && ReadsItems(rt, mid[1..], tail, rest)
  }

  predicate Closes(t: Text, u: Unit, rest: Text) {
    t != [] && t[0] == u && rest == t[1..]
  }

  ghost predicate ReadsFields(rt: Runtime, t: Text, fields: Fields, rest: Text)
    decreases fields, 0
  {
    match fields
    case End => Closes(t, 125, rest)
    case Field(key, value, more) =>
      exists mid, after :: ReadsString(t, key, mid) && mid != [] && mid[0] == 58 && Reads(rt, mid[1..], value, after)
        && ReadsMore(rt, after, more, rest)
  }

  /** What stands behind a field: the end of the object, or a comma and more fields. */
  ghost predicate ReadsMore(rt: Runtime, t: Text, more: Fields, rest: Text)
    decreases more, 1
  {
    if more.End? then Closes(t, 125, rest) else t != [] && t[0] == 44 && ReadsFields(rt, t[1..], more, rest)
  }

  // ----- powers of ten ------------------------------------------------------------------------------------

  lemma ScaledNext(r: real, e: int)
    ensures Scaled(r, e + 1) == 10.0 * Scaled(r, e)
  {
  }

  lemma {:induction false} ScaledSum(a: real, b: real, e: int)
    ensures Scaled(a + b, e) == Scaled(a, e) + Scaled(b, e)
    decreases Abs(e)
  {
    if e > 0 {
      ScaledSum(a, b, e - 1);
    } else if e < 0 {
      ScaledSum(a, b, e + 1);
    }
  }

  lemma {:induction false} ScaledTimes(r: real, e: int)
    ensures Scaled(10.0 * r, e) == Scaled(r, e + 1)
    decreases Abs(e)
  {
    ScaledNext(r, e);
    if e > 0 {
      ScaledTimes(r, e - 1);
    } else if e < 0 {
      ScaledTimes(r, e + 1);
      ScaledNext(r, e + 1);
    }
  }

  lemma {:induction false} ScaledTwice(r: real, a: int, b: int)
    ensures Scaled(Scaled(r, a), b) == Scaled(r, a + b)
    decreases Abs(b)
  {
    hide Scaled;
    if b > 0 {
      ScaledTwice(r, a, b - 1);
      ScaledNext(Scaled(r, a), b - 1);
      ScaledNext(r, a + b - 1);
    } else if b < 0 {
      ScaledTwice(r, a, b + 1);
      ScaledNext(Scaled(r, a), b);
      ScaledNext(r, a + b);
    } else {
      ScaledNought(Scaled(r, a));
    }
  }

  lemma ScaledNought(r: real)
    ensures Scaled(r, 0) == r
  {
  }

  lemma {:induction false} LeadingDigit(c: Unit, t: Text)
    ensures NumeralValue([c] + t) as real == Scaled(c as real - 48.0, |t|) + NumeralValue(t) as real
  {
    var x := [c] + t;
    if t == [] {
      assert x[..0] == [];
    } else {
      var front := t[..|t| - 1];
      LeadingDigit(c, front);
      assert x[..|x| - 1] == [c] + front && x[|x| - 1] == t[|t| - 1];
      ScaledNext(c as real - 48.0, |front|);
    }
  }

  /** A fraction 0.d1d2... is its digits as an integer, moved behind the point. */
  lemma {:induction false} FractionIs(digits: Text)
    ensures Scaled(Fraction(digits), |digits|) == NumeralValue(digits) as real
  {
    if digits != [] {
      var c, rest := digits[0], digits[1..];
      FractionIs(rest);
      LeadingDigit(c, rest);
      assert digits == [c] + rest;
      var digit: int := c;
      assert 10.0 * Fraction(digits) == c as real - 48.0 + Fraction(rest);
      ScaledTimes(Fraction(digits), |rest|);
      ScaledSum(c as real - 48.0, Fraction(rest), |rest|);
    }
  }

  lemma MagnitudeIs(x: Decimal)
    requires x.Digits?
    ensures Magnitude(x) == Scaled(NumeralValue(x.digits) as real, x.point - |x.digits|)
  {
    FractionIs(x.digits);
    ScaledTwice(Fraction(x.digits), |x.digits|, x.point - |x.digits|);
  }

  lemma {:induction false} LeadingZeros(n: nat, t: Text)
    ensures NumeralValue(Zeros(n) + t) == NumeralValue(t)
  {
    if n == 0 {
      assert Zeros(0) + t == t;
    } else {
      LeadingZeros(n - 1, t);
      NumeralZero(Zeros(n - 1) + t);
      assert Zeros(n) + t == [48] + (Zeros(n - 1) + t);
    }
  }

  lemma {:induction false} TrailingZeros(t: Text, n: nat)
    ensures NumeralValue(t + Zeros(n)) as real == Scaled(NumeralValue(t) as real, n)
  {
    if n == 0 {
      assert t + Zeros(0) == t;
    } else {
      TrailingZeros(t, n - 1);
      var x := t + Zeros(n);
      assert x[..|x| - 1] == t + Zeros(n - 1) && x[|x| - 1] == 48;
    }
  }

  // ----- the number texts are numbers ---------------------------------------------------------------------

  lemma ReadAs(p: Numeric, t: Text, rest: Text)
    requires WellFormed(p) && t == Written(p) && Ends(rest)
    ensures ReadsNumber(t + rest, p.minus, Amount(p), rest)
  {
  }

  /** A whole number of the service. */
  lemma WholeReads(n: int, rest: Text)
    requires Ends(rest)
    ensures ReadsNumber(Signed(n) + rest, n < 0, Abs(n) as real, rest)
  {
    hide ReadsNumber;
    var p := Numeric(n < 0, Numeral(Abs(n)), [], None);
    NumeralRoundTrip(Abs(n));
    assert Numeral(Abs(n)) + [] == Numeral(Abs(n));
    ScaledNought(Abs(n) as real);
    assert Numeral(Abs(n))[0] == 48 ==> |Numeral(Abs(n))| == 1;
    assert Written(p) == Signed(n);
    ReadAs(p, Signed(n), rest);
  }

  /** The digits in place, with as many zeros as it takes, and a zero behind the point if asked for. */
  function InPlace(minus: bool, digits: Text, point: int, dotted: bool): (p: Numeric) {
    if point <= 0 then Numeric(minus, [48], Zeros(-point) + digits, None)
    else if point < |digits| then Numeric(minus, digits[..point], digits[point..], None)
    else Numeric(minus, digits + Zeros(point - |digits|), if dotted then [48] else [], None)
  }

  lemma InPlaceFormed(minus: bool, digits: Text, point: int, dotted: bool)
    requires Normal(Digits(minus, digits, point))
    ensures WellFormed(InPlace(minus, digits, point, dotted)) && InPlace(minus, digits, point, dotted).minus == minus
  {
  }

  function Dot(dotted: bool): (t: Text) {
    if dotted then [POINT, 48] else []
  }

  lemma InPlaceWritten(minus: bool, digits: Text, point: int, dotted: bool)
    requires digits != [] && (dotted ==> |digits| <= point)
    ensures Written(InPlace(minus, digits, point, dotted)) == Sign(minus) + (Fixed(digits, point) + Dot(dotted))
  {
    hide Zeros;
    var p := InPlace(minus, digits, point, dotted);
    var behind := if p.fraction == [] then [] else [46] + p.fraction;
    assert Written(p) == Sign(minus) + (p.whole + behind);
    if point <= 0 {
      assert [48] + behind == [48, POINT] + p.fraction;
      assert Fixed(digits, point) + [] == Fixed(digits, point);
    } else if point < |digits| {
      assert Fixed(digits, point) + [] == Fixed(digits, point);
    } else {
      assert behind == Dot(dotted);
    }
  }

  lemma InPlaceAmount(minus: bool, digits: Text, point: int, dotted: bool)
    requires digits != [] && AllDigits(digits) && (dotted ==> |digits| <= point)
    ensures Amount(InPlace(minus, digits, point, dotted)) == Magnitude(Digits(minus, digits, point))
  {
    hide Scaled, Magnitude, NumeralValue;
    MagnitudeIs(Digits(minus, digits, point));
    var p := InPlace(minus, digits, point, dotted);
    if point <= 0 {
      LeadingZeros(1 - point, digits);
      assert p.whole + p.fraction == Zeros(1 - point) + digits;
    } else if point < |digits| {
      assert p.whole + p.fraction == digits;
    } else {
      var n := point - |digits|;
      var m := if dotted then n + 1 else n;
      assert p.whole + p.fraction == digits + Zeros(m);
      TrailingZeros(digits, m);
      ScaledTwice(NumeralValue(digits) as real, m, n - m);
      ScaledNought(NumeralValue(digits + Zeros(m)) as real);
      assert |p.fraction| == m - n;
    }
  }

  /** One digit in front of the point, and the exponent. */
  function Scientific(rt: Runtime, minus: bool, digits: Text, point: int): (p: Numeric)
    requires digits != []
  {
    var e := point - 1;
    Numeric(minus, [digits[0]], digits[1..],
            Some(Exponent(e < 0, (if rt.Python? && Abs(e) < 10 then [48] else []) + Numeral(Abs(e)))))
  }

  lemma ScientificWritten(rt: Runtime, minus: bool, digits: Text, point: int)
    requires digits != []
    ensures Written(Scientific(rt, minus, digits, point))
         == Sign(minus) + (Mantissa(digits) + ([EXPONENT] + ExponentText(rt, point - 1)))
  {
    hide Numeral, Front, Mantissa, ExponentText;
    ScientificFront(rt, minus, digits, point);
    ExponentWritten(rt, point - 1);
    var p := Scientific(rt, minus, digits, point);
    var x := [EXPONENT] + ExponentText(rt, point - 1);
    assert Written(p) == (Sign(minus) + Mantissa(digits)) + x;
  }

  lemma ScientificFront(rt: Runtime, minus: bool, digits: Text, point: int)
    requires digits != []
    ensures Front(Scientific(rt, minus, digits, point)) == Sign(minus) + Mantissa(digits)
  {
    hide Numeral;
    if |digits| == 1 {
      assert digits == [digits[0]] + [];
    }
  }

  lemma ExponentWritten(rt: Runtime, e: int)
    ensures [EXPONENT] + ExponentText(rt, e)
         == [101, if e < 0 then 45 else 43] + ((if rt.Python? && Abs(e) < 10 then [48] else []) + Numeral(Abs(e)))
  {
    hide Numeral;
  }

  lemma ScientificAmount(rt: Runtime, minus: bool, digits: Text, point: int)
    requires Normal(Digits(minus, digits, point))
    ensures WellFormed(Scientific(rt, minus, digits, point)) && Scientific(rt, minus, digits, point).minus == minus
    ensures Amount(Scientific(rt, minus, digits, point)) == Magnitude(Digits(minus, digits, point))
  {
    hide Scaled, Magnitude, NumeralValue;
    MagnitudeIs(Digits(minus, digits, point));
    var p, e := Scientific(rt, minus, digits, point), point - 1;
    assert p.whole + p.fraction == digits;
    NumeralRoundTrip(Abs(e));
    NumeralZero(Numeral(Abs(e)));
    assert [] + Numeral(Abs(e)) == Numeral(Abs(e));
    assert ExponentOf(p) == e;
  }

  lemma UnsignedReadsAs(rt: Runtime, minus: bool, digits: Text, point: int, dotted: bool, rest: Text)
    requires Normal(Digits(minus, digits, point)) && Ends(rest)
    requires dotted ==> rt.JavaScript? && |digits| <= point <= 21
    ensures ReadsNumber(Sign(minus) + Unsigned(rt, digits, point) + Dot(dotted) + rest, minus,
                        Magnitude(Digits(minus, digits, point)), rest)
  {
    hide ReadsNumber, Written, Fixed, Mantissa, ExponentText, WellFormed, Magnitude, Amount, InPlace, Scientific;
    var t := Sign(minus) + Unsigned(rt, digits, point) + Dot(dotted);
    if PrintsFixed(rt, point) {
      var more := dotted || (rt.Python? && |digits| <= point);
      InPlaceFormed(minus, digits, point, more);
      InPlaceWritten(minus, digits, point, more);
      InPlaceAmount(minus, digits, point, more);
      assert t == Sign(minus) + (Fixed(digits, point) + Dot(more));
      ReadAs(InPlace(minus, digits, point, more), t, rest);
    } else {
      ScientificWritten(rt, minus, digits, point);
      ScientificAmount(rt, minus, digits, point);
      assert t == Sign(minus) + (Mantissa(digits) + ([EXPONENT] + ExponentText(rt, point - 1)));
      ReadAs(Scientific(rt, minus, digits, point), t, rest);
    }
  }

  lemma NoughtReadsAs(minus: bool, dotted: bool, rest: Text)
    requires Ends(rest)
    ensures ReadsNumber(Sign(minus) + [48] + Dot(dotted) + rest, minus, 0.0, rest)
  {
    hide ReadsNumber, Scaled;
    var p := Numeric(minus, [48], if dotted then [48] else [], None);
    var t := Sign(minus) + [48] + Dot(dotted);
    assert Written(p) == t;
    LeadingZeros(|p.fraction| + 1, []);
    assert p.whole + p.fraction == Zeros(|p.fraction| + 1) + [];
    NothingScaled(-|p.fraction|);
    ReadAs(p, t, rest);
  }

  lemma {:induction false} NothingScaled(e: int)
    ensures Scaled(0.0, e) == 0.0
    decreases Abs(e)
  {
    if e > 0 {
      NothingScaled(e - 1);
    } else if e < 0 {
      NothingScaled(e + 1);
    }
  }

  /** Of the port a float field of a magnitude of 1e21 or more is not: its ".0" comes after the exponent. */
  predicate Tame(rt: Runtime, x: Number, float: bool) {
    rt.Python? || !float || Magnitude(Held(rt, x)) < 1000000000000000000000.0
  }

  lemma TamePoint(rt: Runtime, x: Number, float: bool)
    requires rt.JavaScript? && float && Held(rt, x).Digits?
    ensures Tame(rt, x, float) <==> Held(rt, x).point <= 21
  {
    hide Magnitude;
    PointIsMagnitude(Held(rt, x), 21);
    OneScaled();
  }

  lemma OneScaled()
    ensures Scaled(1.0, 21) == 1000000000000000000000.0
  {
    assert Scaled(1.0, 7) == 10000000.0;
    assert Scaled(1.0, 14) == 100000000000000.0;
    assert Scaled(1.0, 21) == 1000000000000000000000.0;
  }

  lemma FloatReadsAs(rt: Runtime, x: Double, dotted: bool, rest: Text)
    requires Ends(rest) && (dotted ==> rt.JavaScript? && IsWhole(x) && (x.Digits? ==> x.point <= 21))
    requires rt.JavaScript? ==> x == Shown(x)
    ensures ReadsNumber(FloatText(rt, x) + Dot(dotted) + rest, x.negative, Magnitude(x), rest)
  {
    hide ReadsNumber, Unsigned, Normal;
    match x {
      case Zero(negative) =>
        var more := rt.Python? || dotted;
        NoughtReadsAs(negative, more, rest);
        assert FloatText(rt, x) + Dot(dotted) == Sign(negative) + [48] + Dot(more);
      case Digits(negative, digits, point) =>
        UnsignedReadsAs(rt, negative, digits, point, dotted, rest);
    }
  }

  /** Every number text is a number of that sign and absolute value, but for the port's largest float fields. */
  lemma NumberReads(rt: Runtime, x: Number, float: bool, rest: Text)
    requires Tame(rt, x, float) && Ends(rest)
    ensures ReadsNumber(NumberText(rt, x, float) + rest, Meaning(rt, x).0, Meaning(rt, x).1, rest)
  {
    hide ReadsNumber, FloatText, Magnitude, Held, Tame;
    if rt.Python? {
      match x {
        case Whole(n) => WholeReads(n, rest);
        case Float(d) =>
          FloatReadsAs(rt, d, false, rest);
          assert FloatText(rt, d) + Dot(false) == FloatText(rt, d);
      }
    } else {
      var d := Held(rt, x);
      ShownHeld(rt, x);
      var dotted := float && IsWhole(d);
      if dotted && d.Digits? {
        TamePoint(rt, x, float);
      }
      FloatReadsAs(rt, d, dotted, rest);
    }
  }

  lemma ShownHeld(rt: Runtime, x: Number)
    requires rt.JavaScript?
    ensures Shown(Held(rt, x)) == Held(rt, x)
  {
  }

  /** A point and a zero at the end, after an exponent. */
  ghost predicate PointAtEnd(t: Text) {
    exists a: Text, b: Text :: t == a + [101] + b + [46, 48]
  }

  lemma HugeText(rt: Runtime, x: Number, float: bool)
    requires !Tame(rt, x, float)
    ensures PointAtEnd(NumberText(rt, x, float))
  {
    hide Magnitude, Mantissa, ExponentText;
    var d := Held(rt, x);
    HugeDigits(rt, x, float);
    TamePoint(rt, x, float);
    var a, b := Sign(d.negative) + Mantissa(d.digits), ExponentText(rt, d.point - 1);
    assert NumberText(rt, x, float) == a + [101] + b + [46, 48];
  }

  lemma HugeDigits(rt: Runtime, x: Number, float: bool)
    requires !Tame(rt, x, float)
    ensures Held(rt, x).Digits?
  {
  }

  lemma NoPointBehind(p: Numeric)
    requires WellFormed(p)
    ensures forall i, j | 0 <= i < j < |Written(p)| && Written(p)[i] == 101 :: Written(p)[j] != 46
  {
  }

  lemma NoPointAtEnd(p: Numeric)
    requires WellFormed(p)
    ensures !PointAtEnd(Written(p))
  {
    hide Written, WellFormed;
    var t := Written(p);
    if a: Text, b: Text :| t == a + [101] + b + [46, 48] {
      var i, j := |a|, |t| - 2;
      assert i < j && t[i] == 101 && t[j] == 46;
      NoPointBehind(p);
      assert false;
    }
  }

  /** A float field of the port of a magnitude of 1e21 or more is no number. */
  lemma HugeNever(rt: Runtime, x: Number, float: bool, rest: Text, minus: bool, amount: real, after: Text)
    requires !Tame(rt, x, float) && Ends(rest)
    ensures !ReadsNumber(NumberText(rt, x, float) + rest, minus, amount, after)
  {
    hide Tame, WellFormed, Written, Amount, AllNumber, NumberUnit, NumberText;
    var t := NumberText(rt, x, float);
    if ReadsNumber(t + rest, minus, amount, after) {
      var p :| WellFormed(p) && t + rest == Written(p) + after && p.minus == minus && Amount(p) == amount;
      WrittenNumber(p);
      NumberShape(rt, x, float);
      NumberEnds(t, Written(p), rest, after);
      HugeText(rt, x, float);
      NoPointAtEnd(p);
    }
  }

  lemma WrittenNumber(p: Numeric)
    requires WellFormed(p)
    ensures AllNumber(Written(p))
  {
  }

  /** A number text is read as its number and ends where it ends, if and only if it is no huge float field. */
  lemma NumberReadsOnly(rt: Runtime, x: Number, float: bool, rest: Text, got: Text)
    requires Ends(rest)
    ensures ReadsNumber(NumberText(rt, x, float) + rest, Meaning(rt, x).0, Meaning(rt, x).1, got)
       <==> Tame(rt, x, float) && got == rest
  {
    hide Tame, WellFormed, Written, Amount, AllNumber, NumberUnit, NumberText, Meaning, ReadsNumber;
    var t, minus, amount := NumberText(rt, x, float), Meaning(rt, x).0, Meaning(rt, x).1;
    if Tame(rt, x, float) {
      NumberReads(rt, x, float, rest);
      if ReadsNumber(t + rest, minus, amount, got) {
        var p := TheNumber(t + rest, minus, amount, got);
        WrittenNumber(p);
        NumberShape(rt, x, float);
        NumberEnds(t, Written(p), rest, got);
      }
    } else {
      HugeNever(rt, x, float, rest, minus, amount, got);
    }
  }

  lemma TheNumber(t: Text, minus: bool, amount: real, rest: Text) returns (p: Numeric)
    requires ReadsNumber(t, minus, amount, rest)
    ensures Ends(rest) && WellFormed(p) && t == Written(p) + rest
  {
    p :| WellFormed(p) && t == Written(p) + rest && p.minus == minus && Amount(p) == amount;
  }

  // ----- the string texts are strings ---------------------------------------------------------------------

  lemma HexStands(d: nat)
    requires d < 16
    ensures HexUnit(HexDigit(d)) && Hex(HexDigit(d)) == d
  {
  }

  lemma FourDigits(c: Unit)
    ensures c == c / 16 / 16 / 16 % 16 * 4096 + c / 16 / 16 % 16 * 256 + c / 16 % 16 * 16 + c % 16
  {
    var high, mid, low := c / 16 / 16 / 16, c / 16 / 16, c / 16;
    assert c == low * 16 + c % 16 && low == mid * 16 + low % 16 && mid == high * 16 + mid % 16 && high < 16;
  }

  lemma UnicodeStands(c: Unit)
    ensures StandsFor(UnicodeEscape(c), c)
  {
    hide HexDigit, HexUnit, Hex;
    FourDigits(c);
    HexStands(c / 16 / 16 / 16 % 16);
    HexStands(c / 16 / 16 % 16);
    HexStands(c / 16 % 16);
    HexStands(c % 16);
  }

  lemma EscapeStands(rt: Runtime, s: Text, i: nat)
    requires i < |s|
    ensures StandsFor(Escape(rt, s, i), s[i])
  {
    hide UnicodeEscape, Paired;
    UnicodeStands(s[i]);
  }

  lemma EscapeLength(rt: Runtime, s: Text, i: nat, rest: Text)
    requires i < |s|
    ensures UnitLength(Escape(rt, s, i) + rest) == |Escape(rt, s, i)|
  {
    hide Paired;
    EscapeStands(rt, s, i);
    var t := Escape(rt, s, i);
    assert (t + rest)[0] == t[0] && (|t| > 1 ==> (t + rest)[1] == t[1]);
  }

  lemma {:induction false} EscapedReads(rt: Runtime, s: Text, i: nat, rest: Text, got: Text)
    requires i <= |s|
    ensures ReadsUnits(Escaped(rt, s, i) + ([34] + rest), s[i..], got) <==> got == rest
    decreases |s| - i
  {
    hide Escape, StandsFor, UnitLength;
    var x := [34] + rest;
    if i == |s| {
      assert Escaped(rt, s, i) + x == x && x[1..] == rest;
    } else {
      var head, tail := Escape(rt, s, i), Escaped(rt, s, i + 1);
      EscapedReads(rt, s, i + 1, rest, got);
      EscapeStands(rt, s, i);
      EscapeLength(rt, s, i, tail + x);
      var t := head + (tail + x);
      assert Escaped(rt, s, i) + x == t;
      assert t[..|head|] == head && t[|head|..] == tail + x;
      assert s[i..][0] == s[i] && s[i..][1..] == s[i + 1..];
    }
  }

  /** A quoted string is read as the string, whatever follows it. */
  lemma QuotedReads(rt: Runtime, s: Text, rest: Text, got: Text)
    ensures ReadsString(Quoted(rt, s) + rest, s, got) <==> got == rest
  {
    hide ReadsUnits, Escaped;
    EscapedReads(rt, s, 0, rest, got);
    var x := Escaped(rt, s, 0) + ([34] + rest);
    assert Quoted(rt, s) + rest == [34] + x && ([34] + x)[1..] == x;
    assert s[0..] == s;
  }

  // ----- the texts of values are values -------------------------------------------------------------------

  /** No float field of it is of a magnitude of 1e21 or more, if the port prints it. */
  predicate TameValue(rt: Runtime, v: Json, float: bool)
    decreases v
  {
    match v
    case Num(x) => Tame(rt, x, float)
    case Arr(items) => TameItems(rt, items, float)
    case Obj(fields) => TameFields(rt, fields, float)
    case _ => true
  }

  predicate TameItems(rt: Runtime, items: Items, float: bool)
    decreases items
  {
    items.Cons? ==> TameValue(rt, items.head, float) && TameItems(rt, items.tail, float)
  }

  predicate TameFields(rt: Runtime, fields: Fields, float: bool)
    decreases fields
  {
    fields.Field? ==>
      TameValue(rt, fields.value, float || FloatField(fields.key)) && TameFields(rt, fields.rest, float)
  }

  lemma WordReads(word: string, t: Text, rest: Text, got: Text)
    requires |t| == |word| && forall i | 0 <= i < |word| :: t[i] == word[i] as int
    ensures Spells(t + rest, word, got) <==> got == rest
  {
    assert (t + rest)[|word|..] == rest;
    assert forall i | 0 <= i < |word| :: (t + rest)[i] == t[i];
  }

  lemma Open(u: Unit, x: Text, rest: Text)
    ensures ([u] + x) + rest != [] && (([u] + x) + rest)[0] == u && (([u] + x) + rest)[1..] == x + rest
  {
    assert ([u] + x) + rest == [u] + (x + rest);
  }

  /**
   * The text of a value is read as that value, and ends where the text ends, if and only if it is tame: the service's
   * always, the port's unless a float field reaches 1e21.
   */
  lemma {:induction false} PrintReads(rt: Runtime, v: Json, float: bool, rest: Text, got: Text)
    requires Ends(rest)
    ensures Reads(rt, Print(rt, v, float) + rest, v, got) <==> TameValue(rt, v, float) && got == rest
    decreases v
  {
    hide ReadsNumber, ReadsString, Spells, Tame, NumberText, Quoted, Meaning, ReadsItems, ReadsFields, NumberUnit;
    match v {
      case Null => WordReads("null", Print(rt, v, float), rest, got);
      case Boolean(b) => WordReads(if b then "true" else "false", Print(rt, v, float), rest, got);
      case Num(x) => NumberReadsOnly(rt, x, float, rest, got);
      case Str(s) => QuotedReads(rt, s, rest, got);
      case Arr(items) =>
        Open(91, PrintItems(rt, items, float), rest);
        ItemsRead(rt, items, float, rest, got);
      case Obj(fields) =>
        Open(123, PrintFields(rt, fields, float), rest);
        FieldsRead(rt, fields, float, rest, got);
    }
  }

  lemma {:induction false} ItemsRead(rt: Runtime, items: Items, float: bool, rest: Text, got: Text)
    ensures ReadsItems(rt, PrintItems(rt, items, float) + rest, items, got)
       <==> TameItems(rt, items, float) && got == rest
    decreases items
  {
    hide Print, Reads, TameValue;
    match items {
      case Nil => Open(93, [], rest);
      case Cons(head, tail) =>
        var more := PrintItems(rt, tail, float);
        var x := After(93, tail.Nil?, more) + rest;
        Nest(Print(rt, head, float), After(93, tail.Nil?, more), rest);
        AfterEnds(93, tail.Nil?, more, rest);
        forall mid
          ensures Reads(rt, Print(rt, head, float) + x, head, mid) <==> TameValue(rt, head, float) && mid == x
        {
          PrintReads(rt, head, float, x, mid);
        }
        if tail.Nil? {
          Open(93, [], rest);
        } else {
          Open(44, more, rest);
          ItemsRead(rt, tail, float, rest, got);
        }
    }
  }

  lemma {:induction false} MoreRead(rt: Runtime, more: Fields, float: bool, rest: Text, got: Text)
    ensures ReadsMore(rt, After(125, more.End?, PrintFields(rt, more, float)) + rest, more, got)
       <==> TameFields(rt, more, float) && got == rest
    decreases more, 1
  {
    hide Print, Reads, ReadsFields, TameValue;
    if more.End? {
      Open(125, [], rest);
    } else {
      Open(44, PrintFields(rt, more, float), rest);
      FieldsRead(rt, more, float, rest, got);
    }
  }

  lemma TheField(rt: Runtime, t: Text, key: Text, value: Json, more: Fields, rest: Text)
    returns (mid: Text, after: Text)
    requires ReadsFields(rt, t, Field(key, value, more), rest)
    ensures ReadsString(t, key, mid) && mid != [] && mid[0] == 58 && Reads(rt, mid[1..], value, after)
    ensures ReadsMore(rt, after, more, rest)
  {
    hide ReadsString, Reads, ReadsMore;
    mid, after :| ReadsString(t, key, mid) && mid != [] && mid[0] == 58 && Reads(rt, mid[1..], value, after)
      && ReadsMore(rt, after, more, rest);
  }

  lemma {:induction false} FieldsRead(rt: Runtime, fields: Fields, float: bool, rest: Text, got: Text)
    ensures ReadsFields(rt, PrintFields(rt, fields, float) + rest, fields, got)
       <==> TameFields(rt, fields, float) && got == rest
    decreases fields, 0
  {
    hide Print, Reads, TameValue, Quoted, ReadsString, FloatField, ReadsMore;
    match fields {
      case End => Open(125, [], rest);
      case Field(key, value, tail) =>
        var more, inner := PrintFields(rt, tail, float), float || FloatField(key);
        var x := After(125, tail.End?, more) + rest;
        var y := [COLON] + (Print(rt, value, inner) + x);
        FieldText(Quoted(rt, key), Print(rt, value, inner), After(125, tail.End?, more), rest);
        AfterEnds(125, tail.End?, more, rest);
        assert y[0] == 58 && y[1..] == Print(rt, value, inner) + x;
        var t := Quoted(rt, key) + y;
        if ReadsFields(rt, t, fields, got) {
          var mid, after := TheField(rt, t, key, value, tail, got);
          QuotedReads(rt, key, y, mid);
          PrintReads(rt, value, inner, x, after);
        }
        QuotedReads(rt, key, y, y);
        PrintReads(rt, value, inner, x, x);
        MoreRead(rt, tail, float, rest, got);
    }
  }

  // ----- the lines of an export ---------------------------------------------------------------------------

  lemma {:induction false} InsertTame(rt: Runtime, key: Text, value: Json, fields: Fields, float: bool)
    ensures TameFields(rt, InsertField(rt, key, value, fields), float)
       <==> TameValue(rt, value, float || FloatField(key)) && TameFields(rt, fields, float)
  {
    hide TameValue, FloatField, KeyBefore;
    if fields.Field? && !KeyBefore(rt, key, fields.key) {
      InsertTame(rt, key, value, fields.rest, float);
    }
  }

  /** Sorting the keys makes nothing tame and nothing huge. */
  lemma {:induction false} CanonTame(rt: Runtime, v: Json, float: bool)
    ensures TameValue(rt, Canon(rt, v), float) <==> TameValue(rt, v, float)
    decreases v
  {
    hide Tame, CanonItems, CanonFields, TameItems, TameFields;
    match v {
      case Arr(items) => CanonItemsTame(rt, items, float);
      case Obj(fields) => CanonFieldsTame(rt, fields, float);
      case _ =>
    }
  }

  lemma {:induction false} CanonItemsTame(rt: Runtime, items: Items, float: bool)
    ensures TameItems(rt, CanonItems(rt, items), float) <==> TameItems(rt, items, float)
    decreases items
  {
    hide Canon, TameValue;
    if items.Cons? {
      CanonTame(rt, items.head, float);
      CanonItemsTame(rt, items.tail, float);
    }
  }

  lemma {:induction false} CanonFieldsTame(rt: Runtime, fields: Fields, float: bool)
    ensures TameFields(rt, CanonFields(rt, fields), float) <==> TameFields(rt, fields, float)
    decreases fields
  {
    hide Canon, TameValue, InsertField, FloatField;
    if fields.Field? {
      CanonTame(rt, fields.value, float || FloatField(fields.key));
      CanonFieldsTame(rt, fields.rest, float);
      InsertTame(rt, fields.key, Canon(rt, fields.value), CanonFields(rt, fields.rest), float);
    }
  }

  lemma {:induction false} ServiceTame(v: Json, float: bool)
    ensures TameValue(Python, v, float)
    decreases v
  {
    hide Tame;
    match v {
      case Num(x) => ServiceNumber(x, float);
      case Arr(items) => ServiceItems(items, float);
      case Obj(fields) => ServiceFields(fields, float);
      case _ =>
    }
  }

  lemma ServiceNumber(x: Number, float: bool)
    ensures Tame(Python, x, float)
  {
  }

  lemma {:induction false} ServiceItems(items: Items, float: bool)
    ensures TameItems(Python, items, float)
    decreases items
  {
    if items.Cons? {
      ServiceTame(items.head, float);
      ServiceItems(items.tail, float);
    }
  }

  lemma {:induction false} ServiceFields(fields: Fields, float: bool)
    ensures TameFields(Python, fields, float)
    decreases fields
  {
    hide FloatField;
    if fields.Field? {
      ServiceTame(fields.value, float || FloatField(fields.key));
      ServiceFields(fields.rest, float);
    }
  }

  /** A line of an export is the JSON text of its row with the keys sorted, exactly when the row is tame. */
  lemma LineReads(rt: Runtime, rows: seq<Json>, i: nat)
    requires i < |rows|
    ensures Reads(rt, Jsonl.Lines(rt, rows)[i], Canon(rt, rows[i]), []) <==> TameValue(rt, rows[i], false)
  {
    hide Stringify, Print, Canon, Reads, TameValue;
    var t := Stringify(rt, rows[i], false);
    StringifyIsCanon(rt, rows[i], false);
    PrintReads(rt, Canon(rt, rows[i]), false, [], []);
    assert t + [] == t;
    CanonTame(rt, rows[i], false);
  }

  /** Every line the service exports is. */
  lemma ServiceLineReads(rows: seq<Json>, i: nat)
    requires i < |rows|
    ensures Reads(Python, Jsonl.Lines(Python, rows)[i], Canon(Python, rows[i]), [])
  {
    hide Canon, Reads, TameValue;
    LineReads(Python, rows, i);
    ServiceTame(rows[i], false);
  }

  /** The port writes 1e21 in a float field as `1e+21.0`, which is no JSON number. */
  lemma HugeScore(js: Js)
    ensures var v := Obj(Field(Units("weighted_score"), Num(Float(Digits(false, [49], 22))), End));
            !Reads(js, Stringify(js, v, false), Canon(js, v), [])
  {
    hide Units, Stringify, Canon, Reads, Scaled;
    var x: Double := Digits(false, [49], 22);
    var v := Obj(Field(Units("weighted_score"), Num(Float(x)), End));
    LineReads(js, [v], 0);
    TamePoint(js, Float(x), true);
    assert FloatField(Units("weighted_score"));
  }
}
