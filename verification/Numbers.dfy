/** Numbers as the two runtimes print them: a double by its shortest digits, an integer by all of its digits. */
module Numbers {
  /** A UTF-16 code unit. */
  type Unit = x: nat | x < 0x1_0000
  type Text = seq<Unit>

  const POINT: Unit := 46
  const MINUS: Unit := 45
  const PLUS: Unit := 43
  const EXPONENT: Unit := 101

  /** The value 0.d1d2d3... times ten to the power of `point`; the digits are ASCII. */
  datatype Decimal = Zero(negative: bool) | Digits(negative: bool, digits: Text, point: int)

  predicate AllDigits(t: Text) {
    forall i | 0 <= i < |t| :: 48 <= t[i] <= 57
  }

  /** Neither the first nor the last digit is a zero. */
  predicate Normal(x: Decimal) {
    x.Digits? ==> x.digits != [] && AllDigits(x.digits) && x.digits[0] != 48 && x.digits[|x.digits| - 1] != 48
  }

  /** A finite double, as the shortest digits that read back as it: never more than seventeen. */
  type Double = x: Decimal | Normal(x) && (x.Digits? ==> |x.digits| <= 17) witness Zero(false)

  /**
   * CPython's json.dumps, and JSON.stringify with the port's own rule for float fields. JavaScript has no ints: one is
   * held as the nearest double.
   */
  datatype Runtime = Python | JavaScript(nearest: int -> Double)

  type Js = rt: Runtime | rt.JavaScript? witness JavaScript((n: int) => Zero(false))

  /** A number of the service: an int or a float. */
  datatype Number = Whole(n: int) | Float(x: Double)

  predicate IsWhole(x: Decimal) {
    x.Zero? || |x.digits| <= x.point
  }

  // ----- printing --------------------------------------------------------------------------------------

  function Abs(n: int): (r: nat) {
    if n < 0 then -n else n
  }

  function Numeral(n: nat): (t: Text)
    ensures t != [] && AllDigits(t) && (n > 0 ==> t[0] != 48)
  {
    if n < 10 then [48 + n] else Numeral(n / 10) + [48 + n % 10]
  }

  function Sign(negative: bool): (t: Text) {
    if negative then [MINUS] else []
  }

  function Zeros(n: nat): (t: Text)
    ensures |t| == n && AllDigits(t)
  {
    seq(n, _ => 48)
  }

  function Fixed(digits: Text, point: int): (t: Text)
    requires digits != []
  {
    if point <= 0 then [48, POINT] + (Zeros(-point) + digits)
    else if point < |digits| then digits[..point] + ([POINT] + digits[point..])
    else digits + Zeros(point - |digits|)
  }

  function Mantissa(digits: Text): (t: Text)
    requires digits != []
  {
    if |digits| == 1 then digits else [digits[0]] + ([POINT] + digits[1..])
  }

  /** Python pads the exponent to two digits. */
  function ExponentText(rt: Runtime, e: int): (t: Text) {
    [if e < 0 then MINUS else PLUS] + ((if rt.Python? && Abs(e) < 10 then [48] else []) + Numeral(Abs(e)))
  }

  predicate PrintsFixed(rt: Runtime, point: int) {
    match rt
    case Python => -3 <= point <= 16
    case JavaScript(_) => -5 <= point <= 21
  }

  /** The text of a float without its sign. */
  function Unsigned(rt: Runtime, digits: Text, point: int): (t: Text)
    requires digits != []
  {
    if PrintsFixed(rt, point) then Fixed(digits, point) + (if rt.Python? && |digits| <= point then [POINT, 48] else [])
    else Mantissa(digits) + ([EXPONENT] + ExponentText(rt, point - 1))
  }

  /** float.__repr__ on the service, Number::toString on the port. */
  function FloatText(rt: Runtime, x: Decimal): (t: Text)
    requires Normal(x)
  {
    match x
    case Zero(negative) => if rt.Python? then Sign(negative) + [48, POINT, 48] else [48]
    case Digits(negative, digits, point) => Sign(negative) + Unsigned(rt, digits, point)
  }

  /** The digits without the zeros that end them. */
  function Trim(t: Text): (r: Text)
    ensures |r| <= |t| && r == t[..|r|] && (r != [] ==> r[|r| - 1] != 48)
    ensures t != [] && t[0] != 48 ==> r != []
  {
    if t == [] || t[|t| - 1] != 48 then t else Trim(t[..|t| - 1])
  }

  function DecimalOf(n: int): (x: Decimal)
    ensures Normal(x)
  {
    if n == 0 then Zero(false) else Digits(n < 0, Trim(Numeral(Abs(n))), |Numeral(Abs(n))|)
  }

  function Signed(n: int): (t: Text) {
    Sign(n < 0) + Numeral(Abs(n))
  }

  /** The port prints no sign of a zero. */
  function Shown(x: Double): (r: Double) {
    if x.Zero? then Zero(false) else x
  }

  /** The port holds every number as a double. */
  function Held(js: Js, x: Number): (r: Double) {
    match x
    case Whole(n) => Shown(js.nearest(n))
    case Float(x) => Shown(x)
  }

  /**
   * The service tells ints from floats by their type, the port by the field: whole numbers get ".0" in a float field.
   */
  function NumberText(rt: Runtime, x: Number, float: bool): (t: Text) {
    if rt.Python? then (match x case Whole(n) => Signed(n) case Float(x) => FloatText(rt, x))
    else FloatText(rt, Held(rt, x)) + if float && IsWhole(Held(rt, x)) then [POINT, 48] else []
  }

  // ----- reading ---------------------------------------------------------------------------------------

  /** The first place of the unit, or the length. */
  function Find(t: Text, u: Unit): (i: nat)
    ensures i <= |t|
  {
    if t == [] || t[0] == u then 0 else 1 + Find(t[1..], u)
  }

  lemma {:induction false} FindAt(a: Text, u: Unit, b: Text)
    requires u !in a
    ensures Find(a + ([u] + b), u) == |a|
  {
    var t := a + ([u] + b);
    if a == [] {
      assert t[0] == u;
    } else {
      assert t[0] == a[0] && t[1..] == a[1..] + ([u] + b);
      FindAt(a[1..], u, b);
    }
  }

  lemma {:induction false} FindNone(a: Text, u: Unit)
    requires u !in a
    ensures Find(a, u) == |a|
  {
    if a != [] {
      FindNone(a[1..], u);
    }
  }

  function Leading(t: Text): (n: nat)
    ensures n <= |t|
  {
    if t == [] || t[0] != 48 then 0 else 1 + Leading(t[1..])
  }

  function NumeralValue(t: Text): (n: int) {
    if t == [] then 0 else
      var digit: int := t[|t| - 1];
      10 * NumeralValue(t[..|t| - 1]) + digit - 48
  }

  function ReadExponent(t: Text): (e: int) {
    var s := t[..Find(t, POINT)];
    if s == [] then 0 else if s[0] == MINUS then -NumeralValue(s[1..]) else NumeralValue(s[1..])
  }

  function ReadMantissa(negative: bool, m: Text, e: int): (x: Decimal) {
    var p := Find(m, POINT);
    var all := m[..p] + if p < |m| then m[p + 1..] else [];
    var z := Leading(all);
    if z == |all| then Zero(negative) else Digits(negative, Trim(all[z..]), p - z + e)
  }

  function ReadUnsigned(negative: bool, t: Text): (x: Decimal) {
    var e := Find(t, EXPONENT);
    ReadMantissa(negative, t[..e], if e < |t| then ReadExponent(t[e + 1..]) else 0)
  }

  function Read(t: Text): (x: Decimal) {
    if t != [] && t[0] == MINUS then ReadUnsigned(true, t[1..]) else ReadUnsigned(false, t)
  }

  lemma {:induction false} NumeralRoundTrip(n: nat)
    ensures NumeralValue(Numeral(n)) == n
  {
    if n >= 10 {
      NumeralRoundTrip(n / 10);
      assert Numeral(n)[..|Numeral(n)| - 1] == Numeral(n / 10);
    } else {
      assert [48 + n][..0] == [];
    }
  }

  lemma {:induction false} NumeralZero(t: Text)
    ensures NumeralValue([48] + t) == NumeralValue(t)
  {
    var s := [48] + t;
    if t == [] {
      assert s[..0] == [];
    } else {
      NumeralZero(t[..|t| - 1]);
      assert s[..|s| - 1] == [48] + t[..|t| - 1] && s[|s| - 1] == t[|t| - 1];
    }
  }

  lemma {:induction false} LeadingZeros(n: nat, t: Text)
    requires t != [] && t[0] != 48
    ensures Leading(Zeros(n) + t) == n
  {
    if n == 0 {
      assert Zeros(0) + t == t;
    } else {
      LeadingZeros(n - 1, t);
      assert (Zeros(n) + t)[1..] == Zeros(n - 1) + t;
    }
  }

  lemma {:induction false} TrimZeros(t: Text, n: nat)
    requires t != [] && t[|t| - 1] != 48
    ensures Trim(t + Zeros(n)) == t
  {
    if n == 0 {
      assert t + Zeros(0) == t;
    } else {
      TrimZeros(t, n - 1);
      assert (t + Zeros(n))[..|t| + n - 1] == t + Zeros(n - 1);
    }
  }

  lemma {:induction false} TrimmedZeros(t: Text)
    ensures Trim(t) + Zeros(|t| - |Trim(t)|) == t
  {
    if t != [] && t[|t| - 1] == 48 {
      var s := t[..|t| - 1];
      TrimmedZeros(s);
      assert Zeros(|t| - |Trim(t)|) == Zeros(|s| - |Trim(s)|) + [48];
      assert t == s + [48];
    }
  }

  lemma PlainDigits(t: Text)
    requires AllDigits(t)
    ensures POINT !in t && EXPONENT !in t
  {
  }

  /** Reading a number whose units are a, a point and b, or a alone. */
  lemma MantissaOf(negative: bool, a: Text, b: Text, n: nat, digits: Text, m: nat, e: int)
    requires AllDigits(a) && digits != [] && digits[0] != 48 && digits[|digits| - 1] != 48
    requires a + b == Zeros(n) + (digits + Zeros(m))
    ensures ReadMantissa(negative, a + ([POINT] + b), e) == Digits(negative, digits, |a| - n + e)
    ensures b == [] ==> ReadMantissa(negative, a, e) == Digits(negative, digits, |a| - n + e)
  {
    hide Find, Leading, Trim;
    PlainDigits(a);
    FindAt(a, POINT, b);
    FindNone(a, POINT);
    var t := a + ([POINT] + b);
    assert t[..|a|] == a && t[|a| + 1..] == b && a[..|a|] == a;
    var rest := digits + Zeros(m);
    LeadingZeros(n, rest);
    TrimZeros(digits, m);
    assert (Zeros(n) + rest)[n..] == rest;
    assert b == [] ==> a + b == a;
  }

  lemma FixedPlain(digits: Text, point: int, tail: Text)
    requires digits != [] && AllDigits(digits) && (tail == [] || tail == [POINT, 48])
    ensures EXPONENT !in Fixed(digits, point) + tail
  {
  }

  lemma SmallReads(negative: bool, digits: Text, point: int)
    requires Normal(Digits(negative, digits, point)) && point <= 0
    ensures ReadMantissa(negative, Fixed(digits, point), 0) == Digits(negative, digits, point)
    ensures EXPONENT !in Fixed(digits, point)
  {
    hide ReadMantissa;
    var b := Zeros(-point) + digits;
    assert [48] + b == Zeros(1 - point) + (digits + Zeros(0));
    MantissaOf(negative, [48], b, 1 - point, digits, 0, 0);
    PlainDigits(b);
    assert Fixed(digits, point) == [48] + ([POINT] + b);
  }

  lemma MiddleReads(negative: bool, digits: Text, point: int)
    requires Normal(Digits(negative, digits, point)) && 0 < point < |digits|
    ensures ReadMantissa(negative, Fixed(digits, point), 0) == Digits(negative, digits, point)
    ensures EXPONENT !in Fixed(digits, point)
  {
    hide ReadMantissa;
    assert digits[..point] + digits[point..] == Zeros(0) + (digits + Zeros(0));
    MantissaOf(negative, digits[..point], digits[point..], 0, digits, 0, 0);
    PlainDigits(digits);
  }

  lemma LargeFixed(digits: Text, point: int)
    requires digits != [] && |digits| <= point
    ensures Fixed(digits, point) == digits + Zeros(point - |digits|)
  {
  }

  lemma LargeReads(negative: bool, digits: Text, point: int, tail: Text)
    requires Normal(Digits(negative, digits, point)) && |digits| <= point && (tail == [] || tail == [POINT, 48])
    ensures ReadMantissa(negative, Fixed(digits, point) + tail, 0) == Digits(negative, digits, point)
    ensures EXPONENT !in Fixed(digits, point) + tail
  {
    hide ReadMantissa, Fixed;
    var m := point - |digits|;
    var a := digits + Zeros(m);
    FixedPlain(digits, point, tail);
    LargeFixed(digits, point);
    if tail == [] {
      assert a + [] == Zeros(0) + (digits + Zeros(m)) == a + tail;
      MantissaOf(negative, a, [], 0, digits, m, 0);
      assert a + tail == a;
    } else {
      assert Zeros(m + 1) == Zeros(m) + [48];
      assert a + [48] == Zeros(0) + (digits + Zeros(m + 1));
      MantissaOf(negative, a, [48], 0, digits, m + 1, 0);
      assert a + tail == a + ([POINT] + [48]);
    }
  }

  lemma FixedReads(negative: bool, digits: Text, point: int, tail: Text)
    requires Normal(Digits(negative, digits, point))
    requires tail == [] || (tail == [POINT, 48] && |digits| <= point)
    ensures ReadUnsigned(negative, Fixed(digits, point) + tail) == Digits(negative, digits, point)
  {
    hide ReadMantissa, Fixed, Find, ReadExponent;
    var t := Fixed(digits, point) + tail;
    if |digits| <= point {
      LargeReads(negative, digits, point, tail);
    } else {
      assert t == Fixed(digits, point);
      if point <= 0 {
        SmallReads(negative, digits, point);
      } else {
        MiddleReads(negative, digits, point);
      }
    }
    FindNone(t, EXPONENT);
    assert t[..|t|] == t;
  }

  lemma MantissaReads(negative: bool, digits: Text, point: int)
    requires Normal(Digits(negative, digits, point))
    ensures ReadMantissa(negative, Mantissa(digits), point - 1) == Digits(negative, digits, point)
    ensures EXPONENT !in Mantissa(digits)
  {
    hide ReadMantissa;
    assert [digits[0]] + digits[1..] == Zeros(0) + (digits + Zeros(0));
    MantissaOf(negative, [digits[0]], digits[1..], 0, digits, 0, point - 1);
    if |digits| == 1 {
      assert Mantissa(digits) == [digits[0]];
    }
  }

  lemma ExponentReads(rt: Runtime, e: int, tail: Text)
    requires tail == [] || tail == [POINT, 48]
    ensures ReadExponent(ExponentText(rt, e) + tail) == e
  {
    hide Find, Numeral;
    var x, digits := ExponentText(rt, e), Numeral(Abs(e));
    PlainDigits(digits);
    assert POINT !in x;
    FindNone(x, POINT);
    if tail != [] {
      FindAt(x, POINT, [48]);
      assert tail == [POINT] + [48];
    } else {
      assert x + tail == x;
    }
    assert (x + tail)[..|x|] == x;
    NumeralRoundTrip(Abs(e));
    NumeralZero(digits);
    assert x[1..] == (if rt.Python? && Abs(e) < 10 then [48] + digits else digits);
  }

  lemma ScientificReads(rt: Runtime, negative: bool, digits: Text, point: int, tail: Text)
    requires Normal(Digits(negative, digits, point)) && (tail == [] || tail == [POINT, 48])
    ensures ReadUnsigned(negative, Mantissa(digits) + ([EXPONENT] + (ExponentText(rt, point - 1) + tail)))
         == Digits(negative, digits, point)
  {
    hide ReadMantissa, ReadExponent, Mantissa, Find, ExponentText;
    var m, e := Mantissa(digits), ExponentText(rt, point - 1) + tail;
    MantissaReads(negative, digits, point);
    ExponentReads(rt, point - 1, tail);
    FindAt(m, EXPONENT, e);
    var t := m + ([EXPONENT] + e);
    assert t[..|m|] == m && t[|m| + 1..] == e;
  }

  lemma UnsignedReads(rt: Runtime, negative: bool, digits: Text, point: int, tail: Text)
    requires Normal(Digits(negative, digits, point))
    requires tail == [] || (rt.JavaScript? && tail == [POINT, 48] && |digits| <= point)
    ensures ReadUnsigned(negative, Unsigned(rt, digits, point) + tail) == Digits(negative, digits, point)
  {
    hide ReadUnsigned, Mantissa, Fixed, ExponentText;
    if PrintsFixed(rt, point) {
      var more := (if rt.Python? && |digits| <= point then [POINT, 48] else []) + tail;
      FixedReads(negative, digits, point, more);
      assert Unsigned(rt, digits, point) + tail == Fixed(digits, point) + more;
    } else {
      ScientificReads(rt, negative, digits, point, tail);
      assert Unsigned(rt, digits, point) + tail
          == Mantissa(digits) + ([EXPONENT] + (ExponentText(rt, point - 1) + tail));
    }
  }

  lemma UnsignedStarts(rt: Runtime, digits: Text, point: int)
    requires digits != [] && AllDigits(digits)
    ensures Unsigned(rt, digits, point) != [] && 48 <= Unsigned(rt, digits, point)[0] <= 57
  {
    hide ExponentText;
  }

  /** The text of a float, also with the port's ".0" after a whole one, is read back as the float. */
  lemma FloatReads(rt: Runtime, x: Decimal, tail: Text)
    requires Normal(x) && (tail == [] || (rt.JavaScript? && tail == [POINT, 48] && IsWhole(x)))
    ensures Read(FloatText(rt, x) + tail) == if rt.JavaScript? && x.Zero? then Zero(false) else x
  {
    hide ReadUnsigned, Unsigned;
    match x {
      case Zero(negative) => ZeroReads(rt, negative, tail);
      case Digits(negative, digits, point) =>
        var body := Unsigned(rt, digits, point);
        UnsignedReads(rt, negative, digits, point, tail);
        UnsignedStarts(rt, digits, point);
        var t := Sign(negative) + body + tail;
        assert t[|Sign(negative)|..] == body + tail;
    }
  }

  lemma ZeroReads(rt: Runtime, negative: bool, tail: Text)
    requires tail == [] || (rt.JavaScript? && tail == [POINT, 48])
    ensures Read(FloatText(rt, Zero(negative)) + tail) == Zero(rt.Python? && negative)
  {
    hide ReadUnsigned;
    var sign := rt.Python? && negative;
    var t: Text := if rt.Python? || tail != [] then [48, POINT, 48] else [48];
    NoughtReads(sign, t);
    assert FloatText(rt, Zero(negative)) + tail == Sign(sign) + t;
    assert (Sign(sign) + t)[|Sign(sign)|..] == t;
  }

  lemma NoughtReads(negative: bool, t: Text)
    requires t == [48] || t == [48, POINT, 48]
    ensures ReadUnsigned(negative, t) == Zero(negative)
  {
    hide Find, Trim;
    FindNone(t, EXPONENT);
    assert t[..|t|] == t;
    if |t| == 1 {
      FindNone(t, POINT);
      LeadingAll(t + []);
    } else {
      FindAt([48], POINT, [48]);
      assert t == [48] + ([POINT] + [48]);
      LeadingAll(t[..1] + t[2..]);
    }
  }

  lemma {:induction false} LeadingAll(t: Text)
    requires forall i | 0 <= i < |t| :: t[i] == 48
    ensures Leading(t) == |t|
  {
    if t != [] {
      LeadingAll(t[1..]);
    }
  }

  // ----- one text, one number --------------------------------------------------------------------------

  predicate NumberUnit(u: Unit) {
    48 <= u <= 57 || u == MINUS || u == PLUS || u == POINT || u == EXPONENT
  }

  predicate AllNumber(t: Text) {
    forall i | 0 <= i < |t| :: NumberUnit(t[i])
  }

  lemma FixedShape(digits: Text, point: int)
    requires digits != [] && AllDigits(digits)
    ensures var t := Fixed(digits, point);
            t != [] && AllNumber(t) && 48 <= t[0] <= 57 && (point < |digits| ==> POINT in t)
  {
    var t := Fixed(digits, point);
    if point <= 0 {
      assert t[1] == POINT;
    } else if point < |digits| {
      assert t[point] == POINT;
    }
  }

  lemma UnsignedShape(rt: Runtime, digits: Text, point: int)
    requires digits != [] && AllDigits(digits)
    ensures var t := Unsigned(rt, digits, point);
            && t != [] && AllNumber(t) && 48 <= t[0] <= 57
            && (rt.Python? || point < |digits| ==> POINT in t || EXPONENT in t)
  {
    hide Numeral, Abs, Fixed;
    var t := Unsigned(rt, digits, point);
    if !PrintsFixed(rt, point) {
      assert t[|Mantissa(digits)|] == EXPONENT;
    } else {
      FixedShape(digits, point);
      assert rt.Python? && |digits| <= point ==> t[|Fixed(digits, point)|] == POINT;
      assert forall u <- Fixed(digits, point) :: u in t;
    }
  }

  lemma FloatShape(rt: Runtime, x: Decimal)
    requires Normal(x)
    ensures var t := FloatText(rt, x);
            && t != [] && AllNumber(t) && (48 <= t[0] <= 57 || t[0] == MINUS)
            && (rt.Python? || !IsWhole(x) ==> POINT in t || EXPONENT in t)
  {
    hide Unsigned;
    if x.Digits? {
      UnsignedShape(rt, x.digits, x.point);
      var t := Sign(x.negative) + Unsigned(rt, x.digits, x.point);
      assert forall u <- Unsigned(rt, x.digits, x.point) :: u in t;
    } else {
      assert FloatText(Python, x)[|Sign(x.negative)| + 1] == POINT;
    }
  }

  lemma NumberShape(rt: Runtime, x: Number, float: bool)
    ensures var t := NumberText(rt, x, float); t != [] && AllNumber(t) && (48 <= t[0] <= 57 || t[0] == MINUS)
    ensures (if rt.Python? then x.Float? else float) ==>
              POINT in NumberText(rt, x, float) || EXPONENT in NumberText(rt, x, float)
  {
    hide FloatText, Numeral, Held;
    if rt.JavaScript? {
      FloatShape(rt, Held(rt, x));
      var t := FloatText(rt, Held(rt, x));
      assert forall u <- t :: u in t + [POINT, 48];
      assert POINT in t + [POINT, 48];
      assert t + [] == t;
    } else if x.Float? {
      FloatShape(rt, x.x);
    }
  }

  lemma SignedRoundTrip(n: int)
    ensures (if Signed(n)[0] == MINUS then -NumeralValue(Signed(n)[1..]) else NumeralValue(Signed(n))) == n
    ensures POINT !in Signed(n) && EXPONENT !in Signed(n)
  {
    hide Numeral, NumeralValue;
    NumeralRoundTrip(Abs(n));
    PlainDigits(Numeral(Abs(n)));
    assert n < 0 ==> Signed(n)[1..] == Numeral(Abs(n));
    assert n >= 0 ==> Signed(n) == Numeral(Abs(n));
  }

  lemma PortReads(js: Js, x: Number, float: bool)
    ensures Read(NumberText(js, x, float)) == Held(js, x)
  {
    hide FloatText, Read;
    var d := Held(js, x);
    var tail: Text := if float && IsWhole(d) then [POINT, 48] else [];
    FloatReads(js, d, tail);
  }

  lemma ServiceReads(x: Double)
    ensures Read(FloatText(Python, x)) == x
  {
    hide FloatText, Read;
    FloatReads(Python, x, []);
    assert FloatText(Python, x) + [] == FloatText(Python, x);
  }

  /** Within one runtime a text stands for one number: as a typed one on the service, as a double on the port. */
  lemma NumberUnique(rt: Runtime, x: Number, y: Number, float: bool)
    ensures NumberText(rt, x, float) == NumberText(rt, y, float)
       <==> if rt.Python? then x == y else Held(rt, x) == Held(rt, y)
  {
    hide FloatText, Read, DecimalOf, Signed, Held;
    if rt.JavaScript? {
      PortReads(rt, x, float);
      PortReads(rt, y, float);
    } else {
      NumberShape(rt, x, float);
      NumberShape(rt, y, float);
      match x {
        case Whole(n) => SignedRoundTrip(n);
        case Float(d) => ServiceReads(d);
      }
      match y {
        case Whole(n) => SignedRoundTrip(n);
        case Float(d) => ServiceReads(d);
      }
    }
  }

  // ----- where the runtimes agree ----------------------------------------------------------------------

  /**
   * Exactly the numbers both runtimes print alike, in a float field or outside one: an int that the port holds as a
   * double of the same digits, a float whose point both leave where it is or both leave to an exponent.
   */
  predicate PortableNumber(js: Js, x: Number, float: bool) {
    match x
    case Whole(n) => !float && Held(js, x) == DecimalOf(n) && |Numeral(Abs(n))| <= 21
    case Float(Zero(negative)) => float && !negative
    case Float(Digits(_, digits, point)) =>
      if -3 <= point <= 16 then float || |digits| > point else point <= -9 || (point > 21 && !float)
  }

  /** A numeral is the fixed form of its own digits. */
  lemma NumeralIsFixed(n: int)
    requires n != 0
    ensures var x := DecimalOf(n); x.Digits? && Signed(n) == Sign(x.negative) + Fixed(x.digits, x.point)
  {
    hide Numeral;
    TrimmedZeros(Numeral(Abs(n)));
  }

  lemma WholeText(js: Js, n: int)
    requires |Numeral(Abs(n))| <= 21
    ensures FloatText(js, DecimalOf(n)) == Signed(n)
  {
    hide Numeral;
    if n == 0 {
      NumeralNought();
    } else {
      NumeralIsFixed(n);
      TrimmedZeros(Numeral(Abs(n)));
    }
  }

  lemma NumeralNought()
    ensures Numeral(0) == [48]
  {
  }

  /** A numeral is read back as its number. */
  lemma SignedReads(n: int)
    ensures Read(Signed(n)) == DecimalOf(n)
  {
    hide Numeral, ReadUnsigned, Fixed;
    if n == 0 {
      NumeralNought();
      NoughtReads(false, [48]);
      assert Signed(0) == [48] && DecimalOf(0) == Zero(false);
    } else {
      var x := DecimalOf(n);
      NumeralIsFixed(n);
      FixedReads(x.negative, x.digits, x.point, []);
      var body := Fixed(x.digits, x.point);
      assert body + [] == body;
      NumeralStarts(n);
      assert x.negative ==> Signed(n)[1..] == body;
      assert !x.negative ==> Signed(n) == body;
    }
  }

  lemma NumeralStarts(n: int)
    ensures Signed(n) != [] && (Signed(n)[0] == MINUS <==> n < 0)
  {
  }

  lemma WholeAgrees(js: Js, n: int, float: bool)
    ensures NumberText(Python, Whole(n), float) == NumberText(js, Whole(n), float)
       <==> PortableNumber(js, Whole(n), float)
  {
    hide Numeral, FloatText, Held, Read, Signed, DecimalOf;
    var x := Whole(n);
    SignedRoundTrip(n);
    SignedReads(n);
    PortReads(js, x, float);
    if float {
      NumberShape(js, x, true);
    } else if Held(js, x) == DecimalOf(n) {
      if |Numeral(Abs(n))| <= 21 {
        WholeText(js, n);
      } else {
        LongWhole(js, n);
      }
    }
  }

  lemma LongWhole(js: Js, n: int)
    requires |Numeral(Abs(n))| > 21
    ensures EXPONENT in FloatText(js, DecimalOf(n))
  {
    hide Numeral, ExponentText;
    var x := DecimalOf(n);
    if x.Digits? {
      assert FloatText(js, x)[|Sign(x.negative)| + |Mantissa(x.digits)|] == EXPONENT;
    } else {
      NumeralNought();
    }
  }

  /** An exponent shorter than two digits is padded by the service only. */
  lemma ExponentAgrees(js: Js, e: int)
    ensures ExponentText(Python, e) == ExponentText(js, e) <==> Abs(e) >= 10
  {
    hide Numeral;
    assert Abs(e) < 10 ==> |ExponentText(Python, e)| == |ExponentText(js, e)| + 1;
  }

  lemma UnsignedAgrees(js: Js, digits: Text, point: int, tail: Text)
    requires Normal(Digits(false, digits, point)) && (tail == [] || (tail == [POINT, 48] && |digits| <= point))
    ensures var same := Unsigned(Python, digits, point) == Unsigned(js, digits, point) + tail;
            if -3 <= point <= 16 then same <==> (tail != [] <==> |digits| <= point)
            else same <==> (point <= -9 || (point > 21 && tail == []))
  {
    hide Fixed, Mantissa, ExponentText;
    var s, p := Unsigned(Python, digits, point), Unsigned(js, digits, point) + tail;
    if -3 <= point <= 16 {
      assert |digits| <= point && tail == [] ==> |s| == |p| + 2;
    } else if -5 <= point <= 21 {
      assert s[|Mantissa(digits)|] == EXPONENT;
      FixedPlain(digits, point, tail);
    } else {
      ExponentAgrees(js, point - 1);
      var m, a, b := Mantissa(digits), ExponentText(Python, point - 1), ExponentText(js, point - 1);
      assert s == m + ([EXPONENT] + a) && p == m + ([EXPONENT] + b) + tail;
      assert s[|m| + 1..] == a && p[|m| + 1..] == b + tail;
      assert Abs(point - 1) >= 10 ==> (s == p <==> tail == []);
      assert Abs(point - 1) < 10 ==> tail == [];
    }
  }

  lemma FloatAgrees(js: Js, x: Double, float: bool)
    ensures NumberText(Python, Float(x), float) == NumberText(js, Float(x), float)
       <==> PortableNumber(js, Float(x), float)
  {
    hide Unsigned;
    match x {
      case Zero(negative) =>
        assert NumberText(Python, Float(x), float)[0] == if negative then MINUS else 48;
      case Digits(negative, digits, point) =>
        var tail: Text := if float && |digits| <= point then [POINT, 48] else [];
        UnsignedAgrees(js, digits, point, tail);
        var s, p := Unsigned(Python, digits, point), Unsigned(js, digits, point) + tail;
        assert NumberText(Python, Float(x), float) == Sign(negative) + s;
        assert NumberText(js, Float(x), float) == Sign(negative) + p;
        assert (Sign(negative) + s)[|Sign(negative)|..] == s && (Sign(negative) + p)[|Sign(negative)|..] == p;
    }
  }

  lemma NumberAgrees(js: Js, x: Number, float: bool)
    ensures NumberText(Python, x, float) == NumberText(js, x, float) <==> PortableNumber(js, x, float)
  {
    match x {
      case Whole(n) => WholeAgrees(js, n, float);
      case Float(d) => FloatAgrees(js, d, float);
    }
  }

  // ----- integers --------------------------------------------------------------------------------------

  function Ten(k: nat): (r: nat) {
    if k == 0 then 1 else 10 * Ten(k - 1)
  }

  lemma {:induction false} NumeralLength(n: nat, k: nat)
    ensures n >= Ten(k) ==> |Numeral(n)| > k
    ensures k > 0 && n < Ten(k) ==> |Numeral(n)| <= k
    decreases k
  {
    if k > 1 {
      NumeralLength(n / 10, k - 1);
    } else if k == 1 && n >= 10 {
      assert Ten(1) == 10 * Ten(0) == 10;
    }
  }

  lemma TenTo17()
    ensures Ten(16) == 10000000000000000 && Ten(17) == 100000000000000000
  {
    assert Ten(4) == 10000;
    assert Ten(8) == 100000000;
    assert Ten(12) == 1000000000000;
  }

  /** An int up to 2^53 that the port holds as itself prints alike outside a float field. */
  lemma SafeInteger(js: Js, n: int)
    requires Abs(n) <= 0x20_0000_0000_0000 && js.nearest(n) == DecimalOf(n)
    ensures PortableNumber(js, Whole(n), false)
  {
    hide Numeral;
    TenTo17();
    NumeralLength(Abs(n), 16);
  }

  /** An int of more than seventeen digits that does not end in a zero never does: no double prints so many. */
  lemma LongInteger(js: Js, n: int, float: bool)
    requires Abs(n) > 100000000000000000 && Abs(n) % 10 != 0
    ensures !PortableNumber(js, Whole(n), float)
  {
    hide Numeral;
    TenTo17();
    NumeralLength(Abs(n), 17);
    LastDigit(Abs(n));
    assert Trim(Numeral(Abs(n))) == Numeral(Abs(n));
  }

  lemma LastDigit(n: nat)
    ensures Numeral(n)[|Numeral(n)| - 1] == 48 + n % 10
  {
  }

  lemma WholeDigits(js: Js, n: int, digits: Text, point: nat)
    requires Normal(Digits(false, digits, point)) && |digits| <= 17 && |digits| <= point <= 21
    requires js.nearest(n) == Digits(false, digits, point)
    ensures NumberText(js, Whole(n), false) == digits + Zeros(point - |digits|)
  {
    LargeFixed(digits, point);
  }

  /** 2^60 is a double, and still the service prints its nineteen digits and the port sixteen and three zeros. */
  lemma TwoToSixty(js: Js)
    requires js.nearest(1152921504606846976) == Digits(false, Numeral(1152921504606847), 19)
    ensures NumberText(Python, Whole(1152921504606846976), false) == Numeral(1152921504606846976)
    ensures NumberText(js, Whole(1152921504606846976), false) == Numeral(1152921504606847) + Zeros(3)
    ensures !PortableNumber(js, Whole(1152921504606846976), false)
  {
    hide Numeral, NumberText, PortableNumber, FloatText;
    LongInteger(js, 1152921504606846976, false);
    SixteenDigits();
    WholeDigits(js, 1152921504606846976, Numeral(1152921504606847), 19);
    ServiceInteger(1152921504606846976);
  }

  lemma ServiceInteger(n: nat)
    ensures NumberText(Python, Whole(n), false) == Numeral(n)
  {
    hide Numeral;
  }

  lemma SixteenDigits()
    ensures |Numeral(1152921504606847)| == 16 && Normal(Digits(false, Numeral(1152921504606847), 19))
  {
    hide Numeral;
    TenTo17();
    assert Ten(16) == 10 * Ten(15);
    NumeralLength(1152921504606847, 16);
    NumeralLength(1152921504606847, 15);
    LastDigit(1152921504606847);
  }

  // ----- magnitudes ------------------------------------------------------------------------------------

  /** The fraction 0.d1d2d3... */
  function Fraction(digits: Text): (r: real) {
    if digits == [] then 0.0 else
      var digit: int := digits[0];
      ((digit - 48) as real + Fraction(digits[1..])) / 10.0
  }

  /** r times ten to the power of e. */
  function Scaled(r: real, e: int): (v: real)
    decreases Abs(e)
  {
    if e == 0 then r else if e > 0 then 10.0 * Scaled(r, e - 1) else Scaled(r, e + 1) / 10.0
  }

  /** The absolute value of the number. */
  function Magnitude(x: Decimal): (v: real) {
    if x.Zero? then 0.0 else Scaled(Fraction(x.digits), x.point)
  }

  lemma {:induction false} FractionBelowOne(digits: Text)
    requires AllDigits(digits)
    ensures 0.0 <= Fraction(digits) < 1.0
  {
    if digits != [] {
      FractionBelowOne(digits[1..]);
    }
  }

  lemma {:induction false} ScaledOrder(a: real, b: real, e: int)
    requires a < b
    ensures Scaled(a, e) < Scaled(b, e)
    decreases Abs(e)
  {
    if e > 0 {
      ScaledOrder(a, b, e - 1);
    } else if e < 0 {
      ScaledOrder(a, b, e + 1);
    }
  }

  lemma {:induction false} ScaledTenth(e: int)
    ensures Scaled(0.1, e + 1) == Scaled(1.0, e) && Scaled(1.0, e) > 0.0
    decreases Abs(e)
  {
    if e > 0 {
      ScaledTenth(e - 1);
    } else if e < -1 {
      ScaledTenth(e + 1);
    } else if e == -1 {
      assert Scaled(1.0, -1) == Scaled(1.0, 0) / 10.0;
    } else {
      assert Scaled(0.1, 1) == 10.0 * Scaled(0.1, 0);
    }
  }

  lemma {:induction false} PowersAscend(a: int, b: int)
    requires a <= b
    ensures Scaled(1.0, a) <= Scaled(1.0, b)
    decreases b - a
  {
    if a < b {
      PowersAscend(a, b - 1);
      ScaledTenth(b - 1);
      ScaledTenth(b);
      ScaledOrder(0.1, 1.0, b);
    }
  }

  /** `point` is where the number lies between the powers of ten. */
  lemma PointIsMagnitude(x: Decimal, k: int)
    requires Normal(x) && x.Digits?
    ensures Magnitude(x) < Scaled(1.0, k) <==> x.point <= k
  {
    hide Scaled;
    FractionBelowOne(x.digits[1..]);
    var f := Fraction(x.digits);
    assert 0.1 <= f < 1.0;
    ScaledOrder(f, 1.0, x.point);
    ScaledTenth(x.point - 1);
    if 0.1 < f {
      ScaledOrder(0.1, f, x.point);
    }
    if x.point <= k {
      PowersAscend(x.point, k);
    } else {
      PowersAscend(k, x.point - 1);
    }
  }

  /**
   * A float in a float field prints alike exactly when it is the positive zero, its magnitude is in [1e-4, 1e16), or it
   * is below 1e-9 and no zero: from there the exponent has two digits, and the port pads none.
   */
  lemma FloatFieldPortable(js: Js, x: Double)
    ensures PortableNumber(js, Float(x), true) <==>
              || x == Zero(false)
              || (x.Digits? && Scaled(1.0, -4) <= Magnitude(x) < Scaled(1.0, 16))
              || (x.Digits? && Magnitude(x) < Scaled(1.0, -9))
  {
    hide Scaled, Magnitude;
    if x.Digits? {
      PointIsMagnitude(x, -4);
      PointIsMagnitude(x, 16);
      PointIsMagnitude(x, -9);
    }
  }
}
