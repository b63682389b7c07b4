/** `stableStringify` and json.dumps: JSON with sorted keys and no blanks, as each of the two runtimes prints it. */
module Json {
  import opened Numbers

  const QUOTE: Unit := 34
  const BACKSLASH: Unit := 92
  const COMMA: Unit := 44
  const COLON: Unit := 58
  const NEWLINE: Unit := 10

  // ----- strings (section 7 of RFC 8259) -----------------------------------------------------------

  function HexDigit(d: nat): (r: Unit)
    requires d < 16
  {
    if d < 10 then 48 + d else 87 + d
  }

  function HexValue(u: Unit): (r: nat) {
    if u >= 97 then u - 87 else if u >= 48 then u - 48 else 0
  }

  /** The letter of the two-unit escapes, or zero. */
  function Short(c: Unit): (r: Unit) {
    if c == QUOTE then QUOTE
    else if c == BACKSLASH then BACKSLASH
    else if c == 8 then 98
    else if c == 9 then 116
    else if c == 10 then 110
    else if c == 12 then 102
    else if c == 13 then 114
    else 0
  }

  function UnicodeEscape(c: Unit): (r: Text)
    ensures |r| == 6
  {
    var high, mid, low := c / 16 / 16 / 16, c / 16 / 16, c / 16;
    [BACKSLASH, 117, HexDigit(high % 16), HexDigit(mid % 16), HexDigit(low % 16), HexDigit(c % 16)]
  }

  predicate High(u: Unit) {
    0xD800 <= u < 0xDC00
  }

  predicate Low(u: Unit) {
    0xDC00 <= u < 0xE000
  }

  /** One half of a surrogate pair. */
  predicate Paired(s: Text, i: nat)
    requires i < |s|
  {
    || (High(s[i]) && i + 1 < |s| && Low(s[i + 1]))
    || (Low(s[i]) && i > 0 && High(s[i - 1]))
  }

  /** json.dumps escapes everything outside space to tilde; JSON.stringify only controls and lone surrogates. */
  predicate Escapes(rt: Runtime, s: Text, i: nat)
    requires i < |s|
  {
    s[i] < 32 || if rt.Python? then s[i] > 126 else (High(s[i]) || Low(s[i])) && !Paired(s, i)
  }

  function Escape(rt: Runtime, s: Text, i: nat): (r: Text)
    requires i < |s|
    ensures r != []
  {
    if Short(s[i]) != 0 then [BACKSLASH, Short(s[i])]
    else if Escapes(rt, s, i) then UnicodeEscape(s[i])
    else [s[i]]
  }

  /** The units from i on. */
  function Escaped(rt: Runtime, s: Text, i: nat): (r: Text)
    requires i <= |s|
    decreases |s| - i
  {
    if i == |s| then [] else Escape(rt, s, i) + Escaped(rt, s, i + 1)
  }

  function Quoted(rt: Runtime, s: Text): (r: Text) {
    [QUOTE] + Escaped(rt, s, 0) + [QUOTE]
  }

  /** Reads one escaped unit back: the unit and how much text it took. */
  function ReadUnit(t: Text): (r: (Unit, nat))
    requires t != []
    ensures 0 < r.1 <= |t|
  {
    if t[0] != BACKSLASH || |t| < 2 then (t[0], 1)
    else if t[1] == 117 && |t| >= 6 then
      var v := ((HexValue(t[2]) * 16 + HexValue(t[3])) * 16 + HexValue(t[4])) * 16 + HexValue(t[5]);
      (v % 0x1_0000, 6)
    else (if t[1] == 98 then 8 else if t[1] == 116 then 9 else if t[1] == 110 then 10
          else if t[1] == 102 then 12 else if t[1] == 114 then 13 else t[1], 2)
  }

  lemma HexRoundTrip(c: Unit)
    ensures var t := UnicodeEscape(c);
            ((HexValue(t[2]) * 16 + HexValue(t[3])) * 16 + HexValue(t[4])) * 16 + HexValue(t[5]) == c
  {
    var high, mid, low := c / 16 / 16 / 16, c / 16 / 16, c / 16;
    assert c == low * 16 + c % 16 && low == mid * 16 + low % 16 && mid == high * 16 + mid % 16 && high < 16;
    assert forall d | 0 <= d < 16 :: HexValue(HexDigit(d)) == d;
  }

  lemma ReadUnicode(c: Unit, rest: Text)
    ensures ReadUnit(UnicodeEscape(c) + rest) == (c, 6) && (UnicodeEscape(c) + rest)[0] != QUOTE
  {
    hide HexDigit, HexValue;
    HexRoundTrip(c);
    var t := UnicodeEscape(c);
    assert forall i | 0 <= i < 6 :: (t + rest)[i] == t[i];
  }

  lemma ReadShort(c: Unit, rest: Text)
    requires Short(c) != 0
    ensures ReadUnit([BACKSLASH, Short(c)] + rest) == (c, 2) && ([BACKSLASH, Short(c)] + rest)[0] != QUOTE
  {
    hide HexValue;
  }

  lemma ReadEscaped(rt: Runtime, s: Text, i: nat, rest: Text)
    requires i < |s|
    ensures ReadUnit(Escape(rt, s, i) + rest) == (s[i], |Escape(rt, s, i)|)
    ensures (Escape(rt, s, i) + rest)[0] != QUOTE
  {
    hide UnicodeEscape, Escapes, HexValue;
    if Short(s[i]) != 0 {
      ReadShort(s[i], rest);
    } else {
      ReadUnicode(s[i], rest);
    }
  }

  /** Reading the first unit of an escaped string, with whatever follows it. */
  lemma EscapedStep(rt: Runtime, s: Text, i: nat, rest: Text)
    requires i < |s|
    ensures var x, n := Escaped(rt, s, i) + rest, |Escape(rt, s, i)|;
            && x != [] && x[0] != QUOTE && ReadUnit(x) == (s[i], n) && x[n..] == Escaped(rt, s, i + 1) + rest
  {
    hide Escape, ReadUnit;
    var head, tail := Escape(rt, s, i), Escaped(rt, s, i + 1);
    ReadEscaped(rt, s, i, tail + rest);
    assert (head + tail) + rest == head + (tail + rest);
  }

  lemma EscapedEnd(rt: Runtime, s: Text, rest: Text)
    ensures Escaped(rt, s, |s|) + rest == rest
  {
  }

  /** Two quoted strings that read the same are the same, on whichever runtimes, and so is what follows them. */
  lemma {:induction false} EscapedUnique(rt1: Runtime, rt2: Runtime, a: Text, i: nat, b: Text, j: nat, r1: Text,
                                         r2: Text)
    requires i <= |a| && j <= |b|
    requires Escaped(rt1, a, i) + ([QUOTE] + r1) == Escaped(rt2, b, j) + ([QUOTE] + r2)
    ensures a[i..] == b[j..] && r1 == r2
    decreases |a| - i + |b| - j
  {
    hide Escape, ReadUnit, Escaped;
    if i < |a| {
      EscapedStep(rt1, a, i, [QUOTE] + r1);
    }
    if j < |b| {
      EscapedStep(rt2, b, j, [QUOTE] + r2);
    }
    if i == |a| || j == |b| {
      EscapedEnd(rt1, a, [QUOTE] + r1);
      EscapedEnd(rt2, b, [QUOTE] + r2);
      assert i == |a| && j == |b|;
      assert r1 == ([QUOTE] + r1)[1..] && r2 == ([QUOTE] + r2)[1..];
    } else {
      EscapedUnique(rt1, rt2, a, i + 1, b, j + 1, r1, r2);
      assert a[i..] == [a[i]] + a[i + 1..] && b[j..] == [b[j]] + b[j + 1..];
    }
  }

  lemma QuotedUnique(rt1: Runtime, rt2: Runtime, a: Text, b: Text, r1: Text, r2: Text)
    requires Quoted(rt1, a) + r1 == Quoted(rt2, b) + r2
    ensures a == b && r1 == r2 && Quoted(rt1, a) == Quoted(rt2, b)
  {
    var x, y := Escaped(rt1, a, 0) + ([QUOTE] + r1), Escaped(rt2, b, 0) + ([QUOTE] + r2);
    assert Quoted(rt1, a) + r1 == [QUOTE] + x && Quoted(rt2, b) + r2 == [QUOTE] + y;
    assert ([QUOTE] + x)[1..] == x && ([QUOTE] + y)[1..] == y;
    EscapedUnique(rt1, rt2, a, 0, b, 0, r1, r2);
    assert a[0..] == a && b[0..] == b;
    assert |Quoted(rt1, a)| == |Quoted(rt2, b)|;
    Cut(Quoted(rt1, a), Quoted(rt2, b), r1, r2);
  }

  /** What may follow a value: the end, or a unit no number contains. */
  predicate Ends(rest: Text) {
    rest == [] || !NumberUnit(rest[0])
  }

  lemma NumberFirst(a: Text, b: Text, r1: Text, r2: Text)
    requires AllNumber(a) && a != [] && Ends(r2) && a + r1 == b + r2
    ensures b != [] && b[0] == a[0]
  {
    assert (a + r1)[0] == a[0];
    assert b == [] ==> b + r2 == r2;
    assert b != [] ==> (b + r2)[0] == b[0];
  }

  lemma {:induction false} NumberEnds(a: Text, b: Text, r1: Text, r2: Text)
    requires AllNumber(a) && AllNumber(b) && Ends(r1) && Ends(r2) && a + r1 == b + r2
    ensures a == b && r1 == r2
  {
    if a != [] {
      NumberFirst(a, b, r1, r2);
      assert (a + r1)[1..] == a[1..] + r1 && (b + r2)[1..] == b[1..] + r2;
      NumberEnds(a[1..], b[1..], r1, r2);
    } else if b != [] {
      NumberFirst(b, a, r2, r1);
    } else {
      assert a + r1 == r1 && b + r2 == r2;
    }
  }

  // ----- values -----------------------------------------------------------------------------------------

  datatype Json = Null | Boolean(b: bool) | Num(x: Number) | Str(s: Text) | Arr(items: Items) | Obj(fields: Fields)
  datatype Items = Nil | Cons(head: Json, tail: Items)
  /** The fields of an object in insertion order. */
  datatype Fields = End | Field(key: Text, value: Json, rest: Fields)

  /** A string of code points as UTF-16. */
  function Units(s: string): (r: Text) {
    if s == [] then [] else
      var c := s[0] as int;
      (if c < 0x1_0000 then [c] else [0xD800 + (c - 0x1_0000) / 0x400, 0xDC00 + (c - 0x1_0000) % 0x400]) + Units(s[1..])
  }

  /** Below these fields every number is a float. */
  predicate FloatField(key: Text) {
    key == Units("weighted_score") || key == Units("spread") || key == Units("scores")
  }

  /** JSON.stringify with the fields in the order given. */
  function Print(rt: Runtime, v: Json, float: bool): (t: Text) {
    match v
    case Null => [110, 117, 108, 108]
    case Boolean(b) => if b then [116, 114, 117, 101] else [102, 97, 108, 115, 101]
    case Num(x) => NumberText(rt, x, float)
    case Str(s) => Quoted(rt, s)
    case Arr(items) => [91] + PrintItems(rt, items, float)
    case Obj(fields) => [123] + PrintFields(rt, fields, float)
  }

  function PrintItems(rt: Runtime, items: Items, float: bool): (t: Text) {
    match items
    case Nil => [93]
    case Cons(head, tail) =>
      Print(rt, head, float) + if tail.Nil? then [93] else [COMMA] + PrintItems(rt, tail, float)
  }

  function PrintFields(rt: Runtime, fields: Fields, float: bool): (t: Text) {
    match fields
    case End => [125]
    case Field(key, value, rest) =>
      Quoted(rt, key) + ([COLON] + (Print(rt, value, float || FloatField(key))
        + if rest.End? then [125] else [COMMA] + PrintFields(rt, rest, float)))
  }

  // ----- sorted keys -----------------------------------------------------------------------------------------

  /** The code points of a string. */
  function Points(s: Text): (r: seq<int>) {
    if s == [] then []
    else if |s| > 1 && High(s[0]) && Low(s[1]) then
      [0x1_0000 + (s[0] - 0xD800) * 0x400 + (s[1] - 0xDC00)] + Points(s[2..])
    else [s[0]] + Points(s[1..])
  }

  predicate Before(a: seq<int>, b: seq<int>) {
    b != [] && (a == [] || a[0] < b[0] || (a[0] == b[0] && Before(a[1..], b[1..])))
  }

  /** Python orders strings by code point, Array.prototype.sort by code unit. */
  function SortKey(rt: Runtime, s: Text): (r: seq<int>) {
    if rt.Python? then Points(s) else s
  }

  predicate KeyBefore(rt: Runtime, a: Text, b: Text) {
    Before(SortKey(rt, a), SortKey(rt, b))
  }

  datatype Part = Part(key: Text, text: Text)

  function InsertPart(rt: Runtime, p: Part, ps: seq<Part>): (r: seq<Part>) {
    if ps == [] || KeyBefore(rt, p.key, ps[0].key) then [p] + ps else [ps[0]] + InsertPart(rt, p, ps[1..])
  }

  function JoinParts(rt: Runtime, ps: seq<Part>): (t: Text) {
    if ps == [] then [125] else
      Quoted(rt, ps[0].key) + ([COLON] + (ps[0].text + if |ps| == 1 then [125] else [COMMA] + JoinParts(rt, ps[1..])))
  }

  /** `stableStringify`: the fields of every object printed in key order. */
  function Stringify(rt: Runtime, v: Json, float: bool): (t: Text) {
    match v
    case Arr(items) => [91] + StringifyItems(rt, items, float)
    case Obj(fields) => [123] + JoinParts(rt, SortedParts(rt, fields, float))
    case _ => Print(rt, v, float)
  }

  function StringifyItems(rt: Runtime, items: Items, float: bool): (t: Text) {
    match items
    case Nil => [93]
    case Cons(head, tail) =>
      Stringify(rt, head, float) + if tail.Nil? then [93] else [COMMA] + StringifyItems(rt, tail, float)
  }

  function SortedParts(rt: Runtime, fields: Fields, float: bool): (ps: seq<Part>) {
    match fields
    case End => []
    case Field(key, value, rest) =>
      InsertPart(rt, Part(key, Stringify(rt, value, float || FloatField(key))), SortedParts(rt, rest, float))
  }

  /** The same value with the fields of every object in key order. */
  function Canon(rt: Runtime, v: Json): (r: Json) {
    match v
    case Arr(items) => Arr(CanonItems(rt, items))
    case Obj(fields) => Obj(CanonFields(rt, fields))
    case _ => v
  }

  function CanonItems(rt: Runtime, items: Items): (r: Items) {
    match items
    case Nil => Nil
    case Cons(head, tail) => Cons(Canon(rt, head), CanonItems(rt, tail))
  }

  function InsertField(rt: Runtime, key: Text, value: Json, fields: Fields): (r: Fields) {
    if fields.End? || KeyBefore(rt, key, fields.key) then Field(key, value, fields)
    else Field(fields.key, fields.value, InsertField(rt, key, value, fields.rest))
  }

  function CanonFields(rt: Runtime, fields: Fields): (r: Fields) {
    match fields
    case End => End
    case Field(key, value, rest) => InsertField(rt, key, Canon(rt, value), CanonFields(rt, rest))
  }

  function PartsOf(rt: Runtime, fields: Fields, float: bool): (ps: seq<Part>) {
    match fields
    case End => []
    case Field(key, value, rest) =>
      [Part(key, Print(rt, value, float || FloatField(key)))] + PartsOf(rt, rest, float)
  }

  lemma {:induction false} InsertCommutes(rt: Runtime, key: Text, value: Json, fields: Fields, float: bool)
    ensures PartsOf(rt, InsertField(rt, key, value, fields), float)
         == InsertPart(rt, Part(key, Print(rt, value, float || FloatField(key))), PartsOf(rt, fields, float))
  {
    hide Print, FloatField;
    if fields.Field? && !KeyBefore(rt, key, fields.key) {
      InsertCommutes(rt, key, value, fields.rest, float);
    }
  }

  lemma {:induction false} JoinIsPrint(rt: Runtime, fields: Fields, float: bool)
    ensures JoinParts(rt, PartsOf(rt, fields, float)) == PrintFields(rt, fields, float)
  {
    hide Print, FloatField, Quoted;
    if fields.Field? {
      JoinIsPrint(rt, fields.rest, float);
      assert fields.rest.End? <==> PartsOf(rt, fields.rest, float) == [];
    }
  }

  /** Sorting while printing is printing the sorted value. */
  lemma {:induction false} StringifyIsCanon(rt: Runtime, v: Json, float: bool)
    ensures Stringify(rt, v, float) == Print(rt, Canon(rt, v), float)
  {
    match v {
      case Arr(items) => StringifyItemsIsCanon(rt, items, float);
      case Obj(fields) =>
        SortedPartsIsCanon(rt, fields, float);
        JoinIsPrint(rt, CanonFields(rt, fields), float);
      case _ =>
    }
  }

  lemma {:induction false} StringifyItemsIsCanon(rt: Runtime, items: Items, float: bool)
    ensures StringifyItems(rt, items, float) == PrintItems(rt, CanonItems(rt, items), float)
  {
    if items.Cons? {
      StringifyIsCanon(rt, items.head, float);
      StringifyItemsIsCanon(rt, items.tail, float);
    }
  }

  lemma {:induction false} SortedPartsIsCanon(rt: Runtime, fields: Fields, float: bool)
    ensures SortedParts(rt, fields, float) == PartsOf(rt, CanonFields(rt, fields), float)
  {
    hide Print, InsertPart, InsertField, FloatField;
    if fields.Field? {
      StringifyIsCanon(rt, fields.value, float || FloatField(fields.key));
      SortedPartsIsCanon(rt, fields.rest, float);
      InsertCommutes(rt, fields.key, Canon(rt, fields.value), CanonFields(rt, fields.rest), float);
    }
  }

  // ----- one text, one value ---------------------------------------------------------------------------------

  /** Which kind of value a first unit announces. */
  function Kind(u: Unit): (k: nat) {
    if u == 110 then 0 else if u == 116 then 1 else if u == 102 then 2
    else if u == QUOTE then 4 else if u == 91 then 5 else if u == 123 then 6
    else if u == MINUS || 48 <= u <= 57 then 3 else 7
  }

  function KindOf(v: Json): (k: nat) {
    match v
    case Null => 0
    case Boolean(b) => if b then 1 else 2
    case Num(_) => 3
    case Str(_) => 4
    case Arr(_) => 5
    case Obj(_) => 6
  }

  lemma FirstUnit(rt: Runtime, v: Json, float: bool, rest: Text)
    ensures Print(rt, v, float) != []
    ensures (Print(rt, v, float) + rest)[0] == Print(rt, v, float)[0] && Kind(Print(rt, v, float)[0]) == KindOf(v)
  {
    hide NumberText;
    if v.Num? {
      NumberShape(rt, v.x, float);
    }
  }

  lemma Cut(a: Text, b: Text, r1: Text, r2: Text)
    requires |a| == |b| && a + r1 == b + r2
    ensures a == b && r1 == r2
  {
    assert a == (a + r1)[..|a|] && b == (b + r2)[..|b|];
    assert r1 == (a + r1)[|a|..] && r2 == (b + r2)[|b|..];
  }

  lemma Nest(x: Text, a: Text, rest: Text)
    ensures (x + a) + rest == x + (a + rest)
  {
  }

  /** The same value but for its numbers and strings, which the two runtimes print alike. */
  predicate Alike(rt1: Runtime, rt2: Runtime, v: Json, w: Json, float: bool)
    decreases v
  {
    match v
    case Num(x) => w.Num? && NumberText(rt1, x, float) == NumberText(rt2, w.x, float)
    case Str(s) => w == v && Quoted(rt1, s) == Quoted(rt2, s)
    case Arr(items) => w.Arr? && AlikeItems(rt1, rt2, items, w.items, float)
    case Obj(fields) => w.Obj? && AlikeFields(rt1, rt2, fields, w.fields, float)
    case _ => w == v
  }

  predicate AlikeItems(rt1: Runtime, rt2: Runtime, a: Items, b: Items, float: bool)
    decreases a
  {
    if a.Nil? then b.Nil? else
      b.Cons? && Alike(rt1, rt2, a.head, b.head, float) && AlikeItems(rt1, rt2, a.tail, b.tail, float)
  }

  predicate AlikeFields(rt1: Runtime, rt2: Runtime, a: Fields, b: Fields, float: bool)
    decreases a
  {
    if a.End? then b.End? else
      && b.Field? && a.key == b.key && Quoted(rt1, a.key) == Quoted(rt2, a.key)
      && Alike(rt1, rt2, a.value, b.value, float || FloatField(a.key))
      && AlikeFields(rt1, rt2, a.rest, b.rest, float)
  }

  /**
   * A printed value can be read back from any text it starts, up to the end of the value, whichever runtime printed.
   */
  lemma {:induction false} PrintUnique(rt1: Runtime, rt2: Runtime, v: Json, w: Json, float: bool, r1: Text, r2: Text)
    requires Ends(r1) && Ends(r2) && Print(rt1, v, float) + r1 == Print(rt2, w, float) + r2
    ensures Alike(rt1, rt2, v, w, float) && r1 == r2
    decreases v
  {
    hide Quoted, NumberText, PrintItems, PrintFields, NumberUnit, AllNumber;
    FirstUnit(rt1, v, float, r1);
    FirstUnit(rt2, w, float, r2);
    match v {
      case Null => Cut(Print(rt1, v, float), Print(rt2, w, float), r1, r2);
      case Boolean(_) => Cut(Print(rt1, v, float), Print(rt2, w, float), r1, r2);
      case Num(x) =>
        NumberShape(rt1, x, float);
        NumberShape(rt2, w.x, float);
        NumberEnds(NumberText(rt1, x, float), NumberText(rt2, w.x, float), r1, r2);
      case Str(s) => QuotedUnique(rt1, rt2, s, w.s, r1, r2);
      case Arr(items) =>
        var x, y := PrintItems(rt1, items, float), PrintItems(rt2, w.items, float);
        Nest([91], x, r1);
        Nest([91], y, r2);
        Cut([91], [91], x + r1, y + r2);
        PrintItemsUnique(rt1, rt2, items, w.items, float, r1, r2);
      case Obj(fields) =>
        var x, y := PrintFields(rt1, fields, float), PrintFields(rt2, w.fields, float);
        Nest([123], x, r1);
        Nest([123], y, r2);
        Cut([123], [123], x + r1, y + r2);
        PrintFieldsUnique(rt1, rt2, fields, w.fields, float, r1, r2);
    }
  }

  /** What follows an item or a field value: the closing bracket, or a comma and the rest. */
  function After(close: Unit, last: bool, more: Text): (t: Text) {
    if last then [close] else [COMMA] + more
  }

  lemma AfterUnique(close: Unit, last1: bool, last2: bool, more1: Text, more2: Text, r1: Text, r2: Text)
    requires close != COMMA && After(close, last1, more1) + r1 == After(close, last2, more2) + r2
    ensures last1 == last2 && (last1 ==> r1 == r2) && (!last1 ==> more1 + r1 == more2 + r2)
  {
    var x, y := After(close, last1, more1), After(close, last2, more2);
    assert (x + r1)[0] == x[0] && (y + r2)[0] == y[0];
    if last1 {
      Cut([close], [close], r1, r2);
    } else {
      Nest([COMMA], more1, r1);
      Nest([COMMA], more2, r2);
      Cut([COMMA], [COMMA], more1 + r1, more2 + r2);
    }
  }

  lemma {:induction false} PrintItemsUnique(rt1: Runtime, rt2: Runtime, a: Items, b: Items, float: bool,
                                            r1: Text, r2: Text)
    requires PrintItems(rt1, a, float) + r1 == PrintItems(rt2, b, float) + r2
    ensures AlikeItems(rt1, rt2, a, b, float) && r1 == r2
    decreases a
  {
    hide Print, NumberUnit, Alike;
    ItemsFirst(rt1, a, float, r1);
    ItemsFirst(rt2, b, float, r2);
    if a.Nil? {
      Cut([93], [93], r1, r2);
    } else {
      var more1, more2 := PrintItems(rt1, a.tail, float), PrintItems(rt2, b.tail, float);
      var x, y := After(93, a.tail.Nil?, more1), After(93, b.tail.Nil?, more2);
      Nest(Print(rt1, a.head, float), x, r1);
      Nest(Print(rt2, b.head, float), y, r2);
      AfterEnds(93, a.tail.Nil?, more1, r1);
      AfterEnds(93, b.tail.Nil?, more2, r2);
      PrintUnique(rt1, rt2, a.head, b.head, float, x + r1, y + r2);
      AfterUnique(93, a.tail.Nil?, b.tail.Nil?, more1, more2, r1, r2);
      if a.tail.Cons? {
        PrintItemsUnique(rt1, rt2, a.tail, b.tail, float, r1, r2);
      }
    }
  }

  lemma AfterEnds(close: Unit, last: bool, more: Text, rest: Text)
    requires close == 93 || close == 125
    ensures Ends(After(close, last, more) + rest)
  {
  }

  /** The first unit tells an empty list from one with items. */
  lemma ItemsFirst(rt: Runtime, items: Items, float: bool, rest: Text)
    ensures PrintItems(rt, items, float) != []
    ensures ((PrintItems(rt, items, float) + rest)[0] == 93) == items.Nil?
  {
    hide Print;
    if items.Cons? {
      FirstUnit(rt, items.head, float, After(93, items.tail.Nil?, PrintItems(rt, items.tail, float)));
    }
  }

  lemma FieldsFirst(rt: Runtime, fields: Fields, float: bool, rest: Text)
    ensures PrintFields(rt, fields, float) != []
    ensures ((PrintFields(rt, fields, float) + rest)[0] == 125) == fields.End?
  {
    hide Print, Escaped;
  }

  lemma {:induction false} PrintFieldsUnique(rt1: Runtime, rt2: Runtime, a: Fields, b: Fields, float: bool,
                                             r1: Text, r2: Text)
    requires PrintFields(rt1, a, float) + r1 == PrintFields(rt2, b, float) + r2
    ensures AlikeFields(rt1, rt2, a, b, float) && r1 == r2
    decreases a
  {
    hide Print, NumberUnit, Quoted, FloatField, Alike;
    FieldsFirst(rt1, a, float, r1);
    FieldsFirst(rt2, b, float, r2);
    if a.End? {
      Cut([125], [125], r1, r2);
    } else {
      var more1, more2 := PrintFields(rt1, a.rest, float), PrintFields(rt2, b.rest, float);
      var x, y := After(125, a.rest.End?, more1), After(125, b.rest.End?, more2);
      var p, q := Print(rt1, a.value, float || FloatField(a.key)), Print(rt2, b.value, float || FloatField(b.key));
      FieldText(Quoted(rt1, a.key), p, x, r1);
      FieldText(Quoted(rt2, b.key), q, y, r2);
      QuotedUnique(rt1, rt2, a.key, b.key, [COLON] + (p + (x + r1)), [COLON] + (q + (y + r2)));
      Cut([COLON], [COLON], p + (x + r1), q + (y + r2));
      AfterEnds(125, a.rest.End?, more1, r1);
      AfterEnds(125, b.rest.End?, more2, r2);
      PrintUnique(rt1, rt2, a.value, b.value, float || FloatField(a.key), x + r1, y + r2);
      AfterUnique(125, a.rest.End?, b.rest.End?, more1, more2, r1, r2);
      if a.rest.Field? {
        PrintFieldsUnique(rt1, rt2, a.rest, b.rest, float, r1, r2);
      }
    }
  }

  lemma FieldText(key: Text, value: Text, after: Text, rest: Text)
    ensures (key + ([COLON] + (value + after))) + rest == key + ([COLON] + (value + (after + rest)))
  {
  }

  lemma {:induction false} AlikePrints(rt1: Runtime, rt2: Runtime, v: Json, w: Json, float: bool)
    requires Alike(rt1, rt2, v, w, float)
    ensures Print(rt1, v, float) == Print(rt2, w, float)
    decreases v
  {
    hide Quoted, NumberText;
    match v {
      case Arr(items) => AlikeItemsPrint(rt1, rt2, items, w.items, float);
      case Obj(fields) => AlikeFieldsPrint(rt1, rt2, fields, w.fields, float);
      case _ =>
    }
  }

  lemma {:induction false} AlikeItemsPrint(rt1: Runtime, rt2: Runtime, a: Items, b: Items, float: bool)
    requires AlikeItems(rt1, rt2, a, b, float)
    ensures PrintItems(rt1, a, float) == PrintItems(rt2, b, float)
    decreases a
  {
    hide Print, Alike;
    if a.Cons? {
      AlikePrints(rt1, rt2, a.head, b.head, float);
      AlikeItemsPrint(rt1, rt2, a.tail, b.tail, float);
    }
  }

  lemma {:induction false} AlikeFieldsPrint(rt1: Runtime, rt2: Runtime, a: Fields, b: Fields, float: bool)
    requires AlikeFields(rt1, rt2, a, b, float)
    ensures PrintFields(rt1, a, float) == PrintFields(rt2, b, float)
    decreases a
  {
    hide Print, Alike, Quoted, FloatField;
    if a.Field? {
      AlikePrints(rt1, rt2, a.value, b.value, float || FloatField(a.key));
      AlikeFieldsPrint(rt1, rt2, a.rest, b.rest, float);
    }
  }

  /** Equal values as the runtime sees them: the port tells no int from a float and no zero from a negative one. */
  predicate Same(rt: Runtime, v: Json, w: Json)
    decreases v
  {
    match v
    case Num(x) => w.Num? && if rt.Python? then x == w.x else Held(rt, x) == Held(rt, w.x)
    case Arr(items) => w.Arr? && SameItems(rt, items, w.items)
    case Obj(fields) => w.Obj? && SameFields(rt, fields, w.fields)
    case _ => w == v
  }

  predicate SameItems(rt: Runtime, a: Items, b: Items)
    decreases a
  {
    if a.Nil? then b.Nil? else b.Cons? && Same(rt, a.head, b.head) && SameItems(rt, a.tail, b.tail)
  }

  predicate SameFields(rt: Runtime, a: Fields, b: Fields)
    decreases a
  {
    if a.End? then b.End? else
      b.Field? && a.key == b.key && Same(rt, a.value, b.value) && SameFields(rt, a.rest, b.rest)
  }

  lemma {:induction false} SameAlike(rt: Runtime, v: Json, w: Json, float: bool)
    ensures Alike(rt, rt, v, w, float) <==> Same(rt, v, w)
    decreases v
  {
    hide Quoted, NumberText, Held;
    match v {
      case Num(x) =>
        if w.Num? {
          NumberUnique(rt, x, w.x, float);
        }
      case Arr(items) =>
        if w.Arr? {
          SameItemsAlike(rt, items, w.items, float);
        }
      case Obj(fields) =>
        if w.Obj? {
          SameFieldsAlike(rt, fields, w.fields, float);
        }
      case _ =>
    }
  }

  lemma {:induction false} SameItemsAlike(rt: Runtime, a: Items, b: Items, float: bool)
    ensures AlikeItems(rt, rt, a, b, float) <==> SameItems(rt, a, b)
    decreases a
  {
    hide Same, Alike;
    if a.Cons? && b.Cons? {
      SameAlike(rt, a.head, b.head, float);
      SameItemsAlike(rt, a.tail, b.tail, float);
    }
  }

  lemma {:induction false} SameFieldsAlike(rt: Runtime, a: Fields, b: Fields, float: bool)
    ensures AlikeFields(rt, rt, a, b, float) <==> SameFields(rt, a, b)
    decreases a
  {
    hide Same, Alike, Quoted, FloatField;
    if a.Field? && b.Field? {
      SameAlike(rt, a.value, b.value, float || FloatField(a.key));
      SameFieldsAlike(rt, a.rest, b.rest, float);
    }
  }

  /** The service sees typed values: being the same is being equal. */
  lemma {:induction false} SameIsEqual(v: Json, w: Json)
    ensures Same(Python, v, w) <==> v == w
    decreases v
  {
    match v {
      case Arr(items) =>
        if w.Arr? {
          SameItemsEqual(items, w.items);
        }
      case Obj(fields) =>
        if w.Obj? {
          SameFieldsEqual(fields, w.fields);
        }
      case _ =>
    }
  }

  lemma {:induction false} SameItemsEqual(a: Items, b: Items)
    ensures SameItems(Python, a, b) <==> a == b
    decreases a
  {
    if a.Cons? && b.Cons? {
      SameIsEqual(a.head, b.head);
      SameItemsEqual(a.tail, b.tail);
    }
  }

  lemma {:induction false} SameFieldsEqual(a: Fields, b: Fields)
    ensures SameFields(Python, a, b) <==> a == b
    decreases a
  {
    if a.Field? && b.Field? {
      SameIsEqual(a.value, b.value);
      SameFieldsEqual(a.rest, b.rest);
    }
  }

  /** Two texts are equal exactly when the values are alike for the runtimes that printed them, keys in order. */
  lemma TextsEqual(rt1: Runtime, rt2: Runtime, v: Json, w: Json, float: bool)
    ensures Stringify(rt1, v, float) == Stringify(rt2, w, float)
       <==> Alike(rt1, rt2, Canon(rt1, v), Canon(rt2, w), float)
  {
    hide Stringify, Print, Canon, Alike;
    StringifyIsCanon(rt1, v, float);
    StringifyIsCanon(rt2, w, float);
    if Stringify(rt1, v, float) == Stringify(rt2, w, float) {
      assert Print(rt1, Canon(rt1, v), float) + [] == Print(rt2, Canon(rt2, w), float) + [];
      PrintUnique(rt1, rt2, Canon(rt1, v), Canon(rt2, w), float, [], []);
    }
    if Alike(rt1, rt2, Canon(rt1, v), Canon(rt2, w), float) {
      AlikePrints(rt1, rt2, Canon(rt1, v), Canon(rt2, w), float);
    }
  }

  /** The canonical text is the same exactly for values that the runtime sees as the same up to the order of keys. */
  lemma StringifyInjective(rt: Runtime, v: Json, w: Json, float: bool)
    ensures Stringify(rt, v, float) == Stringify(rt, w, float) <==> Same(rt, Canon(rt, v), Canon(rt, w))
  {
    hide Stringify, Canon, Alike, Same;
    TextsEqual(rt, rt, v, w, float);
    SameAlike(rt, Canon(rt, v), Canon(rt, w), float);
  }

  // ----- key order does not matter ------------------------------------------------------------------------------

  datatype Maybe = Absent | Found(value: Json)

  function Lookup(fields: Fields, key: Text): (r: Maybe) {
    match fields
    case End => Absent
    case Field(k, value, rest) => if k == key then Found(value) else Lookup(rest, key)
  }

  /** Fields printed alike hold values printed alike under each key. */
  lemma {:induction false} AlikeLookup(rt1: Runtime, rt2: Runtime, a: Fields, b: Fields, float: bool, key: Text)
    requires AlikeFields(rt1, rt2, a, b, float)
    ensures Lookup(a, key).Found? <==> Lookup(b, key).Found?
    ensures Lookup(a, key).Found? ==>
              Alike(rt1, rt2, Lookup(a, key).value, Lookup(b, key).value, float || FloatField(key))
    decreases a
  {
    hide Alike, FloatField, Quoted;
    if a.Field? && a.key != key {
      AlikeLookup(rt1, rt2, a.rest, b.rest, float, key);
    }
  }

  function CanonFound(rt: Runtime, m: Maybe): (r: Maybe) {
    if m.Absent? then Absent else Found(Canon(rt, m.value))
  }

  predicate DistinctKeys(fields: Fields) {
    fields.Field? ==> Lookup(fields.rest, fields.key) == Absent && DistinctKeys(fields.rest)
  }

  lemma {:induction false} Irreflexive(a: seq<int>)
    ensures !Before(a, a)
  {
    if a != [] {
      Irreflexive(a[1..]);
    }
  }

  lemma {:induction false} Total(a: seq<int>, b: seq<int>)
    ensures a == b || Before(a, b) || Before(b, a)
  {
    if a != [] && b != [] && a[0] == b[0] {
      Total(a[1..], b[1..]);
      assert a == [a[0]] + a[1..] && b == [b[0]] + b[1..];
    }
  }

  lemma {:induction false} Transitive(a: seq<int>, b: seq<int>, c: seq<int>)
    requires Before(a, b) && Before(b, c)
    ensures Before(a, c)
  {
    if a != [] && a[0] == b[0] == c[0] {
      Transitive(a[1..], b[1..], c[1..]);
    }
  }

  function FromPoints(r: seq<int>): (s: seq<int>) {
    if r == [] then []
    else if r[0] >= 0x1_0000 then
      [0xD800 + (r[0] - 0x1_0000) / 0x400, 0xDC00 + (r[0] - 0x1_0000) % 0x400] + FromPoints(r[1..])
    else [r[0]] + FromPoints(r[1..])
  }

  lemma {:induction false} PointsRoundTrip(s: Text)
    ensures FromPoints(Points(s)) == s
  {
    if |s| > 1 && High(s[0]) && Low(s[1]) {
      PointsRoundTrip(s[2..]);
      assert s == [s[0], s[1]] + s[2..];
      assert Points(s)[1..] == Points(s[2..]);
    } else if s != [] {
      PointsRoundTrip(s[1..]);
      assert s == [s[0]] + s[1..];
      assert Points(s)[1..] == Points(s[1..]);
    }
  }

  lemma KeysIrreflexive(rt: Runtime, a: Text)
    ensures !KeyBefore(rt, a, a)
  {
    Irreflexive(SortKey(rt, a));
  }

  lemma KeysTotal(rt: Runtime, a: Text, b: Text)
    ensures a == b || KeyBefore(rt, a, b) || KeyBefore(rt, b, a)
  {
    Total(SortKey(rt, a), SortKey(rt, b));
    PointsRoundTrip(a);
    PointsRoundTrip(b);
  }

  lemma KeysTransitive(rt: Runtime, a: Text, b: Text, c: Text)
    requires KeyBefore(rt, a, b) && KeyBefore(rt, b, c)
    ensures KeyBefore(rt, a, c)
  {
    Transitive(SortKey(rt, a), SortKey(rt, b), SortKey(rt, c));
  }

  /** Every key of the list comes after `key`, and they ascend. */
  predicate Above(rt: Runtime, key: Text, fields: Fields)
    decreases fields
  {
    fields.Field? ==> KeyBefore(rt, key, fields.key) && Above(rt, fields.key, fields.rest)
  }

  predicate SortedFields(rt: Runtime, fields: Fields) {
    fields.Field? ==> Above(rt, fields.key, fields.rest)
  }

  lemma {:induction false} AbovePresent(rt: Runtime, key: Text, fields: Fields, k: Text)
    requires Above(rt, key, fields) && Lookup(fields, k).Found?
    ensures KeyBefore(rt, key, k)
    decreases fields
  {
    if k != fields.key {
      AbovePresent(rt, fields.key, fields.rest, k);
      KeysTransitive(rt, key, fields.key, k);
    }
  }

  lemma {:induction false} InsertSorted(rt: Runtime, low: Text, key: Text, value: Json, fields: Fields)
    requires Lookup(fields, key) == Absent && Above(rt, low, fields) && KeyBefore(rt, low, key)
    ensures Above(rt, low, InsertField(rt, key, value, fields))
    decreases fields
  {
    if fields.Field? && !KeyBefore(rt, key, fields.key) {
      KeysTotal(rt, key, fields.key);
      InsertSorted(rt, fields.key, key, value, fields.rest);
    }
  }

  lemma InsertFirst(rt: Runtime, key: Text, value: Json, fields: Fields)
    requires Lookup(fields, key) == Absent && SortedFields(rt, fields)
    ensures SortedFields(rt, InsertField(rt, key, value, fields))
  {
    if fields.Field? && !KeyBefore(rt, key, fields.key) {
      KeysTotal(rt, key, fields.key);
      InsertSorted(rt, fields.key, key, value, fields.rest);
    }
  }

  lemma {:induction false} InsertLookup(rt: Runtime, key: Text, value: Json, fields: Fields, k: Text)
    requires Lookup(fields, key) == Absent
    ensures Lookup(InsertField(rt, key, value, fields), k) == if k == key then Found(value) else Lookup(fields, k)
  {
    if fields.Field? && !KeyBefore(rt, key, fields.key) {
      InsertLookup(rt, key, value, fields.rest, k);
    }
  }

  lemma {:induction false} CanonLookup(rt: Runtime, fields: Fields, k: Text)
    requires DistinctKeys(fields)
    ensures Lookup(CanonFields(rt, fields), k) == CanonFound(rt, Lookup(fields, k))
  {
    hide Canon, InsertField;
    if fields.Field? {
      CanonLookup(rt, fields.rest, k);
      CanonLookup(rt, fields.rest, fields.key);
      InsertLookup(rt, fields.key, Canon(rt, fields.value), CanonFields(rt, fields.rest), k);
    }
  }

  lemma {:induction false} CanonSorted(rt: Runtime, fields: Fields)
    requires DistinctKeys(fields)
    ensures SortedFields(rt, CanonFields(rt, fields))
  {
    hide Canon, InsertField;
    if fields.Field? {
      CanonSorted(rt, fields.rest);
      CanonLookup(rt, fields.rest, fields.key);
      InsertFirst(rt, fields.key, Canon(rt, fields.value), CanonFields(rt, fields.rest));
    }
  }

  /** Two ascending lists with the same entries are the same list. */
  lemma {:induction false} SortedUnique(rt: Runtime, a: Fields, b: Fields)
    requires SortedFields(rt, a) && SortedFields(rt, b) && forall k :: Lookup(a, k) == Lookup(b, k)
    ensures a == b
  {
    if a.Field? && b.Field? {
      assert Lookup(b, a.key) == Lookup(a, a.key) && Lookup(a, b.key) == Lookup(b, b.key);
      if a.key != b.key {
        AbovePresent(rt, b.key, b.rest, a.key);
        AbovePresent(rt, a.key, a.rest, b.key);
        KeysTransitive(rt, a.key, b.key, a.key);
        KeysIrreflexive(rt, a.key);
        assert false;
      }
      forall k ensures Lookup(a.rest, k) == Lookup(b.rest, k) {
        if k == a.key {
          AboveAbsent(rt, a.key, a.rest);
          AboveAbsent(rt, a.key, b.rest);
        } else {
          assert Lookup(a, k) == Lookup(b, k);
        }
      }
      AboveSorted(rt, a.key, a.rest);
      AboveSorted(rt, b.key, b.rest);
      SortedUnique(rt, a.rest, b.rest);
    } else {
      assert a.Field? ==> Lookup(b, a.key) == Lookup(a, a.key);
      assert b.Field? ==> Lookup(a, b.key) == Lookup(b, b.key);
    }
  }

  lemma AboveAbsent(rt: Runtime, key: Text, fields: Fields)
    requires Above(rt, key, fields)
    ensures Lookup(fields, key) == Absent
  {
    if Lookup(fields, key).Found? {
      AbovePresent(rt, key, fields, key);
      KeysIrreflexive(rt, key);
    }
  }

  lemma AboveSorted(rt: Runtime, key: Text, fields: Fields)
    requires Above(rt, key, fields)
    ensures SortedFields(rt, fields)
  {
  }

  /** The same entries, their values in canonical form. */
  ghost predicate SameEntries(rt: Runtime, a: Fields, b: Fields) {
    forall k :: CanonFound(rt, Lookup(a, k)) == CanonFound(rt, Lookup(b, k))
  }

  /**
   * Objects have the same canonical form exactly when they hold the same fields, in whatever order they were inserted.
   */
  lemma KeyOrderIrrelevant(rt: Runtime, a: Fields, b: Fields)
    requires DistinctKeys(a) && DistinctKeys(b)
    ensures Canon(rt, Obj(a)) == Canon(rt, Obj(b)) <==> SameEntries(rt, a, b)
  {
    hide CanonFields, CanonFound, Lookup;
    CanonSorted(rt, a);
    CanonSorted(rt, b);
    forall k
      ensures Lookup(CanonFields(rt, a), k) == CanonFound(rt, Lookup(a, k))
      ensures Lookup(CanonFields(rt, b), k) == CanonFound(rt, Lookup(b, k))
    {
      CanonLookup(rt, a, k);
      CanonLookup(rt, b, k);
    }
    assert Canon(rt, Obj(a)) == Obj(CanonFields(rt, a)) && Canon(rt, Obj(b)) == Obj(CanonFields(rt, b));
    if CanonFields(rt, a) == CanonFields(rt, b) {
      forall k ensures CanonFound(rt, Lookup(a, k)) == CanonFound(rt, Lookup(b, k)) {
        assert Lookup(CanonFields(rt, a), k) == CanonFound(rt, Lookup(a, k));
      }
    }
    if SameEntries(rt, a, b) {
      forall k ensures Lookup(CanonFields(rt, a), k) == Lookup(CanonFields(rt, b), k) {
        assert CanonFound(rt, Lookup(a, k)) == CanonFound(rt, Lookup(b, k));
      }
      SortedUnique(rt, CanonFields(rt, a), CanonFields(rt, b));
    }
  }
}
