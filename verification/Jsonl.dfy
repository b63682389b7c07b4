/** The JSON Lines body of a delivery: one canonical object a line, and what verifying an export checks. */
module Jsonl {
  import Fips
  import opened Numbers
  import opened Json

  // ----- lines --------------------------------------------------------------------------------------------------

  predicate NoControl(t: Text) {
    forall i | 0 <= i < |t| :: t[i] >= 32
  }

  lemma {:induction false} EscapedNoControl(rt: Runtime, s: Text, i: nat)
    requires i <= |s|
    ensures NoControl(Escaped(rt, s, i))
    decreases |s| - i
  {
    hide Escape;
    if i < |s| {
      EscapedNoControl(rt, s, i + 1);
      EscapeNoControl(rt, s, i);
    }
  }

  lemma EscapeNoControl(rt: Runtime, s: Text, i: nat)
    requires i < |s|
    ensures NoControl(Escape(rt, s, i))
  {
    hide Paired;
  }

  lemma QuotedNoControl(rt: Runtime, s: Text)
    ensures NoControl(Quoted(rt, s))
  {
    EscapedNoControl(rt, s, 0);
  }

  lemma {:induction false} PrintNoControl(rt: Runtime, v: Json, float: bool)
    ensures NoControl(Print(rt, v, float))
    decreases v
  {
    hide Quoted, NumberText;
    match v {
      case Num(x) => NumberShape(rt, x, float);
      case Str(s) => QuotedNoControl(rt, s);
      case Arr(items) => ItemsNoControl(rt, items, float);
      case Obj(fields) => FieldsNoControl(rt, fields, float);
      case _ =>
    }
  }

  lemma {:induction false} ItemsNoControl(rt: Runtime, items: Items, float: bool)
    ensures NoControl(PrintItems(rt, items, float))
    decreases items
  {
    hide Print;
    if items.Cons? {
      PrintNoControl(rt, items.head, float);
      ItemsNoControl(rt, items.tail, float);
    }
  }

  lemma {:induction false} FieldsNoControl(rt: Runtime, fields: Fields, float: bool)
    ensures NoControl(PrintFields(rt, fields, float))
    decreases fields
  {
    hide Print, Quoted, FloatField;
    if fields.Field? {
      QuotedNoControl(rt, fields.key);
      PrintNoControl(rt, fields.value, float || FloatField(fields.key));
      FieldsNoControl(rt, fields.rest, float);
    }
  }

  /** One line for each row. */
  function Lines(rt: Runtime, rows: seq<Json>): (lines: seq<Text>)
    ensures |lines| == |rows|
  {
    seq(|rows|, i requires 0 <= i < |rows| => Stringify(rt, rows[i], false))
  }

  /** `"\n".join(lines)`, and a final newline unless there is no line: every line is ended by a newline. */
  function Body(lines: seq<Text>): (t: Text) {
    if lines == [] then [] else lines[0] + [NEWLINE] + Body(lines[1..])
  }

  function CountNewlines(t: Text): (n: nat) {
    if t == [] then 0 else (if t[0] == NEWLINE then 1 else 0) + CountNewlines(t[1..])
  }

  /** The text up to the first newline and the text after it. */
  function SplitFirst(t: Text): (r: (Text, Text))
    ensures |r.1| <= |t| && (t != [] ==> |r.1| < |t|)
  {
    if t == [] then ([], [])
    else if t[0] == NEWLINE then ([], t[1..])
    else ([t[0]] + SplitFirst(t[1..]).0, SplitFirst(t[1..]).1)
  }

  function SplitLines(t: Text): (lines: seq<Text>)
    decreases |t|
  {
    if t == [] then [] else [SplitFirst(t).0] + SplitLines(SplitFirst(t).1)
  }

  lemma {:induction false} SplitLine(line: Text, rest: Text)
    requires NoControl(line)
    ensures SplitFirst(line + [NEWLINE] + rest) == (line, rest)
    ensures CountNewlines(line + [NEWLINE] + rest) == 1 + CountNewlines(rest)
  {
    var t := line + [NEWLINE] + rest;
    if line == [] {
      assert t == [NEWLINE] + rest;
    } else {
      SplitLine(line[1..], rest);
      assert t[1..] == line[1..] + [NEWLINE] + rest && t[0] == line[0] != NEWLINE;
      assert line == [line[0]] + line[1..];
    }
  }

  /** Splitting the body gives the lines back, and it has as many newlines as lines. */
  lemma {:induction false} BodyRoundTrip(lines: seq<Text>)
    requires forall i | 0 <= i < |lines| :: NoControl(lines[i])
    ensures SplitLines(Body(lines)) == lines && CountNewlines(Body(lines)) == |lines|
  {
    hide SplitFirst, CountNewlines, NoControl;
    if lines == [] {
      assert CountNewlines([]) == 0 by {
        NoNewlines();
      }
    } else {
      BodyRoundTrip(lines[1..]);
      SplitLine(lines[0], Body(lines[1..]));
      assert lines == [lines[0]] + lines[1..];
    }
  }

  lemma NoNewlines()
    ensures CountNewlines([]) == 0
  {
  }

  lemma LinesClean(rt: Runtime, rows: seq<Json>)
    ensures forall i | 0 <= i < |rows| :: NoControl(Lines(rt, rows)[i])
  {
    hide Stringify, Print, NoControl;
    forall i | 0 <= i < |rows| ensures NoControl(Lines(rt, rows)[i]) {
      StringifyIsCanon(rt, rows[i], false);
      PrintNoControl(rt, Canon(rt, rows[i]), false);
    }
  }

  /** Two bodies, of whichever runtimes, are equal only line by line. */
  lemma BodiesEqual(rt1: Runtime, rt2: Runtime, a: seq<Json>, b: seq<Json>)
    ensures Body(Lines(rt1, a)) == Body(Lines(rt2, b)) <==> Lines(rt1, a) == Lines(rt2, b)
  {
    hide Stringify, Body, NoControl;
    LinesClean(rt1, a);
    LinesClean(rt2, b);
    BodyRoundTrip(Lines(rt1, a));
    BodyRoundTrip(Lines(rt2, b));
  }

  /** Two bodies are equal exactly for rows the runtime sees as the same up to the order of keys. */
  lemma BodyInjective(rt: Runtime, a: seq<Json>, b: seq<Json>)
    ensures Body(Lines(rt, a)) == Body(Lines(rt, b))
       <==> |a| == |b| && forall i | 0 <= i < |a| :: Same(rt, Canon(rt, a[i]), Canon(rt, b[i]))
  {
    hide Stringify, Body, Canon, Same;
    BodiesEqual(rt, rt, a, b);
    forall i | 0 <= i < |a| && i < |b|
      ensures Lines(rt, a)[i] == Lines(rt, b)[i] <==> Same(rt, Canon(rt, a[i]), Canon(rt, b[i]))
    {
      StringifyInjective(rt, a[i], b[i], false);
    }
    if |a| == |b| && forall i | 0 <= i < |a| :: Same(rt, Canon(rt, a[i]), Canon(rt, b[i])) {
      assert Lines(rt, a) == Lines(rt, b);
    }
  }

  // ----- bytes ----------------------------------------------------------------------------------------------------

  /** UTF-8; a lone surrogate becomes the replacement character, as in TextEncoder. */
  function PointBytes(p: int): (bytes: seq<Fips.Byte>)
    requires 0 <= p < 0x11_0000
    ensures bytes != []
    ensures if p < 128 then bytes == [p] else bytes[0] >= 128
  {
    var top, high, mid, low := p / 64 / 64 / 64, p / 64 / 64 % 64, p / 64 % 64, p % 64;
    if p < 0x80 then [p]
    else if p < 0x800 then [192 + p / 64, 128 + low]
    else if 0xD800 <= p < 0xE000 then [239, 191, 189]
    else if p < 0x1_0000 then [224 + p / 64 / 64, 128 + mid, 128 + low]
    else [240 + top, 128 + high, 128 + mid, 128 + low]
  }

  predicate CodePoints(ps: seq<int>) {
    forall i | 0 <= i < |ps| :: 0 <= ps[i] < 0x11_0000
  }

  function Encoded(ps: seq<int>): (bytes: seq<Fips.Byte>)
    requires CodePoints(ps)
  {
    if ps == [] then [] else PointBytes(ps[0]) + Encoded(ps[1..])
  }

  lemma {:induction false} PointsUnicode(t: Text)
    ensures CodePoints(Points(t))
    ensures (forall i | 0 <= i < |Points(t)| :: Points(t)[i] < 0x1_0000) ==> Points(t) == t
  {
    if |t| > 1 && High(t[0]) && Low(t[1]) {
      PointsUnicode(t[2..]);
      assert Points(t)[0] >= 0x1_0000;
    } else if t != [] {
      PointsUnicode(t[1..]);
      assert Points(t)[1..] == Points(t[1..]);
      assert t == [t[0]] + t[1..];
    }
  }

  function Utf8(t: Text): (bytes: seq<Fips.Byte>) {
    PointsUnicode(t);
    Encoded(Points(t))
  }

  predicate Ascii(t: seq<int>) {
    forall i | 0 <= i < |t| :: 0 <= t[i] < 128
  }

  /** Bytes below 128 stand for themselves and for nothing else. */
  lemma {:induction false} AsciiEncoded(ps: seq<int>)
    requires CodePoints(ps)
    ensures Ascii(ps) <==> Ascii(Encoded(ps))
    ensures Ascii(ps) ==> Encoded(ps) == ps
  {
    hide PointBytes;
    if ps != [] {
      var first, rest := PointBytes(ps[0]), Encoded(ps[1..]);
      AsciiEncoded(ps[1..]);
      assert ps == [ps[0]] + ps[1..];
      assert (first + rest)[0] == first[0];
      assert (first + rest)[|first|..] == rest;
      if Ascii(first + rest) {
        assert Ascii(rest) by {
          assert forall i | 0 <= i < |rest| :: rest[i] == (first + rest)[|first| + i];
        }
      }
    }
  }

  lemma {:induction false} AsciiPoints(t: Text)
    requires Ascii(t)
    ensures Points(t) == t
  {
    if t != [] {
      AsciiPoints(t[1..]);
      assert t == [t[0]] + t[1..];
    }
  }

  lemma AsciiUtf8(t: Text)
    ensures Ascii(t) <==> Ascii(Utf8(t))
    ensures Ascii(t) ==> Utf8(t) == t
  {
    PointsUnicode(t);
    AsciiEncoded(Points(t));
    if Ascii(t) {
      AsciiPoints(t);
    }
    if Ascii(Points(t)) {
      assert Points(t) == t;
    }
  }

  lemma {:induction false} EscapedAscii(s: Text, i: nat)
    requires i <= |s|
    ensures Ascii(Escaped(Python, s, i))
    decreases |s| - i
  {
    hide Escape;
    if i < |s| {
      EscapedAscii(s, i + 1);
      EscapeAscii(s, i);
    }
  }

  lemma EscapeAscii(s: Text, i: nat)
    requires i < |s|
    ensures Ascii(Escape(Python, s, i))
  {
  }

  lemma {:induction false} PrintAscii(v: Json, float: bool)
    ensures Ascii(Print(Python, v, float))
    decreases v
  {
    hide NumberText, Escaped;
    match v {
      case Num(x) => NumberShape(Python, x, float);
      case Str(s) => EscapedAscii(s, 0);
      case Arr(items) => ItemsAscii(items, float);
      case Obj(fields) => FieldsAscii(fields, float);
      case _ =>
    }
  }

  lemma {:induction false} ItemsAscii(items: Items, float: bool)
    ensures Ascii(PrintItems(Python, items, float))
    decreases items
  {
    hide Print;
    if items.Cons? {
      PrintAscii(items.head, float);
      ItemsAscii(items.tail, float);
    }
  }

  lemma {:induction false} FieldsAscii(fields: Fields, float: bool)
    ensures Ascii(PrintFields(Python, fields, float))
    decreases fields
  {
    hide Print, Escaped, FloatField;
    if fields.Field? {
      EscapedAscii(fields.key, 0);
      PrintAscii(fields.value, float || FloatField(fields.key));
      FieldsAscii(fields.rest, float);
    }
  }

  lemma {:induction false} BodyAscii(lines: seq<Text>)
    requires forall i | 0 <= i < |lines| :: Ascii(lines[i])
    ensures Ascii(Body(lines))
  {
    if lines != [] {
      BodyAscii(lines[1..]);
    }
  }

  /** The service escapes everything past tilde: its bytes are its characters. */
  lemma ExportAscii(rows: seq<Json>)
    ensures Ascii(Body(Lines(Python, rows)))
    ensures Utf8(Body(Lines(Python, rows))) == Body(Lines(Python, rows))
  {
    hide Stringify, Print, Ascii, Body, Utf8;
    forall i | 0 <= i < |rows| ensures Ascii(Lines(Python, rows)[i]) {
      StringifyIsCanon(Python, rows[i], false);
      PrintAscii(Canon(Python, rows[i]), false);
    }
    BodyAscii(Lines(Python, rows));
    AsciiUtf8(Body(Lines(Python, rows)));
  }

  /** The bytes of two exports are equal exactly when their texts are. */
  lemma BytesEqual(js: Js, a: seq<Json>, b: seq<Json>)
    ensures ExportBytes(Python, a) == ExportBytes(js, b)
       <==> Body(Lines(Python, a)) == Body(Lines(js, b))
  {
    hide Body, Lines, Utf8, Ascii;
    ExportAscii(a);
    AsciiUtf8(Body(Lines(Python, a)));
    AsciiUtf8(Body(Lines(js, b)));
  }

  // ----- verifying an export --------------------------------------------------------------------------------------

  /** `body.count(b"\n")`. */
  function NewlineBytes(bytes: seq<Fips.Byte>): (n: nat) {
    if bytes == [] then 0 else (if bytes[0] == 10 then 1 else 0) + NewlineBytes(bytes[1..])
  }

  lemma {:induction false} NewlinesAgree(t: Text, bytes: seq<Fips.Byte>)
    requires t == bytes
    ensures NewlineBytes(bytes) == CountNewlines(t)
  {
    if t != [] {
      NewlinesAgree(t[1..], bytes[1..]);
    }
  }

  /** What a delivery row records of its object. */
  datatype Record = Record(checksum: seq<Fips.Byte>, rowCount: nat, sizeBytes: nat)

  /** SHA-256, which FIPS 180-4 defines for messages of fewer than 2^64 bits. */
  function Checksum(bytes: seq<Fips.Byte>): (r: seq<Fips.Byte>) {
    if 8 * |bytes| < Fips.WORD * Fips.WORD then Fips.Sha256(bytes) else []
  }

  function ExportBytes(rt: Runtime, rows: seq<Json>): (bytes: seq<Fips.Byte>) {
    Utf8(Body(Lines(rt, rows)))
  }

  function ExportRecord(rt: Runtime, rows: seq<Json>): (r: Record) {
    Record(Checksum(ExportBytes(rt, rows)), |rows|, |ExportBytes(rt, rows)|)
  }

  /** `verify`: the object read back must have the recorded checksum, number of lines and size. */
  predicate Verifies(record: Record, bytes: seq<Fips.Byte>) {
    Checksum(bytes) == record.checksum && NewlineBytes(bytes) == record.rowCount && |bytes| == record.sizeBytes
  }

  /** An untouched export verifies, and nothing of another size or another number of lines does. */
  lemma ExportVerifies(rows: seq<Json>, bytes: seq<Fips.Byte>)
    ensures bytes == ExportBytes(Python, rows) ==> Verifies(ExportRecord(Python, rows), bytes)
    ensures Verifies(ExportRecord(Python, rows), bytes) ==>
              |bytes| == |ExportBytes(Python, rows)|
              && NewlineBytes(bytes) == NewlineBytes(ExportBytes(Python, rows)) == |rows|
  {
    hide Checksum, Body, Lines, Utf8, NoControl, Ascii;
    ExportAscii(rows);
    LinesClean(Python, rows);
    BodyRoundTrip(Lines(Python, rows));
    NewlinesAgree(Body(Lines(Python, rows)), ExportBytes(Python, rows));
  }
}
