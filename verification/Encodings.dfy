/** What the encodings mean: UTF-16 and UTF-8, the order of keys and tags, and when a number gets an exponent. */
module Encodings {
  import opened Numbers
  import opened Json
  import opened Rows
  import Jsonl

  // ----- UTF-16 and UTF-8 ---------------------------------------------------------------------------------

  /** A string as UTF-16 is read back as its code points. */
  lemma {:induction false} UnitsRoundTrip(s: string)
    ensures |Points(Units(s))| == |s| && forall i | 0 <= i < |s| :: Points(Units(s))[i] == s[i] as int
  {
    if s != [] {
      UnitsRoundTrip(s[1..]);
      var c, rest := s[0] as int, Units(s[1..]);
      if c < 0x1_0000 {
        assert Units(s) == [c] + rest;
        assert Units(s)[1..] == rest;
        assert !(High(c) || Low(c));
      } else {
        PairReads(c);
        var high, low := 0xD800 + (c - 0x1_0000) / 0x400, 0xDC00 + (c - 0x1_0000) % 0x400;
        assert Units(s) == [high, low] + rest;
        assert Units(s)[2..] == rest;
      }
    }
  }

  lemma PairReads(c: int)
    requires 0x1_0000 <= c < 0x11_0000
    ensures var high, low := 0xD800 + (c - 0x1_0000) / 0x400, 0xDC00 + (c - 0x1_0000) % 0x400;
            && 0xD800 <= high < 0xDC00 && 0xDC00 <= low < 0xE000
            && 0x1_0000 + (high - 0xD800) * 0x400 + (low - 0xDC00) == c
  {
  }

  /** A byte that continues a character. */
  predicate Continues(b: int) {
    0x80 <= b <= 0xBF
  }

  /** The character that a first byte and its continuations stand for, by the ranges of RFC 3629. */
  predicate Encodes(bytes: seq<int>, p: int) {
    if |bytes| == 1 then 0 <= bytes[0] < 0x80 && p == bytes[0]
    else if |bytes| == 2 then
      && 0xC2 <= bytes[0] <= 0xDF && Continues(bytes[1])
      && p == (bytes[0] - 0xC0) * 64 + (bytes[1] - 0x80)
    else if |bytes| == 3 then
      && 0xE0 <= bytes[0] <= 0xEF && Continues(bytes[1]) && Continues(bytes[2])
      && p == (bytes[0] - 0xE0) * 4096 + (bytes[1] - 0x80) * 64 + (bytes[2] - 0x80) && 0x800 <= p
    else
      && |bytes| == 4 && 0xF0 <= bytes[0] <= 0xF4
      && Continues(bytes[1]) && Continues(bytes[2]) && Continues(bytes[3])
      && p == (bytes[0] - 0xF0) * 262144 + (bytes[1] - 0x80) * 4096 + (bytes[2] - 0x80) * 64 + (bytes[3] - 0x80)
      && 0x1_0000 <= p
  }

  /** The bytes of a code point encode it, those of a lone surrogate the replacement character U+FFFD. */
  lemma BytesEncode(p: int)
    requires 0 <= p < 0x11_0000
    ensures Encodes(Jsonl.PointBytes(p), if 0xD800 <= p < 0xE000 then 0xFFFD else p)
  {
    var top, high, mid, low := p / 64 / 64 / 64, p / 64 / 64, p / 64, p % 64;
    assert p == mid * 64 + low && mid == high * 64 + mid % 64 && high == top * 64 + high % 64;
  }

  // ----- order --------------------------------------------------------------------------------------------

  /** At the first place where they differ the one is less, or it ends there. */
  ghost predicate Lexicographic(a: seq<int>, b: seq<int>) {
    exists k | 0 <= k <= |a| && k < |b| :: a[..k] == b[..k] && (k == |a| || a[k] < b[k])
  }

  lemma {:induction false} BeforeIs(a: seq<int>, b: seq<int>)
    ensures Before(a, b) <==> Lexicographic(a, b)
  {
    if a != [] && b != [] && a[0] == b[0] {
      BeforeIs(a[1..], b[1..]);
      if Lexicographic(a[1..], b[1..]) {
        var x, y := a[1..], b[1..];
        var k :| 0 <= k <= |x| && k < |y| && x[..k] == y[..k] && (k == |x| || x[k] < y[k]);
        assert a[..k + 1] == [a[0]] + x[..k] && b[..k + 1] == [b[0]] + y[..k];
      }
      if Lexicographic(a, b) {
        var k :| 0 <= k <= |a| && k < |b| && a[..k] == b[..k] && (k == |a| || a[k] < b[k]);
        assert k > 0;
        assert a[1..][..k - 1] == a[..k][1..] && b[1..][..k - 1] == b[..k][1..];
      }
    } else if b != [] && (a == [] || a[0] < b[0]) {
      assert a[..0] == b[..0];
    } else if b != [] {
      forall k | 0 < k <= |a| && k < |b| ensures a[..k] != b[..k] {
        assert a[..k][0] == a[0] && b[..k][0] == b[0];
      }
    }
  }

  /** The service orders keys and tags by their code points, the port by their code units. */
  lemma KeyOrderIs(rt: Runtime, a: Text, b: Text)
    ensures KeyBefore(rt, a, b) <==> if rt.Python? then Lexicographic(Points(a), Points(b)) else Lexicographic(a, b)
  {
    BeforeIs(SortKey(rt, a), SortKey(rt, b));
  }

  ghost predicate Sorted(rt: Runtime, xs: seq<Text>) {
    forall i, j :: 0 <= i < j < |xs| ==> !KeyBefore(rt, xs[j], xs[i])
  }

  /** Tags come out in order, each as often as it went in. */
  lemma {:induction false} TagsSorted(rt: Runtime, xs: seq<Text>)
    ensures Sorted(rt, SortTexts(rt, xs)) && multiset(SortTexts(rt, xs)) == multiset(xs)
  {
    hide InsertText, KeyBefore;
    if xs != [] {
      TagsSorted(rt, xs[1..]);
      InsertKeepsOrder(rt, xs[0], SortTexts(rt, xs[1..]));
    }
  }

  lemma {:induction false} InsertKeepsOrder(rt: Runtime, x: Text, xs: seq<Text>)
    requires Sorted(rt, xs)
    ensures Sorted(rt, InsertText(rt, x, xs))
  {
    hide KeyBefore;
    var r := InsertText(rt, x, xs);
    if xs == [] {
    } else if KeyBefore(rt, x, xs[0]) {
      forall j | 0 < j < |r| ensures !KeyBefore(rt, r[j], x) {
        NotBack(rt, x, xs[0], xs[j - 1], xs, j - 1);
      }
    } else {
      InsertKeepsOrder(rt, x, xs[1..]);
      var rest := InsertText(rt, x, xs[1..]);
      forall j | 0 <= j < |rest| ensures !KeyBefore(rt, rest[j], xs[0]) {
        assert rest[j] in multiset(rest);
        assert rest[j] == x || rest[j] in xs[1..];
      }
    }
  }

  lemma NotBack(rt: Runtime, x: Text, y: Text, z: Text, xs: seq<Text>, j: nat)
    requires KeyBefore(rt, x, y) && j < |xs| && xs[0] == y && xs[j] == z && Sorted(rt, xs)
    ensures !KeyBefore(rt, z, x)
  {
    hide KeyBefore;
    if KeyBefore(rt, z, x) {
      KeysTransitive(rt, z, x, y);
      KeysIrreflexive(rt, y);
      assert false;
    }
  }

  // ----- exponents ----------------------------------------------------------------------------------------

  /**
   * The service writes an exponent below 1e-4 and from 1e16 on, the port below 1e-6 and from 1e21 on; neither writes
   * one for a zero.
   */
  lemma ExponentExactly(rt: Runtime, x: Double)
    ensures EXPONENT in FloatText(rt, x) <==>
              && x.Digits?
              && !if rt.Python? then Scaled(1.0, -4) <= Magnitude(x) < Scaled(1.0, 16)
                  else Scaled(1.0, -6) <= Magnitude(x) < Scaled(1.0, 21)
  {
    hide Magnitude, Scaled;
    if x.Digits? {
      PointIsMagnitude(x, -4);
      PointIsMagnitude(x, 16);
      PointIsMagnitude(x, -6);
      PointIsMagnitude(x, 21);
      ExponentShown(rt, x.negative, x.digits, x.point);
    }
  }

  lemma ExponentShown(rt: Runtime, negative: bool, digits: Text, point: int)
    requires digits != [] && AllDigits(digits)
    ensures EXPONENT in Sign(negative) + Unsigned(rt, digits, point) <==> !PrintsFixed(rt, point)
  {
    if PrintsFixed(rt, point) {
      PlainDigits(digits);
      FixedPlain(digits, point, []);
      FixedPlain(digits, point, [POINT, 48]);
      assert Fixed(digits, point) + [] == Fixed(digits, point);
    } else {
      var m := Sign(negative) + Mantissa(digits);
      assert (Sign(negative) + Unsigned(rt, digits, point))[|m|] == EXPONENT;
    }
  }
}
