/** web/src/sim/sha256.ts: SHA-256 in JavaScript numbers, proved to compute the hash of FIPS 180-4. */
module Sha256 {
  import opened Fips

  // ----- JavaScript numbers ------------------------------------------------------------------

  /** Integers up to here are exact as doubles. */
  const SAFE: int := 0x20_0000_0000_0000

  /** Addition of doubles whose sum is exact. */
  function Sum(x: int, y: int): (r: int)
    requires -SAFE <= x + y <= SAFE
  {
    x + y
  }

  function ToUint32(x: int): (r: Word) {
    x % WORD
  }

  /** Bitwise operators work on, and yield, signed 32-bit numbers. */
  function ToInt32(x: int): (r: int)
    ensures -0x8000_0000 <= r < 0x8000_0000 && ToUint32(r) == ToUint32(x)
  {
    var u := x % WORD;
    if u >= 0x8000_0000 then u - WORD else u
  }

  predicate Signed(x: int) {
    -0x8000_0000 <= x < 0x8000_0000
  }

  function BitAnd(x: int, y: int): (r: int)
    ensures Signed(r) && ToUint32(r) == And(ToUint32(x), ToUint32(y))
  {
    ToInt32(And(ToUint32(x), ToUint32(y)))
  }

  function BitOr(x: int, y: int): (r: int)
    ensures Signed(r) && ToUint32(r) == Or(ToUint32(x), ToUint32(y))
  {
    ToInt32(Or(ToUint32(x), ToUint32(y)))
  }

  function BitXor(x: int, y: int): (r: int)
    ensures Signed(r) && ToUint32(r) == Xor(ToUint32(x), ToUint32(y))
  {
    ToInt32(Xor(ToUint32(x), ToUint32(y)))
  }

  function BitNot(x: int): (r: int)
    ensures Signed(r) && ToUint32(r) == Not(ToUint32(x))
  {
    -ToInt32(x) - 1
  }

  /** `>>>` */
  function ShiftRightZero(x: int, n: nat): (r: Word) {
    Shr(ToUint32(x), n)
  }

  /** `>>`, which keeps the sign */
  function ShiftRight(x: int, n: nat): (r: int) {
    Halved(ToInt32(x), n)
  }

  function Halved(x: int, n: nat): (r: int)
    decreases n
  {
    if n == 0 then x else Halved(x / 2, n - 1)
  }

  /** `<<` */
  function ShiftLeft(x: int, n: nat): (r: int)
    ensures Signed(r) && ToUint32(r) == Shl(ToUint32(x), n)
  {
    ToInt32(Shl(ToUint32(x), n))
  }

  function Rotate(x: Word, n: nat): (r: int)
    requires 0 < n < 32
    ensures Signed(r) && ToUint32(r) == Rotr(x, n)
  {
    hide ToInt32, BitOr, Or, Shr, Shl, ShiftLeft, Signed;
    BitOr(ShiftRightZero(x, n), ShiftLeft(x, 32 - n))
  }

  // ----- padding ------------------------------------------------------------------------------

  lemma HalvedSix(x: int)
    ensures Halved(x, 6) == x / 64
  {
    assert Halved(x, 6) == Halved(x / 2, 5);
    assert Halved(x / 2, 5) == Halved(x / 4, 4);
    assert Halved(x / 4, 4) == Halved(x / 8, 3);
    assert Halved(x / 8, 3) == Halved(x / 16, 2);
    assert Halved(x / 16, 2) == Halved(x / 32, 1);
    assert Halved(x / 32, 1) == Halved(x / 64, 0);
  }

  lemma Doubled(y: Word, n: nat)
    requires 2 * y < WORD
    ensures Shl(y, n + 1) == Shl(2 * y, n)
  {
  }

  lemma DoubledSix(y: nat)
    requires 64 * y < WORD
    ensures Shl(y, 6) == 64 * y
  {
    hide Shl;
    Doubled(y, 5);
    Doubled(2 * y, 4);
    Doubled(4 * y, 3);
    Doubled(8 * y, 2);
    Doubled(16 * y, 1);
    Doubled(32 * y, 0);
    ShlNone(64 * y);
  }

  lemma ShlNone(y: Word)
    ensures Shl(y, 0) == y
  {
  }

  lemma Small(x: int)
    requires 0 <= x < 0x8000_0000
    ensures ToInt32(x) == x && ToUint32(x) == x
  {
  }

  /** Shifting right and left again by six clears the low six bits. */
  lemma PaddedSize(n: nat)
    requires n + 72 < 0x8000_0000
    ensures ShiftLeft(ShiftRight(n + 72, 6), 6) == n + 9 + ZeroCount(n)
  {
    hide ToInt32, ToUint32, Halved, Shl;
    Small(n + 72);
    HalvedSix(n + 72);
    var y := (n + 72) / 64;
    Small(y);
    DoubledSix(y);
    Small(64 * y);
  }

  /** The two 32-bit stores write the 64-bit length. */
  lemma LengthStores(bits: nat)
    requires bits < WORD * WORD
    ensures WordBytes(ToUint32(bits / WORD)) + WordBytes(ToUint32(ShiftRightZero(bits, 0))) == LengthBytes(bits)
  {
    hide WordBytes;
  }

  /** DataView.setUint32, big-endian. */
  method SetUint32(a: array<Byte>, pos: nat, x: int)
    requires pos + 4 <= a.Length
    modifies a
    ensures a[..] == old(a[..pos]) + WordBytes(ToUint32(x)) + old(a[pos + 4..])
  {
    var u := ToUint32(x);
    var bytes := WordBytes(u);
    a[pos], a[pos + 1], a[pos + 2], a[pos + 3] := bytes[0], bytes[1], bytes[2], bytes[3];
  }

  method Pad(data: seq<Byte>) returns (padded: array<Byte>)
    requires |data| + 72 < 0x8000_0000
    ensures fresh(padded) && padded[..] == Padded(data)
  {
    hide ShiftLeft, ShiftRight, ZeroCount, LengthBytes;
    PaddedSize(|data|);
    var size := ShiftLeft(ShiftRight(Sum(Sum(|data|, 9), 63), 6), 6);
    padded := Filled(data, size, ZeroCount(|data|));
    StoreLength(padded, |data| * 8);
  }

  /** The message, the mark and zeros; a new Uint8Array is zero. */
  method Filled(data: seq<Byte>, size: nat, ghost zeros: nat) returns (padded: array<Byte>)
    requires size == |data| + 9 + zeros
    ensures fresh(padded) && padded.Length == size && padded[..size - 8] == data + [0x80] + Zeros(zeros)
  {
    padded := new Byte[size](_ => 0);
    for i := 0 to |data|
      invariant padded[..i] == data[..i]
      invariant forall j | i <= j < size :: padded[j] == 0
    {
      padded[i] := data[i];
    }
    padded[|data|] := 0x80;
  }

  /** The two stores of the bit length into the last eight bytes. */
  method StoreLength(padded: array<Byte>, bitLen: nat)
    requires 8 <= padded.Length && bitLen < WORD * WORD
    modifies padded
    ensures padded[..] == old(padded[..padded.Length - 8]) + LengthBytes(bitLen)
  {
    hide ShiftRightZero, WordBytes, LengthBytes, ToUint32;
    LengthStores(bitLen);
    SetUint32(padded, padded.Length - 8, bitLen / 0x1_0000_0000);
    SetUint32(padded, padded.Length - 4, ShiftRightZero(bitLen, 0));
  }

  // ----- the schedule ---------------------------------------------------------------------------

  /** DataView.getUint32, big-endian. */
  method GetUint32(a: array<Byte>, pos: nat) returns (x: Word)
    requires pos + 4 <= a.Length
    ensures x == WordAt(a[..], pos)
  {
    x := WordAt(a[..], pos);
  }

  lemma SumWords4(a: int, b: int, c: int, d: int)
    ensures ToUint32(a + b + c + d) == Add(ToUint32(b) + ToUint32(d), ToUint32(c) + ToUint32(a))
    ensures ToUint32(a + b + c + d) == Add(ToUint32(d) + ToUint32(c), ToUint32(b) + ToUint32(a))
  {
  }

  method NextWord(w16: Word, w15: Word, w7: Word, w2: Word) returns (x: Word)
    ensures x == Add(SmallSigma1(w2) + w7, SmallSigma0(w15) + w16)
  {
    hide Xor, Rotr, Shr, Rotate, BitXor, ToUint32;
    var s0 := BitXor(BitXor(Rotate(w15, 7), Rotate(w15, 18)), ShiftRightZero(w15, 3));
    var s1 := BitXor(BitXor(Rotate(w2, 17), Rotate(w2, 19)), ShiftRightZero(w2, 10));
    Unsigned(w15);
    Unsigned(w2);
    Unsigned(w16);
    Unsigned(w7);
    Unsigned(ShiftRightZero(w15, 3));
    Unsigned(ShiftRightZero(w2, 10));
    SumWords4(w16, s0, w7, s1);
    x := ToUint32(Sum(Sum(Sum(w16, s0), w7), s1));
  }

  lemma Unsigned(x: Word)
    ensures ToUint32(x) == x
  {
  }

  lemma WordOfBlock(bytes: seq<Byte>, off: nat, i: nat)
    requires off + 64 <= |bytes| && i + 4 <= 64
    ensures WordAt(bytes, off + i) == WordAt(bytes[off..off + 64], i)
  {
  }

  method FillSchedule(padded: array<Byte>, off: nat, w: array<Word>)
    requires off + 64 <= padded.Length && w.Length == 64
    modifies w
    ensures forall t | 0 <= t < 64 :: w[t] == Schedule(padded[off..off + 64], t)
  {
    hide Add, SmallSigma0, SmallSigma1, WordAt;
    ghost var block := padded[off..off + 64];
    for i := 0 to 16
      invariant forall t | 0 <= t < i :: w[t] == Schedule(block, t)
    {
      WordOfBlock(padded[..], off, 4 * i);
      assert padded[..][off..off + 64] == block;
      w[i] := GetUint32(padded, off + i * 4);
    }
    for i := 16 to 64
      invariant forall t | 0 <= t < i :: w[t] == Schedule(block, t)
    {
      w[i] := NextWord(w[i - 16], w[i - 15], w[i - 7], w[i - 2]);
    }
  }

  // ----- the compression --------------------------------------------------------------------------

  lemma SumWords5(a: int, b: int, c: int, d: int, e: int)
    ensures ToUint32(a + b + c + d + e) == Add(ToUint32(a) + ToUint32(b) + ToUint32(c), ToUint32(d) + ToUint32(e))
  {
  }

  lemma SumWords2(a: int, b: int)
    ensures ToUint32(a + b) == Add(ToUint32(a), ToUint32(b))
  {
  }

  method FirstSum(v: Working, k: Word, w: Word) returns (t1: Word)
    ensures t1 == T1(v, k, w)
  {
    hide Xor, And, Not, Rotr, Rotate, BitXor, BitAnd, BitNot, ToUint32;
    var S1 := BitXor(BitXor(Rotate(v.e, 6), Rotate(v.e, 11)), Rotate(v.e, 25));
    var ch := BitXor(BitAnd(v.e, v.f), BitAnd(BitNot(v.e), v.g));
    Unsigned(v.e);
    Unsigned(v.f);
    Unsigned(v.g);
    Unsigned(v.h);
    Unsigned(k);
    Unsigned(w);
    SumWords5(v.h, S1, ch, k, w);
    t1 := ToUint32(Sum(Sum(Sum(Sum(v.h, S1), ch), k), w));
  }

  method SecondSum(v: Working) returns (t2: Word)
    ensures t2 == T2(v)
  {
    hide Xor, And, Rotr, Rotate, BitXor, BitAnd, ToUint32;
    var S0 := BitXor(BitXor(Rotate(v.a, 2), Rotate(v.a, 13)), Rotate(v.a, 22));
    var maj := BitXor(BitXor(BitAnd(v.a, v.b), BitAnd(v.a, v.c)), BitAnd(v.b, v.c));
    Unsigned(v.a);
    Unsigned(v.b);
    Unsigned(v.c);
    SumWords2(S0, maj);
    t2 := ToUint32(Sum(S0, maj));
  }

  /** The compression loop, rotating the eight working variables. */
  method RunRounds(v: Working, w: array<Word>, ghost block: seq<Byte>) returns (v': Working)
    requires w.Length == 64 && |block| == 64
    requires forall t | 0 <= t < 64 :: w[t] == Schedule(block, t)
    ensures v' == Rounds(v, block, 64)
  {
    hide T1, T2, Schedule;
    var a, b, c, d, e, f, g, hh := v.a, v.b, v.c, v.d, v.e, v.f, v.g, v.h;
    for i := 0 to 64
      invariant Working(a, b, c, d, e, f, g, hh) == Rounds(v, block, i)
    {
      var t1 := FirstSum(Working(a, b, c, d, e, f, g, hh), K[i], w[i]);
      var t2 := SecondSum(Working(a, b, c, d, e, f, g, hh));
      hh := g;
      g := f;
      f := e;
      e := ToUint32(Sum(d, t1));
      d := c;
      c := b;
      b := a;
      a := ToUint32(Sum(t1, t2));
    }
    v' := Working(a, b, c, d, e, f, g, hh);
  }

  method CompressBlock(h: array<Word>, w: array<Word>, ghost block: seq<Byte>)
    requires h != w && h.Length == 8 && w.Length == 64 && |block| == 64
    requires forall t | 0 <= t < 64 :: w[t] == Schedule(block, t)
    modifies h
    ensures h[..] == Compress(old(h[..]), block)
  {
    hide Rounds, Schedule;
    var v := RunRounds(Working(h[0], h[1], h[2], h[3], h[4], h[5], h[6], h[7]), w, block);
    AddWords(h, v);
  }

  method AddWords(h: array<Word>, v: Working)
    requires h.Length == 8
    modifies h
    ensures h[..] == [Add(old(h[0]), v.a), Add(old(h[1]), v.b), Add(old(h[2]), v.c), Add(old(h[3]), v.d),
                      Add(old(h[4]), v.e), Add(old(h[5]), v.f), Add(old(h[6]), v.g), Add(old(h[7]), v.h)]
  {
    h[0] := ToUint32(Sum(h[0], v.a));
    h[1] := ToUint32(Sum(h[1], v.b));
    h[2] := ToUint32(Sum(h[2], v.c));
    h[3] := ToUint32(Sum(h[3], v.d));
    h[4] := ToUint32(Sum(h[4], v.e));
    h[5] := ToUint32(Sum(h[5], v.f));
    h[6] := ToUint32(Sum(h[6], v.g));
    h[7] := ToUint32(Sum(h[7], v.h));
  }

  // ----- the hash ------------------------------------------------------------------------------------

  method WriteDigest(h: array<Word>) returns (out: array<Byte>)
    requires h.Length == 8
    ensures fresh(out) && out[..] == Digest(h[..])
  {
    hide WordBytes;
    out := new Byte[32](_ => 0);
    for i := 0 to 8
      invariant out[..4 * i] == Digest(h[..i])
    {
      assert h[..i + 1][..i] == h[..i];
      Unsigned(h[i]);
      SetUint32(out, i * 4, h[i]);
      assert out[..4 * (i + 1)] == Digest(h[..i]) + WordBytes(h[i]);
    }
    assert h[..8] == h[..] && out[..32] == out[..];
  }

  /** The blocks of the padded message, one after the other. */
  method HashBlocks(padded: array<Byte>, h: array<Word>)
    requires padded.Length % 64 == 0 && h.Length == 8 && h[..] == H0
    modifies h
    ensures h[..] == Blocks(padded[..], padded.Length / 64)
  {
    hide Compress, Schedule, H0;
    var w := new Word[64](_ => 0);
    var off := 0;
    ghost var n := 0;
    ghost var bytes := padded[..];
    while off < padded.Length
      invariant off == 64 * n <= padded.Length && padded[..] == bytes
      invariant h[..] == Blocks(bytes, n)
    {
      FillSchedule(padded, off, w);
      assert padded[off..off + 64] == bytes[64 * n..64 * (n + 1)];
      CompressBlock(h, w, padded[off..off + 64]);
      off := off + 64;
      n := n + 1;
    }
    assert n == padded.Length / 64;
  }

  /** `sha256Bytes`: exactly the hash of FIPS 180-4, for every input below the 32-bit length limit. */
  method Sha256Bytes(data: seq<Byte>) returns (out: array<Byte>)
    requires |data| + 72 < 0x8000_0000
    ensures fresh(out) && out[..] == Fips.Sha256(data)
  {
    hide Blocks, Digest, Padded, ZeroCount;
    var padded := Pad(data);
    var h := new Word[8](i requires 0 <= i < 8 => H0[i]);
    assert h[..] == H0;
    HashBlocks(padded, h);
    out := WriteDigest(h);
  }
}
