/** SHA-256 as FIPS 180-4 defines it, over naturals below 2^32 with bitwise operations defined bit by bit. */
module Fips {
  const WORD: nat := 0x1_0000_0000

  type Byte = x: nat | x < 256
  type Word = x: nat | x < 0x1_0000_0000

  // ----- bitwise operations -----------------------------------------------------------------

  datatype Gate = AndGate | OrGate | XorGate

  function Output(gate: Gate, a: bool, b: bool): (r: bool) {
    match gate
    case AndGate => a && b
    case OrGate => a || b
    case XorGate => a != b
  }

  function Pow2(n: nat): (r: nat)
    ensures r > 0
  {
    if n == 0 then 1 else 2 * Pow2(n - 1)
  }

  /** The gate applied to the low n bits of both words, bit by bit. */
  function Bitwise(gate: Gate, x: nat, y: nat, n: nat): (r: nat)
    ensures r < Pow2(n)
  {
    if n == 0 then 0 else
      2 * Bitwise(gate, x / 2, y / 2, n - 1) + if Output(gate, x % 2 == 1, y % 2 == 1) then 1 else 0
  }

  lemma Pow2Word()
    ensures Pow2(32) == WORD
  {
    assert Pow2(8) == 256;
    assert Pow2(16) == 0x1_0000;
    assert Pow2(24) == 0x100_0000;
    assert Pow2(32) == WORD;
  }

  function And(x: Word, y: Word): (r: Word) {
    Pow2Word();
    Bitwise(AndGate, x, y, 32)
  }

  function Or(x: Word, y: Word): (r: Word) {
    Pow2Word();
    Bitwise(OrGate, x, y, 32)
  }

  function Xor(x: Word, y: Word): (r: Word) {
    Pow2Word();
    Bitwise(XorGate, x, y, 32)
  }

  function Not(x: Word): (r: Word) {
    WORD - 1 - x
  }

  /** Addition modulo 2^32. */
  function Add(x: int, y: int): (r: Word) {
    (x + y) % WORD
  }

  /** Section 2.2.2: the shifts, one bit at a time, and the right rotation. */
  function Shr(x: Word, n: nat): (r: Word)
    ensures r <= x
  {
    if n == 0 then x else Shr(x / 2, n - 1)
  }

  function Shl(x: Word, n: nat): (r: Word)
    decreases n
  {
    if n == 0 then x else Shl(2 * x % WORD, n - 1)
  }

  function Rotr(x: Word, n: nat): (r: Word)
    requires 0 < n < 32
  {
    Or(Shr(x, n), Shl(x, 32 - n))
  }

  // ----- section 4.1.2: the six functions ----------------------------------------------------

  function Ch(x: Word, y: Word, z: Word): (r: Word) {
    Xor(And(x, y), And(Not(x), z))
  }

  function Maj(x: Word, y: Word, z: Word): (r: Word) {
    Xor(Xor(And(x, y), And(x, z)), And(y, z))
  }

  function BigSigma0(x: Word): (r: Word) {
    Xor(Xor(Rotr(x, 2), Rotr(x, 13)), Rotr(x, 22))
  }

  function BigSigma1(x: Word): (r: Word) {
    Xor(Xor(Rotr(x, 6), Rotr(x, 11)), Rotr(x, 25))
  }

  function SmallSigma0(x: Word): (r: Word) {
    Xor(Xor(Rotr(x, 7), Rotr(x, 18)), Shr(x, 3))
  }

  function SmallSigma1(x: Word): (r: Word) {
    Xor(Xor(Rotr(x, 17), Rotr(x, 19)), Shr(x, 10))
  }

  // ----- sections 4.2.2 and 5.3.3: the constants -----------------------------------------------

  // The round constants in eight rows, which keeps each within the verifier's reach.
  const ROW_0: seq<Word> := [
    0x428a2f98, 0x71374491, 0xb5c0fbcf, 0xe9b5dba5, 0x3956c25b, 0x59f111f1, 0x923f82a4, 0xab1c5ed5]
  const ROW_1: seq<Word> := [
    0xd807aa98, 0x12835b01, 0x243185be, 0x550c7dc3, 0x72be5d74, 0x80deb1fe, 0x9bdc06a7, 0xc19bf174]
  const ROW_2: seq<Word> := [
    0xe49b69c1, 0xefbe4786, 0x0fc19dc6, 0x240ca1cc, 0x2de92c6f, 0x4a7484aa, 0x5cb0a9dc, 0x76f988da]
  const ROW_3: seq<Word> := [
    0x983e5152, 0xa831c66d, 0xb00327c8, 0xbf597fc7, 0xc6e00bf3, 0xd5a79147, 0x06ca6351, 0x14292967]
  const ROW_4: seq<Word> := [
    0x27b70a85, 0x2e1b2138, 0x4d2c6dfc, 0x53380d13, 0x650a7354, 0x766a0abb, 0x81c2c92e, 0x92722c85]
  const ROW_5: seq<Word> := [
    0xa2bfe8a1, 0xa81a664b, 0xc24b8b70, 0xc76c51a3, 0xd192e819, 0xd6990624, 0xf40e3585, 0x106aa070]
  const ROW_6: seq<Word> := [
    0x19a4c116, 0x1e376c08, 0x2748774c, 0x34b0bcb5, 0x391c0cb3, 0x4ed8aa4a, 0x5b9cca4f, 0x682e6ff3]
  const ROW_7: seq<Word> := [
    0x748f82ee, 0x78a5636f, 0x84c87814, 0x8cc70208, 0x90befffa, 0xa4506ceb, 0xbef9a3f7, 0xc67178f2]

  const K: seq<Word> := ROW_0 + ROW_1 + ROW_2 + ROW_3 + ROW_4 + ROW_5 + ROW_6 + ROW_7

  const H0: seq<Word> := [
    0x6a09e667, 0xbb67ae85, 0x3c6ef372, 0xa54ff53a, 0x510e527f, 0x9b05688c, 0x1f83d9ab, 0x5be0cd19]

  // ----- section 5.1.1: padding ------------------------------------------------------------------

  function Zeros(n: nat): (r: seq<Byte>)
    ensures |r| == n
  {
    seq(n, _ => 0)
  }

  /** The number of zero bytes: the smallest that makes the message, the mark and the zeros 56 bytes modulo 64. */
  function ZeroCount(n: nat): (k: nat)
    ensures (n + 1 + k) % 64 == 56 && (n + 9 + k) % 64 == 0 && k < 64
  {
    (55 - n) % 64
  }

  function WordBytes(x: Word): (r: seq<Byte>)
    ensures |r| == 4
  {
    var high, mid, low := x / 256 / 256 / 256, x / 256 / 256, x / 256;
    [high, mid % 256, low % 256, x % 256]
  }

  /** The length of the message in bits as a 64-bit block. */
  function LengthBytes(bits: nat): (r: seq<Byte>)
    requires bits < WORD * WORD
    ensures |r| == 8
  {
    WordBytes(bits / WORD) + WordBytes(bits % WORD)
  }

  function Padded(m: seq<Byte>): (r: seq<Byte>)
    requires 8 * |m| < WORD * WORD
    ensures |r| == |m| + 9 + ZeroCount(|m|)
  {
    m + [0x80] + Zeros(ZeroCount(|m|)) + LengthBytes(8 * |m|)
  }

  // ----- section 6.2: the computation ---------------------------------------------------------------

  function WordAt(bytes: seq<Byte>, i: nat): (r: Word)
    requires i + 4 <= |bytes|
  {
    var b0: nat, b1: nat, b2: nat, b3: nat := bytes[i], bytes[i + 1], bytes[i + 2], bytes[i + 3];
    ((b0 * 256 + b1) * 256 + b2) * 256 + b3
  }

  /** The message schedule of one block. */
  function Schedule(block: seq<Byte>, t: nat): (r: Word)
    requires |block| == 64 && t < 64
  {
    if t < 16 then WordAt(block, 4 * t) else
      Add(SmallSigma1(Schedule(block, t - 2)) + Schedule(block, t - 7),
          SmallSigma0(Schedule(block, t - 15)) + Schedule(block, t - 16))
  }

  datatype Working = Working(a: Word, b: Word, c: Word, d: Word, e: Word, f: Word, g: Word, h: Word)

  function T1(v: Working, k: Word, w: Word): (r: Word) {
    Add(v.h + BigSigma1(v.e) + Ch(v.e, v.f, v.g), k + w)
  }

  function T2(v: Working): (r: Word) {
    Add(BigSigma0(v.a), Maj(v.a, v.b, v.c))
  }

  function Round(v: Working, k: Word, w: Word): (r: Working) {
    Working(Add(T1(v, k, w), T2(v)), v.a, v.b, v.c, Add(v.d, T1(v, k, w)), v.e, v.f, v.g)
  }

  function Rounds(v: Working, block: seq<Byte>, t: nat): (r: Working)
    requires |block| == 64 && t <= 64
  {
    if t == 0 then v else Round(Rounds(v, block, t - 1), K[t - 1], Schedule(block, t - 1))
  }

  function Start(h: seq<Word>): (v: Working)
    requires |h| == 8
  {
    Working(h[0], h[1], h[2], h[3], h[4], h[5], h[6], h[7])
  }

  function Compress(h: seq<Word>, block: seq<Byte>): (r: seq<Word>)
    requires |h| == 8 && |block| == 64
    ensures |r| == 8
  {
    var v := Rounds(Start(h), block, 64);
    [Add(h[0], v.a), Add(h[1], v.b), Add(h[2], v.c), Add(h[3], v.d),
     Add(h[4], v.e), Add(h[5], v.f), Add(h[6], v.g), Add(h[7], v.h)]
  }

  /** The hash value after the first n blocks. */
  function Blocks(padded: seq<Byte>, n: nat): (r: seq<Word>)
    requires 64 * n <= |padded|
    ensures |r| == 8
  {
    if n == 0 then H0 else Compress(Blocks(padded, n - 1), padded[64 * (n - 1)..64 * n])
  }

  function Digest(h: seq<Word>): (r: seq<Byte>)
    ensures |r| == 4 * |h|
  {
    if h == [] then [] else Digest(h[..|h| - 1]) + WordBytes(h[|h| - 1])
  }

  function Sha256(m: seq<Byte>): (r: seq<Byte>)
    requires 8 * |m| < WORD * WORD
    ensures |r| == 32
  {
    var padded := Padded(m);
    Digest(Blocks(padded, |padded| / 64))
  }

  // ----- the padding is a code -----------------------------------------------------------------------

  lemma LeastMultiple(n: nat, z: nat, m: nat)
    requires (n + 9 + z) % 64 == 0 && z < 64 && n + 9 <= m && m % 64 == 0
    ensures n + 9 + z <= m
  {
  }

  /** The padded length is the least multiple of 64 that holds the message, the mark and the length. */
  lemma PaddedLength(m: seq<Byte>, n: nat)
    requires 8 * |m| < WORD * WORD
    ensures |m| + 9 <= |Padded(m)| && |Padded(m)| % 64 == 0
    ensures n % 64 == 0 && |m| + 9 <= n ==> |Padded(m)| <= n
  {
    hide LengthBytes, Zeros, ZeroCount;
    assert |Padded(m)| == |m| + 9 + ZeroCount(|m|);
    if n % 64 == 0 && |m| + 9 <= n {
      LeastMultiple(|m|, ZeroCount(|m|), n);
    }
  }

  /** Reading the four bytes back gives the word. */
  lemma WordRoundTrip(x: Word)
    ensures WordAt(WordBytes(x), 0) == x
  {
    var high, mid, low := x / 256 / 256 / 256, x / 256 / 256, x / 256;
    assert x == low * 256 + x % 256 && low == mid * 256 + low % 256 && mid == high * 256 + mid % 256;
  }

  lemma WordBytesInjective(x: Word, y: Word)
    requires WordBytes(x) == WordBytes(y)
    ensures x == y
  {
    WordRoundTrip(x);
    WordRoundTrip(y);
  }

  lemma PaddedEnd(m: seq<Byte>)
    requires 8 * |m| < WORD * WORD
    ensures |Padded(m)| >= 8
    ensures Padded(m)[|Padded(m)| - 8..] == LengthBytes(8 * |m|)
    ensures Padded(m)[..|m|] == m
  {
  }

  /** Different messages have different paddings. */
  lemma PaddingInjective(a: seq<Byte>, b: seq<Byte>)
    requires 8 * |a| < WORD * WORD && 8 * |b| < WORD * WORD && Padded(a) == Padded(b)
    ensures a == b
  {
    PaddedEnd(a);
    PaddedEnd(b);
    var x, y := 8 * |a|, 8 * |b|;
    assert LengthBytes(x)[..4] == WordBytes(x / WORD) && LengthBytes(x)[4..] == WordBytes(x % WORD);
    assert LengthBytes(y)[..4] == WordBytes(y / WORD) && LengthBytes(y)[4..] == WordBytes(y % WORD);
    WordBytesInjective(x / WORD, y / WORD);
    WordBytesInjective(x % WORD, y % WORD);
    assert x == x / WORD * WORD + x % WORD && y == y / WORD * WORD + y % WORD;
  }
}
