/** What the operations on 32-bit words and bytes do bit by bit, apart from how they are computed. */
module Words {
  import opened Fips

  /** Bit i of x, the units being bit 0. */
  predicate Bit(x: nat, i: nat) {
    x / Pow2(i) % 2 == 1
  }

  lemma BitHalved(x: nat, i: nat)
    ensures Bit(x, i + 1) == Bit(x / 2, i)
    ensures Bit(x, 0) == (x % 2 == 1)
  {
    DividedTwice(x, Pow2(i));
  }

  lemma DividedTwice(x: nat, p: nat)
    requires p > 0
    ensures x / (2 * p) == x / 2 / p
  {
    var q, r := x / 2 / p, x / 2 % p;
    assert x / 2 == q * p + r;
    assert x == q * (2 * p) + (2 * r + x % 2);
    Quotient(x, 2 * p, q, 2 * r + x % 2);
  }

  lemma Quotient(x: nat, p: nat, q: nat, r: nat)
    requires p > 0 && x == q * p + r && r < p
    ensures x / p == q && x % p == r
  {
    var d: int := x / p - q;
    assert x / p * p + x % p == x;
    assert d * p == r - x % p;
    Multiple(d, p);
  }

  lemma Multiple(d: int, p: int)
    requires -p < d * p < p
    ensures d == 0
  {
  }

  /** A word is its 32 bits. */
  lemma {:induction false} BitsDecide(x: nat, y: nat, n: nat)
    requires x < Pow2(n) && y < Pow2(n) && forall i: nat | i < n :: Bit(x, i) == Bit(y, i)
    ensures x == y
  {
    if n > 0 {
      BitHalved(x, 0);
      BitHalved(y, 0);
      forall i: nat | i < n - 1 ensures Bit(x / 2, i) == Bit(y / 2, i) {
        BitHalved(x, i);
        BitHalved(y, i);
      }
      BitsDecide(x / 2, y / 2, n - 1);
    }
  }

  lemma {:induction false} BitwiseBit(gate: Gate, x: nat, y: nat, n: nat, i: nat)
    requires i < n
    ensures Bit(Bitwise(gate, x, y, n), i) == Output(gate, Bit(x, i), Bit(y, i))
  {
    hide Bit;
    var r := Bitwise(gate, x, y, n);
    assert r / 2 == Bitwise(gate, x / 2, y / 2, n - 1);
    if i == 0 {
      BitHalved(x, 0);
      BitHalved(y, 0);
      BitHalved(r, 0);
    } else {
      BitHalved(x, i - 1);
      BitHalved(y, i - 1);
      BitHalved(r, i - 1);
      BitwiseBit(gate, x / 2, y / 2, n - 1, i - 1);
    }
  }

  lemma {:induction false} NotBit(x: nat, n: nat, i: nat)
    requires i < n && x < Pow2(n)
    ensures Bit(Pow2(n) - 1 - x, i) == !Bit(x, i)
  {
    hide Bit;
    var r := Pow2(n) - 1 - x;
    assert r / 2 == Pow2(n - 1) - 1 - x / 2;
    if i == 0 {
      BitHalved(x, 0);
      BitHalved(r, 0);
    } else {
      BitHalved(x, i - 1);
      BitHalved(r, i - 1);
      NotBit(x / 2, n - 1, i - 1);
    }
  }

  lemma {:induction false} ShrBit(x: Word, n: nat, i: nat)
    ensures Bit(Shr(x, n), i) == Bit(x, i + n)
    decreases n
  {
    hide Bit;
    if n > 0 {
      BitHalved(x, i + n - 1);
      ShrBit(x / 2, n - 1, i);
    }
  }

  /** No bit of a number below 2^n is at n or above. */
  lemma {:induction false} NoHighBit(x: nat, n: nat, i: nat)
    requires x < Pow2(n) && n <= i
    ensures !Bit(x, i)
  {
    hide Bit;
    if n > 0 {
      BitHalved(x, i - 1);
      NoHighBit(x / 2, n - 1, i - 1);
    } else {
      NoBit(i);
    }
  }

  lemma NoBit(i: nat)
    ensures !Bit(0, i)
  {
  }

  /** Doubling moves the bits up by one. */
  lemma DoubledBit(x: Word, i: nat)
    requires i < 32
    ensures Bit(2 * x % WORD, i) == (i > 0 && Bit(x, i - 1))
  {
    hide Bit;
    var r := 2 * x % WORD;
    if i == 0 {
      BitHalved(r, 0);
    } else {
      BitHalved(r, i - 1);
      assert r / 2 == x % 0x8000_0000;
      Pow2Word();
      LowBits(x, 31, i - 1);
    }
  }

  lemma {:induction false} LowBits(x: nat, n: nat, i: nat)
    requires i < n
    ensures Bit(x % Pow2(n), i) == Bit(x, i)
  {
    hide Bit;
    var p := Pow2(n - 1);
    DividedTwice(x, p);
    assert x == x / 2 / p * (2 * p) + (2 * (x / 2 % p) + x % 2) by {
      assert x / 2 == x / 2 / p * p + x / 2 % p;
    }
    Quotient(x, 2 * p, x / 2 / p, 2 * (x / 2 % p) + x % 2);
    if i == 0 {
      BitHalved(x, 0);
      BitHalved(x % (2 * p), 0);
    } else {
      BitHalved(x, i - 1);
      BitHalved(x % (2 * p), i - 1);
      LowBits(x / 2, n - 1, i - 1);
    }
  }

  lemma {:induction false} ShlBit(x: Word, n: nat, i: nat)
    requires i < 32
    ensures Bit(Shl(x, n), i) == (n <= i && Bit(x, i - n))
    decreases n
  {
    hide Bit;
    if n > 0 {
      ShlBit(2 * x % WORD, n - 1, i);
      if n - 1 <= i {
        DoubledBit(x, i - (n - 1));
      }
    }
  }

  /** Bit i of a rotated word is bit i + n of the word, counted around. */
  lemma RotrBit(x: Word, n: nat, i: nat)
    requires 0 < n < 32 && i < 32
    ensures Bit(Rotr(x, n), i) == Bit(x, (i + n) % 32)
  {
    hide Bit, Bitwise;
    BitwiseBit(OrGate, Shr(x, n), Shl(x, 32 - n), 32, i);
    ShrBit(x, n, i);
    ShlBit(x, 32 - n, i);
    Pow2Word();
    if i + n >= 32 {
      NoHighBit(x, 32, i + n);
    }
  }

  // ----- the six functions --------------------------------------------------------------------

  /** The second word where the first has ones, the third where it has zeros. */
  lemma ChBit(x: Word, y: Word, z: Word, i: nat)
    requires i < 32
    ensures Bit(Ch(x, y, z), i) == if Bit(x, i) then Bit(y, i) else Bit(z, i)
  {
    hide Bit, Bitwise;
    Pow2Word();
    NotBit(x, 32, i);
    BitwiseBit(AndGate, x, y, 32, i);
    BitwiseBit(AndGate, Not(x), z, 32, i);
    BitwiseBit(XorGate, And(x, y), And(Not(x), z), 32, i);
  }

  /** The bit that at least two of the three words have. */
  lemma MajBit(x: Word, y: Word, z: Word, i: nat)
    requires i < 32
    ensures Bit(Maj(x, y, z), i)
       <==> (if Bit(x, i) then 1 else 0) + (if Bit(y, i) then 1 else 0) + (if Bit(z, i) then 1 else 0) >= 2
  {
    hide Bit, Bitwise;
    BitwiseBit(AndGate, x, y, 32, i);
    BitwiseBit(AndGate, x, z, 32, i);
    BitwiseBit(AndGate, y, z, 32, i);
    BitwiseBit(XorGate, And(x, y), And(x, z), 32, i);
    BitwiseBit(XorGate, Xor(And(x, y), And(x, z)), And(y, z), 32, i);
  }

  /** Whether an odd number of the three holds. */
  predicate Odd(a: bool, b: bool, c: bool) {
    a == (b == c)
  }

  lemma XorBit(x: Word, y: Word, z: Word, i: nat)
    requires i < 32
    ensures Bit(Xor(Xor(x, y), z), i) == Odd(Bit(x, i), Bit(y, i), Bit(z, i))
  {
    hide Bit, Bitwise;
    BitwiseBit(XorGate, x, y, 32, i);
    BitwiseBit(XorGate, Xor(x, y), z, 32, i);
  }

  lemma SigmaBits(x: Word, i: nat)
    requires i < 32
    ensures Bit(BigSigma0(x), i) == Odd(Bit(x, (i + 2) % 32), Bit(x, (i + 13) % 32), Bit(x, (i + 22) % 32))
    ensures Bit(BigSigma1(x), i) == Odd(Bit(x, (i + 6) % 32), Bit(x, (i + 11) % 32), Bit(x, (i + 25) % 32))
    ensures Bit(SmallSigma0(x), i) == Odd(Bit(x, (i + 7) % 32), Bit(x, (i + 18) % 32), i < 29 && Bit(x, i + 3))
    ensures Bit(SmallSigma1(x), i) == Odd(Bit(x, (i + 17) % 32), Bit(x, (i + 19) % 32), i < 22 && Bit(x, i + 10))
  {
    hide Bit, Rotr, Xor, Shr;
    XorBit(Rotr(x, 2), Rotr(x, 13), Rotr(x, 22), i);
    XorBit(Rotr(x, 6), Rotr(x, 11), Rotr(x, 25), i);
    XorBit(Rotr(x, 7), Rotr(x, 18), Shr(x, 3), i);
    XorBit(Rotr(x, 17), Rotr(x, 19), Shr(x, 10), i);
    RotrBit(x, 2, i);
    RotrBit(x, 13, i);
    RotrBit(x, 22, i);
    RotrBit(x, 6, i);
    RotrBit(x, 11, i);
    RotrBit(x, 25, i);
    RotrBit(x, 7, i);
    RotrBit(x, 18, i);
    RotrBit(x, 17, i);
    RotrBit(x, 19, i);
    ShrBit(x, 3, i);
    ShrBit(x, 10, i);
    Pow2Word();
    if i >= 29 {
      NoHighBit(x, 32, i + 3);
    }
    if i >= 22 {
      NoHighBit(x, 32, i + 10);
    }
  }

  // ----- bytes ----------------------------------------------------------------------------------

  /** Big-endian: the first byte has the high bits. */
  lemma WordBytesAre(x: Word, k: nat)
    requires k < 4
    ensures WordBytes(x)[k] == x / Pow2(8 * (3 - k)) % 256
  {
    assert Pow2(8) == 256 && Pow2(16) == 0x1_0000;
    assert Pow2(24) == 0x100_0000;
    var a, b := x / 256, x / 65536;
    assert x / 256 / 256 == b && b / 256 == x / 0x100_0000;
  }

  lemma WordAtIs(bytes: seq<Byte>, i: nat, k: nat)
    requires i + 4 <= |bytes| && k < 4
    ensures WordAt(bytes, i) / Pow2(8 * (3 - k)) % 256 == bytes[i + k]
  {
    var b: seq<nat> := [bytes[i], bytes[i + 1], bytes[i + 2], bytes[i + 3]];
    var x := WordAt(bytes, i);
    assert x == ((b[0] * 256 + b[1]) * 256 + b[2]) * 256 + b[3];
    WordBytesAre(x, k);
    assert x / 256 == (b[0] * 256 + b[1]) * 256 + b[2];
    assert x / 256 / 256 == b[0] * 256 + b[1];
    assert x / 256 / 256 / 256 == b[0];
  }

  lemma {:induction false} Pow2Sum(m: nat, n: nat)
    ensures Pow2(m + n) == Pow2(m) * Pow2(n)
  {
    if m > 0 {
      Pow2Sum(m - 1, n);
      assert 2 * Pow2(m - 1) * Pow2(n) == 2 * (Pow2(m - 1) * Pow2(n));
    }
  }

  lemma HighBytes(bits: nat, k: nat)
    requires k < 4
    ensures bits / WORD / Pow2(8 * (3 - k)) == bits / Pow2(8 * (7 - k))
  {
    Pow2Word();
    Pow2Sum(8 * (3 - k), 32);
    DividedBy(bits, WORD, Pow2(8 * (3 - k)));
  }

  lemma LowBytes(bits: nat, k: nat)
    requires 4 <= k < 8
    ensures bits % WORD / Pow2(8 * (7 - k)) % 256 == bits / Pow2(8 * (7 - k)) % 256
  {
    var q := Pow2(8 * (k - 4));
    Pow2Word();
    Pow2Sum(8 + 8 * (k - 4), 8 * (7 - k));
    Pow2Sum(8, 8 * (k - 4));
    assert Pow2(8) == 256;
    DividedBy(bits, Pow2(8 * (7 - k)), 256 * q);
    LowByte(bits / Pow2(8 * (7 - k)), q);
  }

  lemma LengthBytesAre(bits: nat, k: nat)
    requires bits < WORD * WORD && k < 8
    ensures LengthBytes(bits)[k] == bits / Pow2(8 * (7 - k)) % 256
  {
    hide WordBytes, Pow2;
    if k < 4 {
      WordBytesAre(bits / WORD, k);
      HighBytes(bits, k);
    } else {
      WordBytesAre(bits % WORD, k - 4);
      LowBytes(bits, k);
    }
  }

  lemma Ordered(a: nat, b: nat, p: nat)
    requires a <= b
    ensures a * p <= b * p
  {
  }

  lemma Nested(a: nat, b: nat, r: nat, p: nat, q: nat)
    requires b < q && r < p
    ensures (a * q + b) * p + r == a * (q * p) + (b * p + r) && b * p + r < q * p
  {
    Ordered(b + 1, q, p);
    assert (b + 1) * p == b * p + p;
    assert (a * q + b) * p == a * q * p + b * p;
    assert a * q * p == a * (q * p);
  }

  lemma Positive(p: nat, q: nat)
    requires p > 0 && q > 0
    ensures q * p > 0
  {
  }

  lemma Composed(x: nat, high: nat, low: nat, r: nat, p: nat, q: nat)
    requires low < q && r < p && q * p > 0 && x == (high * q + low) * p + r
    ensures x / (q * p) == high && x % (q * p) / p == low
  {
    Nested(high, low, r, p, q);
    Quotient(x, q * p, high, low * p + r);
    Quotient(low * p + r, p, low, r);
  }

  lemma Divide(x: nat, p: nat)
    requires p > 0
    ensures x == x / p * p + x % p && x % p < p
  {
  }

  /** Dividing twice, and what is left between. */
  lemma DividedBy(x: nat, p: nat, q: nat)
    requires p > 0 && q > 0
    ensures q * p > 0 && x / p / q == x / (q * p) && x % (q * p) / p == x / p % q
  {
    Positive(p, q);
    Divide(x, p);
    Divide(x / p, q);
    Composed(x, x / p / q, x / p % q, x % p, p, q);
  }

  lemma LowByte(x: nat, q: nat)
    requires q > 0
    ensures x % (256 * q) % 256 == x % 256
  {
    assert x == x / (256 * q) * (256 * q) + x % (256 * q);
    assert x / (256 * q) * (256 * q) == 256 * (x / (256 * q) * q);
  }

  /** Section 5.1.1: the message, a one bit, zero bits, and the number of bits of the message in the last 64. */
  lemma PaddedIs(m: seq<Byte>, i: nat)
    requires 8 * |m| < WORD * WORD && i < |Padded(m)|
    ensures var n := |Padded(m)|;
            && |m| + 9 <= n
            && Padded(m)[i] == if i < |m| then m[i] else if i == |m| then 128 else if i < n - 8 then 0
                               else 8 * |m| / Pow2(8 * (n - 1 - i)) % 256
  {
    hide Pow2;
    var n, end := |Padded(m)|, LengthBytes(8 * |m|);
    assert n == |m| + 9 + ZeroCount(|m|);
    if i >= n - 8 {
      LengthBytesAre(8 * |m|, i - (n - 8));
      assert Padded(m)[i] == end[i - (n - 8)];
    }
  }

  /** The digest is the eight words in order, each big-endian. */
  lemma {:induction false} DigestBytes(h: seq<Word>, i: nat, k: nat)
    requires i < |h| && k < 4
    ensures Digest(h)[4 * i + k] == h[i] / Pow2(8 * (3 - k)) % 256
  {
    hide WordBytes;
    var front, last := h[..|h| - 1], h[|h| - 1];
    if i < |front| {
      DigestBytes(front, i, k);
    } else {
      WordBytesAre(last, k);
    }
  }

  /** The message words: sixteen read from the block, the others sums modulo 2^32 over the sixteen before them. */
  lemma ScheduleIs(block: seq<Byte>, t: nat, k: nat)
    requires |block| == 64 && t < 64 && k < 4
    ensures t < 16 ==> Schedule(block, t) / Pow2(8 * (3 - k)) % 256 == block[4 * t + k]
    ensures t >= 16 ==>
              Schedule(block, t)
              == (Schedule(block, t - 16) + SmallSigma0(Schedule(block, t - 15)) + Schedule(block, t - 7)
                  + SmallSigma1(Schedule(block, t - 2))) % 0x1_0000_0000
  {
    hide SmallSigma0, SmallSigma1, WordAt, Pow2, Add;
    if t < 16 {
      WordAtIs(block, 4 * t, k);
    } else {
      var a: int, b: int := Schedule(block, t - 16), SmallSigma0(Schedule(block, t - 15));
      var c: int, d: int := Schedule(block, t - 7), SmallSigma1(Schedule(block, t - 2));
      AddedIs(d + c, b + a);
      assert d + c + (b + a) == a + b + c + d;
    }
  }

  lemma AddedIs(x: int, y: int)
    ensures Add(x, y) == (x + y) % 0x1_0000_0000
  {
  }

  // ----- the rounds as two registers ------------------------------------------------------------

  /** What enters the first variable in round t, the hash value standing for the four rounds before the first. */
  function Upper(h: seq<Word>, block: seq<Byte>, t: int): (r: Word)
    requires |h| == 8 && |block| == 64 && -4 <= t < 64
    decreases t + 4, 0
  {
    if t < 0 then h[-t - 1] else
      var (a, b, c) := (Upper(h, block, t - 1), Upper(h, block, t - 2), Upper(h, block, t - 3));
      (Fresh(h, block, t) + BigSigma0(a) + Maj(a, b, c)) % 0x1_0000_0000
  }

  /** What enters the fifth. */
  function Lower(h: seq<Word>, block: seq<Byte>, t: int): (r: Word)
    requires |h| == 8 && |block| == 64 && -4 <= t < 64
    decreases t + 4, 0
  {
    if t < 0 then h[3 - t] else (Upper(h, block, t - 4) + Fresh(h, block, t)) % 0x1_0000_0000
  }

  /** What a round adds to both: the oldest of the lower register, mixed with the constant and the message. */
  function Fresh(h: seq<Word>, block: seq<Byte>, t: nat): (r: nat)
    requires |h| == 8 && |block| == 64 && t < 64
    decreases t + 3, 1
  {
    var (e, f, g) := (Lower(h, block, t - 1), Lower(h, block, t - 2), Lower(h, block, t - 3));
    Lower(h, block, t - 4) + BigSigma1(e) + Ch(e, f, g) + K[t] + Schedule(block, t)
  }

  lemma RoundMeans(v: Working, k: Word, w: Word)
    ensures var f := v.h + BigSigma1(v.e) + Ch(v.e, v.f, v.g) + k + w;
            Round(v, k, w) == Working((f + BigSigma0(v.a) + Maj(v.a, v.b, v.c)) % 0x1_0000_0000, v.a, v.b, v.c,
                                      (v.d + f) % 0x1_0000_0000, v.e, v.f, v.g)
  {
    hide BigSigma0, BigSigma1, Ch, Maj, Add;
    var x, y, s0, m := v.h + BigSigma1(v.e) + Ch(v.e, v.f, v.g), k + w, BigSigma0(v.a), Maj(v.a, v.b, v.c);
    AddedTwice(x, y, s0, m);
    AddedTo(v.d, x, y);
    assert x + y == v.h + BigSigma1(v.e) + Ch(v.e, v.f, v.g) + k + w;
  }

  lemma AddedTwice(x: int, y: int, z: int, u: int)
    ensures Add(Add(x, y), Add(z, u)) == (x + y + z + u) % 0x1_0000_0000
  {
  }

  lemma AddedTo(d: int, x: int, y: int)
    ensures Add(d, Add(x, y)) == (d + (x + y)) % 0x1_0000_0000
  {
  }

  lemma ConstantCount()
    ensures |K| == 64
  {
  }

  lemma UpperStep(h: seq<Word>, block: seq<Byte>, t: nat)
    requires |h| == 8 && |block| == 64 && t < 64
    ensures var (a, b, c) := (Upper(h, block, t - 1), Upper(h, block, t - 2), Upper(h, block, t - 3));
            Upper(h, block, t) == (Fresh(h, block, t) + BigSigma0(a) + Maj(a, b, c)) % 0x1_0000_0000
    ensures Lower(h, block, t) == (Upper(h, block, t - 4) + Fresh(h, block, t)) % 0x1_0000_0000
  {
    hide BigSigma0, BigSigma1, Ch, Maj, Schedule, Fresh;
  }

  /** The eight working variables are the last four entries of each register. */
  lemma {:induction false} RoundsAreRegisters(h: seq<Word>, block: seq<Byte>, t: nat)
    requires |h| == 8 && |block| == 64 && t <= 64
    ensures Rounds(Start(h), block, t)
         == Working(Upper(h, block, t - 1), Upper(h, block, t - 2), Upper(h, block, t - 3), Upper(h, block, t - 4),
                    Lower(h, block, t - 1), Lower(h, block, t - 2), Lower(h, block, t - 3), Lower(h, block, t - 4))
  {
    hide BigSigma0, BigSigma1, Ch, Maj, Schedule, Round, K;
    ConstantCount();
    if t == 0 {
      FirstVariables(h, block);
    } else {
      hide Upper, Lower;
      RoundsAreRegisters(h, block, t - 1);
      RoundMeans(Rounds(Start(h), block, t - 1), K[t - 1], Schedule(block, t - 1));
      UpperStep(h, block, t - 1);
    }
  }

  lemma FirstVariables(h: seq<Word>, block: seq<Byte>)
    requires |h| == 8 && |block| == 64
    ensures Start(h) == Working(Upper(h, block, -1), Upper(h, block, -2), Upper(h, block, -3), Upper(h, block, -4),
                                Lower(h, block, -1), Lower(h, block, -2), Lower(h, block, -3), Lower(h, block, -4))
  {
  }

  /** A block adds the last four entries of each register to the hash value, word by word. */
  lemma CompressIs(h: seq<Word>, block: seq<Byte>, i: nat)
    requires |h| == 8 && |block| == 64 && i < 8
    ensures var x := if i < 4 then Upper(h, block, 63 - i) else Lower(h, block, 67 - i);
            Compress(h, block)[i] == (h[i] + x) % 0x1_0000_0000
  {
    hide Rounds, Upper, Lower;
    RoundsAreRegisters(h, block, 64);
  }
}
