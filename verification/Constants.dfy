/** Where the constants of SHA-256 come from: sections 4.2.2 and 5.3.3 take them from the roots of the first primes. */
module Constants {
  import opened Fips
  import Words

  // ----- the first primes -----------------------------------------------------------------------

  predicate IsPrime(p: nat) {
    2 <= p && forall d | 2 <= d < p :: p % d != 0
  }

  /** How many primes there are up to n. */
  function PrimeCount(n: nat): (r: nat) {
    if n == 0 then 0 else PrimeCount(n - 1) + if IsPrime(n) then 1 else 0
  }

  /** The primes counted from zero: number 0 is 2. */
  predicate PrimeNumber(i: nat, p: nat) {
    IsPrime(p) && PrimeCount(p) == i + 1
  }

  /** What the primes below 18 leave of the numbers below its square. */
  predicate Sieved(n: nat) {
    && 2 <= n && Left(n, 2) && Left(n, 3) && Left(n, 5) && Left(n, 7) && Left(n, 11) && Left(n, 13) && Left(n, 17)
  }

  predicate Left(n: nat, q: nat)
    requires q > 0
  {
    n == q || n % q != 0
  }

  lemma Multiples(d: nat, e: nat)
    requires 1 < d && 1 <= e
    ensures d * e % e == 0 && e < d * e
    ensures 18 <= d && 18 <= e ==> 18 * 18 <= d * e
  {
    Words.Quotient(d * e, e, d, 0);
    if 18 <= d && 18 <= e {
      assert 18 * 18 <= 18 * e <= d * e;
    }
  }

  /** A number below 18 * 18 with a divisor has one below 18. */
  lemma SmallDivisor(n: nat, d: nat)
    requires n < 18 * 18 && 2 <= d < n && n % d == 0
    ensures exists c :: 2 <= c < 18 && c < n && n % c == 0
  {
    if d >= 18 {
      var e := n / d;
      assert n == d * e && e >= 2 by {
        assert n == d * e + n % d;
      }
      Multiples(d, e);
      assert 2 <= e < 18 && e < n && n % e == 0;
    }
  }

  lemma Divides(n: nat, c: nat, q: nat)
    requires c > 0 && q > 0 && n % c == 0 && c % q == 0
    ensures n % q == 0
  {
    var k, l := n / c, c / q;
    assert n == c * k && c == q * l;
    assert n == (l * k) * q;
    Words.Quotient(n, q, l * k, 0);
  }

  lemma SieveFinds(n: nat, c: nat)
    requires 2 <= c < 18 && c < n && n % c == 0
    ensures !Sieved(n)
  {
    if c % 2 == 0 {
      Divides(n, c, 2);
    } else if c % 3 == 0 {
      Divides(n, c, 3);
    } else {
      assert c == 5 || c == 7 || c == 11 || c == 13 || c == 17;
    }
  }

  lemma SieveExact(n: nat)
    requires n < 18 * 18
    ensures IsPrime(n) <==> Sieved(n)
  {
    if n >= 2 && !IsPrime(n) {
      var d :| 2 <= d < n && n % d == 0;
      SmallDivisor(n, d);
      var c :| 2 <= c < 18 && c < n && n % c == 0;
      SieveFinds(n, c);
    }
  }

  /** The sieve leaves nothing from n up to below q. */
  predicate NoneLeft(n: nat, q: nat)
    decreases q - n
  {
    n < q ==> !Sieved(n) && NoneLeft(n + 1, q)
  }

  lemma {:induction false} CountsNoMore(n: nat, q: nat)
    requires 0 < n < q < 18 * 18 && NoneLeft(n, q)
    ensures PrimeCount(q - 1) == PrimeCount(n - 1)
    decreases q - n
  {
    SieveExact(n);
    if n + 1 < q {
      CountsNoMore(n + 1, q);
    }
  }

  /** The next prime, if the sieve leaves none in between. */
  lemma NextPrime(i: nat, p: nat, n: nat, q: nat)
    requires PrimeNumber(i, p) && n == p + 1 && p < q < 18 * 18 && Sieved(q) && NoneLeft(n, q)
    ensures PrimeNumber(i + 1, q)
  {
    SieveExact(q);
    if n < q {
      CountsNoMore(n, q);
    }
  }

  lemma Primes0()
    ensures PrimeNumber(0, 2) && PrimeNumber(1, 3)
    ensures PrimeNumber(2, 5) && PrimeNumber(3, 7)
  {
    NextPrime(0, 2, 3, 3);
    NextPrime(1, 3, 4, 5);
    NextPrime(2, 5, 6, 7);
  }

  lemma Primes1()
    requires PrimeNumber(3, 7)
    ensures PrimeNumber(4, 11) && PrimeNumber(5, 13)
    ensures PrimeNumber(6, 17) && PrimeNumber(7, 19)
  {
    hide PrimeNumber;
    NextPrime(3, 7, 8, 11);
    NextPrime(4, 11, 12, 13);
    NextPrime(5, 13, 14, 17);
    NextPrime(6, 17, 18, 19);
  }

  lemma Primes2()
    requires PrimeNumber(7, 19)
    ensures PrimeNumber(8, 23) && PrimeNumber(9, 29)
    ensures PrimeNumber(10, 31) && PrimeNumber(11, 37)
  {
    hide PrimeNumber;
    NextPrime(7, 19, 20, 23);
    NextPrime(8, 23, 24, 29);
    NextPrime(9, 29, 30, 31);
    NextPrime(10, 31, 32, 37);
  }

  lemma Primes3()
    requires PrimeNumber(11, 37)
    ensures PrimeNumber(12, 41) && PrimeNumber(13, 43)
    ensures PrimeNumber(14, 47) && PrimeNumber(15, 53)
  {
    hide PrimeNumber;
    NextPrime(11, 37, 38, 41);
    NextPrime(12, 41, 42, 43);
    NextPrime(13, 43, 44, 47);
    NextPrime(14, 47, 48, 53);
  }

  lemma Primes4()
    requires PrimeNumber(15, 53)
    ensures PrimeNumber(16, 59) && PrimeNumber(17, 61)
    ensures PrimeNumber(18, 67) && PrimeNumber(19, 71)
  {
    hide PrimeNumber;
    NextPrime(15, 53, 54, 59);
    NextPrime(16, 59, 60, 61);
    NextPrime(17, 61, 62, 67);
    NextPrime(18, 67, 68, 71);
  }

  lemma Primes5()
    requires PrimeNumber(19, 71)
    ensures PrimeNumber(20, 73) && PrimeNumber(21, 79)
    ensures PrimeNumber(22, 83) && PrimeNumber(23, 89)
  {
    hide PrimeNumber;
    NextPrime(19, 71, 72, 73);
    NextPrime(20, 73, 74, 79);
    NextPrime(21, 79, 80, 83);
    NextPrime(22, 83, 84, 89);
  }

  lemma Primes6()
    requires PrimeNumber(23, 89)
    ensures PrimeNumber(24, 97) && PrimeNumber(25, 101)
    ensures PrimeNumber(26, 103) && PrimeNumber(27, 107)
  {
    hide PrimeNumber;
    NextPrime(23, 89, 90, 97);
    NextPrime(24, 97, 98, 101);
    NextPrime(25, 101, 102, 103);
    NextPrime(26, 103, 104, 107);
  }

  lemma Primes7()
    requires PrimeNumber(27, 107)
    ensures PrimeNumber(28, 109) && PrimeNumber(29, 113)
    ensures PrimeNumber(30, 127) && PrimeNumber(31, 131)
  {
    hide PrimeNumber;
    NextPrime(27, 107, 108, 109);
    NextPrime(28, 109, 110, 113);
    NextPrime(29, 113, 114, 127);
    NextPrime(30, 127, 128, 131);
  }

  lemma Primes8()
    requires PrimeNumber(31, 131)
    ensures PrimeNumber(32, 137) && PrimeNumber(33, 139)
    ensures PrimeNumber(34, 149) && PrimeNumber(35, 151)
  {
    hide PrimeNumber;
    NextPrime(31, 131, 132, 137);
    NextPrime(32, 137, 138, 139);
    NextPrime(33, 139, 140, 149);
    NextPrime(34, 149, 150, 151);
  }

  lemma Primes9()
    requires PrimeNumber(35, 151)
    ensures PrimeNumber(36, 157) && PrimeNumber(37, 163)
    ensures PrimeNumber(38, 167) && PrimeNumber(39, 173)
  {
    hide PrimeNumber;
    NextPrime(35, 151, 152, 157);
    NextPrime(36, 157, 158, 163);
    NextPrime(37, 163, 164, 167);
    NextPrime(38, 167, 168, 173);
  }

  lemma Primes10()
    requires PrimeNumber(39, 173)
    ensures PrimeNumber(40, 179) && PrimeNumber(41, 181)
    ensures PrimeNumber(42, 191) && PrimeNumber(43, 193)
  {
    hide PrimeNumber;
    NextPrime(39, 173, 174, 179);
    NextPrime(40, 179, 180, 181);
    NextPrime(41, 181, 182, 191);
    NextPrime(42, 191, 192, 193);
  }

  lemma Primes11()
    requires PrimeNumber(43, 193)
    ensures PrimeNumber(44, 197) && PrimeNumber(45, 199)
    ensures PrimeNumber(46, 211) && PrimeNumber(47, 223)
  {
    hide PrimeNumber;
    NextPrime(43, 193, 194, 197);
    NextPrime(44, 197, 198, 199);
    NextPrime(45, 199, 200, 211);
    NextPrime(46, 211, 212, 223);
  }

  lemma Primes12()
    requires PrimeNumber(47, 223)
    ensures PrimeNumber(48, 227) && PrimeNumber(49, 229)
    ensures PrimeNumber(50, 233) && PrimeNumber(51, 239)
  {
    hide PrimeNumber;
    NextPrime(47, 223, 224, 227);
    NextPrime(48, 227, 228, 229);
    NextPrime(49, 229, 230, 233);
    NextPrime(50, 233, 234, 239);
  }

  lemma Primes13()
    requires PrimeNumber(51, 239)
    ensures PrimeNumber(52, 241) && PrimeNumber(53, 251)
    ensures PrimeNumber(54, 257) && PrimeNumber(55, 263)
  {
    hide PrimeNumber;
    NextPrime(51, 239, 240, 241);
    NextPrime(52, 241, 242, 251);
    NextPrime(53, 251, 252, 257);
    NextPrime(54, 257, 258, 263);
  }

  lemma Primes14()
    requires PrimeNumber(55, 263)
    ensures PrimeNumber(56, 269) && PrimeNumber(57, 271)
    ensures PrimeNumber(58, 277) && PrimeNumber(59, 281)
  {
    hide PrimeNumber;
    NextPrime(55, 263, 264, 269);
    NextPrime(56, 269, 270, 271);
    NextPrime(57, 271, 272, 277);
    NextPrime(58, 277, 278, 281);
  }

  lemma Primes15()
    requires PrimeNumber(59, 281)
    ensures PrimeNumber(60, 283) && PrimeNumber(61, 293)
    ensures PrimeNumber(62, 307) && PrimeNumber(63, 311)
  {
    hide PrimeNumber;
    NextPrime(59, 281, 282, 283);
    NextPrime(60, 283, 284, 293);
    NextPrime(61, 293, 294, 307);
    NextPrime(62, 307, 308, 311);
  }

  // ----- their roots ----------------------------------------------------------------------------

  const BITS_64: nat := 0x1_0000_0000_0000_0000
  const BITS_96: nat := 0x1_0000_0000_0000_0000_0000_0000

  /** The number w with the fraction k / 2^32 is the cube root of p, rounded down to 32 binary places. */
  predicate CubeRoot(p: nat, w: nat, k: Word) {
    var n := w * WORD + k;
    n * n * n <= p * BITS_96 < (n + 1) * (n + 1) * (n + 1)
  }

  /** The same for the square root. */
  predicate SquareRoot(p: nat, w: nat, h: Word) {
    var n := w * WORD + h;
    n * n <= p * BITS_64 < (n + 1) * (n + 1)
  }

  /** The word is the first 32 bits of the fractional part of the cube root of prime number i. */
  ghost predicate FromCubeRoot(i: nat, k: Word) {
    exists p, w: nat :: PrimeNumber(i, p) && CubeRoot(p, w, k)
  }

  ghost predicate FromSquareRoot(i: nat, h: Word) {
    exists p, w: nat :: PrimeNumber(i, p) && SquareRoot(p, w, h)
  }

  lemma Row0()
    ensures PrimeNumber(7, 19) && forall j | 0 <= j < 8 :: FromCubeRoot(0 + j, ROW_0[j])
  {
    hide PrimeNumber;
    Primes0();
    Primes1();
    assert CubeRoot(2, 1, ROW_0[0]);
    assert CubeRoot(3, 1, ROW_0[1]);
    assert CubeRoot(5, 1, ROW_0[2]);
    assert CubeRoot(7, 1, ROW_0[3]);
    assert CubeRoot(11, 2, ROW_0[4]);
    assert CubeRoot(13, 2, ROW_0[5]);
    assert CubeRoot(17, 2, ROW_0[6]);
    assert CubeRoot(19, 2, ROW_0[7]);
  }

  lemma Row1()
    requires PrimeNumber(7, 19)
    ensures PrimeNumber(15, 53) && forall j | 0 <= j < 8 :: FromCubeRoot(8 + j, ROW_1[j])
  {
    hide PrimeNumber;
    Primes2();
    Primes3();
    assert CubeRoot(23, 2, ROW_1[0]);
    assert CubeRoot(29, 3, ROW_1[1]);
    assert CubeRoot(31, 3, ROW_1[2]);
    assert CubeRoot(37, 3, ROW_1[3]);
    assert CubeRoot(41, 3, ROW_1[4]);
    assert CubeRoot(43, 3, ROW_1[5]);
    assert CubeRoot(47, 3, ROW_1[6]);
    assert CubeRoot(53, 3, ROW_1[7]);
  }

  lemma Row2()
    requires PrimeNumber(15, 53)
    ensures PrimeNumber(23, 89) && forall j | 0 <= j < 8 :: FromCubeRoot(16 + j, ROW_2[j])
  {
    hide PrimeNumber;
    Primes4();
    Primes5();
    assert CubeRoot(59, 3, ROW_2[0]);
    assert CubeRoot(61, 3, ROW_2[1]);
    assert CubeRoot(67, 4, ROW_2[2]);
    assert CubeRoot(71, 4, ROW_2[3]);
    assert CubeRoot(73, 4, ROW_2[4]);
    assert CubeRoot(79, 4, ROW_2[5]);
    assert CubeRoot(83, 4, ROW_2[6]);
    assert CubeRoot(89, 4, ROW_2[7]);
  }

  lemma Row3()
    requires PrimeNumber(23, 89)
    ensures PrimeNumber(31, 131) && forall j | 0 <= j < 8 :: FromCubeRoot(24 + j, ROW_3[j])
  {
    hide PrimeNumber;
    Primes6();
    Primes7();
    assert CubeRoot(97, 4, ROW_3[0]);
    assert CubeRoot(101, 4, ROW_3[1]);
    assert CubeRoot(103, 4, ROW_3[2]);
    assert CubeRoot(107, 4, ROW_3[3]);
    assert CubeRoot(109, 4, ROW_3[4]);
    assert CubeRoot(113, 4, ROW_3[5]);
    assert CubeRoot(127, 5, ROW_3[6]);
    assert CubeRoot(131, 5, ROW_3[7]);
  }

  lemma Row4()
    requires PrimeNumber(31, 131)
    ensures PrimeNumber(39, 173) && forall j | 0 <= j < 8 :: FromCubeRoot(32 + j, ROW_4[j])
  {
    hide PrimeNumber;
    Primes8();
    Primes9();
    assert CubeRoot(137, 5, ROW_4[0]);
    assert CubeRoot(139, 5, ROW_4[1]);
    assert CubeRoot(149, 5, ROW_4[2]);
    assert CubeRoot(151, 5, ROW_4[3]);
    assert CubeRoot(157, 5, ROW_4[4]);
    assert CubeRoot(163, 5, ROW_4[5]);
    assert CubeRoot(167, 5, ROW_4[6]);
    assert CubeRoot(173, 5, ROW_4[7]);
  }

  lemma Row5()
    requires PrimeNumber(39, 173)
    ensures PrimeNumber(47, 223) && forall j | 0 <= j < 8 :: FromCubeRoot(40 + j, ROW_5[j])
  {
    hide PrimeNumber;
    Primes10();
    Primes11();
    assert CubeRoot(179, 5, ROW_5[0]);
    assert CubeRoot(181, 5, ROW_5[1]);
    assert CubeRoot(191, 5, ROW_5[2]);
    assert CubeRoot(193, 5, ROW_5[3]);
    assert CubeRoot(197, 5, ROW_5[4]);
    assert CubeRoot(199, 5, ROW_5[5]);
    assert CubeRoot(211, 5, ROW_5[6]);
    assert CubeRoot(223, 6, ROW_5[7]);
  }

  lemma Row6()
    requires PrimeNumber(47, 223)
    ensures PrimeNumber(55, 263) && forall j | 0 <= j < 8 :: FromCubeRoot(48 + j, ROW_6[j])
  {
    hide PrimeNumber;
    Primes12();
    Primes13();
    assert CubeRoot(227, 6, ROW_6[0]);
    assert CubeRoot(229, 6, ROW_6[1]);
    assert CubeRoot(233, 6, ROW_6[2]);
    assert CubeRoot(239, 6, ROW_6[3]);
    assert CubeRoot(241, 6, ROW_6[4]);
    assert CubeRoot(251, 6, ROW_6[5]);
    assert CubeRoot(257, 6, ROW_6[6]);
    assert CubeRoot(263, 6, ROW_6[7]);
  }

  lemma Row7()
    requires PrimeNumber(55, 263)
    ensures PrimeNumber(63, 311) && forall j | 0 <= j < 8 :: FromCubeRoot(56 + j, ROW_7[j])
  {
    hide PrimeNumber;
    Primes14();
    Primes15();
    assert CubeRoot(269, 6, ROW_7[0]);
    assert CubeRoot(271, 6, ROW_7[1]);
    assert CubeRoot(277, 6, ROW_7[2]);
    assert CubeRoot(281, 6, ROW_7[3]);
    assert CubeRoot(283, 6, ROW_7[4]);
    assert CubeRoot(293, 6, ROW_7[5]);
    assert CubeRoot(307, 6, ROW_7[6]);
    assert CubeRoot(311, 6, ROW_7[7]);
  }

  /** Section 4.2.2: the round constants are the bits of the cube roots of the first 64 primes. */
  lemma RoundConstants()
    ensures |K| == 64 && forall i | 0 <= i < 64 :: FromCubeRoot(i, K[i])
  {
    hide FromCubeRoot, PrimeNumber;
    Row0();
    Row1();
    Row2();
    Row3();
    Row4();
    Row5();
    Row6();
    Row7();
    forall i | 0 <= i < 64 ensures FromCubeRoot(i, K[i]) {
      assert FromCubeRoot(i / 8 * 8 + i % 8, K[i]);
    }
  }

  /** Section 5.3.3: the initial hash value is the bits of the square roots of the first 8 primes. */
  lemma InitialHash()
    ensures |H0| == 8 && forall i | 0 <= i < 8 :: FromSquareRoot(i, H0[i])
  {
    hide PrimeNumber;
    Primes0();
    Primes1();
    assert SquareRoot(2, 1, H0[0]);
    assert SquareRoot(3, 1, H0[1]);
    assert SquareRoot(5, 2, H0[2]);
    assert SquareRoot(7, 2, H0[3]);
    assert SquareRoot(11, 3, H0[4]);
    assert SquareRoot(13, 3, H0[5]);
    assert SquareRoot(17, 4, H0[6]);
    assert SquareRoot(19, 4, H0[7]);
  }
}
