/**
  The constants of SHA-256, and where they come from: sections 4.2.2 and 5.3.3
  of FIPS 180-4 define them as fractional bits of roots of the first primes.
 */
module Sha256Constants {

  type Word = bv32

  /** The 64 round constants, in rows of eight. */
  const K: seq<seq<Word>> := [
    [0x428a2f98, 0x71374491, 0xb5c0fbcf, 0xe9b5dba5, 0x3956c25b, 0x59f111f1, 0x923f82a4, 0xab1c5ed5],
    [0xd807aa98, 0x12835b01, 0x243185be, 0x550c7dc3, 0x72be5d74, 0x80deb1fe, 0x9bdc06a7, 0xc19bf174],
    [0xe49b69c1, 0xefbe4786, 0x0fc19dc6, 0x240ca1cc, 0x2de92c6f, 0x4a7484aa, 0x5cb0a9dc, 0x76f988da],
    [0x983e5152, 0xa831c66d, 0xb00327c8, 0xbf597fc7, 0xc6e00bf3, 0xd5a79147, 0x06ca6351, 0x14292967],
    [0x27b70a85, 0x2e1b2138, 0x4d2c6dfc, 0x53380d13, 0x650a7354, 0x766a0abb, 0x81c2c92e, 0x92722c85],
    [0xa2bfe8a1, 0xa81a664b, 0xc24b8b70, 0xc76c51a3, 0xd192e819, 0xd6990624, 0xf40e3585, 0x106aa070],
    [0x19a4c116, 0x1e376c08, 0x2748774c, 0x34b0bcb5, 0x391c0cb3, 0x4ed8aa4a, 0x5b9cca4f, 0x682e6ff3],
    [0x748f82ee, 0x78a5636f, 0x84c87814, 0x8cc70208, 0x90befffa, 0xa4506ceb, 0xbef9a3f7, 0xc67178f2]
  ]

  /** The initial hash value. */
  const H0: seq<Word> := [
    0x6a09e667, 0xbb67ae85, 0x3c6ef372, 0xa54ff53a,
    0x510e527f, 0x9b05688c, 0x1f83d9ab, 0x5be0cd19
  ]

  /** Round constant t. */
  function RoundConstant(t: nat): Word
    requires t < 64
  {
    K[t / 8][t % 8]
  }

  /** The first 64 primes, in rows of eight. */
  const PRIMES: seq<seq<nat>> := [
    [2, 3, 5, 7, 11, 13, 17, 19],
    [23, 29, 31, 37, 41, 43, 47, 53],
    [59, 61, 67, 71, 73, 79, 83, 89],
    [97, 101, 103, 107, 109, 113, 127, 131],
    [137, 139, 149, 151, 157, 163, 167, 173],
    [179, 181, 191, 193, 197, 199, 211, 223],
    [227, 229, 233, 239, 241, 251, 257, 263],
    [269, 271, 277, 281, 283, 293, 307, 311]
  ]

  /** Prime t of the table. */
  function PrimeAt(t: nat): nat
    requires t < 64
  {
    PRIMES[t / 8][t % 8]
  }

  predicate IsPrime(n: nat) {
    n >= 2 && forall d | 2 <= d < n :: n % d != 0
  }

  /** The table is the first 64 primes: it rises, and up to its last entry a number is
      in it if and only if it is prime. */
  lemma {:induction false} FirstPrimes(n: nat)
    ensures forall t: nat, u: nat | t < u < 64 :: PrimeAt(t) < PrimeAt(u)
    ensures n <= PrimeAt(63) ==> (IsPrime(n) <==> exists t: nat | t < 64 :: PrimeAt(t) == n)
  {
    hide IsPrime, PrimeAt;
    forall t: nat, u: nat | t < u < 64 ensures PrimeAt(t) < PrimeAt(u) {
      Rises(t, u);
    }
    LastPrime();
    if n <= 311 && IsPrime(n) {
      PrimeIsListed(n);
    }
    forall t: nat | t < 64 && PrimeAt(t) == n ensures IsPrime(n) {
      RowsArePrimes(t);
    }
  }

  lemma {:induction false} LastPrime()
    ensures PrimeAt(63) == 311
  {
  }

  lemma {:induction false} PrimeIsListed(n: nat)
    requires n <= 311 && IsPrime(n)
    ensures exists t: nat | t < 64 :: PrimeAt(t) == n
  {
    hide IsPrime;
    Sieved(n);
    var r: nat :| r < 8 && n in PRIMES[r];
    var c: nat :| c < 8 && PRIMES[r][c] == n;
    assert (8 * r + c) / 8 == r && (8 * r + c) % 8 == c;
    assert PrimeAt(8 * r + c) == n;
  }

  lemma {:induction false} Rises(t: nat, u: nat)
    requires t < u < 64
    ensures PrimeAt(t) < PrimeAt(u)
    decreases u - t
  {
    if u == t + 1 {
      NextRises(t / 8, t % 8);
      if t % 8 == 7 {
        assert u / 8 == t / 8 + 1 && u % 8 == 0;
      } else {
        assert u / 8 == t / 8 && u % 8 == t % 8 + 1;
      }
    } else {
      Rises(t, u - 1);
      Rises(u - 1, u);
    }
  }

  lemma {:induction false} NextRises(r: nat, c: nat)
    requires r < 8 && c < 8
    ensures c < 7 ==> PRIMES[r][c] < PRIMES[r][c + 1]
    ensures c == 7 && r < 7 ==> PRIMES[r][7] < PRIMES[r + 1][0]
  {
  }

  // The sieve: below 19 * 19 a number no prime up to 17 divides is a prime.

  /** p is no divisor of n but n itself. */
  predicate Free(n: nat, p: nat)
    requires p > 0
  {
    n == p || n % p != 0
  }

  predicate Undivided(n: nat) {
    && n >= 2 && Free(n, 2) && Free(n, 3) && Free(n, 5) && Free(n, 7) && Free(n, 11) && Free(n, 13) && Free(n, 17)
  }

  lemma {:induction false} UndividedIsPrime(n: nat)
    requires n < 361
    ensures Undivided(n) <==> IsPrime(n)
  {
    if Undivided(n) {
      forall d | 2 <= d < n ensures n % d != 0 {
        if n % d == 0 {
          var e := n / d;
          assert n == d * e;
          if d < 19 {
            SmallDivisor(n, d, e);
          } else {
            LargeDivisor(d, e);
            SmallDivisor(n, e, d);
          }
        }
      }
    }
  }

  lemma {:induction false} LargeDivisor(d: nat, e: nat)
    requires 19 <= d < d * e < 361
    ensures 2 <= e < 19
  {
    assert e >= 19 ==> d * e >= 19 * 19;
  }

  lemma {:induction false} SmallDivisor(n: nat, d: nat, e: nat)
    requires 2 <= d < 19 && e >= 2 && n == d * e
    ensures !Undivided(n)
  {
    hide Free;
    if d % 2 == 0 {
      Divisible(n, d, e, 2);
    } else if d % 3 == 0 {
      Divisible(n, d, e, 3);
    } else {
      assert d == 5 || d == 7 || d == 11 || d == 13 || d == 17;
      Divisible(n, d, e, d);
    }
  }

  lemma {:induction false} Divisible(n: nat, d: nat, e: nat, p: nat)
    requires p > 0 && d > 0 && d % p == 0 && e >= 2 && n == d * e
    ensures !Free(n, p)
  {
    var m := Cofactor(n, d, e, p);
    var q, r := n / p, n % p;
    assert n == p * q + r;
    Regroup(p, m - q, 1);
    NoMultipleBelow(p, m - q, r);
    AtLeast(m - 1, p);
  }

  lemma {:induction false} NoMultipleBelow(p: nat, k: int, r: nat)
    requires p * k == r < p
    ensures k == 0
  {
    assert k >= 1 ==> p * k >= p;
    assert k < 0 ==> p * k < 0;
  }

  lemma {:induction false} Cofactor(n: nat, d: nat, e: nat, p: nat) returns (m: nat)
    requires p > 0 && d > 0 && d % p == 0 && e >= 2 && n == d * e
    ensures n == p * m && m >= 2
  {
    var k := d / p;
    m := k * e;
    assert k >= 1;
    Regroup(p, k, e);
    AtLeast(k, e);
  }

  lemma {:induction false} Regroup(p: int, k: int, e: int)
    ensures (p * k) * e == p * (k * e)
  {
  }

  lemma {:induction false} AtLeast(k: nat, e: nat)
    requires k >= 1
    ensures k * e >= e
  {
  }

  /** Up to 311 only the table's numbers pass the sieve. */
  lemma {:induction false} Sieved(n: nat)
    requires n <= 311 && IsPrime(n)
    ensures exists r: nat | r < 8 :: n in PRIMES[r]
  {
    AtLeastTwo(n);
    hide IsPrime, Undivided;
    UndividedIsPrime(n);
    if 1 < n <= 19 && n !in PRIMES[0] { SievedRow0(n); }
    if 19 < n <= 53 && n !in PRIMES[1] { SievedRow1(n); }
    if 53 < n <= 89 && n !in PRIMES[2] { SievedRow2(n); }
    if 89 < n <= 131 && n !in PRIMES[3] { SievedRow3(n); }
    if 131 < n <= 173 && n !in PRIMES[4] { SievedRow4(n); }
    if 173 < n <= 223 && n !in PRIMES[5] { SievedRow5(n); }
    if 223 < n <= 263 && n !in PRIMES[6] { SievedRow6(n); }
    if 263 < n <= 311 && n !in PRIMES[7] { SievedRow7(n); }
  }

  lemma {:induction false} AtLeastTwo(n: nat)
    requires IsPrime(n)
    ensures n >= 2
  {
  }

  lemma {:induction false} RowsArePrimes(t: nat)
    requires t < 64
    ensures IsPrime(PrimeAt(t))
  {
    hide IsPrime;
    UndividedRows(t / 8, t % 8);
    UndividedIsPrime(PrimeAt(t));
  }

  lemma {:induction false} UndividedRows(r: nat, c: nat)
    requires r < 8 && c < 8
    ensures Undivided(PRIMES[r][c]) && PRIMES[r][c] < 361
  {
    hide Undivided;
    match r
    case 0 => PassedRow0();
    case 1 => PassedRow1();
    case 2 => PassedRow2();
    case 3 => PassedRow3();
    case 4 => PassedRow4();
    case 5 => PassedRow5();
    case 6 => PassedRow6();
    case 7 => PassedRow7();
  }

  /** No number of a..b passes it. */
  predicate NonePasses(a: nat, b: nat)
    decreases b - a
  {
    a >= b || (!Undivided(a) && NonePasses(a + 1, b))
  }

  lemma {:induction false} Skipped(n: nat, a: nat, b: nat)
    requires NonePasses(a, b)
    ensures a <= n < b ==> !Undivided(n)
    decreases b - a
  {
    hide Undivided;
    if a < b {
      Skipped(n, a + 1, b);
    }
  }

  lemma {:induction false} SievedRow0(n: nat)
    requires 1 < n <= 19 && n !in PRIMES[0]
    ensures !Undivided(n)
  {
    GapsOfRow0();
    Skipped(n, 4, 5);
    Skipped(n, 6, 7);
    Skipped(n, 8, 11);
    Skipped(n, 12, 13);
    Skipped(n, 14, 17);
    Skipped(n, 18, 19);
  }

  lemma {:induction false} PassedRow0()
    ensures Undivided(2) && Undivided(3) && Undivided(5) && Undivided(7)
    ensures Undivided(11) && Undivided(13) && Undivided(17) && Undivided(19)
  {
  }

  lemma {:induction false} GapsOfRow0()
    ensures NonePasses(4, 5) && NonePasses(6, 7) && NonePasses(8, 11) && NonePasses(12, 13)
    ensures NonePasses(14, 17) && NonePasses(18, 19)
  {
  }

  lemma {:induction false} SievedRow1(n: nat)
    requires 19 < n <= 53 && n !in PRIMES[1]
    ensures !Undivided(n)
  {
    GapsOfRow1();
    Skipped(n, 20, 23);
    Skipped(n, 24, 29);
    Skipped(n, 30, 31);
    Skipped(n, 32, 37);
    Skipped(n, 38, 41);
    Skipped(n, 42, 43);
    Skipped(n, 44, 47);
    Skipped(n, 48, 53);
  }

  lemma {:induction false} PassedRow1()
    ensures Undivided(23) && Undivided(29) && Undivided(31) && Undivided(37)
    ensures Undivided(41) && Undivided(43) && Undivided(47) && Undivided(53)
  {
  }

  lemma {:induction false} GapsOfRow1()
    ensures NonePasses(20, 23) && NonePasses(24, 29) && NonePasses(30, 31) && NonePasses(32, 37)
    ensures NonePasses(38, 41) && NonePasses(42, 43) && NonePasses(44, 47) && NonePasses(48, 53)
  {
  }

  lemma {:induction false} SievedRow2(n: nat)
    requires 53 < n <= 89 && n !in PRIMES[2]
    ensures !Undivided(n)
  {
    GapsOfRow2();
    Skipped(n, 54, 59);
    Skipped(n, 60, 61);
    Skipped(n, 62, 67);
    Skipped(n, 68, 71);
    Skipped(n, 72, 73);
    Skipped(n, 74, 79);
    Skipped(n, 80, 83);
    Skipped(n, 84, 89);
  }

  lemma {:induction false} PassedRow2()
    ensures Undivided(59) && Undivided(61) && Undivided(67) && Undivided(71)
    ensures Undivided(73) && Undivided(79) && Undivided(83) && Undivided(89)
  {
  }

  lemma {:induction false} GapsOfRow2()
    ensures NonePasses(54, 59) && NonePasses(60, 61) && NonePasses(62, 67) && NonePasses(68, 71)
    ensures NonePasses(72, 73) && NonePasses(74, 79) && NonePasses(80, 83) && NonePasses(84, 89)
  {
  }

  lemma {:induction false} SievedRow3(n: nat)
    requires 89 < n <= 131 && n !in PRIMES[3]
    ensures !Undivided(n)
  {
    GapsOfRow3();
    Skipped(n, 90, 97);
    Skipped(n, 98, 101);
    Skipped(n, 102, 103);
    Skipped(n, 104, 107);
    Skipped(n, 108, 109);
    Skipped(n, 110, 113);
    Skipped(n, 114, 127);
    Skipped(n, 128, 131);
  }

  lemma {:induction false} PassedRow3()
    ensures Undivided(97) && Undivided(101) && Undivided(103) && Undivided(107)
    ensures Undivided(109) && Undivided(113) && Undivided(127) && Undivided(131)
  {
  }

  lemma {:induction false} GapsOfRow3()
    ensures NonePasses(90, 97) && NonePasses(98, 101) && NonePasses(102, 103) && NonePasses(104, 107)
    ensures NonePasses(108, 109) && NonePasses(110, 113) && NonePasses(114, 127) && NonePasses(128, 131)
  {
  }

  lemma {:induction false} SievedRow4(n: nat)
    requires 131 < n <= 173 && n !in PRIMES[4]
    ensures !Undivided(n)
  {
    GapsOfRow4();
    Skipped(n, 132, 137);
    Skipped(n, 138, 139);
    Skipped(n, 140, 149);
    Skipped(n, 150, 151);
    Skipped(n, 152, 157);
    Skipped(n, 158, 163);
    Skipped(n, 164, 167);
    Skipped(n, 168, 173);
  }

  lemma {:induction false} PassedRow4()
    ensures Undivided(137) && Undivided(139) && Undivided(149) && Undivided(151)
    ensures Undivided(157) && Undivided(163) && Undivided(167) && Undivided(173)
  {
  }

  lemma {:induction false} GapsOfRow4()
    ensures NonePasses(132, 137) && NonePasses(138, 139) && NonePasses(140, 149) && NonePasses(150, 151)
    ensures NonePasses(152, 157) && NonePasses(158, 163) && NonePasses(164, 167) && NonePasses(168, 173)
  {
  }

  lemma {:induction false} SievedRow5(n: nat)
    requires 173 < n <= 223 && n !in PRIMES[5]
    ensures !Undivided(n)
  {
    GapsOfRow5();
    Skipped(n, 174, 179);
    Skipped(n, 180, 181);
    Skipped(n, 182, 191);
    Skipped(n, 192, 193);
    Skipped(n, 194, 197);
    Skipped(n, 198, 199);
    Skipped(n, 200, 211);
    Skipped(n, 212, 223);
  }

  lemma {:induction false} PassedRow5()
    ensures Undivided(179) && Undivided(181) && Undivided(191) && Undivided(193)
    ensures Undivided(197) && Undivided(199) && Undivided(211) && Undivided(223)
  {
  }

  lemma {:induction false} GapsOfRow5()
    ensures NonePasses(174, 179) && NonePasses(180, 181) && NonePasses(182, 191) && NonePasses(192, 193)
    ensures NonePasses(194, 197) && NonePasses(198, 199) && NonePasses(200, 211) && NonePasses(212, 223)
  {
  }

  lemma {:induction false} SievedRow6(n: nat)
    requires 223 < n <= 263 && n !in PRIMES[6]
    ensures !Undivided(n)
  {
    GapsOfRow6();
    Skipped(n, 224, 227);
    Skipped(n, 228, 229);
    Skipped(n, 230, 233);
    Skipped(n, 234, 239);
    Skipped(n, 240, 241);
    Skipped(n, 242, 251);
    Skipped(n, 252, 257);
    Skipped(n, 258, 263);
  }

  lemma {:induction false} PassedRow6()
    ensures Undivided(227) && Undivided(229) && Undivided(233) && Undivided(239)
    ensures Undivided(241) && Undivided(251) && Undivided(257) && Undivided(263)
  {
  }

  lemma {:induction false} GapsOfRow6()
    ensures NonePasses(224, 227) && NonePasses(228, 229) && NonePasses(230, 233) && NonePasses(234, 239)
    ensures NonePasses(240, 241) && NonePasses(242, 251) && NonePasses(252, 257) && NonePasses(258, 263)
  {
  }

  lemma {:induction false} SievedRow7(n: nat)
    requires 263 < n <= 311 && n !in PRIMES[7]
    ensures !Undivided(n)
  {
    GapsOfRow7();
    Skipped(n, 264, 269);
    Skipped(n, 270, 271);
    Skipped(n, 272, 277);
    Skipped(n, 278, 281);
    Skipped(n, 282, 283);
    Skipped(n, 284, 293);
    Skipped(n, 294, 307);
    Skipped(n, 308, 311);
  }

  lemma {:induction false} PassedRow7()
    ensures Undivided(269) && Undivided(271) && Undivided(277) && Undivided(281)
    ensures Undivided(283) && Undivided(293) && Undivided(307) && Undivided(311)
  {
  }

  lemma {:induction false} GapsOfRow7()
    ensures NonePasses(264, 269) && NonePasses(270, 271) && NonePasses(272, 277) && NonePasses(278, 281)
    ensures NonePasses(282, 283) && NonePasses(284, 293) && NonePasses(294, 307) && NonePasses(308, 311)
  {
  }

  /** x is the first 32 bits of the fractional part of the cube root of p, whose
      whole part is n. */
  predicate CubeRootOf(p: nat, n: nat, x: nat) {
    var c := n * 0x1_0000_0000 + x;
    && x < 0x1_0000_0000
    && c * c * c <= p * 0x1_0000_0000 * 0x1_0000_0000 * 0x1_0000_0000 < (c + 1) * (c + 1) * (c + 1)
  }

  predicate CubeRootBits(p: nat, x: nat) {
    exists n: nat | n < 8 :: CubeRootOf(p, n, x)
  }

  /** The same for the square root. */
  predicate SquareRootOf(p: nat, n: nat, x: nat) {
    var c := n * 0x1_0000_0000 + x;
    && x < 0x1_0000_0000
    && c * c <= p * 0x1_0000_0000 * 0x1_0000_0000 < (c + 1) * (c + 1)
  }

  predicate SquareRootBits(p: nat, x: nat) {
    exists n: nat | n < 8 :: SquareRootOf(p, n, x)
  }

  predicate RowFromPrimes(r: nat)
    requires r < 8
  {
    forall i: nat | i < 8 :: CubeRootBits(PRIMES[r][i], K[r][i] as nat)
  }

  /** Every round constant is the first 32 bits of the fractional part of the
      cube root of its prime. */
  lemma {:induction false} RoundConstantsFromPrimes(t: nat)
    requires t < 64
    ensures CubeRootBits(PrimeAt(t), RoundConstant(t) as nat)
  {
    hide CubeRootBits;
    RowsFromPrimes(t / 8);
  }

  lemma {:induction false} RowsFromPrimes(r: nat)
    requires r < 8
    ensures RowFromPrimes(r)
  {
    hide RowFromPrimes;
    match r
    case 0 => Row0();
    case 1 => Row1();
    case 2 => Row2();
    case 3 => Row3();
    case 4 => Row4();
    case 5 => Row5();
    case 6 => Row6();
    case 7 => Row7();
  }

  /** Every word of the initial hash value is the first 32 bits of the fractional
      part of the square root of its prime. */
  lemma {:induction false} InitialHashFromPrimes(i: nat)
    requires i < 8
    ensures SquareRootBits(PrimeAt(i), H0[i] as nat)
  {
    assert SquareRootOf(PRIMES[0][0], 1, H0[0] as nat);
    assert SquareRootOf(PRIMES[0][1], 1, H0[1] as nat);
    assert SquareRootOf(PRIMES[0][2], 2, H0[2] as nat);
    assert SquareRootOf(PRIMES[0][3], 2, H0[3] as nat);
    assert SquareRootOf(PRIMES[0][4], 3, H0[4] as nat);
    assert SquareRootOf(PRIMES[0][5], 3, H0[5] as nat);
    assert SquareRootOf(PRIMES[0][6], 4, H0[6] as nat);
    assert SquareRootOf(PRIMES[0][7], 4, H0[7] as nat);
  }

  lemma {:induction false} Row0()
    ensures RowFromPrimes(0)
  {
    assert CubeRootOf(PRIMES[0][0], 1, K[0][0] as nat);
    assert CubeRootOf(PRIMES[0][1], 1, K[0][1] as nat);
    assert CubeRootOf(PRIMES[0][2], 1, K[0][2] as nat);
    assert CubeRootOf(PRIMES[0][3], 1, K[0][3] as nat);
    assert CubeRootOf(PRIMES[0][4], 2, K[0][4] as nat);
    assert CubeRootOf(PRIMES[0][5], 2, K[0][5] as nat);
    assert CubeRootOf(PRIMES[0][6], 2, K[0][6] as nat);
    assert CubeRootOf(PRIMES[0][7], 2, K[0][7] as nat);
  }

  lemma {:induction false} Row1()
    ensures RowFromPrimes(1)
  {
    assert CubeRootOf(PRIMES[1][0], 2, K[1][0] as nat);
    assert CubeRootOf(PRIMES[1][1], 3, K[1][1] as nat);
    assert CubeRootOf(PRIMES[1][2], 3, K[1][2] as nat);
    assert CubeRootOf(PRIMES[1][3], 3, K[1][3] as nat);
    assert CubeRootOf(PRIMES[1][4], 3, K[1][4] as nat);
    assert CubeRootOf(PRIMES[1][5], 3, K[1][5] as nat);
    assert CubeRootOf(PRIMES[1][6], 3, K[1][6] as nat);
    assert CubeRootOf(PRIMES[1][7], 3, K[1][7] as nat);
  }

  lemma {:induction false} Row2()
    ensures RowFromPrimes(2)
  {
    assert CubeRootOf(PRIMES[2][0], 3, K[2][0] as nat);
    assert CubeRootOf(PRIMES[2][1], 3, K[2][1] as nat);
    assert CubeRootOf(PRIMES[2][2], 4, K[2][2] as nat);
    assert CubeRootOf(PRIMES[2][3], 4, K[2][3] as nat);
    assert CubeRootOf(PRIMES[2][4], 4, K[2][4] as nat);
    assert CubeRootOf(PRIMES[2][5], 4, K[2][5] as nat);
    assert CubeRootOf(PRIMES[2][6], 4, K[2][6] as nat);
    assert CubeRootOf(PRIMES[2][7], 4, K[2][7] as nat);
  }

  lemma {:induction false} Row3()
    ensures RowFromPrimes(3)
  {
    assert CubeRootOf(PRIMES[3][0], 4, K[3][0] as nat);
    assert CubeRootOf(PRIMES[3][1], 4, K[3][1] as nat);
    assert CubeRootOf(PRIMES[3][2], 4, K[3][2] as nat);
    assert CubeRootOf(PRIMES[3][3], 4, K[3][3] as nat);
    assert CubeRootOf(PRIMES[3][4], 4, K[3][4] as nat);
    assert CubeRootOf(PRIMES[3][5], 4, K[3][5] as nat);
    assert CubeRootOf(PRIMES[3][6], 5, K[3][6] as nat);
    assert CubeRootOf(PRIMES[3][7], 5, K[3][7] as nat);
  }

  lemma {:induction false} Row4()
    ensures RowFromPrimes(4)
  {
    assert CubeRootOf(PRIMES[4][0], 5, K[4][0] as nat);
    assert CubeRootOf(PRIMES[4][1], 5, K[4][1] as nat);
    assert CubeRootOf(PRIMES[4][2], 5, K[4][2] as nat);
    assert CubeRootOf(PRIMES[4][3], 5, K[4][3] as nat);
    assert CubeRootOf(PRIMES[4][4], 5, K[4][4] as nat);
    assert CubeRootOf(PRIMES[4][5], 5, K[4][5] as nat);
    assert CubeRootOf(PRIMES[4][6], 5, K[4][6] as nat);
    assert CubeRootOf(PRIMES[4][7], 5, K[4][7] as nat);
  }

  lemma {:induction false} Row5()
    ensures RowFromPrimes(5)
  {
    assert CubeRootOf(PRIMES[5][0], 5, K[5][0] as nat);
    assert CubeRootOf(PRIMES[5][1], 5, K[5][1] as nat);
    assert CubeRootOf(PRIMES[5][2], 5, K[5][2] as nat);
    assert CubeRootOf(PRIMES[5][3], 5, K[5][3] as nat);
    assert CubeRootOf(PRIMES[5][4], 5, K[5][4] as nat);
    assert CubeRootOf(PRIMES[5][5], 5, K[5][5] as nat);
    assert CubeRootOf(PRIMES[5][6], 5, K[5][6] as nat);
    assert CubeRootOf(PRIMES[5][7], 6, K[5][7] as nat);
  }

  lemma {:induction false} Row6()
    ensures RowFromPrimes(6)
  {
    assert CubeRootOf(PRIMES[6][0], 6, K[6][0] as nat);
    assert CubeRootOf(PRIMES[6][1], 6, K[6][1] as nat);
    assert CubeRootOf(PRIMES[6][2], 6, K[6][2] as nat);
    assert CubeRootOf(PRIMES[6][3], 6, K[6][3] as nat);
    assert CubeRootOf(PRIMES[6][4], 6, K[6][4] as nat);
    assert CubeRootOf(PRIMES[6][5], 6, K[6][5] as nat);
    assert CubeRootOf(PRIMES[6][6], 6, K[6][6] as nat);
    assert CubeRootOf(PRIMES[6][7], 6, K[6][7] as nat);
  }

  lemma {:induction false} Row7()
    ensures RowFromPrimes(7)
  {
    assert CubeRootOf(PRIMES[7][0], 6, K[7][0] as nat);
    assert CubeRootOf(PRIMES[7][1], 6, K[7][1] as nat);
    assert CubeRootOf(PRIMES[7][2], 6, K[7][2] as nat);
    assert CubeRootOf(PRIMES[7][3], 6, K[7][3] as nat);
    assert CubeRootOf(PRIMES[7][4], 6, K[7][4] as nat);
    assert CubeRootOf(PRIMES[7][5], 6, K[7][5] as nat);
    assert CubeRootOf(PRIMES[7][6], 6, K[7][6] as nat);
    assert CubeRootOf(PRIMES[7][7], 6, K[7][7] as nat);
  }
}
