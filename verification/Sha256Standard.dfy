/**
 * What FIPS 180-4 says of SHA-256 and the code only has as numbers: the word functions of section
 * 4.1.2 bit by bit, and the constants of sections 4.2.2 and 5.3.3 as fractions of roots of primes.
 */
module Sha256Standard {

  import opened Sha256

  // ---------- section 4.1.2: words, bit by bit ----------

  /** Bit `i` of a word, counted from the least significant; `i + n` goes around the word. */
  predicate Bit(x: bv32, i: bv5) {
    (x >> (i as bv6)) & 1 == 1
  }

  predicate Odd(a: bool, b: bool, c: bool) {
    a != (b != c)
  }

  /** Rotation to the right by `n` brings bit `i + n` to `i`. */
  lemma RotatedBit(x: bv32, n: bv5, i: bv5)
    requires 0 < n
    ensures Bit(Rotr(x, n as bv6), i) <==> Bit(x, i + n)
  {
    match (i + n < i, Bit(x, i + n))
    case (true, true) =>
    case (true, false) =>
    case (false, true) =>
    case (false, false) =>
  }

  lemma BigSigma0Bit(x: bv32, i: bv5)
    ensures Bit(BigSigma0(x), i) <==> Odd(Bit(x, i + 2), Bit(x, i + 13), Bit(x, i + 22))
  {
    match (Bit(x, i + 2), Bit(x, i + 13))
    case (true, true) =>
    case (true, false) =>
    case (false, true) =>
    case (false, false) =>
  }

  lemma BigSigma1Bit(x: bv32, i: bv5)
    ensures Bit(BigSigma1(x), i) <==> Odd(Bit(x, i + 6), Bit(x, i + 11), Bit(x, i + 25))
  {
    match (Bit(x, i + 6), Bit(x, i + 11))
    case (true, true) =>
    case (true, false) =>
    case (false, true) =>
    case (false, false) =>
  }

  /** The last term is shifted, not rotated: it gives nothing to the top bits. */
  lemma SmallSigma0Bit(x: bv32, i: bv5)
    ensures Bit(SmallSigma0(x), i) <==> Odd(Bit(x, i + 7), Bit(x, i + 18), i < 29 && Bit(x, i + 3))
  {
    match (Bit(x, i + 7), Bit(x, i + 18))
    case (true, true) =>
    case (true, false) =>
    case (false, true) =>
    case (false, false) =>
  }

  lemma SmallSigma1Bit(x: bv32, i: bv5)
    ensures Bit(SmallSigma1(x), i) <==> Odd(Bit(x, i + 17), Bit(x, i + 19), i < 22 && Bit(x, i + 10))
  {
    match (Bit(x, i + 17), Bit(x, i + 19))
    case (true, true) =>
    case (true, false) =>
    case (false, true) =>
    case (false, false) =>
  }

  lemma ChoiceBit(x: bv32, y: bv32, z: bv32, i: bv5)
    ensures Bit(Ch(x, y, z), i) <==> if Bit(x, i) then Bit(y, i) else Bit(z, i)
  {
    if Bit(x, i) {
      if Bit(y, i) {
      }
    } else if Bit(z, i) {
    }
  }

  lemma MajorityBit(x: bv32, y: bv32, z: bv32, i: bv5)
    ensures Bit(Maj(x, y, z), i) <==> (Bit(x, i) && Bit(y, i)) || (Bit(x, i) && Bit(z, i)) || (Bit(y, i) && Bit(z, i))
  {
    match (Bit(x, i), Bit(y, i))
    case (true, true) =>
    case (true, false) =>
    case (false, true) =>
    case (false, false) =>
  }

  /** Words are written and read most significant octet first. */
  lemma OctetsOfWord(p: bv8, q: bv8, r: bv8, s: bv8)
    ensures var x := Join(p, q, r, s);
            OctetOf(x, 0) == p && OctetOf(x, 1) == q && OctetOf(x, 2) == r && OctetOf(x, 3) == s
    ensures Bit(Join(p, q, r, s), 31) <==> p >= 0x80
  {
  }

  lemma WordOfOctets(x: bv32)
    ensures Join(OctetOf(x, 0), OctetOf(x, 1), OctetOf(x, 2), OctetOf(x, 3)) == x
  {
  }

  // ---------- the first sixty-four primes ----------

  predicate Prime(n: nat) {
    n >= 2 && forall d :: 2 <= d < n ==> n % d != 0
  }


  /** Up to 311 the primes to 17 decide. */
  predicate Sieved(n: nat) {
    || n == 2 || n == 3 || n == 5 || n == 7 || n == 11 || n == 13 || n == 17
    || (n % 2 != 0 && n % 3 != 0 && n % 5 != 0 && n % 7 != 0 && n % 11 != 0 && n % 13 != 0 && n % 17 != 0)
  }

  predicate Sifts(n: nat) {
    n % 2 == 0 || n % 3 == 0 || n % 5 == 0 || n % 7 == 0 || n % 11 == 0 || n % 13 == 0 || n % 17 == 0
  }

  lemma Scaled(p: nat, m: int)
    requires p > 0
    ensures m >= 1 ==> p * m >= p
    ensures m <= -1 ==> p * m <= 0 - p
  {
  }

  lemma MultipleDivides(n: nat, p: nat, k: nat)
    requires n == p * k && p > 0
    ensures n % p == 0
  {
    var q, r := n / p, n % p;
    assert n == p * q + r;
    assert r == p * (k - q);
    Scaled(p, k - q);
  }

  lemma Regroup(p: nat, c: nat, b: nat)
    ensures p * c * b == p * (c * b)
  {
  }

  /** A number up to 18 is a multiple of one of those primes, and so is every multiple of it. */
  lemma SmallFactor(a: nat, b: nat)
    requires 2 <= a <= 18
    ensures Sifts(a * b)
  {
    var p := if a % 2 == 0 then 2 else if a % 3 == 0 then 3 else a;
    var c := if a % 2 == 0 then a / 2 else if a % 3 == 0 then a / 3 else 1;
    assert p == 2 || p == 3 || p == 5 || p == 7 || p == 11 || p == 13 || p == 17;
    Regroup(p, c, b);
    MultipleDivides(a * b, p, c * b);
  }

  lemma FactorUpToRoot(n: nat, d: nat) returns (a: nat, b: nat)
    requires 2 <= d < n <= 311 && n % d == 0
    ensures 2 <= a <= 18 && n == a * b
  {
    if d <= 18 {
      a, b := d, n / d;
    } else {
      a, b := n / d, d;
      assert n == a * d && 19 * a <= d * a;
      assert a != 0 && a != 1;
    }
  }

  predicate Indivisible(n: nat, d: nat) {
    d < 2 || (n % d != 0 && Indivisible(n, d - 1))
  }

  lemma {:induction false} IndivisibleMeans(n: nat, d: nat)
    requires Indivisible(n, d)
    ensures forall e :: 2 <= e <= d ==> n % e != 0
    decreases d
  {
    if d >= 2 {
      IndivisibleMeans(n, d - 1);
    }
  }

  lemma SmallPrimes(n: nat)
    requires n == 2 || n == 3 || n == 5 || n == 7 || n == 11 || n == 13 || n == 17
    ensures Prime(n)
  {
    assert Indivisible(2, 1) && Indivisible(3, 2) && Indivisible(5, 4) && Indivisible(7, 6);
    assert Indivisible(11, 10) && Indivisible(13, 12) && Indivisible(17, 16);
    IndivisibleMeans(n, n - 1);
  }

  lemma PrimeIffSieved(n: nat)
    requires 2 <= n <= 311
    ensures Prime(n) <==> Sieved(n)
  {
    if Sieved(n) {
      if n <= 17 && (n == 2 || n == 3 || n == 5 || n == 7 || n == 11 || n == 13 || n == 17) {
        SmallPrimes(n);
      } else {
        forall d | 2 <= d < n ensures n % d != 0 {
          if n % d == 0 {
            var a, b := FactorUpToRoot(n, d);
            SmallFactor(a, b);
          }
        }
      }
    }
  }


  // ---------- sections 4.2.2 and 5.3.3: constants ----------

  /** `r` is `c`, then `k` as 32 binary places, in units of the last place. */
  predicate Places(c: nat, k: nat, r: nat) {
    k < 0x1_0000_0000 && r == c * 0x1_0000_0000 + k
  }

  const TWO64: nat := 0x1_0000_0000_0000_0000
  const TWO96: nat := 0x1_0000_0000_0000_0000_0000_0000

  /** `k` is the first 32 bits of the fractional part of the cube root of `p`. */
  ghost predicate CubeRootBits(p: nat, k: nat) {
    exists c: nat, r: nat :: Places(c, k, r) && r * r * r <= p * TWO96 < (r + 1) * (r + 1) * (r + 1)
  }

  ghost predicate SquareRootBits(p: nat, k: nat) {
    exists c: nat, r: nat :: Places(c, k, r) && r * r <= p * TWO64 < (r + 1) * (r + 1)
  }

  ghost predicate NoPrimeBetween(q: nat, p: nat) {
    forall n :: q < n < p ==> !Prime(n)
  }

  /** The first sixty-four primes. */
  const PRIMES: seq<seq<nat>> :=
    [[2, 3, 5, 7, 11, 13, 17, 19],
     [23, 29, 31, 37, 41, 43, 47, 53],
     [59, 61, 67, 71, 73, 79, 83, 89],
     [97, 101, 103, 107, 109, 113, 127, 131],
     [137, 139, 149, 151, 157, 163, 167, 173],
     [179, 181, 191, 193, 197, 199, 211, 223],
     [227, 229, 233, 239, 241, 251, 257, 263],
     [269, 271, 277, 281, 283, 293, 307, 311]]

  function PrimeAt(t: nat): nat
    requires t < 64
  {
    PRIMES[t / 8][t % 8]
  }

  /** Prime `t` is the next after prime `t - 1`, and constant `t` is taken from its cube root. */
  ghost predicate RootAt(t: nat)
    requires t < 64
  {
    && Prime(PrimeAt(t)) && CubeRootBits(PrimeAt(t), KAt(t) as nat)
    && (if t == 0 then PrimeAt(t) == 2 else PrimeAt(t - 1) < PrimeAt(t) && NoPrimeBetween(PrimeAt(t - 1), PrimeAt(t)))
  }

  /** The sieve catches everything between. */
  predicate Skips(q: nat, p: nat)
    decreases p - q
  {
    q + 1 >= p || (!Sieved(q + 1) && Skips(q + 1, p))
  }

  lemma {:induction false} SkipsMeans(q: nat, p: nat, n: nat)
    requires Skips(q, p) && q < n < p
    ensures !Sieved(n)
    decreases p - q
  {
    if q + 1 < n {
      SkipsMeans(q + 1, p, n);
    }
  }

  lemma SievedGap(q: nat, p: nat)
    requires 1 <= q < p <= 311 && Sieved(p) && Skips(q, p)
    ensures Prime(p) && NoPrimeBetween(q, p)
  {
    forall n | q < n < p ensures !Prime(n) {
      SkipsMeans(q, p, n);
      PrimeIffSieved(n);
    }
    PrimeIffSieved(p);
  }

  lemma RootBits(p: nat, c: nat, k: nat, r: nat)
    requires k < 0x1_0000_0000 && r == c * 0x1_0000_0000 + k
    requires r * r * r <= p * 0x1_0000_0000_0000_0000_0000_0000 < (r + 1) * (r + 1) * (r + 1)
    ensures CubeRootBits(p, k)
  {
    assert Places(c, k, r);
  }

  lemma Root(t: nat, q: nat, p: nat, c: nat, k: nat, r: nat)
    requires t < 64 && PrimeAt(t) == p && (if t == 0 then p == 2 else PrimeAt(t - 1) == q)
    requires 1 <= q < p <= 311 && Sieved(p) && Skips(q, p)
    requires KAt(t) as nat == k && k < 0x1_0000_0000 && r == c * 0x1_0000_0000 + k
    requires r * r * r <= p * 0x1_0000_0000_0000_0000_0000_0000 < (r + 1) * (r + 1) * (r + 1)
    ensures RootAt(t)
  {
    SievedGap(q, p);
    RootBits(p, c, k, r);
  }

  lemma Roots0(t: nat)
    requires 0 <= t < 8
    ensures RootAt(t)
  {
    match t
    case 0 => Root(t, 1, 2, 1, 0x428a2f98, 0x1428a2f98);
    case 1 => Root(t, 2, 3, 1, 0x71374491, 0x171374491);
    case 2 => Root(t, 3, 5, 1, 0xb5c0fbcf, 0x1b5c0fbcf);
    case 3 => Root(t, 5, 7, 1, 0xe9b5dba5, 0x1e9b5dba5);
    case 4 => Root(t, 7, 11, 2, 0x3956c25b, 0x23956c25b);
    case 5 => Root(t, 11, 13, 2, 0x59f111f1, 0x259f111f1);
    case 6 => Root(t, 13, 17, 2, 0x923f82a4, 0x2923f82a4);
    case _ => Root(t, 17, 19, 2, 0xab1c5ed5, 0x2ab1c5ed5);
  }

  lemma Roots1(t: nat)
    requires 8 <= t < 16
    ensures RootAt(t)
  {
    match t
    case 8 => Root(t, 19, 23, 2, 0xd807aa98, 0x2d807aa98);
    case 9 => Root(t, 23, 29, 3, 0x12835b01, 0x312835b01);
    case 10 => Root(t, 29, 31, 3, 0x243185be, 0x3243185be);
    case 11 => Root(t, 31, 37, 3, 0x550c7dc3, 0x3550c7dc3);
    case 12 => Root(t, 37, 41, 3, 0x72be5d74, 0x372be5d74);
    case 13 => Root(t, 41, 43, 3, 0x80deb1fe, 0x380deb1fe);
    case 14 => Root(t, 43, 47, 3, 0x9bdc06a7, 0x39bdc06a7);
    case _ => Root(t, 47, 53, 3, 0xc19bf174, 0x3c19bf174);
  }

  lemma Roots2(t: nat)
    requires 16 <= t < 24
    ensures RootAt(t)
  {
    match t
    case 16 => Root(t, 53, 59, 3, 0xe49b69c1, 0x3e49b69c1);
    case 17 => Root(t, 59, 61, 3, 0xefbe4786, 0x3efbe4786);
    case 18 => Root(t, 61, 67, 4, 0x0fc19dc6, 0x40fc19dc6);
    case 19 => Root(t, 67, 71, 4, 0x240ca1cc, 0x4240ca1cc);
    case 20 => Root(t, 71, 73, 4, 0x2de92c6f, 0x42de92c6f);
    case 21 => Root(t, 73, 79, 4, 0x4a7484aa, 0x44a7484aa);
    case 22 => Root(t, 79, 83, 4, 0x5cb0a9dc, 0x45cb0a9dc);
    case _ => Root(t, 83, 89, 4, 0x76f988da, 0x476f988da);
  }

  lemma Roots3(t: nat)
    requires 24 <= t < 32
    ensures RootAt(t)
  {
    match t
    case 24 => Root(t, 89, 97, 4, 0x983e5152, 0x4983e5152);
    case 25 => Root(t, 97, 101, 4, 0xa831c66d, 0x4a831c66d);
    case 26 => Root(t, 101, 103, 4, 0xb00327c8, 0x4b00327c8);
    case 27 => Root(t, 103, 107, 4, 0xbf597fc7, 0x4bf597fc7);
    case 28 => Root(t, 107, 109, 4, 0xc6e00bf3, 0x4c6e00bf3);
    case 29 => Root(t, 109, 113, 4, 0xd5a79147, 0x4d5a79147);
    case 30 => Root(t, 113, 127, 5, 0x06ca6351, 0x506ca6351);
    case _ => Root(t, 127, 131, 5, 0x14292967, 0x514292967);
  }

  lemma Roots4(t: nat)
    requires 32 <= t < 40
    ensures RootAt(t)
  {
    match t
    case 32 => Root(t, 131, 137, 5, 0x27b70a85, 0x527b70a85);
    case 33 => Root(t, 137, 139, 5, 0x2e1b2138, 0x52e1b2138);
    case 34 => Root(t, 139, 149, 5, 0x4d2c6dfc, 0x54d2c6dfc);
    case 35 => Root(t, 149, 151, 5, 0x53380d13, 0x553380d13);
    case 36 => Root(t, 151, 157, 5, 0x650a7354, 0x5650a7354);
    case 37 => Root(t, 157, 163, 5, 0x766a0abb, 0x5766a0abb);
    case 38 => Root(t, 163, 167, 5, 0x81c2c92e, 0x581c2c92e);
    case _ => Root(t, 167, 173, 5, 0x92722c85, 0x592722c85);
  }

  lemma Roots5(t: nat)
    requires 40 <= t < 48
    ensures RootAt(t)
  {
    match t
    case 40 => Root(t, 173, 179, 5, 0xa2bfe8a1, 0x5a2bfe8a1);
    case 41 => Root(t, 179, 181, 5, 0xa81a664b, 0x5a81a664b);
    case 42 => Root(t, 181, 191, 5, 0xc24b8b70, 0x5c24b8b70);
    case 43 => Root(t, 191, 193, 5, 0xc76c51a3, 0x5c76c51a3);
    case 44 => Root(t, 193, 197, 5, 0xd192e819, 0x5d192e819);
    case 45 => Root(t, 197, 199, 5, 0xd6990624, 0x5d6990624);
    case 46 => Root(t, 199, 211, 5, 0xf40e3585, 0x5f40e3585);
    case _ => Root(t, 211, 223, 6, 0x106aa070, 0x6106aa070);
  }

  lemma Roots6(t: nat)
    requires 48 <= t < 56
    ensures RootAt(t)
  {
    match t
    case 48 => Root(t, 223, 227, 6, 0x19a4c116, 0x619a4c116);
    case 49 => Root(t, 227, 229, 6, 0x1e376c08, 0x61e376c08);
    case 50 => Root(t, 229, 233, 6, 0x2748774c, 0x62748774c);
    case 51 => Root(t, 233, 239, 6, 0x34b0bcb5, 0x634b0bcb5);
    case 52 => Root(t, 239, 241, 6, 0x391c0cb3, 0x6391c0cb3);
    case 53 => Root(t, 241, 251, 6, 0x4ed8aa4a, 0x64ed8aa4a);
    case 54 => Root(t, 251, 257, 6, 0x5b9cca4f, 0x65b9cca4f);
    case _ => Root(t, 257, 263, 6, 0x682e6ff3, 0x6682e6ff3);
  }

  lemma Roots7(t: nat)
    requires 56 <= t < 64
    ensures RootAt(t)
  {
    match t
    case 56 => Root(t, 263, 269, 6, 0x748f82ee, 0x6748f82ee);
    case 57 => Root(t, 269, 271, 6, 0x78a5636f, 0x678a5636f);
    case 58 => Root(t, 271, 277, 6, 0x84c87814, 0x684c87814);
    case 59 => Root(t, 277, 281, 6, 0x8cc70208, 0x68cc70208);
    case 60 => Root(t, 281, 283, 6, 0x90befffa, 0x690befffa);
    case 61 => Root(t, 283, 293, 6, 0xa4506ceb, 0x6a4506ceb);
    case 62 => Root(t, 293, 307, 6, 0xbef9a3f7, 0x6bef9a3f7);
    case _ => Root(t, 307, 311, 6, 0xc67178f2, 0x6c67178f2);
  }

  /** Each round constant is the first 32 bits of the fraction of the cube root of its prime. */
  lemma ConstantsAreRoots(t: nat)
    requires t < 64
    ensures RootAt(t)
  {
    match t / 8
    case 0 => Roots0(t);
    case 1 => Roots1(t);
    case 2 => Roots2(t);
    case 3 => Roots3(t);
    case 4 => Roots4(t);
    case 5 => Roots5(t);
    case 6 => Roots6(t);
    case _ => Roots7(t);
  }

  lemma SquareRoot(p: nat, c: nat, k: bv32, n: nat, r: nat)
    requires k as nat == n && n < 0x1_0000_0000 && r == c * 0x1_0000_0000 + n
    requires r * r <= p * 0x1_0000_0000_0000_0000 < (r + 1) * (r + 1)
    ensures SquareRootBits(p, k as nat)
  {
    assert Places(c, n, r);
  }

  /** The initial words are taken from the square roots of the first eight primes. */
  lemma InitialWordsAreRoots()
    ensures SquareRootBits(2, H0.a as nat) && SquareRootBits(3, H0.b as nat) && SquareRootBits(5, H0.c as nat)
    ensures SquareRootBits(7, H0.d as nat) && SquareRootBits(11, H0.e as nat) && SquareRootBits(13, H0.f as nat)
    ensures SquareRootBits(17, H0.g as nat) && SquareRootBits(19, H0.h as nat)
  {
    SquareRoot(2, 1, H0.a, 0x6a09e667, 0x16a09e667);
    SquareRoot(3, 1, H0.b, 0xbb67ae85, 0x1bb67ae85);
    SquareRoot(5, 2, H0.c, 0x3c6ef372, 0x23c6ef372);
    SquareRoot(7, 2, H0.d, 0xa54ff53a, 0x2a54ff53a);
    SquareRoot(11, 3, H0.e, 0x510e527f, 0x3510e527f);
    SquareRoot(13, 3, H0.f, 0x9b05688c, 0x39b05688c);
    SquareRoot(17, 4, H0.g, 0x1f83d9ab, 0x41f83d9ab);
    SquareRoot(19, 4, H0.h, 0x5be0cd19, 0x45be0cd19);
  }
}
