/**
 * SHA-256 as FIPS 180-4 defines it (padding of section 5.1.1, hash computation of section
 * 6.2), and the streaming context that computes it piece by piece.
 */
module Sha256 {

  /** The round constants, eight to a row. */
  const K: seq<seq<bv32>> :=
    [[0x428a2f98, 0x71374491, 0xb5c0fbcf, 0xe9b5dba5, 0x3956c25b, 0x59f111f1, 0x923f82a4, 0xab1c5ed5],
     [0xd807aa98, 0x12835b01, 0x243185be, 0x550c7dc3, 0x72be5d74, 0x80deb1fe, 0x9bdc06a7, 0xc19bf174],
     [0xe49b69c1, 0xefbe4786, 0x0fc19dc6, 0x240ca1cc, 0x2de92c6f, 0x4a7484aa, 0x5cb0a9dc, 0x76f988da],
     [0x983e5152, 0xa831c66d, 0xb00327c8, 0xbf597fc7, 0xc6e00bf3, 0xd5a79147, 0x06ca6351, 0x14292967],
     [0x27b70a85, 0x2e1b2138, 0x4d2c6dfc, 0x53380d13, 0x650a7354, 0x766a0abb, 0x81c2c92e, 0x92722c85],
     [0xa2bfe8a1, 0xa81a664b, 0xc24b8b70, 0xc76c51a3, 0xd192e819, 0xd6990624, 0xf40e3585, 0x106aa070],
     [0x19a4c116, 0x1e376c08, 0x2748774c, 0x34b0bcb5, 0x391c0cb3, 0x4ed8aa4a, 0x5b9cca4f, 0x682e6ff3],
     [0x748f82ee, 0x78a5636f, 0x84c87814, 0x8cc70208, 0x90befffa, 0xa4506ceb, 0xbef9a3f7, 0xc67178f2]]

  datatype Words = Words(a: bv32, b: bv32, c: bv32, d: bv32, e: bv32, f: bv32, g: bv32, h: bv32)
  {
    function At(k: nat): bv32 {
      if k == 0 then a else if k == 1 then b else if k == 2 then c else if k == 3 then d
      else if k == 4 then e else if k == 5 then f else if k == 6 then g else h
    }
  }

  const H0 := Words(0x6a09e667, 0xbb67ae85, 0x3c6ef372, 0xa54ff53a, 0x510e527f, 0x9b05688c, 0x1f83d9ab, 0x5be0cd19)

  // ---------- word operations ----------

  /** Word operations and round constants. All that is used about them is that a sum may be reordered. */
  datatype Alu = Alu(k: nat -> bv32, add: (bv32, bv32) -> bv32, bigSigma0: bv32 -> bv32, bigSigma1: bv32 -> bv32,
                     smallSigma0: bv32 -> bv32, smallSigma1: bv32 -> bv32,
                     ch: (bv32, bv32, bv32) -> bv32, maj: (bv32, bv32, bv32) -> bv32,
                     join: (bv8, bv8, bv8, bv8) -> bv32, top: (bv32, nat) -> bv8, octet: (nat, nat) -> bv8)

  function Rotr(x: bv32, n: bv6): bv32
    requires 0 < n < 32
  {
    (x >> n) | (x << (32 - n))
  }

  /** The `i`th octet of a word, most significant first. */
  function OctetOf(x: bv32, i: nat): bv8 {
    if i == 0 then ((x >> 24) & 0xff) as bv8
    else if i == 1 then ((x >> 16) & 0xff) as bv8
    else if i == 2 then ((x >> 8) & 0xff) as bv8
    else (x & 0xff) as bv8
  }

  function Power(i: nat): (p: nat)
    ensures p > 0
  {
    if i == 0 then 1 else 256 * Power(i - 1)
  }

  function KAt(t: nat): bv32 { if t < 64 then K[t / 8][t % 8] else 0 }

  function Add(x: bv32, y: bv32): bv32 { x + y }

  function BigSigma0(x: bv32): bv32 { Rotr(x, 2) ^ Rotr(x, 13) ^ Rotr(x, 22) }

  function BigSigma1(x: bv32): bv32 { Rotr(x, 6) ^ Rotr(x, 11) ^ Rotr(x, 25) }

  function SmallSigma0(x: bv32): bv32 { Rotr(x, 7) ^ Rotr(x, 18) ^ (x >> 3) }

  function SmallSigma1(x: bv32): bv32 { Rotr(x, 17) ^ Rotr(x, 19) ^ (x >> 10) }

  function Ch(x: bv32, y: bv32, z: bv32): bv32 { (x & y) ^ (!x & z) }

  function Maj(x: bv32, y: bv32, z: bv32): bv32 { (x & y) ^ (x & z) ^ (y & z) }

  function Join(p: bv8, q: bv8, r: bv8, s: bv8): bv32 {
    ((p as bv32) << 24) | ((q as bv32) << 16) | ((r as bv32) << 8) | (s as bv32)
  }

  /** Octet `i` of a number, least significant first. */
  function OctetOfNumber(n: nat, i: nat): bv8 {
    ((n / Power(i)) % 256) as bv8
  }

  /** Sections 3.2 and 4.1.2 of the standard. */
  const WORDS := Alu(KAt, Add, BigSigma0, BigSigma1, SmallSigma0, SmallSigma1, Ch, Maj, Join, OctetOf, OctetOfNumber)

  function Sum(alu: Alu, a: bv32, b: bv32, c: bv32, d: bv32): bv32 {
    alu.add(alu.add(alu.add(a, b), c), d)
  }

  ghost predicate Reorders(alu: Alu) {
    forall a, b, c, d :: Sum(alu, a, b, c, d) == Sum(alu, d, c, b, a)
  }

  lemma WordsReorder()
    ensures Reorders(WORDS)
  {
    forall a: bv32, b: bv32, c: bv32, d: bv32 ensures Sum(WORDS, a, b, c, d) == Sum(WORDS, d, c, b, a) {
      WordsSum(a, b, c, d);
      WordsSum(d, c, b, a);
      SumOrder(a, b, c, d);
    }
  }

  lemma WordsSum(a: bv32, b: bv32, c: bv32, d: bv32)
    ensures Sum(WORDS, a, b, c, d) == a + b + c + d
  {
    WordsAdd(a, b);
    WordsAdd(a + b, c);
    WordsAdd(a + b + c, d);
  }

  lemma WordsAdd(x: bv32, y: bv32)
    ensures WORDS.add(x, y) == x + y
  {
    assert WORDS.add(x, y) == Add(x, y);
  }

  lemma SumOrder(a: bv32, b: bv32, c: bv32, d: bv32)
    ensures a + b + c + d == d + c + b + a
  {
  }

  // ---------- the standard: one block ----------

  /** The message schedule. */
  function W(alu: Alu, block: seq<bv8>, t: nat): bv32
    requires |block| == 64 && t < 64
  {
    if t < 16 then alu.join(block[4 * t], block[4 * t + 1], block[4 * t + 2], block[4 * t + 3])
    else Sum(alu, alu.smallSigma1(W(alu, block, t - 2)), W(alu, block, t - 7),
             alu.smallSigma0(W(alu, block, t - 15)), W(alu, block, t - 16))
  }

  function Temp1(alu: Alu, v: Words, k: bv32, w: bv32): bv32 {
    alu.add(alu.add(alu.add(alu.add(v.h, alu.bigSigma1(v.e)), alu.ch(v.e, v.f, v.g)), k), w)
  }

  function Round(alu: Alu, v: Words, k: bv32, w: bv32): Words {
    var t1 := Temp1(alu, v, k, w);
    var t2 := alu.add(alu.bigSigma0(v.a), alu.maj(v.a, v.b, v.c));
    Words(alu.add(t1, t2), v.a, v.b, v.c, alu.add(v.d, t1), v.e, v.f, v.g)
  }

  /** The working variables after `t` rounds. */
  function Rounds(alu: Alu, v: Words, block: seq<bv8>, t: nat): Words
    requires |block| == 64 && t <= 64
  {
    if t == 0 then v else Round(alu, Rounds(alu, v, block, t - 1), alu.k(t - 1), W(alu, block, t - 1))
  }

  function Compress(alu: Alu, v: Words, block: seq<bv8>): Words
    requires |block| == 64
  {
    var w := Rounds(alu, v, block, 64);
    Words(alu.add(v.a, w.a), alu.add(v.b, w.b), alu.add(v.c, w.c), alu.add(v.d, w.d),
          alu.add(v.e, w.e), alu.add(v.f, w.f), alu.add(v.g, w.g), alu.add(v.h, w.h))
  }

  // ---------- the code: one block ----------

  /** The first sixteen words come from the chunk, the rest from earlier words. */
  method FillSchedule(alu: Alu, chunk: seq<bv8>, w: array<bv32>)
    requires Reorders(alu) && |chunk| == 64 && w.Length == 64
    modifies w
    ensures forall k :: 0 <= k < 64 ==> w[k] == W(alu, chunk, k)
  {
    for j := 0 to 16
      invariant forall k :: 0 <= k < j ==> w[k] == W(alu, chunk, k)
    {
      w[j] := alu.join(chunk[j * 4], chunk[j * 4 + 1], chunk[j * 4 + 2], chunk[j * 4 + 3]);
    }
    for j := 16 to 64
      invariant forall k :: 0 <= k < j ==> w[k] == W(alu, chunk, k)
    {
      var s0, s1 := alu.smallSigma0(w[j - 15]), alu.smallSigma1(w[j - 2]);
      // The code adds the four words in the opposite order.
      w[j] := Sum(alu, w[j - 16], s0, w[j - 7], s1);
    }
  }

  /** `Sha256CompressRound` shifts eight variables along. */
  method CompressRound(alu: Alu, a: bv32, b: bv32, c: bv32, d: bv32, e: bv32, f: bv32, g: bv32, h: bv32, k: bv32,
                       w: bv32)
    returns (a': bv32, b': bv32, c': bv32, d': bv32, e': bv32, f': bv32, g': bv32, h': bv32)
    ensures Words(a', b', c', d', e', f', g', h') == Round(alu, Words(a, b, c, d, e, f, g, h), k, w)
  {
    var s1, ch := alu.bigSigma1(e), alu.ch(e, f, g);
    var temp1 := alu.add(alu.add(alu.add(alu.add(h, s1), ch), k), w);
    var s0, maj := alu.bigSigma0(a), alu.maj(a, b, c);
    var temp2 := alu.add(s0, maj);
    h', g', f', e' := g, f, e, alu.add(d, temp1);
    d', c', b', a' := c, b, a, alu.add(temp1, temp2);
  }

  /** `Sha256ProcessChunk`: schedule into a table, then sixty-four rounds. */
  method ProcessChunk(alu: Alu, v: Words, chunk: seq<bv8>) returns (r: Words)
    requires Reorders(alu) && |chunk| == 64
    ensures r == Compress(alu, v, chunk)
  {
    var w := new bv32[64];
    FillSchedule(alu, chunk, w);
    var a, b, c, d, e, f, g, h := v.a, v.b, v.c, v.d, v.e, v.f, v.g, v.h;
    for j := 0 to 64
      invariant Words(a, b, c, d, e, f, g, h) == Rounds(alu, v, chunk, j)
      invariant forall k :: 0 <= k < 64 ==> w[k] == W(alu, chunk, k)
    {
      a, b, c, d, e, f, g, h := CompressRound(alu, a, b, c, d, e, f, g, h, alu.k(j), w[j]);
    }
    r := Words(alu.add(v.a, a), alu.add(v.b, b), alu.add(v.c, c), alu.add(v.d, d),
               alu.add(v.e, e), alu.add(v.f, f), alu.add(v.g, g), alu.add(v.h, h));
  }
}
