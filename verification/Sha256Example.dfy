/**
 * The one-block example that comes with FIPS 180-4: the digest of "abc", through the schedule and
 * the sixty-four rounds with the standard's word operations.
 */
module Sha256Example {

  import opened Sha256
  import opened Sha256Streams
  import opened Sha256Standard

  // ---------- checking a table ----------

  predicate Checks(f: nat -> bool, t: nat, n: nat)
    decreases n
  {
    n == 0 || (f(t) && Checks(f, t + 1, n - 1))
  }

  lemma {:induction false} ChecksMeans(f: nat -> bool, t: nat, n: nat, k: nat)
    requires Checks(f, t, n) && t <= k < t + n
    ensures f(k)
    decreases n
  {
    if t < k {
      ChecksMeans(f, t + 1, n - 1, k);
    }
  }

  /** A table that follows the recurrence is the schedule. */
  predicate Scheduled(alu: Alu, ws: nat -> bv32, t: nat)
    requires 16 <= t
  {
    Sum(alu, alu.smallSigma1(ws(t - 2)), ws(t - 7), alu.smallSigma0(ws(t - 15)), ws(t - 16)) == ws(t)
  }

  lemma {:induction false} TableIsSchedule(alu: Alu, block: seq<bv8>, ws: nat -> bv32, t: nat)
    requires |block| == 64 && t < 64
    requires forall u :: 0 <= u < 16 ==> W(alu, block, u) == ws(u)
    requires forall u :: 16 <= u < 64 ==> Scheduled(alu, ws, u)
    ensures W(alu, block, t) == ws(t)
    decreases t
  {
    if t >= 16 {
      TableIsSchedule(alu, block, ws, t - 2);
      TableIsSchedule(alu, block, ws, t - 7);
      TableIsSchedule(alu, block, ws, t - 15);
      TableIsSchedule(alu, block, ws, t - 16);
      assert Scheduled(alu, ws, t);
    }
  }

  /** A table of states that goes from round to round gives the rounds. */
  lemma {:induction false} TableIsRounds(alu: Alu, block: seq<bv8>, ws: nat -> bv32, vs: nat -> Words, t: nat)
    requires |block| == 64 && t <= 64
    requires forall u :: 0 <= u < 64 ==> W(alu, block, u) == ws(u)
    requires forall u :: 0 <= u < 64 ==> Round(alu, vs(u), alu.k(u), ws(u)) == vs(u + 1)
    ensures Rounds(alu, vs(0), block, t) == vs(t)
    decreases t
  {
    if t > 0 {
      TableIsRounds(alu, block, ws, vs, t - 1);
    }
  }

  // ---------- the example ----------

  /** The schedule. */
  const WS: seq<seq<bv32>> :=
    [[0x61626380, 0x00000000, 0x00000000, 0x00000000, 0x00000000, 0x00000000, 0x00000000, 0x00000000],
     [0x00000000, 0x00000000, 0x00000000, 0x00000000, 0x00000000, 0x00000000, 0x00000000, 0x00000018],
     [0x61626380, 0x000f0000, 0x7da86405, 0x600003c6, 0x3e9d7b78, 0x0183fc00, 0x12dcbfdb, 0xe2e2c38e],
     [0xc8215c1a, 0xb73679a2, 0xe5bc3909, 0x32663c5b, 0x9d209d67, 0xec8726cb, 0x702138a4, 0xd3b7973b],
     [0x93f5997f, 0x3b68ba73, 0xaff4ffc1, 0xf10a5c62, 0x0a8b3996, 0x72af830a, 0x9409e33e, 0x24641522],
     [0x9f47bf94, 0xf0a64f5a, 0x3e246a79, 0x27333ba3, 0x0c4763f2, 0x840abf27, 0x7a290d5d, 0x065c43da],
     [0xfb3e89cb, 0xcc7617db, 0xb9e66c34, 0xa9993667, 0x84badedd, 0xc21462bc, 0x1487472c, 0xb20f7a99],
     [0xef57b9cd, 0xebe6b238, 0x9fe3095e, 0x78bc8d4b, 0xa43fcf15, 0x668b2ff8, 0xeeaba2cc, 0x12b1edeb]]

  /** The first working variable before each round; ahead of it d, c and b at the start. */
  const AS: seq<seq<bv32>> :=
    [[0xa54ff53a, 0x3c6ef372, 0xbb67ae85, 0x6a09e667, 0x5d6aebcd, 0x5a6ad9ad, 0xc8c347a7, 0xd550f666],
     [0x04409a6a, 0x2b4209f5, 0xe5030380, 0x85a07b5f, 0x8e04ecb9, 0x8c87346b, 0x4798a3f4, 0xf71fc5a9],
     [0x87912990, 0xd932eb16, 0xc0645fde, 0xb0fa238e, 0x21da9a9b, 0xc2fbd9d1, 0xfe777bbf, 0xe1f20c33],
     [0x9dc68b63, 0xc2606d6d, 0xa7a3623f, 0xc5d53d8d, 0x1c2c2838, 0xcde8037d, 0xb62ec4bc, 0x77d37528],
     [0x363482c9, 0xa0060b30, 0xea992a22, 0x73b33bf5, 0x98e12507, 0xfe604df5, 0xa9a7738c, 0x65a0cfe4],
     [0x41a65cb1, 0x34df1604, 0x6dc57a8a, 0x79ea687a, 0xd6670766, 0xdf46652f, 0x17aa0dfe, 0x9d4baf93],
     [0x26628815, 0x72ab4b91, 0xa14c14b0, 0x4172328d, 0x05757ceb, 0xf11bfaa8, 0x7a0508a1, 0x886e7a22],
     [0x101fd28f, 0xf5702fdb, 0x3ec45cdb, 0x38cc9913, 0xfcd1887b, 0xc062d46f, 0xffb70472, 0xb6ae8fff],
     [0xb85e2ce9, 0x04d24d6c, 0xd39a2165, 0x506e3058]]

  /** The fifth; ahead of it h, g and f. */
  const ES: seq<seq<bv32>> :=
    [[0x5be0cd19, 0x1f83d9ab, 0x9b05688c, 0x510e527f, 0xfa2a4622, 0x78ce7989, 0xf92939eb, 0x24e00850],
     [0x43ada245, 0x714260ad, 0x9b27a401, 0x0c657a79, 0x32ca2d8c, 0x1cc92596, 0x436b23e8, 0x816fd6e9],
     [0x1e578218, 0x745a48de, 0x0b92f20c, 0x07590dcd, 0x8034229c, 0x846ee454, 0xcc899961, 0xb0638179],
     [0x8ada8930, 0xe1257970, 0x49f5114a, 0xaa47c347, 0x2823ef91, 0x14383d8e, 0xc74c6516, 0xedffbff8],
     [0x6112a3b7, 0xade79437, 0x0109ab3a, 0xba591112, 0x9cd9f5f6, 0x59249dd3, 0x085f3833, 0xf4b002d6],
     [0x0772a26b, 0xa507a53d, 0xf0781bc8, 0x1efbc0a0, 0x26352d63, 0x838b2711, 0xdecd4715, 0xfda24c2e],
     [0xa80f11f0, 0xb7755da1, 0xd57b94a9, 0xfecf0bc6, 0xbd714038, 0x6e5c390c, 0x52f1ccf7, 0x49231c1e],
     [0x529e7d00, 0x9f4787c3, 0xe50e1b4f, 0x54cb266b, 0x9b5e906c, 0x7e44008e, 0x6d83bfc6, 0xb21bad3d],
     [0x961f4894, 0x948d25b6, 0xfb121210, 0x5ef50f24]]

  function WAt(t: nat): bv32 {
    if t < 64 then WS[t / 8][t % 8] else 0
  }

  function AAt(t: nat): bv32 {
    if t < 68 then AS[t / 8][t % 8] else 0
  }

  function EAt(t: nat): bv32 {
    if t < 68 then ES[t / 8][t % 8] else 0
  }

  function VAt(t: nat): Words {
    Words(AAt(t + 3), AAt(t + 2), AAt(t + 1), AAt(t), EAt(t + 3), EAt(t + 2), EAt(t + 1), EAt(t))
  }

  predicate WordFits(t: nat) {
    16 <= t && Scheduled(WORDS, WAt, t)
  }

  predicate RoundFits(t: nat) {
    Round(WORDS, VAt(t), KAt(t), WAt(t)) == VAt(t + 1)
  }

  lemma Words2()
    ensures Checks(WordFits, 16, 8)
  {
  }

  lemma Words3()
    ensures Checks(WordFits, 24, 8)
  {
  }

  lemma Words4()
    ensures Checks(WordFits, 32, 8)
  {
  }

  lemma Words5()
    ensures Checks(WordFits, 40, 8)
  {
  }

  lemma Words6()
    ensures Checks(WordFits, 48, 8)
  {
  }

  lemma Words7()
    ensures Checks(WordFits, 56, 8)
  {
  }

  lemma Rounds0()
    ensures Checks(RoundFits, 0, 8)
  {
  }

  lemma Rounds1()
    ensures Checks(RoundFits, 8, 8)
  {
  }

  lemma Rounds2()
    ensures Checks(RoundFits, 16, 8)
  {
  }

  lemma Rounds3()
    ensures Checks(RoundFits, 24, 8)
  {
  }

  lemma Rounds4()
    ensures Checks(RoundFits, 32, 8)
  {
  }

  lemma Rounds5()
    ensures Checks(RoundFits, 40, 8)
  {
  }

  lemma Rounds6()
    ensures Checks(RoundFits, 48, 8)
  {
  }

  lemma Rounds7()
    ensures Checks(RoundFits, 56, 8)
  {
  }

  lemma EveryWordFits(t: nat)
    requires 16 <= t < 64
    ensures WordFits(t)
  {
    match t / 8
    case 2 => Words2(); ChecksMeans(WordFits, 16, 8, t);
    case 3 => Words3(); ChecksMeans(WordFits, 24, 8, t);
    case 4 => Words4(); ChecksMeans(WordFits, 32, 8, t);
    case 5 => Words5(); ChecksMeans(WordFits, 40, 8, t);
    case 6 => Words6(); ChecksMeans(WordFits, 48, 8, t);
    case _ => Words7(); ChecksMeans(WordFits, 56, 8, t);
  }

  /** Eight rows of eight. */
  lemma EveryRow(f: nat -> bool, t: nat)
    requires t < 64
    requires Checks(f, 0, 8) && Checks(f, 8, 8) && Checks(f, 16, 8) && Checks(f, 24, 8)
    requires Checks(f, 32, 8) && Checks(f, 40, 8) && Checks(f, 48, 8) && Checks(f, 56, 8)
    ensures f(t)
  {
    ChecksMeans(f, t / 8 * 8, 8, t);
  }

  lemma EveryRoundFits(t: nat)
    requires t < 64
    ensures RoundFits(t)
  {
    Rounds0();
    Rounds1();
    Rounds2();
    Rounds3();
    Rounds4();
    Rounds5();
    Rounds6();
    Rounds7();
    EveryRow(RoundFits, t);
  }

  const ABC: seq<bv8> := [0x61, 0x62, 0x63]
  const BLOCK: seq<bv8> := [0x61, 0x62, 0x63, 0x80] + Zeros(59) + [0x18]

  lemma SmallQuotient(n: nat, p: nat)
    requires n < p
    ensures n / p == 0
  {
    var q, r := n / p, n % p;
    assert n == p * q + r;
    Scaled(p, q);
  }

  lemma HighOctet(n: nat, i: nat)
    requires n < Power(i)
    ensures OctetOfNumber(n, i) == 0
  {
    SmallQuotient(n, Power(i));
  }

  lemma {:induction false} PowerAtLeast(i: nat)
    requires i > 0
    ensures Power(i) >= 256
  {
    if i > 1 {
      PowerAtLeast(i - 1);
    }
  }

  lemma OctetOfWords(n: nat, i: nat)
    ensures WORDS.octet(n, i) == OctetOfNumber(n, i)
  {
  }

  lemma LowOctet()
    ensures OctetOfNumber(24, 0) == 0x18
  {
    assert 24 / Power(0) == 24;
  }

  lemma LengthOfAbc()
    ensures LengthField(WORDS, 3) == Zeros(7) + [0x18]
  {
    var field := LengthField(WORDS, 3);
    assert Wrap(3 * 8) == 24;
    assert field[7] == 0x18 by {
      OctetOfWords(24, 0);
      LowOctet();
    }
    forall i | 0 <= i < 7 ensures field[i] == 0 {
      OctetOfWords(24, 7 - i);
      PowerAtLeast(7 - i);
      HighOctet(24, 7 - i);
    }
  }

  lemma PaddedAbc()
    ensures Padded(WORDS, ABC) == BLOCK
  {
    LengthOfAbc();
    assert Zeros(52) + (Zeros(7) + [0x18]) == Zeros(59) + [0x18];
  }

  predicate BlockFits(t: nat) {
    t < 16 && W(WORDS, BLOCK, t) == WAt(t)
  }

  lemma FirstWords()
    ensures Checks(BlockFits, 0, 8) && Checks(BlockFits, 8, 8)
  {
  }

  lemma RoundsOfAbc()
    ensures Rounds(WORDS, H0, BLOCK, 64) == VAt(64) && VAt(0) == H0
  {
    forall u | 0 <= u < 16 ensures W(WORDS, BLOCK, u) == WAt(u) {
      FirstWords();
      ChecksMeans(BlockFits, if u < 8 then 0 else 8, 8, u);
    }
    forall u | 16 <= u < 64 ensures Scheduled(WORDS, WAt, u) {
      EveryWordFits(u);
    }
    forall u | 0 <= u < 64 ensures W(WORDS, BLOCK, u) == WAt(u) {
      TableIsSchedule(WORDS, BLOCK, WAt, u);
    }
    forall u | 0 <= u < 64 ensures Round(WORDS, VAt(u), WORDS.k(u), WAt(u)) == VAt(u + 1) {
      EveryRoundFits(u);
    }
    TableIsRounds(WORDS, BLOCK, WAt, VAt, 64);
  }

  const HASH := Words(0xba7816bf, 0x8f01cfea, 0x414140de, 0x5dae2223, 0xb00361a3, 0x96177a9c, 0xb410ff61, 0xf20015ad)

  lemma SumsOfAbc()
    ensures VAt(64)
         == Words(0x506e3058, 0xd39a2165, 0x04d24d6c, 0xb85e2ce9, 0x5ef50f24, 0xfb121210, 0x948d25b6, 0x961f4894)
  {
  }

  lemma CompressedAbc()
    ensures Compress(WORDS, H0, BLOCK) == HASH
  {
    RoundsOfAbc();
    SumsOfAbc();
  }

  /** The digest, four octets to a word. */
  const DIGEST: seq<seq<bv8>> :=
    [[0xba, 0x78, 0x16, 0xbf], [0x8f, 0x01, 0xcf, 0xea], [0x41, 0x41, 0x40, 0xde], [0x5d, 0xae, 0x22, 0x23],
     [0xb0, 0x03, 0x61, 0xa3], [0x96, 0x17, 0x7a, 0x9c], [0xb4, 0x10, 0xff, 0x61], [0xf2, 0x00, 0x15, 0xad]]

  predicate OctetFits(i: nat) {
    i < 32 && WORDS.top(HASH.At(i / 4), i % 4) == DIGEST[i / 4][i % 4]
  }

  lemma OctetsFit()
    ensures Checks(OctetFits, 0, 8) && Checks(OctetFits, 8, 8) && Checks(OctetFits, 16, 8) && Checks(OctetFits, 24, 8)
  {
  }

  lemma EveryOctetFits(i: nat)
    requires i < 32
    ensures OctetFits(i)
  {
    OctetsFit();
    match i / 8
    case 0 => ChecksMeans(OctetFits, 0, 8, i);
    case 1 => ChecksMeans(OctetFits, 8, 8, i);
    case 2 => ChecksMeans(OctetFits, 16, 8, i);
    case _ => ChecksMeans(OctetFits, 24, 8, i);
  }

  lemma DigestIsHash()
    ensures Digest(WORDS, ABC) == Octets(WORDS, HASH)
  {
    PaddedAbc();
    FoldOne(WORDS, H0, BLOCK);
    CompressedAbc();
  }

  /** What the standard gives as the digest of "abc". */
  lemma DigestOfAbc(i: nat)
    requires i < 32
    ensures |Digest(WORDS, ABC)| == 32 && Digest(WORDS, ABC)[i] == DIGEST[i / 4][i % 4]
  {
    DigestIsHash();
    EveryOctetFits(i);
  }
}
