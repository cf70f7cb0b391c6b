/** Whole messages: the standard's padding and block loop, and the context fed piece by piece. */
module Sha256Streams {

  import opened RaftTypes
  import opened Sha256

  // ---------- the standard ----------

  const TWO64: nat := 0x1_0000_0000_0000_0000

  function Zeros(n: nat): (z: seq<bv8>)
    ensures |z| == n
  {
    seq(n, _ => 0)
  }

  /** The fewest zero octets that bring the marker to octet 56 of a block. */
  function ZeroCount(n: nat): nat {
    if n % 64 <= 55 then 55 - n % 64 else 119 - n % 64
  }

  /** The message length in bits as 64 bits, most significant octet first. */
  function LengthField(alu: Alu, n: nat): (s: seq<bv8>)
    ensures |s| == 8
  {
    seq(8, i requires 0 <= i < 8 => alu.octet(Wrap(n * 8), 7 - i))
  }

  /** Section 5.1.1. */
  function Padded(alu: Alu, m: seq<bv8>): seq<bv8> {
    m + [0x80] + Zeros(ZeroCount(|m|)) + LengthField(alu, |m|)
  }

  lemma PaddingFillsBlocks(alu: Alu, m: seq<bv8>)
    ensures |Padded(alu, m)| % 64 == 0 && ZeroCount(|m|) < 64
  {
  }

  /** Section 6.2: block after block. */
  function Fold(alu: Alu, v: Words, data: seq<bv8>): Words
    requires |data| % 64 == 0
    decreases |data|
  {
    if data == [] then v else Fold(alu, Compress(alu, v, data[..64]), data[64..])
  }

  function Octets(alu: Alu, v: Words): seq<bv8> {
    seq(32, i requires 0 <= i < 32 => alu.top(v.At(i / 4), i % 4))
  }

  function Digest(alu: Alu, m: seq<bv8>): seq<bv8> {
    PaddingFillsBlocks(alu, m);
    Octets(alu, Fold(alu, H0, Padded(alu, m)))
  }

  lemma BlocksAdd(m: nat, n: nat)
    requires m % 64 == 0 && n % 64 == 0
    ensures (m + n) % 64 == 0
  {
  }

  lemma {:induction false} FoldInTwo(alu: Alu, v: Words, a: seq<bv8>, b: seq<bv8>)
    requires |a| % 64 == 0 && |b| % 64 == 0
    ensures |a + b| % 64 == 0 && Fold(alu, v, a + b) == Fold(alu, Fold(alu, v, a), b)
    decreases |a|
  {
    BlocksAdd(|a|, |b|);
    assert |a + b| == |a| + |b|;
    if a == [] {
      assert a + b == b;
    } else {
      var head, rest := a[..64], a[64..];
      assert (a + b)[..64] == head && (a + b)[64..] == rest + b;
      FoldInTwo(alu, Compress(alu, v, head), rest, b);
    }
  }

  lemma FoldOne(alu: Alu, v: Words, block: seq<bv8>)
    requires |block| == 64
    ensures Fold(alu, v, block) == Compress(alu, v, block)
  {
    assert block[..64] == block && block[64..] == [];
  }

  lemma FoldTwo(alu: Alu, v: Words, first: seq<bv8>, second: seq<bv8>)
    requires |first| == |second| == 64
    ensures Fold(alu, v, first + second) == Compress(alu, Compress(alu, v, first), second)
  {
    FoldInTwo(alu, v, first, second);
    FoldOne(alu, v, first);
    FoldOne(alu, Compress(alu, v, first), second);
  }

  // ---------- what the context has absorbed ----------

  /** All of `m` is in: its whole blocks in `v`, the rest in the buffer. */
  predicate Absorbed(alu: Alu, m: seq<bv8>, v: Words, buf: seq<bv8>) {
    && |buf| <= 64 && |buf| <= |m| && (|m| - |buf|) % 64 == 0
    && m[|m| - |buf|..] == buf && v == Fold(alu, H0, m[..|m| - |buf|])
  }

  /** Where a message leaves the context: the hash of its whole blocks, and what is over. */
  function Held(alu: Alu, m: seq<bv8>): (Words, seq<bv8>) {
    var k := |m| - |m| % 64;
    (Fold(alu, H0, m[..k]), m[k..])
  }

  lemma AbsorbedIsHeld(alu: Alu, m: seq<bv8>, v: Words, buf: seq<bv8>)
    requires |buf| < 64
    ensures Absorbed(alu, m, v, buf) <==> (v, buf) == Held(alu, m)
  {
    if Absorbed(alu, m, v, buf) {
      assert |m| % 64 == |buf|;
    }
  }

  lemma AbsorbInBuffer(alu: Alu, m: seq<bv8>, v: Words, buf: seq<bv8>, more: seq<bv8>)
    requires Absorbed(alu, m, v, buf) && |buf| + |more| <= 64
    ensures Absorbed(alu, m + more, v, buf + more)
  {
    var k := |m| - |buf|;
    assert (m + more)[..k] == m[..k] && (m + more)[k..] == m[k..] + more;
  }

  lemma AbsorbBlock(alu: Alu, m: seq<bv8>, v: Words, block: seq<bv8>)
    requires Absorbed(alu, m, v, block) && |block| == 64
    ensures Absorbed(alu, m, Compress(alu, v, block), [])
  {
    var k := |m| - 64;
    FoldInTwo(alu, H0, m[..k], block);
    FoldOne(alu, v, block);
    assert m[..k] + block == m == m[..|m|];
  }

  lemma AbsorbRest(alu: Alu, m: seq<bv8>, v: Words, data: seq<bv8>, i: nat)
    requires i <= |data| < i + 64 && Absorbed(alu, m + data[..i], v, [])
    ensures Absorbed(alu, m + data, v, data[i..])
  {
    Rejoined(m, data, i);
    AbsorbInBuffer(alu, m + data[..i], v, [], data[i..]);
  }

  lemma Rejoined<T>(m: seq<T>, data: seq<T>, i: nat)
    requires i <= |data|
    ensures m + data[..i] + data[i..] == m + data && [] + data[i..] == data[i..]
  {
  }

  // ---------- finishing ----------

  function LastBlock(alu: Alu, front: seq<bv8>, n: nat): seq<bv8>
    requires |front| <= 56
  {
    front + Zeros(56 - |front|) + LengthField(alu, n)
  }

  function FirstOfTwo(buf: seq<bv8>): seq<bv8>
    requires |buf| < 64
  {
    buf + [0x80] + Zeros(63 - |buf|)
  }

  /** The marker and the length fit into one block. */
  lemma FinishInOne(alu: Alu, m: seq<bv8>, v: Words, buf: seq<bv8>)
    requires Absorbed(alu, m, v, buf) && |buf| <= 55
    ensures |Padded(alu, m)| % 64 == 0
    ensures Fold(alu, H0, Padded(alu, m)) == Compress(alu, v, LastBlock(alu, buf + [0x80], |m|))
  {
    var whole, only := m[..|m| - |buf|], LastBlock(alu, buf + [0x80], |m|);
    assert Padded(alu, m) == whole + only;
    FoldInTwo(alu, H0, whole, only);
    FoldOne(alu, v, only);
  }

  /** They do not: the length goes into a block of its own. */
  lemma FinishInTwo(alu: Alu, m: seq<bv8>, v: Words, buf: seq<bv8>)
    requires Absorbed(alu, m, v, buf) && 56 <= |buf| < 64
    ensures |Padded(alu, m)| % 64 == 0
    ensures Fold(alu, H0, Padded(alu, m)) == Compress(alu, Compress(alu, v, FirstOfTwo(buf)), LastBlock(alu, [], |m|))
  {
    var whole, first, second := m[..|m| - |buf|], FirstOfTwo(buf), LastBlock(alu, [], |m|);
    assert Padded(alu, m) == whole + (first + second);
    FoldInTwo(alu, H0, whole, first + second);
    FoldTwo(alu, v, first, second);
  }

  // ---------- 64-bit lengths ----------

  function Wrap(n: nat): nat { n % TWO64 }

  lemma WrapAdds(n: nat, k: nat)
    ensures Wrap(Wrap(n) + k) == Wrap(n + k)
  {
  }

  lemma WrapScales(n: nat)
    ensures Wrap(Wrap(n) * 8) == Wrap(n * 8)
  {
    assert n == Wrap(n) + TWO64 * (n / TWO64);
    assert n * 8 == Wrap(n) * 8 + TWO64 * (8 * (n / TWO64));
  }

  // ---------- the context ----------

  class Sha256Context {
    const alu: Alu
    const buffer: array<bv8>
    var h: Words
    var bufferLen: nat
    var totalLen: nat                  // 64 bits, wrapping
    ghost var message: seq<bv8>

    ghost predicate Valid()
      reads this, buffer
    {
      && Reorders(alu) && buffer.Length == 64 && bufferLen < 64
      && (h, buffer[..bufferLen]) == Held(alu, message) && totalLen == Wrap(|message|)
    }

    constructor (alu: Alu)
      requires Reorders(alu)
      ensures Valid() && message == [] && this.alu == alu && fresh(buffer)
    {
      this.alu := alu;
      buffer := new bv8[64](_ => 0);
      h, bufferLen, totalLen, message := H0, 0, 0, [];
    }

    /** Copies into the buffer behind what is there. */
    method Fill(data: seq<bv8>)
      requires buffer.Length == 64 && bufferLen + |data| <= 64
      modifies buffer, this`bufferLen
      ensures bufferLen == old(bufferLen) + |data| && buffer[..bufferLen] == old(buffer[..bufferLen]) + data
    {
      var at := bufferLen;
      for k := 0 to |data|
        invariant bufferLen == at && buffer[..at + k] == old(buffer[..bufferLen]) + data[..k]
      {
        buffer[at + k] := data[k];
      }
      bufferLen := at + |data|;
    }

    /** First part: complete the buffered block, if one was begun. */
    method TopUp(data: seq<bv8>) returns (i: nat)
      requires Reorders(alu) && buffer.Length == 64 && bufferLen < 64 && Absorbed(alu, message, h, buffer[..bufferLen])
      modifies this`h, this`bufferLen, buffer
      ensures i <= |data| && bufferLen < 64 && (bufferLen > 0 ==> i == |data|)
      ensures Absorbed(alu, message + data[..i], h, buffer[..bufferLen])
    {
      i := 0;
      assert message + data[..0] == message;
      if bufferLen > 0 {
        i := Min(|data|, 64 - bufferLen);
        AbsorbInBuffer(alu, message, h, buffer[..bufferLen], data[..i]);
        Fill(data[..i]);
        if bufferLen == 64 {
          assert buffer[..] == buffer[..64];
          AbsorbBlock(alu, message + data[..i], h, buffer[..]);
          h := ProcessChunk(alu, h, buffer[..]);
          bufferLen := 0;
        }
      }
    }

    /** Second part: whole blocks straight from the data. */
    method WholeBlocks(data: seq<bv8>, from: nat) returns (i: nat)
      requires Reorders(alu) && from <= |data| && Absorbed(alu, message + data[..from], h, [])
      modifies this`h
      ensures from <= i <= |data| < i + 64 && Absorbed(alu, message + data[..i], h, [])
    {
      i := from;
      while i + 64 <= |data|
        invariant from <= i <= |data| && Absorbed(alu, message + data[..i], h, [])
      {
        var block := data[i..i + 64];
        assert message + data[..i] + block == message + data[..i + 64];
        assert [] + block == block;
        AbsorbInBuffer(alu, message + data[..i], h, [], block);
        AbsorbBlock(alu, message + data[..i + 64], h, block);
        h := ProcessChunk(alu, h, block);
        i := i + 64;
      }
    }

    /** Whole blocks from the data, the rest into the empty buffer. */
    method Absorb(data: seq<bv8>, from: nat)
      requires Reorders(alu) && buffer.Length == 64 && bufferLen == 0
      requires from <= |data| && Absorbed(alu, message + data[..from], h, [])
      modifies this`h, this`bufferLen, buffer
      ensures bufferLen < 64 && Absorbed(alu, message + data, h, buffer[..bufferLen])
    {
      var i := WholeBlocks(data, from);
      AbsorbRest(alu, message, h, data, i);
      Fill(data[i..]);
      assert buffer[..bufferLen] == data[i..];
    }

    /** Any piece of the message, of any length. */
    method Update(data: seq<bv8>)
      requires Valid()
      modifies this, buffer
      ensures Valid() && message == old(message) + data
    {
      Count(data);
      AbsorbAll(data);
      message := message + data;
    }

    /** The octet counter, ahead of the message by what is about to be absorbed. */
    method Count(data: seq<bv8>)
      requires totalLen == Wrap(|message|)
      modifies this`totalLen
      ensures totalLen == Wrap(|message + data|)
    {
      WrapAdds(|message|, |data|);
      totalLen := Wrap(totalLen + |data|);
      assert |message + data| == |message| + |data|;
    }

    method AbsorbAll(data: seq<bv8>)
      requires Reorders(alu) && buffer.Length == 64 && bufferLen < 64 && (h, buffer[..bufferLen]) == Held(alu, message)
      modifies this`h, this`bufferLen, buffer
      ensures bufferLen < 64 && (h, buffer[..bufferLen]) == Held(alu, message + data)
    {
      AbsorbedIsHeld(alu, message, h, buffer[..bufferLen]);
      var i := TopUp(data);
      if bufferLen == 0 {
        assert buffer[..0] == [];
        Absorb(data, i);
      } else {
        assert data[..i] == data;
      }
      AbsorbedIsHeld(alu, message + data, h, buffer[..bufferLen]);
    }

    /** Pads, processes the last one or two blocks and writes the words out. */
    method Final() returns (output: seq<bv8>)
      requires Valid()
      modifies this`h
      ensures output == Digest(alu, message)
    {
      AbsorbedIsHeld(alu, message, h, buffer[..bufferLen]);
      var field := LengthOctets();
      if bufferLen + 1 > 56 {
        FinishInTwo(alu, message, h, buffer[..bufferLen]);
        h := ProcessChunk(alu, h, FirstOfTwo(buffer[..bufferLen]));
        h := ProcessChunk(alu, h, LastChunk([], field));
      } else {
        FinishInOne(alu, message, h, buffer[..bufferLen]);
        h := ProcessChunk(alu, h, LastChunk(buffer[..bufferLen] + [0x80], field));
      }
      output := Octets(alu, h);
    }

    /** Zero-filled to octet 56, then the length. */
    function LastChunk(front: seq<bv8>, field: seq<bv8>): seq<bv8>
      requires |front| <= 56 && |field| == 8
    {
      front + Zeros(56 - |front|) + field
    }

    /** The bit length, stored from the last octet backwards. */
    method LengthOctets() returns (field: seq<bv8>)
      requires totalLen == Wrap(|message|)
      ensures field == LengthField(alu, |message|)
    {
      WrapScales(|message|);
      var bits := Wrap(totalLen * 8);
      field := [];
      for j := 0 to 8
        invariant |field| == j && forall k :: 0 <= k < j ==> field[k] == alu.octet(bits, j - 1 - k)
      {
        field := [alu.octet(bits, j)] + field;
      }
    }
  }

  function Concat(pieces: seq<seq<bv8>>): seq<bv8> {
    if pieces == [] then [] else Concat(pieces[..|pieces| - 1]) + pieces[|pieces| - 1]
  }

  /** Any sequence of updates and a final give the digest of the concatenation. */
  method HashPieces(alu: Alu, pieces: seq<seq<bv8>>) returns (digest: seq<bv8>)
    requires Reorders(alu)
    ensures digest == Digest(alu, Concat(pieces))
  {
    var ctx := new Sha256Context(alu);
    for k := 0 to |pieces|
      invariant ctx.Valid() && ctx.alu == alu && ctx.message == Concat(pieces[..k])
      invariant fresh(ctx) && fresh(ctx.buffer)
    {
      ctx.Update(pieces[k]);
      assert pieces[..k + 1][..k] == pieces[..k];
    }
    assert pieces[..|pieces|] == pieces;
    digest := ctx.Final();
  }

  /** `ComputeSha256`: the standard's digest, with the standard's words. */
  method ComputeSha256(data: seq<bv8>) returns (output: seq<bv8>)
    ensures output == Digest(WORDS, data)
  {
    WordsReorder();
    output := HashPieces(WORDS, [data]);
    assert [data][..0] == [] && [] + data == data;
  }
}
