/**
 * Segment files byte by byte: a header, framed records, a trailer. The checksum is any
 * function to 32-bit words; nothing here depends on which.
 */
module WalFormat {

  import opened RaftTypes

  type byte = x: nat | x < 256
  type Word = x: nat | x < 0x1_0000_0000
  type Checksum = seq<byte> -> Word

  const HEADER_SIZE: nat := 16
  const TRAILER_SIZE: nat := 8
  const FRAME_HEADER: nat := 10
  const MAX_RECORD: nat := 16 * 1024 * 1024

  // ---------- little-endian integers ----------

  function Encode(n: nat, width: nat): (s: seq<byte>)
    ensures |s| == width
  {
    if width == 0 then [] else [n % 256] + Encode(n / 256, width - 1)
  }

  function Decode(s: seq<byte>): nat {
    if s == [] then 0 else s[0] + 256 * Decode(s[1..])
  }

  function Range(width: nat): nat {
    if width == 0 then 1 else 256 * Range(width - 1)
  }

  lemma {:induction false} DecodeEncode(n: nat, width: nat)
    requires n < Range(width)
    ensures Decode(Encode(n, width)) == n
  {
    if width > 0 {
      DecodeEncode(n / 256, width - 1);
      assert Encode(n, width)[1..] == Encode(n / 256, width - 1);
    }
  }

  /** Little-endian: an octet further on weighs more than all before it. */
  lemma {:induction false} LastOctetWeighsMost(s: seq<byte>, b: byte)
    ensures Decode(s + [b]) == Decode(s) + Range(|s|) * b && Decode(s) < Range(|s|)
    decreases |s|
  {
    if s == [] {
      assert Decode([b]) == b + 256 * Decode([b][1..]);
    } else {
      LastOctetWeighsMost(s[1..], b);
      assert (s + [b])[1..] == s[1..] + [b];
      assert 256 * (Range(|s| - 1) * b) == Range(|s|) * b;
    }
  }

  lemma Ranges()
    ensures Range(2) == 0x1_0000 && Range(4) == 0x1_0000_0000 && Range(8) == 0x1_0000_0000_0000_0000
  {
    assert Range(1) == 256 * Range(0) && Range(3) == 256 * Range(2);
    assert Range(5) == 256 * Range(4) && Range(6) == 256 * Range(5) && Range(7) == 256 * Range(6);
  }

  lemma Within(file: seq<byte>, at: nat, s: seq<byte>, i: nat, j: nat)
    requires at + |s| <= |file| && file[at..at + |s|] == s && i <= j <= |s|
    ensures file[at + i..at + j] == s[i..j]
  {
    forall k | 0 <= k < j - i ensures file[at + i..at + j][k] == s[i..j][k] {
      assert file[at..at + |s|][i + k] == s[i + k];
    }
  }

  // ---------- frames ----------

  /** A record as framed: its type and its payload. */
  datatype Frame = Frame(kind: nat, payload: seq<byte>)

  predicate Fits(f: Frame) {
    f.kind < 0x1_0000 && |f.payload| <= MAX_RECORD
  }

  /** What the checksum covers. */
  function Body(kind: nat, payload: seq<byte>): (s: seq<byte>)
    ensures |s| == 6 + |payload|
  {
    Encode(|payload|, 4) + Encode(kind, 2) + payload
  }

  function FrameBytes(crc: Checksum, f: Frame): (s: seq<byte>)
    ensures |s| == FRAME_HEADER + |f.payload|
  {
    var body := Body(f.kind, f.payload);
    Encode(crc(body), 4) + body
  }

  function Area(crc: Checksum, frames: seq<Frame>): seq<byte> {
    if frames == [] then [] else FrameBytes(crc, frames[0]) + Area(crc, frames[1..])
  }

  /** One turn of the scan loop; `None` where it reports corruption. Reads may pass `end`, not the file. */
  function FrameAt(crc: Checksum, file: seq<byte>, at: nat, end: nat): (r: Option<Frame>)
    requires at < end <= |file|
    ensures r.Some? ==> at + FRAME_HEADER + |r.value.payload| <= end
  {
    if at + FRAME_HEADER > |file| then None
    else
      var length := Decode(file[at + 4..at + 8]);
      var kind := Decode(file[at + 8..at + 10]);
      if at + FRAME_HEADER + length > end || length > MAX_RECORD then None
      else
        var payload := file[at + FRAME_HEADER..at + FRAME_HEADER + length];
        if crc(Body(kind, payload)) != Decode(file[at..at + 4]) then None else Some(Frame(kind, payload))
  }

  /** The frames from `at` up to `end`, and where the first bad one starts. */
  function Scan(crc: Checksum, file: seq<byte>, at: nat, end: nat): (seq<Frame>, Option<nat>)
    requires end <= |file|
    decreases end - at
  {
    if at >= end then ([], None)
    else match FrameAt(crc, file, at, end)
      case None => ([], Some(at))
      case Some(f) => var (more, cut) := Scan(crc, file, at + FRAME_HEADER + |f.payload|, end); ([f] + more, cut)
  }

  predicate Yields(scan: (seq<Frame>, Option<nat>), frames: seq<Frame>, cut: Option<nat>) {
    scan.0 == frames && scan.1 == cut
  }

  lemma HeaderFields(crc: Checksum, f: Frame)
    requires Fits(f)
    ensures var s := FrameBytes(crc, f);
            && Decode(s[..4]) == crc(Body(f.kind, f.payload))
            && Decode(s[4..8]) == |f.payload| && Decode(s[8..10]) == f.kind && s[10..] == f.payload
  {
    var s, body := FrameBytes(crc, f), Body(f.kind, f.payload);
    Ranges();
    assert s[..4] == Encode(crc(body), 4) && s[4..8] == Encode(|f.payload|, 4) && s[8..10] == Encode(f.kind, 2);
    DecodeEncode(crc(body), 4);
    DecodeEncode(|f.payload|, 4);
    DecodeEncode(f.kind, 2);
  }

  /** What was framed reads back. */
  lemma FrameReadsBack(crc: Checksum, file: seq<byte>, at: nat, end: nat, f: Frame)
    requires Fits(f) && at + FRAME_HEADER + |f.payload| <= end <= |file|
    requires file[at..at + FRAME_HEADER + |f.payload|] == FrameBytes(crc, f)
    ensures FrameAt(crc, file, at, end) == Some(f)
  {
    var s := FrameBytes(crc, f);
    HeaderFields(crc, f);
    Within(file, at, s, 0, 4);
    Within(file, at, s, 4, 8);
    Within(file, at, s, 8, 10);
    Within(file, at, s, 10, |s|);
  }

  lemma FirstOfArea(crc: Checksum, file: seq<byte>, at: nat, frames: seq<Frame>)
    requires frames != [] && at + |Area(crc, frames)| <= |file|
    requires file[at..at + |Area(crc, frames)|] == Area(crc, frames)
    ensures var n, rest := FRAME_HEADER + |frames[0].payload|, Area(crc, frames[1..]);
            && |Area(crc, frames)| == n + |rest|
            && file[at..at + n] == FrameBytes(crc, frames[0]) && file[at + n..at + n + |rest|] == rest
  {
    var first, rest := FrameBytes(crc, frames[0]), Area(crc, frames[1..]);
    assert Area(crc, frames) == first + rest;
    SplitAt(file, at, first, rest);
  }

  lemma SplitAt(file: seq<byte>, at: nat, a: seq<byte>, b: seq<byte>)
    requires at + |a + b| <= |file| && file[at..at + |a + b|] == a + b
    ensures file[at..at + |a|] == a && file[at + |a|..at + |a| + |b|] == b
  {
    Within(file, at, a + b, 0, |a|);
    Within(file, at, a + b, |a|, |a + b|);
    assert (a + b)[..|a|] == a && (a + b)[|a|..] == b;
  }

  lemma ScanOneMore(crc: Checksum, file: seq<byte>, at: nat, end: nat, f: Frame, frames: seq<Frame>, cut: Option<nat>)
    requires at < end <= |file| && FrameAt(crc, file, at, end) == Some(f)
    requires Yields(Scan(crc, file, at + FRAME_HEADER + |f.payload|, end), frames, cut)
    ensures Yields(Scan(crc, file, at, end), [f] + frames, cut)
  {
  }

  /** Scanning stops exactly behind the last whole record: at the end, or at what follows it. */
  lemma {:induction false} ScanReadsArea(crc: Checksum, file: seq<byte>, at: nat, end: nat, frames: seq<Frame>)
    requires (forall f :: f in frames ==> Fits(f)) && at + |Area(crc, frames)| <= end <= |file|
    requires file[at..at + |Area(crc, frames)|] == Area(crc, frames)
    requires var e := at + |Area(crc, frames)|; e < end ==> FrameAt(crc, file, e, end) == None
    ensures var e := at + |Area(crc, frames)|;
            Yields(Scan(crc, file, at, end), frames, if e < end then Some(e) else None)
    decreases |frames|
  {
    if frames != [] {
      var f, n := frames[0], FRAME_HEADER + |frames[0].payload|;
      FirstOfArea(crc, file, at, frames);
      FrameReadsBack(crc, file, at, end, f);
      ScanReadsArea(crc, file, at + n, end, frames[1..]);
      var e := at + |Area(crc, frames)|;
      ScanOneMore(crc, file, at, end, f, frames[1..], if e < end then Some(e) else None);
      assert [f] + frames[1..] == frames;
    }
  }

  // ---------- torn tails ----------

  /** How many leading frames fit whole into `k` bytes. */
  function WholeIn(crc: Checksum, frames: seq<Frame>, k: nat): (w: nat)
    ensures w <= |frames|
  {
    if frames == [] || FRAME_HEADER + |frames[0].payload| > k then 0
    else 1 + WholeIn(crc, frames[1..], k - (FRAME_HEADER + |frames[0].payload|))
  }

  lemma {:induction false} AreaInTwo(crc: Checksum, frames: seq<Frame>, w: nat)
    requires w <= |frames|
    ensures Area(crc, frames) == Area(crc, frames[..w]) + Area(crc, frames[w..])
    decreases w
  {
    if w == 0 {
      assert frames[..0] == [] && frames[0..] == frames;
    } else {
      AreaInTwo(crc, frames[1..], w - 1);
      assert frames[..w][0] == frames[0] && frames[..w][1..] == frames[1..][..w - 1];
      assert frames[1..][w - 1..] == frames[w..];
    }
  }

  /** The count is exact: those frames fit, and the next one does not. */
  lemma {:induction false} WholeInIsMost(crc: Checksum, frames: seq<Frame>, k: nat)
    requires k <= |Area(crc, frames)|
    ensures var w := WholeIn(crc, frames, k);
            && |Area(crc, frames[..w])| <= k
            && (w < |frames| ==> k < |Area(crc, frames[..w])| + FRAME_HEADER + |frames[w].payload|)
            && (w == |frames| ==> k == |Area(crc, frames[..w])|)
    decreases |frames|
  {
    var w := WholeIn(crc, frames, k);
    if w == 0 {
      assert frames[..0] == [];
    } else {
      WholeInIsMost(crc, frames[1..], k - (FRAME_HEADER + |frames[0].payload|));
      assert frames[..w][0] == frames[0] && frames[..w][1..] == frames[1..][..w - 1];
    }
  }

  /** A prefix of the record area is some whole frames and the start of the next. */
  lemma TornShape(crc: Checksum, frames: seq<Frame>, k: nat) returns (tail: seq<byte>)
    requires k <= |Area(crc, frames)|
    ensures var w := WholeIn(crc, frames, k);
            && Area(crc, frames)[..k] == Area(crc, frames[..w]) + tail
            && (tail != [] ==> w < |frames| && tail < FrameBytes(crc, frames[w]))
  {
    var w, area := WholeIn(crc, frames, k), Area(crc, frames);
    var e := |Area(crc, frames[..w])|;
    WholeInIsMost(crc, frames, k);
    AreaInTwo(crc, frames, w);
    tail := area[e..k];
    if w < |frames| {
      assert frames[w..][0] == frames[w];
      assert area[e..] == FrameBytes(crc, frames[w]) + Area(crc, frames[w..][1..]);
    }
  }

  lemma TornFrameIsBad(crc: Checksum, file: seq<byte>, at: nat, f: Frame)
    requires Fits(f) && at < |file| < at + FRAME_HEADER + |f.payload|
    requires file[at..] == FrameBytes(crc, f)[..|file| - at]
    ensures FrameAt(crc, file, at, |file|) == None
  {
    var s := FrameBytes(crc, f);
    if at + FRAME_HEADER <= |file| {
      HeaderFields(crc, f);
      assert file[at + 4..at + 8] == file[at..][4..8] == s[4..8];
    }
  }

  /** Whole frames and the start of another one, if any. */
  lemma ScanStopsAtTail(crc: Checksum, header: seq<byte>, frames: seq<Frame>, tail: seq<byte>, next: Frame)
    requires |header| == HEADER_SIZE && (forall f :: f in frames ==> Fits(f))
    requires tail != [] ==> Fits(next) && tail < FrameBytes(crc, next)
    ensures var file, e := header + Area(crc, frames) + tail, HEADER_SIZE + |Area(crc, frames)|;
            Yields(Scan(crc, file, HEADER_SIZE, |file|), frames, if tail != [] then Some(e) else None)
  {
    var file, e := header + Area(crc, frames) + tail, HEADER_SIZE + |Area(crc, frames)|;
    assert file[HEADER_SIZE..e] == Area(crc, frames) && file[e..] == tail;
    if tail != [] {
      TornFrameIsBad(crc, file, e, next);
    }
    ScanReadsArea(crc, file, HEADER_SIZE, |file|, frames);
  }

  /**
   * Scanning any prefix of the record area yields exactly the records that fit whole, and
   * reports the end of the last one as the cut unless the prefix ends there.
   */
  lemma TornTailScan(crc: Checksum, header: seq<byte>, frames: seq<Frame>, k: nat)
    requires |header| == HEADER_SIZE && (forall f :: f in frames ==> Fits(f)) && k <= |Area(crc, frames)|
    ensures var w, file := WholeIn(crc, frames, k), header + Area(crc, frames)[..k];
            var e := HEADER_SIZE + |Area(crc, frames[..w])|;
            Yields(Scan(crc, file, HEADER_SIZE, |file|), frames[..w], if e < |file| then Some(e) else None)
  {
    var w := WholeIn(crc, frames, k);
    var tail := TornShape(crc, frames, k);
    assert header + (Area(crc, frames[..w]) + tail) == header + Area(crc, frames[..w]) + tail;
    ScanStopsAtTail(crc, header, frames[..w], tail, if w < |frames| then frames[w] else Frame(0, []));
  }

  // ---------- trailers, whole files, repair ----------

  function ReadTrailer(file: seq<byte>): (r: Option<nat>)
    ensures r.Some? ==> r.value + TRAILER_SIZE <= |file|
  {
    if |file| < HEADER_SIZE + TRAILER_SIZE then None
    else
      var end := Decode(file[|file| - TRAILER_SIZE..]);
      if end + TRAILER_SIZE > |file| then None else Some(end)
  }

  /** Where the scan ends: at the trailer's word, or without one at the physical end. */
  function ScanEnd(file: seq<byte>): (end: nat)
    ensures end <= |file|
  {
    match ReadTrailer(file)
    case Some(end) => end
    case None => |file|
  }

  function ScanFile(crc: Checksum, file: seq<byte>): (seq<Frame>, Option<nat>) {
    Scan(crc, file, HEADER_SIZE, ScanEnd(file))
  }

  /** `TruncateSegmentFile`: cut, and write the trailer there. */
  function Cut(file: seq<byte>, at: nat): seq<byte>
    requires at <= |file|
  {
    file[..at] + Encode(at, TRAILER_SIZE)
  }

  lemma SealedScan(crc: Checksum, header: seq<byte>, frames: seq<Frame>)
    requires |header| == HEADER_SIZE && (forall f :: f in frames ==> Fits(f))
    requires HEADER_SIZE + |Area(crc, frames)| < Range(TRAILER_SIZE)
    ensures var e := HEADER_SIZE + |Area(crc, frames)|;
            var file := header + Area(crc, frames) + Encode(e, TRAILER_SIZE);
            ReadTrailer(file) == Some(e) && Yields(ScanFile(crc, file), frames, None)
  {
    var e := HEADER_SIZE + |Area(crc, frames)|;
    var file := header + Area(crc, frames) + Encode(e, TRAILER_SIZE);
    assert file[|file| - TRAILER_SIZE..] == Encode(e, TRAILER_SIZE);
    DecodeEncode(e, TRAILER_SIZE);
    assert file[HEADER_SIZE..e] == Area(crc, frames);
    ScanReadsArea(crc, file, HEADER_SIZE, e, frames);
  }

  /** Repairing a torn segment keeps its whole records, and the next scan is clean. */
  lemma RepairedRescan(crc: Checksum, header: seq<byte>, frames: seq<Frame>, k: nat)
    requires |header| == HEADER_SIZE && (forall f :: f in frames ==> Fits(f)) && k <= |Area(crc, frames)|
    requires HEADER_SIZE + k < Range(TRAILER_SIZE)
    ensures var w, file := WholeIn(crc, frames, k), header + Area(crc, frames)[..k];
            var e := HEADER_SIZE + |Area(crc, frames[..w])|;
            && e <= |file| && ReadTrailer(Cut(file, e)) == Some(e)
            && Yields(ScanFile(crc, Cut(file, e)), frames[..w], None)
  {
    var w := WholeIn(crc, frames, k);
    var tail := TornShape(crc, frames, k);
    var whole := Area(crc, frames[..w]);
    var e := HEADER_SIZE + |whole|;
    assert (header + (whole + tail))[..e] == header + whole;
    SealedScan(crc, header, frames[..w]);
  }

  /** Recovery of the active segment: repair at the cut, then demand a trailer or a bare header. */
  function OpenActive(crc: Checksum, file: seq<byte>): Option<seq<byte>> {
    var (_, cut) := ScanFile(crc, file);
    var repaired := if cut.Some? && cut.value <= |file| then Cut(file, cut.value) else file;
    if ReadTrailer(repaired).Some? || |repaired| == HEADER_SIZE then Some(repaired) else None
  }

  /**
   * A flush cut short leaves some prefix of the record area and no trailer. Opening such a
   * segment succeeds exactly when the prefix is empty or ends inside a record: where it ends
   * between two records nothing is repaired and the missing trailer is an error.
   */
  lemma OpenTornIff(crc: Checksum, header: seq<byte>, frames: seq<Frame>, k: nat)
    requires |header| == HEADER_SIZE && (forall f :: f in frames ==> Fits(f)) && k <= |Area(crc, frames)|
    requires HEADER_SIZE + k < Range(TRAILER_SIZE) && ReadTrailer(header + Area(crc, frames)[..k]) == None
    ensures var file := header + Area(crc, frames)[..k];
            OpenActive(crc, file).Some? <==> k == 0 || k != |Area(crc, frames[..WholeIn(crc, frames, k)])|
  {
    TornTailScan(crc, header, frames, k);
    RepairedRescan(crc, header, frames, k);
  }

  lemma {:induction false} DecodeWeighs(s: seq<byte>, i: nat)
    requires i < |s|
    ensures Decode(s) >= s[i] * Range(i)
    decreases i
  {
    if i > 0 {
      DecodeWeighs(s[1..], i - 1);
    }
  }

  /** The last octets of an empty record of type 1 read as an end far beyond the file. */
  lemma BareRecordIsNoTrailer(crc: Checksum, header: seq<byte>)
    requires |header| == HEADER_SIZE
    ensures ReadTrailer(header + FrameBytes(crc, Frame(1, []))) == None
  {
    var s, file := FrameBytes(crc, Frame(1, [])), header + FrameBytes(crc, Frame(1, []));
    assert file[|file| - TRAILER_SIZE..] == s[2..];
    assert s[8..] == Encode(1, 2) && s[2..][6] == 1;
    DecodeWeighs(s[2..], 6);
    Ranges();
  }

  lemma AreaOfOne(crc: Checksum, f: Frame)
    ensures Area(crc, [f]) == FrameBytes(crc, f)
  {
    assert [f][1..] == [];
    assert FrameBytes(crc, f) + [] == FrameBytes(crc, f);
  }

  /** Two records, cut at the end of the first: the segment does not open. */
  lemma CutBetweenRecordsFails(crc: Checksum, header: seq<byte>)
    requires |header| == HEADER_SIZE
    ensures var frames := [Frame(1, []), Frame(1, [])];
            var k := FRAME_HEADER;
            k < |Area(crc, frames)| && OpenActive(crc, header + Area(crc, frames)[..k]) == None
  {
    var f := Frame(1, []);
    var frames, one := [f, f], FrameBytes(crc, f);
    assert frames[1..] == [f] && frames[..1] == [f];
    AreaOfOne(crc, f);
    assert Area(crc, frames) == one + one && (one + one)[..FRAME_HEADER] == one;
    BareRecordIsNoTrailer(crc, header);
    Ranges();
    assert WholeIn(crc, [f], 0) == 0 && WholeIn(crc, frames, FRAME_HEADER) == 1;
    OpenTornIff(crc, header, frames, FRAME_HEADER);
  }

  /** One record, field by field. */
  method ReadFrame(crc: Checksum, file: seq<byte>, at: nat, end: nat) returns (r: Option<Frame>)
    requires at < end <= |file|
    ensures r == FrameAt(crc, file, at, end)
  {
    if at + FRAME_HEADER > |file| {
      return None;
    }
    var stored := Decode(file[at..at + 4]);
    var length := Decode(file[at + 4..at + 8]);
    var kind := Decode(file[at + 8..at + 10]);
    if at + FRAME_HEADER + length > end || length > MAX_RECORD {
      return None;
    }
    var payload := file[at + FRAME_HEADER..at + FRAME_HEADER + length];
    r := if crc(Body(kind, payload)) != stored then None else Some(Frame(kind, payload));
  }

  /** The scan loop over the bytes of a file. */
  method ScanLoop(crc: Checksum, file: seq<byte>, end: nat) returns (frames: seq<Frame>, cut: Option<nat>)
    requires end <= |file|
    ensures Yields(Scan(crc, file, HEADER_SIZE, end), frames, cut)
  {
    var at := HEADER_SIZE;
    frames, cut := [], None;
    while at < end
      invariant Continues(Scan(crc, file, HEADER_SIZE, end), frames, Scan(crc, file, at, end))
    {
      var r := ReadFrame(crc, file, at, end);
      if r == None {
        assert frames + [] == frames;
        return frames, Some(at);
      }
      var f := r.value;
      ContinuesBy(Scan(crc, file, HEADER_SIZE, end), frames, f, Scan(crc, file, at + FRAME_HEADER + |f.payload|, end));
      frames, at := frames + [f], at + FRAME_HEADER + |f.payload|;
    }
    assert frames + [] == frames;
  }

  lemma ContinuesBy(total: (seq<Frame>, Option<nat>), read: seq<Frame>, f: Frame, rest: (seq<Frame>, Option<nat>))
    requires Continues(total, read, ([f] + rest.0, rest.1))
    ensures Continues(total, read + [f], rest)
  {
    assert read + ([f] + rest.0) == read + [f] + rest.0;
  }

  /** `total` is what was read, then `rest`. */
  predicate Continues(total: (seq<Frame>, Option<nat>), read: seq<Frame>, rest: (seq<Frame>, Option<nat>)) {
    total.0 == read + rest.0 && total.1 == rest.1
  }
}
