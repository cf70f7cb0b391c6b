/**
 * A flush writes the buffer over the old trailer and then a new one. Stopped after any octet it
 * leaves a file that still reads as whole records; which ones depends on what its last octets
 * happen to say.
 */
module WalTears {

  import opened RaftTypes
  import opened WalFormat
  import opened WalPlacement
  import opened WalStores
  import opened WalReopening
  import opened WalOpenings

  /** What a flush writes from the end offset on. */
  function FlushData(d: Disk): seq<byte> {
    d.writeBuf + Encode(d.endOffset + |d.writeBuf|, TRAILER_SIZE)
  }

  /** The active file when only the first `j` octets of the flush got there. */
  function Torn(d: Disk, j: nat): seq<byte>
    requires d.endOffset <= |d.active| && j <= |FlushData(d)|
  {
    d.active[..d.endOffset] + FlushData(d)[..j]
    + if d.endOffset + j < |d.active| then d.active[d.endOffset + j..] else []
  }

  // ---------- frames that are not all there ----------

  lemma BadBeyond(crc: Checksum, file: seq<byte>, at: nat, end: nat, f: Frame)
    requires Fits(f) && at < end <= |file| && end < at + FRAME_HEADER + |f.payload|
    requires at + FRAME_HEADER <= |file| ==> file[at..at + FRAME_HEADER] == FrameBytes(crc, f)[..FRAME_HEADER]
    ensures FrameAt(crc, file, at, end) == None
  {
    var s := FrameBytes(crc, f);
    if at + FRAME_HEADER <= |file| {
      HeaderFields(crc, f);
      Within(file, at, s[..FRAME_HEADER], 4, 8);
      assert s[..FRAME_HEADER][4..8] == s[4..8];
    }
  }

  lemma {:induction false} AreaGrows(crc: Checksum, frames: seq<Frame>, a: nat, b: nat)
    requires a <= b <= |frames|
    ensures |Area(crc, frames[..a])| <= |Area(crc, frames[..b])|
    ensures a < b ==> |Area(crc, frames[..a])| + FRAME_HEADER + |frames[a].payload| <= |Area(crc, frames[..b])|
  {
    var more := frames[..b];
    AreaInTwo(crc, more, a);
    assert more[..a] == frames[..a];
    if a < b {
      assert more[a..][0] == frames[a];
    }
  }

  /** Frame `w` as it stands in the record area. */
  lemma FrameInArea(crc: Checksum, frames: seq<Frame>, w: nat)
    requires w < |frames|
    ensures var e, n := |Area(crc, frames[..w])|, FRAME_HEADER + |frames[w].payload|;
            e + n <= |Area(crc, frames)| && Area(crc, frames)[e..e + n] == FrameBytes(crc, frames[w])
  {
    var e := |Area(crc, frames[..w])|;
    AreaInTwo(crc, frames, w);
    assert frames[w..][0] == frames[w];
    var s, rest := FrameBytes(crc, frames[w]), Area(crc, frames[w..][1..]);
    assert Area(crc, frames) == Area(crc, frames[..w]) + (s + rest);
  }

  // ---------- some of the record area, then a few octets ----------

  /** The part of the area a scan of the file gets to see. */
  function Seen(file: seq<byte>, v: nat): nat {
    if ScanEnd(file) < HEADER_SIZE then 0 else Min(ScanEnd(file) - HEADER_SIZE, v)
  }

  /** `v` octets of the record area; if more follows, fewer than a frame's header and after a whole record. */
  predicate Partial(crc: Checksum, file: seq<byte>, frames: seq<Frame>, v: nat) {
    && v <= |Area(crc, frames)| && HEADER_SIZE + v <= |file| < HEADER_SIZE + v + FRAME_HEADER
    && file[HEADER_SIZE..HEADER_SIZE + v] == Area(crc, frames)[..v]
    && (HEADER_SIZE + v < |file| ==> v == |Area(crc, frames[..WholeIn(crc, frames, v)])|)
  }

  lemma CutFrameIsBad(crc: Checksum, file: seq<byte>, frames: seq<Frame>, v: nat, w: nat)
    requires Partial(crc, file, frames, v) && (forall f :: f in frames ==> Fits(f))
    requires w == WholeIn(crc, frames, Seen(file, v)) && HEADER_SIZE + |Area(crc, frames[..w])| < ScanEnd(file)
    ensures FrameAt(crc, file, HEADER_SIZE + |Area(crc, frames[..w])|, ScanEnd(file)) == None
  {
    var end, lim := ScanEnd(file), Seen(file, v);
    var e := |Area(crc, frames[..w])|;
    WholeInIsMost(crc, frames, lim);
    if lim == v && end > HEADER_SIZE + v {
      assert HEADER_SIZE + v < |file| && e == v;
    } else {
      assert end == HEADER_SIZE + lim && w < |frames|;
      var f := frames[w];
      if HEADER_SIZE + e + FRAME_HEADER <= |file| {
        HeaderIsSeen(crc, file, frames, v, w);
      }
      BadBeyond(crc, file, HEADER_SIZE + e, end, f);
    }
  }

  lemma HeaderIsSeen(crc: Checksum, file: seq<byte>, frames: seq<Frame>, v: nat, w: nat)
    requires Partial(crc, file, frames, v) && w < |frames| && |Area(crc, frames[..w])| < v
    requires HEADER_SIZE + |Area(crc, frames[..w])| + FRAME_HEADER <= |file|
    ensures var at := HEADER_SIZE + |Area(crc, frames[..w])|;
            file[at..at + FRAME_HEADER] == FrameBytes(crc, frames[w])[..FRAME_HEADER]
  {
    var e, x := |Area(crc, frames[..w])|, WholeIn(crc, frames, v);
    if HEADER_SIZE + v < |file| {
      if x <= w {
        AreaGrows(crc, frames, x, w);
        assert false;
      }
      AreaGrows(crc, frames, w, x);
    }
    assert e + FRAME_HEADER <= v;
    FrameInArea(crc, frames, w);
    SamePlace(file, Area(crc, frames), v, e, FrameBytes(crc, frames[w]));
  }

  lemma SamePlace(file: seq<byte>, area: seq<byte>, v: nat, e: nat, s: seq<byte>)
    requires |s| >= FRAME_HEADER && e + FRAME_HEADER <= v <= |area| && e + |s| <= |area| && area[e..e + |s|] == s
    requires HEADER_SIZE + v <= |file| && file[HEADER_SIZE..HEADER_SIZE + v] == area[..v]
    ensures file[HEADER_SIZE + e..HEADER_SIZE + e + FRAME_HEADER] == s[..FRAME_HEADER]
  {
    Within(file, HEADER_SIZE, area[..v], e, e + FRAME_HEADER);
    assert area[..v][e..e + FRAME_HEADER] == area[e..e + |s|][..FRAME_HEADER];
  }

  lemma WholeFramesSeen(crc: Checksum, file: seq<byte>, frames: seq<Frame>, v: nat, lim: nat)
    requires Partial(crc, file, frames, v) && lim <= v
    ensures var area := Area(crc, frames[..WholeIn(crc, frames, lim)]);
            |area| <= lim && file[HEADER_SIZE..HEADER_SIZE + |area|] == area
  {
    var w, all := WholeIn(crc, frames, lim), Area(crc, frames);
    var e := |Area(crc, frames[..w])|;
    WholeInIsMost(crc, frames, lim);
    AreaInTwo(crc, frames, w);
    Within(file, HEADER_SIZE, all[..v], 0, e);
    assert all[..v][..e] == all[..e] == Area(crc, frames[..w]);
  }

  lemma FramesOfPrefix(codec: Codec, records: seq<Record>, w: nat)
    requires w <= |records|
    ensures FramesOf(codec, records[..w]) == FramesOf(codec, records)[..w]
  {
  }

  lemma FramesFit(codec: Codec, records: seq<Record>)
    requires AllFit(codec, records)
    ensures forall f :: f in FramesOf(codec, records) ==> Fits(f)
  {
  }

  /** A scan meets exactly the frames that lie whole in the part it sees. */
  lemma PartialScans(crc: Checksum, file: seq<byte>, frames: seq<Frame>, v: nat)
    requires Partial(crc, file, frames, v) && (forall f :: f in frames ==> Fits(f))
    ensures ScansAs(crc, file, frames[..WholeIn(crc, frames, Seen(file, v))])
  {
    var w := WholeIn(crc, frames, Seen(file, v));
    WholeFramesSeen(crc, file, frames, v, Seen(file, v));
    if HEADER_SIZE + |Area(crc, frames[..w])| < ScanEnd(file) {
      CutFrameIsBad(crc, file, frames, v, w);
    }
  }

  lemma PartialReads(codec: Codec, file: seq<byte>, records: seq<Record>, v: nat)
    requires |file| < Range(TRAILER_SIZE) && AllFit(codec, records)
    requires Partial(codec.crc, file, FramesOf(codec, records), v)
    ensures var w := WholeIn(codec.crc, FramesOf(codec, records), Seen(file, v));
            Reads(codec, file, records[..w])
  {
    FramesFit(codec, records);
    PartialScans(codec.crc, file, FramesOf(codec, records), v);
    FramesOfPrefix(codec, records, WholeIn(codec.crc, FramesOf(codec, records), Seen(file, v)));
  }

  // ---------- the torn flush ----------

  /** The last flush ended behind record `f`. */
  predicate FlushedUpTo(codec: Codec, d: Disk, records: seq<Record>, f: nat) {
    f <= |records| && d.endOffset == EndOf(codec, records[..f])
  }

  /** Flushing, rotating and buffering keep the end of the last flush between two records. */
  lemma MovesKeepBoundary(codec: Codec, d: Disk, segments: seq<seq<Record>>, f: nat, header: seq<byte>, r: Record)
    requires DiskOk(codec, d, segments) && FlushedUpTo(codec, d, segments[|segments| - 1], f)
    ensures var records := segments[|segments| - 1];
            && FlushedUpTo(codec, AfterFlush(d), records, if d.writeBuf == [] then f else |records|)
            && FlushedUpTo(codec, Rotated(d, header), [], 0)
            && FlushedUpTo(codec, Buffered(codec, d, r), records + [r], f)
  {
    var records := segments[|segments| - 1];
    BufferEnd(codec, d, segments);
    assert records[..|records|] == records && (records + [r])[..f] == records[..f];
    assert AreaOf(codec, []) == [];
  }

  lemma BoundaryIsWhole(crc: Checksum, frames: seq<Frame>, f: nat, v: nat)
    requires f <= |frames| && v == |Area(crc, frames[..f])| && v <= |Area(crc, frames)|
    ensures WholeIn(crc, frames, v) == f
  {
    var w := WholeIn(crc, frames, v);
    WholeInIsMost(crc, frames, v);
    if w < f {
      AreaGrows(crc, frames, w, f);
    } else {
      AreaGrows(crc, frames, f, w);
    }
  }

  lemma WholeInReaches(crc: Checksum, frames: seq<Frame>, f: nat, k: nat)
    requires f <= |frames| && k <= |Area(crc, frames)|
    ensures f <= WholeIn(crc, frames, k) <==> |Area(crc, frames[..f])| <= k
  {
    var w := WholeIn(crc, frames, k);
    WholeInIsMost(crc, frames, k);
    if w < f {
      AreaGrows(crc, frames, w, f);
    } else {
      AreaGrows(crc, frames, f, w);
    }
  }

  /** How much of the record area is in the torn file; the rest of an old trailer hides the first octets. */
  function Visible(d: Disk, j: nat): nat
    requires HEADER_SIZE <= d.endOffset
  {
    if d.endOffset + j < |d.active| then d.endOffset - HEADER_SIZE
    else d.endOffset - HEADER_SIZE + Min(j, |d.writeBuf|)
  }

  lemma TornBytes(codec: Codec, d: Disk, segments: seq<seq<Record>>, j: nat)
    requires DiskOk(codec, d, segments) && j <= |FlushData(d)| && HEADER_SIZE <= d.endOffset
    ensures var file, v, area := Torn(d, j), Visible(d, j), AreaOf(codec, segments[|segments| - 1]);
            && v <= |area| == d.endOffset - HEADER_SIZE + |d.writeBuf|
            && HEADER_SIZE + v <= |file| <= HEADER_SIZE + v + TRAILER_SIZE
            && file[HEADER_SIZE..HEADER_SIZE + v] == area[..v]
            && (HEADER_SIZE + v < |file| ==> v == d.endOffset - HEADER_SIZE || v == |area|)
  {
    var file, v, area := Torn(d, j), Visible(d, j), AreaOf(codec, segments[|segments| - 1]);
    var region := d.active[..d.endOffset] + d.writeBuf;
    assert RegionOk(codec, Regions(d)[|segments| - 1], segments[|segments| - 1]);
    assert region[HEADER_SIZE..] == area;
    assert forall i :: 0 <= i < HEADER_SIZE + v ==> file[i] == region[i];
    assert file[HEADER_SIZE..HEADER_SIZE + v] == area[..v];
  }

  /** How many records of the active segment the torn file still reads as. */
  function Left(codec: Codec, d: Disk, records: seq<Record>, j: nat): (w: nat)
    requires HEADER_SIZE <= d.endOffset <= |d.active| && j <= |FlushData(d)|
    ensures w <= |records|
  {
    WholeIn(codec.crc, FramesOf(codec, records), Seen(Torn(d, j), Visible(d, j)))
  }

  lemma TornIsPartial(codec: Codec, d: Disk, segments: seq<seq<Record>>, f: nat, j: nat)
    requires DiskOk(codec, d, segments) && FlushedUpTo(codec, d, segments[|segments| - 1], f) && j <= |FlushData(d)|
    ensures Partial(codec.crc, Torn(d, j), FramesOf(codec, segments[|segments| - 1]), Visible(d, j))
    ensures |Torn(d, j)| + TRAILER_SIZE < Range(TRAILER_SIZE)
  {
    var records, v := segments[|segments| - 1], Visible(d, j);
    var frames := FramesOf(codec, records);
    TornBytes(codec, d, segments, j);
    assert frames[..f] == FramesOf(codec, records[..f]) && frames[..|frames|] == frames;
    if v == d.endOffset - HEADER_SIZE {
      BoundaryIsWhole(codec.crc, frames, f, v);
    } else if v == |AreaOf(codec, records)| {
      BoundaryIsWhole(codec.crc, frames, |frames|, v);
    }
    Ranges();
  }

  lemma SeesFlushed(crc: Checksum, file: seq<byte>, frames: seq<Frame>, v: nat, f: nat)
    requires f <= |frames| && |Area(crc, frames[..f])| <= v
    ensures |Area(crc, frames[..f])| <= Seen(file, v)
       <==> f == 0 || HEADER_SIZE + |Area(crc, frames[..f])| <= ScanEnd(file)
  {
    if f > 0 {
      AreaGrows(crc, frames, 0, f);
    } else {
      assert frames[..f] == [];
    }
  }

  /** Wherever a flush stops, the file reads as whole records from the segment's start. */
  lemma TornFlushReads(codec: Codec, d: Disk, segments: seq<seq<Record>>, f: nat, j: nat)
    requires DiskOk(codec, d, segments) && FlushedUpTo(codec, d, segments[|segments| - 1], f) && j <= |FlushData(d)|
    ensures var records := segments[|segments| - 1];
            Reads(codec, Torn(d, j), records[..Left(codec, d, records, j)])
  {
    TornIsPartial(codec, d, segments, f, j);
    SegmentFits(codec, segments, |segments| - 1);
    PartialReads(codec, Torn(d, j), segments[|segments| - 1], Visible(d, j));
  }

  /**
   * The records flushed before are still among them exactly when no trailer can be read that names
   * an earlier end.
   */
  lemma FlushedSurviveTearIff(codec: Codec, d: Disk, segments: seq<seq<Record>>, f: nat, j: nat)
    requires DiskOk(codec, d, segments) && FlushedUpTo(codec, d, segments[|segments| - 1], f) && j <= |FlushData(d)|
    ensures f <= Left(codec, d, segments[|segments| - 1], j) <==> f == 0 || d.endOffset <= ScanEnd(Torn(d, j))
  {
    var records, file, v := segments[|segments| - 1], Torn(d, j), Visible(d, j);
    TornBytes(codec, d, segments, j);
    FramesOfPrefix(codec, records, f);
    WholeInReaches(codec.crc, FramesOf(codec, records), f, Seen(file, v));
    SeesFlushed(codec.crc, file, FramesOf(codec, records), v, f);
  }

  /** The flush that did not stop is the end of the same line. */
  lemma UntornIsFlushed(d: Disk)
    requires FilesOk(d) && d.writeBuf != []
    ensures Torn(d, |FlushData(d)|) == AfterFlush(d).active
  {
    var head, trailer := d.active[..d.endOffset], Encode(d.endOffset + |d.writeBuf|, TRAILER_SIZE);
    assert |d.active| <= d.endOffset + TRAILER_SIZE;
    assert Torn(d, |FlushData(d)|) == head + (d.writeBuf + trailer)[..|d.writeBuf + trailer|] + [];
    assert AfterFlush(d).active == head + d.writeBuf + trailer;
    Regrouped(head, d.writeBuf, trailer);
  }

  lemma Regrouped(a: seq<byte>, b: seq<byte>, c: seq<byte>)
    ensures a + (b + c)[..|b + c|] + [] == a + b + c
  {
  }

  /** A finished file: its records under a trailer that names their end, or a bare header. */
  predicate Holds(codec: Codec, file: seq<byte>, records: seq<Record>) {
    && AllFit(codec, records)
    && (|| (|file| == HEADER_SIZE && RegionOk(codec, file, records))
        || (Sealed(file) && RegionOk(codec, Unsealed(file), records)))
  }

  lemma HeldScans(codec: Codec, file: seq<byte>, records: seq<Record>)
    requires Holds(codec, file, records)
    ensures |file| + TRAILER_SIZE < Range(TRAILER_SIZE) && Accepted(file) && ScanEnd(file) == EndOf(codec, records)
    ensures file[HEADER_SIZE..EndOf(codec, records)] == AreaOf(codec, records)
  {
    Ranges();
    if |file| != HEADER_SIZE {
      SealedEnd(file);
    }
  }

  /** Such a file reads as its records, with nothing to repair, and is accepted as the active one. */
  lemma HeldReads(codec: Codec, file: seq<byte>, records: seq<Record>)
    requires Holds(codec, file, records)
    ensures Reads(codec, file, records) && CutOf(codec, file, records) == None
    ensures Accepted(file) && |file| + TRAILER_SIZE < Range(TRAILER_SIZE)
  {
    HeldScans(codec, file, records);
  }

  /** The files of a flushed log. */
  lemma FlushedHolds(codec: Codec, d: Disk, segments: seq<seq<Record>>, i: nat)
    requires DiskOk(codec, d, segments) && d.writeBuf == [] && i < |segments| == |d.closed| + 1
    ensures Holds(codec, FileOf(d, i + 1), segments[i])
  {
    SegmentFits(codec, segments, i);
    assert RegionOk(codec, Regions(d)[i], segments[i]);
    assert d.active[..d.endOffset] + [] == d.active[..d.endOffset];
  }

  lemma SegmentFits(codec: Codec, segments: seq<seq<Record>>, i: nat)
    requires AllStorable(codec, segments) && i < |segments|
    ensures AllFit(codec, segments[i])
  {
  }

  /**
   * The files a torn flush leaves read as the segments with the active one cut to whole records,
   * so `Open` rebuilds the index of exactly those.
   */
  lemma TornLogReads(codec: Codec, d: Disk, segments: seq<seq<Record>>, f: nat, j: nat)
    requires DiskOk(codec, d, segments) && FlushedUpTo(codec, d, segments[|segments| - 1], f) && j <= |FlushData(d)|
    ensures var n := |segments| - 1;
            var files, left := d.closed + [Torn(d, j)], segments[n][..Left(codec, d, segments[n], j)];
            AllRead(codec, files, segments[n := left]) && Small(files)
  {
    var n := |segments| - 1;
    var files, left := d.closed + [Torn(d, j)], segments[n][..Left(codec, d, segments[n], j)];
    BufferEnd(codec, d, segments);
    TornFlushReads(codec, d, segments, f, j);
    TornIsPartial(codec, d, segments, f, j);
    FlushKeepsDisk(codec, d, segments);
    forall i | 0 <= i < |files|
      ensures Reads(codec, files[i], segments[n := left][i]) && |files[i]| + TRAILER_SIZE < Range(TRAILER_SIZE)
    {
      if i < n {
        FlushedHolds(codec, AfterFlush(d), segments, i);
        HeldReads(codec, files[i], segments[i]);
      }
    }
  }

  // ---------- a trailer half overwritten ----------

  lemma {:induction false} DecodeZeros(s: seq<byte>)
    requires forall i :: 0 <= i < |s| ==> s[i] == 0
    ensures Decode(s) == 0
    decreases |s|
  {
    if s != [] {
      DecodeZeros(s[1..]);
    }
  }

  lemma {:induction false} EncodeSmall(n: nat, width: nat)
    requires n < 256 && width > 0
    ensures Encode(n, width)[0] == n && forall i :: 1 <= i < width ==> Encode(n, width)[i] == 0
    decreases width
  {
    if width > 1 {
      EncodeSmall(0, width - 1);
      assert Encode(n, width)[1..] == Encode(0, width - 1);
    }
  }

  /** A log with one record flushed and the same record buffered once more. */
  function OneFlushed(codec: Codec, header: seq<byte>, r: Record): Disk {
    var area := AreaOf(codec, [r]);
    Disk([], Seal(header + area), HEADER_SIZE + |area|, 1, area)
  }

  lemma TwiceInRegion(codec: Codec, header: seq<byte>, r: Record)
    requires |header| == HEADER_SIZE
    ensures var area := AreaOf(codec, [r]);
            |area| == Size(codec, r) && RegionOk(codec, header + area + area, [r, r])
  {
    var area := AreaOf(codec, [r]);
    AreaOfAppended(codec, [r], r);
    assert [r] + [r] == [r, r];
    assert FramesOf(codec, [r]) == [FrameOf(codec, r)];
    AreaOfOne(codec.crc, FrameOf(codec, r));
    assert (header + area + area)[HEADER_SIZE..] == area + area;
  }

  lemma OneFlushedOk(codec: Codec, header: seq<byte>, r: Record)
    requires |header| == HEADER_SIZE && Storable(codec, r)
    ensures var d := OneFlushed(codec, header, r);
            DiskOk(codec, d, [[r, r]]) && FlushedUpTo(codec, d, [r, r], 1)
  {
    var d, area := OneFlushed(codec, header, r), AreaOf(codec, [r]);
    TwiceInRegion(codec, header, r);
    assert [r, r][..1] == [r];
    assert Regions(d) == [header + area + area];
  }

  lemma TornTrailerReadsZero(codec: Codec, header: seq<byte>, r: Record)
    requires |header| == HEADER_SIZE && |codec.pack(r)| < 200
    requires codec.crc(Body(Kind(r), codec.pack(r))) % 256 == 0
    ensures var d := OneFlushed(codec, header, r);
            d.endOffset <= |d.active| && 1 <= |FlushData(d)| && ReadTrailer(Torn(d, 1)) == Some(0)
  {
    var d, area := OneFlushed(codec, header, r), AreaOf(codec, [r]);
    assert FramesOf(codec, [r]) == [FrameOf(codec, r)];
    AreaOfOne(codec.crc, FrameOf(codec, r));
    var file, e := Torn(d, 1), HEADER_SIZE + |area|;
    EncodeSmall(e, TRAILER_SIZE);
    assert area[0] == 0;
    var tail := file[|file| - TRAILER_SIZE..];
    assert |file| == e + TRAILER_SIZE && tail == [area[0]] + Encode(e, TRAILER_SIZE)[1..];
    DecodeZeros(tail);
  }

  /**
   * One octet of a flush over an old trailer: when it is zero and the file is short, the trailer
   * reads as end 0, and the record flushed before is gone although the segment opens.
   */
  lemma TornTrailerHidesRecord(codec: Codec, header: seq<byte>, r: Record)
    requires |header| == HEADER_SIZE && |codec.pack(r)| < 200
    requires codec.crc(Body(Kind(r), codec.pack(r))) % 256 == 0
    ensures var d := OneFlushed(codec, header, r);
            && DiskOk(codec, d, [[r, r]]) && FlushedUpTo(codec, d, [r, r], 1)
            && ReadTrailer(Torn(d, 1)) == Some(0) && Left(codec, d, [r, r], 1) == 0
            && Opens(codec, Torn(d, 1), [])
  {
    OneFlushedOk(codec, header, r);
    TornTrailerReadsZero(codec, header, r);
    assert FramesOf(codec, [r, r])[0] == FrameOf(codec, r);
  }
}
