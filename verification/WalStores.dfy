/**
 * The live write-ahead log: an in-memory index over segment files and a write buffer. What a
 * reader gets is the map of live entries, across buffering, flushing, rotation and reopening.
 */
module WalStores {

  import opened RaftTypes
  import opened WalFormat
  import opened WalIndexes
  import opened WalRecovery
  import opened WalPlacement

  const MAX_SEGMENT_ENTRIES: nat := 10000
  const MAX_SEGMENT_SIZE: nat := 64 * 1024 * 1024
  const WRITE_BUFFER_SIZE: nat := 1024 * 1024

  /** The most a segment can hold: rotation looks at the size before each record. */
  const SEGMENT_BOUND: nat := MAX_SEGMENT_SIZE + FRAME_HEADER + MAX_RECORD

  // ---------- what is on disk and in the buffer ----------

  /** Closed segment files, the active file up to its last flush, the write buffer. */
  datatype Disk = Disk(closed: seq<seq<byte>>, active: seq<byte>, endOffset: nat, entryCount: nat, writeBuf: seq<byte>)

  function Unsealed(file: seq<byte>): seq<byte> {
    if |file| < TRAILER_SIZE then file else file[..|file| - TRAILER_SIZE]
  }

  /** A file whose trailer names the end of its records. */
  predicate Sealed(file: seq<byte>) {
    file == Unsealed(file) + Encode(|Unsealed(file)|, TRAILER_SIZE) && |Unsealed(file)| <= SEGMENT_BOUND
  }

  function Seal(region: seq<byte>): (file: seq<byte>)
    ensures Unsealed(file) == region
  {
    region + Encode(|region|, TRAILER_SIZE)
  }

  /** Segment contents up to their logical ends, buffered records included. */
  function Regions(d: Disk): seq<seq<byte>>
    requires d.endOffset <= |d.active|
  {
    seq(|d.closed|, k requires 0 <= k < |d.closed| => Unsealed(d.closed[k])) + [d.active[..d.endOffset] + d.writeBuf]
  }

  predicate FilesOk(d: Disk) {
    && d.endOffset <= |d.active| && d.endOffset + |d.writeBuf| <= SEGMENT_BOUND
    && (forall k :: 0 <= k < |d.closed| ==> Sealed(d.closed[k]))
    && (|d.active| == d.endOffset == HEADER_SIZE || (Sealed(d.active) && d.endOffset == |Unsealed(d.active)|))
  }

  predicate AllStorable(codec: Codec, segments: seq<seq<Record>>) {
    forall k, j :: 0 <= k < |segments| && 0 <= j < |segments[k]| ==> Storable(codec, segments[k][j])
  }

  predicate DiskOk(codec: Codec, d: Disk, segments: seq<seq<Record>>) {
    && FilesOk(d) && segments != [] && d.entryCount <= Min(|segments[|segments| - 1]|, MAX_SEGMENT_ENTRIES)
    && RegionsOk(codec, Regions(d), segments) && AllStorable(codec, segments)
  }

  function AfterFlush(d: Disk): Disk
    requires d.endOffset <= |d.active|
  {
    if d.writeBuf == [] then d
    else
      var region := d.active[..d.endOffset] + d.writeBuf;
      d.(active := Seal(region), endOffset := |region|, writeBuf := [])
  }

  lemma FlushKeepsDisk(codec: Codec, d: Disk, segments: seq<seq<Record>>)
    requires DiskOk(codec, d, segments)
    ensures DiskOk(codec, AfterFlush(d), segments)
    ensures Regions(AfterFlush(d)) == Regions(d) && AfterFlush(d).writeBuf == []
  {
    var region := d.active[..d.endOffset] + d.writeBuf;
    assert d.writeBuf != [] ==> AfterFlush(d).active[..|region|] == region;
    assert region + [] == region;
    assert Regions(AfterFlush(d)) == Regions(d);
  }

  lemma RecordTakesSpace(codec: Codec, records: seq<Record>)
    requires records != []
    ensures |AreaOf(codec, records)| >= FRAME_HEADER
  {
    assert FramesOf(codec, records)[0] == FrameOf(codec, records[0]);
  }

  function Rotated(d: Disk, header: seq<byte>): Disk {
    Disk(d.closed + [d.active], header, HEADER_SIZE, 0, [])
  }

  lemma RotateKeepsDisk(codec: Codec, d: Disk, segments: seq<seq<Record>>, header: seq<byte>)
    requires DiskOk(codec, d, segments) && d.writeBuf == [] && |header| == HEADER_SIZE && segments[|segments| - 1] != []
    ensures DiskOk(codec, Rotated(d, header), segments + [[]])
  {
    var d', last := Rotated(d, header), |segments| - 1;
    RecordTakesSpace(codec, segments[last]);
    assert RegionOk(codec, Regions(d)[last], segments[last]);
    assert d.active[..d.endOffset] + [] == d.active[..d.endOffset];
    assert Sealed(d.active) && Unsealed(d.active) == d.active[..d.endOffset];
    assert header[..HEADER_SIZE] + [] == header;
    assert Regions(d') == Regions(d) + [header];
    assert AreaOf(codec, []) == [];
    assert RegionOk(codec, header, []);
  }

  function Buffered(codec: Codec, d: Disk, r: Record): Disk {
    d.(writeBuf := d.writeBuf + FrameBytes(codec.crc, FrameOf(codec, r)),
       entryCount := d.entryCount + if r.LogEntry? then 1 else 0)
  }

  function Recorded(segments: seq<seq<Record>>, r: Record): seq<seq<Record>>
    requires segments != []
  {
    segments[|segments| - 1 := segments[|segments| - 1] + [r]]
  }

  lemma BufferExtendsRegion(codec: Codec, d: Disk, r: Record)
    requires d.endOffset <= |d.active|
    ensures var n, regions := |d.closed|, Regions(d);
            Regions(Buffered(codec, d, r)) == regions[n := regions[n] + FrameBytes(codec.crc, FrameOf(codec, r))]
  {
    var b := FrameBytes(codec.crc, FrameOf(codec, r));
    assert d.active[..d.endOffset] + (d.writeBuf + b) == d.active[..d.endOffset] + d.writeBuf + b;
  }

  lemma RecordExtendsRegion(codec: Codec, regions: seq<seq<byte>>, segments: seq<seq<Record>>, r: Record)
    requires RegionsOk(codec, regions, segments) && segments != []
    ensures var n := |segments| - 1;
            RegionsOk(codec, regions[n := regions[n] + FrameBytes(codec.crc, FrameOf(codec, r))], Recorded(segments, r))
  {
    var n, b := |segments| - 1, FrameBytes(codec.crc, FrameOf(codec, r));
    assert RegionOk(codec, regions[n], segments[n]);
    AreaOfAppended(codec, segments[n], r);
    assert (regions[n] + b)[HEADER_SIZE..] == regions[n][HEADER_SIZE..] + b;
    assert RegionOk(codec, regions[n] + b, segments[n] + [r]);
  }

  lemma BufferKeepsDisk(codec: Codec, d: Disk, segments: seq<seq<Record>>, r: Record)
    requires DiskOk(codec, d, segments) && Storable(codec, r) && !Full(d)
    ensures DiskOk(codec, Buffered(codec, d, r), Recorded(segments, r))
  {
    BufferExtendsRegion(codec, d, r);
    RecordExtendsRegion(codec, Regions(d), segments, r);
  }

  lemma FullSegmentHasRecords(codec: Codec, d: Disk, segments: seq<seq<Record>>)
    requires DiskOk(codec, d, segments)
    requires d.entryCount >= MAX_SEGMENT_ENTRIES || d.endOffset + |d.writeBuf| >= MAX_SEGMENT_SIZE
    ensures segments[|segments| - 1] != []
  {
    assert RegionOk(codec, Regions(d)[|segments| - 1], segments[|segments| - 1]);
    assert AreaOf(codec, []) == [];
  }

  /** One more record replays as one more step, in the index and in the live entries. */
  lemma RecordReplays(codec: Codec, segments: seq<seq<Record>>, r: Record)
    requires segments != []
    ensures var p := Placed(r, |segments|, HEADER_SIZE + |AreaOf(codec, segments[|segments| - 1])|);
            var placed, placed' := AllPlaced(codec, segments), AllPlaced(codec, Recorded(segments, r));
            && Replay(map[], OpsOf(codec, placed')) == Apply(Replay(map[], OpsOf(codec, placed)), OpOf(codec, p))
            && LiveAfter(map[], RecordsOf(placed')) == Update(LiveAfter(map[], RecordsOf(placed)), r)
  {
    var p := Placed(r, |segments|, HEADER_SIZE + |AreaOf(codec, segments[|segments| - 1])|);
    var placed := AllPlaced(codec, segments);
    PlacedAppended(codec, segments, r);
    ReplayLast(codec, placed, p);
    assert RecordsOf(placed + [p])[..|placed|] == RecordsOf(placed);
  }

  /** The buffer's end is where the next record of the last segment goes. */
  lemma BufferEnd(codec: Codec, d: Disk, segments: seq<seq<Record>>)
    requires DiskOk(codec, d, segments)
    ensures |d.closed| + 1 == |segments|
    ensures d.endOffset + |d.writeBuf| == HEADER_SIZE + |AreaOf(codec, segments[|segments| - 1])|
  {
    assert RegionOk(codec, Regions(d)[|segments| - 1], segments[|segments| - 1]);
  }

  // ---------- the store and its meaning ----------

  function LiveOf(codec: Codec, segments: seq<seq<Record>>): Live {
    LiveAfter(map[], RecordsOf(AllPlaced(codec, segments)))
  }

  /** Files and buffer hold the records, and the index is their replay. */
  predicate StoreOk(codec: Codec, d: Disk, segments: seq<seq<Record>>, m: Index) {
    DiskOk(codec, d, segments) && m == Replay(map[], OpsOf(codec, AllPlaced(codec, segments)))
  }

  predicate Full(d: Disk) {
    d.entryCount >= MAX_SEGMENT_ENTRIES || d.endOffset + |d.writeBuf| >= MAX_SEGMENT_SIZE
  }

  lemma FlushKeeps(codec: Codec, d: Disk, segments: seq<seq<Record>>, m: Index)
    requires StoreOk(codec, d, segments, m)
    ensures d.endOffset <= |d.active| && StoreOk(codec, AfterFlush(d), segments, m) && AfterFlush(d).writeBuf == []
  {
    FlushKeepsDisk(codec, d, segments);
  }

  lemma RotateKeeps(codec: Codec, d: Disk, segments: seq<seq<Record>>, m: Index, header: seq<byte>)
    requires StoreOk(codec, d, segments, m) && |header| == HEADER_SIZE
    requires d.writeBuf == [] && segments[|segments| - 1] != []
    ensures StoreOk(codec, Rotated(d, header), segments + [[]], m)
    ensures LiveOf(codec, segments + [[]]) == LiveOf(codec, segments)
  {
    RotateKeepsDisk(codec, d, segments, header);
    PlacedRotated(codec, segments);
  }

  lemma BufferKeeps(codec: Codec, d: Disk, segments: seq<seq<Record>>, m: Index, r: Record, d': Disk,
                    segments': seq<seq<Record>>, m': Index)
    requires StoreOk(codec, d, segments, m) && Storable(codec, r) && !Full(d) && segments != []
    requires d' == Buffered(codec, d, r) && segments' == Recorded(segments, r)
    requires m' == Apply(m, OpOf(codec, Placed(r, |d.closed| + 1, d.endOffset + |d.writeBuf|)))
    ensures StoreOk(codec, d', segments', m') && LiveOf(codec, segments') == Update(LiveOf(codec, segments), r)
  {
    BufferEnd(codec, d, segments);
    RecordReplays(codec, segments, r);
    BufferKeepsDisk(codec, d, segments, r);
  }

  function FileOf(d: Disk, segment: nat): seq<byte>
    requires 1 <= segment <= |d.closed| + 1
  {
    if segment == |d.closed| + 1 then d.active else d.closed[segment - 1]
  }

  /** Flushed regions are prefixes of the files. */
  lemma RegionInFile(d: Disk, segment: nat)
    requires FilesOk(d) && d.writeBuf == [] && 1 <= segment <= |d.closed| + 1
    ensures Regions(d)[segment - 1] <= FileOf(d, segment)
  {
    assert d.active[..d.endOffset] + [] == d.active[..d.endOffset];
  }

  /** Where the index has a location, the file has the live entry. */
  lemma LocationReads(codec: Codec, d: Disk, segments: seq<seq<Record>>, m: Index, i: nat)
    requires StoreOk(codec, d, segments, m) && d.writeBuf == [] && Faithful(codec)
    ensures i in m <==> i in LiveOf(codec, segments)
    ensures i in m ==>
              && 1 <= m[i].segment <= |d.closed| + 1
              && FileReads(codec, FileOf(d, m[i].segment), m[i].offset, LiveOf(codec, segments)[i])
  {
    IndexPointsAtLive(codec, Regions(d), segments);
    if i in m {
      LiveIsStorable(codec, segments, i);
      FileReadsLive(codec, d, m[i], LiveOf(codec, segments)[i]);
    }
  }

  /** Reading the file at that offset gives back the entry. */
  predicate FileReads(codec: Codec, file: seq<byte>, offset: nat, e: Entry) {
    && offset < |file| && FrameAt(codec.crc, file, offset, |file|) == Some(FrameOf(codec, LogEntry(e)))
    && codec.unpack(1, codec.pack(LogEntry(e))) == Some(LogEntry(e))
  }

  lemma FileReadsLive(codec: Codec, d: Disk, loc: Location, e: Entry)
    requires FilesOk(d) && d.writeBuf == [] && Faithful(codec)
    requires ReadsAt(codec, Regions(d), loc, e) && Storable(codec, LogEntry(e))
    ensures FileReads(codec, FileOf(d, loc.segment), loc.offset, e)
  {
    RegionInFile(d, loc.segment);
    LocationReadsBack(codec, FileOf(d, loc.segment), Regions(d), loc, e);
  }

  /** Every live entry was appended as a record. */
  lemma {:induction false} LiveIsRecorded(records: seq<Record>, i: nat)
    requires i in LiveAfter(map[], records)
    ensures LogEntry(LiveAfter(map[], records)[i]) in records
    decreases |records|
  {
    if records != [] {
      var n := |records| - 1;
      if !(records[n].LogEntry? && records[n].entry.index == i) {
        LiveIsRecorded(records[..n], i);
      }
    }
  }

  lemma {:induction false} PlacedAreStorable(codec: Codec, segments: seq<seq<Record>>, p: Placed)
    requires AllStorable(codec, segments) && p in AllPlaced(codec, segments)
    ensures Storable(codec, p.r)
    decreases |segments|
  {
    var n := |segments| - 1;
    if p in AllPlaced(codec, segments[..n]) {
      PlacedAreStorable(codec, segments[..n], p);
    } else {
      PlacedAreRecorded(codec, n + 1, HEADER_SIZE, segments[n], p);
    }
  }

  lemma {:induction false} PlacedAreRecorded(codec: Codec, segment: nat, at: nat, records: seq<Record>, p: Placed)
    requires p in PlacedIn(codec, segment, at, records)
    ensures p.r in records
    decreases |records|
  {
    if p in PlacedIn(codec, segment, at, records[..|records| - 1]) {
      PlacedAreRecorded(codec, segment, at, records[..|records| - 1], p);
    }
  }

  lemma LiveIsStorable(codec: Codec, segments: seq<seq<Record>>, i: nat)
    requires AllStorable(codec, segments) && i in LiveOf(codec, segments)
    ensures Storable(codec, LogEntry(LiveOf(codec, segments)[i]))
  {
    var placed := AllPlaced(codec, segments);
    LiveIsRecorded(RecordsOf(placed), i);
    var k :| 0 <= k < |placed| && RecordsOf(placed)[k] == LogEntry(LiveOf(codec, segments)[i]);
    PlacedAreStorable(codec, segments, placed[k]);
  }

  /** The index entry of a live index leads to the entry itself. */
  lemma LocationReadsBack(codec: Codec, file: seq<byte>, regions: seq<seq<byte>>, loc: Location, e: Entry)
    requires Faithful(codec) && ReadsAt(codec, regions, loc, e) && Storable(codec, LogEntry(e))
    requires regions[loc.segment - 1] <= file
    ensures FileReads(codec, file, loc.offset, e)
  {
    var region, f := regions[loc.segment - 1], FrameOf(codec, LogEntry(e));
    assert Kind(LogEntry(e)) == 1;
    assert file[loc.offset..loc.offset + loc.length] == region[loc.offset..loc.offset + loc.length];
    FrameReadsBack(codec.crc, file, loc.offset, |file|, f);
  }

  /** Live entries in `[start, end)`, in order. */
  function LiveRange(m: Live, start: nat, end: nat): seq<Entry>
    decreases end - start
  {
    if start >= end then []
    else (if start in m then [m[start]] else []) + LiveRange(m, start + 1, end)
  }

  lemma {:induction false} LiveRangeInTwo(m: Live, a: nat, b: nat, c: nat)
    requires a <= b <= c
    ensures LiveRange(m, a, c) == LiveRange(m, a, b) + LiveRange(m, b, c)
    decreases b - a
  {
    if a < b {
      LiveRangeInTwo(m, a + 1, b, c);
    }
  }

  lemma {:induction false} NothingLive(m: Live, a: nat, b: nat)
    requires forall i :: a <= i < b ==> i !in m
    ensures LiveRange(m, a, b) == []
    decreases b - a
  {
    if a < b {
      NothingLive(m, a + 1, b);
    }
  }

  class WalStore {
    const codec: Codec
    const index: DenseIndex
    var disk: Disk                           // segment files, the active segment's record, the write buffer
    ghost var segments: seq<seq<Record>>     // the records appended so far, by segment

    ghost predicate Valid()
      reads this, index
    {
      StoreOk(codec, disk, segments, index.Map())
    }

    /** The abstract value: what the records appended so far leave alive. */
    ghost function Entries(): Live
      reads this
    {
      LiveOf(codec, segments)
    }

    constructor (codec: Codec, header: seq<byte>)
      requires |header| == HEADER_SIZE
      ensures Valid() && Entries() == map[] && fresh(index) && this.codec == codec
    {
      this.codec := codec;
      index := new DenseIndex();
      disk := Disk([], header, HEADER_SIZE, 0, []);
      segments := [[]];
      new;
      FreshStoreOk(codec, header);
    }

    /** Writes the buffer and a fresh trailer over the old one. */
    method Flush()
      requires Valid()
      modifies this`disk
      ensures Valid() && disk == AfterFlush(old(disk)) && disk.writeBuf == []
    {
      FlushKeeps(codec, disk, segments, index.Map());
      if disk.writeBuf != [] {
        var region := disk.active[..disk.endOffset] + disk.writeBuf;
        disk := disk.(active := Seal(region), endOffset := |region|, writeBuf := []);
      }
    }

    method RotateIfNeeded(header: seq<byte>)
      requires Valid() && |header| == HEADER_SIZE
      modifies this
      ensures Valid() && Entries() == old(Entries()) && !Full(disk)
    {
      if disk.entryCount >= MAX_SEGMENT_ENTRIES || disk.endOffset + |disk.writeBuf| >= MAX_SEGMENT_SIZE {
        FullSegmentHasRecords(codec, disk, segments);
        Flush();
        RotateKeeps(codec, disk, segments, index.Map(), header);
        disk := Disk(disk.closed + [disk.active], header, HEADER_SIZE, 0, []);
        segments := segments + [[]];
      }
    }

    /** Appends one record: rotate, frame it into the buffer, update the index. */
    method Append(r: Record, header: seq<byte>) returns (ok: bool)
      requires Valid() && |header| == HEADER_SIZE
      modifies this, index
      ensures Valid() && ok == Storable(codec, r)
      ensures Entries() == if ok then Update(old(Entries()), r) else old(Entries())
    {
      RotateIfNeeded(header);
      if |codec.pack(r)| > MAX_RECORD {
        return false;
      }
      AppendToBuffer(r);
      if |disk.writeBuf| >= WRITE_BUFFER_SIZE {
        Flush();
      }
      ok := true;
    }

    method AppendToBuffer(r: Record)
      requires Valid() && Storable(codec, r) && !Full(disk)
      modifies this, index
      ensures Valid() && Entries() == Update(old(Entries()), r)
    {
      ghost var d, before, m := disk, segments, index.Map();
      WriteRecord(r);
      BufferKeeps(codec, d, before, m, r, disk, segments, index.Map());
    }

    /** Indexes the record where it will be and frames it behind what is buffered. */
    method WriteRecord(r: Record)
      requires segments != []
      modifies this, index
      ensures disk == Buffered(codec, old(disk), r) && segments == Recorded(old(segments), r)
      ensures index.Map() == Apply(old(index.Map()), OpOf(codec, Placed(r, |old(disk).closed| + 1,
                                                                        old(disk).endOffset + |old(disk).writeBuf|)))
    {
      var bytes := FrameBytes(codec.crc, FrameOf(codec, r));
      UpdateIndex(r, Location(|disk.closed| + 1, disk.endOffset + |disk.writeBuf|, |bytes|));
      disk := disk.(writeBuf := disk.writeBuf + bytes, entryCount := disk.entryCount + if r.LogEntry? then 1 else 0);
      segments := Recorded(segments, r);
    }

    method UpdateIndex(r: Record, loc: Location)
      requires loc.length == Size(codec, r)
      modifies index
      ensures index.Map() == Apply(old(index.Map()), OpOf(codec, Placed(r, loc.segment, loc.offset)))
    {
      match r {
        case LogEntry(e) => index.Put(e.index, loc);
        case TruncatePrefix(b) => index.TruncatePrefix(b);
        case TruncateSuffix(f) => index.TruncateSuffix(f);
      }
    }

    /** The latest appended, untruncated entry at the index, read from the files. */
    method GetEntry(i: nat) returns (r: Option<Entry>)
      requires Valid() && Faithful(codec)
      modifies this`disk
      ensures Valid() && disk.writeBuf == [] && r == if i in Entries() then Some(Entries()[i]) else None
    {
      Flush();
      r := ReadEntry(i);
    }

    method ReadEntry(i: nat) returns (r: Option<Entry>)
      requires Valid() && Faithful(codec) && disk.writeBuf == []
      ensures r == if i in Entries() then Some(Entries()[i]) else None
    {
      LocationReads(codec, disk, segments, index.Map(), i);
      var loc := index.Get(i);
      if loc == None {
        return None;
      }
      var file := FileOf(disk, loc.value.segment);
      var frame := ReadFrame(codec.crc, file, loc.value.offset, |file|);
      if frame == None || frame.value.kind != 1 {
        return None;
      }
      var record := codec.unpack(frame.value.kind, frame.value.payload);
      r := if record.Some? && record.value.LogEntry? then Some(record.value.entry) else None;
    }

    /** The live entries of a range, in order; holes are skipped. */
    method GetEntries(start: nat, end: nat) returns (out: seq<Entry>)
      requires Valid() && Faithful(codec)
      modifies this`disk
      ensures Valid() && out == LiveRange(Entries(), start, end)
    {
      out := [];
      if start >= end {
        return;
      }
      Flush();
      out := ReadRange(start, end);
    }

    method ReadRange(start: nat, end: nat) returns (out: seq<Entry>)
      requires Valid() && Faithful(codec) && disk.writeBuf == [] && start < end
      ensures out == LiveRange(Entries(), start, end)
    {
      KeysOfLive(codec, disk, segments, index.Map());
      if index.entries == [] || start > index.LastIndex() || end <= index.firstIndex {
        NothingLive(Entries(), start, end);
        return [];
      }
      var from, to := Max(start, index.firstIndex), Min(end, index.LastIndex() + 1);
      OnlyWithin(Entries(), start, from, to, end);
      out := ReadSlots(from, to);
    }

    method ReadSlots(from: nat, to: nat) returns (out: seq<Entry>)
      requires Valid() && Faithful(codec) && disk.writeBuf == [] && from <= to
      ensures out == LiveRange(Entries(), from, to)
    {
      ghost var live := Entries();
      out := [];
      for i := from to to
        invariant out == LiveRange(live, from, i)
      {
        var e := ReadEntry(i);
        assert e == if i in live then Some(live[i]) else None;
        LiveRangeStep(live, from, i);
        out := out + if e.Some? then [e.value] else [];
      }
    }
  }

  lemma LiveRangeStep(m: Live, from: nat, i: nat)
    requires from <= i
    ensures LiveRange(m, from, i + 1) == LiveRange(m, from, i) + if i in m then [m[i]] else []
  {
    LiveRangeInTwo(m, from, i, i + 1);
    assert LiveRange(m, i + 1, i + 1) == [];
  }

  lemma OnlyWithin(m: Live, start: nat, from: nat, to: nat, end: nat)
    requires start <= from <= to <= end && forall i :: i in m && start <= i < end ==> from <= i < to
    ensures LiveRange(m, start, end) == LiveRange(m, from, to)
  {
    NothingLive(m, start, from);
    NothingLive(m, to, end);
    LiveRangeInTwo(m, start, from, end);
    LiveRangeInTwo(m, from, to, end);
  }

  lemma FreshStoreOk(codec: Codec, header: seq<byte>)
    requires |header| == HEADER_SIZE
    ensures StoreOk(codec, Disk([], header, HEADER_SIZE, 0, []), [[]], map[]) && LiveOf(codec, [[]]) == map[]
  {
    var none: seq<seq<Record>> := [];
    PlacedRotated(codec, none);
    assert none + [[]] == [[]];
    assert header[..HEADER_SIZE] + [] == header;
    assert AreaOf(codec, []) == [];
    assert RegionOk(codec, header, []);
    assert Regions(Disk([], header, HEADER_SIZE, 0, [])) == [header];
  }

  lemma KeysOfLive(codec: Codec, d: Disk, segments: seq<seq<Record>>, m: Index)
    requires StoreOk(codec, d, segments, m)
    ensures LiveOf(codec, segments).Keys == m.Keys
  {
    IndexPointsAtLive(codec, Regions(d), segments);
  }
}
