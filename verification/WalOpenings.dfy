/**
 * Opening a log as a crash left it: any checkpoint, closed segments, and an active segment whose
 * last flush stopped at any octet. Scan, repair and replay together.
 */
module WalOpenings {

  import opened RaftTypes
  import opened WalFormat
  import opened WalIndexes
  import opened WalRecovery
  import opened WalPlacement
  import opened WalStores
  import opened WalReopening

  // ---------- what a file reads as ----------

  function EndOf(codec: Codec, records: seq<Record>): nat {
    HEADER_SIZE + |AreaOf(codec, records)|
  }

  /** A scan of the file meets exactly these frames, then its end or a bad one. */
  predicate ScansAs(crc: Checksum, file: seq<byte>, frames: seq<Frame>) {
    var area, end := Area(crc, frames), ScanEnd(file);
    var e := HEADER_SIZE + |area|;
    && e <= |file| && file[HEADER_SIZE..e] == area
    && (frames == [] || e <= end) && (e < end ==> FrameAt(crc, file, e, end) == None)
  }

  predicate Reads(codec: Codec, file: seq<byte>, records: seq<Record>) {
    AllFit(codec, records) && |file| < Range(TRAILER_SIZE) && ScansAs(codec.crc, file, FramesOf(codec, records))
  }

  function CutOf(codec: Codec, file: seq<byte>, records: seq<Record>): Option<nat> {
    if EndOf(codec, records) < ScanEnd(file) then Some(EndOf(codec, records)) else None
  }

  function Repaired(file: seq<byte>, cut: Option<nat>): seq<byte>
    requires cut.Some? ==> cut.value <= |file|
  {
    if cut.Some? then Cut(file, cut.value) else file
  }

  lemma ReadsScan(codec: Codec, segment: nat, file: seq<byte>, records: seq<Record>, m: Index)
    requires Faithful(codec) && Reads(codec, file, records)
    ensures ScanInto(codec, segment, file, HEADER_SIZE, ScanEnd(file), m)
         == Done(Replay(m, OpsOf(codec, PlacedIn(codec, segment, HEADER_SIZE, records))), CutOf(codec, file, records))
  {
    if EndOf(codec, records) <= ScanEnd(file) {
      ScanReplays(codec, segment, file, HEADER_SIZE, ScanEnd(file), records, m);
    } else {
      assert records == [];
    }
  }

  lemma RepairedReads(codec: Codec, file: seq<byte>, records: seq<Record>)
    requires Reads(codec, file, records) && |file| + TRAILER_SIZE < Range(TRAILER_SIZE)
    ensures var fixed := Repaired(file, CutOf(codec, file, records));
            && Reads(codec, fixed, records) && CutOf(codec, fixed, records) == None
            && (CutOf(codec, file, records).Some? ==> ReadTrailer(fixed).Some?)
  {
    var e := EndOf(codec, records);
    if e < ScanEnd(file) {
      var fixed := Cut(file, e);
      assert fixed[|fixed| - TRAILER_SIZE..] == Encode(e, TRAILER_SIZE);
      DecodeEncode(e, TRAILER_SIZE);
      assert fixed[HEADER_SIZE..e] == file[HEADER_SIZE..e];
    }
  }

  // ---------- opening ----------

  function SegmentOps(codec: Codec, segments: seq<seq<Record>>): seq<seq<Op>> {
    seq(|segments|, i requires 0 <= i < |segments| => OpsOf(codec, PlacedIn(codec, i + 1, HEADER_SIZE, segments[i])))
  }

  lemma {:induction false} FlattenedOps(codec: Codec, segments: seq<seq<Record>>)
    ensures Flatten(SegmentOps(codec, segments)) == OpsOf(codec, AllPlaced(codec, segments))
    decreases |segments|
  {
    if segments != [] {
      var n := |segments| - 1;
      var init, last := segments[..n], PlacedIn(codec, n + 1, HEADER_SIZE, segments[n]);
      FlattenedOps(codec, init);
      assert SegmentOps(codec, segments) == SegmentOps(codec, init) + [OpsOf(codec, last)];
      FlattenInTwo(SegmentOps(codec, init), [OpsOf(codec, last)]);
      FlattenOne(OpsOf(codec, last));
      OpsInTwo(codec, AllPlaced(codec, init), last);
    }
  }

  lemma OpsInTwo(codec: Codec, a: seq<Placed>, b: seq<Placed>)
    ensures OpsOf(codec, a + b) == OpsOf(codec, a) + OpsOf(codec, b)
  {
  }

  predicate AllRead(codec: Codec, files: seq<seq<byte>>, segments: seq<seq<Record>>) {
    |files| == |segments| && forall i :: 0 <= i < |files| ==> Reads(codec, files[i], segments[i])
  }

  /** Files small enough for a trailer to name their end. */
  predicate Small(files: seq<seq<byte>>) {
    forall i :: 0 <= i < |files| ==> |files[i]| + TRAILER_SIZE < Range(TRAILER_SIZE)
  }

  /** The active segment has a trailer, is a bare header, or gets a trailer in its repair. */
  predicate Opens(codec: Codec, file: seq<byte>, records: seq<Record>) {
    ReadTrailer(file).Some? || |file| == HEADER_SIZE || CutOf(codec, file, records).Some?
  }

  /** The index once the segments `[from, to)` were scanned. */
  function IndexAfter(codec: Codec, segments: seq<seq<Record>>, m: Index, from: nat, to: nat): Index
    requires 1 <= from <= to <= |segments| + 1
  {
    Replay(m, Flatten(SegmentOps(codec, segments)[from - 1..to - 1]))
  }

  lemma IndexAfterOneMore(codec: Codec, segments: seq<seq<Record>>, m: Index, from: nat, s: nat)
    requires 1 <= from <= s <= |segments|
    ensures IndexAfter(codec, segments, m, from, s + 1)
         == Replay(IndexAfter(codec, segments, m, from, s),
                   OpsOf(codec, PlacedIn(codec, s, HEADER_SIZE, segments[s - 1])))
  {
    var ops := SegmentOps(codec, segments);
    var before, next := ops[from - 1..s - 1], ops[s - 1];
    assert ops[from - 1..s] == before + [next];
    FlattenInTwo(before, [next]);
    FlattenOne(next);
    ReplayInTwo(m, Flatten(before), next);
  }

  lemma IndexAfterAll(codec: Codec, segments: seq<seq<Record>>, m: Index, from: nat, k: nat)
    requires 1 <= from <= |segments| && CheckpointOk(SegmentOps(codec, segments), from - 1, k, m)
    ensures IndexAfter(codec, segments, m, from, |segments| + 1)
         == Replay(map[], OpsOf(codec, AllPlaced(codec, segments)))
  {
    var ops := SegmentOps(codec, segments);
    assert ops[from - 1..|segments|] == ops[from - 1..];
    CheckpointRescanIsFullReplay(ops, from - 1, k, m);
    FlattenedOps(codec, segments);
  }

  /** The files once the segments `[from, to)` were scanned and repaired. */
  predicate FixedIn(codec: Codec, files: seq<seq<byte>>, segments: seq<seq<Record>>, from: nat, to: nat,
                    fixed: seq<seq<byte>>)
    requires AllRead(codec, files, segments)
  {
    && |fixed| == |files|
    && forall i :: 0 <= i < |files| ==>
         fixed[i] == if from <= i + 1 < to then FixedFile(codec, files[i], segments[i]) else files[i]
  }

  function FixedFile(codec: Codec, file: seq<byte>, records: seq<Record>): seq<byte>
    requires Reads(codec, file, records)
  {
    Repaired(file, CutOf(codec, file, records))
  }

  lemma FixedOneMore(codec: Codec, files: seq<seq<byte>>, segments: seq<seq<Record>>, from: nat, s: nat,
                     fixed: seq<seq<byte>>)
    requires AllRead(codec, files, segments) && 1 <= from <= s <= |files|
    requires FixedIn(codec, files, segments, from, s, fixed)
    ensures Reads(codec, files[s - 1], segments[s - 1]) && |fixed| == |files|
    ensures FixedIn(codec, files, segments, from, s + 1,
                    fixed[s - 1 := FixedFile(codec, files[s - 1], segments[s - 1])])
  {
    var fixed' := fixed[s - 1 := FixedFile(codec, files[s - 1], segments[s - 1])];
    forall i | 0 <= i < |files|
      ensures fixed'[i] == if from <= i + 1 < s + 1 then FixedFile(codec, files[i], segments[i]) else files[i]
    {
      assert i != s - 1 ==> fixed'[i] == fixed[i];
    }
  }

  predicate OpenedTo(codec: Codec, files: seq<seq<byte>>, segments: seq<seq<Record>>, from: nat, to: nat,
                     fixed: seq<seq<byte>>, loaded: Index, m: Index)
    requires AllRead(codec, files, segments)
  {
    && 1 <= from <= to <= |files| + 1 && FixedIn(codec, files, segments, from, to, fixed)
    && m == IndexAfter(codec, segments, loaded, from, to)
  }

  lemma OpenedOneMore(codec: Codec, files: seq<seq<byte>>, segments: seq<seq<Record>>, from: nat, s: nat,
                      fixed: seq<seq<byte>>, loaded: Index, m: Index)
    requires AllRead(codec, files, segments) && s <= |files|
    requires OpenedTo(codec, files, segments, from, s, fixed, loaded, m)
    ensures |fixed| == |files| && Reads(codec, files[s - 1], segments[s - 1])
    ensures OpenedTo(codec, files, segments, from, s + 1,
                     fixed[s - 1 := FixedFile(codec, files[s - 1], segments[s - 1])], loaded,
                     Replay(m, OpsOf(codec, PlacedIn(codec, s, HEADER_SIZE, segments[s - 1]))))
  {
    IndexAfterOneMore(codec, segments, loaded, from, s);
    FixedOneMore(codec, files, segments, from, s, fixed);
  }

  lemma FixedReads(codec: Codec, files: seq<seq<byte>>, segments: seq<seq<Record>>, from: nat, fixed: seq<seq<byte>>)
    requires AllRead(codec, files, segments) && Small(files)
    requires FixedIn(codec, files, segments, from, |files| + 1, fixed)
    ensures AllRead(codec, fixed, segments)
    ensures forall i :: 0 <= i < |fixed| && from <= i + 1 ==> CutOf(codec, fixed[i], segments[i]) == None
  {
    forall i | 0 <= i < |fixed|
      ensures Reads(codec, fixed[i], segments[i]) && (from <= i + 1 ==> CutOf(codec, fixed[i], segments[i]) == None)
    {
      RepairedReads(codec, files[i], segments[i]);
    }
  }

  lemma FixedOpens(codec: Codec, file: seq<byte>, records: seq<Record>)
    requires Reads(codec, file, records) && |file| + TRAILER_SIZE < Range(TRAILER_SIZE)
    ensures var fixed := FixedFile(codec, file, records);
            Accepted(fixed) <==> Opens(codec, file, records)
  {
    RepairedReads(codec, file, records);
  }

  method OpenOne(codec: Codec, segment: nat, file: seq<byte>, index: DenseIndex, ghost records: seq<Record>)
    returns (fixed: seq<byte>)
    requires Faithful(codec) && Reads(codec, file, records)
    modifies index
    ensures fixed == FixedFile(codec, file, records)
    ensures index.Map() == Replay(old(index.Map()), OpsOf(codec, PlacedIn(codec, segment, HEADER_SIZE, records)))
  {
    ReadsScan(codec, segment, file, records, index.Map());
    var readable, cut := ScanSegment(codec, segment, file, index);
    fixed := Repaired(file, cut);
  }

  method OpenAll(codec: Codec, files: seq<seq<byte>>, from: nat, index: DenseIndex, ghost segments: seq<seq<Record>>)
    returns (fixed: seq<seq<byte>>)
    requires Faithful(codec) && AllRead(codec, files, segments) && 1 <= from <= |files|
    modifies index
    ensures OpenedTo(codec, files, segments, from, |files| + 1, fixed, old(index.Map()), index.Map())
  {
    fixed := files;
    ghost var loaded := index.Map();
    for s := from to |files| + 1
      invariant OpenedTo(codec, files, segments, from, s, fixed, loaded, index.Map())
    {
      OpenedOneMore(codec, files, segments, from, s, fixed, loaded, index.Map());
      var file := OpenOne(codec, s, files[s - 1], index, segments[s - 1]);
      fixed := fixed[s - 1 := file];
    }
  }

  /**
   * What opening promises: the index is the full replay of what the files read as, it points at
   * the live entries in the repaired files, and those scan clean from then on.
   */
  predicate WellOpened(codec: Codec, files: seq<seq<byte>>, segments: seq<seq<Record>>, from: nat,
                       fixed: seq<seq<byte>>, m: Index)
  {
    && m == Replay(map[], OpsOf(codec, AllPlaced(codec, segments)))
    && AllRead(codec, fixed, segments) && |fixed| == |files| && PointsAt(codec, fixed, m, LiveOf(codec, segments))
    && (forall i :: 0 <= i < |fixed| && from <= i + 1 ==> CutOf(codec, fixed[i], segments[i]) == None)
    && (forall i :: 0 <= i < |fixed| && i + 1 < from ==> fixed[i] == files[i])
  }

  /** Any files that read as these segments, and a checkpoint of one of them. */
  predicate Ready(codec: Codec, files: seq<seq<byte>>, segments: seq<seq<Record>>, from: nat, k: nat, loaded: Index) {
    && AllRead(codec, files, segments) && Small(files) && 1 <= from <= |files|
    && CheckpointOk(SegmentOps(codec, segments), from - 1, k, loaded)
  }

  predicate Accepted(file: seq<byte>) {
    ReadTrailer(file).Some? || |file| == HEADER_SIZE
  }

  lemma OpenedWell(codec: Codec, files: seq<seq<byte>>, segments: seq<seq<Record>>, from: nat, k: nat,
                   fixed: seq<seq<byte>>, loaded: Index, m: Index)
    requires Ready(codec, files, segments, from, k, loaded)
    requires OpenedTo(codec, files, segments, from, |files| + 1, fixed, loaded, m)
    ensures WellOpened(codec, files, segments, from, fixed, m)
    ensures Accepted(fixed[|files| - 1]) <==> Opens(codec, files[|files| - 1], segments[|files| - 1])
  {
    IndexAfterAll(codec, segments, loaded, from, k);
    FixedReads(codec, files, segments, from, fixed);
    FilesPoint(codec, fixed, segments);
    FixedOpens(codec, files[|files| - 1], segments[|files| - 1]);
  }

  /**
   * `Open`: `index` is what a checkpoint of segment `from` held after some of its records, or is
   * empty and `from` is the first segment.
   */
  method Open(codec: Codec, files: seq<seq<byte>>, from: nat, index: DenseIndex,
              ghost segments: seq<seq<Record>>, ghost k: nat)
    returns (ok: bool, fixed: seq<seq<byte>>)
    requires Faithful(codec) && Ready(codec, files, segments, from, k, index.Map())
    modifies index
    ensures ok <==> Opens(codec, files[|files| - 1], segments[|files| - 1])
    ensures WellOpened(codec, files, segments, from, fixed, index.Map())
  {
    ghost var loaded := index.Map();
    fixed := OpenAll(codec, files, from, index, segments);
    OpenedWell(codec, files, segments, from, k, fixed, loaded, index.Map());
    ok := Accepted(fixed[|files| - 1]);
  }

  // ---------- what the index points at ----------

  function RegionsIn(codec: Codec, files: seq<seq<byte>>, segments: seq<seq<Record>>): seq<seq<byte>>
    requires AllRead(codec, files, segments)
  {
    seq(|files|, i requires 0 <= i < |files| => assert Reads(codec, files[i], segments[i]);
        files[i][..EndOf(codec, segments[i])])
  }

  lemma FilesPoint(codec: Codec, files: seq<seq<byte>>, segments: seq<seq<Record>>)
    requires AllRead(codec, files, segments)
    ensures PointsAt(codec, files, Replay(map[], OpsOf(codec, AllPlaced(codec, segments))), LiveOf(codec, segments))
  {
    var regions := RegionsIn(codec, files, segments);
    forall i | 0 <= i < |files| ensures RegionOk(codec, regions[i], segments[i]) && regions[i] <= files[i] {
      assert Reads(codec, files[i], segments[i]);
      assert regions[i][HEADER_SIZE..] == files[i][HEADER_SIZE..EndOf(codec, segments[i])];
    }
    IndexPointsAtLive(codec, regions, segments);
    var m, l := Replay(map[], OpsOf(codec, AllPlaced(codec, segments))), LiveOf(codec, segments);
    forall i | i in m && i in l ensures ReadsAt(codec, files, m[i], l[i]) {
      LongerReads(codec, regions, files, m[i], l[i]);
    }
  }

  lemma LongerReads(codec: Codec, regions: seq<seq<byte>>, files: seq<seq<byte>>, loc: Location, e: Entry)
    requires |regions| == |files| && (forall i :: 0 <= i < |files| ==> regions[i] <= files[i])
    requires ReadsAt(codec, regions, loc, e)
    ensures ReadsAt(codec, files, loc, e)
  {
    var region, file := regions[loc.segment - 1], files[loc.segment - 1];
    assert file[loc.offset..loc.offset + loc.length] == region[loc.offset..loc.offset + loc.length];
  }
}
