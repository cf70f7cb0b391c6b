/**
 * From records to bytes and back: where each record of a log sits in its segment, what the
 * index says about it, and what it makes of the map of live entries.
 */
module WalPlacement {

  import opened RaftTypes
  import opened WalFormat
  import opened WalIndexes
  import opened WalRecovery

  datatype Record = LogEntry(entry: Entry) | TruncatePrefix(before: nat) | TruncateSuffix(from: nat)

  function Kind(r: Record): nat {
    match r
    case LogEntry(_) => 1
    case TruncatePrefix(_) => 3
    case TruncateSuffix(_) => 4
  }

  /** Payload serialization, kept abstract. */
  datatype Codec = Codec(crc: Checksum, pack: Record -> seq<byte>, unpack: (nat, seq<byte>) -> Option<Record>)

  ghost predicate Faithful(codec: Codec) {
    forall r :: codec.unpack(Kind(r), codec.pack(r)) == Some(r)
  }

  function FrameOf(codec: Codec, r: Record): Frame {
    Frame(Kind(r), codec.pack(r))
  }

  /** The record types as they stand in a segment file, least significant octet first. */
  lemma TypeOctets(codec: Codec, r: Record)
    ensures FrameBytes(codec.crc, FrameOf(codec, r))[8..10]
         == match r { case LogEntry(_) => [1, 0] case TruncatePrefix(_) => [3, 0] case TruncateSuffix(_) => [4, 0] }
  {
    var kind := Kind(r);
    assert Encode(kind, 2) == [kind % 256] + Encode(kind / 256, 1) && Encode(0, 1) == [0] + Encode(0, 0);
    assert FrameBytes(codec.crc, FrameOf(codec, r))[8..10] == Encode(kind, 2);
  }

  function FramesOf(codec: Codec, records: seq<Record>): seq<Frame> {
    seq(|records|, i requires 0 <= i < |records| => FrameOf(codec, records[i]))
  }

  function AreaOf(codec: Codec, records: seq<Record>): seq<byte> {
    Area(codec.crc, FramesOf(codec, records))
  }

  function Size(codec: Codec, r: Record): nat {
    FRAME_HEADER + |codec.pack(r)|
  }

  predicate Storable(codec: Codec, r: Record) {
    |codec.pack(r)| <= MAX_RECORD
  }

  // ---------- live entries ----------

  type Live = map<nat, Entry>

  /** What one record makes of the live entries. */
  function Update(m: Live, r: Record): Live {
    match r
    case LogEntry(e) => m[e.index := e]
    case TruncatePrefix(b) => map i | i in m && i >= b :: m[i]
    case TruncateSuffix(f) => map i | i in m && i < f :: m[i]
  }

  function LiveAfter(m: Live, records: seq<Record>): Live
    decreases |records|
  {
    if records == [] then m else Update(LiveAfter(m, records[..|records| - 1]), records[|records| - 1])
  }

  // ---------- placement ----------

  datatype Placed = Placed(r: Record, segment: nat, offset: nat)

  function PlacedIn(codec: Codec, segment: nat, at: nat, records: seq<Record>): seq<Placed>
    decreases |records|
  {
    if records == [] then []
    else
      var init := records[..|records| - 1];
      PlacedIn(codec, segment, at, init) + [Placed(records[|records| - 1], segment, at + |AreaOf(codec, init)|)]
  }

  /** Segments are numbered from 1. */
  function AllPlaced(codec: Codec, segments: seq<seq<Record>>): seq<Placed>
    decreases |segments|
  {
    if segments == [] then []
    else
      var n := |segments|;
      AllPlaced(codec, segments[..n - 1]) + PlacedIn(codec, n, HEADER_SIZE, segments[n - 1])
  }

  function OpOf(codec: Codec, p: Placed): Op {
    match p.r
    case LogEntry(e) => Put(e.index, Location(p.segment, p.offset, Size(codec, p.r)))
    case TruncatePrefix(b) => DropBelow(b)
    case TruncateSuffix(f) => DropFrom(f)
  }

  function OpsOf(codec: Codec, placed: seq<Placed>): seq<Op> {
    seq(|placed|, i requires 0 <= i < |placed| => OpOf(codec, placed[i]))
  }

  function RecordsOf(placed: seq<Placed>): seq<Record> {
    seq(|placed|, i requires 0 <= i < |placed| => placed[i].r)
  }

  lemma AreaOfAppended(codec: Codec, records: seq<Record>, r: Record)
    ensures AreaOf(codec, records + [r]) == AreaOf(codec, records) + FrameBytes(codec.crc, FrameOf(codec, r))
  {
    var frames := FramesOf(codec, records + [r]);
    AreaInTwo(codec.crc, frames, |records|);
    assert frames[..|records|] == FramesOf(codec, records) && frames[|records|..] == [FrameOf(codec, r)];
    assert frames[|records|..][1..] == [];
    assert FrameBytes(codec.crc, FrameOf(codec, r)) + [] == FrameBytes(codec.crc, FrameOf(codec, r));
  }

  /** Appending a record to the last segment places it at the segment's end. */
  lemma PlacedAppended(codec: Codec, segments: seq<seq<Record>>, r: Record)
    requires segments != []
    ensures var n, last := |segments|, segments[|segments| - 1];
            AllPlaced(codec, segments[n - 1 := last + [r]])
              == AllPlaced(codec, segments) + [Placed(r, n, HEADER_SIZE + |AreaOf(codec, last)|)]
  {
    var n, last := |segments|, segments[|segments| - 1];
    var segments' := segments[n - 1 := last + [r]];
    assert segments'[..n - 1] == segments[..n - 1] && segments'[n - 1][..|last|] == last;
    assert (last + [r])[..|last + [r]| - 1] == last;
  }

  lemma PlacedRotated(codec: Codec, segments: seq<seq<Record>>)
    ensures AllPlaced(codec, segments + [[]]) == AllPlaced(codec, segments)
  {
    assert (segments + [[]])[..|segments|] == segments;
  }

  // ---------- the index points at the live entries ----------

  /** The record's bytes are where its placement says. */
  predicate Sits(codec: Codec, regions: seq<seq<byte>>, p: Placed) {
    && 1 <= p.segment <= |regions| && p.offset + Size(codec, p.r) <= |regions[p.segment - 1]|
    && regions[p.segment - 1][p.offset..p.offset + Size(codec, p.r)] == FrameBytes(codec.crc, FrameOf(codec, p.r))
  }

  /** Entry `e` can be read at `loc`. */
  predicate ReadsAt(codec: Codec, regions: seq<seq<byte>>, loc: Location, e: Entry) {
    && 1 <= loc.segment <= |regions| && loc.length == Size(codec, LogEntry(e))
    && Sits(codec, regions, Placed(LogEntry(e), loc.segment, loc.offset))
  }

  predicate PointsAt(codec: Codec, regions: seq<seq<byte>>, m: Index, l: Live) {
    m.Keys == l.Keys && forall i :: i in m && i in l ==> l[i].index == i && ReadsAt(codec, regions, m[i], l[i])
  }

  lemma PointsAfter(codec: Codec, regions: seq<seq<byte>>, m: Index, l: Live, p: Placed)
    requires PointsAt(codec, regions, m, l) && Sits(codec, regions, p)
    ensures PointsAt(codec, regions, Apply(m, OpOf(codec, p)), Update(l, p.r))
  {
    match p.r
    case LogEntry(e) => PointsAfterPut(codec, regions, m, l, p);
    case TruncatePrefix(b) =>
    case TruncateSuffix(f) =>
  }

  lemma PointsAfterPut(codec: Codec, regions: seq<seq<byte>>, m: Index, l: Live, p: Placed)
    requires PointsAt(codec, regions, m, l) && Sits(codec, regions, p) && p.r.LogEntry?
    ensures PointsAt(codec, regions, Apply(m, OpOf(codec, p)), Update(l, p.r))
  {
    var e := p.r.entry;
    var loc := Location(p.segment, p.offset, Size(codec, p.r));
    assert ReadsAt(codec, regions, loc, e);
    assert Apply(m, OpOf(codec, p)) == m[e.index := loc] && Update(l, p.r) == l[e.index := e];
  }

  /** Replaying placements into the index and into the map of live entries keeps the two in step. */
  lemma {:induction false} ReplayPoints(codec: Codec, regions: seq<seq<byte>>, placed: seq<Placed>)
    requires forall p :: p in placed ==> Sits(codec, regions, p)
    ensures PointsAt(codec, regions, Replay(map[], OpsOf(codec, placed)), LiveAfter(map[], RecordsOf(placed)))
    decreases |placed|
  {
    if placed != [] {
      var n := |placed| - 1;
      var init, p := placed[..n], placed[n];
      ReplayPoints(codec, regions, init);
      ReplayLast(codec, init, p);
      assert init + [p] == placed;
      assert RecordsOf(placed)[..n] == RecordsOf(init);
      PointsAfter(codec, regions, Replay(map[], OpsOf(codec, init)), LiveAfter(map[], RecordsOf(init)), p);
    }
  }

  lemma ReplayLast(codec: Codec, placed: seq<Placed>, p: Placed)
    ensures Replay(map[], OpsOf(codec, placed + [p])) == Apply(Replay(map[], OpsOf(codec, placed)), OpOf(codec, p))
  {
    assert OpsOf(codec, placed + [p]) == OpsOf(codec, placed) + [OpOf(codec, p)];
    ReplayInTwo(map[], OpsOf(codec, placed), [OpOf(codec, p)]);
    assert [OpOf(codec, p)][1..] == [];
  }

  // ---------- regions ----------

  /** A segment's bytes up to its logical end: header and record area. */
  predicate RegionOk(codec: Codec, region: seq<byte>, records: seq<Record>) {
    |region| >= HEADER_SIZE && region[HEADER_SIZE..] == AreaOf(codec, records)
  }

  predicate RegionsOk(codec: Codec, regions: seq<seq<byte>>, segments: seq<seq<Record>>) {
    && |regions| == |segments|
    && forall k :: 0 <= k < |regions| ==> RegionOk(codec, regions[k], segments[k])
  }

  lemma {:induction false} SegmentSits(codec: Codec, regions: seq<seq<byte>>, segment: nat, records: seq<Record>,
                                       p: Placed)
    requires 1 <= segment <= |regions| && |regions[segment - 1]| >= HEADER_SIZE
    requires AreaOf(codec, records) <= regions[segment - 1][HEADER_SIZE..]
    requires p in PlacedIn(codec, segment, HEADER_SIZE, records)
    ensures Sits(codec, regions, p)
    decreases |records|
  {
    var n := |records| - 1;
    var init, r := records[..n], records[n];
    assert init + [r] == records;
    AreaOfAppended(codec, init, r);
    if p in PlacedIn(codec, segment, HEADER_SIZE, init) {
      SegmentSits(codec, regions, segment, init, p);
    } else {
      LastSits(codec, regions, segment, AreaOf(codec, init), r);
    }
  }

  lemma LastSits(codec: Codec, regions: seq<seq<byte>>, segment: nat, before: seq<byte>, r: Record)
    requires 1 <= segment <= |regions| && |regions[segment - 1]| >= HEADER_SIZE
    requires before + FrameBytes(codec.crc, FrameOf(codec, r)) <= regions[segment - 1][HEADER_SIZE..]
    ensures Sits(codec, regions, Placed(r, segment, HEADER_SIZE + |before|))
  {
    var region, b := regions[segment - 1], FrameBytes(codec.crc, FrameOf(codec, r));
    var s := before + b;
    assert region[HEADER_SIZE..HEADER_SIZE + |s|] == region[HEADER_SIZE..][..|s|] == s;
    Within(region, HEADER_SIZE, s, |before|, |s|);
    assert s[|before|..|s|] == b;
  }

  lemma {:induction false} AllSit(codec: Codec, regions: seq<seq<byte>>, segments: seq<seq<Record>>, p: Placed)
    requires |segments| <= |regions| && RegionsOk(codec, regions[..|segments|], segments)
    requires p in AllPlaced(codec, segments)
    ensures Sits(codec, regions, p)
    decreases |segments|
  {
    var n := |segments|;
    if p in AllPlaced(codec, segments[..n - 1]) {
      assert regions[..n][..n - 1] == regions[..n - 1];
      AllSit(codec, regions, segments[..n - 1], p);
    } else {
      assert regions[..n][n - 1] == regions[n - 1];
      SegmentSits(codec, regions, n, segments[n - 1], p);
    }
  }

  /** The index that recovery builds by replay points exactly at the live entries. */
  lemma IndexPointsAtLive(codec: Codec, regions: seq<seq<byte>>, segments: seq<seq<Record>>)
    requires RegionsOk(codec, regions, segments)
    ensures var placed := AllPlaced(codec, segments);
            PointsAt(codec, regions, Replay(map[], OpsOf(codec, placed)), LiveAfter(map[], RecordsOf(placed)))
  {
    var placed := AllPlaced(codec, segments);
    assert regions[..|segments|] == regions;
    forall p | p in placed ensures Sits(codec, regions, p) {
      AllSit(codec, regions, segments, p);
    }
    ReplayPoints(codec, regions, placed);
  }
}
