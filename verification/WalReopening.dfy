/** Opening an existing log: scanning the segment files rebuilds the index that was lost. */
module WalReopening {

  import opened RaftTypes
  import opened WalFormat
  import opened WalIndexes
  import opened WalRecovery
  import opened WalPlacement
  import opened WalStores

  /** The index after a scan and where it found corruption, or a payload that does not parse. */
  datatype Scanned = Done(index: Index, cut: Option<nat>) | Unreadable

  /** What one intact frame does to the index; unknown record types do nothing. */
  function Effect(codec: Codec, segment: nat, at: nat, f: Frame, m: Index): Option<Index> {
    if f.kind != 1 && f.kind != 3 && f.kind != 4 then Some(m)
    else match codec.unpack(f.kind, f.payload)
      case None => None
      case Some(LogEntry(e)) => Some(Apply(m, Put(e.index, Location(segment, at, FRAME_HEADER + |f.payload|))))
      case Some(TruncatePrefix(b)) => Some(Apply(m, DropBelow(b)))
      case Some(TruncateSuffix(from)) => Some(Apply(m, DropFrom(from)))
  }

  /** The scan loop with its index updates. */
  function ScanInto(codec: Codec, segment: nat, file: seq<byte>, at: nat, end: nat, m: Index): Scanned
    requires end <= |file|
    decreases end - at
  {
    if at >= end then Done(m, None)
    else match FrameAt(codec.crc, file, at, end)
      case None => Done(m, Some(at))
      case Some(f) =>
        match Effect(codec, segment, at, f, m)
        case None => Unreadable
        case Some(m') => ScanInto(codec, segment, file, at + FRAME_HEADER + |f.payload|, end, m')
  }

  lemma {:induction false} PlacedFirst(codec: Codec, segment: nat, at: nat, records: seq<Record>)
    requires records != []
    ensures PlacedIn(codec, segment, at, records)
         == [Placed(records[0], segment, at)] + PlacedIn(codec, segment, at + Size(codec, records[0]), records[1..])
    decreases |records|
  {
    var n := |records| - 1;
    var init := records[..n];
    if n == 0 {
      assert init == [] && AreaOf(codec, init) == [];
    } else {
      PlacedFirst(codec, segment, at, init);
      assert init[1..] == records[1..][..n - 1] && records[1..][n - 1] == records[n];
      AreaOfFirst(codec, init);
    }
  }

  lemma AreaOfFirst(codec: Codec, records: seq<Record>)
    requires records != []
    ensures AreaOf(codec, records) == FrameBytes(codec.crc, FrameOf(codec, records[0])) + AreaOf(codec, records[1..])
  {
    assert FramesOf(codec, records)[1..] == FramesOf(codec, records[1..]);
  }

  lemma EffectOfRecord(codec: Codec, segment: nat, at: nat, r: Record, m: Index)
    requires Faithful(codec)
    ensures Effect(codec, segment, at, FrameOf(codec, r), m) == Some(Apply(m, OpOf(codec, Placed(r, segment, at))))
  {
    assert codec.unpack(Kind(r), codec.pack(r)) == Some(r);
  }

  /** The records lie from `at` on; behind them the scan ends or meets a bad frame. */
  predicate Lies(codec: Codec, file: seq<byte>, at: nat, end: nat, records: seq<Record>) {
    var e := at + |AreaOf(codec, records)|;
    && e <= end <= |file| && file[at..e] == AreaOf(codec, records)
    && (e < end ==> FrameAt(codec.crc, file, e, end) == None)
  }

  lemma FirstRecordReads(codec: Codec, file: seq<byte>, at: nat, end: nat, records: seq<Record>)
    requires records != [] && Storable(codec, records[0]) && Lies(codec, file, at, end, records)
    ensures var n := Size(codec, records[0]);
            && at + n <= end && FrameAt(codec.crc, file, at, end) == Some(FrameOf(codec, records[0]))
            && Lies(codec, file, at + n, end, records[1..])
            && at + |AreaOf(codec, records)| == at + n + |AreaOf(codec, records[1..])|
  {
    var first := FrameBytes(codec.crc, FrameOf(codec, records[0]));
    AreaOfFirst(codec, records);
    SplitAt(file, at, first, AreaOf(codec, records[1..]));
    FrameReadsBack(codec.crc, file, at, end, FrameOf(codec, records[0]));
  }

  lemma ScanOneRecord(codec: Codec, segment: nat, file: seq<byte>, at: nat, end: nat, r: Record, m: Index)
    requires Faithful(codec) && at < end <= |file| && FrameAt(codec.crc, file, at, end) == Some(FrameOf(codec, r))
    ensures ScanInto(codec, segment, file, at, end, m)
         == ScanInto(codec, segment, file, at + Size(codec, r), end, Apply(m, OpOf(codec, Placed(r, segment, at))))
  {
    EffectOfRecord(codec, segment, at, r, m);
  }

  /** The records replayed from `at` on, and where a scan of them up to `end` stops short. */
  function Replayed(codec: Codec, segment: nat, at: nat, end: nat, records: seq<Record>, m: Index): Scanned {
    var e := at + |AreaOf(codec, records)|;
    Done(Replay(m, OpsOf(codec, PlacedIn(codec, segment, at, records))), if e < end then Some(e) else None)
  }

  lemma ReplayedFirst(codec: Codec, segment: nat, at: nat, end: nat, records: seq<Record>, m: Index)
    requires records != []
    ensures var r, n := records[0], Size(codec, records[0]);
            Replayed(codec, segment, at, end, records, m)
              == Replayed(codec, segment, at + n, end, records[1..], Apply(m, OpOf(codec, Placed(r, segment, at))))
  {
    var r, n := records[0], Size(codec, records[0]);
    AreaOfFirst(codec, records);
    PlacedFirst(codec, segment, at, records);
    ReplayFirst(codec, m, Placed(r, segment, at), PlacedIn(codec, segment, at + n, records[1..]));
  }

  predicate Agrees(codec: Codec, segment: nat, file: seq<byte>, at: nat, end: nat, records: seq<Record>, m: Index)
    requires end <= |file|
  {
    ScanInto(codec, segment, file, at, end, m) == Replayed(codec, segment, at, end, records, m)
  }

  lemma AgreesFirst(codec: Codec, segment: nat, file: seq<byte>, at: nat, end: nat, records: seq<Record>, m: Index)
    requires Faithful(codec) && records != [] && at < end <= |file|
    requires FrameAt(codec.crc, file, at, end) == Some(FrameOf(codec, records[0]))
    requires Agrees(codec, segment, file, at + Size(codec, records[0]), end, records[1..],
                    Apply(m, OpOf(codec, Placed(records[0], segment, at))))
    ensures Agrees(codec, segment, file, at, end, records, m)
  {
    ScanOneRecord(codec, segment, file, at, end, records[0], m);
    ReplayedFirst(codec, segment, at, end, records, m);
  }

  predicate AllFit(codec: Codec, records: seq<Record>) {
    forall i :: 0 <= i < |records| ==> Storable(codec, records[i])
  }

  lemma RestFits(codec: Codec, records: seq<Record>)
    requires records != [] && AllFit(codec, records)
    ensures Storable(codec, records[0]) && AllFit(codec, records[1..])
  {
  }

  /** Scanning a segment's records replays them, and stops behind them: at the end or at a bad frame. */
  lemma {:induction false} ScanReplays(codec: Codec, segment: nat, file: seq<byte>, at: nat, end: nat,
                                       records: seq<Record>, m: Index)
    requires Faithful(codec) && AllFit(codec, records) && Lies(codec, file, at, end, records)
    ensures Agrees(codec, segment, file, at, end, records, m)
    decreases |records|
  {
    if records == [] {
      NothingToScan(codec, segment, file, at, end, m);
    } else {
      var r, n := records[0], Size(codec, records[0]);
      RestFits(codec, records);
      FirstRecordReads(codec, file, at, end, records);
      ScanReplays(codec, segment, file, at + n, end, records[1..], Apply(m, OpOf(codec, Placed(r, segment, at))));
      AgreesFirst(codec, segment, file, at, end, records, m);
    }
  }

  lemma NothingToScan(codec: Codec, segment: nat, file: seq<byte>, at: nat, end: nat, m: Index)
    requires Lies(codec, file, at, end, [])
    ensures AreaOf(codec, []) == [] && PlacedIn(codec, segment, at, []) == []
    ensures ScanInto(codec, segment, file, at, end, m) == Done(m, if at < end then Some(at) else None)
  {
  }

  lemma ReplayFirst(codec: Codec, m: Index, p: Placed, rest: seq<Placed>)
    ensures Replay(m, OpsOf(codec, [p] + rest)) == Replay(Apply(m, OpOf(codec, p)), OpsOf(codec, rest))
  {
    assert OpsOf(codec, [p] + rest)[0] == OpOf(codec, p) && OpsOf(codec, [p] + rest)[1..] == OpsOf(codec, rest);
  }

  lemma SealedEnd(file: seq<byte>)
    requires Sealed(file) && |Unsealed(file)| >= HEADER_SIZE
    ensures ReadTrailer(file) == Some(|Unsealed(file)|)
  {
    Ranges();
    assert file[|file| - TRAILER_SIZE..] == Encode(|Unsealed(file)|, TRAILER_SIZE);
    DecodeEncode(|Unsealed(file)|, TRAILER_SIZE);
  }

  // ---------- the loops ----------

  /** One segment: read, check and apply record after record. */
  method ScanSegment(codec: Codec, segment: nat, file: seq<byte>, index: DenseIndex)
    returns (ok: bool, cut: Option<nat>)
    modifies index
    ensures match ScanInto(codec, segment, file, HEADER_SIZE, ScanEnd(file), old(index.Map()))
            case Done(m, c) => ok && cut == c && index.Map() == m
            case Unreadable => !ok
  {
    var end := ScanEnd(file);
    var at: nat := HEADER_SIZE;
    while at < end
      invariant ScanInto(codec, segment, file, at, end, index.Map())
             == ScanInto(codec, segment, file, HEADER_SIZE, end, old(index.Map()))
    {
      var r := ReadFrame(codec.crc, file, at, end);
      if r == None {
        return true, Some(at);
      }
      var f := r.value;
      var applied := ApplyFrame(codec, segment, at, f, index);
      if !applied {
        return false, None;
      }
      at := at + FRAME_HEADER + |f.payload|;
    }
    return true, None;
  }

  method ApplyFrame(codec: Codec, segment: nat, at: nat, f: Frame, index: DenseIndex) returns (ok: bool)
    modifies index
    ensures match Effect(codec, segment, at, f, old(index.Map()))
            case Some(m) => ok && index.Map() == m
            case None => !ok
  {
    if f.kind == 1 || f.kind == 3 || f.kind == 4 {
      match codec.unpack(f.kind, f.payload) {
        case None => return false;
        case Some(LogEntry(e)) => index.Put(e.index, Location(segment, at, FRAME_HEADER + |f.payload|));
        case Some(TruncatePrefix(b)) => index.TruncatePrefix(b);
        case Some(TruncateSuffix(from)) => index.TruncateSuffix(from);
      }
    }
    ok := true;
  }
}
