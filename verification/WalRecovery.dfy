/**
 * Recovery of the write-ahead log, record by record: loading a checkpoint and rescanning
 * from its segment gives what replaying every flushed record from empty would give.
 */
module WalRecovery {

  import opened RaftTypes
  import opened WalIndexes

  function Replay(m: Index, ops: seq<Op>): Index
    decreases |ops|
  {
    if ops == [] then m else Replay(Apply(m, ops[0]), ops[1..])
  }

  // ---------- replaying a block twice ----------

  predicate Touches(op: Op, i: nat) {
    match op
    case Put(j, _) => i == j
    case DropBelow(b) => i < b
    case DropFrom(f) => i >= f
  }

  predicate Touched(ops: seq<Op>, i: nat) {
    exists k :: 0 <= k < |ops| && Touches(ops[k], i)
  }

  predicate SameAt(m: Index, n: Index, i: nat) {
    (i in m <==> i in n) && (i in m && i in n ==> m[i] == n[i])
  }

  lemma {:induction false} UntouchedStays(m: Index, ops: seq<Op>, i: nat)
    requires !Touched(ops, i)
    ensures SameAt(Replay(m, ops), m, i)
    decreases |ops|
  {
    if ops != [] {
      assert !Touches(ops[0], i);
      forall k | 0 <= k < |ops[1..]| ensures !Touches(ops[1..][k], i) {
        assert ops[1..][k] == ops[k + 1];
      }
      UntouchedStays(Apply(m, ops[0]), ops[1..], i);
    }
  }

  /** The last record that touches an index decides about it, whatever was there before. */
  lemma {:induction false} LastTouchDecides(m: Index, n: Index, ops: seq<Op>, i: nat)
    requires Touched(ops, i) || SameAt(m, n, i)
    ensures SameAt(Replay(m, ops), Replay(n, ops), i)
    decreases |ops|
  {
    if ops != [] {
      if Touched(ops, i) && !Touches(ops[0], i) {
        var k :| 0 <= k < |ops| && Touches(ops[k], i);
        assert ops[1..][k - 1] == ops[k];
      }
      LastTouchDecides(Apply(m, ops[0]), Apply(n, ops[0]), ops[1..], i);
    }
  }

  lemma SameEverywhere(m: Index, n: Index)
    requires forall i: nat :: SameAt(m, n, i)
    ensures m == n
  {
    forall i: nat ensures (i in m <==> i in n) && (i in m ==> m[i] == n[i]) {
      assert SameAt(m, n, i);
    }
  }

  /** Replaying a block over a state that already has any prefix of it changes nothing. */
  lemma ReplayAbsorbsPrefix(m: Index, ops: seq<Op>, k: nat)
    requires k <= |ops|
    ensures Replay(Replay(m, ops[..k]), ops) == Replay(m, ops)
  {
    var early := Replay(m, ops[..k]);
    forall i: nat ensures SameAt(Replay(early, ops), Replay(m, ops), i) {
      if !Touched(ops, i) {
        forall j | 0 <= j < k ensures !Touches(ops[..k][j], i) {
          assert ops[..k][j] == ops[j];
        }
        UntouchedStays(m, ops[..k], i);
      }
      LastTouchDecides(early, m, ops, i);
    }
    SameEverywhere(Replay(early, ops), Replay(m, ops));
  }

  lemma {:induction false} ReplayInTwo(m: Index, a: seq<Op>, b: seq<Op>)
    ensures Replay(m, a + b) == Replay(Replay(m, a), b)
    decreases |a|
  {
    if a == [] {
      assert a + b == b;
    } else {
      assert (a + b)[0] == a[0] && (a + b)[1..] == a[1..] + b;
      ReplayInTwo(Apply(m, a[0]), a[1..], b);
    }
  }

  // ---------- the log on disk ----------

  /** Flushed records by segment, the write buffer, the index, and a checkpoint per covered segment. */
  datatype Wal = Wal(segments: seq<seq<Op>>, buffer: seq<Op>, index: Index, checkpoints: map<nat, Index>)

  datatype Step =
    | Append(op: Op, rotate: bool)          // one record; `rotate`: a threshold was reached first
    | Flush                                 // the watermark, or a read
    | Sync(checkpoint: bool)
    | Crash(kept: nat, load: Option<nat>)   // then Open: `kept` buffered records reached the file whole

  function Flatten(segments: seq<seq<Op>>): seq<Op> {
    if segments == [] then [] else segments[0] + Flatten(segments[1..])
  }

  function Extend(segments: seq<seq<Op>>, ops: seq<Op>): seq<seq<Op>>
    requires segments != []
  {
    segments[|segments| - 1 := segments[|segments| - 1] + ops]
  }

  const FRESH := Wal([[]], [], map[], map[])

  predicate Newest(checkpoints: map<nat, Index>, s: nat) {
    s in checkpoints && forall t :: t in checkpoints ==> t <= s
  }

  predicate Enabled(w: Wal, step: Step) {
    && w.segments != []
    && (step.Crash? ==>
          && step.kept <= |w.buffer|
          && (step.load.Some? ==> Newest(w.checkpoints, step.load.value) && step.load.value < |w.segments|))
  }

  function Flushed(w: Wal): Wal
    requires w.segments != []
  {
    w.(segments := Extend(w.segments, w.buffer), buffer := [])
  }

  /** Open: start from the checkpoint, if one loads, and scan from its own segment on. */
  function Recovered(segments: seq<seq<Op>>, checkpoints: map<nat, Index>, load: Option<nat>): Index
    requires load.Some? ==> load.value in checkpoints && load.value < |segments|
  {
    if load.Some? then Replay(checkpoints[load.value], Flatten(segments[load.value..]))
    else Replay(map[], Flatten(segments))
  }

  function Next(w: Wal, step: Step): Wal
    requires Enabled(w, step)
  {
    match step
    case Append(op, rotate) =>
      var v := if rotate then Flushed(w).(segments := Flushed(w).segments + [[]]) else w;
      v.(buffer := v.buffer + [op], index := Apply(v.index, op))
    case Flush => Flushed(w)
    case Sync(checkpoint) =>
      var v := Flushed(w);
      if checkpoint && v.index != map[] then v.(checkpoints := v.checkpoints[|v.segments| - 1 := v.index]) else v
    case Crash(kept, load) =>
      var segments := Extend(w.segments, w.buffer[..kept]);
      w.(segments := segments, buffer := [], index := Recovered(segments, w.checkpoints, load))
  }

  // ---------- the invariant ----------

  predicate CheckpointOk(segments: seq<seq<Op>>, s: nat, k: nat, m: Index) {
    && s < |segments| && k <= |segments[s]|
    && m == Replay(map[], Flatten(segments[..s]) + segments[s][..k])
  }

  ghost predicate CheckpointsOk(w: Wal) {
    forall s :: s in w.checkpoints ==> exists k :: CheckpointOk(w.segments, s, k, w.checkpoints[s])
  }

  ghost predicate WalInv(w: Wal) {
    && w.segments != [] && w.index == Replay(map[], Flatten(w.segments) + w.buffer) && CheckpointsOk(w)
  }

  lemma {:induction false} FlattenInTwo(a: seq<seq<Op>>, b: seq<seq<Op>>)
    ensures Flatten(a + b) == Flatten(a) + Flatten(b)
    decreases |a|
  {
    if a == [] {
      assert a + b == b;
    } else {
      assert (a + b)[0] == a[0] && (a + b)[1..] == a[1..] + b;
      FlattenInTwo(a[1..], b);
    }
  }

  lemma FlattenOne(a: seq<Op>)
    ensures Flatten([a]) == a
  {
    assert [a][1..] == [];
    assert a + [] == a;
  }

  lemma FlattenAt(segments: seq<seq<Op>>, s: nat)
    requires s < |segments|
    ensures Flatten(segments) == Flatten(segments[..s]) + segments[s] + Flatten(segments[s + 1..])
    ensures Flatten(segments[s..]) == segments[s] + Flatten(segments[s + 1..])
  {
    assert segments == segments[..s] + segments[s..];
    assert segments[s..][1..] == segments[s + 1..];
    FlattenInTwo(segments[..s], segments[s..]);
    var a, b := Flatten(segments[..s]), Flatten(segments[s + 1..]);
    assert a + (segments[s] + b) == a + segments[s] + b;
  }

  lemma FlattenExtend(segments: seq<seq<Op>>, ops: seq<Op>)
    requires segments != []
    ensures Flatten(Extend(segments, ops)) == Flatten(segments) + ops
  {
    var s, e := |segments| - 1, Extend(segments, ops);
    FlattenAt(segments, s);
    FlattenAt(e, s);
    assert e[..s] == segments[..s] && e[s + 1..] == [] && segments[s + 1..] == [];
    assert Flatten(segments[..s]) + (segments[s] + ops) + [] == Flatten(segments[..s]) + segments[s] + [] + ops;
  }

  /** Checkpoint plus rescan of its own segment from the first record equals full replay. */
  lemma CheckpointRescanIsFullReplay(segments: seq<seq<Op>>, s: nat, k: nat, m: Index)
    requires CheckpointOk(segments, s, k, m)
    ensures Replay(m, Flatten(segments[s..])) == Replay(map[], Flatten(segments))
  {
    var before, block, after := Flatten(segments[..s]), segments[s], Flatten(segments[s + 1..]);
    var base: Index := Replay(map[], before);
    FlattenAt(segments, s);
    ReplayInTwo(map[], before, block[..k]);
    ReplayInTwo(m, block, after);
    ReplayAbsorbsPrefix(base, block, k);
    ReplayInTwo(map[], before, block);
    ReplayInTwo(map[], before + block, after);
  }

  lemma RecoveryIsFullReplay(w: Wal, segments: seq<seq<Op>>, load: Option<nat>)
    requires CheckpointsOk(w.(segments := segments))
    requires load.Some? ==> load.value in w.checkpoints && load.value < |segments|
    ensures Recovered(segments, w.checkpoints, load) == Replay(map[], Flatten(segments))
  {
    if load.Some? {
      var s := load.value;
      var k :| CheckpointOk(segments, s, k, w.checkpoints[s]);
      CheckpointRescanIsFullReplay(segments, s, k, w.checkpoints[s]);
    }
  }

  /** A checkpoint stays good as its segment grows and further segments follow. */
  lemma GrowthKeepsCheckpoint(segments: seq<seq<Op>>, segments': seq<seq<Op>>, s: nat, k: nat, m: Index)
    requires CheckpointOk(segments, s, k, m)
    requires |segments| <= |segments'| && forall t :: 0 <= t < |segments| ==> segments[t] <= segments'[t]
    requires forall t :: 0 <= t < |segments| - 1 ==> segments[t] == segments'[t]
    ensures CheckpointOk(segments', s, k, m)
  {
    assert segments'[..s] == segments[..s];
    assert segments'[s][..k] == segments[s][..k];
  }

  lemma GrowthKeepsCheckpoints(w: Wal, w': Wal)
    requires CheckpointsOk(w) && w'.checkpoints == w.checkpoints
    requires |w.segments| <= |w'.segments| && forall t :: 0 <= t < |w.segments| ==> w.segments[t] <= w'.segments[t]
    requires forall t :: 0 <= t < |w.segments| - 1 ==> w.segments[t] == w'.segments[t]
    ensures CheckpointsOk(w')
  {
    forall s | s in w'.checkpoints ensures exists k :: CheckpointOk(w'.segments, s, k, w'.checkpoints[s]) {
      var k :| CheckpointOk(w.segments, s, k, w.checkpoints[s]);
      GrowthKeepsCheckpoint(w.segments, w'.segments, s, k, w.checkpoints[s]);
    }
  }

  lemma FlushKeepsInv(w: Wal)
    requires WalInv(w)
    ensures WalInv(Flushed(w)) && Flatten(Flushed(w).segments) == Flatten(w.segments) + w.buffer
  {
    FlattenExtend(w.segments, w.buffer);
    GrowthKeepsCheckpoints(w, Flushed(w));
    assert Flatten(Flushed(w).segments) + [] == Flatten(Flushed(w).segments);
  }

  lemma RotateKeepsInv(w: Wal)
    requires WalInv(w) && w.buffer == []
    ensures WalInv(w.(segments := w.segments + [[]]))
  {
    FlattenInTwo(w.segments, [[]]);
    FlattenOne([]);
    assert Flatten(w.segments) + [] == Flatten(w.segments);
    GrowthKeepsCheckpoints(w, w.(segments := w.segments + [[]]));
  }

  lemma RecordKeepsInv(w: Wal, op: Op)
    requires WalInv(w)
    ensures WalInv(w.(buffer := w.buffer + [op], index := Apply(w.index, op)))
  {
    var all := Flatten(w.segments) + w.buffer;
    ReplayInTwo(map[], all, [op]);
    assert Replay(w.index, [op]) == Apply(w.index, op) by {
      assert [op][1..] == [];
    }
    assert Flatten(w.segments) + (w.buffer + [op]) == all + [op];
  }

  lemma FreshCheckpointOk(w: Wal)
    requires WalInv(w) && w.buffer == []
    ensures var s := |w.segments| - 1; CheckpointOk(w.segments, s, |w.segments[s]|, w.index)
  {
    var s := |w.segments| - 1;
    FlattenAt(w.segments, s);
    assert w.segments[s + 1..] == [] && w.segments[s][..|w.segments[s]|] == w.segments[s];
    assert Flatten(w.segments) + [] == Flatten(w.segments[..s]) + w.segments[s];
  }

  lemma CheckpointKeepsInv(w: Wal)
    requires WalInv(w) && w.buffer == []
    ensures WalInv(w.(checkpoints := w.checkpoints[|w.segments| - 1 := w.index]))
  {
    var s := |w.segments| - 1;
    FreshCheckpointOk(w);
    var w' := w.(checkpoints := w.checkpoints[s := w.index]);
    forall t | t in w'.checkpoints ensures exists k :: CheckpointOk(w'.segments, t, k, w'.checkpoints[t]) {
      if t != s {
        var k :| CheckpointOk(w.segments, t, k, w.checkpoints[t]);
        assert CheckpointOk(w'.segments, t, k, w'.checkpoints[t]);
      }
    }
  }

  lemma CrashKeepsInv(w: Wal, kept: nat, load: Option<nat>)
    requires WalInv(w) && Enabled(w, Crash(kept, load))
    ensures WalInv(Next(w, Crash(kept, load)))
  {
    var w' := Next(w, Crash(kept, load));
    GrowthKeepsCheckpoints(w, w');
    RecoveryIsFullReplay(w, w'.segments, load);
    assert Flatten(w'.segments) + [] == Flatten(w'.segments);
  }

  lemma StepKeepsInv(w: Wal, step: Step)
    requires WalInv(w) && Enabled(w, step)
    ensures WalInv(Next(w, step))
  {
    match step
    case Append(op, rotate) =>
      if rotate {
        FlushKeepsInv(w);
        RotateKeepsInv(Flushed(w));
        RecordKeepsInv(Flushed(w).(segments := Flushed(w).segments + [[]]), op);
      } else {
        RecordKeepsInv(w, op);
      }
    case Flush => FlushKeepsInv(w);
    case Sync(checkpoint) =>
      FlushKeepsInv(w);
      CheckpointKeepsInv(Flushed(w));
    case Crash(kept, load) => CrashKeepsInv(w, kept, load);
  }

  // ---------- histories ----------

  predicate History(states: seq<Wal>, steps: seq<Step>) {
    && |states| == |steps| + 1 && states[0] == FRESH
    && (forall k :: 0 <= k < |steps| ==> Enabled(states[k], steps[k]) && states[k + 1] == Next(states[k], steps[k]))
  }

  lemma {:induction false} HistoryKeepsInv(states: seq<Wal>, steps: seq<Step>, k: nat)
    requires History(states, steps) && k < |states|
    ensures WalInv(states[k])
  {
    if k == 0 {
      FlattenOne([]);
    } else {
      HistoryKeepsInv(states, steps, k - 1);
      StepKeepsInv(states[k - 1], steps[k - 1]);
    }
  }

  /**
   * In every history of appends, truncations, rotations, syncs and crashes, the index after
   * each recovery is the replay of every flushed record from empty, whichever checkpoint loaded.
   */
  lemma RecoveryEqualsFullReplay(states: seq<Wal>, steps: seq<Step>, k: nat)
    requires History(states, steps) && 0 < k < |states| && steps[k - 1].Crash?
    ensures states[k].index == Replay(map[], Flatten(states[k].segments))
  {
    HistoryKeepsInv(states, steps, k);
    assert Flatten(states[k].segments) + [] == Flatten(states[k].segments);
  }

  /** A crash right after a sync loses nothing. */
  lemma SyncedSurvivesCrash(states: seq<Wal>, steps: seq<Step>, k: nat)
    requires History(states, steps) && 0 < k < |steps| && steps[k - 1].Sync? && steps[k].Crash?
    ensures states[k + 1].index == states[k].index && states[k + 1].segments == states[k].segments
  {
    HistoryKeepsInv(states, steps, k);
    RecoveryEqualsFullReplay(states, steps, k + 1);
    assert states[k].buffer == [];
    var last := states[k].segments[|states[k].segments| - 1];
    assert last + [] == last;
    assert states[k].segments[|states[k].segments| - 1 := last] == states[k].segments;
    assert Flatten(states[k].segments) + [] == Flatten(states[k].segments);
  }
}
