/**
 * What a power failure may take. `Sync` forces out the active segment only; a rotation
 * closes its segment with a plain flush, and no later sync reaches a closed segment.
 */
module WalDurability {

  import opened RaftTypes
  import opened WalIndexes
  import opened WalRecovery
  import WalStores

  /** The log and, segment by segment, how many of its records were forced to the device. */
  datatype Media = Media(wal: Wal, synced: seq<nat>)

  function Active(d: Media): nat
    requires d.wal.segments != []
  {
    |d.wal.segments| - 1
  }

  predicate Rotates(step: Step) {
    step.Append? && step.rotate
  }

  predicate Sized(d: Media) {
    && d.wal.segments != [] && |d.synced| == |d.wal.segments|
    && (forall s :: 0 <= s < |d.synced| ==> d.synced[s] <= |d.wal.segments[s]|)
  }

  function After(d: Media, step: Step): Media
    requires Sized(d) && Enabled(d.wal, step)
  {
    var w := Next(d.wal, step);
    if Rotates(step) then Media(w, d.synced + [0])
    else if step.Sync? then Media(w, d.synced[Active(d) := |w.segments[Active(d)]|])
    else Media(w, d.synced)
  }

  const BLANK := Media(FRESH, [0])

  predicate Traced(states: seq<Media>, steps: seq<Step>) {
    && |states| == |steps| + 1 && states[0] == BLANK
    && (forall k :: 0 <= k < |steps| ==>
          Sized(states[k]) && Enabled(states[k].wal, steps[k]) && states[k + 1] == After(states[k], steps[k]))
  }

  // ---------- power failures ----------

  /** Each segment may keep any prefix that includes what was forced out. */
  predicate MayKeep(d: Media, kept: seq<nat>) {
    && Sized(d) && |kept| == |d.synced|
    && (forall s :: 0 <= s < |kept| ==> d.synced[s] <= kept[s] <= |d.wal.segments[s]|)
  }

  function Survivors(d: Media, kept: seq<nat>): seq<seq<Op>>
    requires MayKeep(d, kept)
  {
    seq(|kept|, s requires 0 <= s < |kept| => d.wal.segments[s][..kept[s]])
  }

  ghost predicate LosesNothing(d: Media) {
    forall kept :: MayKeep(d, kept) ==> Survivors(d, kept) == d.wal.segments
  }

  predicate ClosedSynced(d: Media)
    requires Sized(d)
  {
    forall s :: 0 <= s < Active(d) ==> d.synced[s] == |d.wal.segments[s]|
  }

  predicate ActiveSynced(d: Media)
    requires Sized(d)
  {
    d.synced[Active(d)] == |d.wal.segments[Active(d)]|
  }

  /** Nothing buffered and nothing written that was not forced out. */
  predicate Settled(d: Media)
    requires Sized(d)
  {
    d.wal.buffer == [] && ActiveSynced(d)
  }

  lemma LosesNothingIffSynced(d: Media)
    requires Sized(d)
    ensures LosesNothing(d) <==> ClosedSynced(d) && ActiveSynced(d)
  {
    if LosesNothing(d) {
      assert MayKeep(d, d.synced);
      forall s | 0 <= s < |d.synced| ensures d.synced[s] == |d.wal.segments[s]| {
        assert Survivors(d, d.synced)[s] == d.wal.segments[s][..d.synced[s]];
      }
    }
    if ClosedSynced(d) && ActiveSynced(d) {
      forall kept | MayKeep(d, kept) ensures Survivors(d, kept) == d.wal.segments {
        forall s | 0 <= s < |kept| ensures Survivors(d, kept)[s] == d.wal.segments[s] {
          assert d.synced[s] <= kept[s] <= |d.wal.segments[s]|;
        }
      }
    }
  }

  // ---------- one step ----------

  /** Segments and forced prefixes only grow, and a step leaves closed segments alone. */
  predicate Grew(d: Media, d': Media) {
    && Sized(d) && Sized(d') && |d.synced| <= |d'.synced|
    && (forall s :: 0 <= s < |d.synced| ==> d.wal.segments[s] <= d'.wal.segments[s] && d.synced[s] <= d'.synced[s])
  }

  lemma StepGrows(d: Media, step: Step)
    requires Sized(d) && Enabled(d.wal, step)
    ensures Grew(d, After(d, step))
    ensures forall s :: 0 <= s < Active(d) ==>
              After(d, step).wal.segments[s] == d.wal.segments[s] && After(d, step).synced[s] == d.synced[s]
  {
  }

  /** A rotation leaves the closed segments forced out exactly when it found nothing pending. */
  lemma StepKeepsClosedSynced(d: Media, step: Step)
    requires Sized(d) && Enabled(d.wal, step)
    ensures Sized(After(d, step))
    ensures ClosedSynced(After(d, step)) <==> ClosedSynced(d) && (Rotates(step) ==> Settled(d))
  {
    var d' := After(d, step);
    StepGrows(d, step);
    if Rotates(step) {
      assert d'.wal.segments[Active(d)] == d.wal.segments[Active(d)] + d.wal.buffer;
      assert Active(d') == Active(d) + 1;
    } else {
      assert Active(d') == Active(d);
    }
  }

  predicate RotationsSettled(states: seq<Media>, steps: seq<Step>, k: nat)
    requires Traced(states, steps) && k <= |steps|
  {
    forall j :: 0 <= j < k && Rotates(steps[j]) ==> Settled(states[j])
  }

  lemma OneStepOn(states: seq<Media>, steps: seq<Step>, k: nat)
    requires Traced(states, steps) && k < |steps|
    ensures Sized(states[k]) && Enabled(states[k].wal, steps[k]) && states[k + 1] == After(states[k], steps[k])
    ensures RotationsSettled(states, steps, k + 1)
       <==> RotationsSettled(states, steps, k) && (Rotates(steps[k]) ==> Settled(states[k]))
  {
    if RotationsSettled(states, steps, k) && (Rotates(steps[k]) ==> Settled(states[k])) {
      forall j | 0 <= j < k + 1 && Rotates(steps[j]) ensures Settled(states[j]) {
      }
    }
  }

  lemma {:induction false} ClosedSyncedIff(states: seq<Media>, steps: seq<Step>, k: nat)
    requires Traced(states, steps) && k < |states|
    ensures Sized(states[k]) && (ClosedSynced(states[k]) <==> RotationsSettled(states, steps, k))
  {
    if k > 0 {
      ClosedSyncedIff(states, steps, k - 1);
      OneStepOn(states, steps, k - 1);
      StepKeepsClosedSynced(states[k - 1], steps[k - 1]);
    }
  }

  // ---------- histories ----------

  /**
   * Right after a sync a power failure takes nothing exactly when every rotation so far
   * found an empty buffer and a forced-out segment.
   */
  lemma SyncIsDurableIff(states: seq<Media>, steps: seq<Step>, k: nat)
    requires Traced(states, steps) && 0 < k < |states| && steps[k - 1].Sync?
    ensures LosesNothing(states[k]) <==> RotationsSettled(states, steps, k)
  {
    ClosedSyncedIff(states, steps, k);
    LosesNothingIffSynced(states[k]);
    assert Active(states[k]) == Active(states[k - 1]);
  }

  lemma {:induction false} HistoryGrows(states: seq<Media>, steps: seq<Step>, j: nat, k: nat)
    requires Traced(states, steps) && j <= k < |states|
    ensures Grew(states[j], states[k])
    decreases k - j
  {
    ClosedSyncedIff(states, steps, j);
    if j < k {
      StepGrows(states[j], steps[j]);
      HistoryGrows(states, steps, j + 1, k);
    }
  }

  /** What could not be lost at one time cannot be lost at any later time. */
  lemma DurableStaysDurable(states: seq<Media>, steps: seq<Step>, j: nat, k: nat, kept: seq<nat>)
    requires Traced(states, steps) && j <= k < |states| && LosesNothing(states[j]) && MayKeep(states[k], kept)
    ensures |states[j].wal.segments| <= |Survivors(states[k], kept)|
    ensures forall s :: 0 <= s < |states[j].wal.segments| ==> states[j].wal.segments[s] <= Survivors(states[k], kept)[s]
  {
    HistoryGrows(states, steps, j, k);
    LosesNothingIffSynced(states[j]);
    forall s | 0 <= s < |states[j].wal.segments|
      ensures states[j].wal.segments[s] <= Survivors(states[k], kept)[s]
    {
      assert states[j].synced[s] <= states[k].synced[s] <= kept[s];
    }
  }

  // ---------- a full segment, a rotation, a sync ----------

  lemma {:induction false} Fill(n: nat) returns (states: seq<Media>, steps: seq<Step>)
    ensures Traced(states, steps) && |steps| == n && forall k :: 0 <= k < n ==> steps[k].Append? && !Rotates(steps[k])
    ensures states[n].wal.segments == [[]] && states[n].synced == [0] && |states[n].wal.buffer| == n
  {
    if n == 0 {
      states, steps := [BLANK], [];
    } else {
      states, steps := Fill(n - 1);
      states, steps := Extended(states, steps, Append(Put(n, Location(1, 0, 0)), false));
    }
  }

  lemma Extended(states: seq<Media>, steps: seq<Step>, step: Step) returns (states': seq<Media>, steps': seq<Step>)
    requires Traced(states, steps) && Sized(states[|steps|]) && Enabled(states[|steps|].wal, step)
    ensures Traced(states', steps') && steps' == steps + [step]
    ensures states' == states + [After(states[|steps|], step)]
  {
    states', steps' := states + [After(states[|steps|], step)], steps + [step];
    forall k | 0 <= k < |steps'|
      ensures Sized(states'[k]) && Enabled(states'[k].wal, steps'[k]) && states'[k + 1] == After(states'[k], steps'[k])
    {
      assert states'[k] == states[k];
    }
  }

  /** A segment filled without a sync is closed unforced; the next sync reports success all the same. */
  lemma RotationLeavesRecordsBehind() returns (states: seq<Media>, steps: seq<Step>, kept: seq<nat>)
    ensures Traced(states, steps) && |steps| == WalStores.MAX_SEGMENT_ENTRIES + 2 && steps[|steps| - 1] == Sync(false)
    ensures forall k :: 0 <= k < |steps| ==> (Rotates(steps[k]) <==> k == WalStores.MAX_SEGMENT_ENTRIES)
    ensures var d := states[|steps|];
            MayKeep(d, kept) && |d.wal.segments[0]| == WalStores.MAX_SEGMENT_ENTRIES && Survivors(d, kept)[0] == []
  {
    var n := WalStores.MAX_SEGMENT_ENTRIES;
    states, steps := Fill(n);
    var full := states[n];
    states, steps := Extended(states, steps, Append(Put(n + 1, Location(2, 0, 0)), true));
    var rotated := states[n + 1];
    assert rotated.wal.segments == [[] + full.wal.buffer, []] && rotated.synced == [0, 0];
    states, steps := Extended(states, steps, Sync(false));
    kept := [0, 1];
    var d := states[n + 2];
    assert rotated.wal.segments[1] + rotated.wal.buffer == rotated.wal.buffer && |rotated.wal.buffer| == 1;
    assert [] + full.wal.buffer == full.wal.buffer;
    assert d.wal.segments == [full.wal.buffer, rotated.wal.buffer] && d.synced == [0, 1];
  }

  // ---------- recovery from what a power failure left ----------

  /**
   * A checkpoint and a rescan from its segment give the full replay of what survived exactly when the
   * checkpoint disagrees with the surviving older segments only where the rescan has the last word.
   */
  lemma RecoversSurvivorsIff(survivors: seq<seq<Op>>, s: nat, m: Index)
    requires s < |survivors|
    ensures Replay(m, Flatten(survivors[s..])) == Replay(map[], Flatten(survivors))
       <==> forall i: nat :: Touched(Flatten(survivors[s..]), i)
                             || SameAt(m, Replay(map[], Flatten(survivors[..s])), i)
  {
    var rescan, older: Index := Flatten(survivors[s..]), Replay(map[], Flatten(survivors[..s]));
    assert survivors == survivors[..s] + survivors[s..];
    FlattenInTwo(survivors[..s], survivors[s..]);
    ReplayInTwo(map[], Flatten(survivors[..s]), rescan);
    if Replay(m, rescan) == Replay(older, rescan) {
      forall i: nat | !Touched(rescan, i) ensures SameAt(m, older, i) {
        UntouchedStays(m, rescan, i);
        UntouchedStays(older, rescan, i);
      }
    }
    if forall i: nat :: Touched(rescan, i) || SameAt(m, older, i) {
      forall i: nat ensures SameAt(Replay(m, rescan), Replay(older, rescan), i) {
        LastTouchDecides(m, older, rescan, i);
      }
      SameEverywhere(Replay(m, rescan), Replay(older, rescan));
    }
  }

  /** A checkpoint covers forced-out records of its own segment only. */
  predicate CoversSynced(d: Media, s: nat, k: nat)
    requires Sized(d) && s in d.wal.checkpoints
  {
    s < |d.synced| && k <= d.synced[s] && CheckpointOk(d.wal.segments, s, k, d.wal.checkpoints[s])
  }

  ghost predicate CheckpointsSynced(d: Media)
    requires Sized(d)
  {
    forall s :: s in d.wal.checkpoints ==> exists k :: CoversSynced(d, s, k)
  }

  lemma GrowthKeepsSynced(d: Media, d': Media, s: nat)
    requires Grew(d, d') && CheckpointsSynced(d) && s in d.wal.checkpoints && s in d'.wal.checkpoints
    requires d'.wal.checkpoints[s] == d.wal.checkpoints[s]
    requires forall t :: 0 <= t < Active(d) ==> d'.wal.segments[t] == d.wal.segments[t]
    ensures exists k :: CoversSynced(d', s, k)
  {
    var k :| CoversSynced(d, s, k);
    GrowthKeepsCheckpoint(d.wal.segments, d'.wal.segments, s, k, d.wal.checkpoints[s]);
    assert CoversSynced(d', s, k);
  }

  lemma NewCheckpointSynced(d: Media, checkpoint: bool)
    requires Sized(d) && WalInv(d.wal) && Enabled(d.wal, Sync(checkpoint))
    requires After(d, Sync(checkpoint)).wal.checkpoints != d.wal.checkpoints
    ensures var d', s := After(d, Sync(checkpoint)), Active(d);
            && Sized(d') && d'.wal.checkpoints == d.wal.checkpoints[s := d'.wal.index]
            && CoversSynced(d', s, |d'.wal.segments[s]|)
  {
    FlushKeepsInv(d.wal);
    FreshCheckpointOk(Flushed(d.wal));
  }

  lemma StepKeepsSynced(d: Media, step: Step)
    requires Sized(d) && WalInv(d.wal) && CheckpointsSynced(d) && Enabled(d.wal, step)
    ensures Sized(After(d, step)) && CheckpointsSynced(After(d, step))
  {
    var d' := After(d, step);
    StepGrows(d, step);
    if d'.wal.checkpoints != d.wal.checkpoints {
      NewCheckpointSynced(d, step.checkpoint);
    }
    forall s | s in d'.wal.checkpoints ensures exists k :: CoversSynced(d', s, k) {
      if s in d.wal.checkpoints && d'.wal.checkpoints[s] == d.wal.checkpoints[s] {
        GrowthKeepsSynced(d, d', s);
      }
    }
  }

  lemma {:induction false} HistoryKeepsSynced(states: seq<Media>, steps: seq<Step>, k: nat)
    requires Traced(states, steps) && k < |states|
    ensures Sized(states[k]) && WalInv(states[k].wal) && CheckpointsSynced(states[k])
  {
    if k == 0 {
      FlattenOne([]);
    } else {
      HistoryKeepsSynced(states, steps, k - 1);
      StepKeepsInv(states[k - 1].wal, steps[k - 1]);
      StepKeepsSynced(states[k - 1], steps[k - 1]);
    }
  }

  lemma SurvivingCheckpoint(d: Media, kept: seq<nat>, s: nat, k: nat)
    requires MayKeep(d, kept) && s in d.wal.checkpoints && CoversSynced(d, s, k)
    requires forall t :: 0 <= t < s ==> d.synced[t] == |d.wal.segments[t]|
    ensures CheckpointOk(Survivors(d, kept), s, k, d.wal.checkpoints[s])
  {
    var survivors := Survivors(d, kept);
    forall t | 0 <= t < s ensures survivors[t] == d.wal.segments[t] {
      assert d.synced[t] <= kept[t] <= |d.wal.segments[t]|;
    }
    assert survivors[..s] == d.wal.segments[..s];
    assert d.synced[s] <= kept[s] && survivors[s][..k] == d.wal.segments[s][..k];
  }

  /**
   * While every rotation found an empty buffer and a forced-out segment, recovery after any power
   * failure is the full replay of what survived, whichever checkpoint loads.
   */
  lemma RecoversAfterPowerFailure(states: seq<Media>, steps: seq<Step>, n: nat, kept: seq<nat>, load: Option<nat>)
    requires Traced(states, steps) && n < |states| && RotationsSettled(states, steps, n) && MayKeep(states[n], kept)
    requires load.Some? ==> load.value in states[n].wal.checkpoints && load.value < |kept|
    ensures Recovered(Survivors(states[n], kept), states[n].wal.checkpoints, load)
         == Replay(map[], Flatten(Survivors(states[n], kept)))
  {
    var d := states[n];
    ClosedSyncedIff(states, steps, n);
    HistoryKeepsSynced(states, steps, n);
    if load.Some? {
      var s := load.value;
      var k :| CoversSynced(d, s, k);
      SurvivingCheckpoint(d, kept, s, k);
      CheckpointRescanIsFullReplay(Survivors(d, kept), s, k, d.wal.checkpoints[s]);
    }
  }

  // ---------- a checkpoint that outlives a record ----------

  const ONE := Put(1, Location(1, 16, 10))
  const TWO := Put(2, Location(2, 16, 10))
  const BOTH: Index := map[1 := ONE.loc, 2 := TWO.loc]

  const PENDING := Media(Wal([[]], [ONE], map[1 := ONE.loc], map[]), [0])
  const ROTATED := Media(Wal([[ONE], []], [TWO], BOTH, map[]), [0, 0])
  const CHECKED := Media(Wal([[ONE], [TWO]], [], BOTH, map[1 := BOTH]), [0, 1])

  lemma ThreeSteps()
    ensures After(BLANK, Append(ONE, false)) == PENDING && After(PENDING, Append(TWO, true)) == ROTATED
    ensures After(ROTATED, Sync(true)) == CHECKED
  {
    assert [] + [ONE] == [ONE] && [] + [TWO] == [TWO];
    assert [[]][0 := [ONE]] + [[]] == [[ONE], []];
    assert [[ONE], []][1 := [TWO]] == [[ONE], [TWO]] && [0, 0][1 := 1] == [0, 1];
    assert map[1 := ONE.loc][2 := TWO.loc] == BOTH;
  }

  lemma OnlyTwoSurvives()
    ensures MayKeep(CHECKED, [0, 1]) && Survivors(CHECKED, [0, 1]) == [[], [TWO]]
    ensures Recovered([[], [TWO]], CHECKED.wal.checkpoints, Some(1)) == BOTH
    ensures Replay(map[], Flatten([[], [TWO]])) == map[2 := TWO.loc]
  {
    var left := [[], [TWO]];
    assert left[1..] == [[TWO]] && [TWO][1..] == [] && [ONE][..0] == [] && [TWO][..1] == [TWO];
    FlattenOne([TWO]);
    assert Flatten(left) == [] + Flatten(left[1..]) && [] + [TWO] == [TWO];
    ReplayOne(map[], TWO);
    ReplayOne(BOTH, TWO);
    assert BOTH[2 := TWO.loc] == BOTH;
  }

  lemma ReplayOne(m: Index, op: Op)
    ensures Replay(m, [op]) == Apply(m, op)
  {
    assert [op][1..] == [];
  }

  /** An append, a rotation over it, a sync with a checkpoint, a power failure: the index points at a lost record. */
  lemma CheckpointOutlivesRecord() returns (states: seq<Media>, steps: seq<Step>, kept: seq<nat>)
    ensures Traced(states, steps) && |steps| == 3 && MayKeep(states[3], kept)
    ensures 1 in states[3].wal.checkpoints && 1 < |kept|
    ensures 1 in Recovered(Survivors(states[3], kept), states[3].wal.checkpoints, Some(1))
    ensures 1 !in Replay(map[], Flatten(Survivors(states[3], kept)))
  {
    ThreeSteps();
    OnlyTwoSurvives();
    states, steps := Extended([BLANK], [], Append(ONE, false));
    states, steps := Extended(states, steps, Append(TWO, true));
    states, steps := Extended(states, steps, Sync(true));
    kept := [0, 1];
  }
}
