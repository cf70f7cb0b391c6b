/**
 * The log persister on top of the write-ahead log: each entry of a batch becomes a record, a
 * sync forces out the active segment, and rotations happen in between. Which entries that were
 * acknowledged as durable does a power failure take?
 */
module AckDurability {

  import opened RaftTypes
  import opened GroupCommits
  import opened WalDurability
  import opened WalIndexes

  import P = LogPersistence
  import W = WalRecovery
  import WalStores

  /** A record's place: its segment and how many records lie before it there. */
  datatype Place = Place(segment: nat, record: nat)

  datatype Logged = Logged(place: Place, op: Op)

  /** `stored`: how many of the batch in hand are in the log; `forced`: the log was synced since a sync started. */
  datatype Joint = Joint(s: P.State, d: Media, stored: nat, log: map<Callback, Logged>, forced: bool)

  datatype Event =
    | Persist(step: P.Step)
    | Store(op: Op, rotate: bool)       // the next entry of the batch
    | Other(op: Op, rotate: bool)       // some other record, a truncation for one
    | Spill                             // the write buffer reached its watermark, or someone reads
    | Force(checkpoint: bool)

  // ---------- places ----------

  /** The log's records of a segment, buffered ones included. */
  function RecordsIn(d: Media, segment: nat): seq<Op>
    requires Sized(d) && segment <= Active(d)
  {
    if segment == Active(d) then d.wal.segments[segment] + d.wal.buffer else d.wal.segments[segment]
  }

  predicate Held(d: Media, place: Place) {
    Sized(d) && place.segment <= Active(d) && place.record < |RecordsIn(d, place.segment)|
  }

  predicate HoldsAt(d: Media, e: Logged) {
    Held(d, e.place) && RecordsIn(d, e.place.segment)[e.place.record] == e.op
  }

  predicate IsForced(d: Media, place: Place)
    requires Held(d, place)
  {
    place.record < d.synced[place.segment]
  }

  /** In the active segment and not forced out. */
  predicate Pending(d: Media, place: Place)
    requires Held(d, place)
  {
    !IsForced(d, place) && place.segment == Active(d)
  }

  /** No power failure takes the record. */
  ghost predicate Survives(d: Media, e: Logged) {
    forall kept :: MayKeep(d, kept) ==>
      && e.place.segment < |kept| && e.place.record < |Survivors(d, kept)[e.place.segment]|
      && Survivors(d, kept)[e.place.segment][e.place.record] == e.op
  }

  lemma SurvivesIffForced(d: Media, e: Logged)
    requires HoldsAt(d, e)
    ensures Survives(d, e) <==> IsForced(d, e.place)
  {
    if Survives(d, e) {
      assert MayKeep(d, d.synced);
    }
    if IsForced(d, e.place) {
      forall kept | MayKeep(d, kept)
        ensures e.place.segment < |kept| && e.place.record < |Survivors(d, kept)[e.place.segment]|
        ensures Survivors(d, kept)[e.place.segment][e.place.record] == e.op
      {
        assert d.synced[e.place.segment] <= kept[e.place.segment];
      }
    }
  }

  /** Steps of the log while the process is up. */
  predicate Runs(d: Media, step: W.Step) {
    Sized(d) && W.Enabled(d.wal, step) && !step.Crash?
  }

  lemma RecordsGrow(d: Media, step: W.Step, segment: nat)
    requires Runs(d, step) && segment <= Active(d)
    ensures Sized(After(d, step)) && segment <= Active(After(d, step))
    ensures RecordsIn(d, segment) <= RecordsIn(After(d, step), segment)
  {
    StepGrows(d, step);
  }

  lemma HeldStays(d: Media, step: W.Step, e: Logged)
    requires Runs(d, step) && HoldsAt(d, e)
    ensures HoldsAt(After(d, step), e)
  {
    RecordsGrow(d, step, e.place.segment);
  }

  /** What a step makes of a record: forced out by a sync of its segment, left behind by a rotation. */
  lemma FateOfRecord(d: Media, step: W.Step, place: Place)
    requires Runs(d, step) && Held(d, place)
    ensures Held(After(d, step), place)
    ensures IsForced(After(d, step), place) <==> IsForced(d, place) || (step.Sync? && Pending(d, place))
    ensures Pending(After(d, step), place) <==> Pending(d, place) && !step.Sync? && !Rotates(step)
  {
    RecordsGrow(d, step, place.segment);
    StepGrows(d, step);
  }

  /** Where the next record goes. */
  function NextPlace(d: Media, rotate: bool): Place
    requires Sized(d)
  {
    if rotate then Place(Active(d) + 1, 0) else Place(Active(d), |RecordsIn(d, Active(d))|)
  }

  /** An appended record goes there, is pending, and was not there before. */
  lemma AppendedIsPending(d: Media, op: Op, rotate: bool)
    requires Runs(d, W.Append(op, rotate))
    ensures var d', place := After(d, W.Append(op, rotate)), NextPlace(d, rotate);
            HoldsAt(d', Logged(place, op)) && Pending(d', place) && !Held(d, place)
  {
    StepGrows(d, W.Append(op, rotate));
  }

  // ---------- the two together ----------

  const BLANKS := Joint(P.INIT, BLANK, 0, map[], false)

  function LogStep(e: Event): Option<W.Step> {
    match e
    case Persist(_) => None
    case Store(op, rotate) => Some(W.Append(op, rotate))
    case Other(op, rotate) => Some(W.Append(op, rotate))
    case Spill => Some(W.Flush)
    case Force(checkpoint) => Some(W.Sync(checkpoint))
  }

  /** A write that fails stops behind what it stored; a sync reports success after the log was synced. */
  predicate StepFits(j: Joint, step: P.Step) {
    match step
    case NoSpace => j.stored == 0
    case WriteSucceeds => j.s.flusher.Taken? && j.stored == |j.s.flusher.batch|
    case WriteFails(reached) =>
      j.s.flusher.Taken? && j.stored <= |j.s.flusher.batch| && reached == P.Ids(j.s.flusher.batch[..j.stored])
    case InlineSyncEnds(ok) => ok ==> j.forced
    case SyncEnds(ok) => ok ==> j.forced
    case _ => true
  }

  predicate Enabled(grouped: bool, j: Joint, e: Event) {
    match e
    case Persist(step) => P.Enabled(grouped, j.s, step) && StepFits(j, step)
    case Store(_, _) => Runs(j.d, LogStep(e).value) && j.s.flusher.Taken? && j.stored < |j.s.flusher.batch|
    case _ => Runs(j.d, LogStep(e).value)
  }

  function Next(grouped: bool, j: Joint, e: Event): Joint
    requires Enabled(grouped, j, e)
  {
    match e
    case Persist(step) =>
      j.(s := P.Next(grouped, j.s, step),
         stored := if step.Take? || step.NoSpace? || step.WriteFails? || step.WriteSucceeds? then 0 else j.stored,
         forced := if step.SyncStarts? || step.InlineSyncStarts? then false else j.forced)
    case Store(op, rotate) =>
      j.(d := After(j.d, W.Append(op, rotate)), stored := j.stored + 1,
         log := j.log[j.s.flusher.batch[j.stored].id := Logged(NextPlace(j.d, rotate), op)])
    case Other(op, rotate) => j.(d := After(j.d, W.Append(op, rotate)))
    case Spill => j.(d := After(j.d, W.Flush))
    case Force(checkpoint) => j.(d := After(j.d, W.Sync(checkpoint)), forced := true)
  }

  // ---------- entries on their way are not acknowledged ----------

  /** Waiting for a sync, or told OK. */
  predicate Claimed(s: P.State, x: Callback) {
    x in Callbacks(s.controller.pending) || P.Outcome(x, true) in s.fired
  }

  predicate Distinct(items: seq<P.Item>) {
    forall i, k :: 0 <= i < k < |items| ==> items[i].id != items[k].id
  }

  predicate NoneClaimed(s: P.State, items: seq<P.Item>) {
    forall i :: 0 <= i < |items| ==> !Claimed(s, items[i].id)
  }

  ghost predicate Fresh(s: P.State) {
    && Distinct(P.Backlog(s)) && P.BacklogOk(s) && NoneClaimed(s, P.Backlog(s))
    && (forall x: Callback :: Claimed(s, x) ==> x < s.appended)
  }

  predicate SameIds(a: seq<P.Item>, b: seq<P.Item>) {
    |a| == |b| && forall i :: 0 <= i < |a| ==> a[i].id == b[i].id
  }

  lemma DistinctParts(a: seq<P.Item>, b: seq<P.Item>)
    requires Distinct(a + b)
    ensures Distinct(a) && Distinct(b) && forall i, k :: 0 <= i < |a| && 0 <= k < |b| ==> a[i].id != b[k].id
  {
    var all := a + b;
    forall i, k | 0 <= i < k < |b| ensures b[i].id != b[k].id {
      assert all[|a| + i] == b[i] && all[|a| + k] == b[k];
    }
    forall i, k | 0 <= i < k < |a| ensures a[i].id != a[k].id {
      assert all[i] == a[i] && all[k] == a[k];
    }
    forall i, k | 0 <= i < |a| && 0 <= k < |b| ensures a[i].id != b[k].id {
      assert all[i] == a[i] && all[|a| + k] == b[k];
    }
  }

  lemma PutBackDistinct(batch: seq<P.Item>, buffer: seq<P.Item>, back: seq<P.Item>)
    requires Distinct(batch + buffer) && SameIds(batch, back)
    ensures Distinct(buffer + back)
  {
    DistinctParts(batch, buffer);
    forall i, k | 0 <= i < k < |buffer + back| ensures (buffer + back)[i].id != (buffer + back)[k].id {
      if i >= |buffer| {
        assert batch[i - |buffer|].id != batch[k - |buffer|].id;
      } else if k >= |buffer| {
        assert batch[k - |buffer|].id != buffer[i].id;
      }
    }
  }

  lemma NoneClaimedParts(s: P.State, a: seq<P.Item>, b: seq<P.Item>)
    ensures NoneClaimed(s, a + b) <==> NoneClaimed(s, a) && NoneClaimed(s, b)
  {
    var all := a + b;
    if NoneClaimed(s, all) {
      forall i | 0 <= i < |a| ensures !Claimed(s, a[i].id) {
        assert all[i] == a[i];
      }
      forall i | 0 <= i < |b| ensures !Claimed(s, b[i].id) {
        assert all[|a| + i] == b[i];
      }
    }
  }

  /** Bad news claims nothing. */
  lemma BadNews(s: P.State, ids: seq<Callback>, x: Callback)
    ensures Claimed(s.(fired := s.fired + P.Told(ids, false)), x) <==> Claimed(s, x)
  {
    var fired := s.fired + P.Told(ids, false);
    if P.Outcome(x, true) in fired {
      var i :| 0 <= i < |fired| && fired[i] == P.Outcome(x, true);
      assert i < |s.fired|;
    }
  }

  lemma {:induction false} ArmedIsItem(items: seq<P.Item>, x: Callback)
    requires x in P.Armed(items)
    ensures exists i :: 0 <= i < |items| && items[i].id == x
    decreases |items|
  {
    if x in P.Armed(items[1..]) {
      ArmedIsItem(items[1..], x);
      var i :| 0 <= i < |items[1..]| && items[1..][i].id == x;
      assert items[i + 1].id == x;
    }
  }

  /** Steps that hand the batch's callbacks on: to the controller, or to their callers. */
  predicate HandsOn(step: P.Step) {
    step.RegisterBatch? || step.InlineSyncEnds?
  }

  lemma GoodNews(s: P.State, ids: seq<Callback>, ok: bool, x: Callback)
    ensures P.Outcome(x, true) in s.fired + P.Told(ids, ok) ==> P.Outcome(x, true) in s.fired || x in ids
  {
    var fired := s.fired + P.Told(ids, ok);
    if P.Outcome(x, true) in fired {
      var i :| 0 <= i < |fired| && fired[i] == P.Outcome(x, true);
      if i >= |s.fired| {
        assert ids[i - |s.fired|] == x;
      }
    }
  }

  lemma RegisterClaims(s: P.State, x: Callback)
    requires Valid(s.controller) && P.Enabled(true, s, P.RegisterBatch)
    ensures Claimed(P.Next(true, s, P.RegisterBatch), x) ==> Claimed(s, x) || x in P.Armed(s.flusher.batch)
  {
    P.RegisteredJoins(s.controller, P.Armed(s.flusher.batch));
    BadNews(s, P.Armed(s.flusher.batch), x);
  }

  lemma SyncClaims(grouped: bool, s: P.State, ok: bool, x: Callback)
    requires P.Enabled(grouped, s, P.SyncEnds(ok))
    ensures Claimed(P.Next(grouped, s, P.SyncEnds(ok)), x) ==> Claimed(s, x)
  {
    var end := s.syncer.end;
    var (c, told) := if ok then Succeed(s.controller, end) else Fail(s.controller, end);
    P.SettledSplits(s.controller, end, ok);
    GoodNews(s, told, ok, x);
  }

  /** Only the batch's own callbacks become claimed. */
  lemma ClaimedAfter(grouped: bool, s: P.State, step: P.Step, x: Callback)
    requires Valid(s.controller) && P.Enabled(grouped, s, step)
    ensures Claimed(P.Next(grouped, s, step), x) ==> Claimed(s, x) || (HandsOn(step) && x in P.Armed(s.flusher.batch))
  {
    match step
    case RegisterBatch => RegisterClaims(s, x);
    case SyncEnds(ok) => SyncClaims(grouped, s, ok, x);
    case InlineSyncEnds(ok) => GoodNews(s, P.Armed(s.flusher.batch), ok, x);
    case WriteFails(_) => BadNews(s, P.Armed(s.flusher.batch), x);
    case _ =>
  }

  lemma StillNoneClaimed(grouped: bool, s: P.State, step: P.Step, items: seq<P.Item>)
    requires Valid(s.controller) && P.Enabled(grouped, s, step) && NoneClaimed(s, items)
    requires HandsOn(step) ==> forall i :: 0 <= i < |items| ==> items[i].id !in P.Armed(s.flusher.batch)
    ensures NoneClaimed(P.Next(grouped, s, step), items)
  {
    forall i | 0 <= i < |items| ensures !Claimed(P.Next(grouped, s, step), items[i].id) {
      ClaimedAfter(grouped, s, step, items[i].id);
    }
  }

  lemma BatchApart(batch: seq<P.Item>, buffer: seq<P.Item>)
    requires Distinct(batch + buffer)
    ensures forall i :: 0 <= i < |buffer| ==> buffer[i].id !in P.Armed(batch)
  {
    DistinctParts(batch, buffer);
    forall i | 0 <= i < |buffer| ensures buffer[i].id !in P.Armed(batch) {
      if buffer[i].id in P.Armed(batch) {
        ArmedIsItem(batch, buffer[i].id);
      }
    }
  }

  /** What is left to write after a step, and that none of it is claimed. */
  lemma StepKeepsApart(grouped: bool, s: P.State, step: P.Step)
    requires Valid(s.controller) && P.Enabled(grouped, s, step) && Fresh(s)
    ensures Distinct(P.Backlog(P.Next(grouped, s, step)))
    ensures NoneClaimed(P.Next(grouped, s, step), P.Backlog(P.Next(grouped, s, step)))
  {
    var s', batch := P.Next(grouped, s, step), P.Batch(s.flusher);
    NoneClaimedParts(s, batch, s.buffer);
    if step.NoSpace? || step.WriteFails? {
      var back := if step.NoSpace? then batch else P.Disarmed(batch);
      PutBackDistinct(batch, s.buffer, back);
      StillNoneClaimed(grouped, s, step, batch);
      StillNoneClaimed(grouped, s, step, s.buffer);
      assert NoneClaimed(s', back);
      NoneClaimedParts(s', s.buffer, back);
      assert P.Backlog(s') == s.buffer + back;
    } else if HandsOn(step) {
      BatchApart(batch, s.buffer);
      DistinctParts(batch, s.buffer);
      StillNoneClaimed(grouped, s, step, s.buffer);
      assert P.Backlog(s') == s.buffer;
    } else if step.Append? {
      AppendKeepsApart(s, step.callback, step.space);
    } else {
      assert P.Backlog(s') == P.Backlog(s);
      StillNoneClaimed(grouped, s, step, P.Backlog(s));
    }
  }

  lemma AppendKeepsApart(s: P.State, callback: bool, space: bool)
    requires Fresh(s)
    ensures var s' := P.Next(true, s, P.Append(callback, space));
            Distinct(P.Backlog(s')) && NoneClaimed(s', P.Backlog(s'))
  {
    var s', item := P.Next(true, s, P.Append(callback, space)), P.Item(s.appended, callback);
    if s.healthy || space {
      assert P.Backlog(s') == P.Backlog(s) + [item];
    } else {
      assert P.Backlog(s') == P.Backlog(s);
    }
    forall i | 0 <= i < |P.Backlog(s')| ensures !Claimed(s', P.Backlog(s')[i].id) {
      AppendClaims(s, callback, space, P.Backlog(s')[i].id);
    }
  }

  lemma AppendClaims(s: P.State, callback: bool, space: bool, x: Callback)
    ensures Claimed(P.Next(true, s, P.Append(callback, space)), x) <==> Claimed(s, x)
  {
    var bad := P.Outcome(s.appended, false);
    if P.Outcome(x, true) in s.fired + [bad] {
      assert P.Outcome(x, true) in s.fired;
    }
  }

  lemma StepKeepsFresh(grouped: bool, s: P.State, step: P.Step)
    requires Valid(s.controller) && P.Enabled(grouped, s, step) && Fresh(s)
    ensures Fresh(P.Next(grouped, s, step))
  {
    var s' := P.Next(grouped, s, step);
    StepKeepsApart(grouped, s, step);
    P.StepKeepsOrderIff(grouped, s, step);
    forall x: Callback | Claimed(s', x) ensures x < s'.appended {
      ClaimedAfter(grouped, s, step, x);
      if !Claimed(s, x) {
        ArmedIsItem(s.flusher.batch, x);
        var i :| 0 <= i < |s.flusher.batch| && s.flusher.batch[i].id == x;
        assert P.Backlog(s)[i].id == x;
      }
    }
  }

  // ---------- the invariant ----------

  /** Whatever waits or was told OK is in the log, and so is what the flush thread says it wrote. */
  ghost predicate Known(j: Joint) {
    && (forall x: Callback :: Claimed(j.s, x) ==> x in j.log)
    && match j.s.flusher
       case Taken(b) => j.stored <= |b| && forall i :: 0 <= i < j.stored ==> b[i].id in j.log
       case _ => forall i :: 0 <= i < |P.Batch(j.s.flusher)| ==> P.Batch(j.s.flusher)[i].id in j.log
  }

  predicate AllHeld(d: Media, log: map<Callback, Logged>) {
    Sized(d) && forall x :: x in log ==> HoldsAt(d, log[x])
  }

  /** The entry's record is out of the sync's reach: forced out already, or left behind. */
  predicate SettledAt(d: Media, log: map<Callback, Logged>, x: Callback) {
    x in log && Held(d, log[x].place) && !Pending(d, log[x].place)
  }

  predicate AllSettled(d: Media, log: map<Callback, Logged>, ids: seq<Callback>) {
    forall x :: x in ids ==> SettledAt(d, log, x)
  }

  ghost predicate ToldSettled(j: Joint) {
    forall x: Callback :: P.Outcome(x, true) in j.s.fired ==> SettledAt(j.d, j.log, x)
  }

  function UnderSync(s: P.State): seq<Callback> {
    if s.syncer.InSync? then Callbacks(s.controller.pending[..Covered(s.controller.pending, s.syncer.end)]) else []
  }

  function UnderInlineSync(s: P.State): seq<Callback> {
    if s.flusher.Syncing? then P.Armed(s.flusher.batch) else []
  }

  ghost predicate Inv(j: Joint) {
    && P.AckInv(j.s) && Fresh(j.s) && Known(j) && AllHeld(j.d, j.log) && ToldSettled(j)
    && (j.forced ==> AllSettled(j.d, j.log, UnderSync(j.s)) && AllSettled(j.d, j.log, UnderInlineSync(j.s)))
  }

  lemma SyncedAreClaimed(s: P.State, x: Callback)
    requires x in UnderSync(s)
    ensures Claimed(s, x)
  {
    P.SplitCallbacks(s.controller.pending, Covered(s.controller.pending, s.syncer.end));
  }

  lemma InlineAreKnown(j: Joint, x: Callback)
    requires Known(j) && x in UnderInlineSync(j.s)
    ensures x in j.log
  {
    ArmedIsItem(j.s.flusher.batch, x);
    var i :| 0 <= i < |j.s.flusher.batch| && j.s.flusher.batch[i].id == x;
    assert P.Batch(j.s.flusher)[i].id in j.log;
  }

  // ---------- steps of the log ----------

  lemma LogStepKeepsHeld(d: Media, step: W.Step, log: map<Callback, Logged>)
    requires Runs(d, step) && AllHeld(d, log)
    ensures AllHeld(After(d, step), log)
  {
    StepGrows(d, step);
    forall x | x in log ensures HoldsAt(After(d, step), log[x]) {
      HeldStays(d, step, log[x]);
    }
  }

  lemma LogStepKeepsSettled(d: Media, step: W.Step, log: map<Callback, Logged>, x: Callback)
    requires Runs(d, step) && (SettledAt(d, log, x) || (step.Sync? && x in log && Held(d, log[x].place)))
    ensures SettledAt(After(d, step), log, x)
  {
    FateOfRecord(d, step, log[x].place);
  }

  lemma LogStepKeepsInv(j: Joint, step: W.Step, forced: bool)
    requires Inv(j) && Runs(j.d, step) && (forced ==> j.forced || step.Sync?)
    ensures Inv(j.(d := After(j.d, step), forced := forced))
  {
    var j' := j.(d := After(j.d, step), forced := forced);
    LogStepKeepsHeld(j.d, step, j.log);
    forall x: Callback | P.Outcome(x, true) in j.s.fired ensures SettledAt(j'.d, j.log, x) {
      LogStepKeepsSettled(j.d, step, j.log, x);
    }
    if forced {
      forall x | x in UnderSync(j.s) ensures SettledAt(j'.d, j.log, x) {
        SyncedAreClaimed(j.s, x);
        assert HoldsAt(j.d, j.log[x]);
        LogStepKeepsSettled(j.d, step, j.log, x);
      }
      forall x | x in UnderInlineSync(j.s) ensures SettledAt(j'.d, j.log, x) {
        InlineAreKnown(j, x);
        assert HoldsAt(j.d, j.log[x]);
        LogStepKeepsSettled(j.d, step, j.log, x);
      }
    }
  }

  /** Storing an entry that nobody was told about disturbs no other entry's record. */
  lemma StoreKeepsInv(grouped: bool, j: Joint, op: Op, rotate: bool)
    requires Inv(j) && Enabled(grouped, j, Store(op, rotate))
    ensures Inv(Next(grouped, j, Store(op, rotate)))
  {
    var j', step := Next(grouped, j, Store(op, rotate)), W.Append(op, rotate);
    var batch, id := j.s.flusher.batch, j.s.flusher.batch[j.stored].id;
    assert P.Backlog(j.s)[j.stored] == batch[j.stored];
    assert !Claimed(j.s, id);
    LogStepKeepsHeld(j.d, step, j.log);
    AppendedIsPending(j.d, op, rotate);
    forall x | x in j'.log ensures HoldsAt(j'.d, j'.log[x]) {
      if x != id {
        assert j'.log[x] == j.log[x];
      }
    }
    forall x: Callback | Claimed(j.s, x) && SettledAt(j.d, j.log, x) ensures SettledAt(j'.d, j'.log, x) {
      LogStepKeepsSettled(j.d, step, j.log, x);
    }
    forall x | x in UnderSync(j.s) ensures Claimed(j.s, x) {
      SyncedAreClaimed(j.s, x);
    }
    assert UnderSync(j'.s) == UnderSync(j.s) && UnderInlineSync(j'.s) == [];
  }

  // ---------- steps of the persister ----------

  lemma BatchIsKnown(j: Joint, x: Callback)
    requires Known(j) && (j.s.flusher.Written? || j.s.flusher.Syncing?) && x in P.Armed(j.s.flusher.batch)
    ensures x in j.log
  {
    ArmedIsItem(j.s.flusher.batch, x);
    var i :| 0 <= i < |j.s.flusher.batch| && j.s.flusher.batch[i].id == x;
    assert P.Batch(j.s.flusher)[i].id in j.log;
  }

  lemma StepKeepsKnown(grouped: bool, j: Joint, step: P.Step)
    requires Inv(j) && Enabled(grouped, j, Persist(step))
    ensures Known(Next(grouped, j, Persist(step)))
  {
    var j' := Next(grouped, j, Persist(step));
    forall x: Callback | Claimed(j'.s, x) ensures x in j'.log {
      ClaimedAfter(grouped, j.s, step, x);
      if !Claimed(j.s, x) {
        BatchIsKnown(j, x);
      }
    }
  }

  /** Whoever is told OK was under a sync, and the log was synced since it started. */
  lemma StepTellsSettled(grouped: bool, j: Joint, step: P.Step, x: Callback)
    requires Inv(j) && Enabled(grouped, j, Persist(step))
    requires P.Outcome(x, true) in P.Next(grouped, j.s, step).fired
    ensures SettledAt(j.d, j.log, x)
  {
    match step
    case SyncEnds(ok) => SyncTellsSettled(grouped, j, ok, x);
    case InlineSyncEnds(ok) =>
      GoodNews(j.s, P.Armed(j.s.flusher.batch), ok, x);
      if !ok {
        BadNewsOnly(j.s, P.Armed(j.s.flusher.batch), x);
      }
    case WriteFails(_) => BadNewsOnly(j.s, P.Armed(j.s.flusher.batch), x);
    case RegisterBatch => BadNewsOnly(j.s, P.Armed(j.s.flusher.batch), x);
    case Append(_, _) =>
      if P.Outcome(x, true) in j.s.fired + [P.Outcome(j.s.appended, false)] {
        assert P.Outcome(x, true) in j.s.fired;
      }
    case _ =>
  }

  lemma BadNewsOnly(s: P.State, ids: seq<Callback>, x: Callback)
    ensures P.Outcome(x, true) in s.fired + P.Told(ids, false) ==> P.Outcome(x, true) in s.fired
  {
    var fired := s.fired + P.Told(ids, false);
    if P.Outcome(x, true) in fired {
      var i :| 0 <= i < |fired| && fired[i] == P.Outcome(x, true);
      assert i < |s.fired|;
    }
  }

  lemma SyncTellsSettled(grouped: bool, j: Joint, ok: bool, x: Callback)
    requires Inv(j) && Enabled(grouped, j, Persist(P.SyncEnds(ok)))
    requires P.Outcome(x, true) in P.Next(grouped, j.s, P.SyncEnds(ok)).fired
    ensures SettledAt(j.d, j.log, x)
  {
    var c, end := j.s.controller, j.s.syncer.end;
    var told := if ok then Succeed(c, end).1 else Fail(c, end).1;
    GoodNews(j.s, told, ok, x);
    if ok {
      assert told == UnderSync(j.s);
    } else {
      BadNewsOnly(j.s, told, x);
    }
  }

  lemma StepKeepsUnderSync(grouped: bool, s: P.State, step: P.Step)
    requires P.AckInv(s) && P.Enabled(grouped, s, step) && !step.SyncStarts? && !step.InlineSyncStarts?
    ensures var s' := P.Next(grouped, s, step);
            && (UnderSync(s') == UnderSync(s) || UnderSync(s') == [])
            && (UnderInlineSync(s') == UnderInlineSync(s) || UnderInlineSync(s') == [])
  {
    if step.RegisterBatch? && s.controller.healthy && s.syncer.InSync? {
      LateEpochWaits(s.controller, P.Armed(s.flusher.batch));
    }
  }

  lemma PersistKeepsInv(grouped: bool, j: Joint, step: P.Step)
    requires Inv(j) && Enabled(grouped, j, Persist(step))
    ensures Inv(Next(grouped, j, Persist(step)))
  {
    var j' := Next(grouped, j, Persist(step));
    P.StepKeepsAcks(grouped, j.s, step);
    StepKeepsFresh(grouped, j.s, step);
    StepKeepsKnown(grouped, j, step);
    forall x: Callback | P.Outcome(x, true) in j'.s.fired ensures SettledAt(j'.d, j'.log, x) {
      StepTellsSettled(grouped, j, step, x);
    }
    if !step.SyncStarts? && !step.InlineSyncStarts? {
      StepKeepsUnderSync(grouped, j.s, step);
    }
  }

  lemma EventKeepsInv(grouped: bool, j: Joint, e: Event)
    requires Inv(j) && Enabled(grouped, j, e)
    ensures Inv(Next(grouped, j, e))
  {
    match e
    case Persist(step) => PersistKeepsInv(grouped, j, step);
    case Store(op, rotate) => StoreKeepsInv(grouped, j, op, rotate);
    case Force(_) => LogStepKeepsInv(j, LogStep(e).value, true);
    case _ => LogStepKeepsInv(j, LogStep(e).value, j.forced);
  }

  // ---------- runs ----------

  predicate ValidRun(grouped: bool, states: seq<Joint>, events: seq<Event>) {
    && |states| == |events| + 1 && states[0] == BLANKS
    && (forall k :: 0 <= k < |events| ==>
          Enabled(grouped, states[k], events[k]) && states[k + 1] == Next(grouped, states[k], events[k]))
  }

  lemma {:induction false} RunKeepsInv(grouped: bool, states: seq<Joint>, events: seq<Event>, k: nat)
    requires ValidRun(grouped, states, events) && k < |states|
    ensures Inv(states[k])
  {
    if k > 0 {
      RunKeepsInv(grouped, states, events, k - 1);
      EventKeepsInv(grouped, states[k - 1], events[k - 1]);
    }
  }

  /** A rotation closed the record's segment while the record was in it and not forced out. */
  predicate PassesOver(j: Joint, e: Event, place: Place) {
    LogStep(e).Some? && Rotates(LogStep(e).value) && Held(j.d, place) && Pending(j.d, place)
  }

  predicate PassedOver(states: seq<Joint>, events: seq<Event>, k: nat, place: Place)
    requires k <= |events| <= |states|
  {
    exists i :: 0 <= i < k && PassesOver(states[i], events[i], place)
  }

  predicate LeftBehind(d: Media, place: Place)
    requires Held(d, place)
  {
    !IsForced(d, place) && !Pending(d, place)
  }

  lemma OneEventOn(grouped: bool, j: Joint, e: Event, place: Place)
    requires Enabled(grouped, j, e) && Sized(j.d) && Held(Next(grouped, j, e).d, place)
    ensures Held(j.d, place) ==>
              (LeftBehind(Next(grouped, j, e).d, place) <==> LeftBehind(j.d, place) || PassesOver(j, e, place))
    ensures !Held(j.d, place) ==> Pending(Next(grouped, j, e).d, place)
  {
    if LogStep(e).Some? {
      var step := LogStep(e).value;
      if Held(j.d, place) {
        FateOfRecord(j.d, step, place);
      } else {
        NewIsPending(j.d, step, place);
      }
    }
  }

  lemma NewIsPending(d: Media, step: W.Step, place: Place)
    requires Runs(d, step) && !Held(d, place) && Held(After(d, step), place)
    ensures Pending(After(d, step), place)
  {
    StepGrows(d, step);
  }

  lemma HeldOnwards(grouped: bool, j: Joint, e: Event, place: Place)
    requires Enabled(grouped, j, e) && Held(j.d, place)
    ensures Held(Next(grouped, j, e).d, place)
  {
    if LogStep(e).Some? {
      FateOfRecord(j.d, LogStep(e).value, place);
    }
  }

  /** `passed`: a rotation has passed over the record. */
  predicate Fated(d: Media, place: Place, passed: bool) {
    if Held(d, place) then LeftBehind(d, place) <==> passed else !passed
  }

  lemma FatedOneEvent(grouped: bool, j: Joint, e: Event, place: Place, passed: bool)
    requires Enabled(grouped, j, e) && Sized(j.d) && Fated(j.d, place, passed)
    ensures Fated(Next(grouped, j, e).d, place, passed || PassesOver(j, e, place))
  {
    if Held(j.d, place) {
      HeldOnwards(grouped, j, e, place);
    }
    if Held(Next(grouped, j, e).d, place) {
      OneEventOn(grouped, j, e, place);
    }
  }

  lemma RunIsSized(grouped: bool, states: seq<Joint>, events: seq<Event>, k: nat)
    requires ValidRun(grouped, states, events) && k < |states|
    ensures Sized(states[k].d)
  {
    RunKeepsInv(grouped, states, events, k);
  }

  lemma PassedOneMore(states: seq<Joint>, events: seq<Event>, k: nat, place: Place)
    requires 0 < k <= |events| <= |states|
    ensures PassedOver(states, events, k, place)
       <==> PassedOver(states, events, k - 1, place) || PassesOver(states[k - 1], events[k - 1], place)
  {
  }

  /** A record in the log was left behind exactly when some rotation passed over it. */
  lemma {:induction false} LeftBehindIff(grouped: bool, states: seq<Joint>, events: seq<Event>, k: nat, place: Place)
    requires ValidRun(grouped, states, events) && k < |states|
    ensures Fated(states[k].d, place, PassedOver(states, events, k, place))
  {
    if k > 0 {
      LeftBehindIff(grouped, states, events, k - 1, place);
      RunIsSized(grouped, states, events, k - 1);
      PassedOneMore(states, events, k, place);
      FatedOneEvent(grouped, states[k - 1], events[k - 1], place, PassedOver(states, events, k - 1, place));
    }
  }

  lemma ToldIsSettled(j: Joint, i: nat)
    requires Inv(j) && i < |j.s.fired| && j.s.fired[i].ok
    ensures var x := j.s.fired[i].id; SettledAt(j.d, j.log, x) && HoldsAt(j.d, j.log[x])
  {
    assert P.Outcome(j.s.fired[i].id, true) in j.s.fired;
  }

  /**
   * An entry acknowledged as durable survives every power failure exactly when no rotation closed
   * its segment between its writing and the first sync after it.
   */
  lemma AcknowledgedSurvivesIff(grouped: bool, states: seq<Joint>, events: seq<Event>, k: nat, i: nat)
    requires ValidRun(grouped, states, events) && k < |states|
    requires i < |states[k].s.fired| && states[k].s.fired[i].ok
    ensures var j, x := states[k], states[k].s.fired[i].id;
            && x in j.log && HoldsAt(j.d, j.log[x])
            && (Survives(j.d, j.log[x]) <==> !PassedOver(states, events, k, j.log[x].place))
  {
    var j, x := states[k], states[k].s.fired[i].id;
    RunKeepsInv(grouped, states, events, k);
    ToldIsSettled(j, i);
    LeftBehindIff(grouped, states, events, k, j.log[x].place);
    SurvivesIffForced(j.d, j.log[x]);
  }

  // ---------- a batch that fills a segment ----------

  lemma OneEventFurther(grouped: bool, states: seq<Joint>, events: seq<Event>, e: Event)
    returns (states': seq<Joint>, events': seq<Event>)
    requires ValidRun(grouped, states, events) && Enabled(grouped, states[|events|], e)
    ensures ValidRun(grouped, states', events') && events' == events + [e]
    ensures states' == states + [Next(grouped, states[|events|], e)]
  {
    states', events' := states + [Next(grouped, states[|events|], e)], events + [e];
    forall k | 0 <= k < |events'|
      ensures Enabled(grouped, states'[k], events'[k])
      ensures states'[k + 1] == Next(grouped, states'[k], events'[k])
    {
      assert states'[k] == states[k];
    }
  }

  function Items(n: nat): seq<P.Item> {
    seq(n, i requires 0 <= i < n => P.Item(i, true))
  }

  /** `n` appends, nothing else. */
  lemma {:induction false} FillBuffer(n: nat) returns (states: seq<Joint>, events: seq<Event>)
    ensures ValidRun(false, states, events) && |events| == n
    ensures var s := states[n].s;
            && states[n] == BLANKS.(s := s) && s.appended == n && s.buffer == Items(n)
            && s.flusher.Idle? && s.healthy && s.fired == []
    ensures forall k :: 0 <= k < n ==> events[k].Persist?
  {
    if n == 0 {
      states, events := [BLANKS], [];
    } else {
      states, events := FillBuffer(n - 1);
      states, events := OneEventFurther(false, states, events, Persist(P.Append(true, true)));
      assert Items(n) == Items(n - 1) + [P.Item(n - 1, true)];
    }
  }

  /** The log holds `n` buffered records and nothing forced out; the first is the first entry's. */
  predicate Filling(j: Joint, batch: seq<P.Item>, n: nat) {
    && j.s.flusher == P.Taken(batch) && j.s.fired == [] && j.stored == n
    && j.d.wal.segments == [[]] && |j.d.wal.buffer| == n && j.d.synced == [0]
    && (n > 0 ==> 0 in j.log && j.log[0].place == Place(0, 0))
  }

  lemma StoreFills(j: Joint, batch: seq<P.Item>, n: nat)
    requires Filling(j, batch, n) && n < |batch| && batch[n].id == n
    ensures var e := Store(Put(n + 1, Location(1, 0, 0)), false);
            Enabled(false, j, e) && Filling(Next(false, j, e), batch, n + 1)
  {
  }

  lemma {:induction false} StoreMany(states: seq<Joint>, events: seq<Event>, batch: seq<P.Item>, n: nat)
    returns (states': seq<Joint>, events': seq<Event>)
    requires ValidRun(false, states, events) && Filling(states[|events|], batch, 0) && n <= |batch|
    requires forall i :: 0 <= i < n ==> batch[i].id == i
    ensures ValidRun(false, states', events') && |events'| == |events| + n && events <= events'
    ensures Filling(states'[|events'|], batch, n)
    ensures forall k :: |events| <= k < |events'| ==> events'[k].Store? && !events'[k].rotate
  {
    if n == 0 {
      states', events' := states, events;
    } else {
      states', events' := StoreMany(states, events, batch, n - 1);
      StoreFills(states'[|events'|], batch, n - 1);
      states', events' := OneEventFurther(false, states', events', Store(Put(n, Location(1, 0, 0)), false));
    }
  }

  lemma RotationStrands(j: Joint, batch: seq<P.Item>, n: nat, op: Op)
    requires Filling(j, batch, n) && 0 < n && |batch| == n + 1 && batch[n].id == n
    ensures Enabled(false, j, Store(op, true))
    ensures var j' := Next(false, j, Store(op, true));
            && j'.s == j.s && j'.stored == n + 1 && 0 in j'.log && j'.log[0].place == Place(0, 0)
            && Sized(j'.d) && j'.d.synced == [0, 0]
  {
  }

  lemma FirstIsArmed(n: nat)
    requires n > 0
    ensures P.Told(P.Armed(Items(n)), true) != [] && P.Told(P.Armed(Items(n)), true)[0] == P.Outcome(0, true)
  {
    assert Items(n)[0] == P.Item(0, true);
  }

  /** A full batch, synced inline: written, synced, acknowledged, and its first entry not safe. */
  lemma AckAndLose(j: Joint, n: nat)
    requires 0 < n && j.s.flusher == P.Taken(Items(n)) && j.s.fired == [] && j.stored == n
    requires Sized(j.d) && j.d.synced == [0, 0]
    ensures Enabled(false, j, Persist(P.WriteSucceeds))
    ensures var j1 := Next(false, j, Persist(P.WriteSucceeds));
            && Enabled(false, j1, Persist(P.InlineSyncStarts))
            && var j2 := Next(false, j1, Persist(P.InlineSyncStarts));
               && Enabled(false, j2, Force(false))
               && var j3 := Next(false, j2, Force(false));
                  && Enabled(false, j3, Persist(P.InlineSyncEnds(true)))
                  && var j4 := Next(false, j3, Persist(P.InlineSyncEnds(true)));
                     && j4.log == j.log && Sized(j4.d) && j4.d.synced[0] == 0
                     && j4.s.fired != [] && j4.s.fired[0] == P.Outcome(0, true)
  {
    FirstIsArmed(n);
    var told := P.Told(P.Armed(Items(n)), true);
    assert [] + told == told;
    StepGrows(j.d, W.Sync(false));
  }

  predicate RotatesOnlyAt(events: seq<Event>, at: nat) {
    forall k :: 0 <= k < |events| && LogStep(events[k]).Some? ==> (Rotates(LogStep(events[k]).value) <==> k == at)
  }

  /** `n + 1` entries appended and taken, `n` of them stored. */
  lemma FilledSegment(n: nat) returns (states: seq<Joint>, events: seq<Event>)
    ensures ValidRun(false, states, events) && |events| == 2 * n + 2
    ensures Filling(states[2 * n + 2], Items(n + 1), n) && RotatesOnlyAt(events, 2 * n + 2)
  {
    states, events := FillBuffer(n + 1);
    states, events := OneEventFurther(false, states, events, Persist(P.Take));
    states, events := StoreMany(states, events, Items(n + 1), n);
  }

  /** Write, sync and acknowledgement of the whole batch. */
  lemma Acknowledge(n: nat, start: seq<Joint>, before: seq<Event>, at: nat)
    returns (states: seq<Joint>, events: seq<Event>)
    requires ValidRun(false, start, before) && 0 < n && at < |before| && RotatesOnlyAt(before, at)
    requires var j := start[|before|];
             && j.s.flusher == P.Taken(Items(n)) && j.s.fired == [] && j.stored == n
             && Sized(j.d) && j.d.synced == [0, 0]
    ensures ValidRun(false, states, events) && |events| == |before| + 4 && RotatesOnlyAt(events, at)
    ensures var j := states[|events|];
            && j.log == start[|before|].log && Sized(j.d) && j.d.synced[0] == 0
            && j.s.fired != [] && j.s.fired[0] == P.Outcome(0, true)
  {
    AckAndLose(start[|before|], n);
    states, events := OneEventFurther(false, start, before, Persist(P.WriteSucceeds));
    states, events := OneEventFurther(false, states, events, Persist(P.InlineSyncStarts));
    states, events := OneEventFurther(false, states, events, Force(false));
    states, events := OneEventFurther(false, states, events, Persist(P.InlineSyncEnds(true)));
  }

  /** The last entry rotates; then everyone is told. */
  lemma Finished(n: nat, start: seq<Joint>, before: seq<Event>) returns (states: seq<Joint>, events: seq<Event>)
    requires ValidRun(false, start, before) && |before| == 2 * n + 2 && 0 < n
    requires Filling(start[2 * n + 2], Items(n + 1), n) && RotatesOnlyAt(before, 2 * n + 2)
    ensures ValidRun(false, states, events) && |events| == 2 * n + 7 && RotatesOnlyAt(events, 2 * n + 2)
    ensures var j := states[2 * n + 7];
            && Sized(j.d) && 0 in j.log && j.log[0].place == Place(0, 0) && j.d.synced[0] == 0
            && j.s.fired != [] && j.s.fired[0] == P.Outcome(0, true)
  {
    var last := Put(n + 1, Location(2, 0, 0));
    RotationStrands(start[2 * n + 2], Items(n + 1), n, last);
    states, events := OneEventFurther(false, start, before, Store(last, true));
    states, events := Acknowledge(n + 1, states, events, 2 * n + 2);
  }

  /**
   * A batch of one entry more than a segment takes: the last entry rotates, the sync succeeds, all
   * are acknowledged, and a power failure may take the first.
   */
  lemma AcknowledgedIsLost() returns (states: seq<Joint>, events: seq<Event>)
    ensures ValidRun(false, states, events) && |events| == 2 * WalStores.MAX_SEGMENT_ENTRIES + 7
    ensures RotatesOnlyAt(events, 2 * WalStores.MAX_SEGMENT_ENTRIES + 2)
    ensures var j := states[|events|];
            P.Outcome(0, true) in j.s.fired && 0 in j.log && !Survives(j.d, j.log[0])
  {
    var n := WalStores.MAX_SEGMENT_ENTRIES;
    states, events := FilledSegment(n);
    states, events := Finished(n, states, events);
    RunKeepsInv(false, states, events, |events|);
    ToldIsSettled(states[|events|], 0);
    SurvivesIffForced(states[|events|].d, states[|events|].log[0]);
  }
}