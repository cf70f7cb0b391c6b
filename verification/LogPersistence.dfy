/**
 * The log persister as interleaved steps: appenders, a flush thread and a sync thread over a
 * shared buffer and the group commit controller. Storage is what the writes put there; a sync
 * makes durable what was written before it started.
 */
module LogPersistence {

  import opened GroupCommits

  /** A buffered entry; a failed write gives it back without its callback. */
  datatype Item = Item(id: Callback, armed: bool)

  datatype Outcome = Outcome(id: Callback, ok: bool)

  /** Where the flush thread is. `Syncing` is the inline sync of the sync-every-write policy. */
  datatype Flusher =
    | Idle
    | Taken(batch: seq<Item>)
    | Written(batch: seq<Item>)
    | Syncing(batch: seq<Item>, covered: set<Callback>)

  /** Where the sync thread is: a sync covers what was written when it started. */
  datatype Syncer = Waiting | Acquired(end: nat) | InSync(end: nat, covered: set<Callback>)

  datatype State = State(appended: nat, armed: seq<Callback>, buffer: seq<Item>, flusher: Flusher, syncer: Syncer,
                         controller: Controller, healthy: bool,
                         written: set<Callback>, durable: set<Callback>, fired: seq<Outcome>)

  datatype Step =
    | Append(callback: bool, space: bool)
    | Take
    | NoSpace
    | WriteFails(reached: set<Callback>)    // any part of the batch may have reached storage
    | WriteSucceeds
    | RegisterBatch
    | InlineSyncStarts
    | InlineSyncEnds(ok: bool)
    | AcquireRange
    | SyncStarts
    | SyncEnds(ok: bool)

  const INIT := State(0, [], [], Idle, Waiting, FRESH, true, {}, {}, [])

  function Armed(items: seq<Item>): seq<Callback> {
    if items == [] then [] else (if items[0].armed then [items[0].id] else []) + Armed(items[1..])
  }

  function Disarmed(items: seq<Item>): seq<Item> {
    seq(|items|, i requires 0 <= i < |items| => items[i].(armed := false))
  }

  function Ids(items: seq<Item>): set<Callback> {
    set i | 0 <= i < |items| :: items[i].id
  }

  function Told(ids: seq<Callback>, ok: bool): seq<Outcome> {
    seq(|ids|, i requires 0 <= i < |ids| => Outcome(ids[i], ok))
  }

  function Batch(f: Flusher): seq<Item> {
    match f
    case Idle => []
    case Taken(b) => b
    case Written(b) => b
    case Syncing(b, _) => b
  }

  /** `grouped`: the policy is not sync-every-write. */
  predicate Enabled(grouped: bool, s: State, step: Step) {
    match step
    case Append(_, _) => true
    case Take => s.flusher.Idle? && s.buffer != []
    case NoSpace => s.flusher.Taken?
    case WriteFails(reached) => s.flusher.Taken? && reached <= Ids(s.flusher.batch)
    case WriteSucceeds => s.flusher.Taken?
    case RegisterBatch => grouped && s.flusher.Written?
    case InlineSyncStarts => !grouped && s.flusher.Written?
    case InlineSyncEnds(_) => s.flusher.Syncing?
    case AcquireRange => grouped && s.syncer.Waiting? && Acquire(s.controller).1.Some?
    case SyncStarts => s.syncer.Acquired?
    case SyncEnds(_) => s.syncer.InSync?
  }

  function Next(grouped: bool, s: State, step: Step): State
    requires Enabled(grouped, s, step)
  {
    match step
    case Append(callback, space) =>
      var id := s.appended;
      var t := s.(appended := id + 1, armed := if callback then s.armed + [id] else s.armed);
      if !s.healthy && !space then t.(fired := if callback then t.fired + [Outcome(id, false)] else t.fired)
      else t.(healthy := true, buffer := t.buffer + [Item(id, callback)])
    case Take => s.(flusher := Taken(s.buffer), buffer := [])
    case NoSpace => s.(flusher := Idle, healthy := false, buffer := s.buffer + s.flusher.batch)
    case WriteFails(reached) =>
      s.(flusher := Idle, healthy := false, written := s.written + reached,
         fired := s.fired + Told(Armed(s.flusher.batch), false), buffer := s.buffer + Disarmed(s.flusher.batch))
    case WriteSucceeds =>
      s.(flusher := Written(s.flusher.batch), healthy := true, written := s.written + Ids(s.flusher.batch))
    case RegisterBatch =>
      var (c, epoch) := Register(s.controller, Armed(s.flusher.batch));
      if epoch != 0 then s.(flusher := Idle, controller := c)
      else s.(flusher := Idle, healthy := false, fired := s.fired + Told(Armed(s.flusher.batch), false))
    case InlineSyncStarts => s.(flusher := Syncing(s.flusher.batch, s.written))
    case InlineSyncEnds(ok) =>
      s.(flusher := Idle, healthy := s.healthy && ok, fired := s.fired + Told(Armed(s.flusher.batch), ok),
         durable := if ok then s.durable + s.flusher.covered else s.durable)
    case AcquireRange =>
      var (c, range) := Acquire(s.controller);
      s.(controller := c, syncer := Acquired(range.value.1))
    case SyncStarts => s.(syncer := InSync(s.syncer.end, s.written))
    case SyncEnds(ok) =>
      var (c, told) := if ok then Succeed(s.controller, s.syncer.end) else Fail(s.controller, s.syncer.end);
      s.(controller := c, syncer := Waiting, healthy := s.healthy && ok, fired := s.fired + Told(told, ok),
         durable := if ok then s.durable + s.syncer.covered else s.durable)
  }

  // ---------- every callback is somewhere, once ----------

  function FiredIds(fired: seq<Outcome>): seq<Callback> {
    seq(|fired|, i requires 0 <= i < |fired| => fired[i].id)
  }

  /** Where the callbacks are: buffered, in the batch in hand, waiting in an epoch, or fired. */
  function Whereabouts(s: State): multiset<Callback> {
    multiset(Armed(s.buffer)) + multiset(Armed(Batch(s.flusher))) + multiset(Callbacks(s.controller.pending))
    + multiset(FiredIds(s.fired))
  }

  predicate Conserved(s: State) {
    Whereabouts(s) == multiset(s.armed)
  }

  predicate ArmedOk(s: State) {
    forall i :: 0 <= i < |s.armed| ==> s.armed[i] < s.appended && forall j :: 0 <= j < i ==> s.armed[j] < s.armed[i]
  }

  lemma {:induction false} ArmedInTwo(a: seq<Item>, b: seq<Item>)
    ensures Armed(a + b) == Armed(a) + Armed(b)
    decreases |a|
  {
    if a == [] {
      assert a + b == b;
    } else {
      assert (a + b)[0] == a[0] && (a + b)[1..] == a[1..] + b;
      ArmedInTwo(a[1..], b);
    }
  }

  lemma {:induction false} DisarmedHasNone(items: seq<Item>)
    ensures Armed(Disarmed(items)) == []
    decreases |items|
  {
    if items != [] {
      assert Disarmed(items)[1..] == Disarmed(items[1..]);
      DisarmedHasNone(items[1..]);
    }
  }

  lemma FiredMore(fired: seq<Outcome>, ids: seq<Callback>, ok: bool)
    ensures FiredIds(fired + Told(ids, ok)) == FiredIds(fired) + ids
  {
  }

  lemma ArmedOne(buffer: seq<Item>, item: Item)
    ensures Armed(buffer + [item]) == Armed(buffer) + if item.armed then [item.id] else []
  {
    ArmedInTwo(buffer, [item]);
    assert [item][1..] == [];
  }

  lemma FiredOne(fired: seq<Outcome>, id: Callback)
    ensures FiredIds(fired + [Outcome(id, false)]) == FiredIds(fired) + [id]
  {
  }

  lemma AppendConserves(s: State, callback: bool, space: bool)
    requires Conserved(s)
    ensures Conserved(Next(true, s, Append(callback, space)))
  {
    if !s.healthy && !space {
      FiredOne(s.fired, s.appended);
    } else {
      ArmedOne(s.buffer, Item(s.appended, callback));
    }
  }

  /** Callbacks that leave one place for another keep the sum. */
  lemma Moved(from: seq<Callback>, ids: seq<Callback>, rest: seq<Callback>, to: seq<Callback>)
    requires from == ids + rest
    ensures multiset(from) + multiset(to) == multiset(rest) + multiset(to + ids)
  {
  }

  lemma TakeConserves(grouped: bool, s: State, step: Step)
    requires Conserved(s) && Enabled(grouped, s, step) && (step.Take? || step.WriteSucceeds? || step.InlineSyncStarts?)
    ensures Conserved(Next(grouped, s, step))
  {
  }

  lemma NoSpaceConserves(grouped: bool, s: State)
    requires Conserved(s) && Enabled(grouped, s, NoSpace)
    ensures Conserved(Next(grouped, s, NoSpace))
  {
    ArmedInTwo(s.buffer, s.flusher.batch);
  }

  lemma WriteFailConserves(grouped: bool, s: State, reached: set<Callback>)
    requires Conserved(s) && Enabled(grouped, s, WriteFails(reached))
    ensures Conserved(Next(grouped, s, WriteFails(reached)))
  {
    var batch := s.flusher.batch;
    ArmedInTwo(s.buffer, Disarmed(batch));
    DisarmedHasNone(batch);
    FiredMore(s.fired, Armed(batch), false);
  }

  lemma InlineSyncConserves(grouped: bool, s: State, ok: bool)
    requires Conserved(s) && Enabled(grouped, s, InlineSyncEnds(ok))
    ensures Conserved(Next(grouped, s, InlineSyncEnds(ok)))
  {
    var ids := Armed(s.flusher.batch);
    FiredMore(s.fired, ids, ok);
    assert ids + [] == ids;
    Moved(ids, ids, [], FiredIds(s.fired));
  }

  lemma RegisteredJoins(c: Controller, ids: seq<Callback>)
    requires Valid(c)
    ensures var (c', epoch) := Register(c, ids);
            Callbacks(c'.pending) == if epoch != 0 then Callbacks(c.pending) + ids else Callbacks(c.pending)
  {
    var e := Epoch(c.nextEpoch, ids);
    CallbacksInTwo(c.pending, [e]);
    assert [e][1..] == [] && ids + [] == ids;
  }

  /** The batch's callbacks either join the waiting epochs or are fired. */
  lemma RegisterHandsOver(s: State)
    requires Valid(s.controller) && Enabled(true, s, RegisterBatch)
    ensures var s', ids := Next(true, s, RegisterBatch), Armed(s.flusher.batch);
            && s'.flusher.Idle? && s'.buffer == s.buffer && s'.armed == s.armed
            && (|| (Callbacks(s'.controller.pending) == Callbacks(s.controller.pending) + ids && s'.fired == s.fired)
                || (s'.controller == s.controller && FiredIds(s'.fired) == FiredIds(s.fired) + ids))
  {
    var ids := Armed(s.flusher.batch);
    RegisteredJoins(s.controller, ids);
    FiredMore(s.fired, ids, false);
  }

  lemma RegisterConserves(s: State)
    requires Conserved(s) && Valid(s.controller) && Enabled(true, s, RegisterBatch)
    ensures Conserved(Next(true, s, RegisterBatch))
  {
    RegisterHandsOver(s);
  }

  lemma SettledSplits(c: Controller, end: nat, ok: bool)
    ensures var (c', told) := if ok then Succeed(c, end) else Fail(c, end);
            Callbacks(c.pending) == told + Callbacks(c'.pending)
  {
    SplitCallbacks(c.pending, Covered(c.pending, end));
    assert [] + Callbacks(c.pending) == Callbacks(c.pending) == Callbacks(c.pending) + [];
  }

  lemma Rejoined<T>(s: seq<T>, n: nat)
    requires n <= |s|
    ensures s[..n] + s[n..] == s
  {
  }

  lemma SplitCallbacks(epochs: seq<Epoch>, n: nat)
    requires n <= |epochs|
    ensures Callbacks(epochs) == Callbacks(epochs[..n]) + Callbacks(epochs[n..])
  {
    CallbacksInTwo(epochs[..n], epochs[n..]);
    Rejoined(epochs, n);
  }

  lemma SyncConserves(grouped: bool, s: State, ok: bool)
    requires Conserved(s) && Enabled(grouped, s, SyncEnds(ok))
    ensures Conserved(Next(grouped, s, SyncEnds(ok)))
  {
    var (c', told) := if ok then Succeed(s.controller, s.syncer.end) else Fail(s.controller, s.syncer.end);
    SettledSplits(s.controller, s.syncer.end, ok);
    FiredMore(s.fired, told, ok);
    Moved(Callbacks(s.controller.pending), told, Callbacks(c'.pending), FiredIds(s.fired));
  }

  lemma StepConserves(grouped: bool, s: State, step: Step)
    requires Conserved(s) && Valid(s.controller) && Enabled(grouped, s, step)
    ensures Conserved(Next(grouped, s, step))
  {
    match step
    case Append(callback, space) => AppendConserves(s, callback, space);
    case RegisterBatch => RegisterConserves(s);
    case SyncEnds(ok) => SyncConserves(grouped, s, ok);
    case AcquireRange =>
    case SyncStarts =>
    case NoSpace => NoSpaceConserves(grouped, s);
    case WriteFails(reached) => WriteFailConserves(grouped, s, reached);
    case InlineSyncEnds(ok) => InlineSyncConserves(grouped, s, ok);
    case _ => TakeConserves(grouped, s, step);
  }

  // ---------- durable acknowledgements ----------

  predicate AllIn(ids: seq<Callback>, where: set<Callback>) {
    forall i :: i in ids ==> i in where
  }

  predicate FlusherOk(s: State) {
    match s.flusher
    case Written(b) => AllIn(Armed(b), s.written)
    case Syncing(b, covered) => AllIn(Armed(b), covered)
    case _ => true
  }

  /** Whatever waits was written; what a running sync may settle was written before it started. */
  predicate SyncerOk(s: State) {
    && AllIn(Callbacks(s.controller.pending), s.written)
    && match s.syncer
       case Waiting => s.controller.syncInProgressEnd == 0
       case Acquired(end) => s.controller.syncInProgressEnd == end && end != 0
       case InSync(end, covered) =>
         && s.controller.syncInProgressEnd == end && end != 0
         && AllIn(Callbacks(s.controller.pending[..Covered(s.controller.pending, end)]), covered)
  }

  predicate FiredOk(s: State) {
    forall i :: 0 <= i < |s.fired| && s.fired[i].ok ==> s.fired[i].id in s.durable
  }

  predicate AckInv(s: State) {
    Valid(s.controller) && FlusherOk(s) && SyncerOk(s) && FiredOk(s)
  }

  lemma {:induction false} ArmedAreIds(items: seq<Item>)
    ensures AllIn(Armed(items), Ids(items))
    decreases |items|
  {
    if items != [] {
      ArmedAreIds(items[1..]);
      forall i | i in Ids(items[1..]) ensures i in Ids(items) {
        var k :| 0 <= k < |items[1..]| && items[1..][k].id == i;
        assert items[k + 1].id == i;
      }
      assert items[0].id in Ids(items);
    }
  }

  lemma RegisterKeepsAcks(s: State)
    requires AckInv(s) && Enabled(true, s, RegisterBatch)
    ensures AckInv(Next(true, s, RegisterBatch))
  {
    var c, ids := s.controller, Armed(s.flusher.batch);
    var e := Epoch(c.nextEpoch, ids);
    RegisterKeepsValid(c, ids);
    CallbacksInTwo(c.pending, [e]);
    assert [e][1..] == [] && ids + [] == ids;
    if c.healthy && c.syncInProgressEnd != 0 {
      LateEpochWaits(c, ids);
    }
    ToldNothingGood(s, ids);
  }

  lemma ToldNothingGood(s: State, ids: seq<Callback>)
    requires FiredOk(s)
    ensures FiredOk(s.(fired := s.fired + Told(ids, false)))
  {
  }

  lemma AcquireKeepsAcks(s: State)
    requires AckInv(s) && Enabled(true, s, AcquireRange)
    ensures AckInv(Next(true, s, AcquireRange))
  {
    AcquireCoversPending(s.controller);
  }

  lemma {:induction false} PrefixCallbacks(epochs: seq<Epoch>, n: nat, where: set<Callback>)
    requires n <= |epochs| && AllIn(Callbacks(epochs), where)
    ensures AllIn(Callbacks(epochs[..n]), where) && AllIn(Callbacks(epochs[n..]), where)
  {
    CallbacksInTwo(epochs[..n], epochs[n..]);
    Rejoined(epochs, n);
  }

  lemma SyncStartKeepsAcks(grouped: bool, s: State)
    requires AckInv(s) && Enabled(grouped, s, SyncStarts)
    ensures AckInv(Next(grouped, s, SyncStarts))
  {
    PrefixCallbacks(s.controller.pending, Covered(s.controller.pending, s.syncer.end), s.written);
  }

  lemma SyncEndKeepsAcks(grouped: bool, s: State, ok: bool)
    requires AckInv(s) && Enabled(grouped, s, SyncEnds(ok))
    ensures AckInv(Next(grouped, s, SyncEnds(ok)))
  {
    var c, end := s.controller, s.syncer.end;
    FailKeepsValid(c, end);
    SucceedSettlesRange(c, end);
    PrefixCallbacks(c.pending, Covered(c.pending, end), s.written);
    CoveredCounts(c.pending, c.durableEpoch, end);
    var s' := Next(grouped, s, SyncEnds(ok));
    var told := if ok then Succeed(c, end).1 else Fail(c, end).1;
    forall i | 0 <= i < |s'.fired| && s'.fired[i].ok ensures s'.fired[i].id in s'.durable {
      if i >= |s.fired| {
        assert told[i - |s.fired|] in told;
      }
    }
  }

  lemma FlushKeepsAcks(grouped: bool, s: State, step: Step)
    requires AckInv(s) && Enabled(grouped, s, step)
    requires step.Take? || step.NoSpace? || step.WriteFails? || step.WriteSucceeds? || step.InlineSyncStarts?
    ensures AckInv(Next(grouped, s, step))
  {
    ArmedAreIds(Batch(s.flusher));
  }

  lemma InlineSyncKeepsAcks(grouped: bool, s: State, ok: bool)
    requires AckInv(s) && Enabled(grouped, s, InlineSyncEnds(ok))
    ensures AckInv(Next(grouped, s, InlineSyncEnds(ok)))
  {
    var s', ids := Next(grouped, s, InlineSyncEnds(ok)), Armed(s.flusher.batch);
    forall i | 0 <= i < |s'.fired| && s'.fired[i].ok ensures s'.fired[i].id in s'.durable {
      if i >= |s.fired| {
        assert ids[i - |s.fired|] in ids;
      }
    }
  }

  lemma StepKeepsAcks(grouped: bool, s: State, step: Step)
    requires AckInv(s) && Enabled(grouped, s, step)
    ensures AckInv(Next(grouped, s, step))
  {
    match step
    case Append(_, _) =>
    case RegisterBatch => RegisterKeepsAcks(s);
    case AcquireRange => AcquireKeepsAcks(s);
    case SyncStarts => SyncStartKeepsAcks(grouped, s);
    case SyncEnds(ok) => SyncEndKeepsAcks(grouped, s, ok);
    case InlineSyncEnds(ok) => InlineSyncKeepsAcks(grouped, s, ok);
    case _ => FlushKeepsAcks(grouped, s, step);
  }

  // ---------- runs ----------

  predicate ValidRun(grouped: bool, states: seq<State>, steps: seq<Step>) {
    && |states| == |steps| + 1 && states[0] == INIT
    && (forall k :: 0 <= k < |steps| ==>
          Enabled(grouped, states[k], steps[k]) && states[k + 1] == Next(grouped, states[k], steps[k]))
  }

  predicate Inv(s: State) {
    AckInv(s) && Conserved(s) && ArmedOk(s)
  }

  lemma {:induction false} RunKeepsInv(grouped: bool, states: seq<State>, steps: seq<Step>, k: nat)
    requires ValidRun(grouped, states, steps) && k < |states|
    ensures Inv(states[k])
  {
    if k > 0 {
      RunKeepsInv(grouped, states, steps, k - 1);
      StepKeepsAcks(grouped, states[k - 1], steps[k - 1]);
      StepConserves(grouped, states[k - 1], steps[k - 1]);
      StepKeepsArmed(grouped, states[k - 1], steps[k - 1]);
    }
  }

  lemma StepKeepsArmed(grouped: bool, s: State, step: Step)
    requires ArmedOk(s) && Enabled(grouped, s, step)
    ensures ArmedOk(Next(grouped, s, step))
  {
  }

  /**
   * In every interleaving, a callback is told OK only when its entry was written before the
   * start of a sync that returned OK.
   */
  lemma AcknowledgedIsDurable(grouped: bool, states: seq<State>, steps: seq<Step>, k: nat, i: nat)
    requires ValidRun(grouped, states, steps) && k < |states| && i < |states[k].fired| && states[k].fired[i].ok
    ensures states[k].fired[i].id in states[k].durable
  {
    RunKeepsInv(grouped, states, steps, k);
  }

  lemma {:induction false} CountInAscending(s: seq<Callback>, x: Callback)
    requires forall i, j :: 0 <= j < i < |s| ==> s[j] < s[i]
    ensures multiset(s)[x] <= 1
    decreases |s|
  {
    if s != [] {
      var n := |s| - 1;
      CountInAscending(s[..n], x);
      assert s == s[..n] + [s[n]];
      if x == s[n] {
        assert x !in s[..n];
      }
    }
  }

  /** Every callback is in exactly one place, and none is fired twice. */
  lemma CallbackIsInOnePlace(grouped: bool, states: seq<State>, steps: seq<Step>, k: nat, x: Callback)
    requires ValidRun(grouped, states, steps) && k < |states|
    ensures var s := states[k];
            multiset(Armed(s.buffer))[x] + multiset(Armed(Batch(s.flusher)))[x]
            + multiset(Callbacks(s.controller.pending))[x] + multiset(FiredIds(s.fired))[x]
            == if x in s.armed then 1 else 0
  {
    var s := states[k];
    RunKeepsInv(grouped, states, steps, k);
    CountInAscending(s.armed, x);
    assert Whereabouts(s)[x] == multiset(s.armed)[x];
  }

  predicate SameGoodNews(fired: seq<Outcome>, fired': seq<Outcome>) {
    fired <= fired' && forall i :: |fired| <= i < |fired'| ==> !fired'[i].ok
  }

  lemma SilenceGoesOn(a: seq<Outcome>, b: seq<Outcome>, c: seq<Outcome>)
    requires SameGoodNews(a, b) && SameGoodNews(b, c)
    ensures SameGoodNews(a, c)
  {
    forall i | |a| <= i < |c| ensures !c[i].ok {
      if i < |b| {
        assert c[i] == b[i];
      }
    }
  }

  lemma UnhealthyStaysSilent(s: State, step: Step)
    requires AckInv(s) && Enabled(true, s, step) && !s.controller.healthy && !s.flusher.Syncing?
    ensures var s' := Next(true, s, step);
            !s'.controller.healthy && !s'.flusher.Syncing? && SameGoodNews(s.fired, s'.fired)
  {
  }

  lemma RunStepSilent(states: seq<State>, steps: seq<Step>, k: nat)
    requires ValidRun(true, states, steps) && 0 < k < |states| && !states[k - 1].controller.healthy
    ensures SameGoodNews(states[k - 1].fired, states[k].fired) && !states[k].controller.healthy
  {
    RunKeepsInv(true, states, steps, k - 1);
    NeverInlineWhenGrouped(states, steps, k - 1);
    UnhealthyStaysSilent(states[k - 1], steps[k - 1]);
  }

  /** After a failed sync no later step of the run acknowledges anything. */
  lemma {:induction false} NoGoodNewsAfterFailure(states: seq<State>, steps: seq<Step>, j: nat, k: nat)
    requires ValidRun(true, states, steps) && j <= k < |states| && !states[j].controller.healthy
    ensures SameGoodNews(states[j].fired, states[k].fired) && !states[k].controller.healthy
    decreases k - j
  {
    if j < k {
      NoGoodNewsAfterFailure(states, steps, j, k - 1);
      RunStepSilent(states, steps, k);
      SilenceGoesOn(states[j].fired, states[k - 1].fired, states[k].fired);
    }
  }

  lemma {:induction false} NeverInlineWhenGrouped(states: seq<State>, steps: seq<Step>, k: nat)
    requires ValidRun(true, states, steps) && k < |states|
    ensures !states[k].flusher.Syncing?
  {
    if k > 0 {
      NeverInlineWhenGrouped(states, steps, k - 1);
    }
  }

  // ---------- order ----------

  predicate InOrder(items: seq<Item>) {
    forall i, j :: 0 <= i < j < |items| ==> items[i].id < items[j].id
  }

  /** Entries not known to be in storage yet, as the flush thread will come to them. */
  function Backlog(s: State): seq<Item> {
    Batch(s.flusher) + s.buffer
  }

  /** A batch that could not be written goes back behind entries appended meanwhile. */
  predicate PutsBehind(s: State, step: Step) {
    (step.NoSpace? || step.WriteFails?) && s.buffer != []
  }

  /** Ids were handed out before; a batch in hand is not empty. */
  predicate BacklogOk(s: State) {
    && (forall i :: 0 <= i < |Backlog(s)| ==> Backlog(s)[i].id < s.appended)
    && (!s.flusher.Idle? ==> Batch(s.flusher) != [])
  }

  lemma InOrderOneMore(items: seq<Item>, item: Item)
    requires forall i :: 0 <= i < |items| ==> items[i].id < item.id
    ensures InOrder(items + [item]) <==> InOrder(items)
  {
    var more := items + [item];
    if InOrder(more) {
      forall i, j | 0 <= i < j < |items| ensures items[i].id < items[j].id {
        assert more[i] == items[i] && more[j] == items[j];
      }
    }
  }

  lemma LaterPartInOrder(batch: seq<Item>, buffer: seq<Item>)
    requires InOrder(batch + buffer)
    ensures InOrder(buffer)
  {
    forall i, j | 0 <= i < j < |buffer| ensures buffer[i].id < buffer[j].id {
      assert (batch + buffer)[|batch| + i] == buffer[i] && (batch + buffer)[|batch| + j] == buffer[j];
    }
  }

  /** `back` is the batch as it goes back, with or without its callbacks. */
  lemma BehindIsOutOfOrder(batch: seq<Item>, buffer: seq<Item>, back: seq<Item>)
    requires InOrder(batch + buffer) && batch != [] && |back| == |batch|
    requires forall i :: 0 <= i < |batch| ==> back[i].id == batch[i].id
    ensures InOrder(buffer + back) <==> buffer == []
  {
    if buffer == [] {
      assert batch + buffer == batch && buffer + back == back;
    } else {
      assert (batch + buffer)[0] == batch[0] && (batch + buffer)[|batch|] == buffer[0];
      assert (buffer + back)[0] == buffer[0] && (buffer + back)[|buffer|] == back[0];
    }
  }

  lemma AppendKeepsBacklog(s: State, callback: bool, space: bool)
    requires BacklogOk(s)
    ensures var s' := Next(true, s, Append(callback, space));
            BacklogOk(s') && (InOrder(Backlog(s')) <==> InOrder(Backlog(s)))
  {
    var s', item := Next(true, s, Append(callback, space)), Item(s.appended, callback);
    if s.healthy || space {
      assert Backlog(s') == Backlog(s) + [item];
      InOrderOneMore(Backlog(s), item);
    } else {
      assert Backlog(s') == Backlog(s);
    }
  }

  lemma PutBackBelow(batch: seq<Item>, buffer: seq<Item>, back: seq<Item>, bound: nat)
    requires forall i :: 0 <= i < |batch + buffer| ==> (batch + buffer)[i].id < bound
    requires |back| == |batch| && forall i :: 0 <= i < |batch| ==> back[i].id == batch[i].id
    ensures forall i :: 0 <= i < |buffer + back| ==> (buffer + back)[i].id < bound
  {
    forall i | 0 <= i < |buffer + back| ensures (buffer + back)[i].id < bound {
      if i < |buffer| {
        assert (batch + buffer)[|batch| + i] == buffer[i];
      } else {
        assert (batch + buffer)[i - |buffer|] == batch[i - |buffer|];
      }
    }
  }

  lemma PutBackKeepsBacklog(grouped: bool, s: State, step: Step)
    requires BacklogOk(s) && Enabled(grouped, s, step) && (step.NoSpace? || step.WriteFails?)
    ensures BacklogOk(Next(grouped, s, step))
    ensures InOrder(Backlog(s)) ==> (InOrder(Backlog(Next(grouped, s, step))) <==> s.buffer == [])
  {
    var batch, s' := s.flusher.batch, Next(grouped, s, step);
    var back := if step.NoSpace? then batch else Disarmed(batch);
    assert Backlog(s') == s.buffer + back;
    assert Backlog(s) == batch + s.buffer;
    PutBackBelow(batch, s.buffer, back, s.appended);
    if InOrder(Backlog(s)) {
      BehindIsOutOfOrder(batch, s.buffer, back);
    }
  }

  lemma FlushKeepsBacklog(grouped: bool, s: State, step: Step)
    requires BacklogOk(s) && Enabled(grouped, s, step)
    requires !step.Append? && !step.NoSpace? && !step.WriteFails?
    ensures BacklogOk(Next(grouped, s, step))
    ensures InOrder(Backlog(s)) ==> InOrder(Backlog(Next(grouped, s, step)))
  {
    var s' := Next(grouped, s, step);
    if s'.flusher.Idle? && !s.flusher.Idle? {
      assert Backlog(s') == s.buffer;
      forall i | 0 <= i < |s.buffer| ensures s.buffer[i].id < s'.appended {
        assert Backlog(s)[|Batch(s.flusher)| + i] == s.buffer[i];
      }
      if InOrder(Backlog(s)) {
        LaterPartInOrder(Batch(s.flusher), s.buffer);
      }
    } else {
      assert Backlog(s') == Backlog(s);
    }
  }

  /** From append order a step keeps append order exactly when it puts no batch behind newer entries. */
  lemma StepKeepsOrderIff(grouped: bool, s: State, step: Step)
    requires BacklogOk(s) && Enabled(grouped, s, step)
    ensures BacklogOk(Next(grouped, s, step))
    ensures InOrder(Backlog(s)) ==> (InOrder(Backlog(Next(grouped, s, step))) <==> !PutsBehind(s, step))
  {
    match step
    case Append(callback, space) => AppendKeepsBacklog(s, callback, space);
    case NoSpace => PutBackKeepsBacklog(grouped, s, step);
    case WriteFails(_) => PutBackKeepsBacklog(grouped, s, step);
    case _ => FlushKeepsBacklog(grouped, s, step);
  }

  lemma {:induction false} BacklogHolds(grouped: bool, states: seq<State>, steps: seq<Step>, k: nat)
    requires ValidRun(grouped, states, steps) && k < |states|
    ensures BacklogOk(states[k])
  {
    if k > 0 {
      BacklogHolds(grouped, states, steps, k - 1);
      StepKeepsOrderIff(grouped, states[k - 1], steps[k - 1]);
    }
  }

  predicate OrderedUpTo(states: seq<State>, n: nat) {
    forall k :: 0 <= k < |states| && k <= n ==> InOrder(Backlog(states[k]))
  }

  predicate NoneBehind(states: seq<State>, steps: seq<Step>, n: nat)
    requires n <= |steps| <= |states|
  {
    forall k :: 0 <= k < n ==> !PutsBehind(states[k], steps[k])
  }

  /**
   * Entries wait in append order up to any point of a run exactly when no batch was put back, for
   * want of space or after a failed write, while newer entries were in the buffer.
   */
  lemma {:induction false} BacklogInOrderIff(grouped: bool, states: seq<State>, steps: seq<Step>, n: nat)
    requires ValidRun(grouped, states, steps) && n <= |steps|
    ensures OrderedUpTo(states, n) <==> NoneBehind(states, steps, n)
  {
    if n > 0 {
      BacklogInOrderIff(grouped, states, steps, n - 1);
      BacklogHolds(grouped, states, steps, n - 1);
      StepKeepsOrderIff(grouped, states[n - 1], steps[n - 1]);
      assert OrderedUpTo(states, n) <==> OrderedUpTo(states, n - 1) && InOrder(Backlog(states[n]));
      assert NoneBehind(states, steps, n)
        <==> NoneBehind(states, steps, n - 1) && !PutsBehind(states[n - 1], steps[n - 1]);
    }
  }

  /** Append, take, append, no space: the first entry now waits behind the second. */
  lemma PutBackOvertaken()
    returns (states: seq<State>, steps: seq<Step>)
    ensures ValidRun(true, states, steps) && |steps| == 4
    ensures states[4].buffer == [Item(1, true), Item(0, true)]
    ensures !InOrder(Backlog(states[4]))
  {
    var a, b := Item(0, true), Item(1, true);
    var s1 := Next(true, INIT, Append(true, true));
    var s2 := Next(true, s1, Take);
    var s3 := Next(true, s2, Append(true, true));
    var s4 := Next(true, s3, NoSpace);
    assert s1.buffer == [a] && s2.flusher.batch == [a] && s3.buffer == [b];
    assert s4.buffer == [b, a] && Backlog(s4) == [b, a];
    states := [INIT, s1, s2, s3, s4];
    steps := [Append(true, true), Take, Append(true, true), NoSpace];
    assert Backlog(states[4])[0].id == 1 && Backlog(states[4])[1].id == 0;
  }
}
