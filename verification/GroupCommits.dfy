/** The group commit controller: commit epochs waiting for one sync, and who gets told what. */
module GroupCommits {

  import opened RaftTypes

  /** A callback, named by the append that brought it. */
  type Callback = nat

  datatype Epoch = Epoch(epoch: nat, callbacks: seq<Callback>)

  datatype Controller = Controller(pending: seq<Epoch>, nextEpoch: nat, durableEpoch: nat,
                                   syncInProgressEnd: nat, healthy: bool)

  const FRESH := Controller([], 1, 0, 0, true)

  /** Epochs wait in order and without gaps, above the last durable one; 0 is never an epoch. */
  predicate Valid(c: Controller) {
    && 1 <= c.nextEpoch
    && (forall i :: 0 <= i < |c.pending| ==> c.pending[i].epoch == c.durableEpoch + 1 + i)
    && c.durableEpoch + |c.pending| < c.nextEpoch
    && (c.healthy ==> c.durableEpoch + |c.pending| + 1 == c.nextEpoch)
    && (c.syncInProgressEnd != 0 ==> c.healthy && c.durableEpoch < c.syncInProgressEnd <= c.durableEpoch + |c.pending|)
  }

  function Callbacks(epochs: seq<Epoch>): seq<Callback> {
    if epochs == [] then [] else epochs[0].callbacks + Callbacks(epochs[1..])
  }

  // ---------- the operations as functions ----------

  /** Epoch 0 tells the caller that the controller refuses. */
  function Register(c: Controller, callbacks: seq<Callback>): (Controller, nat) {
    if !c.healthy then (c, 0)
    else (c.(pending := c.pending + [Epoch(c.nextEpoch, callbacks)], nextEpoch := c.nextEpoch + 1), c.nextEpoch)
  }

  function Acquire(c: Controller): (Controller, Option<(nat, nat)>) {
    if !c.healthy || c.syncInProgressEnd != 0 || c.pending == [] then (c, None)
    else
      var end := c.pending[|c.pending| - 1].epoch;
      (c.(syncInProgressEnd := end), Some((c.durableEpoch + 1, end)))
  }

  /** How many leading epochs a sync up to `end` covers. */
  function Covered(pending: seq<Epoch>, end: nat): (n: nat)
    ensures n <= |pending|
  {
    if pending == [] || pending[0].epoch > end then 0 else 1 + Covered(pending[1..], end)
  }

  function Succeed(c: Controller, end: nat): (Controller, seq<Callback>) {
    if c.syncInProgressEnd == 0 || end != c.syncInProgressEnd then (c, [])
    else
      var n := Covered(c.pending, end);
      var durable := if n == 0 then c.durableEpoch else c.pending[n - 1].epoch;
      (c.(pending := c.pending[n..], durableEpoch := durable, syncInProgressEnd := 0), Callbacks(c.pending[..n]))
  }

  function Fail(c: Controller, end: nat): (Controller, seq<Callback>) {
    if c.syncInProgressEnd == 0 || end != c.syncInProgressEnd then (c, [])
    else (c.(pending := [], syncInProgressEnd := 0, healthy := false), Callbacks(c.pending))
  }

  // ---------- what they promise ----------

  lemma RegisterKeepsValid(c: Controller, callbacks: seq<Callback>)
    requires Valid(c)
    ensures Valid(Register(c, callbacks).0) && (Register(c, callbacks).1 == 0 <==> !c.healthy)
  {
  }

  /** The range runs from the first waiting epoch to the last: all of them and nothing else. */
  lemma AcquireCoversPending(c: Controller)
    requires Valid(c)
    ensures var (c', range) := Acquire(c);
            && Valid(c')
            && (range.Some? ==>
                  && c.pending != [] && range.value.0 == c.pending[0].epoch
                  && range.value.1 == c.pending[|c.pending| - 1].epoch == range.value.0 + |c.pending| - 1
                  && c'.syncInProgressEnd == range.value.1)
  {
  }

  lemma {:induction false} CoveredCounts(pending: seq<Epoch>, base: nat, end: nat)
    requires forall i :: 0 <= i < |pending| ==> pending[i].epoch == base + 1 + i
    requires base <= end <= base + |pending|
    ensures Covered(pending, end) == end - base
    decreases |pending|
  {
    if pending != [] && pending[0].epoch <= end {
      CoveredCounts(pending[1..], base + 1, end);
    }
  }

  /** A success settles exactly the epochs up to the end it was acquired with; later ones keep waiting. */
  lemma SucceedSettlesRange(c: Controller, end: nat)
    requires Valid(c) && c.syncInProgressEnd == end != 0
    ensures var (c', fired) := Succeed(c, end);
            var n := end - c.durableEpoch;
            && Valid(c') && c'.durableEpoch == end && c'.syncInProgressEnd == 0 && c'.healthy
            && n <= |c.pending| && c'.pending == c.pending[n..] && fired == Callbacks(c.pending[..n])
  {
    CoveredCounts(c.pending, c.durableEpoch, end);
  }

  /** A batch registered while a sync is running is not part of what that sync settles. */
  lemma LateEpochWaits(c: Controller, callbacks: seq<Callback>)
    requires Valid(c) && c.syncInProgressEnd != 0
    ensures var c' := Register(c, callbacks).0;
            var n := Covered(c.pending, c.syncInProgressEnd);
            && Covered(c'.pending, c.syncInProgressEnd) == n && c'.pending[..n] == c.pending[..n]
            && Epoch(c.nextEpoch, callbacks) in Succeed(c', c.syncInProgressEnd).0.pending
  {
    var c', end := Register(c, callbacks).0, c.syncInProgressEnd;
    RegisterKeepsValid(c, callbacks);
    CoveredCounts(c.pending, c.durableEpoch, end);
    CoveredCounts(c'.pending, c'.durableEpoch, end);
    var n := Covered(c'.pending, end);
    assert c'.pending[n..][|c.pending| - n] == Epoch(c.nextEpoch, callbacks);
  }

  lemma FailKeepsValid(c: Controller, end: nat)
    requires Valid(c)
    ensures Valid(Fail(c, end).0)
  {
  }

  lemma {:induction false} CallbacksInTwo(a: seq<Epoch>, b: seq<Epoch>)
    ensures Callbacks(a + b) == Callbacks(a) + Callbacks(b)
    decreases |a|
  {
    if a == [] {
      assert a + b == b;
    } else {
      assert (a + b)[0] == a[0] && (a + b)[1..] == a[1..] + b;
      CallbacksInTwo(a[1..], b);
    }
  }

  // ---------- the class ----------

  class GroupCommitController {
    var pending: seq<Epoch>
    var nextEpoch: nat
    var durableEpoch: nat
    var syncInProgressEnd: nat
    var healthy: bool

    function View(): Controller
      reads this
    {
      Controller(pending, nextEpoch, durableEpoch, syncInProgressEnd, healthy)
    }

    constructor ()
      ensures View() == FRESH
    {
      pending, nextEpoch, durableEpoch, syncInProgressEnd, healthy := [], 1, 0, 0, true;
    }

    method RegisterFlushedBatch(callbacks: seq<Callback>) returns (epoch: nat)
      modifies this
      ensures (View(), epoch) == Register(old(View()), callbacks)
    {
      if !healthy {
        return 0;
      }
      epoch := nextEpoch;
      nextEpoch := nextEpoch + 1;
      pending := pending + [Epoch(epoch, callbacks)];
    }

    method AcquireSyncRange() returns (range: Option<(nat, nat)>)
      modifies this
      ensures (View(), range) == Acquire(old(View()))
    {
      if !healthy || syncInProgressEnd != 0 || pending == [] {
        return None;
      }
      var begin, end := durableEpoch + 1, pending[|pending| - 1].epoch;
      syncInProgressEnd := end;
      range := Some((begin, end));
    }

    /** Pops the covered epochs one by one; their callbacks are fired in that order. */
    method OnSyncSuccess(end: nat) returns (toFire: seq<Callback>)
      modifies this
      ensures (View(), toFire) == Succeed(old(View()), end)
    {
      toFire := [];
      if syncInProgressEnd == 0 || end != syncInProgressEnd {
        return;
      }
      syncInProgressEnd := 0;
      ghost var was, n := pending, 0;
      while pending != [] && pending[0].epoch <= end
        invariant 0 <= n <= |was| && pending == was[n..] && toFire == Callbacks(was[..n])
        invariant n + Covered(was[n..], end) == Covered(was, end)
        invariant durableEpoch == if n == 0 then old(durableEpoch) else was[n - 1].epoch
        invariant nextEpoch == old(nextEpoch) && healthy == old(healthy) && syncInProgressEnd == 0
        decreases |pending|
      {
        durableEpoch := pending[0].epoch;
        toFire := toFire + pending[0].callbacks;
        CallbacksNext(was, n);
        pending := pending[1..];
        n := n + 1;
      }
    }

    method OnSyncFailure(end: nat) returns (toFire: seq<Callback>)
      modifies this
      ensures (View(), toFire) == Fail(old(View()), end)
    {
      toFire := [];
      if syncInProgressEnd == 0 || end != syncInProgressEnd {
        return;
      }
      healthy, syncInProgressEnd := false, 0;
      ghost var was, n := pending, 0;
      while pending != []
        invariant 0 <= n <= |was| && pending == was[n..] && toFire == Callbacks(was[..n])
        invariant nextEpoch == old(nextEpoch) && durableEpoch == old(durableEpoch) && !healthy && syncInProgressEnd == 0
        decreases |pending|
      {
        toFire := toFire + pending[0].callbacks;
        CallbacksNext(was, n);
        pending := pending[1..];
        n := n + 1;
      }
      assert was[..n] == was;
    }
  }

  lemma CallbacksNext(epochs: seq<Epoch>, n: nat)
    requires n < |epochs|
    ensures Callbacks(epochs[..n + 1]) == Callbacks(epochs[..n]) + epochs[n].callbacks
  {
    assert epochs[..n + 1] == epochs[..n] + [epochs[n]];
    CallbacksInTwo(epochs[..n], [epochs[n]]);
    assert [epochs[n]][1..] == [];
    assert epochs[n].callbacks + [] == epochs[n].callbacks;
  }
}
