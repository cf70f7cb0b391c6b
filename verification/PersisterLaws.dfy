/**
 * What the log persister makes of entries and callbacks over whole runs: which entries it holds,
 * who hears of a failure, when it is healthy, and that it answers everyone.
 */
module PersisterLaws {

  import opened RaftTypes
  import opened GroupCommits
  import opened LogPersistence

  // ---------- entries ----------

  /** The entry is turned away: unhealthy, and still no space. */
  predicate Refuses(s: State, step: Step) {
    step.Append? && !s.healthy && !step.space
  }

  /** The entries buffered, in hand or in storage. */
  function Kept(s: State): set<Callback> {
    Ids(s.buffer) + Ids(Batch(s.flusher)) + s.written
  }

  predicate InHandWritten(s: State) {
    s.flusher.Written? || s.flusher.Syncing? ==> Ids(Batch(s.flusher)) <= s.written
  }

  lemma IdsInTwo(a: seq<Item>, b: seq<Item>)
    ensures Ids(a + b) == Ids(a) + Ids(b)
  {
    forall x ensures x in Ids(a + b) <==> x in Ids(a) + Ids(b) {
      if x in Ids(a) {
        var i :| 0 <= i < |a| && a[i].id == x;
        assert (a + b)[i].id == x;
      }
      if x in Ids(b) {
        var i :| 0 <= i < |b| && b[i].id == x;
        assert (a + b)[|a| + i].id == x;
      }
    }
  }

  lemma IdsOfOne(item: Item)
    ensures Ids([item]) == {item.id}
  {
    assert [item][0] == item;
  }

  lemma IdsOfDisarmed(items: seq<Item>)
    ensures Ids(Disarmed(items)) == Ids(items)
  {
    forall x ensures x in Ids(Disarmed(items)) <==> x in Ids(items) {
      if x in Ids(items) {
        var i :| 0 <= i < |items| && items[i].id == x;
        assert Disarmed(items)[i].id == x;
      }
    }
  }

  lemma StepKeepsEntries(grouped: bool, s: State, step: Step)
    requires Enabled(grouped, s, step) && InHandWritten(s)
    ensures InHandWritten(Next(grouped, s, step))
    ensures Kept(Next(grouped, s, step))
         == Kept(s) + if step.Append? && !Refuses(s, step) then {s.appended} else {}
  {
    match step
    case Append(callback, _) =>
      IdsInTwo(s.buffer, [Item(s.appended, callback)]);
      IdsOfOne(Item(s.appended, callback));
    case NoSpace => IdsInTwo(s.buffer, s.flusher.batch);
    case WriteFails(_) =>
      IdsInTwo(s.buffer, Disarmed(s.flusher.batch));
      IdsOfDisarmed(s.flusher.batch);
    case _ =>
  }

  /** Some append before point `n` brought the entry and was not turned away. */
  ghost predicate Accepted(states: seq<State>, steps: seq<Step>, n: nat, x: Callback)
    requires |states| == |steps| + 1 && n <= |steps|
  {
    exists k :: 0 <= k < n && AcceptedAt(states[k], steps[k], x)
  }

  predicate AcceptedAt(s: State, step: Step, x: Callback) {
    step.Append? && !Refuses(s, step) && s.appended == x
  }

  /** In every run the entries held are exactly those accepted: none is lost, none comes from nowhere. */
  lemma {:induction false} KeptIffAccepted(grouped: bool, states: seq<State>, steps: seq<Step>, n: nat)
    requires ValidRun(grouped, states, steps) && n <= |steps|
    ensures InHandWritten(states[n])
    ensures forall x :: x in Kept(states[n]) <==> Accepted(states, steps, n, x)
  {
    if n > 0 {
      KeptIffAccepted(grouped, states, steps, n - 1);
      StepKeepsEntries(grouped, states[n - 1], steps[n - 1]);
      forall x ensures x in Kept(states[n]) <==> Accepted(states, steps, n, x) {
        assert x in Kept(states[n]) <==> x in Kept(states[n - 1]) || AcceptedAt(states[n - 1], steps[n - 1], x);
      }
    }
  }

  /** What a flush waits for: nothing buffered and no batch in hand. Then all accepted entries are in storage. */
  lemma FlushedIsWritten(grouped: bool, states: seq<State>, steps: seq<Step>, n: nat, x: Callback)
    requires ValidRun(grouped, states, steps) && n <= |steps|
    requires states[n].buffer == [] && states[n].flusher.Idle?
    ensures x in states[n].written <==> Accepted(states, steps, n, x)
  {
    KeptIffAccepted(grouped, states, steps, n);
    assert x in Kept(states[n]) <==> x in states[n].written;
  }

  // ---------- bad news ----------

  predicate Fails(s: State, step: Step) {
    Refuses(s, step) || step.WriteFails? || step == SyncEnds(false) || step == InlineSyncEnds(false)
  }

  predicate NoneFails(states: seq<State>, steps: seq<Step>, n: nat)
    requires |states| == |steps| + 1 && n <= |steps|
  {
    forall k :: 0 <= k < n ==> !Fails(states[k], steps[k])
  }

  predicate AllGood(fired: seq<Outcome>) {
    forall i :: 0 <= i < |fired| ==> fired[i].ok
  }

  lemma GoodStepTellsGood(grouped: bool, s: State, step: Step)
    requires AllGood(s.fired) && s.controller.healthy && Valid(s.controller)
    requires Enabled(grouped, s, step) && !Fails(s, step)
    ensures AllGood(Next(grouped, s, step).fired) && Next(grouped, s, step).controller.healthy
  {
  }

  /** While no write, sync or append failed nobody hears of a failure, not even for want of space. */
  lemma {:induction false} BadNewsHasCause(grouped: bool, states: seq<State>, steps: seq<Step>, n: nat)
    requires ValidRun(grouped, states, steps) && n <= |steps| && NoneFails(states, steps, n)
    ensures AllGood(states[n].fired) && states[n].controller.healthy
  {
    if n > 0 {
      BadNewsHasCause(grouped, states, steps, n - 1);
      RunKeepsInv(grouped, states, steps, n - 1);
      GoodStepTellsGood(grouped, states[n - 1], steps[n - 1]);
    }
  }

  // ---------- health ----------

  predicate Harms(s: State, step: Step) {
    || step.NoSpace? || step.WriteFails? || step == SyncEnds(false) || step == InlineSyncEnds(false)
    || (step.RegisterBatch? && !s.controller.healthy)
  }

  /** A write that succeeds, or an append that finds space. */
  predicate Heals(step: Step) {
    step.WriteSucceeds? || (step.Append? && step.space)
  }

  predicate Harmed(states: seq<State>, steps: seq<Step>, j: nat, n: nat)
    requires |states| == |steps| + 1 && n <= |steps|
  {
    j < n && Harms(states[j], steps[j]) && forall k :: j < k < n ==> !Heals(steps[k])
  }

  lemma HarmedNext(states: seq<State>, steps: seq<Step>, j: nat, n: nat)
    requires |states| == |steps| + 1 && n < |steps|
    ensures Harmed(states, steps, j, n + 1)
       <==> (j == n && Harms(states[n], steps[n])) || (Harmed(states, steps, j, n) && !Heals(steps[n]))
  {
  }

  lemma HealthAfter(grouped: bool, s: State, step: Step)
    requires Valid(s.controller) && Enabled(grouped, s, step)
    ensures !Next(grouped, s, step).healthy <==> Harms(s, step) || (!s.healthy && !Heals(step))
  {
  }

  /** Unhealthy exactly while something that failed was not followed by a write or an append that found space. */
  lemma {:induction false} UnhealthyIff(grouped: bool, states: seq<State>, steps: seq<Step>, n: nat)
    requires ValidRun(grouped, states, steps) && n <= |steps|
    ensures !states[n].healthy <==> exists j: nat :: Harmed(states, steps, j, n)
  {
    if n > 0 {
      UnhealthyIff(grouped, states, steps, n - 1);
      RunKeepsInv(grouped, states, steps, n - 1);
      HealthAfter(grouped, states[n - 1], steps[n - 1]);
      forall j: nat
        ensures Harmed(states, steps, j, n)
           <==> (j == n - 1 && Harms(states[n - 1], steps[n - 1]))
                || (Harmed(states, steps, j, n - 1) && !Heals(steps[n - 1]))
      {
        HarmedNext(states, steps, j, n - 1);
      }
      if Harms(states[n - 1], steps[n - 1]) {
        assert Harmed(states, steps, n - 1, n);
      } else if !states[n].healthy {
        var j: nat :| Harmed(states, steps, j, n - 1);
        assert Harmed(states, steps, j, n);
      }
    }
  }

  // ---------- everyone is answered ----------

  /** Nobody waits on a controller that failed; without group commit nobody waits on it at all. */
  predicate NoneStranded(grouped: bool, s: State) {
    && (!s.controller.healthy ==> s.controller.pending == [])
    && (!grouped ==> s.controller == FRESH && s.syncer.Waiting?)
    && (grouped ==> !s.flusher.Syncing?)
  }

  lemma StepStrandsNone(grouped: bool, s: State, step: Step)
    requires NoneStranded(grouped, s) && AckInv(s) && Enabled(grouped, s, step)
    ensures NoneStranded(grouped, Next(grouped, s, step))
  {
  }

  lemma {:induction false} NoneLeftWaiting(grouped: bool, states: seq<State>, steps: seq<Step>, n: nat)
    requires ValidRun(grouped, states, steps) && n <= |steps|
    ensures NoneStranded(grouped, states[n])
  {
    if n > 0 {
      NoneLeftWaiting(grouped, states, steps, n - 1);
      RunKeepsInv(grouped, states, steps, n - 1);
      StepStrandsNone(grouped, states[n - 1], steps[n - 1]);
    }
  }

  /** What the threads do next when nothing is appended and the disk works. */
  function Onward(grouped: bool, s: State): Option<Step> {
    match s.flusher
    case Taken(_) => Some(WriteSucceeds)
    case Written(_) => Some(if grouped then RegisterBatch else InlineSyncStarts)
    case Syncing(_, _) => Some(InlineSyncEnds(true))
    case Idle =>
      if s.buffer != [] then Some(Take)
      else match s.syncer
        case Acquired(_) => Some(SyncStarts)
        case InSync(_, _) => Some(SyncEnds(true))
        case Waiting => if grouped && Acquire(s.controller).1.Some? then Some(AcquireRange) else None
  }

  function FlushWork(s: State): nat {
    (if s.buffer == [] then 0 else 4)
    + match s.flusher
      case Taken(_) => 3
      case Written(_) => 2
      case Syncing(_, _) => 1
      case Idle => 0
  }

  function SyncWork(s: State): nat {
    var c := s.controller;
    match s.syncer
    case Waiting => if c.pending == [] then 0 else 3
    case Acquired(end) => 2 + if end < c.durableEpoch + |c.pending| then 3 else 0
    case InSync(end, _) => 1 + if end < c.durableEpoch + |c.pending| then 3 else 0
  }

  lemma SyncEndsWork(grouped: bool, s: State)
    requires AckInv(s) && Enabled(grouped, s, SyncEnds(true))
    ensures SyncWork(Next(grouped, s, SyncEnds(true))) < SyncWork(s)
  {
    SucceedSettlesRange(s.controller, s.syncer.end);
  }

  lemma OnwardWorks(grouped: bool, s: State)
    requires AckInv(s) && NoneStranded(grouped, s) && Onward(grouped, s).Some?
    ensures var step := Onward(grouped, s).value;
            && Enabled(grouped, s, step) && !Fails(s, step)
            && var s' := Next(grouped, s, step);
               && (FlushWork(s') < FlushWork(s) || (FlushWork(s') == FlushWork(s) && SyncWork(s') < SyncWork(s)))
               && s'.controller.healthy == s.controller.healthy && s'.armed == s.armed
  {
    if Onward(grouped, s) == Some(SyncEnds(true)) {
      SyncEndsWork(grouped, s);
    } else if Onward(grouped, s) == Some(AcquireRange) {
      AcquireCoversPending(s.controller);
    }
  }

  predicate TellsOnly(fired: seq<Outcome>, fired': seq<Outcome>, ok: bool) {
    fired <= fired' && forall i :: |fired| <= i < |fired'| ==> fired'[i].ok == ok
  }

  lemma OnwardTells(grouped: bool, s: State)
    requires AckInv(s) && NoneStranded(grouped, s) && Onward(grouped, s).Some?
    ensures Enabled(grouped, s, Onward(grouped, s).value)
    ensures TellsOnly(s.fired, Next(grouped, s, Onward(grouped, s).value).fired, s.controller.healthy)
  {
  }

  lemma AtRest(grouped: bool, s: State)
    requires Inv(s) && NoneStranded(grouped, s) && Onward(grouped, s) == None
    ensures s.buffer == [] && s.flusher.Idle? && s.syncer.Waiting? && s.controller.pending == []
    ensures multiset(FiredIds(s.fired)) == multiset(s.armed)
  {
    assert Whereabouts(s) == multiset(s.armed);
  }

  lemma OneMoreStep(grouped: bool, states: seq<State>, steps: seq<Step>, step: Step)
    requires ValidRun(grouped, states, steps) && Enabled(grouped, states[|steps|], step)
    ensures ValidRun(grouped, states + [Next(grouped, states[|steps|], step)], steps + [step])
  {
  }

  lemma TellsOn(a: seq<Outcome>, b: seq<Outcome>, c: seq<Outcome>, ok: bool)
    requires TellsOnly(a, b, ok) && TellsOnly(b, c, ok)
    ensures TellsOnly(a, c, ok)
  {
  }

  /** At rest, and all that was told since `s` was told `s`'s health. */
  predicate Answered(s: State, rest: State) {
    && rest.buffer == [] && rest.flusher.Idle? && rest.syncer.Waiting?
    && rest.armed == s.armed && multiset(FiredIds(rest.fired)) == multiset(rest.armed)
    && rest.controller.healthy == s.controller.healthy
    && TellsOnly(s.fired, rest.fired, s.controller.healthy)
  }

  /**
   * From any point of any run, without further appends or failures both threads come to rest with
   * every callback told: OK exactly when no group sync failed before.
   */
  lemma {:induction false} EveryoneIsAnswered(grouped: bool, states: seq<State>, steps: seq<Step>)
    returns (states': seq<State>, steps': seq<Step>)
    requires ValidRun(grouped, states, steps)
    ensures ValidRun(grouped, states', steps') && states <= states' && steps <= steps'
    ensures Answered(states[|steps|], states'[|steps'|])
    decreases FlushWork(states[|steps|]), SyncWork(states[|steps|])
  {
    var s := states[|steps|];
    RunKeepsInv(grouped, states, steps, |steps|);
    NoneLeftWaiting(grouped, states, steps, |steps|);
    if Onward(grouped, s) == None {
      AtRest(grouped, s);
      states', steps' := states, steps;
    } else {
      var step := Onward(grouped, s).value;
      OnwardWorks(grouped, s);
      OnwardTells(grouped, s);
      OneMoreStep(grouped, states, steps, step);
      states', steps' := EveryoneIsAnswered(grouped, states + [Next(grouped, s, step)], steps + [step]);
      TellsOn(s.fired, Next(grouped, s, step).fired, states'[|steps'|].fired, s.controller.healthy);
    }
  }
}
