/**
 * Whole runs of the apply queue: when the enqueue loop meets a missing entry, what a restored
 * snapshot suffers from the apply thread, and what is in the state machine in the end.
 */
module ApplyRuns {

  import opened RaftTypes
  import opened RaftLogs
  import opened Appliers

  // ---------- runs ----------

  /** Those past an index: the apply thread skips the others as superseded. */
  function Beyond(tasks: seq<Task>, index: nat): seq<Task>
    decreases |tasks|
  {
    if tasks == [] then []
    else if tasks[0].index <= index then Beyond(tasks[1..], index)
    else tasks
  }

  /** What the thread will still hand over, and where its own index will end. */
  function Rest(s: State): seq<Task> {
    match s.hand
    case Idle => []
    case Popped(batch) => Beyond(batch, s.lastApplied)
    case Working(cursor, batch) => Beyond(batch, cursor)
  }

  function Cursor(s: State): nat {
    if s.hand.Working? then s.hand.cursor else s.lastApplied
  }

  /**
   * A state with the index its own indices were last set to, everything enqueued since, and where
   * the thread stood when the machine was last restored.
   */
  datatype Moment = Moment(now: State, base: nat, enqueued: seq<Task>, stood: nat)

  /** An installed snapshot, as opposed to one that is skipped. */
  predicate Resets(s: State, step: Step) {
    step.Install? && Installs(s, step.index)
  }

  function After(m: Moment, step: Step): Moment
    requires Enabled(m.now, step)
  {
    var s := Next(m.now, step);
    if Resets(m.now, step) then Moment(s, step.index, [], m.stood)
    else if step.Restore? then Moment(s, m.base, m.enqueued, Cursor(m.now))
    else if step.AdvanceCommit? && |m.now.queue| <= |s.queue| then
      Moment(s, m.base, m.enqueued + s.queue[|m.now.queue|..], m.stood)
    else Moment(s, m.base, m.enqueued, m.stood)
  }

  /** A start: a restored snapshot, if any, and the log behind it. */
  predicate Init(m: Moment) {
    && m.now.log.Contiguous() && m.now.log.start == m.now.snapshotIndex + 1
    && m == Moment(Started(m.now.log, m.now.snapshotIndex), m.now.snapshotIndex, [], m.now.snapshotIndex)
  }

  predicate ValidRun(run: seq<Moment>, steps: seq<Step>) {
    && |run| == |steps| + 1 && Init(run[0])
    && (forall k :: 0 <= k < |steps| ==> Enabled(run[k].now, steps[k]) && run[k + 1] == After(run[k], steps[k]))
  }

  lemma {:induction false} RunKeepsShape(run: seq<Moment>, steps: seq<Step>, k: nat)
    requires ValidRun(run, steps) && k < |run| && !run[k].now.aborted
    ensures Shape(run[k].now)
  {
    if k > 0 {
      RunKeepsShape(run, steps, k - 1);
      StepKeepsShape(run[k - 1].now, steps[k - 1]);
    }
  }

  /** Some step was bad and none has mended it since. */
  predicate Since(bad: (Moment, Step) -> bool, mends: (Moment, Step) -> bool, run: seq<Moment>, steps: seq<Step>,
                  k: nat)
    requires |steps| < |run| && k <= |steps|
  {
    exists j :: 0 <= j < k && bad(run[j], steps[j]) && Unmended(mends, run, steps, j + 1, k)
  }

  predicate Unmended(mends: (Moment, Step) -> bool, run: seq<Moment>, steps: seq<Step>, from: nat, to: nat)
    requires |steps| < |run| && to <= |steps|
  {
    forall i :: from <= i < to ==> !mends(run[i], steps[i])
  }

  lemma SinceOneMore(bad: (Moment, Step) -> bool, mends: (Moment, Step) -> bool, run: seq<Moment>, steps: seq<Step>,
                     k: nat)
    requires |steps| < |run| && k < |steps|
    ensures Since(bad, mends, run, steps, k + 1) <==>
            bad(run[k], steps[k]) || (Since(bad, mends, run, steps, k) && !mends(run[k], steps[k]))
  {
    if Since(bad, mends, run, steps, k + 1) {
      var j :| 0 <= j < k + 1 && bad(run[j], steps[j]) && Unmended(mends, run, steps, j + 1, k + 1);
      if j < k {
        assert !mends(run[k], steps[k]) && Unmended(mends, run, steps, j + 1, k);
      }
    }
    if bad(run[k], steps[k]) {
      assert Unmended(mends, run, steps, k + 1, k + 1);
    } else if Since(bad, mends, run, steps, k) && !mends(run[k], steps[k]) {
      var j :| 0 <= j < k && bad(run[j], steps[j]) && Unmended(mends, run, steps, j + 1, k);
      assert Unmended(mends, run, steps, j + 1, k + 1);
    }
  }

  // ---------- the missing entry ----------

  /** An applied compaction past what is enqueued. */
  predicate Overshoots(m: Moment, step: Step) {
    step.Compact? && Compacts(m.now, step.index) && step.index > m.now.lastEnqueued
  }

  predicate Renews(m: Moment, step: Step) {
    Resets(m.now, step)
  }

  /** One step breaks the log's reach by overshooting, and mends it by installing. */
  lemma StepKeepsReachIff(m: Moment, step: Step)
    requires Shape(m.now) && Enabled(m.now, step) && !Next(m.now, step).aborted
    ensures Reaches(Next(m.now, step)) <==> !Overshoots(m, step) && (Reaches(m.now) || Renews(m, step))
  {
    match step
    case AdvanceCommit(index) => AdvanceAbortsIff(m.now, index);
    case _ =>
  }

  lemma {:induction false} ReachesIff(run: seq<Moment>, steps: seq<Step>, k: nat)
    requires ValidRun(run, steps) && k < |run| && !run[k].now.aborted
    ensures Reaches(run[k].now) <==> !Since(Overshoots, Renews, run, steps, k)
  {
    if k > 0 {
      ReachesIff(run, steps, k - 1);
      RunKeepsShape(run, steps, k - 1);
      StepKeepsReachIff(run[k - 1], steps[k - 1]);
      SinceOneMore(Overshoots, Renews, run, steps, k - 1);
    }
  }

  /**
   * In every run of appends, truncations, commits, batches and snapshots, moving the commit index
   * meets a missing entry exactly when a compaction overshot since the last installed snapshot
   * and there is something to enqueue.
   */
  lemma MissingEntryIff(run: seq<Moment>, steps: seq<Step>, k: nat)
    requires ValidRun(run, steps) && k < |steps| && steps[k].AdvanceCommit?
    ensures var s := run[k].now;
            run[k + 1].now.aborted <==>
            && steps[k].index > s.commitIndex && Committed(s.log, s.commitIndex, steps[k].index) > s.lastEnqueued
            && Since(Overshoots, Renews, run, steps, k)
  {
    RunKeepsShape(run, steps, k);
    AdvanceAbortsIff(run[k].now, steps[k].index);
    ReachesIff(run, steps, k);
  }

  // ---------- a snapshot and the apply thread ----------

  /** Where the thread's own index will end. */
  function Destination(s: State): nat {
    if Rest(s) == [] then Cursor(s) else Rest(s)[|Rest(s)| - 1].index
  }

  lemma {:induction false} BeyondIsTail(tasks: seq<Task>, index: nat)
    requires Chained(tasks)
    ensures Chained(Beyond(tasks, index)) && |Beyond(tasks, index)| <= |tasks|
    ensures forall t :: t in Beyond(tasks, index) ==> t.index > index
    ensures Beyond(tasks, index) != [] ==> Beyond(tasks, index)[|Beyond(tasks, index)| - 1] == tasks[|tasks| - 1]
    ensures Beyond(tasks, index) == [] ==> tasks == [] || tasks[|tasks| - 1].index <= index
    decreases |tasks|
  {
    if tasks != [] && tasks[0].index <= index {
      assert Chained(tasks[1..]) by {
        assert forall k :: 0 <= k < |tasks[1..]| ==> tasks[1..][k] == tasks[k + 1];
      }
      BeyondIsTail(tasks[1..], index);
    }
  }

  lemma {:induction false} DeliveredInTwo(a: seq<Task>, b: seq<Task>)
    ensures Delivered(a + b) == Delivered(a) + Delivered(b)
    decreases |b|
  {
    if b == [] {
      assert a + b == a && Delivered(a) + [] == Delivered(a);
    } else {
      var n := |b| - 1;
      DeliveredInTwo(a, b[..n]);
      assert (a + b)[..|a + b| - 1] == a + b[..n];
      var last := if b[n].config then [] else [b[n]];
      assert Delivered(a) + (Delivered(b[..n]) + last) == Delivered(a) + Delivered(b[..n]) + last;
    }
  }

  lemma DeliveredFirst(task: Task, tasks: seq<Task>)
    ensures Delivered([task] + tasks) == (if task.config then [] else [task]) + Delivered(tasks)
  {
    DeliveredInTwo([task], tasks);
    assert [task][..0] == [];
  }

  /** Until the batch is published, the machine and what the thread still has for it add up; nothing else changes. */
  lemma StepKeepsCourse(s: State, step: Step)
    requires Shape(s) && Enabled(s, step) && !s.hand.Idle? && !step.Publish? && !Resets(s, step) && !step.Restore?
    ensures var s' := Next(s, step);
            && s'.machine.base == s.machine.base && !s'.hand.Idle? && Destination(s') == Destination(s)
            && s'.machine.given + Delivered(Rest(s')) == s.machine.given + Delivered(Rest(s))
  {
    match step
    case AdvanceCommit(index) => AdvanceAbortsIff(s, index); AdvanceLeavesHand(s, index);
    case ApplyNext =>
      var task, rest := s.hand.batch[0], s.hand.batch[1..];
      if task.index > s.hand.cursor {
        assert s.hand.batch == [task] + rest;
        DeliveredFirst(task, rest);
        BeyondFirst(s.hand.batch);
        var given, one := s.machine.given, if task.config then [] else [task];
        assert given + one + Delivered(rest) == given + (one + Delivered(rest));
        assert WithTask(s.machine, task).given == given + one;
      }
    case _ =>
  }

  lemma BeyondFirst(tasks: seq<Task>)
    requires Chained(tasks) && tasks != []
    ensures Beyond(tasks[1..], tasks[0].index) == tasks[1..]
  {
    if |tasks| > 1 {
      assert tasks[1..][0] == tasks[1];
    }
  }

  lemma {:induction false} EnqueuedLeavesHand(s: State)
    ensures Enqueued(s).hand == s.hand && Enqueued(s).machine == s.machine && Enqueued(s).lastApplied == s.lastApplied
    decreases s.commitIndex - s.lastEnqueued
  {
    if s.lastEnqueued < s.commitIndex {
      var i := s.lastEnqueued + 1;
      var entry := s.log.At(i);
      if entry != None {
        EnqueuedLeavesHand(s.(lastEnqueued := i, queue := s.queue + [TaskOf(entry.value)]));
      }
    }
  }

  lemma AdvanceLeavesHand(s: State, index: nat)
    ensures var s' := Advanced(s, index);
            s'.hand == s.hand && s'.machine == s.machine && s'.lastApplied == s.lastApplied
  {
    EnqueuedLeavesHand(s.(commitIndex := Committed(s.log, s.commitIndex, index)));
  }

  /** Nothing restores or installs in `[from, to)`. */
  predicate Quiet(run: seq<Moment>, steps: seq<Step>, from: nat, to: nat)
    requires |steps| < |run| && to <= |steps|
  {
    forall i :: from <= i < to ==> !Resets(run[i].now, steps[i]) && !steps[i].Restore?
  }

  predicate Busy(run: seq<Moment>, from: nat, to: nat)
    requires to <= |run|
  {
    forall i :: from <= i < to ==> !run[i].now.hand.Idle?
  }

  lemma {:induction false} CourseHolds(run: seq<Moment>, steps: seq<Step>, j: nat, k: nat)
    requires ValidRun(run, steps) && j <= k < |run| && !run[k].now.aborted
    requires Quiet(run, steps, j, k) && Busy(run, j, k + 1)
    ensures var s, s' := run[j].now, run[k].now;
            && s'.machine.base == s.machine.base && Destination(s') == Destination(s)
            && s'.machine.given + Delivered(Rest(s')) == s.machine.given + Delivered(Rest(s))
    decreases k
  {
    if j < k {
      CourseHolds(run, steps, j, k - 1);
      RunKeepsShape(run, steps, k - 1);
      StepKeepsCourse(run[k - 1].now, steps[k - 1]);
    }
  }

  /** The thread puts down its batch: what it has given, and where it stands. */
  lemma BatchEnds(run: seq<Moment>, steps: seq<Step>, j: nat, k: nat)
    requires ValidRun(run, steps) && j <= k < |run| && !run[k].now.aborted
    requires Quiet(run, steps, j, k) && Busy(run, j, k) && run[k].now.hand.Idle?
    ensures var s, s' := run[j].now, run[k].now;
            && s'.machine == Machine(s.machine.base, s.machine.given + Delivered(Rest(s)))
            && s'.lastApplied == Destination(s)
  {
    var s := run[j].now;
    if j == k {
      assert s.machine.given + [] == s.machine.given;
    } else {
      CourseHolds(run, steps, j, k - 1);
      var last := run[k - 1].now;
      LeavesHandIdle(last, steps[k - 1]);
      assert last.machine.given + [] == last.machine.given;
    }
  }

  lemma LeavesHandIdle(s: State, step: Step)
    requires Enabled(s, step) && !s.hand.Idle? && Next(s, step).hand.Idle?
    ensures step.Publish?
  {
    match step
    case AdvanceCommit(index) => AdvanceLeavesHand(s, index);
    case _ =>
  }

  /** The step gives the machine a task. */
  predicate HandsOver(s: State, step: Step) {
    && step.ApplyNext? && s.hand.Working? && s.hand.batch != []
    && s.hand.batch[0].index > s.hand.cursor && !s.hand.batch[0].config
  }

  predicate NoneHandedOver(run: seq<Moment>, steps: seq<Step>, from: nat, to: nat)
    requires |steps| < |run| && to <= |steps|
  {
    forall i :: from <= i < to ==> !HandsOver(run[i].now, steps[i])
  }

  lemma StepGives(s: State, step: Step)
    requires Enabled(s, step) && !step.Restore?
    ensures var s' := Next(s, step);
            && s'.machine.base == s.machine.base && |s'.machine.given| >= |s.machine.given|
            && (|s'.machine.given| > |s.machine.given| <==> HandsOver(s, step))
  {
    match step
    case AdvanceCommit(index) => AdvanceLeavesHand(s, index);
    case _ =>
  }

  /** A restored machine is as it was restored exactly until a task is handed over. */
  lemma {:induction false} UntouchedIff(run: seq<Moment>, steps: seq<Step>, i: nat, j: nat)
    requires ValidRun(run, steps) && i < j < |run| && steps[i].Restore?
    requires forall x :: i < x < j ==> !steps[x].Restore?
    ensures run[j].now.machine.base == steps[i].index
    ensures run[j].now.machine.given == [] <==> NoneHandedOver(run, steps, i + 1, j)
  {
    if j > i + 1 {
      UntouchedIff(run, steps, i, j - 1);
      StepGives(run[j - 1].now, steps[j - 1]);
    }
  }

  /** Whether the batch in hand, if any, leaves alone a snapshot installed now. */
  predicate Harmless(s: State, index: nat) {
    var s' := Installed(s, index);
    s.hand.Idle? || ((forall t :: t in Rest(s') ==> t.config) && Destination(s') == index)
  }

  lemma {:induction false} NothingDelivered(tasks: seq<Task>)
    ensures Delivered(tasks) == [] <==> forall t :: t in tasks ==> t.config
  {
    if tasks != [] {
      var n := |tasks| - 1;
      NothingDelivered(tasks[..n]);
      assert tasks == tasks[..n] + [tasks[n]];
    }
  }

  /**
   * A snapshot restored at step `i` and installed at step `j`: when the thread has put down what it
   * had in hand, machine and applied index are as the snapshot left them exactly when the thread gave
   * the machine nothing in between and what it still had was harmless.
   */
  lemma SnapshotUnharmedIff(run: seq<Moment>, steps: seq<Step>, i: nat, j: nat, k: nat)
    requires ValidRun(run, steps) && i < j < k < |run| && !run[k].now.aborted
    requires steps[i].Restore? && (forall x :: i < x < j ==> !steps[x].Restore?) && Resets(run[j].now, steps[j])
    requires Quiet(run, steps, j + 1, k) && Busy(run, j + 1, k) && run[k].now.hand.Idle?
    ensures var index, s' := steps[j].index, run[k].now;
            && s'.machine == Machine(index, run[j].now.machine.given + Delivered(Rest(run[j + 1].now)))
            && s'.lastApplied == Destination(run[j + 1].now)
            && (s'.machine == Machine(index, []) && s'.lastApplied == index <==>
                NoneHandedOver(run, steps, i + 1, j) && Harmless(run[j].now, index))
  {
    UntouchedIff(run, steps, i, j);
    BaseIsRestored(run, steps, j);
    BatchEnds(run, steps, j + 1, k);
    NothingDelivered(Rest(run[j + 1].now));
  }

  /** While a snapshot is being installed it is what the machine was last restored from. */
  lemma {:induction false} BaseIsRestored(run: seq<Moment>, steps: seq<Step>, k: nat)
    requires ValidRun(run, steps) && k < |run| && run[k].now.restoring.Some?
    ensures run[k].now.machine.base == run[k].now.restoring.value
  {
    if k > 0 {
      var s, step := run[k - 1].now, steps[k - 1];
      StepLeavesRestoring(s, step);
      if !step.Restore? {
        BaseIsRestored(run, steps, k - 1);
        StepGives(s, step);
      }
    }
  }

  lemma {:induction false} EnqueuedLeavesRestoring(s: State)
    ensures Enqueued(s).restoring == s.restoring
    decreases s.commitIndex - s.lastEnqueued
  {
    if s.lastEnqueued < s.commitIndex {
      var i := s.lastEnqueued + 1;
      var entry := s.log.At(i);
      if entry != None {
        EnqueuedLeavesRestoring(s.(lastEnqueued := i, queue := s.queue + [TaskOf(entry.value)]));
      }
    }
  }

  lemma StepLeavesRestoring(s: State, step: Step)
    requires Enabled(s, step)
    ensures Next(s, step).restoring
         == if step.Restore? then Some(step.index) else if step.Install? then None else s.restoring
  {
    match step
    case AdvanceCommit(index) => EnqueuedLeavesRestoring(s.(commitIndex := Committed(s.log, s.commitIndex, index)));
    case _ =>
  }

  // ---------- never past what is enqueued ----------

  /** Neither the applied index nor the batch in hand is ahead of what was enqueued. */
  predicate Within(s: State) {
    s.lastApplied <= s.lastEnqueued && Destination(s) <= s.lastEnqueued
  }

  /** A snapshot installed under a batch that ends beyond it. */
  predicate Strays(s: State, step: Step) {
    Resets(s, step) && Destination(Installed(s, step.index)) > step.index
  }

  lemma PopKeepsWithin(s: State)
    requires Shape(s) && Within(s) && Enabled(s, Pop)
    ensures Within(Next(s, Pop)) && Rest(Next(s, Pop)) == Beyond(s.queue[..Min(BATCH_SIZE, |s.queue|)], s.lastApplied)
  {
    var n := Min(BATCH_SIZE, |s.queue|);
    BeyondIsTail(s.queue[..n], s.lastApplied);
    assert s.queue[..n][n - 1] == s.queue[n - 1];
  }

  lemma StepKeepsWithin(s: State, step: Step)
    requires Shape(s) && Within(s) && Enabled(s, step) && !Strays(s, step)
    ensures Within(Next(s, step))
  {
    match step
    case AdvanceCommit(index) => AdvanceAbortsIff(s, index); AdvanceLeavesHand(s, index);
    case Pop => PopKeepsWithin(s);
    case ApplyNext => StepKeepsCourse(s, step);
    case _ =>
  }

  /** The node's own snapshots are taken at or below the applied index. */
  predicate TakenFromApplied(run: seq<Moment>, steps: seq<Step>, k: nat)
    requires k <= |steps| < |run|
  {
    forall j :: 0 <= j < k && steps[j].Compact? ==> steps[j].index <= run[j].now.lastApplied
  }

  predicate NoneStrays(run: seq<Moment>, steps: seq<Step>, k: nat)
    requires k <= |steps| < |run|
  {
    forall j :: 0 <= j < k ==> !Strays(run[j].now, steps[j])
  }

  lemma AdvancesWithin(run: seq<Moment>, steps: seq<Step>, k: nat)
    requires ValidRun(run, steps) && k < |steps| && TakenFromApplied(run, steps, k)
    requires forall j :: 0 <= j < k ==> Within(run[j].now)
    ensures !steps[k].AdvanceCommit? || !run[k + 1].now.aborted
  {
    if steps[k].AdvanceCommit? {
      MissingEntryIff(run, steps, k);
    }
  }

  /**
   * With that no run ever meets a missing entry, unless a snapshot was installed under a batch that
   * ended beyond it.
   */
  lemma {:induction false} NeverAborts(run: seq<Moment>, steps: seq<Step>, k: nat)
    requires ValidRun(run, steps) && k < |run| && NoneStrays(run, steps, k) && TakenFromApplied(run, steps, k)
    ensures !run[k].now.aborted && Within(run[k].now)
  {
    if k > 0 {
      forall j | 0 <= j < k ensures Within(run[j].now) && !run[j].now.aborted {
        NeverAborts(run, steps, j);
      }
      RunKeepsShape(run, steps, k - 1);
      StepKeepsWithin(run[k - 1].now, steps[k - 1]);
      AdvancesWithin(run, steps, k - 1);
    }
  }

  // ---------- what is in the machine ----------

  /** Each enqueued task is processed, in hand, or queued: in that order, none lost, none twice. */
  predicate QueueOk(m: Moment) {
    var left := Rest(m.now) + m.now.queue;
    && m.now.lastEnqueued == m.base + |m.enqueued| && Consecutive(m.enqueued, m.base) && |left| <= |m.enqueued|
    && m.enqueued[|m.enqueued| - |left|..] == left && Cursor(m.now) == m.base + |m.enqueued| - |left|
  }

  /** What was enqueued with indices in `(from, to]`; none when the bounds are the other way round. */
  function Between(base: nat, tasks: seq<Task>, from: nat, to: nat): seq<Task> {
    if base <= from <= to <= base + |tasks| then tasks[from - base..to - base] else []
  }

  /** A machine restored at `base` and given `given` is where one that has processed everything up to `at` is. */
  predicate Level(m: Moment, machine: Machine, at: nat) {
    && m.base <= machine.base <= m.base + |m.enqueued|
    && machine.given + Delivered(Between(m.base, m.enqueued, at, machine.base))
         == Delivered(Between(m.base, m.enqueued, machine.base, at))
  }

  /** The state machine has exactly what the node counts as processed. */
  predicate InStep(m: Moment) {
    QueueOk(m) && Level(m, m.now.machine, Cursor(m.now))
  }

  /** The machine was restored and has been given what the thread processed since. */
  predicate Restarted(m: Moment) {
    && QueueOk(m) && m.base <= m.stood <= Cursor(m.now)
    && m.now.machine.given == Delivered(Between(m.base, m.enqueued, m.stood, Cursor(m.now)))
  }

  predicate Good(m: Moment) {
    if m.now.restoring.None? then InStep(m)
    else Restarted(m) && m.now.machine.base == m.now.restoring.value
  }

  // ---------- steps other than restores and installs ----------

  lemma BetweenInTwo(base: nat, tasks: seq<Task>, a: nat, b: nat, c: nat)
    requires base <= a <= b <= c <= base + |tasks|
    ensures Between(base, tasks, a, c) == Between(base, tasks, a, b) + Between(base, tasks, b, c)
    ensures Delivered(Between(base, tasks, a, c))
         == Delivered(Between(base, tasks, a, b)) + Delivered(Between(base, tasks, b, c))
  {
    assert tasks[a - base..c - base] == tasks[a - base..b - base] + tasks[b - base..c - base];
    DeliveredInTwo(tasks[a - base..b - base], tasks[b - base..c - base]);
  }

  lemma LevelBelow(m: Moment, machine: Machine, at: nat)
    requires m.base <= machine.base <= at <= m.base + |m.enqueued|
    ensures Level(m, machine, at) <==> machine.given == Delivered(Between(m.base, m.enqueued, machine.base, at))
  {
    assert machine.given + [] == machine.given;
  }

  lemma LevelAbove(m: Moment, machine: Machine, at: nat)
    requires m.base <= at < machine.base <= m.base + |m.enqueued|
    ensures Level(m, machine, at) <==>
            machine.given == [] && Delivered(Between(m.base, m.enqueued, at, machine.base)) == []
  {
    var ahead := Delivered(Between(m.base, m.enqueued, at, machine.base));
    assert |machine.given + ahead| == |machine.given| + |ahead|;
  }

  lemma OneMoreBelow(m: Moment, b: nat, at: nat, task: Task)
    requires m.base <= b <= at < m.base + |m.enqueued| && m.enqueued[at - m.base] == task
    ensures Delivered(Between(m.base, m.enqueued, b, at + 1))
         == Delivered(Between(m.base, m.enqueued, b, at)) + if task.config then [] else [task]
  {
    OneTaskBetween(m, at, task);
    BetweenInTwo(m.base, m.enqueued, b, at, at + 1);
  }

  lemma OneFewerAbove(m: Moment, b: nat, at: nat, task: Task)
    requires m.base <= at < b <= m.base + |m.enqueued| && m.enqueued[at - m.base] == task
    requires Delivered(Between(m.base, m.enqueued, at, b)) == []
    ensures task.config && Delivered(Between(m.base, m.enqueued, at + 1, b)) == []
  {
    OneTaskBetween(m, at, task);
    BetweenInTwo(m.base, m.enqueued, at, at + 1, b);
  }

  /** Processing the next task in line keeps machine and position level. */
  lemma TaskKeepsLevel(m: Moment, machine: Machine, at: nat, task: Task)
    requires Level(m, machine, at) && m.base <= at < m.base + |m.enqueued| && m.enqueued[at - m.base] == task
    ensures Level(m, WithTask(machine, task), at + 1)
  {
    if machine.base <= at {
      LevelBelow(m, machine, at);
      OneMoreBelow(m, machine.base, at, task);
      GivenMore(machine, task);
      LevelBelow(m, WithTask(machine, task), at + 1);
    } else {
      LevelAbove(m, machine, at);
      OneFewerAbove(m, machine.base, at, task);
      LevelAhead(m, machine, at + 1);
    }
  }

  lemma GivenMore(machine: Machine, task: Task)
    ensures WithTask(machine, task).base == machine.base
    ensures WithTask(machine, task).given == machine.given + if task.config then [] else [task]
  {
  }

  lemma LevelAhead(m: Moment, machine: Machine, at: nat)
    requires m.base <= at <= machine.base <= m.base + |m.enqueued| && machine.given == []
    requires Delivered(Between(m.base, m.enqueued, at, machine.base)) == []
    ensures Level(m, machine, at)
  {
    if at == machine.base {
      LevelBelow(m, machine, at);
    } else {
      LevelAbove(m, machine, at);
    }
  }

  lemma OneTaskBetween(m: Moment, at: nat, task: Task)
    requires m.base <= at < m.base + |m.enqueued| && m.enqueued[at - m.base] == task
    ensures Delivered(Between(m.base, m.enqueued, at, at + 1)) == if task.config then [] else [task]
  {
    assert Between(m.base, m.enqueued, at, at + 1) == [task];
    assert [task][..0] == [];
  }

  /** What the thread does with its next task, as the record sees it. */
  lemma TaskKeepsQueue(m: Moment)
    requires Shape(m.now) && QueueOk(m) && Enabled(m.now, ApplyNext)
    ensures var m', s, at := After(m, ApplyNext), m.now, Cursor(m.now);
            && QueueOk(m') && m'.base == m.base && m'.enqueued == m.enqueued && m'.stood == m.stood
            && (|| (Cursor(m'.now) == at && m'.now.machine == s.machine)
                || (&& Cursor(m'.now) == at + 1 && m.base <= at < m.base + |m.enqueued|
                    && m'.now.machine == WithTask(s.machine, m.enqueued[at - m.base])))
  {
    var s := m.now;
    var task, rest := s.hand.batch[0], s.hand.batch[1..];
    if task.index > s.hand.cursor {
      var n := |m.enqueued| - |Rest(s) + s.queue|;
      BeyondFirst(s.hand.batch);
      assert m.enqueued[n] == m.enqueued[n..][0] == task;
      assert m.enqueued[n + 1..] == m.enqueued[n..][1..] == rest + s.queue;
    }
  }

  lemma TaskKeepsInStep(m: Moment)
    requires Shape(m.now) && InStep(m) && Enabled(m.now, ApplyNext)
    ensures InStep(After(m, ApplyNext))
  {
    var m', at := After(m, ApplyNext), Cursor(m.now);
    TaskKeepsQueue(m);
    if Cursor(m'.now) == at + 1 {
      TaskKeepsLevel(m, m.now.machine, at, m.enqueued[at - m.base]);
    }
  }

  lemma TaskKeepsRestarted(m: Moment)
    requires Shape(m.now) && Restarted(m) && Enabled(m.now, ApplyNext)
    ensures Restarted(After(m, ApplyNext)) && After(m, ApplyNext).now.machine.base == m.now.machine.base
  {
    var m', at := After(m, ApplyNext), Cursor(m.now);
    TaskKeepsQueue(m);
    if Cursor(m'.now) == at + 1 {
      OneTaskBetween(m, at, m.enqueued[at - m.base]);
      BetweenInTwo(m.base, m.enqueued, m.stood, at, at + 1);
      assert m.now.machine.given + [] == m.now.machine.given;
    }
  }

  lemma TaskKeepsGood(m: Moment)
    requires Shape(m.now) && Good(m) && Enabled(m.now, ApplyNext)
    ensures Good(After(m, ApplyNext))
  {
    if m.now.restoring.None? {
      TaskKeepsInStep(m);
    } else {
      TaskKeepsRestarted(m);
    }
  }

  /** The machine's side of `Good` looks only at the record, the machine and the position. */
  lemma SameSide(m: Moment, m': Moment)
    requires Good(m) && QueueOk(m') && m'.now.machine == m.now.machine && m'.now.restoring == m.now.restoring
    requires m'.base == m.base && m'.stood == m.stood && Cursor(m'.now) == Cursor(m.now)
    requires m.enqueued <= m'.enqueued
    ensures Good(m')
  {
    var p := Cursor(m.now);
    if m.now.restoring.None? {
      SamePart(m, m', m.now.machine.base, p);
      SamePart(m, m', p, m.now.machine.base);
    } else {
      SamePart(m, m', m.stood, p);
    }
  }

  lemma SamePart(m: Moment, m': Moment, from: nat, to: nat)
    requires m'.base == m.base && m.enqueued <= m'.enqueued
    requires from <= m.base + |m.enqueued| && to <= m.base + |m.enqueued|
    ensures Between(m'.base, m'.enqueued, from, to) == Between(m.base, m.enqueued, from, to)
  {
  }

  lemma AdvanceKeepsGood(m: Moment, index: nat)
    requires Shape(m.now) && Good(m) && !m.now.aborted && !Advanced(m.now, index).aborted
    ensures Good(After(m, AdvanceCommit(index)))
  {
    var s := m.now;
    var m' := After(m, AdvanceCommit(index));
    var s1 := s.(commitIndex := Committed(s.log, s.commitIndex, index));
    AdvanceAbortsIff(s, index);
    AdvanceLeavesHand(s, index);
    StepLeavesRestoring(s, AdvanceCommit(index));
    if index > s.commitIndex && s1.commitIndex > s.lastEnqueued {
      EnqueuesAll(s1);
      var more := TasksBetween(s.log, s.lastEnqueued, s1.commitIndex);
      TasksAreConsecutive(s.log, s.lastEnqueued, s1.commitIndex);
      assert (s.queue + more)[|s.queue|..] == more;
      MoreTasks(m, m', more);
    } else {
      assert s.queue[|s.queue|..] == [] && m.enqueued + [] == m.enqueued;
    }
    SameSide(m, m');
  }

  lemma MoreTasks(m: Moment, m': Moment, more: seq<Task>)
    requires QueueOk(m) && Consecutive(more, m.now.lastEnqueued) && m'.base == m.base
    requires m'.enqueued == m.enqueued + more && m'.now.queue == m.now.queue + more
    requires m'.now.lastEnqueued == m.now.lastEnqueued + |more|
    requires m'.now.hand == m.now.hand && m'.now.lastApplied == m.now.lastApplied
    ensures QueueOk(m')
  {
    var n := |m.enqueued| - |Rest(m.now) + m.now.queue|;
    assert m'.enqueued[n..] == m.enqueued[n..] + more;
    assert Rest(m.now) + m.now.queue + more == Rest(m'.now) + m'.now.queue;
  }

  lemma PopKeepsGood(m: Moment)
    requires Shape(m.now) && Good(m) && Enabled(m.now, Pop)
    ensures Good(After(m, Pop))
  {
    NextInLine(m);
    PopKeepsLeft(m.now);
    SameSide(m, After(m, Pop));
  }

  lemma PopKeepsLeft(s: State)
    requires s.hand.Idle? && s.queue != [] && s.queue[0].index > s.lastApplied
    ensures Rest(AfterPop(s)) + AfterPop(s).queue == Rest(s) + s.queue && Cursor(AfterPop(s)) == Cursor(s)
  {
    var n := Min(BATCH_SIZE, |s.queue|);
    assert s.queue[..n][0] == s.queue[0];
    assert Beyond(s.queue[..n], s.lastApplied) == s.queue[..n];
    CutAndJoin(s.queue, n);
  }

  lemma CutAndJoin<T>(q: seq<T>, n: nat)
    requires n <= |q|
    ensures q[..n] + q[n..] == [] + q
  {
  }

  lemma NextInLine(m: Moment)
    requires QueueOk(m) && m.now.hand.Idle? && m.now.queue != []
    ensures m.now.queue[0].index == m.now.lastApplied + 1
  {
    var done := |m.enqueued| - |m.now.queue|;
    assert [] + m.now.queue == m.now.queue;
    assert m.enqueued[done..][0] == m.enqueued[done];
  }

  lemma PlainStepKeepsGood(m: Moment, step: Step)
    requires Shape(m.now) && Good(m) && Enabled(m.now, step) && !Next(m.now, step).aborted
    requires !step.Restore? && !step.Install?
    ensures Good(After(m, step))
  {
    if step.AdvanceCommit? {
      AdvanceKeepsGood(m, step.index);
    } else if step.Pop? {
      PopKeepsGood(m);
    } else if step.ApplyNext? {
      TaskKeepsGood(m);
    } else {
      SameSide(m, After(m, step));
    }
  }

  // ---------- restores and installs ----------

  lemma RestoreKeepsGood(m: Moment, index: nat)
    requires Good(m) && Enabled(m.now, Restore(index))
    ensures Good(After(m, Restore(index)))
  {
  }

  /** The snapshot is installed while the thread has tasks for the machine, or stands elsewhere. */
  predicate Overtakes(s: State, step: Step) {
    && Resets(s, step)
    && (Rest(Installed(s, step.index)) != [] || Cursor(Installed(s, step.index)) != step.index)
  }

  /** Only configuration changes lie between the two indices, both on record. */
  predicate NothingBetween(m: Moment, a: nat, b: nat) {
    && m.base <= a <= m.base + |m.enqueued|
    && (forall t :: t in Between(m.base, m.enqueued, a, b) ==> t.config)
    && (forall t :: t in Between(m.base, m.enqueued, b, a) ==> t.config)
  }

  /**
   * What puts a restored machine out of step: an install after the thread gave it something, or with
   * something still in hand, or one that is skipped although entries that matter lie between the
   * snapshot and where the thread stood at the restore.
   */
  predicate Unclean(m: Moment, step: Step) {
    && step.Install?
    && if Installs(m.now, step.index) then m.now.machine.given != [] || Overtakes(m.now, step)
       else !NothingBetween(m, step.index, m.stood)
  }

  /** The machine was restored, left alone, and installed with nothing in hand. */
  predicate Mends(m: Moment, step: Step) {
    Resets(m.now, step) && !Unclean(m, step)
  }

  lemma InstallStartsOver(m: Moment, index: nat)
    requires Enabled(m.now, Install(index)) && Installs(m.now, index) && m.now.machine.base == index
    ensures InStep(After(m, Install(index))) <==> !Unclean(m, Install(index))
  {
    var m' := After(m, Install(index));
    assert Rest(m'.now) + [] == Rest(m'.now);
    assert m'.now.machine.given + [] == m'.now.machine.given;
  }

  lemma SkipIsLevelIff(m: Moment, index: nat)
    requires Restarted(m) && m.now.machine.base == index
    ensures Level(m, m.now.machine, Cursor(m.now)) <==> NothingBetween(m, index, m.stood)
  {
    var base, tasks, at, stood := m.base, m.enqueued, Cursor(m.now), m.stood;
    if base <= index <= base + |tasks| {
      NothingDelivered(Between(base, tasks, index, stood));
      NothingDelivered(Between(base, tasks, stood, index));
      if index <= stood {
        BetweenInTwo(base, tasks, index, stood, at);
        Cancels(Delivered(Between(base, tasks, index, stood)), m.now.machine.given);
      } else if index <= at {
        BetweenInTwo(base, tasks, stood, index, at);
        Cancels(Delivered(Between(base, tasks, stood, index)), Delivered(Between(base, tasks, index, at)));
      } else {
        BetweenInTwo(base, tasks, stood, at, index);
      }
    }
  }

  lemma Cancels(a: seq<Task>, b: seq<Task>)
    ensures a + b == b <==> a == []
    ensures b + [] == b && [] + b == b
  {
    if a + b == b {
      assert |a + b| == |a| + |b|;
    }
  }

  lemma SkipKeepsIff(m: Moment, index: nat)
    requires Good(m) && Enabled(m.now, Install(index)) && !Installs(m.now, index)
    ensures InStep(After(m, Install(index))) <==> !Unclean(m, Install(index))
  {
    SkipIsLevelIff(m, index);
  }

  /** From a good state, a step leads to one exactly when it is no unclean install. */
  lemma StepKeepsGoodIff(m: Moment, step: Step)
    requires Shape(m.now) && Good(m) && Enabled(m.now, step) && !Next(m.now, step).aborted
    ensures Good(After(m, step)) <==> !Unclean(m, step)
  {
    match step
    case Restore(index) => RestoreKeepsGood(m, index);
    case Install(index) =>
      if Installs(m.now, index) {
        InstallStartsOver(m, index);
      } else {
        SkipKeepsIff(m, index);
      }
    case _ => PlainStepKeepsGood(m, step);
  }

  // ---------- over whole runs ----------

  lemma StartIsGood(m: Moment)
    requires Init(m)
    ensures Good(m)
  {
    assert [] + m.now.queue == [] && m.enqueued[0..0] == [];
  }

  /** After a clean install, and with no unclean one since, the machine is where it should be. */
  lemma {:induction false} RunKeepsGood(run: seq<Moment>, steps: seq<Step>, k: nat)
    requires ValidRun(run, steps) && k < |run| && !run[k].now.aborted && !Since(Unclean, Mends, run, steps, k)
    ensures Good(run[k])
    decreases k
  {
    if k == 0 {
      StartIsGood(run[0]);
    } else {
      var m, step := run[k - 1], steps[k - 1];
      SinceOneMore(Unclean, Mends, run, steps, k - 1);
      RunKeepsShape(run, steps, k - 1);
      if Mends(m, step) {
        BaseIsRestored(run, steps, k - 1);
        InstallStartsOver(m, step.index);
        StepLeavesRestoring(m.now, step);
      } else {
        RunKeepsGood(run, steps, k - 1);
        StepKeepsGoodIff(m, step);
      }
    }
  }

  predicate InStepUpTo(run: seq<Moment>, n: nat) {
    forall k :: 0 <= k < |run| && k <= n && run[k].now.restoring == None ==> InStep(run[k])
  }

  predicate AllClean(run: seq<Moment>, steps: seq<Step>, n: nat)
    requires n <= |steps| < |run|
  {
    forall k :: 0 <= k < n ==> !Unclean(run[k], steps[k])
  }

  lemma CleanMeansGood(run: seq<Moment>, steps: seq<Step>, n: nat)
    requires ValidRun(run, steps) && n <= |steps| && !run[n].now.aborted && AllClean(run, steps, n)
    ensures Good(run[n])
  {
    RunKeepsGood(run, steps, n);
  }

  lemma OneMoreInStep(run: seq<Moment>, steps: seq<Step>, n: nat)
    requires ValidRun(run, steps) && n < |steps| && !run[n + 1].now.aborted
    requires AllClean(run, steps, n) && InStepUpTo(run, n)
    ensures InStepUpTo(run, n + 1) <==> !Unclean(run[n], steps[n])
  {
    CleanMeansGood(run, steps, n);
    RunKeepsShape(run, steps, n);
    StepKeepsGoodIff(run[n], steps[n]);
    StepLeavesRestoring(run[n].now, steps[n]);
    assert InStepUpTo(run, n + 1) <==> (run[n + 1].now.restoring == None ==> InStep(run[n + 1]));
  }

  /**
   * Whenever no snapshot is being installed, the machine has exactly what the node counts as
   * processed, all along a run, if and only if every install was clean.
   */
  lemma {:induction false} InStepIff(run: seq<Moment>, steps: seq<Step>, n: nat)
    requires ValidRun(run, steps) && n <= |steps| && !run[n].now.aborted
    ensures InStepUpTo(run, n) <==> AllClean(run, steps, n)
  {
    if n == 0 {
      StartIsGood(run[0]);
    } else {
      InStepIff(run, steps, n - 1);
      if AllClean(run, steps, n - 1) {
        OneMoreInStep(run, steps, n - 1);
      }
    }
  }

  // ---------- the machine and the log ----------

  /** What a step adds to the entries taken. */
  function MoreEntries(s: State, step: Step, entries: seq<Entry>): seq<Entry> {
    if Resets(s, step) then [] else if step.AdvanceCommit? then entries + Enlisted(s, step.index) else entries
  }

  /** The entries taken from the log since the node's indices were last set, each as it stood when it was taken. */
  function EntriesOf(run: seq<Moment>, steps: seq<Step>, k: nat): seq<Entry>
    requires k <= |steps| < |run|
  {
    if k == 0 then [] else MoreEntries(run[k - 1].now, steps[k - 1], EntriesOf(run, steps, k - 1))
  }

  /** Index and data of the entries that are not configuration changes, in order. */
  function Handed(entries: seq<Entry>): seq<(nat, string)> {
    if entries == [] then []
    else
      var e := entries[|entries| - 1];
      Handed(entries[..|entries| - 1]) + if "CONFIG_CHANGE:" <= e.data then [] else [(e.index, e.data)]
  }

  /** Index and data of what the machine was given. */
  function Received(tasks: seq<Task>): seq<(nat, string)> {
    seq(|tasks|, i requires 0 <= i < |tasks| => (tasks[i].index, tasks[i].data))
  }

  function TasksOf(entries: seq<Entry>): seq<Task> {
    seq(|entries|, i requires 0 <= i < |entries| => TaskOf(entries[i]))
  }

  lemma {:induction false} DeliveredIsHanded(entries: seq<Entry>)
    ensures Received(Delivered(TasksOf(entries))) == Handed(entries)
  {
    if entries != [] {
      var n := |entries| - 1;
      var tasks, e := TasksOf(entries), entries[n];
      DeliveredIsHanded(entries[..n]);
      assert tasks[..n] == TasksOf(entries[..n]) && tasks[n] == TaskOf(e);
      ReceivedNext(Delivered(tasks[..n]), TaskOf(e));
    }
  }

  lemma ReceivedNext(tasks: seq<Task>, task: Task)
    ensures Received(tasks + [task]) == Received(tasks) + [(task.index, task.data)] && tasks + [] == tasks
  {
  }

  lemma AdvanceEnlists(s: State, index: nat)
    requires Shape(s) && !s.aborted && !Advanced(s, index).aborted
    ensures |s.queue| <= |Advanced(s, index).queue|
    ensures Advanced(s, index).queue[|s.queue|..] == TasksOf(Enlisted(s, index))
  {
    var s' := s.(commitIndex := Committed(s.log, s.commitIndex, index));
    AdvanceAbortsIff(s, index);
    if index > s.commitIndex && s'.commitIndex > s.lastEnqueued {
      LastIsHeld(s.log);
      EnqueuesAll(s');
      var from, to := s.lastEnqueued, s'.commitIndex;
      var lo := from + 1 - s.log.start;
      assert Due(s.log, from, to) == s.log.entries[lo..to + 1 - s.log.start];
      assert TasksBetween(s.log, from, to) == TasksOf(Due(s.log, from, to));
    } else {
      assert Enlisted(s, index) == [];
    }
  }

  lemma TasksInTwo(a: seq<Entry>, b: seq<Entry>)
    ensures TasksOf(a + b) == TasksOf(a) + TasksOf(b)
  {
  }

  lemma StepEnlists(m: Moment, step: Step, entries: seq<Entry>)
    requires Shape(m.now) && Enabled(m.now, step) && !Next(m.now, step).aborted && m.enqueued == TasksOf(entries)
    ensures After(m, step).enqueued == TasksOf(MoreEntries(m.now, step, entries))
  {
    if step.AdvanceCommit? {
      AdvanceEnlists(m.now, step.index);
      TasksInTwo(entries, Enlisted(m.now, step.index));
    }
  }

  lemma {:induction false} EnqueuedAreEntries(run: seq<Moment>, steps: seq<Step>, k: nat)
    requires ValidRun(run, steps) && k < |run| && !run[k].now.aborted
    ensures run[k].enqueued == TasksOf(EntriesOf(run, steps, k))
  {
    if k > 0 {
      EnqueuedAreEntries(run, steps, k - 1);
      RunKeepsShape(run, steps, k - 1);
      StepEnlists(run[k - 1], steps[k - 1], EntriesOf(run, steps, k - 1));
    }
  }

  /** No restored snapshot is left unclean, none is being installed, and everything enqueued is processed. */
  predicate AtRest(run: seq<Moment>, steps: seq<Step>, k: nat) {
    && ValidRun(run, steps) && k < |run| && !run[k].now.aborted && !Since(Unclean, Mends, run, steps, k)
    && run[k].now.restoring == None && run[k].now.hand.Idle? && run[k].now.queue == []
  }

  lemma AllProcessed(run: seq<Moment>, steps: seq<Step>, k: nat)
    requires AtRest(run, steps, k)
    ensures var m, machine := run[k], run[k].now.machine;
            && m.now.lastApplied == m.now.lastEnqueued == m.base + |m.enqueued|
            && m.base <= machine.base <= m.now.lastApplied
            && machine.given == Delivered(m.enqueued[machine.base - m.base..])
  {
    var m := run[k];
    RunKeepsGood(run, steps, k);
    var b, n := m.now.machine.base - m.base, |m.enqueued|;
    assert m.now.machine.given + [] == m.now.machine.given;
    assert [] + m.now.queue == [] && m.enqueued[b..n] == m.enqueued[b..];
    assert Between(m.base, m.enqueued, m.base + n, m.base + b) == [];
  }

  /** The machine has been given exactly the entries beyond its snapshot that are not configuration changes. */
  predicate GivenBeyond(machine: Machine, base: nat, entries: seq<Entry>) {
    && base <= machine.base <= base + |entries|
    && Received(machine.given) == Handed(entries[machine.base - base..])
  }

  lemma DeliveredBeyond(machine: Machine, base: nat, entries: seq<Entry>)
    requires base <= machine.base <= base + |entries|
    requires machine.given == Delivered(TasksOf(entries)[machine.base - base..])
    ensures GivenBeyond(machine, base, entries)
  {
    var b := machine.base - base;
    assert TasksOf(entries)[b..] == TasksOf(entries[b..]);
    DeliveredIsHanded(entries[b..]);
  }

  /**
   * Once everything enqueued is processed, the machine has been given exactly the committed
   * entries beyond its snapshot that are not configuration changes, each once, in order.
   */
  lemma CaughtUp(run: seq<Moment>, steps: seq<Step>, k: nat)
    requires AtRest(run, steps, k)
    ensures var m, entries := run[k], EntriesOf(run, steps, k);
            && m.now.lastApplied == m.now.lastEnqueued == m.base + |entries|
            && GivenBeyond(m.now.machine, m.base, entries)
  {
    AllProcessed(run, steps, k);
    EnqueuedAreEntries(run, steps, k);
    DeliveredBeyond(run[k].now.machine, run[k].base, EntriesOf(run, steps, k));
  }

  /** A truncation that reaches into what is enqueued. */
  predicate Cuts(m: Moment, step: Step) {
    step.TruncateConflict? && step.from <= m.now.lastEnqueued
  }

  predicate NoneCut(run: seq<Moment>, steps: seq<Step>, k: nat)
    requires k <= |steps| < |run|
  {
    forall j :: 0 <= j < k ==> !Cuts(run[j], steps[j])
  }

  predicate HeldAt(log: Log, index: nat, e: Entry) {
    log.start <= index ==> log.At(index) == Some(e)
  }

  /** The log reaches as far as is enqueued and still holds those entries, down to where it starts. */
  predicate StillHeld(s: State, base: nat, entries: seq<Entry>) {
    && s.lastEnqueued == base + |entries| && s.lastEnqueued < s.log.start + |s.log.entries|
    && (forall j :: 0 <= j < |entries| ==> HeldAt(s.log, base + 1 + j, entries[j]))
  }

  lemma DueIsHeld(log: Log, from: nat, to: nat)
    requires log.start <= from + 1 && from <= to < log.start + |log.entries|
    ensures var due := Due(log, from, to);
            |due| == to - from && forall j :: 0 <= j < |due| ==> HeldAt(log, from + 1 + j, due[j])
  {
    var lo := from + 1 - log.start;
    assert Due(log, from, to) == log.entries[lo..to + 1 - log.start];
  }

  lemma MoreHeld(s: State, base: nat, entries: seq<Entry>, more: seq<Entry>)
    requires StillHeld(s, base, entries)
    requires forall j :: 0 <= j < |more| ==> HeldAt(s.log, s.lastEnqueued + 1 + j, more[j])
    requires s.lastEnqueued + |more| < s.log.start + |s.log.entries|
    ensures StillHeld(s.(lastEnqueued := s.lastEnqueued + |more|), base, entries + more)
  {
    forall j | 0 <= j < |entries + more| ensures HeldAt(s.log, base + 1 + j, (entries + more)[j]) {
      if j >= |entries| {
        assert HeldAt(s.log, s.lastEnqueued + 1 + (j - |entries|), more[j - |entries|]);
      }
    }
  }

  lemma AdvanceStillHeld(s: State, base: nat, entries: seq<Entry>, index: nat)
    requires Shape(s) && !s.aborted && !Advanced(s, index).aborted && StillHeld(s, base, entries)
    ensures StillHeld(Advanced(s, index), base, entries + Enlisted(s, index))
  {
    var s' := s.(commitIndex := Committed(s.log, s.commitIndex, index));
    AdvanceAbortsIff(s, index);
    if index > s.commitIndex && s'.commitIndex > s.lastEnqueued {
      LastIsHeld(s.log);
      EnqueuesAll(s');
      DueIsHeld(s.log, s.lastEnqueued, s'.commitIndex);
      MoreHeld(s, base, entries, Enlisted(s, index));
    } else {
      assert Enlisted(s, index) == [] && entries + [] == entries;
    }
  }

  lemma StepStillHeld(s: State, step: Step, base: nat, entries: seq<Entry>)
    requires Shape(s) && Enabled(s, step) && !Next(s, step).aborted && StillHeld(s, base, entries)
    requires !step.AdvanceCommit? && !Resets(s, step) && !(step.TruncateConflict? && step.from <= s.lastEnqueued)
    ensures StillHeld(Next(s, step), base, entries)
  {
    LastIsHeld(s.log);
    var s' := Next(s, step);
    forall j | 0 <= j < |entries| ensures HeldAt(s'.log, base + 1 + j, entries[j]) {
      assert HeldAt(s.log, base + 1 + j, entries[j]);
    }
  }

  lemma {:induction false} EntriesStillHeld(run: seq<Moment>, steps: seq<Step>, k: nat)
    requires ValidRun(run, steps) && k < |run| && !run[k].now.aborted && NoneCut(run, steps, k)
    ensures StillHeld(run[k].now, run[k].base, EntriesOf(run, steps, k))
  {
    if k > 0 {
      var m, step, entries := run[k - 1], steps[k - 1], EntriesOf(run, steps, k - 1);
      EntriesStillHeld(run, steps, k - 1);
      RunKeepsShape(run, steps, k - 1);
      if step.AdvanceCommit? {
        AdvanceStillHeld(m.now, m.base, entries, step.index);
      } else if !Resets(m.now, step) {
        StepStillHeld(m.now, step, m.base, entries);
      }
    }
  }

  lemma SliceStillHeld(s: State, base: nat, entries: seq<Entry>, from: nat)
    requires StillHeld(s, base, entries) && base <= from <= s.lastEnqueued && s.log.start <= from + 1
    ensures s.log.Slice(from + 1, s.lastEnqueued + 1) == entries[from - base..]
  {
    var slice, rest := s.log.Slice(from + 1, s.lastEnqueued + 1), entries[from - base..];
    forall j | 0 <= j < |rest| ensures slice[j] == rest[j] {
      assert HeldAt(s.log, base + 1 + (from - base + j), entries[from - base + j]);
    }
  }

  /** The machine has been given exactly the log's entries beyond its snapshot that are not configuration changes. */
  predicate GivenFromLog(s: State) {
    Received(s.machine.given) == Handed(s.log.Slice(s.machine.base + 1, s.lastApplied + 1))
  }

  lemma HandedFromLog(s: State, base: nat, entries: seq<Entry>)
    requires StillHeld(s, base, entries) && s.lastApplied == s.lastEnqueued && s.log.start <= s.machine.base + 1
    requires GivenBeyond(s.machine, base, entries)
    ensures GivenFromLog(s)
  {
    SliceStillHeld(s, base, entries, s.machine.base);
  }

  /** Said of the log itself, as long as it reaches down to the machine's snapshot and nothing enqueued was cut. */
  lemma CaughtUpWithLog(run: seq<Moment>, steps: seq<Step>, k: nat)
    requires AtRest(run, steps, k)
    requires NoneCut(run, steps, k) && run[k].now.log.start <= run[k].now.machine.base + 1
    ensures GivenFromLog(run[k].now)
  {
    CaughtUp(run, steps, k);
    EntriesStillHeld(run, steps, k);
    HandedFromLog(run[k].now, run[k].base, EntriesOf(run, steps, k));
  }

  // ---------- runs that go wrong ----------

  /** Some run from a fresh node ends in `s`, every snapshot of its own taken at or below the applied index. */
  ghost predicate Reachable(s: State) {
    exists run: seq<Moment>, steps: seq<Step> ::
      ValidRun(run, steps) && TakenFromApplied(run, steps, |steps|) && run[|steps|].now == s
  }

  lemma FreshIsReachable()
    ensures Reachable(Started(Log(1, []), 0))
  {
    var run: seq<Moment>, steps: seq<Step> := [Moment(Started(Log(1, []), 0), 0, [], 0)], [];
    assert ValidRun(run, steps) && TakenFromApplied(run, steps, |steps|);
  }

  lemma OneStepFurther(s: State, step: Step, s': State)
    requires Reachable(s) && Enabled(s, step) && (step.Compact? ==> step.index <= s.lastApplied)
    requires Next(s, step) == s'
    ensures Reachable(s')
  {
    var run: seq<Moment>, steps: seq<Step> :|
      ValidRun(run, steps) && TakenFromApplied(run, steps, |steps|) && run[|steps|].now == s;
    var run', steps' := run + [After(run[|steps|], step)], steps + [step];
    forall k | 0 <= k < |steps'|
      ensures Enabled(run'[k].now, steps'[k]) && run'[k + 1] == After(run'[k], steps'[k])
    {
      assert run'[k] == run[k];
    }
    assert ValidRun(run', steps') && TakenFromApplied(run', steps', |steps'|);
  }

  const X := Entry(1, 1, "x")
  const Y := Entry(2, 1, "y")
  const Z := Entry(3, 1, "z")

  const ONE_IN_HAND := State(Log(1, [X]), 0, 1, 1, 0, [], Working(0, [TaskOf(X)]), Machine(0, []), None, false)

  /** One entry, committed, and in the apply thread's hand. */
  lemma OneInHand()
    ensures Reachable(ONE_IN_HAND)
  {
    var s0 := Started(Log(1, []), 0);
    var s1 := s0.(log := Log(1, [X]));
    var s2 := s1.(commitIndex := 1, lastEnqueued := 1, queue := [TaskOf(X)]);
    var s3 := s2.(queue := [], hand := Popped([TaskOf(X)]));
    FreshIsReachable();
    OneStepFurther(s0, AppendEntry(1, "x"), s1);
    assert Enqueued(s1.(commitIndex := 1)) == s2;
    OneStepFurther(s1, AdvanceCommit(1), s2);
    assert [TaskOf(X)][..1] == [TaskOf(X)] && [TaskOf(X)][1..] == [];
    OneStepFurther(s2, Pop, s3);
    OneStepFurther(s3, Load, s3.(hand := Working(0, [TaskOf(X)])));
  }

  const FIVE_RESTORED := ONE_IN_HAND.(machine := Machine(5, []), restoring := Some(5))

  lemma FiveRestored()
    ensures Reachable(FIVE_RESTORED)
  {
    OneInHand();
    OneStepFurther(ONE_IN_HAND, Restore(5), FIVE_RESTORED);
  }

  /** The thread applies a stale task to the restored machine and takes the applied index back to it. */
  lemma InstallUnderBatch() returns (s: State)
    ensures Reachable(s) && s.snapshotIndex == 5 && s.hand.Idle? && s.restoring == None
    ensures s.lastApplied == 1 && s.machine == Machine(5, [TaskOf(X)])
  {
    FiveRestored();
    var s1 := State(Log(6, []), 5, 5, 5, 5, [], Working(0, [TaskOf(X)]), Machine(5, []), None, false);
    var s2 := s1.(hand := Working(1, []), machine := Machine(5, [TaskOf(X)]));
    OneStepFurther(FIVE_RESTORED, Install(5), s1);
    assert [TaskOf(X)][1..] == [] && !TaskOf(X).config && [] + [TaskOf(X)] == [TaskOf(X)];
    OneStepFurther(s1, ApplyNext, s2);
    s := s2.(hand := Idle, lastApplied := 1);
    OneStepFurther(s2, Publish, s);
  }

  /** The thread finishes its batch between restore and install: the machine, which has entry 1, gets it again. */
  lemma BatchDuringRestore() returns (s: State, s': State)
    ensures Reachable(s) && s.hand.Idle? && Enabled(s, Install(5)) && Installs(s, 5) && s' == Next(s, Install(5))
    ensures Reachable(s') && s'.lastApplied == 5 && s'.machine == Machine(5, [TaskOf(X)])
  {
    FiveRestored();
    var s1 := FIVE_RESTORED.(hand := Working(1, []), machine := Machine(5, [TaskOf(X)]));
    assert [TaskOf(X)][1..] == [] && !TaskOf(X).config && [] + [TaskOf(X)] == [TaskOf(X)];
    OneStepFurther(FIVE_RESTORED, ApplyNext, s1);
    s := s1.(hand := Idle, lastApplied := 1);
    OneStepFurther(s1, Publish, s);
    s' := Next(s, Install(5));
    OneStepFurther(s, Install(5), s');
  }

  const SIX := Entry(6, 1, "x")

  /** A snapshot at 5 installed on a fresh node. */
  lemma FiveInstalled()
    ensures Reachable(Started(Log(6, []), 5))
  {
    var s0 := Started(Log(1, []), 0);
    var s1 := s0.(machine := Machine(5, []), restoring := Some(5));
    FreshIsReachable();
    OneStepFurther(s0, Restore(5), s1);
    OneStepFurther(s1, Install(5), Started(Log(6, []), 5));
  }

  /** Entry 6 behind it, committed and in hand. */
  lemma SixInHand()
    ensures Reachable(State(Log(6, [SIX]), 5, 6, 6, 5, [], Working(5, [TaskOf(SIX)]), Machine(5, []), None, false))
  {
    FiveInstalled();
    var s0 := Started(Log(6, []), 5);
    var s1 := s0.(log := Log(6, [SIX]));
    var s2 := s1.(commitIndex := 6, lastEnqueued := 6, queue := [TaskOf(SIX)]);
    var s3 := s2.(queue := [], hand := Popped([TaskOf(SIX)]));
    OneStepFurther(s0, AppendEntry(1, "x"), s1);
    assert Enqueued(s1.(commitIndex := 6)) == s2;
    OneStepFurther(s1, AdvanceCommit(6), s2);
    assert [TaskOf(SIX)][..1] == [TaskOf(SIX)] && [TaskOf(SIX)][1..] == [];
    OneStepFurther(s2, Pop, s3);
    OneStepFurther(s3, Load, s3.(hand := Working(5, [TaskOf(SIX)])));
  }

  /** The snapshot at 5 arrives again after entry 6 was applied: the machine goes back, the applied index does not. */
  lemma RepeatedSnapshotRewinds() returns (s: State)
    ensures Reachable(s) && s.restoring == None && s.hand.Idle? && s.queue == []
    ensures s.lastApplied == s.lastEnqueued == s.commitIndex == 6 && s.machine == Machine(5, [])
    ensures s.log == Log(6, [SIX]) && !TaskOf(SIX).config
  {
    SixInHand();
    var s0 := State(Log(6, [SIX]), 5, 6, 6, 5, [], Working(5, [TaskOf(SIX)]), Machine(5, []), None, false);
    var s1 := s0.(hand := Working(6, []), machine := Machine(5, [TaskOf(SIX)]));
    var s2 := s1.(hand := Idle, lastApplied := 6);
    var s3 := s2.(machine := Machine(5, []), restoring := Some(5));
    assert [TaskOf(SIX)][1..] == [] && !TaskOf(SIX).config && [] + [TaskOf(SIX)] == [TaskOf(SIX)];
    OneStepFurther(s0, ApplyNext, s1);
    OneStepFurther(s1, Publish, s2);
    OneStepFurther(s2, Restore(5), s3);
    s := s3.(restoring := None);
    OneStepFurther(s3, Install(5), s);
  }

  /** Commit one entry, apply it, compact it away, hear of a later commit: the commit index falls back to 0. */
  lemma CommitFallsAfterCompaction() returns (s: State)
    ensures Reachable(s) && s.commitIndex == 1 && Enabled(s, AdvanceCommit(2))
    ensures Next(s, AdvanceCommit(2)).commitIndex == 0
  {
    OneInHand();
    var s0 := ONE_IN_HAND;
    var s1 := s0.(hand := Working(1, []), machine := Machine(0, [TaskOf(X)]));
    var s2 := s1.(hand := Idle, lastApplied := 1);
    assert [TaskOf(X)][1..] == [] && !TaskOf(X).config && [] + [TaskOf(X)] == [TaskOf(X)];
    OneStepFurther(s0, ApplyNext, s1);
    OneStepFurther(s1, Publish, s2);
    s := s2.(log := Log(2, []), snapshotIndex := 1);
    OneStepFurther(s2, Compact(1), s);
  }

  const THREE := [TaskOf(X), TaskOf(Y), TaskOf(Z)]
  const UNDER_THREE := State(Log(3, []), 2, 2, 2, 2, [], Working(0, THREE), Machine(2, []), None, false)

  lemma ThreeAppended()
    ensures Reachable(Started(Log(1, [X, Y, Z]), 0))
  {
    FreshIsReachable();
    OneStepFurther(Started(Log(1, []), 0), AppendEntry(1, "x"), Started(Log(1, [X]), 0));
    OneStepFurther(Started(Log(1, [X]), 0), AppendEntry(1, "y"), Started(Log(1, [X, Y]), 0));
    OneStepFurther(Started(Log(1, [X, Y]), 0), AppendEntry(1, "z"), Started(Log(1, [X, Y, Z]), 0));
  }

  lemma ThreeInHand()
    ensures Reachable(State(Log(1, [X, Y, Z]), 0, 3, 3, 0, [], Working(0, THREE), Machine(0, []), None, false))
  {
    ThreeAppended();
    var s0 := Started(Log(1, [X, Y, Z]), 0);
    var s1 := s0.(commitIndex := 3, lastEnqueued := 3, queue := THREE);
    var s2 := s1.(queue := [], hand := Popped(THREE));
    EnqueuesAll(s0.(commitIndex := 3));
    assert TasksBetween(s0.log, 0, 3) == THREE && [] + THREE == THREE;
    OneStepFurther(s0, AdvanceCommit(3), s1);
    assert THREE[..3] == THREE && THREE[3..] == [];
    OneStepFurther(s1, Pop, s2);
    OneStepFurther(s2, Load, s2.(hand := Working(0, THREE)));
  }

  /** The two later entries are cut, the commit index falls, and a snapshot at 2 arrives under the batch. */
  lemma SnapshotUnderThree()
    ensures Reachable(UNDER_THREE)
  {
    ThreeInHand();
    var s0 := State(Log(1, [X, Y, Z]), 0, 3, 3, 0, [], Working(0, THREE), Machine(0, []), None, false);
    var s1 := s0.(log := Log(1, [X]));
    assert [X, Y, Z][..1] == [X];
    OneStepFurther(s0, TruncateConflict(2), s1);
    var s2 := s1.(commitIndex := 1);
    var s3 := s2.(machine := Machine(2, []), restoring := Some(2));
    OneStepFurther(s1, AdvanceCommit(4), s2);
    OneStepFurther(s2, Restore(2), s3);
    OneStepFurther(s3, Install(2), UNDER_THREE);
  }

  lemma OutrunsSnapshot()
    ensures Reachable(State(Log(3, []), 2, 2, 2, 3, [], Idle, Machine(2, THREE), None, false))
  {
    SnapshotUnderThree();
    var s0 := UNDER_THREE;
    var s1 := s0.(hand := Working(1, THREE[1..]), machine := Machine(2, THREE[..1]));
    var s2 := s0.(hand := Working(2, THREE[2..]), machine := Machine(2, THREE[..2]));
    var s3 := s0.(hand := Working(3, THREE[3..]), machine := Machine(2, THREE));
    assert !TaskOf(X).config && !TaskOf(Y).config && !TaskOf(Z).config;
    assert [] + [TaskOf(X)] == THREE[..1];
    OneStepFurther(s0, ApplyNext, s1);
    assert THREE[1..][0] == TaskOf(Y) && THREE[1..][1..] == THREE[2..] && THREE[..1] + [TaskOf(Y)] == THREE[..2];
    OneStepFurther(s1, ApplyNext, s2);
    assert THREE[2..][0] == TaskOf(Z) && THREE[2..][1..] == THREE[3..] && THREE[..2] + [TaskOf(Z)] == THREE;
    OneStepFurther(s2, ApplyNext, s3);
    assert THREE[3..] == [];
    OneStepFurther(s3, Publish, s3.(hand := Idle, lastApplied := 3));
  }

  /**
   * The applied index is then ahead of the enqueued one: a compaction there drops entry 3, and
   * moving the commit index to 4 gives up over it.
   */
  lemma MissingEntryAborts() returns (s: State)
    ensures Reachable(s) && s.aborted
  {
    OutrunsSnapshot();
    var w, v := Entry(3, 2, "w"), Entry(4, 2, "v");
    var s0 := State(Log(3, []), 2, 2, 2, 3, [], Idle, Machine(2, THREE), None, false);
    var s1 := s0.(log := Log(3, [w]));
    var s2 := s0.(log := Log(4, []), snapshotIndex := 3);
    var s3 := s2.(log := Log(4, [v]));
    OneStepFurther(s0, AppendEntry(2, "w"), s1);
    OneStepFurther(s1, Compact(3), s2);
    OneStepFurther(s2, AppendEntry(2, "v"), s3);
    s := Next(s3, AdvanceCommit(4));
    OneStepFurther(s3, AdvanceCommit(4), s);
  }
}
