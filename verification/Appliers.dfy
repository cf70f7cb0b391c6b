/**
 * Applying committed entries: one side enqueues them under the lock, the apply thread hands
 * them to the state machine in batches, and snapshots move the log underneath both.
 */
module Appliers {

  import opened RaftTypes
  import opened Quorums
  import opened RaftLogs
  import opened Memberships

  datatype Task = Task(index: nat, data: string, config: bool)

  const CONFIG_PREFIX := "CONFIG_CHANGE:"
  const BATCH_SIZE: nat := 64

  /** The apply thread: idle, with a batch off the queue, or at work from its own copy of the applied index. */
  datatype Hand = Idle | Popped(batch: seq<Task>) | Working(cursor: nat, batch: seq<Task>)

  /** The state machine: the snapshot it was last restored from, and what it was given since. */
  datatype Machine = Machine(base: nat, given: seq<Task>)

  /** `restoring`: a leader's snapshot the machine was restored from and that is not installed yet. */
  datatype State = State(log: Log, snapshotIndex: nat, commitIndex: nat, lastEnqueued: nat, lastApplied: nat,
                         queue: seq<Task>, hand: Hand, machine: Machine, restoring: Option<nat>, aborted: bool)

  datatype Step =
    | AppendEntry(term: nat, data: string)
    | TruncateConflict(from: nat)
    | AdvanceCommit(index: nat)
    | Pop
    | Load
    | ApplyNext
    | Publish
    | Compact(index: nat)
    | Restore(index: nat)
    | Install(index: nat)

  /** A configuration change is applied on the spot; its task only moves the applied index. */
  function TaskOf(e: Entry): Task {
    if CONFIG_PREFIX <= e.data then Task(e.index, "", true) else Task(e.index, e.data, false)
  }

  /** What reaches the state machine: everything but configuration changes. */
  function Delivered(tasks: seq<Task>): seq<Task> {
    if tasks == [] then []
    else
      var t := tasks[|tasks| - 1];
      Delivered(tasks[..|tasks| - 1]) + if t.config then [] else [t]
  }

  /** Tasks for the log's entries in `(from, to]`. */
  function TasksBetween(log: Log, from: nat, to: nat): seq<Task>
    requires from <= to && log.start <= from + 1 && to < log.start + |log.entries|
  {
    seq(to - from, k requires 0 <= k < to - from => TaskOf(log.entries[from + 1 + k - log.start]))
  }

  // ---------- what each step does ----------

  /** Where the commit rule ends up; an emptied log reports 0 as its last index. */
  function Committed(log: Log, commit: nat, index: nat): nat {
    if index > commit then Min(index, log.LastIndex()) else commit
  }

  /** The enqueue loop; the program gives up over a missing entry. */
  function Enqueued(s: State): State
    decreases s.commitIndex - s.lastEnqueued
  {
    if s.lastEnqueued >= s.commitIndex then s
    else
      var i := s.lastEnqueued + 1;
      var entry := s.log.At(i);
      if entry == None then s.(lastEnqueued := i, aborted := true)
      else Enqueued(s.(lastEnqueued := i, queue := s.queue + [TaskOf(entry.value)]))
  }

  /** The log's entries in `(from, to]`, up to the first one missing: what the loop takes. */
  function Due(log: Log, from: nat, to: nat): seq<Entry> {
    if from + 1 < log.start then [] else log.Slice(from + 1, to + 1)
  }

  /** What one committed entry makes of the configuration; `parse` reads a command. */
  function WithEntry(parse: string -> Command, c: ClusterConfig, e: Entry): ClusterConfig {
    if "CONFIG_CHANGE:" <= e.data then Applied(c, parse(e.data)) else c
  }

  /** The configuration after all of the entries, in order. */
  function Reconfigured(parse: string -> Command, c: ClusterConfig, entries: seq<Entry>): ClusterConfig
    decreases |entries|
  {
    if entries == [] then c else Reconfigured(parse, WithEntry(parse, c, entries[0]), entries[1..])
  }

  /** The same, as the loop goes about it. */
  function LoopConfig(parse: string -> Command, c: ClusterConfig, log: Log, from: nat, to: nat): ClusterConfig
    decreases to - from
  {
    if from >= to || log.At(from + 1) == None then c
    else LoopConfig(parse, WithEntry(parse, c, log.At(from + 1).value), log, from + 1, to)
  }

  lemma {:induction false} LoopReconfigures(parse: string -> Command, c: ClusterConfig, log: Log, from: nat, to: nat)
    ensures LoopConfig(parse, c, log, from, to) == Reconfigured(parse, c, Due(log, from, to))
    decreases if from <= to then to - from else 0
  {
    var due := Due(log, from, to);
    if from >= to || log.At(from + 1) == None {
      assert due == [];
    } else {
      assert due == [log.At(from + 1).value] + Due(log, from + 1, to);
      assert due[1..] == Due(log, from + 1, to);
      LoopReconfigures(parse, WithEntry(parse, c, due[0]), log, from + 1, to);
    }
  }

  function Advanced(s: State, index: nat): State {
    if index > s.commitIndex then Enqueued(s.(commitIndex := Committed(s.log, s.commitIndex, index))) else s
  }

  /** The entries enqueued when the commit index moves. */
  function Enlisted(s: State, index: nat): seq<Entry> {
    if index > s.commitIndex then Due(s.log, s.lastEnqueued, Committed(s.log, s.commitIndex, index)) else []
  }

  function AfterPop(s: State): State {
    var n := Min(BATCH_SIZE, |s.queue|);
    s.(hand := Popped(s.queue[..n]), queue := s.queue[n..])
  }

  /** One task of the batch: skipped when superseded, else handed over unless it is a configuration change. */
  function AfterTask(s: State): State
    requires s.hand.Working? && s.hand.batch != []
  {
    var task, rest := s.hand.batch[0], s.hand.batch[1..];
    if task.index <= s.hand.cursor then s.(hand := Working(s.hand.cursor, rest))
    else s.(hand := Working(task.index, rest), machine := WithTask(s.machine, task))
  }

  function WithTask(machine: Machine, task: Task): Machine {
    if task.config then machine else machine.(given := machine.given + [task])
  }

  /** The leader's own snapshot is skipped when superseded or when the log has grown past it. */
  predicate Compacts(s: State, index: nat) {
    index > s.snapshotIndex && s.log.LastIndex() <= index
  }

  /** A leader's snapshot is skipped when superseded or when newer entries were committed meanwhile. */
  predicate Installs(s: State, index: nat) {
    index > s.snapshotIndex && s.commitIndex <= index
  }

  function Compacted(s: State, index: nat): State {
    if Compacts(s, index) then s.(log := Log(index + 1, []), snapshotIndex := index) else s
  }

  /** The machine is restored before any of that is looked at. */
  function Restored(s: State, index: nat): State {
    s.(machine := Machine(index, []), restoring := Some(index))
  }

  function Installed(s: State, index: nat): State {
    if Installs(s, index)
    then State(Log(index + 1, []), index, index, index, index, [], s.hand, s.machine, None, s.aborted)
    else s.(restoring := None)
  }

  /** The node after a restart: the restored snapshot is all that is committed, enqueued and applied. */
  function Started(log: Log, snapshotIndex: nat): State {
    State(log, snapshotIndex, snapshotIndex, snapshotIndex, snapshotIndex, [], Idle, Machine(snapshotIndex, []),
          None, false)
  }

  /** The log starts at the first restored entry, wherever that is. */
  function RestoredLog(snapshotIndex: nat, restored: seq<Entry>): Log {
    Log(if restored == [] then snapshotIndex + 1 else restored[0].index, restored)
  }

  predicate Enabled(s: State, step: Step) {
    && !s.aborted
    && match step
       case Pop => s.hand.Idle? && s.queue != []
       case Load => s.hand.Popped?
       case ApplyNext => s.hand.Working? && s.hand.batch != []
       case Publish => s.hand.Working? && s.hand.batch == []
       case Restore(_) => s.restoring == None
       case Install(index) => s.restoring == Some(index)
       case _ => true
  }

  function Next(s: State, step: Step): State
    requires Enabled(s, step)
  {
    match step
    case AppendEntry(term, data) => s.(log := s.log.Append(term, data))
    case TruncateConflict(from) => s.(log := s.log.TruncateSuffix(from))
    case AdvanceCommit(index) => Advanced(s, index)
    case Pop => AfterPop(s)
    case Load => s.(hand := Working(s.lastApplied, s.hand.batch))
    case ApplyNext => AfterTask(s)
    case Publish => s.(lastApplied := s.hand.cursor, hand := Idle)
    case Compact(index) => Compacted(s, index)
    case Restore(index) => Restored(s, index)
    case Install(index) => Installed(s, index)
  }

  // ---------- the shape of every reachable state ----------

  predicate Consecutive(tasks: seq<Task>, base: nat) {
    forall k :: 0 <= k < |tasks| ==> tasks[k].index == base + 1 + k
  }

  /** Tasks with consecutive indices, wherever they start. */
  predicate Chained(tasks: seq<Task>) {
    forall k :: 0 <= k < |tasks| ==> tasks[k].index == tasks[0].index + k
  }

  function Batch(hand: Hand): seq<Task> {
    if hand.Idle? then [] else hand.batch
  }

  predicate Shape(s: State) {
    && s.log.Contiguous() && s.log.start == s.snapshotIndex + 1
    && |s.queue| <= s.lastEnqueued && Consecutive(s.queue, s.lastEnqueued - |s.queue|)
    && Chained(Batch(s.hand))
  }

  /** The log reaches down to whatever is not enqueued yet. */
  predicate Reaches(s: State) {
    s.log.start <= s.lastEnqueued + 1
  }

  lemma LastIsHeld(log: Log)
    requires log.Contiguous() && 1 <= log.start
    ensures log.entries != [] ==> log.LastIndex() == log.start + |log.entries| - 1
    ensures log.entries == [] ==> log.LastIndex() == 0
  {
  }

  lemma OneMoreTask(log: Log, from: nat, to: nat)
    requires from < to && log.start <= from + 1 && to < log.start + |log.entries|
    ensures TasksBetween(log, from, to) == [TaskOf(log.entries[from + 1 - log.start])] + TasksBetween(log, from + 1, to)
  {
  }

  lemma TasksAreConsecutive(log: Log, from: nat, to: nat)
    requires log.Contiguous() && from <= to && log.start <= from + 1 && to < log.start + |log.entries|
    ensures Consecutive(TasksBetween(log, from, to), from)
  {
    forall k | 0 <= k < to - from ensures TasksBetween(log, from, to)[k].index == from + 1 + k {
      assert TasksBetween(log, from, to)[k] == TaskOf(log.entries[from + 1 + k - log.start]);
    }
  }

  /** The loop with everything present: exactly the entries in between, in order. */
  lemma {:induction false} EnqueuesAll(s: State)
    requires Shape(s) && Reaches(s) && s.lastEnqueued < s.commitIndex <= s.log.LastIndex()
    ensures s.commitIndex < s.log.start + |s.log.entries|
    ensures Enqueued(s)
         == s.(lastEnqueued := s.commitIndex, queue := s.queue + TasksBetween(s.log, s.lastEnqueued, s.commitIndex))
    decreases s.commitIndex - s.lastEnqueued
  {
    LastIsHeld(s.log);
    var i := s.lastEnqueued + 1;
    var task := TaskOf(s.log.At(i).value);
    var s' := s.(lastEnqueued := i, queue := s.queue + [task]);
    OneMoreTask(s.log, s.lastEnqueued, s.commitIndex);
    if i < s.commitIndex {
      EnqueuesAll(s');
      assert s.queue + [task] + TasksBetween(s.log, i, s.commitIndex)
          == s.queue + ([task] + TasksBetween(s.log, i, s.commitIndex));
    } else {
      assert Enqueued(s') == s' && TasksBetween(s.log, i, s.commitIndex) == [];
      assert s.queue + [task] == s.queue + ([task] + []);
    }
  }

  /** Moving the commit index gives up exactly when something is to be enqueued that the log has dropped. */
  lemma AdvanceAbortsIff(s: State, index: nat)
    requires Shape(s) && !s.aborted
    ensures Advanced(s, index).aborted <==>
            index > s.commitIndex && Committed(s.log, s.commitIndex, index) > s.lastEnqueued && !Reaches(s)
    ensures Advanced(s, index).log == s.log && Advanced(s, index).lastEnqueued >= s.lastEnqueued
  {
    var s' := s.(commitIndex := Committed(s.log, s.commitIndex, index));
    if index > s.commitIndex && s'.commitIndex > s.lastEnqueued {
      if Reaches(s) {
        EnqueuesAll(s');
      } else {
        assert s.log.At(s.lastEnqueued + 1) == None;
      }
    }
  }

  lemma TruncationKeepsContiguity(log: Log, from: nat)
    requires log.Contiguous()
    ensures log.TruncateSuffix(from).Contiguous()
  {
  }

  lemma AdvanceKeepsShape(s: State, index: nat)
    requires Shape(s) && !s.aborted && !Advanced(s, index).aborted
    ensures Shape(Advanced(s, index))
  {
    var s' := s.(commitIndex := Committed(s.log, s.commitIndex, index));
    AdvanceAbortsIff(s, index);
    if index > s.commitIndex && s'.commitIndex > s.lastEnqueued {
      EnqueuesAll(s');
      var more := TasksBetween(s.log, s.lastEnqueued, s'.commitIndex);
      TasksAreConsecutive(s.log, s.lastEnqueued, s'.commitIndex);
      assert |s.queue + more| == |s.queue| + |more|;
    }
  }

  lemma StepKeepsShape(s: State, step: Step)
    requires Shape(s) && Enabled(s, step) && !Next(s, step).aborted
    ensures Shape(Next(s, step))
  {
    match step
    case AppendEntry(term, data) => TruncateUndoesAppend(s.log, term, data);
    case TruncateConflict(from) => TruncationKeepsContiguity(s.log, from);
    case AdvanceCommit(index) => AdvanceKeepsShape(s, index);
    case _ =>
  }

  // ---------- the node's own fields ----------

  class Applier {
    const log: RaftLog
    const membership: Membership
    const parse: string -> Command
    var snapshotIndex: nat
    var commitIndex: nat
    var lastEnqueued: nat
    var lastApplied: nat
    var queue: seq<Task>
    var hand: Hand
    var machine: Machine
    var restoring: Option<nat>
    var aborted: bool

    function View(): State
      reads this, log
    {
      State(log.View(), snapshotIndex, commitIndex, lastEnqueued, lastApplied, queue, hand, machine, restoring, aborted)
    }

    /** Start: restore the snapshot, if any, then load the log entries behind it. */
    constructor (snapshotIndex: nat, restored: seq<Entry>, membership: Membership, parse: string -> Command)
      ensures log.Valid() && fresh(log) && this.membership == membership && this.parse == parse
      ensures View() == Started(RestoredLog(snapshotIndex, restored), snapshotIndex)
    {
      log := new RaftLog();
      this.membership, this.parse := membership, parse;
      var i := snapshotIndex;
      this.snapshotIndex, commitIndex, lastEnqueued, lastApplied := i, i, i, i;
      queue, hand, machine, restoring, aborted := [], Idle, Machine(i, []), None, false;
      new;
      log.SetStartIndex(i + 1);
      if restored != [] && restored[0].index != i + 1 {
        log.SetStartIndex(restored[0].index);
      }
      ghost var start := log.startIndex;
      for k := 0 to |restored|
        invariant log.Valid() && View() == Started(Log(start, restored[..k]), snapshotIndex)
      {
        log.AppendLogEntry(restored[k]);
        assert restored[..k + 1] == restored[..k] + [restored[k]];
      }
      assert restored[..|restored|] == restored;
    }

    /** The follower's commit rule, and the leader's, end here: never beyond the log's last index. */
    method AdvanceCommit(index: nat)
      modifies this`commitIndex, this`lastEnqueued, this`queue, this`aborted, membership
      ensures View() == Advanced(old(View()), index)
      ensures membership.config == Reconfigured(parse, old(membership.config), Enlisted(old(View()), index))
    {
      if index > commitIndex {
        var (last, _) := log.GetLastLogInfo();
        commitIndex := Min(index, last);
        ApplyCommitted();
      }
    }

    /** Configuration changes are applied here and now; everything is enqueued. */
    method ApplyCommitted()
      modifies this`lastEnqueued, this`queue, this`aborted, membership
      ensures View() == Enqueued(old(View()))
      ensures membership.config
           == Reconfigured(parse, old(membership.config), Due(log.View(), old(lastEnqueued), commitIndex))
    {
      LoopReconfigures(parse, membership.config, log.View(), lastEnqueued, commitIndex);
      while lastEnqueued < commitIndex
        invariant Enqueued(View()) == Enqueued(old(View()))
        invariant LoopConfig(parse, membership.config, log.View(), lastEnqueued, commitIndex)
               == LoopConfig(parse, old(membership.config), log.View(), old(lastEnqueued), commitIndex)
      {
        lastEnqueued := lastEnqueued + 1;
        var entry := log.View().At(lastEnqueued);
        if entry == None {
          aborted := true;
          return;
        }
        Enqueue(entry.value);
      }
    }

    method Enqueue(entry: Entry)
      modifies this`queue, membership
      ensures queue == old(queue) + [TaskOf(entry)]
      ensures membership.config == WithEntry(parse, old(membership.config), entry)
    {
      if CONFIG_PREFIX <= entry.data {
        membership.ApplyConfigChange(parse(entry.data));
      }
      queue := queue + [TaskOf(entry)];
    }

    /** The apply thread takes up to a batch off the queue. */
    method PopBatch()
      requires hand.Idle?
      modifies this`hand, this`queue
      ensures View() == AfterPop(old(View()))
    {
      var taken, rest := [], queue;
      while rest != [] && |taken| < BATCH_SIZE
        invariant taken + rest == queue && |taken| <= BATCH_SIZE
        decreases |rest|
      {
        taken, rest := taken + [rest[0]], rest[1..];
      }
      var n := Min(BATCH_SIZE, |queue|);
      assert |taken| == n && queue[..n] == taken && queue[n..] == rest;
      hand, queue := Popped(taken), rest;
    }

    /** It reads the applied index only after it has released the queue. */
    method LoadApplied()
      requires Enabled(View(), Load)
      modifies this`hand
      ensures View() == Next(old(View()), Load)
    {
      hand := Working(lastApplied, hand.batch);
    }

    method ApplyNext()
      requires Enabled(View(), Step.ApplyNext)
      modifies this`hand, this`machine
      ensures View() == AfterTask(old(View()))
    {
      var task, rest := hand.batch[0], hand.batch[1..];
      if task.index <= hand.cursor {
        hand := Working(hand.cursor, rest);
        return;
      }
      hand := Working(task.index, rest);
      if !task.config {
        machine := machine.(given := machine.given + [task]);
      }
    }

    method Publish()
      requires Enabled(View(), Step.Publish)
      modifies this`lastApplied, this`hand
      ensures View() == Next(old(View()), Step.Publish)
    {
      lastApplied, hand := hand.cursor, Idle;
    }

    method ApplySnapshot(index: nat) returns (applied: bool)
      requires log.Valid()
      modifies this`snapshotIndex, log
      ensures log.Valid() && applied == Compacts(old(View()), index) && View() == Compacted(old(View()), index)
    {
      if index <= snapshotIndex {
        return false;
      }
      var (last, _) := log.GetLastLogInfo();
      if last > index {
        return false;
      }
      log.SetStartIndex(index + 1);
      snapshotIndex := index;
      applied := true;
    }

    /** A complete transfer restores the machine at once, holding no lock. */
    method RestoreSnapshot(index: nat)
      requires restoring == None
      modifies this`machine, this`restoring
      ensures View() == Restored(old(View()), index)
    {
      machine, restoring := Machine(index, []), Some(index);
    }

    /** Only then, under the locks again, is the snapshot looked at and the indices moved. */
    method InstallSnapshot(index: nat) returns (applied: bool)
      requires log.Valid() && restoring == Some(index)
      modifies this, log
      ensures log.Valid() && applied == Installs(old(View()), index) && View() == Installed(old(View()), index)
    {
      restoring := None;
      if index <= snapshotIndex || commitIndex > index {
        return false;
      }
      log.SetStartIndex(index + 1);
      snapshotIndex, lastApplied, commitIndex, lastEnqueued, queue := index, index, index, index, [];
      applied := true;
    }
  }

  // ---------- commit after compaction ----------

  /** The commit index never falls exactly when the log still reaches it. */
  lemma CommitNeverFallsIff(log: Log, commit: nat)
    ensures (forall index :: Committed(log, commit, index) >= commit) <==> commit <= log.LastIndex()
  {
    assert Committed(log, commit, commit + 1) == Min(commit + 1, log.LastIndex());
  }
}
