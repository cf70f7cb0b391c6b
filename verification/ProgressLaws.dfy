/**
 * Laws of the books a node keeps: answers in order, answers without a hint, answers that come too
 * late, answers from a later term, and what survives stepping down and restarting.
 */
module ProgressLaws {

  import opened RaftTypes
  import opened Quorums
  import opened RaftLogs
  import opened RaftNodes
  import opened RaftCluster
  import opened ElectionSafety
  import opened LogMatching
  import opened CatchUp

  // ---------- answers in order ----------

  /** Batches one behind the other from `start` to just before `end`. */
  predicate Chain(batches: seq<Batch>, start: nat, end: nat)
    decreases |batches|
  {
    if batches == [] then start == end
    else batches[0].start == start && batches[0].count > 0 && Chain(batches[1..], start + batches[0].count, end)
  }

  /** Every batch in flight is accepted, in order. */
  function Drained(n: Node, from: NodeId, batches: seq<Batch>): Node
    decreases |batches|
  {
    if batches == [] then n
    else Drained(HandleAppendEntriesResponse(n, from, AppendReply(n.office.term, true, 0, batches[0].count)), from,
                 batches[1..])
  }

  lemma HeadAccepted(n: Node, from: NodeId, b: Batch, rest: seq<Batch>)
    requires n.office.role == Leader && n.progress.Tracks(from) && n.progress.InflightTo(from) == [b] + rest
    requires n.progress.matchIndex[from] < b.start && 0 < b.count && b.start + b.count <= n.progress.nextIndex[from]
    ensures var n' := HandleAppendEntriesResponse(n, from, AppendReply(n.office.term, true, 0, b.count));
            && n' == n.(progress := n'.progress) && n'.progress.Tracks(from) && n'.progress.InflightTo(from) == rest
            && n'.progress.nextIndex[from] == n.progress.nextIndex[from]
            && n'.progress.matchIndex[from] == b.start + b.count - 1
  {
    assert ([b] + rest)[1..] == rest;
  }

  lemma ChainReaches(batches: seq<Batch>, start: nat, end: nat)
    requires Chain(batches, start, end)
    ensures start <= end
    decreases |batches|
  {
  }

  /** Answers in order credit the pipeline to its end and leave the send position where it was. */
  lemma {:induction false} PipelineDrains(n: Node, from: NodeId, start: nat)
    requires n.office.role == Leader && n.progress.Tracks(from)
    requires Chain(n.progress.InflightTo(from), start, n.progress.nextIndex[from])
    requires n.progress.matchIndex[from] < start
    ensures var g, g' := n.progress, Drained(n, from, n.progress.InflightTo(from)).progress;
            && g'.Tracks(from) && g'.InflightTo(from) == [] && g'.nextIndex[from] == g.nextIndex[from]
            && g'.matchIndex[from] + 1 == if g.InflightTo(from) == [] then g.matchIndex[from] + 1 else g.nextIndex[from]
    decreases |n.progress.InflightTo(from)|
  {
    var batches := n.progress.InflightTo(from);
    if batches != [] {
      var b, rest := batches[0], batches[1..];
      assert batches == [b] + rest;
      ChainReaches(rest, start + b.count, n.progress.nextIndex[from]);
      HeadAccepted(n, from, b, rest);
      PipelineDrains(HandleAppendEntriesResponse(n, from, AppendReply(n.office.term, true, 0, b.count)), from,
                     start + b.count);
    }
  }

  /** Whatever batch it answers, an acceptance takes nothing back. */
  lemma AcceptanceTakesNothingBack(n: Node, from: NodeId, reply: AppendReply)
    requires n.office.role == Leader && n.progress.Tracks(from) && reply.success && reply.term <= n.office.term
    ensures var g, g' := n.progress, HandleAppendEntriesResponse(n, from, reply).progress;
            && g'.Tracks(from) && g.nextIndex[from] <= g'.nextIndex[from] && g.matchIndex[from] <= g'.matchIndex[from]
            && (g.matchIndex[from] < g.nextIndex[from] ==> g'.matchIndex[from] < g'.nextIndex[from])
  {
  }

  /** A refusal, of whatever kind, leaves the credit below the send position. */
  lemma RefusalKeepsCreditBelow(n: Node, from: NodeId, reply: AppendReply)
    requires n.office.role == Leader && n.progress.Tracks(from) && !reply.success && reply.term <= n.office.term
    ensures var g := HandleAppendEntriesResponse(n, from, reply).progress;
            g.Tracks(from) && g.matchIndex[from] < g.nextIndex[from] && g.InflightTo(from) == []
    ensures var g := HandleHeartbeatResponse(n, from, reply).progress;
            g == n.progress || (g.Tracks(from) && g.matchIndex[from] < g.nextIndex[from])
  {
  }

  // ---------- answers without a hint ----------

  /** `k` failures in a row that answer nothing in flight. */
  function Failures(n: Node, from: NodeId, reply: AppendReply, k: nat): Node {
    if k == 0 then n else HandleAppendEntriesResponse(Failures(n, from, reply, k - 1), from, reply)
  }

  /** Late failures step the send position down one by one, never below what is credited. */
  lemma {:induction false} LateFailuresStepDown(n: Node, from: NodeId, reply: AppendReply, k: nat)
    requires n.office.role == Leader && n.progress.Tracks(from) && n.progress.InflightTo(from) == []
    requires n.progress.matchIndex[from] < n.progress.nextIndex[from]
    requires !reply.success && reply.term <= n.office.term
    ensures var m := Failures(n, from, reply, k);
            var g, g' := n.progress, m.progress;
            && m == n.(progress := g') && g'.Tracks(from) && g'.InflightTo(from) == []
            && g'.matchIndex == g.matchIndex
            && g'.nextIndex[from] as int == if g.nextIndex[from] - k > g.matchIndex[from] then g.nextIndex[from] - k
                                            else g.matchIndex[from] + 1
  {
    if k > 0 {
      LateFailuresStepDown(n, from, reply, k - 1);
    }
  }

  /** A follower that does not count the leader among the voters: everything else is in order. */
  predicate Shunned(p: Params, x: Pair) {
    && !p.config.IsVoter(x.lead.id) && Facing(p.(config := ClusterConfig([x.lead.id], [], [], 0, false)), x)
    && x.Match() < x.Next() <= x.Last() + 1
  }

  predicate SteppedBack(p: Params, x: Pair, y: Pair)
    requires Shunned(p, x)
  {
    && Shunned(p, y) && SameLeader(x, y) && y.follow == x.follow
    && y.Next() == (if x.Match() == x.Last() then x.Next() else Max(1, x.Next() - 1))
    && y.Match() == Min(x.Match(), y.Next() - 1)
  }

  lemma ShunnedRound(p: Params, x: Pair)
    requires Shunned(p, x)
    ensures SteppedBack(p, x, Round(p, x))
  {
    var q := x.follow.id;
    Sent(p.(config := ClusterConfig([x.lead.id], [], [], 0, false)), x);
    var req := NextRequest(p.limits, x.lead, x.Next());
    assert HandleAppendEntries(p.config, x.follow, req) == (x.follow, AppendReply(x.follow.office.term, false, 0, 0));
    HeldTerm(x.lead, 0);
  }

  predicate StillShunned(p: Params, x: Pair, y: Pair) {
    Shunned(p, y) && SameLeader(x, y) && y.follow == x.follow && y.Match() < y.Last()
  }

  function SendPosition(y: Pair): nat {
    if Tracked(y) then y.Next() else 0
  }

  lemma ShunnedCountsDown(p: Params, x: Pair, y: Pair)
    requires StillShunned(p, x, y)
    ensures StillShunned(p, x, Round(p, y))
    ensures SendPosition(y) >= 1 && SendPosition(Round(p, y)) == Max(1, SendPosition(y) - 1)
  {
    ShunnedRound(p, y);
    StaysShunned(p, x, y, Round(p, y));
  }

  /** A step leaves the pair as it is but for the send position, one lower and never below 1. */
  predicate Lowers(p: Params, x: Pair, step: Pair -> Pair, y: Pair) {
    StillShunned(p, x, y) ==>
      StillShunned(p, x, step(y)) && SendPosition(y) >= 1 && SendPosition(step(y)) == Max(1, SendPosition(y) - 1)
  }

  lemma {:induction false} CountsDown(p: Params, x: Pair, step: Pair -> Pair, y: Pair, n: nat)
    requires (forall z :: Lowers(p, x, step, z)) && StillShunned(p, x, y)
    ensures var z := Iterate(step, y, n);
            StillShunned(p, x, z) && SendPosition(z) == if n < SendPosition(y) then SendPosition(y) - n else 1
    decreases n
  {
    assert Lowers(p, x, step, y);
    if n > 0 {
      CountsDown(p, x, step, step(y), n - 1);
    }
  }

  lemma RoundLowers(p: Params, x: Pair, y: Pair)
    ensures Lowers(p, x, Rounder(p), y)
  {
    if StillShunned(p, x, y) {
      ShunnedCountsDown(p, x, y);
    }
  }

  /** Refusals without a hint walk the send position down one index a round, to the very beginning. */
  lemma ShunnedWalksBack(p: Params, x: Pair, n: nat)
    requires Shunned(p, x) && x.Match() < x.Last()
    ensures var y := Rounds(p, x, n);
            StillShunned(p, x, y) && SendPosition(y) == if n < x.Next() then x.Next() - n else 1
  {
    forall y ensures Lowers(p, x, Rounder(p), y) {
      RoundLowers(p, x, y);
    }
    CountsDown(p, x, Rounder(p), x, n);
  }

  lemma StaysShunned(p: Params, x: Pair, y: Pair, z: Pair)
    requires Shunned(p, y) && SameLeader(x, y) && y.follow == x.follow && y.Match() < y.Last() && SteppedBack(p, y, z)
    ensures SameLeader(x, z) && z.follow == x.follow && z.Match() < z.Last() && z.Next() == Max(1, y.Next() - 1)
  {
  }

  // ---------- later terms ----------

  function TermOf(m: Message): nat {
    match m
    case AskVote(_, _, vote) => vote.term
    case VoteAnswer(_, _, reply, _) => reply.term
    case AskAppend(_, _, append) => append.term
    case AppendAnswer(_, _, reply, _) => reply.term
  }

  predicate Receives(step: Step, m: Message) {
    match step
    case ReceiveVoteRequest(x, _, _) => x == m
    case ReceiveVoteReply(x) => x == m
    case ReceiveAppend(x) => x == m
    case ReceiveAppendReply(x) => x == m
    case _ => false
  }

  /** Requests count whenever they come from a voter, vote requests from anyone; answers only to who waits for them. */
  predicate Heeds(p: Params, n: Node, m: Message) {
    match m
    case AskVote(_, _, _) => true
    case VoteAnswer(_, _, _, _) => n.office.role == Candidate
    case AskAppend(_, _, append) => p.config.IsVoter(append.leader)
    case AppendAnswer(src, _, _, _) => n.office.role == Leader && n.progress.Tracks(src)
  }

  /** Who learns of a later term joins it as a follower; who does not heed the message stays as it was. */
  lemma LaterTermIsJoined(p: Params, c: Cluster, step: Step, m: Message)
    requires Enabled(c, step) && Receives(step, m) && TermOf(m) > c.nodes[m.dst].office.term
    ensures var n, n' := c.nodes[m.dst], Next(p, c, step).nodes[m.dst];
            if Heeds(p, n, m) then n'.office.term == TermOf(m) && n'.office.role == Follower else n' == n
  {
    if m.AskAppend? && Heeds(p, c.nodes[m.dst], m) {
      ReplicateKeepsOffice(BecomeFollower(c.nodes[m.dst], m.append.term), m.append);
    }
  }

  // ---------- stepping down, restarting, flushing ----------

  predicate PipelinesOnlyLeading(c: Cluster) {
    forall i :: i in c.nodes && c.nodes[i].office.role != Leader ==> c.nodes[i].progress.inflight == map[]
  }

  lemma AppendKeepsPipelines(config: ClusterConfig, n: Node, req: AppendRequest)
    requires n.office.role != Leader ==> n.progress.inflight == map[]
    ensures var n' := HandleAppendEntries(config, n, req).0;
            n'.office.role != Leader ==> n'.progress.inflight == map[]
  {
    ReplicateKeepsOffice(Receptive(n, req.term), req);
  }

  lemma StepKeepsPipelines(p: Params, c: Cluster, step: Step)
    requires PipelinesOnlyLeading(c) && Enabled(c, step)
    ensures PipelinesOnlyLeading(Next(p, c, step))
  {
    match step
    case ReceiveAppend(m) => AppendKeepsPipelines(p.config, c.nodes[m.dst], m.append);
    case _ => OtherStepsKeepPipelines(p, c, step);
  }

  lemma OtherStepsKeepPipelines(p: Params, c: Cluster, step: Step)
    requires PipelinesOnlyLeading(c) && Enabled(c, step) && !step.ReceiveAppend?
    ensures PipelinesOnlyLeading(Next(p, c, step))
  {
  }

  /** Only a leader has batches in flight: stepping down forgets them. */
  lemma {:induction false} OnlyLeadersHavePipelines(p: Params, run: Run, k: nat)
    requires ValidRun(p, run) && k < |run.states|
    ensures PipelinesOnlyLeading(run.states[k])
  {
    if k > 0 {
      OnlyLeadersHavePipelines(p, run, k - 1);
      StepKeepsPipelines(p, run.states[k - 1], run.steps[k - 1]);
    }
  }

  /** While a node leads, callbacks in any order only raise its flushed index, to the highest one told. */
  lemma {:induction false} FlushedIsHighestTold(n: Node, told: seq<nat>)
    requires n.office.role == Leader
    ensures var m := Told(n, told);
            && m == n.(flushedIndex := m.flushedIndex) && m.flushedIndex >= n.flushedIndex
            && (m.flushedIndex == n.flushedIndex || m.flushedIndex in told)
            && (forall i :: i in told ==> i <= m.flushedIndex)
    decreases |told|
  {
    if told != [] {
      FlushedIsHighestTold(n, told[..|told| - 1]);
      assert told == told[..|told| - 1] + [told[|told| - 1]];
    }
  }

  function Told(n: Node, told: seq<nat>): Node {
    if told == [] then n else OnLogEntryPersisted(Told(n, told[..|told| - 1]), told[|told| - 1])
  }

  /** What a restart finds on disk may be committed without being flushed again. */
  lemma RestartedMayCommitAll(n: Node, found: seq<Entry>)
    ensures var m := Restart(n, found);
            && CommitCeiling(m) == m.log.LastIndex() && m.log == Log(n.log.start, found)
            && m.office.role == Follower && m.office.term == n.office.savedTerm
            && m.office.votedFor == n.office.savedVote
  {
  }

  // ---------- entries that do not follow on ----------

  /** Entries beyond the end of the log are refused, and the answer names the index that is next. */
  lemma GapIsRefused(n: Node, req: AppendRequest)
    requires Uncompacted(n) && req.entries != []
    requires forall k :: 0 <= k < |req.entries| ==> req.entries[k].index == req.prevIndex + 1 + k
    requires req.prevIndex > |n.log.entries| && req.prevTerm == 0
    ensures Replicate(n, req) == (n, AppendReply(n.office.term, false, |n.log.entries| + 1, 0))
  {
    HeldTerm(n, req.prevIndex);
    NoConflictBeyond(n, req.entries, req.prevIndex);
    HeldTerm(n, req.entries[0].index);
  }

  lemma {:induction false} NoConflictBeyond(n: Node, entries: seq<Entry>, prev: nat)
    requires Uncompacted(n) && prev >= |n.log.entries|
    requires forall k :: 0 <= k < |entries| ==> entries[k].index == prev + 1 + k
    ensures BeforeConflict(n, entries) == |entries|
    decreases |entries|
  {
    if entries != [] {
      HeldTerm(n, entries[0].index);
      NoConflictBeyond(n, entries[1..], prev + 1);
    }
  }
}
