/** Laws of replication over whole runs: the commit scan, the pipeline window, follower commit. */
module ReplicationLaws {

  import opened RaftTypes
  import opened Quorums
  import opened RaftNodes
  import opened RaftCluster
  import opened ElectionSafety
  import opened LogMatching

  // ---------- the commit scan ----------

  lemma HeldTermsAscend(h: History, n: Node)
    requires LeaderLogsOk(h) && NodeLogOk(h, n)
    ensures TermsAscend(n)
  {
    GroundedWellFormed(h, n.log.entries);
    forall i: nat ensures TermAt(n, i) == if 1 <= i <= |n.log.entries| then n.log.entries[i - 1].term else 0 {
      HeldTerm(n, i);
    }
    HeldTerm(n, 0);
  }

  /** In every reachable state the early exit is safe: `TryCommit` finds the largest committable index. */
  lemma ReachableCommitIsLargest(p: Params, run: Run, k: nat, i: NodeId)
    requires ValidRun(p, run) && k < |run.states| && i in run.states[k].nodes
    ensures var n := run.states[k].nodes[i];
            var r := TryCommit(p.config, n).commitIndex;
            && r >= n.commitIndex
            && (r > n.commitIndex ==> Committable(p.config, n, r))
            && (forall j: nat :: Committable(p.config, n, j) ==> j <= r)
  {
    var c := run.states[k];
    RunKeepsLogInv(p, run, k);
    assert NodeLogOk(c.history, c.nodes[i]);
    HeldTermsAscend(c.history, c.nodes[i]);
    TryCommitPicksLargest(p.config, c.nodes[i]);
  }

  // ---------- the pipeline window ----------

  predicate WindowKept(limits: Limits, g: Progress) {
    forall q :: q in g.inflight ==> InflightCount(g.inflight[q]) <= limits.window + limits.maxEntries - 1
  }

  lemma {:induction false} CountOfAppended(batches: seq<Batch>, b: Batch)
    ensures InflightCount(batches + [b]) == InflightCount(batches) + b.count
  {
    if batches == [] {
      assert [b][1..] == [];
    } else {
      CountOfAppended(batches[1..], b);
      assert (batches + [b])[1..] == batches[1..] + [b];
    }
  }

  lemma BatchFits(limits: Limits, n: Node, next: Position)
    ensures |NextRequest(limits, n, next).entries| <= limits.maxEntries
  {
  }

  lemma SendKeepsWindow(limits: Limits, n: Node, peer: NodeId)
    requires WindowKept(limits, n.progress)
    ensures WindowKept(limits, SendAppendEntries(limits, n, peer).0.progress)
  {
    var g, g' := n.progress, SendAppendEntries(limits, n, peer).0.progress;
    if g' != g {
      var next := g.nextIndex[peer];
      var b := Batch(next, |NextRequest(limits, n, next).entries|);
      BatchFits(limits, n, next);
      CountOfAppended(g.InflightTo(peer), b);
      assert g'.inflight == g.inflight[peer := g.InflightTo(peer) + [b]];
    }
  }

  lemma AnswerKeepsWindow(limits: Limits, g: Progress, from: NodeId, reply: AppendReply)
    requires WindowKept(limits, g) && g.Tracks(from)
    ensures WindowKept(limits, Answered(g, from, reply))
  {
  }

  lemma AppendKeepsInflight(config: ClusterConfig, n: Node, req: AppendRequest)
    ensures var g := HandleAppendEntries(config, n, req).0.progress;
            g == n.progress || g.inflight == map[]
  {
    ReplicateKeepsOffice(if req.term > n.office.term then BecomeFollower(n, req.term) else n, req);
  }

  predicate WindowsKept(p: Params, c: Cluster) {
    forall i :: i in c.nodes ==> WindowKept(p.limits, c.nodes[i].progress)
  }

  lemma StepKeepsWindows(p: Params, c: Cluster, step: Step)
    requires WindowsKept(p, c) && Enabled(c, step)
    ensures WindowsKept(p, Next(p, c, step))
  {
    match step
    case SendAppend(n, peer) => SendKeepsWindow(p.limits, c.nodes[n], peer);
    case ReceiveAppend(m) => AppendKeepsInflight(p.config, c.nodes[m.dst], m.append);
    case ReceiveAppendReply(m) => ReplyKeepsWindows(p, c, m);
    case _ => OtherStepsKeepWindows(p, c, step);
  }

  lemma ReplyKeepsWindows(p: Params, c: Cluster, m: Message)
    requires WindowsKept(p, c) && m.AppendAnswer? && m.dst in c.nodes
    ensures WindowsKept(p, AfterAppendReply(c, m))
  {
    if c.nodes[m.dst].progress.Tracks(m.src) {
      AnswerKeepsWindow(p.limits, c.nodes[m.dst].progress, m.src, m.appendReply);
    }
  }

  lemma OtherStepsKeepWindows(p: Params, c: Cluster, step: Step)
    requires WindowsKept(p, c) && Enabled(c, step) && !step.SendAppend?
    requires !step.ReceiveAppend? && !step.ReceiveAppendReply?
    ensures WindowsKept(p, Next(p, c, step))
  {
  }

  /** Entries in flight to a peer never exceed the window by more than one batch less one entry. */
  lemma {:induction false} PipelineBounded(p: Params, run: Run, k: nat, i: NodeId, peer: NodeId)
    requires ValidRun(p, run) && k < |run.states| && i in run.states[k].nodes
    ensures InflightCount(run.states[k].nodes[i].progress.InflightTo(peer)) <= p.limits.window + p.limits.maxEntries - 1
  {
    RunKeepsWindows(p, run, k);
  }

  lemma {:induction false} RunKeepsWindows(p: Params, run: Run, k: nat)
    requires ValidRun(p, run) && k < |run.states|
    ensures WindowsKept(p, run.states[k])
  {
    if k > 0 {
      RunKeepsWindows(p, run, k - 1);
      StepKeepsWindows(p, run.states[k - 1], run.steps[k - 1]);
    }
  }

  // ---------- whom a leader tracks ----------

  predicate TracksOthers(i: NodeId, n: Node) {
    n.id == i && i !in n.peers && n.progress.matchIndex.Keys <= n.peers
  }

  predicate AllTrackOthers(c: Cluster) {
    forall i :: i in c.nodes ==> TracksOthers(i, c.nodes[i])
  }

  lemma AppendKeepsTracking(config: ClusterConfig, i: NodeId, n: Node, req: AppendRequest)
    requires TracksOthers(i, n)
    ensures TracksOthers(i, HandleAppendEntries(config, n, req).0)
  {
    ReplicateKeepsOffice(if req.term > n.office.term then BecomeFollower(n, req.term) else n, req);
  }

  lemma StepKeepsTracking(p: Params, c: Cluster, step: Step)
    requires AllTrackOthers(c) && Enabled(c, step)
    ensures AllTrackOthers(Next(p, c, step))
  {
    match step
    case ReceiveAppend(m) => AppendKeepsTracking(p.config, m.dst, c.nodes[m.dst], m.append);
    case Timeout(n) => TimeoutKeepsTracking(p, c, n);
    case ReceiveVoteRequest(m, heard, saved) => VoteKeepsTracking(p, c, m, heard, saved);
    case ReceiveVoteReply(m) => VoteReplyKeepsTracking(p, c, m);
    case _ => OtherStepsKeepTracking(p, c, step);
  }

  lemma TimeoutKeepsTracking(p: Params, c: Cluster, n: NodeId)
    requires AllTrackOthers(c) && n in c.nodes
    ensures AllTrackOthers(AfterTimeout(p, c, n))
  {
  }

  lemma VoteKeepsTracking(p: Params, c: Cluster, m: Message, heard: bool, saved: bool)
    requires AllTrackOthers(c) && m.AskVote? && m.dst in c.nodes
    ensures AllTrackOthers(AfterVoteRequest(p, c, m, heard, saved))
  {
  }

  lemma VoteReplyKeepsTracking(p: Params, c: Cluster, m: Message)
    requires AllTrackOthers(c) && m.VoteAnswer? && m.dst in c.nodes
    ensures AllTrackOthers(AfterVoteReply(p, c, m))
  {
  }

  lemma OtherStepsKeepTracking(p: Params, c: Cluster, step: Step)
    requires AllTrackOthers(c) && Enabled(c, step) && !step.ReceiveAppend?
    requires !step.Timeout? && !step.ReceiveVoteRequest? && !step.ReceiveVoteReply?
    ensures AllTrackOthers(Next(p, c, step))
  {
  }

  /** No node ever has itself in its match_index, as the commit count takes for granted. */
  lemma {:induction false} NeverTracksItself(p: Params, run: Run, k: nat, i: NodeId)
    requires ValidRun(p, run) && k < |run.states| && i in run.states[k].nodes
    ensures i == run.states[k].nodes[i].id && i !in run.states[k].nodes[i].progress.matchIndex
  {
    RunKeepsTracking(p, run, k);
  }

  lemma {:induction false} RunKeepsTracking(p: Params, run: Run, k: nat)
    requires ValidRun(p, run) && k < |run.states|
    ensures AllTrackOthers(run.states[k])
  {
    if k > 0 {
      RunKeepsTracking(p, run, k - 1);
      StepKeepsTracking(p, run.states[k - 1], run.steps[k - 1]);
    }
  }

  // ---------- follower commit ----------

  /**
   * A follower raises its commit index to the leader's, capped by its own last index. What it
   * then counts as committed is the leader's log exactly when that index was covered by the
   * request, or the follower already held the leader's term there.
   */
  lemma FollowerCommitFollowsLeaderIff(n: Node, req: AppendRequest, lead: seq<Entry>)
    requires Uncompacted(n) && WellFormed(lead) && Matching(n.log.entries, lead) && SliceOk(lead, req)
    requires Replicate(n, req).1.success && n.commitIndex < req.leaderCommit <= |lead|
    ensures var n' := Replicate(n, req).0;
            var ci := Min(req.leaderCommit, |n'.log.entries|);
            && n'.commitIndex == ci
            && (Agree(n'.log.entries, lead, ci) <==>
                || ci == 0
                || (req.entries != [] && ci <= req.prevIndex + |req.entries|)
                || TermAt(n, ci) == lead[ci - 1].term)
  {
    var n', own, q := Replicate(n, req).0, n.log.entries, req.prevIndex + |req.entries|;
    ReplicateOutcome(n, req, lead);
    FollowedCommit(n, req, lead);
    var ci := n'.commitIndex;
    HeldTerm(n, ci);
    if req.entries != [] && ci <= q {
      AgreeUpTo(n'.log.entries, lead, ci, q);
    } else if ci > 0 {
      assert n'.log.entries == own;
      if TermAt(n, ci) == lead[ci - 1].term {
        assert own[..ci - 1 + 1] == lead[..ci - 1 + 1];
      } else {
        NotBeyondDifference(own, lead, ci - 1);
      }
    }
  }

  lemma AgreeUpTo(a: seq<Entry>, lead: seq<Entry>, i: nat, k: nat)
    requires i <= k <= |lead| && (Agree(a, lead, k) || a == lead[..k])
    ensures Agree(a, lead, i)
  {
    assert a[..i] == a[..k][..i] && lead[..k][..i] == lead[..i];
  }

  lemma FollowedCommit(n: Node, req: AppendRequest, lead: seq<Entry>)
    requires Uncompacted(n) && WellFormed(lead) && Matching(n.log.entries, lead) && SliceOk(lead, req)
    requires Replicate(n, req).1.success && n.commitIndex < req.leaderCommit
    ensures var n' := Replicate(n, req).0; n'.commitIndex == Min(req.leaderCommit, |n'.log.entries|)
  {
    var m := AppendMissing(CutConflict(n, req.entries), req.entries).0;
    ReplicateOutcome(n, req, lead);
    ReplicateKeepsOffice(n, req);
    var own, q := n.log.entries, req.prevIndex + |req.entries|;
    assert m.log == Replicate(n, req).0.log;
    assert WellFormed(m.log.entries) by {
      assert m.log.entries == own || m.log.entries == lead[..q];
    }
    HeldTerm(m.(snapshotIndex := 0), 0);
    AppendMissingOnlyLog(CutConflict(n, req.entries), req.entries);
  }
}
