/**
 * Catching up from any state of a run. Answers that keep to their term keep every send position
 * within the leader's log, so every follower can be brought up to date; a refusal from an earlier
 * term can push a position beyond it.
 */
module CatchUpRuns {

  import opened RaftTypes
  import opened RaftLogs
  import opened RaftNodes
  import opened RaftCluster
  import opened ElectionSafety
  import opened LogMatching
  import opened CatchUp

  // ---------- what answers say ----------

  /** An answer to a batch claims no more than the batch asked, and points no further than where it began. */
  predicate AnswerOk(h: History, m: Message) {
    m.AppendAnswer? && m.asked.entries != [] ==>
      && m.asked.term in h.termLog && m.asked.prevIndex + |m.asked.entries| <= |h.termLog[m.asked.term]|
      && m.appendReply.count <= |m.asked.entries| && m.appendReply.conflictIndex <= m.asked.prevIndex
  }

  predicate AnswersOk(c: Cluster) {
    forall m :: m in c.messages ==> AnswerOk(c.history, m)
  }

  lemma ReplyWithinRequest(p: Params, c: Cluster, m: Message)
    requires LogInv(c) && m in c.messages && m.AskAppend? && m.dst in c.nodes && m.append.entries != []
    ensures var reply := HandleAppendEntries(p.config, c.nodes[m.dst], m.append).1;
            reply.count <= |m.append.entries| && reply.conflictIndex <= m.append.prevIndex
  {
    var n, req := c.nodes[m.dst], m.append;
    assert AppendMessageOk(c.history, m) && NodeLogOk(c.history, n);
    NodeAgainstLeaderLog(c.history, n, req.term);
    HandlerReplicates(p.config, n, req);
    if p.config.IsVoter(req.leader) && req.term >= n.office.term {
      ReplicateWithinRequest(Receptive(n, req.term), req, c.history.termLog[req.term]);
    }
  }

  lemma ReplicateWithinRequest(n: Node, req: AppendRequest, lead: seq<Entry>)
    requires Uncompacted(n) && WellFormed(lead) && Matching(n.log.entries, lead) && SliceOk(lead, req)
    ensures var reply := Replicate(n, req).1;
            reply.count <= |req.entries| && reply.conflictIndex <= req.prevIndex
  {
    if req.prevIndex > 0 && TermAt(n, req.prevIndex) != req.prevTerm {
      RefusedAnswer(n, req);
    } else {
      var x := Pair(n.(log := Log(1, lead)), n);
      TakesEntries(n, req, x);
      AcceptedAnswer(n, req, n.(log := Log(1, Taken(x, req))));
    }
  }

  lemma AnswersCarryOver(c: Cluster, c': Cluster, sent: Message)
    requires AnswersOk(c) && Grows(c.history.termLog, c'.history.termLog) && AnswerOk(c'.history, sent)
    requires forall m :: m in c'.messages && m.AppendAnswer? ==> m in c.messages || m == sent
    ensures AnswersOk(c')
  {
    forall m | m in c'.messages ensures AnswerOk(c'.history, m) {
      if m in c.messages {
        assert AnswerOk(c.history, m);
      }
    }
  }

  lemma AppendKeepsAnswers(p: Params, c: Cluster, m: Message)
    requires LogInv(c) && AnswersOk(c) && m in c.messages && m.AskAppend? && m.dst in c.nodes
    ensures AnswersOk(AfterAppend(p, c, m))
  {
    var (n', reply) := HandleAppendEntries(p.config, c.nodes[m.dst], m.append);
    if m.append.entries != [] {
      ReplyWithinRequest(p, c, m);
      assert AppendMessageOk(c.history, m);
    }
    AnsweredMail(c, m, n', reply, |CutConflict(c.nodes[m.dst], m.append.entries).log.entries|);
  }

  lemma AnsweredMail(c: Cluster, m: Message, n': Node, reply: AppendReply, retained: nat)
    requires AnswersOk(c) && m.AskAppend? && m.dst in c.nodes
    requires AnswerOk(c.history, AppendAnswer(m.dst, m.src, reply, m.append))
    ensures AnswersOk(AppendEffect(c, m, n', reply, retained))
  {
    AnswersCarryOver(c, AppendEffect(c, m, n', reply, retained), AppendAnswer(m.dst, m.src, reply, m.append));
  }

  lemma StepKeepsAnswers(p: Params, c: Cluster, step: Step)
    requires ElectionInv(p, c) && LogInv(c) && AnswersOk(c) && Enabled(c, step)
    ensures AnswersOk(Next(p, c, step))
  {
    if step.ReceiveAppend? {
      AppendKeepsAnswers(p, c, step.m);
    } else {
      StepWinsFirst(p, c, step);
      StepGrowsLeaderLogs(p, c, step);
      OnlyAppendsAnswer(p, c, step);
      AnswersCarryOver(c, Next(p, c, step), AskVote(0, 0, VoteRequest(0, 0, 0, 0)));
    }
  }

  lemma OnlyAppendsAnswer(p: Params, c: Cluster, step: Step)
    requires Enabled(c, step) && !step.ReceiveAppend?
    ensures forall m :: m in Next(p, c, step).messages && m.AppendAnswer? ==> m in c.messages
  {
  }

  // ---------- where a leader's positions are ----------

  /** The send position is within the log or right after it; what is credited or in flight is within. */
  predicate PeerOk(limits: Limits, n: Node, q: NodeId) {
    var g, last := n.progress, |n.log.entries|;
    && g.Tracks(q) && g.nextIndex[q] <= last + 1 && g.matchIndex[q] <= last
    && (forall b :: b in g.InflightTo(q) ==> 1 <= b.count <= limits.maxEntries && b.start + b.count <= last + 1)
  }

  predicate Poised(limits: Limits, n: Node) {
    n.office.role == Leader ==> forall q :: q in n.peers ==> PeerOk(limits, n, q)
  }

  predicate AllPoised(p: Params, c: Cluster) {
    forall i :: i in c.nodes ==> Poised(p.limits, c.nodes[i])
  }

  /** A refusal with a hint is of the leader's own term; an acceptance fits the head of the pipeline. */
  predicate Timely(n: Node, m: Message)
    requires m.AppendAnswer?
  {
    && AnswerFits(n, m)
    && (!m.appendReply.success && m.appendReply.conflictIndex > 0 && m.asked.entries != [] ==>
          m.asked.term == n.office.term)
  }

  predicate TimelyStep(c: Cluster, step: Step) {
    step.ReceiveAppendReply? && step.m.AppendAnswer? && step.m.dst in c.nodes ==> Timely(c.nodes[step.m.dst], step.m)
  }

  lemma SendKeepsPoise(limits: Limits, n: Node, peer: NodeId)
    requires Uncompacted(n) && Poised(limits, n)
    ensures Poised(limits, SendAppendEntries(limits, n, peer).0)
  {
    var n' := SendAppendEntries(limits, n, peer).0;
    HeldTerm(n, 0);
    if n'.office.role == Leader && n' != n {
      assert PeerOk(limits, n, peer);
      var next, batches := n.progress.nextIndex[peer], n.progress.InflightTo(peer);
      var count := |NextRequest(limits, n, next).entries|;
      assert 1 <= count <= limits.maxEntries && next + count <= |n.log.entries| + 1;
      forall q | q in n'.peers ensures PeerOk(limits, n', q) {
        assert PeerOk(limits, n, q);
      }
    }
  }

  lemma RetryKeepsPoise(limits: Limits, n: Node, peer: NodeId)
    requires Poised(limits, n)
    ensures Poised(limits, RetryFromHead(n, peer))
  {
    var n' := RetryFromHead(n, peer);
    if n'.office.role == Leader {
      forall q | q in n'.peers ensures PeerOk(limits, n', q) {
        assert PeerOk(limits, n, q);
      }
    }
  }

  lemma AnswerKeepsPeer(limits: Limits, n: Node, from: NodeId, reply: AppendReply)
    requires PeerOk(limits, n, from)
    requires var batches := n.progress.InflightTo(from);
             batches != [] ==>
               if reply.success
               then batches[0].start + reply.count - 1 <= |n.log.entries|
               else reply.conflictIndex <= |n.log.entries|
    ensures PeerOk(limits, n.(progress := Answered(n.progress, from, reply)), from)
  {
  }

  lemma HeartbeatKeepsPeer(limits: Limits, n: Node, from: NodeId, reply: AppendReply)
    requires Uncompacted(n) && PeerOk(limits, n, from) && n.office.role == Leader && reply.term <= n.office.term
    ensures PeerOk(limits, HandleHeartbeatResponse(n, from, reply), from)
  {
    HeldTerm(n, 0);
  }

  /** Progress about one peer leaves the others as they were. */
  ghost predicate OnlyAbout(n: Node, n': Node, from: NodeId) {
    var g, g' := n.progress, n'.progress;
    && n'.log == n.log && n'.peers == n.peers
    && (forall q :: q != from && g.Tracks(q) ==>
          g'.Tracks(q) && g'.nextIndex[q] == g.nextIndex[q] && g'.matchIndex[q] == g.matchIndex[q])
    && (forall q :: q != from ==> g'.InflightTo(q) == g.InflightTo(q))
  }

  lemma OthersKept(limits: Limits, n: Node, n': Node, from: NodeId)
    requires Poised(limits, n) && n.office.role == Leader && OnlyAbout(n, n', from)
    requires from in n.peers ==> PeerOk(limits, n', from)
    ensures Poised(limits, n')
  {
    forall q | q in n'.peers ensures PeerOk(limits, n', q) {
      assert PeerOk(limits, n, q);
    }
  }

  lemma HeardIsAbout(n: Node, from: NodeId, req: AppendRequest, reply: AppendReply)
    requires reply.term <= n.office.term
    ensures OnlyAbout(n, Heard(n, from, req, reply), from)
  {
  }

  lemma CreditWithinLog(h: History, n: Node, m: Message)
    requires NodeLogOk(h, n) && n.office.role == Leader && AnswerOk(h, m) && m.AppendAnswer? && Timely(n, m)
    requires n.progress.Tracks(m.src) && n.progress.matchIndex[m.src] <= |n.log.entries| && m.asked.entries != []
    ensures var batches, reply := n.progress.InflightTo(m.src), m.appendReply;
            batches != [] ==>
              if reply.success
              then batches[0].start + reply.count - 1 <= |n.log.entries|
              else reply.conflictIndex <= |n.log.entries|
  {
  }

  lemma HeardKeepsPeer(limits: Limits, h: History, n: Node, m: Message)
    requires LeaderLogsOk(h) && NodeLogOk(h, n) && AnswerOk(h, m) && m.AppendAnswer? && Timely(n, m)
    requires PeerOk(limits, n, m.src) && n.office.role == Leader && m.appendReply.term <= n.office.term
    ensures PeerOk(limits, Heard(n, m.src, m.asked, m.appendReply), m.src)
  {
    GroundedWellFormed(h, n.log.entries);
    if m.asked.entries == [] {
      HeartbeatKeepsPeer(limits, n, m.src, m.appendReply);
    } else {
      CreditWithinLog(h, n, m);
      AnswerKeepsPeer(limits, n, m.src, m.appendReply);
    }
  }

  lemma HeardKeepsPoise(limits: Limits, h: History, n: Node, m: Message)
    requires LeaderLogsOk(h) && NodeLogOk(h, n) && AnswerOk(h, m) && m.AppendAnswer? && Timely(n, m)
    requires Poised(limits, n)
    ensures Poised(limits, Heard(n, m.src, m.asked, m.appendReply))
  {
    if n.office.role == Leader && m.appendReply.term <= n.office.term {
      HeardIsAbout(n, m.src, m.asked, m.appendReply);
      if m.src in n.peers {
        assert PeerOk(limits, n, m.src);
        HeardKeepsPeer(limits, h, n, m);
      }
      OthersKept(limits, n, Heard(n, m.src, m.asked, m.appendReply), m.src);
    }
  }

  lemma NewLeaderPoised(limits: Limits, n: Node)
    requires Uncompacted(n)
    ensures Poised(limits, BecomeLeader(n))
  {
    HeldTerm(n, 0);
  }

  lemma ProposalKeepsPoise(limits: Limits, n: Node, data: string)
    requires Uncompacted(n) && Poised(limits, n)
    ensures Poised(limits, Propose(n, data))
  {
    if n.office.role == Leader {
      forall q | q in n.peers ensures PeerOk(limits, Propose(n, data), q) {
        assert PeerOk(limits, n, q);
      }
    }
  }

  /** A node still leading after an append request has ignored it. */
  lemma AppendKeepsPoise(p: Params, c: Cluster, m: Message)
    requires LeadersRecorded(c) && AppendMessagesOk(c) && m in c.messages && m.AskAppend? && m.dst in c.nodes
    requires Poised(p.limits, c.nodes[m.dst])
    ensures Poised(p.limits, HandleAppendEntries(p.config, c.nodes[m.dst], m.append).0)
  {
    var n, req := c.nodes[m.dst], m.append;
    NoAppendToItsLeader(c, m);
    ReplicateKeepsOffice(Receptive(n, req.term), req);
  }

  lemma VotingKeepsPoise(p: Params, c: Cluster, step: Step)
    requires LogInv(c) && AllPoised(p, c) && Enabled(c, step) && (step.Timeout? || step.ReceiveVoteReply?)
    ensures AllPoised(p, Next(p, c, step))
  {
    var i := if step.Timeout? then step.n else step.m.dst;
    var n := c.nodes[i];
    assert NodeLogOk(c.history, n) && Poised(p.limits, n);
    GroundedWellFormed(c.history, n.log.entries);
    if step.Timeout? {
      NewLeaderPoised(p.limits, BecomeCandidate(n));
    } else {
      NewLeaderPoised(p.limits, n.(office := n.office.(votes := n.office.votes + {step.m.src})));
    }
  }

  lemma SendingKeepsPoise(p: Params, c: Cluster, step: Step)
    requires LogInv(c) && AllPoised(p, c) && Enabled(c, step)
    requires step.ClientPropose? || step.SendAppend? || step.Retry?
    ensures AllPoised(p, Next(p, c, step))
  {
    var n := c.nodes[step.n];
    assert NodeLogOk(c.history, n) && Poised(p.limits, n);
    GroundedWellFormed(c.history, n.log.entries);
    if step.ClientPropose? {
      ProposalKeepsPoise(p.limits, n, step.data);
    } else if step.SendAppend? {
      SendKeepsPoise(p.limits, n, step.peer);
    } else {
      RetryKeepsPoise(p.limits, n, step.peer);
    }
  }

  lemma AnswerKeepsPoise(p: Params, c: Cluster, m: Message)
    requires LogInv(c) && AnswersOk(c) && AllPoised(p, c) && m in c.messages && m.AppendAnswer? && m.dst in c.nodes
    requires Timely(c.nodes[m.dst], m)
    ensures AllPoised(p, AfterAppendReply(c, m))
  {
    var n := c.nodes[m.dst];
    assert NodeLogOk(c.history, n) && Poised(p.limits, n) && AnswerOk(c.history, m);
    HeardKeepsPoise(p.limits, c.history, n, m);
  }

  lemma OtherStepsKeepPoise(p: Params, c: Cluster, step: Step)
    requires AllPoised(p, c) && Enabled(c, step)
    requires || step.ReceiveVoteRequest? || step.SendReadHeartbeat? || step.Persisted? || step.Commit?
             || step.StepDown? || step.Crash?
    ensures AllPoised(p, Next(p, c, step))
  {
  }

  lemma StepKeepsPoise(p: Params, c: Cluster, step: Step)
    requires ElectionInv(p, c) && LogInv(c) && AnswersOk(c) && AllPoised(p, c)
    requires Enabled(c, step) && TimelyStep(c, step)
    ensures AllPoised(p, Next(p, c, step))
  {
    if step.Timeout? || step.ReceiveVoteReply? {
      VotingKeepsPoise(p, c, step);
    } else if step.ClientPropose? || step.SendAppend? || step.Retry? {
      SendingKeepsPoise(p, c, step);
    } else if step.ReceiveAppend? {
      StepWinsFirst(p, c, step);
      AppendKeepsPoise(p, c, step.m);
    } else if step.ReceiveAppendReply? {
      AnswerKeepsPoise(p, c, step.m);
    } else {
      OtherStepsKeepPoise(p, c, step);
    }
  }

  // ---------- catching up ----------

  ghost predicate TimelyRun(p: Params, run: Run) {
    ValidRun(p, run) && (forall k :: 0 <= k < |run.steps| ==> TimelyStep(run.states[k], run.steps[k]))
  }

  lemma {:induction false} RunKeepsPoise(p: Params, run: Run, k: nat)
    requires TimelyRun(p, run) && k < |run.states|
    ensures AnswersOk(run.states[k]) && AllPoised(p, run.states[k])
  {
    if k > 0 {
      RunKeepsPoise(p, run, k - 1);
      RunKeepsLogInv(p, run, k - 1);
      StepKeepsAnswers(p, run.states[k - 1], run.steps[k - 1]);
      StepKeepsPoise(p, run.states[k - 1], run.steps[k - 1]);
    }
  }

  /** A leader and a peer of a term no later; whatever is still in flight counts as failed. */
  ghost predicate Opposed(p: Params, c: Cluster, l: NodeId, f: NodeId) {
    && Leads(c, l) && f in c.nodes && f in c.nodes[l].peers && c.nodes[f].office.term <= c.nodes[l].office.term
    && p.config.IsVoter(l) && 0 < p.limits.window
  }

  function PairOf(c: Cluster, l: NodeId, f: NodeId): Pair
    requires l in c.nodes && f in c.nodes
  {
    Pair(RetryFromHead(c.nodes[l], f), c.nodes[f])
  }

  lemma OpposedFace(p: Params, c: Cluster, l: NodeId, f: NodeId)
    requires ElectionInv(p, c) && LogInv(c) && Opposed(p, c, l, f) && c.nodes[l].progress.Tracks(f)
    ensures Facing(p, PairOf(c, l, f))
  {
    var lead, follow := c.nodes[l], c.nodes[f];
    assert NodeLogOk(c.history, lead) && NodeLogOk(c.history, follow) && lead.id == l && follow.id == f;
    GroundedWellFormed(c.history, lead.log.entries);
    NodeAgainstLeaderLog(c.history, follow, lead.office.term);
    RetryFaces(p, lead, follow);
  }

  lemma RetryFaces(p: Params, lead: Node, follow: Node)
    requires Uncompacted(lead) && Uncompacted(follow) && Matching(follow.log.entries, lead.log.entries)
    requires lead.office.role == Leader && follow.office.term <= lead.office.term
    requires follow.id in lead.peers && lead.progress.Tracks(follow.id)
    requires p.config.IsVoter(lead.id) && 0 < p.limits.window
    ensures Facing(p, Pair(RetryFromHead(lead, follow.id), follow))
  {
  }

  /**
   * In any state of a run with timely answers, a leader brings any peer of its term or earlier up
   * to date in at most so many rounds: the peer's log agrees with the leader's to its end. The
   * credit gets there too, unless the first heartbeat already finds the logs in agreement.
   */
  lemma LeaderCatchesPeerUp(p: Params, run: Run, k: nat, l: NodeId, f: NodeId, n: nat)
    requires TimelyRun(p, run) && k < |run.states| && Opposed(p, run.states[k], l, f)
    requires 2 * |run.states[k].nodes[l].log.entries| + 2 <= n
    ensures var c, lead := run.states[k], run.states[k].nodes[l].log.entries;
            var x := PairOf(c, l, f);
            var y := Rounds(p, x, n);
            && Tracked(x) && x.Next() <= |lead| + 1
            && y.lead.log == c.nodes[l].log && Agree(y.follow.log.entries, lead, |lead|)
            && Tracked(y) && y.Next() == |lead| + 1
            && y.Match() == if x.Next() <= |lead| || Differs(x) then |lead| else x.Match()
  {
    var c := run.states[k];
    RunKeepsLogInv(p, run, k);
    RunKeepsPoise(p, run, k);
    assert Poised(p.limits, c.nodes[l]) && PeerOk(p.limits, c.nodes[l], f);
    OpposedFace(p, c, l, f);
    RetryKeepsPoise(p.limits, c.nodes[l], f);
    assert PeerOk(p.limits, RetryFromHead(c.nodes[l], f), f);
    CatchesUp(p, PairOf(c, l, f), n);
  }

  /** In any run at all, the rounds catch up exactly when they start within the leader's log. */
  lemma LeaderCatchesPeerUpIff(p: Params, run: Run, k: nat, l: NodeId, f: NodeId)
    requires ValidRun(p, run) && k < |run.states| && Opposed(p, run.states[k], l, f)
    requires var n := run.states[k].nodes[l]; n.progress.Tracks(f) && n.progress.matchIndex[f] <= |n.log.entries|
    ensures var x := PairOf(run.states[k], l, f);
            Tracked(x) && ((exists n: nat :: Caught(p, Rounds(p, x, n))) <==> x.Next() <= x.Last() + 1)
  {
    RunKeepsLogInv(p, run, k);
    OpposedFace(p, run.states[k], l, f);
    CatchesUpIff(p, PairOf(run.states[k], l, f));
  }

  /** The request begins where the batch began and covers it. */
  predicate Covers(log: seq<Entry>, b: Batch, req: Option<AppendRequest>) {
    && b.start + b.count <= |log| + 1 && req.Some? && req.value.prevIndex == b.start - 1
    && log[b.start - 1..b.start - 1 + b.count] <= req.value.entries
  }

  lemma NextRequestCovers(p: Params, x: Pair, b: Batch)
    requires Facing(p, x) && x.Next() == b.start
    requires 1 <= b.count <= p.limits.maxEntries && b.start + b.count <= x.Last() + 1
    ensures Covers(x.lead.log.entries, b, SendAppendEntries(p.limits, x.lead, x.follow.id).1)
  {
    Sent(p, x);
    var log, req := x.lead.log.entries, NextRequest(p.limits, x.lead, x.Next());
    assert req.entries[..b.count] == log[b.start - 1..b.start - 1 + b.count];
  }

  /** A network failure repeats the oldest unanswered batch. */
  lemma RetryResendsHead(p: Params, run: Run, k: nat, l: NodeId, f: NodeId)
    requires TimelyRun(p, run) && k < |run.states| && Opposed(p, run.states[k], l, f)
    requires run.states[k].nodes[l].progress.InflightTo(f) != []
    ensures var n := run.states[k].nodes[l];
            Covers(n.log.entries, n.progress.InflightTo(f)[0],
                   SendAppendEntries(p.limits, RetryFromHead(n, f), f).1)
  {
    var c := run.states[k];
    RunKeepsLogInv(p, run, k);
    RunKeepsPoise(p, run, k);
    assert Poised(p.limits, c.nodes[l]) && PeerOk(p.limits, c.nodes[l], f);
    OpposedFace(p, c, l, f);
    NextRequestCovers(p, PairOf(c, l, f), c.nodes[l].progress.InflightTo(f)[0]);
  }
}
