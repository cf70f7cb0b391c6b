/** At most one leader per term, over every run with crashes and restarts. */
module ElectionSafety {

  import opened RaftTypes
  import opened Quorums
  import opened RaftNodes
  import opened RaftCluster

  predicate OfficeOk(o: Office) {
    && o.savedTerm == o.term
    && (o.savedVote == None || o.savedVote == o.votedFor)
  }

  predicate NodesOk(c: Cluster) {
    forall i :: i in c.nodes ==> c.nodes[i].id == i && i !in c.nodes[i].peers && OfficeOk(c.nodes[i].office)
  }

  /** A ballot is bound by the saved vote for as long as its term is the saved one. */
  predicate BallotsOk(c: Cluster) {
    forall b :: b in c.history.ballots ==>
      && b.voter in c.nodes
      && b.term <= c.nodes[b.voter].office.savedTerm
      && (b.term == c.nodes[b.voter].office.savedTerm ==> c.nodes[b.voter].office.savedVote == Some(b.candidate))
  }

  /** One voter, one term, one candidate. */
  predicate BallotsUnique(ballots: set<Ballot>) {
    forall a, b :: a in ballots && b in ballots && a.voter == b.voter && a.term == b.term ==>
      a.candidate == b.candidate
  }

  predicate VotesOk(c: Cluster) {
    forall i, v :: i in c.nodes && c.nodes[i].office.role == Candidate && v in c.nodes[i].office.votes ==>
      Ballot(v, c.nodes[i].office.term, i) in c.history.ballots
  }

  predicate VoteMessageOk(h: History, m: Message) {
    && (m.VoteAnswer? && m.voteReply.granted ==> Ballot(m.src, m.voteReply.term, m.dst) in h.ballots)
    && (m.AskVote? ==> m.vote.candidate == m.src)
  }

  predicate VoteMessagesOk(c: Cluster) {
    forall m :: m in c.messages ==> VoteMessageOk(c.history, m)
  }

  predicate LeadersOk(p: Params, c: Cluster) {
    var h := c.history;
    && h.leaderOf.Keys == h.electors.Keys == h.termLog.Keys
    && (forall t :: t in h.leaderOf ==>
          1 <= t && h.leaderOf[t] in c.nodes && t <= c.nodes[h.leaderOf[t]].office.term)
    && (forall t :: t in h.electors ==> ElectionQuorum(p.config, h.electors[t]))
    && (forall t, v :: t in h.leaderOf && t in h.electors && v in h.electors[t] ==>
          Ballot(v, t, h.leaderOf[t]) in h.ballots)
  }

  /** Leaders are on record; a candidate has not yet led its term. */
  predicate RoleOk(h: History, i: NodeId, o: Office) {
    && (o.role == Leader ==> o.term in h.leaderOf && h.leaderOf[o.term] == i)
    && (o.role == Candidate ==> 1 <= o.term && !(o.term in h.leaderOf && h.leaderOf[o.term] == i))
  }

  predicate RolesOk(c: Cluster) {
    forall i :: i in c.nodes ==> RoleOk(c.history, i, c.nodes[i].office)
  }

  predicate ElectionInv(p: Params, c: Cluster) {
    && NodesOk(c) && BallotsOk(c) && BallotsUnique(c.history.ballots) && VotesOk(c) && VoteMessagesOk(c)
    && LeadersOk(p, c) && RolesOk(c)
  }

  // ---------- steps that neither vote nor elect ----------

  /** The node keeps its place in the term, or falls back to follower; saved votes stand. */
  predicate Settles(o: Office, o': Office) {
    && o'.term >= o.term && OfficeOk(o')
    && (o'.term == o.term && o.savedVote != None ==> o'.savedVote == o.savedVote)
    && (o'.role == Follower || (o'.role == o.role && o'.term == o.term && o'.votes == o.votes))
  }

  predicate SameElections(h: History, h': History) {
    && h'.ballots == h.ballots && h'.leaderOf == h.leaderOf && h'.electors == h.electors
    && h'.termLog.Keys == h.termLog.Keys
  }

  predicate Quiet(sent: set<Message>) {
    forall m :: m in sent ==> !m.AskVote? && (m.VoteAnswer? ==> !m.voteReply.granted)
  }

  lemma SettledKeepsVoters(c: Cluster, i: NodeId, n': Node, sent: set<Message>, h': History)
    requires NodesOk(c) && BallotsOk(c) && VotesOk(c) && i in c.nodes
    requires n'.id == i && n'.peers == c.nodes[i].peers && Settles(c.nodes[i].office, n'.office)
    requires h'.ballots == c.history.ballots
    ensures var c' := With(c, i, n', sent, h'); NodesOk(c') && BallotsOk(c') && VotesOk(c')
  {
  }

  lemma SettledKeepsLeaders(p: Params, c: Cluster, i: NodeId, n': Node, sent: set<Message>, h': History)
    requires LeadersOk(p, c) && RolesOk(c) && i in c.nodes
    requires Settles(c.nodes[i].office, n'.office) && SameElections(c.history, h')
    ensures var c' := With(c, i, n', sent, h'); LeadersOk(p, c') && RolesOk(c')
  {
    assert RoleOk(c.history, i, c.nodes[i].office);
  }

  lemma QuietKeepsVoteMessages(c: Cluster, i: NodeId, n': Node, sent: set<Message>, h': History)
    requires VoteMessagesOk(c) && Quiet(sent) && c.history.ballots <= h'.ballots
    ensures VoteMessagesOk(With(c, i, n', sent, h'))
  {
  }

  lemma SettledKeepsInv(p: Params, c: Cluster, c': Cluster, i: NodeId, n': Node, sent: set<Message>)
    requires ElectionInv(p, c) && i in c.nodes && c' == With(c, i, n', sent, c'.history)
    requires n'.id == i && n'.peers == c.nodes[i].peers && Settles(c.nodes[i].office, n'.office)
    requires Quiet(sent) && SameElections(c.history, c'.history)
    ensures ElectionInv(p, c')
  {
    SettledKeepsVoters(c, i, n', sent, c'.history);
    SettledKeepsLeaders(p, c, i, n', sent, c'.history);
    QuietKeepsVoteMessages(c, i, n', sent, c'.history);
  }

  lemma DemotionSettles(n: Node, term: nat, persist: bool)
    requires OfficeOk(n.office) && (if persist then term >= n.office.term else term == n.office.term)
    ensures Settles(n.office, BecomeFollowerImpl(n, term, persist).office)
  {
  }

  lemma AppendMissingOnlyLog(n: Node, entries: seq<Entry>)
    ensures AppendMissing(n, entries).0 == n.(log := AppendMissing(n, entries).0.log)
    decreases |entries|
  {
  }

  /** Everything but the log and the commit index survives the replication half. */
  lemma ReplicateKeepsOffice(n: Node, req: AppendRequest)
    ensures var n' := Replicate(n, req).0;
            n' == n.(log := n'.log, commitIndex := n'.commitIndex)
  {
    AppendMissingOnlyLog(CutConflict(n, req.entries), req.entries);
  }

  lemma AppendSettles(config: ClusterConfig, n: Node, req: AppendRequest)
    requires OfficeOk(n.office)
    ensures var n' := HandleAppendEntries(config, n, req).0;
            Settles(n.office, n'.office) && n'.id == n.id && n'.peers == n.peers
  {
    if req.term > n.office.term {
      DemotionSettles(n, req.term, true);
      ReplicateKeepsOffice(BecomeFollower(n, req.term), req);
    } else {
      ReplicateKeepsOffice(n, req);
    }
  }

  lemma AppendKeepsInv(p: Params, c: Cluster, m: Message)
    requires ElectionInv(p, c) && m.AskAppend? && m.dst in c.nodes
    ensures ElectionInv(p, AfterAppend(p, c, m))
  {
    var (n', reply) := HandleAppendEntries(p.config, c.nodes[m.dst], m.append);
    AppendSettles(p.config, c.nodes[m.dst], m.append);
    SettledKeepsInv(p, c, AfterAppend(p, c, m), m.dst, n', {AppendAnswer(m.dst, m.src, reply, m.append)});
  }

  /** The node a step changes, for steps that neither vote nor elect. */
  lemma LocalStepSettles(p: Params, c: Cluster, step: Step)
    requires || step.ClientPropose? || step.SendAppend? || step.SendReadHeartbeat? || step.Commit?
             || step.Retry? || step.Persisted? || step.StepDown? || step.Crash?
    requires Enabled(c, step) && OfficeOk(c.nodes[step.n].office)
    ensures var n, n' := c.nodes[step.n], Next(p, c, step).nodes[step.n];
            Settles(n.office, n'.office) && n'.id == n.id && n'.peers == n.peers
  {
  }

  lemma LeaderStepKeepsInv(p: Params, c: Cluster, step: Step, sent: set<Message>)
    requires ElectionInv(p, c) && Enabled(c, step) && Quiet(sent)
    requires step.ClientPropose? || step.SendAppend? || step.SendReadHeartbeat? || step.Commit?
    requires var c' := Next(p, c, step); c' == With(c, step.n, c'.nodes[step.n], sent, c'.history)
    ensures ElectionInv(p, Next(p, c, step))
  {
    LocalStepSettles(p, c, step);
    LeaderStepSameElections(p, c, step);
    SettledKeepsInv(p, c, Next(p, c, step), step.n, Next(p, c, step).nodes[step.n], sent);
  }

  lemma LeaderStepSameElections(p: Params, c: Cluster, step: Step)
    requires LeadersOk(p, c) && RolesOk(c) && Enabled(c, step)
    requires step.ClientPropose? || step.SendAppend? || step.SendReadHeartbeat? || step.Commit?
    ensures SameElections(c.history, Next(p, c, step).history)
  {
    assert RoleOk(c.history, step.n, c.nodes[step.n].office);
  }

  lemma LocalStepKeepsInv(p: Params, c: Cluster, step: Step)
    requires ElectionInv(p, c) && Enabled(c, step)
    requires step.Retry? || step.Persisted? || step.StepDown? || step.Crash?
    ensures ElectionInv(p, Next(p, c, step))
  {
    LocalStepSettles(p, c, step);
    var c' := Next(p, c, step);
    SettledKeepsInv(p, c, c', step.n, c'.nodes[step.n], {});
  }

  lemma AppendReplySettles(c: Cluster, m: Message)
    requires m.AppendAnswer? && m.dst in c.nodes && OfficeOk(c.nodes[m.dst].office)
    ensures var n, n' := c.nodes[m.dst], AfterAppendReply(c, m).nodes[m.dst];
            Settles(n.office, n'.office) && n'.id == n.id && n'.peers == n.peers
  {
  }

  lemma AppendReplyKeepsInv(p: Params, c: Cluster, m: Message)
    requires ElectionInv(p, c) && m.AppendAnswer? && m.dst in c.nodes
    ensures ElectionInv(p, AfterAppendReply(c, m))
  {
    AppendReplySettles(c, m);
    var c' := AfterAppendReply(c, m);
    SettledKeepsInv(p, c, c', m.dst, c'.nodes[m.dst], {});
  }

  lemma SendAppendKeepsInv(p: Params, c: Cluster, n: NodeId, peer: NodeId)
    requires ElectionInv(p, c) && Leads(c, n)
    ensures ElectionInv(p, AfterSend(p, c, n, peer))
  {
    var req := SendAppendEntries(p.limits, c.nodes[n], peer).1;
    LeaderStepKeepsInv(p, c, SendAppend(n, peer), if req.Some? then {AskAppend(n, peer, req.value)} else {});
  }

  lemma ReadHeartbeatKeepsInv(p: Params, c: Cluster, n: NodeId, peer: NodeId)
    requires ElectionInv(p, c) && Enabled(c, SendReadHeartbeat(n, peer))
    ensures ElectionInv(p, AfterReadHeartbeat(p, c, n, peer))
  {
    var req := NextRequest(p.limits, c.nodes[n], c.nodes[n].progress.nextIndex[peer]).(entries := []);
    LeaderStepKeepsInv(p, c, SendReadHeartbeat(n, peer), {AskAppend(n, peer, req)});
  }

  // ---------- votes and elections ----------

  /** The voter of `b` moves to its term with its vote saved; it stays, falls back, or stands itself. */
  predicate Grants(o: Office, o': Office, b: Ballot) {
    && OfficeOk(o') && o'.term == b.term >= o.term && o'.savedVote == Some(b.candidate)
    && (b.term == o.term && o.savedVote != None ==> o.savedVote == Some(b.candidate))
    && (|| o'.role == Follower
        || (o'.role == o.role && o'.term == o.term && o'.votes == o.votes)
        || (o'.role == Candidate && b.candidate == b.voter && o'.votes == {b.voter} && o'.term > o.term))
  }

  lemma GrantKeepsVoters(c: Cluster, n': Node, b: Ballot, sent: set<Message>, h': History)
    requires NodesOk(c) && BallotsOk(c) && BallotsUnique(c.history.ballots) && VotesOk(c) && b.voter in c.nodes
    requires n'.id == b.voter && n'.peers == c.nodes[b.voter].peers && Grants(c.nodes[b.voter].office, n'.office, b)
    requires h'.ballots == c.history.ballots + {b}
    ensures var c' := With(c, b.voter, n', sent, h');
            NodesOk(c') && BallotsOk(c') && BallotsUnique(h'.ballots) && VotesOk(c')
  {
  }

  lemma GrantKeepsLeaders(p: Params, c: Cluster, n': Node, b: Ballot, sent: set<Message>, h': History)
    requires LeadersOk(p, c) && RolesOk(c) && b.voter in c.nodes && Grants(c.nodes[b.voter].office, n'.office, b)
    requires h' == c.history.(ballots := c.history.ballots + {b}, candidacies := h'.candidacies)
    ensures var c' := With(c, b.voter, n', sent, h'); LeadersOk(p, c') && RolesOk(c')
  {
    assert RoleOk(c.history, b.voter, c.nodes[b.voter].office);
    assert forall i :: i in c.nodes ==> RoleOk(c.history, i, c.nodes[i].office);
  }

  /** The saved vote binds: a fresh ballot cannot contradict an older one of the same term. */
  lemma GrantKeepsInv(p: Params, c: Cluster, n': Node, b: Ballot, sent: set<Message>, h': History)
    requires ElectionInv(p, c) && b.voter in c.nodes
    requires n'.id == b.voter && n'.peers == c.nodes[b.voter].peers && Grants(c.nodes[b.voter].office, n'.office, b)
    requires h' == c.history.(ballots := c.history.ballots + {b}, candidacies := h'.candidacies)
    requires forall m :: m in sent ==> VoteMessageOk(h', m)
    ensures ElectionInv(p, With(c, b.voter, n', sent, h'))
  {
    GrantKeepsVoters(c, n', b, sent, h');
    GrantKeepsLeaders(p, c, n', b, sent, h');
    assert VoteMessagesOk(With(c, b.voter, n', sent, h'));
  }

  lemma VoteRequestKeepsInv(p: Params, c: Cluster, m: Message, heard: bool, saved: bool)
    requires ElectionInv(p, c) && m in c.messages && m.AskVote? && m.dst in c.nodes
    ensures ElectionInv(p, AfterVoteRequest(p, c, m, heard, saved))
  {
    var n := c.nodes[m.dst];
    var (n', reply) := HandleRequestVote(p.config, n, m.vote, heard, saved);
    var sent := {VoteAnswer(m.dst, m.src, reply, m.vote.term)};
    var h' := AfterVoteRequest(p, c, m, heard, saved).history;
    assert VoteMessageOk(c.history, m);
    if reply.granted {
      GrantKeepsInv(p, c, n', Ballot(m.dst, reply.term, m.vote.candidate), sent, h');
    } else {
      SettledKeepsInv(p, c, AfterVoteRequest(p, c, m, heard, saved), m.dst, n', sent);
    }
  }

  /** A second winner in a term would share an elector with the first. */
  lemma WinnerIsFirst(p: Params, c: Cluster, o: Office, i: NodeId)
    requires ElectionInv(p, c) && ElectionQuorum(p.config, o.votes)
    requires forall v :: v in o.votes ==> Ballot(v, o.term, i) in c.history.ballots
    ensures o.term in c.history.leaderOf ==> c.history.leaderOf[o.term] == i
  {
    var h := c.history;
    if o.term in h.leaderOf {
      ElectionQuorumsMeet(p.config, o.votes, h.electors[o.term]);
      var v :| v in o.votes && v in h.electors[o.term];
      assert Ballot(v, o.term, i) in h.ballots && Ballot(v, o.term, h.leaderOf[o.term]) in h.ballots;
    }
  }

  /** A candidate of this cluster that counts only votes on record. */
  predicate Counting(c: Cluster, cand: Node) {
    && cand.id in c.nodes && c.nodes[cand.id].office.role == Candidate
    && cand == c.nodes[cand.id].(office := c.nodes[cand.id].office.(votes := cand.office.votes))
    && (forall v :: v in cand.office.votes ==> Ballot(v, cand.office.term, cand.id) in c.history.ballots)
  }

  /** Such a candidate, with a quorum of ballots. */
  predicate Winning(p: Params, c: Cluster, cand: Node) {
    Counting(c, cand) && ElectionQuorum(p.config, cand.office.votes)
  }

  function Inaugurate(c: Cluster, cand: Node): Cluster {
    With(c, cand.id, BecomeLeader(cand), {}, Win(c.history, cand))
  }

  lemma WinKeepsVoters(p: Params, c: Cluster, cand: Node)
    requires NodesOk(c) && BallotsOk(c) && VotesOk(c) && VoteMessagesOk(c) && Winning(p, c, cand)
    ensures var c' := Inaugurate(c, cand); NodesOk(c') && BallotsOk(c') && VotesOk(c') && VoteMessagesOk(c')
  {
    var c' := Inaugurate(c, cand);
    assert c'.nodes[cand.id].office == cand.office.(role := Leader);
    assert forall m :: m in c'.messages ==> VoteMessageOk(c.history, m);
  }

  lemma WinKeepsLeaders(p: Params, c: Cluster, cand: Node)
    requires NodesOk(c) && LeadersOk(p, c) && RolesOk(c) && Winning(p, c, cand)
    requires cand.office.term !in c.history.leaderOf
    ensures var c' := Inaugurate(c, cand); LeadersOk(p, c') && RolesOk(c')
  {
    var c' := Inaugurate(c, cand);
    assert RoleOk(c.history, cand.id, c.nodes[cand.id].office);
    assert c'.nodes[cand.id].office == cand.office.(role := Leader);
    assert forall i :: i in c.nodes ==> RoleOk(c.history, i, c.nodes[i].office);
  }

  /** From a candidate holding a quorum of ballots to a recorded leader. */
  lemma WinKeepsInv(p: Params, c: Cluster, cand: Node)
    requires ElectionInv(p, c) && Winning(p, c, cand)
    ensures cand.office.term !in c.history.leaderOf
    ensures ElectionInv(p, Inaugurate(c, cand))
  {
    WinnerIsFirst(p, c, cand.office, cand.id);
    assert RoleOk(c.history, cand.id, c.nodes[cand.id].office);
    WinKeepsVoters(p, c, cand);
    WinKeepsLeaders(p, c, cand);
  }

  lemma CountKeepsVoters(c: Cluster, cand: Node)
    requires NodesOk(c) && BallotsOk(c) && VotesOk(c) && VoteMessagesOk(c) && Counting(c, cand)
    ensures var c' := With(c, cand.id, cand, {}, c.history);
            NodesOk(c') && BallotsOk(c') && VotesOk(c') && VoteMessagesOk(c')
  {
    assert c.messages + {} == c.messages;
  }

  lemma CountKeepsLeaders(p: Params, c: Cluster, cand: Node)
    requires LeadersOk(p, c) && RolesOk(c) && Counting(c, cand)
    ensures var c' := With(c, cand.id, cand, {}, c.history); LeadersOk(p, c') && RolesOk(c')
  {
    assert RoleOk(c.history, cand.id, c.nodes[cand.id].office);
  }

  /** Counting one more vote that is on record. */
  lemma CountKeepsInv(p: Params, c: Cluster, cand: Node)
    requires ElectionInv(p, c) && Counting(c, cand)
    ensures ElectionInv(p, With(c, cand.id, cand, {}, c.history))
  {
    CountKeepsVoters(c, cand);
    CountKeepsLeaders(p, c, cand);
  }

  /** What a vote reply makes of its receiver: nothing, a follower, one more vote, or a leader. */
  lemma VoteReplyOutcome(config: ClusterConfig, n: Node, from: NodeId, reply: VoteReply, askedTerm: nat)
    requires OfficeOk(n.office)
    ensures var n' := HandleRequestVoteResponse(config, n, from, reply, askedTerm);
            var cand := n.(office := n.office.(votes := n.office.votes + {from}));
            || (Settles(n.office, n'.office) && n'.id == n.id && n'.peers == n.peers && n'.office.role != Leader)
            || n' == n
            || (n.office.role == Candidate && reply.granted && reply.term == n.office.term && n' == cand)
            || (n.office.role == Candidate && reply.granted && reply.term == n.office.term && n' == BecomeLeader(cand)
                && ElectionQuorum(config, cand.office.votes))
  {
  }

  lemma VoteReplyKeepsInv(p: Params, c: Cluster, m: Message)
    requires ElectionInv(p, c) && m in c.messages && m.VoteAnswer? && m.dst in c.nodes
    ensures ElectionInv(p, AfterVoteReply(p, c, m))
  {
    var n := c.nodes[m.dst];
    var n' := HandleRequestVoteResponse(p.config, n, m.src, m.voteReply, m.askedTerm);
    assert VoteMessageOk(c.history, m);
    VoteReplyOutcome(p.config, n, m.src, m.voteReply, m.askedTerm);
    var cand := n.(office := n.office.(votes := n.office.votes + {m.src}));
    if n.office.role == Candidate && n'.office.role == Leader {
      WinKeepsInv(p, c, cand);
    } else if n.office.role == Candidate && n' == cand {
      CountKeepsInv(p, c, cand);
    } else {
      SettledKeepsInv(p, c, AfterVoteReply(p, c, m), m.dst, n', {});
    }
  }

  lemma StandKeepsInv(p: Params, c: Cluster, i: NodeId, sent: set<Message>)
    requires ElectionInv(p, c) && i in c.nodes
    requires var cand := BecomeCandidate(c.nodes[i]);
             forall m :: m in sent ==> exists q :: m == AskVote(i, q, VoteRequestOf(cand))
    ensures var cand := BecomeCandidate(c.nodes[i]); ElectionInv(p, With(c, i, cand, sent, Stand(c.history, cand)))
  {
    var cand := BecomeCandidate(c.nodes[i]);
    GrantKeepsInv(p, c, cand, Ballot(i, cand.office.term, i), sent, Stand(c.history, cand));
  }

  /** Winning on one's own vote is standing and then winning. */
  lemma TimeoutWinSplits(p: Params, c: Cluster, i: NodeId)
    requires i in c.nodes && c.nodes[i].id == i && ElectionQuorum(p.config, BecomeCandidate(c.nodes[i]).office.votes)
    ensures var cand := BecomeCandidate(c.nodes[i]);
            AfterTimeout(p, c, i) == Inaugurate(With(c, i, cand, {}, Stand(c.history, cand)), cand)
  {
    var cand := BecomeCandidate(c.nodes[i]);
    assert c.nodes[i := cand][i := BecomeLeader(cand)] == c.nodes[i := BecomeLeader(cand)];
  }

  lemma StandAndWinKeepsInv(p: Params, c: Cluster, i: NodeId)
    requires ElectionInv(p, c) && i in c.nodes && ElectionQuorum(p.config, BecomeCandidate(c.nodes[i]).office.votes)
    ensures var cand := BecomeCandidate(c.nodes[i]);
            ElectionInv(p, Inaugurate(With(c, i, cand, {}, Stand(c.history, cand)), cand))
    ensures c.nodes[i].office.term + 1 !in c.history.leaderOf
  {
    var cand := BecomeCandidate(c.nodes[i]);
    StandKeepsInv(p, c, i, {});
    WinKeepsInv(p, With(c, i, cand, {}, Stand(c.history, cand)), cand);
  }

  lemma TimeoutKeepsInv(p: Params, c: Cluster, i: NodeId)
    requires ElectionInv(p, c) && i in c.nodes
    ensures ElectionInv(p, AfterTimeout(p, c, i))
  {
    var cand := BecomeCandidate(c.nodes[i]);
    if ElectionQuorum(p.config, cand.office.votes) {
      TimeoutWinSplits(p, c, i);
      StandAndWinKeepsInv(p, c, i);
    } else {
      StandKeepsInv(p, c, i, set q | q in cand.peers :: AskVote(cand.id, q, VoteRequestOf(cand)));
    }
  }

  // ---------- the theorem ----------

  lemma StepKeepsElectionInv(p: Params, c: Cluster, step: Step)
    requires ElectionInv(p, c) && Enabled(c, step)
    ensures ElectionInv(p, Next(p, c, step))
  {
    match step
    case Timeout(n) => TimeoutKeepsInv(p, c, n);
    case ReceiveVoteRequest(m, heard, saved) => VoteRequestKeepsInv(p, c, m, heard, saved);
    case ReceiveVoteReply(m) => VoteReplyKeepsInv(p, c, m);
    case ReceiveAppend(m) => AppendKeepsInv(p, c, m);
    case ReceiveAppendReply(m) => AppendReplyKeepsInv(p, c, m);
    case ClientPropose(_, _) => LeaderStepKeepsInv(p, c, step, {});
    case SendAppend(n, peer) => SendAppendKeepsInv(p, c, n, peer);
    case SendReadHeartbeat(n, peer) => ReadHeartbeatKeepsInv(p, c, n, peer);
    case Commit(_) => LeaderStepKeepsInv(p, c, step, {});
    case _ => LocalStepKeepsInv(p, c, step);
  }

  lemma {:induction false} RunKeepsElectionInv(p: Params, run: Run, k: nat)
    requires ValidRun(p, run) && k < |run.states|
    ensures ElectionInv(p, run.states[k])
  {
    if k > 0 {
      RunKeepsElectionInv(p, run, k - 1);
      StepKeepsElectionInv(p, run.states[k - 1], run.steps[k - 1]);
    }
  }

  lemma TimeoutWinsFirst(p: Params, c: Cluster, i: NodeId)
    requires ElectionInv(p, c) && i in c.nodes && ElectionQuorum(p.config, BecomeCandidate(c.nodes[i]).office.votes)
    ensures c.nodes[i].office.term + 1 !in c.history.leaderOf
  {
    StandAndWinKeepsInv(p, c, i);
  }

  lemma ReplyWinsFirst(p: Params, c: Cluster, m: Message)
    requires ElectionInv(p, c) && m in c.messages && m.VoteAnswer? && m.dst in c.nodes
    requires c.nodes[m.dst].office.role == Candidate
    requires HandleRequestVoteResponse(p.config, c.nodes[m.dst], m.src, m.voteReply, m.askedTerm).office.role == Leader
    ensures c.nodes[m.dst].office.term !in c.history.leaderOf
  {
    var n := c.nodes[m.dst];
    assert VoteMessageOk(c.history, m);
    WinKeepsInv(p, c, n.(office := n.office.(votes := n.office.votes + {m.src})));
  }

  predicate WinsByTimeout(p: Params, c: Cluster, step: Step) {
    && step.Timeout? && Enabled(c, step)
    && ElectionQuorum(p.config, BecomeCandidate(c.nodes[step.n]).office.votes)
  }

  predicate WinsByReply(p: Params, c: Cluster, step: Step) {
    && step.ReceiveVoteReply? && Enabled(c, step)
    && var n := c.nodes[step.m.dst];
       && n.office.role == Candidate
       && HandleRequestVoteResponse(p.config, n, step.m.src, step.m.voteReply, step.m.askedTerm).office.role == Leader
  }

  lemma WinnersChangeOnlyByWinning(p: Params, c: Cluster, step: Step, t: nat)
    requires Enabled(c, step) && t in c.history.leaderOf
    requires WinsByTimeout(p, c, step) ==> t != c.nodes[step.n].office.term + 1
    requires WinsByReply(p, c, step) ==> t != c.nodes[step.m.dst].office.term
    ensures var h := Next(p, c, step).history; t in h.leaderOf && h.leaderOf[t] == c.history.leaderOf[t]
  {
  }

  /** Who won a term is settled once. */
  lemma StepKeepsWinners(p: Params, c: Cluster, step: Step, t: nat)
    requires ElectionInv(p, c) && Enabled(c, step) && t in c.history.leaderOf
    ensures var h := Next(p, c, step).history; t in h.leaderOf && h.leaderOf[t] == c.history.leaderOf[t]
  {
    if WinsByTimeout(p, c, step) {
      TimeoutWinsFirst(p, c, step.n);
    } else if WinsByReply(p, c, step) {
      ReplyWinsFirst(p, c, step.m);
    }
    WinnersChangeOnlyByWinning(p, c, step, t);
  }

  lemma {:induction false} RunKeepsWinners(p: Params, run: Run, j: nat, k: nat, t: nat)
    requires ValidRun(p, run) && j <= k < |run.states| && t in run.states[j].history.leaderOf
    ensures var h, h' := run.states[j].history, run.states[k].history;
            t in h'.leaderOf && h'.leaderOf[t] == h.leaderOf[t]
    decreases k - j
  {
    if j < k {
      RunKeepsWinners(p, run, j, k - 1, t);
      RunKeepsElectionInv(p, run, k - 1);
      StepKeepsWinners(p, run.states[k - 1], run.steps[k - 1], t);
    }
  }

  /** Terms never fall, also across restarts. */
  lemma StepRaisesTerms(p: Params, c: Cluster, step: Step, i: NodeId)
    requires NodesOk(c) && Enabled(c, step) && i in c.nodes
    ensures var c' := Next(p, c, step); i in c'.nodes && c.nodes[i].office.term <= c'.nodes[i].office.term
  {
    assert OfficeOk(c.nodes[i].office);
    if step.ReceiveAppend? && step.m.dst == i {
      AppendSettles(p.config, c.nodes[i], step.m.append);
    }
  }

  lemma {:induction false} RunRaisesTerms(p: Params, run: Run, j: nat, k: nat, i: NodeId)
    requires ValidRun(p, run) && j <= k < |run.states| && i in run.states[j].nodes
    ensures i in run.states[k].nodes && run.states[j].nodes[i].office.term <= run.states[k].nodes[i].office.term
    decreases k - j
  {
    if j < k {
      RunRaisesTerms(p, run, j, k - 1, i);
      RunKeepsElectionInv(p, run, k - 1);
      StepRaisesTerms(p, run.states[k - 1], run.steps[k - 1], i);
    }
  }

  /**
   * Election Safety (section 5.2 of the Raft extended paper): whoever leads a term at any
   * point of a run is the only node that leads that term anywhere in the run.
   */
  lemma ElectionSafety(p: Params, run: Run, j: nat, k: nat, a: NodeId, b: NodeId)
    requires ValidRun(p, run) && j < |run.states| && k < |run.states|
    requires Leads(run.states[j], a) && Leads(run.states[k], b)
    requires run.states[j].nodes[a].office.term == run.states[k].nodes[b].office.term
    ensures a == b
  {
    RunKeepsElectionInv(p, run, j);
    RunKeepsElectionInv(p, run, k);
    var t := run.states[j].nodes[a].office.term;
    assert RoleOk(run.states[j].history, a, run.states[j].nodes[a].office);
    assert RoleOk(run.states[k].history, b, run.states[k].nodes[b].office);
    if j <= k {
      RunKeepsWinners(p, run, j, k, t);
    } else {
      RunKeepsWinners(p, run, k, j, t);
    }
  }
}
