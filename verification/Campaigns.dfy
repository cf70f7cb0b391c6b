/**
 * When elections are held and when they are won: voters that hear from their leader keep any
 * later term without one, and a candidate that reaches a quorum of others leads.
 */
module Campaigns {

  import opened RaftTypes
  import opened Quorums
  import opened RaftNodes
  import opened RaftCluster
  import opened ElectionSafety

  // ---------- voters that hear from their leader ----------

  predicate Guards(loyal: set<NodeId>, quorum: set<NodeId>, candidate: NodeId) {
    exists v :: v in quorum && v in loyal && v != candidate
  }

  /** Whoever the candidate is, every quorum has one of these besides it. */
  ghost predicate MeetsEveryQuorum(config: ClusterConfig, loyal: set<NodeId>) {
    forall q: set<NodeId>, candidate: NodeId :: ElectionQuorum(config, q) ==> Guards(loyal, q, candidate)
  }

  predicate HeardIfAsked(step: Step, loyal: set<NodeId>) {
    step.ReceiveVoteRequest? && step.m.dst in loyal ==> step.heard
  }

  /** From step `j` on, each of them is in touch with its leader whenever it is asked for its vote. */
  ghost predicate InTouch(run: Run, j: nat, loyal: set<NodeId>) {
    forall k :: j <= k < |run.steps| ==> HeardIfAsked(run.steps[k], loyal)
  }

  /** None of them has voted for another in a term after `t`. */
  predicate Unmoved(h: History, loyal: set<NodeId>, t: nat) {
    forall b :: b in h.ballots && b.voter in loyal && b.voter != b.candidate ==> b.term <= t
  }

  lemma StepKeepsUnmoved(p: Params, c: Cluster, step: Step, loyal: set<NodeId>, t: nat)
    requires Enabled(c, step) && Unmoved(c.history, loyal, t)
    requires HeardIfAsked(step, loyal)
    requires forall i :: i in c.nodes ==> c.nodes[i].id == i
    ensures Unmoved(Next(p, c, step).history, loyal, t)
  {
  }

  lemma {:induction false} RunKeepsUnmoved(p: Params, run: Run, j: nat, k: nat, loyal: set<NodeId>, t: nat)
    requires ValidRun(p, run) && j <= k < |run.states| && InTouch(run, j, loyal)
    requires Unmoved(run.states[j].history, loyal, t)
    ensures Unmoved(run.states[k].history, loyal, t)
    decreases k - j
  {
    if j < k {
      RunKeepsUnmoved(p, run, j, k - 1, loyal, t);
      RunKeepsElectionInv(p, run, k - 1);
      StepKeepsUnmoved(p, run.states[k - 1], run.steps[k - 1], loyal, t);
    }
  }

  lemma NoLeaderIfUnmoved(p: Params, c: Cluster, loyal: set<NodeId>, t: nat)
    requires LeadersOk(p, c) && Unmoved(c.history, loyal, t) && MeetsEveryQuorum(p.config, loyal)
    ensures forall u :: u in c.history.leaderOf ==> u <= t
  {
    var h := c.history;
    forall u | u in h.leaderOf ensures u <= t {
      assert Guards(loyal, h.electors[u], h.leaderOf[u]);
      var v :| v in h.electors[u] && v in loyal && v != h.leaderOf[u];
      assert Ballot(v, u, h.leaderOf[u]) in h.ballots;
    }
  }

  /** While such voters are in touch with their leader, no term after the current ones gets a leader. */
  lemma NoLeaderAfter(p: Params, run: Run, j: nat, k: nat, loyal: set<NodeId>, t: nat)
    requires ValidRun(p, run) && j <= k < |run.states|
    requires MeetsEveryQuorum(p.config, loyal) && InTouch(run, j, loyal)
    requires forall i :: i in run.states[j].nodes ==> run.states[j].nodes[i].office.term <= t
    ensures forall u :: u in run.states[k].history.leaderOf ==> u <= t
    ensures forall i :: Leads(run.states[k], i) ==> run.states[k].nodes[i].office.term <= t
  {
    RunKeepsElectionInv(p, run, j);
    RunKeepsUnmoved(p, run, j, k, loyal, t);
    RunKeepsElectionInv(p, run, k);
    NoLeaderIfUnmoved(p, run.states[k], loyal, t);
    LeadersHaveTheirTerm(run.states[k], t);
  }

  lemma LeadersHaveTheirTerm(c: Cluster, t: nat)
    requires RolesOk(c) && forall u :: u in c.history.leaderOf ==> u <= t
    ensures forall i :: Leads(c, i) ==> c.nodes[i].office.term <= t
  {
    assert forall i :: i in c.nodes ==> RoleOk(c.history, i, c.nodes[i].office);
  }

  // ---------- who can lead ----------

  /** Nobody votes for a node without a vote, except such a node for itself. */
  predicate VotesForVoters(p: Params, c: Cluster) {
    forall b :: b in c.history.ballots && b.voter != b.candidate ==> p.config.IsVoter(b.candidate)
  }

  lemma StepKeepsVotesForVoters(p: Params, c: Cluster, step: Step)
    requires VotesForVoters(p, c) && Enabled(c, step) && forall i :: i in c.nodes ==> c.nodes[i].id == i
    ensures VotesForVoters(p, Next(p, c, step))
  {
  }

  lemma {:induction false} RunKeepsVotesForVoters(p: Params, run: Run, k: nat)
    requires ValidRun(p, run) && k < |run.states|
    ensures VotesForVoters(p, run.states[k])
  {
    if k > 0 {
      RunKeepsVotesForVoters(p, run, k - 1);
      RunKeepsElectionInv(p, run, k - 1);
      StepKeepsVotesForVoters(p, run.states[k - 1], run.steps[k - 1]);
    }
  }

  /** Whoever leads a term is a voter: learners and outsiders never do. */
  lemma LeadersAreVoters(p: Params, run: Run, k: nat, t: nat)
    requires ValidRun(p, run) && k < |run.states| && t in run.states[k].history.leaderOf
    ensures p.config.IsVoter(run.states[k].history.leaderOf[t])
  {
    RunKeepsElectionInv(p, run, k);
    RunKeepsVotesForVoters(p, run, k);
    ElectedIsVoter(p, run.states[k], t);
  }

  lemma ElectedIsVoter(p: Params, c: Cluster, t: nat)
    requires LeadersOk(p, c) && VotesForVoters(p, c) && t in c.history.leaderOf
    ensures p.config.IsVoter(c.history.leaderOf[t])
  {
    var h := c.history;
    var counted := Among(h.electors[t], p.config.nodes);
    assert ElectionQuorum(p.config, h.electors[t]);
    assert counted != {};
    var v :| v in counted;
    assert Ballot(v, t, h.leaderOf[t]) in h.ballots;
  }

  // ---------- a candidate that reaches a quorum ----------

  function Final(run: Run): Cluster
    requires |run.states| == |run.steps| + 1
  {
    run.states[|run.steps|]
  }

  /** One more enabled step makes a longer run. */
  lemma Continued(p: Params, run: Run, step: Step) returns (run': Run)
    requires ValidRun(p, run) && Enabled(Final(run), step)
    ensures ValidRun(p, run') && Final(run') == Next(p, Final(run), step) && run'.steps == run.steps + [step]
  {
    run' := Run(run.states + [Next(p, Final(run), step)], run.steps + [step]);
    forall j | 0 <= j < |run'.steps|
      ensures Enabled(run'.states[j], run'.steps[j]) && run'.states[j + 1] == Next(p, run'.states[j], run'.steps[j])
    {
      assert run'.states[j] == run.states[j];
    }
  }

  /** The node is campaigning in the term of `req`, or has already won it. */
  predicate Running(p: Params, c: Cluster, req: VoteRequest) {
    && req.candidate in c.nodes && p.config.IsVoter(req.candidate)
    && c.nodes[req.candidate].office.term == req.term && c.nodes[req.candidate].office.role != Follower
  }

  /** A voter of an earlier term, no further in its log than the candidate, with the request on its way. */
  predicate Winnable(c: Cluster, req: VoteRequest, v: NodeId) {
    && v in c.nodes && v != req.candidate && c.nodes[v].office.term < req.term && UpToDate(req, c.nodes[v].log)
    && AskVote(req.candidate, v, req) in c.messages
  }

  lemma GrantsUnheard(config: ClusterConfig, n: Node, req: VoteRequest)
    requires config.IsVoter(req.candidate) && n.office.term < req.term && UpToDate(req, n.log)
    ensures HandleRequestVote(config, n, req, false, true).1 == VoteReply(req.term, true)
  {
  }

  /** The vote is asked, given and counted; nobody else is touched. */
  lemma OneVote(p: Params, run: Run, req: VoteRequest, v: NodeId) returns (run': Run)
    requires ValidRun(p, run) && Running(p, Final(run), req) && Winnable(Final(run), req, v)
    ensures ValidRun(p, run') && Running(p, Final(run'), req)
    ensures var steps := [ReceiveVoteRequest(AskVote(req.candidate, v, req), false, true),
                          ReceiveVoteReply(VoteAnswer(v, req.candidate, VoteReply(req.term, true), req.term))];
            run'.steps == run.steps + steps
    ensures forall w :: w != v && Winnable(Final(run), req, w) ==> Winnable(Final(run'), req, w)
    ensures var o, o' := Final(run).nodes[req.candidate].office, Final(run').nodes[req.candidate].office;
            if o.role == Leader then o' == o
            else o'.votes == o.votes + {v} && (o'.role == Leader <==> ElectionQuorum(p.config, o.votes + {v}))
  {
    var i, m := req.candidate, AskVote(req.candidate, v, req);
    var c := Final(run);
    GrantsUnheard(p.config, c.nodes[v], req);
    var answer := VoteAnswer(v, i, VoteReply(req.term, true), req.term);
    var between := Continued(p, run, ReceiveVoteRequest(m, false, true));
    var c1 := Final(between);
    assert c1.nodes == c.nodes[v := c1.nodes[v]] && answer in c1.messages && c.messages <= c1.messages;
    run' := Continued(p, between, ReceiveVoteReply(answer));
    var c2 := Final(run');
    assert c2.nodes == c1.nodes[i := c2.nodes[i]] && c2.messages == c1.messages;
    assert run'.steps == run.steps + [ReceiveVoteRequest(m, false, true), ReceiveVoteReply(answer)];
  }

  predicate Distinct(order: seq<NodeId>) {
    forall a, b :: 0 <= a < b < |order| ==> order[a] != order[b]
  }

  function Members(order: seq<NodeId>): set<NodeId> {
    set v | v in order
  }

  /**
   * A candidate whose requests reach, in any order, enough voters for a quorum, each of an earlier
   * term, no further in its log and out of touch with its leader, leads once they have answered.
   */
  lemma {:induction false} CandidateWins(p: Params, run: Run, req: VoteRequest, order: seq<NodeId>) returns (run': Run)
    requires ValidRun(p, run) && Running(p, Final(run), req) && Distinct(order)
    requires forall v :: v in order ==> Winnable(Final(run), req, v)
    requires var o := Final(run).nodes[req.candidate].office;
             o.role == Leader || (order != [] && ElectionQuorum(p.config, o.votes + Members(order)))
    ensures ValidRun(p, run') && run.steps <= run'.steps && |run'.steps| == |run.steps| + 2 * |order|
    ensures Leads(Final(run'), req.candidate) && Final(run').nodes[req.candidate].office.term == req.term
    decreases |order|
  {
    if order == [] {
      run' := run;
    } else {
      var rest := order[1..];
      assert order == [order[0]] + rest && order[0] !in rest;
      var votes := Final(run).nodes[req.candidate].office.votes;
      var next := OneVote(p, run, req, order[0]);
      assert votes + {order[0]} + Members(rest) == votes + Members(order);
      if rest == [] {
        assert votes + {order[0]} == votes + Members(order);
      }
      run' := CandidateWins(p, next, req, rest);
    }
  }

  /** A voter that a node standing now would win over. */
  predicate Follows(c: Cluster, i: NodeId, v: NodeId)
    requires i in c.nodes
  {
    && v in c.nodes && v in c.nodes[i].peers && c.nodes[v].office.term <= c.nodes[i].office.term
    && UpToDate(VoteRequestOf(BecomeCandidate(c.nodes[i])), c.nodes[v].log)
  }

  /** A node that times out among such voters leads the next term after their answers. */
  lemma StandingWins(p: Params, run: Run, i: NodeId, order: seq<NodeId>) returns (run': Run)
    requires ValidRun(p, run) && i in Final(run).nodes && !Leads(Final(run), i) && p.config.IsVoter(i)
    requires Distinct(order) && forall v :: v in order ==> Follows(Final(run), i, v)
    requires ElectionQuorum(p.config, {i} + Members(order))
    ensures ValidRun(p, run') && run.steps <= run'.steps && |run'.steps| <= |run.steps| + 1 + 2 * |order|
    ensures Leads(Final(run'), i) && Final(run').nodes[i].office.term == Final(run).nodes[i].office.term + 1
  {
    var c := Final(run);
    RunKeepsElectionInv(p, run, |run.steps|);
    assert NodesOk(c);
    var cand := BecomeCandidate(c.nodes[i]);
    run' := Continued(p, run, Timeout(i));
    if !ElectionQuorum(p.config, {i}) {
      var req := VoteRequestOf(cand);
      assert {i} + Members([]) == {i};
      forall v | v in order ensures Winnable(Final(run'), req, v) {
        assert Follows(c, i, v);
      }
      run' := CandidateWins(p, run', req, order);
    }
  }
}
