/**
 * A run in which a refusal from an earlier term pushes a send position beyond the leader's log:
 * node 1 loses its log in a crash, leads again, and takes node 2's old refusal for an answer to
 * its new batch. Node 2 then gets nothing more by way of rounds.
 */
module StrayScenario {

  import opened RaftTypes
  import opened RaftLogs
  import opened RaftNodes
  import opened RaftCluster
  import opened Campaigns
  import opened CatchUp
  import opened CatchUpRuns
  import opened RaftScenarios

  ghost predicate Reached(c: Cluster) {
    exists run :: ValidRun(P, run) && run.states[|run.steps|] == c
  }

  lemma Onward(c: Cluster, step: Step)
    requires Reached(c) && Enabled(c, step)
    ensures Reached(Next(P, c, step))
  {
    var run :| ValidRun(P, run) && run.states[|run.steps|] == c;
    var run' := Continued(P, run, step);
  }

  const THIRD := Following(3, 0, None, [])

  /** Nodes 1 and 2 stand as described; node 3 has done nothing. */
  ghost predicate Stands2(c: Cluster, a: Node, b: Node) {
    Reached(c) && c.nodes == Trio(a, b, THIRD)
  }

  lemma NodeOneMoves(c: Cluster, a: Node, b: Node, step: Step, a': Node) returns (c': Cluster)
    requires Stands2(c, a, b) && Enabled(c, step)
    requires Next(P, c, step).nodes == c.nodes[1 := a']
    ensures c' == Next(P, c, step) && Stands2(c', a', b)
  {
    Onward(c, step);
    TrioUpdate(a, b, THIRD, a');
    c' := Next(P, c, step);
  }

  lemma NodeTwoMoves(c: Cluster, a: Node, b: Node, step: Step, b': Node) returns (c': Cluster)
    requires Stands2(c, a, b) && Enabled(c, step)
    requires Next(P, c, step).nodes == c.nodes[2 := b']
    ensures c' == Next(P, c, step) && Stands2(c', a, b')
  {
    Onward(c, step);
    TrioUpdate(a, b, THIRD, b');
    c' := Next(P, c, step);
  }

  // ---------- term 1 ----------

  const LOG3 := [Entry(1, 1, "a"), Entry(2, 1, "b"), Entry(3, 1, "c")]
  const LOG4 := LOG3 + [Entry(4, 1, "d")]
  const FOLLOWER := Following(2, 1, Some(1), [])
  const AFTER3 := Progress(map[2 := 4, 3 := 1], map[2 := 0, 3 := 0], map[2 := [Batch(1, 3)]])
  const AFTER4 := Progress(map[2 := 5, 3 := 1], map[2 := 0, 3 := 0], map[2 := [Batch(1, 3), Batch(4, 1)]])
  const FOURTH := AppendRequest(1, 1, 3, 1, [Entry(4, 1, "d")], 0)
  const REFUSAL := AppendAnswer(2, 1, AppendReply(1, false, 3, 0), FOURTH)

  function Lead1(log: seq<Entry>, g: Progress): Node {
    Leading(1, 2, 1, log, 0, 0, g)
  }

  lemma ThreeProposed() returns (c: Cluster)
    ensures Stands2(c, Lead1(LOG3, Anew(2, 3, 0)), FOLLOWER)
  {
    var s := FirstProposal();
    var run := ReachedBy(s);
    var g := Anew(2, 3, 0);
    var two := [Entry(1, 1, "a"), Entry(2, 1, "b")];
    assert two == [A] + [Entry(2, 1, "b")] && LOG3 == two + [Entry(3, 1, "c")];
    c := NodeOneMoves(s.c, Lead1([A], g), FOLLOWER, ClientPropose(1, "b"), Lead1(two, g));
    c := NodeOneMoves(c, Lead1(two, g), FOLLOWER, ClientPropose(1, "c"), Lead1(LOG3, g));
  }

  lemma ThreeSent()
    ensures SendAppendEntries(P.limits, Lead1(LOG3, Anew(2, 3, 0)), 2)
         == (Lead1(LOG3, AFTER3), Some(AppendRequest(1, 1, 0, 0, LOG3, 0)))
  {
    assert LOG3[0..3] == LOG3 && [] + [Batch(1, 3)] == [Batch(1, 3)];
    assert map[2 := 1, 3 := 1][2 := 4] == map[2 := 4, 3 := 1];
    PeersOf();
  }

  lemma FourthSent()
    ensures SendAppendEntries(P.limits, Lead1(LOG4, AFTER3), 2) == (Lead1(LOG4, AFTER4), Some(FOURTH))
  {
    assert LOG4[3..4] == [Entry(4, 1, "d")] && [Batch(1, 3)] + [Batch(4, 1)] == [Batch(1, 3), Batch(4, 1)];
    assert InflightCount([Batch(1, 3)]) == 3 by {
      assert [Batch(1, 3)][1..] == [];
    }
    assert map[2 := 4, 3 := 1][2 := 5] == map[2 := 5, 3 := 1];
    assert map[2 := [Batch(1, 3)]][2 := [Batch(1, 3), Batch(4, 1)]] == map[2 := [Batch(1, 3), Batch(4, 1)]];
    PeersOf();
  }

  /** The fourth entry overtakes the first three, and node 2 refuses it. */
  lemma Refused() returns (c: Cluster)
    ensures Stands2(c, Lead1(LOG4, AFTER4), FOLLOWER) && REFUSAL in c.messages
  {
    c := ThreeProposed();
    ThreeSent();
    c := NodeOneMoves(c, Lead1(LOG3, Anew(2, 3, 0)), FOLLOWER, SendAppend(1, 2), Lead1(LOG3, AFTER3));
    c := NodeOneMoves(c, Lead1(LOG3, AFTER3), FOLLOWER, ClientPropose(1, "d"), Lead1(LOG4, AFTER3));
    FourthSent();
    c := NodeOneMoves(c, Lead1(LOG4, AFTER3), FOLLOWER, SendAppend(1, 2), Lead1(LOG4, AFTER4));
    var m := AskAppend(1, 2, FOURTH);
    assert HandleAppendEntries(THREE, FOLLOWER, FOURTH) == (FOLLOWER, AppendReply(1, false, 3, 0));
    c := NodeTwoMoves(c, Lead1(LOG4, AFTER4), FOLLOWER, ReceiveAppend(m), FOLLOWER);
  }

  // ---------- term 2 ----------

  const FRESH := [Entry(1, 2, "e")]
  const VOTER := Following(2, 2, Some(1), [])
  const STRAY := Progress(map[2 := 3, 3 := 1], map[2 := 0, 3 := 0], map[2 := []])

  function Lead2(log: seq<Entry>, g: Progress): Node {
    Leading(1, 2, 2, log, 0, 0, g)
  }

  /** Node 1 comes back with nothing and stands for term 2. */
  lemma StandsAgain() returns (c: Cluster)
    ensures Stands2(c, BecomeCandidate(Following(1, 1, Some(1), [])), FOLLOWER) && REFUSAL in c.messages
    ensures AskVote(1, 2, VoteRequest(2, 1, 0, 0)) in c.messages
  {
    c := Refused();
    var back := Following(1, 1, Some(1), []);
    c := NodeOneMoves(c, Lead1(LOG4, AFTER4), FOLLOWER, Crash(1, []), back);
    TwoOfThree(1, 2);
    PeersOf();
    c := NodeOneMoves(c, back, FOLLOWER, Timeout(1), BecomeCandidate(back));
  }

  lemma LeadsAgain() returns (c: Cluster)
    ensures Stands2(c, Lead2([], Anew(2, 3, 0)), VOTER) && REFUSAL in c.messages
  {
    c := StandsAgain();
    var cand := BecomeCandidate(Following(1, 1, Some(1), []));
    var m := AskVote(1, 2, VoteRequest(2, 1, 0, 0));
    assert HandleRequestVote(THREE, FOLLOWER, m.vote, false, true) == (VOTER, VoteReply(2, true));
    c := NodeTwoMoves(c, cand, FOLLOWER, ReceiveVoteRequest(m, false, true), VOTER);
    TwoOfThree(1, 2);
    PeersOf();
    assert {1} + {2} == {1, 2};
    TakesOfficeAnew(cand.(office := cand.office.(votes := {1, 2})), 2, 3);
    c := NodeOneMoves(c, cand, VOTER, ReceiveVoteReply(VoteAnswer(2, 1, VoteReply(2, true), 2)),
                      Lead2([], Anew(2, 3, 0)));
  }

  lemma FreshSent()
    ensures SendAppendEntries(P.limits, Lead2(FRESH, Anew(2, 3, 0)), 2)
         == (Lead2(FRESH, SENT), Some(AppendRequest(2, 1, 0, 0, FRESH, 0)))
  {
    assert FRESH[0..1] == FRESH && [] + [Batch(1, 1)] == [Batch(1, 1)];
    assert map[2 := 1, 3 := 1][2 := 2] == map[2 := 2, 3 := 1];
    PeersOf();
  }

  lemma RefusalTaken()
    ensures HandleAppendEntriesResponse(Lead2(FRESH, SENT), 2, AppendReply(1, false, 3, 0)) == Lead2(FRESH, STRAY)
  {
    assert map[2 := 2, 3 := 1][2 := 3] == map[2 := 3, 3 := 1];
    assert map[2 := 0, 3 := 0][2 := 0] == map[2 := 0, 3 := 0];
    assert map[2 := [Batch(1, 1)]][2 := []] == map[2 := []];
  }

  /** A reachable leader whose log ends at 1 sends to node 2 from 3, and no number of rounds brings node 2 up. */
  lemma StaleRefusalStrays() returns (run: Run)
    ensures ValidRun(P, run)
    ensures var c := run.states[|run.steps|];
            && Opposed(P, c, 1, 2) && c.nodes[1] == Lead2(FRESH, STRAY)
            && (forall n: nat :: !Caught(P, Rounds(P, PairOf(c, 1, 2), n)))
  {
    var c := LeadsAgain();
    assert Log(1, []).Append(2, "e") == Log(1, FRESH);
    c := NodeOneMoves(c, Lead2([], Anew(2, 3, 0)), VOTER, ClientPropose(1, "e"), Lead2(FRESH, Anew(2, 3, 0)));
    FreshSent();
    c := NodeOneMoves(c, Lead2(FRESH, Anew(2, 3, 0)), VOTER, SendAppend(1, 2), Lead2(FRESH, SENT));
    RefusalTaken();
    c := NodeOneMoves(c, Lead2(FRESH, SENT), VOTER, ReceiveAppendReply(REFUSAL), Lead2(FRESH, STRAY));
    run :| ValidRun(P, run) && run.states[|run.steps|] == c;
    PeersOf();
    LeaderCatchesPeerUpIff(P, run, |run.steps|, 1, 2);
  }
}
