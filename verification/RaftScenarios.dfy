/**
 * Runs of three nodes, without a crash, in which the protocol breaks a promise: a stale answer
 * that costs a committed entry, and a follower that commits an entry its leader never had.
 */
module RaftScenarios {

  import opened RaftTypes
  import opened Quorums
  import opened RaftLogs
  import opened RaftNodes
  import opened RaftCluster
  import opened LogMatching
  import opened FlushGates

  const THREE := ClusterConfig([1, 2, 3], [], [], 1, false)
  const P := Params(THREE, Limits(10, 10))

  // ---------- reachable states ----------

  predicate Crashless(events: seq<Event>) {
    forall k :: 0 <= k < |events| && events[k].Protocol? ==> !events[k].step.Crash?
  }

  ghost predicate Reachable(s: Media) {
    exists states: seq<Media>, events: seq<Event> ::
      Traced(P, states, events) && Crashless(events) && states[|events|] == s
  }

  lemma TraceFurther(states: seq<Media>, events: seq<Event>, e: Event, s': Media)
    requires Traced(P, states, events) && Possible(states[|events|], e) && s' == After(P, states[|events|], e)
    ensures Traced(P, states + [s'], events + [e])
  {
    var states', events' := states + [s'], events + [e];
    forall k | 0 <= k < |events'| ensures Moves(P, states', events', k) {
      if k < |events| {
        assert Moves(P, states, events, k);
        assert states'[k] == states[k] && states'[k + 1] == states[k + 1] && events'[k] == events[k];
      } else {
        assert states'[k] == states[|events|] && events'[k] == e;
      }
    }
  }

  lemma Further(s: Media, e: Event, s': Media)
    requires Reachable(s) && Possible(s, e) && (e.Protocol? ==> !e.step.Crash?) && s' == After(P, s, e)
    ensures Reachable(s')
  {
    var states: seq<Media>, events: seq<Event> :|
      Traced(P, states, events) && Crashless(events) && states[|events|] == s;
    TraceFurther(states, events, e, s');
    assert Crashless(events + [e]) && (states + [s'])[|events + [e]|] == s';
  }

  /** Forgetting the shelves leaves a run of the cluster. */
  lemma {:induction false} Projected(states: seq<Media>, events: seq<Event>, k: nat) returns (run: Run)
    requires Traced(P, states, events) && Crashless(events) && k < |states|
    ensures ValidRun(P, run) && run.states[|run.steps|] == states[k].c
    ensures forall j :: 0 <= j < |run.steps| ==> !run.steps[j].Crash?
  {
    if k == 0 {
      run := Run([states[0].c], []);
    } else {
      run := Projected(states, events, k - 1);
      assert Moves(P, states, events, k - 1);
      var e := events[k - 1];
      if e.Protocol? {
        run := OneStepMore(run, e.step);
      } else if e.Tell? && Leads(states[k - 1].c, e.n) {
        run := OneStepMore(run, Persisted(e.n, e.note.index));
      }
    }
  }

  lemma OneStepMore(run: Run, step: Step) returns (run': Run)
    requires ValidRun(P, run) && Enabled(run.states[|run.steps|], step) && !step.Crash?
    requires forall j :: 0 <= j < |run.steps| ==> !run.steps[j].Crash?
    ensures ValidRun(P, run') && run'.states[|run'.steps|] == Next(P, run.states[|run.steps|], step)
    ensures forall j :: 0 <= j < |run'.steps| ==> !run'.steps[j].Crash?
  {
    run' := Run(run.states + [Next(P, run.states[|run.steps|], step)], run.steps + [step]);
    forall j | 0 <= j < |run'.steps|
      ensures Enabled(run'.states[j], run'.steps[j]) && run'.states[j + 1] == Next(P, run'.states[j], run'.steps[j])
    {
      assert run'.states[j] == run.states[j];
    }
  }

  lemma ReachedBy(s: Media) returns (run: Run)
    requires Reachable(s)
    ensures ValidRun(P, run) && run.states[|run.steps|] == s.c
    ensures forall j :: 0 <= j < |run.steps| ==> !run.steps[j].Crash?
  {
    var states: seq<Media>, events: seq<Event> :|
      Traced(P, states, events) && Crashless(events) && states[|events|] == s;
    run := Projected(states, events, |events|);
  }

  // ---------- single steps ----------

  lemma Opening() returns (s: Media)
    ensures Reachable(s) && s.shelves == map[1 := Shelf(map[], []), 2 := Shelf(map[], []), 3 := Shelf(map[], [])]
    ensures s.c.nodes == map[1 := FreshNode(1, {2, 3}), 2 := FreshNode(2, {1, 3}), 3 := FreshNode(3, {1, 2})]
    ensures s.c.history == History({}, map[], map[], map[], map[], map[], map[], {})
  {
    var nodes := map[1 := FreshNode(1, {2, 3}), 2 := FreshNode(2, {1, 3}), 3 := FreshNode(3, {1, 2})];
    var shelf := Shelf(map[], []);
    s := Media(Cluster(nodes, {}, History({}, map[], map[], map[], map[], map[], map[], {})),
               map[1 := shelf, 2 := shelf, 3 := shelf]);
    assert Begins(s) by {
      assert nodes.Keys == {1, 2, 3} && s.shelves.Keys == {1, 2, 3};
    }
    assert Traced(P, [s], []) && Crashless([]);
  }

  lemma TwoOfThree(i: NodeId, q: NodeId)
    requires 1 <= i <= 3 && 1 <= q <= 3 && i != q
    ensures ElectionQuorum(THREE, {i, q}) && !ElectionQuorum(THREE, {i}) && CommitQuorum(THREE, {i, q})
  {
    assert Among({i, q}, THREE.nodes) == {i, q} && Among({i}, THREE.nodes) == {i};
    assert Voters(THREE, {i, q}) == {i, q};
  }

  /** What an election leaves alone: shelves, mail in the bag, acknowledgements, commits. */
  predicate KeepsRest(s: Media, s': Media) {
    && s'.shelves == s.shelves && s.c.messages <= s'.c.messages
    && s'.c.history.acked == s.c.history.acked && s'.c.history.committed == s.c.history.committed
  }

  lemma Stands(s: Media, i: NodeId, q: NodeId) returns (s': Media)
    requires Reachable(s) && i in s.c.nodes && 1 <= i <= 3 && 1 <= q <= 3 && i != q
    requires s.c.nodes[i].id == i && s.c.nodes[i].office.role != Leader && q in s.c.nodes[i].peers
    ensures Reachable(s') && KeepsRest(s, s') && s'.c.history.termLog == s.c.history.termLog
    ensures s'.c.nodes == s.c.nodes[i := BecomeCandidate(s.c.nodes[i])]
    ensures AskVote(i, q, VoteRequestOf(BecomeCandidate(s.c.nodes[i]))) in s'.c.messages
  {
    TwoOfThree(i, q);
    s' := After(P, s, Protocol(Timeout(i)));
    Further(s, Protocol(Timeout(i)), s');
  }

  lemma Votes(s: Media, ask: Message, voted: Node) returns (s': Media)
    requires Reachable(s) && ask in s.c.messages && ask.AskVote? && ask.dst in s.c.nodes
    requires HandleRequestVote(THREE, s.c.nodes[ask.dst], ask.vote, false, true)
          == (voted, VoteReply(ask.vote.term, true))
    ensures Reachable(s') && KeepsRest(s, s') && s'.c.history.termLog == s.c.history.termLog
    ensures s'.c.nodes == s.c.nodes[ask.dst := voted]
    ensures VoteAnswer(ask.dst, ask.src, VoteReply(ask.vote.term, true), ask.vote.term) in s'.c.messages
  {
    s' := After(P, s, Protocol(ReceiveVoteRequest(ask, false, true)));
    Further(s, Protocol(ReceiveVoteRequest(ask, false, true)), s');
  }

  lemma TakesOffice(s: Media, answer: Message, n: Node) returns (s': Media)
    requires Reachable(s) && answer in s.c.messages && answer.VoteAnswer?
    requires answer.dst in s.c.nodes && s.c.nodes[answer.dst] == n && n.office.role == Candidate
    requires n.id != answer.src && 1 <= n.id <= 3 && 1 <= answer.src <= 3 && n.office.votes == {n.id}
    requires answer.voteReply == VoteReply(n.office.term, true) && answer.askedTerm == n.office.term
    ensures Reachable(s') && KeepsRest(s, s')
    ensures s'.c.history.termLog == s.c.history.termLog[n.office.term := n.log.entries]
    ensures s'.c.nodes == s.c.nodes[answer.dst := BecomeLeader(n.(office := n.office.(votes := {n.id, answer.src})))]
  {
    TwoOfThree(n.id, answer.src);
    assert {n.id} + {answer.src} == {n.id, answer.src};
    s' := After(P, s, Protocol(ReceiveVoteReply(answer)));
    Further(s, Protocol(ReceiveVoteReply(answer)), s');
  }

  /** A candidate wins with one vote besides its own. */
  lemma Elects(s: Media, i: NodeId, q: NodeId, voted: Node) returns (s': Media)
    requires Reachable(s) && i in s.c.nodes && q in s.c.nodes && i != q && 1 <= i <= 3 && 1 <= q <= 3
    requires s.c.nodes[i].id == i && s.c.nodes[i].office.role != Leader && q in s.c.nodes[i].peers
    requires var cand := BecomeCandidate(s.c.nodes[i]);
             HandleRequestVote(THREE, s.c.nodes[q], VoteRequestOf(cand), false, true)
               == (voted, VoteReply(cand.office.term, true))
    ensures Reachable(s') && KeepsRest(s, s')
    ensures s'.c.history.termLog == s.c.history.termLog[s.c.nodes[i].office.term + 1 := s.c.nodes[i].log.entries]
    ensures s'.c.nodes == s.c.nodes[q := voted][i := Elected(s.c.nodes[i], q)]
  {
    var cand := BecomeCandidate(s.c.nodes[i]);
    var s1 := Stands(s, i, q);
    var s2 := Votes(s1, AskVote(i, q, VoteRequestOf(cand)), voted);
    s' := TakesOffice(s2, VoteAnswer(q, i, VoteReply(cand.office.term, true), cand.office.term), cand);
    Overwritten(s.c.nodes, i, q, cand, voted, Elected(s.c.nodes[i], q));
  }

  lemma SameKey<V>(m: map<nat, V>, t: nat, a: V, b: V)
    ensures m[t := a][t := b] == m[t := b]
  {
  }

  lemma Overwritten<V>(m: map<NodeId, V>, i: NodeId, q: NodeId, a: V, b: V, c: V)
    requires i != q
    ensures m[i := a][q := b][i := c] == m[q := b][i := c]
  {
  }

  /** The node as leader of its next term, elected by itself and `q`. */
  function Elected(n: Node, q: NodeId): Node {
    var cand := BecomeCandidate(n);
    BecomeLeader(cand.(office := cand.office.(votes := {n.id, q})))
  }

  lemma Proposes(s: Media, i: NodeId, data: string, n': Node) returns (s': Media)
    requires Reachable(s) && Leads(s.c, i) && i in s.shelves && n' == Propose(s.c.nodes[i], data)
    ensures Reachable(s') && s'.c.nodes == s.c.nodes[i := n'] && s'.c.messages == s.c.messages
    ensures var n, h := s.c.nodes[i], s.c.history;
            && s'.shelves
                 == s.shelves[i := Reshelved(s.shelves[i], n.log.entries, n'.log.entries, |n.log.entries|, true)]
            && s'.c.history == h.(termLog := h.termLog[n.office.term := n'.log.entries])
  {
    s' := After(P, s, Protocol(ClientPropose(i, data)));
    Further(s, Protocol(ClientPropose(i, data)), s');
  }

  lemma Sends(s: Media, i: NodeId, q: NodeId, n': Node, req: AppendRequest) returns (s': Media)
    requires Reachable(s) && Leads(s.c, i) && SendAppendEntries(P.limits, s.c.nodes[i], q) == (n', Some(req))
    ensures Reachable(s') && s'.c.nodes == s.c.nodes[i := n'] && s'.shelves == s.shelves
    ensures s'.c.messages == s.c.messages + {AskAppend(i, q, req)} && s'.c.history == s.c.history
  {
    s' := After(P, s, Protocol(SendAppend(i, q)));
    Further(s, Protocol(SendAppend(i, q)), s');
  }

  lemma Receives(s: Media, m: Message, n': Node, reply: AppendReply) returns (s': Media)
    requires Reachable(s) && m in s.c.messages && m.AskAppend? && m.dst in s.c.nodes && m.dst in s.shelves
    requires HandleAppendEntries(THREE, s.c.nodes[m.dst], m.append) == (n', reply)
    ensures Reachable(s') && s'.c.nodes == s.c.nodes[m.dst := n']
    ensures s'.c.messages == s.c.messages + {AppendAnswer(m.dst, m.src, reply, m.append)}
    ensures s'.c.history.termLog == s.c.history.termLog && s'.c.history.committed == s.c.history.committed
    ensures var n := s.c.nodes[m.dst];
            s'.shelves == s.shelves[m.dst := Reshelved(s.shelves[m.dst], n.log.entries, n'.log.entries,
                                                       Kept(THREE, n, m.append), false)]
  {
    s' := After(P, s, Protocol(ReceiveAppend(m)));
    Further(s, Protocol(ReceiveAppend(m)), s');
  }

  lemma Hears(s: Media, m: Message, n': Node) returns (s': Media)
    requires Reachable(s) && m in s.c.messages && m.AppendAnswer? && m.dst in s.c.nodes && m.asked.entries != []
    requires n' == HandleAppendEntriesResponse(s.c.nodes[m.dst], m.src, m.appendReply)
    ensures Reachable(s') && s'.c.nodes == s.c.nodes[m.dst := n'] && s'.shelves == s.shelves
    ensures s'.c.messages == s.c.messages && s'.c.history == s.c.history
  {
    s' := After(P, s, Protocol(ReceiveAppendReply(m)));
    Further(s, Protocol(ReceiveAppendReply(m)), s');
  }

  /** The oldest waiting entry of a node is written. */
  lemma Writes(s: Media, i: NodeId) returns (s': Media)
    requires Reachable(s) && i in s.c.nodes && i in s.shelves && s.shelves[i].waiting != []
    ensures Reachable(s') && s'.c == s.c && s'.shelves == s.shelves[i := WithFirst(s.shelves[i])]
  {
    s' := After(P, s, Flush(i));
    Further(s, Flush(i), s');
  }

  /** A leader gets a callback it is owed. */
  lemma Tells(s: Media, i: NodeId, note: Note, n': Node) returns (s': Media)
    requires Reachable(s) && Leads(s.c, i) && i in s.shelves && note in s.shelves[i].owed
    requires n' == OnLogEntryPersisted(s.c.nodes[i], note.index)
    ensures Reachable(s') && s'.c.nodes == s.c.nodes[i := n']
    ensures s'.shelves == s.shelves[i := WithoutNote(s.shelves[i], note)]
    ensures s'.c.messages == s.c.messages && s'.c.history == s.c.history
  {
    s' := After(P, s, Tell(i, note));
    Further(s, Tell(i, note), s');
  }

  /** The shelf once its oldest waiting entry is written and its callback has fired. */
  function Settled(shelf: Shelf): Shelf
    requires shelf.waiting != []
  {
    WithFirst(shelf).(owed := shelf.owed)
  }

  /** The oldest waiting entry of a leader is written and its proposal told. */
  lemma Flushes(s: Media, i: NodeId, n': Node) returns (s': Media)
    requires Reachable(s) && Leads(s.c, i)
    requires i in s.shelves && s.shelves[i].waiting != [] && s.shelves[i].waiting[0].told
    requires Note(s.shelves[i].waiting[0].index, s.shelves[i].waiting[0].term) !in s.shelves[i].owed
    requires n' == OnLogEntryPersisted(s.c.nodes[i], s.shelves[i].waiting[0].index)
    ensures Reachable(s') && s'.c.nodes == s.c.nodes[i := n'] && s'.shelves == s.shelves[i := Settled(s.shelves[i])]
    ensures s'.c.messages == s.c.messages && s'.c.history == s.c.history
  {
    var w, shelf := s.shelves[i].waiting[0], s.shelves[i];
    var note := Note(w.index, w.term);
    var s1 := Writes(s, i);
    s' := Tells(s1, i, note, n');
    assert shelf.owed + {note} - {note} == shelf.owed;
    SameKey(s.shelves, i, WithFirst(shelf), Settled(shelf));
  }

  lemma Commits(s: Media, i: NodeId, index: nat) returns (s': Media)
    requires Reachable(s) && Leads(s.c, i) && s.c.nodes[i].commitIndex < index
    requires TryCommit(THREE, s.c.nodes[i]).commitIndex == index
    ensures Reachable(s') && s'.c.nodes == s.c.nodes[i := s.c.nodes[i].(commitIndex := index)]
    ensures s'.shelves == s.shelves && s'.c.messages == s.c.messages && s'.c.history.termLog == s.c.history.termLog
    ensures Commitment(s.c.nodes[i].office.term, index, Holders(s.c.nodes[i], index)) in s'.c.history.committed
  {
    s' := After(P, s, Protocol(Commit(i)));
    Further(s, Protocol(Commit(i)), s');
  }

  lemma StepsDown(s: Media, i: NodeId) returns (s': Media)
    requires Reachable(s) && i in s.c.nodes
    ensures Reachable(s') && s'.c.nodes == s.c.nodes[i := BecomeFollower(s.c.nodes[i], s.c.nodes[i].office.term)]
    ensures s'.shelves == s.shelves && s'.c.messages == s.c.messages && s'.c.history == s.c.history
  {
    s' := After(P, s, Protocol(StepDown(i, s.c.nodes[i].office.term, true)));
    Further(s, Protocol(StepDown(i, s.c.nodes[i].office.term, true)), s');
  }

  // ---------- nodes as they appear ----------

  function Peers(i: NodeId): set<NodeId> {
    {1, 2, 3} - {i}
  }

  /** A follower that voted for `vote` in its term. */
  function Following(i: NodeId, term: nat, vote: Option<NodeId>, log: seq<Entry>): Node {
    Node(i, Peers(i), Office(Follower, term, vote, term, vote, {}), Log(1, log), 0, 0, 0, 0, NO_PROGRESS)
  }

  /** A leader elected by itself and `q`. */
  function Leading(i: NodeId, q: NodeId, term: nat, log: seq<Entry>, commit: nat, flushed: nat, g: Progress): Node {
    Node(i, Peers(i), Office(Leader, term, Some(i), term, Some(i), {i, q}), Log(1, log), 0, 0, commit, flushed, g)
  }

  /** A leader's view of its peers `a` and `b` on taking office. */
  function Anew(a: NodeId, b: NodeId, last: nat): Progress {
    Progress(map[a := last + 1, b := last + 1], map[a := 0, b := 0], map[])
  }

  const EMPTY := Shelf(map[], [])

  function Trio<V>(a: V, b: V, c: V): map<NodeId, V> {
    map[1 := a, 2 := b, 3 := c]
  }

  lemma TrioUpdate<V>(a: V, b: V, c: V, x: V)
    ensures Trio(a, b, c)[1 := x] == Trio(x, b, c) && Trio(a, b, c)[2 := x] == Trio(a, x, c)
    ensures Trio(a, b, c)[3 := x] == Trio(a, b, x)
    ensures Trio(a, b, c).Keys == {1, 2, 3}
  {
  }

  lemma PeersOf()
    ensures Peers(1) == {2, 3} && Peers(2) == {1, 3} && Peers(3) == {1, 2}
  {
  }

  lemma TakesOfficeAnew(n: Node, a: NodeId, b: NodeId)
    requires n.peers == {a, b}
    ensures BecomeLeader(n).progress == Anew(a, b, n.log.LastIndex())
  {
    var last := n.log.LastIndex();
    assert (map p | p in n.peers :: last + 1) == map[a := last + 1, b := last + 1];
    assert (map p | p in n.peers :: 0) == map[a := 0, b := 0];
  }

  /** The scenario stands as described. */
  ghost predicate Scene(s: Media, a: Node, b: Node, c: Node, termLog: map<nat, seq<Entry>>) {
    Reachable(s) && s.c.nodes == Trio(a, b, c) && s.shelves.Keys == {1, 2, 3} && s.c.history.termLog == termLog
  }

  /** Node 1 leads term 1 with the vote of node 2. */
  lemma FirstLeader() returns (s: Media)
    ensures Scene(s, Leading(1, 2, 1, [], 0, 0, Anew(2, 3, 0)), Following(2, 1, Some(1), []),
                    Following(3, 0, None, []), map[1 := []])
    ensures s.shelves == Trio(EMPTY, EMPTY, EMPTY) && s.c.history.committed == {}
  {
    PeersOf();
    var s0 := Opening();
    var n1, n2, n3 := Following(1, 0, None, []), Following(2, 1, Some(1), []), Following(3, 0, None, []);
    assert s0.c.nodes == Trio(n1, Following(2, 0, None, []), n3);
    var cand := BecomeCandidate(n1);
    assert HandleRequestVote(THREE, s0.c.nodes[2], VoteRequestOf(cand), false, true) == (n2, VoteReply(1, true));
    s := Elects(s0, 1, 2, n2);
    TakesOfficeAnew(cand.(office := cand.office.(votes := {1, 2})), 2, 3);
    var n1' := Leading(1, 2, 1, [], 0, 0, Anew(2, 3, 0));
    assert Elected(n1, 2) == n1';
    TrioUpdate(n1, Following(2, 0, None, []), n3, n2);
    TrioUpdate(n1, n2, n3, n1');
    TrioUpdate(EMPTY, EMPTY, EMPTY, EMPTY);
  }

  // ---------- a stale answer ----------

  const A := Entry(1, 1, "a")
  const B := Entry(2, 2, "b")

  /** Node 2's answer to node 1's first batch, left in the network. */
  const LATE := AppendAnswer(2, 1, AppendReply(1, true, 0, 1), AppendRequest(1, 1, 0, 0, [A], 0))

  const SENT := Progress(map[2 := 2, 3 := 1], map[2 := 0, 3 := 0], map[2 := [Batch(1, 1)]])

  lemma FirstProposal() returns (s: Media)
    ensures Scene(s, Leading(1, 2, 1, [A], 0, 0, Anew(2, 3, 0)), Following(2, 1, Some(1), []),
                    Following(3, 0, None, []), map[1 := [A]])
    ensures s.shelves == Trio(Shelf(map[], [Waiting(1, 1, true)]), EMPTY, EMPTY) && s.c.history.committed == {}
  {
    var s0 := FirstLeader();
    var n1, n1' := Leading(1, 2, 1, [], 0, 0, Anew(2, 3, 0)), Leading(1, 2, 1, [A], 0, 0, Anew(2, 3, 0));
    FirstShelved();
    s := Proposes(s0, 1, "a", n1');
    SameKey(map[], 1, [], [A]);
    TrioUpdate(n1, Following(2, 1, Some(1), []), Following(3, 0, None, []), n1');
    TrioUpdate(EMPTY, EMPTY, EMPTY, Shelf(map[], [Waiting(1, 1, true)]));
  }

  lemma FirstShelved()
    ensures Reshelved(EMPTY, [], [A], 0, true) == Shelf(map[], [Waiting(1, 1, true)])
    ensures Propose(Leading(1, 2, 1, [], 0, 0, Anew(2, 3, 0)), "a") == Leading(1, 2, 1, [A], 0, 0, Anew(2, 3, 0))
  {
    assert [A][0..] == [A] && Shelved([A], true) == [Waiting(1, 1, true)];
  }

  lemma FirstBatch()
    ensures SendAppendEntries(P.limits, Leading(1, 2, 1, [A], 0, 0, Anew(2, 3, 0)), 2)
         == (Leading(1, 2, 1, [A], 0, 0, SENT), Some(LATE.asked))
  {
    assert [A][0..1] == [A] && [] + [Batch(1, 1)] == [Batch(1, 1)];
    assert map[2 := 1, 3 := 1][2 := 2] == map[2 := 2, 3 := 1];
    PeersOf();
  }

  lemma FirstAccepted()
    ensures HandleAppendEntries(THREE, Following(2, 1, Some(1), []), LATE.asked)
         == (Following(2, 1, Some(1), [A]), AppendReply(1, true, 0, 1))
  {
    var n := Following(2, 1, Some(1), []);
    assert [A][1..] == [] && BeforeConflict(n, [A]) == 1;
    assert AppendMissing(n, [A]) == (Following(2, 1, Some(1), [A]), None) by {
      assert AppendMissing(Following(2, 1, Some(1), [A]), []) == (Following(2, 1, Some(1), [A]), None);
      assert n.log.Append(1, "a") == Log(1, [A]);
    }
  }

  lemma FirstSent() returns (s: Media)
    ensures Scene(s, Leading(1, 2, 1, [A], 0, 0, SENT), Following(2, 1, Some(1), []), Following(3, 0, None, []),
                    map[1 := [A]])
    ensures s.shelves == Trio(Shelf(map[], [Waiting(1, 1, true)]), EMPTY, EMPTY) && s.c.history.committed == {}
    ensures AskAppend(1, 2, LATE.asked) in s.c.messages
  {
    var s0 := FirstProposal();
    FirstBatch();
    s := Sends(s0, 1, 2, Leading(1, 2, 1, [A], 0, 0, SENT), LATE.asked);
    TrioUpdate(Leading(1, 2, 1, [A], 0, 0, Anew(2, 3, 0)), Following(2, 1, Some(1), []), Following(3, 0, None, []),
               Leading(1, 2, 1, [A], 0, 0, SENT));
  }

  /** Node 1 has sent its first entry to node 2, which holds it; the answer is on its way. */
  lemma FirstEntry() returns (s: Media)
    ensures Scene(s, Leading(1, 2, 1, [A], 0, 0, SENT), Following(2, 1, Some(1), [A]),
                    Following(3, 0, None, []), map[1 := [A]])
    ensures s.shelves[1] == Shelf(map[], [Waiting(1, 1, true)]) && LATE in s.c.messages && s.c.history.committed == {}
  {
    var s0 := FirstSent();
    FirstAccepted();
    s := Receives(s0, AskAppend(1, 2, LATE.asked), Following(2, 1, Some(1), [A]), AppendReply(1, true, 0, 1));
    TrioUpdate(Leading(1, 2, 1, [A], 0, 0, SENT), Following(2, 1, Some(1), []), Following(3, 0, None, []),
               Following(2, 1, Some(1), [A]));
  }

  lemma VoteOfThree()
    ensures HandleRequestVote(THREE, Following(3, 0, None, []), VoteRequest(2, 1, 1, 1), false, true)
         == (Following(3, 2, Some(1), []), VoteReply(2, true))
  {
  }

  lemma AgainInOffice(n: Node)
    requires n == BecomeFollower(Leading(1, 2, 1, [A], 0, 0, SENT), 1)
    ensures VoteRequestOf(BecomeCandidate(n)) == VoteRequest(2, 1, 1, 1) && BecomeCandidate(n).office.term == 2
    ensures Elected(n, 3) == Leading(1, 3, 2, [A], 0, 0, Anew(2, 3, 1))
  {
    PeersOf();
    var cand := BecomeCandidate(n);
    TakesOfficeAnew(cand.(office := cand.office.(votes := {1, 3})), 2, 3);
  }

  /** Node 1 steps down and is elected again, in term 2, by node 3. */
  lemma SecondTerm() returns (s: Media)
    ensures Scene(s, Leading(1, 3, 2, [A], 0, 0, Anew(2, 3, 1)), Following(2, 1, Some(1), [A]),
                    Following(3, 2, Some(1), []), map[1 := [A], 2 := [A]])
    ensures s.shelves[1] == Shelf(map[], [Waiting(1, 1, true)]) && LATE in s.c.messages && s.c.history.committed == {}
  {
    var s0 := FirstEntry();
    var n1, n2, n3 := Leading(1, 2, 1, [A], 0, 0, SENT), Following(2, 1, Some(1), [A]), Following(3, 0, None, []);
    var down := BecomeFollower(n1, 1);
    var s1 := StepsDown(s0, 1);
    TrioUpdate(n1, n2, n3, down);
    VoteOfThree();
    AgainInOffice(down);
    PeersOf();
    s := Elects(s1, 1, 3, Following(3, 2, Some(1), []));
    TrioUpdate(down, n2, n3, Following(3, 2, Some(1), []));
    TrioUpdate(down, n2, Following(3, 2, Some(1), []), Leading(1, 3, 2, [A], 0, 0, Anew(2, 3, 1)));
  }

  const AGAIN := Progress(map[2 := 3, 3 := 2], map[2 := 0, 3 := 0], map[2 := [Batch(2, 1)]])
  const CREDITED := Progress(map[2 := 3, 3 := 2], map[2 := 2, 3 := 0], map[2 := []])
  const BOTH := Shelf(map[], [Waiting(1, 1, true), Waiting(2, 2, true)])

  lemma SecondShelved()
    ensures Reshelved(Shelf(map[], [Waiting(1, 1, true)]), [A], [A, B], 1, true) == BOTH
    ensures Propose(Leading(1, 3, 2, [A], 0, 0, Anew(2, 3, 1)), "b") == Leading(1, 3, 2, [A, B], 0, 0, Anew(2, 3, 1))
  {
    assert [A, B][1..] == [B] && Shelved([B], true) == [Waiting(2, 2, true)];
  }

  lemma SecondBatch()
    ensures SendAppendEntries(P.limits, Leading(1, 3, 2, [A, B], 0, 0, Anew(2, 3, 1)), 2)
         == (Leading(1, 3, 2, [A, B], 0, 0, AGAIN), Some(AppendRequest(2, 1, 1, 1, [B], 0)))
  {
    assert [A, B][1..2] == [B] && [] + [Batch(2, 1)] == [Batch(2, 1)];
    assert map[2 := 2, 3 := 2][2 := 3] == map[2 := 3, 3 := 2];
    PeersOf();
  }

  /** The late answer is taken for one to the batch of term 2. */
  lemma LateCredit()
    ensures HandleAppendEntriesResponse(Leading(1, 3, 2, [A, B], 0, 0, AGAIN), 2, LATE.appendReply)
         == Leading(1, 3, 2, [A, B], 0, 0, CREDITED)
    ensures !AnswerFits(Leading(1, 3, 2, [A, B], 0, 0, AGAIN), LATE)
  {
    assert [Batch(2, 1)][1..] == [];
    assert map[2 := 0, 3 := 0][2 := 2] == map[2 := 2, 3 := 0] && map[2 := 3, 3 := 2][2 := 3] == map[2 := 3, 3 := 2];
    assert map[2 := [Batch(2, 1)]][2 := []] == map[2 := []];
  }

  lemma SecondProposal() returns (s: Media)
    ensures Scene(s, Leading(1, 3, 2, [A, B], 0, 0, Anew(2, 3, 1)), Following(2, 1, Some(1), [A]),
                    Following(3, 2, Some(1), []), map[1 := [A], 2 := [A, B]])
    ensures s.shelves[1] == BOTH && LATE in s.c.messages && s.c.history.committed == {}
  {
    var s0 := SecondTerm();
    var n1 := Leading(1, 3, 2, [A, B], 0, 0, Anew(2, 3, 1));
    SecondShelved();
    s := Proposes(s0, 1, "b", n1);
    SameKey(map[1 := [A]], 2, [A], [A, B]);
    TrioUpdate(Leading(1, 3, 2, [A], 0, 0, Anew(2, 3, 1)), Following(2, 1, Some(1), [A]),
               Following(3, 2, Some(1), []), n1);
  }

  /** Node 2 is credited with an entry it has never seen. */
  lemma Overcredited() returns (s: Media)
    ensures Scene(s, Leading(1, 3, 2, [A, B], 0, 0, CREDITED), Following(2, 1, Some(1), [A]),
                    Following(3, 2, Some(1), []), map[1 := [A], 2 := [A, B]])
    ensures s.shelves[1] == BOTH
  {
    var s0 := SecondProposal();
    var n1 := Leading(1, 3, 2, [A, B], 0, 0, AGAIN);
    var n2, n3 := Following(2, 1, Some(1), [A]), Following(3, 2, Some(1), []);
    SecondBatch();
    var s1 := Sends(s0, 1, 2, n1, AppendRequest(2, 1, 1, 1, [B], 0));
    TrioUpdate(Leading(1, 3, 2, [A, B], 0, 0, Anew(2, 3, 1)), n2, n3, n1);
    LateCredit();
    s := Hears(s1, LATE, Leading(1, 3, 2, [A, B], 0, 0, CREDITED));
    TrioUpdate(n1, n2, n3, Leading(1, 3, 2, [A, B], 0, 0, CREDITED));
  }

  lemma BothFlushed() returns (s: Media)
    ensures Scene(s, Leading(1, 3, 2, [A, B], 0, 2, CREDITED), Following(2, 1, Some(1), [A]),
                    Following(3, 2, Some(1), []), map[1 := [A], 2 := [A, B]])
  {
    var s0 := Overcredited();
    var n2, n3 := Following(2, 1, Some(1), [A]), Following(3, 2, Some(1), []);
    var s1 := Flushes(s0, 1, Leading(1, 3, 2, [A, B], 0, 1, CREDITED));
    TrioUpdate(Leading(1, 3, 2, [A, B], 0, 0, CREDITED), n2, n3, Leading(1, 3, 2, [A, B], 0, 1, CREDITED));
    assert BOTH.waiting[1..][0] == Waiting(2, 2, true);
    s := Flushes(s1, 1, Leading(1, 3, 2, [A, B], 0, 2, CREDITED));
    TrioUpdate(Leading(1, 3, 2, [A, B], 0, 1, CREDITED), n2, n3, Leading(1, 3, 2, [A, B], 0, 2, CREDITED));
  }

  lemma CreditCommits()
    ensures var n := Leading(1, 3, 2, [A, B], 0, 2, CREDITED);
            TryCommit(THREE, n).commitIndex == 2 && Holders(n, 2) == {1, 2}
  {
    var n := Leading(1, 3, 2, [A, B], 0, 2, CREDITED);
    assert Holders(n, 2) == {1, 2};
    TwoOfThree(1, 2);
    assert CommitScan(THREE, n, 2) == 2;
  }

  lemma CommittedOnCredit() returns (s: Media)
    ensures Scene(s, Leading(1, 3, 2, [A, B], 2, 2, CREDITED), Following(2, 1, Some(1), [A]),
                    Following(3, 2, Some(1), []), map[1 := [A], 2 := [A, B]])
    ensures Commitment(2, 2, {1, 2}) in s.c.history.committed
  {
    var s0 := BothFlushed();
    var n1 := Leading(1, 3, 2, [A, B], 0, 2, CREDITED);
    CreditCommits();
    s := Commits(s0, 1, 2);
    TrioUpdate(n1, Following(2, 1, Some(1), [A]), Following(3, 2, Some(1), []), n1.(commitIndex := 2));
  }

  lemma NextVote()
    ensures HandleRequestVote(THREE, Following(3, 2, Some(1), []), VoteRequest(3, 2, 1, 1), false, true)
         == (Following(3, 3, Some(2), []), VoteReply(3, true))
  {
  }

  /**
   * Without a crash, and with every flush in order, an entry of term 2 is committed on the strength
   * of the late answer; then node 2, which never held it, leads term 3.
   */
  lemma StaleAnswerLosesCommit() returns (run: Run, x: Commitment)
    ensures ValidRun(P, run) && forall j :: 0 <= j < |run.steps| ==> !run.steps[j].Crash?
    ensures var c := run.states[|run.steps|];
            && x in c.history.committed && Leads(c, 2) && c.nodes[2].office.term > x.term && x.term in c.history.termLog
            && !Agree(c.nodes[2].log.entries, c.history.termLog[x.term], x.index)
  {
    PeersOf();
    var s0 := CommittedOnCredit();
    var n1, n2, n3 := s0.c.nodes[1], Following(2, 1, Some(1), [A]), Following(3, 2, Some(1), []);
    x := Commitment(2, 2, {1, 2});
    var s1 := Stands(s0, 2, 3);
    var cand := BecomeCandidate(n2);
    TrioUpdate(n1, n2, n3, cand);
    NextVote();
    assert VoteRequestOf(BecomeCandidate(cand)) == VoteRequest(3, 2, 1, 1);
    var s2 := Elects(s1, 2, 3, Following(3, 3, Some(2), []));
    run := ReachedBy(s2);
  }

  // ---------- an unverified commit ----------

  const C := Entry(1, 2, "c")
  const HELD := Shelf(map[], [Waiting(1, 1, true)])

  lemma SendsHeartbeat(s: Media, i: NodeId, q: NodeId, req: AppendRequest) returns (s': Media)
    requires Reachable(s) && Enabled(s.c, SendReadHeartbeat(i, q))
    requires req == NextRequest(P.limits, s.c.nodes[i], s.c.nodes[i].progress.nextIndex[q]).(entries := [])
    ensures Reachable(s') && s'.c.nodes == s.c.nodes && s'.shelves == s.shelves
    ensures s'.c.messages == s.c.messages + {AskAppend(i, q, req)} && s'.c.history == s.c.history
  {
    s' := After(P, s, Protocol(SendReadHeartbeat(i, q)));
    Further(s, Protocol(SendReadHeartbeat(i, q)), s');
    assert s.c.nodes[i := s.c.nodes[i]] == s.c.nodes;
  }

  lemma RivalVote()
    ensures HandleRequestVote(THREE, Following(3, 0, None, []), VoteRequest(2, 2, 0, 0), false, true)
         == (Following(3, 2, Some(2), []), VoteReply(2, true))
  {
  }

  lemma RivalInOffice()
    ensures var n := Following(2, 1, Some(1), []);
            && VoteRequestOf(BecomeCandidate(n)) == VoteRequest(2, 2, 0, 0) && BecomeCandidate(n).office.term == 2
            && Elected(n, 3) == Leading(2, 3, 2, [], 0, 0, Anew(1, 3, 0))
  {
    PeersOf();
    var cand := BecomeCandidate(Following(2, 1, Some(1), []));
    TakesOfficeAnew(cand.(office := cand.office.(votes := {2, 3})), 1, 3);
  }

  /** While node 1 leads term 1 with entries of its own, node 2 is elected in term 2 by node 3. */
  lemma RivalElected(s: Media, n1: Node, termLog: map<nat, seq<Entry>>) returns (s': Media)
    requires Scene(s, n1, Following(2, 1, Some(1), []), Following(3, 0, None, []), termLog)
    ensures Scene(s', n1, Leading(2, 3, 2, [], 0, 0, Anew(1, 3, 0)), Following(3, 2, Some(2), []), termLog[2 := []])
    ensures s'.shelves == s.shelves
  {
    PeersOf();
    var n2, n3 := Following(2, 1, Some(1), []), Following(3, 0, None, []);
    RivalVote();
    RivalInOffice();
    s' := Elects(s, 2, 3, Following(3, 2, Some(2), []));
    TrioUpdate(n1, n2, n3, Following(3, 2, Some(2), []));
    TrioUpdate(n1, n2, Following(3, 2, Some(2), []), Leading(2, 3, 2, [], 0, 0, Anew(1, 3, 0)));
  }

  lemma RivalShelved()
    ensures Reshelved(EMPTY, [], [C], 0, true) == Shelf(map[], [Waiting(1, 2, true)])
    ensures Propose(Leading(2, 3, 2, [], 0, 0, Anew(1, 3, 0)), "c") == Leading(2, 3, 2, [C], 0, 0, Anew(1, 3, 0))
  {
    assert [C][0..] == [C] && Shelved([C], true) == [Waiting(1, 2, true)];
  }

  lemma RivalProposes(s: Media, n1: Node, termLog: map<nat, seq<Entry>>) returns (s': Media)
    requires Scene(s, n1, Following(2, 1, Some(1), []), Following(3, 0, None, []), termLog)
    requires s.shelves[2] == EMPTY
    ensures Scene(s', n1, Leading(2, 3, 2, [C], 0, 0, Anew(1, 3, 0)), Following(3, 2, Some(2), []),
                    termLog[2 := [C]])
    ensures s'.shelves == s.shelves[2 := Shelf(map[], [Waiting(1, 2, true)])]
  {
    var s1 := RivalElected(s, n1, termLog);
    var lead, lead' := Leading(2, 3, 2, [], 0, 0, Anew(1, 3, 0)), Leading(2, 3, 2, [C], 0, 0, Anew(1, 3, 0));
    RivalShelved();
    s' := Proposes(s1, 2, "c", lead');
    SameKey(termLog, 2, [], [C]);
    TrioUpdate(n1, lead, Following(3, 2, Some(2), []), lead');
  }

  const SENT3 := Progress(map[1 := 1, 3 := 2], map[1 := 0, 3 := 0], map[3 := [Batch(1, 1)]])
  const MATCHED3 := Progress(map[1 := 1, 3 := 2], map[1 := 0, 3 := 1], map[3 := []])
  const FROM2 := AppendRequest(2, 2, 0, 0, [C], 0)

  lemma RivalBatch()
    ensures SendAppendEntries(P.limits, Leading(2, 3, 2, [C], 0, 0, Anew(1, 3, 0)), 3)
         == (Leading(2, 3, 2, [C], 0, 0, SENT3), Some(FROM2))
  {
    assert [C][0..1] == [C] && [] + [Batch(1, 1)] == [Batch(1, 1)];
    assert map[1 := 1, 3 := 1][3 := 2] == map[1 := 1, 3 := 2];
    PeersOf();
  }

  lemma RivalAccepted()
    ensures HandleAppendEntries(THREE, Following(3, 2, Some(2), []), FROM2)
         == (Following(3, 2, Some(2), [C]), AppendReply(2, true, 0, 1))
  {
    var n := Following(3, 2, Some(2), []);
    assert [C][1..] == [] && BeforeConflict(n, [C]) == 1;
    assert AppendMissing(n, [C]) == (Following(3, 2, Some(2), [C]), None) by {
      assert AppendMissing(Following(3, 2, Some(2), [C]), []) == (Following(3, 2, Some(2), [C]), None);
      assert n.log.Append(2, "c") == Log(1, [C]);
    }
  }

  lemma RivalCredit()
    ensures HandleAppendEntriesResponse(Leading(2, 3, 2, [C], 0, 0, SENT3), 3, AppendReply(2, true, 0, 1))
         == Leading(2, 3, 2, [C], 0, 0, MATCHED3)
  {
    assert [Batch(1, 1)][1..] == [];
    assert map[1 := 0, 3 := 0][3 := 1] == map[1 := 0, 3 := 1] && map[1 := 1, 3 := 2][3 := 2] == map[1 := 1, 3 := 2];
    assert map[3 := [Batch(1, 1)]][3 := []] == map[3 := []];
  }

  lemma RivalCommits()
    ensures var n := Leading(2, 3, 2, [C], 0, 1, MATCHED3);
            TryCommit(THREE, n).commitIndex == 1 && Holders(n, 1) == {2, 3}
  {
    var n := Leading(2, 3, 2, [C], 0, 1, MATCHED3);
    assert Holders(n, 1) == {2, 3};
    TwoOfThree(2, 3);
    assert CommitScan(THREE, n, 1) == 1;
  }

  const N1 := Leading(1, 2, 1, [A], 0, 0, Anew(2, 3, 0))

  lemma RivalSends() returns (s: Media)
    ensures Scene(s, N1, Leading(2, 3, 2, [C], 0, 0, SENT3), Following(3, 2, Some(2), []), map[1 := [A], 2 := [C]])
    ensures s.shelves[2] == Shelf(map[], [Waiting(1, 2, true)]) && AskAppend(2, 3, FROM2) in s.c.messages
  {
    TrioUpdate(HELD, EMPTY, EMPTY, EMPTY);
    var s0 := FirstProposal();
    var s1 := RivalProposes(s0, N1, map[1 := [A]]);
    RivalBatch();
    s := Sends(s1, 2, 3, Leading(2, 3, 2, [C], 0, 0, SENT3), FROM2);
    TrioUpdate(N1, Leading(2, 3, 2, [C], 0, 0, Anew(1, 3, 0)), Following(3, 2, Some(2), []),
               Leading(2, 3, 2, [C], 0, 0, SENT3));
  }

  const YES := AppendAnswer(3, 2, AppendReply(2, true, 0, 1), FROM2)

  lemma RivalReceived() returns (s: Media)
    ensures Scene(s, N1, Leading(2, 3, 2, [C], 0, 0, SENT3), Following(3, 2, Some(2), [C]), map[1 := [A], 2 := [C]])
    ensures s.shelves[2] == Shelf(map[], [Waiting(1, 2, true)]) && YES in s.c.messages
  {
    var s0 := RivalSends();
    RivalAccepted();
    s := Receives(s0, AskAppend(2, 3, FROM2), Following(3, 2, Some(2), [C]), AppendReply(2, true, 0, 1));
    TrioUpdate(N1, Leading(2, 3, 2, [C], 0, 0, SENT3), Following(3, 2, Some(2), []), Following(3, 2, Some(2), [C]));
  }

  /** Node 3 holds the new leader's entry and has said so. */
  lemma RivalReplicates() returns (s: Media)
    ensures Scene(s, N1, Leading(2, 3, 2, [C], 0, 0, MATCHED3), Following(3, 2, Some(2), [C]), map[1 := [A], 2 := [C]])
    ensures s.shelves[2] == Shelf(map[], [Waiting(1, 2, true)])
  {
    var s0 := RivalReceived();
    RivalCredit();
    s := Hears(s0, YES, Leading(2, 3, 2, [C], 0, 0, MATCHED3));
    TrioUpdate(N1, Leading(2, 3, 2, [C], 0, 0, SENT3), Following(3, 2, Some(2), [C]),
               Leading(2, 3, 2, [C], 0, 0, MATCHED3));
  }

  lemma RivalHasCommitted() returns (s: Media)
    ensures Scene(s, N1, Leading(2, 3, 2, [C], 1, 1, MATCHED3), Following(3, 2, Some(2), [C]), map[1 := [A], 2 := [C]])
    ensures Commitment(2, 1, {2, 3}) in s.c.history.committed
  {
    var s0 := RivalReplicates();
    var n3 := Following(3, 2, Some(2), [C]);
    var s1 := Flushes(s0, 2, Leading(2, 3, 2, [C], 0, 1, MATCHED3));
    TrioUpdate(N1, Leading(2, 3, 2, [C], 0, 0, MATCHED3), n3, Leading(2, 3, 2, [C], 0, 1, MATCHED3));
    RivalCommits();
    s := Commits(s1, 2, 1);
    TrioUpdate(N1, Leading(2, 3, 2, [C], 0, 1, MATCHED3), n3, Leading(2, 3, 2, [C], 1, 1, MATCHED3));
  }

  const PULSE := AppendRequest(2, 2, 0, 0, [], 1)

  /** A read heartbeat at position 1 verifies nothing, and the node commits what it happens to hold. */
  lemma PulseCommits() returns (n': Node, reply: AppendReply)
    ensures HandleAppendEntries(THREE, N1, PULSE) == (n', reply)
    ensures n'.commitIndex == 1 && n'.log.entries == [A]
  {
    var m := BecomeFollower(N1, 2);
    assert AppendMissing(CutConflict(m, []), []) == (m, None);
    n', reply := HandleAppendEntries(THREE, N1, PULSE).0, HandleAppendEntries(THREE, N1, PULSE).1;
  }

  lemma AfterPulse() returns (s: Media)
    ensures Reachable(s) && Commitment(2, 1, {2, 3}) in s.c.history.committed && 1 in s.c.nodes
    ensures s.c.nodes[1].commitIndex == 1 && s.c.nodes[1].log.entries == [A]
    ensures s.c.history.termLog == map[1 := [A], 2 := [C]]
  {
    PeersOf();
    var s0 := RivalHasCommitted();
    var s1 := SendsHeartbeat(s0, 2, 1, PULSE);
    var n1', reply := PulseCommits();
    s := Receives(s1, AskAppend(2, 1, PULSE), n1', reply);
  }

  /** Without a crash, node 1 counts its own old entry as committed where the cluster committed another. */
  lemma FollowerCommitsUnverified() returns (run: Run, x: Commitment)
    ensures ValidRun(P, run) && forall j :: 0 <= j < |run.steps| ==> !run.steps[j].Crash?
    ensures var c := run.states[|run.steps|];
            && x in c.history.committed && x.term in c.history.termLog && 1 in c.nodes
            && x.index <= c.nodes[1].commitIndex
            && !Agree(c.nodes[1].log.entries, c.history.termLog[x.term], x.index)
  {
    var s := AfterPulse();
    x := Commitment(2, 1, {2, 3});
    assert [A][..1] == [A] && [C][..1] == [C];
    run := ReachedBy(s);
  }
}
