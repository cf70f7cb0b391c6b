/**
 * Runs of three nodes, without a crash, in which a leader commits an entry that is not on its disk:
 * its flushed index outlived a truncation, or a callback for an entry since cut away came late.
 */
module GateScenarios {

  import opened RaftTypes
  import opened RaftLogs
  import opened RaftNodes
  import opened RaftCluster
  import opened FlushGates
  import opened RaftScenarios

  // ---------- two entries written ----------

  const D := Entry(2, 1, "d")
  const E := Entry(2, 3, "e")

  const FIRST := Note(1, 1)
  const SECOND := Note(2, 1)

  /** Node 1 in term 1, told up to `f`. */
  function One(f: nat): Node {
    Leading(1, 2, 1, [A], 0, f, Anew(2, 3, 0))
  }

  function Two(f: nat): Node {
    Leading(1, 2, 1, [A, D], 0, f, Anew(2, 3, 0))
  }

  /** Node 1 has written its first entry; it was told, or is owed a callback. */
  ghost predicate HasWrittenOne(s: Media, f: nat, owed: set<Note>) {
    && Scene(s, One(f), Following(2, 1, Some(1), []), Following(3, 0, None, []), map[1 := [A]])
    && s.shelves == Trio(Shelf(map[1 := 1], [], owed), EMPTY, EMPTY)
  }

  /** Both are in its log, the second still on its way. */
  ghost predicate HoldsTwo(s: Media, f: nat, owed: set<Note>) {
    && Scene(s, Two(f), Following(2, 1, Some(1), []), Following(3, 0, None, []), map[1 := [A, D]])
    && s.shelves == Trio(Shelf(map[1 := 1], [Waiting(2, 1, true)], owed), EMPTY, EMPTY)
  }

  /** Both are written. */
  ghost predicate HasWrittenTwo(s: Media, f: nat, owed: set<Note>) {
    && Scene(s, Two(f), Following(2, 1, Some(1), []), Following(3, 0, None, []), map[1 := [A, D]])
    && s.shelves == Trio(Shelf(map[1 := 1, 2 := 1], [], owed), EMPTY, EMPTY)
  }

  lemma FirstOnDisk()
    ensures WithFirst(HELD) == Shelf(map[1 := 1], [], {FIRST}) && Settled(HELD) == Shelf(map[1 := 1], [])
  {
    assert HELD.waiting[1..] == [] && {} + {FIRST} == {FIRST};
  }

  lemma SecondOnShelf(f: nat, owed: set<Note>)
    ensures Propose(One(f), "d") == Two(f)
    ensures Reshelved(Shelf(map[1 := 1], [], owed), [A], [A, D], 1, true)
         == Shelf(map[1 := 1], [Waiting(2, 1, true)], owed)
  {
    assert [A] + [D] == [A, D] && [A, D][1..] == [D] && Shelved([D], true) == [Waiting(2, 1, true)];
  }

  lemma SecondOnDisk(owed: set<Note>)
    ensures var shelf := Shelf(map[1 := 1], [Waiting(2, 1, true)], owed);
            && WithFirst(shelf) == Shelf(map[1 := 1, 2 := 1], [], owed + {SECOND})
            && Settled(shelf) == Shelf(map[1 := 1, 2 := 1], [], owed)
  {
    assert [Waiting(2, 1, true)][1..] == [];
    assert map[1 := 1][2 := 1] == map[1 := 1, 2 := 1];
  }

  lemma ProposesSecond(s: Media, f: nat, owed: set<Note>) returns (s': Media)
    requires HasWrittenOne(s, f, owed)
    ensures HoldsTwo(s', f, owed)
  {
    SecondOnShelf(f, owed);
    s' := Proposes(s, 1, "d", Two(f));
    SameKey(map[], 1, [A], [A, D]);
    TrioUpdate(One(f), Following(2, 1, Some(1), []), Following(3, 0, None, []), Two(f));
    TrioUpdate(Shelf(map[1 := 1], [], owed), EMPTY, EMPTY, Shelf(map[1 := 1], [Waiting(2, 1, true)], owed));
  }

  lemma FirstTold() returns (s: Media)
    ensures HasWrittenOne(s, 1, {})
  {
    var s0 := FirstProposal();
    FirstOnDisk();
    s := Flushes(s0, 1, One(1));
    TrioUpdate(One(0), Following(2, 1, Some(1), []), Following(3, 0, None, []), One(1));
    TrioUpdate(HELD, EMPTY, EMPTY, Shelf(map[1 := 1], []));
  }

  /** Node 1 was told of both. */
  lemma BothTold() returns (s: Media)
    ensures HasWrittenTwo(s, 2, {})
  {
    var s0 := FirstTold();
    var s1 := ProposesSecond(s0, 1, {});
    SecondOnDisk({});
    s := Flushes(s1, 1, Two(2));
    TrioUpdate(Two(1), Following(2, 1, Some(1), []), Following(3, 0, None, []), Two(2));
    TrioUpdate(Shelf(map[1 := 1], [Waiting(2, 1, true)]), EMPTY, EMPTY, Shelf(map[1 := 1, 2 := 1], []));
  }

  lemma FirstOwed() returns (s: Media)
    ensures HasWrittenOne(s, 0, {FIRST})
  {
    var s0 := FirstProposal();
    FirstOnDisk();
    s := Writes(s0, 1);
    TrioUpdate(HELD, EMPTY, EMPTY, Shelf(map[1 := 1], [], {FIRST}));
  }

  /** Both callbacks are owed, and the flushed index is still 0. */
  lemma BothOwed() returns (s: Media)
    ensures HasWrittenTwo(s, 0, {FIRST, SECOND})
  {
    var s0 := FirstOwed();
    var s1 := ProposesSecond(s0, 0, {FIRST});
    SecondOnDisk({FIRST});
    assert {FIRST} + {SECOND} == {FIRST, SECOND};
    s := Writes(s1, 1);
    TrioUpdate(Shelf(map[1 := 1], [Waiting(2, 1, true)], {FIRST}), EMPTY, EMPTY,
               Shelf(map[1 := 1, 2 := 1], [], {FIRST, SECOND}));
  }

  // ---------- both cut away ----------

  const SENT1 := Progress(map[1 := 2, 3 := 1], map[1 := 0, 3 := 0], map[1 := [Batch(1, 1)]])

  lemma RivalBatchToOne()
    ensures SendAppendEntries(P.limits, Leading(2, 3, 2, [C], 0, 0, Anew(1, 3, 0)), 1)
         == (Leading(2, 3, 2, [C], 0, 0, SENT1), Some(FROM2))
  {
    assert [C][0..1] == [C] && [] + [Batch(1, 1)] == [Batch(1, 1)];
    assert map[1 := 1, 3 := 1][1 := 2] == map[1 := 2, 3 := 1];
    PeersOf();
  }

  /** Node 1 after it lost both entries to the new leader: its flushed index is what it was. */
  function CutDown(f: nat): Node {
    BecomeFollower(Two(f), 2).(log := Log(1, [C]))
  }

  lemma BothLost(f: nat)
    ensures HandleAppendEntries(THREE, Two(f), FROM2) == (CutDown(f), AppendReply(2, true, 0, 1))
    ensures Kept(THREE, Two(f), FROM2) == 0
  {
    var n, m := Two(f), BecomeFollower(Two(f), 2);
    assert [C][1..] == [] && TermAt(m, 1) == 1 && TermAt(n, 1) == 1;
    assert BeforeConflict(m, [C]) == 0 && BeforeConflict(n, [C]) == 0;
    var cut := CutConflict(m, [C]);
    assert cut.log == Log(1, []);
    assert AppendMissing(CutDown(f), []) == (CutDown(f), None) && cut.log.Append(2, "c") == Log(1, [C]);
    assert AppendMissing(cut, [C]) == (CutDown(f), None);
  }

  lemma NothingKept(owed: set<Note>)
    ensures Reshelved(Shelf(map[1 := 1, 2 := 1], [], owed), [A, D], [C], 0, false)
         == Shelf(map[], [Waiting(1, 2, false)], owed)
  {
    assert Dropped(map[1 := 1, 2 := 1], 1) == map[];
    assert [C][0..] == [C] && Shelved([C], false) == [Waiting(1, 2, false)];
    assert Notes([]) == {} && owed + {} == owed;
  }

  lemma RivalSendsToOne(s: Media, f: nat, owed: set<Note>) returns (s': Media)
    requires HasWrittenTwo(s, f, owed)
    ensures Scene(s', Two(f), Leading(2, 3, 2, [C], 0, 0, SENT1), Following(3, 2, Some(2), []),
                    map[1 := [A, D], 2 := [C]])
    ensures s'.shelves[1] == Shelf(map[1 := 1, 2 := 1], [], owed) && AskAppend(2, 1, FROM2) in s'.c.messages
  {
    var s1 := RivalProposes(s, Two(f), map[1 := [A, D]]);
    RivalBatchToOne();
    s' := Sends(s1, 2, 1, Leading(2, 3, 2, [C], 0, 0, SENT1), FROM2);
    TrioUpdate(Two(f), Leading(2, 3, 2, [C], 0, 0, Anew(1, 3, 0)), Following(3, 2, Some(2), []),
               Leading(2, 3, 2, [C], 0, 0, SENT1));
  }

  /** Nothing of the present log is on node 1's disk; what it is owed it is owed still. */
  lemma Undercut(s: Media, f: nat, owed: set<Note>) returns (s': Media)
    requires HasWrittenTwo(s, f, owed)
    ensures Scene(s', CutDown(f), Leading(2, 3, 2, [C], 0, 0, SENT1), Following(3, 2, Some(2), []),
                    map[1 := [A, D], 2 := [C]])
    ensures s'.shelves[1] == Shelf(map[], [Waiting(1, 2, false)], owed)
  {
    var s0 := RivalSendsToOne(s, f, owed);
    BothLost(f);
    NothingKept(owed);
    s' := Receives(s0, AskAppend(2, 1, FROM2), CutDown(f), AppendReply(2, true, 0, 1));
    TrioUpdate(Two(f), Leading(2, 3, 2, [C], 0, 0, SENT1), Following(3, 2, Some(2), []), CutDown(f));
  }

  // ---------- in office again ----------

  /** Node 1 in term 3. */
  function Again(f: nat, log: seq<Entry>, g: Progress): Node {
    Leading(1, 2, 3, log, 0, f, g)
  }

  /** Node 2 after it voted for node 1 in term 3. */
  const GIVEN_UP := Node(2, Peers(2), Office(Follower, 3, Some(1), 3, Some(1), {}), Log(1, [C]), 0, 0, 0, 0,
                         SENT1.(inflight := map[]))

  lemma RivalGivesUp(f: nat)
    ensures HandleRequestVote(THREE, Leading(2, 3, 2, [C], 0, 0, SENT1), VoteRequest(3, 1, 1, 2), false, true)
         == (GIVEN_UP, VoteReply(3, true))
    ensures VoteRequestOf(BecomeCandidate(CutDown(f))) == VoteRequest(3, 1, 1, 2)
    ensures BecomeCandidate(CutDown(f)).office.term == 3 && Elected(CutDown(f), 2) == Again(f, [C], Anew(2, 3, 1))
  {
    PeersOf();
    var cand := BecomeCandidate(CutDown(f));
    TakesOfficeAnew(cand.(office := cand.office.(votes := {1, 2})), 2, 3);
  }

  lemma LeadsAgain(s: Media, f: nat, owed: set<Note>) returns (s': Media)
    requires HasWrittenTwo(s, f, owed)
    ensures Scene(s', Again(f, [C], Anew(2, 3, 1)), GIVEN_UP, Following(3, 2, Some(2), []),
                    map[1 := [A, D], 2 := [C], 3 := [C]])
    ensures s'.shelves[1] == Shelf(map[], [Waiting(1, 2, false)], owed)
  {
    PeersOf();
    var s0 := Undercut(s, f, owed);
    var n2, n3 := Leading(2, 3, 2, [C], 0, 0, SENT1), Following(3, 2, Some(2), []);
    RivalGivesUp(f);
    s' := Elects(s0, 1, 2, GIVEN_UP);
    TrioUpdate(CutDown(f), n2, n3, GIVEN_UP);
    TrioUpdate(CutDown(f), GIVEN_UP, n3, Again(f, [C], Anew(2, 3, 1)));
  }

  const SENT2 := Progress(map[2 := 3, 3 := 2], map[2 := 0, 3 := 0], map[2 := [Batch(2, 1)]])
  const MATCHED2 := Progress(map[2 := 3, 3 := 2], map[2 := 2, 3 := 0], map[2 := []])
  const LAST := AppendRequest(3, 1, 1, 2, [E], 0)
  const TAKEN := GIVEN_UP.(log := Log(1, [C, E]))
  const ANSWER := AppendAnswer(2, 1, AppendReply(3, true, 0, 1), LAST)

  /** Neither entry of the present log is on disk. */
  function Neither(owed: set<Note>): Shelf {
    Shelf(map[], [Waiting(1, 2, false), Waiting(2, 3, true)], owed)
  }

  lemma LastProposal(f: nat, owed: set<Note>)
    ensures Propose(Again(f, [C], Anew(2, 3, 1)), "e") == Again(f, [C, E], Anew(2, 3, 1))
    ensures Reshelved(Shelf(map[], [Waiting(1, 2, false)], owed), [C], [C, E], 1, true) == Neither(owed)
  {
    assert [C, E][1..] == [E] && Shelved([E], true) == [Waiting(2, 3, true)];
  }

  lemma LastBatch(f: nat)
    ensures SendAppendEntries(P.limits, Again(f, [C, E], Anew(2, 3, 1)), 2) == (Again(f, [C, E], SENT2), Some(LAST))
  {
    assert [C, E][1..2] == [E] && [] + [Batch(2, 1)] == [Batch(2, 1)];
    assert map[2 := 2, 3 := 2][2 := 3] == map[2 := 3, 3 := 2];
    PeersOf();
  }

  lemma LastAccepted()
    ensures HandleAppendEntries(THREE, GIVEN_UP, LAST) == (TAKEN, AppendReply(3, true, 0, 1))
  {
    assert [E][1..] == [] && TermAt(GIVEN_UP, 1) == 2 && TermAt(GIVEN_UP, 2) == 0;
    assert BeforeConflict(GIVEN_UP, [E]) == 1;
    assert AppendMissing(TAKEN, []) == (TAKEN, None) && GIVEN_UP.log.Append(3, "e") == Log(1, [C, E]);
    assert AppendMissing(GIVEN_UP, [E]) == (TAKEN, None);
  }

  lemma LastCredit(f: nat)
    ensures HandleAppendEntriesResponse(Again(f, [C, E], SENT2), 2, AppendReply(3, true, 0, 1))
         == Again(f, [C, E], MATCHED2)
  {
    assert [Batch(2, 1)][1..] == [];
    assert map[2 := 0, 3 := 0][2 := 2] == map[2 := 2, 3 := 0] && map[2 := 3, 3 := 2][2 := 3] == map[2 := 3, 3 := 2];
    assert map[2 := [Batch(2, 1)]][2 := []] == map[2 := []];
  }

  /** The last proposal, as it goes from node 1 to node 2 and back. */
  ghost predicate Replicating(s: Media, n1: Node, n2: Node, owed: set<Note>) {
    && Scene(s, n1, n2, Following(3, 2, Some(2), []), map[1 := [A, D], 2 := [C], 3 := [C, E]])
    && s.shelves[1] == Neither(owed)
  }

  lemma LastProposed(s: Media, f: nat, owed: set<Note>) returns (s': Media)
    requires HasWrittenTwo(s, f, owed)
    ensures Replicating(s', Again(f, [C, E], Anew(2, 3, 1)), GIVEN_UP, owed)
  {
    var s0 := LeadsAgain(s, f, owed);
    LastProposal(f, owed);
    s' := Proposes(s0, 1, "e", Again(f, [C, E], Anew(2, 3, 1)));
    SameKey(map[1 := [A, D], 2 := [C]], 3, [C], [C, E]);
    TrioUpdate(Again(f, [C], Anew(2, 3, 1)), GIVEN_UP, Following(3, 2, Some(2), []), Again(f, [C, E], Anew(2, 3, 1)));
  }

  lemma LastSent(s: Media, f: nat, owed: set<Note>) returns (s': Media)
    requires Replicating(s, Again(f, [C, E], Anew(2, 3, 1)), GIVEN_UP, owed)
    ensures Replicating(s', Again(f, [C, E], SENT2), GIVEN_UP, owed) && AskAppend(1, 2, LAST) in s'.c.messages
  {
    LastBatch(f);
    s' := Sends(s, 1, 2, Again(f, [C, E], SENT2), LAST);
    TrioUpdate(Again(f, [C, E], Anew(2, 3, 1)), GIVEN_UP, Following(3, 2, Some(2), []), Again(f, [C, E], SENT2));
  }

  lemma LastTaken(s: Media, f: nat, owed: set<Note>) returns (s': Media)
    requires Replicating(s, Again(f, [C, E], SENT2), GIVEN_UP, owed) && AskAppend(1, 2, LAST) in s.c.messages
    ensures Replicating(s', Again(f, [C, E], SENT2), TAKEN, owed) && ANSWER in s'.c.messages
  {
    LastAccepted();
    s' := Receives(s, AskAppend(1, 2, LAST), TAKEN, AppendReply(3, true, 0, 1));
    TrioUpdate(Again(f, [C, E], SENT2), GIVEN_UP, Following(3, 2, Some(2), []), TAKEN);
  }

  lemma LastMatched(s: Media, f: nat, owed: set<Note>) returns (s': Media)
    requires Replicating(s, Again(f, [C, E], SENT2), TAKEN, owed) && ANSWER in s.c.messages
    ensures Replicating(s', Again(f, [C, E], MATCHED2), TAKEN, owed)
  {
    LastCredit(f);
    s' := Hears(s, ANSWER, Again(f, [C, E], MATCHED2));
    TrioUpdate(Again(f, [C, E], SENT2), TAKEN, Following(3, 2, Some(2), []), Again(f, [C, E], MATCHED2));
  }

  /** From two written entries to a third, held by a majority and on no disk. */
  lemma Replaced(s: Media, f: nat, owed: set<Note>) returns (s': Media)
    requires HasWrittenTwo(s, f, owed)
    ensures Replicating(s', Again(f, [C, E], MATCHED2), TAKEN, owed)
  {
    var s1 := LastProposed(s, f, owed);
    var s2 := LastSent(s1, f, owed);
    var s3 := LastTaken(s2, f, owed);
    s' := LastMatched(s3, f, owed);
  }

  // ---------- the gate open ----------

  lemma OpenGateCommits()
    ensures TryCommit(THREE, Again(2, [C, E], MATCHED2)).commitIndex == 2
  {
    var n := Again(2, [C, E], MATCHED2);
    assert Holders(n, 2) == {1, 2};
    TwoOfThree(1, 2);
    assert CommitScan(THREE, n, 2) == 2;
  }

  /** Node 1 commits entry 2 of term 3 while its disk has nothing. */
  ghost predicate CommittedUnwritten(s: Media) {
    && Reachable(s) && Leads(s.c, 1) && 1 in s.shelves && s.c.nodes[1].commitIndex == 2
    && (exists q :: Commitment(3, 2, q) in s.c.history.committed)
    && s.shelves[1].disk == map[] && !OnShelf(s.c.nodes[1].log.entries, s.shelves[1], 2)
  }

  lemma CommitsUnwritten(s: Media, owed: set<Note>) returns (s': Media)
    requires Replicating(s, Again(2, [C, E], MATCHED2), TAKEN, owed)
    ensures CommittedUnwritten(s')
  {
    OpenGateCommits();
    s' := Commits(s, 1, 2);
  }

  /**
   * Node 1 flushed two entries, lost both to a newer leader, leads again and commits an entry of which
   * its disk has nothing: truncation left the flushed index where it was.
   */
  lemma StaleFlushedIndexOpensGate() returns (s: Media)
    ensures CommittedUnwritten(s)
  {
    var s0 := BothTold();
    var s1 := Replaced(s0, 2, {});
    s := CommitsUnwritten(s1, {});
  }

  lemma LateNews(s: Media, owed: set<Note>) returns (s': Media)
    requires Replicating(s, Again(0, [C, E], MATCHED2), TAKEN, owed) && SECOND in owed
    ensures Replicating(s', Again(2, [C, E], MATCHED2), TAKEN, owed - {SECOND})
  {
    s' := Tells(s, 1, SECOND, Again(2, [C, E], MATCHED2));
    TrioUpdate(Again(0, [C, E], MATCHED2), TAKEN, Following(3, 2, Some(2), []), Again(2, [C, E], MATCHED2));
  }

  /**
   * Node 1 wrote two entries and is owed the callbacks; its flushed index is 0, so the truncation cuts
   * nothing below it. In office again, it is told that index 2 is durable, and commits the entry there now.
   */
  lemma LateCallbackOpensGate() returns (before: Media, s: Media)
    ensures Reachable(before) && GatedAt(before, 1) && before.c.nodes[1].flushedIndex == 0
    ensures Possible(before, Tell(1, SECOND)) && Exposes(P, before, Tell(1, SECOND))
    ensures CommittedUnwritten(s)
  {
    var s0 := BothOwed();
    before := Replaced(s0, 0, {FIRST, SECOND});
    var s1 := LateNews(before, {FIRST, SECOND});
    s := CommitsUnwritten(s1, {FIRST, SECOND} - {SECOND});
  }
}
