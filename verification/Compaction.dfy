/**
 * Compaction replaces a prefix of the log by a snapshot. A compacted node should behave as it
 * would with its whole log; where it does not, the exact condition is given.
 */
module Compaction {

  import opened RaftTypes
  import opened Quorums
  import opened RaftLogs
  import opened RaftNodes
  import opened ElectionSafety

  /** The log goes on where the snapshot ends and reaches at least to `s`. */
  predicate Reaches(n: Node, s: nat) {
    && n.log.Contiguous() && n.log.start == n.snapshotIndex + 1
    && n.snapshotIndex <= s < n.log.start + |n.log.entries|
  }

  /** The same node with everything up to `s` in its snapshot. */
  function Compacted(n: Node, s: nat): Node
    requires Reaches(n, s)
  {
    n.(log := Log(s + 1, n.log.entries[s - n.snapshotIndex..]), snapshotIndex := s,
       snapshotTerm := if s == n.snapshotIndex then n.snapshotTerm else n.log.entries[s - n.log.start].term)
  }

  /** Compacting twice is compacting once, at the later index. */
  lemma CompactedTwice(n: Node, s: nat, t: nat)
    requires Reaches(n, s) && s <= t && Reaches(n, t)
    ensures Reaches(Compacted(n, s), t) && Compacted(Compacted(n, s), t) == Compacted(n, t)
  {
    var c := Compacted(n, s);
    assert c.log.entries[t - s..] == n.log.entries[t - n.snapshotIndex..];
  }

  /** Terms survive from the boundary on; below it nothing is held. */
  lemma TermsSurvive(n: Node, s: nat, i: nat)
    requires Reaches(n, s)
    ensures Reaches(Compacted(n, s), s)
    ensures TermAt(Compacted(n, s), i) == if 0 < i < s then 0 else TermAt(n, i)
    ensures Compacted(n, s).log.NextIndex() == n.log.NextIndex() == n.log.start + |n.log.entries|
    ensures Compacted(n, s).log.LastIndex() == if s + 1 == n.log.NextIndex() then 0 else n.log.LastIndex()
  {
    var c := Compacted(n, s);
    assert c.log.Contiguous();
  }

  // ---------- the follower's side ----------

  /** What the entries say about indices up to `s` is what the node has there. */
  predicate Fits(n: Node, s: nat, entries: seq<Entry>) {
    forall k :: 0 <= k < |entries| ==>
      && 1 <= entries[k].index
      && (n.snapshotIndex <= entries[k].index <= s ==> entries[k].term == TermAt(n, entries[k].index) >= 1)
  }

  lemma {:induction false} SameConflict(n: Node, s: nat, entries: seq<Entry>)
    requires Reaches(n, s) && Fits(n, s, entries)
    ensures var k := BeforeConflict(n, entries);
            BeforeConflict(Compacted(n, s), entries) == k && (k < |entries| ==> entries[k].index > s)
    decreases |entries|
  {
    if entries != [] {
      TermsSurvive(n, s, entries[0].index);
      assert Fits(n, s, entries[1..]);
      SameConflict(n, s, entries[1..]);
    }
  }

  lemma TruncatedCompacts(n: Node, s: nat, from: nat)
    requires Reaches(n, s) && s < from
    ensures var m := n.(log := n.log.TruncateSuffix(from));
            && Reaches(m, s) && Compacted(m, s) == Compacted(n, s).(log := Compacted(n, s).log.TruncateSuffix(from))
            && (forall i: nat :: i <= s ==> TermAt(m, i) == TermAt(n, i))
  {
    var m, c, d := n.(log := n.log.TruncateSuffix(from)), Compacted(n, s), s - n.snapshotIndex;
    var size := Min(|n.log.entries|, from - n.log.start);
    assert m.log.entries == n.log.entries[..size];
    assert c.log.TruncateSuffix(from).entries == n.log.entries[d..size];
    assert m.log.entries[d..] == n.log.entries[d..size];
  }

  lemma AppendedCompacts(n: Node, s: nat, term: nat, data: string)
    requires Reaches(n, s)
    ensures var m := n.(log := n.log.Append(term, data));
            && Reaches(m, s) && m.log.LastIndex() == n.log.NextIndex()
            && Compacted(m, s) == Compacted(n, s).(log := Compacted(n, s).log.Append(term, data))
  {
    TermsSurvive(n, s, s);
    var m, d := n.(log := n.log.Append(term, data)), s - n.snapshotIndex;
    assert m.log.entries[d..] == n.log.entries[d..] + [m.log.entries[|n.log.entries|]];
  }

  lemma AppendedFits(n: Node, s: nat, term: nat, data: string, entries: seq<Entry>)
    requires Reaches(n, s) && Fits(n, s, entries)
    ensures Fits(n.(log := n.log.Append(term, data)), s, entries)
  {
    assert forall i: nat :: i <= s ==> TermAt(n.(log := n.log.Append(term, data)), i) == TermAt(n, i);
  }

  /** Only entries beyond `s` can be in conflict, so the cut spares the boundary. */
  lemma CutCommutes(n: Node, s: nat, entries: seq<Entry>)
    requires Reaches(n, s) && Fits(n, s, entries)
    ensures var m := CutConflict(n, entries);
            Reaches(m, s) && Fits(m, s, entries) && CutConflict(Compacted(n, s), entries) == Compacted(m, s)
  {
    SameConflict(n, s, entries);
    var k := BeforeConflict(n, entries);
    if k < |entries| {
      TruncatedCompacts(n, s, entries[k].index);
    }
  }

  lemma {:induction false} AppendCommutes(n: Node, s: nat, entries: seq<Entry>)
    requires Reaches(n, s) && Fits(n, s, entries)
    ensures var (m, gap) := AppendMissing(n, entries);
            Reaches(m, s) && AppendMissing(Compacted(n, s), entries) == (Compacted(m, s), gap)
    decreases |entries|
  {
    if entries != [] {
      var e, rest := entries[0], entries[1..];
      assert Fits(n, s, rest);
      TermsSurvive(n, s, e.index);
      var t := TermAt(n, e.index);
      if e.index < n.log.start || (t != 0 && t == e.term) {
        AppendCommutes(n, s, rest);
      } else if e.index == n.log.NextIndex() {
        AppendedCompacts(n, s, e.term, e.data);
        AppendedFits(n, s, e.term, e.data, rest);
        AppendCommutes(n.(log := n.log.Append(e.term, e.data)), s, rest);
      }
    }
  }

  /** How far the log reaches afterwards: never less, and past every entry that was taken. */
  lemma {:induction false} AppendReaches(n: Node, s: nat, entries: seq<Entry>)
    requires Reaches(n, s) && Fits(n, s, entries)
    ensures var (m, gap) := AppendMissing(n, entries);
            && m.log.start == n.log.start && |m.log.entries| >= |n.log.entries|
            && (gap == None ==> forall k :: 0 <= k < |entries| ==> entries[k].index < m.log.start + |m.log.entries|)
            && ((forall k :: 0 <= k < |entries| ==> entries[k].index <= s) ==> m == n)
    decreases |entries|
  {
    if entries != [] {
      var e, rest := entries[0], entries[1..];
      assert Fits(n, s, rest);
      TermsSurvive(n, s, e.index);
      var t := TermAt(n, e.index);
      if e.index < n.log.start || (t != 0 && t == e.term) {
        AppendReaches(n, s, rest);
      } else if e.index == n.log.NextIndex() {
        AppendedCompacts(n, s, e.term, e.data);
        AppendedFits(n, s, e.term, e.data, rest);
        AppendReaches(n.(log := n.log.Append(e.term, e.data)), s, rest);
      }
      assert AppendMissing(n, entries).1 == None ==> e.index < n.log.start + |AppendMissing(n, entries).0.log.entries|;
    }
  }

  /** The request starts at the boundary or beyond, or at the very beginning and agrees with the node up to `s`. */
  predicate Addressed(n: Node, s: nat, req: AppendRequest) {
    && (req.prevIndex == 0 || s <= req.prevIndex)
    && (forall k :: 0 <= k < |req.entries| ==> req.entries[k].index == req.prevIndex + 1 + k)
    && Fits(n, s, req.entries)
  }

  /** The whole log ends at `s`, so compaction empties it, and the request raises the commit index but adds nothing. */
  predicate Bared(n: Node, s: nat, req: AppendRequest) {
    && n.snapshotIndex < s && s + 1 == n.log.NextIndex() && req.prevIndex + |req.entries| <= Max(s, req.prevIndex)
    && n.commitIndex < req.leaderCommit
  }

  /** After replication the log ends at `s` exactly when it did before and the request went no further. */
  lemma StillEndsIff(n: Node, s: nat, req: AppendRequest)
    requires Reaches(n, s) && Addressed(n, s, req)
    requires AppendMissing(CutConflict(n, req.entries), req.entries).1 == None
    ensures var m := AppendMissing(CutConflict(n, req.entries), req.entries).0;
            s + 1 == m.log.start + |m.log.entries| <==>
            s + 1 == n.log.NextIndex() && req.prevIndex + |req.entries| <= Max(s, req.prevIndex)
  {
    var entries := req.entries;
    CutCommutes(n, s, entries);
    SameConflict(n, s, entries);
    AppendReaches(CutConflict(n, entries), s, entries);
    TermsSurvive(n, s, s);
    var k := BeforeConflict(n, entries);
    if entries != [] {
      assert entries[|entries| - 1].index == req.prevIndex + |entries|;
    }
  }

  lemma CommitIndexAside(n: Node, s: nat, commit: nat)
    requires Reaches(n, s)
    ensures Reaches(n.(commitIndex := commit), s)
    ensures Compacted(n.(commitIndex := commit), s) == Compacted(n, s).(commitIndex := commit)
  {
  }

  lemma CommitCommutes(n: Node, s: nat, leaderCommit: nat)
    requires Reaches(n, s)
    ensures var n', c' := FollowCommit(n, leaderCommit), FollowCommit(Compacted(n, s), leaderCommit);
            var bare := n.snapshotIndex < s && s + 1 == n.log.start + |n.log.entries| && n.commitIndex < leaderCommit;
            && Reaches(n', s) && c' == Compacted(n', s).(commitIndex := if bare then 0 else n'.commitIndex)
            && (bare ==> n'.commitIndex > 0)
  {
    TermsSurvive(n, s, s);
    if leaderCommit > n.commitIndex {
      CommitIndexAside(n, s, Min(leaderCommit, n.log.LastIndex()));
      assert n.log.entries != [] ==> n.log.LastIndex() == n.log.start + |n.log.entries| - 1;
    }
  }

  lemma ReplicateCommutes(n: Node, s: nat, req: AppendRequest)
    requires Reaches(n, s) && Addressed(n, s, req)
    ensures var (n', reply) := Replicate(n, req);
            var (c', answer) := Replicate(Compacted(n, s), req);
            && answer == reply && Reaches(n', s) && c' == Compacted(n', s).(commitIndex := c'.commitIndex)
            && (c'.commitIndex == n'.commitIndex <==> !(reply.success && Bared(n, s, req)))
            && (reply.success && Bared(n, s, req) ==> c'.commitIndex == 0)
  {
    TermsSurvive(n, s, req.prevIndex);
    if req.prevIndex == 0 || TermAt(n, req.prevIndex) == req.prevTerm {
      MergeCommutes(n, s, req);
    }
  }

  lemma MergeCommutes(n: Node, s: nat, req: AppendRequest)
    requires Reaches(n, s) && Addressed(n, s, req)
    ensures var (m, gap) := AppendMissing(CutConflict(n, req.entries), req.entries);
            var (d, hole) := AppendMissing(CutConflict(Compacted(n, s), req.entries), req.entries);
            && Reaches(m, s) && d == Compacted(m, s) && hole == gap && m == n.(log := m.log)
            && (gap == None ==>
                  var n', c' := FollowCommit(m, req.leaderCommit), FollowCommit(d, req.leaderCommit);
                  && Reaches(n', s)
                  && c' == Compacted(n', s).(commitIndex := if Bared(n, s, req) then 0 else n'.commitIndex)
                  && (Bared(n, s, req) ==> n'.commitIndex > 0))
  {
    CutCommutes(n, s, req.entries);
    AppendCommutes(CutConflict(n, req.entries), s, req.entries);
    AppendMissingOnlyLog(CutConflict(n, req.entries), req.entries);
    var (m, gap) := AppendMissing(CutConflict(n, req.entries), req.entries);
    if gap == None {
      StillEndsIff(n, s, req);
      CommitCommutes(m, s, req.leaderCommit);
    }
  }

  /**
   * A request from the boundary on, or from the beginning, gets the answer it would get from the
   * whole log and leaves the compaction of what it would leave there. The commit index agrees
   * too, unless the compacted log is empty and stays empty: then it falls to 0.
   */
  lemma CompactionCommutes(config: ClusterConfig, n: Node, s: nat, req: AppendRequest)
    requires Reaches(n, s) && Addressed(n, s, req)
    ensures var (n', reply) := HandleAppendEntries(config, n, req);
            var (c', answer) := HandleAppendEntries(config, Compacted(n, s), req);
            && answer == reply && Reaches(n', s) && c' == Compacted(n', s).(commitIndex := c'.commitIndex)
            && (c'.commitIndex == n'.commitIndex <==> !(reply.success && Bared(n, s, req)))
            && (reply.success && Bared(n, s, req) ==> c'.commitIndex == 0)
  {
    if config.IsVoter(req.leader) && req.term >= n.office.term {
      var m := if req.term > n.office.term then BecomeFollower(n, req.term) else n;
      assert Fits(m, s, req.entries);
      ReplicateCommutes(m, s, req);
    }
  }

  /** Inside the snapshot the request is refused, nothing changes, and the answer names the first index held. */
  lemma InsideSnapshotRefused(config: ClusterConfig, n: Node, s: nat, req: AppendRequest)
    requires Reaches(n, s) && 0 < req.prevIndex < s && config.IsVoter(req.leader) && req.term >= n.office.term
    ensures var (c', answer) := HandleAppendEntries(config, Compacted(n, s), req);
            && answer == AppendReply(req.term, false, s + 1, 0)
            && c' == if req.term > n.office.term then BecomeFollower(Compacted(n, s), req.term) else Compacted(n, s)
  {
  }

  // ---------- sending, voting and committing ----------

  /** Compaction at `s` leaves no entry behind. */
  predicate Emptied(n: Node, s: nat) {
    n.snapshotIndex < s && s + 1 == n.log.start + |n.log.entries|
  }

  lemma SliceSurvives(log: Log, d: nat, from: nat, to: nat)
    requires d <= |log.entries| && log.start + d <= from
    ensures Log(log.start + d, log.entries[d..]).Slice(from, to) == log.Slice(from, to)
  {
    var hi := Min(to, log.start + |log.entries|);
    if from < hi {
      assert log.entries[d..][from - log.start - d..hi - log.start - d]
          == log.entries[from - log.start..hi - log.start];
    }
  }

  lemma RequestSurvives(limits: Limits, n: Node, s: nat, next: Position)
    requires Reaches(n, s) && s < next
    ensures NextRequest(limits, Compacted(n, s), next) == NextRequest(limits, n, next)
  {
    TermsSurvive(n, s, next - 1);
    var last := n.log.LastIndex();
    if next <= last {
      assert Compacted(n, s).log.LastIndex() == last;
      SliceSurvives(n.log, s - n.snapshotIndex, next, Min(next + limits.maxEntries, last + 1));
    }
  }

  /** A leader sends a peer beyond the boundary what it would have sent; inside the snapshot it sends no entries. */
  lemma SendingCommutes(limits: Limits, n: Node, s: nat, peer: NodeId)
    requires Reaches(n, s)
    ensures var (n', req) := SendAppendEntries(limits, n, peer);
            SendAppendEntries(limits, Compacted(n, s), peer) ==
            if peer in n.progress.nextIndex && n.progress.nextIndex[peer] <= s then (Compacted(n, s), None)
            else (Compacted(n', s), req)
  {
    if peer in n.progress.nextIndex && n.progress.nextIndex[peer] > s {
      RequestSurvives(limits, n, s, n.progress.nextIndex[peer]);
    }
  }

  /** An empty log counts as behind every candidate, whatever its snapshot covers. */
  lemma UpToDateWithCompacted(n: Node, s: nat, req: VoteRequest)
    requires Reaches(n, s)
    ensures UpToDate(req, Compacted(n, s).log) <==> Emptied(n, s) || UpToDate(req, n.log)
  {
    TermsSurvive(n, s, s);
    var rest := n.log.entries[s - n.snapshotIndex..];
    assert rest != [] ==> rest[|rest| - 1] == n.log.entries[|n.log.entries| - 1];
  }

  /** Nothing but the candidate's log could make the node refuse. */
  predicate WouldVote(config: ClusterConfig, n: Node, req: VoteRequest, heard: bool, saved: bool) {
    var o := n.office;
    && req.term >= o.term && config.IsVoter(req.candidate) && !heard
    && (req.term > o.term || o.votedFor == None || (o.votedFor == Some(req.candidate) && saved))
  }

  /**
   * A compacted node votes as it would with its whole log, except that an emptied log also votes
   * for a candidate that lacks what the snapshot covers.
   */
  lemma VoteCommutesIff(config: ClusterConfig, n: Node, s: nat, req: VoteRequest, heard: bool, saved: bool)
    requires Reaches(n, s)
    ensures var (n', reply) := HandleRequestVote(config, n, req, heard, saved);
            && Reaches(n', s)
            && (HandleRequestVote(config, Compacted(n, s), req, heard, saved) == (Compacted(n', s), reply) <==>
                !(Emptied(n, s) && !UpToDate(req, n.log) && WouldVote(config, n, req, heard, saved)))
  {
    UpToDateWithCompacted(n, s, req);
  }

  lemma {:induction false} ScanCommutes(config: ClusterConfig, n: Node, s: nat, index: nat)
    requires Reaches(n, s) && s <= n.commitIndex
    ensures CommitScan(config, Compacted(n, s), index) == CommitScan(config, n, index)
    decreases index
  {
    TermsSurvive(n, s, index);
    if index > n.commitIndex && TermAt(n, index) == n.office.term && !CommitQuorum(config, Holders(n, index)) {
      assert Holders(Compacted(n, s), index) == Holders(n, index);
      ScanCommutes(config, n, s, index - 1);
    }
  }

  /** Compacting what is committed changes nothing about what a leader commits next. */
  lemma CommittingCommutes(config: ClusterConfig, n: Node, s: nat)
    requires Reaches(n, s) && s <= n.commitIndex
    ensures var n' := TryCommit(config, n);
            Reaches(n', s) && TryCommit(config, Compacted(n, s)) == Compacted(n', s)
  {
    var c := Compacted(n, s);
    TermsSurvive(n, s, s);
    ScanCommutes(config, n, s, CommitCeiling(n));
    assert CommitScan(config, c, CommitCeiling(c)) == CommitScan(config, n, CommitCeiling(n));
    CommitIndexAside(n, s, TryCommit(config, n).commitIndex);
  }

  /** A new leader places its peers after its log; with an emptied log that is the very beginning. */
  lemma LeadingCommutesIff(limits: Limits, n: Node, s: nat)
    requires Reaches(n, s)
    ensures var n' := BecomeLeader(n);
            && Reaches(n', s)
            && (BecomeLeader(Compacted(n, s)) == Compacted(n', s) <==> !Emptied(n, s) || n.peers == {})
            && (forall q :: q in n.peers && Emptied(n, s) ==>
                  SendAppendEntries(limits, BecomeLeader(Compacted(n, s)), q).1 == None)
  {
    TermsSurvive(n, s, s);
    var a, b := BecomeLeader(n).progress.nextIndex, BecomeLeader(Compacted(n, s)).progress.nextIndex;
    if q :| q in n.peers {
      assert q in a && q in b;
    } else {
      assert a == b;
    }
  }
}
