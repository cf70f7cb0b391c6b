/**
 * The node as the program keeps it: fields updated in place and loops over entries,
 * voters and peers. Every handler is tied to its function in RaftNodes.
 */
module RaftServers {

  import opened RaftTypes
  import opened Quorums
  import opened RaftLogs
  import opened RaftNodes

  // ---------- filling the pipeline, as a function ----------

  function EntriesLeft(n: Node, peer: NodeId): nat {
    if peer in n.progress.nextIndex && n.progress.nextIndex[peer] <= n.log.LastIndex()
    then n.log.LastIndex() + 1 - n.progress.nextIndex[peer] else 0
  }

  /** Keeps sending to `peer` for as long as its send position advances. */
  function Filled(limits: Limits, n: Node, peer: NodeId): (Node, seq<AppendRequest>)
    decreases EntriesLeft(n, peer)
  {
    var (n', req) := SendAppendEntries(limits, n, peer);
    var sent := if req.Some? then [req.value] else [];
    if n'.progress.nextIndex == n.progress.nextIndex then (n', sent)
    else var (n'', more) := Filled(limits, n', peer); (n'', sent + more)
  }

  /** Having sent `sent` so far, going on from `n` gives `total`. */
  predicate Completes(limits: Limits, n: Node, peer: NodeId, sent: seq<AppendRequest>, total: (Node,
                      seq<AppendRequest>)) {
    var (n', more) := Filled(limits, n, peer);
    total.0 == n' && total.1 == sent + more
  }

  lemma FilledStep(limits: Limits, n: Node, peer: NodeId, sent: seq<AppendRequest>, total: (Node, seq<AppendRequest>))
    requires Completes(limits, n, peer, sent, total)
    ensures var (n', req) := SendAppendEntries(limits, n, peer);
            var sent' := if req.Some? then sent + [req.value] else sent;
            if n'.progress.nextIndex == n.progress.nextIndex then total == (n', sent')
            else Completes(limits, n', peer, sent', total) && EntriesLeft(n', peer) < EntriesLeft(n, peer)
  {
    var (n', req) := SendAppendEntries(limits, n, peer);
    var one := if req.Some? then [req.value] else [];
    if n'.progress.nextIndex == n.progress.nextIndex {
      assert Filled(limits, n, peer) == (n', one);
    } else {
      var (n'', more) := Filled(limits, n', peer);
      assert Filled(limits, n, peer) == (n'', one + more);
      assert sent + (one + more) == (sent + one) + more;
    }
    assert sent + one == if req.Some? then sent + [req.value] else sent;
  }

  function Batches(requests: seq<AppendRequest>): seq<Entry> {
    if requests == [] then [] else requests[0].entries + Batches(requests[1..])
  }

  lemma {:induction false} BatchesOfPair(first: AppendRequest, more: seq<AppendRequest>)
    ensures Batches([first] + more) == first.entries + Batches(more)
  {
    assert ([first] + more)[1..] == more;
  }

  /**
   * Filling sends exactly the log between the old and the new send position, in order and
   * without a gap, and stops only at the end of the log or at a full window.
   */
  lemma {:induction false} FilledSendsTheGap(limits: Limits, n: Node, peer: NodeId)
    requires n.log.Contiguous() && 1 <= n.log.start && peer in n.peers
    requires peer in n.progress.nextIndex && n.log.start <= n.progress.nextIndex[peer]
    ensures var (n', sent) := Filled(limits, n, peer);
            && n' == n.(progress := n'.progress)
            && peer in n'.progress.nextIndex && n.progress.nextIndex[peer] <= n'.progress.nextIndex[peer]
            && Batches(sent) == n.log.Slice(n.progress.nextIndex[peer], n'.progress.nextIndex[peer])
            && (n'.progress.nextIndex[peer] > n.log.LastIndex()
                || InflightCount(n'.progress.InflightTo(peer)) >= limits.window)
    decreases EntriesLeft(n, peer)
  {
    var (m, req) := SendAppendEntries(limits, n, peer);
    var next := n.progress.nextIndex[peer];
    if m.progress.nextIndex != n.progress.nextIndex {
      SentSlice(limits, n, peer);
      FilledSendsTheGap(limits, m, peer);
      var (n', more) := Filled(limits, m, peer);
      BatchesOfPair(req.value, more);
      SlicesJoin(n.log, next, m.progress.nextIndex[peer], n'.progress.nextIndex[peer]);
    } else {
      NothingSent(limits, n, peer);
    }
  }

  lemma SliceToItsEnd(log: Log, from: nat, to: nat)
    requires log.start <= from
    ensures log.Slice(from, to) == log.Slice(from, from + |log.Slice(from, to)|)
  {
  }

  lemma SentBatch(limits: Limits, n: Node, peer: NodeId)
    requires peer in n.progress.nextIndex
    requires SendAppendEntries(limits, n, peer).0.progress.nextIndex != n.progress.nextIndex
    ensures var (m, req) := SendAppendEntries(limits, n, peer);
            var next := n.progress.nextIndex[peer];
            && m == n.(progress := m.progress) && req == Some(NextRequest(limits, n, next)) && n.log.start <= next
            && req.value.entries != []
            && m.progress.nextIndex == n.progress.nextIndex[peer := next + |req.value.entries|]
  {
  }

  lemma RequestIsSliceFrom(limits: Limits, n: Node, next: Position)
    requires n.log.start <= next
    ensures var entries := NextRequest(limits, n, next).entries;
            entries == n.log.Slice(next, next + |entries|)
  {
    if next <= n.log.LastIndex() {
      SliceToItsEnd(n.log, next, Min(next + limits.maxEntries, n.log.LastIndex() + 1));
    }
  }

  lemma SentSlice(limits: Limits, n: Node, peer: NodeId)
    requires peer in n.progress.nextIndex
    requires SendAppendEntries(limits, n, peer).0.progress.nextIndex != n.progress.nextIndex
    ensures var (m, req) := SendAppendEntries(limits, n, peer);
            && m == n.(progress := m.progress) && req.Some?
            && m.progress.nextIndex.Keys == n.progress.nextIndex.Keys
            && n.progress.nextIndex[peer] < m.progress.nextIndex[peer]
            && req.value.entries == n.log.Slice(n.progress.nextIndex[peer], m.progress.nextIndex[peer])
  {
    SentBatch(limits, n, peer);
    RequestIsSliceFrom(limits, n, n.progress.nextIndex[peer]);
  }

  lemma NothingSent(limits: Limits, n: Node, peer: NodeId)
    requires n.log.Contiguous() && 1 <= n.log.start && peer in n.peers
    requires peer in n.progress.nextIndex && n.log.start <= n.progress.nextIndex[peer]
    requires SendAppendEntries(limits, n, peer).0.progress.nextIndex == n.progress.nextIndex
    ensures var (m, req) := SendAppendEntries(limits, n, peer);
            && m == n && (req.Some? ==> req.value.entries == [])
            && (n.progress.nextIndex[peer] > n.log.LastIndex()
                || InflightCount(n.progress.InflightTo(peer)) >= limits.window)
  {
  }

  lemma SlicesJoin(log: Log, a: nat, b: nat, c: nat)
    requires log.start <= a <= b <= c
    ensures log.Slice(a, b) + log.Slice(b, c) == log.Slice(a, c)
  {
  }

  // ---------- the node ----------

  class RaftServer {
    const id: NodeId
    const peers: set<NodeId>
    const log: RaftLog
    var role: Role
    var currentTerm: nat
    var votedFor: Option<NodeId>
    var savedTerm: nat
    var savedVote: Option<NodeId>
    var votesReceived: set<NodeId>
    var snapshotIndex: nat
    var snapshotTerm: nat
    var commitIndex: nat
    var flushedIndex: nat
    var nextIndex: map<NodeId, Position>
    var matchIndex: map<NodeId, nat>
    var inflight: map<NodeId, seq<Batch>>

    function View(): Node
      reads this, log
    {
      Node(id, peers, Office(role, currentTerm, votedFor, savedTerm, savedVote, votesReceived), log.View(),
           snapshotIndex, snapshotTerm, commitIndex, flushedIndex, Progress(nextIndex, matchIndex, inflight))
    }

    constructor (id: NodeId, peers: set<NodeId>)
      ensures log.Valid() && fresh(log)
      ensures View() == Node(id, peers, Office(Follower, 0, None, 0, None, {}), Log(1, []), 0, 0, 0, 0, NO_PROGRESS)
    {
      this.id, this.peers := id, peers;
      log := new RaftLog();
      role, currentTerm, votedFor, savedTerm, savedVote, votesReceived := Follower, 0, None, 0, None, {};
      snapshotIndex, snapshotTerm, commitIndex, flushedIndex := 0, 0, 0, 0;
      nextIndex, matchIndex, inflight := map[], map[], map[];
    }

    function GetLogTerm(index: nat): (t: nat)
      reads this, log
      ensures t == TermAt(View(), index)
    {
      if index == 0 then 0
      else if index == snapshotIndex then snapshotTerm
      else if log.View().InRange(index) then log.entries[index - log.startIndex].term
      else 0
    }

    // ---------- elections ----------

    method BecomeFollower(term: nat, persist: bool)
      modifies this
      ensures View() == BecomeFollowerImpl(old(View()), term, persist)
    {
      role := Follower;
      if term > currentTerm {
        votedFor := None;
      }
      currentTerm := term;
      votesReceived := {};
      inflight := map[];
      if persist {
        savedTerm, savedVote := currentTerm, votedFor;
      }
    }

    /** Also tells whether the node's own vote is already a quorum. */
    method BecomeCandidate(config: ClusterConfig) returns (won: bool)
      modifies this
      ensures won == ElectionQuorum(config, RaftNodes.BecomeCandidate(old(View())).office.votes)
      ensures View() == var cand := RaftNodes.BecomeCandidate(old(View()));
                        if won then RaftNodes.BecomeLeader(cand) else cand
    {
      role, currentTerm, votedFor, votesReceived := Candidate, currentTerm + 1, Some(id), {id};
      savedTerm, savedVote := currentTerm, votedFor;
      won := QuorumSatisfied(config, votesReceived);
      if won {
        BecomeLeader();
      }
    }

    method BecomeLeader()
      modifies this
      ensures View() == RaftNodes.BecomeLeader(old(View()))
    {
      role := Leader;
      var (last, _) := log.GetLastLogInfo();
      var next: map<NodeId, Position>, matched: map<NodeId, nat> := map[], map[];
      var rest := peers;
      while rest != {}
        invariant rest <= peers && next.Keys == matched.Keys == peers - rest
        invariant forall p :: p in next ==> next[p] == last + 1
        invariant forall p :: p in matched ==> matched[p] == 0
        decreases |rest|
      {
        var p :| p in rest;
        next, matched, rest := next[p := last + 1], matched[p := 0], rest - {p};
      }
      nextIndex, matchIndex, inflight := next, matched, map[];
    }

    method HandleRequestVote(config: ClusterConfig, req: VoteRequest, heard: bool, saved: bool)
      returns (reply: VoteReply)
      modifies this
      ensures (View(), reply) == RaftNodes.HandleRequestVote(config, old(View()), req, heard, saved)
    {
      reply := VoteReply(currentTerm, false);
      if req.term > currentTerm {
        BecomeFollower(req.term, true);
        reply := VoteReply(currentTerm, false);
      }
      if req.term < currentTerm || !config.IsVoter(req.candidate) {
        return;
      }
      var (lastIndex, lastTerm) := log.GetLastLogInfo();
      var upToDate := req.lastTerm > lastTerm || (req.lastTerm == lastTerm && req.lastIndex >= lastIndex);
      if !upToDate || heard {
        return;
      }
      if votedFor == None || votedFor == Some(req.candidate) {
        votedFor := Some(req.candidate);
        if saved {
          savedTerm, savedVote := currentTerm, votedFor;
          reply := VoteReply(currentTerm, true);
        }
      }
    }

    method HandleRequestVoteResponse(config: ClusterConfig, from: NodeId, reply: VoteReply, askedTerm: nat)
      modifies this
      ensures View() == RaftNodes.HandleRequestVoteResponse(config, old(View()), from, reply, askedTerm)
    {
      if role != Candidate {
        return;
      }
      if reply.term > currentTerm {
        BecomeFollower(reply.term, true);
        return;
      }
      if askedTerm != currentTerm || reply.term < currentTerm {
        return;
      }
      if reply.granted {
        votesReceived := votesReceived + {from};
        var won := QuorumSatisfied(config, votesReceived);
        if won {
          BecomeLeader();
        }
      }
    }

    // ---------- follower side of replication ----------

    /** The first loop over the batch: cut at the first contradiction. */
    method TruncateConflict(entries: seq<Entry>)
      requires log.Valid()
      modifies log
      ensures log.Valid() && View() == CutConflict(old(View()), entries)
    {
      var i := 0;
      while i < |entries|
        invariant 0 <= i <= |entries| && log.Valid() && View() == old(View())
        invariant BeforeConflict(View(), entries) == i + BeforeConflict(View(), entries[i..])
      {
        var t := GetLogTerm(entries[i].index);
        if t != 0 && t != entries[i].term {
          log.TruncateSuffix(entries[i].index);
          return;
        }
        i := i + 1;
      }
    }

    /** The second loop: append what is missing, or name the index where a gap begins. */
    method AppendNew(entries: seq<Entry>) returns (gap: Option<nat>)
      requires log.Valid()
      modifies log
      ensures log.Valid() && (View(), gap) == AppendMissing(old(View()), entries)
    {
      var i := 0;
      while i < |entries|
        invariant 0 <= i <= |entries| && log.Valid()
        invariant AppendMissing(View(), entries[i..]) == AppendMissing(old(View()), entries)
      {
        var e := entries[i];
        var t := GetLogTerm(e.index);
        if e.index >= log.startIndex && (t == 0 || t != e.term) {
          var (last, _) := log.GetLastLogInfo();
          var expected := if last == 0 then log.startIndex else last + 1;
          if e.index != expected {
            return Some(expected);
          }
          var _ := log.Append(e.term, e.data);
        }
        assert entries[i..][1..] == entries[i + 1..];
        i := i + 1;
      }
      return None;
    }

    method HandleAppendEntries(config: ClusterConfig, req: AppendRequest) returns (reply: AppendReply)
      requires log.Valid()
      modifies this, log
      ensures log.Valid() && (View(), reply) == RaftNodes.HandleAppendEntries(config, old(View()), req)
    {
      reply := AppendReply(currentTerm, false, 0, 0);
      if !config.IsVoter(req.leader) {
        return;
      }
      if req.term > currentTerm {
        BecomeFollower(req.term, true);
        reply := AppendReply(currentTerm, false, 0, 0);
      }
      if req.term < currentTerm {
        return;
      }
      if req.prevIndex > 0 && req.prevIndex + 1 < log.startIndex {
        return reply.(conflictIndex := log.startIndex);
      }
      if req.prevIndex > 0 && GetLogTerm(req.prevIndex) != req.prevTerm {
        return reply.(conflictIndex := req.prevIndex);
      }
      if req.entries != [] {
        TruncateConflict(req.entries);
        var gap := AppendNew(req.entries);
        if gap.Some? {
          return reply.(conflictIndex := gap.value);
        }
      }
      if req.leaderCommit > commitIndex {
        var (last, _) := log.GetLastLogInfo();
        commitIndex := Min(req.leaderCommit, last);
      }
      reply := reply.(success := true, count := |req.entries|);
    }

    // ---------- leader side of replication ----------

    method Propose(data: string) returns (index: Option<nat>)
      requires log.Valid()
      modifies log
      ensures log.Valid() && View() == RaftNodes.Propose(old(View()), data)
      ensures index == if role == Leader then Some(old(log.View()).NextIndex()) else None
    {
      if role != Leader {
        return None;
      }
      var i := log.Append(currentTerm, data);
      index := Some(i);
    }

    method SendAppendEntries(limits: Limits, peer: NodeId) returns (req: Option<AppendRequest>)
      modifies this
      ensures (View(), req) == RaftNodes.SendAppendEntries(limits, old(View()), peer)
    {
      if peer !in nextIndex || nextIndex[peer] < log.startIndex {
        return None;
      }
      var next := nextIndex[peer];
      var request := BuildRequest(limits, next);
      var entries := request.entries;
      if entries != [] {
        var queued := Queued(peer);
        if queued >= limits.window {
          return None;
        }
      }
      if peer !in peers {
        return None;
      }
      if entries != [] {
        inflight := inflight[peer := (if peer in inflight then inflight[peer] else []) + [Batch(next, |entries|)]];
        nextIndex := nextIndex[peer := next + |entries|];
      }
      req := Some(request);
    }

    method BuildRequest(limits: Limits, next: Position) returns (request: AppendRequest)
      ensures request == NextRequest(limits, View(), next)
    {
      var (last, _) := log.GetLastLogInfo();
      var entries := [];
      if next <= last {
        entries := log.GetEntries(next, Min(next + limits.maxEntries, last + 1));
      }
      request := AppendRequest(currentTerm, id, next - 1, GetLogTerm(next - 1), entries, commitIndex);
    }

    method Queued(peer: NodeId) returns (count: nat)
      ensures count == InflightCount(View().progress.InflightTo(peer))
    {
      var batches := if peer in inflight then inflight[peer] else [];
      var i := |batches|;
      count := 0;
      while i > 0
        invariant 0 <= i <= |batches| && count == InflightCount(batches[i..])
      {
        i := i - 1;
        assert batches[i..][1..] == batches[i + 1..];
        count := count + batches[i].count;
      }
    }

    /** The inner loop of `BroadcastAppendEntriesLocked`. */
    method FillPipeline(limits: Limits, peer: NodeId) returns (sent: seq<AppendRequest>)
      modifies this
      ensures (View(), sent) == Filled(limits, old(View()), peer)
    {
      sent := [];
      ghost var n, total := View(), Filled(limits, View(), peer);
      assert Completes(limits, n, peer, sent, total);
      while true
        invariant n == View() && Completes(limits, n, peer, sent, total)
        decreases EntriesLeft(n, peer)
      {
        var before := nextIndex;
        var req := SendAppendEntries(limits, peer);
        FilledStep(limits, n, peer, sent, total);
        if req.Some? {
          sent := sent + [req.value];
        }
        if nextIndex == before {
          return;
        }
        n := View();
      }
    }

    /** A network failure: pop the failed batch and everything behind it. */
    method RetryFromHead(peer: NodeId)
      modifies this
      ensures View() == RaftNodes.RetryFromHead(old(View()), peer)
    {
      if peer in inflight && inflight[peer] != [] {
        nextIndex := nextIndex[peer := inflight[peer][0].start];
        inflight := inflight[peer := []];
      }
    }

    method HandleAppendEntriesResponse(from: NodeId, reply: AppendReply)
      modifies this
      ensures View() == RaftNodes.HandleAppendEntriesResponse(old(View()), from, reply)
    {
      if role != Leader || !(from in nextIndex && from in matchIndex) {
        return;
      }
      if reply.term > currentTerm {
        BecomeFollower(reply.term, true);
        return;
      }
      AnswerHead(from, reply);
    }

    /** Pops the batch at the head of the pipeline and settles the peer's progress. */
    method AnswerHead(from: NodeId, reply: AppendReply)
      requires from in nextIndex && from in matchIndex
      modifies this`nextIndex, this`matchIndex, this`inflight
      ensures Progress(nextIndex, matchIndex, inflight)
           == Answered(old(Progress(nextIndex, matchIndex, inflight)), from, reply)
    {
      if from !in inflight || inflight[from] == [] {
        if !reply.success {
          var next: nat := nextIndex[from];
          nextIndex := nextIndex[from := Max(matchIndex[from] + 1, next - 1)];
        }
        return;
      }
      var head := inflight[from][0];
      inflight := inflight[from := inflight[from][1..]];
      if reply.success {
        matchIndex := matchIndex[from := Max(matchIndex[from], head.start + reply.count - 1)];
        nextIndex := nextIndex[from := Max(nextIndex[from], matchIndex[from] + 1)];
      } else {
        inflight := inflight[from := []];
        var next: nat := if reply.conflictIndex > 0 then reply.conflictIndex else Max(1, head.start - 1);
        nextIndex := nextIndex[from := next];
        if next <= matchIndex[from] {
          matchIndex := matchIndex[from := next - 1];
        }
      }
    }

    method HandleHeartbeatResponse(from: NodeId, reply: AppendReply)
      modifies this
      ensures View() == RaftNodes.HandleHeartbeatResponse(old(View()), from, reply)
    {
      if role != Leader || !(from in nextIndex && from in matchIndex) {
        return;
      }
      if reply.term > currentTerm {
        BecomeFollower(reply.term, true);
        return;
      }
      if !reply.success {
        var (last, _) := log.GetLastLogInfo();
        if reply.conflictIndex == 0 {
          var next: nat := nextIndex[from];
          nextIndex := nextIndex[from := Max(matchIndex[from] + 1, next - 1)];
        } else if reply.conflictIndex <= last {
          nextIndex := nextIndex[from := reply.conflictIndex];
          if reply.conflictIndex <= matchIndex[from] {
            matchIndex := matchIndex[from := reply.conflictIndex - 1];
          }
        }
      }
    }

    method OnLogEntryPersisted(index: nat)
      modifies this
      ensures View() == RaftNodes.OnLogEntryPersisted(old(View()), index)
    {
      if role == Leader && index > flushedIndex {
        flushedIndex := index;
      }
    }

    // ---------- committing ----------

    method TryCommit(config: ClusterConfig)
      requires id !in matchIndex
      modifies this`commitIndex
      ensures View() == RaftNodes.TryCommit(config, old(View()))
    {
      var (last, _) := log.GetLastLogInfo();
      var index: nat := Min(last, flushedIndex);
      while index > commitIndex
        invariant View() == old(View())
        invariant CommitScan(config, View(), index) == CommitScan(config, View(), CommitCeiling(View()))
      {
        if GetLogTerm(index) != currentTerm {
          return;
        }
        var newCount, oldCount := CountHolders(config, id, matchIndex, index);
        assert {id} + Matched(matchIndex, matchIndex.Keys, index) == Holders(View(), index);
        if config.JointMajoritySatisfied(oldCount, newCount) {
          commitIndex := index;
          return;
        }
        index := index - 1;
      }
    }
  }

  function Matched(progress: map<NodeId, nat>, ids: set<NodeId>, index: nat): set<NodeId> {
    set p | p in ids && p in progress && progress[p] >= index
  }

  /** Counts the holders of `index` on each list, the leader first and then peer by peer. */
  method CountHolders(config: ClusterConfig, leader: NodeId, progress: map<NodeId, nat>, index: nat)
    returns (newCount: nat, oldCount: nat)
    requires leader !in progress
    ensures newCount == |Voters(config, {leader} + Matched(progress, progress.Keys, index))|
    ensures oldCount == |Among({leader} + Matched(progress, progress.Keys, index), config.oldNodes)|
  {
    newCount := if config.IsVoter(leader) then 1 else 0;
    oldCount := if leader in config.oldNodes then 1 else 0;
    var rest := progress.Keys;
    ghost var seen: set<NodeId> := {leader};
    CountsOfOne(config, leader);
    while rest != {}
      invariant rest <= progress.Keys && seen !! rest
      invariant seen + Matched(progress, rest, index) == {leader} + Matched(progress, progress.Keys, index)
      invariant newCount == |Voters(config, seen)| && oldCount == |Among(seen, config.oldNodes)|
      decreases |rest|
    {
      var p :| p in rest;
      if progress[p] >= index {
        if config.IsVoter(p) {
          newCount := newCount + 1;
        }
        if p in config.oldNodes {
          oldCount := oldCount + 1;
        }
        VotersAdd(config, seen, p);
        AmongAdd(seen, p, config.oldNodes);
        seen := seen + {p};
      }
      rest := rest - {p};
    }
    assert seen == seen + Matched(progress, rest, index);
  }

  lemma CountsOfOne(config: ClusterConfig, v: NodeId)
    ensures |Voters(config, {v})| == if config.IsVoter(v) then 1 else 0
    ensures |Among({v}, config.oldNodes)| == if v in config.oldNodes then 1 else 0
  {
    assert Voters(config, {v}) == if config.IsVoter(v) then {v} else {};
    assert Among({v}, config.oldNodes) == if v in config.oldNodes then {v} else {};
  }

  lemma VotersAdd(config: ClusterConfig, ids: set<NodeId>, v: NodeId)
    requires v !in ids
    ensures |Voters(config, ids + {v})| == |Voters(config, ids)| + if config.IsVoter(v) then 1 else 0
  {
    if config.IsVoter(v) {
      assert Voters(config, ids + {v}) == Voters(config, ids) + {v};
    } else {
      assert Voters(config, ids + {v}) == Voters(config, ids);
    }
  }
}
