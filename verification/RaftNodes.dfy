/**
 * What each protocol handler does to one node, as functions on values.
 * Locks, timers, metrics and callbacks are left out: a handler is one step.
 */
module RaftNodes {

  import opened RaftTypes
  import opened Quorums
  import opened RaftLogs

  /** A batch in flight to a peer (`InflightEntry`). */
  datatype Batch = Batch(start: Position, count: nat)

  /** Replication knobs (`max_pipeline_window`, `max_entries_per_append`). */
  datatype Limits = Limits(window: nat, maxEntries: Position)

  /** Role, term and vote, with the pair that SaveState last wrote. */
  datatype Office = Office(role: Role, term: nat, votedFor: Option<NodeId>,
                           savedTerm: nat, savedVote: Option<NodeId>, votes: set<NodeId>)

  /** What a leader tracks per peer. */
  datatype Progress = Progress(nextIndex: map<NodeId, Position>, matchIndex: map<NodeId, nat>,
                               inflight: map<NodeId, seq<Batch>>)
  {
    function InflightTo(peer: NodeId): seq<Batch> {
      if peer in inflight then inflight[peer] else []
    }

    predicate Tracks(peer: NodeId) {
      peer in nextIndex && peer in matchIndex
    }
  }

  const NO_PROGRESS := Progress(map[], map[], map[])

  datatype Node = Node(id: NodeId, peers: set<NodeId>, office: Office,
                       log: Log, snapshotIndex: nat, snapshotTerm: nat,
                       commitIndex: nat, flushedIndex: nat, progress: Progress)

  datatype VoteRequest = VoteRequest(term: nat, candidate: NodeId, lastIndex: nat, lastTerm: nat)
  datatype VoteReply = VoteReply(term: nat, granted: bool)
  datatype AppendRequest = AppendRequest(term: nat, leader: NodeId, prevIndex: nat, prevTerm: nat,
                                         entries: seq<Entry>, leaderCommit: nat)
  datatype AppendReply = AppendReply(term: nat, success: bool, conflictIndex: nat, count: nat)

  /** The term at an index, also at the snapshot boundary; 0 when the index is not held. */
  function TermAt(n: Node, index: nat): nat {
    if index == 0 then 0
    else if index == n.snapshotIndex then n.snapshotTerm
    else n.log.TermAt(index)
  }

  // ---------- elections ----------

  /** The vote survives a step-down within the term; only a later term clears it. */
  function Demoted(o: Office, term: nat, persist: bool): Office {
    var vote := if term > o.term then None else o.votedFor;
    if persist then Office(Follower, term, vote, term, vote, {})
    else Office(Follower, term, vote, o.savedTerm, o.savedVote, {})
  }

  function BecomeFollowerImpl(n: Node, term: nat, persist: bool): Node {
    n.(office := Demoted(n.office, term, persist), progress := n.progress.(inflight := map[]))
  }

  function BecomeFollower(n: Node, term: nat): Node {
    BecomeFollowerImpl(n, term, true)
  }

  function BecomeCandidate(n: Node): Node {
    var t := n.office.term + 1;
    n.(office := Office(Candidate, t, Some(n.id), t, Some(n.id), {n.id}))
  }

  function BecomeLeader(n: Node): Node {
    n.(office := n.office.(role := Leader),
       progress := Progress(map p | p in n.peers :: n.log.LastIndex() + 1, map p | p in n.peers :: 0, map[]))
  }

  predicate UpToDate(req: VoteRequest, log: Log) {
    req.lastTerm > log.LastTerm() || (req.lastTerm == log.LastTerm() && req.lastIndex >= log.LastIndex())
  }

  /** `heard`: a leader was in touch within the election timeout; `saved`: SaveState succeeded. */
  function HandleRequestVote(config: ClusterConfig, n: Node, req: VoteRequest, heard: bool, saved: bool)
    : (Node, VoteReply)
  {
    var m := if req.term > n.office.term then BecomeFollower(n, req.term) else n;
    var o := m.office;
    if || req.term < o.term || !config.IsVoter(req.candidate) || !UpToDate(req, m.log) || heard
       || (o.votedFor != None && o.votedFor != Some(req.candidate))
    then (m, VoteReply(o.term, false))
    else
      var v := o.(votedFor := Some(req.candidate));
      if saved then (m.(office := v.(savedTerm := v.term, savedVote := v.votedFor)), VoteReply(o.term, true))
      else (m.(office := v), VoteReply(o.term, false))
  }

  function HandleRequestVoteResponse(config: ClusterConfig, n: Node, from: NodeId, reply: VoteReply,
                                     askedTerm: nat): Node
  {
    var o := n.office;
    if o.role != Candidate then n
    else if reply.term > o.term then BecomeFollower(n, reply.term)
    else if askedTerm != o.term || reply.term < o.term || !reply.granted then n
    else
      var m := n.(office := o.(votes := o.votes + {from}));
      if ElectionQuorum(config, m.office.votes) then BecomeLeader(m) else m
  }

  // ---------- follower side of replication ----------

  /** How many leading entries pass before one contradicts the log. */
  function BeforeConflict(n: Node, entries: seq<Entry>): nat
    ensures BeforeConflict(n, entries) <= |entries|
  {
    if entries == [] then 0
    else
      var t := TermAt(n, entries[0].index);
      if t != 0 && t != entries[0].term then 0 else 1 + BeforeConflict(n, entries[1..])
  }

  function CutConflict(n: Node, entries: seq<Entry>): Node {
    var k := BeforeConflict(n, entries);
    if k == |entries| then n else n.(log := n.log.TruncateSuffix(entries[k].index))
  }

  /** Appends what is missing; the second part is `Some(expected)` when a gap stops it. */
  function AppendMissing(n: Node, entries: seq<Entry>): (Node, Option<nat>)
    decreases |entries|
  {
    if entries == [] then (n, None)
    else
      var e := entries[0];
      var t := TermAt(n, e.index);
      if e.index < n.log.start || (t != 0 && t == e.term) then AppendMissing(n, entries[1..])
      else if e.index != n.log.NextIndex() then (n, Some(n.log.NextIndex()))
      else AppendMissing(n.(log := n.log.Append(e.term, e.data)), entries[1..])
  }

  /** The replication half of the handler, once the term checks have passed. */
  function Replicate(n: Node, req: AppendRequest): (Node, AppendReply) {
    var first, term := n.log.start, n.office.term;
    if req.prevIndex > 0 && req.prevIndex + 1 < first then (n, AppendReply(term, false, first, 0))
    else if req.prevIndex > 0 && TermAt(n, req.prevIndex) != req.prevTerm then
      (n, AppendReply(term, false, req.prevIndex, 0))
    else
      var (m, gap) := AppendMissing(CutConflict(n, req.entries), req.entries);
      if gap.Some? then (m, AppendReply(term, false, gap.value, 0))
      else (FollowCommit(m, req.leaderCommit), AppendReply(term, true, 0, |req.entries|))
  }

  /** Bounded by the node's own last index, not by what the request verified. */
  function FollowCommit(n: Node, leaderCommit: nat): Node {
    if leaderCommit > n.commitIndex then n.(commitIndex := Min(leaderCommit, n.log.LastIndex())) else n
  }

  function HandleAppendEntries(config: ClusterConfig, n: Node, req: AppendRequest): (Node, AppendReply) {
    if !config.IsVoter(req.leader) then (n, AppendReply(n.office.term, false, 0, 0))
    else
      var m := if req.term > n.office.term then BecomeFollower(n, req.term) else n;
      if req.term < m.office.term then (m, AppendReply(m.office.term, false, 0, 0)) else Replicate(m, req)
  }

  // ---------- leader side of replication ----------

  function Propose(n: Node, data: string): Node {
    if n.office.role == Leader then n.(log := n.log.Append(n.office.term, data)) else n
  }

  function InflightCount(batches: seq<Batch>): nat {
    if batches == [] then 0 else batches[0].count + InflightCount(batches[1..])
  }

  /** The request for a peer at its send position, before backpressure. */
  function NextRequest(limits: Limits, n: Node, next: Position): AppendRequest {
    var last := n.log.LastIndex();
    var entries := if next <= last then n.log.Slice(next, Min(next + limits.maxEntries, last + 1)) else [];
    AppendRequest(n.office.term, n.id, next - 1, TermAt(n, next - 1), entries, n.commitIndex)
  }

  /** `None` when a snapshot is due instead, the window is full, or the peer is unknown. */
  function SendAppendEntries(limits: Limits, n: Node, peer: NodeId): (Node, Option<AppendRequest>) {
    var g := n.progress;
    if peer !in g.nextIndex || peer !in n.peers || g.nextIndex[peer] < n.log.start then (n, None)
    else
      var next := g.nextIndex[peer];
      var req := NextRequest(limits, n, next);
      if req.entries == [] then (n, Some(req))
      else if InflightCount(g.InflightTo(peer)) >= limits.window then (n, None)
      else
        var g' := g.(nextIndex := g.nextIndex[peer := next + |req.entries|],
                     inflight := g.inflight[peer := g.InflightTo(peer) + [Batch(next, |req.entries|)]]);
        (n.(progress := g'), Some(req))
  }

  /** A network failure: resend from the oldest unanswered batch. */
  function RetryFromHead(n: Node, peer: NodeId): Node {
    var g := n.progress;
    var batches := g.InflightTo(peer);
    if batches == [] then n
    else n.(progress := g.(nextIndex := g.nextIndex[peer := batches[0].start],
                           inflight := g.inflight[peer := []]))
  }

  /** Everyone known to hold `index`: the leader and the peers matched that far. */
  function Holders(n: Node, index: nat): set<NodeId> {
    var matched := n.progress.matchIndex;
    {n.id} + set p | p in matched && matched[p] >= index
  }

  /** The descending scan of `TryCommitLocked`, from `index` down. */
  function CommitScan(config: ClusterConfig, n: Node, index: nat): nat {
    if index <= n.commitIndex || TermAt(n, index) != n.office.term then n.commitIndex
    else if CommitQuorum(config, Holders(n, index)) then index
    else CommitScan(config, n, index - 1)
  }

  function CommitCeiling(n: Node): nat {
    Min(n.log.LastIndex(), n.flushedIndex)
  }

  function TryCommit(config: ClusterConfig, n: Node): Node {
    n.(commitIndex := CommitScan(config, n, CommitCeiling(n)))
  }

  /** The persist callback of an accepted proposal. */
  function OnLogEntryPersisted(n: Node, index: nat): Node {
    if n.office.role == Leader then n.(flushedIndex := Max(n.flushedIndex, index)) else n
  }

  /** Progress bookkeeping for the answer to a batch; the caller then tries to commit. */
  function HandleAppendEntriesResponse(n: Node, from: NodeId, reply: AppendReply): Node {
    if n.office.role != Leader || !n.progress.Tracks(from) then n
    else if reply.term > n.office.term then BecomeFollower(n, reply.term)
    else n.(progress := Answered(n.progress, from, reply))
  }

  function Answered(g: Progress, from: NodeId, reply: AppendReply): Progress
    requires g.Tracks(from)
  {
    var batches := g.InflightTo(from);
    if batches == [] then if reply.success then g else BackOff(g, from)
    else if reply.success then
      var matched := Max(g.matchIndex[from], batches[0].start + reply.count - 1);
      Progress(g.nextIndex[from := Max(g.nextIndex[from], matched + 1)],
               g.matchIndex[from := matched],
               g.inflight[from := batches[1..]])
    else
      var next: Position := if reply.conflictIndex > 0 then reply.conflictIndex else Max(1, batches[0].start - 1);
      Rewind(g.(inflight := g.inflight[from := []]), from, next)
  }

  /** A stale failure backs off by one, never below acknowledged progress. */
  function BackOff(g: Progress, from: NodeId): Progress
    requires g.Tracks(from)
  {
    var next: nat := g.nextIndex[from];
    g.(nextIndex := g.nextIndex[from := Max(g.matchIndex[from] + 1, next - 1)])
  }

  /** Restart sending at `next`, forgetting any match at or beyond it. */
  function Rewind(g: Progress, from: NodeId, next: Position): Progress
    requires g.Tracks(from)
  {
    g.(nextIndex := g.nextIndex[from := next],
       matchIndex := g.matchIndex[from := Min(g.matchIndex[from], next - 1)])
  }

  function HandleHeartbeatResponse(n: Node, from: NodeId, reply: AppendReply): Node {
    if n.office.role != Leader || !n.progress.Tracks(from) then n
    else if reply.term > n.office.term then BecomeFollower(n, reply.term)
    else if reply.success then n
    else if reply.conflictIndex == 0 then n.(progress := BackOff(n.progress, from))
    else if reply.conflictIndex > n.log.LastIndex() then n     // a snapshot is sent instead
    else n.(progress := Rewind(n.progress, from, reply.conflictIndex))
  }

  /** Restart: the saved term and vote, the log found on disk, nothing volatile. */
  function Restart(n: Node, found: seq<Entry>): Node {
    var o, log := n.office, Log(n.log.start, found);
    Node(n.id, n.peers, Office(Follower, o.savedTerm, o.savedVote, o.savedTerm, o.savedVote, {}),
         log, n.snapshotIndex, n.snapshotTerm, n.snapshotIndex, log.LastIndex(), NO_PROGRESS)
  }

  // ---------- the commit scan ----------

  /** An index this node may commit now. */
  predicate Committable(config: ClusterConfig, n: Node, index: nat) {
    && n.commitIndex < index <= CommitCeiling(n)
    && TermAt(n, index) == n.office.term
    && CommitQuorum(config, Holders(n, index))
  }

  /** Terms never fall along the held log and never pass the node's own. */
  predicate TermsAscend(n: Node) {
    && (forall i, j :: n.commitIndex < i <= j <= n.log.LastIndex() ==> TermAt(n, i) <= TermAt(n, j))
    && (forall i :: n.commitIndex < i <= n.log.LastIndex() ==> TermAt(n, i) <= n.office.term)
  }

  /** With ascending terms, leaving the scan at the first older term loses nothing. */
  lemma {:induction false} CommitScanFindsLargest(config: ClusterConfig, n: Node, index: nat)
    requires TermsAscend(n) && index <= CommitCeiling(n)
    requires forall j: nat :: Committable(config, n, j) ==> j <= index
    ensures var r := CommitScan(config, n, index);
            && (r == n.commitIndex || Committable(config, n, r))
            && (forall j: nat :: Committable(config, n, j) ==> j <= r)
    decreases index
  {
    if index > n.commitIndex {
      if TermAt(n, index) != n.office.term {
        assert TermAt(n, index) < n.office.term;
        assert forall j: nat :: n.commitIndex < j <= index ==> TermAt(n, j) <= TermAt(n, index);
      } else if !CommitQuorum(config, Holders(n, index)) {
        CommitScanFindsLargest(config, n, index - 1);
      }
    }
  }

  /** The commit index becomes the largest committable index, or stays when there is none. */
  lemma TryCommitPicksLargest(config: ClusterConfig, n: Node)
    requires TermsAscend(n)
    ensures var r := TryCommit(config, n).commitIndex;
            && r >= n.commitIndex
            && (r > n.commitIndex ==> Committable(config, n, r))
            && (forall j: nat :: Committable(config, n, j) ==> j <= r)
  {
    CommitScanFindsLargest(config, n, CommitCeiling(n));
  }

  /** Without ascending terms the early exit can miss a committable index. */
  lemma EarlyExitNeedsAscendingTerms()
    ensures exists config, n ::
              Committable(config, n, 1) && !TermsAscend(n) && TryCommit(config, n).commitIndex == 0
  {
    var config := ClusterConfig([0], [], [], 1, false);
    var log := Log(1, [Entry(1, 2, ""), Entry(2, 1, "")]);
    var n := Node(0, {}, Office(Leader, 2, Some(0), 2, Some(0), {0}), log, 0, 0, 0, 2, NO_PROGRESS);
    assert 0 in Voters(config, Holders(n, 1));
    assert Voters(config, Holders(n, 1)) == {0};
    assert Committable(config, n, 1);
    assert TermAt(n, 1) > TermAt(n, 2);
    assert CommitScan(config, n, 2) == 0;
  }
}
