/**
 * The cluster as a step system. Nodes run the handlers of RaftNodes over a bag of
 * messages that may be lost, repeated and reordered; membership is fixed and logs are
 * not compacted. `History` records what happened; no handler reads it.
 */
module RaftCluster {

  import opened RaftTypes
  import opened Quorums
  import opened RaftLogs
  import opened RaftNodes

  datatype Message =
    | AskVote(src: NodeId, dst: NodeId, vote: VoteRequest)
    | VoteAnswer(src: NodeId, dst: NodeId, voteReply: VoteReply, askedTerm: nat)
    | AskAppend(src: NodeId, dst: NodeId, append: AppendRequest)
    | AppendAnswer(src: NodeId, dst: NodeId, appendReply: AppendReply, asked: AppendRequest)

  datatype Ballot = Ballot(voter: NodeId, term: nat, candidate: NodeId)

  /** `TryCommitLocked` advanced to `index` in `term`, counting `quorum`. */
  datatype Commitment = Commitment(term: nat, index: nat, quorum: set<NodeId>)

  datatype Seat = Seat(node: NodeId, term: nat)

  datatype History = History(
    ballots: set<Ballot>,                      // every vote granted, also a candidate's own
    candidacies: map<Seat, seq<Entry>>,        // the log each candidate stood with
    leaderOf: map<nat, NodeId>,                // who won each term
    electors: map<nat, set<NodeId>>,           // and with whose votes
    termLog: map<nat, seq<Entry>>,             // the log of each term's leader, as far as it got
    acked: map<Seat, nat>,                     // how far a node vouched for a term's leader log
    vouched: map<NodeId, nat>,                 // vouched length still in the node's log
    committed: set<Commitment>)

  datatype Cluster = Cluster(nodes: map<NodeId, Node>, messages: set<Message>, history: History)

  datatype Params = Params(config: ClusterConfig, limits: Limits)

  datatype Step =
    | Timeout(n: NodeId)
    | ReceiveVoteRequest(m: Message, heard: bool, saved: bool)
    | ReceiveVoteReply(m: Message)
    | ClientPropose(n: NodeId, data: string)
    | SendAppend(n: NodeId, peer: NodeId)
    | SendReadHeartbeat(n: NodeId, peer: NodeId)
    | ReceiveAppend(m: Message)
    | ReceiveAppendReply(m: Message)
    | Retry(n: NodeId, peer: NodeId)
    | Persisted(n: NodeId, index: nat)
    | Commit(n: NodeId)
    | StepDown(n: NodeId, term: nat, persist: bool)
    | Crash(n: NodeId, found: seq<Entry>)

  function FreshNode(id: NodeId, peers: set<NodeId>): Node {
    Node(id, peers, Office(Follower, 0, None, 0, None, {}), Log(1, []), 0, 0, 0, 0, NO_PROGRESS)
  }

  ghost predicate Init(c: Cluster) {
    && (forall i :: i in c.nodes ==>
          c.nodes[i] == FreshNode(i, c.nodes[i].peers) && c.nodes[i].peers <= c.nodes.Keys - {i})
    && c.messages == {}
    && c.history == History({}, map[], map[], map[], map[], map[], map[], {})
  }

  predicate Leads(c: Cluster, n: NodeId) {
    n in c.nodes && c.nodes[n].office.role == Leader
  }

  predicate Enabled(c: Cluster, step: Step) {
    match step
    case Timeout(n) => n in c.nodes && c.nodes[n].office.role != Leader
    case ReceiveVoteRequest(m, _, _) => m in c.messages && m.AskVote? && m.dst in c.nodes
    case ReceiveVoteReply(m) => m in c.messages && m.VoteAnswer? && m.dst in c.nodes
    case ClientPropose(n, _) => Leads(c, n)
    case SendAppend(n, _) => Leads(c, n)
    case SendReadHeartbeat(n, peer) => Leads(c, n) && peer in c.nodes[n].progress.nextIndex && peer in c.nodes[n].peers
    case ReceiveAppend(m) => m in c.messages && m.AskAppend? && m.dst in c.nodes
    case ReceiveAppendReply(m) => m in c.messages && m.AppendAnswer? && m.dst in c.nodes
    case Retry(n, _) => Leads(c, n)
    case Persisted(n, _) => Leads(c, n)
    case Commit(n) => Leads(c, n)
    case StepDown(n, term, persist) =>
      n in c.nodes && (if persist then term >= c.nodes[n].office.term else term == c.nodes[n].office.term)
    case Crash(n, found) => n in c.nodes && OnDisk(c.history, c.nodes[n], found)
  }

  /** Each prefix that ends in an entry of term t is a prefix of what t's leader held. */
  predicate Grounded(termLog: map<nat, seq<Entry>>, log: seq<Entry>) {
    forall i :: 0 <= i < |log| ==> log[i].term in termLog && log[..i + 1] <= termLog[log[i].term]
  }

  predicate TermsUpTo(log: seq<Entry>, t: nat) {
    forall i :: 0 <= i < |log| ==> log[i].term <= t
  }

  /**
   * What a restart may find on disk: a prefix of the node's log, or of any log it had before, when
   * the truncation in between was lost. More generally, whatever leaders up to its term have held.
   */
  predicate OnDisk(h: History, n: Node, found: seq<Entry>) {
    Grounded(h.termLog, found) && TermsUpTo(found, n.office.savedTerm)
  }

  /** The cluster after node `i` became `n'` and sent `sent`. */
  function With(c: Cluster, i: NodeId, n': Node, sent: set<Message>, h': History): Cluster {
    Cluster(c.nodes[i := n'], c.messages + sent, h')
  }

  function Next(p: Params, c: Cluster, step: Step): Cluster
    requires Enabled(c, step)
  {
    match step
    case Timeout(n) => AfterTimeout(p, c, n)
    case ReceiveVoteRequest(m, heard, saved) => AfterVoteRequest(p, c, m, heard, saved)
    case ReceiveVoteReply(m) => AfterVoteReply(p, c, m)
    case ClientPropose(n, data) => AfterPropose(c, n, data)
    case SendAppend(n, peer) => AfterSend(p, c, n, peer)
    case SendReadHeartbeat(n, peer) => AfterReadHeartbeat(p, c, n, peer)
    case ReceiveAppend(m) => AfterAppend(p, c, m)
    case ReceiveAppendReply(m) => AfterAppendReply(c, m)
    case Retry(n, peer) => With(c, n, RetryFromHead(c.nodes[n], peer), {}, c.history)
    case Persisted(n, index) => With(c, n, OnLogEntryPersisted(c.nodes[n], index), {}, c.history)
    case Commit(n) => AfterCommit(p, c, n)
    case StepDown(n, term, persist) => With(c, n, BecomeFollowerImpl(c.nodes[n], term, persist), {}, c.history)
    case Crash(n, found) => With(c, n, Restart(c.nodes[n], found), {}, c.history)
  }

  // ---------- elections ----------

  function Stand(h: History, cand: Node): History {
    h.(ballots := h.ballots + {Ballot(cand.id, cand.office.term, cand.id)},
       candidacies := h.candidacies[Seat(cand.id, cand.office.term) := cand.log.entries])
  }

  /** A candidate takes office with the votes and the log it holds. */
  function Win(h: History, cand: Node): History {
    var t := cand.office.term;
    h.(leaderOf := h.leaderOf[t := cand.id], electors := h.electors[t := cand.office.votes],
       termLog := h.termLog[t := cand.log.entries])
  }

  function VoteRequestOf(cand: Node): VoteRequest {
    VoteRequest(cand.office.term, cand.id, cand.log.LastIndex(), cand.log.LastTerm())
  }

  function AfterTimeout(p: Params, c: Cluster, i: NodeId): Cluster
    requires i in c.nodes
  {
    var cand := BecomeCandidate(c.nodes[i]);
    var h := Stand(c.history, cand);
    if ElectionQuorum(p.config, cand.office.votes) then With(c, i, BecomeLeader(cand), {}, Win(h, cand))
    else With(c, i, cand, set q | q in cand.peers :: AskVote(cand.id, q, VoteRequestOf(cand)), h)
  }

  function AfterVoteRequest(p: Params, c: Cluster, m: Message, heard: bool, saved: bool): Cluster
    requires m.AskVote? && m.dst in c.nodes
  {
    var (n', reply) := HandleRequestVote(p.config, c.nodes[m.dst], m.vote, heard, saved);
    var h := c.history;
    With(c, m.dst, n', {VoteAnswer(m.dst, m.src, reply, m.vote.term)},
         if reply.granted then h.(ballots := h.ballots + {Ballot(m.dst, reply.term, m.vote.candidate)}) else h)
  }

  function AfterVoteReply(p: Params, c: Cluster, m: Message): Cluster
    requires m.VoteAnswer? && m.dst in c.nodes
  {
    var n := c.nodes[m.dst];
    var n' := HandleRequestVoteResponse(p.config, n, m.src, m.voteReply, m.askedTerm);
    With(c, m.dst, n', {},
         if n.office.role == Candidate && n'.office.role == Leader then Win(c.history, n') else c.history)
  }

  // ---------- replication ----------

  function Acked(h: History, node: NodeId, term: nat): nat {
    if Seat(node, term) in h.acked then h.acked[Seat(node, term)] else 0
  }

  function Vouched(h: History, node: NodeId): nat {
    if node in h.vouched then h.vouched[node] else 0
  }

  /** `node` vouches for the term's log up to `upTo`, having kept `retained` of its own. */
  function Vouch(h: History, node: NodeId, term: nat, upTo: nat, retained: nat): History {
    h.(acked := h.acked[Seat(node, term) := Max(Acked(h, node, term), upTo)],
       vouched := h.vouched[node := Max(Min(Vouched(h, node), retained), upTo)])
  }

  function AfterPropose(c: Cluster, i: NodeId, data: string): Cluster
    requires i in c.nodes
  {
    var n, h := c.nodes[i], c.history;
    var n' := Propose(n, data);
    With(c, i, n', {}, h.(termLog := h.termLog[n.office.term := n'.log.entries]))
  }

  function AfterSend(p: Params, c: Cluster, i: NodeId, peer: NodeId): Cluster
    requires i in c.nodes
  {
    var (n', req) := SendAppendEntries(p.limits, c.nodes[i], peer);
    With(c, i, n', if req.Some? then {AskAppend(i, peer, req.value)} else {}, c.history)
  }

  /** A ReadIndex heartbeat: the peer's send position with no entries. */
  function AfterReadHeartbeat(p: Params, c: Cluster, i: NodeId, peer: NodeId): Cluster
    requires i in c.nodes && peer in c.nodes[i].progress.nextIndex
  {
    var n := c.nodes[i];
    var req := NextRequest(p.limits, n, n.progress.nextIndex[peer]).(entries := []);
    With(c, i, n, {AskAppend(i, peer, req)}, c.history)
  }

  function AfterAppend(p: Params, c: Cluster, m: Message): Cluster
    requires m.AskAppend? && m.dst in c.nodes
  {
    var (n', reply) := HandleAppendEntries(p.config, c.nodes[m.dst], m.append);
    AppendEffect(c, m, n', reply, |CutConflict(c.nodes[m.dst], m.append.entries).log.entries|)
  }

  /** The receiver of `m` became `n'` and answers; accepting a batch vouches for it. */
  function AppendEffect(c: Cluster, m: Message, n': Node, reply: AppendReply, retained: nat): Cluster
    requires m.AskAppend? && m.dst in c.nodes
  {
    var req := m.append;
    With(c, m.dst, n', {AppendAnswer(m.dst, m.src, reply, req)},
         if reply.success && req.entries != []
         then Vouch(c.history, m.dst, req.term, req.prevIndex + |req.entries|, retained)
         else c.history)
  }

  function AfterAppendReply(c: Cluster, m: Message): Cluster
    requires m.AppendAnswer? && m.dst in c.nodes
  {
    var n := c.nodes[m.dst];
    With(c, m.dst,
         if m.asked.entries == [] then HandleHeartbeatResponse(n, m.src, m.appendReply)
         else HandleAppendEntriesResponse(n, m.src, m.appendReply),
         {}, c.history)
  }

  function AfterCommit(p: Params, c: Cluster, i: NodeId): Cluster
    requires i in c.nodes
  {
    var n := c.nodes[i];
    var n' := TryCommit(p.config, n);
    var t, index := n.office.term, n'.commitIndex;
    With(c, i, n', {},
         if index > n.commitIndex
         then Vouch(c.history, i, t, index, |n.log.entries|)
              .(committed := c.history.committed + {Commitment(t, index, Holders(n, index))})
         else c.history)
  }

  // ---------- runs ----------

  /** A finite run: states and the steps between them. */
  datatype Run = Run(states: seq<Cluster>, steps: seq<Step>)

  ghost predicate ValidRun(p: Params, run: Run) {
    && |run.states| == |run.steps| + 1
    && Init(run.states[0])
    && (forall k :: 0 <= k < |run.steps| ==>
          Enabled(run.states[k], run.steps[k]) && run.states[k + 1] == Next(p, run.states[k], run.steps[k]))
  }

  /**
   * What Leader Completeness takes on trust: a restart keeps what the node vouched for,
   * and an accepting answer fits the batch at the head of the pipeline.
   */
  predicate Trusted(c: Cluster, step: Step) {
    && (step.Crash? && step.n in c.nodes ==> KeepsOwn(c, step.n, step.found))
    && (step.ReceiveAppendReply? && step.m.AppendAnswer? && step.m.dst in c.nodes ==>
          AnswerFits(c.nodes[step.m.dst], step.m))
  }

  /** The disk still has what the node vouched for. */
  predicate KeepsOwn(c: Cluster, i: NodeId, found: seq<Entry>)
    requires i in c.nodes
  {
    var v, own := Vouched(c.history, i), c.nodes[i].log.entries;
    v <= |own| && v <= |found| && found[..v] == own[..v]
  }

  /** The credit it brings is not new, or it comes from this term and reaches as far as the batch. */
  predicate AnswerFits(n: Node, m: Message)
    requires m.AppendAnswer?
  {
    var g, batches := n.progress, n.progress.InflightTo(m.src);
    m.appendReply.success && m.asked.entries != [] && batches != [] && m.src in g.matchIndex ==>
      || batches[0].start + m.appendReply.count - 1 <= g.matchIndex[m.src]
      || (m.asked.term == n.office.term && batches[0].start <= m.asked.prevIndex + 1)
  }

  ghost predicate TrustedRun(p: Params, run: Run) {
    && ValidRun(p, run)
    && (forall k :: 0 <= k < |run.steps| ==> Trusted(run.states[k], run.steps[k]))
  }
}
