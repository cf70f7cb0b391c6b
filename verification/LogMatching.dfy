/** Logs that share an entry share everything before it, over every run. */
module LogMatching {

  import opened RaftTypes
  import opened Quorums
  import opened RaftLogs
  import opened RaftNodes
  import opened RaftCluster
  import opened ElectionSafety

  predicate WellFormed(log: seq<Entry>) {
    && (forall i :: 0 <= i < |log| ==> log[i].index == i + 1)
    && (forall i :: 0 <= i < |log| ==> 1 <= log[i].term)
    && (forall i, j :: 0 <= i <= j < |log| ==> log[i].term <= log[j].term)
  }

  predicate LeaderLogOk(termLog: map<nat, seq<Entry>>, t: nat, log: seq<Entry>) {
    WellFormed(log) && TermsUpTo(log, t) && Grounded(termLog, log)
  }

  predicate LeaderLogsOk(h: History) {
    forall t :: t in h.termLog ==> LeaderLogOk(h.termLog, t, h.termLog[t])
  }

  predicate NodeLogOk(h: History, n: Node) {
    && n.log.start == 1 && n.snapshotIndex == 0
    && Grounded(h.termLog, n.log.entries) && TermsUpTo(n.log.entries, n.office.term)
    && (n.office.role == Leader ==> n.office.term in h.termLog && n.log.entries == h.termLog[n.office.term])
  }

  predicate NodeLogsOk(c: Cluster) {
    forall i :: i in c.nodes ==> NodeLogOk(c.history, c.nodes[i])
  }

  /** A request with entries carries a slice of its leader's log. */
  predicate SliceOk(log: seq<Entry>, req: AppendRequest) {
    req.entries != [] ==>
      && req.prevIndex + |req.entries| <= |log|
      && req.entries == log[req.prevIndex..req.prevIndex + |req.entries|]
      && (req.prevIndex > 0 ==> req.prevTerm == log[req.prevIndex - 1].term)
  }

  predicate AppendMessageOk(h: History, m: Message) {
    m.AskAppend? ==>
      && m.src != m.dst && m.append.leader == m.src
      && m.append.term in h.leaderOf && h.leaderOf[m.append.term] == m.src
      && m.append.term in h.termLog && SliceOk(h.termLog[m.append.term], m.append)
  }

  predicate AppendMessagesOk(c: Cluster) {
    forall m :: m in c.messages ==> AppendMessageOk(c.history, m)
  }

  predicate LogInv(c: Cluster) {
    LeaderLogsOk(c.history) && NodeLogsOk(c) && AppendMessagesOk(c)
  }

  // ---------- what groundedness gives ----------

  /** Log Matching for two grounded logs. */
  lemma GroundedLogsMatch(termLog: map<nat, seq<Entry>>, a: seq<Entry>, b: seq<Entry>, i: nat)
    requires Grounded(termLog, a) && Grounded(termLog, b)
    requires i < |a| && i < |b| && a[i].term == b[i].term
    ensures a[..i + 1] == b[..i + 1]
  {
    assert a[..i + 1] <= termLog[a[i].term] && b[..i + 1] <= termLog[a[i].term];
  }

  lemma GroundedPrefix(termLog: map<nat, seq<Entry>>, log: seq<Entry>, k: nat)
    requires Grounded(termLog, log) && k <= |log|
    ensures Grounded(termLog, log[..k])
  {
    forall i | 0 <= i < k ensures log[..k][i].term in termLog && log[..k][..i + 1] <= termLog[log[..k][i].term] {
      assert log[..k][..i + 1] == log[..i + 1];
    }
  }

  /** A grounded log is a prefix of the leader log of its last term, hence as well formed. */
  lemma GroundedWellFormed(h: History, log: seq<Entry>)
    requires LeaderLogsOk(h) && Grounded(h.termLog, log)
    ensures WellFormed(log)
    ensures log != [] ==> var t := log[|log| - 1].term; t in h.termLog && log <= h.termLog[t]
  {
    if log != [] {
      assert log[..|log| - 1 + 1] == log;
      assert log <= h.termLog[log[|log| - 1].term];
      assert LeaderLogOk(h.termLog, log[|log| - 1].term, h.termLog[log[|log| - 1].term]);
    }
  }

  /** Growing leader logs keep grounded logs grounded. */
  predicate Grows(termLog: map<nat, seq<Entry>>, termLog': map<nat, seq<Entry>>) {
    forall t :: t in termLog ==> t in termLog' && termLog[t] <= termLog'[t]
  }

  lemma GroundedGrows(termLog: map<nat, seq<Entry>>, termLog': map<nat, seq<Entry>>, log: seq<Entry>)
    requires Grounded(termLog, log) && Grows(termLog, termLog')
    ensures Grounded(termLog', log)
  {
  }

  // ---------- the follower's merge ----------

  /** Wherever the terms coincide, the logs coincide up to there. */
  predicate Matching(a: seq<Entry>, b: seq<Entry>) {
    forall i :: 0 <= i < |a| && i < |b| && a[i].term == b[i].term ==> a[..i + 1] == b[..i + 1]
  }

  predicate Agree(a: seq<Entry>, b: seq<Entry>, k: nat) {
    k <= |a| && k <= |b| && a[..k] == b[..k]
  }

  predicate Uncompacted(n: Node) {
    n.log.start == 1 && n.snapshotIndex == 0 && WellFormed(n.log.entries)
  }

  lemma HeldTerm(n: Node, index: nat)
    requires Uncompacted(n)
    ensures TermAt(n, index) == if 1 <= index <= |n.log.entries| then n.log.entries[index - 1].term else 0
    ensures 1 <= index <= |n.log.entries| ==> TermAt(n, index) >= 1
    ensures n.log.LastIndex() == |n.log.entries| && n.log.NextIndex() == |n.log.entries| + 1
  {
  }

  lemma BeforeConflictStep(n: Node, p: nat, entries: seq<Entry>)
    requires Uncompacted(n) && entries != [] && entries[0].index == p + 1
    ensures BeforeConflict(n, entries) ==
            if p < |n.log.entries| && n.log.entries[p].term != entries[0].term then 0
            else 1 + BeforeConflict(n, entries[1..])
  {
    HeldTerm(n, p + 1);
  }

  lemma AgreeOneMore(own: seq<Entry>, lead: seq<Entry>, p: nat)
    requires Matching(own, lead) && p < |lead| && Agree(own, lead, Min(p, |own|))
    requires p < |own| ==> own[p].term == lead[p].term
    ensures Agree(own, lead, Min(p + 1, |own|))
  {
    if p < |own| {
      assert own[..p + 1] == lead[..p + 1];
    }
  }

  /** The scan of the leader's entries in `(p, q]` stops at the first one where the logs part. */
  lemma {:induction false} ConflictIsFirstDifference(n: Node, lead: seq<Entry>, p: nat, q: nat)
    requires Uncompacted(n) && WellFormed(lead) && Matching(n.log.entries, lead) && p <= q <= |lead|
    requires Agree(n.log.entries, lead, Min(p, |n.log.entries|))
    ensures FirstDifference(n.log.entries, lead, p, BeforeConflict(n, lead[p..q]), q - p)
    decreases q - p
  {
    if p < q {
      ScanStep(n, lead, p, q);
      if p >= |n.log.entries| || n.log.entries[p].term == lead[p].term {
        AgreeOneMore(n.log.entries, lead, p);
        ConflictIsFirstDifference(n, lead, p + 1, q);
        DifferenceOneEarlier(n.log.entries, lead, p, BeforeConflict(n, lead[p + 1..q]), q - p - 1);
      }
    }
  }

  lemma DifferenceOneEarlier(own: seq<Entry>, lead: seq<Entry>, p: nat, k: nat, m: nat)
    requires p + 1 + m <= |lead| && k <= m && FirstDifference(own, lead, p + 1, k, m)
    ensures FirstDifference(own, lead, p, k + 1, m + 1)
  {
  }

  lemma ScanStep(n: Node, lead: seq<Entry>, p: nat, q: nat)
    requires Uncompacted(n) && WellFormed(lead) && p < q <= |lead|
    ensures BeforeConflict(n, lead[p..q]) ==
            if p < |n.log.entries| && n.log.entries[p].term != lead[p].term then 0
            else 1 + BeforeConflict(n, lead[p + 1..q])
  {
    assert lead[p..q][0] == lead[p] && lead[p..q][1..] == lead[p + 1..q];
    BeforeConflictStep(n, p, lead[p..q]);
  }

  /** `k` of the `m` entries from `p` on pass; the next one, if any, is where the logs part. */
  predicate FirstDifference(own: seq<Entry>, lead: seq<Entry>, p: nat, k: nat, m: nat)
    requires p + m <= |lead| && k <= m
  {
    && (k == m ==> Agree(own, lead, Min(|own|, p + m)))
    && (k < m ==> p + k < |own| && Agree(own, lead, p + k) && own[p + k].term != lead[p + k].term)
  }

  lemma HeldEntryIsSkipped(n: Node, entries: seq<Entry>)
    requires Uncompacted(n) && entries != [] && entries[0] in n.log.entries
    ensures AppendMissing(n, entries) == AppendMissing(n, entries[1..])
  {
    HeldTerm(n, entries[0].index);
  }

  lemma NextEntryIsTaken(n: Node, entries: seq<Entry>)
    requires Uncompacted(n) && entries != [] && entries[0].index == |n.log.entries| + 1
    ensures AppendMissing(n, entries) == AppendMissing(n.(log := Log(1, n.log.entries + [entries[0]])), entries[1..])
  {
    HeldTerm(n, entries[0].index);
  }

  /** Taking the leader's next entry keeps the log well formed and in agreement. */
  lemma ExtendedByOne(n: Node, lead: seq<Entry>, q: nat)
    requires Uncompacted(n) && WellFormed(lead) && |n.log.entries| < q <= |lead|
    requires Agree(n.log.entries, lead, |n.log.entries|)
    ensures var p := |n.log.entries|;
            var m := n.(log := Log(1, lead[..p + 1]));
            && n.log.entries + [lead[p]] == lead[..p + 1] && Uncompacted(m)
            && Agree(m.log.entries, lead, Min(|m.log.entries|, q)) && Merged(m, lead, q) == Merged(n, lead, q)
  {
    var p := |n.log.entries|;
    assert n.log.entries == lead[..p];
  }

  lemma AppendStep(n: Node, lead: seq<Entry>, p: nat, q: nat)
    requires Uncompacted(n) && WellFormed(lead) && p < q <= |lead| && p <= |n.log.entries|
    requires p < |n.log.entries| ==> n.log.entries[p] == lead[p]
    ensures AppendMissing(n, lead[p..q]) ==
            if p < |n.log.entries| then AppendMissing(n, lead[p + 1..q])
            else AppendMissing(n.(log := Log(1, n.log.entries + [lead[p]])), lead[p + 1..q])
  {
    var entries := lead[p..q];
    assert entries[0] == lead[p] && entries[1..] == lead[p + 1..q];
    if p < |n.log.entries| {
      HeldEntryIsSkipped(n, entries);
    } else {
      NextEntryIsTaken(n, entries);
    }
  }

  /** With no conflict left, what is missing is appended and nothing else changes. */
  lemma {:induction false} MissingIsAppended(n: Node, lead: seq<Entry>, p: nat, q: nat)
    requires Uncompacted(n) && WellFormed(lead) && p <= q <= |lead| && p <= |n.log.entries|
    requires Agree(n.log.entries, lead, Min(|n.log.entries|, q))
    ensures AppendMissing(n, lead[p..q]) == (Merged(n, lead, q), None)
    decreases q - p
  {
    if p == q {
      assert n.log == Log(1, n.log.entries);
    } else if p < |n.log.entries| {
      AgreeAt(n.log.entries, lead, p, Min(|n.log.entries|, q));
      AppendStep(n, lead, p, q);
      MissingIsAppended(n, lead, p + 1, q);
    } else {
      ExtendedByOne(n, lead, q);
      AppendStep(n, lead, p, q);
      MissingIsAppended(n.(log := Log(1, lead[..p + 1])), lead, p + 1, q);
    }
  }

  /** The node with its log extended to the leader's first `q` entries, if it is shorter. */
  function Merged(n: Node, lead: seq<Entry>, q: nat): Node
    requires q <= |lead|
  {
    n.(log := Log(1, if q <= |n.log.entries| then n.log.entries else lead[..q]))
  }

  lemma AgreeAt(a: seq<Entry>, b: seq<Entry>, i: nat, k: nat)
    requires Agree(a, b, k) && i < k
    ensures a[i] == b[i]
  {
    assert a[..k][i] == b[..k][i];
  }

  /** With no conflict the node loses nothing. */
  lemma MergeWithoutConflict(n: Node, lead: seq<Entry>, p: nat, entries: seq<Entry>)
    requires Uncompacted(n) && WellFormed(lead) && p <= |n.log.entries|
    requires p + |entries| <= |lead| && entries == lead[p..p + |entries|]
    requires BeforeConflict(n, entries) == |entries| && Agree(n.log.entries, lead, Min(|n.log.entries|, p + |entries|))
    ensures MergeOutcome(n, lead, p + |entries|, entries)
  {
    MissingIsAppended(n, lead, p, p + |entries|);
    assert n.log == Log(1, n.log.entries);
  }

  /** At a conflict it loses exactly what the leader contradicts. */
  lemma MergeAtConflict(n: Node, lead: seq<Entry>, p: nat, entries: seq<Entry>, d: nat)
    requires Uncompacted(n) && WellFormed(lead) && p <= d < |n.log.entries| && d < p + |entries|
    requires p + |entries| <= |lead| && entries == lead[p..p + |entries|]
    requires BeforeConflict(n, entries) == d - p && Agree(n.log.entries, lead, d) && n.log.entries[d] != lead[d]
    ensures MergeOutcome(n, lead, p + |entries|, entries)
  {
    var own, cut := n.log.entries, CutConflict(n, entries);
    assert entries[d - p] == lead[d];
    assert cut == n.(log := Log(1, own[..d]));
    NotBeyondDifference(own, lead, d);
    MissingIsAppended(cut, lead, p, p + |entries|);
  }

  /** Cut, then append: the result agrees with `lead` up to `q`, and the cut kept whatever agreed. */
  ghost predicate MergeOutcome(n: Node, lead: seq<Entry>, q: nat, entries: seq<Entry>)
    requires q <= |lead|
  {
    var own, cut := n.log.entries, CutConflict(n, entries);
    var merged := if Agree(own, lead, q) then own else lead[..q];
    && AppendMissing(cut, entries) == (n.(log := Log(1, merged)), None)
    && |cut.log.entries| <= |merged|
    && (forall i: nat :: Agree(own, lead, i) ==> i <= |cut.log.entries|)
  }

  lemma MergeFollowsLeader(n: Node, lead: seq<Entry>, p: nat, entries: seq<Entry>)
    requires Uncompacted(n) && WellFormed(lead) && Matching(n.log.entries, lead)
    requires p + |entries| <= |lead| && entries == lead[p..p + |entries|]
    requires Agree(n.log.entries, lead, p)
    ensures MergeOutcome(n, lead, p + |entries|, entries)
  {
    var k := BeforeConflict(n, entries);
    ConflictIsFirstDifference(n, lead, p, p + |entries|);
    if k == |entries| {
      MergeWithoutConflict(n, lead, p, entries);
    } else {
      MergeAtConflict(n, lead, p, entries, p + k);
    }
  }

  lemma NotBeyondDifference(a: seq<Entry>, b: seq<Entry>, d: nat)
    requires d < |a| && d < |b| && a[d] != b[d]
    ensures forall i: nat :: Agree(a, b, i) ==> i <= d
  {
    forall i: nat | Agree(a, b, i) ensures i <= d {
      if d < i {
        AgreeAt(a, b, d, i);
      }
    }
  }

  /** The previous-entry check succeeds only where the logs agree that far. */
  lemma PrevCheckMeansAgreement(n: Node, lead: seq<Entry>, req: AppendRequest)
    requires Uncompacted(n) && WellFormed(lead) && Matching(n.log.entries, lead)
    requires SliceOk(lead, req) && req.entries != []
    requires req.prevIndex > 0 ==> TermAt(n, req.prevIndex) == req.prevTerm
    ensures Agree(n.log.entries, lead, req.prevIndex)
  {
    var p := req.prevIndex;
    if p > 0 {
      HeldTerm(n, p);
      assert n.log.entries[p - 1].term == lead[p - 1].term;
      assert n.log.entries[..p - 1 + 1] == lead[..p - 1 + 1];
    }
  }

  /** Both early refusals leave the node as it was. */
  lemma RefusedUnchanged(n: Node, req: AppendRequest)
    requires || (req.prevIndex > 0 && req.prevIndex + 1 < n.log.start)
             || (req.prevIndex > 0 && TermAt(n, req.prevIndex) != req.prevTerm)
    ensures Replicate(n, req).0 == n && !Replicate(n, req).1.success
  {
  }

  lemma AcceptedMerge(n: Node, req: AppendRequest, m: Node)
    requires !(req.prevIndex > 0 && req.prevIndex + 1 < n.log.start)
    requires req.prevIndex > 0 ==> TermAt(n, req.prevIndex) == req.prevTerm
    requires AppendMissing(CutConflict(n, req.entries), req.entries) == (m, None)
    ensures Replicate(n, req).0.log == m.log && Replicate(n, req).1.success
  {
  }

  lemma AcceptedReplicate(n: Node, req: AppendRequest, lead: seq<Entry>)
    requires Uncompacted(n) && WellFormed(lead) && Matching(n.log.entries, lead)
    requires SliceOk(lead, req) && req.entries != []
    requires req.prevIndex > 0 ==> TermAt(n, req.prevIndex) == req.prevTerm
    ensures var q, own := req.prevIndex + |req.entries|, n.log.entries;
            && MergeOutcome(n, lead, q, req.entries) && Replicate(n, req).1.success
            && Replicate(n, req).0.log == Log(1, if Agree(own, lead, q) then own else lead[..q])
  {
    var q, own := req.prevIndex + |req.entries|, n.log.entries;
    PrevCheckMeansAgreement(n, lead, req);
    MergeFollowsLeader(n, lead, req.prevIndex, req.entries);
    AcceptedMerge(n, req, n.(log := Log(1, if Agree(own, lead, q) then own else lead[..q])));
  }

  /** What replication makes of the log: untouched, or agreeing with `lead` through the slice. */
  ghost predicate Replicated(n: Node, log': Log, req: AppendRequest, lead: seq<Entry>, success: bool) {
    var q, own, cut := req.prevIndex + |req.entries|, n.log.entries, CutConflict(n, req.entries).log.entries;
    && (!success || req.entries == [] ==> log' == n.log)
    && (success && req.entries != [] ==>
          && q <= |lead| && log' == Log(1, if Agree(own, lead, q) then own else lead[..q])
          && (forall i: nat :: Agree(own, lead, i) ==> i <= |cut|)
          && |cut| <= |log'.entries|)
  }

  /** The replication half against a leader log: refuse and keep, or agree through the slice. */
  lemma ReplicateOutcome(n: Node, req: AppendRequest, lead: seq<Entry>)
    requires Uncompacted(n) && WellFormed(lead) && Matching(n.log.entries, lead) && SliceOk(lead, req)
    ensures Replicated(n, Replicate(n, req).0.log, req, lead, Replicate(n, req).1.success)
  {
    if req.prevIndex > 0 && TermAt(n, req.prevIndex) != req.prevTerm {
      RefusedUnchanged(n, req);
    } else if req.entries == [] {
      AcceptedMerge(n, req, n);
    } else {
      AcceptedReplicate(n, req, lead);
    }
  }

  // ---------- steps ----------

  /** The part of the election invariant that the logs rely on. */
  predicate LeadersRecorded(c: Cluster) {
    && RolesOk(c) && c.history.leaderOf.Keys == c.history.termLog.Keys
    && (forall t :: t in c.history.leaderOf ==> 1 <= t)
  }

  /** No log, leader log or append request changes. */
  lemma QuietKeepsLogs(c: Cluster, c': Cluster, i: NodeId, n': Node, sent: set<Message>)
    requires LogInv(c) && i in c.nodes && c' == With(c, i, n', sent, c'.history)
    requires var n := c.nodes[i];
             && n'.log == n.log && n'.snapshotIndex == n.snapshotIndex && n'.office.term >= n.office.term
             && (n'.office.role == Leader ==> n.office.role == Leader && n'.office.term == n.office.term)
    requires c'.history.termLog == c.history.termLog && c'.history.leaderOf == c.history.leaderOf
    requires forall m :: m in sent ==> AppendMessageOk(c.history, m)
    ensures LogInv(c')
  {
    assert NodeLogOk(c.history, c.nodes[i]);
  }

  /** The leader logs grow; every node but `i` keeps its log. */
  lemma GrowthKeepsLogs(c: Cluster, c': Cluster, i: NodeId, n': Node, sent: set<Message>)
    requires LogInv(c) && i in c.nodes && c' == With(c, i, n', sent, c'.history)
    requires Grows(c.history.termLog, c'.history.termLog) && LeaderLogsOk(c'.history) && NodeLogOk(c'.history, n')
    requires forall t :: t in c.history.leaderOf ==>
               t in c'.history.leaderOf && c'.history.leaderOf[t] == c.history.leaderOf[t]
    requires forall j :: j in c.nodes && j != i && c.nodes[j].office.role == Leader ==>
               && c.nodes[j].office.term in c.history.termLog
               && c'.history.termLog[c.nodes[j].office.term] == c.history.termLog[c.nodes[j].office.term]
    requires forall m :: m in sent ==> !m.AskAppend?
    ensures LogInv(c')
  {
    forall j | j in c.nodes && j != i ensures NodeLogOk(c'.history, c.nodes[j]) {
      assert NodeLogOk(c.history, c.nodes[j]);
      GroundedGrows(c.history.termLog, c'.history.termLog, c.nodes[j].log.entries);
    }
    forall m | m in c.messages ensures AppendMessageOk(c'.history, m) {
      assert AppendMessageOk(c.history, m);
    }
  }

  lemma GroundedExtend(termLog: map<nat, seq<Entry>>, log: seq<Entry>, e: Entry)
    requires Grounded(termLog, log) && e.term in termLog && log + [e] <= termLog[e.term]
    ensures Grounded(termLog, log + [e])
  {
    var log' := log + [e];
    forall k | 0 <= k < |log'| ensures log'[k].term in termLog && log'[..k + 1] <= termLog[log'[k].term] {
      if k < |log| {
        assert log'[..k + 1] == log[..k + 1];
      } else {
        assert log'[..k + 1] == log';
      }
    }
  }

  function Extended(h: History, t: nat, e: Entry): History
    requires t in h.termLog
  {
    h.(termLog := h.termLog[t := h.termLog[t] + [e]])
  }

  lemma ExtendedLogOk(h: History, t: nat, e: Entry)
    requires LeaderLogsOk(h) && t in h.termLog && 1 <= t && e.term == t && e.index == |h.termLog[t]| + 1
    ensures LeaderLogOk(Extended(h, t, e).termLog, t, h.termLog[t] + [e])
  {
    var h' := Extended(h, t, e);
    assert LeaderLogOk(h.termLog, t, h.termLog[t]);
    WellFormedExtend(h.termLog[t], t, e);
    GroundedGrows(h.termLog, h'.termLog, h.termLog[t]);
    GroundedExtend(h'.termLog, h.termLog[t], e);
  }

  lemma WellFormedExtend(log: seq<Entry>, t: nat, e: Entry)
    requires WellFormed(log) && TermsUpTo(log, t) && 1 <= t == e.term && e.index == |log| + 1
    ensures WellFormed(log + [e]) && TermsUpTo(log + [e], t)
  {
  }

  /** A leader's append keeps all leader logs well formed and grounded. */
  lemma ExtendLeaderLog(h: History, t: nat, e: Entry)
    requires LeaderLogsOk(h) && t in h.termLog && 1 <= t && e.term == t && e.index == |h.termLog[t]| + 1
    ensures LeaderLogsOk(Extended(h, t, e)) && Grows(h.termLog, Extended(h, t, e).termLog)
  {
    var h' := Extended(h, t, e);
    assert Grows(h.termLog, h'.termLog);
    ExtendedLogOk(h, t, e);
    forall u | u in h.termLog && u != t ensures LeaderLogOk(h'.termLog, u, h.termLog[u]) {
      assert LeaderLogOk(h.termLog, u, h.termLog[u]);
      GroundedGrows(h.termLog, h'.termLog, h.termLog[u]);
    }
  }

  lemma ProposeExtends(c: Cluster, i: NodeId, data: string)
    requires Leads(c, i) && NodeLogOk(c.history, c.nodes[i]) && LeaderLogsOk(c.history)
    ensures var n, c' := c.nodes[i], AfterPropose(c, i, data);
            var e := Entry(|n.log.entries| + 1, n.office.term, data);
            && c'.history == Extended(c.history, n.office.term, e)
            && c'.nodes[i] == n.(log := Log(1, n.log.entries + [e]))
  {
    GroundedWellFormed(c.history, c.nodes[i].log.entries);
    HeldTerm(c.nodes[i], 0);
  }

  lemma OtherLeadersHaveOtherTerms(c: Cluster, i: NodeId)
    requires LeadersRecorded(c) && i in c.nodes
    ensures forall j :: j in c.nodes && j != i && c.nodes[j].office.role == Leader ==>
              && c.nodes[j].office.term in c.history.termLog
              && (c.nodes[i].office.role == Leader ==> c.nodes[j].office.term != c.nodes[i].office.term)
  {
    forall j | j in c.nodes && j != i && c.nodes[j].office.role == Leader
      ensures && c.nodes[j].office.term in c.history.termLog
              && (c.nodes[i].office.role == Leader ==> c.nodes[j].office.term != c.nodes[i].office.term)
    {
      assert RoleOk(c.history, j, c.nodes[j].office) && RoleOk(c.history, i, c.nodes[i].office);
    }
  }

  lemma ProposeKeepsLogs(c: Cluster, i: NodeId, data: string)
    requires LeadersRecorded(c) && LogInv(c) && Leads(c, i)
    ensures LogInv(AfterPropose(c, i, data))
  {
    var n, h, c' := c.nodes[i], c.history, AfterPropose(c, i, data);
    var t, e := n.office.term, Entry(|n.log.entries| + 1, n.office.term, data);
    assert NodeLogOk(h, n) && RoleOk(h, i, n.office);
    ProposeExtends(c, i, data);
    ExtendLeaderLog(h, t, e);
    OtherLeadersHaveOtherTerms(c, i);
    assert NodeLogOk(c'.history, c'.nodes[i]);
    GrowthKeepsLogs(c, c', i, c'.nodes[i], {});
  }

  /** A new leader's log joins the record. */
  lemma WinKeepsLeaderLogs(h: History, cand: Node)
    requires LeaderLogsOk(h) && cand.office.term !in h.termLog
    requires Grounded(h.termLog, cand.log.entries) && TermsUpTo(cand.log.entries, cand.office.term)
    ensures var h' := Win(h, cand); LeaderLogsOk(h') && Grows(h.termLog, h'.termLog)
  {
    var h' := Win(h, cand);
    GroundedWellFormed(h, cand.log.entries);
    GroundedGrows(h.termLog, h'.termLog, cand.log.entries);
    forall u | u in h.termLog ensures LeaderLogOk(h'.termLog, u, h.termLog[u]) {
      assert LeaderLogOk(h.termLog, u, h.termLog[u]);
      GroundedGrows(h.termLog, h'.termLog, h.termLog[u]);
    }
  }

  lemma WinKeepsLogs(c: Cluster, cand: Node, h: History)
    requires LeadersRecorded(c) && LogInv(c) && cand.id in c.nodes
    requires cand.office.term !in c.history.leaderOf && c.nodes[cand.id].office.term <= cand.office.term
    requires cand.log == c.nodes[cand.id].log && cand.snapshotIndex == c.nodes[cand.id].snapshotIndex
    requires h == c.history.(ballots := h.ballots, candidacies := h.candidacies)
    ensures LogInv(With(c, cand.id, BecomeLeader(cand), {}, Win(h, cand)))
  {
    var c' := With(c, cand.id, BecomeLeader(cand), {}, Win(h, cand));
    assert NodeLogOk(c.history, c.nodes[cand.id]);
    assert LeaderLogsOk(h);
    WinKeepsLeaderLogs(h, cand);
    GroundedGrows(h.termLog, c'.history.termLog, cand.log.entries);
    OtherLeadersHaveOtherTerms(c, cand.id);
    GrowthKeepsLogs(c, c', cand.id, c'.nodes[cand.id], {});
  }

  lemma StandKeepsLogs(c: Cluster, i: NodeId)
    requires LogInv(c) && i in c.nodes
    ensures var cand := BecomeCandidate(c.nodes[i]);
            LogInv(With(c, i, cand, set q | q in cand.peers :: AskVote(cand.id, q, VoteRequestOf(cand)),
                        Stand(c.history, cand)))
  {
    var cand := BecomeCandidate(c.nodes[i]);
    var ask := set q | q in cand.peers :: AskVote(cand.id, q, VoteRequestOf(cand));
    QuietKeepsLogs(c, With(c, i, cand, ask, Stand(c.history, cand)), i, cand, ask);
  }

  lemma TimeoutKeepsLogs(p: Params, c: Cluster, i: NodeId)
    requires LeadersRecorded(c) && LogInv(c) && i in c.nodes && c.nodes[i].id == i
    requires WinsByTimeout(p, c, Timeout(i)) ==> c.nodes[i].office.term + 1 !in c.history.leaderOf
    requires c.nodes[i].office.role != Leader
    ensures LogInv(AfterTimeout(p, c, i))
  {
    var cand := BecomeCandidate(c.nodes[i]);
    if ElectionQuorum(p.config, cand.office.votes) {
      WinKeepsLogs(c, cand, Stand(c.history, cand));
    } else {
      StandKeepsLogs(c, i);
    }
  }

  lemma VoteReplyKeepsLogs(p: Params, c: Cluster, m: Message)
    requires LeadersRecorded(c) && LogInv(c) && m in c.messages && m.VoteAnswer? && m.dst in c.nodes
    requires c.nodes[m.dst].id == m.dst
    requires WinsByReply(p, c, ReceiveVoteReply(m)) ==> c.nodes[m.dst].office.term !in c.history.leaderOf
    ensures LogInv(AfterVoteReply(p, c, m))
  {
    var n := c.nodes[m.dst];
    var n', c' := HandleRequestVoteResponse(p.config, n, m.src, m.voteReply, m.askedTerm), AfterVoteReply(p, c, m);
    if n.office.role == Candidate && n'.office.role == Leader {
      WinKeepsLogs(c, n.(office := n.office.(votes := n.office.votes + {m.src})), c.history);
    } else {
      QuietKeepsLogs(c, c', m.dst, n', {});
    }
  }

  /** Any append request meets a follower, not the leader that sent it. */
  lemma NoAppendToItsLeader(c: Cluster, m: Message)
    requires LeadersRecorded(c) && AppendMessagesOk(c) && m in c.messages && m.AskAppend? && m.dst in c.nodes
    ensures c.nodes[m.dst].office.role == Leader ==> c.nodes[m.dst].office.term != m.append.term
  {
    assert AppendMessageOk(c.history, m) && RoleOk(c.history, m.dst, c.nodes[m.dst].office);
  }

  lemma NodeAgainstLeaderLog(h: History, n: Node, t: nat)
    requires LeaderLogsOk(h) && NodeLogOk(h, n) && t in h.termLog
    ensures Uncompacted(n) && WellFormed(h.termLog[t]) && Matching(n.log.entries, h.termLog[t])
  {
    var own, lead := n.log.entries, h.termLog[t];
    assert LeaderLogOk(h.termLog, t, lead);
    GroundedWellFormed(h, own);
    forall i | 0 <= i < |own| && i < |lead| && own[i].term == lead[i].term ensures own[..i + 1] == lead[..i + 1] {
      GroundedLogsMatch(h.termLog, own, lead, i);
    }
  }

  /** Past the term checks the handler is the replication half; before them nothing happens to the log. */
  lemma HandlerReplicates(config: ClusterConfig, n: Node, req: AppendRequest)
    ensures var (n', reply) := HandleAppendEntries(config, n, req);
            if config.IsVoter(req.leader) && req.term >= n.office.term
            then (n', reply) == Replicate(Receptive(n, req.term), req)
            else !reply.success && n'.log == n.log
  {
  }

  /** The node once it accepts `term`. */
  function Receptive(n: Node, term: nat): Node {
    if term > n.office.term then BecomeFollower(n, term) else n
  }

  /** What an append request can do to the receiving node. */
  ghost predicate Outcome(n: Node, n': Node, req: AppendRequest, lead: seq<Entry>, success: bool) {
    && Replicated(n, n'.log, req, lead, success)
    && (success && req.entries != [] ==>
          n'.office.term == req.term >= n.office.term && n'.office.role != Leader && SliceOk(lead, req))
  }

  lemma AcceptedOutcome(n: Node, req: AppendRequest, lead: seq<Entry>)
    requires Uncompacted(n) && WellFormed(lead) && Matching(n.log.entries, lead) && SliceOk(lead, req)
    requires req.term >= n.office.term && (n.office.role == Leader ==> n.office.term != req.term)
    ensures var (n', reply) := Replicate(Receptive(n, req.term), req); Outcome(n, n', req, lead, reply.success)
  {
    var base := Receptive(n, req.term);
    ReplicateKeepsOffice(base, req);
    SameLogSameCut(n, base, req.entries);
    ReplicateOutcome(base, req, lead);
  }

  lemma AppendOutcome(p: Params, c: Cluster, m: Message)
    requires LeadersRecorded(c) && LogInv(c) && m in c.messages && m.AskAppend? && m.dst in c.nodes
    ensures m.append.term in c.history.termLog
    ensures var (n', reply) := HandleAppendEntries(p.config, c.nodes[m.dst], m.append);
            Outcome(c.nodes[m.dst], n', m.append, c.history.termLog[m.append.term], reply.success)
  {
    var n, req := c.nodes[m.dst], m.append;
    assert AppendMessageOk(c.history, m) && NodeLogOk(c.history, n);
    NodeAgainstLeaderLog(c.history, n, req.term);
    NoAppendToItsLeader(c, m);
    HandlerReplicates(p.config, n, req);
    if req.term >= n.office.term {
      AcceptedOutcome(n, req, c.history.termLog[req.term]);
    }
  }

  lemma {:induction false} SameLogSameCut(n: Node, m: Node, entries: seq<Entry>)
    requires m.log == n.log && m.snapshotIndex == n.snapshotIndex && m.snapshotTerm == n.snapshotTerm
    ensures BeforeConflict(m, entries) == BeforeConflict(n, entries)
    ensures CutConflict(m, entries).log == CutConflict(n, entries).log
    decreases |entries|
  {
    if entries != [] {
      SameLogSameCut(n, m, entries[1..]);
    }
  }

  /** One node takes a log that is grounded and within its term. */
  lemma RelogKeepsLogs(c: Cluster, c': Cluster, i: NodeId, n': Node, sent: set<Message>)
    requires LogInv(c) && i in c.nodes && c' == With(c, i, n', sent, c'.history)
    requires c'.history.termLog == c.history.termLog && c'.history.leaderOf == c.history.leaderOf
    requires NodeLogOk(c.history, n')
    requires forall m :: m in sent ==> !m.AskAppend?
    ensures LogInv(c')
  {
    assert forall j :: j in c.nodes ==> NodeLogOk(c.history, c.nodes[j]);
    assert forall m :: m in c.messages ==> AppendMessageOk(c.history, m);
  }

  lemma MergedLogOk(h: History, n: Node, n': Node, lead: seq<Entry>, q: nat)
    requires NodeLogOk(h, n) && Grounded(h.termLog, lead) && TermsUpTo(lead, n'.office.term) && q <= |lead|
    requires n'.log == Log(1, lead[..q]) && n'.snapshotIndex == 0 && n'.office.role != Leader
    ensures NodeLogOk(h, n')
  {
    GroundedPrefix(h.termLog, lead, q);
  }

  lemma AppendedNodeLogOk(p: Params, c: Cluster, m: Message)
    requires LeadersRecorded(c) && LogInv(c) && m in c.messages && m.AskAppend? && m.dst in c.nodes
    requires OfficeOk(c.nodes[m.dst].office)
    ensures NodeLogOk(c.history, HandleAppendEntries(p.config, c.nodes[m.dst], m.append).0)
  {
    var n, req, h := c.nodes[m.dst], m.append, c.history;
    var (n', reply) := HandleAppendEntries(p.config, n, req);
    assert NodeLogOk(h, n) && AppendMessageOk(h, m);
    AppendOutcome(p, c, m);
    AppendSettles(p.config, n, req);
    AppendKeepsSnapshot(p.config, n, req);
    var lead, q := h.termLog[req.term], req.prevIndex + |req.entries|;
    assert LeaderLogOk(h.termLog, req.term, lead);
    if n'.log != n.log {
      MergedLogOk(h, n, n', lead, q);
    }
  }

  lemma AppendKeepsLogs(p: Params, c: Cluster, m: Message)
    requires LeadersRecorded(c) && LogInv(c) && m in c.messages && m.AskAppend? && m.dst in c.nodes
    requires OfficeOk(c.nodes[m.dst].office)
    ensures LogInv(AfterAppend(p, c, m))
  {
    var (n', reply) := HandleAppendEntries(p.config, c.nodes[m.dst], m.append);
    AppendedNodeLogOk(p, c, m);
    RelogKeepsLogs(c, AfterAppend(p, c, m), m.dst, n', {AppendAnswer(m.dst, m.src, reply, m.append)});
  }

  lemma AppendKeepsSnapshot(config: ClusterConfig, n: Node, req: AppendRequest)
    ensures HandleAppendEntries(config, n, req).0.snapshotIndex == n.snapshotIndex
  {
    ReplicateKeepsOffice(if req.term > n.office.term then BecomeFollower(n, req.term) else n, req);
  }

  lemma CrashKeepsLogs(c: Cluster, i: NodeId, found: seq<Entry>)
    requires LogInv(c) && i in c.nodes && OnDisk(c.history, c.nodes[i], found)
    ensures LogInv(With(c, i, Restart(c.nodes[i], found), {}, c.history))
  {
    assert NodeLogOk(c.history, c.nodes[i]);
    RelogKeepsLogs(c, With(c, i, Restart(c.nodes[i], found), {}, c.history), i, Restart(c.nodes[i], found), {});
  }

  /** What a leader sends is a slice of its own log. */
  lemma RequestIsSlice(limits: Limits, n: Node, next: Position)
    requires Uncompacted(n)
    ensures SliceOk(n.log.entries, NextRequest(limits, n, next))
  {
    HeldTerm(n, next - 1);
  }

  lemma LeaderRequestOk(p: Params, c: Cluster, i: NodeId, peer: NodeId, next: Position)
    requires LeadersRecorded(c) && LogInv(c) && Leads(c, i) && c.nodes[i].id == i && peer != i
    ensures AppendMessageOk(c.history, AskAppend(i, peer, NextRequest(p.limits, c.nodes[i], next)))
  {
    var n := c.nodes[i];
    assert NodeLogOk(c.history, n) && RoleOk(c.history, i, n.office);
    GroundedWellFormed(c.history, n.log.entries);
    RequestIsSlice(p.limits, n, next);
  }

  lemma SendKeepsLogs(p: Params, c: Cluster, i: NodeId, peer: NodeId)
    requires LeadersRecorded(c) && LogInv(c) && Leads(c, i) && c.nodes[i].id == i && i !in c.nodes[i].peers
    ensures LogInv(AfterSend(p, c, i, peer))
  {
    var n := c.nodes[i];
    var (n', req) := SendAppendEntries(p.limits, n, peer);
    if req.Some? {
      LeaderRequestOk(p, c, i, peer, n.progress.nextIndex[peer]);
      QuietKeepsLogs(c, AfterSend(p, c, i, peer), i, n', {AskAppend(i, peer, req.value)});
    } else {
      QuietKeepsLogs(c, AfterSend(p, c, i, peer), i, n', {});
    }
  }

  lemma ReadHeartbeatKeepsLogs(p: Params, c: Cluster, i: NodeId, peer: NodeId)
    requires LeadersRecorded(c) && LogInv(c) && Enabled(c, SendReadHeartbeat(i, peer))
    requires c.nodes[i].id == i && i !in c.nodes[i].peers
    ensures LogInv(AfterReadHeartbeat(p, c, i, peer))
  {
    var n := c.nodes[i];
    var req := NextRequest(p.limits, n, n.progress.nextIndex[peer]).(entries := []);
    LeaderRequestOk(p, c, i, peer, n.progress.nextIndex[peer]);
    QuietKeepsLogs(c, AfterReadHeartbeat(p, c, i, peer), i, n, {AskAppend(i, peer, req)});
  }

  lemma VoteRequestKeepsLogs(p: Params, c: Cluster, m: Message, heard: bool, saved: bool)
    requires LogInv(c) && m.AskVote? && m.dst in c.nodes
    ensures LogInv(AfterVoteRequest(p, c, m, heard, saved))
  {
    var (n', reply) := HandleRequestVote(p.config, c.nodes[m.dst], m.vote, heard, saved);
    var answer := VoteAnswer(m.dst, m.src, reply, m.vote.term);
    QuietKeepsLogs(c, AfterVoteRequest(p, c, m, heard, saved), m.dst, n', {answer});
  }

  lemma AppendReplyKeepsLogs(c: Cluster, m: Message)
    requires LogInv(c) && m.AppendAnswer? && m.dst in c.nodes
    ensures LogInv(AfterAppendReply(c, m))
  {
    var c' := AfterAppendReply(c, m);
    QuietKeepsLogs(c, c', m.dst, c'.nodes[m.dst], {});
  }

  lemma CommitKeepsLogs(p: Params, c: Cluster, i: NodeId)
    requires LogInv(c) && i in c.nodes
    ensures LogInv(AfterCommit(p, c, i))
  {
    var c' := AfterCommit(p, c, i);
    QuietKeepsLogs(c, c', i, c'.nodes[i], {});
  }

  lemma LocalStepKeepsLogs(p: Params, c: Cluster, step: Step)
    requires LogInv(c) && Enabled(c, step) && (step.Retry? || step.Persisted? || step.StepDown?)
    ensures LogInv(Next(p, c, step))
  {
    var c' := Next(p, c, step);
    QuietKeepsLogs(c, c', step.n, c'.nodes[step.n], {});
  }

  /** Whoever wins here is the first to win its term. */
  predicate WinsFirst(p: Params, c: Cluster, step: Step) {
    && (WinsByTimeout(p, c, step) ==> c.nodes[step.n].office.term + 1 !in c.history.leaderOf)
    && (WinsByReply(p, c, step) ==> c.nodes[step.m.dst].office.term !in c.history.leaderOf)
  }

  lemma StepWinsFirst(p: Params, c: Cluster, step: Step)
    requires ElectionInv(p, c) && Enabled(c, step)
    ensures WinsFirst(p, c, step) && LeadersRecorded(c) && NodesOk(c)
  {
    if WinsByTimeout(p, c, step) {
      TimeoutWinsFirst(p, c, step.n);
    } else if WinsByReply(p, c, step) {
      ReplyWinsFirst(p, c, step.m);
    }
  }

  lemma StepKeepsLogInv(p: Params, c: Cluster, step: Step)
    requires LeadersRecorded(c) && NodesOk(c) && WinsFirst(p, c, step) && LogInv(c) && Enabled(c, step)
    ensures LogInv(Next(p, c, step))
  {
    match step
    case Timeout(n) => TimeoutKeepsLogs(p, c, n);
    case ReceiveVoteRequest(m, heard, saved) => VoteRequestKeepsLogs(p, c, m, heard, saved);
    case ReceiveVoteReply(m) => VoteReplyKeepsLogs(p, c, m);
    case ClientPropose(n, data) => ProposeKeepsLogs(c, n, data);
    case SendAppend(n, peer) => SendKeepsLogs(p, c, n, peer);
    case SendReadHeartbeat(n, peer) => ReadHeartbeatKeepsLogs(p, c, n, peer);
    case ReceiveAppend(m) => AppendKeepsLogs(p, c, m);
    case ReceiveAppendReply(m) => AppendReplyKeepsLogs(c, m);
    case Commit(n) => CommitKeepsLogs(p, c, n);
    case Crash(n, found) => CrashKeepsLogs(c, n, found);
    case _ => LocalStepKeepsLogs(p, c, step);
  }

  lemma {:induction false} RunKeepsLogInv(p: Params, run: Run, k: nat)
    requires ValidRun(p, run) && k < |run.states|
    ensures ElectionInv(p, run.states[k]) && LogInv(run.states[k])
  {
    RunKeepsElectionInv(p, run, k);
    if k > 0 {
      RunKeepsLogInv(p, run, k - 1);
      StepWinsFirst(p, run.states[k - 1], run.steps[k - 1]);
      StepKeepsLogInv(p, run.states[k - 1], run.steps[k - 1]);
    }
  }

  lemma LeaderLogsChangeOnlyBy(p: Params, c: Cluster, step: Step)
    requires Enabled(c, step) && !step.ClientPropose?
    ensures var termLog, termLog' := c.history.termLog, Next(p, c, step).history.termLog;
            || termLog' == termLog
            || (WinsByTimeout(p, c, step) &&
                termLog' == termLog[c.nodes[step.n].office.term + 1 := c.nodes[step.n].log.entries])
            || (WinsByReply(p, c, step) &&
                termLog' == termLog[c.nodes[step.m.dst].office.term := c.nodes[step.m.dst].log.entries])
  {
    match step
    case Timeout(_) =>
    case ReceiveVoteReply(_) =>
    case _ =>
  }

  /** What a term's leader held is never taken back from the record. */
  lemma StepGrowsLeaderLogs(p: Params, c: Cluster, step: Step)
    requires LeadersRecorded(c) && WinsFirst(p, c, step) && LogInv(c) && Enabled(c, step)
    ensures Grows(c.history.termLog, Next(p, c, step).history.termLog)
  {
    if step.ClientPropose? {
      assert NodeLogOk(c.history, c.nodes[step.n]);
      ProposeExtends(c, step.n, step.data);
    } else {
      LeaderLogsChangeOnlyBy(p, c, step);
    }
  }

  lemma {:induction false} RunGrowsLeaderLogs(p: Params, run: Run, j: nat, k: nat)
    requires ValidRun(p, run) && j <= k < |run.states|
    ensures Grows(run.states[j].history.termLog, run.states[k].history.termLog)
    decreases k - j
  {
    if j < k {
      RunGrowsLeaderLogs(p, run, j, k - 1);
      RunKeepsLogInv(p, run, k - 1);
      StepWinsFirst(p, run.states[k - 1], run.steps[k - 1]);
      StepGrowsLeaderLogs(p, run.states[k - 1], run.steps[k - 1]);
    }
  }

  /** What the disk has when the truncation between two logs failed and the newer one was written over the older. */
  function Overlaid(was: seq<Entry>, now: seq<Entry>): seq<Entry> {
    if |now| < |was| then now + was[|now|..] else now
  }

  lemma GroundedMatch(termLog: map<nat, seq<Entry>>, a: seq<Entry>, b: seq<Entry>)
    requires Grounded(termLog, a) && Grounded(termLog, b)
    ensures Matching(a, b)
  {
    forall i | 0 <= i < |a| && i < |b| && a[i].term == b[i].term ensures a[..i + 1] == b[..i + 1] {
      assert a[..i + 1] <= termLog[a[i].term] && b[..i + 1] <= termLog[a[i].term];
    }
  }

  /**
   * A truncation the disk did not take leaves a log that a restart may find, and that still matches,
   * exactly when the newer log is at least as long: else an old tail sits behind the newer entries.
   */
  lemma LostTruncationIff(termLog: map<nat, seq<Entry>>, was: seq<Entry>, now: seq<Entry>, k: nat)
    requires Grounded(termLog, was) && Grounded(termLog, now)
    requires k < |was| && k < |now| && was[k].term != now[k].term
    ensures Grounded(termLog, Overlaid(was, now)) <==> |was| <= |now|
    ensures Matching(Overlaid(was, now), was) <==> |was| <= |now|
  {
    var mixed, i := Overlaid(was, now), |now|;
    if |was| <= |now| {
      GroundedMatch(termLog, now, was);
    } else {
      assert mixed[i] == was[i] && mixed[..i + 1][k] == now[k] && was[..i + 1][k] == was[k];
      assert !Matching(mixed, was);
      if Grounded(termLog, mixed) {
        GroundedMatch(termLog, mixed, was);
      }
    }
  }

  /** Entry 3 of term 1 behind entry 2 of term 2. */
  lemma MixedLog() returns (was: seq<Entry>, now: seq<Entry>)
    ensures was == [Entry(1, 1, ""), Entry(2, 1, ""), Entry(3, 1, "")] && now == [Entry(1, 1, ""), Entry(2, 2, "")]
    ensures Grounded(map[1 := was, 2 := now], was) && Grounded(map[1 := was, 2 := now], now)
    ensures Overlaid(was, now) == [Entry(1, 1, ""), Entry(2, 2, ""), Entry(3, 1, "")]
    ensures !Matching(Overlaid(was, now), was)
  {
    was, now := [Entry(1, 1, ""), Entry(2, 1, ""), Entry(3, 1, "")], [Entry(1, 1, ""), Entry(2, 2, "")];
    assert now[..1] == was[..1] && now[..2] == now && was[..3] == was;
    LostTruncationIff(map[1 := was, 2 := now], was, now, 1);
  }

  /** Any prefix of any log the node had before is among what a restart may find. */
  lemma EarlierLogMayReturn(p: Params, run: Run, j: nat, k: nat, a: NodeId, i: nat)
    requires ValidRun(p, run) && j <= k < |run.states| && a in run.states[j].nodes && a in run.states[k].nodes
    requires i <= |run.states[j].nodes[a].log.entries|
    ensures Enabled(run.states[k], Crash(a, run.states[j].nodes[a].log.entries[..i]))
  {
    RunKeepsLogInv(p, run, j);
    RunKeepsLogInv(p, run, k);
    RunGrowsLeaderLogs(p, run, j, k);
    var own := run.states[j].nodes[a].log.entries;
    assert NodeLogOk(run.states[j].history, run.states[j].nodes[a]);
    GroundedGrows(run.states[j].history.termLog, run.states[k].history.termLog, own);
    GroundedPrefix(run.states[k].history.termLog, own, i);
    RunRaisesTerms(p, run, j, k, a);
  }

  /**
   * Log Matching (section 5.3 of the Raft extended paper), across nodes and across time:
   * two logs seen anywhere in a run that hold an entry with one index and term are
   * identical up to it, whatever suffixes crashes have dropped or brought back.
   */
  lemma LogMatching(p: Params, run: Run, j: nat, k: nat, a: NodeId, b: NodeId, i: nat)
    requires ValidRun(p, run) && j <= k < |run.states|
    requires a in run.states[j].nodes && b in run.states[k].nodes
    requires var x, y := run.states[j].nodes[a].log.entries, run.states[k].nodes[b].log.entries;
             i < |x| && i < |y| && x[i].term == y[i].term
    ensures var x, y := run.states[j].nodes[a].log.entries, run.states[k].nodes[b].log.entries;
            x[..i + 1] == y[..i + 1]
  {
    RunKeepsLogInv(p, run, j);
    RunKeepsLogInv(p, run, k);
    RunGrowsLeaderLogs(p, run, j, k);
    var x, y := run.states[j].nodes[a].log.entries, run.states[k].nodes[b].log.entries;
    assert NodeLogOk(run.states[j].history, run.states[j].nodes[a]);
    assert NodeLogOk(run.states[k].history, run.states[k].nodes[b]);
    GroundedGrows(run.states[j].history.termLog, run.states[k].history.termLog, x);
    GroundedLogsMatch(run.states[k].history.termLog, x, y, i);
  }
}
