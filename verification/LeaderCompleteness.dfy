/**
 * What a leader commits stays: over every trusted run, every leader of a later term holds
 * it. The argument follows entries that could still be chosen: some commit quorum has
 * vouched for them or is still free to.
 */
module LeaderCompleteness {

  import opened RaftTypes
  import opened Quorums
  import opened RaftLogs
  import opened RaftNodes
  import opened RaftCluster
  import opened ElectionSafety
  import opened LogMatching

  /** Index `i` holds an entry that the leader of `t` itself created. */
  predicate EntryAt(h: History, t: nat, i: nat) {
    t in h.termLog && 1 <= i <= |h.termLog[t]| && h.termLog[t][i - 1].term == t
  }

  /** Every member of `q` vouched for index `i` in term `t`, or has not moved past `t`. */
  predicate Choosable(p: Params, c: Cluster, t: nat, i: nat, q: set<NodeId>) {
    && CommitQuorum(p.config, q)
    && (forall v :: v in q && v in c.nodes ==> Acked(c.history, v, t) >= i || c.nodes[v].office.term <= t)
  }

  /** Leaders of later terms hold whatever could still be chosen. */
  ghost predicate LaterLeadersHold(p: Params, c: Cluster) {
    forall t: nat, u, i, q {:trigger Choosable(p, c, t, i, q), LeaderHolds(c.history, u, t, i)} ::
      u in c.history.termLog && t < u && EntryAt(c.history, t, i) && Choosable(p, c, t, i, q) ==>
        LeaderHolds(c.history, u, t, i)
  }

  predicate LeaderHolds(h: History, u: nat, t: nat, i: nat)
    requires u in h.termLog && t in h.termLog
  {
    Agree(h.termLog[u], h.termLog[t], i)
  }

  predicate Holds(c: Cluster, v: NodeId, t: nat, i: nat)
    requires v in c.nodes && t in c.history.termLog
  {
    Vouched(c.history, v) >= i && Agree(c.nodes[v].log.entries, c.history.termLog[t], i)
  }

  /** So does whoever vouched for it. */
  ghost predicate AckersHold(p: Params, c: Cluster) {
    forall v, t, i, q {:trigger Choosable(p, c, t, i, q), Holds(c, v, t, i)} ::
      v in c.nodes && EntryAt(c.history, t, i) && Acked(c.history, v, t) >= i && Choosable(p, c, t, i, q) ==>
        Holds(c, v, t, i)
  }

  /** And whoever a voucher later voted for. */
  ghost predicate BallotsHold(p: Params, c: Cluster) {
    forall b, t: nat, i, q {:trigger Choosable(p, c, t, i, q), CandidateHolds(c.history, b, t, i)} ::
      && b in c.history.ballots && t < b.term && EntryAt(c.history, t, i)
      && Acked(c.history, b.voter, t) >= i && Choosable(p, c, t, i, q) ==>
        CandidateHolds(c.history, b, t, i)
  }

  predicate CandidateHolds(h: History, b: Ballot, t: nat, i: nat)
    requires t in h.termLog
  {
    Seat(b.candidate, b.term) in h.candidacies && Agree(h.candidacies[Seat(b.candidate, b.term)], h.termLog[t], i)
  }

  ghost predicate PromiseInv(p: Params, c: Cluster) {
    LaterLeadersHold(p, c) && AckersHold(p, c) && BallotsHold(p, c)
  }

  /** What every step does: both invariants hold again and the state has moved on. */
  ghost predicate Keeps(p: Params, c: Cluster, c': Cluster) {
    BookInv(p, c') && PromiseInv(p, c') && Advances(c, c')
  }

  // ---------- bookkeeping ----------

  predicate AckedOk(c: Cluster) {
    forall s :: s in c.history.acked ==>
      && s.node in c.nodes && s.term <= c.nodes[s.node].office.term
      && s.term in c.history.termLog && c.history.acked[s] <= |c.history.termLog[s.term]|
  }

  predicate VouchedOk(c: Cluster) {
    forall v :: v in c.history.vouched ==> v in c.nodes && c.history.vouched[v] <= |c.nodes[v].log.entries|
  }

  /** The log a candidate stood with predates its term. */
  predicate CandidacyOk(c: Cluster, s: Seat, log: seq<Entry>) {
    && s.node in c.nodes && 1 <= s.term <= c.nodes[s.node].office.term
    && Grounded(c.history.termLog, log) && TermsUpTo(log, s.term - 1)
  }

  predicate CandidaciesOk(c: Cluster) {
    && (forall s :: s in c.history.candidacies ==> CandidacyOk(c, s, c.history.candidacies[s]))
    && (forall b :: b in c.history.ballots ==> Seat(b.candidate, b.term) in c.history.candidacies)
  }

  predicate AskedWith(h: History, m: Message) {
    m.AskVote? ==>
      var s := Seat(m.vote.candidate, m.vote.term);
      s in h.candidacies && m.vote.lastIndex == |h.candidacies[s]| && m.vote.lastTerm == LastTermOf(h.candidacies[s])
  }

  function LastTermOf(log: seq<Entry>): nat {
    if log == [] then 0 else log[|log| - 1].term
  }

  /** An accepting answer is backed by what its sender vouched for. */
  predicate AnsweredWith(h: History, m: Message) {
    m.AppendAnswer? && m.appendReply.success && m.asked.entries != [] ==>
      && m.appendReply.count == |m.asked.entries|
      && Acked(h, m.src, m.asked.term) >= m.asked.prevIndex + |m.asked.entries|
  }

  predicate MailOk(h: History, messages: set<Message>) {
    forall m :: m in messages ==> AskedWith(h, m) && AnsweredWith(h, m)
  }

  /** A candidate still has the log it stood with, unless its term is lost already. */
  predicate CandidateOk(h: History, i: NodeId, n: Node) {
    n.office.role == Candidate ==>
      && Seat(i, n.office.term) in h.candidacies
      && (n.office.term in h.leaderOf || n.log.entries == h.candidacies[Seat(i, n.office.term)])
  }

  /** A leader credits its peers with no more than they vouched for. */
  predicate ProgressOk(h: History, n: Node) {
    n.office.role == Leader ==>
      forall q :: q in n.progress.matchIndex ==> n.progress.matchIndex[q] <= Acked(h, q, n.office.term)
  }

  predicate NodeOk(h: History, ids: set<NodeId>, i: NodeId, n: Node) {
    && CandidateOk(h, i, n) && ProgressOk(h, n)
    && n.peers <= ids && n.progress.matchIndex.Keys <= n.peers
  }

  predicate NodeBooksOk(c: Cluster) {
    forall i :: i in c.nodes ==> NodeOk(c.history, c.nodes.Keys, i, c.nodes[i])
  }

  predicate CommittedOk(p: Params, c: Cluster) {
    forall k :: k in c.history.committed ==>
      && EntryAt(c.history, k.term, k.index) && CommitQuorum(p.config, k.quorum)
      && (forall v :: v in k.quorum ==> Acked(c.history, v, k.term) >= k.index)
  }

  predicate BookInv(p: Params, c: Cluster) {
    && AckedOk(c) && VouchedOk(c) && CandidaciesOk(c) && MailOk(c.history, c.messages) && NodeBooksOk(c)
    && CommittedOk(p, c)
  }

  // ---------- how a state may move on ----------

  /** Terms, acknowledgements and leader logs only advance; nobody vouches for a term it has left. */
  ghost predicate Advances(c: Cluster, c': Cluster) {
    && c'.nodes.Keys == c.nodes.Keys
    && (forall v :: v in c.nodes ==> c.nodes[v].office.term <= c'.nodes[v].office.term)
    && (forall v, t :: Acked(c.history, v, t) <= Acked(c'.history, v, t))
    && (forall v, t :: v in c.nodes && Acked(c.history, v, t) < Acked(c'.history, v, t) ==> c.nodes[v].office.term <= t)
    && Grows(c.history.termLog, c'.history.termLog) && c.history.committed <= c'.history.committed
  }

  /** What can still be chosen could be chosen before. */
  lemma ChoosableBefore(p: Params, c: Cluster, c': Cluster, t: nat, i: nat, q: set<NodeId>)
    requires Advances(c, c') && Choosable(p, c', t, i, q)
    ensures Choosable(p, c, t, i, q)
  {
  }

  lemma AdvancesOn(a: Cluster, b: Cluster, c: Cluster)
    requires Advances(a, b) && Advances(b, c)
    ensures Advances(a, c)
  {
    forall v, t | v in a.nodes && Acked(a.history, v, t) < Acked(c.history, v, t) ensures a.nodes[v].office.term <= t {
      assert Acked(b.history, v, t) > Acked(a.history, v, t) || Acked(c.history, v, t) > Acked(b.history, v, t);
    }
    forall t | t in a.history.termLog ensures t in c.history.termLog && a.history.termLog[t] <= c.history.termLog[t] {
      assert t in b.history.termLog;
    }
  }

  /** Every commit quorum has a member that voted for the leader of `u`. */
  lemma ElectorInQuorum(p: Params, c: Cluster, u: nat, q: set<NodeId>) returns (v: NodeId)
    requires ElectionInv(p, c) && u in c.history.leaderOf && CommitQuorum(p.config, q)
    ensures v in q && v in c.nodes && c.nodes[v].office.term >= u
    ensures Ballot(v, u, c.history.leaderOf[u]) in c.history.ballots
  {
    CommitMeetsElection(p.config, q, c.history.electors[u]);
    v :| v in q && v in c.history.electors[u];
    assert Ballot(v, u, c.history.leaderOf[u]) in c.history.ballots;
  }

  /** So a later leader leaves no room for an entry nobody vouched for. */
  lemma UnvouchedNotChoosable(p: Params, c: Cluster, t: nat, u: nat, i: nat, q: set<NodeId>)
    requires ElectionInv(p, c) && u in c.history.leaderOf && t < u
    requires forall v :: v in c.nodes ==> Acked(c.history, v, t) < i
    ensures !Choosable(p, c, t, i, q)
  {
    if CommitQuorum(p.config, q) {
      var _ := ElectorInQuorum(p, c, u, q);
    }
  }

  // ---------- a voter hands on what it vouched for ----------

  lemma LastTermAtLeast(h: History, log: seq<Entry>, i: nat)
    requires LeaderLogsOk(h) && Grounded(h.termLog, log) && 1 <= i <= |log|
    ensures log[i - 1].term <= LastTermOf(log)
  {
    GroundedWellFormed(h, log);
  }

  /** An up-to-date candidate holds every choosable entry that its voter holds. */
  lemma UpToDateCandidateHolds(h: History, own: seq<Entry>, cand: seq<Entry>, t: nat, i: nat)
    requires LeaderLogsOk(h) && Grounded(h.termLog, own) && Grounded(h.termLog, cand)
    requires EntryAt(h, t, i) && Agree(own, h.termLog[t], i)
    requires LastTermOf(cand) > LastTermOf(own) || (LastTermOf(cand) == LastTermOf(own) && |cand| >= |own|)
    requires forall u :: u in h.termLog && t < u ==> LeaderHolds(h, u, t, i)
    ensures Agree(cand, h.termLog[t], i)
  {
    LastTermAtLeast(h, own, i);
    AgreeAt(own, h.termLog[t], i - 1, i);
    var w := LastTermOf(cand);
    GroundedWellFormed(h, own);
    GroundedWellFormed(h, cand);
    assert t <= LastTermOf(own) <= w && cand != [] && cand <= h.termLog[w];
    if w == LastTermOf(own) {
      assert own <= h.termLog[w];
      assert own == cand[..|own|];
      assert cand[..i] == own[..i];
    } else {
      assert LeaderHolds(h, w, t, i);
      AgreeAt(h.termLog[w], h.termLog[t], i - 1, i);
      LongerThanOlderTerm(h, w, i, |cand|);
      assert cand[..i] == h.termLog[w][..i];
    }
  }

  lemma LongerThanOlderTerm(h: History, w: nat, i: nat, k: nat)
    requires LeaderLogsOk(h) && w in h.termLog && 1 <= i <= |h.termLog[w]| && 1 <= k <= |h.termLog[w]|
    requires h.termLog[w][i - 1].term < h.termLog[w][k - 1].term
    ensures i < k
  {
    assert LeaderLogOk(h.termLog, w, h.termLog[w]);
  }

  // ---------- what each kind of step does to the promises ----------

  /** Nobody has vouched for an entry that is new in `c'`. */
  ghost predicate NewsUnvouched(c: Cluster, c': Cluster) {
    forall t, i :: EntryAt(c'.history, t, i) && !EntryAt(c.history, t, i) ==>
      forall v :: v in c.nodes ==> Acked(c.history, v, t) < i
  }

  /** A leader new in `c'` holds what could be chosen. */
  ghost predicate NewLeadersHold(p: Params, c: Cluster, c': Cluster) {
    forall t: nat, u, i, q {:trigger Choosable(p, c, t, i, q), LeaderHolds(c'.history, u, t, i)} ::
      && u in c'.history.termLog && u !in c.history.termLog && t < u
      && EntryAt(c'.history, t, i) && Choosable(p, c, t, i, q) ==>
        LeaderHolds(c'.history, u, t, i)
  }

  lemma LaterLeadersStillHold(p: Params, c: Cluster, c': Cluster)
    requires ElectionInv(p, c) && LaterLeadersHold(p, c) && Advances(c, c')
    requires NewsUnvouched(c, c') && NewLeadersHold(p, c, c')
    ensures LaterLeadersHold(p, c')
  {
    var h, h' := c.history, c'.history;
    forall t: nat, u, i, q | u in h'.termLog && t < u && EntryAt(h', t, i) && Choosable(p, c', t, i, q)
      ensures LeaderHolds(h', u, t, i)
    {
      ChoosableBefore(p, c, c', t, i, q);
      if u in h.termLog {
        if !EntryAt(h, t, i) {
          UnvouchedNotChoosable(p, c, t, u, i, q);
        } else {
          assert LeaderHolds(h, u, t, i);
          GrownAgree(h.termLog[u], h'.termLog[u], h.termLog[t], h'.termLog[t], i);
        }
      }
    }
  }

  lemma SameLeadersStillHold(p: Params, c: Cluster, c': Cluster)
    requires LaterLeadersHold(p, c) && Advances(c, c') && c'.history.termLog == c.history.termLog
    ensures LaterLeadersHold(p, c')
  {
    var h, h' := c.history, c'.history;
    forall t: nat, u, i, q | u in h'.termLog && t < u && EntryAt(h', t, i) && Choosable(p, c', t, i, q)
      ensures LeaderHolds(h', u, t, i)
    {
      ChoosableBefore(p, c, c', t, i, q);
      assert LeaderHolds(h, u, t, i);
    }
  }

  lemma GrownAgree(a: seq<Entry>, a': seq<Entry>, b: seq<Entry>, b': seq<Entry>, i: nat)
    requires Agree(a, b, i) && a <= a' && b <= b'
    ensures Agree(a', b', i)
  {
    assert a'[..i] == a[..i] && b'[..i] == b[..i];
  }

  /** Acknowledgements stand and every node keeps what it vouched for. */
  ghost predicate KeepsVouched(c: Cluster, c': Cluster) {
    && c'.history.acked == c.history.acked && c'.history.vouched == c.history.vouched
    && (forall v :: v in c.nodes ==>
          v in c'.nodes && Agree(c'.nodes[v].log.entries, c.nodes[v].log.entries, Vouched(c.history, v)))
  }

  lemma AckersStillHold(p: Params, c: Cluster, c': Cluster)
    requires AckersHold(p, c) && Advances(c, c') && NewsUnvouched(c, c') && KeepsVouched(c, c')
    ensures AckersHold(p, c')
  {
    var h, h' := c.history, c'.history;
    forall v, t, i, q | v in c'.nodes && EntryAt(h', t, i) && Acked(h', v, t) >= i && Choosable(p, c', t, i, q)
      ensures Holds(c', v, t, i)
    {
      ChoosableBefore(p, c, c', t, i, q);
      assert EntryAt(h, t, i) && Holds(c, v, t, i);
      HeldStaysHeld(c.nodes[v].log.entries, c'.nodes[v].log.entries, Vouched(h, v), h.termLog[t], h'.termLog[t], i);
    }
  }

  lemma AgreeLess(a: seq<Entry>, b: seq<Entry>, i: nat, k: nat)
    requires Agree(a, b, k) && i <= k
    ensures Agree(a, b, i)
  {
    assert a[..i] == a[..k][..i] == b[..k][..i] == b[..i];
  }

  lemma HeldStaysHeld(own: seq<Entry>, own': seq<Entry>, k: nat, lead: seq<Entry>, lead': seq<Entry>, i: nat)
    requires Agree(own', own, k) && Agree(own, lead, i) && lead <= lead' && i <= k
    ensures Agree(own', lead', i)
  {
    AgreeLess(own', own, i, k);
    assert lead'[..i] == lead[..i];
  }

  lemma BallotsStillHold(p: Params, c: Cluster, c': Cluster)
    requires BallotsHold(p, c) && BallotsOk(c) && Advances(c, c') && NewsUnvouched(c, c')
    requires c'.history.ballots == c.history.ballots
    requires forall b, t: nat :: b in c.history.ballots && t < b.term ==>
               Acked(c'.history, b.voter, t) == Acked(c.history, b.voter, t)
    requires forall s :: s in c.history.candidacies ==>
               s in c'.history.candidacies && c'.history.candidacies[s] == c.history.candidacies[s]
    ensures BallotsHold(p, c')
  {
    var h, h' := c.history, c'.history;
    forall b, t: nat, i, q |
      b in h'.ballots && t < b.term && EntryAt(h', t, i) && Acked(h', b.voter, t) >= i && Choosable(p, c', t, i, q)
      ensures CandidateHolds(h', b, t, i)
    {
      ChoosableBefore(p, c, c', t, i, q);
      assert EntryAt(h, t, i) && CandidateHolds(h, b, t, i);
      var s := Seat(b.candidate, b.term);
      GrownAgree(h.candidacies[s], h'.candidacies[s], h.termLog[t], h'.termLog[t], i);
    }
  }

  // ---------- vouching ----------

  /** Node `v` merges its log with the leader log of `t` up to `upTo` and vouches for that. */
  predicate Vouches(c: Cluster, c': Cluster, v: NodeId, t: nat, upTo: nat, retained: nat) {
    && v in c.nodes && v in c'.nodes && t in c.history.termLog && upTo <= |c.history.termLog[t]|
    && c'.nodes == c.nodes[v := c'.nodes[v]]
    && c.nodes[v].office.term <= t <= c'.nodes[v].office.term
    && (var own, lead := c.nodes[v].log.entries, c.history.termLog[t];
        c'.nodes[v].log.entries == if Agree(own, lead, upTo) then own else lead[..upTo])
    && retained <= |c'.nodes[v].log.entries|
    && (var h := Vouch(c.history, v, t, upTo, retained);
        && c'.history.acked == h.acked && c'.history.vouched == h.vouched
        && c'.history.termLog == h.termLog && c'.history.ballots == h.ballots && c'.history.candidacies == h.candidacies
        && h.committed <= c'.history.committed)
  }

  /** The part of its log that the node retains reaches as far as it agrees with the leader. */
  ghost predicate RetainsAgreement(c: Cluster, v: NodeId, t: nat, retained: nat)
    requires v in c.nodes && t in c.history.termLog
  {
    forall i: nat :: Agree(c.nodes[v].log.entries, c.history.termLog[t], i) ==> i <= retained
  }

  lemma VouchAdvances(c: Cluster, c': Cluster, v: NodeId, t: nat, upTo: nat, retained: nat)
    requires Vouches(c, c', v, t, upTo, retained)
    ensures Advances(c, c') && NewsUnvouched(c, c')
    ensures forall w, u :: Acked(c'.history, w, u) != Acked(c.history, w, u) ==> w == v && u == t
  {
  }

  /** The voucher holds what it vouched for before: whatever it dropped could not be chosen. */
  lemma VoucherHolds(p: Params, c: Cluster, c': Cluster, v: NodeId, t: nat, upTo: nat, retained: nat, u: nat,
                     i: nat, q: set<NodeId>)
    requires LaterLeadersHold(p, c) && AckersHold(p, c) && AckedOk(c)
    requires Vouches(c, c', v, t, upTo, retained) && RetainsAgreement(c, v, t, retained)
    requires EntryAt(c.history, u, i) && Choosable(p, c, u, i, q) && Acked(c.history, v, u) >= i
    ensures Holds(c', v, u, i)
  {
    var own, lead, old' := c.nodes[v].log.entries, c.history.termLog[t], c.history.termLog[u];
    assert Holds(c, v, u, i);
    assert Seat(v, u) in c.history.acked;
    assert u <= t;
    assert t == u || LeaderHolds(c.history, t, u, i);
    assert Agree(lead, old', i);
    assert Agree(own, lead, i);
    if upTo <= i {
      AgreeLess(own, lead, upTo, i);
    } else if !Agree(own, lead, upTo) {
      assert lead[..upTo][..i] == lead[..i];
    }
  }

  lemma VouchKeepsAckers(p: Params, c: Cluster, c': Cluster, v: NodeId, t: nat, upTo: nat, retained: nat)
    requires LaterLeadersHold(p, c) && AckersHold(p, c) && AckedOk(c)
    requires Vouches(c, c', v, t, upTo, retained) && RetainsAgreement(c, v, t, retained)
    ensures AckersHold(p, c')
  {
    var h, h' := c.history, c'.history;
    VouchAdvances(c, c', v, t, upTo, retained);
    forall w, u, i, q | w in c'.nodes && EntryAt(h', u, i) && Acked(h', w, u) >= i && Choosable(p, c', u, i, q)
      ensures Holds(c', w, u, i)
    {
      ChoosableBefore(p, c, c', u, i, q);
      assert EntryAt(h, u, i);
      if Acked(h, w, u) >= i {
        assert Holds(c, w, u, i);
        if w == v {
          VoucherHolds(p, c, c', v, t, upTo, retained, u, i, q);
        }
      } else {
        FreshVouchHolds(c, c', v, t, upTo, retained, i);
      }
    }
  }

  lemma FreshVouchHolds(c: Cluster, c': Cluster, v: NodeId, t: nat, upTo: nat, retained: nat, i: nat)
    requires Vouches(c, c', v, t, upTo, retained) && i <= upTo
    ensures Holds(c', v, t, i)
  {
    var own, lead := c.nodes[v].log.entries, c.history.termLog[t];
    if Agree(own, lead, upTo) {
      AgreeLess(own, lead, i, upTo);
    } else {
      assert lead[..upTo][..i] == lead[..i];
    }
  }

  lemma VouchKeepsPromises(p: Params, c: Cluster, c': Cluster, v: NodeId, t: nat, upTo: nat, retained: nat)
    requires NodesOk(c) && BallotsOk(c) && PromiseInv(p, c) && AckedOk(c)
    requires Vouches(c, c', v, t, upTo, retained) && RetainsAgreement(c, v, t, retained)
    ensures PromiseInv(p, c') && Advances(c, c')
  {
    VouchAdvances(c, c', v, t, upTo, retained);
    SameLeadersStillHold(p, c, c');
    VouchKeepsAckers(p, c, c', v, t, upTo, retained);
    forall b, u: nat | b in c.history.ballots && u < b.term
      ensures Acked(c'.history, b.voter, u) == Acked(c.history, b.voter, u)
    {
      assert OfficeOk(c.nodes[b.voter].office) && b.term <= c.nodes[b.voter].office.savedTerm;
    }
    BallotsStillHold(p, c, c');
  }

  // ---------- steps that touch no record ----------

  /** The records stand, logs stand, terms do not fall. */
  predicate Undisturbed(c: Cluster, c': Cluster, i: NodeId) {
    && i in c.nodes && i in c'.nodes && c'.nodes == c.nodes[i := c'.nodes[i]] && c'.history == c.history
    && c'.nodes[i].log == c.nodes[i].log && c'.nodes[i].office.term >= c.nodes[i].office.term
  }

  lemma UndisturbedKeepsPromises(p: Params, c: Cluster, c': Cluster, i: NodeId)
    requires NodesOk(c) && BallotsOk(c) && PromiseInv(p, c) && VouchedOk(c) && Undisturbed(c, c', i)
    ensures PromiseInv(p, c') && Advances(c, c')
  {
    SameLeadersStillHold(p, c, c');
    AckersStillHold(p, c, c');
    BallotsStillHold(p, c, c');
  }

  lemma UndisturbedKeepsBooks(p: Params, c: Cluster, c': Cluster, i: NodeId, sent: set<Message>)
    requires BookInv(p, c) && Undisturbed(c, c', i) && NodeOk(c.history, c.nodes.Keys, i, c'.nodes[i])
    requires c'.messages == c.messages + sent
    requires MailOk(c.history, sent)
    ensures BookInv(p, c')
  {
    assert forall s :: s in c.history.candidacies ==> CandidacyOk(c, s, c.history.candidacies[s]);
    assert CandidaciesOk(c');
    assert AckedOk(c') && VouchedOk(c') && MailOk(c'.history, c'.messages);
  }

  lemma UndisturbedKeeps(p: Params, c: Cluster, c': Cluster, i: NodeId, sent: set<Message>)
    requires ElectionInv(p, c) && BookInv(p, c) && PromiseInv(p, c)
    requires Undisturbed(c, c', i) && NodeOk(c.history, c.nodes.Keys, i, c'.nodes[i])
    requires c'.messages == c.messages + sent && MailOk(c.history, sent)
    ensures Keeps(p, c, c')
  {
    UndisturbedKeepsBooks(p, c, c', i, sent);
    UndisturbedKeepsPromises(p, c, c', i);
  }

  /** An answer that fits the batch at the head of the pipeline keeps all credit covered. */
  lemma AnswerKeepsCredit(h: History, ids: set<NodeId>, i: NodeId, n: Node, m: Message)
    requires NodeOk(h, ids, i, n) && m.AppendAnswer? && AnsweredWith(h, m) && AnswerFits(n, m)
    ensures var n' := if m.asked.entries == [] then HandleHeartbeatResponse(n, m.src, m.appendReply)
                      else HandleAppendEntriesResponse(n, m.src, m.appendReply);
            NodeOk(h, ids, i, n') && n'.log == n.log && n'.office.term >= n.office.term
  {
  }

  /** A history in which everyone vouched for no more than the leader knows, and the sender for its answer. */
  function Meagre(h: History, n: Node, m: Message): History
    requires m.AppendAnswer?
  {
    var matched, t := n.progress.matchIndex, n.office.term;
    var sent := m.asked.prevIndex + |m.asked.entries|;
    var seats := (set q | q in matched :: Seat(q, t)) + {Seat(m.src, m.asked.term)};
    h.(acked := map s | s in seats ::
                  Max(if s.term == t && s.node in matched then matched[s.node] else 0,
                      if s == Seat(m.src, m.asked.term) then sent else 0))
  }

  lemma MeagreIsConsistent(h: History, ids: set<NodeId>, i: NodeId, n: Node, m: Message)
    requires n.office.role == Leader && NodeOk(h, ids, i, n) && m.AppendAnswer? && AnsweredWith(h, m)
    ensures NodeOk(Meagre(h, n, m), ids, i, n) && AnsweredWith(Meagre(h, n, m), m)
  {
    forall q | q in n.progress.matchIndex
      ensures n.progress.matchIndex[q] <= Acked(Meagre(h, n, m), q, n.office.term)
    {
      assert Seat(q, n.office.term) in Meagre(h, n, m).acked;
    }
  }

  /**
   * From what the leader can see, an accepting answer is safe to count exactly when it fits: otherwise
   * some history, as consistent as the real one, has the peer credited with what it never vouched for.
   */
  lemma AnswerKeepsCreditIff(h: History, ids: set<NodeId>, i: NodeId, n: Node, m: Message)
    requires NodeOk(h, ids, i, n) && m.AppendAnswer? && AnsweredWith(h, m)
    requires n.office.role == Leader && n.progress.Tracks(m.src) && n.progress.InflightTo(m.src) != []
    requires m.appendReply.success && m.asked.entries != [] && m.appendReply.term <= n.office.term
    ensures (forall h' :: NodeOk(h', ids, i, n) && AnsweredWith(h', m) ==>
               ProgressOk(h', HandleAppendEntriesResponse(n, m.src, m.appendReply)))
       <==> AnswerFits(n, m)
  {
    if AnswerFits(n, m) {
      forall h' | NodeOk(h', ids, i, n) && AnsweredWith(h', m)
        ensures ProgressOk(h', HandleAppendEntriesResponse(n, m.src, m.appendReply))
      {
        AnswerKeepsCredit(h', ids, i, n, m);
      }
    } else {
      var h' := Meagre(h, n, m);
      MeagreIsConsistent(h, ids, i, n, m);
      assert HandleAppendEntriesResponse(n, m.src, m.appendReply).progress.matchIndex[m.src]
          == n.progress.InflightTo(m.src)[0].start + m.appendReply.count - 1;
      assert Acked(h', m.src, n.office.term) < n.progress.InflightTo(m.src)[0].start + m.appendReply.count - 1;
    }
  }

  /** The quiet steps: flushing, retrying, stepping down, counting a vote short of a quorum. */
  lemma QuietStepUndisturbed(p: Params, c: Cluster, step: Step, i: NodeId)
    requires NodeBooksOk(c) && Enabled(c, step)
    requires || ((step.Retry? || step.Persisted? || step.StepDown?) && i == step.n)
             || (step.ReceiveVoteReply? && !WinsByReply(p, c, step) && i == step.m.dst)
    ensures Undisturbed(c, Next(p, c, step), i)
    ensures NodeOk(c.history, c.nodes.Keys, i, Next(p, c, step).nodes[i])
  {
    assert NodeOk(c.history, c.nodes.Keys, i, c.nodes[i]);
  }

  lemma QuietStepKeeps(p: Params, c: Cluster, step: Step, i: NodeId, sent: set<Message>)
    requires ElectionInv(p, c) && BookInv(p, c) && PromiseInv(p, c) && Enabled(c, step)
    requires || ((step.Retry? || step.Persisted? || step.StepDown?) && i == step.n)
             || (step.ReceiveVoteReply? && !WinsByReply(p, c, step) && i == step.m.dst)
    requires Next(p, c, step).messages == c.messages + sent && forall m :: m in sent ==> m.AskAppend?
    ensures Keeps(p, c, Next(p, c, step))
  {
    QuietStepUndisturbed(p, c, step, i);
    UndisturbedKeeps(p, c, Next(p, c, step), i, sent);
  }

  lemma AppendReplyKeeps(p: Params, c: Cluster, m: Message)
    requires ElectionInv(p, c) && BookInv(p, c) && PromiseInv(p, c)
    requires m in c.messages && m.AppendAnswer? && m.dst in c.nodes && AnswerFits(c.nodes[m.dst], m)
    ensures Keeps(p, c, AfterAppendReply(c, m))
  {
    var c' := AfterAppendReply(c, m);
    AnswerKeepsCredit(c.history, c.nodes.Keys, m.dst, c.nodes[m.dst], m);
    UndisturbedKeeps(p, c, c', m.dst, {});
  }

  // ---------- votes ----------

  /** A ballot added to the record, perhaps with the candidacy it is for. */
  predicate Casts(c: Cluster, c': Cluster, b: Ballot) {
    && b.voter in c.nodes && b.voter in c'.nodes && c'.nodes == c.nodes[b.voter := c'.nodes[b.voter]]
    && c'.nodes[b.voter].log == c.nodes[b.voter].log && c'.nodes[b.voter].office.term >= c.nodes[b.voter].office.term
    && c'.history == c.history.(ballots := c.history.ballots + {b}, candidacies := c'.history.candidacies)
    && (forall s :: s in c.history.candidacies ==>
          s in c'.history.candidacies && c'.history.candidacies[s] == c.history.candidacies[s])
  }

  /** The new ballot goes to a candidate whose log the voter found up to date. */
  predicate CastsUpToDate(c: Cluster, c': Cluster, b: Ballot)
    requires b.voter in c.nodes
  {
    Seat(b.candidate, b.term) in c'.history.candidacies &&
    var own, cand := c.nodes[b.voter].log.entries, c'.history.candidacies[Seat(b.candidate, b.term)];
    && Grounded(c.history.termLog, own) && Grounded(c.history.termLog, cand)
    && (LastTermOf(cand) > LastTermOf(own) || (LastTermOf(cand) == LastTermOf(own) && |cand| >= |own|))
  }

  lemma NewBallotHolds(p: Params, c: Cluster, c': Cluster, b: Ballot, t: nat, i: nat, q: set<NodeId>)
    requires LeaderLogsOk(c.history) && PromiseInv(p, c) && Casts(c, c', b) && CastsUpToDate(c, c', b)
    requires t < b.term && EntryAt(c.history, t, i) && Acked(c.history, b.voter, t) >= i && Choosable(p, c, t, i, q)
    ensures CandidateHolds(c'.history, b, t, i)
  {
    assert Holds(c, b.voter, t, i);
    var seat := Seat(b.candidate, b.term);
    UpToDateCandidateHolds(c.history, c.nodes[b.voter].log.entries, c'.history.candidacies[seat], t, i);
  }

  lemma CastKeepsBallots(p: Params, c: Cluster, c': Cluster, b: Ballot)
    requires LeaderLogsOk(c.history) && PromiseInv(p, c) && Casts(c, c', b) && CastsUpToDate(c, c', b)
    ensures BallotsHold(p, c')
  {
    var h, h' := c.history, c'.history;
    forall x, t: nat, i, q |
      x in h'.ballots && t < x.term && EntryAt(h', t, i) && Acked(h', x.voter, t) >= i && Choosable(p, c', t, i, q)
      ensures CandidateHolds(h', x, t, i)
    {
      ChoosableBefore(p, c, c', t, i, q);
      assert EntryAt(h, t, i);
      if x in h.ballots {
        assert CandidateHolds(h, x, t, i);
      } else {
        NewBallotHolds(p, c, c', b, t, i, q);
      }
    }
  }

  lemma CastAdvances(c: Cluster, c': Cluster, b: Ballot)
    requires Casts(c, c', b) && VouchedOk(c)
    ensures Advances(c, c') && NewsUnvouched(c, c') && KeepsVouched(c, c') && c'.history.termLog == c.history.termLog
  {
  }

  lemma CastKeepsPromises(p: Params, c: Cluster, c': Cluster, b: Ballot)
    requires NodesOk(c) && BallotsOk(c) && LeaderLogsOk(c.history) && PromiseInv(p, c) && VouchedOk(c)
    requires Casts(c, c', b) && CastsUpToDate(c, c', b)
    ensures PromiseInv(p, c') && Advances(c, c')
  {
    CastAdvances(c, c', b);
    SameLeadersStillHold(p, c, c');
    AckersStillHold(p, c, c');
    CastKeepsBallots(p, c, c', b);
  }

  lemma CastKeepsCandidacies(c: Cluster, c': Cluster, b: Ballot)
    requires CandidaciesOk(c) && Casts(c, c', b) && Seat(b.candidate, b.term) in c'.history.candidacies
    requires forall s :: s in c'.history.candidacies && s !in c.history.candidacies ==>
               CandidacyOk(c', s, c'.history.candidacies[s])
    ensures CandidaciesOk(c')
  {
    assert forall s :: s in c.history.candidacies ==> CandidacyOk(c, s, c.history.candidacies[s]);
  }

  lemma CastKeepsMail(c: Cluster, c': Cluster, b: Ballot, sent: set<Message>)
    requires MailOk(c.history, c.messages) && Casts(c, c', b) && c'.messages == c.messages + sent
    requires MailOk(c'.history, sent)
    ensures MailOk(c'.history, c'.messages)
  {
  }

  lemma CastKeepsNodes(c: Cluster, c': Cluster, b: Ballot)
    requires NodeBooksOk(c) && Casts(c, c', b) && NodeOk(c'.history, c.nodes.Keys, b.voter, c'.nodes[b.voter])
    ensures NodeBooksOk(c')
  {
    assert forall i :: i in c.nodes ==> NodeOk(c.history, c.nodes.Keys, i, c.nodes[i]);
  }

  lemma CastKeepsAcks(p: Params, c: Cluster, c': Cluster, b: Ballot)
    requires AckedOk(c) && VouchedOk(c) && CommittedOk(p, c) && Casts(c, c', b)
    ensures AckedOk(c') && VouchedOk(c') && CommittedOk(p, c')
  {
  }

  lemma CastKeepsBooks(p: Params, c: Cluster, c': Cluster, b: Ballot, sent: set<Message>)
    requires BookInv(p, c) && Casts(c, c', b) && NodeOk(c'.history, c.nodes.Keys, b.voter, c'.nodes[b.voter])
    requires CandidaciesOk(c') && c'.messages == c.messages + sent
    requires MailOk(c'.history, sent)
    ensures BookInv(p, c')
  {
    CastKeepsMail(c, c', b, sent);
    CastKeepsNodes(c, c', b);
    CastKeepsAcks(p, c, c', b);
  }

  lemma CastKeeps(p: Params, c: Cluster, c': Cluster, b: Ballot, sent: set<Message>)
    requires ElectionInv(p, c) && LogInv(c) && BookInv(p, c) && PromiseInv(p, c)
    requires Casts(c, c', b) && CastsUpToDate(c, c', b) && NodeOk(c'.history, c.nodes.Keys, b.voter, c'.nodes[b.voter])
    requires forall s :: s in c'.history.candidacies && s !in c.history.candidacies ==>
               CandidacyOk(c', s, c'.history.candidacies[s])
    requires c'.messages == c.messages + sent
    requires MailOk(c'.history, sent)
    ensures Keeps(p, c, c')
  {
    CastKeepsCandidacies(c, c', b);
    CastKeepsBooks(p, c, c', b, sent);
    CastKeepsPromises(p, c, c', b);
  }

  lemma LogEnds(h: History, n: Node)
    requires LeaderLogsOk(h) && NodeLogOk(h, n)
    ensures n.log.LastIndex() == |n.log.entries| && n.log.LastTerm() == LastTermOf(n.log.entries)
  {
    GroundedWellFormed(h, n.log.entries);
    HeldTerm(n, 0);
  }

  predicate GrantSent(c: Cluster, c': Cluster, m: Message, reply: VoteReply)
    requires m.AskVote?
  {
    var sent := {VoteAnswer(m.dst, m.src, reply, m.vote.term)};
    c'.messages == c.messages + sent && MailOk(c'.history, sent)
  }

  lemma GrantFacts(config: ClusterConfig, n: Node, req: VoteRequest, heard: bool, saved: bool)
    requires HandleRequestVote(config, n, req, heard, saved).1.granted
    ensures var (n', reply) := HandleRequestVote(config, n, req, heard, saved);
            && n'.log == n.log && n'.peers == n.peers && n'.progress.matchIndex == n.progress.matchIndex
            && UpToDate(req, n.log) && reply.term == n'.office.term == req.term >= n.office.term
            && (n'.office.role == Follower || (n'.office.role == n.office.role && n'.office.term == n.office.term))
  {
  }

  /** A granted vote passes the handler's up-to-date check against the log the candidate stood with. */
  lemma GrantCasts(p: Params, c: Cluster, m: Message, heard: bool, saved: bool)
    requires LogInv(c) && BookInv(p, c) && m in c.messages && m.AskVote? && m.dst in c.nodes
    requires HandleRequestVote(p.config, c.nodes[m.dst], m.vote, heard, saved).1.granted
    ensures var c', b := AfterVoteRequest(p, c, m, heard, saved), Ballot(m.dst, m.vote.term, m.vote.candidate);
            && Casts(c, c', b) && CastsUpToDate(c, c', b) && c'.history.candidacies == c.history.candidacies
            && NodeOk(c'.history, c.nodes.Keys, m.dst, c'.nodes[m.dst])
            && exists reply :: GrantSent(c, c', m, reply)
  {
    var n := c.nodes[m.dst];
    assert NodeLogOk(c.history, n) && NodeOk(c.history, c.nodes.Keys, m.dst, n) && AskedWith(c.history, m);
    LogEnds(c.history, n);
    GrantFacts(p.config, n, m.vote, heard, saved);
    var s := Seat(m.vote.candidate, m.vote.term);
    assert CandidacyOk(c, s, c.history.candidacies[s]);
    var reply := HandleRequestVote(p.config, n, m.vote, heard, saved).1;
    assert GrantSent(c, AfterVoteRequest(p, c, m, heard, saved), m, reply);
  }

  lemma RefusalUndisturbed(p: Params, c: Cluster, m: Message, heard: bool, saved: bool)
    requires NodeBooksOk(c) && m.AskVote? && m.dst in c.nodes
    requires !HandleRequestVote(p.config, c.nodes[m.dst], m.vote, heard, saved).1.granted
    ensures var c' := AfterVoteRequest(p, c, m, heard, saved);
            Undisturbed(c, c', m.dst) && NodeOk(c.history, c.nodes.Keys, m.dst, c'.nodes[m.dst])
  {
    assert NodeOk(c.history, c.nodes.Keys, m.dst, c.nodes[m.dst]);
  }

  lemma GrantKeeps(p: Params, c: Cluster, m: Message, heard: bool, saved: bool)
    requires ElectionInv(p, c) && LogInv(c) && BookInv(p, c) && PromiseInv(p, c)
    requires m in c.messages && m.AskVote? && m.dst in c.nodes
    requires HandleRequestVote(p.config, c.nodes[m.dst], m.vote, heard, saved).1.granted
    ensures var c' := AfterVoteRequest(p, c, m, heard, saved); Keeps(p, c, c')
  {
    var c', b := AfterVoteRequest(p, c, m, heard, saved), Ballot(m.dst, m.vote.term, m.vote.candidate);
    GrantCasts(p, c, m, heard, saved);
    var reply :| GrantSent(c, c', m, reply);
    CastKeeps(p, c, c', b, {VoteAnswer(m.dst, m.src, reply, m.vote.term)});
  }

  lemma RefusalKeeps(p: Params, c: Cluster, m: Message, heard: bool, saved: bool)
    requires ElectionInv(p, c) && BookInv(p, c) && PromiseInv(p, c)
    requires m in c.messages && m.AskVote? && m.dst in c.nodes
    requires !HandleRequestVote(p.config, c.nodes[m.dst], m.vote, heard, saved).1.granted
    ensures var c' := AfterVoteRequest(p, c, m, heard, saved); Keeps(p, c, c')
  {
    var c' := AfterVoteRequest(p, c, m, heard, saved);
    var reply := HandleRequestVote(p.config, c.nodes[m.dst], m.vote, heard, saved).1;
    RefusalUndisturbed(p, c, m, heard, saved);
    UndisturbedKeeps(p, c, c', m.dst, {VoteAnswer(m.dst, m.src, reply, m.vote.term)});
  }

  /** Standing for election casts the candidate's own ballot. */
  lemma StandCasts(p: Params, c: Cluster, i: NodeId, sent: set<Message>)
    requires LogInv(c) && BookInv(p, c) && i in c.nodes && c.nodes[i].id == i && OfficeOk(c.nodes[i].office)
    requires var cand := BecomeCandidate(c.nodes[i]);
             forall m :: m in sent ==> exists q :: m == AskVote(i, q, VoteRequestOf(cand))
    ensures var cand := BecomeCandidate(c.nodes[i]);
            var c', b := With(c, i, cand, sent, Stand(c.history, cand)), Ballot(i, cand.office.term, i);
            && Casts(c, c', b) && CastsUpToDate(c, c', b) && NodeOk(c'.history, c.nodes.Keys, i, cand)
            && CandidacyOk(c', Seat(i, cand.office.term), cand.log.entries)
            && MailOk(c'.history, sent)
  {
    var n, cand := c.nodes[i], BecomeCandidate(c.nodes[i]);
    assert NodeLogOk(c.history, n) && NodeOk(c.history, c.nodes.Keys, i, n);
    LogEnds(c.history, n);
    assert forall s :: s in c.history.candidacies ==> CandidacyOk(c, s, c.history.candidacies[s]);
    assert Seat(i, cand.office.term) !in c.history.candidacies;
  }

  lemma StandKeeps(p: Params, c: Cluster, i: NodeId, sent: set<Message>)
    requires ElectionInv(p, c) && LogInv(c) && BookInv(p, c) && PromiseInv(p, c) && i in c.nodes
    requires var cand := BecomeCandidate(c.nodes[i]);
             forall m :: m in sent ==> exists q :: m == AskVote(i, q, VoteRequestOf(cand))
    ensures var cand := BecomeCandidate(c.nodes[i]);
            var c' := With(c, i, cand, sent, Stand(c.history, cand));
            Keeps(p, c, c')
  {
    var cand := BecomeCandidate(c.nodes[i]);
    var c', b := With(c, i, cand, sent, Stand(c.history, cand)), Ballot(i, cand.office.term, i);
    StandCasts(p, c, i, sent);
    CastKeeps(p, c, c', b, sent);
  }

  // ---------- taking office ----------

  /** The winner's electors hand it everything that could be chosen. */
  lemma WinnerHolds(p: Params, c: Cluster, cand: Node, t: nat, i: nat, q: set<NodeId>)
    requires NodesOk(c) && BallotsOk(c) && BallotsHold(p, c) && Winning(p, c, cand) && t < cand.office.term
    requires CandidateOk(c.history, cand.id, c.nodes[cand.id]) && cand.office.term !in c.history.leaderOf
    requires EntryAt(c.history, t, i) && Choosable(p, c, t, i, q)
    ensures Agree(cand.log.entries, c.history.termLog[t], i)
  {
    CommitMeetsElection(p.config, q, cand.office.votes);
    var v :| v in q && v in cand.office.votes;
    var b := Ballot(v, cand.office.term, cand.id);
    assert b in c.history.ballots && OfficeOk(c.nodes[v].office);
    assert CandidateHolds(c.history, b, t, i);
  }

  /** The candidate takes office with the log it stood with. */
  predicate TakesOffice(c: Cluster, c': Cluster, cand: Node) {
    var i, t := cand.id, cand.office.term;
    && i in c.nodes && i in c'.nodes && t !in c.history.leaderOf && t !in c.history.termLog
    && c'.nodes == c.nodes[i := c'.nodes[i]] && c'.messages == c.messages
    && c'.nodes[i].log == c.nodes[i].log && c'.nodes[i].office.term == c.nodes[i].office.term == t
    && c'.nodes[i].office.role == Leader && c'.nodes[i].peers == c.nodes[i].peers
    && c'.nodes[i].progress.matchIndex == (map p | p in c.nodes[i].peers :: 0)
    && c'.history == c.history.(leaderOf := c.history.leaderOf[t := i], electors := c'.history.electors,
                                termLog := c.history.termLog[t := c.nodes[i].log.entries])
    && Seat(i, t) in c.history.candidacies && c.history.candidacies[Seat(i, t)] == c.nodes[i].log.entries
  }

  lemma InaugurationTakesOffice(p: Params, c: Cluster, cand: Node)
    requires Winning(p, c, cand) && cand.office.term !in c.history.leaderOf
    requires c.history.leaderOf.Keys == c.history.termLog.Keys && CandidateOk(c.history, cand.id, c.nodes[cand.id])
    ensures TakesOffice(c, Inaugurate(c, cand), cand)
  {
  }

  lemma OfficeAdvances(c: Cluster, c': Cluster, cand: Node)
    requires TakesOffice(c, c', cand) && VouchedOk(c)
    ensures Advances(c, c') && KeepsVouched(c, c')
  {
  }

  /** Taking office brings no entry of the new term. */
  lemma OfficeBringsNoEntry(c: Cluster, c': Cluster, cand: Node, t: nat, i: nat)
    requires TakesOffice(c, c', cand) && CandidaciesOk(c) && EntryAt(c'.history, t, i)
    ensures EntryAt(c.history, t, i)
  {
    var s := Seat(cand.id, cand.office.term);
    assert CandidacyOk(c, s, c.history.candidacies[s]);
  }

  lemma OfficeNewsUnvouched(c: Cluster, c': Cluster, cand: Node)
    requires TakesOffice(c, c', cand) && CandidaciesOk(c)
    ensures NewsUnvouched(c, c')
  {
    forall t, i | EntryAt(c'.history, t, i) ensures EntryAt(c.history, t, i) {
      OfficeBringsNoEntry(c, c', cand, t, i);
    }
  }

  lemma NewLeaderHolds(p: Params, c: Cluster, c': Cluster, cand: Node)
    requires NodesOk(c) && BallotsOk(c) && BallotsHold(p, c) && CandidaciesOk(c)
    requires Winning(p, c, cand) && TakesOffice(c, c', cand)
    ensures NewLeadersHold(p, c, c')
  {
    forall t: nat, u, i, q |
      && u in c'.history.termLog && u !in c.history.termLog && t < u
      && EntryAt(c'.history, t, i) && Choosable(p, c, t, i, q)
      ensures LeaderHolds(c'.history, u, t, i)
    {
      OfficeBringsNoEntry(c, c', cand, t, i);
      WinnerHolds(p, c, cand, t, i, q);
    }
  }

  lemma OfficeKeepsPromises(p: Params, c: Cluster, c': Cluster, cand: Node)
    requires ElectionInv(p, c) && PromiseInv(p, c) && VouchedOk(c) && CandidaciesOk(c)
    requires Winning(p, c, cand) && TakesOffice(c, c', cand)
    ensures PromiseInv(p, c') && Advances(c, c')
  {
    OfficeAdvances(c, c', cand);
    OfficeNewsUnvouched(c, c', cand);
    NewLeaderHolds(p, c, c', cand);
    LaterLeadersStillHold(p, c, c');
    AckersStillHold(p, c, c');
    BallotsStillHold(p, c, c');
  }

  lemma OfficeKeepsNodes(c: Cluster, c': Cluster, cand: Node)
    requires NodeBooksOk(c) && TakesOffice(c, c', cand)
    ensures NodeBooksOk(c')
  {
    assert forall i :: i in c.nodes ==> NodeOk(c.history, c.nodes.Keys, i, c.nodes[i]);
  }

  lemma OfficeKeepsBooks(p: Params, c: Cluster, c': Cluster, cand: Node)
    requires BookInv(p, c) && TakesOffice(c, c', cand)
    ensures BookInv(p, c')
  {
    GrowthKeepsRecords(p, c, c');
    OfficeKeepsNodes(c, c', cand);
  }

  /** Leader logs grow and nodes move on; the records about them stay in step. */
  lemma GrowthKeepsRecords(p: Params, c: Cluster, c': Cluster)
    requires AckedOk(c) && CandidaciesOk(c) && CommittedOk(p, c)
    requires c'.nodes.Keys == c.nodes.Keys && Grows(c.history.termLog, c'.history.termLog)
    requires forall v :: v in c.nodes ==> c.nodes[v].office.term <= c'.nodes[v].office.term
    requires var h, h' := c.history, c'.history;
             && h'.acked == h.acked && h'.ballots == h.ballots
             && h'.candidacies == h.candidacies && h'.committed == h.committed
    ensures AckedOk(c') && CandidaciesOk(c') && CommittedOk(p, c')
  {
    forall s | s in c.history.candidacies ensures CandidacyOk(c', s, c.history.candidacies[s]) {
      assert CandidacyOk(c, s, c.history.candidacies[s]);
      GroundedGrows(c.history.termLog, c'.history.termLog, c.history.candidacies[s]);
    }
    forall k | k in c.history.committed ensures EntryAt(c'.history, k.term, k.index) {
      assert EntryAt(c.history, k.term, k.index);
    }
  }

  lemma WinKeeps(p: Params, c: Cluster, cand: Node)
    requires ElectionInv(p, c) && BookInv(p, c) && PromiseInv(p, c) && Winning(p, c, cand)
    ensures Keeps(p, c, Inaugurate(c, cand))
  {
    WinKeepsInv(p, c, cand);
    assert NodeOk(c.history, c.nodes.Keys, cand.id, c.nodes[cand.id]);
    InaugurationTakesOffice(p, c, cand);
    OfficeKeepsBooks(p, c, Inaugurate(c, cand), cand);
    OfficeKeepsPromises(p, c, Inaugurate(c, cand), cand);
  }

  lemma StandAndWinKeeps(p: Params, c: Cluster, i: NodeId)
    requires ElectionInv(p, c) && LogInv(c) && BookInv(p, c) && PromiseInv(p, c) && i in c.nodes
    requires ElectionQuorum(p.config, BecomeCandidate(c.nodes[i]).office.votes)
    ensures var cand := BecomeCandidate(c.nodes[i]);
            var c' := Inaugurate(With(c, i, cand, {}, Stand(c.history, cand)), cand);
            Keeps(p, c, c')
  {
    var cand := BecomeCandidate(c.nodes[i]);
    var mid := With(c, i, cand, {}, Stand(c.history, cand));
    StandKeeps(p, c, i, {});
    StandKeepsInv(p, c, i, {});
    WinKeeps(p, mid, cand);
    AdvancesOn(c, mid, Inaugurate(mid, cand));
  }

  lemma TimeoutKeeps(p: Params, c: Cluster, i: NodeId)
    requires ElectionInv(p, c) && LogInv(c) && BookInv(p, c) && PromiseInv(p, c)
    requires i in c.nodes && c.nodes[i].office.role != Leader
    ensures Keeps(p, c, AfterTimeout(p, c, i))
  {
    var cand := BecomeCandidate(c.nodes[i]);
    if ElectionQuorum(p.config, cand.office.votes) {
      TimeoutWinSplits(p, c, i);
      StandAndWinKeeps(p, c, i);
    } else {
      StandKeeps(p, c, i, set q | q in cand.peers :: AskVote(cand.id, q, VoteRequestOf(cand)));
    }
  }

  lemma ReplyWinKeeps(p: Params, c: Cluster, m: Message)
    requires ElectionInv(p, c) && BookInv(p, c) && PromiseInv(p, c) && Enabled(c, ReceiveVoteReply(m))
    requires WinsByReply(p, c, ReceiveVoteReply(m))
    ensures Keeps(p, c, AfterVoteReply(p, c, m))
  {
    var n := c.nodes[m.dst];
    assert VoteMessageOk(c.history, m);
    var cand := n.(office := n.office.(votes := n.office.votes + {m.src}));
    WinKeeps(p, c, cand);
    assert AfterVoteReply(p, c, m) == Inaugurate(c, cand);
  }

  // ---------- proposing ----------

  /** The leader `i` appends `e` to its own log, which is the log of its term. */
  predicate Appends(c: Cluster, c': Cluster, i: NodeId, e: Entry) {
    && i in c.nodes && c.nodes[i].office.term in c.history.termLog
    && c'.nodes == c.nodes[i := c.nodes[i].(log := Log(1, c.nodes[i].log.entries + [e]))]
    && c'.messages == c.messages && c'.history == Extended(c.history, c.nodes[i].office.term, e)
    && c.nodes[i].office.role == Leader && c.nodes[i].log.entries == c.history.termLog[c.nodes[i].office.term]
  }

  lemma AppendsAdvances(c: Cluster, c': Cluster, i: NodeId, e: Entry)
    requires Appends(c, c', i, e) && AckedOk(c) && VouchedOk(c)
    ensures Advances(c, c') && NewsUnvouched(c, c') && KeepsVouched(c, c')
    ensures c'.history.termLog.Keys == c.history.termLog.Keys
  {
  }

  lemma AppendsKeepsPromises(p: Params, c: Cluster, c': Cluster, i: NodeId, e: Entry)
    requires ElectionInv(p, c) && PromiseInv(p, c) && AckedOk(c) && VouchedOk(c) && Appends(c, c', i, e)
    ensures PromiseInv(p, c') && Advances(c, c')
  {
    AppendsAdvances(c, c', i, e);
    LaterLeadersStillHold(p, c, c');
    AckersStillHold(p, c, c');
    BallotsStillHold(p, c, c');
  }

  lemma AppendsKeepsNodes(c: Cluster, c': Cluster, i: NodeId, e: Entry)
    requires NodeBooksOk(c) && Appends(c, c', i, e)
    ensures NodeBooksOk(c')
  {
    assert forall j :: j in c.nodes ==> NodeOk(c.history, c.nodes.Keys, j, c.nodes[j]);
  }

  lemma AppendsKeepsBooks(p: Params, c: Cluster, c': Cluster, i: NodeId, e: Entry)
    requires BookInv(p, c) && Appends(c, c', i, e)
    ensures BookInv(p, c')
  {
    GrowthKeepsRecords(p, c, c');
    AppendsKeepsNodes(c, c', i, e);
  }

  lemma ProposeAppends(c: Cluster, i: NodeId, data: string)
    requires LeaderLogsOk(c.history) && Leads(c, i) && NodeLogOk(c.history, c.nodes[i])
    ensures Appends(c, AfterPropose(c, i, data), i, Entry(|c.nodes[i].log.entries| + 1, c.nodes[i].office.term, data))
  {
    ProposeExtends(c, i, data);
  }

  lemma ProposeKeeps(p: Params, c: Cluster, i: NodeId, data: string)
    requires ElectionInv(p, c) && LogInv(c) && BookInv(p, c) && PromiseInv(p, c) && Leads(c, i)
    ensures Keeps(p, c, AfterPropose(c, i, data))
  {
    var c', e := AfterPropose(c, i, data), Entry(|c.nodes[i].log.entries| + 1, c.nodes[i].office.term, data);
    assert NodeLogOk(c.history, c.nodes[i]);
    ProposeAppends(c, i, data);
    AppendsKeepsBooks(p, c, c', i, e);
    AppendsKeepsPromises(p, c, c', i, e);
  }

  // ---------- replicating and committing ----------

  lemma VouchKeepsRecords(c: Cluster, c': Cluster, v: NodeId, t: nat, upTo: nat, retained: nat)
    requires AckedOk(c) && VouchedOk(c) && CandidaciesOk(c) && Vouches(c, c', v, t, upTo, retained)
    ensures AckedOk(c') && VouchedOk(c') && CandidaciesOk(c')
  {
    assert forall s :: s in c.history.candidacies ==> CandidacyOk(c, s, c.history.candidacies[s]);
  }

  lemma VouchKeepsMail(c: Cluster, c': Cluster, v: NodeId, t: nat, upTo: nat, retained: nat, sent: set<Message>)
    requires MailOk(c.history, c.messages) && Vouches(c, c', v, t, upTo, retained) && c'.messages == c.messages + sent
    requires MailOk(c'.history, sent)
    ensures MailOk(c'.history, c'.messages)
  {
    VouchAdvances(c, c', v, t, upTo, retained);
  }

  lemma VouchKeepsNodes(c: Cluster, c': Cluster, v: NodeId, t: nat, upTo: nat, retained: nat)
    requires NodeBooksOk(c) && Vouches(c, c', v, t, upTo, retained) && c'.history.leaderOf == c.history.leaderOf
    requires NodeOk(c.history, c.nodes.Keys, v, c'.nodes[v])
    ensures NodeBooksOk(c')
  {
    VouchAdvances(c, c', v, t, upTo, retained);
    assert forall j :: j in c.nodes ==> NodeOk(c.history, c.nodes.Keys, j, c.nodes[j]);
  }

  lemma VouchKeepsCommitted(p: Params, c: Cluster, c': Cluster, v: NodeId, t: nat, upTo: nat, retained: nat)
    requires CommittedOk(p, c) && Vouches(c, c', v, t, upTo, retained) && c'.history.committed == c.history.committed
    ensures CommittedOk(p, c')
  {
    VouchAdvances(c, c', v, t, upTo, retained);
  }

  lemma VouchKeepsBooks(p: Params, c: Cluster, c': Cluster, v: NodeId, t: nat, upTo: nat, retained: nat,
                        sent: set<Message>)
    requires BookInv(p, c) && Vouches(c, c', v, t, upTo, retained)
    requires c'.history.leaderOf == c.history.leaderOf && NodeOk(c.history, c.nodes.Keys, v, c'.nodes[v])
    requires c'.messages == c.messages + sent && MailOk(c'.history, sent)
    requires c'.history.committed != c.history.committed ==> CommittedOk(p, c')
    ensures BookInv(p, c')
  {
    if c'.history.committed == c.history.committed {
      VouchKeepsCommitted(p, c, c', v, t, upTo, retained);
    }
    VouchKeepsRecords(c, c', v, t, upTo, retained);
    VouchKeepsMail(c, c', v, t, upTo, retained, sent);
    VouchKeepsNodes(c, c', v, t, upTo, retained);
  }

  lemma AppendKeepsProgress(config: ClusterConfig, n: Node, req: AppendRequest)
    ensures var n' := HandleAppendEntries(config, n, req).0;
            && n'.peers == n.peers && n'.progress.matchIndex == n.progress.matchIndex
            && (n'.office.role == Follower || n'.office == n.office) && n'.office.term >= n.office.term
  {
    ReplicateKeepsOffice(if req.term > n.office.term then BecomeFollower(n, req.term) else n, req);
  }

  lemma AppendNodeOk(p: Params, c: Cluster, m: Message)
    requires LeadersRecorded(c) && LogInv(c) && NodeBooksOk(c) && m in c.messages && m.AskAppend? && m.dst in c.nodes
    ensures var n' := HandleAppendEntries(p.config, c.nodes[m.dst], m.append).0;
            NodeOk(c.history, c.nodes.Keys, m.dst, n') && n'.office.term >= c.nodes[m.dst].office.term
  {
    assert NodeOk(c.history, c.nodes.Keys, m.dst, c.nodes[m.dst]) && AppendMessageOk(c.history, m);
    AppendOutcome(p, c, m);
    AppendKeepsProgress(p.config, c.nodes[m.dst], m.append);
  }

  /** What accepting the batch of `m` made of its receiver. */
  ghost predicate Accepted(c: Cluster, m: Message, n': Node, retained: nat)
    requires m.AskAppend? && m.dst in c.nodes
  {
    && m.append.term in c.history.termLog
    && Outcome(c.nodes[m.dst], n', m.append, c.history.termLog[m.append.term], true)
    && retained == |CutConflict(c.nodes[m.dst], m.append.entries).log.entries|
    && NodeOk(c.history, c.nodes.Keys, m.dst, n')
  }

  lemma AcceptedCount(config: ClusterConfig, n: Node, req: AppendRequest)
    requires HandleAppendEntries(config, n, req).1.success
    ensures HandleAppendEntries(config, n, req).1.count == |req.entries|
  {
  }

  lemma AcceptedFacts(p: Params, c: Cluster, m: Message)
    requires LeadersRecorded(c) && LogInv(c) && NodeBooksOk(c)
    requires m in c.messages && m.AskAppend? && m.dst in c.nodes && m.append.entries != []
    requires HandleAppendEntries(p.config, c.nodes[m.dst], m.append).1.success
    ensures Accepted(c, m, HandleAppendEntries(p.config, c.nodes[m.dst], m.append).0,
                     |CutConflict(c.nodes[m.dst], m.append.entries).log.entries|)
  {
    AppendOutcome(p, c, m);
    AppendNodeOk(p, c, m);
  }

  lemma AcceptedVouches(c: Cluster, m: Message, n': Node, reply: AppendReply, retained: nat)
    requires m.AskAppend? && m.dst in c.nodes && Accepted(c, m, n', retained)
    requires reply.success && m.append.entries != [] && reply.count == |m.append.entries|
    ensures var c' := AppendEffect(c, m, n', reply, retained);
            && Vouches(c, c', m.dst, m.append.term, m.append.prevIndex + |m.append.entries|, retained)
            && RetainsAgreement(c, m.dst, m.append.term, retained)
            && c'.history.leaderOf == c.history.leaderOf && c'.history.committed == c.history.committed
            && c'.messages == c.messages + {AppendAnswer(m.dst, m.src, reply, m.append)}
            && MailOk(c'.history, {AppendAnswer(m.dst, m.src, reply, m.append)})
            && NodeOk(c.history, c.nodes.Keys, m.dst, c'.nodes[m.dst])
  {
  }

  lemma AcceptedKeepsBooks(p: Params, c: Cluster, m: Message, n': Node, reply: AppendReply, retained: nat)
    requires BookInv(p, c) && m.AskAppend? && m.dst in c.nodes && Accepted(c, m, n', retained)
    requires reply.success && m.append.entries != [] && reply.count == |m.append.entries|
    ensures BookInv(p, AppendEffect(c, m, n', reply, retained))
  {
    var c', upTo := AppendEffect(c, m, n', reply, retained), m.append.prevIndex + |m.append.entries|;
    AcceptedVouches(c, m, n', reply, retained);
    VouchKeepsBooks(p, c, c', m.dst, m.append.term, upTo, retained, {AppendAnswer(m.dst, m.src, reply, m.append)});
  }

  lemma AcceptedKeepsPromises(p: Params, c: Cluster, m: Message, n': Node, reply: AppendReply, retained: nat)
    requires NodesOk(c) && BallotsOk(c) && PromiseInv(p, c) && AckedOk(c)
    requires m.AskAppend? && m.dst in c.nodes && Accepted(c, m, n', retained)
    requires reply.success && m.append.entries != [] && reply.count == |m.append.entries|
    ensures var c' := AppendEffect(c, m, n', reply, retained); PromiseInv(p, c') && Advances(c, c')
  {
    var c', upTo := AppendEffect(c, m, n', reply, retained), m.append.prevIndex + |m.append.entries|;
    AcceptedVouches(c, m, n', reply, retained);
    assert Vouches(c, c', m.dst, m.append.term, upTo, retained) && RetainsAgreement(c, m.dst, m.append.term, retained);
    VouchKeepsPromises(p, c, c', m.dst, m.append.term, upTo, retained);
  }

  lemma AcceptKeeps(p: Params, c: Cluster, m: Message)
    requires ElectionInv(p, c) && LogInv(c) && BookInv(p, c) && PromiseInv(p, c)
    requires m in c.messages && m.AskAppend? && m.dst in c.nodes && m.append.entries != []
    requires HandleAppendEntries(p.config, c.nodes[m.dst], m.append).1.success
    ensures Keeps(p, c, AfterAppend(p, c, m))
  {
    var (n', reply) := HandleAppendEntries(p.config, c.nodes[m.dst], m.append);
    AcceptedFacts(p, c, m);
    AcceptedCount(p.config, c.nodes[m.dst], m.append);
    AcceptedKeepsBooks(p, c, m, n', reply, |CutConflict(c.nodes[m.dst], m.append.entries).log.entries|);
    AcceptedKeepsPromises(p, c, m, n', reply, |CutConflict(c.nodes[m.dst], m.append.entries).log.entries|);
  }

  lemma RejectedKeeps(p: Params, c: Cluster, m: Message, n': Node, reply: AppendReply, retained: nat)
    requires ElectionInv(p, c) && BookInv(p, c) && PromiseInv(p, c) && m.AskAppend? && m.dst in c.nodes
    requires m.append.entries == [] || !reply.success
    requires n'.log == c.nodes[m.dst].log && n'.office.term >= c.nodes[m.dst].office.term
    requires NodeOk(c.history, c.nodes.Keys, m.dst, n')
    ensures var c' := AppendEffect(c, m, n', reply, retained); Keeps(p, c, c')
  {
    var c', sent := AppendEffect(c, m, n', reply, retained), {AppendAnswer(m.dst, m.src, reply, m.append)};
    assert Undisturbed(c, c', m.dst) && MailOk(c.history, sent);
    UndisturbedKeeps(p, c, c', m.dst, sent);
  }

  lemma RejectKeeps(p: Params, c: Cluster, m: Message)
    requires ElectionInv(p, c) && LogInv(c) && BookInv(p, c) && PromiseInv(p, c)
    requires m in c.messages && m.AskAppend? && m.dst in c.nodes
    requires m.append.entries == [] || !HandleAppendEntries(p.config, c.nodes[m.dst], m.append).1.success
    ensures Keeps(p, c, AfterAppend(p, c, m))
  {
    var (n', reply) := HandleAppendEntries(p.config, c.nodes[m.dst], m.append);
    AppendOutcome(p, c, m);
    AppendNodeOk(p, c, m);
    RejectedKeeps(p, c, m, n', reply, |CutConflict(c.nodes[m.dst], m.append.entries).log.entries|);
  }

  // ---------- committing ----------

  /** What the scan found: an entry of the leader's own term, held by a commit quorum. */
  lemma {:induction false} ScanFindsQuorum(config: ClusterConfig, n: Node, index: nat)
    ensures var r := CommitScan(config, n, index);
            && n.commitIndex <= r
            && (r > n.commitIndex ==>
                  r <= index && TermAt(n, r) == n.office.term && CommitQuorum(config, Holders(n, r)))
  {
    if index > n.commitIndex && TermAt(n, index) == n.office.term && !CommitQuorum(config, Holders(n, index)) {
      ScanFindsQuorum(config, n, index - 1);
    }
  }

  /** A committed index is an entry of the term, and everyone counted has vouched for it. */
  lemma CommitIsVouched(p: Params, c: Cluster, i: NodeId, index: nat)
    requires LogInv(c) && NodeBooksOk(c) && Leads(c, i) && c.nodes[i].id == i && 1 <= c.nodes[i].office.term
    requires index == TryCommit(p.config, c.nodes[i]).commitIndex > c.nodes[i].commitIndex
    ensures EntryAt(c.history, c.nodes[i].office.term, index) && index <= |c.nodes[i].log.entries|
    ensures c.nodes[i].log.entries == c.history.termLog[c.nodes[i].office.term]
    ensures CommitQuorum(p.config, Holders(c.nodes[i], index))
    ensures forall v :: v in Holders(c.nodes[i], index) ==>
              v == i || Acked(c.history, v, c.nodes[i].office.term) >= index
  {
    var n := c.nodes[i];
    assert NodeLogOk(c.history, n) && NodeOk(c.history, c.nodes.Keys, i, n);
    GroundedWellFormed(c.history, n.log.entries);
    HeldTerm(n, index);
    ScanFindsQuorum(p.config, n, CommitCeiling(n));
  }

  /** The leader's commit as a vouching step of its own. */
  predicate CommitsAt(c: Cluster, c': Cluster, i: NodeId, index: nat, q: set<NodeId>) {
    && i in c.nodes && i in c'.nodes
    && var n, t := c.nodes[i], c.nodes[i].office.term;
       && c' == With(c, i, n.(commitIndex := index), {},
                     Vouch(c.history, i, t, index, |n.log.entries|)
                     .(committed := c.history.committed + {Commitment(t, index, q)}))
       && EntryAt(c.history, t, index) && n.log.entries == c.history.termLog[t]
  }

  lemma CommitVouches(c: Cluster, c': Cluster, i: NodeId, index: nat, q: set<NodeId>)
    requires CommitsAt(c, c', i, index, q) && NodeBooksOk(c)
    ensures var n, t := c.nodes[i], c.nodes[i].office.term;
            && Vouches(c, c', i, t, index, |n.log.entries|) && RetainsAgreement(c, i, t, |n.log.entries|)
            && c'.history.leaderOf == c.history.leaderOf && c'.messages == c.messages + {}
            && NodeOk(c.history, c.nodes.Keys, i, c'.nodes[i])
  {
    assert NodeOk(c.history, c.nodes.Keys, i, c.nodes[i]);
  }

  lemma CommitRecordOk(p: Params, c: Cluster, c': Cluster, i: NodeId, index: nat, q: set<NodeId>)
    requires CommittedOk(p, c) && CommitsAt(c, c', i, index, q) && CommitQuorum(p.config, q)
    requires forall v :: v in q ==> v == i || Acked(c.history, v, c.nodes[i].office.term) >= index
    ensures CommittedOk(p, c')
  {
    var t := c.nodes[i].office.term;
    assert EntryAt(c'.history, t, index) && Acked(c'.history, i, t) >= index;
    forall k | k in c'.history.committed
      ensures && EntryAt(c'.history, k.term, k.index) && CommitQuorum(p.config, k.quorum)
              && (forall v :: v in k.quorum ==> Acked(c'.history, v, k.term) >= k.index)
    {
      if k in c.history.committed {
        assert EntryAt(c.history, k.term, k.index);
      } else {
        assert k == Commitment(t, index, q);
      }
    }
  }

  lemma CommitsKeeps(p: Params, c: Cluster, c': Cluster, i: NodeId, index: nat, q: set<NodeId>)
    requires ElectionInv(p, c) && BookInv(p, c) && PromiseInv(p, c)
    requires CommitsAt(c, c', i, index, q) && CommittedOk(p, c')
    ensures Keeps(p, c, c')
  {
    CommitVouches(c, c', i, index, q);
    VouchKeepsBooks(p, c, c', i, c.nodes[i].office.term, index, |c.nodes[i].log.entries|, {});
    VouchKeepsPromises(p, c, c', i, c.nodes[i].office.term, index, |c.nodes[i].log.entries|);
  }

  lemma CommitKeeps(p: Params, c: Cluster, i: NodeId)
    requires ElectionInv(p, c) && LogInv(c) && BookInv(p, c) && PromiseInv(p, c) && Leads(c, i)
    ensures Keeps(p, c, AfterCommit(p, c, i))
  {
    var n, c' := c.nodes[i], AfterCommit(p, c, i);
    var index := TryCommit(p.config, n).commitIndex;
    assert RoleOk(c.history, i, n.office) && NodeOk(c.history, c.nodes.Keys, i, n);
    if index > n.commitIndex {
      CommitIsVouched(p, c, i, index);
      CommitRecordOk(p, c, c', i, index, Holders(n, index));
      CommitsKeeps(p, c, c', i, index, Holders(n, index));
    } else {
      UndisturbedKeeps(p, c, c', i, {});
    }
  }

  // ---------- restarting ----------

  /** A restart that keeps what the node vouched for. */
  predicate Restarts(c: Cluster, c': Cluster, i: NodeId, found: seq<Entry>) {
    && i in c.nodes && KeepsOwn(c, i, found)
    && c' == With(c, i, Restart(c.nodes[i], found), {}, c.history)
  }

  lemma CrashKeepsPromises(p: Params, c: Cluster, c': Cluster, i: NodeId, found: seq<Entry>)
    requires NodesOk(c) && BallotsOk(c) && PromiseInv(p, c) && VouchedOk(c) && Restarts(c, c', i, found)
    ensures PromiseInv(p, c') && Advances(c, c')
  {
    CrashAdvances(c, c', i, found);
    SameLeadersStillHold(p, c, c');
    AckersStillHold(p, c, c');
    BallotsStillHold(p, c, c');
  }

  lemma CrashAdvances(c: Cluster, c': Cluster, i: NodeId, found: seq<Entry>)
    requires NodesOk(c) && VouchedOk(c) && Restarts(c, c', i, found)
    ensures Advances(c, c') && NewsUnvouched(c, c') && KeepsVouched(c, c')
  {
    var own, k := c.nodes[i].log.entries, Vouched(c.history, i);
    assert OfficeOk(c.nodes[i].office);
    assert found[..k] == own[..k];
  }

  lemma CrashKeepsBooks(p: Params, c: Cluster, c': Cluster, i: NodeId, found: seq<Entry>)
    requires NodesOk(c) && BookInv(p, c) && Restarts(c, c', i, found)
    ensures BookInv(p, c')
  {
    assert OfficeOk(c.nodes[i].office) && NodeOk(c.history, c.nodes.Keys, i, c.nodes[i]);
    GrowthKeepsRecords(p, c, c');
  }

  lemma CrashKeeps(p: Params, c: Cluster, i: NodeId, found: seq<Entry>)
    requires ElectionInv(p, c) && BookInv(p, c) && PromiseInv(p, c)
    requires i in c.nodes && KeepsOwn(c, i, found)
    ensures Keeps(p, c, With(c, i, Restart(c.nodes[i], found), {}, c.history))
  {
    var c' := With(c, i, Restart(c.nodes[i], found), {}, c.history);
    CrashKeepsBooks(p, c, c', i, found);
    CrashKeepsPromises(p, c, c', i, found);
  }

  // ---------- runs ----------

  lemma SendUndisturbed(p: Params, c: Cluster, i: NodeId, peer: NodeId) returns (sent: set<Message>)
    requires NodeBooksOk(c) && Leads(c, i)
    ensures var c' := AfterSend(p, c, i, peer);
            && Undisturbed(c, c', i) && NodeOk(c.history, c.nodes.Keys, i, c'.nodes[i])
            && c'.messages == c.messages + sent && MailOk(c.history, sent)
  {
    assert NodeOk(c.history, c.nodes.Keys, i, c.nodes[i]);
    var req := SendAppendEntries(p.limits, c.nodes[i], peer).1;
    sent := if req.Some? then {AskAppend(i, peer, req.value)} else {};
  }

  lemma SendKeeps(p: Params, c: Cluster, i: NodeId, peer: NodeId)
    requires ElectionInv(p, c) && BookInv(p, c) && PromiseInv(p, c) && Leads(c, i)
    ensures Keeps(p, c, AfterSend(p, c, i, peer))
  {
    var sent := SendUndisturbed(p, c, i, peer);
    UndisturbedKeeps(p, c, AfterSend(p, c, i, peer), i, sent);
  }

  lemma ReadHeartbeatUndisturbed(p: Params, c: Cluster, i: NodeId, peer: NodeId) returns (sent: set<Message>)
    requires NodeBooksOk(c) && Enabled(c, SendReadHeartbeat(i, peer))
    ensures var c' := AfterReadHeartbeat(p, c, i, peer);
            && Undisturbed(c, c', i) && NodeOk(c.history, c.nodes.Keys, i, c'.nodes[i])
            && c'.messages == c.messages + sent && MailOk(c.history, sent)
  {
    var n := c.nodes[i];
    assert NodeOk(c.history, c.nodes.Keys, i, n) && c.nodes[i := n] == c.nodes;
    sent := {AskAppend(i, peer, NextRequest(p.limits, n, n.progress.nextIndex[peer]).(entries := []))};
  }

  lemma ReadHeartbeatKeeps(p: Params, c: Cluster, i: NodeId, peer: NodeId)
    requires ElectionInv(p, c) && BookInv(p, c) && PromiseInv(p, c) && Enabled(c, SendReadHeartbeat(i, peer))
    ensures Keeps(p, c, AfterReadHeartbeat(p, c, i, peer))
  {
    var sent := ReadHeartbeatUndisturbed(p, c, i, peer);
    UndisturbedKeeps(p, c, AfterReadHeartbeat(p, c, i, peer), i, sent);
  }

  lemma VoteRequestKeeps(p: Params, c: Cluster, m: Message, heard: bool, saved: bool)
    requires ElectionInv(p, c) && LogInv(c) && BookInv(p, c) && PromiseInv(p, c)
    requires m in c.messages && m.AskVote? && m.dst in c.nodes
    ensures Keeps(p, c, AfterVoteRequest(p, c, m, heard, saved))
  {
    if HandleRequestVote(p.config, c.nodes[m.dst], m.vote, heard, saved).1.granted {
      GrantKeeps(p, c, m, heard, saved);
    } else {
      RefusalKeeps(p, c, m, heard, saved);
    }
  }

  lemma VoteReplyKeeps(p: Params, c: Cluster, m: Message)
    requires ElectionInv(p, c) && BookInv(p, c) && PromiseInv(p, c) && Enabled(c, ReceiveVoteReply(m))
    ensures Keeps(p, c, AfterVoteReply(p, c, m))
  {
    if WinsByReply(p, c, ReceiveVoteReply(m)) {
      ReplyWinKeeps(p, c, m);
    } else {
      QuietStepKeeps(p, c, ReceiveVoteReply(m), m.dst, {});
    }
  }

  lemma AppendKeeps(p: Params, c: Cluster, m: Message)
    requires ElectionInv(p, c) && LogInv(c) && BookInv(p, c) && PromiseInv(p, c)
    requires m in c.messages && m.AskAppend? && m.dst in c.nodes
    ensures Keeps(p, c, AfterAppend(p, c, m))
  {
    if m.append.entries != [] && HandleAppendEntries(p.config, c.nodes[m.dst], m.append).1.success {
      AcceptKeeps(p, c, m);
    } else {
      RejectKeeps(p, c, m);
    }
  }

  lemma LocalStepKeeps(p: Params, c: Cluster, step: Step)
    requires ElectionInv(p, c) && BookInv(p, c) && PromiseInv(p, c) && Enabled(c, step)
    requires step.Retry? || step.Persisted? || step.StepDown?
    ensures Keeps(p, c, Next(p, c, step))
  {
    QuietStepKeeps(p, c, step, step.n, {});
  }

  lemma StepKeeps(p: Params, c: Cluster, step: Step)
    requires ElectionInv(p, c) && LogInv(c) && BookInv(p, c) && PromiseInv(p, c)
    requires Enabled(c, step) && Trusted(c, step)
    ensures Keeps(p, c, Next(p, c, step))
  {
    match step
    case Timeout(n) => TimeoutKeeps(p, c, n);
    case ReceiveVoteRequest(m, heard, saved) => VoteRequestKeeps(p, c, m, heard, saved);
    case ReceiveVoteReply(m) => VoteReplyKeeps(p, c, m);
    case ClientPropose(n, data) => ProposeKeeps(p, c, n, data);
    case SendAppend(n, peer) => SendKeeps(p, c, n, peer);
    case SendReadHeartbeat(n, peer) => ReadHeartbeatKeeps(p, c, n, peer);
    case ReceiveAppend(m) => AppendKeeps(p, c, m);
    case ReceiveAppendReply(m) => AppendReplyKeeps(p, c, m);
    case Commit(n) => CommitKeeps(p, c, n);
    case Crash(n, found) => CrashKeeps(p, c, n, found);
    case _ => LocalStepKeeps(p, c, step);
  }

  lemma InitKeeps(p: Params, c: Cluster)
    requires Init(c)
    ensures BookInv(p, c) && PromiseInv(p, c)
  {
    assert forall i :: i in c.nodes ==> NodeOk(c.history, c.nodes.Keys, i, c.nodes[i]);
  }

  ghost predicate Inv(p: Params, c: Cluster) {
    ElectionInv(p, c) && LogInv(c) && BookInv(p, c) && PromiseInv(p, c)
  }

  lemma RunStepKeeps(p: Params, run: Run, k: nat)
    requires TrustedRun(p, run) && 0 < k < |run.states| && Inv(p, run.states[k - 1])
    ensures Keeps(p, run.states[k - 1], run.states[k])
  {
    StepKeeps(p, run.states[k - 1], run.steps[k - 1]);
  }

  lemma {:induction false} RunKeeps(p: Params, run: Run, k: nat)
    requires TrustedRun(p, run) && k < |run.states|
    ensures Inv(p, run.states[k])
  {
    RunKeepsLogInv(p, run, k);
    if k == 0 {
      InitKeeps(p, run.states[0]);
    } else {
      RunKeeps(p, run, k - 1);
      RunStepKeeps(p, run, k);
    }
  }

  lemma RunStepAdvances(p: Params, run: Run, k: nat)
    requires TrustedRun(p, run) && 0 < k < |run.states|
    ensures Advances(run.states[k - 1], run.states[k])
  {
    RunKeeps(p, run, k - 1);
    RunStepKeeps(p, run, k);
  }

  lemma {:induction false} RunAdvances(p: Params, run: Run, j: nat, k: nat)
    requires TrustedRun(p, run) && j <= k < |run.states|
    ensures Advances(run.states[j], run.states[k])
    decreases k - j
  {
    if j < k {
      RunAdvances(p, run, j, k - 1);
      RunStepAdvances(p, run, k);
      AdvancesOn(run.states[j], run.states[k - 1], run.states[k]);
    } else {
      AdvancesSelf(run.states[j]);
    }
  }

  lemma AdvancesSelf(c: Cluster)
    ensures Advances(c, c)
  {
  }

  /** What is committed is choosable, now and at every earlier time. */
  lemma CommittedIsChoosable(p: Params, c: Cluster, x: Commitment)
    requires CommittedOk(p, c) && x in c.history.committed
    ensures Choosable(p, c, x.term, x.index, x.quorum) && EntryAt(c.history, x.term, x.index)
  {
  }

  /** An entry nobody could vouch for when `u` was won cannot be committed later. */
  lemma EntryWasThere(p: Params, c: Cluster, c': Cluster, u: nat, t: nat, i: nat, q: set<NodeId>)
    requires ElectionInv(p, c) && AckedOk(c) && Grows(c.history.termLog, c'.history.termLog)
    requires u in c.history.leaderOf && t < u
    requires EntryAt(c'.history, t, i) && Choosable(p, c, t, i, q)
    ensures EntryAt(c.history, t, i)
  {
    if t !in c.history.termLog || i > |c.history.termLog[t]| {
      UnvouchedNotChoosable(p, c, t, u, i, q);
    }
  }

  /** A commit recorded in `c` against a leader in the later state `c'`. */
  lemma LaterLeaderHasCommitted(p: Params, c: Cluster, c': Cluster, x: Commitment, u: nat)
    requires CommittedOk(p, c) && CommittedOk(p, c') && LaterLeadersHold(p, c') && Advances(c, c')
    requires x in c.history.committed && u in c'.history.termLog && x.term < u
    ensures x.term in c.history.termLog && Agree(c'.history.termLog[u], c.history.termLog[x.term], x.index)
  {
    CommittedIsChoosable(p, c, x);
    CommittedIsChoosable(p, c', x);
    assert LeaderHolds(c'.history, u, x.term, x.index);
  }

  /** What is committed in `c` was there and choosable when a later term was already led. */
  lemma CommittedWasChoosable(p: Params, c: Cluster, c': Cluster, x: Commitment, u: nat)
    requires CommittedOk(p, c) && ElectionInv(p, c') && AckedOk(c') && Advances(c', c)
    requires x in c.history.committed && u in c'.history.leaderOf && x.term < u
    ensures Choosable(p, c', x.term, x.index, x.quorum) && EntryAt(c'.history, x.term, x.index)
  {
    CommittedIsChoosable(p, c, x);
    ChoosableBefore(p, c', c, x.term, x.index, x.quorum);
    EntryWasThere(p, c', c, u, x.term, x.index, x.quorum);
  }

  /** A commit recorded in `c` against a leader in the earlier state `c'`. */
  lemma EarlierLeaderHasCommitted(p: Params, c: Cluster, c': Cluster, x: Commitment, u: nat)
    requires Choosable(p, c', x.term, x.index, x.quorum) && EntryAt(c'.history, x.term, x.index)
    requires LaterLeadersHold(p, c') && Grows(c'.history.termLog, c.history.termLog)
    requires u in c'.history.termLog && x.term < u
    ensures x.term in c.history.termLog && Agree(c'.history.termLog[u], c.history.termLog[x.term], x.index)
  {
    assert LeaderHolds(c'.history, u, x.term, x.index);
  }

  lemma LeaderHasItsLog(p: Params, c: Cluster, a: NodeId)
    requires ElectionInv(p, c) && LogInv(c) && Leads(c, a)
    ensures var u := c.nodes[a].office.term;
            u in c.history.leaderOf && u in c.history.termLog && c.nodes[a].log.entries == c.history.termLog[u]
  {
    assert RoleOk(c.history, a, c.nodes[a].office) && NodeLogOk(c.history, c.nodes[a]);
  }

  /**
   * Leader Completeness (section 5.4 of the Raft extended paper): whatever any leader commits
   * at any point of a trusted run is in the log of every leader of a later term, at every
   * point of the run, before or after the commit.
   */
  lemma LeaderCompleteness(p: Params, run: Run, j: nat, k: nat, x: Commitment, a: NodeId)
    requires TrustedRun(p, run) && j < |run.states| && k < |run.states|
    requires x in run.states[j].history.committed
    requires Leads(run.states[k], a) && run.states[k].nodes[a].office.term > x.term
    ensures x.term in run.states[j].history.termLog
    ensures Agree(run.states[k].nodes[a].log.entries, run.states[j].history.termLog[x.term], x.index)
  {
    RunKeeps(p, run, j);
    RunKeeps(p, run, k);
    LeaderHasItsLog(p, run.states[k], a);
    if j <= k {
      RunAdvances(p, run, j, k);
      LaterLeaderHasCommitted(p, run.states[j], run.states[k], x, run.states[k].nodes[a].office.term);
    } else {
      RunAdvances(p, run, k, j);
      CommittedWasChoosable(p, run.states[j], run.states[k], x, run.states[k].nodes[a].office.term);
      EarlierLeaderHasCommitted(p, run.states[j], run.states[k], x, run.states[k].nodes[a].office.term);
    }
  }

  lemma CommitsAgree(p: Params, c: Cluster, x: Commitment, y: Commitment)
    requires CommittedOk(p, c) && LaterLeadersHold(p, c) && x in c.history.committed && y in c.history.committed
    ensures x.term in c.history.termLog && y.term in c.history.termLog
    ensures Agree(c.history.termLog[x.term], c.history.termLog[y.term], Min(x.index, y.index))
  {
    var h := c.history;
    CommittedIsChoosable(p, c, x);
    CommittedIsChoosable(p, c, y);
    if x.term < y.term {
      assert LeaderHolds(h, y.term, x.term, x.index);
      AgreeLess(h.termLog[y.term], h.termLog[x.term], Min(x.index, y.index), x.index);
    } else if y.term < x.term {
      assert LeaderHolds(h, x.term, y.term, y.index);
      AgreeLess(h.termLog[x.term], h.termLog[y.term], Min(x.index, y.index), y.index);
    }
  }

  /** Any two commits of a run agree: the shorter committed prefix is a prefix of the longer. */
  lemma CommittedPrefixesAgree(p: Params, run: Run, j: nat, k: nat, x: Commitment, y: Commitment)
    requires TrustedRun(p, run) && j <= k < |run.states|
    requires x in run.states[j].history.committed && y in run.states[k].history.committed
    ensures x.term in run.states[k].history.termLog && y.term in run.states[k].history.termLog
    ensures Agree(run.states[k].history.termLog[x.term], run.states[k].history.termLog[y.term], Min(x.index, y.index))
  {
    RunKeeps(p, run, k);
    RunAdvances(p, run, j, k);
    CommitsAgree(p, run.states[k], x, y);
  }
}
