/**
 * The durability gate: a leader commits no further than its flushed index, so that what it
 * commits is on its own disk. Over the cluster's runs, each node gets a log file, the queue of
 * entries on their way to it, and the callbacks owed for entries that were written: those fire
 * later, after some sync, in any order, and say only which index they are for.
 */
module FlushGates {

  import opened RaftTypes
  import opened Quorums
  import opened RaftNodes
  import opened RaftCluster
  import opened ElectionSafety
  import opened LogMatching

  /** An entry on its way to disk; `told` when a proposal waits for it. */
  datatype Waiting = Waiting(index: nat, term: nat, told: bool)

  /** A callback owed for an entry that was written. */
  datatype Note = Note(index: nat, term: nat)

  /** The terms on disk by index, what is still to be written, in append order, and the callbacks owed. */
  datatype Shelf = Shelf(disk: map<nat, nat>, waiting: seq<Waiting>, owed: set<Note> := {})

  datatype Media = Media(c: Cluster, shelves: map<NodeId, Shelf>)

  datatype Event = Protocol(step: Step) | Flush(n: NodeId) | Tell(n: NodeId, note: Note)

  // ---------- what each event does ----------

  function Shelved(entries: seq<Entry>, told: bool): seq<Waiting> {
    seq(|entries|, k requires 0 <= k < |entries| => Waiting(entries[k].index, entries[k].term, told))
  }

  function Written(disk: map<nat, nat>, waiting: seq<Waiting>): map<nat, nat>
    decreases |waiting|
  {
    if waiting == [] then disk else Written(disk[waiting[0].index := waiting[0].term], waiting[1..])
  }

  function Dropped(disk: map<nat, nat>, from: nat): map<nat, nat> {
    map i | i in disk && i < from :: disk[i]
  }

  /** The callbacks these entries bring along. */
  function Notes(waiting: seq<Waiting>): set<Note> {
    set w | w in waiting && w.told :: Note(w.index, w.term)
  }

  /** A truncation drains the queue first; it neither waits for the callbacks owed nor drops them. */
  function Truncated(shelf: Shelf, kept: nat): Shelf {
    Shelf(Dropped(Written(shelf.disk, shelf.waiting), kept + 1), [], shelf.owed + Notes(shelf.waiting))
  }

  /** The log went from `was` to `now`, keeping `kept`. */
  function Reshelved(shelf: Shelf, was: seq<Entry>, now: seq<Entry>, kept: nat, told: bool): Shelf {
    var base := if kept < |was| then Truncated(shelf, kept) else shelf;
    base.(waiting := base.waiting + Shelved(now[Min(kept, |now|)..], told))
  }

  function TermsOf(log: seq<Entry>): map<nat, nat> {
    map i: nat | 1 <= i <= |log| :: TermIn(log, i)
  }

  function TermIn(log: seq<Entry>, i: nat): nat
    requires 1 <= i <= |log|
  {
    log[i - 1].term
  }

  /** How much of its log a node keeps when it handles `req`. */
  function Kept(config: ClusterConfig, n: Node, req: AppendRequest): nat {
    if HandleAppendEntries(config, n, req).1.success then |CutConflict(n, req.entries).log.entries|
    else |n.log.entries|
  }

  function ShelfAfter(p: Params, c: Cluster, step: Step, shelf: Shelf): Shelf
    requires Enabled(c, step)
  {
    match step
    case ClientPropose(n, data) =>
      var was := c.nodes[n].log.entries;
      Reshelved(shelf, was, Propose(c.nodes[n], data).log.entries, |was|, true)
    case ReceiveAppend(m) =>
      var n := c.nodes[m.dst];
      Reshelved(shelf, n.log.entries, HandleAppendEntries(p.config, n, m.append).0.log.entries,
                Kept(p.config, n, m.append), false)
    case Crash(n, found) => Shelf(TermsOf(found), [])
    case _ => shelf
  }

  /** The node whose log a step may change. */
  function Actor(step: Step): Option<NodeId> {
    match step
    case ClientPropose(n, _) => Some(n)
    case ReceiveAppend(m) => Some(m.dst)
    case Crash(n, _) => Some(n)
    case _ => None
  }

  /** `Persisted` is the effect of a callback and comes with `Tell` only. */
  predicate Possible(s: Media, e: Event) {
    match e
    case Protocol(step) =>
      Enabled(s.c, step) && !step.Persisted? && (Actor(step).Some? ==> Actor(step).value in s.shelves)
    case Flush(n) => n in s.c.nodes && n in s.shelves && s.shelves[n].waiting != []
    case Tell(n, note) => n in s.c.nodes && n in s.shelves && note in s.shelves[n].owed
  }

  /** A callback fires; a node that no longer leads takes no notice. */
  function Told(p: Params, s: Media, n: NodeId, note: Note): Media
    requires Possible(s, Tell(n, note))
  {
    Media(if Leads(s.c, n) then Next(p, s.c, Persisted(n, note.index)) else s.c,
          s.shelves[n := WithoutNote(s.shelves[n], note)])
  }

  function WithoutNote(shelf: Shelf, note: Note): Shelf {
    shelf.(owed := shelf.owed - {note})
  }

  function After(p: Params, s: Media, e: Event): Media
    requires Possible(s, e)
  {
    match e
    case Flush(n) => Media(s.c, s.shelves[n := WithFirst(s.shelves[n])])
    case Tell(n, note) => Told(p, s, n, note)
    case Protocol(step) =>
      var actor := Actor(step);
      Media(Next(p, s.c, step),
            if actor.None? then s.shelves
            else s.shelves[actor.value := ShelfAfter(p, s.c, step, s.shelves[actor.value])])
  }

  ghost predicate Begins(s: Media) {
    Init(s.c) && s.shelves.Keys == s.c.nodes.Keys && forall i :: i in s.shelves ==> s.shelves[i] == Shelf(map[], [])
  }

  ghost predicate Traced(p: Params, states: seq<Media>, events: seq<Event>) {
    && |states| == |events| + 1 && Begins(states[0])
    && (forall k :: 0 <= k < |events| ==> Moves(p, states, events, k))
  }

  predicate Moves(p: Params, states: seq<Media>, events: seq<Event>, k: nat)
    requires k < |events| < |states|
  {
    Possible(states[k], events[k]) && states[k + 1] == After(p, states[k], events[k])
  }

  // ---------- the disk follows the log ----------

  /** The last `|waiting|` entries of the log are on their way; exactly the others are on disk. */
  predicate InStep(log: seq<Entry>, shelf: Shelf) {
    && |shelf.waiting| <= |log|
    && (forall j :: 0 <= j < |shelf.waiting| ==> Follows(log, shelf.waiting[j], |log| - |shelf.waiting| + j))
    && shelf.disk == TermsOf(log[..|log| - |shelf.waiting|])
  }

  predicate Follows(log: seq<Entry>, w: Waiting, at: nat) {
    at < |log| && w.index == at + 1 && w.term == log[at].term
  }

  lemma {:induction false} DrainedDisk(log: seq<Entry>, shelf: Shelf)
    requires InStep(log, shelf)
    ensures Written(shelf.disk, shelf.waiting) == TermsOf(log)
    decreases |shelf.waiting|
  {
    var k := |log| - |shelf.waiting|;
    if shelf.waiting == [] {
      assert log[..k] == log;
    } else {
      OneWritten(log, shelf);
      DrainedDisk(log, WithFirst(shelf));
    }
  }

  /** The shelf once its oldest waiting entry is on disk and its callback owed. */
  function WithFirst(shelf: Shelf): Shelf
    requires shelf.waiting != []
  {
    var w := shelf.waiting[0];
    Shelf(shelf.disk[w.index := w.term], shelf.waiting[1..],
          if w.told then shelf.owed + {Note(w.index, w.term)} else shelf.owed)
  }

  lemma OneWritten(log: seq<Entry>, shelf: Shelf)
    requires InStep(log, shelf) && shelf.waiting != []
    ensures var k := |log| - |shelf.waiting|;
            shelf.waiting[0].index == k + 1 && shelf.waiting[0].term == log[k].term && InStep(log, WithFirst(shelf))
  {
    var k := |log| - |shelf.waiting|;
    assert Follows(log, shelf.waiting[0], k);
    forall j | 0 <= j < |shelf.waiting[1..]| ensures Follows(log, shelf.waiting[1..][j], k + 1 + j) {
      assert shelf.waiting[1..][j] == shelf.waiting[j + 1];
      assert Follows(log, shelf.waiting[j + 1], k + (j + 1));
    }
    assert TermsOf(log[..k])[k + 1 := log[k].term] == TermsOf(log[..k + 1]);
  }

  lemma DropKeepsPrefix(log: seq<Entry>, kept: nat)
    requires kept <= |log|
    ensures Dropped(TermsOf(log), kept + 1) == TermsOf(log[..kept])
  {
  }

  /** The log kept its first entries and took new ones. */
  predicate Rewrites(was: seq<Entry>, now: seq<Entry>, kept: nat) {
    kept <= |was| && kept <= |now| && now[..kept] == was[..kept]
    && forall i :: kept <= i < |now| ==> now[i].index == i + 1
  }

  lemma ReshelvingKeepsStep(shelf: Shelf, was: seq<Entry>, now: seq<Entry>, kept: nat, told: bool)
    requires InStep(was, shelf) && Rewrites(was, now, kept)
    ensures var shelf' := Reshelved(shelf, was, now, kept, told);
            && InStep(now, shelf')
            && |now| - |shelf'.waiting| == if kept < |was| then kept else |was| - |shelf.waiting|
  {
    if kept < |was| {
      DrainedDisk(was, shelf);
      DropKeepsPrefix(was, kept);
      CutInStep(was, now, kept, told, shelf.owed + Notes(shelf.waiting));
    } else {
      GrownInStep(shelf, was, now, told);
    }
  }

  lemma CutInStep(was: seq<Entry>, now: seq<Entry>, kept: nat, told: bool, owed: set<Note>)
    requires Rewrites(was, now, kept)
    ensures InStep(now, Shelf(TermsOf(was[..kept]), [] + Shelved(now[kept..], told), owed))
    ensures |[] + Shelved(now[kept..], told)| == |now| - kept
  {
    var more := Shelved(now[kept..], told);
    assert [] + more == more;
    forall j | 0 <= j < |more| ensures Follows(now, more[j], kept + j) {
      assert now[kept..][j] == now[kept + j];
    }
  }

  lemma GrownInStep(shelf: Shelf, was: seq<Entry>, now: seq<Entry>, told: bool)
    requires InStep(was, shelf) && Rewrites(was, now, |was|)
    ensures InStep(now, shelf.(waiting := shelf.waiting + Shelved(now[|was|..], told)))
  {
    var k, more := |was| - |shelf.waiting|, Shelved(now[|was|..], told);
    assert now[..|was|] == was;
    forall j | 0 <= j < |shelf.waiting + more| ensures Follows(now, (shelf.waiting + more)[j], k + j) {
      if j < |shelf.waiting| {
        assert Follows(was, shelf.waiting[j], k + j);
        assert now[..|was|][k + j] == now[k + j];
      } else {
        assert (shelf.waiting + more)[j] == more[j - |shelf.waiting|];
        assert now[|was|..][k + j - |was|] == now[k + j];
      }
    }
    assert now[..k] == now[..|was|][..k] == was[..k];
  }

  // ---------- what the append handler does to a log ----------

  lemma SuccessMeansPrev(n: Node, req: AppendRequest)
    requires Replicate(n, req).1.success
    ensures req.prevIndex > 0 ==> TermAt(n, req.prevIndex) == req.prevTerm
  {
  }

  lemma ReplicatedLog(n: Node, req: AppendRequest, lead: seq<Entry>)
    requires Uncompacted(n) && WellFormed(lead) && Matching(n.log.entries, lead) && SliceOk(lead, req)
    requires Replicate(n, req).1.success && req.entries != []
    ensures var q, own := req.prevIndex + |req.entries|, n.log.entries;
            && Replicate(n, req).0.log.entries == (if Agree(own, lead, q) then own else lead[..q])
            && FirstDifference(own, lead, req.prevIndex, BeforeConflict(n, req.entries), |req.entries|)
  {
    SuccessMeansPrev(n, req);
    PrevCheckMeansAgreement(n, lead, req);
    ConflictIsFirstDifference(n, lead, req.prevIndex, req.prevIndex + |req.entries|);
    AcceptedReplicate(n, req, lead);
  }

  lemma KeptLength(n: Node, entries: seq<Entry>, p: nat)
    requires n.log.start == 1
    requires var d := p + BeforeConflict(n, entries);
             d < p + |entries| ==> d < |n.log.entries| && entries[d - p].index == d + 1
    ensures |CutConflict(n, entries).log.entries|
         == if BeforeConflict(n, entries) == |entries| then |n.log.entries| else p + BeforeConflict(n, entries)
  {
  }

  lemma SliceEntry(lead: seq<Entry>, req: AppendRequest, k: nat)
    requires WellFormed(lead) && SliceOk(lead, req) && k < |req.entries|
    ensures req.entries[k].index == req.prevIndex + k + 1
  {
    assert req.entries[k] == lead[req.prevIndex + k];
  }

  /** `k` of `m` entries from `p` on pass the scan; `kept` is what the cut leaves and `now` the merged log. */
  predicate Merges(own: seq<Entry>, lead: seq<Entry>, p: nat, k: nat, m: nat, kept: nat, now: seq<Entry>) {
    && p + m <= |lead| && k <= m && FirstDifference(own, lead, p, k, m)
    && kept == (if k == m then |own| else p + k)
    && now == (if Agree(own, lead, p + m) then own else lead[..p + m])
  }

  lemma CutOrGrown(own: seq<Entry>, lead: seq<Entry>, p: nat, k: nat, m: nat, kept: nat, now: seq<Entry>)
    requires WellFormed(own) && WellFormed(lead) && Merges(own, lead, p, k, m, kept, now)
    ensures Rewrites(own, now, kept) && (kept < |own| ==> kept < |now|)
  {
    if k == m {
      GrownByMerge(own, lead, p + m);
    } else {
      CutByMerge(own, lead, p + m, p + k);
    }
  }

  lemma CutByMerge(own: seq<Entry>, lead: seq<Entry>, q: nat, d: nat)
    requires WellFormed(lead) && d < q <= |lead| && d < |own| && Agree(own, lead, d) && own[d].term != lead[d].term
    ensures !Agree(own, lead, q) && Rewrites(own, lead[..q], d)
  {
    NotBeyondDifference(own, lead, d);
    assert lead[..q][..d] == lead[..d];
  }

  lemma GrownByMerge(own: seq<Entry>, lead: seq<Entry>, q: nat)
    requires WellFormed(own) && WellFormed(lead) && q <= |lead| && Agree(own, lead, Min(|own|, q))
    ensures Rewrites(own, if Agree(own, lead, q) then own else lead[..q], |own|)
  {
    assert own[..|own|] == own;
    if !Agree(own, lead, q) {
      assert lead[..q][..|own|] == lead[..|own|];
    }
  }

  lemma SuccessMerges(n: Node, req: AppendRequest, lead: seq<Entry>)
    requires Uncompacted(n) && WellFormed(lead) && Matching(n.log.entries, lead) && SliceOk(lead, req)
    requires Replicate(n, req).1.success && req.entries != []
    ensures Merges(n.log.entries, lead, req.prevIndex, BeforeConflict(n, req.entries), |req.entries|,
                   |CutConflict(n, req.entries).log.entries|, Replicate(n, req).0.log.entries)
  {
    ReplicatedLog(n, req, lead);
    if BeforeConflict(n, req.entries) < |req.entries| {
      SliceEntry(lead, req, BeforeConflict(n, req.entries));
    }
    KeptLength(n, req.entries, req.prevIndex);
  }

  /** The handler's effect on the log of a reachable node. */
  lemma HandlerRewrites(p: Params, c: Cluster, m: Message)
    requires LeadersRecorded(c) && LogInv(c) && m in c.messages && m.AskAppend? && m.dst in c.nodes
    ensures var n := c.nodes[m.dst];
            var kept, now := Kept(p.config, n, m.append), HandleAppendEntries(p.config, n, m.append).0.log.entries;
            Rewrites(n.log.entries, now, kept) && (kept < |n.log.entries| ==> kept < |now|)
  {
    var n, req := c.nodes[m.dst], m.append;
    AppendOutcome(p, c, m);
    assert AppendMessageOk(c.history, m) && NodeLogOk(c.history, n);
    NodeAgainstLeaderLog(c.history, n, req.term);
    HandlerReplicates(p.config, n, req);
    LogRewritten(p.config, n, req, c.history.termLog[req.term]);
  }

  lemma LogRewritten(config: ClusterConfig, n: Node, req: AppendRequest, lead: seq<Entry>)
    requires Uncompacted(n) && WellFormed(lead) && Matching(n.log.entries, lead) && SliceOk(lead, req)
    requires var (n', reply) := HandleAppendEntries(config, n, req); Outcome(n, n', req, lead, reply.success)
    ensures var kept, now := Kept(config, n, req), HandleAppendEntries(config, n, req).0.log.entries;
            Rewrites(n.log.entries, now, kept) && (kept < |n.log.entries| ==> kept < |now|)
  {
    var (n', reply) := HandleAppendEntries(config, n, req);
    if reply.success && req.entries != [] {
      var base := Receptive(n, req.term);
      HandlerReplicates(config, n, req);
      var kept := |CutConflict(base, req.entries).log.entries|;
      SuccessMerges(base, req, lead);
      CutOrGrown(n.log.entries, lead, req.prevIndex, BeforeConflict(base, req.entries), |req.entries|, kept,
                 n'.log.entries);
      SameLogSameCut(n, base, req.entries);
    } else {
      assert n'.log == n.log && n.log.entries[..|n.log.entries|] == n.log.entries;
    }
  }

  // ---------- the disk follows the log over every run ----------

  predicate AllInStep(s: Media) {
    s.shelves.Keys == s.c.nodes.Keys && forall i :: i in s.c.nodes ==> InStep(s.c.nodes[i].log.entries, s.shelves[i])
  }

  /** Steps of other kinds leave every log alone. */
  lemma OtherStepsKeepLogs(p: Params, c: Cluster, step: Step)
    requires Enabled(c, step) && Actor(step).None?
    ensures var c' := Next(p, c, step);
            c'.nodes.Keys == c.nodes.Keys && forall i :: i in c.nodes ==> c'.nodes[i].log == c.nodes[i].log
  {
  }

  /** A step changes the log of its actor only, and the shelf along with it. */
  lemma ActorKeepsStep(p: Params, s: Media, step: Step)
    requires LeadersRecorded(s.c) && LogInv(s.c) && AllInStep(s) && Possible(s, Protocol(step)) && Actor(step).Some?
    ensures var i, s' := Actor(step).value, After(p, s, Protocol(step));
            i in s'.c.nodes && InStep(s'.c.nodes[i].log.entries, s'.shelves[i])
  {
    var i := Actor(step).value;
    var n := s.c.nodes[i];
    assert NodeLogOk(s.c.history, n) && InStep(n.log.entries, s.shelves[i]);
    match step
    case ClientPropose(_, data) =>
      ProposedRewrites(s.c, i, data);
      ReshelvingKeepsStep(s.shelves[i], n.log.entries, Propose(n, data).log.entries, |n.log.entries|, true);
    case ReceiveAppend(m) =>
      HandlerRewrites(p, s.c, m);
      ReshelvingKeepsStep(s.shelves[i], n.log.entries, HandleAppendEntries(p.config, n, m.append).0.log.entries,
                          Kept(p.config, n, m.append), false);
    case Crash(_, found) => assert found[..|found|] == found;
  }

  lemma ProposedRewrites(c: Cluster, i: NodeId, data: string)
    requires LogInv(c) && i in c.nodes
    ensures Rewrites(c.nodes[i].log.entries, Propose(c.nodes[i], data).log.entries, |c.nodes[i].log.entries|)
  {
    var n := c.nodes[i];
    assert NodeLogOk(c.history, n);
    GroundedWellFormed(c.history, n.log.entries);
    assert Uncompacted(n);
    HeldTerm(n, 0);
    assert Propose(n, data).log.entries[..|n.log.entries|] == n.log.entries == n.log.entries[..|n.log.entries|];
  }

  lemma ProtocolKeepsStep(p: Params, s: Media, step: Step)
    requires LeadersRecorded(s.c) && LogInv(s.c) && AllInStep(s) && Possible(s, Protocol(step))
    ensures AllInStep(After(p, s, Protocol(step)))
  {
    ProtocolFrame(p, s, step);
    if Actor(step).Some? {
      ActorKeepsStep(p, s, step);
    }
    InStepElsewhere(s, After(p, s, Protocol(step)), Actor(step));
  }

  /** Only the log and the shelf at `at` change. */
  predicate LogsElsewhere(s: Media, s': Media, at: Option<NodeId>) {
    && s'.c.nodes.Keys == s.c.nodes.Keys && s'.shelves.Keys == s.shelves.Keys == s.c.nodes.Keys
    && (forall i :: i in s.c.nodes && Some(i) != at ==>
          s'.c.nodes[i].log == s.c.nodes[i].log && s'.shelves[i] == s.shelves[i])
  }

  lemma ProtocolFrame(p: Params, s: Media, step: Step)
    requires s.shelves.Keys == s.c.nodes.Keys && Possible(s, Protocol(step))
    ensures LogsElsewhere(s, After(p, s, Protocol(step)), Actor(step))
  {
    if Actor(step).None? {
      OtherStepsKeepLogs(p, s.c, step);
    } else {
      OnlyTheActor(p, s.c, step);
    }
  }

  /** Neither a write nor a callback changes a log. */
  lemma DiskFrame(p: Params, s: Media, e: Event)
    requires s.shelves.Keys == s.c.nodes.Keys && Possible(s, e) && !e.Protocol?
    ensures LogsElsewhere(s, After(p, s, e), Some(e.n)) && After(p, s, e).c.nodes[e.n].log == s.c.nodes[e.n].log
  {
  }

  lemma InStepElsewhere(s: Media, s': Media, at: Option<NodeId>)
    requires AllInStep(s) && LogsElsewhere(s, s', at)
    requires at.Some? && at.value in s'.c.nodes ==> InStep(s'.c.nodes[at.value].log.entries, s'.shelves[at.value])
    ensures AllInStep(s')
  {
    forall i | i in s.c.nodes ensures InStep(s'.c.nodes[i].log.entries, s'.shelves[i]) {
      if Some(i) != at {
        assert InStep(s.c.nodes[i].log.entries, s.shelves[i]);
      }
    }
  }

  lemma OnlyTheActor(p: Params, c: Cluster, step: Step)
    requires Enabled(c, step) && Actor(step).Some?
    ensures var c' := Next(p, c, step);
            && c'.nodes.Keys == c.nodes.Keys
            && forall i :: i in c.nodes && i != Actor(step).value ==> c'.nodes[i] == c.nodes[i]
  {
  }

  lemma DiskKeepsStep(p: Params, s: Media, e: Event)
    requires AllInStep(s) && Possible(s, e) && !e.Protocol?
    ensures AllInStep(After(p, s, e))
  {
    DiskFrame(p, s, e);
    var log, shelf := s.c.nodes[e.n].log.entries, s.shelves[e.n];
    assert InStep(log, shelf);
    match e {
      case Flush(_) => OneWritten(log, shelf);
      case Tell(_, note) => assert InStep(log, WithoutNote(shelf, note));
    }
    InStepElsewhere(s, After(p, s, e), Some(e.n));
  }

  ghost predicate MediaInv(p: Params, s: Media) {
    ElectionInv(p, s.c) && LogInv(s.c) && AllInStep(s)
  }

  lemma ProtocolKeepsClusterInv(p: Params, c: Cluster, step: Step)
    requires ElectionInv(p, c) && LogInv(c) && Enabled(c, step)
    ensures ElectionInv(p, Next(p, c, step)) && LogInv(Next(p, c, step))
  {
    StepKeepsElectionInv(p, c, step);
    StepWinsFirst(p, c, step);
    StepKeepsLogInv(p, c, step);
  }

  lemma EventKeepsInv(p: Params, s: Media, e: Event)
    requires MediaInv(p, s) && Possible(s, e)
    ensures MediaInv(p, After(p, s, e))
  {
    match e
    case Protocol(step) =>
      ProtocolKeepsClusterInv(p, s.c, step);
      ProtocolKeepsStep(p, s, step);
    case Flush(_) => DiskKeepsStep(p, s, e);
    case Tell(n, note) =>
      if Leads(s.c, n) {
        ProtocolKeepsClusterInv(p, s.c, Persisted(n, note.index));
      }
      DiskKeepsStep(p, s, e);
  }

  lemma {:induction false} TraceKeepsInv(p: Params, states: seq<Media>, events: seq<Event>, k: nat)
    requires Traced(p, states, events) && k < |states|
    ensures MediaInv(p, states[k])
  {
    if k == 0 {
      forall i | i in states[0].c.nodes ensures InStep(states[0].c.nodes[i].log.entries, states[0].shelves[i]) {
        assert states[0].c.nodes[i] == FreshNode(i, states[0].c.nodes[i].peers);
      }
    } else {
      TraceKeepsInv(p, states, events, k - 1);
      assert Moves(p, states, events, k - 1);
      EventKeepsInv(p, states[k - 1], events[k - 1]);
    }
  }

  // ---------- the gate ----------

  predicate OnShelf(log: seq<Entry>, shelf: Shelf, x: nat) {
    1 <= x <= |log| && x in shelf.disk && shelf.disk[x] == log[x - 1].term
  }

  /** Whatever the node could commit now is on its own disk. */
  predicate Gated(n: Node, shelf: Shelf) {
    forall x :: 1 <= x <= CommitCeiling(n) ==> OnShelf(n.log.entries, shelf, x)
  }

  /** The gate holds exactly when nothing is on its way, or nothing up to the flushed index is. */
  lemma GatedIff(n: Node, shelf: Shelf)
    requires Uncompacted(n) && InStep(n.log.entries, shelf)
    ensures Gated(n, shelf) <==> shelf.waiting == [] || n.flushedIndex + |shelf.waiting| <= |n.log.entries|
  {
    HeldTerm(n, 0);
    var log, k := n.log.entries, |n.log.entries| - |shelf.waiting|;
    if CommitCeiling(n) <= k {
      forall x | 1 <= x <= CommitCeiling(n) ensures OnShelf(log, shelf, x) {
        assert TermIn(log[..k], x) == log[x - 1].term;
      }
    } else {
      assert !OnShelf(log, shelf, CommitCeiling(n));
    }
  }

  // ---------- what opens the gate ----------

  /** Handling the request puts an entry at or below the flushed index, as a truncation there does. */
  predicate Backfills(config: ClusterConfig, n: Node, req: AppendRequest) {
    Kept(config, n, req) < Min(|HandleAppendEntries(config, n, req).0.log.entries|, n.flushedIndex)
  }

  /** An entry up to the index the callback is for is still on its way. */
  predicate TellsAhead(shelf: Shelf, note: Note) {
    shelf.waiting != [] && shelf.waiting[0].index <= note.index
  }

  /** What can be seen before the event. */
  predicate Exposes(p: Params, s: Media, e: Event)
    requires Possible(s, e)
  {
    match e
    case Flush(_) => false
    case Tell(n, note) => Leads(s.c, n) && TellsAhead(s.shelves[n], note)
    case Protocol(step) =>
      match step
      case ClientPropose(n, _) => |s.c.nodes[n].log.entries| < s.c.nodes[n].flushedIndex
      case ReceiveAppend(m) => Backfills(p.config, s.c.nodes[m.dst], m.append)
      case _ => false
  }

  lemma RewriteKeepsGateIff(n: Node, shelf: Shelf, n': Node, kept: nat, told: bool, shelf': Shelf)
    requires Uncompacted(n) && Uncompacted(n') && InStep(n.log.entries, shelf) && Gated(n, shelf)
    requires n'.flushedIndex == n.flushedIndex
    requires Rewrites(n.log.entries, n'.log.entries, kept) && (kept < |n.log.entries| ==> kept < |n'.log.entries|)
    requires shelf' == Reshelved(shelf, n.log.entries, n'.log.entries, kept, told)
    ensures Gated(n', shelf') <==> !(kept < Min(|n'.log.entries|, n.flushedIndex))
  {
    ReshelvingKeepsStep(shelf, n.log.entries, n'.log.entries, kept, told);
    GatedIff(n, shelf);
    GatedIff(n', shelf');
  }

  predicate GatedAt(s: Media, i: NodeId) {
    i in s.c.nodes && i in s.shelves && Gated(s.c.nodes[i], s.shelves[i])
  }

  /** Handling a request keeps the gate exactly when it puts no entry at or below the flushed index. */
  lemma HandlerKeepsGateIff(p: Params, s: Media, m: Message)
    requires MediaInv(p, s) && Possible(s, Protocol(ReceiveAppend(m))) && GatedAt(s, m.dst)
    ensures GatedAt(After(p, s, Protocol(ReceiveAppend(m))), m.dst)
       <==> !Backfills(p.config, s.c.nodes[m.dst], m.append)
  {
    var n, s' := s.c.nodes[m.dst], After(p, s, Protocol(ReceiveAppend(m)));
    ProtocolKeepsClusterInv(p, s.c, ReceiveAppend(m));
    NodeIsUncompacted(s.c, m.dst);
    NodeIsUncompacted(s'.c, m.dst);
    HandlerRewrites(p, s.c, m);
    AppendKeepsFlushed(p.config, n, m.append);
    RewriteKeepsGateIff(n, s.shelves[m.dst], s'.c.nodes[m.dst], Kept(p.config, n, m.append), false, s'.shelves[m.dst]);
  }

  lemma ProposalEffect(p: Params, s: Media, n: NodeId, data: string)
    requires Possible(s, Protocol(ClientPropose(n, data)))
    ensures var s', node := After(p, s, Protocol(ClientPropose(n, data))), s.c.nodes[n];
            && n in s'.c.nodes && n in s'.shelves && s'.c.nodes[n] == Propose(node, data)
            && Propose(node, data).flushedIndex == node.flushedIndex
            && s'.shelves[n] == Reshelved(s.shelves[n], node.log.entries, Propose(node, data).log.entries,
                                          |node.log.entries|, true)
  {
  }

  lemma ProposalGrows(p: Params, c: Cluster, i: NodeId, data: string)
    requires ElectionInv(p, c) && LogInv(c) && Enabled(c, ClientPropose(i, data))
    ensures |Propose(c.nodes[i], data).log.entries| == |c.nodes[i].log.entries| + 1
    ensures Uncompacted(c.nodes[i]) && Uncompacted(Propose(c.nodes[i], data))
  {
    ProtocolKeepsClusterInv(p, c, ClientPropose(i, data));
    NodeIsUncompacted(c, i);
    NodeIsUncompacted(Next(p, c, ClientPropose(i, data)), i);
    HeldTerm(c.nodes[i], 0);
  }

  /** A proposal keeps it exactly when the flushed index is not ahead of the log. */
  lemma ProposalKeepsGateIff(p: Params, s: Media, n: NodeId, data: string)
    requires MediaInv(p, s) && Possible(s, Protocol(ClientPropose(n, data))) && GatedAt(s, n)
    ensures GatedAt(After(p, s, Protocol(ClientPropose(n, data))), n)
       <==> !(|s.c.nodes[n].log.entries| < s.c.nodes[n].flushedIndex)
  {
    var node := s.c.nodes[n];
    ProposalEffect(p, s, n, data);
    ProposalGrows(p, s.c, n, data);
    ProposedRewrites(s.c, n, data);
    RewriteKeepsGateIff(node, s.shelves[n], Propose(node, data), |node.log.entries|, true,
                        After(p, s, Protocol(ClientPropose(n, data))).shelves[n]);
  }

  /** A node told of a durable index. */
  function Heard(n: Node, index: nat): Node {
    n.(flushedIndex := Max(n.flushedIndex, index))
  }

  lemma TellEffect(p: Params, s: Media, n: NodeId, note: Note)
    requires Possible(s, Tell(n, note))
    ensures var s' := After(p, s, Tell(n, note));
            && n in s'.c.nodes && n in s'.shelves && s'.shelves[n] == WithoutNote(s.shelves[n], note)
            && s'.c.nodes[n] == if Leads(s.c, n) then Heard(s.c.nodes[n], note.index) else s.c.nodes[n]
  {
  }

  lemma ToldGateIff(n: Node, shelf: Shelf, note: Note)
    requires Uncompacted(n) && InStep(n.log.entries, shelf) && Gated(n, shelf)
    ensures Gated(Heard(n, note.index), WithoutNote(shelf, note)) <==> !TellsAhead(shelf, note)
    ensures Gated(n, WithoutNote(shelf, note))
  {
    assert InStep(n.log.entries, WithoutNote(shelf, note));
    GatedIff(n, shelf);
    GatedIff(n, WithoutNote(shelf, note));
    GatedIff(Heard(n, note.index), WithoutNote(shelf, note));
    if shelf.waiting != [] {
      OneWritten(n.log.entries, shelf);
    }
  }

  lemma Standing(p: Params, s: Media, i: NodeId)
    requires MediaInv(p, s) && i in s.c.nodes && i in s.shelves
    ensures Uncompacted(s.c.nodes[i]) && InStep(s.c.nodes[i].log.entries, s.shelves[i])
  {
    NodeIsUncompacted(s.c, i);
  }

  /** A callback keeps it exactly when nothing up to its index is still on its way, or nobody listens. */
  lemma TellKeepsGateIff(p: Params, s: Media, n: NodeId, note: Note)
    requires MediaInv(p, s) && Possible(s, Tell(n, note)) && GatedAt(s, n)
    ensures GatedAt(After(p, s, Tell(n, note)), n) <==> !(Leads(s.c, n) && TellsAhead(s.shelves[n], note))
  {
    Standing(p, s, n);
    TellEffect(p, s, n, note);
    ToldGateIff(s.c.nodes[n], s.shelves[n], note);
  }

  lemma FlushKeepsGate(p: Params, s: Media, n: NodeId)
    requires MediaInv(p, s) && Possible(s, Flush(n)) && GatedAt(s, n)
    ensures GatedAt(After(p, s, Flush(n)), n)
  {
    var log, shelf := s.c.nodes[n].log.entries, s.shelves[n];
    NodeIsUncompacted(s.c, n);
    assert InStep(log, shelf);
    OneWritten(log, shelf);
    GatedIff(s.c.nodes[n], shelf);
    GatedIff(s.c.nodes[n], WithFirst(shelf));
  }

  lemma CrashEffect(p: Params, s: Media, n: NodeId, found: seq<Entry>)
    requires Possible(s, Protocol(Crash(n, found)))
    ensures var s' := After(p, s, Protocol(Crash(n, found)));
            n in s'.c.nodes && n in s'.shelves && s'.shelves[n].waiting == []
  {
  }

  lemma CrashRestoresGate(p: Params, s: Media, n: NodeId, found: seq<Entry>)
    requires MediaInv(p, s) && Possible(s, Protocol(Crash(n, found)))
    ensures GatedAt(After(p, s, Protocol(Crash(n, found))), n)
  {
    var s' := After(p, s, Protocol(Crash(n, found)));
    CrashEffect(p, s, n, found);
    EventKeepsInv(p, s, Protocol(Crash(n, found)));
    Standing(p, s', n);
    GatedIff(s'.c.nodes[n], s'.shelves[n]);
  }

  lemma AppendKeepsFlushed(config: ClusterConfig, n: Node, req: AppendRequest)
    ensures HandleAppendEntries(config, n, req).0.flushedIndex == n.flushedIndex
  {
    ReplicateKeepsOffice(Receptive(n, req.term), req);
  }

  lemma NodeIsUncompacted(c: Cluster, i: NodeId)
    requires LogInv(c) && i in c.nodes
    ensures Uncompacted(c.nodes[i])
  {
    assert NodeLogOk(c.history, c.nodes[i]);
    GroundedWellFormed(c.history, c.nodes[i].log.entries);
  }

  // ---------- over every run ----------

  predicate AllGated(s: Media) {
    s.shelves.Keys == s.c.nodes.Keys && forall i :: i in s.c.nodes ==> Gated(s.c.nodes[i], s.shelves[i])
  }

  /** The gate of a node looks at its log, its flushed index and its disk. */
  predicate SameGate(s: Media, s': Media, i: NodeId)
    requires i in s.c.nodes && i in s'.c.nodes && i in s.shelves && i in s'.shelves
  {
    && s'.c.nodes[i].log == s.c.nodes[i].log && s'.c.nodes[i].flushedIndex == s.c.nodes[i].flushedIndex
    && s'.shelves[i] == s.shelves[i]
  }

  lemma SameGateSame(s: Media, s': Media, i: NodeId)
    requires i in s.c.nodes && i in s'.c.nodes && i in s.shelves && i in s'.shelves && SameGate(s, s', i)
    ensures Gated(s'.c.nodes[i], s'.shelves[i]) <==> Gated(s.c.nodes[i], s.shelves[i])
  {
  }

  lemma OtherStepsKeepFlushed(p: Params, c: Cluster, step: Step)
    requires Enabled(c, step) && Actor(step).None? && !step.Persisted?
    ensures var c' := Next(p, c, step);
            forall i :: i in c.nodes ==> i in c'.nodes && c'.nodes[i].flushedIndex == c.nodes[i].flushedIndex
  {
  }

  /** The node an event is about, when it touches a log or a shelf. */
  function Subject(e: Event): Option<NodeId> {
    match e
    case Flush(n) => Some(n)
    case Tell(n, _) => Some(n)
    case Protocol(step) => Actor(step)
  }

  lemma GateElsewhere(p: Params, s: Media, e: Event, i: NodeId)
    requires s.shelves.Keys == s.c.nodes.Keys && Possible(s, e) && i in s.c.nodes && Subject(e) != Some(i)
    ensures var s' := After(p, s, e);
            i in s'.c.nodes && i in s'.shelves && SameGate(s, s', i) && s'.shelves.Keys == s'.c.nodes.Keys
  {
    match e
    case Flush(_) =>
    case Tell(_, _) =>
    case Protocol(step) =>
      if Actor(step).None? {
        OtherStepsKeepLogs(p, s.c, step);
        OtherStepsKeepFlushed(p, s.c, step);
      } else {
        OnlyTheActor(p, s.c, step);
      }
  }

  lemma KeysStay(p: Params, s: Media, e: Event)
    requires s.shelves.Keys == s.c.nodes.Keys && Possible(s, e)
    ensures After(p, s, e).c.nodes.Keys == s.c.nodes.Keys && After(p, s, e).shelves.Keys == s.c.nodes.Keys
  {
    match e
    case Flush(_) =>
    case Tell(_, _) => DiskFrame(p, s, e);
    case Protocol(step) => ProtocolFrame(p, s, step);
  }

  /** At its own node an event keeps the gate exactly when it exposes nothing. */
  lemma SubjectKeepsGateIff(p: Params, s: Media, e: Event, i: NodeId)
    requires MediaInv(p, s) && AllGated(s) && Possible(s, e) && Subject(e) == Some(i) && i in s.c.nodes
    ensures var s' := After(p, s, e);
            GatedAt(s', i) <==> !Exposes(p, s, e)
  {
    assert GatedAt(s, i);
    match e
    case Flush(n) => FlushKeepsGate(p, s, n);
    case Tell(n, note) => TellKeepsGateIff(p, s, n, note);
    case Protocol(step) =>
      match step
      case ClientPropose(n, data) => ProposalKeepsGateIff(p, s, n, data);
      case ReceiveAppend(m) => HandlerKeepsGateIff(p, s, m);
      case Crash(n, found) => CrashRestoresGate(p, s, n, found);
  }

  lemma SubjectIsNode(s: Media, e: Event)
    requires Possible(s, e) && Subject(e).Some?
    ensures Subject(e).value in s.c.nodes
  {
  }

  lemma QuietExposesNothing(p: Params, s: Media, e: Event)
    requires Possible(s, e) && Subject(e).None?
    ensures !Exposes(p, s, e)
  {
  }

  /** One event keeps every gate exactly when it exposes nothing. */
  lemma EventKeepsGateIff(p: Params, s: Media, e: Event)
    requires MediaInv(p, s) && AllGated(s) && Possible(s, e)
    ensures AllGated(After(p, s, e)) <==> !Exposes(p, s, e)
  {
    var s' := After(p, s, e);
    KeysStay(p, s, e);
    if Subject(e).None? {
      QuietExposesNothing(p, s, e);
    } else {
      SubjectIsNode(s, e);
      SubjectKeepsGateIff(p, s, e, Subject(e).value);
    }
    forall i | i in s.c.nodes && Subject(e) != Some(i) ensures Gated(s'.c.nodes[i], s'.shelves[i]) {
      GateElsewhere(p, s, e, i);
      SameGateSame(s, s', i);
    }
  }

  ghost predicate NeverExposed(p: Params, states: seq<Media>, events: seq<Event>, k: nat)
    requires Traced(p, states, events) && k <= |events|
  {
    forall j :: 0 <= j < k ==> !ExposesAt(p, states, events, j)
  }

  ghost predicate ExposesAt(p: Params, states: seq<Media>, events: seq<Event>, j: nat)
    requires Traced(p, states, events) && j < |events|
  {
    assert Moves(p, states, events, j);
    Exposes(p, states[j], events[j])
  }

  lemma StartIsGated(p: Params, s: Media)
    requires Begins(s)
    ensures AllGated(s)
  {
    forall i | i in s.c.nodes ensures Gated(s.c.nodes[i], s.shelves[i]) {
      assert s.c.nodes[i] == FreshNode(i, s.c.nodes[i].peers);
    }
  }

  lemma OneEventMore(p: Params, states: seq<Media>, events: seq<Event>, k: nat)
    requires Traced(p, states, events) && k < |events| && AllGated(states[k])
    ensures AllGated(states[k + 1]) <==> !ExposesAt(p, states, events, k)
  {
    TraceKeepsInv(p, states, events, k);
    assert Moves(p, states, events, k);
    EventKeepsGateIff(p, states[k], events[k]);
  }

  predicate GatedUpTo(states: seq<Media>, k: nat)
    requires k < |states|
  {
    forall j :: 0 <= j <= k ==> AllGated(states[j])
  }

  /**
   * At every point of a run, everything any node could commit is on that node's own disk, exactly
   * when no entry was ever put at or below a flushed index and no leader was told of an index while
   * an entry up to it was still on its way.
   */
  lemma {:induction false} GateHoldsIff(p: Params, states: seq<Media>, events: seq<Event>, k: nat)
    requires Traced(p, states, events) && k < |states|
    ensures GatedUpTo(states, k) <==> NeverExposed(p, states, events, k)
  {
    if k == 0 {
      StartIsGated(p, states[0]);
    } else {
      GateHoldsIff(p, states, events, k - 1);
      assert GatedUpTo(states, k) <==> GatedUpTo(states, k - 1) && AllGated(states[k]);
      if GatedUpTo(states, k - 1) {
        OneEventMore(p, states, events, k - 1);
      }
    }
  }

  /** Then whatever TryCommit takes is on the leader's own disk, with everything before it. */
  lemma CommitIsOnDisk(p: Params, states: seq<Media>, events: seq<Event>, k: nat, i: NodeId, x: nat)
    requires Traced(p, states, events) && k < |states| && NeverExposed(p, states, events, k)
    requires i in states[k].c.nodes && i in states[k].shelves
    requires states[k].c.nodes[i].commitIndex < TryCommit(p.config, states[k].c.nodes[i]).commitIndex
    requires 1 <= x <= TryCommit(p.config, states[k].c.nodes[i]).commitIndex
    ensures OnShelf(states[k].c.nodes[i].log.entries, states[k].shelves[i], x)
  {
    GateHoldsIff(p, states, events, k);
    assert AllGated(states[k]);
    ScanStaysBelow(p.config, states[k].c.nodes[i], CommitCeiling(states[k].c.nodes[i]));
  }

  lemma {:induction false} ScanStaysBelow(config: ClusterConfig, n: Node, index: nat)
    ensures CommitScan(config, n, index) <= Max(n.commitIndex, index)
    decreases index
  {
    if index > n.commitIndex {
      ScanStaysBelow(config, n, index - 1);
    }
  }

  // ---------- where a callback runs ahead ----------

  /** The entry the callback is for, or one in its place, is on disk. */
  predicate Covered(log: seq<Entry>, shelf: Shelf, note: Note) {
    note.index + |shelf.waiting| <= |log|
  }

  /** The event makes node `i` cut its log below index `x`. */
  predicate CutsUnder(p: Params, s: Media, e: Event, i: NodeId, x: nat) {
    && e.Protocol? && e.step.ReceiveAppend? && e.step.m.AskAppend? && e.step.m.dst == i && i in s.c.nodes
    && Kept(p.config, s.c.nodes[i], e.step.m.append) < Min(|s.c.nodes[i].log.entries|, x)
  }

  predicate CoveredAt(s: Media, i: NodeId, note: Note) {
    i in s.c.nodes && i in s.shelves && Covered(s.c.nodes[i].log.entries, s.shelves[i], note)
  }

  predicate OwesAt(s: Media, i: NodeId, note: Note) {
    i in s.shelves && note in s.shelves[i].owed
  }

  lemma FlushedIsCovered(log: seq<Entry>, shelf: Shelf, note: Note)
    requires InStep(log, shelf) && shelf.waiting != [] && note in WithFirst(shelf).owed
    ensures note in shelf.owed || Covered(log, WithFirst(shelf), note)
    ensures Covered(log, shelf, note) ==> Covered(log, WithFirst(shelf), note)
  {
    OneWritten(log, shelf);
  }

  lemma ReshelvedIsCovered(shelf: Shelf, was: seq<Entry>, now: seq<Entry>, kept: nat, told: bool, note: Note)
    requires InStep(was, shelf) && Rewrites(was, now, kept) && note in Reshelved(shelf, was, now, kept, told).owed
    ensures var shelf' := Reshelved(shelf, was, now, kept, told);
            || kept < Min(|was|, note.index) || Covered(now, shelf', note)
            || (note in shelf.owed && !Covered(was, shelf, note))
  {
    ReshelvingKeepsStep(shelf, was, now, kept, told);
  }

  lemma ReceiveOwes(p: Params, s: Media, m: Message, note: Note)
    requires MediaInv(p, s) && Possible(s, Protocol(ReceiveAppend(m))) && m.dst in s.shelves
    requires OwesAt(After(p, s, Protocol(ReceiveAppend(m))), m.dst, note)
    ensures || CutsUnder(p, s, Protocol(ReceiveAppend(m)), m.dst, note.index)
            || CoveredAt(After(p, s, Protocol(ReceiveAppend(m))), m.dst, note)
            || (OwesAt(s, m.dst, note) && !CoveredAt(s, m.dst, note))
  {
    var n := s.c.nodes[m.dst];
    Standing(p, s, m.dst);
    HandlerRewrites(p, s.c, m);
    ReshelvedIsCovered(s.shelves[m.dst], n.log.entries, HandleAppendEntries(p.config, n, m.append).0.log.entries,
                       Kept(p.config, n, m.append), false, note);
  }

  lemma ProposeOwes(p: Params, s: Media, n: NodeId, data: string, note: Note)
    requires MediaInv(p, s) && Possible(s, Protocol(ClientPropose(n, data)))
    requires OwesAt(After(p, s, Protocol(ClientPropose(n, data))), n, note)
    ensures || CoveredAt(After(p, s, Protocol(ClientPropose(n, data))), n, note)
            || (OwesAt(s, n, note) && !CoveredAt(s, n, note))
  {
    var node := s.c.nodes[n];
    Standing(p, s, n);
    ProposalEffect(p, s, n, data);
    ProposedRewrites(s.c, n, data);
    ReshelvedIsCovered(s.shelves[n], node.log.entries, Propose(node, data).log.entries, |node.log.entries|, true, note);
  }

  lemma DiskOwes(p: Params, s: Media, e: Event, note: Note)
    requires MediaInv(p, s) && Possible(s, e) && !e.Protocol? && OwesAt(After(p, s, e), e.n, note)
    ensures CoveredAt(After(p, s, e), e.n, note) || (OwesAt(s, e.n, note) && !CoveredAt(s, e.n, note))
  {
    Standing(p, s, e.n);
    DiskFrame(p, s, e);
    if e.Flush? {
      FlushedIsCovered(s.c.nodes[e.n].log.entries, s.shelves[e.n], note);
    } else {
      TellEffect(p, s, e.n, e.note);
    }
  }

  lemma CrashOwesNothing(p: Params, s: Media, n: NodeId, found: seq<Entry>, note: Note)
    requires Possible(s, Protocol(Crash(n, found)))
    ensures !OwesAt(After(p, s, Protocol(Crash(n, found))), n, note)
  {
  }

  /** A callback is owed for what is on disk, until a request cuts the log underneath it. */
  lemma OwedOneEvent(p: Params, s: Media, e: Event, i: NodeId, note: Note)
    requires MediaInv(p, s) && Possible(s, e) && i in s.c.nodes && OwesAt(After(p, s, e), i, note)
    ensures || CutsUnder(p, s, e, i, note.index) || CoveredAt(After(p, s, e), i, note)
            || (OwesAt(s, i, note) && !CoveredAt(s, i, note))
  {
    if e.Protocol? && e.step.Crash? {
      CrashOwesNothing(p, s, e.step.n, e.step.found, note);
    }
    if Subject(e) != Some(i) {
      GateElsewhere(p, s, e, i);
    } else if !e.Protocol? {
      DiskOwes(p, s, e, note);
    } else if e.step.ClientPropose? {
      ProposeOwes(p, s, e.step.n, e.step.data, note);
    } else if e.step.ReceiveAppend? {
      ReceiveOwes(p, s, e.step.m, note);
    }
  }

  ghost predicate CutWhileOwed(p: Params, states: seq<Media>, events: seq<Event>, j: nat, i: NodeId, note: Note)
    requires j < |events| < |states|
  {
    CutsUnder(p, states[j], events[j], i, note.index) && OwesAt(states[j + 1], i, note)
  }

  lemma SameNodes(p: Params, states: seq<Media>, events: seq<Event>, k: nat)
    requires Traced(p, states, events) && k < |events|
    ensures states[k + 1].c.nodes.Keys == states[k].c.nodes.Keys
  {
    TraceKeepsInv(p, states, events, k);
    assert Moves(p, states, events, k);
    KeysStay(p, states[k], events[k]);
  }

  /**
   * A callback can run ahead of the disk only when a request cut the log below its index while it
   * was owed: what the leader holds there then is not what was written for it.
   */
  lemma {:induction false} AheadMeansCut(p: Params, states: seq<Media>, events: seq<Event>, k: nat, i: NodeId,
                                         note: Note)
    requires Traced(p, states, events) && k < |states| && i in states[k].c.nodes && OwesAt(states[k], i, note)
    ensures CoveredAt(states[k], i, note) || exists j :: 0 <= j < k && CutWhileOwed(p, states, events, j, i, note)
  {
    if k > 0 {
      TraceKeepsInv(p, states, events, k - 1);
      assert Moves(p, states, events, k - 1);
      SameNodes(p, states, events, k - 1);
      OwedOneEvent(p, states[k - 1], events[k - 1], i, note);
      if CutsUnder(p, states[k - 1], events[k - 1], i, note.index) {
        assert CutWhileOwed(p, states, events, k - 1, i, note);
      } else if !CoveredAt(states[k], i, note) {
        AheadMeansCut(p, states, events, k - 1, i, note);
      }
    }
  }

  lemma AheadIsUncovered(log: seq<Entry>, shelf: Shelf, note: Note)
    requires InStep(log, shelf) && TellsAhead(shelf, note)
    ensures !Covered(log, shelf, note)
  {
    OneWritten(log, shelf);
  }
}
