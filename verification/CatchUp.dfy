/**
 * A leader brings a follower up to date. One round is a request, its answer and what the leader
 * makes of it; nothing is lost in between. Refusals walk the send position down to the last
 * entry the logs share, and batches then carry it to the end of the leader's log.
 */
module CatchUp {

  import opened RaftTypes
  import opened RaftLogs
  import opened RaftNodes
  import opened RaftCluster
  import opened LogMatching

  datatype Pair = Pair(lead: Node, follow: Node)
  {
    function Last(): nat { |lead.log.entries| }

    function Next(): Position
      requires lead.progress.Tracks(follow.id)
    {
      lead.progress.nextIndex[follow.id]
    }

    function Match(): nat
      requires lead.progress.Tracks(follow.id)
    {
      lead.progress.matchIndex[follow.id]
    }
  }

  /** What the leader makes of the answer to its request. */
  function Heard(lead: Node, from: NodeId, req: AppendRequest, reply: AppendReply): Node {
    if req.entries == [] then HandleHeartbeatResponse(lead, from, reply)
    else HandleAppendEntriesResponse(lead, from, reply)
  }

  /** One request, sent, handled and answered. */
  function Round(p: Params, x: Pair): Pair {
    var (lead, req) := SendAppendEntries(p.limits, x.lead, x.follow.id);
    if req == None then x
    else
      var (follow, reply) := HandleAppendEntries(p.config, x.follow, req.value);
      Pair(Heard(lead, x.follow.id, req.value, reply), follow)
  }

  /** One ReadIndex heartbeat: the send position with no entries. */
  function HeartbeatRound(p: Params, x: Pair): Pair
    requires Tracked(x)
  {
    var req := NextRequest(p.limits, x.lead, x.Next()).(entries := []);
    var (follow, reply) := HandleAppendEntries(p.config, x.follow, req);
    Pair(Heard(x.lead, x.follow.id, req, reply), follow)
  }

  function Iterate<T>(step: T -> T, x: T, n: nat): T
    decreases n
  {
    if n == 0 then x else Iterate(step, step(x), n - 1)
  }

  function Rounder(p: Params): Pair -> Pair {
    x => Round(p, x)
  }

  /** The pair after `n` rounds. */
  function Rounds(p: Params, x: Pair, n: nat): Pair {
    Iterate(Rounder(p), x, n)
  }

  predicate Tracked(x: Pair) {
    x.lead.progress.Tracks(x.follow.id)
  }

  /** The leader of a term no older than the follower's, tracking it, with nothing in flight to it. */
  predicate Facing(p: Params, x: Pair) {
    && Uncompacted(x.lead) && Uncompacted(x.follow) && Matching(x.follow.log.entries, x.lead.log.entries)
    && x.lead.office.role == Leader && x.follow.office.term <= x.lead.office.term
    && x.follow.id in x.lead.peers && x.lead.progress.Tracks(x.follow.id)
    && x.lead.progress.InflightTo(x.follow.id) == []
    && p.config.IsVoter(x.lead.id) && 0 < p.limits.window
  }

  /** Only the leader's progress and the follower changed. */
  predicate SameLeader(x: Pair, y: Pair) {
    y.lead == x.lead.(progress := y.lead.progress) && y.follow.id == x.follow.id
  }

  // ---------- one round ----------

  /** The request that the leader sends from `next`, and its pipeline afterwards. */
  lemma Sent(p: Params, x: Pair)
    requires Facing(p, x)
    ensures var q, req := x.follow.id, NextRequest(p.limits, x.lead, x.Next());
            && SendAppendEntries(p.limits, x.lead, q).1 == Some(req)
            && SliceOk(x.lead.log.entries, req) && req.prevIndex == x.Next() - 1 && req.term == x.lead.office.term
            && req.leader == x.lead.id
            && |req.entries| == (if x.Next() <= x.Last() then Min(p.limits.maxEntries, x.Last() + 1 - x.Next()) else 0)
            && req.prevTerm == (if 1 <= req.prevIndex <= x.Last() then x.lead.log.entries[req.prevIndex - 1].term
                                else 0)
  {
    RequestIsSlice(p.limits, x.lead, x.Next());
    HeldTerm(x.lead, x.Next() - 1);
    assert InflightCount([]) == 0;
  }

  /** The previous-entry check fails: the follower lacks the entry before the send position, or has another. */
  predicate Differs(x: Pair)
    requires Tracked(x) && x.Next() <= x.Last() + 1
  {
    var prev := x.Next() - 1;
    0 < prev && (prev > |x.follow.log.entries|
                 || x.follow.log.entries[prev - 1].term != x.lead.log.entries[prev - 1].term)
  }

  /** The follower's log once it has taken the request's entries. */
  function Taken(x: Pair, req: AppendRequest): seq<Entry> {
    var q, own, lead := req.prevIndex + |req.entries|, x.follow.log.entries, x.lead.log.entries;
    if req.entries != [] && q <= |lead| && !Agree(own, lead, q) then lead[..q] else own
  }

  lemma RefusedAnswer(n: Node, req: AppendRequest)
    requires Uncompacted(n) && req.prevIndex > 0 && TermAt(n, req.prevIndex) != req.prevTerm
    ensures Replicate(n, req) == (n, AppendReply(n.office.term, false, req.prevIndex, 0))
  {
  }

  lemma AcceptedAnswer(n: Node, req: AppendRequest, m: Node)
    requires Uncompacted(n) && (req.prevIndex > 0 ==> TermAt(n, req.prevIndex) == req.prevTerm)
    requires AppendMissing(CutConflict(n, req.entries), req.entries) == (m, None)
    ensures Replicate(n, req) == (FollowCommit(m, req.leaderCommit), AppendReply(n.office.term, true, 0, |req.entries|))
  {
  }

  /** The follower at the leader's term, holding `log`. */
  predicate Holding(x: Pair, follow: Node, log: seq<Entry>) {
    && follow.id == x.follow.id && follow.office.term == x.lead.office.term && follow.snapshotIndex == 0
    && follow.log == Log(1, log)
  }

  lemma TakesBatch(n: Node, lead: seq<Entry>, prev: nat, entries: seq<Entry>)
    requires Uncompacted(n) && WellFormed(lead) && Matching(n.log.entries, lead) && Agree(n.log.entries, lead, prev)
    requires prev + |entries| <= |lead| && entries == lead[prev..prev + |entries|]
    ensures var q, own := prev + |entries|, n.log.entries;
            AppendMissing(CutConflict(n, entries), entries)
              == (n.(log := Log(1, if Agree(own, lead, q) then own else lead[..q])), None)
  {
    MergeFollowsLeader(n, lead, prev, entries);
  }

  lemma TakesEntries(n: Node, req: AppendRequest, x: Pair)
    requires Uncompacted(n) && n.log == x.follow.log && WellFormed(x.lead.log.entries)
    requires Matching(n.log.entries, x.lead.log.entries) && SliceOk(x.lead.log.entries, req)
    requires req.prevIndex > 0 ==> TermAt(n, req.prevIndex) == req.prevTerm
    ensures AppendMissing(CutConflict(n, req.entries), req.entries) == (n.(log := Log(1, Taken(x, req))), None)
  {
    if req.entries == [] {
      assert n.(log := Log(1, n.log.entries)) == n;
    } else {
      PrevCheckMeansAgreement(n, x.lead.log.entries, req);
      TakesBatch(n, x.lead.log.entries, req.prevIndex, req.entries);
    }
  }

  /** A request from the send position, with or without its entries, is refused exactly where the logs differ. */
  lemma RefusedIff(p: Params, x: Pair, req: AppendRequest)
    requires Facing(p, x) && x.Next() <= x.Last() + 1
    requires var r := NextRequest(p.limits, x.lead, x.Next()); req == r || req == r.(entries := [])
    ensures var (follow, reply) := HandleAppendEntries(p.config, x.follow, req);
            if Differs(x)
            then Holding(x, follow, x.follow.log.entries)
                 && reply == AppendReply(x.lead.office.term, false, x.Next() - 1, 0)
            else Holding(x, follow, Taken(x, req))
                 && reply == AppendReply(x.lead.office.term, true, 0, |req.entries|)
  {
    Sent(p, x);
    var base := Receptive(x.follow, req.term);
    HandlerReplicates(p.config, x.follow, req);
    HeldTerm(base, req.prevIndex);
    if Differs(x) {
      RefusedAnswer(base, req);
    } else {
      TakesEntries(base, req, x);
      AcceptedAnswer(base, req, base.(log := Log(1, Taken(x, req))));
    }
  }

  /** The send position moved to `next` and the credit to `matched`. */
  predicate MovedTo(p: Params, x: Pair, y: Pair, next: nat, matched: nat) {
    Facing(p, y) && SameLeader(x, y) && y.Next() == next && y.Match() == matched
  }

  /** The leader's position for the peer, with nothing in flight to it. */
  predicate Positioned(lead: Node, lead': Node, q: NodeId, next: nat, matched: nat) {
    && lead' == lead.(progress := lead'.progress) && lead'.progress.Tracks(q) && lead'.progress.InflightTo(q) == []
    && lead'.progress.nextIndex[q] == next && lead'.progress.matchIndex[q] == matched
  }

  lemma LeaderRewinds(p: Params, x: Pair, req: AppendRequest, reply: AppendReply)
    requires Facing(p, x) && 1 < x.Next() <= x.Last() + 1
    requires !reply.success && reply.term == x.lead.office.term && reply.conflictIndex == x.Next() - 1
    ensures var q, next := x.follow.id, x.Next() - 1;
            && (req == NextRequest(p.limits, x.lead, x.Next()) ==>
                  Positioned(x.lead, Heard(SendAppendEntries(p.limits, x.lead, q).0, q, req, reply), q, next,
                             Min(x.Match(), next - 1)))
            && (req.entries == [] ==>
                  Positioned(x.lead, Heard(x.lead, q, req, reply), q, next, Min(x.Match(), next - 1)))
  {
    Sent(p, x);
    HeldTerm(x.lead, x.Next() - 1);
  }

  lemma Arrives(p: Params, x: Pair, lead': Node, follow': Node, log: seq<Entry>, next: nat, matched: nat)
    requires Facing(p, x) && Positioned(x.lead, lead', x.follow.id, next, matched)
    requires Holding(x, follow', log) && WellFormed(log) && Matching(log, x.lead.log.entries)
    ensures MovedTo(p, x, Pair(lead', follow'), next, matched)
  {
  }

  /** A refusal, of entries or of a heartbeat, puts the next request's previous index one below the refused one. */
  lemma RefusalBacksOff(p: Params, x: Pair)
    requires Facing(p, x) && x.Next() <= x.Last() + 1 && Differs(x)
    ensures var next := x.Next() - 1;
            && MovedTo(p, x, Round(p, x), next, Min(x.Match(), next - 1)) && Round(p, x).follow.log == x.follow.log
            && MovedTo(p, x, HeartbeatRound(p, x), next, Min(x.Match(), next - 1))
            && HeartbeatRound(p, x).follow.log == x.follow.log
  {
    Sent(p, x);
    var q, next, req := x.follow.id, x.Next() - 1, NextRequest(p.limits, x.lead, x.Next());
    var beat := req.(entries := []);
    RefusedIff(p, x, req);
    RefusedIff(p, x, beat);
    var (follow, reply) := HandleAppendEntries(p.config, x.follow, req);
    LeaderRewinds(p, x, req, reply);
    Arrives(p, x, Heard(SendAppendEntries(p.limits, x.lead, q).0, q, req, reply), follow, x.follow.log.entries, next,
            Min(x.Match(), next - 1));
    var (follow', reply') := HandleAppendEntries(p.config, x.follow, beat);
    LeaderRewinds(p, x, beat, reply');
    Arrives(p, x, Heard(x.lead, q, beat, reply'), follow', x.follow.log.entries, next, Min(x.Match(), next - 1));
  }

  /** How many entries the next request carries. */
  function Load(p: Params, x: Pair): nat
    requires Tracked(x)
  {
    if x.Next() <= x.Last() then Min(p.limits.maxEntries, x.Last() + 1 - x.Next()) else 0
  }

  /** What is credited once the request is accepted. */
  function Credit(p: Params, x: Pair): nat
    requires Tracked(x)
  {
    if Load(p, x) == 0 then x.Match() else Max(x.Next() - 1 + Load(p, x), x.Match())
  }

  lemma LeaderCredits(p: Params, x: Pair, reply: AppendReply)
    requires Facing(p, x) && reply.success && reply.term == x.lead.office.term && reply.count == Load(p, x)
    ensures var q, req := x.follow.id, NextRequest(p.limits, x.lead, x.Next());
            Positioned(x.lead, Heard(SendAppendEntries(p.limits, x.lead, q).0, q, req, reply), q,
                       if Load(p, x) == 0 then x.Next() else Credit(p, x) + 1, Credit(p, x))
  {
    Sent(p, x);
  }

  lemma MergedAgrees(own: seq<Entry>, lead: seq<Entry>, q: nat)
    requires WellFormed(own) && WellFormed(lead) && Matching(own, lead) && q <= |lead|
    ensures var log := if Agree(own, lead, q) then own else lead[..q];
            WellFormed(log) && Matching(log, lead) && Agree(log, lead, q)
  {
    assert forall i :: 0 <= i < |lead[..q]| ==> lead[..q][i] == lead[i] && lead[..q][..i + 1] == lead[..i + 1];
  }

  lemma SharedPrefix(own: seq<Entry>, lead: seq<Entry>, k: nat)
    requires Matching(own, lead) && k <= |own| && k <= |lead| && (k > 0 ==> own[k - 1].term == lead[k - 1].term)
    ensures Agree(own, lead, k)
  {
    if k > 0 {
      assert own[..k - 1 + 1] == lead[..k - 1 + 1];
    }
  }

  lemma TakenAgrees(p: Params, x: Pair, req: AppendRequest)
    requires Facing(p, x) && x.Next() <= x.Last() + 1 && !Differs(x)
    requires req.prevIndex == x.Next() - 1 && req.prevIndex + |req.entries| <= x.Last()
    ensures var log, lead := Taken(x, req), x.lead.log.entries;
            WellFormed(log) && Matching(log, lead) && Agree(log, lead, req.prevIndex + |req.entries|)
  {
    if req.entries == [] {
      SharedPrefix(x.follow.log.entries, x.lead.log.entries, req.prevIndex);
    } else {
      MergedAgrees(x.follow.log.entries, x.lead.log.entries, req.prevIndex + |req.entries|);
    }
  }

  lemma AcceptedParts(p: Params, x: Pair, lead': Node, follow: Node, req: AppendRequest)
    requires Facing(p, x) && x.Next() <= x.Last() + 1 && !Differs(x)
    requires req.prevIndex == x.Next() - 1 && |req.entries| == Load(p, x) && Holding(x, follow, Taken(x, req))
    requires Positioned(x.lead, lead', x.follow.id, if Load(p, x) == 0 then x.Next() else Credit(p, x) + 1,
                        Credit(p, x))
    ensures Agree(follow.log.entries, x.lead.log.entries, x.Next() - 1 + Load(p, x))
    ensures MovedTo(p, x, Pair(lead', follow), if Load(p, x) == 0 then x.Next() else Credit(p, x) + 1, Credit(p, x))
  {
    TakenAgrees(p, x, req);
    Arrives(p, x, lead', follow, Taken(x, req), if Load(p, x) == 0 then x.Next() else Credit(p, x) + 1, Credit(p, x));
  }

  /** An accepted batch moves both positions past it; an accepted heartbeat moves nothing. */
  lemma AcceptanceMovesOn(p: Params, x: Pair)
    requires Facing(p, x) && x.Next() <= x.Last() + 1 && !Differs(x)
    ensures Agree(Round(p, x).follow.log.entries, x.lead.log.entries, x.Next() - 1 + Load(p, x))
    ensures MovedTo(p, x, Round(p, x), if Load(p, x) == 0 then x.Next() else Credit(p, x) + 1, Credit(p, x))
  {
    Sent(p, x);
    var q, req := x.follow.id, NextRequest(p.limits, x.lead, x.Next());
    RefusedIff(p, x, req);
    var (follow, reply) := HandleAppendEntries(p.config, x.follow, req);
    LeaderCredits(p, x, reply);
    var lead' := Heard(SendAppendEntries(p.limits, x.lead, q).0, q, req, reply);
    AcceptedParts(p, x, lead', follow, req);
  }

  // ---------- many rounds ----------

  /** The follower agrees with the whole of the leader's log, and the leader will send what comes after it. */
  predicate Caught(p: Params, x: Pair) {
    Facing(p, x) && x.Next() == x.Last() + 1 && Agree(x.follow.log.entries, x.lead.log.entries, x.Last())
  }

  /**
   * A walk seen from afar: positions, credit and agreement with a log of length `last`, and what
   * one step makes of them.
   */
  datatype Course<!T> = Course(step: T -> T, going: T -> bool, next: T -> nat, matched: T -> nat,
                               differs: T -> bool, agrees: (T, nat) -> bool, last: nat)
  {
    predicate Within(x: T) {
      going(x) && 1 <= next(x) <= last + 1
    }

    /** A refusal goes down by one; an acceptance goes on to an agreement, or stays at the end. */
    predicate Allows(x: T, y: T)
      requires Within(x)
    {
      && going(y) && (agrees(x, next(x) - 1) ==> !differs(x))
      && (if differs(x) then 1 < next(x) && next(y) == next(x) - 1 && matched(y) == Min(matched(x), next(x) - 2)
          else if next(x) > last then next(y) == next(x) && matched(y) == matched(x) && agrees(y, last)
          else
            && next(x) <= matched(y) && next(y) == matched(y) + 1 && matched(y) <= Max(last, matched(x))
            && (matched(x) < next(x) ==> agrees(y, matched(y))))
    }
  }

  ghost predicate Lawful<T(!new)>(c: Course<T>) {
    forall x :: c.Within(x) ==> c.Allows(x, c.step(x))
  }

  /** At the end of the log, in agreement, with the credit given. */
  predicate Ends<T(!new)>(c: Course<T>, y: T, matched: nat) {
    c.going(y) && c.next(y) == c.last + 1 && c.agrees(y, c.last) && c.matched(y) == matched
  }

  /** From an agreement, batches carry on to the end of the leader's log. */
  lemma {:induction false} Climbs<T(!new)>(c: Course<T>, x: T, n: nat)
    requires Lawful(c) && c.Within(x) && c.matched(x) < c.next(x) && c.last + 1 <= c.next(x) + n
    requires c.agrees(x, c.next(x) - 1)
    ensures Ends(c, Iterate(c.step, x, n), if c.next(x) <= c.last then c.last else c.matched(x))
    decreases n
  {
    if n > 0 {
      assert c.Allows(x, c.step(x));
      Climbs(c, c.step(x), n - 1);
    }
  }

  /** Refusals walk down to where the logs agree. */
  lemma {:induction false} Walks<T(!new)>(c: Course<T>, x: T, n: nat)
    requires Lawful(c) && c.Within(x) && c.matched(x) < c.next(x) && c.next(x) + c.last <= n
    ensures Ends(c, Iterate(c.step, x, n), if c.next(x) <= c.last || c.differs(x) then c.last else c.matched(x))
    decreases n
  {
    assert c.Allows(x, c.step(x));
    if c.differs(x) {
      Walks(c, c.step(x), n - 1);
    } else {
      Climbs(c, c.step(x), n - 1);
    }
  }

  /** A credit at or beyond the send position costs at most one more round. */
  lemma Overtakes<T(!new)>(c: Course<T>, x: T, n: nat)
    requires Lawful(c) && c.Within(x) && c.matched(x) <= c.last && 2 * c.last + 2 <= n
    ensures Ends(c, Iterate(c.step, x, n), if c.next(x) <= c.last || c.differs(x) then c.last else c.matched(x))
  {
    if c.matched(x) < c.next(x) {
      Walks(c, x, n);
    } else {
      assert c.Allows(x, c.step(x));
      Walks(c, c.step(x), n - 1);
    }
  }

  function CourseOf(p: Params, x: Pair): Course<Pair> {
    Course(Rounder(p),
           (y: Pair) => Facing(p, y) && SameLeader(x, y),
           (y: Pair) => if Tracked(y) then y.Next() else 0,
           (y: Pair) => if Tracked(y) then y.Match() else 0,
           (y: Pair) => Tracked(y) && y.Next() <= y.Last() + 1 && Differs(y),
           (y: Pair, k: nat) => Agree(y.follow.log.entries, x.lead.log.entries, k),
           x.Last())
  }

  lemma CourseIsLawful(p: Params, x: Pair)
    ensures Lawful(CourseOf(p, x))
  {
    var c := CourseOf(p, x);
    forall y: Pair | c.Within(y) ensures c.Allows(y, c.step(y)) {
      if Differs(y) {
        RefusalBacksOff(p, y);
        RefusalAllowed(p, x, y, Round(p, y));
      } else {
        AcceptanceMovesOn(p, y);
        AcceptanceAllowed(p, x, y, Round(p, y));
      }
    }
  }

  lemma RefusalAllowed(p: Params, x: Pair, y: Pair, z: Pair)
    requires CourseOf(p, x).Within(y) && Differs(y) && MovedTo(p, y, z, y.Next() - 1, Min(y.Match(), y.Next() - 2))
    ensures CourseOf(p, x).Allows(y, z)
  {
    AgreedEntry(y.follow.log.entries, x.lead.log.entries, y.Next() - 1);
  }

  lemma AcceptanceAllowed(p: Params, x: Pair, y: Pair, z: Pair)
    requires CourseOf(p, x).Within(y) && !Differs(y)
    requires MovedTo(p, y, z, if Load(p, y) == 0 then y.Next() else Credit(p, y) + 1, Credit(p, y))
    requires Agree(z.follow.log.entries, x.lead.log.entries, y.Next() - 1 + Load(p, y))
    ensures CourseOf(p, x).Allows(y, z)
  {
  }

  lemma AgreedEntry(a: seq<Entry>, b: seq<Entry>, k: nat)
    ensures 0 < k && Agree(a, b, k) ==> a[k - 1] == b[k - 1]
  {
    if 0 < k && Agree(a, b, k) {
      assert a[..k][k - 1] == b[..k][k - 1];
    }
  }

  /**
   * From a send position within the leader's log, so many rounds bring the follower up to date.
   * The credit reaches the leader's last index as well, unless all it takes is a heartbeat: that
   * credits nothing.
   */
  lemma CatchesUp(p: Params, x: Pair, n: nat)
    requires Facing(p, x) && x.Match() <= x.Last() && x.Next() <= x.Last() + 1 && 2 * x.Last() + 2 <= n
    ensures var y := Rounds(p, x, n);
            && Caught(p, y) && SameLeader(x, y)
            && y.Match() == if x.Next() <= x.Last() || Differs(x) then x.Last() else x.Match()
  {
    CourseIsLawful(p, x);
    Overtakes(CourseOf(p, x), x, n);
  }

  // ---------- beyond the leader's log ----------

  /** Nothing has moved. */
  predicate Strayed(p: Params, x: Pair, y: Pair) {
    Facing(p, y) && y.lead == x.lead && y.follow.id == x.follow.id && y.follow.log == x.follow.log
  }

  lemma StrayHeartbeat(p: Params, x: Pair)
    requires Facing(p, x) && x.Last() + 1 < x.Next()
    ensures Strayed(p, x, Round(p, x))
  {
    Sent(p, x);
    var req := NextRequest(p.limits, x.lead, x.Next());
    var base := Receptive(x.follow, req.term);
    HandlerReplicates(p.config, x.follow, req);
    HeldTerm(x.lead, 0);
    if TermAt(base, req.prevIndex) != req.prevTerm {
      RefusedAnswer(base, req);
    } else {
      AcceptedAnswer(base, req, base);
    }
  }

  /** A send position beyond the next index of the leader's log never comes back by itself. */
  lemma {:induction false} Strays(p: Params, step: Pair -> Pair, x: Pair, n: nat)
    requires forall y :: Facing(p, y) && y.Last() + 1 < y.Next() ==> Strayed(p, y, step(y))
    requires Facing(p, x) && x.Last() + 1 < x.Next()
    ensures Strayed(p, x, Iterate(step, x, n))
    decreases n
  {
    if n > 0 {
      assert Strayed(p, x, step(x));
      Strays(p, step, step(x), n - 1);
    }
  }

  /** The rounds catch up exactly when they start within the leader's log. */
  lemma CatchesUpIff(p: Params, x: Pair)
    requires Facing(p, x) && x.Match() <= x.Last()
    ensures (exists n: nat :: Caught(p, Rounds(p, x, n))) <==> x.Next() <= x.Last() + 1
  {
    if x.Next() <= x.Last() + 1 {
      CatchesUp(p, x, 2 * x.Last() + 2);
    } else {
      forall y | Facing(p, y) && y.Last() + 1 < y.Next() ensures Strayed(p, y, Rounder(p)(y)) {
        StrayHeartbeat(p, y);
      }
      forall n: nat ensures !Caught(p, Rounds(p, x, n)) {
        Strays(p, Rounder(p), x, n);
      }
    }
  }
}
