/** Membership changes: what each applied command makes of a configuration, and which quorums overlap. */
module Memberships {

  import opened RaftTypes
  import opened Quorums

  /** A configuration entry; a command that does not parse changes nothing, unless only the last list is unreadable. */
  datatype Command =
    | Joint(oldNodes: seq<NodeId>, newNodes: seq<NodeId>)
    | HalfJoint(oldNodes: seq<NodeId>)
    | Finalize(newNodes: seq<NodeId>)
    | AddLearner(id: NodeId)
    | Promote(id: NodeId)
    | Add(id: NodeId)
    | Remove(id: NodeId)
    | Malformed

  function WithoutAll(list: seq<NodeId>, ids: seq<NodeId>): (r: seq<NodeId>)
    ensures forall x :: x in r <==> x in list && x !in ids
  {
    if ids == [] then list else Without(WithoutAll(list, ids[..|ids| - 1]), ids[|ids| - 1])
  }

  function Applied(c: ClusterConfig, cmd: Command): ClusterConfig {
    match cmd
    case Joint(o, n) => ClusterConfig(n, o, WithoutAll(c.learners, n), c.version + 1, true)
    case HalfJoint(o) => c.(oldNodes := o)
    case Finalize(n) => ClusterConfig(n, [], WithoutAll(c.learners, n), c.version + 1, false)
    case AddLearner(id) => if c.Contains(id) then c else c.(learners := c.learners + [id], version := c.version + 1)
    case Promote(id) =>
      var d := c.(learners := Without(c.learners, id));
      if d.IsVoter(id) then d else d.(nodes := d.nodes + [id], version := d.version + 1)
    case Add(id) => if c.Contains(id) then c else c.(nodes := c.nodes + [id], version := c.version + 1)
    case Remove(id) => c.(nodes := Without(c.nodes, id), learners := Without(c.learners, id), version := c.version + 1)
    case Malformed => c
  }

  // ---------- in place ----------

  class Membership {
    var config: ClusterConfig

    constructor (config: ClusterConfig)
      ensures this.config == config
    {
      this.config := config;
    }

    /** The learner list with every id of `ids` erased, one after the other. */
    method EraseLearners(ids: seq<NodeId>)
      modifies this
      ensures config == old(config).(learners := WithoutAll(old(config).learners, ids))
    {
      for k := 0 to |ids|
        invariant config == old(config).(learners := WithoutAll(old(config).learners, ids[..k]))
      {
        assert ids[..k + 1][..k] == ids[..k];
        config := config.(learners := Without(config.learners, ids[k]));
      }
      assert ids[..|ids|] == ids;
    }

    method ApplyConfigChange(cmd: Command)
      modifies this
      ensures config == Applied(old(config), cmd)
    {
      match cmd
      case Joint(o, n) =>
        config := config.(oldNodes := o, nodes := n, isJoint := true, version := config.version + 1);
        EraseLearners(n);
      case HalfJoint(o) => config := config.(oldNodes := o);
      case Finalize(n) =>
        config := config.(nodes := n, oldNodes := [], isJoint := false, version := config.version + 1);
        EraseLearners(n);
      case AddLearner(id) =>
        if !config.Contains(id) {
          config := config.(learners := config.learners + [id], version := config.version + 1);
        }
      case Promote(id) =>
        config := config.(learners := Without(config.learners, id));
        if !config.IsVoter(id) {
          config := config.(nodes := config.nodes + [id], version := config.version + 1);
        }
      case Add(id) =>
        if !config.Contains(id) {
          config := config.(nodes := config.nodes + [id], version := config.version + 1);
        }
      case Remove(id) =>
        config := config.(nodes := Without(config.nodes, id), learners := Without(config.learners, id));
        config := config.(version := config.version + 1);
      case Malformed =>
    }
  }

  // ---------- what proposals produce ----------

  function ProposeAdd(c: ClusterConfig, id: NodeId): Command {
    Joint(c.nodes, c.nodes + [id])
  }

  function ProposeRemove(c: ClusterConfig, id: NodeId): Command {
    Joint(c.nodes, Without(c.nodes, id))
  }

  /** What a leader proposes while `c` is the configuration it has applied. */
  ghost predicate MadeFrom(c: ClusterConfig, cmd: Command) {
    || (exists id :: (!c.Contains(id) || id in c.learners) && cmd == ProposeAdd(c, id))
    || (exists id :: c.Contains(id) && cmd == ProposeRemove(c, id))
    || (exists id :: !c.Contains(id) && cmd == AddLearner(id))
    || (c.isJoint && cmd == Finalize(c.nodes))
  }

  /** The lists differ by at most the member `id`. */
  predicate Neighbours(a: seq<NodeId>, b: seq<NodeId>, id: NodeId) {
    b == a + [id] || b == Without(a, id)
  }

  /** A change of one member to the voters in force, or the end of the change in force. */
  ghost predicate InPlace(c: ClusterConfig, cmd: Command) {
    match cmd
    case Joint(o, n) => !c.isJoint && o == c.nodes && (exists id :: Neighbours(o, n, id))
    case HalfJoint(o) => o == c.oldNodes
    case Finalize(n) => c.isJoint && n == c.nodes
    case _ => true
  }

  /** Where `d` is in force, the voters are still those of `c`, and the mode is the one the command changes. */
  predicate InForce(c: ClusterConfig, cmd: Command, d: ClusterConfig) {
    match cmd
    case Joint(_, _) => !d.isJoint && d.nodes == c.nodes
    case Finalize(_) => d.isJoint && d.nodes == c.nodes
    case _ => true
  }

  /** A proposal made from `c` is in place where `d` is in force exactly when the voters are still those of `c`. */
  lemma ProposalInPlaceIff(c: ClusterConfig, cmd: Command, d: ClusterConfig)
    requires MadeFrom(c, cmd)
    ensures InPlace(d, cmd) <==> InForce(c, cmd, d)
  {
    if cmd.Joint? && cmd.oldNodes == c.nodes {
      if id :| cmd == ProposeAdd(c, id) {
        assert Neighbours(c.nodes, cmd.newNodes, id);
      } else if id :| cmd == ProposeRemove(c, id) {
        assert Neighbours(c.nodes, cmd.newNodes, id);
      }
    }
  }

  // ---------- invariants over any sequence of commands ----------

  predicate ConfigOk(c: ClusterConfig) {
    && (forall id :: id in c.learners ==> id !in c.nodes && id !in c.oldNodes)
    && (!c.isJoint ==> c.oldNodes == [])
  }

  /** The command names a learner as a leaving voter, or leaves old voters behind outside joint mode. */
  predicate Misplaces(c: ClusterConfig, cmd: Command) {
    match cmd
    case Joint(o, n) => exists id :: id in c.learners && id in o && id !in n
    case HalfJoint(o) => (exists id :: id in c.learners && id in o) || (!c.isJoint && o != [])
    case _ => false
  }

  lemma CommandKeepsConfigOkIff(c: ClusterConfig, cmd: Command)
    requires ConfigOk(c)
    ensures ConfigOk(Applied(c, cmd)) <==> !Misplaces(c, cmd)
  {
  }

  /** Whatever the command, the version never falls, and rises with every change of voters or mode. */
  lemma CommandRaisesVersion(c: ClusterConfig, cmd: Command)
    ensures Applied(c, cmd).version >= c.version
    ensures Applied(c, cmd).nodes != c.nodes || Applied(c, cmd).isJoint != c.isJoint ==>
              Applied(c, cmd).version > c.version
  {
  }

  lemma InPlaceMisplacesNobody(c: ClusterConfig, cmd: Command)
    requires ConfigOk(c) && InPlace(c, cmd)
    ensures !Misplaces(c, cmd)
  {
  }

  /** Configurations in force as the commands of the log are applied one after the other. */
  ghost predicate Applies(configs: seq<ClusterConfig>, commands: seq<Command>) {
    && |configs| == |commands| + 1
    && (forall k :: 0 <= k < |commands| ==> configs[k + 1] == Applied(configs[k], commands[k]))
  }

  ghost predicate Sequence(configs: seq<ClusterConfig>, commands: seq<Command>) {
    Applies(configs, commands) && ConfigOk(configs[0])
  }

  lemma {:induction false} SequenceRaisesVersions(configs: seq<ClusterConfig>, commands: seq<Command>, j: nat, k: nat)
    requires Sequence(configs, commands) && j <= k < |configs|
    ensures configs[j].version <= configs[k].version
    decreases k
  {
    if j < k {
      SequenceRaisesVersions(configs, commands, j, k - 1);
      CommandRaisesVersion(configs[k - 1], commands[k - 1]);
    }
  }

  predicate OkUpTo(configs: seq<ClusterConfig>, k: nat)
    requires k < |configs|
  {
    forall j :: 0 <= j <= k ==> ConfigOk(configs[j])
  }

  predicate NoneMisplaced(configs: seq<ClusterConfig>, commands: seq<Command>, k: nat)
    requires k <= |commands| < |configs|
  {
    forall j :: 0 <= j < k ==> !Misplaces(configs[j], commands[j])
  }

  /** Learners and voters stay apart throughout exactly when no command takes a learner for a leaving voter. */
  lemma {:induction false} SequenceKeepsConfigOkIff(configs: seq<ClusterConfig>, commands: seq<Command>, k: nat)
    requires Sequence(configs, commands) && k < |configs|
    ensures OkUpTo(configs, k) <==> NoneMisplaced(configs, commands, k)
  {
    if k > 0 {
      SequenceKeepsConfigOkIff(configs, commands, k - 1);
      if OkUpTo(configs, k - 1) {
        assert ConfigOk(configs[k - 1]);
        CommandKeepsConfigOkIff(configs[k - 1], commands[k - 1]);
        assert configs[k - 1 + 1] == Applied(configs[k - 1], commands[k - 1]);
        assert ConfigOk(configs[k]) <==> !Misplaces(configs[k - 1], commands[k - 1]);
      } else {
        var i :| 0 <= i <= k - 1 && !ConfigOk(configs[i]);
        var j :| 0 <= j < k - 1 && Misplaces(configs[j], commands[j]);
      }
    }
  }

  // ---------- who is a member ----------

  /** Becoming a learner takes a command that adds it while it has no vote. */
  predicate Enrols(c: ClusterConfig, cmd: Command, id: NodeId) {
    cmd == AddLearner(id) && !c.IsVoter(id)
  }

  /** A learner stays one until a command names it a voter, promotes it or removes it. */
  predicate Graduates(cmd: Command, id: NodeId) {
    || ((cmd.Joint? || cmd.Finalize?) && id in cmd.newNodes)
    || cmd == Promote(id) || cmd == Remove(id)
  }

  /** A seat in the voter list comes with a list that has it, or one command for a node without a vote. */
  predicate Seats(c: ClusterConfig, cmd: Command, id: NodeId) {
    || ((cmd.Joint? || cmd.Finalize?) && id in cmd.newNodes)
    || (cmd == Promote(id) && !c.IsVoter(id)) || (cmd == Add(id) && !c.Contains(id))
  }

  predicate Unseats(cmd: Command, id: NodeId) {
    ((cmd.Joint? || cmd.Finalize?) && id !in cmd.newNodes) || cmd == Remove(id)
  }

  /** A vote in the old list, for as long as the mode is joint. */
  predicate OldVoter(c: ClusterConfig, id: NodeId) {
    c.isJoint && id in c.oldNodes
  }

  predicate Recalls(c: ClusterConfig, cmd: Command, id: NodeId) {
    (cmd.Joint? || (cmd.HalfJoint? && c.isJoint)) && id in cmd.oldNodes
  }

  predicate Retires(cmd: Command, id: NodeId) {
    cmd.Finalize? || ((cmd.Joint? || cmd.HalfJoint?) && id !in cmd.oldNodes)
  }

  lemma CommandDecidesMember(c: ClusterConfig, cmd: Command, id: NodeId)
    ensures id in Applied(c, cmd).learners <==> Enrols(c, cmd, id) || (id in c.learners && !Graduates(cmd, id))
    ensures id in Applied(c, cmd).nodes <==> Seats(c, cmd, id) || (id in c.nodes && !Unseats(cmd, id))
    ensures OldVoter(Applied(c, cmd), id) <==> Recalls(c, cmd, id) || (OldVoter(c, id) && !Retires(cmd, id))
  {
  }

  /** Holds at the start, or begins at some step, and has not ended since. */
  ghost predicate Lasts(start: bool, begins: nat -> bool, ends: nat -> bool, k: nat) {
    exists j: nat :: j <= k && BegunBy(start, begins, j) && UnendedFrom(ends, j, k)
  }

  predicate BegunBy(start: bool, begins: nat -> bool, j: nat) {
    if j == 0 then start else begins(j - 1)
  }

  predicate UnendedFrom(ends: nat -> bool, j: nat, k: nat) {
    forall i: nat :: j <= i < k ==> !ends(i)
  }

  lemma {:induction false} HoldsIffLasts(holds: nat -> bool, begins: nat -> bool, ends: nat -> bool, k: nat)
    requires forall i: nat :: i < k ==> (holds(i + 1) <==> begins(i) || (holds(i) && !ends(i)))
    ensures holds(k) <==> Lasts(holds(0), begins, ends, k)
  {
    if k == 0 {
      assert BegunBy(holds(0), begins, 0) <==> holds(0);
      assert UnendedFrom(ends, 0, 0);
    } else {
      HoldsIffLasts(holds, begins, ends, k - 1);
      if begins(k - 1) {
        assert BegunBy(holds(0), begins, k) && UnendedFrom(ends, k, k);
      } else {
        if holds(k) {
          var j: nat :| j <= k - 1 && BegunBy(holds(0), begins, j) && UnendedFrom(ends, j, k - 1);
          assert UnendedFrom(ends, j, k);
        }
        if Lasts(holds(0), begins, ends, k) {
          var j: nat :| j <= k && BegunBy(holds(0), begins, j) && UnendedFrom(ends, j, k);
          assert j != k && UnendedFrom(ends, j, k - 1) && !ends(k - 1);
        }
      }
    }
  }

  function When(commands: seq<Command>, happens: Command -> bool): nat -> bool {
    (i: nat) => i < |commands| && happens(commands[i])
  }

  function WhenIn(configs: seq<ClusterConfig>, commands: seq<Command>, happens: (ClusterConfig, Command) -> bool)
    : nat -> bool
  {
    (i: nat) => i < |commands| && i < |configs| && happens(configs[i], commands[i])
  }

  /** After any commands, a learner is one that was added, or was one at the start, and has not graduated since. */
  lemma LearnerIff(configs: seq<ClusterConfig>, commands: seq<Command>, k: nat, id: NodeId)
    requires Applies(configs, commands) && k < |configs|
    ensures id in configs[k].learners <==>
            Lasts(id in configs[0].learners, WhenIn(configs, commands, (c, cmd) => Enrols(c, cmd, id)),
                  When(commands, cmd => Graduates(cmd, id)), k)
  {
    var holds := (i: nat) => i < |configs| && id in configs[i].learners;
    var begins := WhenIn(configs, commands, (c, cmd) => Enrols(c, cmd, id));
    var ends := When(commands, cmd => Graduates(cmd, id));
    forall i: nat | i < k ensures holds(i + 1) <==> begins(i) || (holds(i) && !ends(i)) {
      CommandDecidesMember(configs[i], commands[i], id);
    }
    HoldsIffLasts(holds, begins, ends, k);
  }

  lemma SeatedIff(configs: seq<ClusterConfig>, commands: seq<Command>, k: nat, id: NodeId)
    requires Applies(configs, commands) && k < |configs|
    ensures id in configs[k].nodes <==>
            Lasts(id in configs[0].nodes, WhenIn(configs, commands, (c, cmd) => Seats(c, cmd, id)),
                  When(commands, cmd => Unseats(cmd, id)), k)
  {
    var holds := (i: nat) => i < |configs| && id in configs[i].nodes;
    var begins := WhenIn(configs, commands, (c, cmd) => Seats(c, cmd, id));
    var ends := When(commands, cmd => Unseats(cmd, id));
    forall i: nat | i < k ensures holds(i + 1) <==> begins(i) || (holds(i) && !ends(i)) {
      CommandDecidesMember(configs[i], commands[i], id);
    }
    HoldsIffLasts(holds, begins, ends, k);
  }

  lemma OldVoterIff(configs: seq<ClusterConfig>, commands: seq<Command>, k: nat, id: NodeId)
    requires Applies(configs, commands) && k < |configs|
    ensures OldVoter(configs[k], id) <==>
            Lasts(OldVoter(configs[0], id), WhenIn(configs, commands, (c, cmd) => Recalls(c, cmd, id)),
                  When(commands, cmd => Retires(cmd, id)), k)
  {
    var holds := (i: nat) => i < |configs| && OldVoter(configs[i], id);
    var begins := WhenIn(configs, commands, (c, cmd) => Recalls(c, cmd, id));
    var ends := When(commands, cmd => Retires(cmd, id));
    forall i: nat | i < k ensures holds(i + 1) <==> begins(i) || (holds(i) && !ends(i)) {
      CommandDecidesMember(configs[i], commands[i], id);
    }
    HoldsIffLasts(holds, begins, ends, k);
  }

  /** After any commands, a voter has a seat it was given and kept, or a vote in the old list of the joint mode. */
  lemma VoterIff(configs: seq<ClusterConfig>, commands: seq<Command>, k: nat, id: NodeId)
    requires Applies(configs, commands) && k < |configs|
    ensures configs[k].IsVoter(id) <==>
            || Lasts(id in configs[0].nodes, WhenIn(configs, commands, (c, cmd) => Seats(c, cmd, id)),
                     When(commands, cmd => Unseats(cmd, id)), k)
            || Lasts(OldVoter(configs[0], id), WhenIn(configs, commands, (c, cmd) => Recalls(c, cmd, id)),
                     When(commands, cmd => Retires(cmd, id)), k)
  {
    SeatedIff(configs, commands, k, id);
    OldVoterIff(configs, commands, k, id);
  }

  /** Commands that name one node leave every other as it is; an old list replaces nothing but the old list. */
  lemma OthersUnchanged(c: ClusterConfig, cmd: Command, id: NodeId)
    requires !cmd.Joint? && !cmd.Finalize?
    requires cmd.AddLearner? || cmd.Promote? || cmd.Add? || cmd.Remove? ==> cmd.id != id
    ensures var d := Applied(c, cmd);
            && d.isJoint == c.isJoint && (cmd.HalfJoint? || d.oldNodes == c.oldNodes)
            && (id in d.nodes <==> id in c.nodes) && (id in d.learners <==> id in c.learners)
  {
  }

  /** The version moves by at most one; where it stays, no voter, mode or learner was added. */
  lemma VersionTellsChange(c: ClusterConfig, cmd: Command)
    ensures var d := Applied(c, cmd);
            && (d.version == c.version || d.version == c.version + 1)
            && (d.version == c.version ==>
                  d.nodes == c.nodes && d.isJoint == c.isJoint && (forall id :: id in d.learners ==> id in c.learners))
            && (d.version == c.version + 1 ==>
                  || cmd.Joint? || cmd.Finalize? || cmd.Remove?
                  || (exists id :: Joins(c, d, id)))
  {
    if (cmd.AddLearner? || cmd.Add?) && !c.Contains(cmd.id) {
      assert Joins(c, Applied(c, cmd), cmd.id);
    } else if cmd.Promote? && !c.IsVoter(cmd.id) {
      assert Joins(c, Applied(c, cmd), cmd.id);
    }
  }

  /** A node that is a member, or has a vote, only now. */
  predicate Joins(c: ClusterConfig, d: ClusterConfig, id: NodeId) {
    (d.Contains(id) && !c.Contains(id)) || (d.IsVoter(id) && !c.IsVoter(id))
  }

  // ---------- overlapping quorums ----------

  /** Whoever can elect under one and whoever can elect under the other have a voter in common. */
  ghost predicate Meet(c: ClusterConfig, d: ClusterConfig) {
    forall x, y :: ElectionQuorum(c, x) && ElectionQuorum(d, y) ==> x * y != {}
  }

  /** The voters cannot be split in two so that one part elects under one and the rest under the other. */
  ghost predicate NoSplit(c: ClusterConfig, d: ClusterConfig) {
    forall x :: x <= Electorate(c, d) && ElectionQuorum(c, x) ==> !ElectionQuorum(d, Electorate(c, d) - x)
  }

  function Members(list: seq<NodeId>): set<NodeId> {
    set v | v in list
  }

  function Electorate(c: ClusterConfig, d: ClusterConfig): set<NodeId> {
    Members(c.nodes) + Members(c.oldNodes) + Members(d.nodes) + Members(d.oldNodes)
  }

  /** More voters are still a quorum, and only listed ones count. */
  lemma QuorumGrows(c: ClusterConfig, x: set<NodeId>, y: set<NodeId>)
    requires ElectionQuorum(c, x) && (forall v :: v in x && (v in c.nodes || v in c.oldNodes) ==> v in y)
    ensures ElectionQuorum(c, y)
  {
    SubsetSize(Among(x, c.nodes), Among(y, c.nodes));
    SubsetSize(Among(x, c.oldNodes), Among(y, c.oldNodes));
  }

  /** For any two configurations, joint or not: quorums always meet exactly when the voters have no such split. */
  lemma MeetIffNoSplit(c: ClusterConfig, d: ClusterConfig)
    ensures Meet(c, d) <==> NoSplit(c, d)
  {
    var all := Electorate(c, d);
    if Meet(c, d) {
      forall x | x <= all && ElectionQuorum(c, x) ensures !ElectionQuorum(d, all - x) {
        assert x * (all - x) == {};
      }
    }
    if NoSplit(c, d) {
      forall x, y | ElectionQuorum(c, x) && ElectionQuorum(d, y) ensures x * y != {} {
        var part := x * all;
        QuorumGrows(c, x, part);
        if x * y == {} {
          forall v | v in y ensures v !in part {
            assert v !in x * y;
          }
          QuorumGrows(d, y, all - part);
        }
      }
    }
  }

  /** Every majority of one list meets every majority of the other. */
  ghost predicate MajoritiesAlwaysMeet(a: seq<NodeId>, b: seq<NodeId>) {
    forall x, y :: IsMajority(x, a) && IsMajority(y, b) ==> x * y != {}
  }

  predicate IsMajority(x: set<NodeId>, list: seq<NodeId>) {
    |Among(x, list)| >= Majority(list)
  }

  lemma Taken(s: set<NodeId>, n: nat) returns (t: set<NodeId>)
    requires n <= |s|
    ensures t <= s && |t| == n
    decreases n
  {
    if n == 0 {
      t := {};
    } else {
      t := Taken(s, n - 1);
      assert s == (s - t) + t && |s - t| == |s| - |t|;
      var v :| v in s - t;
      t := t + {v};
    }
  }

  lemma MembersAreMajority(x: set<NodeId>, list: seq<NodeId>)
    requires x <= Members(list) && |x| >= Majority(list)
    ensures IsMajority(x, list)
  {
    assert Among(x, list) == x;
  }

  /** Two majorities side by side, when the members leave room for both. */
  lemma Apart(a: seq<NodeId>, b: seq<NodeId>) returns (x: set<NodeId>, y: set<NodeId>)
    requires Majority(a) <= |Members(a)| && Majority(b) <= |Members(b)|
    requires Majority(a) + Majority(b) <= |Members(a) + Members(b)|
    ensures IsMajority(x, a) && IsMajority(y, b) && x * y == {}
  {
    var p, q, m := Members(a), Members(b), Majority(a);
    Inclusion(p, q);
    if m <= |p - q| {
      x := Taken(p - q, m);
      y := q;
    } else {
      var shared := Taken(p * q, m - |p - q|);
      x, y := (p - q) + shared, q - shared;
      assert |x| == m && |q - shared| == |q| - |shared|;
    }
    MembersAreMajority(x, a);
    MembersAreMajority(y, b);
  }

  lemma Inclusion(p: set<NodeId>, q: set<NodeId>)
    ensures |p + q| == |p - q| + |q| && |p| == |p - q| + |p * q|
  {
    assert p + q == (p - q) + q && p == (p - q) + (p * q);
  }

  /**
   * For any two voter lists: all their majorities meet exactly when together they need more than the
   * members there are, or one of them cannot be met at all.
   */
  lemma MajoritiesMeetIff(a: seq<NodeId>, b: seq<NodeId>)
    ensures MajoritiesAlwaysMeet(a, b) <==>
            || Majority(a) + Majority(b) > |Members(a) + Members(b)|
            || Majority(a) > |Members(a)| || Majority(b) > |Members(b)|
  {
    if Majority(a) + Majority(b) > |Members(a) + Members(b)| {
      forall x, y | IsMajority(x, a) && IsMajority(y, b) ensures x * y != {} {
        CrowdedMajorities(a, b, x, y);
      }
    } else if Majority(a) > |Members(a)| || Majority(b) > |Members(b)| {
      forall x ensures |Among(x, a)| <= |Members(a)| && |Among(x, b)| <= |Members(b)| {
        SubsetSize(Among(x, a), Members(a));
        SubsetSize(Among(x, b), Members(b));
      }
    } else {
      var x, y := Apart(a, b);
    }
  }

  lemma CrowdedMajorities(a: seq<NodeId>, b: seq<NodeId>, x: set<NodeId>, y: set<NodeId>)
    requires Majority(a) + Majority(b) > |Members(a) + Members(b)| && IsMajority(x, a) && IsMajority(y, b)
    ensures x * y != {}
  {
    var p, q := Among(x, a), Among(y, b);
    SubsetSize(p + q, Members(a) + Members(b));
    assert |p + q| == |p| + |q| - |p * q|;
    assert p * q != {} && p * q <= x * y;
  }

  /** Outside joint mode that decides whether two configurations' quorums always meet. */
  lemma PlainMeetIff(c: ClusterConfig, d: ClusterConfig)
    requires !c.isJoint && !d.isJoint
    ensures Meet(c, d) <==> MajoritiesAlwaysMeet(c.nodes, d.nodes)
  {
    assert forall x :: ElectionQuorum(c, x) <==> IsMajority(x, c.nodes);
    assert forall x :: ElectionQuorum(d, x) <==> IsMajority(x, d.nodes);
  }

  /** Majorities of two lists that differ by one member share a voter. */
  lemma NeighbouringMajoritiesMeet(a: seq<NodeId>, b: seq<NodeId>, id: NodeId, x: set<NodeId>, y: set<NodeId>)
    requires a == b || Neighbours(a, b, id)
    requires |Among(x, a)| >= Majority(a) && |Among(y, b)| >= Majority(b)
    ensures x * y != {}
  {
    if a == b {
      MajoritiesMeet(x, y, a);
      var v :| v in x && v in y;
      assert v in x * y;
    } else {
      var p, q := Among(x, a), Among(y, b);
      ListedAtMostLength(p + q, if |a| < |b| then b else b + [id]);
      assert |p + q| == |p| + |q| - |p * q|;
      assert p * q != {} && p * q <= x * y;
    }
  }

  /** A command in place: the configurations before and after it always meet. */
  lemma InPlaceMeets(c: ClusterConfig, cmd: Command)
    requires InPlace(c, cmd)
    ensures Meet(c, Applied(c, cmd))
  {
    var d := Applied(c, cmd);
    forall x, y | ElectionQuorum(c, x) && ElectionQuorum(d, y) ensures x * y != {} {
      match cmd
      case Promote(id) => NeighbouringMajoritiesMeet(c.nodes, d.nodes, id, x, y);
      case Add(id) => NeighbouringMajoritiesMeet(c.nodes, d.nodes, id, x, y);
      case Remove(id) => NeighbouringMajoritiesMeet(c.nodes, d.nodes, id, x, y);
      case _ => NeighbouringMajoritiesMeet(c.nodes, c.nodes, 0, x, y);
    }
  }

  // ---------- in log order ----------

  /** Each command was proposed by a leader that had applied the first `seen[k]` commands before it. */
  ghost predicate LogOrder(configs: seq<ClusterConfig>, commands: seq<Command>, seen: seq<nat>) {
    && Sequence(configs, commands) && |seen| == |commands|
    && (forall k :: 0 <= k < |commands| ==> seen[k] <= k && MadeFrom(configs[seen[k]], commands[k]))
  }

  /** The voters a command was made for are the voters where it is applied. */
  predicate UpToDate(configs: seq<ClusterConfig>, commands: seq<Command>, seen: seq<nat>, k: nat)
    requires k < |commands| == |seen| && |configs| == |commands| + 1 && seen[k] <= k
  {
    InForce(configs[seen[k]], commands[k], configs[k])
  }

  ghost predicate MeetUpTo(configs: seq<ClusterConfig>, n: nat)
    requires n < |configs|
  {
    forall k :: 0 <= k < n ==> Meet(configs[k], configs[k + 1])
  }

  /** Whatever the commands were, neighbouring configurations always meet exactly when no pair of them can be split. */
  lemma LogMeetsIff(configs: seq<ClusterConfig>, n: nat)
    requires n < |configs|
    ensures MeetUpTo(configs, n) <==> forall k :: 0 <= k < n ==> NoSplit(configs[k], configs[k + 1])
  {
    forall k | 0 <= k < n ensures Meet(configs[k], configs[k + 1]) <==> NoSplit(configs[k], configs[k + 1]) {
      MeetIffNoSplit(configs[k], configs[k + 1]);
    }
  }

  /**
   * In any log whose leaders proposed from voters still in force, adjacent configurations always
   * meet, and learners and voters stay apart.
   */
  lemma UpToDateLogMeets(configs: seq<ClusterConfig>, commands: seq<Command>, seen: seq<nat>, k: nat)
    requires LogOrder(configs, commands, seen) && k < |commands|
    requires forall j :: 0 <= j <= k ==> UpToDate(configs, commands, seen, j)
    ensures Meet(configs[k], configs[k + 1]) && ConfigOk(configs[k + 1])
  {
    UpToDateLogIsOk(configs, commands, seen, k + 1);
    assert UpToDate(configs, commands, seen, k);
    ProposalInPlaceIff(configs[seen[k]], commands[k], configs[k]);
    InPlaceMeets(configs[k], commands[k]);
  }

  lemma {:induction false} UpToDateLogIsOk(configs: seq<ClusterConfig>, commands: seq<Command>, seen: seq<nat>, k: nat)
    requires LogOrder(configs, commands, seen) && k <= |commands|
    requires forall j :: 0 <= j < k ==> UpToDate(configs, commands, seen, j)
    ensures ConfigOk(configs[k])
  {
    if k > 0 {
      UpToDateLogIsOk(configs, commands, seen, k - 1);
      assert UpToDate(configs, commands, seen, k - 1);
      ProposalInPlaceIff(configs[seen[k - 1]], commands[k - 1], configs[k - 1]);
      InPlaceMisplacesNobody(configs[k - 1], commands[k - 1]);
      CommandKeepsConfigOkIff(configs[k - 1], commands[k - 1]);
    }
  }

  const CONFIGS := [
    ClusterConfig([1, 2], [], [], 1, false), ClusterConfig([1, 2, 3], [1, 2], [], 2, true),
    ClusterConfig([1, 2, 4], [1, 2], [], 3, true), ClusterConfig([1, 2, 3], [], [], 4, false),
    ClusterConfig([1, 2, 4], [], [], 5, false)]

  const COMMANDS := [Joint([1, 2], [1, 2, 3]), Joint([1, 2], [1, 2, 4]), Finalize([1, 2, 3]), Finalize([1, 2, 4])]

  const SEEN := [0, 0, 1, 2]

  lemma AppliedAt(k: nat)
    requires k < 4
    ensures CONFIGS[k + 1] == Applied(CONFIGS[k], COMMANDS[k])
  {
    FourApplied();
    if k == 0 {
      assert COMMANDS[0] == Joint([1, 2], [1, 2, 3]);
    } else if k == 1 {
      assert COMMANDS[1] == Joint([1, 2], [1, 2, 4]);
    } else if k == 2 {
      assert COMMANDS[2] == Finalize([1, 2, 3]);
    } else {
      assert COMMANDS[3] == Finalize([1, 2, 4]);
    }
  }

  lemma MadeAt(k: nat)
    requires k < 4
    ensures SEEN[k] <= k && MadeFrom(CONFIGS[SEEN[k]], COMMANDS[k])
  {
    FourMade();
    var c, cmd := CONFIGS[SEEN[k]], COMMANDS[k];
    if k == 0 {
      assert c == ClusterConfig([1, 2], [], [], 1, false) && cmd == Joint([1, 2], [1, 2, 3]);
    } else if k == 1 {
      assert c == ClusterConfig([1, 2], [], [], 1, false) && cmd == Joint([1, 2], [1, 2, 4]);
    } else if k == 2 {
      assert c == ClusterConfig([1, 2, 3], [1, 2], [], 2, true) && cmd == Finalize([1, 2, 3]);
    } else {
      assert c == ClusterConfig([1, 2, 4], [1, 2], [], 3, true) && cmd == Finalize([1, 2, 4]);
    }
  }

  /**
   * A leader that holds an unapplied change accepts a second one, and both are finalized behind them:
   * the last two configurations have quorums without a common voter.
   */
  lemma OverlappingChangesPart()
    ensures LogOrder(CONFIGS, COMMANDS, SEEN) && !UpToDate(CONFIGS, COMMANDS, SEEN, 1)
    ensures !Meet(CONFIGS[3], CONFIGS[4])
  {
    forall k | 0 <= k < 4
      ensures CONFIGS[k + 1] == Applied(CONFIGS[k], COMMANDS[k])
      ensures SEEN[k] <= k && MadeFrom(CONFIGS[SEEN[k]], COMMANDS[k])
    {
      AppliedAt(k);
      MadeAt(k);
    }
    Halves(CONFIGS[3], CONFIGS[4]);
  }

  lemma Halves(c: ClusterConfig, d: ClusterConfig)
    requires c.nodes == [1, 2, 3] && d.nodes == [1, 2, 4] && !c.isJoint && !d.isJoint
    ensures !Meet(c, d)
  {
    assert Among({1, 3}, c.nodes) == {1, 3} && Among({2, 4}, d.nodes) == {2, 4};
    assert ElectionQuorum(c, {1, 3}) && ElectionQuorum(d, {2, 4}) && {1, 3} * {2, 4} == {};
  }

  lemma FourMade()
    ensures MadeFrom(ClusterConfig([1, 2], [], [], 1, false), Joint([1, 2], [1, 2, 3]))
    ensures MadeFrom(ClusterConfig([1, 2], [], [], 1, false), Joint([1, 2], [1, 2, 4]))
    ensures MadeFrom(ClusterConfig([1, 2, 3], [1, 2], [], 2, true), Finalize([1, 2, 3]))
    ensures MadeFrom(ClusterConfig([1, 2, 4], [1, 2], [], 3, true), Finalize([1, 2, 4]))
  {
    var c := ClusterConfig([1, 2], [], [], 1, false);
    assert !c.Contains(3) && ProposeAdd(c, 3) == Joint([1, 2], [1, 2, 3]);
    assert !c.Contains(4) && ProposeAdd(c, 4) == Joint([1, 2], [1, 2, 4]);
  }

  lemma FourApplied()
    ensures Applied(ClusterConfig([1, 2], [], [], 1, false), Joint([1, 2], [1, 2, 3]))
         == ClusterConfig([1, 2, 3], [1, 2], [], 2, true)
    ensures Applied(ClusterConfig([1, 2, 3], [1, 2], [], 2, true), Joint([1, 2], [1, 2, 4]))
         == ClusterConfig([1, 2, 4], [1, 2], [], 3, true)
    ensures Applied(ClusterConfig([1, 2, 4], [1, 2], [], 3, true), Finalize([1, 2, 3]))
         == ClusterConfig([1, 2, 3], [], [], 4, false)
    ensures Applied(ClusterConfig([1, 2, 3], [], [], 4, false), Finalize([1, 2, 4]))
         == ClusterConfig([1, 2, 4], [], [], 5, false)
  {
    NoLearners([1, 2, 3]);
    NoLearners([1, 2, 4]);
  }

  lemma {:induction false} NoLearners(ids: seq<NodeId>)
    ensures WithoutAll([], ids) == []
  {
    if ids != [] {
      NoLearners(ids[..|ids| - 1]);
    }
  }

  // ---------- removing a learner ----------

  /** Applying a removal and its finalization removes the member exactly when it was a voter. */
  lemma RemovalTakesEffectIff(c: ClusterConfig, id: NodeId)
    requires ConfigOk(c) && !c.isJoint && c.Contains(id)
    ensures var joint := Applied(c, ProposeRemove(c, id));
            var final := Applied(joint, Finalize(joint.nodes));
            !final.Contains(id) <==> c.IsVoter(id)
  {
  }

  /** A configuration with one learner: removing it has no effect. */
  lemma RemovedLearnerStays() returns (c: ClusterConfig)
    ensures c == ClusterConfig([1], [], [2], 1, false) && ConfigOk(c) && MadeFrom(c, ProposeRemove(c, 2))
    ensures var joint := Applied(c, ProposeRemove(c, 2)); 2 in Applied(joint, Finalize(joint.nodes)).learners
  {
    c := ClusterConfig([1], [], [2], 1, false);
    assert c.Contains(2);
  }

  // ---------- the commit count in joint mode ----------

  predicate Distinct(list: seq<NodeId>) {
    forall i, j :: 0 <= i < j < |list| ==> list[i] != list[j]
  }

  lemma {:induction false} DistinctCount(list: seq<NodeId>)
    requires Distinct(list)
    ensures |Members(list)| == |list|
  {
    if list == [] {
      assert Members(list) == {};
    } else {
      var n := |list| - 1;
      DistinctCount(list[..n]);
      assert list[n] !in list[..n];
      assert Members(list) == Members(list[..n]) + {list[n]};
    }
  }

  lemma {:induction false} WithoutDistinct(list: seq<NodeId>, id: NodeId)
    requires Distinct(list)
    ensures Distinct(Without(list, id)) && (id in list ==> |Without(list, id)| == |list| - 1)
    decreases |list|
  {
    if list != [] {
      var tail := Without(list[1..], id);
      assert list[0] !in list[1..];
      WithoutDistinct(list[1..], id);
      if list[0] != id {
        assert Without(list, id) == [list[0]] + tail && list[0] !in tail;
        assert forall j :: 0 <= j < |tail| ==> tail[j] in tail;
      }
    }
  }

  function Removing(nodes: seq<NodeId>, id: NodeId): ClusterConfig {
    ClusterConfig(Without(nodes, id), nodes, [], 0, true)
  }

  ghost predicate CountsAreJoint(c: ClusterConfig) {
    forall ids :: CommitQuorum(c, ids) ==> ElectionQuorum(c, ids)
  }

  /** Adding a member: the commit count is the joint majority. */
  lemma AddingCountsAreJoint(nodes: seq<NodeId>, id: NodeId)
    ensures CountsAreJoint(ClusterConfig(nodes + [id], nodes, [], 0, true))
  {
    var c := ClusterConfig(nodes + [id], nodes, [], 0, true);
    forall ids | CommitQuorum(c, ids) ensures ElectionQuorum(c, ids) {
      assert Voters(c, ids) == Among(ids, c.nodes);
    }
  }

  /** With an even number of old voters, the old majority already implies the new one. */
  lemma EvenRemovalIsJoint(nodes: seq<NodeId>, id: NodeId, ids: set<NodeId>)
    requires Distinct(nodes) && id in nodes && |nodes| % 2 == 0 && CommitQuorum(Removing(nodes, id), ids)
    ensures ElectionQuorum(Removing(nodes, id), ids)
  {
    var c := Removing(nodes, id);
    WithoutDistinct(nodes, id);
    assert Among(ids, nodes) <= Among(ids, c.nodes) + {id};
    SubsetSize(Among(ids, nodes), Among(ids, c.nodes) + {id});
  }

  /** With an odd number, the leaving member can stand in for a remaining one. */
  lemma OddRemovalIsNot(nodes: seq<NodeId>, id: NodeId) returns (ids: set<NodeId>)
    requires Distinct(nodes) && id in nodes && |nodes| % 2 == 1
    ensures CommitQuorum(Removing(nodes, id), ids) && !ElectionQuorum(Removing(nodes, id), ids)
  {
    var c := Removing(nodes, id);
    WithoutDistinct(nodes, id);
    var some := c.nodes[..|c.nodes| / 2];
    DistinctCount(some);
    ids := StandsIn(c.nodes, nodes, id, some);
    assert Voters(c, ids) == ids;
  }

  lemma StandsIn(remaining: seq<NodeId>, nodes: seq<NodeId>, id: NodeId, some: seq<NodeId>) returns (ids: set<NodeId>)
    requires remaining == Without(nodes, id) && id in nodes && some <= remaining
    ensures ids == Members(some) + {id} && |ids| == |Members(some)| + 1
    ensures Among(ids, remaining) == Members(some) && Among(ids, nodes) == ids
  {
    assert forall v :: v in some ==> v in remaining;
    ids := Members(some) + {id};
    assert id !in Members(some);
    assert Among(ids, remaining) == Members(some);
    assert Among(ids, nodes) == ids;
  }

  /**
   * While a member is being removed, every commit quorum is a majority of both configurations
   * exactly when the old configuration has an even number of voters.
   */
  lemma RemovalCountsAreJointIff(nodes: seq<NodeId>, id: NodeId)
    requires Distinct(nodes) && id in nodes
    ensures CountsAreJoint(Removing(nodes, id)) <==> |nodes| % 2 == 0
  {
    if |nodes| % 2 == 0 {
      forall ids | CommitQuorum(Removing(nodes, id), ids) ensures ElectionQuorum(Removing(nodes, id), ids) {
        EvenRemovalIsJoint(nodes, id, ids);
      }
    } else {
      var ids := OddRemovalIsNot(nodes, id);
    }
  }
}
