/** Cluster configurations, election and commit quorums, and how they overlap. */
module Quorums {

  import opened RaftTypes

  datatype ClusterConfig = ClusterConfig(nodes: seq<NodeId>, oldNodes: seq<NodeId>, learners: seq<NodeId>,
                                         version: nat, isJoint: bool)
  {
    predicate IsVoter(id: NodeId) {
      id in nodes || (isJoint && id in oldNodes)
    }

    predicate Contains(id: NodeId) {
      IsVoter(id) || id in learners
    }

    predicate JointMajoritySatisfied(oldCount: nat, newCount: nat) {
      && (isJoint ==> oldCount >= Majority(oldNodes))
      && newCount >= Majority(nodes)
    }
  }

  function Majority(list: seq<NodeId>): nat {
    |list| / 2 + 1
  }

  /** The members of `ids` that occur in `list`. */
  function Among(ids: set<NodeId>, list: seq<NodeId>): set<NodeId> {
    set v | v in ids && v in list
  }

  function Voters(config: ClusterConfig, ids: set<NodeId>): set<NodeId> {
    set v | v in ids && config.IsVoter(v)
  }

  /** A majority of the new list and, in joint mode, also of the old one. */
  predicate ElectionQuorum(config: ClusterConfig, ids: set<NodeId>) {
    config.JointMajoritySatisfied(|Among(ids, config.oldNodes)|, |Among(ids, config.nodes)|)
  }

  /** What `TryCommitLocked` demands: its new count takes every voter of either list. */
  predicate CommitQuorum(config: ClusterConfig, ids: set<NodeId>) {
    config.JointMajoritySatisfied(|Among(ids, config.oldNodes)|, |Voters(config, ids)|)
  }

  method QuorumSatisfied(config: ClusterConfig, voters: set<NodeId>) returns (ok: bool)
    ensures ok == ElectionQuorum(config, voters)
  {
    var newCount, oldCount := 0, 0;
    var rest := voters;
    ghost var seen: set<NodeId> := {};
    while rest != {}
      invariant seen + rest == voters && seen !! rest
      invariant newCount == |Among(seen, config.nodes)|
      invariant oldCount == |Among(seen, config.oldNodes)|
      decreases |rest|
    {
      var voter :| voter in rest;
      if voter in config.nodes {
        newCount := newCount + 1;
      }
      if voter in config.oldNodes {
        oldCount := oldCount + 1;
      }
      AmongAdd(seen, voter, config.nodes);
      AmongAdd(seen, voter, config.oldNodes);
      seen, rest := seen + {voter}, rest - {voter};
    }
    assert seen == voters;
    ok := config.JointMajoritySatisfied(oldCount, newCount);
  }

  lemma AmongAdd(ids: set<NodeId>, v: NodeId, list: seq<NodeId>)
    requires v !in ids
    ensures |Among(ids + {v}, list)| == |Among(ids, list)| + if v in list then 1 else 0
  {
    if v in list {
      assert Among(ids + {v}, list) == Among(ids, list) + {v};
    } else {
      assert Among(ids + {v}, list) == Among(ids, list);
    }
  }

  lemma {:induction false} ListedAtMostLength(s: set<NodeId>, list: seq<NodeId>)
    requires forall v :: v in s ==> v in list
    ensures |s| <= |list|
    decreases |list|
  {
    if list == [] {
      assert s == {};
    } else {
      var tail := s - {list[0]};
      ListedAtMostLength(tail, list[1..]);
      assert s <= tail + {list[0]};
      SubsetSize(s, tail + {list[0]});
    }
  }

  lemma {:induction false} SubsetSize<T>(s: set<T>, t: set<T>)
    requires s <= t
    ensures |s| <= |t|
  {
    assert t == s + (t - s);
  }

  /** Two majorities of one list share a member, also when the list repeats ids. */
  lemma MajoritiesMeet(a: set<NodeId>, b: set<NodeId>, list: seq<NodeId>)
    requires |Among(a, list)| >= Majority(list) && |Among(b, list)| >= Majority(list)
    ensures exists v :: v in a && v in b && v in list
  {
    var x, y := Among(a, list), Among(b, list);
    ListedAtMostLength(x + y, list);
    assert |x + y| == |x| + |y| - |x * y|;
    assert x * y != {};
    var v :| v in x * y;
  }

  lemma ElectionQuorumsMeet(config: ClusterConfig, a: set<NodeId>, b: set<NodeId>)
    requires ElectionQuorum(config, a) && ElectionQuorum(config, b)
    ensures exists v :: v in a && v in b && config.IsVoter(v)
  {
    MajoritiesMeet(a, b, config.nodes);
  }

  /** Even with the generous new count, every commit quorum meets every election quorum. */
  lemma CommitMeetsElection(config: ClusterConfig, commit: set<NodeId>, elect: set<NodeId>)
    requires CommitQuorum(config, commit) && ElectionQuorum(config, elect)
    ensures exists v :: v in commit && v in elect && config.IsVoter(v)
  {
    if config.isJoint {
      MajoritiesMeet(commit, elect, config.oldNodes);
    } else {
      assert Voters(config, commit) == Among(commit, config.nodes);
      MajoritiesMeet(commit, elect, config.nodes);
    }
  }
}
