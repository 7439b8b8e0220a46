// Cluster membership and quorum arithmetic.
module Configurations {
  import opened Types

  function QuorumSize(members: seq<NodeId>): nat {
    if |members| == 0 then 0 else |members| / 2 + 1
  }

  predicate HasQuorum(members: seq<NodeId>, count: nat) { count >= QuorumSize(members) }

  // The members other than one, in order.
  function Without(members: seq<NodeId>, node: NodeId): (r: seq<NodeId>)
    ensures forall x :: x in r <==> x in members && x != node
  {
    if members == [] then []
    else
      var init, last := members[..|members| - 1], members[|members| - 1];
      assert members == init + [last];
      Without(init, node) + if last != node then [last] else []
  }

  lemma {:induction false} WithoutDistinct(s: seq<NodeId>, x: NodeId)
    requires Distinct(s)
    ensures Distinct(Without(s, x))
  {
    if s != [] {
      var init := s[..|s| - 1];
      WithoutDistinct(init, x);
      assert s[|s| - 1] !in init;
    }
  }

  function Peers(members: seq<NodeId>, self: NodeId): seq<NodeId> { Without(members, self) }

  // A majority of a set of nodes.
  ghost predicate Quorum(q: set<NodeId>, all: set<NodeId>) { q <= all && 2 * |q| > |all| }

  lemma QuorumsMeet(a: set<NodeId>, b: set<NodeId>, all: set<NodeId>) returns (v: NodeId)
    requires Quorum(a, all) && Quorum(b, all)
    ensures v in a && v in b
  {
    CardinalityMonotone(a + b, all);
    assert |a + b| == |a| + |b| - |a * b|;
    v :| v in a * b;
  }

  lemma {:induction false} CardinalityMonotone(a: set<NodeId>, b: set<NodeId>)
    requires a <= b
    ensures |a| <= |b|
  {
    assert b == a + (b - a);
  }

  lemma {:induction false} DistinctCardinality(s: seq<NodeId>)
    requires Distinct(s)
    ensures |Elements(s)| == |s|
  {
    if s != [] {
      DistinctCardinality(s[1..]);
      assert Elements(s) == {s[0]} + Elements(s[1..]);
    }
  }

  // Counting distinct votes against the source's quorum size finds a majority.
  lemma {:induction false} VotesMakeQuorum(votes: seq<NodeId>, members: seq<NodeId>)
    requires Distinct(votes) && Distinct(members)
    requires Elements(votes) <= Elements(members)
    requires members != [] && HasQuorum(members, |votes|)
    ensures Quorum(Elements(votes), Elements(members))
  {
    DistinctCardinality(votes);
    DistinctCardinality(members);
  }
}
