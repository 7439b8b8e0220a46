// Links that also duplicate: in a cluster of up to three nodes at most one node
// leads a term all the same, and from four nodes on two can.
module Duplication {
  import opened Types
  import opened Clusters
  import opened Histories
  import opened Ballots

  // An action of a cluster, or a message in flight duplicated.
  datatype Move = Act(action: Action) | Copy(from: NodeId, to: NodeId, k: nat)

  predicate CanMove(c: Cluster, m: Move) {
    match m
    case Act(a) => Enabled(c, a)
    case Copy(from, to, k) => k < |Queue(c.net, from, to)|
  }

  function Moved(c: Cluster, m: Move): Cluster
    requires CanMove(c, m)
  {
    match m
    case Act(a) => Do(c, a)
    case Copy(from, to, k) => c.(net := Push(c.net, from, to, Queue(c.net, from, to)[k]))
  }

  datatype DupRun = DupRun(states: seq<Cluster>, moves: seq<Move>)

  ghost predicate MoveAt(r: DupRun, i: nat) {
    i < |r.moves| && i + 1 < |r.states| ==>
      CanMove(r.states[i], r.moves[i]) && r.states[i + 1] == Moved(r.states[i], r.moves[i])
  }

  // A run from c whose links may duplicate, reorder and lose.
  ghost predicate RunsFrom(c: Cluster, r: DupRun) {
    |r.states| == |r.moves| + 1 && r.states[0] == c && forall i: nat :: MoveAt(r, i)
  }

  predicate LeadsIn(r: DupRun, i: nat, a: NodeId, term: Term) {
    i < |r.states| && a in r.states[i].nodes && r.states[i].nodes[a].role == Leader && r.states[i].nodes[a].term == term
  }

  ghost predicate OneLeaderPerTerm(r: DupRun) {
    forall i: nat, a: NodeId, j: nat, b: NodeId, t: Term :: LeadsIn(r, i, a, t) && LeadsIn(r, j, b, t) ==> a == b
  }

  // --- Up to three nodes ---

  lemma MoveFair(c: Cluster, h: Hist, m: Move) returns (g: Hist)
    requires Fair(c, h, false) && |c.nodes.Keys| <= 3 && CanMove(c, m)
    ensures VotesGrow(h, g) && Fair(Moved(c, m), g, false) && Moved(c, m).nodes.Keys == c.nodes.Keys
  {
    match m
    case Act(a) => g := ActionFair(c, h, false, a);
    case Copy(from, to, k) =>
      g := h;
      assert FlightAt(c, h, from, to, k);
      FairPush(c, h, false, from, to, Queue(c.net, from, to)[k]);
  }

  lemma StartFair(c: Cluster)
    requires Initial(c)
    ensures Fair(c, NO_HISTORY, false)
  {
    forall id: NodeId ensures BallotAt(c.nodes, NO_HISTORY, false, id) {
      assert FreshAt(c, id);
    }
  }

  // Histories along a run, each extending the ones before.
  lemma {:induction false} FairUpTo(c: Cluster, r: DupRun, i: nat) returns (hs: seq<Hist>)
    requires Initial(c) && |c.nodes.Keys| <= 3 && RunsFrom(c, r) && i < |r.states|
    ensures |hs| == i + 1 && r.states[i].nodes.Keys == c.nodes.Keys
    ensures forall j: nat :: j <= i ==> Fair(r.states[j], hs[j], false) && VotesGrow(hs[j], hs[i])
  {
    if i == 0 {
      StartFair(c);
      hs := [NO_HISTORY];
    } else {
      var fs := FairUpTo(c, r, i - 1);
      assert MoveAt(r, i - 1);
      var g := MoveFair(r.states[i - 1], fs[i - 1], r.moves[i - 1]);
      hs := fs + [g];
    }
  }

  lemma SmallClusterLeaders(c: Cluster, r: DupRun, i: nat, a: NodeId, j: nat, b: NodeId, t: Term)
    requires Initial(c) && |c.nodes.Keys| <= 3 && RunsFrom(c, r) && LeadsIn(r, i, a, t) && LeadsIn(r, j, b, t)
    ensures a == b
  {
    var last := if i <= j then j else i;
    var hs := FairUpTo(c, r, last);
    assert Fair(r.states[i], hs[i], false) && Fair(r.states[j], hs[j], false);
    assert BallotAt(r.states[i].nodes, hs[i], false, a) && BallotAt(r.states[j].nodes, hs[j], false, b);
  }
}
