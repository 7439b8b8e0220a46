// Why a committed entry survives every later election. An entry of some
// leader's own term is either present wherever it must be, or a majority has
// moved past that term without acknowledging it, so it never commits.
module Commitment {
  import opened Types
  import opened StateMachines
  import opened Configurations
  import opened Nodes
  import opened Clusters
  import opened Histories

  // Entry N of the leader of term t, appended in term t itself.
  ghost predicate Own(h: Hist, t: Term, n: nat) {
    t in h.leader && t in h.leaderLog && 1 <= n <= |h.leaderLog[t]| && h.leaderLog[t][n - 1].term == t
  }

  ghost predicate Has(h: Hist, log: Log, t: Term, n: nat) {
    t in h.leaderLog && Agree(log, h.leaderLog[t], n)
  }

  ghost predicate Acked(h: Hist, v: NodeId, t: Term, n: nat) {
    At(t, v) in h.acked && h.acked[At(t, v)] >= n
  }

  // This node will never acknowledge entry n of term t.
  ghost predicate Blocked(nodes: map<NodeId, Node>, h: Hist, v: NodeId, t: Term, n: nat) {
    v in nodes && nodes[v].term > t && !Acked(h, v, t, n)
  }

  ghost predicate BlockedBy(nodes: map<NodeId, Node>, h: Hist, q: set<NodeId>, t: Term, n: nat) {
    Quorum(q, nodes.Keys) && forall v :: v in q ==> Blocked(nodes, h, v, t, n)
  }

  ghost predicate Prevented(nodes: map<NodeId, Node>, h: Hist, t: Term, n: nat) {
    exists q :: BlockedBy(nodes, h, q, t, n)
  }

  ghost predicate Safe(nodes: map<NodeId, Node>, h: Hist, log: Log, t: Term, n: nat) {
    Has(h, log, t, n) || Prevented(nodes, h, t, n)
  }

  ghost predicate AckedBy(h: Hist, all: set<NodeId>, q: set<NodeId>, t: Term, n: nat) {
    Quorum(q, all) && forall v :: v in q ==> Acked(h, v, t, n)
  }

  // A majority holds the leader's entry n of its own term.
  ghost predicate Durable(h: Hist, all: set<NodeId>, t: Term, n: nat) {
    Own(h, t, n) && exists q :: AckedBy(h, all, q, t, n)
  }

  // Entries 1..k of a log are covered by a durable entry.
  ghost predicate BackedBy(h: Hist, all: set<NodeId>, log: Log, k: nat, t: Term, n: nat) {
    Durable(h, all, t, n) && k <= n && Agree(log, h.leaderLog[t], k)
  }

  // --- The parts of the invariant ---

  ghost predicate AckOk(nodes: map<NodeId, Node>, h: Hist, a: At) {
    a in h.acked ==>
      && a.node in nodes && a.term in h.leader && a.term in h.leaderLog
      && a.term <= nodes[a.node].term && h.acked[a] <= |h.leaderLog[a.term]|
      && (nodes[a.node].term == a.term ==>
            |nodes[a.node].store.log| == h.acked[a] && Has(h, nodes[a.node].store.log, a.term, h.acked[a]))
  }

  ghost predicate LeaderAcks(h: Hist, t: Term) {
    t in h.leader ==>
      t in h.leaderLog && At(t, h.leader[t]) in h.acked && h.acked[At(t, h.leader[t])] == |h.leaderLog[t]|
  }

  ghost predicate Kept(nodes: map<NodeId, Node>, h: Hist, a: At, n: nat) {
    a in h.acked && n <= h.acked[a] && Own(h, a.term, n) && a.node in nodes ==>
      Safe(nodes, h, nodes[a.node].store.log, a.term, n)
  }

  ghost predicate Complete(nodes: map<NodeId, Node>, h: Hist, u: Term, t: Term, n: nat) {
    u in h.leader && At(u, h.leader[u]) in h.campaign && t < u && Own(h, t, n) ==>
      Safe(nodes, h, h.campaign[At(u, h.leader[u])], t, n)
  }

  ghost predicate VotedSafe(nodes: map<NodeId, Node>, h: Hist, a: At, t: Term, n: nat) {
    a in h.voted && At(a.term, h.voted[a]) in h.campaign && t < a.term && Acked(h, a.node, t, n) && Own(h, t, n) ==>
      Safe(nodes, h, h.campaign[At(a.term, h.voted[a])], t, n)
  }

  ghost predicate MatchOk(h: Hist, n: Node) {
    n.role == Leader ==>
      forall v :: v in n.repl.matchIndex && v != n.id && n.repl.matchIndex[v] > 0 ==>
        Acked(h, v, n.term, n.repl.matchIndex[v])
  }

  ghost predicate CommitBy(h: Hist, all: set<NodeId>, m: Node, k: nat, t: Term, n: nat) {
    BackedBy(h, all, m.store.log, k, t, n) && t <= m.term && (t == m.term ==> Acked(h, m.id, t, k))
  }

  ghost predicate CommitOk(h: Hist, all: set<NodeId>, n: Node) {
    var k := n.repl.commitIndex;
    && n.repl.lastApplied == k
    && k <= |n.store.log|
    && n.sm == Fold(n.store.log[..k])
    && (k > 0 ==> exists t: Term, i: nat :: CommitBy(h, all, n, k, t, i))
  }

  ghost predicate NodeOk(nodes: map<NodeId, Node>, h: Hist, id: NodeId) {
    id in nodes ==> MatchOk(h, nodes[id]) && CommitOk(h, nodes.Keys, nodes[id])
  }

  ghost predicate ClaimOk(h: Hist, all: set<NodeId>, from: NodeId, m: Msg) {
    && (m.AppendEntriesResponse? && m.success ==> Acked(h, from, m.term, m.matchIndex))
    && (m.AppendEntries? && !Overshoots(m) && m.leaderCommit > 0 ==>
          m.term in h.leaderLog &&
          exists t: Term, n: nat :: t <= m.term && BackedBy(h, all, h.leaderLog[m.term], m.leaderCommit, t, n))
  }

  ghost predicate ClaimAt(net: Net, h: Hist, all: set<NodeId>, f: NodeId, t: NodeId, k: nat) {
    k < |Queue(net, f, t)| ==> ClaimOk(h, all, f, Queue(net, f, t)[k])
  }

  // A message that carries entries never ends before one sent earlier, nor
  // before what the follower has already acknowledged.
  ghost predicate InSequence(a: Msg, b: Msg) {
    a.AppendEntries? && b.AppendEntries? && a.term == b.term && !Overshoots(a) && b.entries != [] ==> End(a) <= End(b)
  }

  ghost predicate OrderAt(net: Net, f: NodeId, t: NodeId, i: nat, j: nat) {
    var q := Queue(net, f, t);
    i < j < |q| ==> InSequence(q[i], q[j])
  }

  ghost predicate Ahead(h: Hist, to: NodeId, m: Msg) {
    m.AppendEntries? && m.entries != [] && At(m.term, to) in h.acked ==> h.acked[At(m.term, to)] <= End(m)
  }

  ghost predicate AheadAt(net: Net, h: Hist, f: NodeId, t: NodeId, k: nat) {
    k < |Queue(net, f, t)| ==> Ahead(h, t, Queue(net, f, t)[k])
  }

  ghost predicate AcksOk(nodes: map<NodeId, Node>, h: Hist) {
    && (forall a: At :: AckOk(nodes, h, a))
    && (forall t: Term :: LeaderAcks(h, t))
  }

  ghost predicate EntriesSafe(nodes: map<NodeId, Node>, h: Hist) {
    && (forall a: At, n: nat :: Kept(nodes, h, a, n))
    && (forall u: Term, t: Term, n: nat :: Complete(nodes, h, u, t, n))
    && (forall a: At, t: Term, n: nat :: VotedSafe(nodes, h, a, t, n))
  }

  ghost predicate ClaimsOk(net: Net, h: Hist, all: set<NodeId>) {
    && (forall f: NodeId, t: NodeId, k: nat :: ClaimAt(net, h, all, f, t, k))
    && (forall f: NodeId, t: NodeId, i: nat, j: nat :: OrderAt(net, f, t, i, j))
    && (forall f: NodeId, t: NodeId, k: nat :: AheadAt(net, h, f, t, k))
  }

  ghost predicate NodesOk(nodes: map<NodeId, Node>, h: Hist) { forall id: NodeId :: NodeOk(nodes, h, id) }

  // What holds besides Inv when links are in order and no stale tail is met.
  ghost predicate Strong(c: Cluster, h: Hist) {
    && AcksOk(c.nodes, h)
    && EntriesSafe(c.nodes, h)
    && NodesOk(c.nodes, h)
    && ClaimsOk(c.net, h, c.nodes.Keys)
  }

  // --- Growth ---

  ghost predicate AcksRise(h: Hist, g: Hist) {
    forall a :: a in h.acked ==> a in g.acked && g.acked[a] >= h.acked[a]
  }

  ghost predicate AcksGrow(nodes: map<NodeId, Node>, h: Hist, g: Hist) {
    && AcksRise(h, g)
    && (forall a :: a in g.acked && !(a in h.acked && g.acked[a] == h.acked[a]) ==>
          a.node in nodes && a.term >= nodes[a.node].term)
  }

  ghost predicate Later(nodes: map<NodeId, Node>, h: Hist, nodes': map<NodeId, Node>, g: Hist) {
    && nodes'.Keys == nodes.Keys
    && (forall id :: id in nodes ==> nodes'[id].term >= nodes[id].term)
    && Grows(h, g) && AcksGrow(nodes, h, g)
  }

  lemma SafeLater(nodes: map<NodeId, Node>, h: Hist, nodes': map<NodeId, Node>, g: Hist, log: Log, t: Term, n: nat)
    requires Later(nodes, h, nodes', g) && Safe(nodes, h, log, t, n)
    ensures Safe(nodes', g, log, t, n)
  {
    if !Has(h, log, t, n) {
      var q :| BlockedBy(nodes, h, q, t, n);
      forall v | v in q ensures Blocked(nodes', g, v, t, n) {
        assert Blocked(nodes, h, v, t, n);
      }
      assert BlockedBy(nodes', g, q, t, n);
    }
  }

  lemma DurableLater(all: set<NodeId>, h: Hist, g: Hist, t: Term, n: nat)
    requires Grows(h, g) && AcksRise(h, g) && Durable(h, all, t, n)
    ensures Durable(g, all, t, n)
  {
    var q :| AckedBy(h, all, q, t, n);
    assert AckedBy(g, all, q, t, n) by {
      forall v | v in q ensures Acked(g, v, t, n) {
        assert Acked(h, v, t, n);
      }
    }
  }

  lemma BackedLater(all: set<NodeId>, h: Hist, g: Hist, log: Log, k: nat, t: Term, n: nat)
    requires Grows(h, g) && AcksRise(h, g) && BackedBy(h, all, log, k, t, n)
    ensures BackedBy(g, all, log, k, t, n)
  {
    DurableLater(all, h, g, t, n);
  }

  // A durable entry is never prevented.
  lemma DurableNotPrevented(nodes: map<NodeId, Node>, h: Hist, t: Term, n: nat)
    requires Durable(h, nodes.Keys, t, n)
    ensures !Prevented(nodes, h, t, n)
  {
    if Prevented(nodes, h, t, n) {
      var q :| AckedBy(h, nodes.Keys, q, t, n);
      var q' :| BlockedBy(nodes, h, q', t, n);
      var v := QuorumsMeet(q, q', nodes.Keys);
      assert false;
    }
  }
}
