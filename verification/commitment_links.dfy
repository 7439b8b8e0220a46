// Followers' writes, commit advances and messages keep the commitment invariant.
module CommitmentLinks {
  import opened Types
  import opened StateMachines
  import opened Configurations
  import opened Medians
  import opened Nodes
  import opened Clusters
  import opened Histories
  import opened Moves
  import opened Commitment
  import opened CommitmentMoves

  // Follower id, now m, has accepted a message of its term's leader: its whole
  // log is a prefix of that leader's, it lost nothing it had acknowledged, and
  // later messages on the link do not end earlier.
  ghost predicate Writes(c: Cluster, h: Hist, d: Cluster, g: Hist, id: NodeId, m: Node) {
    && Inv(c, h) && Strong(c, h) && id in c.nodes
    && (var n := c.nodes[id];
        && m.id == id && m.term == n.term && m.role == Follower && m.sm == n.sm
        && m.repl == n.repl
        && m.term in h.leader && h.leader[m.term] != id && m.term in h.leaderLog
        && At(m.term, h.leader[m.term]) in h.campaign
        && Agree(m.store.log, h.leaderLog[m.term], |m.store.log|)
        && (m.store.log == n.store.log || |h.campaign[At(m.term, h.leader[m.term])]| <= |m.store.log|)
        && (At(m.term, id) in h.acked ==> h.acked[At(m.term, id)] <= |m.store.log|))
    && (forall f: NodeId, k: nat :: AheadAt(c.net, g, f, id, k))
    && d == Put(c, id, m) && g == RecordAck(h, m.term, id, |m.store.log|)
  }

  lemma WriteGrows(c: Cluster, h: Hist, d: Cluster, g: Hist, id: NodeId, m: Node)
    requires Writes(c, h, d, g, id, m)
    ensures OnlyBy(h, g, id, m.term) && Later(c.nodes, h, d.nodes, g)
  {
    AckGrows(c.nodes, h, m.term, id, |m.store.log|);
    PutLater(c, h, d, g, id, m);
  }

  lemma WriteAcks(c: Cluster, h: Hist, d: Cluster, g: Hist, id: NodeId, m: Node)
    requires Writes(c, h, d, g, id, m)
    ensures forall t: Term :: AckOk(d.nodes, g, At(t, id))
    ensures LeaderAcks(g, m.term)
  {
    forall t: Term ensures AckOk(d.nodes, g, At(t, id)) {
      assert AckOk(c.nodes, h, At(t, id));
    }
    assert LeaderAcks(h, m.term);
  }

  // What the follower held of earlier leaders' durable entries it still holds.
  lemma WriteKeeps(c: Cluster, h: Hist, d: Cluster, g: Hist, id: NodeId, m: Node, t: Term, n: nat)
    requires Writes(c, h, d, g, id, m)
    requires t <= m.term && Own(h, t, n) && Safe(c.nodes, h, c.nodes[id].store.log, t, n)
    requires t == m.term ==> Acked(h, id, t, n)
    ensures Safe(c.nodes, h, m.store.log, t, n)
  {
    if t < m.term && m.store.log != c.nodes[id].store.log {
      assert Complete(c.nodes, h, m.term, t, n) && LeaderOk(h, m.term, c.nodes.Keys);
    }
  }

  lemma WriteEntriesSafe(c: Cluster, h: Hist, d: Cluster, g: Hist, id: NodeId, m: Node)
    requires Writes(c, h, d, g, id, m)
    ensures forall t: Term, n: nat :: Kept(d.nodes, g, At(t, id), n)
    ensures forall u: Term, t: Term, n: nat :: Fresh(h, u, t, n) ==> Complete(d.nodes, g, u, t, n)
  {
    WriteGrows(c, h, d, g, id, m);
    forall t: Term, i: nat ensures Kept(d.nodes, g, At(t, id), i) {
      if At(t, id) in g.acked && i <= g.acked[At(t, id)] && Own(g, t, i) && t != m.term {
        assert Kept(c.nodes, h, At(t, id), i) && AckOk(c.nodes, h, At(t, id));
        WriteKeeps(c, h, d, g, id, m, t, i);
        SafeLater(c.nodes, h, d.nodes, g, m.store.log, t, i);
      }
    }
  }

  lemma WriteCommits(c: Cluster, h: Hist, d: Cluster, g: Hist, id: NodeId, m: Node)
    requires Writes(c, h, d, g, id, m)
    ensures CommitOk(h, c.nodes.Keys, m)
  {
    var n := c.nodes[id];
    var k := n.repl.commitIndex;
    assert NodeOk(c.nodes, h, id) && PlainAt(c.nodes, id);
    if k > 0 {
      var t: Term, i: nat :| CommitBy(h, c.nodes.Keys, n, k, t, i);
      DurableNotPrevented(c.nodes, h, t, i);
      assert LeaderOk(h, m.term, c.nodes.Keys);
      if t < m.term {
        assert Complete(c.nodes, h, m.term, t, i);
      }
      assert Agree(m.store.log, n.store.log, k);
      assert CommitBy(h, c.nodes.Keys, m, k, t, i);
    }
    assert m.store.log[..k] == n.store.log[..k];
  }

  lemma StrongWrite(c: Cluster, h: Hist, d: Cluster, g: Hist, id: NodeId, m: Node)
    requires Writes(c, h, d, g, id, m)
    ensures Strong(d, g)
  {
    WriteGrows(c, h, d, g, id, m);
    WriteAcks(c, h, d, g, id, m);
    WriteEntriesSafe(c, h, d, g, id, m);
    WriteCommits(c, h, d, g, id, m);
    CommitGrows(c.nodes, h, g, m);
    StrongUpdate(c, h, d, g, id, m);
  }

  // A node applies everything up to a newly backed commit index.
  lemma StrongCommit(c: Cluster, h: Hist, id: NodeId, m: Node, k: nat, t: Term, i: nat)
    requires Inv(c, h) && Strong(c, h) && id in c.nodes
    requires k <= |c.nodes[id].store.log|
    requires var n := c.nodes[id];
             m == n.(repl := m.repl, sm := Fold(n.store.log[..k])) &&
             m.repl.commitIndex == k && m.repl.lastApplied == k && m.repl.matchIndex == n.repl.matchIndex
    requires CommitBy(h, c.nodes.Keys, c.nodes[id], k, t, i)
    ensures Strong(Put(c, id, m), h)
  {
    var n := c.nodes[id];
    assert NodeOk(c.nodes, h, id) && PlainAt(c.nodes, id);
    assert CommitBy(h, c.nodes.Keys, m, k, t, i);
    MatchCarries(h, h, n, m);
    StrongQuiet(c, h, id, m);
  }

  // --- The leader's count is a quorum ---

  lemma CountIsQuorum(c: Cluster, h: Hist, id: NodeId)
    requires Inv(c, h) && Strong(c, h) && id in c.nodes && c.nodes[id].role == Leader
    requires var n := c.nodes[id];
             var k := ComputeMedian(n.repl.matchIndex, n.store.LastLogIndex(), n.config.members, map[], id);
             0 < k <= |n.store.log| && n.store.log[k - 1].term == n.term
    ensures var n := c.nodes[id];
            var k := ComputeMedian(n.repl.matchIndex, n.store.LastLogIndex(), n.config.members, map[], id);
            CommitBy(h, c.nodes.Keys, n, k, n.term, k)
  {
    var n := c.nodes[id];
    var members, last := n.config.members, n.store.LastLogIndex();
    assert PlainAt(c.nodes, id) && LeadsAt(c.nodes, h, id) && NodeOk(c.nodes, h, id) && LeaderAcks(h, n.term);
    var k := ComputeMedian(n.repl.matchIndex, last, members, map[], id);
    MedianIsQuorumPoint(k, n.repl.matchIndex, last, members, map[], id);
    var q := VotersAt(k, n.repl.matchIndex, last, members, map[], id);
    AllVote(members, id);
    assert Quorum(q, c.nodes.Keys);
    forall v | v in q ensures Acked(h, v, n.term, k) {
    }
    assert AckedBy(h, c.nodes.Keys, q, n.term, k);
  }

  lemma AllVote(members: seq<NodeId>, id: NodeId)
    ensures Voters(members, map[], id) == Elements(members)
  {
  }

  // --- Messages ---

  lemma StrongPull(c: Cluster, h: Hist, from: NodeId, to: NodeId, k: nat)
    requires Strong(c, h) && k < |Queue(c.net, from, to)|
    ensures Strong(c.(net := Pull(c.net, from, to, k)), h)
  {
    var net := Pull(c.net, from, to, k);
    forall f: NodeId, t: NodeId, j: nat ensures ClaimAt(net, h, c.nodes.Keys, f, t, j) && AheadAt(net, h, f, t, j) {
      var i := if f == from && t == to && j >= k then j + 1 else j;
      assert ClaimAt(c.net, h, c.nodes.Keys, f, t, i) && AheadAt(c.net, h, f, t, i);
    }
    forall f: NodeId, t: NodeId, i: nat, j: nat ensures OrderAt(net, f, t, i, j) {
      var here := f == from && t == to;
      assert OrderAt(c.net, f, t, if here && i >= k then i + 1 else i, if here && j >= k then j + 1 else j);
    }
  }

  // A message may join a link when what it claims is true and nothing already
  // there, or acknowledged, reaches past it.
  ghost predicate Joins(c: Cluster, h: Hist, from: NodeId, to: NodeId, m: Msg) {
    && ClaimOk(h, c.nodes.Keys, from, m)
    && Ahead(h, to, m)
    && forall i :: 0 <= i < |Queue(c.net, from, to)| ==> InSequence(Queue(c.net, from, to)[i], m)
  }

  lemma StrongPush(c: Cluster, h: Hist, from: NodeId, to: NodeId, m: Msg)
    requires Strong(c, h) && Joins(c, h, from, to, m)
    ensures Strong(c.(net := Push(c.net, from, to, m)), h)
  {
    var net := Push(c.net, from, to, m);
    forall f: NodeId, t: NodeId, j: nat ensures ClaimAt(net, h, c.nodes.Keys, f, t, j) && AheadAt(net, h, f, t, j) {
      assert ClaimAt(c.net, h, c.nodes.Keys, f, t, j) && AheadAt(c.net, h, f, t, j);
    }
    forall f: NodeId, t: NodeId, i: nat, j: nat ensures OrderAt(net, f, t, i, j) {
      assert OrderAt(c.net, f, t, i, j);
    }
  }
}
