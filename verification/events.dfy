// Every event of a run is a sequence of moves, so every event keeps the
// invariants. With strong set, the commitment invariant is kept as well, given
// that links are in order and no stale tail is met.
module Events {
  import opened Types
  import opened Configurations
  import opened Storage
  import opened Replication
  import opened Nodes
  import opened Clusters
  import opened Histories
  import opened Steps
  import opened Commitment
  import opened CommitmentLinks

  ghost predicate Holds(c: Cluster, h: Hist, strong: bool) { Inv(c, h) && (strong ==> Strong(c, h)) }

  ghost predicate Evolves(h: Hist, g: Hist, strong: bool) { Grows(h, g) && (strong ==> AcksRise(h, g)) }

  // --- Sending ---

  // Messages that claim nothing about logs.
  predicate Modest(m: Msg) { !m.AppendEntries? && !(m.AppendEntriesResponse? && m.success) }

  lemma ModestJoins(c: Cluster, h: Hist, from: NodeId, to: NodeId, m: Msg)
    requires Modest(m)
    ensures Joins(c, h, from, to, m)
  {
  }

  lemma PostOne(net: Net, id: NodeId, e: Envelope)
    ensures Post(net, id, [e]) == Push(net, id, e.to, e.msg)
  {
    assert [e][..0] == [];
  }

  lemma SendOne(c: Cluster, h: Hist, strong: bool, id: NodeId, to: NodeId, m: Msg)
    requires Holds(c, h, strong) && id in c.nodes && to in c.nodes && id != to
    requires MsgOk(h, id, to, m) && TokenFree(c.nodes, c.net, id, to, m)
    requires strong ==> Joins(c, h, id, to, m)
    ensures Holds(c.(net := Post(c.net, id, [Envelope(to, m)])), h, strong)
  {
    PostOne(c.net, id, Envelope(to, m));
    PushKeeps(c, h, id, to, m);
    if strong {
      StrongPush(c, h, id, to, m);
    }
  }

  lemma {:induction false} SendAll(c: Cluster, h: Hist, strong: bool, id: NodeId, to: seq<NodeId>, m: Msg)
    requires Holds(c, h, strong) && id in c.nodes && Voteless(m) && Modest(m)
    requires forall v :: v in to ==> v in c.nodes && v != id && MsgOk(h, id, v, m)
    ensures Holds(c.(net := Post(c.net, id, Broadcast(to, m))), h, strong)
  {
    if to != [] {
      var init, last := to[..|to| - 1], to[|to| - 1];
      SendAll(c, h, strong, id, init, m);
      var d := c.(net := Post(c.net, id, Broadcast(init, m)));
      assert last in to;
      ModestJoins(d, h, id, last, m);
      SendOne(d, h, strong, id, last, m);
      PostConcat(c.net, id, Broadcast(init, m), [Envelope(last, m)]);
    }
  }

  lemma {:induction false} RequestsStrong(c: Cluster, h: Hist, id: NodeId, to: seq<NodeId>, m: Msg)
    requires Strong(c, h) && m.RequestVote?
    ensures Strong(c.(net := Post(c.net, id, Broadcast(to, m))), h)
  {
    if to != [] {
      var init, last := to[..|to| - 1], to[|to| - 1];
      RequestsStrong(c, h, id, init, m);
      var d := c.(net := Post(c.net, id, Broadcast(init, m)));
      ModestJoins(d, h, id, last, m);
      StrongPush(d, h, id, last, m);
      PostConcat(c.net, id, Broadcast(init, m), [Envelope(last, m)]);
      PostOne(d.net, id, Envelope(last, m));
    }
  }

  // What a leader sends a follower is a slice of its log up to its end, or
  // points past it and carries nothing.
  lemma AppendEntriesShape(r: Repl, store: Store, id: NodeId, peer: NodeId)
    requires store.firstIndex == 1 && store.snapshot.None?
    requires peer in r.nextIndex ==> r.nextIndex[peer] >= 1
    ensures var m := GetAppendEntriesForPeer(r, peer, id, store);
            m.AppendEntries? && m.term == store.currentTerm && m.leaderCommit == r.commitIndex &&
            if m.prevLogIndex > |store.log| then m.entries == [] && m.prevLogTerm == 0
            else
              End(m) == |store.log| && m.entries == store.log[m.prevLogIndex..] &&
              m.prevLogTerm == TermAt(store.log, m.prevLogIndex)
  {
  }

  lemma AppendEntriesOk(c: Cluster, h: Hist, strong: bool, id: NodeId, peer: NodeId)
    requires Holds(c, h, strong) && id in c.nodes && c.nodes[id].role == Leader
    ensures var m := GetAppendEntriesForPeer(c.nodes[id].repl, peer, id, c.nodes[id].store);
            MsgOk(h, id, peer, m) && Voteless(m) && (strong ==> Joins(c, h, id, peer, m))
  {
    var n := c.nodes[id];
    var m := GetAppendEntriesForPeer(n.repl, peer, id, n.store);
    assert PlainAt(c.nodes, id) && LeadsAt(c.nodes, h, id) && LeaderOk(h, n.term, c.nodes.Keys);
    AppendEntriesShape(n.repl, n.store, id, peer);
    if strong {
      AppendEntriesJoins(c, h, id, peer, m);
    }
  }

  lemma AppendEntriesJoins(c: Cluster, h: Hist, id: NodeId, peer: NodeId, m: Msg)
    requires Inv(c, h) && Strong(c, h) && id in c.nodes && c.nodes[id].role == Leader
    requires MsgOk(h, id, peer, m) && m.AppendEntries? && m.term == c.nodes[id].term
    requires m.leaderCommit == c.nodes[id].repl.commitIndex
    requires !Overshoots(m) ==> End(m) == |c.nodes[id].store.log|
    ensures Joins(c, h, id, peer, m)
  {
    var n := c.nodes[id];
    assert LeadsAt(c.nodes, h, id) && NodeOk(c.nodes, h, id) && AckOk(c.nodes, h, At(n.term, peer));
    var q := Queue(c.net, id, peer);
    forall i: nat | i < |q| ensures InSequence(q[i], m) {
      assert FlightOk(c.net, h, c.nodes.Keys, id, peer, i);
    }
    if n.repl.commitIndex > 0 {
      var t: Term, i: nat :| CommitBy(h, c.nodes.Keys, n, n.repl.commitIndex, t, i);
    }
  }

  lemma {:induction false} SendAppends(c: Cluster, h: Hist, strong: bool, id: NodeId, to: seq<NodeId>)
    requires Holds(c, h, strong) && id in c.nodes && c.nodes[id].role == Leader && c.nodes[id].id == id
    requires forall v :: v in to ==> v in c.nodes && v != id
    ensures Holds(c.(net := Post(c.net, id, AppendEntriesTo(c.nodes[id], to))), h, strong)
  {
    if to != [] {
      var init, last := to[..|to| - 1], to[|to| - 1];
      SendAppends(c, h, strong, id, init);
      var n := c.nodes[id];
      var sent := AppendEntriesTo(n, init);
      var d := c.(net := Post(c.net, id, sent));
      var m := GetAppendEntriesForPeer(n.repl, last, id, n.store);
      assert last in to;
      AppendEntriesOk(d, h, strong, id, last);
      SendOne(d, h, strong, id, last, m);
      PostConcat(c.net, id, sent, [Envelope(last, m)]);
    }
  }

  lemma SendToFollowers(c: Cluster, h: Hist, strong: bool, id: NodeId)
    requires Holds(c, h, strong) && id in c.nodes && c.nodes[id].role == Leader
    ensures Holds(c.(net := Post(c.net, id, SendAppendEntriesToFollowers(c.nodes[id]))), h, strong)
  {
    assert PlainAt(c.nodes, id);
    SendAppends(c, h, strong, id, Peers(c.nodes[id].config.members, id));
  }
}
