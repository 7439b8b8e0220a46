// The safety guarantees over whole runs: any number of nodes, any interleaving
// of deliveries, losses, timeouts, client commands and crash-restarts.
module RaftSafety {
  import opened Types
  import opened StateMachines
  import opened Nodes
  import opened Clusters
  import opened Histories
  import opened Steps
  import opened Moves
  import opened Commitment
  import opened CommitmentLinks
  import opened Events
  import opened ReplicationEvents
  import opened RunInvariants

  lemma NextNodes(r: Run, i: nat)
    requires IsRun(r) && i < |r.actions|
    ensures r.states[i + 1].nodes.Keys == r.states[i].nodes.Keys
  {
    assert StepAt(r, i);
  }

  lemma {:induction false} SameNodes(r: Run, i: nat)
    requires IsRun(r) && i < |r.states|
    ensures r.states[i].nodes.Keys == r.states[0].nodes.Keys
  {
    if i > 0 {
      SameNodes(r, i - 1);
      NextNodes(r, i - 1);
    }
  }

  // Histories for two moments of a run, and for the later of them.
  lemma Moments(r: Run, i: nat, j: nat, strong: bool) returns (h: Hist, g: Hist, last: Hist)
    requires IsRun(r) && Uncompacted(r) && (strong ==> Orderly(r)) && i < |r.states| && j < |r.states|
    ensures Holds(r.states[i], h, strong) && Holds(r.states[j], g, strong) && Holds(r.states[Max(i, j)], last, strong)
    ensures Evolves(h, last, strong) && Evolves(g, last, strong)
    ensures last == if i <= j then g else h
    ensures r.states[i].nodes.Keys == r.states[Max(i, j)].nodes.Keys == r.states[j].nodes.Keys
  {
    var hs := RunHolds(r, strong);
    h, g, last := hs[i], hs[j], hs[Max(i, j)];
    SameNodes(r, i);
    SameNodes(r, j);
  }

  // --- Whatever links do: reordering and loss, no hypothesis on stale tails ---

  // Two logs that hold an entry of the same term at the same index, at any two
  // moments of the run, are identical up to there.
  lemma LogMatching(r: Run, i: nat, a: NodeId, j: nat, b: NodeId, k: nat)
    requires IsRun(r) && Uncompacted(r) && Present(r, i, a) && Present(r, j, b)
    requires k < |NodeIn(r, i, a).store.log| && k < |NodeIn(r, j, b).store.log|
    requires NodeIn(r, i, a).store.log[k].term == NodeIn(r, j, b).store.log[k].term
    ensures NodeIn(r, i, a).store.log[..k + 1] == NodeIn(r, j, b).store.log[..k + 1]
  {
    var h, g, last := Moments(r, i, j, false);
    assert LeadsAt(r.states[i].nodes, h, a) && LeadsAt(r.states[j].nodes, g, b);
    MatchedPrefixes(h, g, last, NodeIn(r, i, a).store.log, NodeIn(r, j, b).store.log, k);
  }

  lemma MatchedPrefixes(h: Hist, g: Hist, last: Hist, la: Log, lb: Log, k: nat)
    requires Grows(h, last) && Grows(g, last) && Matched(h, la) && Matched(g, lb)
    requires k < |la| && k < |lb| && la[k].term == lb[k].term
    ensures la[..k + 1] == lb[..k + 1]
  {
    assert MatchedAt(h, la, k) && MatchedAt(g, lb, k);
    assert Agree(la, last.leaderLog[la[k].term], k + 1) && Agree(lb, last.leaderLog[la[k].term], k + 1);
  }

  // --- With links in order and no stale tail accepted ---

  // A leader of a later term holds what a durable entry covers.
  lemma LeaderCovers(c: Cluster, h: Hist, u: Term, t: Term, n: nat)
    requires Inv(c, h) && Strong(c, h) && u in h.leader && t < u && Durable(h, c.nodes.Keys, t, n)
    ensures At(u, h.leader[u]) in h.campaign && Has(h, h.campaign[At(u, h.leader[u])], t, n)
    ensures u in h.leaderLog && Has(h, h.leaderLog[u], t, n)
  {
    assert LeaderOk(h, u, c.nodes.Keys) && Complete(c.nodes, h, u, t, n);
    DurableNotPrevented(c.nodes, h, t, n);
  }

  // What a node has committed, every leader of a later term holds -- whether it
  // was elected before or after.
  lemma LeaderCompleteness(r: Run, i: nat, a: NodeId, j: nat, b: NodeId)
    requires IsRun(r) && Uncompacted(r) && Orderly(r)
    requires Present(r, i, a) && Present(r, j, b)
    requires NodeIn(r, j, b).role == Leader && NodeIn(r, j, b).term > NodeIn(r, i, a).term
    ensures var k := NodeIn(r, i, a).repl.commitIndex;
            k <= |NodeIn(r, i, a).store.log| && k <= |NodeIn(r, j, b).store.log| &&
            NodeIn(r, i, a).store.log[..k] == NodeIn(r, j, b).store.log[..k]
  {
    var h, g, last := Moments(r, i, j, true);
    var n, m := NodeIn(r, i, a), NodeIn(r, j, b);
    assert NodeOk(r.states[i].nodes, h, a) && LeadsAt(r.states[j].nodes, g, b);
    var k := n.repl.commitIndex;
    if k > 0 {
      var t: Term, e: nat :| CommitBy(h, r.states[i].nodes.Keys, n, k, t, e);
      CommittedInLeader(r.states[i], h, r.states[j], g, r.states[Max(i, j)], last, n.store.log, k, t, e, m.term);
      assert m.store.log == g.leaderLog[m.term];
      SamePrefix(n.store.log, m.store.log, k);
    }
  }

  lemma SamePrefix(a: Log, b: Log, k: nat)
    requires Agree(a, b, k)
    ensures a[..k] == b[..k]
  {
  }

  lemma CommittedInLeader(c: Cluster, h: Hist, d: Cluster, g: Hist, e: Cluster, last: Hist, log: Log, k: nat, t: Term,
                          n: nat, u: Term)
    requires Holds(d, g, true) && Holds(e, last, true) && Evolves(h, last, true) && Evolves(g, last, true)
    requires c.nodes.Keys == e.nodes.Keys && BackedBy(h, c.nodes.Keys, log, k, t, n) && t < u && u in g.leader
    ensures u in g.leaderLog && Agree(log, g.leaderLog[u], k)
  {
    BackedLater(c.nodes.Keys, h, last, log, k, t, n);
    LeaderCovers(e, last, u, t, n);
    assert LeaderOk(g, u, d.nodes.Keys);
  }

  // Two committed prefixes agree as far as both go.
  lemma BackedAgree(c: Cluster, h: Hist, la: Log, ka: nat, ta: Term, na: nat, lb: Log, kb: nat, tb: Term, nb: nat)
    requires Inv(c, h) && Strong(c, h)
    requires BackedBy(h, c.nodes.Keys, la, ka, ta, na) && BackedBy(h, c.nodes.Keys, lb, kb, tb, nb)
    ensures Agree(la, lb, Min(ka, kb))
  {
    if ta < tb {
      LeaderCovers(c, h, tb, ta, na);
    } else if tb < ta {
      LeaderCovers(c, h, ta, tb, nb);
    }
  }

  // What two nodes have applied since their last restarts, at any two moments
  // of the run, is the same sequence as far as both go; and each state machine
  // is exactly what those entries produce.
  lemma StateMachineSafety(r: Run, i: nat, a: NodeId, j: nat, b: NodeId)
    requires IsRun(r) && Uncompacted(r) && Orderly(r)
    requires Present(r, i, a) && Present(r, j, b)
    ensures var n, m := NodeIn(r, i, a), NodeIn(r, j, b);
            n.repl.lastApplied <= |n.store.log| && m.repl.lastApplied <= |m.store.log| &&
            n.sm == Fold(n.store.log[..n.repl.lastApplied]) && m.sm == Fold(m.store.log[..m.repl.lastApplied]) &&
            var both := Min(n.repl.lastApplied, m.repl.lastApplied);
            n.store.log[..both] == m.store.log[..both]
  {
    var h, g, last := Moments(r, i, j, true);
    var n, m := NodeIn(r, i, a), NodeIn(r, j, b);
    assert NodeOk(r.states[i].nodes, h, a) && NodeOk(r.states[j].nodes, g, b);
    CommitsAgree(r.states[Max(i, j)], last, h, n, g, m);
  }

  lemma CommitsAgree(c: Cluster, last: Hist, h: Hist, n: Node, g: Hist, m: Node)
    requires Holds(c, last, true) && Evolves(h, last, true) && Evolves(g, last, true)
    requires CommitOk(h, c.nodes.Keys, n) && CommitOk(g, c.nodes.Keys, m)
    ensures var both := Min(n.repl.lastApplied, m.repl.lastApplied);
            n.store.log[..both] == m.store.log[..both]
  {
    var all := c.nodes.Keys;
    if n.repl.commitIndex > 0 && m.repl.commitIndex > 0 {
      var t: Term, e: nat :| CommitBy(h, all, n, n.repl.commitIndex, t, e);
      var u: Term, f: nat :| CommitBy(g, all, m, m.repl.commitIndex, u, f);
      BackedLater(all, h, last, n.store.log, n.repl.commitIndex, t, e);
      BackedLater(all, g, last, m.store.log, m.repl.commitIndex, u, f);
      BackedAgree(c, last, n.store.log, n.repl.commitIndex, t, e, m.store.log, m.repl.commitIndex, u, f);
      SamePrefix(n.store.log, m.store.log, Min(n.repl.lastApplied, m.repl.lastApplied));
    }
  }

  // The node an action lets run.
  function Actor(a: Action): Option<NodeId> {
    match a
    case Deliver(_, to, _) => Some(to)
    case Drop(_, _, _) => None
    case ElectionTimeout(id) => Some(id)
    case Heartbeat(id) => Some(id)
    case Client(id, _) => Some(id)
    case Restart(id) => Some(id)
  }

  // While a node stays up its commit index never goes back.
  lemma CommitNeverRegresses(r: Run, i: nat, id: NodeId)
    requires IsRun(r) && Uncompacted(r) && Orderly(r)
    requires i < |r.actions| && Present(r, i, id) && r.actions[i] != Restart(id)
    ensures Present(r, i + 1, id)
    ensures NodeIn(r, i + 1, id).repl.commitIndex >= NodeIn(r, i, id).repl.commitIndex
  {
    var h, _, _ := Moments(r, i, i, true);
    var c, a := r.states[i], r.actions[i];
    assert StepAt(r, i) && OrderlyAt(r, i) && UncompactedAt(r, i + 1);
    if Actor(a) == Some(id) {
      StepCommits(c, h, a, id);
    }
  }

  lemma StepCommits(c: Cluster, h: Hist, a: Action, id: NodeId)
    requires Inv(c, h) && Strong(c, h) && Enabled(c, a) && Actor(a) == Some(id) && !a.Restart?
    requires InOrder(a) && NoStaleTail(c, a) && NoCompaction(Do(c, a))
    ensures Do(c, a).nodes[id].repl.commitIndex >= c.nodes[id].repl.commitIndex
  {
    var n := c.nodes[id];
    if a.Deliver? {
      var m := Queue(c.net, a.from, id)[0];
      assert FlightOk(c.net, h, c.nodes.Keys, a.from, id, 0);
      assert Do(c, a).nodes[id] == OnMessage(n, a.from, m).node;
      if m.AppendEntries? {
        AppendCommits(c, h, a, id);
      } else if m.AppendEntriesResponse? {
        ResponseCommits(c, h, a, id);
      }
    } else if a.Client? && n.role == Leader {
      assert PlainAt(c.nodes, id) && LeadsAt(c.nodes, h, id);
      ClientStep(n, c.nodes.Keys, a.payload);
    }
  }

  lemma AppendCommits(c: Cluster, h: Hist, a: Action, id: NodeId)
    requires Inv(c, h) && Strong(c, h) && Enabled(c, a) && a.Deliver? && a.to == id && a.k == 0 && NoStaleTail(c, a)
    requires Queue(c.net, a.from, id)[0].AppendEntries?
    ensures OnMessage(c.nodes[id], a.from, Queue(c.net, a.from, id)[0]).node.repl.commitIndex >=
            c.nodes[id].repl.commitIndex
  {
    var n, m := c.nodes[id], Queue(c.net, a.from, id)[0];
    if m.term < n.term {
      StaleAppend(n, a.from, m);
    } else if m.term == n.term {
      var d := c.(net := Pull(c.net, a.from, id, 0));
      PullKeeps(c, h, a.from, id, 0);
      StrongPull(c, h, a.from, id, 0);
      DeliveryFacts(c, h, a.from, id);
      TailFacts(c, h, a);
      FollowerOfTerm(d, h, id, a.from, m);
      assert PlainAt(c.nodes, id) && LeadsAt(c.nodes, h, id);
      if Accepts(n.store.log, m) {
        NewLogOk(d, h, id, a.from, m);
        WroteInTurn(d, h, id, a.from, m);
        var w := Wrote(n, a.from, m);
        WriteCommits(d, h, Put(d, id, w), RecordAck(h, m.term, id, |w.store.log|), id, w);
      }
      AppendEntriesStep(n, c.nodes.Keys, a.from, m);
    }
  }

  lemma ResponseCommits(c: Cluster, h: Hist, a: Action, id: NodeId)
    requires Inv(c, h) && Enabled(c, a) && a.Deliver? && a.to == id && a.k == 0 && NoCompaction(Do(c, a))
    requires Queue(c.net, a.from, id)[0].AppendEntriesResponse?
    ensures OnMessage(c.nodes[id], a.from, Queue(c.net, a.from, id)[0]).node.repl.commitIndex >=
            c.nodes[id].repl.commitIndex
  {
    var n, m := c.nodes[id], Queue(c.net, a.from, id)[0];
    assert PlainAt(c.nodes, id) && LeadsAt(c.nodes, h, id) && FlightOk(c.net, h, c.nodes.Keys, a.from, id, 0);
    if n.role == Leader && m.term == n.term {
      assert id in Do(c, a).nodes;
      ResponseStep(n, c.nodes.Keys, a.from, m.success, m.matchIndex);
    }
  }
}
