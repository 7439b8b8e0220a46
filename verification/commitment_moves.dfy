// The moves of one node keep the commitment invariant.
module CommitmentMoves {
  import opened Types
  import opened Configurations
  import opened Nodes
  import opened Clusters
  import opened Histories
  import opened Moves
  import opened Commitment

  // The new history differs from the old only in what node id did in m's term.
  ghost predicate OnlyBy(h: Hist, g: Hist, id: NodeId, term: Term) {
    && (forall a :: a in g.acked && !(a in h.acked && g.acked[a] == h.acked[a]) ==> a == At(term, id))
    && (forall t :: t in g.leaderLog && !(t in h.leaderLog && g.leaderLog[t] == h.leaderLog[t]) ==> t == term)
    && (forall t :: t in g.leader && t !in h.leader ==> t == term)
    && (forall a :: a in g.voted && a !in h.voted ==> a == At(term, id))
  }

  lemma VoteGrows(nodes: map<NodeId, Node>, h: Hist, term: Term, id: NodeId, candidate: NodeId)
    requires At(term, id) in h.voted ==> h.voted[At(term, id)] == candidate
    ensures var g := RecordVote(h, term, id, candidate);
            Grows(h, g) && AcksGrow(nodes, h, g) && OnlyBy(h, g, id, term)
  {
  }

  lemma CampaignGrowth(nodes: map<NodeId, Node>, h: Hist, term: Term, id: NodeId, log: Log)
    requires At(term, id) !in h.voted && At(term, id) !in h.campaign
    ensures var g := RecordCampaign(h, term, id, log);
            Grows(h, g) && AcksGrow(nodes, h, g) && OnlyBy(h, g, id, term)
  {
  }

  lemma AckGrows(nodes: map<NodeId, Node>, h: Hist, term: Term, id: NodeId, upTo: nat)
    requires id in nodes && nodes[id].term <= term
    requires At(term, id) in h.acked ==> h.acked[At(term, id)] <= upTo
    ensures var g := RecordAck(h, term, id, upTo);
            Grows(h, g) && AcksGrow(nodes, h, g) && OnlyBy(h, g, id, term)
  {
  }

  lemma LeaderGrowth(nodes: map<NodeId, Node>, h: Hist, term: Term, id: NodeId, log: Log)
    requires id in nodes && nodes[id].term <= term && h.leader.Keys == h.leaderLog.Keys
    requires At(term, id) in h.acked ==> h.acked[At(term, id)] <= |log|
    requires term in h.leader ==> h.leader[term] == id && Agree(h.leaderLog[term], log, |h.leaderLog[term]|)
    ensures var g := RecordLeader(h, term, id, log);
            Grows(h, g) && AcksGrow(nodes, h, g) && OnlyBy(h, g, id, term)
  {
  }

  lemma PutLater(c: Cluster, h: Hist, d: Cluster, g: Hist, id: NodeId, m: Node)
    requires id in c.nodes && m.term >= c.nodes[id].term && d == Put(c, id, m)
    requires Grows(h, g) && AcksGrow(c.nodes, h, g)
    ensures Later(c.nodes, h, d.nodes, g)
  {
  }

  lemma AcksUpdate(nodes: map<NodeId, Node>, nodes': map<NodeId, Node>, h: Hist, g: Hist, id: NodeId, m: Node)
    requires AcksOk(nodes, h) && id in nodes && nodes' == nodes[id := m] && OnlyBy(h, g, id, m.term) &&
             Later(nodes, h, nodes', g)
    requires forall t: Term :: AckOk(nodes', g, At(t, id))
    requires LeaderAcks(g, m.term)
    ensures AcksOk(nodes', g)
  {
    forall a: At ensures AckOk(nodes', g, a) {
      assert AckOk(nodes, h, a);
      assert AckOk(nodes', g, At(a.term, id));
    }
    forall t: Term ensures LeaderAcks(g, t) {
      assert LeaderAcks(h, t);
    }
  }

  lemma OwnBefore(h: Hist, g: Hist, t: Term, n: nat)
    requires Grows(h, g) && Own(g, t, n) && t in h.leader && t in h.leaderLog && n <= |h.leaderLog[t]|
    ensures Own(h, t, n)
  {
  }

  lemma KeptUpdate(nodes: map<NodeId, Node>, nodes': map<NodeId, Node>, h: Hist, g: Hist, id: NodeId, m: Node, a: At,
                   n: nat)
    requires AcksOk(nodes, h) && EntriesSafe(nodes, h)
    requires id in nodes && nodes' == nodes[id := m] && OnlyBy(h, g, id, m.term) && Later(nodes, h, nodes', g)
    requires a.node != id
    ensures Kept(nodes', g, a, n)
  {
    if a in g.acked && n <= g.acked[a] && Own(g, a.term, n) && a.node in nodes' {
      assert AckOk(nodes, h, a) && Kept(nodes, h, a, n);
      OwnBefore(h, g, a.term, n);
      SafeLater(nodes, h, nodes', g, nodes[a.node].store.log, a.term, n);
    }
  }

  lemma CompleteUpdate(nodes: map<NodeId, Node>, nodes': map<NodeId, Node>, h: Hist, g: Hist, id: NodeId, m: Node,
                       u: Term, t: Term, n: nat)
    requires VotesKept(nodes, h) && Leaders(nodes, h) && EntriesSafe(nodes, h)
    requires id in nodes && nodes' == nodes[id := m] && OnlyBy(h, g, id, m.term) && Later(nodes, h, nodes', g)
    requires u in h.leader && t in h.leaderLog && n <= |h.leaderLog[t]| && t in h.leader
    ensures Complete(nodes', g, u, t, n)
  {
    if t < u && Own(g, t, n) {
      assert LeaderOk(h, u, nodes.Keys) && Complete(nodes, h, u, t, n);
      OwnBefore(h, g, t, n);
      SafeLater(nodes, h, nodes', g, h.campaign[At(u, h.leader[u])], t, n);
    }
  }

  lemma VotedUpdate(nodes: map<NodeId, Node>, nodes': map<NodeId, Node>, h: Hist, g: Hist, id: NodeId, m: Node,
                    a: At, t: Term, n: nat)
    requires VotesKept(nodes, h) && AcksOk(nodes, h) && EntriesSafe(nodes, h)
    requires id in nodes && nodes' == nodes[id := m] && OnlyBy(h, g, id, m.term) && Later(nodes, h, nodes', g)
    requires a in h.voted
    ensures VotedSafe(nodes', g, a, t, n)
  {
    if t < a.term && Acked(g, a.node, t, n) && Own(g, t, n) {
      assert VotedOk(nodes, h, a) && VotedSafe(nodes, h, a, t, n) && AckOk(nodes, h, At(t, a.node));
      OwnBefore(h, g, t, n);
      SafeLater(nodes, h, nodes', g, h.campaign[At(a.term, h.voted[a])], t, n);
    }
  }

  // The pairs (u, t, n) a move makes relevant for the first time.
  ghost predicate Fresh(h: Hist, u: Term, t: Term, n: nat) {
    u !in h.leader || t !in h.leader || t !in h.leaderLog || n > |h.leaderLog[t]|
  }

  lemma EntriesUpdate(nodes: map<NodeId, Node>, nodes': map<NodeId, Node>, h: Hist, g: Hist, id: NodeId, m: Node)
    requires VotesKept(nodes, h) && Leaders(nodes, h) && AcksOk(nodes, h) && EntriesSafe(nodes, h)
    requires id in nodes && nodes' == nodes[id := m] && OnlyBy(h, g, id, m.term) && Later(nodes, h, nodes', g)
    requires forall t: Term, n: nat :: Kept(nodes', g, At(t, id), n)
    requires forall u: Term, t: Term, n: nat :: Fresh(h, u, t, n) ==> Complete(nodes', g, u, t, n)
    requires forall t: Term, n: nat :: At(m.term, id) !in h.voted ==> VotedSafe(nodes', g, At(m.term, id), t, n)
    ensures EntriesSafe(nodes', g)
  {
    forall a: At, n: nat ensures Kept(nodes', g, a, n) {
      if a.node == id {
        assert Kept(nodes', g, At(a.term, id), n);
      } else {
        KeptUpdate(nodes, nodes', h, g, id, m, a, n);
      }
    }
    forall u: Term, t: Term, n: nat ensures Complete(nodes', g, u, t, n) {
      if !Fresh(h, u, t, n) {
        CompleteUpdate(nodes, nodes', h, g, id, m, u, t, n);
      }
    }
    forall a: At, t: Term, n: nat ensures VotedSafe(nodes', g, a, t, n) {
      if a in h.voted {
        VotedUpdate(nodes, nodes', h, g, id, m, a, t, n);
      } else if a in g.voted {
        assert VotedSafe(nodes', g, At(m.term, id), t, n);
      }
    }
  }

  lemma NodeUpdate(nodes: map<NodeId, Node>, nodes': map<NodeId, Node>, h: Hist, g: Hist, id: NodeId, m: Node,
                   x: NodeId)
    requires PlainNodes(nodes) && NodesOk(nodes, h)
    requires id in nodes && nodes' == nodes[id := m] && OnlyBy(h, g, id, m.term) && Later(nodes, h, nodes', g) &&
             x != id
    ensures NodeOk(nodes', g, x)
  {
    if x in nodes {
      assert NodeOk(nodes, h, x) && PlainAt(nodes, x);
      var n := nodes[x];
      assert nodes'.Keys == nodes.Keys;
      assert MatchOk(g, n) by {
        forall v | n.role == Leader && v in n.repl.matchIndex && v != n.id && n.repl.matchIndex[v] > 0
          ensures Acked(g, v, n.term, n.repl.matchIndex[v])
        {
          assert Acked(h, v, n.term, n.repl.matchIndex[v]);
        }
      }
      CommitGrows(nodes, h, g, n);
    }
  }

  lemma CommitLater(nodes: map<NodeId, Node>, h: Hist, g: Hist, n: Node, k: nat, t: Term, i: nat)
    requires Grows(h, g) && AcksGrow(nodes, h, g) && CommitBy(h, nodes.Keys, n, k, t, i)
    ensures CommitBy(g, nodes.Keys, n, k, t, i)
  {
    BackedLater(nodes.Keys, h, g, n.store.log, k, t, i);
  }

  lemma ClaimLater(nodes: map<NodeId, Node>, h: Hist, g: Hist, from: NodeId, m: Msg)
    requires Grows(h, g) && AcksGrow(nodes, h, g) && ClaimOk(h, nodes.Keys, from, m)
    ensures ClaimOk(g, nodes.Keys, from, m)
  {
    if m.AppendEntries? && !Overshoots(m) && m.leaderCommit > 0 {
      var t: Term, n: nat :| t <= m.term && BackedBy(h, nodes.Keys, h.leaderLog[m.term], m.leaderCommit, t, n);
      BackedLater(nodes.Keys, h, g, h.leaderLog[m.term], m.leaderCommit, t, n);
      assert BackedBy(g, nodes.Keys, g.leaderLog[m.term], m.leaderCommit, t, n);
    }
  }

  lemma ClaimsUpdate(nodes: map<NodeId, Node>, nodes': map<NodeId, Node>, net: Net, h: Hist, g: Hist, id: NodeId,
                     m: Node)
    requires ClaimsOk(net, h, nodes.Keys) && id in nodes && nodes' == nodes[id := m] && OnlyBy(h, g, id, m.term) &&
             Later(nodes, h, nodes', g)
    requires forall f: NodeId, k: nat :: AheadAt(net, g, f, id, k)
    ensures ClaimsOk(net, g, nodes'.Keys)
  {
    assert nodes'.Keys == nodes.Keys;
    forall f: NodeId, t: NodeId, k: nat ensures ClaimAt(net, g, nodes.Keys, f, t, k) {
      assert ClaimAt(net, h, nodes.Keys, f, t, k);
      if k < |Queue(net, f, t)| {
        ClaimLater(nodes, h, g, f, Queue(net, f, t)[k]);
      }
    }
    forall f: NodeId, t: NodeId, k: nat ensures AheadAt(net, g, f, t, k) {
      assert AheadAt(net, h, f, t, k);
    }
  }

  // One node changes; what it newly did is justified.
  lemma StrongUpdate(c: Cluster, h: Hist, d: Cluster, g: Hist, id: NodeId, m: Node)
    requires Inv(c, h) && Strong(c, h)
    requires id in c.nodes && d == Put(c, id, m) && OnlyBy(h, g, id, m.term) && Later(c.nodes, h, d.nodes, g)
    requires forall t: Term :: AckOk(d.nodes, g, At(t, id))
    requires LeaderAcks(g, m.term)
    requires forall t: Term, n: nat :: Kept(d.nodes, g, At(t, id), n)
    requires forall u: Term, t: Term, n: nat :: Fresh(h, u, t, n) ==> Complete(d.nodes, g, u, t, n)
    requires forall t: Term, n: nat :: At(m.term, id) !in h.voted ==> VotedSafe(d.nodes, g, At(m.term, id), t, n)
    requires MatchOk(g, m) && CommitOk(g, c.nodes.Keys, m)
    requires forall f: NodeId, k: nat :: AheadAt(c.net, g, f, id, k)
    ensures Strong(d, g)
  {
    AcksUpdate(c.nodes, d.nodes, h, g, id, m);
    EntriesUpdate(c.nodes, d.nodes, h, g, id, m);
    ClaimsUpdate(c.nodes, d.nodes, c.net, h, g, id, m);
    forall x: NodeId ensures NodeOk(d.nodes, g, x) {
      if x != id {
        NodeUpdate(c.nodes, d.nodes, h, g, id, m, x);
      }
    }
  }

  lemma StrongFacts(c: Cluster, h: Hist, id: NodeId)
    requires Strong(c, h) && id in c.nodes
    ensures MatchOk(h, c.nodes[id]) && CommitOk(h, c.nodes.Keys, c.nodes[id])
    ensures forall t: Term :: AckOk(c.nodes, h, At(t, id))
    ensures forall t: Term, n: nat :: Kept(c.nodes, h, At(t, id), n)
  {
    assert NodeOk(c.nodes, h, id);
  }

  // Commit knowledge survives as long as the committed prefix does.
  lemma CommitCarries(h: Hist, all: set<NodeId>, n: Node, m: Node)
    requires CommitOk(h, all, n)
    requires m.id == n.id && m.term >= n.term && m.store.log == n.store.log && m.sm == n.sm
    requires m.repl.commitIndex == n.repl.commitIndex && m.repl.lastApplied == n.repl.lastApplied
    ensures CommitOk(h, all, m)
  {
    if n.repl.commitIndex > 0 {
      var t: Term, i: nat :| CommitBy(h, all, n, n.repl.commitIndex, t, i);
      assert CommitBy(h, all, m, m.repl.commitIndex, t, i);
    }
  }

  // The log, and so everything acknowledged, stays; the history too.
  lemma StrongQuiet(c: Cluster, h: Hist, id: NodeId, m: Node)
    requires Inv(c, h) && Strong(c, h) && id in c.nodes
    requires m.id == id && m.term >= c.nodes[id].term && m.store.log == c.nodes[id].store.log
    requires MatchOk(h, m) && CommitOk(h, c.nodes.Keys, m)
    ensures Strong(Put(c, id, m), h)
  {
    var d := Put(c, id, m);
    assert Later(c.nodes, h, d.nodes, h);
    UnchangedLog(c, h, d, h, id, m);
    StrongUpdate(c, h, d, h, id, m);
  }

  // --- Voting ---

  ghost predicate UpToDate(candidate: Log, log: Log) {
    LastTerm(candidate) > LastTerm(log) || (LastTerm(candidate) == LastTerm(log) && |candidate| >= |log|)
  }

  // A log at least as up to date as one that holds entry n of term t holds it too.
  lemma UpToDateIsSafe(nodes: map<NodeId, Node>, h: Hist, log: Log, candidate: Log, t: Term, n: nat)
    requires Leaders(nodes, h) && VotesKept(nodes, h) && EntriesSafe(nodes, h)
    requires Matched(h, log) && Matched(h, candidate) && UpToDate(candidate, log)
    requires Own(h, t, n) && Has(h, log, t, n)
    ensures Safe(nodes, h, candidate, t, n)
  {
    var l, w := LastTerm(log), LastTerm(candidate);
    assert MatchedAt(h, log, |log| - 1) && LeaderOk(h, l, nodes.Keys);
    assert log[n - 1] == h.leaderLog[t][n - 1] && log[n - 1] == h.leaderLog[l][n - 1];
    assert t <= l <= w;
    assert candidate != [] by { assert LeaderOk(h, t, nodes.Keys); }
    assert MatchedAt(h, candidate, |candidate| - 1) && LeaderOk(h, w, nodes.Keys);
    if w > l && !Prevented(nodes, h, t, n) {
      var own := h.campaign[At(w, h.leader[w])];
      assert Complete(nodes, h, w, t, n) && CampaignOk(nodes, h, At(w, h.leader[w]));
      assert Has(h, own, t, n);
      if |candidate| < n {
        assert false;
      }
    }
  }

  lemma GrantIsSafe(c: Cluster, h: Hist, d: Cluster, g: Hist, id: NodeId, candidate: NodeId, t: Term, i: nat)
    requires Inv(c, h) && Strong(c, h) && id in c.nodes
    requires d.nodes.Keys == c.nodes.Keys && Later(c.nodes, h, d.nodes, g)
    requires var n := c.nodes[id];
             At(n.term, candidate) in h.campaign && UpToDate(h.campaign[At(n.term, candidate)], n.store.log) &&
             g == RecordVote(h, n.term, id, candidate)
    ensures VotedSafe(d.nodes, g, At(c.nodes[id].term, id), t, i)
  {
    var n := c.nodes[id];
    var log := h.campaign[At(n.term, candidate)];
    if t < n.term && Acked(g, id, t, i) && Own(g, t, i) {
      assert Kept(c.nodes, h, At(t, id), i) && LeadsAt(c.nodes, h, id) && CampaignOk(c.nodes, h, At(n.term, candidate));
      if Has(h, n.store.log, t, i) {
        UpToDateIsSafe(c.nodes, h, n.store.log, log, t, i);
      }
      SafeLater(c.nodes, h, d.nodes, g, log, t, i);
    }
  }

  lemma StrongGrant(c: Cluster, h: Hist, id: NodeId, candidate: NodeId)
    requires Inv(c, h) && Strong(c, h) && id in c.nodes
    requires var n := c.nodes[id];
             (n.store.votedFor.None? || n.store.votedFor == Some(candidate)) && At(n.term, candidate) in h.campaign &&
             UpToDate(h.campaign[At(n.term, candidate)], n.store.log)
    ensures var n := c.nodes[id];
            Strong(Put(c, id, n.(store := n.store.(votedFor := Some(candidate)))), RecordVote(h, n.term, id, candidate))
  {
    assert PlainAt(c.nodes, id) && VoteAt(c.nodes, h, id) && NodeOk(c.nodes, h, id);
    var n := c.nodes[id];
    var m := n.(store := n.store.(votedFor := Some(candidate)));
    var g := RecordVote(h, n.term, id, candidate);
    var d := Put(c, id, m);
    VoteGrows(c.nodes, h, n.term, id, candidate);
    PutLater(c, h, d, g, id, m);
    forall t: Term, i: nat ensures VotedSafe(d.nodes, g, At(n.term, id), t, i) {
      GrantIsSafe(c, h, d, g, id, candidate, t, i);
    }
    UnchangedLog(c, h, d, g, id, m);
    CommitCarries(h, c.nodes.Keys, n, m);
    CommitGrows(c.nodes, h, g, m);
    StrongUpdate(c, h, d, g, id, m);
  }

  lemma CommitGrows(nodes: map<NodeId, Node>, h: Hist, g: Hist, m: Node)
    requires Grows(h, g) && AcksGrow(nodes, h, g) && CommitOk(h, nodes.Keys, m)
    ensures CommitOk(g, nodes.Keys, m)
  {
    if m.repl.commitIndex > 0 {
      var t: Term, i: nat :| CommitBy(h, nodes.Keys, m, m.repl.commitIndex, t, i);
      CommitLater(nodes, h, g, m, m.repl.commitIndex, t, i);
    }
  }

  // The obligations that concern node id's own log and acknowledgements, when
  // neither changes.
  lemma UnchangedLog(c: Cluster, h: Hist, d: Cluster, g: Hist, id: NodeId, m: Node)
    requires Inv(c, h) && Strong(c, h) && id in c.nodes && d == Put(c, id, m) && Later(c.nodes, h, d.nodes, g)
    requires m.id == id && m.store.log == c.nodes[id].store.log && g.acked == h.acked
    requires g.leader == h.leader && g.leaderLog == h.leaderLog
    ensures forall t: Term :: AckOk(d.nodes, g, At(t, id))
    ensures LeaderAcks(g, m.term)
    ensures forall t: Term, n: nat :: Kept(d.nodes, g, At(t, id), n)
    ensures forall f: NodeId, k: nat :: AheadAt(c.net, g, f, id, k)
    ensures forall u: Term, t: Term, n: nat :: Fresh(h, u, t, n) ==> Complete(d.nodes, g, u, t, n)
  {
    StrongFacts(c, h, id);
    forall t: Term ensures AckOk(d.nodes, g, At(t, id)) {
      assert AckOk(c.nodes, h, At(t, id));
    }
    assert LeaderAcks(h, m.term);
    forall t: Term, n: nat ensures Kept(d.nodes, g, At(t, id), n) {
      assert Kept(c.nodes, h, At(t, id), n);
      if At(t, id) in g.acked && n <= g.acked[At(t, id)] && Own(g, t, n) {
        SafeLater(c.nodes, h, d.nodes, g, m.store.log, t, n);
      }
    }
    forall f: NodeId, k: nat ensures AheadAt(c.net, g, f, id, k) {
      assert AheadAt(c.net, h, f, id, k);
    }
  }

  lemma StrongCampaign(c: Cluster, h: Hist, id: NodeId)
    requires Inv(c, h) && Strong(c, h) && id in c.nodes
    ensures var n := c.nodes[id];
            Strong(Put(c, id, Campaigner(n)), RecordCampaign(h, n.term + 1, id, n.store.log))
  {
    assert PlainAt(c.nodes, id) && NodeOk(c.nodes, h, id);
    var n := c.nodes[id];
    var m := Campaigner(n);
    var g := RecordCampaign(h, m.term, id, n.store.log);
    var d := Put(c, id, m);
    assert VotedOk(c.nodes, h, At(m.term, id)) && CampaignOk(c.nodes, h, At(m.term, id));
    CampaignGrowth(c.nodes, h, m.term, id, n.store.log);
    PutLater(c, h, d, g, id, m);
    forall t: Term, i: nat ensures VotedSafe(d.nodes, g, At(m.term, id), t, i) {
      if t < m.term && Acked(g, id, t, i) && Own(g, t, i) {
        assert Kept(c.nodes, h, At(t, id), i);
        SafeLater(c.nodes, h, d.nodes, g, n.store.log, t, i);
      }
    }
    UnchangedLog(c, h, d, g, id, m);
    CommitCarries(h, c.nodes.Keys, n, m);
    CommitGrows(c.nodes, h, g, m);
    StrongUpdate(c, h, d, g, id, m);
  }

  // --- Winning ---

  // Whatever the voters may have acknowledged, the winner's log holds or no one
  // will ever commit.
  lemma WinnerIsSafe(c: Cluster, h: Hist, id: NodeId, t: Term, n: nat)
    requires Inv(c, h) && Strong(c, h) && id in c.nodes
    requires var m := c.nodes[id];
             m.role == Candidate && HasQuorum(m.config.members, |m.election.votes|) && t < m.term && Own(h, t, n)
    ensures Safe(c.nodes, h, c.nodes[id].store.log, t, n)
  {
    WinnerIsNew(c, h, id);
    Facts(c, h, id);
    var m := c.nodes[id];
    var q := Elements(m.election.votes);
    if v :| v in q && Acked(h, v, t, n) {
      assert Voter(h, v, m.term, id) && VotedSafe(c.nodes, h, At(m.term, v), t, n);
    } else {
      forall v | v in q ensures Blocked(c.nodes, h, v, t, n) {
        assert Voter(h, v, m.term, id) && VotedOk(c.nodes, h, At(m.term, v));
      }
      assert BlockedBy(c.nodes, h, q, t, n);
    }
  }

  // Candidate id, with a quorum of votes, becomes leader m.
  ghost predicate Wins(c: Cluster, h: Hist, d: Cluster, g: Hist, id: NodeId, m: Node) {
    && Inv(c, h) && Strong(c, h) && id in c.nodes
    && (var n := c.nodes[id];
        && n.role == Candidate && HasQuorum(n.config.members, |n.election.votes|)
        && m == n.(role := Leader, repl := m.repl)
        && m.repl.commitIndex == n.repl.commitIndex && m.repl.lastApplied == n.repl.lastApplied)
    && (forall v :: v in m.repl.matchIndex && v != id ==> m.repl.matchIndex[v] == 0)
    && d == Put(c, id, m) && g == RecordLeader(h, m.term, id, m.store.log)
  }

  lemma WinGrows(c: Cluster, h: Hist, d: Cluster, g: Hist, id: NodeId, m: Node)
    requires Wins(c, h, d, g, id, m)
    ensures m.term !in h.leader && OnlyBy(h, g, id, m.term) && Later(c.nodes, h, d.nodes, g)
    ensures forall i :: 0 <= i < |m.store.log| ==> m.store.log[i].term < m.term
  {
    WinnerIsNew(c, h, id);
    assert PlainAt(c.nodes, id) && VoteAt(c.nodes, h, id);
    assert CampaignOk(c.nodes, h, At(m.term, id)) && AckOk(c.nodes, h, At(m.term, id));
    LeaderGrowth(c.nodes, h, m.term, id, m.store.log);
    PutLater(c, h, d, g, id, m);
  }

  lemma WinAcks(c: Cluster, h: Hist, d: Cluster, g: Hist, id: NodeId, m: Node)
    requires Wins(c, h, d, g, id, m)
    ensures forall t: Term :: AckOk(d.nodes, g, At(t, id))
    ensures LeaderAcks(g, m.term)
  {
    WinGrows(c, h, d, g, id, m);
    forall t: Term ensures AckOk(d.nodes, g, At(t, id)) {
      assert AckOk(c.nodes, h, At(t, id));
    }
  }

  lemma WinAhead(c: Cluster, h: Hist, d: Cluster, g: Hist, id: NodeId, m: Node)
    requires Wins(c, h, d, g, id, m)
    ensures forall f: NodeId, k: nat :: AheadAt(c.net, g, f, id, k)
  {
    WinGrows(c, h, d, g, id, m);
    forall f: NodeId, k: nat ensures AheadAt(c.net, g, f, id, k) {
      assert AheadAt(c.net, h, f, id, k) && FlightOk(c.net, h, c.nodes.Keys, f, id, k);
    }
  }

  lemma WinEntries(c: Cluster, h: Hist, d: Cluster, g: Hist, id: NodeId, m: Node)
    requires Wins(c, h, d, g, id, m)
    ensures forall t: Term, n: nat :: Kept(d.nodes, g, At(t, id), n)
    ensures forall u: Term, t: Term, n: nat :: Fresh(h, u, t, n) ==> Complete(d.nodes, g, u, t, n)
  {
    WinGrows(c, h, d, g, id, m);
    forall t: Term, i: nat ensures Kept(d.nodes, g, At(t, id), i) {
      assert Kept(c.nodes, h, At(t, id), i);
      if t != m.term && At(t, id) in g.acked && i <= g.acked[At(t, id)] && Own(g, t, i) {
        SafeLater(c.nodes, h, d.nodes, g, m.store.log, t, i);
      }
    }
    forall u: Term, t: Term, i: nat | Fresh(h, u, t, i) ensures Complete(d.nodes, g, u, t, i) {
      if u == m.term && t < u && Own(g, t, i) {
        WinnerIsSafe(c, h, id, t, i);
        assert PlainAt(c.nodes, id) && VoteAt(c.nodes, h, id);
        SafeLater(c.nodes, h, d.nodes, g, m.store.log, t, i);
      }
    }
  }

  lemma StrongElect(c: Cluster, h: Hist, d: Cluster, g: Hist, id: NodeId, m: Node)
    requires Wins(c, h, d, g, id, m)
    ensures Strong(d, g)
  {
    WinGrows(c, h, d, g, id, m);
    WinAcks(c, h, d, g, id, m);
    WinAhead(c, h, d, g, id, m);
    WinEntries(c, h, d, g, id, m);
    assert NodeOk(c.nodes, h, id) && PlainAt(c.nodes, id);
    CommitCarries(h, c.nodes.Keys, c.nodes[id], m);
    CommitGrows(c.nodes, h, g, m);
    StrongUpdate(c, h, d, g, id, m);
  }

  // --- The leader appends ---

  // A new entry of a superseded leader can never commit: the majority that
  // elected the later leader has left the term without acknowledging it.
  lemma LateEntryPrevented(c: Cluster, h: Hist, id: NodeId, u: Term, n: nat)
    requires Inv(c, h) && Strong(c, h) && id in c.nodes
    requires c.nodes[id].role == Leader && u in h.leader && u > c.nodes[id].term
    requires n > |c.nodes[id].store.log|
    ensures Prevented(c.nodes, h, c.nodes[id].term, n)
  {
    Facts(c, h, id);
    var t := c.nodes[id].term;
    assert LeaderOk(h, u, c.nodes.Keys);
    var q :| ElectedBy(h, q, u, h.leader[u], c.nodes.Keys);
    forall v | v in q ensures Blocked(c.nodes, h, v, t, n) {
      assert Voter(h, v, u, h.leader[u]) && VotedOk(c.nodes, h, At(u, v)) && AckOk(c.nodes, h, At(t, v));
    }
    assert BlockedBy(c.nodes, h, q, t, n);
  }

  ghost predicate Appends(c: Cluster, h: Hist, d: Cluster, g: Hist, id: NodeId, m: Node, e: LogEntry) {
    && Inv(c, h) && Strong(c, h) && id in c.nodes
    && c.nodes[id].role == Leader && e.term == c.nodes[id].term && e.entryType.Command?
    && m == c.nodes[id].(store := c.nodes[id].store.Append([e]))
    && d == Put(c, id, m) && g == RecordLeader(h, m.term, id, m.store.log)
  }

  lemma AppendGrows(c: Cluster, h: Hist, d: Cluster, g: Hist, id: NodeId, m: Node, e: LogEntry)
    requires Appends(c, h, d, g, id, m, e)
    ensures OnlyBy(h, g, id, m.term) && Later(c.nodes, h, d.nodes, g) && m.id == id
    ensures m.term in h.leader && h.leader[m.term] == id && h.leaderLog[m.term] == c.nodes[id].store.log
  {
    assert PlainAt(c.nodes, id) && LeadsAt(c.nodes, h, id) && LeaderAcks(h, m.term);
    LeaderGrowth(c.nodes, h, m.term, id, m.store.log);
    PutLater(c, h, d, g, id, m);
  }

  lemma AppendAcks(c: Cluster, h: Hist, d: Cluster, g: Hist, id: NodeId, m: Node, e: LogEntry)
    requires Appends(c, h, d, g, id, m, e)
    ensures forall t: Term :: AckOk(d.nodes, g, At(t, id))
    ensures LeaderAcks(g, m.term)
  {
    AppendGrows(c, h, d, g, id, m, e);
    forall t: Term ensures AckOk(d.nodes, g, At(t, id)) {
      assert AckOk(c.nodes, h, At(t, id));
    }
  }

  lemma AppendAhead(c: Cluster, h: Hist, d: Cluster, g: Hist, id: NodeId, m: Node, e: LogEntry)
    requires Appends(c, h, d, g, id, m, e)
    ensures forall f: NodeId, k: nat :: AheadAt(c.net, g, f, id, k)
  {
    AppendGrows(c, h, d, g, id, m, e);
    forall f: NodeId, k: nat ensures AheadAt(c.net, g, f, id, k) {
      assert AheadAt(c.net, h, f, id, k) && FlightOk(c.net, h, c.nodes.Keys, f, id, k);
    }
  }

  lemma AppendEntriesSafe(c: Cluster, h: Hist, d: Cluster, g: Hist, id: NodeId, m: Node, e: LogEntry)
    requires Appends(c, h, d, g, id, m, e)
    ensures forall t: Term, n: nat :: Kept(d.nodes, g, At(t, id), n)
    ensures forall u: Term, t: Term, n: nat :: Fresh(h, u, t, n) ==> Complete(d.nodes, g, u, t, n)
  {
    AppendGrows(c, h, d, g, id, m, e);
    forall t: Term, i: nat ensures Kept(d.nodes, g, At(t, id), i) {
      assert Kept(c.nodes, h, At(t, id), i);
      if t != m.term && At(t, id) in g.acked && i <= g.acked[At(t, id)] && Own(g, t, i) {
        SafeLater(c.nodes, h, d.nodes, g, c.nodes[id].store.log, t, i);
      }
    }
    forall u: Term, t: Term, i: nat | Fresh(h, u, t, i) ensures Complete(d.nodes, g, u, t, i) {
      if u in g.leader && At(u, g.leader[u]) in g.campaign && t < u && Own(g, t, i) {
        LateEntryPrevented(c, h, id, u, i);
        SafeLater(c.nodes, h, d.nodes, g, h.campaign[At(u, h.leader[u])], t, i);
      }
    }
  }

  lemma StrongLeaderAppend(c: Cluster, h: Hist, d: Cluster, g: Hist, id: NodeId, m: Node, e: LogEntry)
    requires Appends(c, h, d, g, id, m, e)
    ensures Strong(d, g)
  {
    AppendGrows(c, h, d, g, id, m, e);
    AppendAcks(c, h, d, g, id, m, e);
    AppendAhead(c, h, d, g, id, m, e);
    AppendEntriesSafe(c, h, d, g, id, m, e);
    assert NodeOk(c.nodes, h, id);
    MatchCarries(h, g, c.nodes[id], m);
    LongerLogCommits(h, c.nodes.Keys, c.nodes[id], m);
    CommitGrows(c.nodes, h, g, m);
    StrongUpdate(c, h, d, g, id, m);
  }

  lemma MatchCarries(h: Hist, g: Hist, n: Node, m: Node)
    requires MatchOk(h, n) && m.id == n.id && m.term == n.term && m.repl.matchIndex == n.repl.matchIndex
    requires m.role == Leader ==> n.role == Leader
    requires forall a :: a in h.acked ==> a in g.acked && g.acked[a] >= h.acked[a]
    ensures MatchOk(g, m)
  {
    forall v | m.role == Leader && v in m.repl.matchIndex && v != m.id && m.repl.matchIndex[v] > 0
      ensures Acked(g, v, m.term, m.repl.matchIndex[v])
    {
      assert Acked(h, v, n.term, n.repl.matchIndex[v]);
    }
  }

  lemma LongerLogCommits(h: Hist, all: set<NodeId>, n: Node, m: Node)
    requires CommitOk(h, all, n) && Agree(m.store.log, n.store.log, n.repl.commitIndex)
    requires m == n.(store := m.store)
    ensures CommitOk(h, all, m)
  {
    var k := n.repl.commitIndex;
    assert m.store.log[..k] == n.store.log[..k];
    if k > 0 {
      var t: Term, i: nat :| CommitBy(h, all, n, k, t, i);
      assert CommitBy(h, all, m, k, t, i);
    }
  }
}
