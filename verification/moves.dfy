// Moves that change one node, each shown to keep the invariant with the history
// it extends.
module Moves {
  import opened Types
  import opened Configurations
  import opened Elections
  import opened Nodes
  import opened Clusters
  import opened Histories

  function Put(c: Cluster, id: NodeId, n: Node): Cluster { c.(nodes := c.nodes[id := n]) }

  // The history may only gain what node id, now m, did.
  ghost predicate GrowsBy(h: Hist, g: Hist, id: NodeId, m: Node) {
    && Grows(h, g)
    && g.leader.Keys == g.leaderLog.Keys
    && (forall a :: a in g.voted && a !in h.voted ==>
          a.node == id && a.term <= m.term && At(a.term, g.voted[a]) in g.campaign)
    && (forall a :: a in g.campaign && a !in h.campaign ==>
          a.node == id && 1 <= a.term <= m.term &&
          Matched(g, g.campaign[a]) && TermsUpTo(g.campaign[a], a.term - 1))
    && (forall t :: t in g.leader && t !in h.leader ==> g.leader[t] == id)
    && (forall t :: t in h.leaderLog && g.leaderLog[t] != h.leaderLog[t] ==> g.leader[t] == id)
  }

  lemma LeaderGrows(h: Hist, g: Hist, t: Term, all: set<NodeId>)
    requires Grows(h, g) && LeaderOk(h, t, all) && t in h.leader
    requires g.leaderLog[t] == h.leaderLog[t]
    ensures LeaderOk(g, t, all)
  {
    var q :| ElectedBy(h, q, t, h.leader[t], all);
    assert ElectedBy(g, q, t, h.leader[t], all);
    MatchedGrows(h, g, h.leaderLog[t]);
  }

  lemma UpdateVotes(nodes: map<NodeId, Node>, h: Hist, g: Hist, id: NodeId, m: Node)
    requires VotesKept(nodes, h) && PlainNodes(nodes) && id in nodes && GrowsBy(h, g, id, m)
    requires m.term >= nodes[id].term && VoteKept(g, m) && CandidateOk(g, m, nodes.Keys)
    ensures VotesKept(nodes[id := m], g)
  {
    var nodes' := nodes[id := m];
    assert nodes'.Keys == nodes.Keys;
    forall x: NodeId ensures VoteAt(nodes', g, x) {
      assert VoteAt(nodes, h, x) && PlainAt(nodes, x);
      if x in nodes && x != id {
        var n := nodes[x];
        assert At(n.term, x) in g.voted ==> At(n.term, x) in h.voted;
      }
    }
    forall a: At ensures VotedOk(nodes', g, a) {
      assert VotedOk(nodes, h, a);
    }
    forall a: At ensures CampaignOk(nodes', g, a) {
      assert CampaignOk(nodes, h, a);
      if a in h.campaign {
        MatchedGrows(h, g, h.campaign[a]);
      }
    }
  }

  lemma UpdateLeaders(nodes: map<NodeId, Node>, h: Hist, g: Hist, id: NodeId, m: Node)
    requires Leaders(nodes, h) && PlainNodes(nodes) && id in nodes && GrowsBy(h, g, id, m)
    requires LeadsOk(g, m) && LogOk(g, m.store.log, m.term)
    requires forall t :: t in g.leader && (t !in h.leader || g.leaderLog[t] != h.leaderLog[t]) ==>
               LeaderOk(g, t, nodes.Keys)
    ensures Leaders(nodes[id := m], g)
  {
    var nodes' := nodes[id := m];
    assert nodes'.Keys == nodes.Keys;
    forall t: Term ensures LeaderOk(g, t, nodes'.Keys) {
      assert LeaderOk(h, t, nodes.Keys);
      if t in h.leader && g.leaderLog[t] == h.leaderLog[t] {
        LeaderGrows(h, g, t, nodes.Keys);
      }
    }
    forall x: NodeId ensures LeadsAt(nodes', g, x) {
      assert LeadsAt(nodes, h, x) && PlainAt(nodes, x);
      if x in nodes && x != id {
        MatchedGrows(h, g, nodes[x].store.log);
      }
    }
  }

  lemma UpdateKeeps(c: Cluster, h: Hist, g: Hist, id: NodeId, m: Node)
    requires Inv(c, h) && id in c.nodes && GrowsBy(h, g, id, m)
    requires m.term >= c.nodes[id].term && Plain(m, id, c.nodes.Keys)
    requires VoteKept(g, m) && CandidateOk(g, m, c.nodes.Keys)
    requires LeadsOk(g, m) && LogOk(g, m.store.log, m.term)
    requires forall t :: t in g.leader && (t !in h.leader || g.leaderLog[t] != h.leaderLog[t]) ==>
               LeaderOk(g, t, c.nodes.Keys)
    requires forall term: Term, voter: NodeId :: voter != id ==> Tokens(m, c.net, term, voter) <= 1
    ensures Inv(Put(c, id, m), g)
  {
    var d := Put(c, id, m);
    assert d.nodes.Keys == c.nodes.Keys;
    UpdateVotes(c.nodes, h, g, id, m);
    UpdateLeaders(c.nodes, h, g, id, m);
    forall x: NodeId ensures PlainAt(d.nodes, x) {
      assert PlainAt(c.nodes, x);
    }
    forall f: NodeId, t: NodeId, k: nat ensures FlightOk(c.net, g, c.nodes.Keys, f, t, k) {
      assert FlightOk(c.net, h, c.nodes.Keys, f, t, k);
      if k < |Queue(c.net, f, t)| {
        MsgOkGrows(h, g, f, t, Queue(c.net, f, t)[k]);
      }
    }
    forall term: Term, x: NodeId, voter: NodeId ensures TokenOk(d.nodes, c.net, term, x, voter) {
      assert TokenOk(c.nodes, c.net, term, x, voter);
    }
  }

  // --- What each move records ---

  function RecordVote(h: Hist, term: Term, voter: NodeId, candidate: NodeId): Hist {
    h.(voted := h.voted[At(term, voter) := candidate])
  }

  function RecordCampaign(h: Hist, term: Term, id: NodeId, log: Log): Hist {
    RecordVote(h, term, id, id).(campaign := h.campaign[At(term, id) := log])
  }

  function RecordAck(h: Hist, term: Term, id: NodeId, upTo: nat): Hist {
    h.(acked := h.acked[At(term, id) := upTo])
  }

  // A leader's own log counts as acknowledged by it.
  function RecordLeader(h: Hist, term: Term, id: NodeId, log: Log): Hist {
    RecordAck(h, term, id, |log|).(leader := h.leader[term := id], leaderLog := h.leaderLog[term := log])
  }

  // --- The moves ---

  // Nothing that votes, logs or messages depend on changes, except that a node
  // may fall back to follower.
  ghost predicate Quiet(n: Node, m: Node, all: set<NodeId>) {
    && Plain(m, n.id, all)
    && m.term == n.term && m.store.votedFor == n.store.votedFor && m.store.log == n.store.log
    && (m.role == n.role || m.role == Follower)
    && (m.role != Follower ==> m.election.votes == n.election.votes)
  }

  lemma QuietKeeps(c: Cluster, h: Hist, id: NodeId, m: Node)
    requires Inv(c, h) && id in c.nodes && Quiet(c.nodes[id], m, c.nodes.Keys)
    ensures Inv(Put(c, id, m), h)
  {
    Facts(c, h, id);
    forall term: Term, voter: NodeId | voter != id ensures Tokens(m, c.net, term, voter) <= 1 {
      assert TokenOk(c.nodes, c.net, term, id, voter);
    }
    UpdateKeeps(c, h, h, id, m);
  }

  // What the invariant says of one node.
  lemma Facts(c: Cluster, h: Hist, id: NodeId)
    requires Inv(c, h) && id in c.nodes
    ensures var n := c.nodes[id];
            Plain(n, id, c.nodes.Keys) && VoteKept(h, n) && CandidateOk(h, n, c.nodes.Keys) &&
            LeadsOk(h, n) && LogOk(h, n.store.log, n.term)
    ensures forall t: Term :: LeaderOk(h, t, c.nodes.Keys)
    ensures GrowsBy(h, h, id, c.nodes[id])
  {
    assert PlainAt(c.nodes, id) && VoteAt(c.nodes, h, id) && LeadsAt(c.nodes, h, id);
  }

  // A follower's log may be rewritten with any log that matches the leaders'.
  lemma FollowerKeeps(c: Cluster, h: Hist, id: NodeId, m: Node)
    requires Inv(c, h) && id in c.nodes
    requires var n := c.nodes[id];
             m.role == Follower && m.term == n.term && m.store.votedFor == n.store.votedFor
    requires Plain(m, id, c.nodes.Keys) && LogOk(h, m.store.log, m.term)
    ensures Inv(Put(c, id, m), h)
  {
    Facts(c, h, id);
    forall term: Term, voter: NodeId | voter != id ensures Tokens(m, c.net, term, voter) <= 1 {
      assert TokenOk(c.nodes, c.net, term, id, voter);
    }
    UpdateKeeps(c, h, h, id, m);
  }

  lemma StepDownKeeps(c: Cluster, h: Hist, id: NodeId, term: Term)
    requires Inv(c, h) && id in c.nodes && term > c.nodes[id].term
    ensures Inv(Put(c, id, StepDown(c.nodes[id], term)), h)
  {
    Facts(c, h, id);
    var m := StepDown(c.nodes[id], term);
    assert VotedOk(c.nodes, h, At(term, id));
    forall t: Term, voter: NodeId | voter != id ensures Tokens(m, c.net, t, voter) <= 1 {
      assert TokenOk(c.nodes, c.net, t, id, voter);
    }
    UpdateKeeps(c, h, h, id, m);
  }

  lemma GrantKeeps(c: Cluster, h: Hist, id: NodeId, candidate: NodeId)
    requires Inv(c, h) && id in c.nodes && candidate != id
    requires var n := c.nodes[id];
             (n.store.votedFor.None? || n.store.votedFor == Some(candidate)) && At(n.term, candidate) in h.campaign
    ensures var n := c.nodes[id];
            Inv(Put(c, id, n.(store := n.store.(votedFor := Some(candidate)))), RecordVote(h, n.term, id, candidate))
  {
    Facts(c, h, id);
    var n := c.nodes[id];
    var m := n.(store := n.store.(votedFor := Some(candidate)));
    var g := RecordVote(h, n.term, id, candidate);
    MatchedGrows(h, g, n.store.log);
    forall t: Term, voter: NodeId | voter != id ensures Tokens(m, c.net, t, voter) <= 1 {
      assert TokenOk(c.nodes, c.net, t, id, voter);
    }
    UpdateKeeps(c, h, g, id, m);
  }

  // No vote for a node's future term exists.
  lemma NoTokensAhead(c: Cluster, h: Hist, id: NodeId, term: Term, voter: NodeId)
    requires Inv(c, h) && id in c.nodes && term > c.nodes[id].term
    ensures Requests(Queue(c.net, id, voter), term) == 0 && Grants(Queue(c.net, voter, id), term) == 0
  {
    assert CampaignOk(c.nodes, h, At(term, id));
    var q, r := Queue(c.net, id, voter), Queue(c.net, voter, id);
    forall k: nat | k < |q| ensures !(q[k].RequestVote? && q[k].term == term) {
      assert FlightOk(c.net, h, c.nodes.Keys, id, voter, k);
    }
    forall k: nat | k < |r| ensures r[k] != RequestVoteResponse(term, true) {
      assert FlightOk(c.net, h, c.nodes.Keys, voter, id, k);
      assert VotedOk(c.nodes, h, At(term, voter));
    }
    CountsVanish(q, r, term);
  }

  lemma {:induction false} CountsVanish(q: seq<Msg>, r: seq<Msg>, term: Term)
    requires forall k :: 0 <= k < |q| ==> !(q[k].RequestVote? && q[k].term == term)
    requires forall k :: 0 <= k < |r| ==> r[k] != RequestVoteResponse(term, true)
    ensures Requests(q, term) == 0 && Grants(r, term) == 0
  {
    if q != [] {
      CountsVanish(q[..|q| - 1], r, term);
    } else if r != [] {
      CountsVanish(q, r[..|r| - 1], term);
    }
  }

  // A node that campaigns, before it has asked anyone.
  function Campaigner(n: Node): Node {
    n.(term := n.term + 1, store := CampaignStore(n.id, n.term + 1, n.store),
       election := Elections.StartElection(n.election, n.id), role := Candidate)
  }

  lemma CampaignTokens(c: Cluster, h: Hist, id: NodeId, term: Term, voter: NodeId)
    requires Inv(c, h) && id in c.nodes && voter != id
    ensures var m := Campaigner(c.nodes[id]);
            Tokens(m, c.net, term, voter) <= 1 && (term == m.term ==> Tokens(m, c.net, term, voter) == 0)
  {
    assert PlainAt(c.nodes, id) && TokenOk(c.nodes, c.net, term, id, voter);
    if term == c.nodes[id].term + 1 {
      NoTokensAhead(c, h, id, term, voter);
    }
  }

  lemma NewCampaign(h: Hist, g: Hist, id: NodeId, m: Node, log: Log)
    requires m.term >= 1 && g == RecordCampaign(h, m.term, id, log)
    requires At(m.term, id) !in h.voted && At(m.term, id) !in h.campaign && h.leader.Keys == h.leaderLog.Keys
    requires Matched(h, log) && TermsUpTo(log, m.term - 1)
    ensures GrowsBy(h, g, id, m)
  {
    MatchedGrows(h, g, log);
  }

  lemma CampaignGrows(c: Cluster, h: Hist, id: NodeId)
    requires Inv(c, h) && id in c.nodes
    ensures var n := c.nodes[id];
            GrowsBy(h, RecordCampaign(h, n.term + 1, id, n.store.log), id, Campaigner(n))
  {
    Facts(c, h, id);
    var n := c.nodes[id];
    assert VotedOk(c.nodes, h, At(n.term + 1, id)) && CampaignOk(c.nodes, h, At(n.term + 1, id));
    NewCampaign(h, RecordCampaign(h, n.term + 1, id, n.store.log), id, Campaigner(n), n.store.log);
  }

  lemma CampaignKeeps(c: Cluster, h: Hist, id: NodeId)
    requires Inv(c, h) && id in c.nodes
    ensures var n := c.nodes[id];
            Inv(Put(c, id, Campaigner(n)), RecordCampaign(h, n.term + 1, id, n.store.log))
  {
    Facts(c, h, id);
    var n := c.nodes[id];
    var m := Campaigner(n);
    var g := RecordCampaign(h, m.term, id, n.store.log);
    CampaignGrows(c, h, id);
    assert CampaignOk(c.nodes, h, At(m.term, id)) && LeaderOk(h, m.term, c.nodes.Keys);
    MatchedGrows(h, g, n.store.log);
    forall t: Term, voter: NodeId | voter != id ensures Tokens(m, c.net, t, voter) <= 1 {
      CampaignTokens(c, h, id, t, voter);
    }
    UpdateKeeps(c, h, g, id, m);
  }

  lemma CountVoteKeeps(c: Cluster, h: Hist, id: NodeId, from: NodeId)
    requires Inv(c, h) && id in c.nodes && from in c.nodes && from != id
    requires var n := c.nodes[id];
             n.role == Candidate && Voter(h, from, n.term, id) && Tokens(n, c.net, n.term, from) == 0
    ensures var n := c.nodes[id];
            Inv(Put(c, id, n.(election := n.election.(votes := n.election.votes + [from]))), h)
  {
    Facts(c, h, id);
    var n := c.nodes[id];
    var m := n.(election := n.election.(votes := n.election.votes + [from]));
    assert multiset(n.election.votes)[from] == 0;
    forall term: Term, voter: NodeId | voter != id ensures Tokens(m, c.net, term, voter) <= 1 {
      assert TokenOk(c.nodes, c.net, term, id, voter);
      assert multiset(m.election.votes) == multiset(n.election.votes) + multiset{from};
    }
    UpdateKeeps(c, h, h, id, m);
  }

  // A candidate with a quorum of votes is the first leader of its term.
  lemma WinnerIsNew(c: Cluster, h: Hist, id: NodeId)
    requires Inv(c, h) && id in c.nodes
    requires var n := c.nodes[id]; n.role == Candidate && HasQuorum(n.config.members, |n.election.votes|)
    ensures var n := c.nodes[id];
            n.term !in h.leader && ElectedBy(h, Elements(n.election.votes), n.term, id, c.nodes.Keys)
  {
    Facts(c, h, id);
    var n := c.nodes[id];
    VotesMakeQuorum(n.election.votes, n.config.members);
    var q := Elements(n.election.votes);
    if n.term in h.leader {
      assert LeaderOk(h, n.term, c.nodes.Keys);
      var q' :| ElectedBy(h, q', n.term, h.leader[n.term], c.nodes.Keys);
      var v := QuorumsMeet(q, q', c.nodes.Keys);
      assert false;
    }
  }

  lemma NewLeaderOk(h: Hist, term: Term, id: NodeId, log: Log, q: set<NodeId>, all: set<NodeId>)
    requires term >= 1 && id in all && term !in h.leader && term !in h.leaderLog && ElectedBy(h, q, term, id, all)
    requires At(term, id) in h.campaign && h.campaign[At(term, id)] == log && LogOk(h, log, term)
    ensures LeaderOk(RecordLeader(h, term, id, log), term, all)
  {
    var g := RecordLeader(h, term, id, log);
    assert ElectedBy(g, q, term, id, all);
    MatchedGrows(h, g, log);
  }

  lemma ElectKeeps(c: Cluster, h: Hist, id: NodeId, m: Node)
    requires Inv(c, h) && id in c.nodes
    requires var n := c.nodes[id];
             n.role == Candidate && HasQuorum(n.config.members, |n.election.votes|) &&
             m == n.(role := Leader, repl := m.repl)
    requires Plain(m, id, c.nodes.Keys)
    ensures m.term !in h.leader && Grows(h, RecordLeader(h, m.term, id, m.store.log))
    ensures Inv(Put(c, id, m), RecordLeader(h, m.term, id, m.store.log))
  {
    WinnerIsNew(c, h, id);
    Facts(c, h, id);
    var g := RecordLeader(h, m.term, id, m.store.log);
    assert CampaignOk(c.nodes, h, At(m.term, id));
    NewLeaderOk(h, m.term, id, m.store.log, Elements(m.election.votes), c.nodes.Keys);
    MatchedGrows(h, g, m.store.log);
    forall t: Term, voter: NodeId | voter != id ensures Tokens(m, c.net, t, voter) <= 1 {
      assert TokenOk(c.nodes, c.net, t, id, voter);
    }
    UpdateKeeps(c, h, g, id, m);
  }

  lemma LongerLeaderOk(h: Hist, term: Term, e: LogEntry, all: set<NodeId>)
    requires term in h.leader && LeaderOk(h, term, all) && e.term == term && e.entryType.Command?
    ensures var log := h.leaderLog[term] + [e];
            var g := RecordLeader(h, term, h.leader[term], log);
            Grows(h, g) && LeaderOk(g, term, all)
  {
    var id, log := h.leader[term], h.leaderLog[term] + [e];
    var g := RecordLeader(h, term, id, log);
    var q :| ElectedBy(h, q, term, id, all);
    assert ElectedBy(g, q, term, id, all);
    AppendMatched(h, g, h.leaderLog[term], e);
  }

  lemma LeaderAppendKeeps(c: Cluster, h: Hist, id: NodeId, e: LogEntry)
    requires Inv(c, h) && id in c.nodes
    requires c.nodes[id].role == Leader && e.term == c.nodes[id].term && e.entryType.Command?
    ensures var n := c.nodes[id];
            var m := n.(store := n.store.Append([e]));
            Inv(Put(c, id, m), RecordLeader(h, m.term, id, m.store.log))
  {
    Facts(c, h, id);
    var n := c.nodes[id];
    var m := n.(store := n.store.Append([e]));
    var g := RecordLeader(h, m.term, id, m.store.log);
    LongerLeaderOk(h, m.term, e, c.nodes.Keys);
    forall t: Term, voter: NodeId | voter != id ensures Tokens(m, c.net, t, voter) <= 1 {
      assert TokenOk(c.nodes, c.net, t, id, voter);
    }
    UpdateKeeps(c, h, g, id, m);
  }

  lemma AppendMatched(h: Hist, g: Hist, log: Log, e: LogEntry)
    requires Grows(h, g) && Matched(h, log)
    requires e.term in g.leaderLog && g.leaderLog[e.term] == log + [e]
    ensures Matched(g, log + [e])
  {
    MatchedGrows(h, g, log);
    forall i | 0 <= i < |log + [e]| ensures MatchedAt(g, log + [e], i) {
      if i < |log| {
        assert MatchedAt(g, log, i);
      }
    }
  }
}
