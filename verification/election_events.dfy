// Timers, votes and elections keep the invariants.
module ElectionEvents {
  import opened Types
  import opened Configurations
  import opened Elections
  import opened Replication
  import opened Nodes
  import opened Clusters
  import opened Histories
  import opened Steps
  import opened Moves
  import opened Commitment
  import opened CommitmentMoves
  import opened Events

  // The cluster after node id has taken a step.
  function After(c: Cluster, id: NodeId, s: Step): Cluster {
    Cluster(c.nodes[id := s.node], Post(c.net, id, s.sent))
  }

  lemma EvolvesTransitive(f: Hist, g: Hist, h: Hist, strong: bool)
    requires Evolves(f, g, strong) && Evolves(g, h, strong)
    ensures Evolves(f, h, strong)
  {
    GrowsTransitive(f, g, h);
  }

  lemma AfterTwice(c: Cluster, id: NodeId, s1: Step, s2: Step)
    ensures After(After(c, id, s1), id, s2) == After(c, id, Step(s2.node, s1.sent + s2.sent))
  {
    PostConcat(c.net, id, s1.sent, s2.sent);
  }

  lemma AfterQuietly(c: Cluster, id: NodeId, n: Node, s: Step)
    ensures After(Put(c, id, n), id, s) == After(c, id, s)
    ensures After(c, id, Step(n, [])) == Put(c, id, n)
    ensures id in c.nodes && c.nodes[id] == n ==> Put(c, id, n) == c
  {
  }

  // The plain facts about a node that handlers look at.
  lemma Basics(c: Cluster, h: Hist, id: NodeId)
    requires Inv(c, h) && id in c.nodes
    ensures var n := c.nodes[id];
            && n.id == id && n.term == n.store.currentTerm
            && n.store.LastLogIndex() == |n.store.log| && n.store.LastLogTerm() == LastTerm(n.store.log)
            && |n.config.members| > 0 && n.config.members[0] == id
  {
    assert PlainAt(c.nodes, id);
  }

  lemma SamePlain(c: Cluster, h: Hist, id: NodeId, m: Node)
    requires Inv(c, h) && id in c.nodes
    requires var n := c.nodes[id];
             m.id == n.id && m.term == n.term && m.store == n.store && m.repl == n.repl && m.config == n.config
    requires m.role == c.nodes[id].role && m.election.votes == c.nodes[id].election.votes
    ensures Quiet(c.nodes[id], m, c.nodes.Keys)
  {
    assert PlainAt(c.nodes, id);
  }

  // A node changes nothing that matters, not even its commit index.
  lemma Idle(c: Cluster, h: Hist, strong: bool, id: NodeId, m: Node)
    requires Holds(c, h, strong) && id in c.nodes && Quiet(c.nodes[id], m, c.nodes.Keys)
    requires m.sm == c.nodes[id].sm && m.repl == c.nodes[id].repl
    ensures Holds(Put(c, id, m), h, strong)
  {
    QuietKeeps(c, h, id, m);
    if strong {
      assert PlainAt(c.nodes, id) && NodeOk(c.nodes, h, id);
      CommitCarries(h, c.nodes.Keys, c.nodes[id], m);
      MatchCarries(h, h, c.nodes[id], m);
      StrongQuiet(c, h, id, m);
    }
  }

  lemma SteppedDown(c: Cluster, h: Hist, strong: bool, id: NodeId, term: Term)
    requires Holds(c, h, strong) && id in c.nodes && term > c.nodes[id].term
    ensures Holds(Put(c, id, StepDown(c.nodes[id], term)), h, strong)
  {
    StepDownKeeps(c, h, id, term);
    if strong {
      var m := StepDown(c.nodes[id], term);
      assert PlainAt(c.nodes, id) && NodeOk(c.nodes, h, id);
      CommitCarries(h, c.nodes.Keys, c.nodes[id], m);
      StrongQuiet(c, h, id, m);
    }
  }

  // --- Winning an election ---

  lemma LeaderStatePlain(n: Node, all: set<NodeId>)
    requires Plain(n, n.id, all)
    ensures var m := n.(role := Leader, repl := InitializeLeaderState(n.repl, n.config.members, n.store));
            Plain(m, n.id, all) && forall v :: v in m.repl.matchIndex ==> m.repl.matchIndex[v] == 0
  {
    var r := InitializeLeaderState(n.repl, n.config.members, n.store);
    forall v | v in r.matchIndex ensures r.matchIndex[v] == 0 {
      assert v in all && v in Elements(n.config.members);
    }
  }

  lemma Won(c: Cluster, h: Hist, strong: bool, id: NodeId, m: Node) returns (g: Hist)
    requires Holds(c, h, strong) && id in c.nodes
    requires var n := c.nodes[id];
             n.role == Candidate && HasQuorum(n.config.members, |n.election.votes|) && m == BecomeLeader(n).node
    ensures Holds(Put(c, id, m), g, strong) && Evolves(h, g, strong)
  {
    var n := c.nodes[id];
    assert PlainAt(c.nodes, id);
    LeaderStatePlain(n, c.nodes.Keys);
    g := RecordLeader(h, m.term, id, m.store.log);
    ElectKeeps(c, h, id, m);
    if strong {
      var d := Put(c, id, m);
      assert Wins(c, h, d, g, id, m);
      WinGrows(c, h, d, g, id, m);
      StrongElect(c, h, d, g, id, m);
    }
  }

  lemma BecomeLeaderHolds(c: Cluster, h: Hist, strong: bool, id: NodeId) returns (g: Hist)
    requires Holds(c, h, strong) && id in c.nodes
    requires var n := c.nodes[id]; n.role == Candidate && HasQuorum(n.config.members, |n.election.votes|)
    ensures Holds(After(c, id, BecomeLeader(c.nodes[id])), g, strong) && Evolves(h, g, strong)
  {
    var m := BecomeLeader(c.nodes[id]).node;
    g := Won(c, h, strong, id, m);
    SendToFollowers(Put(c, id, m), g, strong, id);
  }

  // --- Starting an election ---

  function Request(n: Node): Msg {
    RequestVote(n.term, n.id, n.store.LastLogIndex(), n.store.LastLogTerm())
  }

  lemma PeersOk(c: Cluster, h: Hist, id: NodeId)
    requires Inv(c, h) && id in c.nodes
    ensures var to := Peers(c.nodes[id].config.members, id);
            Distinct(to) && forall v :: v in to ==> v in c.nodes && v != id
  {
    assert PlainAt(c.nodes, id);
    WithoutDistinct(c.nodes[id].config.members, id);
  }

  // A campaigner may ask every peer for its vote: none can have been promised.
  lemma RequestsAllowed(c: Cluster, h: Hist, id: NodeId)
    requires Inv(c, h) && id in c.nodes
    ensures var n := c.nodes[id];
            var m := Campaigner(n);
            (forall v: NodeId :: v != id ==> Tokens(m, c.net, m.term, v) == 0) &&
            forall v: NodeId :: MsgOk(RecordCampaign(h, m.term, id, n.store.log), id, v, Request(m))
  {
    Basics(c, h, id);
    var m := Campaigner(c.nodes[id]);
    forall v: NodeId | v != id ensures Tokens(m, c.net, m.term, v) == 0 {
      CampaignTokens(c, h, id, m.term, v);
    }
  }

  lemma CampaignHolds(c: Cluster, h: Hist, strong: bool, id: NodeId) returns (g: Hist)
    requires Holds(c, h, strong) && id in c.nodes
    ensures var m := Campaigner(c.nodes[id]);
            Holds(After(c, id, Step(m, Broadcast(Peers(m.config.members, id), Request(m)))), g, strong)
    ensures Evolves(h, g, strong)
  {
    var n := c.nodes[id];
    assert VotedOk(c.nodes, h, At(n.term + 1, id)) && CampaignOk(c.nodes, h, At(n.term + 1, id));
    var m := Campaigner(n);
    var d := Put(c, id, m);
    g := RecordCampaign(h, m.term, id, n.store.log);
    CampaignGrowth(c.nodes, h, m.term, id, n.store.log);
    CampaignKeeps(c, h, id);
    RequestsAllowed(c, h, id);
    PeersOk(c, h, id);
    RequestVotes(d, g, id, Peers(m.config.members, id), Request(m));
    if strong {
      StrongCampaign(c, h, id);
      RequestsStrong(d, g, id, Peers(m.config.members, id), Request(m));
    }
  }

  lemma AloneWins(c: Cluster, h: Hist, d: Cluster, id: NodeId)
    requires Inv(c, h) && id in c.nodes && |c.nodes[id].config.members| <= 1
    requires id in d.nodes && d.nodes[id] == Campaigner(c.nodes[id])
    ensures var m := d.nodes[id]; m.role == Candidate && HasQuorum(m.config.members, |m.election.votes|)
  {
  }

  lemma BeginElectionSteps(n: Node)
    ensures var m := Campaigner(n);
            var s := Step(m, Broadcast(Peers(m.config.members, n.id), Request(m)));
            BeginElection(n) ==
            if |m.config.members| <= 1 then Step(BecomeLeader(m).node, s.sent + BecomeLeader(m).sent) else s
  {
  }

  lemma BeginElectionHolds(c: Cluster, h: Hist, strong: bool, id: NodeId) returns (g: Hist)
    requires Holds(c, h, strong) && id in c.nodes
    ensures Holds(After(c, id, BeginElection(c.nodes[id])), g, strong) && Evolves(h, g, strong)
  {
    var n := c.nodes[id];
    Basics(c, h, id);
    var m := Campaigner(n);
    var s := Step(m, Broadcast(Peers(m.config.members, id), Request(m)));
    BeginElectionSteps(n);
    g := CampaignHolds(c, h, strong, id);
    if |m.config.members| <= 1 {
      var d := After(c, id, s);
      var f := g;
      AloneWins(c, h, d, id);
      g := BecomeLeaderHolds(d, f, strong, id);
      EvolvesTransitive(h, f, g, strong);
      AfterTwice(c, id, s, BecomeLeader(m));
    }
  }

  lemma PreVoteResponseHolds(c: Cluster, h: Hist, strong: bool, id: NodeId, from: NodeId, term: Term, granted: bool)
    returns (g: Hist)
    requires Holds(c, h, strong) && id in c.nodes
    ensures Holds(After(c, id, OnPreVoteResponse(c.nodes[id], from, term, granted)), g, strong) && Evolves(h, g, strong)
  {
    var n := c.nodes[id];
    g := h;
    if term > n.term {
      AfterQuietly(c, id, n, Step(n, []));
    } else {
      var (e, start) := HandlePreVoteResponse(n.election, from, granted, n.config.members);
      var m := n.(election := e);
      SamePlain(c, h, id, m);
      Idle(c, h, strong, id, m);
      AfterQuietly(c, id, m, if start then BeginElection(m) else Step(m, []));
      if start {
        g := BeginElectionHolds(Put(c, id, m), h, strong, id);
      }
    }
  }

  lemma PreVotesSent(c: Cluster, h: Hist, strong: bool, id: NodeId, m: Node)
    requires Holds(c, h, strong) && id in c.nodes
    requires m == c.nodes[id].(election := Elections.StartPreVote(c.nodes[id].election, id))
    ensures var request := PreVoteRequestOf(id, m.term, m.store);
            Holds(After(c, id, Step(m, Broadcast(Peers(m.config.members, id), request))), h, strong)
  {
    SamePlain(c, h, id, m);
    Idle(c, h, strong, id, m);
    PeersOk(c, h, id);
    SendAll(Put(c, id, m), h, strong, id, Peers(m.config.members, id), PreVoteRequestOf(id, m.term, m.store));
  }

  lemma ElectionTimerSteps(n: Node)
    requires n.role != Leader
    ensures var m := n.(election := Elections.StartPreVote(n.election, n.id));
            var s := Step(m, Broadcast(Peers(m.config.members, n.id), PreVoteRequestOf(n.id, m.term, m.store)));
            OnElectionTimer(n) ==
            if |m.config.members| <= 1 then Step(BeginElection(m).node, s.sent + BeginElection(m).sent) else s
  {
  }

  lemma ElectionTimerHolds(c: Cluster, h: Hist, strong: bool, id: NodeId) returns (g: Hist)
    requires Holds(c, h, strong) && id in c.nodes
    ensures Holds(After(c, id, OnElectionTimer(c.nodes[id])), g, strong) && Evolves(h, g, strong)
  {
    var n := c.nodes[id];
    g := h;
    if n.role == Leader {
      AfterQuietly(c, id, n, Step(n, []));
    } else {
      Basics(c, h, id);
      ElectionTimerSteps(n);
      var m := n.(election := Elections.StartPreVote(n.election, id));
      var s := Step(m, Broadcast(Peers(m.config.members, id), PreVoteRequestOf(id, m.term, m.store)));
      PreVotesSent(c, h, strong, id, m);
      if |n.config.members| <= 1 {
        g := BeginElectionHolds(After(c, id, s), h, strong, id);
        AfterTwice(c, id, s, BeginElection(m));
      }
    }
  }

  // --- Voting ---

  // A vote request that does not raise the term.
  lemma VoteHolds(c: Cluster, h: Hist, strong: bool, id: NodeId, from: NodeId, term: Term, lastLogIndex: LogIndex,
                  lastLogTerm: Term) returns (g: Hist)
    requires Holds(c, h, strong) && id in c.nodes && from in c.nodes && from != id && term <= c.nodes[id].term
    requires var m := RequestVote(term, from, lastLogIndex, lastLogTerm);
             MsgOk(h, from, id, m) && TokenFree(c.nodes, c.net, from, id, m)
    ensures Holds(After(c, id, OnVoteRequest(c.nodes[id], from, term, from, lastLogIndex, lastLogTerm)), g, strong)
    ensures Evolves(h, g, strong)
  {
    var n := c.nodes[id];
    Basics(c, h, id);
    var v := HandleVoteRequest(term, from, lastLogIndex, lastLogTerm, n.term, n.store);
    var m := n.(term := v.term, store := v.store);
    var d := Put(c, id, m);
    if v.reply.voteGranted {
      g := RecordVote(h, term, id, from);
      GrantKeeps(c, h, id, from);
      assert VoteAt(c.nodes, h, id);
      VoteGrows(c.nodes, h, term, id, from);
      if strong {
        StrongGrant(c, h, id, from);
      }
    } else {
      g := h;
      AfterQuietly(c, id, n, Step(n, []));
    }
    ReplyToVote(c, d, g, strong, id, from, term, v.reply);
  }

  lemma ReplyToVote(c: Cluster, d: Cluster, g: Hist, strong: bool, id: NodeId, from: NodeId, term: Term, reply: Msg)
    requires Holds(d, g, strong) && id in c.nodes && from in c.nodes && from != id
    requires d.net == c.net && d.nodes.Keys == c.nodes.Keys && d.nodes[from] == c.nodes[from]
    requires reply.RequestVoteResponse? && (reply.voteGranted ==> reply.term == term && Voter(g, id, term, from))
    requires Tokens(c.nodes[from], c.net, term, id) == 0
    ensures Holds(d.(net := Post(d.net, id, [Envelope(from, reply)])), g, strong)
  {
    ModestJoins(d, g, id, from, reply);
    SendOne(d, g, strong, id, from, reply);
  }

  lemma VoteRequestHolds(c: Cluster, h: Hist, strong: bool, id: NodeId, from: NodeId, term: Term,
                         lastLogIndex: LogIndex,
                         lastLogTerm: Term) returns (g: Hist)
    requires Holds(c, h, strong) && id in c.nodes && from in c.nodes && from != id
    requires var m := RequestVote(term, from, lastLogIndex, lastLogTerm);
             MsgOk(h, from, id, m) && TokenFree(c.nodes, c.net, from, id, m)
    ensures Holds(After(c, id, OnVoteRequest(c.nodes[id], from, term, from, lastLogIndex, lastLogTerm)), g, strong)
    ensures Evolves(h, g, strong)
  {
    var n := c.nodes[id];
    if term > n.term {
      SteppedDown(c, h, strong, id, term);
      var m := StepDown(n, term);
      AfterQuietly(c, id, m, OnVoteRequest(m, from, term, from, lastLogIndex, lastLogTerm));
      g := VoteHolds(Put(c, id, m), h, strong, id, from, term, lastLogIndex, lastLogTerm);
    } else {
      g := VoteHolds(c, h, strong, id, from, term, lastLogIndex, lastLogTerm);
    }
  }

  lemma VoteCounted(c: Cluster, h: Hist, strong: bool, id: NodeId, from: NodeId, m: Node)
    requires Holds(c, h, strong) && id in c.nodes && from in c.nodes && from != id
    requires var n := c.nodes[id];
             n.role == Candidate && Voter(h, from, n.term, id) && Tokens(n, c.net, n.term, from) == 0 &&
             m == n.(election := n.election.(votes := n.election.votes + [from]))
    ensures Holds(Put(c, id, m), h, strong)
  {
    CountVoteKeeps(c, h, id, from);
    if strong {
      assert PlainAt(c.nodes, id) && NodeOk(c.nodes, h, id);
      CommitCarries(h, c.nodes.Keys, c.nodes[id], m);
      StrongQuiet(c, h, id, m);
    }
  }

  lemma VoteResponseHolds(c: Cluster, h: Hist, strong: bool, id: NodeId, from: NodeId, term: Term, granted: bool)
    returns (g: Hist)
    requires Holds(c, h, strong) && id in c.nodes && from in c.nodes && from != id
    requires var m := RequestVoteResponse(term, granted);
             MsgOk(h, from, id, m) && TokenFree(c.nodes, c.net, from, id, m)
    ensures Holds(After(c, id, OnVoteResponse(c.nodes[id], from, term, granted)), g, strong) && Evolves(h, g, strong)
  {
    var n := c.nodes[id];
    g := h;
    if term > n.term {
      SteppedDown(c, h, strong, id, term);
      AfterQuietly(c, id, StepDown(n, term), Step(StepDown(n, term), []));
    } else if n.role != Candidate || term != n.term || !granted {
      AfterQuietly(c, id, n, Step(n, []));
    } else {
      var m := n.(election := n.election.(votes := n.election.votes + [from]));
      VoteCounted(c, h, strong, id, from, m);
      AfterQuietly(c, id, m, BecomeLeader(m));
      if HasQuorum(n.config.members, |m.election.votes|) {
        g := BecomeLeaderHolds(Put(c, id, m), h, strong, id);
      }
    }
  }

  lemma PreVoteRequestHolds(c: Cluster, h: Hist, strong: bool, id: NodeId, from: NodeId, term: Term,
                            lastLogIndex: LogIndex, lastLogTerm: Term)
    requires Holds(c, h, strong) && id in c.nodes && from in c.nodes && from != id
    ensures Holds(After(c, id, OnPreVoteRequest(c.nodes[id], from, term, lastLogIndex, lastLogTerm)), h, strong)
  {
    var n := c.nodes[id];
    var reply := PreVoteReply(term, lastLogIndex, lastLogTerm, n.term, n.store);
    AfterQuietly(c, id, n, Step(n, []));
    ModestJoins(c, h, id, from, reply);
    SendOne(c, h, strong, id, from, reply);
  }
}
