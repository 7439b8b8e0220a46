// Votes and elections whatever happens to the logs: links that reorder and
// lose, crashes, snapshots taken and installed, logs compacted.
module Ballots {
  import opened Types
  import opened Configurations
  import opened Storage
  import opened Elections
  import opened Replication
  import opened Nodes
  import opened Clusters
  import opened Histories
  import opened Steps
  import opened Moves
  import opened Events
  import opened ElectionEvents
  import opened ReplicationEvents
  import NodeRuns
  import Durability

  // --- What one node's step can do to its ballot ---

  // The node still stands for nothing new.
  ghost predicate SameBallot(n: Node, m: Node) {
    && m.id == n.id && m.term == n.term && m.config.members == n.config.members
    && m.store.currentTerm == n.store.currentTerm && m.store.votedFor == n.store.votedFor
    && (m.role == n.role || m.role == Follower)
    && (m.role != Follower ==> m.election.votes == n.election.votes)
  }

  // The node has learned of a newer term.
  ghost predicate RaisedBallot(n: Node, m: Node) {
    && m.id == n.id && m.term > n.term && m.config.members == n.config.members
    && m.store.currentTerm == m.term && m.store.votedFor == None && m.role == Follower
  }

  // A message that carries neither a vote nor a configuration change.
  ghost predicate Harmless(m: Msg) { Voteless(m) && (m.AppendEntries? ==> AllCommands(m.entries)) }

  // Messages only the leader of their term sends.
  predicate Ruling(m: Msg) { m.AppendEntries? || m.InstallSnapshot? }

  ghost predicate Sayable(n: Node, m: Msg) { Harmless(m) && (Ruling(m) ==> n.role == Leader && m.term == n.term) }

  ghost predicate Tame(n: Node, m: Node, sent: seq<Envelope>) {
    && (SameBallot(n, m) || RaisedBallot(n, m))
    && AllCommands(m.store.log)
    && forall e :: e in sent ==> Sayable(m, e.msg)
  }

  lemma AppendTame(n: Node, from: NodeId, m: Msg)
    requires m.AppendEntries? && AllCommands(n.store.log) && AllCommands(m.entries) && n.term == n.store.currentTerm
    ensures var s := OnMessage(n, from, m); Tame(n, s.node, s.sent) && forall e :: e in s.sent ==> e.to == from
  {
    var written := WriteEntries(n.store, m.prevLogIndex, m.entries);
    if m.term <= n.term {
      NoChanges(written, n.repl.lastApplied, Min(m.leaderCommit, written.LastLogIndex()));
    }
  }

  lemma SnapshotTame(n: Node)
    requires AllCommands(n.store.log)
    ensures var m := TakeSnapshot(n);
            && m == n.(store := m.store) && AllCommands(m.store.log)
            && m.store.currentTerm == n.store.currentTerm && m.store.votedFor == n.store.votedFor
  {
  }

  lemma ResponseTame(n: Node, from: NodeId, m: Msg)
    requires m.AppendEntriesResponse? && AllCommands(n.store.log) && n.term == n.store.currentTerm
    ensures var s := OnMessage(n, from, m); Tame(n, s.node, s.sent) && s.sent == []
  {
    if n.role == Leader && m.term == n.term {
      var a := HandleAppendEntriesResponse(n.repl, from, m.success, m.matchIndex, n.store, n.sm, n.config.members,
                                           n.id);
      NoChanges(n.store, n.repl.lastApplied, a.repl.commitIndex);
      assert a.changes == [];
      SnapshotTame(n.(repl := a.repl, sm := a.sm));
    }
  }

  lemma InstallTame(n: Node, from: NodeId, m: Msg)
    requires m.InstallSnapshot? && AllCommands(n.store.log) && n.term == n.store.currentTerm
    ensures var s := OnMessage(n, from, m); Tame(n, s.node, s.sent) && forall e :: e in s.sent ==> e.to == from
  {
  }

  lemma AppendIsSayable(n: Node, peer: NodeId)
    requires AllCommands(n.store.log) && n.role == Leader && n.term == n.store.currentTerm
    ensures Sayable(n, GetAppendEntriesForPeer(n.repl, peer, n.id, n.store))
  {
  }

  lemma {:induction false} AppendsTame(n: Node, to: seq<NodeId>)
    requires AllCommands(n.store.log) && n.role == Leader && n.term == n.store.currentTerm
    ensures forall e :: e in AppendEntriesTo(n, to) ==> Sayable(n, e.msg) && e.to in to
  {
    if to != [] {
      AppendsTame(n, to[..|to| - 1]);
      AppendIsSayable(n, to[|to| - 1]);
    }
  }

  lemma SendsTame(n: Node)
    requires AllCommands(n.store.log) && n.role == Leader && n.term == n.store.currentTerm
    ensures forall e :: e in SendAppendEntriesToFollowers(n) ==>
              Sayable(n, e.msg) && e.to in n.config.members && e.to != n.id
  {
    AppendsTame(n, Peers(n.config.members, n.id));
  }

  lemma ClientTame(n: Node, payload: string)
    requires AllCommands(n.store.log) && n.term == n.store.currentTerm
    ensures var s := OnEvent(n, ClientCommand(payload));
            Tame(n, s.node, s.sent) && forall e :: e in s.sent ==> e.to in n.config.members && e.to != n.id
  {
    if n.role == Leader {
      var n1 := n.(store := n.store.Append([LogEntry(n.term, Command(payload))]));
      var a := AdvanceCommitIndex(n1.repl, n1.store, n1.sm, n1.config.members, n1.id);
      NoChanges(n1.store, n1.repl.lastApplied, a.repl.commitIndex);
      assert a.changes == [];
      SendsTame(AppendAsLeader(n, Command(payload)).node);
    }
  }

  // --- The invariant ---

  // Its own vote comes first and once; without duplication every vote does.
  predicate OwnVoteFirst(votes: seq<NodeId>, id: NodeId) {
    votes != [] && votes[0] == id && forall i :: 0 < i < |votes| ==> votes[i] != id
  }

  ghost predicate Runner(h: Hist, once: bool, n: Node, all: set<NodeId>) {
    n.role != Follower ==>
      && n.store.votedFor == Some(n.id)
      && OwnVoteFirst(n.election.votes, n.id)
      && (once ==> Distinct(n.election.votes))
      && (forall v :: v in n.election.votes ==> v in all && Voter(h, v, n.term, n.id))
      && (n.role == Candidate ==> !(n.term in h.leader && h.leader[n.term] == n.id))
  }

  ghost predicate Belongs(n: Node, id: NodeId, all: set<NodeId>) {
    && n.id == id && n.term == n.store.currentTerm && AllCommands(n.store.log)
    && Distinct(n.config.members) && Elements(n.config.members) == all
    && |n.config.members| > 0 && n.config.members[0] == id
  }

  ghost predicate BallotNode(h: Hist, once: bool, n: Node, id: NodeId, all: set<NodeId>) {
    && Belongs(n, id, all) && VoteKept(h, n) && Runner(h, once, n, all)
    && (n.role == Leader ==> n.term in h.leader && h.leader[n.term] == id)
  }

  ghost predicate BallotAt(nodes: map<NodeId, Node>, h: Hist, once: bool, id: NodeId) {
    id in nodes ==> BallotNode(h, once, nodes[id], id, nodes.Keys)
  }

  // No vote is ahead of its voter's term or its candidate's.
  ghost predicate CastOk(nodes: map<NodeId, Node>, h: Hist, a: At) {
    a in h.voted ==>
      && a.node in nodes && a.term <= nodes[a.node].term
      && h.voted[a] in nodes && a.term <= nodes[h.voted[a]].term
  }

  ghost predicate ElectOk(h: Hist, t: Term, all: set<NodeId>) {
    t in h.leader ==> h.leader[t] in all && exists q :: ElectedBy(h, q, t, h.leader[t], all)
  }

  ghost predicate Carried(h: Hist, nodes: map<NodeId, Node>, from: NodeId, to: NodeId, m: Msg)
    requires from in nodes
  {
    && (m.RequestVote? ==> m.candidateId == from && m.term <= nodes[from].term)
    && (m.RequestVoteResponse? && m.voteGranted ==> Voter(h, from, m.term, to))
    && (m.AppendEntries? ==> AllCommands(m.entries))
    && (Ruling(m) ==> m.term in h.leader && h.leader[m.term] == from)
  }

  ghost predicate FlightAt(c: Cluster, h: Hist, f: NodeId, t: NodeId, k: nat) {
    k < |Queue(c.net, f, t)| ==>
      f != t && f in c.nodes && t in c.nodes && Carried(h, c.nodes, f, t, Queue(c.net, f, t)[k])
  }

  // What holds of votes and leaders in every reachable state; once says that
  // links deliver each message at most once.
  ghost predicate Fair(c: Cluster, h: Hist, once: bool) {
    && (forall id: NodeId :: BallotAt(c.nodes, h, once, id))
    && (forall a: At :: CastOk(c.nodes, h, a))
    && (forall t: Term :: ElectOk(h, t, c.nodes.Keys))
    && (forall f: NodeId, t: NodeId, k: nat :: FlightAt(c, h, f, t, k))
    && (once ==> TokensOk(c.nodes, c.net))
  }

  ghost predicate VotesGrow(h: Hist, g: Hist) {
    && (forall a :: a in h.voted ==> a in g.voted && g.voted[a] == h.voted[a])
    && (forall t :: t in h.leader ==> t in g.leader && g.leader[t] == h.leader[t])
  }

  lemma FairNamed(c: Cluster, h: Hist, once: bool)
    requires Fair(c, h, once)
    ensures Named(c.nodes)
  {
    forall id: NodeId ensures NamedAt(c.nodes, id) {
      assert BallotAt(c.nodes, h, once, id);
    }
  }

  // --- Messages ---

  lemma FairPull(c: Cluster, h: Hist, once: bool, from: NodeId, to: NodeId, k: nat)
    requires Fair(c, h, once) && k < |Queue(c.net, from, to)|
    ensures var m := Queue(c.net, from, to)[k];
            var d := c.(net := Pull(c.net, from, to, k));
            && Fair(d, h, once) && (once ==> TokenFree(d.nodes, d.net, from, to, m))
            && from != to && from in c.nodes && to in c.nodes && Carried(h, c.nodes, from, to, m)
  {
    var d := c.(net := Pull(c.net, from, to, k));
    assert FlightAt(c, h, from, to, k);
    FairNamed(c, h, once);
    if once {
      PullTokens(c.nodes, c.net, from, to, k);
    }
    forall f: NodeId, t: NodeId, j: nat ensures FlightAt(d, h, f, t, j) {
      assert FlightAt(c, h, f, t, if f == from && t == to && j >= k then j + 1 else j);
    }
  }

  lemma FairPush(c: Cluster, h: Hist, once: bool, from: NodeId, to: NodeId, m: Msg)
    requires Fair(c, h, once) && from in c.nodes && to in c.nodes && from != to
    requires Carried(h, c.nodes, from, to, m) && (once ==> TokenFree(c.nodes, c.net, from, to, m))
    ensures Fair(c.(net := Push(c.net, from, to, m)), h, once)
  {
    var d := c.(net := Push(c.net, from, to, m));
    FairNamed(c, h, once);
    if once {
      PushTokens(c.nodes, c.net, from, to, m);
    }
    forall f: NodeId, t: NodeId, j: nat ensures FlightAt(d, h, f, t, j) {
      assert FlightAt(c, h, f, t, j);
    }
  }

  ghost predicate Mail(c: Cluster, h: Hist, id: NodeId, e: Envelope) {
    && Harmless(e.msg) && e.to in c.nodes && e.to != id
    && (Ruling(e.msg) ==> e.msg.term in h.leader && h.leader[e.msg.term] == id)
  }

  lemma {:induction false} FairPost(c: Cluster, h: Hist, once: bool, id: NodeId, sent: seq<Envelope>)
    requires Fair(c, h, once) && id in c.nodes && forall e :: e in sent ==> Mail(c, h, id, e)
    ensures Fair(c.(net := Post(c.net, id, sent)), h, once)
  {
    if sent != [] {
      var init, last := sent[..|sent| - 1], sent[|sent| - 1];
      FairPost(c, h, once, id, init);
      assert Mail(c, h, id, last);
      FairPush(c.(net := Post(c.net, id, init)), h, once, id, last.to, last.msg);
    }
  }

  lemma {:induction false} FairRequests(c: Cluster, h: Hist, once: bool, id: NodeId, to: seq<NodeId>, m: Msg)
    requires Fair(c, h, once) && id in c.nodes && m.RequestVote? && Distinct(to)
    requires m.candidateId == id && m.term <= c.nodes[id].term
    requires forall v :: v in to ==>
               v != id && v in c.nodes && (once ==> Tokens(c.nodes[id], c.net, m.term, v) == 0)
    ensures Fair(c.(net := Post(c.net, id, Broadcast(to, m))), h, once)
    ensures forall f, t :: t !in to || f != id ==> Queue(Post(c.net, id, Broadcast(to, m)), f, t) == Queue(c.net, f, t)
  {
    if to != [] {
      var init, last := to[..|to| - 1], to[|to| - 1];
      FairRequests(c, h, once, id, init, m);
      var d := c.(net := Post(c.net, id, Broadcast(init, m)));
      assert last !in init && last in to;
      FairNamed(c, h, once);
      assert NamedAt(c.nodes, id);
      FairPush(d, h, once, id, last, m);
      BroadcastContents(init, m);
      assert Broadcast(to, m)[..|to| - 1] == Broadcast(init, m);
    }
  }

  // --- One node changes ---

  ghost predicate Casts(c: Cluster, h: Hist, g: Hist, id: NodeId, m: Node)
    requires id in c.nodes
  {
    && VotesGrow(h, g) && m.term >= c.nodes[id].term
    && (forall a :: a in g.voted && a !in h.voted ==>
          a.node == id && a.term <= m.term && g.voted[a] in c.nodes &&
          a.term <= (if g.voted[a] == id then m.term else c.nodes[g.voted[a]].term))
    && (forall t :: t in g.leader && t !in h.leader ==> g.leader[t] == id)
  }

  lemma ReplaceNodes(c: Cluster, h: Hist, once: bool, g: Hist, id: NodeId, m: Node, x: NodeId, a: At)
    requires Fair(c, h, once) && id in c.nodes && Casts(c, h, g, id, m) && BallotNode(g, once, m, id, c.nodes.Keys)
    ensures BallotAt(c.nodes[id := m], g, once, x) && CastOk(c.nodes[id := m], g, a)
  {
    assert c.nodes[id := m].Keys == c.nodes.Keys;
    assert BallotAt(c.nodes, h, once, x) && CastOk(c.nodes, h, a);
  }

  lemma ReplaceFlight(c: Cluster, h: Hist, once: bool, g: Hist, id: NodeId, m: Node, f: NodeId, t: NodeId, k: nat)
    requires Fair(c, h, once) && id in c.nodes && Casts(c, h, g, id, m)
    ensures FlightAt(Put(c, id, m), g, f, t, k)
  {
    assert FlightAt(c, h, f, t, k);
  }

  lemma Replace(c: Cluster, h: Hist, g: Hist, once: bool, id: NodeId, m: Node)
    requires Fair(c, h, once) && id in c.nodes && Casts(c, h, g, id, m)
    requires forall t :: t in g.leader && t !in h.leader ==> ElectOk(g, t, c.nodes.Keys)
    requires BallotNode(g, once, m, id, c.nodes.Keys)
    requires once ==> forall term: Term, voter: NodeId :: voter != id ==> Tokens(m, c.net, term, voter) <= 1
    ensures Fair(Put(c, id, m), g, once)
  {
    var d := Put(c, id, m);
    assert d.nodes.Keys == c.nodes.Keys;
    forall x: NodeId ensures BallotAt(d.nodes, g, once, x) {
      ReplaceNodes(c, h, once, g, id, m, x, At(0, 0));
    }
    forall a: At ensures CastOk(d.nodes, g, a) {
      ReplaceNodes(c, h, once, g, id, m, id, a);
    }
    forall t: Term ensures ElectOk(g, t, c.nodes.Keys) {
      ElectGrows(h, g, t, c.nodes.Keys);
    }
    forall f: NodeId, t: NodeId, k: nat ensures FlightAt(d, g, f, t, k) {
      ReplaceFlight(c, h, once, g, id, m, f, t, k);
    }
    if once {
      forall term: Term, x: NodeId, voter: NodeId ensures TokenOk(d.nodes, c.net, term, x, voter) {
        assert TokenOk(c.nodes, c.net, term, x, voter);
      }
    }
  }

  lemma ElectGrows(h: Hist, g: Hist, t: Term, all: set<NodeId>)
    requires (forall u: Term :: ElectOk(h, u, all)) && VotesGrow(h, g)
    requires t in g.leader && t !in h.leader ==> ElectOk(g, t, all)
    ensures ElectOk(g, t, all)
  {
    assert ElectOk(h, t, all);
    if t in h.leader {
      var q :| ElectedBy(h, q, t, h.leader[t], all);
      assert ElectedBy(g, q, t, g.leader[t], all);
    }
  }

  // A step that casts no ballot.
  lemma TameKeeps(c: Cluster, h: Hist, once: bool, id: NodeId, m: Node)
    requires Fair(c, h, once) && id in c.nodes && AllCommands(m.store.log)
    requires SameBallot(c.nodes[id], m) || RaisedBallot(c.nodes[id], m)
    ensures Fair(Put(c, id, m), h, once)
  {
    var n := c.nodes[id];
    assert BallotAt(c.nodes, h, once, id) && CastOk(c.nodes, h, At(m.term, id));
    forall term: Term, voter: NodeId | once && voter != id ensures Tokens(m, c.net, term, voter) <= 1 {
      assert TokenOk(c.nodes, c.net, term, id, voter);
    }
    Replace(c, h, h, once, id, m);
  }

  lemma TameStep(c: Cluster, h: Hist, once: bool, id: NodeId, s: Step)
    requires Fair(c, h, once) && id in c.nodes && Tame(c.nodes[id], s.node, s.sent)
    requires forall e :: e in s.sent ==> e.to in c.nodes && e.to != id
    ensures Fair(After(c, id, s), h, once)
  {
    TameKeeps(c, h, once, id, s.node);
    var d := Put(c, id, s.node);
    assert BallotAt(d.nodes, h, once, id);
    forall e | e in s.sent ensures Mail(d, h, id, e) {
      assert Sayable(s.node, e.msg);
    }
    FairPost(Put(c, id, s.node), h, once, id, s.sent);
  }

  // --- Casting a vote ---

  lemma GrantFair(c: Cluster, h: Hist, once: bool, id: NodeId, candidate: NodeId)
    requires Fair(c, h, once) && id in c.nodes && candidate in c.nodes && candidate != id
    requires var n := c.nodes[id];
             (n.store.votedFor.None? || n.store.votedFor == Some(candidate)) && n.term <= c.nodes[candidate].term
    ensures var n := c.nodes[id];
            var g := RecordVote(h, n.term, id, candidate);
            VotesGrow(h, g) && Fair(Put(c, id, n.(store := n.store.(votedFor := Some(candidate)))), g, once)
  {
    var n := c.nodes[id];
    var m := n.(store := n.store.(votedFor := Some(candidate)));
    var g := RecordVote(h, n.term, id, candidate);
    assert BallotAt(c.nodes, h, once, id);
    forall term: Term, voter: NodeId | once && voter != id ensures Tokens(m, c.net, term, voter) <= 1 {
      assert TokenOk(c.nodes, c.net, term, id, voter);
    }
    Replace(c, h, g, once, id, m);
  }

  predicate Granting(n: Node, m: Msg)
    requires m.RequestVote?
  {
    ShouldGrantVote(m.term, n.term, m.candidateId, m.lastLogIndex, m.lastLogTerm, n.store)
  }

  lemma SentOne(c: Cluster, id: NodeId, m: Node, e: Envelope)
    ensures After(c, id, Step(m, [e])) == Put(c, id, m).(net := Push(c.net, id, e.to, e.msg))
  {
    PostOne(c.net, id, e);
  }

  lemma PutTwice(c: Cluster, id: NodeId, x: Node, m: Node)
    ensures Put(Put(c, id, x), id, m) == Put(c, id, m)
  {
    assert c.nodes[id := x][id := m] == c.nodes[id := m];
  }

  // The voter, at the term of the request or beyond, casts its vote and says so.
  lemma CastFair(c: Cluster, h: Hist, once: bool, id: NodeId, from: NodeId) returns (g: Hist)
    requires Fair(c, h, once) && id in c.nodes && from in c.nodes && from != id
    requires var n := c.nodes[id];
             (n.store.votedFor.None? || n.store.votedFor == Some(from)) && n.term <= c.nodes[from].term &&
             (once ==> Tokens(c.nodes[from], c.net, n.term, id) == 0)
    ensures var n := c.nodes[id];
            var v := n.(store := n.store.(votedFor := Some(from)));
            VotesGrow(h, g) &&
            Fair(Put(c, id, v).(net := Push(c.net, id, from, RequestVoteResponse(n.term, true))), g, once)
  {
    var n := c.nodes[id];
    g := RecordVote(h, n.term, id, from);
    GrantFair(c, h, once, id, from);
    FairPush(Put(c, id, n.(store := n.store.(votedFor := Some(from)))), g, once, id, from,
             RequestVoteResponse(n.term, true));
  }

  lemma VoteRequestFair(c: Cluster, h: Hist, once: bool, id: NodeId, from: NodeId, m: Msg) returns (g: Hist)
    requires Fair(c, h, once) && id in c.nodes && from in c.nodes && from != id && m.RequestVote?
    requires Carried(h, c.nodes, from, id, m) && (once ==> TokenFree(c.nodes, c.net, from, id, m))
    ensures VotesGrow(h, g) && Fair(After(c, id, OnMessage(c.nodes[id], from, m)), g, once)
  {
    var n := c.nodes[id];
    var n1 := if m.term > n.term then StepDown(n, m.term) else n;
    assert OnMessage(n, from, m) == Asked(n1, from, m);
    assert BallotAt(c.nodes, h, once, id);
    TameKeeps(c, h, once, id, n1);
    g := AskedFair(Put(c, id, n1), h, once, id, from, m);
    AskedAfter(c, id, n1, from, m);
  }

  // The voter's answer once it is at least at the request's term.
  function Asked(n: Node, from: NodeId, m: Msg): Step
    requires m.RequestVote?
  {
    var granted := Granting(n, m);
    Step(if granted then n.(store := n.store.(votedFor := Some(m.candidateId))) else n,
         [Envelope(from, RequestVoteResponse(n.term, granted))])
  }

  lemma AskedAfter(c: Cluster, id: NodeId, n1: Node, from: NodeId, m: Msg)
    requires m.RequestVote?
    ensures After(Put(c, id, n1), id, Asked(n1, from, m)) == After(c, id, Asked(n1, from, m))
  {
    PutTwice(c, id, n1, Asked(n1, from, m).node);
  }

  lemma AskedFair(c: Cluster, h: Hist, once: bool, id: NodeId, from: NodeId, m: Msg) returns (g: Hist)
    requires Fair(c, h, once) && id in c.nodes && from in c.nodes && from != id && m.RequestVote?
    requires Carried(h, c.nodes, from, id, m) && (once ==> TokenFree(c.nodes, c.net, from, id, m))
    requires m.term <= c.nodes[id].term
    ensures VotesGrow(h, g) && Fair(After(c, id, Asked(c.nodes[id], from, m)), g, once)
  {
    var n := c.nodes[id];
    if Granting(n, m) {
      g := CastFair(c, h, once, id, from);
      SentOne(c, id, n.(store := n.store.(votedFor := Some(from))), Envelope(from, RequestVoteResponse(n.term, true)));
    } else {
      g := h;
      FairPush(c, h, once, id, from, RequestVoteResponse(n.term, false));
      SentOne(c, id, n, Envelope(from, RequestVoteResponse(n.term, false)));
      assert Put(c, id, n) == c;
    }
  }

  // --- Campaigning and winning ---

  lemma NobodyAhead(c: Cluster, h: Hist, once: bool, id: NodeId, term: Term, voter: NodeId)
    requires Fair(c, h, once) && id in c.nodes && term > c.nodes[id].term
    ensures Requests(Queue(c.net, id, voter), term) == 0 && Grants(Queue(c.net, voter, id), term) == 0
  {
    var q, r := Queue(c.net, id, voter), Queue(c.net, voter, id);
    forall k: nat | k < |q| ensures !(q[k].RequestVote? && q[k].term == term) {
      assert FlightAt(c, h, id, voter, k);
    }
    forall k: nat | k < |r| ensures r[k] != RequestVoteResponse(term, true) {
      assert FlightAt(c, h, voter, id, k) && CastOk(c.nodes, h, At(term, voter));
    }
    CountsVanish(q, r, term);
  }

  // Nobody has led a term beyond its own.
  lemma NeverLed(c: Cluster, h: Hist, once: bool, id: NodeId, term: Term)
    requires Fair(c, h, once) && id in c.nodes && term > c.nodes[id].term
    ensures !(term in h.leader && h.leader[term] == id)
  {
    assert ElectOk(h, term, c.nodes.Keys);
    if term in h.leader && h.leader[term] == id {
      var q :| ElectedBy(h, q, term, id, c.nodes.Keys);
      assert q != {};
      var v :| v in q;
      NotAhead(c, h, once, id, term, v);
      assert false;
    }
  }

  lemma NotAhead(c: Cluster, h: Hist, once: bool, id: NodeId, term: Term, v: NodeId)
    requires Fair(c, h, once) && id in c.nodes && term > c.nodes[id].term
    ensures !Voter(h, v, term, id)
  {
    assert CastOk(c.nodes, h, At(term, v));
  }

  lemma CampaignFair(c: Cluster, h: Hist, once: bool, id: NodeId)
    requires Fair(c, h, once) && id in c.nodes
    ensures var n := c.nodes[id];
            var m, g := Campaigner(n), RecordVote(h, n.term + 1, id, id);
            && VotesGrow(h, g) && Fair(Put(c, id, m), g, once)
            && (once ==> forall v: NodeId :: v != id ==> Tokens(m, c.net, m.term, v) == 0)
  {
    var n := c.nodes[id];
    var m, g := Campaigner(n), RecordVote(h, n.term + 1, id, id);
    assert BallotAt(c.nodes, h, once, id) && CastOk(c.nodes, h, At(m.term, id));
    NeverLed(c, h, once, id, m.term);
    forall term: Term, voter: NodeId | once && voter != id
      ensures Tokens(m, c.net, term, voter) <= 1 && (term == m.term ==> Tokens(m, c.net, term, voter) == 0)
    {
      assert TokenOk(c.nodes, c.net, term, id, voter);
      if term == m.term {
        NobodyAhead(c, h, once, id, term, voter);
      }
    }
    Replace(c, h, g, once, id, m);
  }

  // A quorum of votes is a majority of voters when they are distinct, and in a
  // cluster of at most three even when they are not: one vote besides its own is.
  lemma VotesAreMajority(votes: seq<NodeId>, members: seq<NodeId>, id: NodeId, once: bool)
    requires Distinct(members) && members != [] && Elements(votes) <= Elements(members)
    requires OwnVoteFirst(votes, id) && HasQuorum(members, |votes|)
    requires if once then Distinct(votes) else |Elements(members)| <= 3
    ensures Quorum(Elements(votes), Elements(members))
  {
    DistinctCardinality(members);
    if once {
      VotesMakeQuorum(votes, members);
    } else {
      CardinalityMonotone(if |votes| == 1 then {id} else {id, votes[1]}, Elements(votes));
    }
  }

  // The links deliver at most once, or the cluster is too small for it to matter.
  predicate Countable(c: Cluster, once: bool) { once || |c.nodes.Keys| <= 3 }

  lemma WinnerIsOnly(c: Cluster, h: Hist, once: bool, id: NodeId)
    requires Fair(c, h, once) && Countable(c, once) && id in c.nodes
    requires var n := c.nodes[id]; n.role == Candidate && HasQuorum(n.config.members, |n.election.votes|)
    ensures var n := c.nodes[id];
            && ElectedBy(h, Elements(n.election.votes), n.term, id, c.nodes.Keys)
            && (n.term in h.leader ==> h.leader[n.term] == id)
  {
    var n := c.nodes[id];
    assert BallotAt(c.nodes, h, once, id) && ElectOk(h, n.term, c.nodes.Keys);
    VotesAreMajority(n.election.votes, n.config.members, id, once);
    var q := Elements(n.election.votes);
    if n.term in h.leader {
      var p :| ElectedBy(h, p, n.term, h.leader[n.term], c.nodes.Keys);
      var v := QuorumsMeet(q, p, c.nodes.Keys);
    }
  }

  lemma WinFair(c: Cluster, h: Hist, once: bool, id: NodeId, m: Node)
    requires Fair(c, h, once) && Countable(c, once) && id in c.nodes
    requires var n := c.nodes[id];
             n.role == Candidate && HasQuorum(n.config.members, |n.election.votes|) &&
             m == n.(role := Leader, repl := m.repl)
    ensures var g := h.(leader := h.leader[m.term := id]);
            VotesGrow(h, g) && Fair(Put(c, id, m), g, once)
  {
    var n := c.nodes[id];
    var g := h.(leader := h.leader[m.term := id]);
    WinnerIsOnly(c, h, once, id);
    assert BallotAt(c.nodes, h, once, id);
    assert ElectedBy(g, Elements(n.election.votes), m.term, id, c.nodes.Keys);
    forall term: Term, voter: NodeId | once && voter != id ensures Tokens(m, c.net, term, voter) <= 1 {
      assert TokenOk(c.nodes, c.net, term, id, voter);
    }
    Replace(c, h, g, once, id, m);
  }

  lemma LeaderFair(c: Cluster, h: Hist, once: bool, id: NodeId) returns (g: Hist)
    requires Fair(c, h, once) && Countable(c, once) && id in c.nodes
    requires var n := c.nodes[id]; n.role == Candidate && HasQuorum(n.config.members, |n.election.votes|)
    ensures VotesGrow(h, g) && Fair(After(c, id, BecomeLeader(c.nodes[id])), g, once)
  {
    var m := BecomeLeader(c.nodes[id]).node;
    g := h.(leader := h.leader[m.term := id]);
    WinFair(c, h, once, id, m);
    assert BallotAt(c.nodes, h, once, id);
    SendsTame(m);
    forall e | e in SendAppendEntriesToFollowers(m) ensures Mail(Put(c, id, m), g, id, e) {
      assert e.to in Elements(m.config.members);
    }
    FairPost(Put(c, id, m), g, once, id, SendAppendEntriesToFollowers(m));
  }

  // Asking everyone, and winning at once when there is nobody else.
  lemma ElectionFair(c: Cluster, h: Hist, once: bool, id: NodeId) returns (g: Hist)
    requires Fair(c, h, once) && Countable(c, once) && id in c.nodes
    ensures VotesGrow(h, g) && Fair(After(c, id, BeginElection(c.nodes[id])), g, once)
  {
    var n := c.nodes[id];
    assert BallotAt(c.nodes, h, once, id);
    var m := Campaigner(n);
    g := RecordVote(h, m.term, id, id);
    CampaignFair(c, h, once, id);
    var to := Peers(n.config.members, id);
    WithoutDistinct(n.config.members, id);
    forall v | v in to ensures v != id && v in c.nodes {
      assert v in Elements(n.config.members);
    }
    FairRequests(Put(c, id, m), g, once, id, to, Request(m));
    var s := Step(m, Broadcast(to, Request(m)));
    if |m.config.members| <= 1 {
      var d := After(c, id, s);
      assert n.config.members == [id] && HasQuorum(m.config.members, |m.election.votes|);
      var f := g;
      g := LeaderFair(d, f, once, id);
      AfterTwice(c, id, s, BecomeLeader(m));
    }
  }

  lemma VoteResponseFair(c: Cluster, h: Hist, once: bool, id: NodeId, from: NodeId, m: Msg) returns (g: Hist)
    requires Fair(c, h, once) && Countable(c, once) && m.RequestVoteResponse?
    requires id in c.nodes && from in c.nodes && from != id
    requires Carried(h, c.nodes, from, id, m) && (once ==> TokenFree(c.nodes, c.net, from, id, m))
    ensures VotesGrow(h, g) && Fair(After(c, id, OnMessage(c.nodes[id], from, m)), g, once)
  {
    var n := c.nodes[id];
    g := h;
    assert BallotAt(c.nodes, h, once, id);
    if m.term == n.term && n.role == Candidate && m.voteGranted {
      var v := n.(election := n.election.(votes := n.election.votes + [from]));
      CountFair(c, h, once, id, from);
      if HasQuorum(n.config.members, |v.election.votes|) {
        g := LeaderFair(Put(c, id, v), h, once, id);
        AfterQuietly(c, id, v, BecomeLeader(v));
      } else {
        AfterQuietly(c, id, v, Step(v, []));
      }
    } else {
      TameStep(c, h, once, id, OnMessage(n, from, m));
    }
  }

  lemma CountFair(c: Cluster, h: Hist, once: bool, id: NodeId, from: NodeId)
    requires Fair(c, h, once) && id in c.nodes && from in c.nodes && from != id
    requires var n := c.nodes[id];
             n.role == Candidate && Voter(h, from, n.term, id) && (once ==> Tokens(n, c.net, n.term, from) == 0)
    ensures var n := c.nodes[id];
            Fair(Put(c, id, n.(election := n.election.(votes := n.election.votes + [from]))), h, once)
  {
    var n := c.nodes[id];
    var m := n.(election := n.election.(votes := n.election.votes + [from]));
    assert BallotAt(c.nodes, h, once, id);
    assert once ==> multiset(n.election.votes)[from] == 0;
    forall term: Term, voter: NodeId | once && voter != id ensures Tokens(m, c.net, term, voter) <= 1 {
      assert TokenOk(c.nodes, c.net, term, id, voter);
      assert multiset(m.election.votes) == multiset(n.election.votes) + multiset{from};
    }
    Replace(c, h, h, once, id, m);
  }

  // --- All events ---

  lemma PreVoteResponseFair(c: Cluster, h: Hist, once: bool, id: NodeId, from: NodeId, m: Msg) returns (g: Hist)
    requires Fair(c, h, once) && Countable(c, once) && id in c.nodes && m.PreVoteResponse?
    ensures VotesGrow(h, g) && Fair(After(c, id, OnMessage(c.nodes[id], from, m)), g, once)
  {
    var n := c.nodes[id];
    g := h;
    assert BallotAt(c.nodes, h, once, id);
    var (e, start) := Elections.HandlePreVoteResponse(n.election, from, m.voteGranted, n.config.members);
    var v := if m.term > n.term then n else n.(election := e);
    TameKeeps(c, h, once, id, v);
    if m.term <= n.term && start {
      g := ElectionFair(Put(c, id, v), h, once, id);
      AfterQuietly(c, id, v, BeginElection(v));
    } else {
      AfterQuietly(c, id, v, Step(v, []));
    }
  }

  // Messages whose handling casts no ballot.
  lemma TameMessage(n: Node, from: NodeId, m: Msg)
    requires AllCommands(n.store.log) && n.term == n.store.currentTerm && (m.AppendEntries? ==> AllCommands(m.entries))
    requires !m.RequestVote? && !m.RequestVoteResponse? && !m.PreVoteResponse?
    ensures var s := OnMessage(n, from, m); Tame(n, s.node, s.sent) && forall e :: e in s.sent ==> e.to == from
  {
    if m.AppendEntries? {
      AppendTame(n, from, m);
    } else if m.AppendEntriesResponse? {
      ResponseTame(n, from, m);
    } else if m.InstallSnapshot? {
      InstallTame(n, from, m);
    }
  }

  lemma MessageFair(c: Cluster, h: Hist, once: bool, id: NodeId, from: NodeId, m: Msg) returns (g: Hist)
    requires Fair(c, h, once) && Countable(c, once) && id in c.nodes && from in c.nodes && from != id
    requires Carried(h, c.nodes, from, id, m) && (once ==> TokenFree(c.nodes, c.net, from, id, m))
    ensures VotesGrow(h, g) && Fair(After(c, id, OnMessage(c.nodes[id], from, m)), g, once)
  {
    g := h;
    if m.RequestVote? {
      g := VoteRequestFair(c, h, once, id, from, m);
    } else if m.RequestVoteResponse? {
      g := VoteResponseFair(c, h, once, id, from, m);
    } else if m.PreVoteResponse? {
      g := PreVoteResponseFair(c, h, once, id, from, m);
    } else {
      assert BallotAt(c.nodes, h, once, id);
      TameMessage(c.nodes[id], from, m);
      TameStep(c, h, once, id, OnMessage(c.nodes[id], from, m));
    }
  }

  // A node that asks for pre-votes.
  function Asking(n: Node): Step {
    Step(n.(election := Elections.StartPreVote(n.election, n.id)),
         Broadcast(Peers(n.config.members, n.id), PreVoteRequestOf(n.id, n.term, n.store)))
  }

  lemma AskingTame(n: Node)
    requires AllCommands(n.store.log)
    ensures var s := Asking(n);
            Tame(n, s.node, s.sent) && forall e :: e in s.sent ==> e.to in Elements(n.config.members) && e.to != n.id
  {
    BroadcastContents(Peers(n.config.members, n.id), PreVoteRequestOf(n.id, n.term, n.store));
  }

  lemma AskingFair(c: Cluster, h: Hist, once: bool, id: NodeId)
    requires Fair(c, h, once) && id in c.nodes
    ensures Fair(After(c, id, Asking(c.nodes[id])), h, once)
  {
    assert BallotAt(c.nodes, h, once, id);
    AskingTame(c.nodes[id]);
    TameStep(c, h, once, id, Asking(c.nodes[id]));
  }

  lemma TimeoutFair(c: Cluster, h: Hist, once: bool, id: NodeId) returns (g: Hist)
    requires Fair(c, h, once) && Countable(c, once) && id in c.nodes
    ensures VotesGrow(h, g) && Fair(After(c, id, OnElectionTimer(c.nodes[id])), g, once)
  {
    var n := c.nodes[id];
    g := h;
    if n.role == Leader {
      AfterQuietly(c, id, n, Step(n, []));
    } else {
      var first := Asking(n);
      AskingFair(c, h, once, id);
      if |n.config.members| <= 1 {
        g := ElectionFair(After(c, id, first), h, once, id);
        AfterTwice(c, id, first, BeginElection(first.node));
      }
    }
  }

  lemma HeartbeatFair(c: Cluster, h: Hist, once: bool, id: NodeId)
    requires Fair(c, h, once) && id in c.nodes
    ensures Fair(After(c, id, OnHeartbeatTimer(c.nodes[id])), h, once)
  {
    var n := c.nodes[id];
    assert BallotAt(c.nodes, h, once, id);
    var s := OnHeartbeatTimer(n);
    if n.role == Leader {
      SendsTame(n);
    }
    forall e | e in s.sent ensures e.to in c.nodes && e.to != id {
      assert e.to in Elements(n.config.members);
    }
    TameStep(c, h, once, id, s);
  }

  lemma ClientFair(c: Cluster, h: Hist, once: bool, id: NodeId, payload: string)
    requires Fair(c, h, once) && id in c.nodes
    ensures Fair(After(c, id, OnEvent(c.nodes[id], ClientCommand(payload))), h, once)
  {
    var n := c.nodes[id];
    assert BallotAt(c.nodes, h, once, id);
    ClientTame(n, payload);
    var s := OnEvent(n, ClientCommand(payload));
    forall e | e in s.sent ensures e.to in c.nodes && e.to != id {
      assert e.to in Elements(n.config.members);
    }
    TameStep(c, h, once, id, s);
  }

  lemma RestartFair(c: Cluster, h: Hist, once: bool, id: NodeId)
    requires Fair(c, h, once) && id in c.nodes && c.nodes[id].config.members != []
    ensures Fair(Put(c, id, Restarted(c.nodes[id])), h, once)
  {
    var n := c.nodes[id];
    assert BallotAt(c.nodes, h, once, id);
    assert n.config.members == [id] + n.config.members[1..];
    TameKeeps(c, h, once, id, Restarted(n));
  }

  lemma ActionFair(c: Cluster, h: Hist, once: bool, a: Action) returns (g: Hist)
    requires Fair(c, h, once) && Countable(c, once) && Enabled(c, a)
    ensures VotesGrow(h, g) && Fair(Do(c, a), g, once)
  {
    g := h;
    match a
    case Deliver(from, to, k) =>
      FairPull(c, h, once, from, to, k);
      g := MessageFair(c.(net := Pull(c.net, from, to, k)), h, once, to, from, Queue(c.net, from, to)[k]);
    case Drop(from, to, k) => FairPull(c, h, once, from, to, k);
    case ElectionTimeout(id) => g := TimeoutFair(c, h, once, id);
    case Heartbeat(id) => HeartbeatFair(c, h, once, id);
    case Client(id, payload) => ClientFair(c, h, once, id, payload);
    case Restart(id) => RestartFair(c, h, once, id);
  }

  // --- A leader's log ---

  // The second log continues the first, except that its beginning may have been
  // compacted away.
  ghost predicate Continues(s: Store, t: Store) {
    && t.firstIndex >= s.firstIndex && t.LastLogIndex() >= s.LastLogIndex()
    && forall k: LogIndex :: k >= t.firstIndex && s.GetEntry(k).Some? ==> t.GetEntry(k) == s.GetEntry(k)
  }

  lemma SnapshotContinues(n: Node)
    ensures Continues(n.store, TakeSnapshot(n).store)
  {
  }

  lemma MessageContinues(n: Node, from: NodeId, m: Msg)
    requires n.role == Leader && !(Ruling(m) && m.term == n.term)
    ensures var d := OnMessage(n, from, m).node; d.term == n.term ==> Continues(n.store, d.store)
  {
    if m.AppendEntriesResponse? {
      var a := HandleAppendEntriesResponse(n.repl, from, m.success, m.matchIndex, n.store, n.sm, n.config.members,
                                           n.id);
      SnapshotContinues(ApplyConfigChanges(n.(repl := a.repl, sm := a.sm), a.changes));
    }
  }

  lemma ClientContinues(n: Node, payload: string)
    ensures Continues(n.store, OnEvent(n, ClientCommand(payload)).node.store)
  {
  }

  lemma ActionContinues(c: Cluster, h: Hist, once: bool, a: Action, id: NodeId)
    requires Fair(c, h, once) && Enabled(c, a) && id in c.nodes && c.nodes[id].role == Leader
    requires Do(c, a).nodes[id].role == Leader && Do(c, a).nodes[id].term == c.nodes[id].term
    ensures Continues(c.nodes[id].store, Do(c, a).nodes[id].store)
  {
    var n := c.nodes[id];
    match a
    case Deliver(from, to, k) =>
      if to == id {
        assert FlightAt(c, h, from, to, k) && BallotAt(c.nodes, h, once, id);
        MessageContinues(n, from, Queue(c.net, from, to)[k]);
      }
    case Client(x, payload) => ClientContinues(n, payload);
    case _ =>
  }

  // A follower does not become leader without raising its term.
  lemma FollowerStays(n: Node, from: NodeId, m: Msg)
    requires n.role == Follower && AllCommands(n.store.log) && n.term == n.store.currentTerm
    requires m.AppendEntries? ==> AllCommands(m.entries)
    ensures var d := OnMessage(n, from, m).node; d.term == n.term ==> d.role == Follower
  {
    if !m.RequestVote? && !m.RequestVoteResponse? && !m.PreVoteResponse? {
      TameMessage(n, from, m);
    }
  }

  // A node that leads the term it has led before has been leading it.
  lemma StillLeads(c: Cluster, h: Hist, once: bool, a: Action, id: NodeId)
    requires Fair(c, h, once) && Enabled(c, a) && id in c.nodes
    requires Do(c, a).nodes[id].role == Leader && Do(c, a).nodes[id].term == c.nodes[id].term
    requires c.nodes[id].term in h.leader && h.leader[c.nodes[id].term] == id
    ensures c.nodes[id].role == Leader
  {
    var n := c.nodes[id];
    assert BallotAt(c.nodes, h, once, id);
    if n.role == Follower {
      FollowerIdle(c, h, once, a, id);
      assert false;
    }
  }

  lemma FollowerIdle(c: Cluster, h: Hist, once: bool, a: Action, id: NodeId)
    requires Fair(c, h, once) && Enabled(c, a) && id in c.nodes && c.nodes[id].role == Follower
    ensures Do(c, a).nodes[id].term == c.nodes[id].term ==> Do(c, a).nodes[id].role == Follower
  {
    assert BallotAt(c.nodes, h, once, id);
    if a.Deliver? && a.to == id {
      assert FlightAt(c, h, a.from, id, a.k);
      FollowerStays(c.nodes[id], a.from, Queue(c.net, a.from, id)[a.k]);
    }
  }

  function InputOf(c: Cluster, a: Action, id: NodeId): Option<NodeRuns.Input>
    requires Enabled(c, a)
  {
    match a
    case Deliver(from, to, k) =>
      if to == id then Some(NodeRuns.Handle(Message(from, Queue(c.net, from, to)[k]))) else None
    case Drop(_, _, _) => None
    case ElectionTimeout(x) => if x == id then Some(NodeRuns.Handle(TimerFired(ElectionTimer))) else None
    case Heartbeat(x) => if x == id then Some(NodeRuns.Handle(TimerFired(HeartbeatTimer))) else None
    case Client(x, payload) => if x == id then Some(NodeRuns.Handle(ClientCommand(payload))) else None
    case Restart(x) => if x == id then Some(NodeRuns.Reboot(c.nodes[x].config.members[1..])) else None
  }

  // A node in a cluster makes the steps of a node on its own.
  lemma ActsAlone(c: Cluster, a: Action, id: NodeId)
    requires Enabled(c, a) && id in c.nodes
    ensures var i := InputOf(c, a, id);
            Do(c, a).nodes[id] == if i.Some? then NodeRuns.React(c.nodes[id], i.value).node else c.nodes[id]
  {
  }

  lemma TermRises(c: Cluster, h: Hist, once: bool, a: Action, id: NodeId)
    requires Fair(c, h, once) && Enabled(c, a) && id in c.nodes
    ensures id in Do(c, a).nodes && Do(c, a).nodes[id].term >= c.nodes[id].term
  {
    assert BallotAt(c.nodes, h, once, id);
    ActsAlone(c, a, id);
    if InputOf(c, a, id).Some? {
      Durability.StepKeeps(c.nodes[id], InputOf(c, a, id).value);
    }
  }

  // --- Runs ---

  ghost predicate FairRun(hs: seq<Hist>, r: Run) {
    && |hs| == |r.states|
    && (forall i :: 0 <= i < |hs| ==> Fair(r.states[i], hs[i], true))
    && (forall i, j :: 0 <= i <= j < |hs| ==> VotesGrow(hs[i], hs[j]))
  }

  lemma InitialFair(c: Cluster)
    requires Initial(c)
    ensures Fair(c, NO_HISTORY, true)
  {
    forall id: NodeId ensures BallotAt(c.nodes, NO_HISTORY, true, id) {
      assert FreshAt(c, id);
    }
    forall term: Term, id: NodeId, voter: NodeId ensures TokenOk(c.nodes, c.net, term, id, voter) {
      assert FreshAt(c, id);
    }
  }

  lemma Earlier(r: Run, e: Run)
    requires IsRun(r) && r.actions != []
    requires e == Run(r.states[..|r.states| - 1], r.actions[..|r.actions| - 1])
    ensures IsRun(e)
  {
    forall i: nat ensures StepAt(e, i) {
      assert StepAt(r, i);
    }
  }

  lemma LastFair(r: Run, h: Hist) returns (g: Hist)
    requires IsRun(r) && r.actions != [] && Fair(r.states[|r.actions| - 1], h, true)
    ensures VotesGrow(h, g) && Fair(r.states[|r.actions|], g, true)
  {
    var k := |r.actions| - 1;
    assert StepAt(r, k);
    g := ActionFair(r.states[k], h, true, r.actions[k]);
  }

  lemma {:induction false} RunFair(r: Run) returns (hs: seq<Hist>)
    requires IsRun(r)
    ensures FairRun(hs, r)
    decreases |r.actions|
  {
    if r.actions == [] {
      InitialFair(r.states[0]);
      hs := [NO_HISTORY];
    } else {
      var e := Run(r.states[..|r.states| - 1], r.actions[..|r.actions| - 1]);
      Earlier(r, e);
      var fs := RunFair(e);
      var g := LastFair(r, fs[|fs| - 1]);
      hs := fs + [g];
      Lengthens(r, e, fs, g);
    }
  }

  lemma Lengthens(r: Run, e: Run, fs: seq<Hist>, g: Hist)
    requires FairRun(fs, e) && |fs| > 0 && |r.states| == |fs| + 1 && e.states == r.states[..|fs|]
    requires Fair(r.states[|fs|], g, true) && VotesGrow(fs[|fs| - 1], g)
    ensures FairRun(fs + [g], r)
  {
    var hs := fs + [g];
    forall i, j | 0 <= i <= j < |hs| ensures VotesGrow(hs[i], hs[j]) {
      if j == |fs| && i < j {
        assert VotesGrow(fs[i], fs[|fs| - 1]);
      }
    }
    forall i | 0 <= i < |hs| ensures Fair(r.states[i], hs[i], true) {
      if i < |fs| {
        assert Fair(e.states[i], fs[i], true);
      }
    }
  }

  // --- The guarantees, over every run ---

  // At most one node ever leads a term.
  lemma ElectionSafety(r: Run, i: nat, a: NodeId, j: nat, b: NodeId)
    requires IsRun(r) && Present(r, i, a) && Present(r, j, b)
    requires NodeIn(r, i, a).role == Leader && NodeIn(r, j, b).role == Leader
    requires NodeIn(r, i, a).term == NodeIn(r, j, b).term
    ensures a == b
  {
    var hs := RunFair(r);
    assert BallotAt(r.states[i].nodes, hs[i], true, a) && BallotAt(r.states[j].nodes, hs[j], true, b);
    assert VotesGrow(hs[i], hs[Max(i, j)]) && VotesGrow(hs[j], hs[Max(i, j)]);
  }

  // A voter's vote for a candidate in a term exists at most once, as a request
  // in flight, a granted reply in flight, or a counted vote.
  lemma VoteTokensConserved(r: Run, i: nat, term: Term, candidate: NodeId, voter: NodeId)
    requires IsRun(r) && Present(r, i, candidate) && voter != candidate
    ensures Tokens(NodeIn(r, i, candidate), r.states[i].net, term, voter) <= 1
  {
    var hs := RunFair(r);
    assert Fair(r.states[i], hs[i], true);
    assert TokenOk(r.states[i].nodes, r.states[i].net, term, candidate, voter);
  }

  // The undeduplicated vote list is a set of voters, each of which has durably
  // voted for this candidate in this term or has moved to a later one.
  lemma CountedVotesAreReal(r: Run, i: nat, id: NodeId, v: NodeId)
    requires IsRun(r) && Present(r, i, id) && NodeIn(r, i, id).role != Follower
    ensures Distinct(NodeIn(r, i, id).election.votes)
    ensures v in NodeIn(r, i, id).election.votes ==>
              Present(r, i, v) &&
              (NodeIn(r, i, v).store.currentTerm > NodeIn(r, i, id).term ||
               (NodeIn(r, i, v).store.currentTerm == NodeIn(r, i, id).term &&
                NodeIn(r, i, v).store.votedFor == Some(id)))
  {
    var hs := RunFair(r);
    assert Fair(r.states[i], hs[i], true);
    var nodes, h := r.states[i].nodes, hs[i];
    var n := nodes[id];
    assert BallotAt(nodes, h, true, id) && BallotAt(nodes, h, true, v) && CastOk(nodes, h, At(n.term, v));
  }

  lemma {:induction false} TermsRise(r: Run, hs: seq<Hist>, i: nat, j: nat, a: NodeId)
    requires IsRun(r) && FairRun(hs, r) && i <= j < |r.states| && Present(r, i, a)
    ensures Present(r, j, a) && NodeIn(r, j, a).term >= NodeIn(r, i, a).term
    decreases j
  {
    if i < j {
      TermsRise(r, hs, i, j - 1, a);
      assert StepAt(r, j - 1);
      TermRises(r.states[j - 1], hs[j - 1], true, r.actions[j - 1], a);
    }
  }

  // Between two states in which it leads the same term, a node keeps leading.
  lemma StepBefore(r: Run, i: nat, j: nat, a: NodeId)
    requires IsRun(r) && i < j && Present(r, i, a) && Present(r, j, a)
    requires NodeIn(r, i, a).role == Leader && NodeIn(r, j, a).role == Leader
    requires NodeIn(r, i, a).term == NodeIn(r, j, a).term
    ensures Present(r, j - 1, a) && NodeIn(r, j - 1, a).role == Leader
    ensures NodeIn(r, j - 1, a).term == NodeIn(r, j, a).term
    ensures Continues(NodeIn(r, j - 1, a).store, NodeIn(r, j, a).store)
  {
    var hs := RunFair(r);
    TermBetween(r, hs, i, j - 1, j, a);
    LedOn(r, hs, i, j - 1, a);
  }

  lemma LedOn(r: Run, hs: seq<Hist>, i: nat, k: nat, a: NodeId)
    requires FairRun(hs, r) && IsRun(r) && i <= k < |r.actions| && Present(r, i, a) && Present(r, k, a)
    requires Present(r, k + 1, a) && NodeIn(r, i, a).role == Leader && NodeIn(r, k + 1, a).role == Leader
    requires NodeIn(r, i, a).term == NodeIn(r, k, a).term == NodeIn(r, k + 1, a).term
    ensures NodeIn(r, k, a).role == Leader && Continues(NodeIn(r, k, a).store, NodeIn(r, k + 1, a).store)
  {
    LedBy(r, hs, i, k, a);
    LedStep(r, hs, k, a);
  }

  lemma TermBetween(r: Run, hs: seq<Hist>, i: nat, k: nat, j: nat, a: NodeId)
    requires FairRun(hs, r) && IsRun(r) && i <= k <= j && Present(r, i, a) && Present(r, j, a)
    requires NodeIn(r, i, a).term == NodeIn(r, j, a).term
    ensures Present(r, k, a) && NodeIn(r, k, a).term == NodeIn(r, j, a).term
  {
    TermsRise(r, hs, i, k, a);
    TermsRise(r, hs, k, j, a);
  }

  // One step of a run keeps a recorded leader of its term leading.
  lemma LedStep(r: Run, hs: seq<Hist>, i: nat, a: NodeId)
    requires FairRun(hs, r) && IsRun(r) && i < |r.actions| && Present(r, i, a) && Present(r, i + 1, a)
    requires NodeIn(r, i + 1, a).role == Leader && NodeIn(r, i + 1, a).term == NodeIn(r, i, a).term
    requires NodeIn(r, i, a).term in hs[i].leader && hs[i].leader[NodeIn(r, i, a).term] == a
    ensures NodeIn(r, i, a).role == Leader && Continues(NodeIn(r, i, a).store, NodeIn(r, i + 1, a).store)
  {
    assert StepAt(r, i);
    StillLeads(r.states[i], hs[i], true, r.actions[i], a);
    ActionContinues(r.states[i], hs[i], true, r.actions[i], a);
  }

  // A leader is on record from then on.
  lemma LedBy(r: Run, hs: seq<Hist>, i: nat, j: nat, a: NodeId)
    requires FairRun(hs, r) && i <= j < |r.states| && Present(r, i, a) && NodeIn(r, i, a).role == Leader
    ensures NodeIn(r, i, a).term in hs[j].leader && hs[j].leader[NodeIn(r, i, a).term] == a
  {
    assert BallotAt(r.states[i].nodes, hs[i], true, a) && VotesGrow(hs[i], hs[j]);
  }

  // While a node leads a term its log only grows: no entry changes or goes
  // away, though what is committed may be compacted.
  lemma {:induction false} LeaderAppendOnly(r: Run, i: nat, j: nat, a: NodeId)
    requires IsRun(r) && i <= j && Present(r, i, a) && Present(r, j, a)
    requires NodeIn(r, i, a).role == Leader && NodeIn(r, j, a).role == Leader
    requires NodeIn(r, i, a).term == NodeIn(r, j, a).term
    ensures Continues(NodeIn(r, i, a).store, NodeIn(r, j, a).store)
    decreases j
  {
    if i < j {
      StepBefore(r, i, j, a);
      LeaderAppendOnly(r, i, j - 1, a);
      ContinuesOn(NodeIn(r, i, a).store, NodeIn(r, j - 1, a).store, NodeIn(r, j, a).store);
    }
  }

  lemma ContinuesOn(s: Store, t: Store, u: Store)
    requires Continues(s, t) && Continues(t, u)
    ensures Continues(s, u)
  {
  }

  // --- Why messages must not be duplicated ---

  // A node handles the same message some number of times.
  function Repeatedly(n: Node, from: NodeId, m: Msg, times: nat): Node {
    if times == 0 then n else OnMessage(Repeatedly(n, from, m, times - 1), from, m).node
  }

  lemma CountsAgain(n: Node, from: NodeId)
    requires n.role == Candidate
    ensures var d := OnMessage(n, from, RequestVoteResponse(n.term, true)).node;
            if HasQuorum(n.config.members, |n.election.votes| + 1) then d.role == Leader && d.term == n.term
            else d == n.(election := n.election.(votes := n.election.votes + [from]))
  {
  }

  // One voter's grant, delivered often enough, elects a candidate by itself: the
  // vote list is not deduplicated. TwoLeaders says in which clusters that costs
  // Election Safety.
  lemma {:induction false} DuplicatesElect(n: Node, voter: NodeId, times: nat)
    requires n.role == Candidate && n.election.votes == [n.id]
    requires 1 + times <= QuorumSize(n.config.members)
    ensures var d := Repeatedly(n, voter, RequestVoteResponse(n.term, true), times);
            if times > 0 && 1 + times == QuorumSize(n.config.members) then d.role == Leader && d.term == n.term
            else d == n.(election := d.election) && |d.election.votes| == 1 + times
  {
    if times > 0 {
      DuplicatesElect(n, voter, times - 1);
      CountsAgain(Repeatedly(n, voter, RequestVoteResponse(n.term, true), times - 1), voter);
    }
  }
}
