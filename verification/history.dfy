// What a run has done so far, kept beside the cluster for the proofs: who voted
// for whom, who campaigned with which log, who led each term with which log,
// and how far each node has acknowledged each term's leader.
module Histories {
  import opened Types
  import opened Configurations
  import opened Clusters
  import opened Nodes

  datatype At = At(term: Term, node: NodeId)

  datatype Hist = Hist(
    voted: map<At, NodeId>,
    campaign: map<At, Log>,
    leader: map<Term, NodeId>,
    leaderLog: map<Term, Log>,
    acked: map<At, nat>)

  const NO_HISTORY := Hist(map[], map[], map[], map[], map[])

  function LastTerm(log: Log): Term { if log == [] then 0 else log[|log| - 1].term }

  function TermAt(log: Log, index: LogIndex): Term
    requires index <= |log|
  {
    if index == 0 then 0 else log[index - 1].term
  }

  // Two logs hold the same entries 1..k.
  ghost predicate Agree(a: Log, b: Log, k: nat) {
    && k <= |a| && k <= |b|
    && forall j {:trigger a[j]} {:trigger b[j]} :: 0 <= j < k ==> a[j] == b[j]
  }

  ghost predicate AllCommands(log: Log) { forall i :: 0 <= i < |log| ==> log[i].entryType.Command? }

  // Log Matching against the leaders: whatever entry a log holds at some index,
  // it holds everything before it that the leader of that entry's term had.
  ghost predicate Matched(h: Hist, log: Log) {
    forall i :: 0 <= i < |log| ==> MatchedAt(h, log, i)
  }

  ghost predicate MatchedAt(h: Hist, log: Log, i: nat)
    requires i < |log|
  {
    log[i].term in h.leaderLog && Agree(log, h.leaderLog[log[i].term], i + 1)
  }

  // --- Nodes and votes ---

  // A node whose log was never compacted and whose membership never changed.
  ghost predicate Plain(n: Node, id: NodeId, all: set<NodeId>) {
    && n.id == id
    && n.term == n.store.currentTerm
    && n.store.firstIndex == 1
    && n.store.snapshot.None?
    && n.repl.catchingUp == map[]
    && Distinct(n.config.members)
    && Elements(n.config.members) == all
    && |n.config.members| > 0 && n.config.members[0] == id
    && (forall p :: p in n.repl.nextIndex ==> n.repl.nextIndex[p] >= 1)
    && n.repl.matchIndex.Keys <= all
  }

  ghost predicate PlainAt(nodes: map<NodeId, Node>, id: NodeId) {
    id in nodes ==> Plain(nodes[id], id, nodes.Keys)
  }

  ghost predicate PlainNodes(nodes: map<NodeId, Node>) { forall id: NodeId :: PlainAt(nodes, id) }

  ghost predicate VoteKept(h: Hist, n: Node) {
    && (n.store.votedFor.Some? ==>
         At(n.term, n.id) in h.voted && h.voted[At(n.term, n.id)] == n.store.votedFor.value)
    && (At(n.term, n.id) in h.voted ==> n.store.votedFor == Some(h.voted[At(n.term, n.id)]))
  }

  ghost predicate Voter(h: Hist, v: NodeId, term: Term, candidate: NodeId) {
    At(term, v) in h.voted && h.voted[At(term, v)] == candidate
  }

  ghost predicate CandidateOk(h: Hist, n: Node, all: set<NodeId>) {
    && (n.role != Follower ==> n.store.votedFor == Some(n.id))
    && (n.role != Follower ==>
          Distinct(n.election.votes) && forall v :: v in n.election.votes ==> v in all && Voter(h, v, n.term, n.id))
    && (n.role == Candidate ==>
          At(n.term, n.id) in h.campaign && h.campaign[At(n.term, n.id)] == n.store.log &&
          !(n.term in h.leader && h.leader[n.term] == n.id))
  }

  ghost predicate VoteAt(nodes: map<NodeId, Node>, h: Hist, id: NodeId) {
    id in nodes ==> VoteKept(h, nodes[id]) && CandidateOk(h, nodes[id], nodes.Keys)
  }

  ghost predicate VotedOk(nodes: map<NodeId, Node>, h: Hist, a: At) {
    a in h.voted ==> a.node in nodes && a.term <= nodes[a.node].term && At(a.term, h.voted[a]) in h.campaign
  }

  ghost predicate CampaignOk(nodes: map<NodeId, Node>, h: Hist, a: At) {
    a in h.campaign ==>
      && a.term >= 1 && a.node in nodes && a.term <= nodes[a.node].term
      && Matched(h, h.campaign[a]) && TermsUpTo(h.campaign[a], a.term - 1)
  }

  ghost predicate VotesKept(nodes: map<NodeId, Node>, h: Hist) {
    && (forall id: NodeId :: VoteAt(nodes, h, id))
    && (forall a: At :: VotedOk(nodes, h, a))
    && (forall a: At :: CampaignOk(nodes, h, a))
  }

  // --- Messages ---

  // An AppendEntries that points past its leader's log carries nothing and a
  // previous term no entry has.
  predicate Overshoots(m: Msg)
    requires m.AppendEntries?
  {
    m.prevLogIndex > 0 && m.prevLogTerm == 0 && m.entries == []
  }

  function End(m: Msg): nat
    requires m.AppendEntries?
  {
    m.prevLogIndex + |m.entries|
  }

  // The message is a slice of the leader's log that reaches past everything
  // the leader campaigned with.
  ghost predicate SliceOf(m: Msg, log: Log, campaign: Log)
    requires m.AppendEntries?
  {
    && End(m) <= |log|
    && m.entries == log[m.prevLogIndex..End(m)]
    && m.prevLogTerm == TermAt(log, m.prevLogIndex)
    && (m.entries != [] ==> |campaign| <= End(m))
  }

  ghost predicate MsgOk(h: Hist, from: NodeId, to: NodeId, m: Msg) {
    match m
    case RequestVote(term, candidateId, lastLogIndex, lastLogTerm) =>
      candidateId == from && At(term, from) in h.campaign &&
      lastLogIndex == |h.campaign[At(term, from)]| && lastLogTerm == LastTerm(h.campaign[At(term, from)])
    case RequestVoteResponse(term, voteGranted) => voteGranted ==> Voter(h, from, term, to)
    case AppendEntries(term, _, _, _, _) =>
      term in h.leader && h.leader[term] == from && term in h.leaderLog && At(term, from) in h.campaign &&
      (Overshoots(m) || SliceOf(m, h.leaderLog[term], h.campaign[At(term, from)]))
    case AppendEntriesResponse(_, _, _) => true
    case PreVoteRequest(_, _, _, _) => true
    case PreVoteResponse(_, _) => true
    case InstallSnapshot(_, _, _, _, _, _, _) => false
    case InstallSnapshotResponse(_, _) => false
  }

  ghost predicate FlightOk(net: Net, h: Hist, all: set<NodeId>, f: NodeId, t: NodeId, k: nat) {
    k < |Queue(net, f, t)| ==> f != t && f in all && t in all && MsgOk(h, f, t, Queue(net, f, t)[k])
  }

  ghost predicate MsgsOk(net: Net, h: Hist, all: set<NodeId>) {
    forall f: NodeId, t: NodeId, k: nat :: FlightOk(net, h, all, f, t, k)
  }

  // --- Vote tokens ---

  function Requests(q: seq<Msg>, term: Term): nat {
    if q == [] then 0
    else Requests(q[..|q| - 1], term) + if q[|q| - 1].RequestVote? && q[|q| - 1].term == term then 1 else 0
  }

  function Grants(q: seq<Msg>, term: Term): nat {
    if q == [] then 0
    else Grants(q[..|q| - 1], term) + if q[|q| - 1] == RequestVoteResponse(term, true) then 1 else 0
  }

  // The ways one voter's vote for one candidate in one term can still be, or
  // has been, counted.
  function Tokens(n: Node, net: Net, term: Term, voter: NodeId): nat {
    Requests(Queue(net, n.id, voter), term) + Grants(Queue(net, voter, n.id), term) +
    if n.term == term && n.role != Follower then multiset(n.election.votes)[voter] else 0
  }

  ghost predicate TokenOk(nodes: map<NodeId, Node>, net: Net, term: Term, id: NodeId, voter: NodeId) {
    id in nodes && voter != id ==> Tokens(nodes[id], net, term, voter) <= 1
  }

  ghost predicate TokensOk(nodes: map<NodeId, Node>, net: Net) {
    forall term: Term, id: NodeId, voter: NodeId :: TokenOk(nodes, net, term, id, voter)
  }

  // --- Leaders and logs ---

  ghost predicate ElectedBy(h: Hist, q: set<NodeId>, term: Term, id: NodeId, all: set<NodeId>) {
    Quorum(q, all) && forall v :: v in q ==> Voter(h, v, term, id)
  }

  ghost predicate LeaderOk(h: Hist, term: Term, all: set<NodeId>) {
    term in h.leader ==>
      var id := h.leader[term];
      && term >= 1
      && id in all
      && term in h.leaderLog
      && At(term, id) in h.campaign
      && (exists q :: ElectedBy(h, q, term, id, all))
      && Extends(h.leaderLog[term], h.campaign[At(term, id)], term)
      && LogOk(h, h.leaderLog[term], term)
  }

  // A leader's log: what it campaigned with, then entries of its own term.
  ghost predicate Extends(log: Log, own: Log, term: Term) {
    Agree(own, log, |own|) && forall i :: |own| <= i < |log| ==> log[i].term == term
  }

  ghost predicate LeadsOk(h: Hist, n: Node) {
    n.role == Leader ==>
      n.term in h.leader && h.leader[n.term] == n.id && n.term in h.leaderLog && n.store.log == h.leaderLog[n.term]
  }

  ghost predicate LeadsAt(nodes: map<NodeId, Node>, h: Hist, id: NodeId) {
    id in nodes ==> LeadsOk(h, nodes[id]) && LogOk(h, nodes[id].store.log, nodes[id].term)
  }

  ghost predicate TermsUpTo(log: Log, term: Term) {
    forall i :: 0 <= i < |log| ==> 1 <= log[i].term <= term
  }

  ghost predicate LogOk(h: Hist, log: Log, term: Term) {
    Matched(h, log) && TermsUpTo(log, term) && AllCommands(log)
  }

  ghost predicate Leaders(nodes: map<NodeId, Node>, h: Hist) {
    && h.leader.Keys == h.leaderLog.Keys
    && (forall t: Term :: LeaderOk(h, t, nodes.Keys))
    && (forall id: NodeId :: LeadsAt(nodes, h, id))
  }

  // What holds in every reachable state, however messages are reordered.
  ghost predicate Inv(c: Cluster, h: Hist) {
    && PlainNodes(c.nodes)
    && VotesKept(c.nodes, h)
    && MsgsOk(c.net, h, c.nodes.Keys)
    && TokensOk(c.nodes, c.net)
    && Leaders(c.nodes, h)
  }

  // --- How histories grow ---

  ghost predicate Grows(h: Hist, g: Hist) {
    && (forall a :: a in h.voted ==> a in g.voted && g.voted[a] == h.voted[a])
    && (forall a :: a in h.campaign ==> a in g.campaign && g.campaign[a] == h.campaign[a])
    && (forall t :: t in h.leader ==> t in g.leader && g.leader[t] == h.leader[t])
    && (forall t :: t in h.leaderLog ==> t in g.leaderLog && Agree(h.leaderLog[t], g.leaderLog[t], |h.leaderLog[t]|))
  }

  lemma GrowsTransitive(f: Hist, g: Hist, h: Hist)
    requires Grows(f, g) && Grows(g, h)
    ensures Grows(f, h)
  {
  }

  lemma MatchedGrows(h: Hist, g: Hist, log: Log)
    requires Grows(h, g) && Matched(h, log)
    ensures Matched(g, log)
  {
    forall i | 0 <= i < |log| ensures MatchedAt(g, log, i) {
      assert MatchedAt(h, log, i);
    }
  }

  lemma MsgOkGrows(h: Hist, g: Hist, from: NodeId, to: NodeId, m: Msg)
    requires Grows(h, g) && MsgOk(h, from, to, m)
    ensures MsgOk(g, from, to, m)
  {
    if m.AppendEntries? && !Overshoots(m) {
      var a, b := h.leaderLog[m.term], g.leaderLog[m.term];
      assert a[m.prevLogIndex..End(m)] == b[m.prevLogIndex..End(m)];
    }
  }
}
