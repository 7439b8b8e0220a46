// The invariants hold in the first state of a run and after every action, so
// they hold throughout every run.
module RunInvariants {
  import opened Types
  import opened Storage
  import opened Nodes
  import opened Clusters
  import opened Histories
  import opened Steps
  import opened Commitment
  import opened CommitmentLinks
  import opened Events
  import opened ElectionEvents
  import opened ReplicationEvents

  lemma FreshHolds(n: Node, id: NodeId, all: set<NodeId>)
    requires FreshNode(n, id, all)
    ensures Plain(n, id, all) && n.role == Follower && n.store == EMPTY_STORE
    ensures CommitOk(NO_HISTORY, all, n)
  {
    assert n.config.members == [id] + n.config.members[1..];
  }

  lemma InitialNode(c: Cluster, id: NodeId)
    requires Initial(c)
    ensures var h := NO_HISTORY;
            PlainAt(c.nodes, id) && VoteAt(c.nodes, h, id) && LeadsAt(c.nodes, h, id) && NodeOk(c.nodes, h, id)
    ensures id in c.nodes ==> c.nodes[id].role == Follower
  {
    assert FreshAt(c, id);
    if id in c.nodes {
      FreshHolds(c.nodes[id], id, c.nodes.Keys);
    }
  }

  lemma InitialNodes(c: Cluster)
    requires Initial(c)
    ensures PlainNodes(c.nodes) && VotesKept(c.nodes, NO_HISTORY) && Leaders(c.nodes, NO_HISTORY)
    ensures NodesOk(c.nodes, NO_HISTORY)
  {
    var h := NO_HISTORY;
    forall id: NodeId
      ensures PlainAt(c.nodes, id) && VoteAt(c.nodes, h, id) && LeadsAt(c.nodes, h, id) && NodeOk(c.nodes, h, id)
    {
      InitialNode(c, id);
    }
  }

  lemma InitialLinks(c: Cluster)
    requires Initial(c)
    ensures MsgsOk(c.net, NO_HISTORY, c.nodes.Keys) && TokensOk(c.nodes, c.net)
    ensures ClaimsOk(c.net, NO_HISTORY, c.nodes.Keys)
  {
    forall term: Term, id: NodeId, voter: NodeId ensures TokenOk(c.nodes, c.net, term, id, voter) {
      InitialNode(c, id);
    }
  }

  lemma InitialHolds(c: Cluster)
    requires Initial(c)
    ensures Holds(c, NO_HISTORY, true)
  {
    InitialNodes(c);
    InitialLinks(c);
  }

  // What a message in flight promises, as seen just before its delivery.
  lemma DeliveryFacts(c: Cluster, h: Hist, from: NodeId, to: NodeId)
    requires Strong(c, h) && Queue(c.net, from, to) != []
    ensures InTurn(c.(net := Pull(c.net, from, to, 0)), h, to, from, Queue(c.net, from, to)[0])
  {
    var q := Queue(c.net, from, to);
    var d := c.(net := Pull(c.net, from, to, 0));
    assert ClaimAt(c.net, h, c.nodes.Keys, from, to, 0) && AheadAt(c.net, h, from, to, 0);
    forall k: nat | k < |Queue(d.net, from, to)| ensures InSequence(q[0], Queue(d.net, from, to)[k]) {
      assert OrderAt(c.net, from, to, 0, k + 1);
    }
  }

  lemma TailFacts(c: Cluster, h: Hist, a: Action)
    requires Inv(c, h) && a.Deliver? && Enabled(c, a) && NoStaleTail(c, a)
    ensures var m := Queue(c.net, a.from, a.to)[a.k];
            m.AppendEntries? && m.term == c.nodes[a.to].term ==> NoTail(c.nodes[a.to].store.log, m)
  {
    var m := Queue(c.net, a.from, a.to)[a.k];
    assert PlainAt(c.nodes, a.to);
    if m.AppendEntries? {
      ConsistencyIsAcceptance(c.nodes[a.to], c.nodes.Keys, m);
    }
  }

  lemma MessageHolds(c: Cluster, h: Hist, strong: bool, id: NodeId, from: NodeId, m: Msg) returns (g: Hist)
    requires Holds(c, h, strong) && id in c.nodes && from in c.nodes && from != id
    requires MsgOk(h, from, id, m) && TokenFree(c.nodes, c.net, from, id, m)
    requires strong ==>
               InTurn(c, h, id, from, m) &&
               (m.AppendEntries? && m.term == c.nodes[id].term ==> NoTail(c.nodes[id].store.log, m))
    requires NoCompaction(After(c, id, OnMessage(c.nodes[id], from, m)))
    ensures Holds(After(c, id, OnMessage(c.nodes[id], from, m)), g, strong) && Evolves(h, g, strong)
  {
    match m
    case PreVoteRequest(term, _, lastLogIndex, lastLogTerm) =>
      PreVoteRequestHolds(c, h, strong, id, from, term, lastLogIndex, lastLogTerm);
      g := h;
    case PreVoteResponse(term, granted) => g := PreVoteResponseHolds(c, h, strong, id, from, term, granted);
    case RequestVote(term, _, lastLogIndex, lastLogTerm) =>
      g := VoteRequestHolds(c, h, strong, id, from, term, lastLogIndex, lastLogTerm);
    case RequestVoteResponse(term, granted) => g := VoteResponseHolds(c, h, strong, id, from, term, granted);
    case AppendEntries(_, _, _, _, _) => g := AppendEntriesHolds(c, h, strong, id, from, m);
    case AppendEntriesResponse(_, _, _) =>
      ResponseHolds(c, h, strong, id, from, m);
      g := h;
  }

  lemma ActionHolds(c: Cluster, h: Hist, strong: bool, a: Action) returns (g: Hist)
    requires Holds(c, h, strong) && Enabled(c, a) && NoCompaction(Do(c, a))
    requires strong ==> InOrder(a) && NoStaleTail(c, a)
    ensures Holds(Do(c, a), g, strong) && Evolves(h, g, strong)
  {
    g := h;
    match a
    case Deliver(from, to, k) =>
      var d := c.(net := Pull(c.net, from, to, k));
      PullKeeps(c, h, from, to, k);
      if strong {
        StrongPull(c, h, from, to, k);
        DeliveryFacts(c, h, from, to);
        TailFacts(c, h, a);
      }
      g := MessageHolds(d, h, strong, to, from, Queue(c.net, from, to)[k]);
    case Drop(from, to, k) =>
      PullKeeps(c, h, from, to, k);
      if strong {
        StrongPull(c, h, from, to, k);
      }
    case ElectionTimeout(id) => g := ElectionTimerHolds(c, h, strong, id);
    case Heartbeat(id) => HeartbeatHolds(c, h, strong, id);
    case Client(id, payload) => g := ClientHolds(c, h, strong, id, payload);
    case Restart(id) => RestartHolds(c, h, strong, id);
  }

  lemma NextHolds(c: Cluster, h: Hist, strong: bool, a: Action, d: Cluster) returns (g: Hist)
    requires Holds(c, h, strong) && Next(c, a, d) && NoCompaction(d)
    requires strong ==> InOrder(a) && NoStaleTail(c, a)
    ensures Holds(d, g, strong) && Evolves(h, g, strong)
  {
    g := ActionHolds(c, h, strong, a);
  }

  // Histories for every state of a run, each extending the ones before.
  ghost predicate Explains(hs: seq<Hist>, r: Run, strong: bool) {
    && |hs| == |r.states|
    && (forall i :: 0 <= i < |hs| ==> Holds(r.states[i], hs[i], strong))
    && (forall i, j :: 0 <= i <= j < |hs| ==> Evolves(hs[i], hs[j], strong))
  }

  lemma {:induction false} RunHolds(r: Run, strong: bool) returns (hs: seq<Hist>)
    requires IsRun(r) && Uncompacted(r) && (strong ==> Orderly(r))
    ensures Explains(hs, r, strong)
    decreases |r.actions|
  {
    if r.actions == [] {
      InitialHolds(r.states[0]);
      hs := [NO_HISTORY];
    } else {
      var earlier := Run(r.states[..|r.states| - 1], r.actions[..|r.actions| - 1]);
      EarlierRun(r, earlier, strong);
      var fs := RunHolds(earlier, strong);
      var g := LastHolds(r, fs, strong);
      hs := fs + [g];
      ExtendExplains(r, earlier, fs, g, strong);
    }
  }

  lemma LastHolds(r: Run, fs: seq<Hist>, strong: bool) returns (g: Hist)
    requires IsRun(r) && Uncompacted(r) && (strong ==> Orderly(r)) && |fs| == |r.actions| > 0
    requires Holds(r.states[|fs| - 1], fs[|fs| - 1], strong)
    ensures Holds(r.states[|fs|], g, strong) && Evolves(fs[|fs| - 1], g, strong)
  {
    var k := |fs| - 1;
    assert StepAt(r, k) && UncompactedAt(r, k + 1) && (strong ==> OrderlyAt(r, k));
    g := NextHolds(r.states[k], fs[k], strong, r.actions[k], r.states[k + 1]);
  }

  lemma ExtendExplains(r: Run, e: Run, fs: seq<Hist>, g: Hist, strong: bool)
    requires Explains(fs, e, strong) && |fs| > 0 && |r.states| == |fs| + 1 && e.states == r.states[..|fs|]
    requires Holds(r.states[|fs|], g, strong) && Evolves(fs[|fs| - 1], g, strong)
    ensures Explains(fs + [g], r, strong)
  {
    var hs := fs + [g];
    forall i, j | 0 <= i <= j < |hs| ensures Evolves(hs[i], hs[j], strong) {
      if j == |fs| && i < j {
        assert Evolves(fs[i], fs[|fs| - 1], strong);
        EvolvesTransitive(fs[i], fs[|fs| - 1], g, strong);
      }
    }
    forall i | 0 <= i < |hs| ensures Holds(r.states[i], hs[i], strong) {
      if i < |fs| {
        assert Holds(e.states[i], fs[i], strong);
      }
    }
  }

  lemma EarlierRun(r: Run, e: Run, strong: bool)
    requires IsRun(r) && Uncompacted(r) && (strong ==> Orderly(r)) && r.actions != []
    requires e == Run(r.states[..|r.states| - 1], r.actions[..|r.actions| - 1])
    ensures IsRun(e) && Uncompacted(e) && (strong ==> Orderly(e))
  {
    forall i: nat ensures StepAt(e, i) && UncompactedAt(e, i) && (strong ==> OrderlyAt(e, i)) {
      assert StepAt(r, i) && UncompactedAt(r, i) && (strong ==> OrderlyAt(r, i));
    }
  }
}
