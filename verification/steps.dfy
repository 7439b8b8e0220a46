// Small moves a cluster makes -- a message leaves or joins a link, a node steps
// down, votes, campaigns, wins, appends -- each shown to keep the invariant.
// Events are sequences of these moves.
module Steps {
  import opened Types
  import opened Nodes
  import opened Clusters
  import opened Histories

  // --- Token arithmetic ---

  lemma {:induction false} TokensConcat(a: seq<Msg>, b: seq<Msg>, term: Term)
    ensures Requests(a + b, term) == Requests(a, term) + Requests(b, term)
    ensures Grants(a + b, term) == Grants(a, term) + Grants(b, term)
  {
    if b == [] {
      assert a + b == a;
    } else {
      TokensConcat(a, b[..|b| - 1], term);
      assert (a + b)[..|a + b| - 1] == a + b[..|b| - 1];
    }
  }

  lemma TokensRemoved(q: seq<Msg>, k: nat, term: Term)
    requires k < |q|
    ensures Requests(q[..k] + q[k + 1..], term) ==
            Requests(q, term) - if q[k].RequestVote? && q[k].term == term then 1 else 0
    ensures Grants(q[..k] + q[k + 1..], term) ==
            Grants(q, term) - if q[k] == RequestVoteResponse(term, true) then 1 else 0
  {
    assert q == q[..k] + ([q[k]] + q[k + 1..]);
    TokensConcat(q[..k], [q[k]] + q[k + 1..], term);
    TokensConcat([q[k]], q[k + 1..], term);
    TokensConcat(q[..k], q[k + 1..], term);
  }

  lemma TokensAdded(q: seq<Msg>, m: Msg, term: Term)
    ensures Requests(q + [m], term) == Requests(q, term) + if m.RequestVote? && m.term == term then 1 else 0
    ensures Grants(q + [m], term) == Grants(q, term) + if m == RequestVoteResponse(term, true) then 1 else 0
  {
    assert (q + [m])[..|q + [m]| - 1] == q;
  }

  // --- Messages leave and join ---

  // Nodes are filed under their own ids.
  ghost predicate NamedAt(nodes: map<NodeId, Node>, id: NodeId) { id in nodes ==> nodes[id].id == id }

  ghost predicate Named(nodes: map<NodeId, Node>) { forall id: NodeId :: NamedAt(nodes, id) }

  lemma PlainIsNamed(nodes: map<NodeId, Node>)
    requires PlainNodes(nodes)
    ensures Named(nodes)
  {
    forall id: NodeId ensures NamedAt(nodes, id) {
      assert PlainAt(nodes, id);
    }
  }

  // A vote carried by this message could still be counted exactly once.
  ghost predicate TokenFree(nodes: map<NodeId, Node>, net: Net, from: NodeId, to: NodeId, m: Msg) {
    && (m.RequestVote? && from in nodes ==> Tokens(nodes[from], net, m.term, to) == 0)
    && (m.RequestVoteResponse? && m.voteGranted && to in nodes ==> Tokens(nodes[to], net, m.term, from) == 0)
  }

  lemma PullMessages(net: Net, h: Hist, all: set<NodeId>, from: NodeId, to: NodeId, k: nat)
    requires MsgsOk(net, h, all) && k < |Queue(net, from, to)|
    ensures MsgsOk(Pull(net, from, to, k), h, all)
  {
    var q, d := Queue(net, from, to), Pull(net, from, to, k);
    forall f: NodeId, t: NodeId, j: nat ensures FlightOk(d, h, all, f, t, j) {
      assert FlightOk(net, h, all, f, t, if f == from && t == to && j >= k then j + 1 else j);
    }
  }

  lemma PullTokens(nodes: map<NodeId, Node>, net: Net, from: NodeId, to: NodeId, k: nat)
    requires Named(nodes) && TokensOk(nodes, net) && from != to && k < |Queue(net, from, to)|
    ensures TokensOk(nodes, Pull(net, from, to, k))
    ensures TokenFree(nodes, Pull(net, from, to, k), from, to, Queue(net, from, to)[k])
  {
    var q, d := Queue(net, from, to), Pull(net, from, to, k);
    var m := q[k];
    forall term: Term, id: NodeId, voter: NodeId ensures TokenOk(nodes, d, term, id, voter) {
      TokensRemoved(q, k, term);
      assert TokenOk(nodes, net, term, id, voter) && NamedAt(nodes, id);
    }
    if m.RequestVote? || m.RequestVoteResponse? {
      TokensRemoved(q, k, m.term);
      assert NamedAt(nodes, from) && NamedAt(nodes, to);
      assert TokenOk(nodes, net, m.term, from, to) && TokenOk(nodes, net, m.term, to, from);
    }
  }

  lemma PullKeeps(c: Cluster, h: Hist, from: NodeId, to: NodeId, k: nat)
    requires Inv(c, h) && k < |Queue(c.net, from, to)|
    ensures Inv(c.(net := Pull(c.net, from, to, k)), h)
    ensures TokenFree(c.nodes, Pull(c.net, from, to, k), from, to, Queue(c.net, from, to)[k])
    ensures from != to && from in c.nodes && to in c.nodes && MsgOk(h, from, to, Queue(c.net, from, to)[k])
  {
    assert FlightOk(c.net, h, c.nodes.Keys, from, to, k);
    PullMessages(c.net, h, c.nodes.Keys, from, to, k);
    PlainIsNamed(c.nodes);
    PullTokens(c.nodes, c.net, from, to, k);
  }

  lemma PushMessages(net: Net, h: Hist, all: set<NodeId>, from: NodeId, to: NodeId, m: Msg)
    requires MsgsOk(net, h, all) && from in all && to in all && from != to && MsgOk(h, from, to, m)
    ensures MsgsOk(Push(net, from, to, m), h, all)
  {
    forall f: NodeId, t: NodeId, j: nat ensures FlightOk(Push(net, from, to, m), h, all, f, t, j) {
      assert FlightOk(net, h, all, f, t, j);
    }
  }

  lemma PushTokens(nodes: map<NodeId, Node>, net: Net, from: NodeId, to: NodeId, m: Msg)
    requires Named(nodes) && TokensOk(nodes, net) && from != to && TokenFree(nodes, net, from, to, m)
    ensures TokensOk(nodes, Push(net, from, to, m))
  {
    forall term: Term, id: NodeId, voter: NodeId ensures TokenOk(nodes, Push(net, from, to, m), term, id, voter) {
      TokensAdded(Queue(net, from, to), m, term);
      assert TokenOk(nodes, net, term, id, voter) && NamedAt(nodes, id);
    }
  }

  lemma PushKeeps(c: Cluster, h: Hist, from: NodeId, to: NodeId, m: Msg)
    requires Inv(c, h) && from in c.nodes && to in c.nodes && from != to
    requires MsgOk(h, from, to, m) && TokenFree(c.nodes, c.net, from, to, m)
    ensures Inv(c.(net := Push(c.net, from, to, m)), h)
  {
    PushMessages(c.net, h, c.nodes.Keys, from, to, m);
    PlainIsNamed(c.nodes);
    PushTokens(c.nodes, c.net, from, to, m);
  }

  // --- Sending ---

  // A message that carries no vote.
  predicate Voteless(m: Msg) { !m.RequestVote? && !(m.RequestVoteResponse? && m.voteGranted) }

  ghost predicate Sendable(h: Hist, all: set<NodeId>, id: NodeId, e: Envelope) {
    e.to in all && e.to != id && MsgOk(h, id, e.to, e.msg) && Voteless(e.msg)
  }

  lemma {:induction false} PostKeeps(c: Cluster, h: Hist, id: NodeId, sent: seq<Envelope>)
    requires Inv(c, h) && id in c.nodes
    requires forall e :: e in sent ==> Sendable(h, c.nodes.Keys, id, e)
    ensures Inv(c.(net := Post(c.net, id, sent)), h)
  {
    if sent != [] {
      var init, last := sent[..|sent| - 1], sent[|sent| - 1];
      PostKeeps(c, h, id, init);
      assert Sendable(h, c.nodes.Keys, id, last);
      PushKeeps(c.(net := Post(c.net, id, init)), h, id, last.to, last.msg);
    }
  }

  lemma {:induction false} PostConcat(net: Net, id: NodeId, a: seq<Envelope>, b: seq<Envelope>)
    ensures Post(net, id, a + b) == Post(Post(net, id, a), id, b)
  {
    if b == [] {
      assert a + b == a;
    } else {
      var init, last := b[..|b| - 1], b[|b| - 1];
      assert (a + b)[..|a + b| - 1] == a + init && (a + b)[|a + b| - 1] == last;
      PostConcat(net, id, a, init);
      assert Post(net, id, a + b) == Push(Post(net, id, a + init), id, last.to, last.msg);
    }
  }

  lemma {:induction false} BroadcastContents(to: seq<NodeId>, m: Msg)
    ensures |Broadcast(to, m)| == |to|
    ensures forall e :: e in Broadcast(to, m) ==> e.to in to && e.msg == m
  {
    if to != [] {
      BroadcastContents(to[..|to| - 1], m);
    }
  }

  lemma {:induction false} RequestVotes(c: Cluster, h: Hist, id: NodeId, to: seq<NodeId>, m: Msg)
    requires Inv(c, h) && id in c.nodes && m.RequestVote? && Distinct(to)
    requires forall v :: v in to ==> v != id && v in c.nodes
    requires forall v :: v in to ==> MsgOk(h, id, v, m)
    requires forall v :: v in to ==> Tokens(c.nodes[id], c.net, m.term, v) == 0
    ensures Inv(c.(net := Post(c.net, id, Broadcast(to, m))), h)
    ensures forall f, t :: t !in to || f != id ==> Queue(Post(c.net, id, Broadcast(to, m)), f, t) == Queue(c.net, f, t)
  {
    if to != [] {
      var init, last := to[..|to| - 1], to[|to| - 1];
      RequestVotes(c, h, id, init, m);
      var d := c.(net := Post(c.net, id, Broadcast(init, m)));
      assert last !in init && last in to;
      assert PlainAt(c.nodes, id);
      PushKeeps(d, h, id, last, m);
      BroadcastContents(init, m);
      assert Broadcast(to, m)[..|to| - 1] == Broadcast(init, m);
    }
  }

  // --- Following single links and steps ---

  // What a list of envelopes puts on one link.
  function For(sent: seq<Envelope>, to: NodeId): seq<Msg> {
    if sent == [] then []
    else For(sent[..|sent| - 1], to) + if sent[|sent| - 1].to == to then [sent[|sent| - 1].msg] else []
  }

  lemma {:induction false} PostFor(net: Net, id: NodeId, sent: seq<Envelope>, from: NodeId, to: NodeId)
    ensures Queue(Post(net, id, sent), from, to) == Queue(net, from, to) + if from == id then For(sent, to) else []
  {
    if sent != [] {
      PostFor(net, id, sent[..|sent| - 1], from, to);
    }
  }

  lemma ForOne(e: Envelope, to: NodeId)
    ensures For([e], to) == if e.to == to then [e.msg] else []
  {
    assert [e][..0] == [];
  }

  lemma {:induction false} ForBroadcast(to: seq<NodeId>, m: Msg, x: NodeId)
    requires Distinct(to)
    ensures For(Broadcast(to, m), x) == if x in to then [m] else []
  {
    if to != [] {
      var init, last := to[..|to| - 1], to[|to| - 1];
      ForBroadcast(init, m, x);
      BroadcastContents(init, m);
      assert to == init + [last] && last !in init;
      assert Broadcast(to, m)[..|Broadcast(to, m)| - 1] == Broadcast(init, m);
    }
  }

  ghost predicate IsStep(n: Node, e: Event, s: Step) { s == OnEvent(n, e) }

  // A node answers an event by becoming m and sending these messages.
  ghost predicate Answers(n: Node, e: Event, m: Node, sent: seq<Envelope>) {
    forall s: Step :: IsStep(n, e, s) ==> s == Step(m, sent)
  }
}
