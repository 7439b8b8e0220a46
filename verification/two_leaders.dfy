// From four members on, duplicated grants elect two leaders of one term: two
// candidates with one voter each, every grant delivered often enough to look
// like a quorum.
module TwoLeaders {
  import opened Types
  import opened Configurations
  import opened Elections
  import opened Nodes
  import opened Clusters
  import opened Steps
  import opened Moves
  import opened Ballots
  import opened Duplication

  function Last(r: DupRun): Cluster
    requires r.states != []
  {
    r.states[|r.states| - 1]
  }

  lemma Extend(c: Cluster, r: DupRun, m: Move) returns (s: DupRun)
    requires RunsFrom(c, r) && CanMove(Last(r), m)
    ensures RunsFrom(c, s) && Last(s) == Moved(Last(r), m)
  {
    s := DupRun(r.states + [Moved(Last(r), m)], r.moves + [m]);
    forall i: nat ensures MoveAt(s, i) {
      assert MoveAt(r, i);
    }
  }

  // A candidate x and its voter y: the two nodes and the links between them.
  ghost predicate Between(c: Cluster, x: NodeId, y: NodeId, n: Node, v: Node, xy: seq<Msg>, yx: seq<Msg>) {
    && x != y && x in c.nodes && y in c.nodes && c.nodes[x] == n && c.nodes[y] == v
    && Queue(c.net, x, y) == xy && Queue(c.net, y, x) == yx
  }

  // Nothing the two did touched other nodes or their links.
  ghost predicate Untouched(c: Cluster, d: Cluster, x: NodeId, y: NodeId) {
    && d.nodes.Keys == c.nodes.Keys
    && (forall z :: z in c.nodes && z != x && z != y ==> d.nodes[z] == c.nodes[z])
    && forall f, t :: f != x && f != y ==> Queue(d.net, f, t) == Queue(c.net, f, t)
  }

  lemma UntouchedOn(c: Cluster, d: Cluster, e: Cluster, x: NodeId, y: NodeId)
    requires Untouched(c, d, x, y) && Untouched(d, e, x, y)
    ensures Untouched(c, e, x, y)
  {
  }

  // x starts on its own.
  lemma Begins(c: Cluster, r: DupRun, x: NodeId, y: NodeId, n: Node, v: Node, m: Node, sent: seq<Envelope>)
    returns (s: DupRun)
    requires RunsFrom(c, r) && Between(Last(r), x, y, n, v, [], [])
    requires Answers(n, TimerFired(ElectionTimer), m, sent)
    ensures RunsFrom(c, s) && Between(Last(s), x, y, m, v, For(sent, y), []) && Untouched(Last(r), Last(s), x, y)
  {
    var d := Last(r);
    assert IsStep(n, TimerFired(ElectionTimer), OnEvent(n, TimerFired(ElectionTimer)));
    s := Extend(c, r, Act(ElectionTimeout(x)));
    forall f, t ensures Queue(Last(s).net, f, t) == Queue(d.net, f, t) + if f == x then For(sent, t) else [] {
      PostFor(d.net, x, sent, f, t);
    }
  }

  // One of the two, a, takes the first message the other has sent it.
  lemma Takes(c: Cluster, r: DupRun, a: NodeId, b: NodeId, n: Node, v: Node, m: Node, sent: seq<Envelope>)
    returns (s: DupRun)
    requires RunsFrom(c, r) && a != b && a in Last(r).nodes && b in Last(r).nodes
    requires Last(r).nodes[a] == n && Last(r).nodes[b] == v && Queue(Last(r).net, b, a) != []
    requires Answers(n, Message(b, Queue(Last(r).net, b, a)[0]), m, sent)
    ensures RunsFrom(c, s)
    ensures Between(Last(s), a, b, m, v, Queue(Last(r).net, a, b) + For(sent, b), Queue(Last(r).net, b, a)[1..])
    ensures Untouched(Last(r), Last(s), a, b)
  {
    var d, q := Last(r), Queue(Last(r).net, b, a);
    var net := Pull(d.net, b, a, 0);
    assert q[..0] + q[1..] == q[1..];
    assert IsStep(n, Message(b, q[0]), OnEvent(n, Message(b, q[0])));
    s := Extend(c, r, Act(Deliver(b, a, 0)));
    forall f, t ensures Queue(Last(s).net, f, t) == Queue(net, f, t) + if f == a then For(sent, t) else [] {
      PostFor(net, a, sent, f, t);
    }
  }

  function Copies(m: Msg, k: nat): (q: seq<Msg>)
    ensures |q| == k && forall i :: 0 <= i < k ==> q[i] == m
  {
    if k == 0 then [] else Copies(m, k - 1) + [m]
  }

  lemma CopiesTail(m: Msg, k: nat)
    requires k > 0
    ensures Copies(m, k)[1..] == Copies(m, k - 1) && Copies(m, k)[0] == m
  {
  }

  // The only message on the way to x is duplicated until there are k of it.
  lemma {:induction false} Duplicates(c: Cluster, r: DupRun, x: NodeId, y: NodeId, n: Node, v: Node, xy: seq<Msg>,
                                      m: Msg, k: nat)
    returns (s: DupRun)
    requires RunsFrom(c, r) && Between(Last(r), x, y, n, v, xy, [m]) && k > 0
    ensures RunsFrom(c, s) && Between(Last(s), x, y, n, v, xy, Copies(m, k)) && Untouched(Last(r), Last(s), x, y)
    decreases k
  {
    if k == 1 {
      assert Copies(m, 0) == [];
      s := r;
    } else {
      var q := Duplicates(c, r, x, y, n, v, xy, m, k - 1);
      s := Extend(c, q, Copy(y, x, 0));
      UntouchedOn(Last(r), Last(q), Last(s), x, y);
    }
  }

  // --- What the two nodes do ---

  // A node that has just started, in a cluster of more than one.
  ghost predicate Young(n: Node, id: NodeId, all: set<NodeId>) {
    FreshNode(n, id, all) && |n.config.members| > 1 && n.id == id
  }

  function Polling(n: Node, preVotes: seq<NodeId>): Node { n.(election := Election([], preVotes, true)) }

  function Poll(x: NodeId): Msg { PreVoteRequest(0, x, 0, 0) }

  function Ballot(x: NodeId): Msg { RequestVote(1, x, 0, 0) }

  lemma PeerHears(n: Node, x: NodeId, y: NodeId, all: set<NodeId>, m: Msg)
    requires Young(n, x, all) && y in all && y != x
    ensures For(Broadcast(Peers(n.config.members, x), m), y) == [m]
  {
    WithoutDistinct(n.config.members, x);
    assert y in Elements(n.config.members);
    ForBroadcast(Peers(n.config.members, x), m, y);
  }

  lemma PollNode(n: Node, x: NodeId, all: set<NodeId>)
    requires Young(n, x, all)
    ensures Answers(n, TimerFired(ElectionTimer), Polling(n, [x]), Broadcast(Peers(n.config.members, x), Poll(x)))
  {
  }

  lemma AgreeNode(v: Node, y: NodeId, x: NodeId, all: set<NodeId>)
    requires Young(v, y, all)
    ensures Answers(v, Message(x, Poll(x)), v, [Envelope(x, PreVoteResponse(0, true))])
  {
  }

  lemma PollGoesOn(n: Node, x: NodeId, all: set<NodeId>, y: NodeId, preVotes: seq<NodeId>)
    requires Young(n, x, all) && |preVotes| + 1 < QuorumSize(n.config.members)
    ensures Answers(Polling(n, preVotes), Message(y, PreVoteResponse(0, true)), Polling(n, preVotes + [y]), [])
  {
  }

  function Running(n: Node, preVotes: seq<NodeId>): Node { Campaigner(n.(election := Election([], preVotes, false))) }

  lemma PollEnds(n: Node, x: NodeId, all: set<NodeId>, y: NodeId, preVotes: seq<NodeId>)
    requires Young(n, x, all) && |preVotes| + 1 >= QuorumSize(n.config.members)
    ensures Answers(Polling(n, preVotes), Message(y, PreVoteResponse(0, true)), Running(n, preVotes + [y]),
                    Broadcast(Peers(n.config.members, x), Ballot(x)))
  {
  }

  lemma VoteNode(v: Node, y: NodeId, x: NodeId, all: set<NodeId>) returns (w: Node)
    requires Young(v, y, all)
    ensures Answers(v, Message(x, Ballot(x)), w, [Envelope(x, RequestVoteResponse(1, true))])
  {
    w := OnMessage(v, x, Ballot(x)).node;
  }

  lemma CountNode(n: Node, y: NodeId) returns (m: Node, sent: seq<Envelope>)
    requires n.role == Candidate && n.term == 1
    ensures Answers(n, Message(y, RequestVoteResponse(1, true)), m, sent)
    ensures if HasQuorum(n.config.members, |n.election.votes| + 1) then m.role == Leader && m.term == 1
            else m == n.(election := n.election.(votes := n.election.votes + [y])) && sent == []
  {
    var s := OnMessage(n, y, RequestVoteResponse(1, true));
    m, sent := s.node, s.sent;
    CountsAgain(n, y);
  }

  // --- The election ---

  // Duplicates of one pre-vote reply, one after the other.
  lemma {:induction false} Polls(c: Cluster, r: DupRun, x: NodeId, y: NodeId, n: Node, v: Node, preVotes: seq<NodeId>,
                                 k: nat, all: set<NodeId>)
    returns (s: DupRun, preVotes': seq<NodeId>)
    requires RunsFrom(c, r) && Young(n, x, all) && y in all && k > 0
    requires Between(Last(r), x, y, Polling(n, preVotes), v, [], Copies(PreVoteResponse(0, true), k))
    requires |preVotes| + k == QuorumSize(n.config.members)
    ensures RunsFrom(c, s) && Between(Last(s), x, y, Running(n, preVotes'), v, [Ballot(x)], [])
    ensures Untouched(Last(r), Last(s), x, y)
    decreases k
  {
    CopiesTail(PreVoteResponse(0, true), k);
    if k == 1 {
      preVotes' := preVotes + [y];
      PollEnds(n, x, all, y, preVotes);
      PeerHears(n, x, y, all, Ballot(x));
      s := Takes(c, r, x, y, Polling(n, preVotes), v, Running(n, preVotes'),
                 Broadcast(Peers(n.config.members, x), Ballot(x)));
    } else {
      PollGoesOn(n, x, all, y, preVotes);
      var q := Takes(c, r, x, y, Polling(n, preVotes), v, Polling(n, preVotes + [y]), []);
      s, preVotes' := Polls(c, q, x, y, n, v, preVotes + [y], k - 1, all);
      UntouchedOn(Last(r), Last(q), Last(s), x, y);
    }
  }

  // Duplicates of one vote, one after the other.
  lemma {:induction false} Counts(c: Cluster, r: DupRun, x: NodeId, y: NodeId, n: Node, v: Node, xy: seq<Msg>, k: nat)
    returns (s: DupRun)
    requires RunsFrom(c, r) && Between(Last(r), x, y, n, v, xy, Copies(RequestVoteResponse(1, true), k)) && k > 0
    requires n.role == Candidate && n.term == 1 && |n.election.votes| + k == QuorumSize(n.config.members)
    ensures RunsFrom(c, s) && Untouched(Last(r), Last(s), x, y)
    ensures x in Last(s).nodes && Last(s).nodes[x].role == Leader && Last(s).nodes[x].term == 1
    decreases k
  {
    CopiesTail(RequestVoteResponse(1, true), k);
    var m, sent := CountNode(n, y);
    var q := Takes(c, r, x, y, n, v, m, sent);
    if k == 1 {
      s := q;
    } else {
      s := Counts(c, q, x, y, m, v, xy + For(sent, y), k - 1);
      UntouchedOn(Last(r), Last(q), Last(s), x, y);
    }
  }

  // x leads term 1 with the vote of y alone.
  lemma ElectsWithOneVote(c: Cluster, r: DupRun, x: NodeId, y: NodeId, n: Node, v: Node, all: set<NodeId>)
    returns (s: DupRun)
    requires RunsFrom(c, r) && Between(Last(r), x, y, n, v, [], [])
    requires Young(n, x, all) && Young(v, y, all) && y in all && QuorumSize(n.config.members) > 1
    ensures RunsFrom(c, s) && Untouched(Last(r), Last(s), x, y)
    ensures x in Last(s).nodes && Last(s).nodes[x].role == Leader && Last(s).nodes[x].term == 1
  {
    var r1 := Asks(c, r, x, y, n, v, all);
    var k := QuorumSize(n.config.members) - 1;
    var r2 := Duplicates(c, r1, x, y, Polling(n, [x]), v, [], PreVoteResponse(0, true), k);
    UntouchedOn(Last(r), Last(r1), Last(r2), x, y);
    var r3, preVotes := Polls(c, r2, x, y, n, v, [x], k, all);
    UntouchedOn(Last(r), Last(r2), Last(r3), x, y);
    var r4, w := Votes(c, r3, x, y, Running(n, preVotes), v, all);
    UntouchedOn(Last(r), Last(r3), Last(r4), x, y);
    var r5 := Duplicates(c, r4, x, y, Running(n, preVotes), w, [], RequestVoteResponse(1, true), k);
    UntouchedOn(Last(r), Last(r4), Last(r5), x, y);
    s := Counts(c, r5, x, y, Running(n, preVotes), w, [], k);
    UntouchedOn(Last(r), Last(r5), Last(s), x, y);
  }

  lemma Asks(c: Cluster, r: DupRun, x: NodeId, y: NodeId, n: Node, v: Node, all: set<NodeId>) returns (s: DupRun)
    requires RunsFrom(c, r) && Between(Last(r), x, y, n, v, [], [])
    requires Young(n, x, all) && Young(v, y, all) && y in all
    ensures RunsFrom(c, s) && Between(Last(s), x, y, Polling(n, [x]), v, [], [PreVoteResponse(0, true)])
    ensures Untouched(Last(r), Last(s), x, y)
  {
    PollNode(n, x, all);
    PeerHears(n, x, y, all, Poll(x));
    var q := Begins(c, r, x, y, n, v, Polling(n, [x]), Broadcast(Peers(n.config.members, x), Poll(x)));
    AgreeNode(v, y, x, all);
    ForOne(Envelope(x, PreVoteResponse(0, true)), x);
    s := Takes(c, q, y, x, v, Polling(n, [x]), v, [Envelope(x, PreVoteResponse(0, true))]);
    UntouchedOn(Last(r), Last(q), Last(s), x, y);
  }

  lemma Votes(c: Cluster, r: DupRun, x: NodeId, y: NodeId, n: Node, v: Node, all: set<NodeId>)
    returns (s: DupRun, w: Node)
    requires RunsFrom(c, r) && Between(Last(r), x, y, n, v, [Ballot(x)], []) && Young(v, y, all)
    ensures RunsFrom(c, s) && Between(Last(s), x, y, n, w, [], [RequestVoteResponse(1, true)])
    ensures Untouched(Last(r), Last(s), x, y)
  {
    w := VoteNode(v, y, x, all);
    ForOne(Envelope(x, RequestVoteResponse(1, true)), x);
    s := Takes(c, r, y, x, v, n, w, [Envelope(x, RequestVoteResponse(1, true))]);
  }

  // --- From four nodes on ---

  lemma YoungAt(c: Cluster, id: NodeId)
    requires Initial(c) && id in c.nodes && |c.nodes.Keys| >= 2
    ensures Young(c.nodes[id], id, c.nodes.Keys) && QuorumSize(c.nodes[id].config.members) > 1
  {
    assert FreshAt(c, id);
    DistinctCardinality(c.nodes[id].config.members);
  }

  // Two candidates and a voter for each.
  lemma FourNodes(all: set<NodeId>) returns (a: NodeId, x: NodeId, b: NodeId, y: NodeId)
    requires |all| >= 4
    ensures {a, x, b, y} <= all && a != x && a != b && a != y && x != b && x != y && b != y
  {
    a :| a in all;
    assert |all - {a}| >= 3;
    x :| x in all - {a};
    assert |all - {a} - {x}| >= 2;
    b :| b in all - {a} - {x};
    assert |all - {a} - {x} - {b}| >= 1;
    y :| y in all - {a} - {x} - {b};
  }

  // Two nodes that are as they started come to a leader and its voter.
  lemma PairElects(c: Cluster, r: DupRun, x: NodeId, y: NodeId) returns (s: DupRun)
    requires Initial(c) && x in c.nodes && y in c.nodes && |c.nodes.Keys| >= 2
    requires RunsFrom(c, r) && Between(Last(r), x, y, c.nodes[x], c.nodes[y], [], [])
    ensures RunsFrom(c, s) && Untouched(Last(r), Last(s), x, y)
    ensures x in Last(s).nodes && Last(s).nodes[x].role == Leader && Last(s).nodes[x].term == 1
  {
    YoungAt(c, x);
    YoungAt(c, y);
    s := ElectsWithOneVote(c, r, x, y, c.nodes[x], c.nodes[y], c.nodes.Keys);
  }

  // Each of two nodes leads term 1 in the end.
  lemma TwoLead(c: Cluster) returns (r: DupRun, i: nat, a: NodeId, b: NodeId)
    requires Initial(c) && |c.nodes.Keys| >= 4
    ensures RunsFrom(c, r) && LeadsIn(r, i, a, 1) && LeadsIn(r, i, b, 1) && a != b
  {
    var x, y;
    a, x, b, y := FourNodes(c.nodes.Keys);
    var r1 := PairElects(c, DupRun([c], []), a, x);
    r := PairElects(c, r1, b, y);
    i := |r.states| - 1;
    assert a in Last(r).nodes && Last(r).nodes[a] == Last(r1).nodes[a];
  }

  // With links that duplicate, at most one node leads a term in every run if and
  // only if there are at most three nodes.
  lemma OneLeaderIffSmall(c: Cluster)
    requires Initial(c)
    ensures (forall r: DupRun :: RunsFrom(c, r) ==> OneLeaderPerTerm(r)) <==> |c.nodes.Keys| <= 3
  {
    if |c.nodes.Keys| <= 3 {
      forall r: DupRun | RunsFrom(c, r) ensures OneLeaderPerTerm(r) {
        forall i: nat, a: NodeId, j: nat, b: NodeId, t: Term | LeadsIn(r, i, a, t) && LeadsIn(r, j, b, t)
          ensures a == b
        {
          SmallClusterLeaders(c, r, i, a, j, b, t);
        }
      }
    } else {
      var r, i, a, b := TwoLead(c);
      assert RunsFrom(c, r) && !OneLeaderPerTerm(r);
    }
  }
}
