// Why accepted heartbeats must not meet a stale tail: a run with in-order links,
// no compaction and no crash in which Leader Completeness and State Machine
// Safety both fail.
module StaleTail {
  import opened Types
  import opened StateMachines
  import opened Configurations
  import opened Storage
  import opened Medians
  import opened Replication
  import opened Elections
  import opened ConfigChanges
  import opened Nodes
  import opened Clusters
  import opened RaftSafety
  import opened Steps
  import opened ReplicationEvents

  // The claim in an accepting reply is the follower's last index. It is what the
  // message vouches for exactly when the message starts inside the follower's
  // window and is non-empty or meets nothing beyond prevLogIndex; otherwise it
  // claims too much. (Index 0 is accepted even when it is long compacted away.)
  lemma ReplyIsTruthfulIff(n: Node, from: NodeId, m: Msg)
    requires m.AppendEntries? && m.term == n.term && CheckLogConsistency(n.store, m.prevLogIndex, m.prevLogTerm)
    requires 1 <= n.store.firstIndex
    requires n.store.snapshot.Some? ==> n.store.firstIndex == n.store.snapshot.value.lastIncludedIndex + 1
    ensures var sent := OnMessage(n, from, m).sent;
            && |sent| == 1 && sent[0].to == from
            && sent[0].msg.AppendEntriesResponse? && sent[0].msg.success
            && sent[0].msg.matchIndex >= m.prevLogIndex + |m.entries|
            && (sent[0].msg.matchIndex == m.prevLogIndex + |m.entries| <==>
                n.store.firstIndex <= m.prevLogIndex + 1 &&
                (m.entries != [] || n.store.LastLogIndex() == m.prevLogIndex))
  {
  }

  // --- Building a run one action at a time ---

  ghost predicate InOrderAt(r: Run, i: nat) { i < |r.actions| ==> InOrder(r.actions[i]) }

  ghost predicate Ordered(r: Run) { forall i: nat :: InOrderAt(r, i) }

  ghost predicate CleanAt(r: Run, i: nat) {
    i < |r.actions| && i < |r.states| && Enabled(r.states[i], r.actions[i]) ==> NoStaleTail(r.states[i], r.actions[i])
  }

  ghost predicate Clean(r: Run) { forall i: nat :: CleanAt(r, i) }

  ghost predicate Good(r: Run) { IsRun(r) && Uncompacted(r) }

  function Last(r: Run): Cluster
    requires r.states != []
  {
    r.states[|r.states| - 1]
  }

  // A good run that prolongs another.
  ghost predicate Prolongs(r: Run, s: Run) {
    Good(s) && |r.states| <= |s.states| && forall i :: 0 <= i < |r.states| ==> s.states[i] == r.states[i]
  }

  // The same, delivering in order.
  ghost predicate Continues(r: Run, s: Run) { Prolongs(r, s) && (Ordered(r) ==> Ordered(s)) }

  // No stale tail is met on the way.
  ghost predicate Tidy(r: Run, s: Run) { Clean(r) ==> Clean(s) }

  lemma Extend(r: Run, a: Action) returns (s: Run)
    requires Good(r) && Enabled(Last(r), a) && NoCompaction(Do(Last(r), a))
    ensures Prolongs(r, s) && Last(s) == Do(Last(r), a) && |s.states| == |r.states| + 1
    ensures s.actions == r.actions + [a] && s.states == r.states + [Do(Last(r), a)]
    ensures InOrder(a) ==> Continues(r, s)
    ensures NoStaleTail(Last(r), a) ==> Tidy(r, s)
  {
    s := Run(r.states + [Do(Last(r), a)], r.actions + [a]);
    forall i: nat ensures StepAt(s, i) {
      assert StepAt(r, i);
    }
    forall i: nat ensures UncompactedAt(s, i) {
      assert UncompactedAt(r, i);
    }
    if InOrder(a) && Ordered(r) {
      forall i: nat ensures InOrderAt(s, i) {
        assert InOrderAt(r, i);
      }
    }
    if NoStaleTail(Last(r), a) && Clean(r) {
      forall i: nat ensures CleanAt(s, i) {
        assert CleanAt(r, i);
      }
    }
  }

  // --- Three nodes ---

  function PeersOf(id: NodeId): seq<NodeId> {
    if id == 1 then [2, 3] else if id == 2 then [1, 3] else [1, 2]
  }

  // A node of the trio: full membership, nothing compacted, little committed.
  predicate Member(n: Node, id: NodeId) {
    && id in {1, 2, 3} && n.id == id
    && n.config == Config([id] + PeersOf(id), None)
    && n.store.firstIndex == 1 && n.store.snapshot == None && n.store.currentTerm == n.term
    && n.threshold == 100 && n.repl.commitIndex < 100 && n.repl.catchingUp == map[]
  }

  ghost predicate MemberAt(c: Cluster, id: NodeId) { id in c.nodes ==> Member(c.nodes[id], id) }

  ghost predicate Trio(c: Cluster) { c.nodes.Keys == {1, 2, 3} && forall id: NodeId :: MemberAt(c, id) }

  lemma PeersAre(id: NodeId)
    requires id in {1, 2, 3}
    ensures Peers([id] + PeersOf(id), id) == PeersOf(id)
  {
    var s := [id] + PeersOf(id);
    assert s[..2][..1] == [id] && s[..2] == [id, s[1]] && [id][..0] == [];
    assert Without([id], id) == [];
    assert Without(s[..2], id) == [s[1]];
  }

  lemma BroadcastTwo(id: NodeId, m: Msg)
    requires id in {1, 2, 3}
    ensures Broadcast(PeersOf(id), m) == [Envelope(PeersOf(id)[0], m), Envelope(PeersOf(id)[1], m)]
  {
    var p := PeersOf(id);
    assert p[..1] == [p[0]] && p[..1][..0] == [];
    assert Broadcast([p[0]], m) == [Envelope(p[0], m)];
  }

  lemma AppendTwo(n: Node)
    requires Member(n, n.id)
    ensures var p := PeersOf(n.id);
            SendAppendEntriesToFollowers(n) ==
            [Envelope(p[0], GetAppendEntriesForPeer(n.repl, p[0], n.id, n.store)),
             Envelope(p[1], GetAppendEntriesForPeer(n.repl, p[1], n.id, n.store))]
  {
    var p := PeersOf(n.id);
    PeersAre(n.id);
    assert p[..1] == [p[0]] && p[..1][..0] == [];
    assert AppendEntriesTo(n, [p[0]]) == [Envelope(p[0], GetAppendEntriesForPeer(n.repl, p[0], n.id, n.store))];
  }

  function ToPeers(id: NodeId, a: Msg, b: Msg): seq<Envelope> {
    [Envelope(PeersOf(id)[0], a), Envelope(PeersOf(id)[1], b)]
  }

  lemma ForPeers(id: NodeId, a: Msg, b: Msg, to: NodeId)
    ensures For(ToPeers(id, a, b), to) == if to == PeersOf(id)[0] then [a] else if to == PeersOf(id)[1] then [b] else []
  {
    var p := PeersOf(id);
    assert ToPeers(id, a, b)[..1] == [Envelope(p[0], a)];
    ForOne(Envelope(p[0], a), to);
  }

  // The three ids, in some order.
  predicate Ids(x: NodeId, y: NodeId, z: NodeId) { {x, y, z} == {1, 2, 3} }

  lemma ForBoth(x: NodeId, y: NodeId, z: NodeId, m: Msg)
    requires Ids(x, y, z)
    ensures For(ToPeers(x, m, m), y) == [m] && For(ToPeers(x, m, m), z) == [m]
    ensures x != y && x != z && y != z
  {
    ForPeers(x, m, m, y);
    ForPeers(x, m, m, z);
  }

  lemma TrioKeeps(c: Cluster, id: NodeId, n: Node, d: Cluster)
    requires Trio(c) && Member(n, id) && d.nodes == c.nodes[id := n]
    ensures Trio(d) && NoCompaction(d)
  {
    forall i: NodeId ensures MemberAt(d, i) {
      assert MemberAt(c, i);
    }
    forall i | i in d.nodes ensures d.nodes[i].store.snapshot.None? {
      assert MemberAt(d, i);
    }
  }

  // One node's turn on its own account.
  lemma Turn(r: Run, a: Action, id: NodeId, e: Event, n: Node, sent: seq<Envelope>) returns (s: Run)
    requires Good(r) && Trio(Last(r)) && Member(n, id)
    requires (a == ElectionTimeout(id) && e == TimerFired(ElectionTimer)) ||
             (a.Client? && a.id == id && e == ClientCommand(a.payload))
    requires Answers(Last(r).nodes[id], e, n, sent)
    ensures Continues(r, s) && Trio(Last(s)) && Last(s).nodes == Last(r).nodes[id := n]
    ensures forall f, t :: Queue(Last(s).net, f, t) == Queue(Last(r).net, f, t) + if f == id then For(sent, t) else []
    ensures Tidy(r, s)
  {
    var c := Last(r);
    assert IsStep(c.nodes[id], e, OnEvent(c.nodes[id], e));
    assert Do(c, a) == Perform(c, id, e);
    TrioKeeps(c, id, n, Do(c, a));
    forall f, t ensures Queue(Do(c, a).net, f, t) == Queue(c.net, f, t) + if f == id then For(sent, t) else [] {
      PostFor(c.net, id, sent, f, t);
    }
    s := Extend(r, a);
  }

  // The first message of a link is delivered.
  lemma Arrives(r: Run, from: NodeId, to: NodeId, n: Node, sent: seq<Envelope>) returns (s: Run)
    requires Good(r) && Trio(Last(r)) && Member(n, to) && from != to
    requires Queue(Last(r).net, from, to) != []
    requires Answers(Last(r).nodes[to], Message(from, Queue(Last(r).net, from, to)[0]), n, sent)
    ensures Continues(r, s) && Trio(Last(s)) && Last(s).nodes == Last(r).nodes[to := n]
    ensures Queue(Last(s).net, from, to) == Queue(Last(r).net, from, to)[1..]
    ensures forall f, t :: f != from || t != to ==>
              Queue(Last(s).net, f, t) == Queue(Last(r).net, f, t) + if f == to then For(sent, t) else []
    ensures NoStaleTail(Last(r), Deliver(from, to, 0)) ==> Tidy(r, s)
  {
    var c, a := Last(r), Deliver(from, to, 0);
    var q := Queue(c.net, from, to);
    var net := Pull(c.net, from, to, 0);
    assert q[..0] + q[1..] == q[1..];
    assert IsStep(c.nodes[to], Message(from, q[0]), OnEvent(c.nodes[to], Message(from, q[0])));
    assert Do(c, a) == Perform(c.(net := net), to, Message(from, q[0]));
    TrioKeeps(c, to, n, Do(c, a));
    forall f, t ensures Queue(Do(c, a).net, f, t) == Queue(net, f, t) + if f == to then For(sent, t) else [] {
      PostFor(net, to, sent, f, t);
    }
    s := Extend(r, a);
  }

  lemma LoseOne(r: Run, from: NodeId, to: NodeId) returns (s: Run)
    requires Good(r) && Trio(Last(r)) && Queue(Last(r).net, from, to) != []
    ensures Continues(r, s) && Last(s).nodes == Last(r).nodes && Trio(Last(s))
    ensures Queue(Last(s).net, from, to) == Queue(Last(r).net, from, to)[1..]
    ensures forall f, t :: f != from || t != to ==> Queue(Last(s).net, f, t) == Queue(Last(r).net, f, t)
    ensures Tidy(r, s)
  {
    var c, q, a := Last(r), Queue(Last(r).net, from, to), Drop(from, to, 0);
    assert q[..0] + q[1..] == q[1..];
    assert MemberAt(c, 1);
    TrioKeeps(c, 1, c.nodes[1], Do(c, a));
    s := Extend(r, a);
  }

  lemma Onward(r: Run, s: Run, t: Run)
    requires Continues(r, s) && Continues(s, t)
    ensures Continues(r, t)
  {
    forall i | 0 <= i < |r.states| ensures t.states[i] == r.states[i] {
      assert s.states[i] == r.states[i];
    }
  }

  // All but the last messages of a link are lost.
  lemma {:induction false} Lose(r: Run, from: NodeId, to: NodeId, keep: nat) returns (s: Run)
    requires Good(r) && Trio(Last(r)) && keep <= |Queue(Last(r).net, from, to)|
    ensures Continues(r, s) && Last(s).nodes == Last(r).nodes && Trio(Last(s))
    ensures var q := Queue(Last(r).net, from, to);
            Queue(Last(s).net, from, to) == q[|q| - keep..]
    ensures forall f, t :: f != from || t != to ==> Queue(Last(s).net, f, t) == Queue(Last(r).net, f, t)
    ensures Tidy(r, s)
    decreases |Queue(Last(r).net, from, to)|
  {
    var q := Queue(Last(r).net, from, to);
    if |q| == keep {
      s := r;
    } else {
      var m := LoseOne(r, from, to);
      s := Lose(m, from, to, keep);
      Onward(r, m, s);
      assert q[1..][|q| - 1 - keep..] == q[|q| - keep..];
    }
  }

  // --- What single nodes do ---

  lemma TimerNode(n: Node)
    requires Member(n, n.id) && n.role != Leader
    ensures var m := n.(election := Election(n.election.votes, [n.id], true));
            var ask := PreVoteRequest(n.term, n.id, n.store.LastLogIndex(), n.store.LastLogTerm());
            Member(m, n.id) && Answers(n, TimerFired(ElectionTimer), m, ToPeers(n.id, ask, ask))
  {
    PeersAre(n.id);
    BroadcastTwo(n.id, PreVoteRequestOf(n.id, n.term, n.store));
  }

  lemma PreVoteNode(n: Node, from: NodeId, m: Msg)
    requires m.PreVoteRequest? && m.term >= n.term && IsLogUpToDate(m.lastLogIndex, m.lastLogTerm, n.store)
    ensures Answers(n, Message(from, m), n, [Envelope(from, PreVoteResponse(n.term, true))])
  {
  }

  function Campaigning(n: Node, from: NodeId): Node {
    n.(term := n.term + 1, store := CampaignStore(n.id, n.term + 1, n.store), role := Candidate,
       election := Election([n.id], [n.id, from], false))
  }

  lemma PreVoteWonNode(n: Node, from: NodeId, term: Term)
    requires Member(n, n.id) && n.election.inPreVote && n.election.preVotes == [n.id] && term <= n.term
    ensures var ask := RequestVote(n.term + 1, n.id, n.store.LastLogIndex(), n.store.LastLogTerm());
            Member(Campaigning(n, from), n.id) &&
            Answers(n, Message(from, PreVoteResponse(term, true)), Campaigning(n, from), ToPeers(n.id, ask, ask))
  {
    PeersAre(n.id);
    BroadcastTwo(n.id, RequestVote(n.term + 1, n.id, n.store.LastLogIndex(), n.store.LastLogTerm()));
    assert [n.id] + [from] == [n.id, from];
  }

  function Voted(n: Node, from: NodeId, term: Term): Node {
    n.(term := term, store := n.store.(currentTerm := term, votedFor := Some(from)), role := Follower,
       leaderHint := None)
  }

  lemma VoteNode(n: Node, from: NodeId, m: Msg)
    requires Member(n, n.id) && m.RequestVote? && m.term > n.term && m.candidateId == from
    requires IsLogUpToDate(m.lastLogIndex, m.lastLogTerm, n.store)
    ensures Member(Voted(n, from, m.term), n.id)
    ensures Answers(n, Message(from, m), Voted(n, from, m.term), [Envelope(from, RequestVoteResponse(m.term, true))])
  {
  }

  // A leader that has heard from nobody yet.
  predicate Unheard(n: Node) {
    forall p :: p in [n.id] + PeersOf(n.id) ==>
      p in n.repl.nextIndex && n.repl.nextIndex[p] == n.store.LastLogIndex() + 1 &&
      p in n.repl.matchIndex && n.repl.matchIndex[p] == 0
  }

  // n as leader of its term.
  ghost predicate Leads(n: Node, m: Node) {
    && m == n.(role := Leader, election := m.election, repl := m.repl)
    && m.repl == n.repl.(nextIndex := m.repl.nextIndex, matchIndex := m.repl.matchIndex)
  }

  // The first message of a new leader: where its log ends, and no entries.
  function Beat(n: Node): Msg {
    AppendEntries(n.term, n.store.LastLogIndex(), n.store.LastLogTerm(), [], n.repl.commitIndex)
  }

  lemma BeatNode(n: Node, p: NodeId)
    requires Member(n, n.id) && Unheard(n) && p in [n.id] + PeersOf(n.id)
    ensures GetAppendEntriesForPeer(n.repl, p, n.id, n.store) == Beat(n)
  {
  }

  function Winner(n: Node, from: NodeId): Node {
    n.(role := Leader, election := n.election.(votes := [n.id, from]),
       repl := InitializeLeaderState(n.repl, [n.id] + PeersOf(n.id), n.store))
  }

  lemma WinnerSends(m: Node)
    requires Member(m, m.id) && Unheard(m)
    ensures SendAppendEntriesToFollowers(m) == ToPeers(m.id, Beat(m), Beat(m))
  {
    AppendTwo(m);
    BeatNode(m, PeersOf(m.id)[0]);
    BeatNode(m, PeersOf(m.id)[1]);
  }

  lemma WinnerLeads(n: Node, from: NodeId)
    requires Member(n, n.id)
    ensures var m := Winner(n, from); Leads(n, m) && Unheard(m) && Member(m, n.id) && Beat(m) == Beat(n)
  {
  }

  lemma WonNode(n: Node, from: NodeId) returns (m: Node)
    requires Member(n, n.id) && n.role == Candidate && n.election.votes == [n.id]
    ensures Leads(n, m) && Unheard(m) && Member(m, n.id) && Beat(m) == Beat(n)
    ensures Answers(n, Message(from, RequestVoteResponse(n.term, true)), m, ToPeers(n.id, Beat(n), Beat(n)))
  {
    m := Winner(n, from);
    WinnerLeads(n, from);
    WinnerSends(m);
    WonStep(n, from);
  }

  lemma WonStep(n: Node, from: NodeId)
    requires Member(n, n.id) && n.role == Candidate && n.election.votes == [n.id]
    ensures OnMessage(n, from, RequestVoteResponse(n.term, true)) ==
            Step(Winner(n, from), SendAppendEntriesToFollowers(Winner(n, from)))
  {
    assert [n.id] + [from] == [n.id, from];
  }

  // --- An election among the three, won with one vote ---

  ghost predicate Ready(c: Cluster, x: NodeId, y: NodeId) {
    && Trio(c) && x in c.nodes && y in c.nodes && x != y
    && c.nodes[x].role != Leader && c.nodes[y].term <= c.nodes[x].term
    && IsLogUpToDate(c.nodes[x].store.LastLogIndex(), c.nodes[x].store.LastLogTerm(), c.nodes[y].store)
  }

  function Request(n: Node): Msg { RequestVote(n.term + 1, n.id, n.store.LastLogIndex(), n.store.LastLogTerm()) }

  // What y and z send others, and z sends x, is as it was.
  ghost predicate Quiet(r: Run, s: Run, x: NodeId, y: NodeId, z: NodeId)
    requires r.states != [] && s.states != []
  {
    && Queue(Last(s).net, z, x) == Queue(Last(r).net, z, x)
    && Queue(Last(s).net, z, y) == Queue(Last(r).net, z, y)
    && Queue(Last(s).net, y, z) == Queue(Last(r).net, y, z)
  }

  // x asks for pre-votes.
  lemma Asks(r: Run, x: NodeId, y: NodeId, z: NodeId) returns (s: Run, n: Node)
    requires Good(r) && Ready(Last(r), x, y) && Ids(x, y, z)
    requires Queue(Last(r).net, x, y) == [] && Queue(Last(r).net, y, x) == []
    ensures Continues(r, s) && Trio(Last(s)) && Last(s).nodes == Last(r).nodes[x := n]
    ensures n == Last(r).nodes[x].(election := n.election) && n.election.inPreVote && n.election.preVotes == [x]
    ensures Queue(Last(s).net, x, y) == [PreVoteRequestOf(x, n.term, n.store)] && Queue(Last(s).net, y, x) == []
    ensures Queue(Last(s).net, x, z) == Queue(Last(r).net, x, z) + [PreVoteRequestOf(x, n.term, n.store)]
    ensures Quiet(r, s, x, y, z) && Tidy(r, s)
  {
    var first := PreVoteRequestOf(x, Last(r).nodes[x].term, Last(r).nodes[x].store);
    n := Last(r).nodes[x].(election := Election(Last(r).nodes[x].election.votes, [x], true));
    assert MemberAt(Last(r), x);
    TimerNode(Last(r).nodes[x]);
    s := Turn(r, ElectionTimeout(x), x, TimerFired(ElectionTimer), n, ToPeers(x, first, first));
    ForBoth(x, y, z, first);
  }

  lemma AgreesNode(c: Cluster, x: NodeId, y: NodeId)
    requires Ready(c, x, y)
    ensures Member(c.nodes[y], y)
    ensures Answers(c.nodes[y], Message(x, PreVoteRequestOf(x, c.nodes[x].term, c.nodes[x].store)), c.nodes[y],
                    [Envelope(x, PreVoteResponse(c.nodes[y].term, true))])
  {
    assert MemberAt(c, y);
    PreVoteNode(c.nodes[y], x, PreVoteRequestOf(x, c.nodes[x].term, c.nodes[x].store));
  }

  // y takes the one message x has sent it and replies.
  lemma Replies(r: Run, x: NodeId, y: NodeId, z: NodeId, n: Node, reply: Msg) returns (s: Run)
    requires Good(r) && Trio(Last(r)) && Ids(x, y, z) && Member(n, y)
    requires |Queue(Last(r).net, x, y)| == 1 && Queue(Last(r).net, y, x) == []
    requires Answers(Last(r).nodes[y], Message(x, Queue(Last(r).net, x, y)[0]), n, [Envelope(x, reply)])
    ensures Continues(r, s) && Trio(Last(s)) && Last(s).nodes == Last(r).nodes[y := n]
    ensures Queue(Last(s).net, x, y) == [] && Queue(Last(s).net, y, x) == [reply]
    ensures Queue(Last(s).net, x, z) == Queue(Last(r).net, x, z) && Quiet(r, s, x, y, z)
    ensures NoStaleTail(Last(r), Deliver(x, y, 0)) ==> Tidy(r, s)
  {
    s := Arrives(r, x, y, n, [Envelope(x, reply)]);
    OneReply(Last(r).net, Last(s).net, x, y, z, reply);
  }

  // On the links, taking the one message of x and answering it is all there is.
  lemma OneReply(net: Net, after: Net, x: NodeId, y: NodeId, z: NodeId, reply: Msg)
    requires Ids(x, y, z) && |Queue(net, x, y)| == 1 && Queue(net, y, x) == []
    requires Queue(after, x, y) == Queue(net, x, y)[1..]
    requires forall f, t :: f != x || t != y ==>
               Queue(after, f, t) == Queue(net, f, t) + if f == y then For([Envelope(x, reply)], t) else []
    ensures Queue(after, x, y) == [] && Queue(after, y, x) == [reply]
    ensures Queue(after, x, z) == Queue(net, x, z) && Queue(after, z, x) == Queue(net, z, x)
    ensures Queue(after, z, y) == Queue(net, z, y) && Queue(after, y, z) == Queue(net, y, z)
  {
    ForOne(Envelope(x, reply), x);
    ForOne(Envelope(x, reply), z);
    assert x != y && x != z && y != z;
  }

  // y agrees.
  lemma Agrees(r: Run, x: NodeId, y: NodeId, z: NodeId) returns (s: Run)
    requires Good(r) && Ready(Last(r), x, y) && Ids(x, y, z)
    requires var n := Last(r).nodes[x];
             Queue(Last(r).net, x, y) == [PreVoteRequestOf(x, n.term, n.store)] && Queue(Last(r).net, y, x) == []
    ensures Continues(r, s) && Trio(Last(s)) && Last(s).nodes == Last(r).nodes
    ensures Queue(Last(s).net, x, y) == []
    ensures Queue(Last(s).net, y, x) == [PreVoteResponse(Last(r).nodes[y].term, true)]
    ensures Queue(Last(s).net, x, z) == Queue(Last(r).net, x, z) && Quiet(r, s, x, y, z) && Tidy(r, s)
  {
    AgreesNode(Last(r), x, y);
    s := Replies(r, x, y, z, Last(r).nodes[y], PreVoteResponse(Last(r).nodes[y].term, true));
    assert Last(s).nodes == Last(r).nodes;
  }

  // x becomes a candidate.
  lemma Campaigns(r: Run, x: NodeId, y: NodeId, z: NodeId, t: Term) returns (s: Run, m: Node)
    requires Good(r) && Trio(Last(r)) && Ids(x, y, z) && t <= Last(r).nodes[x].term
    requires Last(r).nodes[x].election.inPreVote && Last(r).nodes[x].election.preVotes == [x]
    requires Queue(Last(r).net, x, y) == [] && Queue(Last(r).net, y, x) == [PreVoteResponse(t, true)]
    ensures Continues(r, s) && Trio(Last(s)) && Last(s).nodes == Last(r).nodes[x := m]
    ensures m == Campaigning(Last(r).nodes[x], y)
    ensures Queue(Last(s).net, x, y) == [Request(Last(r).nodes[x])] && Queue(Last(s).net, y, x) == []
    ensures Queue(Last(s).net, x, z) == Queue(Last(r).net, x, z) + [Request(Last(r).nodes[x])]
    ensures Quiet(r, s, x, y, z) && Tidy(r, s)
  {
    var n := Last(r).nodes[x];
    m := Campaigning(n, y);
    assert MemberAt(Last(r), x);
    PreVoteWonNode(n, y, t);
    s := Arrives(r, y, x, m, ToPeers(x, Request(n), Request(n)));
    ForBoth(x, y, z, Request(n));
  }

  // y votes for x.
  lemma Votes(r: Run, x: NodeId, y: NodeId, z: NodeId, m: Msg) returns (s: Run)
    requires Good(r) && Trio(Last(r)) && Ids(x, y, z)
    requires m.RequestVote? && m.candidateId == x && m.term > Last(r).nodes[y].term
    requires IsLogUpToDate(m.lastLogIndex, m.lastLogTerm, Last(r).nodes[y].store)
    requires Queue(Last(r).net, x, y) == [m] && Queue(Last(r).net, y, x) == []
    ensures Continues(r, s) && Trio(Last(s)) && Last(s).nodes == Last(r).nodes[y := Voted(Last(r).nodes[y], x, m.term)]
    ensures Queue(Last(s).net, x, y) == [] && Queue(Last(s).net, y, x) == [RequestVoteResponse(m.term, true)]
    ensures Queue(Last(s).net, x, z) == Queue(Last(r).net, x, z) && Quiet(r, s, x, y, z) && Tidy(r, s)
  {
    assert MemberAt(Last(r), y);
    VoteNode(Last(r).nodes[y], x, m);
    s := Replies(r, x, y, z, Voted(Last(r).nodes[y], x, m.term), RequestVoteResponse(m.term, true));
  }

  // x wins.
  lemma Wins(r: Run, x: NodeId, y: NodeId, z: NodeId) returns (s: Run, m: Node)
    requires Good(r) && Trio(Last(r)) && Ids(x, y, z)
    requires Last(r).nodes[x].role == Candidate && Last(r).nodes[x].election.votes == [x]
    requires Queue(Last(r).net, x, y) == []
    requires Queue(Last(r).net, y, x) == [RequestVoteResponse(Last(r).nodes[x].term, true)]
    ensures Continues(r, s) && Trio(Last(s)) && Last(s).nodes == Last(r).nodes[x := m]
    ensures Leads(Last(r).nodes[x], m) && Unheard(m) && Beat(m) == Beat(Last(r).nodes[x])
    ensures Queue(Last(s).net, x, y) == [Beat(m)] && Queue(Last(s).net, y, x) == []
    ensures Queue(Last(s).net, x, z) == Queue(Last(r).net, x, z) + [Beat(m)]
    ensures Quiet(r, s, x, y, z) && Tidy(r, s)
  {
    var n := Last(r).nodes[x];
    assert MemberAt(Last(r), x);
    m := WonNode(n, y);
    s := Arrives(r, y, x, m, ToPeers(x, Beat(n), Beat(n)));
    ForBoth(x, y, z, Beat(n));
  }

  // n as a candidate in the next term.
  function NextTerm(n: Node): Node { n.(term := n.term + 1, store := CampaignStore(n.id, n.term + 1, n.store)) }

  lemma ReadyLater(c: Cluster, d: Cluster, x: NodeId, y: NodeId, n: Node)
    requires Ready(c, x, y) && Trio(d) && d.nodes == c.nodes[x := n] && n == c.nodes[x].(election := n.election)
    ensures Ready(d, x, y)
  {
  }

  // The whole election: x wins the next term with y's vote.
  lemma Elects(r: Run, x: NodeId, y: NodeId, z: NodeId) returns (s: Run, m: Node)
    requires Good(r) && Ready(Last(r), x, y) && Ids(x, y, z)
    ensures Continues(r, s) && Trio(Last(s)) && Leads(NextTerm(Last(r).nodes[x]), m) && Unheard(m)
    ensures Last(s).nodes == Last(r).nodes[x := m][y := Voted(Last(r).nodes[y], x, m.term)]
    ensures var n := Last(r).nodes[x];
            && Queue(Last(s).net, x, y) == [Beat(m)] && Queue(Last(s).net, y, x) == []
            && Queue(Last(s).net, x, z) ==
               Queue(Last(r).net, x, z) + [PreVoteRequestOf(x, n.term, n.store)] + [Request(n)] + [Beat(m)]
            && Quiet(r, s, x, y, z) && Tidy(r, s)
  {
    assert MemberAt(Last(r), x);
    var q, n := Stands(r, x, y, z);
    s, m := VotesAndWins(q, x, y, z, Request(Last(r).nodes[x]));
    Onward(r, q, s);
  }

  // Up to the request for y's vote.
  lemma Stands(r: Run, x: NodeId, y: NodeId, z: NodeId) returns (s: Run, m: Node)
    requires Good(r) && Ready(Last(r), x, y) && Ids(x, y, z)
    ensures Continues(r, s) && Trio(Last(s)) && Last(s).nodes == Last(r).nodes[x := m]
    ensures m == NextTerm(Last(r).nodes[x]).(role := Candidate, election := m.election) && m.election.votes == [x]
    ensures var n := Last(r).nodes[x];
            && Queue(Last(s).net, x, y) == [Request(n)] && Queue(Last(s).net, y, x) == []
            && Queue(Last(s).net, x, z) ==
               Queue(Last(r).net, x, z) + [PreVoteRequestOf(x, n.term, n.store)] + [Request(n)]
            && Quiet(r, s, x, y, z) && Tidy(r, s)
  {
    assert MemberAt(Last(r), x);
    var q, n := PreVoted(r, x, y, z);
    s, m := Campaigns(q, x, y, z, Last(r).nodes[y].term);
    Onward(r, q, s);
  }

  // Up to y's agreement.
  lemma PreVoted(r: Run, x: NodeId, y: NodeId, z: NodeId) returns (s: Run, n: Node)
    requires Good(r) && Ready(Last(r), x, y) && Ids(x, y, z)
    ensures Continues(r, s) && Trio(Last(s)) && Last(s).nodes == Last(r).nodes[x := n]
    ensures n == Last(r).nodes[x].(election := n.election) && n.election.inPreVote && n.election.preVotes == [x]
    ensures Queue(Last(s).net, x, y) == []
    ensures Queue(Last(s).net, y, x) == [PreVoteResponse(Last(r).nodes[y].term, true)]
    ensures Queue(Last(s).net, x, z) == Queue(Last(r).net, x, z) + [PreVoteRequestOf(x, n.term, n.store)]
    ensures Quiet(r, s, x, y, z) && Tidy(r, s)
  {
    var m := Clears(r, x, y, z);
    s, n := AsksAndAgrees(m, x, y, z);
    Onward(r, m, s);
  }

  lemma ReadyStill(c: Cluster, d: Cluster, x: NodeId, y: NodeId)
    requires Ready(c, x, y) && Trio(d) && d.nodes == c.nodes
    ensures Ready(d, x, y)
  {
  }

  lemma Clears(r: Run, x: NodeId, y: NodeId, z: NodeId) returns (s: Run)
    requires Good(r) && Ready(Last(r), x, y) && Ids(x, y, z)
    ensures Continues(r, s) && Last(s).nodes == Last(r).nodes && Ready(Last(s), x, y)
    ensures Queue(Last(s).net, x, y) == [] && Queue(Last(s).net, y, x) == []
    ensures Queue(Last(s).net, x, z) == Queue(Last(r).net, x, z) && Quiet(r, s, x, y, z) && Tidy(r, s)
  {
    var m := Lose(r, x, y, 0);
    s := Lose(m, y, x, 0);
    Onward(r, m, s);
    ReadyStill(Last(r), Last(s), x, y);
  }

  lemma AsksAndAgrees(r: Run, x: NodeId, y: NodeId, z: NodeId) returns (s: Run, n: Node)
    requires Good(r) && Ready(Last(r), x, y) && Ids(x, y, z)
    requires Queue(Last(r).net, x, y) == [] && Queue(Last(r).net, y, x) == []
    ensures Continues(r, s) && Trio(Last(s)) && Last(s).nodes == Last(r).nodes[x := n]
    ensures n == Last(r).nodes[x].(election := n.election) && n.election.inPreVote && n.election.preVotes == [x]
    ensures Queue(Last(s).net, x, y) == []
    ensures Queue(Last(s).net, y, x) == [PreVoteResponse(Last(r).nodes[y].term, true)]
    ensures Queue(Last(s).net, x, z) == Queue(Last(r).net, x, z) + [PreVoteRequestOf(x, n.term, n.store)]
    ensures Quiet(r, s, x, y, z) && Tidy(r, s)
  {
    var m: Run;
    m, n := Asks(r, x, y, z);
    ReadyLater(Last(r), Last(m), x, y, n);
    s := Agrees(m, x, y, z);
    Onward(r, m, s);
  }

  lemma VotesAndWins(r: Run, x: NodeId, y: NodeId, z: NodeId, ask: Msg) returns (s: Run, m: Node)
    requires Good(r) && Trio(Last(r)) && Ids(x, y, z)
    requires ask.RequestVote? && ask.candidateId == x && ask.term == Last(r).nodes[x].term > Last(r).nodes[y].term
    requires IsLogUpToDate(ask.lastLogIndex, ask.lastLogTerm, Last(r).nodes[y].store)
    requires Last(r).nodes[x].role == Candidate && Last(r).nodes[x].election.votes == [x]
    requires Queue(Last(r).net, x, y) == [ask] && Queue(Last(r).net, y, x) == []
    ensures Continues(r, s) && Trio(Last(s)) && Leads(Last(r).nodes[x], m) && Unheard(m) &&
            Beat(m) == Beat(Last(r).nodes[x])
    ensures Last(s).nodes == Last(r).nodes[x := m][y := Voted(Last(r).nodes[y], x, ask.term)]
    ensures Queue(Last(s).net, x, y) == [Beat(m)] && Queue(Last(s).net, y, x) == []
    ensures Queue(Last(s).net, x, z) == Queue(Last(r).net, x, z) + [Beat(m)]
    ensures Quiet(r, s, x, y, z) && Tidy(r, s)
  {
    var q := Votes(r, x, y, z, ask);
    s, m := Wins(q, x, y, z);
    Onward(r, q, s);
    assert Last(s).nodes == Last(r).nodes[x := m][y := Voted(Last(r).nodes[y], x, ask.term)];
  }

  // --- The rest of what single nodes do ---

  function Grown(n: Node, payload: string): Node {
    n.(store := n.store.Append([LogEntry(n.term, Command(payload))]))
  }

  lemma ClientStep(n: Node, payload: string)
    requires Member(n, n.id) && n.role == Leader
    ensures OnEvent(n, ClientCommand(payload)) ==
            Step(Grown(n, payload), SendAppendEntriesToFollowers(Grown(n, payload)))
  {
  }

  lemma ClientNode(n: Node, payload: string) returns (a: Msg, b: Msg)
    requires Member(n, n.id) && n.role == Leader
    ensures Member(Grown(n, payload), n.id)
    ensures Answers(n, ClientCommand(payload), Grown(n, payload), ToPeers(n.id, a, b))
    ensures var m := Grown(n, payload);
            a == GetAppendEntriesForPeer(m.repl, PeersOf(m.id)[0], m.id, m.store) &&
            b == GetAppendEntriesForPeer(m.repl, PeersOf(m.id)[1], m.id, m.store)
  {
    var m := Grown(n, payload);
    ClientStep(n, payload);
    AppendTwo(m);
    a := GetAppendEntriesForPeer(m.repl, PeersOf(m.id)[0], m.id, m.store);
    b := GetAppendEntriesForPeer(m.repl, PeersOf(m.id)[1], m.id, m.store);
  }

  lemma RefuseNode(n: Node, from: NodeId, m: Msg)
    requires Member(n, n.id) && m.RequestVote? && m.term > n.term
    requires !IsLogUpToDate(m.lastLogIndex, m.lastLogTerm, n.store)
    ensures Member(StepDown(n, m.term), n.id)
    ensures Answers(n, Message(from, m), StepDown(n, m.term), [Envelope(from, RequestVoteResponse(m.term, false))])
  {
  }

  // An empty message from the beginning of the log is accepted, and the reply
  // claims whatever the follower's log happens to hold.
  lemma HeartbeatNode(n: Node, from: NodeId, m: Msg)
    requires Member(n, n.id) && n.role == Follower && m == AppendEntries(n.term, 0, 0, [], 0)
    ensures Member(n.(leaderHint := Some(from)), n.id)
    ensures Answers(n, Message(from, m), n.(leaderHint := Some(from)),
                    [Envelope(from, AppendEntriesResponse(n.term, true, |n.store.log|))])
  {
  }

  lemma RejectNode(n: Node, from: NodeId, m: Msg)
    requires Member(n, n.id) && n.role == Follower && n.store.log == []
    requires m.AppendEntries? && m.term == n.term && m.prevLogIndex > 0
    ensures Member(n.(leaderHint := Some(from)), n.id)
    ensures Answers(n, Message(from, m), n.(leaderHint := Some(from)),
                    [Envelope(from, AppendEntriesResponse(n.term, false, 0))])
  {
  }

  function Filled(n: Node, from: NodeId, log: Log): Node {
    n.(leaderHint := Some(from), store := n.store.(log := log))
  }

  lemma AcceptNode(n: Node, from: NodeId, m: Msg)
    requires Member(n, n.id) && n.role == Follower && n.store.log == []
    requires m.AppendEntries? && m.entries != [] && m == AppendEntries(n.term, 0, 0, m.entries, 0)
    ensures Member(Filled(n, from, m.entries), n.id)
    ensures Answers(n, Message(from, m), Filled(n, from, m.entries),
                    [Envelope(from, AppendEntriesResponse(n.term, true, |m.entries|))])
  {
    assert [] + m.entries == m.entries;
  }

  function SteppedBack(n: Node, from: NodeId): Node {
    n.(repl := n.repl.(nextIndex := n.repl.nextIndex[from := Monus(Lookup(n.repl.nextIndex, from, 1), 1)]))
  }

  lemma StepBackNode(n: Node, from: NodeId, upTo: LogIndex)
    requires Member(n, n.id) && n.role == Leader && Lookup(n.repl.nextIndex, from, 1) > 1
    ensures Member(SteppedBack(n, from), n.id)
    ensures Answers(n, Message(from, AppendEntriesResponse(n.term, false, upTo)), SteppedBack(n, from), [])
  {
  }

  // One reply that claims the leader's whole log is all the quorum it needs.
  lemma OneReplyIsQuorum(n: Node, from: NodeId)
    requires Member(n, n.id) && from in PeersOf(n.id)
    ensures ComputeMedian(n.repl.matchIndex[from := |n.store.log|], |n.store.log|, n.config.members, map[], n.id) >=
            |n.store.log|
  {
    var members, last := n.config.members, |n.store.log|;
    var reached := n.repl.matchIndex[from := last];
    assert Distinct(members);
    MedianIsQuorumPoint(last, reached, last, members, map[], n.id);
    QuorumOfFullMembership(members, n.id);
    CardinalityMonotone({n.id, from}, VotersAt(last, reached, last, members, map[], n.id));
  }

  // No member's progress is known yet.
  predicate NoReplies(n: Node) {
    forall p :: p in [n.id] + PeersOf(n.id) ==> p in n.repl.matchIndex && n.repl.matchIndex[p] == 0
  }

  lemma NothingBeyond(n: Node, from: NodeId)
    requires Member(n, n.id) && from in PeersOf(n.id)
    requires NoReplies(n)
    ensures ComputeMedian(n.repl.matchIndex[from := |n.store.log|], |n.store.log|, n.config.members, map[], n.id) <=
            |n.store.log|
  {
    var members, last := n.config.members, |n.store.log|;
    var reached := n.repl.matchIndex[from := last];
    assert Distinct(members);
    MedianIsQuorumPoint(last + 1, reached, last, members, map[], n.id);
    assert VotersAt(last + 1, reached, last, members, map[], n.id) == {};
  }

  function Committed(n: Node, from: NodeId): Node {
    var last := |n.store.log|;
    n.(repl := n.repl.(nextIndex := n.repl.nextIndex[from := last + 1], matchIndex := n.repl.matchIndex[from := last],
                       commitIndex := last, lastApplied := last),
       sm := ApplyRange(n.sm, n.store, 0, last))
  }

  lemma CommitNode(n: Node, from: NodeId)
    requires Member(n, n.id) && n.role == Leader && from in PeersOf(n.id) && NoReplies(n)
    requires n.repl.commitIndex == n.repl.lastApplied == 0 < |n.store.log| < 100
    requires n.store.log[|n.store.log| - 1].term == n.term && forall e :: e in n.store.log ==> e.entryType.Command?
    ensures Member(Committed(n, from), n.id)
    ensures Answers(n, Message(from, AppendEntriesResponse(n.term, true, |n.store.log|)), Committed(n, from), [])
  {
    OneReplyIsQuorum(n, from);
    NothingBeyond(n, from);
    NoChanges(n.store, 0, |n.store.log|);
    Advances(n, from);
    CommitStep(n, from);
  }

  lemma Advances(n: Node, from: NodeId)
    requires Member(n, n.id) && n.repl.commitIndex == n.repl.lastApplied == 0 < |n.store.log|
    requires n.store.log[|n.store.log| - 1].term == n.term && from in PeersOf(n.id) && NoReplies(n)
    requires ComputeMedian(n.repl.matchIndex[from := |n.store.log|], |n.store.log|, n.config.members, map[], n.id) ==
             |n.store.log|
    requires ChangesIn(n.store, 0, |n.store.log|) == []
    ensures HandleAppendEntriesResponse(n.repl, from, true, |n.store.log|, n.store, n.sm, n.config.members, n.id) ==
            Applied(Committed(n, from).repl, Committed(n, from).sm, [])
  {
  }

  lemma CommitStep(n: Node, from: NodeId)
    requires Member(n, n.id) && n.role == Leader && |n.store.log| < 100 && n.repl.commitIndex < |n.store.log|
    requires HandleAppendEntriesResponse(n.repl, from, true, |n.store.log|, n.store, n.sm, n.config.members, n.id) ==
             Applied(Committed(n, from).repl, Committed(n, from).sm, [])
    ensures OnMessage(n, from, AppendEntriesResponse(n.term, true, |n.store.log|)) == Step(Committed(n, from), [])
  {
  }

  // --- The run ---

  predicate Is(n: Node, role: Role, term: Term, log: Log) { n.role == role && n.term == term && n.store.log == log }

  predicate Idle(n: Node) { n.repl.commitIndex == n.repl.lastApplied == 0 }

  const A := LogEntry(1, Command("a"))
  const B := LogEntry(2, Command("b"))
  const C := LogEntry(3, Command("c"))

  function Fresh(id: NodeId, codec: Codec): Node { NewNode(id, EMPTY_STORE, map[], PeersOf(id), 100, codec) }

  lemma FreshMember(id: NodeId, codec: Codec)
    requires id in {1, 2, 3}
    ensures Member(Fresh(id, codec), id) && Is(Fresh(id, codec), Follower, 0, []) && Idle(Fresh(id, codec))
    ensures FreshNode(Fresh(id, codec), id, {1, 2, 3})
  {
    assert ([id] + PeersOf(id))[1..] == PeersOf(id);
  }

  function Beginning(codec: Codec): Cluster {
    Cluster(map[1 := Fresh(1, codec), 2 := Fresh(2, codec), 3 := Fresh(3, codec)], map[])
  }

  lemma BeginningFacts(codec: Codec, id: NodeId)
    ensures var c := Beginning(codec);
            && 1 in c.nodes && c.nodes.Keys == {1, 2, 3}
            && FreshAt(c, id) && MemberAt(c, id)
            && (id in c.nodes ==> Is(c.nodes[id], Follower, 0, []) && Idle(c.nodes[id]))
  {
    var c := Beginning(codec);
    if id in c.nodes {
      assert c.nodes[id] == Fresh(id, codec);
      FreshMember(id, codec);
    }
  }

  lemma NothingCommitted(c: Cluster)
    requires Trio(c)
    ensures NoCompaction(c)
  {
    forall id | id in c.nodes ensures c.nodes[id].store.snapshot.None? {
      assert MemberAt(c, id);
    }
  }

  lemma BeginningIsInitial(codec: Codec)
    ensures var c := Beginning(codec);
            && Initial(c) && Trio(c) && NoCompaction(c)
            && forall id :: id in c.nodes ==> Is(c.nodes[id], Follower, 0, []) && Idle(c.nodes[id])
  {
    var c := Beginning(codec);
    forall id: NodeId
      ensures 1 in c.nodes && c.nodes.Keys == {1, 2, 3} && FreshAt(c, id) && MemberAt(c, id)
      ensures id in c.nodes ==> Is(c.nodes[id], Follower, 0, []) && Idle(c.nodes[id])
    {
      BeginningFacts(codec, id);
    }
    NothingCommitted(c);
  }

  lemma RunOfOne(c: Cluster) returns (r: Run)
    requires Initial(c) && NoCompaction(c)
    ensures Good(r) && Ordered(r) && Clean(r) && Last(r) == c
  {
    r := Run([c], []);
    forall i: nat ensures StepAt(r, i) && UncompactedAt(r, i) && InOrderAt(r, i) && CleanAt(r, i) {
    }
  }

  lemma Start(codec: Codec) returns (r: Run)
    ensures Good(r) && Ordered(r) && Clean(r) && Trio(Last(r)) && forall f, t :: Queue(Last(r).net, f, t) == []
    ensures forall id :: id in Last(r).nodes ==> Is(Last(r).nodes[id], Follower, 0, []) && Idle(Last(r).nodes[id])
  {
    BeginningIsInitial(codec);
    r := RunOfOne(Beginning(codec));
  }

  // An election among nodes of which the voter has an empty log.
  lemma ElectsOver(r: Run, x: NodeId, y: NodeId, z: NodeId) returns (s: Run)
    requires Good(r) && Trio(Last(r)) && Ids(x, y, z)
    requires var c := Last(r); c.nodes[x].role != Leader && c.nodes[y].term <= c.nodes[x].term
    requires var c := Last(r); c.nodes[y].store.log == [] && Idle(c.nodes[x]) && Idle(c.nodes[y])
    ensures Continues(r, s) && Trio(Last(s))
    ensures var c, d := Last(r), Last(s);
            && Is(d.nodes[x], Leader, c.nodes[x].term + 1, c.nodes[x].store.log) && Idle(d.nodes[x])
            && Unheard(d.nodes[x])
            && Is(d.nodes[y], Follower, c.nodes[x].term + 1, []) && Idle(d.nodes[y])
            && d.nodes[z] == c.nodes[z]
            && Queue(d.net, x, y) == [Beat(d.nodes[x])] && Queue(d.net, y, x) == []
            && Queue(d.net, x, z) ==
               Queue(c.net, x, z) + [PreVoteRequestOf(x, c.nodes[x].term, c.nodes[x].store)] + [Request(c.nodes[x])] +
               [Beat(d.nodes[x])]
            && Quiet(r, s, x, y, z) && Tidy(r, s)
  {
    var c := Last(r);
    assert MemberAt(c, x) && MemberAt(c, y);
    assert Ready(c, x, y);
    var m: Node;
    s, m := Elects(r, x, y, z);
  }

  // Node 1 leads term 1 and takes a command that reaches nobody.
  lemma Act1(codec: Codec) returns (r: Run)
    ensures Good(r) && Ordered(r) && Trio(Last(r)) && Queue(Last(r).net, 2, 1) == []
    ensures var c := Last(r);
            && Is(c.nodes[1], Leader, 1, [A]) && Idle(c.nodes[1])
            && Is(c.nodes[2], Follower, 1, []) && Idle(c.nodes[2])
            && Is(c.nodes[3], Follower, 0, []) && Idle(c.nodes[3])
  {
    var s0 := Start(codec);
    var s1 := ElectsOver(s0, 1, 2, 3);
    r := Proposes(s1, 1, "a");
  }

  lemma Proposes(r: Run, id: NodeId, payload: string) returns (s: Run)
    requires Good(r) && Trio(Last(r)) && id in Last(r).nodes && Last(r).nodes[id].role == Leader
    ensures Continues(r, s) && Trio(Last(s)) && Last(s).nodes == Last(r).nodes[id := Grown(Last(r).nodes[id], payload)]
    ensures forall f, t :: f != id ==> Queue(Last(s).net, f, t) == Queue(Last(r).net, f, t)
  {
    assert MemberAt(Last(r), id);
    var n := Last(r).nodes[id];
    var a, b := ClientNode(n, payload);
    s := Turn(r, Client(id, payload), id, ClientCommand(payload), Grown(n, payload), ToPeers(id, a, b));
  }

  // Node 2 leads term 2 with node 3's vote, and its first, empty message meets
  // node 1's stale entry.
  lemma Act2(r: Run) returns (s: Run)
    requires Good(r) && Trio(Last(r)) && Queue(Last(r).net, 2, 1) == []
    requires var c := Last(r);
             && Is(c.nodes[1], Leader, 1, [A]) && Idle(c.nodes[1])
             && Is(c.nodes[2], Follower, 1, []) && Idle(c.nodes[2])
             && Is(c.nodes[3], Follower, 0, []) && Idle(c.nodes[3])
    ensures Continues(r, s) && Trio(Last(s))
    ensures var c := Last(s);
            && Is(c.nodes[1], Follower, 2, [A]) && Idle(c.nodes[1])
            && Is(c.nodes[2], Leader, 2, []) && Idle(c.nodes[2]) && NoReplies(c.nodes[2])
            && Is(c.nodes[3], Follower, 2, []) && Idle(c.nodes[3])
            && exists q: seq<Msg> :: Queue(c.net, 1, 2) == q + [AppendEntriesResponse(2, true, 1)]
  {
    var s1 := ElectsOver(r, 2, 3, 1);
    assert MemberAt(Last(r), 2) && MemberAt(Last(s1), 2);
    var ask, beat := RequestVote(2, 2, 0, 0), AppendEntries(2, 0, 0, [], 0);
    assert Request(Last(r).nodes[2]) == ask && Beat(Last(s1).nodes[2]) == beat;
    var s2 := Lose(s1, 2, 1, 2);
    assert Queue(Last(s2).net, 2, 1) == [ask, beat];
    Onward(r, s1, s2);
    s := Overreports(s2);
    Onward(r, s2, s);
  }

  lemma Overreports(r: Run) returns (s: Run)
    requires Good(r) && Trio(Last(r)) && Is(Last(r).nodes[1], Leader, 1, [A]) && Idle(Last(r).nodes[1])
    requires Queue(Last(r).net, 2, 1) == [RequestVote(2, 2, 0, 0), AppendEntries(2, 0, 0, [], 0)]
    ensures Continues(r, s) && Trio(Last(s))
    ensures Is(Last(s).nodes[1], Follower, 2, [A]) && Idle(Last(s).nodes[1])
    ensures Last(s).nodes == Last(r).nodes[1 := Last(s).nodes[1]]
    ensures exists q: seq<Msg> :: Queue(Last(s).net, 1, 2) == q + [AppendEntriesResponse(2, true, 1)]
  {
    assert MemberAt(Last(r), 1);
    var n := Last(r).nodes[1];
    RefuseNode(n, 2, RequestVote(2, 2, 0, 0));
    var m := StepDown(n, 2);
    var refusal := Envelope(2, RequestVoteResponse(2, false));
    var s1 := Arrives(r, 2, 1, m, [refusal]);
    HeartbeatNode(m, 2, AppendEntries(2, 0, 0, [], 0));
    var claim := Envelope(2, AppendEntriesResponse(2, true, 1));
    s := Arrives(s1, 2, 1, m.(leaderHint := Some(2)), [claim]);
    ForOne(claim, 2);
    Onward(r, s1, s);
    assert Queue(Last(s).net, 1, 2) == Queue(Last(s1).net, 1, 2) + [AppendEntriesResponse(2, true, 1)];
  }

  // Node 2 takes a command and counts node 1's claim for it.
  lemma Act3(r: Run) returns (s: Run)
    requires Good(r) && Trio(Last(r))
    requires var c := Last(r);
             && Is(c.nodes[2], Leader, 2, []) && Idle(c.nodes[2]) && NoReplies(c.nodes[2])
             && exists q: seq<Msg> :: Queue(c.net, 1, 2) == q + [AppendEntriesResponse(2, true, 1)]
    ensures Continues(r, s) && Trio(Last(s))
    ensures var c, d := Last(r), Last(s);
            && d.nodes[1] == c.nodes[1] && d.nodes[3] == c.nodes[3]
            && Is(d.nodes[2], Leader, 2, [B]) && d.nodes[2].repl.commitIndex == d.nodes[2].repl.lastApplied == 1
  {
    var s1 := Proposes(r, 2, "b");
    var s2 := Lose(s1, 1, 2, 1);
    Onward(r, s1, s2);
    assert MemberAt(Last(s2), 2);
    var n := Last(s2).nodes[2];
    assert n.store.log == [B];
    CommitNode(n, 1);
    s := Arrives(s2, 1, 2, Committed(n, 1), []);
    Onward(r, s2, s);
  }

  // Node 1 leads term 3 with node 3's vote; neither holds what node 2 committed.
  lemma Act4(r: Run) returns (s: Run)
    requires Good(r) && Trio(Last(r))
    requires var c := Last(r);
             && Is(c.nodes[1], Follower, 2, [A]) && Idle(c.nodes[1])
             && Is(c.nodes[3], Follower, 2, []) && Idle(c.nodes[3])
    ensures Continues(r, s) && Trio(Last(s))
    ensures var c, d := Last(r), Last(s);
            && Is(d.nodes[1], Leader, 3, [A]) && Idle(d.nodes[1]) && Unheard(d.nodes[1])
            && Is(d.nodes[3], Follower, 3, []) && Idle(d.nodes[3]) && d.nodes[2] == c.nodes[2]
            && Queue(d.net, 1, 3) == [AppendEntries(3, 1, 1, [], 0)] && Queue(d.net, 3, 1) == []
  {
    s := ElectsOver(r, 1, 3, 2);
    assert MemberAt(Last(s), 1);
  }

  // Node 1 brings node 3 up to its own log and commits it.
  lemma Act5(r: Run) returns (s: Run)
    requires Good(r) && Trio(Last(r))
    requires var c := Last(r);
             && Is(c.nodes[1], Leader, 3, [A]) && Idle(c.nodes[1]) && Unheard(c.nodes[1])
             && Is(c.nodes[3], Follower, 3, []) && Idle(c.nodes[3])
             && Queue(c.net, 1, 3) == [AppendEntries(3, 1, 1, [], 0)] && Queue(c.net, 3, 1) == []
    ensures Continues(r, s) && Trio(Last(s)) && Last(s).nodes[2] == Last(r).nodes[2]
    ensures Is(Last(s).nodes[1], Leader, 3, [A, C])
    ensures Last(s).nodes[1].repl.commitIndex == Last(s).nodes[1].repl.lastApplied == 2
  {
    var s1 := Backs(r);
    var s2 := Resends(s1);
    Onward(r, s1, s2);
    s := Refills(s2);
    Onward(r, s2, s);
  }

  ghost predicate Retrying(c: Cluster, log: Log) {
    && Trio(c) && Is(c.nodes[1], Leader, 3, log) && Idle(c.nodes[1]) && NoReplies(c.nodes[1])
    && Lookup(c.nodes[1].repl.nextIndex, 3, 1) == 1
    && Is(c.nodes[3], Follower, 3, []) && Idle(c.nodes[3])
  }

  lemma Backs(r: Run) returns (s: Run)
    requires Good(r) && Trio(Last(r))
    requires var c := Last(r);
             && Is(c.nodes[1], Leader, 3, [A]) && Idle(c.nodes[1]) && Unheard(c.nodes[1])
             && Is(c.nodes[3], Follower, 3, []) && Idle(c.nodes[3])
             && Queue(c.net, 1, 3) == [AppendEntries(3, 1, 1, [], 0)] && Queue(c.net, 3, 1) == []
    ensures Continues(r, s) && Retrying(Last(s), [A]) && Last(s).nodes[2] == Last(r).nodes[2]
    ensures Queue(Last(s).net, 1, 3) == [] && Queue(Last(s).net, 3, 1) == []
  {
    assert MemberAt(Last(r), 3);
    var f := Last(r).nodes[3];
    RejectNode(f, 1, AppendEntries(3, 1, 1, [], 0));
    var s1 := Replies(r, 1, 3, 2, f.(leaderHint := Some(1)), AppendEntriesResponse(3, false, 0));
    s := BackedBy(s1);
    Onward(r, s1, s);
  }

  lemma BackedBy(r: Run) returns (s: Run)
    requires Good(r) && Trio(Last(r))
    requires var c := Last(r);
             && Is(c.nodes[1], Leader, 3, [A]) && Idle(c.nodes[1]) && Unheard(c.nodes[1])
             && Is(c.nodes[3], Follower, 3, []) && Idle(c.nodes[3])
             && Queue(c.net, 1, 3) == [] && Queue(c.net, 3, 1) == [AppendEntriesResponse(3, false, 0)]
    ensures Continues(r, s) && Retrying(Last(s), [A]) && Last(s).nodes[2] == Last(r).nodes[2]
    ensures Queue(Last(s).net, 1, 3) == [] && Queue(Last(s).net, 3, 1) == []
  {
    assert MemberAt(Last(r), 1);
    var n := Last(r).nodes[1];
    StepBackNode(n, 3, 0);
    s := Arrives(r, 3, 1, SteppedBack(n, 3), []);
  }

  lemma ResendNode(n: Node) returns (a: Msg)
    requires Member(n, 1) && Is(n, Leader, 3, [A]) && Idle(n) && Lookup(n.repl.nextIndex, 3, 1) == 1
    ensures Member(Grown(n, "c"), 1) && Grown(n, "c").store.log == [A, C]
    ensures Answers(n, ClientCommand("c"), Grown(n, "c"), ToPeers(1, a, AppendEntries(3, 0, 0, [A, C], 0)))
  {
    var b;
    a, b := ClientNode(n, "c");
    assert Grown(n, "c").store.log[0..2] == [A, C];
  }

  lemma Resends(r: Run) returns (s: Run)
    requires Good(r) && Retrying(Last(r), [A])
    requires Queue(Last(r).net, 1, 3) == [] && Queue(Last(r).net, 3, 1) == []
    ensures Continues(r, s) && Retrying(Last(s), [A, C]) && Last(s).nodes[2] == Last(r).nodes[2]
    ensures Queue(Last(s).net, 1, 3) == [AppendEntries(3, 0, 0, [A, C], 0)] && Queue(Last(s).net, 3, 1) == []
  {
    assert MemberAt(Last(r), 1);
    var n := Last(r).nodes[1];
    var a := ResendNode(n);
    var b := AppendEntries(3, 0, 0, [A, C], 0);
    s := Turn(r, Client(1, "c"), 1, ClientCommand("c"), Grown(n, "c"), ToPeers(1, a, b));
    ForPeers(1, a, b, 3);
  }

  lemma Refills(r: Run) returns (s: Run)
    requires Good(r) && Retrying(Last(r), [A, C])
    requires Queue(Last(r).net, 1, 3) == [AppendEntries(3, 0, 0, [A, C], 0)] && Queue(Last(r).net, 3, 1) == []
    ensures Continues(r, s) && Trio(Last(s)) && Last(s).nodes[2] == Last(r).nodes[2]
    ensures Is(Last(s).nodes[1], Leader, 3, [A, C])
    ensures Last(s).nodes[1].repl.commitIndex == Last(s).nodes[1].repl.lastApplied == 2
  {
    assert MemberAt(Last(r), 1) && MemberAt(Last(r), 3);
    var n, f := Last(r).nodes[1], Last(r).nodes[3];
    AcceptNode(f, 1, AppendEntries(3, 0, 0, [A, C], 0));
    var reply := Envelope(1, AppendEntriesResponse(3, true, 2));
    var s1 := Arrives(r, 1, 3, Filled(f, 1, [A, C]), [reply]);
    ForOne(reply, 1);
    CommitNode(n, 3);
    s := Arrives(s1, 3, 1, Committed(n, 3), []);
    Onward(r, s1, s);
  }

  // In-order links, no compaction and no crash, yet: at some point a leader of
  // term 3 lacks the entry node 2 committed in term 2; and in the end nodes 1
  // and 2 have applied different commands at index 1. What the run breaks is
  // NoStaleTail.
  lemma StaleTailBreaksSafety(codec: Codec) returns (r: Run, i: nat)
    ensures IsRun(r) && Uncompacted(r) && Ordered(r) && i < |r.states|
    ensures var c := r.states[i];
            && c.nodes.Keys == {1, 2, 3}
            && c.nodes[2].store.log == [B] && c.nodes[2].repl.commitIndex == 1
            && c.nodes[1].role == Leader && c.nodes[1].term > c.nodes[2].term && c.nodes[1].store.log == [A]
    ensures var d := Last(r);
            && d.nodes.Keys == {1, 2, 3}
            && d.nodes[2].store.log == [B] && d.nodes[2].repl.lastApplied == 1
            && d.nodes[1].store.log == [A, C] && d.nodes[1].repl.lastApplied == 2
    ensures !Orderly(r)
  {
    var r1 := Act1(codec);
    var r2 := Act2(r1);
    var r3 := Act3(r2);
    var r4 := Act4(r3);
    r := Act5(r4);
    i := |r4.states| - 1;
    assert r.states[i] == Last(r4);
    NotOrderly(r, i);
  }

  lemma NotOrderly(r: Run, i: nat)
    requires IsRun(r) && Uncompacted(r) && i < |r.states|
    requires 1 in r.states[i].nodes && 2 in r.states[i].nodes
    requires var c := r.states[i];
             && c.nodes[2].store.log == [B] && c.nodes[2].repl.commitIndex == 1
             && c.nodes[1].role == Leader && c.nodes[1].term > c.nodes[2].term && c.nodes[1].store.log == [A]
    ensures !Orderly(r)
  {
    if Orderly(r) {
      LeaderCompleteness(r, i, 2, i, 1);
      SameFirst(r.states[i].nodes[2].store.log[..1], r.states[i].nodes[1].store.log[..1]);
      assert false;
    }
  }

  lemma SameFirst(a: Log, b: Log)
    requires a == b && a != []
    ensures a[0] == b[0]
  {
  }
}
