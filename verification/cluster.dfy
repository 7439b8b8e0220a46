// A cluster of nodes joined by per-link queues, and the runs it can make.
module Clusters {
  import opened Types
  import opened Storage
  import opened Replication
  import opened Nodes

  datatype Link = Link(from: NodeId, to: NodeId)

  type Net = map<Link, seq<Msg>>

  datatype Cluster = Cluster(nodes: map<NodeId, Node>, net: Net)

  function Queue(net: Net, from: NodeId, to: NodeId): seq<Msg> {
    if Link(from, to) in net then net[Link(from, to)] else []
  }

  function Push(net: Net, from: NodeId, to: NodeId, msg: Msg): (r: Net)
    ensures forall f, t :: Queue(r, f, t) == if f == from && t == to then Queue(net, f, t) + [msg] else Queue(net, f, t)
  {
    net[Link(from, to) := Queue(net, from, to) + [msg]]
  }

  // Take message k off a link; k > 0 means overtaking the ones before it.
  function Pull(net: Net, from: NodeId, to: NodeId, k: nat): (r: Net)
    requires k < |Queue(net, from, to)|
    ensures forall f, t :: Queue(r, f, t) ==
                           if f == from && t == to then Queue(net, f, t)[..k] + Queue(net, f, t)[k + 1..]
                           else Queue(net, f, t)
  {
    net[Link(from, to) := Queue(net, from, to)[..k] + Queue(net, from, to)[k + 1..]]
  }

  function Post(net: Net, from: NodeId, sent: seq<Envelope>): Net {
    if sent == [] then net
    else
      var last := sent[|sent| - 1];
      Push(Post(net, from, sent[..|sent| - 1]), from, last.to, last.msg)
  }

  // Deliver and Drop name a position, so links may reorder and lose messages;
  // each message is delivered at most once.
  datatype Action =
    | Deliver(from: NodeId, to: NodeId, k: nat)
    | Drop(from: NodeId, to: NodeId, k: nat)
    | ElectionTimeout(id: NodeId)
    | Heartbeat(id: NodeId)
    | Client(id: NodeId, payload: string)
    | Restart(id: NodeId)

  function Perform(c: Cluster, id: NodeId, e: Event): Cluster
    requires id in c.nodes
  {
    var s := OnEvent(c.nodes[id], e);
    Cluster(c.nodes[id := s.node], Post(c.net, id, s.sent))
  }

  // A crash loses everything but storage; the node comes back with the same
  // peers and a fresh state machine.
  function Restarted(n: Node): Node
    requires n.config.members != []
  {
    NewNode(n.id, n.store, map[], n.config.members[1..], n.threshold, n.codec)
  }

  predicate Enabled(c: Cluster, a: Action) {
    match a
    case Deliver(from, to, k) => to in c.nodes && k < |Queue(c.net, from, to)|
    case Drop(from, to, k) => k < |Queue(c.net, from, to)|
    case ElectionTimeout(id) => id in c.nodes
    case Heartbeat(id) => id in c.nodes
    case Client(id, _) => id in c.nodes
    case Restart(id) => id in c.nodes && c.nodes[id].config.members != []
  }

  function Do(c: Cluster, a: Action): Cluster
    requires Enabled(c, a)
  {
    match a
    case Deliver(from, to, k) =>
      Perform(c.(net := Pull(c.net, from, to, k)), to, Message(from, Queue(c.net, from, to)[k]))
    case Drop(from, to, k) => c.(net := Pull(c.net, from, to, k))
    case ElectionTimeout(id) => Perform(c, id, TimerFired(ElectionTimer))
    case Heartbeat(id) => Perform(c, id, TimerFired(HeartbeatTimer))
    case Client(id, payload) => Perform(c, id, ClientCommand(payload))
    case Restart(id) => c.(nodes := c.nodes[id := Restarted(c.nodes[id])])
  }

  ghost predicate Next(c: Cluster, a: Action, d: Cluster) { Enabled(c, a) && d == Do(c, a) }

  // Every node starts empty and knows all the others, once each.
  ghost predicate FreshNode(n: Node, id: NodeId, all: set<NodeId>) {
    && |n.config.members| > 0
    && n == NewNode(id, EMPTY_STORE, map[], n.config.members[1..], n.threshold, n.codec)
    && Distinct(n.config.members)
    && Elements(n.config.members) == all
  }

  ghost predicate FreshAt(c: Cluster, id: NodeId) { id in c.nodes ==> FreshNode(c.nodes[id], id, c.nodes.Keys) }

  ghost predicate Initial(c: Cluster) {
    && c.net == map[]
    && c.nodes != map[]
    && forall id: NodeId :: FreshAt(c, id)
  }

  datatype Run = Run(states: seq<Cluster>, actions: seq<Action>)

  ghost predicate StepAt(r: Run, i: nat) {
    i < |r.actions| && i + 1 < |r.states| ==> Next(r.states[i], r.actions[i], r.states[i + 1])
  }

  ghost predicate IsRun(r: Run) {
    && |r.states| == |r.actions| + 1
    && Initial(r.states[0])
    && forall i: nat :: StepAt(r, i)
  }

  // Run hypotheses.

  // No node has a snapshot, so no log is compacted.
  ghost predicate NoCompaction(c: Cluster) { forall id :: id in c.nodes ==> c.nodes[id].store.snapshot.None? }

  // Links deliver in order.
  ghost predicate InOrder(a: Action) { a.Deliver? ==> a.k == 0 }

  // A delivered AppendEntries that is accepted leaves the follower's log ending
  // where the message ends. Only an empty message can fail this, when the
  // follower has entries beyond prevLogIndex.
  ghost predicate NoStaleTail(c: Cluster, a: Action)
    requires Enabled(c, a)
  {
    a.Deliver? ==>
      var m := Queue(c.net, a.from, a.to)[a.k];
      var n := c.nodes[a.to];
      m.AppendEntries? && m.entries == [] && m.term == n.term &&
      CheckLogConsistency(n.store, m.prevLogIndex, m.prevLogTerm) ==>
        n.store.LastLogIndex() <= m.prevLogIndex
  }

  ghost predicate UncompactedAt(r: Run, i: nat) { i < |r.states| ==> NoCompaction(r.states[i]) }

  ghost predicate Uncompacted(r: Run) { forall i: nat :: UncompactedAt(r, i) }

  ghost predicate OrderlyAt(r: Run, i: nat) {
    i < |r.actions| && i < |r.states| && Enabled(r.states[i], r.actions[i]) ==>
      InOrder(r.actions[i]) && NoStaleTail(r.states[i], r.actions[i])
  }

  ghost predicate Orderly(r: Run) { forall i: nat :: OrderlyAt(r, i) }

  // Node id exists in state i of the run.
  predicate Present(r: Run, i: nat, id: NodeId) { i < |r.states| && id in r.states[i].nodes }

  function NodeIn(r: Run, i: nat, id: NodeId): Node
    requires Present(r, i, id)
  {
    r.states[i].nodes[id]
  }
}
