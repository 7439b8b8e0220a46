// The test cluster's network: one queue per recipient, messages of all senders
// in the order they were sent.
module MessageBrokers {
  import opened Types
  import opened Clusters

  datatype Sent = Sent(from: NodeId, msg: Msg)

  type Queues = map<NodeId, seq<Sent>>

  function QueueOf(queues: Queues, to: NodeId): seq<Sent> { if to in queues then queues[to] else [] }

  // The messages of one sender in a queue, in order.
  function FromOf(queue: seq<Sent>, from: NodeId): seq<Msg> {
    if queue == [] then []
    else (if queue[0].from == from then [queue[0].msg] else []) + FromOf(queue[1..], from)
  }

  // Position of a sender's first message.
  function Position(queue: seq<Sent>, from: NodeId): (r: Option<nat>)
    ensures r.None? <==> FromOf(queue, from) == []
    ensures r.Some? ==> r.value < |queue| && queue[r.value].from == from
    ensures r.Some? ==> FromOf(queue[..r.value], from) == []
  {
    if queue == [] then None
    else if queue[0].from == from then Some(0)
    else
      match Position(queue[1..], from)
      case None => None
      case Some(p) =>
        assert queue[..p + 1][1..] == queue[1..][..p];
        Some(p + 1)
  }

  function Without(queue: seq<Sent>, p: nat): seq<Sent>
    requires p < |queue|
  {
    queue[..p] + queue[p + 1..]
  }

  class MessageBroker {
    var queues: Queues

    constructor ()
      ensures queues == map[]
    {
      queues := map[];
    }

    method Enqueue(from: NodeId, to: NodeId, msg: Msg)
      modifies this
      ensures queues == After(old(queues), Op.Enqueue(from, to, msg))
    {
      if to !in queues {
        queues := queues[to := []];
      }
      queues := queues[to := queues[to] + [Sent(from, msg)]];
    }

    method Dequeue(to: NodeId) returns (r: Option<Sent>)
      modifies this
      ensures queues == After(old(queues), Op.Dequeue(to)) && r == Out(old(queues), Op.Dequeue(to))
    {
      if to in queues && queues[to] != [] {
        r := Some(queues[to][0]);
        queues := queues[to := queues[to][1..]];
      } else {
        r := None;
      }
    }

    method DequeueFrom(to: NodeId, from: NodeId) returns (r: Option<Sent>)
      modifies this
      ensures queues == After(old(queues), Op.DequeueFrom(to, from)) && r == Out(old(queues), Op.DequeueFrom(to, from))
    {
      r := None;
      if to in queues {
        var p := 0;
        while p < |queues[to]| && queues[to][p].from != from
          invariant p <= |queues[to]| && Skipped(queues[to], p, from)
        {
          p := p + 1;
        }
        SearchEnds(queues[to], p, from);
        if p < |queues[to]| {
          r := Some(queues[to][p]);
          queues := queues[to := Without(queues[to], p)];
        }
      }
    }
  }

  ghost predicate Skipped(queue: seq<Sent>, p: nat, from: NodeId) {
    forall i :: 0 <= i < p && i < |queue| ==> queue[i].from != from
  }

  lemma {:induction false} SearchEnds(queue: seq<Sent>, p: nat, from: NodeId)
    requires p <= |queue| && Skipped(queue, p, from) && (p < |queue| ==> queue[p].from == from)
    ensures Position(queue, from) == if p < |queue| then Some(p) else None
  {
    if queue != [] && p > 0 {
      assert Skipped(queue[1..], p - 1, from) by {
        forall i | 0 <= i < p - 1 && i < |queue[1..]| ensures queue[1..][i].from != from {
          assert queue[1..][i] == queue[i + 1];
        }
      }
      SearchEnds(queue[1..], p - 1, from);
    }
  }

  datatype Op =
    | Enqueue(from: NodeId, to: NodeId, msg: Msg)
    | Dequeue(to: NodeId)
    | DequeueFrom(to: NodeId, from: NodeId)

  function After(queues: Queues, op: Op): Queues {
    match op
    case Enqueue(from, to, msg) => queues[to := QueueOf(queues, to) + [Sent(from, msg)]]
    case Dequeue(to) => if QueueOf(queues, to) == [] then queues else queues[to := QueueOf(queues, to)[1..]]
    case DequeueFrom(to, from) =>
      var p := Position(QueueOf(queues, to), from);
      if p.None? then queues else queues[to := Without(QueueOf(queues, to), p.value)]
  }

  function Out(queues: Queues, op: Op): Option<Sent> {
    match op
    case Enqueue(_, _, _) => None
    case Dequeue(to) => if QueueOf(queues, to) == [] then None else Some(QueueOf(queues, to)[0])
    case DequeueFrom(to, from) =>
      var p := Position(QueueOf(queues, to), from);
      if p.None? then None else Some(QueueOf(queues, to)[p.value])
  }

  function Run(ops: seq<Op>): Queues {
    if ops == [] then map[] else After(Run(ops[..|ops| - 1]), ops[|ops| - 1])
  }

  // What one operation puts on a link, and what it takes out of it.
  function PutOn(op: Op, from: NodeId, to: NodeId): seq<Msg> {
    if op.Enqueue? && op.from == from && op.to == to then [op.msg] else []
  }

  function TakenFrom(queues: Queues, op: Op, from: NodeId, to: NodeId): seq<Msg> {
    var out := Out(queues, op);
    if out.Some? && op.to == to && out.value.from == from then [out.value.msg] else []
  }

  // What was sent on a link, and what came out of it.
  function Enqueued(ops: seq<Op>, from: NodeId, to: NodeId): seq<Msg> {
    if ops == [] then [] else Enqueued(ops[..|ops| - 1], from, to) + PutOn(ops[|ops| - 1], from, to)
  }

  function Delivered(ops: seq<Op>, from: NodeId, to: NodeId): seq<Msg> {
    if ops == [] then []
    else Delivered(ops[..|ops| - 1], from, to) + TakenFrom(Run(ops[..|ops| - 1]), ops[|ops| - 1], from, to)
  }

  lemma {:induction false} FromOfAppend(a: seq<Sent>, b: seq<Sent>, from: NodeId)
    ensures FromOf(a + b, from) == FromOf(a, from) + FromOf(b, from)
  {
    if a == [] {
      assert a + b == b;
    } else {
      assert (a + b)[1..] == a[1..] + b;
      FromOfAppend(a[1..], b, from);
    }
  }

  lemma FromOfOne(s: Sent, from: NodeId)
    ensures FromOf([s], from) == if s.from == from then [s.msg] else []
  {
    assert [s][1..] == [];
  }

  // Taking a message out leaves the other senders' messages as they were, and
  // takes the first one of its sender.
  lemma TakeOut(queue: seq<Sent>, p: nat, from: NodeId)
    requires p < |queue| && FromOf(queue[..p], queue[p].from) == []
    ensures FromOf(queue, from) ==
            (if queue[p].from == from then [queue[p].msg] else []) + FromOf(Without(queue, p), from)
  {
    assert queue == queue[..p] + ([queue[p]] + queue[p + 1..]);
    FromOfAppend(queue[..p], [queue[p]] + queue[p + 1..], from);
    FromOfAppend([queue[p]], queue[p + 1..], from);
    FromOfOne(queue[p], from);
    FromOfAppend(queue[..p], queue[p + 1..], from);
  }

  function Held(queues: Queues, from: NodeId, to: NodeId): seq<Msg> { FromOf(QueueOf(queues, to), from) }

  lemma OpConserves(queues: Queues, op: Op, from: NodeId, to: NodeId)
    ensures Held(queues, from, to) + PutOn(op, from, to) ==
            TakenFrom(queues, op, from, to) + Held(After(queues, op), from, to)
  {
    var queue := QueueOf(queues, to);
    match op
    case Enqueue(f, t, msg) =>
      if t == to {
        FromOfAppend(queue, [Sent(f, msg)], from);
        FromOfOne(Sent(f, msg), from);
      }
    case Dequeue(t) =>
      if t == to && queue != [] {
        assert queue[..0] == [] && Without(queue, 0) == queue[1..];
        TakeOut(queue, 0, from);
      }
    case DequeueFrom(t, f) =>
      var p := Position(queue, f);
      if t == to && p.Some? {
        TakeOut(queue, p.value, from);
      }
  }

  // Per sender and recipient, whatever the interleaving: what was delivered,
  // followed by what is still queued, is exactly what was sent. So links are
  // first-in first-out and deliver nothing twice.
  lemma {:induction false} LinksConserve(ops: seq<Op>, from: NodeId, to: NodeId)
    ensures Enqueued(ops, from, to) == Delivered(ops, from, to) + Held(Run(ops), from, to)
    ensures Delivered(ops, from, to) <= Enqueued(ops, from, to)
  {
    if ops != [] {
      var init, op := ops[..|ops| - 1], ops[|ops| - 1];
      LinksConserve(init, from, to);
      OpConserves(Run(init), op, from, to);
      Regroup(Enqueued(init, from, to), Delivered(init, from, to), Held(Run(init), from, to), PutOn(op, from, to),
              TakenFrom(Run(init), op, from, to), Held(Run(ops), from, to));
    }
  }

  lemma Regroup(e: seq<Msg>, d: seq<Msg>, before: seq<Msg>, put: seq<Msg>, taken: seq<Msg>, after: seq<Msg>)
    requires e == d + before && before + put == taken + after
    ensures e + put == d + taken + after
  {
    assert e + put == d + (before + put);
    assert d + taken + after == d + (taken + after);
  }

  // The broker is a network of independent links, as a cluster sees it.
  ghost predicate LinkAt(queues: Queues, net: Net, from: NodeId, to: NodeId) {
    Held(queues, from, to) == Queue(net, from, to)
  }

  ghost predicate Links(queues: Queues, net: Net) {
    forall from: NodeId, to: NodeId :: LinkAt(queues, net, from, to)
  }

  // Sending pushes onto one link.
  lemma EnqueueIsPush(queues: Queues, net: Net, op: Op)
    requires Links(queues, net) && op.Enqueue?
    ensures Links(After(queues, op), Push(net, op.from, op.to, op.msg))
  {
    forall from: NodeId, to: NodeId ensures LinkAt(After(queues, op), Push(net, op.from, op.to, op.msg), from, to) {
      OpConserves(queues, op, from, to);
      assert LinkAt(queues, net, from, to);
      assert [] + Held(After(queues, op), from, to) == Held(After(queues, op), from, to);
      assert Queue(net, from, to) + [] == Queue(net, from, to);
    }
  }

  // Taking, with or without naming the sender, pulls the first message of one
  // link, and comes back empty-handed only without effect.
  lemma DequeueIsPull(queues: Queues, net: Net, op: Op)
    requires Links(queues, net) && !op.Enqueue?
    ensures var out := Out(queues, op);
            if out.None? then After(queues, op) == queues
            else
              && Queue(net, out.value.from, op.to) != []
              && out.value.msg == Queue(net, out.value.from, op.to)[0]
              && Links(After(queues, op), Pull(net, out.value.from, op.to, 0))
  {
    var out := Out(queues, op);
    if out.Some? {
      var sender := out.value.from;
      OpConserves(queues, op, sender, op.to);
      assert LinkAt(queues, net, sender, op.to);
      TakesFirst(Queue(net, sender, op.to), out.value.msg, Held(After(queues, op), sender, op.to));
      forall from: NodeId, to: NodeId
        ensures LinkAt(After(queues, op), Pull(net, sender, op.to, 0), from, to)
      {
        OpConserves(queues, op, from, to);
        assert LinkAt(queues, net, from, to);
        assert Held(queues, from, to) + [] == Held(queues, from, to);
        assert [] + Held(After(queues, op), from, to) == Held(After(queues, op), from, to);
      }
    }
  }

  lemma TakesFirst(queue: seq<Msg>, msg: Msg, rest: seq<Msg>)
    requires queue + [] == [msg] + rest
    ensures queue != [] && queue[0] == msg && queue[..0] + queue[1..] == rest
  {
    assert queue + [] == queue;
    assert ([msg] + rest)[1..] == rest;
  }
}
