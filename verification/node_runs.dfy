// One node on its own: everything that can be done to it, in any order, with
// any messages at all and with crash-restarts in between.
module NodeRuns {
  import opened Types
  import opened StateMachines
  import opened Nodes

  datatype Input =
    | Handle(event: Event)
    | Add(node: NodeId)
    | Remove(node: NodeId)
    | Reboot(peers: seq<NodeId>)

  function React(n: Node, i: Input): Step {
    match i
    case Handle(event) => OnEvent(n, event)
    case Add(node) => Nodes.AddServer(n, node).step
    case Remove(node) => Nodes.RemoveServer(n, node).step
    case Reboot(peers) => Step(NewNode(n.id, n.store, map[], peers, n.threshold, n.codec), [])
  }

  datatype NodeRun = NodeRun(states: seq<Node>, inputs: seq<Input>)

  ghost predicate ReactsAt(r: NodeRun, i: nat) {
    i < |r.inputs| && i + 1 < |r.states| ==> r.states[i + 1] == React(r.states[i], r.inputs[i]).node
  }

  // A node as it comes up over some storage.
  ghost predicate Booted(n: Node, sm: KV) {
    |n.config.members| > 0 && n == NewNode(n.id, n.store, sm, n.config.members[1..], n.threshold, n.codec)
  }

  ghost predicate IsNodeRun(r: NodeRun) {
    && |r.states| == |r.inputs| + 1
    && Booted(r.states[0], map[])
    && forall i: nat :: ReactsAt(r, i)
  }

  // --- Since when ---

  // Step i is marked and every step from there to state j is quiet.
  ghost predicate LastAt(marks: nat -> bool, quiet: nat -> bool, i: nat, j: nat) {
    i < j && marks(i) && forall k: nat :: i < k < j ==> quiet(k)
  }

  // Something has been so since some marked step, and still is at state j.
  ghost predicate Since(marks: nat -> bool, quiet: nat -> bool, j: nat) {
    exists i: nat :: LastAt(marks, quiet, i, j)
  }

  lemma SinceOneMore(marks: nat -> bool, quiet: nat -> bool, j: nat, next: nat)
    requires next == j + 1
    ensures Since(marks, quiet, next) <==> marks(j) || (Since(marks, quiet, j) && quiet(j))
  {
    if i: nat :| LastAt(marks, quiet, i, next) {
      assert i < j ==> LastAt(marks, quiet, i, j) && quiet(j);
    }
    if marks(j) {
      assert LastAt(marks, quiet, j, next);
    }
    if i: nat :| LastAt(marks, quiet, i, j) && quiet(j) {
      assert LastAt(marks, quiet, i, next);
    }
  }
}
