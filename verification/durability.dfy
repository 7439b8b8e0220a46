// Terms and votes survive crashes: whatever a node receives, its term never
// goes back, storage always has it, and a vote given in a term is never
// changed within that term.
module Durability {
  import opened Types
  import opened Nodes
  import opened NodeRuns

  ghost predicate Synced(n: Node) { n.term == n.store.currentTerm }

  // A step from n to m respects terms and votes.
  ghost predicate Disciplined(n: Node, m: Node) {
    && Synced(m)
    && m.term >= n.term
    && (m.term == n.term && n.store.votedFor.Some? ==> m.store.votedFor == n.store.votedFor)
  }

  lemma SubmitKeeps(n: Node, entryType: EntryType)
    ensures var m := Submit(n, entryType).step.node;
            m.term == n.term && m.store.currentTerm == n.store.currentTerm && m.store.votedFor == n.store.votedFor
  {
  }

  lemma AppendKeeps(n: Node, from: NodeId, m: Msg)
    requires Synced(n) && m.AppendEntries?
    ensures Disciplined(n, OnMessage(n, from, m).node)
  {
  }

  lemma InstallKeeps(n: Node, from: NodeId, m: Msg)
    requires Synced(n) && m.InstallSnapshot?
    ensures Disciplined(n, OnMessage(n, from, m).node)
  {
  }

  lemma MessageKeeps(n: Node, from: NodeId, m: Msg)
    requires Synced(n)
    ensures Disciplined(n, OnMessage(n, from, m).node)
  {
    match m
    case AppendEntries(_, _, _, _, _) => AppendKeeps(n, from, m);
    case InstallSnapshot(_, _, _, _, _, _, _) => InstallKeeps(n, from, m);
    case _ =>
  }

  lemma StepKeeps(n: Node, i: Input)
    requires Synced(n)
    ensures Disciplined(n, React(n, i).node)
  {
    match i
    case Handle(Message(from, m)) => MessageKeeps(n, from, m);
    case Handle(ClientCommand(payload)) => SubmitKeeps(n, Command(payload));
    case Handle(SubmitChange(change)) => SubmitKeeps(n, ConfigChange(change));
    case Add(node) => SubmitKeeps(n, ConfigChange(ConfigurationChange.AddServer(node)));
    case Remove(node) => SubmitKeeps(n, ConfigChange(ConfigurationChange.RemoveServer(node)));
    case _ =>
  }

  // Over any run: the stored term is the node's term, it never decreases, and
  // for as long as it does not rise, a stored vote stays what it was.
  lemma {:induction false} DurableTermAndVote(r: NodeRun, i: nat, j: nat)
    requires IsNodeRun(r) && i <= j < |r.states|
    ensures Synced(r.states[i]) && Synced(r.states[j])
    ensures r.states[i].term <= r.states[j].term
    ensures r.states[i].term == r.states[j].term && r.states[i].store.votedFor.Some? ==>
              r.states[j].store.votedFor == r.states[i].store.votedFor
  {
    if i < j {
      DurableTermAndVote(r, i, j - 1);
      assert ReactsAt(r, j - 1);
      StepKeeps(r.states[j - 1], r.inputs[j - 1]);
    } else if i > 0 {
      DurableTermAndVote(r, i - 1, i - 1);
      assert ReactsAt(r, i - 1);
      StepKeeps(r.states[i - 1], r.inputs[i - 1]);
    }
  }

  // The candidate a step promises its vote to, with the term, if it does.
  function Promise(n: Node, i: Input): Option<(Term, NodeId)> {
    match i
    case Handle(Message(from, RequestVote(term, candidateId, lastLogIndex, lastLogTerm))) =>
      var sent := React(n, i).sent;
      if sent == [Envelope(from, RequestVoteResponse(term, true))] then Some((term, candidateId)) else None
    case _ => None
  }

  lemma PromiseIsStored(n: Node, i: Input)
    requires Promise(n, i).Some?
    ensures var (term, candidate) := Promise(n, i).value;
            React(n, i).node.term == term && React(n, i).node.store.votedFor == Some(candidate)
  {
  }

  // No matter how often it crashes, a node promises its vote to at most one
  // candidate per term.
  lemma OneVotePerTerm(r: NodeRun, i: nat, j: nat)
    requires IsNodeRun(r) && i <= j < |r.inputs|
    requires Promise(r.states[i], r.inputs[i]).Some? && Promise(r.states[j], r.inputs[j]).Some?
    ensures var a, b := Promise(r.states[i], r.inputs[i]).value, Promise(r.states[j], r.inputs[j]).value;
            a.0 == b.0 ==> a.1 == b.1
  {
    PromiseIsStored(r.states[i], r.inputs[i]);
    PromiseIsStored(r.states[j], r.inputs[j]);
    assert ReactsAt(r, i) && ReactsAt(r, j);
    DurableTermAndVote(r, i + 1, j + 1);
  }
}
