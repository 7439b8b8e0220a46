// What a node sends of its own accord, member by member: a leader on its
// heartbeat, on taking office and on every proposal; a candidate when it asks.
module Sending {
  import opened Types
  import opened Configurations
  import opened Storage
  import opened Replication
  import opened ConfigChanges
  import opened Elections
  import opened Medians
  import opened Nodes
  import opened Steps
  import opened Recovery
  import LogRepair

  // Term of the entry at an index, or of the snapshot that ends there, or 0.
  function TermAt(s: Store, index: LogIndex): Term {
    if index == 0 then 0
    else if s.GetEntry(index).Some? then s.GetEntry(index).value.term
    else if s.snapshot.Some? && s.snapshot.value.lastIncludedIndex == index then s.snapshot.value.lastIncludedTerm
    else 0
  }

  // m brings member x what it is missing: the whole snapshot when its next index
  // is compacted away, and otherwise every entry from its next index to the end
  // of the log, with the index and term before them and the commit index.
  ghost predicate Brings(n: Node, x: NodeId, m: Msg) {
    var next, s := Lookup(n.repl.nextIndex, x, 1), n.store;
    if next < s.firstIndex && s.snapshot.Some? && s.snapshot.value.data != [] then
      m == InstallSnapshot(s.currentTerm, n.id, s.snapshot.value.lastIncludedIndex,
                           s.snapshot.value.lastIncludedTerm, 0, s.snapshot.value.data, true)
    else
      && m.AppendEntries? && m.term == s.currentTerm && m.leaderCommit == n.repl.commitIndex
      && m.prevLogIndex == Monus(next, 1) && m.prevLogTerm == TermAt(s, Monus(next, 1))
      && (if s.firstIndex <= next <= s.LastLogIndex() then
            |m.entries| == s.LastLogIndex() + 1 - next &&
            forall k :: 0 <= k < |m.entries| ==> s.GetEntry(next + k) == Some(m.entries[k])
          else m.entries == [])
  }

  lemma PeerMessage(n: Node, x: NodeId)
    requires n.store.firstIndex >= 1
    ensures Brings(n, x, GetAppendEntriesForPeer(n.repl, x, n.id, n.store))
  {
    if n.store.snapshot.Some? {
      var data := n.store.snapshot.value.data;
      assert data[0..|data|] == data;
    }
  }

  // Exactly one message to x, and it brings what x is missing.
  ghost predicate OneBrings(n: Node, sent: seq<Envelope>, x: NodeId) {
    |For(sent, x)| == 1 && Brings(n, x, For(sent, x)[0])
  }

  lemma {:induction false} EachPeer(n: Node, to: seq<NodeId>, x: NodeId)
    requires n.store.firstIndex >= 1 && Distinct(to)
    ensures if x in to then OneBrings(n, AppendEntriesTo(n, to), x) else For(AppendEntriesTo(n, to), x) == []
    ensures |AppendEntriesTo(n, to)| == |to|
  {
    if to != [] {
      var init, last := to[..|to| - 1], to[|to| - 1];
      EachPeer(n, init, x);
      PeerMessage(n, last);
      assert to == init + [last] && last !in init;
      assert AppendEntriesTo(n, to)[..|to| - 1] == AppendEntriesTo(n, init);
    }
  }

  // What every other member gets from a leader that sends to its followers, and
  // nobody else anything.
  lemma ToFollowers(n: Node, x: NodeId)
    requires n.store.firstIndex >= 1 && Distinct(n.config.members)
    ensures var sent := SendAppendEntriesToFollowers(n);
            if x in n.config.members && x != n.id then OneBrings(n, sent, x) else For(sent, x) == []
  {
    WithoutDistinct(n.config.members, n.id);
    EachPeer(n, Peers(n.config.members, n.id), x);
  }

  // On its heartbeat timer a leader sends each other member exactly what it is
  // missing; a node that does not lead sends nothing. Nobody changes.
  lemma HeartbeatBrings(n: Node, x: NodeId)
    requires n.store.firstIndex >= 1 && Distinct(n.config.members)
    ensures var s := OnEvent(n, TimerFired(HeartbeatTimer));
            && s.node == n
            && (if n.role == Leader && x in n.config.members && x != n.id then OneBrings(n, s.sent, x)
                else For(s.sent, x) == [])
  {
    ToFollowers(n, x);
  }

  // A round of log repair is a heartbeat: what it sends is what the heartbeat
  // timer makes the leader send the follower.
  lemma RoundIsHeartbeat(p: LogRepair.Pair)
    requires p.leader.role == Leader && Distinct(p.leader.config.members)
    requires p.follower.id in p.leader.config.members && p.follower.id != p.leader.id
    ensures For(OnEvent(p.leader, TimerFired(HeartbeatTimer)).sent, p.follower.id) == [LogRepair.Sent(p)]
  {
    WithoutDistinct(p.leader.config.members, p.leader.id);
    PeerLink(p.leader, Peers(p.leader.config.members, p.leader.id), p.follower.id);
  }

  lemma {:induction false} PeerLink(n: Node, to: seq<NodeId>, x: NodeId)
    requires Distinct(to)
    ensures For(AppendEntriesTo(n, to), x) ==
            if x in to then [GetAppendEntriesForPeer(n.repl, x, n.id, n.store)] else []
  {
    if to != [] {
      var init, last := to[..|to| - 1], to[|to| - 1];
      PeerLink(n, init, x);
      assert to == init + [last] && last !in init;
      assert AppendEntriesTo(n, to)[..|AppendEntriesTo(n, to)| - 1] == AppendEntriesTo(n, init);
    }
  }

  // --- Proposals ---

  // What a proposal leaves a leader of several members: its log one entry of its
  // own term longer, nothing else changed, the caller told where the entry is,
  // and every other member sent what it is now missing.
  lemma ProposalBrings(n: Node, entryType: EntryType, x: NodeId)
    requires n.role == Leader && n.store.firstIndex >= 1 && Distinct(n.config.members) && |n.config.members| > 1
    ensures var s := Submit(n, entryType);
            && s.result == Ok(n.store.LastLogIndex() + 1)
            && s.step.node == n.(store := n.store.(log := n.store.log + [LogEntry(n.term, entryType)]))
            && (if x in n.config.members && x != n.id then OneBrings(s.step.node, s.step.sent, x)
                else For(s.step.sent, x) == [])
  {
    ToFollowers(Submit(n, entryType).step.node, x);
  }

  // A leader that is its only member commits and applies a proposal at once;
  // members that this adds are sent what they are missing.
  lemma AloneCommits(n: Node, entryType: EntryType, x: NodeId)
    requires n.role == Leader && n.config.members == [n.id] && n.term == n.store.currentTerm
    requires n.store.firstIndex >= 1 && n.repl.commitIndex <= n.store.LastLogIndex()
    ensures var s, last := Submit(n, entryType), n.store.LastLogIndex() + 1;
            && s.result == Ok(last) && s.step.node.store.log == n.store.log + [LogEntry(n.term, entryType)]
            && s.step.node.repl.commitIndex == last && s.step.node.repl.lastApplied == Max(n.repl.lastApplied, last)
            && (Distinct(s.step.node.config.members) ==>
                  if x in s.step.node.config.members && x != n.id then OneBrings(s.step.node, s.step.sent, x)
                  else For(s.step.sent, x) == [])
  {
    var t := n.store.Append([LogEntry(n.term, entryType)]);
    MedianAlone(n.repl.matchIndex, t.LastLogIndex(), n.repl.catchingUp, n.id);
    assert t.GetEntry(t.LastLogIndex()) == Some(LogEntry(n.term, entryType));
    var a := AdvanceCommitIndex(n.repl, t, n.sm, n.config.members, n.id);
    ChangesKeepIndices(Changed(n.config, a.repl, n.role), n.id, t.LastLogIndex(), a.changes);
    var d := Submit(n, entryType).step.node;
    if Distinct(d.config.members) {
      ToFollowers(d, x);
    }
  }

  // --- Elections ---

  // Exactly one message to x, this one.
  lemma EveryoneHears(members: seq<NodeId>, id: NodeId, m: Msg, x: NodeId)
    requires Distinct(members)
    ensures For(Broadcast(Peers(members, id), m), x) == if x in members && x != id then [m] else []
  {
    WithoutDistinct(members, id);
    ForBroadcast(Peers(members, id), m, x);
  }

  // On its election timer a node that does not lead asks every other member for
  // a pre-vote in its current term, with the end of its log, and counts itself;
  // a leader does nothing.
  lemma TimerAsks(n: Node, x: NodeId)
    requires Distinct(n.config.members) && |n.config.members| > 1
    ensures var s := OnEvent(n, TimerFired(ElectionTimer));
            if n.role == Leader then s == Step(n, [])
            else
              && s.node == n.(election := Election(n.election.votes, [n.id], true))
              && For(s.sent, x) ==
                 if x in n.config.members && x != n.id then
                   [PreVoteRequest(n.term, n.id, n.store.LastLogIndex(), n.store.LastLogTerm())]
                 else []
  {
    EveryoneHears(n.config.members, n.id, PreVoteRequestOf(n.id, n.term, n.store), x);
  }

  // A candidate of the next term that has voted for itself, in storage too.
  ghost predicate Campaigns(n: Node, d: Node) {
    d == n.(term := n.term + 1, role := Candidate,
            store := n.store.(currentTerm := n.term + 1, votedFor := Some(n.id)),
            election := Election([n.id], d.election.preVotes, false))
  }

  // A round of pre-votes is over once it has succeeded.
  lemma RoundEnds(e: Election, from: NodeId, granted: bool, members: seq<NodeId>)
    ensures var (after, start) := HandlePreVoteResponse(e, from, granted, members);
            start ==> !after.inPreVote && HandlePreVoteResponse(after, from, granted, members) == (after, false)
  {
  }

  lemma CampaignIs(n: Node, e: Election)
    requires |n.config.members| > 1 && !e.inPreVote
    ensures var s := BeginElection(n.(election := e));
            && Campaigns(n, s.node)
            && s.sent == Broadcast(Peers(n.config.members, n.id),
                                   RequestVote(n.term + 1, n.id, n.store.LastLogIndex(), n.store.LastLogTerm()))
  {
  }

  // A pre-vote counts if it is granted, not of a newer term and one is under
  // way; it makes the node a candidate exactly when the count, repeats included,
  // is more than half of the members, and every other member is then asked.
  lemma PreVoteStarts(n: Node, from: NodeId, term: Term, granted: bool, x: NodeId)
    requires Distinct(n.config.members) && |n.config.members| > 1
    ensures var s := OnMessage(n, from, PreVoteResponse(term, granted));
            if term > n.term || !granted || !n.election.inPreVote then s == Step(n, [])
            else if 2 * (|n.election.preVotes| + 1) > |n.config.members| then
              && Campaigns(n, s.node)
              && For(s.sent, x) ==
                 if x in n.config.members && x != n.id then
                   [RequestVote(n.term + 1, n.id, n.store.LastLogIndex(), n.store.LastLogTerm())]
                 else []
            else s == Step(n.(election := n.election.(preVotes := n.election.preVotes + [from])), [])
  {
    if term <= n.term && granted && n.election.inPreVote &&
       2 * (|n.election.preVotes| + 1) > |n.config.members|
    {
      CampaignIs(n, n.election.(preVotes := n.election.preVotes + [from], inPreVote := false));
      EveryoneHears(n.config.members, n.id,
                    RequestVote(n.term + 1, n.id, n.store.LastLogIndex(), n.store.LastLogTerm()), x);
    }
  }

  // A leader as it takes office: every member at the end of the log, nothing
  // matched.
  ghost predicate TakesOffice(n: Node, d: Node) {
    && d == n.(role := Leader, election := d.election, repl := d.repl)
    && d.repl.commitIndex == n.repl.commitIndex && d.repl.lastApplied == n.repl.lastApplied
    && d.repl.catchingUp == n.repl.catchingUp
    && forall x :: x in n.config.members ==>
         x in d.repl.nextIndex && d.repl.nextIndex[x] == n.store.LastLogIndex() + 1 &&
         x in d.repl.matchIndex && d.repl.matchIndex[x] == 0
  }

  lemma OfficeBrings(n: Node, x: NodeId)
    requires Distinct(n.config.members) && n.store.firstIndex >= 1
    ensures var s := BecomeLeader(n);
            && TakesOffice(n, s.node) && s.node.election == n.election
            && (if x in n.config.members && x != n.id then OneBrings(s.node, s.sent, x) else For(s.sent, x) == [])
  {
    ToFollowers(BecomeLeader(n).node, x);
  }

  // A vote counts if it is granted, of the current term and the node is a
  // candidate; it makes the node leader exactly when the count is more than half
  // of the members, and every other member then hears of it.
  lemma VoteElects(n: Node, from: NodeId, term: Term, granted: bool, x: NodeId)
    requires Distinct(n.config.members) && n.config.members != [] && n.store.firstIndex >= 1
    ensures var s := OnMessage(n, from, RequestVoteResponse(term, granted));
            if term > n.term then s == Step(StepDown(n, term), [])
            else if term < n.term || !granted || n.role != Candidate then s == Step(n, [])
            else if 2 * (|n.election.votes| + 1) > |n.config.members| then
              && TakesOffice(n, s.node) && s.node.election == n.election.(votes := n.election.votes + [from])
              && (if x in n.config.members && x != n.id then OneBrings(s.node, s.sent, x) else For(s.sent, x) == [])
            else s == Step(n.(election := n.election.(votes := n.election.votes + [from])), [])
  {
    OfficeBrings(n.(election := n.election.(votes := n.election.votes + [from])), x);
  }

  // Alone, a node's election timer makes it leader of the next term.
  lemma AloneLeads(n: Node, x: NodeId)
    requires n.role != Leader && n.config.members == [n.id] && n.store.firstIndex >= 1
    ensures var s := OnEvent(n, TimerFired(ElectionTimer));
            && TakesOffice(n.(term := n.term + 1, store := n.store.(currentTerm := n.term + 1, votedFor := Some(n.id))),
                           s.node)
            && s.node.election == Election([n.id], [n.id], false) && s.sent == []
  {
    assert [n.id][..0] == [];
    assert Without([], n.id) == [] && Peers([n.id], n.id) == [];
  }
}
