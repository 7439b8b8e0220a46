// What a node answers, and what it takes on by answering: votes, pre-votes,
// entries, snapshots, and calls it refuses.
module NodeAnswers {
  import opened Types
  import opened Storage
  import opened Replication
  import opened ConfigChanges
  import opened Nodes
  import opened NodeRuns
  import opened Recovery
  import LeaderProgress

  // --- Terms ---

  // n after it has taken over a newer term: a follower of nobody yet, with no
  // vote, in storage too.
  ghost predicate SteppedDown(n: Node, term: Term, d: Node) {
    && d.term == term && d.role == Follower && d.leaderHint == None
    && d.store == n.store.(currentTerm := term, votedFor := None)
    && d == n.(term := d.term, role := d.role, leaderHint := d.leaderHint, store := d.store)
  }

  // Entries and answers of a newer term only make a node step down.
  lemma NewerTermSilences(n: Node, from: NodeId, m: Msg)
    requires m.term > n.term
    requires m.AppendEntries? || m.AppendEntriesResponse? || m.RequestVoteResponse? || m.InstallSnapshotResponse?
    ensures SteppedDown(n, m.term, OnMessage(n, from, m).node) && OnMessage(n, from, m).sent == []
  {
  }

  // --- Votes ---

  // A log that ends at (index, term) is no older than the store's.
  predicate NoOlder(index: LogIndex, term: Term, s: Store) {
    term > s.LastLogTerm() || (term == s.LastLogTerm() && index >= s.LastLogIndex())
  }

  predicate Grants(n: Node, m: Msg)
    requires m.RequestVote?
  {
    && NoOlder(m.lastLogIndex, m.lastLogTerm, n.store)
    && (m.term > n.term || (m.term == n.term && (n.store.votedFor == None || n.store.votedFor == Some(m.candidateId))))
  }

  // A vote is granted exactly to a candidate of a term not older, whose log is
  // not older, if no other has the vote of that term; it is stored before it is
  // sent. A newer term is taken over either way.
  lemma VoteAnswer(n: Node, from: NodeId, m: Msg)
    requires m.RequestVote?
    ensures var s, base := OnMessage(n, from, m), n.store.votedFor;
            && s.sent == [Envelope(from, RequestVoteResponse(Max(m.term, n.term), Grants(n, m)))]
            && s.node.term == Max(m.term, n.term)
            && s.node.store ==
               n.store.(currentTerm := if m.term > n.term then m.term else n.store.currentTerm,
                        votedFor := if Grants(n, m) then Some(m.candidateId)
                                    else if m.term > n.term then None
                                    else base)
            && (if m.term > n.term then s.node.role == Follower && s.node.leaderHint == None
                else s.node.role == n.role && s.node.leaderHint == n.leaderHint)
            && s.node == n.(term := s.node.term, store := s.node.store, role := s.node.role,
                            leaderHint := s.node.leaderHint)
  {
  }

  // A pre-vote is granted exactly to a node of a term and a log not older, and
  // granting it changes nothing.
  lemma PreVoteAnswer(n: Node, from: NodeId, m: Msg)
    requires m.PreVoteRequest?
    ensures OnMessage(n, from, m) ==
            Step(n, [Envelope(from, PreVoteResponse(n.term, m.term >= n.term &&
                                                            NoOlder(m.lastLogIndex, m.lastLogTerm, n.store)))])
  {
  }

  function Granted(s: Step): bool {
    |s.sent| == 1 && (s.sent[0].msg.RequestVoteResponse? || s.sent[0].msg.PreVoteResponse?) &&
    s.sent[0].msg.voteGranted
  }

  // What a pre-vote is for: it is granted exactly when the node would vote for
  // the same log in the next term, whatever it has voted in its own.
  lemma PreVoteForetells(n: Node, from: NodeId, term: Term, index: LogIndex, lastTerm: Term)
    requires term >= n.term
    ensures Granted(OnMessage(n, from, PreVoteRequest(term, from, index, lastTerm))) <==>
            Granted(OnMessage(n, from, RequestVote(term + 1, from, index, lastTerm)))
  {
    PreVoteAnswer(n, from, PreVoteRequest(term, from, index, lastTerm));
    VoteAnswer(n, from, RequestVote(term + 1, from, index, lastTerm));
  }

  // --- Entries ---

  // The follower's log has an entry of that term there, or its snapshot ends so,
  // or there is nothing before.
  predicate Continues(s: Store, prev: LogIndex, prevTerm: Term) {
    || prev == 0
    || (s.GetEntry(prev).Some? && s.GetEntry(prev).value.term == prevTerm)
    || (s.GetEntry(prev).None? && s.snapshot.Some? && s.snapshot.value.lastIncludedIndex == prev &&
        s.snapshot.value.lastIncludedTerm == prevTerm)
  }

  predicate Accepts(n: Node, m: Msg)
    requires m.AppendEntries?
  {
    m.term == n.term && Continues(n.store, m.prevLogIndex, m.prevLogTerm)
  }

  // Entries of a term not newer are answered, with the node's term and its last
  // index afterwards. They are accepted exactly in the same term, where they
  // continue the log; the commit index then rises to the leader's, as far as the
  // log goes, and all up to it is applied. A candidate yields to its own term.
  lemma AppendAnswer(n: Node, from: NodeId, m: Msg)
    requires m.AppendEntries? && m.term <= n.term
    ensures var s := OnMessage(n, from, m);
            var d := s.node;
            && s.sent == [Envelope(from, AppendEntriesResponse(n.term, Accepts(n, m), d.store.LastLogIndex()))]
            && d.term == n.term && d.leaderHint == Some(from) && d.election == n.election
            && (m.term == n.term ==> d.role != Candidate) && (m.term < n.term ==> d.role == n.role)
            && d.store == n.store.(log := d.store.log)
            && (if Accepts(n, m) && m.leaderCommit > n.repl.commitIndex then
                  d.repl.commitIndex == Min(m.leaderCommit, d.store.LastLogIndex()) &&
                  d.repl.lastApplied == Max(n.repl.lastApplied, d.repl.commitIndex)
                else
                  d.repl == n.repl && d.sm == n.sm && d.config == n.config)
            && (!Accepts(n, m) || m.entries == [] ==> d.store.log == n.store.log)
  {
    if m.term == n.term && CheckLogConsistency(n.store, m.prevLogIndex, m.prevLogTerm) {
      var o := HandleAppendEntries(n.repl, m.term, m.prevLogIndex, m.prevLogTerm, m.entries, m.leaderCommit, n.term,
                                   n.store, n.sm, n.role);
      ChangesKeepIndices(Changed(n.config, o.repl, o.role), n.id, o.store.LastLogIndex(), o.changes);
      LeaderProgress.ApplyRole(Changed(n.config, o.repl, o.role), n.id, o.store.LastLogIndex(), o.changes);
    }
  }

  // Accepted entries that start inside the window stand right behind
  // prevLogIndex, what was before them stays and nothing follows them.
  lemma AcceptedEntries(n: Node, from: NodeId, m: Msg, k: LogIndex)
    requires m.AppendEntries? && Accepts(n, m) && m.entries != []
    requires 1 <= n.store.firstIndex <= m.prevLogIndex + 1
    requires n.store.snapshot.Some? ==> n.store.snapshot.value.lastIncludedIndex < n.store.firstIndex
    ensures OnMessage(n, from, m).node.store.GetEntry(k) ==
            if k <= m.prevLogIndex then n.store.GetEntry(k)
            else if k <= m.prevLogIndex + |m.entries| then Some(m.entries[k - m.prevLogIndex - 1])
            else None
  {
    AppendWithin(n, from, m);
    assert CheckLogConsistency(n.store, m.prevLogIndex, m.prevLogTerm);
  }

  // --- Snapshots ---

  // A chunk is taken exactly when its snapshot is newer than the stored one and
  // it starts or continues the transfer.
  predicate Takes(n: Node, m: Msg)
    requires m.InstallSnapshot?
  {
    && (n.store.snapshot.Some? ==> m.lastIncludedIndex > n.store.snapshot.value.lastIncludedIndex)
    && (m.offset == 0 || m.offset == |n.store.pending|)
  }

  // A snapshot of an older term is refused with the node's own and changes
  // nothing. Otherwise the node takes over a newer term, gives up a candidacy,
  // and answers in the sender's term whether it took the chunk. Only the last
  // chunk touches more than the transfer.
  lemma InstallAnswer(n: Node, from: NodeId, m: Msg)
    requires m.InstallSnapshot?
    ensures var s := OnMessage(n, from, m);
            var d := s.node;
            if m.term < n.term then s == Step(n, [Envelope(from, InstallSnapshotResponse(n.term, false))])
            else
              && s.sent == [Envelope(from, InstallSnapshotResponse(m.term, Takes(n, m)))]
              && d.term == m.term
              && d.role == (if m.term > n.term || n.role == Candidate then Follower else n.role)
              && d.leaderHint == n.leaderHint && d.config == n.config && d.election == n.election
              && d.store.currentTerm == (if m.term > n.term then m.term else n.store.currentTerm)
              && d.store.votedFor == (if m.term > n.term then None else n.store.votedFor)
              && (!Takes(n, m) || !m.done ==>
                    && d.repl == n.repl && d.sm == n.sm && d.store.log == n.store.log
                    && d.store.firstIndex == n.store.firstIndex && d.store.snapshot == n.store.snapshot)
              && (Takes(n, m) ==> d.store.pending == if m.done then [] else Collected(n, m) + m.data)
              && (Takes(n, m) && m.done ==>
                    && d.store.snapshot ==
                       Some(Snapshot(m.lastIncludedIndex, m.lastIncludedTerm, Collected(n, m) + m.data))
                    && (var decoded := n.codec.decode(Collected(n, m) + m.data);
                        d.sm == if decoded.Some? then decoded.value else n.sm)
                    && d.repl.commitIndex == Max(n.repl.commitIndex, m.lastIncludedIndex)
                    && d.repl.lastApplied == Max(n.repl.lastApplied, m.lastIncludedIndex))
  {
  }

  function Collected(n: Node, m: Msg): Bytes
    requires m.InstallSnapshot?
  {
    if m.offset == 0 then [] else n.store.pending
  }

  // After any snapshot of a term not older than its own a node is no candidate.
  lemma CandidateYields(n: Node, from: NodeId, m: Msg)
    requires m.InstallSnapshot? && m.term >= n.term && n.role == Candidate
    ensures OnMessage(n, from, m).node.role == Follower
  {
    InstallAnswer(n, from, m);
  }

  // --- Calls ---

  // A node that does not lead refuses a proposal with its hint and does nothing.
  lemma ProposalRefused(n: Node, entryType: EntryType)
    requires n.role != Leader
    ensures Submit(n, entryType) == Submitted(Step(n, []), Err(ClientError.NotLeader(n.leaderHint)))
  {
  }

  lemma TrackedAnswer(n: Node, c: ConfigurationChange)
    requires n.store.firstIndex >= 1 && n.role == Leader
    ensures var a := SubmitTracked(n, Ok(c));
            && a.result == Ok(n.store.LastLogIndex() + 1)
            && a.step.node.store.log == n.store.log + [LogEntry(n.term, ConfigChange(c))]
            && a.step.node.config.pendingChange == Some(n.store.LastLogIndex() + 1)
  {
    TrackedWithin(n, Ok(c));
    TrackedResult(n, c);
  }

  lemma TrackedResult(n: Node, c: ConfigurationChange)
    requires n.store.firstIndex >= 1 && n.role == Leader
    ensures var a := SubmitTracked(n, Ok(c));
            a.result == Ok(n.store.LastLogIndex() + 1) && a.step.node.config.pendingChange == Some(a.result.value)
  {
  }

  // Which check stops an addition or a removal, if any does.
  lemma ChangesChecked(n: Node, x: NodeId)
    ensures var busy := n.config.pendingChange.Some? && n.config.pendingChange.value > n.repl.commitIndex;
            && Adding(n, x) ==
               (if n.role != Leader then Err(ConfigError.NotLeader)
                else if busy then Err(ConfigChangeInProgress)
                else if x == n.id || x in n.config.members then Err(NodeAlreadyExists)
                else Ok(ConfigurationChange.AddServer(x)))
            && Removing(n, x) ==
               (if n.role != Leader then Err(ConfigError.NotLeader)
                else if busy then Err(ConfigChangeInProgress)
                else if |n.config.members| == 1 then Err(CannotRemoveLastNode)
                else if x != n.id && x !in n.config.members then Err(NodeNotFound)
                else Ok(ConfigurationChange.RemoveServer(x)))
  {
  }

  // Why an addition is refused, in this order, or else where its entry goes.
  lemma AdditionAnswer(n: Node, x: NodeId)
    requires n.store.firstIndex >= 1
    ensures var a := Nodes.AddServer(n, x);
            && a.result ==
               (if n.role != Leader then Err(ConfigError.NotLeader)
                else if n.config.pendingChange.Some? && n.config.pendingChange.value > n.repl.commitIndex then
                  Err(ConfigChangeInProgress)
                else if x == n.id || x in n.config.members then Err(NodeAlreadyExists)
                else Ok(n.store.LastLogIndex() + 1))
            && (a.result.Err? ==> a.step == Step(n, []))
            && (a.result.Ok? ==>
                  && a.step.node.store.log == n.store.log + [LogEntry(n.term, ConfigChange(AddServer(x)))]
                  && a.step.node.config.pendingChange == Some(a.result.value))
  {
    ChangesChecked(n, x);
    if n.role == Leader {
      TrackedAnswer(n, AddServer(x));
    }
  }

  // Why a removal is refused, in this order, or else where its entry goes.
  lemma RemovalAnswer(n: Node, x: NodeId)
    requires n.store.firstIndex >= 1
    ensures var a := Nodes.RemoveServer(n, x);
            && a.result ==
               (if n.role != Leader then Err(ConfigError.NotLeader)
                else if n.config.pendingChange.Some? && n.config.pendingChange.value > n.repl.commitIndex then
                  Err(ConfigChangeInProgress)
                else if |n.config.members| == 1 then Err(CannotRemoveLastNode)
                else if x != n.id && x !in n.config.members then Err(NodeNotFound)
                else Ok(n.store.LastLogIndex() + 1))
            && (a.result.Err? ==> a.step == Step(n, []))
            && (a.result.Ok? ==>
                  && a.step.node.store.log == n.store.log + [LogEntry(n.term, ConfigChange(RemoveServer(x)))]
                  && a.step.node.config.pendingChange == Some(a.result.value))
  {
    ChangesChecked(n, x);
    if n.role == Leader {
      TrackedAnswer(n, RemoveServer(x));
    }
  }

  // --- Whom a node takes for the leader ---

  // The step answers entries of x.
  predicate Hears(n: Node, i: Input, x: NodeId) {
    i.Handle? && i.event.Message? && i.event.msg.AppendEntries? && i.event.msg.term <= n.term && i.event.from == x
  }

  // The step makes the node step down, or restarts it.
  predicate Forgets(n: Node, i: Input) {
    match i
    case Reboot(_) => true
    case Handle(Message(_, m)) =>
      m.term > n.term && !m.PreVoteRequest? && !m.PreVoteResponse? && !m.InstallSnapshot?
    case _ => false
  }

  lemma SubmitKeepsHint(n: Node, entryType: EntryType)
    ensures Submit(n, entryType).step.node.leaderHint == n.leaderHint
  {
  }

  lemma MessageHint(n: Node, from: NodeId, m: Msg)
    ensures var i := Handle(Message(from, m));
            OnMessage(n, from, m).node.leaderHint ==
            if Forgets(n, i) then None else if Hears(n, i, from) then Some(from) else n.leaderHint
  {
  }

  lemma StepHint(n: Node, i: Input, x: NodeId)
    ensures React(n, i).node.leaderHint == Some(x) <==>
            Hears(n, i, x) || (n.leaderHint == Some(x) && !Forgets(n, i) && forall y :: !Hears(n, i, y))
  {
    match i
    case Handle(Message(from, m)) =>
      MessageHint(n, from, m);
      assert m.AppendEntries? && m.term <= n.term ==> Hears(n, i, from);
    case Handle(ClientCommand(payload)) => SubmitKeepsHint(n, Command(payload));
    case Handle(SubmitChange(change)) => SubmitKeepsHint(n, ConfigChange(change));
    case Handle(TimerFired(_)) =>
    case Add(node) =>
      if Adding(n, node).Ok? {
        SubmitKeepsHint(n, ConfigChange(Adding(n, node).value));
      }
    case Remove(node) =>
      if Removing(n, node).Ok? {
        SubmitKeepsHint(n, ConfigChange(Removing(n, node).value));
      }
    case Reboot(_) =>
  }

  ghost predicate HearsAt(r: NodeRun, i: nat, x: NodeId) {
    i < |r.inputs| && i < |r.states| && Hears(r.states[i], r.inputs[i], x)
  }

  // Step k neither hears another nor forgets.
  ghost predicate RemembersAt(r: NodeRun, k: nat) {
    k < |r.inputs| && k < |r.states| ==>
      !Forgets(r.states[k], r.inputs[k]) && forall y :: !Hears(r.states[k], r.inputs[k], y)
  }

  ghost function Hearing(r: NodeRun, x: NodeId): nat -> bool { (i: nat) => HearsAt(r, i, x) }

  ghost function Remembering(r: NodeRun): nat -> bool { (k: nat) => RemembersAt(r, k) }

  // x is the last whose entries the node answered before state j, and it has not
  // stepped down or restarted since.
  ghost predicate HeardLast(r: NodeRun, j: nat, x: NodeId) { Since(Hearing(r, x), Remembering(r), j) }

  // Over any run: the hint a node refuses proposals with is exactly the sender of
  // the last entries it answered since it last stepped down or restarted.
  lemma {:induction false} HintIsLastHeard(r: NodeRun, j: nat, x: NodeId, entryType: EntryType)
    requires IsNodeRun(r) && j < |r.states|
    ensures r.states[j].leaderHint == Some(x) <==> HeardLast(r, j, x)
    ensures r.states[j].role != Leader ==>
              Submit(r.states[j], entryType).result == Err(ClientError.NotLeader(r.states[j].leaderHint))
  {
    if j > 0 {
      HintIsLastHeard(r, j - 1, x, entryType);
      assert ReactsAt(r, j - 1);
      StepHint(r.states[j - 1], r.inputs[j - 1], x);
      SinceOneMore(Hearing(r, x), Remembering(r), j - 1, j);
    }
  }
}
