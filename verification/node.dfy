// One step of a node: the dispatch of RaftNode::on_event and the message
// handlers, as functions from a node to the node afterwards and what it sends.
module Nodes {
  import opened Types
  import opened StateMachines
  import opened Configurations
  import opened Storage
  import opened Replication
  import opened Elections
  import opened ConfigChanges
  import opened Snapshots

  datatype Node = Node(
    id: NodeId,
    role: Role,
    term: Term,
    leaderHint: Option<NodeId>,
    store: Store,
    sm: KV,
    election: Election,
    repl: Repl,
    config: Config,
    threshold: LogIndex,
    codec: Codec)

  datatype Step = Step(node: Node, sent: seq<Envelope>)

  datatype TimerKind = ElectionTimer | HeartbeatTimer

  datatype Event =
    | Message(from: NodeId, msg: Msg)
    | TimerFired(kind: TimerKind)
    | ClientCommand(payload: string)
    | SubmitChange(change: ConfigurationChange)

  datatype ClientError = NotLeader(leaderHint: Option<NodeId>)

  // Start-up and crash recovery: storage survives, the state machine is
  // restored from the snapshot, nothing is known to be committed.
  function NewNode(id: NodeId, store: Store, sm: KV, peers: seq<NodeId>, threshold: LogIndex, codec: Codec): Node {
    Node(id, Follower, store.currentTerm, None, store,
         if store.snapshot.Some? then Restore(codec, sm, store.snapshot.value.data) else sm,
         EMPTY_ELECTION,
         EMPTY_REPL.(lastApplied := if store.snapshot.Some? then store.snapshot.value.lastIncludedIndex else 0),
         Config([id] + peers, None), threshold, codec)
  }

  // --- message_handler/common.rs ---

  function Broadcast(to: seq<NodeId>, msg: Msg): seq<Envelope> {
    if to == [] then [] else Broadcast(to[..|to| - 1], msg) + [Envelope(to[|to| - 1], msg)]
  }

  function StepDown(n: Node, newTerm: Term): Node {
    n.(term := newTerm, store := n.store.(currentTerm := newTerm, votedFor := None), role := Follower,
       leaderHint := None)
  }

  function ApplyConfigChanges(n: Node, changes: seq<IndexedChange>): Node {
    var s := ApplyChanges(Changed(n.config, n.repl, n.role), n.id, n.store.LastLogIndex(), changes);
    n.(config := s.config, repl := s.repl, role := s.role)
  }

  // --- message_handler/replication.rs ---

  function AppendEntriesTo(n: Node, to: seq<NodeId>): seq<Envelope> {
    if to == [] then []
    else
      var peer := to[|to| - 1];
      AppendEntriesTo(n, to[..|to| - 1]) + [Envelope(peer, GetAppendEntriesForPeer(n.repl, peer, n.id, n.store))]
  }

  function SendAppendEntriesToFollowers(n: Node): seq<Envelope> {
    AppendEntriesTo(n, Peers(n.config.members, n.id))
  }

  function OnAppendEntries(n: Node, from: NodeId, term: Term, prev: LogIndex, prevTerm: Term, entries: Log,
                           leaderCommit: LogIndex): Step
  {
    if term > n.term then Step(StepDown(n, term), [])
    else
      var o := HandleAppendEntries(n.repl, term, prev, prevTerm, entries, leaderCommit, n.term, n.store, n.sm, n.role);
      var n1 := n.(leaderHint := Some(from), repl := o.repl, store := o.store, sm := o.sm, role := o.role,
                   term := o.term);
      Step(ApplyConfigChanges(n1, o.changes), [Envelope(from, o.reply)])
  }

  function TakeSnapshot(n: Node): Node {
    match Create(n.store, n.sm, n.repl.commitIndex, n.codec)
    case Err(_) => n
    case Ok(store) => n.(store := store)
  }

  function OnAppendEntriesResponse(n: Node, from: NodeId, term: Term, success: bool, matchIndex: LogIndex): Step {
    if term > n.term then Step(StepDown(n, term), [])
    else if n.role == Leader && term == n.term then
      var a := HandleAppendEntriesResponse(n.repl, from, success, matchIndex, n.store, n.sm, n.config.members, n.id);
      var n1 := n.(repl := a.repl, sm := a.sm);
      if a.repl.commitIndex > n.repl.commitIndex then
        var n2 := ApplyConfigChanges(n1, a.changes);
        Step(if ShouldCreate(n2.threshold, n2.repl.commitIndex, n2.store) then TakeSnapshot(n2) else n2, [])
      else Step(n1, [])
    else Step(n, [])
  }

  function OnInstallSnapshot(n: Node, from: NodeId, term: Term, lastIncludedIndex: LogIndex, lastIncludedTerm: Term,
                             offset: nat, data: Bytes, done: bool): Step
  {
    var o := HandleInstallSnapshot(n.repl, term, lastIncludedIndex, lastIncludedTerm, offset, data, done, n.term,
                                   n.store, n.sm, n.role, n.codec);
    Step(n.(repl := o.repl, store := o.store, sm := o.sm, role := o.role, term := o.term), [Envelope(from, o.reply)])
  }

  function OnInstallSnapshotResponse(n: Node, from: NodeId, term: Term, success: bool): Step {
    if term > n.term then Step(StepDown(n, term), [])
    else if n.role == Leader && term == n.term && n.store.snapshot.Some? then
      Step(n.(repl := Replication.HandleInstallSnapshotResponse(n.repl, from, success,
                                                               n.store.snapshot.value.lastIncludedIndex)), [])
    else Step(n, [])
  }

  function OnHeartbeatTimer(n: Node): Step {
    Step(n, if n.role == Leader then SendAppendEntriesToFollowers(n) else [])
  }

  // --- message_handler/election.rs ---

  function OnPreVoteRequest(n: Node, from: NodeId, term: Term, lastLogIndex: LogIndex, lastLogTerm: Term): Step {
    Step(n, [Envelope(from, PreVoteReply(term, lastLogIndex, lastLogTerm, n.term, n.store))])
  }

  function BecomeLeader(n: Node): Step {
    var n1 := n.(role := Leader, repl := InitializeLeaderState(n.repl, n.config.members, n.store));
    Step(n1, SendAppendEntriesToFollowers(n1))
  }

  function BeginElection(n: Node): Step {
    var term := n.term + 1;
    var n1 := n.(term := term, store := CampaignStore(n.id, term, n.store),
                 election := Elections.StartElection(n.election, n.id), role := Candidate);
    var request := RequestVote(term, n.id, n1.store.LastLogIndex(), n1.store.LastLogTerm());
    var sent := Broadcast(Peers(n1.config.members, n1.id), request);
    if |n1.config.members| <= 1 then
      var s := BecomeLeader(n1);
      Step(s.node, sent + s.sent)
    else Step(n1, sent)
  }

  function OnPreVoteResponse(n: Node, from: NodeId, term: Term, voteGranted: bool): Step {
    if term > n.term then Step(n, [])
    else
      var (e, start) := HandlePreVoteResponse(n.election, from, voteGranted, n.config.members);
      if start then BeginElection(n.(election := e)) else Step(n.(election := e), [])
  }

  function OnVoteRequest(n: Node, from: NodeId, term: Term, candidateId: NodeId, lastLogIndex: LogIndex,
                         lastLogTerm: Term): Step
  {
    var n1 := if term > n.term then StepDown(n, term) else n;
    var v := HandleVoteRequest(term, candidateId, lastLogIndex, lastLogTerm, n1.term, n1.store);
    Step(n1.(term := v.term, store := v.store), [Envelope(from, v.reply)])
  }

  function OnVoteResponse(n: Node, from: NodeId, term: Term, voteGranted: bool): Step {
    if term > n.term then Step(StepDown(n, term), [])
    else
      var (e, won) := HandleVoteResponse(n.election, from, term, voteGranted, n.term, n.role, n.config.members);
      if won then BecomeLeader(n.(election := e)) else Step(n.(election := e), [])
  }

  function OnElectionTimer(n: Node): Step {
    if n.role == Leader then Step(n, [])
    else
      var n1 := n.(election := Elections.StartPreVote(n.election, n.id));
      var sent := Broadcast(Peers(n.config.members, n.id), PreVoteRequestOf(n.id, n.term, n.store));
      if |n.config.members| <= 1 then
        var s := BeginElection(n1);
        Step(s.node, sent + s.sent)
      else Step(n1, sent)
  }

  // --- message_handler/admin.rs ---

  // Append one entry of the leader's term and, in a one-node cluster, commit it.
  function AppendAsLeader(n: Node, entryType: EntryType): Step {
    var n1 := n.(store := n.store.Append([LogEntry(n.term, entryType)]));
    var n2 :=
      if |n1.config.members| <= 1 then
        var a := AdvanceCommitIndex(n1.repl, n1.store, n1.sm, n1.config.members, n1.id);
        ApplyConfigChanges(n1.(repl := a.repl, sm := a.sm), a.changes)
      else n1;
    Step(n2, SendAppendEntriesToFollowers(n2))
  }

  datatype Submitted = Submitted(step: Step, result: Result<LogIndex, ClientError>)

  function Submit(n: Node, entryType: EntryType): Submitted {
    if n.role != Leader then Submitted(Step(n, []), Err(ClientError.NotLeader(n.leaderHint)))
    else Submitted(AppendAsLeader(n, entryType), Ok(n.store.Append([LogEntry(n.term, entryType)]).LastLogIndex()))
  }

  datatype ChangeSubmitted = ChangeSubmitted(step: Step, result: Result<LogIndex, ConfigError>)

  function SubmitTracked(n: Node, change: Result<ConfigurationChange, ConfigError>): ChangeSubmitted {
    match change
    case Err(e) => ChangeSubmitted(Step(n, []), Err(e))
    case Ok(change) =>
      var s := Submit(n, ConfigChange(change));
      match s.result
      case Err(_) => ChangeSubmitted(s.step, Err(ConfigError.NotLeader))
      case Ok(index) =>
        ChangeSubmitted(s.step.(node := s.step.node.(config := s.step.node.config.(pendingChange := Some(index)))),
                        Ok(index))
  }

  function AddServer(n: Node, node: NodeId): ChangeSubmitted {
    SubmitTracked(n, ConfigChanges.AddServer(n.config, node, n.id, n.role == Leader, n.repl.commitIndex))
  }

  function RemoveServer(n: Node, node: NodeId): ChangeSubmitted {
    SubmitTracked(n, ConfigChanges.RemoveServer(n.config, node, n.id, n.role == Leader, n.repl.commitIndex))
  }

  // --- message_handler.rs and raft_node.rs ---

  function OnMessage(n: Node, from: NodeId, msg: Msg): Step {
    match msg
    case PreVoteRequest(term, _, lastLogIndex, lastLogTerm) =>
      OnPreVoteRequest(n, from, term, lastLogIndex, lastLogTerm)
    case PreVoteResponse(term, voteGranted) => OnPreVoteResponse(n, from, term, voteGranted)
    case RequestVote(term, candidateId, lastLogIndex, lastLogTerm) =>
      OnVoteRequest(n, from, term, candidateId, lastLogIndex, lastLogTerm)
    case RequestVoteResponse(term, voteGranted) => OnVoteResponse(n, from, term, voteGranted)
    case AppendEntries(term, prev, prevTerm, entries, leaderCommit) =>
      OnAppendEntries(n, from, term, prev, prevTerm, entries, leaderCommit)
    case AppendEntriesResponse(term, success, matchIndex) => OnAppendEntriesResponse(n, from, term, success, matchIndex)
    case InstallSnapshot(term, _, lastIncludedIndex, lastIncludedTerm, offset, data, done) =>
      OnInstallSnapshot(n, from, term, lastIncludedIndex, lastIncludedTerm, offset, data, done)
    case InstallSnapshotResponse(term, success) => OnInstallSnapshotResponse(n, from, term, success)
  }

  function OnEvent(n: Node, e: Event): Step {
    match e
    case Message(from, msg) => OnMessage(n, from, msg)
    case TimerFired(ElectionTimer) => OnElectionTimer(n)
    case TimerFired(HeartbeatTimer) => OnHeartbeatTimer(n)
    case ClientCommand(payload) => Submit(n, Command(payload)).step
    case SubmitChange(change) => Submit(n, ConfigChange(change)).step
  }
}
