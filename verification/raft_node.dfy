// RaftNode: the node as the program runs it, every component updated in place.
// Each method does to the node what the step function of the same event does
// to its value, and sends what it sends.
module RaftNodes {
  import opened Types
  import opened StateMachines
  import opened Configurations
  import opened Storage
  import opened Replication
  import opened Elections
  import opened ConfigChanges
  import opened Snapshots
  import opened Nodes
  import opened ReplicationManagers
  import opened ElectionManagers
  import opened ConfigChangeManagers
  import opened SnapshotManagers

  class RaftNode {
    const id: NodeId
    var role: Role
    var currentTerm: Term
    var currentLeader: Option<NodeId>
    const storage: InMemoryStorage
    const stateMachine: InMemoryStateMachine
    const election: ElectionManager
    const replication: LogReplicationManager
    const configManager: ConfigChangeManager
    const snapshotManager: SnapshotManager
    const codec: Codec
    // The transport: everything sent so far.
    var outbox: seq<Envelope>

    ghost function Repr(): set<object> {
      {this, storage, stateMachine, election, replication, configManager}
    }

    function View(): Node
      reads this, storage, stateMachine, election, replication, configManager
    {
      Node(id, role, currentTerm, currentLeader, storage.View(), stateMachine.data, election.View(), replication.View(),
           configManager.View(), snapshotManager.threshold, codec)
    }

    // Start-up, and recovery from what storage kept.
    constructor (id: NodeId, storage: InMemoryStorage, stateMachine: InMemoryStateMachine, peers: seq<NodeId>,
                 threshold: LogIndex, codec: Codec)
      modifies stateMachine
      ensures View() == NewNode(id, old(storage.View()), old(stateMachine.data), peers, threshold, codec)
      ensures outbox == [] && fresh(Repr() - {storage, stateMachine})
      ensures this.storage == storage && this.stateMachine == stateMachine
    {
      var lastApplied := 0;
      if storage.snapshot.Some? {
        stateMachine.RestoreFromSnapshot(codec, storage.snapshot.value.data);
        lastApplied := storage.snapshot.value.lastIncludedIndex;
      }
      var manager := new LogReplicationManager();
      manager.SetLastApplied(lastApplied);
      var elections := new ElectionManager();
      var configs := new ConfigChangeManager([id] + peers);
      var snapshots := new SnapshotManager(threshold);
      this.id := id;
      role := Follower;
      currentTerm := storage.currentTerm;
      currentLeader := None;
      this.storage := storage;
      this.stateMachine := stateMachine;
      election := elections;
      replication := manager;
      configManager := configs;
      snapshotManager := snapshots;
      this.codec := codec;
      outbox := [];
    }

    // --- message_handler/common.rs ---

    method Send(to: NodeId, msg: Msg)
      modifies this`outbox
      ensures outbox == old(outbox) + [Envelope(to, msg)]
    {
      outbox := outbox + [Envelope(to, msg)];
    }

    method Broadcast(msg: Msg)
      modifies this`outbox
      ensures outbox == old(outbox) + Nodes.Broadcast(Peers(configManager.members, id), msg)
    {
      var ids := Peers(configManager.members, id);
      for i := 0 to |ids|
        invariant outbox == old(outbox) + Nodes.Broadcast(ids[..i], msg)
      {
        assert ids[..i + 1][..i] == ids[..i];
        Send(ids[i], msg);
      }
      assert ids[..|ids|] == ids;
    }

    // Whether the node stepped down because of a newer term.
    method ValidateTermAndStepDown(term: Term) returns (steppedDown: bool)
      modifies Repr()
      ensures steppedDown <==> term > old(currentTerm)
      ensures View() == if steppedDown then StepDown(old(View()), term) else old(View())
      ensures outbox == old(outbox)
    {
      if term > currentTerm {
        currentTerm := term;
        storage.SetCurrentTerm(term);
        role := Follower;
        storage.SetVotedFor(None);
        currentLeader := None;
        return true;
      }
      return false;
    }

    method ApplyConfigChanges(changes: seq<IndexedChange>)
      modifies Repr()
      ensures View() == Nodes.ApplyConfigChanges(old(View()), changes)
      ensures outbox == old(outbox)
    {
      role := configManager.ApplyChanges(changes, id, storage.View().LastLogIndex(), replication, role);
    }

    // --- message_handler/replication.rs ---

    method SendAppendEntriesToFollowers()
      modifies this`outbox
      ensures outbox == old(outbox) + Nodes.SendAppendEntriesToFollowers(View())
    {
      var ids := Peers(configManager.members, id);
      for i := 0 to |ids|
        invariant View() == old(View())
        invariant outbox == old(outbox) + AppendEntriesTo(old(View()), ids[..i])
      {
        assert ids[..i + 1][..i] == ids[..i];
        Send(ids[i], GetAppendEntriesForPeer(replication.View(), ids[i], id, storage.View()));
      }
      assert ids[..|ids|] == ids;
    }

    method HandleAppendEntries(from: NodeId, term: Term, prevLogIndex: LogIndex, prevLogTerm: Term, entries: Log,
                               leaderCommit: LogIndex)
      modifies Repr()
      ensures var s := OnAppendEntries(old(View()), from, term, prevLogIndex, prevLogTerm, entries, leaderCommit);
              View() == s.node && outbox == old(outbox) + s.sent
    {
      var steppedDown := ValidateTermAndStepDown(term);
      if steppedDown {
        return;
      }
      currentLeader := Some(from);
      var reply, changes;
      currentTerm, role, reply, changes :=
        replication.HandleAppendEntries(term, prevLogIndex, prevLogTerm, entries, leaderCommit, currentTerm, storage,
                                        stateMachine, role);
      ApplyConfigChanges(changes);
      Send(from, reply);
    }

    method HandleAppendEntriesResponse(from: NodeId, term: Term, success: bool, matchIndex: LogIndex)
      modifies Repr()
      ensures var s := OnAppendEntriesResponse(old(View()), from, term, success, matchIndex);
              View() == s.node && outbox == old(outbox) + s.sent
    {
      var steppedDown := ValidateTermAndStepDown(term);
      if steppedDown {
        return;
      }
      if role == Leader && term == currentTerm {
        var oldCommitIndex := replication.commitIndex;
        var changes := replication.HandleAppendEntriesResponse(from, success, matchIndex, storage, stateMachine,
                                                               configManager.members, id);
        if replication.commitIndex > oldCommitIndex {
          ApplyConfigChanges(changes);
          if ShouldCreate(snapshotManager.threshold, replication.commitIndex, storage.View()) {
            var _ := snapshotManager.Create(storage, stateMachine, replication.commitIndex, codec);
          }
        }
      }
    }

    method HandleInstallSnapshot(from: NodeId, term: Term, lastIncludedIndex: LogIndex, lastIncludedTerm: Term,
                                 offset: nat, data: Bytes, done: bool)
      modifies Repr()
      ensures var s := OnInstallSnapshot(old(View()), from, term, lastIncludedIndex, lastIncludedTerm, offset, data,
                                         done);
              View() == s.node && outbox == old(outbox) + s.sent
    {
      var reply;
      currentTerm, role, reply :=
        replication.HandleInstallSnapshot(term, lastIncludedIndex, lastIncludedTerm, offset, data, done, currentTerm,
                                          storage, stateMachine, role, codec);
      Send(from, reply);
    }

    method HandleInstallSnapshotResponse(from: NodeId, term: Term, success: bool)
      modifies Repr()
      ensures var s := OnInstallSnapshotResponse(old(View()), from, term, success);
              View() == s.node && outbox == old(outbox) + s.sent
    {
      var steppedDown := ValidateTermAndStepDown(term);
      if steppedDown {
        return;
      }
      if role == Leader && term == currentTerm {
        if storage.snapshot.Some? {
          replication.HandleInstallSnapshotResponse(from, success, storage.snapshot.value.lastIncludedIndex);
        }
      }
    }

    method HandleHeartbeatTimer()
      modifies this`outbox
      ensures outbox == old(outbox) + OnHeartbeatTimer(View()).sent
    {
      if role == Leader {
        SendAppendEntriesToFollowers();
      }
    }

    // --- message_handler/election.rs ---

    method HandlePreVoteRequest(from: NodeId, term: Term, lastLogIndex: LogIndex, lastLogTerm: Term)
      modifies this`outbox
      ensures outbox == old(outbox) + OnPreVoteRequest(View(), from, term, lastLogIndex, lastLogTerm).sent
    {
      Send(from, PreVoteReply(term, lastLogIndex, lastLogTerm, currentTerm, storage.View()));
    }

    method BecomeLeader()
      modifies Repr()
      ensures var s := Nodes.BecomeLeader(old(View()));
              View() == s.node && outbox == old(outbox) + s.sent
    {
      role := Leader;
      replication.InitializeLeaderState(configManager.members, storage);
      SendAppendEntriesToFollowers();
    }

    // A candidate of the next term that has asked everyone for a vote.
    method Campaign()
      modifies Repr()
      ensures View() == old(View()).(term := old(currentTerm) + 1,
                                     store := CampaignStore(id, old(currentTerm) + 1, old(storage.View())),
                                     election := Elections.StartElection(old(election.View()), id), role := Candidate)
      ensures outbox == old(outbox) +
                        Nodes.Broadcast(Peers(configManager.members, id),
                                        RequestVote(currentTerm, id, storage.View().LastLogIndex(),
                                                    storage.View().LastLogTerm()))
    {
      var request;
      currentTerm, role, request := election.StartElection(id, currentTerm, storage);
      Broadcast(request);
    }

    method StartElection()
      modifies Repr()
      ensures var s := BeginElection(old(View()));
              View() == s.node && outbox == old(outbox) + s.sent
    {
      Campaign();
      if |configManager.members| <= 1 {
        BecomeLeader();
      }
    }

    method HandlePreVoteResponse(from: NodeId, term: Term, voteGranted: bool)
      modifies Repr()
      ensures var s := OnPreVoteResponse(old(View()), from, term, voteGranted);
              View() == s.node && outbox == old(outbox) + s.sent
    {
      if term > currentTerm {
        return;
      }
      var start := election.HandlePreVoteResponse(from, voteGranted, configManager.members);
      if start {
        StartElection();
      }
    }

    method HandleVoteRequest(from: NodeId, term: Term, candidateId: NodeId, lastLogIndex: LogIndex, lastLogTerm: Term)
      modifies Repr()
      ensures var s := OnVoteRequest(old(View()), from, term, candidateId, lastLogIndex, lastLogTerm);
              View() == s.node && outbox == old(outbox) + s.sent
    {
      var _ := ValidateTermAndStepDown(term);
      var reply;
      currentTerm, reply :=
        election.HandleVoteRequest(term, candidateId, lastLogIndex, lastLogTerm, currentTerm, storage);
      Send(from, reply);
    }

    method HandleVoteResponse(from: NodeId, term: Term, voteGranted: bool)
      modifies Repr()
      ensures var s := OnVoteResponse(old(View()), from, term, voteGranted);
              View() == s.node && outbox == old(outbox) + s.sent
    {
      var steppedDown := ValidateTermAndStepDown(term);
      if steppedDown {
        return;
      }
      var won := election.HandleVoteResponse(from, term, voteGranted, currentTerm, role, configManager.members);
      if won {
        BecomeLeader();
      }
    }

    method HandleElectionTimer()
      modifies Repr()
      ensures var s := OnElectionTimer(old(View()));
              View() == s.node && outbox == old(outbox) + s.sent
    {
      if role != Leader {
        var request := election.StartPreVote(id, currentTerm, storage);
        Broadcast(request);
        if |configManager.members| <= 1 {
          StartElection();
        }
      }
    }

    // --- message_handler/admin.rs ---

    // submit_client_command and submit_config_change, which differ in the entry.
    method Submit(entryType: EntryType) returns (result: Result<LogIndex, ClientError>)
      modifies Repr()
      ensures var s := Nodes.Submit(old(View()), entryType);
              View() == s.step.node && outbox == old(outbox) + s.step.sent && result == s.result
    {
      if role != Leader {
        return Err(ClientError.NotLeader(currentLeader));
      }
      storage.AppendEntries([LogEntry(currentTerm, entryType)]);
      var index := storage.View().LastLogIndex();
      if |configManager.members| <= 1 {
        var changes := replication.AdvanceCommitIndex(storage, stateMachine, configManager.members, id);
        ApplyConfigChanges(changes);
      }
      SendAppendEntriesToFollowers();
      return Ok(index);
    }

    method SubmitTracked(change: Result<ConfigurationChange, ConfigError>)
      returns (result: Result<LogIndex, ConfigError>)
      modifies Repr()
      ensures var s := Nodes.SubmitTracked(old(View()), change);
              View() == s.step.node && outbox == old(outbox) + s.step.sent && result == s.result
    {
      if change.Err? {
        return Err(change.error);
      }
      var submitted := Submit(ConfigChange(change.value));
      if submitted.Err? {
        return Err(ConfigError.NotLeader);
      }
      configManager.TrackPendingChange(submitted.value);
      return Ok(submitted.value);
    }

    method AddServer(node: NodeId) returns (result: Result<LogIndex, ConfigError>)
      modifies Repr()
      ensures var s := Nodes.AddServer(old(View()), node);
              View() == s.step.node && outbox == old(outbox) + s.step.sent && result == s.result
    {
      result := SubmitTracked(ConfigChanges.AddServer(configManager.View(), node, id, role == Leader,
                                                      replication.commitIndex));
    }

    method RemoveServer(node: NodeId) returns (result: Result<LogIndex, ConfigError>)
      modifies Repr()
      ensures var s := Nodes.RemoveServer(old(View()), node);
              View() == s.step.node && outbox == old(outbox) + s.step.sent && result == s.result
    {
      result := SubmitTracked(ConfigChanges.RemoveServer(configManager.View(), node, id, role == Leader,
                                                         replication.commitIndex));
    }

    // --- message_handler.rs and raft_node.rs ---

    method HandleMessage(from: NodeId, msg: Msg)
      modifies Repr()
      ensures var s := OnMessage(old(View()), from, msg);
              View() == s.node && outbox == old(outbox) + s.sent
    {
      match msg {
        case PreVoteRequest(term, _, lastLogIndex, lastLogTerm) =>
          HandlePreVoteRequest(from, term, lastLogIndex, lastLogTerm);
        case PreVoteResponse(term, voteGranted) => HandlePreVoteResponse(from, term, voteGranted);
        case RequestVote(term, candidateId, lastLogIndex, lastLogTerm) =>
          HandleVoteRequest(from, term, candidateId, lastLogIndex, lastLogTerm);
        case RequestVoteResponse(term, voteGranted) => HandleVoteResponse(from, term, voteGranted);
        case AppendEntries(term, prevLogIndex, prevLogTerm, entries, leaderCommit) =>
          HandleAppendEntries(from, term, prevLogIndex, prevLogTerm, entries, leaderCommit);
        case AppendEntriesResponse(term, success, matchIndex) =>
          HandleAppendEntriesResponse(from, term, success, matchIndex);
        case InstallSnapshot(term, _, lastIncludedIndex, lastIncludedTerm, offset, data, done) =>
          HandleInstallSnapshot(from, term, lastIncludedIndex, lastIncludedTerm, offset, data, done);
        case InstallSnapshotResponse(term, success) => HandleInstallSnapshotResponse(from, term, success);
      }
    }

    method OnEvent(event: Event)
      modifies Repr()
      ensures var s := Nodes.OnEvent(old(View()), event);
              View() == s.node && outbox == old(outbox) + s.sent
    {
      match event {
        case TimerFired(ElectionTimer) => HandleElectionTimer();
        case TimerFired(HeartbeatTimer) => HandleHeartbeatTimer();
        case Message(from, msg) => HandleMessage(from, msg);
        case ClientCommand(payload) => var _ := Submit(Command(payload));
        case SubmitChange(change) => var _ := Submit(ConfigChange(change));
      }
    }
  }
}
