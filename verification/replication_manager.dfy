// LogReplicationManager: the leader's and the follower's half of replication,
// with its indices, the storage and the state machine changed in place.
module ReplicationManagers {
  import opened Types
  import opened Text
  import opened StateMachines
  import opened Storage
  import opened Medians
  import opened Replication

  // InMemoryStateMachine with its map changed in place.
  class InMemoryStateMachine {
    var data: KV

    constructor ()
      ensures data == map[]
    {
      data := map[];
    }

    // "SET key=value" stores the value under the key, split at the first '=', and
    // touches no other key; any other payload changes nothing.
    method Apply(payload: string)
      modifies this
      ensures forall key: string, value: string ::
                '=' !in key && payload == "SET " + key + "=" + value ==> data == old(data)[key := value]
      ensures !("SET " <= payload && '=' in payload[4..]) ==> data == old(data)
      ensures data == ApplyCommand(old(data), payload)
    {
      if "SET " <= payload {
        var command := payload[4..];
        match SplitOnce(command, '=') {
          case None =>
          case Some((key, value)) => data := data[key := value];
        }
      }
      forall key: string, value: string | '=' !in key && payload == "SET " + key + "=" + value
        ensures data == old(data)[key := value]
      {
        assert payload[4..] == key + ['='] + value;
        SplitJoined(key, '=', value);
      }
    }

    method RestoreFromSnapshot(codec: Codec, bytes: Bytes)
      modifies this
      ensures codec.decode(bytes).None? ==> data == old(data)
      ensures codec.decode(bytes).Some? ==> data == codec.decode(bytes).value
      ensures data == Restore(codec, old(data), bytes)
    {
      match codec.decode(bytes) {
        case None =>
        case Some(restored) => data := restored;
      }
    }
  }

  class LogReplicationManager {
    var nextIndex: map<NodeId, LogIndex>
    var matchIndex: map<NodeId, LogIndex>
    var commitIndex: LogIndex
    var lastApplied: LogIndex
    var catchingUp: map<NodeId, LogIndex>

    function View(): Repl
      reads this
    {
      Repl(nextIndex, matchIndex, commitIndex, lastApplied, catchingUp)
    }

    constructor ()
      ensures View() == EMPTY_REPL
    {
      nextIndex := map[];
      matchIndex := map[];
      commitIndex := 0;
      lastApplied := 0;
      catchingUp := map[];
    }

    method SetLastApplied(index: LogIndex)
      modifies this
      ensures View() == old(View()).(lastApplied := index)
    {
      lastApplied := index;
    }

    method InitializeLeaderState(peers: seq<NodeId>, storage: InMemoryStorage)
      modifies this
      ensures View() == Replication.InitializeLeaderState(old(View()), peers, storage.View())
    {
      var nextLogIndex := storage.View().LastLogIndex() + 1;
      for i := 0 to |peers|
        invariant nextIndex == InsertAll(old(nextIndex), peers[..i], nextLogIndex)
        invariant matchIndex == InsertAll(old(matchIndex), peers[..i], 0)
        invariant View() == old(View()).(nextIndex := nextIndex, matchIndex := matchIndex)
      {
        assert peers[..i + 1][..i] == peers[..i];
        nextIndex := nextIndex[peers[i] := nextLogIndex];
        matchIndex := matchIndex[peers[i] := 0];
      }
      assert peers[..|peers|] == peers;
    }

    // Applies everything newly committed, one entry at a time, and hands the
    // configuration changes among it to the caller.
    method ApplyCommittedEntries(storage: InMemoryStorage, stateMachine: InMemoryStateMachine)
      returns (changes: seq<IndexedChange>)
      modifies this, stateMachine
      ensures Applied(View(), stateMachine.data, changes) ==
              Replication.ApplyCommittedEntries(old(View()), storage.View(), old(stateMachine.data))
    {
      changes := [];
      while lastApplied < commitIndex
        invariant View() == old(View()).(lastApplied := lastApplied)
        invariant old(lastApplied) <= lastApplied <= Max(old(lastApplied), commitIndex)
        invariant stateMachine.data == ApplyRange(old(stateMachine.data), storage.View(), old(lastApplied), lastApplied)
        invariant changes == ChangesIn(storage.View(), old(lastApplied), lastApplied)
      {
        lastApplied := lastApplied + 1;
        match storage.View().GetEntry(lastApplied) {
          case None =>
          case Some(LogEntry(_, Command(payload))) => stateMachine.Apply(payload);
          case Some(LogEntry(_, ConfigChange(change))) => changes := changes + [IndexedChange(lastApplied, change)];
        }
      }
      assert ApplyRange(old(stateMachine.data), storage.View(), old(lastApplied), commitIndex) == stateMachine.data;
    }

    method TryAppendEntries(prevLogIndex: LogIndex, prevLogTerm: Term, entries: Log, leaderCommit: LogIndex,
                            storage: InMemoryStorage, stateMachine: InMemoryStateMachine)
      returns (ok: bool, changes: seq<IndexedChange>)
      modifies this, storage, stateMachine
      ensures Appended(ok, View(), storage.View(), stateMachine.data, changes) ==
              Replication.TryAppendEntries(old(View()), prevLogIndex, prevLogTerm, entries, leaderCommit,
                                           old(storage.View()), old(stateMachine.data))
    {
      if !CheckLogConsistency(storage.View(), prevLogIndex, prevLogTerm) {
        return false, [];
      }
      if entries != [] {
        if storage.View().LastLogIndex() > prevLogIndex {
          storage.TruncateAfter(prevLogIndex);
        }
        storage.AppendEntries(entries);
      }
      if leaderCommit > commitIndex {
        commitIndex := Min(leaderCommit, storage.View().LastLogIndex());
        changes := ApplyCommittedEntries(storage, stateMachine);
        return true, changes;
      }
      return true, [];
    }

    method HandleAppendEntries(term: Term, prevLogIndex: LogIndex, prevLogTerm: Term, entries: Log,
                               leaderCommit: LogIndex, currentTerm: Term, storage: InMemoryStorage,
                               stateMachine: InMemoryStateMachine, role: Role)
      returns (newTerm: Term, newRole: Role, reply: Msg, changes: seq<IndexedChange>)
      modifies this, storage, stateMachine
      ensures AppendOutcome(View(), storage.View(), stateMachine.data, newRole, newTerm, reply, changes) ==
              Replication.HandleAppendEntries(old(View()), term, prevLogIndex, prevLogTerm, entries, leaderCommit,
                                              currentTerm, old(storage.View()), old(stateMachine.data), role)
    {
      newTerm, newRole := currentTerm, role;
      if term > currentTerm {
        newTerm := term;
        storage.SetCurrentTerm(term);
        newRole := Follower;
        storage.SetVotedFor(None);
      } else if term == currentTerm && role == Candidate {
        newRole := Follower;
      }
      var success := false;
      changes := [];
      if term >= newTerm {
        success, changes := TryAppendEntries(prevLogIndex, prevLogTerm, entries, leaderCommit, storage, stateMachine);
      }
      reply := AppendEntriesResponse(newTerm, success, storage.View().LastLogIndex());
    }

    method AdvanceCommitIndex(storage: InMemoryStorage, stateMachine: InMemoryStateMachine, members: seq<NodeId>,
                              leaderId: NodeId)
      returns (changes: seq<IndexedChange>)
      modifies this, stateMachine
      ensures Applied(View(), stateMachine.data, changes) ==
              Replication.AdvanceCommitIndex(old(View()), storage.View(), old(stateMachine.data), members, leaderId)
    {
      var newCommit := CommitMedian(matchIndex, storage.View().LastLogIndex(), members, catchingUp, leaderId);
      if newCommit > commitIndex {
        var entry := storage.View().GetEntry(newCommit);
        if entry.Some? && entry.value.term == storage.currentTerm {
          commitIndex := newCommit;
          changes := ApplyCommittedEntries(storage, stateMachine);
          return;
        }
      }
      changes := [];
    }

    method CheckAndPromoteCaughtUpServer(node: NodeId)
      modifies this
      ensures View() == PromoteCaughtUp(old(View()), node)
    {
      if node in catchingUp {
        if Lookup(matchIndex, node, 0) >= commitIndex {
          catchingUp := catchingUp - {node};
        }
      }
    }

    method HandleAppendEntriesResponse(from: NodeId, success: bool, reported: LogIndex, storage: InMemoryStorage,
                                       stateMachine: InMemoryStateMachine, members: seq<NodeId>, leaderId: NodeId)
      returns (changes: seq<IndexedChange>)
      modifies this, stateMachine
      ensures Applied(View(), stateMachine.data, changes) ==
              Replication.HandleAppendEntriesResponse(old(View()), from, success, reported, storage.View(),
                                                      old(stateMachine.data), members, leaderId)
    {
      changes := [];
      if success {
        if reported > Lookup(matchIndex, from, 0) {
          matchIndex := matchIndex[from := reported];
          nextIndex := nextIndex[from := reported + 1];
          CheckAndPromoteCaughtUpServer(from);
          changes := AdvanceCommitIndex(storage, stateMachine, members, leaderId);
        }
      } else {
        var next := Lookup(nextIndex, from, 1);
        if next > 1 {
          nextIndex := nextIndex[from := next - 1];
        }
      }
    }

    // One chunk; the last one installs the snapshot.
    method TakeChunk(lastIncludedIndex: LogIndex, lastIncludedTerm: Term, offset: nat, data: Bytes, done: bool,
                     storage: InMemoryStorage, stateMachine: InMemoryStateMachine, codec: Codec)
      returns (ok: bool)
      modifies this, storage, stateMachine
      ensures var (s, accepted) := old(storage.View()).ApplySnapshotChunk(offset, data, done, lastIncludedIndex,
                                                                          lastIncludedTerm);
              && ok == accepted
              && if ok && done && s.snapshot.Some? then
                   && storage.View() == s.DiscardEntriesBefore(lastIncludedIndex + 1)
                   && stateMachine.data == Restore(codec, old(stateMachine.data), s.snapshot.value.data)
                   && View() == old(View()).(commitIndex := Max(old(commitIndex), lastIncludedIndex),
                                             lastApplied := Max(old(lastApplied), lastIncludedIndex))
                 else storage.View() == s && stateMachine.data == old(stateMachine.data) && View() == old(View())
    {
      ok := storage.ApplySnapshotChunk(offset, data, done, lastIncludedIndex, lastIncludedTerm);
      if ok && done && storage.snapshot.Some? {
        stateMachine.RestoreFromSnapshot(codec, storage.snapshot.value.data);
        storage.DiscardEntriesBefore(lastIncludedIndex + 1);
        commitIndex := Max(commitIndex, lastIncludedIndex);
        lastApplied := Max(lastApplied, lastIncludedIndex);
      }
    }

    method HandleInstallSnapshot(term: Term, lastIncludedIndex: LogIndex, lastIncludedTerm: Term, offset: nat,
                                 data: Bytes, done: bool, currentTerm: Term, storage: InMemoryStorage,
                                 stateMachine: InMemoryStateMachine, role: Role, codec: Codec)
      returns (newTerm: Term, newRole: Role, reply: Msg)
      modifies this, storage, stateMachine
      ensures SnapshotOutcome(View(), storage.View(), stateMachine.data, newRole, newTerm, reply) ==
              Replication.HandleInstallSnapshot(old(View()), term, lastIncludedIndex, lastIncludedTerm, offset, data,
                                                done, currentTerm, old(storage.View()), old(stateMachine.data), role,
                                                codec)
    {
      newTerm, newRole := currentTerm, role;
      if term < currentTerm {
        reply := InstallSnapshotResponse(currentTerm, false);
        return;
      }
      if term > currentTerm {
        newTerm := term;
        storage.SetCurrentTerm(term);
        storage.SetVotedFor(None);
        newRole := Follower;
      } else if role == Candidate {
        newRole := Follower;
      }
      if storage.snapshot.Some? && lastIncludedIndex <= storage.snapshot.value.lastIncludedIndex {
        reply := InstallSnapshotResponse(newTerm, false);
        return;
      }
      var ok := TakeChunk(lastIncludedIndex, lastIncludedTerm, offset, data, done, storage, stateMachine, codec);
      reply := InstallSnapshotResponse(newTerm, ok);
    }

    method HandleInstallSnapshotResponse(peer: NodeId, success: bool, lastIncludedIndex: LogIndex)
      modifies this
      ensures View() == Replication.HandleInstallSnapshotResponse(old(View()), peer, success, lastIncludedIndex)
    {
      if success {
        nextIndex := nextIndex[peer := lastIncludedIndex + 1];
        matchIndex := matchIndex[peer := lastIncludedIndex];
        CheckAndPromoteCaughtUpServer(peer);
      }
    }

    method MarkServerCatchingUp(node: NodeId)
      modifies this
      ensures View() == old(View()).(catchingUp := old(catchingUp)[node := 1])
    {
      catchingUp := catchingUp[node := 1];
    }
  }
}
