// ConfigChangeManager and SnapshotManager: membership and snapshots in place.
module ConfigChangeManagers {
  import opened Types
  import opened Configurations
  import opened ConfigChanges
  import opened ReplicationManagers

  class ConfigChangeManager {
    var members: seq<NodeId>
    var pendingChange: Option<LogIndex>

    function View(): Config
      reads this
    {
      Config(members, pendingChange)
    }

    constructor (members: seq<NodeId>)
      ensures View() == Config(members, None)
    {
      this.members := members;
      pendingChange := None;
    }

    method TrackPendingChange(index: LogIndex)
      modifies this
      ensures View() == old(View()).(pendingChange := Some(index))
    {
      pendingChange := Some(index);
    }

    method Remove(node: NodeId)
      modifies this
      ensures View() == old(View()).(members := Without(old(members), node))
    {
      var newMembers := [];
      for i := 0 to |members|
        invariant newMembers == Without(members[..i], node)
        invariant members == old(members) && pendingChange == old(pendingChange)
      {
        assert members[..i + 1][..i] == members[..i];
        if members[i] != node {
          newMembers := newMembers + [members[i]];
        }
      }
      assert members[..|members|] == members;
      members := newMembers;
    }

    method ApplyChange(change: IndexedChange, self: NodeId, lastLogIndex: LogIndex, replication: LogReplicationManager,
                       role: Role)
      returns (newRole: Role)
      modifies this, replication
      ensures Changed(View(), replication.View(), newRole) ==
              ConfigChanges.ApplyChange(Changed(old(View()), old(replication.View()), role), self, lastLogIndex, change)
    {
      newRole := role;
      match change.change {
        case AddServer(node) =>
          members := members + [node];
          if role == Leader {
            replication.nextIndex := replication.nextIndex[node := lastLogIndex + 1];
            replication.matchIndex := replication.matchIndex[node := 0];
            replication.MarkServerCatchingUp(node);
          }
        case RemoveServer(node) =>
          Remove(node);
          if role == Leader {
            replication.nextIndex := replication.nextIndex - {node};
            replication.matchIndex := replication.matchIndex - {node};
          }
          if node == self {
            newRole := Follower;
          }
      }
      if pendingChange == Some(change.index) {
        pendingChange := None;
      }
    }

    // One committed change after the other.
    method ApplyChanges(changes: seq<IndexedChange>, self: NodeId, lastLogIndex: LogIndex,
                        replication: LogReplicationManager, role: Role)
      returns (newRole: Role)
      modifies this, replication
      ensures Changed(View(), replication.View(), newRole) ==
              ConfigChanges.ApplyChanges(Changed(old(View()), old(replication.View()), role), self, lastLogIndex,
                                         changes)
    {
      newRole := role;
      for i := 0 to |changes|
        invariant Changed(View(), replication.View(), newRole) ==
                  ConfigChanges.ApplyChanges(Changed(old(View()), old(replication.View()), role), self, lastLogIndex,
                                             changes[..i])
      {
        assert changes[..i + 1][..i] == changes[..i];
        newRole := ApplyChange(changes[i], self, lastLogIndex, replication, newRole);
      }
      assert changes[..|changes|] == changes;
    }
  }
}

module SnapshotManagers {
  import opened Types
  import opened StateMachines
  import opened Storage
  import opened Snapshots
  import opened ReplicationManagers

  class SnapshotManager {
    const threshold: LogIndex

    constructor (threshold: LogIndex)
      ensures this.threshold == threshold
    {
      this.threshold := threshold;
    }

    method Create(storage: InMemoryStorage, stateMachine: InMemoryStateMachine, lastApplied: LogIndex, codec: Codec)
      returns (result: Result<LogIndex, SnapshotError>)
      modifies storage
      ensures var r := Snapshots.Create(old(storage.View()), stateMachine.data, lastApplied, codec);
              if r.Ok? then result == Ok(lastApplied) && storage.View() == r.value
              else result == Err(r.error) && storage.View() == old(storage.View())
    {
      if lastApplied == 0 {
        return Err(NoEntriesToSnapshot);
      }
      var entry := storage.View().GetEntry(lastApplied);
      if entry.None? {
        return Err(EntryNotFound);
      }
      storage.SaveSnapshot(Snapshot(lastApplied, entry.value.term, codec.encode(stateMachine.data)));
      storage.DiscardEntriesBefore(lastApplied + 1);
      result := Ok(lastApplied);
    }
  }
}
