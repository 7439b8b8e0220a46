// One-at-a-time membership changes.
module ConfigChanges {
  import opened Types
  import opened Configurations
  import opened Replication

  datatype ConfigError = NotLeader | ConfigChangeInProgress | NodeAlreadyExists | NodeNotFound | CannotRemoveLastNode

  datatype Config = Config(members: seq<NodeId>, pendingChange: Option<LogIndex>)

  predicate IsChangeCommitted(index: LogIndex, commitIndex: LogIndex) { index <= commitIndex }

  predicate InProgress(c: Config, commitIndex: LogIndex) {
    c.pendingChange.Some? && !IsChangeCommitted(c.pendingChange.value, commitIndex)
  }

  function AddServer(c: Config, node: NodeId, self: NodeId, isLeader: bool, commitIndex: LogIndex)
    : Result<ConfigurationChange, ConfigError>
  {
    if !isLeader then Err(NotLeader)
    else if InProgress(c, commitIndex) then Err(ConfigChangeInProgress)
    else if node == self || node in c.members then Err(NodeAlreadyExists)
    else Ok(ConfigurationChange.AddServer(node))
  }

  function RemoveServer(c: Config, node: NodeId, self: NodeId, isLeader: bool, commitIndex: LogIndex)
    : Result<ConfigurationChange, ConfigError>
  {
    if !isLeader then Err(NotLeader)
    else if InProgress(c, commitIndex) then Err(ConfigChangeInProgress)
    else if |c.members| == 1 then Err(CannotRemoveLastNode)
    else if node != self && node !in c.members then Err(NodeNotFound)
    else Ok(ConfigurationChange.RemoveServer(node))
  }

  datatype Changed = Changed(config: Config, repl: Repl, role: Role)

  function ApplyChange(s: Changed, self: NodeId, lastLogIndex: LogIndex, c: IndexedChange): Changed {
    var s1 :=
      match c.change
      case AddServer(node) =>
        Changed(s.config.(members := s.config.members + [node]),
                if s.role == Leader then
                  s.repl.(nextIndex := s.repl.nextIndex[node := lastLogIndex + 1],
                          matchIndex := s.repl.matchIndex[node := 0],
                          catchingUp := s.repl.catchingUp[node := 1])
                else s.repl,
                s.role)
      case RemoveServer(node) =>
        Changed(s.config.(members := Without(s.config.members, node)),
                if s.role == Leader then
                  s.repl.(nextIndex := s.repl.nextIndex - {node}, matchIndex := s.repl.matchIndex - {node})
                else s.repl,
                if node == self then Follower else s.role);
    if s1.config.pendingChange == Some(c.index) then s1.(config := s1.config.(pendingChange := None)) else s1
  }

  function ApplyChanges(s: Changed, self: NodeId, lastLogIndex: LogIndex, changes: seq<IndexedChange>): Changed {
    if changes == [] then s
    else ApplyChange(ApplyChanges(s, self, lastLogIndex, changes[..|changes| - 1]), self, lastLogIndex,
                     changes[|changes| - 1])
  }
}
