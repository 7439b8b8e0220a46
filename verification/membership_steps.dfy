// What one step of a node does to its membership: it applies the configuration
// changes among the entries it commits.
module MembershipSteps {
  import opened Types
  import opened Configurations
  import opened Storage
  import opened Replication
  import opened ConfigChanges
  import opened Nodes
  import opened NodeRuns
  import opened Recovery

  function Resulting(members: seq<NodeId>, c: ConfigurationChange): seq<NodeId> {
    match c
    case AddServer(x) => members + [x]
    case RemoveServer(x) => Configurations.Without(members, x)
  }

  function Altered(members: seq<NodeId>, changes: seq<IndexedChange>): seq<NodeId> {
    if changes == [] then members
    else Resulting(Altered(members, changes[..|changes| - 1]), changes[|changes| - 1].change)
  }

  // A pending change stops being pending when it is applied.
  function Settled(pending: Option<LogIndex>, changes: seq<IndexedChange>): (r: Option<LogIndex>)
    ensures r == pending || (r == None && exists c :: c in changes && pending == Some(c.index))
  {
    if changes == [] then pending
    else
      var p := Settled(pending, changes[..|changes| - 1]);
      if p == Some(changes[|changes| - 1].index) then None else p
  }

  lemma {:induction false} ApplyAlters(s: Changed, self: NodeId, last: LogIndex, changes: seq<IndexedChange>)
    ensures ApplyChanges(s, self, last, changes).config ==
            Config(Altered(s.config.members, changes), Settled(s.config.pendingChange, changes))
  {
    if changes != [] {
      ApplyAlters(s, self, last, changes[..|changes| - 1]);
    }
  }

  lemma CountedChanges(n: Node, from: NodeId, m: Msg)
    requires m.AppendEntriesResponse?
    ensures var a := HandleAppendEntriesResponse(n.repl, from, m.success, m.matchIndex, n.store, n.sm, n.config.members,
                                                 n.id);
            if a.repl.commitIndex > n.repl.commitIndex then
              n.store.GetEntry(a.repl.commitIndex).Some? &&
              a == ApplyCommittedEntries(a.repl.(lastApplied := n.repl.lastApplied), n.store, n.sm)
            else a.repl.commitIndex == n.repl.commitIndex && a.repl.lastApplied == n.repl.lastApplied
  {
  }

  // A step other than a restart or a completed install alters the membership by
  // the changes it applies.
  ghost predicate Follows(n: Node, s: Store, d: Node) {
    && d.repl.lastApplied == Max(n.repl.lastApplied, d.repl.commitIndex)
    && d.config.members == Altered(n.config.members, ChangesIn(s, n.repl.lastApplied, d.repl.commitIndex))
  }

  ghost predicate Settles(n: Node, s: Store, d: Node) {
    d.config.pendingChange ==
    Settled(n.config.pendingChange, ChangesIn(s, n.repl.lastApplied, d.repl.commitIndex))
  }

  lemma StillFollows(n: Node, s: Store, d: Node)
    requires d.config == n.config && d.repl.lastApplied == n.repl.lastApplied
    requires d.repl.commitIndex == n.repl.commitIndex <= n.repl.lastApplied
    ensures Follows(n, s, d) && Settles(n, s, d)
  {
  }

  // What handling a message that is not from a newer term commits and applies.
  lemma AppendOutcomeIs(n: Node, from: NodeId, m: Msg)
    requires m.AppendEntries? && m.term <= n.term && n.repl.commitIndex <= n.repl.lastApplied
    ensures var o := HandleAppendEntries(n.repl, m.term, m.prevLogIndex, m.prevLogTerm, m.entries, m.leaderCommit,
                                         n.term, n.store, n.sm, n.role);
            && o.changes == ChangesIn(LogOf(n, Handle(Message(from, m))), n.repl.lastApplied, o.repl.commitIndex)
            && o.repl.lastApplied == Max(n.repl.lastApplied, o.repl.commitIndex)
  {
  }

  lemma AppendFollows(n: Node, from: NodeId, m: Msg)
    requires m.AppendEntries? && n.repl.commitIndex <= n.repl.lastApplied
    ensures Follows(n, LogOf(n, Handle(Message(from, m))), OnMessage(n, from, m).node)
    ensures Settles(n, LogOf(n, Handle(Message(from, m))), OnMessage(n, from, m).node)
    ensures OnMessage(n, from, m).node.store.snapshot == n.store.snapshot
  {
    if m.term <= n.term {
      AppendOutcomeIs(n, from, m);
      var o := HandleAppendEntries(n.repl, m.term, m.prevLogIndex, m.prevLogTerm, m.entries, m.leaderCommit, n.term,
                                   n.store, n.sm, n.role);
      ChangesKeepIndices(Changed(n.config, o.repl, o.role), n.id, o.store.LastLogIndex(), o.changes);
      ApplyAlters(Changed(n.config, o.repl, o.role), n.id, o.store.LastLogIndex(), o.changes);
    } else {
      StillFollows(n, LogOf(n, Handle(Message(from, m))), OnMessage(n, from, m).node);
    }
  }

  lemma ResponseFollows(n: Node, from: NodeId, m: Msg)
    requires m.AppendEntriesResponse? && n.repl.commitIndex <= n.repl.lastApplied
    ensures Follows(n, n.store, OnMessage(n, from, m).node) && Settles(n, n.store, OnMessage(n, from, m).node)
  {
    if n.role == Leader && m.term == n.term {
      Counted(n, from, m);
      CountedChanges(n, from, m);
      var a := HandleAppendEntriesResponse(n.repl, from, m.success, m.matchIndex, n.store, n.sm, n.config.members,
                                           n.id);
      ChangesKeepIndices(Changed(n.config, a.repl, n.role), n.id, n.store.LastLogIndex(), a.changes);
      ApplyAlters(Changed(n.config, a.repl, n.role), n.id, n.store.LastLogIndex(), a.changes);
    }
  }

  lemma ProposalFollows(n: Node, entryType: EntryType)
    requires n.repl.commitIndex <= n.repl.lastApplied
    ensures Follows(n, Proposed(n, entryType), Submit(n, entryType).step.node)
    ensures Settles(n, Proposed(n, entryType), Submit(n, entryType).step.node)
    ensures Submit(n, entryType).step.node.store.snapshot == n.store.snapshot
  {
    if n.role == Leader {
      var s := Proposed(n, entryType);
      var a := AdvanceCommitIndex(n.repl, s, n.sm, n.config.members, n.id);
      ChangesKeepIndices(Changed(n.config, a.repl, n.role), n.id, s.LastLogIndex(), a.changes);
      ApplyAlters(Changed(n.config, a.repl, n.role), n.id, s.LastLogIndex(), a.changes);
    }
  }

  lemma TrackedFollows(n: Node, change: Result<ConfigurationChange, ConfigError>)
    requires n.repl.commitIndex <= n.repl.lastApplied
    ensures Follows(n, Tracked(n, change), SubmitTracked(n, change).step.node)
    ensures SubmitTracked(n, change).step.node.store.snapshot == n.store.snapshot
  {
    if change.Ok? {
      ProposalFollows(n, ConfigChange(change.value));
    }
  }

  lemma InstallKeepsMembers(n: Node, from: NodeId, m: Msg)
    requires m.InstallSnapshot?
    ensures OnMessage(n, from, m).node.config == n.config
  {
  }

  function SnapshotIndex(s: Store): LogIndex {
    if s.snapshot.Some? then s.snapshot.value.lastIncludedIndex else 0
  }

  lemma StepFollows(n: Node, i: Input)
    requires !Completes(i) && !i.Reboot? && n.repl.commitIndex <= n.repl.lastApplied
    ensures Follows(n, LogOf(n, i), React(n, i).node)
    ensures !i.Add? && !i.Remove? ==> Settles(n, LogOf(n, i), React(n, i).node)
  {
    match i
    case Handle(Message(from, m)) =>
      if m.AppendEntries? {
        AppendFollows(n, from, m);
      } else if m.AppendEntriesResponse? {
        ResponseFollows(n, from, m);
      } else {
        StillFollows(n, n.store, React(n, i).node);
      }
    case Handle(ClientCommand(payload)) => ProposalFollows(n, Command(payload));
    case Handle(SubmitChange(change)) => ProposalFollows(n, ConfigChange(change));
    case Handle(TimerFired(kind)) => StillFollows(n, n.store, React(n, i).node);
    case Add(node) => TrackedFollows(n, Adding(n, node));
    case Remove(node) => TrackedFollows(n, Removing(n, node));
  }

  lemma MessageAdvances(n: Node, from: NodeId, m: Msg)
    requires !m.InstallSnapshot?
    ensures OnMessage(n, from, m).node.store.firstIndex >= n.store.firstIndex
  {
    if m.AppendEntries? {
      AppendWithin(n, from, m);
    }
  }

  lemma WindowAdvances(n: Node, i: Input)
    requires !Completes(i) && !i.Reboot?
    ensures React(n, i).node.store.firstIndex >= n.store.firstIndex
  {
    match i
    case Handle(Message(from, m)) => MessageAdvances(n, from, m);
    case Handle(ClientCommand(payload)) => ProposalWithin(n, Command(payload));
    case Handle(SubmitChange(change)) => ProposalWithin(n, ConfigChange(change));
    case Handle(TimerFired(_)) =>
    case Add(node) => TrackedWithin(n, Adding(n, node));
    case Remove(node) => TrackedWithin(n, Removing(n, node));
  }

  lemma WindowStays(n: Node, i: Input)
    requires !Completes(i)
    ensures LogOf(n, i).firstIndex == n.store.firstIndex
  {
  }
}
