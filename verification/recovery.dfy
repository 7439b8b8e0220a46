// Recovery: a node's state machine is always the fold of the committed history
// up to lastApplied, whatever mix of applying, snapshotting, snapshot installs
// and crash-restarts brought it there.
module Recovery {
  import opened Types
  import opened Text
  import opened Elections
  import opened StateMachines
  import opened Storage
  import opened Replication
  import opened ConfigChanges
  import opened Snapshots
  import opened Nodes
  import opened NodeRuns

  // Every entry held at or below an index is the history's.
  ghost predicate Agrees(s: Store, upTo: LogIndex, history: Log) {
    upTo <= |history| && forall i :: s.firstIndex <= i <= upTo && s.GetEntry(i).Some? && i > 0 ==>
      s.GetEntry(i).value == history[i - 1]
  }

  predicate Consistent(n: Node, m: Msg)
    requires m.AppendEntries?
  {
    m.term == n.term && CheckLogConsistency(n.store, m.prevLogIndex, m.prevLogTerm)
  }

  // The chunk completes a snapshot that the node then installs.
  predicate Installs(n: Node, m: Msg)
    requires m.InstallSnapshot?
  {
    m.done && m.term >= n.term &&
    (n.store.snapshot.Some? ==> m.lastIncludedIndex > n.store.snapshot.value.lastIncludedIndex) &&
    (m.offset == 0 || m.offset == |n.store.pending|)
  }

  function Assembled(n: Node, m: Msg): Bytes
    requires m.InstallSnapshot?
  {
    (if m.offset == 0 then [] else n.store.pending) + m.data
  }

  // The log a step commits from: what it has written, before any compaction.
  function LogOf(n: Node, i: Input): Store {
    match i
    case Handle(Message(_, AppendEntries(term, prev, prevTerm, entries, _))) =>
      if term == n.term && CheckLogConsistency(n.store, prev, prevTerm) then WriteEntries(n.store, prev, entries)
      else n.store
    case Handle(ClientCommand(payload)) => Proposed(n, Command(payload))
    case Handle(SubmitChange(change)) => Proposed(n, ConfigChange(change))
    case Add(node) => Tracked(n, Adding(n, node))
    case Remove(node) => Tracked(n, Removing(n, node))
    case _ => n.store
  }

  function Adding(n: Node, node: NodeId): Result<ConfigurationChange, ConfigError> {
    ConfigChanges.AddServer(n.config, node, n.id, n.role == Leader, n.repl.commitIndex)
  }

  function Removing(n: Node, node: NodeId): Result<ConfigurationChange, ConfigError> {
    ConfigChanges.RemoveServer(n.config, node, n.id, n.role == Leader, n.repl.commitIndex)
  }

  function Tracked(n: Node, change: Result<ConfigurationChange, ConfigError>): Store {
    if change.Ok? then Proposed(n, ConfigChange(change.value)) else n.store
  }

  function Proposed(n: Node, entryType: EntryType): Store {
    if n.role == Leader then n.store.Append([LogEntry(n.term, entryType)]) else n.store
  }

  // What recovery asks of an input: the entries it commits are the history's,
  // new entries start inside the log window and do not cut into what is
  // committed, and a snapshot that completes is the fold of a prefix of the
  // history no shorter than what is applied.
  ghost predicate Sound(n: Node, i: Input, history: Log) {
    if i.Handle? && i.event.Message? && i.event.msg.InstallSnapshot? then
      var m := i.event.msg;
      Installs(n, m) ==>
        n.repl.lastApplied <= m.lastIncludedIndex <= |history| &&
        n.codec.decode(Assembled(n, m)) == Some(Fold(history[..m.lastIncludedIndex]))
    else
      && (i.Handle? && i.event.Message? && i.event.msg.AppendEntries? ==>
            var m := i.event.msg;
            Consistent(n, m) && m.entries != [] ==>
              m.prevLogIndex + 1 >= n.store.firstIndex && m.prevLogIndex + |m.entries| >= n.repl.commitIndex)
      && Agrees(LogOf(n, i), React(n, i).node.repl.commitIndex, history)
  }

  // The entries a step applies are all there.
  ghost predicate NothingSkipped(n: Node, i: Input) {
    !(i.Handle? && i.event.Message? && i.event.msg.InstallSnapshot?) ==>
      forall k :: n.repl.lastApplied < k <= React(n, i).node.repl.commitIndex ==> LogOf(n, i).GetEntry(k).Some?
  }

  ghost predicate WindowOk(s: Store, history: Log, codec: Codec) {
    match s.snapshot
    case None => s.firstIndex == 1
    case Some(snap) =>
      && s.firstIndex == snap.lastIncludedIndex + 1
      && snap.lastIncludedIndex <= |history|
      && codec.decode(snap.data) == Some(Fold(history[..snap.lastIncludedIndex]))
  }

  ghost predicate Recoverable(n: Node, history: Log) {
    && WindowOk(n.store, history, n.codec)
    && n.repl.commitIndex <= n.repl.lastApplied <= |history|
    && n.sm == Fold(history[..n.repl.lastApplied])
    && n.store.firstIndex - 1 <= n.repl.lastApplied
    && (n.repl.lastApplied == n.repl.commitIndex || n.repl.lastApplied == n.store.firstIndex - 1)
    && n.repl.commitIndex <= n.store.LastLogIndex()
  }

  lemma {:induction false} ApplyFolds(s: Store, a: LogIndex, b: LogIndex, m: KV, history: Log)
    requires b <= |history| && Agrees(s, b, history)
    requires s.firstIndex >= 1 && s.firstIndex - 1 <= a && (a < b ==> b <= s.LastLogIndex())
    requires a <= |history| && m == Fold(history[..a])
    ensures ApplyRange(m, s, a, b) == Fold(history[..Max(a, b)])
    ensures forall k :: a < k <= b ==> s.GetEntry(k).Some?
    decreases b
  {
    if a < b {
      ApplyFolds(s, a, b - 1, m, history);
      assert history[..b][..b - 1] == history[..b - 1];
      assert s.GetEntry(b).Some? && s.GetEntry(b).value == history[b - 1];
    }
  }

  lemma {:induction false} ChangesKeepIndices(s: Changed, self: NodeId, last: LogIndex, changes: seq<IndexedChange>)
    ensures var t := ApplyChanges(s, self, last, changes);
            t.repl.commitIndex == s.repl.commitIndex && t.repl.lastApplied == s.repl.lastApplied
  {
    if changes != [] {
      ChangesKeepIndices(s, self, last, changes[..|changes| - 1]);
    }
  }

  // Advancing the commit index over a log that agrees with the history keeps a
  // node recoverable.
  lemma CommitTo(n: Node, s: Store, commit: LogIndex, history: Log)
    requires Recoverable(n, history) && WindowOk(s, history, n.codec) && s.firstIndex == n.store.firstIndex
    requires n.repl.commitIndex <= commit <= s.LastLogIndex() && Agrees(s, commit, history)
    ensures var a := ApplyCommittedEntries(n.repl.(commitIndex := commit), s, n.sm);
            Recoverable(n.(store := s, repl := a.repl, sm := a.sm), history)
    ensures forall k :: n.repl.lastApplied < k <= commit ==> s.GetEntry(k).Some?
  {
    ApplyFolds(s, n.repl.lastApplied, commit, n.sm, history);
  }

  lemma WrittenWindow(n: Node, m: Msg, history: Log)
    requires Recoverable(n, history) && m.AppendEntries? && Consistent(n, m)
    requires m.entries != [] ==>
               m.prevLogIndex + 1 >= n.store.firstIndex && m.prevLogIndex + |m.entries| >= n.repl.commitIndex
    ensures var s := WriteEntries(n.store, m.prevLogIndex, m.entries);
            s.firstIndex == n.store.firstIndex && s.snapshot == n.store.snapshot && s.pending == n.store.pending &&
            s.LastLogIndex() >= n.repl.commitIndex
  {
  }

  lemma AppendRecovers(n: Node, from: NodeId, m: Msg, history: Log)
    requires Recoverable(n, history) && m.AppendEntries? && Sound(n, Handle(Message(from, m)), history)
    ensures Recoverable(OnMessage(n, from, m).node, history)
    ensures NothingSkipped(n, Handle(Message(from, m)))
  {
    var i := Handle(Message(from, m));
    if m.term <= n.term {
      var o := HandleAppendEntries(n.repl, m.term, m.prevLogIndex, m.prevLogTerm, m.entries, m.leaderCommit, n.term,
                                   n.store, n.sm, n.role);
      ChangesKeepIndices(Changed(n.config, o.repl, o.role), n.id, o.store.LastLogIndex(), o.changes);
      if Consistent(n, m) {
        WrittenWindow(n, m, history);
        var s := WriteEntries(n.store, m.prevLogIndex, m.entries);
        assert LogOf(n, i) == s;
        if m.leaderCommit > n.repl.commitIndex {
          CommitTo(n, s, Min(m.leaderCommit, s.LastLogIndex()), history);
        }
      }
    }
  }

  lemma CreateRecovers(n: Node, history: Log)
    requires Recoverable(n, history) && n.codec.Faithful()
    requires n.repl.lastApplied == n.repl.commitIndex && n.store.GetEntry(n.repl.commitIndex).Some?
    ensures Recoverable(TakeSnapshot(n), history)
  {
    assert n.codec.decode(n.codec.encode(n.sm)) == Some(n.sm);
  }

  lemma ResponseRecovers(n: Node, from: NodeId, m: Msg, history: Log)
    requires Recoverable(n, history) && n.codec.Faithful()
    requires m.AppendEntriesResponse? && Sound(n, Handle(Message(from, m)), history)
    ensures Recoverable(OnMessage(n, from, m).node, history)
    ensures NothingSkipped(n, Handle(Message(from, m)))
  {
    if n.role == Leader && m.term == n.term {
      Counted(n, from, m);
      var a := HandleAppendEntriesResponse(n.repl, from, m.success, m.matchIndex, n.store, n.sm, n.config.members,
                                           n.id);
      var n1 := n.(repl := a.repl, sm := a.sm);
      var n2 := ApplyConfigChanges(n1, a.changes);
      ChangesKeepIndices(Changed(n.config, a.repl, n.role), n.id, n.store.LastLogIndex(), a.changes);
      if a.repl.commitIndex > n.repl.commitIndex {
        CommitTo(n, n.store, a.repl.commitIndex, history);
        if ShouldCreate(n2.threshold, n2.repl.commitIndex, n2.store) {
          CreateRecovers(n2, history);
        }
      }
    }
  }

  // What a response does to the leader's indices: nothing, or it commits up to
  // an entry of its log and applies from there.
  lemma Counted(n: Node, from: NodeId, m: Msg)
    requires m.AppendEntriesResponse?
    ensures var a := HandleAppendEntriesResponse(n.repl, from, m.success, m.matchIndex, n.store, n.sm, n.config.members,
                                                 n.id);
            if a.repl.commitIndex > n.repl.commitIndex then
              n.store.GetEntry(a.repl.commitIndex).Some? &&
              var b := ApplyCommittedEntries(n.repl.(commitIndex := a.repl.commitIndex), n.store, n.sm);
              a.repl.lastApplied == b.repl.lastApplied && a.sm == b.sm
            else a.repl.commitIndex == n.repl.commitIndex && a.repl.lastApplied == n.repl.lastApplied && a.sm == n.sm
  {
  }

  lemma DiscardedWindow(s: Store, index: LogIndex)
    requires 1 <= s.firstIndex <= index + 1
    ensures var d := s.DiscardEntriesBefore(index + 1);
            d.firstIndex == index + 1 && d.LastLogIndex() == Max(s.LastLogIndex(), index)
  {
  }

  // What a completed install leaves of a node.
  ghost predicate AfterInstall(n: Node, m: Msg, d: Node)
    requires m.InstallSnapshot?
  {
    && d.codec == n.codec
    && d.store.snapshot == Some(Snapshot(m.lastIncludedIndex, m.lastIncludedTerm, Assembled(n, m)))
    && d.store.firstIndex == n.store.DiscardEntriesBefore(m.lastIncludedIndex + 1).firstIndex
    && d.store.log == n.store.DiscardEntriesBefore(m.lastIncludedIndex + 1).log
    && d.sm == Restore(n.codec, n.sm, Assembled(n, m))
    && d.repl.commitIndex == Max(n.repl.commitIndex, m.lastIncludedIndex)
    && d.repl.lastApplied == Max(n.repl.lastApplied, m.lastIncludedIndex)
  }

  lemma Installed(n: Node, from: NodeId, m: Msg)
    requires m.InstallSnapshot? && Installs(n, m)
    ensures AfterInstall(n, m, OnMessage(n, from, m).node)
  {
  }

  lemma NotInstalled(n: Node, from: NodeId, m: Msg)
    requires m.InstallSnapshot? && !Installs(n, m)
    ensures var d := OnMessage(n, from, m).node;
            && d.codec == n.codec && d.sm == n.sm && d.repl == n.repl
            && d.store.snapshot == n.store.snapshot && d.store.firstIndex == n.store.firstIndex
            && d.store.log == n.store.log
  {
  }

  lemma InstallRecovers(n: Node, from: NodeId, m: Msg, history: Log)
    requires Recoverable(n, history) && m.InstallSnapshot? && Sound(n, Handle(Message(from, m)), history)
    ensures Recoverable(OnMessage(n, from, m).node, history)
  {
    var d := OnMessage(n, from, m).node;
    if Installs(n, m) {
      Installed(n, from, m);
      InstalledRecovers(n, d, m, history);
    } else {
      NotInstalled(n, from, m);
      SameRecovers(n, d, history);
    }
  }

  lemma InstalledRecovers(n: Node, d: Node, m: Msg, history: Log)
    requires Recoverable(n, history) && m.InstallSnapshot? && Installs(n, m) && AfterInstall(n, m, d)
    requires n.repl.lastApplied <= m.lastIncludedIndex <= |history|
    requires n.codec.decode(Assembled(n, m)) == Some(Fold(history[..m.lastIncludedIndex]))
    ensures Recoverable(d, history)
  {
    DiscardedWindow(n.store, m.lastIncludedIndex);
  }

  lemma SameRecovers(n: Node, d: Node, history: Log)
    requires Recoverable(n, history)
    requires d.codec == n.codec && d.sm == n.sm
    requires d.repl.commitIndex == n.repl.commitIndex && d.repl.lastApplied == n.repl.lastApplied
    requires d.store.snapshot == n.store.snapshot && d.store.firstIndex == n.store.firstIndex
    requires d.store.log == n.store.log
    ensures Recoverable(d, history)
  {
  }

  lemma ProposalRecovers(n: Node, entryType: EntryType, history: Log)
    requires Recoverable(n, history)
    requires Agrees(Proposed(n, entryType), Submit(n, entryType).step.node.repl.commitIndex, history)
    ensures Recoverable(Submit(n, entryType).step.node, history)
    ensures forall k :: n.repl.lastApplied < k <= Submit(n, entryType).step.node.repl.commitIndex ==>
              Proposed(n, entryType).GetEntry(k).Some?
  {
    if n.role == Leader {
      var s := Proposed(n, entryType);
      var a := AdvanceCommitIndex(n.repl, s, n.sm, n.config.members, n.id);
      ChangesKeepIndices(Changed(n.config, a.repl, n.role), n.id, s.LastLogIndex(), a.changes);
      if |n.config.members| <= 1 && a.repl.commitIndex > n.repl.commitIndex {
        CommitTo(n, s, a.repl.commitIndex, history);
      }
    }
  }

  lemma TrackedRecovers(n: Node, change: Result<ConfigurationChange, ConfigError>, history: Log)
    requires Recoverable(n, history)
    requires Agrees(Tracked(n, change), SubmitTracked(n, change).step.node.repl.commitIndex, history)
    ensures Recoverable(SubmitTracked(n, change).step.node, history)
    ensures forall k :: n.repl.lastApplied < k <= SubmitTracked(n, change).step.node.repl.commitIndex ==>
              Tracked(n, change).GetEntry(k).Some?
  {
    if change.Ok? {
      ProposalRecovers(n, ConfigChange(change.value), history);
      SameRecovers(Submit(n, ConfigChange(change.value)).step.node, SubmitTracked(n, change).step.node, history);
    }
  }

  // Messages about elections and snapshot acknowledgements leave log, snapshot
  // and state machine alone.
  lemma OtherMessages(n: Node, from: NodeId, m: Msg, history: Log)
    requires Recoverable(n, history)
    requires !m.AppendEntries? && !m.AppendEntriesResponse? && !m.InstallSnapshot?
    ensures Recoverable(OnMessage(n, from, m).node, history)
    ensures OnMessage(n, from, m).node.repl.commitIndex == n.repl.commitIndex
  {
    SameRecovers(n, OnMessage(n, from, m).node, history);
  }

  lemma MessageRecovers(n: Node, from: NodeId, m: Msg, history: Log)
    requires Recoverable(n, history) && n.codec.Faithful() && Sound(n, Handle(Message(from, m)), history)
    ensures Recoverable(OnMessage(n, from, m).node, history) && NothingSkipped(n, Handle(Message(from, m)))
  {
    if m.AppendEntries? {
      AppendRecovers(n, from, m, history);
    } else if m.AppendEntriesResponse? {
      ResponseRecovers(n, from, m, history);
    } else if m.InstallSnapshot? {
      InstallRecovers(n, from, m, history);
    } else {
      OtherMessages(n, from, m, history);
    }
  }

  lemma TimerRecovers(n: Node, kind: TimerKind, history: Log)
    requires Recoverable(n, history)
    ensures Recoverable(OnEvent(n, TimerFired(kind)).node, history)
    ensures OnEvent(n, TimerFired(kind)).node.repl.commitIndex == n.repl.commitIndex
  {
    SameRecovers(n, OnEvent(n, TimerFired(kind)).node, history);
  }

  lemma RebootRecovers(n: Node, peers: seq<NodeId>, history: Log)
    requires Recoverable(n, history)
    ensures Recoverable(React(n, Reboot(peers)).node, history)
    ensures React(n, Reboot(peers)).node.repl.commitIndex == 0
  {
  }

  lemma StepRecovers(n: Node, i: Input, d: Node, history: Log)
    requires Recoverable(n, history) && n.codec.Faithful() && Sound(n, i, history) && d == React(n, i).node
    ensures Recoverable(d, history) && NothingSkipped(n, i)
  {
    match i
    case Handle(Message(from, m)) => MessageRecovers(n, from, m, history);
    case Handle(ClientCommand(payload)) => ProposalRecovers(n, Command(payload), history);
    case Handle(SubmitChange(change)) => ProposalRecovers(n, ConfigChange(change), history);
    case Handle(TimerFired(kind)) => TimerRecovers(n, kind, history);
    case Add(node) => TrackedRecovers(n, Adding(n, node), history);
    case Remove(node) => TrackedRecovers(n, Removing(n, node), history);
    case Reboot(peers) => RebootRecovers(n, peers, history);
  }

  lemma SameCodec(n: Node, i: Input)
    ensures React(n, i).node.codec == n.codec
  {
  }

  ghost predicate SoundAt(r: NodeRun, i: nat, history: Log) {
    i < |r.inputs| && i < |r.states| ==> Sound(r.states[i], r.inputs[i], history)
  }

  // A run from an empty store in which every input is sound for one history.
  ghost predicate SoundRun(r: NodeRun, history: Log) {
    && IsNodeRun(r)
    && r.states[0].store == EMPTY_STORE
    && r.states[0].codec.Faithful()
    && forall i: nat :: SoundAt(r, i, history)
  }

  ghost predicate RecoverableAt(r: NodeRun, i: nat, history: Log) {
    i < |r.states| ==> Recoverable(r.states[i], history) && r.states[i].codec.Faithful()
  }

  lemma StartRecovers(r: NodeRun, history: Log)
    requires SoundRun(r, history)
    ensures RecoverableAt(r, 0, history)
  {
  }

  lemma NextRecovers(r: NodeRun, i: nat, history: Log)
    requires i < |r.inputs| && i + 1 < |r.states|
    requires (forall j: nat :: ReactsAt(r, j)) && (forall j: nat :: SoundAt(r, j, history))
    requires RecoverableAt(r, i, history)
    ensures RecoverableAt(r, i + 1, history)
  {
    assert ReactsAt(r, i) && SoundAt(r, i, history);
    StepRecovers(r.states[i], r.inputs[i], r.states[i + 1], history);
    SameCodec(r.states[i], r.inputs[i]);
  }

  lemma {:induction false} RunRecovers(r: NodeRun, i: nat, history: Log)
    requires SoundRun(r, history) && i < |r.states|
    ensures RecoverableAt(r, i, history)
  {
    if i == 0 {
      StartRecovers(r, history);
    } else {
      RunRecovers(r, i - 1, history);
      NextRecovers(r, i - 1, history);
    }
  }

  // In every state of every such run, however many crashes it had: the state
  // machine is the fold of the history through lastApplied, the stored snapshot
  // decodes to the fold through its index, and the commit index is not ahead
  // of lastApplied.
  lemma RecoveryEquivalence(r: NodeRun, i: nat, history: Log)
    requires SoundRun(r, history) && i < |r.states|
    ensures var n := r.states[i];
            && n.repl.commitIndex <= n.repl.lastApplied <= |history|
            && n.sm == Fold(history[..n.repl.lastApplied])
            && (n.store.snapshot.Some? ==>
                  var snap := n.store.snapshot.value;
                  snap.lastIncludedIndex <= |history| &&
                  n.codec.decode(snap.data) == Some(Fold(history[..snap.lastIncludedIndex])))
  {
    RunRecovers(r, i, history);
  }

  // Nor does the apply loop ever come to an index with no entry.
  lemma ApplyNeverSkips(r: NodeRun, i: nat, history: Log)
    requires SoundRun(r, history) && i < |r.inputs|
    ensures NothingSkipped(r.states[i], r.inputs[i])
  {
    RunRecovers(r, i, history);
    assert SoundAt(r, i, history);
    StepRecovers(r.states[i], r.inputs[i], React(r.states[i], r.inputs[i]).node, history);
  }

  // The response makes the leader advance its commit index far enough to want a
  // snapshot; this is the node at that moment.
  function Snapshotting(n: Node, from: NodeId, m: Msg): Option<Node>
    requires m.AppendEntriesResponse?
  {
    var a := HandleAppendEntriesResponse(n.repl, from, m.success, m.matchIndex, n.store, n.sm, n.config.members, n.id);
    var n2 := ApplyConfigChanges(n.(repl := a.repl, sm := a.sm), a.changes);
    if n.role == Leader && m.term == n.term && a.repl.commitIndex > n.repl.commitIndex &&
       ShouldCreate(n2.threshold, n2.repl.commitIndex, n2.store)
    then Some(n2) else None
  }

  // Whenever a leader snapshots, the commit index it labels the snapshot with is
  // exactly what its state machine has applied, even when a restart had put the
  // commit index back to 0; and the snapshot is always taken.
  lemma SnapshotPointExact(r: NodeRun, i: nat, from: NodeId, m: Msg, history: Log)
    requires SoundRun(r, history) && i < |r.inputs| && r.inputs[i] == Handle(Message(from, m))
    requires m.AppendEntriesResponse? && m.term <= r.states[i].term && Snapshotting(r.states[i], from, m).Some?
    ensures var at := Snapshotting(r.states[i], from, m).value;
            var after := r.states[i + 1];
            && at.repl.commitIndex == at.repl.lastApplied
            && after.store.snapshot.Some?
            && after.store.snapshot.value.lastIncludedIndex == after.repl.lastApplied == after.store.firstIndex - 1
            && after.codec.decode(after.store.snapshot.value.data) == Some(after.sm)
  {
    RunRecovers(r, i, history);
    assert SoundAt(r, i, history) && ReactsAt(r, i);
    ExactAt(r.states[i], from, m, history);
  }

  lemma ExactAt(n: Node, from: NodeId, m: Msg, history: Log)
    requires Recoverable(n, history) && n.codec.Faithful() && m.AppendEntriesResponse? && m.term <= n.term
    requires Sound(n, Handle(Message(from, m)), history) && Snapshotting(n, from, m).Some?
    ensures var at, after := Snapshotting(n, from, m).value, OnMessage(n, from, m).node;
            && at.repl.commitIndex == at.repl.lastApplied
            && at.store.GetEntry(after.repl.lastApplied).Some?
            && after.store.snapshot == Some(Snapshot(after.repl.lastApplied,
                                                     at.store.GetEntry(after.repl.lastApplied).value.term,
                                                     n.codec.encode(after.sm)))
            && after.store.firstIndex == after.repl.lastApplied + 1
            && after.codec.decode(n.codec.encode(after.sm)) == Some(after.sm)
  {
    Counted(n, from, m);
    var a := HandleAppendEntriesResponse(n.repl, from, m.success, m.matchIndex, n.store, n.sm, n.config.members, n.id);
    ChangesKeepIndices(Changed(n.config, a.repl, n.role), n.id, n.store.LastLogIndex(), a.changes);
    CommitTo(n, n.store, a.repl.commitIndex, history);
    assert n.codec.decode(n.codec.encode(a.sm)) == Some(a.sm);
  }

  // Why a completed install has to reach lastApplied: one that does not is
  // still accepted, takes the state machine back and leaves lastApplied where
  // it was. The two agree again exactly when it reaches lastApplied or the
  // entries in between change nothing.
  lemma OlderInstallRegresses(n: Node, from: NodeId, m: Msg, history: Log)
    requires Recoverable(n, history) && m.InstallSnapshot? && Installs(n, m)
    requires m.lastIncludedIndex <= |history|
    requires n.codec.decode(Assembled(n, m)) == Some(Fold(history[..m.lastIncludedIndex]))
    ensures var d := OnMessage(n, from, m).node;
            && d.repl.lastApplied == Max(n.repl.lastApplied, m.lastIncludedIndex)
            && d.sm == Fold(history[..m.lastIncludedIndex])
            && (Recoverable(d, history) <==>
                m.lastIncludedIndex >= n.repl.lastApplied ||
                Fold(history[..m.lastIncludedIndex]) == Fold(history[..n.repl.lastApplied]))
  {
    Installed(n, from, m);
    OlderInstallExact(n, OnMessage(n, from, m).node, m, history);
  }

  lemma OlderInstallExact(n: Node, d: Node, m: Msg, history: Log)
    requires Recoverable(n, history) && m.InstallSnapshot? && Installs(n, m) && AfterInstall(n, m, d)
    requires m.lastIncludedIndex <= |history|
    requires n.codec.decode(Assembled(n, m)) == Some(Fold(history[..m.lastIncludedIndex]))
    ensures Recoverable(d, history) <==>
            m.lastIncludedIndex >= n.repl.lastApplied ||
            Fold(history[..m.lastIncludedIndex]) == Fold(history[..n.repl.lastApplied])
  {
    DiscardedWindow(n.store, m.lastIncludedIndex);
  }

  function Set(key: string, value: string): LogEntry { LogEntry(1, Command("SET " + key + "=" + value)) }

  lemma SetSets(m: KV, key: string, value: string)
    requires '=' !in key
    ensures ApplyEntry(m, Set(key, value)) == m[key := value]
  {
    var payload := "SET " + key + "=" + value;
    assert payload[4..] == key + ['='] + value;
    SplitJoined(key, '=', value);
  }

  lemma TwoSets()
    ensures Fold([Set("a", "1")]) == map["a" := "1"]
    ensures Fold([Set("a", "1"), Set("b", "2")]) == map["a" := "1", "b" := "2"]
  {
    var one, two := [Set("a", "1")], [Set("a", "1"), Set("b", "2")];
    assert one[..0] == [] && two[..1] == one;
    SetSets(map[], "a", "1");
    SetSets(map["a" := "1"], "b", "2");
  }

  // A follower that has applied two commands and taken no snapshot.
  function TwoApplied(codec: Codec): Node {
    var log := [Set("a", "1"), Set("b", "2")];
    Node(1, Follower, 1, None, Store(1, None, log, None, [], 1), Fold(log), Election([], [], false),
         EMPTY_REPL.(commitIndex := 2, lastApplied := 2), Config([1, 2], None), 100, codec)
  }

  // It accepts a snapshot of the first of them, and its state machine loses the
  // second key while lastApplied stays at 2.
  lemma OlderInstallLosesKey(codec: Codec)
    requires codec.Faithful()
    ensures var n, history := TwoApplied(codec), [Set("a", "1"), Set("b", "2")];
            var m := InstallSnapshot(1, 2, 1, 1, 0, codec.encode(Fold(history[..1])), true);
            var d := OnMessage(n, 2, m).node;
            && Recoverable(n, history) && Installs(n, m) && m.lastIncludedIndex < n.repl.lastApplied
            && codec.decode(Assembled(n, m)) == Some(Fold(history[..m.lastIncludedIndex]))
            && "b" in n.sm && "b" !in d.sm && d.repl.lastApplied == 2
            && !Recoverable(d, history)
  {
    var n, history := TwoApplied(codec), [Set("a", "1"), Set("b", "2")];
    var m := InstallSnapshot(1, 2, 1, 1, 0, codec.encode(Fold(history[..1])), true);
    TwoSets();
    assert history[..1] == [Set("a", "1")] && history[..2] == history;
    assert [] + m.data == m.data;
    assert codec.decode(codec.encode(Fold(history[..1]))) == Some(Fold(history[..1]));
    OlderInstallRegresses(n, 2, m, history);
  }

  // --- The same, from what comes in alone ---

  // The log holds entries of the history and nothing beyond it.
  ghost predicate Slice(s: Store, history: Log) {
    s.LastLogIndex() <= |history| &&
    forall i :: s.firstIndex <= i && i > 0 && s.GetEntry(i).Some? ==>
      i <= |history| && s.GetEntry(i).value == history[i - 1]
  }

  predicate Completes(i: Input) { i.Handle? && i.event.Message? && i.event.msg.InstallSnapshot? }

  // Entries that come in are the history's, start inside the window and reach
  // the commit index; entries proposed here are the history's next; snapshots
  // that complete fold a prefix no shorter than what is applied.
  ghost predicate FromHistory(n: Node, i: Input, history: Log) {
    match i
    case Handle(Message(_, AppendEntries(term, prev, prevTerm, entries, _))) =>
      term == n.term && CheckLogConsistency(n.store, prev, prevTerm) && entries != [] ==>
        && n.store.firstIndex <= prev + 1 && n.repl.commitIndex <= prev + |entries| <= |history|
        && entries == history[prev..prev + |entries|]
    case Handle(Message(_, InstallSnapshot(_, _, _, _, _, _, _))) => Sound(n, i, history)
    case _ => Slice(LogOf(n, i), history)
  }

  lemma WriteIsSlice(n: Node, m: Msg, history: Log)
    requires Recoverable(n, history) && Slice(n.store, history) && m.AppendEntries? && Consistent(n, m)
    requires m.entries != [] ==>
               n.store.firstIndex <= m.prevLogIndex + 1 && m.prevLogIndex + |m.entries| <= |history| &&
               m.entries == history[m.prevLogIndex..m.prevLogIndex + |m.entries|]
    ensures Slice(WriteEntries(n.store, m.prevLogIndex, m.entries), history)
  {
    var s := WriteEntries(n.store, m.prevLogIndex, m.entries);
    if m.entries != [] {
      assert s.LastLogIndex() == m.prevLogIndex + |m.entries|;
      forall i | s.firstIndex <= i && i > 0 && s.GetEntry(i).Some?
        ensures i <= |history| && s.GetEntry(i).value == history[i - 1]
      {
        if i <= m.prevLogIndex {
          assert n.store.GetEntry(i) == s.GetEntry(i);
        } else {
          assert s.GetEntry(i).value == m.entries[i - m.prevLogIndex - 1];
        }
      }
    }
  }

  // A step commits no further than its log reaches.
  lemma CommitWithin(n: Node, i: Input)
    requires !Completes(i)
    ensures React(n, i).node.repl.commitIndex <= Max(n.repl.commitIndex, LogOf(n, i).LastLogIndex())
  {
    match i
    case Handle(Message(from, m)) => MessageWithin(n, from, m);
    case Handle(ClientCommand(payload)) => ProposalWithin(n, Command(payload));
    case Handle(SubmitChange(change)) => ProposalWithin(n, ConfigChange(change));
    case Add(node) => TrackedWithin(n, Adding(n, node));
    case Remove(node) => TrackedWithin(n, Removing(n, node));
    case _ =>
  }

  lemma ProposalWithin(n: Node, entryType: EntryType)
    ensures Submit(n, entryType).step.node.repl.commitIndex <=
            Max(n.repl.commitIndex, Proposed(n, entryType).LastLogIndex())
    ensures Submit(n, entryType).step.node.store == Proposed(n, entryType)
  {
    if n.role == Leader {
      var s := Proposed(n, entryType);
      var a := AdvanceCommitIndex(n.repl, s, n.sm, n.config.members, n.id);
      ChangesKeepIndices(Changed(n.config, a.repl, n.role), n.id, s.LastLogIndex(), a.changes);
    }
  }

  lemma TrackedWithin(n: Node, change: Result<ConfigurationChange, ConfigError>)
    ensures SubmitTracked(n, change).step.node.repl.commitIndex <=
            Max(n.repl.commitIndex, Tracked(n, change).LastLogIndex())
    ensures SubmitTracked(n, change).step.node.store == Tracked(n, change)
  {
    if change.Ok? {
      ProposalWithin(n, ConfigChange(change.value));
    }
  }

  lemma MessageWithin(n: Node, from: NodeId, m: Msg)
    requires !m.InstallSnapshot?
    ensures OnMessage(n, from, m).node.repl.commitIndex <=
            Max(n.repl.commitIndex, LogOf(n, Handle(Message(from, m))).LastLogIndex())
  {
    if m.AppendEntries? {
      AppendWithin(n, from, m);
    } else if m.AppendEntriesResponse? {
      Counted(n, from, m);
      var a := HandleAppendEntriesResponse(n.repl, from, m.success, m.matchIndex, n.store, n.sm, n.config.members,
                                           n.id);
      ChangesKeepIndices(Changed(n.config, a.repl, n.role), n.id, n.store.LastLogIndex(), a.changes);
    }
  }

  lemma AppendWithin(n: Node, from: NodeId, m: Msg)
    requires m.AppendEntries?
    ensures var d := OnMessage(n, from, m).node;
            var s := LogOf(n, Handle(Message(from, m)));
            && d.repl.commitIndex <= Max(n.repl.commitIndex, s.LastLogIndex())
            && d.store.log == s.log && d.store.firstIndex == s.firstIndex
  {
    if m.term <= n.term {
      var o := HandleAppendEntries(n.repl, m.term, m.prevLogIndex, m.prevLogTerm, m.entries, m.leaderCommit, n.term,
                                   n.store, n.sm, n.role);
      ChangesKeepIndices(Changed(n.config, o.repl, o.role), n.id, o.store.LastLogIndex(), o.changes);
    }
  }

  lemma LogIsSlice(n: Node, i: Input, history: Log)
    requires Recoverable(n, history) && Slice(n.store, history) && FromHistory(n, i, history)
    ensures Slice(LogOf(n, i), history)
  {
    if i.Handle? && i.event.Message? && i.event.msg.AppendEntries? && Consistent(n, i.event.msg) {
      WriteIsSlice(n, i.event.msg, history);
    }
  }

  lemma InputIsSound(n: Node, i: Input, history: Log)
    requires Recoverable(n, history) && Slice(n.store, history) && FromHistory(n, i, history)
    ensures Sound(n, i, history)
  {
    if !Completes(i) {
      LogIsSlice(n, i, history);
      CommitWithin(n, i);
    }
  }

  lemma SameSlice(s: Store, t: Store, history: Log)
    requires Slice(s, history) && t.log == s.log && t.firstIndex == s.firstIndex
    ensures Slice(t, history)
  {
    forall i | t.firstIndex <= i && i > 0 && t.GetEntry(i).Some?
      ensures i <= |history| && t.GetEntry(i).value == history[i - 1]
    {
      assert s.GetEntry(i) == t.GetEntry(i);
    }
  }

  lemma DiscardedSlice(s: Store, index: LogIndex, t: Store, history: Log)
    requires Slice(s, history) && index <= |history| && 1 <= s.firstIndex
    requires t.log == s.DiscardEntriesBefore(index + 1).log
    requires t.firstIndex == s.DiscardEntriesBefore(index + 1).firstIndex
    ensures Slice(t, history)
  {
    forall i | t.firstIndex <= i && i > 0 && t.GetEntry(i).Some?
      ensures i <= |history| && t.GetEntry(i).value == history[i - 1]
    {
      assert s.GetEntry(i) == t.GetEntry(i);
    }
  }

  lemma CompactedSlice(n: Node, history: Log)
    requires Slice(n.store, history) && 1 <= n.store.firstIndex && n.repl.commitIndex <= |history|
    ensures Slice(TakeSnapshot(n).store, history)
  {
    if Create(n.store, n.sm, n.repl.commitIndex, n.codec).Ok? {
      DiscardedSlice(n.store, n.repl.commitIndex, TakeSnapshot(n).store, history);
    }
  }

  lemma ResponseSlice(n: Node, from: NodeId, m: Msg, history: Log)
    requires Slice(n.store, history) && 1 <= n.store.firstIndex && n.repl.commitIndex <= |history|
    requires m.AppendEntriesResponse?
    ensures Slice(OnMessage(n, from, m).node.store, history)
  {
    var d := OnMessage(n, from, m).node;
    if n.role == Leader && m.term == n.term {
      Counted(n, from, m);
      var a := HandleAppendEntriesResponse(n.repl, from, m.success, m.matchIndex, n.store, n.sm, n.config.members,
                                           n.id);
      ChangesKeepIndices(Changed(n.config, a.repl, n.role), n.id, n.store.LastLogIndex(), a.changes);
      var n2 := ApplyConfigChanges(n.(repl := a.repl, sm := a.sm), a.changes);
      if a.repl.commitIndex > n.repl.commitIndex {
        CompactedSlice(n2, history);
      }
    } else {
      SameSlice(n.store, d.store, history);
    }
  }

  lemma InstallSlice(n: Node, from: NodeId, m: Msg, history: Log)
    requires Recoverable(n, history) && Slice(n.store, history) && m.InstallSnapshot?
    requires Sound(n, Handle(Message(from, m)), history)
    ensures Slice(OnMessage(n, from, m).node.store, history)
  {
    var d := OnMessage(n, from, m).node;
    if Installs(n, m) {
      Installed(n, from, m);
      DiscardedSlice(n.store, m.lastIncludedIndex, d.store, history);
    } else {
      NotInstalled(n, from, m);
      SameSlice(n.store, d.store, history);
    }
  }

  lemma OtherSlice(n: Node, from: NodeId, m: Msg, history: Log)
    requires Slice(n.store, history) && !m.AppendEntries? && !m.AppendEntriesResponse? && !m.InstallSnapshot?
    ensures Slice(OnMessage(n, from, m).node.store, history)
  {
    SameSlice(n.store, OnMessage(n, from, m).node.store, history);
  }

  lemma MessageSlice(n: Node, from: NodeId, m: Msg, history: Log)
    requires Recoverable(n, history) && Slice(n.store, history) && FromHistory(n, Handle(Message(from, m)), history)
    ensures Slice(OnMessage(n, from, m).node.store, history)
  {
    if m.AppendEntries? {
      LogIsSlice(n, Handle(Message(from, m)), history);
      AppendWithin(n, from, m);
      SameSlice(LogOf(n, Handle(Message(from, m))), OnMessage(n, from, m).node.store, history);
    } else if m.AppendEntriesResponse? {
      ResponseSlice(n, from, m, history);
    } else if m.InstallSnapshot? {
      InstallSlice(n, from, m, history);
    } else {
      OtherSlice(n, from, m, history);
    }
  }

  lemma StepSlice(n: Node, i: Input, history: Log)
    requires Recoverable(n, history) && Slice(n.store, history) && FromHistory(n, i, history)
    ensures Slice(React(n, i).node.store, history)
  {
    match i
    case Handle(Message(from, m)) => MessageSlice(n, from, m, history);
    case Handle(ClientCommand(payload)) => ProposalWithin(n, Command(payload));
    case Handle(SubmitChange(change)) => ProposalWithin(n, ConfigChange(change));
    case Handle(TimerFired(kind)) => SameSlice(n.store, React(n, i).node.store, history);
    case Add(node) => TrackedWithin(n, Adding(n, node));
    case Remove(node) => TrackedWithin(n, Removing(n, node));
    case Reboot(_) =>
  }

  ghost predicate InputAt(r: NodeRun, i: nat, history: Log) {
    i < |r.inputs| && i < |r.states| ==> FromHistory(r.states[i], r.inputs[i], history)
  }

  // A run from an empty store all of whose inputs come from one history.
  ghost predicate HistoryRun(r: NodeRun, history: Log) {
    && IsNodeRun(r)
    && r.states[0].store == EMPTY_STORE
    && r.states[0].codec.Faithful()
    && forall i: nat :: InputAt(r, i, history)
  }

  ghost predicate SlicedAt(r: NodeRun, i: nat, history: Log) {
    i < |r.states| ==> RecoverableAt(r, i, history) && Slice(r.states[i].store, history)
  }

  lemma NextSliced(r: NodeRun, i: nat, history: Log)
    requires i < |r.inputs| && i + 1 < |r.states|
    requires (forall j: nat :: ReactsAt(r, j)) && (forall j: nat :: InputAt(r, j, history))
    requires SlicedAt(r, i, history)
    ensures SlicedAt(r, i + 1, history) && SoundAt(r, i, history)
  {
    assert ReactsAt(r, i) && InputAt(r, i, history);
    InputIsSound(r.states[i], r.inputs[i], history);
    StepSlice(r.states[i], r.inputs[i], history);
    StepRecovers(r.states[i], r.inputs[i], r.states[i + 1], history);
    SameCodec(r.states[i], r.inputs[i]);
  }

  lemma StartSliced(r: NodeRun, history: Log)
    requires HistoryRun(r, history)
    ensures SlicedAt(r, 0, history)
  {
  }

  lemma {:induction false} RunSliced(r: NodeRun, i: nat, history: Log)
    requires HistoryRun(r, history) && i < |r.states|
    ensures SlicedAt(r, i, history)
  {
    if i == 0 {
      StartSliced(r, history);
    } else {
      RunSliced(r, i - 1, history);
      NextSliced(r, i - 1, history);
    }
  }

  // So it is enough to look at what comes in: everything above holds of runs
  // whose inputs all come from one history.
  lemma HistoryRunsAreSound(r: NodeRun, history: Log)
    requires HistoryRun(r, history)
    ensures SoundRun(r, history)
  {
    forall i: nat ensures SoundAt(r, i, history) {
      if i < |r.inputs| {
        RunSliced(r, i, history);
        NextSliced(r, i, history);
      }
    }
  }
}
