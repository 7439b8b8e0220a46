// What a leader knows of its followers, what it commits from it, and who counts.
module LeaderProgress {
  import opened Types
  import opened StateMachines
  import opened Storage
  import opened Replication
  import opened ConfigChanges
  import opened Snapshots
  import opened Medians
  import opened Nodes
  import opened NodeRuns
  import opened Recovery
  import opened MembershipSteps
  import opened Membership

  // --- Commitment ---

  // A quorum of the voting members has reached k.
  ghost predicate Reached(k: LogIndex, matchIndex: map<NodeId, LogIndex>, last: LogIndex, members: seq<NodeId>,
                          catchingUp: map<NodeId, LogIndex>, leader: NodeId)
  {
    |VotersAt(k, matchIndex, last, members, catchingUp, leader)| >= |Voters(members, catchingUp, leader)| / 2 + 1
  }

  // k is the greatest such index, new, and its entry is of the current term.
  ghost predicate MayCommit(k: LogIndex, commit: LogIndex, s: Store, matchIndex: map<NodeId, LogIndex>,
                            members: seq<NodeId>, catchingUp: map<NodeId, LogIndex>, leader: NodeId)
  {
    && k > commit
    && Reached(k, matchIndex, s.LastLogIndex(), members, catchingUp, leader)
    && (forall j: LogIndex :: j > k ==> !Reached(j, matchIndex, s.LastLogIndex(), members, catchingUp, leader))
    && s.GetEntry(k).Some? && s.GetEntry(k).value.term == s.currentTerm
  }

  lemma AdvanceIff(r: Repl, s: Store, sm: KV, members: seq<NodeId>, leader: NodeId, k: LogIndex)
    requires Distinct(members) && leader in members
    ensures var commit := AdvanceCommitIndex(r, s, sm, members, leader).repl.commitIndex;
            && commit >= r.commitIndex
            && (k > r.commitIndex ==>
                  (commit == k <==> MayCommit(k, r.commitIndex, s, r.matchIndex, members, r.catchingUp, leader)))
  {
    var median := ComputeMedian(r.matchIndex, s.LastLogIndex(), members, r.catchingUp, leader);
    forall j: LogIndex
      ensures Reached(j, r.matchIndex, s.LastLogIndex(), members, r.catchingUp, leader) <==> j <= median
    {
      MedianIsQuorumPoint(j, r.matchIndex, s.LastLogIndex(), members, r.catchingUp, leader);
    }
    assert Reached(median, r.matchIndex, s.LastLogIndex(), members, r.catchingUp, leader);
  }

  // A response that raises what the leader knows of its sender.
  predicate Raises(n: Node, from: NodeId, m: Msg) {
    m.AppendEntriesResponse? && n.role == Leader && m.term == n.term && m.success &&
    m.matchIndex > Lookup(n.repl.matchIndex, from, 0)
  }

  // The servers still catching up once the sender has had its chance.
  function Lagging(n: Node, from: NodeId, reported: LogIndex): map<NodeId, LogIndex> {
    if reported >= n.repl.commitIndex then n.repl.catchingUp - {from} else n.repl.catchingUp
  }

  // The leader's new commit index is k if and only if k is the greatest index a
  // quorum of the voting members has reached, is new, and holds an entry of the
  // current term; if there is no such k it stays. Servers that are catching up
  // do not count, on either side of the quorum.
  lemma CommitsQuorumPoint(n: Node, from: NodeId, m: Msg, k: LogIndex)
    requires Raises(n, from, m) && Distinct(n.config.members) && n.id in n.config.members
    ensures var commit := OnMessage(n, from, m).node.repl.commitIndex;
            && commit >= n.repl.commitIndex
            && (k > n.repl.commitIndex ==>
                  (commit == k <==> MayCommit(k, n.repl.commitIndex, n.store, n.repl.matchIndex[from := m.matchIndex],
                                              n.config.members, Lagging(n, from, m.matchIndex), n.id)))
  {
    ResponseCommits(n, from, m);
    var r := Recorded(n, from, m);
    AdvanceIff(r, n.store, n.sm, n.config.members, n.id, k);
    SameLagging(n, from, m);
  }

  function Recorded(n: Node, from: NodeId, m: Msg): Repl
    requires m.AppendEntriesResponse?
  {
    PromoteCaughtUp(n.repl.(matchIndex := n.repl.matchIndex[from := m.matchIndex],
                            nextIndex := n.repl.nextIndex[from := m.matchIndex + 1]), from)
  }

  lemma SameLagging(n: Node, from: NodeId, m: Msg)
    requires m.AppendEntriesResponse?
    ensures Recorded(n, from, m).catchingUp == Lagging(n, from, m.matchIndex)
    ensures Recorded(n, from, m).matchIndex == n.repl.matchIndex[from := m.matchIndex]
    ensures Recorded(n, from, m).commitIndex == n.repl.commitIndex
  {
  }

  lemma ResponseCommits(n: Node, from: NodeId, m: Msg)
    requires Raises(n, from, m)
    ensures OnMessage(n, from, m).node.repl.commitIndex ==
            AdvanceCommitIndex(Recorded(n, from, m), n.store, n.sm, n.config.members, n.id).repl.commitIndex
  {
    var a := AdvanceCommitIndex(Recorded(n, from, m), n.store, n.sm, n.config.members, n.id);
    ChangesKeepIndices(Changed(n.config, a.repl, n.role), n.id, n.store.LastLogIndex(), a.changes);
  }

  // No other response commits anything.
  lemma OthersCommitNothing(n: Node, from: NodeId, m: Msg)
    requires m.AppendEntriesResponse? && !Raises(n, from, m)
    ensures OnMessage(n, from, m).node.repl.commitIndex == n.repl.commitIndex
  {
  }

  // --- What changes do to progress ---

  // The node is still leader when change k is applied.
  predicate StillLeads(changes: seq<IndexedChange>, k: nat, self: NodeId)
    requires k <= |changes|
  {
    forall j :: 0 <= j < k ==> changes[j].change != RemoveServer(self)
  }

  predicate Concerns(c: ConfigurationChange, x: NodeId) { c == AddServer(x) || c == RemoveServer(x) }

  // Change k is the last that concerns x and finds the node leading.
  predicate LastFor(changes: seq<IndexedChange>, k: nat, self: NodeId, x: NodeId)
    requires k < |changes|
  {
    && StillLeads(changes, k, self) && Concerns(changes[k].change, x)
    && forall j :: k < j < |changes| ==> !(StillLeads(changes, j, self) && Concerns(changes[j].change, x))
  }

  // Some change adds x while the node leads.
  predicate Marked(changes: seq<IndexedChange>, self: NodeId, x: NodeId) {
    exists k :: 0 <= k < |changes| && changes[k].change == AddServer(x) && StillLeads(changes, k, self)
  }

  lemma {:induction false} ApplyRole(s: Changed, self: NodeId, last: LogIndex, changes: seq<IndexedChange>)
    ensures ApplyChanges(s, self, last, changes).role ==
            if StillLeads(changes, |changes|, self) then s.role else Follower
  {
    if changes != [] {
      ApplyRole(s, self, last, changes[..|changes| - 1]);
    }
  }

  lemma LeadsPrefix(changes: seq<IndexedChange>, k: nat, self: NodeId)
    requires k < |changes|
    ensures StillLeads(changes[..|changes| - 1], k, self) <==> StillLeads(changes, k, self)
  {
    var init := changes[..|changes| - 1];
    if StillLeads(init, k, self) {
      forall j | 0 <= j < k ensures changes[j].change != RemoveServer(self) {
        assert init[j] == changes[j];
      }
    }
  }

  // A leader that applies the addition of x has x catching up; nothing else that
  // is applied touches who is.
  lemma {:induction false} ApplyMarks(s: Changed, self: NodeId, last: LogIndex, changes: seq<IndexedChange>, x: NodeId)
    ensures x in ApplyChanges(s, self, last, changes).repl.catchingUp <==>
            x in s.repl.catchingUp || (s.role == Leader && Marked(changes, self, x))
  {
    if changes != [] {
      var init, k := changes[..|changes| - 1], |changes| - 1;
      ApplyMarks(s, self, last, init, x);
      ApplyRole(s, self, last, init);
      MarkedOnce(changes, self, x);
      LeadsPrefix(changes, k, self);
    }
  }

  lemma MarkedOnce(changes: seq<IndexedChange>, self: NodeId, x: NodeId)
    requires changes != []
    ensures var k := |changes| - 1;
            Marked(changes, self, x) <==>
            Marked(changes[..k], self, x) || (changes[k].change == AddServer(x) && StillLeads(changes, k, self))
  {
    var init, k := changes[..|changes| - 1], |changes| - 1;
    if Marked(init, self, x) {
      var j :| 0 <= j < |init| && init[j].change == AddServer(x) && StillLeads(init, j, self);
      LeadsPrefix(changes, j, self);
      assert changes[j].change == AddServer(x);
    }
    if Marked(changes, self, x) {
      var j :| 0 <= j < |changes| && changes[j].change == AddServer(x) && StillLeads(changes, j, self);
      LeadsPrefix(changes, j, self);
      assert j < k ==> init[j].change == AddServer(x);
    }
  }

  // What one applied change makes of what is known of x.
  lemma ChangeProgress(s: Changed, self: NodeId, last: LogIndex, c: IndexedChange, x: NodeId)
    ensures var r := ApplyChange(s, self, last, c).repl;
            if s.role == Leader && c.change == AddServer(x) then
              x in r.nextIndex && r.nextIndex[x] == last + 1 && x in r.matchIndex && r.matchIndex[x] == 0
            else if s.role == Leader && c.change == RemoveServer(x) then x !in r.nextIndex && x !in r.matchIndex
            else SameFor(s.repl, r, x)
  {
  }

  predicate SameFor(r: Repl, t: Repl, x: NodeId) {
    && (x in r.nextIndex <==> x in t.nextIndex) && (x in r.nextIndex ==> r.nextIndex[x] == t.nextIndex[x])
    && (x in r.matchIndex <==> x in t.matchIndex) && (x in r.matchIndex ==> r.matchIndex[x] == t.matchIndex[x])
  }

  // What a leader knows of x afterwards: the last change that concerns x and
  // finds it leading decides. An addition starts x one past the leader's log
  // with nothing matched; a removal forgets it.
  lemma {:induction false} ApplyProgress(s: Changed, self: NodeId, last: LogIndex, changes: seq<IndexedChange>,
                                         x: NodeId, k: nat)
    requires s.role == Leader && k < |changes| && LastFor(changes, k, self, x)
    ensures var r := ApplyChanges(s, self, last, changes).repl;
            if changes[k].change == AddServer(x) then
              x in r.nextIndex && r.nextIndex[x] == last + 1 && x in r.matchIndex && r.matchIndex[x] == 0
            else x !in r.nextIndex && x !in r.matchIndex
    decreases |changes|
  {
    var init := changes[..|changes| - 1];
    LeadsPrefix(changes, |init|, self);
    ApplyRole(s, self, last, init);
    ChangeProgress(ApplyChanges(s, self, last, init), self, last, changes[|init|], x);
    if k < |init| {
      LastPrefix(changes, k, self, x);
      ApplyProgress(s, self, last, init, x, k);
    }
  }

  lemma LastPrefix(changes: seq<IndexedChange>, k: nat, self: NodeId, x: NodeId)
    requires k < |changes| - 1 && LastFor(changes, k, self, x)
    ensures LastFor(changes[..|changes| - 1], k, self, x)
    ensures !(StillLeads(changes, |changes| - 1, self) && Concerns(changes[|changes| - 1].change, x))
  {
    forall j | k <= j < |changes| - 1
      ensures StillLeads(changes[..|changes| - 1], j, self) <==> StillLeads(changes, j, self)
    {
      LeadsPrefix(changes, j, self);
    }
  }

  lemma {:induction false} ApplyElsewhere(s: Changed, self: NodeId, last: LogIndex, changes: seq<IndexedChange>,
                                          x: NodeId)
    requires s.role == Leader ==>
               forall k :: 0 <= k < |changes| ==> !(StillLeads(changes, k, self) && Concerns(changes[k].change, x))
    ensures SameFor(s.repl, ApplyChanges(s, self, last, changes).repl, x)
  {
    if changes != [] {
      var init := changes[..|changes| - 1];
      LeadsPrefix(changes, |init|, self);
      ApplyRole(s, self, last, init);
      ChangeProgress(ApplyChanges(s, self, last, init), self, last, changes[|init|], x);
      forall j | 0 <= j < |init| ensures StillLeads(init, j, self) <==> StillLeads(changes, j, self) {
        LeadsPrefix(changes, j, self);
      }
      ApplyElsewhere(s, self, last, init, x);
    }
  }

  // --- Catching up ---

  // x shows itself level with the commit index: by a response that raises its
  // match index to it, or by taking a snapshot that reaches it.
  predicate CatchesUp(n: Node, i: Input, x: NodeId) {
    match i
    case Handle(Message(from, AppendEntriesResponse(term, success, reported))) =>
      from == x && Raises(n, from, i.event.msg) && reported >= n.repl.commitIndex
    case Handle(Message(from, InstallSnapshotResponse(term, success))) =>
      from == x && n.role == Leader && term == n.term && success && n.store.snapshot.Some? &&
      n.store.snapshot.value.lastIncludedIndex >= n.repl.commitIndex
    case _ => false
  }

  // The step applies the addition of x while the node leads.
  predicate Marks(n: Node, i: Input, x: NodeId) { n.role == Leader && Marked(Applying(n, i), n.id, x) }

  predicate KeptBehind(n: Node, i: Input, d: Node, x: NodeId) {
    x in d.repl.catchingUp <==> Marks(n, i, x) || (x in n.repl.catchingUp && !CatchesUp(n, i, x))
  }

  // All that a raising response does to progress: record it, then apply the
  // changes it lets commit.
  lemma ResponseIs(n: Node, from: NodeId, m: Msg) returns (r: Repl)
    requires Raises(n, from, m) && n.repl.commitIndex <= n.repl.lastApplied
    ensures var changes := Applying(n, Handle(Message(from, m)));
            var applied := ApplyChanges(Changed(n.config, r, n.role), n.id, n.store.LastLogIndex(), changes);
            OnMessage(n, from, m).node.repl == applied.repl && OnMessage(n, from, m).node.role == applied.role
    ensures r.matchIndex == n.repl.matchIndex[from := m.matchIndex]
    ensures r.nextIndex == n.repl.nextIndex[from := m.matchIndex + 1]
    ensures r.catchingUp == Lagging(n, from, m.matchIndex)
  {
    var a := AdvanceCommitIndex(Recorded(n, from, m), n.store, n.sm, n.config.members, n.id);
    r := a.repl;
    ResponseCommits(n, from, m);
    SameLagging(n, from, m);
    assert a.repl.commitIndex > n.repl.commitIndex ==>
        a.changes == ChangesIn(n.store, n.repl.lastApplied, a.repl.commitIndex);
  }

  lemma ResponseApplies(n: Node, from: NodeId, m: Msg, x: NodeId)
    requires Raises(n, from, m) && n.repl.commitIndex <= n.repl.lastApplied
    ensures KeptBehind(n, Handle(Message(from, m)), OnMessage(n, from, m).node, x)
  {
    var r := ResponseIs(n, from, m);
    ApplyMarks(Changed(n.config, r, n.role), n.id, n.store.LastLogIndex(), Applying(n, Handle(Message(from, m))), x);
  }

  lemma EntriesKeepBehind(n: Node, m: Msg)
    requires m.AppendEntries? && m.term <= n.term
    ensures var o := HandleAppendEntries(n.repl, m.term, m.prevLogIndex, m.prevLogTerm, m.entries, m.leaderCommit,
                                         n.term, n.store, n.sm, n.role);
            o.repl.catchingUp == n.repl.catchingUp && (o.role == Leader <==> n.role == Leader)
  {
  }

  // Entries touch progress only by the changes they let commit, in the role the
  // node has kept.
  lemma AppendIs(n: Node, from: NodeId, m: Msg) returns (s: Changed, last: LogIndex)
    requires m.AppendEntries? && m.term <= n.term && n.repl.commitIndex <= n.repl.lastApplied
    ensures OnMessage(n, from, m).node.repl ==
            ApplyChanges(s, n.id, last, Applying(n, Handle(Message(from, m)))).repl
    ensures s.repl.catchingUp == n.repl.catchingUp && (s.role == Leader <==> n.role == Leader)
  {
    AppendOutcomeIs(n, from, m);
    EntriesKeepBehind(n, m);
    var o := HandleAppendEntries(n.repl, m.term, m.prevLogIndex, m.prevLogTerm, m.entries, m.leaderCommit, n.term,
                                 n.store, n.sm, n.role);
    s, last := Changed(n.config, o.repl, o.role), o.store.LastLogIndex();
    ChangesKeepIndices(s, n.id, last, o.changes);
    SentOn(n, from, m);
  }

  lemma SentOn(n: Node, from: NodeId, m: Msg)
    requires m.AppendEntries? && m.term <= n.term
    ensures var o := HandleAppendEntries(n.repl, m.term, m.prevLogIndex, m.prevLogTerm, m.entries, m.leaderCommit,
                                         n.term, n.store, n.sm, n.role);
            OnMessage(n, from, m).node.repl ==
            ApplyChanges(Changed(n.config, o.repl, o.role), n.id, o.store.LastLogIndex(), o.changes).repl
  {
  }

  lemma AppendApplies(n: Node, from: NodeId, m: Msg, x: NodeId)
    requires m.AppendEntries? && n.repl.commitIndex <= n.repl.lastApplied
    ensures KeptBehind(n, Handle(Message(from, m)), OnMessage(n, from, m).node, x)
  {
    if m.term <= n.term {
      var s, last := AppendIs(n, from, m);
      ApplyMarks(s, n.id, last, Applying(n, Handle(Message(from, m))), x);
    } else {
      NewerAppliesNothing(n, from, m);
    }
  }

  lemma NewerAppliesNothing(n: Node, from: NodeId, m: Msg)
    requires m.AppendEntries? && m.term > n.term && n.repl.commitIndex <= n.repl.lastApplied
    ensures OnMessage(n, from, m).node.repl == n.repl && Applying(n, Handle(Message(from, m))) == []
  {
  }

  lemma ProposalApplies(n: Node, entryType: EntryType, d: Node, x: NodeId)
    requires n.repl.commitIndex <= n.repl.lastApplied && d == Submit(n, entryType).step.node
    ensures x in d.repl.catchingUp <==>
            x in n.repl.catchingUp ||
            (n.role == Leader &&
             Marked(ChangesIn(Proposed(n, entryType), n.repl.lastApplied, d.repl.commitIndex), n.id, x))
  {
    if n.role == Leader {
      var s := Proposed(n, entryType);
      var a := AdvanceCommitIndex(n.repl, s, n.sm, n.config.members, n.id);
      ChangesKeepIndices(Changed(n.config, a.repl, n.role), n.id, s.LastLogIndex(), a.changes);
      ApplyMarks(Changed(n.config, a.repl, n.role), n.id, s.LastLogIndex(), a.changes, x);
    }
  }

  lemma MessageBehind(n: Node, from: NodeId, m: Msg, x: NodeId)
    requires n.repl.commitIndex <= n.repl.lastApplied
    ensures KeptBehind(n, Handle(Message(from, m)), OnMessage(n, from, m).node, x)
  {
    if m.AppendEntries? {
      AppendApplies(n, from, m, x);
    } else if m.AppendEntriesResponse? && Raises(n, from, m) {
      ResponseApplies(n, from, m, x);
    } else if m.AppendEntriesResponse? {
      OthersCommitNothing(n, from, m);
    }
  }

  lemma StepBehind(n: Node, i: Input, d: Node, x: NodeId)
    requires n.repl.commitIndex <= n.repl.lastApplied && !i.Reboot? && d == React(n, i).node
    ensures KeptBehind(n, i, d, x)
  {
    match i
    case Handle(Message(from, m)) => MessageBehind(n, from, m, x);
    case Handle(ClientCommand(payload)) => ProposalApplies(n, Command(payload), d, x);
    case Handle(SubmitChange(change)) => ProposalApplies(n, ConfigChange(change), d, x);
    case Handle(TimerFired(_)) =>
    case Add(node) => TrackedApplies(n, Adding(n, node), x);
    case Remove(node) => TrackedApplies(n, Removing(n, node), x);
  }

  lemma TrackedApplies(n: Node, change: Result<ConfigurationChange, ConfigError>, x: NodeId)
    requires n.repl.commitIndex <= n.repl.lastApplied
    ensures var d := SubmitTracked(n, change).step.node;
            x in d.repl.catchingUp <==>
            x in n.repl.catchingUp ||
            (n.role == Leader && Marked(ChangesIn(Tracked(n, change), n.repl.lastApplied, d.repl.commitIndex), n.id, x))
  {
    if change.Ok? {
      ProposalApplies(n, ConfigChange(change.value), Submit(n, ConfigChange(change.value)).step.node, x);
    }
  }

  // --- Runs ---

  lemma StepCommitted(n: Node, i: Input)
    requires n.repl.commitIndex <= n.repl.lastApplied
    ensures React(n, i).node.repl.commitIndex <= React(n, i).node.repl.lastApplied
  {
    if Completes(i) {
      if Installs(n, i.event.msg) {
        Installed(n, i.event.from, i.event.msg);
      } else {
        NotInstalled(n, i.event.from, i.event.msg);
      }
    } else if !i.Reboot? {
      StepFollows(n, i);
    }
  }

  lemma {:induction false} RunCommitted(r: NodeRun, j: nat)
    requires IsNodeRun(r) && j < |r.states|
    ensures r.states[j].repl.commitIndex <= r.states[j].repl.lastApplied
  {
    if j > 0 {
      RunCommitted(r, j - 1);
      assert ReactsAt(r, j - 1);
      StepCommitted(r.states[j - 1], r.inputs[j - 1]);
    }
  }

  // Step k neither restarts the node nor brings news that x is level.
  ghost predicate NoNewsAt(r: NodeRun, k: nat, x: NodeId) {
    k < |r.inputs| && k < |r.states| ==> !CatchesUp(r.states[k], r.inputs[k], x) && !r.inputs[k].Reboot?
  }

  ghost predicate MarksAt(r: NodeRun, i: nat, x: NodeId) {
    i < |r.inputs| && i < |r.states| && Marks(r.states[i], r.inputs[i], x)
  }

  ghost function Marking(r: NodeRun, x: NodeId): nat -> bool { (i: nat) => MarksAt(r, i, x) }

  ghost function NoNews(r: NodeRun, x: NodeId): nat -> bool { (k: nat) => NoNewsAt(r, k, x) }

  // Some step before state j applied the addition of x while the node led, and
  // since then nothing has shown x to be level with the commit index and the
  // node has not restarted.
  ghost predicate BehindAt(r: NodeRun, j: nat, x: NodeId) { Since(Marking(r, x), NoNews(r, x), j) }

  // Over any run of a node: x is catching up if and only if the node applied its
  // addition while leading and has since not restarted nor heard from x that it
  // is level with the commit index.
  lemma {:induction false} CatchingUpIff(r: NodeRun, j: nat, x: NodeId)
    requires IsNodeRun(r) && j < |r.states|
    ensures x in r.states[j].repl.catchingUp <==> BehindAt(r, j, x)
  {
    if j == 0 {
      NobodyBehind(r.states[0]);
      NotBehindYet(r, x);
    } else {
      CatchingUpIff(r, j - 1, x);
      CatchingUpNext(r, j - 1, j, x);
    }
  }

  lemma CatchingUpNext(r: NodeRun, j: nat, next: nat, x: NodeId)
    requires IsNodeRun(r) && next == j + 1 && next < |r.states|
    requires x in r.states[j].repl.catchingUp <==> BehindAt(r, j, x)
    ensures x in r.states[next].repl.catchingUp <==> BehindAt(r, next, x)
  {
    RunBehind(r, j, x);
    BehindOneMore(r, j, next, x);
  }

  lemma NotBehindYet(r: NodeRun, x: NodeId)
    ensures !BehindAt(r, 0, x)
  {
  }

  lemma BehindOneMore(r: NodeRun, j: nat, next: nat, x: NodeId)
    requires next == j + 1
    ensures BehindAt(r, next, x) <==> MarksAt(r, j, x) || (BehindAt(r, j, x) && NoNewsAt(r, j, x))
  {
    SinceOneMore(Marking(r, x), NoNews(r, x), j, next);
  }

  lemma NobodyBehind(n: Node)
    requires Booted(n, map[])
    ensures n.repl.catchingUp == map[]
  {
  }

  lemma RunBehind(r: NodeRun, j: nat, x: NodeId)
    requires IsNodeRun(r) && j < |r.inputs|
    ensures x in r.states[j + 1].repl.catchingUp <==>
            MarksAt(r, j, x) || (x in r.states[j].repl.catchingUp && NoNewsAt(r, j, x))
  {
    RunCommitted(r, j);
    assert ReactsAt(r, j);
    if r.inputs[j].Reboot? {
      assert Applying(r.states[j], r.inputs[j]) == [];
    } else {
      StepBehind(r.states[j], r.inputs[j], r.states[j + 1], x);
    }
  }

  // So a member other than the leader votes on commitment exactly when it is not
  // between its addition and its first such answer.
  lemma VotesUnlessBehind(r: NodeRun, j: nat, x: NodeId)
    requires IsNodeRun(r) && j < |r.states|
    requires x in r.states[j].config.members && x != r.states[j].id
    ensures var n := r.states[j];
            x in Voters(n.config.members, n.repl.catchingUp, n.id) <==> !BehindAt(r, j, x)
  {
    CatchingUpIff(r, j, x);
  }

  // --- A follower takes a snapshot ---

  // The leader then knows it to have the snapshot's index, exactly that, and
  // sends it what is behind; it knows nothing new of anyone else.
  lemma SnapshotAnswered(n: Node, p: NodeId, x: NodeId)
    requires n.role == Leader && n.store.snapshot.Some?
    ensures var d, index := OnMessage(n, p, InstallSnapshotResponse(n.term, true)).node,
                            n.store.snapshot.value.lastIncludedIndex;
            && d == n.(repl := d.repl)
            && d.repl.commitIndex == n.repl.commitIndex && d.repl.lastApplied == n.repl.lastApplied
            && p in d.repl.matchIndex && d.repl.matchIndex[p] == index
            && p in d.repl.nextIndex && d.repl.nextIndex[p] == index + 1
            && (x != p ==> SameFor(n.repl, d.repl, x))
            && (x in d.repl.catchingUp <==> x in n.repl.catchingUp && !(x == p && index >= n.repl.commitIndex))
  {
  }

  // A refusal, an old answer, and an answer to no snapshot change nothing.
  lemma SnapshotRefused(n: Node, p: NodeId, term: Term, success: bool)
    requires term <= n.term
    requires n.role != Leader || term < n.term || !success || n.store.snapshot.None?
    ensures OnMessage(n, p, InstallSnapshotResponse(term, success)).node == n
  {
  }

  // --- A follower answers ---

  // What is known of x after any answer to AppendEntries: raised by an acceptance
  // that says more, one step back by a refusal, unless the answer lets an
  // addition or removal of x commit, which then decides.
  lemma AnswerProgress(n: Node, from: NodeId, m: Msg, x: NodeId, k: nat)
    requires m.AppendEntriesResponse? && n.role == Leader && m.term == n.term
    requires n.repl.commitIndex <= n.repl.lastApplied
    requires var changes := Applying(n, Handle(Message(from, m)));
             k <= |changes| && (k < |changes| ==> LastFor(changes, k, n.id, x)) &&
             (k == |changes| ==>
                forall j :: 0 <= j < |changes| ==>
                  !(StillLeads(changes, j, n.id) && Concerns(changes[j].change, x)))
    ensures var d, changes := OnMessage(n, from, m).node, Applying(n, Handle(Message(from, m)));
            if k < |changes| then
              if changes[k].change == AddServer(x) then
                Lookup(d.repl.nextIndex, x, 0) == n.store.LastLogIndex() + 1 && x in d.repl.matchIndex &&
                d.repl.matchIndex[x] == 0
              else x !in d.repl.nextIndex && x !in d.repl.matchIndex
            else if x == from && Raises(n, from, m) then
              && x in d.repl.matchIndex && d.repl.matchIndex[x] == m.matchIndex
              && x in d.repl.nextIndex && d.repl.nextIndex[x] == m.matchIndex + 1
            else if x == from && !m.success then
              && (x in d.repl.matchIndex <==> x in n.repl.matchIndex)
              && Lookup(d.repl.matchIndex, x, 0) == Lookup(n.repl.matchIndex, x, 0)
              && Lookup(d.repl.nextIndex, x, 1) ==
                 Lookup(n.repl.nextIndex, x, 1) - (if Lookup(n.repl.nextIndex, x, 1) > 1 then 1 else 0)
            else SameFor(n.repl, d.repl, x)
  {
    if Raises(n, from, m) {
      var changes := Applying(n, Handle(Message(from, m)));
      var r := ResponseIs(n, from, m);
      if k < |changes| {
        ApplyProgress(Changed(n.config, r, n.role), n.id, n.store.LastLogIndex(), changes, x, k);
      } else {
        ApplyElsewhere(Changed(n.config, r, n.role), n.id, n.store.LastLogIndex(), changes, x);
      }
    } else {
      OthersCommitNothing(n, from, m);
    }
  }

  // --- Leaving ---

  // A leader goes on leading after an answer of its own term unless the answer
  // lets its own removal commit; then it is a follower.
  lemma LeadsUntilRemoved(n: Node, from: NodeId, m: Msg)
    requires m.AppendEntriesResponse? && n.role == Leader && m.term == n.term
    requires n.repl.commitIndex <= n.repl.lastApplied
    ensures var changes := Applying(n, Handle(Message(from, m)));
            OnMessage(n, from, m).node.role == if StillLeads(changes, |changes|, n.id) then Leader else Follower
  {
    if Raises(n, from, m) {
      var r := ResponseIs(n, from, m);
      ApplyRole(Changed(n.config, r, n.role), n.id, n.store.LastLogIndex(), Applying(n, Handle(Message(from, m))));
    } else {
      OthersCommitNothing(n, from, m);
    }
  }

  // The same for a proposal, which commits only where the leader is alone.
  lemma ProposesUntilRemoved(n: Node, entryType: EntryType)
    requires n.role == Leader && n.repl.commitIndex <= n.repl.lastApplied
    ensures var d := Submit(n, entryType).step.node;
            var changes := ChangesIn(Proposed(n, entryType), n.repl.lastApplied, d.repl.commitIndex);
            d.role == if StillLeads(changes, |changes|, n.id) then Leader else Follower
  {
    var s := Proposed(n, entryType);
    var a := AdvanceCommitIndex(n.repl, s, n.sm, n.config.members, n.id);
    ChangesKeepIndices(Changed(n.config, a.repl, n.role), n.id, s.LastLogIndex(), a.changes);
    ApplyRole(Changed(n.config, a.repl, n.role), n.id, s.LastLogIndex(), a.changes);
  }

  // --- Snapshots of its own ---

  ghost predicate SnapshotTaken(n: Node, d: Node) {
    var k := n.repl.commitIndex;
    && n.store.GetEntry(k).Some?
    && d.store.snapshot == Some(Snapshot(k, n.store.GetEntry(k).value.term, n.codec.encode(n.sm)))
    && d.store.firstIndex == k + 1
    && forall j: LogIndex :: d.store.GetEntry(j) == if j > k then n.store.GetEntry(j) else None
  }

  lemma DiscardsThrough(s: Store, k: LogIndex, j: LogIndex)
    requires s.GetEntry(k).Some?
    ensures s.DiscardEntriesBefore(k + 1).firstIndex == k + 1
    ensures s.DiscardEntriesBefore(k + 1).GetEntry(j) == if j > k then s.GetEntry(j) else None
  {
  }

  // When there is an entry to label the snapshot with, it is taken exactly when
  // the commit index has reached the threshold and no stored snapshot has.
  lemma TakesIff(n: Node)
    requires n.repl.commitIndex > 0 && n.store.GetEntry(n.repl.commitIndex).Some?
    ensures ShouldCreate(n.threshold, n.repl.commitIndex, n.store) <==>
            n.repl.commitIndex >= n.threshold &&
            (n.store.snapshot.Some? ==> n.store.snapshot.value.lastIncludedIndex < n.threshold)
    ensures SnapshotTaken(n, TakeSnapshot(n)) && TakeSnapshot(n) == n.(store := TakeSnapshot(n).store)
  {
    var k := n.repl.commitIndex;
    var t := n.store.SaveSnapshot(Snapshot(k, n.store.GetEntry(k).value.term, n.codec.encode(n.sm)));
    assert TakeSnapshot(n) == n.(store := t.DiscardEntriesBefore(k + 1));
    forall j: LogIndex
      ensures TakeSnapshot(n).store.firstIndex == k + 1
      ensures TakeSnapshot(n).store.GetEntry(j) == if j > k then n.store.GetEntry(j) else None
    {
      assert t.GetEntry(k) == n.store.GetEntry(k) && t.GetEntry(j) == n.store.GetEntry(j);
      DiscardsThrough(t, k, j);
    }
  }

  // A response makes the leader snapshot if and only if it commits, the new
  // commit index has reached the threshold and no stored snapshot has. The
  // snapshot is of the state machine then, at that index, and the log goes on
  // behind it; otherwise the store is not touched.
  lemma SnapshotsIff(n: Node, from: NodeId, m: Msg)
    requires m.AppendEntriesResponse? && m.term <= n.term
    ensures var d := OnMessage(n, from, m).node;
            var k := d.repl.commitIndex;
            if k > n.repl.commitIndex && k >= n.threshold &&
               (n.store.snapshot.Some? ==> n.store.snapshot.value.lastIncludedIndex < n.threshold)
            then SnapshotTaken(d.(store := n.store), d)
            else d.store == n.store
  {
    if Raises(n, from, m) {
      var n2 := Committing(n, from, m);
      if n2.repl.commitIndex > n.repl.commitIndex {
        TakesIff(n2);
      }
    } else {
      OthersCommitNothing(n, from, m);
    }
  }

  // The leader with a raising response counted, about to look at its threshold.
  lemma Committing(n: Node, from: NodeId, m: Msg) returns (n2: Node)
    requires Raises(n, from, m)
    ensures n2.store == n.store && n2.threshold == n.threshold && n2.codec == n.codec
    ensures n2.repl.commitIndex >= n.repl.commitIndex
    ensures n2.repl.commitIndex > n.repl.commitIndex ==> n.store.GetEntry(n2.repl.commitIndex).Some?
    ensures OnMessage(n, from, m).node ==
            if n2.repl.commitIndex > n.repl.commitIndex && ShouldCreate(n2.threshold, n2.repl.commitIndex, n2.store)
            then TakeSnapshot(n2) else n2
  {
    var a := AdvanceCommitIndex(Recorded(n, from, m), n.store, n.sm, n.config.members, n.id);
    n2 := ApplyConfigChanges(n.(repl := a.repl, sm := a.sm), a.changes);
    ChangesKeepIndices(Changed(n.config, a.repl, n.role), n.id, n.store.LastLogIndex(), a.changes);
  }
}
