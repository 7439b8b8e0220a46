// Membership over a run of one node: members stay distinct, and each change
// that takes effect alters them by one node.
module Membership {
  import opened Types
  import opened Configurations
  import opened Storage
  import opened Replication
  import opened ConfigChanges
  import opened Nodes
  import opened NodeRuns
  import opened Recovery
  import opened MembershipSteps

  // A change that alters the membership by exactly one node.
  predicate Fitting(members: seq<NodeId>, c: ConfigurationChange) {
    match c
    case AddServer(x) => x !in members
    case RemoveServer(x) => x in members && |members| >= 2
  }

  // Memberships that differ by at most one node.
  ghost predicate Adjacent(a: seq<NodeId>, b: seq<NodeId>) {
    || a == b
    || (|b| == |a| + 1 && Elements(a) <= Elements(b))
    || (|a| == |b| + 1 && Elements(b) <= Elements(a))
  }

  lemma {:induction false} WithoutFacts(members: seq<NodeId>, x: NodeId)
    requires Distinct(members)
    ensures var r := Configurations.Without(members, x);
            Distinct(r) && |r| == |members| - (if x in members then 1 else 0) && Elements(r) == Elements(members) - {x}
  {
    var r := Configurations.Without(members, x);
    if members != [] {
      var init, last := members[..|members| - 1], members[|members| - 1];
      assert members == init + [last];
      WithoutFacts(init, x);
      assert last !in init;
    }
  }

  lemma ResultingFacts(members: seq<NodeId>, c: ConfigurationChange)
    requires Distinct(members) && members != [] && Fitting(members, c)
    ensures var r := Resulting(members, c);
            && Distinct(r) && r != [] && Adjacent(members, r)
            && (|r| == |members| + 1 || |r| == |members| - 1)
  {
    match c
    case AddServer(x) =>
    case RemoveServer(x) => WithoutFacts(members, x);
  }

  // Any majority of one membership meets any majority of the next: what makes
  // changing one node at a time safe (section 4.1 of Ongaro's dissertation).
  lemma MajoritiesMeet(a: seq<NodeId>, b: seq<NodeId>, p: set<NodeId>, q: set<NodeId>) returns (v: NodeId)
    requires Distinct(a) && Distinct(b) && Adjacent(a, b)
    requires Quorum(p, Elements(a)) && Quorum(q, Elements(b))
    ensures v in p && v in q
  {
    DistinctCardinality(a);
    DistinctCardinality(b);
    var all := if |a| <= |b| then Elements(b) else Elements(a);
    CardinalityMonotone(p + q, all);
    assert |p + q| == |p| + |q| - |p * q|;
    v :| v in p * q;
  }

  // --- The entry that changes the membership ---

  function ChangeAt(s: Store, i: LogIndex): Option<ConfigurationChange> {
    match s.GetEntry(i)
    case Some(LogEntry(_, ConfigChange(c))) => Some(c)
    case _ => None
  }

  predicate Pending(s: Store, index: LogIndex, i: LogIndex) { i > index && ChangeAt(s, i).Some? }

  // At most one change lies behind an index, and it fits the membership.
  ghost predicate OnePending(s: Store, index: LogIndex, members: seq<NodeId>) {
    && (forall i: LogIndex, j: LogIndex :: Pending(s, index, i) && Pending(s, index, j) ==> i == j)
    && forall i: LogIndex :: Pending(s, index, i) ==> Fitting(members, ChangeAt(s, i).value)
  }

  // A membership of distinct nodes, at least one, and at most one change that
  // is not applied yet.
  ghost predicate Sane(n: Node) {
    && Distinct(n.config.members) && n.config.members != []
    && n.repl.commitIndex <= n.repl.lastApplied
    && 1 <= n.store.firstIndex <= SnapshotIndex(n.store) + 1 <= n.repl.lastApplied + 1
    && OnePending(n.store, n.repl.lastApplied, n.config.members)
  }

  // The change that is not applied yet is the one the node tracks.
  ghost predicate Tracks(n: Node) {
    forall i: LogIndex :: Pending(n.store, n.repl.lastApplied, i) ==> n.config.pendingChange == Some(i)
  }

  // What the invariant asks of an input. Another leader's entries may bring one
  // change, as may Event::ConfigChange, which asks no questions; a change is
  // asked for where the node tracks what is pending, and a node that has already
  // left is not asked to remove itself; a restart is given distinct peers.
  ghost predicate Driven(n: Node, i: Input) {
    match i
    case Handle(Message(_, AppendEntries(_, _, _, _, _))) =>
      OnePending(LogOf(n, i), n.repl.lastApplied, n.config.members)
    case Handle(SubmitChange(_)) => OnePending(LogOf(n, i), n.repl.lastApplied, n.config.members)
    case Handle(_) => true
    case Add(x) => Adding(n, x).Ok? ==> Tracks(n)
    case Remove(x) => Removing(n, x).Ok? ==> Tracks(n) && (x == n.id ==> n.id in n.config.members)
    case Reboot(peers) =>
      Distinct([n.id] + peers) && OnePending(n.store, SnapshotIndex(n.store), [n.id] + peers)
  }

  // What the changes applied by one step do to a membership.
  ghost predicate Moved(before: seq<NodeId>, after: seq<NodeId>, changes: seq<IndexedChange>) {
    match |changes|
    case 0 => after == before
    case 1 => Fitting(before, changes[0].change) && after == Resulting(before, changes[0].change)
    case _ => false
  }

  lemma {:induction false} AtMostOne(s: Store, from: LogIndex, upTo: LogIndex, members: seq<NodeId>)
    requires OnePending(s, from, members)
    ensures |ChangesIn(s, from, upTo)| <= 1
    ensures ChangesIn(s, from, upTo) != [] ==>
              var c := ChangesIn(s, from, upTo)[0];
              c.index <= upTo && Pending(s, from, c.index) && ChangeAt(s, c.index) == Some(c.change)
    decreases upTo
  {
    if from < upTo {
      AtMostOne(s, from, upTo - 1, members);
      assert ChangeAt(s, upTo).Some? ==> Pending(s, from, upTo);
    }
  }

  // Applying what lies between two indices applies at most the one change.
  lemma AppliesOne(members: seq<NodeId>, s: Store, from: LogIndex, upTo: LogIndex, after: seq<NodeId>)
    requires Distinct(members) && members != [] && OnePending(s, from, members)
    requires after == Altered(members, ChangesIn(s, from, upTo))
    ensures Moved(members, after, ChangesIn(s, from, upTo)) && Distinct(after) && after != []
    ensures OnePending(s, Max(from, upTo), after)
  {
    var changes := ChangesIn(s, from, upTo);
    AtMostOne(s, from, upTo, members);
    forall i: LogIndex ensures Pending(s, Max(from, upTo), i) ==> Pending(s, from, i) {
    }
    if changes != [] {
      assert changes[..0] == [];
      ResultingFacts(members, changes[0].change);
      forall i: LogIndex ensures !Pending(s, Max(from, upTo), i) {
        assert Pending(s, from, changes[0].index);
      }
    }
  }

  // Behind what is applied, a step leaves the log it wrote as it is.
  ghost predicate Holds(n: Node, s: Store, d: Node) {
    && 1 <= d.store.firstIndex <= SnapshotIndex(d.store) + 1 <= d.repl.lastApplied + 1
    && forall k: LogIndex :: k > d.repl.lastApplied ==> d.store.GetEntry(k) == s.GetEntry(k)
  }

  lemma SameHolds(n: Node, s: Store, d: Node)
    requires Sane(n) && n.repl.lastApplied <= d.repl.lastApplied
    requires d.store.log == s.log && d.store.firstIndex == s.firstIndex == n.store.firstIndex
    requires d.store.snapshot == n.store.snapshot
    ensures Holds(n, s, d)
  {
  }

  lemma CompactedHolds(n: Node)
    requires 1 <= n.store.firstIndex <= SnapshotIndex(n.store) + 1 <= n.repl.lastApplied + 1
    requires n.repl.commitIndex <= n.repl.lastApplied
    ensures Holds(n, n.store, TakeSnapshot(n))
  {
  }

  lemma MessageHolds(n: Node, from: NodeId, m: Msg)
    requires Sane(n) && !m.InstallSnapshot?
    requires n.repl.lastApplied <= OnMessage(n, from, m).node.repl.lastApplied
    requires OnMessage(n, from, m).node.repl.commitIndex <= OnMessage(n, from, m).node.repl.lastApplied
    ensures Holds(n, LogOf(n, Handle(Message(from, m))), OnMessage(n, from, m).node)
  {
    var d := OnMessage(n, from, m).node;
    if m.AppendEntries? {
      AppendFollows(n, from, m);
      AppendWithin(n, from, m);
      WindowStays(n, Handle(Message(from, m)));
      SameHolds(n, LogOf(n, Handle(Message(from, m))), d);
    } else if m.AppendEntriesResponse? {
      ResponseHolds(n, from, m, d);
    } else {
      SameHolds(n, n.store, d);
    }
  }

  lemma ResponseHolds(n: Node, from: NodeId, m: Msg, d: Node)
    requires Sane(n) && m.AppendEntriesResponse? && d == OnMessage(n, from, m).node
    requires n.repl.lastApplied <= d.repl.lastApplied && d.repl.commitIndex <= d.repl.lastApplied
    ensures Holds(n, n.store, d)
  {
    if n.role == Leader && m.term == n.term {
      var a := HandleAppendEntriesResponse(n.repl, from, m.success, m.matchIndex, n.store, n.sm, n.config.members,
                                           n.id);
      ChangesKeepIndices(Changed(n.config, a.repl, n.role), n.id, n.store.LastLogIndex(), a.changes);
      var n2 := ApplyConfigChanges(n.(repl := a.repl, sm := a.sm), a.changes);
      if d == TakeSnapshot(n2) {
        CompactedHolds(n2);
      } else {
        SameHolds(n, n.store, d);
      }
    } else {
      SameHolds(n, n.store, d);
    }
  }

  lemma StepHolds(n: Node, i: Input, d: Node)
    requires Sane(n) && !Completes(i) && !i.Reboot? && d == React(n, i).node
    requires n.repl.lastApplied <= d.repl.lastApplied && d.repl.commitIndex <= d.repl.lastApplied
    ensures Holds(n, LogOf(n, i), d)
  {
    match i
    case Handle(Message(from, m)) => MessageHolds(n, from, m);
    case Handle(ClientCommand(payload)) =>
      ProposalWithin(n, Command(payload));
      SameHolds(n, LogOf(n, i), d);
    case Handle(SubmitChange(change)) =>
      ProposalWithin(n, ConfigChange(change));
      SameHolds(n, LogOf(n, i), d);
    case Handle(TimerFired(_)) => SameHolds(n, n.store, d);
    case Add(node) =>
      TrackedWithin(n, Adding(n, node));
      SameHolds(n, LogOf(n, i), d);
    case Remove(node) =>
      TrackedWithin(n, Removing(n, node));
      SameHolds(n, LogOf(n, i), d);
  }

  // A change that is let through alters the membership by one node, with one
  // exception: a leader that is no longer a member may still be told to remove
  // itself, and that removes nobody.
  lemma AcceptedChangeFits(n: Node, node: NodeId)
    requires n.config.members != []
    ensures Adding(n, node).Ok? ==> Fitting(n.config.members, Adding(n, node).value)
    ensures Removing(n, node).Ok? ==>
              (Fitting(n.config.members, Removing(n, node).value) <==> node != n.id || n.id in n.config.members)
  {
  }

  // Where the node tracks what is pending, a change is let through only when
  // nothing is.
  lemma LetThroughAlone(n: Node, change: Result<ConfigurationChange, ConfigError>)
    requires Sane(n) && Tracks(n) && change.Ok?
    requires !InProgress(n.config, n.repl.commitIndex) && Fitting(n.config.members, change.value)
    ensures OnePending(Tracked(n, change), n.repl.lastApplied, n.config.members)
    ensures forall k: LogIndex ::
              Pending(Tracked(n, change), n.repl.lastApplied, k) ==> k == n.store.LastLogIndex() + 1 && n.role == Leader
  {
    var s, la := Tracked(n, change), n.repl.lastApplied;
    forall k: LogIndex
      ensures Pending(s, la, k) ==>
                k == n.store.LastLogIndex() + 1 && n.role == Leader && ChangeAt(s, k) == Some(change.value)
    {
      assert !Pending(n.store, la, k);
      assert k != n.store.LastLogIndex() + 1 ==> s.GetEntry(k) == n.store.GetEntry(k);
    }
  }

  lemma CommandPending(n: Node, payload: string)
    requires Sane(n)
    ensures OnePending(Proposed(n, Command(payload)), n.repl.lastApplied, n.config.members)
    ensures forall k: LogIndex :: Pending(Proposed(n, Command(payload)), n.repl.lastApplied, k) ==>
                                    Pending(n.store, n.repl.lastApplied, k)
  {
    var s := Proposed(n, Command(payload));
    forall k: LogIndex
      ensures Pending(s, n.repl.lastApplied, k) ==>
                Pending(n.store, n.repl.lastApplied, k) && ChangeAt(s, k) == ChangeAt(n.store, k)
    {
      assert k != n.store.LastLogIndex() + 1 ==> s.GetEntry(k) == n.store.GetEntry(k);
    }
  }

  // A driven step writes at most one change that is not applied.
  lemma DrivenPending(n: Node, i: Input)
    requires Sane(n) && Driven(n, i) && !Completes(i) && !i.Reboot?
    ensures OnePending(LogOf(n, i), n.repl.lastApplied, n.config.members)
  {
    match i
    case Handle(ClientCommand(payload)) => CommandPending(n, payload);
    case Add(node) =>
      AcceptedChangeFits(n, node);
      if Adding(n, node).Ok? {
        LetThroughAlone(n, Adding(n, node));
      }
    case Remove(node) =>
      AcceptedChangeFits(n, node);
      if Removing(n, node).Ok? {
        LetThroughAlone(n, Removing(n, node));
      }
    case _ =>
  }

  lemma HeldPending(n: Node, s: Store, d: Node)
    requires Holds(n, s, d) && OnePending(s, d.repl.lastApplied, d.config.members)
    ensures OnePending(d.store, d.repl.lastApplied, d.config.members)
  {
    forall k: LogIndex
      ensures Pending(d.store, d.repl.lastApplied, k) ==>
                Pending(s, d.repl.lastApplied, k) && ChangeAt(d.store, k) == ChangeAt(s, k)
    {
    }
  }

  lemma InstallSane(n: Node, from: NodeId, m: Msg)
    requires Sane(n) && m.InstallSnapshot?
    ensures Sane(OnMessage(n, from, m).node) && OnMessage(n, from, m).node.config == n.config
  {
    InstallKeepsMembers(n, from, m);
    if Installs(n, m) {
      Installed(n, from, m);
      InstalledSane(n, m, OnMessage(n, from, m).node);
    } else {
      NotInstalled(n, from, m);
      UnchangedSane(n, OnMessage(n, from, m).node);
    }
  }

  lemma UnchangedSane(n: Node, d: Node)
    requires Sane(n) && d.config == n.config && d.repl == n.repl
    requires d.store.log == n.store.log && d.store.firstIndex == n.store.firstIndex
    requires d.store.snapshot == n.store.snapshot
    ensures Sane(d)
  {
    forall k: LogIndex
      ensures Pending(d.store, d.repl.lastApplied, k) ==>
                Pending(n.store, n.repl.lastApplied, k) && ChangeAt(d.store, k) == ChangeAt(n.store, k)
    {
    }
  }

  lemma InstalledSane(n: Node, m: Msg, d: Node)
    requires Sane(n) && m.InstallSnapshot? && Installs(n, m) && AfterInstall(n, m, d) && d.config == n.config
    ensures Sane(d)
  {
    forall k: LogIndex
      ensures Pending(d.store, d.repl.lastApplied, k) ==>
                Pending(n.store, n.repl.lastApplied, k) && ChangeAt(d.store, k) == ChangeAt(n.store, k)
    {
    }
  }

  // The changes a step applies; an installed snapshot applies none.
  function Applying(n: Node, i: Input): seq<IndexedChange> {
    if Completes(i) then [] else ChangesIn(LogOf(n, i), n.repl.lastApplied, React(n, i).node.repl.commitIndex)
  }

  lemma StepMoves(n: Node, i: Input, d: Node)
    requires Sane(n) && Driven(n, i) && d == React(n, i).node
    ensures Sane(d)
    ensures i.Reboot? ==> d.config.members == [n.id] + i.peers
    ensures !i.Reboot? ==> Moved(n.config.members, d.config.members, Applying(n, i))
  {
    if i.Reboot? {
    } else if Completes(i) {
      InstallSane(n, i.event.from, i.event.msg);
    } else {
      DrivenPending(n, i);
      StepFollows(n, i);
      AppliesOne(n.config.members, LogOf(n, i), n.repl.lastApplied, d.repl.commitIndex, d.config.members);
      StepHolds(n, i, d);
      HeldPending(n, LogOf(n, i), d);
    }
  }

  ghost predicate DrivenAt(r: NodeRun, i: nat) {
    i < |r.inputs| && i < |r.states| ==> Driven(r.states[i], r.inputs[i])
  }

  // A run of one node through any roles, from any state in which at most one
  // change is not applied.
  ghost predicate IsDrivenRun(r: NodeRun) {
    && |r.states| == |r.inputs| + 1
    && Sane(r.states[0])
    && (forall i: nat :: ReactsAt(r, i))
    && forall i: nat :: DrivenAt(r, i)
  }

  lemma {:induction false} RunSane(r: NodeRun, i: nat)
    requires IsDrivenRun(r) && i < |r.states|
    ensures Sane(r.states[i])
  {
    if i > 0 {
      RunSane(r, i - 1);
      assert ReactsAt(r, i - 1) && DrivenAt(r, i - 1);
      StepMoves(r.states[i - 1], r.inputs[i - 1], r.states[i]);
    }
  }

  // Throughout, members are distinct and there is at least one, and no two
  // changes are pending at once: at most one index holds a change that the node
  // has not applied.
  lemma MembershipStaysSound(r: NodeRun, i: nat)
    requires IsDrivenRun(r) && i < |r.states|
    ensures var n := r.states[i];
            && Distinct(n.config.members) && n.config.members != []
            && forall j: LogIndex, k: LogIndex ::
                 Pending(n.store, n.repl.lastApplied, j) && Pending(n.store, n.repl.lastApplied, k) ==> j == k
  {
    RunSane(r, i);
  }

  // Each step other than a restart applies at most one change, and the
  // membership grows or shrinks by exactly one node if it does, and stays the
  // same if it does not; so any majority before meets any majority after.
  lemma MembershipMovesByOne(r: NodeRun, i: nat, p: set<NodeId>, q: set<NodeId>) returns (v: NodeId)
    requires IsDrivenRun(r) && i < |r.inputs| && !r.inputs[i].Reboot?
    requires Quorum(p, Elements(r.states[i].config.members)) && Quorum(q, Elements(r.states[i + 1].config.members))
    ensures var a, b := r.states[i].config.members, r.states[i + 1].config.members;
            var changes := Applying(r.states[i], r.inputs[i]);
            && |changes| <= 1
            && (changes == [] ==> b == a)
            && (changes != [] ==> b == Resulting(a, changes[0].change) && (|b| == |a| + 1 || |b| == |a| - 1))
    ensures v in p && v in q
  {
    var n, d := r.states[i], r.states[i + 1];
    RunSane(r, i);
    RunSane(r, i + 1);
    assert ReactsAt(r, i) && DrivenAt(r, i);
    StepMoves(n, r.inputs[i], d);
    v := MovedMeets(n.config.members, d.config.members, Applying(n, r.inputs[i]), p, q);
  }

  lemma MovedMeets(a: seq<NodeId>, b: seq<NodeId>, changes: seq<IndexedChange>, p: set<NodeId>, q: set<NodeId>)
    returns (v: NodeId)
    requires Distinct(a) && a != [] && Distinct(b) && Moved(a, b, changes)
    requires Quorum(p, Elements(a)) && Quorum(q, Elements(b))
    ensures |changes| <= 1
    ensures changes != [] ==> b == Resulting(a, changes[0].change) && (|b| == |a| + 1 || |b| == |a| - 1)
    ensures v in p && v in q
  {
    if changes != [] {
      ResultingFacts(a, changes[0].change);
    }
    v := MajoritiesMeet(a, b, p, q);
  }

  // --- One leader ---

  // The inputs that come in while one node leads or nobody does: no other
  // leader's messages, no Event::ConfigChange and no restart.
  predicate ByOneLeader(n: Node, i: Input) {
    match i
    case Handle(Message(_, m)) => !m.AppendEntries? && !m.InstallSnapshot?
    case Handle(SubmitChange(_)) => false
    case Handle(_) => true
    case Add(_) => true
    case Remove(x) => x == n.id ==> n.id in n.config.members
    case Reboot(_) => false
  }

  // What is pending is still tracked: applied changes come before it.
  lemma StillTracked(n: Node, s: Store, d: Node)
    requires Follows(n, s, d) && Settles(n, s, d) && Holds(n, s, d)
    requires OnePending(s, n.repl.lastApplied, n.config.members)
    requires forall k: LogIndex :: Pending(s, n.repl.lastApplied, k) ==> n.config.pendingChange == Some(k)
    ensures Tracks(d)
  {
    AtMostOne(s, n.repl.lastApplied, d.repl.commitIndex, n.config.members);
    forall k: LogIndex ensures Pending(d.store, d.repl.lastApplied, k) ==> d.config.pendingChange == Some(k) {
      assert Pending(d.store, d.repl.lastApplied, k) ==> Pending(s, n.repl.lastApplied, k);
    }
  }

  lemma NewlyTracked(n: Node, change: Result<ConfigurationChange, ConfigError>)
    requires Sane(n) && Tracks(n) && n.role == Leader && change.Ok?
    requires !InProgress(n.config, n.repl.commitIndex) && Fitting(n.config.members, change.value)
    requires Holds(n, Tracked(n, change), SubmitTracked(n, change).step.node)
    requires n.repl.lastApplied <= SubmitTracked(n, change).step.node.repl.lastApplied
    ensures Tracks(SubmitTracked(n, change).step.node)
  {
    var d := SubmitTracked(n, change).step.node;
    LetThroughAlone(n, change);
    forall k: LogIndex ensures Pending(d.store, d.repl.lastApplied, k) ==> d.config.pendingChange == Some(k) {
      assert Pending(d.store, d.repl.lastApplied, k) ==> Pending(Tracked(n, change), n.repl.lastApplied, k);
    }
  }

  // There the check on pending changes is enough: a step is driven, and what is
  // pending after it is tracked.
  lemma OneLeaderStep(n: Node, i: Input, d: Node)
    requires Sane(n) && Tracks(n) && ByOneLeader(n, i) && d == React(n, i).node
    ensures Driven(n, i) && Tracks(d)
  {
    DrivenPending(n, i);
    StepFollows(n, i);
    StepHolds(n, i, d);
    match i
    case Handle(ClientCommand(payload)) =>
      CommandPending(n, payload);
      StillTracked(n, LogOf(n, i), d);
    case Handle(_) => StillTracked(n, n.store, d);
    case Add(node) =>
      AcceptedChangeFits(n, node);
      if Adding(n, node).Ok? {
        NewlyTracked(n, Adding(n, node));
      }
    case Remove(node) =>
      AcceptedChangeFits(n, node);
      if Removing(n, node).Ok? {
        NewlyTracked(n, Removing(n, node));
      }
  }

  ghost predicate OneLeaderAt(r: NodeRun, i: nat) {
    i < |r.inputs| && i < |r.states| ==> ByOneLeader(r.states[i], r.inputs[i])
  }

  lemma {:induction false} OneLeaderUpTo(r: NodeRun, i: nat)
    requires |r.states| == |r.inputs| + 1 && Sane(r.states[0]) && Tracks(r.states[0]) && i < |r.states|
    requires (forall j: nat :: ReactsAt(r, j)) && forall j: nat :: OneLeaderAt(r, j)
    ensures Sane(r.states[i]) && Tracks(r.states[i]) && (i > 0 ==> DrivenAt(r, i - 1))
  {
    if i > 0 {
      OneLeaderUpTo(r, i - 1);
      assert ReactsAt(r, i - 1) && OneLeaderAt(r, i - 1);
      OneLeaderStep(r.states[i - 1], r.inputs[i - 1], r.states[i]);
      StepMoves(r.states[i - 1], r.inputs[i - 1], r.states[i]);
    }
  }

  // So while one leader drives the changes, the results above need nothing else.
  lemma OneLeaderDrives(r: NodeRun)
    requires |r.states| == |r.inputs| + 1 && Sane(r.states[0]) && Tracks(r.states[0])
    requires (forall j: nat :: ReactsAt(r, j)) && forall j: nat :: OneLeaderAt(r, j)
    ensures IsDrivenRun(r)
  {
    forall i: nat ensures DrivenAt(r, i) {
      if i < |r.inputs| {
        OneLeaderUpTo(r, i + 1);
      }
    }
  }
}
