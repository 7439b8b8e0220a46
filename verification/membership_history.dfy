// Membership across crashes. A node's membership is not stored: it starts from
// the peers the node is given and follows the configuration changes it applies.
// What that amounts to over runs with restarts, snapshots and installs.
module MembershipHistory {
  import opened Types
  import opened StateMachines
  import opened Configurations
  import opened Storage
  import opened Elections
  import opened Replication
  import opened ConfigChanges
  import opened Nodes
  import opened NodeRuns
  import opened Recovery
  import opened MembershipSteps
  import opened Membership

  function Next(members: seq<NodeId>, e: LogEntry): seq<NodeId> {
    match e.entryType
    case ConfigChange(c) => Resulting(members, c)
    case Command(_) => members
  }

  // A membership after the changes among some entries.
  function MembersAfter(base: seq<NodeId>, entries: Log): seq<NodeId> {
    if entries == [] then base
    else Next(MembersAfter(base, entries[..|entries| - 1]), entries[|entries| - 1])
  }

  // The entries after one index through another.
  function Part(history: Log, from: LogIndex, to: LogIndex): Log {
    if from <= to <= |history| then history[from..to] else []
  }

  lemma {:induction false} AfterConcat(base: seq<NodeId>, a: Log, b: Log)
    ensures MembersAfter(base, a + b) == MembersAfter(MembersAfter(base, a), b)
  {
    if b == [] {
      assert a + b == a;
    } else {
      var init, last := b[..|b| - 1], b[|b| - 1];
      assert (a + b)[..|a + b| - 1] == a + init && (a + b)[|a + b| - 1] == last;
      AfterConcat(base, a, init);
    }
  }

  lemma AfterParts(base: seq<NodeId>, history: Log, a: LogIndex, b: LogIndex, c: LogIndex)
    requires a <= b <= c <= |history|
    ensures MembersAfter(MembersAfter(base, Part(history, a, b)), Part(history, b, c)) ==
            MembersAfter(base, Part(history, a, c))
  {
    AfterConcat(base, history[a..b], history[b..c]);
    assert history[a..b] + history[b..c] == history[a..c];
  }

  // --- One step ---

  lemma AlteredOnce(members: seq<NodeId>, changes: seq<IndexedChange>, c: IndexedChange)
    ensures Altered(members, changes + [c]) == Resulting(Altered(members, changes), c.change)
  {
    assert (changes + [c])[..|changes|] == changes;
  }

  lemma AfterEntry(members: seq<NodeId>, entries: Log, e: LogEntry)
    ensures MembersAfter(members, entries + [e]) == Next(MembersAfter(members, entries), e)
  {
    assert (entries + [e])[..|entries|] == entries;
  }

  lemma AfterOnce(members: seq<NodeId>, history: Log, a: LogIndex, b: LogIndex)
    requires a < b <= |history|
    ensures MembersAfter(members, Part(history, a, b)) ==
            Next(MembersAfter(members, Part(history, a, b - 1)), history[b - 1])
  {
    AfterEntry(members, history[a..b - 1], history[b - 1]);
    assert history[a..b] == history[a..b - 1] + [history[b - 1]];
  }

  // The changes a log holds between two indices are those of the history.
  lemma {:induction false} AltersAsHistory(members: seq<NodeId>, s: Store, a: LogIndex, b: LogIndex, history: Log)
    requires b <= |history| && Agrees(s, b, history) && s.firstIndex <= a + 1
    requires forall k :: a < k <= b ==> s.GetEntry(k).Some?
    ensures Altered(members, ChangesIn(s, a, b)) == MembersAfter(members, Part(history, a, b))
    decreases b
  {
    if a < b {
      AltersAsHistory(members, s, a, b - 1, history);
      AfterOnce(members, history, a, b);
      assert s.GetEntry(b) == Some(history[b - 1]);
      if history[b - 1].entryType.ConfigChange? {
        AlteredOnce(members, ChangesIn(s, a, b - 1), IndexedChange(b, history[b - 1].entryType.change));
      } else {
        assert ChangesIn(s, a, b) == ChangesIn(s, a, b - 1);
      }
    }
  }

  // What a step other than a restart or a completed install does, in terms of
  // the history.
  lemma StepMembers(n: Node, i: Input, d: Node, history: Log)
    requires Recoverable(n, history) && n.codec.Faithful() && Sound(n, i, history) && d == React(n, i).node
    requires !Completes(i) && !i.Reboot?
    ensures n.repl.lastApplied <= d.repl.lastApplied
    ensures d.config.members ==
            MembersAfter(n.config.members, Part(history, n.repl.lastApplied, d.repl.lastApplied))
    ensures SnapshotIndex(n.store) <= SnapshotIndex(d.store) <= d.repl.lastApplied <= |history|
  {
    StepRecovers(n, i, d, history);
    StepFollows(n, i);
    WindowAdvances(n, i);
    var s, a, b := LogOf(n, i), n.repl.lastApplied, d.repl.commitIndex;
    WindowStays(n, i);
    if a < b {
      AltersAsHistory(n.config.members, s, a, b, history);
    }
  }

  predicate InstallsAt(n: Node, i: Input) { Completes(i) && Installs(n, i.event.msg) }

  // A snapshot message leaves the membership alone, and one that completes a
  // snapshot takes lastApplied to it.
  lemma SnapshotMembers(n: Node, i: Input, d: Node, history: Log)
    requires Recoverable(n, history) && Sound(n, i, history) && d == React(n, i).node && Completes(i)
    ensures d.config == n.config
    ensures if Installs(n, i.event.msg) then
              n.repl.lastApplied <= d.repl.lastApplied == i.event.msg.lastIncludedIndex == SnapshotIndex(d.store) &&
              d.repl.lastApplied <= |history|
            else d.repl.lastApplied == n.repl.lastApplied && SnapshotIndex(d.store) == SnapshotIndex(n.store)
  {
    InstallKeepsMembers(n, i.event.from, i.event.msg);
    if Installs(n, i.event.msg) {
      Installed(n, i.event.from, i.event.msg);
    } else {
      NotInstalled(n, i.event.from, i.event.msg);
    }
  }

  lemma RebootMembers(n: Node, peers: seq<NodeId>, d: Node)
    requires d == React(n, Reboot(peers)).node
    ensures d.config.members == [n.id] + peers
    ensures d.repl.lastApplied == SnapshotIndex(n.store) == SnapshotIndex(d.store)
  {
  }

  // --- Runs ---

  // The membership the node had as of its stored snapshot, or as it started.
  function AsOf(r: NodeRun, i: nat, history: Log): seq<NodeId>
    requires i < |r.states|
  {
    if i == 0 || i > |r.inputs| || r.inputs[i - 1].Reboot? || InstallsAt(r.states[i - 1], r.inputs[i - 1])
    then r.states[i].config.members
    else MembersAfter(AsOf(r, i - 1, history),
                      Part(history, SnapshotIndex(r.states[i - 1].store), SnapshotIndex(r.states[i].store)))
  }

  ghost predicate AsOfAt(r: NodeRun, i: nat, history: Log) {
    i < |r.states| ==>
      r.states[i].config.members ==
      MembersAfter(AsOf(r, i, history), Part(history, SnapshotIndex(r.states[i].store), r.states[i].repl.lastApplied))
  }

  lemma Start(r: NodeRun, history: Log)
    requires SoundRun(r, history)
    ensures r.states[0].repl.lastApplied == SnapshotIndex(r.states[0].store) == 0
  {
  }

  // What is known of the two ends of a step of a run.
  lemma StepOfRun(r: NodeRun, i: nat, history: Log)
    requires SoundRun(r, history) && i < |r.inputs|
    ensures Recoverable(r.states[i], history) && r.states[i].codec.Faithful()
    ensures Sound(r.states[i], r.inputs[i], history) && r.states[i + 1] == React(r.states[i], r.inputs[i]).node
    ensures SnapshotIndex(r.states[i].store) <= r.states[i].repl.lastApplied <= |history|
  {
    RunRecovers(r, i, history);
    assert RecoverableAt(r, i, history);
    assert ReactsAt(r, i) && SoundAt(r, i, history);
  }

  lemma NextAsOf(r: NodeRun, i: nat, history: Log)
    requires SoundRun(r, history) && i < |r.inputs| && AsOfAt(r, i, history)
    ensures AsOfAt(r, i + 1, history)
  {
    var n, d, input := r.states[i], r.states[i + 1], r.inputs[i];
    StepOfRun(r, i, history);
    var base, s, t := AsOf(r, i, history), SnapshotIndex(n.store), SnapshotIndex(d.store);
    if input.Reboot? {
      RebootMembers(n, input.peers, d);
    } else if Completes(input) {
      SnapshotMembers(n, input, d, history);
    } else {
      StepMembers(n, input, d, history);
      AfterParts(base, history, s, n.repl.lastApplied, d.repl.lastApplied);
      AfterParts(base, history, s, t, d.repl.lastApplied);
    }
  }

  // In every state, the membership is that as of the snapshot, followed by the
  // changes from there to lastApplied.
  lemma {:induction false} MembersFollowHistory(r: NodeRun, i: nat, history: Log)
    requires SoundRun(r, history) && i < |r.states|
    ensures r.states[i].config.members ==
            MembersAfter(AsOf(r, i, history),
                         Part(history, SnapshotIndex(r.states[i].store), r.states[i].repl.lastApplied))
    ensures AsOfAt(r, i, history)
  {
    if i == 0 {
      Start(r, history);
    } else {
      MembersFollowHistory(r, i - 1, history);
      NextAsOf(r, i - 1, history);
    }
  }

  // --- Restarts ---

  ghost predicate Undisturbed(r: NodeRun, i: nat) {
    i < |r.inputs| && i < |r.states| ==> !r.inputs[i].Reboot? && !InstallsAt(r.states[i], r.inputs[i])
  }

  // While a node neither restarts nor installs a snapshot, it applies all
  // changes it passes.
  lemma {:induction false} Through(r: NodeRun, i: nat, j: nat, history: Log)
    requires SoundRun(r, history) && i <= j < |r.states|
    requires forall k: nat :: i <= k < j ==> Undisturbed(r, k)
    ensures r.states[i].repl.lastApplied <= r.states[j].repl.lastApplied <= |history|
    ensures r.states[j].config.members ==
            MembersAfter(r.states[i].config.members,
                         Part(history, r.states[i].repl.lastApplied, r.states[j].repl.lastApplied))
  {
    if i == j {
      RunRecovers(r, i, history);
    } else {
      Through(r, i, j - 1, history);
      StepOfRun(r, j - 1, history);
      assert Undisturbed(r, j - 1);
      var n, d, input := r.states[j - 1], r.states[j], r.inputs[j - 1];
      if Completes(input) {
        SnapshotMembers(n, input, d, history);
      } else {
        StepMembers(n, input, d, history);
        AfterParts(r.states[i].config.members, history, r.states[i].repl.lastApplied, n.repl.lastApplied,
                   d.repl.lastApplied);
      }
    }
  }

  // The nodes that some entries remove.
  function Gone(entries: Log): set<NodeId> {
    if entries == [] then {}
    else
      Gone(entries[..|entries| - 1]) +
      match entries[|entries| - 1].entryType
      case ConfigChange(RemoveServer(x)) => {x}
      case _ => {}
  }

  // The members outside a set, in order.
  function Outside(members: seq<NodeId>, gone: set<NodeId>): seq<NodeId> {
    if members == [] then []
    else
      Outside(members[..|members| - 1], gone) +
      if members[|members| - 1] in gone then [] else [members[|members| - 1]]
  }

  lemma {:induction false} WithoutConcat(a: seq<NodeId>, b: seq<NodeId>, x: NodeId)
    ensures Configurations.Without(a + b, x) == Configurations.Without(a, x) + Configurations.Without(b, x)
  {
    if b == [] {
      assert a + b == a;
    } else {
      var init, last := b[..|b| - 1], b[|b| - 1];
      assert (a + b)[..|a + b| - 1] == a + init && (a + b)[|a + b| - 1] == last;
      WithoutConcat(a, init, x);
    }
  }

  lemma {:induction false} WithoutOutside(members: seq<NodeId>, gone: set<NodeId>, x: NodeId)
    ensures Configurations.Without(Outside(members, gone), x) == Outside(members, gone + {x})
  {
    if members != [] {
      var init, last := members[..|members| - 1], members[|members| - 1];
      WithoutOutside(init, gone, x);
      if last !in gone {
        var o := Outside(init, gone) + [last];
        assert o[..|o| - 1] == Outside(init, gone);
      } else {
        assert Outside(members, gone) == Outside(init, gone);
      }
    }
  }

  lemma {:induction false} OutsideNone(members: seq<NodeId>)
    ensures Outside(members, {}) == members
  {
    if members != [] {
      OutsideNone(members[..|members| - 1]);
    }
  }

  // What is added does not depend on where one starts.
  lemma {:induction false} AfterShape(base: seq<NodeId>, entries: Log)
    ensures MembersAfter(base, entries) == Outside(base, Gone(entries)) + MembersAfter([], entries)
  {
    if entries == [] {
      OutsideNone(base);
    } else {
      var init, last := entries[..|entries| - 1], entries[|entries| - 1];
      AfterShape(base, init);
      match last.entryType {
        case ConfigChange(RemoveServer(x)) =>
          WithoutConcat(Outside(base, Gone(init)), MembersAfter([], init), x);
          WithoutOutside(base, Gone(init), x);
        case _ => assert Gone(entries) == Gone(init);
      }
    }
  }

  lemma SameAfterIff(p: seq<NodeId>, q: seq<NodeId>, entries: Log)
    ensures MembersAfter(p, entries) == MembersAfter(q, entries) <==>
            Outside(p, Gone(entries)) == Outside(q, Gone(entries))
  {
    AfterShape(p, entries);
    AfterShape(q, entries);
    var x, y, z := Outside(p, Gone(entries)), Outside(q, Gone(entries)), MembersAfter([], entries);
    if x + z == y + z {
      assert x == (x + z)[..|x|] == (y + z)[..|y|] == y;
    }
  }

  // A restart, after which the node comes back to where it was: it has the
  // membership it had if and only if the peers it was restarted with and the
  // membership as of its snapshot agree on the nodes that the entries applied
  // again do not remove.
  lemma RestartKeepsMembersIff(r: NodeRun, b: nat, j: nat, history: Log)
    requires SoundRun(r, history) && b < j < |r.states| && r.inputs[b].Reboot?
    requires forall k: nat :: b < k < j ==> Undisturbed(r, k)
    requires r.states[j].repl.lastApplied == r.states[b].repl.lastApplied
    ensures var n := r.states[b];
            var again := Part(history, SnapshotIndex(n.store), n.repl.lastApplied);
            r.states[j].config.members == n.config.members <==>
            Outside([n.id] + r.inputs[b].peers, Gone(again)) == Outside(AsOf(r, b, history), Gone(again))
  {
    var n := r.states[b];
    StepOfRun(r, b, history);
    RebootMembers(n, r.inputs[b].peers, r.states[b + 1]);
    Through(r, b + 1, j, history);
    MembersFollowHistory(r, b, history);
    SameAfterIff([n.id] + r.inputs[b].peers, AsOf(r, b, history),
                 Part(history, SnapshotIndex(n.store), n.repl.lastApplied));
  }

  // --- The whole run ---

  // The membership the history gives a cluster that starts with these members.
  function Committed(first: seq<NodeId>, history: Log, index: LogIndex): seq<NodeId> {
    MembersAfter(first, Part(history, 0, index))
  }

  ghost predicate UpToDateAt(r: NodeRun, i: nat, history: Log) {
    i < |r.states| ==>
      r.states[i].config.members == Committed(r.states[0].config.members, history, r.states[i].repl.lastApplied)
  }

  // A restart is given the committed membership as of the snapshot, and an
  // installed snapshot passes over no change.
  ghost predicate RestoredAt(r: NodeRun, i: nat, history: Log) {
    i < |r.inputs| && i < |r.states| ==>
      var n, first := r.states[i], r.states[0].config.members;
      && (r.inputs[i].Reboot? ==>
            [n.id] + r.inputs[i].peers == Committed(first, history, SnapshotIndex(n.store)))
      && (InstallsAt(n, r.inputs[i]) ==>
            Committed(first, history, r.inputs[i].event.msg.lastIncludedIndex) ==
            Committed(first, history, n.repl.lastApplied))
  }

  lemma NextUpToDate(r: NodeRun, i: nat, history: Log)
    requires SoundRun(r, history) && i < |r.inputs| && UpToDateAt(r, i, history)
    ensures UpToDateAt(r, i + 1, history) <==> RestoredAt(r, i, history)
  {
    var n, d, input, first := r.states[i], r.states[i + 1], r.inputs[i], r.states[0].config.members;
    StepOfRun(r, i, history);
    if input.Reboot? {
      RebootMembers(n, input.peers, d);
    } else if Completes(input) {
      SnapshotMembers(n, input, d, history);
    } else {
      StepMembers(n, input, d, history);
      AfterParts(first, history, 0, n.repl.lastApplied, d.repl.lastApplied);
    }
  }

  lemma {:induction false} UpToDateUpTo(r: NodeRun, i: nat, history: Log)
    requires SoundRun(r, history) && i < |r.states|
    requires forall j: nat :: RestoredAt(r, j, history)
    ensures UpToDateAt(r, i, history)
  {
    if i == 0 {
      Start(r, history);
    } else {
      UpToDateUpTo(r, i - 1, history);
      assert RestoredAt(r, i - 1, history);
      NextUpToDate(r, i - 1, history);
    }
  }

  // A node's membership is the committed one at every moment of a run if and
  // only if every restart is given the one as of the snapshot and no installed
  // snapshot passes over a change: snapshots and storage carry no membership.
  lemma MembershipSurvivesIff(r: NodeRun, history: Log)
    requires SoundRun(r, history)
    ensures (forall i: nat :: UpToDateAt(r, i, history)) <==> (forall i: nat :: RestoredAt(r, i, history))
  {
    if forall i: nat :: RestoredAt(r, i, history) {
      forall i: nat ensures UpToDateAt(r, i, history) {
        if i < |r.states| {
          UpToDateUpTo(r, i, history);
        }
      }
    }
    if forall i: nat :: UpToDateAt(r, i, history) {
      forall i: nat ensures RestoredAt(r, i, history) {
        if i < |r.inputs| {
          assert UpToDateAt(r, i, history) && UpToDateAt(r, i + 1, history);
          NextUpToDate(r, i, history);
        }
      }
    }
  }

  // Every change alters the membership before it by one node.
  ghost predicate FitsAt(first: seq<NodeId>, history: Log, i: nat) {
    i < |history| && history[i].entryType.ConfigChange? ==>
      Fitting(Committed(first, history, i), history[i].entryType.change)
  }

  lemma {:induction false} CommittedSound(first: seq<NodeId>, history: Log, k: nat)
    requires Distinct(first) && first != [] && k <= |history| && forall i: nat :: FitsAt(first, history, i)
    ensures Distinct(Committed(first, history, k)) && Committed(first, history, k) != []
    ensures k > 0 ==> Adjacent(Committed(first, history, k - 1), Committed(first, history, k))
  {
    if k > 0 {
      CommittedSound(first, history, k - 1);
      AfterOnce(first, history, 0, k);
      assert FitsAt(first, history, k - 1);
      if history[k - 1].entryType.ConfigChange? {
        ResultingFacts(Committed(first, history, k - 1), history[k - 1].entryType.change);
      }
    }
  }

  // Then members stay distinct through crashes, elections and snapshots.
  lemma SurvivingMembersSound(r: NodeRun, i: nat, history: Log)
    requires SoundRun(r, history) && i < |r.states| && (forall j: nat :: RestoredAt(r, j, history))
    requires Distinct(r.states[0].config.members) && forall j: nat :: FitsAt(r.states[0].config.members, history, j)
    ensures Distinct(r.states[i].config.members) && r.states[i].config.members != []
    ensures UpToDateAt(r, i, history)
  {
    UpToDateUpTo(r, i, history);
    RunRecovers(r, i, history);
    CommittedSound(r.states[0].config.members, history, r.states[i].repl.lastApplied);
  }

  // --- Inputs at which it does not survive ---

  const JOIN := LogEntry(1, ConfigChange(AddServer(3)))

  // A follower that has committed the addition of node 3 is restarted with both
  // other members as its peers, and hears from its leader.
  function JoinInputs(): seq<Input> {
    [ Handle(Message(2, AppendEntries(1, 0, 0, [], 0))), Handle(Message(2, AppendEntries(1, 0, 0, [JOIN], 1))),
      Reboot([2, 3]), Handle(Message(2, AppendEntries(1, 1, 1, [], 1))) ]
  }

  function Follower1(codec: Codec, store: Store, applied: LogIndex, members: seq<NodeId>, term: Term): Node {
    Node(1, Follower, term, None, store, map[], EMPTY_ELECTION,
         EMPTY_REPL.(commitIndex := applied, lastApplied := applied), Config(members, None), 100, codec)
  }

  lemma JoinOnly(s: Store)
    requires s.log == [JOIN] && s.firstIndex == 1
    ensures ChangesIn(s, 0, 1) == [IndexedChange(1, AddServer(3))] && ApplyRange(map[], s, 0, 1) == map[]
  {
    assert ChangesIn(s, 0, 0) == [] && ApplyRange(map[], s, 0, 0) == map[];
    assert s.GetEntry(1) == Some(JOIN);
  }

  lemma JoinJoins(s: Changed, last: LogIndex)
    requires s.role == Follower && s.config.pendingChange == None
    ensures ApplyChanges(s, 1, last, [IndexedChange(1, AddServer(3))]) ==
            s.(config := s.config.(members := s.config.members + [3]))
  {
    assert [IndexedChange(1, AddServer(3))][..0] == [];
  }

  lemma JoinApplied(codec: Codec, n: Node, store: Store, members: seq<NodeId>, m: Msg)
    requires n == Follower1(codec, store, 0, members, 1) && store.currentTerm == 1 && store.firstIndex == 1
    requires (m == AppendEntries(1, 0, 0, [JOIN], 1) && store.log == []) ||
             (m == AppendEntries(1, 1, 1, [], 1) && store.log == [JOIN])
    ensures OnMessage(n, 2, m).node ==
            Follower1(codec, store.(log := [JOIN]), 1, members + [3], 1).(leaderHint := Some(2))
  {
    var s := store.(log := [JOIN]);
    JoinOnly(s);
    assert CheckLogConsistency(store, m.prevLogIndex, m.prevLogTerm);
    assert WriteEntries(store, m.prevLogIndex, m.entries) == s;
    var o := HandleAppendEntries(n.repl, 1, m.prevLogIndex, m.prevLogTerm, m.entries, 1, 1, store, map[], Follower);
    assert o.repl == EMPTY_REPL.(commitIndex := 1, lastApplied := 1) && o.store == s && o.sm == map[];
    assert o.changes == [IndexedChange(1, AddServer(3))];
    JoinJoins(Changed(n.config, o.repl, Follower), 1);
  }

  function Joined(codec: Codec): NodeRun {
    var s := EMPTY_STORE.(currentTerm := 1);
    var t := s.(log := [JOIN]);
    NodeRun([ Follower1(codec, EMPTY_STORE, 0, [1, 2], 0), Follower1(codec, s, 0, [1, 2], 1),
              Follower1(codec, t, 1, [1, 2] + [3], 1).(leaderHint := Some(2)), Follower1(codec, t, 0, [1, 2, 3], 1),
              Follower1(codec, t, 1, [1, 2, 3] + [3], 1).(leaderHint := Some(2)) ],
            JoinInputs())
  }

  lemma JoinedReacts(codec: Codec, i: nat)
    ensures ReactsAt(Joined(codec), i)
  {
    var r := Joined(codec);
    if i == 1 {
      JoinApplied(codec, r.states[1], r.states[1].store, [1, 2], r.inputs[1].event.msg);
    } else if i == 2 {
      assert [1] + [2, 3] == [1, 2, 3];
    } else if i == 3 {
      JoinApplied(codec, r.states[3], r.states[3].store, [1, 2, 3], r.inputs[3].event.msg);
    }
  }

  lemma JoinedIsHistoryRun(codec: Codec)
    requires codec.Faithful()
    ensures HistoryRun(Joined(codec), [JOIN])
  {
    var r := Joined(codec);
    assert [1] + [1, 2][1..] == [1, 2];
    forall i: nat ensures ReactsAt(r, i) {
      JoinedReacts(codec, i);
    }
    forall i: nat ensures InputAt(r, i, [JOIN]) {
      if i == 1 {
        assert [JOIN] == [JOIN][0..1];
      }
    }
  }

  // Node 3 is now in the membership twice: the peers already had it, and its
  // addition was applied again. Nothing else in the run differs from its state
  // before the restart.
  lemma RestartDuplicatesMember(codec: Codec)
    requires codec.Faithful()
    ensures var r := Joined(codec);
            && SoundRun(r, [JOIN]) && r.inputs[2] == Reboot([2, 3])
            && r.states[2].config.members == [1, 2, 3] && r.states[4].config.members == [1, 2, 3, 3]
            && r.states[2].repl.lastApplied == r.states[4].repl.lastApplied == 1
            && r.states[2].store == r.states[4].store
            && !Distinct(r.states[4].config.members) && !RestoredAt(r, 2, [JOIN])
  {
    JoinedIsHistoryRun(codec);
    var r := Joined(codec);
    HistoryRunsAreSound(r, [JOIN]);
    assert r.states[4].config.members[2] == r.states[4].config.members[3];
    assert Part([JOIN], 0, 0) == [];
  }

  // Peers may differ from the membership as of the snapshot and still do: a node
  // that is removed afterwards is removed either way.
  lemma RemovedEitherWay()
    ensures var leave := LogEntry(1, ConfigChange(RemoveServer(3)));
            MembersAfter([1, 2], [leave]) == MembersAfter([1, 2, 3], [leave]) == [1, 2]
  {
    var leave := LogEntry(1, ConfigChange(RemoveServer(3)));
    assert [leave][..0] == [];
    assert [1, 2, 3][..2] == [1, 2] && [1, 2][..1] == [1] && [1][..0] == [];
    assert Configurations.Without([], 3) == [] && Configurations.Without([1], 3) == [1];
    assert Configurations.Without([1, 2], 3) == [1, 2];
  }

  // --- A change that never commits ---

  const LOST := LogEntry(1, ConfigChange(AddServer(4)))
  const WON := LogEntry(2, Command("x"))

  // A follower takes an addition from the leader of term 1, and its replacement
  // from the leader of term 2, who commits.
  function ReplacedInputs(): seq<Input> {
    [ Handle(Message(2, AppendEntries(1, 0, 0, [], 0))), Handle(Message(2, AppendEntries(1, 0, 0, [LOST], 0))),
      Handle(Message(3, AppendEntries(2, 0, 0, [], 0))), Handle(Message(3, AppendEntries(2, 0, 0, [WON], 1))) ]
  }

  function Replaced(codec: Codec): NodeRun {
    var s := EMPTY_STORE.(currentTerm := 1);
    var t := EMPTY_STORE.(currentTerm := 2);
    NodeRun([ Follower1(codec, EMPTY_STORE, 0, [1, 2, 3], 0), Follower1(codec, s, 0, [1, 2, 3], 1),
              Follower1(codec, s.(log := [LOST]), 0, [1, 2, 3], 1).(leaderHint := Some(2)),
              Follower1(codec, t.(log := [LOST]), 0, [1, 2, 3], 2),
              Follower1(codec, t.(log := [WON]), 1, [1, 2, 3], 2)
                .(sm := ApplyEntry(map[], WON), leaderHint := Some(3)) ],
            ReplacedInputs())
  }

  lemma WonApplied(s: Store)
    requires s.log == [WON] && s.firstIndex == 1
    ensures ChangesIn(s, 0, 1) == [] && ApplyRange(map[], s, 0, 1) == ApplyEntry(map[], WON)
  {
    assert ChangesIn(s, 0, 0) == [] && ApplyRange(map[], s, 0, 0) == map[];
    assert s.GetEntry(1) == Some(WON);
  }

  lemma ReplacedReacts(codec: Codec, i: nat)
    ensures ReactsAt(Replaced(codec), i)
  {
    var r := Replaced(codec);
    if i == 1 {
      assert [] + [LOST] == [LOST];
    } else if i == 3 {
      var n, s := r.states[3], r.states[4].store;
      assert [] + [WON] == [WON];
      assert WriteEntries(n.store, 0, [WON]) == s;
      WonApplied(s);
      var o := HandleAppendEntries(n.repl, 2, 0, 0, [WON], 1, 2, n.store, map[], Follower);
      assert o.store == s && o.sm == ApplyEntry(map[], WON) && o.changes == [];
    }
  }

  lemma ReplacedIsSound(codec: Codec)
    requires codec.Faithful()
    ensures SoundRun(Replaced(codec), [WON])
  {
    var r := Replaced(codec);
    assert [1] + [1, 2, 3][1..] == [1, 2, 3];
    forall i: nat ensures ReactsAt(r, i) {
      ReplacedReacts(codec, i);
    }
    forall i: nat ensures SoundAt(r, i, [WON]) {
      ReplacedReacts(codec, i);
    }
  }

  // No one history holds both entries.
  lemma NotOneHistory(codec: Codec, history: Log)
    ensures !HistoryRun(Replaced(codec), history)
  {
    var r := Replaced(codec);
    if InputAt(r, 1, history) && InputAt(r, 3, history) {
      assert false;
    }
  }

  // The run is sound, though no one history holds all it is sent, and the
  // membership never shows the addition.
  lemma ReplacedChangeNeverShows(codec: Codec)
    requires codec.Faithful()
    ensures var r := Replaced(codec);
            && SoundRun(r, [WON]) && (forall history: Log :: !HistoryRun(r, history))
            && r.states[2].store.log == [LOST] && r.states[4].store.log == [WON] && r.states[4].repl.lastApplied == 1
            && forall i :: 0 <= i < |r.states| ==> r.states[i].config.members == [1, 2, 3]
  {
    ReplacedIsSound(codec);
    forall history: Log ensures !HistoryRun(Replaced(codec), history) {
      NotOneHistory(codec, history);
    }
  }
}
