// The check that lets one change through at a time asks what the node itself
// has proposed. A leader that took over another's uncommitted change has not
// proposed it, and lets a second one through.
module PendingChanges {
  import opened Types
  import opened StateMachines
  import opened Configurations
  import opened Storage
  import opened Replication
  import opened ConfigChanges
  import opened Medians
  import opened Nodes
  import opened NodeRuns
  import opened Recovery
  import opened Membership
  import opened MembershipSteps

  predicate Uncommitted(n: Node, i: LogIndex) { Pending(n.store, n.repl.commitIndex, i) }

  ghost predicate NoneBehind(s: Store, index: LogIndex) { forall i: LogIndex :: !Pending(s, index, i) }

  ghost predicate OneUncommitted(n: Node) {
    forall i: LogIndex, j: LogIndex :: Uncommitted(n, i) && Uncommitted(n, j) ==> i == j
  }

  // What letting a change through does to log and commit index: a leader of more
  // than itself commits nothing, one that is alone commits all.
  lemma LetThrough(n: Node, change: Result<ConfigurationChange, ConfigError>, d: Node)
    requires n.role == Leader && change.Ok? && d == SubmitTracked(n, change).step.node
    ensures d.store == Proposed(n, ConfigChange(change.value))
    ensures |n.config.members| > 1 ==> d.repl.commitIndex == n.repl.commitIndex
    ensures n.config.members == [n.id] && n.term == n.store.currentTerm && n.repl.commitIndex <= n.store.LastLogIndex()
              && n.store.firstIndex >= 1 ==>
              d.repl.commitIndex == n.store.LastLogIndex() + 1
  {
    var s, last := Proposed(n, ConfigChange(change.value)), n.store.LastLogIndex() + 1;
    if |n.config.members| <= 1 {
      var a := AdvanceCommitIndex(n.repl, s, n.sm, n.config.members, n.id);
      ChangesKeepIndices(Changed(n.config, a.repl, n.role), n.id, s.LastLogIndex(), a.changes);
      if n.config.members == [n.id] {
        MedianAlone(n.repl.matchIndex, s.LastLogIndex(), n.repl.catchingUp, n.id);
        assert n.store.firstIndex >= 1 ==> s.GetEntry(last) == Some(LogEntry(n.term, ConfigChange(change.value)));
      }
    }
  }

  // A change let through leaves at most one uncommitted if and only if no other
  // is left behind the commit index. For a leader of more than itself that is
  // the commit index it had; a leader that is alone commits the change at once
  // and leaves none.
  lemma LetThroughIff(n: Node, change: Result<ConfigurationChange, ConfigError>)
    requires n.role == Leader && change.Ok?
    requires n.repl.commitIndex <= n.store.LastLogIndex() && n.store.firstIndex >= 1
    ensures var d := SubmitTracked(n, change).step.node;
            && (OneUncommitted(d) <==> NoneBehind(n.store, d.repl.commitIndex))
            && (|n.config.members| > 1 ==> d.repl.commitIndex == n.repl.commitIndex)
            && (n.config.members == [n.id] && n.term == n.store.currentTerm ==> NoneBehind(d.store, d.repl.commitIndex))
  {
    var d := SubmitTracked(n, change).step.node;
    LetThrough(n, change, d);
    OneMoreIff(n, change.value, d);
  }

  lemma OneMore(n: Node, c: ConfigurationChange, s: Store)
    requires n.role == Leader && s == Proposed(n, ConfigChange(c)) && n.store.firstIndex >= 1
    ensures forall i: LogIndex :: ChangeAt(s, i) ==
              if i == n.store.LastLogIndex() + 1 then Some(c) else ChangeAt(n.store, i)
    ensures forall i: LogIndex :: i > n.store.LastLogIndex() ==> ChangeAt(n.store, i).None?
  {
    forall i: LogIndex
      ensures ChangeAt(s, i) == if i == n.store.LastLogIndex() + 1 then Some(c) else ChangeAt(n.store, i)
    {
      assert i != n.store.LastLogIndex() + 1 ==> s.GetEntry(i) == n.store.GetEntry(i);
    }
  }

  lemma OneMoreIff(n: Node, c: ConfigurationChange, d: Node)
    requires n.role == Leader && d.store == Proposed(n, ConfigChange(c)) && n.store.firstIndex >= 1
    ensures OneUncommitted(d) <==> NoneBehind(n.store, d.repl.commitIndex)
    ensures d.repl.commitIndex == n.store.LastLogIndex() + 1 ==> NoneBehind(d.store, d.repl.commitIndex)
  {
    var last := n.store.LastLogIndex() + 1;
    OneMore(n, c, d.store);
    if !NoneBehind(n.store, d.repl.commitIndex) {
      var i: LogIndex :| Pending(n.store, d.repl.commitIndex, i);
      assert Uncommitted(d, i) && Uncommitted(d, last) && i != last;
    } else {
      forall i: LogIndex ensures Uncommitted(d, i) ==> i == last {
        assert !Pending(n.store, d.repl.commitIndex, i);
      }
    }
  }

  // Seen from the invariant of Membership: a leader of more than itself that lets
  // an addition through keeps it if and only if it tracks what is pending.
  lemma AdditionKeepsInvariantIff(n: Node, node: NodeId)
    requires Sane(n) && Adding(n, node).Ok? && |n.config.members| > 1
    requires n.repl.lastApplied <= n.store.LastLogIndex()
    ensures Sane(React(n, Add(node)).node) <==> Tracks(n)
  {
    var d := React(n, Add(node)).node;
    if Tracks(n) {
      StepMoves(n, Add(node), d);
    } else {
      LetThrough(n, Adding(n, node), d);
      LeaderAdds(n, node, d);
      TwoPending(n, Adding(n, node).value, d);
    }
  }

  lemma LeaderAdds(n: Node, node: NodeId, d: Node)
    requires Adding(n, node).Ok? && |n.config.members| > 1 && d == React(n, Add(node)).node
    ensures d.repl == n.repl
  {
  }

  lemma TwoPending(n: Node, c: ConfigurationChange, d: Node)
    requires n.role == Leader && d.store == Proposed(n, ConfigChange(c)) && n.store.firstIndex >= 1
    requires !Tracks(n) && d.repl.lastApplied == n.repl.lastApplied <= n.store.LastLogIndex()
    ensures !OnePending(d.store, d.repl.lastApplied, d.config.members)
  {
    var last := n.store.LastLogIndex() + 1;
    OneMore(n, c, d.store);
    var i: LogIndex :| Pending(n.store, n.repl.lastApplied, i) && n.config.pendingChange != Some(i);
    assert Pending(d.store, d.repl.lastApplied, i) && Pending(d.store, d.repl.lastApplied, last) && i != last;
  }

  // --- A run in which two changes commit in one step ---

  const FOUR := LogEntry(1, ConfigChange(AddServer(4)))
  const FIVE := LogEntry(2, ConfigChange(AddServer(5)))

  // Node 1 takes an addition from the leader of term 1, is elected in term 2,
  // is asked for another addition, and hears that node 3 has both.
  function Inputs(): seq<Input> {
    [ Handle(Message(2, AppendEntries(1, 0, 0, [], 0))), Handle(Message(2, AppendEntries(1, 0, 0, [FOUR], 0))),
      Handle(TimerFired(ElectionTimer)), Handle(Message(3, PreVoteResponse(1, true))),
      Handle(Message(3, RequestVoteResponse(2, true))), Add(5),
      Handle(Message(3, AppendEntriesResponse(2, true, 2))) ]
  }

  function After(n: Node, inputs: seq<Input>): seq<Node>
    ensures |After(n, inputs)| == |inputs| + 1 && After(n, inputs)[0] == n
    decreases |inputs|
  {
    if inputs == [] then [n] else [n] + After(React(n, inputs[0]).node, inputs[1..])
  }

  lemma {:induction false} AfterReacts(n: Node, inputs: seq<Input>, i: nat)
    ensures ReactsAt(NodeRun(After(n, inputs), inputs), i)
    decreases |inputs|
  {
    if inputs != [] {
      var tail := After(React(n, inputs[0]).node, inputs[1..]);
      if i > 0 {
        AfterReacts(React(n, inputs[0]).node, inputs[1..], i - 1);
      }
    }
  }

  function Boot(codec: Codec): Node { NewNode(1, EMPTY_STORE, map[], [2, 3], 100, codec) }

  function TwoChanges(codec: Codec): NodeRun { NodeRun(After(Boot(codec), Inputs()), Inputs()) }

  // A node of this run: nothing committed, three members.
  predicate Is(n: Node, role: Role, term: Term, log: Log) {
    && n.id == 1 && n.role == role && n.term == term
    && n.store.log == log && n.store.firstIndex == 1 && n.store.snapshot == None && n.store.currentTerm == term
    && n.config.members == [1, 2, 3]
    && n.repl.commitIndex == n.repl.lastApplied == 0 && n.repl.catchingUp == map[] && n.threshold == 100
  }

  lemma Hears(n: Node)
    requires Is(n, Follower, 0, []) && n.config.pendingChange == None
    ensures var d := React(n, Inputs()[0]).node; Is(d, Follower, 1, []) && d.config == n.config
  {
  }

  lemma Takes(n: Node)
    requires Is(n, Follower, 1, []) && n.config.pendingChange == None
    ensures var d := React(n, Inputs()[1]).node; Is(d, Follower, 1, [FOUR]) && d.config == n.config
  {
  }

  lemma Polls(n: Node)
    requires Is(n, Follower, 1, [FOUR]) && n.config.pendingChange == None
    ensures var d := React(n, Inputs()[2]).node;
            && Is(d, Follower, 1, [FOUR]) && d.config == n.config
            && d.election.inPreVote && d.election.preVotes == [1]
  {
  }

  lemma Runs(n: Node)
    requires Is(n, Follower, 1, [FOUR]) && n.config.pendingChange == None
    requires n.election.inPreVote && n.election.preVotes == [1]
    ensures var d := React(n, Inputs()[3]).node;
            Is(d, Candidate, 2, [FOUR]) && d.config == n.config && d.election.votes == [1]
  {
  }

  // No follower's progress is known.
  predicate Unheard(n: Node) { Lookup(n.repl.matchIndex, 2, 0) == Lookup(n.repl.matchIndex, 3, 0) == 0 }

  lemma Wins(n: Node)
    requires Is(n, Candidate, 2, [FOUR]) && n.config.pendingChange == None && n.election.votes == [1]
    ensures var d := React(n, Inputs()[4]).node; Is(d, Leader, 2, [FOUR]) && d.config == n.config && Unheard(d)
  {
    var d := React(n, Inputs()[4]).node;
    assert d.repl.matchIndex == InsertAll(n.repl.matchIndex, [1, 2, 3], 0);
    assert 2 in d.repl.matchIndex && 3 in d.repl.matchIndex;
  }

  lemma LetsThrough(n: Node)
    requires Is(n, Leader, 2, [FOUR]) && n.config.pendingChange == None && Unheard(n)
    ensures var d := React(n, Inputs()[5]).node; Is(d, Leader, 2, [FOUR, FIVE]) && Unheard(d)
    ensures Nodes.AddServer(n, 5).result == Ok(2)
  {
  }

  lemma BothReached(n: Node)
    requires Is(n, Leader, 2, [FOUR, FIVE]) && Unheard(n)
    ensures ComputeMedian(n.repl.matchIndex[3 := 2], 2, [1, 2, 3], map[], 1) == 2
  {
    var match3 := n.repl.matchIndex[3 := 2];
    MedianIsQuorumPoint(2, match3, 2, [1, 2, 3], map[], 1);
    MedianIsQuorumPoint(3, match3, 2, [1, 2, 3], map[], 1);
    QuorumOfFullMembership([1, 2, 3], 1);
    CardinalityMonotone({1, 3}, VotersAt(2, match3, 2, [1, 2, 3], map[], 1));
    assert VotersAt(3, match3, 2, [1, 2, 3], map[], 1) == {};
  }

  lemma BothChanges(s: Store)
    requires s.log == [FOUR, FIVE] && s.firstIndex == 1
    ensures ChangesIn(s, 0, 2) == [IndexedChange(1, AddServer(4)), IndexedChange(2, AddServer(5))]
  {
    assert s.GetEntry(1) == Some(FOUR) && s.GetEntry(2) == Some(FIVE);
    assert ChangesIn(s, 0, 1) == ChangesIn(s, 0, 0) + [IndexedChange(1, AddServer(4))];
  }

  lemma BothAlter()
    ensures Altered([1, 2, 3], [IndexedChange(1, AddServer(4)), IndexedChange(2, AddServer(5))]) ==
            [1, 2, 3, 4, 5]
  {
    var one, two := IndexedChange(1, AddServer(4)), IndexedChange(2, AddServer(5));
    assert [one, two][..1] == [one] && [one][..0] == [];
  }

  lemma BothCounted(n: Node)
    requires Is(n, Leader, 2, [FOUR, FIVE]) && Unheard(n)
    ensures React(n, Inputs()[6]).node.repl.commitIndex == 2
  {
    var a := HandleAppendEntriesResponse(n.repl, 3, true, 2, n.store, n.sm, n.config.members, 1);
    BothReached(n);
    assert n.store.GetEntry(2) == Some(FIVE);
    assert a.repl.commitIndex == 2;
    ChangesKeepIndices(Changed(n.config, a.repl, Leader), 1, 2, a.changes);
  }

  lemma BothCommit(n: Node)
    requires Is(n, Leader, 2, [FOUR, FIVE]) && Unheard(n)
    ensures var d := React(n, Inputs()[6]).node; d.config.members == [1, 2, 3, 4, 5] && d.repl.commitIndex == 2
  {
    BothCounted(n);
    ResponseFollows(n, 3, AppendEntriesResponse(2, true, 2));
    BothChanges(n.store);
    BothAlter();
  }

  // Step k + 1 of the run, and nothing else about it.
  lemma Onward(codec: Codec, k: nat)
    requires k < 7
    ensures var r := TwoChanges(codec); r.states[k + 1] == React(r.states[k], Inputs()[k]).node
  {
    AfterReacts(Boot(codec), Inputs(), k);
    assert ReactsAt(TwoChanges(codec), k);
  }

  lemma UpToElection(codec: Codec)
    ensures var r := TwoChanges(codec);
            Is(r.states[4], Candidate, 2, [FOUR]) && r.states[4].config.pendingChange == None &&
            r.states[4].election.votes == [1]
  {
    var r := TwoChanges(codec);
    assert r.states[0] == Boot(codec) && [1] + [2, 3] == [1, 2, 3];
    Onward(codec, 0);
    Hears(r.states[0]);
    Onward(codec, 1);
    Takes(r.states[1]);
    Onward(codec, 2);
    Polls(r.states[2]);
    Onward(codec, 3);
    Runs(r.states[3]);
  }

  lemma FromElection(codec: Codec)
    ensures var r := TwoChanges(codec);
            && Is(r.states[5], Leader, 2, [FOUR]) && r.states[5].config.pendingChange == None
            && Nodes.AddServer(r.states[5], 5).result == Ok(2)
            && Is(r.states[6], Leader, 2, [FOUR, FIVE]) && r.states[7].config.members == [1, 2, 3, 4, 5]
  {
    var r := TwoChanges(codec);
    UpToElection(codec);
    Onward(codec, 4);
    Wins(r.states[4]);
    Onward(codec, 5);
    LetsThrough(r.states[5]);
    Onward(codec, 6);
    BothCommit(r.states[6]);
  }

  lemma TwoChangesIsRun(codec: Codec)
    ensures IsNodeRun(TwoChanges(codec))
  {
    forall i: nat ensures ReactsAt(TwoChanges(codec), i) {
      AfterReacts(Boot(codec), Inputs(), i);
    }
    assert TwoChanges(codec).states[0] == Boot(codec) && ([1] + [2, 3])[1..] == [2, 3];
  }

  lemma BothUncommitted(n: Node)
    requires Is(n, Leader, 2, [FOUR, FIVE])
    ensures Uncommitted(n, 1) && Uncommitted(n, 2) && !OneUncommitted(n)
  {
    assert n.store.GetEntry(1) == Some(FOUR) && n.store.GetEntry(2) == Some(FIVE);
    assert Uncommitted(n, 1) && Uncommitted(n, 2);
  }

  lemma Untracked(n: Node)
    requires Is(n, Leader, 2, [FOUR]) && n.config.pendingChange == None
    ensures !Tracks(n)
  {
    assert n.store.GetEntry(1) == Some(FOUR);
    assert Pending(n.store, n.repl.lastApplied, 1);
  }

  lemma ApartMajorities()
    ensures Quorum({1, 2}, Elements([1, 2, 3])) && Quorum({3, 4, 5}, Elements([1, 2, 3, 4, 5]))
    ensures {1, 2} !! {3, 4, 5}
  {
    DistinctCardinality([1, 2, 3]);
    DistinctCardinality([1, 2, 3, 4, 5]);
  }

  // One change at a time is not kept: a leader lets through a second addition
  // while its predecessor's is uncommitted, and one reply commits both. The
  // majorities before and after need not meet.
  lemma TwoChangesAtOnce(codec: Codec)
    ensures var r := TwoChanges(codec);
            && IsNodeRun(r) && r.inputs[5] == Add(5) && Nodes.AddServer(r.states[5], 5).result.Ok?
            && !Tracks(r.states[5]) && !OneUncommitted(r.states[6])
            && r.states[6].config.members == [1, 2, 3] && r.states[7].config.members == [1, 2, 3, 4, 5]
            && Quorum({1, 2}, Elements(r.states[6].config.members))
            && Quorum({3, 4, 5}, Elements(r.states[7].config.members))
  {
    FromElection(codec);
    TwoChangesIsRun(codec);
    BothUncommitted(TwoChanges(codec).states[6]);
    Untracked(TwoChanges(codec).states[5]);
    ApartMajorities();
  }
}
