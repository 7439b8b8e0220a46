// AppendEntries, its replies, client commands and restarts keep the invariants.
module ReplicationEvents {
  import opened Types
  import opened StateMachines
  import opened Storage
  import opened Replication
  import opened Medians
  import opened Nodes
  import opened Clusters
  import opened Histories
  import opened Moves
  import opened Commitment
  import opened CommitmentMoves
  import opened CommitmentLinks
  import opened Events
  import opened ElectionEvents

  // --- Applying a log that holds only commands ---

  lemma {:induction false} ApplyIsFold(m: KV, store: Store, lo: nat, hi: nat)
    requires store.firstIndex == 1 && lo <= hi <= |store.log| && m == Fold(store.log[..lo])
    ensures ApplyRange(m, store, lo, hi) == Fold(store.log[..hi])
  {
    if lo != hi {
      ApplyIsFold(m, store, lo, hi - 1);
      assert store.log[..hi][..hi - 1] == store.log[..hi - 1];
    }
  }

  lemma {:induction false} NoChanges(store: Store, lo: nat, hi: nat)
    requires AllCommands(store.log)
    ensures ChangesIn(store, lo, hi) == []
    decreases hi
  {
    if hi > lo {
      NoChanges(store, lo, hi - 1);
    }
  }

  lemma NothingToApply(n: Node)
    ensures ApplyConfigChanges(n, []) == n
  {
  }

  // --- A follower handles AppendEntries of its own term ---

  // The log an accepted message leaves behind.
  function Written(log: Log, m: Msg): Log
    requires m.AppendEntries? && m.prevLogIndex <= |log|
  {
    if m.entries == [] then log else log[..m.prevLogIndex] + m.entries
  }

  predicate Accepts(log: Log, m: Msg)
    requires m.AppendEntries?
  {
    m.prevLogIndex == 0 || (m.prevLogIndex <= |log| && log[m.prevLogIndex - 1].term == m.prevLogTerm)
  }

  lemma ConsistencyIsAcceptance(n: Node, all: set<NodeId>, m: Msg)
    requires Plain(n, n.id, all) && m.AppendEntries?
    ensures CheckLogConsistency(n.store, m.prevLogIndex, m.prevLogTerm) == Accepts(n.store.log, m)
    ensures Accepts(n.store.log, m) ==>
              WriteEntries(n.store, m.prevLogIndex, m.entries) == n.store.(log := Written(n.store.log, m))
  {
    if Accepts(n.store.log, m) && m.entries != [] {
      var log := n.store.log;
      if |log| > m.prevLogIndex {
        if m.prevLogIndex == 0 {
          assert log[..0] == [];
        }
      } else {
        assert log[..m.prevLogIndex] == log;
      }
    }
  }

  // An accepted message turns the follower's log into a prefix of its leader's,
  // or leaves it alone.
  lemma AcceptedLog(h: Hist, log: Log, m: Msg, leaderLog: Log, campaign: Log)
    requires m.AppendEntries? && Accepts(log, m) && SliceOf(m, leaderLog, campaign)
    requires Matched(h, log) && Matched(h, leaderLog)
    ensures Agree(log, leaderLog, m.prevLogIndex)
    ensures m.entries != [] ==> Written(log, m) == leaderLog[..End(m)]
  {
    if m.prevLogIndex > 0 {
      assert MatchedAt(h, log, m.prevLogIndex - 1) && MatchedAt(h, leaderLog, m.prevLogIndex - 1);
    }
    if m.entries != [] {
      assert log[..m.prevLogIndex] == leaderLog[..m.prevLogIndex];
    }
  }

  lemma PrefixOk(h: Hist, log: Log, term: Term, k: nat)
    requires LogOk(h, log, term) && k <= |log|
    ensures LogOk(h, log[..k], term)
  {
    forall i | 0 <= i < k ensures MatchedAt(h, log[..k], i) {
      assert MatchedAt(h, log, i);
    }
  }

  lemma OvershootRefused(h: Hist, log: Log, term: Term, m: Msg)
    requires m.AppendEntries? && Overshoots(m) && LogOk(h, log, term)
    ensures !Accepts(log, m)
  {
  }

  lemma NewLogOk(c: Cluster, h: Hist, id: NodeId, from: NodeId, m: Msg)
    requires Inv(c, h) && id in c.nodes && m.AppendEntries? && m.term == c.nodes[id].term
    requires MsgOk(h, from, id, m) && Accepts(c.nodes[id].store.log, m)
    ensures LogOk(h, Written(c.nodes[id].store.log, m), m.term) && !Overshoots(m)
  {
    var log := c.nodes[id].store.log;
    assert LeadsAt(c.nodes, h, id) && LeaderOk(h, m.term, c.nodes.Keys);
    if Overshoots(m) {
      OvershootRefused(h, log, m.term, m);
      assert false;
    }
    AcceptedLog(h, log, m, h.leaderLog[m.term], h.campaign[At(m.term, from)]);
    if m.entries != [] {
      PrefixOk(h, h.leaderLog[m.term], m.term, End(m));
    }
  }

  // The follower's state after an accepted message, before anything commits.
  function Wrote(n: Node, from: NodeId, m: Msg): Node
    requires m.AppendEntries? && m.prevLogIndex <= |n.store.log|
  {
    n.(leaderHint := Some(from), role := Follower, store := n.store.(log := Written(n.store.log, m)))
  }

  // ... and after it commits what the leader says is committed.
  function Committed(n: Node, leaderCommit: LogIndex): Node {
    if leaderCommit > n.repl.commitIndex then
      var k := Min(leaderCommit, |n.store.log|);
      n.(repl := n.repl.(commitIndex := k, lastApplied := Max(n.repl.lastApplied, k)),
         sm := ApplyRange(n.sm, n.store, n.repl.lastApplied, k))
    else n
  }

  lemma AppendEntriesStep(n: Node, all: set<NodeId>, from: NodeId, m: Msg)
    requires Plain(n, n.id, all) && AllCommands(n.store.log) && m.AppendEntries? && m.term == n.term && n.role != Leader
    requires Accepts(n.store.log, m) ==> AllCommands(Written(n.store.log, m))
    ensures OnAppendEntries(n, from, m.term, m.prevLogIndex, m.prevLogTerm, m.entries, m.leaderCommit) ==
            if Accepts(n.store.log, m) then
              Step(Committed(Wrote(n, from, m), m.leaderCommit),
                   [Envelope(from, AppendEntriesResponse(n.term, true, |Written(n.store.log, m)|))])
            else
              Step(n.(leaderHint := Some(from), role := Follower),
                   [Envelope(from, AppendEntriesResponse(n.term, false, |n.store.log|))])
  {
    ConsistencyIsAcceptance(n, all, m);
    if Accepts(n.store.log, m) {
      var w := Wrote(n, from, m);
      assert w.store.LastLogIndex() == |w.store.log|;
      if m.leaderCommit > n.repl.commitIndex {
        NoChanges(w.store, n.repl.lastApplied, Min(m.leaderCommit, |w.store.log|));
      }
    }
  }

  // --- Delivering AppendEntries ---

  // What in-order links give a delivered message: what it claims is true, it
  // loses nothing acknowledged, and nothing left on the link ends before it.
  ghost predicate InTurn(c: Cluster, h: Hist, id: NodeId, from: NodeId, m: Msg) {
    && ClaimOk(h, c.nodes.Keys, from, m)
    && Ahead(h, id, m)
    && forall k :: 0 <= k < |Queue(c.net, from, id)| ==> InSequence(m, Queue(c.net, from, id)[k])
  }

  ghost predicate NoTail(log: Log, m: Msg) {
    m.AppendEntries? && m.entries == [] && Accepts(log, m) ==> |log| <= m.prevLogIndex
  }

  lemma AcksDoNotMatter(c: Cluster, h: Hist, g: Hist, id: NodeId)
    requires Inv(c, h) && id in c.nodes && g == h.(acked := g.acked)
    ensures Inv(c, g)
  {
    Facts(c, h, id);
    var n := c.nodes[id];
    MatchedGrows(h, g, n.store.log);
    forall term: Term, voter: NodeId | voter != id ensures Tokens(n, c.net, term, voter) <= 1 {
      assert TokenOk(c.nodes, c.net, term, id, voter);
    }
    UpdateKeeps(c, h, g, id, n);
    AfterQuietly(c, id, n, Step(n, []));
  }

  lemma FollowerOfTerm(c: Cluster, h: Hist, id: NodeId, from: NodeId, m: Msg)
    requires Inv(c, h) && id in c.nodes && from != id
    requires m.AppendEntries? && m.term == c.nodes[id].term && MsgOk(h, from, id, m)
    ensures c.nodes[id].role != Leader
  {
    assert LeadsAt(c.nodes, h, id) && PlainAt(c.nodes, id);
  }

  lemma WrotePlain(n: Node, all: set<NodeId>, from: NodeId, m: Msg)
    requires Plain(n, n.id, all) && m.AppendEntries? && m.prevLogIndex <= |n.store.log|
    ensures Plain(Wrote(n, from, m), n.id, all)
  {
  }

  lemma WroteKeeps(c: Cluster, h: Hist, id: NodeId, from: NodeId, m: Msg)
    requires Inv(c, h) && id in c.nodes && from != id
    requires m.AppendEntries? && m.term == c.nodes[id].term && MsgOk(h, from, id, m)
    requires Accepts(c.nodes[id].store.log, m)
    ensures var w := Wrote(c.nodes[id], from, m);
            Inv(Put(c, id, w), RecordAck(h, m.term, id, |w.store.log|))
  {
    var n := c.nodes[id];
    var w := Wrote(n, from, m);
    NewLogOk(c, h, id, from, m);
    assert PlainAt(c.nodes, id);
    WrotePlain(n, c.nodes.Keys, from, m);
    FollowerKeeps(c, h, id, w);
    AcksDoNotMatter(Put(c, id, w), h, RecordAck(h, m.term, id, |w.store.log|), id);
  }

  lemma WroteInTurn(c: Cluster, h: Hist, id: NodeId, from: NodeId, m: Msg)
    requires Inv(c, h) && Strong(c, h) && id in c.nodes && from != id
    requires m.AppendEntries? && m.term == c.nodes[id].term && MsgOk(h, from, id, m)
    requires Accepts(c.nodes[id].store.log, m)
    requires InTurn(c, h, id, from, m) && NoTail(c.nodes[id].store.log, m)
    ensures var w := Wrote(c.nodes[id], from, m);
            var g := RecordAck(h, m.term, id, |w.store.log|);
            Writes(c, h, Put(c, id, w), g, id, w) && |w.store.log| == End(m)
  {
    var n := c.nodes[id];
    var w := Wrote(n, from, m);
    var g := RecordAck(h, m.term, id, |w.store.log|);
    NewLogOk(c, h, id, from, m);
    assert LeadsAt(c.nodes, h, id) && LeaderOk(h, m.term, c.nodes.Keys) && PlainAt(c.nodes, id);
    assert AckOk(c.nodes, h, At(m.term, id));
    AcceptedLog(h, n.store.log, m, h.leaderLog[m.term], h.campaign[At(m.term, from)]);
    forall f: NodeId, k: nat ensures AheadAt(c.net, g, f, id, k) {
      assert AheadAt(c.net, h, f, id, k) && FlightOk(c.net, h, c.nodes.Keys, f, id, k);
      if f == from && k < |Queue(c.net, f, id)| {
        assert InSequence(m, Queue(c.net, from, id)[k]);
      }
    }
  }

  lemma CommittedQuiet(w: Node, all: set<NodeId>, leaderCommit: LogIndex)
    requires Plain(w, w.id, all)
    ensures Quiet(w, Committed(w, leaderCommit), all)
  {
  }

  // The follower commits only what its leader knew to be durable.
  lemma FollowerCommits(c: Cluster, h: Hist, strong: bool, id: NodeId, m: Msg)
    requires Holds(c, h, strong) && id in c.nodes && m.AppendEntries? && m.term == c.nodes[id].term
    requires strong ==> Acked(h, id, m.term, |c.nodes[id].store.log|) && !Overshoots(m)
    requires strong ==> exists from :: ClaimOk(h, c.nodes.Keys, from, m)
    ensures Holds(Put(c, id, Committed(c.nodes[id], m.leaderCommit)), h, strong)
  {
    var n := c.nodes[id];
    assert PlainAt(c.nodes, id);
    CommittedQuiet(n, c.nodes.Keys, m.leaderCommit);
    QuietKeeps(c, h, id, Committed(n, m.leaderCommit));
    if strong {
      if m.leaderCommit > n.repl.commitIndex {
        FollowerCommitsStrong(c, h, id, m);
      } else {
        AfterQuietly(c, id, n, Step(n, []));
      }
    }
  }

  lemma FollowerCommitsStrong(c: Cluster, h: Hist, id: NodeId, m: Msg)
    requires Inv(c, h) && Strong(c, h) && id in c.nodes && m.AppendEntries? && m.term == c.nodes[id].term
    requires Acked(h, id, m.term, |c.nodes[id].store.log|) && !Overshoots(m)
    requires exists from :: ClaimOk(h, c.nodes.Keys, from, m)
    requires m.leaderCommit > c.nodes[id].repl.commitIndex
    ensures Strong(Put(c, id, Committed(c.nodes[id], m.leaderCommit)), h)
  {
    var n := c.nodes[id];
    assert PlainAt(c.nodes, id) && NodeOk(c.nodes, h, id) && AckOk(c.nodes, h, At(m.term, id));
    var t: Term, i: nat :|
      t <= m.term && BackedBy(h, c.nodes.Keys, h.leaderLog[m.term], m.leaderCommit, t, i);
    var k := Min(m.leaderCommit, |n.store.log|);
    assert CommitBy(h, c.nodes.Keys, n, k, t, i);
    ApplyIsFold(n.sm, n.store, n.repl.lastApplied, k);
    StrongCommit(c, h, id, Committed(n, m.leaderCommit), k, t, i);
  }

  lemma AcceptHolds(c: Cluster, h: Hist, strong: bool, id: NodeId, from: NodeId, m: Msg) returns (g: Hist)
    requires Holds(c, h, strong) && id in c.nodes && from in c.nodes && from != id
    requires m.AppendEntries? && m.term == c.nodes[id].term && MsgOk(h, from, id, m)
    requires Accepts(c.nodes[id].store.log, m)
    requires strong ==> InTurn(c, h, id, from, m) && NoTail(c.nodes[id].store.log, m)
    ensures var w := Wrote(c.nodes[id], from, m);
            var reply := AppendEntriesResponse(m.term, true, |w.store.log|);
            Holds(After(c, id, Step(Committed(w, m.leaderCommit), [Envelope(from, reply)])), g, strong)
    ensures Evolves(h, g, strong)
  {
    var n := c.nodes[id];
    var w := Wrote(n, from, m);
    var d := Put(c, id, w);
    g := RecordAck(h, m.term, id, |w.store.log|);
    WroteKeeps(c, h, id, from, m);
    NewLogOk(c, h, id, from, m);
    if strong {
      WroteInTurn(c, h, id, from, m);
      WriteGrows(c, h, d, g, id, w);
      StrongWrite(c, h, d, g, id, w);
      ClaimLater(c.nodes, h, g, from, m);
    }
    FollowerCommits(d, g, strong, id, m);
    var e := Put(d, id, Committed(w, m.leaderCommit));
    assert e == Put(c, id, Committed(w, m.leaderCommit));
    SendOne(e, g, strong, id, from, AppendEntriesResponse(m.term, true, |w.store.log|));
  }

  lemma RefuseHolds(c: Cluster, h: Hist, strong: bool, id: NodeId, from: NodeId, m: Node, reply: Msg)
    requires Holds(c, h, strong) && id in c.nodes && from in c.nodes && from != id
    requires Quiet(c.nodes[id], m, c.nodes.Keys) && m.sm == c.nodes[id].sm && m.repl == c.nodes[id].repl
    requires reply.AppendEntriesResponse? && !reply.success
    ensures Holds(After(c, id, Step(m, [Envelope(from, reply)])), h, strong)
  {
    Idle(c, h, strong, id, m);
    var d := Put(c, id, m);
    ModestJoins(d, h, id, from, reply);
    SendOne(d, h, strong, id, from, reply);
  }

  lemma StaleAppend(n: Node, from: NodeId, m: Msg)
    requires m.AppendEntries? && m.term < n.term
    ensures OnAppendEntries(n, from, m.term, m.prevLogIndex, m.prevLogTerm, m.entries, m.leaderCommit) ==
            Step(n.(leaderHint := Some(from)),
                 [Envelope(from, AppendEntriesResponse(n.term, false, n.store.LastLogIndex()))])
  {
  }

  lemma AppendEntriesHolds(c: Cluster, h: Hist, strong: bool, id: NodeId, from: NodeId, m: Msg) returns (g: Hist)
    requires Holds(c, h, strong) && id in c.nodes && from in c.nodes && from != id
    requires m.AppendEntries? && MsgOk(h, from, id, m)
    requires strong ==>
               InTurn(c, h, id, from, m) && (m.term == c.nodes[id].term ==> NoTail(c.nodes[id].store.log, m))
    ensures var s := OnAppendEntries(c.nodes[id], from, m.term, m.prevLogIndex, m.prevLogTerm, m.entries,
                                     m.leaderCommit);
            Holds(After(c, id, s), g, strong)
    ensures Evolves(h, g, strong)
  {
    var n := c.nodes[id];
    g := h;
    if m.term > n.term {
      SteppedDown(c, h, strong, id, m.term);
      AfterQuietly(c, id, StepDown(n, m.term), Step(StepDown(n, m.term), []));
    } else if m.term < n.term {
      StaleAppend(n, from, m);
      var n1 := n.(leaderHint := Some(from));
      SamePlain(c, h, id, n1);
      RefuseHolds(c, h, strong, id, from, n1, AppendEntriesResponse(n.term, false, n.store.LastLogIndex()));
    } else {
      FollowerOfTerm(c, h, id, from, m);
      if Accepts(n.store.log, m) {
        NewLogOk(c, h, id, from, m);
      }
      assert PlainAt(c.nodes, id) && LeadsAt(c.nodes, h, id);
      AppendEntriesStep(n, c.nodes.Keys, from, m);
      if Accepts(n.store.log, m) {
        g := AcceptHolds(c, h, strong, id, from, m);
      } else {
        RefuseHolds(c, h, strong, id, from, n.(leaderHint := Some(from), role := Follower),
                    AppendEntriesResponse(n.term, false, |n.store.log|));
      }
    }
  }

  // --- A leader hears back ---

  // The leader's bookkeeping after a reply, before it looks at its commit index.
  function Heard(r: Repl, from: NodeId, success: bool, matchIndex: LogIndex): Repl {
    if success then
      if matchIndex > Lookup(r.matchIndex, from, 0) then
        r.(matchIndex := r.matchIndex[from := matchIndex], nextIndex := r.nextIndex[from := matchIndex + 1])
      else r
    else
      var next := Lookup(r.nextIndex, from, 1);
      if next > 1 then r.(nextIndex := r.nextIndex[from := next - 1]) else r
  }

  // Whether the leader's count lets it commit, and how far.
  predicate Advances(n: Node) {
    var k := ComputeMedian(n.repl.matchIndex, n.store.LastLogIndex(), n.config.members, map[], n.id);
    k > n.repl.commitIndex && k <= |n.store.log| && n.store.log[k - 1].term == n.term
  }

  function Advanced(n: Node): Node {
    var k := ComputeMedian(n.repl.matchIndex, n.store.LastLogIndex(), n.config.members, map[], n.id);
    n.(repl := n.repl.(commitIndex := k, lastApplied := Max(n.repl.lastApplied, k)),
       sm := ApplyRange(n.sm, n.store, n.repl.lastApplied, k))
  }

  lemma AdvanceStep(n: Node, all: set<NodeId>)
    requires Plain(n, n.id, all) && AllCommands(n.store.log)
    ensures var a := AdvanceCommitIndex(n.repl, n.store, n.sm, n.config.members, n.id);
            a == if Advances(n) then Applied(Advanced(n).repl, Advanced(n).sm, []) else Applied(n.repl, n.sm, [])
  {
    if Advances(n) {
      var k := ComputeMedian(n.repl.matchIndex, n.store.LastLogIndex(), n.config.members, map[], n.id);
      NoChanges(n.store, n.repl.lastApplied, k);
    }
  }

  lemma HeardPlain(n: Node, all: set<NodeId>, from: NodeId, success: bool, matchIndex: LogIndex)
    requires Plain(n, n.id, all) && from in all
    ensures Plain(n.(repl := Heard(n.repl, from, success, matchIndex)), n.id, all)
  {
  }

  lemma ResponseStep(n: Node, all: set<NodeId>, from: NodeId, success: bool, matchIndex: LogIndex)
    requires Plain(n, n.id, all) && AllCommands(n.store.log) && n.role == Leader && from in all
    requires OnAppendEntriesResponse(n, from, n.term, success, matchIndex).node.store.snapshot.None?
    ensures var h := n.(repl := Heard(n.repl, from, success, matchIndex));
            OnAppendEntriesResponse(n, from, n.term, success, matchIndex) ==
            Step(if success && matchIndex > Lookup(n.repl.matchIndex, from, 0) && Advances(h)
                 then Advanced(h) else h, [])
  {
    var h := n.(repl := Heard(n.repl, from, success, matchIndex));
    HeardPlain(n, all, from, success, matchIndex);
    AdvanceStep(h, all);
    NothingToApply(h);
    NothingToApply(Advanced(h));
  }

  lemma AdvancedQuiet(n: Node, all: set<NodeId>)
    requires Plain(n, n.id, all)
    ensures Quiet(n, Advanced(n), all)
  {
  }

  lemma AdvanceHolds(c: Cluster, h: Hist, strong: bool, id: NodeId)
    requires Holds(c, h, strong) && id in c.nodes && c.nodes[id].role == Leader && Advances(c.nodes[id])
    ensures Holds(Put(c, id, Advanced(c.nodes[id])), h, strong)
  {
    var n := c.nodes[id];
    assert PlainAt(c.nodes, id);
    AdvancedQuiet(n, c.nodes.Keys);
    QuietKeeps(c, h, id, Advanced(n));
    if strong {
      assert NodeOk(c.nodes, h, id);
      var k := ComputeMedian(n.repl.matchIndex, n.store.LastLogIndex(), n.config.members, map[], id);
      CountIsQuorum(c, h, id);
      ApplyIsFold(n.sm, n.store, n.repl.lastApplied, k);
      StrongCommit(c, h, id, Advanced(n), k, n.term, k);
    }
  }

  lemma HeardHolds(c: Cluster, h: Hist, strong: bool, id: NodeId, from: NodeId, success: bool, matchIndex: LogIndex)
    requires Holds(c, h, strong) && id in c.nodes && from in c.nodes && from != id
    requires strong && success ==> Acked(h, from, c.nodes[id].term, matchIndex)
    ensures Holds(Put(c, id, c.nodes[id].(repl := Heard(c.nodes[id].repl, from, success, matchIndex))), h, strong)
  {
    var n := c.nodes[id];
    var m := n.(repl := Heard(n.repl, from, success, matchIndex));
    assert PlainAt(c.nodes, id);
    HeardPlain(n, c.nodes.Keys, from, success, matchIndex);
    QuietKeeps(c, h, id, m);
    if strong {
      assert NodeOk(c.nodes, h, id);
      forall v | m.role == Leader && v in m.repl.matchIndex && v != m.id && m.repl.matchIndex[v] > 0
        ensures Acked(h, v, m.term, m.repl.matchIndex[v])
      {
        assert v != from ==> Acked(h, v, n.term, n.repl.matchIndex[v]);
      }
      CommitCarries(h, c.nodes.Keys, n, m);
      StrongQuiet(c, h, id, m);
    }
  }

  lemma ResponseHolds(c: Cluster, h: Hist, strong: bool, id: NodeId, from: NodeId, m: Msg)
    requires Holds(c, h, strong) && id in c.nodes && from in c.nodes && from != id
    requires m.AppendEntriesResponse? && (strong ==> ClaimOk(h, c.nodes.Keys, from, m))
    requires NoCompaction(After(c, id, OnAppendEntriesResponse(c.nodes[id], from, m.term, m.success, m.matchIndex)))
    ensures Holds(After(c, id, OnAppendEntriesResponse(c.nodes[id], from, m.term, m.success, m.matchIndex)), h, strong)
  {
    var n := c.nodes[id];
    var s := OnAppendEntriesResponse(n, from, m.term, m.success, m.matchIndex);
    if m.term > n.term {
      SteppedDown(c, h, strong, id, m.term);
      AfterQuietly(c, id, StepDown(n, m.term), s);
    } else if n.role != Leader || m.term != n.term {
      AfterQuietly(c, id, n, s);
    } else {
      assert PlainAt(c.nodes, id) && LeadsAt(c.nodes, h, id);
      SnapshotFree(c, id, s);
      ResponseStep(n, c.nodes.Keys, from, m.success, m.matchIndex);
      HeardHolds(c, h, strong, id, from, m.success, m.matchIndex);
      var n1 := n.(repl := Heard(n.repl, from, m.success, m.matchIndex));
      AfterQuietly(c, id, n1, s);
      if s.node != n1 {
        AdvanceHolds(Put(c, id, n1), h, strong, id);
        AfterQuietly(Put(c, id, n1), id, s.node, s);
      }
    }
  }

  lemma SnapshotFree(c: Cluster, id: NodeId, s: Step)
    requires NoCompaction(After(c, id, s))
    ensures s.node.store.snapshot.None?
  {
    assert id in After(c, id, s).nodes;
  }

  // --- Client commands, heartbeats, restarts ---

  lemma AppendedLeader(c: Cluster, h: Hist, strong: bool, id: NodeId, e: LogEntry) returns (g: Hist)
    requires Holds(c, h, strong) && id in c.nodes && c.nodes[id].role == Leader
    requires e.term == c.nodes[id].term && e.entryType.Command?
    ensures Holds(Put(c, id, c.nodes[id].(store := c.nodes[id].store.Append([e]))), g, strong) && Evolves(h, g, strong)
  {
    var m := c.nodes[id].(store := c.nodes[id].store.Append([e]));
    var d := Put(c, id, m);
    g := RecordLeader(h, m.term, id, m.store.log);
    LeaderAppendKeeps(c, h, id, e);
    assert LeadsAt(c.nodes, h, id) && PlainAt(c.nodes, id);
    if strong {
      AppendGrows(c, h, d, g, id, m, e);
      StrongLeaderAppend(c, h, d, g, id, m, e);
    }
  }

  lemma ClientStep(n: Node, all: set<NodeId>, payload: string)
    requires Plain(n, n.id, all) && AllCommands(n.store.log) && n.role == Leader
    ensures var m := n.(store := n.store.Append([LogEntry(n.term, Command(payload))]));
            var m' := if |m.config.members| <= 1 && Advances(m) then Advanced(m) else m;
            Submit(n, Command(payload)).step == Step(m', SendAppendEntriesToFollowers(m'))
  {
    var m := n.(store := n.store.Append([LogEntry(n.term, Command(payload))]));
    AdvanceStep(m, all);
    NothingToApply(m);
    NothingToApply(Advanced(m));
  }

  lemma ClientHolds(c: Cluster, h: Hist, strong: bool, id: NodeId, payload: string) returns (g: Hist)
    requires Holds(c, h, strong) && id in c.nodes
    ensures Holds(After(c, id, Submit(c.nodes[id], Command(payload)).step), g, strong) && Evolves(h, g, strong)
  {
    var n := c.nodes[id];
    g := h;
    if n.role != Leader {
      AfterQuietly(c, id, n, Step(n, []));
    } else {
      assert PlainAt(c.nodes, id) && LeadsAt(c.nodes, h, id);
      ClientStep(n, c.nodes.Keys, payload);
      var s := Submit(n, Command(payload)).step;
      var m := n.(store := n.store.Append([LogEntry(n.term, Command(payload))]));
      g := AppendedLeader(c, h, strong, id, LogEntry(n.term, Command(payload)));
      var d := Put(c, id, m);
      AfterQuietly(c, id, m, s);
      if s.node != m {
        AdvanceHolds(d, g, strong, id);
        AfterQuietly(d, id, s.node, s);
        d := Put(d, id, s.node);
      }
      SendToFollowers(d, g, strong, id);
      AfterQuietly(c, id, s.node, s);
      assert d == Put(c, id, s.node);
    }
  }

  lemma HeartbeatHolds(c: Cluster, h: Hist, strong: bool, id: NodeId)
    requires Holds(c, h, strong) && id in c.nodes
    ensures Holds(After(c, id, OnHeartbeatTimer(c.nodes[id])), h, strong)
  {
    var n := c.nodes[id];
    AfterQuietly(c, id, n, OnHeartbeatTimer(n));
    AfterQuietly(c, id, n, Step(n, []));
    if n.role == Leader {
      SendToFollowers(c, h, strong, id);
    }
  }

  lemma RestartedQuiet(n: Node, all: set<NodeId>)
    requires Plain(n, n.id, all)
    ensures Quiet(n, Restarted(n), all)
  {
    assert n.config.members == [n.id] + n.config.members[1..];
  }

  lemma RestartHolds(c: Cluster, h: Hist, strong: bool, id: NodeId)
    requires Holds(c, h, strong) && id in c.nodes && c.nodes[id].config.members != []
    ensures Holds(Put(c, id, Restarted(c.nodes[id])), h, strong)
  {
    var n := c.nodes[id];
    assert PlainAt(c.nodes, id);
    RestartedQuiet(n, c.nodes.Keys);
    QuietKeeps(c, h, id, Restarted(n));
    if strong {
      StrongQuiet(c, h, id, Restarted(n));
    }
  }
}
