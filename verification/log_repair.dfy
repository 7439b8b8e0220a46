// How a leader finds the point where a follower's log parts from its own.
module LogRepair {
  import opened Types
  import opened Storage
  import opened Replication
  import opened Nodes

  // One exchange without loss: the leader sends what it would send next, the
  // follower handles it, and the leader handles the answer if there is one.
  datatype Pair = Pair(leader: Node, follower: Node)

  function Sent(p: Pair): Msg {
    GetAppendEntriesForPeer(p.leader.repl, p.follower.id, p.leader.id, p.leader.store)
  }

  function Answer(p: Pair): seq<Envelope> { OnMessage(p.follower, p.leader.id, Sent(p)).sent }

  predicate Silent(p: Pair) { Answer(p) == [] }

  predicate Rejected(p: Pair) {
    |Answer(p)| == 1 && Answer(p)[0].msg.AppendEntriesResponse? && !Answer(p)[0].msg.success
  }

  predicate Accepted(p: Pair) {
    |Answer(p)| == 1 && Answer(p)[0].msg.AppendEntriesResponse? && Answer(p)[0].msg.success
  }

  function Round(p: Pair): Pair {
    var f := OnMessage(p.follower, p.leader.id, Sent(p)).node;
    Pair(if Answer(p) == [] then p.leader else OnMessage(p.leader, p.follower.id, Answer(p)[0].msg).node, f)
  }

  ghost predicate RoundAt(ps: seq<Pair>, i: nat) { i + 1 < |ps| ==> ps[i + 1] == Round(ps[i]) }

  // Rounds one after the other.
  ghost predicate Rounds(ps: seq<Pair>) { forall i: nat :: RoundAt(ps, i) }

  ghost predicate RejectedAt(ps: seq<Pair>, i: nat) { i < |ps| ==> Rejected(ps[i]) }

  // Section 5.3 of the Raft paper: an entry of the same index and term means
  // the same log up to there.
  ghost predicate Matching(a: Log, b: Log) {
    forall k :: 0 <= k < |a| && k < |b| && a[k].term == b[k].term ==> a[..k + 1] == b[..k + 1]
  }

  // How far two logs agree.
  function Common(a: Log, b: Log): (n: nat)
    ensures n <= |a| && n <= |b| && a[..n] == b[..n]
    ensures n < |a| && n < |b| ==> a[n] != b[n]
  {
    if a == [] || b == [] || a[0] != b[0] then 0
    else
      var n := 1 + Common(a[1..], b[1..]);
      assert a[..n] == [a[0]] + a[1..][..n - 1] && b[..n] == [b[0]] + b[1..][..n - 1];
      n
  }

  // A node that has compacted nothing.
  ghost predicate WholeLog(s: Store) { s.firstIndex == 1 && s.snapshot == None }

  // What repair keeps: the follower's log is untouched and the leader still
  // looks for the common point from above.
  ghost predicate Repairing(p: Pair, a: Log, b: Log, next: LogIndex) {
    && WholeLog(p.leader.store) && WholeLog(p.follower.store)
    && p.leader.role == Leader && p.leader.store.currentTerm == p.leader.term
    && p.leader.store.log == a && p.follower.store.log == b
    && Lookup(p.leader.repl.nextIndex, p.follower.id, 1) == next
    && Common(a, b) < next <= |a| + 1
  }

  lemma SameAt(a: Log, b: Log, k: nat)
    requires a == b && k < |a|
    ensures a[k] == b[k]
  {
  }

  lemma CommonIsAgreement(a: Log, b: Log, prev: nat)
    requires Matching(a, b) && 0 < prev <= |a|
    ensures prev <= |b| && a[prev - 1].term == b[prev - 1].term <==> prev <= Common(a, b)
  {
    var n := Common(a, b);
    if prev <= n {
      assert a[..n][prev - 1] == b[..n][prev - 1];
    } else if prev <= |b| && a[prev - 1].term == b[prev - 1].term {
      SameAt(a[..prev], b[..prev], n);
      assert false;
    }
  }

  lemma SentIs(p: Pair, a: Log, b: Log, next: LogIndex)
    requires Repairing(p, a, b, next)
    ensures var m := Sent(p);
            m.AppendEntries? && m.term == p.leader.term && m.prevLogIndex == next - 1 && m.entries == a[next - 1..] &&
            m.prevLogTerm == if next == 1 then 0 else a[next - 2].term
  {
    assert a[next - 1..][..|a| - (next - 1)] == a[next - 1..];
  }

  lemma FollowerChecks(p: Pair, a: Log, b: Log, next: LogIndex)
    requires Repairing(p, a, b, next) && Matching(a, b)
    ensures CheckLogConsistency(p.follower.store, Sent(p).prevLogIndex, Sent(p).prevLogTerm) <==>
            next - 1 <= Common(a, b)
  {
    SentIs(p, a, b, next);
    if next > 1 {
      CommonIsAgreement(a, b, next - 1);
    }
  }

  // A follower of a lower term only takes over the term.
  lemma SilentRound(p: Pair, a: Log, b: Log, next: LogIndex)
    requires Repairing(p, a, b, next) && p.follower.term < p.leader.term
    ensures Silent(p) && Repairing(Round(p), a, b, next) && Round(p).follower.term == Round(p).leader.term
    ensures Round(p).leader == p.leader && Round(p).follower.id == p.follower.id
  {
    SentIs(p, a, b, next);
  }

  lemma RejectedRound(p: Pair, a: Log, b: Log, next: LogIndex)
    requires Repairing(p, a, b, next) && Matching(a, b) && p.follower.term == p.leader.term
    requires next - 1 > Common(a, b)
    ensures Rejected(p) && Repairing(Round(p), a, b, next - 1) && Round(p).follower.term == Round(p).leader.term
    ensures Round(p).follower.id == p.follower.id
  {
    SentIs(p, a, b, next);
    FollowerChecks(p, a, b, next);
    var m := Sent(p);
    var reply := AppendEntriesResponse(p.leader.term, false, p.follower.store.LastLogIndex());
    Refuses(p.follower, p.leader.id, m, reply);
    assert Answer(p) == [Envelope(p.leader.id, reply)];
    LeaderStepsBack(p.leader, p.follower.id, reply);
  }

  lemma Refuses(f: Node, from: NodeId, m: Msg, reply: Msg)
    requires m.AppendEntries? && m.term == f.term && !CheckLogConsistency(f.store, m.prevLogIndex, m.prevLogTerm)
    requires reply == AppendEntriesResponse(m.term, false, f.store.LastLogIndex())
    ensures OnMessage(f, from, m).sent == [Envelope(from, reply)]
    ensures OnMessage(f, from, m).node.store == f.store && OnMessage(f, from, m).node.term == f.term
    ensures OnMessage(f, from, m).node.id == f.id
  {
  }

  lemma LeaderStepsBack(n: Node, from: NodeId, reply: Msg)
    requires n.role == Leader && Lookup(n.repl.nextIndex, from, 1) > 1
    requires reply.AppendEntriesResponse? && reply.term == n.term && !reply.success
    ensures OnMessage(n, from, reply).node ==
            n.(repl := n.repl.(nextIndex := n.repl.nextIndex[from := Lookup(n.repl.nextIndex, from, 1) - 1]))
  {
  }

  lemma AcceptedRound(p: Pair, a: Log, b: Log, next: LogIndex)
    requires Repairing(p, a, b, next) && Matching(a, b) && p.follower.term == p.leader.term
    requires next - 1 == Common(a, b)
    ensures Accepted(p) && Round(p).follower.store.log == if a <= b then b else a
  {
    SentIs(p, a, b, next);
    FollowerChecks(p, a, b, next);
    Writes(p.follower, p.leader.id, Sent(p));
    Refilled(a, b, next - 1);
  }

  // A follower's log with everything after the common part replaced.
  lemma Refilled(a: Log, b: Log, common: nat)
    requires common == Common(a, b)
    ensures (if a[common..] == [] then b else b[..common] + a[common..]) == if a <= b then b else a
  {
    assert a == a[..common] + a[common..];
  }

  lemma Writes(f: Node, from: NodeId, m: Msg)
    requires m.AppendEntries? && m.term == f.term && CheckLogConsistency(f.store, m.prevLogIndex, m.prevLogTerm)
    requires WholeLog(f.store) && m.prevLogIndex <= |f.store.log|
    ensures |OnMessage(f, from, m).sent| == 1 && OnMessage(f, from, m).sent[0].msg.AppendEntriesResponse?
    ensures OnMessage(f, from, m).sent[0].msg.success
    ensures OnMessage(f, from, m).node.store.log ==
            if m.entries == [] then f.store.log else f.store.log[..m.prevLogIndex] + m.entries
  {
  }

  ghost predicate RepairingAt(ps: seq<Pair>, i: nat, a: Log, b: Log, next: LogIndex) {
    i < |ps| ==> Repairing(ps[i], a, b, next) && ps[i].follower.term == ps[i].leader.term
  }

  // The step a rejection takes, from one pair to the next.
  lemma RejectionStep(ps: seq<Pair>, i: nat, a: Log, b: Log, next: LogIndex)
    requires Rounds(ps) && i + 1 < |ps| && RepairingAt(ps, i, a, b, next) && Matching(a, b) && next - 1 > Common(a, b)
    ensures RejectedAt(ps, i) && RepairingAt(ps, i + 1, a, b, next - 1)
  {
    assert RoundAt(ps, i);
    RejectedRound(ps[i], a, b, next);
  }

  // Rejections cost one round each, from the end of the leader's log down to
  // the last index where the two logs agree.
  lemma {:induction false} Rejections(ps: seq<Pair>, first: nat, a: Log, b: Log, k: nat)
    requires Rounds(ps) && first + k < |ps| && RepairingAt(ps, first, a, b, |a| + 1) && Matching(a, b)
    requires k <= |a| - Common(a, b)
    ensures RepairingAt(ps, first + k, a, b, |a| + 1 - k)
    ensures forall j: nat :: first <= j < first + k ==> RejectedAt(ps, j)
  {
    if k > 0 {
      Rejections(ps, first, a, b, k - 1);
      RejectionStep(ps, first + k - 1, a, b, |a| + 2 - k);
    }
  }

  // Rounds until the follower accepts: one that only conveys the term if the
  // follower is behind, then one per entry past the common point.
  function Lag(p: Pair): nat { if p.follower.term < p.leader.term then 1 else 0 }

  function Repairs(p: Pair): nat {
    Monus(|p.leader.store.log|, Common(p.leader.store.log, p.follower.store.log))
  }

  lemma LeaderStarts(candidate: Node, follower: Node)
    requires WholeLog(candidate.store) && WholeLog(follower.store)
    requires candidate.store.currentTerm == candidate.term && follower.id in candidate.config.members
    ensures var p := Pair(BecomeLeader(candidate).node, follower);
            Repairing(p, candidate.store.log, follower.store.log, |candidate.store.log| + 1) &&
            p.leader.term == candidate.term && p.leader.store == candidate.store
  {
  }

  lemma SilentStep(p: Pair, q: Pair, a: Log, b: Log, next: LogIndex)
    requires Repairing(p, a, b, next) && p.follower.term < p.leader.term && q == Round(p)
    ensures Silent(p) && Repairing(q, a, b, next) && q.follower.term == q.leader.term
  {
    SilentRound(p, a, b, next);
  }

  // A node that has just become leader repairs any follower that satisfies Log
  // Matching: after exactly that many unsuccessful rounds -- never more than
  // its last log index, plus the silent one -- the next round is accepted, and
  // then the follower has its log, or keeps its own if that extends it.
  lemma LogRepairTerminates(candidate: Node, follower: Node, ps: seq<Pair>)
    requires WholeLog(candidate.store) && WholeLog(follower.store)
    requires candidate.store.currentTerm == candidate.term && follower.term <= candidate.term
    requires follower.id in candidate.config.members
    requires Matching(candidate.store.log, follower.store.log)
    requires |ps| > 0 && ps[0] == Pair(BecomeLeader(candidate).node, follower) && Rounds(ps)
    requires |ps| == Lag(ps[0]) + Repairs(ps[0]) + 2
    ensures Repairs(ps[0]) <= candidate.store.LastLogIndex()
    ensures Lag(ps[0]) == 1 ==> Silent(ps[0])
    ensures forall j: nat :: Lag(ps[0]) <= j < Lag(ps[0]) + Repairs(ps[0]) ==> RejectedAt(ps, j)
    ensures Accepted(ps[|ps| - 2])
    ensures ps[|ps| - 1].follower.store.log ==
            if candidate.store.log <= follower.store.log then follower.store.log else candidate.store.log
  {
    LeaderStarts(candidate, follower);
    RepairFrom(ps, candidate.store.log, follower.store.log, Lag(ps[0]));
  }

  lemma FirstRound(ps: seq<Pair>, a: Log, b: Log, lag: nat)
    requires Rounds(ps) && |ps| > lag && Repairing(ps[0], a, b, |a| + 1)
    requires ps[0].follower.term <= ps[0].leader.term && lag == Lag(ps[0])
    ensures RepairingAt(ps, lag, a, b, |a| + 1)
    ensures lag == 1 ==> Silent(ps[0])
  {
    if lag == 1 {
      assert RoundAt(ps, 0);
      SilentStep(ps[0], ps[1], a, b, |a| + 1);
    }
  }

  lemma RepairFrom(ps: seq<Pair>, a: Log, b: Log, lag: nat)
    requires Rounds(ps) && |ps| > 0 && Repairing(ps[0], a, b, |a| + 1) && Matching(a, b)
    requires ps[0].follower.term <= ps[0].leader.term && lag == Lag(ps[0])
    requires |ps| == lag + (|a| - Common(a, b)) + 2
    ensures lag == 1 ==> Silent(ps[0])
    ensures forall j: nat :: lag <= j < |ps| - 2 ==> RejectedAt(ps, j)
    ensures Accepted(ps[|ps| - 2]) && ps[|ps| - 1].follower.store.log == if a <= b then b else a
  {
    var k := |a| - Common(a, b);
    FirstRound(ps, a, b, lag);
    Rejections(ps, lag, a, b, k);
    assert RoundAt(ps, lag + k);
    AcceptanceStep(ps[lag + k], ps[lag + k + 1], a, b, |a| + 1 - k);
  }

  lemma AcceptanceStep(p: Pair, q: Pair, a: Log, b: Log, next: LogIndex)
    requires Repairing(p, a, b, next) && Matching(a, b) && p.follower.term == p.leader.term
    requires next - 1 == Common(a, b) && q == Round(p)
    ensures Accepted(p) && q.follower.store.log == if a <= b then b else a
  {
    AcceptedRound(p, a, b, next);
  }

  // --- A follower behind the leader's window ---

  // A log that starts right behind its snapshot.
  ghost predicate Compacted(s: Store) {
    s.snapshot.Some? && s.firstIndex == s.snapshot.value.lastIncludedIndex + 1 && s.snapshot.value.data != []
  }

  // The leader has compacted what the follower is missing, and the follower has
  // no snapshot as new. It may be behind in term as well.
  ghost predicate Behind(p: Pair) {
    && p.leader.role == Leader && p.leader.store.currentTerm == p.leader.term >= p.follower.term
    && Compacted(p.leader.store) && Lookup(p.leader.repl.nextIndex, p.follower.id, 1) < p.leader.store.firstIndex
    && 1 <= p.follower.store.firstIndex <= p.leader.store.firstIndex
    && (p.follower.store.snapshot.Some? ==>
          p.follower.store.snapshot.value.lastIncludedIndex < p.leader.store.snapshot.value.lastIncludedIndex)
  }

  // The follower has the leader's snapshot, and the leader knows.
  ghost predicate CaughtUp(p: Pair, leader: Node) {
    && p.leader.role == Leader && p.leader.store == leader.store && p.leader.id == leader.id
    && p.leader.term == leader.term == p.follower.term == leader.store.currentTerm
    && Compacted(leader.store) && p.follower.store.snapshot == leader.store.snapshot
    && p.follower.store.firstIndex == leader.store.firstIndex
    && Lookup(p.leader.repl.nextIndex, p.follower.id, 1) == leader.store.firstIndex
    && Lookup(p.leader.repl.matchIndex, p.follower.id, 0) == leader.store.firstIndex - 1
  }

  lemma SnapshotSent(p: Pair)
    requires Behind(p)
    ensures var snap := p.leader.store.snapshot.value;
            Sent(p) == InstallSnapshot(p.leader.term, p.leader.id, snap.lastIncludedIndex, snap.lastIncludedTerm, 0,
                                       snap.data, true)
  {
    var data := p.leader.store.snapshot.value.data;
    assert data[0..|data|] == data;
  }

  lemma SnapshotTaken(f: Node, from: NodeId, m: Msg)
    requires m.InstallSnapshot? && m.term >= f.term && m.offset == 0 && m.done
    requires f.store.snapshot.Some? ==> f.store.snapshot.value.lastIncludedIndex < m.lastIncludedIndex
    requires 1 <= f.store.firstIndex <= m.lastIncludedIndex + 1
    ensures var s := OnMessage(f, from, m);
            && s.sent == [Envelope(from, InstallSnapshotResponse(m.term, true))]
            && s.node.store.snapshot == Some(Snapshot(m.lastIncludedIndex, m.lastIncludedTerm, m.data))
            && s.node.store.firstIndex == m.lastIncludedIndex + 1 && s.node.term == m.term && s.node.id == f.id
            && s.node.store.log == f.store.DiscardEntriesBefore(m.lastIncludedIndex + 1).log
  {
    assert [] + m.data == m.data;
  }

  lemma SnapshotAcknowledged(n: Node, from: NodeId)
    requires n.role == Leader && n.store.snapshot.Some?
    ensures var d := OnMessage(n, from, InstallSnapshotResponse(n.term, true)).node;
            && d == n.(repl := d.repl)
            && Lookup(d.repl.nextIndex, from, 1) == n.store.snapshot.value.lastIncludedIndex + 1
            && Lookup(d.repl.matchIndex, from, 0) == n.store.snapshot.value.lastIncludedIndex
  {
  }

  lemma SnapshotRound(p: Pair)
    requires Behind(p)
    ensures CaughtUp(Round(p), p.leader)
    ensures Round(p).follower.store.log == p.follower.store.DiscardEntriesBefore(p.leader.store.firstIndex).log
  {
    SnapshotSent(p);
    SnapshotTaken(p.follower, p.leader.id, Sent(p));
    SnapshotAcknowledged(p.leader, p.follower.id);
  }

  lemma WindowSent(p: Pair, leader: Node)
    requires CaughtUp(p, leader)
    ensures var m := Sent(p);
            && m.AppendEntries? && m.term == leader.term && m.entries == leader.store.log
            && m.prevLogIndex == leader.store.snapshot.value.lastIncludedIndex
            && (m.prevLogIndex > 0 ==> m.prevLogTerm == leader.store.snapshot.value.lastIncludedTerm)
  {
    var log := leader.store.log;
    assert log[0..|log|] == log;
  }

  lemma WindowTaken(f: Node, from: NodeId, m: Msg)
    requires m.AppendEntries? && m.term == f.term && f.store.snapshot.Some?
    requires f.store.firstIndex == f.store.snapshot.value.lastIncludedIndex + 1 == m.prevLogIndex + 1
    requires m.prevLogIndex > 0 ==> m.prevLogTerm == f.store.snapshot.value.lastIncludedTerm
    ensures var s := OnMessage(f, from, m);
            && |s.sent| == 1 && s.sent[0].msg.AppendEntriesResponse? && s.sent[0].msg.success
            && s.node.store.log == (if m.entries == [] then f.store.log else m.entries)
            && s.node.store.snapshot == f.store.snapshot && s.node.store.firstIndex == f.store.firstIndex
  {
    assert [] + m.entries == m.entries;
  }

  lemma WindowRound(p: Pair, leader: Node)
    requires CaughtUp(p, leader)
    ensures Accepted(p)
    ensures var s := Round(p).follower.store;
            && s.snapshot == leader.store.snapshot && s.firstIndex == leader.store.firstIndex
            && s.log == if leader.store.log == [] then p.follower.store.log else leader.store.log
  {
    WindowSent(p, leader);
    WindowTaken(p.follower, p.leader.id, Sent(p));
  }

  // A follower behind the window is level after two rounds: the first gives it
  // the leader's snapshot, the second everything after it. With nothing after it
  // to send, the follower keeps what it had beyond the snapshot.
  lemma SnapshotCatchUp(ps: seq<Pair>)
    requires |ps| == 3 && Rounds(ps) && Behind(ps[0])
    ensures Accepted(ps[1])
    ensures var s, t := ps[2].follower.store, ps[0].leader.store;
            && s.snapshot == t.snapshot && s.firstIndex == t.firstIndex
            && s.log == if t.log != [] then t.log else ps[0].follower.store.DiscardEntriesBefore(t.firstIndex).log
  {
    assert RoundAt(ps, 0) && RoundAt(ps, 1);
    SnapshotRound(ps[0]);
    WindowRound(ps[1], ps[0].leader);
  }
}
