// Log replication: what the leader sends, what a follower accepts, how commit
// and apply advance. Pure step functions first, then the mutable manager.
module Replication {
  import opened Types
  import opened StateMachines
  import opened Storage
  import opened Medians

  datatype Repl = Repl(
    nextIndex: map<NodeId, LogIndex>,
    matchIndex: map<NodeId, LogIndex>,
    commitIndex: LogIndex,
    lastApplied: LogIndex,
    catchingUp: map<NodeId, LogIndex>)

  const EMPTY_REPL := Repl(map[], map[], 0, 0, map[])

  function Lookup(m: map<NodeId, LogIndex>, k: NodeId, default: LogIndex): LogIndex {
    if k in m then m[k] else default
  }

  // The map with one value stored for each of a list of keys.
  function InsertAll(m: map<NodeId, LogIndex>, keys: seq<NodeId>, value: LogIndex): (r: map<NodeId, LogIndex>)
    ensures forall k :: k in r <==> k in m || k in keys
    ensures forall k :: k in r ==> r[k] == if k in keys then value else m[k]
  {
    if keys == [] then m
    else
      var init, last := keys[..|keys| - 1], keys[|keys| - 1];
      assert keys == init + [last];
      InsertAll(m, init, value)[last := value]
  }

  function InitializeLeaderState(r: Repl, peers: seq<NodeId>, store: Store): Repl {
    r.(nextIndex := InsertAll(r.nextIndex, peers, store.LastLogIndex() + 1),
       matchIndex := InsertAll(r.matchIndex, peers, 0))
  }

  function PrevLogTerm(store: Store, prev: LogIndex): Term {
    if prev == 0 then 0
    else
      match store.GetEntry(prev)
      case Some(e) => e.term
      case None =>
        if store.snapshot.Some? && prev == store.snapshot.value.lastIncludedIndex
        then store.snapshot.value.lastIncludedTerm
        else 0
  }

  function GetAppendEntriesForFollower(r: Repl, peer: NodeId, currentTerm: Term, store: Store): Msg {
    var next := Lookup(r.nextIndex, peer, 1);
    var prev := Monus(next, 1);
    AppendEntries(currentTerm, prev, PrevLogTerm(store, prev),
                  store.GetEntries(next, store.LastLogIndex() + 1), r.commitIndex)
  }

  function GetAppendEntriesForPeer(r: Repl, peer: NodeId, leaderId: NodeId, store: Store): Msg {
    var chunk := store.GetSnapshotChunk(0, None);
    if Lookup(r.nextIndex, peer, 1) < store.firstIndex && store.snapshot.Some? && chunk.Some? then
      InstallSnapshot(store.currentTerm, leaderId, store.snapshot.value.lastIncludedIndex,
                      store.snapshot.value.lastIncludedTerm, chunk.value.offset, chunk.value.data, chunk.value.done)
    else GetAppendEntriesForFollower(r, peer, store.currentTerm, store)
  }

  predicate CheckLogConsistency(store: Store, prev: LogIndex, prevTerm: Term) {
    if prev == 0 then true
    else
      match store.GetEntry(prev)
      case Some(e) => e.term == prevTerm
      case None =>
        store.snapshot.Some? && prev == store.snapshot.value.lastIncludedIndex &&
        prevTerm == store.snapshot.value.lastIncludedTerm
  }

  // The state machine after entries from+1..to; an index with no entry is skipped.
  function ApplyRange(m: KV, store: Store, from: LogIndex, to: LogIndex): KV
    decreases to
  {
    if to <= from then m
    else
      match store.GetEntry(to)
      case None => ApplyRange(m, store, from, to - 1)
      case Some(e) => ApplyEntry(ApplyRange(m, store, from, to - 1), e)
  }

  // The configuration changes among entries from+1..to, in order.
  function ChangesIn(store: Store, from: LogIndex, to: LogIndex): seq<IndexedChange>
    decreases to
  {
    if to <= from then []
    else
      ChangesIn(store, from, to - 1) +
      match store.GetEntry(to)
      case Some(LogEntry(_, ConfigChange(change))) => [IndexedChange(to, change)]
      case _ => []
  }

  datatype Applied = Applied(repl: Repl, sm: KV, changes: seq<IndexedChange>)

  function ApplyCommittedEntries(r: Repl, store: Store, sm: KV): Applied {
    Applied(r.(lastApplied := Max(r.lastApplied, r.commitIndex)),
            ApplyRange(sm, store, r.lastApplied, r.commitIndex),
            ChangesIn(store, r.lastApplied, r.commitIndex))
  }

  datatype Appended = Appended(ok: bool, repl: Repl, store: Store, sm: KV, changes: seq<IndexedChange>)

  // Any non-empty message replaces everything after prev, conflicting or not.
  function WriteEntries(store: Store, prev: LogIndex, entries: Log): Store {
    if entries == [] then store
    else (if store.LastLogIndex() > prev then store.TruncateAfter(prev) else store).Append(entries)
  }

  function TryAppendEntries(r: Repl, prev: LogIndex, prevTerm: Term, entries: Log, leaderCommit: LogIndex,
                            store: Store, sm: KV): Appended
  {
    if !CheckLogConsistency(store, prev, prevTerm) then Appended(false, r, store, sm, [])
    else
      var written := WriteEntries(store, prev, entries);
      if leaderCommit > r.commitIndex then
        var a := ApplyCommittedEntries(r.(commitIndex := Min(leaderCommit, written.LastLogIndex())), written, sm);
        Appended(true, a.repl, written, a.sm, a.changes)
      else Appended(true, r, written, sm, [])
  }

  datatype AppendOutcome = AppendOutcome(repl: Repl, store: Store, sm: KV, role: Role, term: Term, reply: Msg,
                                         changes: seq<IndexedChange>)

  function HandleAppendEntries(r: Repl, term: Term, prev: LogIndex, prevTerm: Term, entries: Log,
                               leaderCommit: LogIndex, currentTerm: Term, store: Store, sm: KV, role: Role)
    : AppendOutcome
  {
    var newTerm := Max(term, currentTerm);
    var store1 := if term > currentTerm then store.(currentTerm := term, votedFor := None) else store;
    var role1 := if term > currentTerm || (term == currentTerm && role == Candidate) then Follower else role;
    if term < newTerm then
      AppendOutcome(r, store1, sm, role1, newTerm,
                    AppendEntriesResponse(newTerm, false, store1.LastLogIndex()), [])
    else
      var a := TryAppendEntries(r, prev, prevTerm, entries, leaderCommit, store1, sm);
      AppendOutcome(a.repl, a.store, a.sm, role1, newTerm,
                    AppendEntriesResponse(newTerm, a.ok, a.store.LastLogIndex()), a.changes)
  }

  function AdvanceCommitIndex(r: Repl, store: Store, sm: KV, members: seq<NodeId>, leaderId: NodeId): Applied {
    var newCommit := ComputeMedian(r.matchIndex, store.LastLogIndex(), members, r.catchingUp, leaderId);
    var e := store.GetEntry(newCommit);
    if newCommit > r.commitIndex && e.Some? && e.value.term == store.currentTerm then
      ApplyCommittedEntries(r.(commitIndex := newCommit), store, sm)
    else Applied(r, sm, [])
  }

  function PromoteCaughtUp(r: Repl, node: NodeId): Repl {
    if node in r.catchingUp && Lookup(r.matchIndex, node, 0) >= r.commitIndex
    then r.(catchingUp := r.catchingUp - {node})
    else r
  }

  function HandleAppendEntriesResponse(r: Repl, from: NodeId, success: bool, matchIndex: LogIndex, store: Store,
                                       sm: KV, members: seq<NodeId>, leaderId: NodeId): Applied
  {
    if success then
      if matchIndex > Lookup(r.matchIndex, from, 0) then
        var r1 := r.(matchIndex := r.matchIndex[from := matchIndex], nextIndex := r.nextIndex[from := matchIndex + 1]);
        AdvanceCommitIndex(PromoteCaughtUp(r1, from), store, sm, members, leaderId)
      else Applied(r, sm, [])
    else
      var next := Lookup(r.nextIndex, from, 1);
      if next > 1 then Applied(r.(nextIndex := r.nextIndex[from := next - 1]), sm, [])
      else Applied(r, sm, [])
  }

  datatype SnapshotOutcome = SnapshotOutcome(repl: Repl, store: Store, sm: KV, role: Role, term: Term, reply: Msg)

  function HandleInstallSnapshot(r: Repl, term: Term, lastIncludedIndex: LogIndex, lastIncludedTerm: Term,
                                 offset: nat, data: Bytes, done: bool, currentTerm: Term, store: Store, sm: KV,
                                 role: Role, codec: Codec): SnapshotOutcome
  {
    if term < currentTerm then
      SnapshotOutcome(r, store, sm, role, currentTerm, InstallSnapshotResponse(currentTerm, false))
    else
      var store1 := if term > currentTerm then store.(currentTerm := term, votedFor := None) else store;
      var role1 := if term > currentTerm || role == Candidate then Follower else role;
      if store1.snapshot.Some? && lastIncludedIndex <= store1.snapshot.value.lastIncludedIndex then
        SnapshotOutcome(r, store1, sm, role1, term, InstallSnapshotResponse(term, false))
      else
        var (store2, ok) := store1.ApplySnapshotChunk(offset, data, done, lastIncludedIndex, lastIncludedTerm);
        if ok && done && store2.snapshot.Some? then
          SnapshotOutcome(r.(commitIndex := Max(r.commitIndex, lastIncludedIndex),
                             lastApplied := Max(r.lastApplied, lastIncludedIndex)),
                          store2.DiscardEntriesBefore(lastIncludedIndex + 1),
                          Restore(codec, sm, store2.snapshot.value.data),
                          role1, term, InstallSnapshotResponse(term, true))
        else SnapshotOutcome(r, store2, sm, role1, term, InstallSnapshotResponse(term, ok))
  }

  function HandleInstallSnapshotResponse(r: Repl, peer: NodeId, success: bool, lastIncludedIndex: LogIndex): Repl {
    if success then
      PromoteCaughtUp(r.(nextIndex := r.nextIndex[peer := lastIncludedIndex + 1],
                         matchIndex := r.matchIndex[peer := lastIncludedIndex]), peer)
    else r
  }
}
