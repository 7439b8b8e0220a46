// Durable state of a node: term, vote, a log kept as a window that starts at
// firstIndex, and at most one snapshot standing for everything before it.
module Storage {
  import opened Types

  datatype Snapshot = Snapshot(lastIncludedIndex: LogIndex, lastIncludedTerm: Term, data: Bytes)

  datatype Chunk = Chunk(offset: nat, data: Bytes, done: bool)

  // SimSnapshotData::chunk_at. None stands for "no limit" (usize::MAX).
  function ChunkAt(data: Bytes, offset: nat, maxLen: Option<nat>): Option<Bytes> {
    if offset >= |data| then None
    else
      var end := if maxLen.None? then |data| else Min(offset + maxLen.value, |data|);
      Some(data[offset..end])
  }

  datatype Store = Store(
    currentTerm: Term,
    votedFor: Option<NodeId>,
    log: Log,
    snapshot: Option<Snapshot>,
    pending: Bytes,
    firstIndex: LogIndex)
  {
    function LastLogIndex(): LogIndex {
      if |log| == 0 then Monus(firstIndex, 1) else firstIndex + |log| - 1
    }

    function LastLogTerm(): Term {
      if |log| > 0 then log[|log| - 1].term
      else if snapshot.Some? then snapshot.value.lastIncludedTerm
      else 0
    }

    function GetEntry(index: LogIndex): Option<LogEntry> {
      if index < firstIndex then None
      else if index - firstIndex < |log| then Some(log[index - firstIndex])
      else None
    }

    // A range that runs past the end of the log yields nothing at all.
    function GetEntries(start: LogIndex, end: LogIndex): Log {
      if start < firstIndex || start >= end || end - firstIndex > |log| then []
      else log[start - firstIndex..end - firstIndex]
    }

    function Append(entries: Log): Store { this.(log := log + entries) }

    function TruncateAfter(index: LogIndex): Store {
      if index < firstIndex then this.(log := [])
      else if index - firstIndex + 1 < |log| then this.(log := log[..index - firstIndex + 1])
      else this
    }

    function SaveSnapshot(s: Snapshot): Store { this.(snapshot := Some(s)) }

    function GetSnapshotChunk(offset: nat, maxLen: Option<nat>): Option<Chunk> {
      if snapshot.None? then None
      else
        match ChunkAt(snapshot.value.data, offset, maxLen)
        case None => None
        case Some(d) => Some(Chunk(offset, d, offset + |d| >= |snapshot.value.data|))
    }

    // The pending buffer restarts at offset 0 even when the chunk is then refused.
    function ApplySnapshotChunk(offset: nat, chunk: Bytes, done: bool, lastIncludedIndex: LogIndex,
                                lastIncludedTerm: Term): (Store, bool)
    {
      var base := if offset == 0 then [] else pending;
      if offset != |base| then (this.(pending := base), false)
      else if done then
        (this.(snapshot := Some(Snapshot(lastIncludedIndex, lastIncludedTerm, base + chunk)), pending := []), true)
      else (this.(pending := base + chunk), true)
    }

    function DiscardEntriesBefore(index: LogIndex): Store {
      if index <= firstIndex then this
      else if index - firstIndex >= |log| then this.(log := [], firstIndex := index)
      else this.(log := log[index - firstIndex..], firstIndex := index)
    }
  }

  const EMPTY_STORE := Store(0, None, [], None, [], 1)

  // InMemoryStorage with its fields changed in place.
  class InMemoryStorage {
    var currentTerm: Term
    var votedFor: Option<NodeId>
    var log: Log
    var snapshot: Option<Snapshot>
    var pendingSnapshotData: Bytes
    var firstIndex: LogIndex

    function View(): Store
      reads this
    {
      Store(currentTerm, votedFor, log, snapshot, pendingSnapshotData, firstIndex)
    }

    constructor ()
      ensures View() == EMPTY_STORE
    {
      currentTerm := 0;
      votedFor := None;
      log := [];
      snapshot := None;
      pendingSnapshotData := [];
      firstIndex := 1;
    }

    method SetCurrentTerm(term: Term)
      modifies this`currentTerm
      ensures currentTerm == term
    {
      currentTerm := term;
    }

    method SetVotedFor(vote: Option<NodeId>)
      modifies this`votedFor
      ensures votedFor == vote
    {
      votedFor := vote;
    }

    method AppendEntries(entries: Log)
      modifies this`log
      ensures View() == old(View()).Append(entries)
    {
      var i := 0;
      while i < |entries|
        invariant 0 <= i <= |entries|
        invariant log == old(log) + entries[..i]
      {
        log := log + [entries[i]];
        i := i + 1;
      }
    }

    method TruncateAfter(index: LogIndex)
      modifies this`log
      ensures View() == old(View()).TruncateAfter(index)
    {
      if index < firstIndex {
        log := [];
        return;
      }
      var truncateAt := index - firstIndex + 1;
      if truncateAt < |log| {
        log := log[..truncateAt];
      }
    }

    method SaveSnapshot(s: Snapshot)
      modifies this`snapshot
      ensures View() == old(View()).SaveSnapshot(s)
    {
      snapshot := Some(s);
    }

    method ApplySnapshotChunk(offset: nat, chunk: Bytes, done: bool, lastIncludedIndex: LogIndex,
                              lastIncludedTerm: Term)
      returns (ok: bool)
      modifies this`snapshot, this`pendingSnapshotData
      ensures (View(), ok) ==
              old(View()).ApplySnapshotChunk(offset, chunk, done, lastIncludedIndex, lastIncludedTerm)
    {
      if offset == 0 {
        pendingSnapshotData := [];
      }
      if offset != |pendingSnapshotData| {
        return false;
      }
      pendingSnapshotData := pendingSnapshotData + chunk;
      if done {
        SaveSnapshot(Snapshot(lastIncludedIndex, lastIncludedTerm, pendingSnapshotData));
        pendingSnapshotData := [];
      }
      return true;
    }

    method DiscardEntriesBefore(index: LogIndex)
      modifies this`log, this`firstIndex
      ensures View() == old(View()).DiscardEntriesBefore(index)
    {
      if index <= firstIndex {
        return;
      }
      var numToDiscard := index - firstIndex;
      if numToDiscard >= |log| {
        log := [];
        firstIndex := index;
      } else {
        log := log[numToDiscard..];
        firstIndex := index;
      }
    }
  }
}
