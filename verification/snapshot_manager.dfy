// When a leader snapshots, and what the snapshot holds.
module Snapshots {
  import opened Types
  import opened Storage
  import opened StateMachines

  datatype SnapshotError = NoEntriesToSnapshot | EntryNotFound

  predicate ShouldCreate(threshold: LogIndex, commitIndex: LogIndex, store: Store) {
    if commitIndex < threshold then false
    else if store.snapshot.Some? && store.snapshot.value.lastIncludedIndex >= threshold then false
    else true
  }

  function Create(store: Store, sm: KV, lastApplied: LogIndex, codec: Codec): Result<Store, SnapshotError> {
    if lastApplied == 0 then Err(NoEntriesToSnapshot)
    else
      match store.GetEntry(lastApplied)
      case None => Err(EntryNotFound)
      case Some(e) =>
        Ok(store.SaveSnapshot(Snapshot(lastApplied, e.term, codec.encode(sm))).DiscardEntriesBefore(lastApplied + 1))
  }
}
