// The sliding-window log against the log it stands for: one that keeps every
// entry from index 1 and never compacts.
module Windows {
  import opened Types
  import opened StateMachines
  import opened Storage
  import opened Replication
  import opened Elections
  import opened Snapshots

  // What the core asks of a store's log. Compact is a snapshot at an applied
  // index followed by discarding; Install is a completed snapshot transfer
  // that stands for a given prefix, followed by discarding.
  datatype Op =
    | Append(entries: Log)
    | TruncateAfter(index: LogIndex)
    | Compact(upTo: LogIndex, sm: KV)
    | Install(prefix: Log, data: Bytes)

  function TermOfLast(log: Log): Term { if log == [] then 0 else log[|log| - 1].term }

  // A transfer is only accepted when it is newer than the stored snapshot.
  predicate Newer(s: Store, index: LogIndex) {
    s.snapshot.Some? ==> index > s.snapshot.value.lastIncludedIndex
  }

  function OnStore(s: Store, op: Op, codec: Codec): Store {
    match op
    case Append(entries) => s.Append(entries)
    case TruncateAfter(index) => s.TruncateAfter(index)
    case Compact(upTo, sm) =>
      (match Create(s, sm, upTo, codec)
       case Ok(t) => t
       case Err(_) => s)
    case Install(prefix, data) =>
      if Newer(s, |prefix|) then
        s.ApplySnapshotChunk(0, data, true, |prefix|, TermOfLast(prefix)).0.DiscardEntriesBefore(|prefix| + 1)
      else s
  }

  // The full log, and how many of its entries the window has let go of.
  datatype Full = Full(log: Log, gone: nat)

  function OnFull(f: Full, op: Op): Full {
    match op
    case Append(entries) => f.(log := f.log + entries)
    case TruncateAfter(index) => f.(log := f.log[..Min(|f.log|, Max(index, f.gone))])
    case Compact(upTo, _) => if f.gone < upTo <= |f.log| then f.(gone := upTo) else f
    case Install(prefix, _) =>
      if |prefix| > f.gone then Full(prefix + if |f.log| > |prefix| then f.log[|prefix|..] else [], |prefix|) else f
  }

  function StoreAfter(ops: seq<Op>, codec: Codec): Store {
    if ops == [] then EMPTY_STORE else OnStore(StoreAfter(ops[..|ops| - 1], codec), ops[|ops| - 1], codec)
  }

  function FullAfter(ops: seq<Op>): Full {
    if ops == [] then Full([], 0) else OnFull(FullAfter(ops[..|ops| - 1]), ops[|ops| - 1])
  }

  ghost predicate Represents(s: Store, f: Full) {
    && f.gone <= |f.log|
    && s.firstIndex == f.gone + 1
    && s.log == f.log[f.gone..]
    && (match s.snapshot
        case None => f.gone == 0
        case Some(snap) => snap.lastIncludedIndex == f.gone && snap.lastIncludedTerm == TermOfLast(f.log[..f.gone]))
  }

  lemma AppendRefines(s: Store, f: Full, entries: Log)
    requires Represents(s, f)
    ensures Represents(s.Append(entries), OnFull(f, Append(entries)))
  {
    assert (f.log + entries)[f.gone..] == f.log[f.gone..] + entries;
    assert (f.log + entries)[..f.gone] == f.log[..f.gone];
  }

  lemma TruncateRefines(s: Store, f: Full, index: LogIndex)
    requires Represents(s, f)
    ensures Represents(s.TruncateAfter(index), OnFull(f, TruncateAfter(index)))
  {
    var g := OnFull(f, TruncateAfter(index));
    assert g.log[..f.gone] == f.log[..f.gone];
    assert s.TruncateAfter(index).log == g.log[f.gone..];
  }

  lemma CompactRefines(s: Store, f: Full, upTo: LogIndex, sm: KV, codec: Codec)
    requires Represents(s, f)
    ensures Represents(OnStore(s, Compact(upTo, sm), codec), OnFull(f, Compact(upTo, sm)))
  {
    var t := OnStore(s, Compact(upTo, sm), codec);
    if f.gone < upTo <= |f.log| {
      assert s.GetEntry(upTo) == Some(f.log[upTo - 1]);
      assert f.log[..upTo][upTo - 1] == f.log[upTo - 1];
      assert t.log == f.log[upTo..];
    }
  }

  lemma InstallRefines(s: Store, f: Full, prefix: Log, data: Bytes, codec: Codec)
    requires Represents(s, f)
    ensures Represents(OnStore(s, Install(prefix, data), codec), OnFull(f, Install(prefix, data)))
  {
    if |prefix| > f.gone {
      var g := OnFull(f, Install(prefix, data));
      assert g.log[..|prefix|] == prefix;
      assert OnStore(s, Install(prefix, data), codec).log == g.log[|prefix|..];
    }
  }

  // After any operations the window stands for the full log after the same
  // operations, and starts right behind its snapshot.
  lemma {:induction false} WindowRefinesFullLog(ops: seq<Op>, codec: Codec)
    ensures Represents(StoreAfter(ops, codec), FullAfter(ops))
  {
    if ops != [] {
      var op := ops[|ops| - 1];
      WindowRefinesFullLog(ops[..|ops| - 1], codec);
      var s, f := StoreAfter(ops[..|ops| - 1], codec), FullAfter(ops[..|ops| - 1]);
      match op
      case Append(entries) => AppendRefines(s, f, entries);
      case TruncateAfter(index) => TruncateRefines(s, f, index);
      case Compact(upTo, sm) => CompactRefines(s, f, upTo, sm, codec);
      case Install(prefix, data) => InstallRefines(s, f, prefix, data, codec);
    }
  }

  // Reading the window is reading the full log, as far as it is still there.
  lemma ReadsAgree(s: Store, f: Full, index: LogIndex, start: LogIndex, end: LogIndex)
    requires Represents(s, f)
    ensures s.LastLogIndex() == |f.log| && s.LastLogTerm() == TermOfLast(f.log)
    ensures s.GetEntry(index) == if f.gone < index <= |f.log| then Some(f.log[index - 1]) else None
    ensures f.gone < start && end <= |f.log| + 1 ==>
              s.GetEntries(start, end) == if start < end then f.log[start - 1..end - 1] else []
    ensures start <= f.gone || end > |f.log| + 1 ==> s.GetEntries(start, end) == []
  {
    if s.log != [] {
      assert s.log[|s.log| - 1] == f.log[|f.log| - 1];
    } else {
      assert f.log[..f.gone] == f.log;
    }
  }

  // So the protocol decides on a compacted log as it would on the full one:
  // whose log is newer, which term precedes an index, and whether a follower
  // holds it.
  lemma DecisionsAgree(s: Store, f: Full, prev: LogIndex, prevTerm: Term, lastIndex: LogIndex, lastTerm: Term)
    requires Represents(s, f)
    ensures IsLogUpToDate(lastIndex, lastTerm, s) <==>
              lastTerm > TermOfLast(f.log) || (lastTerm == TermOfLast(f.log) && lastIndex >= |f.log|)
    ensures f.gone <= prev <= |f.log| ==> PrevLogTerm(s, prev) == TermOfLast(f.log[..prev])
    ensures f.gone <= prev && prev > 0 ==>
              (CheckLogConsistency(s, prev, prevTerm) <==>
               prev <= |f.log| && prevTerm == TermOfLast(f.log[..prev]))
  {
    ReadsAgree(s, f, prev, 0, 0);
    if f.gone < prev <= |f.log| {
      assert f.log[..prev][prev - 1] == f.log[prev - 1];
    }
  }

  // The follower's check on any window, also below it: index 0 is always accepted,
  // and any other index only from the window's start to the log's end.
  lemma AcceptedPrev(s: Store, f: Full, prev: LogIndex, prevTerm: Term)
    requires Represents(s, f)
    ensures CheckLogConsistency(s, prev, prevTerm) <==>
            prev == 0 || (f.gone <= prev <= |f.log| && prevTerm == TermOfLast(f.log[..prev]))
  {
    DecisionsAgree(s, f, prev, prevTerm, 0, 0);
    ReadsAgree(s, f, prev, 0, 0);
  }

  // Each entry of a message is found right behind prev, in order.
  ghost predicate Behind(s: Store, prev: LogIndex, entries: Log) {
    forall i: nat :: i < |entries| ==> s.GetEntry(prev + 1 + i) == Some(entries[i])
  }

  // Writing inside the window is cutting the full log at prev and extending it.
  lemma WriteInWindow(s: Store, f: Full, prev: LogIndex, entries: Log)
    requires Represents(s, f) && entries != [] && f.gone <= prev <= |f.log|
    ensures Represents(WriteEntries(s, prev, entries), f.(log := f.log[..prev] + entries))
  {
    var cut := OnFull(f, TruncateAfter(prev));
    ReadsAgree(s, f, 0, 0, 0);
    TruncateRefines(s, f, prev);
    assert prev == |f.log| ==> f.log[..prev] == f.log;
    AppendRefines(if |f.log| > prev then s.TruncateAfter(prev) else s, if |f.log| > prev then cut else f, entries);
  }

  lemma WrittenBehind(w: Store, f: Full, prev: LogIndex, entries: Log)
    requires f.gone <= prev <= |f.log| && Represents(w, f.(log := f.log[..prev] + entries))
    ensures Behind(w, prev, entries)
  {
    forall i: nat | i < |entries| ensures w.GetEntry(prev + 1 + i) == Some(entries[i]) {
      ReadsAgree(w, f.(log := f.log[..prev] + entries), prev + 1 + i, 0, 0);
    }
  }

  lemma FirstBehind(s: Store, prev: LogIndex, entries: Log)
    requires Behind(s, prev, entries) && entries != []
    ensures s.GetEntry(prev + 1) == Some(entries[0])
  {
    var i: nat := 0;
    assert s.GetEntry(prev + 1 + i) == Some(entries[i]);
  }

  lemma WriteBelowWindow(s: Store, f: Full, entries: Log)
    requires Represents(s, f) && entries != [] && f.gone > 0
    ensures WriteEntries(s, 0, entries).log == entries && WriteEntries(s, 0, entries).firstIndex == s.firstIndex
    ensures !Behind(WriteEntries(s, 0, entries), 0, entries)
  {
    assert [] + entries == entries;
    var w := WriteEntries(s, 0, entries);
    if Behind(w, 0, entries) {
      FirstBehind(w, 0, entries);
      assert false;
    }
  }

  // The entries of an accepted message land right behind prev, as on the full
  // log, if and only if they start inside the window. The one accepted message
  // that does not start there is one from index 0 on a compacted log: its entries
  // replace the window.
  lemma EntriesLandBehindPrev(s: Store, f: Full, prev: LogIndex, prevTerm: Term, entries: Log)
    requires Represents(s, f) && CheckLogConsistency(s, prev, prevTerm) && entries != []
    ensures Behind(WriteEntries(s, prev, entries), prev, entries) <==> s.firstIndex <= prev + 1
    ensures s.firstIndex <= prev + 1 ==> Represents(WriteEntries(s, prev, entries), f.(log := f.log[..prev] + entries))
    ensures s.firstIndex > prev + 1 ==> prev == 0 && WriteEntries(s, prev, entries).log == entries
  {
    AcceptedPrev(s, f, prev, prevTerm);
    if s.firstIndex <= prev + 1 {
      WriteInWindow(s, f, prev, entries);
      WrittenBehind(WriteEntries(s, prev, entries), f, prev, entries);
    } else {
      WriteBelowWindow(s, f, entries);
    }
  }

  // Cutting the log back to an index inside the window forgets exactly what is
  // after it; an index below the window only empties the window.
  lemma TruncationStopsAtWindow(s: Store, f: Full, index: LogIndex)
    requires Represents(s, f)
    ensures s.TruncateAfter(index).LastLogIndex() == Min(|f.log|, Max(index, f.gone))
    ensures forall k: LogIndex :: s.TruncateAfter(index).GetEntry(k) ==
                        if f.gone < k <= Min(|f.log|, Max(index, f.gone)) then Some(f.log[k - 1]) else None
  {
    TruncateRefines(s, f, index);
    var g := OnFull(f, TruncateAfter(index));
    forall k: LogIndex
      ensures s.TruncateAfter(index).GetEntry(k) ==
              if f.gone < k <= Min(|f.log|, Max(index, f.gone)) then Some(f.log[k - 1]) else None
    {
      ReadsAgree(s.TruncateAfter(index), g, k, 0, 0);
    }
    ReadsAgree(s.TruncateAfter(index), g, 0, 0, 0);
  }
}
