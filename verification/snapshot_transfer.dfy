// Sending a snapshot in chunks: any sizes, any order, repeats, losses and
// restarts, and still only the source itself can be installed.
module SnapshotTransfer {
  import opened Types
  import opened Storage
  import opened Replication

  // A chunk of the source as a sender cuts it, if there is one at that offset.
  function Cut(source: Snapshot, offset: nat, maxLen: Option<nat>): Option<Chunk> {
    EMPTY_STORE.SaveSnapshot(source).GetSnapshotChunk(offset, maxLen)
  }

  // One delivery of such a chunk; the flag says whether it was accepted.
  function Deliver(s: Store, source: Snapshot, c: Chunk): (Store, bool) {
    s.ApplySnapshotChunk(c.offset, c.data, c.done, source.lastIncludedIndex, source.lastIncludedTerm)
  }

  ghost predicate CutFrom(source: Snapshot, c: Chunk) {
    exists maxLen: Option<nat> :: Cut(source, c.offset, maxLen) == Some(c)
  }

  lemma CutShape(source: Snapshot, c: Chunk)
    requires CutFrom(source, c)
    ensures c.offset < |source.data| && c.offset + |c.data| <= |source.data|
    ensures c.data == source.data[c.offset..c.offset + |c.data|]
    ensures c.done <==> c.offset + |c.data| == |source.data|
  {
    var maxLen: Option<nat> :| Cut(source, c.offset, maxLen) == Some(c);
    var end := if maxLen.None? then |source.data| else Min(c.offset + maxLen.value, |source.data|);
    assert c.data == source.data[c.offset..end];
  }

  // There is a chunk at every offset inside the source and nowhere else, as long
  // as asked for or as the source goes on.
  lemma CutReaches(source: Snapshot, offset: nat, maxLen: Option<nat>)
    ensures Cut(source, offset, maxLen).Some? <==> offset < |source.data|
    ensures offset < |source.data| ==>
              var c, rest := Cut(source, offset, maxLen).value, |source.data| - offset;
              c.offset == offset && |c.data| == if maxLen.Some? && maxLen.value < rest then maxLen.value else rest
  {
  }

  // The store after a sequence of deliveries.
  function Received(s: Store, source: Snapshot, chunks: seq<Chunk>): Store {
    if chunks == [] then s
    else Deliver(Received(s, source, chunks[..|chunks| - 1]), source, chunks[|chunks| - 1]).0
  }

  // What holds of a receiver throughout a transfer.
  ghost predicate Receiving(s: Store, before: Option<Snapshot>, source: Snapshot) {
    s.pending <= source.data && (s.snapshot == before || s.snapshot == Some(source))
  }

  // A chunk is accepted exactly when it starts a transfer or continues the one
  // under way; a refused chunk changes nothing at all, and a chunk that
  // completes the transfer installs the source.
  lemma DeliverOne(s: Store, before: Option<Snapshot>, source: Snapshot, c: Chunk)
    requires Receiving(s, before, source) && CutFrom(source, c)
    ensures var (t, ok) := Deliver(s, source, c);
            && Receiving(t, before, source)
            && (ok <==> c.offset == 0 || c.offset == |s.pending|)
            && (!ok ==> t == s)
            && (ok && c.done ==> t.snapshot == Some(source) && t.pending == [])
            && (ok && !c.done ==> t.snapshot == s.snapshot && t.pending == source.data[..c.offset + |c.data|])
            && t.log == s.log && t.firstIndex == s.firstIndex
  {
    CutShape(source, c);
    var base := if c.offset == 0 then [] else s.pending;
    if c.offset == |base| {
      assert base == source.data[..c.offset];
      assert base + c.data == source.data[..c.offset + |c.data|];
      assert c.done ==> base + c.data == source.data;
    }
  }

  // Whatever chunks of a source arrive, in whatever order and however often,
  // the pending buffer is a prefix of the source, and the stored snapshot is
  // the one from before or the source, metadata and all.
  lemma {:induction false} TransferIsFaithful(s: Store, source: Snapshot, chunks: seq<Chunk>)
    requires s.pending == [] && forall c :: c in chunks ==> CutFrom(source, c)
    ensures Receiving(Received(s, source, chunks), s.snapshot, source)
  {
    if chunks != [] {
      var last := chunks[|chunks| - 1];
      assert CutFrom(source, last);
      TransferIsFaithful(s, source, chunks[..|chunks| - 1]);
      DeliverOne(Received(s, source, chunks[..|chunks| - 1]), s.snapshot, source, last);
    }
  }

  // Chunks that follow one another from an offset, without a gap.
  ghost predicate Contiguous(source: Snapshot, chunks: seq<Chunk>) {
    && chunks != []
    && chunks[0].offset == 0
    && (forall i :: 0 <= i < |chunks| ==> CutFrom(source, chunks[i]))
    && (forall i :: 0 <= i < |chunks| - 1 ==> chunks[i + 1].offset == chunks[i].offset + |chunks[i].data|)
  }

  // The next chunk in order extends the prefix received so far.
  lemma ExtendsPrefix(t: Store, source: Snapshot, c: Chunk)
    requires CutFrom(source, c) && (c.offset == 0 || t.pending == source.data[..c.offset])
    ensures var u := Deliver(t, source, c).0;
            if c.done then u.snapshot == Some(source) && u.pending == []
            else u.pending == source.data[..c.offset + |c.data|]
  {
    CutShape(source, c);
    var base := if c.offset == 0 then [] else t.pending;
    assert base == source.data[..c.offset];
    assert base + c.data == source.data[..c.offset + |c.data|];
    assert c.done ==> base + c.data == source.data;
  }

  lemma {:induction false} InOrderPrefix(s: Store, source: Snapshot, chunks: seq<Chunk>)
    requires Contiguous(source, chunks) && forall i :: 0 <= i < |chunks| - 1 ==> !chunks[i].done
    ensures var last := chunks[|chunks| - 1];
            var t := Received(s, source, chunks);
            if last.done then t.snapshot == Some(source) && t.pending == []
            else last.offset + |last.data| <= |source.data| && t.pending == source.data[..last.offset + |last.data|]
  {
    var n := |chunks|;
    var last, earlier := chunks[n - 1], chunks[..n - 1];
    CutShape(source, last);
    if n > 1 {
      InOrderPrefix(s, source, earlier);
      assert earlier[n - 2] == chunks[n - 2];
      assert last.offset == chunks[n - 2].offset + |chunks[n - 2].data|;
    }
    ExtendsPrefix(Received(s, source, earlier), source, last);
  }

  // A pass over the whole source, in chunks of any sizes, installs it no matter
  // what an earlier transfer had left behind.
  lemma InOrderPassInstalls(s: Store, source: Snapshot, chunks: seq<Chunk>)
    requires Contiguous(source, chunks)
    requires forall i :: 0 <= i < |chunks| - 1 ==> !chunks[i].done
    requires chunks[|chunks| - 1].offset + |chunks[|chunks| - 1].data| == |source.data|
    ensures Received(s, source, chunks).snapshot == Some(source)
    ensures Received(s, source, chunks).pending == []
  {
    CutShape(source, chunks[|chunks| - 1]);
    InOrderPrefix(s, source, chunks);
  }

  // The leader sends its snapshot as one chunk, so a follower that accepts it
  // has the leader's snapshot.
  lemma LeaderSendsWholeSnapshot(r: Repl, peer: NodeId, leader: NodeId, store: Store, receiver: Store)
    requires GetAppendEntriesForPeer(r, peer, leader, store).InstallSnapshot?
    ensures var m := GetAppendEntriesForPeer(r, peer, leader, store);
            && store.snapshot.Some? && m.offset == 0 && m.done
            && var (t, ok) := receiver.ApplySnapshotChunk(m.offset, m.data, m.done, m.lastIncludedIndex,
                                                           m.lastIncludedTerm);
               ok && t.snapshot == store.snapshot
  {
    var data := store.snapshot.value.data;
    assert data[0..|data|] == data && [] + data == data;
  }

  predicate IsSlice(source: Bytes, offset: nat, chunk: Bytes) {
    offset + |chunk| <= |source| && chunk == source[offset..offset + |chunk|]
  }

  // SimSnapshotBuilder: the receiving side kept outside the store.
  class SnapshotBuilder {
    var data: Bytes
    var expectedOffset: nat

    ghost predicate Valid()
      reads this
    {
      expectedOffset == |data|
    }

    constructor ()
      ensures Valid() && data == []
    {
      data := [];
      expectedOffset := 0;
    }

    // Accepts only the next chunk; anything else leaves it as it was. Fed chunks
    // of one source, it always holds a prefix of that source.
    method AddChunk(offset: nat, chunk: Bytes) returns (ok: bool)
      requires Valid()
      modifies this
      ensures Valid()
      ensures ok <==> offset == |old(data)|
      ensures data == if ok then old(data) + chunk else old(data)
      ensures forall source: Bytes :: old(data) <= source && IsSlice(source, offset, chunk) ==> data <= source
    {
      if offset != expectedOffset {
        return false;
      }
      data := data + chunk;
      expectedOffset := expectedOffset + |chunk|;
      return true;
    }

    predicate IsComplete(expectedSize: nat)
      reads this
      requires Valid()
      ensures IsComplete(expectedSize) <==> |data| == expectedSize
    {
      expectedOffset == expectedSize
    }
  }
}
