// Why links must deliver in order for Leader Completeness: a message with
// entries replaces everything after prevLogIndex, so an old one that arrives
// late takes back entries the follower has acknowledged since.
module Reordering {
  import opened Types
  import opened StateMachines
  import opened Storage
  import opened Replication
  import opened Nodes
  import opened Clusters
  import opened Steps
  import opened RaftSafety
  import opened StaleTail

  // An accepted message takes nothing back if and only if it has no entries or
  // what the follower holds behind prevLogIndex is where the message's entries
  // begin. Index 0 is accepted on a compacted log too; the whole window is then
  // behind it.
  lemma KeepsEntriesIff(s: Store, prev: LogIndex, entries: Log)
    requires 1 <= s.firstIndex && prev <= s.LastLogIndex() && (prev == 0 || s.firstIndex <= prev + 1)
    ensures (forall k: LogIndex :: s.GetEntry(k).Some? ==> WriteEntries(s, prev, entries).GetEntry(k) == s.GetEntry(k))
            <==> entries == [] || s.log[Monus(prev + 1, s.firstIndex)..] <= entries
  {
    var kept := Monus(prev + 1, s.firstIndex);
    var w, tail := WriteEntries(s, prev, entries), s.log[kept..];
    if entries != [] {
      assert w.log == s.log[..kept] + entries;
      if tail <= entries {
      } else {
        var i := Differs(tail, entries);
        assert s.GetEntry(s.firstIndex + kept + i) == Some(tail[i]);
        assert i < |entries| ==> w.GetEntry(s.firstIndex + kept + i) == Some(entries[i]);
      }
    }
  }

  lemma Differs(a: Log, b: Log) returns (i: nat)
    requires !(a <= b)
    ensures i < |a| && (i >= |b| || a[i] != b[i])
  {
    if |a| > |b| {
      i := |b|;
    } else {
      i :| i < |a| && a[i] != b[i];
    }
  }

  const B1 := LogEntry(1, Command("b"))

  // --- What single nodes do ---

  // Before any reply, all of the log goes to node 2.
  lemma AllForTwo(n: Node)
    requires Member(n, 1) && n.term == 1 && Idle(n) && Lookup(n.repl.nextIndex, 2, 1) == 1 && n.store.log != []
    ensures GetAppendEntriesForPeer(n.repl, 2, 1, n.store) == AppendEntries(1, 0, 0, n.store.log, 0)
  {
    assert n.store.log[0..|n.store.log|] == n.store.log;
  }

  lemma ProposeNode(n: Node, payload: string) returns (b: Msg)
    requires Member(n, 1) && n.role == Leader && n.term == 1 && Idle(n) && Lookup(n.repl.nextIndex, 2, 1) == 1
    ensures var log := n.store.log + [LogEntry(1, Command(payload))];
            && Member(Grown(n, payload), 1) && Grown(n, payload).store.log == log
            && Answers(n, ClientCommand(payload), Grown(n, payload), ToPeers(1, AppendEntries(1, 0, 0, log, 0), b))
  {
    var a;
    a, b := ClientNode(n, payload);
    AllForTwo(Grown(n, payload));
  }

  // The late message replaces the whole log.
  lemma ReplaceNode(n: Node, from: NodeId, entries: Log)
    requires Member(n, n.id) && n.role == Follower && entries != []
    ensures Member(Filled(n, from, entries), n.id)
    ensures Answers(n, Message(from, AppendEntries(n.term, 0, 0, entries, 0)), Filled(n, from, entries),
                    [Envelope(from, AppendEntriesResponse(n.term, true, |entries|))])
  {
    assert WriteEntries(n.store, 0, entries) == n.store.(log := entries) by {
      assert [] + entries == entries;
    }
  }

  // --- The run ---

  // A message of a link is delivered ahead of others.
  lemma Overtakes(r: Run, from: NodeId, to: NodeId, k: nat, n: Node, sent: seq<Envelope>) returns (s: Run)
    requires Good(r) && Trio(Last(r)) && Member(n, to) && from != to
    requires k < |Queue(Last(r).net, from, to)|
    requires Answers(Last(r).nodes[to], Message(from, Queue(Last(r).net, from, to)[k]), n, sent)
    ensures Prolongs(r, s) && Trio(Last(s)) && Last(s).nodes == Last(r).nodes[to := n]
    ensures var q := Queue(Last(r).net, from, to); Queue(Last(s).net, from, to) == q[..k] + q[k + 1..]
    ensures forall f, t :: f != from || t != to ==>
              Queue(Last(s).net, f, t) == Queue(Last(r).net, f, t) + if f == to then For(sent, t) else []
    ensures NoStaleTail(Last(r), Deliver(from, to, k)) ==> Tidy(r, s)
  {
    var c, a := Last(r), Deliver(from, to, k);
    var q := Queue(c.net, from, to);
    var net := Pull(c.net, from, to, k);
    assert IsStep(c.nodes[to], Message(from, q[k]), OnEvent(c.nodes[to], Message(from, q[k])));
    assert Do(c, a) == Perform(c.(net := net), to, Message(from, q[k]));
    TrioKeeps(c, to, n, Do(c, a));
    forall f, t ensures Queue(Do(c, a).net, f, t) == Queue(net, f, t) + if f == to then For(sent, t) else [] {
      PostFor(net, to, sent, f, t);
    }
    s := Extend(r, a);
  }

  lemma Further(r: Run, s: Run, t: Run)
    requires Prolongs(r, s) && Prolongs(s, t)
    ensures Prolongs(r, t)
  {
    forall i | 0 <= i < |r.states| ensures t.states[i] == r.states[i] {
      assert s.states[i] == r.states[i];
    }
  }

  // Node 1, leading term 1, proposes; the message to node 2 starts at index 1.
  lemma ProposesAll(r: Run, payload: string) returns (s: Run)
    requires Good(r) && Trio(Last(r))
    requires var n := Last(r).nodes[1];
             n.role == Leader && n.term == 1 && Idle(n) && Lookup(n.repl.nextIndex, 2, 1) == 1
    ensures Prolongs(r, s) && Tidy(r, s) && Trio(Last(s))
    ensures Last(s).nodes == Last(r).nodes[1 := Grown(Last(r).nodes[1], payload)]
    ensures Queue(Last(s).net, 1, 2) ==
            Queue(Last(r).net, 1, 2) + [AppendEntries(1, 0, 0, Last(s).nodes[1].store.log, 0)]
    ensures Queue(Last(s).net, 2, 1) == Queue(Last(r).net, 2, 1)
  {
    assert MemberAt(Last(r), 1);
    var n := Last(r).nodes[1];
    var b := ProposeNode(n, payload);
    var a := AppendEntries(1, 0, 0, Grown(n, payload).store.log, 0);
    s := Turn(r, Client(1, payload), 1, ClientCommand(payload), Grown(n, payload), ToPeers(1, a, b));
    ForPeers(1, a, b, 2);
  }

  // Node 1 leads term 1, and nothing is on its way to or from node 2.
  lemma Leading(codec: Codec) returns (r: Run)
    ensures Good(r) && Clean(r) && Trio(Last(r))
    ensures var c := Last(r);
            && Is(c.nodes[1], Leader, 1, []) && Idle(c.nodes[1]) && Unheard(c.nodes[1])
            && Is(c.nodes[2], Follower, 1, []) && Idle(c.nodes[2])
            && Is(c.nodes[3], Follower, 0, []) && Idle(c.nodes[3])
            && Queue(c.net, 1, 2) == [] && Queue(c.net, 2, 1) == []
  {
    var r0 := Start(codec);
    var r1 := ElectsOver(r0, 1, 2, 3);
    r := Lose(r1, 1, 2, 0);
  }

  // It has sent node 2 one command and then two.
  lemma Scene1(codec: Codec) returns (r: Run)
    ensures Good(r) && Clean(r) && Trio(Last(r))
    ensures var c := Last(r);
            && Is(c.nodes[1], Leader, 1, [A, B1]) && Idle(c.nodes[1]) && NoReplies(c.nodes[1])
            && Is(c.nodes[2], Follower, 1, []) && Idle(c.nodes[2])
            && Is(c.nodes[3], Follower, 0, []) && Idle(c.nodes[3])
            && Queue(c.net, 1, 2) == [AppendEntries(1, 0, 0, [A], 0), AppendEntries(1, 0, 0, [A, B1], 0)]
            && Queue(c.net, 2, 1) == []
  {
    var r1 := Leading(codec);
    assert MemberAt(Last(r1), 1);
    var r2 := ProposesAll(r1, "a");
    assert Last(r2).nodes[1].store.log == [A];
    r := ProposesAll(r2, "b");
    assert Last(r).nodes[1].store.log == [A, B1];
  }

  // The second message arrives first, and node 1 commits both commands.
  lemma Scene2(r: Run) returns (s: Run)
    requires Good(r) && Trio(Last(r))
    requires var c := Last(r);
             && Is(c.nodes[1], Leader, 1, [A, B1]) && Idle(c.nodes[1]) && NoReplies(c.nodes[1])
             && Is(c.nodes[2], Follower, 1, []) && Idle(c.nodes[2])
             && Queue(c.net, 1, 2) == [AppendEntries(1, 0, 0, [A], 0), AppendEntries(1, 0, 0, [A, B1], 0)]
             && Queue(c.net, 2, 1) == []
    ensures Prolongs(r, s) && Tidy(r, s) && Trio(Last(s)) && Last(s).nodes[3] == Last(r).nodes[3]
    ensures var c := Last(s);
            && Is(c.nodes[1], Leader, 1, [A, B1]) && c.nodes[1].repl.commitIndex == c.nodes[1].repl.lastApplied == 2
            && Is(c.nodes[2], Follower, 1, [A, B1]) && Idle(c.nodes[2])
            && Queue(c.net, 1, 2) == [AppendEntries(1, 0, 0, [A], 0)]
  {
    assert MemberAt(Last(r), 1) && MemberAt(Last(r), 2);
    var n, f := Last(r).nodes[1], Last(r).nodes[2];
    ReplaceNode(f, 1, [A, B1]);
    var reply := Envelope(1, AppendEntriesResponse(1, true, 2));
    var r1 := Overtakes(r, 1, 2, 1, Filled(f, 1, [A, B1]), [reply]);
    ForOne(reply, 1);
    CommitNode(n, 2);
    s := Arrives(r1, 2, 1, Committed(n, 2), []);
    Further(r, r1, s);
  }

  // The first one arrives after all, and node 2 leads term 2 with node 3's vote.
  lemma Scene3(r: Run) returns (s: Run)
    requires Good(r) && Trio(Last(r))
    requires var c := Last(r);
             && Is(c.nodes[2], Follower, 1, [A, B1]) && Idle(c.nodes[2])
             && Is(c.nodes[3], Follower, 0, []) && Idle(c.nodes[3])
             && Queue(c.net, 1, 2) == [AppendEntries(1, 0, 0, [A], 0)]
    ensures Prolongs(r, s) && Tidy(r, s) && Trio(Last(s)) && Last(s).nodes[1] == Last(r).nodes[1]
    ensures Is(Last(s).nodes[2], Leader, 2, [A])
  {
    assert MemberAt(Last(r), 2);
    var f := Last(r).nodes[2];
    ReplaceNode(f, 1, [A]);
    var r1 := Arrives(r, 1, 2, Filled(f, 1, [A]), [Envelope(1, AppendEntriesResponse(1, true, 1))]);
    s := ElectsOver(r1, 2, 3, 1);
    Further(r, r1, s);
  }

  // No compaction, no crash, no stale tail: but one message overtakes another,
  // and a leader of term 2 lacks an entry that node 1 committed in term 1.
  lemma ReorderingBreaksCompleteness(codec: Codec) returns (r: Run)
    ensures IsRun(r) && Uncompacted(r) && Clean(r)
    ensures var c := Last(r);
            && c.nodes.Keys == {1, 2, 3}
            && c.nodes[1].store.log == [A, B1] && c.nodes[1].repl.commitIndex == c.nodes[1].repl.lastApplied == 2
            && c.nodes[2].role == Leader && c.nodes[2].term > c.nodes[1].term && c.nodes[2].store.log == [A]
    ensures !Ordered(r)
  {
    var r1 := Scene1(codec);
    var r2 := Scene2(r1);
    r := Scene3(r2);
    NotOrdered(r);
  }

  lemma NotOrdered(r: Run)
    requires IsRun(r) && Uncompacted(r) && Clean(r) && 1 in Last(r).nodes && 2 in Last(r).nodes
    requires var c := Last(r);
             && c.nodes[1].store.log == [A, B1] && c.nodes[1].repl.commitIndex == 2
             && c.nodes[2].role == Leader && c.nodes[2].term > c.nodes[1].term && c.nodes[2].store.log == [A]
    ensures !Ordered(r)
  {
    if Ordered(r) {
      forall i: nat ensures OrderlyAt(r, i) {
        assert InOrderAt(r, i) && CleanAt(r, i);
      }
      LeaderCompleteness(r, |r.states| - 1, 1, |r.states| - 1, 2);
      assert false;
    }
  }
}
