// The commit rule: which index a quorum of the voting members has reached.
module Medians {
  import opened Types
  import opened Configurations

  // A member votes on commitment unless it is still catching up; the leader
  // always does.
  predicate Votes(member: NodeId, catchingUp: map<NodeId, LogIndex>, leader: NodeId) {
    member == leader || member !in catchingUp
  }

  // How far a member has got: the leader by its own log, a missing peer at 0.
  function Reached(member: NodeId, matchIndex: map<NodeId, LogIndex>, leaderLast: LogIndex, leader: NodeId): LogIndex {
    if member == leader then leaderLast else if member in matchIndex then matchIndex[member] else 0
  }

  function PeerIndices(matchIndex: map<NodeId, LogIndex>, members: seq<NodeId>, catchingUp: map<NodeId, LogIndex>,
                       leader: NodeId): seq<LogIndex>
  {
    if members == [] then []
    else
      var last := members[|members| - 1];
      PeerIndices(matchIndex, members[..|members| - 1], catchingUp, leader) +
      if last == leader || last in catchingUp then [] else [if last in matchIndex then matchIndex[last] else 0]
  }

  function Insert(x: LogIndex, s: seq<LogIndex>): seq<LogIndex> {
    if s == [] || x <= s[0] then [x] + s else [s[0]] + Insert(x, s[1..])
  }

  // The library's ascending sort.
  function Sort(s: seq<LogIndex>): (r: seq<LogIndex>)
    ensures |r| == |s|
  {
    if s == [] then [] else InsertLength(s[0], Sort(s[1..])); Insert(s[0], Sort(s[1..]))
  }

  lemma InsertLength(x: LogIndex, s: seq<LogIndex>)
    ensures |Insert(x, s)| == |s| + 1
  {
  }

  function ComputeMedian(matchIndex: map<NodeId, LogIndex>, leaderLast: LogIndex, members: seq<NodeId>,
                         catchingUp: map<NodeId, LogIndex>, leader: NodeId): LogIndex
  {
    var indices := [leaderLast] + PeerIndices(matchIndex, members, catchingUp, leader);
    Sort(indices)[(|indices| - 1) / 2]
  }

  // InMemoryMapCollection::compute_median: collect, sort, pick the middle.
  method CommitMedian(matchIndex: map<NodeId, LogIndex>, leaderLast: LogIndex, members: seq<NodeId>,
                      catchingUp: map<NodeId, LogIndex>, leader: NodeId) returns (median: LogIndex)
    ensures median == ComputeMedian(matchIndex, leaderLast, members, catchingUp, leader)
  {
    var indices := [leaderLast];
    var i := 0;
    while i < |members|
      invariant 0 <= i <= |members|
      invariant indices == [leaderLast] + PeerIndices(matchIndex, members[..i], catchingUp, leader)
    {
      assert members[..i + 1][..i] == members[..i];
      var member := members[i];
      i := i + 1;
      if member == leader {
        continue;
      }
      if member in catchingUp {
        continue;
      }
      if member in matchIndex {
        indices := indices + [matchIndex[member]];
      } else {
        indices := indices + [0];
      }
    }
    assert members[..i] == members;
    indices := Sort(indices);
    median := indices[(|indices| - 1) / 2];
  }

  ghost predicate Sorted(s: seq<LogIndex>) {
    forall i, j :: 0 <= i < j < |s| ==> s[i] <= s[j]
  }

  ghost function CountAtLeast(s: seq<LogIndex>, n: LogIndex): (r: nat)
    ensures r <= |s|
  {
    if s == [] then 0 else (if s[0] >= n then 1 else 0) + CountAtLeast(s[1..], n)
  }

  // The members that vote and have reached n.
  ghost function VotersAt(n: LogIndex, matchIndex: map<NodeId, LogIndex>, leaderLast: LogIndex, members: seq<NodeId>,
                          catchingUp: map<NodeId, LogIndex>, leader: NodeId): set<NodeId>
  {
    set m | m in members && Votes(m, catchingUp, leader) && Reached(m, matchIndex, leaderLast, leader) >= n
  }

  ghost function Voters(members: seq<NodeId>, catchingUp: map<NodeId, LogIndex>, leader: NodeId): set<NodeId> {
    set m | m in members && Votes(m, catchingUp, leader)
  }

  lemma {:induction false} InsertFacts(x: LogIndex, s: seq<LogIndex>, n: LogIndex)
    requires Sorted(s)
    ensures Sorted(Insert(x, s))
    ensures CountAtLeast(Insert(x, s), n) == CountAtLeast([x] + s, n)
    ensures forall y :: y in Insert(x, s) ==> y == x || y in s
  {
    assert ([x] + s)[1..] == s;
    if s != [] && x > s[0] {
      InsertFacts(x, s[1..], n);
      assert ([x] + s[1..])[1..] == s[1..];
    }
  }

  lemma {:induction false} SortFacts(s: seq<LogIndex>, n: LogIndex)
    ensures Sorted(Sort(s)) && CountAtLeast(Sort(s), n) == CountAtLeast(s, n)
  {
    if s != [] {
      SortFacts(s[1..], n);
      InsertFacts(s[0], Sort(s[1..]), n);
      assert ([s[0]] + Sort(s[1..]))[1..] == Sort(s[1..]);
    }
  }

  // In a sorted list, the entry at position k splits the counts.
  lemma {:induction false} SortedCount(s: seq<LogIndex>, k: nat, n: LogIndex)
    requires Sorted(s) && k < |s|
    ensures s[k] >= n ==> CountAtLeast(s, n) >= |s| - k
    ensures s[k] < n ==> CountAtLeast(s, n) < |s| - k
  {
    if k > 0 {
      SortedCount(s[1..], k - 1, n);
    } else if |s| > 1 {
      SortedCount(s[1..], 0, n);
    }
  }

  lemma {:induction false} CountAppend(s: seq<LogIndex>, t: seq<LogIndex>, n: LogIndex)
    ensures CountAtLeast(s + t, n) == CountAtLeast(s, n) + CountAtLeast(t, n)
  {
    if s == [] {
      assert s + t == t;
    } else {
      CountAppend(s[1..], t, n);
      assert (s + t)[1..] == s[1..] + t;
    }
  }

  // Counting in the collected list is counting voters other than the leader.
  lemma {:induction false} PeerCount(n: LogIndex, matchIndex: map<NodeId, LogIndex>, leaderLast: LogIndex,
                                     members: seq<NodeId>, catchingUp: map<NodeId, LogIndex>, leader: NodeId)
    requires Distinct(members)
    ensures CountAtLeast(PeerIndices(matchIndex, members, catchingUp, leader), n) ==
            |VotersAt(n, matchIndex, leaderLast, members, catchingUp, leader) - {leader}|
  {
    if members != [] {
      var init, last := members[..|members| - 1], members[|members| - 1];
      PeerCount(n, matchIndex, leaderLast, init, catchingUp, leader);
      var reached := if last in matchIndex then matchIndex[last] else 0;
      var tail := if last == leader || last in catchingUp then [] else [reached];
      CountAppend(PeerIndices(matchIndex, init, catchingUp, leader), tail, n);
      SplitLast(members);
      PeerCountStep(n, matchIndex, leaderLast, init, last, members, catchingUp, leader);
      assert tail != [] ==> tail[1..] == [];
    }
  }

  lemma PeerCountStep(n: LogIndex, matchIndex: map<NodeId, LogIndex>, leaderLast: LogIndex,
                      init: seq<NodeId>, last: NodeId, members: seq<NodeId>, catchingUp: map<NodeId, LogIndex>,
                      leader: NodeId)
    requires last !in init && forall m :: m in members <==> m in init || m == last
    ensures |VotersAt(n, matchIndex, leaderLast, members, catchingUp, leader) - {leader}| ==
            |VotersAt(n, matchIndex, leaderLast, init, catchingUp, leader) - {leader}| +
            if last != leader && last !in catchingUp && Reached(last, matchIndex, leaderLast, leader) >= n then 1 else 0
  {
    var a0 := VotersAt(n, matchIndex, leaderLast, init, catchingUp, leader) - {leader};
    var a1 := VotersAt(n, matchIndex, leaderLast, members, catchingUp, leader) - {leader};
    if last != leader && last !in catchingUp && Reached(last, matchIndex, leaderLast, leader) >= n {
      assert a1 == a0 + {last};
    } else {
      assert a1 == a0;
    }
  }

  lemma SplitLast(s: seq<NodeId>)
    requires Distinct(s) && s != []
    ensures s[|s| - 1] !in s[..|s| - 1]
    ensures forall m :: m in s <==> m in s[..|s| - 1] || m == s[|s| - 1]
  {
    assert s == s[..|s| - 1] + [s[|s| - 1]];
  }

  lemma {:induction false} CountAll(s: seq<LogIndex>)
    ensures CountAtLeast(s, 0) == |s|
  {
    if s != [] {
      CountAll(s[1..]);
    }
  }

  lemma MedianSplits(indices: seq<LogIndex>, n: LogIndex)
    requires indices != []
    ensures n <= Sort(indices)[(|indices| - 1) / 2] <==> CountAtLeast(indices, n) >= |indices| / 2 + 1
  {
    SortFacts(indices, n);
    SortedCount(Sort(indices), (|indices| - 1) / 2, n);
  }

  // The collected list counts exactly the voting members.
  lemma IndicesCount(n: LogIndex, matchIndex: map<NodeId, LogIndex>, leaderLast: LogIndex, members: seq<NodeId>,
                     catchingUp: map<NodeId, LogIndex>, leader: NodeId)
    requires Distinct(members) && leader in members
    ensures CountAtLeast([leaderLast] + PeerIndices(matchIndex, members, catchingUp, leader), n) ==
            |VotersAt(n, matchIndex, leaderLast, members, catchingUp, leader)|
  {
    var peers := PeerIndices(matchIndex, members, catchingUp, leader);
    PeerCount(n, matchIndex, leaderLast, members, catchingUp, leader);
    WithLeader(n, matchIndex, leaderLast, members, catchingUp, leader);
    assert ([leaderLast] + peers)[1..] == peers;
  }

  // The median is the greatest index a quorum of the voting members has reached.
  lemma MedianIsQuorumPoint(n: LogIndex, matchIndex: map<NodeId, LogIndex>, leaderLast: LogIndex, members: seq<NodeId>,
                            catchingUp: map<NodeId, LogIndex>, leader: NodeId)
    requires Distinct(members) && leader in members
    ensures n <= ComputeMedian(matchIndex, leaderLast, members, catchingUp, leader) <==>
            |VotersAt(n, matchIndex, leaderLast, members, catchingUp, leader)| >=
            |Voters(members, catchingUp, leader)| / 2 + 1
  {
    var indices := [leaderLast] + PeerIndices(matchIndex, members, catchingUp, leader);
    IndicesCount(n, matchIndex, leaderLast, members, catchingUp, leader);
    IndicesCount(0, matchIndex, leaderLast, members, catchingUp, leader);
    EveryVoter(matchIndex, leaderLast, members, catchingUp, leader);
    CountAll(indices);
    MedianSplits(indices, n);
  }

  lemma EveryVoter(matchIndex: map<NodeId, LogIndex>, leaderLast: LogIndex, members: seq<NodeId>,
                   catchingUp: map<NodeId, LogIndex>, leader: NodeId)
    ensures VotersAt(0, matchIndex, leaderLast, members, catchingUp, leader) == Voters(members, catchingUp, leader)
  {
  }

  lemma WithLeader(n: LogIndex, matchIndex: map<NodeId, LogIndex>, leaderLast: LogIndex, members: seq<NodeId>,
                   catchingUp: map<NodeId, LogIndex>, leader: NodeId)
    requires leader in members
    ensures var at := VotersAt(n, matchIndex, leaderLast, members, catchingUp, leader);
            |at| == |at - {leader}| + if leaderLast >= n then 1 else 0
  {
    var at := VotersAt(n, matchIndex, leaderLast, members, catchingUp, leader);
    if leaderLast >= n {
      assert at == (at - {leader}) + {leader};
    } else {
      assert at == at - {leader};
    }
  }

  // A leader that is alone has reached its own log's end.
  lemma MedianAlone(matchIndex: map<NodeId, LogIndex>, last: LogIndex, catchingUp: map<NodeId, LogIndex>, id: NodeId)
    ensures ComputeMedian(matchIndex, last, [id], catchingUp, id) == last
  {
    MedianIsQuorumPoint(last, matchIndex, last, [id], catchingUp, id);
    MedianIsQuorumPoint(last + 1, matchIndex, last, [id], catchingUp, id);
    assert VotersAt(last, matchIndex, last, [id], catchingUp, id) == {id};
    assert Voters([id], catchingUp, id) == {id};
    assert VotersAt(last + 1, matchIndex, last, [id], catchingUp, id) == {};
  }

  // On a cluster where nobody is catching up that quorum is the configuration's.
  lemma QuorumOfFullMembership(members: seq<NodeId>, leader: NodeId)
    requires Distinct(members) && members != []
    ensures |Voters(members, map[], leader)| / 2 + 1 == QuorumSize(members)
  {
    DistinctCardinality(members);
    assert Voters(members, map[], leader) == Elements(members);
  }

  // --- Two quorums ---

  // Commitment asks for a majority of the members that vote on it.
  ghost predicate CommitQuorum(q: set<NodeId>, members: seq<NodeId>, catchingUp: map<NodeId, LogIndex>,
                               leader: NodeId)
  {
    q <= Voters(members, catchingUp, leader) && |q| >= |Voters(members, catchingUp, leader)| / 2 + 1
  }

  // An election counts every member, catching up or not.
  ghost predicate ElectionQuorum(q: set<NodeId>, members: seq<NodeId>) {
    q <= Elements(members) && HasQuorum(members, |q|)
  }

  ghost predicate Meet(a: set<NodeId>, b: set<NodeId>) { a * b != {} }

  lemma {:induction false} SubsetOfSize(s: set<NodeId>, k: nat) returns (t: set<NodeId>)
    requires k <= |s|
    ensures t <= s && |t| == k
  {
    if k == 0 {
      t := {};
    } else {
      var x :| x in s;
      var u := SubsetOfSize(s - {x}, k - 1);
      t := u + {x};
    }
  }

  // Where the two are too small together, some pair of them does not meet.
  lemma QuorumsApart(members: seq<NodeId>, catchingUp: map<NodeId, LogIndex>, leader: NodeId)
    returns (c: set<NodeId>, e: set<NodeId>)
    requires Distinct(members) && leader in members
    requires |Voters(members, catchingUp, leader)| / 2 + |members| / 2 + 2 <= |members|
    ensures CommitQuorum(c, members, catchingUp, leader) && ElectionQuorum(e, members) && !Meet(c, e)
  {
    var voters, all := Voters(members, catchingUp, leader), Elements(members);
    DistinctCardinality(members);
    assert leader in voters && |voters - {leader}| == |voters| - 1;
    c := SubsetOfSize(voters, |voters| / 2 + 1);
    assert c <= all && |all - c| == |all| - |c|;
    e := SubsetOfSize(all - c, |members| / 2 + 1);
  }

  lemma QuorumsOverlap(members: seq<NodeId>, catchingUp: map<NodeId, LogIndex>, leader: NodeId, c: set<NodeId>,
                       e: set<NodeId>)
    requires Distinct(members) && CommitQuorum(c, members, catchingUp, leader) && ElectionQuorum(e, members)
    requires |Voters(members, catchingUp, leader)| / 2 + |members| / 2 + 2 > |members|
    ensures Meet(c, e)
  {
    DistinctCardinality(members);
    CardinalityMonotone(c + e, Elements(members));
    assert |c + e| == |c| + |e| - |c * e|;
  }

  // Every set that can commit meets every set that can elect -- what Leader
  // Completeness rests on -- if and only if enough members are not catching up.
  lemma QuorumsMeetIff(members: seq<NodeId>, catchingUp: map<NodeId, LogIndex>, leader: NodeId)
    requires Distinct(members) && leader in members
    ensures (forall c, e :: CommitQuorum(c, members, catchingUp, leader) && ElectionQuorum(e, members) ==> Meet(c, e))
            <==> |Voters(members, catchingUp, leader)| / 2 + |members| / 2 + 2 > |members|
  {
    if |Voters(members, catchingUp, leader)| / 2 + |members| / 2 + 2 > |members| {
      forall c, e | CommitQuorum(c, members, catchingUp, leader) && ElectionQuorum(e, members) ensures Meet(c, e) {
        QuorumsOverlap(members, catchingUp, leader, c, e);
      }
    } else {
      var c, e := QuorumsApart(members, catchingUp, leader);
    }
  }

  // One member catching up at a time is always few enough.
  lemma OneCatchingUp(members: seq<NodeId>, catchingUp: map<NodeId, LogIndex>, leader: NodeId, c: set<NodeId>,
                      e: set<NodeId>)
    requires Distinct(members) && leader in members && |catchingUp.Keys| <= 1
    requires CommitQuorum(c, members, catchingUp, leader) && ElectionQuorum(e, members)
    ensures Meet(c, e)
  {
    var voters, all := Voters(members, catchingUp, leader), Elements(members);
    DistinctCardinality(members);
    assert all - voters <= catchingUp.Keys;
    CardinalityMonotone(all - voters, catchingUp.Keys);
    assert |all - voters| == |all| - |voters|;
    QuorumsOverlap(members, catchingUp, leader, c, e);
  }

  // Three of five members are catching up: nodes 1 and 2 commit index 7 alone,
  // and the other three elect a leader alone.
  lemma CatchingUpElects()
    ensures var members, catchingUp := [1, 2, 3, 4, 5], map[3 := 1, 4 := 1, 5 := 1];
            && ComputeMedian(map[2 := 7], 7, members, catchingUp, 1) == 7
            && CommitQuorum({1, 2}, members, catchingUp, 1) && ElectionQuorum({3, 4, 5}, members)
            && !Meet({1, 2}, {3, 4, 5})
  {
    var members, catchingUp := [1, 2, 3, 4, 5], map[3 := 1, 4 := 1, 5 := 1];
    assert Voters(members, catchingUp, 1) == {1, 2};
    assert VotersAt(7, map[2 := 7], 7, members, catchingUp, 1) == {1, 2};
    assert VotersAt(8, map[2 := 7], 7, members, catchingUp, 1) == {};
    MedianIsQuorumPoint(7, map[2 := 7], 7, members, catchingUp, 1);
    MedianIsQuorumPoint(8, map[2 := 7], 7, members, catchingUp, 1);
  }
}
