// Elections: who may be voted for, and how votes are counted.
module Elections {
  import opened Types
  import opened Configurations
  import opened Storage

  datatype Election = Election(votes: seq<NodeId>, preVotes: seq<NodeId>, inPreVote: bool)

  const EMPTY_ELECTION := Election([], [], false)

  predicate IsLogUpToDate(lastLogIndex: LogIndex, lastLogTerm: Term, store: Store) {
    lastLogTerm > store.LastLogTerm() ||
    (lastLogTerm == store.LastLogTerm() && lastLogIndex >= store.LastLogIndex())
  }

  predicate ShouldGrantVote(term: Term, currentTerm: Term, candidateId: NodeId, lastLogIndex: LogIndex,
                            lastLogTerm: Term, store: Store)
  {
    if term < currentTerm then false
    else if store.votedFor.Some? && store.votedFor.value != candidateId then false
    else IsLogUpToDate(lastLogIndex, lastLogTerm, store)
  }

  function StartPreVote(e: Election, node: NodeId): Election { e.(preVotes := [node], inPreVote := true) }

  function PreVoteRequestOf(node: NodeId, currentTerm: Term, store: Store): Msg {
    PreVoteRequest(currentTerm, node, store.LastLogIndex(), store.LastLogTerm())
  }

  function PreVoteReply(term: Term, lastLogIndex: LogIndex, lastLogTerm: Term, currentTerm: Term, store: Store): Msg {
    PreVoteResponse(currentTerm, if term < currentTerm then false else IsLogUpToDate(lastLogIndex, lastLogTerm, store))
  }

  // The second component says whether the real election should start.
  function HandlePreVoteResponse(e: Election, from: NodeId, voteGranted: bool, members: seq<NodeId>): (Election, bool) {
    if !e.inPreVote || !voteGranted then (e, false)
    else
      var e1 := e.(preVotes := e.preVotes + [from]);
      if HasQuorum(members, |e1.preVotes|) then (e1.(inPreVote := false), true) else (e1, false)
  }

  function StartElection(e: Election, node: NodeId): Election { e.(votes := [node], inPreVote := false) }

  function CampaignStore(node: NodeId, term: Term, store: Store): Store {
    store.(currentTerm := term, votedFor := Some(node))
  }

  datatype VoteOutcome = VoteOutcome(term: Term, store: Store, reply: Msg)

  function HandleVoteRequest(term: Term, candidateId: NodeId, lastLogIndex: LogIndex, lastLogTerm: Term,
                             currentTerm: Term, store: Store): VoteOutcome
  {
    var newTerm := Max(term, currentTerm);
    var store1 := if term > currentTerm then store.(currentTerm := term, votedFor := None) else store;
    var granted := ShouldGrantVote(term, newTerm, candidateId, lastLogIndex, lastLogTerm, store1);
    VoteOutcome(newTerm, if granted then store1.(votedFor := Some(candidateId)) else store1,
                RequestVoteResponse(newTerm, granted))
  }

  // The second component says whether the candidate has won. Votes are not
  // deduplicated.
  function HandleVoteResponse(e: Election, from: NodeId, term: Term, voteGranted: bool, currentTerm: Term, role: Role,
                              members: seq<NodeId>): (Election, bool)
  {
    if term > currentTerm || role != Candidate || term != currentTerm || !voteGranted then (e, false)
    else
      var e1 := e.(votes := e.votes + [from]);
      (e1, HasQuorum(members, |e1.votes|))
  }
}
