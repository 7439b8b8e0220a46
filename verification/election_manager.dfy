// ElectionManager: votes and pre-votes collected in place.
module ElectionManagers {
  import opened Types
  import opened Configurations
  import opened Storage
  import opened Elections

  class ElectionManager {
    var votesReceived: seq<NodeId>
    var preVotesReceived: seq<NodeId>
    var inPreVote: bool

    function View(): Election
      reads this
    {
      Election(votesReceived, preVotesReceived, inPreVote)
    }

    constructor ()
      ensures View() == EMPTY_ELECTION
    {
      votesReceived := [];
      preVotesReceived := [];
      inPreVote := false;
    }

    method StartPreVote(node: NodeId, currentTerm: Term, storage: InMemoryStorage) returns (request: Msg)
      modifies this
      ensures View() == Elections.StartPreVote(old(View()), node)
      ensures request == PreVoteRequestOf(node, currentTerm, storage.View())
    {
      preVotesReceived := [];
      preVotesReceived := preVotesReceived + [node];
      inPreVote := true;
      request := PreVoteRequest(currentTerm, node, storage.View().LastLogIndex(), storage.View().LastLogTerm());
    }

    method HandlePreVoteResponse(from: NodeId, voteGranted: bool, members: seq<NodeId>) returns (start: bool)
      modifies this
      ensures (View(), start) == Elections.HandlePreVoteResponse(old(View()), from, voteGranted, members)
    {
      if !inPreVote || !voteGranted {
        return false;
      }
      preVotesReceived := preVotesReceived + [from];
      if HasQuorum(members, |preVotesReceived|) {
        inPreVote := false;
        return true;
      }
      return false;
    }

    // Raises the term, votes for itself and says so to the storage.
    method StartElection(node: NodeId, currentTerm: Term, storage: InMemoryStorage)
      returns (newTerm: Term, newRole: Role, request: Msg)
      modifies this, storage
      ensures newTerm == currentTerm + 1 && newRole == Candidate
      ensures View() == Elections.StartElection(old(View()), node)
      ensures storage.View() == CampaignStore(node, newTerm, old(storage.View()))
      ensures request == RequestVote(newTerm, node, storage.View().LastLogIndex(), storage.View().LastLogTerm())
    {
      newTerm := currentTerm + 1;
      storage.SetCurrentTerm(newTerm);
      storage.SetVotedFor(Some(node));
      votesReceived := [];
      votesReceived := votesReceived + [node];
      inPreVote := false;
      newRole := Candidate;
      request := RequestVote(newTerm, node, storage.View().LastLogIndex(), storage.View().LastLogTerm());
    }

    method HandleVoteRequest(term: Term, candidateId: NodeId, lastLogIndex: LogIndex, lastLogTerm: Term,
                             currentTerm: Term, storage: InMemoryStorage)
      returns (newTerm: Term, reply: Msg)
      modifies storage
      ensures VoteOutcome(newTerm, storage.View(), reply) ==
              Elections.HandleVoteRequest(term, candidateId, lastLogIndex, lastLogTerm, currentTerm,
                                          old(storage.View()))
    {
      newTerm := currentTerm;
      if term > currentTerm {
        newTerm := term;
        storage.SetCurrentTerm(term);
        storage.SetVotedFor(None);
      }
      var voteGranted := ShouldGrantVote(term, newTerm, candidateId, lastLogIndex, lastLogTerm, storage.View());
      if voteGranted {
        storage.SetVotedFor(Some(candidateId));
      }
      reply := RequestVoteResponse(newTerm, voteGranted);
    }

    method HandleVoteResponse(from: NodeId, term: Term, voteGranted: bool, currentTerm: Term, role: Role,
                              members: seq<NodeId>)
      returns (won: bool)
      modifies this
      ensures (View(), won) ==
              Elections.HandleVoteResponse(old(View()), from, term, voteGranted, currentTerm, role, members)
    {
      if term > currentTerm {
        return false;
      }
      if role != Candidate || term != currentTerm || !voteGranted {
        return false;
      }
      votesReceived := votesReceived + [from];
      won := HasQuorum(members, |votesReceived|);
    }
  }
}
