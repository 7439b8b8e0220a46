// The vocabulary shared by every component: node ids, terms, log entries and
// the messages nodes exchange.
module Types {
  type NodeId = nat
  type Term = nat
  type LogIndex = nat
  type Byte = x: int | 0 <= x < 256
  type Bytes = seq<Byte>

  datatype Option<+T> = None | Some(value: T)

  datatype Result<+T, +E> = Ok(value: T) | Err(error: E)

  datatype ConfigurationChange = AddServer(node: NodeId) | RemoveServer(node: NodeId)

  datatype EntryType = Command(payload: string) | ConfigChange(change: ConfigurationChange)

  datatype LogEntry = LogEntry(term: Term, entryType: EntryType)

  type Log = seq<LogEntry>

  // A configuration change together with the log index that carried it.
  datatype IndexedChange = IndexedChange(index: LogIndex, change: ConfigurationChange)

  datatype Role = Follower | Candidate | Leader

  datatype Msg =
    | RequestVote(term: Term, candidateId: NodeId, lastLogIndex: LogIndex, lastLogTerm: Term)
    | RequestVoteResponse(term: Term, voteGranted: bool)
    | PreVoteRequest(term: Term, candidateId: NodeId, lastLogIndex: LogIndex, lastLogTerm: Term)
    | PreVoteResponse(term: Term, voteGranted: bool)
    | AppendEntries(term: Term, prevLogIndex: LogIndex, prevLogTerm: Term, entries: Log, leaderCommit: LogIndex)
    | AppendEntriesResponse(term: Term, success: bool, matchIndex: LogIndex)
    | InstallSnapshot(term: Term, leaderId: NodeId, lastIncludedIndex: LogIndex, lastIncludedTerm: Term,
                      offset: nat, data: Bytes, done: bool)
    | InstallSnapshotResponse(term: Term, success: bool)

  // What a node hands to its transport: a message and where it goes.
  datatype Envelope = Envelope(to: NodeId, msg: Msg)

  function Min(a: nat, b: nat): nat { if a <= b then a else b }

  function Max(a: nat, b: nat): nat { if a <= b then b else a }

  // Subtraction that stops at zero, as the source's saturating_sub does.
  function Monus(a: nat, b: nat): nat { if a <= b then 0 else a - b }

  predicate Distinct<T(==)>(s: seq<T>) {
    forall i, j :: 0 <= i < j < |s| ==> s[i] != s[j]
  }

  function Elements<T>(s: seq<T>): set<T> { set x | x in s }
}
