# Verification of the Raft implementation

A Dafny model of the Raft core, the storage and snapshot layer it relies on, the
network of its test cluster and two of its on-disk formats, with proofs of what
they guarantee. `dafny verify dfyconfig.toml` checks all of it.

## How it is laid out

- **Components.** `types`, `storage`, `state_machine`, `configuration`,
  `medians`, `replication`, `election`, `config_change`, `snapshot_manager`:
  values and step functions, one file per component. `node` dispatches events to
  them as `RaftNode::on_event` and the message handlers do.
- **The program's own objects.** `replication_manager`, `election_manager`,
  `config_change_manager`, `raft_node` (and the classes in `storage`,
  `snapshot_transfer`, `text_machine` and `message_broker`): classes whose
  methods change their fields in place, branch by branch and loop by loop as the
  program's do, each proved to do what the step function of the same name says.
  What is proved about the step functions is therefore true of the objects.
- **Clusters.** `cluster` joins nodes by per-link queues. An action delivers or
  drops any message of a link, fires a timer, submits a command or crashes and
  restarts a node. A run is any sequence of enabled actions from a cluster of
  fresh nodes that all know each other. `message_broker` shows that the test
  cluster's broker is such a network and delivers each link in order.
- **Safety.** `ballots` proves Election Safety, Leader Append-Only and the
  bookkeeping of votes over every run. `history`, `steps`, `moves`,
  `commitment*`, `events`, `election_events`, `replication_events` and
  `run_invariants` prove one invariant of every action; `safety` draws Log
  Matching, Leader Completeness and State Machine Safety from it.
  `stale_tail` and `reordering` show that two hypotheses of the last two are
  needed; `duplication` and `two_leaders` say what links that duplicate cost.
- **Single nodes.** `node_runs`, `durability`, `recovery`, `membership_steps`,
  `membership`, `membership_history`, `pending_changes`: all inputs to one node,
  with crashes in between. `leader_progress`, `sending` and `answers`: what each
  event makes a node know, commit, send and answer, without reference to the step
  functions' own parts. `log_repair`: a leader and a follower. `window`,
  `snapshot_transfer`: storage. `log_codec`, `text`, `text_machine`: formats.

## Hypotheses that appear in statements

- `Uncompacted`: no node ever has a snapshot. Log Matching, Leader Completeness
  and State Machine Safety are stated for runs without compaction.
- `Orderly`: each delivery takes the first message of its link (`InOrder`), and
  `NoStaleTail`: an accepted AppendEntries leaves the follower's log ending where
  the message ends. Only an empty message can fail it, and only when the follower
  holds entries beyond `prev_log_index`. Neither half can be dropped: see
  `StaleTail.StaleTailBreaksSafety` and `Reordering.ReorderingBreaksCompleteness`.
- `SoundRun` (recovery, membership over runs): what a step commits is the entry
  of one committed history, new entries start inside the log window and reach
  commit_index, and a snapshot that is installed reaches last_applied. Entries
  that never commit may come and go (`MembershipHistory.ReplacedChangeNeverShows`).
  `HistoryRun` asks it of what comes in alone. `OlderInstallRegresses` says exactly
  what goes wrong otherwise.
- `IsDrivenRun` (membership): what another leader's entries or Event::ConfigChange
  leave unapplied is at most one change, which fits; a change is asked for where
  the node tracks what is pending, and a leader that has left is not asked to
  remove itself; a restart is given distinct peers. While one leader drives the
  changes all of it holds by itself (`Membership.OneLeaderDrives`); with another
  leader's change pending, tracking is what is missing, and exactly that
  (`PendingChanges.TwoChangesAtOnce`, `PendingChanges.AdditionKeepsInvariantIff`).
- `NoneOverruns` (log codec): no offset addition on the way reaches 2^32.
  `DecodingStaysInRangeIff` shows that this is exactly what decoding needs, and
  `DecodePrefix` that saved logs and their prefixes have it.
- `Codec.Faithful`, `Utf8.Faithful`, `Utf8Rules`: decoding undoes encoding;
  valid text next to valid text is valid text.

## Where the code and its documentation differ

- core/README.md:37-38 promises Leader Completeness and State Machine Safety
  outright. A follower accepts a heartbeat whatever it holds beyond
  `prev_log_index`, and replies with its last log index
  (core/src/components/log_replication_manager.rs:211-215), so a leader can count
  entries the follower does not share. `StaleTail.StaleTailBreaksSafety` is a run
  of three nodes in which both promises fail.
- docs/adrs/ADR-R2 (line 37) lets messages be duplicated and reordered.
  - Duplicated: votes are not deduplicated
    (core/src/components/election_manager.rs:213-217), so one grant can elect a
    candidate (`Ballots.DuplicatesElect`). Up to three members a single grant is a
    majority anyway and nothing is lost; from four on two nodes can lead one term
    (`TwoLeaders.OneLeaderIffSmall`). Elsewhere the model's links deliver each
    message at most once.
  - Reordered: entries replace everything behind `prev_log_index`
    (core/src/components/log_replication_manager.rs:288-299), so a late message
    takes back entries the follower has acknowledged since.
    `Reordering.ReorderingBreaksCompleteness` is a run in which Leader
    Completeness fails for that reason alone, and `Reordering.KeepsEntriesIff`
    says which messages take nothing back. Election Safety and Log Matching hold
    under any reordering.
- core/README.md:64 says that configuration survives snapshots and crashes.
  Neither storage nor snapshots hold it: a restart builds the membership from the
  peers it is given (core/src/raft_node.rs:112-117), starts again from
  commit_index 0 and applies the changes behind its snapshot a second time.
  `MembershipHistory.RestartDuplicatesMember` is a run after which a member is
  listed twice; `MembershipHistory.MembershipSurvivesIff` and
  `MembershipHistory.RestartKeepsMembersIff` say exactly when it survives.
- core/README.md:61 says that servers are added and removed one at a time. The
  check looks at the change the leader itself proposed
  (core/src/components/config_change_manager.rs:67-71), which a new leader has
  none of. `PendingChanges.TwoChangesAtOnce` is a run in which two additions
  commit in one step, after which old and new majorities need not meet;
  `PendingChanges.LetThroughIff` says when a change let through is the only one.
- core/README.md:63 calls servers that are catching up non-voting. They do not count
  for commitment (test-utils/src/in_memory_map_collection.rs:74-77), but elections
  count every member (core/src/collections/configuration.rs:26-37).
  `Medians.CatchingUpElects` has two of five members commit what the other three
  know nothing of when they elect a leader; `Medians.QuorumsMeetIff` says for how
  many voters the two quorums always meet.
- The embedded log codec adds 32-bit lengths to 32-bit offsets
  (embassy/src/configurations/storage/semihosting/semihosting_storage.rs:233-254,
  embassy/.cargo/config.toml:2). On bytes that were not saved by it, decoding can
  panic or read entries again: `LogCodec.LongPayloadPanics`,
  `LogCodec.LongSkipPanics`, `LogCodec.WrappingSkipRereads`.
- A completed snapshot install is not compared with last_applied
  (core/src/components/log_replication_manager.rs:451-478):
  `Recovery.OlderInstallRegresses`, and `Recovery.OlderInstallLosesKey` for an
  input.

## Model

| member | source | states |
|---|---|---|
| Ballots.ElectionSafety | core/src/components/election_manager.rs:119-218 | over every run -- reordering, loss, crash-restart, snapshots and compaction -- two nodes that lead the same term, at any two moments, are the same node |
| Ballots.LeaderAppendOnly | core/src/components/log_replication_manager.rs:269-308 | between any two moments at which a node leads the same term, no log entry it had changes or disappears, except into a snapshot, and its last index does not fall |
| Ballots.VoteTokensConserved | core/src/components/election_manager.rs:136-149 | per term, candidate and voter, requests in flight plus granted replies in flight plus counted votes are at most one |
| Ballots.CountedVotesAreReal | core/src/components/election_manager.rs:184-218 | the vote list, which nothing deduplicates, has no repeats, and each voter in it still stores that vote or has moved to a later term |
| Ballots.ActionFair | core/src/raft_node.rs:198-220 | one action of any kind keeps the vote and leadership invariant and only adds to the history of votes and leaders |
| Ballots.DuplicatesElect | core/src/components/election_manager.rs:196-218 | one grant delivered over and over counts every time, and elects its candidate exactly when the count reaches the quorum |
| Duplication.SmallClusterLeaders | core/src/components/election_manager.rs:196-218 | with links that also duplicate and at most three nodes, nodes that lead the same term at any two moments of a run are the same |
| TwoLeaders.OneLeaderIffSmall | core/src/components/election_manager.rs:196-218 | from any initial cluster, every run over duplicating links has at most one leader per term if and only if there are at most three nodes |
| TwoLeaders.ElectsWithOneVote | core/src/components/election_manager.rs:196-218 | a node and one voter that have just started reach a state in which the node leads term 1, and nothing else in the cluster has moved |
| RaftSafety.LogMatching | core/src/components/log_replication_manager.rs:288-334 | without compaction and with any reordering: two logs, at any two moments, with an entry of the same index and term are identical through that index |
| RaftSafety.LeaderCompleteness | core/src/components/log_replication_manager.rs:387-408 | without compaction, with links in order and NoStaleTail: whatever any node has committed, every leader of a later term holds, elected before or after |
| RaftSafety.StateMachineSafety | core/src/components/log_replication_manager.rs:336-368 | same hypotheses: what any two nodes have applied, at any two moments, agrees as far as both go, and each state machine is the fold of exactly those entries |
| RaftSafety.CommitNeverRegresses | core/src/components/log_replication_manager.rs:300-304 | same hypotheses: a step of a node that is not restarted does not lower its commit index |
| RunInvariants.NextHolds | core/src/raft_node.rs:198-220 | one action keeps the full invariant: votes, logs that match the leaders of their terms, acknowledgements, commits backed by a quorum |
| StaleTail.StaleTailBreaksSafety | core/src/components/log_replication_manager.rs:211-215 | a run with in-order links, no compaction and no crash in which a later leader lacks a committed entry and two nodes apply different commands at index 1; so NoStaleTail cannot be dropped |
| StaleTail.ReplyIsTruthfulIff | core/src/components/log_replication_manager.rs:211-215 | an accepting reply claims prevLogIndex plus the number of entries exactly when the message starts inside the follower's window and had entries or met nothing beyond prevLogIndex, and claims too much otherwise |
| Reordering.ReorderingBreaksCompleteness | core/src/components/log_replication_manager.rs:288-299 | a run without compaction, crash or stale tail in which a message overtakes another and a later leader lacks a committed entry; so links in order cannot be dropped |
| Reordering.KeepsEntriesIff | core/src/components/log_replication_manager.rs:288-299 | an accepted message takes back none of the follower's entries if and only if it has no entries or what the follower holds behind prevLogIndex begins them |
| LogRepair.LogRepairTerminates | core/src/components/log_replication_manager.rs:241-263 | a new leader and a follower that satisfies Log Matching: one silent round if the follower is behind in term, then exactly one rejection per leader entry past their common prefix, then acceptance, after which the follower has the leader's log or its own extension of it |
| LogRepair.SnapshotCatchUp | core/src/components/log_replication_manager.rs:86-119 | a follower, possibly behind in term, whose next index the leader has compacted away is level after two rounds: the first installs the leader's snapshot, the second is accepted and leaves it the leader's log behind that snapshot, or, if the leader has none, what the follower already had behind it |
| LogRepair.SnapshotRound | core/src/components/log_replication_manager.rs:443-504 | after the first of them the follower has the leader's term, snapshot and window start, and the leader's next index for it is that start, its match index the snapshot's |
| LeaderProgress.CommitsQuorumPoint | core/src/components/log_replication_manager.rs:387-405 | after an answer that raises a match index, the leader's new commit index is k if and only if k is the greatest index that a quorum of the voting members has reached, lies beyond the old one and holds an entry of the current term; otherwise it stays; servers catching up count on neither side |
| LeaderProgress.OthersCommitNothing | core/src/components/log_replication_manager.rs:221-266 | no other answer moves the commit index |
| LeaderProgress.AnswerProgress | core/src/components/log_replication_manager.rs:221-266 | what the leader knows of any member after an answer of its term: raised by an acceptance that says more, one step back by a refusal, untouched for everybody else, unless the answer lets an addition or removal of that member commit, which then decides |
| LeaderProgress.CatchingUpIff | core/src/components/log_replication_manager.rs:506-518 | over any run of a node, a server is catching up if and only if the node applied its addition while leading and since then has neither restarted nor heard from it, by a raising answer or a taken snapshot, that it is level with the commit index |
| LeaderProgress.VotesUnlessBehind | test-utils/src/in_memory_map_collection.rs:66-88 | so a member other than the node votes on commitment in exactly the states outside such a stretch |
| LeaderProgress.SnapshotAnswered | core/src/components/log_replication_manager.rs:492-504 | a follower that took the snapshot is matched at exactly its index and sent what is behind it next; it stops catching up if that reaches the commit index; nothing else changes |
| LeaderProgress.SnapshotRefused | core/src/components/message_handler/replication.rs:171-204 | a refusal, an answer of an older term or to a node that does not lead or has no snapshot changes nothing |
| LeaderProgress.ApplyMarks | core/src/components/config_change_manager.rs:124-150 | a leader that applies an addition has the server catching up, and applied changes touch nobody else's status |
| LeaderProgress.ApplyProgress | core/src/components/config_change_manager.rs:124-165 | of the applied changes that concern a server and find the node leading the last decides: an addition starts it one past the log with nothing matched, a removal forgets it |
| LeaderProgress.LeadsUntilRemoved | core/src/components/config_change_manager.rs:138-165 | a leader leads on after an answer of its term unless that lets its own removal commit, and then follows |
| LeaderProgress.SnapshotsIff | core/src/components/message_handler/replication.rs:72-126 | an answer leaves a snapshot if and only if it moves the commit index, the new one reaches the threshold and no stored snapshot does; the snapshot is of the state machine, at that index, and the log goes on behind it |
| Sending.HeartbeatBrings | core/src/components/message_handler/replication.rs:227-280 | on its heartbeat timer a leader sends each other member exactly one message and nobody else any: the whole snapshot if the member's next index is compacted away, else every entry from there to the end with the index and term before it and the commit index; a node that does not lead sends nothing |
| Sending.RoundIsHeartbeat | core/src/components/message_handler/replication.rs:257-280 | what a round of log repair sends is what the heartbeat timer makes the leader send |
| Sending.ProposalBrings | core/src/components/message_handler/admin.rs:93-145 | a proposal to a leader of several members appends one entry of its term, tells the caller its index and sends every other member what it now misses |
| Sending.AloneCommits | core/src/components/message_handler/admin.rs:115-145 | a leader that is its only member commits and applies a proposal at once, and sends a member this adds what it misses |
| Sending.TimerAsks | core/src/components/message_handler/election.rs:276-303 | on its election timer a node that does not lead counts itself and asks every other member for a pre-vote in its current term; a leader does nothing |
| Sending.PreVoteStarts | core/src/components/message_handler/election.rs:69-101 | a pre-vote counts if granted, of a term not newer and asked for; it starts the election exactly when more than half of the members have been counted |
| Sending.VoteElects | core/src/components/message_handler/election.rs:138-173 | a vote counts if granted, of the current term and to a candidate; it makes a leader exactly when more than half have been counted, every member then being at the end of the log with nothing matched and every other one sent to |
| Sending.AloneLeads | core/src/components/message_handler/election.rs:204-238 | alone, a node's election timer makes it leader of the next term, voted for by itself |
| NodeAnswers.NewerTermSilences | core/src/components/message_handler/common.rs:96-157 | entries and answers of a newer term only make a node a follower of that term without vote or hint |
| NodeAnswers.VoteAnswer | core/src/components/election_manager.rs:153-194 | a vote is granted exactly to a candidate of a term and a log not older if no other has the vote of that term, and is stored; a newer term is taken over either way |
| NodeAnswers.PreVoteAnswer | core/src/components/election_manager.rs:69-93 | a pre-vote is granted exactly to a term and a log not older, and changes nothing |
| NodeAnswers.PreVoteForetells | core/src/components/election_manager.rs:69-93 | a pre-vote is granted exactly when the node would vote for the same log in the next term |
| NodeAnswers.AppendAnswer | core/src/components/log_replication_manager.rs:161-219 | entries are accepted exactly in the same term and where they continue the log; the answer has the node's last index; the commit index rises to the leader's as far as the log goes; a candidate yields |
| NodeAnswers.AcceptedEntries | core/src/components/log_replication_manager.rs:288-299 | accepted entries stand right behind prev_log_index, what was before them stays, nothing follows them |
| NodeAnswers.InstallAnswer | core/src/components/log_replication_manager.rs:414-490 | a chunk is taken exactly when newer than the stored snapshot and in order; term, role, answer, buffer and, on the last one, snapshot, state machine and indices |
| NodeAnswers.CandidateYields | core/src/components/log_replication_manager.rs:443-450 | after a snapshot of a term not older than its own a candidate is a follower |
| NodeAnswers.HintIsLastHeard | core/src/components/message_handler/admin.rs:115-119 | over any run, the hint a node refuses proposals with is exactly the sender of the last entries it answered since it last stepped down or restarted |
| NodeAnswers.AdditionAnswer | core/src/components/config_change_manager.rs:56-81 | which error refuses an addition, in which order, or the index its entry gets |
| NodeAnswers.RemovalAnswer | core/src/components/config_change_manager.rs:83-106 | which error refuses a removal, in which order, or the index its entry gets |
| Durability.DurableTermAndVote | core/src/components/message_handler/common.rs:96-157 | under any messages, timers, calls and crashes the stored term is the node's term, never decreases, and a stored vote changes only with the term |
| Durability.OneVotePerTerm | core/src/components/election_manager.rs:153-194 | across crashes, a node grants its vote to at most one candidate per term |
| Recovery.RecoveryEquivalence | core/src/raft_node.rs:98-106 | in every state of a run of sound inputs with crash-restarts: the state machine is the fold of the history through last_applied, the stored snapshot decodes to the fold through its index, commit_index <= last_applied |
| Recovery.ApplyNeverSkips | core/src/components/log_replication_manager.rs:336-368 | in those runs the apply loop finds an entry at every index it visits |
| Recovery.SnapshotPointExact | core/src/components/message_handler/replication.rs:304-325 | whenever a leader snapshots, the commit_index it passes equals last_applied, the snapshot is taken, and it decodes to the current state machine |
| Recovery.HistoryRunsAreSound | core/src/components/log_replication_manager.rs:269-308 | runs whose incoming entries, proposals and snapshots all come from one history have only sound inputs, so the three results above hold of them |
| Recovery.OlderInstallRegresses | core/src/components/log_replication_manager.rs:461-478 | a completed install older than last_applied is accepted and takes the state machine back; the node recovers correctly afterwards if and only if the install reaches last_applied or the entries between change nothing |
| Recovery.OlderInstallLosesKey | core/src/components/log_replication_manager.rs:461-478 | two applied SETs, then a completed install at index 1: the second key is gone while last_applied stays 2 |
| Recovery.StepRecovers | core/src/components/log_replication_manager.rs:410-490 | one sound input of any kind, including a snapshot install and a reboot, keeps the recovery invariant and skips no entry |
| Windows.WindowRefinesFullLog | test-utils/src/in_memory_storage.rs:70-226 | after any sequence of append, truncate, snapshot-then-discard and completed install, the window is the full log behind its snapshot |
| Windows.ReadsAgree | test-utils/src/in_memory_storage.rs:70-112 | last index, last term, single entries and ranges read from the window are those of the full log; a range that leaves the window or passes the end is empty |
| Windows.DecisionsAgree | core/src/components/log_replication_manager.rs:310-334 | log comparison in elections, the previous term a leader sends and the consistency check come out on the window as on the full log |
| Windows.AcceptedPrev | core/src/components/log_replication_manager.rs:310-334 | a prev_log_index that passes the check on the window is 0 or lies between the window's start and the end of the log |
| Windows.EntriesLandBehindPrev | core/src/components/log_replication_manager.rs:288-299 | entries of an accepted message land right behind prev_log_index, as on the full log, if and only if they start inside the window; the one exception is index 0 on a compacted log, where they replace the window |
| Windows.TruncationStopsAtWindow | test-utils/src/in_memory_storage.rs:120-128 | truncation forgets exactly what is after the index, and below the window only empties the window |
| SnapshotTransfer.TransferIsFaithful | test-utils/src/in_memory_storage.rs:160-193 | whatever chunks of one snapshot arrive, in any order and number, the pending buffer is a prefix of it and the stored snapshot is the old one or it |
| SnapshotTransfer.DeliverOne | test-utils/src/in_memory_storage.rs:160-193 | a chunk is accepted exactly when it starts or continues the transfer; a refused chunk changes nothing; a completing chunk installs the source |
| SnapshotTransfer.InOrderPassInstalls | test-utils/src/in_memory_storage.rs:160-193 | a gapless pass over the source in chunks of any sizes installs it, whatever an earlier transfer left behind |
| SnapshotTransfer.LeaderSendsWholeSnapshot | core/src/components/log_replication_manager.rs:86-119 | the InstallSnapshot a leader sends is one complete chunk, and a store that takes it has the leader's snapshot |
| SnapshotTransfer.CutShape | test-utils/src/snapshot_types.rs:42-51 | a chunk is the slice of the source at its offset, and is marked done exactly when it reaches the end |
| SnapshotTransfer.CutReaches | test-utils/src/snapshot_types.rs:42-51 | there is a chunk at exactly the offsets inside the source, as long as asked for or as the source goes on |
| SnapshotTransfer.SnapshotBuilder.constructor | test-utils/src/snapshot_types.rs:63-68 | a new builder is empty |
| SnapshotTransfer.SnapshotBuilder.AddChunk | test-utils/src/snapshot_types.rs:70-82 | accepts exactly the next chunk, and fed slices of one source always holds a prefix of it |
| SnapshotTransfer.SnapshotBuilder.IsComplete | test-utils/src/snapshot_types.rs:84-86 | true exactly when the collected length is the expected one |
| Medians.MedianIsQuorumPoint | test-utils/src/in_memory_map_collection.rs:53-97 | for distinct members including the leader, the median is the greatest index that floor(n/2)+1 of the n voting members have reached |
| Medians.CommitMedian | test-utils/src/in_memory_map_collection.rs:53-97 | the collect-sort-pick loop computes that median |
| Medians.QuorumOfFullMembership | core/src/collections/configuration.rs:26-37 | with nobody catching up, the quorum of the median is the configuration's quorum_size |
| Medians.QuorumsMeetIff | core/src/collections/configuration.rs:26-37 | for n members, v of which are not catching up, every set that can commit meets every set that can elect if and only if v/2 + n/2 + 2 > n |
| Medians.OneCatchingUp | core/src/collections/configuration.rs:26-37 | with at most one server catching up they always meet |
| Medians.CatchingUpElects | test-utils/src/in_memory_map_collection.rs:53-97 | of members 1 to 5 with 3, 4 and 5 catching up, the median commits with nodes 1 and 2 while the other three are an election quorum |
| Configurations.VotesMakeQuorum | core/src/collections/configuration.rs:26-37 | as many distinct votes as has_quorum asks for are a majority of the members |
| Configurations.Without | core/src/collections/configuration.rs:43-45 | exactly the other members |
| Membership.MembershipMovesByOne | core/src/components/config_change_manager.rs:56-172 | in a driven run, which may have other leaders, installs and restarts, each step but a restart applies at most one change, which alters the size by exactly one, and any majority before meets any majority after |
| Membership.MembershipStaysSound | core/src/components/message_handler/admin.rs:27-90 | in every state of a driven run members are distinct and non-empty, and at most one index holds a change that is not applied |
| Membership.OneLeaderDrives | core/src/components/config_change_manager.rs:56-110 | a run in which one node leads or nobody does, from a state whose pending change is tracked, is driven: there the one-at-a-time check is enough |
| PendingChanges.TwoChangesAtOnce | core/src/components/config_change_manager.rs:56-75 | a run of one node, from its start, in which a leader accepts an addition while its predecessor's is uncommitted and untracked, and both commit in one step, from three members to five |
| PendingChanges.LetThroughIff | core/src/components/config_change_manager.rs:56-110 | a change a leader lets through leaves at most one uncommitted if and only if no other lies behind the commit index after the step; a leader of several members leaves that index where it was, and one that is alone commits the change at once and leaves none |
| PendingChanges.AdditionKeepsInvariantIff | core/src/components/config_change_manager.rs:56-110 | a leader of several members whose log reaches last_applied keeps the membership invariant when it accepts an addition if and only if it tracks what is pending |
| MembershipHistory.MembersFollowHistory | core/src/components/message_handler/common.rs:183-216 | in every state of a sound run, with restarts, installs, changing leaders and entries that are replaced before they commit, the membership is the one as of the snapshot followed by the history's changes from there to last_applied |
| MembershipHistory.RestartKeepsMembersIff | core/src/raft_node.rs:98-117 | a node that restarts and applies again up to where it was has its old membership if and only if itself and its peers agree with the membership as of the snapshot on the nodes those entries do not remove |
| MembershipHistory.MembershipSurvivesIff | core/src/raft_node.rs:98-117 | the membership is the committed one at every moment of a run if and only if every restart is given the committed one as of the snapshot and no installed snapshot passes over a change |
| MembershipHistory.SurvivingMembersSound | core/src/components/config_change_manager.rs:112-172 | then, if each change of the history fits the membership before it, members are the committed ones, distinct and non-empty, through crashes, elections and snapshots |
| MembershipHistory.ReplacedChangeNeverShows | core/src/components/log_replication_manager.rs:288-299 | a sound run, of no one history, in which an uncommitted addition is replaced by another leader's entry and the membership never shows it |
| MembershipHistory.CommittedSound | core/src/components/config_change_manager.rs:112-172 | along a history of fitting changes, memberships at neighbouring indices differ by at most one node |
| MembershipHistory.RestartDuplicatesMember | core/src/raft_node.rs:112-117 | a run in which a node that committed the addition of node 3 restarts with nodes 2 and 3 as peers, hears one heartbeat, and lists node 3 twice |
| MembershipHistory.RemovedEitherWay | core/src/components/config_change_manager.rs:140-158 | different starting memberships that the replayed changes make equal |
| Membership.AcceptedChangeFits | core/src/components/config_change_manager.rs:56-106 | an accepted change alters the membership by one node, if and only if it is not the removal of a leader that has already left |
| Membership.MajoritiesMeet | core/src/collections/configuration.rs:26-37 | majorities of memberships that differ by one node intersect |
| Membership.StepMoves | core/src/components/config_change_manager.rs:112-172 | one input of a driven run keeps the one-pending-change invariant and moves the membership by what it commits |
| LogCodec.DecodeEncode | embassy/src/configurations/storage/semihosting/semihosting_storage.rs:164-259 | loading a saved log gives exactly its commands, in order |
| LogCodec.DecodePrefix | embassy/src/configurations/storage/semihosting/semihosting_storage.rs:189-259 | loading any byte prefix of a saved log wraps no offset, does not panic and gives a prefix of its commands |
| LogCodec.LosslessIffNoConfigChange | embassy/src/configurations/storage/semihosting/semihosting_storage.rs:164-259 | loading gives back the whole log if and only if it held no configuration change |
| LogCodec.DecodingStaysInRangeIff | embassy/src/configurations/storage/semihosting/semihosting_storage.rs:189-259 | decoding any bytes neither indexes out of range nor goes back to bytes it has read if and only if no offset addition on the way reaches 2^32 |
| LogCodec.AnyBytesDecode | embassy/src/configurations/storage/semihosting/semihosting_storage.rs:189-259 | bytes on which none does decode as with unbounded offsets, to no more entries than they have room for |
| LogCodec.LongPayloadPanics | embassy/src/configurations/storage/semihosting/semihosting_storage.rs:231-238 | 21 bytes with a payload length of 2^32 - 1: the check passes and slicing panics |
| LogCodec.LongSkipPanics | embassy/src/configurations/storage/semihosting/semihosting_storage.rs:202-212 | 21 bytes with a skipped payload that ends 4 short of 2^32: the next header's offsets wrap and indexing panics |
| LogCodec.WrappingSkipRereads | embassy/src/configurations/storage/semihosting/semihosting_storage.rs:248-254 | 34 bytes with a skipped payload that wraps back to the first header: five commands come out of room for two |
| LogCodec.SerializeLog | embassy/src/configurations/storage/semihosting/semihosting_storage.rs:164-187 | the writing loop produces the specified bytes |
| LogCodec.DeserializeLog | embassy/src/configurations/storage/semihosting/semihosting_storage.rs:189-259 | the reading loop, on 32-bit counts and offsets, produces the specified entries or panics, including where it breaks off |
| LogCodec.ReadOne | embassy/src/configurations/storage/semihosting/semihosting_storage.rs:202-256 | one turn of the reading loop, on 32-bit offsets: the entry read, the break or the panic |
| LogCodec.LeRoundTrip | embassy/src/configurations/storage/semihosting/semihosting_storage.rs:167-181 | little-endian fields read back as written |
| TextMachines.SnapshotRoundTrip | embassy/src/embassy_state_machine.rs:59-110 | a map built by any applies is restored in order if and only if its text overflows 512 bytes by at most its last newline, no key or value has a newline, and no value whose line ends inside the buffer ends in a carriage return |
| TextMachines.OverflowLosesEntries | embassy/src/embassy_state_machine.rs:73-90 | a map whose text overflows the buffer by more than its last newline is never restored |
| TextMachines.ApplyAllBuilds | embassy/src/embassy_state_machine.rs:59-65 | applies keep keys distinct, free of the separator, and at most 16 |
| TextMachines.EmbassyStateMachine.constructor | embassy/src/embassy_state_machine.rs:18-22 | a new machine is empty |
| TextMachines.EmbassyStateMachine.Apply | embassy/src/embassy_state_machine.rs:59-65 | with the key there or room for it, key=value makes the key hold the value, every other key what it held, each in its place and a new one last; with neither, or without =, nothing changes |
| TextMachines.LastSetHolds | embassy/src/embassy_state_machine.rs:59-65 | a key holds what was set last, whatever payloads for other keys follow |
| TextMachines.EmbassyStateMachine.CreateSnapshot | embassy/src/embassy_state_machine.rs:73-90 | the byte-pushing loops write the lines in order, capped at 512 bytes |
| TextMachines.EmbassyStateMachine.RestoreFromSnapshot | embassy/src/embassy_state_machine.rs:92-110 | clears the map, then inserts line by line; fails exactly on invalid text, which leaves nothing |
| Text.SplitOnce | embassy/src/embassy_state_machine.rs:61-63 | the parts around the first separator, or none |
| Text.SplitJoined | embassy/src/embassy_state_machine.rs:104-107 | splitting finds the parts again that were joined |
| MessageBrokers.LinksConserve | test-utils/src/message_broker.rs:35-59 | per sender and recipient, under any interleaving: delivered followed by queued is exactly what was sent, so delivery is first-in first-out and at most once |
| MessageBrokers.EnqueueIsPush | test-utils/src/message_broker.rs:35-38 | enqueueing extends one link of the network the cluster is defined over |
| MessageBrokers.DequeueIsPull | test-utils/src/message_broker.rs:40-59 | dequeueing, by recipient or by sender, takes the first message of one link and leaves the others |
| MessageBrokers.MessageBroker.constructor | test-utils/src/message_broker.rs:25-29 | a new broker is empty |
| MessageBrokers.MessageBroker.Enqueue | test-utils/src/message_broker.rs:35-38 | appends to the recipient's queue |
| MessageBrokers.MessageBroker.Dequeue | test-utils/src/message_broker.rs:40-46 | takes the front of the recipient's queue |
| MessageBrokers.MessageBroker.DequeueFrom | test-utils/src/message_broker.rs:48-60 | takes the first message of one sender |
| Storage.InMemoryStorage.constructor | test-utils/src/in_memory_storage.rs:29-38 | an empty log that starts at index 1, no snapshot, term 0, no vote |
| Storage.InMemoryStorage.SetCurrentTerm | test-utils/src/in_memory_storage.rs:58-60 | stores the term and nothing else |
| Storage.InMemoryStorage.SetVotedFor | test-utils/src/in_memory_storage.rs:66-68 | stores the vote and nothing else |
| Storage.InMemoryStorage.AppendEntries | test-utils/src/in_memory_storage.rs:114-118 | the log with the entries at its end |
| Storage.InMemoryStorage.TruncateAfter | test-utils/src/in_memory_storage.rs:120-128 | the log through the index, empty if the index is before the window |
| Storage.InMemoryStorage.SaveSnapshot | test-utils/src/in_memory_storage.rs:130-132 | replaces the snapshot and nothing else |
| Storage.InMemoryStorage.ApplySnapshotChunk | test-utils/src/in_memory_storage.rs:160-193 | offset 0 restarts the buffer, any other offset must continue it, done installs it |
| Storage.InMemoryStorage.DiscardEntriesBefore | test-utils/src/in_memory_storage.rs:211-226 | moves the window start forward, never back |
| StateMachines.CommandSets | test-utils/src/in_memory_state_machine.rs:33-39 | SET key=value sets that key, at the first =; nothing else changes the map |
| ReplicationManagers.InMemoryStateMachine.constructor | test-utils/src/in_memory_state_machine.rs:16-20 | an empty map |
| ReplicationManagers.InMemoryStateMachine.Apply | test-utils/src/in_memory_state_machine.rs:33-39 | a payload SET key=value, split at its first =, sets exactly that key; any other payload changes nothing |
| ReplicationManagers.InMemoryStateMachine.RestoreFromSnapshot | test-utils/src/in_memory_state_machine.rs:50-54 | the decoded map, or no change when decoding fails |
| ReplicationManagers.LogReplicationManager.constructor | core/src/components/log_replication_manager.rs:36-44 | nothing known, nothing committed or applied |
| ReplicationManagers.LogReplicationManager.SetLastApplied | core/src/components/log_replication_manager.rs:54-56 | sets last_applied alone |
| ReplicationManagers.LogReplicationManager.InitializeLeaderState | core/src/components/log_replication_manager.rs:74-84 | every member at the end of the log with nothing matched |
| ReplicationManagers.LogReplicationManager.ApplyCommittedEntries | core/src/components/log_replication_manager.rs:336-368 | the while loop applies the commands between last_applied and commit_index in order and returns the configuration changes among them |
| ReplicationManagers.LogReplicationManager.TryAppendEntries | core/src/components/log_replication_manager.rs:269-308 | refuse, or truncate at prev and append, then commit and apply up to the leader's commit index |
| ReplicationManagers.LogReplicationManager.HandleAppendEntries | core/src/components/log_replication_manager.rs:161-219 | term, role, log, state machine and reply after an AppendEntries |
| ReplicationManagers.LogReplicationManager.AdvanceCommitIndex | core/src/components/log_replication_manager.rs:370-412 | commits the median if it is new and its entry is of the current term |
| ReplicationManagers.LogReplicationManager.CheckAndPromoteCaughtUpServer | core/src/components/log_replication_manager.rs:510-518 | a server stops catching up once it has matched the commit index |
| ReplicationManagers.LogReplicationManager.HandleAppendEntriesResponse | core/src/components/log_replication_manager.rs:221-266 | progress only upward, one step back on rejection |
| ReplicationManagers.LogReplicationManager.TakeChunk | core/src/components/log_replication_manager.rs:461-478 | one chunk, and on the last one the installed snapshot, the compacted log and the restored state machine |
| ReplicationManagers.LogReplicationManager.HandleInstallSnapshot | core/src/components/log_replication_manager.rs:414-490 | term, role, log, snapshot, state machine and reply after an InstallSnapshot |
| ReplicationManagers.LogReplicationManager.HandleInstallSnapshotResponse | core/src/components/log_replication_manager.rs:492-504 | a peer that has the snapshot is matched through it |
| ReplicationManagers.LogReplicationManager.MarkServerCatchingUp | core/src/components/log_replication_manager.rs:506-508 | the server is catching up |
| ElectionManagers.ElectionManager.constructor | core/src/components/election_manager.rs:33-40 | no votes |
| ElectionManagers.ElectionManager.StartPreVote | core/src/components/election_manager.rs:42-66 | asks with the current term and the node's last entry |
| ElectionManagers.ElectionManager.HandlePreVoteResponse | core/src/components/election_manager.rs:95-116 | starts the election when pre-votes reach a quorum |
| ElectionManagers.ElectionManager.StartElection | core/src/components/election_manager.rs:119-150 | next term, vote for itself stored, vote list of itself, request with the last entry |
| ElectionManagers.ElectionManager.HandleVoteRequest | core/src/components/election_manager.rs:153-194 | adopts a newer term and grants at most to one candidate whose log is up to date, storing the vote |
| ElectionManagers.ElectionManager.HandleVoteResponse | core/src/components/election_manager.rs:196-218 | counts a grant of the current term and reports a quorum |
| ConfigChangeManagers.ConfigChangeManager.constructor | core/src/components/config_change_manager.rs:40-46 | the given members, nothing pending |
| ConfigChangeManagers.ConfigChangeManager.TrackPendingChange | core/src/components/config_change_manager.rs:108-110 | the index is pending |
| ConfigChangeManagers.ConfigChangeManager.Remove | core/src/components/config_change_manager.rs:145-151 | the members without one, in order |
| ConfigChangeManagers.ConfigChangeManager.ApplyChange | core/src/components/config_change_manager.rs:124-170 | one committed change to members, replication maps and role |
| ConfigChangeManagers.ConfigChangeManager.ApplyChanges | core/src/components/config_change_manager.rs:112-172 | the loop applies the changes in order |
| SnapshotManagers.SnapshotManager.constructor | core/src/components/snapshot_manager.rs:17-19 | keeps the threshold |
| SnapshotManagers.SnapshotManager.Create | core/src/components/snapshot_manager.rs:42-75 | refuses index 0 and a missing entry, else saves the encoded state machine at that index and compacts |
| RaftNodes.RaftNode.constructor | core/src/raft_node.rs:82-135 | a follower with what storage kept, the state machine restored from the snapshot, commit_index 0 |
| RaftNodes.RaftNode.OnEvent | core/src/raft_node.rs:198-220 | does to the node, in place, what the step function of the event does to its value, and sends what it sends |
| RaftNodes.RaftNode.HandleMessage | core/src/components/message_handler.rs:85-178 | dispatches on the message kind |
| RaftNodes.RaftNode.Send | core/src/components/message_handler/common.rs:25-45 | one message leaves |
| RaftNodes.RaftNode.Broadcast | core/src/components/message_handler/common.rs:47-73 | one copy to every other member, in order |
| RaftNodes.RaftNode.ValidateTermAndStepDown | core/src/components/message_handler/common.rs:133-158 | steps down exactly on a newer term |
| RaftNodes.RaftNode.ApplyConfigChanges | core/src/components/message_handler/common.rs:183-216 | committed changes take effect |
| RaftNodes.RaftNode.SendAppendEntriesToFollowers | core/src/components/message_handler/replication.rs:227-255 | every other member gets what it is missing |
| RaftNodes.RaftNode.HandleAppendEntries | core/src/components/message_handler/replication.rs:24-70 | a newer term only steps down; otherwise handled and answered |
| RaftNodes.RaftNode.HandleAppendEntriesResponse | core/src/components/message_handler/replication.rs:72-126 | progress, commit, configuration changes and possibly a snapshot |
| RaftNodes.RaftNode.HandleInstallSnapshot | core/src/components/message_handler/replication.rs:128-169 | handled and answered |
| RaftNodes.RaftNode.HandleInstallSnapshotResponse | core/src/components/message_handler/replication.rs:171-204 | marks the peer as having the stored snapshot |
| RaftNodes.RaftNode.HandleHeartbeatTimer | core/src/components/message_handler/replication.rs:257-280 | a leader sends to everyone, others do nothing |
| RaftNodes.RaftNode.HandlePreVoteRequest | core/src/components/message_handler/election.rs:27-66 | answers without changing anything |
| RaftNodes.RaftNode.HandlePreVoteResponse | core/src/components/message_handler/election.rs:69-101 | a quorum of pre-votes starts the election |
| RaftNodes.RaftNode.HandleVoteRequest | core/src/components/message_handler/election.rs:103-136 | a newer term steps down first, then the vote is decided |
| RaftNodes.RaftNode.HandleVoteResponse | core/src/components/message_handler/election.rs:138-173 | a quorum of votes makes the leader |
| RaftNodes.RaftNode.Campaign | core/src/components/message_handler/election.rs:204-233 | candidate of the next term, every other member asked |
| RaftNodes.RaftNode.StartElection | core/src/components/message_handler/election.rs:204-238 | campaigns, and leads at once when alone |
| RaftNodes.RaftNode.BecomeLeader | core/src/components/message_handler/election.rs:241-273 | leader state initialised, first messages sent |
| RaftNodes.RaftNode.HandleElectionTimer | core/src/components/message_handler/election.rs:276-303 | pre-vote, and the election at once when alone |
| RaftNodes.RaftNode.Submit | core/src/components/message_handler/admin.rs:93-187 | a leader appends, commits at once when alone, and sends; others refuse with their hint |
| RaftNodes.RaftNode.SubmitTracked | core/src/components/message_handler/admin.rs:47-57 | a validated change is submitted and its index tracked |
| RaftNodes.RaftNode.AddServer | core/src/components/message_handler/admin.rs:27-57 | validated, submitted and tracked, or the error |
| RaftNodes.RaftNode.RemoveServer | core/src/components/message_handler/admin.rs:60-90 | validated, submitted and tracked, or the error |

## Left out

- Transports, the UDP driver, channels, the async node loop, file and flash access, logging: input and output only.
- Timers as clocks: a timer may fire at any moment, and resetting one is not modelled.
- Leader lease and linearizable reads: they depend on real time.
- Observers: they see what the model's state and messages already show.
- Pre-vote as protection against term inflation: replies carry no round, so late ones count in a later round; it is modelled only as what starts an election.
- serde_json: the encoding inside InMemoryStateMachine is a pair of functions that nodes receive.
- Integer widths: terms and indices are unbounded, except in the log codec, whose fields are 64 and 32 bits and whose counts and offsets are the target's 32-bit usize.
- Fixed capacities of the heapless collections, except in the embedded state machine, whose map and text buffer drop what does not fit as the program's do.
- RaftSafety.LogMatching: clusters in which some node compacts its log or installs a snapshot.
- RaftSafety.LeaderCompleteness: clusters in which some node compacts, and changing membership; both are treated for single nodes.
- RaftSafety.StateMachineSafety: as LeaderCompleteness.
- Membership.MembershipMovesByOne: entries of another leader, or of Event::ConfigChange, that bring more than one unapplied change; over committed histories these are treated in MembershipHistory.
- LogRepair.LogRepairTerminates: lost or interleaved messages; a compacted leader is treated by SnapshotCatchUp only when the follower's next index is below its window.
- Liveness beyond log repair: nothing is said about elections eventually succeeding.
- begin_snapshot_transfer and finalize_snapshot: the core does not call them.
- The in-memory storage of the embedded build: a near-duplicate of the storage modelled here.
- serde_raft_message: a field-by-field mirror of the messages.
