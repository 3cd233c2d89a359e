# Verified models of the MIT 6.5840 labs

This project models four systems of the repository and proves what they are for.

* **Raft** (`src/raft`): leader election, log replication, commit counting, fast back-up and log
  compaction. Each region of code that runs under the peer's lock is one step of a distributed
  state machine over servers, their disks and a network that loses, delays, reorders and repeats
  messages. `RaftSafety` proves Election Safety, Leader Append-Only, Log Matching, Leader
  Completeness and State Machine Safety of the extended Raft paper over every run, crashes and
  compaction included. `RaftNode` is the peer as an object, proved to compute those steps.
  `RaftMeaning` says what every handler does in terms of whole logs, votes and majorities, for any
  number of peers. `RaftProgress` and `RaftCatchUp` prove what goes forward: which votes are granted,
  what replies teach a leader, and when exchanging requests and replies brings a follower up to date.
  `RaftCommitted` derives what a service may rely on: one committed log that only grows.
  `RaftDefects` and `RaftCounterexamples` do the same for the code as written where it departs from
  its comments: runs in which the guarantees fail, and the guards under which they hold.
* **The linearizability checker** (`src/porcupine`, `src/models`): the search over a doubly linked
  list on the heap with undoable removal, a bitset and a memo cache, proved sound, complete,
  terminating, and optimal in its partial results; the building of its input from timed operations
  or events; the merge over partitions; the replay of partial results; and the locality of the
  key/value model, so that checking key by key decides linearizability of the whole map, which
  `KvMeaning` spells out as an order of the calls that explains every value read.
* **The key/value services**: the replicated one (`src/kvraft`) executes each request exactly once
  and is linearizable in every run, seen as one log (`KvProtocol`) and on top of the Raft state
  machine itself (`RaftKv`); the single server (`src/kvsrv`) likewise. These results end in the
  verdict of the checker model above on every history of the services.
* **MapReduce** (`src/mr/worker.go`, `src/main/mrsequential.go`): the distributed data flow means
  the sequential program.

## How it is organised

| files | content |
|---|---|
| `RaftTypes`, `RaftServer`, `RaftProtocol` | data, transition functions of one peer, the state machine of all |
| `RaftInvariant`, `RaftStability`, `RaftLogs`, `RaftRecording`, `RaftCompleteness` | the invariant and what follows from it; how it survives new votes, acknowledgements and leaders |
| `RaftElections`, `RaftReplication`, `RaftCompaction` | every step keeps the invariant |
| `RaftSafety`, `RaftCommitted` | guarantees over runs, the committed log |
| `RaftMeaning`, `RaftProgress`, `RaftCatchUp` | what handlers do exactly, what goes forward, when a follower catches up |
| `RaftNode` | the object |
| `RaftDefects`, `RaftCounterexamples` | two departures of the code from its comments: when they do no harm, and runs in which they do |
| `Linearizability`, `Search`, `NodeList`, `Bitset`, `Checker` | what is decided, the search on values, the list, the bitset, the search itself |
| `Permutations`, `Histories`, `Events`, `Parallel`, `Visualization` | input of the search, merge of verdicts, replay |
| `Strings`, `KvModel`, `KvMeaning`, `KvCheck` | the key/value model, partition, locality, what it accepts, the whole check |
| `KvService`, `KvProtocol`, `KvSafety`, `KvLinearizable`, `KvNode` | the replicated service over one log |
| `RaftKv` | the replicated service over Raft |
| `SingleServer`, `SingleProtocol` | the single server |
| `MapReduce` | both programs and their equivalence |
| `Options`, `Sets` | small helpers |

## Where code and documentation disagree

* `readPersist` assigns `votedFor` from the saved term (`src/raft/raft.go:128`). `RaftDefects` keeps
  the code as it is written. `ElectionSafetyFails` is a run of it with two leaders in one term, and
  `VotesOnceIff` says for exactly which saved states a vote can be doubled. A restart in
  `RaftProtocol` restores the saved vote, as the paper asks, or the saved term where that cannot
  double a vote, so that `GuardedRun` and `GuardedRunsSafe` carry the guarantees over to every run of
  the code as written whose restarts meet that condition.
* `InstallSnapshot` compares the term of slot 0 where its comment, and step 6 of Figure 13 of the
  extended Raft paper, ask for the entry at the snapshot point (`src/raft/raft.go:220-222`). The
  protocol follows the comment. `AcknowledgedEntryLost`, `StateMachineSafetyFails` and
  `ConflictingTailKept` are runs of the code as written, without a restart, in which an acknowledged
  entry is lost, State Machine Safety fails and Log Matching fails. `InstallAgreesIff` and
  `AgreeingInstallIff` say exactly when the code does what its comment says; the guarded runs are
  those.
* A follower that has compacted the entry before the new ones refuses without a hint
  (`src/raft/raft.go:380-383`), which the leader takes for a conflict in term 0
  (`src/raft/raft.go:669-688`) and starts over from its snapshot or its first entry. If the follower's
  snapshot point is past the leader's, as it may be after a request that comes late, the two repeat
  this for ever: `RaftCounterexamples.FollowerTrapped` is such a run and `RaftCatchUp.StaysTrapped`
  shows that no number of exchanges ends it. `RaftCatchUp.CatchesUp` shows that a follower whose
  snapshot point is not past the leader's always catches up, and `Settles` that one of the two happens.
* `src/porcupine/checker.go:62-68` describes a node whose partner is nil as a call; the code treats
  it as a return. The model follows the code.

## Modelling choices

* Integers are unbounded; the bitset is modelled on 64-bit words, with the hash as the code has it.
* Messages of the Raft network stay in it for ever: they may be delivered late, more than once, or
  never. One vote reply is counted per peer and election.
* To Raft a snapshot's bytes are the log prefix they stand for, and a service takes snapshots of
  entries it was handed. `RaftKv.SavedIsPrefix` proves both of the key/value service.
* `go` statements that send a request or wait for a reply become separate steps.
* Sorting by the library is a sort of our own whose contract leaves the order of equal elements
  open.
* The kill flag of the search is a function of the round. The merge over partitions takes the
  order in which the searches finish as a parameter, has no timeout, and needs a partition to wait
  for: with none, the loop in the code never receives anything.
* `KvProtocol` sees Raft as one committed log to which proposed requests are appended any number of
  times and which servers apply in order. `RaftKv` puts Raft in its place: proposals are calls of
  `Start`, what Raft delivers goes through an apply channel per server, and snapshots and restarts
  are Raft's. Its steps are shown to do to the one log only what `KvProtocol` allows, so that the
  service on Raft is linearizable. How a request is coded as a command is a parameter. A request's
  replies may be repeated and reach a clerk late. Time passes at calls and returns.
* In the single-server protocol request ids are distinct and an attempt is executed at most once,
  before its call returns. `LateCopyIff` says what happens otherwise.

## Model

| member | source | states |
|---|---|---|
| `RaftNode.Raft.constructor` | src/raft/raft_definition.go:174-206 | a started peer holds what its disk says, volatile state reset, with the vote read from the saved term as written, or from the saved vote as intended |
| `RaftNode.Raft.Persist` | src/raft/raft.go:50-87 | the disk holds term, vote, log, snapshot point and snapshot of the moment, nothing else changes |
| `RaftNode.Raft.StartElection` | src/raft/raft.go:453-472 | new term, vote for itself, both on disk before any request; one request to each other peer with its last index and term |
| `RaftNode.Raft.SendVoteRequests` | src/raft/raft.go:461-475 | exactly one request per other peer, and exactly one reply awaited from each |
| `RaftNode.Raft.RequestVote` | src/raft/raft.go:270-312 | the voting transition of the protocol, persisted before the reply in every branch past the term check |
| `RaftNode.Raft.HandleVoteReply` | src/raft/raft.go:474-510 | a reply is counted once, only by the candidate of its term; a majority makes the leader and its first broadcast |
| `RaftNode.Raft.InitializeLeader` | src/raft/raft.go:747-765 | next indices at the end of the log, match indices at the snapshot point, the leader's own at its last entry |
| `RaftNode.Raft.BroadcastHeartbeat` | src/raft/raft.go:529-575 | per peer either the snapshot or the log slice from its next index on, with the term of the entry before it; the panic is reached exactly if a next index is past the log |
| `RaftNode.Raft.HandleAppendReply` | src/raft/raft.go:608-640 | the leader's reaction to an AppendEntries reply, stepping down without touching its vote |
| `RaftNode.Raft.HandleInstallReply` | src/raft/raft.go:578-605 | match and next index rise to the snapshot point and never fall |
| `RaftNode.Raft.CheckAndCommitLogs` | src/raft/raft.go:643-663 | the commit index becomes the greatest index above it with an entry of the current term that more than half of the peers hold, if there is one |
| `RaftNode.Raft.FindNextIndex` | src/raft/raft.go:666-690 | the next index after a rejection: the follower's length, the last own entry of the conflicting term, or the follower's first of it |
| `RaftNode.Raft.StepDown` | src/raft/raft.go:594-600 | a higher term in a reply makes a follower whose vote stays and whose new term is on disk |
| `RaftNode.Raft.Start` | src/raft/raft.go:784-819 | a leader appends, persists and reports the index; others refuse |
| `RaftNode.Raft.CopyEntries` | src/raft/raft.go:417-429 | the loop computes the merge: keep what agrees in term, cut at the first conflict, append the rest |
| `RaftNode.Raft.ConflictIndex` | src/raft/raft.go:403-409 | the loop finds the first index, above the commit point, of the run of the conflicting term |
| `RaftNode.Raft.AppendEntries` | src/raft/raft.go:351-439 | the follower's transition and reply, including the three kinds of rejection |
| `RaftNode.Raft.Snapshot` | src/raft/raft.go:144-172 | the log is cut at the index, slot 0 keeps its term, and all of it is on disk; out-of-range requests change nothing |
| `RaftNode.Raft.FindSnapshotPoint` | src/raft/raft.go:220-222 | the loop finds the position of the snapshot point if slot 0, as written, or the entry there, as intended, has the snapshot's term |
| `RaftNode.Raft.InstallSnapshot` | src/raft/raft.go:175-259 | stale and covered snapshots are ignored; otherwise the tail is kept or dropped by the comparison as written, or as intended, and all of it is on disk |
| `RaftNode.Raft.ApplyCommitted` | src/raft/raft.go:693-727 | the messages are the committed entries after the last applied one, in order |
| `RaftMeaning.VoteMeans` | src/raft/raft.go:270-312 | a vote is granted exactly if the term is higher, or equal with no other vote held, and the last entry is of a later term or of the same and no lower index; term, vote and disk afterwards |
| `RaftMeaning.ElectionMeans` | src/raft/raft.go:453-475 | a candidate asks exactly every other peer, with the last index and term of its whole log |
| `RaftMeaning.CountMeans` | src/raft/raft.go:474-510 | a counted vote makes a leader exactly if twice the votes exceed the peers; next indices then at the end of the log |
| `RaftMeaning.ElectionWon` | src/raft/raft.go:474-510 | handling the replies of an election one by one ends in leadership exactly if own and granted votes are more than half and there was a reply |
| `RaftMeaning.SendMeans` | src/raft/raft.go:529-575 | a peer whose next entry is compacted gets the snapshot of the prefix, any other the rest of the whole log with index and term of the entry before |
| `RaftMeaning.StartMeans` | src/raft/raft.go:784-819 | a leader's log ends with the command, on disk, and counts for itself; others change nothing |
| `RaftMeaning.CommitMeans` | src/raft/raft.go:643-663 | the commit index becomes the greatest index above it with an entry of the current term that more than half of the peers hold, and stays if there is none |
| `RaftMeaning.AppendReplyMeans` | src/raft/raft.go:608-640 | an accepted request raises the peer's indices, no other peer's, and commits; a higher term steps down; a rejection backs up |
| `RaftMeaning.InstallReplyMeans` | src/raft/raft.go:578-605 | the peer's indices rise to the snapshot point, neither falls, no other peer's move; a higher term steps down |
| `RaftMeaning.BackupMeans` | src/raft/raft.go:666-690 | the next index after a rejection is the follower's length, the leader's last index of the conflicting term, or the follower's first of it |
| `RaftMeaning.MergeMeans` | src/raft/raft.go:417-429 | a log that has all the entries is unchanged; any other is cut where the first one differs in term or is missing, and continued with the rest |
| `RaftMeaning.AppendMeans` | src/raft/raft.go:351-439 | a request of a current term is accepted exactly if the entry before is there, uncompacted and of its term; what is merged and committed, and what each rejection says |
| `RaftMeaning.SnapshotMeans` | src/raft/raft.go:144-172 | exactly a snapshot of committed, uncompacted entries cuts the log there, on disk |
| `RaftMeaning.InstallMeans` | src/raft/raft.go:175-259 | exactly a snapshot past the commit index and of a current term is installed: it replaces the log but for what follows an entry that agrees with it |
| `RaftMeaning.DeliverMeans` | src/raft/raft.go:693-727 | everything committed and not yet applied is handed over, in order, and counts as applied |
| `RaftMeaning.RestartMeans` | src/raft/raft.go:90-138 | a restarted server has the whole log, the term and, as intended, the vote it saved, and begins at its snapshot |
| `RaftSafety.RunInv` | src/raft/raft.go:144-819 | every state of every run satisfies the protocol invariant |
| `RaftSafety.ElectionSafety` | src/raft/raft.go:282-307 | in a whole run no term has two leaders, crashes and restarts included |
| `RaftSafety.LeaderAppendOnly` | src/raft/raft.go:797-803 | a leader never changes or drops an entry of its log while it leads |
| `RaftSafety.LogMatchingInRuns` | src/raft/raft.go:399-429 | logs of any two servers at any two moments with equal terms at an index are equal up to it |
| `RaftSafety.TermsSortedInRuns` | src/raft/raft.go:797-801 | terms never decrease along a log |
| `RaftCompleteness.LeaderCompleteness` | src/raft/raft.go:299-307 | an entry a majority acknowledged in its own term is in the log of every later leader, from its election on |
| `RaftSafety.LeaderCompletenessInRuns` | src/raft/raft.go:643-663 | what any server counts as committed is in the log of every leader of a later term |
| `RaftSafety.StateMachineSafety` | src/raft/raft.go:431-435 | no two servers, at any two moments, hold different entries at an index both count as committed |
| `RaftSafety.DeliveriesAgree` | src/raft/raft.go:699-706 | commands handed to the service at the same index are the same on every server at every time |
| `RaftSafety.CommitVouched` | src/raft/raft.go:549-569 | every AppendEntries request carries a commit index no greater than the last index it vouches for |
| `RaftReplication.FollowerCommitOk` | src/raft/raft.go:431-435 | the follower's new commit index, capped by its own last index, covers only committed entries |
| `RaftSafety.MatchIndexSound` | src/raft/raft.go:643-657 | above the commit index a match index counts only entries the peer acknowledged in this term and still has unless overwritten later |
| `RaftReplication.CommittableIsCommitted` | src/raft/raft.go:646-656 | an index the leader's count accepts is held by a majority |
| `RaftReplication.BackupProgress` | src/raft/raft.go:666-690 | a rejection moves the next index to or below the probe |
| `RaftSafety.BackupProgressInRuns` | src/raft/raft.go:380-413 | the same for every rejection that ever reaches the current leader |
| `RaftProgress.VoteGrantedIff` | src/raft/raft_util.go:60-63 | in every run a vote is granted exactly if the term is higher or no other vote is held, and the log the candidate had when it stood is at least as up to date as the voter's |
| `RaftProgress.InstallProgressInRuns` | src/raft/raft.go:603-604 | in every run a handled snapshot reply moves match and next index to or past the snapshot point, touches no other peer, and the leader goes on with entries unless it has compacted further |
| `RaftProgress.AppendProgressInRuns` | src/raft/raft.go:630-636 | in every run the reply to an accepted request moves them to or past the last entry sent, and the greatest index of the term that a majority holds is committed |
| `RaftCatchUp.OneExchange` | src/raft/raft.go:529-640 | what one broadcast, answer and reply do: the snapshot is taken if it is ahead, the rest of the log if the probe fits, otherwise the leader goes back |
| `RaftCatchUp.CatchesUp` | src/raft/raft.go:529-690 | a follower whose snapshot point is not past the leader's has the leader's whole log, and the leader knows, within a bounded number of exchanges |
| `RaftCatchUp.BringsUpToDate` | src/raft/raft.go:529-690 | so from every reachable state a run of such exchanges alone leads there |
| `RaftCatchUp.Settles` | src/raft/raft.go:380-383 | any follower in no later term catches up, or the exchange is trapped at a snapshot point past the leader's |
| `RaftCatchUp.StaysTrapped` | src/raft/raft.go:380-383 | once trapped, no number of exchanges gives the follower an entry or teaches the leader more than its own snapshot point |
| `RaftSafety.IndicesInRuns` | src/raft/raft.go:557-566 | snapshot point, applied, commit and last index stay ordered, next indices stay in the log: the panic is unreachable |
| `RaftSafety.VotesDurable` | src/raft/raft.go:289-306 | from before its reply is sent, a granted vote binds the voter's disk as long as its term is the saved one: the disk names the candidate, or nobody else who could be voted for |
| `RaftSafety.VotesDurableExactly` | src/raft/raft.go:289-306 | if restarts restore the saved vote, the disk names the candidate |
| `RaftSafety.AcksDurable` | src/raft/raft.go:368-438 | an acknowledged entry is in the log a restart would restore, unless a later leader overwrote it |
| `RaftLogs.FullLogView` | src/raft/raft_util.go:17-57 | lengths, last index, last term and index translation of the compacted log are those of the full log |
| `RaftLogs.MergeResult` | src/raft/raft.go:417-429 | merging a slice of a leader's log leaves the log as it was if it had it all, or replaces it from the first conflict on |
| `RaftLogs.MergeCompacted` | src/raft/raft.go:416-429 | merging into the compacted log is merging into the full log |
| `RaftCompaction.SnapshotInvisible` | src/raft/raft.go:157-171 | taking a snapshot leaves the full log and its indices unchanged |
| `RaftCompaction.InstallLog` | src/raft/raft.go:220-247 | an installed snapshot keeps a log that matches at its point and otherwise replaces it by the leader's prefix |
| `RaftCommitted.CommittedGrows` | src/raft/raft.go:693-706 | the longest prefix ever counted as committed only grows along a run |
| `RaftCommitted.ServerCommitted` | src/raft/raft.go:130-137 | what a server counts as committed, and its snapshot, are prefixes of that log, also after a restart |
| `RaftCommitted.DeliveredInOrder` | src/raft/raft.go:699-722 | a server hands over that log from where it stopped up to what it counts as committed, in order, without gaps |
| `RaftCommitted.CommittedStarted` | src/raft/raft.go:784-801 | every committed command was given to Start at a leader before |
| `RaftCommitted.StepUpholds` | src/raft/raft.go:643-663 | every step keeps the committed log a prefix of the new one, and every server's committed entries a prefix of that |
| `RaftCommitted.StepWithin` | src/raft/raft.go:784-801 | a step adds to the leaders' logs no command but one it makes a leader accept |
| `RaftDefects.RestartAgreesIff` | src/raft/raft.go:126-132 | the restart as written is the intended one exactly if the saved vote equals the saved term |
| `RaftDefects.VotesOnceIff` | src/raft/raft.go:127-128 | the restart as written keeps a vote unique exactly if none was cast, it equals the term, or the term is no other peer's number |
| `RaftDefects.RestartVotesOnce` | src/raft/raft.go:127-128 | the intended restart never doubles a vote |
| `RaftCounterexamples.ElectionSafetyFails` | src/raft/raft.go:128-128 | a run of the code as written with two leaders in term 1 |
| `RaftDefects.InstallAgreesIff` | src/raft/raft.go:220-240 | the installation as written is the intended one exactly if the two comparisons agree or nothing follows the snapshot point |
| `RaftDefects.AgreeingInstallIff` | src/raft/raft.go:220-247 | with a snapshot that agrees with the log, no entry is lost exactly if slot 0 has its term or nothing follows it |
| `RaftCounterexamples.AcknowledgedEntryLost` | src/raft/raft.go:222-243 | a run of the code as written, for any commands, without a restart, in which a server loses an entry it acknowledged and the leader commits that entry |
| `RaftCounterexamples.StateMachineSafetyFails` | src/raft/raft.go:222-243 | that run goes on, without a restart, until two servers count different entries as committed at one index |
| `RaftCounterexamples.ConflictingTailKept` | src/raft/raft.go:222-227 | a run without a restart in which a server keeps an entry of an abandoned branch behind a committed one: Log Matching fails |
| `RaftCounterexamples.FollowerTrapped` | src/raft/raft.go:380-383 | a run with neither restart nor installed snapshot after which a follower that lacks an entry of the leader is trapped |
| `RaftDefects.GuardedRun` | src/raft/raft.go:126-247 | a run of the code as written is a run of the protocol if its restarts meet the condition of VotesOnceIff and its installations that of InstallAgreesIff |
| `RaftDefects.GuardedRunsSafe` | src/raft/raft.go:126-247 | Election Safety, Log Matching, Leader Completeness and State Machine Safety in every such run |
| `Bitset.Bitset.constructor` | src/porcupine/bitset.go:10-17 | room for the given number of positions, none set |
| `Bitset.Bitset.Clone` | src/porcupine/bitset.go:19-23 | a copy with the same words that shares nothing |
| `Bitset.Bitset.Add` | src/porcupine/bitset.go:29-33 | the set of positions gains exactly this one |
| `Bitset.Bitset.Clear` | src/porcupine/bitset.go:35-39 | the set of positions loses exactly this one |
| `Bitset.Bitset.Popcnt` | src/porcupine/bitset.go:46-52 | the size of the set |
| `Bitset.Bitset.Hash` | src/porcupine/bitset.go:54-60 | the size of the set as a word, with each bit turned over once for every word that has it |
| `Bitset.CountIsSize` | src/porcupine/bitset.go:46-52 | counting the bits of every word counts the elements of the set |
| `Bitset.XorParity` | src/porcupine/bitset.go:54-60 | folding in the words turns a bit over once for every word that has it |
| `Bitset.Equals` | src/porcupine/bitset.go:62-72 | equality of the words, and for equal lengths equality of the sets |
| `NodeList.InsertBefore` | src/porcupine/checker.go:70-81 | the node is linked between the mark and what was before it |
| `NodeList.MakeLinkedEntries` | src/porcupine/checker.go:121-138 | the nodes are the entries in order, linked both ways, each call pointing to its return |
| `NodeList.Length` | src/porcupine/checker.go:83-90 | the number of entries |
| `NodeList.MakeList` | src/porcupine/checker.go:180-189 | behind a sentinel, the list holds every entry of the history |
| `NodeList.Lift` | src/porcupine/checker.go:159-167 | the list holds the entries of the operations not taken out, in order, links consistent both ways |
| `NodeList.Unlift` | src/porcupine/checker.go:169-177 | the operation taken out last is back in its place |
| `NodeList.UnliftLift` | src/porcupine/checker.go:159-177 | putting back after taking out restores every link |
| `NodeList.LiftHolds` | src/porcupine/checker.go:159-167 | every operation taken out can still be put back once those after it are |
| `Checker.CacheContains` | src/porcupine/checker.go:145-152 | true exactly if a pair with the same set and an equal state was ever cached: buckets and collisions do not matter |
| `Checker.TryCall` | src/porcupine/checker.go:194-213 | a round at a call keeps the invariant, and leaves fewer pairs uncached or moves on in the list |
| `Checker.Backtrack` | src/porcupine/checker.go:214-241 | a round at a return records the path if asked, gives up the last call, and keeps the invariant |
| `Checker.RecordLongest` | src/porcupine/checker.go:218-234 | every operation of the path has a valid prefix at least as long as the path, and no record gets shorter |
| `Checker.CheckSingle` | src/porcupine/checker.go:179-253 | terminates; unkilled, true exactly if some order of all operations is possible step by step; partial results valid, and longest if asked for |
| `Search.PrefixesExhausted` | src/porcupine/checker.go:194-241 | once the bottom level is exhausted every linearizable prefix ends in a cached pair: pruning loses nothing |
| `Search.ExhaustedMeansNone` | src/porcupine/checker.go:215-217 | giving up with an empty stack means there is no linearization |
| `Search.ExhaustedMeansOptimal` | src/porcupine/checker.go:218-234 | then each recorded prefix is a longest one for its operation |
| `Search.FinishedIsLinearization` | src/porcupine/checker.go:244-253 | an empty list means the stack is a linearization of all operations |
| `Search.InUniverse` | src/porcupine/checker.go:198-203 | everything the search can cache is one of finitely many pairs |
| `Linearizability.ShallowEqualIsProper` | src/porcupine/model.go:59-61 | the default equality of states is an equivalence every step respects |
| `Histories.MakeEntries` | src/porcupine/checker.go:48-60 | the entries are a call and a return per operation, sorted by time, calls first |
| `Histories.EntriesWellFormed` | src/porcupine/checker.go:39-60 | any such order calls every operation once and returns it once after, with its values |
| `Histories.Precedes` | src/porcupine/checker.go:39-46 | the order of return and call entries is the order of the times, ties being concurrent |
| `Histories.EntriesDecide` | src/porcupine/checker.go:48-60 | what the search decides about the entries is linearizability of the timed operations |
| `Histories.RepresentsDecides` | src/porcupine/checker.go:179-253 | the same for any entries that carry the values of the operations and order their returns and calls alike |
| `Events.Renumber` | src/porcupine/checker.go:92-106 | the same events under ids 0 to n-1 in the order of first appearance, equal exactly where they were equal |
| `Events.ConvertEntries` | src/porcupine/checker.go:108-119 | an entry per event, its position as time |
| `Events.EventEntries` | src/porcupine/checker.go:355-363 | the entries are the events in their order with the same partners, and a history for the search exactly if every id is called once and then returns once |
| `Events.EventsDecide` | src/porcupine/checker.go:92-119 | what the search decides about them is whether all calls fit an order that the model explains and that puts no call before one that had returned when it was made |
| `Parallel.UniquePartials` | src/porcupine/checker.go:317-337 | each recorded prefix once, and nothing else |
| `Parallel.CheckParallel` | src/porcupine/checker.go:274-353 | Ok exactly if every partition has a linearization, Illegal otherwise, whatever order the searches finish in |
| `Parallel.CheckOperations` | src/porcupine/checker.go:365-373 | Ok exactly if every partition is linearizable; the information holds optimal partial results |
| `Parallel.CheckEvents` | src/porcupine/checker.go:355-363 | Ok exactly if the calls of every partition fit such an order, whatever their ids |
| `Visualization.Collect` | src/porcupine/visualization.go:37-53 | values, times and clients of each operation are those of its entries |
| `Visualization.ReplayOne` | src/porcupine/visualization.go:62-79 | every step of a partial result is possible, so the panic is unreachable; the states are those of the prefix |
| `Visualization.VisualizePartition` | src/porcupine/visualization.go:33-87 | for every operation in some linearizable prefix, the largest map names a longest one |
| `KvModel.Partition` | src/models/kv.go:18-34 | one history per key, in the order of the keys, each with its operations in order |
| `KvModel.RunsPerKey` | src/models/kv.go:40-57 | the whole map accepts an order exactly if every key accepts its part |
| `KvModel.MergeRespects` | src/porcupine/model.go:28-32 | orders of different keys merge into one that respects real time |
| `KvModel.Locality` | src/models/kv.go:18-57 | a history is linearizable against the whole map exactly if each key's history is against one string |
| `KvMeaning.AcceptsIff` | src/models/kv.go:40-57 | the model accepts an order exactly if every get, and every append that returns, outputs the value last put under its key followed by what was appended since |
| `KvMeaning.LinearizableIff` | src/models/kv.go:35-57 | a history is linearizable exactly if some order of it respects real time and explains every value read in that way |
| `Strings.StringLessIff` | src/models/kv.go:28-28 | a string comes first exactly if at the first position where they differ it ends or has the lesser character |
| `KvCheck.CheckKvHistory` | src/porcupine/porcupine.go:5-8 | the check of a key/value history returns Ok exactly if some order of its calls respects real time and explains every value read, and Illegal otherwise |
| `KvService.RestoreThenRest` | src/kvraft/server.go:258-270 | restoring a snapshot and applying the rest is applying the whole log, duptable included |
| `KvService.ReplayDup` | src/kvraft/server.go:225-227 | the duptable holds each client's greatest number, whatever the log |
| `KvService.ExecutedOnceIff` | src/kvraft/server.go:225-245 | every request is executed exactly at its first entry if and only if each client's requests first appear in order |
| `KvService.ExactlyOnce` | src/kvraft/server.go:218-257 | then the data is as if only the first entry of each request were in the log |
| `KvService.LateFirstLost` | src/kvraft/server.go:225-227 | a log in which a request that first appears late is never executed |
| `KvNode.KVServer.constructor` | src/kvraft/server.go:347-373 | a started server has its snapshot's data and duptable, or nothing |
| `KvNode.KVServer.ApplyOp` | src/kvraft/server.go:225-245 | a committed request is executed and recorded unless the duptable has it |
| `KvNode.KVServer.Receive` | src/kvraft/server.go:211-271 | one round of the apply loop: skip, execute or restore; who is woken; when a snapshot is handed to Raft |
| `KvNode.KVServer.ApplyAll` | src/kvraft/server.go:210-273 | the loop over all that arrives, ended by a snapshot that cannot be decoded |
| `KvNode.CatchesUp` | src/kvraft/server.go:210-257 | entries delivered in order take a server from one prefix of the log to a longer one, also after a restart |
| `KvNode.CoveredSkipped` | src/kvraft/server.go:219-223 | entries a snapshot covers have no effect |
| `KvNode.KVServer.Register` | src/kvraft/server.go:105-109 | a handler waits at the index of its request |
| `KvNode.KVServer.Clean` | src/kvraft/server.go:74-78 | it no longer does |
| `KvNode.KVServer.PutAppendRepeated` | src/kvraft/server.go:158-166 | a Put or Append is answered at once exactly if the duptable has it |
| `KvNode.KVServer.FinishGet` | src/kvraft/server.go:116-141 | woken for its own request a Get returns the value its key has now, otherwise the clerk is sent on |
| `KvNode.KVServer.WantsSnapshot` | src/kvraft/server.go:276-284 | with a positive limit, a snapshot is due exactly if ten times the size is at least nine times the limit |
| `KvNode.Clerk.Request` | src/kvraft/client.go:46-98 | one numbered request; attempt k asks the server k places after the last leader, going round; the first reply that serves is the result and its server the next leader |
| `KvNode.AsksAll` | src/kvraft/client.go:64-64 | any as many attempts in a row as there are servers ask every server |
| `KvSafety.RunInv` | src/kvraft/server.go:80-314 | every state of every run of the service satisfies its invariant |
| `KvSafety.CommitFirsts` | src/kvraft/client.go:50-55 | clerks that number their requests and wait for answers keep first appearances in order |
| `KvSafety.RepeatedInLog` | src/kvraft/server.go:158-166 | an answer from any server's duptable is only given to a request that is in the committed log |
| `KvLinearizable.PointsFollowTime` | src/kvraft/server.go:116-135 | effects follow real time although a Get reads a state newer than its own entry |
| `KvLinearizable.CallsAreOperations` | src/kvraft/test_test.go:50-96 | a Get of the service is a read of the history, a Put a put, an Append an append, with the call's key, value, times and result |
| `KvLinearizable.ServiceLinearizable` | src/kvraft/client.go:46-98 | in every state of every run, completed calls and open writes in the log are linearizable: one order respects real time and explains every value read |
| `RaftKv.RaftStepOk` | src/raft/raft.go:144-819 | a step of Raft keeps the committed log a prefix of the new one, in which there are only proposed requests |
| `RaftKv.DeliveredAll` | src/raft/raft.go:699-722 | what a server puts on its apply channel is the committed log from where it stopped |
| `RaftKv.ConsumedOk` | src/kvraft/server.go:210-271 | each message on the channel takes a key/value server to a longer prefix of the committed log; none is skipped |
| `RaftKv.RunInv` | src/kvraft/server.go:80-314 | in every run of the service on Raft each server stands for a prefix of the committed log and its channel for the entries up to what Raft delivered |
| `RaftKv.SavedIsPrefix` | src/kvraft/server.go:276-299 | the status a server gives Raft as a snapshot is what the log prefix that Raft cuts off restores |
| `RaftKv.ReplicatedLinearizable` | src/kvraft/client.go:46-98 | in every state of every run of the service on Raft, with elections, lost and repeated messages, restarts, compaction and installed snapshots, completed calls and open writes in the log are linearizable |
| `KvCheck.CheckReplicated` | src/kvraft/server.go:80-273 | the checker returns Ok on every history of the replicated service over one log |
| `KvCheck.CheckOnRaft` | src/kvraft/server.go:80-273 | and on every history of the service on Raft |
| `SingleServer.KVServer.Get` | src/kvsrv/server.go:27-36 | the value of the key, or the empty string |
| `SingleServer.KVServer.Put` | src/kvsrv/server.go:38-57 | a report forgets the id; a remembered request changes nothing; a new one is done and remembered |
| `SingleServer.KVServer.Append` | src/kvsrv/server.go:59-81 | the same, and the reply is the value before the effect, also for a repetition |
| `SingleServer.LateCopyIff` | src/kvsrv/server.go:59-81 | a second copy of a request is harmless exactly if its id was not reported in between |
| `SingleServer.LateCopyAppendsTwice` | src/kvsrv/server.go:65-80 | an Append that arrives again after its report is done twice |
| `SingleProtocol.RunInv` | src/kvsrv/client.go:59-84 | every state of every run satisfies the invariant of the two-phase protocol |
| `SingleProtocol.ExactlyOnce` | src/kvsrv/client.go:71-83 | no call takes effect twice, every returned call took effect and returned its answer, and only ids of calls in flight are remembered |
| `SingleProtocol.AppendReturnsOld` | src/kvsrv/server.go:70-80 | an Append returns the value its key had just before its effect, under any number of retries |
| `SingleProtocol.RequestsAreOperations` | src/kvsrv/test_test.go:69-97 | a Put of the service is a put of the history, an Append an append that also reads |
| `SingleProtocol.ServerLinearizable` | src/kvsrv/client.go:39-84 | every state of every run is linearizable: the order of effects respects real time and explains every value read |
| `KvCheck.CheckSingleServer` | src/kvsrv/server.go:27-81 | the checker returns Ok on every history of the single server |
| `MapReduce.DoMap` | src/mr/worker.go:101-111 | bucket r holds the pairs whose key hashes to r, in order |
| `MapReduce.DoReduce` | src/mr/worker.go:138-185 | one line per key of its buckets, keys ascending, each a reduction of all values of the key in some order |
| `MapReduce.GroupAndReduce` | src/main/mrsequential.go:83-102 | the grouping loops reduce each key of a sorted sequence once, with all its values |
| `MapReduce.Sequential` | src/main/mrsequential.go:49-102 | one line per key of all map output, each a reduction of all its values in some order |
| `MapReduce.Distributed` | src/mr/worker.go:87-191 | every reduce task produces the reduction of its buckets of all map tasks |
| `MapReduce.ShuffledValues` | src/mr/worker.go:105-157 | a key's values all meet at the reducer it hashes to, in the order the sequential program has them, and none elsewhere |
| `MapReduce.DistributedIsSequential` | src/main/test-mr.sh:81-104 | for a reduce function blind to order, all reduce outputs together are the lines of the sequential output, each line in exactly one of them |
| `MapReduce.DeterminedIff` | src/main/mrsequential.go:74-102 | for every input, every outcome that an open order of equal keys allows is the same exactly if the reduce function is blind to the order of its values |
| `MapReduce.CompareRuns` | src/main/test-mr.sh:81-104 | the same for the outputs of the two programs |

## Left out

- Timing: election timers, heartbeats, RPC and handler timeouts, and that an election, a handler or a clerk ever ends; of progress, what `RaftProgress` and `RaftCatchUp` state.
- The order in which Raft's goroutines put a snapshot and commands on the apply channel: a channel holds them in the order in which Raft moved past them.
- RaftNode.Raft.ApplyCommitted: hands over a batch and raises the applied index in one step; the code unlocks between messages, raises the index one by one and drops a message that no longer follows (`src/raft/raft.go:709-724`).
- RaftSafety.IndicesInRuns: of runs in which snapshots are taken up to the applied index; the code's guard compares with the commit index, so that a snapshot may come just before the applied index is raised (`src/raft/raft.go:157`, `src/raft/raft.go:718-722`).
- RaftCommitted.DeliveredInOrder: of delivery in such steps.
- Equality of memory and disk at all times: `InstallSnapshot` changes the term without persisting in two branches; what is proved is that votes and acknowledgements are on disk before they are sent.
- RaftNode.Raft.Snapshot: asks that an index it is going to cut at is in the log, where the code would panic; `RaftSafety.IndicesInRuns` guarantees it in every run.
- Parallel.CheckParallel: goroutines, the timeout and the result Unknown are not modelled, and there is at least one partition.
- Parallel.UniquePartials: removes prefixes of equal content, where the code tells them apart by identity.
- Visualization.VisualizePartition: descriptions of operations and states, JSON and HTML are not modelled.
- KvNode.KVServer.Receive: floating-point rounding in the snapshot threshold is not modelled, and waking a client does not block.
- KvNode.Clerk.Request: the outcomes of the attempts are given, one of which serves; retrying for ever is not modelled.
- MapReduce.DoMap: the hash is any function of the key; files, JSON and renaming are not modelled.
- Byte encodings, labrpc, labgob, the persister's copies, sockets and files.
- `src/mr/coordinator.go`: scheduling and re-queueing of tasks, which depends on the wall clock.
- `src/shardctrler` and `src/shardkv`: their handlers are empty.
- Debug output, test set-ups, map and reduce applications, and main programs other than `mrsequential`.
