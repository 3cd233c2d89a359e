/** Data of the Raft component: log entries, server state, RPC arguments and replies.

    A snapshot is opaque bytes in the implementation.  Here it is the log prefix whose effect
    those bytes stand for, so that the log a server has ever accepted is
    `snapshot + logs[1..]` (see `FullLog`). */
module RaftTypes {
  import opened Options

  datatype Command = NoCommand | Command(op: string)

  datatype LogEntry = LogEntry(term: nat, cmd: Command)

  /** The empty entry every log starts with. */
  const SENTINEL := LogEntry(0, NoCommand)

  const NO_VOTE := -1

  datatype Role = Follower | Candidate | Leader

  datatype PersistentStatus = PersistentStatus(
    logs: seq<LogEntry>,
    currentTerm: nat,
    votedFor: int,
    lastIncludedIndex: int,
    lastIncludedTerm: nat)

  /** What `Persister.Save` wrote last: Raft state and snapshot together. */
  datatype Disk = Disk(status: PersistentStatus, snapshot: seq<LogEntry>)

  /** One Raft peer.  `voteGrantedCnt` and `pending` belong to the election running in
      `currentTerm`: the tally, and the peers whose RequestVote reply was not processed yet. */
  datatype Server = Server(
    me: nat,
    peers: nat,
    currentTerm: nat,
    votedFor: int,
    role: Role,
    logs: seq<LogEntry>,
    commitIndex: int,
    lastApplied: int,
    nextIndex: seq<int>,
    matchIndex: seq<int>,
    lastIncludedIndex: int,
    snapshot: seq<LogEntry>,
    voteGrantedCnt: nat,
    pending: set<nat>,
    disk: Option<Disk>)

  datatype RequestVoteArgs = RequestVoteArgs(term: nat, candidateId: nat, lastLogIndex: int, lastLogTerm: nat)
  datatype RequestVoteReply = RequestVoteReply(term: nat, voteGranted: bool)

  datatype AppendEntriesArgs = AppendEntriesArgs(
    term: nat,
    leaderId: nat,
    prevLogIndex: int,
    prevLogTerm: nat,
    entries: seq<LogEntry>,
    leaderCommit: int)
  datatype AppendEntriesReply = AppendEntriesReply(term: nat, success: bool, xTerm: int, xIndex: int, xLen: int)

  datatype InstallSnapshotArgs = InstallSnapshotArgs(
    term: nat,
    leaderId: nat,
    lastIncludedIndex: int,
    lastIncludedTerm: nat,
    data: seq<LogEntry>)
  datatype InstallSnapshotReply = InstallSnapshotReply(term: nat)

  /** A reply travels with the arguments it answers: the sender's goroutine still holds them. */
  datatype Message =
    | VoteRequest(from: nat, to: nat, vargs: RequestVoteArgs)
    | VoteReply(from: nat, to: nat, vargs: RequestVoteArgs, vreply: RequestVoteReply)
    | AppendRequest(from: nat, to: nat, aargs: AppendEntriesArgs)
    | AppendReply(from: nat, to: nat, aargs: AppendEntriesArgs, areply: AppendEntriesReply)
    | InstallRequest(from: nat, to: nat, iargs: InstallSnapshotArgs)
    | InstallReply(from: nat, to: nat, iargs: InstallSnapshotArgs, ireply: InstallSnapshotReply)

  datatype ApplyMsg = ApplyMsg(index: int, cmd: Command)

  function Max(a: int, b: int): int {
    if a > b then a else b
  }

  function Min(a: int, b: int): int {
    if a < b then a else b
  }
}
