/** The transition functions of one Raft peer, one per region of code that runs under the lock.
    They specify the methods of class `Raft` and are the steps of the protocol in `RaftProtocol`. */
module RaftServer {
  import opened Options
  import opened RaftTypes

  // ----- index translation (raft_util.go) -----

  /** What the index arithmetic needs to stay inside `logs`. */
  predicate Shape(s: Server) {
    && |s.logs| >= 1
    && 0 <= s.lastIncludedIndex <= s.commitIndex
    && |s.snapshot| == s.lastIncludedIndex + 1
    && |s.nextIndex| == |s.matchIndex| == s.peers
    && s.me < s.peers
  }

  /** Every entry the server has accepted, compacted or not; position = log index. */
  function FullLog(s: Server): seq<LogEntry>
    requires |s.logs| >= 1
  {
    s.snapshot + s.logs[1..]
  }

  function LastLogIndex(s: Server): int {
    s.lastIncludedIndex + |s.logs| - 1
  }

  function RealLogLen(s: Server): int {
    s.lastIncludedIndex + |s.logs|
  }

  function LogIndex(s: Server, realIndex: int): int {
    realIndex - s.lastIncludedIndex
  }

  function RealIndex(s: Server, logIndex: int): int {
    s.lastIncludedIndex + logIndex
  }

  function LastLogTerm(s: Server): nat
    requires |s.logs| >= 1
  {
    if |s.logs| < 2 then s.logs[0].term else s.logs[|s.logs| - 1].term
  }

  predicate IsLogUpToDate(s: Server, lastLogTerm: nat, lastLogIndex: int)
    requires |s.logs| >= 1
  {
    || lastLogTerm > LastLogTerm(s)
    || (lastLogTerm == LastLogTerm(s) && lastLogIndex >= LastLogIndex(s))
  }

  // ----- persistence -----

  function Persist(s: Server): Server
    requires |s.logs| >= 1
  {
    s.(disk := Some(Disk(
                      PersistentStatus(s.logs, s.currentTerm, s.votedFor, s.lastIncludedIndex, s.logs[0].term),
                      s.snapshot)))
  }

  /** A server created by `Make` before `readPersist`. */
  function Fresh(me: nat, peers: nat, disk: Option<Disk>): Server {
    Server(me, peers, 0, NO_VOTE, Follower, [SENTINEL], 0, 0,
           seq(peers, _ => 0), seq(peers, _ => 0), 0, [SENTINEL], 0, {}, disk)
  }

  /** The restored state, with the vote to restore as a parameter. */
  function RestoreVoting(me: nat, peers: nat, disk: Option<Disk>, votedFor: int): Server {
    var s := Fresh(me, peers, disk);
    match disk
    case None => s
    case Some(d) =>
      s.(currentTerm := d.status.currentTerm,
      votedFor := votedFor,
      logs := if d.status.logs == [] then [] else
        d.status.logs[0 := d.status.logs[0].(term := d.status.lastIncludedTerm)],
      lastIncludedIndex := d.status.lastIncludedIndex,
      commitIndex := d.status.lastIncludedIndex,
      lastApplied := d.status.lastIncludedIndex,
      snapshot := d.snapshot)
  }

  /** `Make` with the vote restored from the saved vote, as the paper asks. */
  function Restart(me: nat, peers: nat, disk: Option<Disk>): Server {
    RestoreVoting(me, peers, disk, if disk.Some? then disk.value.status.votedFor else NO_VOTE)
  }

  /** A vote a restart may restore: the saved one; or the saved term, if no vote was saved or the
      term is no other peer's number, so that nobody can be granted a second vote. */
  predicate SafeVote(me: nat, peers: nat, disk: Option<Disk>, vote: int) {
    match disk
    case None => vote == NO_VOTE
    case Some(d) =>
      || vote == d.status.votedFor
      || (vote == d.status.currentTerm && (d.status.votedFor == NO_VOTE || !IsPeer(peers, me, vote)))
  }

  // ----- elections -----

  predicate IsPeer(peers: nat, me: nat, p: int) {
    0 <= p < peers && p != me
  }

  function OtherPeers(peers: nat, me: nat): set<nat> {
    set p: nat | p < peers && IsPeer(peers, me, p)
  }

  function StartElection(s: Server): Server
    requires |s.logs| >= 1
  {
    Persist(s.(role := Candidate, votedFor := s.me, currentTerm := s.currentTerm + 1)).(
    voteGrantedCnt := 1,
    pending := OtherPeers(s.peers, s.me))
  }

  function VoteRequestTo(s: Server, p: nat): Message
    requires |s.logs| >= 1
  {
    VoteRequest(s.me, p, RequestVoteArgs(s.currentTerm, s.me, LastLogIndex(s), LastLogTerm(s)))
  }

  function VoteRequests(s: Server): set<Message>
    requires |s.logs| >= 1
  {
    set p: nat | p < s.peers && IsPeer(s.peers, s.me, p) :: VoteRequestTo(s, p)
  }

  /** Adopting a higher term on a request forgets the vote. */
  function AdoptTerm(s: Server, term: nat): Server {
    if term > s.currentTerm then s.(currentTerm := term, votedFor := NO_VOTE) else s
  }

  function RequestVote(s: Server, args: RequestVoteArgs): (Server, RequestVoteReply)
    requires |s.logs| >= 1
  {
    if args.term < s.currentTerm then
      (s, RequestVoteReply(s.currentTerm, false))
    else
      var s1 := if args.term > s.currentTerm then AdoptTerm(s, args.term).(role := Follower) else s;
      if (s1.votedFor == NO_VOTE || s1.votedFor == args.candidateId)
         && IsLogUpToDate(s1, args.lastLogTerm, args.lastLogIndex)
      then (Persist(s1.(votedFor := args.candidateId)), RequestVoteReply(s1.currentTerm, true))
      else (Persist(s1), RequestVoteReply(s1.currentTerm, false))
  }

  function InitializeLeader(s: Server): Server
    requires s.me < s.peers
  {
    s.(role := Leader,
    nextIndex := seq(s.peers, _ => RealLogLen(s))[s.me := LastLogIndex(s) + 1],
    matchIndex := seq(s.peers, _ => s.lastIncludedIndex)[s.me := LastLogIndex(s)])
  }

  /** The reply goroutine of one peer; it runs at most once per election. */
  function HandleVoteReply(s: Server, peer: nat, args: RequestVoteArgs, reply: RequestVoteReply): Server
    requires |s.logs| >= 1 && s.me < s.peers
  {
    if s.currentTerm != args.term || s.role != Candidate then
      s.(pending := s.pending - {peer})
    else if reply.term > s.currentTerm then
      Persist(s.(currentTerm := reply.term, votedFor := NO_VOTE)).(role := Follower, pending := s.pending - {peer})
    else if reply.term == s.currentTerm then
      var s1 := s.(pending := s.pending - {peer},
                voteGrantedCnt := if reply.voteGranted then s.voteGrantedCnt + 1 else s.voteGrantedCnt);
      if s1.voteGrantedCnt > s.peers / 2 then InitializeLeader(s1) else s1
    else
      s.(pending := s.pending - {peer})
  }

  // ----- replication, leader side -----

  function AppendTo(s: Server, p: nat): AppendEntriesArgs
    requires Shape(s) && p < s.peers
    requires s.lastIncludedIndex < s.nextIndex[p] <= RealLogLen(s)
  {
    var prev := s.nextIndex[p] - 1;
    AppendEntriesArgs(s.currentTerm, s.me, prev, s.logs[LogIndex(s, prev)].term,
                      s.logs[LogIndex(s, s.nextIndex[p])..], s.commitIndex)
  }

  function InstallTo(s: Server): InstallSnapshotArgs
    requires Shape(s)
  {
    InstallSnapshotArgs(s.currentTerm, s.me, s.lastIncludedIndex, s.logs[0].term, s.snapshot)
  }

  /** `nextIndex` never runs past the log: the panic branch of the broadcast is dead. */
  predicate NextIndexInRange(s: Server)
    requires Shape(s)
  {
    forall p :: 0 <= p < s.peers ==> 0 <= s.nextIndex[p] <= RealLogLen(s)
  }

  function MessageTo(s: Server, p: nat): Message
    requires Shape(s) && p < s.peers && s.nextIndex[p] <= RealLogLen(s)
  {
    if s.nextIndex[p] <= s.lastIncludedIndex
    then InstallRequest(s.me, p, InstallTo(s))
    else AppendRequest(s.me, p, AppendTo(s, p))
  }

  function Broadcast(s: Server): set<Message>
    requires Shape(s) && NextIndexInRange(s)
  {
    set p: nat | p < s.peers && IsPeer(s.peers, s.me, p) :: MessageTo(s, p)
  }

  /** How many peers, among the first `k`, are known to hold index `index`. */
  function CountMatching(matchIndex: seq<int>, index: int, k: nat): nat
    requires k <= |matchIndex|
  {
    if k == 0 then 0
    else CountMatching(matchIndex, index, k - 1) + (if index <= matchIndex[k - 1] then 1 else 0)
  }

  predicate Committable(s: Server, index: int)
    requires Shape(s) && s.lastIncludedIndex <= index < RealLogLen(s)
  {
    && s.logs[LogIndex(s, index)].term == s.currentTerm
    && CountMatching(s.matchIndex, index, s.peers) > s.peers / 2
  }

  /** The highest committable index at or above `from`, or `best` if there is none. */
  function CommitScan(s: Server, from: int, best: int): int
    requires Shape(s) && s.lastIncludedIndex <= from
    decreases RealLogLen(s) - from
  {
    if from < RealLogLen(s)
    then CommitScan(s, from + 1, if Committable(s, from) then from else best)
    else best
  }

  function CheckAndCommitLogs(s: Server): Server
    requires Shape(s)
  {
    s.(commitIndex := CommitScan(s, s.commitIndex + 1, s.commitIndex))
  }

  /** The last position in `logs[i..]` holding `term`, or `found` if there is none. */
  function LastOfTerm(logs: seq<LogEntry>, term: int, i: nat, found: int): int
    requires i <= |logs|
    decreases |logs| - i
  {
    if i == |logs| then found
    else LastOfTerm(logs, term, i + 1, if logs[i].term == term then i else found)
  }

  function FindNextIndex(s: Server, peer: nat, reply: AppendEntriesReply): Server
    requires Shape(s) && peer < s.peers
  {
    if reply.xTerm == -1 && reply.xIndex == -1 then
      s.(nextIndex := s.nextIndex[peer := reply.xLen])
    else
      var k := LastOfTerm(s.logs, reply.xTerm, 0, -1);
      s.(nextIndex := s.nextIndex[peer := if k >= 0 then RealIndex(s, k) else reply.xIndex])
  }

  /** Stepping down on a reply keeps `votedFor` as it was. */
  function StepDown(s: Server, term: nat): Server
    requires |s.logs| >= 1
  {
    Persist(s.(currentTerm := term, role := Follower))
  }

  function HandleAppendReply(s: Server, peer: nat, args: AppendEntriesArgs, reply: AppendEntriesReply): Server
    requires Shape(s) && peer < s.peers
  {
    if s.currentTerm != args.term || s.role != Leader then s
    else if reply.term > s.currentTerm then StepDown(s, reply.term)
    else if reply.success then
      var m := args.prevLogIndex + |args.entries|;
      CheckAndCommitLogs(
        s.(matchIndex := s.matchIndex[peer := Max(s.matchIndex[peer], m)],
        nextIndex := s.nextIndex[peer := Max(s.nextIndex[peer], m + 1)]))
    else FindNextIndex(s, peer, reply)
  }

  function HandleInstallReply(s: Server, peer: nat, args: InstallSnapshotArgs, reply: InstallSnapshotReply): Server
    requires Shape(s) && peer < s.peers
  {
    if s.currentTerm != args.term || s.role != Leader then s
    else if reply.term > s.currentTerm then StepDown(s, reply.term)
    else
      s.(matchIndex := s.matchIndex[peer := Max(s.matchIndex[peer], args.lastIncludedIndex)],
      nextIndex := s.nextIndex[peer := Max(s.nextIndex[peer], args.lastIncludedIndex + 1)])
  }

  function Start(s: Server, cmd: Command): Server
    requires Shape(s)
  {
    if s.role != Leader then s
    else
      var s1 := Persist(s.(logs := s.logs + [LogEntry(s.currentTerm, cmd)]));
      s1.(matchIndex := s1.matchIndex[s.me := LastLogIndex(s1)],
      nextIndex := s1.nextIndex[s.me := RealLogLen(s1)])
  }

  // ----- replication, follower side -----

  /** Copying `entries` into `logs` from position `at` on: keep what agrees in term,
      cut at the first conflict, append what is missing. */
  function MergeEntries(logs: seq<LogEntry>, at: nat, entries: seq<LogEntry>): seq<LogEntry>
    decreases |entries|
  {
    if entries == [] then logs
    else
      var e := entries[0];
      var logs1 :=
        if at < |logs| then
          if logs[at].term != e.term then logs[..at] + [e] else logs
        else if at == |logs| then logs + [e]
        else logs;
      MergeEntries(logs1, at + 1, entries[1..])
  }

  /** The first index of the run of `term` entries that ends at `i`, not going down to the
      commit point; `found` if that run is empty. */
  function ConflictScan(s: Server, i: int, term: nat, found: int): int
    requires Shape(s) && i <= LastLogIndex(s)
    decreases i - s.commitIndex
  {
    if i > s.commitIndex && s.logs[LogIndex(s, i)].term == term
    then ConflictScan(s, i - 1, term, i)
    else found
  }

  /** The consistency check and the copy, in the request's term. */
  function Replicate(s: Server, args: AppendEntriesArgs): (Server, AppendEntriesReply)
    requires Shape(s)
  {
    if s.lastIncludedIndex > args.prevLogIndex then
      (Persist(s), AppendEntriesReply(s.currentTerm, false, 0, 0, 0))
    else if LastLogIndex(s) < args.prevLogIndex then
      (Persist(s), AppendEntriesReply(s.currentTerm, false, -1, -1, RealLogLen(s)))
    else
      var at := LogIndex(s, args.prevLogIndex);
      var t := s.logs[at].term;
      if t != args.prevLogTerm then
        (Persist(s), AppendEntriesReply(s.currentTerm, false, t,
                                        ConflictScan(s, args.prevLogIndex, t, -1), RealLogLen(s)))
      else
        var s1 := s.(logs := MergeEntries(s.logs, at + 1, args.entries));
        var s2 := if args.leaderCommit > s1.commitIndex
                  then s1.(commitIndex := Min(args.leaderCommit, LastLogIndex(s1))) else s1;
        MergeNonEmpty(s.logs, at + 1, args.entries);
        (Persist(s2), AppendEntriesReply(s2.currentTerm, true, 0, 0, 0))
  }

  function AppendEntries(s: Server, args: AppendEntriesArgs): (Server, AppendEntriesReply)
    requires Shape(s)
  {
    if s.currentTerm > args.term then
      (s, AppendEntriesReply(s.currentTerm, false, 0, 0, 0))
    else
      Replicate(AdoptTerm(s, args.term).(role := Follower), args)
  }

  lemma MergeNonEmpty(logs: seq<LogEntry>, at: nat, entries: seq<LogEntry>)
    requires |logs| >= 1 && at >= 1
    ensures |MergeEntries(logs, at, entries)| >= 1
    decreases |entries|
  {
  }

  // ----- compaction -----

  function Snapshot(s: Server, index: int, data: seq<LogEntry>): Server
    requires Shape(s) && (s.lastIncludedIndex < index <= s.commitIndex ==> index <= LastLogIndex(s))
  {
    if s.commitIndex < index || index <= s.lastIncludedIndex then s
    else
      var split := LogIndex(s, index);
      Persist(s.(lastIncludedIndex := index,
              logs := [LogEntry(s.logs[split].term, NoCommand)] + s.logs[split + 1..],
              snapshot := data))
  }

  /** Installing a snapshot, given whether the entries after it are kept. */
  function Install(s: Server, args: InstallSnapshotArgs, keep: bool): Server
    requires Shape(s)
    requires keep ==> s.lastIncludedIndex < args.lastIncludedIndex <= LastLogIndex(s)
  {
    var tail := if keep then s.logs[LogIndex(s, args.lastIncludedIndex) + 1..] else [];
    Persist(s.(logs := [LogEntry(args.lastIncludedTerm, NoCommand)] + tail,
            lastIncludedIndex := args.lastIncludedIndex,
            commitIndex := args.lastIncludedIndex,
            lastApplied := args.lastIncludedIndex,
            snapshot := args.data))
  }

  predicate SnapshotPointInLog(s: Server, args: InstallSnapshotArgs) {
    s.lastIncludedIndex < args.lastIncludedIndex <= LastLogIndex(s)
  }

  /** Step 6 of Figure 13 in the extended Raft paper: keep the tail when the entry at the
      snapshot point has the snapshot's term. */
  predicate KeepsTail(s: Server, args: InstallSnapshotArgs)
    requires |s.logs| >= 1
  {
    SnapshotPointInLog(s, args) && s.logs[LogIndex(s, args.lastIncludedIndex)].term == args.lastIncludedTerm
  }

  /** Whether the request is answered without installing anything. */
  predicate IgnoresSnapshot(s: Server, args: InstallSnapshotArgs) {
    args.lastIncludedIndex <= s.lastIncludedIndex || args.lastIncludedIndex <= s.commitIndex
  }

  function InstallSnapshot(s: Server, args: InstallSnapshotArgs): (Server, InstallSnapshotReply)
    requires Shape(s)
  {
    if args.term < s.currentTerm then
      (s, InstallSnapshotReply(s.currentTerm))
    else
      var s1 := AdoptTerm(s, args.term).(role := Follower);
      if IgnoresSnapshot(s1, args) then
        (s1, InstallSnapshotReply(s1.currentTerm))
      else
        (Install(s1, args, KeepsTail(s1, args)), InstallSnapshotReply(s1.currentTerm))
  }

  // ----- the code as written, where it departs from its comments -----

  /** `Make` as written: `votedFor` is read from the saved term. */
  function RestartAsWritten(me: nat, peers: nat, disk: Option<Disk>): Server {
    RestoreVoting(me, peers, disk, if disk.Some? then disk.value.status.currentTerm else NO_VOTE)
  }

  /** Step 6 as written: the term of slot 0 instead of that of the entry at the snapshot point. */
  predicate KeepsTailAsWritten(s: Server, args: InstallSnapshotArgs)
    requires |s.logs| >= 1
  {
    SnapshotPointInLog(s, args) && s.logs[0].term == args.lastIncludedTerm
  }

  function InstallSnapshotAsWritten(s: Server, args: InstallSnapshotArgs): (Server, InstallSnapshotReply)
    requires Shape(s)
  {
    if args.term < s.currentTerm then
      (s, InstallSnapshotReply(s.currentTerm))
    else
      var s1 := AdoptTerm(s, args.term).(role := Follower);
      if IgnoresSnapshot(s1, args) then
        (s1, InstallSnapshotReply(s1.currentTerm))
      else
        (Install(s1, args, KeepsTailAsWritten(s1, args)), InstallSnapshotReply(s1.currentTerm))
  }

  // ----- delivery to the service -----

  function ApplyMsgs(s: Server, from: int): seq<ApplyMsg>
    requires Shape(s) && s.lastIncludedIndex < from && s.commitIndex <= LastLogIndex(s)
    decreases s.commitIndex - from
  {
    if from > s.commitIndex then []
    else [ApplyMsg(from, s.logs[LogIndex(s, from)].cmd)] + ApplyMsgs(s, from + 1)
  }

  /** The applier: hand over every committed entry that was not handed over yet. */
  function Deliver(s: Server): (Server, seq<ApplyMsg>)
    requires Shape(s) && s.commitIndex <= LastLogIndex(s) && s.lastIncludedIndex <= s.lastApplied
  {
    if s.commitIndex <= s.lastApplied then (s, [])
    else (s.(lastApplied := s.commitIndex), ApplyMsgs(s, s.lastApplied + 1))
  }
}
