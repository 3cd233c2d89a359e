/** The protocol as a state machine: a set of servers, a network, and a history that records
    elections, votes and acknowledgements.  The history is bookkeeping for the proofs; no step
    reads it. */
module RaftProtocol {
  import opened Options
  import opened RaftTypes
  import opened RaftServer

  datatype Ballot = Ballot(voter: nat, term: nat)

  /** A granted vote, with the voter's log at that moment. */
  datatype Vote = Vote(candidate: nat, log: seq<LogEntry>)

  /** An election won: who, by whose votes, the leader's log as it grew in that term, and the
      highest snapshot point it sent. */
  datatype Leadership = Leadership(leader: nat, voters: set<nat>, log: seq<LogEntry>, sent: int)

  /** `exact` as long as every restart restored the vote it had saved. */
  datatype History = History(
    leaders: map<nat, Leadership>,
    votes: map<Ballot, Vote>,
    acks: map<Ballot, nat>,
    exact: bool)

  /** `net` holds every message ever sent: a message may be delivered late, out of order,
      more than once, or never. */
  datatype System = System(peers: nat, servers: seq<Server>, net: set<Message>, hist: History)

  datatype Step =
    | ElectionTimeout(i: nat)
    | ReceiveVoteRequest(i: nat, m: Message)
    | ReceiveVoteReply(i: nat, m: Message)
    | Heartbeat(i: nat)
    | ReceiveAppend(i: nat, m: Message)
    | ReceiveAppendReply(i: nat, m: Message)
    | ReceiveInstall(i: nat, m: Message)
    | ReceiveInstallReply(i: nat, m: Message)
    | ClientStart(i: nat, cmd: Command)
    | TakeSnapshot(i: nat, index: int)
    | Apply(i: nat)
    | Crash(i: nat, vote: int)

  // ----- history bookkeeping -----

  function RecordVote(h: History, b: Ballot, v: Vote): History {
    if b in h.votes then h else h.(votes := h.votes[b := v])
  }

  function RecordAck(h: History, b: Ballot, index: nat): History {
    h.(acks := h.acks[b := if b in h.acks && h.acks[b] >= index then h.acks[b] else index])
  }

  function RecordLeader(h: History, term: nat, l: Leadership): History
    requires l.log != []
  {
    RecordAck(h.(leaders := h.leaders[term := l]), Ballot(l.leader, term), |l.log| - 1)
  }

  function RecordSent(h: History, term: nat, index: int): History
    requires term in h.leaders
  {
    var l := h.leaders[term];
    h.(leaders := h.leaders[term := l.(sent := Max(l.sent, index))])
  }

  function RecordRestart(h: History, disk: Option<Disk>, vote: int): History {
    h.(exact := h.exact && (disk.Some? ==> vote == disk.value.status.votedFor))
  }

  /** The servers whose vote for `i` in `term` is on record. */
  function Tally(h: History, peers: nat, i: nat, term: nat): set<nat> {
    set v: nat | v < peers && Ballot(v, term) in h.votes && h.votes[Ballot(v, term)].candidate == i
  }

  // ----- steps -----

  function Init(peers: nat): System {
    System(peers, seq(peers, i requires 0 <= i => Fresh(i, peers, None)), {}, History(map[], map[], map[], true))
  }

  /** Server `i` becomes `s`, sends `out`, and the history becomes `h`. */
  ghost predicate Moves(c: System, c': System, i: nat, s: Server, out: set<Message>, h: History)
    requires i < |c.servers|
  {
    && c'.peers == c.peers
    && c'.servers == c.servers[i := s]
    && c'.net == c.net + out
    && c'.hist == h
  }

  ghost predicate TimeoutStep(c: System, c': System, i: nat) {
    && i < |c.servers| && Shape(c.servers[i])
    && var s, s' := c.servers[i], StartElection(c.servers[i]);
    Moves(c, c', i, s', VoteRequests(s'), RecordVote(c.hist, Ballot(i, s.currentTerm + 1), Vote(i, FullLog(s))))
  }

  ghost predicate VoteStep(c: System, c': System, i: nat, m: Message) {
    && i < |c.servers| && Shape(c.servers[i])
    && m in c.net && m.VoteRequest? && m.to == i
    && var s := c.servers[i];
    && var (s', reply) := RequestVote(s, m.vargs);
    Moves(c, c', i, s', {VoteReply(i, m.from, m.vargs, reply)},
          if reply.voteGranted
          then RecordVote(c.hist, Ballot(i, m.vargs.term), Vote(m.vargs.candidateId, FullLog(s)))
          else c.hist)
  }

  ghost predicate CountStep(c: System, c': System, i: nat, m: Message) {
    && i < |c.servers| && Shape(c.servers[i])
    && m in c.net && m.VoteReply? && m.to == i
    && var s := c.servers[i];
    && (m.vargs.term == s.currentTerm ==> m.from in s.pending)
    && var s' := HandleVoteReply(s, m.from, m.vargs, m.vreply);
    if s.role != Leader && s'.role == Leader then
      && NextIndexInRange(s')
      && Moves(c, c', i, s', Broadcast(s'),
               RecordLeader(c.hist, s.currentTerm,
                            Leadership(i, Tally(c.hist, c.peers, i, s.currentTerm) - s'.pending, FullLog(s),
                                       s.lastIncludedIndex)))
    else Moves(c, c', i, s', {}, c.hist)
  }

  ghost predicate HeartbeatStep(c: System, c': System, i: nat) {
    && i < |c.servers| && Shape(c.servers[i])
    && var s := c.servers[i];
    && s.role == Leader && NextIndexInRange(s)
    && Moves(c, c', i, s, Broadcast(s),
             if s.currentTerm in c.hist.leaders then RecordSent(c.hist, s.currentTerm, s.lastIncludedIndex) else c.hist)
  }

  ghost predicate AppendStep(c: System, c': System, i: nat, m: Message) {
    && i < |c.servers| && Shape(c.servers[i])
    && m in c.net && m.AppendRequest? && m.to == i
    && var (s', reply) := AppendEntries(c.servers[i], m.aargs);
    && var last := m.aargs.prevLogIndex + |m.aargs.entries|;
    Moves(c, c', i, s', {AppendReply(i, m.from, m.aargs, reply)},
          if reply.success && last >= 0 then RecordAck(c.hist, Ballot(i, m.aargs.term), last) else c.hist)
  }

  ghost predicate AppendReplyStep(c: System, c': System, i: nat, m: Message) {
    && i < |c.servers| && Shape(c.servers[i])
    && m in c.net && m.AppendReply? && m.to == i && m.from < c.servers[i].peers
    && Moves(c, c', i, HandleAppendReply(c.servers[i], m.from, m.aargs, m.areply), {}, c.hist)
  }

  ghost predicate InstallStep(c: System, c': System, i: nat, m: Message) {
    && i < |c.servers| && Shape(c.servers[i])
    && m in c.net && m.InstallRequest? && m.to == i
    && var (s', reply) := InstallSnapshot(c.servers[i], m.iargs);
    Moves(c, c', i, s', {InstallReply(i, m.from, m.iargs, reply)}, c.hist)
  }

  ghost predicate InstallReplyStep(c: System, c': System, i: nat, m: Message) {
    && i < |c.servers| && Shape(c.servers[i])
    && m in c.net && m.InstallReply? && m.to == i && m.from < c.servers[i].peers
    && Moves(c, c', i, HandleInstallReply(c.servers[i], m.from, m.iargs, m.ireply), {}, c.hist)
  }

  ghost predicate StartStep(c: System, c': System, i: nat, cmd: Command) {
    && i < |c.servers| && Shape(c.servers[i])
    && var s, s' := c.servers[i], Start(c.servers[i], cmd);
    Moves(c, c', i, s', {},
          if s.role == Leader && s.currentTerm in c.hist.leaders
          then RecordLeader(c.hist, s.currentTerm, c.hist.leaders[s.currentTerm].(log := FullLog(s')))
          else c.hist)
  }

  /** The service snapshots what it was handed, and the bytes stand for that prefix. */
  ghost predicate SnapshotStep(c: System, c': System, i: nat, index: int) {
    && i < |c.servers| && Shape(c.servers[i])
    && var s := c.servers[i];
    && s.commitIndex <= LastLogIndex(s) && 0 <= index <= s.lastApplied && index < |FullLog(s)|
    && Moves(c, c', i, Snapshot(s, index, FullLog(s)[..index + 1]), {}, c.hist)
  }

  ghost predicate ApplyStep(c: System, c': System, i: nat) {
    && i < |c.servers| && Shape(c.servers[i])
    && var s := c.servers[i];
    && s.commitIndex <= LastLogIndex(s) && s.lastIncludedIndex <= s.lastApplied
    && Moves(c, c', i, Deliver(s).0, {}, c.hist)
  }

  /** A server dies and comes back with what it had saved, the vote included or one as good. */
  ghost predicate CrashStep(c: System, c': System, i: nat, vote: int) {
    && i < |c.servers|
    && var disk := c.servers[i].disk;
    && SafeVote(i, c.peers, disk, vote)
    && Moves(c, c', i, RestoreVoting(i, c.peers, disk, vote), {}, RecordRestart(c.hist, disk, vote))
  }

  ghost predicate Next(c: System, c': System, step: Step) {
    match step
    case ElectionTimeout(i) => TimeoutStep(c, c', i)
    case ReceiveVoteRequest(i, m) => VoteStep(c, c', i, m)
    case ReceiveVoteReply(i, m) => CountStep(c, c', i, m)
    case Heartbeat(i) => HeartbeatStep(c, c', i)
    case ReceiveAppend(i, m) => AppendStep(c, c', i, m)
    case ReceiveAppendReply(i, m) => AppendReplyStep(c, c', i, m)
    case ReceiveInstall(i, m) => InstallStep(c, c', i, m)
    case ReceiveInstallReply(i, m) => InstallReplyStep(c, c', i, m)
    case ClientStart(i, cmd) => StartStep(c, c', i, cmd)
    case TakeSnapshot(i, index) => SnapshotStep(c, c', i, index)
    case Apply(i) => ApplyStep(c, c', i)
    case Crash(i, vote) => CrashStep(c, c', i, vote)
  }

  /** A finite run from the initial state. */
  ghost predicate IsRun(peers: nat, run: seq<System>) {
    && |run| >= 1
    && run[0] == Init(peers)
    && forall k :: 0 <= k < |run| - 1 ==> CanStep(run[k], run[k + 1])
  }

  ghost predicate CanStep(c: System, c': System) {
    exists step :: Next(c, c', step)
  }
}
