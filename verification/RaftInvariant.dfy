/** The inductive invariant.  Servers and messages are related to each other only through the
    history, so every clause is about the history alone, one server, or one message. */
module RaftInvariant {
  import opened RaftTypes
  import opened RaftServer
  import opened RaftProtocol

  // ----- logs -----

  ghost function TermLog(h: History, t: nat): seq<LogEntry>
    requires t in h.leaders
  {
    h.leaders[t].log
  }

  /** Up to position `k`, `log` is what the leader of the term found there had. */
  ghost predicate EntryOk(h: History, log: seq<LogEntry>, k: nat)
    requires k < |log|
  {
    && log[k].term in h.leaders
    && log[..k + 1] <= TermLog(h, log[k].term)
  }

  /** A log whose every prefix was once the log of the leader of its last term. */
  ghost predicate LogOk(h: History, log: seq<LogEntry>) {
    && |log| >= 1
    && log[0] == SENTINEL
    && forall k :: 1 <= k < |log| ==> EntryOk(h, log, k)
  }

  ghost predicate TermsAtMost(log: seq<LogEntry>, t: nat) {
    forall k :: 0 <= k < |log| ==> log[k].term <= t
  }

  ghost predicate TermsBelow(log: seq<LogEntry>, t: nat) {
    forall k :: 0 <= k < |log| ==> log[k].term < t
  }

  ghost function LastTerm(log: seq<LogEntry>): nat
    requires log != []
  {
    log[|log| - 1].term
  }

  /** The voting order on logs. */
  ghost predicate UpToDate(cand: seq<LogEntry>, log: seq<LogEntry>)
    requires cand != [] && log != []
  {
    || LastTerm(cand) > LastTerm(log)
    || (LastTerm(cand) == LastTerm(log) && |cand| >= |log|)
  }

  /** The leader of term `u` holds something else at a position the leader of `t` filled by `k`. */
  ghost predicate Conflict(h: History, u: nat, t: nat, k: nat)
    requires u in h.leaders && t in h.leaders
  {
    exists j :: 1 <= j <= k && j < |TermLog(h, u)| && j < |TermLog(h, t)| && TermLog(h, u)[j] != TermLog(h, t)[j]
  }

  /** Some leader of a term in `(t, hi]` overwrote what `t` had put up to `k`. */
  ghost predicate Overwritten(h: History, t: nat, hi: nat, k: nat)
    requires t in h.leaders
  {
    exists u :: t < u <= hi && u in h.leaders && Conflict(h, u, t, k)
  }

  // ----- quorums and commitment -----

  ghost predicate Majority(q: set<nat>, peers: nat) {
    && (forall v :: v in q ==> v < peers)
    && 2 * |q| > peers
  }

  /** The servers that acknowledged index `k` to the leader of `t`. */
  ghost function Ackers(h: History, peers: nat, t: nat, k: nat): set<nat> {
    set v: nat | v < peers && Ballot(v, t) in h.acks && h.acks[Ballot(v, t)] >= k
  }

  /** Entry `k` was committed in term `t`: it is of that term and a majority has it. */
  ghost predicate CommittedAt(h: History, peers: nat, t: nat, k: nat) {
    && t in h.leaders
    && 1 <= k < |TermLog(h, t)|
    && TermLog(h, t)[k].term == t
    && Majority(Ackers(h, peers, t, k), peers)
  }

  ghost predicate CommitWitness(h: History, peers: nat, log: seq<LogEntry>, c: nat, t: nat, k: nat)
    requires c < |log|
  {
    && CommittedAt(h, peers, t, k)
    && c <= k
    && log[..c + 1] <= TermLog(h, t)
  }

  /** The first `c` entries of `log` were committed in some term up to `hi`. */
  ghost predicate CommitOk(h: History, peers: nat, log: seq<LogEntry>, c: int, hi: nat) {
    && 0 <= c < |log|
    && (c == 0 || exists t: nat, k: nat :: t <= hi && CommitWitness(h, peers, log, c, t, k))
  }

  // ----- history -----

  ghost predicate LeaderOk(h: History, peers: nat, t: nat)
    requires t in h.leaders
  {
    var l := h.leaders[t];
    && t >= 1 && l.leader < peers
    && LogOk(h, l.log) && TermsAtMost(l.log, t)
    && Majority(l.voters, peers)
    && (forall v :: v in l.voters ==> VotedFor(h, Ballot(v, t), l.leader))
    && VotedFor(h, Ballot(l.leader, t), l.leader)
    && h.votes[Ballot(l.leader, t)].log <= l.log
  }

  ghost predicate VotedFor(h: History, b: Ballot, candidate: nat) {
    b in h.votes && h.votes[b].candidate == candidate
  }

  ghost predicate VoteOk(h: History, peers: nat, b: Ballot)
    requires b in h.votes
  {
    var v := h.votes[b];
    && b.term >= 1 && b.voter < peers
    && LogOk(h, v.log)
    && VotedFor(h, Ballot(v.candidate, b.term), v.candidate)
    && var cand := h.votes[Ballot(v.candidate, b.term)].log;
    && cand != [] && UpToDate(cand, v.log) && TermsBelow(cand, b.term)
  }

  ghost predicate AckOk(h: History, peers: nat, b: Ballot)
    requires b in h.acks
  {
    b.term in h.leaders && h.acks[b] < |TermLog(h, b.term)| && b.voter < peers
  }

  /** The vote may have helped to elect the leader of its term. */
  ghost predicate Counts(h: History, b: Ballot) {
    b.term !in h.leaders || b.voter in h.leaders[b.term].voters
  }

  /** A voter that had acknowledged `k` in term `t` still had it when it voted in a later term,
      unless a leader in between overwrote it. */
  ghost predicate VoteKeepsAck(h: History, b: Ballot, t: nat, k: nat)
    requires b in h.votes && t in h.leaders && k < |TermLog(h, t)|
  {
    TermLog(h, t)[..k + 1] <= h.votes[b].log || (b.term >= 1 && Overwritten(h, t, b.term - 1, k))
  }

  ghost predicate VoteKeepsAcks(h: History, b: Ballot)
    requires b in h.votes
  {
    forall t: nat, k: nat ::
      (&& t < b.term && Ballot(b.voter, t) in h.acks && 1 <= k <= h.acks[Ballot(b.voter, t)]
       && t in h.leaders && k < |TermLog(h, t)|)
      ==> VoteKeepsAck(h, b, t, k)
  }

  ghost predicate HistoryOk(h: History, peers: nat) {
    && (forall t :: t in h.leaders ==> LeaderOk(h, peers, t))
    && (forall b :: b in h.votes ==> VoteOk(h, peers, b))
    && (forall b :: b in h.acks ==> AckOk(h, peers, b))
    && (forall b :: b in h.votes && Counts(h, b) ==> VoteKeepsAcks(h, b))
  }

  lemma HistoryLeader(h: History, peers: nat, t: nat)
    requires HistoryOk(h, peers) && t in h.leaders
    ensures LeaderOk(h, peers, t)
  {
  }

  lemma HistoryVote(h: History, peers: nat, b: Ballot)
    requires HistoryOk(h, peers) && b in h.votes
    ensures VoteOk(h, peers, b) && (Counts(h, b) ==> VoteKeepsAcks(h, b))
  {
  }

  lemma HistoryAck(h: History, peers: nat, b: Ballot)
    requires HistoryOk(h, peers) && b in h.acks
    ensures AckOk(h, peers, b)
  {
  }

  // ----- servers -----

  /** The term a crash would fall back to. */
  ghost function SavedTerm(s: Server): nat {
    if s.disk.Some? then s.disk.value.status.currentTerm else 0
  }

  ghost function SavedVote(s: Server): int {
    if s.disk.Some? then s.disk.value.status.votedFor else NO_VOTE
  }

  /** Log and snapshot on disk are those in memory; the term on disk may lag. */
  ghost predicate DiskOk(s: Server)
    requires |s.logs| >= 1
  {
    && SavedTerm(s) <= s.currentTerm
    && (s.role != Follower ==> SavedTerm(s) == s.currentTerm)
    && match s.disk
       case None => s.logs == [SENTINEL] && s.lastIncludedIndex == 0 && s.snapshot == [SENTINEL]
       case Some(d) =>
         && d.status.logs == s.logs
         && d.status.lastIncludedIndex == s.lastIncludedIndex
         && d.status.lastIncludedTerm == s.logs[0].term
         && d.snapshot == s.snapshot
  }

  ghost predicate IndicesOk(s: Server, peers: nat, i: nat) {
    && Shape(s)
    && s.me == i && s.peers == peers
    && s.logs[0].term == s.snapshot[s.lastIncludedIndex].term
    && s.lastIncludedIndex <= s.lastApplied <= s.commitIndex <= LastLogIndex(s)
  }

  /** `vote` lets nobody but `candidate` be voted for. Unless restarts were exact, it may be the
      number of no other peer. */
  ghost predicate Keeps(h: History, s: Server, vote: int, candidate: nat) {
    vote == candidate || (!h.exact && vote != NO_VOTE && !IsPeer(s.peers, s.me, vote))
  }

  /** A recorded vote is kept in `votedFor`; the converse fails after a leader steps down on a reply. */
  ghost predicate VotesOk(h: History, s: Server) {
    && (s.role != Follower ==> s.votedFor == s.me)
    && forall u: nat :: Ballot(s.me, u) in h.votes ==>
         && u <= SavedTerm(s)
         && (u == s.currentTerm ==> Keeps(h, s, s.votedFor, h.votes[Ballot(s.me, u)].candidate))
         && (u == SavedTerm(s) ==> Keeps(h, s, SavedVote(s), h.votes[Ballot(s.me, u)].candidate))
  }

  ghost predicate KeepsAck(h: History, log: seq<LogEntry>, saved: nat, t: nat, k: nat)
    requires t in h.leaders && k < |TermLog(h, t)|
  {
    TermLog(h, t)[..k + 1] <= log || Overwritten(h, t, saved, k)
  }

  /** What was acknowledged is still in the log unless a later leader overwrote it. */
  ghost predicate AcksOk(h: History, me: nat, log: seq<LogEntry>, saved: nat) {
    forall t: nat :: Ballot(me, t) in h.acks ==>
      && t <= saved
      && forall k: nat :: 1 <= k <= h.acks[Ballot(me, t)] && t in h.leaders && k < |TermLog(h, t)| ==>
           KeepsAck(h, log, saved, t, k)
  }

  ghost predicate CandidateOk(h: History, s: Server)
    requires |s.logs| >= 1
  {
    s.role == Candidate ==>
      && VotedFor(h, Ballot(s.me, s.currentTerm), s.me)
      && h.votes[Ballot(s.me, s.currentTerm)].log == FullLog(s)
      && (s.currentTerm in h.leaders ==> h.leaders[s.currentTerm].leader != s.me)
      && s.me !in s.pending
      && s.voteGrantedCnt <= |Tally(h, s.peers, s.me, s.currentTerm) - s.pending|
  }

  ghost predicate MatchOk(h: History, s: Server, p: nat)
    requires p < |s.matchIndex|
  {
    || s.matchIndex[p] <= s.commitIndex
    || (Ballot(p, s.currentTerm) in h.acks && s.matchIndex[p] <= h.acks[Ballot(p, s.currentTerm)])
  }

  ghost predicate LeadingOk(h: History, s: Server)
    requires Shape(s)
  {
    s.role == Leader ==>
      && s.currentTerm in h.leaders
      && h.leaders[s.currentTerm].leader == s.me
      && TermLog(h, s.currentTerm) == FullLog(s)
      && h.leaders[s.currentTerm].sent <= s.commitIndex
      && NextIndexInRange(s)
      && forall p: nat :: p < s.peers ==> MatchOk(h, s, p)
  }

  ghost predicate ServerOk(h: History, peers: nat, s: Server, i: nat) {
    && IndicesOk(s, peers, i)
    && DiskOk(s)
    && LogOk(h, FullLog(s)) && TermsAtMost(FullLog(s), SavedTerm(s))
    && VotesOk(h, s)
    && AcksOk(h, s.me, FullLog(s), SavedTerm(s))
    && CommitOk(h, peers, FullLog(s), s.commitIndex, s.currentTerm)
    && CommitOk(h, peers, FullLog(s), s.lastIncludedIndex, SavedTerm(s))
    && CandidateOk(h, s)
    && LeadingOk(h, s)
  }

  // ----- messages -----

  ghost predicate VoteRequestOk(h: History, from: nat, a: RequestVoteArgs) {
    && a.candidateId == from
    && VotedFor(h, Ballot(from, a.term), from)
    && var log := h.votes[Ballot(from, a.term)].log;
    && log != [] && a.lastLogIndex == |log| - 1 && a.lastLogTerm == LastTerm(log)
  }

  /** An AppendEntries request carries a slice of its leader's log, up to its end at that time. */
  ghost predicate AppendOk(h: History, peers: nat, from: nat, a: AppendEntriesArgs) {
    && a.term in h.leaders && h.leaders[a.term].leader == from
    && 0 <= a.prevLogIndex
    && a.prevLogIndex + |a.entries| < |TermLog(h, a.term)|
    && a.prevLogTerm == TermLog(h, a.term)[a.prevLogIndex].term
    && a.entries == TermLog(h, a.term)[a.prevLogIndex + 1 .. a.prevLogIndex + 1 + |a.entries|]
    && a.leaderCommit <= a.prevLogIndex + |a.entries|
    && CommitOk(h, peers, TermLog(h, a.term), a.leaderCommit, a.term)
  }

  /** What a rejection says about the follower: too short, compacted past the probe, or in
      conflict at the probe with an entry of another term's leader. */
  ghost predicate RejectionOk(h: History, a: AppendEntriesArgs, r: AppendEntriesReply) {
    || (r.xTerm == -1 && r.xIndex == -1 && 1 <= r.xLen <= a.prevLogIndex)
    || (r.xTerm == 0 && r.xIndex == 0)
    || (&& r.xTerm >= 1 && 1 <= r.xIndex <= a.prevLogIndex
        && r.xTerm != a.prevLogTerm
        && r.xTerm in h.leaders
        && a.prevLogIndex < |TermLog(h, r.xTerm)|
        && TermLog(h, r.xTerm)[a.prevLogIndex].term == r.xTerm)
  }

  ghost predicate AppendReplyOk(h: History, peers: nat, from: nat, to: nat, a: AppendEntriesArgs,
                                r: AppendEntriesReply) {
    && AppendOk(h, peers, to, a)
    && r.term >= a.term
    && (r.success ==>
          && r.term == a.term && Ballot(from, a.term) in h.acks
          && h.acks[Ballot(from, a.term)] >= a.prevLogIndex + |a.entries|)
    && (!r.success && r.term == a.term ==> RejectionOk(h, a, r))
  }

  ghost predicate InstallOk(h: History, peers: nat, from: nat, a: InstallSnapshotArgs) {
    && a.term in h.leaders && h.leaders[a.term].leader == from
    && 0 <= a.lastIncludedIndex < |TermLog(h, a.term)| && a.lastIncludedIndex <= h.leaders[a.term].sent
    && a.data == TermLog(h, a.term)[..a.lastIncludedIndex + 1]
    && a.lastIncludedTerm == TermLog(h, a.term)[a.lastIncludedIndex].term
    && CommitOk(h, peers, TermLog(h, a.term), a.lastIncludedIndex, a.term)
  }

  ghost predicate MessageOk(h: History, peers: nat, m: Message) {
    && m.from < peers && m.to < peers && m.from != m.to
    && match m
       case VoteRequest(from, _, a) => VoteRequestOk(h, from, a)
       case VoteReply(from, to, a, r) =>
         VoteRequestOk(h, to, a) && (r.voteGranted ==> r.term == a.term && VotedFor(h, Ballot(from, a.term), to))
       case AppendRequest(from, _, a) => AppendOk(h, peers, from, a)
       case AppendReply(from, to, a, r) => AppendReplyOk(h, peers, from, to, a, r)
       case InstallRequest(from, _, a) => InstallOk(h, peers, from, a)
       case InstallReply(from, to, a, r) => InstallOk(h, peers, to, a)
  }

  ghost predicate Inv(c: System) {
    && |c.servers| == c.peers
    && HistoryOk(c.hist, c.peers)
    && (forall i: nat :: i < c.peers ==> ServerOk(c.hist, c.peers, c.servers[i], i))
    && (forall m :: m in c.net ==> MessageOk(c.hist, c.peers, m))
  }
}
