/** Election steps keep the invariant. */
module RaftElections {
  import opened Sets
  import opened RaftTypes
  import opened RaftServer
  import opened RaftProtocol
  import opened RaftInvariant
  import opened RaftCompleteness
  import opened RaftStability
  import opened RaftLogs
  import opened RaftRecording

  /** Changing term, vote, role, disk and the running count, but no log and no index. */
  ghost predicate OnlyVoting(s: Server, s': Server) {
    && s' == s.(currentTerm := s'.currentTerm, votedFor := s'.votedFor, role := s'.role, disk := s'.disk,
                pending := s'.pending, voteGrantedCnt := s'.voteGrantedCnt)
    && s'.currentTerm >= s.currentTerm && SavedTerm(s') >= SavedTerm(s)
    && (s'.role == Leader ==> s.role == Leader && s'.currentTerm == s.currentTerm)
  }

  /** A step that only votes, under a history in which this server acknowledged nothing new. */
  lemma ServerOkMoved(h: History, h': History, peers: nat, s: Server, s': Server, i: nat)
    requires HistoryOk(h, peers) && ServerOk(h, peers, s, i) && Grows(h, h') && h'.acks == h.acks
    requires OnlyVoting(s, s') && DiskOk(s') && VotesOk(h', s') && CandidateOk(h', s') && LeadingOk(h', s')
    ensures ServerOk(h', peers, s', i)
  {
    hide HistoryOk, LogOk, AcksOk, CommitOk, DiskOk, VotesOk, CandidateOk, LeadingOk, Grows;
    assert FullLog(s') == FullLog(s);
    LogOkGrows(h, h', FullLog(s));
    AcksOkLater(h, h', peers, s.me, FullLog(s), SavedTerm(s), SavedTerm(s'));
    CommitOkGrows(h, h', peers, FullLog(s), s.commitIndex, s.currentTerm, s'.currentTerm);
    CommitOkGrows(h, h', peers, FullLog(s), s.lastIncludedIndex, SavedTerm(s), SavedTerm(s'));
  }

  lemma ServerOkVoting(h: History, peers: nat, s: Server, s': Server, i: nat)
    requires HistoryOk(h, peers) && ServerOk(h, peers, s, i)
    requires OnlyVoting(s, s') && DiskOk(s') && VotesOk(h, s') && CandidateOk(h, s')
    ensures ServerOk(h, peers, s', i)
  {
    hide HistoryOk, LogOk, AcksOk, CommitOk, DiskOk, VotesOk, CandidateOk;
    LeadingOkVoting(h, s, s');
    hide LeadingOk;
    ServerOkMoved(h, h, peers, s, s', i);
  }

  lemma LeadingOkVoting(h: History, s: Server, s': Server)
    requires Shape(s) && LeadingOk(h, s) && OnlyVoting(s, s')
    ensures LeadingOk(h, s')
  {
    if s'.role == Leader {
      forall p: nat | p < s.peers ensures MatchOk(h, s', p) {
        assert MatchOk(h, s, p);
      }
    }
  }

  // ----- timeout -----

  lemma TimeoutFirst(h: History, peers: nat, s: Server, i: nat)
    requires HistoryOk(h, peers) && s.me == i && VotesOk(h, s) && SavedTerm(s) <= s.currentTerm
    ensures Ballot(i, s.currentTerm + 1) !in h.votes
    ensures s.currentTerm + 1 in h.leaders ==> h.leaders[s.currentTerm + 1].leader != i
  {
    var t := s.currentTerm + 1;
    if t in h.leaders {
      assert LeaderOk(h, peers, t);
      assert VotedFor(h, Ballot(h.leaders[t].leader, t), h.leaders[t].leader);
    }
  }

  lemma TimeoutHistory(h: History, peers: nat, s: Server, i: nat)
    requires HistoryOk(h, peers) && ServerOk(h, peers, s, i)
    ensures var h' := RecordVote(h, Ballot(i, s.currentTerm + 1), Vote(i, FullLog(s)));
            HistoryOk(h', peers) && OnlyBy(h, h', i)
  {
    hide HistoryOk, OnlyBy, LogOk, AcksOk, CommitOk, LeadingOk, CandidateOk;
    TimeoutFirst(h, peers, s, i);
    VoteRecorded(h, peers, Ballot(i, s.currentTerm + 1), Vote(i, FullLog(s)), SavedTerm(s));
  }

  /** A fresh candidate has its own vote, counted once. */
  lemma TimeoutCandidate(h: History, peers: nat, s: Server, i: nat)
    requires IndicesOk(s, peers, i)
    requires Ballot(i, s.currentTerm + 1) !in h.votes
    requires s.currentTerm + 1 in h.leaders ==> h.leaders[s.currentTerm + 1].leader != i
    ensures CandidateOk(RecordVote(h, Ballot(i, s.currentTerm + 1), Vote(i, FullLog(s))), StartElection(s))
  {
    var h' := RecordVote(h, Ballot(i, s.currentTerm + 1), Vote(i, FullLog(s)));
    var s' := StartElection(s);
    assert FullLog(s') == FullLog(s);
    SelfInTally(h', s'.peers, i, s'.currentTerm, s'.pending);
  }

  lemma SelfInTally(h: History, peers: nat, i: nat, t: nat, pending: set<nat>)
    requires VotedFor(h, Ballot(i, t), i) && i < peers && i !in pending
    ensures |Tally(h, peers, i, t) - pending| >= 1
  {
    SubsetSize({i}, Tally(h, peers, i, t) - pending);
  }

  lemma TimeoutVotes(h: History, peers: nat, s: Server, i: nat)
    requires IndicesOk(s, peers, i) && VotesOk(h, s) && DiskOk(s)
    requires Ballot(i, s.currentTerm + 1) !in h.votes
    ensures VotesOk(RecordVote(h, Ballot(i, s.currentTerm + 1), Vote(i, FullLog(s))), StartElection(s))
    ensures DiskOk(StartElection(s)) && OnlyVoting(s, StartElection(s))
  {
  }

  lemma TimeoutServer(h: History, h': History, peers: nat, s: Server, i: nat)
    requires HistoryOk(h, peers) && ServerOk(h, peers, s, i)
    requires h' == RecordVote(h, Ballot(i, s.currentTerm + 1), Vote(i, FullLog(s))) && Grows(h, h')
    ensures ServerOk(h', peers, StartElection(s), i)
  {
    hide HistoryOk, AcksOk, CommitOk, LogOk, VotesOk, CandidateOk, TermsAtMost, Grows;
    TimeoutFirst(h, peers, s, i);
    TimeoutVotes(h, peers, s, i);
    TimeoutCandidate(h, peers, s, i);
    hide DiskOk;
    ServerOkMoved(h, h', peers, s, StartElection(s), i);
  }

  lemma VoteRequestsOk(h: History, peers: nat, s: Server, i: nat)
    requires ServerOk(h, peers, s, i) && s.role == Candidate
    ensures forall m :: m in VoteRequests(s) ==> MessageOk(h, peers, m)
  {
    FullLogView(s, peers, i);
  }

  lemma TimeoutKeepsInv(c: System, c': System, i: nat)
    requires Inv(c) && TimeoutStep(c, c', i)
    ensures Inv(c') && Grows(c.hist, c'.hist)
  {
    hide Inv, ServerOk, HistoryOk, MessageOk, OnlyBy, VoteRequests;
    var s := c.servers[i];
    InvParts(c, i);
    TimeoutHistory(c.hist, c.peers, s, i);
    OnlyByGrows(c.hist, c'.hist, i);
    TimeoutServer(c.hist, c'.hist, c.peers, s, i);
    VoteRequestsOk(c'.hist, c.peers, StartElection(s), i);
    InvAfter(c, c', i, StartElection(s), VoteRequests(StartElection(s)), c'.hist);
  }

  // ----- voting -----

  /** A candidate or leader has voted for itself. */
  lemma SelfVote(h: History, peers: nat, s: Server, i: nat)
    requires HistoryOk(h, peers) && Shape(s) && s.me == i && VotesOk(h, s) && CandidateOk(h, s) && LeadingOk(h, s)
    requires s.role != Follower
    ensures s.votedFor == i
  {
  }

  lemma RequestVoteVoting(h: History, s: Server, i: nat, a: RequestVoteArgs)
    requires Shape(s) && s.me == i && DiskOk(s) && VotesOk(h, s) && CandidateOk(h, s)
    requires IsPeer(s.peers, i, a.candidateId) && a.term >= s.currentTerm
    requires s.role != Follower ==> s.votedFor == i
    ensures var s' := RequestVote(s, a).0; OnlyVoting(s, s') && DiskOk(s') && VotesOk(h, s') && CandidateOk(h, s')
    ensures RequestVote(s, a).1.voteGranted ==> Granted(h, RequestVote(s, a).0, i, a)
  {
  }

  /** What a granted vote leaves behind, in memory and on disk. */
  ghost predicate Granted(h: History, s': Server, i: nat, a: RequestVoteArgs) {
    && s'.role == Follower && s'.currentTerm == a.term == SavedTerm(s')
    && s'.votedFor == a.candidateId == SavedVote(s')
    && (Ballot(i, a.term) in h.votes ==> h.votes[Ballot(i, a.term)].candidate == a.candidateId)
  }

  lemma RequestVoteServer(h: History, peers: nat, s: Server, i: nat, a: RequestVoteArgs)
    requires HistoryOk(h, peers) && ServerOk(h, peers, s, i) && IsPeer(peers, i, a.candidateId)
    ensures ServerOk(h, peers, RequestVote(s, a).0, i)
    ensures RequestVote(s, a).1.voteGranted ==> Granted(h, RequestVote(s, a).0, i, a)
  {
    hide HistoryOk, LogOk, AcksOk, CommitOk, LeadingOk, CandidateOk, VotesOk, DiskOk, TermsAtMost;
    if s.role != Follower {
      SelfVote(h, peers, s, i);
    }
    if a.term >= s.currentTerm {
      RequestVoteVoting(h, s, i, a);
      hide ServerOk, OnlyVoting, RequestVote;
      ServerOkVoting(h, peers, s, RequestVote(s, a).0, i);
    }
  }

  /** The code's up-to-date test is the voting order on full logs. */
  lemma UpToDateTest(h: History, peers: nat, s: Server, i: nat, a: RequestVoteArgs)
    requires IndicesOk(s, peers, i) && VoteRequestOk(h, a.candidateId, a)
    ensures IsLogUpToDate(s, a.lastLogTerm, a.lastLogIndex) <==>
            UpToDate(h.votes[Ballot(a.candidateId, a.term)].log, FullLog(s))
  {
    FullLogView(s, peers, i);
  }

  lemma RecordedVote(h: History, peers: nat, b: Ballot)
    requires HistoryOk(h, peers) && b in h.votes
    ensures VoteOk(h, peers, b)
  {
  }

  lemma GrantedHistory(h: History, peers: nat, s: Server, i: nat, a: RequestVoteArgs)
    requires HistoryOk(h, peers) && ServerOk(h, peers, s, i) && a.candidateId != i && VoteRequestOk(h, a.candidateId, a)
    requires RequestVote(s, a).1.voteGranted && Granted(h, RequestVote(s, a).0, i, a)
    ensures var h' := RecordVote(h, Ballot(i, a.term), Vote(a.candidateId, FullLog(s)));
            HistoryOk(h', peers) && OnlyBy(h, h', i) && VotedFor(h', Ballot(i, a.term), a.candidateId)
  {
    hide HistoryOk, AcksOk, CommitOk, LogOk, LeadingOk, CandidateOk, VotesOk, TermsAtMost, OnlyBy, UpToDate;
    var b := Ballot(i, a.term);
    RecordedVote(h, peers, Ballot(a.candidateId, a.term));
    if b !in h.votes {
      UpToDateTest(h, peers, s, i, a);
      VoteRecorded(h, peers, b, Vote(a.candidateId, FullLog(s)), SavedTerm(s));
    } else {
      NothingNew(h, i);
    }
  }

  lemma GrantedServer(h: History, h': History, peers: nat, s: Server, i: nat, b: Ballot, v: Vote)
    requires HistoryOk(h, peers) && ServerOk(h, peers, s, i) && s.role == Follower
    requires h' == RecordVote(h, b, v) && Grows(h, h') && b == Ballot(i, s.currentTerm)
    requires SavedTerm(s) == s.currentTerm && s.votedFor == v.candidate == SavedVote(s)
    ensures ServerOk(h', peers, s, i)
  {
    hide HistoryOk, LogOk, AcksOk, CommitOk, TermsAtMost, Grows;
    assert VotesOk(h', s) && CandidateOk(h', s) && LeadingOk(h', s);
    hide ServerOk, VotesOk, CandidateOk, LeadingOk, DiskOk;
    ServerOkMoved(h, h', peers, s, s, i);
  }

  lemma VoteReplyOk(h: History, peers: nat, s: Server, i: nat, m: Message)
    requires MessageOk(h, peers, m) && m.VoteRequest? && m.to == i && |s.logs| >= 1
    requires RequestVote(s, m.vargs).1.voteGranted ==> VotedFor(h, Ballot(i, m.vargs.term), m.from)
    ensures MessageOk(h, peers, VoteReply(i, m.from, m.vargs, RequestVote(s, m.vargs).1))
  {
  }

  lemma VoteKeepsInv(c: System, c': System, i: nat, m: Message)
    requires Inv(c) && VoteStep(c, c', i, m)
    ensures Inv(c') && Grows(c.hist, c'.hist)
  {
    hide Inv, ServerOk, HistoryOk, OnlyBy, RequestVote;
    var s := c.servers[i];
    InvParts(c, i);
    InvMessage(c, m);
    var (s', reply) := RequestVote(s, m.vargs);
    RequestVoteServer(c.hist, c.peers, s, i, m.vargs);
    if reply.voteGranted {
      GrantedHistory(c.hist, c.peers, s, i, m.vargs);
      OnlyByGrows(c.hist, c'.hist, i);
      GrantedServer(c.hist, c'.hist, c.peers, s', i, Ballot(i, m.vargs.term), Vote(m.vargs.candidateId, FullLog(s)));
    } else {
      NothingNew(c.hist, i);
    }
    OnlyByGrows(c.hist, c'.hist, i);
    MessageOkGrows(c.hist, c'.hist, c.peers, m);
    VoteReplyOk(c'.hist, c.peers, s, i, m);
    hide MessageOk;
    InvAfter(c, c', i, s', {VoteReply(i, m.from, m.vargs, reply)}, c'.hist);
  }

  // ----- counting -----

  /** Counting a peer's reply once keeps the tally honest. */
  lemma TallyCounts(h: History, s: Server, i: nat, peer: nat, granted: bool)
    requires |s.logs| >= 1 && s.me == i && CandidateOk(h, s) && s.role == Candidate
    requires granted ==> peer < s.peers && peer in s.pending && VotedFor(h, Ballot(peer, s.currentTerm), i)
    ensures var voters := Tally(h, s.peers, i, s.currentTerm) - (s.pending - {peer});
            s.voteGrantedCnt + (if granted then 1 else 0) <= |voters|
  {
    var before := Tally(h, s.peers, i, s.currentTerm) - s.pending;
    var voters := Tally(h, s.peers, i, s.currentTerm) - (s.pending - {peer});
    if granted {
      SubsetSize(before + {peer}, voters);
    } else {
      SubsetSize(before, voters);
    }
  }

  /** Whether the reply adds to the running count. */
  ghost predicate Adds(s: Server, m: Message)
    requires m.VoteReply?
  {
    s.currentTerm == m.vargs.term && m.vreply.term == s.currentTerm && m.vreply.voteGranted
  }

  lemma CountedVoting(h: History, peers: nat, s: Server, i: nat, m: Message)
    requires IndicesOk(s, peers, i) && DiskOk(s) && VotesOk(h, s) && CandidateOk(h, s)
    requires MessageOk(h, peers, m) && m.VoteReply? && m.to == i
    requires m.vargs.term == s.currentTerm ==> m.from in s.pending
    requires s.role == Leader || HandleVoteReply(s, m.from, m.vargs, m.vreply).role != Leader
    ensures var s' := HandleVoteReply(s, m.from, m.vargs, m.vreply);
            OnlyVoting(s, s') && DiskOk(s') && VotesOk(h, s') && CandidateOk(h, s')
  {
    var s' := HandleVoteReply(s, m.from, m.vargs, m.vreply);
    assert FullLog(s') == FullLog(s);
    if s.role == Candidate {
      TallyCounts(h, s, i, m.from, Adds(s, m));
    }
  }

  /** A vote reply that does not elect. */
  lemma CountedServer(h: History, peers: nat, s: Server, i: nat, m: Message)
    requires HistoryOk(h, peers) && ServerOk(h, peers, s, i)
    requires MessageOk(h, peers, m) && m.VoteReply? && m.to == i
    requires m.vargs.term == s.currentTerm ==> m.from in s.pending
    requires s.role == Leader || HandleVoteReply(s, m.from, m.vargs, m.vreply).role != Leader
    ensures ServerOk(h, peers, HandleVoteReply(s, m.from, m.vargs, m.vreply), i)
  {
    hide HistoryOk, LogOk, AcksOk, CommitOk, LeadingOk, CandidateOk, VotesOk, DiskOk, TermsAtMost, OnlyVoting;
    hide HandleVoteReply, MessageOk;
    CountedVoting(h, peers, s, i, m);
    hide ServerOk;
    ServerOkVoting(h, peers, s, HandleVoteReply(s, m.from, m.vargs, m.vreply), i);
  }

  /** A candidate that reaches a majority is the first leader of its term. */
  lemma FirstInTerm(h: History, peers: nat, s: Server, i: nat, voters: set<nat>)
    requires HistoryOk(h, peers) && |s.logs| >= 1 && s.me == i && CandidateOk(h, s) && s.role == Candidate
    requires voters <= Tally(h, peers, i, s.currentTerm) && 2 * |voters| > peers
    ensures s.currentTerm !in h.leaders && Majority(voters, peers)
    ensures forall v :: v in voters ==> VotedFor(h, Ballot(v, s.currentTerm), i)
  {
    var t := s.currentTerm;
    if t in h.leaders {
      assert LeaderOk(h, peers, t);
      OneWinner(h, peers, t, i, h.leaders[t].leader, voters, h.leaders[t].voters);
    }
  }

  lemma ElectedHistory(h: History, peers: nat, s: Server, i: nat, voters: set<nat>)
    requires HistoryOk(h, peers) && ServerOk(h, peers, s, i) && s.role == Candidate
    requires voters <= Tally(h, peers, i, s.currentTerm) && 2 * |voters| > peers
    ensures var h' := RecordLeader(h, s.currentTerm, Leadership(i, voters, FullLog(s), s.lastIncludedIndex));
            HistoryOk(h', peers) && OnlyBy(h, h', i)
  {
    hide HistoryOk, AcksOk, CommitOk, LogOk, OnlyBy, LeadingOk, TermsAtMost;
    var t, l := s.currentTerm, Leadership(i, voters, FullLog(s), s.lastIncludedIndex);
    RecordedVote(h, peers, Ballot(i, t));
    FirstInTerm(h, peers, s, i, voters);
    WinnerOk(h, peers, t, l);
    LeaderRecorded(h, h.(leaders := h.leaders[t := l]), peers, t, l);
  }

  lemma ElectedLeads(h: History, peers: nat, s: Server, s': Server, i: nat, voters: set<nat>)
    requires IndicesOk(s, peers, i)
    requires s' == InitializeLeader(s.(pending := s'.pending, voteGrantedCnt := s'.voteGrantedCnt))
    ensures LeadingOk(RecordLeader(h, s.currentTerm, Leadership(i, voters, FullLog(s), s.lastIncludedIndex)), s')
  {
    FullLogView(s, peers, i);
    assert FullLog(s') == FullLog(s);
  }

  lemma ElectedAcks(h: History, h1: History, peers: nat, s: Server, i: nat)
    requires HistoryOk(h, peers) && IndicesOk(s, peers, i) && AcksOk(h, i, FullLog(s), SavedTerm(s))
    requires Grows(h, h1) && h1.acks == h.acks && s.currentTerm in h1.leaders
    requires h1.leaders[s.currentTerm].log == FullLog(s)
    requires s.currentTerm <= SavedTerm(s)
    ensures AcksOk(RecordAck(h1, Ballot(i, s.currentTerm), |FullLog(s)| - 1), i, FullLog(s), SavedTerm(s))
  {
    hide AcksOk, HistoryOk, Grows;
    AcksOkLater(h, h1, peers, i, FullLog(s), SavedTerm(s), SavedTerm(s));
    assert FullLog(s)[..|FullLog(s)| - 1 + 1] == FullLog(s);
    AcksOkRecorded(h1, i, FullLog(s), SavedTerm(s), s.currentTerm, |FullLog(s)| - 1);
  }

  lemma ElectedServer(h: History, h': History, peers: nat, s: Server, s': Server, i: nat, voters: set<nat>)
    requires HistoryOk(h, peers) && ServerOk(h, peers, s, i) && s.role == Candidate
    requires h' == RecordLeader(h, s.currentTerm, Leadership(i, voters, FullLog(s), s.lastIncludedIndex))
    requires Grows(h, h')
    requires s.currentTerm !in h.leaders
    requires s' == InitializeLeader(s.(pending := s'.pending, voteGrantedCnt := s'.voteGrantedCnt))
    ensures ServerOk(h', peers, s', i)
  {
    hide HistoryOk, AcksOk, CommitOk, LogOk, LeadingOk, TermsAtMost, Grows, OnlyBy, NoLateAcks, CandidateOk;
    var h1 := h.(leaders := h.leaders[s.currentTerm := Leadership(i, voters, FullLog(s), s.lastIncludedIndex)]);
    LeaderOnlyBy(h, s.currentTerm, Leadership(i, voters, FullLog(s), s.lastIncludedIndex));
    OnlyByGrows(h, h1, i);
    assert FullLog(s') == FullLog(s);
    LogOkGrows(h, h', FullLog(s));
    ElectedAcks(h, h1, peers, s, i);
    CommitOkGrows(h, h', peers, FullLog(s), s.commitIndex, s.currentTerm, s.currentTerm);
    CommitOkGrows(h, h', peers, FullLog(s), s.lastIncludedIndex, SavedTerm(s), SavedTerm(s));
    ElectedLeads(h, peers, s, s', i, voters);
    assert VotesOk(h', s');
    assert CandidateOk(h', s') by {
      Elected(h', s');
    }
  }

  lemma Elected(h: History, s: Server)
    requires |s.logs| >= 1 && s.role == Leader
    ensures CandidateOk(h, s)
  {
  }

  // ----- the leader's broadcast -----

  lemma SendEntries(s: Server, peers: nat, i: nat, p: nat)
    requires IndicesOk(s, peers, i) && p < peers && s.lastIncludedIndex < s.nextIndex[p] <= RealLogLen(s)
    ensures |FullLog(s)| == RealLogLen(s) && AppendTo(s, p).entries == FullLog(s)[s.nextIndex[p]..]
    ensures AppendTo(s, p).prevLogTerm == FullLog(s)[s.nextIndex[p] - 1].term
  {
  }

  lemma SendSlice(log: seq<LogEntry>, entries: seq<LogEntry>, at: nat)
    requires at <= |log| && entries == log[at..]
    ensures entries == log[at..at + |entries|]
  {
  }

  lemma AppendToOk(h: History, peers: nat, s: Server, i: nat, p: nat)
    requires IndicesOk(s, peers, i) && LeadingOk(h, s) && s.role == Leader && p < peers
    requires CommitOk(h, peers, FullLog(s), s.commitIndex, s.currentTerm)
    requires s.lastIncludedIndex < s.nextIndex[p]
    ensures s.nextIndex[p] <= RealLogLen(s) && AppendOk(h, peers, i, AppendTo(s, p))
  {
    hide CommitOk, MatchOk, FullLog;
    SendEntries(s, peers, i, p);
    SendSlice(FullLog(s), AppendTo(s, p).entries, s.nextIndex[p]);
  }

  lemma InstallToOk(h: History, peers: nat, s: Server, i: nat)
    requires IndicesOk(s, peers, i) && LeadingOk(h, s) && s.role == Leader
    requires CommitOk(h, peers, FullLog(s), s.lastIncludedIndex, s.currentTerm)
    requires h.leaders[s.currentTerm].sent >= s.lastIncludedIndex
    ensures InstallOk(h, peers, i, InstallTo(s))
  {
    hide CommitOk;
    FullLogView(s, peers, i);
  }

  lemma BroadcastOk(h: History, peers: nat, s: Server, i: nat)
    requires ServerOk(h, peers, s, i) && s.role == Leader
    requires s.currentTerm in h.leaders && h.leaders[s.currentTerm].sent >= s.lastIncludedIndex
    ensures NextIndexInRange(s) && forall m :: m in Broadcast(s) ==> MessageOk(h, peers, m)
  {
    hide CommitOk, AcksOk, LogOk, VotesOk, TermsAtMost, AppendOk, InstallOk;
    forall m | m in Broadcast(s) ensures MessageOk(h, peers, m) {
      var p: nat :| p < s.peers && IsPeer(s.peers, s.me, p) && m == MessageTo(s, p);
      if s.nextIndex[p] <= s.lastIncludedIndex {
        InstallToOk(h, peers, s, i);
      } else {
        AppendToOk(h, peers, s, i, p);
      }
    }
  }

  lemma ElectedVoters(h: History, peers: nat, s: Server, i: nat, m: Message)
    requires ServerOk(h, peers, s, i) && MessageOk(h, peers, m) && m.VoteReply? && m.to == i
    requires m.vargs.term == s.currentTerm ==> m.from in s.pending
    requires s.role != Leader && HandleVoteReply(s, m.from, m.vargs, m.vreply).role == Leader
    ensures var s' := HandleVoteReply(s, m.from, m.vargs, m.vreply);
            var voters := Tally(h, peers, i, s.currentTerm) - s'.pending;
            && s.role == Candidate
            && 2 * |voters| > peers
            && s' == InitializeLeader(s.(pending := s'.pending, voteGrantedCnt := s'.voteGrantedCnt))
  {
    hide CommitOk, AcksOk, LogOk, VotesOk, TermsAtMost, LeadingOk, DiskOk;
    TallyCounts(h, s, i, m.from, Adds(s, m));
  }

  lemma ElectionKeepsInv(c: System, c': System, i: nat, m: Message)
    requires Inv(c) && CountStep(c, c', i, m)
    ensures Inv(c') && Grows(c.hist, c'.hist)
  {
    hide Inv, ServerOk, HistoryOk, OnlyBy, HandleVoteReply, MessageOk, Tally, Broadcast;
    var s := c.servers[i];
    InvParts(c, i);
    InvMessage(c, m);
    var s' := HandleVoteReply(s, m.from, m.vargs, m.vreply);
    if s.role != Leader && s'.role == Leader {
      var voters := Tally(c.hist, c.peers, i, s.currentTerm) - s'.pending;
      ElectedVoters(c.hist, c.peers, s, i, m);
      ElectedHistory(c.hist, c.peers, s, i, voters);
      OnlyByGrows(c.hist, c'.hist, i);
      FirstInTermOf(c.hist, c.peers, s, i, voters);
      ElectedServer(c.hist, c'.hist, c.peers, s, s', i, voters);
      BroadcastOk(c'.hist, c.peers, s', i);
      InvAfter(c, c', i, s', Broadcast(s'), c'.hist);
    } else {
      CountedServer(c.hist, c.peers, s, i, m);
      NothingNew(c.hist, i);
      InvAfter(c, c', i, s', {}, c'.hist);
    }
  }

  lemma FirstInTermOf(h: History, peers: nat, s: Server, i: nat, voters: set<nat>)
    requires HistoryOk(h, peers) && ServerOk(h, peers, s, i) && s.role == Candidate
    requires voters <= Tally(h, peers, i, s.currentTerm) && 2 * |voters| > peers
    ensures s.currentTerm !in h.leaders
  {
    hide HistoryOk, AcksOk, CommitOk, LogOk, LeadingOk, VotesOk;
    FirstInTerm(h, peers, s, i, voters);
  }

  lemma HeartbeatServer(h: History, h': History, peers: nat, s: Server, i: nat)
    requires HistoryOk(h, peers) && ServerOk(h, peers, s, i) && s.role == Leader && s.currentTerm in h.leaders
    requires h' == RecordSent(h, s.currentTerm, s.lastIncludedIndex) && Grows(h, h')
    ensures ServerOk(h', peers, s, i)
  {
    hide HistoryOk, LogOk, AcksOk, CommitOk, TermsAtMost, Grows;
    assert VotesOk(h', s) && CandidateOk(h', s);
    forall p: nat | p < s.peers ensures MatchOk(h', s, p) {
      assert MatchOk(h, s, p);
    }
    assert LeadingOk(h', s);
    hide ServerOk, VotesOk, CandidateOk, LeadingOk, DiskOk;
    ServerOkMoved(h, h', peers, s, s, i);
  }

  lemma LeaderIs(h: History, peers: nat, s: Server, i: nat)
    requires ServerOk(h, peers, s, i) && s.role == Leader
    ensures s.currentTerm in h.leaders && h.leaders[s.currentTerm].leader == i
  {
    hide LogOk, AcksOk, CommitOk, TermsAtMost, CandidateOk, VotesOk, DiskOk;
  }

  lemma HeartbeatKeepsInv(c: System, c': System, i: nat)
    requires Inv(c) && HeartbeatStep(c, c', i)
    ensures Inv(c') && Grows(c.hist, c'.hist)
  {
    hide Inv, ServerOk, HistoryOk, OnlyBy, MessageOk, Broadcast, NextIndexInRange;
    var s := c.servers[i];
    InvParts(c, i);
    LeaderIs(c.hist, c.peers, s, i);
    SentRecorded(c.hist, c.peers, s.currentTerm, s.lastIncludedIndex);
    OnlyByGrows(c.hist, c'.hist, i);
    HeartbeatServer(c.hist, c'.hist, c.peers, s, i);
    BroadcastOk(c'.hist, c.peers, s, i);
    InvAfter(c, c', i, s, Broadcast(s), c'.hist);
  }
}
