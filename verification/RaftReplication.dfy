/** Log replication steps keep the invariant. */
module RaftReplication {
  import opened Sets
  import opened Options
  import opened RaftTypes
  import opened RaftServer
  import opened RaftProtocol
  import opened RaftInvariant
  import opened RaftCompleteness
  import opened RaftStability
  import opened RaftLogs
  import opened RaftRecording
  import opened RaftElections

  // ----- the follower: term and rejections -----

  /** The follower after it recognised the request's term, before it looks at its log. */
  function Recognise(s: Server, term: nat): Server {
    AdoptTerm(s, term).(role := Follower)
  }

  lemma RecogniseVoting(h: History, s: Server, term: nat)
    requires Shape(s) && DiskOk(s) && VotesOk(h, s) && term >= s.currentTerm
    ensures var s' := Persist(Recognise(s, term));
            && OnlyVoting(s, s') && DiskOk(s') && VotesOk(h, s') && CandidateOk(h, s')
            && SavedTerm(s') == s'.currentTerm == term
    ensures var s' := Recognise(s, term);
            OnlyVoting(s, s') && DiskOk(s') && VotesOk(h, s') && CandidateOk(h, s') && s'.currentTerm == term
  {
  }

  lemma RecogniseServer(h: History, peers: nat, s: Server, i: nat, term: nat)
    requires HistoryOk(h, peers) && ServerOk(h, peers, s, i) && term >= s.currentTerm
    ensures ServerOk(h, peers, Persist(Recognise(s, term)), i)
    ensures ServerOk(h, peers, Recognise(s, term), i)
  {
    hide HistoryOk, LogOk, AcksOk, CommitOk, LeadingOk, CandidateOk, TermsAtMost, VotesOk, DiskOk, OnlyVoting;
    RecogniseVoting(h, s, term);
    hide ServerOk;
    ServerOkVoting(h, peers, s, Persist(Recognise(s, term)), i);
    ServerOkVoting(h, peers, s, Recognise(s, term), i);
  }

  // ----- the follower: merging -----

  /** The consistency check plus Log Matching: the logs agree up to the probe. */
  lemma ProbeMatches(h: History, peers: nat, s: Server, i: nat, a: AppendEntriesArgs)
    requires IndicesOk(s, peers, i) && LogOk(h, FullLog(s))
    requires a.term in h.leaders && LogOk(h, TermLog(h, a.term)) && 0 <= a.prevLogIndex < |TermLog(h, a.term)|
    requires a.prevLogTerm == TermLog(h, a.term)[a.prevLogIndex].term
    requires s.lastIncludedIndex <= a.prevLogIndex <= LastLogIndex(s)
    requires s.logs[LogIndex(s, a.prevLogIndex)].term == a.prevLogTerm
    ensures a.prevLogIndex < |FullLog(s)|
    ensures FullLog(s)[..a.prevLogIndex + 1] == TermLog(h, a.term)[..a.prevLogIndex + 1]
  {
    FullLogView(s, peers, i);
    LogMatching(h, FullLog(s), TermLog(h, a.term), a.prevLogIndex);
  }

  lemma MatchingPointwise(h: History, a: seq<LogEntry>, b: seq<LogEntry>)
    requires LogOk(h, a) && LogOk(h, b)
    ensures forall j :: 0 <= j < |a| && j < |b| && a[j].term == b[j].term ==> a[j] == b[j]
  {
    forall j | 0 <= j < |a| && j < |b| && a[j].term == b[j].term ensures a[j] == b[j] {
      LogMatching(h, a, b, j);
      SamePrefix(a, b, j);
    }
  }

  /** The server after the copy loop. */
  function Copied(s: Server, a: AppendEntriesArgs): Server
    requires Shape(s) && s.lastIncludedIndex <= a.prevLogIndex
  {
    s.(logs := MergeEntries(s.logs, LogIndex(s, a.prevLogIndex) + 1, a.entries))
  }

  /** Merging what the leader sent leaves the follower with its old log, or with the leader's. */
  lemma CopyOutcome(h: History, peers: nat, s: Server, i: nat, a: AppendEntriesArgs)
    requires IndicesOk(s, peers, i) && LogOk(h, FullLog(s))
    requires a.term in h.leaders && LogOk(h, TermLog(h, a.term)) && 0 <= a.prevLogIndex
    requires a.prevLogIndex + |a.entries| < |TermLog(h, a.term)|
    requires a.prevLogTerm == TermLog(h, a.term)[a.prevLogIndex].term
    requires a.entries == TermLog(h, a.term)[a.prevLogIndex + 1..a.prevLogIndex + 1 + |a.entries|]
    requires s.lastIncludedIndex <= a.prevLogIndex <= LastLogIndex(s)
    requires s.logs[LogIndex(s, a.prevLogIndex)].term == a.prevLogTerm
    ensures var s' := Copied(s, a);
            && |s'.logs| >= 1 && s'.logs[0] == s.logs[0]
            && MergeOutcome(FullLog(s), TermLog(h, a.term), a.prevLogIndex + 1 + |a.entries|, FullLog(s'))
  {
    hide LogOk, MergeOutcome, MergeEntries;
    ProbeMatches(h, peers, s, i, a);
    MatchingPointwise(h, FullLog(s), TermLog(h, a.term));
    MergeCompacted(s.snapshot, s.logs, LogIndex(s, a.prevLogIndex) + 1, a.entries);
    MergeResult(FullLog(s), TermLog(h, a.term), a.prevLogIndex + 1, |a.entries|);
  }

  /** Everything about the merged log that the invariant asks for. */
  ghost predicate LogKept(h: History, peers: nat, s: Server, log: seq<LogEntry>, t: nat) {
    && LogOk(h, log) && TermsAtMost(log, t)
    && AcksOk(h, s.me, log, t)
    && CommitOk(h, peers, log, s.commitIndex, s.currentTerm)
    && CommitOk(h, peers, log, s.lastIncludedIndex, t)
  }

  lemma ReplacedKept(h: History, peers: nat, s: Server, i: nat, t: nat, m: nat)
    requires HistoryOk(h, peers) && ServerOk(h, peers, s, i)
    requires t in h.leaders && s.currentTerm <= t && 1 <= m <= |TermLog(h, t)|
    requires Replaces(FullLog(s), TermLog(h, t), m)
    ensures LogKept(h, peers, s, TermLog(h, t)[..m], t)
  {
    hide HistoryOk, LogOk, AcksOk, CommitOk, LeadingOk, CandidateOk, VotesOk, Replaces;
    LeaderOf(h, peers, t);
    LogOkPrefix(h, TermLog(h, t), m);
    AcksOkReplaced(h, peers, s.me, FullLog(s), SavedTerm(s), t, m);
    CommitOkReplaced(h, peers, FullLog(s), s.commitIndex, s.currentTerm, t, m, s.lastIncludedIndex, SavedTerm(s));
    NothingNew(h, i);
    OnlyByGrows(h, h, i);
    CommitOkGrows(h, h, peers, TermLog(h, t)[..m], s.lastIncludedIndex, SavedTerm(s), t);
  }

  lemma LeaderOf(h: History, peers: nat, t: nat)
    requires HistoryOk(h, peers) && t in h.leaders
    ensures LogOk(h, TermLog(h, t)) && TermsAtMost(TermLog(h, t), t)
  {
    assert LeaderOk(h, peers, t);
  }

  lemma UnchangedKept(h: History, peers: nat, s: Server, i: nat, t: nat)
    requires HistoryOk(h, peers) && ServerOk(h, peers, s, i) && s.currentTerm <= t
    ensures LogKept(h, peers, s, FullLog(s), t)
  {
    hide HistoryOk, LogOk, AcksOk, CommitOk, LeadingOk, CandidateOk, VotesOk, Grows, OnlyBy;
    NothingNew(h, i);
    OnlyByGrows(h, h, i);
    AcksOkLater(h, h, peers, s.me, FullLog(s), SavedTerm(s), t);
    CommitOkGrows(h, h, peers, FullLog(s), s.lastIncludedIndex, SavedTerm(s), t);
  }

  lemma CopyKept(h: History, peers: nat, s: Server, i: nat, a: AppendEntriesArgs)
    requires HistoryOk(h, peers) && ServerOk(h, peers, s, i) && s.currentTerm == a.term
    requires a.term in h.leaders && AppendOk(h, peers, h.leaders[a.term].leader, a)
    requires s.lastIncludedIndex <= a.prevLogIndex <= LastLogIndex(s)
    requires s.logs[LogIndex(s, a.prevLogIndex)].term == a.prevLogTerm
    ensures var s' := Copied(s, a);
            var m := a.prevLogIndex + 1 + |a.entries|;
            && |s'.logs| >= 1 && s'.logs[0] == s.logs[0]
            && LogKept(h, peers, s, FullLog(s'), a.term)
            && m <= |FullLog(s')| && FullLog(s')[..m] == TermLog(h, a.term)[..m]
  {
    hide HistoryOk, LogOk, AcksOk, CommitOk, LeadingOk, CandidateOk, VotesOk, LogKept, DiskOk, TermsAtMost, Copied;
    LeaderOf(h, peers, a.term);
    CopyOutcome(h, peers, s, i, a);
    var m := a.prevLogIndex + 1 + |a.entries|;
    hide ServerOk, Replaces;
    if FullLog(Copied(s, a)) == FullLog(s) && TermLog(h, a.term)[..m] <= FullLog(s) {
      UnchangedKept(h, peers, s, i, a.term);
    } else {
      ReplacedKept(h, peers, s, i, a.term, m);
    }
  }

  /** The commit index after the copy loop. */
  function FollowerCommit(s: Server, a: AppendEntriesArgs): int {
    if a.leaderCommit > s.commitIndex then Min(a.leaderCommit, LastLogIndex(s)) else s.commitIndex
  }

  /** The follower's cap by its own last index never bites: the message vouches for its commit index. */
  lemma FollowerCommitOk(h: History, peers: nat, s: Server, s': Server, i: nat, a: AppendEntriesArgs)
    requires IndicesOk(s, peers, i) && a.term in h.leaders
    requires AppendOk(h, peers, h.leaders[a.term].leader, a)
    requires |s'.logs| >= 1 && s'.logs[0] == s.logs[0] && s' == s.(logs := s'.logs)
    requires CommitOk(h, peers, FullLog(s'), s.commitIndex, a.term)
    requires var m := a.prevLogIndex + 1 + |a.entries|;
             m <= |FullLog(s')| && FullLog(s')[..m] == TermLog(h, a.term)[..m]
    ensures FollowerCommit(s', a) == Max(s.commitIndex, a.leaderCommit)
    ensures s.commitIndex <= FollowerCommit(s', a) <= LastLogIndex(s')
    ensures CommitOk(h, peers, FullLog(s'), FollowerCommit(s', a), a.term)
  {
    assert |FullLog(s')| == LastLogIndex(s') + 1;
    var m := a.prevLogIndex + 1 + |a.entries|;
    hide CommittedAt;
    if a.leaderCommit > s.commitIndex {
      ShorterPrefix(FullLog(s'), TermLog(h, a.term), m - 1, a.leaderCommit);
      hide CommitOk;
      CommitOkPrefix(h, peers, TermLog(h, a.term), FullLog(s'), a.leaderCommit, a.leaderCommit, a.term);
    }
  }

  lemma AcceptedShape(s: Server, a: AppendEntriesArgs)
    requires Shape(s) && AppendEntries(s, a).1.success
    ensures var s1 := Recognise(s, a.term);
            && s.currentTerm <= a.term
            && s1.lastIncludedIndex <= a.prevLogIndex <= LastLogIndex(s1)
            && s1.logs[LogIndex(s1, a.prevLogIndex)].term == a.prevLogTerm
            && var s2 := Copied(s1, a);
            && |s2.logs| >= 1
            && AppendEntries(s, a) ==
               (Persist(s2.(commitIndex := FollowerCommit(s2, a))), AppendEntriesReply(a.term, true, 0, 0, 0))
  {
    MergeNonEmpty(s.logs, LogIndex(s, a.prevLogIndex) + 1, a.entries);
  }

  /** Reassembling the server from its parts after an accepted append. */
  lemma AcceptedServer(h: History, h': History, peers: nat, s: Server, s': Server, i: nat)
    requires ServerOk(h, peers, s, i) && s.role == Follower
    requires |s'.logs| >= 1 && s'.logs[0] == s.logs[0]
    requires s' == Persist(s.(logs := s'.logs, commitIndex := s'.commitIndex))
    requires s.commitIndex <= s'.commitIndex <= LastLogIndex(s')
    requires h'.votes == h.votes && h'.exact == h.exact && SavedTerm(s) == s.currentTerm
    requires LogOk(h', FullLog(s')) && TermsAtMost(FullLog(s'), s.currentTerm)
    requires AcksOk(h', i, FullLog(s'), s.currentTerm)
    requires CommitOk(h', peers, FullLog(s'), s'.commitIndex, s.currentTerm)
    requires CommitOk(h', peers, FullLog(s'), s.lastIncludedIndex, s.currentTerm)
    ensures ServerOk(h', peers, s', i)
  {
    hide LogOk, AcksOk, CommitOk, LeadingOk, TermsAtMost;
    assert LeadingOk(h', s') by { NotLeading(h', s'); }
  }

  lemma NotLeading(h: History, s: Server)
    requires Shape(s) && s.role != Leader
    ensures LeadingOk(h, s)
  {
  }

  lemma AckedLog(h: History, peers: nat, s: Server, log: seq<LogEntry>, c: int, t: nat, last: nat)
    requires t in h.leaders && last < |TermLog(h, t)| && TermLog(h, t)[..last + 1] <= log
    requires LogKept(h, peers, s, log, t) && CommitOk(h, peers, log, c, t)
    requires OnlyBy(h, RecordAck(h, Ballot(s.me, t), last), s.me)
    ensures var h' := RecordAck(h, Ballot(s.me, t), last);
            && LogOk(h', log) && AcksOk(h', s.me, log, t)
            && CommitOk(h', peers, log, c, t) && CommitOk(h', peers, log, s.lastIncludedIndex, t)
  {
    hide LogOk, AcksOk, CommitOk;
    var h' := RecordAck(h, Ballot(s.me, t), last);
    LogOkGrows(h, h', log);
    AcksOkRecorded(h, s.me, log, t, t, last);
    CommitOkGrows(h, h', peers, log, c, t, t);
    CommitOkGrows(h, h', peers, log, s.lastIncludedIndex, t, t);
  }

  lemma AckHistory(h: History, peers: nat, s: Server, i: nat, t: nat, last: nat)
    requires HistoryOk(h, peers) && i < peers && s.me == i && VotesOk(h, s) && SavedTerm(s) <= t
    requires t in h.leaders && last < |TermLog(h, t)|
    ensures var h' := RecordAck(h, Ballot(i, t), last); HistoryOk(h', peers) && OnlyBy(h, h', i)
  {
    hide HistoryOk, OnlyBy;
    AckRecorded(h, peers, Ballot(i, t), last);
  }

  /** An accepted append: what the server and the history become. */
  lemma Accepted(h: History, peers: nat, s: Server, i: nat, a: AppendEntriesArgs)
    requires HistoryOk(h, peers) && ServerOk(h, peers, s, i)
    requires a.term in h.leaders && AppendOk(h, peers, h.leaders[a.term].leader, a)
    requires AppendEntries(s, a).1.success
    ensures var last := a.prevLogIndex + |a.entries|;
            var h' := RecordAck(h, Ballot(i, a.term), last);
            HistoryOk(h', peers) && OnlyBy(h, h', i) && ServerOk(h', peers, AppendEntries(s, a).0, i)
  {
    hide HistoryOk, OnlyBy, LogOk, AcksOk, CommitOk, LeadingOk, CandidateOk, VotesOk, TermsAtMost, AppendEntries;
    hide LogKept, Copied;
    AcceptedShape(s, a);
    var s1 := Persist(Recognise(s, a.term));
    RecogniseServer(h, peers, s, i, a.term);
    var last := a.prevLogIndex + |a.entries|;
    AckHistory(h, peers, s, i, a.term, last);
    AcceptedAfter(h, peers, s1, i, a);
    assert Copied(s1, a).(commitIndex := FollowerCommit(Copied(s1, a), a), disk := None)
        == Copied(Recognise(s, a.term), a).(commitIndex := FollowerCommit(Copied(Recognise(s, a.term), a), a),
                                            disk := None) by {
      CopiedIgnoresDisk(Recognise(s, a.term), s1, a);
    }
  }

  lemma CopiedIgnoresDisk(s: Server, s1: Server, a: AppendEntriesArgs)
    requires Shape(s) && s1 == s.(disk := s1.disk) && s.lastIncludedIndex <= a.prevLogIndex
    ensures Copied(s1, a) == Copied(s, a).(disk := s1.disk)
  {
  }

  lemma AcceptedAfter(h: History, peers: nat, s: Server, i: nat, a: AppendEntriesArgs)
    requires HistoryOk(h, peers) && ServerOk(h, peers, s, i) && s.role == Follower
    requires s.currentTerm == a.term == SavedTerm(s)
    requires a.term in h.leaders && AppendOk(h, peers, h.leaders[a.term].leader, a)
    requires s.lastIncludedIndex <= a.prevLogIndex <= LastLogIndex(s)
    requires s.logs[LogIndex(s, a.prevLogIndex)].term == a.prevLogTerm
    requires OnlyBy(h, RecordAck(h, Ballot(i, a.term), a.prevLogIndex + |a.entries|), i)
    ensures var s2 := Copied(s, a);
            var h' := RecordAck(h, Ballot(i, a.term), a.prevLogIndex + |a.entries|);
            |s2.logs| >= 1 && ServerOk(h', peers, Persist(s2.(commitIndex := FollowerCommit(s2, a))), i)
  {
    hide HistoryOk, OnlyBy, LogOk, AcksOk, CommitOk, LeadingOk, CandidateOk, VotesOk, TermsAtMost, DiskOk, Copied;
    hide FollowerCommit;
    CopyKept(h, peers, s, i, a);
    var s2 := Copied(s, a);
    assert s2 == s.(logs := s2.logs) by { CopiedLogs(s, a); }
    FollowerCommitOk(h, peers, s, s2, i, a);
    var s3 := s2.(commitIndex := FollowerCommit(s2, a));
    assert FullLog(s3) == FullLog(s2);
    AckedLog(h, peers, s, FullLog(s2), s3.commitIndex, a.term, a.prevLogIndex + |a.entries|);
    hide ServerOk;
    AcceptedServer(h, RecordAck(h, Ballot(i, a.term), a.prevLogIndex + |a.entries|), peers, s, Persist(s3), i);
  }

  lemma CopiedLogs(s: Server, a: AppendEntriesArgs)
    requires Shape(s) && s.lastIncludedIndex <= a.prevLogIndex
    ensures Copied(s, a) == s.(logs := Copied(s, a).logs)
  {
  }

  // ----- the follower: rejections -----

  /** The conflict index is the start of the run of conflicting entries above the commit point. */
  lemma {:induction false} ConflictScanRun(s: Server, i: int, term: nat, found: int, hi: int)
    requires Shape(s) && i <= hi <= LastLogIndex(s)
    requires (found == -1 && i == hi) || found == i + 1
    requires forall k :: i < k <= hi ==> k > s.commitIndex && s.logs[LogIndex(s, k)].term == term
    ensures var x := ConflictScan(s, i, term, found);
            if hi > s.commitIndex && (i < hi || s.logs[LogIndex(s, hi)].term == term) then
              && s.commitIndex < x <= hi
              && (forall k :: x <= k <= hi ==> s.logs[LogIndex(s, k)].term == term)
              && (x - 1 > s.commitIndex ==> s.logs[LogIndex(s, x - 1)].term != term)
            else x == found
    decreases i - s.commitIndex
  {
    if i > s.commitIndex && s.logs[LogIndex(s, i)].term == term {
      ConflictScanRun(s, i - 1, term, i, hi);
    } else if i < hi {
      assert s.logs[LogIndex(s, i + 1)].term == term;
    }
  }

  /** A term conflict at the probe can only be above the commit point. */
  lemma ConflictUncommitted(h: History, peers: nat, s: Server, i: nat, a: AppendEntriesArgs)
    requires HistoryOk(h, peers) && IndicesOk(s, peers, i) && LogOk(h, FullLog(s))
    requires CommitOk(h, peers, FullLog(s), s.commitIndex, a.term)
    requires a.term in h.leaders && 0 <= a.prevLogIndex < |TermLog(h, a.term)|
    requires a.prevLogTerm == TermLog(h, a.term)[a.prevLogIndex].term
    requires s.lastIncludedIndex <= a.prevLogIndex <= LastLogIndex(s)
    requires s.logs[LogIndex(s, a.prevLogIndex)].term != a.prevLogTerm
    ensures a.prevLogIndex > s.commitIndex
  {
    hide HistoryOk, LogOk, CommitOk;
    FullLogView(s, peers, i);
    LeaderHasCommitted(h, peers, FullLog(s), s.commitIndex, a.term, a.term);
    SamePrefix(FullLog(s), TermLog(h, a.term), s.commitIndex);
  }

  lemma RejectionConflict(h: History, peers: nat, s: Server, i: nat, a: AppendEntriesArgs)
    requires HistoryOk(h, peers) && IndicesOk(s, peers, i) && LogOk(h, FullLog(s))
    requires CommitOk(h, peers, FullLog(s), s.commitIndex, a.term)
    requires a.term in h.leaders && 0 <= a.prevLogIndex < |TermLog(h, a.term)|
    requires a.prevLogTerm == TermLog(h, a.term)[a.prevLogIndex].term
    requires s.lastIncludedIndex <= a.prevLogIndex <= LastLogIndex(s)
    requires s.logs[LogIndex(s, a.prevLogIndex)].term != a.prevLogTerm
    ensures var t := s.logs[LogIndex(s, a.prevLogIndex)].term;
            var index := ConflictScan(s, a.prevLogIndex, t, -1);
            RejectionOk(h, a, AppendEntriesReply(a.term, false, t, index, RealLogLen(s)))
  {
    var t := s.logs[LogIndex(s, a.prevLogIndex)].term;
    ConflictUncommitted(h, peers, s, i, a);
    ConflictScanRun(s, a.prevLogIndex, t, -1, a.prevLogIndex);
    FullLogView(s, peers, i);
    var log := FullLog(s);
    assert EntryOk(h, log, a.prevLogIndex);
    assert LeaderOk(h, peers, t);
    assert TermLog(h, t)[a.prevLogIndex] == log[..a.prevLogIndex + 1][a.prevLogIndex];
  }

  lemma RejectionPlain(h: History, peers: nat, s: Server, i: nat, a: AppendEntriesArgs)
    requires IndicesOk(s, peers, i) && (a.prevLogIndex < s.lastIncludedIndex || LastLogIndex(s) < a.prevLogIndex)
    ensures a.prevLogIndex < s.lastIncludedIndex ==> RejectionOk(h, a, AppendEntriesReply(a.term, false, 0, 0, 0))
    ensures a.prevLogIndex > LastLogIndex(s) ==>
              RejectionOk(h, a, AppendEntriesReply(a.term, false, -1, -1, RealLogLen(s)))
  {
  }

  lemma RejectedReply(h: History, peers: nat, s: Server, i: nat, a: AppendEntriesArgs)
    requires HistoryOk(h, peers) && ServerOk(h, peers, s, i)
    requires a.term in h.leaders && AppendOk(h, peers, h.leaders[a.term].leader, a)
    requires !AppendEntries(s, a).1.success && s.currentTerm <= a.term
    ensures AppendEntries(s, a).0 == Persist(Recognise(s, a.term))
    ensures AppendEntries(s, a).1.term == a.term && RejectionOk(h, a, AppendEntries(s, a).1)
  {
    hide HistoryOk, LogOk, AcksOk, CommitOk, LeadingOk, CandidateOk, VotesOk, TermsAtMost, DiskOk, ConflictScan;
    hide MergeEntries, RejectionOk;
    var s1 := Recognise(s, a.term);
    RecogniseServer(h, peers, s, i, a.term);
    assert s1.currentTerm == a.term;
    if s1.lastIncludedIndex <= a.prevLogIndex <= LastLogIndex(s1) {
      RejectionConflict(h, peers, s1, i, a);
    } else {
      RejectionPlain(h, peers, s1, i, a);
    }
  }

  lemma AppendReplied(h: History, peers: nat, i: nat, from: nat, a: AppendEntriesArgs, r: AppendEntriesReply)
    requires AppendOk(h, peers, from, a) && i < peers && from < peers && i != from
    requires r.term >= a.term
    requires r.success ==>
               && r.term == a.term && Ballot(i, a.term) in h.acks
               && h.acks[Ballot(i, a.term)] >= a.prevLogIndex + |a.entries|
    requires !r.success && r.term == a.term ==> RejectionOk(h, a, r)
    ensures MessageOk(h, peers, AppendReply(i, from, a, r))
  {
  }

  lemma AppendKeepsInv(c: System, c': System, i: nat, m: Message)
    requires Inv(c) && AppendStep(c, c', i, m)
    ensures Inv(c') && Grows(c.hist, c'.hist)
  {
    hide Inv, Grows, Shape, ServerOk, HistoryOk, OnlyBy, AppendEntries, AppendOk, RejectionOk;
    var s, a := c.servers[i], m.aargs;
    InvParts(c, i);
    InvMessage(c, m);
    var (s', r) := AppendEntries(s, a);
    AppendRange(c.hist, c.peers, m.from, a);
    if r.success {
      AcceptedShape(s, a);
      Accepted(c.hist, c.peers, s, i, a);
    } else {
      NothingNew(c.hist, i);
      if s.currentTerm <= a.term {
        RejectedReply(c.hist, c.peers, s, i, a);
        RecogniseServer(c.hist, c.peers, s, i, a.term);
      } else {
        StaleAppend(s, a);
      }
    }
    OnlyByGrows(c.hist, c'.hist, i);
    AppendOkGrows(c.hist, c'.hist, c.peers, m.from, a);
    AppendReplied(c'.hist, c.peers, i, m.from, a, r);
    hide MessageOk;
    InvAfter(c, c', i, s', {AppendReply(i, m.from, a, r)}, c'.hist);
  }

  lemma AppendRange(h: History, peers: nat, from: nat, a: AppendEntriesArgs)
    requires AppendOk(h, peers, from, a)
    ensures a.term in h.leaders && h.leaders[a.term].leader == from && a.prevLogIndex >= 0
  {
  }

  lemma StaleAppend(s: Server, a: AppendEntriesArgs)
    requires Shape(s) && s.currentTerm > a.term
    ensures AppendEntries(s, a).0 == s && AppendEntries(s, a).1.term == s.currentTerm
  {
  }

  // ----- the leader: commit counting -----

  ghost function Holders(matchIndex: seq<int>, index: int, k: nat): set<nat>
    requires k <= |matchIndex|
  {
    set p: nat | p < k && index <= matchIndex[p]
  }

  lemma {:induction false} CountHolders(matchIndex: seq<int>, index: int, k: nat)
    requires k <= |matchIndex|
    ensures CountMatching(matchIndex, index, k) == |Holders(matchIndex, index, k)|
    decreases k
  {
    if k > 0 {
      CountHolders(matchIndex, index, k - 1);
      if index <= matchIndex[k - 1] {
        assert Holders(matchIndex, index, k) == Holders(matchIndex, index, k - 1) + {k - 1};
      } else {
        assert Holders(matchIndex, index, k) == Holders(matchIndex, index, k - 1);
      }
    }
  }

  /** The scan returns the last committable index, if there is one. */
  lemma {:induction false} CommitScanResult(s: Server, from: int, best: int)
    requires Shape(s) && s.lastIncludedIndex <= from
    ensures var n := CommitScan(s, from, best);
            && (n == best || (from <= n < RealLogLen(s) && Committable(s, n)))
            && (forall k :: from <= k < RealLogLen(s) && Committable(s, k) ==> from <= n && k <= n)
    decreases RealLogLen(s) - from
  {
    if from < RealLogLen(s) {
      CommitScanResult(s, from + 1, if Committable(s, from) then from else best);
    }
  }

  /** An index the leader may commit is acknowledged by a majority. */
  lemma CommittableIsCommitted(h: History, peers: nat, s: Server, i: nat, n: nat)
    requires IndicesOk(s, peers, i) && LeadingOk(h, s) && s.role == Leader
    requires s.commitIndex < n < RealLogLen(s) && Committable(s, n)
    ensures CommittedAt(h, peers, s.currentTerm, n)
  {
    FullLogView(s, peers, i);
    var holders := Holders(s.matchIndex, n, s.peers);
    CountHolders(s.matchIndex, n, s.peers);
    assert holders <= Ackers(h, peers, s.currentTerm, n) by {
      forall p | p in holders ensures p in Ackers(h, peers, s.currentTerm, n) {
        assert MatchOk(h, s, p);
      }
    }
    SubsetSize(holders, Ackers(h, peers, s.currentTerm, n));
  }

  lemma CommitScanOk(h: History, peers: nat, s: Server, i: nat)
    requires IndicesOk(s, peers, i) && LeadingOk(h, s) && s.role == Leader
    requires CommitOk(h, peers, FullLog(s), s.commitIndex, s.currentTerm)
    ensures var c := CheckAndCommitLogs(s).commitIndex;
            s.commitIndex <= c <= LastLogIndex(s) && CommitOk(h, peers, FullLog(s), c, s.currentTerm)
  {
    hide CommittedAt, Committable, CommitScan;
    var c := CheckAndCommitLogs(s).commitIndex;
    CommitScanResult(s, s.commitIndex + 1, s.commitIndex);
    FullLogView(s, peers, i);
    if c != s.commitIndex {
      CommittableIsCommitted(h, peers, s, i, c);
      assert FullLog(s)[..c + 1] <= TermLog(h, s.currentTerm);
      assert CommitWitness(h, peers, FullLog(s), c, s.currentTerm, c);
    }
  }

  /** A leader whose bookkeeping or commit index moved. */
  lemma LeaderMoved(h: History, peers: nat, s: Server, s': Server, i: nat)
    requires ServerOk(h, peers, s, i) && s.role == Leader
    requires s' == s.(nextIndex := s'.nextIndex, matchIndex := s'.matchIndex, commitIndex := s'.commitIndex)
    requires |s'.nextIndex| == |s'.matchIndex| == s.peers
    requires s.commitIndex <= s'.commitIndex <= LastLogIndex(s) && NextIndexInRange(s')
    requires CommitOk(h, peers, FullLog(s), s'.commitIndex, s.currentTerm)
    requires forall p: nat :: p < s.peers ==> MatchOk(h, s', p)
    ensures ServerOk(h, peers, s', i)
  {
    hide LogOk, AcksOk, CommitOk, TermsAtMost, MatchOk, CommittedAt;
    assert FullLog(s') == FullLog(s);
  }

  /** The bookkeeping update on a successful reply. */
  function Matched(s: Server, peer: nat, m: int): Server
    requires Shape(s) && peer < s.peers
  {
    s.(matchIndex := s.matchIndex[peer := Max(s.matchIndex[peer], m)],
    nextIndex := s.nextIndex[peer := Max(s.nextIndex[peer], m + 1)])
  }

  lemma MatchedOk(h: History, peers: nat, s: Server, i: nat, peer: nat, m: int)
    requires IndicesOk(s, peers, i) && LeadingOk(h, s) && s.role == Leader && peer < peers
    requires 0 <= m <= LastLogIndex(s)
    requires m <= s.commitIndex || (Ballot(peer, s.currentTerm) in h.acks && m <= h.acks[Ballot(peer, s.currentTerm)])
    ensures NextIndexInRange(Matched(s, peer, m)) && forall p: nat :: p < s.peers ==> MatchOk(h, Matched(s, peer, m), p)
  {
    forall p: nat | p < s.peers ensures MatchOk(h, Matched(s, peer, m), p) {
      assert MatchOk(h, s, p);
    }
  }

  lemma MatchedServer(h: History, peers: nat, s: Server, i: nat, peer: nat, m: int)
    requires ServerOk(h, peers, s, i) && s.role == Leader && peer < peers
    requires 0 <= m <= LastLogIndex(s)
    requires m <= s.commitIndex || (Ballot(peer, s.currentTerm) in h.acks && m <= h.acks[Ballot(peer, s.currentTerm)])
    ensures ServerOk(h, peers, Matched(s, peer, m), i)
  {
    hide LogOk, AcksOk, CommitOk, TermsAtMost, CandidateOk, VotesOk, DiskOk;
    MatchedOk(h, peers, s, i, peer, m);
    hide LeadingOk, MatchOk, NextIndexInRange;
    LeaderMoved(h, peers, s, Matched(s, peer, m), i);
  }

  lemma CommittedServer(h: History, peers: nat, s: Server, i: nat)
    requires ServerOk(h, peers, s, i) && s.role == Leader
    ensures ServerOk(h, peers, CheckAndCommitLogs(s), i)
  {
    hide LogOk, AcksOk, CommitOk, TermsAtMost, CandidateOk, VotesOk, DiskOk;
    CommitScanOk(h, peers, s, i);
    var s' := CheckAndCommitLogs(s);
    forall p: nat | p < s.peers ensures MatchOk(h, s', p) {
      assert MatchOk(h, s, p);
    }
    hide MatchOk, CommitScan;
    LeaderMoved(h, peers, s, s', i);
  }

  lemma StepDownServer(h: History, peers: nat, s: Server, i: nat, term: nat)
    requires HistoryOk(h, peers) && ServerOk(h, peers, s, i) && s.role == Leader && term > s.currentTerm
    ensures ServerOk(h, peers, StepDown(s, term), i)
  {
    hide HistoryOk, LogOk, AcksOk, CommitOk, TermsAtMost, LeadingOk;
    var s' := StepDown(s, term);
    assert OnlyVoting(s, s') && DiskOk(s') && VotesOk(h, s') && CandidateOk(h, s');
    hide ServerOk, OnlyVoting, DiskOk, VotesOk, CandidateOk;
    ServerOkVoting(h, peers, s, s', i);
  }

  // ----- the leader: fast back-up -----

  lemma {:induction false} LastOfTermResult(logs: seq<LogEntry>, term: int, i: nat, found: int)
    requires i <= |logs| && -1 <= found < i
    ensures var k := LastOfTerm(logs, term, i, found);
            && (k == found || (i <= k < |logs| && logs[k].term == term))
            && (forall j :: i <= j < |logs| && logs[j].term == term ==> j <= k)
    decreases |logs| - i
  {
    if i < |logs| {
      LastOfTermResult(logs, term, i + 1, if logs[i].term == term then i else found);
    }
  }

  /** A rejection moves `nextIndex` to or below the probe it answers. */
  lemma BackupProgress(h: History, peers: nat, s: Server, i: nat, peer: nat, a: AppendEntriesArgs,
                       r: AppendEntriesReply)
    requires HistoryOk(h, peers) && ServerOk(h, peers, s, i) && s.role == Leader && peer < peers
    requires s.currentTerm == a.term && AppendOk(h, peers, i, a) && RejectionOk(h, a, r)
    ensures 0 <= FindNextIndex(s, peer, r).nextIndex[peer] <= a.prevLogIndex
  {
    hide HistoryOk, AcksOk, CommitOk, TermsAtMost, LogOk;
    FullLogView(s, peers, i);
    if !(r.xTerm == -1 && r.xIndex == -1) {
      var k := LastOfTerm(s.logs, r.xTerm, 0, -1);
      LastOfTermResult(s.logs, r.xTerm, 0, -1);
      if k >= 0 {
        TermNotAhead(h, peers, FullLog(s), RealIndex(s, k), a, r);
      }
    }
  }

  /** The leader cannot hold the conflicting term beyond the probe: Log Matching would give it
      the follower's entry at the probe. */
  lemma TermNotAhead(h: History, peers: nat, log: seq<LogEntry>, k: nat, a: AppendEntriesArgs, r: AppendEntriesReply)
    requires HistoryOk(h, peers) && LogOk(h, log) && k < |log|
    requires 0 <= a.prevLogIndex < |log| && a.prevLogTerm == log[a.prevLogIndex].term
    requires RejectionOk(h, a, r) && r.xTerm >= 0 && log[k].term == r.xTerm
    ensures k <= a.prevLogIndex
  {
    assert k > 0 ==> EntryOk(h, log, k);
    assert 0 in h.leaders ==> LeaderOk(h, peers, 0);
    if r.xTerm != 0 {
      var l := TermLog(h, r.xTerm);
      assert log[..k + 1] == l[..k + 1];
      SamePrefix(log, l, k);
    }
  }

  lemma BackupServer(h: History, peers: nat, s: Server, i: nat, peer: nat, a: AppendEntriesArgs, r: AppendEntriesReply)
    requires HistoryOk(h, peers) && ServerOk(h, peers, s, i) && s.role == Leader && peer < peers
    requires s.currentTerm == a.term && AppendOk(h, peers, i, a) && RejectionOk(h, a, r)
    ensures ServerOk(h, peers, FindNextIndex(s, peer, r), i)
  {
    hide HistoryOk, LogOk, AcksOk, CommitOk, TermsAtMost, CandidateOk, VotesOk, DiskOk, RejectionOk, LastOfTerm;
    BackupProgress(h, peers, s, i, peer, a, r);
    FullLogView(s, peers, i);
    var s' := FindNextIndex(s, peer, r);
    forall p: nat | p < s.peers ensures MatchOk(h, s', p) {
      assert MatchOk(h, s, p);
    }
    hide MatchOk;
    LeaderMoved(h, peers, s, s', i);
  }

  lemma AppendReplyServer(h: History, peers: nat, s: Server, i: nat, m: Message)
    requires HistoryOk(h, peers) && ServerOk(h, peers, s, i)
    requires MessageOk(h, peers, m) && m.AppendReply? && m.to == i && m.from < s.peers
    ensures ServerOk(h, peers, HandleAppendReply(s, m.from, m.aargs, m.areply), i)
  {
    hide HistoryOk, LogOk, AcksOk, CommitOk, TermsAtMost, CandidateOk, VotesOk, DiskOk, RejectionOk, CommitScan;
    hide CheckAndCommitLogs, FindNextIndex;
    var a, r := m.aargs, m.areply;
    if s.currentTerm == a.term && s.role == Leader {
      FullLogView(s, peers, i);
      var last := a.prevLogIndex + |a.entries|;
      hide ServerOk;
      if r.term > s.currentTerm {
        StepDownServer(h, peers, s, i, r.term);
      } else if r.success {
        MatchedServer(h, peers, s, i, m.from, last);
        CommittedServer(h, peers, Matched(s, m.from, last), i);
      } else {
        BackupServer(h, peers, s, i, m.from, a, r);
      }
    }
  }

  lemma AppendReplyKeepsInv(c: System, c': System, i: nat, m: Message)
    requires Inv(c) && AppendReplyStep(c, c', i, m)
    ensures Inv(c') && Grows(c.hist, c'.hist)
  {
    hide Inv, ServerOk, HistoryOk, OnlyBy, HandleAppendReply, MessageOk;
    InvParts(c, i);
    InvMessage(c, m);
    NothingNew(c.hist, i);
    AppendReplyServer(c.hist, c.peers, c.servers[i], i, m);
    InvAfter(c, c', i, HandleAppendReply(c.servers[i], m.from, m.aargs, m.areply), {}, c'.hist);
  }

  // ----- the leader: a new command -----

  lemma AcksOkLonger(h: History, me: nat, log: seq<LogEntry>, e: LogEntry, saved: nat)
    requires AcksOk(h, me, log, saved)
    ensures AcksOk(h, me, log + [e], saved)
  {
    forall t: nat | Ballot(me, t) in h.acks
      ensures t <= saved
      ensures forall k: nat :: 1 <= k <= h.acks[Ballot(me, t)] && t in h.leaders && k < |TermLog(h, t)| ==>
                KeepsAck(h, log + [e], saved, t, k)
    {
      forall k: nat | 1 <= k <= h.acks[Ballot(me, t)] && t in h.leaders && k < |TermLog(h, t)|
        ensures KeepsAck(h, log + [e], saved, t, k)
      {
        assert KeepsAck(h, log, saved, t, k);
        if TermLog(h, t)[..k + 1] <= log {
          PrefixTransitive(TermLog(h, t)[..k + 1], log, log + [e]);
        }
      }
    }
  }

  lemma StartLog(s: Server, peers: nat, i: nat, cmd: Command)
    requires IndicesOk(s, peers, i) && s.role == Leader
    ensures FullLog(Start(s, cmd)) == FullLog(s) + [LogEntry(s.currentTerm, cmd)]
    ensures LastLogIndex(Start(s, cmd)) == |FullLog(s)|
  {
  }

  lemma StartAcks(h: History, h1: History, peers: nat, s: Server, i: nat, e: LogEntry)
    requires HistoryOk(h, peers) && ServerOk(h, peers, s, i) && s.role == Leader
    requires Grows(h, h1) && h1.acks == h.acks && s.currentTerm in h1.leaders
    requires TermLog(h1, s.currentTerm) == FullLog(s) + [e]
    ensures AcksOk(RecordAck(h1, Ballot(i, s.currentTerm), |FullLog(s)|), i, FullLog(s) + [e], s.currentTerm)
  {
    hide HistoryOk, LogOk, AcksOk, CommitOk, TermsAtMost, LeadingOk, Grows;
    AcksOkLater(h, h1, peers, i, FullLog(s), SavedTerm(s), s.currentTerm);
    AcksOkLonger(h1, i, FullLog(s), e, s.currentTerm);
    assert (FullLog(s) + [e])[..|FullLog(s)| + 1] == FullLog(s) + [e];
    AcksOkRecorded(h1, i, FullLog(s) + [e], s.currentTerm, s.currentTerm, |FullLog(s)|);
  }

  lemma StartHistory(h: History, peers: nat, s: Server, i: nat, cmd: Command)
    requires HistoryOk(h, peers) && ServerOk(h, peers, s, i) && s.role == Leader
    ensures var t := s.currentTerm;
            && t in h.leaders
            && var l := h.leaders[t].(log := FullLog(s) + [LogEntry(t, cmd)]);
            && var h1 := h.(leaders := h.leaders[t := l]);
            && Grows(h, h1) && LogOk(h1, l.log)
            && HistoryOk(RecordLeader(h, t, l), peers) && OnlyBy(h, RecordLeader(h, t, l), i)
            && Grows(h1, RecordLeader(h, t, l))
  {
    hide HistoryOk, LogOk, AcksOk, CommitOk, TermsAtMost, OnlyBy, CandidateOk;
    var t := s.currentTerm;
    LeaderExtended(h, peers, t, LogEntry(t, cmd));
    var l := h.leaders[t].(log := FullLog(s) + [LogEntry(t, cmd)]);
    var h1 := h.(leaders := h.leaders[t := l]);
    OnlyByGrows(h, h1, i);
    LeaderRecorded(h, h1, peers, t, l);
    AckOnlyBy(h1, Ballot(i, t), |l.log| - 1);
    OnlyByGrows(h1, RecordLeader(h, t, l), i);
  }

  lemma StartCommit(h: History, h': History, peers: nat, log: seq<LogEntry>, e: LogEntry, c: int, hi: nat)
    requires Grows(h, h') && CommitOk(h, peers, log, c, hi)
    ensures CommitOk(h', peers, log + [e], c, hi)
  {
    CommitOkGrows(h, h', peers, log, c, hi, hi);
    assert (log + [e])[..c + 1] == log[..c + 1];
    hide CommitOk, Grows;
    CommitOkPrefix(h', peers, log, log + [e], c, c, hi);
  }

  lemma StartLeads(h: History, h': History, peers: nat, s: Server, i: nat, cmd: Command)
    requires IndicesOk(s, peers, i) && LeadingOk(h, s) && s.role == Leader && Grows(h, h')
    requires s.currentTerm in h.leaders && s.currentTerm in h'.leaders && h'.leaders[s.currentTerm].leader == i
    requires TermLog(h', s.currentTerm) == FullLog(Start(s, cmd))
    requires h'.leaders[s.currentTerm].sent == h.leaders[s.currentTerm].sent
    requires Ballot(i, s.currentTerm) in h'.acks && h'.acks[Ballot(i, s.currentTerm)] >= |FullLog(s)|
    ensures LeadingOk(h', Start(s, cmd))
  {
    StartLog(s, peers, i, cmd);
    var s' := Start(s, cmd);
    forall p: nat | p < s.peers ensures MatchOk(h', s', p) {
      assert MatchOk(h, s, p);
    }
  }

  lemma StartVotes(h: History, s: Server, cmd: Command)
    requires Shape(s) && VotesOk(h, s) && s.role == Leader && SavedTerm(s) == s.currentTerm
    ensures forall h': History :: h'.votes == h.votes && h'.exact == h.exact ==>
              VotesOk(h', Start(s, cmd)) && CandidateOk(h', Start(s, cmd))
  {
  }

  lemma StartServer(h: History, peers: nat, s: Server, i: nat, cmd: Command)
    requires HistoryOk(h, peers) && ServerOk(h, peers, s, i) && s.role == Leader && s.currentTerm in h.leaders
    ensures var h' := RecordLeader(h, s.currentTerm, h.leaders[s.currentTerm].(log := FullLog(Start(s, cmd))));
            HistoryOk(h', peers) && OnlyBy(h, h', i) && ServerOk(h', peers, Start(s, cmd), i)
  {
    hide HistoryOk, LogOk, AcksOk, CommitOk, OnlyBy, Grows, LeadingOk, VotesOk, CandidateOk;
    StartVotes(h, s, cmd);
    LeaderIs(h, peers, s, i);
    var t, e, log, s' := s.currentTerm, LogEntry(s.currentTerm, cmd), FullLog(s), Start(s, cmd);
    StartLog(s, peers, i, cmd);
    StartHistory(h, peers, s, i, cmd);
    var l := h.leaders[t].(log := log + [e]);
    var h1 := h.(leaders := h.leaders[t := l]);
    var h' := RecordLeader(h, t, l);
    OnlyByGrows(h, h', i);
    LogOkGrows(h1, h', log + [e]);
    StartAcks(h, h1, peers, s, i, e);
    StartCommit(h, h', peers, log, e, s.commitIndex, t);
    StartCommit(h, h', peers, log, e, s.lastIncludedIndex, SavedTerm(s));
    StartLeads(h, h', peers, s, i, cmd);
  }

  lemma StartKeepsInv(c: System, c': System, i: nat, cmd: Command)
    requires Inv(c) && StartStep(c, c', i, cmd)
    ensures Inv(c') && Grows(c.hist, c'.hist)
  {
    hide Inv, HistoryOk, OnlyBy, LogOk, AcksOk, CommitOk, TermsAtMost, CandidateOk, VotesOk, DiskOk;
    var s := c.servers[i];
    InvParts(c, i);
    hide Start, ServerOk;
    if s.role == Leader {
      StartServer(c.hist, c.peers, s, i, cmd);
    } else {
      NothingNew(c.hist, i);
      StartIgnored(s, cmd);
    }
    InvAfter(c, c', i, Start(s, cmd), {}, c'.hist);
  }

  lemma StartIgnored(s: Server, cmd: Command)
    requires Shape(s) && s.role != Leader
    ensures Start(s, cmd) == s
  {
  }
}
