/** A leader and one follower exchanging requests and replies: when the follower catches up. It
    does whenever its snapshot point is not past the leader's. Otherwise the exchange may fall into
    a loop in which the follower gets nothing. */
module RaftCatchUp {
  import opened RaftTypes
  import opened RaftServer
  import opened RaftProtocol
  import opened RaftInvariant
  import opened RaftCompleteness
  import opened RaftStability
  import opened RaftRecording
  import opened RaftReplication
  import opened RaftSafety
  import opened RaftMeaning

  // ----- one exchange -----

  /** Server `i` leads and server `p` is in no later term. */
  ghost predicate Follows(c: System, i: nat, p: nat) {
    && Inv(c) && i < |c.servers| && p < |c.servers| && i != p
    && c.servers[i].role == Leader && c.servers[p].currentTerm <= c.servers[i].currentTerm
  }

  ghost predicate CanSend(c: System, i: nat, p: nat) {
    && i < |c.servers| && p < |c.servers| && Shape(c.servers[i]) && Shape(c.servers[p])
    && p < c.servers[i].peers && c.servers[i].nextIndex[p] <= RealLogLen(c.servers[i])
  }

  /** What the leader sends the follower, and what comes back. */
  ghost function RequestTo(c: System, i: nat, p: nat): Message
    requires CanSend(c, i, p)
  {
    MessageTo(c.servers[i], p)
  }

  ghost function RequestStep(c: System, i: nat, p: nat): Step
    requires CanSend(c, i, p)
  {
    var m := RequestTo(c, i, p);
    if m.AppendRequest? then ReceiveAppend(p, m) else ReceiveInstall(p, m)
  }

  ghost function ReplyStep(c: System, i: nat, p: nat): Step
    requires CanSend(c, i, p)
  {
    var m, f := RequestTo(c, i, p), c.servers[p];
    if m.AppendRequest? then ReceiveAppendReply(i, AppendReply(p, i, m.aargs, AppendEntries(f, m.aargs).1))
    else ReceiveInstallReply(i, InstallReply(p, i, m.iargs, InstallSnapshot(f, m.iargs).1))
  }

  /** The leader broadcasts, the follower answers, the leader takes the answer. */
  ghost predicate Exchanges(c: System, c1: System, c2: System, c': System, i: nat, p: nat) {
    && CanSend(c, i, p)
    && Next(c, c1, Heartbeat(i)) && Next(c1, c2, RequestStep(c, i, p)) && Next(c2, c', ReplyStep(c, i, p))
  }

  ghost predicate ExchangeStep(c: System, c': System, i: nat, p: nat) {
    exists c1, c2 :: Exchanges(c, c1, c2, c', i, p)
  }

  /** An exchange is always possible. */
  lemma CanExchange(c: System, i: nat, p: nat) returns (c': System)
    requires Follows(c, i, p)
    ensures ExchangeStep(c, c', i, p)
  {
    hide HistoryOk, LogOk, AcksOk, CommitOk, VotesOk, CandidateOk, TermsAtMost, DiskOk, MatchOk, MessageOk;
    hide AppendEntries, InstallSnapshot, HandleAppendReply, HandleInstallReply, AppendTo, InstallTo;
    InvParts(c, i);
    InvParts(c, p);
    var s, f := c.servers[i], c.servers[p];
    var h1 := if s.currentTerm in c.hist.leaders
              then RecordSent(c.hist, s.currentTerm, s.lastIncludedIndex) else c.hist;
    var c1 := System(c.peers, c.servers[i := s], c.net + Broadcast(s), h1);
    assert Next(c, c1, Heartbeat(i));
    assert c1.servers[i] == s && c1.servers[p] == f;
    var m := RequestTo(c, i, p);
    assert IsPeer(s.peers, s.me, p) && m in Broadcast(s);
    hide Broadcast;
    if m.AppendRequest? {
      var (f', r) := AppendEntries(f, m.aargs);
      var last := m.aargs.prevLogIndex + |m.aargs.entries|;
      var reply := AppendReply(p, i, m.aargs, r);
      var h2 := if r.success && last >= 0 then RecordAck(h1, Ballot(p, m.aargs.term), last) else h1;
      var c2 := System(c.peers, c1.servers[p := f'], c1.net + {reply}, h2);
      assert Next(c1, c2, ReceiveAppend(p, m));
      c' := System(c.peers, c2.servers[i := HandleAppendReply(s, p, m.aargs, r)], c2.net + {}, h2);
      assert c2.servers[i] == s;
      assert Next(c2, c', ReceiveAppendReply(i, reply));
      assert Exchanges(c, c1, c2, c', i, p);
    } else {
      var (f', r) := InstallSnapshot(f, m.iargs);
      var reply := InstallReply(p, i, m.iargs, r);
      var c2 := System(c.peers, c1.servers[p := f'], c1.net + {reply}, h1);
      assert Next(c1, c2, ReceiveInstall(p, m));
      c' := System(c.peers, c2.servers[i := HandleInstallReply(s, p, m.iargs, r)], c2.net + {}, h1);
      assert c2.servers[i] == s;
      assert Next(c2, c', ReceiveInstallReply(i, reply));
      assert Exchanges(c, c1, c2, c', i, p);
    }
  }

  // ----- what one exchange does -----

  /** The follower has the leader's whole log and the leader knows. */
  ghost predicate CaughtUp(c: System, i: nat, p: nat) {
    && i < |c.servers| && p < |c.servers|
    && var s, f := c.servers[i], c.servers[p];
    && |s.logs| >= 1 && |f.logs| >= 1 && p < |s.matchIndex|
    && s.matchIndex[p] >= |FullLog(s)| - 1 && FullLog(s) <= FullLog(f)
  }

  /** The entry before the next one is in the follower's log, not compacted away, and the same. */
  ghost predicate ProbeFits(s: Server, f: Server, p: nat)
    requires |s.logs| >= 1 && |f.logs| >= 1 && p < |s.nextIndex|
  {
    var prev := s.nextIndex[p] - 1;
    && 0 <= f.lastIncludedIndex <= prev < |FullLog(f)| && prev < |FullLog(s)|
    && FullLog(f)[prev].term == FullLog(s)[prev].term
  }

  /** The leader keeps its log; the follower takes the snapshot if it is behind it, takes the rest of
      the log if the probe fits, and otherwise makes the leader go back. */
  ghost predicate Outcome(s: Server, f: Server, s': Server, f': Server, p: nat)
    requires |s.logs| >= 1 && |f.logs| >= 1 && p < |s.nextIndex| && p < |s.matchIndex|
  {
    && s'.role == Leader && s'.currentTerm == s.currentTerm == f'.currentTerm
    && s'.lastIncludedIndex == s.lastIncludedIndex && |s'.logs| >= 1 && FullLog(s') == FullLog(s)
    && |f'.logs| >= 1 && p < |s'.nextIndex| && p < |s'.matchIndex|
    && var next, next' := s.nextIndex[p], s'.nextIndex[p];
    && if next <= s.lastIncludedIndex then
         && next' == s.lastIncludedIndex + 1 && f'.commitIndex >= s.lastIncludedIndex
         && s'.matchIndex[p] == Max(s.matchIndex[p], s.lastIncludedIndex)
         && if s.lastIncludedIndex > f.commitIndex then f'.lastIncludedIndex == s.lastIncludedIndex
            else f'.lastIncludedIndex == f.lastIncludedIndex && FullLog(f') == FullLog(f)
       else if ProbeFits(s, f, p) then
         && s'.matchIndex[p] >= |FullLog(s)| - 1 && FullLog(s) <= FullLog(f')
         && f'.lastIncludedIndex == f.lastIncludedIndex
       else
         && 0 <= next' < next && s'.matchIndex[p] == s.matchIndex[p]
         && f'.lastIncludedIndex == f.lastIncludedIndex && FullLog(f') == FullLog(f)
         && (next <= f.lastIncludedIndex ==> next' == 0)
  }

  lemma AcceptedHasAll(h: History, l: seq<LogEntry>, f: seq<LogEntry>, next: nat, f': seq<LogEntry>)
    requires LogOk(h, l) && LogOk(h, f) && 1 <= next <= |l| && next <= |f| && f[next - 1].term == l[next - 1].term
    requires Merges(f, next, l[next..], f')
    ensures l <= f'
  {
    hide LogOk;
    var j: nat :| MergesAfter(f, next, l[next..], f', j);
    var k := next + j - 1;
    assert f[k].term == l[k].term by {
      assert j > 0 ==> l[next..][j - 1] == l[k] && f[next + (j - 1)] == f[k];
    }
    LogMatching(h, f, l, k);
    if j == |l[next..]| {
      assert l == l[..k + 1] == f[..k + 1];
    } else {
      assert l[next..][j..] == l[k + 1..];
      assert f' == l[..k + 1] + l[k + 1..] == l;
    }
  }

  lemma TermsPositive(h: History, peers: nat, log: seq<LogEntry>, k: nat)
    requires HistoryOk(h, peers) && LogOk(h, log) && 1 <= k < |log|
    ensures log[k].term >= 1
  {
    assert EntryOk(h, log, k);
    assert LeaderOk(h, peers, log[k].term);
  }

  /** A follower that has compacted the probe away sends the leader to the start of its log. */
  lemma BacksToStart(h: History, peers: nat, s: Server, s': Server, i: nat, p: nat, r: AppendEntriesReply)
    requires HistoryOk(h, peers) && IndicesOk(s, peers, i) && LogOk(h, FullLog(s)) && p < peers
    requires r.xTerm == 0 && r.xIndex == 0 && BacksUp(s, s', p, r)
    ensures s'.nextIndex[p] == 0
  {
    hide HistoryOk, LogOk, FullLog;
    var k := s'.nextIndex[p];
    TermAt(s, peers, i, k);
    if 0 < k < |FullLog(s)| {
      TermsPositive(h, peers, FullLog(s), k);
    }
  }

  lemma AppendExchange(c1: System, c2: System, i: nat, p: nat, a: AppendEntriesArgs)
    requires Follows(c1, i, p) && Inv(c2)
    requires var s, f := c1.servers[i], c1.servers[p];
             && s.lastIncludedIndex < s.nextIndex[p] <= |FullLog(s)|
             && a == AppendEntriesArgs(s.currentTerm, i, s.nextIndex[p] - 1, FullLog(s)[s.nextIndex[p] - 1].term,
                                       FullLog(s)[s.nextIndex[p]..], s.commitIndex)
             && c2.servers == c1.servers[p := AppendEntries(f, a).0]
             && AppendReply(p, i, a, AppendEntries(f, a).1) in c2.net
    ensures var s, f := c1.servers[i], c1.servers[p];
            var (f', r) := AppendEntries(f, a);
            IndicesOk(s, c1.peers, i) && Outcome(s, f, HandleAppendReply(s, p, a, r), f', p)
  {
    hide Inv, HistoryOk, LogOk, AcksOk, CommitOk, VotesOk, CandidateOk, TermsAtMost, DiskOk, MatchOk, FullLog;
    hide AppendEntries, HandleAppendReply, Merges, CommitsMajority, BacksUp, Rejects, Advances, RejectionOk;
    InvParts(c1, i);
    InvParts(c1, p);
    InvSize(c1);
    var h, peers, s, f := c1.hist, c1.peers, c1.servers[i], c1.servers[p];
    var (f', r) := AppendEntries(f, a);
    AppendMeans(f, peers, p, a);
    AppendReplyMeans(s, p, a, r);
    TermAt(s, peers, i, 0);
    var s' := HandleAppendReply(s, p, a, r);
    assert Consistent(f, a) <==> ProbeFits(s, f, p);
    if r.success {
      AcceptedHasAll(h, FullLog(s), FullLog(f), s.nextIndex[p], FullLog(f'));
      AfterCommit(s, s', p, a.prevLogIndex + |a.entries|);
    } else {
      InvSize(c2);
      InvParts(c2, i);
      InvMessage(c2, AppendReply(p, i, a, r));
      assert c2.servers[i] == s;
      RejectionGoesBack(c2.hist, peers, s, i, p, a, r);
      BackupKeepsLog(s, s', p, r);
      SameLog(f, f');
      if s.nextIndex[p] <= f.lastIncludedIndex {
        RejectsCompacted(f, a, r);
        BacksToStart(h, peers, s, s', i, p, r);
      }
    }
  }

  lemma InvSize(c: System)
    requires Inv(c)
    ensures |c.servers| == c.peers
  {
  }

  lemma RejectsCompacted(f: Server, a: AppendEntriesArgs, r: AppendEntriesReply)
    requires |f.logs| >= 1 && Rejects(f, a, r) && a.prevLogIndex < f.lastIncludedIndex
    ensures r.xTerm == 0 && r.xIndex == 0
  {
  }

  lemma RejectionGoesBack(h: History, peers: nat, s: Server, i: nat, p: nat, a: AppendEntriesArgs,
                          r: AppendEntriesReply)
    requires HistoryOk(h, peers) && ServerOk(h, peers, s, i) && s.role == Leader && p < peers
    requires s.currentTerm == a.term == r.term && !r.success && MessageOk(h, peers, AppendReply(p, i, a, r))
    ensures 0 <= HandleAppendReply(s, p, a, r).nextIndex[p] <= a.prevLogIndex
  {
    hide HistoryOk, ServerOk, FindNextIndex, AppendOk, RejectionOk;
    BackupProgress(h, peers, s, i, p, a, r);
  }

  lemma BackupKeepsLog(s: Server, s': Server, p: nat, r: AppendEntriesReply)
    requires Shape(s) && p < s.peers && BacksUp(s, s', p, r)
    ensures s' == s.(nextIndex := s'.nextIndex) && |s'.nextIndex| == s.peers && FullLog(s') == FullLog(s)
  {
  }

  lemma AfterCommit(s: Server, s': Server, p: nat, n: int)
    requires Shape(s) && p < s.peers && AcknowledgedThenCommits(s, s', p, n)
    ensures s' == s.(nextIndex := s'.nextIndex, matchIndex := s'.matchIndex, commitIndex := s'.commitIndex)
    ensures |s'.nextIndex| == |s'.matchIndex| == s.peers && s'.matchIndex[p] >= n
    ensures FullLog(s') == FullLog(s)
  {
    hide MayCommit;
  }

  lemma InstallExchange(c1: System, i: nat, p: nat, a: InstallSnapshotArgs)
    requires Follows(c1, i, p)
    requires var s := c1.servers[i];
             && |s.logs| >= 1 && 0 <= s.lastIncludedIndex < |FullLog(s)| && p < |s.nextIndex|
             && 0 <= s.nextIndex[p] <= s.lastIncludedIndex
             && a.term == s.currentTerm && a.lastIncludedIndex == s.lastIncludedIndex
    ensures var s, f := c1.servers[i], c1.servers[p];
            && IndicesOk(s, c1.peers, i) && p < s.peers && IndicesOk(f, c1.peers, p)
            && var (f', r) := InstallSnapshot(f, a);
            Outcome(s, f, HandleInstallReply(s, p, a, r), f', p)
  {
    hide Inv, HistoryOk, LogOk, AcksOk, CommitOk, VotesOk, CandidateOk, TermsAtMost, DiskOk, MatchOk, FullLog;
    hide InstallSnapshot, HandleInstallReply;
    InvParts(c1, i);
    InvParts(c1, p);
    InvSize(c1);
    var s, f := c1.servers[i], c1.servers[p];
    var (f', r) := InstallSnapshot(f, a);
    InstallMeans(f, c1.peers, p, a);
    InstallReplyMeans(s, p, a, r);
    var s' := HandleInstallReply(s, p, a, r);
    SameLog(s, s');
    if a.lastIncludedIndex <= f.commitIndex {
      SameLog(f, f');
    }
  }

  lemma SameLog(s: Server, s': Server)
    requires |s.logs| >= 1 && s'.logs == s.logs && s'.snapshot == s.snapshot
    ensures FullLog(s') == FullLog(s)
  {
  }

  /** The servers after an exchange. */
  lemma ExchangedServers(c: System, c1: System, c2: System, c': System, i: nat, p: nat)
    requires i != p && Exchanges(c, c1, c2, c', i, p)
    ensures c1.servers == c.servers && c1.peers == c2.peers == c'.peers == c.peers
    ensures var m, s, f := RequestTo(c, i, p), c.servers[i], c.servers[p];
            if m.AppendRequest? then
              && var (f', r) := AppendEntries(f, m.aargs);
              && c2.servers == c.servers[p := f'] && AppendReply(p, i, m.aargs, r) in c2.net
              && c'.servers == c2.servers[i := HandleAppendReply(s, p, m.aargs, r)]
            else
              && m.InstallRequest?
              && var (f', r) := InstallSnapshot(f, m.iargs);
              && c2.servers == c.servers[p := f']
              && c'.servers == c2.servers[i := HandleInstallReply(s, p, m.iargs, r)]
  {
    hide AppendEntries, InstallSnapshot, HandleAppendReply, HandleInstallReply, Broadcast, AppendTo, InstallTo;
  }

  lemma OneExchange(c: System, c': System, i: nat, p: nat)
    requires Follows(c, i, p) && ExchangeStep(c, c', i, p)
    ensures Follows(c', i, p) && CanSend(c, i, p)
    ensures Outcome(c.servers[i], c.servers[p], c'.servers[i], c'.servers[p], p)
  {
    hide Inv, Next, Outcome, Exchanges, MessageTo, AppendEntries, InstallSnapshot, HandleAppendReply;
    hide HandleInstallReply;
    var c1, c2 :| Exchanges(c, c1, c2, c', i, p);
    ExchangeInv(c, c1, c2, c', i, p);
    ExchangedServers(c, c1, c2, c', i, p);
    LeaderSends(c, i, p);
    var s, m := c.servers[i], RequestTo(c, i, p);
    if m.AppendRequest? {
      AppendExchange(c1, c2, i, p, m.aargs);
    } else {
      InstallExchange(c1, i, p, m.iargs);
    }
    OutcomeTerms(c.servers[i], c.servers[p], c'.servers[i], c'.servers[p], p);
  }

  lemma OutcomeTerms(s: Server, f: Server, s': Server, f': Server, p: nat)
    requires |s.logs| >= 1 && |f.logs| >= 1 && p < |s.nextIndex| && p < |s.matchIndex| && Outcome(s, f, s', f', p)
    ensures s'.role == Leader && f'.currentTerm == s'.currentTerm
  {
  }

  lemma ExchangeInv(c: System, c1: System, c2: System, c': System, i: nat, p: nat)
    requires Inv(c) && Exchanges(c, c1, c2, c', i, p)
    ensures CanSend(c, i, p) && Inv(c1) && Inv(c2) && Inv(c')
  {
    hide Inv, Next, Grows, MessageTo, AppendEntries, InstallSnapshot;
    StepInv(c, c1, Heartbeat(i));
    StepInv(c1, c2, RequestStep(c, i, p));
    StepInv(c2, c', ReplyStep(c, i, p));
  }

  /** What a leader sends, in terms of its log. */
  lemma LeaderSends(c: System, i: nat, p: nat)
    requires Follows(c, i, p) && CanSend(c, i, p)
    ensures var s, m := c.servers[i], RequestTo(c, i, p);
            && 0 <= s.lastIncludedIndex < |FullLog(s)| && 0 <= s.nextIndex[p] <= |FullLog(s)|
            && if s.nextIndex[p] <= s.lastIncludedIndex then
                 m.InstallRequest? && m.iargs.term == s.currentTerm && m.iargs.lastIncludedIndex == s.lastIncludedIndex
               else
                 && m.AppendRequest?
                 && m.aargs == AppendEntriesArgs(s.currentTerm, i, s.nextIndex[p] - 1,
                                                 FullLog(s)[s.nextIndex[p] - 1].term, FullLog(s)[s.nextIndex[p]..],
                                                 s.commitIndex)
  {
    hide Inv, HistoryOk, LogOk, AcksOk, CommitOk, VotesOk, CandidateOk, TermsAtMost, DiskOk, MatchOk, FullLog;
    hide MessageTo;
    InvParts(c, i);
    InvSize(c);
    TermAt(c.servers[i], c.peers, i, 0);
    SendMeans(c.servers[i], c.peers, i, p);
  }

  // ----- many exchanges -----

  ghost predicate Chain(cs: seq<System>, i: nat, p: nat) {
    cs != [] && forall k :: 0 <= k < |cs| - 1 ==> ExchangeStep(cs[k], cs[k + 1], i, p)
  }

  lemma ChainRest(cs: seq<System>, i: nat, p: nat)
    requires Chain(cs, i, p) && |cs| > 1
    ensures ExchangeStep(cs[0], cs[1], i, p) && Chain(cs[1..], i, p)
  {
    assert ExchangeStep(cs[0], cs[0 + 1], i, p);
    forall k | 0 <= k < |cs[1..]| - 1 ensures ExchangeStep(cs[1..][k], cs[1..][k + 1], i, p) {
      assert ExchangeStep(cs[k + 1], cs[k + 1 + 1], i, p);
    }
  }

  /** Behind a snapshot the follower has, the next entries fit: what is committed is the same. */
  lemma FitsAfterSnapshot(c: System, i: nat, p: nat)
    requires Follows(c, i, p)
    ensures var s, f := c.servers[i], c.servers[p];
            && |s.logs| >= 1 && |f.logs| >= 1 && p < |s.nextIndex|
            && (&& s.nextIndex[p] == s.lastIncludedIndex + 1
                && f.lastIncludedIndex <= s.lastIncludedIndex <= f.commitIndex ==>
                  ProbeFits(s, f, p))
  {
    hide Inv, HistoryOk, LogOk, AcksOk, CommitOk, VotesOk, CandidateOk, TermsAtMost, DiskOk, MatchOk, FullLog;
    InvParts(c, i);
    InvParts(c, p);
    InvSize(c);
    var h, s, f := c.hist, c.servers[i], c.servers[p];
    TermAt(s, c.peers, i, s.lastIncludedIndex);
    TermAt(f, c.peers, p, f.commitIndex);
    LeaderHasCommitted(h, c.peers, FullLog(f), f.commitIndex, f.currentTerm, s.currentTerm);
    if s.lastIncludedIndex <= f.commitIndex {
      assert FullLog(f)[s.lastIncludedIndex] == FullLog(f)[..f.commitIndex + 1][s.lastIncludedIndex]
          == FullLog(s)[..f.commitIndex + 1][s.lastIncludedIndex];
    }
  }

  /** The follower's snapshot point is past the leader's and the next index is not past it. */
  ghost predicate Trapped(c: System, i: nat, p: nat) {
    && i < |c.servers| && p < |c.servers| && p < |c.servers[i].nextIndex|
    && c.servers[i].lastIncludedIndex < c.servers[p].lastIncludedIndex
    && c.servers[i].nextIndex[p] <= c.servers[p].lastIncludedIndex
  }

  ghost function NextFor(c: System, i: nat, p: nat): int
    requires Follows(c, i, p)
  {
    InvParts(c, i);
    c.servers[i].nextIndex[p]
  }

  ghost predicate SnapshotBehind(c: System, i: nat, p: nat)
    requires i < |c.servers| && p < |c.servers|
  {
    c.servers[p].lastIncludedIndex <= c.servers[i].lastIncludedIndex
  }

  /** One exchange: the follower catches up, or the leader goes back, or its snapshot was taken. */
  lemma ExchangeEffect(c: System, c': System, i: nat, p: nat)
    requires Follows(c, i, p) && ExchangeStep(c, c', i, p)
    ensures Follows(c', i, p) && NextFor(c, i, p) >= 0
    ensures c'.servers[i].lastIncludedIndex == c.servers[i].lastIncludedIndex
    ensures SnapshotBehind(c, i, p) ==> SnapshotBehind(c', i, p)
    ensures var point := c.servers[i].lastIncludedIndex;
            if NextFor(c, i, p) <= point then
              NextFor(c', i, p) == point + 1 && c'.servers[p].commitIndex >= point
            else CaughtUp(c', i, p) || NextFor(c', i, p) < NextFor(c, i, p)
    ensures !SnapshotBehind(c, i, p) && NextFor(c, i, p) > c.servers[p].lastIncludedIndex && !CaughtUp(c', i, p) ==>
              c'.servers[p].lastIncludedIndex == c.servers[p].lastIncludedIndex
  {
    hide Inv, FullLog, ProbeFits, ServerOk, ExchangeStep;
    InvParts(c, i);
    InvParts(c, p);
    FollowIndices(c, i, p);
    OneExchange(c, c', i, p);
    FollowIndices(c', i, p);
    LeaderSends(c, i, p);
  }

  lemma FollowIndices(c: System, i: nat, p: nat)
    requires Follows(c, i, p)
    ensures IndicesOk(c.servers[i], c.peers, i) && IndicesOk(c.servers[p], c.peers, p) && p < c.peers == |c.servers|
    ensures c.servers[i].nextIndex[p] >= 0
  {
    hide Inv, HistoryOk, LogOk, AcksOk, CommitOk, VotesOk, CandidateOk, MatchOk, TermsAtMost, DiskOk;
    InvParts(c, i);
    InvParts(c, p);
    InvSize(c);
  }

  ghost predicate SomeCaughtUp(cs: seq<System>, i: nat, p: nat) {
    exists k :: 0 <= k < |cs| && CaughtUp(cs[k], i, p)
  }

  lemma LaterCaughtUp(cs: seq<System>, i: nat, p: nat)
    requires |cs| > 1 && SomeCaughtUp(cs[1..], i, p)
    ensures SomeCaughtUp(cs, i, p)
  {
    var k :| 0 <= k < |cs[1..]| && CaughtUp(cs[1..][k], i, p);
    assert CaughtUp(cs[k + 1], i, p);
  }

  /** A follower whose snapshot point is not past the leader's catches up within as many exchanges
      as the next index is past the leader's snapshot point, and two more. */
  lemma {:induction false} CatchesUp(cs: seq<System>, i: nat, p: nat)
    requires Chain(cs, i, p) && Follows(cs[0], i, p) && SnapshotBehind(cs[0], i, p)
    requires |cs| > Max(NextFor(cs[0], i, p) - cs[0].servers[i].lastIncludedIndex, 0) + 2
    ensures SomeCaughtUp(cs, i, p)
    decreases |cs|
  {
    hide Inv, ExchangeStep, CaughtUp, NextFor;
    ChainRest(cs, i, p);
    var point := cs[0].servers[i].lastIncludedIndex;
    ExchangeEffect(cs[0], cs[1], i, p);
    if CaughtUp(cs[1], i, p) {
    } else if NextFor(cs[0], i, p) <= point {
      ChainRest(cs[1..], i, p);
      SecondExchange(cs[1], cs[2], i, p);
    } else {
      CatchesUp(cs[1..], i, p);
      LaterCaughtUp(cs, i, p);
    }
  }

  lemma SecondExchange(c: System, c': System, i: nat, p: nat)
    requires Follows(c, i, p) && ExchangeStep(c, c', i, p) && SnapshotBehind(c, i, p)
    requires NextFor(c, i, p) == c.servers[i].lastIncludedIndex + 1
    requires c.servers[p].commitIndex >= c.servers[i].lastIncludedIndex
    ensures CaughtUp(c', i, p)
  {
    hide Inv, FullLog, ProbeFits, ServerOk, ExchangeStep;
    FollowIndices(c, i, p);
    FitsAfterSnapshot(c, i, p);
    OneExchange(c, c', i, p);
  }

  /** Otherwise it catches up, or the exchange is trapped. */
  lemma {:induction false} Settles(cs: seq<System>, i: nat, p: nat)
    requires Chain(cs, i, p) && Follows(cs[0], i, p) && |cs| > NextFor(cs[0], i, p) + 2
    ensures SomeCaughtUp(cs, i, p) || exists k :: 0 <= k < |cs| && Trapped(cs[k], i, p)
    decreases |cs|
  {
    hide Inv, ExchangeStep, CaughtUp;
    FollowIndices(cs[0], i, p);
    if SnapshotBehind(cs[0], i, p) {
      CatchesUp(cs, i, p);
    } else if Trapped(cs[0], i, p) {
    } else {
      ChainRest(cs, i, p);
      ExchangeEffect(cs[0], cs[1], i, p);
      if !CaughtUp(cs[1], i, p) {
        Settles(cs[1..], i, p);
        if SomeCaughtUp(cs[1..], i, p) {
          LaterCaughtUp(cs, i, p);
        } else {
          var k :| 0 <= k < |cs[1..]| && Trapped(cs[1..][k], i, p);
          assert Trapped(cs[k + 1], i, p);
        }
      }
    }
  }

  lemma TrapHolds(c: System, c': System, i: nat, p: nat)
    requires Follows(c, i, p) && ExchangeStep(c, c', i, p) && Trapped(c, i, p)
    ensures Follows(c', i, p) && Trapped(c', i, p)
    ensures |c.servers[p].logs| >= 1 && |c'.servers[p].logs| >= 1
    ensures FullLog(c'.servers[p]) == FullLog(c.servers[p])
    ensures p < |c.servers[i].matchIndex| && p < |c'.servers[i].matchIndex|
    ensures c'.servers[i].matchIndex[p] <= Max(c.servers[i].matchIndex[p], c.servers[i].lastIncludedIndex)
    ensures c'.servers[i].lastIncludedIndex == c.servers[i].lastIncludedIndex
  {
    hide Inv, FullLog, ServerOk, ExchangeStep;
    FollowIndices(c, i, p);
    OneExchange(c, c', i, p);
    FollowIndices(c', i, p);
  }

  /** Once trapped, no number of exchanges gives the follower an entry or teaches the leader more
      than its own snapshot point. */
  lemma {:induction false} StaysTrapped(cs: seq<System>, i: nat, p: nat, k: nat)
    requires Chain(cs, i, p) && Follows(cs[0], i, p) && Trapped(cs[0], i, p) && k < |cs|
    ensures Follows(cs[k], i, p) && Trapped(cs[k], i, p)
    ensures |cs[0].servers[p].logs| >= 1 && |cs[k].servers[p].logs| >= 1
    ensures FullLog(cs[k].servers[p]) == FullLog(cs[0].servers[p])
    ensures p < |cs[0].servers[i].matchIndex| && p < |cs[k].servers[i].matchIndex|
    ensures cs[k].servers[i].matchIndex[p] <= Max(cs[0].servers[i].matchIndex[p], cs[0].servers[i].lastIncludedIndex)
    ensures cs[k].servers[i].lastIncludedIndex == cs[0].servers[i].lastIncludedIndex
    decreases k
  {
    hide Inv, FullLog, ExchangeStep;
    if k == 0 {
      FollowIndices(cs[0], i, p);
    } else {
      StaysTrapped(cs, i, p, k - 1);
      assert ExchangeStep(cs[k - 1], cs[k - 1 + 1], i, p);
      TrapHolds(cs[k - 1], cs[k], i, p);
    }
  }

  // ----- from every reachable state -----

  lemma ExtendsRun(peers: nat, run: seq<System>, c': System, i: nat, p: nat) returns (run': seq<System>)
    requires IsRun(peers, run) && ExchangeStep(run[|run| - 1], c', i, p)
    ensures IsRun(peers, run') && run <= run' && run'[|run'| - 1] == c'
  {
    hide Next, Init;
    var c := run[|run| - 1];
    var c1, c2 :| Exchanges(c, c1, c2, c', i, p);
    run' := run + [c1, c2, c'];
    var n := |run|;
    assert run'[n - 1] == c && run'[n] == c1 && run'[n + 1] == c2 && run'[n + 2] == c';
    forall k | 0 <= k < |run'| - 1 ensures CanStep(run'[k], run'[k + 1]) {
      if k < n - 1 {
        assert run'[k] == run[k] && run'[k + 1] == run[k + 1];
      } else {
        ExchangeIsSteps(c, c1, c2, c', i, p);
      }
    }
  }

  lemma ExchangeIsSteps(c: System, c1: System, c2: System, c': System, i: nat, p: nat)
    requires Exchanges(c, c1, c2, c', i, p)
    ensures CanStep(c, c1) && CanStep(c1, c2) && CanStep(c2, c')
  {
    hide Next;
  }

  lemma {:induction false} BringsWithin(peers: nat, run: seq<System>, i: nat, p: nat, left: nat)
    returns (run': seq<System>)
    requires IsRun(peers, run) && Follows(run[|run| - 1], i, p) && SnapshotBehind(run[|run| - 1], i, p)
    requires left >= Max(NextFor(run[|run| - 1], i, p) - run[|run| - 1].servers[i].lastIncludedIndex, 0)
    ensures IsRun(peers, run') && run <= run' && CaughtUp(run'[|run'| - 1], i, p)
    decreases left
  {
    hide Inv, Init, CanStep, ExchangeStep, CaughtUp, NextFor;
    var c := run[|run| - 1];
    var c' := CanExchange(c, i, p);
    run' := ExtendsRun(peers, run, c', i, p);
    ExchangeEffect(c, c', i, p);
    if !CaughtUp(c', i, p) {
      if NextFor(c, i, p) <= c.servers[i].lastIncludedIndex {
        var c2 := CanExchange(c', i, p);
        SecondExchange(c', c2, i, p);
        run' := ExtendsRun(peers, run', c2, i, p);
      } else {
        run' := BringsWithin(peers, run', i, p, left - 1);
      }
    }
  }

  /** From every reachable state, a leader can bring a follower that is in no later term and whose
      snapshot point is not past its own up to date, by its broadcasts and the answers alone. */
  lemma BringsUpToDate(peers: nat, run: seq<System>, i: nat, p: nat) returns (run': seq<System>)
    requires IsRun(peers, run) && Follows(run[|run| - 1], i, p) && SnapshotBehind(run[|run| - 1], i, p)
    ensures IsRun(peers, run') && run <= run' && CaughtUp(run'[|run'| - 1], i, p)
  {
    hide Inv, Init, CanStep, CaughtUp;
    var c := run[|run| - 1];
    run' := BringsWithin(peers, run, i, p, Max(NextFor(c, i, p) - c.servers[i].lastIncludedIndex, 0));
  }
}
