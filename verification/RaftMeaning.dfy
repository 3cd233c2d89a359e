/** What each handler of a peer does, said in terms of the whole log it stands for, votes and
    majorities, for any number of peers. The transition functions are only named as what the
    statements are about. */
module RaftMeaning {
  import opened RaftTypes
  import opened RaftServer
  import opened RaftInvariant
  import opened RaftLogs
  import opened RaftReplication
  import opened RaftCommitted

  // ----- elections -----

  /** A vote is granted exactly if the request's term is higher, or equal with no other vote held,
      and the candidate's last entry is of a later term, or of the same term and no lower index. */
  lemma VoteMeans(s: Server, peers: nat, i: nat, a: RequestVoteArgs)
    requires IndicesOk(s, peers, i)
    ensures var (s', r) := RequestVote(s, a);
            var log := FullLog(s);
            && log != []
            && (r.voteGranted <==>
                && (|| a.term > s.currentTerm
                    || (a.term == s.currentTerm && (s.votedFor == NO_VOTE || s.votedFor == a.candidateId)))
                && (|| a.lastLogTerm > log[|log| - 1].term
                    || (a.lastLogTerm == log[|log| - 1].term && a.lastLogIndex >= |log| - 1)))
            && r.term == s'.currentTerm == Max(s.currentTerm, a.term)
            && s'.votedFor == (if r.voteGranted then a.candidateId
                               else if a.term > s.currentTerm then NO_VOTE else s.votedFor)
            && s'.role == (if a.term > s.currentTerm then Follower else s.role)
            && s' == s.(currentTerm := s'.currentTerm, votedFor := s'.votedFor, role := s'.role, disk := s'.disk)
            && (a.term >= s.currentTerm ==> SavedTerm(s') == s'.currentTerm && SavedVote(s') == s'.votedFor)
  {
    FullLogView(s, peers, i);
  }

  /** A candidate asks every other peer, with the last index and term of its log. */
  lemma ElectionMeans(s: Server, peers: nat, i: nat)
    requires IndicesOk(s, peers, i)
    ensures var s' := StartElection(s);
            var log := FullLog(s);
            && log != []
            && s' == s.(role := Candidate, votedFor := i, currentTerm := s.currentTerm + 1, voteGrantedCnt := 1,
                        pending := s'.pending, disk := s'.disk)
            && SavedTerm(s') == s'.currentTerm && SavedVote(s') == i
            && (forall p: nat :: p in s'.pending <==> p < peers && p != i)
            && (forall m: Message :: m in VoteRequests(s') <==>
                  && m.VoteRequest? && m.from == i && m.to < peers && m.to != i
                  && m.vargs == RequestVoteArgs(s.currentTerm + 1, i, |log| - 1, log[|log| - 1].term))
  {
    FullLogView(s, peers, i);
    var s' := StartElection(s);
    forall m: Message | m.VoteRequest? && m.from == i && m.to < peers && m.to != i && m == VoteRequestTo(s', m.to)
      ensures m in VoteRequests(s')
    {
      assert IsPeer(s'.peers, s'.me, m.to);
    }
  }

  /** A counted vote makes the candidate leader exactly if twice its votes exceed the peers. Then
      every next index is at the end of its log and it knows nothing of the others' logs. */
  lemma CountMeans(s: Server, peer: nat, a: RequestVoteArgs, r: RequestVoteReply)
    requires Shape(s)
    ensures var s' := HandleVoteReply(s, peer, a, r);
            var votes := s.voteGrantedCnt + (if r.voteGranted then 1 else 0);
            if s.role != Candidate || s.currentTerm != a.term || r.term < s.currentTerm then
              s' == s.(pending := s.pending - {peer})
            else if r.term > s.currentTerm then
              && s' == s.(currentTerm := r.term, votedFor := NO_VOTE, role := Follower, pending := s.pending - {peer},
                          disk := s'.disk)
              && SavedTerm(s') == r.term && SavedVote(s') == NO_VOTE
            else
              && s' == s.(role := s'.role, voteGrantedCnt := votes, pending := s.pending - {peer},
                          nextIndex := s'.nextIndex, matchIndex := s'.matchIndex)
              && s'.role == (if 2 * votes > s.peers then Leader else Candidate)
              && (s'.role == Leader ==> StartsLeading(s'))
              && (s'.role != Leader ==> s'.nextIndex == s.nextIndex && s'.matchIndex == s.matchIndex)
  {
    hide Persist;
    if s.role == Candidate && s.currentTerm == a.term && r.term > s.currentTerm {
      PersistMeans(s.(currentTerm := r.term, votedFor := NO_VOTE));
    }
  }

  ghost predicate StartsLeading(s: Server)
    requires Shape(s)
  {
    forall p :: 0 <= p < s.peers ==>
      && s.nextIndex[p] == |FullLog(s)|
      && s.matchIndex[p] == if p == s.me then |FullLog(s)| - 1 else s.lastIncludedIndex
  }

  lemma PersistMeans(s: Server)
    requires |s.logs| >= 1
    ensures Persist(s) == s.(disk := Persist(s).disk)
    ensures SavedTerm(Persist(s)) == s.currentTerm && SavedVote(Persist(s)) == s.votedFor
  {
  }

  /** The replies of one election, as they are handled one after the other. */
  ghost function Counted(s: Server, a: RequestVoteArgs, replies: seq<(nat, RequestVoteReply)>): (s': Server)
    requires Shape(s)
    ensures Shape(s') && s'.peers == s.peers
    decreases |replies|
  {
    if replies == [] then s
    else
      var n := |replies| - 1;
      CountedShape(Counted(s, a, replies[..n]), replies[n].0, a, replies[n].1);
      HandleVoteReply(Counted(s, a, replies[..n]), replies[n].0, a, replies[n].1)
  }

  lemma CountedShape(s: Server, peer: nat, a: RequestVoteArgs, r: RequestVoteReply)
    requires Shape(s)
    ensures Shape(HandleVoteReply(s, peer, a, r)) && HandleVoteReply(s, peer, a, r).peers == s.peers
  {
  }

  ghost function Granting(replies: seq<(nat, RequestVoteReply)>): set<nat> {
    set k: nat | k < |replies| && replies[k].1.voteGranted
  }

  lemma GrantingMore(replies: seq<(nat, RequestVoteReply)>)
    requires replies != []
    ensures |Granting(replies)| ==
            |Granting(replies[..|replies| - 1])| + if replies[|replies| - 1].1.voteGranted then 1 else 0
  {
    var n := |replies| - 1;
    assert Granting(replies) == Granting(replies[..n]) + if replies[n].1.voteGranted then {n} else {};
    assert n !in Granting(replies[..n]);
  }

  /** An election is won exactly if the candidate's own vote and those granted in the replies are
      more than half of the peers. With no reply at all nobody looks: one peer alone never leads. */
  lemma {:induction false} ElectionWon(s: Server, peers: nat, i: nat, a: RequestVoteArgs,
                                       replies: seq<(nat, RequestVoteReply)>)
    requires IndicesOk(s, peers, i) && a.term == s.currentTerm + 1
    requires forall k :: 0 <= k < |replies| ==> replies[k].1.term == a.term
    ensures Shape(StartElection(s))
    ensures var s' := Counted(StartElection(s), a, replies);
            && s'.currentTerm == a.term && s'.role != Follower
            && (s'.role == Candidate ==> s'.voteGrantedCnt == 1 + |Granting(replies)|)
            && (s'.role == Leader <==> replies != [] && 2 * (1 + |Granting(replies)|) > peers)
    decreases |replies|
  {
    if replies != [] {
      var n := |replies| - 1;
      ElectionWon(s, peers, i, a, replies[..n]);
      GrantingMore(replies);
      CountMeans(Counted(StartElection(s), a, replies[..n]), replies[n].0, a, replies[n].1);
      hide HandleVoteReply, StartElection;
      if n == 0 {
        assert Granting(replies[..n]) == {};
      }
    }
  }

  // ----- what a leader sends -----

  /** A peer whose next entry is compacted is sent the snapshot, any other the rest of the log with
      the index and term of the entry before it. */
  lemma SendMeans(s: Server, peers: nat, i: nat, p: nat)
    requires IndicesOk(s, peers, i) && p < peers && 0 <= s.nextIndex[p] <= |FullLog(s)|
    ensures s.nextIndex[p] <= RealLogLen(s)
    ensures var log, next := FullLog(s), s.nextIndex[p];
            MessageTo(s, p) ==
            if next <= s.lastIncludedIndex
            then InstallRequest(i, p, InstallSnapshotArgs(s.currentTerm, i, s.lastIncludedIndex,
                                                          log[s.lastIncludedIndex].term,
                                                          log[..s.lastIncludedIndex + 1]))
            else AppendRequest(i, p, AppendEntriesArgs(s.currentTerm, i, next - 1, log[next - 1].term, log[next..],
                                                       s.commitIndex))
  {
    FullLogView(s, peers, i);
    if s.nextIndex[p] > s.lastIncludedIndex {
      assert FullLog(s)[s.nextIndex[p]..] == s.logs[LogIndex(s, s.nextIndex[p])..];
    }
  }

  /** A leader that is given a command has it at the end of its log, on disk, and counts itself. */
  lemma StartMeans(s: Server, peers: nat, i: nat, cmd: Command)
    requires IndicesOk(s, peers, i)
    ensures s.role != Leader ==> Start(s, cmd) == s
    ensures s.role == Leader ==>
              var s', log := Start(s, cmd), FullLog(s);
              && |s'.logs| >= 1 && FullLog(s') == log + [LogEntry(s.currentTerm, cmd)]
              && s' == s.(logs := s'.logs, disk := s'.disk, nextIndex := s.nextIndex[i := |log| + 1],
                          matchIndex := s.matchIndex[i := |log|])
              && s'.disk.Some? && s'.disk.value.status.logs == s'.logs && SavedTerm(s') == s.currentTerm
  {
    FullLogView(s, peers, i);
  }

  // ----- commit counting -----

  ghost predicate HeldByMajority(s: Server, n: int)
    requires |s.matchIndex| == s.peers
  {
    2 * |Holders(s.matchIndex, n, s.peers)| > s.peers
  }

  /** Index `n` holds an entry of the current term that a majority has. */
  ghost predicate MayCommit(s: Server, n: int)
    requires Shape(s) && 0 <= n < |FullLog(s)|
  {
    FullLog(s)[n].term == s.currentTerm && HeldByMajority(s, n)
  }

  /** The commit index moved to the greatest such index above it, or stayed if there is none. */
  ghost predicate CommitsMajority(s: Server, s': Server)
    requires Shape(s)
  {
    var n := s'.commitIndex;
    && s' == s.(commitIndex := n)
    && (n == s.commitIndex || (s.commitIndex < n < |FullLog(s)| && MayCommit(s, n)))
    && (forall k :: s.commitIndex < k < |FullLog(s)| && MayCommit(s, k) ==> k <= n)
  }

  lemma CommitMeans(s: Server)
    requires Shape(s)
    ensures CommitsMajority(s, CheckAndCommitLogs(s))
  {
    hide CommitScan, CountMatching, Holders;
    CommitScanResult(s, s.commitIndex + 1, s.commitIndex);
    forall k | s.commitIndex < k < RealLogLen(s) ensures Committable(s, k) <==> MayCommit(s, k) {
      CountHolders(s.matchIndex, k, s.peers);
    }
  }

  // ----- replies to a leader -----

  /** Peer `p` is known to hold index `n`: its indices rise to it and never fall, no other peer's move. */
  ghost predicate Advances(s: Server, s': Server, p: nat, n: int)
    requires Shape(s) && Shape(s') && s'.peers == s.peers && p < s.peers
  {
    && s'.matchIndex[p] >= n && s'.matchIndex[p] >= s.matchIndex[p]
    && (s'.matchIndex[p] == n || s'.matchIndex[p] == s.matchIndex[p])
    && s'.nextIndex[p] > n && s'.nextIndex[p] >= s.nextIndex[p]
    && (s'.nextIndex[p] == n + 1 || s'.nextIndex[p] == s.nextIndex[p])
    && forall q :: 0 <= q < s.peers && q != p ==>
         s'.matchIndex[q] == s.matchIndex[q] && s'.nextIndex[q] == s.nextIndex[q]
  }

  ghost predicate StepsDown(s: Server, s': Server, term: nat) {
    && s' == s.(currentTerm := term, role := Follower, disk := s'.disk)
    && SavedTerm(s') == term && SavedVote(s') == s.votedFor
  }

  lemma InstallReplyMeans(s: Server, p: nat, a: InstallSnapshotArgs, r: InstallSnapshotReply)
    requires Shape(s) && p < s.peers
    ensures var s' := HandleInstallReply(s, p, a, r);
            if s.role != Leader || s.currentTerm != a.term then s' == s
            else if r.term > s.currentTerm then StepsDown(s, s', r.term)
            else
              && s' == s.(nextIndex := s'.nextIndex, matchIndex := s'.matchIndex)
              && Shape(s') && Advances(s, s', p, a.lastIncludedIndex)
  {
  }

  /** The leader before it looks for something to commit. */
  ghost predicate Acknowledged(s: Server, s1: Server, p: nat, n: int)
    requires Shape(s) && p < s.peers
  {
    && s1 == s.(nextIndex := s1.nextIndex, matchIndex := s1.matchIndex)
    && |s1.nextIndex| == |s1.matchIndex| == s.peers && Advances(s, s1, p, n)
  }

  ghost predicate AcknowledgedThenCommits(s: Server, s': Server, p: nat, n: int)
    requires Shape(s) && p < s.peers
  {
    var s1 := s.(nextIndex := s'.nextIndex, matchIndex := s'.matchIndex);
    Acknowledged(s, s1, p, n) && CommitsMajority(s1, s')
  }

  lemma AppendReplyMeans(s: Server, p: nat, a: AppendEntriesArgs, r: AppendEntriesReply)
    requires Shape(s) && p < s.peers
    ensures var s' := HandleAppendReply(s, p, a, r);
            if s.role != Leader || s.currentTerm != a.term then s' == s
            else if r.term > s.currentTerm then StepsDown(s, s', r.term)
            else if r.success then AcknowledgedThenCommits(s, s', p, a.prevLogIndex + |a.entries|)
            else BacksUp(s, s', p, r)
  {
    hide CheckAndCommitLogs, CommitsMajority, FindNextIndex, BacksUp;
    if s.role == Leader && s.currentTerm == a.term && r.term <= s.currentTerm {
      if r.success {
        var n := a.prevLogIndex + |a.entries|;
        var s1 := Matched(s, p, n);
        CommitMeans(s1);
        CommitsOnly(s1, CheckAndCommitLogs(s1));
        assert Acknowledged(s, s1, p, n);
      } else {
        BackupMeans(s, p, r);
      }
    }
  }

  lemma CommitsOnly(s: Server, s': Server)
    requires Shape(s) && CommitsMajority(s, s')
    ensures s' == s.(commitIndex := s'.commitIndex)
  {
  }

  /** Index `k` of the log that is still in `logs`, or the snapshot point, has that term. */
  ghost predicate HasTerm(s: Server, k: int, term: int)
    requires |s.logs| >= 1
  {
    s.lastIncludedIndex <= k <= LastLogIndex(s) && s.logs[k - s.lastIncludedIndex].term == term
  }

  /** After a rejection: past the follower's log if that is too short; otherwise the leader's last
      index of the conflicting term, or the follower's first if the leader has none. */
  ghost predicate BacksUp(s: Server, s': Server, p: nat, r: AppendEntriesReply)
    requires Shape(s) && p < s.peers
  {
    && |s'.nextIndex| == s.peers
    && var next := s'.nextIndex[p];
    && s' == s.(nextIndex := s.nextIndex[p := next])
    && if r.xTerm == -1 && r.xIndex == -1 then next == r.xLen
       else
         || (HasTerm(s, next, r.xTerm) && forall k :: next < k ==> !HasTerm(s, k, r.xTerm))
         || (next == r.xIndex && forall k :: !HasTerm(s, k, r.xTerm))
  }

  lemma BackupMeans(s: Server, p: nat, r: AppendEntriesReply)
    requires Shape(s) && p < s.peers
    ensures BacksUp(s, FindNextIndex(s, p, r), p, r)
  {
    hide LastOfTerm;
    LastOfTermResult(s.logs, r.xTerm, 0, -1);
  }

  // ----- requests to a follower -----

  /** `log'` is `log` with `entries` from position `at` on: unchanged if it has them all, otherwise
      cut where the first one differs in term or is missing, and continued with the rest. */
  ghost predicate Merges(log: seq<LogEntry>, at: nat, entries: seq<LogEntry>, log': seq<LogEntry>) {
    exists j: nat :: MergesAfter(log, at, entries, log', j)
  }

  ghost predicate MergesAfter(log: seq<LogEntry>, at: nat, entries: seq<LogEntry>, log': seq<LogEntry>, j: nat) {
    && j <= |entries| && at + j <= |log|
    && (forall k :: 0 <= k < j ==> log[at + k].term == entries[k].term)
    && if j == |entries| then log' == log
       else
         && (at + j == |log| || log[at + j].term != entries[j].term)
         && log' == log[..at + j] + entries[j..]
  }

  lemma {:induction false} MergeTail(log: seq<LogEntry>, entries: seq<LogEntry>)
    ensures MergeEntries(log, |log|, entries) == log + entries
    decreases |entries|
  {
    if entries != [] {
      var e := entries[0];
      MergeTail(log + [e], entries[1..]);
      assert entries == [e] + entries[1..];
      assert (log + [e]) + entries[1..] == log + entries;
    } else {
      assert log + entries == log;
    }
  }

  lemma EmptyMerge(log: seq<LogEntry>, at: nat)
    requires at <= |log|
    ensures MergesAfter(log, at, [], log, 0)
  {
  }

  lemma CutMerge(log: seq<LogEntry>, at: nat, entries: seq<LogEntry>)
    requires at <= |log| && entries != [] && (at == |log| || log[at].term != entries[0].term)
    ensures MergesAfter(log, at, entries, log[..at] + entries, 0)
  {
    assert entries[0..] == entries;
  }

  lemma MergesEarlier(log: seq<LogEntry>, at: nat, entries: seq<LogEntry>, log': seq<LogEntry>, j: nat)
    requires at < |log| && entries != [] && log[at].term == entries[0].term
    requires MergesAfter(log, at + 1, entries[1..], log', j)
    ensures MergesAfter(log, at, entries, log', j + 1)
  {
    var rest := entries[1..];
    forall k | 0 <= k < j + 1 ensures log[at + k].term == entries[k].term {
      assert k > 0 ==> entries[k] == rest[k - 1] && log[at + k] == log[at + 1 + (k - 1)];
    }
    assert entries[j + 1..] == rest[j..];
  }

  lemma {:induction false} MergeMeans(log: seq<LogEntry>, at: nat, entries: seq<LogEntry>)
    requires at <= |log|
    ensures Merges(log, at, entries, MergeEntries(log, at, entries))
    decreases |entries|
  {
    hide MergesAfter;
    if entries == [] {
      EmptyMerge(log, at);
    } else {
      var e, rest := entries[0], entries[1..];
      assert entries == [e] + rest;
      var log' := MergeEntries(log, at, entries);
      if at < |log| && log[at].term == e.term {
        MergeMeans(log, at + 1, rest);
        var j: nat :| MergesAfter(log, at + 1, rest, log', j);
        MergesEarlier(log, at, entries, log', j);
      } else {
        var cut := log[..at] + [e];
        MergeTail(cut, rest);
        assert at == |log| ==> log[..at] == log;
        assert cut + rest == log[..at] + entries;
        CutMerge(log, at, entries);
      }
    }
  }

  /** The consistency check: the entry before the new ones is there, not compacted away, and of the
      leader's term. */
  ghost predicate Consistent(s: Server, a: AppendEntriesArgs)
    requires |s.logs| >= 1
  {
    0 <= s.lastIncludedIndex <= a.prevLogIndex < |FullLog(s)| && FullLog(s)[a.prevLogIndex].term == a.prevLogTerm
  }

  /** The start of the run of the term at `hi`, above the commit point; -1 if `hi` is not above it. */
  ghost predicate RunStart(s: Server, hi: int, x: int)
    requires |s.logs| >= 1 && 0 <= hi < |FullLog(s)|
  {
    if hi <= s.commitIndex then x == -1
    else
      && 0 <= s.commitIndex < x <= hi
      && (forall k :: x <= k <= hi ==> FullLog(s)[k].term == FullLog(s)[hi].term)
      && (x - 1 > s.commitIndex ==> FullLog(s)[x - 1].term != FullLog(s)[hi].term)
  }

  ghost predicate Rejects(s: Server, a: AppendEntriesArgs, r: AppendEntriesReply)
    requires |s.logs| >= 1
  {
    var log := FullLog(s);
    && r.term == a.term && !r.success
    && if a.prevLogIndex < s.lastIncludedIndex then r.xTerm == 0 && r.xIndex == 0
       else if a.prevLogIndex >= |log| then r.xTerm == -1 && r.xIndex == -1 && r.xLen == |log|
       else
         && 0 <= a.prevLogIndex < |log| && r.xTerm == log[a.prevLogIndex].term
         && RunStart(s, a.prevLogIndex, r.xIndex)
  }

  ghost predicate Recognises(s: Server, s': Server, term: nat) {
    && s'.currentTerm == term && s'.role == Follower
    && s'.votedFor == if term > s.currentTerm then NO_VOTE else s.votedFor
  }

  /** A request of a current term is accepted exactly if it is consistent; what is merged, what is
      committed, and what a rejection says. */
  lemma AppendMeans(s: Server, peers: nat, i: nat, a: AppendEntriesArgs)
    requires IndicesOk(s, peers, i)
    ensures var (s', r) := AppendEntries(s, a);
            && |s'.logs| >= 1
            && (a.term < s.currentTerm ==> s' == s && !r.success && r.term == s.currentTerm)
            && (a.term >= s.currentTerm ==>
                  && Recognises(s, s', a.term) && r.term == a.term
                  && s' == s.(currentTerm := a.term, role := Follower, votedFor := s'.votedFor, logs := s'.logs,
                              commitIndex := s'.commitIndex, disk := s'.disk)
                  && SavedTerm(s') == a.term && SavedVote(s') == s'.votedFor
                  && s'.disk.Some? && s'.disk.value.status.logs == s'.logs
                  && (r.success <==> Consistent(s, a))
                  && (r.success ==> Takes(s, s', a))
                  && (!r.success ==> s'.logs == s.logs && s'.commitIndex == s.commitIndex && Rejects(s, a, r)))
  {
    hide ConflictScan, MergeEntries, FullLog, Takes, RunStart;
    TermAt(s, peers, i, a.prevLogIndex);
    if a.term >= s.currentTerm {
      if s.lastIncludedIndex <= a.prevLogIndex <= LastLogIndex(s) {
        if Consistent(s, a) {
          TakesEntries(s, peers, i, a);
        } else {
          RejectsConflict(s, peers, i, a);
        }
      }
    }
  }

  ghost predicate Takes(s: Server, s': Server, a: AppendEntriesArgs)
    requires |s.logs| >= 1 && |s'.logs| >= 1
  {
    && a.prevLogIndex >= 0 && Merges(FullLog(s), a.prevLogIndex + 1, a.entries, FullLog(s'))
    && s'.commitIndex ==
       if a.leaderCommit > s.commitIndex then Min(a.leaderCommit, |FullLog(s')| - 1) else s.commitIndex
  }

  lemma TermAt(s: Server, peers: nat, i: nat, k: int)
    requires IndicesOk(s, peers, i)
    ensures |FullLog(s)| == LastLogIndex(s) + 1
    ensures s.lastIncludedIndex <= k <= LastLogIndex(s) ==> FullLog(s)[k].term == s.logs[k - s.lastIncludedIndex].term
  {
  }

  lemma TailAfter(s: Server, k: int)
    requires Shape(s) && s.lastIncludedIndex <= k <= LastLogIndex(s)
    ensures |FullLog(s)| == LastLogIndex(s) + 1 && s.logs[k - s.lastIncludedIndex + 1..] == FullLog(s)[k + 1..]
  {
  }

  lemma MergedLog(s: Server, a: AppendEntriesArgs)
    requires Shape(s) && s.lastIncludedIndex <= a.prevLogIndex
    ensures |Copied(s, a).logs| >= 1
    ensures FullLog(Copied(s, a)) == MergeEntries(FullLog(s), a.prevLogIndex + 1, a.entries)
  {
    hide MergeEntries;
    MergeCompacted(s.snapshot, s.logs, LogIndex(s, a.prevLogIndex) + 1, a.entries);
  }

  lemma AcceptMeans(s: Server, a: AppendEntriesArgs)
    requires Shape(s) && a.term >= s.currentTerm && s.lastIncludedIndex <= a.prevLogIndex <= LastLogIndex(s)
    requires s.logs[LogIndex(s, a.prevLogIndex)].term == a.prevLogTerm && |Copied(s, a).logs| >= 1
    ensures var (s', r) := AppendEntries(s, a);
            && r == AppendEntriesReply(a.term, true, 0, 0, 0)
            && s'.snapshot == s.snapshot && s'.logs == Copied(s, a).logs
            && s'.commitIndex == FollowerCommit(Copied(s, a), a)
  {
    hide MergeEntries, ConflictScan;
  }

  lemma TakesEntries(s: Server, peers: nat, i: nat, a: AppendEntriesArgs)
    requires IndicesOk(s, peers, i) && a.term >= s.currentTerm && Consistent(s, a)
    ensures var (s', r) := AppendEntries(s, a);
            && |s'.logs| >= 1 && r == AppendEntriesReply(a.term, true, 0, 0, 0) && Takes(s, s', a)
  {
    hide MergeEntries, Merges, AppendEntries, Copied;
    TermAt(s, peers, i, a.prevLogIndex);
    MergedLog(s, a);
    CopiedLogs(s, a);
    AcceptMeans(s, a);
    MergeMeans(FullLog(s), a.prevLogIndex + 1, a.entries);
    assert FullLog(AppendEntries(s, a).0) == FullLog(Copied(s, a));
  }

  lemma RejectsConflict(s: Server, peers: nat, i: nat, a: AppendEntriesArgs)
    requires IndicesOk(s, peers, i) && a.term >= s.currentTerm && !Consistent(s, a)
    requires s.lastIncludedIndex <= a.prevLogIndex <= LastLogIndex(s)
    ensures Rejects(s, a, AppendEntries(s, a).1)
  {
    hide ConflictScan, MergeEntries, FullLog;
    var s1, prev := Recognise(s, a.term), a.prevLogIndex;
    TermAt(s, peers, i, prev);
    var t := s.logs[LogIndex(s, prev)].term;
    var x := ConflictScan(s1, prev, t, -1);
    assert AppendEntries(s, a).1 == AppendEntriesReply(a.term, false, t, x, RealLogLen(s));
    ConflictScanRun(s1, prev, t, -1, prev);
    forall k | s.commitIndex < k <= prev ensures FullLog(s)[k].term == s1.logs[LogIndex(s1, k)].term {
      TermAt(s, peers, i, k);
    }
  }

  // ----- compaction and delivery -----

  /** A snapshot of committed entries that are not compacted yet cuts the log there. */
  lemma SnapshotMeans(s: Server, peers: nat, i: nat, index: int, data: seq<LogEntry>)
    requires IndicesOk(s, peers, i)
    ensures var s', log := Snapshot(s, index, data), FullLog(s);
            if s.lastIncludedIndex < index <= s.commitIndex then
              && index < |log|
              && s' == s.(lastIncludedIndex := index, snapshot := data, logs := s'.logs, disk := s'.disk)
              && s'.logs == [LogEntry(log[index].term, NoCommand)] + log[index + 1..]
              && s'.disk.Some? && s'.disk.value.status.logs == s'.logs && s'.disk.value.snapshot == data
              && s'.disk.value.status.lastIncludedIndex == index && SavedTerm(s') == s.currentTerm
            else s' == s
  {
    FullLogView(s, peers, i);
    if s.lastIncludedIndex < index <= s.commitIndex {
      assert s.logs[LogIndex(s, index) + 1..] == FullLog(s)[index + 1..];
    }
  }

  /** The snapshot replaces the log, except for what follows an entry that agrees with it. */
  ghost predicate TakesSnapshot(s: Server, s': Server, a: InstallSnapshotArgs)
    requires |s.logs| >= 1 && a.lastIncludedIndex >= 0
  {
    var log, n := FullLog(s), a.lastIncludedIndex;
    && s' == s.(currentTerm := a.term, role := Follower, votedFor := s'.votedFor, logs := s'.logs,
                lastIncludedIndex := n, commitIndex := n, lastApplied := n, snapshot := a.data, disk := s'.disk)
    && s'.logs == [LogEntry(a.lastIncludedTerm, NoCommand)] +
                  (if n < |log| && log[n].term == a.lastIncludedTerm then log[n + 1..] else [])
    && s'.disk.Some? && s'.disk.value.status.logs == s'.logs && s'.disk.value.snapshot == a.data
    && s'.disk.value.status.lastIncludedIndex == n
    && SavedTerm(s') == a.term && SavedVote(s') == s'.votedFor
  }

  lemma InstalledMeans(s: Server, peers: nat, i: nat, a: InstallSnapshotArgs)
    requires IndicesOk(s, peers, i) && a.lastIncludedIndex > s.commitIndex && a.term >= s.currentTerm
    ensures TakesSnapshot(s, InstallSnapshot(s, a).0, a)
  {
    hide FullLog;
    var n := a.lastIncludedIndex;
    TermAt(s, peers, i, n);
    if n <= LastLogIndex(s) {
      TailAfter(s, n);
    }
  }

  /** Exactly a snapshot past the commit index, of a current term, is installed. */
  lemma InstallMeans(s: Server, peers: nat, i: nat, a: InstallSnapshotArgs)
    requires IndicesOk(s, peers, i)
    ensures var (s', r) := InstallSnapshot(s, a);
            && r.term == s'.currentTerm == Max(s.currentTerm, a.term)
            && (a.term < s.currentTerm ==> s' == s)
            && (a.term >= s.currentTerm ==> Recognises(s, s', a.term))
            && (a.term >= s.currentTerm && a.lastIncludedIndex <= s.commitIndex ==>
                  s' == s.(currentTerm := a.term, role := Follower, votedFor := s'.votedFor))
            && (a.term >= s.currentTerm && a.lastIncludedIndex > s.commitIndex ==> TakesSnapshot(s, s', a))
  {
    hide TakesSnapshot;
    if a.term >= s.currentTerm && a.lastIncludedIndex > s.commitIndex {
      InstalledMeans(s, peers, i, a);
    }
  }

  /** Everything committed is handed over. */
  lemma DeliverMeans(s: Server, peers: nat, i: nat, k: nat)
    requires IndicesOk(s, peers, i)
    ensures var (s', msgs) := Deliver(s);
            && s' == s.(lastApplied := s.commitIndex) && |msgs| == s.commitIndex - s.lastApplied
            && s.commitIndex < |FullLog(s)|
            && (k < |msgs| ==> msgs[k] == ApplyMsg(s.lastApplied + 1 + k, FullLog(s)[s.lastApplied + 1 + k].cmd))
  {
    hide ApplyMsgs, FullLog;
    TermAt(s, peers, i, s.commitIndex);
    assert FullLog(s)[..s.commitIndex + 1] <= FullLog(s);
    DeliveredFrom(s, peers, i, FullLog(s), k);
  }

  /** A restarted server has the log, the term and the vote that it had saved, and starts again from
      its snapshot. */
  lemma RestartMeans(s: Server, peers: nat, i: nat)
    requires IndicesOk(s, peers, i) && DiskOk(s)
    ensures var s' := Restart(i, peers, s.disk);
            && IndicesOk(s', peers, i) && FullLog(s') == FullLog(s) && s'.snapshot == s.snapshot
            && s'.currentTerm == SavedTerm(s) && s'.votedFor == SavedVote(s) && s'.role == Follower
            && s'.commitIndex == s'.lastApplied == s'.lastIncludedIndex == s.lastIncludedIndex && s'.disk == s.disk
  {
    if s.disk.Some? {
      assert Restart(i, peers, s.disk).logs[1..] == s.logs[1..];
    }
  }
}
