/** Snapshots, restarts and delivery keep the invariant. */
module RaftCompaction {
  import opened RaftTypes
  import opened RaftServer
  import opened RaftProtocol
  import opened RaftInvariant
  import opened RaftCompleteness
  import opened RaftStability
  import opened RaftLogs
  import opened RaftRecording
  import opened RaftReplication

  // ----- taking a snapshot -----

  lemma SnapshotSlices(s: Server, peers: nat, i: nat, index: int)
    requires IndicesOk(s, peers, i) && s.lastIncludedIndex < index <= s.commitIndex
    ensures index < |FullLog(s)|
    ensures FullLog(s)[index + 1..] == s.logs[LogIndex(s, index) + 1..]
    ensures FullLog(s)[index].term == s.logs[LogIndex(s, index)].term
  {
  }

  /** Compaction does not change the log. */
  lemma SnapshotInvisible(s: Server, peers: nat, i: nat, index: int)
    requires IndicesOk(s, peers, i) && index <= s.lastApplied && 0 <= index < |FullLog(s)|
    ensures var s' := Snapshot(s, index, FullLog(s)[..index + 1]);
            && |s'.logs| >= 1 && FullLog(s') == FullLog(s)
            && IndicesOk(s', peers, i) && LastLogIndex(s') == LastLogIndex(s)
  {
    if s.lastIncludedIndex < index {
      SnapshotSlices(s, peers, i, index);
      var s', log := Snapshot(s, index, FullLog(s)[..index + 1]), FullLog(s);
      assert s'.logs[1..] == s.logs[LogIndex(s, index) + 1..];
      assert log == log[..index + 1] + log[index + 1..];
    }
  }

  /** What taking a snapshot leaves alone. */
  lemma SnapshotFrame(h: History, s: Server, peers: nat, i: nat, index: int, data: seq<LogEntry>)
    requires IndicesOk(s, peers, i) && DiskOk(s) && VotesOk(h, s) && s.lastIncludedIndex < index <= s.commitIndex
    ensures var s' := Snapshot(s, index, data);
            && s' == s.(lastIncludedIndex := index, logs := s'.logs, snapshot := data, disk := s'.disk)
            && |s'.logs| >= 1 && SavedTerm(s') == s.currentTerm && DiskOk(s') && VotesOk(h, s')
  {
  }

  /** A server whose log is represented differently but is the same log. */
  lemma Repacked(h: History, peers: nat, s: Server, s': Server, i: nat)
    requires HistoryOk(h, peers) && ServerOk(h, peers, s, i) && IndicesOk(s', peers, i)
    requires FullLog(s') == FullLog(s) && RealLogLen(s') == RealLogLen(s)
    requires s' == s.(lastIncludedIndex := s'.lastIncludedIndex, logs := s'.logs, snapshot := s'.snapshot,
                      disk := s'.disk)
    requires SavedTerm(s') == s.currentTerm && DiskOk(s') && VotesOk(h, s')
    ensures ServerOk(h, peers, s', i)
  {
    hide HistoryOk, LogOk, AcksOk, CommitOk, Grows, OnlyBy, VotesOk, FullLog;
    NothingNew(h, i);
    OnlyByGrows(h, h, i);
    AcksOkLater(h, h, peers, s.me, FullLog(s), SavedTerm(s), s.currentTerm);
    CommitPrefixOf(h, peers, FullLog(s), s.commitIndex, s'.lastIncludedIndex, s.currentTerm);
    RepackedLeads(h, s, s');
  }

  lemma CommitPrefixOf(h: History, peers: nat, log: seq<LogEntry>, c: int, d: int, hi: nat)
    requires CommitOk(h, peers, log, c, hi) && 0 <= d <= c
    ensures CommitOk(h, peers, log, d, hi)
  {
    CommitOkPrefix(h, peers, log, log, c, d, hi);
  }

  lemma RepackedLeads(h: History, s: Server, s': Server)
    requires Shape(s) && Shape(s') && LeadingOk(h, s) && CandidateOk(h, s)
    requires FullLog(s') == FullLog(s) && RealLogLen(s') == RealLogLen(s)
    requires s' == s.(lastIncludedIndex := s'.lastIncludedIndex, logs := s'.logs, snapshot := s'.snapshot,
                      disk := s'.disk)
    ensures LeadingOk(h, s') && CandidateOk(h, s')
  {
    if s.role == Leader {
      forall p: nat | p < s.peers ensures MatchOk(h, s', p) {
        assert MatchOk(h, s, p);
      }
    }
  }

  lemma SnapshotServer(h: History, peers: nat, s: Server, i: nat, index: int)
    requires HistoryOk(h, peers) && ServerOk(h, peers, s, i)
    requires index <= s.lastApplied && 0 <= index < |FullLog(s)|
    ensures ServerOk(h, peers, Snapshot(s, index, FullLog(s)[..index + 1]), i)
  {
    hide HistoryOk, LogOk, AcksOk, CommitOk, LeadingOk, CandidateOk, TermsAtMost;
    if s.lastIncludedIndex < index {
      var data := FullLog(s)[..index + 1];
      SnapshotInvisible(s, peers, i, index);
      SnapshotFrame(h, s, peers, i, index, data);
      hide ServerOk, DiskOk, VotesOk, Snapshot, FullLog, IndicesOk;
      Repacked(h, peers, s, Snapshot(s, index, data), i);
    }
  }

  lemma SnapshotKeepsInv(c: System, c': System, i: nat, index: int)
    requires Inv(c) && SnapshotStep(c, c', i, index)
    ensures Inv(c') && Grows(c.hist, c'.hist)
  {
    hide Inv, ServerOk, HistoryOk, OnlyBy, Snapshot;
    var s := c.servers[i];
    InvParts(c, i);
    NothingNew(c.hist, i);
    SnapshotServer(c.hist, c.peers, s, i, index);
    InvAfter(c, c', i, Snapshot(s, index, FullLog(s)[..index + 1]), {}, c'.hist);
  }

  // ----- installing a snapshot -----

  /** An installed snapshot keeps the log as it is when the snapshot point matches, and replaces
      it by the snapshot's prefix otherwise. */
  lemma InstallLog(h: History, peers: nat, s: Server, i: nat, a: InstallSnapshotArgs)
    requires IndicesOk(s, peers, i) && LogOk(h, FullLog(s))
    requires a.term in h.leaders && LogOk(h, TermLog(h, a.term)) && 0 <= a.lastIncludedIndex < |TermLog(h, a.term)|
    requires a.data == TermLog(h, a.term)[..a.lastIncludedIndex + 1]
    requires a.lastIncludedTerm == TermLog(h, a.term)[a.lastIncludedIndex].term
    requires !IgnoresSnapshot(s, a)
    ensures var s' := Install(s, a, KeepsTail(s, a));
            && |s'.logs| >= 1 && IndicesOk(s', peers, i)
            && (KeepsTail(s, a) ==> FullLog(s') == FullLog(s) && a.data <= FullLog(s))
            && (!KeepsTail(s, a) ==>
                  FullLog(s') == a.data && Replaces(FullLog(s), TermLog(h, a.term), a.lastIncludedIndex + 1))
  {
    FullLogView(s, peers, i);
    var s' := Install(s, a, KeepsTail(s, a));
    var log, target, m := FullLog(s), TermLog(h, a.term), a.lastIncludedIndex + 1;
    if KeepsTail(s, a) {
      LogMatching(h, log, target, a.lastIncludedIndex);
      InstallKeepsLog(s, peers, i, a);
    } else {
      assert s'.logs[1..] == [];
      assert FullLog(s') == a.data;
      assert log[..1] == [SENTINEL] == target[..1];
      hide LogOk;
      Compare(log, target, m, 1);
    }
  }

  lemma InstallKeepsLog(s: Server, peers: nat, i: nat, a: InstallSnapshotArgs)
    requires IndicesOk(s, peers, i) && KeepsTail(s, a)
    requires a.lastIncludedIndex + 1 <= |FullLog(s)| && a.data == FullLog(s)[..a.lastIncludedIndex + 1]
    ensures var s' := Install(s, a, true); |s'.logs| >= 1 && FullLog(s') == FullLog(s)
  {
    var s' := Install(s, a, true);
    var at := LogIndex(s, a.lastIncludedIndex);
    assert s'.logs[1..] == s.logs[at + 1..];
    assert FullLog(s)[a.lastIncludedIndex + 1..] == s.logs[at + 1..];
  }

  lemma InstallKept(h: History, peers: nat, s: Server, i: nat, a: InstallSnapshotArgs)
    requires HistoryOk(h, peers) && ServerOk(h, peers, s, i) && s.currentTerm == a.term
    requires a.term in h.leaders && InstallOk(h, peers, h.leaders[a.term].leader, a) && !IgnoresSnapshot(s, a)
    ensures var s' := Install(s, a, KeepsTail(s, a));
            && |s'.logs| >= 1 && IndicesOk(s', peers, i)
            && LogKept(h, peers, s, FullLog(s'), a.term)
            && CommitOk(h, peers, FullLog(s'), a.lastIncludedIndex, a.term)
  {
    hide HistoryOk, LogOk, AcksOk, CommitOk, LeadingOk, CandidateOk, VotesOk, LogKept, DiskOk, TermsAtMost, Replaces;
    hide Install;
    LeaderOf(h, peers, a.term);
    InstallLog(h, peers, s, i, a);
    var log' := FullLog(Install(s, a, KeepsTail(s, a)));
    if KeepsTail(s, a) {
      UnchangedKept(h, peers, s, i, a.term);
    } else {
      ReplacedKept(h, peers, s, i, a.term, a.lastIncludedIndex + 1);
    }
    assert log'[..a.lastIncludedIndex + 1] == a.data;
    CommitOkPrefix(h, peers, TermLog(h, a.term), log', a.lastIncludedIndex, a.lastIncludedIndex, a.term);
  }

  lemma InstalledServer(h: History, peers: nat, s: Server, s': Server, i: nat)
    requires ServerOk(h, peers, s, i) && s.role == Follower && IndicesOk(s', peers, i)
    requires |s'.logs| >= 1
    requires s' == Persist(s.(logs := s'.logs, lastIncludedIndex := s'.lastIncludedIndex, commitIndex := s'.commitIndex,
                           lastApplied := s'.lastApplied, snapshot := s'.snapshot))
    requires LogOk(h, FullLog(s')) && TermsAtMost(FullLog(s'), s.currentTerm)
    requires AcksOk(h, i, FullLog(s'), s.currentTerm)
    requires CommitOk(h, peers, FullLog(s'), s'.commitIndex, s.currentTerm)
    requires CommitOk(h, peers, FullLog(s'), s'.lastIncludedIndex, s.currentTerm)
    ensures ServerOk(h, peers, s', i)
  {
    hide LogOk, AcksOk, CommitOk, LeadingOk, TermsAtMost;
    NotLeading(h, s');
  }

  lemma InstallServer(h: History, peers: nat, s: Server, i: nat, a: InstallSnapshotArgs)
    requires HistoryOk(h, peers) && ServerOk(h, peers, s, i)
    requires a.term in h.leaders && InstallOk(h, peers, h.leaders[a.term].leader, a)
    ensures ServerOk(h, peers, InstallSnapshot(s, a).0, i)
  {
    hide HistoryOk, LogOk, AcksOk, CommitOk, LeadingOk, CandidateOk, VotesOk, TermsAtMost, DiskOk, InstallOk;
    if a.term >= s.currentTerm {
      var s1 := Recognise(s, a.term);
      RecogniseServer(h, peers, s, i, a.term);
      if !IgnoresSnapshot(s1, a) {
        InstallKept(h, peers, s1, i, a);
        var s' := Install(s1, a, KeepsTail(s1, a));
        hide ServerOk, IndicesOk;
        InstalledServer(h, peers, s1, s', i);
      }
    }
  }

  lemma InstallKeepsInv(c: System, c': System, i: nat, m: Message)
    requires Inv(c) && InstallStep(c, c', i, m)
    ensures Inv(c') && Grows(c.hist, c'.hist)
  {
    hide Inv, ServerOk, HistoryOk, OnlyBy, InstallSnapshot, CommitOk;
    var s := c.servers[i];
    InvParts(c, i);
    InvMessage(c, m);
    var (s', r) := InstallSnapshot(s, m.iargs);
    NothingNew(c.hist, i);
    InstallServer(c.hist, c.peers, s, i, m.iargs);
    assert MessageOk(c.hist, c.peers, InstallReply(i, m.from, m.iargs, r));
    hide MessageOk;
    InvAfter(c, c', i, s', {InstallReply(i, m.from, m.iargs, r)}, c'.hist);
  }

  /** A snapshot reply raises the match index only up to the sender's commit point. */
  lemma InstallReplyServer(h: History, peers: nat, s: Server, i: nat, m: Message)
    requires HistoryOk(h, peers) && ServerOk(h, peers, s, i)
    requires MessageOk(h, peers, m) && m.InstallReply? && m.to == i && m.from < s.peers
    ensures ServerOk(h, peers, HandleInstallReply(s, m.from, m.iargs, m.ireply), i)
  {
    hide HistoryOk, LogOk, AcksOk, CommitOk, TermsAtMost, CandidateOk, VotesOk, DiskOk;
    var a, r := m.iargs, m.ireply;
    if s.currentTerm == a.term && s.role == Leader {
      FullLogView(s, peers, i);
      if r.term > s.currentTerm {
        StepDownServer(h, peers, s, i, r.term);
      } else {
        SnapshotMatched(h, peers, s, i, m.from, a.lastIncludedIndex);
      }
    }
  }

  lemma SnapshotMatched(h: History, peers: nat, s: Server, i: nat, peer: nat, m: int)
    requires ServerOk(h, peers, s, i) && s.role == Leader && peer < peers
    requires 0 <= m <= LastLogIndex(s)
    requires m <= s.commitIndex
    ensures ServerOk(h, peers, Matched(s, peer, m), i)
  {
    hide ServerOk;
    MatchedServer(h, peers, s, i, peer, m);
  }

  lemma InstallReplyKeepsInv(c: System, c': System, i: nat, m: Message)
    requires Inv(c) && InstallReplyStep(c, c', i, m)
    ensures Inv(c') && Grows(c.hist, c'.hist)
  {
    hide Inv, ServerOk, HistoryOk, OnlyBy, HandleInstallReply, MessageOk;
    InvParts(c, i);
    InvMessage(c, m);
    NothingNew(c.hist, i);
    InstallReplyServer(c.hist, c.peers, c.servers[i], i, m);
    InvAfter(c, c', i, HandleInstallReply(c.servers[i], m.from, m.iargs, m.ireply), {}, c'.hist);
  }

  // ----- restarting -----

  /** A restart forgets what was volatile and nothing that was recorded. */
  lemma RestartKeeps(h: History, peers: nat, s: Server, i: nat, vote: int)
    requires IndicesOk(s, peers, i) && DiskOk(s) && VotesOk(h, s) && SafeVote(i, peers, s.disk, vote)
    ensures var s' := RestoreVoting(i, peers, s.disk, vote);
            && IndicesOk(s', peers, i) && DiskOk(s') && VotesOk(RecordRestart(h, s.disk, vote), s')
            && FullLog(s') == FullLog(s) && SavedTerm(s') == s'.currentTerm == SavedTerm(s)
            && s'.role == Follower && s'.lastIncludedIndex == s'.commitIndex == s.lastIncludedIndex
  {
  }

  lemma RestartServer(h: History, h': History, peers: nat, s: Server, i: nat, vote: int)
    requires HistoryOk(h, peers) && ServerOk(h, peers, s, i) && SafeVote(i, peers, s.disk, vote)
    requires h' == RecordRestart(h, s.disk, vote) && Grows(h, h')
    ensures ServerOk(h', peers, RestoreVoting(i, peers, s.disk, vote), i)
  {
    hide HistoryOk, LogOk, AcksOk, CommitOk, TermsAtMost, VotesOk, DiskOk, LeadingOk, RestoreVoting, SafeVote, Grows;
    RestartKeeps(h, peers, s, i, vote);
    var s' := RestoreVoting(i, peers, s.disk, vote);
    LogOkGrows(h, h', FullLog(s));
    AcksOkLater(h, h', peers, s.me, FullLog(s), SavedTerm(s), SavedTerm(s));
    CommitOkGrows(h, h', peers, FullLog(s), s.lastIncludedIndex, SavedTerm(s), SavedTerm(s));
    NotLeading(h', s');
  }

  lemma CrashKeepsInv(c: System, c': System, i: nat, vote: int)
    requires Inv(c) && CrashStep(c, c', i, vote)
    ensures Inv(c') && Grows(c.hist, c'.hist)
  {
    hide Inv, ServerOk, HistoryOk, OnlyBy, RestoreVoting, SafeVote;
    InvParts(c, i);
    var s := c.servers[i];
    RestartRecorded(c.hist, c.peers, s.disk, vote, i);
    OnlyByGrows(c.hist, c'.hist, i);
    RestartServer(c.hist, c'.hist, c.peers, s, i, vote);
    InvAfter(c, c', i, RestoreVoting(i, c.peers, s.disk, vote), {}, c'.hist);
  }

  // ----- delivery -----

  lemma DeliverServer(h: History, peers: nat, s: Server, i: nat)
    requires ServerOk(h, peers, s, i)
    ensures ServerOk(h, peers, Deliver(s).0, i)
  {
    hide LogOk, AcksOk, CommitOk, TermsAtMost, VotesOk, LeadingOk;
    DeliverFrame(h, s);
  }

  lemma DeliverFrame(h: History, s: Server)
    requires Shape(s) && s.commitIndex <= LastLogIndex(s) && s.lastIncludedIndex <= s.lastApplied
    requires LeadingOk(h, s) && VotesOk(h, s)
    ensures LeadingOk(h, Deliver(s).0) && VotesOk(h, Deliver(s).0)
    ensures FullLog(Deliver(s).0) == FullLog(s)
  {
    if s.role == Leader {
      forall p: nat | p < s.peers ensures MatchOk(h, Deliver(s).0, p) {
        assert MatchOk(h, s, p);
      }
    }
  }

  lemma ApplyKeepsInv(c: System, c': System, i: nat)
    requires Inv(c) && ApplyStep(c, c', i)
    ensures Inv(c') && Grows(c.hist, c'.hist)
  {
    hide Inv, ServerOk, HistoryOk, OnlyBy, Deliver;
    InvParts(c, i);
    NothingNew(c.hist, i);
    DeliverServer(c.hist, c.peers, c.servers[i], i);
    InvAfter(c, c', i, Deliver(c.servers[i]).0, {}, c'.hist);
  }
}
