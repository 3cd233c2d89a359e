/** The guarantees, over every run. */
module RaftSafety {
  import opened Options
  import opened RaftTypes
  import opened RaftServer
  import opened RaftProtocol
  import opened RaftInvariant
  import opened RaftCompleteness
  import opened RaftStability
  import opened RaftLogs
  import opened RaftRecording
  import opened RaftElections
  import opened RaftReplication
  import opened RaftCompaction

  // ----- every reachable state satisfies the invariant -----

  lemma InitInv(peers: nat)
    ensures Inv(Init(peers))
  {
    var c := Init(peers);
    forall i: nat | i < peers ensures ServerOk(c.hist, peers, c.servers[i], i) {
      assert c.servers[i] == Fresh(i, peers, None);
      assert FullLog(c.servers[i]) == [SENTINEL];
    }
  }

  lemma StepInv(c: System, c': System, step: Step)
    requires Inv(c) && Next(c, c', step)
    ensures Inv(c') && Grows(c.hist, c'.hist)
  {
    hide Inv, Grows, TimeoutStep, VoteStep, CountStep, HeartbeatStep, AppendStep, AppendReplyStep, InstallStep;
    hide InstallReplyStep, StartStep, SnapshotStep, ApplyStep, CrashStep;
    match step
    case ElectionTimeout(i) => TimeoutKeepsInv(c, c', i);
    case ReceiveVoteRequest(i, m) => VoteKeepsInv(c, c', i, m);
    case ReceiveVoteReply(i, m) => ElectionKeepsInv(c, c', i, m);
    case Heartbeat(i) => HeartbeatKeepsInv(c, c', i);
    case ReceiveAppend(i, m) => AppendKeepsInv(c, c', i, m);
    case ReceiveAppendReply(i, m) => AppendReplyKeepsInv(c, c', i, m);
    case ReceiveInstall(i, m) => InstallKeepsInv(c, c', i, m);
    case ReceiveInstallReply(i, m) => InstallReplyKeepsInv(c, c', i, m);
    case ClientStart(i, cmd) => StartKeepsInv(c, c', i, cmd);
    case TakeSnapshot(i, index) => SnapshotKeepsInv(c, c', i, index);
    case Apply(i) => ApplyKeepsInv(c, c', i);
    case Crash(i, vote) => CrashKeepsInv(c, c', i, vote);
  }

  lemma RunStep(peers: nat, run: seq<System>, k: nat) returns (step: Step)
    requires IsRun(peers, run) && k + 1 < |run|
    ensures Next(run[k], run[k + 1], step)
  {
    hide Next;
    assert CanStep(run[k], run[k + 1]);
    step :| Next(run[k], run[k + 1], step);
  }

  lemma {:induction false} RunInv(peers: nat, run: seq<System>, k: nat)
    requires IsRun(peers, run) && k < |run|
    ensures Inv(run[k]) && run[k].peers == peers
    decreases k
  {
    hide Inv, Next;
    if k == 0 {
      InitInv(peers);
    } else {
      RunInv(peers, run, k - 1);
      var step := RunStep(peers, run, k - 1);
      StepInv(run[k - 1], run[k], step);
      StepPeers(run[k - 1], run[k], step);
    }
  }

  lemma StepPeers(c: System, c': System, step: Step)
    requires Next(c, c', step)
    ensures c'.peers == c.peers
  {
  }

  /** Histories only grow along a run. */
  lemma {:induction false} RunGrows(peers: nat, run: seq<System>, a: nat, b: nat)
    requires IsRun(peers, run) && a <= b < |run|
    ensures Grows(run[a].hist, run[b].hist)
    decreases b
  {
    hide IsRun, Inv, Next, Grows, OnlyBy;
    if a < b {
      RunGrows(peers, run, a, b - 1);
      RunInv(peers, run, b - 1);
      var step := RunStep(peers, run, b - 1);
      StepInv(run[b - 1], run[b], step);
      GrowsTransitively(run[a].hist, run[b - 1].hist, run[b].hist);
    } else {
      NothingNew(run[a].hist, 0);
      OnlyByGrows(run[a].hist, run[a].hist, 0);
    }
  }

  lemma RunMessage(peers: nat, run: seq<System>, a: nat, m: Message)
    requires IsRun(peers, run) && a < |run| && m in run[a].net
    ensures MessageOk(run[a].hist, peers, m)
  {
    hide IsRun, MessageOk, ServerOk, HistoryOk;
    RunInv(peers, run, a);
  }

  lemma RunServer(peers: nat, run: seq<System>, a: nat, i: nat)
    requires IsRun(peers, run) && a < |run| && i < peers
    ensures HistoryOk(run[a].hist, peers) && |run[a].servers| == peers
    ensures ServerOk(run[a].hist, peers, run[a].servers[i], i)
  {
    hide IsRun, ServerOk, HistoryOk, MessageOk;
    RunInv(peers, run, a);
  }

  // ----- what one state's server still satisfies under a later history -----

  /** A leader's log, and a log's committed prefix, as a later state's history sees them. */
  lemma SeenLater(peers: nat, run: seq<System>, a: nat, b: nat, i: nat)
    requires IsRun(peers, run) && a <= b < |run| && i < peers
    ensures |run[a].servers| == peers
    ensures var h, s := run[b].hist, run[a].servers[i];
            && HistoryOk(h, peers) && IndicesOk(s, peers, i)
            && LogOk(h, FullLog(s)) && CommitOk(h, peers, FullLog(s), s.commitIndex, s.currentTerm)
            && (s.role == Leader ==>
                  && s.currentTerm in h.leaders && h.leaders[s.currentTerm].leader == i
                  && FullLog(s) <= TermLog(h, s.currentTerm))
  {
    hide IsRun, HistoryOk, AcksOk, CommitOk, LogOk, VotesOk, CandidateOk, DiskOk, TermsAtMost, MatchOk;
    RunServer(peers, run, a, i);
    RunServer(peers, run, b, i);
    RunGrows(peers, run, a, b);
    var s := run[a].servers[i];
    LogOkGrows(run[a].hist, run[b].hist, FullLog(s));
    CommitOkGrows(run[a].hist, run[b].hist, peers, FullLog(s), s.commitIndex, s.currentTerm, s.currentTerm);
  }

  // ----- Election Safety -----

  /** In the whole run a term has at most one leader, crashes and restarts included. */
  lemma ElectionSafety(peers: nat, run: seq<System>, a: nat, b: nat, i: nat, j: nat)
    requires IsRun(peers, run) && a < |run| && b < |run| && i < peers && j < peers
    ensures |run[a].servers| == peers && |run[b].servers| == peers
    ensures var s, s' := run[a].servers[i], run[b].servers[j];
            s.role == Leader && s'.role == Leader && s.currentTerm == s'.currentTerm ==> i == j
  {
    hide IsRun;
    RunInv'(peers, run, a);
    RunInv'(peers, run, b);
    var last := if a <= b then b else a;
    SeenLater(peers, run, a, last, i);
    SeenLater(peers, run, b, last, j);
  }

  lemma RunInv'(peers: nat, run: seq<System>, a: nat)
    requires IsRun(peers, run) && a < |run|
    ensures |run[a].servers| == peers
  {
    RunInv(peers, run, a);
  }

  /** A leader never changes or drops an entry of its log while it leads. */
  lemma LeaderAppendOnly(peers: nat, run: seq<System>, a: nat, b: nat, i: nat)
    requires IsRun(peers, run) && a <= b < |run| && i < peers
    ensures |run[a].servers| == peers && |run[b].servers| == peers
    ensures var s, s' := run[a].servers[i], run[b].servers[i];
            s.role == Leader && s'.role == Leader && s.currentTerm == s'.currentTerm ==>
              |s.logs| >= 1 && |s'.logs| >= 1 && FullLog(s) <= FullLog(s')
  {
    hide IsRun;
    RunInv'(peers, run, a);
    RunInv'(peers, run, b);
    SeenLater(peers, run, a, b, i);
    LeadsItsTerm(peers, run, b, i);
  }

  // ----- Log Matching -----

  /** Logs of any two servers at any two moments: equal terms at an index mean equal prefixes. */
  lemma LogMatchingInRuns(peers: nat, run: seq<System>, a: nat, b: nat, i: nat, j: nat, k: nat)
    requires IsRun(peers, run) && a < |run| && b < |run| && i < peers && j < peers
    ensures |run[a].servers| == peers && |run[b].servers| == peers
    ensures var s, s' := run[a].servers[i], run[b].servers[j];
            && |s.logs| >= 1 && |s'.logs| >= 1
            && (k < |FullLog(s)| && k < |FullLog(s')| && FullLog(s)[k].term == FullLog(s')[k].term ==>
                  FullLog(s)[..k + 1] == FullLog(s')[..k + 1])
  {
    hide IsRun, CommitOk, HistoryOk;
    RunInv'(peers, run, a);
    RunInv'(peers, run, b);
    var last := if a <= b then b else a;
    SeenLater(peers, run, a, last, i);
    SeenLater(peers, run, b, last, j);
    var l, l' := FullLog(run[a].servers[i]), FullLog(run[b].servers[j]);
    if k < |l| && k < |l'| && l[k].term == l'[k].term {
      LogMatching(run[last].hist, l, l', k);
    }
  }

  /** Terms never decrease along any server's log. */
  lemma TermsSortedInRuns(peers: nat, run: seq<System>, a: nat, i: nat, j: nat, k: nat)
    requires IsRun(peers, run) && a < |run| && i < peers
    ensures |run[a].servers| == peers && |run[a].servers[i].logs| >= 1
    ensures j <= k < |FullLog(run[a].servers[i])| ==>
              FullLog(run[a].servers[i])[j].term <= FullLog(run[a].servers[i])[k].term
  {
    hide IsRun, CommitOk;
    RunInv'(peers, run, a);
    SeenLater(peers, run, a, a, i);
    if j <= k < |FullLog(run[a].servers[i])| {
      TermsSorted(run[a].hist, peers, FullLog(run[a].servers[i]), j, k);
    }
  }

  // ----- Leader Completeness -----

  /** What a server counts as committed is in the log of every leader of a later term, whenever
      that server counts it, and in the log of a leader of the same term from then on. */
  lemma LeaderCompletenessInRuns(peers: nat, run: seq<System>, a: nat, b: nat, i: nat, j: nat)
    requires IsRun(peers, run) && a < |run| && b < |run| && i < peers && j < peers
    ensures |run[a].servers| == peers && |run[b].servers| == peers
    ensures var s, leader := run[a].servers[i], run[b].servers[j];
            && |s.logs| >= 1 && |leader.logs| >= 1 && 0 <= s.commitIndex < |FullLog(s)|
            && (&& leader.role == Leader
                && (leader.currentTerm > s.currentTerm || (leader.currentTerm == s.currentTerm && a <= b)) ==>
                  FullLog(s)[..s.commitIndex + 1] <= FullLog(leader))
  {
    hide IsRun, HistoryOk, LogOk, CommitOk, ElectedWith;
    RunInv'(peers, run, a);
    RunInv'(peers, run, b);
    var s, leader := run[a].servers[i], run[b].servers[j];
    var last := if a <= b then b else a;
    SeenLater(peers, run, a, last, i);
    SeenLater(peers, run, b, last, j);
    CommitRange(run[last].hist, peers, FullLog(s), s.commitIndex, s.currentTerm);
    if leader.role == Leader {
      if leader.currentTerm > s.currentTerm {
        ElectedWithCommitted(run[last].hist, peers, FullLog(s), s.commitIndex, s.currentTerm, leader.currentTerm);
        ElectionLogKept(peers, run, b, last, j, FullLog(s)[..s.commitIndex + 1]);
      } else if leader.currentTerm == s.currentTerm && a <= b {
        LeadsItsTerm(peers, run, b, j);
        LeaderHasCommitted(run[b].hist, peers, FullLog(s), s.commitIndex, s.currentTerm, leader.currentTerm);
      }
    }
  }

  lemma CommitRange(h: History, peers: nat, log: seq<LogEntry>, c: int, hi: nat)
    requires CommitOk(h, peers, log, c, hi)
    ensures 0 <= c < |log|
  {
  }

  lemma LeadsItsTerm(peers: nat, run: seq<System>, b: nat, j: nat)
    requires IsRun(peers, run) && b < |run| && j < peers
    ensures |run[b].servers| == peers && |run[b].servers[j].logs| >= 1
    ensures var s, h := run[b].servers[j], run[b].hist;
            s.role == Leader ==>
              && s.currentTerm in h.leaders && h.leaders[s.currentTerm].leader == j
              && TermLog(h, s.currentTerm) == FullLog(s)
  {
    hide IsRun, HistoryOk, LogOk, CommitOk, AcksOk, VotesOk, CandidateOk, TermsAtMost, MatchOk;
    RunServer(peers, run, b, j);
  }

  /** A leader still has what it was elected with. */
  lemma ElectionLogKept(peers: nat, run: seq<System>, b: nat, last: nat, j: nat, prefix: seq<LogEntry>)
    requires IsRun(peers, run) && b <= last < |run| && j < peers
    requires |run[b].servers| == peers && run[b].servers[j].role == Leader
    requires ElectedWith(run[last].hist, run[b].servers[j].currentTerm, prefix)
    ensures |run[b].servers[j].logs| >= 1 && prefix <= FullLog(run[b].servers[j])
  {
    var h, h', s := run[b].hist, run[last].hist, run[b].servers[j];
    var u := s.currentTerm;
    hide IsRun, HistoryOk, ServerOk, LogOk, Majority;
    RunGrows(peers, run, b, last);
    LeadsItsTerm(peers, run, b, j);
    RunServer(peers, run, b, j);
    HistoryLeader(h, peers, u);
    PrefixTransitive(prefix, h.votes[Ballot(j, u)].log, FullLog(s));
  }

  // ----- State Machine Safety -----

  /** No two servers, at any two moments, hold different entries at an index both count as committed. */
  lemma StateMachineSafety(peers: nat, run: seq<System>, a: nat, b: nat, i: nat, j: nat, k: nat)
    requires IsRun(peers, run) && a < |run| && b < |run| && i < peers && j < peers
    ensures |run[a].servers| == peers && |run[b].servers| == peers
    ensures var s, s' := run[a].servers[i], run[b].servers[j];
            && |s.logs| >= 1 && |s'.logs| >= 1
            && (k <= s.commitIndex && k <= s'.commitIndex ==>
                  k < |FullLog(s)| && k < |FullLog(s')| && FullLog(s)[k] == FullLog(s')[k])
  {
    hide IsRun, HistoryOk, LogOk, CommittedAt;
    RunInv'(peers, run, a);
    RunInv'(peers, run, b);
    var last := if a <= b then b else a;
    SeenLater(peers, run, a, last, i);
    SeenLater(peers, run, b, last, j);
    var s, s' := run[a].servers[i], run[b].servers[j];
    CommittedPrefixesAgree(run[last].hist, peers, FullLog(s), s.commitIndex, s.currentTerm,
                           FullLog(s'), s'.commitIndex, s'.currentTerm);
  }

  lemma {:induction false} ApplyMsgsAt(s: Server, from: int, m: ApplyMsg)
    requires Shape(s) && s.lastIncludedIndex < from && s.commitIndex <= LastLogIndex(s)
    requires m in ApplyMsgs(s, from)
    ensures from <= m.index <= s.commitIndex && m.index < |FullLog(s)| && m.cmd == FullLog(s)[m.index].cmd
    decreases s.commitIndex - from
  {
    var head, rest := ApplyMsg(from, s.logs[LogIndex(s, from)].cmd), ApplyMsgs(s, from + 1);
    assert ApplyMsgs(s, from) == [head] + rest;
    if m in rest {
      ApplyMsgsAt(s, from + 1, m);
    }
  }

  /** Commands handed to the service at the same index are the same, on every server, at every time. */
  lemma DeliveriesAgree(peers: nat, run: seq<System>, a: nat, b: nat, i: nat, j: nat)
    requires IsRun(peers, run) && a < |run| && b < |run| && i < peers && j < peers
    ensures |run[a].servers| == peers && |run[b].servers| == peers
    ensures IndicesOk(run[a].servers[i], peers, i) && IndicesOk(run[b].servers[j], peers, j)
    ensures forall m, m' ::
              m in Deliver(run[a].servers[i]).1 && m' in Deliver(run[b].servers[j]).1 && m.index == m'.index ==> m == m'
  {
    hide IsRun, HistoryOk, LogOk, CommitOk;
    RunInv'(peers, run, a);
    RunInv'(peers, run, b);
    SeenLater(peers, run, a, a, i);
    SeenLater(peers, run, b, b, j);
    var s, s' := run[a].servers[i], run[b].servers[j];
    forall m, m' | m in Deliver(s).1 && m' in Deliver(s').1 && m.index == m'.index ensures m == m' {
      ApplyMsgsAt(s, s.lastApplied + 1, m);
      ApplyMsgsAt(s', s'.lastApplied + 1, m');
      StateMachineSafety(peers, run, a, b, i, j, m.index);
    }
  }

  // ----- bookkeeping that the code relies on -----

  /** Indices never leave their ranges: nothing the handlers index is out of bounds, and a leader
      never reaches the panic in its broadcast. */
  lemma IndicesInRuns(peers: nat, run: seq<System>, a: nat, i: nat)
    requires IsRun(peers, run) && a < |run| && i < peers
    ensures |run[a].servers| == peers
    ensures IndicesOk(run[a].servers[i], peers, i)
    ensures run[a].servers[i].role == Leader ==> NextIndexInRange(run[a].servers[i])
  {
    hide IsRun, HistoryOk, LogOk, CommitOk, AcksOk, VotesOk, CandidateOk, TermsAtMost, DiskOk, MatchOk;
    RunServer(peers, run, a, i);
  }

  /** Every AppendEntries request ever sent vouches for the commit index it carries. */
  lemma CommitVouched(peers: nat, run: seq<System>, a: nat, m: Message)
    requires IsRun(peers, run) && a < |run|
    requires m in run[a].net && m.AppendRequest?
    ensures m.aargs.leaderCommit <= m.aargs.prevLogIndex + |m.aargs.entries|
  {
    hide IsRun, CommitOk;
    RunMessage(peers, run, a, m);
  }

  /** Above the leader's commit index, the match index of a peer counts only entries that peer
      acknowledged, and it still has them unless a later leader overwrote them. */
  lemma MatchIndexSound(peers: nat, run: seq<System>, a: nat, i: nat, p: nat, k: nat)
    requires IsRun(peers, run) && a < |run| && i < peers && p < peers
    ensures |run[a].servers| == peers && IndicesOk(run[a].servers[i], peers, i)
    ensures var h, s, peer := run[a].hist, run[a].servers[i], run[a].servers[p];
            s.role == Leader && s.commitIndex < k <= s.matchIndex[p] ==>
              && Ballot(p, s.currentTerm) in h.acks && k <= h.acks[Ballot(p, s.currentTerm)] <= LastLogIndex(s)
              && s.currentTerm in h.leaders && k < |TermLog(h, s.currentTerm)| && |peer.logs| >= 1
              && TermLog(h, s.currentTerm) == FullLog(s)
              && KeepsAck(h, FullLog(peer), SavedTerm(peer), s.currentTerm, k)
  {
    hide IsRun, HistoryOk, LogOk, CommitOk, VotesOk, CandidateOk, TermsAtMost;
    RunServer(peers, run, a, i);
    RunServer(peers, run, a, p);
    var h, s, peer := run[a].hist, run[a].servers[i], run[a].servers[p];
    if s.role == Leader && s.commitIndex < k <= s.matchIndex[p] {
      assert MatchOk(h, s, p);
      HistoryAck(h, peers, Ballot(p, s.currentTerm));
      FullLogView(s, peers, i);
    }
  }

  /** A rejection answered to the current leader moves that peer's next index to or below the probe. */
  lemma BackupProgressInRuns(peers: nat, run: seq<System>, a: nat, i: nat, m: Message)
    requires IsRun(peers, run) && a < |run| && i < peers
    requires m in run[a].net && m.AppendReply? && m.to == i
    ensures |run[a].servers| == peers && IndicesOk(run[a].servers[i], peers, i) && m.from < peers
    ensures var s, a := run[a].servers[i], m.aargs;
            s.role == Leader && s.currentTerm == a.term && m.areply.term == a.term && !m.areply.success ==>
              0 <= HandleAppendReply(s, m.from, a, m.areply).nextIndex[m.from] <= a.prevLogIndex
  {
    hide IsRun, HistoryOk, ServerOk, FindNextIndex, AppendOk, RejectionOk;
    IndicesInRuns(peers, run, a, i);
    RunServer(peers, run, a, i);
    RunMessage(peers, run, a, m);
    var s := run[a].servers[i];
    if s.role == Leader && s.currentTerm == m.aargs.term && m.areply.term == m.aargs.term && !m.areply.success {
      BackupProgress(run[a].hist, peers, s, i, m.from, m.aargs, m.areply);
    }
  }

  /** A granted vote binds the voter's disk from before its reply is sent, for as long as its term
      is the saved one: the disk names the candidate, or nobody else that could be voted for. It
      names the candidate if every restart so far restored the saved vote. */
  lemma VotesDurable(peers: nat, run: seq<System>, a: nat, m: Message)
    requires IsRun(peers, run) && a < |run|
    requires m in run[a].net && m.VoteReply? && m.vreply.voteGranted
    ensures |run[a].servers| == peers && m.from < peers
    ensures var s := run[a].servers[m.from];
            && m.vargs.term <= SavedTerm(s)
            && (m.vargs.term == SavedTerm(s) ==>
                  && (SavedVote(s) == m.to || (SavedVote(s) != NO_VOTE && !IsPeer(peers, m.from, SavedVote(s))))
                  && (run[a].hist.exact ==> SavedVote(s) == m.to))
  {
    hide IsRun, HistoryOk, LogOk, CommitOk, AcksOk, TermsAtMost, LeadingOk, CandidateOk;
    RunMessage(peers, run, a, m);
    RunServer(peers, run, a, m.from);
    assert VotesOk(run[a].hist, run[a].servers[m.from]);
  }

  /** An acknowledged entry is in the log a restart would restore, unless a leader of a later
      term, known to that disk, overwrote it. */
  lemma AcksDurable(peers: nat, run: seq<System>, a: nat, m: Message, k: nat)
    requires IsRun(peers, run) && a < |run|
    requires m in run[a].net && m.AppendReply? && m.areply.success
    requires 1 <= k <= m.aargs.prevLogIndex + |m.aargs.entries|
    ensures |run[a].servers| == peers && m.from < peers
    ensures var h, s, t := run[a].hist, run[a].servers[m.from], m.aargs.term;
            var restored := Restart(m.from, peers, s.disk);
            && |restored.logs| >= 1
            && t in h.leaders && k < |TermLog(h, t)|
            && KeepsAck(h, FullLog(restored), restored.currentTerm, t, k)
  {
    hide IsRun, LogOk, CommitOk, TermsAtMost, HistoryOk, LeadingOk, CandidateOk, VotesOk, RestoreVoting;
    RunMessage(peers, run, a, m);
    RunServer(peers, run, a, m.from);
    var h, s, t := run[a].hist, run[a].servers[m.from], m.aargs.term;
    RestartKeeps(h, peers, s, m.from, SavedVote(s));
    assert KeepsAck(h, FullLog(s), SavedTerm(s), t, k);
  }

  /** One step of the protocol with the vote restored from the saved vote. */
  ghost predicate CanStepExactly(c: System, c': System) {
    exists step ::
      Next(c, c', step) && (step.Crash? && step.i < |c.servers| ==> step.vote == SavedVote(c.servers[step.i]))
  }

  /** In a run whose restarts all restore the saved vote, a granted vote is on disk as it was given. */
  lemma VotesDurableExactly(peers: nat, run: seq<System>, a: nat, m: Message)
    requires IsRun(peers, run) && a < |run| && forall k :: 0 <= k < |run| - 1 ==> CanStepExactly(run[k], run[k + 1])
    requires m in run[a].net && m.VoteReply? && m.vreply.voteGranted
    ensures |run[a].servers| == peers && m.from < peers
    ensures var s := run[a].servers[m.from];
            m.vargs.term <= SavedTerm(s) && (m.vargs.term == SavedTerm(s) ==> SavedVote(s) == m.to)
  {
    hide IsRun, CanStepExactly;
    ExactRun(peers, run, a);
    VotesDurable(peers, run, a, m);
  }

  lemma {:induction false} ExactRun(peers: nat, run: seq<System>, a: nat)
    requires IsRun(peers, run) && a < |run| && forall k :: 0 <= k < |run| - 1 ==> CanStepExactly(run[k], run[k + 1])
    ensures run[a].hist.exact
    decreases a
  {
    hide CanStep;
    if a > 0 {
      ExactRun(peers, run, a - 1);
      assert CanStepExactly(run[a - 1], run[a - 1 + 1]);
      ExactStep(run[a - 1], run[a]);
    }
  }

  lemma ExactStep(c: System, c': System)
    requires CanStepExactly(c, c') && c.hist.exact
    ensures c'.hist.exact
  {
    hide Broadcast, VoteRequests, RequestVote, AppendEntries, InstallSnapshot, HandleAppendReply, HandleInstallReply;
    hide HandleVoteReply, NextIndexInRange, Deliver, Snapshot, StartElection, Persist, Tally, FullLog, Shape, Start;
  }
}
