/** What a service built on Raft may rely on: one committed log that only grows, whose entries
    were all proposed, and of which every server hands over consecutive pieces. */
module RaftCommitted {
  import opened Options
  import opened RaftTypes
  import opened RaftServer
  import opened RaftProtocol
  import opened RaftInvariant
  import opened RaftCompleteness
  import opened RaftStability
  import opened RaftLogs
  import opened RaftRecording
  import opened RaftSafety

  // ----- the committed log, state by state -----

  /** What a server counts as committed. */
  ghost function CommitPrefix(s: Server): seq<LogEntry> {
    if |s.logs| >= 1 && 0 <= s.commitIndex < |FullLog(s)| then FullLog(s)[..s.commitIndex + 1] else []
  }

  ghost function Longer(a: seq<LogEntry>, b: seq<LogEntry>): seq<LogEntry> {
    if |a| >= |b| then a else b
  }

  ghost function LongestOf(servers: seq<Server>): seq<LogEntry>
    decreases |servers|
  {
    if servers == [] then [] else Longer(LongestOf(servers[..|servers| - 1]), CommitPrefix(servers[|servers| - 1]))
  }

  lemma {:induction false} LongestIs(servers: seq<Server>)
    ensures LongestOf(servers) == [] || exists i :: 0 <= i < |servers| && LongestOf(servers) == CommitPrefix(servers[i])
    ensures forall i :: 0 <= i < |servers| ==> |CommitPrefix(servers[i])| <= |LongestOf(servers)|
    decreases |servers|
  {
    hide CommitPrefix;
    if servers != [] {
      var n := |servers| - 1;
      LongestIs(servers[..n]);
      forall i | 0 <= i < |servers| ensures |CommitPrefix(servers[i])| <= |LongestOf(servers)| {
        assert i < n ==> servers[..n][i] == servers[i];
      }
      assert LongestOf(servers) == LongestOf(servers[..n]) || LongestOf(servers) == CommitPrefix(servers[n]);
      if LongestOf(servers) == LongestOf(servers[..n]) != [] {
        var i :| 0 <= i < n && LongestOf(servers[..n]) == CommitPrefix(servers[..n][i]);
        assert servers[..n][i] == servers[i];
      }
    }
  }

  ghost predicate CommittedBy(h: History, peers: nat, log: seq<LogEntry>, hi: nat) {
    CommitOk(h, peers, log, |log| - 1, hi)
  }

  /** All of `log` is committed, in some term. */
  ghost predicate Agreed(h: History, peers: nat, log: seq<LogEntry>) {
    LogOk(h, log) && exists hi: nat :: CommittedBy(h, peers, log, hi)
  }

  /** `log` is committed and no server counts more as committed. */
  ghost predicate Upholds(c: System, log: seq<LogEntry>) {
    && Agreed(c.hist, c.peers, log)
    && forall i :: 0 <= i < |c.servers| ==> CommitPrefix(c.servers[i]) <= log
  }

  /** Of two committed logs, one extends the other. */
  lemma AgreedComparable(h: History, peers: nat, a: seq<LogEntry>, b: seq<LogEntry>)
    requires HistoryOk(h, peers) && Agreed(h, peers, a) && Agreed(h, peers, b) && |a| <= |b|
    ensures a <= b
  {
    hide HistoryOk, LogOk, CommitOk;
    var hiA: nat :| CommittedBy(h, peers, a, hiA);
    var hiB: nat :| CommittedBy(h, peers, b, hiB);
    CommittedPrefixesAgree(h, peers, a, |a| - 1, hiA, b, |b| - 1, hiB);
  }

  lemma AgreedGrows(h: History, h': History, peers: nat, log: seq<LogEntry>)
    requires Agreed(h, peers, log) && Grows(h, h')
    ensures Agreed(h', peers, log)
  {
    hide LogOk, CommitOk, Grows;
    LogOkGrows(h, h', log);
    var hi: nat :| CommittedBy(h, peers, log, hi);
    CommitOkGrows(h, h', peers, log, |log| - 1, hi, hi);
    assert CommittedBy(h', peers, log, hi);
  }

  lemma PrefixAgreed(h: History, peers: nat, s: Server, i: nat)
    requires ServerOk(h, peers, s, i)
    ensures CommitPrefix(s) == FullLog(s)[..s.commitIndex + 1] && Agreed(h, peers, CommitPrefix(s))
  {
    hide LogOk, AcksOk, VotesOk, CandidateOk, LeadingOk, DiskOk, TermsAtMost, CommitOk;
    FullLogView(s, peers, i);
    var log, n := FullLog(s), s.commitIndex + 1;
    LogOkPrefix(h, log, n);
    assert log[..n][..n] == log[..n];
    CommitOkPrefix(h, peers, log, log[..n], s.commitIndex, s.commitIndex, s.currentTerm);
    assert CommittedBy(h, peers, log[..n], s.currentTerm);
  }

  lemma InitUpholds(peers: nat)
    ensures Upholds(Init(peers), [SENTINEL])
  {
    var c := Init(peers);
    forall i | 0 <= i < |c.servers| ensures CommitPrefix(c.servers[i]) <= [SENTINEL] {
      assert c.servers[i] == Fresh(i, peers, None);
      assert FullLog(c.servers[i]) == [SENTINEL];
    }
    assert CommittedBy(c.hist, peers, [SENTINEL], 0);
  }

  /** A step may only extend the committed log. */
  lemma StepUpholds(c: System, c': System, step: Step, log: seq<LogEntry>)
    requires Inv(c) && Next(c, c', step) && Upholds(c, log)
    ensures Inv(c') && log <= Longer(log, LongestOf(c'.servers)) && Upholds(c', Longer(log, LongestOf(c'.servers)))
  {
    hide Inv, Next, Agreed, CommitPrefix, LongestOf, Grows;
    StepInv(c, c', step);
    StepPeers(c, c', step);
    var h, peers := c'.hist, c.peers;
    AgreedGrows(c.hist, h, peers, log);
    HistoryIs(c');
    forall i: nat | i < |c'.servers| ensures Agreed(h, peers, CommitPrefix(c'.servers[i])) {
      InvParts(c', i);
      PrefixAgreed(h, peers, c'.servers[i], i);
    }
    LongestIs(c'.servers);
    var log' := Longer(log, LongestOf(c'.servers));
    assert Agreed(h, peers, log');
    AgreedComparable(h, peers, log, log');
    forall i | 0 <= i < |c'.servers| ensures CommitPrefix(c'.servers[i]) <= log' {
      AgreedComparable(h, peers, CommitPrefix(c'.servers[i]), log');
    }
  }

  lemma HistoryIs(c: System)
    requires Inv(c)
    ensures HistoryOk(c.hist, c.peers) && |c.servers| == c.peers
  {
  }

  /** What a server counts as committed, its snapshot included, is in the committed log. */
  lemma ServerUpheld(c: System, log: seq<LogEntry>, i: nat)
    requires Inv(c) && Upholds(c, log) && i < |c.servers|
    ensures IndicesOk(c.servers[i], c.peers, i)
    ensures FullLog(c.servers[i])[..c.servers[i].commitIndex + 1] <= log
    ensures c.servers[i].snapshot <= log
  {
    hide Inv, Agreed, HistoryOk, LogOk, AcksOk, VotesOk, CandidateOk, LeadingOk, DiskOk, TermsAtMost, CommitOk;
    InvParts(c, i);
    var s := c.servers[i];
    PrefixAgreed(c.hist, c.peers, s, i);
    FullLogView(s, c.peers, i);
    assert s.snapshot == CommitPrefix(s)[..s.lastIncludedIndex + 1];
  }

  // ----- delivery -----

  lemma {:induction false} ApplyMsgsInOrder(s: Server, first: int, k: nat)
    requires Shape(s) && s.lastIncludedIndex < first && s.commitIndex <= LastLogIndex(s)
    ensures |ApplyMsgs(s, first)| == Max(s.commitIndex - first + 1, 0)
    ensures k < |ApplyMsgs(s, first)| ==>
              ApplyMsgs(s, first)[k] == ApplyMsg(first + k, s.logs[LogIndex(s, first + k)].cmd)
    decreases s.commitIndex - first
  {
    if first <= s.commitIndex {
      ApplyMsgsInOrder(s, first + 1, if k > 0 then k - 1 else 0);
    }
  }

  /** A committed entry that is still in `logs` is the one of the committed log. */
  lemma EntryCommitted(s: Server, peers: nat, i: nat, log: seq<LogEntry>, j: int)
    requires IndicesOk(s, peers, i) && FullLog(s)[..s.commitIndex + 1] <= log
    ensures s.commitIndex < |log|
    ensures s.lastIncludedIndex < j <= s.commitIndex ==> s.logs[LogIndex(s, j)] == log[j]
  {
    hide FullLog, LastLogTerm;
    FullLogView(s, peers, i);
    if s.lastIncludedIndex < j <= s.commitIndex {
      assert log[j] == FullLog(s)[..s.commitIndex + 1][j] == FullLog(s)[j];
    }
  }

  lemma DeliveredFrom(s: Server, peers: nat, i: nat, log: seq<LogEntry>, k: nat)
    requires IndicesOk(s, peers, i) && FullLog(s)[..s.commitIndex + 1] <= log
    ensures var (s', msgs) := Deliver(s);
            && s'.lastApplied == s.commitIndex < |log| && |msgs| == s'.lastApplied - s.lastApplied
            && (k < |msgs| ==> msgs[k] == ApplyMsg(s.lastApplied + 1 + k, log[s.lastApplied + 1 + k].cmd))
  {
    hide ApplyMsgs, FullLog;
    ApplyMsgsInOrder(s, s.lastApplied + 1, k);
    EntryCommitted(s, peers, i, log, s.lastApplied + 1 + k);
  }

  // ----- proposed commands -----

  /** Every command of the log, after the empty first entry, is one of `cmds`. */
  ghost predicate Within(log: seq<LogEntry>, cmds: iset<Command>) {
    forall k :: 1 <= k < |log| ==> log[k].cmd in cmds
  }

  ghost predicate LeadersWithin(h: History, cmds: iset<Command>) {
    forall term :: term in h.leaders ==> Within(TermLog(h, term), cmds)
  }

  /** The command a step makes a leader accept, if any. */
  ghost function Accepts(c: System, step: Step): iset<Command> {
    if step.ClientStart? && step.i < |c.servers| && c.servers[step.i].role == Leader then iset{step.cmd} else iset{}
  }

  /** A leader's log after a step is the one before, a server's, or a leader's with a new command. */
  ghost predicate LogFrom(c: System, c': System, step: Step, term: nat)
    requires term in c'.hist.leaders
  {
    var log := TermLog(c'.hist, term);
    || (term in c.hist.leaders && log == TermLog(c.hist, term))
    || (exists i: nat :: i < |c.servers| && |c.servers[i].logs| >= 1 && log == FullLog(c.servers[i]))
    || (&& step.ClientStart? && step.i < |c.servers|
        && |c.servers[step.i].logs| >= 1 && c.servers[step.i].role == Leader
        && log == FullLog(c.servers[step.i]) + [LogEntry(c.servers[step.i].currentTerm, step.cmd)])
  }

  lemma StepLogs(c: System, c': System, step: Step, term: nat)
    requires Next(c, c', step) && term in c'.hist.leaders
    ensures LogFrom(c, c', step, term)
  {
    hide Shape, FullLog, Broadcast, VoteRequests, RequestVote, AppendEntries, InstallSnapshot, HandleAppendReply;
    hide HandleInstallReply, HandleVoteReply, NextIndexInRange, Deliver, RestoreVoting, Snapshot, StartElection;
    hide Persist, Tally;
    match step
    case ReceiveVoteReply(i, m) => assert i < |c.servers| && |c.servers[i].logs| >= 1 by { ShapeLogs(c.servers[i]); }
    case ClientStart(i, cmd) => StartLogs(c, c', i, cmd, term);
    case _ =>
  }

  lemma ShapeLogs(s: Server)
    requires Shape(s)
    ensures |s.logs| >= 1
  {
  }

  lemma StartLogs(c: System, c': System, i: nat, cmd: Command, term: nat)
    requires StartStep(c, c', i, cmd) && term in c'.hist.leaders
    ensures LogFrom(c, c', ClientStart(i, cmd), term)
  {
    var s := c.servers[i];
    if s.role == Leader {
      assert FullLog(Start(s, cmd)) == FullLog(s) + [LogEntry(s.currentTerm, cmd)];
    }
  }

  /** A log made of leaders' entries holds only their commands. */
  lemma LogWithin(h: History, log: seq<LogEntry>, cmds: iset<Command>)
    requires LeadersWithin(h, cmds) && LogOk(h, log)
    ensures Within(log, cmds)
  {
    forall k: nat | 1 <= k < |log| ensures log[k].cmd in cmds {
      assert EntryOk(h, log, k);
      assert log[k] == log[..k + 1][k] == TermLog(h, log[k].term)[k];
    }
  }

  lemma ServerWithin(c: System, i: nat, cmds: iset<Command>)
    requires Inv(c) && i < |c.servers| && LeadersWithin(c.hist, cmds)
    ensures |c.servers[i].logs| >= 1 && Within(FullLog(c.servers[i]), cmds)
  {
    hide Inv, HistoryOk, AcksOk, VotesOk, CandidateOk, LeadingOk, DiskOk, TermsAtMost, CommitOk, LogOk, LeadersWithin;
    InvParts(c, i);
    LogWithin(c.hist, FullLog(c.servers[i]), cmds);
  }

  lemma UpheldWithin(c: System, log: seq<LogEntry>, cmds: iset<Command>)
    requires Upholds(c, log) && LeadersWithin(c.hist, cmds)
    ensures Within(log, cmds)
  {
    LogWithin(c.hist, log, cmds);
  }

  /** Leaders only ever hold commands that were started. */
  lemma StepWithin(c: System, c': System, step: Step, cmds: iset<Command>)
    requires Inv(c) && Next(c, c', step) && LeadersWithin(c.hist, cmds)
    ensures LeadersWithin(c'.hist, cmds + Accepts(c, step))
  {
    hide Inv, Next, FullLog;
    forall term | term in c'.hist.leaders ensures Within(TermLog(c'.hist, term), cmds + Accepts(c, step)) {
      StepLogs(c, c', step, term);
      var log := TermLog(c'.hist, term);
      if term in c.hist.leaders && log == TermLog(c.hist, term) {
        assert Within(log, cmds);
      } else if i: nat :| i < |c.servers| && |c.servers[i].logs| >= 1 && log == FullLog(c.servers[i]) {
        ServerWithin(c, i, cmds);
      } else {
        ServerWithin(c, step.i, cmds);
      }
    }
  }

  // ----- over a run -----

  /** The longest prefix any server has counted as committed up to moment `t`. A crash can make a
      server forget how much is committed, so the past counts too. */
  ghost function Committed(run: seq<System>, t: nat): seq<LogEntry>
    requires t < |run|
  {
    if t == 0 then [SENTINEL] else Longer(Committed(run, t - 1), LongestOf(run[t].servers))
  }

  lemma {:induction false} CommittedUpheld(peers: nat, run: seq<System>, t: nat)
    requires IsRun(peers, run) && t < |run|
    ensures Inv(run[t]) && run[t].peers == peers && |run[t].servers| == peers && Upholds(run[t], Committed(run, t))
    ensures t > 0 ==> Committed(run, t - 1) <= Committed(run, t)
    decreases t
  {
    hide Inv, Next, Upholds, LongestOf, Longer;
    RunInv(peers, run, t);
    RunInv'(peers, run, t);
    if t == 0 {
      InitUpholds(peers);
    } else {
      CommittedUpheld(peers, run, t - 1);
      var step := RunStep(peers, run, t - 1);
      StepUpholds(run[t - 1], run[t], step, Committed(run, t - 1));
    }
  }

  /** The committed log only grows. */
  lemma {:induction false} CommittedGrows(peers: nat, run: seq<System>, a: nat, b: nat)
    requires IsRun(peers, run) && a <= b < |run|
    ensures Committed(run, a) <= Committed(run, b)
    decreases b
  {
    hide IsRun, Inv, Upholds, LongestOf, Longer;
    if a < b {
      CommittedGrows(peers, run, a, b - 1);
      CommittedUpheld(peers, run, b);
    }
  }

  /** What a server counts as committed, its snapshot included, is a prefix of the committed log. */
  lemma ServerCommitted(peers: nat, run: seq<System>, t: nat, i: nat)
    requires IsRun(peers, run) && t < |run| && i < peers
    ensures |run[t].servers| == peers && IndicesOk(run[t].servers[i], peers, i)
    ensures FullLog(run[t].servers[i])[..run[t].servers[i].commitIndex + 1] <= Committed(run, t)
    ensures run[t].servers[i].snapshot <= Committed(run, t)
  {
    hide IsRun, Inv, Upholds, Committed, FullLog, IndicesOk;
    CommittedUpheld(peers, run, t);
    ServerUpheld(run[t], Committed(run, t), i);
  }

  /** A server hands over the committed log from where it stopped, in order and without gaps. */
  lemma DeliveredInOrder(peers: nat, run: seq<System>, t: nat, i: nat, k: nat)
    requires IsRun(peers, run) && t < |run| && i < peers
    ensures |run[t].servers| == peers && IndicesOk(run[t].servers[i], peers, i)
    ensures var s := run[t].servers[i];
            var (s', msgs) := Deliver(s);
            && s'.lastApplied == s.commitIndex < |Committed(run, t)| && |msgs| == s'.lastApplied - s.lastApplied
            && (k < |msgs| ==> msgs[k] == ApplyMsg(s.lastApplied + 1 + k, Committed(run, t)[s.lastApplied + 1 + k].cmd))
  {
    hide IsRun, Committed, FullLog, ApplyMsgs, Deliver, IndicesOk;
    ServerCommitted(peers, run, t, i);
    DeliveredFrom(run[t].servers[i], peers, i, Committed(run, t), k);
  }

  ghost predicate StartedAt(run: seq<System>, u: nat, i: nat, cmd: Command) {
    && u + 1 < |run| && Next(run[u], run[u + 1], ClientStart(i, cmd))
    && i < |run[u].servers| && run[u].servers[i].role == Leader
  }

  ghost predicate StartedBefore(run: seq<System>, t: nat, cmd: Command) {
    exists u: nat, i: nat :: u < t && StartedAt(run, u, i, cmd)
  }

  /** The commands given to `Start` at a leader before moment `t`. */
  ghost function Started(run: seq<System>, t: nat): iset<Command> {
    iset cmd | StartedBefore(run, t, cmd)
  }

  lemma StartedMore(run: seq<System>, t: nat, step: Step)
    requires t + 1 < |run| && Next(run[t], run[t + 1], step)
    ensures Started(run, t) + Accepts(run[t], step) <= Started(run, t + 1)
  {
    hide Next;
    forall cmd | cmd in Started(run, t) + Accepts(run[t], step) ensures cmd in Started(run, t + 1) {
      if cmd in Started(run, t) {
        var u: nat, i: nat :| u < t && StartedAt(run, u, i, cmd);
        assert u < t + 1 && StartedAt(run, u, i, cmd);
      } else {
        assert StartedAt(run, t, step.i, cmd);
      }
    }
  }

  lemma WithinMore(h: History, a: iset<Command>, b: iset<Command>)
    requires LeadersWithin(h, a) && a <= b
    ensures LeadersWithin(h, b)
  {
    forall term | term in h.leaders ensures Within(TermLog(h, term), b) {
      assert Within(TermLog(h, term), a);
    }
  }

  lemma {:induction false} LeadersStarted(peers: nat, run: seq<System>, t: nat)
    requires IsRun(peers, run) && t < |run|
    ensures LeadersWithin(run[t].hist, Started(run, t))
    decreases t
  {
    hide Inv, Next, Started, Accepts;
    if t > 0 {
      LeadersStarted(peers, run, t - 1);
      RunInv(peers, run, t - 1);
      var step := RunStep(peers, run, t - 1);
      StepWithin(run[t - 1], run[t], step, Started(run, t - 1));
      StartedMore(run, t - 1, step);
      WithinMore(run[t].hist, Started(run, t - 1) + Accepts(run[t - 1], step), Started(run, t));
    }
  }

  /** Every committed entry was proposed: its command was given to `Start` at a leader before. */
  lemma CommittedStarted(peers: nat, run: seq<System>, t: nat)
    requires IsRun(peers, run) && t < |run|
    ensures Within(Committed(run, t), Started(run, t))
  {
    hide IsRun, Inv, LeadersWithin, Started, Committed, LogOk;
    LeadersStarted(peers, run, t);
    CommittedUpheld(peers, run, t);
    LogWithin(run[t].hist, Committed(run, t), Started(run, t));
  }
}
