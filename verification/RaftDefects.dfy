/** Two places where the code departs from its own comments and from the paper: what it does
    there, runs and states in which that goes wrong, and exactly when it does not. */
module RaftDefects {
  import opened Options
  import opened RaftTypes
  import opened RaftServer
  import opened RaftProtocol
  import opened RaftInvariant
  import opened RaftSafety

  // ----- readPersist restores the vote from the term -----

  /** The saved vote survives the restart as written. */
  ghost predicate RestoresVote(disk: Option<Disk>) {
    disk.None? || disk.value.status.votedFor == disk.value.status.currentTerm
  }

  lemma RestartAgreesIff(me: nat, peers: nat, disk: Option<Disk>)
    ensures RestartAsWritten(me, peers, disk) == Restart(me, peers, disk) <==> RestoresVote(disk)
  {
    var s, s' := RestartAsWritten(me, peers, disk), Restart(me, peers, disk);
    if disk.Some? {
      assert s.votedFor == disk.value.status.currentTerm && s'.votedFor == disk.value.status.votedFor;
      assert RestoresVote(disk) ==> s == s';
    }
  }

  /** After a restart the server votes, in the saved term, for nobody but whom it had voted for. */
  ghost predicate VotesOnce(me: nat, peers: nat, s: Server, d: Disk)
    requires |s.logs| >= 1
  {
    forall a: RequestVoteArgs ::
      a.term == d.status.currentTerm && IsPeer(peers, me, a.candidateId) && RequestVote(s, a).1.voteGranted ==>
        d.status.votedFor == NO_VOTE || d.status.votedFor == a.candidateId
  }

  /** No vote was saved, or it equals the saved term, or the term is no other peer's number. */
  ghost predicate RestartsSafely(me: nat, peers: nat, d: Disk) {
    var t, v := d.status.currentTerm, d.status.votedFor;
    v == NO_VOTE || v == t || !IsPeer(peers, me, t)
  }

  /** The restart as written keeps the vote unique exactly then. */
  lemma VotesOnceIff(me: nat, peers: nat, d: Disk)
    requires |d.status.logs| >= 1
    ensures VotesOnce(me, peers, RestartAsWritten(me, peers, Some(d)), d) <==> RestartsSafely(me, peers, d)
  {
    var s, t, v := RestartAsWritten(me, peers, Some(d)), d.status.currentTerm, d.status.votedFor;
    var a := RequestVoteArgs(t, t, LastLogIndex(s), LastLogTerm(s));
    assert RequestVote(s, a).1.voteGranted;
    assert VotesOnce(me, peers, s, d) && IsPeer(peers, me, t) ==> v == NO_VOTE || v == t;
  }

  /** The intended restart never doubles the vote. */
  lemma RestartVotesOnce(me: nat, peers: nat, d: Disk)
    requires |d.status.logs| >= 1
    ensures VotesOnce(me, peers, Restart(me, peers, Some(d)), d)
  {
  }

  // ----- InstallSnapshot compares the wrong entry -----

  /** A snapshot is installed, and something follows its point in the log. */
  predicate InstallsBeforeTail(s: Server, args: InstallSnapshotArgs) {
    && args.term >= s.currentTerm && !IgnoresSnapshot(s, args)
    && s.lastIncludedIndex < args.lastIncludedIndex < LastLogIndex(s)
  }

  /** The two comparisons come out the same, or nothing depends on them. */
  ghost predicate ComparesRight(s: Server, args: InstallSnapshotArgs)
    requires Shape(s)
  {
    InstallsBeforeTail(s, args) ==>
      (s.logs[0].term == args.lastIncludedTerm <==>
       s.logs[LogIndex(s, args.lastIncludedIndex)].term == args.lastIncludedTerm)
  }

  lemma InstallAgreesIff(s: Server, args: InstallSnapshotArgs)
    requires Shape(s)
    ensures InstallSnapshotAsWritten(s, args) == InstallSnapshot(s, args) <==> ComparesRight(s, args)
  {
    var s1 := AdoptTerm(s, args.term).(role := Follower);
    if args.term >= s.currentTerm && !IgnoresSnapshot(s1, args) && SnapshotPointInLog(s1, args) {
      var kept, dropped := Install(s1, args, true), Install(s1, args, false);
      assert |kept.logs| - 1 == LastLogIndex(s) - args.lastIncludedIndex;
      assert |dropped.logs| == 1;
      if args.lastIncludedIndex == LastLogIndex(s) {
        assert s1.logs[LogIndex(s1, args.lastIncludedIndex) + 1..] == [];
      }
    }
  }

  /** A snapshot that agrees with the log up to its point. */
  ghost predicate Agrees(s: Server, args: InstallSnapshotArgs)
    requires Shape(s)
  {
    && 0 <= args.lastIncludedIndex < |FullLog(s)|
    && args.data == FullLog(s)[..args.lastIncludedIndex + 1]
    && args.lastIncludedTerm == FullLog(s)[args.lastIncludedIndex].term
  }

  /** With an agreeing snapshot, no entry is lost exactly when slot 0 happens to have the
      snapshot's term or nothing follows the snapshot point. */
  lemma AgreeingInstallIff(s: Server, peers: nat, i: nat, args: InstallSnapshotArgs)
    requires IndicesOk(s, peers, i) && Agrees(s, args)
    ensures var s' := InstallSnapshotAsWritten(s, args).0;
            && |s'.logs| >= 1
            && (FullLog(s') == FullLog(s) <==> InstallsBeforeTail(s, args) ==> s.logs[0].term == args.lastIncludedTerm)
  {
    var s' := InstallSnapshotAsWritten(s, args).0;
    var s1 := AdoptTerm(s, args.term).(role := Follower);
    if args.term >= s.currentTerm && !IgnoresSnapshot(s1, args) {
      var at, log := LogIndex(s, args.lastIncludedIndex), FullLog(s);
      assert log[args.lastIncludedIndex + 1..] == s.logs[at + 1..];
      assert log == log[..args.lastIncludedIndex + 1] + log[args.lastIncludedIndex + 1..];
      if KeepsTailAsWritten(s1, args) {
        assert s'.logs[1..] == s.logs[at + 1..];
      } else {
        assert s'.logs[1..] == [];
        assert FullLog(s') == args.data;
      }
    }
  }

  // ----- the protocol as written -----

  /** A server restarts as written. */
  ghost predicate CrashStepAsWritten(c: System, c': System, i: nat, vote: int) {
    && i < |c.servers|
    && var disk := c.servers[i].disk;
    && vote == RestartAsWritten(i, c.peers, disk).votedFor
    && Moves(c, c', i, RestartAsWritten(i, c.peers, disk), {}, RecordRestart(c.hist, disk, vote))
  }

  ghost predicate InstallStepAsWritten(c: System, c': System, i: nat, m: Message) {
    && i < |c.servers| && Shape(c.servers[i])
    && m in c.net && m.InstallRequest? && m.to == i
    && var (s', reply) := InstallSnapshotAsWritten(c.servers[i], m.iargs);
    Moves(c, c', i, s', {InstallReply(i, m.from, m.iargs, reply)}, c.hist)
  }

  ghost predicate NextAsWritten(c: System, c': System, step: Step) {
    match step
    case Crash(i, vote) => CrashStepAsWritten(c, c', i, vote)
    case ReceiveInstall(i, m) => InstallStepAsWritten(c, c', i, m)
    case _ => Next(c, c', step)
  }

  ghost predicate IsRunAsWritten(peers: nat, run: seq<System>, steps: seq<Step>) {
    && |run| == |steps| + 1
    && run[0] == Init(peers)
    && forall k :: 0 <= k < |steps| ==> NextAsWritten(run[k], run[k + 1], steps[k])
  }

  /** The guards at the two places: a restarting server's disk lets nobody be voted for twice, an
      installing server's two comparisons agree. Both can be told before the step. */
  ghost predicate Guarded(c: System, step: Step) {
    match step
    case Crash(i, _) =>
      i < |c.servers| && (c.servers[i].disk.Some? ==> RestartsSafely(i, c.peers, c.servers[i].disk.value))
    case ReceiveInstall(i, m) =>
      i < |c.servers| && Shape(c.servers[i]) && m.InstallRequest? && ComparesRight(c.servers[i], m.iargs)
    case _ => true
  }

  ghost predicate IsGuardedRun(peers: nat, run: seq<System>, steps: seq<Step>) {
    && IsRunAsWritten(peers, run, steps)
    && forall k :: 0 <= k < |steps| ==> Guarded(run[k], steps[k])
  }

  lemma GuardedStep(c: System, c': System, step: Step)
    requires NextAsWritten(c, c', step) && Guarded(c, step)
    ensures Next(c, c', step)
  {
    match step
    case Crash(i, vote) =>
    case ReceiveInstall(i, m) => InstallAgreesIff(c.servers[i], m.iargs);
    case _ =>
  }

  /** A guarded run of the code as written is a run of the protocol, so that everything proved of
      those holds of it. */
  lemma GuardedRun(peers: nat, run: seq<System>, steps: seq<Step>)
    requires IsGuardedRun(peers, run, steps)
    ensures IsRun(peers, run)
  {
    hide NextAsWritten, Next, Init, Guarded;
    forall k | 0 <= k < |run| - 1 ensures CanStep(run[k], run[k + 1]) {
      GuardedStep(run[k], run[k + 1], steps[k]);
    }
  }

  /** Election Safety, Log Matching, Leader Completeness and State Machine Safety of the code as
      written, in every run that meets the guards. */
  lemma GuardedRunsSafe(peers: nat, run: seq<System>, steps: seq<Step>, a: nat, b: nat, i: nat, j: nat, k: nat)
    requires IsGuardedRun(peers, run, steps) && a < |run| && b < |run| && i < peers && j < peers
    ensures |run[a].servers| == peers && |run[b].servers| == peers
    ensures var s, s' := run[a].servers[i], run[b].servers[j];
            && |s.logs| >= 1 && |s'.logs| >= 1
            && 0 <= s.commitIndex < |FullLog(s)| && 0 <= s'.commitIndex < |FullLog(s')|
            && (s.role == Leader && s'.role == Leader && s.currentTerm == s'.currentTerm ==> i == j)
            && (k < |FullLog(s)| && k < |FullLog(s')| && FullLog(s)[k].term == FullLog(s')[k].term ==>
                  FullLog(s)[..k + 1] == FullLog(s')[..k + 1])
            && (s'.role == Leader && s'.currentTerm > s.currentTerm ==> FullLog(s)[..s.commitIndex + 1] <= FullLog(s'))
            && (k <= s.commitIndex && k <= s'.commitIndex ==> FullLog(s)[k] == FullLog(s')[k])
  {
    hide IsGuardedRun, IsRun;
    GuardedRun(peers, run, steps);
    ElectionSafety(peers, run, a, b, i, j);
    LogMatchingInRuns(peers, run, a, b, i, j, k);
    LeaderCompletenessInRuns(peers, run, a, b, i, j);
    LeaderCompletenessInRuns(peers, run, b, a, j, i);
    StateMachineSafety(peers, run, a, b, i, j, k);
  }
}
