/** One Raft peer as the object it is: fields updated in place by the RPC handlers, the reply
    handlers and the service calls, each running under the peer's lock.  Every method is proved
    to compute the transition function of the same name in `RaftServer`. */
module RaftNode {
  import opened Options
  import opened RaftTypes
  import Spec = RaftServer
  import RaftMeaning

  class Raft {
    /** Two lines can be read as they are written or as their comments intend. */
    const asWritten: bool
    const me: nat
    const peers: nat
    var currentTerm: nat
    var votedFor: int
    var role: Role
    var logs: seq<LogEntry>
    var commitIndex: int
    var lastApplied: int
    const nextIndex: array<int>
    const matchIndex: array<int>
    var lastIncludedIndex: int
    var snapshot: seq<LogEntry>
    var voteGrantedCnt: nat
    var pending: set<nat>
    var disk: Option<Disk>

    ghost function State(): (s: Server)
      reads this, nextIndex, matchIndex
    {
      Server(me, peers, currentTerm, votedFor, role, logs, commitIndex, lastApplied,
             nextIndex[..], matchIndex[..], lastIncludedIndex, snapshot, voteGrantedCnt, pending, disk)
    }

    ghost predicate Valid()
      reads this, nextIndex, matchIndex
    {
      nextIndex != matchIndex && Spec.Shape(State())
    }

    /** `Make`, with the vote restored from the saved term, or as intended from the saved vote. */
    constructor (me: nat, peers: nat, disk: Option<Disk>, asWritten: bool)
      requires me < peers
      requires disk.Some? ==>
                 && |disk.value.status.logs| >= 1 && disk.value.status.lastIncludedIndex >= 0
                 && |disk.value.snapshot| == disk.value.status.lastIncludedIndex + 1
      ensures Valid() && this.asWritten == asWritten
      ensures State() == if asWritten then Spec.RestartAsWritten(me, peers, disk) else Spec.Restart(me, peers, disk)
      ensures fresh(nextIndex) && fresh(matchIndex)
    {
      this.me, this.peers, this.asWritten := me, peers, asWritten;
      currentTerm, votedFor, role := 0, NO_VOTE, Follower;
      logs, commitIndex, lastApplied := [SENTINEL], 0, 0;
      nextIndex := new int[peers](_ => 0);
      matchIndex := new int[peers](_ => 0);
      lastIncludedIndex, snapshot := 0, [SENTINEL];
      voteGrantedCnt, pending := 0, {};
      this.disk := disk;
      new;
      if disk.Some? {
        var d := disk.value;
        currentTerm := d.status.currentTerm;
        votedFor := if asWritten then d.status.currentTerm else d.status.votedFor;
        logs := d.status.logs;
        lastIncludedIndex := d.status.lastIncludedIndex;
        logs := logs[0 := logs[0].(term := d.status.lastIncludedTerm)];
        commitIndex, lastApplied := d.status.lastIncludedIndex, d.status.lastIncludedIndex;
        snapshot := d.snapshot;
      }
      assert nextIndex[..] == seq(peers, _ => 0);
      assert matchIndex[..] == seq(peers, _ => 0);
    }

    method Persist()
      requires Valid()
      modifies `disk
      ensures Valid() && State() == Spec.Persist(old(State()))
    {
      disk := Some(Disk(PersistentStatus(logs, currentTerm, votedFor, lastIncludedIndex, logs[0].term), snapshot));
    }

    // ----- index arithmetic (raft_util.go) -----

    function LastLogIndex(): (r: int)
      reads this, nextIndex, matchIndex
      requires Valid()
      ensures r == Spec.LastLogIndex(State())
    {
      lastIncludedIndex + |logs| - 1
    }

    function RealLogLen(): (r: int)
      reads this, nextIndex, matchIndex
      requires Valid()
      ensures r == Spec.RealLogLen(State())
    {
      lastIncludedIndex + |logs|
    }

    function LastLogTerm(): (r: nat)
      reads this, nextIndex, matchIndex
      requires Valid()
      ensures r == Spec.LastLogTerm(State())
    {
      if |logs| < 2 then logs[0].term else logs[|logs| - 1].term
    }

    function LogIndex(realIndex: int): (r: int)
      reads this, nextIndex, matchIndex
      requires Valid()
      ensures r == Spec.LogIndex(State(), realIndex) && RealIndex(r) == realIndex
    {
      realIndex - lastIncludedIndex
    }

    function RealIndex(logIndex: int): (r: int)
      reads this, nextIndex, matchIndex
      requires Valid()
      ensures r == Spec.RealIndex(State(), logIndex)
    {
      lastIncludedIndex + logIndex
    }

    predicate IsLogUpToDate(lastLogTerm: nat, lastLogIndex: int)
      reads this, nextIndex, matchIndex
      requires Valid()
      ensures IsLogUpToDate(lastLogTerm, lastLogIndex) == Spec.IsLogUpToDate(State(), lastLogTerm, lastLogIndex)
    {
      lastLogTerm > LastLogTerm() || (lastLogTerm == LastLogTerm() && lastLogIndex >= LastLogIndex())
    }

    // ----- elections -----

    /** The election timeout and the requests it sends. */
    method StartElection() returns (out: set<Message>)
      requires Valid()
      modifies this
      ensures Valid() && State() == Spec.StartElection(old(State())) && out == Spec.VoteRequests(State())
    {
      role := Candidate;
      votedFor := me;
      currentTerm := currentTerm + 1;
      Persist();
      voteGrantedCnt := 1;
      out := SendVoteRequests();
    }

    /** One goroutine per peer. */
    method SendVoteRequests() returns (out: set<Message>)
      requires Valid()
      modifies `pending
      ensures Valid() && State() == old(State()).(pending := Spec.OtherPeers(peers, me))
      ensures out == Spec.VoteRequests(State())
    {
      pending := {};
      out := {};
      ghost var s := State();
      var p := 0;
      while p < peers
        invariant 0 <= p <= peers && Valid()
        invariant State() == s.(pending := pending)
        invariant pending == set q: nat | q < p && Spec.IsPeer(peers, me, q)
        invariant out == set q: nat | q < p && Spec.IsPeer(peers, me, q) :: Spec.VoteRequestTo(s, q)
      {
        if p != me {
          pending := pending + {p};
          var args := RequestVoteArgs(currentTerm, me, LastLogIndex(), LastLogTerm());
          assert VoteRequest(me, p, args) == Spec.VoteRequestTo(s, p);
          out := out + {VoteRequest(me, p, args)};
        }
        p := p + 1;
      }
    }

    method RequestVote(args: RequestVoteArgs) returns (reply: RequestVoteReply)
      requires Valid()
      modifies this
      ensures Valid() && (State(), reply) == Spec.RequestVote(old(State()), args)
    {
      if args.term < currentTerm {
        return RequestVoteReply(currentTerm, false);
      }
      if args.term > currentTerm {
        currentTerm := args.term;
        votedFor := NO_VOTE;
        role := Follower;
      }
      if (votedFor == NO_VOTE || votedFor == args.candidateId) && IsLogUpToDate(args.lastLogTerm, args.lastLogIndex) {
        votedFor := args.candidateId;
        Persist();
        return RequestVoteReply(currentTerm, true);
      }
      Persist();
      reply := RequestVoteReply(currentTerm, false);
    }

    method InitializeLeader()
      requires Valid()
      modifies `role, nextIndex, matchIndex
      ensures Valid() && State() == Spec.InitializeLeader(old(State()))
    {
      role := Leader;
      var i := 0;
      while i < peers
        invariant 0 <= i <= peers && Valid()
        invariant State() == old(State()).(role := Leader, nextIndex := nextIndex[..], matchIndex := matchIndex[..])
        invariant forall q :: 0 <= q < i ==> nextIndex[q] == RealLogLen() && matchIndex[q] == lastIncludedIndex
      {
        nextIndex[i] := RealLogLen();
        matchIndex[i] := lastIncludedIndex;
        i := i + 1;
      }
      matchIndex[me] := LastLogIndex();
      nextIndex[me] := LastLogIndex() + 1;
      ghost var s := Spec.InitializeLeader(old(State()));
      assert nextIndex[..] == s.nextIndex && matchIndex[..] == s.matchIndex;
    }

    /** The goroutine that waits for one peer's vote. */
    method HandleVoteReply(peer: nat, args: RequestVoteArgs, reply: RequestVoteReply) returns (out: set<Message>)
      requires Valid()
      modifies this, nextIndex, matchIndex
      ensures Valid() && State() == Spec.HandleVoteReply(old(State()), peer, args, reply)
      ensures out == if old(role) == Candidate && role == Leader then Spec.Broadcast(State()) else {}
    {
      hide Spec.Broadcast, Spec.MessageTo;
      out := {};
      pending := pending - {peer};
      if currentTerm != args.term || role != Candidate {
        return;
      }
      if reply.term > currentTerm {
        currentTerm := reply.term;
        votedFor := NO_VOTE;
        Persist();
        role := Follower;
      } else if reply.term == currentTerm {
        if reply.voteGranted {
          voteGrantedCnt := voteGrantedCnt + 1;
        }
        if voteGrantedCnt > peers / 2 {
          InitializeLeader();
          var panicked;
          panicked, out := BroadcastHeartbeat();
        }
      }
    }

    // ----- replication, leader side -----

    /** A peer's next index is not past the log. */
    ghost predicate Reaches(p: int)
      reads this, nextIndex, matchIndex
      requires Valid()
    {
      Spec.IsPeer(peers, me, p) ==> nextIndex[p] <= RealLogLen()
    }

    /** The broadcast panics exactly if a next index is past the log, which `NextIndexInRange`, an
        invariant of every leader in every run, rules out. */
    method BroadcastHeartbeat() returns (panicked: bool, out: set<Message>)
      requires Valid()
      ensures !panicked <==> forall p :: Reaches(p)
      ensures Spec.NextIndexInRange(State()) ==> !panicked && out == Spec.Broadcast(State())
      ensures !panicked ==> out == set q: nat | q < peers && Spec.IsPeer(peers, me, q) && nextIndex[q] <= RealLogLen()
                                   :: Spec.MessageTo(State(), q)
    {
      panicked, out := false, {};
      var p := 0;
      while p < peers
        invariant 0 <= p <= peers && forall q :: 0 <= q < p ==> Reaches(q)
        invariant out == set q: nat | q < p && Spec.IsPeer(peers, me, q) && nextIndex[q] <= RealLogLen() ::
                           Spec.MessageTo(State(), q)
      {
        if p != me {
          var m;
          if nextIndex[p] > RealLogLen() {
            assert !Reaches(p);
            return true, out;
          }
          if nextIndex[p] <= lastIncludedIndex {
            m := InstallRequest(me, p, InstallSnapshotArgs(currentTerm, me, lastIncludedIndex, logs[0].term, snapshot));
          } else {
            var prev := nextIndex[p] - 1;
            var prevTerm := if prev > lastIncludedIndex then logs[LogIndex(prev)].term else logs[0].term;
            var entries := logs[LogIndex(nextIndex[p])..];
            m := AppendRequest(me, p, AppendEntriesArgs(currentTerm, me, prev, prevTerm, entries, commitIndex));
          }
          assert m == Spec.MessageTo(State(), p);
          out := out + {m};
        }
        p := p + 1;
      }
    }

    method CheckAndCommitLogs()
      requires Valid()
      modifies `commitIndex
      ensures Valid() && State() == Spec.CheckAndCommitLogs(old(State()))
      ensures RaftMeaning.CommitsMajority(old(State()), State())
    {
      ghost var s := State();
      RaftMeaning.CommitMeans(s);
      var best := commitIndex;
      var n := commitIndex + 1;
      while n < RealLogLen()
        invariant commitIndex + 1 <= n && commitIndex <= best
        invariant Spec.CommitScan(s, n, best) == Spec.CommitScan(s, s.commitIndex + 1, s.commitIndex)
      {
        var succeed := 0;
        var p := 0;
        while p < peers
          invariant 0 <= p <= peers
          invariant succeed == if logs[LogIndex(n)].term == currentTerm
                               then Spec.CountMatching(s.matchIndex, n, p) else 0
        {
          if n <= matchIndex[p] && logs[LogIndex(n)].term == currentTerm {
            succeed := succeed + 1;
          }
          p := p + 1;
        }
        if succeed > peers / 2 {
          best := n;
        }
        n := n + 1;
      }
      CommitScanAtLeast(s, s.commitIndex + 1, s.commitIndex);
      if best > commitIndex {
        commitIndex := best;
      }
    }

    method FindNextIndex(peer: nat, reply: AppendEntriesReply)
      requires Valid() && peer < peers
      modifies nextIndex
      ensures Valid() && State() == Spec.FindNextIndex(old(State()), peer, reply)
    {
      if reply.xTerm == -1 && reply.xIndex == -1 {
        nextIndex[peer] := reply.xLen;
        return;
      }
      var found := false;
      ghost var k := -1;
      var i := 0;
      while i < |logs|
        invariant 0 <= i <= |logs| && -1 <= k < i && Valid()
        invariant Spec.LastOfTerm(logs, reply.xTerm, i, k) == Spec.LastOfTerm(logs, reply.xTerm, 0, -1)
        invariant found == (k >= 0)
        invariant nextIndex[..] == if found then old(nextIndex[..])[peer := RealIndex(k)] else old(nextIndex[..])
      {
        if logs[i].term == reply.xTerm {
          found := true;
          k := i;
          nextIndex[peer] := RealIndex(i);
        }
        i := i + 1;
      }
      if !found {
        nextIndex[peer] := reply.xIndex;
      }
    }

    method StepDown(term: nat)
      requires Valid()
      modifies this
      ensures Valid() && State() == Spec.StepDown(old(State()), term)
    {
      currentTerm := term;
      role := Follower;
      Persist();
    }

    method HandleAppendReply(peer: nat, args: AppendEntriesArgs, reply: AppendEntriesReply)
      requires Valid() && peer < peers
      modifies this, nextIndex, matchIndex
      ensures Valid() && State() == Spec.HandleAppendReply(old(State()), peer, args, reply)
    {
      if currentTerm != args.term || role != Leader {
        return;
      }
      if reply.term > currentTerm {
        StepDown(reply.term);
        return;
      }
      if reply.success {
        matchIndex[peer] := Max(matchIndex[peer], args.prevLogIndex + |args.entries|);
        nextIndex[peer] := Max(nextIndex[peer], args.prevLogIndex + |args.entries| + 1);
        CheckAndCommitLogs();
      } else {
        FindNextIndex(peer, reply);
      }
    }

    method HandleInstallReply(peer: nat, args: InstallSnapshotArgs, reply: InstallSnapshotReply)
      requires Valid() && peer < peers
      modifies this, nextIndex, matchIndex
      ensures Valid() && State() == Spec.HandleInstallReply(old(State()), peer, args, reply)
    {
      if currentTerm != args.term || role != Leader {
        return;
      }
      if reply.term > currentTerm {
        StepDown(reply.term);
        return;
      }
      matchIndex[peer] := Max(matchIndex[peer], args.lastIncludedIndex);
      nextIndex[peer] := Max(nextIndex[peer], args.lastIncludedIndex + 1);
    }

    /** Returns the index and term the command gets, or nothing from a server that does not lead. */
    method Start(cmd: Command) returns (r: Option<(int, nat)>)
      requires Valid()
      modifies this, nextIndex, matchIndex
      ensures Valid() && State() == Spec.Start(old(State()), cmd)
      ensures r == if old(role) == Leader then Some((Spec.LastLogIndex(State()), currentTerm)) else None
    {
      if role != Leader {
        return None;
      }
      logs := logs + [LogEntry(currentTerm, cmd)];
      Persist();
      matchIndex[me] := LastLogIndex();
      nextIndex[me] := RealLogLen();
      r := Some((LastLogIndex(), currentTerm));
    }

    // ----- replication, follower side -----

    /** The copy loop of AppendEntries. */
    method CopyEntries(prevLogIndex: int, entries: seq<LogEntry>)
      requires Valid() && lastIncludedIndex <= prevLogIndex
      modifies `logs
      ensures Valid()
      ensures State() == old(State()).(logs := Spec.MergeEntries(old(logs), old(LogIndex(prevLogIndex)) + 1, entries))
    {
      ghost var at := LogIndex(prevLogIndex) + 1;
      var i := 0;
      while i < |entries|
        invariant 0 <= i <= |entries| && Valid()
        invariant Spec.MergeEntries(logs, at + i, entries[i..]) == Spec.MergeEntries(old(logs), at, entries)
      {
        var index := LogIndex(prevLogIndex + i + 1);
        if index < |logs| {
          if logs[index].term != entries[i].term {
            logs := logs[..index];
            logs := logs + [entries[i]];
          }
        } else if index == |logs| {
          logs := logs + [entries[i]];
        }
        assert entries[i..][1..] == entries[i + 1..];
        i := i + 1;
      }
    }

    method ConflictIndex(prevLogIndex: int, term: nat) returns (conflictIndex: int)
      requires Valid() && lastIncludedIndex <= prevLogIndex <= LastLogIndex()
      ensures conflictIndex == Spec.ConflictScan(State(), prevLogIndex, term, -1)
    {
      conflictIndex := -1;
      var i := prevLogIndex;
      while i > commitIndex
        invariant i <= prevLogIndex
        invariant Spec.ConflictScan(State(), i, term, conflictIndex) ==
                  Spec.ConflictScan(State(), prevLogIndex, term, -1)
      {
        if logs[LogIndex(i)].term != term {
          break;
        }
        conflictIndex := i;
        i := i - 1;
      }
    }

    method AppendEntries(args: AppendEntriesArgs) returns (reply: AppendEntriesReply)
      requires Valid()
      modifies this
      ensures Valid() && (State(), reply) == Spec.AppendEntries(old(State()), args)
    {
      hide Spec.Replicate;
      if currentTerm > args.term {
        return AppendEntriesReply(currentTerm, false, 0, 0, 0);
      }
      role := Follower;
      if currentTerm < args.term {
        currentTerm := args.term;
        votedFor := NO_VOTE;
      }
      reply := Replicate(args);
    }

    method Replicate(args: AppendEntriesArgs) returns (reply: AppendEntriesReply)
      requires Valid()
      modifies this
      ensures Valid() && (State(), reply) == Spec.Replicate(old(State()), args)
    {
      hide Spec.MergeEntries, Spec.ConflictScan;
      if lastIncludedIndex > args.prevLogIndex {
        Persist();
        return AppendEntriesReply(currentTerm, false, 0, 0, 0);
      }
      if LastLogIndex() < args.prevLogIndex {
        Persist();
        return AppendEntriesReply(currentTerm, false, -1, -1, RealLogLen());
      }
      var term := logs[LogIndex(args.prevLogIndex)].term;
      if term != args.prevLogTerm {
        var conflictIndex := ConflictIndex(args.prevLogIndex, term);
        Persist();
        return AppendEntriesReply(currentTerm, false, term, conflictIndex, RealLogLen());
      }
      CopyEntries(args.prevLogIndex, args.entries);
      if args.leaderCommit > commitIndex {
        commitIndex := Min(args.leaderCommit, LastLogIndex());
      }
      Persist();
      reply := AppendEntriesReply(currentTerm, true, 0, 0, 0);
    }

    // ----- compaction -----

    method Snapshot(index: int, data: seq<LogEntry>)
      requires Valid() && (lastIncludedIndex < index <= commitIndex ==> index <= LastLogIndex())
      requires |data| == index + 1
      modifies this
      ensures Valid() && State() == Spec.Snapshot(old(State()), index, data)
    {
      if commitIndex < index || index <= lastIncludedIndex {
        return;
      }
      var split := LogIndex(index);
      lastIncludedIndex := index;
      logs := [LogEntry(logs[split].term, NoCommand)] + logs[split + 1..];
      snapshot := data;
      Persist();
    }

    /** Whether the entries after the snapshot point are kept. */
    ghost predicate KeepsTail(args: InstallSnapshotArgs)
      reads this, nextIndex, matchIndex
      requires Valid()
    {
      if asWritten then Spec.KeepsTailAsWritten(State(), args) else Spec.KeepsTail(State(), args)
    }

    /** The position of the entry at the snapshot point, or the length of `logs`. */
    method FindSnapshotPoint(args: InstallSnapshotArgs) returns (i: nat)
      requires Valid()
      ensures KeepsTail(args) ==> i < |logs| && i == LogIndex(args.lastIncludedIndex)
      ensures !KeepsTail(args) ==> i == |logs|
    {
      i := 1;
      while i < |logs|
        invariant 1 <= i <= |logs|
        invariant KeepsTail(args) ==> i <= LogIndex(args.lastIncludedIndex)
      {
        var compared := if asWritten then 0 else i;
        if RealIndex(i) == args.lastIncludedIndex && logs[compared].term == args.lastIncludedTerm {
          return;
        }
        i := i + 1;
      }
    }

    /** With the comparison of step 6 made against slot 0, or as intended against the entry at the
        snapshot point. */
    method InstallSnapshot(args: InstallSnapshotArgs) returns (reply: InstallSnapshotReply)
      requires Valid() && |args.data| == args.lastIncludedIndex + 1
      modifies this
      ensures Valid()
      ensures (State(), reply) == if asWritten then Spec.InstallSnapshotAsWritten(old(State()), args)
                                  else Spec.InstallSnapshot(old(State()), args)
    {
      if args.term < currentTerm {
        return InstallSnapshotReply(currentTerm);
      }
      if args.term > currentTerm {
        currentTerm, votedFor := args.term, NO_VOTE;
      }
      role := Follower;
      reply := InstallSnapshotReply(currentTerm);
      if args.lastIncludedIndex <= lastIncludedIndex || args.lastIncludedIndex <= commitIndex {
        return;
      }
      InstallState(args);
    }

    method InstallState(args: InstallSnapshotArgs)
      requires Valid() && |args.data| == args.lastIncludedIndex + 1 && args.lastIncludedIndex >= 0
      modifies this
      ensures Valid() && State() == Spec.Install(old(State()), args, old(KeepsTail(args)))
    {
      var i := FindSnapshotPoint(args);
      var tail := if i < |logs| then logs[i + 1..] else [];
      logs := [LogEntry(args.lastIncludedTerm, NoCommand)] + tail;
      lastIncludedIndex := args.lastIncludedIndex;
      commitIndex := args.lastIncludedIndex;
      lastApplied := args.lastIncludedIndex;
      snapshot := args.data;
      Persist();
    }

    // ----- delivery to the service -----

    method ApplyCommitted() returns (msgs: seq<ApplyMsg>)
      requires Valid() && commitIndex <= LastLogIndex() && lastIncludedIndex <= lastApplied
      modifies `lastApplied
      ensures Valid() && (State(), msgs) == Spec.Deliver(old(State()))
    {
      hide Spec.FullLog;
      msgs := [];
      ghost var s := State();
      if commitIndex <= lastApplied {
        return;
      }
      var i := lastApplied + 1;
      while i <= commitIndex
        invariant State() == s && lastApplied + 1 <= i <= commitIndex + 1
        invariant msgs + Spec.ApplyMsgs(s, i) == Spec.ApplyMsgs(s, s.lastApplied + 1)
      {
        var msg := ApplyMsg(i, logs[LogIndex(i)].cmd);
        assert Spec.ApplyMsgs(s, i) == [msg] + Spec.ApplyMsgs(s, i + 1);
        assert msgs + ([msg] + Spec.ApplyMsgs(s, i + 1)) == (msgs + [msg]) + Spec.ApplyMsgs(s, i + 1);
        msgs := msgs + [msg];
        i := i + 1;
      }
      assert msgs + [] == msgs && Spec.ApplyMsgs(s, i) == [];
      lastApplied := commitIndex;
      assert State() == s.(lastApplied := s.commitIndex);
    }
  }

  lemma {:induction false} CommitScanAtLeast(s: Server, from: int, best: int)
    requires Spec.Shape(s) && s.lastIncludedIndex <= from
    ensures Spec.CommitScan(s, from, best) == best || from <= Spec.CommitScan(s, from, best)
    decreases Spec.RealLogLen(s) - from
  {
    if from < Spec.RealLogLen(s) {
      CommitScanAtLeast(s, from + 1, if Spec.Committable(s, from) then from else best);
    }
  }
}
