/** Runs of the code as written, from the initial state, in which a guarantee fails: two leaders in
    one term after a restart, and two committed entries at one index, or a broken prefix, after an
    installed snapshot. */
module RaftCounterexamples {
  import opened Options
  import opened RaftTypes
  import opened RaftServer
  import opened RaftProtocol
  import opened RaftDefects
  import RaftCatchUp

  // ----- extending a run by one step -----

  /** A run of three servers, and the steps it takes. */
  datatype Path = Path(run: seq<System>, steps: seq<Step>) {

    /** The run ends with these servers. */
    ghost predicate At(ss: seq<Server>) {
      && run != [] && IsRunAsWritten(3, run, steps)
      && |ss| == 3 && run[|run| - 1].peers == 3 && run[|run| - 1].servers == ss
    }

    ghost predicate Sent(m: Message) {
      run != [] && m in run[|run| - 1].net
    }

    /** No server restarts. */
    ghost predicate Calm() {
      forall k :: 0 <= k < |steps| ==> !steps[k].Crash?
    }

    /** And none installs a snapshot. */
    ghost predicate Plain() {
      forall k :: 0 <= k < |steps| ==> !steps[k].Crash? && !steps[k].ReceiveInstall?
    }
  }

  /** `q` goes on from `p`: server `i` has become `s` and sent `out`. */
  ghost predicate Continues(p: Path, q: Path, ss: seq<Server>, i: nat, s: Server, out: set<Message>) {
    GoesOn(p, q, ss, i, s, out) && (p.Plain() ==> q.Plain())
  }

  ghost predicate GoesOn(p: Path, q: Path, ss: seq<Server>, i: nat, s: Server, out: set<Message>) {
    && i < |ss| && q.At(ss[i := s]) && p.run <= q.run && (p.Calm() ==> q.Calm())
    && (forall m :: p.Sent(m) ==> q.Sent(m)) && (forall m :: m in out ==> q.Sent(m))
  }

  /** `q` goes on from `p` in any number of steps, none of which restarts or installs. */
  ghost predicate Later(p: Path, q: Path) {
    && p.run <= q.run && (p.Calm() ==> q.Calm()) && (p.Plain() ==> q.Plain())
    && forall m :: p.Sent(m) ==> q.Sent(m)
  }

  ghost function End(p: Path): System
    requires p.run != []
  {
    p.run[|p.run| - 1]
  }

  lemma Extend(p: Path, ss: seq<Server>, step: Step, i: nat, s: Server, out: set<Message>, h: History) returns (q: Path)
    requires p.At(ss) && i < 3 && !step.Crash?
    requires NextAsWritten(End(p), System(3, ss[i := s], End(p).net + out, h), step)
    ensures GoesOn(p, q, ss, i, s, out) && (!step.ReceiveInstall? ==> Continues(p, q, ss, i, s, out))
  {
    hide NextAsWritten, Init;
    q := Path(p.run + [System(3, ss[i := s], End(p).net + out, h)], p.steps + [step]);
  }

  lemma Starts(p: Path, ss: seq<Server>, i: nat, cmd: Command) returns (q: Path)
    requires p.At(ss) && i < |ss| && Shape(ss[i])
    ensures Continues(p, q, ss, i, Start(ss[i], cmd), {})
  {
    hide IsRunAsWritten, Init, Continues;
    var h, s, s' := End(p).hist, ss[i], Start(ss[i], cmd);
    q := Extend(p, ss, ClientStart(i, cmd), i, s', {},
                if s.role == Leader && s.currentTerm in h.leaders
                then RecordLeader(h, s.currentTerm, h.leaders[s.currentTerm].(log := FullLog(s')))
                else h);
  }

  lemma Beats(p: Path, ss: seq<Server>, i: nat, to: nat) returns (q: Path)
    requires p.At(ss) && i < |ss| && Shape(ss[i]) && ss[i].role == Leader && NextIndexInRange(ss[i])
    requires to < ss[i].peers && IsPeer(ss[i].peers, ss[i].me, to)
    ensures Continues(p, q, ss, i, ss[i], {MessageTo(ss[i], to)})
  {
    hide IsRunAsWritten, Init, Shape, MessageTo;
    var h, s := End(p).hist, ss[i];
    q := Extend(p, ss, Heartbeat(i), i, s, Broadcast(s),
                if s.currentTerm in h.leaders then RecordSent(h, s.currentTerm, s.lastIncludedIndex) else h);
    assert MessageTo(s, to) in Broadcast(s);
  }

  lemma Appends(p: Path, ss: seq<Server>, i: nat, m: Message) returns (q: Path)
    requires p.At(ss) && i < |ss| && Shape(ss[i]) && p.Sent(m) && m.AppendRequest? && m.to == i
    ensures var (s', reply) := AppendEntries(ss[i], m.aargs);
            Continues(p, q, ss, i, s', {AppendReply(i, m.from, m.aargs, reply)})
  {
    hide IsRunAsWritten, Init, AppendEntries, Shape, Continues;
    var (s', reply) := AppendEntries(ss[i], m.aargs);
    var h, last := End(p).hist, m.aargs.prevLogIndex + |m.aargs.entries|;
    q := Extend(p, ss, ReceiveAppend(i, m), i, s', {AppendReply(i, m.from, m.aargs, reply)},
                if reply.success && last >= 0 then RecordAck(h, Ballot(i, m.aargs.term), last) else h);
  }

  lemma Hears(p: Path, ss: seq<Server>, i: nat, m: Message) returns (q: Path)
    requires p.At(ss) && i < |ss| && Shape(ss[i]) && p.Sent(m) && m.AppendReply? && m.to == i && m.from < ss[i].peers
    ensures Continues(p, q, ss, i, HandleAppendReply(ss[i], m.from, m.aargs, m.areply), {})
  {
    hide IsRunAsWritten, Init, HandleAppendReply, Shape, Continues;
    var s' := HandleAppendReply(ss[i], m.from, m.aargs, m.areply);
    q := Extend(p, ss, ReceiveAppendReply(i, m), i, s', {}, End(p).hist);
  }

  lemma Applies(p: Path, ss: seq<Server>, i: nat) returns (q: Path)
    requires p.At(ss) && i < |ss| && Shape(ss[i])
    requires ss[i].commitIndex <= LastLogIndex(ss[i]) && ss[i].lastIncludedIndex <= ss[i].lastApplied
    ensures Continues(p, q, ss, i, Deliver(ss[i]).0, {})
  {
    hide IsRunAsWritten, Init, Deliver, Shape, Continues;
    q := Extend(p, ss, Apply(i), i, Deliver(ss[i]).0, {}, End(p).hist);
  }

  lemma Compacts(p: Path, ss: seq<Server>, i: nat, index: int) returns (q: Path)
    requires p.At(ss) && i < |ss| && Shape(ss[i])
    requires ss[i].commitIndex <= LastLogIndex(ss[i]) && 0 <= index <= ss[i].lastApplied && index < |FullLog(ss[i])|
    ensures Continues(p, q, ss, i, Snapshot(ss[i], index, FullLog(ss[i])[..index + 1]), {})
  {
    hide IsRunAsWritten, Init, Snapshot, Continues;
    q := Extend(p, ss, TakeSnapshot(i, index), i, Snapshot(ss[i], index, FullLog(ss[i])[..index + 1]), {}, End(p).hist);
  }

  lemma Installs(p: Path, ss: seq<Server>, i: nat, m: Message) returns (q: Path)
    requires p.At(ss) && i < |ss| && Shape(ss[i]) && p.Sent(m) && m.InstallRequest? && m.to == i
    ensures GoesOn(p, q, ss, i, InstallSnapshotAsWritten(ss[i], m.iargs).0, {})
  {
    hide IsRunAsWritten, Init, InstallSnapshotAsWritten, Shape;
    var (s', reply) := InstallSnapshotAsWritten(ss[i], m.iargs);
    q := Extend(p, ss, ReceiveInstall(i, m), i, s', {InstallReply(i, m.from, m.iargs, reply)}, End(p).hist);
  }

  lemma Restarts(p: Path, ss: seq<Server>, i: nat) returns (q: Path)
    requires p.At(ss) && i < |ss|
    ensures q.At(ss[i := RestartAsWritten(i, 3, ss[i].disk)]) && p.run <= q.run
  {
    hide RestartAsWritten, Next;
    var vote := RestartAsWritten(i, 3, ss[i].disk).votedFor;
    var s' := RestartAsWritten(i, 3, ss[i].disk);
    var c := System(3, ss[i := s'], End(p).net, RecordRestart(End(p).hist, ss[i].disk, vote));
    q := Path(p.run + [c], p.steps + [Crash(i, vote)]);
    assert NextAsWritten(End(p), c, Crash(i, vote));
  }

  // ----- an election won by one vote -----

  /** What server `s` asks for when it stands for election. */
  function VoteArgs(s: Server): RequestVoteArgs
    requires |s.logs| >= 1
  {
    RequestVoteArgs(s.currentTerm + 1, s.me, LastLogIndex(s), LastLogTerm(s))
  }

  /** The leader it becomes by the vote of `v`. */
  function LeaderBy(s: Server, v: nat): Server
    requires Shape(s)
  {
    HandleVoteReply(StartElection(s), v, VoteArgs(s), RequestVoteReply(s.currentTerm + 1, true))
  }

  lemma LeaderIs(s: Server, v: nat)
    requires Shape(s) && s.peers == 3 && IsPeer(3, s.me, v)
    ensures var cand, l := StartElection(s), LeaderBy(s, v);
            && l == InitializeLeader(cand.(pending := l.pending, voteGrantedCnt := 2))
            && v in cand.pending && Shape(cand) && Shape(l) && NextIndexInRange(l)
            && VoteRequest(s.me, v, VoteArgs(s)) in VoteRequests(cand)
  {
    var cand := StartElection(s);
    assert VoteRequestTo(cand, v) == VoteRequest(s.me, v, VoteArgs(s));
  }

  lemma Stands(p: Path, ss: seq<Server>, i: nat) returns (q: Path)
    requires p.At(ss) && i < |ss| && Shape(ss[i])
    ensures |StartElection(ss[i]).logs| >= 1
    ensures Continues(p, q, ss, i, StartElection(ss[i]), VoteRequests(StartElection(ss[i])))
  {
    hide IsRunAsWritten, Init, VoteRequests, Continues;
    var s := ss[i];
    q := Extend(p, ss, ElectionTimeout(i), i, StartElection(s), VoteRequests(StartElection(s)),
                RecordVote(End(p).hist, Ballot(i, s.currentTerm + 1), Vote(i, FullLog(s))));
  }

  lemma Votes(p: Path, ss: seq<Server>, v: nat, m: Message) returns (q: Path)
    requires p.At(ss) && v < |ss| && Shape(ss[v]) && p.Sent(m) && m.VoteRequest? && m.to == v
    requires RequestVote(ss[v], m.vargs).1.voteGranted
    ensures Continues(p, q, ss, v, RequestVote(ss[v], m.vargs).0,
                      {VoteReply(v, m.from, m.vargs, RequestVoteReply(m.vargs.term, true))})
  {
    var s := ss[v];
    assert RequestVote(s, m.vargs).1 == RequestVoteReply(m.vargs.term, true);
    hide IsRunAsWritten, Init, RequestVote, Continues;
    q := Extend(p, ss, ReceiveVoteRequest(v, m), v, RequestVote(s, m.vargs).0,
                {VoteReply(v, m.from, m.vargs, RequestVoteReply(m.vargs.term, true))},
                RecordVote(End(p).hist, Ballot(v, m.vargs.term), Vote(m.vargs.candidateId, FullLog(s))));
  }

  lemma Wins(p: Path, ss: seq<Server>, i: nat, s: Server, v: nat) returns (q: Path)
    requires p.At(ss) && i < |ss| && Shape(s) && s.peers == 3 && s.me == i && IsPeer(3, i, v)
    requires ss[i] == StartElection(s)
    requires p.Sent(VoteReply(v, i, VoteArgs(s), RequestVoteReply(s.currentTerm + 1, true)))
    ensures Continues(p, q, ss, i, LeaderBy(s, v), {})
  {
    LeaderIs(s, v);
    hide IsRunAsWritten, Init, Broadcast, NextIndexInRange, Tally, HandleVoteReply, Shape;
    var cand, l, h := StartElection(s), LeaderBy(s, v), End(p).hist;
    var m := VoteReply(v, i, VoteArgs(s), RequestVoteReply(s.currentTerm + 1, true));
    q := Extend(p, ss, ReceiveVoteReply(i, m), i, l, Broadcast(l),
                RecordLeader(h, cand.currentTerm,
                             Leadership(i, Tally(h, 3, i, cand.currentTerm) - l.pending, FullLog(cand),
                                        cand.lastIncludedIndex)));
  }

  /** Server `i` stands for election and wins by the vote of `v`. */
  lemma Elects(p: Path, ss: seq<Server>, i: nat, v: nat) returns (q: Path)
    requires p.At(ss) && |ss| == 3 && i < 3 && IsPeer(3, i, v)
    requires Shape(ss[i]) && ss[i].me == i && ss[i].peers == 3 && Shape(ss[v])
    requires RequestVote(ss[v], VoteArgs(ss[i])).1.voteGranted
    ensures q.At(ss[i := LeaderBy(ss[i], v)][v := RequestVote(ss[v], VoteArgs(ss[i])).0])
    ensures Later(p, q)
  {
    var s, voter := ss[i], ss[v];
    LeaderIs(s, v);
    hide Path.At, Path.Sent, Path.Calm, Path.Plain, StartElection, VoteRequests, RequestVote, HandleVoteReply, Shape;
    hide NextIndexInRange;
    var p1 := Stands(p, ss, i);
    var ss1 := ss[i := StartElection(s)];
    var p2 := Votes(p1, ss1, v, VoteRequest(i, v, VoteArgs(s)));
    var ss2 := ss1[v := RequestVote(voter, VoteArgs(s)).0];
    q := Wins(p2, ss2, i, s, v);
    assert ss2[i := LeaderBy(s, v)] == ss[i := LeaderBy(s, v)][v := RequestVote(voter, VoteArgs(s)).0];
  }

  // ----- what servers look like -----

  /** One of three servers, without its disk and its running count. */
  function Face(me: nat, term: nat, vote: int, role: Role, logs: seq<LogEntry>, commit: int, applied: int,
                next: seq<int>, held: seq<int>, point: int, snapshot: seq<LogEntry>): Server {
    Server(me, 3, term, vote, role, logs, commit, applied, next, held, point, snapshot, 0, {}, None)
  }

  function Seen(s: Server): Server {
    s.(voteGrantedCnt := 0, pending := {}, disk := None)
  }

  const S := SENTINEL

  /** The compacted slot keeps a term only. */
  function Slot(term: nat): LogEntry {
    LogEntry(term, NoCommand)
  }

  lemma NewLeader(s: Server, v: nat)
    requires Shape(s) && s.peers == 3 && IsPeer(3, s.me, v)
    ensures var l, n := LeaderBy(s, v), RealLogLen(s);
            && Shape(l) && NextIndexInRange(l)
            && Seen(l) == Face(s.me, s.currentTerm + 1, s.me, Leader, s.logs, s.commitIndex, s.lastApplied, [n, n, n],
                               [s.lastIncludedIndex, s.lastIncludedIndex, s.lastIncludedIndex][s.me := n - 1],
                               s.lastIncludedIndex, s.snapshot)
  {
    LeaderIs(s, v);
    var l, n := LeaderBy(s, v), RealLogLen(s);
    assert l.nextIndex == [n, n, n];
    assert l.matchIndex == [s.lastIncludedIndex, s.lastIncludedIndex, s.lastIncludedIndex][s.me := n - 1];
  }

  lemma FromStart() returns (p: Path)
    ensures p.At([Fresh(0, 3, None), Fresh(1, 3, None), Fresh(2, 3, None)]) && p.Calm() && p.Plain()
  {
    p := Path([Init(3)], []);
    assert Init(3).servers == [Fresh(0, 3, None), Fresh(1, 3, None), Fresh(2, 3, None)];
  }

  // ----- two leaders in one term -----

  /** A voter that restarts after its vote for server 2 in term 1 takes server 1 for the one it voted for. */
  lemma Forgets(s: Server)
    requires s == RequestVote(Fresh(0, 3, None), RequestVoteArgs(1, 2, 0, 0)).0
    ensures RequestVote(Fresh(0, 3, None), RequestVoteArgs(1, 2, 0, 0)).1.voteGranted
    ensures var r := RestartAsWritten(0, 3, s.disk);
            Shape(r) && r.currentTerm == 1 && r.votedFor == 1 && r.logs == [SENTINEL] && r.lastIncludedIndex == 0
  {
  }

  lemma CanVote(s: Server, args: RequestVoteArgs)
    requires |s.logs| >= 1 && IsLogUpToDate(s, args.lastLogTerm, args.lastLogIndex)
    requires args.term > s.currentTerm || (args.term == s.currentTerm && s.votedFor == args.candidateId)
    ensures RequestVote(s, args).1.voteGranted
  {
  }

  lemma FreshShape(i: nat)
    requires i < 3
    ensures Shape(Fresh(i, 3, None)) && VoteArgs(Fresh(i, 3, None)) == RequestVoteArgs(1, i, 0, 0)
  {
  }

  /** Election Safety fails: server 0 votes for server 2, restarts, and votes for server 1. */
  lemma ElectionSafetyFails() returns (p: Path, ss: seq<Server>)
    ensures p.At(ss) && |ss| == 3
    ensures ss[1].role == Leader && ss[2].role == Leader && ss[1].currentTerm == ss[2].currentTerm == 1
  {
    hide Path.At, Path.Sent, Path.Calm, Path.Plain, RequestVote, LeaderBy, Shape, RestartAsWritten, VoteArgs;
    p := FromStart();
    ss := [Fresh(0, 3, None), Fresh(1, 3, None), Fresh(2, 3, None)];
    FreshShape(0);
    FreshShape(1);
    FreshShape(2);
    var voted := RequestVote(ss[0], VoteArgs(ss[2])).0;
    Forgets(voted);
    NewLeader(ss[2], 0);
    p := Elects(p, ss, 2, 0);
    ss := ss[2 := LeaderBy(ss[2], 0)][0 := voted];
    p := Restarts(p, ss, 0);
    ss := ss[0 := RestartAsWritten(0, 3, ss[0].disk)];
    CanVote(ss[0], VoteArgs(ss[1]));
    NewLeader(ss[1], 0);
    p := Elects(p, ss, 1, 0);
    ss := ss[1 := LeaderBy(ss[1], 0)][0 := RequestVote(ss[0], VoteArgs(ss[1])).0];
  }

  // ----- an acknowledged entry is lost -----

  lemma Starting(s: Server, cmd: Command, f: Server)
    requires Shape(s) && s.role == Leader && f == Seen(s)
    ensures Shape(Start(s, cmd))
    ensures Seen(Start(s, cmd)) == f.(logs := f.logs + [LogEntry(f.currentTerm, cmd)],
                                      matchIndex := f.matchIndex[f.me := LastLogIndex(f) + 1],
                                      nextIndex := f.nextIndex[f.me := RealLogLen(f) + 1])
  {
  }

  /** A follower takes the entries: its log becomes `logs`, its commit index the leader's if that is higher. */
  lemma Taking(s: Server, a: AppendEntriesArgs, logs: seq<LogEntry>)
    requires Shape(s) && a.term >= s.currentTerm && s.lastIncludedIndex <= a.prevLogIndex <= LastLogIndex(s)
    requires s.logs[LogIndex(s, a.prevLogIndex)].term == a.prevLogTerm
    requires MergeEntries(s.logs, LogIndex(s, a.prevLogIndex) + 1, a.entries) == logs && |logs| >= 1
    requires a.leaderCommit <= s.lastIncludedIndex + |logs| - 1
    ensures var (s', reply) := AppendEntries(s, a);
            && reply == AppendEntriesReply(a.term, true, 0, 0, 0) && Shape(s')
            && Seen(s') == Seen(AdoptTerm(s, a.term)).(role := Follower, logs := logs,
                                                       commitIndex := Max(s.commitIndex, a.leaderCommit))
  {
    hide MergeEntries, ConflictScan;
  }

  /** The leader of term 1 with two entries; server 0 has both, server 2 the first. */
  ghost predicate TwoSent(p: Path, ss: seq<Server>, x: Command, y: Command) {
    var e1, e2 := LogEntry(1, x), LogEntry(1, y);
    && p.At(ss) && p.Calm() && |ss| == 3 && Shape(ss[0]) && Shape(ss[1]) && Shape(ss[2])
    && Seen(ss[0]) == Face(0, 1, NO_VOTE, Follower, [S, e1, e2], 0, 0, [0, 0, 0], [0, 0, 0], 0, [S])
    && Seen(ss[1]) == Face(1, 1, 1, Leader, [S, e1, e2], 0, 0, [1, 3, 1], [0, 2, 0], 0, [S])
    && Seen(ss[2]) == Face(2, 1, 1, Follower, [S, e1], 0, 0, [0, 0, 0], [0, 0, 0], 0, [S])
    && p.Sent(AppendReply(2, 1, AppendEntriesArgs(1, 1, 0, 0, [e1], 0), AppendEntriesReply(1, true, 0, 0, 0)))
    && p.Sent(AppendReply(0, 1, AppendEntriesArgs(1, 1, 0, 0, [e1, e2], 0), AppendEntriesReply(1, true, 0, 0, 0)))
  }

  lemma FirstLeader()
    ensures var s1, s2 := Fresh(1, 3, None), Fresh(2, 3, None);
            && Shape(s1) && Shape(s2) && RequestVote(s2, VoteArgs(s1)).1.voteGranted
            && Shape(LeaderBy(s1, 2))
            && Seen(LeaderBy(s1, 2)) == Face(1, 1, 1, Leader, [S], 0, 0, [1, 1, 1], [0, 0, 0], 0, [S])
            && var g := RequestVote(s2, VoteArgs(s1)).0;
               Shape(g) && Seen(g) == Face(2, 1, 1, Follower, [S], 0, 0, [0, 0, 0], [0, 0, 0], 0, [S])
  {
    var s1, s2 := Fresh(1, 3, None), Fresh(2, 3, None);
    NewLeader(s1, 2);
    assert seq(3, _ => 0) == [0, 0, 0];
    assert [0, 0, 0][1 := 0] == [0, 0, 0];
  }

  /** The leader's message from a next index of 1. */
  lemma SendsAll(s: Server, to: nat, logs: seq<LogEntry>)
    requires Shape(s) && s.role == Leader && IsPeer(3, s.me, to) && s.peers == 3 && s.lastIncludedIndex == 0
    requires s.commitIndex == 0
    requires s.logs == [S] + logs && s.nextIndex[to] == 1
    requires forall q :: 0 <= q < 3 ==> 0 <= s.nextIndex[q] <= RealLogLen(s)
    ensures NextIndexInRange(s)
    ensures MessageTo(s, to) == AppendRequest(s.me, to, AppendEntriesArgs(s.currentTerm, s.me, 0, 0, logs, 0))
  {
  }

  lemma MergeAtEnd(logs: seq<LogEntry>, es: seq<LogEntry>)
    ensures MergeEntries(logs, |logs|, es) == logs + es
    decreases |es|
  {
    if es == [] {
      assert logs + es == logs;
    } else {
      MergeAtEnd(logs + [es[0]], es[1..]);
      assert (logs + [es[0]]) + es[1..] == logs + es;
    }
  }

  lemma SendTwo(x: Command, y: Command) returns (p: Path, ss: seq<Server>)
    ensures TwoSent(p, ss, x, y)
  {
    hide Path.At, Path.Sent, Path.Calm, Path.Plain, Start, AppendEntries, RequestVote, LeaderBy, Shape, MessageTo;
    hide VoteArgs, NextIndexInRange, MergeEntries;
    var e1, e2 := LogEntry(1, x), LogEntry(1, y);
    var f, l, g := Fresh(0, 3, None), Fresh(1, 3, None), Fresh(2, 3, None);
    p := FromStart();
    FirstLeader();
    FreshShape(0);
    p := Elects(p, [f, l, g], 1, 2);
    var l1, g1 := LeaderBy(l, 2), RequestVote(g, VoteArgs(l)).0;
    assert [f, l, g][1 := l1][2 := g1] == [f, l1, g1];
    var l2, l3;
    p, l2 := StartAndSend(p, f, l1, g1, x, 2, [], [1, 2, 1], [0, 1, 0]);
    assert [S] + [] + [e1] == [S] + [e1] && [] + [e1] == [e1];
    p, l3 := StartAndSend(p, f, l2, g1, y, 0, [e1], [1, 3, 1], [0, 2, 0]);
    assert [S] + [e1] + [e2] == [S, e1, e2] && [e1] + [e2] == [e1, e2];
    p, ss := TakeTwo(p, f, l3, g1, x, y);
  }

  lemma TakeTwo(p: Path, f: Server, l: Server, g: Server, x: Command, y: Command) returns (q: Path, ss: seq<Server>)
    requires p.At([f, l, g]) && p.Calm() && Shape(f) && Shape(l) && Shape(g)
    requires Seen(f) == Face(0, 0, NO_VOTE, Follower, [S], 0, 0, [0, 0, 0], [0, 0, 0], 0, [S])
    requires var e1, e2 := LogEntry(1, x), LogEntry(1, y);
             && Seen(l) == Face(1, 1, 1, Leader, [S, e1, e2], 0, 0, [1, 3, 1], [0, 2, 0], 0, [S])
             && Seen(g) == Face(2, 1, 1, Follower, [S], 0, 0, [0, 0, 0], [0, 0, 0], 0, [S])
             && p.Sent(AppendRequest(1, 2, AppendEntriesArgs(1, 1, 0, 0, [e1], 0)))
             && p.Sent(AppendRequest(1, 0, AppendEntriesArgs(1, 1, 0, 0, [e1, e2], 0)))
    ensures TwoSent(q, ss, x, y)
  {
    hide Path.At, Path.Sent, Path.Calm, Path.Plain, Shape;
    var e1, e2 := LogEntry(1, x), LogEntry(1, y);
    var g1, f1;
    q, g1 := Takes(p, [f, l, g], 2, [e1]);
    assert [f, l, g][2 := g1] == [f, l, g1];
    q, f1 := Takes(q, [f, l, g1], 0, [e1, e2]);
    ss := [f1, l, g1];
    assert [f, l, g1][0 := f1] == ss;
    assert [S] + [e1] == [S, e1] && [S] + [e1, e2] == [S, e1, e2];
  }

  /** A server with an empty log takes what the first leader sent it. */
  lemma Takes(p: Path, ss: seq<Server>, i: nat, es: seq<LogEntry>) returns (q: Path, s: Server)
    requires p.At(ss) && i < |ss| && Shape(ss[i]) && ss[i].me == i
    requires ss[i].currentTerm <= 1 && ss[i].logs == [S] && ss[i].lastIncludedIndex == 0 && ss[i].commitIndex == 0
    requires p.Sent(AppendRequest(1, i, AppendEntriesArgs(1, 1, 0, 0, es, 0)))
    ensures q.At(ss[i := s]) && Later(p, q)
    ensures Shape(s) && Seen(s) == Seen(AdoptTerm(ss[i], 1)).(role := Follower, logs := [S] + es)
    ensures q.Sent(AppendReply(i, 1, AppendEntriesArgs(1, 1, 0, 0, es, 0), AppendEntriesReply(1, true, 0, 0, 0)))
  {
    hide Path.At, Path.Sent, Path.Calm, Path.Plain, AppendEntries, Shape, MergeEntries;
    var a := AppendEntriesArgs(1, 1, 0, 0, es, 0);
    MergeAtEnd([S], es);
    Taking(ss[i], a, [S] + es);
    q := Appends(p, ss, i, AppendRequest(1, i, a));
    s := AppendEntries(ss[i], a).0;
  }

  /** The first leader appends a command and sends its whole log to a peer. */
  lemma StartAndSend(p: Path, f: Server, l: Server, g: Server, cmd: Command, to: nat, before: seq<LogEntry>,
                     next: seq<int>, held: seq<int>)
    returns (q: Path, l': Server)
    requires p.At([f, l, g]) && Shape(l) && (to == 0 || to == 2) && |l.nextIndex| == 3 == |l.matchIndex|
    requires Seen(l) == Face(1, 1, 1, Leader, [S] + before, 0, 0, l.nextIndex, l.matchIndex, 0, [S])
    requires l.nextIndex[0] == 1 && l.nextIndex[2] == 1
    requires next == l.nextIndex[1 := |before| + 2] && held == l.matchIndex[1 := |before| + 1]
    ensures q.At([f, l', g]) && Later(p, q)
    ensures Shape(l') && Seen(l') == Face(1, 1, 1, Leader, [S] + before + [LogEntry(1, cmd)], 0, 0, next, held, 0, [S])
    ensures q.Sent(AppendRequest(1, to, AppendEntriesArgs(1, 1, 0, 0, before + [LogEntry(1, cmd)], 0)))
  {
    hide Path.At, Path.Sent, Path.Calm, Path.Plain, Start, Shape, MessageTo, NextIndexInRange;
    Starting(l, cmd, Seen(l));
    l' := Start(l, cmd);
    q := Starts(p, [f, l, g], 1, cmd);
    assert [f, l, g][1 := l'] == [f, l', g];
    SendsAll(l', to, before + [LogEntry(1, cmd)]);
    q := Beats(q, [f, l', g], 1, to);
    assert [f, l', g][1 := l'] == [f, l', g];
  }

  function One(b: bool): nat {
    if b then 1 else 0
  }

  lemma CountThree(held: seq<int>, index: int)
    requires |held| == 3
    ensures CountMatching(held, index, 3) == One(index <= held[0]) + One(index <= held[1]) + One(index <= held[2])
  {
    assert CountMatching(held, index, 1) == One(index <= held[0]);
    assert CountMatching(held, index, 2) == One(index <= held[0]) + One(index <= held[1]);
  }

  /** Index `k` is of the leader's term and two of three servers hold it. */
  predicate Enough(s: Server, held: seq<int>, k: int)
    requires Shape(s) && |held| == 3 && s.lastIncludedIndex <= k < RealLogLen(s)
  {
    && s.logs[LogIndex(s, k)].term == s.currentTerm
    && One(k <= held[0]) + One(k <= held[1]) + One(k <= held[2]) > 1
  }

  lemma Committing(s: Server, k: int)
    requires Shape(s) && s.peers == 3 && s.lastIncludedIndex <= k < RealLogLen(s)
    ensures Committable(s, k) <==> Enough(s, s.matchIndex, k)
  {
    CountThree(s.matchIndex, k);
  }

  /** The leader's commit index rises to the last entry, or to the one before, or stays. */
  lemma CommitsTo(s: Server, c: int)
    requires Shape(s) && s.peers == 3 && s.commitIndex <= c < RealLogLen(s)
    requires forall k :: c < k < RealLogLen(s) ==> !Committable(s, k)
    requires c > s.commitIndex ==> Committable(s, c)
    ensures CheckAndCommitLogs(s) == s.(commitIndex := c)
  {
    ScanTo(s, s.commitIndex + 1, s.commitIndex, c);
  }

  lemma {:induction false} ScanTo(s: Server, lo: int, best: int, c: int)
    requires Shape(s) && s.lastIncludedIndex <= lo <= RealLogLen(s) && c < RealLogLen(s)
    requires forall k :: c < k < RealLogLen(s) && k >= lo ==> !Committable(s, k)
    requires if c >= lo then Committable(s, c) else best == c
    ensures CommitScan(s, lo, best) == c
    decreases RealLogLen(s) - lo
  {
    hide Committable;
    if lo < RealLogLen(s) {
      ScanTo(s, lo + 1, if Committable(s, lo) then lo else best, c);
    }
  }

  /** A leader hears that a peer holds everything up to index `n`, and then commits up to `c`. */
  lemma Hearing(s: Server, peer: nat, a: AppendEntriesArgs, n: int, held: seq<int>, c: int)
    requires Shape(s) && s.peers == 3 && peer < 3 && s.role == Leader && a.term == s.currentTerm
    requires n == a.prevLogIndex + |a.entries| && n >= s.matchIndex[peer] && n + 1 >= s.nextIndex[peer]
    requires s.commitIndex <= c < RealLogLen(s)
    requires held == s.matchIndex[peer := n]
    requires forall k :: c < k < RealLogLen(s) ==> !Enough(s, held, k)
    requires c > s.commitIndex ==> Enough(s, held, c)
    ensures var s' := HandleAppendReply(s, peer, a, AppendEntriesReply(a.term, true, 0, 0, 0));
            Shape(s') && s' == s.(matchIndex := held, nextIndex := s.nextIndex[peer := n + 1], commitIndex := c)
  {
    hide One, Committable, CommitScan, CountMatching;
    var s1 := s.(matchIndex := s.matchIndex[peer := n], nextIndex := s.nextIndex[peer := n + 1]);
    forall k | s.commitIndex < k < RealLogLen(s) ensures Committable(s1, k) <==> Enough(s, s1.matchIndex, k) {
      Committing(s1, k);
    }
    CommitsTo(s1, c);
  }

  /** Server 1 has committed both entries, server 0 has dropped the second. */
  ghost predicate LateCommit(p: Path, ss: seq<Server>, x: Command, y: Command) {
    var e1, e2 := LogEntry(1, x), LogEntry(1, y);
    && p.At(ss) && p.Calm() && |ss| == 3 && Shape(ss[0]) && Shape(ss[1]) && Shape(ss[2])
    && Seen(ss[0]) == Face(0, 1, NO_VOTE, Follower, [Slot(1)], 1, 1, [0, 0, 0], [0, 0, 0], 1, [S, e1])
    && Seen(ss[1]) == Face(1, 1, 1, Leader, [Slot(1), e2], 2, 1, [3, 3, 2], [2, 2, 1], 1, [S, e1])
    && Seen(ss[2]) == Face(2, 1, 1, Follower, [S, e1], 0, 0, [0, 0, 0], [0, 0, 0], 0, [S])
    && p.Sent(AppendReply(0, 1, AppendEntriesArgs(1, 1, 0, 0, [e1, e2], 0), AppendEntriesReply(1, true, 0, 0, 0)))
  }

  /** The leader with the first entry committed, applied and compacted. */
  lemma Compacting(s: Server, e1: LogEntry, e2: LogEntry)
    requires Shape(s) && Seen(s) == Face(1, 1, 1, Leader, [S, e1, e2], 1, 0, [1, 3, 2], [0, 2, 1], 0, [S])
    ensures var s1 := Deliver(s).0;
            && Shape(s1) && s1 == s.(lastApplied := 1) && |FullLog(s1)| == 3 && FullLog(s1)[..2] == [S, e1]
            && var s2 := Snapshot(s1, 1, [S, e1]);
               && Shape(s2) && NextIndexInRange(s2)
               && Seen(s2) == Face(1, 1, 1, Leader, [Slot(e1.term), e2], 1, 1, [1, 3, 2], [0, 2, 1], 1, [S, e1])
               && MessageTo(s2, 0) == InstallRequest(1, 0, InstallSnapshotArgs(1, 1, 1, e1.term, [S, e1]))
  {
    assert s.logs == [S, e1, e2];
    assert s.logs[2..] == [e2];
    assert FullLog(s) == [S] + [e1, e2];
  }

  /** The follower as written: its slot 0 has term 0, so it drops everything. */
  lemma Dropping(s: Server, e1: LogEntry, e2: LogEntry)
    requires Shape(s) && Seen(s) == Face(0, 1, NO_VOTE, Follower, [S, e1, e2], 0, 0, [0, 0, 0], [0, 0, 0], 0, [S])
    requires e1.term == 1
    ensures var s' := InstallSnapshotAsWritten(s, InstallSnapshotArgs(1, 1, 1, 1, [S, e1])).0;
            Shape(s') && Seen(s') == Face(0, 1, NO_VOTE, Follower, [Slot(1)], 1, 1, [0, 0, 0], [0, 0, 0], 1, [S, e1])
  {
    assert [Slot(1)] + [] == [Slot(1)];
  }

  lemma LosesEntry(p: Path, ss: seq<Server>, x: Command, y: Command) returns (q: Path, tt: seq<Server>)
    requires TwoSent(p, ss, x, y)
    ensures LateCommit(q, tt, x, y) && p.run <= q.run
  {
    hide Path.At, Path.Sent, Path.Calm, Path.Plain, Shape, HandleAppendReply, Deliver, Snapshot, MessageTo;
    hide NextIndexInRange, InstallSnapshotAsWritten, FullLog;
    var e1, e2 := LogEntry(1, x), LogEntry(1, y);
    var ok := AppendEntriesReply(1, true, 0, 0, 0);
    var a1, a2 := AppendEntriesArgs(1, 1, 0, 0, [e1], 0), AppendEntriesArgs(1, 1, 0, 0, [e1, e2], 0);
    var f, l, g := ss[0], ss[1], ss[2];
    assert ss == [f, l, g];
    Hearing(l, 2, a1, 1, [0, 2, 1], 1);
    q := Hears(p, ss, 1, AppendReply(2, 1, a1, ok));
    var l1 := HandleAppendReply(l, 2, a1, ok);
    assert ss[1 := l1] == [f, l1, g];
    Compacting(l1, e1, e2);
    q := Applies(q, [f, l1, g], 1);
    var l2 := Deliver(l1).0;
    assert [f, l1, g][1 := l2] == [f, l2, g];
    q := Compacts(q, [f, l2, g], 1, 1);
    var l3 := Snapshot(l2, 1, [S, e1]);
    assert [f, l2, g][1 := l3] == [f, l3, g];
    q := Beats(q, [f, l3, g], 1, 0);
    assert [f, l3, g][1 := l3] == [f, l3, g];
    Dropping(f, e1, e2);
    var i1 := InstallSnapshotArgs(1, 1, 1, 1, [S, e1]);
    q := Installs(q, [f, l3, g], 0, InstallRequest(1, 0, i1));
    var f1 := InstallSnapshotAsWritten(f, i1).0;
    assert [f, l3, g][0 := f1] == [f1, l3, g];
    Hearing(l3, 0, a2, 2, [2, 2, 1], 2);
    q := Hears(q, [f1, l3, g], 1, AppendReply(0, 1, a2, ok));
    var l4 := HandleAppendReply(l3, 0, a2, ok);
    tt := [f1, l4, g];
    assert [f1, l3, g][1 := l4] == tt;
  }

  lemma LogsOf(s: Server, snapshot: seq<LogEntry>, tail: seq<LogEntry>, point: nat)
    requires s.snapshot == snapshot && s.logs == [Slot(point)] + tail
    ensures FullLog(s) == snapshot + tail
  {
  }

  /** Server 0 acknowledges both entries, server 1 commits them, and server 0 has lost the second to
      a snapshot of the first, with no server restarting. */
  lemma AcknowledgedEntryLost(x: Command, y: Command) returns (p: Path, ss: seq<Server>)
    ensures LateCommit(p, ss, x, y)
    ensures var e1, e2 := LogEntry(1, x), LogEntry(1, y);
            && p.Calm()
            && p.Sent(AppendReply(0, 1, AppendEntriesArgs(1, 1, 0, 0, [e1, e2], 0),
                                  AppendEntriesReply(1, true, 0, 0, 0)))
            && FullLog(ss[0]) == [S, e1] && FullLog(ss[1]) == [S, e1, e2] && ss[1].commitIndex == 2
  {
    hide Path.At, Path.Sent, Path.Calm, Path.Plain, Shape;
    p, ss := SendTwo(x, y);
    p, ss := LosesEntry(p, ss, x, y);
    assert ss[0].logs == [Slot(1)] + [];
    LogsOf(ss[0], [S, LogEntry(1, x)], [], 1);
    assert ss[1].logs == [Slot(1)] + [LogEntry(1, y)];
    LogsOf(ss[1], [S, LogEntry(1, x)], [LogEntry(1, y)], 1);
    assert [S, LogEntry(1, x)] + [LogEntry(1, y)] == [S, LogEntry(1, x), LogEntry(1, y)];
  }

  /** Server 0 is elected in term 2 without the lost entry. */
  lemma Reelecting(f: Server, g: Server, e1: LogEntry, logs: seq<LogEntry>)
    requires Shape(f) && Seen(f) == Face(0, 1, NO_VOTE, Follower, [Slot(1)], 1, 1, [0, 0, 0], [0, 0, 0], 1, [S, e1])
    requires Shape(g) && Seen(g) == Face(2, 1, 1, Follower, logs, 0, 0, [0, 0, 0], [0, 0, 0], 0, [S])
    requires e1.term == 1 && (logs == [S] || logs == [S, e1])
    ensures VoteArgs(f) == RequestVoteArgs(2, 0, 1, 1) && RequestVote(g, VoteArgs(f)).1.voteGranted
    ensures var l, g' := LeaderBy(f, 2), RequestVote(g, VoteArgs(f)).0;
            && Shape(l) && Seen(l) == Face(0, 2, 0, Leader, [Slot(1)], 1, 1, [2, 2, 2], [1, 1, 1], 1, [S, e1])
            && Shape(g') && Seen(g') == Face(2, 2, 0, Follower, logs, 0, 0, [0, 0, 0], [0, 0, 0], 0, [S])
  {
    NewLeader(f, 2);
    assert [1, 1, 1][0 := 1] == [1, 1, 1];
  }

  lemma SendsNew(s: Server, e1: LogEntry, b2: LogEntry)
    requires Shape(s) && Seen(s) == Face(0, 2, 0, Leader, [Slot(1), b2], 1, 1, [3, 2, 2], [2, 1, 1], 1, [S, e1])
    ensures NextIndexInRange(s) && MessageTo(s, 2) == AppendRequest(0, 2, AppendEntriesArgs(2, 0, 1, 1, [b2], 1))
  {
    assert s.logs == [Slot(1), b2];
    assert s.logs[1..] == [b2];
  }

  /** State Machine Safety fails with no server restarting: servers 0 and 1 count different entries
      as committed at index 2. */
  lemma StateMachineSafetyFails(x: Command, y: Command, z: Command) returns (p: Path, ss: seq<Server>)
    ensures p.At(ss) && p.Calm() && |ss| == 3
    ensures var e1, e2, b2 := LogEntry(1, x), LogEntry(1, y), LogEntry(2, z);
            && ss[0].commitIndex == 2 && ss[1].commitIndex == 2 && |ss[0].logs| >= 1 && |ss[1].logs| >= 1
            && FullLog(ss[0]) == [S, e1, b2] && FullLog(ss[1]) == [S, e1, e2]
  {
    hide Path.At, Path.Sent, Path.Calm, Path.Plain, Shape, RequestVote, LeaderBy, VoteArgs, Start, MessageTo;
    hide NextIndexInRange, AppendEntries, HandleAppendReply, FullLog, MergeEntries;
    var e1, b2 := LogEntry(1, x), LogEntry(2, z);
    p, ss := AcknowledgedEntryLost(x, y);
    var f, l, g := ss[0], ss[1], ss[2];
    assert ss == [f, l, g];
    Reelecting(f, g, e1, [S, e1]);
    p := Elects(p, [f, l, g], 0, 2);
    var f1, g1 := LeaderBy(f, 2), RequestVote(g, VoteArgs(f)).0;
    assert [f, l, g][0 := f1][2 := g1] == [f1, l, g1];
    Starting(f1, z, Seen(f1));
    p := Starts(p, [f1, l, g1], 0, z);
    var f2 := Start(f1, z);
    assert [f1, l, g1][0 := f2] == [f2, l, g1];
    assert [Slot(1)] + [b2] == [Slot(1), b2];
    SendsNew(f2, e1, b2);
    p := Beats(p, [f2, l, g1], 0, 2);
    assert [f2, l, g1][0 := f2] == [f2, l, g1];
    var a := AppendEntriesArgs(2, 0, 1, 1, [b2], 1);
    MergeAtEnd([S, e1], [b2]);
    Taking(g1, a, [S, e1] + [b2]);
    p := Appends(p, [f2, l, g1], 2, AppendRequest(0, 2, a));
    var g2 := AppendEntries(g1, a).0;
    assert [f2, l, g1][2 := g2] == [f2, l, g2];
    Hearing(f2, 2, a, 2, [2, 1, 2], 2);
    p := Hears(p, [f2, l, g2], 0, AppendReply(2, 0, a, AppendEntriesReply(2, true, 0, 0, 0)));
    var f3 := HandleAppendReply(f2, 2, a, AppendEntriesReply(2, true, 0, 0, 0));
    ss := [f3, l, g2];
    assert [f2, l, g2][0 := f3] == ss;
    LogsOf(f3, [S, e1], [b2], 1);
    assert [S, e1] + [b2] == [S, e1, b2];
  }

  // ----- an entry of an abandoned branch survives -----

  /** Servers 0 and 1 have the first entry committed, server 0 has compacted it, and the leader has a
      second entry nobody else has. */
  ghost predicate Compacted(p: Path, ss: seq<Server>, x: Command, y: Command) {
    var e1, a2 := LogEntry(1, x), LogEntry(1, y);
    && p.At(ss) && p.Calm() && p.Plain() && |ss| == 3 && Shape(ss[0]) && Shape(ss[1]) && Shape(ss[2])
    && p.Sent(AppendRequest(1, 0, AppendEntriesArgs(1, 1, 0, 0, [e1], 0)))
    && Seen(ss[0]) == Face(0, 1, NO_VOTE, Follower, [Slot(1)], 1, 1, [0, 0, 0], [0, 0, 0], 1, [S, e1])
    && Seen(ss[1]) == Face(1, 1, 1, Leader, [S, e1, a2], 1, 0, [2, 3, 1], [1, 2, 0], 0, [S])
    && Seen(ss[2]) == Face(2, 1, 1, Follower, [S], 0, 0, [0, 0, 0], [0, 0, 0], 0, [S])
  }

  /** A heartbeat that only carries the commit index. */
  lemma Confirming(s: Server, e1: LogEntry)
    requires Shape(s) && Seen(s) == Face(1, 1, 1, Leader, [S, e1], 1, 0, [2, 2, 1], [1, 1, 0], 0, [S]) && e1.term == 1
    ensures NextIndexInRange(s) && MessageTo(s, 0) == AppendRequest(1, 0, AppendEntriesArgs(1, 1, 1, 1, [], 1))
  {
    assert s.logs == [S, e1];
    assert s.logs[2..] == [];
  }

  /** The follower with its one entry committed applies and compacts it. */
  lemma CompactingOne(s: Server, e1: LogEntry)
    requires Shape(s) && Seen(s) == Face(0, 1, NO_VOTE, Follower, [S, e1], 1, 0, [0, 0, 0], [0, 0, 0], 0, [S])
    requires e1.term == 1
    ensures var s1 := Deliver(s).0;
            && Shape(s1) && s1 == s.(lastApplied := 1) && |FullLog(s1)| == 2 && FullLog(s1)[..2] == [S, e1]
            && var s2 := Snapshot(s1, 1, [S, e1]);
               Shape(s2) && Seen(s2) == Face(0, 1, NO_VOTE, Follower, [Slot(1)], 1, 1, [0, 0, 0], [0, 0, 0], 1, [S, e1])
  {
    assert s.logs == [S, e1];
    assert s.logs[2..] == [];
    assert FullLog(s) == [S] + [e1];
    assert [Slot(1)] + [] == [Slot(1)];
  }

  lemma CompactFirst(x: Command, y: Command) returns (p: Path, ss: seq<Server>)
    ensures Compacted(p, ss, x, y)
  {
    hide Path.At, Path.Sent, Path.Calm, Path.Plain, RequestVote, LeaderBy, Shape, MessageTo, VoteArgs, NextIndexInRange;
    hide HandleAppendReply;
    var e1 := LogEntry(1, x);
    var f, l, g := Fresh(0, 3, None), Fresh(1, 3, None), Fresh(2, 3, None);
    p := FromStart();
    FirstLeader();
    FreshShape(0);
    p := Elects(p, [f, l, g], 1, 2);
    var l1, g1 := LeaderBy(l, 2), RequestVote(g, VoteArgs(l)).0;
    assert [f, l, g][1 := l1][2 := g1] == [f, l1, g1];
    var l2;
    p, l2 := StartAndSend(p, f, l1, g1, x, 0, [], [1, 2, 1], [0, 1, 0]);
    assert [S] + [] + [e1] == [S, e1] && [] + [e1] == [e1];
    var f1;
    p, f1 := Takes(p, [f, l2, g1], 0, [e1]);
    assert [f, l2, g1][0 := f1] == [f1, l2, g1];
    p, ss := CompactSecond(p, f1, l2, g1, x, y);
  }

  lemma CompactSecond(p: Path, f: Server, l: Server, g: Server, x: Command, y: Command)
    returns (q: Path, ss: seq<Server>)
    requires var e1 := LogEntry(1, x);
             && p.At([f, l, g]) && p.Calm() && p.Plain() && Shape(f) && Shape(l) && Shape(g)
             && p.Sent(AppendRequest(1, 0, AppendEntriesArgs(1, 1, 0, 0, [e1], 0)))
             && Seen(f) == Face(0, 1, NO_VOTE, Follower, [S, e1], 0, 0, [0, 0, 0], [0, 0, 0], 0, [S])
             && Seen(l) == Face(1, 1, 1, Leader, [S, e1], 0, 0, [1, 2, 1], [0, 1, 0], 0, [S])
             && Seen(g) == Face(2, 1, 1, Follower, [S], 0, 0, [0, 0, 0], [0, 0, 0], 0, [S])
             && p.Sent(AppendReply(0, 1, AppendEntriesArgs(1, 1, 0, 0, [e1], 0), AppendEntriesReply(1, true, 0, 0, 0)))
    ensures Compacted(q, ss, x, y)
  {
    hide Path.At, Path.Sent, Path.Calm, Path.Plain, Shape, MessageTo, NextIndexInRange, HandleAppendReply;
    hide AppendEntries, Deliver, Snapshot, Start, FullLog, MergeEntries;
    var e1 := LogEntry(1, x);
    var a, ok := AppendEntriesArgs(1, 1, 0, 0, [e1], 0), AppendEntriesReply(1, true, 0, 0, 0);
    Hearing(l, 0, a, 1, [1, 1, 0], 1);
    q := Hears(p, [f, l, g], 1, AppendReply(0, 1, a, ok));
    var l1 := HandleAppendReply(l, 0, a, ok);
    assert [f, l, g][1 := l1] == [f, l1, g];
    Confirming(l1, e1);
    q := Beats(q, [f, l1, g], 1, 0);
    assert [f, l1, g][1 := l1] == [f, l1, g];
    var a2 := AppendEntriesArgs(1, 1, 1, 1, [], 1);
    MergeAtEnd([S, e1], []);
    Taking(f, a2, [S, e1]);
    q := Appends(q, [f, l1, g], 0, AppendRequest(1, 0, a2));
    var f1 := AppendEntries(f, a2).0;
    assert [f, l1, g][0 := f1] == [f1, l1, g];
    CompactingOne(f1, e1);
    q := Applies(q, [f1, l1, g], 0);
    var f2 := Deliver(f1).0;
    assert [f1, l1, g][0 := f2] == [f2, l1, g];
    q := Compacts(q, [f2, l1, g], 0, 1);
    var f3 := Snapshot(f2, 1, [S, e1]);
    assert [f2, l1, g][0 := f3] == [f3, l1, g];
    Starting(l1, y, Seen(l1));
    q := Starts(q, [f3, l1, g], 1, y);
    ss := [f3, Start(l1, y), g];
    assert [f3, l1, g][1 := Start(l1, y)] == ss;
    assert [S, e1] + [LogEntry(1, y)] == [S, e1, LogEntry(1, y)];
  }

  /** Server 0 leads term 2 with two entries of its own. */
  ghost predicate Branched(p: Path, ss: seq<Server>, x: Command, y: Command, z: Command, w: Command) {
    var e1, a2, b2, b3 := LogEntry(1, x), LogEntry(1, y), LogEntry(2, z), LogEntry(2, w);
    && p.At(ss) && p.Calm() && |ss| == 3 && Shape(ss[0]) && Shape(ss[1]) && Shape(ss[2])
    && Seen(ss[0]) == Face(0, 2, 0, Leader, [Slot(1), b2, b3], 1, 1, [4, 2, 2], [3, 1, 1], 1, [S, e1])
    && Seen(ss[1]) == Face(1, 1, 1, Leader, [S, e1, a2], 1, 0, [2, 3, 1], [1, 2, 0], 0, [S])
    && Seen(ss[2]) == Face(2, 2, 0, Follower, [S], 0, 0, [0, 0, 0], [0, 0, 0], 0, [S])
  }

  lemma Branches(x: Command, y: Command, z: Command, w: Command) returns (p: Path, ss: seq<Server>)
    ensures Branched(p, ss, x, y, z, w)
  {
    hide Path.At, Path.Sent, Path.Calm, Path.Plain, Shape, RequestVote, LeaderBy, VoteArgs, Start;
    p, ss := CompactFirst(x, y);
    var e1, b2, b3 := LogEntry(1, x), LogEntry(2, z), LogEntry(2, w);
    var f, l, g := ss[0], ss[1], ss[2];
    assert ss == [f, l, g];
    Reelecting(f, g, e1, [S]);
    p := Elects(p, [f, l, g], 0, 2);
    var f1, g1 := LeaderBy(f, 2), RequestVote(g, VoteArgs(f)).0;
    assert [f, l, g][0 := f1][2 := g1] == [f1, l, g1];
    Starting(f1, z, Seen(f1));
    p := Starts(p, [f1, l, g1], 0, z);
    var f2 := Start(f1, z);
    assert [f1, l, g1][0 := f2] == [f2, l, g1];
    Starting(f2, w, Seen(f2));
    p := Starts(p, [f2, l, g1], 0, w);
    ss := [Start(f2, w), l, g1];
    assert [f2, l, g1][0 := Start(f2, w)] == ss;
    assert [Slot(1)] + [b2] + [b3] == [Slot(1), b2, b3];
  }

  /** Server 1 stands in vain for term 2, and is elected by server 2 for term 3. */
  lemma Returning(l: Server, g: Server, e1: LogEntry, a2: LogEntry)
    requires Shape(l) && Seen(l) == Face(1, 1, 1, Leader, [S, e1, a2], 1, 0, [2, 3, 1], [1, 2, 0], 0, [S])
    requires a2.term == 1
    requires Shape(g) && Seen(g) == Face(2, 2, 0, Follower, [S], 0, 0, [0, 0, 0], [0, 0, 0], 0, [S])
    ensures var c := StartElection(l);
            && Shape(c) && c.me == 1 && c.peers == 3
            && RequestVote(g, VoteArgs(c)).1.voteGranted
            && Shape(LeaderBy(c, 2))
            && Seen(LeaderBy(c, 2)) == Face(1, 3, 1, Leader, [S, e1, a2], 1, 0, [3, 3, 3], [0, 2, 0], 0, [S])
            && var g' := RequestVote(g, VoteArgs(c)).0;
               Shape(g') && Seen(g') == Face(2, 3, 1, Follower, [S], 0, 0, [0, 0, 0], [0, 0, 0], 0, [S])
  {
    NewLeader(StartElection(l), 2);
    assert [0, 0, 0][1 := 2] == [0, 2, 0];
  }

  /** The leader of term 3 has appended an entry of its own and sent it to both peers, which must
      refuse it: server 2 lacks what comes before, server 0 has something else there. */
  ghost predicate Probing(p: Path, ss: seq<Server>, x: Command, y: Command, z: Command, w: Command, v: Command) {
    var e1, a2, b2, b3, c3 := LogEntry(1, x), LogEntry(1, y), LogEntry(2, z), LogEntry(2, w), LogEntry(3, v);
    && p.At(ss) && p.Calm() && |ss| == 3 && Shape(ss[0]) && Shape(ss[1]) && Shape(ss[2])
    && Seen(ss[0]) == Face(0, 2, 0, Leader, [Slot(1), b2, b3], 1, 1, [4, 2, 2], [3, 1, 1], 1, [S, e1])
    && Seen(ss[1]) == Face(1, 3, 1, Leader, [S, e1, a2, c3], 1, 0, [3, 4, 3], [0, 3, 0], 0, [S])
    && Seen(ss[2]) == Face(2, 3, 1, Follower, [S], 0, 0, [0, 0, 0], [0, 0, 0], 0, [S])
    && p.Sent(AppendRequest(1, 0, AppendEntriesArgs(3, 1, 2, 1, [c3], 1)))
    && p.Sent(AppendRequest(1, 2, AppendEntriesArgs(3, 1, 2, 1, [c3], 1)))
  }

  lemma SendsProbe(s: Server, to: nat, e1: LogEntry, a2: LogEntry, c3: LogEntry)
    requires Shape(s) && Seen(s) == Face(1, 3, 1, Leader, [S, e1, a2, c3], 1, 0, [3, 4, 3], [0, 3, 0], 0, [S])
    requires a2.term == 1 && (to == 0 || to == 2)
    ensures NextIndexInRange(s) && MessageTo(s, to) == AppendRequest(1, to, AppendEntriesArgs(3, 1, 2, 1, [c3], 1))
  {
    assert s.logs == [S, e1, a2, c3];
    assert s.logs[3..] == [c3];
  }

  lemma Probes(p: Path, ss: seq<Server>, x: Command, y: Command, z: Command, w: Command, v: Command)
    returns (q: Path, tt: seq<Server>)
    requires Branched(p, ss, x, y, z, w)
    ensures Probing(q, tt, x, y, z, w, v) && p.run <= q.run
  {
    hide Path.At, Path.Sent, Path.Calm, Path.Plain, Shape, RequestVote, LeaderBy, VoteArgs, Start, MessageTo;
    hide NextIndexInRange, StartElection;
    var e1, a2, c3 := LogEntry(1, x), LogEntry(1, y), LogEntry(3, v);
    var f, l, g := ss[0], ss[1], ss[2];
    assert ss == [f, l, g];
    Returning(l, g, e1, a2);
    q := Stands(p, [f, l, g], 1);
    var l1 := StartElection(l);
    assert [f, l, g][1 := l1] == [f, l1, g];
    q := Elects(q, [f, l1, g], 1, 2);
    var l2, g1 := LeaderBy(l1, 2), RequestVote(g, VoteArgs(l1)).0;
    assert [f, l1, g][1 := l2][2 := g1] == [f, l2, g1];
    Starting(l2, v, Seen(l2));
    q := Starts(q, [f, l2, g1], 1, v);
    var l3 := Start(l2, v);
    tt := [f, l3, g1];
    assert [f, l2, g1][1 := l3] == tt;
    assert [S, e1, a2] + [c3] == [S, e1, a2, c3];
    SendsProbe(l3, 0, e1, a2, c3);
    SendsProbe(l3, 2, e1, a2, c3);
    q := Beats(q, tt, 1, 0);
    assert tt[1 := l3] == tt;
    q := Beats(q, tt, 1, 2);
  }

  // ----- the new leader commits with server 2 -----

  /** Server 2 is too short for the probe. */
  lemma TooShort(s: Server, a: AppendEntriesArgs)
    requires Shape(s) && a.term == s.currentTerm && s.role == Follower && LastLogIndex(s) < a.prevLogIndex
    requires s.lastIncludedIndex <= a.prevLogIndex
    ensures var (s', reply) := AppendEntries(s, a);
            Shape(s') && Seen(s') == Seen(s) && reply == AppendEntriesReply(a.term, false, -1, -1, RealLogLen(s))
  {
  }

  lemma BacksUp(s: Server, peer: nat, a: AppendEntriesArgs, r: AppendEntriesReply, next: int)
    requires Shape(s) && peer < s.peers && s.role == Leader && a.term == s.currentTerm == r.term && !r.success
    requires next == if r.xTerm == -1 && r.xIndex == -1 then r.xLen else r.xIndex
    requires forall k :: 0 <= k < |s.logs| ==> s.logs[k].term != r.xTerm
    ensures Shape(HandleAppendReply(s, peer, a, r))
    ensures HandleAppendReply(s, peer, a, r) == s.(nextIndex := s.nextIndex[peer := next])
  {
    NoTerm(s.logs, r.xTerm, 0);
  }

  lemma {:induction false} NoTerm(logs: seq<LogEntry>, term: int, i: nat)
    requires i <= |logs| && forall k :: 0 <= k < |logs| ==> logs[k].term != term
    ensures LastOfTerm(logs, term, i, -1) == -1
    decreases |logs| - i
  {
    if i < |logs| {
      NoTerm(logs, term, i + 1);
    }
  }

  lemma SendsRest(s: Server, e1: LogEntry, a2: LogEntry, c3: LogEntry)
    requires Shape(s) && Seen(s) == Face(1, 3, 1, Leader, [S, e1, a2, c3], 1, 0, [3, 4, 1], [0, 3, 0], 0, [S])
    ensures NextIndexInRange(s)
    ensures MessageTo(s, 2) == AppendRequest(1, 2, AppendEntriesArgs(3, 1, 0, 0, [e1, a2, c3], 1))
  {
    assert s.logs == [S, e1, a2, c3];
    assert s.logs[1..] == [e1, a2, c3];
  }

  /** Server 1 has committed, applied and compacted up to index 2; server 0's refusal is on its way. */
  ghost predicate Ahead(p: Path, ss: seq<Server>, x: Command, y: Command, z: Command, w: Command, v: Command) {
    var e1, a2, b2, b3, c3 := LogEntry(1, x), LogEntry(1, y), LogEntry(2, z), LogEntry(2, w), LogEntry(3, v);
    && p.At(ss) && p.Calm() && |ss| == 3 && Shape(ss[0]) && Shape(ss[1]) && Shape(ss[2])
    && Seen(ss[0]) == Face(0, 2, 0, Leader, [Slot(1), b2, b3], 1, 1, [4, 2, 2], [3, 1, 1], 1, [S, e1])
    && Seen(ss[1]) == Face(1, 3, 1, Leader, [Slot(1), c3], 3, 3, [3, 4, 4], [0, 3, 3], 2, [S, e1, a2])
    && p.Sent(AppendRequest(1, 0, AppendEntriesArgs(3, 1, 2, 1, [c3], 1)))
  }

  lemma CompactingTwo(s: Server, e1: LogEntry, a2: LogEntry, c3: LogEntry)
    requires Shape(s) && Seen(s) == Face(1, 3, 1, Leader, [S, e1, a2, c3], 3, 0, [3, 4, 4], [0, 3, 3], 0, [S])
    requires a2.term == 1
    ensures var s1 := Deliver(s).0;
            && Shape(s1) && s1 == s.(lastApplied := 3) && |FullLog(s1)| == 4 && FullLog(s1)[..3] == [S, e1, a2]
            && var s2 := Snapshot(s1, 2, [S, e1, a2]);
               Shape(s2) && Seen(s2) == Face(1, 3, 1, Leader, [Slot(1), c3], 3, 3, [3, 4, 4], [0, 3, 3], 2, [S, e1, a2])
  {
    assert s.logs == [S, e1, a2, c3];
    assert s.logs[3..] == [c3];
    assert FullLog(s) == [S] + [e1, a2, c3];
  }

  lemma Commits(p: Path, ss: seq<Server>, x: Command, y: Command, z: Command, w: Command, v: Command)
    returns (q: Path, tt: seq<Server>)
    requires Probing(p, ss, x, y, z, w, v)
    ensures Ahead(q, tt, x, y, z, w, v) && p.run <= q.run
  {
    hide Path.At, Path.Sent, Path.Calm, Path.Plain, Shape, MessageTo, NextIndexInRange, AppendEntries;
    hide HandleAppendReply, Deliver, Snapshot, FullLog, MergeEntries;
    var e1, a2, c3 := LogEntry(1, x), LogEntry(1, y), LogEntry(3, v);
    var a, rest := AppendEntriesArgs(3, 1, 2, 1, [c3], 1), AppendEntriesArgs(3, 1, 0, 0, [e1, a2, c3], 1);
    var f, l, g := ss[0], ss[1], ss[2];
    assert ss == [f, l, g];
    TooShort(g, a);
    q := Appends(p, [f, l, g], 2, AppendRequest(1, 2, a));
    var g1, no := AppendEntries(g, a).0, AppendEntriesReply(3, false, -1, -1, 1);
    assert [f, l, g][2 := g1] == [f, l, g1];
    BacksUp(l, 2, a, no, 1);
    q := Hears(q, [f, l, g1], 1, AppendReply(2, 1, a, no));
    var l1 := HandleAppendReply(l, 2, a, no);
    assert [f, l, g1][1 := l1] == [f, l1, g1];
    SendsRest(l1, e1, a2, c3);
    q := Beats(q, [f, l1, g1], 1, 2);
    assert [f, l1, g1][1 := l1] == [f, l1, g1];
    MergeAtEnd([S], [e1, a2, c3]);
    assert [S] + [e1, a2, c3] == [S, e1, a2, c3];
    Taking(g1, rest, [S, e1, a2, c3]);
    q := Appends(q, [f, l1, g1], 2, AppendRequest(1, 2, rest));
    var g2, ok := AppendEntries(g1, rest).0, AppendEntriesReply(3, true, 0, 0, 0);
    assert [f, l1, g1][2 := g2] == [f, l1, g2];
    Hearing(l1, 2, rest, 3, [0, 3, 3], 3);
    q := Hears(q, [f, l1, g2], 1, AppendReply(2, 1, rest, ok));
    var l2 := HandleAppendReply(l1, 2, rest, ok);
    assert [f, l1, g2][1 := l2] == [f, l2, g2];
    CompactingTwo(l2, e1, a2, c3);
    q := Applies(q, [f, l2, g2], 1);
    var l3 := Deliver(l2).0;
    assert [f, l2, g2][1 := l3] == [f, l3, g2];
    q := Compacts(q, [f, l3, g2], 1, 2);
    var l4 := Snapshot(l3, 2, [S, e1, a2]);
    tt := [f, l4, g2];
    assert [f, l3, g2][1 := l4] == tt;
  }

  // ----- and server 0 keeps its tail -----

  /** Server 0 refuses the probe: it has an entry of term 2 there. */
  lemma Refusing(s: Server, e1: LogEntry, b2: LogEntry, b3: LogEntry, a: AppendEntriesArgs)
    requires Shape(s) && Seen(s) == Face(0, 2, 0, Leader, [Slot(1), b2, b3], 1, 1, [4, 2, 2], [3, 1, 1], 1, [S, e1])
    requires b2.term == 2 && a.term == 3 && a.prevLogIndex == 2 && a.prevLogTerm == 1
    ensures var (s', reply) := AppendEntries(s, a);
            && Shape(s') && reply == AppendEntriesReply(3, false, 2, 2, 4)
            && Seen(s') == Face(0, 3, NO_VOTE, Follower, [Slot(1), b2, b3], 1, 1, [4, 2, 2], [3, 1, 1], 1, [S, e1])
  {
    var s1 := AdoptTerm(s, 3).(role := Follower);
    assert s.logs == [Slot(1), b2, b3];
    assert ConflictScan(s1, 1, 2, 2) == 2;
    assert ConflictScan(s1, 2, 2, -1) == 2;
  }

  lemma SendsSnapshot(s: Server, e1: LogEntry, a2: LogEntry, c3: LogEntry)
    requires Shape(s) && Seen(s) == Face(1, 3, 1, Leader, [Slot(1), c3], 3, 3, [2, 4, 4], [0, 3, 3], 2, [S, e1, a2])
    ensures NextIndexInRange(s) && MessageTo(s, 0) == InstallRequest(1, 0, InstallSnapshotArgs(3, 1, 2, 1, [S, e1, a2]))
  {
  }

  /** The follower as written: its slot 0 has the snapshot's term, so it keeps what follows index 2. */
  lemma Keeping(s: Server, e1: LogEntry, a2: LogEntry, b2: LogEntry, b3: LogEntry)
    requires Shape(s)
    requires Seen(s) == Face(0, 3, NO_VOTE, Follower, [Slot(1), b2, b3], 1, 1, [4, 2, 2], [3, 1, 1], 1, [S, e1])
    ensures var s' := InstallSnapshotAsWritten(s, InstallSnapshotArgs(3, 1, 2, 1, [S, e1, a2])).0;
            && Seen(s') == Face(0, 3, NO_VOTE, Follower, [Slot(1), b3], 2, 2, [4, 2, 2], [3, 1, 1], 2, [S, e1, a2])
  {
    assert s.logs == [Slot(1), b2, b3];
    assert s.logs[2..] == [b3];
    assert [Slot(1)] + [b3] == [Slot(1), b3];
  }

  lemma KeepsTail(p: Path, ss: seq<Server>, x: Command, y: Command, z: Command, w: Command, v: Command)
    returns (q: Path, tt: seq<Server>)
    requires Ahead(p, ss, x, y, z, w, v)
    ensures q.At(tt) && q.Calm() && |tt| == 3 && p.run <= q.run
    ensures var e1, a2, b3 := LogEntry(1, x), LogEntry(1, y), LogEntry(2, w);
            Seen(tt[0]) == Face(0, 3, NO_VOTE, Follower, [Slot(1), b3], 2, 2, [4, 2, 2], [3, 1, 1], 2, [S, e1, a2])
  {
    hide Path.At, Path.Sent, Path.Calm, Path.Plain, Shape, MessageTo, NextIndexInRange, AppendEntries;
    hide HandleAppendReply, InstallSnapshotAsWritten;
    var e1, a2, b2, b3, c3 := LogEntry(1, x), LogEntry(1, y), LogEntry(2, z), LogEntry(2, w), LogEntry(3, v);
    var a, i := AppendEntriesArgs(3, 1, 2, 1, [c3], 1), InstallSnapshotArgs(3, 1, 2, 1, [S, e1, a2]);
    var f, l, g := ss[0], ss[1], ss[2];
    assert ss == [f, l, g];
    Refusing(f, e1, b2, b3, a);
    q := Appends(p, [f, l, g], 0, AppendRequest(1, 0, a));
    var f1, no := AppendEntries(f, a).0, AppendEntriesReply(3, false, 2, 2, 4);
    assert [f, l, g][0 := f1] == [f1, l, g];
    BacksUp(l, 0, a, no, 2);
    q := Hears(q, [f1, l, g], 1, AppendReply(0, 1, a, no));
    var l1 := HandleAppendReply(l, 0, a, no);
    assert [f1, l, g][1 := l1] == [f1, l1, g];
    SendsSnapshot(l1, e1, a2, c3);
    q := Beats(q, [f1, l1, g], 1, 0);
    assert [f1, l1, g][1 := l1] == [f1, l1, g];
    Keeping(f1, e1, a2, b2, b3);
    q := Installs(q, [f1, l1, g], 0, InstallRequest(1, 0, i));
    tt := [InstallSnapshotAsWritten(f1, i).0, l1, g];
    assert [f1, l1, g][0 := InstallSnapshotAsWritten(f1, i).0] == tt;
  }

  /** Log Matching fails with no server restarting: server 0 holds an entry of term 2 at index 3,
      first behind one entry, later, after a snapshot of the committed branch, behind another. */
  lemma ConflictingTailKept(x: Command, y: Command, z: Command, w: Command, v: Command) returns (p: Path, a: nat)
    ensures IsRunAsWritten(3, p.run, p.steps) && p.Calm() && a < |p.run| && |p.run[a].servers| == 3
    ensures |End(p).servers| == 3
    ensures var e1, a2, b2, b3 := LogEntry(1, x), LogEntry(1, y), LogEntry(2, z), LogEntry(2, w);
            var s, s' := p.run[a].servers[0], End(p).servers[0];
            && |s.logs| >= 1 && |s'.logs| >= 1
            && FullLog(s) == [S, e1, b2, b3] && FullLog(s') == [S, e1, a2, b3]
  {
    hide Shape, FullLog, IsRunAsWritten, Path.Calm;
    var ss;
    p, ss := Branches(x, y, z, w);
    a := |p.run| - 1;
    var s := ss[0];
    var e1, a2, b2, b3 := LogEntry(1, x), LogEntry(1, y), LogEntry(2, z), LogEntry(2, w);
    assert s.logs == [Slot(1)] + [b2, b3];
    LogsOf(s, [S, e1], [b2, b3], 1);
    assert [S, e1] + [b2, b3] == [S, e1, b2, b3];
    assert p.run[a].servers[0] == s;
    var q := p;
    p, ss := Probes(p, ss, x, y, z, w, v);
    p, ss := Commits(p, ss, x, y, z, w, v);
    p, ss := KeepsTail(p, ss, x, y, z, w, v);
    assert p.run[a] == q.run[a];
    assert ss[0].logs == [Slot(1)] + [b3];
    LogsOf(ss[0], [S, e1, a2], [b3], 1);
    assert [S, e1, a2] + [b3] == [S, e1, a2, b3];
  }

  // ----- a follower that gets nothing more -----

  /** A request that overlaps what the follower has compacted is refused without a hint. */
  lemma RefusesCompacted(s: Server, e1: LogEntry, a: AppendEntriesArgs)
    requires Shape(s)
    requires Seen(s) == Face(0, 1, NO_VOTE, Follower, [Slot(1)], 1, 1, [0, 0, 0], [0, 0, 0], 1, [S, e1])
    requires a == AppendEntriesArgs(1, 1, 0, 0, [e1], 0)
    ensures var (s', r) := AppendEntries(s, a);
            Shape(s') && Seen(s') == Seen(s) && r == AppendEntriesReply(1, false, 0, 0, 0)
  {
  }

  /** The leader takes the refusal for a conflict in term 0, that of its own first slot. */
  lemma BacksToSlot(s: Server, e1: LogEntry, a2: LogEntry, a: AppendEntriesArgs)
    requires Shape(s) && Seen(s) == Face(1, 1, 1, Leader, [S, e1, a2], 1, 0, [2, 3, 1], [1, 2, 0], 0, [S])
    requires e1.term == a2.term == 1 && a == AppendEntriesArgs(1, 1, 0, 0, [e1], 0)
    ensures HandleAppendReply(s, 0, a, AppendEntriesReply(1, false, 0, 0, 0)) == s.(nextIndex := [0, 3, 1])
  {
    var logs := s.logs;
    assert logs == [S, e1, a2];
    assert LastOfTerm(logs, 0, 3, 0) == 0;
    assert LastOfTerm(logs, 0, 2, 0) == 0;
    assert LastOfTerm(logs, 0, 1, 0) == 0;
    assert [2, 3, 1][0 := 0] == [0, 3, 1];
  }

  /** A copy of the first request reaches server 0 after it has compacted its one entry. */
  lemma LateRequest(x: Command, y: Command) returns (p: Path, f: Server, l: Server, g: Server)
    ensures p.At([f, l, g]) && p.Plain()
    ensures var e1, a2 := LogEntry(1, x), LogEntry(1, y);
            && Seen(f) == Face(0, 1, NO_VOTE, Follower, [Slot(1)], 1, 1, [0, 0, 0], [0, 0, 0], 1, [S, e1])
            && Seen(l) == Face(1, 1, 1, Leader, [S, e1, a2], 1, 0, [0, 3, 1], [1, 2, 0], 0, [S])
  {
    hide Path.At, Path.Sent, Path.Calm, Path.Plain, Shape, AppendEntries, HandleAppendReply;
    var ss;
    p, ss := CompactFirst(x, y);
    var e1, a2 := LogEntry(1, x), LogEntry(1, y);
    f, l, g := ss[0], ss[1], ss[2];
    assert ss == [f, l, g];
    var a, no := AppendEntriesArgs(1, 1, 0, 0, [e1], 0), AppendEntriesReply(1, false, 0, 0, 0);
    RefusesCompacted(f, e1, a);
    p := Appends(p, [f, l, g], 0, AppendRequest(1, 0, a));
    var f1 := AppendEntries(f, a).0;
    assert [f, l, g][0 := f1] == [f1, l, g];
    f := f1;
    BacksToSlot(l, e1, a2, a);
    p := Hears(p, [f, l, g], 1, AppendReply(0, 1, a, no));
    var l1 := HandleAppendReply(l, 0, a, no);
    assert [f, l, g][1 := l1] == [f, l1, g];
    l := l1;
  }

  /** A run with neither restart nor installed snapshot after which server 0 is sent nothing that it
      takes. The leader has an entry that server 0 lacks. */
  lemma FollowerTrapped(x: Command, y: Command) returns (p: Path)
    ensures p.run != [] && RaftProtocol.IsRun(3, p.run) && |End(p).servers| == 3
    ensures RaftCatchUp.Follows(End(p), 1, 0) && RaftCatchUp.Trapped(End(p), 1, 0)
    ensures var e1, a2 := LogEntry(1, x), LogEntry(1, y);
            var f, l := End(p).servers[0], End(p).servers[1];
            && |f.logs| >= 1 && |l.logs| >= 1 && FullLog(f) == [S, e1] && FullLog(l) == [S, e1, a2]
  {
    hide Path.Plain, IsRunAsWritten, FullLog, RaftProtocol.IsRun, RaftInvariant.Inv;
    var f, l, g;
    p, f, l, g := LateRequest(x, y);
    var e1, a2 := LogEntry(1, x), LogEntry(1, y);
    PlainRun(p);
    assert f.logs == [Slot(1)] + [];
    LogsOf(f, [S, e1], [], 1);
    assert l.logs == [S] + [e1, a2];
    LogsOf(l, [S], [e1, a2], 0);
    assert [S, e1] + [] == [S, e1] && [S] + [e1, a2] == [S, e1, a2];
  }

  lemma PlainRun(p: Path)
    requires p.run != [] && IsRunAsWritten(3, p.run, p.steps) && p.Plain()
    ensures RaftProtocol.IsRun(3, p.run) && RaftInvariant.Inv(End(p))
  {
    hide NextAsWritten, Init;
    forall k | 0 <= k < |p.steps| ensures Guarded(p.run[k], p.steps[k]) {
    }
    GuardedRun(3, p.run, p.steps);
    RaftSafety.RunInv(3, p.run, |p.run| - 1);
  }
}
