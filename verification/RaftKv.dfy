/** The replicated key/value service on top of Raft itself: Raft servers, the apply channel of each,
    the key/value servers that read it, and the clerks. Every run of the whole is linearizable. */
module RaftKv {
  import opened Options
  import opened RaftTypes
  import opened Linearizability
  import opened KvModel
  import opened KvMeaning
  import opened KvService
  import opened KvLinearizable
  import R = RaftProtocol
  import RS = RaftServer
  import RI = RaftInvariant
  import RC = RaftCommitted
  import RF = RaftSafety
  import RL = RaftLogs
  import N = KvNode
  import K = KvProtocol
  import KS = KvSafety

  /** A key/value server: what its apply loop has reached and what waits on its channel. `at` is
      how much of the committed log the status stands for; the server's own count of applied
      entries begins at 0 again after a restart. */
  datatype Node = Node(progress: N.Progress, at: nat, channel: seq<N.ApplyMsg>)

  /** `committed` records the longest log any Raft server has counted as committed. Calls and
      replies are those of the service seen as one log. */
  datatype System = System(
    raft: R.System,
    nodes: seq<Node>,
    committed: seq<LogEntry>,
    now: nat,
    clerks: map<int, K.Clerk>,
    requests: set<Op>,
    proposed: set<Op>,
    answers: set<K.Answer>,
    issued: map<Id, K.Issue>,
    done: map<Id, K.Completion>)

  /** Raft steps, by what they mean to the service, and the steps of service and clerks. */
  datatype Step =
    | Internal(step: R.Step)
    | Propose(i: nat, cmd: Command)
    | Deliver(i: nat)
    | Install(i: nat, m: Message)
    | Restart(i: nat, vote: int)
    | Save(i: nat)
    | Consume(i: nat)
    | Call(client: int, kind: OpType, key: string, value: string)
    | AnswerRepeated(i: nat, op: Op)
    | AnswerApplied(i: nat, op: Op, k: int)
    | Return(client: int, answer: K.Answer)

  // ----- the service seen as one log -----

  /** The requests in a log: all entries but the empty first one. */
  ghost function Requests(decode: Command -> Op, log: seq<LogEntry>): (r: seq<Op>)
    ensures |r| == Max(|log| - 1, 0) && forall k :: 0 <= k < |r| ==> r[k] == decode(log[k + 1].cmd)
  {
    seq(Max(|log| - 1, 0), k requires 0 <= k < |log| - 1 => decode(log[k + 1].cmd))
  }

  /** What a snapshot of the log prefix `data` restores. */
  ghost function Restored(decode: Command -> Op, data: seq<LogEntry>): Status {
    Replay(Requests(decode, data))
  }

  ghost function ServerOf(node: Node): K.Server {
    K.Server(node.progress.status, node.at, None)
  }

  ghost function View(decode: Command -> Op, x: System): K.System {
    K.System(x.now, Requests(decode, x.committed),
             seq(|x.nodes|, i requires 0 <= i < |x.nodes| => ServerOf(x.nodes[i])),
             x.clerks, x.requests, x.proposed, x.answers, x.issued, x.done)
  }

  // ----- steps -----

  ghost function Init(peers: nat): System {
    System(R.Init(peers), seq(peers, _ => Node(N.Progress(EMPTY, 0, false), 0, [])), [SENTINEL],
           0, map[], {}, {}, {}, map[], map[])
  }

  /** A Raft step, with the committed log kept up to date; key/value server `i` becomes `node`. */
  ghost predicate RaftMoves(x: System, x': System, step: R.Step, node: Node) {
    && step.i < |x.nodes| && R.Next(x.raft, x'.raft, step)
    && x' == x.(raft := x'.raft, nodes := x.nodes[step.i := node],
                committed := RC.Longer(x.committed, RC.LongestOf(x'.raft.servers)))
  }

  /** Elections, replication and their replies do not reach the service. */
  ghost predicate IsInternal(step: R.Step) {
    !step.ClientStart? && !step.Apply? && !step.ReceiveInstall? && !step.Crash? && !step.TakeSnapshot?
  }

  ghost predicate InternalStep(x: System, x': System, step: R.Step) {
    IsInternal(step) && step.i < |x.nodes| && RaftMoves(x, x', step, x.nodes[step.i])
  }

  /** A handler gives a request to `Start`. A Put or Append its server has executed is not given on. */
  ghost predicate ProposeStep(decode: Command -> Op, x: System, x': System, i: nat, cmd: Command) {
    && i < |x.nodes| && decode(cmd) in x.requests
    && (decode(cmd).kind != GET ==> IsNew(x.nodes[i].progress.status.duptable, decode(cmd)))
    && RaftMoves(x.(proposed := x.proposed + {decode(cmd)}), x', R.ClientStart(i, cmd), x.nodes[i])
  }

  ghost function Commands(decode: Command -> Op, msgs: seq<ApplyMsg>): (r: seq<N.ApplyMsg>)
    ensures |r| == |msgs| && forall k :: 0 <= k < |r| ==> r[k] == N.CommandMsg(msgs[k].index, decode(msgs[k].cmd))
  {
    seq(|msgs|, k requires 0 <= k < |msgs| => N.CommandMsg(msgs[k].index, decode(msgs[k].cmd)))
  }

  /** The applier puts what is committed on the channel. */
  ghost predicate DeliverStep(decode: Command -> Op, x: System, x': System, i: nat) {
    && i < |x.nodes| && R.ApplyStep(x.raft, x'.raft, i)
    && var msgs := Commands(decode, RS.Deliver(x.raft.servers[i]).1);
       RaftMoves(x, x', R.Apply(i), x.nodes[i].(channel := x.nodes[i].channel + msgs))
  }

  /** A snapshot from the leader goes on the channel, if it is installed. */
  ghost predicate InstallStep(decode: Command -> Op, x: System, x': System, i: nat, m: Message) {
    && i < |x.nodes| && R.InstallStep(x.raft, x'.raft, i, m)
    && var s, s' := x.raft.servers[i], x'.raft.servers[i];
       var msg := N.SnapshotMsg(s'.lastIncludedIndex, Some(Restored(decode, s'.snapshot)));
       RaftMoves(x, x', R.ReceiveInstall(i, m),
                 if s'.lastIncludedIndex == s.lastIncludedIndex then x.nodes[i]
                 else x.nodes[i].(channel := x.nodes[i].channel + [msg]))
  }

  /** A restarted server has the status its snapshot says and an empty channel. */
  ghost predicate RestartStep(decode: Command -> Op, x: System, x': System, i: nat, vote: int) {
    && i < |x.nodes| && R.CrashStep(x.raft, x'.raft, i, vote)
    && var s' := x'.raft.servers[i];
       RaftMoves(x, x', R.Crash(i, vote),
                 Node(N.Progress(Restored(decode, s'.snapshot), 0, false), Max(s'.lastIncludedIndex, 0), []))
  }

  /** A server hands Raft a snapshot of what it has applied. */
  ghost predicate SaveStep(x: System, x': System, i: nat) {
    i < |x.nodes| && RaftMoves(x, x', R.TakeSnapshot(i, x.nodes[i].at), x.nodes[i])
  }

  function Consumed(node: Node): Node
    requires node.channel != []
  {
    var p := N.Handle(node.progress, node.channel[0]);
    Node(p, Max(node.at, p.lastApplied), node.channel[1..])
  }

  /** One round of the apply loop. */
  ghost predicate ConsumeStep(x: System, x': System, i: nat) {
    && i < |x.nodes| && x.nodes[i].channel != []
    && x' == x.(nodes := x.nodes[i := Consumed(x.nodes[i])])
  }

  ghost predicate SameServers(x: System, x': System) {
    x'.raft == x.raft && x'.nodes == x.nodes && x'.committed == x.committed
  }

  ghost predicate Next(decode: Command -> Op, x: System, x': System, step: Step) {
    match step
    case Internal(s) => InternalStep(x, x', s)
    case Propose(i, cmd) => ProposeStep(decode, x, x', i, cmd)
    case Deliver(i) => DeliverStep(decode, x, x', i)
    case Install(i, m) => InstallStep(decode, x, x', i, m)
    case Restart(i, vote) => RestartStep(decode, x, x', i, vote)
    case Save(i) => SaveStep(x, x', i)
    case Consume(i) => ConsumeStep(x, x', i)
    case Call(c, kind, key, value) =>
      SameServers(x, x') && K.CallStep(View(decode, x), View(decode, x'), c, kind, key, value)
    case AnswerRepeated(i, op) => SameServers(x, x') && K.RepeatedStep(View(decode, x), View(decode, x'), i, op)
    case AnswerApplied(i, op, k) => SameServers(x, x') && K.AppliedStep(View(decode, x), View(decode, x'), i, op, k)
    case Return(c, a) => SameServers(x, x') && K.ReturnStep(View(decode, x), View(decode, x'), c, a)
  }

  ghost predicate CanStep(decode: Command -> Op, x: System, x': System) {
    exists step :: Next(decode, x, x', step)
  }

  ghost predicate IsRun(decode: Command -> Op, peers: nat, run: seq<System>) {
    && run != [] && run[0] == Init(peers)
    && forall t :: 0 <= t < |run| - 1 ==> CanStep(decode, run[t], run[t + 1])
  }

  // ----- the invariant -----

  /** What waits on a channel leads from one prefix of the log to a longer one. */
  ghost predicate Feeds(log: seq<Op>, at: int, channel: seq<N.ApplyMsg>, end: int)
    decreases |channel|
  {
    && 0 <= at <= |log|
    && if channel == [] then at == end
       else match channel[0]
         case CommandMsg(index, op) =>
           at < |log| && index == at + 1 && op == log[at] && Feeds(log, at + 1, channel[1..], end)
         case SnapshotMsg(index, Some(st)) =>
           at < index <= |log| && st == Replay(log[..index]) && Feeds(log, index, channel[1..], end)
         case _ => false
  }

  /** A key/value server stands for a prefix of the log, and its channel for the entries from there
      to what Raft has delivered. */
  ghost predicate NodeOk(log: seq<Op>, node: Node, delivered: int) {
    && !node.progress.stopped && node.progress.lastApplied <= node.at
    && K.StatusOk(log, node.progress.status, node.at)
    && Feeds(log, node.at, node.channel, delivered)
  }

  ghost function Encoded(decode: Command -> Op, ops: set<Op>): iset<Command> {
    iset cmd | decode(cmd) in ops
  }

  ghost predicate RaftOk(decode: Command -> Op, x: System) {
    && RI.Inv(x.raft) && RC.Upholds(x.raft, x.committed) && |x.committed| >= 1
    && RC.LeadersWithin(x.raft.hist, Encoded(decode, x.proposed))
    && |x.nodes| == |x.raft.servers|
  }

  ghost predicate NodesOk(decode: Command -> Op, x: System)
    requires |x.nodes| == |x.raft.servers|
  {
    forall i :: 0 <= i < |x.nodes| ==>
      NodeOk(Requests(decode, x.committed), x.nodes[i], x.raft.servers[i].lastApplied)
  }

  ghost predicate Inv(decode: Command -> Op, x: System) {
    RaftOk(decode, x) && NodesOk(decode, x) && K.Inv(View(decode, x))
  }

  // ----- channels -----

  lemma {:induction false} FeedsMore(log: seq<Op>, log': seq<Op>, at: int, channel: seq<N.ApplyMsg>, end: int)
    requires log <= log' && Feeds(log, at, channel, end)
    ensures Feeds(log', at, channel, end)
    decreases |channel|
  {
    if channel != [] {
      match channel[0]
      case CommandMsg(index, op) => FeedsMore(log, log', at + 1, channel[1..], end);
      case SnapshotMsg(index, Some(st)) =>
        assert log'[..index] == log[..index];
        FeedsMore(log, log', index, channel[1..], end);
    }
  }

  /** Something that leads on from the end may be put at the end. */
  lemma {:induction false} FeedsOn(log: seq<Op>, at: int, channel: seq<N.ApplyMsg>, mid: int, more: seq<N.ApplyMsg>,
                                   end: int)
    requires Feeds(log, at, channel, mid) && Feeds(log, mid, more, end)
    ensures Feeds(log, at, channel + more, end)
    decreases |channel|
  {
    if channel == [] {
      assert channel + more == more;
    } else {
      assert (channel + more)[1..] == channel[1..] + more;
      match channel[0]
      case CommandMsg(index, op) => FeedsOn(log, at + 1, channel[1..], mid, more, end);
      case SnapshotMsg(index, Some(st)) => FeedsOn(log, index, channel[1..], mid, more, end);
    }
  }

  lemma {:induction false} DeliveriesFeed(log: seq<Op>, lo: nat, hi: nat)
    requires lo <= hi <= |log|
    ensures Feeds(log, lo, N.Deliveries(log, lo, hi), hi)
    decreases hi - lo
  {
    if lo < hi {
      DeliveriesFeed(log, lo + 1, hi);
      assert N.Deliveries(log, lo, hi)[1..] == N.Deliveries(log, lo + 1, hi);
    }
  }

  lemma FeedsBound(log: seq<Op>, at: int, channel: seq<N.ApplyMsg>, end: int)
    requires Feeds(log, at, channel, end)
    ensures at <= end <= |log|
    decreases |channel|
  {
    if channel != [] {
      match channel[0]
      case CommandMsg(index, op) => FeedsBound(log, at + 1, channel[1..], end);
      case SnapshotMsg(index, Some(st)) => FeedsBound(log, index, channel[1..], end);
    }
  }

  lemma NodeMore(log: seq<Op>, log': seq<Op>, node: Node, delivered: int)
    requires log <= log' && NodeOk(log, node, delivered)
    ensures NodeOk(log', node, delivered)
  {
    FeedsMore(log, log', node.at, node.channel, delivered);
    assert log'[..node.at] == log[..node.at];
  }

  // ----- a Raft step -----

  lemma RequestsMore(decode: Command -> Op, log: seq<LogEntry>, log': seq<LogEntry>)
    requires log <= log'
    ensures Requests(decode, log) <= Requests(decode, log')
  {
    var r, r' := Requests(decode, log), Requests(decode, log');
    assert r'[..|r|] == r;
  }

  lemma PrefixRequests(decode: Command -> Op, log: seq<LogEntry>, n: nat)
    requires 1 <= n <= |log|
    ensures Requests(decode, log[..n]) == Requests(decode, log)[..n - 1]
  {
  }

  /** Only the stepping server changes. */
  lemma StepLocal(c: R.System, c': R.System, step: R.Step, j: nat)
    requires R.Next(c, c', step) && j < |c.servers| && j != step.i
    ensures |c'.servers| == |c.servers| && c'.servers[j] == c.servers[j]
  {
    hide RS.Shape, RS.FullLog, RS.Broadcast, RS.VoteRequests, RS.RequestVote, RS.AppendEntries, RS.InstallSnapshot;
    hide RS.HandleAppendReply, RS.HandleInstallReply, RS.HandleVoteReply, RS.NextIndexInRange, RS.Deliver;
    hide RS.RestoreVoting, RS.Snapshot, RS.StartElection, RS.Persist, R.Tally, RS.Start;
    match step
    case _ =>
  }

  /** How much was delivered changes only by delivering, installing and restarting. */
  lemma StepDelivered(c: R.System, c': R.System, step: R.Step)
    requires R.Next(c, c', step) && !step.Apply? && !step.ReceiveInstall? && !step.Crash?
    ensures step.i < |c.servers| == |c'.servers| && c'.servers[step.i].lastApplied == c.servers[step.i].lastApplied
  {
    hide RS.FullLog, RS.Broadcast, RS.VoteRequests, RS.NextIndexInRange, R.Tally, RS.CommitScan, RS.MergeEntries;
    hide RS.LastOfTerm, RS.ConflictScan, RS.OtherPeers, R.RecordVote, R.RecordLeader, R.RecordAck, R.RecordSent;
    match step
    case _ =>
  }

  lemma {:induction false} LogGrows(s: K.System, more: seq<Op>)
    requires K.Inv(s) && forall k :: 0 <= k < |more| ==> more[k] in s.proposed
    ensures K.Inv(s.(log := s.log + more))
    decreases |more|
  {
    hide K.Inv;
    if more == [] {
      assert s.log + more == s.log;
    } else {
      var n := |more| - 1;
      LogGrows(s, more[..n]);
      var s1 := s.(log := s.log + more[..n]);
      assert s.log + more == s1.log + [more[n]];
      KS.CommitInv(s1, s1.(log := s.log + more), more[n]);
    }
  }

  /** What a Raft step, whichever it is, does to the log: committed entries stay, and new ones
      were proposed. */
  lemma RaftStepOk(decode: Command -> Op, x: System, x': System, step: R.Step, node: Node)
    requires RaftOk(decode, x) && RaftMoves(x, x', step, node)
    requires RC.Accepts(x.raft, step) <= Encoded(decode, x.proposed)
    ensures RaftOk(decode, x') && x.committed <= x'.committed
    ensures forall k :: 1 <= k < |x'.committed| ==> decode(x'.committed[k].cmd) in x'.proposed
  {
    hide RI.Inv, R.Next, RC.Upholds, RC.LongestOf, RC.LeadersWithin, RC.Accepts;
    var cmds := Encoded(decode, x.proposed);
    RC.StepUpholds(x.raft, x'.raft, step, x.committed);
    RC.StepWithin(x.raft, x'.raft, step, cmds);
    RC.WithinMore(x'.raft.hist, cmds + RC.Accepts(x.raft, step), cmds);
    RF.StepPeers(x.raft, x'.raft, step);
    RC.HistoryIs(x.raft);
    RC.HistoryIs(x'.raft);
    RC.UpheldWithin(x'.raft, x'.committed, cmds);
    forall k | 1 <= k < |x'.committed| ensures decode(x'.committed[k].cmd) in x'.proposed {
      assert x'.committed[k].cmd in cmds;
    }
  }

  lemma ViewGrows(decode: Command -> Op, x: System, x': System)
    requires x.committed <= x'.committed && K.Inv(View(decode, x))
    requires x' == x.(raft := x'.raft, committed := x'.committed)
    requires forall k :: 1 <= k < |x'.committed| ==> decode(x'.committed[k].cmd) in x'.proposed
    ensures K.Inv(View(decode, x'))
  {
    hide K.Inv;
    RequestsMore(decode, x.committed, x'.committed);
    var log, log' := Requests(decode, x.committed), Requests(decode, x'.committed);
    var more := log'[|log|..];
    assert log' == log + more;
    LogGrows(View(decode, x), more);
    assert View(decode, x') == View(decode, x).(log := log + more);
  }

  lemma ViewReplaces(decode: Command -> Op, x: System, i: nat, node: Node)
    requires i < |x.nodes| && K.Inv(View(decode, x))
    requires K.StatusOk(Requests(decode, x.committed), node.progress.status, node.at)
    ensures K.Inv(View(decode, x.(nodes := x.nodes[i := node])))
  {
    hide K.Inv, Replay;
    var s, s' := View(decode, x), View(decode, x.(nodes := x.nodes[i := node]));
    assert s'.servers == s.servers[i := ServerOf(node)];
    KS.ServerInv(s, s', i, ServerOf(node));
  }

  lemma MovedView(decode: Command -> Op, x: System, x': System, step: R.Step, node: Node)
    requires K.Inv(View(decode, x)) && RaftMoves(x, x', step, node) && x.committed <= x'.committed
    requires forall k :: 1 <= k < |x'.committed| ==> decode(x'.committed[k].cmd) in x'.proposed
    requires K.StatusOk(Requests(decode, x'.committed), node.progress.status, node.at)
    ensures K.Inv(View(decode, x'))
  {
    hide K.Inv, R.Next, RC.Longer, RC.LongestOf, K.StatusOk, View, Requests;
    var x1 := x.(raft := x'.raft, committed := x'.committed);
    ViewGrows(decode, x, x1);
    ViewReplaces(decode, x1, step.i, node);
    assert x' == x1.(nodes := x1.nodes[step.i := node]);
  }

  lemma MovedNodes(decode: Command -> Op, x: System, x': System, step: R.Step, node: Node)
    requires |x.nodes| == |x.raft.servers| && |x'.nodes| == |x'.raft.servers| && NodesOk(decode, x)
    requires RaftMoves(x, x', step, node) && x.committed <= x'.committed
    requires NodeOk(Requests(decode, x'.committed), node, x'.raft.servers[step.i].lastApplied)
    ensures NodesOk(decode, x')
  {
    hide R.Next, RC.Longer, RC.LongestOf, NodeOk, Requests;
    forall j: nat | j < |x'.nodes|
      ensures NodeOk(Requests(decode, x'.committed), x'.nodes[j], x'.raft.servers[j].lastApplied)
    {
      if j != step.i {
        OtherNode(decode, x, x', step, node, j);
      }
    }
  }

  /** A Raft step after which the stepping server's node fits again keeps the invariant. */
  lemma RaftMovesInv(decode: Command -> Op, x: System, x': System, step: R.Step, node: Node)
    requires Inv(decode, x) && RaftMoves(x, x', step, node) && RaftOk(decode, x') && x.committed <= x'.committed
    requires forall k :: 1 <= k < |x'.committed| ==> decode(x'.committed[k].cmd) in x'.proposed
    requires NodeOk(Requests(decode, x'.committed), node, x'.raft.servers[step.i].lastApplied)
    ensures Inv(decode, x')
  {
    hide RaftOk, NodesOk, NodeOk, K.Inv, K.StatusOk, View, Requests, R.Next, RC.Longer, RC.LongestOf;
    RaftOkParts(decode, x);
    RaftOkParts(decode, x');
    NodeParts(Requests(decode, x'.committed), node, x'.raft.servers[step.i].lastApplied);
    MovedView(decode, x, x', step, node);
    MovedNodes(decode, x, x', step, node);
  }

  lemma OtherNode(decode: Command -> Op, x: System, x': System, step: R.Step, node: Node, j: nat)
    requires |x.nodes| == |x.raft.servers| && NodesOk(decode, x) && j < |x.nodes| && j != step.i
    requires RaftMoves(x, x', step, node) && x.committed <= x'.committed
    ensures |x'.raft.servers| == |x.raft.servers|
    ensures NodeOk(Requests(decode, x'.committed), x'.nodes[j], x'.raft.servers[j].lastApplied)
  {
    hide R.Next, RC.LongestOf, NodeOk;
    StepLocal(x.raft, x'.raft, step, j);
    RequestsMore(decode, x.committed, x'.committed);
    NodeMore(Requests(decode, x.committed), Requests(decode, x'.committed), x.nodes[j], x.raft.servers[j].lastApplied);
  }

  lemma RaftOkParts(decode: Command -> Op, x: System)
    requires RaftOk(decode, x)
    ensures RI.Inv(x.raft) && RC.Upholds(x.raft, x.committed) && |x.committed| >= 1 && |x.nodes| == |x.raft.servers|
  {
  }

  lemma NodeParts(log: seq<Op>, node: Node, delivered: int)
    requires NodeOk(log, node, delivered)
    ensures K.StatusOk(log, node.progress.status, node.at) && node.at <= delivered <= |log|
  {
    hide Replay;
    FeedsBound(log, node.at, node.channel, delivered);
  }

  /** A step that delivers nothing. */
  lemma QuietInv(decode: Command -> Op, x: System, x': System, step: R.Step)
    requires Inv(decode, x) && step.i < |x.nodes| && RaftMoves(x, x', step, x.nodes[step.i])
    requires !step.Apply? && !step.ReceiveInstall? && !step.Crash?
    requires RC.Accepts(x.raft, step) <= Encoded(decode, x.proposed)
    ensures Inv(decode, x')
  {
    hide RaftOk, K.Inv, R.Next, RC.LongestOf, NodeOk, RC.Accepts;
    RaftStepOk(decode, x, x', step, x.nodes[step.i]);
    StepDelivered(x.raft, x'.raft, step);
    RaftOkParts(decode, x);
    var log, log' := Requests(decode, x.committed), Requests(decode, x'.committed);
    RequestsMore(decode, x.committed, x'.committed);
    NodeMore(log, log', x.nodes[step.i], x.raft.servers[step.i].lastApplied);
    RaftMovesInv(decode, x, x', step, x.nodes[step.i]);
  }

  // ----- every step -----

  lemma InternalInv(decode: Command -> Op, x: System, x': System, step: R.Step)
    requires Inv(decode, x) && InternalStep(x, x', step)
    ensures Inv(decode, x')
  {
    hide Inv, R.Next, RC.LongestOf;
    QuietInv(decode, x, x', step);
  }

  lemma SaveInv(decode: Command -> Op, x: System, x': System, i: nat)
    requires Inv(decode, x) && SaveStep(x, x', i)
    ensures Inv(decode, x')
  {
    hide Inv, R.Next, RC.LongestOf;
    QuietInv(decode, x, x', R.TakeSnapshot(i, x.nodes[i].at));
  }

  lemma ProposeInv(decode: Command -> Op, x: System, x': System, i: nat, cmd: Command)
    requires Inv(decode, x) && ProposeStep(decode, x, x', i, cmd)
    ensures Inv(decode, x')
  {
    hide K.Inv, NodeOk, RI.Inv, R.Next, RC.Upholds, RC.LongestOf, IsNew;
    var op := decode(cmd);
    var x1 := x.(proposed := x.proposed + {op});
    RC.WithinMore(x.raft.hist, Encoded(decode, x.proposed), Encoded(decode, x1.proposed));
    KS.ProposeInv(View(decode, x), View(decode, x1), i, op);
    QuietInv(decode, x1, x', R.ClientStart(i, cmd));
  }

  lemma DeliverInv(decode: Command -> Op, x: System, x': System, i: nat)
    requires Inv(decode, x) && DeliverStep(decode, x, x', i)
    ensures Inv(decode, x')
  {
    hide K.Inv, K.StatusOk, RaftOk, Feeds, RC.Upholds, RC.LongestOf, RI.Inv, RS.Deliver, RS.FullLog, RS.Shape;
    var node, s := x.nodes[i], x.raft.servers[i];
    var node' := x'.nodes[i];
    RaftStepOk(decode, x, x', R.Apply(i), node');
    RaftOkParts(decode, x);
    RC.ServerUpheld(x.raft, x.committed, i);
    var log, log' := Requests(decode, x.committed), Requests(decode, x'.committed);
    RequestsMore(decode, x.committed, x'.committed);
    NodeMore(log, log', node, s.lastApplied);
    var msgs := RS.Deliver(s).1;
    var hi := x'.raft.servers[i].lastApplied;
    DeliveredAll(decode, s, x.raft.peers, i, x.committed, x'.committed);
    NodeParts(log', node, s.lastApplied);
    DeliveriesFeed(log', s.lastApplied, hi);
    FeedsOn(log', node.at, node.channel, s.lastApplied, Commands(decode, msgs), hi);
    RaftMovesInv(decode, x, x', R.Apply(i), node');
  }

  /** What a server puts on the channel is the committed log from where it stopped. */
  lemma DeliveredAll(decode: Command -> Op, s: Server, peers: nat, i: nat, log: seq<LogEntry>, log': seq<LogEntry>)
    requires RI.IndicesOk(s, peers, i) && RS.FullLog(s)[..s.commitIndex + 1] <= log <= log' && |log| >= 1
    ensures var hi := RS.Deliver(s).0.lastApplied;
            && 0 <= s.lastApplied <= hi < |log'|
            && Commands(decode, RS.Deliver(s).1) == N.Deliveries(Requests(decode, log'), s.lastApplied, hi)
  {
    hide RS.Deliver, RS.FullLog;
    var hi, msgs := RS.Deliver(s).0.lastApplied, RS.Deliver(s).1;
    RC.DeliveredFrom(s, peers, i, log, 0);
    var sent := N.Deliveries(Requests(decode, log'), s.lastApplied, hi);
    forall k: nat | k < |msgs| ensures Commands(decode, msgs)[k] == sent[k] {
      RC.DeliveredFrom(s, peers, i, log, k);
    }
  }

  /** An installed snapshot covers more than the server had committed. */
  lemma Installs(s: Server, args: InstallSnapshotArgs)
    requires RS.Shape(s)
    ensures var s' := RS.InstallSnapshot(s, args).0;
            || (s'.lastIncludedIndex == s.lastIncludedIndex && s'.lastApplied == s.lastApplied)
            || (s'.lastIncludedIndex == s'.lastApplied > s.commitIndex)
  {
  }

  /** A snapshot restores the effect of the committed entries it covers. */
  lemma SnapshotRestores(decode: Command -> Op, x: System, i: nat)
    requires RaftOk(decode, x) && i < |x.nodes|
    ensures var s := x.raft.servers[i];
            K.StatusOk(Requests(decode, x.committed), Restored(decode, s.snapshot), s.lastIncludedIndex)
  {
    hide RC.Upholds, RC.LeadersWithin, RI.Inv, RS.FullLog;
    var s := x.raft.servers[i];
    RC.ServerUpheld(x.raft, x.committed, i);
    assert s.snapshot == x.committed[..s.lastIncludedIndex + 1];
    PrefixRequests(decode, x.committed, s.lastIncludedIndex + 1);
  }

  lemma InstallInv(decode: Command -> Op, x: System, x': System, i: nat, m: Message)
    requires Inv(decode, x) && InstallStep(decode, x, x', i, m)
    ensures Inv(decode, x')
  {
    hide K.Inv, K.StatusOk, RaftOk, Feeds, RC.Upholds, RC.LongestOf, RI.Inv, RS.InstallSnapshot, Restored, RS.FullLog;
    var node, s, s' := x.nodes[i], x.raft.servers[i], x'.raft.servers[i];
    var node' := x'.nodes[i];
    RaftStepOk(decode, x, x', R.ReceiveInstall(i, m), node');
    RaftOkParts(decode, x);
    RC.ServerUpheld(x.raft, x.committed, i);
    Installs(s, m.iargs);
    var log' := Requests(decode, x'.committed);
    RequestsMore(decode, x.committed, x'.committed);
    NodeMore(Requests(decode, x.committed), log', node, s.lastApplied);
    if s'.lastIncludedIndex != s.lastIncludedIndex {
      SnapshotRestores(decode, x', i);
      SnapshotFeeds(log', s.lastApplied, s'.lastIncludedIndex, Restored(decode, s'.snapshot));
      NodeParts(log', node, s.lastApplied);
      var msg := N.SnapshotMsg(s'.lastIncludedIndex, Some(Restored(decode, s'.snapshot)));
      FeedsOn(log', node.at, node.channel, s.lastApplied, [msg], s'.lastApplied);
    }
    RaftMovesInv(decode, x, x', R.ReceiveInstall(i, m), node');
  }

  lemma SnapshotFeeds(log: seq<Op>, at: int, index: int, st: Status)
    requires 0 <= at < index && K.StatusOk(log, st, index)
    ensures Feeds(log, at, [N.SnapshotMsg(index, Some(st))], index)
  {
  }

  lemma RestartInv(decode: Command -> Op, x: System, x': System, i: nat, vote: int)
    requires Inv(decode, x) && RestartStep(decode, x, x', i, vote)
    ensures Inv(decode, x')
  {
    hide K.Inv, RaftOk, RC.LongestOf, Restored, Replay, NodesOk;
    var node' := x'.nodes[i];
    RaftStepOk(decode, x, x', R.Crash(i, vote), node');
    SnapshotRestores(decode, x', i);
    RaftMovesInv(decode, x, x', R.Crash(i, vote), node');
  }

  /** A message on the channel takes the server to a longer prefix of the log. */
  lemma ConsumedOk(log: seq<Op>, node: Node, delivered: int)
    requires NodeOk(log, node, delivered) && node.channel != []
    ensures NodeOk(log, Consumed(node), delivered) && node.at < Consumed(node).at
  {
    var at := node.at;
    if node.channel[0].CommandMsg? {
      assert log[..at + 1] == log[..at] + [log[at]];
      ReplayMore(EMPTY, log[..at], log[at]);
    }
  }

  lemma ConsumeInv(decode: Command -> Op, x: System, x': System, i: nat)
    requires Inv(decode, x) && ConsumeStep(x, x', i)
    ensures Inv(decode, x')
  {
    hide K.Inv, RI.Inv, RC.Upholds, RC.LeadersWithin, NodeOk, Consumed, K.StatusOk;
    var log := Requests(decode, x.committed);
    ConsumedOk(log, x.nodes[i], x.raft.servers[i].lastApplied);
    NodeParts(log, Consumed(x.nodes[i]), x.raft.servers[i].lastApplied);
    ViewReplaces(decode, x, i, Consumed(x.nodes[i]));
  }

  lemma ClientProposes(decode: Command -> Op, x: System, x': System, step: Step)
    requires Next(decode, x, x', step)
    requires step.Call? || step.AnswerRepeated? || step.AnswerApplied? || step.Return?
    ensures SameServers(x, x') && x'.proposed == x.proposed
  {
    assert View(decode, x').proposed == View(decode, x).proposed;
  }

  lemma ClientInv(decode: Command -> Op, x: System, x': System, step: Step)
    requires Inv(decode, x) && Next(decode, x, x', step)
    requires step.Call? || step.AnswerRepeated? || step.AnswerApplied? || step.Return?
    ensures Inv(decode, x')
  {
    hide K.Inv, RI.Inv, RC.Upholds, RC.LeadersWithin, NodeOk, View, K.CallStep, K.RepeatedStep, K.AppliedStep;
    hide K.ReturnStep;
    var s, s' := View(decode, x), View(decode, x');
    ClientProposes(decode, x, x', step);
    match step
    case Call(c, kind, key, value) => KS.CallInv(s, s', c, kind, key, value);
    case AnswerRepeated(i, op) => KS.RepeatedInv(s, s', i, op);
    case AnswerApplied(i, op, k) => KS.AppliedInv(s, s', i, op, k);
    case Return(c, a) => KS.ReturnInv(s, s', c, a);
  }

  lemma StepInv(decode: Command -> Op, x: System, x': System)
    requires Inv(decode, x) && CanStep(decode, x, x')
    ensures Inv(decode, x')
  {
    hide Inv, InternalStep, ProposeStep, DeliverStep, InstallStep, RestartStep, SaveStep, ConsumeStep, K.CallStep;
    hide K.RepeatedStep, K.AppliedStep, K.ReturnStep, View;
    var step :| Next(decode, x, x', step);
    match step
    case Internal(s) => InternalInv(decode, x, x', s);
    case Propose(i, cmd) => ProposeInv(decode, x, x', i, cmd);
    case Deliver(i) => DeliverInv(decode, x, x', i);
    case Install(i, m) => InstallInv(decode, x, x', i, m);
    case Restart(i, vote) => RestartInv(decode, x, x', i, vote);
    case Save(i) => SaveInv(decode, x, x', i);
    case Consume(i) => ConsumeInv(decode, x, x', i);
    case _ => ClientInv(decode, x, x', step);
  }

  // ----- every run -----

  lemma InitInv(decode: Command -> Op, peers: nat)
    ensures Inv(decode, Init(peers))
  {
    hide K.Inv, RI.Inv, RC.Upholds;
    var x := Init(peers);
    RF.InitInv(peers);
    RC.InitUpholds(peers);
    assert Requests(decode, x.committed) == [];
    KS.InitInv(View(decode, x));
  }

  lemma {:induction false} RunInv(decode: Command -> Op, peers: nat, run: seq<System>, t: nat)
    requires IsRun(decode, peers, run) && t < |run|
    ensures Inv(decode, run[t])
    decreases t
  {
    hide Inv, CanStep, Init;
    if t == 0 {
      InitInv(decode, peers);
    } else {
      RunInv(decode, peers, run, t - 1);
      assert CanStep(decode, run[t - 1], run[t - 1 + 1]);
      StepInv(decode, run[t - 1], run[t]);
    }
  }

  /** Every run of the service on Raft is linearizable: elections, lost and repeated messages,
      restarts, compaction and installed snapshots included. */
  lemma ReplicatedLinearizable(decode: Command -> Op, peers: nat, run: seq<System>, t: nat, ops: seq<KvOp>)
    requires IsRun(decode, peers, run) && t < |run|
    requires Lists(ops, History(View(decode, run[t])))
    ensures Linearizable(Whole(), ops) && Consistent(ops) && Typed(ops) && Timed(ops)
  {
    hide IsRun, K.Inv, History, Linearizable, View, RaftOk, NodesOk, Typed, Timed, Lists, Consistent;
    RunInv(decode, peers, run, t);
    StateLinearizable(View(decode, run[t]), ops);
    HistoryTimed(View(decode, run[t]), ops);
    LinearizableIff(ops);
  }

  /** What a server gives Raft as a snapshot restores to what it had: the bytes stand for the log
      prefix that Raft cuts off. */
  lemma SavedIsPrefix(decode: Command -> Op, peers: nat, run: seq<System>, t: nat, i: nat)
    requires IsRun(decode, peers, run) && t < |run| && i < |run[t].nodes|
    ensures |run[t].nodes| == |run[t].raft.servers|
    ensures var node, s := run[t].nodes[i], run[t].raft.servers[i];
            && RI.IndicesOk(s, run[t].raft.peers, i) && node.at <= s.lastApplied < |RS.FullLog(s)|
            && node.progress.status == Restored(decode, RS.FullLog(s)[..node.at + 1])
  {
    hide IsRun, K.Inv, RI.Inv, RC.Upholds, RC.LeadersWithin, RS.FullLog;
    RunInv(decode, peers, run, t);
    var x := run[t];
    var node, s := x.nodes[i], x.raft.servers[i];
    var log := Requests(decode, x.committed);
    assert NodeOk(log, node, s.lastApplied);
    NodeParts(log, node, s.lastApplied);
    RC.ServerUpheld(x.raft, x.committed, i);
    RL.FullLogView(s, x.raft.peers, i);
    assert RS.FullLog(s)[..node.at + 1] == x.committed[..node.at + 1] by {
      assert RS.FullLog(s)[..s.commitIndex + 1][..node.at + 1] == RS.FullLog(s)[..node.at + 1];
    }
    PrefixRequests(decode, x.committed, node.at + 1);
  }
}
