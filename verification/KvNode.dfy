/** The key/value server and clerk objects, refining the transitions of the service. */
module KvNode {
  import opened Options
  import opened KvModel
  import opened KvService

  /** What Raft delivers. A snapshot that cannot be decoded has no status. */
  datatype ApplyMsg =
    | CommandMsg(index: int, op: Op)
    | SnapshotMsg(index: int, status: Option<Status>)
    | OtherMsg

  datatype GetReply = GetReply(leader: bool, found: bool, value: string)

  // ----- the apply loop on values -----

  datatype Progress = Progress(status: Status, lastApplied: int, stopped: bool)

  function Handle(p: Progress, msg: ApplyMsg): Progress {
    if p.stopped then p
    else match msg
      case CommandMsg(index, op) =>
        if index <= p.lastApplied then p else p.(status := Apply(p.status, op), lastApplied := index)
      case SnapshotMsg(index, None) => p.(stopped := true)
      case SnapshotMsg(index, Some(st)) => p.(status := st, lastApplied := index)
      case OtherMsg => p
  }

  function HandleAll(p: Progress, msgs: seq<ApplyMsg>): Progress
    decreases |msgs|
  {
    if msgs == [] then p else Handle(HandleAll(p, msgs[..|msgs| - 1]), msgs[|msgs| - 1])
  }

  /** The entries from position `lo` on, as Raft delivers them in order: entry `k` has index `k + 1`. */
  ghost function Deliveries(log: seq<Op>, lo: nat, hi: nat): (r: seq<ApplyMsg>)
    requires lo <= hi <= |log|
    ensures |r| == hi - lo && forall k :: 0 <= k < |r| ==> r[k] == CommandMsg(lo + k + 1, log[lo + k])
  {
    seq(hi - lo, k requires 0 <= k < hi - lo => CommandMsg(lo + k + 1, log[lo + k]))
  }

  /** Entries delivered in order take the server from one prefix of the log to a longer one, also
      after a restart, when the count of applied entries begins at 0 again. */
  lemma {:induction false} CatchesUp(log: seq<Op>, lo: nat, hi: nat, lastApplied: int)
    requires lo <= hi <= |log| && lastApplied <= lo
    ensures HandleAll(Progress(Replay(log[..lo]), lastApplied, false), Deliveries(log, lo, hi)) ==
            Progress(Replay(log[..hi]), if lo == hi then lastApplied else hi, false)
    decreases hi
  {
    var p := Progress(Replay(log[..lo]), lastApplied, false);
    if lo < hi {
      var msgs, n := Deliveries(log, lo, hi), hi - lo - 1;
      CatchesUp(log, lo, hi - 1, lastApplied);
      assert msgs[..n] == Deliveries(log, lo, hi - 1);
      assert log[..hi] == log[..hi - 1] + [log[hi - 1]];
      ReplayMore(EMPTY, log[..hi - 1], log[hi - 1]);
    }
  }

  /** Entries a snapshot already covers are skipped. */
  lemma {:induction false} CoveredSkipped(log: seq<Op>, lo: nat, hi: nat, index: int, st: Status)
    requires lo <= hi <= |log| && hi <= index
    ensures HandleAll(Progress(st, index, false), Deliveries(log, lo, hi)) == Progress(st, index, false)
    decreases hi
  {
    if lo < hi {
      var msgs, n := Deliveries(log, lo, hi), hi - lo - 1;
      CoveredSkipped(log, lo, hi - 1, index, st);
      assert msgs[..n] == Deliveries(log, lo, hi - 1);
    }
  }

  // ----- the server -----

  class KVServer {
    const maxraftstate: int
    var data: map<string, string>
    var duptable: map<int, int>
    var lastApplied: int
    var wakeClient: set<int>
    var stopped: bool

    ghost function State(): Progress
      reads this
    {
      Progress(Status(data, duptable), lastApplied, stopped)
    }

    /** A started server has what its snapshot says, if there is one that can be decoded. */
    constructor (maxraftstate: int, snapshot: Option<Status>)
      ensures State() == Progress(if snapshot.Some? then snapshot.value else EMPTY, 0, false)
      ensures this.maxraftstate == maxraftstate && wakeClient == {}
    {
      this.maxraftstate := maxraftstate;
      lastApplied, duptable, data, wakeClient, stopped := 0, map[], map[], {}, false;
      if snapshot.Some? {
        data, duptable := snapshot.value.data, snapshot.value.duptable;
      }
    }

    /** Raft's state takes nine tenths of what it may. A negative limit is no limit. */
    predicate WantsSnapshot(raftStateSize: nat)
      ensures maxraftstate > 0 ==> (WantsSnapshot(raftStateSize) <==> 10 * raftStateSize >= 9 * maxraftstate)
      ensures maxraftstate == 0 ==> (WantsSnapshot(raftStateSize) <==> raftStateSize > 0)
      ensures maxraftstate < 0 ==> !WantsSnapshot(raftStateSize)
    {
      maxraftstate != -1 &&
      if maxraftstate == 0 then raftStateSize > 0 else raftStateSize as real / maxraftstate as real >= 0.9
    }

    /** Executes a committed request unless it repeats one. */
    method ApplyOp(op: Op)
      modifies this`data, this`duptable
      ensures Status(data, duptable) == Apply(old(Status(data, duptable)), op)
    {
      if op.clientId !in duptable || duptable[op.clientId] < op.sequenceId {
        duptable := duptable[op.clientId := op.sequenceId];
        match op.kind {
          case PUT => data := data[op.key := op.value];
          case APPEND =>
            if op.key in data {
              data := data[op.key := data[op.key] + op.value];
            } else {
              data := data[op.key := op.value];
            }
          case GET =>
        }
      }
    }

    /** One round of the apply loop: who is woken, and the snapshot handed to Raft. */
    method Receive(msg: ApplyMsg, raftStateSize: nat) returns (woken: Option<Id>, snapshot: Option<(int, Status)>)
      requires !stopped
      modifies this`data, this`duptable, this`lastApplied, this`stopped
      ensures State() == Handle(old(State()), msg)
      ensures woken == if msg.CommandMsg? && msg.index > old(lastApplied) && msg.index in wakeClient
                       then Some(IdOf(msg.op)) else None
      ensures snapshot == if msg.CommandMsg? && msg.index > old(lastApplied) && WantsSnapshot(raftStateSize)
                          then Some((msg.index, State().status)) else None
    {
      woken, snapshot := None, None;
      match msg {
        case CommandMsg(index, op) =>
          if index <= lastApplied {
            return;
          }
          ApplyOp(op);
          if index in wakeClient {
            woken := Some(Id(op.clientId, op.sequenceId));
          }
          lastApplied := index;
          if WantsSnapshot(raftStateSize) {
            snapshot := Some((index, Status(data, duptable)));
          }
        case SnapshotMsg(index, status) =>
          if status == None {
            stopped := true;
            return;
          }
          lastApplied := index;
          data, duptable := status.value.data, status.value.duptable;
        case OtherMsg =>
      }
    }

    /** The apply loop over what arrives on the channel. */
    method ApplyAll(msgs: seq<ApplyMsg>, sizes: seq<nat>)
      requires !stopped && |sizes| == |msgs|
      modifies this`data, this`duptable, this`lastApplied, this`stopped
      ensures State() == HandleAll(old(State()), msgs)
    {
      ghost var start := State();
      for i := 0 to |msgs|
        invariant State() == HandleAll(start, msgs[..i])
        invariant stopped ==> State() == HandleAll(start, msgs)
      {
        assert msgs[..i + 1][..i] == msgs[..i];
        if stopped {
          break;
        }
        var woken, snapshot := Receive(msgs[i], sizes[i]);
        if stopped {
          StaysStopped(start, msgs, i + 1);
        }
      }
      assert msgs[..|msgs|] == msgs;
    }

    /** Where a handler waits for its request, and stops waiting. */
    method Register(index: int)
      modifies this`wakeClient
      ensures wakeClient == old(wakeClient) + {index}
    {
      wakeClient := wakeClient + {index};
    }

    method Clean(index: int)
      modifies this`wakeClient
      ensures wakeClient == old(wakeClient) - {index}
    {
      wakeClient := wakeClient - {index};
    }

    /** A Put or Append is answered before it is proposed exactly if the table has it. */
    method PutAppendRepeated(op: Op) returns (repeated: bool)
      ensures repeated <==> !IsNew(duptable, op)
    {
      repeated := op.clientId in duptable && duptable[op.clientId] >= op.sequenceId;
    }

    /** The end of a Get handler: woken for its own request it reads the data as it is now,
        otherwise the clerk has to look elsewhere. */
    method FinishGet(op: Op, woken: Option<Id>) returns (reply: GetReply)
      ensures reply.leader <==> woken == Some(IdOf(op))
      ensures reply.leader ==> reply.value == At(data, op.key) && (reply.found <==> op.key in data)
      ensures !reply.leader ==> reply.value == ""
    {
      if woken.Some? && woken.value.clientId == op.clientId && woken.value.sequenceId == op.sequenceId {
        if op.key in data {
          return GetReply(true, true, data[op.key]);
        } else {
          return GetReply(true, false, "");
        }
      }
      reply := GetReply(false, false, "");
    }
  }

  lemma {:induction false} StaysStopped(p: Progress, msgs: seq<ApplyMsg>, n: int)
    requires 0 <= n <= |msgs| && HandleAll(p, msgs[..n]).stopped
    ensures HandleAll(p, msgs) == HandleAll(p, msgs[..n])
    decreases |msgs| - n
  {
    if n == |msgs| {
      assert msgs[..n] == msgs;
    } else {
      assert msgs[..n + 1][..n] == msgs[..n];
      StaysStopped(p, msgs, n + 1);
    }
  }

  // ----- the clerk -----

  /** Attempt `k` was answered by a server that could serve it. */
  predicate Served(replies: seq<Option<GetReply>>, k: int)
    requires 0 <= k < |replies|
  {
    replies[k].Some? && replies[k].value.leader
  }

  lemma {:induction false} MoreTimes(n: nat, p: nat, q: nat)
    requires p < q
    ensures n * q >= n * p + n
    decreases q
  {
    assert n * q == n * (q - 1) + n;
    if p < q - 1 {
      MoreTimes(n, p, q - 1);
    }
  }

  lemma RemainderUnique(n: nat, p: nat, q: nat, r: nat, s: nat)
    requires n * p + r == n * q + s && r < n && s < n
    ensures r == s
  {
    if p < q {
      MoreTimes(n, p, q);
    } else if q < p {
      MoreTimes(n, q, p);
    }
  }

  lemma ModIs(x: nat, q: nat, r: nat, n: nat)
    requires r < n && x == n * q + r
    ensures x % n == r
  {
    RemainderUnique(n, q, x / n, r, x % n);
  }

  /** Going on by one from server `(leader + k) % n`. */
  lemma RoundStep(leader: nat, k: nat, n: nat)
    requires leader < n
    ensures ((leader + k) % n + 1) % n == (leader + (k + 1)) % n
  {
    var x := leader + k;
    var q, r := x / n, x % n;
    assert x == n * q + r;
    if r + 1 < n {
      ModIs(x + 1, q, r + 1, n);
      ModIs(r + 1, 0, r + 1, n);
    } else {
      assert n * (q + 1) == n * q + n;
      ModIs(x + 1, q + 1, 0, n);
      ModIs(n, 1, 0, n);
    }
  }

  /** Any `n` attempts in a row ask every server. */
  lemma AsksAll(leader: nat, lo: nat, server: nat, n: nat) returns (k: nat)
    requires leader < n && server < n
    ensures lo <= k < lo + n && (leader + k) % n == server
  {
    var x := leader + lo;
    var q, at := x / n, x % n;
    assert x == n * q + at;
    if at <= server {
      k := lo + (server - at);
      ModIs(leader + k, q, server, n);
    } else {
      k := lo + (server + n - at);
      assert n * (q + 1) == n * q + n;
      ModIs(leader + k, q + 1, server, n);
    }
  }

  class Clerk {
    const servers: nat
    const clientId: int
    var leader: int
    var sequenceId: int

    ghost predicate Valid()
      reads this
    {
      0 <= leader < servers
    }

    constructor (servers: nat, clientId: int)
      requires servers > 0
      ensures Valid() && this.servers == servers && this.clientId == clientId && leader == 0 && sequenceId == 0
    {
      this.servers, this.clientId := servers, clientId;
      leader, sequenceId := 0, 0;
    }

    /** Sends one numbered request to server after server until one serves it. `replies` is what
        the attempts bring, nothing where the call fails; the result is the first reply that serves. */
    method Request(replies: seq<Option<GetReply>>)
      returns (number: int, value: string, attempts: nat, asked: seq<int>)
      requires Valid() && exists k :: 0 <= k < |replies| && Served(replies, k)
      modifies this
      ensures Valid() && number == old(sequenceId) && sequenceId == old(sequenceId) + 1
      ensures attempts < |replies| && Served(replies, attempts)
      ensures forall k :: 0 <= k < attempts ==> !Served(replies, k)
      ensures value == replies[attempts].value.value && leader == (old(leader) + attempts) % servers
      ensures |asked| == attempts + 1 && forall k :: 0 <= k <= attempts ==> asked[k] == (old(leader) + k) % servers
    {
      number := sequenceId;
      sequenceId := sequenceId + 1;
      var server := leader;
      attempts, asked := 0, [server];
      ModIs(leader, 0, leader, servers);
      while !Served(replies, attempts)
        invariant Valid() && leader == old(leader) && sequenceId == old(sequenceId) + 1
        invariant attempts < |replies| && forall k :: 0 <= k < attempts ==> !Served(replies, k)
        invariant |asked| == attempts + 1 && server == asked[attempts] && 0 <= server < servers
        invariant forall k :: 0 <= k <= attempts ==> asked[k] == (leader + k) % servers
        decreases |replies| - attempts
      {
        RoundStep(leader, attempts, servers);
        server := (server + 1) % servers;
        attempts := attempts + 1;
        asked := asked + [server];
      }
      leader := server;
      value := replies[attempts].value.value;
    }
  }
}
