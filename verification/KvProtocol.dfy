/** Clerks, an unreliable network, and servers that apply a growing committed log in order: the
    replicated key/value service as a state machine. Raft appears as the log it agrees on, in
    which a proposed request may turn up any number of times, or never. */
module KvProtocol {
  import opened Options
  import opened KvModel
  import opened KvService

  datatype Snapshot = Snapshot(status: Status, index: nat)

  /** A server has applied the first `applied` entries. `saved` survives a crash. */
  datatype Server = Server(status: Status, applied: nat, saved: Option<Snapshot>)

  /** Requests 0, ..., next-1 were issued; the last is still open if `pending`. */
  datatype Clerk = Clerk(next: nat, pending: bool)

  /** When a call was issued, and how long the log was then. */
  datatype Issue = Issue(op: Op, call: int, base: nat)

  /** A reply on its way to a clerk; `point` is the length of the prefix a Get was answered from. */
  datatype Answer = Answer(id: Id, value: string, point: nat)

  /** How a call ended, when, and how long the log was then. */
  datatype Completion = Completion(value: string, ret: int, point: nat, at: nat)

  /** The clock `now` ticks at every call and every return. */
  datatype System = System(
    now: nat,
    log: seq<Op>,
    servers: seq<Server>,
    clerks: map<int, Clerk>,
    requests: set<Op>,
    proposed: set<Op>,
    answers: set<Answer>,
    issued: map<Id, Issue>,
    done: map<Id, Completion>)

  datatype Step =
    | Call(client: int, kind: OpType, key: string, value: string)
    | Propose(server: int, op: Op)
    | Commit(op: Op)
    | ApplyEntry(server: int)
    | Save(server: int)
    | Crash(server: int)
    | Install(server: int, snapshot: Snapshot)
    | AnswerRepeated(server: int, op: Op)
    | AnswerApplied(server: int, op: Op, k: int)
    | Return(client: int, answer: Answer)

  function ClerkOf(s: System, c: int): Clerk {
    if c in s.clerks then s.clerks[c] else Clerk(0, false)
  }

  /** A clerk that has nothing open numbers its next request and sends it out. */
  ghost predicate CallStep(s: System, s': System, c: int, kind: OpType, key: string, value: string) {
    var ck := ClerkOf(s, c);
    var op := Op(kind, key, value, c, ck.next);
    && !ck.pending
    && s' == s.(now := s.now + 1,
                clerks := s.clerks[c := Clerk(ck.next + 1, true)],
                requests := s.requests + {op},
                issued := s.issued[IdOf(op) := Issue(op, s.now, |s.log|)])
  }

  /** A server hands a request to Raft. Puts and Appends it has executed are not handed on. */
  ghost predicate ProposeStep(s: System, s': System, i: int, op: Op) {
    && 0 <= i < |s.servers| && op in s.requests
    && (op.kind != GET ==> IsNew(s.servers[i].status.duptable, op))
    && s' == s.(proposed := s.proposed + {op})
  }

  ghost predicate CommitStep(s: System, s': System, op: Op) {
    op in s.proposed && s' == s.(log := s.log + [op])
  }

  ghost predicate Replaces(s: System, s': System, i: int, server: Server) {
    0 <= i < |s.servers| && s' == s.(servers := s.servers[i := server])
  }

  ghost predicate ApplyStep(s: System, s': System, i: int) {
    && 0 <= i < |s.servers| && s.servers[i].applied < |s.log|
    && var sv := s.servers[i];
       Replaces(s, s', i, sv.(status := Apply(sv.status, s.log[sv.applied]), applied := sv.applied + 1))
  }

  ghost predicate SaveStep(s: System, s': System, i: int) {
    && 0 <= i < |s.servers|
    && var sv := s.servers[i];
       Replaces(s, s', i, sv.(saved := Some(Snapshot(sv.status, sv.applied))))
  }

  /** A restarted server begins from its snapshot, or from nothing. */
  ghost predicate CrashStep(s: System, s': System, i: int) {
    && 0 <= i < |s.servers|
    && var sv := s.servers[i];
       Replaces(s, s', i, match sv.saved
                          case None => sv.(status := EMPTY, applied := 0)
                          case Some(sn) => sv.(status := sn.status, applied := sn.index))
  }

  /** A server takes over the snapshot of another that is not behind it. */
  ghost predicate InstallStep(s: System, s': System, i: int, sn: Snapshot) {
    && 0 <= i < |s.servers| && s.servers[i].applied <= sn.index
    && (exists j :: 0 <= j < |s.servers| && s.servers[j].saved == Some(sn))
    && Replaces(s, s', i, Server(sn.status, sn.index, Some(sn)))
  }

  /** A Put or Append the server's table says is executed is answered at once, leader or not. */
  ghost predicate RepeatedStep(s: System, s': System, i: int, op: Op) {
    && 0 <= i < |s.servers| && op in s.requests && op.kind != GET
    && !IsNew(s.servers[i].status.duptable, op)
    && s' == s.(answers := s.answers + {Answer(IdOf(op), "", 0)})
  }

  /** A handler is woken by its request being applied at index `k`. A Get then reads the data,
      which may have moved on. */
  ghost predicate AppliedStep(s: System, s': System, i: int, op: Op, k: int) {
    && 0 <= i < |s.servers| && op in s.requests
    && 0 <= k < s.servers[i].applied && k < |s.log| && IdOf(s.log[k]) == IdOf(op)
    && var sv := s.servers[i];
       var value := if op.kind == GET then At(sv.status.data, op.key) else "";
       s' == s.(answers := s.answers + {Answer(IdOf(op), value, sv.applied)})
  }

  /** A clerk takes a reply to its open request and returns. */
  ghost predicate ReturnStep(s: System, s': System, c: int, a: Answer) {
    var ck := ClerkOf(s, c);
    && ck.pending && a in s.answers && a.id == Id(c, ck.next - 1)
    && s' == s.(now := s.now + 1,
                clerks := s.clerks[c := ck.(pending := false)],
                done := s.done[a.id := Completion(a.value, s.now, a.point, |s.log|)])
  }

  ghost predicate Next(s: System, s': System, step: Step) {
    match step
    case Call(c, kind, key, value) => CallStep(s, s', c, kind, key, value)
    case Propose(i, op) => ProposeStep(s, s', i, op)
    case Commit(op) => CommitStep(s, s', op)
    case ApplyEntry(i) => ApplyStep(s, s', i)
    case Save(i) => SaveStep(s, s', i)
    case Crash(i) => CrashStep(s, s', i)
    case Install(i, sn) => InstallStep(s, s', i, sn)
    case AnswerRepeated(i, op) => RepeatedStep(s, s', i, op)
    case AnswerApplied(i, op, k) => AppliedStep(s, s', i, op, k)
    case Return(c, a) => ReturnStep(s, s', c, a)
  }

  ghost predicate CanStep(s: System, s': System) {
    exists step :: Next(s, s', step)
  }

  ghost predicate Init(s: System) {
    && s.now == 0 && s.log == [] && s.clerks == map[] && s.requests == {} && s.proposed == {} && s.answers == {}
    && s.issued == map[] && s.done == map[]
    && forall i :: 0 <= i < |s.servers| ==> s.servers[i] == Server(EMPTY, 0, None)
  }

  ghost predicate IsRun(run: seq<System>) {
    run != [] && Init(run[0]) && forall t :: 0 <= t < |run| - 1 ==> CanStep(run[t], run[t + 1])
  }

  // ----- the invariant -----

  ghost predicate Known(s: System, op: Op) {
    IdOf(op) in s.issued && s.issued[IdOf(op)].op == op
  }

  /** Every issued request is numbered, timed, and either open or in the log. */
  ghost predicate IssueOk(s: System, id: Id)
    requires id in s.issued
  {
    var e, ck := s.issued[id], ClerkOf(s, id.clientId);
    && IdOf(e.op) == id && e.call < s.now && e.base <= |s.log|
    && 0 <= id.sequenceId < ck.next
    && (InLog(s.log, id) || (ck.pending && id.sequenceId == ck.next - 1))
  }

  ghost predicate IssuesOk(s: System) {
    && (forall id :: id in s.issued ==> IssueOk(s, id))
    && (forall a, b :: a in s.issued && b in s.issued && s.issued[a].call == s.issued[b].call ==> a == b)
  }

  ghost predicate LogOk(s: System) {
    && FirstsIncrease(s.log)
    && (forall k :: 0 <= k < |s.log| ==> Known(s, s.log[k]) && s.issued[IdOf(s.log[k])].base <= k)
    && (forall op :: op in s.requests || op in s.proposed ==> Known(s, op))
  }

  ghost predicate StatusOk(log: seq<Op>, status: Status, n: int) {
    0 <= n <= |log| && status == Replay(log[..n])
  }

  ghost predicate ServerOk(s: System, sv: Server) {
    && StatusOk(s.log, sv.status, sv.applied)
    && (sv.saved.Some? ==> StatusOk(s.log, sv.saved.value.status, sv.saved.value.index))
  }

  ghost predicate ServersOk(s: System) {
    forall i :: 0 <= i < |s.servers| ==> ServerOk(s, s.servers[i])
  }

  /** What a reply says is true of the log: the request is in it, and a Get read the value its key
      had after `point` entries, its own entry among them. */
  ghost predicate ReplyOk(s: System, id: Id, value: string, point: nat) {
    && id in s.issued && InLog(s.log, id)
    && var e := s.issued[id];
       if e.op.kind == GET then e.base < point <= |s.log| && value == At(Replay(s.log[..point]).data, e.op.key)
       else value == ""
  }

  ghost predicate AnswersOk(s: System) {
    forall a :: a in s.answers ==> ReplyOk(s, a.id, a.value, a.point)
  }

  ghost predicate CompletionOk(s: System, id: Id)
    requires id in s.done
  {
    var d := s.done[id];
    && ReplyOk(s, id, d.value, d.point)
    && s.issued[id].call < d.ret < s.now
    && d.at <= |s.log| && InLog(s.log[..d.at], id) && (s.issued[id].op.kind == GET ==> d.point <= d.at)
  }

  /** Completed before issued: the log was no longer then than at the later call. */
  ghost predicate DoneOk(s: System) {
    && (forall id :: id in s.done ==> CompletionOk(s, id))
    && (forall a, b :: a in s.done && b in s.issued && s.done[a].ret < s.issued[b].call ==>
          s.done[a].at <= s.issued[b].base)
  }

  ghost predicate Inv(s: System) {
    IssuesOk(s) && LogOk(s) && ServersOk(s) && AnswersOk(s) && DoneOk(s)
  }
}
