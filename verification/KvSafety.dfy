/** The invariant of the key/value service holds in every run. */
module KvSafety {
  import opened Options
  import opened KvModel
  import opened KvService
  import opened KvProtocol

  lemma InitInv(s: System)
    requires Init(s)
    ensures Inv(s)
  {
    assert s.log[..0] == [];
    forall i | 0 <= i < |s.servers| ensures ServerOk(s, s.servers[i]) {
      assert s.servers[i] == Server(EMPTY, 0, None);
    }
  }

  // ----- a longer log -----

  lemma InLogPrefix(log: seq<Op>, n: int, id: Id)
    requires 0 <= n <= |log| && InLog(log[..n], id)
    ensures InLog(log, id)
  {
    var k :| 0 <= k < n && IdOf(log[..n][k]) == id;
    assert IdOf(log[k]) == id;
  }

  lemma PrefixKept(log: seq<Op>, op: Op, n: int)
    requires 0 <= n <= |log|
    ensures (log + [op])[..n] == log[..n]
  {
  }

  /** Only an open request can be new to the log, so first appearances stay in order. */
  lemma CommitFirsts(s: System, op: Op)
    requires IssuesOk(s) && LogOk(s) && op in s.proposed
    ensures FirstsIncrease(s.log + [op])
  {
    var log' := s.log + [op];
    forall j, k | 0 <= j < k < |log'| && IsFirst(log', k) && log'[j].clientId == log'[k].clientId
      ensures log'[j].sequenceId < log'[k].sequenceId
    {
      if k < |s.log| {
        assert IsFirst(s.log, k) by {
          forall i | 0 <= i < k ensures IdOf(s.log[i]) != IdOf(s.log[k]) {
            assert log'[i] == s.log[i];
          }
        }
      } else {
        FirstIsLast(s, op, j);
      }
    }
  }

  lemma FirstIsLast(s: System, op: Op, j: int)
    requires IssuesOk(s) && LogOk(s) && op in s.proposed && 0 <= j < |s.log|
    requires IsFirst(s.log + [op], |s.log|) && s.log[j].clientId == op.clientId
    ensures s.log[j].sequenceId < op.sequenceId
  {
    var log' := s.log + [op];
    assert !InLog(s.log, IdOf(op)) by {
      forall k | 0 <= k < |s.log| ensures IdOf(s.log[k]) != IdOf(op) {
        assert log'[k] == s.log[k];
      }
    }
    assert Known(s, op) && IssueOk(s, IdOf(op));
    assert Known(s, s.log[j]) && IssueOk(s, IdOf(s.log[j]));
    assert IdOf(log'[j]) != IdOf(op);
  }

  lemma CommitInv(s: System, s': System, op: Op)
    requires Inv(s) && CommitStep(s, s', op)
    ensures Inv(s')
  {
    hide FirstsIncrease, InLog, Replay;
    CommitFirsts(s, op);
    CommitIssues(s, s', op);
    CommitAnswers(s, s', op);
    forall i | 0 <= i < |s.servers| ensures ServerOk(s', s'.servers[i]) {
      CommitServer(s, s', op, s.servers[i]);
    }
  }

  lemma CommitServer(s: System, s': System, op: Op, sv: Server)
    requires CommitStep(s, s', op) && ServerOk(s, sv)
    ensures ServerOk(s', sv)
  {
    hide Replay;
    PrefixKept(s.log, op, sv.applied);
    if sv.saved.Some? {
      PrefixKept(s.log, op, sv.saved.value.index);
    }
  }

  lemma CommitIssues(s: System, s': System, op: Op)
    requires Inv(s) && CommitStep(s, s', op)
    ensures IssuesOk(s')
  {
    hide FirstsIncrease, InLog, Replay, ServersOk, AnswersOk, DoneOk;
    forall id | id in s'.issued ensures IssueOk(s', id) {
      assert IssueOk(s, id);
      InLogMore(s.log, op, id);
    }
  }

  lemma CommitReply(s: System, s': System, op: Op, id: Id, value: string, point: nat)
    requires CommitStep(s, s', op) && ReplyOk(s, id, value, point)
    ensures ReplyOk(s', id, value, point)
  {
    hide Replay;
    InLogMore(s.log, op, id);
    if s.issued[id].op.kind == GET {
      PrefixKept(s.log, op, point);
    }
  }

  lemma CommitAnswers(s: System, s': System, op: Op)
    requires Inv(s) && CommitStep(s, s', op)
    ensures AnswersOk(s') && DoneOk(s')
  {
    hide FirstsIncrease, InLog, Replay, ServersOk, IssuesOk, LogOk, ReplyOk;
    forall a | a in s'.answers ensures ReplyOk(s', a.id, a.value, a.point) {
      CommitReply(s, s', op, a.id, a.value, a.point);
    }
    forall id | id in s'.done ensures CompletionOk(s', id) {
      assert CompletionOk(s, id);
      CommitReply(s, s', op, id, s.done[id].value, s.done[id].point);
      PrefixKept(s.log, op, s.done[id].at);
    }
  }

  // ----- calls and returns -----

  lemma CallInv(s: System, s': System, c: int, kind: OpType, key: string, value: string)
    requires Inv(s) && CallStep(s, s', c, kind, key, value)
    ensures Inv(s')
  {
    hide FirstsIncrease, InLog, Replay, At;
    var id := Id(c, ClerkOf(s, c).next);
    assert id !in s.issued by {
      assert id in s.issued ==> IssueOk(s, id);
    }
    CallIssues(s, s', c, kind, key, value);
    forall i | 0 <= i < |s.servers| ensures ServerOk(s', s'.servers[i]) {
      assert ServerOk(s, s.servers[i]);
    }
    forall a | a in s'.answers ensures ReplyOk(s', a.id, a.value, a.point) {
      assert ReplyOk(s, a.id, a.value, a.point);
    }
    CallDone(s, s', c, kind, key, value);
    CallLog(s, s', c, kind, key, value);
  }

  lemma CallIssues(s: System, s': System, c: int, kind: OpType, key: string, value: string)
    requires Inv(s) && CallStep(s, s', c, kind, key, value)
    ensures IssuesOk(s')
  {
    hide FirstsIncrease, InLog, LogOk, ServersOk, AnswersOk, DoneOk;
    forall id | id in s'.issued ensures IssueOk(s', id) {
      if id != Id(c, ClerkOf(s, c).next) {
        assert IssueOk(s, id);
      }
    }
    forall a, b | a in s'.issued && b in s'.issued && s'.issued[a].call == s'.issued[b].call ensures a == b {
      assert a in s.issued ==> IssueOk(s, a);
      assert b in s.issued ==> IssueOk(s, b);
    }
  }

  lemma CallLog(s: System, s': System, c: int, kind: OpType, key: string, value: string)
    requires Inv(s) && CallStep(s, s', c, kind, key, value) && Id(c, ClerkOf(s, c).next) !in s.issued
    ensures LogOk(s')
  {
    hide FirstsIncrease, InLog, IssuesOk, ServersOk, AnswersOk, DoneOk;
    forall k | 0 <= k < |s'.log| ensures Known(s', s'.log[k]) && s'.issued[IdOf(s'.log[k])].base <= k {
      assert Known(s, s.log[k]);
    }
    forall op | op in s'.requests || op in s'.proposed ensures Known(s', op) {
      assert op in s.requests || op in s.proposed ==> Known(s, op);
    }
  }

  lemma CallDone(s: System, s': System, c: int, kind: OpType, key: string, value: string)
    requires Inv(s) && CallStep(s, s', c, kind, key, value) && Id(c, ClerkOf(s, c).next) !in s.issued
    ensures DoneOk(s')
  {
    hide FirstsIncrease, InLog, IssuesOk, LogOk, ServersOk, AnswersOk, Replay, At;
    forall id | id in s'.done ensures CompletionOk(s', id) {
      assert CompletionOk(s, id);
    }
    forall a, b | a in s'.done && b in s'.issued && s'.done[a].ret < s'.issued[b].call
      ensures s'.done[a].at <= s'.issued[b].base
    {
      assert CompletionOk(s, a);
    }
  }

  lemma ReturnInv(s: System, s': System, c: int, a: Answer)
    requires Inv(s) && ReturnStep(s, s', c, a)
    ensures Inv(s')
  {
    hide FirstsIncrease, InLog, Replay, At;
    assert ReplyOk(s, a.id, a.value, a.point);
    forall id | id in s'.issued ensures IssueOk(s', id) {
      assert IssueOk(s, id);
    }
    forall i | 0 <= i < |s.servers| ensures ServerOk(s', s'.servers[i]) {
      assert ServerOk(s, s.servers[i]);
    }
    forall b | b in s'.answers ensures ReplyOk(s', b.id, b.value, b.point) {
      assert ReplyOk(s, b.id, b.value, b.point);
    }
    ReturnDone(s, s', c, a);
  }

  lemma ReturnDone(s: System, s': System, c: int, a: Answer)
    requires Inv(s) && ReturnStep(s, s', c, a)
    ensures DoneOk(s')
  {
    hide FirstsIncrease, InLog, Replay, At, LogOk, ServersOk;
    assert ReplyOk(s, a.id, a.value, a.point);
    assert s.log[..|s.log|] == s.log;
    forall id | id in s'.done ensures CompletionOk(s', id) {
      assert IssueOk(s, a.id);
      assert id in s.done ==> CompletionOk(s, id);
    }
    forall d, e | d in s'.done && e in s'.issued && s'.done[d].ret < s'.issued[e].call
      ensures s'.done[d].at <= s'.issued[e].base
    {
      assert IssueOk(s, e);
    }
  }

  /** Steps that touch neither the log nor the calls keep what is known of them. */
  ghost predicate SameCalls(s: System, s': System) {
    s'.now == s.now && s'.log == s.log && s'.clerks == s.clerks && s'.issued == s.issued && s'.done == s.done
  }

  lemma CallsKept(s: System, s': System)
    requires IssuesOk(s) && DoneOk(s) && SameCalls(s, s')
    ensures IssuesOk(s') && DoneOk(s')
  {
    hide InLog, Replay, At;
    forall id | id in s'.issued ensures IssueOk(s', id) {
      assert IssueOk(s, id);
    }
    forall id | id in s'.done ensures CompletionOk(s', id) {
      assert CompletionOk(s, id);
    }
  }

  lemma LogKept(s: System, s': System)
    requires LogOk(s) && SameCalls(s, s') && s'.requests == s.requests && s'.proposed <= s.proposed + s.requests
    ensures LogOk(s')
  {
    hide FirstsIncrease;
    forall k | 0 <= k < |s'.log| ensures Known(s', s'.log[k]) {
      assert Known(s, s.log[k]);
    }
    forall op | op in s'.requests || op in s'.proposed ensures Known(s', op) {
      assert Known(s, op);
    }
  }

  lemma ServersKept(s: System, s': System)
    requires ServersOk(s) && SameCalls(s, s') && s'.servers == s.servers
    ensures ServersOk(s')
  {
    hide Replay;
    forall i | 0 <= i < |s'.servers| ensures ServerOk(s', s'.servers[i]) {
      assert ServerOk(s, s.servers[i]);
    }
  }

  lemma AnswersKept(s: System, s': System)
    requires AnswersOk(s) && SameCalls(s, s') && s'.answers == s.answers
    ensures AnswersOk(s')
  {
    hide InLog, Replay, At;
    forall a | a in s'.answers ensures ReplyOk(s', a.id, a.value, a.point) {
      assert ReplyOk(s, a.id, a.value, a.point);
    }
  }

  // ----- servers -----

  lemma ServerInv(s: System, s': System, i: int, sv: Server)
    requires Inv(s) && Replaces(s, s', i, sv) && ServerOk(s, sv)
    ensures Inv(s')
  {
    hide IssuesOk, LogOk, AnswersOk, DoneOk, Replay;
    CallsKept(s, s');
    LogKept(s, s');
    AnswersKept(s, s');
    forall k | 0 <= k < |s'.servers| ensures ServerOk(s', s'.servers[k]) {
      assert ServerOk(s, s.servers[k]);
    }
  }

  lemma ApplyInv(s: System, s': System, i: int)
    requires Inv(s) && ApplyStep(s, s', i)
    ensures Inv(s')
  {
    hide IssuesOk, LogOk, AnswersOk, DoneOk, Apply;
    var sv := s.servers[i];
    assert ServerOk(s, sv);
    var n := sv.applied;
    assert s.log[..n + 1] == s.log[..n] + [s.log[n]];
    ReplayMore(EMPTY, s.log[..n], s.log[n]);
    ServerInv(s, s', i, s'.servers[i]);
  }

  lemma SaveInv(s: System, s': System, i: int)
    requires Inv(s) && SaveStep(s, s', i)
    ensures Inv(s')
  {
    hide IssuesOk, LogOk, AnswersOk, DoneOk, Replay;
    assert ServerOk(s, s.servers[i]);
    ServerInv(s, s', i, s'.servers[i]);
  }

  lemma CrashInv(s: System, s': System, i: int)
    requires Inv(s) && CrashStep(s, s', i)
    ensures Inv(s')
  {
    hide IssuesOk, LogOk, AnswersOk, DoneOk;
    assert ServerOk(s, s.servers[i]);
    assert s.log[..0] == [] && Replay([]) == EMPTY;
    ServerInv(s, s', i, s'.servers[i]);
  }

  lemma InstallInv(s: System, s': System, i: int, sn: Snapshot)
    requires Inv(s) && InstallStep(s, s', i, sn)
    ensures Inv(s')
  {
    hide IssuesOk, LogOk, AnswersOk, DoneOk, Replay;
    var j :| 0 <= j < |s.servers| && s.servers[j].saved == Some(sn);
    assert ServerOk(s, s.servers[j]);
    ServerInv(s, s', i, s'.servers[i]);
  }

  // ----- answers -----

  lemma AnswerInv(s: System, s': System, a: Answer)
    requires Inv(s) && s' == s.(answers := s.answers + {a}) && ReplyOk(s, a.id, a.value, a.point)
    ensures Inv(s')
  {
    hide IssuesOk, LogOk, ServersOk, DoneOk, Replay, InLog, At;
    CallsKept(s, s');
    LogKept(s, s');
    ServersKept(s, s');
    forall b | b in s'.answers ensures ReplyOk(s', b.id, b.value, b.point) {
      assert ReplyOk(s, b.id, b.value, b.point);
    }
  }

  /** A server's table vouches for a request: it or a later one of the client is in the log, and
      a later one was issued only after it had been answered. */
  lemma RepeatedInLog(s: System, i: int, op: Op)
    requires Inv(s) && 0 <= i < |s.servers| && op in s.requests && !IsNew(s.servers[i].status.duptable, op)
    ensures InLog(s.log, IdOf(op))
  {
    hide FirstsIncrease, AnswersOk, DoneOk, Replay;
    var sv := s.servers[i];
    assert ServerOk(s, sv);
    ReplayDup(s.log[..sv.applied]);
    var last := Id(op.clientId, sv.status.duptable[op.clientId]);
    assert InLog(s.log[..sv.applied], last);
    InLogPrefix(s.log, sv.applied, last);
    var k :| 0 <= k < |s.log| && IdOf(s.log[k]) == last;
    assert Known(s, s.log[k]) && IssueOk(s, last);
    assert Known(s, op) && IssueOk(s, IdOf(op));
  }

  lemma RepeatedInv(s: System, s': System, i: int, op: Op)
    requires Inv(s) && RepeatedStep(s, s', i, op)
    ensures Inv(s')
  {
    RepeatedInLog(s, i, op);
    hide FirstsIncrease, InLog, Replay, IssuesOk, ServersOk, AnswersOk, DoneOk, IsNew;
    assert Known(s, op);
    AnswerInv(s, s', Answer(IdOf(op), "", 0));
  }

  lemma AppliedInv(s: System, s': System, i: int, op: Op, k: int)
    requires Inv(s) && AppliedStep(s, s', i, op, k)
    ensures Inv(s')
  {
    hide FirstsIncrease, Replay, At, IssuesOk, AnswersOk, DoneOk;
    var sv := s.servers[i];
    assert ServerOk(s, sv);
    assert Known(s, op) && Known(s, s.log[k]);
    assert InLog(s.log, IdOf(op));
    var value := if op.kind == GET then At(sv.status.data, op.key) else "";
    AnswerInv(s, s', Answer(IdOf(op), value, sv.applied));
  }

  lemma ProposeInv(s: System, s': System, i: int, op: Op)
    requires Inv(s) && ProposeStep(s, s', i, op)
    ensures Inv(s')
  {
    hide IssuesOk, LogOk, ServersOk, AnswersOk, DoneOk, IsNew;
    CallsKept(s, s');
    LogKept(s, s');
    ServersKept(s, s');
    AnswersKept(s, s');
  }

  // ----- every run -----

  lemma StepInv(s: System, s': System)
    requires Inv(s) && CanStep(s, s')
    ensures Inv(s')
  {
    hide Inv, CallStep, ProposeStep, CommitStep, ApplyStep, SaveStep, CrashStep, InstallStep, RepeatedStep, AppliedStep;
    hide ReturnStep;
    var step :| Next(s, s', step);
    match step
    case Call(c, kind, key, value) => CallInv(s, s', c, kind, key, value);
    case Propose(i, op) => ProposeInv(s, s', i, op);
    case Commit(op) => CommitInv(s, s', op);
    case ApplyEntry(i) => ApplyInv(s, s', i);
    case Save(i) => SaveInv(s, s', i);
    case Crash(i) => CrashInv(s, s', i);
    case Install(i, sn) => InstallInv(s, s', i, sn);
    case AnswerRepeated(i, op) => RepeatedInv(s, s', i, op);
    case AnswerApplied(i, op, k) => AppliedInv(s, s', i, op, k);
    case Return(c, a) => ReturnInv(s, s', c, a);
  }

  lemma {:induction false} RunInv(run: seq<System>, t: nat)
    requires IsRun(run) && t < |run|
    ensures Inv(run[t])
    decreases t
  {
    hide Inv, CanStep;
    if t == 0 {
      InitInv(run[0]);
    } else {
      RunInv(run, t - 1);
      assert CanStep(run[t - 1], run[t - 1 + 1]);
      StepInv(run[t - 1], run[t]);
    }
  }
}
