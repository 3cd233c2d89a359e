/** Every run of the replicated key/value service is linearizable. */
module KvLinearizable {
  import opened Options
  import opened Linearizability
  import opened Permutations
  import opened KvModel
  import opened KvMeaning
  import opened KvService
  import opened KvProtocol
  import opened KvSafety

  // ----- the history of a state -----

  /** A call that has ended, or an open Put or Append that is in the log and may have been seen. */
  ghost predicate Effective(s: System, id: Id) {
    && id in s.issued
    && (id in s.done || (InLog(s.log, id) && s.issued[id].op.kind != GET))
  }

  function Code(kind: OpType): int {
    match kind case GET => 0 case PUT => 1 case APPEND => 2
  }

  /** The call as an operation of the checker. An open call is taken to return now. */
  ghost function OperationOf(s: System, id: Id): KvOp
    requires id in s.issued
  {
    var e := s.issued[id];
    Operation(id.clientId, KvInput(Code(e.op.kind), e.op.key, e.op.value), e.call,
              KvOutput(if id in s.done then s.done[id].value else ""), if id in s.done then s.done[id].ret else s.now)
  }

  /** A Get is a read of the history, a Put a put, an Append an append, of the call's key and value;
      a call that has ended has its result and its time. */
  lemma CallsAreOperations(s: System, id: Id)
    requires id in s.issued
    ensures var e, op := s.issued[id], OperationOf(s, id);
            && (e.op.kind == GET <==> Reads(op))
            && (e.op.kind == PUT <==> IsPut(op, e.op.key))
            && (e.op.kind == APPEND <==> IsAppend(op, e.op.key))
            && op.clientId == id.clientId && op.input.key == e.op.key && op.input.value == e.op.value
            && op.call == e.call && (id in s.done ==> op.output.value == s.done[id].value && op.ret == s.done[id].ret)
  {
  }

  ghost function History(s: System): set<KvOp> {
    set id | id in s.issued && Effective(s, id) :: OperationOf(s, id)
  }

  /** `ops` holds each operation of the history once. */
  ghost predicate Lists(ops: seq<KvOp>, history: set<KvOp>) {
    Distinct(ops) && forall x :: x in ops <==> x in history
  }

  // ----- where each call takes effect -----

  /** The first entry of a request. */
  ghost function FirstAt(log: seq<Op>, id: Id): (k: int)
    requires InLog(log, id)
    ensures 0 <= k < |log| && IdOf(log[k]) == id && IsFirst(log, k)
    decreases |log|
  {
    var n := |log| - 1;
    assert log == log[..n] + [log[n]];
    InLogMore(log[..n], log[n], id);
    if InLog(log[..n], id) then
      var k := FirstAt(log[..n], id);
      assert IsFirst(log[..n], k);
      k
    else
      assert forall j :: 0 <= j < n ==> log[..n][j] == log[j];
      n
  }

  /** Even numbers are between entries, where Gets read; odd ones are the entries. */
  ghost function Point(s: System, id: Id): int
    requires Inv(s) && Effective(s, id)
  {
    if s.issued[id].op.kind == GET then 2 * s.done[id].point
    else
      EffectiveInLog(s, id);
      2 * FirstAt(s.log, id) + 1
  }

  lemma EffectiveInLog(s: System, id: Id)
    requires Inv(s) && Effective(s, id)
    ensures InLog(s.log, id)
  {
    if id in s.done {
      assert CompletionOk(s, id);
    }
  }

  /** A call takes effect after it was issued. */
  lemma AfterIssue(s: System, id: Id)
    requires Inv(s) && Effective(s, id)
    ensures Point(s, id) > 2 * s.issued[id].base && Point(s, id) <= 2 * |s.log|
  {
    hide InLog, FirstsIncrease, Replay, IssuesOk, AnswersOk, ServersOk;
    EffectiveInLog(s, id);
    if s.issued[id].op.kind == GET {
      assert CompletionOk(s, id);
    } else {
      var k := FirstAt(s.log, id);
      assert Known(s, s.log[k]);
    }
  }

  /** A call takes effect before it returns. */
  lemma BeforeReturn(s: System, id: Id)
    requires Inv(s) && Effective(s, id) && id in s.done
    ensures Point(s, id) <= 2 * s.done[id].at
  {
    hide FirstsIncrease, Replay, IssuesOk, AnswersOk, ServersOk;
    EffectiveInLog(s, id);
    assert CompletionOk(s, id);
    if s.issued[id].op.kind != GET {
      var at, k := s.done[id].at, FirstAt(s.log, id);
      var j :| 0 <= j < at && IdOf(s.log[..at][j]) == id;
      assert IdOf(s.log[j]) == id;
      assert IsFirst(s.log, k);
    }
  }

  /** Points follow real time. */
  lemma PointsFollowTime(s: System, a: Id, b: Id)
    requires Inv(s) && Effective(s, a) && Effective(s, b)
    requires OperationOf(s, a).ret < OperationOf(s, b).call
    ensures Point(s, a) < Point(s, b)
  {
    hide Point, FirstsIncrease, InLog, ServersOk, AnswersOk, LogOk;
    assert IssueOk(s, b);
    BeforeReturn(s, a);
    AfterIssue(s, b);
  }

  // ----- the order -----

  /** The Gets that read after `n` entries. */
  ghost function GetsAt(s: System, n: int): set<Id> {
    set id | id in s.done && id in s.issued && s.issued[id].op.kind == GET && s.done[id].point == n
  }

  /** The elements of a set in some order. */
  ghost function Listing(x: set<Id>): (q: seq<Id>)
    ensures Distinct(q) && forall e :: e in q <==> e in x
    decreases x
  {
    if x == {} then []
    else
      var e :| e in x;
      [e] + Listing(x - {e})
  }

  ghost function WriteAt(s: System, k: int): seq<Id>
    requires 0 <= k < |s.log|
  {
    if IsFirst(s.log, k) && s.log[k].kind != GET then [IdOf(s.log[k])] else []
  }

  /** What takes effect up to `n` entries: each entry's write, then the Gets that read after it. */
  ghost function Order(s: System, n: nat): seq<Id>
    requires n <= |s.log|
  {
    (if n == 0 then [] else Order(s, n - 1) + WriteAt(s, n - 1)) + Listing(GetsAt(s, n))
  }

  lemma FirstUnique(log: seq<Op>, id: Id, k: int)
    requires InLog(log, id) && 0 <= k < |log| && IdOf(log[k]) == id && IsFirst(log, k)
    ensures FirstAt(log, id) == k
  {
    var k' := FirstAt(log, id);
    assert IsFirst(log, k') && IdOf(log[k']) == id;
  }

  /** The write of entry `k` is the call whose point is `2k + 1`. */
  lemma WriteIs(s: System, k: int, id: Id)
    requires Inv(s) && 0 <= k < |s.log|
    ensures id in WriteAt(s, k) <==> Effective(s, id) && Point(s, id) == 2 * k + 1
  {
    hide FirstsIncrease, Replay, IssuesOk, AnswersOk, ServersOk, DoneOk;
    assert Known(s, s.log[k]);
    if id in WriteAt(s, k) {
      assert InLog(s.log, id);
      assert Effective(s, id);
      FirstUnique(s.log, id, k);
    }
    if Effective(s, id) && Point(s, id) == 2 * k + 1 {
      EffectiveInLog(s, id);
      assert k == FirstAt(s.log, id);
    }
  }

  lemma GetIs(s: System, n: int, id: Id)
    requires Inv(s)
    ensures id in GetsAt(s, n) <==> Effective(s, id) && Point(s, id) == 2 * n
  {
    hide InLog, FirstAt, IssuesOk, LogOk, AnswersOk, ServersOk, DoneOk;
  }

  /** Sorted by point, and complete up to `2n`. */
  ghost predicate OrderOk(s: System, q: seq<Id>, bound: int)
    requires Inv(s)
  {
    && Distinct(q)
    && (forall id :: id in q <==> Effective(s, id) && Point(s, id) <= bound)
    && (forall i, j :: 0 <= i < j < |q| && Effective(s, q[i]) && Effective(s, q[j]) ==>
          Point(s, q[i]) <= Point(s, q[j]))
  }

  /** Appending the calls of the next point. */
  lemma OrderMore(s: System, q: seq<Id>, r: seq<Id>, bound: int)
    requires Inv(s) && OrderOk(s, q, bound) && Distinct(r)
    requires forall id :: id in r <==> Effective(s, id) && Point(s, id) == bound + 1
    ensures OrderOk(s, q + r, bound + 1)
  {
    hide Inv, Point, Effective;
    var q' := q + r;
    forall i | 0 <= i < |q'|
      ensures Effective(s, q'[i])
      ensures if i < |q| then q'[i] == q[i] && Point(s, q'[i]) <= bound
              else q'[i] == r[i - |q|] && Point(s, q'[i]) == bound + 1
    {
      assert if i < |q| then q[i] in q else r[i - |q|] in r;
    }
  }

  lemma {:induction false} OrderSorted(s: System, n: nat)
    requires Inv(s) && n <= |s.log|
    ensures OrderOk(s, Order(s, n), 2 * n)
    decreases n
  {
    hide Inv, Point, Effective, GetsAt, WriteAt, OrderOk;
    forall id ensures id in GetsAt(s, n) <==> Effective(s, id) && Point(s, id) == 2 * n {
      GetIs(s, n, id);
    }
    if n == 0 {
      NothingBefore(s);
      OrderMore(s, [], Listing(GetsAt(s, 0)), -1);
      assert [] + Listing(GetsAt(s, 0)) == Order(s, 0);
    } else {
      OrderSorted(s, n - 1);
      forall id ensures id in WriteAt(s, n - 1) <==> Effective(s, id) && Point(s, id) == 2 * (n - 1) + 1 {
        WriteIs(s, n - 1, id);
      }
      WriteDistinct(s, n - 1);
      OrderMore(s, Order(s, n - 1), WriteAt(s, n - 1), 2 * (n - 1));
      OrderMore(s, Order(s, n - 1) + WriteAt(s, n - 1), Listing(GetsAt(s, n)), 2 * n - 1);
    }
  }

  lemma WriteDistinct(s: System, k: int)
    requires 0 <= k < |s.log|
    ensures Distinct(WriteAt(s, k))
  {
  }

  lemma NothingBefore(s: System)
    requires Inv(s)
    ensures OrderOk(s, [], -1)
  {
    forall id | Effective(s, id) ensures Point(s, id) > -1 {
      AfterIssue(s, id);
    }
  }

  // ----- the order runs -----

  ghost predicate AllIssued(s: System, q: seq<Id>) {
    forall i :: 0 <= i < |q| ==> q[i] in s.issued
  }

  ghost function Ops(s: System, q: seq<Id>): (r: seq<KvOp>)
    requires AllIssued(s, q)
    ensures |r| == |q| && forall i :: 0 <= i < |q| ==> r[i] == OperationOf(s, q[i])
  {
    seq(|q|, i requires 0 <= i < |q| => OperationOf(s, q[i]))
  }

  lemma OpsConcat(s: System, a: seq<Id>, b: seq<Id>)
    requires AllIssued(s, a) && AllIssued(s, b)
    ensures AllIssued(s, a + b) && Ops(s, a + b) == Ops(s, a) + Ops(s, b)
  {
    hide OperationOf;
  }

  /** A completed Get is right about the data its value was read from, and changes nothing. */
  lemma GetRuns(s: System, order: seq<KvOp>, id: Id, n: int)
    requires Inv(s) && 0 <= n <= |s.log| && id in GetsAt(s, n)
    requires Agrees(Run(Whole(), map[], order), Replay(s.log[..n]).data)
    ensures Agrees(Run(Whole(), map[], order + [OperationOf(s, id)]), Replay(s.log[..n]).data)
  {
    hide InLog, IssuesOk, LogOk, AnswersOk, ServersOk, Replay, Run;
    assert CompletionOk(s, id);
    RunMore(Whole(), map[], order, OperationOf(s, id));
  }

  lemma {:induction false} GetsRun(s: System, order: seq<KvOp>, q: seq<Id>, n: int)
    requires Inv(s) && 0 <= n <= |s.log| && (forall i :: 0 <= i < |q| ==> q[i] in GetsAt(s, n)) && AllIssued(s, q)
    requires Agrees(Run(Whole(), map[], order), Replay(s.log[..n]).data)
    ensures Agrees(Run(Whole(), map[], order + Ops(s, q)), Replay(s.log[..n]).data)
    decreases |q|
  {
    hide Inv, Agrees, GetsAt, Replay, Run;
    if q == [] {
      assert order + Ops(s, q) == order;
    } else {
      GetRuns(s, order, q[0], n);
      GetsRun(s, order + [OperationOf(s, q[0])], q[1..], n);
      assert order + [OperationOf(s, q[0])] + Ops(s, q[1..]) == order + Ops(s, q);
    }
  }

  lemma ExecuteAgrees(st: Store, data: map<string, string>, op: Op, call: KvOp)
    requires Agrees(Some(st), data) && op.kind != GET && call.output.KvOutput?
    requires call.input == KvInput(Code(op.kind), op.key, op.value)
    ensures WholeStep(st, call.input, call.output).0
    ensures Agrees(Some(WholeStep(st, call.input, call.output).1), Execute(data, op))
  {
    assert At(st, op.key) == At(data, op.key);
    assert "" + op.value == op.value;
    var st', data' := WholeStep(st, call.input, call.output).1, Execute(data, op);
    forall key ensures At(st', key) == At(data', key) {
      assert At(st, key) == At(data, key);
      match op.kind
      case PUT =>
      case APPEND =>
    }
  }

  /** The first entry of a write executes it, and nothing else changes the data. */
  lemma WriteRuns(s: System, order: seq<KvOp>, k: int)
    requires Inv(s) && 0 <= k < |s.log| && AllIssued(s, WriteAt(s, k))
    requires Agrees(Run(Whole(), map[], order), Replay(s.log[..k]).data)
    ensures Agrees(Run(Whole(), map[], order + Ops(s, WriteAt(s, k))), Replay(s.log[..k + 1]).data)
  {
    hide InLog, IssuesOk, AnswersOk, ServersOk, DoneOk, Run, FirstsIncrease, Agrees, IsFirst, WholeStep;
    var op := s.log[k];
    assert Known(s, op);
    assert s.log[..k + 1] == s.log[..k] + [op];
    ReplayMore(EMPTY, s.log[..k], op);
    ExecutedFirst(s.log, k);
    if IsFirst(s.log, k) && op.kind != GET {
      var id := IdOf(op);
      assert Ops(s, WriteAt(s, k)) == [OperationOf(s, id)];
      RunAgrees(order, Replay(s.log[..k]).data);
      ExecuteAgrees(Run(Whole(), map[], order).value, Replay(s.log[..k]).data, op, OperationOf(s, id));
      RunMore(Whole(), map[], order, OperationOf(s, id));
    } else {
      assert order + Ops(s, WriteAt(s, k)) == order;
    }
  }

  lemma RunAgrees(order: seq<KvOp>, data: map<string, string>)
    requires Agrees(Run(Whole(), map[], order), data)
    ensures Run(Whole(), map[], order).Some?
  {
  }

  lemma OrderIssued(s: System, n: nat)
    requires Inv(s) && n <= |s.log|
    ensures AllIssued(s, Order(s, n))
    ensures n > 0 ==> AllIssued(s, Order(s, n - 1)) && AllIssued(s, WriteAt(s, n - 1))
    ensures AllIssued(s, Listing(GetsAt(s, n)))
  {
    hide Inv, Point, GetsAt, WriteAt, Order, Effective;
    OrderSorted(s, n);
    EffectiveIssued(s, Order(s, n));
    forall id ensures id in GetsAt(s, n) ==> Effective(s, id) {
      GetIs(s, n, id);
    }
    EffectiveIssued(s, Listing(GetsAt(s, n)));
    if n > 0 {
      OrderSorted(s, n - 1);
      EffectiveIssued(s, Order(s, n - 1));
      forall id ensures id in WriteAt(s, n - 1) ==> Effective(s, id) {
        WriteIs(s, n - 1, id);
      }
      EffectiveIssued(s, WriteAt(s, n - 1));
    }
  }

  lemma EffectiveIssued(s: System, q: seq<Id>)
    requires forall id :: id in q ==> Effective(s, id)
    ensures AllIssued(s, q)
  {
    forall i | 0 <= i < |q| ensures q[i] in s.issued {
      assert q[i] in q;
    }
  }

  /** The order is accepted by the whole map, which ends with the data of the log. */
  lemma {:induction false} OrderRuns(s: System, n: nat)
    requires Inv(s) && n <= |s.log|
    ensures AllIssued(s, Order(s, n)) && Agrees(Run(Whole(), map[], Ops(s, Order(s, n))), Replay(s.log[..n]).data)
    decreases n
  {
    hide Inv, Agrees, GetsAt, WriteAt, Replay, Run, OperationOf, Whole, Ops, AllIssued;
    OrderIssued(s, n);
    var gets := Listing(GetsAt(s, n));
    if n == 0 {
      NothingRuns(s);
      GetsRun(s, [], gets, 0);
      assert [] + Ops(s, gets) == Ops(s, gets) && [] + gets == gets;
    } else {
      OrderRuns(s, n - 1);
      var before, write := Order(s, n - 1), WriteAt(s, n - 1);
      WriteRuns(s, Ops(s, before), n - 1);
      GetsRun(s, Ops(s, before) + Ops(s, write), gets, n);
      OpsConcat(s, before, write);
      OpsConcat(s, before + write, gets);
    }
  }

  lemma NothingRuns(s: System)
    ensures Agrees(Run(Whole(), map[], []), Replay(s.log[..0]).data)
  {
    assert s.log[..0] == [];
  }

  // ----- the theorem -----

  lemma OrderRespects(s: System)
    requires Inv(s) && AllIssued(s, Order(s, |s.log|))
    ensures RespectsTime(Ops(s, Order(s, |s.log|)))
  {
    hide Inv, Point, Effective, Order, OperationOf;
    OrderSorted(s, |s.log|);
    var q := Order(s, |s.log|);
    var order := Ops(s, q);
    forall i, j | 0 <= i < j < |order| ensures !(order[j].ret < order[i].call) {
      assert q[i] in q && q[j] in q;
      if order[j].ret < order[i].call {
        PointsFollowTime(s, q[j], q[i]);
      }
    }
  }

  /** Different calls are different operations: no two are issued at one time. */
  lemma CallsDiffer(s: System, a: Id, b: Id)
    requires Inv(s) && a in s.issued && b in s.issued && OperationOf(s, a) == OperationOf(s, b)
    ensures a == b
  {
  }

  lemma OrderLists(s: System)
    requires Inv(s) && AllIssued(s, Order(s, |s.log|))
    ensures Lists(Ops(s, Order(s, |s.log|)), History(s))
  {
    hide Inv, Point, Effective, Order, OperationOf;
    OrderSorted(s, |s.log|);
    var q := Order(s, |s.log|);
    var order := Ops(s, q);
    forall i, j | 0 <= i < j < |order| ensures order[i] != order[j] {
      if order[i] == order[j] {
        CallsDiffer(s, q[i], q[j]);
      }
    }
    forall x ensures x in order <==> x in History(s) {
      if x in order {
        var i :| 0 <= i < |order| && order[i] == x;
        assert q[i] in q;
      }
      if x in History(s) {
        var id :| id in s.issued && Effective(s, id) && x == OperationOf(s, id);
        AfterIssue(s, id);
        assert id in q;
        var i :| 0 <= i < |q| && q[i] == id;
        assert order[i] == x;
      }
    }
  }

  /** Every completed call, together with the open Puts and Appends that are in the log, fits one
      order that respects real time and explains every Get. */
  lemma StateLinearizable(s: System, ops: seq<KvOp>)
    requires Inv(s) && Lists(ops, History(s))
    ensures Linearizable(Whole(), ops)
  {
    hide Inv, Order, History, OperationOf, Run, RespectsTime;
    OrderRuns(s, |s.log|);
    OrderRespects(s);
    OrderLists(s);
    var order := Ops(s, Order(s, |s.log|));
    SameListing(order, ops);
    assert IsLinearization(Whole(), ops, order);
  }

  /** The history is one the checker takes. */
  lemma HistoryTimed(s: System, ops: seq<KvOp>)
    requires Inv(s) && Lists(ops, History(s))
    ensures Typed(ops) && Timed(ops)
  {
    hide LogOk, ServersOk, AnswersOk, InLog;
    forall i | 0 <= i < |ops| ensures ops[i].input.KvInput? && ops[i].output.KvOutput? && ops[i].call <= ops[i].ret {
      assert ops[i] in ops;
      var id :| id in s.issued && Effective(s, id) && ops[i] == OperationOf(s, id);
      assert IssueOk(s, id);
      if id in s.done {
        assert CompletionOk(s, id);
      }
    }
  }

  /** Every state of every run is linearizable, and the checker takes its history. */
  lemma ServiceLinearizable(run: seq<System>, t: nat, ops: seq<KvOp>)
    requires IsRun(run) && t < |run| && Lists(ops, History(run[t]))
    ensures Linearizable(Whole(), ops) && Consistent(ops) && Typed(ops) && Timed(ops)
  {
    hide Inv, History, Linearizable, Typed, Timed, Lists, Consistent;
    RunInv(run, t);
    StateLinearizable(run[t], ops);
    HistoryTimed(run[t], ops);
    LinearizableIff(ops);
  }
}
