/** What a key/value server does with the committed log: execute each request once. */
module KvService {
  datatype OpType = GET | PUT | APPEND

  datatype Op = Op(kind: OpType, key: string, value: string, clientId: int, sequenceId: int)

  /** One request of one client. */
  datatype Id = Id(clientId: int, sequenceId: int)

  function IdOf(op: Op): Id {
    Id(op.clientId, op.sequenceId)
  }

  /** What a snapshot holds: the data and, per client, the last request executed. */
  datatype Status = Status(data: map<string, string>, duptable: map<int, int>)

  const EMPTY := Status(map[], map[])

  /** The effect of a request on the data. */
  function Execute(data: map<string, string>, op: Op): map<string, string> {
    match op.kind
    case PUT => data[op.key := op.value]
    case APPEND => if op.key in data then data[op.key := data[op.key] + op.value] else data[op.key := op.value]
    case GET => data
  }

  /** The request is no repetition: the table has nothing as recent from its client. */
  predicate IsNew(duptable: map<int, int>, op: Op) {
    op.clientId !in duptable || duptable[op.clientId] < op.sequenceId
  }

  function Apply(st: Status, op: Op): Status {
    if IsNew(st.duptable, op) then Status(Execute(st.data, op), st.duptable[op.clientId := op.sequenceId]) else st
  }

  function ReplayFrom(st: Status, log: seq<Op>): Status
    decreases |log|
  {
    if log == [] then st else Apply(ReplayFrom(st, log[..|log| - 1]), log[|log| - 1])
  }

  function Replay(log: seq<Op>): Status {
    ReplayFrom(EMPTY, log)
  }

  lemma ReplayMore(st: Status, log: seq<Op>, op: Op)
    ensures ReplayFrom(st, log + [op]) == Apply(ReplayFrom(st, log), op)
  {
    assert (log + [op])[..|log|] == log;
  }

  /** Restoring a snapshot and applying the rest is applying the whole log, duptable included. */
  lemma {:induction false} RestoreThenRest(a: seq<Op>, b: seq<Op>)
    ensures ReplayFrom(Replay(a), b) == Replay(a + b)
    decreases |b|
  {
    if b == [] {
      assert a + b == a;
    } else {
      var b' := b[..|b| - 1];
      RestoreThenRest(a, b');
      assert a + b == (a + b') + [b[|b| - 1]];
      ReplayMore(EMPTY, a + b', b[|b| - 1]);
    }
  }

  // ----- exactly once -----

  ghost predicate InLog(log: seq<Op>, id: Id) {
    exists k :: 0 <= k < |log| && IdOf(log[k]) == id
  }

  /** Entry `k` is the first of its request. */
  ghost predicate IsFirst(log: seq<Op>, k: int)
    requires 0 <= k < |log|
  {
    forall j :: 0 <= j < k ==> IdOf(log[j]) != IdOf(log[k])
  }

  /** The requests of each client first appear in the order of their numbers. */
  ghost predicate FirstsIncrease(log: seq<Op>) {
    forall j, k :: 0 <= j < k < |log| && IsFirst(log, k) && log[j].clientId == log[k].clientId ==>
      log[j].sequenceId < log[k].sequenceId
  }

  /** The data after executing only the first entry of each request. */
  ghost function FirstsOnly(log: seq<Op>): map<string, string>
    decreases |log|
  {
    if log == [] then map[]
    else
      var n := |log| - 1;
      if IsFirst(log, n) then Execute(FirstsOnly(log[..n]), log[n]) else FirstsOnly(log[..n])
  }

  /** The table holds the greatest number of each client. */
  ghost predicate DupOk(log: seq<Op>, duptable: map<int, int>) {
    && (forall k :: 0 <= k < |log| ==> log[k].clientId in duptable && log[k].sequenceId <= duptable[log[k].clientId])
    && (forall c :: c in duptable ==> InLog(log, Id(c, duptable[c])))
  }

  lemma FirstsPrefix(log: seq<Op>, n: int)
    requires FirstsIncrease(log) && 0 <= n <= |log|
    ensures FirstsIncrease(log[..n])
  {
    var p := log[..n];
    forall j, k | 0 <= j < k < |p| && IsFirst(p, k) && p[j].clientId == p[k].clientId
      ensures p[j].sequenceId < p[k].sequenceId
    {
      assert IsFirst(log, k);
    }
  }

  lemma InLogMore(log: seq<Op>, op: Op, id: Id)
    ensures InLog(log + [op], id) <==> InLog(log, id) || id == IdOf(op)
  {
    if InLog(log, id) {
      var k :| 0 <= k < |log| && IdOf(log[k]) == id;
      assert IdOf((log + [op])[k]) == id;
    }
    assert (log + [op])[|log|] == op;
  }

  /** The table tells first entries from repetitions. */
  lemma NewIsFirst(log: seq<Op>, duptable: map<int, int>)
    requires log != [] && FirstsIncrease(log) && DupOk(log[..|log| - 1], duptable)
    ensures IsNew(duptable, log[|log| - 1]) <==> IsFirst(log, |log| - 1)
  {
    var n := |log| - 1;
    var op, p := log[n], log[..n];
    if IsFirst(log, n) && op.clientId in duptable {
      var k :| 0 <= k < |p| && IdOf(p[k]) == Id(op.clientId, duptable[op.clientId]);
      assert log[k] == p[k];
    }
    if !IsFirst(log, n) {
      var j :| 0 <= j < n && IdOf(log[j]) == IdOf(op);
      assert p[j] == log[j];
    }
  }

  lemma DupMore(log: seq<Op>, duptable: map<int, int>, op: Op)
    requires DupOk(log, duptable)
    ensures DupOk(log + [op], if IsNew(duptable, op) then duptable[op.clientId := op.sequenceId] else duptable)
  {
    var duptable' := if IsNew(duptable, op) then duptable[op.clientId := op.sequenceId] else duptable;
    forall c | c in duptable' ensures InLog(log + [op], Id(c, duptable'[c])) {
      InLogMore(log, op, Id(c, duptable'[c]));
    }
  }

  /** Whatever the log, the table holds each client's greatest number. */
  lemma {:induction false} ReplayDup(log: seq<Op>)
    ensures DupOk(log, Replay(log).duptable)
    decreases |log|
  {
    hide DupOk;
    if log == [] {
      NothingDup();
    } else {
      var n := |log| - 1;
      ReplayDup(log[..n]);
      DupMore(log[..n], Replay(log[..n]).duptable, log[n]);
      assert log[..n] + [log[n]] == log;
    }
  }

  lemma NothingDup()
    ensures DupOk([], map[])
  {
  }

  /** Entry `k` is executed when the log is replayed. */
  ghost predicate Executed(log: seq<Op>, k: int)
    requires 0 <= k < |log|
  {
    IsNew(Replay(log[..k]).duptable, log[k])
  }

  lemma ExecutedFirst(log: seq<Op>, k: int)
    requires FirstsIncrease(log) && 0 <= k < |log|
    ensures Executed(log, k) <==> IsFirst(log, k)
  {
    hide Replay, IsNew;
    var p := log[..k + 1];
    assert p[..k] == log[..k] && p[k] == log[k];
    FirstsPrefix(log, k + 1);
    ReplayDup(log[..k]);
    NewIsFirst(p, Replay(log[..k]).duptable);
  }

  /** Every request is executed exactly once, at its first entry, if and only if the requests of
      each client first appear in the order of their numbers. */
  lemma ExecutedOnceIff(log: seq<Op>)
    ensures (forall k :: 0 <= k < |log| ==> (Executed(log, k) <==> IsFirst(log, k))) <==> FirstsIncrease(log)
  {
    if FirstsIncrease(log) {
      forall k | 0 <= k < |log| ensures Executed(log, k) <==> IsFirst(log, k) {
        ExecutedFirst(log, k);
      }
    }
    if forall k :: 0 <= k < |log| ==> (Executed(log, k) <==> IsFirst(log, k)) {
      forall j, k | 0 <= j < k < |log| && IsFirst(log, k) && log[j].clientId == log[k].clientId
        ensures log[j].sequenceId < log[k].sequenceId
      {
        ReplayDup(log[..k]);
        assert log[..k][j] == log[j];
        assert Executed(log, k);
      }
    }
  }

  /** Then the data is as if only the first entry of each request were there. */
  lemma {:induction false} ExactlyOnce(log: seq<Op>)
    requires FirstsIncrease(log)
    ensures Replay(log).data == FirstsOnly(log)
    decreases |log|
  {
    hide FirstsIncrease, Execute, IsNew, IsFirst;
    if log != [] {
      var n := |log| - 1;
      FirstsPrefix(log, n);
      ExactlyOnce(log[..n]);
      ExecutedFirst(log, n);
    }
  }

  /** An order that breaks it: request 0 first appears after request 1 of the same client, and is
      never executed. */
  lemma LateFirstLost()
    ensures var log := [Op(PUT, "x", "1", 7, 1), Op(PUT, "y", "0", 7, 0)];
            IsFirst(log, 1) && !Executed(log, 1)
  {
    var log := [Op(PUT, "x", "1", 7, 1), Op(PUT, "y", "0", 7, 0)];
    assert log[..1] == [] + [log[0]];
    ReplayMore(EMPTY, [], log[0]);
    assert ReplayFrom(EMPTY, []) == EMPTY;
    assert Replay(log[..1]) == Apply(EMPTY, log[0]);
  }
}
