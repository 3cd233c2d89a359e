/** What the checker is meant to decide: sequential models, operations with their call and
    return times, and linearizability of a history of them. */
module Linearizability {
  import opened Options

  /** A sequential object: its initial state, its transition on (state, input, output), which
      says whether that output is possible, and an equality on states. */
  datatype Model<!S(!new), !V> = Model(init: S, step: (S, V, V) -> (bool, S), equal: (S, S) -> bool)

  datatype Operation<+V> = Operation(clientId: int, input: V, call: int, output: V, ret: int)

  /** The state after performing `ops` in order, if every step is possible. */
  ghost function Run<S(!new), V>(m: Model<S, V>, st: S, ops: seq<Operation<V>>): Option<S>
    decreases |ops|
  {
    if ops == [] then Some(st)
    else
      var (ok, st') := m.step(st, ops[0].input, ops[0].output);
      if ok then Run(m, st', ops[1..]) else None
  }

  /** No operation is placed before one that returned before it was called. */
  ghost predicate RespectsTime<V>(order: seq<Operation<V>>) {
    forall i, j :: 0 <= i < j < |order| ==> !(order[j].ret < order[i].call)
  }

  ghost predicate IsLinearization<S(!new), V(!new)>(m: Model<S, V>, ops: seq<Operation<V>>, order: seq<Operation<V>>) {
    && multiset(order) == multiset(ops)
    && RespectsTime(order)
    && Run(m, m.init, order).Some?
  }

  ghost predicate Linearizable<S(!new), V(!new)>(m: Model<S, V>, ops: seq<Operation<V>>) {
    exists order :: IsLinearization(m, ops, order)
  }

  /** Operations return no earlier than they are called. */
  ghost predicate Timed<V>(ops: seq<Operation<V>>) {
    forall i :: 0 <= i < |ops| ==> ops[i].call <= ops[i].ret
  }

  /** `equal` is an equivalence that the transition respects, as any equality of states is. */
  ghost predicate ProperEquality<S(!new), V(!new)>(m: Model<S, V>) {
    && (forall s :: m.equal(s, s))
    && (forall s, t :: m.equal(s, t) ==> m.equal(t, s))
    && (forall s, t, u :: m.equal(s, t) && m.equal(t, u) ==> m.equal(s, u))
    && (forall s, t, a, b :: m.equal(s, t) ==>
          m.step(s, a, b).0 == m.step(t, a, b).0 && m.equal(m.step(s, a, b).1, m.step(t, a, b).1))
  }

  /** The default equality is always proper. */
  lemma ShallowEqualIsProper<S(!new), V(!new)>(m: Model<S, V>)
    requires forall s, t :: m.equal(s, t) <==> s == t
    ensures ProperEquality(m)
  {
  }

  lemma {:induction false} RunConcat<S(!new), V>(m: Model<S, V>, st: S, a: seq<Operation<V>>, b: seq<Operation<V>>)
    ensures Run(m, st, a + b) ==
            match Run(m, st, a) case None => None case Some(st') => Run(m, st', b)
    decreases |a|
  {
    if a == [] {
      assert a + b == b;
    } else {
      assert (a + b)[1..] == a[1..] + b;
      var (ok, st') := m.step(st, a[0].input, a[0].output);
      if ok {
        RunConcat(m, st', a[1..], b);
      }
    }
  }

  /** One more operation at the end. */
  lemma RunMore<S(!new), V>(m: Model<S, V>, st: S, order: seq<Operation<V>>, op: Operation<V>)
    ensures Run(m, st, order + [op]) ==
            match Run(m, st, order)
            case None => None
            case Some(st') =>
              if m.step(st', op.input, op.output).0 then Some(m.step(st', op.input, op.output).1) else None
  {
    RunConcat(m, st, order, [op]);
    if Run(m, st, order).Some? {
      var st' := Run(m, st, order).value;
      assert [op][1..] == [];
      var (ok, last) := m.step(st', op.input, op.output);
      assert Run(m, st', [op]) == if ok then Some(last) else None;
    }
  }
}
