/** The sequential model of one key of the key/value service, its partition of a history by key,
    and why checking each key alone decides linearizability of the whole map. */
module KvModel {
  import opened Options
  import opened Linearizability
  import opened Strings

  /** Inputs and outputs. Op 0 is get, 1 put, 2 append, anything else append that returns the old value. */
  datatype KvValue = KvInput(op: int, key: string, value: string) | KvOutput(value: string)

  type KvOp = Operation<KvValue>

  /** Inputs are inputs and outputs are outputs, as the model's type assertions demand. */
  ghost predicate Typed(ops: seq<KvOp>) {
    forall i :: 0 <= i < |ops| ==> ops[i].input.KvInput? && ops[i].output.KvOutput?
  }

  // ----- one key -----

  function KvStep(st: string, input: KvValue, output: KvValue): (bool, string) {
    if !input.KvInput? || !output.KvOutput? then (false, st)
    else if input.op == 0 then (output.value == st, st)
    else if input.op == 1 then (true, input.value)
    else if input.op == 2 then (true, st + input.value)
    else (output.value == st, st + input.value)
  }

  function OneKey(): Model<string, KvValue> {
    Model("", KvStep, (a, b) => a == b)
  }

  // ----- the whole map -----

  type Store = map<string, string>

  /** A key never written holds the empty string. */
  function At(st: Store, key: string): string {
    if key in st then st[key] else ""
  }

  /** Two maps hold the same value under every key. */
  ghost predicate Agrees(st: Option<Store>, data: Store) {
    st.Some? && forall key :: At(st.value, key) == At(data, key)
  }

  function KeyOf(op: KvOp): string {
    if op.input.KvInput? then op.input.key else ""
  }

  function WholeStep(st: Store, input: KvValue, output: KvValue): (bool, Store) {
    if !input.KvInput? then (false, st)
    else
      var (ok, value) := KvStep(At(st, input.key), input, output);
      (ok, st[input.key := value])
  }

  function Whole(): Model<Store, KvValue> {
    Model(map[], WholeStep, (a, b) => a == b)
  }

  /** The operations on one key, in order. */
  function ForKey(ops: seq<KvOp>, key: string): (r: seq<KvOp>)
    decreases |ops|
  {
    if ops == [] then []
    else (if KeyOf(ops[0]) == key then [ops[0]] else []) + ForKey(ops[1..], key)
  }

  // ----- filtering -----

  lemma {:induction false} ForKeyCount(ops: seq<KvOp>, key: string, op: KvOp)
    ensures multiset(ForKey(ops, key))[op] == if KeyOf(op) == key then multiset(ops)[op] else 0
    decreases |ops|
  {
    if ops != [] {
      ForKeyCount(ops[1..], key, op);
      assert ops == [ops[0]] + ops[1..];
    }
  }

  lemma ForKeyIn(ops: seq<KvOp>, key: string, op: KvOp)
    ensures op in ForKey(ops, key) <==> op in ops && KeyOf(op) == key
  {
    ForKeyCount(ops, key, op);
    assert op in ForKey(ops, key) <==> multiset(ForKey(ops, key))[op] > 0;
    assert op in ops <==> multiset(ops)[op] > 0;
  }

  lemma ForKeyMultiset(a: seq<KvOp>, b: seq<KvOp>, key: string)
    requires multiset(a) == multiset(b)
    ensures multiset(ForKey(a, key)) == multiset(ForKey(b, key))
  {
    forall op ensures multiset(ForKey(a, key))[op] == multiset(ForKey(b, key))[op] {
      ForKeyCount(a, key, op);
      ForKeyCount(b, key, op);
    }
  }

  /** Orders that agree on every key hold the same operations. */
  lemma ForKeysMultiset(a: seq<KvOp>, b: seq<KvOp>)
    requires forall key :: multiset(ForKey(a, key)) == multiset(ForKey(b, key))
    ensures multiset(a) == multiset(b)
  {
    forall op ensures multiset(a)[op] == multiset(b)[op] {
      var key := KeyOf(op);
      ForKeyCount(a, key, op);
      ForKeyCount(b, key, op);
      assert multiset(ForKey(a, key)) == multiset(ForKey(b, key));
    }
  }

  lemma {:induction false} ForKeyConcat(a: seq<KvOp>, b: seq<KvOp>, key: string)
    ensures ForKey(a + b, key) == ForKey(a, key) + ForKey(b, key)
    decreases |a|
  {
    if a == [] {
      assert a + b == b;
    } else {
      assert (a + b)[1..] == a[1..] + b && (a + b)[0] == a[0];
      ForKeyConcat(a[1..], b, key);
      var first := if KeyOf(a[0]) == key then [a[0]] else [];
      assert ForKey(a + b, key) == first + ForKey(a[1..] + b, key);
      assert ForKey(a, key) == first + ForKey(a[1..], key);
      hide ForKey;
      assert first + (ForKey(a[1..], key) + ForKey(b, key)) == (first + ForKey(a[1..], key)) + ForKey(b, key);
    }
  }

  lemma {:induction false} ForKeyNone(ops: seq<KvOp>, key: string)
    requires forall i :: 0 <= i < |ops| ==> KeyOf(ops[i]) != key
    ensures ForKey(ops, key) == []
    decreases |ops|
  {
    if ops != [] {
      ForKeyNone(ops[1..], key);
    }
  }

  // ----- time order -----

  /** Nothing in `rest` returned before `op` was called. */
  ghost predicate MayPrecede(op: KvOp, rest: seq<KvOp>) {
    forall x :: x in rest ==> !(x.ret < op.call)
  }

  lemma RespectsFirst(order: seq<KvOp>)
    requires order != []
    ensures RespectsTime(order) <==> MayPrecede(order[0], order[1..]) && RespectsTime(order[1..])
  {
    var rest := order[1..];
    if RespectsTime(order) {
      forall x | x in rest ensures !(x.ret < order[0].call) {
        var j :| 0 <= j < |rest| && rest[j] == x;
        assert order[j + 1] == x;
      }
    }
    if MayPrecede(order[0], rest) && RespectsTime(rest) {
      forall i, j | 0 <= i < j < |order| ensures !(order[j].ret < order[i].call) {
        assert order[j] == rest[j - 1] && order[j] in rest;
        assert i > 0 ==> order[i] == rest[i - 1];
      }
    }
  }

  lemma {:induction false} ForKeyRespects(order: seq<KvOp>, key: string)
    requires RespectsTime(order)
    ensures RespectsTime(ForKey(order, key))
    decreases |order|
  {
    if order != [] {
      RespectsFirst(order);
      var rest := order[1..];
      ForKeyRespects(rest, key);
      if KeyOf(order[0]) == key {
        var r := ForKey(order, key);
        assert r[0] == order[0] && r[1..] == ForKey(rest, key);
        forall x | x in ForKey(rest, key) ensures !(x.ret < order[0].call) {
          ForKeyIn(rest, key, x);
        }
        RespectsFirst(r);
      }
    }
  }

  // ----- runs -----

  /** A run of the whole map is a run of every key. */
  lemma {:induction false} RunsPerKey(st: Store, order: seq<KvOp>)
    requires Typed(order)
    ensures Run(Whole(), st, order).Some? <==> forall key :: Run(OneKey(), At(st, key), ForKey(order, key)).Some?
    decreases |order|
  {
    if order == [] {
      assert forall key :: ForKey(order, key) == [];
    } else {
      var op, rest := order[0], order[1..];
      var (ok, st') := WholeStep(st, op.input, op.output);
      forall key ensures
        Run(OneKey(), At(st, key), ForKey(order, key)) ==
        if key != KeyOf(op) then Run(OneKey(), At(st', key), ForKey(rest, key))
        else if ok then Run(OneKey(), At(st', key), ForKey(rest, key)) else None
      {
        RunFirst(st, order, key);
      }
      if ok {
        RunsPerKey(st', rest);
      }
      assert Run(Whole(), st, order) == if ok then Run(Whole(), st', rest) else None;
    }
  }

  lemma RunFirst(st: Store, order: seq<KvOp>, key: string)
    requires order != [] && Typed(order)
    ensures var op, rest := order[0], order[1..];
            var (ok, st') := WholeStep(st, op.input, op.output);
            Run(OneKey(), At(st, key), ForKey(order, key)) ==
            if key != KeyOf(op) then Run(OneKey(), At(st', key), ForKey(rest, key))
            else if ok then Run(OneKey(), At(st', key), ForKey(rest, key)) else None
  {
    var op, rest := order[0], order[1..];
    if KeyOf(op) == key {
      assert ForKey(order, key)[1..] == ForKey(rest, key);
    } else {
      assert ForKey(order, key) == ForKey(rest, key);
    }
  }

  // ----- merging orders of different keys -----

  /** Takes the first of `b` whenever something in `b` returned before the first of `a` was called. */
  ghost function Merge(a: seq<KvOp>, b: seq<KvOp>): (r: seq<KvOp>)
    decreases |a| + |b|
  {
    if a == [] then b
    else if b == [] then a
    else if MayPrecede(a[0], b) then [a[0]] + Merge(a[1..], b)
    else [b[0]] + Merge(a, b[1..])
  }

  lemma {:induction false} MergeIn(a: seq<KvOp>, b: seq<KvOp>, x: KvOp)
    ensures x in Merge(a, b) <==> x in a || x in b
    decreases |a| + |b|
  {
    hide MayPrecede;
    if a != [] && b != [] {
      if MayPrecede(a[0], b) {
        MergeIn(a[1..], b, x);
        assert a == [a[0]] + a[1..];
      } else {
        MergeIn(a, b[1..], x);
        assert b == [b[0]] + b[1..];
      }
    }
  }

  lemma MayPrecedeMerged(op: KvOp, a: seq<KvOp>, b: seq<KvOp>)
    requires MayPrecede(op, a) && MayPrecede(op, b)
    ensures MayPrecede(op, Merge(a, b))
  {
    forall x | x in Merge(a, b) ensures !(x.ret < op.call) {
      MergeIn(a, b, x);
    }
  }

  /** If the first of `a` must wait for `b`, the first of `b` need not wait for `a`. */
  lemma OneMayPrecede(a: seq<KvOp>, b: seq<KvOp>)
    requires a != [] && b != [] && Timed(a) && Timed(b) && RespectsTime(a) && RespectsTime(b)
    requires !MayPrecede(a[0], b)
    ensures MayPrecede(b[0], a)
  {
    RespectsFirst(b);
    var y :| y in b && y.ret < a[0].call;
    var k :| 0 <= k < |b| && b[k] == y;
    assert k > 0 ==> b[1..][k - 1] == y;
    assert !(y.ret < b[0].call);
    forall i | 0 <= i < |a| ensures !(a[i].ret < b[0].call) {
      assert i > 0 ==> !(a[i].ret < a[0].call);
    }
  }

  lemma {:induction false} MergeRespects(a: seq<KvOp>, b: seq<KvOp>)
    requires Timed(a) && Timed(b) && RespectsTime(a) && RespectsTime(b)
    ensures RespectsTime(Merge(a, b)) && Timed(Merge(a, b))
    decreases |a| + |b|
  {
    hide MayPrecede, RespectsTime;
    if a != [] && b != [] {
      RespectsFirst(a);
      RespectsFirst(b);
      var r := Merge(a, b);
      if MayPrecede(a[0], b) {
        MergeRespects(a[1..], b);
        MayPrecedeMerged(a[0], a[1..], b);
        assert r[1..] == Merge(a[1..], b);
      } else {
        OneMayPrecede(a, b);
        MergeRespects(a, b[1..]);
        MayPrecedeMerged(b[0], a, b[1..]);
        assert r[1..] == Merge(a, b[1..]);
      }
      RespectsFirst(r);
    }
  }

  ghost predicate OnKey(ops: seq<KvOp>, key: string) {
    forall i :: 0 <= i < |ops| ==> KeyOf(ops[i]) == key
  }

  ghost predicate OffKey(ops: seq<KvOp>, key: string) {
    forall i :: 0 <= i < |ops| ==> KeyOf(ops[i]) != key
  }

  /** Merging in the operations of one new key leaves the other keys as they were. */
  lemma {:induction false} MergeForKey(a: seq<KvOp>, b: seq<KvOp>, added: string, key: string)
    requires OnKey(a, added) && OffKey(b, added)
    ensures ForKey(Merge(a, b), key) == if key == added then a else ForKey(b, key)
    decreases |a| + |b|
  {
    hide MayPrecede;
    if a == [] {
      if key == added {
        ForKeyNone(b, key);
      }
    } else if b == [] {
      MergeOneForKey(a, added, key);
    } else if MayPrecede(a[0], b) {
      MergeForKey(a[1..], b, added, key);
      assert Merge(a, b)[1..] == Merge(a[1..], b);
      assert a == [a[0]] + a[1..];
    } else {
      MergeForKey(a, b[1..], added, key);
      assert Merge(a, b)[1..] == Merge(a, b[1..]);
    }
  }

  lemma {:induction false} MergeOneForKey(a: seq<KvOp>, added: string, key: string)
    requires OnKey(a, added)
    ensures ForKey(a, key) == if key == added then a else []
    decreases |a|
  {
    if a != [] {
      MergeOneForKey(a[1..], added, key);
      assert a == [a[0]] + a[1..];
    }
  }

  // ----- locality -----

  /** `order` linearizes the operations on the keys in `keys`, each key by itself. */
  ghost predicate LinearizesKeys(ops: seq<KvOp>, keys: set<string>, order: seq<KvOp>) {
    && RespectsTime(order) && Timed(order)
    && (forall key :: key in keys ==> IsLinearization(OneKey(), ForKey(ops, key), ForKey(order, key)))
    && (forall key :: key !in keys ==> ForKey(order, key) == [])
  }

  lemma SameElementsTimed(a: seq<KvOp>, b: seq<KvOp>)
    requires Timed(b) && multiset(a) == multiset(b)
    ensures Timed(a)
  {
    forall i | 0 <= i < |a| ensures a[i].call <= a[i].ret {
      assert a[i] in multiset(b);
    }
  }

  lemma ForKeyTimed(ops: seq<KvOp>, key: string)
    requires Timed(ops)
    ensures Timed(ForKey(ops, key)) && OnKey(ForKey(ops, key), key)
  {
    var r := ForKey(ops, key);
    forall i | 0 <= i < |r| ensures r[i].call <= r[i].ret && KeyOf(r[i]) == key {
      ForKeyIn(ops, key, r[i]);
    }
  }

  lemma LinearizationOnKey(ops: seq<KvOp>, key: string, order: seq<KvOp>)
    requires Timed(ops) && IsLinearization(OneKey(), ForKey(ops, key), order)
    ensures Timed(order) && OnKey(order, key)
  {
    ForKeyTimed(ops, key);
    SameElementsTimed(order, ForKey(ops, key));
    forall i | 0 <= i < |order| ensures KeyOf(order[i]) == key {
      assert order[i] in multiset(ForKey(ops, key));
    }
  }

  lemma EmptyIsOff(order: seq<KvOp>, key: string)
    requires ForKey(order, key) == []
    ensures OffKey(order, key)
  {
    forall i | 0 <= i < |order| ensures KeyOf(order[i]) != key {
      ForKeyIn(order, key, order[i]);
    }
  }

  /** Orders for single keys merge into one order for all. */
  lemma {:induction false} KeysMerge(ops: seq<KvOp>, keys: set<string>) returns (order: seq<KvOp>)
    requires Timed(ops) && forall key :: key in keys ==> Linearizable(OneKey(), ForKey(ops, key))
    ensures LinearizesKeys(ops, keys, order)
    decreases keys
  {
    hide IsLinearization, Timed, RespectsTime, ForKey, Merge, OnKey, OffKey, Run;
    if keys == {} {
      order := [];
      NothingRespects();
    } else {
      var added :| added in keys;
      var order' := KeysMerge(ops, keys - {added});
      var first :| IsLinearization(OneKey(), ForKey(ops, added), first);
      LinearizationOnKey(ops, added, first);
      LinearizationRespects(ForKey(ops, added), first);
      EmptyIsOff(order', added);
      order := Merge(first, order');
      MergeRespects(first, order');
      forall key ensures ForKey(order, key) == if key == added then first else ForKey(order', key) {
        MergeForKey(first, order', added, key);
      }
    }
  }

  lemma NothingRespects()
    ensures RespectsTime<KvValue>([]) && Timed<KvValue>([]) && forall key :: ForKey([], key) == []
  {
  }

  lemma LinearizationRespects(ops: seq<KvOp>, order: seq<KvOp>)
    requires IsLinearization(OneKey(), ops, order)
    ensures RespectsTime(order)
  {
  }

  lemma TypedSame(a: seq<KvOp>, b: seq<KvOp>)
    requires Typed(a) && multiset(a) == multiset(b)
    ensures Typed(b)
  {
    forall i | 0 <= i < |b| ensures b[i].input.KvInput? && b[i].output.KvOutput? {
      assert b[i] in multiset(a);
    }
  }

  ghost function Keys(ops: seq<KvOp>): set<string> {
    set i | 0 <= i < |ops| :: KeyOf(ops[i])
  }

  /** From the whole map to one key. */
  lemma WholeToKey(ops: seq<KvOp>, order: seq<KvOp>, key: string)
    requires Typed(ops) && IsLinearization(Whole(), ops, order)
    ensures IsLinearization(OneKey(), ForKey(ops, key), ForKey(order, key))
  {
    TypedSame(ops, order);
    ForKeyMultiset(order, ops, key);
    ForKeyRespects(order, key);
    RunsPerKey(map[], order);
    assert At(map[], key) == "";
  }

  /** From the keys to the whole map. */
  lemma KeysToWhole(ops: seq<KvOp>, order: seq<KvOp>)
    requires Typed(ops) && LinearizesKeys(ops, Keys(ops), order)
    ensures IsLinearization(Whole(), ops, order)
  {
    hide RespectsTime;
    forall key ensures multiset(ForKey(order, key)) == multiset(ForKey(ops, key))
                       && Run(OneKey(), At(map[], key), ForKey(order, key)).Some?
    {
      if key !in Keys(ops) {
        ForKeyNone(ops, key);
      }
    }
    ForKeysMultiset(order, ops);
    TypedSame(ops, order);
    RunsPerKey(map[], order);
  }

  /** A history is linearizable against the whole map exactly if the history of each of its keys
      is linearizable against a single string. */
  lemma Locality(ops: seq<KvOp>)
    requires Typed(ops) && Timed(ops)
    ensures Linearizable(Whole(), ops) <==> forall key :: key in Keys(ops) ==> Linearizable(OneKey(), ForKey(ops, key))
  {
    hide IsLinearization, RespectsTime, Keys;
    if Linearizable(Whole(), ops) {
      var order :| IsLinearization(Whole(), ops, order);
      forall key | key in Keys(ops) ensures Linearizable(OneKey(), ForKey(ops, key)) {
        WholeToKey(ops, order, key);
      }
    }
    if forall key :: key in Keys(ops) ==> Linearizable(OneKey(), ForKey(ops, key)) {
      var order := KeysMerge(ops, Keys(ops));
      KeysToWhole(ops, order);
    }
  }

  // ----- the partition -----

  ghost predicate Ascending(keys: seq<string>) {
    forall i, j :: 0 <= i < j < |keys| ==> StringLess(keys[i], keys[j])
  }

  /** The keys of a map in ascending order. */
  method SortedKeys(s: set<string>) returns (keys: seq<string>)
    ensures Ascending(keys) && forall key :: key in keys <==> key in s
  {
    hide StringLess;
    keys := [];
    var rest := s;
    while rest != {}
      invariant rest <= s && Ascending(keys) && forall key :: key in keys <==> key in s - rest
      decreases rest
    {
      var key :| key in rest;
      rest := rest - {key};
      var k := |keys|;
      while k > 0 && StringLess(key, keys[k - 1])
        invariant 0 <= k <= |keys| && forall i :: k <= i < |keys| ==> StringLess(key, keys[i])
      {
        k := k - 1;
      }
      AscendingInsert(keys, key, k);
      keys := keys[..k] + [key] + keys[k..];
    }
  }

  lemma AscendingInsert(keys: seq<string>, key: string, k: int)
    requires Ascending(keys) && 0 <= k <= |keys| && key !in keys
    requires (forall i :: k <= i < |keys| ==> StringLess(key, keys[i])) && (k > 0 ==> !StringLess(key, keys[k - 1]))
    ensures Ascending(keys[..k] + [key] + keys[k..])
    ensures forall x :: x in keys[..k] + [key] + keys[k..] <==> x in keys || x == key
  {
    hide StringLess;
    var r := keys[..k] + [key] + keys[k..];
    assert keys == keys[..k] + keys[k..];
    forall i | 0 <= i < k ensures StringLess(keys[i], key) {
      StringOrder(keys[k - 1], key);
      if i < k - 1 {
        StringTransitive(keys[i], keys[k - 1], key);
      }
    }
  }

  /** One history per key, in the order of the keys, each with its operations in their order. */
  ghost predicate Partitioned(history: seq<KvOp>, keys: seq<string>, ret: seq<seq<KvOp>>) {
    && Ascending(keys) && (forall key :: key in keys <==> key in Keys(history))
    && |ret| == |keys| && forall i :: 0 <= i < |ret| ==> ret[i] == ForKey(history, keys[i])
  }

  method Partition(history: seq<KvOp>) returns (ret: seq<seq<KvOp>>)
    ensures exists keys :: Partitioned(history, keys, ret)
  {
    var m := GroupByKey(history);
    var keys := SortedKeys(m.Keys);
    ret := [];
    for i := 0 to |keys|
      invariant |ret| == i && forall k :: 0 <= k < i ==> ret[k] == ForKey(history, keys[k])
    {
      assert keys[i] in m;
      ret := ret + [m[keys[i]]];
    }
    assert Partitioned(history, keys, ret);
  }

  method GroupByKey(history: seq<KvOp>) returns (m: map<string, seq<KvOp>>)
    ensures m.Keys == Keys(history) && forall key :: key in m ==> m[key] == ForKey(history, key)
  {
    m := map[];
    for n := 0 to |history|
      invariant m.Keys == Keys(history[..n])
      invariant forall key :: key in m ==> m[key] == ForKey(history[..n], key)
    {
      var v := history[n];
      var key := KeyOf(v);
      GroupOne(history, n);
      m := m[key := (if key in m then m[key] else []) + [v]];
    }
    assert history[..|history|] == history;
  }

  lemma GroupOne(history: seq<KvOp>, n: int)
    requires 0 <= n < |history|
    ensures Keys(history[..n + 1]) == Keys(history[..n]) + {KeyOf(history[n])}
    ensures forall key ::
              ForKey(history[..n + 1], key) ==
              ForKey(history[..n], key) + (if KeyOf(history[n]) == key then [history[n]] else [])
    ensures KeyOf(history[n]) !in Keys(history[..n]) ==> ForKey(history[..n], KeyOf(history[n])) == []
  {
    var a, v := history[..n], history[n];
    assert history[..n + 1] == a + [v];
    forall key ensures ForKey(a + [v], key) == ForKey(a, key) + (if KeyOf(v) == key then [v] else []) {
      ForKeyConcat(a, [v], key);
      assert [v][1..] == [];
    }
    assert Keys(a + [v]) == Keys(a) + {KeyOf(v)} by {
      forall key | key in Keys(a) + {KeyOf(v)} ensures key in Keys(a + [v]) {
        if key in Keys(a) {
          var i :| 0 <= i < |a| && key == KeyOf(a[i]);
          assert (a + [v])[i] == a[i];
        } else {
          assert (a + [v])[|a|] == v;
        }
      }
    }
    if KeyOf(v) !in Keys(a) {
      ForKeyNone(a, KeyOf(v));
    }
  }
}
