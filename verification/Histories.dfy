/** From operations with times to the list of call and return entries the search works on. */
module Histories {
  import opened Options
  import opened Linearizability
  import opened Search
  import opened Permutations

  function CallEntry<V>(ops: seq<Operation<V>>, id: int): Entry<V>
    requires 0 <= id < |ops|
  {
    Entry(false, ops[id].input, id, ops[id].call, ops[id].clientId)
  }

  function ReturnEntry<V>(ops: seq<Operation<V>>, id: int): Entry<V>
    requires 0 <= id < |ops|
  {
    Entry(true, ops[id].output, id, ops[id].ret, ops[id].clientId)
  }

  /** The entries before sorting: call and return of each operation in turn. */
  ghost function RawEntry<V>(ops: seq<Operation<V>>, k: int): Entry<V>
    requires 0 <= k < 2 * |ops|
  {
    if k % 2 == 0 then CallEntry(ops, k / 2) else ReturnEntry(ops, k / 2)
  }

  ghost function RawEntries<V>(ops: seq<Operation<V>>): (h: seq<Entry<V>>)
    ensures |h| == 2 * |ops| && forall k :: 0 <= k < |h| ==> h[k] == RawEntry(ops, k)
  {
    seq(2 * |ops|, k requires 0 <= k < 2 * |ops| => RawEntry(ops, k))
  }

  /** By time; at the same time, calls before returns. */
  predicate Less<V>(a: Entry<V>, b: Entry<V>) {
    if a.time != b.time then a.time < b.time else !a.isReturn && b.isReturn
  }

  ghost predicate Sorted<V>(h: seq<Entry<V>>) {
    forall i, j :: 0 <= i < j < |h| ==> !Less(h[j], h[i])
  }

  /** Any order of the entries that sorting may leave. */
  ghost predicate EntriesOf<V>(ops: seq<Operation<V>>, h: seq<Entry<V>>) {
    multiset(h) == multiset(RawEntries(ops)) && Sorted(h)
  }

  // ----- building the entries -----

  method MakeEntries<V>(history: seq<Operation<V>>) returns (entries: seq<Entry<V>>)
    ensures EntriesOf(history, entries)
  {
    entries := [];
    var id := 0;
    while id < |history|
      invariant 0 <= id <= |history| && |entries| == 2 * id
      invariant forall k :: 0 <= k < |entries| ==> entries[k] == RawEntry(history, k)
    {
      entries := entries + [CallEntry(history, id)];
      entries := entries + [ReturnEntry(history, id)];
      id := id + 1;
    }
    assert entries == RawEntries(history);
    entries := SortByTime(entries);
  }

  /** A sort by `Less`, in place of the library's. */
  method SortByTime<V>(entries: seq<Entry<V>>) returns (r: seq<Entry<V>>)
    ensures multiset(r) == multiset(entries) && Sorted(r)
  {
    r := [];
    for n := 0 to |entries|
      invariant multiset(r) == multiset(entries[..n]) && Sorted(r)
    {
      var e, k := entries[n], |r|;
      while k > 0 && Less(e, r[k - 1])
        invariant 0 <= k <= |r| && forall i :: k <= i < |r| ==> Less(e, r[i])
      {
        k := k - 1;
      }
      SortedInsert(r, e, k);
      assert entries[..n + 1] == entries[..n] + [e];
      InsertMultiset(r, e, k);
      r := r[..k] + [e] + r[k..];
    }
    assert entries[..|entries|] == entries;
  }

  lemma SortedInsert<V>(r: seq<Entry<V>>, e: Entry<V>, k: int)
    requires Sorted(r) && 0 <= k <= |r| && (forall i :: k <= i < |r| ==> Less(e, r[i]))
    requires k > 0 ==> !Less(e, r[k - 1])
    ensures Sorted(r[..k] + [e] + r[k..])
  {
    var r' := r[..k] + [e] + r[k..];
    forall i, j | 0 <= i < j < |r'| ensures !Less(r'[j], r'[i]) {
      if j == k && i < k - 1 {
        assert !Less(r[k - 1], r[i]);
      }
    }
  }

  // ----- the entries are a history of the operations -----

  /** Operation `id` is where it should be, with its values. */
  ghost predicate Placed<V>(ops: seq<Operation<V>>, h: seq<Entry<V>>, id: int)
    requires WellFormed(h) && Count(h) == |ops| && IsOp(h, id)
  {
    h[CallAt(h, id)] == CallEntry(ops, id) && h[ReturnAt(h, id)] == ReturnEntry(ops, id)
  }

  /** Entry `i` is raw entry `p[i]`. */
  ghost predicate Arranged<V>(ops: seq<Operation<V>>, h: seq<Entry<V>>, p: seq<int>) {
    && Perm(p, 2 * |ops|) && |h| == 2 * |ops|
    && forall i :: 0 <= i < |h| ==> h[i] == RawEntry(ops, p[i])
  }

  lemma EntryIs<V>(ops: seq<Operation<V>>, h: seq<Entry<V>>, p: seq<int>, i: int)
    requires Arranged(ops, h, p) && 0 <= i < |h|
    ensures h[i].id == p[i] / 2 && (h[i].isReturn <==> p[i] % 2 == 1) && 0 <= h[i].id < |ops|
    ensures h[i] == if h[i].isReturn then ReturnEntry(ops, h[i].id) else CallEntry(ops, h[i].id)
  {
  }

  /** Sorting keeps calls before their returns. */
  lemma EntriesOrdered<V>(ops: seq<Operation<V>>, h: seq<Entry<V>>, p: seq<int>, j: int, k: int)
    requires Timed(ops) && Sorted(h) && Arranged(ops, h, p) && 0 <= j < k < |h| && h[j].id == h[k].id
    ensures !h[j].isReturn && h[k].isReturn
  {
    EntryIs(ops, h, p, j);
    EntryIs(ops, h, p, k);
    assert p[j] != p[k];
    assert !Less(h[k], h[j]);
  }

  lemma EntriesPaired<V>(ops: seq<Operation<V>>, h: seq<Entry<V>>, p: seq<int>, id: int)
    requires Timed(ops) && Sorted(h) && Arranged(ops, h, p) && 0 <= id < |ops|
    ensures HasPair(h, id)
  {
    PermHits(p, |h|, 2 * id);
    PermHits(p, |h|, 2 * id + 1);
    var c :| 0 <= c < |p| && p[c] == 2 * id;
    var r :| 0 <= r < |p| && p[r] == 2 * id + 1;
    EntryIs(ops, h, p, c);
    EntryIs(ops, h, p, r);
    if r < c {
      EntriesOrdered(ops, h, p, r, c);
    }
    assert IsPair(h, id, c, r);
  }

  lemma EntriesWellFormed<V>(ops: seq<Operation<V>>, h: seq<Entry<V>>)
    requires Timed(ops) && EntriesOf(ops, h)
    ensures WellFormed(h) && Count(h) == |ops|
    ensures forall id :: IsOp(h, id) ==> Placed(ops, h, id)
  {
    hide Timed, Sorted, Perm, Less;
    var p := FindPerm(h, RawEntries(ops));
    assert Arranged(ops, h, p);
    hide Arranged, RawEntry, HasPair;
    forall j | 0 <= j < |h| ensures 0 <= h[j].id < Count(h) {
      EntryIs(ops, h, p, j);
    }
    forall j, k | 0 <= j < k < |h| && h[j].id == h[k].id ensures !h[j].isReturn && h[k].isReturn {
      EntriesOrdered(ops, h, p, j, k);
    }
    forall id | 0 <= id < Count(h) ensures HasPair(h, id) {
      EntriesPaired(ops, h, p, id);
    }
    assert WellFormed(h);
    hide WellFormed;
    forall id | IsOp(h, id) ensures Placed(ops, h, id) {
      EntryIs(ops, h, p, CallAt(h, id));
      EntryIs(ops, h, p, ReturnAt(h, id));
    }
  }

  /** The order of the entries is the order of the times, ties being concurrent. */
  lemma Precedes<V>(ops: seq<Operation<V>>, h: seq<Entry<V>>, a: int, b: int)
    requires Timed(ops) && EntriesOf(ops, h) && WellFormed(h) && Count(h) == |ops| && IsOp(h, a) && IsOp(h, b)
    requires Placed(ops, h, a) && Placed(ops, h, b)
    ensures ReturnAt(h, a) < CallAt(h, b) <==> ops[a].ret < ops[b].call
  {
    var r, c := ReturnAt(h, a), CallAt(h, b);
    assert r < c ==> !Less(h[c], h[r]);
    assert c < r ==> !Less(h[r], h[c]);
  }

  // ----- linearizations of the entries are linearizations of the operations -----

  lemma {:induction false} AfterPrefix<S(!new), V(!new)>(m: Model<S, V>, h: seq<Entry<V>>, q: seq<int>, k: int)
    requires WellFormed(h) && After(m, h, q).Some? && 0 <= k <= |q|
    ensures After(m, h, q[..k]).Some?
    decreases |q|
  {
    if k == |q| {
      assert q[..k] == q;
    } else {
      var p := q[..|q| - 1];
      AfterPrefix(m, h, p, k);
      assert p[..k] == q[..k];
    }
  }

  /** No operation comes before one that returned before its call. */
  lemma AfterRespects<S(!new), V(!new)>(m: Model<S, V>, h: seq<Entry<V>>, q: seq<int>, i: int, j: int)
    requires WellFormed(h) && After(m, h, q).Some? && 0 <= i < j < |q|
    ensures IsOp(h, q[i]) && IsOp(h, q[j]) && !(ReturnAt(h, q[j]) < CallAt(h, q[i]))
  {
    AfterDistinct(m, h, q);
    AfterPrefix(m, h, q, i + 1);
    assert q[..i + 1][..i] == q[..i];
    assert Enabled(h, Ids(q[..i]), q[i]);
    assert q[j] !in q[..i];
  }

  ghost predicate OpsIn<V>(ops: seq<Operation<V>>, q: seq<int>) {
    forall i :: 0 <= i < |q| ==> 0 <= q[i] < |ops|
  }

  ghost predicate Carries<V>(ops: seq<Operation<V>>, h: seq<Entry<V>>, id: int)
    requires WellFormed(h) && Count(h) == |ops| && IsOp(h, id)
  {
    h[CallAt(h, id)].value == ops[id].input && h[ReturnAt(h, id)].value == ops[id].output
  }

  ghost predicate Ordered<V>(ops: seq<Operation<V>>, h: seq<Entry<V>>, a: int, b: int)
    requires WellFormed(h) && Count(h) == |ops| && IsOp(h, a) && IsOp(h, b)
  {
    ReturnAt(h, a) < CallAt(h, b) <==> ops[a].ret < ops[b].call
  }

  /** The entries carry the values of the operations, and their order says which operation returned
      before which was called. */
  ghost predicate Represents<V>(ops: seq<Operation<V>>, h: seq<Entry<V>>) {
    && WellFormed(h) && Count(h) == |ops|
    && (forall id :: IsOp(h, id) ==> Carries(ops, h, id))
    && (forall a, b :: IsOp(h, a) && IsOp(h, b) ==> Ordered(ops, h, a, b))
  }

  lemma EntriesRepresent<V>(ops: seq<Operation<V>>, h: seq<Entry<V>>)
    requires Timed(ops) && EntriesOf(ops, h)
    ensures Represents(ops, h)
  {
    hide Timed, EntriesOf, WellFormed;
    EntriesWellFormed(ops, h);
    forall id | IsOp(h, id) ensures Carries(ops, h, id) {
      assert Placed(ops, h, id);
    }
    forall a, b | IsOp(h, a) && IsOp(h, b) ensures Ordered(ops, h, a, b) {
      Precedes(ops, h, a, b);
    }
  }

  lemma StepCarried<S(!new), V(!new)>(m: Model<S, V>, ops: seq<Operation<V>>, h: seq<Entry<V>>, st: S, a: int)
    requires Represents(ops, h) && IsOp(h, a)
    ensures StepOf(m, h, st, a) == m.step(st, ops[a].input, ops[a].output)
  {
    assert Carries(ops, h, a);
  }

  /** A linearizable prefix runs. */
  lemma {:induction false} PrefixRuns<S(!new), V(!new)>(m: Model<S, V>, ops: seq<Operation<V>>, h: seq<Entry<V>>,
                                                        q: seq<int>)
    requires Represents(ops, h) && After(m, h, q).Some?
    ensures OpsIn(ops, q) && Run(m, m.init, Pick(ops, q)) == After(m, h, q)
    decreases |q|
  {
    if q == [] {
      assert Pick(ops, q) == [];
    } else {
      var p, a := q[..|q| - 1], q[|q| - 1];
      PrefixRuns(m, ops, h, p);
      StepCarried(m, ops, h, After(m, h, p).value, a);
      assert After(m, h, q) == Some(m.step(After(m, h, p).value, ops[a].input, ops[a].output).1);
      hide After, Run, Represents;
      assert q == p + [a];
      assert Pick(ops, q) == Pick(ops, p) + [ops[a]];
      RunMore(m, m.init, Pick(ops, p), ops[a]);
    }
  }

  /** In an order that respects time, the next operation is enabled. */
  lemma NextEnabled<V>(ops: seq<Operation<V>>, h: seq<Entry<V>>, q: seq<int>, k: int)
    requires Represents(ops, h)
    requires Perm(q, |ops|) && RespectsTime(Pick(ops, q)) && 0 <= k < |q|
    ensures Enabled(h, Ids(q[..k]), q[k])
  {
    hide WellFormed;
    var a, order := q[k], Pick(ops, q);
    assert IsOp(h, a);
    forall j | 0 <= j < CallAt(h, a) && h[j].isReturn ensures h[j].id in q[..k] {
      EntryPlace(h, j);
      var b := h[j].id;
      assert Ordered(ops, h, b, a);
      PermHits(q, |ops|, b);
      var i :| 0 <= i < |q| && q[i] == b;
      assert order[i].ret < order[k].call;
      assert !(k < i);
      assert i < k;
      assert q[..k][i] == b;
    }
  }

  lemma {:induction false} RunIsPrefix<S(!new), V(!new)>(m: Model<S, V>, ops: seq<Operation<V>>, h: seq<Entry<V>>,
                                                         q: seq<int>, k: int)
    requires Represents(ops, h)
    requires Perm(q, |ops|) && RespectsTime(Pick(ops, q)) && Run(m, m.init, Pick(ops, q)).Some? && 0 <= k <= |q|
    ensures After(m, h, q[..k]).Some? && After(m, h, q[..k]) == Run(m, m.init, Pick(ops, q)[..k])
    decreases k
  {
    hide Represents, RespectsTime, Perm;
    if k > 0 {
      RunIsPrefix(m, ops, h, q, k - 1);
      RunIsNext(m, ops, h, q, k - 1);
    }
  }

  lemma RunIsNext<S(!new), V(!new)>(m: Model<S, V>, ops: seq<Operation<V>>, h: seq<Entry<V>>, q: seq<int>, k: int)
    requires Represents(ops, h) && Perm(q, |ops|) && RespectsTime(Pick(ops, q)) && 0 <= k < |q|
    requires Run(m, m.init, Pick(ops, q)).Some?
    requires After(m, h, q[..k]).Some? && After(m, h, q[..k]) == Run(m, m.init, Pick(ops, q)[..k])
    ensures After(m, h, q[..k + 1]).Some? && After(m, h, q[..k + 1]) == Run(m, m.init, Pick(ops, q)[..k + 1])
  {
    hide After, Run, RespectsTime, Carries, Ordered, WellFormed, Enabled, StepOf;
    var order, p, a := Pick(ops, q), q[..k], q[k];
    NextEnabled(ops, h, q, k);
    assert order == order[..k + 1] + order[k + 1..];
    RunConcat(m, m.init, order[..k + 1], order[k + 1..]);
    assert order[..k + 1] == order[..k] + [ops[a]];
    RunMore(m, m.init, order[..k], ops[a]);
    assert IsOp(h, a);
    StepCarried(m, ops, h, After(m, h, p).value, a);
    AfterStep(m, h, p, After(m, h, p).value, a);
    assert q[..k + 1] == p + [a];
  }

  lemma FoundIsLinearization<S(!new), V(!new)>(m: Model<S, V>, ops: seq<Operation<V>>, h: seq<Entry<V>>, q: seq<int>)
    requires Represents(ops, h) && After(m, h, q).Some? && |q| == Count(h)
    ensures OpsIn(ops, q) && IsLinearization(m, ops, Pick(ops, q))
  {
    hide After, WellFormed, Run, Carries;
    AfterDistinct(m, h, q);
    PrefixRuns(m, ops, h, q);
    assert Perm(q, |ops|);
    PickPerm(ops, q);
    var order := Pick(ops, q);
    forall i, j | 0 <= i < j < |order| ensures !(order[j].ret < order[i].call) {
      AfterRespects(m, h, q, i, j);
      assert Ordered(ops, h, q[j], q[i]);
    }
  }

  /** What the search decides about the entries is linearizability of the operations. */
  lemma RepresentsDecides<S(!new), V(!new)>(m: Model<S, V>, ops: seq<Operation<V>>, h: seq<Entry<V>>)
    requires Represents(ops, h)
    ensures HasLinearization(m, h) <==> Linearizable(m, ops)
  {
    hide WellFormed, After, Run, IsLinearization, Carries, Ordered;
    if HasLinearization(m, h) {
      var q :| After(m, h, q).Some? && |q| == Count(h);
      FoundIsLinearization(m, ops, h, q);
    }
    if Linearizable(m, ops) {
      var order :| IsLinearization(m, ops, order);
      LinearizationIsFound(m, ops, h, order);
    }
  }

  lemma EntriesDecide<S(!new), V(!new)>(m: Model<S, V>, ops: seq<Operation<V>>, h: seq<Entry<V>>)
    requires Timed(ops) && EntriesOf(ops, h)
    ensures WellFormed(h) && Count(h) == |ops|
    ensures HasLinearization(m, h) <==> Linearizable(m, ops)
  {
    hide Timed, EntriesOf, WellFormed, HasLinearization, Linearizable;
    EntriesRepresent(ops, h);
    RepresentsDecides(m, ops, h);
  }

  lemma LinearizationIsFound<S(!new), V(!new)>(m: Model<S, V>, ops: seq<Operation<V>>, h: seq<Entry<V>>,
                                               order: seq<Operation<V>>)
    requires Represents(ops, h) && IsLinearization(m, ops, order)
    ensures HasLinearization(m, h)
  {
    hide WellFormed, After, Run, RespectsTime, Carries, Ordered;
    var q := FindPerm(order, ops);
    RunIsPrefix(m, ops, h, q, |q|);
    assert q[..|q|] == q;
  }
}
