/** What a history of the key/value service has to look like, said without the model: an order that
    respects real time, in which every value read is the one last put under the key, followed by
    what was appended since. */
module KvMeaning {
  import opened Options
  import opened Linearizability
  import opened KvModel

  predicate OnKey(op: KvOp, key: string) {
    op.input.KvInput? && op.input.key == key
  }

  predicate IsPut(op: KvOp, key: string) {
    OnKey(op, key) && op.input.op == 1
  }

  /** Every operation but get and put appends. */
  predicate IsAppend(op: KvOp, key: string) {
    OnKey(op, key) && op.input.op != 0 && op.input.op != 1
  }

  /** A get, or an append that returns the old value, reads. */
  predicate Reads(op: KvOp) {
    op.input.KvInput? && op.output.KvOutput? && op.input.op != 1 && op.input.op != 2
  }

  /** The last put on the key among the first `n` operations, or -1. */
  function LastPut(order: seq<KvOp>, key: string, n: nat): (k: int)
    requires n <= |order|
    ensures -1 <= k < n && (k >= 0 ==> IsPut(order[k], key))
    ensures forall j :: k < j < n ==> !IsPut(order[j], key)
  {
    if n == 0 then -1 else if IsPut(order[n - 1], key) then n - 1 else LastPut(order, key, n - 1)
  }

  /** What the operations from `lo` up to `n` append to the key, in order. */
  function Appended(order: seq<KvOp>, key: string, lo: int, n: nat): string
    requires 0 <= lo <= n <= |order|
  {
    if lo == n then ""
    else Appended(order, key, lo, n - 1) + if IsAppend(order[n - 1], key) then order[n - 1].input.value else ""
  }

  /** What the key holds after the first `n` operations. */
  function Holds(order: seq<KvOp>, key: string, n: nat): string
    requires n <= |order|
  {
    var k := LastPut(order, key, n);
    (if k >= 0 then order[k].input.value else "") + Appended(order, key, k + 1, n)
  }

  ghost predicate ReadsRight(order: seq<KvOp>, k: nat)
    requires k < |order|
  {
    Reads(order[k]) ==> order[k].output.value == Holds(order, order[k].input.key, k)
  }

  /** Every value read is what the key then holds. */
  ghost predicate Explains(order: seq<KvOp>) {
    forall k: nat :: k < |order| ==> ReadsRight(order, k)
  }

  /** Some order of all the operations respects real time and explains every value read. */
  ghost predicate Consistent(history: seq<KvOp>) {
    exists order :: multiset(order) == multiset(history) && RespectsTime(order) && Explains(order)
  }

  // ----- the model accepts exactly that -----

  lemma {:induction false} HoldsPrefix(order: seq<KvOp>, more: seq<KvOp>, key: string, n: nat)
    requires n <= |order|
    ensures LastPut(order + more, key, n) == LastPut(order, key, n)
    ensures forall lo :: 0 <= lo <= n ==> Appended(order + more, key, lo, n) == Appended(order, key, lo, n)
    decreases n
  {
    if n > 0 {
      assert (order + more)[n - 1] == order[n - 1];
      HoldsPrefix(order, more, key, n - 1);
    }
  }

  /** One more operation: a put replaces, an append adds, a get leaves. */
  lemma HoldsMore(order: seq<KvOp>, op: KvOp, key: string)
    ensures Holds(order + [op], key, |order| + 1) ==
            if IsPut(op, key) then op.input.value
            else Holds(order, key, |order|) + if IsAppend(op, key) then op.input.value else ""
  {
    var n := |order|;
    var order' := order + [op];
    assert order'[n] == op;
    HoldsPrefix(order, [op], key, n);
    if !IsPut(op, key) {
      var k := LastPut(order, key, n);
      assert LastPut(order', key, n + 1) == k;
      assert k >= 0 ==> order'[k] == order[k];
      assert Appended(order', key, k + 1, n + 1) ==
             Appended(order, key, k + 1, n) + if IsAppend(op, key) then op.input.value else "";
    }
  }

  lemma ExplainsMore(order: seq<KvOp>, op: KvOp)
    ensures Explains(order + [op]) <==>
            Explains(order) && (Reads(op) ==> op.output.value == Holds(order, op.input.key, |order|))
  {
    hide LastPut, Appended;
    var order' := order + [op];
    forall k: nat | k < |order| ensures ReadsRight(order', k) <==> ReadsRight(order, k) {
      assert order'[k] == order[k];
      if Reads(order[k]) {
        SamePrefixHolds(order, [op], order[k].input.key, k);
      }
    }
    assert order'[|order|] == op;
    if Reads(op) {
      SamePrefixHolds(order, [op], op.input.key, |order|);
    }
    assert ReadsRight(order', |order|) <==> (Reads(op) ==> op.output.value == Holds(order, op.input.key, |order|));
    if Explains(order') {
      forall k: nat | k < |order| ensures ReadsRight(order, k) {
        assert ReadsRight(order', k);
      }
      assert ReadsRight(order', |order|);
    }
    if Explains(order) && (Reads(op) ==> op.output.value == Holds(order, op.input.key, |order|)) {
      forall k: nat | k < |order'| ensures ReadsRight(order', k) {
        assert k < |order| ==> ReadsRight(order, k);
      }
    }
  }

  lemma SamePrefixHolds(order: seq<KvOp>, more: seq<KvOp>, key: string, n: nat)
    requires n <= |order|
    ensures Holds(order + more, key, n) == Holds(order, key, n)
  {
    HoldsPrefix(order, more, key, n);
    var k := LastPut(order, key, n);
    assert k >= 0 ==> (order + more)[k] == order[k];
  }

  lemma StepMeans(st: Store, op: KvOp)
    requires op.input.KvInput? && op.output.KvOutput?
    ensures var (ok, st') := WholeStep(st, op.input, op.output);
            && (ok <==> (Reads(op) ==> op.output.value == At(st, op.input.key)))
            && forall key :: At(st', key) == if IsPut(op, key) then op.input.value
                                             else At(st, key) + if IsAppend(op, key) then op.input.value else ""
  {
  }

  /** The whole map accepts an order exactly if the order explains every value read, and then holds
      what the order says. */
  lemma {:induction false} AcceptsIff(order: seq<KvOp>)
    requires Typed(order)
    ensures Run(Whole(), map[], order).Some? <==> Explains(order)
    ensures forall key, st :: Run(Whole(), map[], order) == Some(st) ==> At(st, key) == Holds(order, key, |order|)
    decreases |order|
  {
    if order == [] {
    } else {
      var n := |order| - 1;
      var before, op := order[..n], order[n];
      assert order == before + [op];
      AcceptsIff(before);
      hide Run, Explains, Holds, WholeStep;
      RunMore(Whole(), map[], before, op);
      ExplainsMore(before, op);
      if Run(Whole(), map[], before).Some? {
        var st := Run(Whole(), map[], before).value;
        StepMeans(st, op);
        assert At(st, op.input.key) == Holds(before, op.input.key, n);
        forall key, st' | Run(Whole(), map[], order) == Some(st') ensures At(st', key) == Holds(order, key, |order|) {
          HoldsMore(before, op, key);
          assert At(st, key) == Holds(before, key, n);
        }
      }
    }
  }

  lemma TypedOrder(history: seq<KvOp>, order: seq<KvOp>)
    requires Typed(history) && multiset(order) == multiset(history)
    ensures Typed(order)
  {
    forall i | 0 <= i < |order| ensures order[i].input.KvInput? && order[i].output.KvOutput? {
      assert order[i] in multiset(order);
      assert order[i] in history;
    }
  }

  /** Linearizable against the whole map is what a client would call consistent. */
  lemma LinearizableIff(history: seq<KvOp>)
    requires Typed(history)
    ensures Linearizable(Whole(), history) <==> Consistent(history)
  {
    hide Run, Explains, RespectsTime, Typed;
    if Linearizable(Whole(), history) {
      var order :| IsLinearization(Whole(), history, order);
      TypedOrder(history, order);
      AcceptsIff(order);
    }
    if Consistent(history) {
      var order :| multiset(order) == multiset(history) && RespectsTime(order) && Explains(order);
      TypedOrder(history, order);
      AcceptsIff(order);
      assert IsLinearization(Whole(), history, order);
    }
  }
}
