/** Replaying the partial linearizations of a check, as the visualization does. */
module Visualization {
  import opened Options
  import opened Linearizability
  import opened Search
  import opened Permutations
  import opened Histories
  import opened Parallel

  datatype HistoryElement = HistoryElement(clientId: int, start: int, end: int)

  datatype LinearizationStep<+S> = LinearizationStep(index: int, state: S)

  /** The values and times of an operation are those of its two entries. */
  ghost predicate Collected<V>(h: seq<Entry<V>>, elements: seq<HistoryElement>, callValue: map<int, V>,
                               returnValue: map<int, V>, id: int)
    requires WellFormed(h) && IsOp(h, id) && |elements| == Count(h)
  {
    var c, r := CallAt(h, id), ReturnAt(h, id);
    && id in callValue && callValue[id] == h[c].value
    && id in returnValue && returnValue[id] == h[r].value
    && elements[id] == HistoryElement(h[c].clientId, h[c].time, h[r].time)
  }

  method Collect<V>(h: seq<Entry<V>>)
    returns (elements: seq<HistoryElement>, callValue: map<int, V>, returnValue: map<int, V>)
    requires WellFormed(h)
    ensures |elements| == Count(h) && forall id :: IsOp(h, id) ==> Collected(h, elements, callValue, returnValue, id)
  {
    hide WellFormed;
    elements := seq(Count(h), _ => HistoryElement(0, 0, 0));
    callValue, returnValue := map[], map[];
    for j := 0 to |h|
      invariant |elements| == Count(h)
      invariant forall id :: IsOp(h, id) && CallAt(h, id) < j ==>
                  && id in callValue && callValue[id] == h[CallAt(h, id)].value
                  && elements[id].clientId == h[CallAt(h, id)].clientId && elements[id].start == h[CallAt(h, id)].time
      invariant forall id :: IsOp(h, id) && ReturnAt(h, id) < j ==>
                  && id in returnValue && returnValue[id] == h[ReturnAt(h, id)].value
                  && elements[id].end == h[ReturnAt(h, id)].time
    {
      var elem := h[j];
      EntryPlace(h, j);
      if !elem.isReturn {
        elements := elements[elem.id := elements[elem.id].(clientId := elem.clientId, start := elem.time)];
        callValue := callValue[elem.id := elem.value];
      } else {
        elements := elements[elem.id := elements[elem.id].(end := elem.time)];
        returnValue := returnValue[elem.id := elem.value];
      }
    }
  }

  ghost predicate Descending(partials: seq<seq<int>>) {
    forall i, j :: 0 <= i < j < |partials| ==> |partials[i]| >= |partials[j]|
  }

  /** A sort by decreasing length, in place of the library's. */
  method SortByLength(partials: seq<seq<int>>) returns (r: seq<seq<int>>)
    ensures multiset(r) == multiset(partials) && Descending(r)
  {
    r := [];
    for n := 0 to |partials|
      invariant multiset(r) == multiset(partials[..n]) && Descending(r)
    {
      var p, k := partials[n], |r|;
      while k > 0 && |p| > |r[k - 1]|
        invariant 0 <= k <= |r| && forall i :: k <= i < |r| ==> |p| > |r[i]|
      {
        k := k - 1;
      }
      assert partials[..n + 1] == partials[..n] + [p];
      DescendingInsert(r, p, k);
      InsertMultiset(r, p, k);
      r := r[..k] + [p] + r[k..];
    }
    assert partials[..|partials|] == partials;
  }

  lemma DescendingInsert(r: seq<seq<int>>, p: seq<int>, k: int)
    requires Descending(r) && 0 <= k <= |r| && (forall i :: k <= i < |r| ==> |p| > |r[i]|)
    requires k > 0 ==> |p| <= |r[k - 1]|
    ensures Descending(r[..k] + [p] + r[k..])
  {
    var r' := r[..k] + [p] + r[k..];
    forall i, j | 0 <= i < j < |r'| ensures |r'[i]| >= |r'[j]| {
      assert r'[i] == if i < k then r[i] else if i == k then p else r[i - 1];
      assert r'[j] == if j < k then r[j] else if j == k then p else r[j - 1];
      assert i < k - 1 ==> |r[i]| >= |r[k - 1]|;
    }
  }

  /** `steps` is the run of `partial`, state by state. */
  ghost predicate Replayed<S(!new), V(!new)>(m: Model<S, V>, h: seq<Entry<V>>, partial: seq<int>,
                                             steps: seq<LinearizationStep<S>>)
    requires WellFormed(h)
  {
    && |steps| == |partial|
    && forall k :: 0 <= k < |steps| ==>
         steps[k].index == partial[k] && After(m, h, partial[..k + 1]) == Some(steps[k].state)
  }

  /** A step of the replay is the next step of the prefix: the replay cannot fail. */
  lemma NextStep<S(!new), V(!new)>(m: Model<S, V>, h: seq<Entry<V>>, partial: seq<int>, j: int)
    requires WellFormed(h) && After(m, h, partial).Some? && 0 <= j < |partial|
    ensures After(m, h, partial[..j]).Some? && IsOp(h, partial[j])
    ensures StepOf(m, h, After(m, h, partial[..j]).value, partial[j]).0
    ensures After(m, h, partial[..j + 1]) == Some(StepOf(m, h, After(m, h, partial[..j]).value, partial[j]).1)
  {
    AfterPrefix(m, h, partial, j + 1);
    AfterPrefix(m, h, partial, j);
    assert partial[..j + 1][..j] == partial[..j];
  }

  /** `i` is the first partial that contains `id`. */
  ghost predicate FirstWith(partials: seq<seq<int>>, id: int, i: int) {
    0 <= i < |partials| && id in partials[i] && forall j :: 0 <= j < i ==> id !in partials[j]
  }

  /** What the two maps know after some partials: for each operation, the first partial with it. */
  ghost predicate LargestOk(partials: seq<seq<int>>, largestIndex: map<int, int>, largestSize: map<int, int>) {
    forall id :: (id in largestSize <==> id in largestIndex)
      && (id in largestIndex ==>
            FirstWith(partials, id, largestIndex[id]) && largestSize[id] == |partials[largestIndex[id]]|)
  }

  ghost predicate Covered(partials: seq<seq<int>>, i: int, largestIndex: map<int, int>)
    requires 0 <= i <= |partials|
  {
    forall j, id :: 0 <= j < i && id in partials[j] ==> id in largestIndex
  }

  /** Replays partial number `i`. Every step is possible, so the replay never gives up. */
  method ReplayOne<S(!new), V(!new)>(m: Model<S, V>, ghost h: seq<Entry<V>>, ghost elements: seq<HistoryElement>,
                                     callValue: map<int, V>, returnValue: map<int, V>,
                                     partials: seq<seq<int>>, i: int, largestIndex: map<int, int>,
                                     largestSize: map<int, int>)
    returns (steps: seq<LinearizationStep<S>>, largestIndex': map<int, int>, largestSize': map<int, int>)
    requires WellFormed(h) && |elements| == Count(h)
    requires forall id :: IsOp(h, id) ==> Collected(h, elements, callValue, returnValue, id)
    requires Descending(partials) && 0 <= i < |partials| && After(m, h, partials[i]).Some?
    requires LargestOk(partials, largestIndex, largestSize) && Covered(partials, i, largestIndex)
    ensures Replayed(m, h, partials[i], steps)
    ensures LargestOk(partials, largestIndex', largestSize') && Covered(partials, i + 1, largestIndex')
  {
    hide WellFormed, After;
    var partial := partials[i];
    var state := m.init;
    steps, largestIndex', largestSize' := [], largestIndex, largestSize;
    assert After(m, h, partial[..0]) == Some(m.init) by { NothingDone(m, h, partial); }
    for j := 0 to |partial|
      invariant |steps| == j && After(m, h, partial[..j]) == Some(state)
      invariant forall k :: 0 <= k < j ==>
                  steps[k].index == partial[k] && After(m, h, partial[..k + 1]) == Some(steps[k].state)
      invariant LargestOk(partials, largestIndex', largestSize') && Covered(partials, i, largestIndex')
      invariant forall k :: 0 <= k < j ==> partial[k] in largestIndex'
    {
      var histId := partial[j];
      NextStep(m, h, partial, j);
      assert Collected(h, elements, callValue, returnValue, histId);
      var (ok, next) := m.step(state, callValue[histId], returnValue[histId]);
      assert ok;
      state := next;
      steps := steps + [LinearizationStep(histId, state)];
      var size := if histId in largestSize' then largestSize'[histId] else 0;
      if size < |partial| {
        FirstSeen(partials, i, histId, largestIndex', largestSize');
        largestSize' := largestSize'[histId := |partial|];
        largestIndex' := largestIndex'[histId := i];
      }
    }
  }

  lemma NothingDone<S(!new), V(!new)>(m: Model<S, V>, h: seq<Entry<V>>, q: seq<int>)
    requires WellFormed(h)
    ensures After(m, h, q[..0]) == Some(m.init)
  {
  }

  /** Among partials sorted by length, only the first with an operation is larger than those before. */
  lemma FirstSeen(partials: seq<seq<int>>, i: int, id: int, largestIndex: map<int, int>, largestSize: map<int, int>)
    requires Descending(partials) && 0 <= i < |partials| && id in partials[i]
    requires LargestOk(partials, largestIndex, largestSize) && Covered(partials, i, largestIndex)
    requires (if id in largestSize then largestSize[id] else 0) < |partials[i]|
    ensures FirstWith(partials, id, i)
  {
    if id in largestSize {
      var k := largestIndex[id];
      assert FirstWith(partials, id, k);
      assert !(k < i);
    }
  }

  /** The panic on a step that is not possible is unreachable, and for every operation that is in
      some linearizable prefix, `largest` names a partial that is a longest such prefix. */
  method VisualizePartition<S(!new), V(!new)>(m: Model<S, V>, h: seq<Entry<V>>, partials: seq<seq<int>>)
    returns (elements: seq<HistoryElement>, sorted: seq<seq<int>>,
             linearizations: seq<seq<LinearizationStep<S>>>, largest: map<int, int>)
    requires WellFormed(h) && PartialsOptimal(m, h, partials)
    ensures |elements| == Count(h) && multiset(sorted) == multiset(partials) && |linearizations| == |sorted|
    ensures forall id :: IsOp(h, id) ==>
                           elements[id] == HistoryElement(h[CallAt(h, id)].clientId, h[CallAt(h, id)].time,
                                                          h[ReturnAt(h, id)].time)
    ensures forall i :: 0 <= i < |sorted| ==> Replayed(m, h, sorted[i], linearizations[i])
    ensures forall id :: id in largest ==> 0 <= largest[id] < |sorted| && id in sorted[largest[id]]
    ensures forall q, id :: After(m, h, q).Some? && id in q ==> id in largest && |sorted[largest[id]]| >= |q|
  {
    hide WellFormed, After, Replayed;
    var callValue, returnValue;
    elements, callValue, returnValue := Collect(h);
    sorted := SortByLength(partials);
    SortedValid(m, h, partials, sorted);
    var largestSize: map<int, int>;
    linearizations, largest, largestSize := [], map[], map[];
    for i := 0 to |sorted|
      invariant |linearizations| == i
      invariant forall k :: 0 <= k < i ==> Replayed(m, h, sorted[k], linearizations[k])
      invariant LargestOk(sorted, largest, largestSize) && Covered(sorted, i, largest)
    {
      var steps;
      steps, largest, largestSize := ReplayOne(m, h, elements, callValue, returnValue, sorted, i, largest, largestSize);
      linearizations := linearizations + [steps];
    }
    forall q, id | After(m, h, q).Some? && id in q ensures id in largest && |sorted[largest[id]]| >= |q| {
      LargestFound(m, h, partials, sorted, largest, largestSize, q, id);
    }
  }

  lemma SortedValid<S(!new), V(!new)>(m: Model<S, V>, h: seq<Entry<V>>, partials: seq<seq<int>>, sorted: seq<seq<int>>)
    requires WellFormed(h) && PartialsOptimal(m, h, partials) && multiset(sorted) == multiset(partials)
    ensures forall i :: 0 <= i < |sorted| ==> After(m, h, sorted[i]).Some?
  {
    hide WellFormed, After;
    forall i | 0 <= i < |sorted| ensures After(m, h, sorted[i]).Some? {
      assert sorted[i] in multiset(partials);
    }
  }

  lemma LargestFound<S(!new), V(!new)>(m: Model<S, V>, h: seq<Entry<V>>, partials: seq<seq<int>>, sorted: seq<seq<int>>,
                                       largest: map<int, int>, largestSize: map<int, int>, q: seq<int>, id: int)
    requires WellFormed(h) && PartialsOptimal(m, h, partials) && multiset(sorted) == multiset(partials)
    requires Descending(sorted)
    requires LargestOk(sorted, largest, largestSize) && Covered(sorted, |sorted|, largest)
    requires After(m, h, q).Some? && id in q
    ensures id in largest && 0 <= largest[id] < |sorted| && |sorted[largest[id]]| >= |q|
  {
    hide WellFormed, After;
    var p :| p in partials && id in p && |p| >= |q|;
    assert p in multiset(sorted);
    var j :| 0 <= j < |sorted| && sorted[j] == p;
    assert FirstWith(sorted, id, largest[id]);
    assert largest[id] <= j;
  }
}
