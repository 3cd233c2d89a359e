/** The depth-first search of the checker, on values: which partial linearizations exist, what
    the search has ruled out, and why ruling out by a cached pair is sound. */
module Search {
  import opened Options
  import opened Sets
  import opened Linearizability

  /** One event of a history: the call or the return of operation `id`. */
  datatype Entry<+V> = Entry(isReturn: bool, value: V, id: int, time: int, clientId: int)

  // ----- well-formed histories -----

  ghost predicate IsPair<V>(h: seq<Entry<V>>, id: int, c: int, r: int) {
    && 0 <= c < r < |h|
    && h[c].id == id && !h[c].isReturn
    && h[r].id == id && h[r].isReturn
  }

  ghost predicate HasPair<V>(h: seq<Entry<V>>, id: int) {
    exists c, r :: IsPair(h, id, c, r)
  }

  function Count<V>(h: seq<Entry<V>>): nat {
    |h| / 2
  }

  /** Every operation 0, ..., n-1 is called once, returns once, and returns after its call. */
  ghost predicate WellFormed<V>(h: seq<Entry<V>>) {
    && (forall j :: 0 <= j < |h| ==> 0 <= h[j].id < Count(h))
    && (forall j, k :: 0 <= j < k < |h| && h[j].id == h[k].id ==> !h[j].isReturn && h[k].isReturn)
    && (forall id :: 0 <= id < Count(h) ==> HasPair(h, id))
  }

  ghost predicate IsOp<V>(h: seq<Entry<V>>, id: int) {
    0 <= id < Count(h)
  }

  ghost function CallAt<V>(h: seq<Entry<V>>, id: int): (c: int)
    requires WellFormed(h) && IsOp(h, id)
    ensures 0 <= c < |h| && h[c].id == id && !h[c].isReturn
  {
    assert HasPair(h, id);
    var c, r :| IsPair(h, id, c, r);
    c
  }

  ghost function ReturnAt<V>(h: seq<Entry<V>>, id: int): (r: int)
    requires WellFormed(h) && IsOp(h, id)
    ensures 0 <= r < |h| && h[r].id == id && h[r].isReturn
  {
    assert HasPair(h, id);
    var c, r :| IsPair(h, id, c, r);
    r
  }

  /** An entry is the call or the return of its operation. */
  lemma EntryPlace<V>(h: seq<Entry<V>>, j: int)
    requires WellFormed(h) && 0 <= j < |h|
    ensures IsOp(h, h[j].id) && CallAt(h, h[j].id) < ReturnAt(h, h[j].id)
    ensures j == if h[j].isReturn then ReturnAt(h, h[j].id) else CallAt(h, h[j].id)
  {
    var id := h[j].id;
    assert IsOp(h, id);
    var c, r := CallAt(h, id), ReturnAt(h, id);
    assert h[c].id == h[r].id;
    assert c != r;
  }

  // ----- partial linearizations -----

  ghost function Ids(q: seq<int>): set<int> {
    set x | x in q
  }

  /** `a` can be linearized next: every operation that returned before its call is done. */
  ghost predicate Enabled<V>(h: seq<Entry<V>>, done: set<int>, a: int)
    requires WellFormed(h)
  {
    && IsOp(h, a) && a !in done
    && forall j :: 0 <= j < CallAt(h, a) && h[j].isReturn ==> h[j].id in done
  }

  ghost function StepOf<S(!new), V(!new)>(m: Model<S, V>, h: seq<Entry<V>>, st: S, a: int): (bool, S)
    requires WellFormed(h) && IsOp(h, a)
  {
    m.step(st, h[CallAt(h, a)].value, h[ReturnAt(h, a)].value)
  }

  /** The state after linearizing `q`, if `q` is a linearizable prefix. */
  ghost function After<S(!new), V(!new)>(m: Model<S, V>, h: seq<Entry<V>>, q: seq<int>): Option<S>
    requires WellFormed(h)
    decreases |q|
  {
    if q == [] then Some(m.init)
    else
      var p, a := q[..|q| - 1], q[|q| - 1];
      match After(m, h, p)
      case None => None
      case Some(st) =>
        if Enabled(h, Ids(p), a) && StepOf(m, h, st, a).0 then Some(StepOf(m, h, st, a).1) else None
  }

  lemma AfterStep<S(!new), V(!new)>(m: Model<S, V>, h: seq<Entry<V>>, q: seq<int>, st: S, a: int)
    requires WellFormed(h) && After(m, h, q) == Some(st)
    requires Enabled(h, Ids(q), a) && StepOf(m, h, st, a).0
    ensures After(m, h, q + [a]) == Some(StepOf(m, h, st, a).1)
  {
    assert (q + [a])[..|q|] == q;
  }

  /** The operations of a linearizable prefix are distinct. */
  lemma {:induction false} AfterDistinct<S(!new), V(!new)>(m: Model<S, V>, h: seq<Entry<V>>, q: seq<int>)
    requires WellFormed(h) && After(m, h, q).Some?
    ensures |Ids(q)| == |q| && (forall x :: x in q ==> IsOp(h, x))
    ensures forall i, j :: 0 <= i < j < |q| ==> q[i] != q[j]
    decreases |q|
  {
    if q != [] {
      var p, a := q[..|q| - 1], q[|q| - 1];
      AfterDistinct(m, h, p);
      assert q == p + [a];
      assert Ids(q) == Ids(p) + {a};
    }
  }

  /** Some linearizable prefix holds every operation. */
  ghost predicate HasLinearization<S(!new), V(!new)>(m: Model<S, V>, h: seq<Entry<V>>)
    requires WellFormed(h)
  {
    exists q :: After(m, h, q).Some? && |q| == Count(h)
  }

  // ----- what the search has ruled out -----

  /** The operations done and the state reached: what the cache remembers. */
  datatype Pair<+S> = Pair(done: set<int>, state: S)

  ghost predicate Known<S(!new), V(!new)>(m: Model<S, V>, dead: set<Pair<S>>, done: set<int>, st: S) {
    exists p :: p in dead && p.done == done && m.equal(st, p.state)
  }

  /** Linearizing `a` next is impossible or leads to a pair already exhausted. */
  ghost predicate Explored<S(!new), V(!new)>(m: Model<S, V>, h: seq<Entry<V>>, dead: set<Pair<S>>, done: set<int>,
                                             st: S, a: int)
    requires WellFormed(h) && IsOp(h, a)
  {
    StepOf(m, h, st, a).0 ==> Known(m, dead, done + {a}, StepOf(m, h, st, a).1)
  }

  /** Every choice whose call comes before position `hi` has been explored. */
  ghost predicate Scanned<S(!new), V(!new)>(m: Model<S, V>, h: seq<Entry<V>>, dead: set<Pair<S>>, done: set<int>, st: S,
                                            hi: int)
    requires WellFormed(h)
  {
    forall a :: Enabled(h, done, a) && CallAt(h, a) < hi ==> Explored(m, h, dead, done, st, a)
  }

  /** Exhausted pairs are incomplete and lead only to exhausted pairs. */
  ghost predicate Closed<S(!new), V(!new)>(m: Model<S, V>, h: seq<Entry<V>>, dead: set<Pair<S>>)
    requires WellFormed(h)
  {
    forall p :: p in dead ==> Unfinished(h, p.done) && Scanned(m, h, dead, p.done, p.state, |h|)
  }

  ghost predicate Unfinished<V>(h: seq<Entry<V>>, done: set<int>) {
    exists id :: IsOp(h, id) && id !in done
  }

  // ----- the state of the search -----

  /** `states[k]` is the state after the first `k` operations of the current path. */
  ghost predicate PathOk<S(!new), V(!new)>(m: Model<S, V>, h: seq<Entry<V>>, path: seq<int>, states: seq<S>)
    requires WellFormed(h)
  {
    && |states| == |path| + 1
    && forall k :: 0 <= k <= |path| ==> After(m, h, path[..k]) == Some(states[k])
  }

  ghost predicate LevelOk<S(!new), V(!new)>(m: Model<S, V>, h: seq<Entry<V>>, dead: set<Pair<S>>, path: seq<int>,
                                            states: seq<S>, k: int)
    requires WellFormed(h) && 0 <= k < |path| && |states| == |path| + 1 && IsOp(h, path[k])
  {
    Scanned(m, h, dead, Ids(path[..k]), states[k], CallAt(h, path[k]))
  }

  /** The current entry is still in the list, and no return comes before it there. */
  ghost predicate FrontOk<V>(h: seq<Entry<V>>, done: set<int>, pos: int) {
    && 0 <= pos < |h| && h[pos].id !in done
    && forall j :: 0 <= j < pos && h[j].id !in done ==> !h[j].isReturn
  }

  ghost predicate SearchOk<S(!new), V(!new)>(m: Model<S, V>, h: seq<Entry<V>>, dead: set<Pair<S>>, path: seq<int>,
                                             states: seq<S>, pos: int)
    requires WellFormed(h)
  {
    && PathOk(m, h, path, states)
    && (forall x :: x in path ==> IsOp(h, x))
    && Closed(m, h, dead)
    && (forall k :: 0 <= k < |path| ==> LevelOk(m, h, dead, path, states, k))
    && (Unfinished(h, Ids(path)) ==> FrontOk(h, Ids(path), pos) && Scanned(m, h, dead, Ids(path), states[|path|], pos))
  }

  /** The pairs along the current path. */
  ghost function PathPairs<S(!new)>(path: seq<int>, states: seq<S>): set<Pair<S>>
    requires |states| == |path| + 1
  {
    set k | 1 <= k <= |path| :: Pair(Ids(path[..k]), states[k])
  }

  // ----- the position of the next entry -----

  /** The first position at or after `j` whose operation is not done, or the length. */
  ghost function LiveFrom<V>(h: seq<Entry<V>>, done: set<int>, j: int): (k: int)
    requires 0 <= j <= |h|
    ensures j <= k <= |h| && (k < |h| ==> h[k].id !in done)
    ensures forall i :: j <= i < k ==> h[i].id in done
    decreases |h| - j
  {
    if j == |h| || h[j].id !in done then j else LiveFrom(h, done, j + 1)
  }

  lemma LiveExists<V>(h: seq<Entry<V>>, done: set<int>, j: int, k: int)
    requires 0 <= j <= k < |h| && h[k].id !in done
    ensures LiveFrom(h, done, j) <= k
  {
  }

  /** The entry at the front, if a call, can be linearized next. */
  lemma FrontEnabled<V>(h: seq<Entry<V>>, done: set<int>, pos: int)
    requires WellFormed(h) && FrontOk(h, done, pos) && !h[pos].isReturn
    ensures Enabled(h, done, h[pos].id) && CallAt(h, h[pos].id) == pos
  {
    EntryPlace(h, pos);
  }

  /** A call in the list is followed by its return, so the scan never runs off the end. */
  lemma ScanStaysInList<V>(h: seq<Entry<V>>, done: set<int>, pos: int)
    requires WellFormed(h) && FrontOk(h, done, pos) && !h[pos].isReturn
    ensures LiveFrom(h, done, pos + 1) < |h| && FrontOk(h, done, LiveFrom(h, done, pos + 1))
  {
    EntryPlace(h, pos);
    LiveExists(h, done, pos + 1, ReturnAt(h, h[pos].id));
  }

  lemma FirstIsFront<V>(h: seq<Entry<V>>, done: set<int>)
    requires WellFormed(h) && Unfinished(h, done)
    ensures LiveFrom(h, done, 0) < |h| && FrontOk(h, done, LiveFrom(h, done, 0))
  {
    var id :| IsOp(h, id) && id !in done;
    LiveExists(h, done, 0, CallAt(h, id));
  }

  // ----- moves of the search -----

  /** Nothing is scanned yet below the first entry. */
  lemma ScannedFirst<S(!new), V(!new)>(m: Model<S, V>, h: seq<Entry<V>>, dead: set<Pair<S>>, done: set<int>, st: S)
    requires WellFormed(h)
    ensures Scanned(m, h, dead, done, st, LiveFrom(h, done, 0))
  {
  }

  lemma SearchStarts<S(!new), V(!new)>(m: Model<S, V>, h: seq<Entry<V>>)
    requires WellFormed(h)
    ensures SearchOk(m, h, {}, [], [m.init], LiveFrom(h, {}, 0))
  {
    ScannedFirst(m, h, {}, {}, m.init);
    if Unfinished(h, {}) {
      FirstIsFront(h, {});
    }
    assert Ids([]) == {};
  }

  /** The search moves past a call that cannot be linearized next or leads nowhere new. */
  lemma SearchSkips<S(!new), V(!new)>(m: Model<S, V>, h: seq<Entry<V>>, dead: set<Pair<S>>, path: seq<int>,
                                      states: seq<S>, pos: int)
    requires WellFormed(h) && SearchOk(m, h, dead, path, states, pos) && Unfinished(h, Ids(path))
    requires !h[pos].isReturn && IsOp(h, h[pos].id) && Explored(m, h, dead, Ids(path), states[|path|], h[pos].id)
    ensures SearchOk(m, h, dead, path, states, LiveFrom(h, Ids(path), pos + 1))
  {
    var next := LiveFrom(h, Ids(path), pos + 1);
    ScanStaysInList(h, Ids(path), pos);
    forall a | Enabled(h, Ids(path), a) && CallAt(h, a) < next
      ensures Explored(m, h, dead, Ids(path), states[|path|], a)
    {
      assert CallAt(h, a) <= pos;
    }
  }

  /** The search linearizes the call at the front. */
  lemma SearchPushes<S(!new), V(!new)>(m: Model<S, V>, h: seq<Entry<V>>, dead: set<Pair<S>>, path: seq<int>,
                                       states: seq<S>, pos: int)
    requires WellFormed(h) && SearchOk(m, h, dead, path, states, pos) && Unfinished(h, Ids(path))
    requires !h[pos].isReturn && IsOp(h, h[pos].id) && StepOf(m, h, states[|path|], h[pos].id).0
    ensures var a := h[pos].id;
            var path', states' := path + [a], states + [StepOf(m, h, states[|path|], a).1];
            SearchOk(m, h, dead, path', states', LiveFrom(h, Ids(path'), 0))
  {
    var a := h[pos].id;
    var path', states' := path + [a], states + [StepOf(m, h, states[|path|], a).1];
    FrontEnabled(h, Ids(path), pos);
    assert path[..|path|] == path;
    AfterStep(m, h, path, states[|path|], a);
    forall k | 0 <= k <= |path'| ensures After(m, h, path'[..k]) == Some(states'[k]) {
      assert k <= |path| ==> path'[..k] == path[..k];
      assert k == |path'| ==> path'[..k] == path';
    }
    forall k | 0 <= k < |path'| ensures LevelOk(m, h, dead, path', states', k) {
      assert path'[..k] == path[..k];
      assert k < |path| ==> LevelOk(m, h, dead, path, states, k);
    }
    ScannedFirst(m, h, dead, Ids(path'), states'[|path'|]);
    if Unfinished(h, Ids(path')) {
      FirstIsFront(h, Ids(path'));
    }
  }

  /** A return at the front: every choice at this level has been explored. */
  lemma FrontReturnExhausts<S(!new), V(!new)>(m: Model<S, V>, h: seq<Entry<V>>, dead: set<Pair<S>>, done: set<int>,
                                              st: S, pos: int)
    requires WellFormed(h) && FrontOk(h, done, pos) && h[pos].isReturn && Scanned(m, h, dead, done, st, pos)
    ensures Unfinished(h, done) && Scanned(m, h, dead, done, st, |h|)
  {
    EntryPlace(h, pos);
    forall a | Enabled(h, done, a) ensures CallAt(h, a) < pos {
    }
  }

  lemma ScannedMore<S(!new), V(!new)>(m: Model<S, V>, h: seq<Entry<V>>, dead: set<Pair<S>>, dead': set<Pair<S>>,
                                      done: set<int>, st: S, hi: int)
    requires WellFormed(h) && dead <= dead' && Scanned(m, h, dead, done, st, hi)
    ensures Scanned(m, h, dead', done, st, hi)
  {
    forall a | Enabled(h, done, a) && CallAt(h, a) < hi ensures Explored(m, h, dead', done, st, a) {
      assert Explored(m, h, dead, done, st, a);
    }
  }

  lemma ClosedMore<S(!new), V(!new)>(m: Model<S, V>, h: seq<Entry<V>>, dead: set<Pair<S>>, p: Pair<S>)
    requires WellFormed(h) && Closed(m, h, dead)
    requires Unfinished(h, p.done) && Scanned(m, h, dead, p.done, p.state, |h|)
    ensures Closed(m, h, dead + {p})
  {
    forall r | r in dead + {p} ensures Unfinished(h, r.done) && Scanned(m, h, dead + {p}, r.done, r.state, |h|) {
      ScannedMore(m, h, dead, dead + {p}, r.done, r.state, |h|);
    }
  }

  /** The search gives up the last operation of the path: its pair is exhausted. */
  lemma SearchPops<S(!new), V(!new)>(m: Model<S, V>, h: seq<Entry<V>>, dead: set<Pair<S>>, path: seq<int>,
                                     states: seq<S>, pos: int)
    requires WellFormed(h) && ProperEquality(m)
    requires SearchOk(m, h, dead, path, states, pos) && Unfinished(h, Ids(path)) && path != []
    requires h[pos].isReturn
    ensures var n := |path| - 1;
            var dead' := dead + {Pair(Ids(path), states[|path|])};
            SearchOk(m, h, dead', path[..n], states[..|path|], LiveFrom(h, Ids(path[..n]), CallAt(h, path[n]) + 1))
            && Unfinished(h, Ids(path[..n]))
  {
    hide Scanned, Closed, WellFormed, ProperEquality, FrontOk, After;
    var n, top := |path| - 1, Pair(Ids(path), states[|path|]);
    var below, dead' := path[..n], dead + {top};
    var states' := states[..|path|];
    FrontReturnExhausts(m, h, dead, Ids(path), states[|path|], pos);
    ClosedMore(m, h, dead, top);
    PoppedFront(m, h, path, states);
    PoppedScan(m, h, dead, path, states);
    assert PathOk(m, h, below, states') by {
      forall k | 0 <= k <= n ensures After(m, h, below[..k]) == Some(states'[k]) {
        assert below[..k] == path[..k];
      }
    }
    forall k | 0 <= k < n ensures LevelOk(m, h, dead', below, states', k) {
      assert below[..k] == path[..k] && LevelOk(m, h, dead, path, states, k);
      ScannedMore(m, h, dead, dead', Ids(path[..k]), states[k], CallAt(h, path[k]));
    }
  }

  /** Back at the level below, the popped call is live again and was enabled there. */
  lemma PoppedFront<S(!new), V(!new)>(m: Model<S, V>, h: seq<Entry<V>>, path: seq<int>, states: seq<S>)
    requires WellFormed(h) && PathOk(m, h, path, states) && path != []
    ensures var n := |path| - 1;
            && IsOp(h, path[n]) && Enabled(h, Ids(path[..n]), path[n]) && Unfinished(h, Ids(path[..n]))
            && StepOf(m, h, states[n], path[n]) == (true, states[|path|])
            && FrontOk(h, Ids(path[..n]), CallAt(h, path[n]))
            && FrontOk(h, Ids(path[..n]), LiveFrom(h, Ids(path[..n]), CallAt(h, path[n]) + 1))
  {
    var n := |path| - 1;
    assert path[..|path|] == path;
    assert After(m, h, path[..n]) == Some(states[n]) && After(m, h, path[..|path|]) == Some(states[|path|]);
    var done, c := Ids(path[..n]), CallAt(h, path[n]);
    assert FrontOk(h, done, c);
    ScanStaysInList(h, done, c);
  }

  lemma PoppedScan<S(!new), V(!new)>(m: Model<S, V>, h: seq<Entry<V>>, dead: set<Pair<S>>, path: seq<int>,
                                     states: seq<S>)
    requires WellFormed(h) && ProperEquality(m) && PathOk(m, h, path, states) && path != [] && IsOp(h, path[|path| - 1])
    requires LevelOk(m, h, dead, path, states, |path| - 1)
    ensures var n := |path| - 1;
            Scanned(m, h, dead + {Pair(Ids(path), states[|path|])}, Ids(path[..n]), states[n],
                    LiveFrom(h, Ids(path[..n]), CallAt(h, path[n]) + 1))
  {
    var n, top := |path| - 1, Pair(Ids(path), states[|path|]);
    var done, c, dead' := Ids(path[..n]), CallAt(h, path[n]), dead + {top};
    PoppedFront(m, h, path, states);
    ScannedMore(m, h, dead, dead', done, states[n], c);
    forall a | Enabled(h, done, a) && CallAt(h, a) < LiveFrom(h, done, c + 1)
      ensures Explored(m, h, dead', done, states[n], a)
    {
      if CallAt(h, a) >= c {
        assert CallAt(h, a) == c && a == path[n];
        assert path == path[..n] + [a];
        assert Ids(path) == done + {a};
        assert top in dead' && m.equal(states[|path|], top.state);
      }
    }
  }

  // ----- verdicts -----

  /** Once the bottom level is exhausted, every linearizable prefix ends in an exhausted pair. */
  lemma {:induction false} PrefixesExhausted<S(!new), V(!new)>(m: Model<S, V>, h: seq<Entry<V>>, dead: set<Pair<S>>,
                                                               q: seq<int>)
    requires WellFormed(h) && ProperEquality(m) && Closed(m, h, dead)
    requires Scanned(m, h, dead, {}, m.init, |h|)
    requires After(m, h, q).Some? && q != []
    ensures Known(m, dead, Ids(q), After(m, h, q).value)
    decreases |q|
  {
    var p, a := q[..|q| - 1], q[|q| - 1];
    assert q == p + [a];
    assert Ids(q) == Ids(p) + {a};
    var st := After(m, h, p).value;
    var (ok, st') := StepOf(m, h, st, a);
    if p == [] {
      assert Ids(p) == {};
      assert Explored(m, h, dead, {}, m.init, a);
    } else {
      PrefixesExhausted(m, h, dead, p);
      var r :| r in dead && r.done == Ids(p) && m.equal(st, r.state);
      assert Scanned(m, h, dead, r.done, r.state, |h|);
      assert Explored(m, h, dead, r.done, r.state, a);
      EqualSteps(m, h, st, r.state, a);
      var r' :| r' in dead && r'.done == Ids(q) && m.equal(StepOf(m, h, r.state, a).1, r'.state);
      EqualChain(m, st', StepOf(m, h, r.state, a).1, r'.state);
    }
  }

  lemma EqualSteps<S(!new), V(!new)>(m: Model<S, V>, h: seq<Entry<V>>, s: S, t: S, a: int)
    requires WellFormed(h) && ProperEquality(m) && IsOp(h, a) && m.equal(s, t)
    ensures StepOf(m, h, s, a).0 == StepOf(m, h, t, a).0 && m.equal(StepOf(m, h, s, a).1, StepOf(m, h, t, a).1)
  {
  }

  lemma EqualChain<S(!new), V(!new)>(m: Model<S, V>, s: S, t: S, u: S)
    requires ProperEquality(m) && m.equal(s, t) && m.equal(t, u)
    ensures m.equal(s, u)
  {
  }

  /** Completeness: an exhausted search means there is no linearization. */
  lemma ExhaustedMeansNone<S(!new), V(!new)>(m: Model<S, V>, h: seq<Entry<V>>, dead: set<Pair<S>>, pos: int)
    requires WellFormed(h) && ProperEquality(m)
    requires SearchOk(m, h, dead, [], [m.init], pos) && Unfinished(h, {}) && h[pos].isReturn
    ensures !HasLinearization(m, h)
    ensures Closed(m, h, dead) && Scanned(m, h, dead, {}, m.init, |h|)
  {
    assert Ids([]) == {};
    FrontReturnExhausts(m, h, dead, {}, m.init, pos);
    forall q | After(m, h, q).Some? ensures |q| != Count(h) {
      if q != [] {
        PrefixesExhausted(m, h, dead, q);
        AfterDistinct(m, h, q);
        var r :| r in dead && r.done == Ids(q) && m.equal(After(m, h, q).value, r.state);
        assert Unfinished(h, Ids(q));
        UnfinishedIsShort(h, Ids(q));
      } else {
        UnfinishedIsShort(h, {});
      }
    }
  }

  ghost predicate Below(x: int, n: int) {
    0 <= x < n
  }

  ghost function OpsBelow(n: int): set<int> {
    set x | 0 <= x < n && Below(x, n)
  }

  lemma {:induction false} OpsBelowSize(n: nat)
    ensures |OpsBelow(n)| == n
  {
    if n > 0 {
      OpsBelowSize(n - 1);
      assert forall x :: Below(x, n) <==> Below(x, n - 1) || x == n - 1;
      assert OpsBelow(n) == OpsBelow(n - 1) + {n - 1};
    } else {
      assert OpsBelow(0) == {};
    }
  }

  lemma UnfinishedIsShort<V>(h: seq<Entry<V>>, done: set<int>)
    requires Unfinished(h, done) && forall x :: x in done ==> IsOp(h, x)
    ensures |done| < Count(h)
  {
    var id :| IsOp(h, id) && id !in done;
    assert forall x :: x in done + {id} ==> IsOp(h, x) && Below(x, Count(h));
    SubsetSize(done + {id}, OpsBelow(Count(h)));
    OpsBelowSize(Count(h));
  }

  /** Soundness: with nothing left, the path is a linearization of every operation. */
  lemma FinishedIsLinearization<S(!new), V(!new)>(m: Model<S, V>, h: seq<Entry<V>>, path: seq<int>, states: seq<S>)
    requires WellFormed(h) && PathOk(m, h, path, states) && !Unfinished(h, Ids(path))
    ensures After(m, h, path).Some? && |path| == Count(h) && HasLinearization(m, h)
    ensures forall id :: IsOp(h, id) ==> id in path
  {
    assert path[..|path|] == path;
    AfterDistinct(m, h, path);
    assert Ids(path) == OpsBelow(Count(h)) by {
      forall id | id in OpsBelow(Count(h)) ensures id in Ids(path) {
        assert IsOp(h, id);
      }
    }
    OpsBelowSize(Count(h));
  }

  // ----- partial results -----

  /** A recorded prefix is linearizable and contains the operation it is recorded for. */
  ghost predicate LongestValid<S(!new), V(!new)>(m: Model<S, V>, h: seq<Entry<V>>, longest: seq<Option<seq<int>>>)
    requires WellFormed(h)
  {
    forall id :: 0 <= id < |longest| && longest[id].Some? ==>
      After(m, h, longest[id].value).Some? && id in longest[id].value
  }

  /** Every exhausted pair left its mark. */
  ghost predicate LongestCovers<S(!new)>(dead: set<Pair<S>>, longest: seq<Option<seq<int>>>) {
    forall p, id :: p in dead && id in p.done ==> Marked(longest, id, |p.done|)
  }

  /** A prefix of at least `n` operations is recorded for `id`. */
  ghost predicate Marked(longest: seq<Option<seq<int>>>, id: int, n: nat) {
    0 <= id < |longest| && longest[id].Some? && |longest[id].value| >= n
  }

  /** `longest[id]` is a longest linearizable prefix containing `id`; there is none if it is missing. */
  ghost predicate LongestOptimal<S(!new), V(!new)>(m: Model<S, V>, h: seq<Entry<V>>, longest: seq<Option<seq<int>>>)
    requires WellFormed(h)
  {
    && LongestValid(m, h, longest)
    && forall q, id :: After(m, h, q).Some? && id in q ==> Marked(longest, id, |q|)
  }

  lemma ExhaustedMeansOptimal<S(!new), V(!new)>(m: Model<S, V>, h: seq<Entry<V>>, dead: set<Pair<S>>,
                                                longest: seq<Option<seq<int>>>)
    requires WellFormed(h) && ProperEquality(m) && Closed(m, h, dead) && Scanned(m, h, dead, {}, m.init, |h|)
    requires LongestValid(m, h, longest) && LongestCovers(dead, longest)
    ensures LongestOptimal(m, h, longest)
  {
    hide After, Scanned, Closed, WellFormed, ProperEquality;
    forall q, id | After(m, h, q).Some? && id in q
      ensures Marked(longest, id, |q|)
    {
      PrefixesExhausted(m, h, dead, q);
      AfterDistinct(m, h, q);
      var r :| r in dead && r.done == Ids(q) && m.equal(After(m, h, q).value, r.state);
      assert id in r.done;
    }
  }

  lemma PrefixFits<S(!new), V(!new)>(m: Model<S, V>, h: seq<Entry<V>>, q: seq<int>)
    requires WellFormed(h) && After(m, h, q).Some?
    ensures |q| <= Count(h) && forall x :: x in q ==> IsOp(h, x)
  {
    AfterDistinct(m, h, q);
    assert forall x :: x in Ids(q) ==> IsOp(h, x) && Below(x, Count(h));
    SubsetSize(Ids(q), OpsBelow(Count(h)));
    OpsBelowSize(Count(h));
  }

  lemma FinishedMeansOptimal<S(!new), V(!new)>(m: Model<S, V>, h: seq<Entry<V>>, path: seq<int>,
                                               longest: seq<Option<seq<int>>>)
    requires WellFormed(h) && After(m, h, path).Some? && |path| == Count(h)
    requires forall id :: IsOp(h, id) ==> id in path
    requires |longest| == Count(h) && forall id :: 0 <= id < |longest| ==> longest[id] == Some(path)
    ensures LongestOptimal(m, h, longest)
  {
    forall q, id | After(m, h, q).Some? && id in q
      ensures Marked(longest, id, |q|)
    {
      PrefixFits(m, h, q);
    }
  }

  // ----- termination -----

  /** The pairs reachable in at most `k` steps: finitely many. */
  ghost function Reachable<S(!new), V(!new)>(m: Model<S, V>, h: seq<Entry<V>>, k: nat): set<Pair<S>>
    requires WellFormed(h)
  {
    if k == 0 then {Pair({}, m.init)}
    else
      Reachable(m, h, k - 1)
      + (set p, a | p in Reachable(m, h, k - 1) && 0 <= a < Count(h) && IsOp(h, a) ::
           Pair(p.done + {a}, StepOf(m, h, p.state, a).1))
  }

  lemma NothingReachable<S(!new), V(!new)>(m: Model<S, V>, h: seq<Entry<V>>)
    requires WellFormed(h)
    ensures Pair({}, m.init) in Reachable(m, h, 0)
  {
  }

  lemma NextReachable<S(!new), V(!new)>(m: Model<S, V>, h: seq<Entry<V>>, p: Pair<S>, a: int, k: nat)
    requires WellFormed(h) && IsOp(h, a) && k > 0 && p in Reachable(m, h, k - 1)
    ensures Pair(p.done + {a}, StepOf(m, h, p.state, a).1) in Reachable(m, h, k)
  {
    assert 0 <= a < Count(h);
  }

  lemma {:induction false} AfterReachable<S(!new), V(!new)>(m: Model<S, V>, h: seq<Entry<V>>, q: seq<int>)
    requires WellFormed(h) && After(m, h, q).Some?
    ensures Pair(Ids(q), After(m, h, q).value) in Reachable(m, h, |q|)
    decreases |q|
  {
    hide Reachable;
    if q == [] {
      assert Ids(q) == {};
      NothingReachable(m, h);
    } else {
      var p, a := q[..|q| - 1], q[|q| - 1];
      AfterReachable(m, h, p);
      assert q == p + [a];
      assert Ids(q) == Ids(p) + {a};
      var r := Pair(Ids(p), After(m, h, p).value);
      assert After(m, h, q) == Some(StepOf(m, h, r.state, a).1);
      hide After, WellFormed;
      NextReachable(m, h, r, a, |q|);
    }
  }

  lemma ReachableStep<S(!new), V(!new)>(m: Model<S, V>, h: seq<Entry<V>>, k: nat)
    requires WellFormed(h) && k > 0
    ensures Reachable(m, h, k - 1) <= Reachable(m, h, k)
  {
  }

  lemma {:induction false} ReachableGrows<S(!new), V(!new)>(m: Model<S, V>, h: seq<Entry<V>>, j: nat, k: nat)
    requires WellFormed(h) && j <= k
    ensures Reachable(m, h, j) <= Reachable(m, h, k)
    decreases k
  {
    hide Reachable, WellFormed;
    if j < k {
      ReachableGrows(m, h, j, k - 1);
      ReachableStep(m, h, k);
    }
  }

  /** Everything the search can ever cache. */
  ghost function Universe<S(!new), V(!new)>(m: Model<S, V>, h: seq<Entry<V>>): set<Pair<S>>
    requires WellFormed(h)
  {
    Reachable(m, h, Count(h))
  }

  lemma InUniverse<S(!new), V(!new)>(m: Model<S, V>, h: seq<Entry<V>>, q: seq<int>)
    requires WellFormed(h) && After(m, h, q).Some?
    ensures Pair(Ids(q), After(m, h, q).value) in Universe(m, h)
  {
    AfterReachable(m, h, q);
    PrefixFits(m, h, q);
    hide After, Reachable;
    ReachableGrows(m, h, |q|, Count(h));
  }
}
