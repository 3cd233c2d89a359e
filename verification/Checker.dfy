/** The checker itself: depth-first search over the linked list, with a bitset of linearized
    operations and a cache of (bitset, state) pairs bucketed by hash. */
module Checker {
  import opened Options
  import opened Linearizability
  import opened Search
  import opened NodeList
  import opened Bitset

  datatype CacheEntry<+S> = CacheEntry(linearized: seq<bv64>, state: S)

  type Cache<S> = map<HashCode, seq<CacheEntry<S>>>

  // ----- the cache -----

  ghost function PairOf<S>(e: CacheEntry<S>): Pair<S> {
    Pair(Elements(e.linearized), e.state)
  }

  /** The pairs in the cache, buckets forgotten. */
  ghost function Pairs<S(!new)>(cache: Cache<S>): set<Pair<S>> {
    set k, i | k in cache && 0 <= i < |cache[k]| :: PairOf(cache[k][i])
  }

  /** Entries sit in the bucket of their hash and have the same number of words. */
  ghost predicate CacheOk<S>(cache: Cache<S>, words: nat) {
    forall k, i :: k in cache && 0 <= i < |cache[k]| ==>
      HashOf(cache[k][i].linearized) == k && |cache[k][i].linearized| == words
  }

  function Bucket<S>(cache: Cache<S>, k: HashCode): seq<CacheEntry<S>> {
    if k in cache then cache[k] else []
  }

  /** Buckets never hide a pair: the answer depends on sets and states only. */
  method CacheContains<S(!new), V(!new)>(m: Model<S, V>, cache: Cache<S>, hash: HashCode, e: CacheEntry<S>)
    returns (found: bool)
    requires CacheOk(cache, |e.linearized|) && hash == HashOf(e.linearized)
    ensures found <==> Known(m, Pairs(cache), Elements(e.linearized), e.state)
  {
    hide HashOf, Elements;
    var bucket := Bucket(cache, hash);
    var i := 0;
    while i < |bucket|
      invariant 0 <= i <= |bucket|
      invariant forall j :: 0 <= j < i ==> !(bucket[j].linearized == e.linearized && m.equal(e.state, bucket[j].state))
    {
      var same := Equals(e.linearized, bucket[i].linearized);
      if same && m.equal(e.state, bucket[i].state) {
        FoundIsKnown(m, cache, hash, e, i);
        return true;
      }
      i := i + 1;
    }
    MissIsUnknown(m, cache, hash, e);
    found := false;
  }

  lemma FoundIsKnown<S(!new), V(!new)>(m: Model<S, V>, cache: Cache<S>, hash: HashCode, e: CacheEntry<S>, i: int)
    requires hash in cache && 0 <= i < |cache[hash]|
    requires cache[hash][i].linearized == e.linearized && m.equal(e.state, cache[hash][i].state)
    ensures Known(m, Pairs(cache), Elements(e.linearized), e.state)
  {
    hide Elements;
    assert PairOf(cache[hash][i]) in Pairs(cache);
  }

  lemma MissIsUnknown<S(!new), V(!new)>(m: Model<S, V>, cache: Cache<S>, hash: HashCode, e: CacheEntry<S>)
    requires CacheOk(cache, |e.linearized|) && hash == HashOf(e.linearized)
    requires forall j :: 0 <= j < |Bucket(cache, hash)| ==>
               !(Bucket(cache, hash)[j].linearized == e.linearized && m.equal(e.state, Bucket(cache, hash)[j].state))
    ensures !Known(m, Pairs(cache), Elements(e.linearized), e.state)
  {
    hide HashOf, Elements;
    forall p | p in Pairs(cache) && p.done == Elements(e.linearized) ensures !m.equal(e.state, p.state) {
      var k, i :| k in cache && 0 <= i < |cache[k]| && p == PairOf(cache[k][i]);
      SameElements(cache[k][i].linearized, e.linearized);
      assert Bucket(cache, k)[i] == cache[k][i];
      assert cache[k][i].linearized == e.linearized ==> k == hash;
    }
  }

  function Insert<S>(cache: Cache<S>, hash: HashCode, e: CacheEntry<S>): Cache<S> {
    cache[hash := Bucket(cache, hash) + [e]]
  }

  lemma Inserting<S(!new)>(cache: Cache<S>, hash: HashCode, e: CacheEntry<S>, words: nat)
    requires CacheOk(cache, words) && hash == HashOf(e.linearized) && |e.linearized| == words
    ensures CacheOk(Insert(cache, hash, e), words)
    ensures Pairs(Insert(cache, hash, e)) == Pairs(cache) + {PairOf(e)}
  {
    hide HashOf, Elements;
    var cache', b := Insert(cache, hash, e), Bucket(cache, hash);
    forall k, i | k in cache' && 0 <= i < |cache'[k]|
      ensures || (k == hash && i == |b| && cache'[k][i] == e)
              || (k in cache && i < |cache[k]| && cache'[k][i] == cache[k][i])
    {
      if k == hash && i < |b| {
        assert b == cache[hash];
      }
    }
    forall p | p in Pairs(cache) + {PairOf(e)} ensures p in Pairs(cache') {
      if p in Pairs(cache) {
        var k, i :| k in cache && 0 <= i < |cache[k]| && p == PairOf(cache[k][i]);
        assert k in cache' && cache'[k][i] == cache[k][i];
      } else {
        assert cache'[hash][|b|] == e;
      }
    }
    forall p | p in Pairs(cache') ensures p in Pairs(cache) + {PairOf(e)} {
      var k, i :| k in cache' && 0 <= i < |cache'[k]| && p == PairOf(cache'[k][i]);
    }
  }

  // ----- facts about the path -----

  lemma PathPairsMore<S(!new)>(path: seq<int>, states: seq<S>, a: int, st: S)
    requires |states| == |path| + 1
    ensures PathPairs(path + [a], states + [st]) == PathPairs(path, states) + {Pair(Ids(path + [a]), st)}
  {
    var path', states' := path + [a], states + [st];
    forall k | 1 <= k <= |path| ensures Pair(Ids(path'[..k]), states'[k]) == Pair(Ids(path[..k]), states[k]) {
      assert path'[..k] == path[..k];
    }
    assert path'[..|path'|] == path';
    forall p | p in PathPairs(path, states) + {Pair(Ids(path'), st)} ensures p in PathPairs(path', states') {
      if p in PathPairs(path, states) {
        var k :| 1 <= k <= |path| && p == Pair(Ids(path[..k]), states[k]);
        assert p == Pair(Ids(path'[..k]), states'[k]);
      } else {
        assert p == Pair(Ids(path'[..|path'|]), states'[|path'|]);
      }
    }
  }

  /** The pair of a longer prefix is not on the path. */
  lemma NotOnPath<S(!new), V(!new)>(m: Model<S, V>, h: seq<Entry<V>>, path: seq<int>, states: seq<S>, a: int,
                                    p: Pair<S>)
    requires WellFormed(h) && PathOk(m, h, path, states) && a !in path && p in PathPairs(path, states)
    ensures p.done != Ids(path + [a])
  {
    var k :| 1 <= k <= |path| && p == Pair(Ids(path[..k]), states[k]);
    assert a in path + [a];
    assert a in Ids(path + [a]);
    assert a !in Ids(path[..k]);
  }

  lemma PathDistinct<S(!new), V(!new)>(m: Model<S, V>, h: seq<Entry<V>>, path: seq<int>, states: seq<S>)
    requires WellFormed(h) && PathOk(m, h, path, states)
    ensures |Ids(path)| == |path| && forall i, j :: 0 <= i < j < |path| ==> path[i] != path[j]
  {
    assert path[..|path|] == path;
    AfterDistinct(m, h, path);
  }

  lemma KnownIsDead<S(!new), V(!new)>(m: Model<S, V>, h: seq<Entry<V>>, dead: set<Pair<S>>, path: seq<int>,
                                      states: seq<S>, a: int, st: S)
    requires WellFormed(h) && PathOk(m, h, path, states) && a !in path
    requires Known(m, dead + PathPairs(path, states), Ids(path + [a]), st)
    ensures Known(m, dead, Ids(path + [a]), st)
  {
    hide WellFormed, After;
    var p :| p in dead + PathPairs(path, states) && p.done == Ids(path + [a]) && m.equal(st, p.state);
    if p in PathPairs(path, states) {
      NotOnPath(m, h, path, states, a, p);
    }
    assert p in dead;
  }

  lemma IdsMore(path: seq<int>, a: int)
    ensures Ids(path + [a]) == Ids(path) + {a}
  {
  }

  // ----- the search -----

  datatype CallsEntry<S, V> = CallsEntry(entry: Node<V>, state: S)

  /** Everything one run of the checker holds, with the list and the bitset as values, and what
      the proof knows beside it: the path, its states, the exhausted pairs and the position. */
  datatype Snap<!S(!new), !V(!new)> = Snap(
    m: Model<S, V>,
    computePartial: bool,
    l: Layout<V>,
    ls: Links<V>,
    words: seq<bv64>,
    entry: Node?<V>,
    cache: Cache<S>,
    calls: seq<CallsEntry<S, V>>,
    state: S,
    longest: seq<Option<seq<int>>>,
    path: seq<int>,
    states: seq<S>,
    ghost dead: set<Pair<S>>,
    pos: int)
  {
    /** The list holds what is not linearized, and the bitset what is. */
    ghost predicate ListOk() {
      && Holds(l, ls, path)
      && Elements(words) == Ids(path) && Count(l.h) <= 64 * |words|
    }

    ghost predicate CallOk(k: int)
      requires l.Ok() && 0 <= k < |path| && |calls| == |path| && |states| == |path| + 1
    {
      && IsOp(l.h, path[k])
      && calls[k].entry == l.nodes[CallAt(l.h, path[k])] && calls[k].entry.id == path[k]
      && calls[k].state == states[k]
    }

    ghost predicate StackOk()
      requires l.Ok()
    {
      && |calls| == |path| && |states| == |path| + 1 && state == states[|path|]
      && forall k :: 0 <= k < |path| ==> CallOk(k)
    }

    ghost predicate MemoOk()
      requires |states| == |path| + 1
    {
      CacheOk(cache, |words|) && Pairs(cache) == dead + PathPairs(path, states)
    }

    ghost predicate LongestOk()
      requires l.Ok()
    {
      && |longest| == Count(l.h)
      && LongestValid(m, l.h, longest)
      && (computePartial ==> LongestCovers(dead, longest))
    }

    /** Something is left, and the current entry is where the search is. */
    ghost predicate AtEntry() {
      Unfinished(l.h, Ids(path)) ==> 0 <= pos < |l.h| && |l.nodes| == |l.h| && entry == l.nodes[pos]
    }

    ghost predicate Ok() {
      && ProperEquality(m)
      && ListOk()
      && SearchOk(m, l.h, dead, path, states, pos)
      && StackOk()
      && MemoOk()
      && LongestOk()
      && AtEntry()
    }

    /** The search stands at a call, or at a return. */
    ghost predicate AtCall() {
      Unfinished(l.h, Ids(path)) && 0 <= pos < |l.h| && !l.h[pos].isReturn
    }

    ghost predicate AtReturn() {
      Unfinished(l.h, Ids(path)) && 0 <= pos < |l.h| && l.h[pos].isReturn
    }
  }

  // ----- reading the list -----

  /** The sentinel's successor is the first entry not done. */
  lemma HeadShows<V>(l: Layout<V>, ls: Links<V>, path: seq<int>)
    requires Holds(l, ls, path)
    ensures ls.next[0] == l.At(LiveFrom(l.h, Ids(path), 0))
    ensures LiveFrom(l.h, Ids(path), 0) < |l.h| <==> Unfinished(l.h, Ids(path))
  {
    var done := Ids(path);
    assert -1 !in OutOf(l.h, done);
    NextIsLive'(l.h, done);
    assert ls.next[-1 + 1] == l.At(NextIn(OutOf(l.h, done), -1, |l.h|));
    var first := LiveFrom(l.h, done, 0);
    if first < |l.h| {
      assert IsOp(l.h, l.h[first].id);
    }
    if Unfinished(l.h, done) {
      FirstIsFront(l.h, done);
    }
  }

  lemma NextIsLive'<V>(h: seq<Entry<V>>, done: set<int>)
    ensures NextIn(OutOf(h, done), -1, |h|) == LiveFrom(h, done, 0)
  {
    NextIsLive(h, done, -1);
  }

  lemma NextShows<V>(l: Layout<V>, ls: Links<V>, path: seq<int>, pos: int)
    requires Holds(l, ls, path) && FrontOk(l.h, Ids(path), pos)
    ensures ls.next[pos + 1] == l.At(LiveFrom(l.h, Ids(path), pos + 1))
  {
    NextIsLive(l.h, Ids(path), pos);
    assert pos !in OutOf(l.h, Ids(path));
  }

  lemma FrontOf<S(!new), V(!new)>(s: Snap<S, V>)
    requires s.Ok() && Unfinished(s.l.h, Ids(s.path))
    ensures FrontOk(s.l.h, Ids(s.path), s.pos) && s.entry == s.l.nodes[s.pos]
    ensures s.entry.partner == null <==> s.l.h[s.pos].isReturn
    ensures IsOp(s.l.h, s.l.h[s.pos].id) && s.entry.id == s.l.h[s.pos].id
  {
    assert s.l.NodeOk(s.pos);
  }

  lemma StackKept<S(!new), V(!new)>(s: Snap<S, V>, s': Snap<S, V>)
    requires s.l.Ok() && s.StackOk() && s'.l == s.l
    requires s'.calls == s.calls && s'.path == s.path && s'.states == s.states && s'.state == s.state
    ensures s'.StackOk()
  {
    forall k | 0 <= k < |s.path| ensures s'.CallOk(k) {
      assert s.CallOk(k);
    }
  }

  // ----- stepping over an entry -----

  lemma SkipOk<S(!new), V(!new)>(s: Snap<S, V>)
    requires s.Ok() && s.AtCall() && IsOp(s.l.h, s.l.h[s.pos].id)
    requires Explored(s.m, s.l.h, s.dead, Ids(s.path), s.state, s.l.h[s.pos].id)
    ensures var next := LiveFrom(s.l.h, Ids(s.path), s.pos + 1);
            && s.pos < next < |s.l.h|
            && s.ls.next[s.pos + 1] == s.l.nodes[next]
            && s.(pos := next, entry := s.l.nodes[next]).Ok()
  {
    hide ProperEquality, WellFormed, Scanned, Closed, CacheOk, Pairs, PathOk, LevelOk, Restorable, LinkedBy, Explored;
    hide LongestValid, LongestCovers;
    FrontOf(s);
    SearchSkips(s.m, s.l.h, s.dead, s.path, s.states, s.pos);
    ScanStaysInList(s.l.h, Ids(s.path), s.pos);
    NextShows(s.l, s.ls, s.path, s.pos);
    var next := LiveFrom(s.l.h, Ids(s.path), s.pos + 1);
    StackKept(s, s.(pos := next, entry := s.l.nodes[next]));
  }

  /** A call that cannot be next, or whose pair is cached, is explored. */
  lemma FailedIsExplored<S(!new), V(!new)>(s: Snap<S, V>, a: int)
    requires s.Ok() && s.AtCall() && a == s.l.h[s.pos].id && IsOp(s.l.h, a)
    requires StepOf(s.m, s.l.h, s.state, a).0 ==>
               Known(s.m, Pairs(s.cache), Ids(s.path) + {a}, StepOf(s.m, s.l.h, s.state, a).1)
    ensures Explored(s.m, s.l.h, s.dead, Ids(s.path), s.state, a)
  {
    hide ProperEquality, WellFormed, Scanned, Closed, CacheOk, Pairs, LevelOk, Restorable, After;
    FrontOf(s);
    assert a !in s.path;
    if StepOf(s.m, s.l.h, s.state, a).0 {
      IdsMore(s.path, a);
      KnownIsDead(s.m, s.l.h, s.dead, s.path, s.states, a, StepOf(s.m, s.l.h, s.state, a).1);
    }
  }

  // ----- linearizing an operation -----

  /** The checker after it pushed the current call. */
  ghost function Pushed<S(!new), V(!new)>(s: Snap<S, V>, words: seq<bv64>): Snap<S, V>
    requires s.l.Ok() && Sized(s.l, s.ls) && s.AtCall() && IsOp(s.l.h, s.l.h[s.pos].id) && s.entry != null
  {
    var a := s.l.h[s.pos].id;
    var st := StepOf(s.m, s.l.h, s.state, a).1;
    var path' := s.path + [a];
    var next := LiveFrom(s.l.h, Ids(path'), 0);
    s.(ls := Lifted(s.l, s.ls, s.path, a),
    words := words,
    entry := s.l.At(next),
    cache := Insert(s.cache, HashOf(words), CacheEntry(words, st)),
    calls := s.calls + [CallsEntry(s.entry, s.state)],
    state := st,
    path := path',
    states := s.states + [st],
    pos := next)
  }

  lemma PushedList<S(!new), V(!new)>(s: Snap<S, V>, words: seq<bv64>)
    requires s.Ok() && s.AtCall() && IsOp(s.l.h, s.l.h[s.pos].id) && s.entry != null
    requires |words| == |s.words| && Elements(words) == Elements(s.words) + {s.l.h[s.pos].id}
    ensures Pushed(s, words).ListOk() && Pushed(s, words).AtEntry()
  {
    hide ProperEquality, WellFormed, SearchOk, Restorable, LinkedBy, Lifted, Elements;
    var a := s.l.h[s.pos].id;
    FrontOf(s);
    assert a !in s.path;
    LiftHolds(s.l, s.ls, s.path, a);
    IdsMore(s.path, a);
    HeadShows(s.l, Lifted(s.l, s.ls, s.path, a), s.path + [a]);
  }

  lemma PushedStack<S(!new), V(!new)>(s: Snap<S, V>, words: seq<bv64>)
    requires s.Ok() && s.AtCall() && IsOp(s.l.h, s.l.h[s.pos].id) && s.entry != null
    ensures Pushed(s, words).StackOk()
  {
    hide ProperEquality, WellFormed, SearchOk, LinkedBy, Restorable, Lifted, Insert;
    FrontOf(s);
    EntryPlace(s.l.h, s.pos);
    var s' := Pushed(s, words);
    forall k | 0 <= k < |s'.path| ensures s'.CallOk(k) {
      if k < |s.path| {
        assert s.CallOk(k);
      }
    }
  }

  lemma PushedMemo<S(!new), V(!new)>(s: Snap<S, V>, words: seq<bv64>)
    requires s.Ok() && s.AtCall() && IsOp(s.l.h, s.l.h[s.pos].id) && s.entry != null
    requires |words| == |s.words| && Elements(words) == Elements(s.words) + {s.l.h[s.pos].id}
    ensures var s' := Pushed(s, words);
            s'.MemoOk() && Pairs(s'.cache) == Pairs(s.cache) + {Pair(Ids(s.path) + {s.l.h[s.pos].id}, s'.state)}
  {
    hide ProperEquality, WellFormed, SearchOk, LinkedBy, Restorable, Lifted, Elements, HashOf, CacheOk, Pairs;
    var a, s' := s.l.h[s.pos].id, Pushed(s, words);
    var e := CacheEntry(words, s'.state);
    Inserting(s.cache, HashOf(words), e, |words|);
    IdsMore(s.path, a);
    PathPairsMore(s.path, s.states, a, s'.state);
    assert PairOf(e) == Pair(Ids(s.path + [a]), s'.state);
  }

  lemma PushOk<S(!new), V(!new)>(s: Snap<S, V>, words: seq<bv64>)
    requires s.Ok() && s.AtCall() && IsOp(s.l.h, s.l.h[s.pos].id) && s.entry != null
    requires |words| == |s.words| && Elements(words) == Elements(s.words) + {s.l.h[s.pos].id}
    requires StepOf(s.m, s.l.h, s.state, s.l.h[s.pos].id).0
    ensures Pushed(s, words).Ok()
  {
    hide ProperEquality, WellFormed, LinkedBy, Restorable, Lifted, Elements, HashOf, CacheOk, Pairs, Insert, Scanned;
    hide Closed, LevelOk, PathOk, LongestValid, LongestCovers;
    PushedList(s, words);
    PushedStack(s, words);
    PushedMemo(s, words);
    hide Snap.ListOk, Snap.StackOk, Snap.MemoOk, Snap.AtEntry;
    PushedSearch(s, words);
  }

  lemma PushedSearch<S(!new), V(!new)>(s: Snap<S, V>, words: seq<bv64>)
    requires s.Ok() && s.AtCall() && IsOp(s.l.h, s.l.h[s.pos].id) && s.entry != null
    requires StepOf(s.m, s.l.h, s.state, s.l.h[s.pos].id).0
    ensures var s' := Pushed(s, words);
            s'.l.Ok() && SearchOk(s'.m, s'.l.h, s'.dead, s'.path, s'.states, s'.pos) && s'.LongestOk()
  {
    hide ProperEquality, WellFormed, LinkedBy, Restorable, Lifted, Elements, HashOf, CacheOk, Pairs, Insert, SearchOk;
    SearchPushes(s.m, s.l.h, s.dead, s.path, s.states, s.pos);
  }

  /** A new pair is one of the finitely many reachable ones. */
  lemma PushedFits<S(!new), V(!new)>(s: Snap<S, V>)
    requires s.l.Ok() && SearchOk(s.m, s.l.h, s.dead, s.path, s.states, s.pos) && s.StackOk()
    ensures Pair(Ids(s.path), s.state) in Universe(s.m, s.l.h)
  {
    hide WellFormed, Scanned, Closed, LevelOk, Universe;
    assert s.path[..|s.path|] == s.path;
    assert After(s.m, s.l.h, s.path) == Some(s.state);
    InUniverse(s.m, s.l.h, s.path);
  }

  // ----- giving an operation up -----

  /** The checker after it popped the last call. */
  ghost function Popped<S(!new), V(!new)>(s: Snap<S, V>, words: seq<bv64>, longest: seq<Option<seq<int>>>): Snap<S, V>
    requires s.l.Ok() && Sized(s.l, s.ls) && s.path != [] && s.StackOk()
  {
    var n := |s.path| - 1;
    assert s.CallOk(n);
    var a, path' := s.path[n], s.path[..n];
    var next := LiveFrom(s.l.h, Ids(path'), CallAt(s.l.h, a) + 1);
    s.(ls := Unlifted(s.l, s.ls, path', a),
    words := words,
    entry := s.l.At(next),
    calls := s.calls[..n],
    state := s.states[n],
    longest := longest,
    path := path',
    states := s.states[..|s.path|],
    dead := s.dead + {Pair(Ids(s.path), s.state)},
    pos := next)
  }

  /** The last operation is not elsewhere on the path. */
  lemma LastOnce<S(!new), V(!new)>(s: Snap<S, V>)
    requires s.Ok() && s.path != []
    ensures var n := |s.path| - 1;
            && s.path == s.path[..n] + [s.path[n]] && s.path[n] !in s.path[..n]
            && Ids(s.path[..n]) == Ids(s.path) - {s.path[n]}
            && |Ids(s.path)| == |s.path|
  {
    hide ProperEquality, WellFormed, Scanned, Closed, LevelOk, After, LinkedBy, Restorable;
    PathDistinct(s.m, s.l.h, s.path, s.states);
    var n := |s.path| - 1;
    var path', a := s.path[..n], s.path[n];
    assert s.path == path' + [a];
    IdsMore(path', a);
    assert a !in path';
  }

  lemma PoppedList<S(!new), V(!new)>(s: Snap<S, V>, words: seq<bv64>, longest: seq<Option<seq<int>>>)
    requires s.Ok() && s.path != []
    requires |words| == |s.words| && Elements(words) == Elements(s.words) - {s.path[|s.path| - 1]}
    ensures Popped(s, words, longest).ListOk()
  {
    hide ProperEquality, WellFormed, SearchOk, LinkedBy, Restorable, Unlifted, Elements;
    LastOnce(s);
    var n := |s.path| - 1;
    UnliftHolds(s.l, s.ls, s.path[..n], s.path[n]);
  }

  lemma PoppedStack<S(!new), V(!new)>(s: Snap<S, V>, words: seq<bv64>, longest: seq<Option<seq<int>>>)
    requires s.Ok() && s.path != []
    ensures Popped(s, words, longest).StackOk()
  {
    hide ProperEquality, WellFormed, SearchOk, LinkedBy, Restorable, Unlifted;
    var s' := Popped(s, words, longest);
    forall k | 0 <= k < |s'.path| ensures s'.CallOk(k) {
      assert s.CallOk(k);
    }
  }

  lemma PoppedMemo<S(!new), V(!new)>(s: Snap<S, V>, words: seq<bv64>, longest: seq<Option<seq<int>>>)
    requires s.Ok() && s.path != [] && |words| == |s.words|
    ensures Popped(s, words, longest).MemoOk()
  {
    hide ProperEquality, WellFormed, SearchOk, LinkedBy, Restorable, Unlifted, CacheOk, Pairs;
    LastOnce(s);
    var n := |s.path| - 1;
    var path', states' := s.path[..n], s.states[..|s.path|];
    assert s.states == states' + [s.state];
    PathPairsMore(path', states', s.path[n], s.state);
  }

  lemma PoppedSearch<S(!new), V(!new)>(s: Snap<S, V>, words: seq<bv64>, longest: seq<Option<seq<int>>>)
    requires s.Ok() && s.path != [] && s.AtReturn()
    ensures var s' := Popped(s, words, longest);
            && SearchOk(s'.m, s'.l.h, s'.dead, s'.path, s'.states, s'.pos)
            && s'.AtEntry() && Unfinished(s'.l.h, Ids(s'.path))
  {
    hide ProperEquality, WellFormed, LinkedBy, Restorable, Unlifted, CacheOk, Pairs, Scanned, Closed, LevelOk, PathOk;
    SearchPops(s.m, s.l.h, s.dead, s.path, s.states, s.pos);
    var s' := Popped(s, words, longest);
    assert FrontOk(s'.l.h, Ids(s'.path), s'.pos);
  }

  /** Every operation on the path has a prefix recorded at least as long as the path. */
  ghost predicate PathMarked(path: seq<int>, longest: seq<Option<seq<int>>>) {
    forall id :: id in path ==> Marked(longest, id, |path|)
  }

  ghost predicate MarksKept(longest: seq<Option<seq<int>>>, longest': seq<Option<seq<int>>>) {
    forall id, n: nat :: Marked(longest, id, n) ==> Marked(longest', id, n)
  }

  lemma PoppedLongest<S(!new), V(!new)>(s: Snap<S, V>, words: seq<bv64>, longest: seq<Option<seq<int>>>)
    requires s.Ok() && s.path != []
    requires |longest| == |s.longest| && LongestValid(s.m, s.l.h, longest)
    requires s.computePartial ==> PathMarked(s.path, longest) && MarksKept(s.longest, longest)
    ensures Popped(s, words, longest).LongestOk()
  {
    hide ProperEquality, WellFormed, SearchOk, LinkedBy, Restorable, Unlifted, CacheOk, Pairs, LongestValid, Marked;
    LastOnce(s);
    var top := Pair(Ids(s.path), s.state);
    if s.computePartial {
      forall p, id | p in s.dead + {top} && id in p.done ensures Marked(longest, id, |p.done|) {
        if p in s.dead {
          assert Marked(s.longest, id, |p.done|);
        } else {
          assert id in s.path;
        }
      }
    }
  }

  lemma PopOk<S(!new), V(!new)>(s: Snap<S, V>, words: seq<bv64>, longest: seq<Option<seq<int>>>)
    requires s.Ok() && s.path != [] && s.AtReturn()
    requires |words| == |s.words| && Elements(words) == Elements(s.words) - {s.path[|s.path| - 1]}
    requires |longest| == |s.longest| && LongestValid(s.m, s.l.h, longest)
    requires s.computePartial ==> PathMarked(s.path, longest) && MarksKept(s.longest, longest)
    ensures Popped(s, words, longest).Ok() && Unfinished(s.l.h, Ids(s.path[..|s.path| - 1]))
  {
    hide ProperEquality, WellFormed, SearchOk, LinkedBy, Restorable, Unlifted, CacheOk, Pairs, Elements, LongestValid;
    hide PathMarked, MarksKept;
    PoppedList(s, words, longest);
    PoppedStack(s, words, longest);
    PoppedMemo(s, words, longest);
    PoppedSearch(s, words, longest);
    PoppedLongest(s, words, longest);
    hide Snap.ListOk, Snap.StackOk, Snap.MemoOk, Snap.AtEntry, Snap.LongestOk;
  }

  // ----- the run -----

  /** The snapshot agrees with the list and the bitset on the heap. */
  ghost predicate Shows<S(!new), V(!new)>(s: Snap<S, V>, linearized: Bitset)
    reads s.l.head, s.l.nodes, linearized.data
  {
    |s.l.nodes| == |s.l.h| && s.ls == LinksOf(s.l) && s.words == linearized.data[..]
  }

  lemma StartOk<S(!new), V(!new)>(s: Snap<S, V>)
    requires ProperEquality(s.m) && Holds(s.l, s.ls, []) && Elements(s.words) == {} && Count(s.l.h) <= 64 * |s.words|
    requires s.entry == (if s.l.h == [] then null else s.l.nodes[0]) && s.cache == map[] && s.calls == []
    requires s.state == s.m.init
    requires s.longest == seq(Count(s.l.h), _ => None)
    requires s.path == [] && s.states == [s.m.init] && s.dead == {} && s.pos == LiveFrom(s.l.h, {}, 0)
    ensures s.Ok()
  {
    hide ProperEquality, WellFormed, SearchOk, LinkedBy, Restorable, Elements, CacheOk;
    assert Ids([]) == {};
    SearchStarts(s.m, s.l.h);
    assert CacheOk(s.cache, |s.words|) by { NoEntries(s.cache, |s.words|); }
    HeadShows(s.l, s.ls, []);
  }

  lemma NoEntries<S>(cache: Cache<S>, words: nat)
    requires cache == map[]
    ensures CacheOk(cache, words)
  {
  }

  /** The operations of the stack, in order. */
  function IdsOf<S, V>(calls: seq<CallsEntry<S, V>>): (q: seq<int>)
    ensures |q| == |calls|
  {
    seq(|calls|, i requires 0 <= i < |calls| => calls[i].entry.id)
  }

  lemma StackIsPath<S(!new), V(!new)>(s: Snap<S, V>)
    requires s.l.Ok() && s.StackOk()
    ensures IdsOf(s.calls) == s.path
  {
    forall k | 0 <= k < |s.path| ensures IdsOf(s.calls)[k] == s.path[k] {
      assert s.CallOk(k);
    }
  }

  /** Records the current path for each of its operations that has no longer prefix yet. */
  method RecordLongest<S(!new), V(!new)>(calls: seq<CallsEntry<S, V>>, longest: seq<Option<seq<int>>>,
                                         ghost m: Model<S, V>, ghost h: seq<Entry<V>>)
    returns (longest': seq<Option<seq<int>>>)
    requires WellFormed(h) && |longest| == Count(h) && After(m, h, IdsOf(calls)).Some? && LongestValid(m, h, longest)
    ensures |longest'| == |longest| && LongestValid(m, h, longest')
    ensures PathMarked(IdsOf(calls), longest') && MarksKept(longest, longest')
  {
    hide After, WellFormed;
    ghost var path := IdsOf(calls);
    PrefixFits(m, h, path);
    longest' := longest;
    var prefix: Option<seq<int>> := None;
    for i := 0 to |calls|
      invariant |longest'| == |longest| && LongestValid(m, h, longest') && MarksKept(longest, longest')
      invariant forall k :: 0 <= k < i ==> Marked(longest', path[k], |path|)
      invariant prefix == None || prefix == Some(path)
    {
      var id := calls[i].entry.id;
      assert path[i] == id && id in path;
      if longest'[id] == None || |calls| > |longest'[id].value| {
        if prefix == None {
          prefix := Some(IdsOf(calls));
        }
        longest' := longest'[id := prefix];
      }
    }
  }

  lemma AtFront<S(!new), V(!new)>(s: Snap<S, V>)
    requires s.Ok() && Unfinished(s.l.h, Ids(s.path))
    ensures s.l.Ok() && Sized(s.l, s.ls) && s.entry != null && 0 <= s.pos < |s.l.h| && s.entry == s.l.nodes[s.pos]
    ensures if s.entry.partner == null then s.AtReturn() else s.AtCall()
    ensures var a := s.l.h[s.pos].id; IsOp(s.l.h, a) && s.entry.id == a && a !in s.path && a < 64 * |s.words|
    ensures s.entry.partner != null ==>
              var a := s.l.h[s.pos].id;
              && CallAt(s.l.h, a) == s.pos
              && s.entry.value == Some(s.l.h[s.pos].value)
              && s.entry.partner.value == Some(s.l.h[ReturnAt(s.l.h, a)].value)
  {
    hide ProperEquality, WellFormed, SearchOk, LinkedBy, Restorable, CacheOk, Pairs, Elements;
    FrontOf(s);
    EntryPlace(s.l.h, s.pos);
    var a := s.l.h[s.pos].id;
    assert s.l.NodeOk(s.pos);
    assert s.l.NodeOk(ReturnAt(s.l.h, a));
    assert s.path != [] ==> a !in Ids(s.path);
  }

  /** The stack's last call is the path's last operation. */
  lemma AtTop<S(!new), V(!new)>(s: Snap<S, V>)
    requires s.Ok() && s.calls != []
    ensures s.l.Ok() && Sized(s.l, s.ls) && |s.calls| == |s.path|
    ensures var n := |s.path| - 1; var a := s.path[n];
            && IsOp(s.l.h, a) && s.calls[n].entry == s.l.nodes[CallAt(s.l.h, a)] && s.calls[n].entry.id == a
            && |s.states| == n + 2 && s.calls[n].state == s.states[n] && a < 64 * |s.words|
            && s.path == s.path[..n] + [a] && a !in s.path[..n]
  {
    hide ProperEquality, WellFormed, SearchOk, LinkedBy, Restorable, CacheOk, Pairs, Elements;
    LastOnce(s);
    assert s.CallOk(|s.path| - 1);
  }

  /** The heap part of linearizing the current call. */
  method PushCall<S(!new), V(!new)>(head: Node<V>, entry: Node<V>, linearized: Bitset, words: seq<bv64>,
                                    ghost s: Snap<S, V>)
    returns (next: Node?<V>)
    requires s.Ok() && s.AtCall() && IsOp(s.l.h, s.l.h[s.pos].id) && Shows(s, linearized)
    requires head == s.l.head && entry == s.entry && entry.partner != null
    requires |words| == |s.words| && Elements(words) == Elements(s.words) + {s.l.h[s.pos].id}
    requires StepOf(s.m, s.l.h, s.state, s.l.h[s.pos].id).0
    modifies linearized.data, s.l.head, s.l.nodes
    ensures Pushed(s, words).Ok() && Shows(Pushed(s, words), linearized) && next == Pushed(s, words).entry
  {
    hide ProperEquality, WellFormed, SearchOk, LinkedBy, Restorable, CacheOk, Pairs, Elements, HashOf, Lifted, Insert;
    hide LinksOf, Holds, LongestValid, LongestCovers, Snap.StackOk, Snap.MemoOk, Snap.LongestOk, Snap.AtEntry;
    hide Layout.NodeOk;
    AtFront(s);
    PushOk(s, words);
    ListHolds(s);
    linearized.Add(entry.id);
    SameElements(linearized.data[..], words);
    Lift(entry, s.l, s.path, entry.id);
    HeadLink(s.l);
    HeadShows(s.l, LinksOf(s.l), s.path + [entry.id]);
    next := head.next;
  }

  lemma ListHolds<S(!new), V(!new)>(s: Snap<S, V>)
    requires s.Ok()
    ensures Holds(s.l, s.ls, s.path) && WellFormed(s.l.h)
  {
  }

  lemma HeadLink<V>(l: Layout<V>)
    requires |l.nodes| == |l.h|
    ensures LinksOf(l).next[0] == l.head.next
  {
  }

  lemma NodeLink<V>(l: Layout<V>, j: int)
    requires |l.nodes| == |l.h| && 0 <= j < |l.h|
    ensures LinksOf(l).next[j + 1] == l.nodes[j].next
  {
  }

  lemma PopReady<S(!new), V(!new)>(s: Snap<S, V>)
    requires s.Ok() && s.calls != []
    ensures s.l.Ok() && Sized(s.l, s.ls) && WellFormed(s.l.h) && |s.path| == |s.calls| && s.path != [] && s.StackOk()
    ensures var n := |s.path| - 1; var a := s.path[n];
            && IsOp(s.l.h, a) && s.calls[n].entry == s.l.nodes[CallAt(s.l.h, a)] && s.calls[n].entry.id == a
            && Holds(s.l, s.ls, s.path[..n] + [a]) && a !in s.path[..n] && s.path[..n] + [a] == s.path
            && 0 <= a < 64 * |s.words| && FrontOk(s.l.h, Ids(s.path[..n]), CallAt(s.l.h, a))
  {
    hide ProperEquality, WellFormed, Holds, CacheOk, Pairs, Elements, Scanned, Closed, LevelOk, PathOk, FrontOk;
    hide Snap.StackOk;
    AtTop(s);
    ListHolds(s);
    PoppedFront(s.m, s.l.h, s.path, s.states);
  }

  /** The heap part of giving up the last call. */
  method PopCall<S(!new), V(!new)>(entry: Node<V>, linearized: Bitset, ghost s: Snap<S, V>,
                                   ghost longest: seq<Option<seq<int>>>)
    returns (next: Node?<V>, ghost words: seq<bv64>)
    requires s.Ok() && s.AtReturn() && s.calls != [] && Shows(s, linearized)
    requires entry == s.calls[|s.calls| - 1].entry
    requires |longest| == |s.longest| && LongestValid(s.m, s.l.h, longest)
    requires s.computePartial ==> PathMarked(s.path, longest) && MarksKept(s.longest, longest)
    modifies linearized.data, s.l.head, s.l.nodes
    ensures |words| == |s.words|
    ensures Popped(s, words, longest).Ok() && Shows(Popped(s, words, longest), linearized)
    ensures next == Popped(s, words, longest).entry
  {
    hide WellFormed, Elements, Unlifted, LinksOf, Holds, LongestValid, PathMarked, MarksKept, FrontOk, Layout.Ok;
    hide Snap.Ok, Snap.StackOk, Snap.AtReturn;
    PopReady(s);
    ghost var path', c := s.path[..|s.path| - 1], CallAt(s.l.h, entry.id);
    linearized.Clear(entry.id);
    words := linearized.data[..];
    PopOk(s, words, longest);
    Unlift(entry, s.l, path', entry.id);
    NodeLink(s.l, c);
    NextShows(s.l, LinksOf(s.l), path', c);
    next := entry.next;
  }

  /** What is left to cache. */
  ghost function Uncached<S(!new), V(!new)>(m: Model<S, V>, h: seq<Entry<V>>, cache: Cache<S>): nat
    requires WellFormed(h)
  {
    |Universe(m, h) - Pairs(cache)|
  }

  lemma PushCaches<S(!new), V(!new)>(s: Snap<S, V>, words: seq<bv64>)
    requires s.Ok() && s.AtCall() && IsOp(s.l.h, s.l.h[s.pos].id) && s.entry != null
    requires |words| == |s.words| && Elements(words) == Elements(s.words) + {s.l.h[s.pos].id}
    requires StepOf(s.m, s.l.h, s.state, s.l.h[s.pos].id).0
    requires !Known(s.m, Pairs(s.cache), Elements(words), StepOf(s.m, s.l.h, s.state, s.l.h[s.pos].id).1)
    ensures Uncached(s.m, s.l.h, Pushed(s, words).cache) < Uncached(s.m, s.l.h, s.cache)
  {
    hide WellFormed, SearchOk, LinkedBy, Restorable, CacheOk, Pairs, Elements, HashOf, Lifted, Insert, Universe;
    PushOk(s, words);
    PushedMemo(s, words);
    var s', a := Pushed(s, words), s.l.h[s.pos].id;
    IdsMore(s.path, a);
    PushedFits(s');
    var p, u := Pair(Ids(s'.path), s'.state), Universe(s.m, s.l.h);
    assert s.m.equal(p.state, p.state);
    assert p in u - Pairs(s.cache);
    assert u - Pairs(s'.cache) == (u - Pairs(s.cache)) - {p};
  }

  /** A return at the front of an empty path: nothing is left to try. */
  lemma RefutedMeansNone<S(!new), V(!new)>(s: Snap<S, V>)
    requires s.Ok() && s.AtReturn() && s.calls == []
    ensures !HasLinearization(s.m, s.l.h)
    ensures s.computePartial ==> LongestOptimal(s.m, s.l.h, s.longest)
  {
    hide WellFormed, LinkedBy, Restorable, CacheOk, Pairs, Elements, LongestValid, LongestCovers, Scanned, Closed;
    hide LevelOk;
    assert s.path == [] && Ids(s.path) == {};
    assert s.path[..0] == [];
    assert s.states == [s.m.init];
    ExhaustedMeansNone(s.m, s.l.h, s.dead, s.pos);
    if s.computePartial {
      ExhaustedMeansOptimal(s.m, s.l.h, s.dead, s.longest);
    }
  }

  lemma FinishedMeansFound<S(!new), V(!new)>(s: Snap<S, V>, longest: seq<Option<seq<int>>>)
    requires s.Ok() && !Unfinished(s.l.h, Ids(s.path))
    requires |longest| == Count(s.l.h) && forall id :: 0 <= id < |longest| ==> longest[id] == Some(IdsOf(s.calls))
    ensures HasLinearization(s.m, s.l.h) && LongestOptimal(s.m, s.l.h, longest)
    ensures After(s.m, s.l.h, IdsOf(s.calls)).Some? && |s.calls| == Count(s.l.h)
  {
    hide ProperEquality, WellFormed, LinkedBy, Restorable, CacheOk, Pairs, Elements, Scanned, Closed, LevelOk;
    hide LongestOptimal, After;
    StackIsPath(s);
    FinishedIsLinearization(s.m, s.l.h, s.path, s.states);
    FinishedMeansOptimal(s.m, s.l.h, s.path, longest);
  }

  /** The variables of the run, gathered in a snapshot. */
  ghost predicate Holding<S(!new), V(!new)>(s: Snap<S, V>, entry: Node?<V>, cache: Cache<S>,
                                            calls: seq<CallsEntry<S, V>>, state: S,
                                            longest: seq<Option<seq<int>>>) {
    s.entry == entry && s.cache == cache && s.calls == calls && s.state == state && s.longest == longest
  }

  ghost predicate SameRun<S(!new), V(!new)>(s: Snap<S, V>, s': Snap<S, V>) {
    s'.m == s.m && s'.computePartial == s.computePartial && s'.l == s.l
  }

  /** A round at a call: linearizes it if it is possible and leads to a new pair, or steps over it. */
  method TryCall<S(!new), V(!new)>(m: Model<S, V>, head: Node<V>, entry: Node<V>, linearized: Bitset, cache: Cache<S>,
                                   calls: seq<CallsEntry<S, V>>, state: S, ghost s: Snap<S, V>)
    returns (entry': Node?<V>, cache': Cache<S>, calls': seq<CallsEntry<S, V>>, state': S, ghost s': Snap<S, V>)
    requires s.Ok() && Shows(s, linearized) && Holding(s, entry, cache, calls, state, s.longest)
    requires m == s.m && head == s.l.head && entry.partner != null && Unfinished(s.l.h, Ids(s.path))
    modifies linearized.data, s.l.head, s.l.nodes
    ensures s'.Ok() && Shows(s', linearized) && Holding(s', entry', cache', calls', state', s.longest) && SameRun(s, s')
    ensures WellFormed(s.l.h)
    ensures || Uncached(m, s.l.h, cache') < Uncached(m, s.l.h, cache)
            || (cache' == cache && calls' == calls && s.pos < s'.pos < |s.l.h|)
  {
    hide WellFormed, CacheOk, Pairs, Elements, HashOf, LinksOf, Holds, Universe, Layout.Ok, Lifted, Insert, Uncached;
    hide Known, Snap.Ok;
    AtFront(s);
    MemoReady(s);
    ListHolds(s);
    ghost var a := s.l.h[s.pos].id;
    var (possible, newState) := m.step(state, entry.value.value, entry.partner.value.value);
    assert (possible, newState) == StepOf(m, s.l.h, state, a);
    if possible {
      var newLinearized := new Bitset.Clone(linearized);
      newLinearized.Add(entry.id);
      var hash := newLinearized.Hash();
      var words := newLinearized.data[..];
      var seen := CacheContains(m, cache, hash, CacheEntry(words, newState));
      if !seen {
        PushCaches(s, words);
        cache' := Insert(cache, hash, CacheEntry(words, newState));
        calls' := calls + [CallsEntry(entry, state)];
        state' := newState;
        entry' := PushCall(head, entry, linearized, words, s);
        s' := Pushed(s, words);
        return;
      }
    }
    FailedIsExplored(s, a);
    SkipOk(s);
    NodeLink(s.l, s.pos);
    entry', cache', calls', state' := entry.next, cache, calls, state;
    s' := s.(pos := LiveFrom(s.l.h, Ids(s.path), s.pos + 1), entry := entry');
  }

  /** A round at a return: records the path if asked to, and gives up its last call. */
  method Backtrack<S(!new), V(!new)>(computePartial: bool, linearized: Bitset, calls: seq<CallsEntry<S, V>>,
                                     longest: seq<Option<seq<int>>>, ghost s: Snap<S, V>)
    returns (entry': Node?<V>, calls': seq<CallsEntry<S, V>>, state': S, longest': seq<Option<seq<int>>>,
             ghost s': Snap<S, V>)
    requires s.Ok() && Shows(s, linearized) && s.calls == calls && s.longest == longest
    requires computePartial == s.computePartial
    requires s.AtReturn() && calls != []
    modifies linearized.data, s.l.head, s.l.nodes
    ensures s'.Ok() && Shows(s', linearized) && Holding(s', entry', s.cache, calls', state', longest') && SameRun(s, s')
    ensures |calls'| < |calls|
  {
    hide ProperEquality, WellFormed, SearchOk, LinkedBy, Restorable, CacheOk, Pairs, Elements, HashOf, LinksOf, Holds;
    hide LongestValid, LongestCovers, PathMarked, MarksKept, Layout.NodeOk, Unlifted, Snap.StackOk, Snap.MemoOk;
    hide Snap.LongestOk, Snap.AtEntry, Snap.ListOk;
    PathIsPrefix(s);
    AtTop(s);
    longest' := longest;
    if computePartial {
      longest' := RecordLongest(calls, longest, s.m, s.l.h);
    }
    var callsTop := calls[|calls| - 1];
    ghost var words;
    entry', words := PopCall(callsTop.entry, linearized, s, longest');
    state' := callsTop.state;
    calls' := calls[..|calls| - 1];
    s' := Popped(s, words, longest');
  }

  /** The kill flag is never seen set. */
  ghost predicate Unkilled(kill: nat -> bool) {
    forall k :: !kill(k)
  }

  /** One prefix holding every operation is recorded for all. */
  ghost predicate AllLinearized(longest: seq<Option<seq<int>>>) {
    exists q :: |q| == |longest| && forall i :: 0 <= i < |longest| ==> longest[i] == Some(q)
  }

  /** Decides whether the history has a linearization. `kill(k)` is what round `k` reads from the
      flag that asks the search to stop. */
  method CheckSingle<S(!new), V(!new)>(m: Model<S, V>, history: seq<Entry<V>>, computePartial: bool, kill: nat -> bool)
    returns (ok: bool, longest: seq<Option<seq<int>>>)
    requires WellFormed(history) && ProperEquality(m)
    ensures ok ==> HasLinearization(m, history) && AllLinearized(longest)
    ensures Unkilled(kill) ==> (ok <==> HasLinearization(m, history))
    ensures |longest| == Count(history) && LongestValid(m, history, longest)
    ensures ok || (computePartial && Unkilled(kill)) ==> LongestOptimal(m, history, longest)
  {
    hide ProperEquality, WellFormed, SearchOk, LinkedBy, Restorable, CacheOk, Pairs, Elements, LinksOf, Holds;
    hide LongestValid, LongestCovers, HasLinearization, Layout.NodeOk, Uncached, Unfinished, Snap.StackOk, Snap.MemoOk;
    hide Snap.LongestOk, Snap.AtEntry, Snap.ListOk;
    var head, entry, n;
    ghost var l;
    head, entry, n, l := MakeList(history);
    var linearized := new Bitset(n);
    var cache: Cache<S> := map[];
    var calls: seq<CallsEntry<S, V>> := [];
    longest := seq(n, _ => None);
    var state := m.init;
    ghost var s := Snap(m, computePartial, l, LinksOf(l), linearized.data[..], entry, cache, calls, state, longest,
                        [], [m.init], {}, LiveFrom(history, {}, 0));
    ghost var start := s;
    StartOk(s);
    var round := 0;
    ListHead(s, linearized);
    while head.next != null
      invariant s.Ok() && SameRun(start, s) && Shows(s, linearized) && Holding(s, entry, cache, calls, state, longest)
      invariant head.next != null <==> Unfinished(history, Ids(s.path))
      invariant fresh(linearized.data) && fresh(l.head) && fresh(l.nodes)
      decreases Uncached(m, history, cache), |calls|, |history| - s.pos
    {
      if kill(round) {
        PathIsPrefix(s);
        return false, longest;
      }
      round := round + 1;
      AtFront(s);
      if entry.partner != null {
        entry, cache, calls, state, s := TryCall(m, head, entry, linearized, cache, calls, state, s);
      } else {
        if |calls| == 0 {
          PathIsPrefix(s);
          RefutedMeansNone(s);
          return false, longest;
        }
        entry, calls, state, longest, s := Backtrack(computePartial, linearized, calls, longest, s);
      }
      ListHead(s, linearized);
    }
    var all := IdsOf(calls);
    longest := seq(n, _ => Some(all));
    FinishedMeansFound(s, longest);
    ok := true;
  }

  /** The list is empty exactly if nothing is left. */
  lemma ListHead<S(!new), V(!new)>(s: Snap<S, V>, linearized: Bitset)
    requires s.Ok() && Shows(s, linearized)
    ensures s.l.head.next != null <==> Unfinished(s.l.h, Ids(s.path))
    ensures s.l.Ok() && WellFormed(s.l.h)
  {
    hide ProperEquality, SearchOk, LinkedBy, Restorable, Elements, LinksOf, WellFormed;
    HeadLink(s.l);
    HeadShows(s.l, s.ls, s.path);
  }

  lemma MemoReady<S(!new), V(!new)>(s: Snap<S, V>)
    requires s.Ok()
    ensures CacheOk(s.cache, |s.words|) && Elements(s.words) == Ids(s.path)
  {
  }

  /** The stack lists a linearizable prefix, the path. */
  lemma PathIsPrefix<S(!new), V(!new)>(s: Snap<S, V>)
    requires s.Ok()
    ensures WellFormed(s.l.h) && IdsOf(s.calls) == s.path && After(s.m, s.l.h, s.path).Some?
    ensures |s.longest| == Count(s.l.h) && LongestValid(s.m, s.l.h, s.longest)
  {
    hide WellFormed, Scanned, Closed, LevelOk, LinkedBy, Restorable, Elements, CacheOk, Pairs, LongestValid;
    StackIsPath(s);
    assert s.path[..|s.path|] == s.path;
  }
}
