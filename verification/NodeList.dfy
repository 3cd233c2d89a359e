/** The doubly linked list of history entries, with removal that can be undone. */
module NodeList {
  import opened Options
  import opened Search

  /** A call if `partner` is there (it is the return), otherwise a return. */
  class Node<V> {
    const value: Option<V>
    const partner: Node?<V>
    const id: int
    var next: Node?<V>
    var prev: Node?<V>

    constructor (value: Option<V>, partner: Node?<V>, id: int)
      ensures this.value == value && this.partner == partner && this.id == id && next == null && prev == null
    {
      this.value, this.partner, this.id := value, partner, id;
      next, prev := null, null;
    }
  }

  // ----- neighbours among the positions that are not out -----

  /** The first position after `j` that is not out, or `n`. */
  ghost function NextIn(out: set<int>, j: int, n: int): (k: int)
    requires -1 <= j < n
    ensures j < k <= n
    decreases n - j
  {
    if j + 1 == n || j + 1 !in out then j + 1 else NextIn(out, j + 1, n)
  }

  /** The last position before `j` that is not out, or -1. */
  ghost function PrevIn(out: set<int>, j: int): (k: int)
    requires 0 <= j
    ensures -1 <= k < j
    decreases j
  {
    if j == 0 || j - 1 !in out then j - 1 else PrevIn(out, j - 1)
  }

  ghost predicate IsNext(out: set<int>, j: int, n: int, k: int) {
    j < k <= n && (k < n ==> k !in out) && forall i :: j < i < k ==> i in out
  }

  ghost predicate IsPrev(out: set<int>, j: int, k: int) {
    -1 <= k < j && (k >= 0 ==> k !in out) && forall i :: k < i < j ==> i in out
  }

  lemma {:induction false} NextIs(out: set<int>, j: int, n: int)
    requires -1 <= j < n
    ensures IsNext(out, j, n, NextIn(out, j, n))
    decreases n - j
  {
    if !(j + 1 == n || j + 1 !in out) {
      NextIs(out, j + 1, n);
    }
  }

  lemma {:induction false} PrevIs(out: set<int>, j: int)
    requires 0 <= j
    ensures IsPrev(out, j, PrevIn(out, j))
    decreases j
  {
    if !(j == 0 || j - 1 !in out) {
      PrevIs(out, j - 1);
    }
  }

  lemma NextUnique(out: set<int>, j: int, n: int, k: int)
    requires -1 <= j < n && IsNext(out, j, n, k)
    ensures NextIn(out, j, n) == k
  {
    NextIs(out, j, n);
    var k' := NextIn(out, j, n);
    assert k' < k ==> k' in out;
    assert k < k' ==> k in out;
  }

  lemma PrevUnique(out: set<int>, j: int, k: int)
    requires 0 <= j && IsPrev(out, j, k)
    ensures PrevIn(out, j) == k
  {
    PrevIs(out, j);
    var k' := PrevIn(out, j);
    assert k' < k ==> k in out;
    assert k < k' ==> k' in out;
  }

  /** The last one before `j` that is not out is the one whose next is `j`. */
  lemma Neighbours(out: set<int>, j: int, n: int, k: int)
    requires 0 <= j < n && j !in out && k !in out
    ensures -1 <= k < n ==> (NextIn(out, k, n) == j <==> k == PrevIn(out, j))
    ensures 0 <= k < n ==> (PrevIn(out, k) == j <==> k == NextIn(out, j, n))
    ensures -1 <= PrevIn(out, j) < j < NextIn(out, j, n) <= n
    ensures PrevIn(out, j) != -1 ==> PrevIn(out, j) !in out
    ensures NextIn(out, j, n) != n ==> NextIn(out, j, n) !in out
  {
    NextIs(out, j, n);
    PrevIs(out, j);
    if -1 <= k < n {
      NextIs(out, k, n);
      if NextIn(out, k, n) == j && k >= 0 {
        PrevUnique(out, j, k);
      }
    }
    if 0 <= k < n {
      PrevIs(out, k);
    }
  }

  /** Taking out `j` links its neighbours to each other and changes no other neighbour. */
  lemma Outing(out: set<int>, j: int, n: int, k: int)
    requires 0 <= j < n && j !in out && k !in out
    ensures NextIn(out + {j}, j, n) == NextIn(out, j, n) && PrevIn(out + {j}, j) == PrevIn(out, j)
    ensures -1 <= k < n && k != j ==>
              NextIn(out + {j}, k, n) == if k == PrevIn(out, j) then NextIn(out, j, n) else NextIn(out, k, n)
    ensures 0 <= k < n && k != j ==>
              PrevIn(out + {j}, k) == if k == NextIn(out, j, n) then PrevIn(out, j) else PrevIn(out, k)
  {
    var p, q := PrevIn(out, j), NextIn(out, j, n);
    NextIs(out, j, n);
    PrevIs(out, j);
    NextUnique(out + {j}, j, n, q);
    PrevUnique(out + {j}, j, p);
    if -1 <= k < n && k != j {
      NextIs(out, k, n);
      NextUnique(out + {j}, k, n, if k == p then q else NextIn(out, k, n));
    }
    if 0 <= k < n && k != j {
      PrevIs(out, k);
      PrevUnique(out + {j}, k, if k == q then p else PrevIn(out, k));
    }
  }

  /** The positions of the entries of finished operations. */
  ghost function OutOf<V>(h: seq<Entry<V>>, done: set<int>): set<int> {
    set j | 0 <= j < |h| && h[j].id in done
  }

  lemma NextIsLive<V>(h: seq<Entry<V>>, done: set<int>, j: int)
    requires -1 <= j < |h|
    ensures NextIn(OutOf(h, done), j, |h|) == LiveFrom(h, done, j + 1)
  {
    NextUnique(OutOf(h, done), j, |h|, LiveFrom(h, done, j + 1));
  }

  // ----- the list -----

  /** The history, the node made for each of its entries, and the sentinel before them. */
  datatype Layout<V> = Layout(h: seq<Entry<V>>, nodes: seq<Node<V>>, head: Node<V>) {

    ghost predicate NodeOk(j: int)
      requires |nodes| == |h| && WellFormed(h) && 0 <= j < |h|
    {
      && nodes[j].id == h[j].id && nodes[j].value == Some(h[j].value) && IsOp(h, h[j].id)
      && nodes[j].partner == if h[j].isReturn then null else nodes[ReturnAt(h, h[j].id)]
    }

    ghost predicate Ok() {
      && |nodes| == |h|
      && head !in nodes
      && (forall i, j :: 0 <= i < j < |nodes| ==> nodes[i] != nodes[j])
      && WellFormed(h)
      && forall j :: 0 <= j < |h| ==> NodeOk(j)
    }

    ghost function At(k: int): Node?<V>
      requires |nodes| == |h| && -1 <= k <= |h|
    {
      if k == -1 then head else if k == |h| then null else nodes[k]
    }
  }

  /** The links of a list, as values. */
  datatype Links<V> = Links(next: seq<Node?<V>>, prev: seq<Node?<V>>)

  ghost predicate Sized<V>(l: Layout<V>, ls: Links<V>) {
    |l.nodes| == |l.h| && |ls.next| == |l.h| + 1 && |ls.prev| == |l.h|
  }

  ghost function LinksOf<V>(l: Layout<V>): (ls: Links<V>)
    requires |l.nodes| == |l.h|
    reads l.head, l.nodes
    ensures Sized(l, ls)
  {
    Links(seq(|l.h| + 1, i requires 0 <= i <= |l.h| reads l.head, l.nodes => l.At(i - 1).next),
          seq(|l.h|, i requires 0 <= i < |l.h| reads l.nodes => l.nodes[i].prev))
  }

  /** Going forward and backward visits exactly the positions that are not out. */
  ghost predicate LinkedBy<V>(l: Layout<V>, ls: Links<V>, out: set<int>)
    requires Sized(l, ls)
  {
    && (forall k :: -1 <= k < |l.h| && k !in out ==> ls.next[k + 1] == l.At(NextIn(out, k, |l.h|)))
    && (forall k :: 0 <= k < |l.h| && k !in out ==> ls.prev[k] == l.At(PrevIn(out, k)))
  }

  /** Node `k` remembers its neighbours in the list without `out`. */
  ghost predicate SavedBy<V>(l: Layout<V>, ls: Links<V>, out: set<int>, k: int)
    requires Sized(l, ls) && 0 <= k < |l.h|
  {
    ls.next[k + 1] == l.At(NextIn(out, k, |l.h|)) && ls.prev[k] == l.At(PrevIn(out, k))
  }

  /** Operation number `k` of the path can be put back once those after it are back. */
  ghost predicate Restorable<V>(l: Layout<V>, ls: Links<V>, path: seq<int>, k: int)
    requires l.Ok() && Sized(l, ls) && 0 <= k < |path| && IsOp(l.h, path[k])
  {
    var out, c, r := OutOf(l.h, Ids(path[..k])), CallAt(l.h, path[k]), ReturnAt(l.h, path[k]);
    SavedBy(l, ls, out, c) && SavedBy(l, ls, out + {c}, r)
  }

  /** The list holds the entries of the operations not in `path`, and `path` can be undone
      from its end. */
  ghost predicate Holds<V>(l: Layout<V>, ls: Links<V>, path: seq<int>) {
    && l.Ok() && Sized(l, ls)
    && (forall k :: 0 <= k < |path| ==> IsOp(l.h, path[k]))
    && LinkedBy(l, ls, OutOf(l.h, Ids(path)))
    && (forall k :: 0 <= k < |path| ==> Restorable(l, ls, path, k))
  }

  // ----- taking one node out and putting it back -----

  /** The neighbours of `j` joined. */
  ghost function Joined<V>(l: Layout<V>, ls: Links<V>, out: set<int>, j: int): (r: Links<V>)
    requires Sized(l, ls) && 0 <= j < |l.h|
    ensures Sized(l, r)
  {
    var p, q := PrevIn(out, j), NextIn(out, j, |l.h|);
    Links(ls.next[p + 1 := l.At(q)], if q < |l.h| then ls.prev[q := l.At(p)] else ls.prev)
  }

  /** The neighbours of `j` linked to `j` again. */
  ghost function Inserted<V>(l: Layout<V>, ls: Links<V>, out: set<int>, j: int): (r: Links<V>)
    requires Sized(l, ls) && 0 <= j < |l.h|
    ensures Sized(l, r)
  {
    var p, q := PrevIn(out, j), NextIn(out, j, |l.h|);
    Links(ls.next[p + 1 := l.nodes[j]], if q < |l.h| then ls.prev[q := l.nodes[j]] else ls.prev)
  }

  /** Positions that are out, and `j` itself, keep their links. */
  ghost predicate KeepsOut(ls: Links, ls': Links, out: set<int>, n: int)
    requires |ls.next| == |ls'.next| == n + 1 && |ls.prev| == |ls'.prev| == n
  {
    forall k :: 0 <= k < n && k in out ==> ls'.next[k + 1] == ls.next[k + 1] && ls'.prev[k] == ls.prev[k]
  }

  lemma JoinedLinked<V>(l: Layout<V>, ls: Links<V>, out: set<int>, j: int)
    requires Sized(l, ls) && 0 <= j < |l.h| && j !in out && LinkedBy(l, ls, out)
    ensures var ls' := Joined(l, ls, out, j);
            LinkedBy(l, ls', out + {j}) && SavedBy(l, ls', out, j) && KeepsOut(ls, ls', out + {j}, |l.h|)
  {
    hide NextIn, PrevIn;
    Neighbours(out, j, |l.h|, j);
    var ls' := Joined(l, ls, out, j);
    forall k | -1 <= k < |l.h| && k !in out + {j} ensures ls'.next[k + 1] == l.At(NextIn(out + {j}, k, |l.h|)) {
      Outing(out, j, |l.h|, k);
    }
    forall k | 0 <= k < |l.h| && k !in out + {j} ensures ls'.prev[k] == l.At(PrevIn(out + {j}, k)) {
      Outing(out, j, |l.h|, k);
    }
  }

  lemma InsertedLinked<V>(l: Layout<V>, ls: Links<V>, out: set<int>, j: int)
    requires Sized(l, ls) && 0 <= j < |l.h| && j !in out && LinkedBy(l, ls, out + {j}) && SavedBy(l, ls, out, j)
    ensures var ls' := Inserted(l, ls, out, j);
            LinkedBy(l, ls', out) && KeepsOut(ls, ls', out, |l.h|)
  {
    hide NextIn, PrevIn;
    Neighbours(out, j, |l.h|, j);
    var ls' := Inserted(l, ls, out, j);
    forall k | -1 <= k < |l.h| && k !in out ensures ls'.next[k + 1] == l.At(NextIn(out, k, |l.h|)) {
      Outing(out, j, |l.h|, k);
      Neighbours(out, j, |l.h|, k);
    }
    forall k | 0 <= k < |l.h| && k !in out ensures ls'.prev[k] == l.At(PrevIn(out, k)) {
      Outing(out, j, |l.h|, k);
      Neighbours(out, j, |l.h|, k);
    }
  }

  /** Putting back undoes taking out. */
  lemma InsertJoined<V>(l: Layout<V>, ls: Links<V>, out: set<int>, j: int)
    requires Sized(l, ls) && 0 <= j < |l.h| && j !in out && LinkedBy(l, ls, out)
    requires -1 !in out
    ensures Inserted(l, Joined(l, ls, out, j), out, j) == ls
  {
    hide NextIn, PrevIn;
    Neighbours(out, j, |l.h|, j);
    var p, q := PrevIn(out, j), NextIn(out, j, |l.h|);
    Neighbours(out, j, |l.h|, p);
    if q < |l.h| {
      Neighbours(out, j, |l.h|, q);
    }
  }

  // ----- taking an operation out and putting it back -----

  ghost function Lifted<V>(l: Layout<V>, ls: Links<V>, path: seq<int>, a: int): (r: Links<V>)
    requires l.Ok() && IsOp(l.h, a) && Sized(l, ls)
    ensures Sized(l, r)
  {
    var out, c, r := OutOf(l.h, Ids(path)), CallAt(l.h, a), ReturnAt(l.h, a);
    Joined(l, Joined(l, ls, out, c), out + {c}, r)
  }

  ghost function Unlifted<V>(l: Layout<V>, ls: Links<V>, path: seq<int>, a: int): (r: Links<V>)
    requires l.Ok() && IsOp(l.h, a) && Sized(l, ls)
    ensures Sized(l, r)
  {
    var out, c, r := OutOf(l.h, Ids(path)), CallAt(l.h, a), ReturnAt(l.h, a);
    Inserted(l, Inserted(l, ls, out + {c}, r), out, c)
  }

  /** The positions of an operation, before and after it is done. */
  lemma OutMore<V>(h: seq<Entry<V>>, path: seq<int>, a: int)
    requires WellFormed(h) && IsOp(h, a) && a !in path
    ensures var out, c, r := OutOf(h, Ids(path)), CallAt(h, a), ReturnAt(h, a);
            OutOf(h, Ids(path + [a])) == out + {c} + {r} && c !in out && r !in out && c < r
  {
    var out, c, r := OutOf(h, Ids(path)), CallAt(h, a), ReturnAt(h, a);
    EntryPlace(h, c);
    forall j | 0 <= j < |h| ensures j in OutOf(h, Ids(path + [a])) <==> j in out + {c} + {r} {
      EntryPlace(h, j);
    }
  }

  lemma RestorableKept<V>(l: Layout<V>, ls: Links<V>, ls': Links<V>, path: seq<int>, path': seq<int>, k: int)
    requires l.Ok() && 0 <= k < |path| && IsOp(l.h, path[k])
    requires Sized(l, ls) && Sized(l, ls')
    requires k < |path'| && path'[..k + 1] == path[..k + 1]
    requires Restorable(l, ls, path, k) && KeepsOut(ls, ls', OutOf(l.h, Ids(path[..k + 1])), |l.h|)
    ensures path'[k] == path[k] && Restorable(l, ls', path', k)
  {
    assert path'[k] == path'[..k + 1][k] && path[k] == path[..k + 1][k];
    assert path'[..k] == path'[..k + 1][..k] && path[..k] == path[..k + 1][..k];
    var c, r, out := CallAt(l.h, path[k]), ReturnAt(l.h, path[k]), OutOf(l.h, Ids(path[..k + 1]));
    assert path[k] in path[..k + 1];
    assert c in out && r in out;
  }

  lemma KeepsOutLess(ls: Links, ls': Links, out: set<int>, less: set<int>, n: nat)
    requires |ls.next| == |ls'.next| == n + 1 && |ls.prev| == |ls'.prev| == n
    requires less <= out && KeepsOut(ls, ls', out, n)
    ensures KeepsOut(ls, ls', less, n)
  {
  }

  lemma OutPrefix<V>(h: seq<Entry<V>>, path: seq<int>, k: int)
    requires 0 <= k <= |path|
    ensures OutOf(h, Ids(path[..k])) <= OutOf(h, Ids(path))
  {
  }

  lemma LiftLinks<V>(l: Layout<V>, ls: Links<V>, path: seq<int>, a: int)
    requires Holds(l, ls, path) && IsOp(l.h, a) && a !in path
    ensures var ls' := Lifted(l, ls, path, a);
            && LinkedBy(l, ls', OutOf(l.h, Ids(path + [a])))
            && SavedBy(l, ls', OutOf(l.h, Ids(path)), CallAt(l.h, a))
            && SavedBy(l, ls', OutOf(l.h, Ids(path)) + {CallAt(l.h, a)}, ReturnAt(l.h, a))
            && KeepsOut(ls, ls', OutOf(l.h, Ids(path)), |l.h|)
  {
    hide WellFormed, Restorable, LinkedBy, Joined;
    OutMore(l.h, path, a);
    var out, c, r := OutOf(l.h, Ids(path)), CallAt(l.h, a), ReturnAt(l.h, a);
    JoinedLinked(l, ls, out, c);
    var ls1 := Joined(l, ls, out, c);
    JoinedLinked(l, ls1, out + {c}, r);
  }

  /** Taking out an operation that is in the list. */
  lemma LiftHolds<V>(l: Layout<V>, ls: Links<V>, path: seq<int>, a: int)
    requires Holds(l, ls, path) && IsOp(l.h, a) && a !in path
    ensures Holds(l, Lifted(l, ls, path, a), path + [a])
  {
    hide WellFormed, LinkedBy, Lifted, KeepsOut;
    LiftLinks(l, ls, path, a);
    var ls', path' := Lifted(l, ls, path, a), path + [a];
    forall k | 0 <= k < |path'| ensures IsOp(l.h, path'[k]) && Restorable(l, ls', path', k) {
      if k < |path| {
        assert path'[..k + 1] == path[..k + 1];
        OutPrefix(l.h, path, k + 1);
        KeepsOutLess(ls, ls', OutOf(l.h, Ids(path)), OutOf(l.h, Ids(path[..k + 1])), |l.h|);
        RestorableKept(l, ls, ls', path, path', k);
      } else {
        assert path'[..k] == path;
      }
    }
  }

  /** Putting back the operation taken out last. */
  lemma UnliftHolds<V>(l: Layout<V>, ls: Links<V>, path: seq<int>, a: int)
    requires Holds(l, ls, path + [a]) && a !in path
    ensures IsOp(l.h, a) && Holds(l, Unlifted(l, ls, path, a), path)
  {
    hide WellFormed, LinkedBy, KeepsOut, Inserted;
    var path', n := path + [a], |path|;
    assert path'[n] == a && path'[..n] == path;
    assert Restorable(l, ls, path', n);
    OutMore(l.h, path, a);
    var out, c, r := OutOf(l.h, Ids(path)), CallAt(l.h, a), ReturnAt(l.h, a);
    InsertedLinked(l, ls, out + {c}, r);
    var ls1 := Inserted(l, ls, out + {c}, r);
    KeptSaved(l, ls, ls1, out, c);
    InsertedLinked(l, ls1, out, c);
    var ls2 := Inserted(l, ls1, out, c);
    forall k | 0 <= k < |path| ensures IsOp(l.h, path[k]) && Restorable(l, ls2, path, k) {
      assert path'[k] == path[k] && path'[..k + 1] == path[..k + 1];
      OutPrefix(l.h, path, k + 1);
      KeepsOutLess(ls, ls1, out + {c}, OutOf(l.h, Ids(path'[..k + 1])), |l.h|);
      RestorableKept(l, ls, ls1, path', path, k);
      KeepsOutLess(ls1, ls2, out, OutOf(l.h, Ids(path[..k + 1])), |l.h|);
      RestorableKept(l, ls1, ls2, path, path, k);
    }
  }

  lemma KeptSaved<V>(l: Layout<V>, ls: Links<V>, ls': Links<V>, out: set<int>, c: int)
    requires 0 <= c < |l.h|
    requires Sized(l, ls) && Sized(l, ls')
    requires SavedBy(l, ls, out, c) && KeepsOut(ls, ls', out + {c}, |l.h|)
    ensures SavedBy(l, ls', out, c)
  {
  }

  /** `unlift` undoes `lift`: every link is what it was. */
  lemma UnliftLift<V>(l: Layout<V>, ls: Links<V>, path: seq<int>, a: int)
    requires Holds(l, ls, path) && IsOp(l.h, a) && a !in path
    ensures Unlifted(l, Lifted(l, ls, path, a), path, a) == ls
  {
    hide WellFormed, Restorable, LinkedBy, Joined, Inserted;
    OutMore(l.h, path, a);
    var out, c, r := OutOf(l.h, Ids(path)), CallAt(l.h, a), ReturnAt(l.h, a);
    JoinedLinked(l, ls, out, c);
    InsertJoined(l, Joined(l, ls, out, c), out + {c}, r);
    InsertJoined(l, ls, out, c);
  }

  // ----- the operations on the heap -----

  /** Unlinks the node at position `j`; its own links stay. */
  method Unlink<V>(x: Node<V>, ghost l: Layout<V>, ghost j: int, ghost out: set<int>)
    requires l.Ok() && 0 <= j < |l.h| && j !in out && x == l.nodes[j] && LinkedBy(l, LinksOf(l), out)
    modifies l.head, l.nodes
    ensures LinksOf(l) == Joined(l, old(LinksOf(l)), out, j)
  {
    hide NextIn, PrevIn, WellFormed;
    Neighbours(out, j, |l.h|, j);
    ghost var ls := LinksOf(l);
    assert x.prev == ls.prev[j] && x.next == ls.next[j + 1];
    x.prev.next := x.next;
    if x.next != null {
      x.next.prev := x.prev;
    }
    assert LinksOf(l) == Joined(l, ls, out, j);
  }

  /** Links the neighbours the node at position `j` was unlinked from to it again. */
  method Relink<V>(x: Node<V>, ghost l: Layout<V>, ghost j: int, ghost out: set<int>)
    requires l.Ok() && 0 <= j < |l.h| && j !in out && x == l.nodes[j] && SavedBy(l, LinksOf(l), out, j)
    modifies l.head, l.nodes
    ensures LinksOf(l) == Inserted(l, old(LinksOf(l)), out, j)
  {
    hide NextIn, PrevIn, WellFormed;
    Neighbours(out, j, |l.h|, j);
    ghost var ls := LinksOf(l);
    assert x.prev == ls.prev[j] && x.next == ls.next[j + 1];
    x.prev.next := x;
    if x.next != null {
      x.next.prev := x;
    }
    assert LinksOf(l) == Inserted(l, ls, out, j);
  }

  /** Takes a call and its return out of the list. */
  method Lift<V>(entry: Node<V>, ghost l: Layout<V>, ghost path: seq<int>, ghost a: int)
    requires l.Ok() && Holds(l, LinksOf(l), path) && IsOp(l.h, a) && a !in path && entry == l.nodes[CallAt(l.h, a)]
    modifies l.head, l.nodes
    ensures LinksOf(l) == Lifted(l, old(LinksOf(l)), path, a)
    ensures Holds(l, LinksOf(l), path + [a])
  {
    hide WellFormed, Restorable, LinkedBy, Joined;
    ghost var out, c, r := OutOf(l.h, Ids(path)), CallAt(l.h, a), ReturnAt(l.h, a);
    OutMore(l.h, path, a);
    LiftHolds(l, LinksOf(l), path, a);
    JoinedLinked(l, LinksOf(l), out, c);
    assert l.NodeOk(c);
    Unlink(entry, l, c, out);
    Unlink(entry.partner, l, r, out + {c});
  }

  /** Puts the call taken out last and its return back into the list. */
  method Unlift<V>(entry: Node<V>, ghost l: Layout<V>, ghost path: seq<int>, ghost a: int)
    requires l.Ok() && Holds(l, LinksOf(l), path + [a]) && a !in path && IsOp(l.h, a)
    requires entry == l.nodes[CallAt(l.h, a)]
    modifies l.head, l.nodes
    ensures LinksOf(l) == Unlifted(l, old(LinksOf(l)), path, a)
    ensures Holds(l, LinksOf(l), path)
  {
    hide WellFormed, LinkedBy, Inserted, KeepsOut;
    ghost var out, c, r := OutOf(l.h, Ids(path)), CallAt(l.h, a), ReturnAt(l.h, a);
    ghost var path', n := path + [a], |path|;
    assert path'[n] == a && path'[..n] == path;
    assert Restorable(l, LinksOf(l), path', n);
    OutMore(l.h, path, a);
    UnliftHolds(l, LinksOf(l), path, a);
    InsertedLinked(l, LinksOf(l), out + {c}, r);
    KeptSaved(l, LinksOf(l), Inserted(l, LinksOf(l), out + {c}, r), out, c);
    assert l.NodeOk(c);
    Relink(entry.partner, l, r, out + {c});
    Relink(entry, l, c, out);
  }

  // ----- building the list -----

  /** What inserting before `mark` may change besides the new node. */
  ghost function Around<V>(mark: Node?<V>): set<object>
    reads mark
  {
    if mark == null then {} else if mark.prev == null then {mark} else {mark, mark.prev}
  }

  method InsertBefore<V>(n: Node<V>, mark: Node?<V>) returns (r: Node<V>)
    requires n !in Around(mark) && n.next == null && n.prev == null && (mark != null ==> mark.prev != mark)
    modifies n, Around(mark)
    ensures r == n && n.next == mark
    ensures mark != null ==> mark.prev == n && mark.next == old(mark.next) && n.prev == old(mark.prev)
    ensures mark != null && old(mark.prev) != null ==>
              old(mark.prev).next == n && old(mark.prev).prev == old(mark.prev.prev)
    ensures mark == null ==> n.prev == null
  {
    if mark != null {
      var beforeMark := mark.prev;
      mark.prev := n;
      n.next := mark;
      if beforeMark != null {
        n.prev := beforeMark;
        beforeMark.next := n;
      }
    }
    r := n;
  }

  /** The nodes of the entries from position `i` on, linked to each other in order. */
  ghost predicate Chain<V>(h: seq<Entry<V>>, i: int, nodes: seq<Node<V>>)
    reads nodes
  {
    && 0 <= i <= |h| && |nodes| == |h| - i
    && (forall j, k :: 0 <= j < k < |nodes| ==> nodes[j] != nodes[k])
    && (forall k :: 0 <= k < |nodes| ==> nodes[k].next == Item(nodes, k + 1) && nodes[k].prev == Item(nodes, k - 1))
  }

  ghost function Item<V>(nodes: seq<Node<V>>, k: int): Node?<V> {
    if 0 <= k < |nodes| then nodes[k] else null
  }

  lemma FirstHasNoPrev<V>(h: seq<Entry<V>>, i: int, nodes: seq<Node<V>>)
    requires Chain(h, i, nodes)
    ensures nodes != [] ==> nodes[0].prev == null
  {
    assert nodes != [] ==> nodes[0].prev == Item(nodes, -1);
  }

  /** Every node carries its entry, and calls point to their returns. */
  ghost predicate Filled<V>(h: seq<Entry<V>>, i: int, nodes: seq<Node<V>>)
    requires WellFormed(h) && 0 <= i <= |h| && |nodes| == |h| - i
  {
    forall j :: i <= j < |h| ==> FilledAt(h, i, nodes, j)
  }

  ghost predicate FilledAt<V>(h: seq<Entry<V>>, i: int, nodes: seq<Node<V>>, j: int)
    requires WellFormed(h) && 0 <= i <= j < |h| && |nodes| == |h| - i
  {
    && nodes[j - i].id == h[j].id && nodes[j - i].value == Some(h[j].value)
    && if h[j].isReturn then nodes[j - i].partner == null
       else IsOp(h, h[j].id) && j <= ReturnAt(h, h[j].id) && nodes[j - i].partner == nodes[ReturnAt(h, h[j].id) - i]
  }

  /** Where the loop finds the return of a call. */
  ghost predicate Returns<V>(h: seq<Entry<V>>, i: int, nodes: seq<Node<V>>, found: map<int, Node<V>>)
    requires 0 <= i <= |h| && |nodes| == |h| - i
  {
    forall j :: i <= j < |h| && h[j].isReturn ==> h[j].id in found && found[h[j].id] == nodes[j - i]
  }

  method MakeLinkedEntries<V>(h: seq<Entry<V>>) returns (root: Node?<V>, ghost nodes: seq<Node<V>>)
    requires WellFormed(h)
    ensures Chain(h, 0, nodes) && Filled(h, 0, nodes) && fresh(nodes)
    ensures root == if h == [] then null else nodes[0]
  {
    hide Filled, Returns;
    root, nodes := null, [];
    var found: map<int, Node<V>> := map[];
    var i := |h|;
    NothingFilled(h, found);
    while i > 0
      invariant Chain(h, i, nodes) && Filled(h, i, nodes) && Returns(h, i, nodes, found) && fresh(nodes)
      invariant root == if i == |h| then null else nodes[0]
    {
      i := i - 1;
      root, found, nodes := AddEntry(h, i, root, found, nodes);
    }
  }

  lemma NothingFilled<V>(h: seq<Entry<V>>, found: map<int, Node<V>>)
    requires WellFormed(h)
    ensures Filled(h, |h|, []) && Returns(h, |h|, [], found)
  {
  }

  /** One round of the loop: the node of entry `i` goes in front. */
  method AddEntry<V>(h: seq<Entry<V>>, i: int, root: Node?<V>, found: map<int, Node<V>>, ghost nodes: seq<Node<V>>)
    returns (root': Node<V>, found': map<int, Node<V>>, ghost nodes': seq<Node<V>>)
    requires WellFormed(h) && 0 <= i < |h|
    requires Chain(h, i + 1, nodes) && Filled(h, i + 1, nodes) && Returns(h, i + 1, nodes, found)
    requires root == if i + 1 == |h| then null else nodes[0]
    modifies nodes
    ensures fresh(root') && nodes' == [root'] + nodes
    ensures Chain(h, i, nodes') && Filled(h, i, nodes') && Returns(h, i, nodes', found')
  {
    hide WellFormed, Filled, Returns;
    EntryPlace(h, i);
    if h[i].isReturn {
      root' := new Node(Some(h[i].value), null, h[i].id);
      found' := found[h[i].id := root'];
    } else {
      ReturnFound(h, i, nodes, found);
      root' := new Node(Some(h[i].value), found[h[i].id], h[i].id);
      found' := found;
    }
    FilledMore(h, i, root', nodes);
    ReturnsMore(h, i, root', nodes, found, found');
    Prepend(h, i, root', root, nodes);
    nodes' := [root'] + nodes;
  }

  method Prepend<V>(ghost h: seq<Entry<V>>, ghost i: int, x: Node<V>, root: Node?<V>, ghost nodes: seq<Node<V>>)
    requires 0 <= i < |h| && Chain(h, i + 1, nodes) && x !in nodes && x.next == null && x.prev == null
    requires root == if i + 1 == |h| then null else nodes[0]
    modifies x, nodes
    ensures Chain(h, i, [x] + nodes)
  {
    FirstHasNoPrev(h, i + 1, nodes);
    var _ := InsertBefore(x, root);
    ghost var all := [x] + nodes;
    forall k | 0 <= k < |all| ensures all[k].next == Item(all, k + 1) && all[k].prev == Item(all, k - 1) {
      if k > 0 {
        assert all[k] == nodes[k - 1];
      }
    }
  }

  lemma ReturnFound<V>(h: seq<Entry<V>>, i: int, nodes: seq<Node<V>>, found: map<int, Node<V>>)
    requires WellFormed(h) && 0 <= i < |h| && |nodes| == |h| - (i + 1) && Returns(h, i + 1, nodes, found)
    requires !h[i].isReturn
    ensures IsOp(h, h[i].id) && i + 1 <= ReturnAt(h, h[i].id)
    ensures h[i].id in found && found[h[i].id] == nodes[ReturnAt(h, h[i].id) - (i + 1)]
  {
    EntryPlace(h, i);
  }

  lemma FilledMore<V>(h: seq<Entry<V>>, i: int, x: Node<V>, nodes: seq<Node<V>>)
    requires WellFormed(h) && 0 <= i < |h| && |nodes| == |h| - (i + 1) && Filled(h, i + 1, nodes)
    requires x.id == h[i].id && x.value == Some(h[i].value)
    requires if h[i].isReturn then x.partner == null
             else && IsOp(h, h[i].id) && i + 1 <= ReturnAt(h, h[i].id)
                  && x.partner == nodes[ReturnAt(h, h[i].id) - (i + 1)]
    ensures Filled(h, i, [x] + nodes)
  {
    hide WellFormed;
    forall j | i <= j < |h| ensures FilledAt(h, i, [x] + nodes, j) {
      if j > i {
        assert FilledAt(h, i + 1, nodes, j);
      }
    }
  }

  lemma ReturnsMore<V>(h: seq<Entry<V>>, i: int, x: Node<V>, nodes: seq<Node<V>>, found: map<int, Node<V>>,
                       found': map<int, Node<V>>)
    requires WellFormed(h) && 0 <= i < |h| && |nodes| == |h| - (i + 1) && Returns(h, i + 1, nodes, found)
    requires found' == if h[i].isReturn then found[h[i].id := x] else found
    ensures Returns(h, i, [x] + nodes, found')
  {
  }

  /** The number of nodes from `n` on. */
  method Length<V>(n: Node?<V>, ghost h: seq<Entry<V>>, ghost nodes: seq<Node<V>>) returns (len: nat)
    requires Chain(h, 0, nodes) && n == Item(nodes, 0)
    ensures len == |h|
  {
    len := 0;
    var n' := n;
    while n' != null
      invariant len <= |nodes| && n' == Item(nodes, len)
      decreases |nodes| - len
    {
      n' := n'.next;
      len := len + 1;
    }
  }

  /** The list of all entries behind a sentinel. */
  method MakeList<V>(h: seq<Entry<V>>) returns (head: Node<V>, root: Node?<V>, n: nat, ghost l: Layout<V>)
    requires WellFormed(h)
    ensures l.h == h && l.head == head && l.Ok() && Holds(l, LinksOf(l), [])
    ensures fresh(head) && fresh(l.nodes)
    ensures root == (if h == [] then null else l.nodes[0]) && n == Count(h)
  {
    hide WellFormed, Filled, Holds;
    ghost var nodes;
    root, nodes := MakeLinkedEntries(h);
    FirstHasNoPrev(h, 0, nodes);
    var len := Length(root, h, nodes);
    n := len / 2;
    var sentinel := new Node(None, null, -1);
    head := InsertBefore(sentinel, root);
    l := Layout(h, nodes, head);
    LayoutOk(l);
    ChainLinked(l);
  }

  lemma LayoutOk<V>(l: Layout<V>)
    requires WellFormed(l.h) && |l.nodes| == |l.h| && Filled(l.h, 0, l.nodes) && l.head !in l.nodes
    requires forall i, j :: 0 <= i < j < |l.nodes| ==> l.nodes[i] != l.nodes[j]
    ensures l.Ok()
  {
    forall j | 0 <= j < |l.h| ensures l.NodeOk(j) {
      assert FilledAt(l.h, 0, l.nodes, j);
      EntryPlace(l.h, j);
    }
  }

  lemma ChainLinked<V>(l: Layout<V>)
    requires l.Ok()
    requires l.head.next == if l.h == [] then null else l.nodes[0]
    requires forall k :: 0 <= k < |l.h| ==> l.nodes[k].next == Item(l.nodes, k + 1)
    requires forall k :: 0 <= k < |l.h| ==> l.nodes[k].prev == if k == 0 then l.head else Item(l.nodes, k - 1)
    ensures Holds(l, LinksOf(l), [])
  {
    hide WellFormed, Layout.NodeOk;
    assert OutOf(l.h, Ids([])) == {};
    var ls := LinksOf(l);
    forall k | -1 <= k < |l.h| ensures ls.next[k + 1] == l.At(NextIn({}, k, |l.h|)) {
      assert ls.next[k + 1] == l.At((k + 1) - 1).next;
      assert NextIn({}, k, |l.h|) == k + 1;
    }
    forall k | 0 <= k < |l.h| ensures ls.prev[k] == l.At(PrevIn({}, k)) {
      assert PrevIn({}, k) == k - 1;
    }
  }
}
