/** Reorderings of a sequence, as sequences of positions. */
module Permutations {

  ghost predicate Perm(q: seq<int>, n: int) {
    && |q| == n
    && (forall i :: 0 <= i < |q| ==> 0 <= q[i] < n)
    && forall i, j :: 0 <= i < j < |q| ==> q[i] != q[j]
  }

  ghost function Pick<T>(s: seq<T>, q: seq<int>): (r: seq<T>)
    requires forall i :: 0 <= i < |q| ==> 0 <= q[i] < |s|
    ensures |r| == |q| && forall i :: 0 <= i < |q| ==> r[i] == s[q[i]]
  {
    seq(|q|, i requires 0 <= i < |q| => s[q[i]])
  }

  function Without<T>(s: seq<T>, k: int): (r: seq<T>)
    requires 0 <= k < |s|
    ensures |r| == |s| - 1
  {
    s[..k] + s[k + 1..]
  }

  lemma WithoutMultiset<T>(s: seq<T>, k: int)
    requires 0 <= k < |s|
    ensures multiset(s) == multiset(Without(s, k)) + multiset{s[k]}
  {
    assert s == s[..k] + [s[k]] + s[k + 1..];
  }

  lemma CountAppend<T>(s: seq<T>, x: T, y: T)
    ensures multiset(s + [x])[y] == multiset(s)[y] + if x == y then 1 else 0
  {
  }

  lemma InsertMultiset<T>(s: seq<T>, x: T, k: int)
    requires 0 <= k <= |s|
    ensures multiset(s[..k] + [x] + s[k..]) == multiset(s) + multiset{x}
  {
    assert s == s[..k] + s[k..];
  }

  /** Distinct numbers below `n`: never more than `n`, and all of them if there are `n`. */
  lemma {:induction false} Pigeons(q: seq<int>, n: nat)
    requires forall i :: 0 <= i < |q| ==> 0 <= q[i] < n
    requires forall i, j :: 0 <= i < j < |q| ==> q[i] != q[j]
    ensures |q| <= n && (|q| == n ==> forall x :: 0 <= x < n ==> x in q)
    decreases n
  {
    assert q != [] ==> 0 <= q[0] < n;
    if n > 0 {
      if n - 1 in q {
        var k :| 0 <= k < |q| && q[k] == n - 1;
        var q' := Without(q, k);
        Pigeons(q', n - 1);
        forall x | |q| == n && 0 <= x < n ensures x in q {
          if x != n - 1 {
            assert x in q';
          }
        }
      } else {
        Pigeons(q, n - 1);
      }
    }
  }

  lemma PermHits(q: seq<int>, n: int, x: int)
    requires Perm(q, n) && 0 <= x < n
    ensures x in q
  {
    Pigeons(q, n);
  }

  lemma PickWithout<T>(s: seq<T>, q: seq<int>, k: int)
    requires Perm(q, |s|) && 0 <= k < |q| && q[k] == |s| - 1
    ensures Perm(Without(q, k), |s| - 1) && Pick(s[..|s| - 1], Without(q, k)) == Without(Pick(s, q), k)
  {
    var q', n := Without(q, k), |s| - 1;
    forall i | 0 <= i < |q'| ensures 0 <= q'[i] < n && q'[i] == q[Shift(i, k)] {
      assert q[Shift(i, k)] != q[k];
    }
    forall i, j | 0 <= i < j < |q'| ensures q'[i] != q'[j] {
      assert q[Shift(i, k)] != q[Shift(j, k)];
    }
  }

  /** Reordering keeps the elements. */
  lemma {:induction false} PickPerm<T>(s: seq<T>, q: seq<int>)
    requires Perm(q, |s|)
    ensures multiset(Pick(s, q)) == multiset(s)
    decreases |s|
  {
    if s == [] {
      assert q == [] && Pick(s, q) == [];
    } else {
      var n := |s| - 1;
      PermHits(q, |s|, n);
      var k :| 0 <= k < |q| && q[k] == n;
      PickWithout(s, q, k);
      hide Perm, Without;
      PickPerm(s[..n], Without(q, k));
      WithoutMultiset(Pick(s, q), k);
      assert s == s[..n] + [s[n]];
    }
  }

  /** Position `i` of the sequence without position `k`, in the whole sequence. */
  function Shift(i: int, k: int): int {
    if i < k then i else i + 1
  }

  ghost function Shifted(q: seq<int>, k: int): (r: seq<int>)
    ensures |r| == |q| && forall i :: 0 <= i < |q| ==> r[i] == Shift(q[i], k)
  {
    seq(|q|, i requires 0 <= i < |q| => Shift(q[i], k))
  }

  lemma PermMore(q: seq<int>, k: int, n: int)
    requires Perm(q, n) && 0 <= k <= n
    ensures Perm([k] + Shifted(q, k), n + 1)
  {
    var r := [k] + Shifted(q, k);
    forall i, j | 0 <= i < j < |r| ensures r[i] != r[j] {
      assert i > 0 ==> q[i - 1] != q[j - 1];
    }
  }

  lemma TakeEqual<T>(a: seq<T>, b: seq<T>, k: int)
    requires a != [] && multiset(a) == multiset(b) && 0 <= k < |b| && b[k] == a[0]
    ensures multiset(a[1..]) == multiset(Without(b, k))
  {
    assert a == [a[0]] + a[1..];
    WithoutMultiset(b, k);
    assert multiset(a[1..]) == multiset(a) - multiset{a[0]};
  }

  /** Sequences with the same elements are reorderings of each other. */
  lemma {:induction false} FindPerm<T>(a: seq<T>, b: seq<T>) returns (q: seq<int>)
    requires multiset(a) == multiset(b)
    ensures Perm(q, |b|) && a == Pick(b, q)
    decreases |a|
  {
    if a == [] {
      assert |multiset(b)| == |b| == 0;
      q := [];
    } else {
      assert a[0] in multiset(b);
      var k :| 0 <= k < |b| && b[k] == a[0];
      TakeEqual(a, b, k);
      var b' := Without(b, k);
      var q' := FindPerm(a[1..], b');
      PermMore(q', k, |b'|);
      q := [k] + Shifted(q', k);
      forall i | 0 <= i < |q| ensures a[i] == b[q[i]] {
        assert i > 0 ==> a[i] == a[1..][i - 1] == b'[q'[i - 1]];
      }
    }
  }

  // ----- sequences without repetition -----

  ghost predicate Distinct<T>(q: seq<T>) {
    forall i, j :: 0 <= i < j < |q| ==> q[i] != q[j]
  }

  lemma {:induction false} CountDistinct<T>(q: seq<T>, x: T)
    requires Distinct(q)
    ensures multiset(q)[x] == if x in q then 1 else 0
    decreases |q|
  {
    if q != [] {
      assert q == [q[0]] + q[1..];
      CountDistinct(q[1..], x);
    }
  }

  /** Without repetition, the same members are the same elements. */
  lemma SameListing<T(!new)>(a: seq<T>, b: seq<T>)
    requires Distinct(a) && Distinct(b) && forall x :: x in a <==> x in b
    ensures multiset(a) == multiset(b)
  {
    forall x ensures multiset(a)[x] == multiset(b)[x] {
      CountDistinct(a, x);
      CountDistinct(b, x);
    }
  }

  /** The same elements as a sequence without repetition repeat nothing. */
  lemma DistinctElements<T>(a: seq<T>, b: seq<T>)
    requires Distinct(a) && multiset(a) == multiset(b)
    ensures Distinct(b)
  {
    forall i, j | 0 <= i < j < |b| ensures b[i] != b[j] {
      CountDistinct(a, b[i]);
      assert b == b[..j] + b[j..] && b[i] == b[..j][i];
    }
  }
}
