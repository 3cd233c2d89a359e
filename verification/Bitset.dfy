/** The checker's bitset: 64 positions a word, changed in place.  It stands for a finite set. */
module Bitset {

  // ----- one word -----

  predicate Bit(w: bv64, i: bv6) {
    (w >> i) & 1 == 1
  }

  function WithBit(w: bv64, i: bv6): bv64 {
    w | (1 << i)
  }

  function WithoutBit(w: bv64, i: bv6): bv64 {
    w & !(1 << i)
  }

  lemma SetBit(w: bv64, i: bv6, j: bv6)
    ensures Bit(WithBit(w, i), j) == (Bit(w, j) || i == j)
  {
  }

  lemma ClearBit(w: bv64, i: bv6, j: bv6)
    ensures Bit(WithoutBit(w, i), j) == (Bit(w, j) && i != j)
  {
  }

  lemma NoBit(i: bv6)
    ensures !Bit(0, i)
  {
  }

  /** The position of `p` within its word. */
  function Minor(p: nat): bv6 {
    (p % 64) as bv6
  }

  lemma BackAndForth(a: nat)
    requires a < 64
    ensures (a as bv6) as nat == a
  {
  }

  lemma MinorIs(p: nat)
    ensures Minor(p) as nat == p % 64
  {
    BackAndForth(p % 64);
  }

  lemma SameMinor(p: nat, q: nat)
    requires Minor(p) == Minor(q)
    ensures p % 64 == q % 64
  {
    hide Minor;
    MinorIs(p);
    MinorIs(q);
  }

  lemma SamePlace(p: nat, q: nat)
    requires p / 64 == q / 64 && p % 64 == q % 64
    ensures p == q
  {
  }

  /** The lowest `k` bits are zero. */
  predicate LowZero(d: bv64, k: bv7)
    requires k <= 64
  {
    d & (((1 as bv64) << k) - 1) == 0
  }

  lemma LowStart(d: bv64)
    ensures LowZero(d, 0)
  {
  }

  lemma LowStep(v: bv64, w: bv64, k: bv7)
    requires k < 64 && LowZero(v ^ w, k) && Bit(v, k as bv6) == Bit(w, k as bv6)
    ensures LowZero(v ^ w, k + 1)
  {
  }

  lemma LowFull(v: bv64, w: bv64)
    requires LowZero(v ^ w, 64)
    ensures v == w
  {
  }

  lemma {:induction false} LowAll(v: bv64, w: bv64, k: bv7)
    requires k <= 64 && forall i: bv6 :: Bit(v, i) == Bit(w, i)
    ensures LowZero(v ^ w, k)
    decreases k
  {
    hide Bit, LowZero;
    if k == 0 {
      LowStart(v ^ w);
    } else {
      assert Bit(v, (k - 1) as bv6) == Bit(w, (k - 1) as bv6);
      LowAll(v, w, k - 1);
      LowStep(v, w, k - 1);
      assert k - 1 + 1 == k;
    }
  }

  /** Words with the same bits are equal. */
  lemma SameBits(v: bv64, w: bv64)
    requires forall i: bv6 :: Bit(v, i) == Bit(w, i)
    ensures v == w
  {
    LowAll(v, w, 64);
    LowFull(v, w);
  }

  // ----- a sequence of words -----

  predicate Has(words: seq<bv64>, p: nat)
    requires p < 64 * |words|
  {
    Bit(words[p / 64], Minor(p))
  }

  /** The set a sequence of words stands for. */
  ghost function Elements(words: seq<bv64>): set<int> {
    set p: int | 0 <= p < 64 * |words| && Has(words, p)
  }

  lemma SetElements(words: seq<bv64>, p: nat)
    requires p < 64 * |words|
    ensures Elements(words[p / 64 := WithBit(words[p / 64], Minor(p))]) == Elements(words) + {p}
  {
    hide Bit, WithBit, Minor;
    var words' := words[p / 64 := WithBit(words[p / 64], Minor(p))];
    forall q: nat | q < 64 * |words| ensures Has(words', q) == (Has(words, q) || q == p) {
      if q / 64 == p / 64 {
        SetBit(words[p / 64], Minor(p), Minor(q));
        if Minor(p) == Minor(q) {
          SameMinor(p, q);
          SamePlace(p, q);
        }
      }
    }
  }

  lemma ClearElements(words: seq<bv64>, p: nat)
    requires p < 64 * |words|
    ensures Elements(words[p / 64 := WithoutBit(words[p / 64], Minor(p))]) == Elements(words) - {p}
  {
    hide Bit, WithoutBit, Minor;
    var words' := words[p / 64 := WithoutBit(words[p / 64], Minor(p))];
    forall q: nat | q < 64 * |words| ensures Has(words', q) == (Has(words, q) && q != p) {
      if q / 64 == p / 64 {
        ClearBit(words[p / 64], Minor(p), Minor(q));
        if Minor(p) == Minor(q) {
          SameMinor(p, q);
          SamePlace(p, q);
        }
      }
    }
  }

  lemma NoElements(words: seq<bv64>)
    requires forall i :: 0 <= i < |words| ==> words[i] == 0
    ensures Elements(words) == {}
  {
    hide Bit, Minor;
    forall p: nat | p < 64 * |words| ensures !Has(words, p) {
      NoBit(Minor(p));
    }
  }

  /** Bit `k` of word `i` is position `64 * i + k`. */
  lemma PlaceOf(i: nat, k: bv6)
    ensures var p := 64 * i + k as nat; p / 64 == i && Minor(p) == k
  {
  }

  lemma SameElementsAt(v: seq<bv64>, w: seq<bv64>, i: nat)
    requires |v| == |w| && i < |v| && Elements(v) == Elements(w)
    ensures v[i] == w[i]
  {
    hide Bit, Minor;
    forall k: bv6 ensures Bit(v[i], k) == Bit(w[i], k) {
      var p := 64 * i + k as nat;
      PlaceOf(i, k);
      assert p in Elements(v) <==> Has(v, p);
      assert p in Elements(w) <==> Has(w, p);
    }
    SameBits(v[i], w[i]);
  }

  /** Comparing words is comparing sets. */
  lemma SameElements(v: seq<bv64>, w: seq<bv64>)
    requires |v| == |w|
    ensures v == w <==> Elements(v) == Elements(w)
  {
    if Elements(v) == Elements(w) {
      forall i | 0 <= i < |v| ensures v[i] == w[i] {
        SameElementsAt(v, w, i);
      }
    }
  }

  // ----- hashing -----

  function OnesCount(w: bv64, k: nat): nat
    requires k <= 64
  {
    if k == 0 then 0 else OnesCount(w, k - 1) + (if Bit(w, (k - 1) as bv6) then 1 else 0)
  }

  function CountBits(words: seq<bv64>, k: nat): nat
    requires k <= |words|
  {
    if k == 0 then 0 else CountBits(words, k - 1) + OnesCount(words[k - 1], 64)
  }

  /** The count as a 64-bit word. */
  function Word(n: nat): bv64 {
    (n % 0x1_0000_0000_0000_0000) as bv64
  }

  function XorAll(words: seq<bv64>, k: nat, start: bv64): bv64
    requires k <= |words|
  {
    if k == 0 then start else XorAll(words, k - 1, start) ^ words[k - 1]
  }

  /** The positions below `n` that are set. */
  ghost function Below(words: seq<bv64>, n: nat): set<int>
    requires n <= 64 * |words|
  {
    set p: int | 0 <= p < n && Has(words, p)
  }

  lemma BelowMore(words: seq<bv64>, n: nat)
    requires n < 64 * |words|
    ensures |Below(words, n + 1)| == |Below(words, n)| + if Has(words, n) then 1 else 0
  {
    hide Has;
    if Has(words, n) {
      assert Below(words, n + 1) == Below(words, n) + {n};
    } else {
      assert Below(words, n + 1) == Below(words, n);
    }
  }

  /** Counting word by word and bit by bit counts the positions that are set. */
  lemma {:induction false} CountIs(words: seq<bv64>, i: nat, k: nat)
    requires i < |words| && k <= 64
    ensures CountBits(words, i) + OnesCount(words[i], k) == |Below(words, 64 * i + k)|
    decreases i, k
  {
    hide Below, Has, OnesCount;
    if k > 0 {
      CountIs(words, i, k - 1);
      BelowMore(words, 64 * i + (k - 1));
      OneMore(words, i, k - 1);
    } else if i > 0 {
      NoOnes(words[i]);
      CountIs(words, i - 1, 64);
    } else {
      NoOnes(words[i]);
      NothingBelow(words);
    }
  }

  lemma NoOnes(w: bv64)
    ensures OnesCount(w, 0) == 0
  {
  }

  lemma OneMore(words: seq<bv64>, i: nat, k: nat)
    requires i < |words| && k < 64
    ensures OnesCount(words[i], k + 1) == OnesCount(words[i], k) + if Has(words, 64 * i + k) then 1 else 0
  {
    hide Bit, Minor;
    var b := k as bv6;
    BackAndForth(k);
    PlaceOf(i, b);
  }

  lemma NothingBelow(words: seq<bv64>)
    ensures Below(words, 0) == {}
  {
  }

  /** The count is the size of the set. */
  lemma CountIsSize(words: seq<bv64>)
    ensures CountBits(words, |words|) == |Elements(words)|
  {
    hide Has, OnesCount;
    assert Elements(words) == Below(words, 64 * |words|);
    if words == [] {
      NothingBelow(words);
    } else {
      CountIs(words, |words| - 1, 64);
    }
  }

  /** In how many of the first `k` words bit `i` is set. */
  function BitCount(words: seq<bv64>, k: nat, i: bv6): nat
    requires k <= |words|
  {
    if k == 0 then 0 else BitCount(words, k - 1, i) + if Bit(words[k - 1], i) then 1 else 0
  }

  lemma XorBit(v: bv64, w: bv64, i: bv6)
    ensures Bit(v ^ w, i) <==> Bit(v, i) != Bit(w, i)
  {
  }

  /** Folding in the words turns a bit over once for every word that has it. */
  lemma {:induction false} XorParity(words: seq<bv64>, k: nat, start: bv64, i: bv6)
    requires k <= |words|
    ensures Bit(XorAll(words, k, start), i) <==> Bit(start, i) != (BitCount(words, k, i) % 2 == 1)
    decreases k
  {
    hide Bit, XorAll;
    if k == 0 {
      XorNone(words, start);
    } else {
      XorParity(words, k - 1, start, i);
      XorMore(words, k, start, i);
    }
  }

  lemma XorNone(words: seq<bv64>, start: bv64)
    ensures XorAll(words, 0, start) == start
  {
  }

  lemma XorMore(words: seq<bv64>, k: nat, start: bv64, i: bv6)
    requires 0 < k <= |words|
    ensures Bit(XorAll(words, k, start), i) <==> Bit(XorAll(words, k - 1, start), i) != Bit(words[k - 1], i)
  {
    hide Bit, XorAll;
    XorStep(words, k, start);
    XorBit(XorAll(words, k - 1, start), words[k - 1], i);
  }

  lemma XorStep(words: seq<bv64>, k: nat, start: bv64)
    requires 0 < k <= |words|
    ensures XorAll(words, k, start) == XorAll(words, k - 1, start) ^ words[k - 1]
  {
  }

  datatype HashCode = HashCode(bits: bv64)

  function HashOf(words: seq<bv64>): HashCode {
    HashCode(XorAll(words, |words|, Word(CountBits(words, |words|))))
  }

  // ----- the object -----

  class Bitset {
    const data: array<bv64>

    ghost function Set(): set<int>
      reads data
    {
      Elements(data[..])
    }

    ghost predicate Fits(pos: int) {
      0 <= pos < 64 * data.Length
    }

    /** Room for `bits` positions, none set. */
    constructor (bits: nat)
      ensures Set() == {} && fresh(data)
      ensures data.Length == bits / 64 + (if bits % 64 != 0 then 1 else 0) && bits <= 64 * data.Length
    {
      var extra := if bits % 64 != 0 then 1 else 0;
      data := new bv64[bits / 64 + extra](_ => 0);
      new;
      NoElements(data[..]);
    }

    /** A copy that shares nothing with the original. */
    constructor Clone(b: Bitset)
      ensures data[..] == b.data[..] && fresh(data)
    {
      var n := b.data.Length;
      data := new bv64[n](i requires 0 <= i < n reads b.data => if i < b.data.Length then b.data[i] else 0);
    }

    method Add(pos: nat)
      requires Fits(pos)
      modifies data
      ensures Set() == old(Set()) + {pos}
    {
      hide Elements, WithBit, Minor;
      var major, minor := pos / 64, Minor(pos);
      SetElements(data[..], pos);
      ghost var words := data[..];
      data[major] := WithBit(data[major], minor);
      assert data[..] == words[major := WithBit(words[major], minor)];
    }

    method Clear(pos: nat)
      requires Fits(pos)
      modifies data
      ensures Set() == old(Set()) - {pos}
    {
      hide Elements, WithoutBit, Minor;
      var major, minor := pos / 64, Minor(pos);
      ClearElements(data[..], pos);
      ghost var words := data[..];
      data[major] := WithoutBit(data[major], minor);
      assert data[..] == words[major := WithoutBit(words[major], minor)];
    }

    method Popcnt() returns (total: nat)
      ensures total == |Set()| == CountBits(data[..], data.Length)
    {
      CountIsSize(data[..]);
      total := 0;
      var i := 0;
      while i < data.Length
        invariant 0 <= i <= data.Length && total == CountBits(data[..], i)
      {
        total := total + OnesCount(data[i], 64);
        i := i + 1;
      }
    }

    method Hash() returns (code: HashCode)
      ensures code == HashOf(data[..])
      ensures forall i: bv6 ::
                Bit(code.bits, i) <==> Bit(Word(|Set()|), i) != (BitCount(data[..], data.Length, i) % 2 == 1)
    {
      hide Bit, Elements;
      var total := Popcnt();
      var hash := Word(total);
      var i := 0;
      while i < data.Length
        invariant 0 <= i <= data.Length && hash == XorAll(data[..], i, Word(CountBits(data[..], data.Length)))
      {
        hash := hash ^ data[i];
        i := i + 1;
      }
      code := HashCode(hash);
      forall i: bv6
        ensures Bit(hash, i) <==> Bit(Word(total), i) != (BitCount(data[..], data.Length, i) % 2 == 1)
      {
        XorParity(data[..], data.Length, Word(total), i);
      }
    }
  }

  /** Comparing two bitsets word by word. */
  method Equals(b: seq<bv64>, b2: seq<bv64>) returns (r: bool)
    ensures r <==> b == b2
    ensures |b| == |b2| ==> (r <==> Elements(b) == Elements(b2))
  {
    if |b| != |b2| {
      return false;
    }
    SameElements(b, b2);
    var i := 0;
    while i < |b|
      invariant 0 <= i <= |b| && b[..i] == b2[..i]
    {
      if b[i] != b2[i] {
        return false;
      }
      i := i + 1;
    }
    assert b == b[..|b|] && b2 == b2[..|b2|];
    r := true;
  }
}
