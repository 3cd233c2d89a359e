/** MapReduce: map tasks that split their output into buckets, reduce tasks that merge, sort and
    group one bucket of every map task, and the sequential program they must agree with. */
module MapReduce {
  import opened Permutations
  import opened Strings

  datatype KeyValue = KeyValue(key: string, value: string)

  datatype File = File(name: string, content: string)

  type MapF = (string, string) -> seq<KeyValue>
  type ReduceF = (string, seq<string>) -> string

  // ----- values by key -----

  /** The values of a key, in order. */
  ghost function ValuesOf(kvs: seq<KeyValue>, key: string): seq<string>
    decreases |kvs|
  {
    if kvs == [] then []
    else
      var n := |kvs| - 1;
      ValuesOf(kvs[..n], key) + if kvs[n].key == key then [kvs[n].value] else []
  }

  lemma ValuesMore(kvs: seq<KeyValue>, kv: KeyValue, key: string)
    ensures ValuesOf(kvs + [kv], key) == ValuesOf(kvs, key) + if kv.key == key then [kv.value] else []
  {
    assert (kvs + [kv])[..|kvs|] == kvs;
  }

  lemma {:induction false} ValuesConcat(a: seq<KeyValue>, b: seq<KeyValue>, key: string)
    ensures ValuesOf(a + b, key) == ValuesOf(a, key) + ValuesOf(b, key)
    decreases |b|
  {
    if b == [] {
      assert a + b == a;
    } else {
      hide ValuesOf;
      var n := |b| - 1;
      ValuesConcat(a, b[..n], key);
      assert a + b == (a + b[..n]) + [b[n]];
      ValuesMore(a + b[..n], b[n], key);
      assert b == b[..n] + [b[n]];
      ValuesMore(b[..n], b[n], key);
      Grouped(ValuesOf(a, key), ValuesOf(b[..n], key), if b[n].key == key then [b[n].value] else []);
    }
  }

  lemma Grouped(a: seq<string>, b: seq<string>, c: seq<string>)
    ensures (a + b) + c == a + (b + c)
  {
  }

  lemma {:induction false} ValuesCount(kvs: seq<KeyValue>, key: string, value: string)
    ensures multiset(ValuesOf(kvs, key))[value] == multiset(kvs)[KeyValue(key, value)]
    decreases |kvs|
  {
    if kvs != [] {
      var n := |kvs| - 1;
      ValuesCount(kvs[..n], key, value);
      hide ValuesOf;
      assert kvs == kvs[..n] + [kvs[n]];
      CountAppend(kvs[..n], kvs[n], KeyValue(key, value));
      ValuesMore(kvs[..n], kvs[n], key);
      if kvs[n].key == key {
        CountAppend(ValuesOf(kvs[..n], key), kvs[n].value, value);
      } else {
        assert ValuesOf(kvs, key) == ValuesOf(kvs[..n], key);
      }
    }
  }

  /** Sorting changes the order of a key's values, never which they are. */
  lemma ValuesPermuted(a: seq<KeyValue>, b: seq<KeyValue>, key: string)
    requires multiset(a) == multiset(b)
    ensures multiset(ValuesOf(a, key)) == multiset(ValuesOf(b, key))
  {
    forall value ensures multiset(ValuesOf(a, key))[value] == multiset(ValuesOf(b, key))[value] {
      ValuesCount(a, key, value);
      ValuesCount(b, key, value);
    }
  }

  ghost predicate HasKey(kvs: seq<KeyValue>, key: string) {
    exists i :: 0 <= i < |kvs| && kvs[i].key == key
  }

  lemma {:induction false} NoValues(kvs: seq<KeyValue>, key: string)
    ensures ValuesOf(kvs, key) != [] <==> HasKey(kvs, key)
    decreases |kvs|
  {
    if kvs != [] {
      var n := |kvs| - 1;
      NoValues(kvs[..n], key);
      if HasKey(kvs, key) {
        var i :| 0 <= i < |kvs| && kvs[i].key == key;
        assert i < n ==> kvs[..n][i].key == key;
      }
      if HasKey(kvs[..n], key) {
        var i :| 0 <= i < n && kvs[..n][i].key == key;
        assert kvs[i].key == key;
      }
    }
  }

  // ----- what a reduce must produce -----

  /** The reduce function does not care in which order it gets the values. */
  ghost predicate OrderBlind(reducef: ReduceF) {
    forall key, a, b :: a != [] && multiset(a) == multiset(b) ==> reducef(key, a) == reducef(key, b)
  }

  /** A reduction of all values of the key, in some order. */
  ghost predicate Reduction(reducef: ReduceF, kvs: seq<KeyValue>, key: string, value: string) {
    exists values :: multiset(values) == multiset(ValuesOf(kvs, key)) && value == reducef(key, values)
  }

  ghost predicate AscendingKeys(out: seq<KeyValue>) {
    forall i, j :: 0 <= i < j < |out| ==> StringLess(out[i].key, out[j].key)
  }

  /** One line per key, in the order of the keys, each a reduction of all values of its key. */
  ghost predicate Reduced(out: seq<KeyValue>, kvs: seq<KeyValue>, reducef: ReduceF) {
    && AscendingKeys(out)
    && (forall i :: 0 <= i < |out| ==> HasKey(kvs, out[i].key) && Reduction(reducef, kvs, out[i].key, out[i].value))
    && (forall key :: HasKey(kvs, key) ==> HasKey(out, key))
  }

  // ----- sorting and grouping -----

  ghost predicate SortedByKey(kvs: seq<KeyValue>) {
    forall i, j :: 0 <= i < j < |kvs| ==> !StringLess(kvs[j].key, kvs[i].key)
  }

  /** A sort by key, in place of the library's; equal keys may end in any order. */
  method SortByKey(kvs: seq<KeyValue>) returns (r: seq<KeyValue>)
    ensures multiset(r) == multiset(kvs) && SortedByKey(r)
  {
    hide StringLess;
    r := [];
    for n := 0 to |kvs|
      invariant multiset(r) == multiset(kvs[..n]) && SortedByKey(r)
    {
      var kv, k := kvs[n], |r|;
      while k > 0 && StringLess(kv.key, r[k - 1].key)
        invariant 0 <= k <= |r| && forall i :: k <= i < |r| ==> StringLess(kv.key, r[i].key)
      {
        k := k - 1;
      }
      SortedInsert(r, kv, k);
      assert kvs[..n + 1] == kvs[..n] + [kv];
      InsertMultiset(r, kv, k);
      r := r[..k] + [kv] + r[k..];
    }
    assert kvs[..|kvs|] == kvs;
  }

  lemma SortedInsert(r: seq<KeyValue>, kv: KeyValue, k: int)
    requires SortedByKey(r) && 0 <= k <= |r|
    requires (forall i :: k <= i < |r| ==> StringLess(kv.key, r[i].key))
    requires k > 0 ==> !StringLess(kv.key, r[k - 1].key)
    ensures SortedByKey(r[..k] + [kv] + r[k..])
  {
    hide StringLess;
    var r' := r[..k] + [kv] + r[k..];
    forall i, j | 0 <= i < j < |r'| ensures !StringLess(r'[j].key, r'[i].key) {
      if i == k {
        StringAsymmetric(kv.key, r[j - 1].key);
      } else if j == k && i < k - 1 {
        if StringLess(kv.key, r[i].key) {
          LessThrough(kv.key, r[i].key, r[k - 1].key);
        }
      }
    }
  }

  lemma StringAsymmetric(a: string, b: string)
    requires StringLess(a, b)
    ensures !StringLess(b, a)
  {
    if StringLess(b, a) {
      StringTransitive(a, b, a);
      StringIrreflexive(a);
    }
  }

  lemma LessThrough(a: string, b: string, c: string)
    requires StringLess(a, b) && !StringLess(c, b)
    ensures StringLess(a, c)
  {
    StringOrder(b, c);
    if StringLess(b, c) {
      StringTransitive(a, b, c);
    }
  }

  /** A group ends before `i`: every key before it is smaller than every key from it on. */
  ghost predicate Boundary(kvs: seq<KeyValue>, i: int)
    requires 0 <= i <= |kvs|
  {
    forall a, b :: 0 <= a < i <= b < |kvs| ==> StringLess(kvs[a].key, kvs[b].key)
  }

  /** From `i` to `j` is one key. */
  ghost predicate OneGroup(kvs: seq<KeyValue>, i: int, j: int)
    requires 0 <= i <= j <= |kvs|
  {
    forall k :: i <= k < j ==> kvs[k].key == kvs[i].key
  }

  lemma GroupEnds(kvs: seq<KeyValue>, i: int, j: int)
    requires SortedByKey(kvs) && 0 <= i < j <= |kvs| && Boundary(kvs, i) && OneGroup(kvs, i, j)
    requires j < |kvs| ==> kvs[j].key != kvs[i].key
    ensures Boundary(kvs, j)
  {
    hide StringLess;
    forall a, b | 0 <= a < j <= b < |kvs| ensures StringLess(kvs[a].key, kvs[b].key) {
      if a >= i {
        assert kvs[a].key == kvs[i].key;
        StringOrder(kvs[i].key, kvs[j].key);
        assert !StringLess(kvs[j].key, kvs[i].key);
        if b > j {
          LessThrough(kvs[i].key, kvs[j].key, kvs[b].key);
        }
      }
    }
  }

  /** The values of a key after one more group. */
  lemma GroupValues(kvs: seq<KeyValue>, i: int, j: int, key: string)
    requires 0 <= i < j <= |kvs| && Boundary(kvs, i) && OneGroup(kvs, i, j)
    ensures key != kvs[i].key ==> ValuesOf(kvs[..j], key) == ValuesOf(kvs[..i], key)
    ensures key == kvs[i].key ==> ValuesOf(kvs[..j], key) == ValuesOf(kvs[i..j], key) && !HasKey(kvs[..i], key)
  {
    assert kvs[..j] == kvs[..i] + kvs[i..j];
    ValuesConcat(kvs[..i], kvs[i..j], key);
    NoValues(kvs[..i], key);
    NoValues(kvs[i..j], key);
    if key == kvs[i].key {
      StringIrreflexive(key);
      if HasKey(kvs[..i], key) {
        BeforeGroup(kvs, i, key);
      }
    } else {
      assert !HasKey(kvs[i..j], key);
    }
  }

  lemma HasKeySplit(kvs: seq<KeyValue>, i: int, j: int, key: string)
    requires 0 <= i < j <= |kvs| && OneGroup(kvs, i, j)
    ensures HasKey(kvs[..j], key) <==> HasKey(kvs[..i], key) || key == kvs[i].key
  {
    if HasKey(kvs[..j], key) {
      var a :| 0 <= a < j && kvs[..j][a].key == key;
      assert a < i ==> kvs[..i][a].key == key;
    }
    if HasKey(kvs[..i], key) {
      var a :| 0 <= a < i && kvs[..i][a].key == key;
      assert kvs[..j][a].key == key;
    }
    assert kvs[..j][i].key == kvs[i].key;
  }

  lemma HasKeyMore(kvs: seq<KeyValue>, kv: KeyValue, key: string)
    ensures HasKey(kvs + [kv], key) <==> HasKey(kvs, key) || key == kv.key
  {
    if HasKey(kvs, key) {
      var i :| 0 <= i < |kvs| && kvs[i].key == key;
      assert (kvs + [kv])[i].key == key;
    }
    assert (kvs + [kv])[|kvs|] == kv;
  }

  lemma GroupReduced(kvs: seq<KeyValue>, i: int, j: int, out: seq<KeyValue>, reducef: ReduceF)
    requires 0 <= i < j <= |kvs| && Boundary(kvs, i) && OneGroup(kvs, i, j) && Reduced(out, kvs[..i], reducef)
    ensures var key := kvs[i].key;
            Reduced(out + [KeyValue(key, reducef(key, ValuesOf(kvs[i..j], key)))], kvs[..j], reducef)
  {
    hide StringLess, ValuesOf, HasKey;
    var line := KeyValue(kvs[i].key, reducef(kvs[i].key, ValuesOf(kvs[i..j], kvs[i].key)));
    var out' := out + [line];
    forall k | 0 <= k < |out'|
      ensures HasKey(kvs[..j], out'[k].key) && Reduction(reducef, kvs[..j], out'[k].key, out'[k].value)
      ensures k < |out| ==> StringLess(out'[k].key, line.key)
    {
      HasKeySplit(kvs, i, j, out'[k].key);
      GroupValues(kvs, i, j, out'[k].key);
      if k < |out| {
        BeforeGroup(kvs, i, out'[k].key);
      }
    }
    forall key | HasKey(kvs[..j], key) ensures HasKey(out', key) {
      HasKeySplit(kvs, i, j, key);
      HasKeyMore(out, line, key);
    }
  }

  lemma BeforeGroup(kvs: seq<KeyValue>, i: int, key: string)
    requires 0 <= i < |kvs| && Boundary(kvs, i) && HasKey(kvs[..i], key)
    ensures StringLess(key, kvs[i].key)
  {
    var a :| 0 <= a < i && kvs[..i][a].key == key;
    assert kvs[a].key == key;
  }

  /** Calls reduce on each distinct key of a sorted sequence. */
  method GroupAndReduce(intermediate: seq<KeyValue>, reducef: ReduceF) returns (out: seq<KeyValue>)
    requires SortedByKey(intermediate)
    ensures Reduced(out, intermediate, reducef)
  {
    hide StringLess, ValuesOf, HasKey, Reduced;
    out := [];
    NothingReduced(intermediate, reducef);
    var i := 0;
    while i < |intermediate|
      invariant 0 <= i <= |intermediate| && Boundary(intermediate, i) && Reduced(out, intermediate[..i], reducef)
    {
      var j := i + 1;
      while j < |intermediate| && intermediate[j].key == intermediate[i].key
        invariant i < j <= |intermediate| && OneGroup(intermediate, i, j)
      {
        j := j + 1;
      }
      var values := [];
      NoneYet(intermediate, i);
      for k := i to j
        invariant values == ValuesOf(intermediate[i..k], intermediate[i].key)
      {
        assert intermediate[i..k + 1] == intermediate[i..k] + [intermediate[k]];
        ValuesMore(intermediate[i..k], intermediate[k], intermediate[i].key);
        values := values + [intermediate[k].value];
      }
      var output := reducef(intermediate[i].key, values);
      GroupReduced(intermediate, i, j, out, reducef);
      GroupEnds(intermediate, i, j);
      out := out + [KeyValue(intermediate[i].key, output)];
      i := j;
    }
    assert intermediate[..|intermediate|] == intermediate;
  }

  lemma NothingReduced(kvs: seq<KeyValue>, reducef: ReduceF)
    ensures Reduced([], kvs[..0], reducef)
  {
  }

  lemma NoneYet(kvs: seq<KeyValue>, i: int)
    requires 0 <= i < |kvs|
    ensures ValuesOf(kvs[i..i], kvs[i].key) == []
  {
  }

  // ----- map tasks -----

  /** The pairs of one bucket, in order. */
  ghost function InBucket(kvs: seq<KeyValue>, hash: string -> nat, nReduce: nat, r: int): seq<KeyValue>
    requires nReduce > 0
    decreases |kvs|
  {
    if kvs == [] then []
    else
      var n := |kvs| - 1;
      InBucket(kvs[..n], hash, nReduce, r) + if hash(kvs[n].key) % nReduce == r then [kvs[n]] else []
  }

  lemma BucketMore(kvs: seq<KeyValue>, kv: KeyValue, hash: string -> nat, nReduce: nat, r: int)
    requires nReduce > 0
    ensures InBucket(kvs + [kv], hash, nReduce, r) ==
            InBucket(kvs, hash, nReduce, r) + if hash(kv.key) % nReduce == r then [kv] else []
  {
    assert (kvs + [kv])[..|kvs|] == kvs;
  }

  /** Splits the output of one map call into buckets by the hash of the key. */
  method DoMap(file: File, mapf: MapF, hash: string -> nat, nReduce: nat) returns (result: seq<seq<KeyValue>>)
    requires nReduce > 0
    ensures |result| == nReduce
    ensures forall r :: 0 <= r < nReduce ==> result[r] == InBucket(mapf(file.name, file.content), hash, nReduce, r)
  {
    hide InBucket;
    var kva := mapf(file.name, file.content);
    var buckets := new seq<KeyValue>[nReduce](_ => []);
    EmptyBuckets(kva, hash, nReduce);
    for i := 0 to |kva|
      invariant forall r :: 0 <= r < nReduce ==> buckets[r] == InBucket(kva[..i], hash, nReduce, r)
    {
      var kv := kva[i];
      var num := hash(kv.key) % nReduce;
      assert kva[..i + 1] == kva[..i] + [kv];
      forall r | 0 <= r < nReduce
        ensures InBucket(kva[..i + 1], hash, nReduce, r) ==
                InBucket(kva[..i], hash, nReduce, r) + if num == r then [kv] else []
      {
        BucketMore(kva[..i], kv, hash, nReduce, r);
      }
      buckets[num] := buckets[num] + [kv];
    }
    assert kva[..|kva|] == kva;
    result := buckets[..];
  }

  lemma EmptyBuckets(kvs: seq<KeyValue>, hash: string -> nat, nReduce: nat)
    requires nReduce > 0
    ensures forall r :: InBucket(kvs[..0], hash, nReduce, r) == []
  {
  }

  /** A key keeps all its values, in order, in its bucket, and has none in another. */
  lemma {:induction false} BucketValues(kvs: seq<KeyValue>, hash: string -> nat, nReduce: nat, r: int, key: string)
    requires nReduce > 0
    ensures ValuesOf(InBucket(kvs, hash, nReduce, r), key) ==
            if hash(key) % nReduce == r then ValuesOf(kvs, key) else []
    decreases |kvs|
  {
    if kvs != [] {
      var n := |kvs| - 1;
      BucketValues(kvs[..n], hash, nReduce, r, key);
      hide ValuesOf;
      ValuesTail(kvs, key);
      if hash(kvs[n].key) % nReduce == r {
        ValuesMore(InBucket(kvs[..n], hash, nReduce, r), kvs[n], key);
      } else {
        assert InBucket(kvs, hash, nReduce, r) == InBucket(kvs[..n], hash, nReduce, r);
      }
    }
  }

  lemma ValuesTail(kvs: seq<KeyValue>, key: string)
    requires kvs != []
    ensures var n := |kvs| - 1;
            ValuesOf(kvs, key) == ValuesOf(kvs[..n], key) + if kvs[n].key == key then [kvs[n].value] else []
  {
  }

  // ----- the two programs -----

  /** All map output, file after file. */
  ghost function MapAll(files: seq<File>, mapf: MapF): seq<KeyValue>
    decreases |files|
  {
    if files == [] then []
    else
      var n := |files| - 1;
      MapAll(files[..n], mapf) + mapf(files[n].name, files[n].content)
  }

  /** What one reduce task reads: its bucket of every map task. */
  ghost function Shuffled(files: seq<File>, mapf: MapF, hash: string -> nat, nReduce: nat, r: int): seq<KeyValue>
    requires nReduce > 0
    decreases |files|
  {
    if files == [] then []
    else
      var n := |files| - 1;
      Shuffled(files[..n], mapf, hash, nReduce, r) + InBucket(mapf(files[n].name, files[n].content), hash, nReduce, r)
  }

  /** The shuffle brings together exactly the values of the keys of the reducer, in the order the
      sequential program meets them. */
  lemma {:induction false} ShuffledValues(files: seq<File>, mapf: MapF, hash: string -> nat, nReduce: nat, r: int,
                                          key: string)
    requires nReduce > 0
    ensures ValuesOf(Shuffled(files, mapf, hash, nReduce, r), key) ==
            if hash(key) % nReduce == r then ValuesOf(MapAll(files, mapf), key) else []
    decreases |files|
  {
    hide ValuesOf, InBucket;
    if files == [] {
      NothingHasValues(key);
    } else {
      var n := |files| - 1;
      var kva := mapf(files[n].name, files[n].content);
      ShuffledValues(files[..n], mapf, hash, nReduce, r, key);
      BucketValues(kva, hash, nReduce, r, key);
      ValuesConcat(Shuffled(files[..n], mapf, hash, nReduce, r), InBucket(kva, hash, nReduce, r), key);
      ValuesConcat(MapAll(files[..n], mapf), kva, key);
    }
  }

  lemma NothingHasValues(key: string)
    ensures ValuesOf([], key) == []
  {
  }

  lemma SortedReduced(out: seq<KeyValue>, sorted: seq<KeyValue>, kvs: seq<KeyValue>, reducef: ReduceF)
    requires multiset(sorted) == multiset(kvs) && Reduced(out, sorted, reducef)
    ensures Reduced(out, kvs, reducef)
  {
    hide StringLess, ValuesOf, HasKey;
    forall key ensures HasKey(sorted, key) <==> HasKey(kvs, key) {
      NoValues(sorted, key);
      NoValues(kvs, key);
      ValuesPermuted(sorted, kvs, key);
      SameEmpty(ValuesOf(sorted, key), ValuesOf(kvs, key));
    }
    forall i | 0 <= i < |out| ensures Reduction(reducef, kvs, out[i].key, out[i].value) {
      ValuesPermuted(sorted, kvs, out[i].key);
    }
  }

  lemma SameEmpty(a: seq<string>, b: seq<string>)
    requires multiset(a) == multiset(b)
    ensures a == [] <==> b == []
  {
    assert |multiset(a)| == |a| && |multiset(b)| == |b|;
  }

  /** A reduce task: merges its buckets, sorts, groups and reduces. */
  method DoReduce(mapped: seq<seq<seq<KeyValue>>>, r: nat, reducef: ReduceF,
                  ghost files: seq<File>, ghost mapf: MapF, ghost hash: string -> nat, ghost nReduce: nat)
    returns (out: seq<KeyValue>)
    requires r < nReduce && |mapped| == |files|
    requires forall i :: 0 <= i < |mapped| ==>
               && |mapped[i]| == nReduce
               && mapped[i][r] == InBucket(mapf(files[i].name, files[i].content), hash, nReduce, r)
    ensures Reduced(out, Shuffled(files, mapf, hash, nReduce, r), reducef)
  {
    hide InBucket, Reduced;
    var intermediate: seq<KeyValue> := [];
    for i := 0 to |mapped|
      invariant intermediate == Shuffled(files[..i], mapf, hash, nReduce, r)
    {
      assert files[..i + 1][..i] == files[..i];
      intermediate := intermediate + mapped[i][r];
    }
    assert files[..|files|] == files;
    var sorted := SortByKey(intermediate);
    out := GroupAndReduce(sorted, reducef);
    SortedReduced(out, sorted, intermediate, reducef);
  }

  /** The distributed program: one output per reduce task. */
  method Distributed(files: seq<File>, mapf: MapF, reducef: ReduceF, hash: string -> nat, nReduce: nat)
    returns (outs: seq<seq<KeyValue>>)
    requires nReduce > 0
    ensures |outs| == nReduce
    ensures forall r :: 0 <= r < nReduce ==> Reduced(outs[r], Shuffled(files, mapf, hash, nReduce, r), reducef)
  {
    hide InBucket, Reduced, Shuffled;
    var mapped: seq<seq<seq<KeyValue>>> := [];
    for i := 0 to |files|
      invariant |mapped| == i
      invariant forall k :: 0 <= k < i ==> |mapped[k]| == nReduce
      invariant forall k, r :: 0 <= k < i && 0 <= r < nReduce ==>
                  mapped[k][r] == InBucket(mapf(files[k].name, files[k].content), hash, nReduce, r)
    {
      var buckets := DoMap(files[i], mapf, hash, nReduce);
      mapped := mapped + [buckets];
    }
    outs := [];
    for r := 0 to nReduce
      invariant |outs| == r
      invariant forall k :: 0 <= k < r ==> Reduced(outs[k], Shuffled(files, mapf, hash, nReduce, k), reducef)
    {
      var out := DoReduce(mapped, r, reducef, files, mapf, hash, nReduce);
      outs := outs + [out];
    }
  }

  /** The sequential program. */
  method Sequential(files: seq<File>, mapf: MapF, reducef: ReduceF) returns (out: seq<KeyValue>)
    ensures Reduced(out, MapAll(files, mapf), reducef)
  {
    hide Reduced;
    var intermediate: seq<KeyValue> := [];
    for i := 0 to |files|
      invariant intermediate == MapAll(files[..i], mapf)
    {
      assert files[..i + 1][..i] == files[..i];
      intermediate := intermediate + mapf(files[i].name, files[i].content);
    }
    assert files[..|files|] == files;
    var sorted := SortByKey(intermediate);
    out := GroupAndReduce(sorted, reducef);
    SortedReduced(out, sorted, intermediate, reducef);
  }

  // ----- they mean the same -----

  /** There is one line for each key, and its value is known if the order of values does not matter. */
  lemma ReducedLine(out: seq<KeyValue>, kvs: seq<KeyValue>, reducef: ReduceF, line: KeyValue)
    requires OrderBlind(reducef) && Reduced(out, kvs, reducef)
    ensures line in out <==> HasKey(kvs, line.key) && line.value == reducef(line.key, ValuesOf(kvs, line.key))
  {
    hide ValuesOf, StringLess;
    NoValues(kvs, line.key);
    forall i | 0 <= i < |out| && out[i].key == line.key
      ensures out[i].value == reducef(line.key, ValuesOf(kvs, line.key))
    {
      assert HasKey(kvs, line.key);
      OnlyReduction(reducef, kvs, line.key, out[i].value);
    }
    if HasKey(kvs, line.key) {
      assert HasKey(out, line.key);
      var i :| 0 <= i < |out| && out[i].key == line.key;
      assert out[i] == KeyValue(line.key, reducef(line.key, ValuesOf(kvs, line.key)));
    }
  }

  lemma OnlyReduction(reducef: ReduceF, kvs: seq<KeyValue>, key: string, value: string)
    requires OrderBlind(reducef) && Reduction(reducef, kvs, key, value) && ValuesOf(kvs, key) != []
    ensures value == reducef(key, ValuesOf(kvs, key))
  {
    hide ValuesOf;
    var values :| multiset(values) == multiset(ValuesOf(kvs, key)) && value == reducef(key, values);
    assert reducef(key, ValuesOf(kvs, key)) == reducef(key, values);
  }

  lemma ReducedDistinct(out: seq<KeyValue>, kvs: seq<KeyValue>, reducef: ReduceF)
    requires Reduced(out, kvs, reducef)
    ensures Distinct(out)
  {
    hide ValuesOf, StringLess, HasKey;
    forall i, j | 0 <= i < j < |out| ensures out[i] != out[j] {
      StringIrreflexive(out[i].key);
      assert StringLess(out[i].key, out[j].key);
    }
  }

  /** A line of the sequential output is in the output of the reducer its key hashes to, and in no other. */
  lemma LineInTask(files: seq<File>, mapf: MapF, reducef: ReduceF, hash: string -> nat, nReduce: nat,
                   outs: seq<seq<KeyValue>>, out: seq<KeyValue>, r: int, line: KeyValue)
    requires OrderBlind(reducef) && nReduce > 0 && |outs| == nReduce && 0 <= r < nReduce
    requires Reduced(outs[r], Shuffled(files, mapf, hash, nReduce, r), reducef)
    requires Reduced(out, MapAll(files, mapf), reducef)
    ensures line in outs[r] <==> line in out && hash(line.key) % nReduce == r
  {
    hide OrderBlind, Reduced, ValuesOf, HasKey, Shuffled, MapAll;
    ReducedLine(outs[r], Shuffled(files, mapf, hash, nReduce, r), reducef, line);
    ReducedLine(out, MapAll(files, mapf), reducef, line);
    ShuffledValues(files, mapf, hash, nReduce, r, line.key);
    NoValues(Shuffled(files, mapf, hash, nReduce, r), line.key);
    NoValues(MapAll(files, mapf), line.key);
  }

  ghost function Concat(outs: seq<seq<KeyValue>>): seq<KeyValue>
    decreases |outs|
  {
    if outs == [] then [] else Concat(outs[..|outs| - 1]) + outs[|outs| - 1]
  }

  lemma {:induction false} ConcatIn(outs: seq<seq<KeyValue>>, line: KeyValue)
    ensures line in Concat(outs) <==> exists r :: 0 <= r < |outs| && line in outs[r]
    decreases |outs|
  {
    if outs != [] {
      var n := |outs| - 1;
      ConcatIn(outs[..n], line);
      if r :| 0 <= r < |outs| && line in outs[r] {
        assert r < n ==> line in outs[..n][r];
      }
      if r :| 0 <= r < n && line in outs[..n][r] {
        assert line in outs[r];
      }
    }
  }

  /** Outputs that share no line, each without repetition. */
  ghost predicate Separate(outs: seq<seq<KeyValue>>) {
    && (forall r :: 0 <= r < |outs| ==> Distinct(outs[r]))
    && forall q, r, line :: 0 <= q < |outs| && 0 <= r < |outs| && line in outs[q] && line in outs[r] ==> q == r
  }

  lemma {:induction false} ConcatDistinct(outs: seq<seq<KeyValue>>)
    requires Separate(outs)
    ensures Distinct(Concat(outs))
    decreases |outs|
  {
    if outs != [] {
      var n := |outs| - 1;
      var less := outs[..n];
      assert forall r :: 0 <= r < n ==> less[r] == outs[r];
      ConcatDistinct(less);
      var a, b := Concat(less), outs[n];
      forall i, j | 0 <= i < |a| && 0 <= j < |b| ensures a[i] != b[j] {
        ConcatIn(less, a[i]);
        assert a[i] in a && b[j] in b;
        var r :| 0 <= r < n && a[i] in less[r];
        assert a[i] in outs[r];
      }
      DistinctConcat(a, b);
    }
  }

  lemma DistinctConcat(a: seq<KeyValue>, b: seq<KeyValue>)
    requires Distinct(a) && Distinct(b) && forall i, j :: 0 <= i < |a| && 0 <= j < |b| ==> a[i] != b[j]
    ensures Distinct(a + b)
  {
  }

  /** The outputs of all reduce tasks together hold exactly the lines of the sequential output,
      and each line is in the output of one task. */
  lemma DistributedIsSequential(files: seq<File>, mapf: MapF, reducef: ReduceF, hash: string -> nat, nReduce: nat,
                                outs: seq<seq<KeyValue>>, out: seq<KeyValue>)
    requires OrderBlind(reducef) && nReduce > 0 && |outs| == nReduce
    requires forall r :: 0 <= r < nReduce ==> Reduced(outs[r], Shuffled(files, mapf, hash, nReduce, r), reducef)
    requires Reduced(out, MapAll(files, mapf), reducef)
    ensures multiset(Concat(outs)) == multiset(out)
    ensures forall r, line :: 0 <= r < nReduce ==> (line in outs[r] <==> line in out && hash(line.key) % nReduce == r)
  {
    hide OrderBlind, Reduced, Shuffled, MapAll, Distinct, Concat;
    forall r, line | 0 <= r < nReduce ensures line in outs[r] <==> line in out && hash(line.key) % nReduce == r {
      LineInTask(files, mapf, reducef, hash, nReduce, outs, out, r, line);
    }
    forall r | 0 <= r < nReduce ensures Distinct(outs[r]) {
      ReducedDistinct(outs[r], Shuffled(files, mapf, hash, nReduce, r), reducef);
    }
    ReducedDistinct(out, MapAll(files, mapf), reducef);
    forall q, r, line | 0 <= q < |outs| && 0 <= r < |outs| && line in outs[q] && line in outs[r] ensures q == r {
      assert hash(line.key) % nReduce == q;
    }
    ConcatDistinct(outs);
    forall line ensures line in Concat(outs) <==> line in out {
      ConcatIn(outs, line);
      if line in out {
        assert line in outs[hash(line.key) % nReduce];
      }
    }
    SameListing(Concat(outs), out);
  }

  /** Both programs on the same input: their output, sorted, is the same. */
  method CompareRuns(files: seq<File>, mapf: MapF, reducef: ReduceF, hash: string -> nat, nReduce: nat)
    returns (outs: seq<seq<KeyValue>>, out: seq<KeyValue>)
    requires nReduce > 0 && OrderBlind(reducef)
    ensures |outs| == nReduce && multiset(Concat(outs)) == multiset(out)
    ensures forall r, line :: 0 <= r < nReduce ==> (line in outs[r] <==> line in out && hash(line.key) % nReduce == r)
  {
    hide Reduced, Shuffled, MapAll, OrderBlind, Concat;
    outs := Distributed(files, mapf, reducef, hash, nReduce);
    out := Sequential(files, mapf, reducef);
    DistributedIsSequential(files, mapf, reducef, hash, nReduce, outs, out);
  }

  // ----- why the order of values must not matter -----

  /** Lines in the order of their keys are determined by which lines they are. */
  lemma {:induction false} AscendingSame(a: seq<KeyValue>, b: seq<KeyValue>)
    requires AscendingKeys(a) && AscendingKeys(b) && forall x :: x in a <==> x in b
    ensures a == b
    decreases |a|
  {
    hide StringLess;
    if a == [] {
      assert forall i :: 0 <= i < |b| ==> b[i] in a;
    } else {
      assert a[0] in b && b != [] && b[0] in a;
      SmallestFirst(a, b[0]);
      SmallestFirst(b, a[0]);
      if a[0] != b[0] {
        StringAsymmetric(a[0].key, b[0].key);
      }
      forall x ensures x in a[1..] <==> x in b[1..] {
        RestWithout(a, x);
        RestWithout(b, x);
      }
      AscendingSame(a[1..], b[1..]);
      assert a == [a[0]] + a[1..] && b == [b[0]] + b[1..];
    }
  }

  lemma SmallestFirst(a: seq<KeyValue>, x: KeyValue)
    requires AscendingKeys(a) && x in a
    ensures a[0] == x || StringLess(a[0].key, x.key)
  {
  }

  lemma RestWithout(a: seq<KeyValue>, x: KeyValue)
    requires a != [] && AscendingKeys(a)
    ensures x in a[1..] <==> x in a && x != a[0]
  {
    hide StringLess;
    StringIrreflexive(a[0].key);
    assert a == [a[0]] + a[1..];
    forall i | 0 <= i < |a[1..]| ensures a[1..][i] != a[0] {
      assert StringLess(a[0].key, a[i + 1].key);
    }
  }

  /** The pairs of one key. */
  ghost function Single(key: string, values: seq<string>): (kvs: seq<KeyValue>)
    ensures |kvs| == |values| && forall i :: 0 <= i < |kvs| ==> kvs[i] == KeyValue(key, values[i])
  {
    seq(|values|, i requires 0 <= i < |values| => KeyValue(key, values[i]))
  }

  lemma {:induction false} SingleValues(key: string, values: seq<string>)
    ensures ValuesOf(Single(key, values), key) == values
    decreases |values|
  {
    if values != [] {
      var n := |values| - 1;
      SingleValues(key, values[..n]);
      assert Single(key, values)[..n] == Single(key, values[..n]);
      assert values == values[..n] + [values[n]];
    }
  }

  /** Any order of the values gives an output the programs may produce. */
  lemma SingleReduced(key: string, values: seq<string>, order: seq<string>, reducef: ReduceF)
    requires values != [] && multiset(order) == multiset(values)
    ensures Reduced([KeyValue(key, reducef(key, order))], Single(key, values), reducef)
  {
    var kvs, out := Single(key, values), [KeyValue(key, reducef(key, order))];
    SingleValues(key, values);
    assert kvs[0].key == key;
    assert Reduction(reducef, kvs, key, out[0].value);
    assert out[0].key == key;
  }

  /** The input determines the output, for every input, exactly if the reduce function does not
      care about the order of the values. */
  lemma DeterminedIff(reducef: ReduceF)
    ensures (forall kvs, out, out' :: Reduced(out, kvs, reducef) && Reduced(out', kvs, reducef) ==> out == out') <==>
            OrderBlind(reducef)
  {
    if OrderBlind(reducef) {
      hide OrderBlind;
      forall kvs, out, out' | Reduced(out, kvs, reducef) && Reduced(out', kvs, reducef) ensures out == out' {
        forall line ensures line in out <==> line in out' {
          ReducedLine(out, kvs, reducef, line);
          ReducedLine(out', kvs, reducef, line);
        }
        AscendingSame(out, out');
      }
    }
    if forall kvs, out, out' :: Reduced(out, kvs, reducef) && Reduced(out', kvs, reducef) ==> out == out' {
      hide Reduced;
      forall key, a, b | a != [] && multiset(a) == multiset(b) ensures reducef(key, a) == reducef(key, b) {
        SingleReduced(key, a, a, reducef);
        SingleReduced(key, a, b, reducef);
        assert [KeyValue(key, reducef(key, a))] == [KeyValue(key, reducef(key, b))];
      }
    }
  }
}
