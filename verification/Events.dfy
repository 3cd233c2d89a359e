/** Histories given as a sequence of call and return events with arbitrary ids. */
module Events {
  import opened Linearizability
  import opened Search
  import opened Permutations
  import opened Histories

  datatype Event<+V> = Event(clientId: int, isReturn: bool, value: V, id: int)

  /** Same events, same partners, under new ids. */
  ghost predicate Renamed<V>(events: seq<Event<V>>, e: seq<Event<V>>) {
    && |e| == |events|
    && (forall i :: 0 <= i < |e| ==> e[i] == events[i].(id := e[i].id))
    && forall i, j :: 0 <= i < |e| && 0 <= j < |e| ==> (e[i].id == e[j].id <==> events[i].id == events[j].id)
  }

  ghost predicate Occurs<V>(e: seq<Event<V>>, x: int) {
    exists i :: 0 <= i < |e| && e[i].id == x
  }

  /** The ids are 0, ..., n-1. */
  ghost predicate Dense<V>(e: seq<Event<V>>, n: int) {
    && (forall i :: 0 <= i < |e| ==> 0 <= e[i].id < n)
    && forall x :: 0 <= x < n ==> Occurs(e, x)
  }

  /** An id that appears for the first time is greater than all before it. */
  ghost predicate Numbered<V>(e: seq<Event<V>>) {
    forall i, j :: 0 <= i < j < |e| && IsNew(e, j) ==> e[i].id < e[j].id
  }

  ghost predicate IsNew<V>(e: seq<Event<V>>, j: int)
    requires 0 <= j < |e|
  {
    forall i :: 0 <= i < j ==> e[i].id != e[j].id
  }

  lemma NumberedMore<V>(e: seq<Event<V>>, v: Event<V>, n: int)
    requires Numbered(e) && (forall i :: 0 <= i < |e| ==> e[i].id < n) && (v.id == n || Occurs(e, v.id))
    ensures Numbered(e + [v])
  {
    var e' := e + [v];
    if Occurs(e, v.id) {
      var k :| 0 <= k < |e| && e[k].id == v.id;
      assert e'[k].id == e'[|e|].id;
    }
    forall i, j | 0 <= i < j < |e'| && IsNew(e', j) ensures e'[i].id < e'[j].id {
      if j < |e| {
        assert forall k :: 0 <= k < j ==> e'[k] == e[k];
        assert IsNew(e, j);
      }
    }
  }

  /** What the loop's map knows of the events so far. */
  ghost predicate Numbering<V>(events: seq<Event<V>>, e: seq<Event<V>>, m: map<int, int>)
    requires |e| <= |events|
  {
    && (forall i :: 0 <= i < |e| ==> events[i].id in m && e[i] == events[i].(id := m[events[i].id]))
    && (forall x, y :: x in m && y in m && m[x] == m[y] ==> x == y)
    && (forall x :: x in m ==> Occurs(e, m[x]))
  }

  method Renumber<V>(events: seq<Event<V>>) returns (e: seq<Event<V>>, n: nat)
    ensures Renamed(events, e) && Dense(e, n) && Numbered(e)
  {
    hide Occurs, Numbered;
    e := [];
    var m: map<int, int> := map[];
    n := 0;
    NothingNumbered<V>();
    for k := 0 to |events|
      invariant |e| == k && Numbering(events, e, m) && Dense(e, n) && Numbered(e)
      invariant forall x :: x in m ==> 0 <= m[x] < n
    {
      var v := events[k];
      if v.id in m {
        OccursMore(e, v.(id := m[v.id]));
        NumberedMore(e, v.(id := m[v.id]), n);
        e := e + [v.(id := m[v.id])];
      } else {
        OccursMore(e, v.(id := n));
        NumberedMore(e, v.(id := n), n);
        e := e + [v.(id := n)];
        m := m[v.id := n];
        n := n + 1;
      }
    }
    NumberingRenames(events, e, m);
  }

  lemma NothingNumbered<V>()
    ensures Numbered<V>([])
  {
  }

  lemma NumberingRenames<V>(events: seq<Event<V>>, e: seq<Event<V>>, m: map<int, int>)
    requires |e| == |events| && Numbering(events, e, m)
    ensures Renamed(events, e)
  {
  }

  lemma OccursMore<V>(e: seq<Event<V>>, v: Event<V>)
    ensures forall x :: Occurs(e + [v], x) <==> Occurs(e, x) || x == v.id
  {
    forall x ensures Occurs(e + [v], x) <==> Occurs(e, x) || x == v.id {
      if Occurs(e, x) {
        var i :| 0 <= i < |e| && e[i].id == x;
        assert (e + [v])[i].id == x;
      }
      assert (e + [v])[|e|].id == v.id;
    }
  }

  /** Events as entries; the position stands for the time. */
  method ConvertEntries<V>(events: seq<Event<V>>) returns (entries: seq<Entry<V>>)
    ensures entries == EntriesFor(events)
  {
    entries := [];
    for i := 0 to |events|
      invariant |entries| == i && forall k :: 0 <= k < i ==> entries[k] == EntryFor(events, k)
    {
      entries := entries + [Entry(events[i].isReturn, events[i].value, events[i].id, i, events[i].clientId)];
    }
  }

  ghost function EntryFor<V>(events: seq<Event<V>>, i: int): Entry<V>
    requires 0 <= i < |events|
  {
    Entry(events[i].isReturn, events[i].value, events[i].id, i, events[i].clientId)
  }

  ghost function EntriesFor<V>(events: seq<Event<V>>): (h: seq<Entry<V>>)
    ensures |h| == |events| && forall i :: 0 <= i < |h| ==> h[i] == EntryFor(events, i)
  {
    seq(|events|, i requires 0 <= i < |events| => EntryFor(events, i))
  }

  // ----- which events make a history -----

  ghost predicate CallReturn<V>(events: seq<Event<V>>, c: int, r: int) {
    0 <= c < r < |events| && events[c].id == events[r].id && !events[c].isReturn && events[r].isReturn
  }

  /** Event `i` is one half of a call and its return. */
  ghost predicate Partnered<V>(events: seq<Event<V>>, i: int) {
    exists c, r :: CallReturn(events, c, r) && (i == c || i == r)
  }

  /** Every id is called once and then returns once. */
  ghost predicate Matched<V>(events: seq<Event<V>>) {
    && (forall j, k :: 0 <= j < k < |events| && events[j].id == events[k].id ==>
          !events[j].isReturn && events[k].isReturn)
    && forall i :: 0 <= i < |events| ==> Partnered(events, i)
  }

  ghost predicate IsHalf<V>(e: seq<Event<V>>, k: int, i: int) {
    0 <= i < |e| && 2 * e[i].id + (if e[i].isReturn then 1 else 0) == k
  }

  ghost predicate HasHalf<V>(e: seq<Event<V>>, k: int) {
    exists i :: IsHalf(e, k, i)
  }

  ghost function Place<V>(e: seq<Event<V>>, k: int): (i: int)
    requires HasHalf(e, k)
    ensures IsHalf(e, k, i)
  {
    var i :| IsHalf(e, k, i);
    i
  }

  lemma HalfOf<V>(e: seq<Event<V>>, n: int, k: int)
    requires Matched(e) && Dense(e, n) && 0 <= k < 2 * n
    ensures HasHalf(e, k)
  {
    assert Occurs(e, k / 2);
    var i :| 0 <= i < |e| && e[i].id == k / 2;
    assert Partnered(e, i);
    var c, r :| CallReturn(e, c, r) && (i == c || i == r);
    assert IsHalf(e, k, if k % 2 == 0 then c else r);
  }

  /** The two events of each of `n` operations, counted. */
  lemma TwoPerId<V>(e: seq<Event<V>>, n: nat)
    requires Matched(e) && Dense(e, n)
    ensures |e| == 2 * n
  {
    hide Partnered;
    var halves := seq(|e|, i requires 0 <= i < |e| => 2 * e[i].id + if e[i].isReturn then 1 else 0);
    Pigeons(halves, 2 * n);
    forall k | 0 <= k < 2 * n ensures HasHalf(e, k) {
      HalfOf(e, n, k);
    }
    hide HasHalf;
    var places := seq(2 * n, k requires 0 <= k < 2 * n => Place(e, k));
    Pigeons(places, |e|);
  }

  lemma RenamedMatched<V>(events: seq<Event<V>>, e: seq<Event<V>>)
    requires Renamed(events, e)
    ensures Matched(events) <==> Matched(e)
  {
    forall i | 0 <= i < |e| ensures Partnered(events, i) <==> Partnered(e, i) {
      if Partnered(events, i) {
        var c, r :| CallReturn(events, c, r) && (i == c || i == r);
        assert CallReturn(e, c, r);
      }
      if Partnered(e, i) {
        var c, r :| CallReturn(e, c, r) && (i == c || i == r);
        assert CallReturn(events, c, r);
      }
    }
  }

  lemma MatchedWellFormed<V>(e: seq<Event<V>>, n: nat)
    requires Dense(e, n)
    ensures WellFormed(EntriesFor(e)) <==> Matched(e)
  {
    var h := EntriesFor(e);
    if Matched(e) {
      TwoPerId(e, n);
      forall id | 0 <= id < Count(h) ensures HasPair(h, id) {
        assert Occurs(e, id);
        var i :| 0 <= i < |e| && e[i].id == id;
        assert Partnered(e, i);
        var c, r :| CallReturn(e, c, r) && (i == c || i == r);
        assert IsPair(h, id, c, r);
      }
    }
    if WellFormed(h) {
      forall j, k | 0 <= j < k < |e| && e[j].id == e[k].id ensures !e[j].isReturn && e[k].isReturn {
        assert h[j].id == h[k].id;
      }
      forall i | 0 <= i < |e| ensures Partnered(e, i) {
        EntryPlace(h, i);
        assert CallReturn(e, CallAt(h, h[i].id), ReturnAt(h, h[i].id));
      }
    }
  }

  /** Entries are the events in their order, with the same partners; the position is the time. */
  ghost predicate Converts<V>(events: seq<Event<V>>, h: seq<Entry<V>>) {
    && |h| == |events|
    && (forall i :: 0 <= i < |h| ==> h[i] == EntryFor(events, i).(id := h[i].id))
    && (forall i, j :: 0 <= i < |h| && 0 <= j < |h| ==> (h[i].id == h[j].id <==> events[i].id == events[j].id))
  }

  /** The entries made of events are a history for the search exactly if every id is called
      once and then returns once, whatever the ids are. */
  method EventEntries<V>(events: seq<Event<V>>) returns (entries: seq<Entry<V>>)
    ensures Converts(events, entries)
    ensures WellFormed(entries) <==> Matched(events)
  {
    hide WellFormed, Matched;
    var e, n := Renumber(events);
    entries := ConvertEntries(e);
    RenamedMatched(events, e);
    MatchedWellFormed(e, n);
  }

  // ----- what the search decides about events -----

  ghost function OperationAt<V>(events: seq<Event<V>>, c: int, r: int): Operation<V>
    requires CallReturn(events, c, r)
  {
    Operation(events[c].clientId, events[c].value, c, events[r].value, r)
  }

  ghost predicate IsCall<V(!new)>(events: seq<Event<V>>, op: Operation<V>) {
    exists c, r :: CallReturn(events, c, r) && op == OperationAt(events, c, r)
  }

  /** Each call of the events, with its return, once. */
  ghost predicate ListsCalls<V(!new)>(events: seq<Event<V>>, ops: seq<Operation<V>>) {
    Distinct(ops) && forall op :: op in ops <==> IsCall(events, op)
  }

  /** All calls can be put in an order that the model explains and in which no call comes before
      one that had returned when it was made. */
  ghost predicate EventsLinearizable<S(!new), V(!new)>(m: Model<S, V>, events: seq<Event<V>>) {
    exists order :: ListsCalls(events, order) && RespectsTime(order) && Run(m, m.init, order).Some?
  }

  ghost function EntryOp<V>(h: seq<Entry<V>>, id: int): Operation<V>
    requires WellFormed(h) && IsOp(h, id)
  {
    var c, r := CallAt(h, id), ReturnAt(h, id);
    Operation(h[c].clientId, h[c].value, c, h[r].value, r)
  }

  ghost function EntryOps<V>(h: seq<Entry<V>>): (ops: seq<Operation<V>>)
    requires WellFormed(h)
    ensures |ops| == Count(h) && forall id :: IsOp(h, id) ==> ops[id] == EntryOp(h, id)
  {
    seq(Count(h), id requires 0 <= id < Count(h) => EntryOp(h, id))
  }

  lemma EntryOpIsCall<V(!new)>(events: seq<Event<V>>, h: seq<Entry<V>>, id: int)
    requires Converts(events, h) && WellFormed(h) && IsOp(h, id)
    ensures IsCall(events, EntryOp(h, id))
  {
    var c, r := CallAt(h, id), ReturnAt(h, id);
    assert CallReturn(events, c, r) && EntryOp(h, id) == OperationAt(events, c, r);
  }

  lemma CallIsEntryOp<V(!new)>(events: seq<Event<V>>, h: seq<Entry<V>>, op: Operation<V>)
    requires Converts(events, h) && WellFormed(h) && IsCall(events, op)
    ensures op in EntryOps(h)
  {
    var c, r :| CallReturn(events, c, r) && op == OperationAt(events, c, r);
    var id := h[c].id;
    EntryPlace(h, c);
    EntryPlace(h, r);
    assert EntryOps(h)[id] == op;
  }

  /** The operations read off the entries list the calls of the events. */
  lemma EntryOpsList<V(!new)>(events: seq<Event<V>>, h: seq<Entry<V>>)
    requires Converts(events, h) && WellFormed(h)
    ensures ListsCalls(events, EntryOps(h))
  {
    hide Converts, WellFormed, IsCall;
    var ops := EntryOps(h);
    forall i, j | 0 <= i < j < |ops| ensures ops[i] != ops[j] {
      assert IsOp(h, i) && IsOp(h, j);
    }
    forall op ensures op in ops <==> IsCall(events, op) {
      if op in ops {
        var id :| 0 <= id < |ops| && ops[id] == op;
        EntryOpIsCall(events, h, id);
      }
      if IsCall(events, op) {
        CallIsEntryOp(events, h, op);
      }
    }
  }

  lemma SameCalls<V(!new)>(events: seq<Event<V>>, ops: seq<Operation<V>>, order: seq<Operation<V>>)
    requires ListsCalls(events, ops)
    ensures ListsCalls(events, order) <==> multiset(order) == multiset(ops)
  {
    hide IsCall;
    if ListsCalls(events, order) {
      SameListing(order, ops);
    }
    if multiset(order) == multiset(ops) {
      forall op ensures op in order <==> op in ops {
        assert op in multiset(order) <==> op in multiset(ops);
      }
      DistinctElements(ops, order);
    }
  }

  /** The search over the entries decides whether the events are linearizable. */
  lemma EventsDecide<S(!new), V(!new)>(m: Model<S, V>, events: seq<Event<V>>, h: seq<Entry<V>>)
    requires Converts(events, h) && WellFormed(h)
    ensures HasLinearization(m, h) <==> EventsLinearizable(m, events)
  {
    hide Converts, WellFormed, HasLinearization, RespectsTime, Run, ListsCalls;
    var ops := EntryOps(h);
    EntryOpsList(events, h);
    assert Represents(ops, h);
    RepresentsDecides(m, ops, h);
    forall order ensures ListsCalls(events, order) <==> multiset(order) == multiset(ops) {
      SameCalls(events, ops, order);
    }
    if Linearizable(m, ops) {
      var order :| IsLinearization(m, ops, order);
      assert ListsCalls(events, order);
    }
    if EventsLinearizable(m, events) {
      var order :| ListsCalls(events, order) && RespectsTime(order) && Run(m, m.init, order).Some?;
      assert IsLinearization(m, ops, order);
    }
  }
}
