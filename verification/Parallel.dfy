/** Checking every partition and merging the verdicts. */
module Parallel {
  import opened Options
  import opened Linearizability
  import opened Search
  import opened Permutations
  import opened Histories
  import opened Checker
  import opened Events

  datatype CheckResult = Unknown | Ok | Illegal

  /** What a verbose check returns: the entries and the partial linearizations of each partition. */
  datatype LinearizationInfo<V> = LinearizationInfo(
    history: seq<seq<Entry<V>>>,
    partialLinearizations: seq<seq<seq<int>>>)

  ghost predicate AllWellFormed<V>(history: seq<seq<Entry<V>>>) {
    forall i :: 0 <= i < |history| ==> WellFormed(history[i])
  }

  ghost predicate AllLinearizable<S(!new), V(!new)>(m: Model<S, V>, history: seq<seq<Entry<V>>>)
    requires AllWellFormed(history)
  {
    forall i :: 0 <= i < |history| ==> HasLinearization(m, history[i])
  }

  /** The prefixes in `longest`, each once. */
  method UniquePartials(longest: seq<Option<seq<int>>>) returns (partials: seq<seq<int>>)
    ensures forall q :: q in partials <==> Some(q) in longest
    ensures forall i, j :: 0 <= i < j < |partials| ==> partials[i] != partials[j]
  {
    partials := [];
    for i := 0 to |longest|
      invariant forall q :: q in partials <==> Some(q) in longest[..i]
      invariant forall i, j :: 0 <= i < j < |partials| ==> partials[i] != partials[j]
    {
      assert longest[..i + 1] == longest[..i] + [longest[i]];
      if longest[i].Some? && longest[i].value !in partials {
        partials := partials + [longest[i].value];
      }
    }
    assert longest[..|longest|] == longest;
  }

  /** Valid prefixes, among them a longest one for every operation that is in any. */
  ghost predicate PartialsOptimal<S(!new), V(!new)>(m: Model<S, V>, h: seq<Entry<V>>, partials: seq<seq<int>>)
    requires WellFormed(h)
  {
    && (forall q :: q in partials ==> After(m, h, q).Some?)
    && forall q, id :: After(m, h, q).Some? && id in q ==> exists p :: p in partials && id in p && |p| >= |q|
  }

  lemma UniqueOptimal<S(!new), V(!new)>(m: Model<S, V>, h: seq<Entry<V>>, longest: seq<Option<seq<int>>>,
                                        partials: seq<seq<int>>)
    requires WellFormed(h) && LongestOptimal(m, h, longest)
    requires forall q :: q in partials <==> Some(q) in longest
    ensures PartialsOptimal(m, h, partials)
  {
    hide WellFormed, After;
    forall q | q in partials ensures After(m, h, q).Some? {
      var id :| 0 <= id < |longest| && longest[id] == Some(q);
    }
    forall q, id | After(m, h, q).Some? && id in q ensures exists p :: p in partials && id in p && |p| >= |q| {
      assert Marked(longest, id, |q|);
      assert longest[id] in longest;
      assert longest[id].value in partials;
    }
  }

  ghost predicate FirstLinearizable<S(!new), V(!new)>(m: Model<S, V>, history: seq<seq<Entry<V>>>, arrival: seq<int>,
                                                      count: int)
    requires AllWellFormed(history) && Perm(arrival, |history|) && 0 <= count <= |arrival|
  {
    forall k :: 0 <= k < count ==> HasLinearization(m, history[arrival[k]])
  }

  lemma FirstIsAll<S(!new), V(!new)>(m: Model<S, V>, history: seq<seq<Entry<V>>>, arrival: seq<int>, count: int)
    requires AllWellFormed(history) && Perm(arrival, |history|) && 0 <= count <= |arrival|
    requires !FirstLinearizable(m, history, arrival, count) || count == |arrival|
    ensures FirstLinearizable(m, history, arrival, count) <==> AllLinearizable(m, history)
  {
    hide WellFormed, HasLinearization;
    if FirstLinearizable(m, history, arrival, count) {
      forall i | 0 <= i < |history| ensures HasLinearization(m, history[i]) {
        PermHits(arrival, |history|, i);
        var k :| 0 <= k < |arrival| && arrival[k] == i;
      }
    }
  }

  /** The verdict over all partitions. The searches finish in the order `arrival`; the first
      failure ends the wait unless information is asked for. */
  method CheckParallel<S(!new), V(!new)>(m: Model<S, V>, history: seq<seq<Entry<V>>>, computeInfo: bool,
                                         arrival: seq<int>)
    returns (result: CheckResult, info: Option<LinearizationInfo<V>>)
    requires ProperEquality(m) && AllWellFormed(history) && history != [] && Perm(arrival, |history|)
    ensures result == if AllLinearizable(m, history) then Ok else Illegal
    ensures info.Some? <==> computeInfo
    ensures computeInfo ==> info.value.history == history && |info.value.partialLinearizations| == |history|
    ensures computeInfo ==> forall i :: 0 <= i < |history| ==>
              PartialsOptimal(m, history[i], info.value.partialLinearizations[i])
  {
    hide WellFormed, ProperEquality, HasLinearization, LongestOptimal, LongestValid, AllLinearized, PartialsOptimal;
    var ok, count := true, 0;
    var longest: seq<seq<Option<seq<int>>>> := seq(|history|, _ => []);
    while count < |arrival|
      invariant 0 <= count <= |arrival| && |longest| == |history|
      invariant ok <==> FirstLinearizable(m, history, arrival, count)
      invariant computeInfo ==> forall k :: 0 <= k < count ==>
                  LongestOptimal(m, history[arrival[k]], longest[arrival[k]])
    {
      var i := arrival[count];
      var linearizable, l := CheckSingle(m, history[i], computeInfo, _ => false);
      longest := longest[i := l];
      count := count + 1;
      ok := ok && linearizable;
      if !ok && !computeInfo {
        break;
      }
    }
    FirstIsAll(m, history, arrival, count);
    result := if ok then Ok else Illegal;
    info := None;
    if computeInfo {
      var partials: seq<seq<seq<int>>> := [];
      for i := 0 to |history|
        invariant |partials| == i
        invariant forall k :: 0 <= k < i ==> PartialsOptimal(m, history[k], partials[k])
      {
        PermHits(arrival, |history|, i);
        var unique := UniquePartials(longest[i]);
        UniqueOptimal(m, history[i], longest[i], unique);
        partials := partials + [unique];
      }
      info := Some(LinearizationInfo(history, partials));
    }
  }

  ghost predicate AllTimed<V>(partitions: seq<seq<Operation<V>>>) {
    forall i :: 0 <= i < |partitions| ==> Timed(partitions[i])
  }

  /** The check of a partitioned history of operations. */
  method CheckOperations<S(!new), V(!new)>(m: Model<S, V>, partitions: seq<seq<Operation<V>>>, verbose: bool,
                                           arrival: seq<int>)
    returns (result: CheckResult, info: Option<LinearizationInfo<V>>)
    requires ProperEquality(m) && AllTimed(partitions) && partitions != [] && Perm(arrival, |partitions|)
    ensures result == if forall i :: 0 <= i < |partitions| ==> Linearizable(m, partitions[i]) then Ok else Illegal
    ensures info.Some? <==> verbose
    ensures verbose ==> |info.value.history| == |info.value.partialLinearizations| == |partitions|
    ensures verbose ==> forall i :: 0 <= i < |partitions| ==>
                          && WellFormed(info.value.history[i])
                          && PartialsOptimal(m, info.value.history[i], info.value.partialLinearizations[i])
  {
    hide WellFormed, ProperEquality, HasLinearization, PartialsOptimal, Timed, EntriesOf, Linearizable;
    var l: seq<seq<Entry<V>>> := [];
    for i := 0 to |partitions|
      invariant |l| == i
      invariant forall k :: 0 <= k < i ==>
                  WellFormed(l[k]) && (HasLinearization(m, l[k]) <==> Linearizable(m, partitions[k]))
    {
      var entries := MakeEntries(partitions[i]);
      EntriesDecide(m, partitions[i], entries);
      l := l + [entries];
    }
    result, info := CheckParallel(m, l, verbose, arrival);
  }

  ghost predicate AllMatched<V>(partitions: seq<seq<Event<V>>>) {
    forall i :: 0 <= i < |partitions| ==> Matched(partitions[i])
  }

  /** The check of a partitioned history of events. */
  method CheckEvents<S(!new), V(!new)>(m: Model<S, V>, partitions: seq<seq<Event<V>>>, verbose: bool, arrival: seq<int>)
    returns (result: CheckResult, info: Option<LinearizationInfo<V>>)
    requires ProperEquality(m) && AllMatched(partitions) && partitions != [] && Perm(arrival, |partitions|)
    ensures result == if forall i :: 0 <= i < |partitions| ==> EventsLinearizable(m, partitions[i]) then Ok else Illegal
    ensures info.Some? <==> verbose
    ensures verbose ==> |info.value.history| == |info.value.partialLinearizations| == |partitions|
    ensures verbose ==> forall i :: 0 <= i < |partitions| ==>
                          && WellFormed(info.value.history[i])
                          && PartialsOptimal(m, info.value.history[i], info.value.partialLinearizations[i])
  {
    hide WellFormed, ProperEquality, HasLinearization, PartialsOptimal, Matched, Converts, EventsLinearizable;
    var l: seq<seq<Entry<V>>> := [];
    for i := 0 to |partitions|
      invariant |l| == i
      invariant forall k :: 0 <= k < i ==>
                  WellFormed(l[k]) && (HasLinearization(m, l[k]) <==> EventsLinearizable(m, partitions[k]))
    {
      var entries := EventEntries(partitions[i]);
      EventsDecide(m, partitions[i], entries);
      l := l + [entries];
    }
    result, info := CheckParallel(m, l, verbose, arrival);
  }
}
