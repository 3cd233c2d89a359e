/** The check of a key/value history: partition by key, check every key, merge the verdicts. */
module KvCheck {
  import opened Linearizability
  import opened Permutations
  import opened Strings
  import opened Parallel
  import opened KvModel
  import opened KvMeaning
  import Replicated = KvProtocol
  import opened KvLinearizable
  import OnRaft = RaftKv
  import opened KvService
  import opened RaftTypes
  import Single = SingleProtocol

  /** The verdict is Ok exactly if some order of the calls respects real time and explains every
      value read, which is linearizability against the whole map. An empty history has no partition
      to wait for. */
  method CheckKvHistory(history: seq<KvOp>, arrival: seq<int>) returns (result: CheckResult)
    requires Typed(history) && Timed(history) && history != [] && Perm(arrival, |Keys(history)|)
    ensures result == if Consistent(history) then Ok else Illegal
    ensures Consistent(history) <==> Linearizable(Whole(), history)
  {
    hide Linearizable, Consistent;
    LinearizableIff(history);
    var partitions := Partition(history);
    ghost var keys :| Partitioned(history, keys, partitions);
    KeysCounted(history, keys);
    PartitionsTimed(history, keys, partitions);
    ShallowEqualIsProper(OneKey());
    var info;
    result, info := CheckOperations(OneKey(), partitions, false, arrival);
    Locality(history);
    assert (forall i :: 0 <= i < |partitions| ==> Linearizable(OneKey(), partitions[i])) <==>
           (forall key :: key in Keys(history) ==> Linearizable(OneKey(), ForKey(history, key))) by {
      EachKeyOnce(history, keys, partitions);
    }
  }

  lemma {:induction false} DistinctCount(keys: seq<string>, s: set<string>)
    requires Ascending(keys) && forall key :: key in keys <==> key in s
    ensures |keys| == |s|
    decreases |keys|
  {
    if keys != [] {
      var rest := keys[1..];
      forall key ensures key in rest <==> key in s - {keys[0]} {
        assert keys == [keys[0]] + rest;
        forall i | 0 <= i < |rest| ensures rest[i] != keys[0] {
          StringIrreflexive(keys[0]);
          assert StringLess(keys[0], keys[i + 1]);
        }
      }
      DistinctCount(rest, s - {keys[0]});
    }
  }

  lemma KeysCounted(history: seq<KvOp>, keys: seq<string>)
    requires Ascending(keys) && forall key :: key in keys <==> key in Keys(history)
    ensures |keys| == |Keys(history)| && (history != [] ==> keys != [])
  {
    DistinctCount(keys, Keys(history));
    if history != [] {
      assert KeyOf(history[0]) in Keys(history);
    }
  }

  lemma PartitionsTimed(history: seq<KvOp>, keys: seq<string>, partitions: seq<seq<KvOp>>)
    requires Timed(history) && |partitions| == |keys|
    requires forall i :: 0 <= i < |keys| ==> partitions[i] == ForKey(history, keys[i])
    ensures AllTimed(partitions)
  {
    forall i | 0 <= i < |partitions| ensures Timed(partitions[i]) {
      ForKeyTimed(history, keys[i]);
    }
  }

  lemma EachKeyOnce(history: seq<KvOp>, keys: seq<string>, partitions: seq<seq<KvOp>>)
    requires |partitions| == |keys| && forall i :: 0 <= i < |keys| ==> partitions[i] == ForKey(history, keys[i])
    requires forall key :: key in keys <==> key in Keys(history)
    ensures (forall i :: 0 <= i < |partitions| ==> Linearizable(OneKey(), partitions[i])) <==>
            (forall key :: key in Keys(history) ==> Linearizable(OneKey(), ForKey(history, key)))
  {
    hide Linearizable, Keys;
    if forall i :: 0 <= i < |partitions| ==> Linearizable(OneKey(), partitions[i]) {
      forall key | key in Keys(history) ensures Linearizable(OneKey(), ForKey(history, key)) {
        assert key in keys;
        var i :| 0 <= i < |keys| && keys[i] == key;
        assert Linearizable(OneKey(), partitions[i]);
      }
    }
    if forall key :: key in Keys(history) ==> Linearizable(OneKey(), ForKey(history, key)) {
      forall i | 0 <= i < |partitions| ensures Linearizable(OneKey(), partitions[i]) {
        assert keys[i] in keys;
      }
    }
  }

  /** The checker passes every history of the service on Raft. */
  method CheckOnRaft(ghost decode: Command -> Op, ghost peers: nat, ghost run: seq<OnRaft.System>, ghost t: nat,
                     ops: seq<KvOp>, arrival: seq<int>)
    returns (result: CheckResult)
    requires OnRaft.IsRun(decode, peers, run) && t < |run| && Lists(ops, History(OnRaft.View(decode, run[t])))
    requires ops != [] && Perm(arrival, |Keys(ops)|)
    ensures result == Ok
  {
    hide Linearizable, OnRaft.IsRun, OnRaft.View, Lists;
    OnRaft.ReplicatedLinearizable(decode, peers, run, t, ops);
    result := CheckKvHistory(ops, arrival);
  }

  /** The checker passes every history of the replicated service, whatever agrees on its log. */
  method CheckReplicated(ghost run: seq<Replicated.System>, ghost t: nat, ops: seq<KvOp>, arrival: seq<int>)
    returns (result: CheckResult)
    requires Replicated.IsRun(run) && t < |run| && Lists(ops, History(run[t]))
    requires ops != [] && Perm(arrival, |Keys(ops)|)
    ensures result == Ok
  {
    hide Linearizable, Replicated.IsRun, Lists;
    ServiceLinearizable(run, t, ops);
    result := CheckKvHistory(ops, arrival);
  }

  /** The checker passes every history of the single server. */
  method CheckSingleServer(ghost run: seq<Single.System>, ghost t: nat, ops: seq<KvOp>, arrival: seq<int>)
    returns (result: CheckResult)
    requires Single.IsRun(run) && t < |run| && ops == Single.History(run[t])
    requires ops != [] && Perm(arrival, |Keys(ops)|)
    ensures result == Ok
  {
    hide Linearizable, Single.IsRun;
    Single.HistoryTimed(run, t);
    Single.ServerLinearizable(run, t);
    result := CheckKvHistory(ops, arrival);
  }
}
