/** Facts about logs: the compacted view, merging, and cutting. */
module RaftLogs {
  import opened RaftTypes
  import opened RaftServer
  import opened RaftProtocol
  import opened RaftInvariant
  import opened RaftCompleteness
  import opened RaftStability

  /** `logs` is the tail of the full log; its slot 0 keeps only the term of the last compacted entry. */
  lemma FullLogView(s: Server, peers: nat, i: nat)
    requires IndicesOk(s, peers, i)
    ensures |FullLog(s)| == RealLogLen(s) == LastLogIndex(s) + 1
    ensures forall k :: s.lastIncludedIndex <= k < RealLogLen(s) ==> FullLog(s)[k].term == s.logs[LogIndex(s, k)].term
    ensures forall k :: s.lastIncludedIndex < k < RealLogLen(s) ==> FullLog(s)[k] == s.logs[LogIndex(s, k)]
    ensures LastTerm(FullLog(s)) == LastLogTerm(s)
    ensures FullLog(s)[..s.lastIncludedIndex + 1] == s.snapshot
  {
  }

  lemma LogOkPrefix(h: History, log: seq<LogEntry>, m: nat)
    requires LogOk(h, log) && 1 <= m <= |log|
    ensures LogOk(h, log[..m])
  {
    forall k | 1 <= k < m ensures EntryOk(h, log[..m], k) {
      assert EntryOk(h, log, k);
      assert log[..m][..k + 1] == log[..k + 1];
    }
  }

  /** The first place below `m` where `log` and `target` differ. */
  ghost predicate FirstConflict(log: seq<LogEntry>, target: seq<LogEntry>, m: nat, j: nat) {
    && 1 <= j < m <= |target| && j < |log|
    && log[..j] == target[..j]
    && log[j] != target[j]
  }

  /** Replacing `log` by `target[..m]` loses nothing, or loses only what conflicts with `target`. */
  ghost predicate Replaces(log: seq<LogEntry>, target: seq<LogEntry>, m: nat) {
    && m <= |target|
    && (log <= target[..m] || exists j: nat :: FirstConflict(log, target, m, j))
  }

  /** What merging a slice of `target` that ends before `m` makes of `log`. */
  ghost predicate MergeOutcome(log: seq<LogEntry>, target: seq<LogEntry>, m: nat, r: seq<LogEntry>) {
    && m <= |target|
    && ((r == log && target[..m] <= log) || (r == target[..m] && Replaces(log, target, m)))
  }

  lemma {:induction false} MergeResult(log: seq<LogEntry>, target: seq<LogEntry>, at: nat, n: nat)
    requires 1 <= at <= |log| && at + n <= |target|
    requires log[..at] == target[..at]
    requires forall j :: at <= j < |log| && j < |target| && log[j].term == target[j].term ==> log[j] == target[j]
    ensures MergeOutcome(log, target, at + n, MergeEntries(log, at, target[at..at + n]))
    decreases n
  {
    var es := target[at..at + n];
    if n == 0 {
    } else {
      assert es[0] == target[at];
      assert es[1..] == target[at + 1..at + 1 + (n - 1)];
      if at < |log| && log[at].term == target[at].term {
        assert log[..at + 1] == target[..at + 1];
        MergeResult(log, target, at + 1, n - 1);
      } else {
        var log1 := log[..at] + [target[at]];
        assert log1 == target[..at + 1];
        MergeResult(log1, target, at + 1, n - 1);
        MergeExtends(log1, target, at + 1, n - 1);
        if at < |log| {
          assert FirstConflict(log, target, at + n, at);
        } else {
          assert log == target[..at];
          assert log1 == log + [target[at]];
          assert log <= target[..at + n];
        }
      }
    }
  }

  /** A merge that starts right at the end of the log ends with `target[..at + n]`. */
  lemma {:induction false} MergeExtends(log: seq<LogEntry>, target: seq<LogEntry>, at: nat, n: nat)
    requires |log| == at && at + n <= |target|
    requires log == target[..at]
    ensures MergeEntries(log, at, target[at..at + n]) == target[..at + n]
    decreases n
  {
    var es := target[at..at + n];
    if n > 0 {
      assert es[1..] == target[at + 1..at + 1 + (n - 1)];
      assert log + [es[0]] == target[..at + 1];
      MergeExtends(log + [es[0]], target, at + 1, n - 1);
    }
  }

  /** Merging into the tail is merging into the full log. */
  lemma {:induction false} MergeCompacted(snapshot: seq<LogEntry>, logs: seq<LogEntry>, at: nat, entries: seq<LogEntry>)
    requires |logs| >= 1 && |snapshot| >= 1 && at >= 1
    ensures |MergeEntries(logs, at, entries)| >= 1
    ensures MergeEntries(logs, at, entries)[0] == logs[0]
    ensures snapshot + MergeEntries(logs, at, entries)[1..]
         == MergeEntries(snapshot + logs[1..], |snapshot| + at - 1, entries)
    decreases |entries|
  {
    if entries != [] {
      var e := entries[0];
      var full := snapshot + logs[1..];
      var logs1 :=
        if at < |logs| then
          if logs[at].term != e.term then logs[..at] + [e] else logs
        else if at == |logs| then logs + [e]
        else logs;
      MergeCompacted(snapshot, logs1, at + 1, entries[1..]);
      if at < |logs| {
        assert full[|snapshot| + at - 1] == logs[at];
        if logs[at].term != e.term {
          assert snapshot + logs1[1..] == full[..|snapshot| + at - 1] + [e];
        }
      } else if at == |logs| {
        assert logs1[1..] == logs[1..] + [e];
        assert snapshot + (logs[1..] + [e]) == full + [e];
      }
    }
  }

  /** Two distinct continuations have a first difference. */
  lemma {:induction false} Compare(log: seq<LogEntry>, target: seq<LogEntry>, m: nat, n: nat)
    requires n <= m <= |target| && n <= |log| && log[..n] == target[..n]
    requires n >= 1
    ensures Replaces(log, target, m) || target[..m] <= log
    decreases m - n
  {
    if n == |log| {
      assert log <= target[..m];
    } else if n < m {
      if log[n] == target[n] {
        assert log[..n + 1] == target[..n + 1];
        Compare(log, target, m, n + 1);
      } else {
        assert FirstConflict(log, target, m, n);
      }
    } else {
      assert target[..m] == log[..m];
    }
  }

  /** An acknowledged entry is kept by the replacement or counts as overwritten by the new leader. */
  lemma KeepsAckReplaced(h: History, log: seq<LogEntry>, saved: nat, t: nat, k: nat, u: nat, m: nat)
    requires t in h.leaders && u in h.leaders && saved <= u && t <= u
    requires k >= 1 && k < |TermLog(h, t)| && KeepsAck(h, log, saved, t, k)
    requires Replaces(log, TermLog(h, u), m)
    ensures KeepsAck(h, TermLog(h, u)[..m], u, t, k)
  {
    var target := TermLog(h, u);
    var kept := TermLog(h, t)[..k + 1];
    if kept <= log {
      if log <= target[..m] {
        PrefixTransitive(kept, log, target[..m]);
      } else {
        var j: nat :| FirstConflict(log, target, m, j);
        if j <= k {
          assert log[j] == kept[j] == TermLog(h, t)[j];
          assert Conflict(h, u, t, k);
          assert t != u;
          assert Overwritten(h, t, u, k);
        } else {
          assert kept == log[..k + 1] == log[..j][..k + 1] == target[..j][..k + 1] == target[..k + 1];
          assert kept <= target[..m];
        }
      }
    } else {
      OverwrittenGrows(h, h, t, saved, u, k);
    }
  }

  lemma AcksOkReplaced(h: History, peers: nat, me: nat, log: seq<LogEntry>, saved: nat, u: nat, m: nat)
    requires HistoryOk(h, peers) && AcksOk(h, me, log, saved)
    requires u in h.leaders && saved <= u
    requires Replaces(log, TermLog(h, u), m)
    ensures AcksOk(h, me, TermLog(h, u)[..m], u)
  {
    forall t: nat | Ballot(me, t) in h.acks
      ensures t <= u
      ensures forall k: nat :: 1 <= k <= h.acks[Ballot(me, t)] && t in h.leaders && k < |TermLog(h, t)| ==>
                KeepsAck(h, TermLog(h, u)[..m], u, t, k)
    {
      forall k: nat | 1 <= k <= h.acks[Ballot(me, t)] && t in h.leaders && k < |TermLog(h, t)|
        ensures KeepsAck(h, TermLog(h, u)[..m], u, t, k)
      {
        KeepsAckReplaced(h, log, saved, t, k, u, m);
      }
    }
  }

  /** Acknowledgements survive a later saved term, and a history in which this server acknowledged nothing new. */
  lemma AcksOkLater(h: History, h': History, peers: nat, me: nat, log: seq<LogEntry>, saved: nat, saved': nat)
    requires HistoryOk(h, peers) && AcksOk(h, me, log, saved)
    requires Grows(h, h') && saved <= saved'
    requires forall t: nat :: Ballot(me, t) in h'.acks ==>
               Ballot(me, t) in h.acks && h'.acks[Ballot(me, t)] == h.acks[Ballot(me, t)]
    ensures AcksOk(h', me, log, saved')
  {
    forall t: nat | Ballot(me, t) in h'.acks
      ensures t <= saved'
      ensures forall k: nat :: 1 <= k <= h'.acks[Ballot(me, t)] && t in h'.leaders && k < |TermLog(h', t)| ==>
                KeepsAck(h', log, saved', t, k)
    {
      assert AckOk(h, peers, Ballot(me, t));
      forall k: nat | 1 <= k <= h'.acks[Ballot(me, t)] && t in h'.leaders && k < |TermLog(h', t)|
        ensures KeepsAck(h', log, saved', t, k)
      {
        KeepsAckGrows(h, h', log, saved, saved', t, k);
      }
    }
  }

  /** A new acknowledgement of what the log holds. */
  lemma AcksOkRecorded(h: History, me: nat, log: seq<LogEntry>, saved: nat, t: nat, last: nat)
    requires AcksOk(h, me, log, saved)
    requires t in h.leaders && t <= saved && last < |TermLog(h, t)| && TermLog(h, t)[..last + 1] <= log
    ensures AcksOk(RecordAck(h, Ballot(me, t), last), me, log, saved)
  {
    var h' := RecordAck(h, Ballot(me, t), last);
    forall w: nat | Ballot(me, w) in h'.acks
      ensures w <= saved
      ensures forall k: nat :: 1 <= k <= h'.acks[Ballot(me, w)] && w in h'.leaders && k < |TermLog(h', w)| ==>
                KeepsAck(h', log, saved, w, k)
    {
      forall k: nat | 1 <= k <= h'.acks[Ballot(me, w)] && w in h'.leaders && k < |TermLog(h', w)|
        ensures KeepsAck(h', log, saved, w, k)
      {
        if w == t && k <= last {
          assert TermLog(h, t)[..k + 1] == TermLog(h, t)[..last + 1][..k + 1] <= log;
        } else {
          assert KeepsAck(h, log, saved, w, k);
          AckOnlyOverwritten(h, h', w, saved, k);
        }
      }
    }
  }

  lemma AckOnlyOverwritten(h: History, h': History, t: nat, hi: nat, k: nat)
    requires h'.leaders == h.leaders && t in h.leaders
    ensures Overwritten(h, t, hi, k) == Overwritten(h', t, hi, k)
  {
    forall u | u in h.leaders ensures Conflict(h, u, t, k) == Conflict(h', u, t, k) {
      assert TermLog(h, u) == TermLog(h', u) && TermLog(h, t) == TermLog(h', t);
    }
  }

  /** A replacement keeps every prefix on which log and target agree. */
  lemma ReplacementKeeps(log: seq<LogEntry>, target: seq<LogEntry>, m: nat, c: nat)
    requires Replaces(log, target, m)
    requires c < |log| && c < |target| && log[..c + 1] == target[..c + 1]
    ensures c < m && target[..m][..c + 1] == log[..c + 1]
  {
    SamePrefix(log, target, c);
    assert c < m;
    assert target[..m][..c + 1] == target[..c + 1];
  }

  /** A replacement by a leader of the current term or later keeps the committed entries. */
  lemma CommitOkReplaced(h: History, peers: nat, log: seq<LogEntry>, c: int, hi: nat, u: nat, m: nat, d: int, hid: nat)
    requires HistoryOk(h, peers) && LogOk(h, log)
    requires CommitOk(h, peers, log, c, hi) && hi <= u && u in h.leaders
    requires Replaces(log, TermLog(h, u), m)
    requires CommitOk(h, peers, log, d, hid) && d <= c
    ensures c < m && CommitOk(h, peers, TermLog(h, u)[..m], c, hi) && CommitOk(h, peers, TermLog(h, u)[..m], d, hid)
  {
    LeaderHasCommitted(h, peers, log, c, hi, u);
    ReplacementKeeps(log, TermLog(h, u), m, c);
    ShorterPrefix(TermLog(h, u)[..m], log, c, d);
    CommitOkPrefix(h, peers, log, TermLog(h, u)[..m], c, c, hi);
    CommitOkPrefix(h, peers, log, TermLog(h, u)[..m], d, d, hid);
  }
}
