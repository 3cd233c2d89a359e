/** Consequences of the history invariant: Log Matching, one leader per term, and Leader
    Completeness.  None of them looks at a server. */
module RaftCompleteness {
  import opened Sets
  import opened RaftTypes
  import opened RaftProtocol
  import opened RaftInvariant

  /** Two logs that hold the same term at an index are identical up to that index. */
  lemma LogMatching(h: History, a: seq<LogEntry>, b: seq<LogEntry>, k: nat)
    requires LogOk(h, a) && LogOk(h, b)
    requires k < |a| && k < |b| && a[k].term == b[k].term
    ensures a[..k + 1] == b[..k + 1]
  {
    if k == 0 {
      assert a[..1] == [SENTINEL] == b[..1];
    } else {
      assert EntryOk(h, a, k) && EntryOk(h, b, k);
      var l := TermLog(h, a[k].term);
      assert a[..k + 1] == l[..k + 1];
      assert b[..k + 1] == l[..k + 1];
    }
  }

  /** Terms never decrease along a log. */
  lemma TermsSorted(h: History, peers: nat, log: seq<LogEntry>, j: nat, k: nat)
    requires HistoryOk(h, peers) && LogOk(h, log)
    requires j <= k < |log|
    ensures log[j].term <= log[k].term
  {
    if k > 0 {
      assert EntryOk(h, log, k);
      var t := log[k].term;
      assert LeaderOk(h, peers, t);
      assert log[j] == log[..k + 1][j] == TermLog(h, t)[j];
    }
  }

  /** From equal prefixes to equal entries. */
  lemma SamePrefix(a: seq<LogEntry>, b: seq<LogEntry>, k: nat)
    requires k < |a| && k < |b| && a[..k + 1] == b[..k + 1]
    ensures forall j :: 0 <= j <= k ==> a[j] == b[j]
  {
    forall j | 0 <= j <= k ensures a[j] == b[j] {
      assert a[j] == a[..k + 1][j] && b[j] == b[..k + 1][j];
    }
  }

  lemma ShorterPrefix(a: seq<LogEntry>, b: seq<LogEntry>, c: nat, d: nat)
    requires d <= c < |a| && c < |b| && a[..c + 1] == b[..c + 1]
    ensures a[..d + 1] == b[..d + 1]
  {
    assert a[..d + 1] == a[..c + 1][..d + 1];
    assert b[..d + 1] == b[..c + 1][..d + 1];
  }

  /** Two majorities share a member. */
  lemma {:induction false} MajoritiesMeet(a: set<nat>, b: set<nat>, peers: nat) returns (v: nat)
    requires Majority(a, peers) && Majority(b, peers)
    ensures v in a && v in b
  {
    SetsBelow(a + b, peers);
    assert |a + b| == |a| + |b| - |a * b|;
    v :| v in a * b;
  }

  lemma {:induction false} SetsBelow(q: set<nat>, n: nat)
    requires forall v :: v in q ==> v < n
    ensures |q| <= n
    decreases n
  {
    if n == 0 {
      assert q == {};
    } else {
      var r := q - {n - 1};
      SetsBelow(r, n - 1);
      assert q <= r + {n - 1};
      SubsetSize(q, r + {n - 1});
    }
  }

  /** At most one candidate can collect a majority of the recorded votes of a term. */
  lemma OneWinner(h: History, peers: nat, t: nat, i: nat, j: nat, a: set<nat>, b: set<nat>)
    requires Majority(a, peers) && Majority(b, peers)
    requires forall v :: v in a ==> VotedFor(h, Ballot(v, t), i)
    requires forall v :: v in b ==> VotedFor(h, Ballot(v, t), j)
    ensures i == j
  {
    var v := MajoritiesMeet(a, b, peers);
    assert VotedFor(h, Ballot(v, t), i) && VotedFor(h, Ballot(v, t), j);
  }

  /** The leader of `u` already had `prefix` when it stood for election. */
  ghost predicate ElectedWith(h: History, u: nat, prefix: seq<LogEntry>) {
    && u in h.leaders
    && VotedFor(h, Ballot(h.leaders[u].leader, u), h.leaders[u].leader)
    && prefix <= h.votes[Ballot(h.leaders[u].leader, u)].log
  }

  /** Leader Completeness (section 5.4.3 of the extended Raft paper): the log of every later
      leader starts with everything committed before. */
  lemma {:induction false} LeaderCompleteness(h: History, peers: nat, t: nat, k: nat, u: nat)
    requires HistoryOk(h, peers)
    requires CommittedAt(h, peers, t, k)
    requires t <= u && u in h.leaders
    ensures k < |TermLog(h, u)| && TermLog(h, u)[..k + 1] == TermLog(h, t)[..k + 1]
    ensures t < u ==> ElectedWith(h, u, TermLog(h, t)[..k + 1])
    decreases u
  {
    hide HistoryOk;
    if t < u {
      HistoryLeader(h, peers, u);
      hide LogOk, VoteOk;
      var v := MajoritiesMeet(Ackers(h, peers, t, k), h.leaders[u].voters, peers);
      VoterHadCommitted(h, peers, t, k, u, v);
      CandidateHasCommitted(h, peers, t, k, u, v);
      CutPrefix(TermLog(h, t)[..k + 1], h.votes[Ballot(h.leaders[u].leader, u)].log, TermLog(h, u));
    }
  }

  /** Two prefixes down a chain. */
  lemma CutPrefix(a: seq<LogEntry>, b: seq<LogEntry>, c: seq<LogEntry>)
    requires a <= b <= c
    ensures c[..|a|] == a
  {
  }

  lemma CommittedRange(h: History, peers: nat, t: nat, k: nat)
    requires CommittedAt(h, peers, t, k)
    ensures t in h.leaders && 1 <= k < |TermLog(h, t)| && TermLog(h, t)[k].term == t
  {
  }

  /** The induction hypothesis of Leader Completeness rules out overwriting before `u`. */
  lemma {:induction false} NotOverwritten(h: History, peers: nat, t: nat, k: nat, hi: nat)
    requires HistoryOk(h, peers)
    requires CommittedAt(h, peers, t, k)
    ensures !Overwritten(h, t, hi, k)
    decreases hi + 1, 0
  {
    hide HistoryOk, CommittedAt, ElectedWith;
    CommittedRange(h, peers, t, k);
    forall w | t < w <= hi && w in h.leaders
      ensures !Conflict(h, w, t, k)
    {
      LeaderCompleteness(h, peers, t, k, w);
      SamePrefix(TermLog(h, w), TermLog(h, t), k);
    }
  }

  lemma {:induction false} VoterHadCommitted(h: History, peers: nat, t: nat, k: nat, u: nat, v: nat)
    requires HistoryOk(h, peers)
    requires CommittedAt(h, peers, t, k)
    requires t < u && u in h.leaders
    requires v in Ackers(h, peers, t, k) && v in h.leaders[u].voters
    ensures Ballot(v, u) in h.votes && TermLog(h, t)[..k + 1] <= h.votes[Ballot(v, u)].log
    decreases u, 1
  {
    hide HistoryOk, LogOk, VoteOk, Overwritten;
    var b := Ballot(v, u);
    HistoryLeader(h, peers, u);
    assert VotedFor(h, b, h.leaders[u].leader);
    HistoryVote(h, peers, b);
    assert VoteKeepsAck(h, b, t, k);
    NotOverwritten(h, peers, t, k, u - 1);
  }

  /** A candidate whose log is at least as good as a log with the committed prefix has it too. */
  lemma {:induction false} CandidateHasCommitted(h: History, peers: nat, t: nat, k: nat, u: nat, v: nat)
    requires HistoryOk(h, peers)
    requires CommittedAt(h, peers, t, k)
    requires t < u && u in h.leaders
    requires v in h.leaders[u].voters
    requires Ballot(v, u) in h.votes && TermLog(h, t)[..k + 1] <= h.votes[Ballot(v, u)].log
    ensures VotedFor(h, Ballot(h.leaders[u].leader, u), h.leaders[u].leader)
    ensures TermLog(h, t)[..k + 1] <= h.votes[Ballot(h.leaders[u].leader, u)].log
    decreases u, 1
  {
    hide HistoryOk, LogOk, VoteKeepsAcks, CommittedAt;
    CommittedRange(h, peers, t, k);
    HistoryLeader(h, peers, u);
    var leader := h.leaders[u].leader;
    assert VotedFor(h, Ballot(v, u), leader);
    HistoryVote(h, peers, Ballot(v, u));
    HistoryVote(h, peers, Ballot(leader, u));
    var log := h.votes[Ballot(v, u)].log;
    var cand := h.votes[Ballot(leader, u)].log;
    assert log[k] == TermLog(h, t)[..k + 1][k];
    TermsSorted(h, peers, log, k, |log| - 1);
    if LastTerm(cand) == LastTerm(log) {
      SameLastTerm(h, cand, log);
      CutPrefix(TermLog(h, t)[..k + 1], log, cand);
    } else {
      LaterLastTerm(h, peers, t, k, cand);
    }
  }

  lemma SameLastTerm(h: History, cand: seq<LogEntry>, log: seq<LogEntry>)
    requires LogOk(h, cand) && LogOk(h, log)
    requires LastTerm(cand) == LastTerm(log) && |cand| >= |log|
    ensures cand[..|log|] == log
  {
    var last := |log| - 1;
    if last == 0 {
      assert cand[..1] == [SENTINEL] == log;
    } else {
      assert EntryOk(h, log, last);
      assert cand[|cand| - 1].term >= 1 || |cand| > 1;
      assert EntryOk(h, cand, |cand| - 1);
      var l := TermLog(h, LastTerm(log));
      assert cand[..|cand|] == cand == l[..|cand|];
      assert log[..|log|] == log == l[..|log|];
      assert cand[..|log|] == l[..|log|];
    }
  }

  lemma {:induction false} LaterLastTerm(h: History, peers: nat, t: nat, k: nat, cand: seq<LogEntry>)
    requires HistoryOk(h, peers)
    requires CommittedAt(h, peers, t, k)
    requires LogOk(h, cand)
    requires t < LastTerm(cand)
    ensures TermLog(h, t)[..k + 1] <= cand
    decreases LastTerm(cand) + 1, 0
  {
    hide HistoryOk, ElectedWith, CommittedAt, Majority, VotedFor;
    var last, w := |cand| - 1, LastTerm(cand);
    assert EntryOk(h, cand, last);
    hide LogOk;
    CommittedRange(h, peers, t, k);
    LeaderCompleteness(h, peers, t, k, w);
    HistoryLeader(h, peers, t);
    var l := TermLog(h, w);
    assert cand[..last + 1] == cand;
    SamePrefix(l, TermLog(h, t), k);
    assert l[last].term > t;
    assert TermLog(h, t)[..k + 1] == l[..k + 1];
  }

  /** A committed prefix is a prefix of the log of every leader since. */
  lemma WitnessReaches(h: History, peers: nat, log: seq<LogEntry>, c: nat, t: nat, k: nat, u: nat)
    requires HistoryOk(h, peers)
    requires c < |log| && CommitWitness(h, peers, log, c, t, k)
    requires t <= u && u in h.leaders
    ensures c < |TermLog(h, u)| && log[..c + 1] == TermLog(h, u)[..c + 1]
  {
    hide HistoryOk, CommittedAt, ElectedWith;
    CommittedRange(h, peers, t, k);
    LeaderCompleteness(h, peers, t, k, u);
    ShorterPrefix(TermLog(h, u), TermLog(h, t), k, c);
  }

  /** A committed prefix was in the log of every leader of a later term when it was elected. */
  lemma ElectedWithCommitted(h: History, peers: nat, log: seq<LogEntry>, c: int, hi: nat, u: nat)
    requires HistoryOk(h, peers)
    requires LogOk(h, log) && CommitOk(h, peers, log, c, hi)
    requires hi < u && u in h.leaders
    ensures ElectedWith(h, u, log[..c + 1])
  {
    hide HistoryOk, CommittedAt;
    HistoryLeader(h, peers, u);
    HistoryVote(h, peers, Ballot(h.leaders[u].leader, u));
    if c == 0 {
      assert log[..1] == [SENTINEL];
    } else {
      hide LogOk, VoteOk, LeaderOk, Majority;
      var t: nat, k: nat :| t <= hi && CommitWitness(h, peers, log, c, t, k);
      CommittedRange(h, peers, t, k);
      LeaderCompleteness(h, peers, t, k, u);
      assert log[..c + 1] <= TermLog(h, t)[..k + 1];
    }
  }

  /** A leader's log carries every prefix committed up to its term. */
  lemma LeaderHasCommitted(h: History, peers: nat, log: seq<LogEntry>, c: int, hi: nat, u: nat)
    requires HistoryOk(h, peers)
    requires LogOk(h, log) && CommitOk(h, peers, log, c, hi)
    requires hi <= u && u in h.leaders
    ensures c < |TermLog(h, u)| && log[..c + 1] == TermLog(h, u)[..c + 1]
  {
    hide HistoryOk, CommittedAt;
    HistoryLeader(h, peers, u);
    if c == 0 {
      assert log[..1] == [SENTINEL] == TermLog(h, u)[..1];
    } else {
      hide LogOk, LeaderOk;
      var t: nat, k: nat :| t <= hi && CommitWitness(h, peers, log, c, t, k);
      WitnessReaches(h, peers, log, c, t, k, u);
    }
  }

  /** Two committed prefixes never disagree. */
  lemma CommittedPrefixesAgree(h: History, peers: nat, a: seq<LogEntry>, c: int, hiA: nat,
                               b: seq<LogEntry>, d: int, hiB: nat)
    requires HistoryOk(h, peers)
    requires LogOk(h, a) && LogOk(h, b)
    requires CommitOk(h, peers, a, c, hiA) && CommitOk(h, peers, b, d, hiB)
    ensures forall j :: 0 <= j <= c && j <= d ==> a[j] == b[j]
  {
    hide HistoryOk, CommittedAt;
    if c > 0 && d > 0 {
      hide LogOk;
      var t: nat, k: nat :| t <= hiA && CommitWitness(h, peers, a, c, t, k);
      var u: nat, l: nat :| u <= hiB && CommitWitness(h, peers, b, d, u, l);
      CommittedRange(h, peers, t, k);
      CommittedRange(h, peers, u, l);
      var w := if t <= u then u else t;
      WitnessReaches(h, peers, a, c, t, k, w);
      WitnessReaches(h, peers, b, d, u, l, w);
      SamePrefix(a, TermLog(h, w), c);
      SamePrefix(b, TermLog(h, w), d);
    }
  }
}
