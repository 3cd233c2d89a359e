/** What survives when the history grows. */
module RaftStability {
  import opened Sets
  import opened RaftTypes
  import opened RaftServer
  import opened RaftProtocol
  import opened RaftInvariant
  import opened RaftCompleteness

  /** Nothing recorded is ever changed or dropped; leaders' logs and acknowledgements only extend. */
  ghost predicate Grows(h: History, h': History) {
    && (forall t :: t in h.leaders ==>
          && t in h'.leaders
          && h'.leaders[t].leader == h.leaders[t].leader
          && h'.leaders[t].voters == h.leaders[t].voters
          && h.leaders[t].log <= h'.leaders[t].log
          && h.leaders[t].sent <= h'.leaders[t].sent)
    && (forall b :: b in h.votes ==> b in h'.votes && h'.votes[b] == h.votes[b])
    && (forall b :: b in h.acks ==> b in h'.acks && h.acks[b] <= h'.acks[b])
    && (h'.exact ==> h.exact)
  }

  /** Only server `i` voted, acknowledged or led anything new. */
  ghost predicate OnlyBy(h: History, h': History, i: nat) {
    && Grows(h, h')
    && (forall b :: b in h'.votes && b.voter != i ==> b in h.votes)
    && (forall b :: b in h'.acks && b.voter != i ==> b in h.acks && h'.acks[b] == h.acks[b])
    && (forall t :: t in h'.leaders && h'.leaders[t].leader != i ==> t in h.leaders && h'.leaders[t] == h.leaders[t])
  }

  lemma GrowsTransitively(a: History, b: History, c: History)
    requires Grows(a, b) && Grows(b, c)
    ensures Grows(a, c)
  {
    forall t | t in a.leaders ensures t in c.leaders && a.leaders[t].log <= c.leaders[t].log {
      assert t in b.leaders;
      assert a.leaders[t].log <= b.leaders[t].log <= c.leaders[t].log;
    }
  }

  // ----- logs and conflicts -----

  lemma LogOkGrows(h: History, h': History, log: seq<LogEntry>)
    requires Grows(h, h') && LogOk(h, log)
    ensures LogOk(h', log)
  {
    forall k | 1 <= k < |log| ensures EntryOk(h', log, k) {
      assert EntryOk(h, log, k);
      PrefixTransitive(log[..k + 1], TermLog(h, log[k].term), TermLog(h', log[k].term));
    }
  }

  lemma PrefixTransitive(a: seq<LogEntry>, b: seq<LogEntry>, c: seq<LogEntry>)
    requires a <= b <= c
    ensures a <= c
  {
  }

  lemma OverwrittenGrows(h: History, h': History, t: nat, hi: nat, hi': nat, k: nat)
    requires Grows(h, h') && t in h.leaders && hi <= hi'
    requires Overwritten(h, t, hi, k)
    ensures Overwritten(h', t, hi', k)
  {
    var u :| t < u <= hi && u in h.leaders && Conflict(h, u, t, k);
    var j :| 1 <= j <= k && j < |TermLog(h, u)| && j < |TermLog(h, t)| && TermLog(h, u)[j] != TermLog(h, t)[j];
    assert TermLog(h', u)[j] == TermLog(h, u)[j] && TermLog(h', t)[j] == TermLog(h, t)[j];
    assert Conflict(h', u, t, k);
  }

  lemma KeepsAckGrows(h: History, h': History, log: seq<LogEntry>, saved: nat, saved': nat, t: nat, k: nat)
    requires Grows(h, h') && t in h.leaders && k < |TermLog(h, t)| && saved <= saved'
    requires KeepsAck(h, log, saved, t, k)
    ensures KeepsAck(h', log, saved', t, k)
  {
    if TermLog(h, t)[..k + 1] <= log {
      assert TermLog(h', t)[..k + 1] == TermLog(h, t)[..k + 1];
    } else {
      OverwrittenGrows(h, h', t, saved, saved', k);
    }
  }

  // ----- commitment -----

  lemma CommittedAtGrows(h: History, h': History, peers: nat, t: nat, k: nat)
    requires Grows(h, h') && CommittedAt(h, peers, t, k)
    ensures CommittedAt(h', peers, t, k)
  {
    SubsetSize(Ackers(h, peers, t, k), Ackers(h', peers, t, k));
  }

  lemma CommitOkGrows(h: History, h': History, peers: nat, log: seq<LogEntry>, c: int, hi: nat, hi': nat)
    requires Grows(h, h') && hi <= hi' && CommitOk(h, peers, log, c, hi)
    ensures CommitOk(h', peers, log, c, hi')
  {
    if c != 0 {
      var t: nat, k: nat :| t <= hi && CommitWitness(h, peers, log, c, t, k);
      CommittedAtGrows(h, h', peers, t, k);
      PrefixTransitive(log[..c + 1], TermLog(h, t), TermLog(h', t));
      assert CommitWitness(h', peers, log, c, t, k);
    }
  }

  /** Commitment carries over to another log with the same first entries. */
  lemma CommitOkPrefix(h: History, peers: nat, log: seq<LogEntry>, log': seq<LogEntry>, c: int, c': int, hi: nat)
    requires CommitOk(h, peers, log, c, hi)
    requires 0 <= c' <= c && c' < |log'| && log'[..c' + 1] == log[..c' + 1]
    ensures CommitOk(h, peers, log', c', hi)
  {
    if c' != 0 {
      var t: nat, k: nat :| t <= hi && CommitWitness(h, peers, log, c, t, k);
      assert log'[..c' + 1] <= TermLog(h, t) by {
        SamePrefix(log, TermLog(h, t), c);
      }
      assert CommitWitness(h, peers, log', c', t, k);
    }
  }

  // ----- messages -----

  lemma AppendOkGrows(h: History, h': History, peers: nat, from: nat, a: AppendEntriesArgs)
    requires Grows(h, h') && AppendOk(h, peers, from, a)
    ensures AppendOk(h', peers, from, a)
  {
    var l, l' := TermLog(h, a.term), TermLog(h', a.term);
    CommitOkGrows(h, h', peers, l, a.leaderCommit, a.term, a.term);
    CommitOkPrefix(h', peers, l, l', a.leaderCommit, a.leaderCommit, a.term);
    var lo, hi := a.prevLogIndex + 1, a.prevLogIndex + 1 + |a.entries|;
    assert l'[lo..hi] == l[lo..hi];
  }

  lemma InstallOkGrows(h: History, h': History, peers: nat, from: nat, a: InstallSnapshotArgs)
    requires Grows(h, h') && InstallOk(h, peers, from, a)
    ensures InstallOk(h', peers, from, a)
  {
    var l, l' := TermLog(h, a.term), TermLog(h', a.term);
    CommitOkGrows(h, h', peers, l, a.lastIncludedIndex, a.term, a.term);
    CommitOkPrefix(h', peers, l, l', a.lastIncludedIndex, a.lastIncludedIndex, a.term);
    assert l'[..a.lastIncludedIndex + 1] == l[..a.lastIncludedIndex + 1];
  }

  lemma MessageOkGrows(h: History, h': History, peers: nat, m: Message)
    requires Grows(h, h') && MessageOk(h, peers, m)
    ensures MessageOk(h', peers, m)
  {
    match m
    case VoteRequest(from, to, a) =>
    case VoteReply(from, to, a, r) =>
    case AppendRequest(from, to, a) => AppendOkGrows(h, h', peers, from, a);
    case AppendReply(from, to, a, r) =>
      AppendOkGrows(h, h', peers, to, a);
      assert AppendReplyOk(h', peers, from, to, a, r);
    case InstallRequest(from, to, a) => InstallOkGrows(h, h', peers, from, a);
    case InstallReply(from, to, a, r) => InstallOkGrows(h, h', peers, to, a);
  }

  // ----- servers -----

  lemma TallyGrows(h: History, h': History, peers: nat, i: nat, t: nat, pending: set<nat>)
    requires Grows(h, h')
    ensures Tally(h, peers, i, t) <= Tally(h', peers, i, t)
    ensures |Tally(h, peers, i, t) - pending| <= |Tally(h', peers, i, t) - pending|
  {
    SubsetSize(Tally(h, peers, i, t) - pending, Tally(h', peers, i, t) - pending);
  }

  lemma AcksOkGrows(h: History, h': History, peers: nat, i: nat, me: nat, log: seq<LogEntry>, saved: nat)
    requires OnlyBy(h, h', i) && me != i
    requires HistoryOk(h, peers) && AcksOk(h, me, log, saved)
    ensures AcksOk(h', me, log, saved)
  {
    forall t: nat | Ballot(me, t) in h'.acks
      ensures t <= saved
      ensures forall k: nat :: 1 <= k <= h'.acks[Ballot(me, t)] && t in h'.leaders && k < |TermLog(h', t)| ==>
                KeepsAck(h', log, saved, t, k)
    {
      assert Ballot(me, t) in h.acks && AckOk(h, peers, Ballot(me, t));
      forall k: nat | 1 <= k <= h'.acks[Ballot(me, t)] && t in h'.leaders && k < |TermLog(h', t)|
        ensures KeepsAck(h', log, saved, t, k)
      {
        KeepsAckGrows(h, h', log, saved, saved, t, k);
      }
    }
  }

  lemma LeadingOkGrows(h: History, h': History, i: nat, s: Server)
    requires Shape(s) && OnlyBy(h, h', i) && s.me != i && LeadingOk(h, s)
    ensures LeadingOk(h', s)
  {
    if s.role == Leader {
      forall p: nat | p < s.peers ensures MatchOk(h', s, p) {
        assert MatchOk(h, s, p);
      }
    }
  }

  lemma VotesOkGrows(h: History, h': History, i: nat, s: Server)
    requires OnlyBy(h, h', i) && s.me != i && VotesOk(h, s)
    ensures VotesOk(h', s)
  {
    forall u: nat | Ballot(s.me, u) in h'.votes
      ensures u <= SavedTerm(s)
      ensures u == s.currentTerm ==> Keeps(h', s, s.votedFor, h'.votes[Ballot(s.me, u)].candidate)
      ensures u == SavedTerm(s) ==> Keeps(h', s, SavedVote(s), h'.votes[Ballot(s.me, u)].candidate)
    {
      assert Ballot(s.me, u) in h.votes;
    }
  }

  lemma CandidateOkGrows(h: History, h': History, i: nat, s: Server)
    requires |s.logs| >= 1 && OnlyBy(h, h', i) && s.me != i && CandidateOk(h, s)
    ensures CandidateOk(h', s)
  {
    hide Tally, FullLog;
    TallyGrows(h, h', s.peers, s.me, s.currentTerm, s.pending);
  }

  /** A server is untouched by what another server records. */
  lemma ServerOkGrows(h: History, h': History, peers: nat, i: nat, s: Server, j: nat)
    requires OnlyBy(h, h', i) && HistoryOk(h, peers) && ServerOk(h, peers, s, j) && i != j
    ensures ServerOk(h', peers, s, j)
  {
    hide HistoryOk, LogOk, AcksOk, CommitOk, VotesOk, CandidateOk, LeadingOk, DiskOk, TermsAtMost, Grows, FullLog;
    LogOkGrows(h, h', FullLog(s));
    AcksOkGrows(h, h', peers, i, s.me, FullLog(s), SavedTerm(s));
    CommitOkGrows(h, h', peers, FullLog(s), s.commitIndex, s.currentTerm, s.currentTerm);
    CommitOkGrows(h, h', peers, FullLog(s), s.lastIncludedIndex, SavedTerm(s), SavedTerm(s));
    VotesOkGrows(h, h', i, s);
    CandidateOkGrows(h, h', i, s);
    LeadingOkGrows(h, h', i, s);
  }

  // ----- the history itself -----

  lemma VoteOkGrows(h: History, h': History, peers: nat, b: Ballot)
    requires Grows(h, h') && b in h.votes && VoteOk(h, peers, b)
    ensures b in h'.votes && VoteOk(h', peers, b)
  {
    LogOkGrows(h, h', h.votes[b].log);
  }

  lemma LeaderOkGrows(h: History, h': History, peers: nat, t: nat)
    requires Grows(h, h') && t in h.leaders && LeaderOk(h, peers, t)
    requires h'.leaders[t] == h.leaders[t]
    ensures LeaderOk(h', peers, t)
  {
    LogOkGrows(h, h', h.leaders[t].log);
    forall v | v in h.leaders[t].voters ensures VotedFor(h', Ballot(v, t), h.leaders[t].leader) {
      assert VotedFor(h, Ballot(v, t), h.leaders[t].leader);
    }
  }

  lemma VoteKeepsAckGrows(h: History, h': History, b: Ballot, t: nat, k: nat)
    requires Grows(h, h') && b in h.votes && t in h.leaders && k < |TermLog(h, t)|
    requires VoteKeepsAck(h, b, t, k)
    ensures VoteKeepsAck(h', b, t, k)
  {
    if TermLog(h, t)[..k + 1] <= h.votes[b].log {
      assert TermLog(h', t)[..k + 1] == TermLog(h, t)[..k + 1];
    } else {
      OverwrittenGrows(h, h', t, b.term - 1, b.term - 1, k);
    }
  }

  /** A counting vote of a server that records nothing new below its term. */
  lemma VoteKeepsAcksGrows(h: History, h': History, peers: nat, b: Ballot)
    requires Grows(h, h') && HistoryOk(h, peers) && b in h.votes && VoteKeepsAcks(h, b)
    requires forall t: nat :: t < b.term && Ballot(b.voter, t) in h'.acks ==>
               && Ballot(b.voter, t) in h.acks
               && h'.acks[Ballot(b.voter, t)] == h.acks[Ballot(b.voter, t)]
    ensures VoteKeepsAcks(h', b)
  {
    forall t: nat, k: nat |
      && t < b.term && Ballot(b.voter, t) in h'.acks && 1 <= k <= h'.acks[Ballot(b.voter, t)]
      && t in h'.leaders && k < |TermLog(h', t)|
      ensures VoteKeepsAck(h', b, t, k)
    {
      assert AckOk(h, peers, Ballot(b.voter, t));
      VoteKeepsAckGrows(h, h', b, t, k);
    }
  }
}
