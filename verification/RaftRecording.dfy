/** Each kind of entry the steps add to the history keeps the history invariant. */
module RaftRecording {
  import opened Options
  import opened RaftTypes
  import opened RaftProtocol
  import opened RaftInvariant
  import opened RaftStability
  import opened RaftLogs

  /** A server that has not voted in a term has not helped to elect its leader. */
  lemma UncountedVote(h: History, peers: nat, b: Ballot)
    requires HistoryOk(h, peers) && b !in h.votes && Counts(h, b)
    ensures b.term !in h.leaders
  {
    assert b.term in h.leaders ==> LeaderOk(h, peers, b.term);
    assert b == Ballot(b.voter, b.term);
  }

  /** A first vote carries over what the voter's log says about its acknowledgements. */
  lemma FirstVoteKeepsAcks(h: History, peers: nat, b: Ballot, v: Vote, saved: nat)
    requires HistoryOk(h, peers) && b !in h.votes && Counts(h, b)
    requires AcksOk(h, b.voter, v.log, saved) && saved <= b.term && b.term >= 1
    ensures VoteKeepsAcks(RecordVote(h, b, v), b)
  {
    var h' := RecordVote(h, b, v);
    UncountedVote(h, peers, b);
    forall t: nat, k: nat |
      && t < b.term && Ballot(b.voter, t) in h'.acks && 1 <= k <= h'.acks[Ballot(b.voter, t)]
      && t in h'.leaders && k < |TermLog(h', t)|
      ensures VoteKeepsAck(h', b, t, k)
    {
      assert KeepsAck(h, v.log, saved, t, k);
      assert TermLog(h, t) == TermLog(h', t);
      if Overwritten(h, t, saved, k) {
        var u :| t < u <= saved && u in h.leaders && Conflict(h, u, t, k);
        assert u != b.term;
        assert Overwritten(h, t, b.term - 1, k);
        AckOnlyOverwritten(h, h', t, b.term - 1, k);
      }
    }
  }

  lemma LeadersGrow(h: History, h': History, peers: nat)
    requires Grows(h, h') && HistoryOk(h, peers)
    ensures forall t :: t in h.leaders && h'.leaders[t] == h.leaders[t] ==> LeaderOk(h', peers, t)
  {
    forall t | t in h.leaders && h'.leaders[t] == h.leaders[t] ensures LeaderOk(h', peers, t) {
      LeaderOkGrows(h, h', peers, t);
    }
  }

  lemma VotesGrow(h: History, h': History, peers: nat)
    requires Grows(h, h') && HistoryOk(h, peers)
    ensures forall b :: b in h.votes ==> VoteOk(h', peers, b)
  {
    forall b | b in h.votes ensures VoteOk(h', peers, b) {
      VoteOkGrows(h, h', peers, b);
    }
  }

  lemma AcksGrow(h: History, h': History, peers: nat)
    requires Grows(h, h') && HistoryOk(h, peers)
    ensures forall b :: b in h.acks && h'.acks[b] == h.acks[b] ==> AckOk(h', peers, b)
  {
    forall b | b in h.acks && h'.acks[b] == h.acks[b] ensures AckOk(h', peers, b) {
      assert AckOk(h, peers, b);
    }
  }

  /** No vote that counts is followed by a new acknowledgement below its term. */
  ghost predicate NoLateAcks(h: History, h': History) {
    forall b: Ballot, t: nat :: b in h.votes && t < b.term && Ballot(b.voter, t) in h'.acks ==>
      Ballot(b.voter, t) in h.acks && h'.acks[Ballot(b.voter, t)] == h.acks[Ballot(b.voter, t)]
  }

  lemma CountedVotesGrow(h: History, h': History, peers: nat)
    requires Grows(h, h') && HistoryOk(h, peers) && NoLateAcks(h, h')
    ensures forall b :: b in h.votes && Counts(h', b) ==> VoteKeepsAcks(h', b)
  {
    forall b | b in h.votes && Counts(h', b) ensures VoteKeepsAcks(h', b) {
      assert Counts(h, b);
      VoteKeepsAcksGrows(h, h', peers, b);
    }
  }

  lemma NewVoteOk(h: History, peers: nat, b: Ballot, v: Vote)
    requires HistoryOk(h, peers) && b !in h.votes
    requires b.term >= 1 && b.voter < peers && LogOk(h, v.log)
    requires v.candidate == b.voter || VotedFor(h, Ballot(v.candidate, b.term), v.candidate)
    requires v.candidate == b.voter ==> TermsBelow(v.log, b.term)
    requires v.candidate != b.voter ==> UpToDate(h.votes[Ballot(v.candidate, b.term)].log, v.log)
    ensures VoteOk(RecordVote(h, b, v), peers, b)
  {
    hide LeaderOk, AckOk, VoteKeepsAcks;
    LogOkGrows(h, RecordVote(h, b, v), v.log);
    if v.candidate != b.voter {
      assert VoteOk(h, peers, Ballot(v.candidate, b.term));
    }
  }

  lemma VoteRecorded(h: History, peers: nat, b: Ballot, v: Vote, saved: nat)
    requires HistoryOk(h, peers) && b !in h.votes
    requires b.term >= 1 && b.voter < peers && LogOk(h, v.log)
    requires v.candidate == b.voter || VotedFor(h, Ballot(v.candidate, b.term), v.candidate)
    requires v.candidate == b.voter ==> TermsBelow(v.log, b.term)
    requires v.candidate != b.voter ==> UpToDate(h.votes[Ballot(v.candidate, b.term)].log, v.log)
    requires AcksOk(h, b.voter, v.log, saved) && saved <= b.term
    ensures HistoryOk(RecordVote(h, b, v), peers) && OnlyBy(h, RecordVote(h, b, v), b.voter)
  {
    hide LogOk, AcksOk, LeaderOk, VoteOk, AckOk, VoteKeepsAcks, UpToDate, TermsBelow;
    var h' := RecordVote(h, b, v);
    LeadersGrow(h, h', peers);
    VotesGrow(h, h', peers);
    AcksGrow(h, h', peers);
    CountedVotesGrow(h, h', peers);
    NewVoteOk(h, peers, b, v);
    if Counts(h', b) {
      assert Counts(h, b);
      FirstVoteKeepsAcks(h, peers, b, v, saved);
    }
  }

  lemma AckOnlyBy(h: History, b: Ballot, index: nat)
    ensures OnlyBy(h, RecordAck(h, b, index), b.voter)
  {
  }

  /** An acknowledgement by a server that has not voted in a later term. */
  lemma AckRecorded(h: History, peers: nat, b: Ballot, index: nat)
    requires HistoryOk(h, peers)
    requires b.term in h.leaders && index < |TermLog(h, b.term)| && b.voter < peers
    requires forall u: nat :: Ballot(b.voter, u) in h.votes ==> u <= b.term
    ensures HistoryOk(RecordAck(h, b, index), peers) && OnlyBy(h, RecordAck(h, b, index), b.voter)
  {
    AckOnlyBy(h, b, index);
    NoLateAck(h, b, index);
    LeadersGrow(h, RecordAck(h, b, index), peers);
    VotesGrow(h, RecordAck(h, b, index), peers);
    CountedVotesGrow(h, RecordAck(h, b, index), peers);
    AckRecordedOk(h, peers, b, index);
  }

  lemma AckRecordedOk(h: History, peers: nat, b: Ballot, index: nat)
    requires HistoryOk(h, peers)
    requires b.term in h.leaders && index < |TermLog(h, b.term)| && b.voter < peers
    ensures forall x :: x in RecordAck(h, b, index).acks ==> AckOk(RecordAck(h, b, index), peers, x)
  {
    var h' := RecordAck(h, b, index);
    forall x | x in h'.acks ensures AckOk(h', peers, x) {
      assert x in h.acks ==> AckOk(h, peers, x);
    }
  }

  lemma NoLateAck(h: History, b: Ballot, index: nat)
    requires forall u: nat :: Ballot(b.voter, u) in h.votes ==> u <= b.term
    ensures NoLateAcks(h, RecordAck(h, b, index))
  {
    assert forall x :: x in h.votes ==> x == Ballot(x.voter, x.term);
  }

  lemma LeaderOnlyBy(h: History, t: nat, l: Leadership)
    requires t in h.leaders ==>
               && h.leaders[t].leader == l.leader && h.leaders[t].voters == l.voters
               && h.leaders[t].log <= l.log && h.leaders[t].sent <= l.sent
    ensures OnlyBy(h, h.(leaders := h.leaders[t := l]), l.leader)
    ensures NoLateAcks(h, h.(leaders := h.leaders[t := l]))
  {
  }

  /** A term's first leader, or a leader with a longer log. */
  lemma LeaderAdded(h: History, peers: nat, t: nat, l: Leadership)
    requires HistoryOk(h, peers)
    requires t in h.leaders ==>
               && h.leaders[t].leader == l.leader && h.leaders[t].voters == l.voters
               && h.leaders[t].log <= l.log && h.leaders[t].sent <= l.sent
    requires LeaderOk(h.(leaders := h.leaders[t := l]), peers, t)
    ensures HistoryOk(h.(leaders := h.leaders[t := l]), peers)
    ensures OnlyBy(h, h.(leaders := h.leaders[t := l]), l.leader)
  {
    hide OnlyBy, LeaderOk, VoteOk, VoteKeepsAcks;
    var h' := h.(leaders := h.leaders[t := l]);
    LeaderOnlyBy(h, t, l);
    OnlyByGrows(h, h', l.leader);
    hide Grows;
    LeadersGrow(h, h', peers);
    VotesGrow(h, h', peers);
    AcksGrow(h, h', peers);
    CountedVotesGrow(h, h', peers);
  }

  /** A candidate with a majority of the votes of a term without a leader. */
  lemma WinnerOk(h: History, peers: nat, t: nat, l: Leadership)
    requires HistoryOk(h, peers) && t !in h.leaders && t >= 1
    requires l.leader < peers && LogOk(h, l.log) && TermsAtMost(l.log, t) && Majority(l.voters, peers)
    requires forall v :: v in l.voters ==> VotedFor(h, Ballot(v, t), l.leader)
    requires VotedFor(h, Ballot(l.leader, t), l.leader) && h.votes[Ballot(l.leader, t)].log <= l.log
    ensures HistoryOk(h.(leaders := h.leaders[t := l]), peers)
    ensures OnlyBy(h, h.(leaders := h.leaders[t := l]), l.leader)
  {
    var h' := h.(leaders := h.leaders[t := l]);
    LeaderOnlyBy(h, t, l);
    LogOkGrows(h, h', l.log);
    assert LeaderOk(h', peers, t);
    LeaderAdded(h, peers, t, l);
  }

  /** A leader appends an entry of its term. */
  lemma LeaderExtended(h: History, peers: nat, t: nat, e: LogEntry)
    requires HistoryOk(h, peers) && t in h.leaders && e.term == t
    ensures var l := h.leaders[t].(log := h.leaders[t].log + [e]);
            var h' := h.(leaders := h.leaders[t := l]);
            HistoryOk(h', peers) && OnlyBy(h, h', l.leader) && LogOk(h', l.log)
  {
    var l := h.leaders[t].(log := h.leaders[t].log + [e]);
    var h' := h.(leaders := h.leaders[t := l]);
    LeaderOnlyBy(h, t, l);
    assert LeaderOk(h, peers, t);
    ExtendedLogOk(h, h', t, e);
    ExtendedLeaderOk(h, h', peers, t, e);
    LeaderAdded(h, peers, t, l);
  }

  lemma ExtendedLeaderOk(h: History, h': History, peers: nat, t: nat, e: LogEntry)
    requires Grows(h, h') && t in h.leaders && e.term == t && LeaderOk(h, peers, t)
    requires h'.leaders[t] == h.leaders[t].(log := h.leaders[t].log + [e])
    requires LogOk(h', h'.leaders[t].log)
    ensures LeaderOk(h', peers, t)
  {
    var l := h'.leaders[t];
    PrefixTransitive(h.votes[Ballot(l.leader, t)].log, h.leaders[t].log, l.log);
    forall v | v in l.voters ensures VotedFor(h', Ballot(v, t), l.leader) {
      assert VotedFor(h, Ballot(v, t), l.leader);
    }
  }

  lemma ExtendedLogOk(h: History, h': History, t: nat, e: LogEntry)
    requires Grows(h, h') && t in h.leaders && e.term == t
    requires LogOk(h, h.leaders[t].log) && h'.leaders[t].log == h.leaders[t].log + [e]
    ensures LogOk(h', h'.leaders[t].log)
  {
    var old', log := h.leaders[t].log, h'.leaders[t].log;
    forall k | 1 <= k < |log| ensures EntryOk(h', log, k) {
      if k == |old'| {
        assert log[..k + 1] == log;
      } else {
        assert EntryOk(h, old', k);
        assert log[..k + 1] == old'[..k + 1];
        PrefixTransitive(log[..k + 1], TermLog(h, log[k].term), TermLog(h', log[k].term));
      }
    }
  }

  lemma OnlyByTransitively(a: History, b: History, c: History, i: nat)
    requires OnlyBy(a, b, i) && OnlyBy(b, c, i)
    ensures OnlyBy(a, c, i)
  {
    GrowsTransitively(a, b, c);
  }

  /** Recording a leader together with its own acknowledgement. */
  lemma LeaderRecorded(h: History, h1: History, peers: nat, t: nat, l: Leadership)
    requires h1 == h.(leaders := h.leaders[t := l])
    requires HistoryOk(h1, peers) && OnlyBy(h, h1, l.leader)
    requires l.log != [] && l.leader < peers
    requires forall u: nat :: Ballot(l.leader, u) in h.votes ==> u <= t
    ensures HistoryOk(RecordLeader(h, t, l), peers) && OnlyBy(h, RecordLeader(h, t, l), l.leader)
  {
    hide HistoryOk, OnlyBy;
    AckRecorded(h1, peers, Ballot(l.leader, t), |l.log| - 1);
    OnlyByTransitively(h, h1, RecordLeader(h, t, l), l.leader);
  }

  /** A leader sends its snapshot. */
  lemma SentRecorded(h: History, peers: nat, t: nat, index: int)
    requires HistoryOk(h, peers) && t in h.leaders
    ensures HistoryOk(RecordSent(h, t, index), peers) && OnlyBy(h, RecordSent(h, t, index), h.leaders[t].leader)
  {
    var l := h.leaders[t].(sent := Max(h.leaders[t].sent, index));
    LeaderOnlyBy(h, t, l);
    assert LeaderOk(h, peers, t);
    LogOkGrows(h, RecordSent(h, t, index), l.log);
    SentLeaderOk(h, peers, t, index);
    LeaderAdded(h, peers, t, l);
  }

  lemma SentLeaderOk(h: History, peers: nat, t: nat, index: int)
    requires t in h.leaders && LeaderOk(h, peers, t) && LogOk(RecordSent(h, t, index), h.leaders[t].log)
    ensures LeaderOk(RecordSent(h, t, index), peers, t)
  {
    forall v | v in h.leaders[t].voters ensures VotedFor(RecordSent(h, t, index), Ballot(v, t), h.leaders[t].leader) {
      assert VotedFor(h, Ballot(v, t), h.leaders[t].leader);
    }
  }

  /** A restart that did not restore the saved vote leaves no other trace. */
  lemma RestartRecorded(h: History, peers: nat, disk: Option<Disk>, vote: int, i: nat)
    requires HistoryOk(h, peers)
    ensures HistoryOk(RecordRestart(h, disk, vote), peers) && OnlyBy(h, RecordRestart(h, disk, vote), i)
  {
    var h' := RecordRestart(h, disk, vote);
    LeadersGrow(h, h', peers);
    VotesGrow(h, h', peers);
    AcksGrow(h, h', peers);
    CountedVotesGrow(h, h', peers);
  }

  lemma InvParts(c: System, i: nat)
    requires Inv(c) && i < |c.servers|
    ensures i < c.peers && HistoryOk(c.hist, c.peers) && ServerOk(c.hist, c.peers, c.servers[i], i)
  {
  }

  lemma InvMessage(c: System, m: Message)
    requires Inv(c) && m in c.net
    ensures MessageOk(c.hist, c.peers, m)
  {
  }

  lemma OnlyByGrows(h: History, h': History, i: nat)
    requires OnlyBy(h, h', i)
    ensures Grows(h, h')
  {
  }

  lemma NothingNew(h: History, i: nat)
    ensures OnlyBy(h, h, i)
  {
  }

  /** One server moved, and everything the step touched is in order. */
  lemma InvAfter(c: System, c': System, i: nat, s': Server, out: set<Message>, h': History)
    requires Inv(c) && i < c.peers && Moves(c, c', i, s', out, h')
    requires HistoryOk(h', c.peers) && OnlyBy(c.hist, h', i)
    requires ServerOk(h', c.peers, s', i)
    requires forall m :: m in out ==> MessageOk(h', c.peers, m)
    ensures Inv(c') && Grows(c.hist, c'.hist)
  {
    forall j: nat | j < c.peers ensures ServerOk(h', c.peers, c'.servers[j], j) {
      if j != i {
        ServerOkGrows(c.hist, h', c.peers, i, c.servers[j], j);
      }
    }
    forall m | m in c'.net ensures MessageOk(h', c.peers, m) {
      if m !in out {
        MessageOkGrows(c.hist, h', c.peers, m);
      }
    }
  }
}
