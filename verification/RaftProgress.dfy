/** What goes forward: which votes are granted, what a reply teaches a leader, and when exchanging
    requests and replies brings a follower up to date. */
module RaftProgress {
  import opened RaftTypes
  import opened RaftServer
  import opened RaftProtocol
  import opened RaftInvariant
  import opened RaftCompaction
  import opened RaftSafety
  import opened RaftMeaning

  // ----- votes -----

  /** Only an election timeout sends vote requests. */
  lemma VoteRequestSent(c: System, c': System, step: Step, m: Message)
    requires Next(c, c', step) && m.VoteRequest? && m in c'.net && m !in c.net
    ensures step.ElectionTimeout? && step.i < |c.servers| && |c.servers[step.i].logs| >= 1
    ensures m in VoteRequests(StartElection(c.servers[step.i]))
  {
    hide FullLog, RequestVote, AppendEntries, InstallSnapshot, HandleAppendReply, HandleInstallReply, HandleVoteReply;
    hide NextIndexInRange, Deliver, RestoreVoting, Snapshot, StartElection, Persist, Tally, Start, AppendTo, InstallTo;
    match step
    case _ =>
  }

  ghost predicate AskedAt(run: seq<System>, u: nat, m: Message) {
    && u + 1 < |run| && m.VoteRequest? && Next(run[u], run[u + 1], ElectionTimeout(m.from))
    && m.from < |run[u].servers| && |run[u].servers[m.from].logs| >= 1
    && m in VoteRequests(StartElection(run[u].servers[m.from]))
  }

  /** Every vote request was sent by its candidate standing for election. */
  lemma {:induction false} VoteAsked(peers: nat, run: seq<System>, a: nat, m: Message) returns (u: nat)
    requires IsRun(peers, run) && a < |run| && m in run[a].net && m.VoteRequest?
    ensures u < a && AskedAt(run, u, m)
    decreases a
  {
    hide Next, ServerOk, HistoryOk, MessageOk, VoteRequests, StartElection;
    if a == 0 {
      assert false;
    } else if m in run[a - 1].net {
      u := VoteAsked(peers, run, a - 1, m);
    } else {
      u := a - 1;
      var step := RunStep(peers, run, u);
      VoteRequestSent(run[u], run[a], step, m);
      RunIndices(peers, run, u, step.i);
      ElectionMeans(run[u].servers[step.i], peers, step.i);
      assert step == ElectionTimeout(m.from);
    }
  }

  lemma RunIndices(peers: nat, run: seq<System>, a: nat, i: nat)
    requires IsRun(peers, run) && a < |run| && i < |run[a].servers|
    ensures |run[a].servers| == peers && IndicesOk(run[a].servers[i], peers, i)
  {
    hide IsRun;
    RunInv'(peers, run, a);
    IndicesInRuns(peers, run, a, i);
  }

  /** In every run a request for a vote is granted exactly if its term is higher, or equal with no
      other vote held, and the log the candidate had when it stood for election is at least as
      up to date as the voter's. */
  lemma VoteGrantedIff(peers: nat, run: seq<System>, a: nat, i: nat, m: Message) returns (u: nat)
    requires IsRun(peers, run) && a < |run| && i < peers && m in run[a].net && m.VoteRequest? && m.to == i
    ensures u < a && AskedAt(run, u, m) && |run[a].servers| == peers && |run[a].servers[i].logs| >= 1
    ensures var s := run[a].servers[i];
            var log, cand := FullLog(s), FullLog(run[u].servers[m.from]);
            && log != [] && cand != [] && m.vargs.term == run[u].servers[m.from].currentTerm + 1
            && (RequestVote(s, m.vargs).1.voteGranted <==>
                && (|| m.vargs.term > s.currentTerm
                    || (m.vargs.term == s.currentTerm && (s.votedFor == NO_VOTE || s.votedFor == m.from)))
                && (|| cand[|cand| - 1].term > log[|log| - 1].term
                    || (cand[|cand| - 1].term == log[|log| - 1].term && |cand| >= |log|)))
  {
    hide IsRun, RequestVote, VoteRequests, StartElection, FullLog, Next;
    u := VoteAsked(peers, run, a, m);
    RunIndices(peers, run, u, m.from);
    IndicesInRuns(peers, run, a, i);
    ElectionMeans(run[u].servers[m.from], peers, m.from);
    VoteMeans(run[a].servers[i], peers, i, m.vargs);
  }

  // ----- replies -----

  /** In every run, a reply to a snapshot that the current leader handles raises what it knows of
      the peer to the snapshot point, touches no other peer, and, unless the leader has compacted
      further, makes it go on with entries. */
  lemma InstallProgressInRuns(peers: nat, run: seq<System>, a: nat, i: nat, m: Message)
    requires IsRun(peers, run) && a < |run| && i < peers && m in run[a].net && m.InstallReply? && m.to == i
    ensures |run[a].servers| == peers && m.from < peers && IndicesOk(run[a].servers[i], peers, i)
    ensures var s := run[a].servers[i];
            s.role == Leader && s.currentTerm == m.iargs.term && m.ireply.term <= s.currentTerm ==>
              && var s' := HandleInstallReply(s, m.from, m.iargs, m.ireply);
              && Shape(s') && Advances(s, s', m.from, m.iargs.lastIncludedIndex)
              && s' == s.(nextIndex := s'.nextIndex, matchIndex := s'.matchIndex)
              && s'.nextIndex[m.from] <= RealLogLen(s')
              && (s.lastIncludedIndex == m.iargs.lastIncludedIndex ==> MessageTo(s', m.from).AppendRequest?)
  {
    hide IsRun, HistoryOk, MessageOk, HandleInstallReply, Advances, LogOk, AcksOk, CommitOk, VotesOk, CandidateOk;
    hide TermsAtMost, DiskOk, MatchOk;
    RunServer(peers, run, a, i);
    RunMessage(peers, run, a, m);
    MessageEnds(run[a].hist, peers, m);
    var s := run[a].servers[i];
    InstallReplyMeans(s, m.from, m.iargs, m.ireply);
    InstallReplyServer(run[a].hist, peers, s, i, m);
    if s.role == Leader && s.currentTerm == m.iargs.term && m.ireply.term <= s.currentTerm {
      var s' := HandleInstallReply(s, m.from, m.iargs, m.ireply);
      AdvancesPast(s, s', m.from, m.iargs.lastIncludedIndex);
    }
  }

  lemma MessageEnds(h: History, peers: nat, m: Message)
    requires MessageOk(h, peers, m)
    ensures m.from < peers && m.to < peers
  {
  }

  lemma AdvancesPast(s: Server, s': Server, p: nat, n: int)
    requires Shape(s) && Shape(s') && s'.peers == s.peers && p < s.peers && Advances(s, s', p, n)
    ensures s'.nextIndex[p] > n
  {
  }

  /** The same for an accepted AppendEntries request, after which the leader commits the greatest
      index of its term that a majority holds. */
  lemma AppendProgressInRuns(peers: nat, run: seq<System>, a: nat, i: nat, m: Message)
    requires IsRun(peers, run) && a < |run| && i < peers && m in run[a].net && m.AppendReply? && m.to == i
    ensures |run[a].servers| == peers && m.from < peers && IndicesOk(run[a].servers[i], peers, i)
    ensures var s := run[a].servers[i];
            s.role == Leader && s.currentTerm == m.aargs.term && m.areply.term <= s.currentTerm && m.areply.success ==>
              && var s' := HandleAppendReply(s, m.from, m.aargs, m.areply);
              && AcknowledgedThenCommits(s, s', m.from, m.aargs.prevLogIndex + |m.aargs.entries|)
              && m.aargs.prevLogIndex + |m.aargs.entries| < |FullLog(s)|
  {
    hide IsRun, HistoryOk, HandleAppendReply, AcknowledgedThenCommits, LogOk, AcksOk, CommitOk, VotesOk, CandidateOk;
    hide TermsAtMost, DiskOk, MatchOk, RejectionOk, FullLog, BacksUp, StepsDown;
    RunServer(peers, run, a, i);
    RunMessage(peers, run, a, m);
    AppendReplyMeans(run[a].servers[i], m.from, m.aargs, m.areply);
  }
}
