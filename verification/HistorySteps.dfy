/** The four ways the history grows: a candidacy, a vote, an election, a leader's append; and acknowledgements. */
module HistorySteps {
  import opened RaftTypes
  import opened LogSpec
  import opened NodeSpec
  import opened Ghosts
  import opened SafetyInv

  // ---- Candidacy

  ghost function WithKey(gh: Ghost, s: NodeState): Ghost {
    gh.(key := gh.key[(s.term, s.p.id) := (s.log.LastTerm(), s.log.LastIndex())])
  }

  lemma KeyStep(gh: Ghost, s: NodeState)
    requires GhostInv(gh) && NodeInv(gh, s)
    requires (s.term, s.p.id) !in gh.key && s.role == Follower
    ensures ExtBy(s.p.id, gh, WithKey(gh, s))
    ensures GhostInv(WithKey(gh, s)) && NodeInv(WithKey(gh, s), s)
  {
    hide GhostInv, NodeInv, Ext, OnlyBy;
    SameLogsExt(gh, WithKey(gh, s), s.p.id);
    KeyKeepsGhost(gh, s);
    KeyKeepsNode(gh, s);
  }

  /** Growth that touches no log and no acknowledgement. */
  lemma SameLogsExt(gh: Ghost, gh': Ghost, i: nat)
    requires gh'.voters == gh.voters && gh'.rel == gh.rel && gh'.payload == gh.payload && gh'.tlog == gh.tlog
    requires gh'.acks == gh.acks
    requires gh'.leader == gh.leader && gh'.quorum == gh.quorum
    requires forall x :: x in gh.votes ==> x in gh'.votes && gh'.votes[x] == gh.votes[x]
    requires forall x :: x in gh.key ==> x in gh'.key && gh'.key[x] == gh.key[x]
    requires forall U, j :: j != i && (U, j) in gh'.votes ==> (U, j) in gh.votes
    requires forall U, j :: j != i && (U, j) in gh'.key ==> (U, j) in gh.key
    ensures ExtBy(i, gh, gh')
  {
    forall T | T in gh.tlog ensures Grows(gh.tlog[T], gh'.tlog[T], T) {
      assert gh'.tlog[T][..|gh.tlog[T]|] == gh.tlog[T];
    }
  }

  lemma KeyKeepsNode(gh: Ghost, s: NodeState)
    requires NodeInv(gh, s) && s.role == Follower && Ext(gh, WithKey(gh, s))
    ensures NodeInv(WithKey(gh, s), s)
  {
    hide LogInv, Full, Owes, IsCommitted, Ext;
    IsCommittedGrows(gh, WithKey(gh, s), Full(gh.tlog, s.log)[..s.commitIndex], s.term, s.term);
  }

  lemma KeyKeepsGhost(gh: Ghost, s: NodeState)
    requires GhostInv(gh) && (s.term, s.p.id) !in gh.key
    ensures GhostInv(WithKey(gh, s))
  {
    hide TermLogs, Own, LaterHave, Agree;
    var gh' := WithKey(gh, s);
    assert forall T :: T in gh'.tlog ==> Elected(gh, T) && Elected(gh', T);
    assert Elections(gh');
    forall U: nat, i: nat, T: nat, k: nat |
      (U, i) in gh'.votes && (T, i) in gh'.acks && T < U && k <= gh'.acks[(T, i)] && Own(gh'.tlog, T, k) &&
      LaterHave(gh'.tlog, T, k, U)
      ensures KeyReaches(gh'.key[(U, gh'.votes[(U, i)])], T, k)
    {
      assert Own(gh.tlog, T, k) && LaterHave(gh.tlog, T, k, U);
    }
    forall U: nat, i: nat, T: nat, k: nat |
      U in gh'.tlog && i in gh'.quorum[U] && (T, i) in gh'.acks && T < U && k <= gh'.acks[(T, i)] && Own(gh'.tlog, T, k)
      && LaterHave(gh'.tlog, T, k, U - 1)
      ensures Agree(gh'.tlog[U], gh'.tlog[T], k)
    {
      assert Own(gh.tlog, T, k) && LaterHave(gh.tlog, T, k, U - 1);
    }
  }

  // ---- Voting

  ghost function WithVote(gh: Ghost, s: NodeState, c: nat): Ghost {
    gh.(votes := gh.votes[(s.term, s.p.id) := c])
  }

  /** A node votes at most once a term, for a candidate whose log reaches its own. */
  lemma VoteStep(gh: Ghost, s: NodeState, c: nat)
    requires GhostInv(gh) && NodeInv(gh, s)
    requires c != NONE && (s.votedFor == NONE || s.votedFor == c)
    requires (s.term, c) in gh.key && LogUpToDate(s.log, gh.key[(s.term, c)].1, gh.key[(s.term, c)].0)
    ensures ExtBy(s.p.id, gh, WithVote(gh, s, c))
    ensures GhostInv(WithVote(gh, s, c)) && NodeInv(WithVote(gh, s, c), s.(votedFor := c))
  {
    hide GhostInv, Ext, OnlyBy, LogInv, Full, Owes, AckInv, CommitInv, SnapshotInv, LeaderInv;
    SameLogsExt(gh, WithVote(gh, s, c), s.p.id);
    VoteKeepsGhost(gh, s, c);
    VoteKeepsNode(gh, s, c);
  }

  lemma VoteKeepsNode(gh: Ghost, s: NodeState, c: nat)
    requires NodeInv(gh, s) && Ext(gh, WithVote(gh, s, c))
    requires c != NONE && (s.votedFor == NONE || s.votedFor == c)
    ensures NodeInv(WithVote(gh, s, c), s.(votedFor := c))
  {
    hide LogInv, Full, Owes, IsCommitted, Ext;
    IsCommittedGrows(gh, WithVote(gh, s, c), Full(gh.tlog, s.log)[..s.commitIndex], s.term, s.term);
  }

  /** A log that holds entry k of term T ends no earlier than it. */
  lemma HeldReaches(gh: Ghost, l: Log, T: nat, k: nat)
    requires TermLogs(gh.tlog) && LogInv(gh.tlog, l) && Own(gh.tlog, T, k) && Agree(Full(gh.tlog, l), gh.tlog[T], k)
    ensures KeyReaches((l.LastTerm(), l.LastIndex()), T, k)
  {
    var n := l.LastIndex();
    var L := gh.tlog[l.LastTerm()];
    assert TermLog(gh.tlog, l.LastTerm(), L);
    AgreeLess(Full(gh.tlog, l), gh.tlog[T], k, k);
    assert L[k - 1] == Full(gh.tlog, l)[k - 1];
    assert L[k - 1].term <= L[n - 1].term;
  }

  /** A log at least as up to date reaches what the other reaches. */
  lemma UpToDateReaches(l: Log, key: (nat, nat), T: nat, k: nat)
    requires LogUpToDate(l, key.1, key.0) && KeyReaches((l.LastTerm(), l.LastIndex()), T, k)
    ensures KeyReaches(key, T, k)
  {
  }

  lemma VoteKeepsGhost(gh: Ghost, s: NodeState, c: nat)
    requires GhostInv(gh) && NodeInv(gh, s)
    requires c != NONE && (s.votedFor == NONE || s.votedFor == c)
    requires (s.term, c) in gh.key && LogUpToDate(s.log, gh.key[(s.term, c)].1, gh.key[(s.term, c)].0)
    ensures GhostInv(WithVote(gh, s, c))
  {
    hide TermLogs, Own, LaterHave, Agree, LogInv, Full, IsCommitted, SnapshotInv;
    VoteKeepsElections(gh, s, c);
    VoteKeepsVotesSafe(gh, s, c);
    VoteKeepsLeadersSafe(gh, s, c);
  }

  lemma VoteKeepsElections(gh: Ghost, s: NodeState, c: nat)
    requires Elections(gh) && PromiseInv(gh, s)
    requires c != NONE && (s.votedFor == NONE || s.votedFor == c) && (s.term, c) in gh.key
    ensures Elections(WithVote(gh, s, c))
  {
    var gh' := WithVote(gh, s, c);
    forall T | T in gh'.tlog ensures Elected(gh', T) {
      assert Elected(gh, T);
    }
  }

  lemma VoteKeepsVotesSafe(gh: Ghost, s: NodeState, c: nat)
    requires GhostInv(gh) && NodeInv(gh, s) && Elections(WithVote(gh, s, c))
    requires (s.term, c) in gh.key && LogUpToDate(s.log, gh.key[(s.term, c)].1, gh.key[(s.term, c)].0)
    ensures Acknowledged(WithVote(gh, s, c)) && VotesSafe(WithVote(gh, s, c))
  {
    hide TermLogs, Own, LaterHave, Agree, LogInv, Full, IsCommitted, SnapshotInv, Elected, KeyReaches, LeadersSafe,
         Owes, LogUpToDate, Payloads;
    var gh' := WithVote(gh, s, c);
    forall U: nat, i: nat, T: nat, k: nat |
      (U, i) in gh'.votes && (T, i) in gh'.acks && T < U && k <= gh'.acks[(T, i)] && Own(gh'.tlog, T, k) &&
      LaterHave(gh'.tlog, T, k, U)
      ensures KeyReaches(gh'.key[(U, gh'.votes[(U, i)])], T, k)
    {
      if (U, i) == (s.term, s.p.id) {
        OwesHeld(gh, s, T, k);
        HeldReaches(gh, s.log, T, k);
        UpToDateReaches(s.log, gh.key[(s.term, c)], T, k);
      } else {
        VotesSafeAt(gh, U, i, T, k);
      }
    }
  }

  lemma OwesHeld(gh: Ghost, s: NodeState, T: nat, k: nat)
    requires LogInv(gh.tlog, s.log) && AckInv(gh, s)
    requires (T, s.p.id) in gh.acks && k <= gh.acks[(T, s.p.id)] && Own(gh.tlog, T, k) && LaterHave(gh.tlog, T, k, s.term)
    ensures Agree(Full(gh.tlog, s.log), gh.tlog[T], k)
  {
    hide Own, LaterHave, Agree, LogInv, Full;
    OwnWithin(gh.tlog, T, k);
    assert Counts(gh.tlog, T, k, s.term);
  }

  lemma VoteKeepsLeadersSafe(gh: Ghost, s: NodeState, c: nat)
    requires Elections(gh) && Acknowledged(gh) && LeadersSafe(gh)
    requires Elections(WithVote(gh, s, c)) && Acknowledged(WithVote(gh, s, c))
    ensures LeadersSafe(WithVote(gh, s, c))
  {
    hide Own, LaterHave, Agree, Elected;
    var gh' := WithVote(gh, s, c);
    forall U: nat, i: nat, T: nat, k: nat |
      U in gh'.tlog && i in gh'.quorum[U] && (T, i) in gh'.acks && T < U && k <= gh'.acks[(T, i)] && Own(gh'.tlog, T, k)
      && LaterHave(gh'.tlog, T, k, U - 1)
      ensures Agree(gh'.tlog[U], gh'.tlog[T], k)
    {
      LeadersSafeAt(gh, U, i, T, k);
    }
  }

  // ---- Election

  ghost function GrantedBy(voters: seq<nat>, votes: map<nat, bool>): set<nat> {
    set v | v in voters && v in votes && votes[v]
  }

  ghost function Granted(gh: Ghost, s: NodeState): set<nat> {
    GrantedBy(gh.voters, s.votes)
  }

  ghost function WithLeader(gh: Ghost, s: NodeState): Ghost
    requires LogInv(gh.tlog, s.log)
  {
    gh.(tlog := gh.tlog[s.term := Full(gh.tlog, s.log)],
        leader := gh.leader[s.term := s.p.id],
        quorum := gh.quorum[s.term := Granted(gh, s)],
        acks := gh.acks[(s.term, s.p.id) := s.log.LastIndex()])
  }

  /** A log that ends at or beyond entry k of term T holds it, if every leader in between does. */
  lemma ReachesHolds(tlog: Logs, l: Log, T: nat, k: nat, U: nat)
    requires TermLogs(tlog) && LogInv(tlog, l) && l.LastTerm() < U
    requires Own(tlog, T, k) && LaterHave(tlog, T, k, U - 1) && KeyReaches((l.LastTerm(), l.LastIndex()), T, k)
    ensures Agree(Full(tlog, l), tlog[T], k)
  {
    var n, L := l.LastIndex(), l.LastTerm();
    assert Own(tlog, L, n);
    if L > T {
      assert Agree(tlog[L], tlog[T], k);
      AgreeLess(tlog[L], tlog[T], k, k);
      assert TermLog(tlog, T, tlog[T]);
      assert n >= k;
    }
    assert Full(tlog, l)[..k] == tlog[L][..k];
  }

  lemma {:induction false} CountedVotes(voters: seq<nat>, votes: map<nat, bool>)
    requires NoDuplicates(voters)
    ensures |GrantedBy(voters, votes)| == CountVotes(voters, votes, true)
  {
    if voters != [] {
      var n := |voters| - 1;
      var x := voters[n];
      var rest := voters[..n];
      assert voters == rest + [x];
      CountedVotes(rest, votes);
      assert x !in GrantedBy(rest, votes);
      assert GrantedBy(voters, votes) == GrantedBy(rest, votes) + if x in votes && votes[x] then {x} else {};
    }
  }

  /** A candidate with a quorum is the first and only leader of its term. */
  lemma ElectedOnce(gh: Ghost, s: NodeState)
    requires GhostInv(gh) && NodeInv(gh, s)
    requires s.role == Candidate && HasQuorum(s, true)
    ensures s.term !in gh.tlog && s.term !in gh.leader
    ensures Majority(gh, Granted(gh, s))
  {
    hide TermLogs, VotesSafe, LeadersSafe, AckInv, CommitInv, SnapshotInv;
    CountedVotes(gh.voters, s.votes);
    assert Majority(gh, Granted(gh, s));
    if s.term in gh.tlog {
      assert Elected(gh, s.term);
      var v := MajoritiesMeet(gh, Granted(gh, s), gh.quorum[s.term]);
      assert false;
    }
  }

  lemma LeaderKeepsTermLogs(gh: Ghost, s: NodeState)
    requires TermLogs(gh.tlog) && LogInv(gh.tlog, s.log) && s.term !in gh.tlog && s.log.LastTerm() < s.term
    ensures TermLogs(WithLeader(gh, s).tlog)
  {
    hide LogInv, Full, TermLog;
    var tlog' := WithLeader(gh, s).tlog;
    NewTermLog(gh.tlog, s.log, s.term, tlog');
    forall T | T in tlog' ensures TermLog(tlog', T, tlog'[T]) {
      if T != s.term {
        TermLogKept(gh.tlog, tlog', T);
      }
    }
  }

  lemma TermLogKept(tlog: Logs, tlog': Logs, T: nat)
    requires T in tlog && TermLog(tlog, T, tlog[T]) && T in tlog' && tlog'[T] == tlog[T]
    requires forall U :: U in tlog ==> U in tlog' && tlog'[U] == tlog[U]
    ensures TermLog(tlog', T, tlog'[T])
  {
  }

  /** A new leader's log, all of earlier terms, starts its term's log. */
  lemma NewTermLog(tlog: Logs, l: Log, T: nat, tlog': Logs)
    requires TermLogs(tlog) && LogInv(tlog, l) && l.LastTerm() < T
    requires forall U :: U in tlog ==> U in tlog' && tlog'[U] == tlog[U]
    ensures TermLog(tlog', T, Full(tlog, l))
  {
    hide TermLogs;
    var f, L := Full(tlog, l), l.LastTerm();
    if f != [] {
      ATermLog(tlog, L);
      forall k | 0 <= k < |f| ensures f[k].term in tlog' && Agree(tlog'[f[k].term], f, k + 1) {
        assert f[k] == tlog[L][k];
        assert Agree(tlog[f[k].term], tlog[L], k + 1);
        assert f[..k + 1] == tlog[L][..k + 1];
      }
    }
  }

  lemma ATermLog(tlog: Logs, T: nat)
    requires TermLogs(tlog) && T in tlog
    ensures TermLog(tlog, T, tlog[T])
  {
  }

  lemma LeaderKeepsPayloads(gh: Ghost, s: NodeState)
    requires Payloads(gh.tlog, gh.payload) && LogInv(gh.tlog, s.log) && s.term !in gh.tlog
    ensures Payloads(WithLeader(gh, s).tlog, gh.payload)
  {
    var f := Full(gh.tlog, s.log);
    forall k | 0 <= k < |f| && f[k].typ == Normal ensures f[k].data in gh.payload {
      assert f[k] == gh.tlog[s.log.LastTerm()][k];
    }
  }

  lemma WithLeaderExt(gh: Ghost, s: NodeState)
    requires gh.leader.Keys == gh.tlog.Keys && LogInv(gh.tlog, s.log) && s.term !in gh.tlog
    requires forall T :: (T, s.p.id) in gh.acks ==> T in gh.tlog
    ensures ExtBy(s.p.id, gh, WithLeader(gh, s))
  {
    hide LogInv, Full;
    var gh' := WithLeader(gh, s);
    forall T | T in gh.tlog ensures Grows(gh.tlog[T], gh'.tlog[T], T) {
      assert gh'.tlog[T][..|gh.tlog[T]|] == gh.tlog[T];
    }
    assert (s.term, s.p.id) !in gh.acks;
  }

  lemma LeaderKeepsElections(gh: Ghost, s: NodeState)
    requires Elections(gh) && LogInv(gh.tlog, s.log) && CandidateInv(gh, s)
    requires s.role == Candidate && s.term !in gh.tlog && Majority(gh, Granted(gh, s))
    ensures Elections(WithLeader(gh, s))
  {
    hide LogInv, Full;
    var gh' := WithLeader(gh, s);
    forall T | T in gh'.tlog ensures Elected(gh', T) {
      if T != s.term {
        assert Elected(gh, T);
      }
    }
  }

  lemma LeaderKeepsVotesSafe(gh: Ghost, s: NodeState)
    requires Elections(gh) && Acknowledged(gh) && VotesSafe(gh) && PromiseInv(gh, s) && LogInv(gh.tlog, s.log)
    requires s.term !in gh.tlog && ExtBy(s.p.id, gh, WithLeader(gh, s))
    requires Elections(WithLeader(gh, s)) && Acknowledged(WithLeader(gh, s))
    ensures VotesSafe(WithLeader(gh, s))
  {
    hide Ext, OnlyBy, Own, LaterHave, KeyReaches, LogInv, Full;
    var gh' := WithLeader(gh, s);
    forall U: nat, i: nat, T: nat, k: nat |
      (U, i) in gh'.votes && (T, i) in gh'.acks && T < U && k <= gh'.acks[(T, i)] && Own(gh'.tlog, T, k) &&
      LaterHave(gh'.tlog, T, k, U)
      ensures KeyReaches(gh'.key[(U, gh'.votes[(U, i)])], T, k)
    {
      OldTerm(gh, s, U, i, T, k);
      OwnWithin(gh.tlog, T, k);
      LaterHaveBack(gh, gh', T, k, U);
    }
  }

  /** What a voter of a later term acknowledged is old. */
  lemma OldTerm(gh: Ghost, s: NodeState, U: nat, i: nat, T: nat, k: nat)
    requires Acknowledged(gh) && PromiseInv(gh, s) && LogInv(gh.tlog, s.log) && s.term !in gh.tlog
    requires (U, i) in gh.votes && (T, i) in WithLeader(gh, s).acks && T < U && Own(WithLeader(gh, s).tlog, T, k)
    ensures T != s.term && (T, i) in gh.acks && gh.acks[(T, i)] == WithLeader(gh, s).acks[(T, i)] && Own(gh.tlog, T, k)
  {
    hide LogInv, Full;
    assert T != s.term || i != s.p.id;
  }

  /** The leader of U holds what its electors acknowledged: the new one because of their votes, the others as before. */
  lemma LeaderKeepsLeadersSafe(gh: Ghost, s: NodeState)
    requires TermLogs(gh.tlog) && Elections(gh) && Acknowledged(gh) && VotesSafe(gh) && LeadersSafe(gh)
    requires PromiseInv(gh, s) && LogInv(gh.tlog, s.log) && CandidateInv(gh, s)
    requires s.role == Candidate && s.term !in gh.tlog && ExtBy(s.p.id, gh, WithLeader(gh, s))
    requires Elections(WithLeader(gh, s)) && Acknowledged(WithLeader(gh, s))
    ensures LeadersSafe(WithLeader(gh, s))
  {
    hide TermLogs, Ext, OnlyBy, Own, LogInv, Full, Agree, VotesSafe, KeyReaches, LaterHave, Elected, PromiseInv,
         CandidateInv;
    var gh' := WithLeader(gh, s);
    forall U: nat, i: nat, T: nat, k: nat |
      U in gh'.tlog && i in gh'.quorum[U] && (T, i) in gh'.acks && T < U && k <= gh'.acks[(T, i)] && Own(gh'.tlog, T, k)
      && LaterHave(gh'.tlog, T, k, U - 1)
      ensures Agree(gh'.tlog[U], gh'.tlog[T], k)
    {
      LeaderHolds(gh, s, U, i, T, k);
    }
  }

  lemma LeaderHolds(gh: Ghost, s: NodeState, U: nat, i: nat, T: nat, k: nat)
    requires TermLogs(gh.tlog) && Elections(gh) && Acknowledged(gh) && VotesSafe(gh) && LeadersSafe(gh)
    requires PromiseInv(gh, s) && LogInv(gh.tlog, s.log) && CandidateInv(gh, s)
    requires s.role == Candidate && s.term !in gh.tlog && ExtBy(s.p.id, gh, WithLeader(gh, s))
    requires Elections(WithLeader(gh, s)) && Acknowledged(WithLeader(gh, s))
    requires var gh' := WithLeader(gh, s);
      U in gh'.tlog && i in gh'.quorum[U] && (T, i) in gh'.acks && T < U && k <= gh'.acks[(T, i)] && Own(gh'.tlog, T, k)
      && LaterHave(gh'.tlog, T, k, U - 1)
    ensures Agree(WithLeader(gh, s).tlog[U], WithLeader(gh, s).tlog[T], k)
  {
    hide TermLogs, Ext, OnlyBy, Own, LogInv, Full, Agree, VotesSafe, LeadersSafe, KeyReaches, PromiseInv;
    var gh' := WithLeader(gh, s);
    assert Elected(gh', U);
    OldTerm(gh, s, U, i, T, k);
    OwnWithin(gh.tlog, T, k);
    LaterHaveBack(gh, gh', T, k, U - 1);
    if U == s.term {
      VotesSafeAt(gh, U, i, T, k);
      ReachesHolds(gh.tlog, s.log, T, k, U);
    } else {
      LeadersSafeAt(gh, U, i, T, k);
    }
  }

  lemma ElectStep(gh: Ghost, s: NodeState)
    requires GhostInv(gh) && NodeInv(gh, s)
    requires s.role == Candidate && HasQuorum(s, true)
    ensures s.term !in gh.tlog && s.term !in gh.leader
    ensures ExtBy(s.p.id, gh, WithLeader(gh, s))
    ensures GhostInv(WithLeader(gh, s)) && NodeInv(WithLeader(gh, s), AssumeLeadership(s))
  {
    hide HasQuorum, Ext, OnlyBy, TermLogs, VotesSafe, LeadersSafe, IsCommitted, Owes, LogInv, Full, Elected;
    ElectedOnce(gh, s);
    WithLeaderExt(gh, s);
    ElectKeepsGhost(gh, s);
    ElectKeepsNode(gh, s);
  }

  lemma ElectKeepsGhost(gh: Ghost, s: NodeState)
    requires GhostInv(gh) && NodeInv(gh, s) && s.role == Candidate
    requires s.term !in gh.tlog && Majority(gh, Granted(gh, s)) && ExtBy(s.p.id, gh, WithLeader(gh, s))
    ensures GhostInv(WithLeader(gh, s))
  {
    hide Ext, OnlyBy, TermLogs, VotesSafe, LeadersSafe, LogInv, Full, PromiseInv, AckInv, LeaderInv, CommitInv,
         SnapshotInv, Elected, Majority, Payloads;
    LeaderKeepsTermLogs(gh, s);
    LeaderKeepsPayloads(gh, s);
    LeaderKeepsElections(gh, s);
    LeaderKeepsVotesSafe(gh, s);
    LeaderKeepsLeadersSafe(gh, s);
  }

  lemma ElectKeepsNode(gh: Ghost, s: NodeState)
    requires NodeInv(gh, s) && Acknowledged(gh) && s.role == Candidate
    requires s.term !in gh.tlog && ExtBy(s.p.id, gh, WithLeader(gh, s))
    ensures NodeInv(WithLeader(gh, s), AssumeLeadership(s))
  {
    hide LogInv, Full, Owes, IsCommitted, Ext, OnlyBy;
    var gh' := WithLeader(gh, s);
    LogInvGrows(gh, gh', s.log);
    IsCommittedGrows(gh, gh', Full(gh.tlog, s.log)[..s.commitIndex], s.term, s.term);
    OwesAfterElection(gh, s);
  }

  lemma OwesAfterElection(gh: Ghost, s: NodeState)
    requires Acknowledged(gh) && LogInv(gh.tlog, s.log) && AckInv(gh, s) && s.term !in gh.tlog
    requires ExtBy(s.p.id, gh, WithLeader(gh, s))
    requires LogInv(WithLeader(gh, s).tlog, s.log) && Full(WithLeader(gh, s).tlog, s.log) == Full(gh.tlog, s.log)
    ensures AckInv(WithLeader(gh, s), s)
  {
    hide LogInv, Full, Ext, OnlyBy;
    var gh' := WithLeader(gh, s);
    forall T: nat, k: nat |
      (T, s.p.id) in gh'.acks && k <= gh'.acks[(T, s.p.id)] && Counts(gh'.tlog, T, k, s.term) &&
      LaterHave(gh'.tlog, T, k, s.term)
      ensures Agree(Full(gh'.tlog, s.log), gh'.tlog[T], k)
    {
      if T != s.term {
        assert Within(gh.tlog, T, k);
        LaterHaveBack(gh, gh', T, k, s.term);
      }
    }
  }

  // ---- A leader appends

  ghost function WithEntry(gh: Ghost, s: NodeState, e: Entry): Ghost
    requires s.term in gh.tlog
  {
    gh.(tlog := gh.tlog[s.term := gh.tlog[s.term] + [e]],
        acks := gh.acks[(s.term, s.p.id) := s.log.LastIndex() + 1])
  }

  lemma WithEntryExt(gh: Ghost, s: NodeState, e: Entry)
    requires LogInv(gh.tlog, s.log) && LeaderInv(gh, s) && s.role == Leader
    requires e.term == s.term
    ensures ExtBy(s.p.id, gh, WithEntry(gh, s, e))
  {
    hide LogInv, Full, ProgressInv;
    var gh' := WithEntry(gh, s, e);
    forall T | T in gh.tlog ensures Grows(gh.tlog[T], gh'.tlog[T], T) {
      assert gh'.tlog[T][..|gh.tlog[T]|] == gh.tlog[T];
    }
  }

  lemma EntryKeepsTermLogs(gh: Ghost, s: NodeState, e: Entry)
    requires TermLogs(gh.tlog) && s.term in gh.tlog
    requires e.term == s.term && e.index == |gh.tlog[s.term]| + 1 && e.typ != Conf
    ensures TermLogs(WithEntry(gh, s, e).tlog)
  {
    hide TermLog;
    var gh' := WithEntry(gh, s, e);
    forall T | T in gh'.tlog ensures TermLog(gh'.tlog, T, gh'.tlog[T]) {
      TermLogExtends(gh.tlog, s.term, e, T);
    }
  }

  lemma TermLogExtends(tlog: Logs, U: nat, e: Entry, T: nat)
    requires TermLogs(tlog) && U in tlog && T in tlog
    requires e.term == U && e.index == |tlog[U]| + 1 && e.typ != Conf
    ensures var tlog' := tlog[U := tlog[U] + [e]]; TermLog(tlog', T, tlog'[T])
  {
    hide TermLogs;
    var tlog' := tlog[U := tlog[U] + [e]];
    var l, l' := tlog[T], tlog'[T];
    ATermLog(tlog, T);
    forall k | 0 <= k < |l'| ensures l'[k].term in tlog' && Agree(tlog'[l'[k].term], l', k + 1) {
      if k < |l| {
        assert Agree(tlog[l[k].term], l, k + 1);
        assert l'[..k + 1] == l[..k + 1];
        var a, a' := tlog[l[k].term], tlog'[l[k].term];
        assert a'[..k + 1] == a[..k + 1];
      }
    }
  }

  /** New acknowledgements of a node in its current term touch no vote and no election of a later term. */
  ghost predicate OnlyNewAcks(gh: Ghost, gh': Ghost, s: NodeState) {
    && gh'.votes == gh.votes && gh'.key == gh.key && gh'.quorum == gh.quorum && gh'.leader == gh.leader
    && gh'.tlog.Keys == gh.tlog.Keys
    && gh'.voters == gh.voters
    && (forall T, i :: (T, i) in gh'.acks && (T, i) != (s.term, s.p.id) ==>
      (T, i) in gh.acks && gh'.acks[(T, i)] == gh.acks[(T, i)])
  }

  lemma AcksKeepElections(gh: Ghost, gh': Ghost, s: NodeState)
    requires Elections(gh) && OnlyNewAcks(gh, gh', s)
    ensures Elections(gh')
  {
    forall T | T in gh'.tlog ensures Elected(gh', T) {
      assert Elected(gh, T);
    }
  }

  lemma AcksKeepVotesSafe(gh: Ghost, gh': Ghost, s: NodeState)
    requires Elections(gh) && Acknowledged(gh) && VotesSafe(gh) && PromiseInv(gh, s)
    requires Ext(gh, gh') && Elections(gh') && Acknowledged(gh') && OnlyNewAcks(gh, gh', s)
    ensures VotesSafe(gh')
  {
    hide Ext, Own, LaterHave;
    forall U: nat, i: nat, T: nat, k: nat |
      (U, i) in gh'.votes && (T, i) in gh'.acks && T < U && k <= gh'.acks[(T, i)] && Own(gh'.tlog, T, k) &&
      LaterHave(gh'.tlog, T, k, U)
      ensures KeyReaches(gh'.key[(U, gh'.votes[(U, i)])], T, k)
    {
      OldOwn(gh, gh', s, U, i, T, k);
      OwnWithin(gh.tlog, T, k);
      LaterHaveBack(gh, gh', T, k, U);
    }
  }

  lemma AcksKeepLeadersSafe(gh: Ghost, gh': Ghost, s: NodeState)
    requires Elections(gh) && Acknowledged(gh) && LeadersSafe(gh) && PromiseInv(gh, s)
    requires Ext(gh, gh') && Elections(gh') && Acknowledged(gh') && OnlyNewAcks(gh, gh', s)
    ensures LeadersSafe(gh')
  {
    hide Own, LaterHave, Agree, Ext, Elected;
    forall U: nat, i: nat, T: nat, k: nat |
      U in gh'.tlog && i in gh'.quorum[U] && (T, i) in gh'.acks && T < U && k <= gh'.acks[(T, i)] && Own(gh'.tlog, T, k)
      && LaterHave(gh'.tlog, T, k, U - 1)
      ensures Agree(gh'.tlog[U], gh'.tlog[T], k)
    {
      LeaderAgrees(gh, gh', s, U, i, T, k);
    }
  }

  lemma LeaderAgrees(gh: Ghost, gh': Ghost, s: NodeState, U: nat, i: nat, T: nat, k: nat)
    requires Elections(gh) && Acknowledged(gh) && LeadersSafe(gh) && PromiseInv(gh, s)
    requires Ext(gh, gh') && OnlyNewAcks(gh, gh', s)
    requires U in gh'.tlog && i in gh'.quorum[U] && (T, i) in gh'.acks && T < U && k <= gh'.acks[(T, i)]
    requires Own(gh'.tlog, T, k) && LaterHave(gh'.tlog, T, k, U - 1)
    ensures U in gh'.tlog && T in gh'.tlog && Agree(gh'.tlog[U], gh'.tlog[T], k)
  {
    hide Own, LaterHave, Agree, Ext, LeadersSafe, Acknowledged;
    assert Elected(gh, U);
    OldOwn(gh, gh', s, U, i, T, k);
    OwnWithin(gh.tlog, T, k);
    LaterHaveBack(gh, gh', T, k, U - 1);
    LeadersSafeAt(gh, U, i, T, k);
    AgreeGrows(gh, gh', U, T, k);
  }

  lemma AgreeGrows(gh: Ghost, gh': Ghost, U: nat, T: nat, k: nat)
    requires Ext(gh, gh') && U in gh.tlog && T in gh.tlog && Agree(gh.tlog[U], gh.tlog[T], k)
    ensures U in gh'.tlog && T in gh'.tlog && Agree(gh'.tlog[U], gh'.tlog[T], k)
  {
    GrowsAgree(gh.tlog[U], gh'.tlog[U], U);
    GrowsAgree(gh.tlog[T], gh'.tlog[T], T);
    AgreeLess(gh'.tlog[U], gh.tlog[U], |gh.tlog[U]|, k);
    AgreeLess(gh'.tlog[T], gh.tlog[T], |gh.tlog[T]|, k);
  }

  lemma OldOwn(gh: Ghost, gh': Ghost, s: NodeState, U: nat, i: nat, T: nat, k: nat)
    requires Acknowledged(gh) && PromiseInv(gh, s) && Ext(gh, gh') && OnlyNewAcks(gh, gh', s)
    requires (U, i) in gh.votes && (T, i) in gh'.acks && T < U && k <= gh'.acks[(T, i)] && Own(gh'.tlog, T, k)
    ensures (T, i) in gh.acks && k <= gh.acks[(T, i)] && Own(gh.tlog, T, k)
  {
    GrowsAgree(gh.tlog[T], gh'.tlog[T], T);
  }

  lemma AcksKeepGhost(gh: Ghost, gh': Ghost, s: NodeState)
    requires GhostInv(gh) && PromiseInv(gh, s)
    requires Ext(gh, gh') && TermLogs(gh'.tlog) && Payloads(gh'.tlog, gh'.payload) && Acknowledged(gh')
    requires OnlyNewAcks(gh, gh', s)
    ensures GhostInv(gh')
  {
    hide TermLogs, Payloads, Ext, Acknowledged, VotesSafe, LeadersSafe, Elections, PromiseInv;
    AcksKeepElections(gh, gh', s);
    AcksKeepVotesSafe(gh, gh', s);
    AcksKeepLeadersSafe(gh, gh', s);
  }

  lemma EntryLog(gh: Ghost, s: NodeState, e: Entry)
    requires LogInv(gh.tlog, s.log) && LeaderInv(gh, s) && s.role == Leader && e.term == s.term
    ensures var tlog' := WithEntry(gh, s, e).tlog;
      LogInv(tlog', s.log.Append(e)) && Full(tlog', s.log.Append(e)) == tlog'[s.term] == Full(gh.tlog, s.log) + [e]
  {
    hide ProgressInv;
    var l', L' := s.log.Append(e), WithEntry(gh, s, e).tlog[s.term];
    assert L' == Full(gh.tlog, s.log) + [e];
    assert L'[..l'.LastIndex()] == L';
    assert l'.LastTerm() == s.term;
    assert L'[s.log.snapIndex..l'.LastIndex()] == Full(gh.tlog, s.log)[s.log.snapIndex..] + [e];
  }

  lemma OwesAfterEntry(gh: Ghost, s: NodeState, e: Entry)
    requires Acknowledged(gh) && LogInv(gh.tlog, s.log) && AckInv(gh, s) && LeaderInv(gh, s) && s.role == Leader
    requires e.term == s.term && ExtBy(s.p.id, gh, WithEntry(gh, s, e))
    requires LogInv(WithEntry(gh, s, e).tlog, s.log.Append(e))
    requires Full(WithEntry(gh, s, e).tlog, s.log.Append(e)) == WithEntry(gh, s, e).tlog[s.term] ==
        Full(gh.tlog, s.log) + [e]
    ensures AckInv(WithEntry(gh, s, e), s.(log := s.log.Append(e)))
  {
    hide LogInv, Full, Ext, OnlyBy, ProgressInv;
    var gh' := WithEntry(gh, s, e);
    forall T: nat, k: nat |
      (T, s.p.id) in gh'.acks && k <= gh'.acks[(T, s.p.id)] && Counts(gh'.tlog, T, k, s.term) &&
      LaterHave(gh'.tlog, T, k, s.term)
      ensures Agree(gh'.tlog[s.term], gh'.tlog[T], k)
    {
      if T != s.term {
        assert Within(gh.tlog, T, k);
        LaterHaveBack(gh, gh', T, k, s.term);
        assert Agree(Full(gh.tlog, s.log), gh.tlog[T], k);
        assert gh'.tlog[s.term][..k] == Full(gh.tlog, s.log)[..k];
      }
    }
  }

  lemma EntryStep(gh: Ghost, s: NodeState, e: Entry)
    requires GhostInv(gh) && NodeInv(gh, s) && s.role == Leader
    requires e.term == s.term && e.index == s.log.LastIndex() + 1 && e.typ != Conf
    requires e.typ == Normal ==> e.data in gh.payload
    ensures ExtBy(s.p.id, gh, WithEntry(gh, s, e))
    ensures GhostInv(WithEntry(gh, s, e)) && NodeInv(WithEntry(gh, s, e), s.(log := s.log.Append(e)))
  {
    hide TermLogs, VotesSafe, LeadersSafe, IsCommitted, Owes, LogInv, Full, Ext, OnlyBy, Elected, ProgressInv,
         SnapshotInv, Acknowledged;
    WithEntryExt(gh, s, e);
    EntryKeepsTermLogs(gh, s, e);
    EntryKeepsAcknowledged(gh, s, e);
    EntryKeepsPayloads(gh, s, e);
    AcksKeepGhost(gh, WithEntry(gh, s, e), s);
    EntryKeepsNode(gh, s, e);
  }

  lemma EntryKeepsPayloads(gh: Ghost, s: NodeState, e: Entry)
    requires Payloads(gh.tlog, gh.payload) && s.term in gh.tlog && (e.typ == Normal ==> e.data in gh.payload)
    ensures Payloads(WithEntry(gh, s, e).tlog, gh.payload)
  {
  }

  lemma EntryKeepsAcknowledged(gh: Ghost, s: NodeState, e: Entry)
    requires Acknowledged(gh) && LogInv(gh.tlog, s.log) && LeaderInv(gh, s) && s.role == Leader
    ensures Acknowledged(WithEntry(gh, s, e))
  {
    hide LogInv, Full, ProgressInv;
  }

  lemma EntryKeepsNode(gh: Ghost, s: NodeState, e: Entry)
    requires NodeInv(gh, s) && Acknowledged(gh) && s.role == Leader
    requires e.term == s.term && ExtBy(s.p.id, gh, WithEntry(gh, s, e))
    ensures NodeInv(WithEntry(gh, s, e), s.(log := s.log.Append(e)))
  {
    hide LogInv, Full, Owes, IsCommitted, Ext, OnlyBy, Acknowledged;
    var gh' := WithEntry(gh, s, e);
    EntryLog(gh, s, e);
    OwesAfterEntry(gh, s, e);
    assert gh'.tlog[s.term][..s.commitIndex] == Full(gh.tlog, s.log)[..s.commitIndex];
    IsCommittedGrows(gh, gh', Full(gh.tlog, s.log)[..s.commitIndex], s.term, s.term);
    assert s.log.snapIndex > 0 ==> gh'.tlog[s.term][..s.log.snapIndex] == Full(gh.tlog, s.log)[..s.log.snapIndex];
  }

  // ---- A follower acknowledges

  ghost function WithAck(gh: Ghost, s: NodeState, k: nat): Ghost {
    var x := (s.term, s.p.id);
    if x in gh.acks && k <= gh.acks[x] then gh else gh.(acks := gh.acks[x := k])
  }

  lemma AckExt(gh: Ghost, s: NodeState, k: nat)
    requires s.term in gh.tlog && Acknowledged(gh) && k <= |gh.tlog[s.term]|
    ensures ExtBy(s.p.id, gh, WithAck(gh, s, k)) && Acknowledged(WithAck(gh, s, k))
  {
    hide Grows;
    forall T | T in gh.tlog ensures Grows(gh.tlog[T], gh.tlog[T], T) {
      GrowsRefl(gh.tlog[T], T);
    }
  }

  lemma GrowsRefl(a: seq<Entry>, T: nat)
    ensures Grows(a, a, T)
  {
    assert a[..|a|] == a;
  }

  lemma AckOwes(gh: Ghost, s: NodeState, k: nat)
    requires LogInv(gh.tlog, s.log) && AckInv(gh, s)
    requires s.term in gh.tlog && Agree(Full(gh.tlog, s.log), gh.tlog[s.term], k)
    ensures AckInv(WithAck(gh, s, k), s)
  {
    hide LogInv, Full, Agree;
    var gh' := WithAck(gh, s, k);
    forall T: nat, j: nat |
      (T, s.p.id) in gh'.acks && j <= gh'.acks[(T, s.p.id)] && Counts(gh'.tlog, T, j, s.term) &&
      LaterHave(gh'.tlog, T, j, s.term)
      ensures Agree(Full(gh.tlog, s.log), gh'.tlog[T], j)
    {
      if T == s.term && j <= k {
        AgreeLess(Full(gh.tlog, s.log), gh.tlog[T], k, j);
      }
    }
  }

  /** A node may tell its term's leader how far it agrees with it. */
  lemma AckStep(gh: Ghost, s: NodeState, k: nat)
    requires GhostInv(gh) && NodeInv(gh, s) && s.role != Leader
    requires s.term in gh.tlog && Agree(Full(gh.tlog, s.log), gh.tlog[s.term], k)
    ensures ExtBy(s.p.id, gh, WithAck(gh, s, k))
    ensures GhostInv(WithAck(gh, s, k)) && NodeInv(WithAck(gh, s, k), s)
    ensures AckedTo(WithAck(gh, s, k), s.term, s.p.id, k)
  {
    hide GhostInv, NodeInv, LogInv, Full, Agree, Ext, OnlyBy;
    AckParts(gh, s);
    AgreeBounds(Full(gh.tlog, s.log), gh.tlog[s.term], k);
    AckExt(gh, s, k);
    if WithAck(gh, s, k) != gh {
      AcksKeepGhost(gh, WithAck(gh, s, k), s);
      AckOwes(gh, s, k);
      AckKeepsNode(gh, s, k);
    }
  }

  lemma AckParts(gh: Ghost, s: NodeState)
    requires GhostInv(gh) && NodeInv(gh, s)
    ensures TermLogs(gh.tlog) && Payloads(gh.tlog, gh.payload) && Acknowledged(gh)
    ensures PromiseInv(gh, s) && LogInv(gh.tlog, s.log) && AckInv(gh, s)
  {
    hide TermLogs, Payloads, Acknowledged, LogInv, Owes, IsCommitted, Full;
  }

  /** The node's own acknowledgement in its term touches nothing else it has promised. */
  lemma AckKeepsNode(gh: Ghost, s: NodeState, k: nat)
    requires NodeInv(gh, s) && s.role != Leader && ExtBy(s.p.id, gh, WithAck(gh, s, k))
    requires LogInv(gh.tlog, s.log) && AckInv(WithAck(gh, s, k), s)
    ensures NodeInv(WithAck(gh, s, k), s)
  {
    hide IsCommitted, LogInv, Full, Ext, OnlyBy, Owes, ProgressInv;
    IsCommittedGrows(gh, WithAck(gh, s, k), Full(gh.tlog, s.log)[..s.commitIndex], s.term, s.term);
  }
}
