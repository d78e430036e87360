/** Elections, Step by Step: when a campaign starts, when a vote is granted, and what a majority of answers does. */
module Voting {
  import opened RaftTypes
  import opened LogSpec
  import opened NodeSpec
  import opened Ghosts
  import opened FastBackup
  import opened Sending
  import SafetyLogs

  // ---- When a vote is granted

  /** A log that ends with this term and index is at or above l: the later last term wins, then the greater length. */
  predicate Reaches(term: nat, index: nat, l: Log) {
    term > l.LastTerm() || (term == l.LastTerm() && index >= l.LastIndex())
  }

  /** The node takes its leader to be alive, and the request does not override that. */
  predicate Refused(s: NodeState, m: Message)
    requires m.Vote?
  {
    !m.force && s.leaderID != NONE && s.clock.electionElapsed < s.p.et
  }

  /** The request brings the node to a later term. */
  predicate Raises(s: NodeState, m: Message)
    requires m.Vote?
  {
    m.term > s.term && !Refused(s, m)
  }

  /** The vote of the request's term is free, or already the sender's. */
  predicate VoteFree(s: NodeState, m: Message)
    requires m.Vote?
  {
    Raises(s, m) || (m.term == s.term && s.votedFor in {NONE, m.from})
  }

  function HardOrder(s: NodeState): Option<Persist> {
    Some(Persist(Some(HardState(s.term, s.votedFor)), [], None, false))
  }

  /**
   * One Step on any request for a vote answers it: granted if and only if the vote of that term is free or already the
   * sender's, and the sender's log is at or above the node's own. A vote granted is in the order for the disk.
   */
  lemma VoteAnswered(s: NodeState, m: Message)
    requires m.Vote? && !m.preVote && m.to == s.p.id
    ensures var t := Step(s, Receive(m));
      var granted := VoteFree(s, m) && Reaches(m.lastLogTerm, m.lastLogIndex, s.log);
      && t.term == (if Raises(s, m) then m.term else s.term)
      && t.out.messages == [VoteResp(s.p.id, m.from, t.term, false, false, granted)]
      && t.votedFor == (if granted then m.from else if Raises(s, m) then NONE else s.votedFor)
      && t.out.persist == (if granted || Raises(s, m) then HardOrder(t) else None)
      && t.role == (if Raises(s, m) then Follower else s.role)
      && (granted ==> t.clock.electionElapsed == 0)
      && t.log == s.log && t.conf == s.conf && t.commitIndex == s.commitIndex && t.panicked == s.panicked
  {
    hide Handle, HandleVote, TimeoutOf;
    var b := Begin(s);
    if Raises(s, m) {
      VoteHandled(BecomeFollower(b, m.term, NONE), m);
    } else if m.term == s.term {
      VoteHandled(b, m);
    }
    Received(b, m);
  }

  /** What becomes of a request for a vote: handled, in the request's term, or refused at once. */
  lemma Received(s: NodeState, m: Message)
    requires m.Vote? && !m.preVote && m.to == s.p.id
    ensures Handle(s, Receive(m)) ==
      if Raises(s, m) then HandleVote(BecomeFollower(s, m.term, NONE), m)
      else if m.term == s.term then HandleVote(s, m)
      else Send(s, VoteResp(s.p.id, m.from, s.term, false, false, false))
  {
    hide HandleVote, TimeoutOf;
  }

  lemma VoteHandled(s: NodeState, m: Message)
    requires m.Vote? && !m.preVote && m.term == s.term
    ensures var granted := s.votedFor in {NONE, m.from} && Reaches(m.lastLogTerm, m.lastLogIndex, s.log);
      HandleVote(s, m) == Send(
        if granted then ResetElection(s.(votedFor := m.from, dirty := s.dirty.(hs := true))) else s,
        VoteResp(s.p.id, m.from, s.term, false, false, granted))
  {
  }

  /** A Pre-Vote is answered by the same comparison, and neither costs the vote nor moves the term. */
  lemma PreVoteAnswered(s: NodeState, m: Message)
    requires m.Vote? && m.preVote && m.to == s.p.id
    ensures var t := Step(s, Receive(m));
      var granted := Raises(s, m) && Reaches(m.lastLogTerm, m.lastLogIndex, s.log);
      && t.out == EMPTY_OUTPUT.(messages :=
           [VoteResp(s.p.id, m.from, if granted then m.term else s.term, true, false, granted)])
      && t == s.(out := t.out, dirty := CLEAN)
  {
  }

  // ---- Who has answered what

  /** The voters known to have granted the vote, or to have refused it. */
  ghost function Backers(s: NodeState, granted: bool): set<nat> {
    set v | v in s.conf.config.voters && v in s.votes && s.votes[v] == granted
  }

  ghost predicate MajorityOf(s: NodeState, q: set<nat>) {
    2 * |q| > |s.conf.config.voters|
  }

  ghost function Among(voters: seq<nat>, votes: map<nat, bool>, granted: bool): set<nat> {
    set v | v in voters && v in votes && votes[v] == granted
  }

  lemma {:induction false} CountsEach(voters: seq<nat>, votes: map<nat, bool>, granted: bool)
    requires NoDuplicates(voters)
    ensures CountVotes(voters, votes, granted) == |Among(voters, votes, granted)|
  {
    if voters != [] {
      var n := |voters| - 1;
      var x, rest := voters[n], voters[..n];
      assert voters == rest + [x];
      CountsEach(rest, votes, granted);
      assert x !in rest;
      assert Among(voters, votes, granted) ==
        Among(rest, votes, granted) + if x in votes && votes[x] == granted then {x} else {};
    }
  }

  lemma QuorumIsMajority(s: NodeState, granted: bool)
    requires NoDuplicates(s.conf.config.voters)
    ensures HasQuorum(s, granted) <==> MajorityOf(s, Backers(s, granted))
  {
    CountsEach(s.conf.config.voters, s.votes, granted);
    assert Backers(s, granted) == Among(s.conf.config.voters, s.votes, granted);
  }

  // ---- Winning

  /** The node leads its term: its first entry is appended, and every other voter is sent what comes next for it. */
  ghost predicate Reigns(s: NodeState, t: NodeState) {
    && t.role == Leader && t.term == s.term && t.votedFor == s.votedFor && t.leaderID == s.p.id
    && t.log == s.log.Append(Entry(s.log.LastIndex() + 1, s.term, Noop, []))
    && t.p == s.p && t.conf == s.conf && t.panicked == s.panicked
    && t.transferee == NONE && t.clock.heartbeatElapsed == 0 && t.clock.quorumElapsed == 0
    && (forall v :: v in t.prs <==> v in s.conf.config.voters && v != s.p.id)
    && forall v :: v in t.prs ==>
         && t.prs[v] == Progress(s.log.LastIndex() + 1, 0, false, false)
         && App(s.p.id, v, s.term, s.log.LastIndex(), s.log.LastTerm(), [Entry(s.log.LastIndex() + 1, s.term, Noop, [])],
                t.commitIndex) in t.out.messages
  }

  lemma CountSome(a: seq<nat>, x: nat)
    requires CountAtLeast(a, x) > 0
    ensures exists k :: 0 <= k < |a| && a[k] >= x
  {
  }

  /** A new leader has heard of nobody: it commits only when it is the only voter, and then it is one. */
  lemma FreshMedian(s: NodeState)
    requires MedianMatch(s).Some? && MedianMatch(s).value > 0 && forall v :: v in s.prs ==> s.prs[v].matched == 0
    ensures Promotable(s)
  {
    var n := MedianMatch(s).value;
    var a := NodeSpec.Matches(s.conf.config.voters, s.p.id, s.log.LastIndex(), s.prs);
    SafetyLogs.MedianIsQuorumValue(a, s.conf.config.Quorum());
    CountSome(a, n);
    var k :| 0 <= k < |a| && a[k] >= n;
    assert a[k] == MatchOf(s.conf.config.voters[k], s.p.id, s.log.LastIndex(), s.prs);
  }

  /** The leader as it stands before it has counted or sent anything. */
  ghost predicate Fresh(s: NodeState, a: NodeState) {
    && a.commitIndex == s.commitIndex
    && a.role == Leader && a.term == s.term && a.votedFor == s.votedFor && a.leaderID == s.p.id
    && a.log == s.log.Append(Entry(s.log.LastIndex() + 1, s.term, Noop, []))
    && a.p == s.p && a.conf == s.conf && a.panicked == s.panicked && a.learner == s.learner
    && a.transferee == NONE && a.clock.heartbeatElapsed == 0 && a.clock.quorumElapsed == 0
    && (forall v :: v in a.prs <==> v in s.conf.config.voters && v != s.p.id)
    && forall v :: v in a.prs ==> a.prs[v] == Progress(s.log.LastIndex() + 1, 0, false, false)
  }

  lemma FreshLeader(s: NodeState)
    ensures var a := AppendEntry(AssumeLeadership(s), Noop, []);
      Fresh(s, a) && CanSend(a) && (CanCommit(a) ==> Promotable(a))
  {
    hide MedianMatch;
    var a := AppendEntry(AssumeLeadership(s), Noop, []);
    if MedianMatch(a).Some? && MedianMatch(a).value > 0 {
      FreshMedian(a);
    }
  }

  /** What comes next for a follower of a new leader is the leader's first entry. */
  lemma FirstMessage(s: NodeState, a: NodeState, t: NodeState, v: nat)
    requires Fresh(s, a) && Advances(a, t) && v in a.prs && Continued(t, v) && t.prs[v].next == s.log.LastIndex() + 1
    ensures App(s.p.id, v, s.term, s.log.LastIndex(), s.log.LastTerm(), [Entry(s.log.LastIndex() + 1, s.term, Noop, [])],
                t.commitIndex) in t.out.messages
  {
    var first := Entry(s.log.LastIndex() + 1, s.term, Noop, []);
    var l := t.log;
    assert l.Term(s.log.LastIndex()) == Some(s.log.LastTerm());
    assert l.Slice(l.LastIndex(), l.LastIndex() + 1, t.p.maxBatch) == [first];
  }

  lemma Unmarked(s: NodeState, a: NodeState, u: NodeState, v: nat)
    requires Fresh(s, a) && Advances(a, u) && v in a.prs
    ensures v in u.prs && u.prs[v] == Progress(s.log.LastIndex() + 1, 0, false, false)
  {
  }

  lemma ReignFrame(s: NodeState, a: NodeState, u: NodeState)
    requires Fresh(s, a) && Advances(a, u)
    ensures u.role == Leader && u.term == s.term && u.votedFor == s.votedFor && u.leaderID == s.p.id
    ensures u.log == s.log.Append(Entry(s.log.LastIndex() + 1, s.term, Noop, []))
    ensures u.p == s.p && u.conf == s.conf && (s.panicked ==> u.panicked) && u.prs.Keys == a.prs.Keys
    ensures forall v :: v in u.prs <==> v in s.conf.config.voters && v != s.p.id
    ensures u.transferee == NONE && u.clock.heartbeatElapsed == 0 && u.clock.quorumElapsed == 0
  {
  }

  /** Winning an election: the reign begins. */
  lemma BeginsReign(s: NodeState)
    requires s.conf.config.voters != [] && !s.panicked
    ensures Reigns(s, BecomeLeader(s))
  {
    hide MaybeCommit, BroadcastAppend, AppendEntry, Advances, CanSend, Continued, CanCommit, Reigns, Fresh;
    var a := AppendEntry(AssumeLeadership(s), Noop, []);
    var u := BroadcastAppend(MaybeCommit(a));
    FreshLeader(s);
    FreshFrame(s, a);
    CountsAndBroadcasts(a);
    ReignFrom(s, a, u);
  }

  lemma FreshFrame(s: NodeState, a: NodeState)
    requires Fresh(s, a)
    ensures a.role == Leader && a.conf == s.conf && a.panicked == s.panicked
    ensures forall v :: v in a.prs ==> v in ReplicationTargets(a)
  {
  }

  lemma ReignFrom(s: NodeState, a: NodeState, u: NodeState)
    requires Fresh(s, a) && Advances(a, u) && !u.panicked && !s.panicked
    requires forall v :: v in a.prs ==> Continued(u, v)
    ensures Reigns(s, u)
  {
    hide Fresh, Advances, Continued;
    ReignFrame(s, a, u);
    forall v | v in u.prs
      ensures u.prs[v] == Progress(s.log.LastIndex() + 1, 0, false, false)
      ensures App(s.p.id, v, s.term, s.log.LastIndex(), s.log.LastTerm(),
                  [Entry(s.log.LastIndex() + 1, s.term, Noop, [])], u.commitIndex) in u.out.messages
    {
      Unmarked(s, a, u, v);
      FirstMessage(s, a, u, v);
    }
  }

  /** The candidate with this answer counted. */
  function Counted(s: NodeState, m: Message): NodeState
    requires m.VoteResp?
  {
    s.(votes := s.votes[m.from := m.granted], out := EMPTY_OUTPUT, dirty := CLEAN)
  }

  /**
   * A candidate that takes an answer of its term leads if and only if a majority of the voters has now granted the vote,
   * and gives up if and only if a majority has refused it; otherwise it just remembers the answer.
   */
  lemma AnswerCounted(s: NodeState, m: Message)
    requires s.role == Candidate && NoDuplicates(s.conf.config.voters) && !s.panicked
    requires m.VoteResp? && !m.preVote && m.to == s.p.id && m.term == s.term
    ensures var u, t := Counted(s, m), Step(s, Receive(m));
      if MajorityOf(u, Backers(u, true)) then Reigns(u, t)
      else if MajorityOf(u, Backers(u, false)) then
        t.role == Follower && t.term == s.term && t.votedFor == s.votedFor && t.out == EMPTY_OUTPUT && t.log == s.log
      else t == u
  {
    hide Handle, HasQuorum, BecomeLeader, MajorityOf, Backers, TimeoutOf, Reigns;
    var u := Counted(s, m);
    QuorumIsMajority(u, true);
    QuorumIsMajority(u, false);
    AnswerTaken(s, m);
    Handled(s, Receive(m));
    if MajorityOf(u, Backers(u, true)) {
      SomeVoter(u, true);
      BeginsReign(u);
      ReignsStill(u, BecomeLeader(u), Step(s, Receive(m)));
    }
  }

  lemma SomeVoter(s: NodeState, granted: bool)
    requires MajorityOf(s, Backers(s, granted))
    ensures s.conf.config.voters != []
  {
    var v :| v in Backers(s, granted);
  }

  lemma ReignsStill(s: NodeState, t: NodeState, t': NodeState)
    requires Reigns(s, t) && t' == t.(out := t'.out) && t'.out.messages == t.out.messages
    ensures Reigns(s, t')
  {
  }

  lemma AnswerTaken(s: NodeState, m: Message)
    requires s.role == Candidate && m.VoteResp? && !m.preVote && m.to == s.p.id && m.term == s.term
    ensures Handle(Begin(s), Receive(m)) ==
      var u := Counted(s, m);
      if HasQuorum(u, true) then BecomeLeader(u)
      else if HasQuorum(u, false) then BecomeFollower(u, u.term, NONE)
      else u
  {
    hide HasQuorum, BecomeLeader, TimeoutOf;
    assert CastVote(Begin(s), m.from, m.granted) == Counted(s, m);
  }

  // ---- A majority that grants elects

  function Grant(from: nat, to: nat, term: nat): Message {
    VoteResp(from, to, term, false, false, true)
  }

  /** The candidate takes one granting answer after the other, one Step each. */
  function Granting(s: NodeState, from: seq<nat>): NodeState {
    if from == [] then s
    else
      var n := |from| - 1;
      Step(Granting(s, from[..n]), Receive(Grant(from[n], s.p.id, s.term)))
  }

  ghost function VotersIn(s: NodeState, from: seq<nat>): set<nat> {
    set v | v in from && v in s.conf.config.voters
  }

  /** The candidate after n granting answers: it leads, or remembers them all. */
  ghost predicate Tallied(s: NodeState, t: NodeState, from: seq<nat>) {
    && t.p == s.p && t.term == s.term && !t.panicked
    && (t.role == Leader <==> MajorityOf(s, Backers(s, true) + VotersIn(s, from)))
    && (t.role != Leader ==>
      && t.role == Candidate && t.conf == s.conf
      && t.votes.Keys == s.votes.Keys + (set v | v in from)
      && forall v :: v in t.votes ==> t.votes[v] == (v in from || s.votes[v]))
  }

  lemma SubsetFits(a: set<nat>, b: set<nat>)
    requires a <= b
    ensures |a| <= |b|
  {
    assert b == a + (b - a);
  }

  /** A leader takes no notice of an answer. */
  lemma LeaderIgnores(t: NodeState, m: Message)
    requires t.role == Leader && m.VoteResp? && !m.preVote && m.to == t.p.id && m.term == t.term
    ensures Step(t, Receive(m)) == t.(out := EMPTY_OUTPUT, dirty := CLEAN)
  {
  }

  lemma OneMore(s: NodeState, t: NodeState, from: seq<nat>)
    requires NoDuplicates(s.conf.config.voters) && !MajorityOf(s, Backers(s, false)) && from != []
    requires Tallied(s, t, from[..|from| - 1]) && (t.role == Leader || !MajorityOf(t, Backers(t, false)))
    ensures Tallied(s, Step(t, Receive(Grant(from[|from| - 1], s.p.id, s.term))), from)
  {
    hide Step, Reigns, MajorityOf, Backers, VotersIn;
    var n := |from| - 1;
    var m := Grant(from[n], s.p.id, s.term);
    if t.role == Leader {
      LeaderIgnores(t, m);
      StaysMajority(s, from);
    } else {
      AnswerCounted(t, m);
      OneMoreBacks(s, t, from);
      ReignsFrame(Counted(t, m), Step(t, Receive(m)));
      TallyGrows(s, t, from);
    }
  }

  lemma StaysMajority(s: NodeState, from: seq<nat>)
    requires from != [] && MajorityOf(s, Backers(s, true) + VotersIn(s, from[..|from| - 1]))
    ensures MajorityOf(s, Backers(s, true) + VotersIn(s, from))
  {
    SubsetFits(Backers(s, true) + VotersIn(s, from[..|from| - 1]), Backers(s, true) + VotersIn(s, from));
  }

  lemma TallyGrows(s: NodeState, t: NodeState, from: seq<nat>)
    requires from != [] && Tallied(s, t, from[..|from| - 1]) && t.role != Leader
    ensures var u := Counted(t, Grant(from[|from| - 1], s.p.id, s.term));
      && u.votes.Keys == s.votes.Keys + (set v | v in from)
      && forall v :: v in u.votes ==> u.votes[v] == (v in from || s.votes[v])
  {
    var n := |from| - 1;
    assert from == from[..n] + [from[n]];
  }

  lemma OneMoreBacks(s: NodeState, t: NodeState, from: seq<nat>)
    requires from != [] && Tallied(s, t, from[..|from| - 1]) && t.role != Leader && !MajorityOf(s, Backers(s, false))
    ensures var u := Counted(t, Grant(from[|from| - 1], s.p.id, s.term));
      && (MajorityOf(u, Backers(u, true)) <==> MajorityOf(s, Backers(s, true) + VotersIn(s, from)))
      && !MajorityOf(u, Backers(u, false))
  {
    TallyGrows(s, t, from);
    var u := Counted(t, Grant(from[|from| - 1], s.p.id, s.term));
    SameConf(s, t, from);
    hide Tallied, Counted;
    VotesAndGrants(s, u, from);
    SubsetFits(Backers(u, false), Backers(s, false));
  }

  lemma SameConf(s: NodeState, t: NodeState, from: seq<nat>)
    requires from != [] && Tallied(s, t, from[..|from| - 1]) && t.role != Leader
    ensures Counted(t, Grant(from[|from| - 1], s.p.id, s.term)).conf == s.conf
  {
  }

  lemma VotesAndGrants(s: NodeState, u: NodeState, from: seq<nat>)
    requires u.conf == s.conf && u.votes.Keys == s.votes.Keys + (set v | v in from)
    requires forall v :: v in u.votes ==> u.votes[v] == (v in from || s.votes[v])
    ensures Backers(u, true) == Backers(s, true) + VotersIn(s, from)
    ensures Backers(u, false) <= Backers(s, false)
  {
  }

  lemma ReignsFrame(s: NodeState, t: NodeState)
    ensures Reigns(s, t) ==> t.role == Leader && t.term == s.term && t.p == s.p && t.panicked == s.panicked
  {
  }

  lemma FewRefuse(s: NodeState, t: NodeState, from: seq<nat>)
    requires Tallied(s, t, from) && t.role != Leader && !MajorityOf(s, Backers(s, false))
    ensures !MajorityOf(t, Backers(t, false))
  {
    SubsetFits(Backers(t, false), Backers(s, false));
  }

  /** Whatever order they come in: the candidate leads if and only if those that grant make a majority. */
  lemma {:induction false} MajorityElects(s: NodeState, from: seq<nat>)
    requires s.role == Candidate && NoDuplicates(s.conf.config.voters) && !s.panicked
    requires !MajorityOf(s, Backers(s, true)) && !MajorityOf(s, Backers(s, false))
    ensures Tallied(s, Granting(s, from), from)
  {
    hide Step;
    if from == [] {
      assert Backers(s, true) + VotersIn(s, from) == Backers(s, true);
    } else {
      var n := |from| - 1;
      var t := Granting(s, from[..n]);
      MajorityElects(s, from[..n]);
      if t.role != Leader {
        FewRefuse(s, t, from[..n]);
      }
      OneMore(s, t, from);
    }
  }

  // ---- Campaigns

  function Ask(s: NodeState, v: nat, term: nat, pre: bool, force: bool): Message {
    Vote(s.p.id, v, term, pre, force, s.log.LastIndex(), s.log.LastTerm())
  }

  ghost function Sent(t: NodeState): set<Message> {
    set m | m in t.out.messages
  }

  /** Every voter but the node itself is asked, under the end of the node's log. */
  ghost predicate AsksAll(s: NodeState, t: NodeState, voters: seq<nat>, term: nat, pre: bool, force: bool) {
    Sent(t) == set v | v in voters && v != s.p.id :: Ask(s, v, term, pre, force)
  }

  lemma {:induction false} Requests(s: NodeState, voters: seq<nat>, term: nat, pre: bool, force: bool)
    requires s.out.messages == []
    ensures var t := RequestVotes(s, voters, term, pre, force);
      t == s.(out := s.out.(messages := t.out.messages)) && AsksAll(s, t, voters, term, pre, force)
  {
    if voters != [] {
      var n := |voters| - 1;
      var v, rest := voters[n], voters[..n];
      Requests(s, rest, term, pre, force);
      assert voters == rest + [v];
      var r, t := RequestVotes(s, rest, term, pre, force), RequestVotes(s, voters, term, pre, force);
      if v != s.p.id {
        assert t.out.messages == r.out.messages + [Ask(s, v, term, pre, force)];
        assert Sent(t) == Sent(r) + {Ask(s, v, term, pre, force)};
      }
    }
  }

  /** The node's own vote is no majority among several voters. */
  lemma AloneIsFew(s: NodeState)
    requires NoDuplicates(s.conf.config.voters) && |s.conf.config.voters| > 1 && s.votes == map[s.p.id := true]
    ensures !HasQuorum(s, true)
  {
    QuorumIsMajority(s, true);
    SubsetFits(Backers(s, true), {s.p.id});
  }

  /** A candidate of the next term that has voted for itself and asks all others. */
  ghost predicate Stands(s: NodeState, t: NodeState, force: bool) {
    && t.role == Candidate && t.term == s.term + 1 && t.votedFor == s.p.id && t.votes == map[s.p.id := true]
    && t.leaderID == NONE && t.clock.electionElapsed == 0 && t.p.et <= t.clock.randTimeout < 2 * t.p.et
    && t.log == s.log && t.conf == s.conf && t.p == s.p && t.commitIndex == s.commitIndex && t.panicked == s.panicked
    && AsksAll(s, t, s.conf.config.voters, t.term, false, force)
  }

  /** A node that asks whether it would be elected: its term and vote are as they were. */
  ghost predicate Probes(s: NodeState, t: NodeState) {
    && t.role == PreCandidate && t.term == s.term && t.votedFor == s.votedFor && t.votes == map[s.p.id := true]
    && t.leaderID == NONE && t.clock.electionElapsed == 0 && t.p.et <= t.clock.randTimeout < 2 * t.p.et
    && t.log == s.log && t.conf == s.conf && t.p == s.p && t.commitIndex == s.commitIndex && t.panicked == s.panicked
    && AsksAll(s, t, s.conf.config.voters, s.term + 1, true, false)
  }

  /** The configuration has the node itself and others. */
  ghost predicate OneOfMany(s: NodeState) {
    s.p.id in s.conf.config.voters && |s.conf.config.voters| > 1 && NoDuplicates(s.conf.config.voters)
  }

  lemma CampaignStands(s: NodeState, force: bool)
    requires OneOfMany(s) && s.out.messages == []
    ensures var t := Campaign(s, force);
      Stands(s, t, force) && t == s.(role := t.role, term := t.term, votedFor := t.votedFor, votes := t.votes,
        leaderID := t.leaderID, clock := t.clock, out := t.out, dirty := s.dirty.(hs := true))
  {
    hide RequestVotes, HasQuorum, TimeoutOf;
    var c := CastVote(BecomeCandidate(s), s.p.id, true);
    TimeoutRange(s.p, s.clock.drawn);
    AloneIsFew(c);
    Requests(c, c.conf.config.voters, c.term, false, force);
    SameAsks(s, c, Campaign(s, force), c.term, false, force);
  }

  lemma SameAsks(s: NodeState, c: NodeState, t: NodeState, term: nat, pre: bool, force: bool)
    requires c.p == s.p && c.log == s.log && AsksAll(c, t, s.conf.config.voters, term, pre, force)
    ensures AsksAll(s, t, s.conf.config.voters, term, pre, force)
  {
    assert forall v :: Ask(s, v, term, pre, force) == Ask(c, v, term, pre, force);
  }

  lemma TimeoutRange(p: Params, k: nat)
    ensures p.et <= TimeoutOf(p, k) < 2 * p.et
  {
  }

  lemma PreCampaignProbes(s: NodeState)
    requires OneOfMany(s) && s.out.messages == []
    ensures var t := PreCampaign(s, false);
      Probes(s, t) && t == s.(role := t.role, votes := t.votes, leaderID := t.leaderID, clock := t.clock, out := t.out)
  {
    hide RequestVotes, HasQuorum, TimeoutOf;
    var c := CastVote(BecomePreCandidate(s), s.p.id, true);
    TimeoutRange(s.p, s.clock.drawn);
    AloneIsFew(c);
    Requests(c, c.conf.config.voters, c.term + 1, true, false);
    SameAsks(s, c, PreCampaign(s, false), c.term + 1, true, false);
  }

  /** The election timer of a node that does not lead has run out, and it may stand. */
  predicate Due(s: NodeState) {
    s.clock.electionElapsed + 1 >= s.clock.randTimeout && s.p.id in s.conf.config.voters
  }

  /** Until its timer runs out a tick only moves the timer. */
  lemma TimerRuns(s: NodeState)
    requires s.role != Leader && !Due(s)
    ensures Step(s, Tick) ==
      s.(clock := s.clock.(electionElapsed := s.clock.electionElapsed + 1), out := EMPTY_OUTPUT, dirty := CLEAN)
  {
  }

  /** When it runs out the node stands for election, after asking whether it would win if that is configured. */
  lemma TimerEnds(s: NodeState)
    requires s.role != Leader && Due(s) && OneOfMany(s)
    ensures var t := Step(s, Tick);
      if s.p.preVote then Probes(s, t) && t.out.persist == None
      else Stands(s, t, false) && t.out.persist == HardOrder(t)
  {
    hide PreCampaign, Campaign, Stands, Probes;
    var b := Begin(s).(clock := s.clock.(electionElapsed := s.clock.electionElapsed + 1));
    CampaignStands(b, false);
    PreCampaignProbes(b);
    var h := Handle(Begin(s), Tick);
    if s.p.preVote {
      ProbesStill(b, h, s, Step(s, Tick));
    } else {
      StandsStill(b, h, s, Step(s, Tick), false);
    }
  }

  lemma StandsStill(b: NodeState, h: NodeState, s: NodeState, t: NodeState, force: bool)
    requires Stands(b, h, force) && t == h.(out := t.out) && t.out.messages == h.out.messages
    requires b == s.(clock := b.clock, out := b.out, dirty := b.dirty, votes := b.votes)
    ensures Stands(s, t, force)
  {
    assert Sent(t) == Sent(h);
    SameAsks(s, b, t, t.term, false, force);
  }

  lemma ProbesStill(b: NodeState, h: NodeState, s: NodeState, t: NodeState)
    requires Probes(b, h) && t == h.(out := t.out) && t.out.messages == h.out.messages
    requires b == s.(clock := b.clock, out := b.out, dirty := b.dirty)
    ensures Probes(s, t)
  {
    assert Sent(t) == Sent(h);
    SameAsks(s, b, t, s.term + 1, true, false);
  }

  /** The target of a transfer stands at once, without asking first, and overrides what the others believe. */
  lemma ToldToStand(s: NodeState, m: Message)
    requires m.TimeoutNow? && m.to == s.p.id && m.term == s.term && s.role != Leader && OneOfMany(s)
    ensures var t := Step(s, Receive(m)); Stands(s, t, true) && t.out.persist == HardOrder(t)
  {
    hide Campaign, Stands;
    CampaignStands(Begin(s), true);
    StandsStill(Begin(s), Handle(Begin(s), Receive(m)), s, Step(s, Receive(m)), true);
  }

  /** The only voter elects itself at once, and what it then appends is committed. */
  lemma SoleVoterLeads(s: NodeState)
    requires s.role != Leader && Due(s) && s.conf.config.voters == [s.p.id] && !s.panicked
    requires s.commitIndex <= s.log.LastIndex()
    ensures var t := Step(s, Tick);
      && t.role == Leader && t.term == s.term + 1 && t.votedFor == s.p.id && !t.panicked
      && t.log == s.log.Append(Entry(s.log.LastIndex() + 1, t.term, Noop, []))
      && t.commitIndex == t.log.LastIndex()
  {
    hide Campaign, PreCampaign, BecomeLeader;
    var b := Begin(s).(clock := s.clock.(electionElapsed := s.clock.electionElapsed + 1));
    var p := CastVote(BecomePreCandidate(b), b.p.id, true);
    SoleCampaign(b);
    SoleCampaign(p);
    SolePreCampaign(b);
  }

  lemma SoleVotes(s: NodeState)
    requires s.conf.config.voters == [s.p.id] && s.p.id in s.votes && s.votes[s.p.id]
    ensures HasQuorum(s, true)
  {
    assert s.conf.config.voters[..0] == [];
  }

  lemma SolePreCampaign(s: NodeState)
    requires s.conf.config.voters == [s.p.id]
    ensures PreCampaign(s, false) == Campaign(CastVote(BecomePreCandidate(s), s.p.id, true), false)
  {
    hide HasQuorum, Campaign, TimeoutOf;
    SoleVotes(CastVote(BecomePreCandidate(s), s.p.id, true));
  }

  lemma SoleCampaign(s: NodeState)
    requires s.conf.config.voters == [s.p.id] && !s.panicked && s.commitIndex <= s.log.LastIndex()
    ensures var t := Campaign(s, false);
      && t.role == Leader && t.term == s.term + 1 && t.votedFor == s.p.id && !t.panicked
      && t.log == s.log.Append(Entry(s.log.LastIndex() + 1, t.term, Noop, []))
      && t.commitIndex == t.log.LastIndex()
  {
    hide HasQuorum, BecomeLeader, TimeoutOf;
    var c := CastVote(BecomeCandidate(s), s.p.id, true);
    SoleVotes(c);
    BeginsReign(c);
    SoleCommits(c);
  }

  lemma SoleCommits(s: NodeState)
    requires s.conf.config.voters == [s.p.id] && s.commitIndex <= s.log.LastIndex()
    ensures BecomeLeader(s).commitIndex == s.log.LastIndex() + 1
  {
    hide BroadcastAppend, AppendEntry, MaybeCommit;
    var a := AppendEntry(AssumeLeadership(s), Noop, []);
    FreshLeader(s);
    SoleMedian(s, a);
    SoleCount(a);
    Broadcasts(MaybeCommit(a));
  }

  lemma SoleMedian(s: NodeState, a: NodeState)
    requires s.conf.config.voters == [s.p.id] && Fresh(s, a)
    ensures MedianMatch(a) == Some(s.log.LastIndex() + 1) && a.log.Term(s.log.LastIndex() + 1) == Some(a.term)
    ensures Promotable(a) && a.role == Leader
  {
    var n := s.log.LastIndex() + 1;
    assert a.log.LastIndex() == n;
    assert [a.p.id][..0] == [];
    assert NodeSpec.Matches([a.p.id], a.p.id, n, a.prs) == [n];
    assert [n][..0] == [] && SortDesc([n]) == [n];
  }

  lemma SoleCount(a: NodeState)
    requires a.role == Leader && CanCommit(a) && Promotable(a) && a.log.Term(MedianMatch(a).value) == Some(a.term)
    ensures MaybeCommit(a).commitIndex == MedianMatch(a).value
  {
    hide MedianMatch, BroadcastAppend, ApplyCommitted, TimeoutOf;
    var n := MedianMatch(a).value;
    AppliedFrame(a, n);
    Broadcasts(ApplyCommitted(a.(commitIndex := n)));
  }

  /**
   * A node that asked first takes an answer: with a majority it stands, with a majority against it gives up, and neither
   * an answer about another term nor a real vote counts.
   */
  lemma PreAnswerCounted(s: NodeState, m: Message)
    requires s.role == PreCandidate && OneOfMany(s)
    requires m.VoteResp? && m.to == s.p.id && (m.term > s.term ==> m.preVote && m.granted)
    ensures var u, t := Counted(s, m), Step(s, Receive(m));
      if m.preVote && m.granted && m.term == s.term + 1 then
        if MajorityOf(u, Backers(u, true)) then Stands(s, t, m.force) && t.out.persist == HardOrder(t) else t == u
      else if m.preVote && !m.granted && m.term == s.term then
        if MajorityOf(u, Backers(u, false)) then t.role == Follower && t.term == s.term && t.out == EMPTY_OUTPUT
        else t == u
      else t == s.(out := EMPTY_OUTPUT, dirty := CLEAN)
  {
    hide HasQuorum, Campaign, MajorityOf, Backers, TimeoutOf, Stands;
    var u := Counted(s, m);
    assert CastVote(Begin(s), m.from, m.granted) == u;
    QuorumIsMajority(u, true);
    QuorumIsMajority(u, false);
    CampaignStands(u, m.force);
    if m.preVote && m.granted && m.term == s.term + 1 && MajorityOf(u, Backers(u, true)) {
      StandsStill(u, Campaign(u, m.force), s, Step(s, Receive(m)), m.force);
    }
  }

  // ---- A whole election

  /** The node would grant what the candidate asks: its vote of that term is free, and the candidate's log is no worse. */
  ghost predicate WouldGrant(t: NodeState, m: Message) {
    m.Vote? && m.to == t.p.id && VoteFree(t, m) && Reaches(m.lastLogTerm, m.lastLogIndex, t.log)
  }

  /**
   * A candidate asks, those that would grant the vote answer, and the answers come back in any order: each is asked and
   * grants, and the candidate leads if and only if they are a majority together with itself.
   */
  lemma ElectionSucceeds(s: NodeState, t: NodeState, force: bool, from: seq<nat>, nodes: map<nat, NodeState>)
    requires Stands(s, t, force) && OneOfMany(s) && !s.panicked
    requires forall v :: v in from ==>
      && v in s.conf.config.voters && v != s.p.id && v in nodes && nodes[v].p.id == v
      && WouldGrant(nodes[v], Ask(s, v, t.term, false, force))
    ensures forall v :: v in from ==>
      && Ask(s, v, t.term, false, force) in t.out.messages
      && Step(nodes[v], Receive(Ask(s, v, t.term, false, force))).out.messages == [Grant(v, s.p.id, t.term)]
    ensures Granting(t, from).term == t.term
    ensures Granting(t, from).role == Leader <==> MajorityOf(s, {s.p.id} + set v | v in from)
  {
    hide Step, MajorityOf, Granting, Reaches, VoteFree, Raises;
    forall v | v in from
      ensures Ask(s, v, t.term, false, force) in t.out.messages
      ensures Step(nodes[v], Receive(Ask(s, v, t.term, false, force))).out.messages == [Grant(v, s.p.id, t.term)]
    {
      assert Ask(s, v, t.term, false, force) in Sent(t);
      VoteAnswered(nodes[v], Ask(s, v, t.term, false, force));
      TermOfVote(nodes[v], Ask(s, v, t.term, false, force));
    }
    OwnVoteOnly(t);
    MajorityElects(t, from);
    assert Backers(t, true) + VotersIn(t, from) == {s.p.id} + set v | v in from;
    SameMajority(s, t, {s.p.id} + set v | v in from);
  }

  lemma TermOfVote(t: NodeState, m: Message)
    requires m.Vote? && VoteFree(t, m)
    ensures (if Raises(t, m) then m.term else t.term) == m.term
  {
  }

  lemma SameMajority(s: NodeState, t: NodeState, q: set<nat>)
    requires t.conf == s.conf
    ensures MajorityOf(t, q) <==> MajorityOf(s, q)
  {
  }

  lemma OwnVoteOnly(t: NodeState)
    requires t.votes == map[t.p.id := true] && OneOfMany(t)
    ensures Backers(t, true) == {t.p.id} && !MajorityOf(t, Backers(t, true)) && !MajorityOf(t, Backers(t, false))
  {
    assert Backers(t, false) == {};
    assert Backers(t, true) == {t.p.id};
  }

  // ---- Other terms

  /** A message of an earlier term changes nothing: leaders of then are told the term and where the log ends. */
  lemma EarlierTerm(s: NodeState, m: Message)
    requires m.to == s.p.id && m.term < s.term
    ensures var t := Step(s, Receive(m));
      && t == s.(out := t.out, dirty := CLEAN)
      && t.out == EMPTY_OUTPUT.(messages :=
           if m.App? || m.Snap? then [AppResp(s.p.id, m.from, s.term, false, 0, s.log.LastIndex() + 1, 0)]
           else if m.Vote? then [VoteResp(s.p.id, m.from, s.term, m.preVote, false, false)]
           else [])
  {
  }

  /** An answer of a later term ends whatever the node was about, and the new term is in the order for the disk. */
  lemma LaterTerm(s: NodeState, m: Message)
    requires m.to == s.p.id && m.term > s.term && !(m.VoteResp? && m.preVote && m.granted)
    requires m.AppResp? || m.SnapResp? || m.VoteResp?
    ensures var t := Step(s, Receive(m));
      && t.role == Follower && t.term == m.term && t.votedFor == NONE && t.leaderID == NONE && t.prs == map[]
      && t.log == s.log && t.conf == s.conf && t.commitIndex == s.commitIndex && t.panicked == s.panicked
      && t.out == EMPTY_OUTPUT.(persist := HardOrder(t))
      && t.clock.electionElapsed == 0 && t.p.et <= t.clock.randTimeout < 2 * t.p.et
  {
    hide TimeoutOf;
    TimeoutRange(s.p, s.clock.drawn);
  }
}
