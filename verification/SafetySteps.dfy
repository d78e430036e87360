/** Every handler keeps the invariant, for a cluster whose voters never change. */
module SafetySteps {
  import opened RaftTypes
  import opened LogSpec
  import opened NodeSpec
  import opened Ghosts
  import opened SafetyInv
  import opened HistorySteps
  import opened SafetyLogs

  ghost predicate Good(gh: Ghost, s: NodeState) {
    GhostInv(gh) && NodeInv(gh, s) && OutInv(gh, s)
  }

  /**
   * From (gh, s) a handler got to (gh', s'): the history grew by this node's doing only, and the node
   * leads a term that already had a leader only if it led it before.
   */
  ghost predicate Leads(gh: Ghost, s: NodeState, gh': Ghost, s': NodeState) {
    && Good(gh', s')
    && ExtBy(s.p.id, gh, gh')
    && gh'.payload == gh.payload && gh'.start == gh.start
    && s'.p.id == s.p.id
    && (s'.role == Leader && s'.term in gh.leader ==> s.role == Leader && s.term == s'.term)
  }

  lemma LeadsHere(gh: Ghost, s: NodeState, s': NodeState)
    requires Good(gh, s') && s'.p.id == s.p.id
    requires s'.role == Leader ==> s.role == Leader && s'.term == s.term
    ensures Leads(gh, s, gh, s')
  {
    hide Good;
    ExtRefl(gh, s.p.id);
  }

  lemma LeadsTrans(a: Ghost, s: NodeState, b: Ghost, t: NodeState, c: Ghost, u: NodeState)
    requires Leads(a, s, b, t) && Leads(b, t, c, u)
    ensures Leads(a, s, c, u)
  {
    hide Good, OnlyBy, Grows;
    ExtByTrans(s.p.id, a, b, c);
  }

  // ---- Changes the argument does not see

  lemma NodeFacts(gh: Ghost, s: NodeState)
    requires Good(gh, s)
    ensures LogInv(gh.tlog, s.log) && TermLogs(gh.tlog) && s.log.LastTerm() <= s.term
    ensures s.p.id != NONE && s.learner == NONE && !s.panicked
    ensures s.log.snapIndex <= s.lastApplied <= s.commitIndex <= s.log.LastIndex()
    ensures IsCommitted(gh, Full(gh.tlog, s.log)[..s.commitIndex], s.term)
  {
    hide OutInv, LogInv, Full, Owes, IsCommitted, SnapshotInv, TermLogs, Elections, VotesSafe, LeadersSafe;
  }

  lemma OutSame(gh: Ghost, s: NodeState, t: NodeState)
    requires OutInv(gh, s) && SameOut(s, t)
    ensures OutInv(gh, t)
  {
    hide MsgInv, AppliedInv, RestoredInv;
  }

  /** Clocks, hints, replies and dirty marks may differ. */
  ghost predicate SameCore(s: NodeState, t: NodeState) {
    && t.p == s.p && t.role == s.role && t.term == s.term && t.votedFor == s.votedFor && t.log == s.log
    && t.commitIndex == s.commitIndex && t.lastApplied == s.lastApplied && t.conf == s.conf
    && t.votes == s.votes && t.prs == s.prs && t.learner == s.learner && t.snapshot == s.snapshot && t.panicked == s.panicked
  }

  ghost predicate SameOut(s: NodeState, t: NodeState) {
    t.out.messages == s.out.messages && t.out.applied == s.out.applied && t.out.applySnapshot == s.out.applySnapshot
      && t.lastApplied == s.lastApplied
  }

  lemma QuietNode(gh: Ghost, s: NodeState, t: NodeState)
    requires NodeInv(gh, s) && SameCore(s, t)
    ensures NodeInv(gh, t)
  {
    hide LogInv, Full, Owes, IsCommitted, SnapshotOf;
  }

  lemma QuietSafe(gh: Ghost, s: NodeState, t: NodeState)
    requires Good(gh, s) && SameCore(s, t) && SameOut(s, t)
    ensures Good(gh, t)
  {
    hide GhostInv, NodeInv, MsgInv, AppliedInv, RestoredInv;
    QuietNode(gh, s, t);
  }

  lemma SendSafe(gh: Ghost, s: NodeState, m: Message)
    requires Good(gh, s) && MsgInv(gh, m)
    ensures Good(gh, Send(s, m))
  {
    hide GhostInv, NodeInv, MsgInv, AppliedInv, RestoredInv;
    QuietNode(gh, s, Send(s, m));
  }

  /** A role without leadership or candidacy promises nothing, whatever votes it counts. */
  lemma IdleSafe(gh: Ghost, s: NodeState, role: Role, votes: map<nat, bool>)
    requires Good(gh, s) && role != Leader && role != Candidate
    ensures Good(gh, s.(role := role, votes := votes, prs := map[]))
  {
    hide GhostInv, LogInv, Full, Owes, IsCommitted, MsgInv, AppliedInv, RestoredInv;
  }

  /** A higher term forgets the vote and the role. */
  lemma TermSafe(gh: Ghost, s: NodeState, t: nat)
    requires Good(gh, s) && t > s.term
    ensures Good(gh, s.(term := t, votedFor := NONE, role := Follower, votes := map[], prs := map[]))
    ensures (t, s.p.id) !in gh.key
    ensures !(t in gh.leader && gh.leader[t] == s.p.id)
  {
    hide GhostInv, LogInv, Full, IsCommitted, MsgInv, AppliedInv, RestoredInv, Owes;
    IsCommittedGrowsTerm(gh, Full(gh.tlog, s.log)[..s.commitIndex], s.term, t);
    OwesLater(gh.tlog, gh.acks, s.p.id, s.term, t, s.log);
  }

  lemma IsCommittedGrowsTerm(gh: Ghost, s: seq<Entry>, t: nat, u: nat)
    requires IsCommitted(gh, s, t) && t <= u
    ensures IsCommitted(gh, s, u)
  {
    hide Committed, Agree;
  }

  lemma OwesLater(tlog: Logs, acks: map<(nat, nat), nat>, id: nat, t: nat, u: nat, l: Log)
    requires LogInv(tlog, l) && Owes(tlog, acks, id, t, l) && t < u
    requires forall T :: (T, id) in acks ==> T <= t
    ensures Owes(tlog, acks, id, u, l)
  {
    hide LogInv, Full, Agree;
    forall T: nat, k: nat | (T, id) in acks && k <= acks[(T, id)] && Counts(tlog, T, k, u) && LaterHave(tlog, T, k, u)
      ensures Agree(Full(tlog, l), tlog[T], k)
    {
      assert LaterHave(tlog, T, k, t);
    }
  }

  lemma FollowerSafe(gh: Ghost, s: NodeState, term: nat, leader: nat)
    requires Good(gh, s) && term >= s.term
    ensures Good(gh, BecomeFollower(s, term, leader))
  {
    hide Good;
    var t := if term > s.term
             then s.(term := term, votedFor := NONE, role := Follower, votes := map[], prs := map[])
             else s.(role := Follower, votes := map[], prs := map[]);
    if term > s.term {
      TermSafe(gh, s, term);
    } else {
      IdleSafe(gh, s, Follower, map[]);
    }
    NodeFacts(gh, s);
    QuietSafe(gh, t, BecomeFollower(s, term, leader));
  }

  // ---- Replication by the leader

  lemma SliceOfFull(tlog: Logs, l: Log, lo: nat, max: nat)
    requires LogInv(tlog, l) && l.snapIndex < lo <= l.LastIndex() + 1
    ensures var ents := l.Slice(lo, l.LastIndex() + 1, max);
      lo - 1 + |ents| <= l.LastIndex() && ents == Full(tlog, l)[lo - 1..lo - 1 + |ents|]
  {
    hide LogInv, Full;
    EntriesInFull(tlog, l);
    var ents, f := l.Slice(lo, l.LastIndex() + 1, max), Full(tlog, l);
    if lo <= l.LastIndex() {
      assert ents == l.entries[lo - l.snapIndex - 1..lo - l.snapIndex - 1 + |ents|];
      assert ents == f[lo - 1..lo - 1 + |ents|];
    }
  }

  /** The request with the entries from `next` on, t being the term before them. */
  function AppFrom(s: NodeState, to: nat, next: pos, t: nat): Message {
    App(s.p.id, to, s.term, next - 1, t, s.log.Slice(next, s.log.LastIndex() + 1, s.p.maxBatch), s.commitIndex)
  }

  lemma AppMsgSafe(gh: Ghost, s: NodeState, to: nat) returns (t: nat)
    requires GhostInv(gh) && NodeInv(gh, s) && s.role == Leader && to in s.prs && s.prs[to].next > s.log.snapIndex
    ensures s.log.Term(s.prs[to].next - 1) == Some(t) && MsgInv(gh, AppFrom(s, to, s.prs[to].next, t))
  {
    hide GhostInv, LogInv, Full, Owes, IsCommitted, SnapshotInv, Log.Slice, TermAt, CandidateInv, PromiseInv;
    TermInFull(gh.tlog, s.log, s.prs[to].next - 1);
    t := s.log.Term(s.prs[to].next - 1).value;
    SliceOfFull(gh.tlog, s.log, s.prs[to].next, s.p.maxBatch);
  }

  lemma SnapMsgSafe(gh: Ghost, s: NodeState, to: nat)
    requires NodeInv(gh, s) && s.role == Leader && to in s.prs && s.prs[to].next <= s.log.snapIndex
    ensures s.snapshot.Some? && MsgInv(gh, Snap(s.p.id, to, s.term, s.snapshot))
  {
    hide LogInv, Full, Owes, IsCommitted;
    var f := Full(gh.tlog, s.log);
    assert f[..s.commitIndex][..s.log.snapIndex] == f[..s.log.snapIndex];
    IsCommittedLess(gh, f[..s.commitIndex], s.term, s.log.snapIndex);
  }

  lemma SendAppendSafe(gh: Ghost, s: NodeState, to: nat)
    requires Good(gh, s)
    ensures Good(gh, SendAppend(s, to))
    ensures SendAppend(s, to).p == s.p && SendAppend(s, to).role == s.role && SendAppend(s, to).term == s.term
    ensures SendAppend(s, to).log == s.log
  {
    hide GhostInv, OutInv, NodeInv, MsgInv, ProgressInv;
    if to in s.prs {
      if s.role != Leader {
        NoProgress(gh, s);
      }
      if s.prs[to].next <= s.log.snapIndex {
        SnapMsgSafe(gh, s, to);
        if !s.prs[to].pendingSnap {
          var t := s.(prs := s.prs[to := s.prs[to].(pendingSnap := true)]);
          PendingTruthful(gh, s, to);
          ProgressSafe(gh, s, t.prs);
          SendSafe(gh, t, Snap(s.p.id, to, s.term, s.snapshot));
        }
      } else {
        var t := AppMsgSafe(gh, s, to);
        SendSafe(gh, s, AppFrom(s, to, s.prs[to].next, t));
      }
    }
  }

  lemma PendingTruthful(gh: Ghost, s: NodeState, to: nat)
    requires NodeInv(gh, s) && s.role == Leader && to in s.prs
    ensures ProgressInv(gh, s.(prs := s.prs[to := s.prs[to].(pendingSnap := true)]))
  {
    hide LogInv, Full, Owes, IsCommitted, SnapshotInv;
  }

  /** Progress that stays truthful may change. */
  lemma ProgressSafe(gh: Ghost, s: NodeState, prs: map<nat, Progress>)
    requires Good(gh, s) && s.role == Leader && ProgressInv(gh, s.(prs := prs))
    ensures Good(gh, s.(prs := prs))
  {
    hide GhostInv, LogInv, Full, Owes, IsCommitted, MsgInv, AppliedInv, RestoredInv;
  }

  lemma {:induction false} SendAppendAllSafe(gh: Ghost, s: NodeState, targets: seq<nat>)
    requires Good(gh, s)
    ensures Good(gh, SendAppendAll(s, targets))
    ensures SendAppendAll(s, targets).p == s.p && SendAppendAll(s, targets).role == s.role
    ensures SendAppendAll(s, targets).term == s.term && SendAppendAll(s, targets).log == s.log
  {
    hide Good;
    if targets != [] {
      SendAppendAllSafe(gh, s, targets[..|targets| - 1]);
      SendAppendSafe(gh, SendAppendAll(s, targets[..|targets| - 1]), targets[|targets| - 1]);
    }
  }

  // ---- Commitment

  lemma AppliedSafe(gh: Ghost, s: NodeState)
    requires Good(gh, s)
    ensures forall e :: e in s.log.Slice(s.lastApplied + 1, s.commitIndex + 1, 0) ==> AppliedInv(gh, e)
  {
    hide Good, IsCommitted, TermLogs, LogInv, Full;
    NodeFacts(gh, s);
    var f := Full(gh.tlog, s.log);
    EntriesInFull(gh.tlog, s.log);
    forall e | e in s.log.Slice(s.lastApplied + 1, s.commitIndex + 1, 0) ensures AppliedInv(gh, e) {
      var j :| 0 <= j < |s.log.Slice(s.lastApplied + 1, s.commitIndex + 1, 0)| &&
          s.log.Slice(s.lastApplied + 1, s.commitIndex + 1, 0)[j] == e;
      var k := s.lastApplied + j;
      assert e == f[k];
      FullEntries(gh.tlog, s.log, k);
      assert f[..s.commitIndex][k] == e;
    }
  }

  lemma ApplyNode(gh: Ghost, s: NodeState)
    requires Good(gh, s)
    ensures NodeInv(gh, ApplyCommitted(s))
  {
    hide GhostInv, Full, LogInv, Owes, IsCommitted, OutInv;
  }

  /** The entries between what is applied and what is committed, by their indexes. */
  lemma NextEntries(gh: Ghost, s: NodeState)
    requires Good(gh, s) && s.commitIndex > s.lastApplied
    ensures var a := s.log.Slice(s.lastApplied + 1, s.commitIndex + 1, 0);
      |a| == s.commitIndex - s.lastApplied && forall k :: 0 <= k < |a| ==> a[k].index == s.lastApplied + 1 + k
  {
    hide Good, IsCommitted, TermLogs, LogInv, Full;
    NodeFacts(gh, s);
    EntriesInFull(gh.tlog, s.log);
    var a := s.log.Slice(s.lastApplied + 1, s.commitIndex + 1, 0);
    forall k | 0 <= k < |a| ensures a[k].index == s.lastApplied + 1 + k {
      FullEntries(gh.tlog, s.log, s.lastApplied + k);
      assert a[k] == Full(gh.tlog, s.log)[s.lastApplied + k];
    }
  }

  lemma ApplyInOrder(start: nat, s: NodeState, a: seq<Entry>, n: nat)
    requires InOrder(start, s) && n == s.lastApplied + |a|
    requires forall k :: 0 <= k < |a| ==> a[k].index == s.lastApplied + 1 + k
    ensures InOrder(start, s.(out := s.out.(applied := s.out.applied + a), lastApplied := n))
  {
  }

  lemma ApplySafe(gh: Ghost, s: NodeState)
    requires Good(gh, s)
    ensures Good(gh, ApplyCommitted(s))
  {
    hide GhostInv, NodeInv, MsgInv, AppliedInv, RestoredInv, InOrder;
    ApplyNode(gh, s);
    if s.commitIndex > s.lastApplied {
      AppliedSafe(gh, s);
      NextEntries(gh, s);
      ApplyInOrder(gh.start, s, s.log.Slice(s.lastApplied + 1, s.commitIndex + 1, 0), s.commitIndex);
    }
  }

  /** The commit index may move to any prefix known to be committed. */
  lemma CommitTo(gh: Ghost, s: NodeState, n: nat)
    requires Good(gh, s) && s.commitIndex <= n <= s.log.LastIndex()
    requires LogInv(gh.tlog, s.log) && IsCommitted(gh, Full(gh.tlog, s.log)[..n], s.term)
    ensures Good(gh, ApplyCommitted(s.(commitIndex := n)))
  {
    hide GhostInv, NodeInv, OutInv, LogInv, Full, IsCommitted;
    CommitNode(gh, s, n);
    OutSame(gh, s, s.(commitIndex := n));
    ApplySafe(gh, s.(commitIndex := n));
  }

  lemma CommitNode(gh: Ghost, s: NodeState, n: nat)
    requires NodeInv(gh, s) && s.commitIndex <= n <= s.log.LastIndex()
    requires LogInv(gh.tlog, s.log) && IsCommitted(gh, Full(gh.tlog, s.log)[..n], s.term)
    ensures NodeInv(gh, s.(commitIndex := n))
  {
    hide LogInv, Full, Owes, IsCommitted;
  }

  /** A leader's log is its term's log, and so is every index it may count. */
  lemma LeaderFacts(gh: Ghost, s: NodeState)
    requires Good(gh, s) && s.role == Leader
    ensures LogInv(gh.tlog, s.log) && s.term in gh.tlog && Full(gh.tlog, s.log) == gh.tlog[s.term]
    ensures s.conf.config.voters == gh.voters && NoDuplicates(gh.voters)
    ensures (s.term, s.p.id) in gh.acks && gh.acks[(s.term, s.p.id)] == s.log.LastIndex()
    ensures ProgressInv(gh, s)
  {
    hide LogInv, Full, Owes, IsCommitted, SnapshotInv, OutInv, ProgressInv, TermLogs, Elections, VotesSafe,
         LeadersSafe, Acknowledged;
  }

  lemma MatchesAcked(gh: Ghost, s: NodeState, n: nat)
    requires ProgressInv(gh, s) && NoDuplicates(gh.voters) && n >= 1
    requires (s.term, s.p.id) in gh.acks && gh.acks[(s.term, s.p.id)] == s.log.LastIndex()
    ensures |AckSet(gh, s.term, n)| >= CountAtLeast(Matches(gh.voters, s.p.id, s.log.LastIndex(), s.prs), n)
  {
    CountedMatches(gh.voters, s.p.id, s.log.LastIndex(), s.prs, n, AckSet(gh, s.term, n));
    assert Among(gh.voters, AckSet(gh, s.term, n)) == AckSet(gh, s.term, n);
  }

  /** What the median says is recorded on a majority is committed. */
  lemma MedianCommitted(gh: Ghost, s: NodeState, n: nat)
    requires Good(gh, s) && s.role == Leader
    requires MedianMatch(s) == Some(n) && n > s.commitIndex && s.log.Term(n) == Some(s.term)
    ensures Committed(gh, s.term, n) && n <= s.log.LastIndex()
    ensures IsCommitted(gh, gh.tlog[s.term][..n], s.term)
  {
    hide Good, LogInv, Full, ProgressInv, NoDuplicates, Matches, SortDesc, CountAtLeast, Own, Agree;
    LeaderFacts(gh, s);
    TermInFull(gh.tlog, s.log, n);
    assert Own(gh.tlog, s.term, n) by {
      OwnAt(gh.tlog, s.term, n);
    }
    MedianIsQuorumValue(Matches(gh.voters, s.p.id, s.log.LastIndex(), s.prs), s.conf.config.Quorum());
    MatchesAcked(gh, s, n);
    AgreePrefix(gh.tlog[s.term], n);
  }

  lemma OwnAt(tlog: Logs, T: nat, n: nat)
    requires T in tlog && 1 <= n <= |tlog[T]| && TermAt(tlog[T], n) == T
    ensures Own(tlog, T, n)
  {
  }

  lemma AgreePrefix(a: seq<Entry>, n: nat)
    requires n <= |a|
    ensures Agree(a, a[..n], n)
  {
  }

  lemma MaybeCommitSafe(gh: Ghost, s: NodeState)
    requires Good(gh, s)
    ensures Good(gh, MaybeCommit(s)) && MaybeCommit(s).p == s.p
    ensures MaybeCommit(s).term == s.term && MaybeCommit(s).log == s.log
    ensures MaybeCommit(s).role == Leader ==> s.role == Leader
  {
    hide Good, MedianMatch, LogInv, Full, IsCommitted, Committed;
    if s.role == Leader {
      LeaderFacts(gh, s);
      MedianExists(gh, s);
      var n := MedianMatch(s).value;
      if n > s.commitIndex && s.log.Term(n) == Some(s.term) {
        MedianCommitted(gh, s, n);
        CommitTo(gh, s, n);
        var t := ApplyCommitted(s.(commitIndex := n));
        FollowerSafe(gh, t, t.term, NONE);
        var u := AfterCommit(t);
        SendAppendAllSafe(gh, u, ReplicationTargets(u));
      }
    }
  }

  lemma MedianExists(gh: Ghost, s: NodeState)
    requires Good(gh, s) && s.role == Leader
    ensures MedianMatch(s).Some?
  {
    hide OutInv, TermLogs, VotesSafe, LeadersSafe, Owes, IsCommitted, SnapshotInv, LogInv, Full, AckInv, PromiseInv,
         Acknowledged;
    assert Elected(gh, s.term);
    assert gh.quorum[s.term] != {};
    assert |gh.voters| > 0;
  }

  lemma AppendEntrySafe(gh: Ghost, s: NodeState, typ: EntryType, data: seq<byte>) returns (gh': Ghost)
    requires Good(gh, s) && s.role == Leader && typ != Conf
    requires typ == Normal ==> data in gh.payload
    ensures Leads(gh, s, gh', AppendEntry(s, typ, data))
    ensures AppendEntry(s, typ, data).role == Leader && AppendEntry(s, typ, data).p == s.p
    ensures AppendEntry(s, typ, data).term == s.term
  {
    hide GhostInv, NodeInv, OutInv, Ext, OnlyBy, LogInv, Full, ProgressInv;
    var e := Entry(s.log.LastIndex() + 1, s.term, typ, data);
    LeaderFacts(gh, s);
    gh' := WithEntry(gh, s, e);
    EntryStep(gh, s, e);
    var t := s.(log := s.log.Append(e));
    OutInvGrows(gh, gh', s);
    OutSame(gh', s, t);
    QuietSafe(gh', t, AppendEntry(s, typ, data));
  }

  lemma CommitAndBroadcastSafe(gh: Ghost, s: NodeState)
    requires Good(gh, s)
    ensures Good(gh, CommitAndBroadcast(s)) && CommitAndBroadcast(s).p == s.p && CommitAndBroadcast(s).term == s.term
    ensures CommitAndBroadcast(s).role == Leader ==> s.role == Leader
  {
    hide Good;
    MaybeCommitSafe(gh, s);
    SendAppendAllSafe(gh, MaybeCommit(s), ReplicationTargets(MaybeCommit(s)));
  }

  // ---- Elections

  lemma BecomeLeaderSafe(gh: Ghost, s: NodeState) returns (gh': Ghost)
    requires Good(gh, s) && s.role == Candidate && HasQuorum(s, true)
    ensures Leads(gh, s, gh', BecomeLeader(s))
    ensures s.term !in gh.tlog
  {
    hide GhostInv, NodeInv, OutInv, Ext, OnlyBy, HasQuorum;
    ElectStep(gh, s);
    NodeFacts(gh, s);
    var gh1 := WithLeader(gh, s);
    var t := AssumeLeadership(s);
    OutInvGrows(gh, gh1, s);
    OutSame(gh1, s, t);
    gh' := AppendEntrySafe(gh1, t, Noop, []);
    LeadsTrans(gh, s, gh1, t, gh', AppendEntry(t, Noop, []));
    MaybeCommitSafe(gh', AppendEntry(t, Noop, []));
    var u := MaybeCommit(AppendEntry(t, Noop, []));
    SendAppendAllSafe(gh', u, ReplicationTargets(u));
  }

  lemma CandidateSafe(gh: Ghost, s: NodeState) returns (gh': Ghost)
    requires Good(gh, s) && s.role != Leader
    ensures Leads(gh, s, gh', CastVote(BecomeCandidate(s), s.p.id, true))
  {
    hide GhostInv, NodeInv, OutInv, Ext, OnlyBy, LogInv, Full;
    var a := s.(term := s.term + 1, votedFor := NONE, role := Follower, votes := map[], prs := map[]);
    TermSafe(gh, s, s.term + 1);
    var gh1 := WithKey(gh, a);
    KeyStep(gh, a);
    NoProgress(gh, s);
    NodeFacts(gh, s);
    gh' := WithVote(gh1, a, s.p.id);
    VoteStep(gh1, a, s.p.id);
    ExtByTrans(s.p.id, gh, gh1, gh');
    OutInvGrows(gh, gh1, a);
    OutInvGrows(gh1, gh', a);
    var b := a.(votedFor := s.p.id);
    var c := b.(role := Candidate, votes := map[s.p.id := true]);
    CandidacyNode(gh', b, c);
    OutSame(gh', a, c);
    QuietSafe(gh', c, CastVote(BecomeCandidate(s), s.p.id, true));
  }

  lemma CandidacyNode(gh: Ghost, b: NodeState, c: NodeState)
    requires NodeInv(gh, b) && b.role == Follower && c == b.(role := Candidate, votes := map[b.p.id := true])
    requires (b.term, b.p.id) in gh.key && gh.key[(b.term, b.p.id)] == (b.log.LastTerm(), b.log.LastIndex())
    requires b.log.LastTerm() < b.term && !(b.term in gh.leader && gh.leader[b.term] == b.p.id)
    requires (b.term, b.p.id) in gh.votes && gh.votes[(b.term, b.p.id)] == b.p.id
    ensures NodeInv(gh, c)
  {
    hide LogInv, Full, Owes, IsCommitted;
  }

  lemma {:induction false} RequestVotesSafe(gh: Ghost, s: NodeState, voters: seq<nat>, term: nat, pre: bool,
      force: bool)
    requires Good(gh, s)
    requires !pre ==> term == s.term && s.role == Candidate
    ensures Good(gh, RequestVotes(s, voters, term, pre, force))
    ensures SameCore(s, RequestVotes(s, voters, term, pre, force))
  {
    hide Good, MsgInv;
    if voters != [] {
      var rest := voters[..|voters| - 1];
      RequestVotesSafe(gh, s, rest, term, pre, force);
      var t := RequestVotes(s, rest, term, pre, force);
      var m := Vote(s.p.id, voters[|voters| - 1], term, pre, force, s.log.LastIndex(), s.log.LastTerm());
      VoteMsgSafe(gh, s, m);
      SendSafe(gh, t, m);
    }
  }

  lemma VoteMsgSafe(gh: Ghost, s: NodeState, m: Message)
    requires Good(gh, s) && m.Vote? && m.from == s.p.id
    requires !m.preVote ==> m.term == s.term && s.role == Candidate
    requires m.lastLogIndex == s.log.LastIndex() && m.lastLogTerm == s.log.LastTerm()
    ensures MsgInv(gh, m)
  {
    hide GhostInv, OutInv, LogInv, Full, Owes, IsCommitted, LeaderInv, CommitInv, SnapshotInv, PromiseInv;
  }

  lemma CampaignSafe(gh: Ghost, s: NodeState, force: bool) returns (gh': Ghost)
    requires Good(gh, s) && s.role != Leader
    ensures Leads(gh, s, gh', Campaign(s, force))
  {
    hide Good, Ext, OnlyBy, HasQuorum;
    if !Promotable(s) {
      gh' := gh;
      LeadsHere(gh, s, s);
    } else {
      var t := CastVote(BecomeCandidate(s), s.p.id, true);
      var gh1 := CandidateSafe(gh, s);
      if HasQuorum(t, true) {
        gh' := BecomeLeaderSafe(gh1, t);
        LeadsTrans(gh, s, gh1, t, gh', BecomeLeader(t));
      } else {
        gh' := gh1;
        RequestVotesSafe(gh1, t, t.conf.config.voters, t.term, false, force);
      }
    }
  }

  lemma PreCampaignSafe(gh: Ghost, s: NodeState, force: bool) returns (gh': Ghost)
    requires Good(gh, s) && s.role != Leader
    ensures Leads(gh, s, gh', PreCampaign(s, force))
  {
    hide Good, Ext, OnlyBy, HasQuorum;
    if !Promotable(s) {
      gh' := gh;
      LeadsHere(gh, s, s);
    } else {
      var t := CastVote(BecomePreCandidate(s), s.p.id, true);
      NoProgress(gh, s);
      IdleSafe(gh, s, PreCandidate, t.votes);
      QuietSafe(gh, s.(role := PreCandidate, votes := t.votes, prs := map[]), t);
      if HasQuorum(t, true) {
        LeadsHere(gh, s, t);
        gh' := CampaignSafe(gh, t, force);
        LeadsTrans(gh, s, gh, t, gh', Campaign(t, force));
      } else {
        gh' := gh;
        RequestVotesSafe(gh, t, t.conf.config.voters, t.term + 1, true, force);
        LeadsHere(gh, s, PreCampaign(s, force));
      }
    }
  }

  lemma NoProgress(gh: Ghost, s: NodeState)
    requires Good(gh, s) && s.role != Leader
    ensures s.prs == map[]
  {
    hide GhostInv, OutInv, LogInv, Full, Owes, IsCommitted;
  }

  lemma GrantSafe(gh: Ghost, s: NodeState, m: Message) returns (gh': Ghost)
    requires Good(gh, s) && m.Vote? && MsgInv(gh, m) && !m.preVote && m.term == s.term
    requires (s.votedFor == NONE || s.votedFor == m.from) && LogUpToDate(s.log, m.lastLogIndex, m.lastLogTerm)
    ensures Leads(gh, s, gh', ResetElection(s.(votedFor := m.from, dirty := s.dirty.(hs := true))))
    ensures MsgInv(gh', VoteResp(s.p.id, m.from, s.term, false, false, true))
  {
    hide GhostInv, NodeInv, OutInv, Ext, OnlyBy;
    gh' := WithVote(gh, s, m.from);
    VoteStep(gh, s, m.from);
    var t := s.(votedFor := m.from);
    OutInvGrows(gh, gh', s);
    OutSame(gh', s, t);
    QuietSafe(gh', t, ResetElection(s.(votedFor := m.from, dirty := s.dirty.(hs := true))));
  }

  lemma HandleVoteSafe(gh: Ghost, s: NodeState, m: Message) returns (gh': Ghost)
    requires Good(gh, s) && m.Vote? && MsgInv(gh, m) && (m.preVote || m.term == s.term)
    ensures Leads(gh, s, gh', HandleVote(s, m))
  {
    hide Good, Ext, OnlyBy, Sticky, LogUpToDate;
    gh' := gh;
    var upToDate := LogUpToDate(s.log, m.lastLogIndex, m.lastLogTerm);
    if m.preVote {
      var granted := m.term > s.term && upToDate && !Sticky(s, m.force);
      SendSafe(gh, s, VoteResp(s.p.id, m.from, if granted then m.term else s.term, true, false, granted));
      LeadsHere(gh, s, HandleVote(s, m));
    } else if (s.votedFor == NONE || s.votedFor == m.from) && upToDate {
      gh' := GrantSafe(gh, s, m);
      SendSafe(gh', ResetElection(s.(votedFor := m.from, dirty := s.dirty.(hs := true))),
               VoteResp(s.p.id, m.from, s.term, false, false, true));
    } else {
      SendSafe(gh, s, VoteResp(s.p.id, m.from, s.term, false, false, false));
      LeadsHere(gh, s, HandleVote(s, m));
    }
  }

  lemma GrantedVote(gh: Ghost, m: Message)
    requires m.VoteResp? && MsgInv(gh, m) && !m.preVote && m.granted
    ensures (m.term, m.from) in gh.votes && gh.votes[(m.term, m.from)] == m.to
  {
  }

  /** A counted vote is one the history knows. */
  lemma CountVoteSafe(gh: Ghost, s: NodeState, m: Message)
    requires Good(gh, s) && m.VoteResp? && MsgInv(gh, m) && !m.preVote && m.term == s.term && m.to == s.p.id
    requires s.role == Candidate
    ensures Good(gh, CastVote(s, m.from, m.granted))
  {
    hide GhostInv, LogInv, Full, Owes, IsCommitted, MsgInv, AppliedInv, RestoredInv;
    if m.granted {
      GrantedVote(gh, m);
    }
  }

  lemma HandleVoteRespSafe(gh: Ghost, s: NodeState, m: Message) returns (gh': Ghost)
    requires Good(gh, s) && m.VoteResp? && MsgInv(gh, m) && m.to == s.p.id
    ensures Leads(gh, s, gh', HandleVoteResp(s, m))
  {
    hide Good, Ext, OnlyBy, HasQuorum, MsgInv;
    gh' := gh;
    LeadsHere(gh, s, s);
    if s.role == PreCandidate {
      NoProgress(gh, s);
      var granted := !(!m.preVote || m.term != s.term + 1 || !m.granted);
      var t := CastVote(s, m.from, granted);
      IdleSafe(gh, s, PreCandidate, t.votes);
      QuietSafe(gh, s.(role := PreCandidate, votes := t.votes, prs := map[]), t);
      FollowerSafe(gh, t, t.term, NONE);
      LeadsHere(gh, s, t);
      LeadsHere(gh, s, BecomeFollower(t, t.term, NONE));
      if granted && HasQuorum(t, true) {
        gh' := CampaignSafe(gh, t, m.force);
        LeadsTrans(gh, s, gh, t, gh', Campaign(t, m.force));
      }
    } else if s.role == Candidate && !(m.preVote || m.term != s.term) {
      var t := CastVote(s, m.from, m.granted);
      CountVoteSafe(gh, s, m);
      LeadsHere(gh, s, t);
      if HasQuorum(t, true) {
        gh' := BecomeLeaderSafe(gh, t);
        LeadsTrans(gh, s, gh, t, gh', BecomeLeader(t));
      } else {
        FollowerSafe(gh, t, t.term, NONE);
        LeadsHere(gh, s, BecomeFollower(t, t.term, NONE));
      }
    }
  }
}
