/** Who can come to lead, and with what log: only a voter, with an entry of its own term at the end. */
module Founding {
  import opened RaftTypes
  import opened LogSpec
  import opened ConfSpec
  import opened NodeSpec
  import opened Ghosts
  import opened SafetyInv
  import opened SafetyLogs
  import opened FastBackup
  import opened Sending
  import opened Voting
  import opened Cluster
  import opened ClusterSafety
  import opened ClusterTheorems
  import opened Storage

  /** A leader's log ends with an entry of its own term. */
  predicate OwnEnd(s: NodeState) {
    s.role == Leader ==> s.log.LastTerm() == s.term
  }

  lemma ReignBeginsOwn(s: NodeState)
    ensures OwnEnd(BecomeLeader(s))
  {
    hide MaybeCommit, BroadcastAppend, AppendEntry, Advances, OnlySends, CanSend, CanCommit, Fresh;
    var a := AppendEntry(AssumeLeadership(s), Noop, []);
    var t := MaybeCommit(a);
    var u := BroadcastAppend(t);
    FreshLeader(s);
    FreshEnd(s, a);
    CountAdvances(a);
    Broadcasts(t);
    SameKeys(t, u);
    if t.role == Leader {
      AdvancesFrame(a, t);
    }
  }

  lemma FreshEnd(s: NodeState, a: NodeState)
    requires Fresh(s, a)
    ensures a.role == Leader && a.log.LastTerm() == a.term
  {
  }

  lemma CampaignOwn(s: NodeState, force: bool)
    requires s.role != Leader
    ensures OwnEnd(Campaign(s, force)) && (Campaign(s, force).role != s.role ==> Promotable(s))
  {
    hide HasQuorum, BecomeLeader, TimeoutOf, RequestVotes;
    if Promotable(s) {
      var t := CastVote(BecomeCandidate(s), s.p.id, true);
      ReignBeginsOwn(t);
      AskingKeepsRole(t, t.conf.config.voters, t.term, false, force);
    }
  }

  lemma {:induction false} AskingKeepsRole(s: NodeState, voters: seq<nat>, term: nat, pre: bool, force: bool)
    ensures RequestVotes(s, voters, term, pre, force).role == s.role
  {
    if voters != [] {
      AskingKeepsRole(s, voters[..|voters| - 1], term, pre, force);
    }
  }

  lemma PreCampaignOwn(s: NodeState, force: bool)
    requires s.role != Leader
    ensures OwnEnd(PreCampaign(s, force)) && (PreCampaign(s, force).role != s.role ==> Promotable(s))
  {
    hide HasQuorum, Campaign, TimeoutOf, RequestVotes;
    if Promotable(s) {
      var t := CastVote(BecomePreCandidate(s), s.p.id, true);
      CampaignOwn(t, force);
      AskingKeepsRole(t, t.conf.config.voters, t.term + 1, true, force);
    }
  }

  /** No message that a node which does not lead takes makes a leader of it without an entry of its own. */
  lemma DispatchOwn(s: NodeState, m: Message)
    requires s.role != Leader
    ensures OwnEnd(Dispatch(s, m)) && (s.role == Follower && Dispatch(s, m).role != Follower ==> Promotable(s))
  {
    hide HandleApp, HandleVoteResp, HandleVote, HandleAppResp, HandleSnapResp, InstallSnapshot, Campaign;
    match m
    case Vote(_, _, _, _, _, _, _) => VoteKeepsRole(s, m);
    case VoteResp(_, _, _, _, _, _) => VoteRespOwn(s, m);
    case App(_, _, _, _, _, _, _) => AppFollows(s, m);
    case AppResp(_, _, _, _, _, _, _) => assert HandleAppResp(s, m) == s by { FollowerIgnores(s, m); }
    case Snap(_, _, _, _) => SnapFollows(s, m);
    case SnapResp(_, _, _, _) => assert HandleSnapResp(s, m) == s by { FollowerIgnores(s, m); }
    case TimeoutNow(_, _, _) => CampaignOwn(s, true);
  }

  lemma FollowerIgnores(s: NodeState, m: Message)
    requires s.role != Leader
    ensures m.AppResp? ==> HandleAppResp(s, m) == s
    ensures m.SnapResp? ==> HandleSnapResp(s, m) == s
  {
  }

  lemma VoteKeepsRole(s: NodeState, m: Message)
    requires m.Vote?
    ensures HandleVote(s, m).role == s.role
  {
  }

  lemma VoteRespOwn(s: NodeState, m: Message)
    requires m.VoteResp? && s.role != Leader
    ensures OwnEnd(HandleVoteResp(s, m)) && (s.role == Follower ==> HandleVoteResp(s, m) == s)
  {
    hide HasQuorum, Campaign, BecomeLeader, TimeoutOf;
    CampaignOwn(CastVote(s, m.from, true), m.force);
    ReignBeginsOwn(CastVote(s, m.from, m.granted));
  }

  lemma SnapFollows(s: NodeState, m: Message)
    requires m.Snap?
    ensures InstallSnapshot(s, m).role == Follower
  {
    hide PruneConf, TimeoutOf, Log.Compact, InitConf, ApplyCommitted;
    var s1 := FollowLeader(s, m.term, m.from);
    if m.snapshot.Some? {
      AppliedFrame(s1, m.snapshot.value.index);
    }
  }

  lemma AppFollows(s: NodeState, m: Message)
    requires m.App? && s.role != Leader
    ensures HandleApp(s, m).role == Follower
  {
    hide AcceptEntries, TimeoutOf, Log.FirstIndexOfTerm, ApplyCommitted;
    var s1 := FollowLeader(s, m.term, m.from);
    var skip := if m.prevLogIndex < s1.log.snapIndex then s1.log.snapIndex - m.prevLogIndex else 0;
    if skip <= |m.entries| {
      AcceptSends(s1, m.entries[skip..]);
      AppliedFrame(AcceptEntries(s1, m.entries[skip..]), m.commit);
      AppliedFrame(AcceptEntries(s1, m.entries[skip..]), m.prevLogIndex + |m.entries|);
    }
  }

  lemma ReceiveOwn(s: NodeState, m: Message)
    requires s.role != Leader || m.term > s.term
    ensures (s.role == Leader && DoReceive(s, m).term == s.term) || OwnEnd(DoReceive(s, m))
    ensures s.role == Follower && DoReceive(s, m).role != Follower ==> Promotable(s)
  {
    hide Dispatch, TimeoutOf;
    if s.role != Leader {
      DispatchOwn(s, m);
    } else {
      LeaderHolds(s, m);
    }
    DispatchOwn(BecomeFollower(s, m.term, NONE), m);
    DispatchOwn(BecomeFollower(s, m.term, m.from), m);
  }

  /** What a leader takes without stepping down leaves its term. */
  lemma LeaderHolds(s: NodeState, m: Message)
    requires s.role == Leader
    ensures m.Vote? || m.VoteResp? ==> Dispatch(s, m).term == s.term && Dispatch(s, m).role == Leader
  {
  }

  lemma CommitKeepsTerm(s: NodeState)
    ensures CommitAndBroadcast(s).term == s.term
  {
    hide MaybeCommit, BroadcastAppend, OnlySends;
    var t := MaybeCommit(s);
    CountKeepsTerm(s);
    Broadcasts(t);
    SameKeys(t, BroadcastAppend(t));
  }

  lemma CountKeepsTerm(s: NodeState)
    ensures MaybeCommit(s).term == s.term
  {
    hide MedianMatch, BroadcastAppend, TimeoutOf, OnlySends;
    if s.role == Leader && MedianMatch(s).Some? {
      var u := ApplyCommitted(s.(commitIndex := MedianMatch(s).value));
      Broadcasts(u);
      SameKeys(u, BroadcastAppend(u));
    }
  }

  lemma AppendKeepsTerm(s: NodeState, typ: EntryType, data: seq<byte>)
    ensures AppendEntry(s, typ, data).term == s.term
  {
    hide DecodeConfig;
  }

  lemma SendKeepsTerm(s: NodeState, to: nat)
    ensures SendAppend(s, to).term == s.term
  {
    hide SendAppend, OnlySends;
    SendsNext(s, to);
    SameKeys(s, SendAppend(s, to));
  }

  /** Only a message can take a leader out of its term. */
  lemma LeaderKeepsTerm(s: NodeState, i: Input)
    requires s.role == Leader && !i.Receive?
    ensures Step(s, i).term == s.term
  {
    hide CommitAndBroadcast, AppendEntry, SendAppend, BroadcastAppend, EncodeConfig, WithoutVoter, TimeoutOf, PruneConf,
         Log.Compact, ConfigAt, ReplicationTargets, ForgetActivity, QuorumActive, OnlySends;
    Handled(s, i);
    var b := Begin(s);
    match i
    case Tick => TickKeepsTerm(b);
    case Propose(data) =>
      var a := AppendEntry(b, Normal, data);
      AppendKeepsTerm(b, Normal, data);
      CommitKeepsTerm(Reply(a, ProposeReply(true, a.log.LastIndex(), a.term, 0)));
    case ProposeConfChange(ch) => ChangeKeepsTerm(b, ch);
    case TransferLeadership(target) =>
      var t := b.(transferee := target, clock := b.clock.(transferElapsed := 0));
      SendKeepsTerm(Reply(t, ProposeReply(true, 0, b.term, 0)), target);
    case CreateSnapshot(index, data) =>
  }

  lemma TickKeepsTerm(s: NodeState)
    requires s.role == Leader
    ensures DoTick(s).term == s.term
  {
    hide BroadcastAppend, ReplicationTargets, ForgetActivity, QuorumActive, OnlySends, TimeoutOf;
    var s1 := s.(clock := s.clock.(heartbeatElapsed := s.clock.heartbeatElapsed + 1,
                                   quorumElapsed := s.clock.quorumElapsed + 1));
    var s2 := TickTransfer(s1);
    var s3 := s2.(clock := s2.clock.(quorumElapsed := 0));
    BeatKeepsTerm(s2);
    BeatKeepsTerm(s3.(prs := ForgetActivity(s3.prs, ReplicationTargets(s3))));
  }

  lemma BeatKeepsTerm(s: NodeState)
    ensures Heartbeat(s).term == s.term
  {
    hide BroadcastAppend, OnlySends;
    var t := s.(clock := s.clock.(heartbeatElapsed := 0));
    Broadcasts(t);
    SameKeys(t, BroadcastAppend(t));
  }

  lemma ChangeKeepsTerm(s: NodeState, ch: ConfChange)
    ensures DoProposeConfChange(s, ch).term == s.term
  {
    hide CommitAndBroadcast, AppendEntry, SendAppend, EncodeConfig, WithoutVoter;
    match ch
    case AddServer(id) =>
      var s1 := s.(learner := id, prs := s.prs[id := Progress(s.log.LastIndex() + 1, 0, false, false)]);
      SendKeepsTerm(Reply(s1, ProposeReply(true, 0, s1.term, 0)), id);
    case RemoveServer(id) =>
      var data := EncodeConfig(Config(WithoutVoter(s.conf.config.voters, id)));
      var s1 := AppendEntry(s, Conf, data);
      var s2 := if id != s1.p.id then s1.(prs := s1.prs - {id}) else s1;
      AppendKeepsTerm(s, Conf, data);
      CommitKeepsTerm(Reply(s2, ProposeReply(true, s2.log.LastIndex(), s2.term, 0)));
  }

  /**
   * One Step on any input: whoever comes to lead a term begins with an entry of that term at the end of its log, and only
   * a server that is one of the voters comes to stand.
   */
  lemma StepCrowns(s: NodeState, i: Input)
    ensures var t := Step(s, i);
      && (t.role == Leader && !(s.role == Leader && s.term == t.term) ==> t.log.LastTerm() == t.term)
      && (s.role == Follower && t.role != Follower ==> s.p.id in s.conf.config.voters)
  {
    hide Step, Handle, DoReceive;
    Handled(s, i);
    if i.Receive? {
      CrownsBy(Begin(s), i.msg);
      HandledReceive(s, i.msg);
    } else if s.role == Leader {
      LeaderKeepsTerm(s, i);
    } else {
      OthersIdle(Begin(s), i);
    }
  }

  lemma HandledReceive(s: NodeState, m: Message)
    ensures Handle(Begin(s), Receive(m)) == DoReceive(Begin(s), m)
  {
    hide DoReceive;
  }

  lemma CrownsBy(s: NodeState, m: Message)
    ensures var t := DoReceive(s, m);
      && (t.role == Leader && !(s.role == Leader && s.term == t.term) ==> t.log.LastTerm() == t.term)
      && (s.role == Follower && t.role != Follower ==> s.p.id in s.conf.config.voters)
  {
    hide DoReceive;
    if s.role != Leader || m.term > s.term {
      ReceiveOwn(s, m);
    } else {
      LeaderReceives(s, m);
    }
  }

  lemma LeaderReceives(s: NodeState, m: Message)
    requires s.role == Leader && m.term <= s.term
    ensures DoReceive(s, m).role == Leader ==> DoReceive(s, m).term == s.term
  {
    hide HandleAppResp, HandleSnapResp, InstallSnapshot, HandleApp, HandleVote;
    if m.term == s.term {
      LeaderHolds(s, m);
      match m
      case App(_, _, _, _, _, _, _) => assert HandleApp(s, m) == s by { LeaderSkips(s, m); }
      case AppResp(_, _, _, _, _, _, _) => AnswerKeepsTerm(s, m);
      case Snap(_, _, _, _) => SnapFollows(s, m);
      case SnapResp(_, _, _, _) => AnswerKeepsTerm(s, m);
      case _ =>
    }
  }

  lemma LeaderSkips(s: NodeState, m: Message)
    requires s.role == Leader && m.App?
    ensures HandleApp(s, m) == s
  {
  }

  lemma AnswerKeepsTerm(s: NodeState, m: Message)
    ensures m.AppResp? ==> HandleAppResp(s, m).term == s.term
    ensures m.SnapResp? ==> HandleSnapResp(s, m).term == s.term
  {
    hide MaybeCommit, AfterProgress, SetMatch, BackupNext, SendAppend;
    if (m.AppResp? || m.SnapResp?) && m.from in s.prs {
      var pr := SetMatch(s.prs[m.from], m.matchIndex);
      var b := MaybeCommit(s.(prs := s.prs[m.from := pr]));
      CountKeepsTerm(s.(prs := s.prs[m.from := pr]));
      AfterKeepsTerm(b, m.from, pr.next);
      AfterKeepsTerm(Send(b, TimeoutNow(b.p.id, m.from, b.term)), m.from, pr.next);
      if m.AppResp? {
        var next := BackupNext(s.log, s.prs[m.from], m.conflictIndex, m.conflictTerm);
        SendKeepsTerm(s.(prs := s.prs[m.from := s.prs[m.from].(recentActive := true, next := next)]), m.from);
      }
    }
  }

  lemma AfterKeepsTerm(s: NodeState, from: nat, next: nat)
    ensures AfterProgress(s, from, next).term == s.term
  {
    hide CommitAndBroadcast, AppendEntry, SendAppend, EncodeConfig, InsertSorted;
    var data := EncodeConfig(Config(InsertSorted(s.conf.config.voters, from)));
    AppendKeepsTerm(s.(learner := NONE), Conf, data);
    CommitKeepsTerm(AppendEntry(s.(learner := NONE), Conf, data));
    SendKeepsTerm(MaybePromoteLearner(s, from), from);
  }

  lemma OthersIdle(s: NodeState, i: Input)
    requires s.role != Leader && !i.Receive?
    ensures OwnEnd(Handle(s, i)) && (s.role == Follower && Handle(s, i).role != Follower ==> Promotable(s))
  {
    hide PreCampaign, Campaign, PruneConf, Log.Compact, ConfigAt;
    if i.Tick? {
      var t := s.(clock := s.clock.(electionElapsed := s.clock.electionElapsed + 1));
      CampaignOwn(t, false);
      PreCampaignOwn(t, false);
    }
  }

  // ---- At the start

  /** A node starts as a follower that knows no leader, under the term and vote it has saved, with a full new timer. */
  lemma NodeStarts(p: Params, voters: seq<nat>, r: Restore)
    ensures var s := NewNode(p, voters, r);
      && s.role == Follower && s.leaderID == NONE && s.term == r.hardState.term && s.votedFor == r.hardState.votedFor
      && s.votes == map[] && s.prs == map[] && s.learner == NONE && s.transferee == NONE && s.out == EMPTY_OUTPUT
      && s.clock.electionElapsed == 0 && p.et <= s.clock.randTimeout < 2 * p.et
      && s.p == p.(maxBatch := if p.maxBatch == 0 then 64 else p.maxBatch)
  {
    hide AppendAll, TimeoutOf;
    var s0 := Blank(p, voters, r.hardState);
    var s1 := if r.snapshot.Some? then LoadSnapshot(s0, r.snapshot.value) else s0;
    var s2 := AppendAll(s1, r.entries);
    AppendAllSends(s1, r.entries);
    TimeoutRange(s2.p, s2.clock.drawn);
  }

  // ---- In runs

  /** In every run a leader is one of the voters, and its log ends with an entry of its own term. */
  lemma {:induction false} LeaderFounded(voters: seq<nat>, r: Run, k: nat, a: nat)
    requires NoDuplicates(voters) && Valid(voters, r) && k < |r.states| && Alive(r.states[k], a)
    ensures NodeOf(r.states[k], a).role != Follower ==> a in voters
    ensures OwnEnd(NodeOf(r.states[k], a))
    decreases k
  {
    hide Step, NewNode, Offers, Fsync;
    if k == 0 {
      NodeStarts(NodeOf(r.states[0], a).p, voters, Load(EMPTY_DISK));
    } else {
      var c, act := r.states[k - 1], r.actions[k - 1];
      assert Next(voters, c, act, r.states[k - 1 + 1]);
      match act
      case StepAt(id, i) =>
        LeaderFounded(voters, r, k - 1, a);
        if id == a {
          FoundedNext(voters, r, k - 1, a, i);
        }
      case Restart(id, p) =>
        if id == a {
          NodeStarts(p, voters, Load(c.servers[id].disk));
        } else {
          LeaderFounded(voters, r, k - 1, a);
        }
      case _ => LeaderFounded(voters, r, k - 1, a);
    }
  }

  lemma FoundedNext(voters: seq<nat>, r: Run, k: nat, a: nat, i: Input)
    requires NoDuplicates(voters) && Valid(voters, r) && k + 1 < |r.states| && Alive(r.states[k], a)
    requires Alive(r.states[k + 1], a) && NodeOf(r.states[k + 1], a) == Step(NodeOf(r.states[k], a), i)
    requires OwnEnd(NodeOf(r.states[k], a)) && (NodeOf(r.states[k], a).role != Follower ==> a in voters)
    ensures NodeOf(r.states[k + 1], a).role != Follower ==> a in voters
    ensures OwnEnd(NodeOf(r.states[k + 1], a))
  {
    hide Valid, ClusterInv, Step, NodeInv, TermLogs, LogInv, Full;
    var hs := RunExplained(voters, r);
    var s, t := NodeOf(r.states[k], a), NodeOf(r.states[k + 1], a);
    LiveIsView(hs[k], r.states[k], a);
    StepCrowns(s, i);
    FixedVoters(hs[k], s);
    if t.role == Leader && s.role == Leader && s.term == t.term {
      LeaderOf(hs[k], r.states[k], a, s.term);
      LeaderOf(hs[k + 1], r.states[k + 1], a, s.term);
      LiveIsView(hs[k + 1], r.states[k + 1], a);
      FixedVoters(hs[k + 1], t);
      assert Ext(hs[k], hs[k + 1]);
      EndStays(hs[k], hs[k + 1], s, t);
    }
  }

  lemma FixedVoters(gh: Ghost, s: NodeState)
    requires NodeInv(gh, s)
    ensures s.conf.config.voters == gh.voters && s.log.LastTerm() <= s.term
    ensures s.log.snapIndex > 0 ==> s.snapshot.Some? && s.snapshot.value.index == s.log.snapIndex
  {
    hide LogInv, Full, Owes, IsCommitted;
  }

  /** The log of a reign only grows, and its terms rise. */
  lemma EndStays(gh: Ghost, gh': Ghost, s: NodeState, t: NodeState)
    requires Ext(gh, gh') && TermLogs(gh'.tlog) && t.term == s.term && s.log.LastTerm() == s.term
    requires s.term in gh.tlog && LogInv(gh.tlog, s.log) && Full(gh.tlog, s.log) == gh.tlog[s.term]
    requires s.term in gh'.tlog && LogInv(gh'.tlog, t.log) && Full(gh'.tlog, t.log) == gh'.tlog[t.term]
    requires t.log.LastTerm() <= t.term
    ensures t.log.LastTerm() == t.term
  {
    hide LogInv, Full, TermLogs, Agree, TermAt;
    GrowsAgree(gh.tlog[s.term], gh'.tlog[s.term], s.term);
    AgreeBounds(gh'.tlog[s.term], gh.tlog[s.term], s.log.LastIndex());
    SameTermAt(gh'.tlog[s.term], gh.tlog[s.term], s.log.LastIndex());
    TermInFull(gh.tlog, s.log, s.log.LastIndex());
    LastShown(s.log);
    TermsRise(gh'.tlog, t.log, s.log.LastIndex(), t.log.LastIndex());
    TermInFull(gh'.tlog, t.log, t.log.LastIndex());
    LastShown(t.log);
  }

  lemma LastShown(l: Log)
    ensures l.Term(l.LastIndex()) == Some(l.LastTerm())
  {
  }
}
