/** How a leader commits: by majority, and only through an entry of its own term. */
module CommitRule {
  import opened RaftTypes
  import opened LogSpec
  import opened ConfSpec
  import opened NodeSpec
  import opened Ghosts
  import opened SafetyInv
  import opened SafetyLogs
  import opened DiskRefinement
  import opened Storage
  import opened Cluster
  import opened ClusterSafety
  import opened ClusterTheorems
  import opened Membership
  import FastBackup
  import Voting

  /** n is the largest index recorded on a majority of the node's voters, and its entry is of the node's term. */
  ghost predicate MajorityHas(s: NodeState, n: nat) {
    && s.log.Term(n) == Some(s.term)
    && IsQuorumValue(Matches(s.conf.config.voters, s.p.id, s.log.LastIndex(), s.prs), s.conf.config.Quorum(), n)
  }

  /** The commit index is where it was, or has moved forward by the rule. */
  ghost predicate Ruled(s: NodeState, t: NodeState) {
    t.commitIndex == s.commitIndex || (t.commitIndex > s.commitIndex && MajorityHas(t, t.commitIndex))
  }

  /** What the rule looks at has not changed. */
  ghost predicate SameGround(s: NodeState, t: NodeState) {
    && t.commitIndex == s.commitIndex && t.log == s.log && t.conf == s.conf && t.p == s.p && t.term == s.term
    && t.prs.Keys == s.prs.Keys && forall v :: v in s.prs ==> t.prs[v].matched == s.prs[v].matched
  }

  lemma {:induction false} SameMatches(voters: seq<nat>, id: nat, last: nat, a: map<nat, Progress>, b: map<nat, Progress>)
    requires a.Keys == b.Keys && forall v :: v in a ==> b[v].matched == a[v].matched
    ensures Matches(voters, id, last, a) == Matches(voters, id, last, b)
  {
    if voters != [] {
      SameMatches(voters[..|voters| - 1], id, last, a, b);
    }
  }

  /** What only sends afterwards does not undo the rule. */
  lemma RuledStays(s: NodeState, t: NodeState, u: NodeState)
    requires Ruled(s, t) && SameGround(t, u)
    ensures Ruled(s, u)
  {
    hide Matches, IsQuorumValue;
    SameMatches(t.conf.config.voters, t.p.id, t.log.LastIndex(), t.prs, u.prs);
  }

  lemma SendKeepsGround(s: NodeState, to: nat)
    ensures SameGround(s, SendAppend(s, to)) && SendAppend(s, to).role == s.role
    ensures SendAppend(s, to).learner == s.learner
  {
    hide Log.Slice;
  }

  lemma GroundTrans(s: NodeState, t: NodeState, u: NodeState)
    requires SameGround(s, t) && SameGround(t, u)
    ensures SameGround(s, u)
  {
  }

  lemma {:induction false} SendAllKeepsGround(s: NodeState, targets: seq<nat>)
    ensures SameGround(s, SendAppendAll(s, targets)) && SendAppendAll(s, targets).role == s.role
    ensures SendAppendAll(s, targets).learner == s.learner
  {
    hide SendAppend, SameGround;
    if targets == [] {
      GroundSelf(s);
    } else {
      var t := SendAppendAll(s, targets[..|targets| - 1]);
      SendAllKeepsGround(s, targets[..|targets| - 1]);
      SendKeepsGround(t, targets[|targets| - 1]);
      GroundTrans(s, t, SendAppendAll(s, targets));
    }
  }

  lemma GroundSelf(s: NodeState)
    ensures SameGround(s, s)
  {
  }

  /** Counting the matches of a leader commits by the rule. */
  lemma MaybeCommitRuled(s: NodeState)
    requires MaybeCommit(s).role == Leader
    ensures Ruled(s, MaybeCommit(s)) && MaybeCommit(s).learner == s.learner && MaybeCommit(s).log == s.log
  {
    hide SortDesc, Matches, IsQuorumValue, SameGround, BroadcastAppend;
    if MedianMatch(s).Some? {
      var n := MedianMatch(s).value;
      MedianIsQuorumValue(Matches(s.conf.config.voters, s.p.id, s.log.LastIndex(), s.prs), s.conf.config.Quorum());
      if n > s.commitIndex && s.log.Term(n) == Some(s.term) {
        var t := AfterCommit(ApplyCommitted(s.(commitIndex := n)));
        BroadcastKeepsGround(t);
        RuledStays(s, t, BroadcastAppend(t));
        GroundLog(t, BroadcastAppend(t));
      }
    }
  }

  lemma GroundLog(s: NodeState, t: NodeState)
    requires SameGround(s, t)
    ensures t.log == s.log
  {
  }

  lemma BroadcastKeepsGround(s: NodeState)
    ensures SameGround(s, BroadcastAppend(s)) && BroadcastAppend(s).role == s.role
    ensures BroadcastAppend(s).learner == s.learner
  {
    SendAllKeepsGround(s, ReplicationTargets(s));
  }

  lemma CommitAndBroadcastRuled(s: NodeState)
    requires CommitAndBroadcast(s).role == Leader
    ensures Ruled(s, CommitAndBroadcast(s))
  {
    hide MaybeCommit, BroadcastAppend, Ruled, SameGround;
    var t := MaybeCommit(s);
    BroadcastKeepsGround(t);
    MaybeCommitRuled(s);
    RuledStays(s, t, BroadcastAppend(t));
  }

  /** The start of the count does not matter as long as it had the same commit index. */
  lemma RuledFrom(s: NodeState, s1: NodeState, t: NodeState)
    requires Ruled(s1, t) && s1.commitIndex == s.commitIndex
    ensures Ruled(s, t)
  {
    hide MajorityHas;
  }

  lemma AfterProgressRuled(s: NodeState, t: NodeState, from: nat, next: nat)
    requires Ruled(s, t) && t.learner == NONE
    ensures Ruled(s, AfterProgress(t, from, next))
  {
    hide SendAppend, Ruled, SameGround;
    SendKeepsGround(t, from);
    RuledStays(s, t, SendAppend(t, from));
  }

  /** Progress was made: count, tell a transfer's target, send what remains. */
  lemma ProgressRuled(s: NodeState, from: nat, pr: Progress)
    requires s.role == Leader && s.learner == NONE
    ensures var t := MaybeCommit(s.(prs := s.prs[from := pr]));
      t.role == Leader ==>
        Ruled(s, AfterProgress(t, from, pr.next))
        && Ruled(s, AfterProgress(Send(t, TimeoutNow(t.p.id, from, t.term)), from, pr.next))
  {
    hide MaybeCommit, Ruled, SameGround, AfterProgress;
    var s1 := s.(prs := s.prs[from := pr]);
    var t := MaybeCommit(s1);
    if t.role == Leader {
      MaybeCommitRuled(s1);
      RuledFrom(s, s1, t);
      AfterProgressRuled(s, t, from, pr.next);
      var u := Send(t, TimeoutNow(t.p.id, from, t.term));
      SentKeepsGround(t, u);
      RuledStays(s, t, u);
      AfterProgressRuled(s, u, from, pr.next);
    }
  }

  lemma SentKeepsGround(s: NodeState, t: NodeState)
    requires t == s.(out := t.out)
    ensures SameGround(s, t)
  {
  }

  lemma AppRespRuled(s: NodeState, m: Message)
    requires m.AppResp? && s.role == Leader && HandleAppResp(s, m).role == Leader && s.learner == NONE
    ensures Ruled(s, HandleAppResp(s, m))
  {
    hide MaybeCommit, AfterProgress, SetMatch, BackupNext, SendAppend, MajorityHas;
    if m.term == s.term && m.from in s.prs {
      if m.success {
        ProgressRuled(s, m.from, SetMatch(s.prs[m.from], m.matchIndex));
      } else {
        var pr := s.prs[m.from].(recentActive := true,
            next := BackupNext(s.log, s.prs[m.from], m.conflictIndex, m.conflictTerm));
        SendKeepsGround(s.(prs := s.prs[m.from := pr]), m.from);
      }
    }
  }

  lemma SnapRespRuled(s: NodeState, m: Message)
    requires m.SnapResp? && s.role == Leader && HandleSnapResp(s, m).role == Leader && s.learner == NONE
    ensures Ruled(s, HandleSnapResp(s, m))
  {
    hide MaybeCommit, AfterProgress, SetMatch, MajorityHas;
    if m.term == s.term && m.from in s.prs {
      ProgressRuled(s, m.from, SetMatch(s.prs[m.from], m.matchIndex));
    }
  }

  lemma ReceiveRuled(s: NodeState, m: Message)
    requires StaysLeader(s, DoReceive(s, m)) && !DoReceive(s, m).panicked && s.learner == NONE
    ensures Ruled(s, DoReceive(s, m))
  {
    hide HandleVote, HandleAppResp, HandleSnapResp, InstallSnapshot, MajorityHas;
    if m.to == s.p.id && m.term != s.term {
      OtherTermKeepsConf(s, m);
    } else if m.to == s.p.id {
      match m
      case AppResp(_, _, _, _, _, _, _) => AppRespRuled(s, m);
      case SnapResp(_, _, _, _) => SnapRespRuled(s, m);
      case Vote(_, _, _, _, _, _, _) => VoteKeepsConf(s, m);
      case Snap(_, _, _, _) => SnapEndsReign(s, m);
      case _ =>
    }
  }

  lemma HeartbeatKeepsCommit(s: NodeState)
    ensures Heartbeat(s).commitIndex == s.commitIndex
  {
    hide BroadcastAppend;
    BroadcastKeepsGround(s.(clock := s.clock.(heartbeatElapsed := 0)));
  }

  lemma TickKeepsCommit(s: NodeState)
    requires s.role == Leader
    ensures DoTick(s).commitIndex == s.commitIndex
  {
    hide Heartbeat, QuorumActive, ReplicationTargets, ForgetActivity, TimeoutOf;
    var s1 := s.(clock := s.clock.(heartbeatElapsed := s.clock.heartbeatElapsed + 1,
                                   quorumElapsed := s.clock.quorumElapsed + 1));
    var s2 := TickTransfer(s1);
    HeartbeatKeepsCommit(s2);
    var s3 := s2.(clock := s2.clock.(quorumElapsed := 0));
    HeartbeatKeepsCommit(s3.(prs := ForgetActivity(s3.prs, ReplicationTargets(s3))));
  }

  lemma AppendKeepsCommit(s: NodeState, typ: EntryType, data: seq<byte>)
    ensures AppendEntry(s, typ, data).commitIndex == s.commitIndex
  {
    hide DecodeConfig;
  }

  lemma ProposeRuled(s: NodeState, data: seq<byte>)
    requires DoPropose(s, data).role == Leader
    ensures Ruled(s, DoPropose(s, data))
  {
    hide AppendEntry, CommitAndBroadcast, MajorityHas;
    if s.role == Leader && s.transferee == NONE {
      var s1 := AppendEntry(s, Normal, data);
      var s2 := Reply(s1, ProposeReply(true, s1.log.LastIndex(), s1.term, 0));
      AppendKeepsCommit(s, Normal, data);
      CommitAndBroadcastRuled(s2);
      RuledFrom(s, s2, CommitAndBroadcast(s2));
    }
  }

  lemma ChangeRuled(s: NodeState, ch: ConfChange)
    requires DoProposeConfChange(s, ch).role == Leader
    ensures Ruled(s, DoProposeConfChange(s, ch))
  {
    hide DoRemoveServer, SendAppend, MajorityHas;
    match ch
    case AddServer(id) =>
      var s1 := s.(learner := id, prs := s.prs[id := Progress(s.log.LastIndex() + 1, 0, false, false)]);
      SendKeepsGround(Reply(s1, ProposeReply(true, 0, s1.term, 0)), id);
    case RemoveServer(id) =>
      if DoRemoveServer(s, id).role == Leader {
        RemoveRuled(s, id);
      }
  }

  lemma RemoveRuled(s: NodeState, id: nat)
    requires DoRemoveServer(s, id).role == Leader
    ensures Ruled(s, DoRemoveServer(s, id))
  {
    hide AppendEntry, CommitAndBroadcast, EncodeConfig, WithoutVoter, MajorityHas;
    if s.conf.config.Contains(id) && |s.conf.config.voters| != 1 {
      var data := EncodeConfig(Config(WithoutVoter(s.conf.config.voters, id)));
      var s1 := AppendEntry(s, Conf, data);
      var s2 := if id != s1.p.id then s1.(prs := s1.prs - {id}) else s1;
      var s3 := Reply(s2, ProposeReply(true, s2.log.LastIndex(), s2.term, 0));
      AppendKeepsCommit(s, Conf, data);
      CommitAndBroadcastRuled(s3);
      RuledFrom(s, s3, CommitAndBroadcast(s3));
    }
  }

  lemma TransferKeepsCommit(s: NodeState, target: nat)
    ensures DoTransfer(s, target).commitIndex == s.commitIndex
  {
    hide SendAppend;
    var t := s.(transferee := target, clock := s.clock.(transferElapsed := 0));
    SendKeepsGround(Reply(t, ProposeReply(true, 0, s.term, 0)), target);
  }

  /**
   * One Step on any input that leaves a leader without a learner in its term: its commit index stays, or moves forward to
   * the largest index recorded on a majority of its voters, an entry of its own term.
   */
  lemma StepRuled(s: NodeState, i: Input)
    requires StaysLeader(s, Step(s, i)) && s.learner == NONE && !Step(s, i).panicked
    ensures Ruled(s, Step(s, i))
  {
    hide Step, Handle, MajorityHas, SameGround;
    FastBackup.Handled(s, i);
    var b := Begin(s);
    HandleRuled(b, i);
    RuledFrom(s, b, Handle(b, i));
    SentKeepsGround(Handle(b, i), Step(s, i));
    RuledStays(s, Handle(b, i), Step(s, i));
  }

  lemma HandleRuled(s: NodeState, i: Input)
    requires StaysLeader(s, Handle(s, i)) && s.learner == NONE && !Handle(s, i).panicked
    ensures Ruled(s, Handle(s, i))
  {
    hide DoTick, DoReceive, DoPropose, DoProposeConfChange, DoTransfer, MajorityHas, Log.Compact, PruneConf, ConfigAt;
    match i
    case Tick => TickKeepsCommit(s);
    case Receive(m) => ReceiveRuled(s, m);
    case Propose(data) => ProposeRuled(s, data);
    case ProposeConfChange(ch) => ChangeRuled(s, ch);
    case TransferLeadership(target) => TransferKeepsCommit(s, target);
    case CreateSnapshot(index, data) =>
  }

  /** In every run, an event that leaves a leader in its term moves its commit index by the rule, if at all. */
  lemma CommitsByRule(voters: seq<nat>, r: Run, k: nat)
    requires NoDuplicates(voters) && Valid(voters, r) && k < |r.actions| && r.actions[k].StepAt?
    requires var id := r.actions[k].id;
      Alive(r.states[k], id) && Alive(r.states[k + 1], id)
      && StaysLeader(NodeOf(r.states[k], id), NodeOf(r.states[k + 1], id))
    ensures Ruled(NodeOf(r.states[k], r.actions[k].id), NodeOf(r.states[k + 1], r.actions[k].id))
  {
    hide Init, Step, Ruled, ClusterInv, NodeInv, TermLogs;
    var hs := RunExplained(voters, r);
    var c, id, i := r.states[k], r.actions[k].id, r.actions[k].input;
    assert Next(voters, c, r.actions[k], r.states[k + 1]);
    LiveIsView(hs[k], c, id);
    LiveIsView(hs[k + 1], r.states[k + 1], id);
    NoLearner(hs[k], NodeOf(c, id));
    NotPanicked(hs[k + 1], NodeOf(r.states[k + 1], id));
    StepRuled(NodeOf(c, id), i);
  }

  // ---- Nothing that could be committed is left uncommitted

  /** A leader has committed all that the rule lets it commit. */
  ghost predicate Current(s: NodeState) {
    s.role == Leader ==> forall n: nat :: n > s.commitIndex ==> !MajorityHas(s, n)
  }

  /** Once a panic is flagged nothing more is claimed. */
  ghost predicate StaysCurrent(s: NodeState) {
    s.panicked || Current(s)
  }

  lemma CurrentStays(s: NodeState, t: NodeState)
    requires StaysCurrent(s) && SameGround(s, t) && (s.panicked ==> t.panicked) && (t.role == Leader ==> s.role == Leader)
    ensures StaysCurrent(t)
  {
    hide Matches, IsQuorumValue;
    SameMatches(s.conf.config.voters, s.p.id, s.log.LastIndex(), s.prs, t.prs);
    if !t.panicked && t.role == Leader {
      forall n: nat | n > t.commitIndex ensures !MajorityHas(t, n) {
        assert !MajorityHas(s, n);
      }
    }
  }

  /** The largest number that a quorum reaches is one number. */
  lemma OneQuorumValue(a: seq<nat>, q: nat, m: nat, n: nat)
    requires IsQuorumValue(a, q, m) && IsQuorumValue(a, q, n)
    ensures m == n
  {
    hide CountAtLeast;
  }

  lemma MaybeCommitCurrent(s: NodeState)
    ensures StaysCurrent(MaybeCommit(s))
  {
    hide SortDesc, Matches, IsQuorumValue, SameGround, BroadcastAppend, BecomeFollower, Current;
    if s.role == Leader && MedianMatch(s).Some? {
      var n := MedianMatch(s).value;
      MedianIsQuorumValue(Matches(s.conf.config.voters, s.p.id, s.log.LastIndex(), s.prs), s.conf.config.Quorum());
      if n <= s.commitIndex || s.log.Term(n) != Some(s.term) {
        MedianIsAll(s, s, n);
      } else {
        var t := ApplyCommitted(s.(commitIndex := n));
        MedianIsAll(s, t, n);
        StepsDown(t, t.term, NONE);
        if AfterCommit(t).role == Leader {
          BroadcastKeepsGround(t);
          BroadcastPanics(t);
          CurrentStays(t, BroadcastAppend(t));
        } else {
          FollowerCurrent(AfterCommit(t));
        }
      }
    } else if s.role != Leader {
      FollowerCurrent(s);
    }
  }

  lemma MedianIsAll(s: NodeState, t: NodeState, n: nat)
    requires IsQuorumValue(Matches(s.conf.config.voters, s.p.id, s.log.LastIndex(), s.prs), s.conf.config.Quorum(), n)
    requires t.log == s.log && t.conf == s.conf && t.p == s.p && t.term == s.term && t.prs == s.prs
    requires n <= t.commitIndex || s.log.Term(n) != Some(s.term)
    ensures Current(t)
  {
    hide Matches, IsQuorumValue;
    forall x: nat | x > t.commitIndex ensures !MajorityHas(t, x) {
      if MajorityHas(t, x) {
        OneQuorumValue(Matches(s.conf.config.voters, s.p.id, s.log.LastIndex(), s.prs), s.conf.config.Quorum(), n, x);
      }
    }
  }

  lemma FollowerCurrent(s: NodeState)
    requires s.role != Leader
    ensures StaysCurrent(s)
  {
    hide MajorityHas;
  }

  lemma BroadcastPanics(s: NodeState)
    ensures s.panicked ==> BroadcastAppend(s).panicked
  {
    BroadcastVolatile(s);
  }

  lemma BroadcastCurrent(s: NodeState)
    requires StaysCurrent(s)
    ensures StaysCurrent(BroadcastAppend(s))
  {
    hide Current, SameGround;
    BroadcastKeepsGround(s);
    BroadcastPanics(s);
    CurrentStays(s, BroadcastAppend(s));
  }

  lemma CommitAndBroadcastCurrent(s: NodeState)
    ensures StaysCurrent(CommitAndBroadcast(s))
  {
    hide MaybeCommit, BroadcastAppend, StaysCurrent;
    MaybeCommitCurrent(s);
    BroadcastCurrent(MaybeCommit(s));
  }

  lemma SendCurrent(s: NodeState, to: nat)
    requires StaysCurrent(s)
    ensures StaysCurrent(SendAppend(s, to))
  {
    hide Current, SameGround;
    SendKeepsGround(s, to);
    SendAppendVolatile(s, to);
    CurrentStays(s, SendAppend(s, to));
  }

  /** Whatever else a step touches, the ground of the rule is the same. */
  lemma TouchedCurrent(s: NodeState, t: NodeState)
    requires StaysCurrent(s) && t == s.(clock := t.clock, transferee := t.transferee, learner := t.learner,
                                        votedFor := t.votedFor, dirty := t.dirty, out := t.out, prs := t.prs)
    requires t.prs.Keys == s.prs.Keys && forall v :: v in s.prs ==> t.prs[v].matched == s.prs[v].matched
    ensures StaysCurrent(t)
  {
    hide Current;
    CurrentStays(s, t);
  }

  lemma BecomeLeaderCurrent(s: NodeState)
    ensures StaysCurrent(BecomeLeader(s))
  {
    hide AppendEntry, MaybeCommit, BroadcastAppend, AssumeLeadership, StaysCurrent;
    var t := AppendEntry(AssumeLeadership(s), Noop, []);
    MaybeCommitCurrent(t);
    BroadcastCurrent(MaybeCommit(t));
  }

  lemma {:induction false} RequestsKeepRole(s: NodeState, voters: seq<nat>, term: nat, pre: bool, force: bool)
    ensures RequestVotes(s, voters, term, pre, force).role == s.role
  {
    if voters != [] {
      RequestsKeepRole(s, voters[..|voters| - 1], term, pre, force);
    }
  }

  lemma CampaignCurrent(s: NodeState, force: bool)
    requires s.role != Leader
    ensures StaysCurrent(Campaign(s, force))
  {
    hide HasQuorum, BecomeLeader, RequestVotes, Current, TimeoutOf;
    if Promotable(s) {
      var t := CastVote(BecomeCandidate(s), s.p.id, true);
      BecomeLeaderCurrent(t);
      RequestsKeepRole(t, t.conf.config.voters, t.term, false, force);
      FollowerCurrent(RequestVotes(t, t.conf.config.voters, t.term, false, force));
    } else {
      FollowerCurrent(s);
    }
  }

  lemma PreCampaignCurrent(s: NodeState, force: bool)
    requires s.role != Leader
    ensures StaysCurrent(PreCampaign(s, force))
  {
    hide HasQuorum, Campaign, RequestVotes, Current, TimeoutOf;
    if Promotable(s) {
      var t := CastVote(BecomePreCandidate(s), s.p.id, true);
      CampaignCurrent(t, force);
      RequestsKeepRole(t, t.conf.config.voters, t.term + 1, true, force);
      FollowerCurrent(RequestVotes(t, t.conf.config.voters, t.term + 1, true, force));
    } else {
      FollowerCurrent(s);
    }
  }

  lemma VoteRespCurrent(s: NodeState, m: Message)
    requires m.VoteResp? && StaysCurrent(s)
    ensures StaysCurrent(HandleVoteResp(s, m))
  {
    hide HasQuorum, Campaign, BecomeLeader, BecomeFollower, Current;
    if s.role == PreCandidate || s.role == Candidate {
      var t, f, g := CastVote(s, m.from, m.granted), CastVote(s, m.from, false), CastVote(s, m.from, true);
      FollowerCurrent(t);
      FollowerCurrent(f);
      FollowerCurrent(g);
      StepsDown(t, t.term, NONE);
      StepsDown(f, f.term, NONE);
      CampaignCurrent(g, m.force);
      BecomeLeaderCurrent(t);
    }
  }

  lemma StepsDown(s: NodeState, term: nat, leader: nat)
    ensures StaysCurrent(BecomeFollower(s, term, leader)) && BecomeFollower(s, term, leader).role == Follower
  {
    hide Current, TimeoutOf;
    FollowerCurrent(BecomeFollower(s, term, leader));
  }

  lemma AppCurrent(s: NodeState, m: Message)
    requires m.App? && StaysCurrent(s)
    ensures StaysCurrent(HandleApp(s, m))
  {
    hide HandleAppFrom, Current, TimeoutOf;
    if s.role != Leader {
      var s1 := FollowLeader(s, m.term, m.from);
      var skip := if m.prevLogIndex < s1.log.snapIndex then s1.log.snapIndex - m.prevLogIndex else 0;
      FollowerCurrent(RespondApp(s1, m.from, true, s1.log.snapIndex, 0, 0));
      if skip <= |m.entries| {
        FromKeepsRole(s1, m, m.prevLogIndex + skip, m.entries[skip..]);
        FollowerCurrent(HandleAppFrom(s1, m, m.prevLogIndex + skip, m.entries[skip..]));
      }
    }
  }

  lemma FromKeepsRole(s: NodeState, m: Message, prev: nat, ents: seq<Entry>)
    requires m.App? && s.role != Leader
    ensures HandleAppFrom(s, m, prev, ents).role != Leader
  {
    hide AcceptEntries, Log.FirstIndexOfTerm;
    FastBackup.AcceptSends(s, ents);
  }

  lemma PromoteCurrent(s: NodeState, from: nat)
    requires StaysCurrent(s)
    ensures StaysCurrent(MaybePromoteLearner(s, from))
  {
    hide AppendEntry, CommitAndBroadcast, InsertSorted, EncodeConfig, StaysCurrent;
    CommitAndBroadcastCurrent(
      AppendEntry(s.(learner := NONE), Conf, EncodeConfig(Config(InsertSorted(s.conf.config.voters, from)))));
  }

  lemma AfterProgressCurrent(s: NodeState, from: nat, next: nat)
    requires StaysCurrent(s)
    ensures StaysCurrent(AfterProgress(s, from, next))
  {
    hide MaybePromoteLearner, SendAppend, StaysCurrent;
    PromoteCurrent(s, from);
    SendCurrent(MaybePromoteLearner(s, from), from);
  }

  lemma AppRespCurrent(s: NodeState, m: Message)
    requires m.AppResp? && StaysCurrent(s)
    ensures StaysCurrent(HandleAppResp(s, m))
  {
    hide MaybeCommit, AfterProgress, SetMatch, BackupNext, SendAppend, Current;
    if s.role == Leader && m.term == s.term && m.from in s.prs {
      if m.success {
        var pr := SetMatch(s.prs[m.from], m.matchIndex);
        var t := MaybeCommit(s.(prs := s.prs[m.from := pr]));
        MaybeCommitCurrent(s.(prs := s.prs[m.from := pr]));
        var u := Send(t, TimeoutNow(t.p.id, m.from, t.term));
        TouchedCurrent(t, u);
        AfterProgressCurrent(t, m.from, pr.next);
        AfterProgressCurrent(u, m.from, pr.next);
      } else {
        var pr := s.prs[m.from].(recentActive := true,
            next := BackupNext(s.log, s.prs[m.from], m.conflictIndex, m.conflictTerm));
        TouchedCurrent(s, s.(prs := s.prs[m.from := pr]));
        SendCurrent(s.(prs := s.prs[m.from := pr]), m.from);
      }
    }
  }

  lemma SnapRespCurrent(s: NodeState, m: Message)
    requires m.SnapResp? && StaysCurrent(s)
    ensures StaysCurrent(HandleSnapResp(s, m))
  {
    hide MaybeCommit, AfterProgress, SetMatch, Current;
    if s.role == Leader && m.term == s.term && m.from in s.prs {
      var pr := SetMatch(s.prs[m.from], m.matchIndex);
      MaybeCommitCurrent(s.(prs := s.prs[m.from := pr]));
      AfterProgressCurrent(MaybeCommit(s.(prs := s.prs[m.from := pr])), m.from, pr.next);
    }
  }

  lemma VoteCurrent(s: NodeState, m: Message)
    requires m.Vote? && StaysCurrent(s)
    ensures StaysCurrent(HandleVote(s, m))
  {
    hide Current, LogUpToDate, Sticky;
    TouchedCurrent(s, HandleVote(s, m));
  }

  lemma DispatchCurrent(s: NodeState, m: Message)
    requires StaysCurrent(s)
    ensures StaysCurrent(Dispatch(s, m))
  {
    hide HandleVote, HandleVoteResp, HandleApp, HandleAppResp, InstallSnapshot, HandleSnapResp, Campaign, StaysCurrent;
    match m
    case Vote(_, _, _, _, _, _, _) => VoteCurrent(s, m);
    case VoteResp(_, _, _, _, _, _) => VoteRespCurrent(s, m);
    case App(_, _, _, _, _, _, _) => AppCurrent(s, m);
    case AppResp(_, _, _, _, _, _, _) => AppRespCurrent(s, m);
    case Snap(_, _, _, _) =>
      SnapEndsReign(s, m);
      FollowerCurrent(InstallSnapshot(s, m));
    case SnapResp(_, _, _, _) => SnapRespCurrent(s, m);
    case TimeoutNow(_, _, _) =>
      if s.role != Leader {
        CampaignCurrent(s, true);
      }
  }

  lemma ReceiveCurrent(s: NodeState, m: Message)
    requires StaysCurrent(s)
    ensures StaysCurrent(DoReceive(s, m))
  {
    hide Dispatch, BecomeFollower, Current;
    DispatchCurrent(s, m);
    StepsDown(s, m.term, NONE);
    StepsDown(s, m.term, m.from);
    DispatchCurrent(BecomeFollower(s, m.term, NONE), m);
    DispatchCurrent(BecomeFollower(s, m.term, m.from), m);
    TouchedCurrent(s, RespondStale(s, m.from));
    TouchedCurrent(s, Send(s, VoteResp(s.p.id, m.from, s.term, true, false, false)));
    TouchedCurrent(s, Send(s, VoteResp(s.p.id, m.from, s.term, false, false, false)));
  }

  lemma HeartbeatCurrent(s: NodeState)
    requires StaysCurrent(s)
    ensures StaysCurrent(Heartbeat(s))
  {
    hide BroadcastAppend, Current;
    var t := s.(clock := s.clock.(heartbeatElapsed := 0));
    TouchedCurrent(s, t);
    BroadcastCurrent(t);
  }

  lemma TickCurrent(s: NodeState)
    requires StaysCurrent(s)
    ensures StaysCurrent(DoTick(s))
  {
    hide TickLeader, PreCampaign, Campaign, Current;
    if s.role == Leader {
      TickLeaderCurrent(s);
    } else {
      var t := s.(clock := s.clock.(electionElapsed := s.clock.electionElapsed + 1));
      FollowerCurrent(t);
      PreCampaignCurrent(t, false);
      CampaignCurrent(t, false);
    }
  }

  lemma TickLeaderCurrent(s: NodeState)
    requires StaysCurrent(s)
    ensures StaysCurrent(TickLeader(s))
  {
    hide Heartbeat, QuorumActive, ReplicationTargets, BecomeFollower, Current;
    var s1 := s.(clock := s.clock.(heartbeatElapsed := s.clock.heartbeatElapsed + 1,
                                   quorumElapsed := s.clock.quorumElapsed + 1));
    var s2 := TickTransfer(s1);
    TouchedCurrent(s, s2);
    HeartbeatCurrent(s2);
    var s3 := s2.(clock := s2.clock.(quorumElapsed := 0));
    StepsDown(s3, s3.term, NONE);
    var s4 := s3.(prs := ForgetActivity(s3.prs, ReplicationTargets(s3)));
    TouchedCurrent(s2, s4);
    HeartbeatCurrent(s4);
  }

  lemma ProposeCurrent(s: NodeState, data: seq<byte>)
    requires StaysCurrent(s)
    ensures StaysCurrent(DoPropose(s, data))
  {
    hide AppendEntry, CommitAndBroadcast, Current;
    TouchedCurrent(s, Reject(s));
    var s1 := AppendEntry(s, Normal, data);
    CommitAndBroadcastCurrent(Reply(s1, ProposeReply(true, s1.log.LastIndex(), s1.term, 0)));
  }

  lemma ChangeCurrent(s: NodeState, ch: ConfChange)
    requires StaysCurrent(s)
    ensures StaysCurrent(DoProposeConfChange(s, ch))
  {
    hide DoAddServer, DoRemoveServer, Current;
    TouchedCurrent(s, Reject(s));
    AddCurrent(s, ch.id);
    RemoveCurrent(s, ch.id);
  }

  /** Progress for a server that is no voter counts for nothing. */
  lemma AddCurrent(s: NodeState, id: nat)
    requires StaysCurrent(s)
    ensures StaysCurrent(DoAddServer(s, id))
  {
    hide SendAppend, Current;
    TouchedCurrent(s, Reject(s));
    if !s.conf.config.Contains(id) {
      var s1 := s.(learner := id, prs := s.prs[id := Progress(s.log.LastIndex() + 1, 0, false, false)]);
      var s2 := Reply(s1, ProposeReply(true, 0, s1.term, 0));
      StrangerCurrent(s, s2, id);
      SendCurrent(s2, id);
    }
  }

  lemma StrangerCurrent(s: NodeState, t: NodeState, id: nat)
    requires StaysCurrent(s) && !s.conf.config.Contains(id) && id in t.prs
    requires t == s.(learner := t.learner, prs := t.prs, out := t.out) && t.prs == s.prs[id := t.prs[id]]
    ensures StaysCurrent(t)
  {
    hide Matches, IsQuorumValue;
    StrangerCounts(s.conf.config.voters, s.p.id, s.log.LastIndex(), s.prs, t.prs, id);
    if !t.panicked && t.role == Leader {
      forall n: nat | n > t.commitIndex ensures !MajorityHas(t, n) {
        assert !MajorityHas(s, n);
      }
    }
  }

  lemma {:induction false} StrangerCounts(voters: seq<nat>, id: nat, last: nat, a: map<nat, Progress>,
      b: map<nat, Progress>, x: nat)
    requires x !in voters && x in b && b == a[x := b[x]]
    ensures Matches(voters, id, last, a) == Matches(voters, id, last, b)
  {
    if voters != [] {
      StrangerCounts(voters[..|voters| - 1], id, last, a, b, x);
    }
  }

  lemma RemoveCurrent(s: NodeState, id: nat)
    requires StaysCurrent(s)
    ensures StaysCurrent(DoRemoveServer(s, id))
  {
    hide AppendEntry, CommitAndBroadcast, EncodeConfig, WithoutVoter, Current;
    TouchedCurrent(s, Reject(s));
    var s1 := AppendEntry(s, Conf, EncodeConfig(Config(WithoutVoter(s.conf.config.voters, id))));
    var s2 := if id != s1.p.id then s1.(prs := s1.prs - {id}) else s1;
    CommitAndBroadcastCurrent(Reply(s2, ProposeReply(true, s2.log.LastIndex(), s2.term, 0)));
  }

  lemma TransferCurrent(s: NodeState, target: nat)
    requires StaysCurrent(s)
    ensures StaysCurrent(DoTransfer(s, target))
  {
    hide SendAppend, Current;
    TouchedCurrent(s, Reject(s));
    var t := s.(transferee := target, clock := s.clock.(transferElapsed := 0));
    var u := Reply(t, ProposeReply(true, 0, s.term, 0));
    TouchedCurrent(s, u);
    TouchedCurrent(s, Send(u, TimeoutNow(u.p.id, target, u.term)));
    SendCurrent(u, target);
  }

  /** Compaction leaves what is not yet committed as it was. */
  lemma SnapshotCurrent(s: NodeState, index: nat, data: seq<byte>)
    requires StaysCurrent(s) && s.lastApplied <= s.commitIndex
    ensures StaysCurrent(DoCreateSnapshot(s, index, data))
  {
    hide Matches, IsQuorumValue, ConfigAt, PruneConf;
    var t := DoCreateSnapshot(s, index, data);
    if !t.panicked && s.role == Leader {
      SameConfig(s.conf, index);
      forall n: nat | n > t.commitIndex ensures !MajorityHas(t, n) {
        assert !MajorityHas(s, n);
        assert t.log.Term(n) == s.log.Term(n);
      }
    }
  }

  lemma SameConfig(c: ConfState, i: nat)
    ensures PruneConf(c, i).config == c.config
  {
  }

  /** Every Step leaves a leader with nothing above its commit index that a majority has and that is of its own term. */
  lemma StepCurrent(s: NodeState, i: Input)
    requires Current(s) && s.lastApplied <= s.commitIndex && !Step(s, i).panicked
    ensures Current(Step(s, i))
  {
    hide Step, Handle, Current;
    FastBackup.Handled(s, i);
    var b := Begin(s);
    TouchedCurrent(s, b);
    HandleCurrent(b, i);
    SentKeepsGround(Handle(b, i), Step(s, i));
    CurrentStays(Handle(b, i), Step(s, i));
  }

  lemma HandleCurrent(s: NodeState, i: Input)
    requires StaysCurrent(s) && s.lastApplied <= s.commitIndex
    ensures StaysCurrent(Handle(s, i))
  {
    hide DoTick, DoReceive, DoPropose, DoProposeConfChange, DoTransfer, DoCreateSnapshot, StaysCurrent;
    match i
    case Tick => TickCurrent(s);
    case Receive(m) => ReceiveCurrent(s, m);
    case Propose(data) => ProposeCurrent(s, data);
    case ProposeConfChange(ch) => ChangeCurrent(s, ch);
    case TransferLeadership(target) => TransferCurrent(s, target);
    case CreateSnapshot(index, data) => SnapshotCurrent(s, index, data);
  }

  /**
   * In every run, at every moment, a leader has committed the largest index of its own term that a majority has recorded,
   * as far as it knows.
   */
  lemma {:induction false} CommitIsCurrent(voters: seq<nat>, r: Run, k: nat, a: nat)
    requires NoDuplicates(voters) && Valid(voters, r) && k < |r.states| && Alive(r.states[k], a)
    ensures Current(NodeOf(r.states[k], a))
    decreases k
  {
    hide Step, Current, NewNode, Offers, Fsync;
    if k == 0 {
      StartsFollower(NodeOf(r.states[0], a).p, voters, EMPTY_DISK);
    } else {
      var c, act := r.states[k - 1], r.actions[k - 1];
      assert Next(voters, c, act, r.states[k - 1 + 1]);
      match act
      case StepAt(id, i) =>
        CommitIsCurrent(voters, r, k - 1, a);
        if id == a {
          CurrentNext(voters, r, k - 1, a, i);
        }
      case Restart(id, p) =>
        if id == a {
          StartsFollower(p, voters, c.servers[id].disk);
        } else {
          CommitIsCurrent(voters, r, k - 1, a);
        }
      case _ => CommitIsCurrent(voters, r, k - 1, a);
    }
  }

  lemma StartsFollower(p: Params, voters: seq<nat>, d: Disk)
    ensures Current(NewNode(p, voters, Load(d)))
  {
    hide AppendAll, TimeoutOf;
  }

  lemma CurrentNext(voters: seq<nat>, r: Run, k: nat, a: nat, i: Input)
    requires NoDuplicates(voters) && Valid(voters, r) && k + 1 < |r.states| && Alive(r.states[k], a)
    requires Alive(r.states[k + 1], a) && NodeOf(r.states[k + 1], a) == Step(NodeOf(r.states[k], a), i)
    requires Current(NodeOf(r.states[k], a))
    ensures Current(NodeOf(r.states[k + 1], a))
  {
    hide Valid, ClusterInv, Step, NodeInv, TermLogs, Current;
    var hs := RunExplained(voters, r);
    LiveIsView(hs[k], r.states[k], a);
    LiveIsView(hs[k + 1], r.states[k + 1], a);
    AppliedWithin(hs[k], NodeOf(r.states[k], a));
    NotPanicked(hs[k + 1], NodeOf(r.states[k + 1], a));
    StepCurrent(NodeOf(r.states[k], a), i);
  }

  lemma AppliedWithin(gh: Ghost, s: NodeState)
    requires NodeInv(gh, s)
    ensures s.lastApplied <= s.commitIndex
  {
    hide LogInv, Full, Owes, IsCommitted;
  }

  // ---- The rule in terms of who has what

  /** The voters a leader knows to have recorded index n, itself included. */
  ghost function Holders(s: NodeState, n: nat): set<nat> {
    set v | v in s.conf.config.voters && Holds(v, s.p.id, s.log.LastIndex(), s.prs, n)
  }

  predicate Holds(v: nat, id: nat, last: nat, prs: map<nat, Progress>, n: nat) {
    if v == id then n <= last else v in prs && n <= prs[v].matched
  }

  lemma HeldIsMatched(v: nat, id: nat, last: nat, prs: map<nat, Progress>, n: nat)
    requires n > 0
    ensures Holds(v, id, last, prs, n) <==> MatchOf(v, id, last, prs) >= n
  {
  }

  ghost predicate HeldByMajority(s: NodeState, n: nat) {
    2 * |Holders(s, n)| > |s.conf.config.voters|
  }

  lemma QuorumHolds(s: NodeState, n: nat)
    requires NoDuplicates(s.conf.config.voters) && n > 0
    ensures HeldByMajority(s, n) <==>
      CountAtLeast(Matches(s.conf.config.voters, s.p.id, s.log.LastIndex(), s.prs), n) >= s.conf.config.Quorum()
  {
    hide Matches, CountAtLeast, Holds;
    var voters := s.conf.config.voters;
    forall v ensures Holds(v, s.p.id, s.log.LastIndex(), s.prs, n) <==>
        MatchOf(v, s.p.id, s.log.LastIndex(), s.prs) >= n {
      HeldIsMatched(v, s.p.id, s.log.LastIndex(), s.prs, n);
    }
    CountedMatches(voters, s.p.id, s.log.LastIndex(), s.prs, n, Holders(s, n));
    assert Among(voters, Holders(s, n)) == Holders(s, n);
  }

  /** In every run, where an event moves the commit index of a leader in its term, a majority holds that entry. */
  lemma CommitHeld(voters: seq<nat>, r: Run, k: nat)
    requires NoDuplicates(voters) && Valid(voters, r) && k < |r.actions| && r.actions[k].StepAt?
    requires var id := r.actions[k].id;
      Alive(r.states[k], id) && Alive(r.states[k + 1], id)
      && StaysLeader(NodeOf(r.states[k], id), NodeOf(r.states[k + 1], id))
    ensures var s, t := NodeOf(r.states[k], r.actions[k].id), NodeOf(r.states[k + 1], r.actions[k].id);
      t.commitIndex != s.commitIndex ==>
        t.commitIndex > s.commitIndex && HeldByMajority(t, t.commitIndex) && t.log.Term(t.commitIndex) == Some(t.term)
  {
    hide Init, Step, Next, ClusterInv, NodeInv, TermLogs, Matches, HeldByMajority, CountAtLeast;
    var hs := RunExplained(voters, r);
    var t := NodeOf(r.states[k + 1], r.actions[k].id);
    CommitsByRule(voters, r, k);
    LiveIsView(hs[k + 1], r.states[k + 1], r.actions[k].id);
    SameVoters(hs[k + 1], t);
    if t.commitIndex > 0 {
      QuorumHolds(t, t.commitIndex);
    }
  }

  lemma SameVoters(gh: Ghost, s: NodeState)
    requires NodeInv(gh, s)
    ensures s.conf.config.voters == gh.voters && s.log.LastTerm() <= s.term
  {
    hide LogInv, Full, Owes, IsCommitted;
  }

  /** In every run no leader leaves uncommitted what a majority holds of its own term. */
  lemma NothingHeldBack(voters: seq<nat>, r: Run, k: nat, a: nat, n: nat)
    requires NoDuplicates(voters) && Valid(voters, r) && k < |r.states| && Alive(r.states[k], a)
    requires NodeOf(r.states[k], a).role == Leader && n > NodeOf(r.states[k], a).commitIndex
    requires NodeOf(r.states[k], a).log.Term(n) == Some(NodeOf(r.states[k], a).term)
    ensures !HeldByMajority(NodeOf(r.states[k], a), n)
  {
    hide Valid, ClusterInv, NodeInv, TermLogs, Current, HeldByMajority, LogInv;
    var hs := RunExplained(voters, r);
    var s := NodeOf(r.states[k], a);
    CommitIsCurrent(voters, r, k, a);
    LiveIsView(hs[k], r.states[k], a);
    SameVoters(hs[k], s);
    ProgressOf(hs[k], r.states[k], a);
    LeaderOf(hs[k], r.states[k], a, s.term);
    NotPanicked(hs[k], s);
    if HeldByMajority(s, n) {
      HeldMeansCurrent(hs[k], s, n);
    }
  }

  /** What a majority holds of the own term is at or below the largest index it holds, which is of that term too. */
  lemma HeldMeansCurrent(gh: Ghost, s: NodeState, n: nat)
    requires NoDuplicates(s.conf.config.voters) && HeldByMajority(s, n) && n > s.commitIndex && s.role == Leader
    requires s.log.Term(n) == Some(s.term) && s.log.LastTerm() <= s.term && !s.panicked
    requires TermLogs(gh.tlog) && LogInv(gh.tlog, s.log) && ProgressInv(gh, s)
    ensures !Current(s)
  {
    hide TermLogs, LogInv, Full, Matches, SortDesc, CountAtLeast, AckedTo, TermAt;
    var a := Matches(s.conf.config.voters, s.p.id, s.log.LastIndex(), s.prs);
    var q := s.conf.config.Quorum();
    QuorumHolds(s, n);
    EnoughVoters(a, n);
    MedianIsQuorumValue(a, q);
    var m := SortDesc(a)[q - 1];
    MedianWithin(s, m);
    TermInFull(gh.tlog, s.log, n);
    TermInFull(gh.tlog, s.log, m);
    TermInFull(gh.tlog, s.log, s.log.LastIndex());
    FastBackup.TermsRise(gh.tlog, s.log, n, m);
    FastBackup.TermsRise(gh.tlog, s.log, m, s.log.LastIndex());
    assert s.log.Term(s.log.LastIndex()) == Some(s.log.LastTerm());
    assert MajorityHas(s, m);
  }

  lemma EnoughVoters(a: seq<nat>, n: nat)
    ensures CountAtLeast(a, n) <= |a|
  {
  }

  /** No index beyond the log is held by anyone. */
  lemma MedianWithin(s: NodeState, m: nat)
    requires forall v :: v in s.prs ==> s.prs[v].matched <= s.log.LastIndex()
    requires CountAtLeast(Matches(s.conf.config.voters, s.p.id, s.log.LastIndex(), s.prs), m) > 0
    ensures m <= s.log.LastIndex()
  {
    hide Matches;
    var a := Matches(s.conf.config.voters, s.p.id, s.log.LastIndex(), s.prs);
    Voting.CountSome(a, m);
    var k :| 0 <= k < |a| && a[k] >= m;
    assert a[k] == MatchOf(s.conf.config.voters[k], s.p.id, s.log.LastIndex(), s.prs);
  }
}
