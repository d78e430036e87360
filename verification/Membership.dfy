/** What every Step keeps of the configuration, and the discipline of the changes a leader makes. */
module Membership {
  import opened RaftTypes
  import opened LogSpec
  import opened Bytes
  import opened ConfSpec
  import opened NodeSpec
  import opened Storage
  import opened ConfReplay
  import opened DiskRefinement
  import opened Strings

  // ---- Every Step, on any input

  lemma StepTracks(s: NodeState, i: Input)
    requires WellFormed(s) && s.lastApplied <= s.commitIndex && !Step(s, i).panicked
    ensures Tracks(Begin(s), Step(s, i).(out := Handle(Begin(s), i).out)) && Step(s, i).dirty == Handle(Begin(s), i).dirty
  {
    hide Handle, PersistOf, WellFormed, LogChange, ConfWellFormed, BaseTracks;
    HandleFollows(s, i);
    BeginSame(s, Handle(Begin(s), i));
  }

  lemma BeginSame(s: NodeState, t: NodeState)
    requires Tracks(s, t)
    ensures Tracks(Begin(s), t) && Tracks(Begin(s), t.(out := t.out))
  {
    hide ConfReplays, LogChange;
  }

  /** The configuration stays the replay of the log, and learners stay where they belong, on any input. */
  lemma StepKeepsConf(s: NodeState, i: Input)
    requires WellFormed(s) && s.lastApplied <= s.commitIndex && !Step(s, i).panicked && ConfWellFormed(s)
    ensures ConfWellFormed(Step(s, i))
  {
    hide Step, ConfReplays, LogChange;
    StepTracks(s, i);
  }

  /** Between Steps everything committed has been handed over. */
  lemma StepKeepsApplied(s: NodeState, i: Input)
    requires WellFormed(s) && s.lastApplied == s.commitIndex && !Step(s, i).panicked
    ensures Step(s, i).lastApplied == Step(s, i).commitIndex
  {
    hide Step, LogChange, ConfWellFormed, BaseTracks, WellFormed;
    StepTracks(s, i);
  }

  // ---- The base of the history

  /** The base is the snapshot's configuration, or the initial one before the first snapshot. */
  ghost predicate BaseAgrees(s: NodeState, voters: seq<nat>) {
    s.conf.history[0].cfg == if s.snapshot.Some? then s.snapshot.value.config else Config(voters)
  }

  /** A snapshot taken while the log is kept carries the configuration the node had at its index. */
  ghost predicate SnapshotAgrees(s: NodeState, t: NodeState) {
    t.dirty.snap.Some? && !t.dirty.snap.value.replaceLog && t.snapshot.Some? ==>
      t.snapshot.value.config == ConfigAt(s.conf.history, t.snapshot.value.index)
  }

  lemma StepKeepsBase(s: NodeState, i: Input, voters: seq<nat>)
    requires WellFormed(s) && s.lastApplied <= s.commitIndex && !Step(s, i).panicked && ConfWellFormed(s)
    requires BaseAgrees(s, voters) && SnapshotAgrees(s, Step(s, i))
    ensures BaseAgrees(Step(s, i), voters)
  {
    hide Step, WellFormed, ConfReplays, ConfigAt, LogChange;
    StepTracks(s, i);
    BaseMoves(s, Step(s, i), voters);
  }

  lemma BaseMoves(s: NodeState, t: NodeState, voters: seq<nat>)
    requires BaseTracks(Begin(s), t) && ConfWellFormed(s) && BaseAgrees(s, voters) && SnapshotAgrees(s, t)
    requires t.snapshot == if t.dirty.snap.Some? then t.dirty.snap.value.snapshot else s.snapshot
    ensures BaseAgrees(t, voters)
  {
    hide ConfReplays, ConfigAt;
    assert ConfWellFormed(Begin(s));
  }

  /** The application's own snapshots always agree. */
  lemma OwnSnapshotAgrees(s: NodeState, index: nat, data: seq<byte>)
    ensures SnapshotAgrees(s, Step(s, CreateSnapshot(index, data)))
  {
    hide ConfigAt, Prune;
  }

  /** A restart recovers the configuration, and the one in force at every index the log still tells. */
  lemma RestartRecoversConf(d: Disk, s: NodeState, p: Params, voters: seq<nat>, i: nat)
    requires WellFormed(s) && Mirrors(d, s) && ConfWellFormed(s) && BaseAgrees(s, voters)
    requires s.log.snapIndex <= i <= s.log.LastIndex()
    ensures var t := NewNode(p, voters, Load(d));
      && !t.panicked
      && ConfWellFormed(t) && BaseAgrees(t, voters) && t.conf.config == s.conf.config
      && ConfigAt(t.conf.history, i) == ConfigAt(s.conf.history, i)
  {
    hide ConfReplays, ConfigAt, NewNode, ConfWellFormed;
    ConfDecodable(s);
    RestartRecovers(d, s, p, voters);
    RestartReplays(d, s, p, voters);
    var t := NewNode(p, voters, Load(d));
    ConfOf(s);
    ConfOf(t);
    CachedIsReplay(s.log, s.conf);
    CachedIsReplay(t.log, t.conf);
    ConfigAtIsReplay(s.log, s.conf, i);
    ConfigAtIsReplay(t.log, t.conf, i);
  }

  lemma ConfOf(s: NodeState)
    requires ConfWellFormed(s)
    ensures ConfReplays(s.log, s.conf)
  {
    hide ConfReplays;
  }

  lemma ConfDecodable(s: NodeState)
    requires ConfWellFormed(s)
    ensures Decodable(s.log.entries)
  {
  }

  /** A restart replays the log's configuration entries from the configuration of the snapshot. */
  lemma RestartReplays(d: Disk, s: NodeState, p: Params, voters: seq<nat>)
    requires WellFormed(s) && Mirrors(d, s) && Decodable(s.log.entries)
    ensures var t := NewNode(p, voters, Load(d));
      && ConfWellFormed(t) && t.lastApplied == t.commitIndex
      && t.conf.history[0].cfg == if s.snapshot.Some? then s.snapshot.value.config else Config(voters)
  {
    hide ConfReplays, Decodable;
    var b := Blank(p, voters, d.hs);
    var s1 := if d.snap.Some? then LoadSnapshot(b, d.snap.value) else b;
    AppendAllSucceeds(s1, d.entries);
    AppendAllGrows(s1, d.entries);
    ResetReplays(s1.log.snapIndex, s1.log.snapTerm, s1.conf.config);
    AppendAllReplays(s1, d.entries);
  }

  // ---- Single-server changes

  ghost function VoterSet(voters: seq<nat>): set<nat> {
    set v | v in voters
  }

  /** One voter more, or one less. */
  ghost predicate OneVoterApart(a: seq<nat>, b: seq<nat>) {
    exists x :: (x !in VoterSet(a) && VoterSet(b) == VoterSet(a) + {x}) ||
        (x in VoterSet(a) && VoterSet(b) == VoterSet(a) - {x})
  }

  /** Nonempty, strictly ascending, and encodable. */
  ghost predicate Orderly(c: Config) {
    && c.voters != [] && AscendingNats(c.voters)
    && |c.voters| < U32 && forall k :: 0 <= k < |c.voters| ==> c.voters[k] < U64
  }

  lemma AppendAscending(s: seq<nat>, x: nat)
    requires AscendingNats(s) && forall v :: v in s ==> v < x
    ensures AscendingNats(s + [x])
  {
    forall i, j | 0 <= i < j < |s + [x]| ensures (s + [x])[i] < (s + [x])[j] {
      assert s[i] in s;
    }
  }

  lemma {:induction false} WithoutAscending(a: seq<nat>, id: nat)
    requires AscendingNats(a)
    ensures AscendingNats(WithoutVoter(a, id))
  {
    if a != [] {
      hide AscendingNats;
      var init, last := a[..|a| - 1], a[|a| - 1];
      InitBelow(a);
      assert WithoutVoter(init, id) + [] == WithoutVoter(init, id);
      WithoutAscending(init, id);
      forall v | v in WithoutVoter(init, id) ensures v < last {
        assert v in init;
      }
      AppendAscending(WithoutVoter(init, id), last);
    }
  }

  lemma InitBelow(a: seq<nat>)
    requires AscendingNats(a) && a != []
    ensures var init := a[..|a| - 1]; AscendingNats(init) && forall v :: v in init ==> v < a[|a| - 1]
  {
  }

  lemma WithoutOne(a: seq<nat>, id: nat)
    requires AscendingNats(a)
    ensures VoterSet(WithoutVoter(a, id)) == VoterSet(a) - {id}
    ensures id in a ==> |WithoutVoter(a, id)| == |a| - 1
  {
    hide AscendingNats;
    WithoutAscending(a, id);
    SizeOf(a);
    SizeOf(WithoutVoter(a, id));
  }

  /** Once v has its place the rest is copied. */
  lemma {:induction false} InsertedRest(a: seq<nat>, v: nat, i: nat)
    requires i <= |a|
    ensures InsertFrom(a, v, i, true) == a[i..]
    decreases |a| - i
  {
    if i < |a| {
      InsertedRest(a, v, i + 1);
    }
  }

  /** Inserting puts v between the smaller and the larger voters. */
  lemma {:induction false} InsertSplits(a: seq<nat>, v: nat, i: nat) returns (m: nat)
    requires AscendingNats(a) && v !in a && i <= |a|
    ensures i <= m <= |a| && InsertFrom(a, v, i, false) == a[i..m] + [v] + a[m..]
    ensures (forall k :: i <= k < m ==> a[k] < v) && (forall k :: m <= k < |a| ==> v < a[k])
    decreases |a| - i
  {
    if i == |a| {
      m := i;
    } else if v < a[i] {
      m := i;
      InsertedRest(a, v, i + 1);
      assert a[i..] == [a[i]] + a[i + 1..];
    } else {
      m := InsertSplits(a, v, i + 1);
      assert a[i..m] == [a[i]] + a[i + 1..m];
    }
  }

  lemma InsertAscending(a: seq<nat>, v: nat)
    requires AscendingNats(a) && v !in a
    ensures AscendingNats(InsertSorted(a, v)) && VoterSet(InsertSorted(a, v)) == VoterSet(a) + {v}
    ensures |InsertSorted(a, v)| == |a| + 1 && forall x :: x in InsertSorted(a, v) ==> x in a || x == v
  {
    hide InsertFrom;
    var m := InsertSplits(a, v, 0);
    var p, q := a[..m], a[m..];
    assert a == p + q && a[0..m] == p;
    assert InsertSorted(a, v) == p + [v] + q;
    JoinAscending(p, v, q);
    assert VoterSet(p + [v] + q) == VoterSet(p + q) + {v};
  }

  lemma JoinAscending(p: seq<nat>, v: nat, q: seq<nat>)
    requires AscendingNats(p + q)
    requires (forall k :: 0 <= k < |p| ==> p[k] < v) && (forall k :: 0 <= k < |q| ==> v < q[k])
    ensures AscendingNats(p + [v] + q)
  {
    var r, a := p + [v] + q, p + q;
    forall i, j | 0 <= i < j < |r| ensures r[i] < r[j] {
      if j < |p| {
        assert r[i] == a[i] && r[j] == a[j];
      } else if i > |p| {
        assert r[i] == a[i - 1] && r[j] == a[j - 1];
      }
    }
  }

  /** The configuration after a leader's own change: orderly, one voter apart, made when the last change was
      committed. */
  ghost predicate OwnChange(s: NodeState, c: ConfState) {
    exists cfg :: c == PushConf(s.conf, s.log.LastIndex() + 1, cfg) && Orderly(cfg)
      && OneVoterApart(s.conf.config.voters, cfg.voters) && s.conf.index <= s.commitIndex
  }

  ghost predicate Disciplined(s: NodeState, c: ConfState) {
    (c.config == s.conf.config && c.index == s.conf.index) || OwnChange(s, c)
  }

  /** Appending an encodable configuration takes it up. */
  lemma AppendConf(s: NodeState, cfg: Config)
    requires Orderly(cfg)
    ensures AppendEntry(s, Conf, EncodeConfig(cfg)).conf == PushConf(s.conf, s.log.LastIndex() + 1, cfg)
  {
    hide DecodeConfig, EncodeConfig, AscendingNats;
    ConfigRoundTrip(cfg);
  }

  lemma CommitKeepsConf(s: NodeState)
    ensures CommitAndBroadcast(s).panicked || CommitAndBroadcast(s).conf == s.conf
  {
    hide CommitAndBroadcast;
    CommitAndBroadcastVolatile(s);
  }

  lemma RemoveDisciplined(s: NodeState, id: nat)
    requires Orderly(s.conf.config) && s.conf.index <= s.commitIndex && !DoRemoveServer(s, id).panicked
    ensures Disciplined(s, DoRemoveServer(s, id).conf)
  {
    hide AppendEntry, CommitAndBroadcast, EncodeConfig, WithoutVoter;
    var voters := s.conf.config.voters;
    if s.conf.config.Contains(id) && |voters| != 1 {
      var cfg := Config(WithoutVoter(voters, id));
      WithoutAscending(voters, id);
      WithoutOne(voters, id);
      RemovedOrderly(voters, id);
      AppendConf(s, cfg);
      assert OneVoterApart(voters, cfg.voters);
      var s1 := AppendEntry(s, Conf, EncodeConfig(cfg));
      var s2 := if id != s1.p.id then s1.(prs := s1.prs - {id}) else s1;
      CommitKeepsConf(Reply(s2, ProposeReply(true, s2.log.LastIndex(), s2.term, 0)));
      assert OwnChange(s, s1.conf);
    }
  }

  lemma RemovedOrderly(voters: seq<nat>, id: nat)
    requires Orderly(Config(voters)) && id in voters && |voters| != 1
    requires AscendingNats(WithoutVoter(voters, id)) && VoterSet(WithoutVoter(voters, id)) == VoterSet(voters) - {id}
    requires |WithoutVoter(voters, id)| == |voters| - 1
    ensures Orderly(Config(WithoutVoter(voters, id)))
  {
    hide AscendingNats, WithoutVoter;
    var w := WithoutVoter(voters, id);
    forall k | 0 <= k < |w| ensures w[k] < U64 {
      assert w[k] in VoterSet(w);
      var j :| 0 <= j < |voters| && voters[j] == w[k];
    }
  }

  lemma PromoteDisciplined(s: NodeState, from: nat)
    requires Orderly(s.conf.config) && LearnerInv(s)
    requires s.learner != NONE ==> |s.conf.config.voters| + 1 < U32 && s.learner < U64
    requires !MaybePromoteLearner(s, from).panicked
    ensures Disciplined(s, MaybePromoteLearner(s, from).conf)
  {
    hide AppendEntry, CommitAndBroadcast, EncodeConfig, InsertSorted;
    if !(s.learner == NONE || s.learner != from || s.role != Leader) && from in s.prs &&
        s.prs[from].matched >= s.log.LastIndex() {
      var cfg := Config(InsertSorted(s.conf.config.voters, from));
      InsertAscending(s.conf.config.voters, from);
      InsertedOrderly(s.conf.config.voters, from);
      var s1 := s.(learner := NONE);
      AppendConf(s1, cfg);
      assert OneVoterApart(s.conf.config.voters, cfg.voters);
      CommitKeepsConf(AppendEntry(s1, Conf, EncodeConfig(cfg)));
      assert OwnChange(s, AppendEntry(s1, Conf, EncodeConfig(cfg)).conf);
    }
  }

  lemma InsertedOrderly(voters: seq<nat>, v: nat)
    requires Orderly(Config(voters)) && |voters| + 1 < U32 && v < U64
    requires AscendingNats(InsertSorted(voters, v)) && |InsertSorted(voters, v)| == |voters| + 1
    requires forall x :: x in InsertSorted(voters, v) ==> x in voters || x == v
    ensures Orderly(Config(InsertSorted(voters, v)))
  {
    hide AscendingNats, InsertSorted;
    var w := InsertSorted(voters, v);
    forall k | 0 <= k < |w| ensures w[k] < U64 {
      assert w[k] in w;
    }
  }

  lemma ProgressDisciplined(s: NodeState, a: NodeState, from: nat, next: nat)
    requires Orderly(s.conf.config) && LearnerInv(s)
    requires s.learner != NONE ==> |s.conf.config.voters| + 1 < U32 && s.learner < U64
    requires a.conf == s.conf && a.log == s.log && LearnerInv(a) && (a.learner == NONE || a.learner == s.learner)
    requires !AfterProgress(a, from, next).panicked
    ensures Disciplined(s, AfterProgress(a, from, next).conf)
  {
    hide Orderly, OwnChange;
    var t := MaybePromoteLearner(a, from);
    SendAppendVolatile(t, from);
    if a.learner != NONE {
      PromoteDisciplined(a, from);
      DisciplinedHere(s, a, t.conf);
    }
  }

  /** Committing in between does not matter: the last change was committed before. */
  lemma DisciplinedHere(s: NodeState, a: NodeState, c: ConfState)
    requires a.conf == s.conf && a.log == s.log && Disciplined(a, c)
    ensures s.conf.index <= s.commitIndex ==> Disciplined(s, c)
    ensures !OwnChange(a, c) ==> Disciplined(s, c)
  {
    hide Orderly, OneVoterApart;
    if OwnChange(a, c) && s.conf.index <= s.commitIndex {
      var cfg :| c == PushConf(a.conf, a.log.LastIndex() + 1, cfg) && Orderly(cfg)
        && OneVoterApart(a.conf.config.voters, cfg.voters) && a.conf.index <= a.commitIndex;
      assert OwnChange(s, c);
    }
  }

  /** The node leads the same term before and after. */
  ghost predicate StaysLeader(s: NodeState, t: NodeState) {
    s.role == Leader && t.role == Leader && t.term == s.term
  }

  /** A message of another term that leaves a leader in its reign changes nothing of what it leads by. */
  lemma OtherTermKeepsConf(s: NodeState, m: Message)
    requires m.to == s.p.id && m.term != s.term && StaysLeader(s, DoReceive(s, m)) && !DoReceive(s, m).panicked
    ensures DoReceive(s, m).conf == s.conf && DoReceive(s, m).commitIndex == s.commitIndex
    ensures DoReceive(s, m).prs == s.prs && DoReceive(s, m).clock.quorumElapsed == s.clock.quorumElapsed
  {
    hide Dispatch;
    if m.term > s.term {
      match m
      case Vote(_, _, _, preVote, force, _, _) =>
        if preVote {
          VoteKeepsConf(s, m);
        } else if !Sticky(s, force) {
          FollowerKeepsTerm(BecomeFollower(s, m.term, NONE), m);
        }
      case VoteResp(_, _, _, preVote, _, granted) =>
        if preVote && granted {
          LeaderSkipsVotes(s, m);
        } else {
          FollowerKeepsTerm(BecomeFollower(s, m.term, NONE), m);
        }
      case App(_, _, _, _, _, _, _) => FollowerKeepsTerm(BecomeFollower(s, m.term, m.from), m);
      case Snap(_, _, _, _) => FollowerKeepsTerm(BecomeFollower(s, m.term, m.from), m);
      case _ => FollowerKeepsTerm(BecomeFollower(s, m.term, NONE), m);
    }
  }

  lemma LeaderSkipsVotes(s: NodeState, m: Message)
    requires s.role == Leader && m.VoteResp?
    ensures Dispatch(s, m) == s
  {
  }

  lemma VoteKeepsConf(s: NodeState, m: Message)
    requires m.Vote?
    ensures Dispatch(s, m).conf == s.conf && Dispatch(s, m).term == s.term && Dispatch(s, m).commitIndex == s.commitIndex
    ensures Dispatch(s, m).prs == s.prs && Dispatch(s, m).clock.quorumElapsed == s.clock.quorumElapsed
  {
  }

  /** No message takes a follower back to an earlier term. */
  lemma FollowerKeepsTerm(s: NodeState, m: Message)
    requires s.role == Follower && !Dispatch(s, m).panicked
    ensures Dispatch(s, m).term >= s.term
  {
    match m
    case App(_, _, _, _, _, _, _) => AppKeepsTerm(s, m);
    case Snap(_, _, _, _) => SnapKeepsTerm(s, m);
    case TimeoutNow(_, _, _) => CampaignRaisesTerm(s, true);
    case _ =>
  }

  lemma AppKeepsTerm(s: NodeState, m: Message)
    requires m.App? && s.role == Follower && !HandleApp(s, m).panicked
    ensures HandleApp(s, m).term == s.term
  {
    hide AcceptEntries;
    var s1 := FollowLeader(s, m.term, m.from);
    var skip := if m.prevLogIndex < s1.log.snapIndex then s1.log.snapIndex - m.prevLogIndex else 0;
    if skip <= |m.entries| {
      AcceptKeepsTerm(s1, m.entries[skip..]);
    }
  }

  lemma AcceptKeepsTerm(s: NodeState, ents: seq<Entry>)
    ensures AcceptEntries(s, ents).panicked || AcceptEntries(s, ents).term == s.term
  {
    hide FirstConflict, AppendAll, TruncateConf;
    var i := FirstConflict(s.log, ents, 0);
    if i < |ents| {
      AppendAllGrows(s, ents[i..]);
      if s.log.snapIndex < ents[i].index {
        AppendAllGrows(s.(log := s.log.TruncateFrom(ents[i].index), conf := TruncateConf(s.conf, ents[i].index)), ents[i..]);
      }
    }
  }

  lemma SnapKeepsTerm(s: NodeState, m: Message)
    requires m.Snap? && s.role == Follower
    ensures InstallSnapshot(s, m).term == s.term
  {
    hide PruneConf;
  }

  lemma CampaignRaisesTerm(s: NodeState, force: bool)
    ensures Campaign(s, force).panicked || Campaign(s, force).term >= s.term
  {
    hide MaybeCommit, HasQuorum, AppendOne;
    if Promotable(s) {
      var t := CastVote(BecomeCandidate(s), s.p.id, true);
      RequestVotesVolatile(t, t.conf.config.voters, t.term, false, force);
      var u := AppendEntry(AssumeLeadership(t), Noop, []);
      AppendOneGrows(AssumeLeadership(t), Entry(t.log.LastIndex() + 1, t.term, Noop, []));
      MaybeCommitVolatile(u);
      BroadcastVolatile(MaybeCommit(u));
    }
  }

  lemma ReceiveDisciplined(s: NodeState, m: Message)
    requires ConfWellFormed(s) && StaysLeader(s, DoReceive(s, m)) && !DoReceive(s, m).panicked
    requires Orderly(s.conf.config) && (s.learner != NONE ==> |s.conf.config.voters| + 1 < U32 && s.learner < U64)
    ensures Disciplined(s, DoReceive(s, m).conf)
  {
    hide MaybeCommit, AfterProgress, SetMatch, BackupNext, Orderly, OwnChange, ConfReplays, HandleVote, InstallSnapshot;
    if m.to == s.p.id && m.term != s.term {
      OtherTermKeepsConf(s, m);
    } else if m.to == s.p.id {
      match m
      case AppResp(_, _, _, _, _, _, _) => AppRespDisciplined(s, m);
      case SnapResp(_, _, _, _) => SnapRespDisciplined(s, m);
      case Vote(_, _, _, _, _, _, _) => VoteKeepsConf(s, m);
      case Snap(_, _, _, _) => SnapEndsReign(s, m);
      case _ =>
    }
  }

  /** A snapshot from another leader of the term makes a follower of the node. */
  lemma SnapEndsReign(s: NodeState, m: Message)
    requires m.Snap?
    ensures InstallSnapshot(s, m).role == Follower
  {
    hide PruneConf, TimeoutOf, Log.Compact, InitConf;
  }

  /** What counting a match does before any promotion. */
  lemma CountedMatch(s: NodeState, from: nat, pr: Progress)
    requires LearnerInv(s)
    ensures var a := MaybeCommit(s.(prs := s.prs[from := pr]));
      (s.panicked ==> a.panicked)
      && (!a.panicked ==>
           a.conf == s.conf && a.log == s.log && LearnerInv(a) &&
           (a.learner == NONE || a.learner == s.learner))
  {
    hide MaybeCommit;
    MaybeCommitVolatile(s.(prs := s.prs[from := pr]));
  }

  lemma AppRespDisciplined(s: NodeState, m: Message)
    requires s.role == Leader && m.AppResp? && ConfWellFormed(s)
    requires Orderly(s.conf.config) && (s.learner != NONE ==> |s.conf.config.voters| + 1 < U32 && s.learner < U64)
    requires !HandleAppResp(s, m).panicked
    ensures Disciplined(s, HandleAppResp(s, m).conf)
  {
    hide MaybeCommit, AfterProgress, SetMatch, BackupNext, Orderly, OwnChange, ConfReplays;
    if m.term == s.term && m.from in s.prs {
      if m.success {
        var pr := SetMatch(s.prs[m.from], m.matchIndex);
        CountedMatch(s, m.from, pr);
        var a := MaybeCommit(s.(prs := s.prs[m.from := pr]));
        var b := if a.transferee == m.from && pr.matched == a.log.LastIndex()
                 then Send(a, TimeoutNow(a.p.id, m.from, a.term)) else a;
        if a.role == Leader {
          AfterProgressPanics(b, m.from, pr.next);
          ProgressDisciplined(s, b, m.from, pr.next);
        }
      } else {
        var pr := s.prs[m.from].(recentActive := true,
            next := BackupNext(s.log, s.prs[m.from], m.conflictIndex, m.conflictTerm));
        SendAppendVolatile(s.(prs := s.prs[m.from := pr]), m.from);
      }
    }
  }

  lemma AfterProgressPanics(s: NodeState, from: nat, next: nat)
    ensures s.panicked ==> AfterProgress(s, from, next).panicked
  {
    hide AppendEntry, CommitAndBroadcast, EncodeConfig, InsertSorted;
    var s1 := s.(learner := NONE);
    var e := AppendEntry(s1, Conf, EncodeConfig(Config(InsertSorted(s.conf.config.voters, from))));
    AppendPanics(s1, EncodeConfig(Config(InsertSorted(s.conf.config.voters, from))));
    CommitAndBroadcastVolatile(e);
    SendAppendVolatile(MaybePromoteLearner(s, from), from);
  }

  lemma AppendPanics(s: NodeState, data: seq<byte>)
    ensures s.panicked ==> AppendEntry(s, Conf, data).panicked
  {
  }

  lemma SnapRespDisciplined(s: NodeState, m: Message)
    requires s.role == Leader && m.SnapResp? && ConfWellFormed(s)
    requires Orderly(s.conf.config) && (s.learner != NONE ==> |s.conf.config.voters| + 1 < U32 && s.learner < U64)
    requires !HandleSnapResp(s, m).panicked
    ensures Disciplined(s, HandleSnapResp(s, m).conf)
  {
    hide MaybeCommit, AfterProgress, SetMatch, Orderly, OwnChange, ConfReplays;
    if m.term == s.term && m.from in s.prs {
      var pr := SetMatch(s.prs[m.from], m.matchIndex);
      CountedMatch(s, m.from, pr);
      var a := MaybeCommit(s.(prs := s.prs[m.from := pr]));
      if a.role == Leader {
        AfterProgressPanics(a, m.from, pr.next);
        ProgressDisciplined(s, a, m.from, pr.next);
      }
    }
  }

  lemma ProposeKeepsConf(s: NodeState, data: seq<byte>)
    ensures DoPropose(s, data).panicked || DoPropose(s, data).conf == s.conf
  {
    hide CommitAndBroadcast;
    var s1 := AppendEntry(s, Normal, data);
    CommitKeepsConf(Reply(s1, ProposeReply(true, s1.log.LastIndex(), s1.term, 0)));
  }

  lemma TransferKeepsConf(s: NodeState, target: nat)
    ensures DoTransfer(s, target).panicked || DoTransfer(s, target).conf == s.conf
  {
  }

  lemma ChangeDisciplined(s: NodeState, ch: ConfChange)
    requires Orderly(s.conf.config) && !DoProposeConfChange(s, ch).panicked
    ensures Disciplined(s, DoProposeConfChange(s, ch).conf)
  {
    hide Orderly, OwnChange, DoRemoveServer, SendAppend;
    match ch
    case AddServer(id) =>
      var s1 := s.(learner := id, prs := s.prs[id := Progress(s.log.LastIndex() + 1, 0, false, false)]);
      SendAppendVolatile(Reply(s1, ProposeReply(true, 0, s1.term, 0)), id);
    case RemoveServer(id) =>
      if s.conf.index <= s.commitIndex && !DoRemoveServer(s, id).panicked {
        RemoveDisciplined(s, id);
      }
  }

  /**
   * On any input that leaves a leader in its term, it leaves its configuration alone or makes exactly one orderly change:
   * one voter more or less, and only when the last configuration entry was committed before, across the wait for a
   * learner too.
   */
  lemma MembershipDiscipline(s: NodeState, i: Input)
    requires StaysLeader(s, Step(s, i)) && ConfWellFormed(s) && !Step(s, i).panicked
    requires Orderly(s.conf.config) && (s.learner != NONE ==> |s.conf.config.voters| + 1 < U32 && s.learner < U64)
    ensures Disciplined(s, Step(s, i).conf)
  {
    hide DoTick, DoReceive, DoPropose, DoProposeConfChange, DoTransfer, Orderly, OneVoterApart, ConfReplays, Prune;
    var b := Begin(s);
    match i
    case Tick => TickKeepsConf(b);
    case Receive(m) => ReceiveDisciplined(b, m);
    case Propose(data) => ProposeKeepsConf(b, data);
    case ProposeConfChange(ch) => ChangeDisciplined(b, ch);
    case TransferLeadership(target) => TransferKeepsConf(b, target);
    case CreateSnapshot(index, data) =>
  }

  lemma TickKeepsConf(s: NodeState)
    requires s.role == Leader
    ensures DoTick(s).panicked || DoTick(s).conf == s.conf
  {
    hide TickLeader;
    TickLeaderVolatile(s);
  }

  lemma DisjointFit(p: set<nat>, q: set<nat>, all: set<nat>)
    requires p <= all && q <= all && p * q == {}
    ensures |p| + |q| <= |all|
  {
    assert |p + q| == |p| + |q|;
    assert all == (p + q) + (all - (p + q));
  }

  lemma ApartSizes(a: set<nat>, b: set<nat>, x: nat)
    requires (x !in a && b == a + {x}) || (x in a && b == a - {x})
    ensures (|b| == |a| + 1 && a <= b) || (|b| + 1 == |a| && b <= a)
  {
    if x in a {
      assert a == b + {x};
    }
  }

  /** Majorities of configurations one voter apart share a voter. */
  lemma MajoritiesOverlap(a: seq<nat>, b: seq<nat>, p: set<nat>, q: set<nat>)
    requires AscendingNats(a) && AscendingNats(b) && OneVoterApart(a, b)
    requires p <= VoterSet(a) && |p| >= Config(a).Quorum() && q <= VoterSet(b) && |q| >= Config(b).Quorum()
    ensures p * q != {}
  {
    hide AscendingNats;
    var x :| (x !in VoterSet(a) && VoterSet(b) == VoterSet(a) + {x}) ||
        (x in VoterSet(a) && VoterSet(b) == VoterSet(a) - {x});
    SizeOf(a);
    SizeOf(b);
    hide VoterSet;
    ApartSizes(VoterSet(a), VoterSet(b), x);
    if p * q == {} {
      DisjointFit(p, q, if |a| <= |b| then VoterSet(b) else VoterSet(a));
    }
  }

  lemma SizeOf(a: seq<nat>)
    requires AscendingNats(a)
    ensures |VoterSet(a)| == |a|
  {
    AscendingNatsCount(a, VoterSet(a));
  }
}
