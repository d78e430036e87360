/**
 * Whole runs with membership changes: loss, repetition, reordering, crashes and restarts as before, and servers may be
 * added and removed at any time.
 */
module MembershipRuns {
  import opened RaftTypes
  import opened LogSpec
  import opened Bytes
  import opened ConfSpec
  import opened NodeSpec
  import opened Storage
  import opened ConfReplay
  import opened DiskRefinement
  import opened Cluster
  import opened Membership
  import opened CommitRule
  import opened Strings

  // ---- Orderly configurations everywhere

  /** An orderly configuration of servers that exist. */
  ghost predicate Known(ids: set<nat>, cfg: Config) {
    Orderly(cfg) && VoterSet(cfg.voters) <= ids
  }

  ghost predicate KnownEntry(ids: set<nat>, e: Entry) {
    e.typ == Conf ==> RecordIn(e).Some? && Known(ids, RecordIn(e).value.cfg)
  }

  /** Every configuration entry can be read, and what it says is orderly. */
  ghost predicate KnownEntries(ids: set<nat>, ents: seq<Entry>) {
    forall k :: 0 <= k < |ents| ==> KnownEntry(ids, ents[k])
  }

  ghost predicate KnownMessage(ids: set<nat>, m: Message) {
    match m
    case App(_, _, _, _, _, ents, _) => KnownEntries(ids, ents)
    case Snap(_, _, _, snapshot) => snapshot.Some? ==> Known(ids, snapshot.value.config)
    case _ => true
  }

  ghost predicate KnownHistory(ids: set<nat>, c: ConfState) {
    && Known(ids, c.config)
    && forall k :: 0 <= k < |c.history| ==> Known(ids, c.history[k].cfg)
  }

  /** A learner is a server outside the configuration, and only a leader has one. */
  ghost predicate KnownLearner(ids: set<nat>, s: NodeState) {
    s.learner != NONE ==> s.role == Leader && s.learner in ids && s.learner !in s.conf.config.voters
  }

  ghost predicate KnownOut(ids: set<nat>, s: NodeState) {
    forall m :: m in s.out.messages ==> KnownMessage(ids, m)
  }

  ghost predicate Sound(ids: set<nat>, s: NodeState) {
    && KnownEntries(ids, s.log.entries)
    && KnownHistory(ids, s.conf)
    && (s.snapshot.Some? ==> Known(ids, s.snapshot.value.config))
    && KnownLearner(ids, s)
    && KnownOut(ids, s)
  }

  /** Once a panic is flagged nothing more is claimed. */
  ghost predicate StaysSound(ids: set<nat>, s: NodeState) {
    s.panicked || Sound(ids, s)
  }

  /** As many servers as a configuration can count, under identifiers it can hold. */
  ghost predicate FewServers(ids: set<nat>) {
    |ids| < U32 && forall id :: id in ids ==> id < U64
  }

  // ---- What only sends, counts or times

  /** Log, configuration, snapshot and learner stay; what is sent is known. */
  lemma QuietSound(ids: set<nat>, s: NodeState, t: NodeState)
    requires StaysSound(ids, s) && (s.panicked ==> t.panicked)
    requires t.log == s.log && t.conf == s.conf && t.snapshot == s.snapshot
    requires t.learner == NONE || (t.learner == s.learner && t.role == s.role)
    requires t.panicked || KnownOut(ids, t)
    ensures StaysSound(ids, t)
  {
    hide KnownEntries, KnownHistory, Known, KnownOut;
  }

  lemma SendSound(ids: set<nat>, s: NodeState, m: Message)
    requires StaysSound(ids, s) && KnownMessage(ids, m)
    ensures StaysSound(ids, Send(s, m))
  {
    hide KnownEntries, KnownHistory, Known, KnownMessage;
  }

  lemma SliceKnown(ids: set<nat>, l: Log, lo: nat, hi: nat, max: nat)
    requires KnownEntries(ids, l.entries)
    ensures KnownEntries(ids, l.Slice(lo, hi, max))
  {
    hide KnownEntry;
  }

  lemma SendAppendSound(ids: set<nat>, s: NodeState, to: nat)
    requires StaysSound(ids, s)
    ensures StaysSound(ids, SendAppend(s, to))
  {
    hide KnownEntries, KnownHistory, Known, Log.Slice;
    if !s.panicked && to in s.prs {
      SliceKnown(ids, s.log, s.prs[to].next, s.log.LastIndex() + 1, s.p.maxBatch);
    }
  }

  lemma {:induction false} SendAppendAllSound(ids: set<nat>, s: NodeState, targets: seq<nat>)
    requires StaysSound(ids, s)
    ensures StaysSound(ids, SendAppendAll(s, targets))
  {
    hide StaysSound, SendAppend;
    if targets != [] {
      SendAppendAllSound(ids, s, targets[..|targets| - 1]);
      SendAppendSound(ids, SendAppendAll(s, targets[..|targets| - 1]), targets[|targets| - 1]);
    }
  }

  lemma BroadcastSound(ids: set<nat>, s: NodeState)
    requires StaysSound(ids, s)
    ensures StaysSound(ids, BroadcastAppend(s))
  {
    hide StaysSound;
    SendAppendAllSound(ids, s, ReplicationTargets(s));
  }

  lemma {:induction false} RequestVotesSound(ids: set<nat>, s: NodeState, voters: seq<nat>, term: nat, pre: bool,
      force: bool)
    requires StaysSound(ids, s)
    ensures StaysSound(ids, RequestVotes(s, voters, term, pre, force))
  {
    hide StaysSound;
    if voters != [] {
      var v, t := voters[|voters| - 1], RequestVotes(s, voters[..|voters| - 1], term, pre, force);
      RequestVotesSound(ids, s, voters[..|voters| - 1], term, pre, force);
      SendSound(ids, t, Vote(s.p.id, v, term, pre, force, s.log.LastIndex(), s.log.LastTerm()));
    }
  }

  lemma FollowerSound(ids: set<nat>, s: NodeState, term: nat, leader: nat)
    requires StaysSound(ids, s)
    ensures StaysSound(ids, BecomeFollower(s, term, leader))
  {
    hide KnownEntries, KnownHistory, Known, KnownMessage, TimeoutOf;
  }

  lemma MaybeCommitSound(ids: set<nat>, s: NodeState)
    requires StaysSound(ids, s)
    ensures StaysSound(ids, MaybeCommit(s))
  {
    hide MedianMatch, BroadcastAppend, BecomeFollower, KnownEntries, KnownHistory, Known, KnownMessage;
    if s.role == Leader && MedianMatch(s).Some? {
      var t := ApplyCommitted(s.(commitIndex := MedianMatch(s).value));
      QuietSound(ids, s, t);
      FollowerSound(ids, t, t.term, NONE);
      BroadcastSound(ids, AfterCommit(t));
    }
  }

  lemma CommitAndBroadcastSound(ids: set<nat>, s: NodeState)
    requires StaysSound(ids, s)
    ensures StaysSound(ids, CommitAndBroadcast(s))
  {
    hide StaysSound, MaybeCommit, BroadcastAppend;
    MaybeCommitSound(ids, s);
    BroadcastSound(ids, MaybeCommit(s));
  }

  // ---- What changes the log

  lemma AppendOneSound(ids: set<nat>, s: NodeState, e: Entry)
    requires StaysSound(ids, s) && KnownEntry(ids, e) && (s.panicked || (e.typ == Conf ==> s.learner == NONE))
    ensures StaysSound(ids, AppendOne(s, e)) && AppendOne(s, e).learner == s.learner
  {
    hide Known, KnownMessage, DecodeConfig;
  }

  lemma {:induction false} AppendAllSound(ids: set<nat>, s: NodeState, ents: seq<Entry>)
    requires StaysSound(ids, s) && KnownEntries(ids, ents) && (s.panicked || s.learner == NONE)
    ensures StaysSound(ids, AppendAll(s, ents)) && (AppendAll(s, ents).panicked || AppendAll(s, ents).learner == NONE)
  {
    hide StaysSound, KnownEntry, AppendOne;
    if ents != [] {
      AppendAllSound(ids, s, ents[..|ents| - 1]);
      AppendOneSound(ids, AppendAll(s, ents[..|ents| - 1]), ents[|ents| - 1]);
    }
  }

  lemma AppendEntrySound(ids: set<nat>, s: NodeState, typ: EntryType, data: seq<byte>)
    requires StaysSound(ids, s) && KnownEntry(ids, Entry(s.log.LastIndex() + 1, s.term, typ, data))
    requires typ == Conf ==> s.learner == NONE
    ensures StaysSound(ids, AppendEntry(s, typ, data))
  {
    hide KnownEntry, AppendOne, KnownEntries, KnownHistory, Known, KnownMessage;
    AppendOneSound(ids, s, Entry(s.log.LastIndex() + 1, s.term, typ, data));
  }

  lemma {:induction false} PopKnown(ids: set<nat>, h: History, i: nat)
    requires forall k :: 0 <= k < |h| ==> Known(ids, h[k].cfg)
    ensures forall k :: 0 <= k < |PopFrom(h, i)| ==> Known(ids, PopFrom(h, i)[k].cfg)
    decreases |h|
  {
    hide Known;
    if |h| > 1 && h[|h| - 1].index >= i {
      PopKnown(ids, h[..|h| - 1], i);
    }
  }

  lemma {:induction false} PruneKnown(ids: set<nat>, h: History, i: nat)
    requires forall k :: 0 <= k < |h| ==> Known(ids, h[k].cfg)
    ensures forall k :: 0 <= k < |Prune(h, i)| ==> Known(ids, Prune(h, i)[k].cfg)
    decreases |h|
  {
    hide Known;
    if |h| > 1 && h[1].index <= i {
      PruneKnown(ids, h[1..], i);
    }
  }

  lemma {:induction false} ConfigAtKnown(ids: set<nat>, h: History, i: nat)
    requires forall k :: 0 <= k < |h| ==> Known(ids, h[k].cfg)
    ensures Known(ids, ConfigAt(h, i))
    decreases |h|
  {
    hide Known;
    if !(|h| == 1 || h[|h| - 1].index <= i) {
      ConfigAtKnown(ids, h[..|h| - 1], i);
    }
  }

  lemma CutSound(ids: set<nat>, s: NodeState, i: nat)
    requires StaysSound(ids, s) && (s.panicked || s.learner == NONE) && s.log.snapIndex < i
    ensures StaysSound(ids, s.(log := s.log.TruncateFrom(i), conf := TruncateConf(s.conf, i)))
  {
    hide Known, KnownEntry, KnownMessage, PopFrom;
    if !s.panicked {
      PopKnown(ids, s.conf.history, i);
    }
  }

  lemma AcceptSound(ids: set<nat>, s: NodeState, ents: seq<Entry>)
    requires StaysSound(ids, s) && KnownEntries(ids, ents) && (s.panicked || s.learner == NONE)
    ensures StaysSound(ids, AcceptEntries(s, ents))
  {
    hide FirstConflict, AppendAll, TruncateConf, Sound, KnownEntry;
    var i := FirstConflict(s.log, ents, 0);
    if i < |ents| {
      var at := ents[i].index;
      AppendAllSound(ids, s, ents[i..]);
      MarkSound(ids, AppendAll(s, ents[i..]), at);
      if s.log.snapIndex < at {
        var t := s.(log := s.log.TruncateFrom(at), conf := TruncateConf(s.conf, at));
        CutSound(ids, s, at);
        AppendAllSound(ids, t, ents[i..]);
        MarkSound(ids, AppendAll(t, ents[i..]), at);
      }
    }
  }

  lemma MarkSound(ids: set<nat>, s: NodeState, i: nat)
    requires StaysSound(ids, s)
    ensures StaysSound(ids, MarkAppended(s, i))
  {
    hide KnownEntries, KnownHistory, Known, KnownMessage;
  }

  lemma HandleAppSound(ids: set<nat>, s: NodeState, m: Message)
    requires m.App? && StaysSound(ids, s) && KnownMessage(ids, m)
    ensures StaysSound(ids, HandleApp(s, m))
  {
    hide HandleAppFrom, BecomeFollower, Sound, KnownEntry;
    if s.role != Leader {
      var s0 := if s.role != Follower then BecomeFollower(s, m.term, m.from) else s;
      FollowerSound(ids, s, m.term, m.from);
      var s1 := FollowLeader(s, m.term, m.from);
      assert StaysSound(ids, s1) && (s1.panicked || s1.learner == NONE) && s1.role != Leader by {
        BecomesFollower(s, m.term, m.from);
        FollowingSound(ids, s0, m.from);
      }
      var skip := if m.prevLogIndex < s1.log.snapIndex then s1.log.snapIndex - m.prevLogIndex else 0;
      SendSound(ids, s1, AppResp(s1.p.id, m.from, s1.term, true, s1.log.snapIndex, 0, 0));
      if skip <= |m.entries| {
        HandleAppFromSound(ids, s1, m, m.prevLogIndex + skip, m.entries[skip..]);
      }
    }
  }

  lemma FollowingSound(ids: set<nat>, s: NodeState, leader: nat)
    requires StaysSound(ids, s) && s.role != Leader
    ensures var t := ResetElection(s.(leaderID := leader)); StaysSound(ids, t) && (t.panicked || t.learner == NONE)
  {
    hide KnownEntries, KnownHistory, Known, KnownMessage;
  }

  lemma HandleAppFromSound(ids: set<nat>, s: NodeState, m: Message, prev: nat, ents: seq<Entry>)
    requires m.App? && StaysSound(ids, s) && KnownEntries(ids, ents)
    requires (s.panicked || s.learner == NONE) && s.role != Leader
    ensures StaysSound(ids, HandleAppFrom(s, m, prev, ents))
  {
    hide AcceptEntries, FollowCommit, Sound, KnownEntries, Log.FirstIndexOfTerm;
    AcceptSound(ids, s, ents);
    SendSound(ids, s, AppResp(s.p.id, m.from, s.term, false, 0, s.log.LastIndex() + 1, 0));
    if s.log.Term(prev).Some? {
      var t := s.log.Term(prev).value;
      SendSound(ids, s, AppResp(s.p.id, m.from, s.term, false, 0, s.log.FirstIndexOfTerm(prev, t), t));
    }
    var s1 := AcceptEntries(s, ents);
    if !s1.panicked {
      CommitSound(ids, s1, m.commit, prev + |ents|);
      var s2 := FollowCommit(s1, m.commit, prev + |ents|);
      SendSound(ids, s2, AppResp(s2.p.id, m.from, s2.term, true, prev + |ents|, 0, 0));
    }
  }

  lemma CommitSound(ids: set<nat>, s: NodeState, commit: nat, lastNew: nat)
    requires StaysSound(ids, s)
    ensures StaysSound(ids, FollowCommit(s, commit, lastNew))
  {
    hide KnownEntries, KnownHistory, Known, KnownMessage;
  }

  // ---- Snapshots

  lemma CompactSound(ids: set<nat>, s: NodeState, snap: Snapshot, t: NodeState)
    requires StaysSound(ids, s) && !t.panicked && !s.panicked && Known(ids, snap.config)
    requires snap.index <= s.log.LastIndex() && t.log == s.log.Compact(snap.index, snap.term)
    requires t.conf == PruneConf(s.conf, snap.index) && t.snapshot == Some(snap) && t.learner == s.learner
    requires t.role == s.role && t.out.messages == s.out.messages
    ensures StaysSound(ids, t)
  {
    hide Known, KnownEntry, KnownMessage, Prune;
    PruneKnown(ids, s.conf.history, snap.index);
  }

  lemma CreateSnapshotSound(ids: set<nat>, s: NodeState, index: nat, data: seq<byte>)
    requires StaysSound(ids, s)
    ensures StaysSound(ids, DoCreateSnapshot(s, index, data))
  {
    hide Sound, PruneConf, ConfigAt, Known;
    var t := s.log.Term(index);
    if !s.panicked && s.log.snapIndex < index <= s.lastApplied && t.Some? {
      var snap := Snapshot(index, t.value, ConfigAt(s.conf.history, index), data);
      assert Known(ids, snap.config) by {
        SnapConfigKnown(ids, s, index);
      }
      CompactSound(ids, s, snap, DoCreateSnapshot(s, index, data));
    }
  }

  lemma SnapConfigKnown(ids: set<nat>, s: NodeState, index: nat)
    requires Sound(ids, s)
    ensures Known(ids, ConfigAt(s.conf.history, index))
  {
    hide Known, ConfigAt, KnownEntries, KnownMessage;
    ConfigAtKnown(ids, s.conf.history, index);
  }

  lemma InstallSound(ids: set<nat>, s: NodeState, m: Message)
    requires m.Snap? && StaysSound(ids, s) && KnownMessage(ids, m)
    ensures StaysSound(ids, InstallSnapshot(s, m))
  {
    hide BecomeFollower, Sound, KeepSuffix, ReplaceLog, Known;
    var s0 := if s.role != Follower then BecomeFollower(s, m.term, m.from) else s;
    FollowerSound(ids, s, m.term, m.from);
    var s1 := FollowLeader(s, m.term, m.from);
    assert StaysSound(ids, s1) && s1.role != Leader by {
      BecomesFollower(s, m.term, m.from);
      FollowingSound(ids, s0, m.from);
    }
    if m.snapshot.Some? {
      var snap := m.snapshot.value;
      SendSound(ids, s1, SnapResp(s1.p.id, m.from, s1.term, s1.commitIndex));
      var s2 := if s1.log.Term(snap.index) == Some(snap.term) then KeepSuffix(s1, snap) else ReplaceLog(s1, snap);
      TakeSnapshotSound(ids, s1, snap);
      SendSound(ids, s2, SnapResp(s2.p.id, m.from, s2.term, snap.index));
    }
  }

  lemma BecomesFollower(s: NodeState, term: nat, leader: nat)
    ensures BecomeFollower(s, term, leader).role == Follower
  {
  }

  lemma TakeSnapshotSound(ids: set<nat>, s: NodeState, snap: Snapshot)
    requires StaysSound(ids, s) && Known(ids, snap.config) && s.role != Leader
    ensures StaysSound(ids, ReplaceLog(s, snap))
    ensures s.log.Term(snap.index).Some? ==> StaysSound(ids, KeepSuffix(s, snap))
  {
    hide Known, KnownMessage, PruneConf, KnownEntry;
    if !s.panicked && s.log.Term(snap.index).Some? {
      CompactSound(ids, s, snap, KeepSuffix(s, snap));
    }
  }

  // ---- Elections

  lemma BecomeLeaderSound(ids: set<nat>, s: NodeState)
    requires StaysSound(ids, s) && s.role != Leader
    ensures StaysSound(ids, BecomeLeader(s))
  {
    hide AppendEntry, MaybeCommit, BroadcastAppend, Sound;
    assert StaysSound(ids, AssumeLeadership(s)) by {
      LeadershipSound(ids, s);
    }
    var t := AppendEntry(AssumeLeadership(s), Noop, []);
    AppendEntrySound(ids, AssumeLeadership(s), Noop, []);
    MaybeCommitSound(ids, t);
    BroadcastSound(ids, MaybeCommit(t));
  }

  lemma LeadershipSound(ids: set<nat>, s: NodeState)
    requires StaysSound(ids, s) && s.role != Leader
    ensures StaysSound(ids, AssumeLeadership(s))
  {
    hide KnownEntries, KnownHistory, Known, KnownMessage, FreshProgress;
  }

  /** A vote counted, a role taken up: nothing that matters here. */
  lemma VotingSound(ids: set<nat>, s: NodeState, t: NodeState)
    requires StaysSound(ids, s) && s.role != Leader && t.role != Leader && t.panicked == s.panicked
    requires t.log == s.log && t.conf == s.conf && t.snapshot == s.snapshot && t.learner == s.learner && t.out == s.out
    ensures StaysSound(ids, t)
  {
    hide KnownEntries, KnownHistory, Known, KnownMessage;
  }

  lemma CampaignSound(ids: set<nat>, s: NodeState, force: bool)
    requires StaysSound(ids, s) && s.role != Leader
    ensures StaysSound(ids, Campaign(s, force))
  {
    hide HasQuorum, BecomeLeader, RequestVotes, Sound, TimeoutOf;
    if Promotable(s) {
      var t := CastVote(BecomeCandidate(s), s.p.id, true);
      VotingSound(ids, s, t);
      BecomeLeaderSound(ids, t);
      RequestVotesSound(ids, t, t.conf.config.voters, t.term, false, force);
    }
  }

  lemma PreCampaignSound(ids: set<nat>, s: NodeState, force: bool)
    requires StaysSound(ids, s) && s.role != Leader
    ensures StaysSound(ids, PreCampaign(s, force))
  {
    hide HasQuorum, Campaign, RequestVotes, Sound, TimeoutOf;
    if Promotable(s) {
      var t := CastVote(BecomePreCandidate(s), s.p.id, true);
      VotingSound(ids, s, t);
      CampaignSound(ids, t, force);
      RequestVotesSound(ids, t, t.conf.config.voters, t.term + 1, true, force);
    }
  }

  lemma VoteRespSound(ids: set<nat>, s: NodeState, m: Message)
    requires m.VoteResp? && StaysSound(ids, s)
    ensures StaysSound(ids, HandleVoteResp(s, m))
  {
    hide HasQuorum, Campaign, BecomeLeader, BecomeFollower, Sound;
    if s.role == PreCandidate || s.role == Candidate {
      var t, f := CastVote(s, m.from, m.granted), CastVote(s, m.from, false);
      VotingSound(ids, s, t);
      VotingSound(ids, s, f);
      VotingSound(ids, s, CastVote(s, m.from, true));
      FollowerSound(ids, t, t.term, NONE);
      FollowerSound(ids, f, f.term, NONE);
      CampaignSound(ids, CastVote(s, m.from, true), m.force);
      BecomeLeaderSound(ids, t);
    }
  }

  lemma VoteSound(ids: set<nat>, s: NodeState, m: Message)
    requires m.Vote? && StaysSound(ids, s)
    ensures StaysSound(ids, HandleVote(s, m))
  {
    hide KnownEntries, KnownHistory, Known, LogUpToDate, Sticky;
    SendSound(ids, s, VoteResp(s.p.id, m.from, s.term, false, false, false));
    SendSound(ids, s, VoteResp(s.p.id, m.from, s.term, true, false, false));
    SendSound(ids, s, VoteResp(s.p.id, m.from, m.term, true, false, true));
    var t := ResetElection(s.(votedFor := m.from, dirty := s.dirty.(hs := true)));
    QuietSound(ids, s, t);
    SendSound(ids, t, VoteResp(s.p.id, m.from, s.term, false, false, true));
  }

  // ---- The leader, and the changes it makes

  lemma KnownConfEntry(ids: set<nat>, i: nat, term: nat, cfg: Config)
    requires Known(ids, cfg)
    ensures KnownEntry(ids, Entry(i, term, Conf, EncodeConfig(cfg)))
  {
    hide EncodeConfig, DecodeConfig, VoterSet, AscendingNats;
    ConfigRoundTrip(cfg);
  }

  /** There is room for one voter more among the servers. */
  lemma RoomForOne(ids: set<nat>, voters: seq<nat>, v: nat)
    requires FewServers(ids) && AscendingNats(voters) && VoterSet(voters) <= ids && v in ids && v !in voters
    ensures |voters| + 1 < U32
  {
    hide AscendingNats;
    SizeOf(voters);
    assert VoterSet(voters) <= ids - {v};
    assert ids == VoterSet(voters) + (ids - VoterSet(voters));
    assert v in ids - VoterSet(voters);
  }

  lemma RemoveSound(ids: set<nat>, s: NodeState, id: nat)
    requires StaysSound(ids, s) && s.learner == NONE
    ensures StaysSound(ids, DoRemoveServer(s, id))
  {
    hide AppendEntry, CommitAndBroadcast, EncodeConfig, WithoutVoter, Sound, KnownEntry;
    var voters := s.conf.config.voters;
    RepliedSound(ids, s, Reject(s));
    if s.panicked {
      RemovePanics(s, id);
    } else if s.conf.config.Contains(id) && |voters| != 1 {
      var cfg := Config(WithoutVoter(voters, id));
      assert Known(ids, cfg) by {
        RemovedKnown(ids, s, id);
      }
      KnownConfEntry(ids, s.log.LastIndex() + 1, s.term, cfg);
      AppendEntrySound(ids, s, Conf, EncodeConfig(cfg));
      var s1 := AppendEntry(s, Conf, EncodeConfig(cfg));
      var s2 := if id != s1.p.id then s1.(prs := s1.prs - {id}) else s1;
      var s3 := Reply(s2, ProposeReply(true, s2.log.LastIndex(), s2.term, 0));
      RepliedSound(ids, s1, s3);
      CommitAndBroadcastSound(ids, s3);
    }
  }

  lemma RemovePanics(s: NodeState, id: nat)
    requires s.panicked
    ensures DoRemoveServer(s, id).panicked
  {
    hide AppendEntry, CommitAndBroadcast, EncodeConfig, WithoutVoter;
    var s1 := AppendEntry(s, Conf, EncodeConfig(Config(WithoutVoter(s.conf.config.voters, id))));
    AppendPanics(s, EncodeConfig(Config(WithoutVoter(s.conf.config.voters, id))));
    var s2 := if id != s1.p.id then s1.(prs := s1.prs - {id}) else s1;
    CommitAndBroadcastVolatile(Reply(s2, ProposeReply(true, s2.log.LastIndex(), s2.term, 0)));
  }

  lemma PromotePanics(s: NodeState, from: nat)
    requires s.panicked
    ensures MaybePromoteLearner(s, from).panicked
  {
    hide AppendEntry, CommitAndBroadcast, EncodeConfig, InsertSorted;
    var t := s.(learner := NONE);
    var data := EncodeConfig(Config(InsertSorted(s.conf.config.voters, from)));
    AppendPanics(t, data);
    CommitAndBroadcastVolatile(AppendEntry(t, Conf, data));
  }

  lemma RepliedSound(ids: set<nat>, s: NodeState, t: NodeState)
    requires StaysSound(ids, s) && t == s.(prs := t.prs, out := t.out) && t.out.messages == s.out.messages
    ensures StaysSound(ids, t)
  {
    hide KnownEntries, KnownHistory, Known, KnownMessage;
  }

  lemma RemovedKnown(ids: set<nat>, s: NodeState, id: nat)
    requires Sound(ids, s) && id in s.conf.config.voters && |s.conf.config.voters| != 1
    ensures Known(ids, Config(WithoutVoter(s.conf.config.voters, id)))
  {
    hide WithoutVoter, AscendingNats, KnownEntries, KnownOut;
    var voters := s.conf.config.voters;
    WithoutAscending(voters, id);
    WithoutOne(voters, id);
    RemovedOrderly(voters, id);
  }

  lemma PromoteSound(ids: set<nat>, s: NodeState, from: nat)
    requires StaysSound(ids, s) && FewServers(ids)
    ensures StaysSound(ids, MaybePromoteLearner(s, from))
  {
    hide AppendEntry, CommitAndBroadcast, EncodeConfig, InsertSorted, Sound, KnownEntry;
    if s.panicked {
      PromotePanics(s, from);
    } else if s.learner != NONE && s.learner == from {
      var cfg := Config(InsertSorted(s.conf.config.voters, from));
      assert Known(ids, cfg) by {
        InsertedKnown(ids, s);
      }
      var t := s.(learner := NONE);
      assert StaysSound(ids, t) by {
        NoLearnerSound(ids, s);
      }
      KnownConfEntry(ids, t.log.LastIndex() + 1, t.term, cfg);
      AppendEntrySound(ids, t, Conf, EncodeConfig(cfg));
      CommitAndBroadcastSound(ids, AppendEntry(t, Conf, EncodeConfig(cfg)));
    }
  }

  lemma NoLearnerSound(ids: set<nat>, s: NodeState)
    requires Sound(ids, s)
    ensures Sound(ids, s.(learner := NONE))
  {
    hide KnownEntries, KnownHistory, Known, KnownMessage;
  }

  lemma InsertedKnown(ids: set<nat>, s: NodeState)
    requires Sound(ids, s) && s.learner != NONE && FewServers(ids)
    ensures Known(ids, Config(InsertSorted(s.conf.config.voters, s.learner)))
  {
    hide InsertSorted, AscendingNats, KnownEntries, KnownOut;
    var voters := s.conf.config.voters;
    RoomForOne(ids, voters, s.learner);
    InsertAscending(voters, s.learner);
    InsertedOrderly(voters, s.learner);
  }

  lemma AfterProgressSound(ids: set<nat>, s: NodeState, from: nat, next: nat)
    requires StaysSound(ids, s) && FewServers(ids)
    ensures StaysSound(ids, AfterProgress(s, from, next))
  {
    hide MaybePromoteLearner, SendAppend, StaysSound, FewServers;
    PromoteSound(ids, s, from);
    SendAppendSound(ids, MaybePromoteLearner(s, from), from);
  }

  lemma ProgressSound(ids: set<nat>, s: NodeState, from: nat, pr: Progress)
    requires StaysSound(ids, s)
    ensures StaysSound(ids, s.(prs := s.prs[from := pr]))
  {
    hide Sound;
    RepliedSound(ids, s, s.(prs := s.prs[from := pr]));
  }

  lemma AppRespSound(ids: set<nat>, s: NodeState, m: Message)
    requires m.AppResp? && StaysSound(ids, s) && FewServers(ids)
    ensures StaysSound(ids, HandleAppResp(s, m))
  {
    hide MaybeCommit, AfterProgress, SetMatch, BackupNext, SendAppend, StaysSound, FewServers;
    if s.role == Leader && m.term == s.term && m.from in s.prs {
      if m.success {
        var pr := SetMatch(s.prs[m.from], m.matchIndex);
        ProgressSound(ids, s, m.from, pr);
        var s1 := MaybeCommit(s.(prs := s.prs[m.from := pr]));
        MaybeCommitSound(ids, s.(prs := s.prs[m.from := pr]));
        SendSound(ids, s1, TimeoutNow(s1.p.id, m.from, s1.term));
        AfterProgressSound(ids, s1, m.from, pr.next);
        AfterProgressSound(ids, Send(s1, TimeoutNow(s1.p.id, m.from, s1.term)), m.from, pr.next);
      } else {
        var pr := s.prs[m.from].(recentActive := true,
            next := BackupNext(s.log, s.prs[m.from], m.conflictIndex, m.conflictTerm));
        ProgressSound(ids, s, m.from, pr);
        SendAppendSound(ids, s.(prs := s.prs[m.from := pr]), m.from);
      }
    }
  }

  lemma SnapRespSound(ids: set<nat>, s: NodeState, m: Message)
    requires m.SnapResp? && StaysSound(ids, s) && FewServers(ids)
    ensures StaysSound(ids, HandleSnapResp(s, m))
  {
    hide MaybeCommit, AfterProgress, SetMatch, StaysSound, FewServers;
    if s.role == Leader && m.term == s.term && m.from in s.prs {
      var pr := SetMatch(s.prs[m.from], m.matchIndex);
      ProgressSound(ids, s, m.from, pr);
      MaybeCommitSound(ids, s.(prs := s.prs[m.from := pr]));
      AfterProgressSound(ids, MaybeCommit(s.(prs := s.prs[m.from := pr])), m.from, pr.next);
    }
  }

  lemma AddSound(ids: set<nat>, s: NodeState, id: nat)
    requires StaysSound(ids, s) && s.role == Leader && id in ids
    ensures StaysSound(ids, DoAddServer(s, id))
  {
    hide SendAppend, Sound;
    if s.conf.config.Contains(id) || id == s.p.id || id == NONE {
      RepliedSound(ids, s, Reject(s));
    } else {
      var s1 := s.(learner := id, prs := s.prs[id := Progress(s.log.LastIndex() + 1, 0, false, false)]);
      assert StaysSound(ids, s1) by {
        LearnerSound(ids, s, s1);
      }
      RepliedSound(ids, s1, Reply(s1, ProposeReply(true, 0, s1.term, 0)));
      SendAppendSound(ids, Reply(s1, ProposeReply(true, 0, s1.term, 0)), id);
    }
  }

  lemma LearnerSound(ids: set<nat>, s: NodeState, t: NodeState)
    requires StaysSound(ids, s) && t == s.(learner := t.learner, prs := t.prs) && s.role == Leader
    requires t.learner in ids && t.learner !in s.conf.config.voters
    ensures StaysSound(ids, t)
  {
    hide KnownEntries, KnownHistory, Known, KnownMessage;
  }

  // ---- Whole inputs

  /** What may come in: known messages, and changes that concern existing servers. */
  ghost predicate KnownInput(ids: set<nat>, i: Input) {
    match i
    case Receive(m) => KnownMessage(ids, m)
    case ProposeConfChange(ch) => ch.id in ids
    case _ => true
  }

  lemma DispatchSound(ids: set<nat>, s: NodeState, m: Message)
    requires StaysSound(ids, s) && KnownMessage(ids, m) && FewServers(ids)
    ensures StaysSound(ids, Dispatch(s, m))
  {
    hide HandleVote, HandleVoteResp, HandleApp, HandleAppResp, InstallSnapshot, HandleSnapResp, Campaign, StaysSound,
         KnownMessage, FewServers;
    match m
    case Vote(_, _, _, _, _, _, _) => VoteSound(ids, s, m);
    case VoteResp(_, _, _, _, _, _) => VoteRespSound(ids, s, m);
    case App(_, _, _, _, _, _, _) => HandleAppSound(ids, s, m);
    case AppResp(_, _, _, _, _, _, _) => AppRespSound(ids, s, m);
    case Snap(_, _, _, _) => InstallSound(ids, s, m);
    case SnapResp(_, _, _, _) => SnapRespSound(ids, s, m);
    case TimeoutNow(_, _, _) =>
      if s.role != Leader {
        CampaignSound(ids, s, true);
      }
  }

  lemma ReceiveSound(ids: set<nat>, s: NodeState, m: Message)
    requires StaysSound(ids, s) && KnownMessage(ids, m) && FewServers(ids)
    ensures StaysSound(ids, DoReceive(s, m))
  {
    hide Dispatch, BecomeFollower, KnownMessage, FewServers, Sound;
    var f, g := BecomeFollower(s, m.term, NONE), BecomeFollower(s, m.term, m.from);
    FollowerSound(ids, s, m.term, NONE);
    FollowerSound(ids, s, m.term, m.from);
    DispatchSound(ids, s, m);
    DispatchSound(ids, f, m);
    DispatchSound(ids, g, m);
    RefusalsSound(ids, s, m);
  }

  /** The answers to stale and refused requests. */
  lemma RefusalsSound(ids: set<nat>, s: NodeState, m: Message)
    requires StaysSound(ids, s)
    ensures StaysSound(ids, RespondStale(s, m.from)) && StaysSound(ids, Panic(s))
    ensures forall preVote :: StaysSound(ids, Send(s, VoteResp(s.p.id, m.from, s.term, preVote, false, false)))
  {
    hide Sound;
    SendSound(ids, s, AppResp(s.p.id, m.from, s.term, false, 0, s.log.LastIndex() + 1, 0));
    forall preVote ensures StaysSound(ids, Send(s, VoteResp(s.p.id, m.from, s.term, preVote, false, false))) {
      SendSound(ids, s, VoteResp(s.p.id, m.from, s.term, preVote, false, false));
    }
  }

  lemma ClockSound(ids: set<nat>, s: NodeState, t: NodeState)
    requires StaysSound(ids, s) && t == s.(clock := t.clock, transferee := t.transferee, prs := t.prs)
    ensures StaysSound(ids, t)
  {
    hide KnownEntries, KnownHistory, Known, KnownMessage;
  }

  lemma HeartbeatSound(ids: set<nat>, s: NodeState)
    requires StaysSound(ids, s)
    ensures StaysSound(ids, Heartbeat(s))
  {
    hide BroadcastAppend, Sound;
    var t := s.(clock := s.clock.(heartbeatElapsed := 0));
    ClockSound(ids, s, t);
    BroadcastSound(ids, t);
  }

  lemma TickSound(ids: set<nat>, s: NodeState)
    requires StaysSound(ids, s)
    ensures StaysSound(ids, DoTick(s))
  {
    hide TickLeader, PreCampaign, Campaign, Sound;
    if s.role == Leader {
      TickLeaderSound(ids, s);
    } else {
      var t := s.(clock := s.clock.(electionElapsed := s.clock.electionElapsed + 1));
      ClockSound(ids, s, t);
      PreCampaignSound(ids, t, false);
      CampaignSound(ids, t, false);
    }
  }

  lemma TickLeaderSound(ids: set<nat>, s: NodeState)
    requires StaysSound(ids, s)
    ensures StaysSound(ids, TickLeader(s))
  {
    hide Heartbeat, QuorumActive, ReplicationTargets, ForgetActivity, BecomeFollower, Sound;
    var s1 := s.(clock := s.clock.(heartbeatElapsed := s.clock.heartbeatElapsed + 1,
                                   quorumElapsed := s.clock.quorumElapsed + 1));
    var s2 := TickTransfer(s1);
    ClockSound(ids, s, s2);
    HeartbeatSound(ids, s2);
    var s3 := s2.(clock := s2.clock.(quorumElapsed := 0));
    ClockSound(ids, s2, s3);
    FollowerSound(ids, s3, s3.term, NONE);
    var s4 := s3.(prs := ForgetActivity(s3.prs, ReplicationTargets(s3)));
    ClockSound(ids, s3, s4);
    HeartbeatSound(ids, s4);
  }

  lemma ProposeSound(ids: set<nat>, s: NodeState, data: seq<byte>)
    requires StaysSound(ids, s)
    ensures StaysSound(ids, DoPropose(s, data))
  {
    hide AppendEntry, CommitAndBroadcast, Sound;
    RepliedSound(ids, s, Reject(s));
    var s1 := AppendEntry(s, Normal, data);
    AppendEntrySound(ids, s, Normal, data);
    var s2 := Reply(s1, ProposeReply(true, s1.log.LastIndex(), s1.term, 0));
    RepliedSound(ids, s1, s2);
    CommitAndBroadcastSound(ids, s2);
  }

  lemma ChangeSound(ids: set<nat>, s: NodeState, ch: ConfChange)
    requires StaysSound(ids, s) && ch.id in ids
    ensures StaysSound(ids, DoProposeConfChange(s, ch))
  {
    hide DoAddServer, DoRemoveServer, Sound;
    RepliedSound(ids, s, Reject(s));
    if s.role == Leader && s.learner == NONE {
      AddSound(ids, s, ch.id);
      RemoveSound(ids, s, ch.id);
    }
  }

  lemma TransferSound(ids: set<nat>, s: NodeState, target: nat)
    requires StaysSound(ids, s)
    ensures StaysSound(ids, DoTransfer(s, target))
  {
    hide SendAppend, Sound;
    RepliedSound(ids, s, Reject(s));
    var t := s.(transferee := target, clock := s.clock.(transferElapsed := 0));
    ClockSound(ids, s, t);
    var u := Reply(t, ProposeReply(true, 0, s.term, 0));
    RepliedSound(ids, t, u);
    SendSound(ids, u, TimeoutNow(u.p.id, target, u.term));
    SendAppendSound(ids, u, target);
  }

  lemma HandleSound(ids: set<nat>, s: NodeState, i: Input)
    requires StaysSound(ids, s) && KnownInput(ids, i) && FewServers(ids)
    ensures StaysSound(ids, Handle(s, i))
  {
    hide DoTick, DoReceive, DoPropose, DoProposeConfChange, DoTransfer, DoCreateSnapshot, StaysSound, KnownMessage,
         FewServers;
    match i
    case Tick => TickSound(ids, s);
    case Receive(m) => ReceiveSound(ids, s, m);
    case Propose(data) => ProposeSound(ids, s, data);
    case ProposeConfChange(ch) => ChangeSound(ids, s, ch);
    case TransferLeadership(target) => TransferSound(ids, s, target);
    case CreateSnapshot(index, data) => CreateSnapshotSound(ids, s, index, data);
  }

  /** Every Step keeps all configurations orderly, in the log, in the history, and in what is sent. */
  lemma StepSound(ids: set<nat>, s: NodeState, i: Input)
    requires Sound(ids, s) && KnownInput(ids, i) && FewServers(ids) && !Step(s, i).panicked
    ensures Sound(ids, Step(s, i))
  {
    hide Handle, PersistOf, KnownEntries, KnownHistory, Known, KnownMessage, FewServers, KnownInput;
    assert Sound(ids, Begin(s));
    HandleSound(ids, Begin(s), i);
  }

  // ---- Runs

  /** A panic ends the program, so a Step that panics leads nowhere; changes concern servers of the cluster. */
  ghost predicate OffersAny(c: State, id: nat, i: Input)
    requires Alive(c, id)
  {
    && MayOffer(c, id, i)
    && (i.ProposeConfChange? ==> i.change.id in c.servers)
    && !Step(NodeOf(c, id), i).panicked
  }

  ghost predicate NextAny(voters: seq<nat>, c: State, a: Action, c': State) {
    match a
    case StepAt(id, i) =>
      Alive(c, id) && OffersAny(c, id, i) && c' == AfterStep(c, id, i)
    case CrashAtFsync(id, i) =>
      Alive(c, id) && OffersAny(c, id, i) && Step(NodeOf(c, id), i).out.persist.Some? && c' == AfterCrash(c, id)
    case Crash(id) =>
      Alive(c, id) && c' == AfterCrash(c, id)
    case Restart(id, p) =>
      id in c.servers && !Alive(c, id) && p.id == id && c' == AfterRestart(voters, c, id, p)
  }

  ghost predicate ValidAny(voters: seq<nat>, r: Run) {
    && |r.states| == |r.actions| + 1
    && Init(voters, r.states[0])
    && FewServers(r.states[0].servers.Keys) && voters != [] && AscendingNats(voters)
    && forall k :: 0 <= k < |r.actions| ==> NextAny(voters, r.states[k], r.actions[k], r.states[k + 1])
  }

  /** A node in order, and a disk that mirrors it. */
  ghost predicate NodeSound(ids: set<nat>, d: Disk, s: NodeState) {
    Mirrors(d, s) && WellFormed(s) && ConfWellFormed(s) && s.lastApplied == s.commitIndex && !s.panicked && Sound(ids, s)
  }

  const SOMEONE := Params(1, 1, 1, 1, false, k => 0)

  /** The node of a server, or what a restart would make of its disk. */
  ghost function Revived(voters: seq<nat>, sv: Server): NodeState {
    if sv.node.Some? then sv.node.value
    else NewNode(SOMEONE, voters, Load(sv.disk))
  }

  ghost predicate ServerSound(ids: set<nat>, voters: seq<nat>, sv: Server) {
    NodeSound(ids, sv.disk, Revived(voters, sv))
  }

  ghost predicate AllSound(voters: seq<nat>, c: State) {
    var ids := c.servers.Keys;
    && FewServers(ids) && Known(ids, Config(voters))
    && (forall id :: id in c.servers ==> ServerSound(ids, voters, c.servers[id]))
    && (forall m :: m in c.net ==> KnownMessage(ids, m))
  }

  /** A restart from the disk of a node in order is in order. */
  lemma RestartSound(ids: set<nat>, voters: seq<nat>, d: Disk, s: NodeState, p: Params)
    requires NodeSound(ids, d, s) && Known(ids, Config(voters))
    ensures NodeSound(ids, d, NewNode(p, voters, Load(d)))
  {
    hide ConfWellFormed, Sound, NewNode, Known, WellFormed;
    ConfDecodable(s);
    RestartRecovers(d, s, p, voters);
    RestartReplays(d, s, p, voters);
    RestartKnown(ids, voters, d, s, p);
  }

  lemma RestartKnown(ids: set<nat>, voters: seq<nat>, d: Disk, s: NodeState, p: Params)
    requires Mirrors(d, s) && Sound(ids, s) && Known(ids, Config(voters))
    ensures StaysSound(ids, NewNode(p, voters, Load(d)))
  {
    hide Known, KnownEntry, AppendAll, BecomeFollower;
    var b := Blank(p, voters, d.hs);
    var s1 := if d.snap.Some? then LoadSnapshot(b, d.snap.value) else b;
    AppendAllSound(ids, s1, d.entries);
    var s2 := AppendAll(s1, d.entries);
    FollowerSound(ids, s2, s2.term, NONE);
  }

  lemma StepNodeSound(ids: set<nat>, d: Disk, s: NodeState, i: Input)
    requires NodeSound(ids, d, s) && FewServers(ids) && KnownInput(ids, i) && !Step(s, i).panicked
    ensures var t := Step(s, i); NodeSound(ids, Fsync(d, t.out.persist), t)
  {
    hide Step, Sound, ConfWellFormed, WellFormed, FewServers, KnownInput, Write, Discontinuous;
    StepSound(ids, s, i);
    StepMirrors(d, s, i);
    StepKeepsConf(s, i);
    StepKeepsApplied(s, i);
  }

  lemma OfferedKnown(voters: seq<nat>, c: State, id: nat, i: Input)
    requires AllSound(voters, c) && Alive(c, id) && OffersAny(c, id, i)
    ensures KnownInput(c.servers.Keys, i) && NodeSound(c.servers.Keys, c.servers[id].disk, NodeOf(c, id))
  {
    hide KnownMessage, Step, NodeSound, Known;
    assert ServerSound(c.servers.Keys, voters, c.servers[id]);
  }

  lemma SentKnown(ids: set<nat>, s: NodeState)
    requires Sound(ids, s)
    ensures forall m :: m in Sent(s) ==> KnownMessage(ids, m)
  {
    hide KnownMessage, KnownEntries, KnownHistory, Known, KnownLearner;
  }

  lemma NextSound(voters: seq<nat>, c: State, a: Action, c': State)
    requires AllSound(voters, c) && NextAny(voters, c, a, c')
    ensures AllSound(voters, c') && c'.servers.Keys == c.servers.Keys
  {
    hide NodeSound, KnownMessage, Known, Step, NewNode, OffersAny, FewServers, AllSound;
    match a
    case StepAt(id, i) =>
      StepAtSound(voters, c, id, i);
    case CrashAtFsync(id, i) =>
      CrashSound(voters, c, id);
    case Crash(id) =>
      CrashSound(voters, c, id);
    case Restart(id, p) =>
      RestartedSound(voters, c, id, p);
  }

  lemma RestartedSound(voters: seq<nat>, c: State, id: nat, p: Params)
    requires AllSound(voters, c) && id in c.servers
    ensures AllSound(voters, AfterRestart(voters, c, id, p))
  {
    hide NodeSound, KnownMessage, Known, NewNode, FewServers;
    var ids := c.servers.Keys;
    assert ServerSound(ids, voters, c.servers[id]);
    RestartSound(ids, voters, c.servers[id].disk, Revived(voters, c.servers[id]), p);
    assert AfterRestart(voters, c, id, p).servers.Keys == ids;
  }

  lemma StepAtSound(voters: seq<nat>, c: State, id: nat, i: Input)
    requires AllSound(voters, c) && Alive(c, id) && OffersAny(c, id, i)
    ensures AllSound(voters, AfterStep(c, id, i))
  {
    hide KnownMessage, Known, Step, NewNode, FewServers, Sound, WellFormed, ConfWellFormed, KnownInput, Fsync, Mirrors;
    var ids := c.servers.Keys;
    OfferedKnown(voters, c, id, i);
    StepNodeSound(ids, c.servers[id].disk, NodeOf(c, id), i);
    SentKnown(ids, Step(NodeOf(c, id), i));
    assert c.servers[id := AfterStep(c, id, i).servers[id]].Keys == ids;
  }

  lemma CrashSound(voters: seq<nat>, c: State, id: nat)
    requires AllSound(voters, c) && Alive(c, id)
    ensures AllSound(voters, AfterCrash(c, id))
  {
    hide KnownMessage, Known, NewNode, FewServers, NodeSound;
    var ids := c.servers.Keys;
    assert ServerSound(ids, voters, c.servers[id]);
    assert Known(ids, Config(voters));
    RestartSound(ids, voters, c.servers[id].disk, NodeOf(c, id), SOMEONE);
    assert AfterCrash(c, id).servers.Keys == ids;
  }

  lemma InitSound(voters: seq<nat>, c: State)
    requires Init(voters, c) && FewServers(c.servers.Keys) && voters != [] && AscendingNats(voters)
    ensures AllSound(voters, c)
  {
    var ids := c.servers.Keys;
    assert Known(ids, Config(voters)) by {
      VotersKnown(ids, voters);
    }
    hide NewNode, NodeSound, Known, KnownMessage;
    forall id | id in c.servers ensures ServerSound(ids, voters, c.servers[id]) {
      FirstSound(ids, voters, c.servers[id].node.value.p);
    }
  }

  lemma VotersKnown(ids: set<nat>, voters: seq<nat>)
    requires FewServers(ids) && voters != [] && AscendingNats(voters) && forall v :: v in voters ==> v in ids
    ensures Known(ids, Config(voters))
  {
    hide AscendingNats;
    SizeOf(voters);
    assert VoterSet(voters) <= ids;
    assert ids == VoterSet(voters) + (ids - VoterSet(voters));
    forall k | 0 <= k < |voters| ensures voters[k] < U64 {
      assert voters[k] in voters;
    }
  }

  lemma FirstSound(ids: set<nat>, voters: seq<nat>, p: Params)
    requires Known(ids, Config(voters))
    ensures NodeSound(ids, EMPTY_DISK, NewNode(p, voters, Load(EMPTY_DISK)))
  {
    hide Known, KnownMessage;
    var s := NewNode(p, voters, Load(EMPTY_DISK));
    assert s.log == Log(0, 0, []) && s.conf == InitConf(0, Config(voters));
    assert s.conf.history[1..] == [];
  }

  lemma {:induction false} RunSound(voters: seq<nat>, r: Run, k: nat)
    requires ValidAny(voters, r) && k < |r.states|
    ensures AllSound(voters, r.states[k]) && r.states[k].servers.Keys == r.states[0].servers.Keys
  {
    hide AllSound, NextAny, Init, FewServers;
    if k == 0 {
      InitSound(voters, r.states[0]);
    } else {
      RunSound(voters, r, k - 1);
      NextSound(voters, r.states[k - 1], r.actions[k - 1], r.states[k]);
    }
  }

  lemma SoundAt(voters: seq<nat>, r: Run, k: nat, id: nat)
    requires ValidAny(voters, r) && k < |r.states| && id in r.states[k].servers
    ensures NodeSound(r.states[k].servers.Keys, r.states[k].servers[id].disk, Revived(voters, r.states[k].servers[id]))
  {
    hide ValidAny, NodeSound, Known, KnownMessage, FewServers;
    RunSound(voters, r, k);
    assert ServerSound(r.states[k].servers.Keys, voters, r.states[k].servers[id]);
  }

  // ---- The theorems

  /**
   * In every run with membership changes, every configuration entry on any disk can be read and is nonempty and strictly
   * ascending, and so is the configuration of every snapshot and every live server.
   */
  lemma ConfigurationsOrderly(voters: seq<nat>, r: Run, k: nat, id: nat, e: Entry)
    requires ValidAny(voters, r) && k < |r.states| && id in r.states[k].servers
    ensures var d := r.states[k].servers[id].disk;
      && (e in d.entries && e.typ == Conf ==> DecodeConfig(e.data).Some? && Orderly(DecodeConfig(e.data).value))
      && (d.snap.Some? ==> Orderly(d.snap.value.config))
    ensures Alive(r.states[k], id) ==> Orderly(NodeOf(r.states[k], id).conf.config)
  {
    hide ValidAny, Orderly, WellFormed, ConfWellFormed, NewNode, KnownLearner, KnownOut;
    SoundAt(voters, r, k, id);
    var d := r.states[k].servers[id].disk;
    if e in d.entries {
      var j :| 0 <= j < |d.entries| && d.entries[j] == e;
      assert KnownEntry(r.states[k].servers.Keys, d.entries[j]);
    }
  }

  /** Every configuration entry on its way is orderly too. */
  lemma MessagesOrderly(voters: seq<nat>, r: Run, k: nat, m: Message, e: Entry)
    requires ValidAny(voters, r) && k < |r.states| && m in r.states[k].net && m.App? && e in m.entries && e.typ == Conf
    ensures DecodeConfig(e.data).Some? && Orderly(DecodeConfig(e.data).value)
  {
    hide ValidAny, Orderly, ServerSound, FewServers;
    RunSound(voters, r, k);
    assert KnownMessage(r.states[k].servers.Keys, m);
    var j :| 0 <= j < |m.entries| && m.entries[j] == e;
    assert KnownEntry(r.states[k].servers.Keys, m.entries[j]);
  }

  /** The disk of a live server mirrors it after every event, and its cached configuration is the replay of its log. */
  lemma MirrorsAndReplays(voters: seq<nat>, r: Run, k: nat, id: nat)
    requires ValidAny(voters, r) && k < |r.states| && Alive(r.states[k], id)
    ensures var s := NodeOf(r.states[k], id);
      && Mirrors(r.states[k].servers[id].disk, s)
      && s.conf.config == ReplayConf(s.conf.history[0].cfg, s.log.entries)
      && (forall i :: s.log.snapIndex <= i <= s.log.LastIndex() ==>
        ConfigAt(s.conf.history, i) == ReplayConf(s.conf.history[0].cfg, s.log.entries[..i - s.log.snapIndex]))
  {
    hide ValidAny, Sound, ConfReplays, ReplayConf, ConfigAt;
    SoundAt(voters, r, k, id);
    var s := NodeOf(r.states[k], id);
    CachedIsReplay(s.log, s.conf);
    forall i | s.log.snapIndex <= i <= s.log.LastIndex()
      ensures ConfigAt(s.conf.history, i) == ReplayConf(s.conf.history[0].cfg, s.log.entries[..i - s.log.snapIndex])
    {
      ConfigAtIsReplay(s.log, s.conf, i);
    }
  }

  /** No restart of a run panics, and each recovers what the server last made durable. */
  lemma RestartsSurvive(voters: seq<nat>, r: Run, k: nat)
    requires ValidAny(voters, r) && k < |r.actions| && r.actions[k].Restart?
    ensures var id := r.actions[k].id;
      && Alive(r.states[k + 1], id) && !NodeOf(r.states[k + 1], id).panicked
      && Mirrors(r.states[k].servers[id].disk, NodeOf(r.states[k + 1], id))
  {
    hide NodeSound, Known, KnownMessage, FewServers, Init, NewNode;
    var id := r.actions[k].id;
    assert NextAny(voters, r.states[k], r.actions[k], r.states[k + 1]);
    SoundAt(voters, r, k + 1, id);
    SoundSurvives(r.states[k + 1].servers.Keys, r.states[k + 1].servers[id].disk, NodeOf(r.states[k + 1], id));
  }

  lemma SoundSurvives(ids: set<nat>, d: Disk, s: NodeState)
    requires NodeSound(ids, d, s)
    ensures !s.panicked && Mirrors(d, s)
  {
    hide Sound, WellFormed, ConfWellFormed;
  }

  /** A majority of the voters the node counts with. */
  ghost predicate Majority(s: NodeState, p: set<nat>) {
    p <= VoterSet(s.conf.config.voters) && |p| >= s.conf.config.Quorum()
  }

  /**
   * In every run, an event that leaves a leader in its term leaves its configuration alone, or changes one voter while the
   * last change is committed; then majorities of the two configurations share a voter.
   */
  lemma DisciplineInRuns(voters: seq<nat>, r: Run, k: nat, p: set<nat>, q: set<nat>)
    requires ValidAny(voters, r) && k < |r.actions| && r.actions[k].StepAt?
    requires var id := r.actions[k].id;
      Alive(r.states[k], id) && Alive(r.states[k + 1], id)
      && StaysLeader(NodeOf(r.states[k], id), NodeOf(r.states[k + 1], id))
    ensures var s, t := NodeOf(r.states[k], r.actions[k].id), NodeOf(r.states[k + 1], r.actions[k].id);
      && Disciplined(s, t.conf)
      && (Majority(s, p) && Majority(t, q) ==> p * q != {})
  {
    hide Init, Step, Disciplined, StaysLeader, Known, KnownMessage, FewServers, NodeSound;
    var c, id, i := r.states[k], r.actions[k].id, r.actions[k].input;
    var s, t := NodeOf(c, id), NodeOf(r.states[k + 1], id);
    assert NextAny(voters, c, r.actions[k], r.states[k + 1]);
    assert t == Step(s, i);
    RunSound(voters, r, k);
    SoundAt(voters, r, k, id);
    LeaderReady(c.servers.Keys, c.servers[id].disk, s);
    MembershipDiscipline(s, i);
    if Majority(s, p) && Majority(t, q) {
      ChangesOverlap(s, t.conf, p, q);
    }
  }

  lemma LeaderReady(ids: set<nat>, d: Disk, s: NodeState)
    requires NodeSound(ids, d, s) && FewServers(ids)
    ensures ConfWellFormed(s) && Orderly(s.conf.config)
    ensures s.learner != NONE ==> |s.conf.config.voters| + 1 < U32 && s.learner < U64
  {
    hide ConfReplays, KnownEntries, KnownOut, WellFormed, AscendingNats;
    if s.learner != NONE {
      RoomForOne(ids, s.conf.config.voters, s.learner);
    }
  }

  lemma ChangesOverlap(s: NodeState, c: ConfState, p: set<nat>, q: set<nat>)
    requires Orderly(s.conf.config) && Disciplined(s, c)
    requires p <= VoterSet(s.conf.config.voters) && |p| >= s.conf.config.Quorum()
    requires q <= VoterSet(c.config.voters) && |q| >= c.config.Quorum()
    ensures p * q != {}
  {
    hide AscendingNats, VoterSet;
    if c.config == s.conf.config {
      SizeOf(s.conf.config.voters);
      if p * q == {} {
        DisjointFit(p, q, VoterSet(s.conf.config.voters));
      }
    } else {
      MajoritiesOverlap(s.conf.config.voters, c.config.voters, p, q);
    }
  }

  /** With membership changes too, a leader has committed all that the commit rule lets it commit. */
  lemma {:induction false} CommitsAreCurrent(voters: seq<nat>, r: Run, k: nat, a: nat)
    requires ValidAny(voters, r) && k < |r.states| && Alive(r.states[k], a)
    ensures Current(NodeOf(r.states[k], a))
    decreases k
  {
    hide Step, Current, NewNode, Fsync, MayOffer, FewServers, NodeSound;
    if k == 0 {
      StartsFollower(NodeOf(r.states[0], a).p, voters, EMPTY_DISK);
    } else {
      var c, act := r.states[k - 1], r.actions[k - 1];
      assert NextAny(voters, c, act, r.states[k - 1 + 1]);
      if act.Restart? && act.id == a {
        StartsFollower(act.p, voters, c.servers[a].disk);
      } else {
        CommitsAreCurrent(voters, r, k - 1, a);
        if act.StepAt? && act.id == a {
          SoundAt(voters, r, k - 1, a);
          SoundApplied(c.servers.Keys, c.servers[a].disk, NodeOf(c, a));
          StepCurrent(NodeOf(c, a), act.input);
        }
      }
    }
  }

  lemma SoundApplied(ids: set<nat>, d: Disk, s: NodeState)
    requires NodeSound(ids, d, s)
    ensures s.lastApplied <= s.commitIndex
  {
    hide Sound, WellFormed, ConfWellFormed;
  }
}
