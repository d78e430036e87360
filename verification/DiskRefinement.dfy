/** The disk refines the node: after every Step on any input, what was persisted is exactly the node's durable state. */
module DiskRefinement {
  import opened RaftTypes
  import opened LogSpec
  import opened ConfSpec
  import opened NodeSpec
  import opened Storage
  import opened ConfReplay

  ghost predicate Mirrors(d: Disk, s: NodeState) {
    d == Disk(HardState(s.term, s.votedFor), s.snapshot, s.log.entries)
  }

  /** The log starts right after the snapshot, and nothing below it is uncommitted. */
  ghost predicate WellFormed(s: NodeState) {
    && s.log.Contiguous()
    && s.log.snapIndex <= s.commitIndex
    && (if s.log.snapIndex == 0 then s.snapshot.None? && s.log.snapTerm == 0
        else s.snapshot.Some? && s.snapshot.value.index == s.log.snapIndex && s.snapshot.value.term == s.log.snapTerm)
  }

  /** One Step's change to the log: a new tail, or a new snapshot point. */
  ghost predicate LogChange(l0: Log, l: Log, dirty: Dirty) {
    match dirty.snap
    case None =>
      && l.snapIndex == l0.snapIndex && l.snapTerm == l0.snapTerm
      && (if dirty.appendedFrom == 0 then l.entries == l0.entries else NewTail(l0, l, dirty.appendedFrom))
    case Some(p) =>
      && dirty.appendedFrom == 0
      && p.hardState.None? && p.entries == [] && p.snapshot.Some?
      && p.snapshot.value.index == l.snapIndex && p.snapshot.value.term == l.snapTerm
      && l0.snapIndex < l.snapIndex
      && (p.replaceLog ==> l.entries == [])
      && (!p.replaceLog ==> l.snapIndex <= l0.LastIndex())
      && (!p.replaceLog ==>
           l.entries == l0.entries[l.snapIndex - l0.snapIndex..] &&
           l0.Term(l.snapIndex) == Some(l.snapTerm))
  }

  /** The logs share what is below index a; where the old one reached a, its term there differed. */
  ghost predicate NewTail(l0: Log, l: Log, a: nat) {
    && l.snapIndex == l0.snapIndex
    && l0.snapIndex < a <= l.LastIndex() && a <= l0.LastIndex() + 1
    && l.entries[..a - l0.snapIndex - 1] == l0.entries[..a - l0.snapIndex - 1]
    && (a <= l0.LastIndex() ==> l.Term(a) != l0.Term(a))
  }

  /** What has changed since the Step began is exactly what is marked dirty. */
  ghost predicate Tracks(s0: NodeState, s: NodeState) {
    && WellFormed(s)
    && (!s.dirty.hs ==> s.term == s0.term && s.votedFor == s0.votedFor)
    && LogChange(s0.log, s.log, s.dirty)
    && s.snapshot == (if s.dirty.snap.Some? then s.dirty.snap.value.snapshot else s0.snapshot)
    && (s0.lastApplied == s0.commitIndex ==> s.lastApplied == s.commitIndex)
    && (ConfWellFormed(s0) ==> ConfWellFormed(s))
    && BaseTracks(s0, s)
  }

  /** The base of the configuration history moves only with the snapshot. */
  ghost predicate BaseTracks(s0: NodeState, s: NodeState) {
    match s.dirty.snap
    case None => s.conf.history[0] == s0.conf.history[0] && (s.dirty.appendedFrom == 0 ==> s.conf == s0.conf)
    case Some(p) =>
      && p.snapshot.Some?
      && (if p.replaceLog then s.conf == InitConf(p.snapshot.value.index, p.snapshot.value.config)
          else ConfWellFormed(s0) ==> s.conf.history[0].cfg == ConfigAt(s0.conf.history, p.snapshot.value.index))
  }

  /** Once a panic is flagged nothing more is claimed. */
  ghost predicate Follows(s0: NodeState, s: NodeState) {
    s.panicked || Tracks(s0, s)
  }

  /** Only what needs no fsync may differ. */
  ghost predicate Volatile(s: NodeState, t: NodeState) {
    && (s.panicked ==> t.panicked)
    && (!t.panicked ==>
      && t.term == s.term && t.votedFor == s.votedFor && t.log == s.log && t.snapshot == s.snapshot && t.dirty == s.dirty
      && t.commitIndex >= s.commitIndex && t.conf == s.conf
      && (s.lastApplied == s.commitIndex ==> t.lastApplied == t.commitIndex)
      && (t.learner == NONE || (t.learner == s.learner && (s.role == Leader ==> t.role == Leader))))
  }

  lemma VolatileFollows(s0: NodeState, s: NodeState, t: NodeState)
    requires Follows(s0, s) && Volatile(s, t)
    ensures Follows(s0, t)
  {
  }

  lemma VolatileTrans(s: NodeState, t: NodeState, u: NodeState)
    requires Volatile(s, t) && Volatile(t, u)
    ensures Volatile(s, u)
  {
  }

  // ---- What only sends, counts or times

  lemma {:induction false} SendAppendAllVolatile(s: NodeState, targets: seq<nat>)
    ensures Volatile(s, SendAppendAll(s, targets))
  {
    if targets != [] {
      SendAppendAllVolatile(s, targets[..|targets| - 1]);
    }
  }

  lemma {:induction false} RequestVotesVolatile(s: NodeState, voters: seq<nat>, term: nat, pre: bool, force: bool)
    ensures Volatile(s, RequestVotes(s, voters, term, pre, force))
  {
    if voters != [] {
      RequestVotesVolatile(s, voters[..|voters| - 1], term, pre, force);
    }
  }

  lemma MaybeCommitVolatile(s: NodeState)
    ensures Volatile(s, MaybeCommit(s))
  {
    hide MedianMatch;
    if s.role == Leader && MedianMatch(s).Some? {
      var t := AfterCommit(ApplyCommitted(s.(commitIndex := MedianMatch(s).value)));
      SendAppendAllVolatile(t, ReplicationTargets(t));
    }
  }

  lemma CommitAndBroadcastVolatile(s: NodeState)
    ensures Volatile(s, CommitAndBroadcast(s))
  {
    hide MaybeCommit;
    MaybeCommitVolatile(s);
    var t := MaybeCommit(s);
    SendAppendAllVolatile(t, ReplicationTargets(t));
    VolatileTrans(s, t, BroadcastAppend(t));
  }

  // ---- What changes the log

  lemma FollowerFollows(s0: NodeState, s: NodeState, term: nat, leader: nat)
    requires Follows(s0, s)
    ensures Follows(s0, BecomeFollower(s, term, leader))
  {
  }

  /** Appends one entry of the node's own. */
  lemma AppendEntryFollows(s0: NodeState, s: NodeState, typ: EntryType, data: seq<byte>)
    requires Follows(s0, s)
    requires s.panicked || s.dirty.snap.None?
    requires typ == Conf ==> s.learner == NONE
    ensures Follows(s0, AppendEntry(s, typ, data))
    ensures AppendEntry(s, typ, data).panicked || AppendEntry(s, typ, data).dirty.snap.None?
  {
    hide ConfReplays, LogChange, WellFormed;
    if !s.panicked {
      var e := Entry(s.log.LastIndex() + 1, s.term, typ, data);
      AppendOneConf(s, e);
      AppendOneLog(s, e);
      AppendChanges(s0.log, s.log, s.dirty, e);
      var t := AppendEntry(s, typ, data);
      if !t.panicked {
        AppendWellFormed(s, t, e);
      }
    }
  }

  lemma AppendOneLog(s: NodeState, e: Entry)
    requires e.index == s.log.LastIndex() + 1
    ensures AppendOne(s, e).log == s.log.Append(e)
    ensures var t := AppendOne(s, e);
      t.term == s.term && t.votedFor == s.votedFor && t.snapshot == s.snapshot && t.dirty == s.dirty &&
      t.commitIndex == s.commitIndex
      && t.role == s.role && t.lastApplied == s.lastApplied
  {
  }

  lemma AppendWellFormed(s: NodeState, t: NodeState, e: Entry)
    requires WellFormed(s) && t.log == s.log.Append(e) && e.index == s.log.LastIndex() + 1
    requires t.commitIndex == s.commitIndex && t.snapshot == s.snapshot
    ensures WellFormed(t)
  {
  }

  lemma AppendChanges(l0: Log, l: Log, dirty: Dirty, e: Entry)
    requires LogChange(l0, l, dirty) && dirty.snap.None?
    ensures var a := if dirty.appendedFrom == 0 || l.LastIndex() + 1 < dirty.appendedFrom then l.LastIndex() + 1
                     else dirty.appendedFrom;
      LogChange(l0, l.Append(e), dirty.(appendedFrom := a))
  {
    var a := dirty.appendedFrom;
    if a != 0 {
      assert l.Append(e).entries[..a - l.snapIndex - 1] == l.entries[..a - l.snapIndex - 1];
    } else {
      assert l.Append(e).entries[..|l.entries|] == l.entries;
    }
  }

  lemma AppendOneConf(s: NodeState, e: Entry)
    ensures ConfReplays(s.log, s.conf) && !AppendOne(s, e).panicked ==>
        ConfReplays(AppendOne(s, e).log, AppendOne(s, e).conf)
    ensures AppendOne(s, e).conf.history[0] == s.conf.history[0]
    ensures AppendOne(s, e).learner == s.learner && (e.typ != Conf ==> AppendOne(s, e).conf == s.conf)
  {
    hide ConfReplays;
    if ConfReplays(s.log, s.conf) && !AppendOne(s, e).panicked {
      AppendReplays(s, e);
    }
  }

  lemma {:induction false} AppendAllGrows(s: NodeState, ents: seq<Entry>)
    ensures var t := AppendAll(s, ents);
      && (s.panicked ==> t.panicked)
      && (!t.panicked ==>
        && t.log == Log(s.log.snapIndex, s.log.snapTerm, s.log.entries + ents)
        && t.term == s.term && t.votedFor == s.votedFor && t.snapshot == s.snapshot && t.dirty == s.dirty
        && t.commitIndex == s.commitIndex && t.lastApplied == s.lastApplied
        && t.conf.history[0] == s.conf.history[0] && t.learner == s.learner && t.role == s.role
        && forall k :: 0 <= k < |ents| ==> ents[k].index == s.log.LastIndex() + 1 + k)
  {
    hide AppendOne;
    if ents == [] {
      assert s.log.entries + ents == s.log.entries;
    } else {
      var n := |ents| - 1;
      AppendAllGrows(s, ents[..n]);
      AppendOneGrows(AppendAll(s, ents[..n]), ents[n]);
      assert s.log.entries + ents == (s.log.entries + ents[..n]) + [ents[n]];
    }
  }

  lemma AppendOneGrows(s: NodeState, e: Entry)
    ensures var t := AppendOne(s, e);
      && (s.panicked ==> t.panicked)
      && (!t.panicked ==>
        && e.index == s.log.LastIndex() + 1 && t.log == s.log.Append(e)
        && t.term == s.term && t.votedFor == s.votedFor && t.snapshot == s.snapshot && t.dirty == s.dirty
        && t.commitIndex == s.commitIndex && t.lastApplied == s.lastApplied
        && t.conf.history[0] == s.conf.history[0] && t.learner == s.learner && t.role == s.role)
  {
  }

  /** Cutting at the first difference and appending the rest changes nothing below it. */
  lemma TailChanged(l: Log, ents: seq<Entry>)
    requires l.Contiguous() && ents != [] && l.Term(ents[0].index) != Some(ents[0].term)
    requires l.Term(ents[0].index).Some? ==> l.snapIndex < ents[0].index
    requires var l1 := if l.Term(ents[0].index).Some? then l.TruncateFrom(ents[0].index) else l;
      forall k :: 0 <= k < |ents| ==> ents[k].index == l1.LastIndex() + 1 + k
    ensures var l1 := if l.Term(ents[0].index).Some? then l.TruncateFrom(ents[0].index) else l;
      var l' := Log(l1.snapIndex, l1.snapTerm, l1.entries + ents);
      l'.Contiguous() && NewTail(l, l', ents[0].index)
  {
    var a := ents[0].index;
    var l1 := if l.Term(a).Some? then l.TruncateFrom(a) else l;
    var l' := Log(l1.snapIndex, l1.snapTerm, l1.entries + ents);
    assert l1.entries == l.entries[..a - l.snapIndex - 1];
    assert l'.entries[..a - l.snapIndex - 1] == l1.entries;
  }

  lemma {:induction false} PopKeepsBase(h: History, i: nat)
    ensures PopFrom(h, i)[0] == h[0]
    decreases |h|
  {
    if |h| > 1 && h[|h| - 1].index >= i {
      PopKeepsBase(h[..|h| - 1], i);
    }
  }

  /** The configuration history follows the log through cutting and appending. */
  lemma SplicedConf(s: NodeState, s1: NodeState, rest: seq<Entry>)
    requires s.log.Contiguous() && rest != [] && !AppendAll(s1, rest).panicked
    requires s.log.Term(rest[0].index).Some? ==> s.log.snapIndex < rest[0].index
    requires s1 == if s.log.Term(rest[0].index).Some?
                   then s.(log := s.log.TruncateFrom(rest[0].index), conf := TruncateConf(s.conf, rest[0].index)) else s
    ensures ConfReplays(s.log, s.conf) ==> ConfReplays(AppendAll(s1, rest).log, AppendAll(s1, rest).conf)
    ensures AppendAll(s1, rest).conf.history[0] == s.conf.history[0]
  {
    PopKeepsBase(s.conf.history, rest[0].index);
    AppendAllGrows(s1, rest);
    hide ConfReplays, TruncateConf, AppendAll;
    if ConfReplays(s.log, s.conf) {
      if s.log.Term(rest[0].index).Some? {
        TruncateReplays(s.log, s.conf, rest[0].index);
      }
      AppendAllReplays(s1, rest);
    }
  }

  lemma AcceptFollows(s0: NodeState, s: NodeState, ents: seq<Entry>)
    requires Follows(s0, s)
    requires s.panicked || (s.dirty.snap.None? && s.dirty.appendedFrom == 0)
    requires s.role != Leader
    ensures Follows(s0, AcceptEntries(s, ents))
  {
    hide FirstConflict, AppendAll, TruncateConf, NewTail, ConfReplays;
    var i := FirstConflict(s.log, ents, 0);
    if i < |ents| {
      var rest := ents[i..];
      assert rest[0] == ents[i];
      var cut := s.log.Term(rest[0].index).Some?;
      if !(cut && (rest[0].index <= s.commitIndex || rest[0].index <= s.log.snapIndex)) {
        var s1 := if cut then s.(log := s.log.TruncateFrom(rest[0].index),
            conf := TruncateConf(s.conf, rest[0].index)) else s;
        AppendAllGrows(s1, rest);
        if !AppendAll(s1, rest).panicked {
          TailChanged(s.log, rest);
          SplicedConf(s, s1, rest);
        }
      }
    }
  }

  lemma HandleAppFromFollows(s0: NodeState, s: NodeState, m: Message, prev: nat, ents: seq<Entry>)
    requires m.App? && Follows(s0, s) && s.role != Leader
    requires s.panicked || (s.dirty.snap.None? && s.dirty.appendedFrom == 0)
    ensures Follows(s0, HandleAppFrom(s, m, prev, ents))
  {
    hide AcceptEntries, WellFormed, LogChange;
    AcceptFollows(s0, s, ents);
    var t := AcceptEntries(s, ents);
    if !t.panicked {
      VolatileFollows(s0, t, RespondApp(FollowCommit(t, m.commit, prev + |ents|), m.from, true, prev + |ents|, 0, 0));
    }
    SendFollows(s0, s, AppResp(s.p.id, m.from, s.term, false, 0, s.log.LastIndex() + 1, 0));
    if s.log.Term(prev).Some? {
      var t := s.log.Term(prev).value;
      SendFollows(s0, s, AppResp(s.p.id, m.from, s.term, false, 0, s.log.FirstIndexOfTerm(prev, t), t));
    }
  }

  lemma HandleAppFollows(s0: NodeState, s: NodeState, m: Message)
    requires m.App? && Follows(s0, s)
    requires s.panicked || (s.dirty.snap.None? && s.dirty.appendedFrom == 0)
    ensures Follows(s0, HandleApp(s, m))
  {
    hide HandleAppFrom, WellFormed, LogChange;
    if s.role != Leader {
      var a := if s.role != Follower then BecomeFollower(s, m.term, m.from) else s;
      FollowerFollows(s0, s, m.term, m.from);
      var s1 := ResetElection(a.(leaderID := m.from));
      VolatileFollows(s0, a, s1);
      var skip := if m.prevLogIndex < s1.log.snapIndex then s1.log.snapIndex - m.prevLogIndex else 0;
      SendFollows(s0, s1, AppResp(s1.p.id, m.from, s1.term, true, s1.log.snapIndex, 0, 0));
      if skip <= |m.entries| {
        HandleAppFromFollows(s0, s1, m, m.prevLogIndex + skip, m.entries[skip..]);
      }
    }
  }

  /** Compaction leaves the entries after the new snapshot point. */
  lemma CompactFollows(s0: NodeState, s: NodeState, t: NodeState, snap: Snapshot)
    requires Tracks(s0, s) && s.dirty.snap.None? && s.dirty.appendedFrom == 0
    requires s.log.snapIndex < snap.index <= s.log.LastIndex() && s.log.Term(snap.index) == Some(snap.term)
    requires t.log == s.log.Compact(snap.index, snap.term) && t.snapshot == Some(snap)
    requires t.dirty == s.dirty.(snap := Some(Persist(None, [], Some(snap), false)))
    requires t.term == s.term && t.votedFor == s.votedFor && t.commitIndex >= snap.index
    requires s.lastApplied == s.commitIndex ==> t.lastApplied == t.commitIndex
    requires t.conf == PruneConf(s.conf, snap.index) && t.learner == s.learner && t.role == s.role
    requires t.commitIndex >= s.commitIndex
    ensures Tracks(s0, t)
  {
    hide ConfReplays, Prune, ConfigAt;
    if ConfReplays(s.log, s.conf) {
      CompactReplays(s.log, s.conf, snap.index, snap.term);
      PrunedBase(s.log, s.conf, snap.index);
    }
  }

  lemma CreateSnapshotFollows(s0: NodeState, s: NodeState, index: nat, data: seq<byte>)
    requires Follows(s0, s) && (s.panicked || (s.dirty == CLEAN && s.lastApplied <= s.commitIndex))
    ensures Follows(s0, DoCreateSnapshot(s, index, data))
  {
    var t := DoCreateSnapshot(s, index, data);
    if !t.panicked && index > s.log.snapIndex {
      CompactFollows(s0, s, t, t.snapshot.value);
    }
  }

  lemma KeepSuffixFollows(s0: NodeState, s: NodeState, snap: Snapshot)
    requires Tracks(s0, s) && s.dirty.snap.None? && s.dirty.appendedFrom == 0
    requires s.commitIndex < snap.index && s.log.Term(snap.index) == Some(snap.term)
    ensures Tracks(s0, KeepSuffix(s, snap))
  {
    hide Tracks;
    assert s.log.snapIndex < snap.index by {
      TracksOrder(s0, s);
    }
    CompactFollows(s0, s, KeepSuffix(s, snap), snap);
  }

  lemma TracksOrder(s0: NodeState, s: NodeState)
    requires Tracks(s0, s)
    ensures s.log.snapIndex <= s.commitIndex
  {
  }

  lemma ReplaceLogFollows(s0: NodeState, s: NodeState, snap: Snapshot)
    requires Tracks(s0, s) && s.dirty.snap.None? && s.dirty.appendedFrom == 0
    requires s.commitIndex < snap.index && s.role != Leader
    ensures Tracks(s0, ReplaceLog(s, snap))
  {
    hide ConfReplays;
    ResetReplays(snap.index, snap.term, snap.config);
  }

  lemma InstallFollows(s0: NodeState, s: NodeState, m: Message)
    requires m.Snap? && Follows(s0, s)
    requires s.panicked || (s.dirty.snap.None? && s.dirty.appendedFrom == 0)
    ensures Follows(s0, InstallSnapshot(s, m))
  {
    hide Tracks, KeepSuffix, ReplaceLog;
    var a := if s.role != Follower then BecomeFollower(s, m.term, m.from) else s;
    FollowerFollows(s0, s, m.term, m.from);
    var s1 := ResetElection(a.(leaderID := m.from));
    VolatileFollows(s0, a, s1);
    if m.snapshot.Some? {
      var snap := m.snapshot.value;
      SendFollows(s0, s1, SnapResp(s1.p.id, m.from, s1.term, s1.commitIndex));
      if snap.index > s1.commitIndex {
        InstallKeepsPanic(s1, snap);
        var s2 := if s1.log.Term(snap.index) == Some(snap.term) then KeepSuffix(s1, snap) else ReplaceLog(s1, snap);
        if !s1.panicked {
          if s1.log.Term(snap.index) == Some(snap.term) {
            KeepSuffixFollows(s0, s1, snap);
          } else {
            ReplaceLogFollows(s0, s1, snap);
          }
        }
        SendFollows(s0, s2, SnapResp(s2.p.id, m.from, s2.term, snap.index));
      }
    }
  }

  lemma InstallKeepsPanic(s: NodeState, snap: Snapshot)
    ensures s.panicked && s.log.Term(snap.index) == Some(snap.term) ==> KeepSuffix(s, snap).panicked
    ensures s.panicked ==> ReplaceLog(s, snap).panicked
  {
  }

  // ---- Elections

  lemma BecomeLeaderFollows(s0: NodeState, s: NodeState)
    requires Follows(s0, s) && (s.panicked || s.dirty.snap.None?) && s.role != Leader
    ensures Follows(s0, BecomeLeader(s))
  {
    hide AppendEntry, MaybeCommit, BroadcastAppend;
    var t := AssumeLeadership(s);
    VolatileFollows(s0, s, t);
    AppendEntryFollows(s0, t, Noop, []);
    var u := AppendEntry(t, Noop, []);
    MaybeCommitVolatile(u);
    VolatileFollows(s0, u, MaybeCommit(u));
    BroadcastVolatile(MaybeCommit(u));
    VolatileFollows(s0, MaybeCommit(u), BroadcastAppend(MaybeCommit(u)));
  }

  lemma BroadcastVolatile(s: NodeState)
    ensures Volatile(s, BroadcastAppend(s))
  {
    SendAppendAllVolatile(s, ReplicationTargets(s));
  }

  lemma CampaignFollows(s0: NodeState, s: NodeState, force: bool)
    requires Follows(s0, s) && (s.panicked || s.dirty.snap.None?) && s.role != Leader
    ensures Follows(s0, Campaign(s, force))
  {
    hide HasQuorum, BecomeLeader, RequestVotes;
    if Promotable(s) {
      var t := CastVote(BecomeCandidate(s), s.p.id, true);
      BecomeLeaderFollows(s0, t);
      RequestVotesVolatile(t, t.conf.config.voters, t.term, false, force);
      VolatileFollows(s0, t, RequestVotes(t, t.conf.config.voters, t.term, false, force));
    }
  }

  lemma PreCampaignFollows(s0: NodeState, s: NodeState, force: bool)
    requires Follows(s0, s) && (s.panicked || s.dirty.snap.None?) && s.role != Leader
    ensures Follows(s0, PreCampaign(s, force))
  {
    hide HasQuorum, Campaign, RequestVotes;
    if Promotable(s) {
      var t := CastVote(BecomePreCandidate(s), s.p.id, true);
      VolatileFollows(s0, s, t);
      CampaignFollows(s0, t, force);
      RequestVotesVolatile(t, t.conf.config.voters, t.term + 1, true, force);
      VolatileFollows(s0, t, RequestVotes(t, t.conf.config.voters, t.term + 1, true, force));
    }
  }

  lemma VoteRespFollows(s0: NodeState, s: NodeState, m: Message)
    requires m.VoteResp? && Follows(s0, s) && (s.panicked || s.dirty.snap.None?)
    ensures Follows(s0, HandleVoteResp(s, m))
  {
    hide HasQuorum, Campaign, BecomeLeader;
    var t, f := CastVote(s, m.from, m.granted), CastVote(s, m.from, false);
    VolatileFollows(s0, s, t);
    VolatileFollows(s0, s, f);
    FollowerFollows(s0, t, t.term, NONE);
    FollowerFollows(s0, f, f.term, NONE);
    if s.role != Leader {
      CampaignFollows(s0, CastVote(s, m.from, true), m.force);
      BecomeLeaderFollows(s0, t);
    }
  }

  // ---- The leader

  lemma PromoteFollows(s0: NodeState, s: NodeState, from: nat)
    requires Follows(s0, s) && (s.panicked || s.dirty.snap.None?)
    ensures Follows(s0, MaybePromoteLearner(s, from))
  {
    hide AppendEntry, CommitAndBroadcast, InsertSorted, EncodeConfig;
    var data := EncodeConfig(Config(InsertSorted(s.conf.config.voters, from)));
    var t := s.(learner := NONE);
    VolatileFollows(s0, s, t);
    AppendEntryFollows(s0, t, Conf, data);
    CommitAndBroadcastVolatile(AppendEntry(t, Conf, data));
    VolatileFollows(s0, AppendEntry(t, Conf, data), CommitAndBroadcast(AppendEntry(t, Conf, data)));
  }

  lemma AfterProgressFollows(s0: NodeState, s: NodeState, from: nat, next: nat)
    requires Follows(s0, s) && (s.panicked || s.dirty.snap.None?)
    ensures Follows(s0, AfterProgress(s, from, next))
  {
    hide MaybePromoteLearner;
    PromoteFollows(s0, s, from);
    var t := MaybePromoteLearner(s, from);
    VolatileFollows(s0, t, SendAppend(t, from));
  }

  lemma AppRespFollows(s0: NodeState, s: NodeState, m: Message)
    requires m.AppResp? && Follows(s0, s) && (s.panicked || s.dirty.snap.None?)
    ensures Follows(s0, HandleAppResp(s, m))
  {
    hide MaybeCommit, AfterProgress, SetMatch, BackupNext, Follows, Volatile;
    if !(s.role != Leader || m.term != s.term || m.from !in s.prs) {
      if m.success {
        var pr := SetMatch(s.prs[m.from], m.matchIndex);
        CommitProgressFollows(s0, s, m.from, pr);
        var s1 := MaybeCommit(s.(prs := s.prs[m.from := pr]));
        var s2 := Send(s1, TimeoutNow(s1.p.id, m.from, s1.term));
        SendFollows(s0, s1, TimeoutNow(s1.p.id, m.from, s1.term));
        AfterProgressFollows(s0, s1, m.from, pr.next);
        AfterProgressFollows(s0, s2, m.from, pr.next);
      } else {
        var pr := s.prs[m.from];
        var next := BackupNext(s.log, pr, m.conflictIndex, m.conflictTerm);
        BackupFollows(s0, s, m.from, pr.(recentActive := true, next := next));
      }
    }
  }

  lemma SendFollows(s0: NodeState, s: NodeState, m: Message)
    requires Follows(s0, s)
    ensures Follows(s0, Send(s, m))
  {
  }

  lemma BackupFollows(s0: NodeState, s: NodeState, from: nat, pr: Progress)
    requires Follows(s0, s)
    ensures Follows(s0, SendAppend(s.(prs := s.prs[from := pr]), from))
  {
    var t := s.(prs := s.prs[from := pr]);
    VolatileFollows(s0, s, t);
    VolatileFollows(s0, t, SendAppend(t, from));
  }

  lemma CommitProgressFollows(s0: NodeState, s: NodeState, from: nat, pr: Progress)
    requires Follows(s0, s) && (s.panicked || s.dirty.snap.None?)
    ensures var t := MaybeCommit(s.(prs := s.prs[from := pr])); Follows(s0, t) && (t.panicked || t.dirty.snap.None?)
  {
    hide MaybeCommit;
    var t := s.(prs := s.prs[from := pr]);
    MaybeCommitVolatile(t);
    VolatileFollows(s0, s, t);
    VolatileFollows(s0, t, MaybeCommit(t));
  }

  lemma SnapRespFollows(s0: NodeState, s: NodeState, m: Message)
    requires m.SnapResp? && Follows(s0, s) && (s.panicked || s.dirty.snap.None?)
    ensures Follows(s0, HandleSnapResp(s, m))
  {
    hide MaybeCommit, AfterProgress, SetMatch, Follows;
    if !(s.role != Leader || m.term != s.term || m.from !in s.prs) {
      var pr := SetMatch(s.prs[m.from], m.matchIndex);
      CommitProgressFollows(s0, s, m.from, pr);
      AfterProgressFollows(s0, MaybeCommit(s.(prs := s.prs[m.from := pr])), m.from, pr.next);
    }
  }

  // ---- Whole inputs

  lemma DispatchFollows(s0: NodeState, s: NodeState, m: Message)
    requires Follows(s0, s) && (s.panicked || (s.dirty.snap.None? && s.dirty.appendedFrom == 0))
    ensures Follows(s0, Dispatch(s, m))
  {
    hide HandleVoteResp, HandleApp, HandleAppResp, InstallSnapshot, HandleSnapResp, Campaign;
    match m
    case Vote(_, _, _, _, _, _, _) =>
    case VoteResp(_, _, _, _, _, _) => VoteRespFollows(s0, s, m);
    case App(_, _, _, _, _, _, _) => HandleAppFollows(s0, s, m);
    case AppResp(_, _, _, _, _, _, _) => AppRespFollows(s0, s, m);
    case Snap(_, _, _, _) => InstallFollows(s0, s, m);
    case SnapResp(_, _, _, _) => SnapRespFollows(s0, s, m);
    case TimeoutNow(_, _, _) =>
      if s.role != Leader {
        CampaignFollows(s0, s, true);
      }
  }

  lemma ReceiveFollows(s0: NodeState, s: NodeState, m: Message)
    requires Follows(s0, s) && (s.panicked || s.dirty == CLEAN)
    ensures Follows(s0, DoReceive(s, m))
  {
    hide Dispatch;
    DispatchFollows(s0, s, m);
    FollowerFollows(s0, s, m.term, NONE);
    FollowerFollows(s0, s, m.term, m.from);
    DispatchFollows(s0, BecomeFollower(s, m.term, NONE), m);
    DispatchFollows(s0, BecomeFollower(s, m.term, m.from), m);
  }

  lemma HeartbeatVolatile(s: NodeState)
    ensures Volatile(s, Heartbeat(s))
  {
    var t := s.(clock := s.clock.(heartbeatElapsed := 0));
    BroadcastVolatile(t);
  }

  lemma TickFollows(s0: NodeState, s: NodeState)
    requires Follows(s0, s) && (s.panicked || s.dirty == CLEAN)
    ensures Follows(s0, DoTick(s))
  {
    if s.role == Leader {
      TickLeaderVolatile(s);
      VolatileFollows(s0, s, TickLeader(s));
    } else {
      hide PreCampaign, Campaign;
      var t := s.(clock := s.clock.(electionElapsed := s.clock.electionElapsed + 1));
      VolatileFollows(s0, s, t);
      PreCampaignFollows(s0, t, false);
      CampaignFollows(s0, t, false);
    }
  }

  lemma TickLeaderVolatile(s: NodeState)
    ensures Volatile(s, TickLeader(s))
  {
    hide Heartbeat, QuorumActive, ReplicationTargets, ForgetActivity;
    var s1 := s.(clock := s.clock.(heartbeatElapsed := s.clock.heartbeatElapsed + 1,
                                   quorumElapsed := s.clock.quorumElapsed + 1));
    var s2 := TickTransfer(s1);
    HeartbeatVolatile(s2);
    var s3 := s2.(clock := s2.clock.(quorumElapsed := 0));
    HeartbeatVolatile(s3.(prs := ForgetActivity(s3.prs, ReplicationTargets(s3))));
  }

  lemma ProposeFollows(s0: NodeState, s: NodeState, data: seq<byte>)
    requires Follows(s0, s) && (s.panicked || s.dirty == CLEAN)
    ensures Follows(s0, DoPropose(s, data))
  {
    hide AppendEntry, CommitAndBroadcast;
    AppendEntryFollows(s0, s, Normal, data);
    var s1 := AppendEntry(s, Normal, data);
    var s2 := Reply(s1, ProposeReply(true, s1.log.LastIndex(), s1.term, 0));
    VolatileFollows(s0, s1, s2);
    CommitAndBroadcastVolatile(s2);
    VolatileFollows(s0, s2, CommitAndBroadcast(s2));
  }

  lemma ConfChangeFollows(s0: NodeState, s: NodeState, ch: ConfChange)
    requires Follows(s0, s) && (s.panicked || s.dirty == CLEAN)
    ensures Follows(s0, DoProposeConfChange(s, ch))
  {
    hide Follows, DoAddServer, DoRemoveServer;
    VolatileFollows(s0, s, Reject(s));
    if !(s.role != Leader || s.transferee != NONE || s.conf.index > s.commitIndex || s.learner != NONE) {
      AddFollows(s0, s, ch.id);
      RemoveFollows(s0, s, ch.id);
    }
  }

  lemma AddFollows(s0: NodeState, s: NodeState, id: nat)
    requires Follows(s0, s) && s.role == Leader && s.conf.index <= s.commitIndex && s.learner == NONE
    ensures Follows(s0, DoAddServer(s, id))
  {
    hide ConfReplays, LogChange, WellFormed, SendAppend;
    VolatileFollows(s0, s, Reject(s));
    if !(s.conf.config.Contains(id) || id == s.p.id || id == NONE) {
      var s1 := s.(learner := id, prs := s.prs[id := Progress(s.log.LastIndex() + 1, 0, false, false)]);
      var s2 := Reply(s1, ProposeReply(true, 0, s1.term, 0));
      assert Follows(s0, s2) by {
        LearnerTracks(s0, s, s2);
      }
      SendAppendVolatile(s2, id);
      VolatileFollows(s0, s2, SendAppend(s2, id));
    }
  }

  lemma LearnerTracks(s0: NodeState, s: NodeState, t: NodeState)
    requires Follows(s0, s) && t == s.(learner := t.learner, prs := t.prs, out := t.out) && LearnerInv(t)
    ensures Follows(s0, t)
  {
    hide ConfReplays, LogChange;
  }

  lemma SendAppendVolatile(s: NodeState, to: nat)
    ensures Volatile(s, SendAppend(s, to))
  {
  }

  lemma RemoveFollows(s0: NodeState, s: NodeState, id: nat)
    requires Follows(s0, s) && (s.panicked || s.dirty == CLEAN) && s.learner == NONE
    ensures Follows(s0, DoRemoveServer(s, id))
  {
    hide AppendEntry, CommitAndBroadcast, EncodeConfig, WithoutVoter, Follows;
    VolatileFollows(s0, s, Reject(s));
    if !(!s.conf.config.Contains(id) || |s.conf.config.voters| == 1) {
      var data := EncodeConfig(Config(WithoutVoter(s.conf.config.voters, id)));
      AppendEntryFollows(s0, s, Conf, data);
      var s1 := AppendEntry(s, Conf, data);
      var s2 := if id != s1.p.id then s1.(prs := s1.prs - {id}) else s1;
      var s3 := Reply(s2, ProposeReply(true, s2.log.LastIndex(), s2.term, 0));
      VolatileFollows(s0, s1, s3);
      CommitAndBroadcastVolatile(s3);
      VolatileFollows(s0, s3, CommitAndBroadcast(s3));
    }
  }

  lemma HandleFollows(s: NodeState, i: Input)
    requires WellFormed(s) && s.lastApplied <= s.commitIndex
    ensures Follows(s, Handle(Begin(s), i))
  {
    hide DoTick, DoReceive, DoPropose, DoProposeConfChange, DoTransfer, DoCreateSnapshot;
    var b := Begin(s);
    assert Follows(s, b);
    match i
    case Tick => TickFollows(s, b);
    case Receive(m) => ReceiveFollows(s, b, m);
    case Propose(data) => ProposeFollows(s, b, data);
    case ProposeConfChange(ch) => ConfChangeFollows(s, b, ch);
    case TransferLeadership(target) => TransferFollows(s, b, target);
    case CreateSnapshot(index, data) => CreateSnapshotFollows(s, b, index, data);
  }

  lemma TransferFollows(s0: NodeState, s: NodeState, target: nat)
    requires Follows(s0, s)
    ensures Follows(s0, DoTransfer(s, target))
  {
    hide Follows;
    TransferVolatile(s, target);
    VolatileFollows(s0, s, DoTransfer(s, target));
  }

  lemma TransferVolatile(s: NodeState, target: nat)
    ensures Volatile(s, DoTransfer(s, target))
  {
    hide SendAppend;
    var t := s.(transferee := target, clock := s.clock.(transferElapsed := 0));
    var u := Reply(t, ProposeReply(true, 0, s.term, 0));
    SendAppendVolatile(u, target);
  }

  // ---- The disk

  lemma {:induction false} TrimDrops(entries: seq<Entry>, base: nat, i: nat)
    requires forall k :: 0 <= k < |entries| ==> entries[k].index == base + 1 + k
    requires base <= i
    ensures TrimThrough(entries, i) == if i - base <= |entries| then entries[i - base..] else []
  {
    if entries != [] && entries[0].index <= i {
      TrimDrops(entries[1..], base + 1, i);
    }
  }

  lemma WriteTail(d: Disk, l0: Log, l: Log, a: nat)
    requires l0.Contiguous() && l.Contiguous() && NewTail(l0, l, a) && d.entries == l0.entries
    ensures var ents := l.Slice(a, l.LastIndex() + 1, 0);
      var keep := KeepCount(d.entries, a, 0);
      && ents != [] && ents[0].index == a
      && keep == a - l0.snapIndex - 1
      && d.entries[..keep] + ents == l.entries
  {
    var ents := l.Slice(a, l.LastIndex() + 1, 0);
    assert ents == l.entries[a - l.snapIndex - 1..];
    var keep := KeepCount(d.entries, a, 0);
    assert keep == a - l0.snapIndex - 1;
    assert d.entries[..keep] == l.entries[..keep];
  }

  /** Writing what a Step marked dirty turns a mirror of the old state into a mirror of the new one, without a gap. */
  lemma WriteMirrors(d: Disk, s0: NodeState, s: NodeState)
    requires WellFormed(s0) && Mirrors(d, s0) && Tracks(s0, s)
    ensures PersistOf(s).None? ==> Mirrors(d, s)
    ensures PersistOf(s).Some? ==> !Discontinuous(d, PersistOf(s).value) && Mirrors(Write(d, PersistOf(s).value), s)
  {
    hide KeepCount, TrimThrough, ConfWellFormed, BaseTracks;
    if s.dirty.snap.Some? {
      WriteSnapshotMirrors(d, s0, s);
    } else if s.dirty.appendedFrom != 0 {
      WriteTailMirrors(d, s0, s);
    }
  }

  lemma WriteSnapshotMirrors(d: Disk, s0: NodeState, s: NodeState)
    requires WellFormed(s0) && Mirrors(d, s0) && Tracks(s0, s) && s.dirty.snap.Some?
    ensures PersistOf(s).Some? && !Discontinuous(d, PersistOf(s).value) && Mirrors(Write(d, PersistOf(s).value), s)
  {
    hide KeepCount, TrimThrough, ConfWellFormed, BaseTracks;
    if !s.dirty.snap.value.replaceLog {
      TrimDrops(d.entries, s0.log.snapIndex, s.log.snapIndex);
    }
  }

  lemma WriteTailMirrors(d: Disk, s0: NodeState, s: NodeState)
    requires WellFormed(s0) && Mirrors(d, s0) && Tracks(s0, s) && s.dirty.snap.None? && s.dirty.appendedFrom != 0
    ensures PersistOf(s).Some? && !Discontinuous(d, PersistOf(s).value) && Mirrors(Write(d, PersistOf(s).value), s)
  {
    hide ConfWellFormed, BaseTracks, Log.Slice, NewTail, Write, Discontinuous, Log.Contiguous;
    TailWritten(d, PersistOf(s).value, s0.log, s.log, s.dirty.appendedFrom);
  }

  /** Writing a new tail onto a disk that holds the old log leaves the new log. */
  lemma TailWritten(d: Disk, p: Persist, l0: Log, l: Log, a: nat)
    requires p.snapshot.None? && p.entries == l.Slice(a, l.LastIndex() + 1, 0)
    requires d.entries == l0.entries && l0.Contiguous() && l.Contiguous() && NewTail(l0, l, a)
    requires if l0.snapIndex == 0 then d.snap.None? else d.snap.Some? && d.snap.value.index == l0.snapIndex
    ensures !Discontinuous(d, p)
    ensures Write(d, p) == Disk(if p.hardState.Some? then p.hardState.value else d.hs, d.snap, l.entries)
  {
    hide KeepCount, Log.Slice, NewTail, Log.Contiguous;
    WriteTail(d, l0, l, a);
    var keep := KeepCount(d.entries, a, 0);
    TailStart(l0, l, a);
    if keep > 0 {
      KeptIndex(l0, keep);
    }
  }

  lemma TailStart(l0: Log, l: Log, a: nat)
    requires NewTail(l0, l, a)
    ensures l0.snapIndex < a <= l0.LastIndex() + 1
  {
  }

  lemma KeptIndex(l: Log, keep: nat)
    requires l.Contiguous() && 0 < keep <= |l.entries|
    ensures l.entries[keep - 1].index == l.snapIndex + keep
  {
  }

  /** After every Step on any input: no panic of the node means no panic of the disk, and the disk mirrors the node. */
  lemma StepMirrors(d: Disk, s: NodeState, i: Input)
    requires WellFormed(s) && s.lastApplied <= s.commitIndex && Mirrors(d, s) && !Step(s, i).panicked
    ensures var t := Step(s, i);
      && WellFormed(t)
      && (t.out.persist.None? ==> Mirrors(d, t))
      && (t.out.persist.Some? ==> !Discontinuous(d, t.out.persist.value) && Mirrors(Write(d, t.out.persist.value), t))
  {
    hide Handle, WellFormed, PersistOf, Discontinuous, Write;
    HandleFollows(s, i);
    var t := Handle(Begin(s), i);
    PersistFirst(s);
    WriteMirrors(d, s, t);
    SameDurable(t, t.(out := t.out.(persist := PersistOf(t))));
  }

  lemma PersistFirst(s: NodeState)
    requires WellFormed(s)
    ensures WellFormed(Begin(s))
  {
  }

  lemma SameDurable(s: NodeState, t: NodeState)
    requires WellFormed(s) && t == s.(out := t.out)
    ensures WellFormed(t)
  {
  }

  /** Entries that follow on and can be read are appended without a panic. */
  lemma {:induction false} AppendAllSucceeds(s: NodeState, ents: seq<Entry>)
    requires !s.panicked && Decodable(ents)
    requires forall k :: 0 <= k < |ents| ==> ents[k].index == s.log.LastIndex() + 1 + k
    ensures !AppendAll(s, ents).panicked
  {
    hide AppendOne;
    if ents != [] {
      var n := |ents| - 1;
      AppendAllSucceeds(s, ents[..n]);
      AppendAllGrows(s, ents[..n]);
      AppendOneSucceeds(AppendAll(s, ents[..n]), ents[n]);
    }
  }

  lemma AppendOneSucceeds(s: NodeState, e: Entry)
    requires !s.panicked && e.index == s.log.LastIndex() + 1 && (e.typ == Conf ==> RecordIn(e).Some?)
    ensures !AppendOne(s, e).panicked
  {
    hide DecodeConfig;
  }

  /** A restart from a mirror survives, and recovers term, vote, snapshot and log. */
  lemma RestartRecovers(d: Disk, s: NodeState, p: Params, voters: seq<nat>)
    requires WellFormed(s) && Mirrors(d, s) && Decodable(s.log.entries)
    ensures var t := NewNode(p, voters, Load(d));
      && !t.panicked
      && t.term == s.term && t.votedFor == s.votedFor && t.log == s.log && t.snapshot == s.snapshot && Mirrors(d, t)
      && WellFormed(t)
  {
    hide Decodable, AppendAll;
    var b := Blank(p, voters, d.hs);
    var s1 := if d.snap.Some? then LoadSnapshot(b, d.snap.value) else b;
    AppendAllSucceeds(s1, d.entries);
    AppendAllGrows(s1, d.entries);
    assert [] + d.entries == d.entries;
  }
}
