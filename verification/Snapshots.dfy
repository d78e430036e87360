/** Snapshots, Step by Step: what taking one keeps, and what installing a leader's comes to. */
module Snapshots {
  import opened RaftTypes
  import opened LogSpec
  import opened ConfSpec
  import opened NodeSpec
  import opened FastBackup

  // ---- A snapshot from the leader

  /** A snapshot is answered with what the node then has for certain. */
  lemma SnapshotAnswered(t: NodeState, m: Message)
    requires m.Snap? && m.snapshot.Some? && m.to == t.p.id && m.term >= t.term
    ensures var u, snap := Step(t, Receive(m)), m.snapshot.value;
      && u.out.messages ==
           [SnapResp(t.p.id, m.from, m.term, if snap.index <= t.commitIndex then t.commitIndex else snap.index)]
      && u.term == m.term && u.role == Follower && u.leaderID == m.from && u.p == t.p && u.panicked == t.panicked
      && u.clock.electionElapsed == 0
  {
    hide Step, Handle, InstallSnapshot, Heard;
    SnapHeard(t, m);
    SnapIsHandled(t, m);
    Handled(t, Receive(m));
    SnapshotTaken(Heard(t, m), m);
  }

  lemma SnapHeard(t: NodeState, m: Message)
    requires m.Snap? && m.term >= t.term
    ensures var u := Heard(t, m);
      && u.log == t.log && u.term == m.term && u.p == t.p && u.panicked == t.panicked
      && u.commitIndex == t.commitIndex && u.lastApplied == t.lastApplied && u.out == EMPTY_OUTPUT
      && u.conf == t.conf && u.snapshot == t.snapshot
  {
    hide TimeoutOf;
  }

  lemma SnapIsHandled(t: NodeState, m: Message)
    requires m.Snap? && m.to == t.p.id && m.term >= t.term
    ensures Handle(Begin(t), Receive(m)) == InstallSnapshot(Heard(t, m), m)
  {
    hide InstallSnapshot, TimeoutOf;
  }

  lemma SnapshotTaken(t: NodeState, m: Message)
    requires m.Snap? && m.snapshot.Some? && m.term == t.term && t.out.messages == []
    ensures var u, snap := InstallSnapshot(t, m), m.snapshot.value;
      && u.out.messages ==
           [SnapResp(t.p.id, m.from, t.term, if snap.index <= t.commitIndex then t.commitIndex else snap.index)]
      && u.term == t.term && u.role == Follower && u.leaderID == m.from && u.p == t.p && u.panicked == t.panicked
      && u.clock.electionElapsed == 0
  {
    hide TimeoutOf, KeepSuffix, ReplaceLog;
    var s := FollowLeader(t, m.term, m.from);
    var snap := m.snapshot.value;
    if s.log.Term(snap.index) == Some(snap.term) {
      SuffixFrame(s, snap);
    }
    ReplacedFrame(s, snap);
  }

  lemma SuffixFrame(s: NodeState, snap: Snapshot)
    requires s.log.Term(snap.index).Some?
    ensures var t := KeepSuffix(s, snap);
      && t.out.messages == s.out.messages && t.term == s.term && t.role == s.role && t.leaderID == s.leaderID
      && t.p == s.p && t.panicked == s.panicked && t.clock == s.clock
  {
    hide PruneConf, Log.Compact, Log.Slice;
  }

  lemma ReplacedFrame(s: NodeState, snap: Snapshot)
    ensures var t := ReplaceLog(s, snap);
      && t.out.messages == s.out.messages && t.term == s.term && t.role == s.role && t.leaderID == s.leaderID
      && t.p == s.p && t.panicked == s.panicked && t.clock == s.clock
  {
    hide InitConf;
  }

  /** The log after a snapshot: it begins at the snapshot's point, and shows the same from there on as far as it did. */
  ghost predicate Shortened(l: Log, l': Log, index: nat, term: nat)
    requires l.snapIndex <= index <= l.LastIndex()
  {
    && l'.snapIndex == index && l'.snapTerm == term && l'.LastIndex() == l.LastIndex()
    && l'.entries == l.entries[index - l.snapIndex..]
  }

  /** The snapshot covers nothing new. */
  ghost predicate Untouched(t: NodeState, u: NodeState) {
    && u.log == t.log && u.commitIndex == t.commitIndex && u.lastApplied == t.lastApplied && u.conf == t.conf
    && u.snapshot == t.snapshot && u.out.applied == [] && u.out.applySnapshot.None?
  }

  /** The log reaches the snapshot's point: what follows is kept, and entries up to there are applied. */
  ghost predicate SuffixKept(t: NodeState, u: NodeState, snap: Snapshot)
    requires t.log.Term(snap.index).Some?
  {
    && Shortened(t.log, u.log, snap.index, snap.term) && u.conf.config == t.conf.config
    && u.out.applied == t.log.Slice(t.lastApplied + 1, snap.index + 1, 0) && u.out.applySnapshot.None?
  }

  /** Everything is replaced, and the state machine is to restore the snapshot. */
  ghost predicate Replaced(u: NodeState, snap: Snapshot) {
    && u.log == Log(snap.index, snap.term, []) && u.conf.config == snap.config
    && u.out.applied == [] && u.out.applySnapshot == Some(snap)
  }

  /**
   * One Step on a snapshot of the receiver's term or a later one: nothing if it covers nothing new; otherwise the node's
   * snapshot is this one and committed and applied reach its point, by keeping the rest of a log that has that point or
   * else by replacing it.
   */
  lemma SnapshotInstalled(t: NodeState, m: Message)
    requires m.Snap? && m.snapshot.Some? && m.to == t.p.id && m.term >= t.term && t.lastApplied <= t.commitIndex
    ensures var u, snap := Step(t, Receive(m)), m.snapshot.value;
      if snap.index <= t.commitIndex then Untouched(t, u)
      else
        && u.snapshot == Some(snap) && u.commitIndex == snap.index && u.lastApplied == snap.index
        && (if t.log.Term(snap.index) == Some(snap.term) then SuffixKept(t, u, snap) else Replaced(u, snap))
  {
    hide Step, Handle, InstallSnapshot, Heard, Shortened, Log.Slice;
    SnapHeard(t, m);
    SnapIsHandled(t, m);
    Handled(t, Receive(m));
    SameOutputs(t, Receive(m));
    InstalledHere(Heard(t, m), m);
  }

  lemma SameOutputs(s: NodeState, i: Input)
    ensures Step(s, i).out.applied == Handle(Begin(s), i).out.applied
    ensures Step(s, i).out.applySnapshot == Handle(Begin(s), i).out.applySnapshot
    ensures Step(s, i).out.reply == Handle(Begin(s), i).out.reply
  {
    hide Handle, PersistOf;
  }

  lemma InstalledHere(t: NodeState, m: Message)
    requires m.Snap? && m.snapshot.Some? && t.lastApplied <= t.commitIndex && t.out == EMPTY_OUTPUT
    ensures var u, snap := InstallSnapshot(t, m), m.snapshot.value;
      if snap.index <= t.commitIndex then Untouched(t, u)
      else
        && u.snapshot == Some(snap) && u.commitIndex == snap.index && u.lastApplied == snap.index
        && (if t.log.Term(snap.index) == Some(snap.term) then SuffixKept(t, u, snap) else Replaced(u, snap))
  {
    hide TimeoutOf, KeepSuffix, ReplaceLog, Shortened, Log.Slice;
    var s := FollowLeader(t, m.term, m.from);
    var snap := m.snapshot.value;
    if snap.index > s.commitIndex {
      if s.log.Term(snap.index) == Some(snap.term) {
        KeptHere(s, snap);
      } else {
        ReplacedHere(s, snap);
      }
    }
  }

  lemma KeptHere(s: NodeState, snap: Snapshot)
    requires s.log.Term(snap.index) == Some(snap.term) && snap.index > s.commitIndex >= s.lastApplied
    requires s.out == EMPTY_OUTPUT
    ensures var u := KeepSuffix(s, snap);
      SuffixKept(s, u, snap) && u.snapshot == Some(snap) && u.commitIndex == snap.index && u.lastApplied == snap.index
  {
    hide Prune, Log.Slice;
    assert s.log.entries[0..] == s.log.entries;
  }

  lemma ReplacedHere(s: NodeState, snap: Snapshot)
    requires s.out == EMPTY_OUTPUT
    ensures var u := ReplaceLog(s, snap);
      Replaced(u, snap) && u.snapshot == Some(snap) && u.commitIndex == snap.index && u.lastApplied == snap.index
  {
  }

  // ---- The application's own snapshots

  /**
   * The application has saved its state as of an index: an old index changes nothing, one not yet applied or not in the
   * log panics, and any other becomes the node's snapshot, in the order for the disk, with the configuration of that
   * index; the log shows the same from there on.
   */
  lemma SnapshotMade(s: NodeState, index: nat, data: seq<byte>)
    requires !s.panicked
    ensures var t := Step(s, CreateSnapshot(index, data));
      if index <= s.log.snapIndex then t == s.(out := EMPTY_OUTPUT, dirty := CLEAN)
      else if index > s.lastApplied || index > s.log.LastIndex() then t.panicked
      else
        var snap := Snapshot(index, s.log.Term(index).value, ConfigAt(s.conf.history, index), data);
        && Shortened(s.log, t.log, index, snap.term) && t.snapshot == Some(snap) && !t.panicked
        && t.out == EMPTY_OUTPUT.(persist := Some(Persist(None, [], Some(snap), false)))
        && t == s.(log := t.log, snapshot := t.snapshot, conf := PruneConf(s.conf, index), out := t.out, dirty := t.dirty)
  {
    hide ConfigAt, PruneConf;
  }

  // ---- Sending one

  /** A follower is sent one snapshot at a time: again only once the mark that one is on its way is gone. */
  lemma SnapshotOnce(s: NodeState, to: nat)
    requires to in s.prs && s.prs[to].next <= s.log.snapIndex && s.snapshot.Some?
    ensures SendAppend(s, to) ==
      if s.prs[to].pendingSnap then s
      else Send(s.(prs := s.prs[to := s.prs[to].(pendingSnap := true)]), Snap(s.p.id, to, s.term, s.snapshot))
  {
  }
}
