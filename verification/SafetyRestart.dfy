/** A whole Step keeps the invariant, and so does losing everything but the disk. */
module SafetyRestart {
  import opened RaftTypes
  import opened LogSpec
  import opened ConfSpec
  import opened NodeSpec
  import opened Storage
  import opened Ghosts
  import opened SafetyInv
  import opened SafetyLogs
  import opened SafetySteps
  import opened SafetyReplication
  import opened DiskRefinement

  /** What a caller may hand a node: true messages, its own snapshots of applied state, no membership change. */
  ghost predicate InputOk(gh: Ghost, s: NodeState, i: Input)
    requires LogInv(gh.tlog, s.log)
  {
    match i
    case Receive(m) => MsgInv(gh, m) && m.to == s.p.id
    case CreateSnapshot(index, data) =>
      index <= s.lastApplied && index <= s.log.LastIndex() && gh.rel(Full(gh.tlog, s.log)[..index], data)
    case Propose(data) => data in gh.payload
    case ProposeConfChange(_) => false
    case _ => true
  }

  lemma StepSafe(gh: Ghost, s: NodeState, i: Input) returns (gh': Ghost)
    requires GhostInv(gh) && NodeInv(gh, s)
    requires LogInv(gh.tlog, s.log) && InputOk(gh, s, i) && gh.start == s.lastApplied
    ensures Leads(gh, s, gh', Step(s, i))
  {
    hide GhostInv, NodeInv, Ext, OnlyBy, MsgInv, AppliedInv, LogInv, Full;
    hide DoTick, DoReceive, DoPropose, DoTransfer, DoCreateSnapshot, PersistOf;
    var b := Begin(s);
    QuietNode(gh, s, b);
    var t := Handle(b, i);
    gh' := gh;
    match i {
      case Tick => gh' := TickSafe(gh, b);
      case Receive(m) => gh' := ReceiveSafe(gh, b, m);
      case Propose(data) => gh' := ProposeSafe(gh, b, data);
      case TransferLeadership(target) =>
        TransferSafe(gh, b, target);
        LeadsHere(gh, b, t);
      case CreateSnapshot(index, data) =>
        CreateSnapshotSafe(gh, b, index, data);
        SnapshotKeepsRole(b, index, data);
        LeadsHere(gh, b, t);
    }
    QuietSafe(gh', t, Step(s, i));
  }

  lemma SnapshotKeepsRole(s: NodeState, index: nat, data: seq<byte>)
    ensures var t := DoCreateSnapshot(s, index, data); t.p == s.p && t.role == s.role && t.term == s.term
  {
  }

  /** The invariant contains all the disk argument asks of a node. */
  lemma NodeWellFormed(gh: Ghost, s: NodeState)
    requires TermLogs(gh.tlog) && NodeInv(gh, s)
    ensures WellFormed(s) && s.lastApplied <= s.commitIndex && !s.panicked
  {
    hide TermLogs, Full, LogInv, Owes, IsCommitted;
    EntriesInFull(gh.tlog, s.log);
    forall k | 0 <= k < |s.log.entries| ensures s.log.entries[k].index == s.log.snapIndex + 1 + k {
      FullEntries(gh.tlog, s.log, s.log.snapIndex + k);
    }
    TermInFull(gh.tlog, s.log, s.log.snapIndex);
  }

  /** The state a restart from a mirror of s produces. */
  lemma RestartState(gh: Ghost, s: NodeState, d: Disk, p: Params)
    requires TermLogs(gh.tlog) && NodeInv(gh, s) && Mirrors(d, s)
    ensures var t := NewNode(p, gh.voters, Load(d));
      && t.term == s.term && t.votedFor == s.votedFor && t.log == s.log && t.snapshot == s.snapshot
      && t.role == Follower && t.votes == map[] && t.prs == map[] && t.learner == NONE && !t.panicked
      && t.commitIndex == t.lastApplied == s.log.snapIndex
      && t.conf == InitConf(s.log.snapIndex, Config(gh.voters))
      && t.p.id == p.id && t.out == EMPTY_OUTPUT
  {
    var b := Blank(p, gh.voters, d.hs);
    var s1 := if d.snap.Some? then LoadSnapshot(b, d.snap.value) else b;
    NodeWellFormed(gh, s);
    assert s1.conf == InitConf(s.log.snapIndex, Config(gh.voters)) by {
      SnapConfig(gh, s);
    }
    assert s1.log == Log(s.log.snapIndex, s.log.snapTerm, []);
    PlainEntries(gh, s);
    AppendAllPlain(s1, d.entries);
    assert [] + d.entries == d.entries;
  }

  lemma SnapConfig(gh: Ghost, s: NodeState)
    requires NodeInv(gh, s)
    ensures s.snapshot.Some? ==> s.snapshot.value.config == Config(gh.voters) && s.snapshot.value.index == s.log.snapIndex
    ensures s.snapshot.None? ==> s.log.snapIndex == 0
  {
    hide LogInv, Full, Owes, IsCommitted;
  }

  lemma PlainEntries(gh: Ghost, s: NodeState)
    requires TermLogs(gh.tlog) && NodeInv(gh, s)
    ensures forall k :: 0 <= k < |s.log.entries| ==>
      s.log.entries[k].index == s.log.snapIndex + 1 + k && s.log.entries[k].typ != Conf
  {
    hide TermLogs, Full, LogInv, Owes, IsCommitted;
    EntriesInFull(gh.tlog, s.log);
    forall k | 0 <= k < |s.log.entries|
      ensures s.log.entries[k].index == s.log.snapIndex + 1 + k && s.log.entries[k].typ != Conf
    {
      FullEntries(gh.tlog, s.log, s.log.snapIndex + k);
    }
  }

  /** A node rebuilt from its disk keeps every promise it made before the crash. */
  lemma RestartSafe(gh: Ghost, s: NodeState, d: Disk, p: Params)
    requires GhostInv(gh) && NodeInv(gh, s) && Mirrors(d, s) && p.id == s.p.id
    ensures var t := NewNode(p, gh.voters, Load(d));
      NodeInv(gh, t) && Mirrors(d, t) && t.p.id == s.p.id && t.role == Follower && t.out.applied == []
  {
    hide NodeInv, NewNode, TermLogs, VotesSafe, LeadersSafe, Elections, Acknowledged;
    RestartState(gh, s, d, p);
    RestartNodeInv(gh, s, NewNode(p, gh.voters, Load(d)));
  }

  lemma RestartNodeInv(gh: Ghost, s: NodeState, t: NodeState)
    requires NodeInv(gh, s)
    requires t.term == s.term && t.votedFor == s.votedFor && t.log == s.log && t.snapshot == s.snapshot
    requires t.p.id == s.p.id
    requires t.role == Follower && t.prs == map[] && t.learner == NONE && !t.panicked
    requires t.commitIndex == t.lastApplied == s.log.snapIndex && t.conf == InitConf(s.log.snapIndex, Config(gh.voters))
    ensures NodeInv(gh, t)
  {
    hide LogInv, Full, Owes, IsCommitted, SnapshotOf;
    var f := Full(gh.tlog, s.log);
    IsCommittedLess(gh, f[..s.commitIndex], s.term, s.log.snapIndex);
    assert f[..s.commitIndex][..s.log.snapIndex] == f[..s.log.snapIndex];
  }

  // ---- The beginning

  ghost function NoHistory(voters: seq<nat>, rel: SnapRel): Ghost {
    Ghost(voters, rel, {}, 0, map[], map[], map[], map[], map[], map[])
  }

  lemma InitialSafe(voters: seq<nat>, rel: SnapRel, p: Params)
    requires NoDuplicates(voters) && p.id != NONE
    ensures GhostInv(NoHistory(voters, rel))
    ensures var s := NewNode(p, voters, Load(EMPTY_DISK));
      NodeInv(NoHistory(voters, rel), s) && Mirrors(EMPTY_DISK, s) && s.p.id == p.id && s.role == Follower &&
          s.out == EMPTY_OUTPUT
  {
  }
}
