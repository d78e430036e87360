/** Log replication and snapshots keep the invariant, and so does a whole Step. */
module SafetyReplication {
  import opened RaftTypes
  import opened LogSpec
  import opened ConfSpec
  import opened NodeSpec
  import opened Ghosts
  import opened SafetyInv
  import opened HistorySteps
  import opened SafetyLogs
  import opened SafetySteps

  // ---- What a follower knows about its leader

  /** A node's committed prefix is in the log of the leader of its term, and of every later one. */
  lemma CommittedInTerm(gh: Ghost, s: NodeState, T: nat)
    requires GhostInv(gh) && NodeInv(gh, s) && s.term <= T && T in gh.tlog
    ensures LogInv(gh.tlog, s.log) && s.log.snapIndex <= s.commitIndex <= s.log.LastIndex()
    ensures Agree(Full(gh.tlog, s.log), gh.tlog[T], s.commitIndex)
  {
    hide LogInv, Full, Owes, SnapshotInv, IsCommitted, TermLogs, Elections, VotesSafe, LeadersSafe;
    var f := Full(gh.tlog, s.log);
    CommittedInLeader(gh, f[..s.commitIndex], s.term, T);
    assert f[..s.commitIndex] == gh.tlog[T][..s.commitIndex];
  }

  lemma CommitInLeader(gh: Ghost, s: NodeState)
    requires Good(gh, s) && s.term in gh.tlog
    ensures LogInv(gh.tlog, s.log) && s.log.snapIndex <= s.commitIndex <= s.log.LastIndex()
    ensures Agree(Full(gh.tlog, s.log), gh.tlog[s.term], s.commitIndex)
  {
    hide GhostInv, NodeInv, LogInv, Full;
    CommittedInTerm(gh, s, s.term);
  }

  lemma History(gh: Ghost, s: NodeState)
    requires Good(gh, s)
    ensures TermLogs(gh.tlog) && LogInv(gh.tlog, s.log) && s.log.LastTerm() <= s.term
    ensures s.log.snapIndex <= s.lastApplied <= s.commitIndex <= s.log.LastIndex() && !s.panicked
    ensures Owes(gh.tlog, gh.acks, s.p.id, s.term, s.log)
    ensures forall T :: (T, s.p.id) in gh.acks ==> T <= s.term
  {
    hide OutInv, LogInv, Full, Owes, SnapshotInv, IsCommitted, TermLogs, Elections, VotesSafe, LeadersSafe;
  }

  // ---- Accepting entries

  /** The entries are the leader's from `prev` on, and the node agrees with the leader up to there. */
  ghost predicate Offered(gh: Ghost, s: NodeState, prev: nat, ents: seq<Entry>) {
    && s.term in gh.tlog
    && LogInv(gh.tlog, s.log)
    && s.log.snapIndex <= prev
    && prev + |ents| <= |gh.tlog[s.term]|
    && ents == gh.tlog[s.term][prev..prev + |ents|]
    && Agree(Full(gh.tlog, s.log), gh.tlog[s.term], prev)
  }

  lemma OfferedEntry(gh: Ghost, s: NodeState, prev: nat, ents: seq<Entry>, j: nat)
    requires TermLogs(gh.tlog) && Offered(gh, s, prev, ents) && j < |ents|
    ensures ents[j] == gh.tlog[s.term][prev + j] && ents[j].index == prev + j + 1 && ents[j].typ != Conf
    ensures ents[j].term == TermAt(gh.tlog[s.term], prev + j + 1)
  {
    assert TermLog(gh.tlog, s.term, gh.tlog[s.term]);
  }

  /** What is skipped agrees with the leader. */
  lemma SkippedAgree(gh: Ghost, s: NodeState, prev: nat, ents: seq<Entry>)
    requires Good(gh, s) && Offered(gh, s, prev, ents)
    ensures var i := FirstConflict(s.log, ents, 0);
      prev + i <= s.log.LastIndex() && Agree(Full(gh.tlog, s.log), gh.tlog[s.term], prev + i)
  {
    hide Good, LogInv, Full, TermLogs, Owes, FirstConflict;
    History(gh, s);
    var i := FirstConflict(s.log, ents, 0);
    if i > 0 {
      OfferedEntry(gh, s, prev, ents, i - 1);
      LogMatches(gh.tlog, s.log, s.term, prev + i);
    }
  }

  /** What is not skipped is the first difference or lies past the end, and is never committed. */
  lemma ConflictPoint(gh: Ghost, s: NodeState, prev: nat, ents: seq<Entry>, i: nat)
    requires Good(gh, s) && Offered(gh, s, prev, ents)
    requires i < |ents| && s.log.Term(ents[i].index) != Some(ents[i].term)
    requires prev + i <= s.log.LastIndex()
    ensures prev + i + 1 > s.commitIndex
    ensures prev + i + 1 <= s.log.LastIndex() ==> Full(gh.tlog, s.log)[prev + i].term != gh.tlog[s.term][prev + i].term
  {
    hide Good, LogInv, Full, TermLogs, Owes;
    History(gh, s);
    OfferedEntry(gh, s, prev, ents, i);
    TermInFull(gh.tlog, s.log, prev + i + 1);
    CommitInLeader(gh, s);
    AgreeLess(Full(gh.tlog, s.log), gh.tlog[s.term], s.commitIndex, s.commitIndex);
  }

  /** The state after accepting entries, as one splice. */
  ghost function Accepted(gh: Ghost, s: NodeState, prev: nat, ents: seq<Entry>): NodeState
    requires s.term in gh.tlog && prev + |ents| <= |gh.tlog[s.term]|
    requires s.log.snapIndex <= prev && prev + FirstConflict(s.log, ents, 0) <= s.log.LastIndex()
  {
    var i := FirstConflict(s.log, ents, 0);
    if i == |ents| then s
    else
      var cut := s.log.Term(prev + i + 1).Some?;
      s.(log := Spliced(s.log, gh.tlog[s.term], prev + i + 1, prev + |ents|),
         conf := if cut then TruncateConf(s.conf, prev + i + 1) else s.conf)
  }

  lemma CutAndAppend(l: Log, L: seq<Entry>, prev: nat, ents: seq<Entry>, i: nat)
    requires l.snapIndex <= prev && prev + i <= l.LastIndex() && i < |ents|
    requires prev + |ents| <= |L| && ents == L[prev..prev + |ents|]
    ensures var l1 := if l.Term(prev + i + 1).Some? then l.TruncateFrom(prev + i + 1) else l;
      && l1.LastIndex() == prev + i
      && Log(l1.snapIndex, l1.snapTerm, l1.entries + ents[i..]) == Spliced(l, L, prev + i + 1, prev + |ents|)
  {
    assert ents[i..] == L[prev + i..prev + |ents|];
    if l.LastIndex() == prev + i {
      assert l.entries[..prev + i - l.snapIndex] == l.entries;
    }
  }

  /** The state in which the rest is appended. */
  function Cut(s: NodeState, x: nat): NodeState
    requires s.log.snapIndex < x
  {
    if s.log.Term(x).Some? then s.(log := s.log.TruncateFrom(x), conf := TruncateConf(s.conf, x)) else s
  }

  /** Cutting at the first conflict and appending the rest, when nothing about it panics. */
  lemma AcceptShape(s: NodeState, ents: seq<Entry>, i: nat)
    requires !s.panicked && i == FirstConflict(s.log, ents, 0) && i < |ents|
    requires ents[i].index > s.commitIndex && ents[i].index > s.log.snapIndex
    requires var s1 := Cut(s, ents[i].index);
      forall k :: 0 <= k < |ents[i..]| ==> ents[i..][k].index == s1.log.LastIndex() + 1 + k && ents[i..][k].typ != Conf
    ensures var s1 := Cut(s, ents[i].index);
      AcceptEntries(s, ents) == MarkAppended(s1.(log := Log(s1.log.snapIndex, s1.log.snapTerm,
          s1.log.entries + ents[i..])), ents[i].index)
  {
    hide FirstConflict, AppendAll, TruncateConf, MarkAppended;
    AppendAllPlain(Cut(s, ents[i].index), ents[i..]);
  }

  lemma AcceptIsSplice(gh: Ghost, s: NodeState, prev: nat, ents: seq<Entry>)
    requires Good(gh, s) && Offered(gh, s, prev, ents)
    ensures prev + FirstConflict(s.log, ents, 0) <= s.log.LastIndex()
    ensures SameCore(Accepted(gh, s, prev, ents), AcceptEntries(s, ents))
    ensures SameOut(Accepted(gh, s, prev, ents), AcceptEntries(s, ents))
    ensures var t := AcceptEntries(s, ents); t.p == s.p && t.role == s.role && t.term == s.term
  {
    hide Good, LogInv, Full, TermLogs, Owes, Agree, Spliced, FirstConflict, AppendAll, PopFrom, TruncateConf, Offered,
         Log.TruncateFrom, TermAt, AcceptEntries;
    History(gh, s);
    SkippedAgree(gh, s, prev, ents);
    OfferedBounds(gh, s, prev, ents);
    var i := FirstConflict(s.log, ents, 0);
    if i == |ents| {
      AcceptsNothing(s, ents);
    } else {
      ConflictPoint(gh, s, prev, ents, i);
      OfferedPiece(gh, s, prev, ents);
      CutAndAppend(s.log, gh.tlog[s.term], prev, ents, i);
      OfferedEntry(gh, s, prev, ents, i);
      OfferedRest(gh, s, prev, ents, i);
      AcceptShape(s, ents, i);
    }
  }

  lemma AcceptsNothing(s: NodeState, ents: seq<Entry>)
    requires FirstConflict(s.log, ents, 0) == |ents|
    ensures AcceptEntries(s, ents) == s
  {
    hide FirstConflict;
  }

  lemma OfferedRest(gh: Ghost, s: NodeState, prev: nat, ents: seq<Entry>, i: nat)
    requires TermLogs(gh.tlog) && Offered(gh, s, prev, ents) && i <= |ents|
    ensures forall k :: 0 <= k < |ents[i..]| ==> ents[i..][k].index == prev + i + k + 1 && ents[i..][k].typ != Conf
  {
    hide TermLogs, Offered;
    forall k | 0 <= k < |ents[i..]|
      ensures ents[i..][k].index == prev + i + k + 1 && ents[i..][k].typ != Conf
    {
      OfferedEntry(gh, s, prev, ents, i + k);
    }
  }

  lemma OfferedPiece(gh: Ghost, s: NodeState, prev: nat, ents: seq<Entry>)
    requires Offered(gh, s, prev, ents)
    ensures s.term in gh.tlog && prev + |ents| <= |gh.tlog[s.term]| && ents == gh.tlog[s.term][prev..prev + |ents|]
  {
    hide LogInv, Full, Agree;
  }

  lemma AcceptedOwes(gh: Ghost, s: NodeState, prev: nat, ents: seq<Entry>, i: nat, l': Log)
    requires Good(gh, s) && Offered(gh, s, prev, ents)
    requires i < |ents| && prev + i <= s.log.LastIndex()
    requires prev + i + 1 <= s.log.LastIndex() ==> Full(gh.tlog, s.log)[prev + i].term != gh.tlog[s.term][prev + i].term
    requires LogInv(gh.tlog, l') && Full(gh.tlog, l') == gh.tlog[s.term][..prev + |ents|]
    ensures Owes(gh.tlog, gh.acks, s.p.id, s.term, l')
  {
    hide Good, LogInv, Full, Agree, TermLogs;
    History(gh, s);
    forall T: nat, k: nat | (T, s.p.id) in gh.acks && k <= gh.acks[(T, s.p.id)] && Counts(gh.tlog, T, k, s.term) &&
        LaterHave(gh.tlog, T, k, s.term)
      ensures Agree(gh.tlog[s.term][..prev + |ents|], gh.tlog[T], k)
    {
      assert Agree(Full(gh.tlog, s.log), gh.tlog[T], k);
      if T == s.term {
        AgreeSelf(gh.tlog[T], k);
      } else {
        assert Agree(gh.tlog[s.term], gh.tlog[T], k);
      }
      SplicedKeeps(gh.tlog, s.log, s.term, prev + i + 1, prev + |ents|, gh.tlog[T], k);
    }
  }

  lemma AgreeSelf(a: seq<Entry>, k: nat)
    requires k <= |a|
    ensures Agree(a, a, k)
  {
  }

  lemma OfferedBounds(gh: Ghost, s: NodeState, prev: nat, ents: seq<Entry>)
    requires Offered(gh, s, prev, ents)
    ensures s.term in gh.tlog && LogInv(gh.tlog, s.log) && s.log.snapIndex <= prev && prev + |ents| <= |gh.tlog[s.term]|
  {
    hide LogInv, Full, Agree;
  }

  lemma AcceptedNothing(gh: Ghost, s: NodeState, prev: nat, ents: seq<Entry>)
    requires s.term in gh.tlog && prev + |ents| <= |gh.tlog[s.term]|
    requires s.log.snapIndex <= prev && prev + FirstConflict(s.log, ents, 0) <= s.log.LastIndex()
    ensures FirstConflict(s.log, ents, 0) == |ents| ==> Accepted(gh, s, prev, ents) == s
  {
    hide FirstConflict, Spliced, TruncateConf;
  }

  lemma AcceptedShape(gh: Ghost, s: NodeState, prev: nat, ents: seq<Entry>, conf: ConfState)
    requires s.term in gh.tlog && prev + |ents| <= |gh.tlog[s.term]|
    requires s.log.snapIndex <= prev && prev + FirstConflict(s.log, ents, 0) <= s.log.LastIndex()
    requires FirstConflict(s.log, ents, 0) < |ents|
    requires var i := FirstConflict(s.log, ents, 0);
      conf == if s.log.Term(prev + i + 1).Some? then TruncateConf(s.conf, prev + i + 1) else s.conf
    ensures var i := FirstConflict(s.log, ents, 0);
      Accepted(gh, s, prev, ents) == s.(log := Spliced(s.log, gh.tlog[s.term], prev + i + 1, prev + |ents|), conf := conf)
  {
    hide FirstConflict, Spliced, TruncateConf;
  }

  lemma AcceptedNode(gh: Ghost, s: NodeState, prev: nat, ents: seq<Entry>)
    requires Good(gh, s) && s.role == Follower && Offered(gh, s, prev, ents)
    requires prev + FirstConflict(s.log, ents, 0) <= s.log.LastIndex()
    ensures Good(gh, Accepted(gh, s, prev, ents))
    ensures LogInv(gh.tlog, Accepted(gh, s, prev, ents).log)
    ensures Agree(Full(gh.tlog, Accepted(gh, s, prev, ents).log), gh.tlog[s.term], prev + |ents|)
  {
    hide Good, LogInv, Full, FirstConflict, Agree, TruncateConf, Spliced, Offered, Accepted;
    SkippedAgree(gh, s, prev, ents);
    OfferedBounds(gh, s, prev, ents);
    AcceptedNothing(gh, s, prev, ents);
    var i := FirstConflict(s.log, ents, 0);
    if i < |ents| {
      var conf := if s.log.Term(prev + i + 1).Some? then TruncateConf(s.conf, prev + i + 1) else s.conf;
      SpliceSafe(gh, s, prev, ents, i, conf);
      AcceptedShape(gh, s, prev, ents, conf);
    }
  }

  lemma SpliceSafe(gh: Ghost, s: NodeState, prev: nat, ents: seq<Entry>, i: nat, conf: ConfState)
    requires Good(gh, s) && s.role == Follower && Offered(gh, s, prev, ents)
    requires i < |ents| && s.log.Term(ents[i].index) != Some(ents[i].term)
    requires prev + i <= s.log.LastIndex() && Agree(Full(gh.tlog, s.log), gh.tlog[s.term], prev + i)
    requires conf == s.conf || conf == TruncateConf(s.conf, prev + i + 1)
    ensures var t := s.(log := Spliced(s.log, gh.tlog[s.term], prev + i + 1, prev + |ents|), conf := conf);
      Good(gh, t) && LogInv(gh.tlog, t.log) && Agree(Full(gh.tlog, t.log), gh.tlog[s.term], prev + |ents|)
  {
    hide Good, LogInv, Full, Owes, IsCommitted, TermLogs, Agree, TruncateConf, Offered;
    History(gh, s);
    OfferedBounds(gh, s, prev, ents);
    ConflictPoint(gh, s, prev, ents, i);
    var L, f := gh.tlog[s.term], Full(gh.tlog, s.log);
    var t := s.(log := Spliced(s.log, L, prev + i + 1, prev + |ents|), conf := conf);
    SplicedLog(gh.tlog, s.log, s.term, prev + i + 1, prev + |ents|);
    AcceptedOwes(gh, s, prev, ents, i, t.log);
    PopKeepsVotersOf(gh, s, prev + i + 1);
    PrefixesKept(f, L, prev + i, prev + |ents|, s.commitIndex);
    PrefixesKept(f, L, prev + i, prev + |ents|, s.log.snapIndex);
    NewLogNode(gh, s, t);
  }

  lemma PrefixesKept(f: seq<Entry>, L: seq<Entry>, k: nat, n: nat, j: nat)
    requires Agree(f, L, k) && j <= k <= n <= |L|
    ensures L[..n][..j] == f[..j]
    ensures Agree(L[..n], L, n)
  {
    AgreeLess(f, L, k, j);
  }

  /** A follower may exchange its log for one that keeps its committed prefix and what it owes. */
  lemma NewLogNode(gh: Ghost, s: NodeState, t: NodeState)
    requires Good(gh, s) && s.role == Follower
    requires t == s.(log := t.log, conf := t.conf) && t.log.snapIndex == s.log.snapIndex
    requires LogInv(gh.tlog, s.log) && LogInv(gh.tlog, t.log) && t.log.LastTerm() <= s.term
    requires s.commitIndex <= t.log.LastIndex()
    requires Owes(gh.tlog, gh.acks, s.p.id, s.term, t.log)
    requires s.commitIndex <= s.log.LastIndex()
    requires Full(gh.tlog, t.log)[..s.commitIndex] == Full(gh.tlog, s.log)[..s.commitIndex]
    requires s.log.snapIndex <= s.commitIndex
    requires Full(gh.tlog, t.log)[..s.log.snapIndex] == Full(gh.tlog, s.log)[..s.log.snapIndex]
    requires t.conf.config.voters == gh.voters && forall k :: 0 <= k < |t.conf.history| ==>
        t.conf.history[k].cfg.voters == gh.voters
    ensures Good(gh, t)
  {
    hide GhostInv, LogInv, Full, Owes, IsCommitted, MsgInv, AppliedInv, RestoredInv;
    if s.log.snapIndex > 0 {
      var n := s.log.snapIndex;
      assert Full(gh.tlog, t.log)[n - 1] == Full(gh.tlog, t.log)[..n][n - 1];
      assert Full(gh.tlog, s.log)[n - 1] == Full(gh.tlog, s.log)[..n][n - 1];
    }
  }

  lemma PopKeepsVotersOf(gh: Ghost, s: NodeState, i: nat)
    requires Good(gh, s)
    ensures s.conf.config.voters == gh.voters
    ensures forall k :: 0 <= k < |s.conf.history| ==> s.conf.history[k].cfg.voters == gh.voters
    ensures TruncateConf(s.conf, i).config.voters == gh.voters
    ensures forall k :: 0 <= k < |TruncateConf(s.conf, i).history| ==>
        TruncateConf(s.conf, i).history[k].cfg.voters == gh.voters
  {
    hide GhostInv, OutInv, LogInv, Full, Owes, IsCommitted, SnapshotInv;
    PopKeepsVoters(s.conf.history, i, gh.voters);
  }

  // ---- AppendEntries

  lemma AppFacts(gh: Ghost, m: Message)
    requires m.App? && MsgInv(gh, m)
    ensures AppOf(gh, m.term, m.prevLogIndex, m.prevLogTerm, m.entries)
    ensures m.commit <= |gh.tlog[m.term]| && IsCommitted(gh, gh.tlog[m.term][..m.commit], m.term)
  {
    hide IsCommitted;
  }

  lemma RejectionTrue(gh: Ghost, from: nat, to: nat, term: nat, ci: nat, ct: nat)
    ensures MsgInv(gh, AppResp(from, to, term, false, 0, ci, ct))
  {
  }

  lemma SnapFacts(gh: Ghost, m: Message)
    requires m.Snap? && MsgInv(gh, m) && m.snapshot.Some?
    ensures m.term in gh.tlog && SnapshotOf(gh, m.snapshot.value, gh.tlog[m.term])
    ensures IsCommitted(gh, gh.tlog[m.term][..m.snapshot.value.index], m.term)
  {
    hide IsCommitted;
  }

  /** An acknowledgement that is true may be sent. */
  lemma AckSafe(gh: Ghost, s: NodeState, k: nat) returns (gh': Ghost)
    requires Good(gh, s) && s.role != Leader && s.term in gh.tlog
    requires LogInv(gh.tlog, s.log) && Agree(Full(gh.tlog, s.log), gh.tlog[s.term], k)
    ensures Leads(gh, s, gh', s) && AckedTo(gh', s.term, s.p.id, k)
  {
    hide GhostInv, NodeInv, OutInv, Ext, OnlyBy, LogInv, Full, Agree, AckedTo;
    gh' := WithAck(gh, s, k);
    AckStep(gh, s, k);
    OutInvGrows(gh, gh', s);
  }

  lemma AckAppSafe(gh: Ghost, s: NodeState, to: nat, k: nat) returns (gh': Ghost)
    requires Good(gh, s) && s.role != Leader && s.term in gh.tlog
    requires LogInv(gh.tlog, s.log) && Agree(Full(gh.tlog, s.log), gh.tlog[s.term], k)
    ensures Leads(gh, s, gh', RespondApp(s, to, true, k, 0, 0))
  {
    hide Good, Ext, OnlyBy, LogInv, Full, Agree, AckedTo;
    gh' := AckSafe(gh, s, k);
    SendSafe(gh', s, AppResp(s.p.id, to, s.term, true, k, 0, 0));
  }

  lemma FollowCommitSafe(gh: Ghost, s: NodeState, commit: nat, lastNew: nat)
    requires Good(gh, s) && s.term in gh.tlog && commit <= |gh.tlog[s.term]|
    requires IsCommitted(gh, gh.tlog[s.term][..commit], s.term)
    requires LogInv(gh.tlog, s.log) && Agree(Full(gh.tlog, s.log), gh.tlog[s.term], lastNew)
    ensures Good(gh, FollowCommit(s, commit, lastNew))
  {
    hide Good, LogInv, Full, IsCommitted;
    var c := if lastNew < commit then lastNew else commit;
    if c > s.commitIndex {
      var L, f := gh.tlog[s.term], Full(gh.tlog, s.log);
      IsCommittedLess(gh, L[..commit], s.term, c);
      assert L[..commit][..c] == L[..c];
      AgreeLess(f, L, lastNew, c);
      assert f[..c] == L[..c];
      CommitTo(gh, s, c);
    }
  }

  lemma HandleAppFromSafe(gh: Ghost, s: NodeState, m: Message, prev: nat, ents: seq<Entry>) returns (gh': Ghost)
    requires Good(gh, s) && s.role == Follower && m.App? && MsgInv(gh, m) && m.term == s.term
    requires s.log.Term(prev) == Some(m.prevLogTerm) ==> Offered(gh, s, prev, ents)
    ensures Leads(gh, s, gh', HandleAppFrom(s, m, prev, ents))
  {
    hide Good, Ext, OnlyBy, MsgInv, LogInv, Full, IsCommitted, Agree, FirstConflict, AcceptEntries, TermLogs, Owes,
         Accepted;
    var t := s.log.Term(prev);
    if t != Some(m.prevLogTerm) {
      gh' := gh;
      var ci, ct := if t.None? then s.log.LastIndex() + 1 else s.log.FirstIndexOfTerm(prev, t.value),
          if t.None? then 0 else t.value;
      RejectionTrue(gh, s.p.id, m.from, s.term, ci, ct);
      SendSafe(gh, s, AppResp(s.p.id, m.from, s.term, false, 0, ci, ct));
      LeadsHere(gh, s, HandleAppFrom(s, m, prev, ents));
    } else {
      AppFacts(gh, m);
      AcceptIsSplice(gh, s, prev, ents);
      AcceptedNode(gh, s, prev, ents);
      var a, b := Accepted(gh, s, prev, ents), AcceptEntries(s, ents);
      QuietSafe(gh, a, b);
      History(gh, b);
      FollowCommitSafe(gh, b, m.commit, prev + |ents|);
      var c := FollowCommit(b, m.commit, prev + |ents|);
      LeadsHere(gh, s, c);
      gh' := AckAppSafe(gh, c, m.from, prev + |ents|);
      LeadsTrans(gh, s, gh, c, gh', RespondApp(c, m.from, true, prev + |ents|, 0, 0));
    }
  }

  /** The snapshot point of a node is in its leader's log. */
  lemma SnapPointAgrees(gh: Ghost, s: NodeState)
    requires Good(gh, s) && s.term in gh.tlog
    ensures LogInv(gh.tlog, s.log) && Agree(Full(gh.tlog, s.log), gh.tlog[s.term], s.log.snapIndex)
  {
    hide Good, LogInv, Full;
    CommitInLeader(gh, s);
    AgreeLess(Full(gh.tlog, s.log), gh.tlog[s.term], s.commitIndex, s.log.snapIndex);
  }

  lemma HandleAppSafe(gh: Ghost, s: NodeState, m: Message) returns (gh': Ghost)
    requires Good(gh, s) && m.App? && MsgInv(gh, m) && m.term == s.term
    ensures Leads(gh, s, gh', HandleApp(s, m))
  {
    hide Good, Ext, OnlyBy, MsgInv, LogInv, Full, Agree, HandleAppFrom, TermLogs, Owes, IsCommitted;
    gh' := gh;
    if s.role == Leader {
      LeadsHere(gh, s, s);
    } else {
      var s0 := if s.role != Follower then BecomeFollower(s, m.term, m.from) else s;
      FollowerSafe(gh, s, m.term, m.from);
      var s1 := ResetElection(s0.(leaderID := m.from));
      QuietSafe(gh, s0, s1);
      LeadsHere(gh, s, s1);
      gh' := OfferSafe(gh, s1, m);
      LeadsTrans(gh, s, gh, s1, gh', HandleApp(s, m));
    }
  }

  /** A follower that has recognised the leader skips what its snapshot covers and answers the rest. */
  lemma OfferSafe(gh: Ghost, s: NodeState, m: Message) returns (gh': Ghost)
    requires Good(gh, s) && m.App? && MsgInv(gh, m) && m.term == s.term && s.role == Follower
    ensures var skip := if m.prevLogIndex < s.log.snapIndex then s.log.snapIndex - m.prevLogIndex else 0;
      Leads(gh, s, gh', if skip > 0 && |m.entries| <= skip then RespondApp(s, m.from, true, s.log.snapIndex, 0, 0)
                        else HandleAppFrom(s, m, m.prevLogIndex + skip, m.entries[skip..]))
  {
    hide Good, Ext, OnlyBy, MsgInv, LogInv, Full, Agree, HandleAppFrom, TermLogs, Owes, IsCommitted;
    AppFacts(gh, m);
    History(gh, s);
    if m.prevLogIndex < s.log.snapIndex {
      SnapPointAgrees(gh, s);
    }
    var skip := if m.prevLogIndex < s.log.snapIndex then s.log.snapIndex - m.prevLogIndex else 0;
    if skip > 0 && |m.entries| <= skip {
      gh' := AckAppSafe(gh, s, m.from, s.log.snapIndex);
    } else {
      var prev, ents := m.prevLogIndex + skip, m.entries[skip..];
      assert ents == gh.tlog[s.term][prev..prev + |ents|];
      if skip == 0 && s.log.Term(prev) == Some(m.prevLogTerm) {
        LogMatches(gh.tlog, s.log, s.term, prev);
      }
      gh' := HandleAppFromSafe(gh, s, m, prev, ents);
    }
  }

  // ---- InstallSnapshot

  /** The snapshot is the leader's, committed, and of entries the leader's log begins with. */
  ghost predicate SnapOffered(gh: Ghost, s: NodeState, snap: Snapshot) {
    && s.term in gh.tlog
    && SnapshotOf(gh, snap, gh.tlog[s.term])
    && IsCommitted(gh, gh.tlog[s.term][..snap.index], s.term)
  }

  lemma PruneKeepsVotersOf(gh: Ghost, s: NodeState, i: nat)
    requires Good(gh, s)
    ensures PruneConf(s.conf, i).config.voters == gh.voters
    ensures forall k :: 0 <= k < |PruneConf(s.conf, i).history| ==> PruneConf(s.conf, i).history[k].cfg.voters == gh.voters
    ensures ConfigAt(s.conf.history, i).voters == gh.voters
  {
    hide GhostInv, OutInv, LogInv, Full, Owes, IsCommitted, SnapshotInv;
    PruneKeepsVoters(s.conf.history, i, gh.voters);
    ConfigAtVoters(s.conf.history, i, gh.voters);
  }

  /** Compacting under a snapshot of what has been applied. */
  lemma CompactSafe(gh: Ghost, s: NodeState, snap: Snapshot)
    requires Good(gh, s) && LogInv(gh.tlog, s.log)
    requires s.log.snapIndex < snap.index <= s.lastApplied && s.log.Term(snap.index) == Some(snap.term)
    requires SnapshotOf(gh, snap, Full(gh.tlog, s.log))
    ensures Good(gh, s.(log := s.log.Compact(snap.index, snap.term), snapshot := Some(snap),
        conf := PruneConf(s.conf, snap.index)))
  {
    hide Good, NodeInv, LogInv, Full, Owes, IsCommitted, SnapshotOf, PruneConf;
    var l, c := s.log.Compact(snap.index, snap.term), PruneConf(s.conf, snap.index);
    var t := s.(log := l, snapshot := Some(snap), conf := c);
    History(gh, s);
    CompactKeeps(gh.tlog, s.log, snap.index, snap.term);
    PruneKeepsVotersOf(gh, s, snap.index);
    CompactNode(gh, s, t);
    SameOutGood(gh, s, t);
  }

  lemma SameOutGood(gh: Ghost, s: NodeState, t: NodeState)
    requires Good(gh, s) && NodeInv(gh, t) && t.out == s.out && t.lastApplied == s.lastApplied
    ensures Good(gh, t)
  {
    hide GhostInv, NodeInv, MsgInv, AppliedInv, RestoredInv;
  }

  lemma CompactNode(gh: Ghost, s: NodeState, t: NodeState)
    requires Good(gh, s) && t == s.(log := t.log, snapshot := t.snapshot, conf := t.conf)
    requires LogInv(gh.tlog, s.log) && LogInv(gh.tlog, t.log) && Full(gh.tlog, t.log) == Full(gh.tlog, s.log)
    requires t.log.LastTerm() == s.log.LastTerm() && t.log.LastIndex() == s.log.LastIndex()
    requires t.snapshot.Some? && t.snapshot.value.index == t.log.snapIndex && 0 < t.log.snapIndex <= s.lastApplied
    requires SnapshotOf(gh, t.snapshot.value, Full(gh.tlog, s.log))
    requires Owes(gh.tlog, gh.acks, s.p.id, s.term, s.log)
    requires t.conf.config.voters == gh.voters && forall k :: 0 <= k < |t.conf.history| ==>
        t.conf.history[k].cfg.voters == gh.voters
    ensures NodeInv(gh, t)
  {
    hide GhostInv, OutInv, LogInv, Full, IsCommitted, SnapshotOf, Agree;
    OwesSame(gh.tlog, gh.acks, s.p.id, s.term, s.log, t.log);
  }

  lemma OwesSame(tlog: Logs, acks: map<(nat, nat), nat>, id: nat, term: nat, l: Log, l': Log)
    requires LogInv(tlog, l) && LogInv(tlog, l') && Full(tlog, l) == Full(tlog, l') && Owes(tlog, acks, id, term, l)
    ensures Owes(tlog, acks, id, term, l')
  {
    hide LogInv, Full, Agree, Own, LaterHave;
  }

  lemma KeepSuffixSafe(gh: Ghost, s: NodeState, snap: Snapshot)
    requires Good(gh, s) && SnapOffered(gh, s, snap)
    requires snap.index > s.commitIndex && s.log.Term(snap.index) == Some(snap.term)
    ensures Good(gh, KeepSuffix(s, snap))
    ensures KeepSuffix(s, snap).p == s.p && KeepSuffix(s, snap).role == s.role && KeepSuffix(s, snap).term == s.term
    ensures LogInv(gh.tlog, KeepSuffix(s, snap).log) &&
        Agree(Full(gh.tlog, KeepSuffix(s, snap).log), gh.tlog[s.term], snap.index)
  {
    hide Good, LogInv, Full, IsCommitted;
    History(gh, s);
    var L := gh.tlog[s.term];
    LogMatches(gh.tlog, s.log, s.term, snap.index);
    var f := Full(gh.tlog, s.log);
    AgreeLess(f, L, snap.index, snap.index);
    assert f[..snap.index] == L[..snap.index];
    TermInFull(gh.tlog, s.log, snap.index);
    CommitTo(gh, s, snap.index);
    var t := ApplyCommitted(s.(commitIndex := snap.index));
    assert t.lastApplied == snap.index;
    CompactSafe(gh, t, snap);
    var u := t.(log := t.log.Compact(snap.index, snap.term), snapshot := Some(snap), conf := PruneConf(t.conf, snap.index));
    QuietSafe(gh, u, KeepSuffix(s, snap));
    CompactKeeps(gh.tlog, s.log, snap.index, snap.term);
  }

  /** Where f and g differ in term at n, what both share with h ends below n. */
  lemma BelowDifference(f: seq<Entry>, g: seq<Entry>, h: seq<Entry>, k: nat, n: nat)
    requires Agree(f, h, k) && Agree(g, h, k) && 0 < n <= |g| && (n <= |f| ==> TermAt(f, n) != TermAt(g, n))
    ensures k < n && Agree(g[..n], h, k)
  {
    assert forall j :: 0 <= j < k ==> f[j] == f[..k][j] == g[..k][j] == g[j];
    assert g[..n][..k] == g[..k];
  }

  lemma ReplaceOwes(gh: Ghost, s: NodeState, snap: Snapshot)
    requires Good(gh, s) && SnapOffered(gh, s, snap)
    requires snap.index > s.commitIndex && s.log.Term(snap.index) != Some(snap.term)
    requires LogInv(gh.tlog, Log(snap.index, snap.term, []))
    requires Full(gh.tlog, Log(snap.index, snap.term, [])) == gh.tlog[s.term][..snap.index]
    ensures Owes(gh.tlog, gh.acks, s.p.id, s.term, Log(snap.index, snap.term, []))
  {
    hide Good, LogInv, Full, IsCommitted;
    History(gh, s);
    TermInFull(gh.tlog, s.log, snap.index);
    forall T: nat, k: nat | (T, s.p.id) in gh.acks && k <= gh.acks[(T, s.p.id)] && Counts(gh.tlog, T, k, s.term) &&
        LaterHave(gh.tlog, T, k, s.term)
      ensures Agree(gh.tlog[s.term][..snap.index], gh.tlog[T], k)
    {
      assert Agree(Full(gh.tlog, s.log), gh.tlog[T], k);
      if T < s.term {
        assert Agree(gh.tlog[s.term], gh.tlog[T], k);
      }
      BelowDifference(Full(gh.tlog, s.log), gh.tlog[s.term], gh.tlog[T], k, snap.index);
    }
  }

  lemma ReplaceLogSafe(gh: Ghost, s: NodeState, snap: Snapshot)
    requires Good(gh, s) && s.role == Follower && SnapOffered(gh, s, snap) && s.out.applied == []
    requires snap.index > s.commitIndex && s.log.Term(snap.index) != Some(snap.term)
    ensures Good(gh, ReplaceLog(s, snap))
    ensures ReplaceLog(s, snap).p == s.p && ReplaceLog(s, snap).role == s.role && ReplaceLog(s, snap).term == s.term
    ensures LogInv(gh.tlog, ReplaceLog(s, snap).log) &&
        Agree(Full(gh.tlog, ReplaceLog(s, snap).log), gh.tlog[s.term], snap.index)
  {
    hide Good, LogInv, Full, IsCommitted;
    History(gh, s);
    var L := gh.tlog[s.term];
    var l' := Log(snap.index, snap.term, []);
    LeaderPrefixLog(gh.tlog, s.term, l');
    ReplaceOwes(gh, s, snap);
    assert L[..snap.index][..snap.index] == L[..snap.index];
    ReplacedNode(gh, s, snap);
  }

  lemma ReplacedNode(gh: Ghost, s: NodeState, snap: Snapshot)
    requires Good(gh, s) && s.role == Follower && SnapOffered(gh, s, snap) && s.out.applied == []
    requires LogInv(gh.tlog, Log(snap.index, snap.term, []))
    requires Full(gh.tlog, Log(snap.index, snap.term, [])) == gh.tlog[s.term][..snap.index]
    requires gh.tlog[s.term][..snap.index][..snap.index] == gh.tlog[s.term][..snap.index]
    requires snap.term <= s.term
    requires Owes(gh.tlog, gh.acks, s.p.id, s.term, Log(snap.index, snap.term, []))
    ensures Good(gh, ReplaceLog(s, snap))
  {
    hide GhostInv, LogInv, Full, Owes, IsCommitted, MsgInv, AppliedInv;
  }

  lemma InstallSnapshotSafe(gh: Ghost, s: NodeState, m: Message) returns (gh': Ghost)
    requires Good(gh, s) && m.Snap? && MsgInv(gh, m) && m.term == s.term && s.out.applied == []
    ensures Leads(gh, s, gh', InstallSnapshot(s, m))
  {
    hide Good, Ext, OnlyBy, MsgInv, LogInv, Full, Agree, KeepSuffix, ReplaceLog, SnapshotOf, IsCommitted;
    gh' := gh;
    var s0 := if s.role != Follower then BecomeFollower(s, m.term, m.from) else s;
    FollowerSafe(gh, s, m.term, m.from);
    var s1 := ResetElection(s0.(leaderID := m.from));
    QuietSafe(gh, s0, s1);
    LeadsHere(gh, s, s1);
    if m.snapshot.Some? {
      var snap := m.snapshot.value;
      SnapFacts(gh, m);
      if snap.index <= s1.commitIndex {
        CommitInLeader(gh, s1);
        gh' := AckSnapSafe(gh, s1, m.from, s1.commitIndex);
        LeadsTrans(gh, s, gh, s1, gh', InstallSnapshot(s, m));
      } else {
        var s2: NodeState;
        if s1.log.Term(snap.index) == Some(snap.term) {
          s2 := KeepSuffix(s1, snap);
          KeepSuffixSafe(gh, s1, snap);
        } else {
          s2 := ReplaceLog(s1, snap);
          ReplaceLogSafe(gh, s1, snap);
        }
        LeadsHere(gh, s, s2);
        gh' := AckSnapSafe(gh, s2, m.from, snap.index);
        LeadsTrans(gh, s, gh, s2, gh', InstallSnapshot(s, m));
      }
    }
  }

  lemma AckSnapSafe(gh: Ghost, s: NodeState, to: nat, k: nat) returns (gh': Ghost)
    requires Good(gh, s) && s.role != Leader && s.term in gh.tlog
    requires LogInv(gh.tlog, s.log) && Agree(Full(gh.tlog, s.log), gh.tlog[s.term], k)
    ensures Leads(gh, s, gh', Send(s, SnapResp(s.p.id, to, s.term, k)))
  {
    hide Good, Ext, OnlyBy, LogInv, Full, Agree, AckedTo;
    gh' := AckSafe(gh, s, k);
    SendSafe(gh', s, SnapResp(s.p.id, to, s.term, k));
  }

  /** The application's own snapshot, of what the log held up to its index. */
  lemma CreateSnapshotSafe(gh: Ghost, s: NodeState, index: nat, data: seq<byte>)
    requires Good(gh, s) && index <= s.lastApplied
    requires LogInv(gh.tlog, s.log) && index <= s.log.LastIndex()
    requires gh.rel(Full(gh.tlog, s.log)[..index], data)
    ensures Good(gh, DoCreateSnapshot(s, index, data))
  {
    hide Good, LogInv, Full;
    History(gh, s);
    if index > s.log.snapIndex {
      TermInFull(gh.tlog, s.log, index);
      PruneKeepsVotersOf(gh, s, index);
      var snap := Snapshot(index, s.log.Term(index).value, ConfigAt(s.conf.history, index), data);
      CompactSafe(gh, s, snap);
      var u := s.(log := s.log.Compact(index, snap.term), snapshot := Some(snap), conf := PruneConf(s.conf, index));
      QuietSafe(gh, u, DoCreateSnapshot(s, index, data));
    }
  }

  // ---- The leader hears back

  lemma SetMatchTruthful(gh: Ghost, s: NodeState, from: nat, matched: nat)
    requires Good(gh, s) && s.role == Leader && from in s.prs && AckedTo(gh, s.term, from, matched)
    ensures Good(gh, s.(prs := s.prs[from := SetMatch(s.prs[from], matched)]))
  {
    hide Good, LogInv, Full;
    LeaderFacts(gh, s);
    AckedWithin(gh, s, from, matched);
    ProgressSafe(gh, s, s.prs[from := SetMatch(s.prs[from], matched)]);
  }

  lemma AckedWithin(gh: Ghost, s: NodeState, v: nat, k: nat)
    requires Good(gh, s) && s.role == Leader && AckedTo(gh, s.term, v, k)
    ensures k <= s.log.LastIndex()
  {
    hide OutInv, LogInv, Full, Owes, IsCommitted, SnapshotInv, TermLogs, Elections, VotesSafe, LeadersSafe;
  }

  lemma AfterProgressSafe(gh: Ghost, s: NodeState, from: nat, next: nat)
    requires Good(gh, s)
    ensures Good(gh, AfterProgress(s, from, next)) && AfterProgress(s, from, next).p == s.p
    ensures AfterProgress(s, from, next).role == Leader ==> s.role == Leader && AfterProgress(s, from, next).term == s.term
  {
    assert s.learner == NONE by {
      hide GhostInv, OutInv, LogInv, Full, Owes, IsCommitted, SnapshotInv;
    }
    hide Good;
    SendAppendSafe(gh, s, from);
  }

  lemma HandleAppRespSafe(gh: Ghost, s: NodeState, m: Message)
    requires Good(gh, s) && m.AppResp? && MsgInv(gh, m)
    ensures Good(gh, HandleAppResp(s, m)) && HandleAppResp(s, m).p == s.p
    ensures HandleAppResp(s, m).role == Leader ==> s.role == Leader && HandleAppResp(s, m).term == s.term
  {
    hide Good, BackupNext, SetMatch;
    if !(s.role != Leader || m.term != s.term || m.from !in s.prs) {
      if m.success {
        var pr := SetMatch(s.prs[m.from], m.matchIndex);
        SetMatchTruthful(gh, s, m.from, m.matchIndex);
        MaybeCommitSafe(gh, s.(prs := s.prs[m.from := pr]));
        var s1 := MaybeCommit(s.(prs := s.prs[m.from := pr]));
        if s1.role == Leader {
          SendSafe(gh, s1, TimeoutNow(s1.p.id, m.from, s1.term));
          var s2 := if s1.transferee == m.from && pr.matched == s1.log.LastIndex()
                    then Send(s1, TimeoutNow(s1.p.id, m.from, s1.term)) else s1;
          AfterProgressSafe(gh, s2, m.from, pr.next);
        }
      } else {
        BackupSafe(gh, s, m);
        var pr := s.prs[m.from];
        var next := BackupNext(s.log, pr, m.conflictIndex, m.conflictTerm);
        SendAppendSafe(gh, s.(prs := s.prs[m.from := pr.(recentActive := true, next := next)]), m.from);
      }
    }
  }

  lemma BackupSafe(gh: Ghost, s: NodeState, m: Message)
    requires Good(gh, s) && s.role == Leader && m.AppResp? && m.from in s.prs
    ensures var pr := s.prs[m.from];
      Good(gh, s.(prs := s.prs[m.from := pr.(recentActive := true,
          next := BackupNext(s.log, pr, m.conflictIndex, m.conflictTerm))]))
  {
    hide Good, LogInv, Full;
    LeaderFacts(gh, s);
    var pr := s.prs[m.from];
    ProgressSafe(gh, s, s.prs[m.from := pr.(recentActive := true,
        next := BackupNext(s.log, pr, m.conflictIndex, m.conflictTerm))]);
  }

  lemma HandleSnapRespSafe(gh: Ghost, s: NodeState, m: Message)
    requires Good(gh, s) && m.SnapResp? && MsgInv(gh, m)
    ensures Good(gh, HandleSnapResp(s, m)) && HandleSnapResp(s, m).p == s.p
    ensures HandleSnapResp(s, m).role == Leader ==> s.role == Leader && HandleSnapResp(s, m).term == s.term
  {
    hide Good, SetMatch;
    if !(s.role != Leader || m.term != s.term || m.from !in s.prs) {
      var pr := SetMatch(s.prs[m.from], m.matchIndex);
      SetMatchTruthful(gh, s, m.from, m.matchIndex);
      MaybeCommitSafe(gh, s.(prs := s.prs[m.from := pr]));
      var s1 := MaybeCommit(s.(prs := s.prs[m.from := pr]));
      if s1.role == Leader {
        AfterProgressSafe(gh, s1, m.from, pr.next);
      }
    }
  }

  // ---- Whole inputs

  lemma DispatchSafe(gh: Ghost, s: NodeState, m: Message) returns (gh': Ghost)
    requires Good(gh, s) && MsgInv(gh, m) && m.to == s.p.id && s.out.applied == []
    requires m.term == s.term || (m.term > s.term && ((m.Vote? && m.preVote) || (m.VoteResp? && m.preVote && m.granted)))
    ensures Leads(gh, s, gh', Dispatch(s, m))
  {
    hide Good, Ext, OnlyBy, MsgInv, HandleVote, HandleVoteResp, HandleApp, HandleAppResp, InstallSnapshot,
         HandleSnapResp, Campaign;
    gh' := gh;
    match m
    case Vote(_, _, _, _, _, _, _) => gh' := HandleVoteSafe(gh, s, m);
    case VoteResp(_, _, _, _, _, _) => gh' := HandleVoteRespSafe(gh, s, m);
    case App(_, _, _, _, _, _, _) => gh' := HandleAppSafe(gh, s, m);
    case AppResp(_, _, _, _, _, _, _) =>
      HandleAppRespSafe(gh, s, m);
      LeadsHere(gh, s, HandleAppResp(s, m));
    case Snap(_, _, _, _) => gh' := InstallSnapshotSafe(gh, s, m);
    case SnapResp(_, _, _, _) =>
      HandleSnapRespSafe(gh, s, m);
      LeadsHere(gh, s, HandleSnapResp(s, m));
    case TimeoutNow(_, _, _) =>
      if s.role == Leader || !Promotable(s) {
        LeadsHere(gh, s, s);
      } else {
        gh' := CampaignSafe(gh, s, true);
      }
  }

  lemma ReceiveSafe(gh: Ghost, s: NodeState, m: Message) returns (gh': Ghost)
    requires Good(gh, s) && MsgInv(gh, m) && m.to == s.p.id && s.out.applied == []
    ensures Leads(gh, s, gh', DoReceive(s, m))
  {
    hide Good, Ext, OnlyBy, Dispatch, Sticky;
    gh' := gh;
    if m.term > s.term {
      if (m.Vote? && m.preVote) || (m.VoteResp? && m.preVote && m.granted) {
        gh' := DispatchSafe(gh, s, m);
      } else if m.Vote? && Sticky(s, m.force) {
        SendSafe(gh, s, VoteResp(s.p.id, m.from, s.term, false, false, false));
        LeadsHere(gh, s, DoReceive(s, m));
      } else {
        var leader := if m.App? || m.Snap? then m.from else NONE;
        var t := BecomeFollower(s, m.term, leader);
        FollowerSafe(gh, s, m.term, leader);
        LeadsHere(gh, s, t);
        gh' := DispatchSafe(gh, t, m);
        LeadsTrans(gh, s, gh, t, gh', Dispatch(t, m));
      }
    } else if m.term < s.term {
      SendSafe(gh, s, AppResp(s.p.id, m.from, s.term, false, 0, s.log.LastIndex() + 1, 0));
      if m.Vote? {
        SendSafe(gh, s, VoteResp(s.p.id, m.from, s.term, m.preVote, false, false));
      }
      LeadsHere(gh, s, DoReceive(s, m));
    } else {
      gh' := DispatchSafe(gh, s, m);
    }
  }

  lemma ForgetSafe(gh: Ghost, s: NodeState, targets: seq<nat>)
    requires Good(gh, s) && s.role == Leader
    ensures Good(gh, s.(prs := ForgetActivity(s.prs, targets)))
  {
    hide Good, LogInv, Full;
    LeaderFacts(gh, s);
    ProgressSafe(gh, s, ForgetActivity(s.prs, targets));
  }

  lemma HeartbeatSafe(gh: Ghost, s: NodeState)
    requires Good(gh, s)
    ensures Good(gh, Heartbeat(s)) && Heartbeat(s).p == s.p
    ensures Heartbeat(s).role == Leader ==> s.role == Leader && Heartbeat(s).term == s.term
  {
    hide Good;
    var t := s.(clock := s.clock.(heartbeatElapsed := 0));
    QuietSafe(gh, s, t);
    SendAppendAllSafe(gh, t, ReplicationTargets(t));
  }

  lemma TickLeaderSafe(gh: Ghost, s: NodeState)
    requires Good(gh, s) && s.role == Leader
    ensures Good(gh, TickLeader(s)) && TickLeader(s).p == s.p
    ensures TickLeader(s).role == Leader ==> s.role == Leader && TickLeader(s).term == s.term
  {
    hide Good, QuorumActive, Heartbeat, ReplicationTargets, ForgetActivity, TimeoutOf;
    var s1 := s.(clock := s.clock.(heartbeatElapsed := s.clock.heartbeatElapsed + 1,
        quorumElapsed := s.clock.quorumElapsed + 1));
    var s2 := TickTransfer(s1);
    QuietSafe(gh, s, s2);
    HeartbeatSafe(gh, s2);
    var s3 := s2.(clock := s2.clock.(quorumElapsed := 0));
    QuietSafe(gh, s2, s3);
    FollowerSafe(gh, s3, s3.term, NONE);
    ForgetSafe(gh, s3, ReplicationTargets(s3));
    HeartbeatSafe(gh, s3.(prs := ForgetActivity(s3.prs, ReplicationTargets(s3))));
  }

  lemma TickSafe(gh: Ghost, s: NodeState) returns (gh': Ghost)
    requires Good(gh, s)
    ensures Leads(gh, s, gh', DoTick(s))
  {
    hide Good, Ext, OnlyBy, TickLeader, Campaign, PreCampaign;
    gh' := gh;
    if s.role == Leader {
      TickLeaderSafe(gh, s);
      LeadsHere(gh, s, DoTick(s));
    } else {
      var t := s.(clock := s.clock.(electionElapsed := s.clock.electionElapsed + 1));
      QuietSafe(gh, s, t);
      LeadsHere(gh, s, t);
      if t.clock.electionElapsed >= t.clock.randTimeout {
        if t.p.preVote {
          gh' := PreCampaignSafe(gh, t, false);
        } else {
          gh' := CampaignSafe(gh, t, false);
        }
        LeadsTrans(gh, s, gh, t, gh', DoTick(s));
      }
    }
  }

  lemma ProposeSafe(gh: Ghost, s: NodeState, data: seq<byte>) returns (gh': Ghost)
    requires Good(gh, s) && data in gh.payload
    ensures Leads(gh, s, gh', DoPropose(s, data))
  {
    hide Good, Ext, OnlyBy, AppendEntry;
    gh' := gh;
    if s.role != Leader || s.transferee != NONE {
      QuietSafe(gh, s, Reject(s));
      LeadsHere(gh, s, Reject(s));
    } else {
      gh' := AppendEntrySafe(gh, s, Normal, data);
      var s1 := AppendEntry(s, Normal, data);
      var s2 := Reply(s1, ProposeReply(true, s1.log.LastIndex(), s1.term, 0));
      QuietSafe(gh', s1, s2);
      CommitAndBroadcastSafe(gh', s2);
    }
  }

  lemma TransferSafe(gh: Ghost, s: NodeState, target: nat)
    requires Good(gh, s)
    ensures Good(gh, DoTransfer(s, target)) && DoTransfer(s, target).p == s.p
    ensures DoTransfer(s, target).role == Leader ==> s.role == Leader && DoTransfer(s, target).term == s.term
  {
    hide Good;
    if s.role != Leader || target == s.p.id || !s.conf.config.Contains(target) {
      QuietSafe(gh, s, Reject(s));
    } else {
      var s1 := Reply(s.(transferee := target, clock := s.clock.(transferElapsed := 0)), ProposeReply(true, 0, s.term, 0));
      QuietSafe(gh, s, s1);
      SendSafe(gh, s1, TimeoutNow(s1.p.id, target, s1.term));
      SendAppendSafe(gh, s1, target);
    }
  }
}
