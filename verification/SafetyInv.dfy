/** What holds of every node and every message, in terms of the history. */
module SafetyInv {
  import opened RaftTypes
  import opened LogSpec
  import opened NodeSpec
  import opened Ghosts

  /** The log is a piece of the log of the leader that created its last entry. */
  ghost predicate LogInv(tlog: Logs, l: Log) {
    if l.LastIndex() == 0 then l.snapTerm == 0
    else
      && l.LastTerm() in tlog
      && Own(tlog, l.LastTerm(), l.LastIndex())
      && l.entries == tlog[l.LastTerm()][l.snapIndex..l.LastIndex()]
      && l.snapTerm == TermAt(tlog[l.LastTerm()], l.snapIndex)
  }

  /** The term of entry i, counting from 1; 0 before the first. */
  function TermAt(s: seq<Entry>, i: nat): nat
    requires i <= |s|
  {
    if i == 0 then 0 else s[i - 1].term
  }

  /** The log together with all the entries it has ever compacted away. */
  ghost function Full(tlog: Logs, l: Log): (f: seq<Entry>)
    requires LogInv(tlog, l)
    ensures |f| == l.LastIndex()
  {
    if l.LastIndex() == 0 then [] else tlog[l.LastTerm()][..l.LastIndex()]
  }

  /** The configuration never changes: the fixed voters, everywhere. */
  ghost predicate ConfInv(gh: Ghost, s: NodeState) {
    && s.conf.config.voters == gh.voters
    && (forall k :: 0 <= k < |s.conf.history| ==> s.conf.history[k].cfg.voters == gh.voters)
    && s.learner == NONE
    && s.p.id != NONE
    && !s.panicked
  }

  /** What a node has promised never runs ahead of its term, and its vote in the current term is the recorded one. */
  ghost predicate PromiseInv(gh: Ghost, s: NodeState) {
    && (forall U :: (U, s.p.id) in gh.votes ==> U <= s.term)
    && ((s.term, s.p.id) in gh.votes ==> s.votedFor == gh.votes[(s.term, s.p.id)] && s.votedFor != NONE)
    && (forall U :: (U, s.p.id) in gh.key ==> U <= s.term)
    && (forall T :: (T, s.p.id) in gh.acks ==> T <= s.term)
    && (forall T :: T in gh.leader && gh.leader[T] == s.p.id ==> T <= s.term)
  }

  /** The node still holds what it acknowledged, unless some leader it may have followed since lacks it. */
  ghost predicate AckInv(gh: Ghost, s: NodeState)
    requires LogInv(gh.tlog, s.log)
  {
    Owes(gh.tlog, gh.acks, s.p.id, s.term, s.log)
  }

  /** Within its term a node owes all it acknowledged; later, all that later leaders hold. */
  ghost predicate Counts(tlog: Logs, T: nat, k: nat, term: nat) {
    Within(tlog, T, k) || (T == term && T in tlog && k <= |tlog[T]|)
  }

  ghost predicate Owes(tlog: Logs, acks: map<(nat, nat), nat>, id: nat, term: nat, l: Log)
    requires LogInv(tlog, l)
  {
    forall T: nat, k: nat ::
      (T, id) in acks && k <= acks[(T, id)] && Counts(tlog, T, k, term) && LaterHave(tlog, T, k, term)
      ==> Agree(Full(tlog, l), tlog[T], k)
  }

  ghost predicate CandidateInv(gh: Ghost, s: NodeState) {
    s.role == Candidate ==>
      && (s.term, s.p.id) in gh.key
      && gh.key[(s.term, s.p.id)] == (s.log.LastTerm(), s.log.LastIndex())
      && s.log.LastTerm() < s.term
      && !(s.term in gh.leader && gh.leader[s.term] == s.p.id)
      && (forall v :: v in s.votes && s.votes[v] ==> (s.term, v) in gh.votes && gh.votes[(s.term, v)] == s.p.id)
  }

  ghost predicate AckedTo(gh: Ghost, T: nat, v: nat, k: nat) {
    k == 0 || ((T, v) in gh.acks && k <= gh.acks[(T, v)])
  }

  ghost predicate ProgressInv(gh: Ghost, s: NodeState) {
    forall v :: v in s.prs ==>
      && v != s.p.id
      && AckedTo(gh, s.term, v, s.prs[v].matched)
      && s.prs[v].matched < s.prs[v].next <= s.log.LastIndex() + 1
  }

  /** A leader's log is its term's log, it counts itself as having acknowledged all of it, and its progress is
      truthful. */
  ghost predicate LeaderInv(gh: Ghost, s: NodeState)
    requires LogInv(gh.tlog, s.log)
  {
    if s.role != Leader then s.prs == map[]
    else
      && s.term in gh.tlog
      && s.term in gh.leader
      && gh.leader[s.term] == s.p.id
      && Full(gh.tlog, s.log) == gh.tlog[s.term]
      && (s.term, s.p.id) in gh.acks
      && gh.acks[(s.term, s.p.id)] == s.log.LastIndex()
      && ProgressInv(gh, s)
  }

  ghost predicate CommitInv(gh: Ghost, s: NodeState)
    requires LogInv(gh.tlog, s.log)
  {
    && s.log.snapIndex <= s.lastApplied <= s.commitIndex <= s.log.LastIndex()
    && IsCommitted(gh, Full(gh.tlog, s.log)[..s.commitIndex], s.term)
  }

  /** The latest snapshot sits at the log's snapshot point. */
  ghost predicate SnapshotInv(gh: Ghost, s: NodeState)
    requires LogInv(gh.tlog, s.log)
  {
    if s.log.snapIndex == 0 then s.snapshot.None?
    else
      s.snapshot.Some? && SnapshotOf(gh, s.snapshot.value, Full(gh.tlog, s.log)) &&
      s.snapshot.value.index == s.log.snapIndex
  }

  ghost predicate SnapshotOf(gh: Ghost, snap: Snapshot, full: seq<Entry>) {
    && 1 <= snap.index <= |full|
    && snap.term == full[snap.index - 1].term
    && snap.config.voters == gh.voters
    && gh.rel(full[..snap.index], snap.data)
  }

  ghost predicate NodeInv(gh: Ghost, s: NodeState) {
    && LogInv(gh.tlog, s.log)
    && s.log.LastTerm() <= s.term
    && ConfInv(gh, s)
    && PromiseInv(gh, s)
    && AckInv(gh, s)
    && CandidateInv(gh, s)
    && LeaderInv(gh, s)
    && CommitInv(gh, s)
    && SnapshotInv(gh, s)
  }

  ghost predicate MsgInv(gh: Ghost, m: Message) {
    match m
    case Vote(from, to, term, preVote, _, lastIndex, lastTerm) =>
      !preVote ==> from != NONE && (term, from) in gh.key && gh.key[(term, from)] == (lastTerm, lastIndex)
    case VoteResp(from, to, term, preVote, _, granted) =>
      !preVote && granted ==> (term, from) in gh.votes && gh.votes[(term, from)] == to
    case App(from, to, term, prev, prevTerm, ents, commit) =>
      && AppOf(gh, term, prev, prevTerm, ents)
      && from == gh.leader[term]
      && commit <= |gh.tlog[term]|
      && IsCommitted(gh, gh.tlog[term][..commit], term)
    case AppResp(from, to, term, success, matched, _, _) =>
      success ==> AckedTo(gh, term, from, matched)
    case Snap(from, to, term, snapshot) =>
      snapshot.Some? ==>
        && term in gh.tlog
        && term in gh.leader
        && from == gh.leader[term]
        && to != from
        && SnapshotOf(gh, snapshot.value, gh.tlog[term])
        && IsCommitted(gh, gh.tlog[term][..snapshot.value.index], term)
    case SnapResp(from, to, term, matched) => AckedTo(gh, term, from, matched)
    case TimeoutNow(_, _, _) => true
  }

  /** A piece of a leader's log, with the term just before it. */
  ghost predicate AppOf(gh: Ghost, term: nat, prev: nat, prevTerm: nat, ents: seq<Entry>) {
    && term in gh.tlog
    && term in gh.leader
    && prev + |ents| <= |gh.tlog[term]|
    && ents == gh.tlog[term][prev..prev + |ents|]
    && prevTerm == TermAt(gh.tlog[term], prev)
  }

  /** An entry handed to the state machine was committed at its own index. */
  ghost predicate AppliedInv(gh: Ghost, e: Entry) {
    exists s, t :: IsCommitted(gh, s, t) && 1 <= e.index <= |s| && s[e.index - 1] == e
  }

  /** A snapshot handed to the state machine stands for what was committed up to its index. */
  ghost predicate RestoredInv(gh: Ghost, snap: Snapshot) {
    exists s, t :: IsCommitted(gh, s, t) && |s| == snap.index && gh.rel(s, snap.data)
  }

  /** Entries are handed over in order and without a gap, from where applying began or from a restored snapshot. */
  ghost predicate InOrder(start: nat, s: NodeState) {
    && s.lastApplied == (if s.out.applySnapshot.Some? then s.out.applySnapshot.value.index else start) + |s.out.applied|
    && forall k :: 0 <= k < |s.out.applied| ==> s.out.applied[k].index == s.lastApplied - |s.out.applied| + 1 + k
  }

  ghost predicate OutInv(gh: Ghost, s: NodeState) {
    && (forall m :: m in s.out.messages ==> MsgInv(gh, m))
    && (forall e :: e in s.out.applied ==> AppliedInv(gh, e))
    && InOrder(gh.start, s)
    && (s.out.applySnapshot.Some? ==> RestoredInv(gh, s.out.applySnapshot.value))
  }

  // ---- Growth of the history keeps it

  lemma LogInvGrows(gh: Ghost, gh': Ghost, l: Log)
    requires Ext(gh, gh') && LogInv(gh.tlog, l)
    ensures LogInv(gh'.tlog, l) && Full(gh'.tlog, l) == Full(gh.tlog, l)
  {
    if l.LastIndex() > 0 {
      var T, n := l.LastTerm(), l.LastIndex();
      OwnGrows(gh, gh', T, n);
      assert gh'.tlog[T][..n] == gh.tlog[T][..n];
      assert gh'.tlog[T][l.snapIndex..n] == gh'.tlog[T][..n][l.snapIndex..];
      assert gh.tlog[T][l.snapIndex..n] == gh.tlog[T][..n][l.snapIndex..];
      AgreeLess(gh'.tlog[T], gh.tlog[T], n, n);
    }
  }

  lemma AckInvGrows(i: nat, gh: Ghost, gh': Ghost, s: NodeState)
    requires ExtBy(i, gh, gh') && LogInv(gh.tlog, s.log) && AckInv(gh, s) && Acknowledged(gh)
    requires s.p.id != i
    ensures LogInv(gh'.tlog, s.log) && AckInv(gh', s)
  {
    LogInvGrows(gh, gh', s.log);
    forall T: nat, k: nat |
      (T, s.p.id) in gh'.acks && k <= gh'.acks[(T, s.p.id)] && Counts(gh'.tlog, T, k, s.term) &&
      LaterHave(gh'.tlog, T, k, s.term)
      ensures Agree(Full(gh'.tlog, s.log), gh'.tlog[T], k)
    {
      GrowsAgree(gh.tlog[T], gh'.tlog[T], T);
      assert Counts(gh.tlog, T, k, s.term);
      if Within(gh.tlog, T, k) {
        LaterHaveBack(gh, gh', T, k, s.term);
      }
      AgreeLess(gh'.tlog[T], gh.tlog[T], |gh.tlog[T]|, k);
      AgreeSym(gh'.tlog[T], gh.tlog[T], k);
      AgreeTrans(Full(gh.tlog, s.log), gh.tlog[T], gh'.tlog[T], k);
    }
  }

  /** What other nodes do cannot break a node's own invariant. */
  lemma NodeInvGrows(i: nat, gh: Ghost, gh': Ghost, s: NodeState)
    requires ExtBy(i, gh, gh') && NodeInv(gh, s) && Acknowledged(gh)
    requires s.p.id != i
    requires gh.leader.Keys == gh.tlog.Keys && gh'.leader.Keys == gh'.tlog.Keys
    ensures NodeInv(gh', s)
  {
    LogInvGrows(gh, gh', s.log);
    AckInvGrows(i, gh, gh', s);
    IsCommittedGrows(gh, gh', Full(gh.tlog, s.log)[..s.commitIndex], s.term, s.term);
  }

  lemma AppliedGrows(gh: Ghost, gh': Ghost, e: Entry)
    requires Ext(gh, gh') && AppliedInv(gh, e)
    ensures AppliedInv(gh', e)
  {
    var s, t :| IsCommitted(gh, s, t) && 1 <= e.index <= |s| && s[e.index - 1] == e;
    IsCommittedGrows(gh, gh', s, t, t);
  }

  /** A piece of a term's log stays one while that log grows. */
  lemma PieceGrows(gh: Ghost, gh': Ghost, T: nat, lo: nat, hi: nat)
    requires Ext(gh, gh') && T in gh.tlog && lo <= hi <= |gh.tlog[T]|
    ensures T in gh'.tlog && hi <= |gh'.tlog[T]|
    ensures gh'.tlog[T][lo..hi] == gh.tlog[T][lo..hi]
    ensures TermAt(gh'.tlog[T], lo) == TermAt(gh.tlog[T], lo)
  {
    GrowsAgree(gh.tlog[T], gh'.tlog[T], T);
  }

  lemma SnapshotGrows(gh: Ghost, gh': Ghost, snap: Snapshot, T: nat)
    requires Ext(gh, gh') && T in gh.tlog && SnapshotOf(gh, snap, gh.tlog[T])
    ensures T in gh'.tlog && SnapshotOf(gh', snap, gh'.tlog[T])
    ensures gh'.tlog[T][..snap.index] == gh.tlog[T][..snap.index]
  {
    GrowsAgree(gh.tlog[T], gh'.tlog[T], T);
    AgreeLess(gh'.tlog[T], gh.tlog[T], |gh.tlog[T]|, snap.index);
  }

  /** A message stays true forever. */
  lemma MsgInvGrows(gh: Ghost, gh': Ghost, m: Message)
    requires Ext(gh, gh') && MsgInv(gh, m)
    ensures MsgInv(gh', m)
  {
    match m
    case App(from, to, term, prev, prevTerm, ents, commit) =>
      PieceGrows(gh, gh', term, prev, prev + |ents|);
      PieceGrows(gh, gh', term, 0, commit);
      assert gh'.tlog[term][..commit] == gh'.tlog[term][0..commit];
      assert gh.tlog[term][..commit] == gh.tlog[term][0..commit];
      IsCommittedGrows(gh, gh', gh.tlog[term][..commit], term, term);
    case Snap(from, to, term, snapshot) =>
      if snapshot.Some? {
        SnapshotGrows(gh, gh', snapshot.value, term);
        IsCommittedGrows(gh, gh', gh.tlog[term][..snapshot.value.index], term, term);
      }
    case _ =>
  }

  lemma RestoredGrows(gh: Ghost, gh': Ghost, snap: Snapshot)
    requires Ext(gh, gh') && RestoredInv(gh, snap)
    ensures RestoredInv(gh', snap)
  {
    var s, t :| IsCommitted(gh, s, t) && |s| == snap.index && gh.rel(s, snap.data);
    IsCommittedGrows(gh, gh', s, t, t);
  }

  lemma OutInvGrows(gh: Ghost, gh': Ghost, s: NodeState)
    requires Ext(gh, gh') && OutInv(gh, s) && gh'.start == gh.start
    ensures OutInv(gh', s)
  {
    hide MsgInv, AppliedInv, RestoredInv, InOrder, Ext;
    if s.out.applySnapshot.Some? {
      RestoredGrows(gh, gh', s.out.applySnapshot.value);
    }
    forall m | m in s.out.messages ensures MsgInv(gh', m) {
      MsgInvGrows(gh, gh', m);
    }
    forall e | e in s.out.applied ensures AppliedInv(gh', e) {
      AppliedGrows(gh, gh', e);
    }
  }
}
