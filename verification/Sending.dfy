/** What a leader sends: to each follower what comes next for it, and nothing but that is changed by sending. */
module Sending {
  import opened RaftTypes
  import opened LogSpec
  import opened NodeSpec
  import opened FastBackup

  /** What was added are requests and snapshots. */
  predicate OnlyEntries(s: NodeState, t: NodeState) {
    forall m :: m in t.out.messages ==> m in s.out.messages || m.App? || m.Snap?
  }

  /** From s to t only messages were added, and snapshots marked as on their way. */
  ghost predicate OnlySends(s: NodeState, t: NodeState) {
    && t == s.(prs := t.prs, out := t.out, panicked := t.panicked)
    && (s.panicked ==> t.panicked)
    && t.out == s.out.(messages := t.out.messages) && s.out.messages <= t.out.messages && OnlyEntries(s, t)
    && t.prs.Keys == s.prs.Keys
    && forall v :: v in s.prs ==>
         t.prs[v] == s.prs[v] || (s.prs[v].next <= s.log.snapIndex && t.prs[v] == s.prs[v].(pendingSnap := true))
  }

  /** A leader replicates to the other voters, and to a learner that is not yet one of them. */
  predicate Target(s: NodeState, v: nat) {
    || (v in s.conf.config.voters && v != s.p.id)
    || (v == s.learner && v != NONE && v !in s.conf.config.voters)
  }

  lemma TargetsAre(s: NodeState)
    ensures forall v :: v in ReplicationTargets(s) <==> Target(s, v)
  {
  }

  /** Every message from position n on is a request or a snapshot to one of these. */
  ghost predicate SentTo(t: NodeState, n: nat, targets: seq<nat>) {
    forall k :: n <= k < |t.out.messages| ==>
      t.out.messages[k].to in targets && (t.out.messages[k].App? || t.out.messages[k].Snap?)
  }

  lemma OnlySendsSelf(s: NodeState)
    ensures OnlySends(s, s)
  {
  }

  lemma OnlySendsTrans(s: NodeState, t: NodeState, u: NodeState)
    requires OnlySends(s, t) && OnlySends(t, u)
    ensures OnlySends(s, u)
  {
  }

  /** What comes next for a follower has been sent, and stays sent. */
  lemma ContinuedStays(s: NodeState, t: NodeState, b: nat)
    requires OnlySends(s, t) && Continued(s, b)
    ensures Continued(t, b)
  {
    hide Log.Slice;
    assert ProbeOf(t, b) == ProbeOf(s, b);
  }

  lemma SendsNext(s: NodeState, to: nat)
    ensures var t := SendAppend(s, to);
      && OnlySends(s, t) && SentTo(t, |s.out.messages|, [to])
      && (to in s.prs && !t.panicked ==> Continued(t, to))
  {
    hide Log.Slice;
  }

  lemma {:induction false} SendsAll(s: NodeState, targets: seq<nat>)
    ensures var t := SendAppendAll(s, targets);
      && OnlySends(s, t) && SentTo(t, |s.out.messages|, targets)
      && (!t.panicked ==> forall v :: v in targets && v in s.prs ==> Continued(t, v))
  {
    hide SendAppend, Continued, OnlySends;
    if targets == [] {
      OnlySendsSelf(s);
    } else {
      var n := |targets| - 1;
      var t := SendAppendAll(s, targets[..n]);
      var u := SendAppend(t, targets[n]);
      SendsAll(s, targets[..n]);
      SendsNext(t, targets[n]);
      OnlySendsTrans(s, t, u);
      SentMore(s, t, u, targets);
      SameKeys(s, t);
      if !u.panicked {
        forall v | v in targets && v in s.prs ensures Continued(u, v) {
          if v != targets[n] {
            assert v in targets[..n];
            StillFine(t, u);
            ContinuedStays(t, u, v);
          }
        }
      }
    }
  }

  lemma SameKeys(s: NodeState, t: NodeState)
    requires OnlySends(s, t)
    ensures t.prs.Keys == s.prs.Keys && t.log == s.log && t.role == s.role && t.term == s.term
  {
  }

  lemma StillFine(s: NodeState, t: NodeState)
    requires OnlySends(s, t) && !t.panicked
    ensures !s.panicked
  {
  }

  lemma SentMore(s: NodeState, t: NodeState, u: NodeState, targets: seq<nat>)
    requires targets != [] && OnlySends(s, t) && OnlySends(t, u)
    requires SentTo(t, |s.out.messages|, targets[..|targets| - 1])
    requires SentTo(u, |t.out.messages|, [targets[|targets| - 1]])
    ensures SentTo(u, |s.out.messages|, targets)
  {
    var n := |targets| - 1;
    forall k | |s.out.messages| <= k < |u.out.messages|
      ensures u.out.messages[k].to in targets && (u.out.messages[k].App? || u.out.messages[k].Snap?)
    {
      if k < |t.out.messages| {
        assert u.out.messages[k] == t.out.messages[k];
        assert t.out.messages[k].to in targets[..n];
      }
    }
  }

  /** Broadcasting sends every other voter, and a learner, what comes next for it. */
  lemma Broadcasts(s: NodeState)
    ensures var t := BroadcastAppend(s);
      && OnlySends(s, t) && SentTo(t, |s.out.messages|, ReplicationTargets(s))
      && (!t.panicked ==> forall v :: v in ReplicationTargets(s) && v in s.prs ==> Continued(t, v))
  {
    SendsAll(s, ReplicationTargets(s));
  }

  /** Sending what comes next raises no panic while it comes from the log, or from a snapshot that is there. */
  ghost predicate CanSend(s: NodeState) {
    forall v :: v in s.prs ==>
      1 <= s.prs[v].next <= s.log.LastIndex() + 1 && (s.prs[v].next <= s.log.snapIndex ==> s.snapshot.Some?)
  }

  lemma CanSendStays(s: NodeState, t: NodeState)
    requires CanSend(s) && OnlySends(s, t)
    ensures CanSend(t)
  {
  }

  lemma SendsCalmly(s: NodeState, to: nat)
    requires CanSend(s) && !s.panicked
    ensures !SendAppend(s, to).panicked
  {
    hide Log.Slice;
  }

  lemma {:induction false} SendsAllCalmly(s: NodeState, targets: seq<nat>)
    requires CanSend(s) && !s.panicked
    ensures !SendAppendAll(s, targets).panicked
  {
    hide SendAppend, CanSend, OnlySends;
    if targets != [] {
      var n := |targets| - 1;
      SendsAllCalmly(s, targets[..n]);
      SendsAll(s, targets[..n]);
      CanSendStays(s, SendAppendAll(s, targets[..n]));
      SendsCalmly(SendAppendAll(s, targets[..n]), targets[n]);
    }
  }

  // ---- Committing and sending

  /** From s to t the commit index has moved forward at most, what it covers was handed over, and messages were sent. */
  ghost predicate Advances(s: NodeState, t: NodeState) {
    && t == s.(commitIndex := t.commitIndex, lastApplied := t.lastApplied, prs := t.prs, out := t.out,
               panicked := t.panicked)
    && t.commitIndex >= s.commitIndex
    && (s.panicked ==> t.panicked)
    && t.out == s.out.(messages := t.out.messages, applied := t.out.applied) && s.out.messages <= t.out.messages
    && OnlyEntries(s, t)
    && t.prs.Keys == s.prs.Keys
    && forall v :: v in s.prs ==>
         t.prs[v] == s.prs[v] || (s.prs[v].next <= s.log.snapIndex && t.prs[v] == s.prs[v].(pendingSnap := true))
  }

  lemma SendingAdvances(s: NodeState, t: NodeState)
    requires OnlySends(s, t)
    ensures Advances(s, t)
  {
  }

  lemma AdvancesTrans(s: NodeState, t: NodeState, u: NodeState)
    requires Advances(s, t) && Advances(t, u)
    ensures Advances(s, u)
  {
  }

  lemma ApplyAdvances(s: NodeState, n: nat)
    requires n >= s.commitIndex
    ensures Advances(s, ApplyCommitted(s.(commitIndex := n)))
  {
    hide Log.Slice;
  }

  /** The index at the quorum position is beyond the commit index. */
  predicate CanCommit(s: NodeState) {
    MedianMatch(s).Some? && MedianMatch(s).value > s.commitIndex
  }

  /** Counting the matches of a leader commits and broadcasts, unless the leader is left out and steps down. */
  lemma CountAdvances(s: NodeState)
    requires s.role == Leader
    ensures var t := MaybeCommit(s);
      && (t.role == Leader ==> Advances(s, t))
      && (t.role != Leader ==> s.conf.index <= t.commitIndex && !Promotable(s) && CanCommit(s))
      && (t.role == Leader && t.commitIndex > s.commitIndex && s.conf.index <= t.commitIndex ==> Promotable(s))
      && (t.commitIndex == s.commitIndex && !t.panicked ==> t == s)
  {
    hide MedianMatch, ApplyCommitted, BroadcastAppend, OnlySends, Advances, TimeoutOf;
    match MedianMatch(s)
    case None =>
      AdvancesByPanic(s);
    case Some(n) =>
      AdvancesSelf(s);
      if n > s.commitIndex && s.log.Term(n) == Some(s.term) {
        var t := ApplyCommitted(s.(commitIndex := n));
        ApplyAdvances(s, n);
        Broadcasts(t);
        SendingAdvances(t, BroadcastAppend(t));
        AdvancesTrans(s, t, BroadcastAppend(t));
        AppliedFrame(s, n);
        AdvancesFrame(t, BroadcastAppend(t));
      }
  }

  lemma AdvancesSelf(s: NodeState)
    ensures Advances(s, s)
  {
  }

  lemma AdvancesByPanic(s: NodeState)
    ensures Advances(s, Panic(s))
  {
  }

  lemma AppliedFrame(s: NodeState, n: nat)
    ensures var t := ApplyCommitted(s.(commitIndex := n));
      t.commitIndex == n && t.role == s.role && t.conf == s.conf && t.p == s.p && t.panicked == s.panicked
  {
    hide Log.Slice;
  }

  lemma AdvancesFrame(s: NodeState, t: NodeState)
    requires Advances(s, t)
    ensures t.commitIndex >= s.commitIndex && t.role == s.role && t.conf == s.conf && t.p == s.p
    ensures t.log == s.log && t.term == s.term && t.snapshot == s.snapshot && t.prs.Keys == s.prs.Keys
    ensures t.learner == s.learner && t.transferee == s.transferee
  {
  }

  lemma CanSendAfter(s: NodeState, t: NodeState)
    requires CanSend(s) && Advances(s, t)
    ensures CanSend(t)
  {
  }

  /** Counting raises no panic where there is a voter and sending raises none. */
  lemma CountsCalmly(s: NodeState)
    requires CanSend(s) && !s.panicked && s.conf.config.voters != []
    ensures !MaybeCommit(s).panicked
  {
    hide SortDesc, NodeSpec.Matches, ApplyCommitted, CanSend, Advances, TimeoutOf;
    if MedianMatch(s).Some? && MedianMatch(s).value >= s.commitIndex {
      var n := MedianMatch(s).value;
      var t := ApplyCommitted(s.(commitIndex := n));
      ApplyAdvances(s, n);
      CanSendAfter(s, t);
      AppliedFrame(s, n);
      SendsAllCalmly(t, ReplicationTargets(t));
    }
  }

  /** Counting, then broadcasting: everyone is sent what comes next, with the new commit index. */
  lemma CountsAndBroadcasts(s: NodeState)
    requires s.role == Leader && (CanCommit(s) ==> Promotable(s))
    ensures var t := BroadcastAppend(MaybeCommit(s));
      && Advances(s, t)
      && (CanSend(s) && !s.panicked && s.conf.config.voters != [] ==> !t.panicked)
      && (!t.panicked ==> forall v :: v in ReplicationTargets(s) && v in s.prs ==> Continued(t, v))
  {
    hide MaybeCommit, BroadcastAppend, Advances, OnlySends, CanSend, Continued, CanCommit;
    var t := MaybeCommit(s);
    var u := BroadcastAppend(t);
    CountAdvances(s);
    Broadcasts(t);
    SendingAdvances(t, u);
    AdvancesTrans(s, t, u);
    AdvancesFrame(s, t);
    SameTargets(s, t);
    if CanSend(s) && !s.panicked && s.conf.config.voters != [] {
      CountsCalmly(s);
      CanSendAfter(s, t);
      SendsAllCalmly(t, ReplicationTargets(t));
      assert u == SendAppendAll(t, ReplicationTargets(t)) by {
        BroadcastIs(t);
      }
    }
  }

  lemma BroadcastIs(s: NodeState)
    ensures BroadcastAppend(s) == SendAppendAll(s, ReplicationTargets(s))
  {
  }

  lemma SameTargets(s: NodeState, t: NodeState)
    requires t.conf == s.conf && t.p == s.p && t.learner == s.learner
    ensures ReplicationTargets(t) == ReplicationTargets(s)
  {
  }
}
