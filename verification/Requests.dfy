/**
 * How a server answers an AppendEntries request: exactly when it accepts, when that differs from whether the request fits
 * its log, and what an acceptance is worth later.
 */
module Requests {
  import opened RaftTypes
  import opened LogSpec
  import opened ConfSpec
  import opened NodeSpec
  import opened Ghosts
  import opened SafetyInv
  import opened SafetyLogs
  import opened Cluster
  import opened ClusterSafety
  import opened ClusterTheorems
  import opened FastBackup
  import opened Sending
  import opened Storage

  // ---- Exactly when a request is accepted

  /** The request is of the receiver's term or a later one, and the receiver does not lead that term. */
  predicate Heeded(t: NodeState, m: Message) {
    m.App? && m.to == t.p.id && m.term >= t.term && (m.term == t.term ==> t.role != Leader) && !t.panicked
  }

  /** It begins below the snapshot point and goes on beyond it. */
  predicate Straddles(l: Log, m: Message)
    requires m.App?
  {
    m.prevLogIndex < l.snapIndex < m.prevLogIndex + |m.entries|
  }

  /** What the program compares: at the snapshot point, where it skips to, with the term of the earlier index. */
  predicate Accepts(l: Log, m: Message)
    requires m.App?
  {
    if m.prevLogIndex >= l.snapIndex then l.Term(m.prevLogIndex) == Some(m.prevLogTerm)
    else !Straddles(l, m) || m.prevLogTerm == l.snapTerm
  }

  /** Whether the request continues the log: by its own entry at the snapshot point when it begins below. */
  predicate Fits(l: Log, m: Message)
    requires m.App?
  {
    if m.prevLogIndex >= l.snapIndex then l.Term(m.prevLogIndex) == Some(m.prevLogTerm)
    else !Straddles(l, m) || m.entries[l.snapIndex - m.prevLogIndex - 1].term == l.snapTerm
  }

  predicate Answers(t: NodeState, success: bool) {
    |t.out.messages| == 1 && t.out.messages[0].AppResp? && t.out.messages[0].success == success
  }

  lemma FromSame(s: NodeState, m: Message, prev: nat, ents: seq<Entry>)
    requires m.App? && s.out.messages == [] && s.log.Term(prev) == Some(m.prevLogTerm)
    ensures HandleAppFrom(s, m, prev, ents).panicked || Answers(HandleAppFrom(s, m, prev, ents), true)
  {
    hide AcceptEntries;
    AcceptSends(s, ents);
  }

  lemma FromDifferent(s: NodeState, m: Message, prev: nat, ents: seq<Entry>)
    requires m.App? && s.out.messages == [] && s.log.Term(prev) != Some(m.prevLogTerm) && !s.panicked
    ensures var u := HandleAppFrom(s, m, prev, ents); !u.panicked && u.log == s.log && Answers(u, false)
  {
    hide Log.FirstIndexOfTerm;
  }

  lemma HandlerAnswers(s: NodeState, m: Message)
    requires m.App? && s.role != Leader && s.term == m.term && !s.panicked && s.out.messages == []
    ensures var u := HandleApp(s, m);
      if Accepts(s.log, m) then u.panicked || Answers(u, true) else !u.panicked && u.log == s.log && Answers(u, false)
  {
    hide HandleAppFrom, TimeoutOf;
    var s1 := FollowLeader(s, m.term, m.from);
    var skip := if m.prevLogIndex < s1.log.snapIndex then s1.log.snapIndex - m.prevLogIndex else 0;
    if !(skip > 0 && |m.entries| <= skip) {
      var prev, ents := m.prevLogIndex + skip, m.entries[skip..];
      if s1.log.Term(prev) == Some(m.prevLogTerm) {
        FromSame(s1, m, prev, ents);
      } else {
        FromDifferent(s1, m, prev, ents);
      }
    }
  }

  /** One Step answers a request, with success exactly when the program's comparison succeeds. */
  lemma AnsweredSo(t: NodeState, m: Message)
    requires Heeded(t, m)
    ensures var u := Step(t, Receive(m));
      if Accepts(t.log, m) then u.panicked || Answers(u, true) else !u.panicked && u.log == t.log && Answers(u, false)
  {
    hide Step, Handle, HandleApp, Accepts, Heard;
    HeardIs(t, m);
    AppIsHandled(t, m);
    Handled(t, Receive(m));
    HandlerAnswers(Heard(t, m), m);
  }

  /** A request that fits is rejected exactly if it straddles the snapshot point and the terms before and at it differ. */
  lemma FittingRejected(t: NodeState, m: Message)
    requires Heeded(t, m) && !Step(t, Receive(m)).panicked
    ensures Fits(t.log, m) && Answers(Step(t, Receive(m)), false)
      <==> Straddles(t.log, m) && m.entries[t.log.snapIndex - m.prevLogIndex - 1].term == t.log.snapTerm != m.prevLogTerm
  {
    hide Step;
    AnsweredSo(t, m);
  }

  /** A request that does not fit is accepted exactly if it straddles the snapshot point and only the term before fits. */
  lemma UnfitAccepted(t: NodeState, m: Message)
    requires Heeded(t, m) && !Step(t, Receive(m)).panicked
    ensures !Fits(t.log, m) && Answers(Step(t, Receive(m)), true)
      <==> Straddles(t.log, m) && m.entries[t.log.snapIndex - m.prevLogIndex - 1].term != t.log.snapTerm == m.prevLogTerm
  {
    hide Step;
    AnsweredSo(t, m);
  }

  // ---- What becomes of the entries and of the commit index

  /** Where the request ends. */
  function End(m: Message): nat
    requires m.App?
  {
    m.prevLogIndex + |m.entries|
  }

  /** The entries are numbered on from where the request starts. */
  predicate Numbered(m: Message)
    requires m.App?
  {
    forall k :: 0 <= k < |m.entries| ==> m.entries[k].index == m.prevLogIndex + 1 + k
  }

  /** The request goes beyond what the snapshot covers, and its start matches. */
  predicate Taken(l: Log, m: Message)
    requires m.App?
  {
    Accepts(l, m) && (End(m) > l.snapIndex || m.prevLogIndex >= l.snapIndex)
  }

  /** The log holds an entry of this term at this index. */
  predicate HasTerm(l: Log, e: Entry) {
    l.Term(e.index) == Some(e.term)
  }

  /** How many of the entries the log already holds, one after the other, from those the snapshot does not cover on. */
  predicate HeldUpTo(l: Log, m: Message, i: nat)
    requires m.App?
  {
    && Skip(l, m) <= i <= |m.entries| && (forall k :: Skip(l, m) <= k < i ==> HasTerm(l, m.entries[k]))
    && (i < |m.entries| ==> !HasTerm(l, m.entries[i]))
  }

  /** The log after a request: as it was if it held all of it, otherwise what it held and then the rest of the request. */
  ghost predicate LogAfter(l: Log, m: Message, i: nat, l': Log)
    requires m.App? && i <= |m.entries|
  {
    if i == |m.entries| then l' == l
    else
      && l'.snapIndex == l.snapIndex && l'.snapTerm == l.snapTerm && l'.LastIndex() == End(m)
      && l.snapIndex <= m.prevLogIndex + i <= l.LastIndex()
      && l'.entries == l.entries[..m.prevLogIndex + i - l.snapIndex] + m.entries[i..]
  }

  /**
   * One Step on a request that is taken: entries are cut and replaced from the first the log does not hold, if there is
   * one, and the commit index follows the leader's as far as the request reaches.
   */
  lemma EntriesTaken(t: NodeState, m: Message) returns (i: nat)
    requires Heeded(t, m) && Taken(t.log, m) && Numbered(m) && !Step(t, Receive(m)).panicked
    ensures HeldUpTo(t.log, m, i) && LogAfter(t.log, m, i, Step(t, Receive(m)).log)
    ensures var reach := Min(m.commit, End(m));
      Step(t, Receive(m)).commitIndex == if reach > t.commitIndex then reach else t.commitIndex
  {
    hide Step, Handle, HandleApp, Taken, Heard, Numbered, HeldUpTo, LogAfter;
    HeardIs(t, m);
    AppIsHandled(t, m);
    Handled(t, Receive(m));
    i := TakenHere(Heard(t, m), m);
  }

  lemma TakenHere(s: NodeState, m: Message) returns (i: nat)
    requires m.App? && s.role != Leader && s.term == m.term && !HandleApp(s, m).panicked
    requires Taken(s.log, m) && Numbered(m)
    ensures HeldUpTo(s.log, m, i) && LogAfter(s.log, m, i, HandleApp(s, m).log)
    ensures var reach := Min(m.commit, End(m));
      HandleApp(s, m).commitIndex == if reach > s.commitIndex then reach else s.commitIndex
  {
    hide HandleAppFrom, HandleApp, FollowLeader, Min, HeldUpTo, LogAfter, Taken, Numbered, HasTerm;
    var s1 := FollowLeader(s, m.term, m.from);
    FollowFrame(s, m.term, m.from);
    HandledFrom(s, m);
    var skip := Skip(s.log, m);
    NumberedRest(m, skip);
    var j := TakenFrom(s1, m, m.prevLogIndex + skip, m.entries[skip..]);
    i := skip + j;
    TakenOfAll(s.log, m, j, HandleApp(s, m).log);
  }

  /** How many of the entries the snapshot covers. */
  function Skip(l: Log, m: Message): nat
    requires m.App?
  {
    if m.prevLogIndex < l.snapIndex then l.snapIndex - m.prevLogIndex else 0
  }

  lemma NumberedRest(m: Message, skip: nat)
    requires m.App? && Numbered(m) && skip <= |m.entries|
    ensures forall k :: 0 <= k < |m.entries[skip..]| ==> m.entries[skip..][k].index == m.prevLogIndex + skip + 1 + k
    ensures m.prevLogIndex + skip + |m.entries[skip..]| == End(m)
  {
  }

  /** What holds of the entries behind those the snapshot covers, as a statement about the whole request. */
  lemma TakenOfAll(l: Log, m: Message, j: nat, l': Log)
    requires m.App? && Skip(l, m) + j <= |m.entries|
    requires var ents, prev := m.entries[Skip(l, m)..], m.prevLogIndex + Skip(l, m);
      && (forall k :: 0 <= k < j ==> HasTerm(l, ents[k])) && (j < |ents| ==> !HasTerm(l, ents[j]))
      && (if j == |ents| then l' == l
          else
            && l'.snapIndex == l.snapIndex && l'.snapTerm == l.snapTerm
            && l.snapIndex <= prev + j <= l.LastIndex() && l'.LastIndex() == prev + |ents|
            && l'.entries == l.entries[..prev + j - l.snapIndex] + ents[j..])
    ensures HeldUpTo(l, m, Skip(l, m) + j) && LogAfter(l, m, Skip(l, m) + j, l')
  {
    hide HasTerm;
    var skip := Skip(l, m);
    assert m.entries[skip..][j..] == m.entries[skip + j..];
    assert forall k :: skip <= k < |m.entries| ==> m.entries[k] == m.entries[skip..][k - skip];
  }

  lemma FollowFrame(s: NodeState, term: nat, leader: nat)
    requires term == s.term
    ensures var t := FollowLeader(s, term, leader); t.log == s.log && t.commitIndex == s.commitIndex
  {
    hide TimeoutOf;
  }

  lemma HandledFrom(s: NodeState, m: Message)
    requires m.App? && s.role != Leader && s.term == m.term && Taken(s.log, m)
    ensures var skip := Skip(s.log, m);
      && skip <= |m.entries| && s.log.Term(m.prevLogIndex + skip) == Some(m.prevLogTerm)
      && HandleApp(s, m) == HandleAppFrom(FollowLeader(s, m.term, m.from), m, m.prevLogIndex + skip, m.entries[skip..])
  {
    hide HandleAppFrom, TimeoutOf;
  }

  lemma TakenFrom(s: NodeState, m: Message, prev: nat, ents: seq<Entry>) returns (j: nat)
    requires m.App? && s.log.Term(prev) == Some(m.prevLogTerm) && !HandleAppFrom(s, m, prev, ents).panicked
    requires forall k :: 0 <= k < |ents| ==> ents[k].index == prev + 1 + k
    ensures j <= |ents| && (forall k :: 0 <= k < j ==> HasTerm(s.log, ents[k])) && (j < |ents| ==> !HasTerm(s.log, ents[j]))
    ensures var u := HandleAppFrom(s, m, prev, ents);
      && (j == |ents| ==> u.log == s.log)
      && (j < |ents| ==>
           && u.log.snapIndex == s.log.snapIndex && u.log.snapTerm == s.log.snapTerm
           && s.log.snapIndex <= prev + j <= s.log.LastIndex() && u.log.LastIndex() == prev + |ents|
           && u.log.entries == s.log.entries[..prev + j - s.log.snapIndex] + ents[j..])
      && var reach := Min(m.commit, prev + |ents|);
         u.commitIndex == if reach > s.commitIndex then reach else s.commitIndex
  {
    hide AcceptEntries, ApplyCommitted;
    var a := AcceptEntries(s, ents);
    AppliedFrame(a, m.commit);
    AppliedFrame(a, prev + |ents|);
    AppliedLog(a, m.commit);
    AppliedLog(a, prev + |ents|);
    j := AcceptedLog(s, prev, ents);
  }

  lemma AppliedLog(s: NodeState, n: nat)
    ensures ApplyCommitted(s.(commitIndex := n)).log == s.log
  {
    hide Log.Slice;
  }

  lemma AcceptedLog(s: NodeState, prev: nat, ents: seq<Entry>) returns (j: nat)
    requires s.log.Term(prev).Some? && !AcceptEntries(s, ents).panicked
    requires forall k :: 0 <= k < |ents| ==> ents[k].index == prev + 1 + k
    ensures j <= |ents| && (forall k :: 0 <= k < j ==> HasTerm(s.log, ents[k])) && (j < |ents| ==> !HasTerm(s.log, ents[j]))
    ensures var u := AcceptEntries(s, ents);
      && u.commitIndex == s.commitIndex
      && (j == |ents| ==> u.log == s.log)
      && (j < |ents| ==>
           && u.log.snapIndex == s.log.snapIndex && u.log.snapTerm == s.log.snapTerm
           && s.log.snapIndex <= prev + j <= s.log.LastIndex() && u.log.LastIndex() == prev + |ents|
           && u.log.entries == s.log.entries[..prev + j - s.log.snapIndex] + ents[j..])
  {
    hide AppendAll, TruncateConf, FirstConflict, AcceptEntries;
    j := FirstConflict(s.log, ents, 0);
    AcceptCases(s, ents);
    if j < |ents| {
      CutLog(s.log, prev, ents, j);
      AppendedLog(Cut(s, ents[j].index), ents[j..]);
    }
  }

  /** Accepting entries is cutting at the first that is not held and appending from there. */
  lemma AcceptCases(s: NodeState, ents: seq<Entry>)
    requires !AcceptEntries(s, ents).panicked
    ensures var j := FirstConflict(s.log, ents, 0);
      if j == |ents| then AcceptEntries(s, ents) == s
      else
        && (s.log.Term(ents[j].index).Some? ==> s.log.snapIndex < ents[j].index)
        && var u := AppendAll(Cut(s, ents[j].index), ents[j..]);
           AcceptEntries(s, ents) == MarkAppended(u, ents[j].index) && !u.panicked
  {
    hide AppendAll, TruncateConf, FirstConflict;
  }

  function Cut(s: NodeState, x: nat): NodeState {
    if s.log.snapIndex < x && s.log.Term(x).Some?
    then s.(log := s.log.TruncateFrom(x), conf := TruncateConf(s.conf, x)) else s
  }

  /** What is left of the log where it is cut, or where the entries begin behind its end. */
  lemma CutLog(l: Log, prev: nat, ents: seq<Entry>, j: nat)
    requires l.Term(prev).Some? && j < |ents| && forall k :: 0 <= k < |ents| ==> ents[k].index == prev + 1 + k
    requires forall k :: 0 <= k < j ==> HasTerm(l, ents[k])
    ensures l.snapIndex <= prev + j <= l.LastIndex()
    ensures var x := ents[j].index;
      var c := if l.Term(x).Some? then l.TruncateFrom(x) else l;
      c == Log(l.snapIndex, l.snapTerm, l.entries[..prev + j - l.snapIndex])
  {
    if j > 0 {
      assert HasTerm(l, ents[j - 1]);
    }
  }

  /** Appending adds just what it is given, or panics. */
  lemma {:induction false} AppendedLog(s: NodeState, ents: seq<Entry>)
    ensures var u := AppendAll(s, ents);
      !u.panicked ==>
        && u.log == Log(s.log.snapIndex, s.log.snapTerm, s.log.entries + ents) && u.commitIndex == s.commitIndex
        && (ents != [] ==> ents[|ents| - 1].index == u.log.LastIndex())
  {
    if ents == [] {
      assert s.log.entries + ents == s.log.entries;
    } else {
      var n := |ents| - 1;
      AppendedLog(s, ents[..n]);
      assert ents == ents[..n] + [ents[n]];
      AppendedOne(AppendAll(s, ents[..n]), ents[n]);
      assert s.log.entries + ents == s.log.entries + ents[..n] + [ents[n]];
    }
  }

  lemma AppendedOne(s: NodeState, e: Entry)
    ensures var u := AppendOne(s, e);
      !u.panicked ==>
        && u.log == s.log.Append(e) && u.commitIndex == s.commitIndex && e.index == u.log.LastIndex() && !s.panicked
  {
    hide DecodeConfig;
  }

  /** A request that is not taken leaves log and commit index alone. */
  lemma NothingTaken(t: NodeState, m: Message)
    requires Heeded(t, m) && !Taken(t.log, m)
    ensures var u := Step(t, Receive(m)); u.log == t.log && u.commitIndex == t.commitIndex && !u.panicked
  {
    hide Step, Handle, HandleApp, Heard, Taken;
    HeardIs(t, m);
    AppIsHandled(t, m);
    Handled(t, Receive(m));
    NothingHere(Heard(t, m), m);
  }

  lemma NothingHere(s: NodeState, m: Message)
    requires m.App? && s.role != Leader && s.term == m.term && !s.panicked && !Taken(s.log, m)
    ensures var u := HandleApp(s, m); u.log == s.log && u.commitIndex == s.commitIndex && !u.panicked
  {
    hide AcceptEntries, TimeoutOf, Log.FirstIndexOfTerm;
  }

  /** Taken or not, a request makes a follower of its receiver, which knows its leader and starts its timer anew. */
  lemma LeaderHeard(t: NodeState, m: Message)
    requires Heeded(t, m)
    ensures var u := Step(t, Receive(m));
      u.role == Follower && u.term == m.term && u.leaderID == m.from && u.clock.electionElapsed == 0
  {
    hide Step, Handle, HandleApp, Heard;
    HeardIs(t, m);
    AppIsHandled(t, m);
    Handled(t, Receive(m));
    HeardHere(Heard(t, m), m);
  }

  lemma HeardHere(s: NodeState, m: Message)
    requires m.App? && s.role != Leader && s.term == m.term
    ensures var u := HandleApp(s, m);
      u.role == Follower && u.term == m.term && u.leaderID == m.from && u.clock.electionElapsed == 0
  {
    hide HandleAppFrom, TimeoutOf;
    var s1 := FollowLeader(s, m.term, m.from);
    var skip := if m.prevLogIndex < s1.log.snapIndex then s1.log.snapIndex - m.prevLogIndex else 0;
    if skip <= |m.entries| {
      FromKeepsLeader(s1, m, m.prevLogIndex + skip, m.entries[skip..]);
    }
  }

  lemma FromKeepsLeader(s: NodeState, m: Message, prev: nat, ents: seq<Entry>)
    requires m.App?
    ensures var u := HandleAppFrom(s, m, prev, ents);
      u.role == s.role && u.term == s.term && u.leaderID == s.leaderID && u.clock == s.clock
  {
    hide AcceptEntries, Log.FirstIndexOfTerm, Log.Slice;
    AcceptSends(s, ents);
  }

  // ---- Both at an input

  /** A server restarted in term 2 with its snapshot at index 2, of term 2, and one more entry. */
  function Compacted(p: Params, voters: seq<nat>, x: seq<byte>): NodeState {
    NewNode(p, voters, Restore(HardState(2, NONE), Some(Snapshot(2, 2, Config(voters), x)), [Entry(3, 2, Normal, x)]))
  }

  lemma CompactedIs(p: Params, voters: seq<nat>, x: seq<byte>)
    ensures var s := Compacted(p, voters, x);
      s.role == Follower && s.term == 2 && s.log == Log(2, 2, [Entry(3, 2, Normal, x)]) && s.p.id == p.id && !s.panicked
  {
    var b := LoadSnapshot(Blank(p, voters, HardState(2, NONE)), Snapshot(2, 2, Config(voters), x));
    var ents := [Entry(3, 2, Normal, x)];
    AppendAllPlain(b, ents);
    assert [] + ents == ents;
  }

  /** The request from index 1, of term 1, with the very entries 2 and 3 the server has: it fits, and is rejected. */
  lemma MatchRejected(p: Params, voters: seq<nat>, from: nat, x: seq<byte>)
    ensures var s := Compacted(p, voters, x);
      var m := App(from, p.id, 2, 1, 1, [Entry(2, 2, Normal, x), Entry(3, 2, Normal, x)], 0);
      Heeded(s, m) && Fits(s.log, m) && !Step(s, Receive(m)).panicked && Answers(Step(s, Receive(m)), false)
  {
    hide Step, Compacted;
    CompactedIs(p, voters, x);
    AnsweredSo(Compacted(p, voters, x), App(from, p.id, 2, 1, 1, [Entry(2, 2, Normal, x), Entry(3, 2, Normal, x)], 0));
  }

  // ---- In runs

  /** In a run a request that straddles a snapshot point brings the very entry that was compacted there. */
  lemma StraddlingFits(gh: Ghost, c: State, a: nat, m: Message)
    requires ClusterInv(c, gh) && Alive(c, a) && m in c.net && m.App? && m.term >= NodeOf(c, a).term
    requires Straddles(NodeOf(c, a).log, m)
    ensures m.entries[NodeOf(c, a).log.snapIndex - m.prevLogIndex - 1].term == NodeOf(c, a).log.snapTerm
  {
    hide GhostInv, ServerInv, LogInv, Full, Agree, IsCommitted, TermAt;
    assert MsgInv(gh, m);
    var l := NodeOf(c, a).log;
    SnapInLeader(gh, c, a, m.term);
    SameTermAt(Full(gh.tlog, l), gh.tlog[m.term], l.snapIndex);
    TermInFull(gh.tlog, l, l.snapIndex);
    TermOfPiece(gh.tlog[m.term], m.prevLogIndex, m.entries, l.snapIndex);
  }

  lemma TermOfPiece(f: seq<Entry>, prev: nat, ents: seq<Entry>, n: nat)
    requires prev + |ents| <= |f| && ents == f[prev..prev + |ents|] && prev < n <= prev + |ents|
    ensures ents[n - prev - 1].term == TermAt(f, n)
  {
  }

  /**
   * In every run a request is accepted only when it fits; one that fits is rejected if and only if it straddles the
   * receiver's snapshot point and the terms before and at that point differ. One that straddles always fits.
   */
  lemma AnswersInRuns(voters: seq<nat>, r: Run, k: nat, a: nat, m: Message)
    requires NoDuplicates(voters) && Valid(voters, r) && k < |r.states| && Alive(r.states[k], a)
    requires m in r.states[k].net && Heeded(NodeOf(r.states[k], a), m)
    ensures var s := NodeOf(r.states[k], a);
      var u := Step(s, Receive(m));
      && !u.panicked
      && (Answers(u, true) || Answers(u, false))
      && (Answers(u, true) ==> Fits(s.log, m))
      && (Straddles(s.log, m) ==> Fits(s.log, m))
      && (Fits(s.log, m) && Answers(u, false) <==> Straddles(s.log, m) && m.prevLogTerm != s.log.snapTerm)
  {
    hide Valid, ClusterInv, Step, Answers, NodeInv, TermLogs;
    var hs := RunExplained(voters, r);
    var s := NodeOf(r.states[k], a);
    NotBoth(Step(s, Receive(m)));
    LiveIsView(hs[k], r.states[k], a);
    OfferedHere(r.states[k], a, m);
    NoPanic(voters, r, k, a);
    AnsweredSo(s, m);
    if Straddles(s.log, m) {
      StraddlingFits(hs[k], r.states[k], a, m);
    }
  }

  lemma NotBoth(t: NodeState)
    ensures !(Answers(t, true) && Answers(t, false))
  {
  }

  lemma OfferedHere(c: State, a: nat, m: Message)
    requires Alive(c, a) && m in c.net && m.to == a
    ensures Offers(c, a, Receive(m))
  {
  }

  // ---- What an acceptance is worth later

  /** One entry, from the leader of a term. */
  function First(from: nat, to: nat, term: nat, x: seq<byte>): Message {
    App(from, to, term, 0, 0, [Entry(1, term, Normal, x)], 0)
  }

  /** A server with at most one entry, none committed, takes over the first entry of a later leader. */
  lemma TakesFirst(s: NodeState, from: nat, term: nat, x: seq<byte>)
    requires s.term < term && s.log.snapIndex == 0 && s.log.snapTerm == 0 && |s.log.entries| <= 1
    requires s.commitIndex == 0 && s.lastApplied == 0 && !s.panicked && (s.log.entries != [] ==> s.log.LastTerm() < term)
    ensures var t := Step(s, Receive(First(from, s.p.id, term, x)));
      && t.log == Log(0, 0, [Entry(1, term, Normal, x)]) && t.term == term && t.p == s.p
      && t.commitIndex == 0 && t.lastApplied == 0 && !t.panicked
      && t.out.messages == [AppResp(s.p.id, from, term, true, 1, 0, 0)]
  {
    hide Step, Handle, HandleApp, Heard;
    var m := First(from, s.p.id, term, x);
    HeardIs(s, m);
    AppIsHandled(s, m);
    Handled(s, Receive(m));
    HandlesFirst(Heard(s, m), m, x);
  }

  lemma HandlesFirst(s: NodeState, m: Message, x: seq<byte>)
    requires m == First(m.from, s.p.id, s.term, x) && s.role != Leader && s.out.messages == []
    requires s.log.snapIndex == 0 && s.log.snapTerm == 0 && |s.log.entries| <= 1
    requires s.commitIndex == 0 && !s.panicked && (s.log.entries != [] ==> s.log.LastTerm() < s.term)
    ensures var t := HandleApp(s, m);
      && t.log == Log(0, 0, [Entry(1, s.term, Normal, x)]) && t.term == s.term && t.p == s.p
      && t.commitIndex == 0 && t.lastApplied == s.lastApplied && !t.panicked
      && t.out.messages == [AppResp(s.p.id, m.from, s.term, true, 1, 0, 0)]
  {
    hide AcceptEntries, TimeoutOf;
    var ents := [Entry(1, s.term, Normal, x)];
    var s1 := FollowLeader(s, m.term, m.from);
    assert m.entries[0..] == ents;
    AcceptsFirst(s1, ents);
  }

  lemma AcceptsFirst(s: NodeState, ents: seq<Entry>)
    requires |ents| == 1 && ents[0].index == 1 && ents[0].typ == Normal
    requires s.log.snapIndex == 0 && s.log.snapTerm == 0 && |s.log.entries| <= 1 && s.commitIndex == 0 && !s.panicked
    requires s.log.entries != [] ==> s.log.LastTerm() < ents[0].term
    ensures var t := AcceptEntries(s, ents);
      && t.log == Log(0, 0, ents) && t.term == s.term && t.p == s.p && t.commitIndex == 0
      && t.lastApplied == s.lastApplied && !t.panicked && t.out == s.out
  {
    hide AppendAll, TruncateConf;
    assert FirstConflict(s.log, ents, 0) == 0;
    hide FirstConflict;
    assert ents[0..] == ents && [] + ents == ents;
    if s.log.entries == [] {
      AppendAllPlain(s, ents);
    } else {
      AppendAllPlain(s.(log := Log(0, 0, []), conf := TruncateConf(s.conf, 1)), ents);
      assert s.log.TruncateFrom(1) == Log(0, 0, []);
    }
  }

  /**
   * A new server acknowledges index 1 to the leader of term 1; the leader of term 2, which never had that entry, replaces
   * it. What the first leader counts as matched was not committed, and is gone.
   */
  lemma AckedThenReplaced(p: Params, voters: seq<nat>, one: nat, two: nat, x: seq<byte>)
    ensures var s := NewNode(p, voters, Load(EMPTY_DISK));
      var t := Step(s, Receive(First(one, p.id, 1, x)));
      var u := Step(t, Receive(First(two, p.id, 2, x)));
      && !s.panicked && !t.panicked && !u.panicked
      && t.out.messages == [AppResp(p.id, one, 1, true, 1, 0, 0)]
      && t.log.Term(1) == Some(1) && u.log.Term(1) == Some(2)
  {
    hide Step;
    var s := NewNode(p, voters, Load(EMPTY_DISK));
    TakesFirst(s, one, 1, x);
    TakesFirst(Step(s, Receive(First(one, p.id, 1, x))), two, 2, x);
  }
}
