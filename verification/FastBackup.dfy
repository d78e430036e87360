/** Probing for where a follower's log matches: every fresh rejection lowers the probe, and never below what is
    matched. */
module FastBackup {
  import opened RaftTypes
  import opened LogSpec
  import opened ConfSpec
  import opened NodeSpec
  import opened Ghosts
  import opened SafetyInv
  import opened SafetyLogs

  /** What a follower whose log does not match at prev answers. */
  function Hints(l: Log, prev: nat): (nat, nat) {
    match l.Term(prev)
    case None => (l.LastIndex() + 1, 0)
    case Some(t) => (l.FirstIndexOfTerm(prev, t), t)
  }

  /**
   * A leader's log, a follower's log, and progress that is true of them, with the probe above both snapshot points; the
   * leader's log goes through the follower's snapshot point.
   */
  ghost predicate Probing(tlog: Logs, leader: Log, follower: Log, pr: Progress) {
    && TermLogs(tlog) && LogInv(tlog, leader) && LogInv(tlog, follower)
    && pr.matched < pr.next <= leader.LastIndex() + 1
    && Agree(Full(tlog, follower), Full(tlog, leader), pr.matched)
    && Agree(Full(tlog, follower), Full(tlog, leader), follower.snapIndex)
    && leader.snapIndex < pr.next && follower.snapIndex < pr.next
  }

  predicate Matches(leader: Log, follower: Log, pr: Progress) {
    pr.next > 0 && follower.Term(pr.next - 1) == leader.Term(pr.next - 1)
  }

  /** At or below what is matched the logs do not differ. */
  lemma MatchesBelow(tlog: Logs, leader: Log, follower: Log, pr: Progress)
    requires Probing(tlog, leader, follower, pr) && pr.next <= pr.matched + 1
    ensures Matches(leader, follower, pr)
  {
    hide LogInv, Full, TermLogs;
    var prev := pr.next - 1;
    TermInFull(tlog, leader, prev);
    TermInFull(tlog, follower, prev);
    AgreeLess(Full(tlog, follower), Full(tlog, leader), pr.matched, pr.matched);
    if prev > 0 {
      assert Full(tlog, follower)[prev - 1] == Full(tlog, leader)[prev - 1];
    }
  }

  /** A term's entries are one run, the same in every log. */
  lemma SameRun(tlog: Logs, a: Log, b: Log, i: nat, j: nat)
    requires TermLogs(tlog) && LogInv(tlog, a) && LogInv(tlog, b) && 1 <= i <= j
    requires a.Term(i).Some? && b.Term(j).Some? && a.Term(i) == b.Term(j) && b.snapIndex <= i
    ensures b.Term(i) == a.Term(i)
  {
    hide LogInv, Full, TermLogs;
    TermInFull(tlog, a, i);
    TermInFull(tlog, b, i);
    TermInFull(tlog, b, j);
    var t := a.Term(i).value;
    OwnPrefix(tlog, a, i);
    OwnPrefix(tlog, b, j);
    AgreeLess(tlog[t], Full(tlog, a), i, i);
    AgreeLess(tlog[t], Full(tlog, b), j, j);
    assert Full(tlog, b)[i - 1] == tlog[t][i - 1] == Full(tlog, a)[i - 1];
  }

  /** Below an entry a log is its creator's. */
  lemma OwnPrefix(tlog: Logs, l: Log, i: nat)
    requires TermLogs(tlog) && LogInv(tlog, l) && 1 <= i <= l.LastIndex()
    ensures var t := Full(tlog, l)[i - 1].term; t in tlog && Agree(tlog[t], Full(tlog, l), i)
  {
    hide TermLogs;
    var L := l.LastTerm();
    TermLogEntry(tlog, L, i);
    var t := tlog[L][i - 1].term;
    assert Full(tlog, l)[i - 1] == tlog[L][i - 1];
    assert Full(tlog, l)[..i] == tlog[L][..i];
  }

  /** Every fresh rejection strictly lowers the probe, and keeps it above what is matched. */
  lemma RejectionBacksUp(tlog: Logs, leader: Log, follower: Log, pr: Progress)
    requires Probing(tlog, leader, follower, pr) && !Matches(leader, follower, pr)
    ensures var (ci, ct) := Hints(follower, pr.next - 1);
      pr.matched < BackupNext(leader, pr, ci, ct) < pr.next
  {
    hide LogInv, Full, TermLogs;
    var prev := pr.next - 1;
    if pr.next <= pr.matched + 1 {
      MatchesBelow(tlog, leader, follower, pr);
    }
    TermInFull(tlog, follower, prev);
    TermInFull(tlog, leader, prev);
    if follower.Term(prev).Some? {
      var t := follower.Term(prev).value;
      var li := leader.LastIndexOfTerm(t);
      if li != 0 && li >= prev {
        SameRun(tlog, follower, leader, prev, li);
      }
    }
  }

  /** Terms rise within a log, its compacted part included. */
  lemma TermsRise(tlog: Logs, l: Log, i: nat, j: nat)
    requires TermLogs(tlog) && LogInv(tlog, l) && i <= j <= l.LastIndex()
    ensures TermAt(Full(tlog, l), i) <= TermAt(Full(tlog, l), j)
  {
    if 0 < i {
      var T := l.LastTerm();
      assert TermLog(tlog, T, tlog[T]);
      assert Full(tlog, l)[i - 1] == tlog[T][i - 1] && Full(tlog, l)[j - 1] == tlog[T][j - 1];
    }
  }

  /** Where two logs agree up to an index they show the same term there. */
  lemma SameTermAt(a: seq<Entry>, b: seq<Entry>, k: nat)
    requires Agree(a, b, k)
    ensures k <= |a| && k <= |b| && TermAt(a, k) == TermAt(b, k)
  {
    if k > 0 {
      assert a[..k][k - 1] == b[..k][k - 1];
    }
  }

  /** A rejected probe is above the follower's snapshot point. */
  lemma RejectedAbove(tlog: Logs, leader: Log, follower: Log, pr: Progress)
    requires Probing(tlog, leader, follower, pr) && !Matches(leader, follower, pr)
    ensures follower.snapIndex < pr.next - 1 <= leader.LastIndex()
  {
    hide LogInv, Full, TermLogs, Agree, TermAt;
    var n := follower.snapIndex;
    TermInFull(tlog, leader, n);
    TermInFull(tlog, follower, n);
    SameTermAt(Full(tlog, follower), Full(tlog, leader), n);
  }

  /** The leader's last entry of the hinted term is not below the follower's snapshot point. */
  lemma HintedAbove(tlog: Logs, leader: Log, follower: Log, pr: Progress, t: nat)
    requires Probing(tlog, leader, follower, pr) && follower.snapIndex <= pr.next - 1
    requires follower.Term(pr.next - 1) == Some(t) && leader.LastIndexOfTerm(t) != 0
    ensures follower.snapIndex <= leader.LastIndexOfTerm(t)
  {
    hide LogInv, Full, TermLogs, Agree, TermAt;
    var n, li := follower.snapIndex, leader.LastIndexOfTerm(t);
    SameTermAt(Full(tlog, follower), Full(tlog, leader), n);
    if li < n {
      TermInFull(tlog, leader, n);
      TermInFull(tlog, follower, pr.next - 1);
      TermsRise(tlog, follower, n, pr.next - 1);
    }
  }

  /** Every fresh rejection leads to a probe above the follower's snapshot point. */
  lemma RejectionStaysAbove(tlog: Logs, leader: Log, follower: Log, pr: Progress)
    requires Probing(tlog, leader, follower, pr) && !Matches(leader, follower, pr)
    ensures var (ci, ct) := Hints(follower, pr.next - 1); follower.snapIndex < BackupNext(leader, pr, ci, ct)
  {
    hide Probing, Log.LastIndexOfTerm;
    RejectedAbove(tlog, leader, follower, pr);
    if follower.Term(pr.next - 1).Some? {
      var t := follower.Term(pr.next - 1).value;
      if leader.LastIndexOfTerm(t) != 0 {
        HintedAbove(tlog, leader, follower, pr, t);
      }
    }
  }

  /** The leader's last entry of a term. */
  ghost predicate LastOfTerm(l: Log, t: nat, i: nat) {
    && l.FirstIndex() <= i <= l.LastIndex() && l.Term(i) == Some(t)
    && forall j :: i < j <= l.LastIndex() ==> l.Term(j) != Some(t)
  }

  ghost predicate TermsOrdered(l: Log) {
    forall i, j :: l.snapIndex <= i <= j <= l.LastIndex() ==> l.Term(i).value <= l.Term(j).value
  }

  lemma {:induction false} NoneFound(l: Log, from: nat, t: nat)
    requires from <= l.LastIndex() && TermsOrdered(l) && l.LastIndexOfTermFrom(from, t) == 0
    ensures forall i :: l.FirstIndex() <= i <= from ==> l.Term(i) != Some(t)
    decreases from
  {
    if from >= l.FirstIndex() && l.Term(from).value > t {
      NoneFound(l, from - 1, t);
    }
  }

  /**
   * What the leader makes of the hints: it goes behind its own last entry of the term that differed, if it has one, and
   * otherwise to where the follower said; never past its end, and never to what is matched.
   */
  lemma HintUsed(l: Log, pr: Progress, ci: nat, ct: nat, i: nat)
    requires TermsOrdered(l) && pr.matched <= l.LastIndex()
    ensures var next := BackupNext(l, pr, ci, ct);
      && (ct != 0 && LastOfTerm(l, ct, i) ==> next == if i > pr.matched then i + 1 else pr.matched + 1)
      && (ct == 0 || (forall j :: l.FirstIndex() <= j <= l.LastIndex() ==> l.Term(j) != Some(ct)) ==>
            next == if Min(ci, l.LastIndex() + 1) > pr.matched then Min(ci, l.LastIndex() + 1) else pr.matched + 1)
  {
    var li := l.LastIndexOfTerm(ct);
    if li == 0 {
      NoneFound(l, l.LastIndex(), ct);
    }
  }

  /** Probing again and again, each time with a fresh answer, ends: at a match, or where the leader sends a snapshot. */
  ghost function FinalProbe(tlog: Logs, leader: Log, follower: Log, pr: Progress): (end: Progress)
    requires Probing(tlog, leader, follower, pr)
    ensures pr.matched < end.next <= pr.next && end.matched == pr.matched
    ensures Matches(leader, follower, end) || end.next <= leader.snapIndex
    decreases pr.next
  {
    if Matches(leader, follower, pr) then pr
    else
      RejectionBacksUp(tlog, leader, follower, pr);
      RejectionStaysAbove(tlog, leader, follower, pr);
      var (ci, ct) := Hints(follower, pr.next - 1);
      var again := pr.(next := BackupNext(leader, pr, ci, ct));
      if again.next <= leader.snapIndex then again else FinalProbe(tlog, leader, follower, again)
  }

  // ---- The exchange of messages that probes

  datatype Pair = Pair(leader: NodeState, follower: NodeState)

  /** The request from the current probe, where the log still has the term before it. */
  function ProbeOf(s: NodeState, b: nat): Option<Message> {
    if b !in s.prs || s.prs[b].next == 0 then None
    else
      var next := s.prs[b].next;
      match s.log.Term(next - 1)
      case None => None
      case Some(t) =>
        Some(App(s.p.id, b, s.term, next - 1, t, s.log.Slice(next, s.log.LastIndex() + 1, s.p.maxBatch), s.commitIndex))
  }

  /** The follower takes the probe, and the leader takes the answer. */
  function Exchange(s: NodeState, t: NodeState, b: nat): Pair {
    match ProbeOf(s, b)
    case None => Pair(s, t)
    case Some(m) =>
      var t' := Step(t, Receive(m));
      if t'.out.messages == [] then Pair(s, t') else Pair(Step(s, Receive(t'.out.messages[0])), t')
  }

  function Exchanges(s: NodeState, t: NodeState, b: nat, n: nat): Pair
    decreases n
  {
    if n == 0 then Pair(s, t)
    else
      hide Exchange;
      var e := Exchange(s, t, b);
      Exchanges(e.leader, e.follower, b, n - 1)
  }

  /** A leader and a server of its term, or of an earlier one that a request will bring up. */
  predicate Paired(s: NodeState, t: NodeState, b: nat) {
    && s.role == Leader && t.term <= s.term && (t.term == s.term ==> t.role != Leader)
    && t.p.id == b && !s.panicked && !t.panicked
    && b in s.prs && s.prs[b].matched <= s.log.LastIndex() && (s.log.snapIndex > 0 ==> s.snapshot.Some?)
  }

  /** Nothing has changed but how far the leader has probed. */
  ghost predicate SameBut(s: NodeState, t: NodeState, b: nat, e: Pair) {
    && Paired(e.leader, e.follower, b)
    && e.leader.log == s.log && e.leader.term == s.term && e.leader.snapshot == s.snapshot && e.leader.p == s.p
    && e.follower.log == t.log && e.follower.commitIndex == t.commitIndex
    && b in s.prs && e.leader.prs[b].matched == s.prs[b].matched
  }

  /** What the leader sends next: the probe from where it stands, or its snapshot. */
  predicate Continued(s: NodeState, b: nat) {
    && b in s.prs
    && (if s.prs[b].next <= s.log.snapIndex then s.prs[b].pendingSnap
        else ProbeOf(s, b).Some? && ProbeOf(s, b).value in s.out.messages)
  }

  // ---- What the handlers do in one exchange

  /** A request of a later term makes a follower of its receiver first. */
  function Heard(t: NodeState, m: Message): NodeState {
    if m.term > t.term then BecomeFollower(Begin(t), m.term, m.from) else Begin(t)
  }

  lemma HeardIs(t: NodeState, m: Message)
    requires m.term >= t.term && (m.term == t.term ==> t.role != Leader)
    ensures var u := Heard(t, m);
      && u.log == t.log && u.term == m.term && u.p == t.p && u.role != Leader && u.panicked == t.panicked
      && u.commitIndex == t.commitIndex && u.lastApplied == t.lastApplied && u.out.messages == []
  {
    hide TimeoutOf;
  }

  lemma AppIsHandled(t: NodeState, m: Message)
    requires m.App? && m.to == t.p.id && m.term >= t.term
    ensures Handle(Begin(t), Receive(m)) == HandleApp(Heard(t, m), m)
  {
    hide HandleApp, TimeoutOf;
  }

  lemma RespIsHandled(s: NodeState, m: Message)
    requires m.AppResp? && m.to == s.p.id && m.term == s.term
    ensures Handle(Begin(s), Receive(m)) == HandleAppResp(Begin(s), m)
  {
    hide HandleAppResp;
  }

  /** A request whose start differs is answered with the hints, and changes nothing that lasts. */
  lemma RejectsDifferent(t: NodeState, m: Message)
    requires m.App? && t.role != Leader && !t.panicked && m.term == t.term && t.out.messages == []
    requires t.log.snapIndex <= m.prevLogIndex && t.log.Term(m.prevLogIndex) != Some(m.prevLogTerm)
    ensures var u := HandleApp(t, m);
      var (ci, ct) := Hints(t.log, m.prevLogIndex);
      && u.out.messages == [AppResp(t.p.id, m.from, t.term, false, 0, ci, ct)]
      && u.log == t.log && u.term == t.term && u.p == t.p && u.role != Leader && !u.panicked
      && u.commitIndex == t.commitIndex
  {
    hide Log.FirstIndexOfTerm, AcceptEntries, FollowCommit, TimeoutOf;
    assert m.entries[0..] == m.entries;
  }

  lemma AcceptsSame(t: NodeState, m: Message)
    requires m.App? && t.role != Leader && m.term == t.term && t.out.messages == []
    requires t.log.snapIndex <= m.prevLogIndex && t.log.Term(m.prevLogIndex) == Some(m.prevLogTerm)
    ensures var u := HandleApp(t, m);
      u.panicked || u.out.messages == [AppResp(t.p.id, m.from, t.term, true, m.prevLogIndex + |m.entries|, 0, 0)]
  {
    hide AcceptEntries, TimeoutOf;
    assert m.entries[0..] == m.entries;
    var s1 := FollowLeader(t, m.term, m.from);
    AcceptSends(s1, m.entries);
  }

  lemma AcceptSends(s: NodeState, ents: seq<Entry>)
    ensures AcceptEntries(s, ents).out == s.out && AcceptEntries(s, ents).term == s.term
    ensures AcceptEntries(s, ents).p == s.p && AcceptEntries(s, ents).role == s.role
    ensures AcceptEntries(s, ents).leaderID == s.leaderID && AcceptEntries(s, ents).clock == s.clock
  {
    hide FirstConflict, AppendAll, TruncateConf;
    var i := FirstConflict(s.log, ents, 0);
    if i < |ents| {
      AppendAllSends(s, ents[i..]);
      if s.log.snapIndex < ents[i].index {
        var t := s.(log := s.log.TruncateFrom(ents[i].index), conf := TruncateConf(s.conf, ents[i].index));
        AppendAllSends(t, ents[i..]);
      }
    }
  }

  lemma {:induction false} AppendAllSends(s: NodeState, ents: seq<Entry>)
    ensures AppendAll(s, ents).out == s.out && AppendAll(s, ents).term == s.term && AppendAll(s, ents).p == s.p
    ensures AppendAll(s, ents).role == s.role && AppendAll(s, ents).leaderID == s.leaderID
    ensures AppendAll(s, ents).clock == s.clock && AppendAll(s, ents).votedFor == s.votedFor
  {
    if ents != [] {
      AppendAllSends(s, ents[..|ents| - 1]);
    }
  }

  /** The leader takes the hints, and sends what comes next at once. */
  lemma TakesHints(s: NodeState, m: Message)
    requires m.AppResp? && !m.success && s.role == Leader && !s.panicked && m.term == s.term && m.from in s.prs
    requires s.prs[m.from].matched <= s.log.LastIndex() && (s.log.snapIndex > 0 ==> s.snapshot.Some?)
    ensures var s' := HandleAppResp(s, m);
      && s'.log == s.log && s'.term == s.term && s'.p == s.p && s'.role == Leader && s'.snapshot == s.snapshot
      && !s'.panicked && m.from in s'.prs
      && s'.prs[m.from].next == BackupNext(s.log, s.prs[m.from], m.conflictIndex, m.conflictTerm)
      && s'.prs[m.from].matched == s.prs[m.from].matched
      && Continued(s', m.from)
  {
    hide Log.LastIndexOfTerm, Log.Slice;
  }

  // ---- One exchange, and all of them

  lemma ProbeShape(s: NodeState, t: NodeState, b: nat)
    requires Paired(s, t, b) && s.log.snapIndex < s.prs[b].next <= s.log.LastIndex() + 1
    ensures ProbeOf(s, b).Some?
    ensures var m := ProbeOf(s, b).value;
      m.App? && m.from == s.p.id && m.to == b && m.term == s.term && m.prevLogIndex == s.prs[b].next - 1
      && s.log.Term(m.prevLogIndex) == Some(m.prevLogTerm)
  {
    hide Log.Slice;
  }

  /** Only what one Step marks for the disk is left to add to what its handler did. */
  lemma Handled(s: NodeState, i: Input)
    ensures Step(s, i) == Handle(Begin(s), i).(out := Step(s, i).out)
    ensures Step(s, i).out.messages == Handle(Begin(s), i).out.messages
  {
    hide Handle, PersistOf;
  }

  /** A probe that does not match lowers the next one, which is sent at once, and changes nothing else that lasts. */
  lemma RejectedExchange(s: NodeState, t: NodeState, b: nat)
    requires Paired(s, t, b) && s.log.snapIndex < s.prs[b].next <= s.log.LastIndex() + 1
    requires t.log.snapIndex < s.prs[b].next && !Matches(s.log, t.log, s.prs[b])
    ensures var e := Exchange(s, t, b);
      var (ci, ct) := Hints(t.log, s.prs[b].next - 1);
      && SameBut(s, t, b, e)
      && e.leader.prs[b].next == BackupNext(s.log, s.prs[b], ci, ct)
      && Continued(e.leader, b)
  {
    hide Step, Handle, ProbeOf, Hints, BackupNext, HandleApp, HandleAppResp, Heard;
    ProbeShape(s, t, b);
    var m := ProbeOf(s, b).value;
    HeardIs(t, m);
    AppIsHandled(t, m);
    Handled(t, Receive(m));
    RejectsDifferent(Heard(t, m), m);
    var r := Step(t, Receive(m)).out.messages[0];
    RespIsHandled(s, r);
    Handled(s, Receive(r));
    TakesHints(Begin(s), r);
    ContinuedKept(Handle(Begin(s), Receive(r)), Step(s, Receive(r)), b);
  }

  lemma ContinuedKept(s: NodeState, s': NodeState, b: nat)
    requires Continued(s, b) && s' == s.(out := s'.out) && s'.out.messages == s.out.messages
    ensures Continued(s', b)
  {
    hide Log.Slice;
  }

  /** A probe that matches is accepted through its last entry, unless accepting panics. */
  lemma MatchedAnswer(s: NodeState, t: NodeState, b: nat)
    requires Paired(s, t, b) && s.log.snapIndex < s.prs[b].next <= s.log.LastIndex() + 1
    requires t.log.snapIndex < s.prs[b].next && Matches(s.log, t.log, s.prs[b])
    ensures ProbeOf(s, b).Some? && ProbeOf(s, b).value.App?
    ensures var m := ProbeOf(s, b).value;
      var t' := Step(t, Receive(m));
      t'.panicked || t'.out.messages == [AppResp(b, s.p.id, s.term, true, m.prevLogIndex + |m.entries|, 0, 0)]
  {
    hide Step, Handle, ProbeOf, HandleApp, Heard;
    ProbeShape(s, t, b);
    var m := ProbeOf(s, b).value;
    HeardIs(t, m);
    AppIsHandled(t, m);
    Handled(t, Receive(m));
    AcceptsSame(Heard(t, m), m);
  }

  /** In each of the first n exchanges the probe falls, and nothing else changes. */
  ghost predicate Falls(s: NodeState, t: NodeState, b: nat, n: nat) {
    hide Exchanges;
    && (forall k :: 0 <= k <= n ==> SameBut(s, t, b, Exchanges(s, t, b, k)))
    && (forall k :: 0 <= k < n ==>
      Exchanges(s, t, b, k + 1).leader.prs[b].next < Exchanges(s, t, b, k).leader.prs[b].next)
  }

  /** Probing is over: the probe matches and is above what was matched, or the leader sends its snapshot. */
  ghost predicate Settled(s: NodeState, t: NodeState, b: nat, e: Pair) {
    && b in e.leader.prs && e.leader.prs[b].matched < e.leader.prs[b].next
    && (if e.leader.prs[b].next <= s.log.snapIndex then e.leader.prs[b].pendingSnap
        else Matches(s.log, t.log, e.leader.prs[b]))
  }

  /**
   * Exchange after exchange, the probe falls and the logs stay as they are, until the probe matches or the leader sends
   * its snapshot.
   */
  lemma ExchangesEnd(tlog: Logs, s: NodeState, t: NodeState, b: nat) returns (n: nat)
    requires Paired(s, t, b) && Probing(tlog, s.log, t.log, s.prs[b])
    ensures n < s.prs[b].next && Falls(s, t, b, n) && Settled(s, t, b, Exchanges(s, t, b, n))
    decreases s.prs[b].next
  {
    hide Matches, Exchange, Falls, Probing, SameBut, Continued;
    if Matches(s.log, t.log, s.prs[b]) {
      n := 0;
      FallsNot(s, t, b);
      ProbesAbove(tlog, s.log, t.log, s.prs[b]);
    } else {
      var e := Exchange(s, t, b);
      FirstExchange(tlog, s, t, b);
      FallsNot(e.leader, e.follower, b);
      if e.leader.prs[b].next <= s.log.snapIndex {
        n := 1;
        FallsOnce(s, t, b, 0);
      } else {
        var m := ExchangesEnd(tlog, e.leader, e.follower, b);
        n := m + 1;
        FallsOnce(s, t, b, m);
      }
    }
  }

  lemma ProbesAbove(tlog: Logs, leader: Log, follower: Log, pr: Progress)
    requires Probing(tlog, leader, follower, pr)
    ensures leader.snapIndex < pr.next && pr.matched < pr.next
  {
  }

  lemma FallsNot(s: NodeState, t: NodeState, b: nat)
    requires Paired(s, t, b)
    ensures Falls(s, t, b, 0)
  {
    hide Exchange;
  }

  /** After a rejected exchange the two are as before, but for a lower probe. */
  lemma FirstExchange(tlog: Logs, s: NodeState, t: NodeState, b: nat)
    requires Paired(s, t, b) && Probing(tlog, s.log, t.log, s.prs[b]) && !Matches(s.log, t.log, s.prs[b])
    ensures var e := Exchange(s, t, b);
      && Paired(e.leader, e.follower, b) && SameBut(s, t, b, e) && e.leader.log == s.log && e.follower.log == t.log
      && s.prs[b].matched == e.leader.prs[b].matched < e.leader.prs[b].next < s.prs[b].next
      && (e.leader.prs[b].next <= s.log.snapIndex ==> e.leader.prs[b].pendingSnap)
      && (e.leader.prs[b].next > s.log.snapIndex ==> Probing(tlog, e.leader.log, e.follower.log, e.leader.prs[b]))
  {
    hide Matches, Hints, BackupNext, Exchange, Probing, Continued;
    ProbingBounds(tlog, s.log, t.log, s.prs[b]);
    RejectedExchange(s, t, b);
    RejectionBacksUp(tlog, s.log, t.log, s.prs[b]);
    RejectionStaysAbove(tlog, s.log, t.log, s.prs[b]);
    var e := Exchange(s, t, b);
    SnapshotOut(e.leader, b);
    if e.leader.prs[b].next > s.log.snapIndex {
      ProbingLower(tlog, s.log, t.log, s.prs[b], e.leader.prs[b]);
    }
  }

  lemma ProbingBounds(tlog: Logs, leader: Log, follower: Log, pr: Progress)
    requires Probing(tlog, leader, follower, pr)
    ensures leader.snapIndex < pr.next <= leader.LastIndex() + 1 && follower.snapIndex < pr.next
  {
  }

  lemma ProbingLower(tlog: Logs, leader: Log, follower: Log, pr: Progress, pr': Progress)
    requires Probing(tlog, leader, follower, pr)
    requires pr'.matched == pr.matched < pr'.next < pr.next && leader.snapIndex < pr'.next && follower.snapIndex < pr'.next
    ensures Probing(tlog, leader, follower, pr')
  {
    hide LogInv, Full, TermLogs, Agree;
  }

  lemma SnapshotOut(s: NodeState, b: nat)
    requires Continued(s, b)
    ensures b in s.prs && (s.prs[b].next <= s.log.snapIndex ==> s.prs[b].pendingSnap)
  {
    hide ProbeOf;
  }

  lemma FallsOnce(s: NodeState, t: NodeState, b: nat, m: nat)
    requires Paired(s, t, b)
    requires var e := Exchange(s, t, b);
      SameBut(s, t, b, e) && e.leader.prs[b].next < s.prs[b].next && Falls(e.leader, e.follower, b, m)
    ensures Falls(s, t, b, m + 1)
  {
    hide Exchange, Matches;
    var e := Exchange(s, t, b);
    forall k | 0 < k <= m + 1 ensures Exchanges(s, t, b, k) == Exchanges(e.leader, e.follower, b, k - 1) {
    }
  }
}
