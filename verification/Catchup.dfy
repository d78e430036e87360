/** Bringing a follower up to date: what every acknowledgement does, and that exchanges end with the whole log. */
module Catchup {
  import opened RaftTypes
  import opened LogSpec
  import opened NodeSpec
  import opened Ghosts
  import opened SafetyInv
  import opened SafetyLogs
  import opened FastBackup
  import opened Sending
  import opened Snapshots
  import opened Cluster
  import opened ClusterSafety
  import opened ClusterTheorems
  import opened Founding
  import SafetyReplication
  import SafetySteps

  // ---- What an acknowledgement does

  /** A leader of several or one that is set to go on: it belongs to its configuration, no learner waits, it can send. */
  ghost predicate Serving(s: NodeState) {
    && s.role == Leader && Promotable(s) && s.learner == NONE && !s.panicked && CanSend(s)
    && forall v :: v in s.prs ==> s.prs[v].matched < s.prs[v].next
  }

  /** The follower has acknowledged the log through n. */
  function Raised(p: Progress, n: nat): Progress {
    var m := if n > p.matched then n else p.matched;
    Progress(if p.next > m then p.next else m + 1, m, true, false)
  }

  predicate Acknowledges(s: NodeState, m: Message, n: nat) {
    && m.to == s.p.id && m.term == s.term && m.from in s.prs
    && ((m.AppResp? && m.success && m.matchIndex == n) || (m.SnapResp? && m.matchIndex == n))
  }

  /** The leader goes on with the follower's progress raised, and all else as it was. */
  ghost predicate GoesOn(s: NodeState, b: nat, n: nat, t: NodeState) {
    && Serving(t) && t.p == s.p && t.term == s.term && t.log == s.log && t.conf == s.conf && t.snapshot == s.snapshot
    && t.commitIndex >= s.commitIndex && t.prs.Keys == s.prs.Keys
    && (forall v :: v in s.prs && v != b ==> t.prs[v].next == s.prs[v].next && t.prs[v].matched == s.prs[v].matched)
    && b in s.prs && t.prs[b].next == Raised(s.prs[b], n).next && t.prs[b].matched == Raised(s.prs[b], n).matched
    && t.prs[b].recentActive && (t.prs[b].next > s.log.snapIndex ==> !t.prs[b].pendingSnap)
  }

  /** And it has sent the follower what remains. */
  ghost predicate Continues(s: NodeState, b: nat, n: nat, t: NodeState) {
    GoesOn(s, b, n, t) && (t.prs[b].next <= t.log.LastIndex() ==> Continued(t, b))
  }

  /** An acknowledgement raises the follower's progress to exactly what it says, and what remains is sent at once. */
  lemma AcknowledgementTaken(s: NodeState, m: Message, n: nat)
    requires Serving(s) && Acknowledges(s, m, n) && n <= s.log.LastIndex()
    ensures Continues(s, m.from, n, Step(s, Receive(m)))
  {
    hide Handle, Continues, Serving, Raised;
    ServingBegins(s);
    AckHandled(Begin(s), m, n);
    Handled(s, Receive(m));
    ContinuesStep(s, m.from, n, Handle(Begin(s), Receive(m)), Step(s, Receive(m)));
  }

  lemma ServingBegins(s: NodeState)
    ensures Serving(s) ==> Serving(Begin(s))
  {
  }

  lemma ContinuesStep(s: NodeState, b: nat, n: nat, h: NodeState, t: NodeState)
    requires Continues(Begin(s), b, n, h) && t == h.(out := t.out) && t.out.messages == h.out.messages
    ensures Continues(s, b, n, t)
  {
    hide Continued, Raised;
    if Continued(h, b) {
      ContinuedKept(h, t, b);
    }
  }

  lemma AckHandled(s: NodeState, m: Message, n: nat)
    requires Serving(s) && Acknowledges(s, m, n) && n <= s.log.LastIndex()
    ensures Continues(s, m.from, n, Handle(s, Receive(m)))
  {
    hide MaybeCommit, AfterProgress, Continues, CanSend, SetMatch, Raised;
    var pr := SetMatch(s.prs[m.from], n);
    var a := s.(prs := s.prs[m.from := pr]);
    var b := MaybeCommit(a);
    RaisedIs(s, m.from, n);
    CountAdvances(a);
    CountsCalmly(a);
    AdvancesFrame(a, b);
    CanSendAfter(a, b);
    var c := Send(b, TimeoutNow(b.p.id, m.from, b.term));
    AfterAck(s, a, b, m.from, n, b);
    AfterAck(s, a, b, m.from, n, c);
  }

  lemma RaisedIs(s: NodeState, v: nat, n: nat)
    requires CanSend(s) && v in s.prs && n <= s.log.LastIndex() && s.prs[v].matched < s.prs[v].next
    ensures SetMatch(s.prs[v], n) == Raised(s.prs[v], n)
    ensures CanSend(s.(prs := s.prs[v := SetMatch(s.prs[v], n)]))
  {
  }

  lemma AfterAck(s: NodeState, a: NodeState, b: NodeState, v: nat, n: nat, d: NodeState)
    requires Serving(s) && v in s.prs && n <= s.log.LastIndex() && a == s.(prs := s.prs[v := Raised(s.prs[v], n)])
    requires Advances(a, b) && !b.panicked && CanSend(b) && d == b.(out := d.out)
    ensures Continues(s, v, n, AfterProgress(d, v, Raised(s.prs[v], n).next))
  {
    GoesOnSoFar(s, a, b, v, n, d);
    hide SendAppend, Continued, OnlySends, GoesOn, Advances, CanSend, Raised;
    var t := SendAppend(d, v);
    SendsNext(d, v);
    GoesOnSending(s, v, n, d, t);
    NoLearnerWaits(s, v, n, d);
  }

  lemma NoLearnerWaits(s: NodeState, v: nat, n: nat, d: NodeState)
    requires GoesOn(s, v, n, d)
    ensures var next := Raised(s.prs[v], n).next;
      AfterProgress(d, v, next) == if next <= d.log.LastIndex() then SendAppend(d, v) else d
    ensures v in d.prs && v in s.prs && d.prs[v].next == Raised(s.prs[v], n).next
  {
    hide SendAppend;
  }

  lemma GoesOnSoFar(s: NodeState, a: NodeState, b: NodeState, v: nat, n: nat, d: NodeState)
    requires Serving(s) && v in s.prs && n <= s.log.LastIndex() && a == s.(prs := s.prs[v := Raised(s.prs[v], n)])
    requires Advances(a, b) && !b.panicked && CanSend(b) && d == b.(out := d.out)
    ensures GoesOn(s, v, n, d)
  {
  }

  lemma GoesOnSending(s: NodeState, v: nat, n: nat, d: NodeState, t: NodeState)
    requires GoesOn(s, v, n, d) && OnlySends(d, t) && t == SendAppend(d, v)
    ensures GoesOn(s, v, n, t) && !t.panicked && t.prs[v].next == d.prs[v].next
  {
    hide SendAppend;
    SendsCalmly(d, v);
    CanSendStays(d, t);
  }

  // ---- What a follower answers

  /** The answer to a request: what it covers is acknowledged, or hints are given from where it was compared. */
  function Response(l: Log, m: Message, me: nat): Message
    requires m.App?
  {
    var at := if m.prevLogIndex < l.snapIndex then l.snapIndex else m.prevLogIndex;
    var end := m.prevLogIndex + |m.entries|;
    if m.prevLogIndex < l.snapIndex && end <= l.snapIndex then AppResp(me, m.from, m.term, true, l.snapIndex, 0, 0)
    else if l.Term(at) == Some(m.prevLogTerm) then AppResp(me, m.from, m.term, true, end, 0, 0)
    else AppResp(me, m.from, m.term, false, 0, Hints(l, at).0, Hints(l, at).1)
  }

  lemma Responds(t: NodeState, m: Message)
    requires m.App? && m.to == t.p.id && m.term >= t.term && (m.term == t.term ==> t.role != Leader)
    requires !Step(t, Receive(m)).panicked
    ensures var u := Step(t, Receive(m));
      && u.out.messages == [Response(t.log, m, t.p.id)] && u.term == m.term && u.p == t.p
      && (!Response(t.log, m, t.p.id).success ==> u.log == t.log)
  {
    hide Step, Handle, HandleApp, Heard, Response;
    HeardIs(t, m);
    AppIsHandled(t, m);
    Handled(t, Receive(m));
    RespondsHere(Heard(t, m), m);
  }

  lemma RespondsHere(t: NodeState, m: Message)
    requires m.App? && t.role != Leader && m.term == t.term && t.out.messages == [] && !HandleApp(t, m).panicked
    ensures var u := HandleApp(t, m);
      && u.out.messages == [Response(t.log, m, t.p.id)] && u.term == t.term && u.p == t.p
      && (!Response(t.log, m, t.p.id).success ==> u.log == t.log)
  {
    hide HandleAppFrom, TimeoutOf, Hints;
    var s := FollowLeader(t, m.term, m.from);
    var skip := if m.prevLogIndex < s.log.snapIndex then s.log.snapIndex - m.prevLogIndex else 0;
    if !(skip > 0 && |m.entries| <= skip) {
      RespondsFrom(s, m, m.prevLogIndex + skip, m.entries[skip..]);
    }
  }

  lemma RespondsFrom(s: NodeState, m: Message, prev: nat, ents: seq<Entry>)
    requires m.App? && s.out.messages == [] && !HandleAppFrom(s, m, prev, ents).panicked
    requires s.log.snapIndex <= prev
    ensures var u, same := HandleAppFrom(s, m, prev, ents), s.log.Term(prev) == Some(m.prevLogTerm);
      && u.out.messages ==
           [if same then AppResp(s.p.id, m.from, s.term, true, prev + |ents|, 0, 0)
            else AppResp(s.p.id, m.from, s.term, false, 0, Hints(s.log, prev).0, Hints(s.log, prev).1)]
      && u.term == s.term && u.p == s.p && (!same ==> u.log == s.log)
  {
    hide AcceptEntries, Log.FirstIndexOfTerm, Log.Slice;
    AcceptSends(s, ents);
  }

  // ---- Rounds of messages

  /** What comes next for a follower: the request from its probe, or the snapshot where that is compacted. */
  function NextFor(s: NodeState, b: nat): Option<Message> {
    if b in s.prs && s.prs[b].next <= s.log.snapIndex then Some(Snap(s.p.id, b, s.term, s.snapshot)) else ProbeOf(s, b)
  }

  /** The follower takes what comes next for it, and the leader takes the answer. */
  function Round(s: NodeState, t: NodeState, b: nat): Pair {
    match NextFor(s, b)
    case None => Pair(s, t)
    case Some(m) =>
      var t' := Step(t, Receive(m));
      if t'.out.messages == [] then Pair(s, t') else Pair(Step(s, Receive(t'.out.messages[0])), t')
  }

  function Rounds(s: NodeState, t: NodeState, b: nat, n: nat): Pair
    decreases n
  {
    if n == 0 then Pair(s, t)
    else
      hide Round;
      var e := Round(s, t, b);
      Rounds(e.leader, e.follower, b, n - 1)
  }

  function Left(s: NodeState, b: nat): nat
    requires b in s.prs
  {
    if s.prs[b].next <= s.log.LastIndex() then s.log.LastIndex() + 1 - s.prs[b].next else 0
  }

  /** A request carries the next entries of the leader's log: as many as are left, or as one message may hold. */
  lemma RequestCarries(s: NodeState, b: nat)
    requires b in s.prs && s.log.snapIndex < s.prs[b].next && ProbeOf(s, b).Some?
    ensures var m := ProbeOf(s, b).value;
      && m.App? && |m.entries| == (if s.p.maxBatch == 0 then Left(s, b) else Min(s.p.maxBatch, Left(s, b)))
      && (Left(s, b) > 0 ==> |m.entries| > 0)
      && forall k :: 0 <= k < |m.entries| ==>
           s.prs[b].next + k <= s.log.LastIndex() && m.entries[k] == EntryAt(s.log, s.prs[b].next + k)
  {
    hide Log.Slice;
    SliceTakes(s.log, s.prs[b].next, s.log.LastIndex() + 1, s.p.maxBatch);
  }

  // ---- Rounds in a cluster

  /** A true message reaches a live server. */
  lemma Delivered(gh: Ghost, c: State, id: nat, m: Message) returns (gh': Ghost, c': State)
    requires ClusterInv(c, gh) && Alive(c, id) && m.to == id && MsgInv(gh, m)
    ensures ClusterInv(c', gh') && Ext(gh, gh') && c'.servers.Keys == c.servers.Keys
    ensures forall v :: v in c.servers && v != id ==> c'.servers[v] == c.servers[v]
    ensures Alive(c', id) && NodeOf(c', id) == Step(NodeOf(c, id), Receive(m)) && !NodeOf(c', id).panicked
    ensures forall r :: r in NodeOf(c', id).out.messages ==> MsgInv(gh', r)
  {
    hide GhostInv, ServerInv, MsgInv, Step, Ext, Fsync, NodeInv;
    var c0 := c.(net := c.net + {m});
    c' := AfterStep(c0, id, Receive(m));
    assert Offers(c0, id, Receive(m));
    assert Next(gh.voters, c0, StepAt(id, Receive(m)), c');
    gh' := ActionSafe(c0, StepAt(id, Receive(m)), c', gh);
    LiveIsView(gh', c', id);
    NotPanicked(gh', NodeOf(c', id));
    forall r | r in NodeOf(c', id).out.messages ensures MsgInv(gh', r) {
      assert r in Sent(NodeOf(c', id));
    }
  }

  /** A leader that belongs to its configuration, and a live server it replicates to that is not past its term. */
  ghost predicate Linked(gh: Ghost, c: State, a: nat, b: nat) {
    && ClusterInv(c, gh) && Alive(c, a) && Alive(c, b)
    && NodeOf(c, a).role == Leader && a in gh.voters && b in NodeOf(c, a).prs
    && NodeOf(c, b).term <= NodeOf(c, a).term
  }

  lemma LinkedFacts(gh: Ghost, c: State, a: nat, b: nat)
    requires Linked(gh, c, a, b)
    ensures var s, t := NodeOf(c, a), NodeOf(c, b);
      && Paired(s, t, b) && Serving(s) && s.p.id == a && t.p.id == b && a != b
      && s.prs[b].matched < s.prs[b].next <= s.log.LastIndex() + 1
      && t.log.snapIndex <= t.commitIndex <= s.log.LastIndex()
      && NodeInv(gh, s) && NodeInv(gh, t) && GhostInv(gh)
  {
    hide GhostInv, ServerInv, MsgInv, LogInv, Full, Agree, NodeInv, Paired;
    var s, t := NodeOf(c, a), NodeOf(c, b);
    PairedInRun(gh, c, a, b);
    LiveIsView(gh, c, a);
    LiveIsView(gh, c, b);
    LeaderOf(gh, c, a, s.term);
    ProgressOf(gh, c, a);
    NotPanicked(gh, s);
    NoLearner(gh, s);
    FixedVoters(gh, s);
    SafetyReplication.CommittedInTerm(gh, t, s.term);
    AgreeBounds(Full(gh.tlog, t.log), gh.tlog[s.term], t.commitIndex);
  }

  lemma NextIsTrue(gh: Ghost, s: NodeState, b: nat)
    requires GhostInv(gh) && NodeInv(gh, s) && s.role == Leader && b in s.prs && s.prs[b].next > 0
    ensures NextFor(s, b).Some? && MsgInv(gh, NextFor(s, b).value)
    ensures var m := NextFor(s, b).value;
      && m.from == s.p.id && m.to == b && m.term == s.term
      && (if s.prs[b].next <= s.log.snapIndex then m.Snap? && m.snapshot.Some? && m.snapshot == s.snapshot
          else m.App? && m.prevLogIndex == s.prs[b].next - 1 && s.log.Term(m.prevLogIndex) == Some(m.prevLogTerm)
               && NextFor(s, b) == ProbeOf(s, b))
  {
    hide GhostInv, NodeInv, MsgInv, Log.Slice;
    if s.prs[b].next <= s.log.snapIndex {
      SafetySteps.SnapMsgSafe(gh, s, b);
    } else {
      var t := SafetySteps.AppMsgSafe(gh, s, b);
    }
  }

  /** How far a probe may still fall; one below the follower's snapshot point is raised first. */
  function Height(s: NodeState, t: NodeState, b: nat): nat
    requires b in s.prs
  {
    if s.prs[b].next <= t.log.snapIndex then s.log.LastIndex() + 2 else s.prs[b].next
  }

  /** The follower got further, or the probe came nearer to where it will. */
  ghost predicate Nearer(s: NodeState, t: NodeState, b: nat, e: Pair)
    requires b in s.prs
  {
    && e.leader.log == s.log && e.leader.term == s.term && b in e.leader.prs
    && e.leader.prs[b].matched >= s.prs[b].matched
    && (e.leader.prs[b].matched == s.prs[b].matched ==> Height(e.leader, e.follower, b) < Height(s, t, b))
  }

  /** The answer r of a follower with log l to what the leader s sent it. */
  predicate AnswerTo(s: NodeState, l: Log, m: Message, r: Message) {
    && r.to == s.p.id && r.from == m.to && r.term == s.term
    && (m.Snap? ==> r.SnapResp? && s.log.snapIndex <= r.matchIndex <= s.log.LastIndex())
    && (!m.Snap? ==> m.App? && r == Response(l, m, m.to))
  }

  /** What comes next for the follower has been delivered: it is unharmed, and has answered. */
  lemma Answering(gh: Ghost, c: State, a: nat, b: nat) returns (gh': Ghost, c': State, m: Message, r: Message)
    requires Linked(gh, c, a, b)
    ensures ClusterInv(c', gh') && Ext(gh, gh') && Alive(c', a) && Alive(c', b) && NodeOf(c', a) == NodeOf(c, a)
    ensures NextFor(NodeOf(c, a), b) == Some(m) && NodeOf(c', b) == Step(NodeOf(c, b), Receive(m))
    ensures NodeOf(c', b).out.messages == [r] && MsgInv(gh', r) && AnswerTo(NodeOf(c, a), NodeOf(c, b).log, m, r)
    ensures NodeOf(c', b).term == NodeOf(c, a).term && m.to == b
    ensures r.AppResp? && !r.success ==> NodeOf(c', b).log == NodeOf(c, b).log
  {
    hide Linked, ClusterInv, GhostInv, NodeInv, MsgInv, Step, Response, ProbeOf, Serving, Ext, NextFor, AnswerTo;
    LinkedFacts(gh, c, a, b);
    LinkedAlive(gh, c, a, b);
    var s, t := NodeOf(c, a), NodeOf(c, b);
    NextIsTrue(gh, s, b);
    m := NextFor(s, b).value;
    gh', c' := Delivered(gh, c, b, m);
    r := AnswerIs(gh, s, t, m);
    assert r in NodeOf(c', b).out.messages;
  }

  lemma AnswerIs(gh: Ghost, s: NodeState, t: NodeState, m: Message) returns (r: Message)
    requires NodeInv(gh, s) && m.from == s.p.id && m.to == t.p.id && m.term == s.term && t.term <= s.term
    requires t.term == s.term ==> t.role != Leader
    requires m.App? || (m.Snap? && m.snapshot.Some? && m.snapshot == s.snapshot && s.log.snapIndex > 0)
    requires t.commitIndex <= s.log.LastIndex() && !Step(t, Receive(m)).panicked
    ensures var u := Step(t, Receive(m));
      u.out.messages == [r] && u.term == s.term && (r.AppResp? && !r.success ==> u.log == t.log)
    ensures AnswerTo(s, t.log, m, r)
  {
    hide NodeInv, Step, Response;
    FixedVoters(gh, s);
    if m.Snap? {
      SnapshotAnswered(t, m);
    } else {
      Responds(t, m);
      ResponseTo(t.log, m, t.p.id);
    }
    r := Step(t, Receive(m)).out.messages[0];
  }

  lemma LinkedAlive(gh: Ghost, c: State, a: nat, b: nat)
    requires Linked(gh, c, a, b)
    ensures ClusterInv(c, gh) && Alive(c, a) && Alive(c, b) && NodeOf(c, a).role == Leader && b in NodeOf(c, a).prs
    ensures a in gh.voters && NodeOf(c, b).term <= NodeOf(c, a).term
  {
    hide ClusterInv;
  }

  lemma ResponseTo(l: Log, m: Message, me: nat)
    requires m.App?
    ensures var r := Response(l, m, me); r.AppResp? && r.from == me && r.to == m.from && r.term == m.term
  {
    hide Hints;
  }

  // ---- Every round brings the follower nearer

  /** An acknowledgement is of something new, and of nothing the leader does not have. */
  lemma AcknowledgesMore(s: NodeState, b: nat, l: Log, m: Message, r: Message)
    requires Serving(s) && b in s.prs && s.prs[b].matched < s.log.LastIndex() && l.snapIndex <= s.log.LastIndex()
    requires NextFor(s, b) == Some(m) && AnswerTo(s, l, m, r) && (r.SnapResp? || r.success)
    ensures (r.AppResp? || r.SnapResp?) && s.prs[b].matched < r.matchIndex <= s.log.LastIndex()
  {
    hide Hints, Log.Slice;
    if s.prs[b].next > s.log.snapIndex {
      RequestCarries(s, b);
    }
  }

  /** A leader's last entry of a term is at or beyond any entry of that term, where terms only rise. */
  lemma {:induction false} LastFound(l: Log, from: nat, i: nat, t: nat)
    requires l.FirstIndex() <= i <= from <= l.LastIndex() && l.Term(i) == Some(t)
    requires forall j :: i <= j <= from ==> l.Term(j).value >= t
    ensures l.LastIndexOfTermFrom(from, t) >= i
    decreases from
  {
    if from > i && l.Term(from).value != t {
      LastFound(l, from - 1, i, t);
    }
  }

  /** A request compared at the follower's snapshot point is rejected with hints that lead beyond that point. */
  lemma HintsRaise(gh: Ghost, s: NodeState, t: NodeState, b: nat)
    requires GhostInv(gh) && NodeInv(gh, s) && NodeInv(gh, t) && s.role == Leader && b in s.prs && t.term <= s.term
    requires s.log.snapIndex < s.prs[b].next <= t.log.snapIndex
    ensures var n := t.log.snapIndex;
      n <= s.log.LastIndex() && t.log.snapIndex < BackupNext(s.log, s.prs[b], Hints(t.log, n).0, Hints(t.log, n).1)
  {
    hide GhostInv, NodeInv, Log.LastIndexOfTermFrom, TermLogs, LogInv, Full;
    var n := t.log.snapIndex;
    LeaderHasPoint(gh, s, t);
    LeadsLog(gh, s);
    LogsKnown(gh);
    ShownTermsRise(gh.tlog, s.log, n);
    LastFound(s.log, s.log.LastIndex(), n, t.log.snapTerm);
  }

  lemma LeaderHasPoint(gh: Ghost, s: NodeState, t: NodeState)
    requires GhostInv(gh) && NodeInv(gh, s) && NodeInv(gh, t) && s.role == Leader && t.term <= s.term
    requires s.log.snapIndex < t.log.snapIndex
    ensures t.log.snapIndex <= s.log.LastIndex() && s.log.Term(t.log.snapIndex) == Some(t.log.snapTerm)
    ensures t.log.snapTerm > 0
  {
    hide GhostInv, NodeInv, LogInv, Full, Agree, TermAt;
    var n := t.log.snapIndex;
    LeadsLog(gh, s);
    SafetyReplication.CommittedInTerm(gh, t, s.term);
    LogsKnown(gh);
    AgreeLess(Full(gh.tlog, t.log), gh.tlog[s.term], t.commitIndex, n);
    SameTermAt(Full(gh.tlog, t.log), gh.tlog[s.term], n);
    TermInFull(gh.tlog, t.log, n);
    TermInFull(gh.tlog, s.log, n);
    TermLogEntry(gh.tlog, s.term, n);
    PositiveTerm(gh.tlog, s.term, n);
  }

  lemma PositiveTerm(tlog: Logs, T: nat, n: nat)
    requires TermLogs(tlog) && T in tlog && 1 <= n <= |tlog[T]|
    ensures TermAt(tlog[T], n) > 0
  {
    assert TermLog(tlog, T, tlog[T]);
  }

  lemma LogsKnown(gh: Ghost)
    requires GhostInv(gh)
    ensures TermLogs(gh.tlog)
  {
    hide TermLogs, Elections, VotesSafe, LeadersSafe, Acknowledged;
  }

  lemma LeadsLog(gh: Ghost, s: NodeState)
    requires NodeInv(gh, s) && s.role == Leader
    ensures s.term in gh.tlog && LogInv(gh.tlog, s.log) && Full(gh.tlog, s.log) == gh.tlog[s.term]
  {
    hide LogInv, Full, Owes, IsCommitted;
  }

  lemma ShownTermsRise(tlog: Logs, l: Log, i: nat)
    requires TermLogs(tlog) && LogInv(tlog, l) && l.snapIndex <= i
    ensures forall j :: i <= j <= l.LastIndex() ==> l.Term(j).value >= l.Term(i).value
  {
    hide TermLogs, LogInv, Full, TermAt;
    forall j | i <= j <= l.LastIndex() ensures l.Term(j).value >= l.Term(i).value {
      TermInFull(tlog, l, j);
      TermInFull(tlog, l, i);
      TermsRise(tlog, l, i, j);
    }
  }

  /** What the leader makes of hints: a new probe and nothing else, sent at once. */
  lemma HintsTaken(s: NodeState, r: Message)
    requires Serving(s) && r.AppResp? && !r.success && r.to == s.p.id && r.term == s.term && r.from in s.prs
    requires s.log.snapIndex > 0 ==> s.snapshot.Some?
    ensures var t := Step(s, Receive(r));
      && t.role == Leader && t.term == s.term && t.log == s.log && r.from in t.prs
      && t.prs[r.from].matched == s.prs[r.from].matched
      && t.prs[r.from].next == BackupNext(s.log, s.prs[r.from], r.conflictIndex, r.conflictTerm)
  {
    hide Step, Handle, HandleAppResp, BackupNext, Continued;
    MatchedBelow(s, r.from);
    RespIsHandled(s, r);
    Handled(s, Receive(r));
    TakesHints(Begin(s), r);
  }

  lemma MatchedBelow(s: NodeState, b: nat)
    requires Serving(s) && b in s.prs
    ensures s.prs[b].matched < s.prs[b].next <= s.log.LastIndex() + 1
  {
  }

  /** Hints given where the request was compared lower the probe, or raise it above the follower's snapshot point. */
  lemma HintsLead(gh: Ghost, c: State, a: nat, b: nat, m: Message, r: Message)
    requires Linked(gh, c, a, b) && NextFor(NodeOf(c, a), b) == Some(m)
    requires AnswerTo(NodeOf(c, a), NodeOf(c, b).log, m, r) && r.AppResp? && !r.success && m.to == b
    ensures b in NodeOf(c, a).prs
    ensures var s, t := NodeOf(c, a), NodeOf(c, b);
      var next := BackupNext(s.log, s.prs[b], r.conflictIndex, r.conflictTerm);
      t.log.snapIndex < next <= s.log.LastIndex() + 1 && (t.log.snapIndex < s.prs[b].next ==> next < s.prs[b].next)
  {
    hide Linked, ClusterInv, GhostInv, NodeInv, Hints, BackupNext, Probing, Serving;
    LinkedFacts(gh, c, a, b);
    LinkedAlive(gh, c, a, b);
    var s, t := NodeOf(c, a), NodeOf(c, b);
    NextIsTrue(gh, s, b);
    BackupBounded(s.log, s.prs[b], r.conflictIndex, r.conflictTerm);
    if t.log.snapIndex < s.prs[b].next {
      ProbingInRun(gh, c, a, b);
      RejectionBacksUp(gh.tlog, s.log, t.log, s.prs[b]);
      RejectionStaysAbove(gh.tlog, s.log, t.log, s.prs[b]);
    } else {
      HintsRaise(gh, s, t, b);
    }
  }

  lemma BackupBounded(l: Log, pr: Progress, ci: nat, ct: nat)
    requires pr.matched < pr.next <= l.LastIndex() + 1
    ensures BackupNext(l, pr, ci, ct) <= l.LastIndex() + 1
  {
    hide Log.LastIndexOfTerm;
  }

  lemma RoundIs(s: NodeState, t: NodeState, b: nat, m: Message, r: Message)
    requires NextFor(s, b) == Some(m) && Step(t, Receive(m)).out.messages == [r]
    ensures Round(s, t, b) == Pair(Step(s, Receive(r)), Step(t, Receive(m)))
  {
    hide Step, NextFor;
  }

  /** A leader and a follower that are linked stay so through a round, and the follower is nearer. */
  lemma RoundMoves(gh: Ghost, c: State, a: nat, b: nat) returns (gh': Ghost, c': State)
    requires Linked(gh, c, a, b) && NodeOf(c, a).prs[b].matched < NodeOf(c, a).log.LastIndex()
    ensures Linked(gh', c', a, b)
    ensures Pair(NodeOf(c', a), NodeOf(c', b)) == Round(NodeOf(c, a), NodeOf(c, b), b)
    ensures Nearer(NodeOf(c, a), NodeOf(c, b), b, Pair(NodeOf(c', a), NodeOf(c', b)))
  {
    hide Linked, ClusterInv, GhostInv, NodeInv, MsgInv, Step, Serving, Ext, NextFor, AnswerTo, GoesOn, Raised,
         BackupNext, Round, Continued;
    LinkedAlive(gh, c, a, b);
    LinkedFacts(gh, c, a, b);
    var s, t := NodeOf(c, a), NodeOf(c, b);
    var gh1, c1, m, r := Answering(gh, c, a, b);
    AnswerFrame(s, t.log, m, r);
    gh', c' := Delivered(gh1, c1, a, r);
    RoundIs(s, t, b, m, r);
    SameVoters(gh, gh1);
    SameVoters(gh1, gh');
    if r.SnapResp? || r.success {
      AcknowledgesMore(s, b, t.log, m, r);
      AcknowledgementTaken(s, r, r.matchIndex);
      ContinuesFacts(s, b, r.matchIndex, NodeOf(c', a));
    } else {
      FixedVoters(gh, s);
      HintsTaken(s, r);
      HintsLead(gh, c, a, b, m, r);
    }
    LinkedAgain(gh', c', a, b);
  }

  lemma AnswerFrame(s: NodeState, l: Log, m: Message, r: Message)
    requires AnswerTo(s, l, m, r)
    ensures r.to == s.p.id && r.from == m.to && r.term == s.term && (r.AppResp? || r.SnapResp?)
  {
    hide Hints;
  }

  lemma SameVoters(gh: Ghost, gh': Ghost)
    requires Ext(gh, gh')
    ensures gh'.voters == gh.voters
  {
  }

  lemma ContinuesFacts(s: NodeState, b: nat, n: nat, t: NodeState)
    requires Continues(s, b, n, t) && b in s.prs && s.prs[b].matched < n
    ensures t.role == Leader && t.term == s.term && t.log == s.log && b in t.prs && t.prs[b].matched == n
  {
    hide CanSend, Continued;
  }

  lemma LinkedAgain(gh: Ghost, c: State, a: nat, b: nat)
    requires ClusterInv(c, gh) && Alive(c, a) && Alive(c, b) && NodeOf(c, a).role == Leader && b in NodeOf(c, a).prs
    requires a in gh.voters && NodeOf(c, b).term <= NodeOf(c, a).term
    ensures Linked(gh, c, a, b)
  {
    hide ClusterInv;
  }

  // ---- The whole log

  /** The follower's log is the leader's. */
  ghost predicate Holds(s: NodeState, t: NodeState) {
    t.log.LastIndex() == s.log.LastIndex() && SameUpTo(s.log, t.log, s.log.LastIndex())
  }

  /** Where all is matched the logs are the same: a follower has nothing beyond what its leader appended. */
  lemma AllMatched(gh: Ghost, c: State, a: nat, b: nat)
    requires Linked(gh, c, a, b) && NodeOf(c, a).prs[b].matched == NodeOf(c, a).log.LastIndex()
    requires NodeOf(c, a).log.LastTerm() == NodeOf(c, a).term
    ensures Holds(NodeOf(c, a), NodeOf(c, b))
  {
    hide Linked, ClusterInv, GhostInv, NodeInv, LogInv, Full, SameUpTo, Agree, DiskLog;
    LinkedAlive(gh, c, a, b);
    var s, t := NodeOf(c, a), NodeOf(c, b);
    LiveDisk(gh, c, b);
    MatchHeld(gh, c, a, b, s.log.LastIndex());
    AgreeBounds(Full(gh.tlog, s.log), Full(gh.tlog, t.log), s.log.LastIndex());
    AgreeShows(gh.tlog, gh.tlog, s.log, t.log, s.log.LastIndex());
    LiveIsView(gh, c, a);
    LiveIsView(gh, c, b);
    LeadsLog(gh, s);
    NothingBeyond(gh, s, t);
  }

  lemma NothingBeyond(gh: Ghost, s: NodeState, t: NodeState)
    requires TermLogs(gh.tlog) && NodeInv(gh, t) && LogInv(gh.tlog, s.log) && LogInv(gh.tlog, t.log)
    requires s.term in gh.tlog && Full(gh.tlog, s.log) == gh.tlog[s.term] && t.term <= s.term
    requires s.log.LastTerm() == s.term && Agree(Full(gh.tlog, s.log), Full(gh.tlog, t.log), s.log.LastIndex())
    ensures t.log.LastIndex() == s.log.LastIndex()
  {
    hide NodeInv, LogInv, Full, Agree, TermAt, TermLogs;
    var n := s.log.LastIndex();
    AgreeBounds(Full(gh.tlog, s.log), Full(gh.tlog, t.log), n);
    SameTermAt(Full(gh.tlog, s.log), Full(gh.tlog, t.log), n);
    TermInFull(gh.tlog, s.log, n);
    TermsRise(gh.tlog, t.log, n, t.log.LastIndex());
    TermInFull(gh.tlog, t.log, t.log.LastIndex());
    LastShown(s.log);
    LastShown(t.log);
    FixedVoters(gh, t);
    if t.log.LastTerm() == s.term {
      LogOfTerm(gh.tlog, t.log);
    }
  }

  lemma LogOfTerm(tlog: Logs, l: Log)
    requires LogInv(tlog, l) && l.LastTerm() in tlog
    ensures l.LastIndex() <= |tlog[l.LastTerm()]|
  {
  }

  /** In every one of the first n rounds the follower gets nearer. */
  ghost predicate Climbs(s: NodeState, t: NodeState, b: nat, n: nat)
    decreases n
  {
    n == 0 || (b in s.prs && (var e := Round(s, t, b); Nearer(s, t, b, e) && Climbs(e.leader, e.follower, b, n - 1)))
  }

  /** After n rounds the server has the leader's whole log, and the leader knows it. */
  ghost predicate UpToDate(s: NodeState, t: NodeState, b: nat, n: nat) {
    var e := Rounds(s, t, b, n);
    && e.leader.log == s.log && e.leader.role == Leader && b in e.leader.prs
    && e.leader.prs[b].matched == s.log.LastIndex() && Holds(e.leader, e.follower)
  }

  lemma CatchesUp(gh: Ghost, c: State, a: nat, b: nat) returns (n: nat)
    requires Linked(gh, c, a, b) && NodeOf(c, a).log.LastTerm() == NodeOf(c, a).term
    ensures Climbs(NodeOf(c, a), NodeOf(c, b), b, n) && UpToDate(NodeOf(c, a), NodeOf(c, b), b, n)
    decreases NodeOf(c, a).log.LastIndex() - NodeOf(c, a).prs[b].matched, Height(NodeOf(c, a), NodeOf(c, b), b)
  {
    hide Linked, ClusterInv, GhostInv, NodeInv, Paired, Serving, Round, Nearer, Height, Climbs, UpToDate, Holds;
    LinkedAlive(gh, c, a, b);
    LinkedFacts(gh, c, a, b);
    var s, t := NodeOf(c, a), NodeOf(c, b);
    if s.prs[b].matched >= s.log.LastIndex() {
      n := 0;
      AllMatched(gh, c, a, b);
      ThereAlready(s, t, b);
    } else {
      var gh', c' := RoundMoves(gh, c, a, b);
      LinkedAlive(gh', c', a, b);
      NearerFacts(s, t, b, Pair(NodeOf(c', a), NodeOf(c', b)));
      var m := CatchesUp(gh', c', a, b);
      n := m + 1;
      OneRoundMore(s, t, b, m);
    }
  }

  lemma ThereAlready(s: NodeState, t: NodeState, b: nat)
    requires s.role == Leader && b in s.prs && s.prs[b].matched == s.log.LastIndex() && Holds(s, t)
    ensures Climbs(s, t, b, 0) && UpToDate(s, t, b, 0)
  {
    hide Holds;
  }

  lemma OneRoundMore(s: NodeState, t: NodeState, b: nat, m: nat)
    requires var e := Round(s, t, b);
      b in s.prs && Nearer(s, t, b, e) && Climbs(e.leader, e.follower, b, m) && UpToDate(e.leader, e.follower, b, m)
    ensures Climbs(s, t, b, m + 1) && UpToDate(s, t, b, m + 1)
  {
    hide Round, Holds, Height;
  }

  lemma NearerFacts(s: NodeState, t: NodeState, b: nat, e: Pair)
    requires b in s.prs && Nearer(s, t, b, e)
    ensures e.leader.log == s.log && e.leader.term == s.term && b in e.leader.prs
    ensures e.leader.prs[b].matched >= s.prs[b].matched
    ensures e.leader.prs[b].matched == s.prs[b].matched ==> Height(e.leader, e.follower, b) < Height(s, t, b)
  {
    hide Height;
  }

  /**
   * In every run, a leader and a live server not past its term that exchange messages without loss, wherever the leader's
   * probe stands: round after round more is acknowledged or the probe comes nearer, through rejections, batches and the
   * snapshot, until the server has the leader's whole log and the leader knows it.
   */
  lemma CatchesUpInRuns(voters: seq<nat>, r: Run, k: nat, a: nat, b: nat) returns (n: nat)
    requires NoDuplicates(voters) && Valid(voters, r)
    requires k < |r.states| && Alive(r.states[k], a) && Alive(r.states[k], b)
    requires var s, t := NodeOf(r.states[k], a), NodeOf(r.states[k], b);
      s.role == Leader && b in s.prs && t.term <= s.term
    ensures var s, t := NodeOf(r.states[k], a), NodeOf(r.states[k], b); Climbs(s, t, b, n) && UpToDate(s, t, b, n)
  {
    hide Valid, ClusterInv, Climbs, UpToDate;
    var hs := RunExplained(voters, r);
    LeaderFounded(voters, r, k, a);
    LinkedAgain(hs[k], r.states[k], a, b);
    n := CatchesUp(hs[k], r.states[k], a, b);
  }

  /** An accepted request raises what is matched by the entries it carried: all that were left, or one message full. */
  lemma AcceptedRaises(s: NodeState, t: NodeState, b: nat)
    requires Paired(s, t, b) && Serving(s) && s.log.snapIndex < s.prs[b].next && t.log.snapIndex < s.prs[b].next
    requires FastBackup.Matches(s.log, t.log, s.prs[b]) && !Round(s, t, b).follower.panicked
    ensures var e := Round(s, t, b);
      var n := s.prs[b].next - 1 + if s.p.maxBatch == 0 then Left(s, b) else Min(s.p.maxBatch, Left(s, b));
      && b in e.leader.prs && e.leader.prs[b].matched == n && e.leader.prs[b].next == n + 1
      && (n < s.log.LastIndex() ==> Continued(e.leader, b))
  {
    hide Step, ProbeOf, Serving, Continued, Raised;
    MatchedBelow(s, b);
    ProbeShape(s, t, b);
    RequestCarries(s, b);
    var m := ProbeOf(s, b).value;
    Responds(t, m);
    var r := Step(t, Receive(m)).out.messages[0];
    AcknowledgementTaken(s, r, r.matchIndex);
    RaisedTo(s, b, r.matchIndex);
  }

  lemma RaisedTo(s: NodeState, b: nat, n: nat)
    requires b in s.prs && s.prs[b].matched < s.prs[b].next <= n + 1
    ensures Raised(s.prs[b], n).matched == n && Raised(s.prs[b], n).next == n + 1
  {
  }
}
