/** The clock of a leader: CheckQuorum, heartbeats and transfers, and who counts as heard from. */
module Ticks {
  import opened RaftTypes
  import opened LogSpec
  import opened ConfSpec
  import opened NodeSpec
  import opened Ghosts
  import opened FastBackup
  import opened Sending
  import Membership

  // ---- What a leader does on a tick

  /** The voters a leader has heard from since it last checked, itself included. */
  ghost function HeardFrom(s: NodeState): set<nat> {
    set v | v in s.conf.config.voters && (v == s.p.id || (v in s.prs && s.prs[v].recentActive))
  }

  predicate CheckDue(s: NodeState) {
    s.clock.quorumElapsed + 1 >= s.p.et
  }

  predicate HeartbeatDue(s: NodeState) {
    s.clock.heartbeatElapsed + 1 >= s.p.ht
  }

  predicate TransferDue(s: NodeState) {
    s.transferee != NONE && s.clock.transferElapsed + 1 >= s.p.et
  }

  predicate Active(v: nat, id: nat, prs: map<nat, Progress>) {
    v == id || (v in prs && prs[v].recentActive)
  }

  ghost function ActiveAmong(voters: seq<nat>, id: nat, prs: map<nat, Progress>): set<nat> {
    set v | v in voters && Active(v, id, prs)
  }

  lemma CountStep(voters: seq<nat>, id: nat, prs: map<nat, Progress>)
    requires voters != []
    ensures CountActive(voters, id, prs) == CountActive(voters[..|voters| - 1], id, prs) +
      if Active(voters[|voters| - 1], id, prs) then 1 else 0
  {
  }

  lemma {:induction false} CountsActive(voters: seq<nat>, id: nat, prs: map<nat, Progress>)
    requires NoDuplicates(voters)
    ensures CountActive(voters, id, prs) == |ActiveAmong(voters, id, prs)|
  {
    hide Active;
    if voters != [] {
      var n := |voters| - 1;
      var x, rest := voters[n], voters[..n];
      CountStep(voters, id, prs);
      hide CountActive;
      assert voters == rest + [x];
      CountsActive(rest, id, prs);
      assert x !in rest;
      assert ActiveAmong(voters, id, prs) == ActiveAmong(rest, id, prs) + if Active(x, id, prs) then {x} else {};
    }
  }

  /** The node's clock after a tick of a leader that goes on leading. */
  function TickedClock(s: NodeState): Clock {
    s.clock.(
      heartbeatElapsed := if HeartbeatDue(s) then 0 else s.clock.heartbeatElapsed + 1,
      quorumElapsed := if CheckDue(s) then 0 else s.clock.quorumElapsed + 1,
      transferElapsed := if s.transferee == NONE then s.clock.transferElapsed else s.clock.transferElapsed + 1)
  }

  /**
   * What a tick leaves of what a leader knows of a follower: after a check all are to be heard from anew, and a snapshot
   * may be sent again.
   */
  predicate TickedProgress(s: NodeState, v: nat, p: Progress)
    requires v in s.prs
  {
    && p.next == s.prs[v].next && p.matched == s.prs[v].matched
    && p.recentActive == (s.prs[v].recentActive && !(CheckDue(s) && Target(s, v)))
    && (if CheckDue(s) && Target(s, v)
        then p.pendingSnap ==> HeartbeatDue(s) && p.next <= s.log.snapIndex
        else s.prs[v].pendingSnap ==> p.pendingSnap)
  }

  /** The leader goes on: nothing that lasts has changed, and heartbeats are sent exactly when due. */
  ghost predicate GoesOn(s: NodeState, t: NodeState) {
    && t == s.(clock := TickedClock(s), transferee := if TransferDue(s) then NONE else s.transferee,
               prs := t.prs, out := t.out, dirty := CLEAN, panicked := t.panicked)
    && t.out == EMPTY_OUTPUT.(messages := t.out.messages)
    && t.prs.Keys == s.prs.Keys && (forall v :: v in s.prs ==> TickedProgress(s, v, t.prs[v]))
    && (if HeartbeatDue(s)
        then !t.panicked ==> forall v :: Target(s, v) && v in s.prs ==> Continued(t, v)
        else t.out.messages == [] && t.panicked == s.panicked)
  }

  /**
   * A tick ends a reign if and only if the check is due and those heard from since the last one are no majority of the
   * voters; otherwise the leader goes on.
   */
  lemma QuorumChecked(s: NodeState)
    requires s.role == Leader && NoDuplicates(s.conf.config.voters)
    ensures var t := Step(s, Tick);
      if CheckDue(s) && 2 * |HeardFrom(s)| <= |s.conf.config.voters|
      then t.role == Follower && t.term == s.term && t.votedFor == s.votedFor && t.leaderID == NONE && t.log == s.log
           && t.out == EMPTY_OUTPUT
      else GoesOn(s, t)
  {
    hide QuorumActive, Heartbeat, HeardFrom, GoesOn, TickLeader, Ready, TickedClock, PersistOf;
    var b := Begin(s);
    QuorumIsHeard(b);
    HeardBegins(s);
    TickCases(b);
    CleanOrder(s);
    CleanOrder(TickLeader(b));
    if !(CheckDue(s) && 2 * |HeardFrom(s)| <= |s.conf.config.voters|) {
      HeartbeatGoesOn(s);
    }
  }

  lemma CleanOrder(s: NodeState)
    ensures s.dirty == CLEAN ==> PersistOf(s) == None
  {
  }

  lemma HeardBegins(s: NodeState)
    ensures HeardFrom(Begin(s)) == HeardFrom(s)
  {
  }

  lemma HeartbeatGoesOn(s: NodeState)
    ensures var h := Heartbeat(Ready(Begin(s)));
      h.dirty == CLEAN && GoesOn(s, h.(out := h.out.(persist := None)))
  {
    hide BroadcastAppend, ReplicationTargets, ForgetActivity, Continued, OnlySends, CanSend;
    var b := Begin(s);
    var r := Ready(b);
    var x := r.(clock := r.clock.(heartbeatElapsed := 0));
    SameTargets(s, b);
    SameTargets(s, x);
    TargetsAre(s);
    hide Target;
    Forgets(s.prs, ReplicationTargets(s));
    if HeartbeatDue(s) {
      Broadcasts(x);
      SentFrame(x, BroadcastAppend(x));
      var h := BroadcastAppend(x);
      if !h.panicked {
        forall v | Target(s, v) && v in s.prs ensures Continued(h.(out := h.out.(persist := None)), v) {
          ContinuedKept(h, h.(out := h.out.(persist := None)), v);
        }
      }
    }
  }

  lemma Forgets(prs: map<nat, Progress>, targets: seq<nat>)
    ensures var q := ForgetActivity(prs, targets);
      q.Keys == prs.Keys && forall v :: v in prs ==>
        && q[v].next == prs[v].next && q[v].matched == prs[v].matched
        && q[v].recentActive == (prs[v].recentActive && v !in targets)
        && q[v].pendingSnap == (prs[v].pendingSnap && v !in targets)
  {
  }

  lemma SentFrame(s: NodeState, t: NodeState)
    requires OnlySends(s, t)
    ensures t == s.(prs := t.prs, out := t.out, panicked := t.panicked)
    ensures t.out == s.out.(messages := t.out.messages) && t.prs.Keys == s.prs.Keys
    ensures forall v :: v in s.prs ==>
      && t.prs[v].next == s.prs[v].next && t.prs[v].matched == s.prs[v].matched
      && t.prs[v].recentActive == s.prs[v].recentActive
      && (s.prs[v].pendingSnap ==> t.prs[v].pendingSnap)
      && (t.prs[v].pendingSnap && !s.prs[v].pendingSnap ==> s.prs[v].next <= s.log.snapIndex)
  {
  }

  /** The leader before it sends its heartbeat. */
  function Ready(s: NodeState): NodeState {
    s.(clock := TickedClock(s).(heartbeatElapsed := s.clock.heartbeatElapsed + 1),
       transferee := if TransferDue(s) then NONE else s.transferee,
       prs := if CheckDue(s) then ForgetActivity(s.prs, ReplicationTargets(s)) else s.prs)
  }

  lemma TickCases(s: NodeState)
    requires s.role == Leader
    ensures
      if CheckDue(s) && !QuorumActive(s) then
        && TickLeader(s).role == Follower && TickLeader(s).term == s.term && TickLeader(s).votedFor == s.votedFor
        && TickLeader(s).leaderID == NONE && TickLeader(s).log == s.log && TickLeader(s).out == s.out
        && TickLeader(s).dirty == s.dirty
      else TickLeader(s) == Heartbeat(Ready(s))
  {
    hide QuorumActive, Heartbeat, ForgetActivity, ReplicationTargets, BecomeFollower;
    var s2 := TickTransfer(s.(clock := s.clock.(heartbeatElapsed := s.clock.heartbeatElapsed + 1,
                                                quorumElapsed := s.clock.quorumElapsed + 1)));
    var s3 := s2.(clock := s2.clock.(quorumElapsed := 0));
    SameTargets(s, s3);
    SameActive(s, s3);
    StepsDownPlainly(s3);
  }

  lemma SameActive(s: NodeState, t: NodeState)
    requires t.conf == s.conf && t.p == s.p && t.prs == s.prs
    ensures QuorumActive(t) == QuorumActive(s)
  {
  }

  lemma StepsDownPlainly(s: NodeState)
    ensures var t := BecomeFollower(s, s.term, NONE);
      && t.role == Follower && t.term == s.term && t.votedFor == s.votedFor && t.leaderID == NONE && t.log == s.log
      && t.out == s.out && t.dirty == s.dirty
  {
    hide TimeoutOf;
  }

  lemma QuorumIsHeard(s: NodeState)
    requires NoDuplicates(s.conf.config.voters)
    ensures QuorumActive(s) <==> 2 * |HeardFrom(s)| > |s.conf.config.voters|
  {
    CountsActive(s.conf.config.voters, s.p.id, s.prs);
    assert HeardFrom(s) == ActiveAmong(s.conf.config.voters, s.p.id, s.prs);
  }

  // ---- Who counts as heard from

  /** The check's clock and the marks of who was heard from are as they were; only new followers were added. */
  ghost predicate SameMarks(s: NodeState, t: NodeState) {
    && t.clock.quorumElapsed == s.clock.quorumElapsed && t.role == s.role
    && s.prs.Keys <= t.prs.Keys && forall v :: v in s.prs ==> t.prs[v].recentActive == s.prs[v].recentActive
  }

  lemma MarksTrans(s: NodeState, t: NodeState, u: NodeState)
    requires SameMarks(s, t) && SameMarks(t, u)
    ensures SameMarks(s, u)
  {
  }

  lemma AdvancesMarks(s: NodeState, t: NodeState)
    requires Advances(s, t)
    ensures SameMarks(s, t)
  {
  }

  lemma SendMarks(s: NodeState, to: nat)
    ensures SameMarks(s, SendAppend(s, to))
  {
    hide SendAppend;
    SendsNext(s, to);
    SendingAdvances(s, SendAppend(s, to));
    AdvancesMarks(s, SendAppend(s, to));
  }

  lemma AppendMarks(s: NodeState, typ: EntryType, data: seq<byte>)
    ensures SameMarks(s, AppendEntry(s, typ, data))
  {
    hide DecodeConfig;
  }

  lemma CountMarks(s: NodeState)
    requires MaybeCommit(s).role == Leader
    ensures SameMarks(s, MaybeCommit(s)) && MaybeCommit(s).prs.Keys == s.prs.Keys
  {
    hide MedianMatch, BroadcastAppend, ApplyCommitted, TimeoutOf, Advances;
    if s.role == Leader {
      CountAdvances(s);
      AdvancesMarks(s, MaybeCommit(s));
      AdvancesFrame(s, MaybeCommit(s));
    }
  }

  lemma CommitMarks(s: NodeState)
    requires CommitAndBroadcast(s).role == Leader
    ensures SameMarks(s, CommitAndBroadcast(s)) && CommitAndBroadcast(s).prs.Keys == s.prs.Keys
  {
    hide MaybeCommit, BroadcastAppend, SameMarks, OnlySends, Advances;
    var t := MaybeCommit(s);
    Broadcasts(t);
    SendingAdvances(t, BroadcastAppend(t));
    AdvancesMarks(t, BroadcastAppend(t));
    AdvancesFrame(t, BroadcastAppend(t));
    if t.role == Leader {
      CountMarks(s);
      MarksTrans(s, t, BroadcastAppend(t));
    }
  }

  lemma PromoteMarks(s: NodeState, from: nat)
    requires MaybePromoteLearner(s, from).role == Leader
    ensures SameMarks(s, MaybePromoteLearner(s, from))
  {
    hide AppendEntry, CommitAndBroadcast, SameMarks, InsertSorted, EncodeConfig;
    var cfg := Config(InsertSorted(s.conf.config.voters, from));
    var a := s.(learner := NONE);
    var t := AppendEntry(a, Conf, EncodeConfig(cfg));
    MarksLearner(s);
    AppendMarks(a, Conf, EncodeConfig(cfg));
    if CommitAndBroadcast(t).role == Leader {
      CommitMarks(t);
      MarksTrans(a, t, CommitAndBroadcast(t));
      MarksTrans(s, a, CommitAndBroadcast(t));
    }
  }

  lemma MarksLearner(s: NodeState)
    ensures SameMarks(s, s) && SameMarks(s, s.(learner := NONE))
  {
  }

  lemma AfterMarks(s: NodeState, from: nat, next: nat)
    requires AfterProgress(s, from, next).role == Leader
    ensures SameMarks(s, AfterProgress(s, from, next))
  {
    hide MaybePromoteLearner, SendAppend, SameMarks;
    var t := MaybePromoteLearner(s, from);
    SendMarks(t, from);
    MarksRole(t, SendAppend(t, from));
    PromoteMarks(s, from);
    MarksTrans(s, t, SendAppend(t, from));
  }

  lemma MarksRole(s: NodeState, t: NodeState)
    requires SameMarks(s, t)
    ensures t.role == s.role
  {
  }

  /** The message is a follower's answer to this leader. */
  predicate Answer(s: NodeState, i: Input, v: nat) {
    i.Receive? && (i.msg.AppResp? || i.msg.SnapResp?) && i.msg.from == v && i.msg.to == s.p.id && i.msg.term == s.term
  }

  /** A leader stays one, and only the sender of an answer has been marked. */
  ghost predicate Marked(s: NodeState, i: Input, t: NodeState) {
    && t.clock.quorumElapsed == s.clock.quorumElapsed
    && forall v :: v in s.prs && v in t.prs && i != ProposeConfChange(AddServer(v)) ==>
         t.prs[v].recentActive == (s.prs[v].recentActive || Answer(s, i, v))
  }

  lemma MarkedBy(s: NodeState, i: Input, t: NodeState)
    requires SameMarks(s, t) && forall v :: v in s.prs ==> !Answer(s, i, v)
    ensures Marked(s, i, t)
  {
  }

  lemma MarkedThen(s: NodeState, pr: Progress, m: Message, t: NodeState)
    requires m.from in s.prs && pr.recentActive && Answer(s, Receive(m), m.from)
    requires SameMarks(s.(prs := s.prs[m.from := pr]), t)
    ensures Marked(s, Receive(m), t)
  {
  }

  lemma AppRespMarks(s: NodeState, m: Message)
    requires m.AppResp? && m.to == s.p.id && m.term == s.term && s.role == Leader && HandleAppResp(s, m).role == Leader
    ensures Marked(s, Receive(m), HandleAppResp(s, m))
  {
    hide MaybeCommit, AfterProgress, SendAppend, SameMarks, BackupNext, Marked;
    if m.from !in s.prs {
      MarksLearner(s);
      MarkedBy(s, Receive(m), s);
    } else if m.success {
      var pr := SetMatch(s.prs[m.from], m.matchIndex);
      var a := s.(prs := s.prs[m.from := pr]);
      var b := MaybeCommit(a);
      if b.role == Leader {
        CountMarks(a);
        var c := Send(b, TimeoutNow(b.p.id, m.from, b.term));
        var d := if b.transferee == m.from && pr.matched == b.log.LastIndex() then c else b;
        SentMarks(b, c);
        MarksLearner(b);
        AfterMarks(d, m.from, pr.next);
        MarksTrans(a, b, d);
        MarksTrans(a, d, AfterProgress(d, m.from, pr.next));
        MarkedThen(s, pr, m, AfterProgress(d, m.from, pr.next));
      }
    } else {
      var pr := s.prs[m.from].(recentActive := true,
          next := BackupNext(s.log, s.prs[m.from], m.conflictIndex, m.conflictTerm));
      var a := s.(prs := s.prs[m.from := pr]);
      SendMarks(a, m.from);
      MarkedThen(s, pr, m, SendAppend(a, m.from));
    }
  }

  lemma SentMarks(s: NodeState, t: NodeState)
    requires t == s.(out := t.out)
    ensures SameMarks(s, t)
  {
  }

  lemma SnapRespMarks(s: NodeState, m: Message)
    requires m.SnapResp? && m.to == s.p.id && m.term == s.term && s.role == Leader && HandleSnapResp(s, m).role == Leader
    ensures Marked(s, Receive(m), HandleSnapResp(s, m))
  {
    hide MaybeCommit, AfterProgress, SameMarks, Marked;
    if m.from !in s.prs {
      MarksLearner(s);
      MarkedBy(s, Receive(m), s);
    } else {
      var pr := SetMatch(s.prs[m.from], m.matchIndex);
      var a := s.(prs := s.prs[m.from := pr]);
      var b := MaybeCommit(a);
      if b.role == Leader {
        CountMarks(a);
        AfterMarks(b, m.from, pr.next);
        MarksTrans(a, b, AfterProgress(b, m.from, pr.next));
        MarkedThen(s, pr, m, AfterProgress(b, m.from, pr.next));
      }
    }
  }

  lemma ReceiveMarks(s: NodeState, m: Message)
    requires s.role == Leader && Membership.StaysLeader(s, DoReceive(s, m)) && !DoReceive(s, m).panicked
    ensures Marked(s, Receive(m), DoReceive(s, m))
  {
    hide HandleAppResp, HandleSnapResp, HandleVote, InstallSnapshot, SameMarks, Marked;
    MarksLearner(s);
    if m.to == s.p.id && m.term != s.term {
      Membership.OtherTermKeepsConf(s, m);
      MarksFrom(s, DoReceive(s, m));
      MarkedBy(s, Receive(m), DoReceive(s, m));
    } else if m.to == s.p.id {
      match m
      case AppResp(_, _, _, _, _, _, _) => AppRespMarks(s, m);
      case SnapResp(_, _, _, _) => SnapRespMarks(s, m);
      case Vote(_, _, _, _, _, _, _) =>
        Membership.VoteKeepsConf(s, m);
        MarksFrom(s, DoReceive(s, m));
        MarkedBy(s, Receive(m), DoReceive(s, m));
      case Snap(_, _, _, _) => Membership.SnapEndsReign(s, m);
      case _ => MarkedBy(s, Receive(m), s);
    }
  }

  lemma MarksFrom(s: NodeState, t: NodeState)
    requires Membership.StaysLeader(s, t) && t.prs == s.prs && t.clock.quorumElapsed == s.clock.quorumElapsed
    ensures SameMarks(s, t)
  {
  }

  lemma ProposeMarks(s: NodeState, data: seq<byte>)
    requires s.role == Leader && DoPropose(s, data).role == Leader
    ensures SameMarks(s, DoPropose(s, data))
  {
    hide AppendEntry, CommitAndBroadcast, SameMarks;
    SentMarks(s, Reject(s));
    if s.transferee == NONE {
      var s1 := AppendEntry(s, Normal, data);
      var s2 := Reply(s1, ProposeReply(true, s1.log.LastIndex(), s1.term, 0));
      AppendMarks(s, Normal, data);
      SentMarks(s1, s2);
      CommitMarks(s2);
      MarksTrans(s, s1, s2);
      MarksTrans(s, s2, CommitAndBroadcast(s2));
    }
  }

  lemma TransferMarks(s: NodeState, target: nat)
    ensures SameMarks(s, DoTransfer(s, target))
  {
    hide SendAppend;
    var t := s.(transferee := target, clock := s.clock.(transferElapsed := 0));
    SendMarks(Reply(t, ProposeReply(true, 0, s.term, 0)), target);
  }

  /** A change of voters adds followers not yet heard from and drops the one removed. */
  lemma ChangeMarks(s: NodeState, ch: ConfChange)
    requires s.role == Leader && DoProposeConfChange(s, ch).role == Leader
    ensures Marked(s, ProposeConfChange(ch), DoProposeConfChange(s, ch))
  {
    hide DoAddServer, DoRemoveServer, Marked, SameMarks;
    SentMarks(s, Reject(s));
    MarkedBy(s, ProposeConfChange(ch), Reject(s));
    match ch
    case AddServer(id) => AddMarks(s, id);
    case RemoveServer(id) =>
      if DoRemoveServer(s, id).role == Leader {
        RemoveMarks(s, id);
      }
  }

  lemma AddMarks(s: NodeState, id: nat)
    ensures Marked(s, ProposeConfChange(AddServer(id)), DoAddServer(s, id))
  {
    hide SendAppend;
    var s1 := s.(learner := id, prs := s.prs[id := Progress(s.log.LastIndex() + 1, 0, false, false)]);
    SendMarks(Reply(s1, ProposeReply(true, 0, s1.term, 0)), id);
  }

  lemma RemoveMarks(s: NodeState, id: nat)
    requires DoRemoveServer(s, id).role == Leader
    ensures Marked(s, ProposeConfChange(RemoveServer(id)), DoRemoveServer(s, id))
  {
    hide AppendEntry, CommitAndBroadcast, EncodeConfig, WithoutVoter;
    if s.conf.config.Contains(id) && |s.conf.config.voters| != 1 {
      var data := EncodeConfig(Config(WithoutVoter(s.conf.config.voters, id)));
      var s1 := AppendEntry(s, Conf, data);
      var s2 := if id != s1.p.id then s1.(prs := s1.prs - {id}) else s1;
      AppendMarks(s, Conf, data);
      CommitMarks(Reply(s2, ProposeReply(true, s2.log.LastIndex(), s2.term, 0)));
    }
  }

  /** A tick that is a check asks every follower anew, and any other leaves the marks alone. */
  predicate Forgotten(s: NodeState, i: Input, v: nat) {
    i.Tick? && CheckDue(s) && Target(s, v)
  }

  /**
   * Whatever a leader is given: a follower is marked as heard from if and only if it was, or has just answered, and is not
   * asked anew by a check; the check's clock runs with the ticks and begins again with every check.
   */
  lemma MarkedIffAnswered(s: NodeState, i: Input)
    requires Membership.StaysLeader(s, Step(s, i)) && !Step(s, i).panicked && NoDuplicates(s.conf.config.voters)
    ensures var t := Step(s, i);
      && t.clock.quorumElapsed ==
           (if !i.Tick? then s.clock.quorumElapsed else if CheckDue(s) then 0 else s.clock.quorumElapsed + 1)
      && forall v :: v in s.prs && v in t.prs && i != ProposeConfChange(AddServer(v)) ==>
           (t.prs[v].recentActive <==> (s.prs[v].recentActive || Answer(s, i, v)) && !Forgotten(s, i, v))
  {
    hide Step, Handle, Target, HeardFrom;
    if i.Tick? {
      QuorumChecked(s);
      GoesOnMarks(s, Step(s, i));
    } else {
      Handled(s, i);
      HandleMarks(Begin(s), i);
      MarksKept(s, i, Step(s, i));
    }
  }

  lemma GoesOnMarks(s: NodeState, t: NodeState)
    requires GoesOn(s, t)
    ensures t.clock == TickedClock(s) && forall v :: v in s.prs && v in t.prs ==>
        t.prs[v].recentActive == (s.prs[v].recentActive && !(CheckDue(s) && Target(s, v)))
  {
  }

  lemma MarksKept(s: NodeState, i: Input, t: NodeState)
    requires Marked(Begin(s), i, Handle(Begin(s), i)) && t == Handle(Begin(s), i).(out := t.out)
    ensures Marked(s, i, t)
  {
    hide Handle;
  }

  lemma HandleMarks(s: NodeState, i: Input)
    requires !i.Tick? && Membership.StaysLeader(s, Handle(s, i)) && !Handle(s, i).panicked
    ensures Marked(s, i, Handle(s, i))
  {
    hide DoReceive, DoPropose, DoProposeConfChange, DoTransfer, SameMarks, Marked;
    match i
    case Receive(m) => ReceiveMarks(s, m);
    case Propose(data) =>
      ProposeMarks(s, data);
      MarkedBy(s, i, DoPropose(s, data));
    case ProposeConfChange(ch) => ChangeMarks(s, ch);
    case TransferLeadership(target) =>
      TransferMarks(s, target);
      MarkedBy(s, i, DoTransfer(s, target));
    case CreateSnapshot(index, data) =>
      SnapshotMarks(s, index, data);
      MarkedBy(s, i, DoCreateSnapshot(s, index, data));
  }

  lemma SnapshotMarks(s: NodeState, index: nat, data: seq<byte>)
    ensures SameMarks(s, DoCreateSnapshot(s, index, data))
  {
    hide Log.Compact, PruneConf, ConfigAt;
  }

  // ---- A whole reign

  /** A leader that leads its term from Step to Step. */
  ghost predicate Reign(ss: seq<NodeState>, inputs: seq<Input>) {
    |ss| == |inputs| + 1 && forall k :: 0 <= k < |inputs| ==> Leads(ss[k], inputs[k], ss[k + 1])
  }

  ghost predicate Leads(s: NodeState, i: Input, t: NodeState) {
    t == Step(s, i) && Membership.StaysLeader(s, t) && !t.panicked && NoDuplicates(s.conf.config.voters)
  }

  /** All along the server is one the leader replicates to. */
  ghost predicate Followed(ss: seq<NodeState>, inputs: seq<Input>, v: nat) {
    && (forall k :: 0 <= k < |ss| ==> v in ss[k].prs && Target(ss[k], v))
    && forall k :: 0 <= k < |inputs| ==> inputs[k] != ProposeConfChange(AddServer(v))
  }

  predicate Checks(s: NodeState, i: Input) {
    i.Tick? && CheckDue(s)
  }

  /** An answer of the server was taken, and no check has come since. */
  ghost predicate HeardSince(ss: seq<NodeState>, inputs: seq<Input>, v: nat)
    requires |ss| == |inputs| + 1
  {
    exists j ::
      && 0 <= j < |inputs| && Answer(ss[j], inputs[j], v)
      && forall k :: j < k < |inputs| ==> !Checks(ss[k], inputs[k])
  }

  /** In a reign a follower counts as heard from if and only if an answer of it was taken since the last check. */
  lemma {:induction false} HeardSinceCheck(ss: seq<NodeState>, inputs: seq<Input>, v: nat)
    requires Reign(ss, inputs) && Followed(ss, inputs, v) && !ss[0].prs[v].recentActive
    ensures ss[|inputs|].prs[v].recentActive <==> HeardSince(ss, inputs, v)
    decreases |inputs|
  {
    hide Leads, Target, CheckDue, Answer, HeardSince;
    if inputs == [] {
      NotYetHeard(ss, inputs, v);
    } else {
      var n := |inputs| - 1;
      HeardSinceCheck(ss[..n + 1], inputs[..n], v);
      assert Leads(ss[n], inputs[n], ss[n + 1]);
      LedMarks(ss[n], inputs[n], ss[n + 1], v);
      OneMoreInput(ss, inputs, v);
    }
  }

  lemma NotYetHeard(ss: seq<NodeState>, inputs: seq<Input>, v: nat)
    requires |ss| == 1 && inputs == []
    ensures !HeardSince(ss, inputs, v)
  {
  }

  lemma LedMarks(s: NodeState, i: Input, t: NodeState, v: nat)
    requires Leads(s, i, t) && v in s.prs && v in t.prs && Target(s, v)
    requires i != ProposeConfChange(AddServer(v))
    ensures t.prs[v].recentActive <==> (s.prs[v].recentActive || Answer(s, i, v)) && !Checks(s, i)
  {
    hide Step, Target, CheckDue, Answer;
    MarkedIffAnswered(s, i);
  }

  lemma OneMoreInput(ss: seq<NodeState>, inputs: seq<Input>, v: nat)
    requires |ss| == |inputs| + 1 && inputs != []
    ensures var n := |inputs| - 1;
      HeardSince(ss, inputs, v) <==>
        (HeardSince(ss[..n + 1], inputs[..n], v) || Answer(ss[n], inputs[n], v)) && !Checks(ss[n], inputs[n])
  {
    hide CheckDue;
    var n := |inputs| - 1;
    if HeardSince(ss, inputs, v) && !Answer(ss[n], inputs[n], v) {
      var j :| 0 <= j < |inputs| && Answer(ss[j], inputs[j], v)
        && forall k :: j < k < |inputs| ==> !Checks(ss[k], inputs[k]);
      assert Answer(ss[..n + 1][j], inputs[..n][j], v);
    }
    if HeardSince(ss[..n + 1], inputs[..n], v) && !Checks(ss[n], inputs[n]) {
      var j :| 0 <= j < n && Answer(ss[..n + 1][j], inputs[..n][j], v)
        && forall k :: j < k < n ==> !Checks(ss[..n + 1][k], inputs[..n][k]);
      assert Answer(ss[j], inputs[j], v);
      forall k | j < k < |inputs| ensures !Checks(ss[k], inputs[k]) {
        if k < n {
          assert !Checks(ss[..n + 1][k], inputs[..n][k]);
        }
      }
    }
  }
}
