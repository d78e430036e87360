/** What a leader does when it is asked for something: proposals, changes of voters, transfers of leadership. */
module Commands {
  import opened RaftTypes
  import opened LogSpec
  import opened Bytes
  import opened ConfSpec
  import opened NodeSpec
  import opened FastBackup
  import opened Sending
  import opened Catchup

  /** The request is refused: the answer names the leader the node knows of, and nothing else happens. */
  ghost predicate Refuses(s: NodeState, t: NodeState) {
    t == s.(out := EMPTY_OUTPUT.(reply := Some(ProposeReply(false, 0, 0, s.leaderID))), dirty := CLEAN)
  }

  /** An entry was appended, and while the node leads everyone it replicates to has been sent what comes next. */
  ghost predicate Appends(s: NodeState, t: NodeState, e: Entry) {
    && t.log == s.log.Append(e) && t.term == s.term && t.p == s.p && t.commitIndex >= s.commitIndex
    && (t.role == Leader && !t.panicked ==> forall v :: Target(t, v) && v in t.prs ==> Continued(t, v))
  }

  /** Counting and broadcasting leave the log, and the rest as well while the node goes on leading. */
  lemma CommitsOut(s: NodeState)
    requires s.role == Leader
    ensures var t := CommitAndBroadcast(s);
      && t.log == s.log && t.term == s.term && t.conf == s.conf && t.p == s.p && t.out.reply == s.out.reply
      && t.commitIndex >= s.commitIndex
      && (t.role != Leader ==> !Promotable(s))
      && (t.role == Leader ==> Advances(s, t))
      && (t.role == Leader && !t.panicked ==> forall v :: Target(t, v) && v in t.prs ==> Continued(t, v))
  {
    hide MaybeCommit, BroadcastAppend, Advances, OnlySends, CanCommit, Continued;
    var t := MaybeCommit(s);
    CountFrame(s);
    CountAdvances(s);
    if t.role == Leader {
      Broadcasts(t);
      SendingAdvances(t, BroadcastAppend(t));
      AdvancesTrans(s, t, BroadcastAppend(t));
      AdvancesFrame(s, BroadcastAppend(t));
      AdvancesReply(s, BroadcastAppend(t));
      AdvancesFrame(t, BroadcastAppend(t));
      TargetsAre(t);
    }
  }

  lemma AdvancesReply(s: NodeState, t: NodeState)
    requires Advances(s, t)
    ensures t.out.reply == s.out.reply
  {
  }

  lemma CountFrame(s: NodeState)
    ensures var t := MaybeCommit(s);
      && t.log == s.log && t.term == s.term && t.conf == s.conf && t.p == s.p && t.out.reply == s.out.reply
      && t.commitIndex >= s.commitIndex
  {
    hide MedianMatch, BroadcastAppend, TimeoutOf, Advances, OnlySends, ApplyCommitted;
    if s.role == Leader && MedianMatch(s).Some? && MedianMatch(s).value > s.commitIndex {
      var n := MedianMatch(s).value;
      var u := ApplyCommitted(s.(commitIndex := n));
      ApplyAdvances(s, n);
      AdvancesFrame(s, u);
      AdvancesReply(s, u);
      AppliedFrame(s, n);
      Broadcasts(u);
      SendingAdvances(u, BroadcastAppend(u));
      AdvancesFrame(u, BroadcastAppend(u));
      AdvancesReply(u, BroadcastAppend(u));
    }
  }

  // ---- Proposals

  /** A proposal is taken exactly by a leader that is not handing over: it becomes the next entry, of the leader's term. */
  lemma Proposed(s: NodeState, data: seq<byte>)
    ensures var t := Step(s, Propose(data));
      if s.role == Leader && s.transferee == NONE then
        && Appends(s, t, Entry(s.log.LastIndex() + 1, s.term, Normal, data))
        && t.out.reply == Some(ProposeReply(true, s.log.LastIndex() + 1, s.term, 0)) && t.conf == s.conf
      else Refuses(s, t)
  {
    hide CommitAndBroadcast, Continued, PersistOf;
    var b := Begin(s);
    if s.role == Leader && s.transferee == NONE {
      var a := AppendEntry(b, Normal, data);
      var r := Reply(a, ProposeReply(true, a.log.LastIndex(), a.term, 0));
      CommitsOut(r);
      AppendsStill(s, CommitAndBroadcast(r), Step(s, Propose(data)), Entry(s.log.LastIndex() + 1, s.term, Normal, data));
    } else {
      NoOrder(Reject(b));
    }
  }

  lemma NoOrder(s: NodeState)
    requires s.dirty == CLEAN
    ensures PersistOf(s) == None
  {
  }

  lemma AppendsStill(s: NodeState, h: NodeState, t: NodeState, e: Entry)
    requires Appends(s, h, e) && t == h.(out := t.out) && t.out.messages == h.out.messages
    ensures Appends(s, t, e)
  {
    hide Continued;
    if t.role == Leader && !t.panicked {
      forall v | Target(t, v) && v in t.prs ensures Continued(t, v) {
        ContinuedKept(h, t, v);
      }
    }
  }

  // ---- Changes of voters

  /** When a leader takes up a change: it is not handing over, the last one is committed, and no learner waits. */
  predicate Ready(s: NodeState) {
    s.role == Leader && s.transferee == NONE && s.conf.index <= s.commitIndex && s.learner == NONE
  }

  /** A server to add is a stranger; one to remove is a voter, and not the last. */
  predicate Sensible(s: NodeState, ch: ConfChange) {
    var voters := s.conf.config.voters;
    match ch
    case AddServer(id) => id !in voters && id != s.p.id && id != NONE
    case RemoveServer(id) => id in voters && |voters| != 1
  }

  /** The entry that carries a configuration. */
  function ConfEntry(s: NodeState, voters: seq<nat>): Entry {
    Entry(s.log.LastIndex() + 1, s.term, Conf, EncodeConfig(Config(voters)))
  }

  /** A server to add is sent the log first, as a learner that has no vote. */
  ghost predicate Learns(s: NodeState, t: NodeState, id: nat) {
    && t == s.(learner := id, prs := t.prs, out := t.out, dirty := CLEAN, panicked := t.panicked)
    && t.prs.Keys == s.prs.Keys + {id} && t.prs[id].matched == 0 && t.prs[id].next == s.log.LastIndex() + 1
    && (forall v :: v in s.prs && v != id ==> t.prs[v] == s.prs[v])
    && t.out.reply == Some(ProposeReply(true, 0, s.term, 0)) && (!t.panicked ==> Continued(t, id))
  }

  lemma ChangeRefused(s: NodeState, ch: ConfChange)
    requires !Ready(s) || !Sensible(s, ch)
    ensures Refuses(s, Step(s, ProposeConfChange(ch)))
  {
    NoOrder(Reject(Begin(s)));
  }

  lemma ServerAdded(s: NodeState, id: nat)
    requires Ready(s) && Sensible(s, AddServer(id))
    ensures Learns(s, Step(s, ProposeConfChange(AddServer(id))), id)
  {
    hide SendAppend, OnlySends, Continued, PersistOf, DoAddServer;
    var b := Begin(s);
    var s1 := b.(learner := id, prs := b.prs[id := Progress(b.log.LastIndex() + 1, 0, false, false)]);
    var r := Reply(s1, ProposeReply(true, 0, s1.term, 0));
    var h := SendAppend(r, id);
    AddedIs(b, id);
    SendsNext(r, id);
    SendingFrame(r, h, id);
    NoOrder(h);
    if !h.panicked {
      ContinuedKept(h, Step(s, ProposeConfChange(AddServer(id))), id);
    }
  }

  lemma AddedIs(s: NodeState, id: nat)
    requires Sensible(s, AddServer(id))
    ensures var a := s.(learner := id, prs := s.prs[id := Progress(s.log.LastIndex() + 1, 0, false, false)]);
      DoAddServer(s, id) == SendAppend(Reply(a, ProposeReply(true, 0, a.term, 0)), id)
  {
    hide SendAppend;
  }

  lemma RemovedIs(s: NodeState, id: nat)
    requires Sensible(s, RemoveServer(id))
    ensures var a := AppendEntry(s, Conf, EncodeConfig(Config(OtherVoters(s.conf.config.voters, id))));
      var c := if id != a.p.id then a.(prs := a.prs - {id}) else a;
      DoRemoveServer(s, id) == CommitAndBroadcast(Reply(c, ProposeReply(true, c.log.LastIndex(), c.term, 0)))
  {
    hide AppendEntry, CommitAndBroadcast, EncodeConfig, OtherVoters;
  }

  lemma SendingFrame(s: NodeState, t: NodeState, id: nat)
    requires OnlySends(s, t) && t == SendAppend(s, id) && id in s.prs
    ensures t == s.(prs := t.prs, out := t.out, panicked := t.panicked) && t.prs.Keys == s.prs.Keys
    ensures t.prs[id].matched == s.prs[id].matched && t.prs[id].next == s.prs[id].next
    ensures forall v :: v in s.prs && v != id ==> t.prs[v] == s.prs[v]
    ensures t.out.reply == s.out.reply
  {
    hide Log.Slice;
  }

  /** A voter to remove is left out of the configuration that is appended next, and is no longer replicated to. */
  lemma ServerRemoved(s: NodeState, id: nat)
    requires Ready(s) && Sensible(s, RemoveServer(id))
    requires |s.conf.config.voters| <= U32 && forall v :: v in s.conf.config.voters ==> v < U64
    ensures var t := Step(s, ProposeConfChange(RemoveServer(id)));
      var rest := OtherVoters(s.conf.config.voters, id);
      && Appends(s, t, ConfEntry(s, rest)) && t.conf.config == Config(rest) && t.conf.index == s.log.LastIndex() + 1
      && t.out.reply == Some(ProposeReply(true, s.log.LastIndex() + 1, s.term, 0))
      && (id != s.p.id && t.role == Leader ==> id !in t.prs)
  {
    hide CommitAndBroadcast, AppendEntry, EncodeConfig, OtherVoters, Continued, PersistOf, Advances, DoRemoveServer;
    var b := Begin(s);
    RemovedIs(b, id);
    var rest := OtherVoters(s.conf.config.voters, id);
    FewerVoters(s.conf.config.voters, id);
    var a := AppendEntry(b, Conf, EncodeConfig(Config(rest)));
    ConfAppended(b, rest);
    var c := if id != a.p.id then a.(prs := a.prs - {id}) else a;
    var r := Reply(c, ProposeReply(true, c.log.LastIndex(), c.term, 0));
    var h := CommitAndBroadcast(r);
    CommitsOut(r);
    if h.role == Leader {
      AdvancesFrame(r, h);
    }
    AppendsStill(s, h, Step(s, ProposeConfChange(RemoveServer(id))), ConfEntry(s, rest));
  }

  lemma {:induction false} FewerVoters(voters: seq<nat>, id: nat)
    ensures |OtherVoters(voters, id)| <= |voters| && (id in voters ==> |OtherVoters(voters, id)| < |voters|)
  {
    if voters != [] {
      FewerVoters(voters[..|voters| - 1], id);
    }
  }

  lemma ConfAppended(s: NodeState, voters: seq<nat>)
    requires |voters| < U32 && (forall v :: v in voters ==> v < U64)
    ensures var a := AppendEntry(s, Conf, EncodeConfig(Config(voters)));
      && a.log == s.log.Append(ConfEntry(s, voters)) && a.conf.config == Config(voters)
      && a.conf.index == s.log.LastIndex() + 1 && a.term == s.term && a.p == s.p && a.role == s.role
      && a.commitIndex == s.commitIndex && a.learner == s.learner && a.panicked == s.panicked && a.out == s.out
  {
    hide EncodeConfig, DecodeConfig;
    forall k | 0 <= k < |voters| ensures voters[k] < U64 {
      assert voters[k] in voters;
    }
    ConfigRoundTrip(Config(voters));
  }

  // ---- Learners

  /** A leader that belongs to its configuration and can send, with a learner that is still to become a voter. */
  ghost predicate Teaching(s: NodeState, v: nat) {
    && s.role == Leader && Promotable(s) && !s.panicked && CanSend(s)
    && s.learner == v != NONE && v in s.prs && s.prs[v].matched < s.prs[v].next
    && |s.conf.config.voters| + 1 < U32 && v < U64 && forall w :: w in s.conf.config.voters ==> w < U64
  }

  /** The learner waits on, or has become a voter by the entry appended next. */
  ghost predicate Promotes(s: NodeState, v: nat, done: bool, t: NodeState) {
    if done then
      var voters := InsertSorted(s.conf.config.voters, v);
      && t.log == s.log.Append(ConfEntry(s, voters)) && t.conf.config == Config(voters) && t.term == s.term
      && (t.role == Leader ==> t.learner == NONE)
    else t.log == s.log && t.conf == s.conf && t.term == s.term && t.role == Leader && t.learner == v
  }

  /** A learner's acknowledgement makes it a voter if and only if it then has the whole log. */
  lemma LearnerPromoted(s: NodeState, m: Message, n: nat)
    requires Teaching(s, m.from) && Acknowledges(s, m, n) && n <= s.log.LastIndex()
    ensures Promotes(s, m.from, Raised(s.prs[m.from], n).matched == s.log.LastIndex(), Step(s, Receive(m)))
  {
    hide Handle, Teaching, Promotes, Raised;
    TeachingBegins(s, m.from);
    PromotedHere(Begin(s), m, n);
    Handled(s, Receive(m));
    PromotesStep(s, m.from, Raised(s.prs[m.from], n).matched == s.log.LastIndex(), Handle(Begin(s), Receive(m)),
        Step(s, Receive(m)));
  }

  lemma TeachingBegins(s: NodeState, v: nat)
    ensures Teaching(s, v) ==> Teaching(Begin(s), v) && v in s.prs
  {
  }

  lemma PromotesStep(s: NodeState, v: nat, done: bool, h: NodeState, t: NodeState)
    requires Promotes(Begin(s), v, done, h) && t == h.(out := t.out)
    ensures Promotes(s, v, done, t)
  {
    hide InsertSorted, EncodeConfig;
  }

  lemma PromotedHere(s: NodeState, m: Message, n: nat)
    requires Teaching(s, m.from) && Acknowledges(s, m, n) && n <= s.log.LastIndex()
    ensures Promotes(s, m.from, Raised(s.prs[m.from], n).matched == s.log.LastIndex(), Handle(s, Receive(m)))
  {
    hide MaybeCommit, AfterProgress, CanSend, SetMatch, Raised, Promotes, Advances;
    var pr := SetMatch(s.prs[m.from], n);
    var a := s.(prs := s.prs[m.from := pr]);
    var b := MaybeCommit(a);
    RaisedIs(s, m.from, n);
    CountAdvances(a);
    var c := Send(b, TimeoutNow(b.p.id, m.from, b.term));
    PromotedAfter(s, a, b, m.from, n, b);
    PromotedAfter(s, a, b, m.from, n, c);
  }

  lemma PromotedAfter(s: NodeState, a: NodeState, b: NodeState, v: nat, n: nat, d: NodeState)
    requires Teaching(s, v) && n <= s.log.LastIndex() && v in s.prs && a == s.(prs := s.prs[v := Raised(s.prs[v], n)])
    requires Advances(a, b) && d == b.(out := d.out)
    ensures Promotes(s, v, Raised(s.prs[v], n).matched == s.log.LastIndex(), AfterProgress(d, v, Raised(s.prs[v], n).next))
  {
    hide MaybePromoteLearner, SendAppend, Promotes, OnlySends, Teaching, Raised, Advances;
    var e := MaybePromoteLearner(d, v);
    PromoteCases(s, a, b, v, n, d);
    SendsNext(e, v);
    PromotesSent(s, v, Raised(s.prs[v], n).matched == s.log.LastIndex(), e, SendAppend(e, v));
  }

  lemma PromotesSent(s: NodeState, v: nat, done: bool, h: NodeState, t: NodeState)
    requires Promotes(s, v, done, h) && OnlySends(h, t)
    ensures Promotes(s, v, done, t)
  {
    hide InsertSorted, EncodeConfig;
  }

  lemma PromoteCases(s: NodeState, a: NodeState, b: NodeState, v: nat, n: nat, d: NodeState)
    requires Teaching(s, v) && n <= s.log.LastIndex() && v in s.prs && a == s.(prs := s.prs[v := Raised(s.prs[v], n)])
    requires Advances(a, b) && d == b.(out := d.out)
    ensures Promotes(s, v, Raised(s.prs[v], n).matched == s.log.LastIndex(), MaybePromoteLearner(d, v))
  {
    hide AppendEntry, CommitAndBroadcast, InsertSorted, EncodeConfig;
    var voters := InsertSorted(s.conf.config.voters, v);
    InsertedFew(s.conf.config.voters, v);
    if Raised(s.prs[v], n).matched >= s.log.LastIndex() {
      var p := d.(learner := NONE);
      ConfAppended(p, voters);
      var q := AppendEntry(p, Conf, EncodeConfig(Config(voters)));
      CommitsOut(q);
      LearnerGone(q, CommitAndBroadcast(q));
    }
  }

  lemma LearnerGone(s: NodeState, t: NodeState)
    ensures t.role == Leader && Advances(s, t) ==> t.learner == s.learner
  {
  }

  lemma InsertedFew(a: seq<nat>, v: nat)
    ensures |InsertSorted(a, v)| <= |a| + 1 && forall w :: w in InsertSorted(a, v) ==> w in a || w == v
  {
    InsertedRest(a, v, 0, false);
  }

  lemma {:induction false} InsertedRest(a: seq<nat>, v: nat, i: nat, inserted: bool)
    requires i <= |a|
    ensures var r := InsertFrom(a, v, i, inserted);
      |r| <= |a| - i + (if inserted then 0 else 1) && forall w :: w in r ==> w in a || w == v
    decreases |a| - i
  {
    if i < |a| {
      InsertedRest(a, v, i + 1, inserted || v < a[i] || a[i] == v);
    }
  }

  // ---- Leaders left out

  /** A leader that its latest configuration leaves out goes on until that is committed, and then steps down. */
  lemma LeftOutStepsDown(s: NodeState, m: Message, n: nat)
    requires s.role == Leader && !Promotable(s) && s.commitIndex < s.conf.index && s.learner == NONE && !s.panicked
    requires Acknowledges(s, m, n) && !Step(s, Receive(m)).panicked
    ensures Step(s, Receive(m)).role == Leader <==> Step(s, Receive(m)).commitIndex < s.conf.index
  {
    hide Handle;
    Handled(s, Receive(m));
    LeftOutHere(Begin(s), m, n);
  }

  lemma LeftOutHere(s: NodeState, m: Message, n: nat)
    requires s.role == Leader && !Promotable(s) && s.commitIndex < s.conf.index && s.learner == NONE
    requires Acknowledges(s, m, n)
    ensures Handle(s, Receive(m)).role == Leader <==> Handle(s, Receive(m)).commitIndex < s.conf.index
  {
    hide MaybeCommit, SendAppend, SetMatch, Advances, OnlySends, CanCommit;
    var pr := SetMatch(s.prs[m.from], n);
    var a := s.(prs := s.prs[m.from := pr]);
    var b := MaybeCommit(a);
    CountAdvances(a);
    CountFrame(a);
    if b.role == Leader {
      AdvancesFrame(a, b);
      var c := Send(b, TimeoutNow(b.p.id, m.from, b.term));
      SendsNext(b, m.from);
      SendsNext(c, m.from);
      SentOnly(b, SendAppend(b, m.from));
      SentOnly(c, SendAppend(c, m.from));
    }
  }

  // ---- Transfers

  /** The leader notes the target, and tells it to stand if it has the whole log, or sends it what it lacks. */
  ghost predicate HandsOver(s: NodeState, t: NodeState, target: nat) {
    && t == s.(transferee := target, clock := s.clock.(transferElapsed := 0), prs := t.prs, out := t.out, dirty := CLEAN,
               panicked := t.panicked)
    && t.out.reply == Some(ProposeReply(true, 0, s.term, 0))
    && (if target in s.prs && s.prs[target].matched == s.log.LastIndex()
        then t.out.messages == [TimeoutNow(s.p.id, target, s.term)] && t.prs == s.prs
        else target in s.prs && !t.panicked ==> Continued(t, target))
  }

  /** Leadership is handed over exactly by a leader, to another voter. */
  lemma TransferStarts(s: NodeState, target: nat)
    ensures var t := Step(s, TransferLeadership(target));
      if s.role == Leader && target != s.p.id && target in s.conf.config.voters then HandsOver(s, t, target)
      else Refuses(s, t)
  {
    hide SendAppend, OnlySends, Continued, PersistOf;
    var b := Begin(s);
    NoOrder(Reject(b));
    var r := Reply(b.(transferee := target, clock := b.clock.(transferElapsed := 0)), ProposeReply(true, 0, b.term, 0));
    NoOrder(Send(r, TimeoutNow(r.p.id, target, r.term)));
    var h := SendAppend(r, target);
    SendsNext(r, target);
    SentOnly(r, h);
    NoOrder(h);
    var t := Step(s, TransferLeadership(target));
    if target in r.prs && !h.panicked && t == h.(out := t.out) && t.out.messages == h.out.messages {
      ContinuedKept(h, t, target);
    }
  }

  lemma SentOnly(s: NodeState, t: NodeState)
    requires OnlySends(s, t)
    ensures t == s.(prs := t.prs, out := t.out, panicked := t.panicked) && t.out == s.out.(messages := t.out.messages)
  {
  }

  /** The acknowledgement that brings the target of a transfer up to date makes the leader tell it to stand, no other. */
  lemma TransferCompletes(s: NodeState, m: Message)
    requires Serving(s) && m.AppResp? && Acknowledges(s, m, m.matchIndex) && m.matchIndex <= s.log.LastIndex()
    ensures TimeoutNow(s.p.id, m.from, s.term) in Step(s, Receive(m)).out.messages <==>
      s.transferee == m.from && Raised(s.prs[m.from], m.matchIndex).matched == s.log.LastIndex()
  {
    hide Handle, Serving, Raised;
    ServingBegins(s);
    Handled(s, Receive(m));
    CompletesHere(Begin(s), m);
  }

  lemma CompletesHere(s: NodeState, m: Message)
    requires Serving(s) && m.AppResp? && Acknowledges(s, m, m.matchIndex) && m.matchIndex <= s.log.LastIndex()
    requires s.out.messages == []
    ensures TimeoutNow(s.p.id, m.from, s.term) in Handle(s, Receive(m)).out.messages <==>
      s.transferee == m.from && Raised(s.prs[m.from], m.matchIndex).matched == s.log.LastIndex()
  {
    hide MaybeCommit, SendAppend, CanSend, SetMatch, Raised, Advances, OnlySends;
    var pr := SetMatch(s.prs[m.from], m.matchIndex);
    var a := s.(prs := s.prs[m.from := pr]);
    var b := MaybeCommit(a);
    RaisedIs(s, m.from, m.matchIndex);
    CountAdvances(a);
    AdvancesFrame(a, b);
    OnlyEntriesYet(a, b);
    var now := TimeoutNow(b.p.id, m.from, b.term);
    var c := Send(b, now);
    var d := if b.transferee == m.from && pr.matched == b.log.LastIndex() then c else b;
    SendsNext(d, m.from);
    OnlyEntriesMore(d, SendAppend(d, m.from));
  }

  lemma OnlyEntriesYet(s: NodeState, t: NodeState)
    requires Advances(s, t) && s.out.messages == []
    ensures forall m :: m in t.out.messages ==> m.App? || m.Snap?
  {
  }

  lemma OnlyEntriesMore(s: NodeState, t: NodeState)
    requires OnlySends(s, t)
    ensures forall m :: m in s.out.messages ==> m in t.out.messages
    ensures forall m :: m in t.out.messages ==> m in s.out.messages || m.App? || m.Snap?
  {
    forall m | m in s.out.messages ensures m in t.out.messages {
      var k :| 0 <= k < |s.out.messages| && s.out.messages[k] == m;
      assert t.out.messages[k] == m;
    }
  }
}
