/** The invariant of the whole system: every store is a replay, every answer the truth. */
module SystemSafety {
  import opened RaftTypes
  import opened NodeSpec
  import opened Storage
  import opened Ghosts
  import opened SafetyInv
  import opened SafetyRestart
  import opened DiskRefinement
  import opened Cluster
  import opened ClusterSafety
  import opened KV
  import opened Codec
  import opened Replay
  import opened Histories
  import opened System

  // ---- The history and the clients

  ghost predicate Issued(history: seq<LinOp>, seqs: seq<nat>, c: Command) {
    exists i :: 0 <= i < |history| && i < |seqs| && c == CommandOf(history[i], seqs[i])
  }

  ghost predicate IssuedBy(history: seq<LinOp>, seqs: seq<nat>, c: Command, time: int) {
    exists i :: 0 <= i < |history| && i < |seqs| && c == CommandOf(history[i], seqs[i]) && history[i].invoke <= time
  }

  ghost predicate OpInv(s: Sys, i: nat)
    requires i < |s.history| == |s.seqs|
  {
    && s.seqs[i] >= 1
    && s.history[i].client in s.clients
    && s.seqs[i] <= s.clients[s.history[i].client].seqno
    && CommandFits(CommandOf(s.history[i], s.seqs[i]))
    && s.history[i].invoke <= s.now
  }

  ghost predicate ClientInv(s: Sys, id: nat)
    requires id in s.clients && |s.history| == |s.seqs|
  {
    var c := s.clients[id];
    c.inflight ==>
      && c.histIdx < |s.history|
      && s.history[c.histIdx].client == id && s.seqs[c.histIdx] == c.seqno
      && !s.history[c.histIdx].complete
      && c.cmd == CommandOf(s.history[c.histIdx], c.seqno)
  }

  /** No two operations were sent under one client and sequence number. */
  ghost predicate Distinguished(history: seq<LinOp>, seqs: seq<nat>) {
    forall i, j :: 0 <= i < j < |history| && j < |seqs| ==> !(history[i].client == history[j].client && seqs[i] == seqs[j])
  }

  ghost predicate ClientsInv(s: Sys) {
    && |s.history| == |s.seqs|
    && (forall i :: 0 <= i < |s.history| ==> OpInv(s, i))
    && Distinguished(s.history, s.seqs)
    && (forall id :: id in s.clients ==> ClientInv(s, id))
    && (forall r :: r in s.requests ==> Issued(s.history, s.seqs, r.cmd))
  }

  // ---- What is committed, and what follows from it

  ghost predicate PayloadInv(payload: set<seq<byte>>, history: seq<LinOp>, seqs: seq<nat>) {
    forall d :: d in payload ==> exists c :: d == EncodeCommand(c) && CommandFits(c) && Issued(history, seqs, c)
  }

  ghost predicate ReplicaInv(gh: Ghost, s: Sys, id: nat) {
    Alive(s.cluster, id) && id in s.apps && LogInv(gh.tlog, NodeOf(s.cluster, id).log)
      && NodeOf(s.cluster, id).lastApplied <= NodeOf(s.cluster, id).log.LastIndex()
    ==> s.apps[id].store == StoreAfter(Full(gh.tlog, NodeOf(s.cluster, id).log)[..NodeOf(s.cluster, id).lastApplied])
  }

  /** Some committed prefix answers so. */
  ghost predicate Truth(gh: Ghost, r: Response) {
    r.ok ==> exists es, t :: IsCommitted(gh, es, t) && Answers(Commands(es), r.client, r.seqno, r.res)
  }

  ghost predicate DoneBy(cs: seq<Command>, history: seq<LinOp>, seqs: seq<nat>, i: nat)
    requires i < |history| && i < |seqs|
  {
    && (exists k :: 0 <= k < |cs| && AnsweredAt(cs, k, history[i].client, seqs[i],
         Result(history[i].outValue, history[i].outOK)))
    && (forall c :: c in cs ==> IssuedBy(history, seqs, c, history[i].response))
  }

  /** A committed prefix of commands invoked before the answer explains the answer. */
  ghost predicate Done(gh: Ghost, history: seq<LinOp>, seqs: seq<nat>, i: nat)
    requires i < |history| && i < |seqs|
  {
    exists es, t :: IsCommitted(gh, es, t) && DoneBy(Commands(es), history, seqs, i)
  }

  /** Entry i of a log takes effect as the k.1-th command of client k.0. */
  ghost predicate TakesEffect(es: seq<Entry>, i: nat, k: (nat, nat))
    requires 1 <= i <= |es|
  {
    match CommandIn(es[i - 1])
    case None => false
    case Some(c) => k == (c.client, c.seqno) && c.seqno >= 1 && ApplyCommand(StoreAfter(es[..i - 1]), c).fresh_
  }

  /** In some committed prefix the command takes effect at that index. */
  ghost predicate EffectTrue(gh: Ghost, k: (nat, nat), i: nat) {
    exists es, t :: IsCommitted(gh, es, t) && 1 <= i <= |es| && TakesEffect(es, i, k)
  }

  /** What was noted is true, and nothing was seen to take effect twice. */
  ghost predicate NotesInv(gh: Ghost, n: Notes) {
    !n.failed && forall k :: k in n.effectAt ==> EffectTrue(gh, k, n.effectAt[k])
  }

  ghost predicate AnswersInv(gh: Ghost, s: Sys)
    requires |s.history| == |s.seqs|
  {
    && NotesInv(gh, s.notes)
    && (forall r :: r in s.responses ==> Truth(gh, r))
    && (forall i :: 0 <= i < |s.history| && s.history[i].complete ==> Done(gh, s.history, s.seqs, i))
  }

  ghost predicate ReplicasInv(gh: Ghost, s: Sys) {
    s.apps.Keys == s.cluster.servers.Keys && forall id :: id in s.apps ==> ReplicaInv(gh, s, id)
  }

  ghost predicate SysInv(gh: Ghost, s: Sys) {
    && gh.rel == RestoresReplay
    && ClusterInv(s.cluster, gh)
    && ClientsInv(s)
    && PayloadInv(gh.payload, s.history, s.seqs)
    && ReplicasInv(gh, s)
    && AnswersInv(gh, s)
  }

  // ---- Committed commands were issued

  lemma CommittedEntry(gh: Ghost, es: seq<Entry>, t: nat, n: nat)
    requires GhostInv(gh) && IsCommitted(gh, es, t) && n < |es|
    ensures es[n].typ == Normal ==> es[n].data in gh.payload
  {
    hide TermLogs, VotesSafe, LeadersSafe, Elections, Acknowledged;
    var T: nat, k: nat :| T <= t && Committed(gh, T, k) && Agree(gh.tlog[T], es, |es|) && |es| <= k;
    CommittedTermKnown(gh, T, k);
    AgreeLess(gh.tlog[T], es, |es|, |es|);
    assert gh.tlog[T][n] == es[n];
  }

  lemma CommittedTermKnown(gh: Ghost, T: nat, k: nat)
    requires Committed(gh, T, k)
    ensures T in gh.tlog && k <= |gh.tlog[T]|
  {
  }

  lemma PayloadCommand(gh: Ghost, history: seq<LinOp>, seqs: seq<nat>, e: Entry)
    requires PayloadInv(gh.payload, history, seqs) && e.typ == Normal && e.data in gh.payload && CommandIn(e).Some?
    ensures Issued(history, seqs, CommandIn(e).value)
  {
    hide DecodeCommand, EncodeCommand, Issued;
    var c :| e.data == EncodeCommand(c) && CommandFits(c) && Issued(history, seqs, c);
    CommandRoundTrip(c);
  }

  lemma CommittedIssued(gh: Ghost, history: seq<LinOp>, seqs: seq<nat>, es: seq<Entry>, t: nat, c: Command)
    requires GhostInv(gh) && PayloadInv(gh.payload, history, seqs) && IsCommitted(gh, es, t) && c in Commands(es)
    ensures Issued(history, seqs, c)
  {
    hide GhostInv, IsCommitted, PayloadInv, Issued, Commands;
    var k :| 0 <= k < |Commands(es)| && Commands(es)[k] == c;
    var n := CommandsFrom(es, k);
    CommittedEntry(gh, es, t, n);
    PayloadCommand(gh, history, seqs, es[n]);
  }

  // ---- Growth

  lemma TruthGrows(gh: Ghost, gh': Ghost, r: Response)
    requires Ext(gh, gh') && Truth(gh, r)
    ensures Truth(gh', r)
  {
    hide Ext, IsCommitted, Answers, Commands;
    if r.ok {
      var es, t :| IsCommitted(gh, es, t) && Answers(Commands(es), r.client, r.seqno, r.res);
      IsCommittedGrows(gh, gh', es, t, t);
    }
  }

  lemma DoneGrows(gh: Ghost, gh': Ghost, history: seq<LinOp>, seqs: seq<nat>, i: nat)
    requires i < |history| && i < |seqs| && Ext(gh, gh') && Done(gh, history, seqs, i)
    ensures Done(gh', history, seqs, i)
  {
    hide Ext, IsCommitted, DoneBy, Commands;
    var es, t :| IsCommitted(gh, es, t) && DoneBy(Commands(es), history, seqs, i);
    IsCommittedGrows(gh, gh', es, t, t);
  }

  lemma AnswersGrow(gh: Ghost, gh': Ghost, s: Sys, s': Sys)
    requires |s.history| == |s.seqs| && s'.history == s.history && s'.seqs == s.seqs
    requires Ext(gh, gh') && AnswersInv(gh, s)
    requires forall r :: r in s'.responses && r !in s.responses ==> Truth(gh', r)
    requires s'.notes == s.notes || NotesInv(gh', s'.notes)
    ensures AnswersInv(gh', s')
  {
    hide Ext, Truth, Done, NotesInv;
    NotesGrow(gh, gh', s.notes);
    forall r | r in s'.responses ensures Truth(gh', r) {
      if r in s.responses {
        TruthGrows(gh, gh', r);
      }
    }
    forall i | 0 <= i < |s.history| && s.history[i].complete ensures Done(gh', s.history, s.seqs, i) {
      DoneGrows(gh, gh', s.history, s.seqs, i);
    }
  }

  lemma NotesGrow(gh: Ghost, gh': Ghost, n: Notes)
    requires Ext(gh, gh') && NotesInv(gh, n)
    ensures NotesInv(gh', n)
  {
    hide Ext, TakesEffect, IsCommitted;
    forall k | k in n.effectAt ensures EffectTrue(gh', k, n.effectAt[k]) {
      var es, t :| IsCommitted(gh, es, t) && 1 <= n.effectAt[k] <= |es| && TakesEffect(es, n.effectAt[k], k);
      IsCommittedGrows(gh, gh', es, t, t);
    }
  }

  /** A command takes effect at one index of all committed prefixes. */
  lemma EffectsAgree(gh: Ghost, k: (nat, nat), i: nat, j: nat)
    requires GhostInv(gh) && EffectTrue(gh, k, i) && EffectTrue(gh, k, j)
    ensures i == j
  {
    hide GhostInv, IsCommitted, TakesEffect;
    var a, t :| IsCommitted(gh, a, t) && 1 <= i <= |a| && TakesEffect(a, i, k);
    var b, u :| IsCommitted(gh, b, u) && 1 <= j <= |b| && TakesEffect(b, j, k);
    if i < j {
      EffectIsFirst(gh, k, a, t, i, b, u, j);
    } else if j < i {
      EffectIsFirst(gh, k, b, u, j, a, t, i);
    }
  }

  lemma EffectIsFirst(gh: Ghost, k: (nat, nat), a: seq<Entry>, t: nat, i: nat, b: seq<Entry>, u: nat, j: nat)
    requires GhostInv(gh) && IsCommitted(gh, a, t) && IsCommitted(gh, b, u)
    requires 1 <= i <= |a| && TakesEffect(a, i, k) && 1 <= j <= |b| && i < j
    ensures !TakesEffect(b, j, k)
  {
    hide GhostInv, IsCommitted, CommandIn, ApplyCommand, StoreAfter;
    IsCommittedLess(gh, a, t, i);
    IsCommittedLess(gh, b, u, i);
    SamePrefix(gh, a[..i], b[..i], t, u);
    assert a[..i][..i - 1] == a[..i - 1] && b[..i][..i - 1] == b[..i - 1];
    assert a[..i][i - 1] == a[i - 1] && b[..i][i - 1] == b[i - 1];
    if TakesEffect(b, j, k) {
      EffectOnce(b, i - 1, j - 1);
    }
  }

  /** Noting what follows a committed prefix finds nothing amiss. */
  lemma {:induction false} NotesStep(gh: Ghost, n: Notes, f: seq<Entry>, b: nat, m: nat, t: nat)
    requires GhostInv(gh) && NotesInv(gh, n) && IsCommitted(gh, f, t) && b <= m <= |f|
    requires forall c :: c in Commands(f) ==> c.seqno >= 1
    ensures NotesInv(gh, NoteAll(n, StoreAfter(f[..b]), f[b..m]))
  {
    hide GhostInv, NotesInv, IsCommitted, StoreAfter, NoteEntry, Commands;
    if b < m {
      NotesStep(gh, n, f, b, m - 1, t);
      assert f[b..m][..m - 1 - b] == f[b..m - 1];
      ReplayMore(f[..b], f[b..m - 1]);
      assert f[..b] + f[b..m - 1] == f[..m - 1];
      NoteOne(gh, NoteAll(n, StoreAfter(f[..b]), f[b..m - 1]), f, m, t);
    }
  }

  lemma NoteOne(gh: Ghost, n: Notes, f: seq<Entry>, m: nat, t: nat)
    requires GhostInv(gh) && NotesInv(gh, n) && IsCommitted(gh, f, t) && 1 <= m <= |f|
    requires forall c :: c in Commands(f) ==> c.seqno >= 1
    ensures NotesInv(gh, NoteEntry(n, StoreAfter(f[..m - 1]), f[m - 1]))
  {
    hide GhostInv, IsCommitted, StoreAfter, CommandIn, ApplyCommand, EffectTrue;
    CommittedIndex(gh, f, t, m);
    if CommandIn(f[m - 1]).Some? {
      var c := CommandIn(f[m - 1]).value;
      var k := (c.client, c.seqno);
      CommandPlace(f, m - 1);
      if ApplyCommand(StoreAfter(f[..m - 1]), c).fresh_ {
        EffectHere(gh, f, t, m, k);
        if k in n.effectAt {
          EffectsAgree(gh, k, n.effectAt[k], m);
        }
      }
    }
  }

  lemma EffectHere(gh: Ghost, f: seq<Entry>, t: nat, m: nat, k: (nat, nat))
    requires IsCommitted(gh, f, t) && 1 <= m <= |f| && TakesEffect(f, m, k)
    ensures EffectTrue(gh, k, m)
  {
    hide IsCommitted, TakesEffect;
  }

  lemma CommittedIndex(gh: Ghost, f: seq<Entry>, t: nat, m: nat)
    requires GhostInv(gh) && IsCommitted(gh, f, t) && 1 <= m <= |f|
    ensures f[m - 1].index == m
  {
    hide TermLogs, VotesSafe, LeadersSafe, Elections, Acknowledged;
    var T: nat, k: nat :| T <= t && Committed(gh, T, k) && Agree(gh.tlog[T], f, |f|) && |f| <= k;
    assert gh.tlog[T][..|f|][m - 1] == f[m - 1];
    TermIndex(gh.tlog, T, m);
  }

  lemma TermIndex(tlog: Logs, T: nat, m: nat)
    requires TermLogs(tlog) && T in tlog && 1 <= m <= |tlog[T]|
    ensures tlog[T][m - 1].index == m
  {
    assert TermLog(tlog, T, tlog[T]);
  }

  /** A server whose node and store did not change. */
  lemma ReplicaStays(gh: Ghost, gh': Ghost, s: Sys, s': Sys, id: nat)
    requires ClusterInv(s.cluster, gh) && Ext(gh, gh') && ReplicaInv(gh, s, id)
    requires id in s.cluster.servers && id in s'.cluster.servers && s'.cluster.servers[id] == s.cluster.servers[id]
    requires id in s.apps && id in s'.apps && s'.apps[id].store == s.apps[id].store
    ensures ReplicaInv(gh', s', id)
  {
    hide GhostInv, Ext, LogInv, Full, StoreAfter, MsgInv;
    if Alive(s.cluster, id) {
      NodeBounds(gh, s.cluster, id);
      LogInvGrows(gh, gh', NodeOf(s.cluster, id).log);
    }
  }

  lemma NodeBounds(gh: Ghost, c: State, id: nat)
    requires ClusterInv(c, gh) && Alive(c, id)
    ensures var n := NodeOf(c, id);
      && LogInv(gh.tlog, n.log)
      && n.log.snapIndex <= n.lastApplied <= n.commitIndex <= n.log.LastIndex()
      && IsCommitted(gh, Full(gh.tlog, n.log)[..n.commitIndex], n.term)
  {
    hide GhostInv, LogInv, Full, Owes, IsCommitted, MsgInv, SnapshotInv;
    assert ServerInv(gh, id, c.servers[id]);
  }

  // ---- A step of one server

  /** Two committed prefixes of one length are one. */
  lemma SamePrefix(gh: Ghost, a: seq<Entry>, b: seq<Entry>, t: nat, u: nat)
    requires GhostInv(gh) && IsCommitted(gh, a, t) && IsCommitted(gh, b, u) && |a| == |b|
    ensures a == b
  {
    hide GhostInv, IsCommitted;
    forall i | 0 <= i < |a| ensures a[i] == b[i] {
      CommittedConsistent(gh, a, b, t, u, i);
    }
  }

  lemma AppliedPlace(gh: Ghost, f: seq<Entry>, t: nat, e: Entry)
    requires GhostInv(gh) && IsCommitted(gh, f, t) && AppliedInv(gh, e) && 1 <= e.index <= |f|
    ensures f[e.index - 1] == e
  {
    hide GhostInv, IsCommitted;
    var s, u :| IsCommitted(gh, s, u) && 1 <= e.index <= |s| && s[e.index - 1] == e;
    CommittedConsistent(gh, f, s, t, u, e.index - 1);
  }

  /** Where applying began in a Step. */
  ghost function BaseOf(t: NodeState): int {
    t.lastApplied - |t.out.applied|
  }

  /** The entries a Step hands over are those of the committed log after where applying began. */
  lemma AppliedSlice(gh: Ghost, t: NodeState, f: seq<Entry>, term: nat)
    requires GhostInv(gh) && IsCommitted(gh, f, term) && t.lastApplied == |f| && BaseOf(t) >= 0
    requires forall e :: e in t.out.applied ==> AppliedInv(gh, e)
    requires forall k :: 0 <= k < |t.out.applied| ==> t.out.applied[k].index == BaseOf(t) + 1 + k
    ensures t.out.applied == f[BaseOf(t)..]
  {
    hide GhostInv, IsCommitted, AppliedInv;
    forall k | 0 <= k < |t.out.applied| ensures t.out.applied[k] == f[BaseOf(t)..][k] {
      AppliedPlace(gh, f, term, t.out.applied[k]);
    }
  }

  lemma {:induction false} AppliedStore(app: Replica, es: seq<Entry>)
    ensures AppApplyAll(app, es).app.store == ApplyEntries(app.store, es)
  {
    if es != [] {
      AppliedStore(app, es[..|es| - 1]);
    }
  }

  /** Every answer given while applying what follows a committed prefix is the truth. */
  lemma {:induction false} AppliedTruth(gh: Ghost, app: Replica, p: seq<Entry>, es: seq<Entry>, t: nat)
    requires GhostInv(gh) && app.store == StoreAfter(p) && IsCommitted(gh, p + es, t)
    requires forall c :: c in Commands(p + es) ==> c.seqno >= 1
    ensures forall r :: r in AppApplyAll(app, es).responses ==> Truth(gh, r)
  {
    hide GhostInv, IsCommitted, Truth, StoreAfter, Commands;
    if es != [] {
      var n := |es| - 1;
      var q, e := p + es[..n], es[n];
      assert p + es == q + [e];
      assert (p + es)[..|q|] == q;
      IsCommittedLess(gh, p + es, t, |q|);
      CommandsStep(q, e);
      AppliedTruth(gh, app, p, es[..n], t);
      AppliedStore(app, es[..n]);
      ReplayMore(p, es[..n]);
      LastTruth(gh, AppApplyAll(app, es[..n]).app, q, e, t);
    }
  }

  lemma LastTruth(gh: Ghost, app: Replica, q: seq<Entry>, e: Entry, t: nat)
    requires app.store == StoreAfter(q) && IsCommitted(gh, q + [e], t)
    requires CommandIn(e).Some? ==> CommandIn(e).value.seqno >= 1
    ensures forall r :: r in AppApply(app, e).responses ==> Truth(gh, r)
  {
    hide IsCommitted, Answers, ApplyCommand;
    CommandsStep(q, e);
    if CommandIn(e).Some? {
      AppliedAnswers(Commands(q), CommandIn(e).value);
    }
  }

  lemma SeqnosPositive(gh: Ghost, s: Sys, es: seq<Entry>, t: nat)
    requires GhostInv(gh) && ClientsInv(s) && PayloadInv(gh.payload, s.history, s.seqs) && IsCommitted(gh, es, t)
    ensures forall c :: c in Commands(es) ==> c.seqno >= 1 && CommandFits(c)
  {
    hide GhostInv, PayloadInv, IsCommitted, Commands;
    forall c | c in Commands(es) ensures c.seqno >= 1 && CommandFits(c) {
      CommittedIssued(gh, s.history, s.seqs, es, t, c);
      var i :| 0 <= i < |s.history| && i < |s.seqs| && c == CommandOf(s.history[i], s.seqs[i]);
      assert OpInv(s, i);
    }
  }

  /** What the store is when applying begins: a replay up to there. */
  lemma StartStore(gh: Ghost, gh': Ghost, app: Replica, n: NodeState, t: NodeState, f: seq<Entry>)
    requires GhostInv(gh') && Ext(gh, gh') && gh'.rel == RestoresReplay
    requires LogInv(gh.tlog, n.log) && n.lastApplied <= n.commitIndex <= n.log.LastIndex()
    requires IsCommitted(gh, Full(gh.tlog, n.log)[..n.commitIndex], n.term)
    requires app.store == StoreAfter(Full(gh.tlog, n.log)[..n.lastApplied])
    requires InOrder(n.lastApplied, t) && IsCommitted(gh', f, t.term) && |f| == t.lastApplied
    requires t.out.applySnapshot.Some? ==> RestoredInv(gh', t.out.applySnapshot.value)
    ensures BaseOf(t) >= 0
    ensures var start := if t.out.applySnapshot.Some? then AppRestore(t.out.applySnapshot.value.data) else app;
      start.store == StoreAfter(f[..BaseOf(t)])
  {
    hide GhostInv, IsCommitted, Ext, LogInv, Full, StoreAfter;
    IsCommittedLess(gh', f, t.term, BaseOf(t));
    if t.out.applySnapshot.Some? {
      var snap := t.out.applySnapshot.value;
      var q, u :| IsCommitted(gh', q, u) && |q| == snap.index && gh'.rel(q, snap.data);
      SamePrefix(gh', q, f[..BaseOf(t)], u, t.term);
    } else {
      var g := Full(gh.tlog, n.log);
      IsCommittedLess(gh, g[..n.commitIndex], n.term, n.lastApplied);
      assert g[..n.commitIndex][..n.lastApplied] == g[..n.lastApplied];
      IsCommittedGrows(gh, gh', g[..n.lastApplied], n.term, n.term);
      SamePrefix(gh', g[..n.lastApplied], f[..BaseOf(t)], n.term, t.term);
    }
  }

  /** What the application makes of a Step's output: again a replay, and true answers. */
  lemma OutputReplays(gh: Ghost, gh': Ghost, s: Sys, app: Replica, n: NodeState, t: NodeState, f: seq<Entry>)
    requires GhostInv(gh') && Ext(gh, gh') && gh'.rel == RestoresReplay
    requires LogInv(gh.tlog, n.log) && n.lastApplied <= n.commitIndex <= n.log.LastIndex()
    requires IsCommitted(gh, Full(gh.tlog, n.log)[..n.commitIndex], n.term)
    requires app.store == StoreAfter(Full(gh.tlog, n.log)[..n.lastApplied])
    requires InOrder(n.lastApplied, t) && IsCommitted(gh', f, t.term) && |f| == t.lastApplied
    requires t.out.applySnapshot.Some? ==> RestoredInv(gh', t.out.applySnapshot.value)
    requires forall e :: e in t.out.applied ==> AppliedInv(gh', e)
    requires ClientsInv(s) && PayloadInv(gh'.payload, s.history, s.seqs)
    requires NotesInv(gh', s.notes)
    ensures AppOutput(app, t.out).app.store == StoreAfter(f)
    ensures forall r :: r in AppOutput(app, t.out).responses ==> Truth(gh', r)
    ensures NotesInv(gh', NoteOutput(s.notes, app, t.out))
  {
    hide GhostInv, IsCommitted, Ext, LogInv, Full, StoreAfter, Truth, ClientsInv, PayloadInv, Commands, AppliedInv,
         RestoredInv, AppRestore, AppApplyAll, NotesInv, NoteAll;
    StartStore(gh, gh', app, n, t, f);
    var b := BaseOf(t);
    var start := if t.out.applySnapshot.Some? then AppRestore(t.out.applySnapshot.value.data) else app;
    AppliedSlice(gh', t, f, t.term);
    assert f[..b] + f[b..] == f;
    SeqnosPositive(gh', s, f, t.term);
    AppliedStore(start, t.out.applied);
    ReplayMore(f[..b], t.out.applied);
    AppliedTruth(gh', start, f[..b], t.out.applied, t.term);
    assert f[b..|f|] == f[b..];
    NotesStep(gh', s.notes, f, b, |f|, t.term);
  }

  /** The input a server may be given, in terms of what its clients issued and its store holds. */
  ghost predicate FairInput(s: Sys, id: nat, i: Input)
    requires Alive(s.cluster, id) && id in s.apps
  {
    && Offers(s.cluster, id, i)
    && (match i
        case Propose(data) => exists c :: data == EncodeCommand(c) && CommandFits(c) && Issued(s.history, s.seqs, c)
        case CreateSnapshot(index, data) =>
          index == NodeOf(s.cluster, id).lastApplied && IsSnapshot(s.apps[id].store, data) && Countable(s.apps[id].store)
        case _ => true)
  }

  /** A snapshot of the store restores the replay it stands for. */
  lemma SnapshotOk(gh: Ghost, s: Sys, id: nat, i: Input)
    requires SysInv(gh, s) && Alive(s.cluster, id) && id in s.apps && FairInput(s, id, i)
    ensures DataOk(gh, s.cluster, StepAt(id, i))
  {
    hide GhostInv, ServerInv, MsgInv, LogInv, Full, StoreAfter, IsCommitted, ClientsInv, PayloadInv, AnswersInv,
         IsSnapshot, Offers;
    match i
    case CreateSnapshot(index, data) =>
      var n := NodeOf(s.cluster, id);
      NodeBounds(gh, s.cluster, id);
      var f := Full(gh.tlog, n.log);
      IsCommittedLess(gh, f[..n.commitIndex], n.term, n.lastApplied);
      assert f[..n.commitIndex][..n.lastApplied] == f[..n.lastApplied];
      assert ReplicaInv(gh, s, id);
      ReplayFits(gh, s, f[..n.lastApplied], n.term);
      StoreRoundTrip(s.apps[id].store, data);
    case _ =>
  }

  lemma ReplayFits(gh: Ghost, s: Sys, es: seq<Entry>, t: nat)
    requires GhostInv(gh) && ClientsInv(s) && PayloadInv(gh.payload, s.history, s.seqs) && IsCommitted(gh, es, t)
    ensures DataFits(StoreAfter(es).data) && SessionsFit(StoreAfter(es).sessions)
  {
    hide GhostInv, ClientsInv, PayloadInv, IsCommitted, Commands, DataFits, SessionsFit;
    SeqnosPositive(gh, s, es, t);
    RunFits(Commands(es));
  }

  lemma PayloadStep(gh: Ghost, gh': Ghost, s: Sys, id: nat, i: Input)
    requires PayloadInv(gh.payload, s.history, s.seqs) && Alive(s.cluster, id) && id in s.apps && FairInput(s, id, i)
    requires gh'.payload == gh.payload + ProposedBy(StepAt(id, i))
    ensures PayloadInv(gh'.payload, s.history, s.seqs)
  {
    hide Issued, EncodeCommand, CommandFits, IsSnapshot, Offers;
  }

  lemma NotesHold(gh: Ghost, gh': Ghost, s: Sys)
    requires SysInv(gh, s) && Ext(gh, gh')
    ensures NotesInv(gh', s.notes)
  {
    hide ClusterInv, ClientsInv, PayloadInv, ReplicasInv, Ext, Truth, Done, NotesInv;
    NotesGrow(gh, gh', s.notes);
  }

  /** The stepping server's store is a replay again, and what it answers is the truth. */
  lemma SteppedReplica(gh: Ghost, gh': Ghost, s: Sys, id: nat, i: Input)
    requires SysInv(gh, s) && Alive(s.cluster, id) && id in s.apps
    requires ClusterInv(AfterStep(s.cluster, id, i), gh') && Ext(gh, gh') && HandsOver(gh', s.cluster, StepAt(id, i))
    requires gh'.rel == RestoresReplay && PayloadInv(gh'.payload, s.history, s.seqs)
    ensures ReplicaInv(gh', WithStep(s, id, i), id)
    ensures forall r :: r in AppOutput(s.apps[id], Step(NodeOf(s.cluster, id), i).out).responses ==> Truth(gh', r)
    ensures NotesInv(gh', WithStep(s, id, i).notes)
  {
    hide NotesInv, NoteOutput, GhostInv, ServerInv, MsgInv, LogInv, Full, StoreAfter, IsCommitted, ClientsInv,
         PayloadInv, AnswersInv, Ext, Step, AppOutput, Truth, InOrder, RestoredInv, AppliedInv;
    NotesHold(gh, gh', s);
    var n, t := NodeOf(s.cluster, id), Step(NodeOf(s.cluster, id), i);
    var c' := AfterStep(s.cluster, id, i);
    NodeBounds(gh, s.cluster, id);
    NodeBounds(gh', c', id);
    assert NodeOf(c', id) == t;
    var f := Full(gh'.tlog, t.log);
    IsCommittedLess(gh', f[..t.commitIndex], t.term, t.lastApplied);
    assert f[..t.commitIndex][..t.lastApplied] == f[..t.lastApplied];
    assert ReplicaInv(gh, s, id);
    OutputReplays(gh, gh', s, s.apps[id], n, t, f[..t.lastApplied]);
  }

  lemma OtherReplicas(gh: Ghost, gh': Ghost, s: Sys, s': Sys, id: nat)
    requires ClusterInv(s.cluster, gh) && Ext(gh, gh') && ReplicasInv(gh, s)
    requires s'.cluster.servers.Keys == s.cluster.servers.Keys && s'.apps.Keys == s.apps.Keys
    requires forall j :: j in s.apps && j != id ==>
        s'.cluster.servers[j] == s.cluster.servers[j] &&
        s'.apps[j].store == s.apps[j].store
    requires id in s.apps ==> ReplicaInv(gh', s', id)
    ensures ReplicasInv(gh', s')
  {
    hide ClusterInv, Ext, ReplicaInv;
    forall j | j in s'.apps ensures ReplicaInv(gh', s', j) {
      if j != id {
        ReplicaStays(gh, gh', s, s', j);
      }
    }
  }

  /** Any step of any server keeps the system's invariant. */
  lemma ServerStepSafe(gh: Ghost, s: Sys, id: nat, i: Input) returns (gh': Ghost)
    requires SysInv(gh, s) && Alive(s.cluster, id) && id in s.apps && FairInput(s, id, i)
    ensures SysInv(gh', WithStep(s, id, i)) && Ext(gh, gh')
  {
    hide ClusterInv, ClientsInv, PayloadInv, Ext, Step, AppOutput, Truth, ReplicaInv, FairInput, Offers, HandsOver,
         DataOk, AfterStep, ProposedBy;
    var s' := WithStep(s, id, i);
    SnapshotOk(gh, s, id, i);
    StepIsNext(gh, s, id, i);
    gh' := ActionSafe(s.cluster, StepAt(id, i), s'.cluster, gh);
    SameSetup(gh, gh');
    PayloadStep(gh, gh', s, id, i);
    SteppedReplica(gh, gh', s, id, i);
    StepTouches(s, id, i);
    OtherReplicas(gh, gh', s, s', id);
    SameLengths(s);
    AnswersGrow(gh, gh', s, s');
    ClientsSame(s, s');
  }

  lemma SameLengths(s: Sys)
    requires ClientsInv(s)
    ensures |s.history| == |s.seqs|
  {
  }

  lemma StepIsNext(gh: Ghost, s: Sys, id: nat, i: Input)
    requires Alive(s.cluster, id) && id in s.apps && FairInput(s, id, i)
    ensures Next(gh.voters, s.cluster, StepAt(id, i), AfterStep(s.cluster, id, i))
  {
    hide Step, Offers;
  }

  lemma StepTouches(s: Sys, id: nat, i: Input)
    requires Alive(s.cluster, id) && id in s.apps
    ensures AfterStep(s.cluster, id, i).servers.Keys == s.cluster.servers.Keys
    ensures forall j :: j in s.cluster.servers && j != id ==> AfterStep(s.cluster, id, i).servers[j] == s.cluster.servers[j]
  {
    hide Step;
  }

  /** What clients know does not depend on the servers. */
  lemma ClientsSame(s: Sys, s': Sys)
    requires ClientsInv(s) && s'.clients == s.clients && s'.requests == s.requests
    requires s'.history == s.history && s'.seqs == s.seqs && s'.now == s.now
    ensures ClientsInv(s')
  {
    forall i | 0 <= i < |s.history| ensures OpInv(s', i) {
      assert OpInv(s, i);
    }
    forall id | id in s.clients ensures ClientInv(s', id) {
      assert ClientInv(s, id);
    }
  }

  // ---- Crashes and restarts

  lemma CrashSafe(gh: Ghost, s: Sys, id: nat) returns (gh': Ghost)
    requires SysInv(gh, s) && Alive(s.cluster, id)
    ensures SysInv(gh', WithCrash(s, id)) && Ext(gh, gh')
  {
    hide ClusterInv, ClientsInv, PayloadInv, Ext, Truth, DataOk, HandsOver, LogInv, Full;
    var s' := WithCrash(s, id);
    CrashDataOk(gh, s, id);
    gh' := ActionSafe(s.cluster, Crash(id), s'.cluster, gh);
    SameSetup(gh, gh');
    assert gh'.payload == gh.payload;
    OtherReplicas(gh, gh', s, s', id);
    SameLengths(s);
    AnswersGrow(gh, gh', s, s');
    ClientsSame(s, s');
  }

  lemma CrashDataOk(gh: Ghost, s: Sys, id: nat)
    ensures DataOk(gh, s.cluster, Crash(id))
  {
  }

  /** A restarted server's store is what its durable snapshot stands for. */
  lemma RestartedReplica(gh: Ghost, c: State, id: nat)
    requires ClusterInv(c, gh) && gh.rel == RestoresReplay && Alive(c, id)
    requires NodeOf(c, id).lastApplied == NodeOf(c, id).log.snapIndex
    ensures var n := NodeOf(c, id);
      LogInv(gh.tlog, n.log) && n.log.snapIndex <= n.log.LastIndex()
      && AppRestart(c.servers[id].disk).store == StoreAfter(Full(gh.tlog, n.log)[..n.log.snapIndex])
  {
    hide GhostInv, LogInv, Full, Owes, IsCommitted, MsgInv, StoreAfter, DecodeStore;
    NodeBounds(gh, c, id);
    assert ServerInv(gh, id, c.servers[id]);
    if NodeOf(c, id).log.snapIndex == 0 {
      NothingReplayed(Full(gh.tlog, NodeOf(c, id).log));
    }
  }

  lemma NothingReplayed(f: seq<Entry>)
    ensures StoreAfter(f[..0]) == EMPTY_STORE
  {
    assert f[..0] == [];
  }

  lemma RestartSysSafe(gh: Ghost, s: Sys, id: nat, p: Params) returns (gh': Ghost)
    requires SysInv(gh, s) && id in s.cluster.servers && !Alive(s.cluster, id) && p.id == id
    ensures Ext(gh, gh')
    ensures SysInv(gh', s.(cluster := AfterRestart(gh.voters, s.cluster, id, p),
                           apps := s.apps[id := AppRestart(s.cluster.servers[id].disk)]))
  {
    hide ClusterInv, ClientsInv, PayloadInv, Ext, Truth, DataOk, HandsOver, LogInv, Full, AppRestart, NewNode,
         StoreAfter;
    var s' := s.(cluster := AfterRestart(gh.voters, s.cluster, id, p),
        apps := s.apps[id := AppRestart(s.cluster.servers[id].disk)]);
    RestartDataOk(gh, s, id, p);
    gh' := ActionSafe(s.cluster, Restart(id, p), s'.cluster, gh);
    SameSetup(gh, gh');
    assert gh'.payload == gh.payload;
    RestartedAt(gh', s'.cluster, gh.voters, p, id, s.cluster.servers[id].disk);
    RestartedReplica(gh', s'.cluster, id);
    OtherReplicas(gh, gh', s, s', id);
    SameLengths(s);
    AnswersGrow(gh, gh', s, s');
    ClientsSame(s, s');
  }

  lemma RestartDataOk(gh: Ghost, s: Sys, id: nat, p: Params)
    ensures DataOk(gh, s.cluster, Restart(id, p))
  {
  }

  /** A node just restarted has applied exactly its snapshot. */
  lemma RestartedAt(gh: Ghost, c: State, voters: seq<nat>, p: Params, id: nat, d: Disk)
    requires ClusterInv(c, gh) && Alive(c, id) && NodeOf(c, id) == NewNode(p, voters, Load(d))
    ensures NodeOf(c, id).lastApplied == NodeOf(c, id).log.snapIndex
  {
    hide GhostInv, LogInv, Full, Owes, IsCommitted, MsgInv, AppendAll;
    assert ServerInv(gh, id, c.servers[id]);
    var b := Blank(p, voters, d.hs);
    var s1 := if d.snap.Some? then LoadSnapshot(b, d.snap.value) else b;
    AppendAllGrows(s1, d.entries);
    AppendAllApplied(s1, d.entries);
  }

  lemma {:induction false} AppendAllApplied(s: NodeState, ents: seq<Entry>)
    ensures AppendAll(s, ents).lastApplied == s.lastApplied
  {
    if ents != [] {
      AppendAllApplied(s, ents[..|ents| - 1]);
    }
  }

  // ---- The course of a step

  /** Whatever course a step takes, it keeps the system's invariant. */
  lemma CourseSafe(gh: Ghost, s: Sys, id: nat, i: Input, how: Course) returns (gh': Ghost)
    requires SysInv(gh, s) && Alive(s.cluster, id) && id in s.apps && FairInput(s, id, i) && MayGo(s, id, i, how)
    ensures SysInv(gh', Gone(s, id, i, how)) && Ext(gh, gh') && Gone(s, id, i, how).apps.Keys == s.apps.Keys
  {
    hide SysInv, Ext, Step, AppOutput, IsSnapshot;
    if how.crash {
      gh' := CrashSafe(gh, s, id);
    } else {
      var t := WithStep(s, id, i);
      gh' := ServerStepSafe(gh, s, id, i);
      if how.snapshot.Some? {
        var gh1 := gh';
        if how.crashAgain {
          gh' := CrashSafe(gh1, t, id);
        } else {
          gh' := ServerStepSafe(gh1, t, id, SnapshotInput(NodeOf(t.cluster, id), how.snapshot.value));
        }
        ExtTrans(gh, gh1, gh');
      }
    }
  }

  // ---- Serving a request

  /** A false answer claims nothing. */
  lemma RefusalSafe(gh: Ghost, s: Sys, r: Response)
    requires SysInv(gh, s) && (r.ok ==> Truth(gh, r))
    ensures SysInv(gh, WithResponse(s, r))
  {
    hide ClusterInv, ClientsInv, PayloadInv, Truth;
    var s' := WithResponse(s, r);
    assert Truth(gh, r) by {
      NotOk(gh, r);
    }
    ExtSelf(gh);
    SameLengths(s);
    AnswersGrow(gh, gh, s, s');
    ClientsSame(s, s');
    SameReplicas(gh, s, s');
  }

  lemma NotOk(gh: Ghost, r: Response)
    requires r.ok ==> Truth(gh, r)
    ensures Truth(gh, r)
  {
  }

  lemma SameReplicas(gh: Ghost, s: Sys, s': Sys)
    requires ReplicasInv(gh, s) && s'.cluster == s.cluster && s'.apps.Keys == s.apps.Keys
    requires forall id :: id in s.apps ==> s'.apps[id].store == s.apps[id].store
    ensures ReplicasInv(gh, s')
  {
    hide LogInv, Full, StoreAfter;
    forall id | id in s'.apps ensures ReplicaInv(gh, s', id) {
      assert ReplicaInv(gh, s, id);
    }
  }

  /** Who waits where makes no difference. */
  lemma PendingSafe(gh: Ghost, s: Sys, id: nat, client: nat, seqno: nat)
    requires SysInv(gh, s) && id in s.apps
    ensures SysInv(gh, WithPending(s, id, client, seqno))
  {
    hide ClusterInv, ClientsInv, PayloadInv, Truth, Ext;
    var s' := WithPending(s, id, client, seqno);
    ExtSelf(gh);
    SameLengths(s);
    AnswersGrow(gh, gh, s, s');
    ClientsSame(s, s');
    SameReplicas(gh, s, s');
  }

  /** An answer from the session cache is the truth, wherever it is given. */
  lemma CachedTruth(gh: Ghost, s: Sys, id: nat, cmd: Command, res: Result)
    requires SysInv(gh, s) && Alive(s.cluster, id) && id in s.apps
    requires Cached(s.apps[id].store, cmd.client, cmd.seqno) == Some(res)
    ensures Truth(gh, Response(cmd.client, cmd.seqno, res, true, 0))
  {
    hide GhostInv, ServerInv, MsgInv, ClientsInv, PayloadInv, AnswersInv, LogInv, Full, IsCommitted, Cached, Answers,
         Commands;
    var n := NodeOf(s.cluster, id);
    NodeBounds(gh, s.cluster, id);
    assert ReplicaInv(gh, s, id);
    var f := Full(gh.tlog, n.log);
    IsCommittedLess(gh, f[..n.commitIndex], n.term, n.lastApplied);
    assert f[..n.commitIndex][..n.lastApplied] == f[..n.lastApplied];
    CachedAnswers(Commands(f[..n.lastApplied]), cmd.client, cmd.seqno, res);
  }

  lemma ServeSafe(gh: Ghost, s: Sys, req: Request, how: Course, s': Sys) returns (gh': Ghost)
    requires SysInv(gh, s) && req in s.requests && req.target in s.cluster.servers && req.target in s.apps
    requires Served(s, req, how, s')
    ensures SysInv(gh', s') && Ext(gh, gh')
  {
    hide SysInv, Ext, Truth, Gone, MayGo, Step, EncodeCommand, Cached;
    var id, cmd := req.target, req.cmd;
    gh' := gh;
    ExtSelf(gh);
    if !Alive(s.cluster, id) {
      RefusalSafe(gh, s, Response(cmd.client, cmd.seqno, NO_RESULT, false, 0));
    } else {
      var node, hit := NodeOf(s.cluster, id), Cached(s.apps[id].store, cmd.client, cmd.seqno);
      if hit.Some? {
        CachedTruth(gh, s, id, cmd, hit.value);
        RefusalSafe(gh, s, Response(cmd.client, cmd.seqno, hit.value, true, 0));
      } else if node.role != Leader {
        RefusalSafe(gh, s, Response(cmd.client, cmd.seqno, NO_RESULT, false, node.leaderID));
      } else {
        gh' := ProposedSafe(gh, s, req, how);
        var out := Step(node, Propose(EncodeCommand(cmd))).out;
        var t := Gone(s, id, Propose(EncodeCommand(cmd)), how);
        if out.reply.Some? && out.reply.value.ok {
          PendingSafe(gh', t, id, cmd.client, cmd.seqno);
        } else {
          RefusalSafe(gh', t, Response(cmd.client, cmd.seqno, NO_RESULT, false,
              if out.reply.Some? then out.reply.value.leaderHint else 0));
        }
      }
    }
  }

  lemma ProposedSafe(gh: Ghost, s: Sys, req: Request, how: Course) returns (gh': Ghost)
    requires SysInv(gh, s) && req in s.requests && Alive(s.cluster, req.target) && req.target in s.apps
    requires MayGo(s, req.target, Propose(EncodeCommand(req.cmd)), how)
    ensures var t := Gone(s, req.target, Propose(EncodeCommand(req.cmd)), how);
      Ext(gh, gh') && SysInv(gh', t) && t.apps.Keys == s.apps.Keys
  {
    hide SysInv, Ext, Step, EncodeCommand, MayGo, Gone;
    RequestIssued(gh, s, req);
    assert FairInput(s, req.target, Propose(EncodeCommand(req.cmd)));
    gh' := CourseSafe(gh, s, req.target, Propose(EncodeCommand(req.cmd)), how);
  }

  lemma RequestIssued(gh: Ghost, s: Sys, req: Request)
    requires SysInv(gh, s) && req in s.requests
    ensures Issued(s.history, s.seqs, req.cmd) && CommandFits(req.cmd)
  {
    hide ClusterInv, PayloadInv, AnswersInv, ReplicasInv, CommandFits;
    assert Issued(s.history, s.seqs, req.cmd);
    var i :| 0 <= i < |s.history| && i < |s.seqs| && req.cmd == CommandOf(s.history[i], s.seqs[i]);
    assert OpInv(s, i);
  }

  // ---- What clients do

  /** Every recorded operation is still there, with its command and its invocation. */
  ghost predicate Continues(history: seq<LinOp>, seqs: seq<nat>, history': seq<LinOp>, seqs': seq<nat>) {
    && |history| == |seqs| <= |history'| == |seqs'|
    && forall i :: 0 <= i < |history| ==>
      && seqs'[i] == seqs[i] && history'[i].invoke == history[i].invoke
      && CommandOf(history'[i], seqs[i]) == CommandOf(history[i], seqs[i])
  }

  lemma IssuedContinues(history: seq<LinOp>, seqs: seq<nat>, history': seq<LinOp>, seqs': seq<nat>, c: Command,
      time: int)
    requires Continues(history, seqs, history', seqs')
    ensures Issued(history, seqs, c) ==> Issued(history', seqs', c)
    ensures IssuedBy(history, seqs, c, time) ==> IssuedBy(history', seqs', c, time)
  {
    hide CommandOf;
    if i :| 0 <= i < |history| && i < |seqs| && c == CommandOf(history[i], seqs[i]) {
      assert c == CommandOf(history'[i], seqs'[i]);
    }
    if i :| 0 <= i < |history| && i < |seqs| && c == CommandOf(history[i], seqs[i]) && history[i].invoke <= time {
      assert c == CommandOf(history'[i], seqs'[i]) && history'[i].invoke <= time;
    }
  }

  lemma PayloadContinues(payload: set<seq<byte>>, history: seq<LinOp>, seqs: seq<nat>, history': seq<LinOp>,
      seqs': seq<nat>)
    requires PayloadInv(payload, history, seqs) && Continues(history, seqs, history', seqs')
    ensures PayloadInv(payload, history', seqs')
  {
    hide Issued, CommandFits, EncodeCommand, Continues;
    forall d | d in payload ensures exists c :: d == EncodeCommand(c) && CommandFits(c) && Issued(history', seqs', c) {
      var c :| d == EncodeCommand(c) && CommandFits(c) && Issued(history, seqs, c);
      IssuedContinues(history, seqs, history', seqs', c, 0);
    }
  }

  lemma DoneContinues(gh: Ghost, history: seq<LinOp>, seqs: seq<nat>, history': seq<LinOp>, seqs': seq<nat>, i: nat)
    requires Continues(history, seqs, history', seqs') && i < |history| && Done(gh, history, seqs, i)
    requires history'[i] == history[i]
    ensures i < |history'| && i < |seqs'| && Done(gh, history', seqs', i)
  {
    hide IsCommitted, Commands, CommandOf, IssuedBy, AnsweredAt;
    var es, t :| IsCommitted(gh, es, t) && DoneBy(Commands(es), history, seqs, i);
    forall c | c in Commands(es) ensures IssuedBy(history', seqs', c, history[i].response) {
      IssuedContinues(history, seqs, history', seqs', c, history[i].response);
    }
    assert DoneBy(Commands(es), history', seqs', i);
  }

  ghost predicate NewlyDone(s: Sys, s': Sys, i: nat)
    requires i < |s'.history|
  {
    s'.history[i].complete && (i < |s.history| ==> s'.history[i] != s.history[i])
  }

  /** A change of the clients' side only. */
  lemma ClientSide(gh: Ghost, s: Sys, s': Sys)
    requires SysInv(gh, s)
    requires s'.cluster == s.cluster && s'.apps == s.apps && s'.responses == s.responses && s'.notes == s.notes
    requires ClientsInv(s') && Continues(s.history, s.seqs, s'.history, s'.seqs)
    requires forall i :: 0 <= i < |s'.history| && NewlyDone(s, s', i) ==> Done(gh, s'.history, s'.seqs, i)
    ensures SysInv(gh, s')
  {
    hide ClusterInv, ClientsInv, PayloadInv, Truth, Done, ReplicaInv, NotesInv;
    SameLengths(s);
    SameLengths(s');
    PayloadContinues(gh.payload, s.history, s.seqs, s'.history, s'.seqs);
    forall i | 0 <= i < |s'.history| && s'.history[i].complete ensures Done(gh, s'.history, s'.seqs, i) {
      if i < |s.history| && s'.history[i] == s.history[i] {
        DoneContinues(gh, s.history, s.seqs, s'.history, s'.seqs, i);
      }
    }
    SameReplicasHere(gh, s, s');
  }

  lemma SameReplicasHere(gh: Ghost, s: Sys, s': Sys)
    requires ReplicasInv(gh, s) && s'.cluster == s.cluster && s'.apps == s.apps
    ensures ReplicasInv(gh, s')
  {
    SameReplicas(gh, s, s');
  }

  lemma InvokeSafe(gh: Ghost, s: Sys, client: nat, op: LinOp, s': Sys)
    requires SysInv(gh, s) && client in s.clients && !s.clients[client].inflight && JustInvoked(op, client, s.now)
    requires CommandFits(CommandOf(op, s.clients[client].seqno + 1)) && s' == AfterInvoke(s, client, op)
    ensures SysInv(gh, s')
  {
    InvokedClients(s, client, op, s');
    SameLengths(s);
    hide SysInv, ClientsInv, Done, CommandOf;
    ClientSide(gh, s, s');
  }

  lemma InvokedClients(s: Sys, client: nat, op: LinOp, s': Sys)
    requires ClientsInv(s) && client in s.clients && !s.clients[client].inflight && JustInvoked(op, client, s.now)
    requires CommandFits(CommandOf(op, s.clients[client].seqno + 1)) && s' == AfterInvoke(s, client, op)
    ensures ClientsInv(s')
  {
    hide CommandFits, CommandOf;
    forall i | 0 <= i < |s'.history| ensures OpInv(s', i) {
      if i < |s.history| {
        assert OpInv(s, i);
      }
    }
    forall i, j | 0 <= i < j < |s'.history| && j < |s'.seqs|
      ensures !(s'.history[i].client == s'.history[j].client && s'.seqs[i] == s'.seqs[j])
    {
      assert OpInv(s, i);
    }
    forall id | id in s'.clients ensures ClientInv(s', id) {
      if id != client {
        assert ClientInv(s, id);
      }
    }
    forall r | r in s'.requests ensures Issued(s'.history, s'.seqs, r.cmd) {
      IssuedContinues(s.history, s.seqs, s'.history, s'.seqs, r.cmd, 0);
    }
  }

  lemma SendReqSafe(gh: Ghost, s: Sys, client: nat, target: nat)
    requires SysInv(gh, s) && client in s.clients && s.clients[client].inflight
    ensures SysInv(gh, s.(requests := s.requests + {Request(target, s.clients[client].cmd)}))
  {
    var s' := s.(requests := s.requests + {Request(target, s.clients[client].cmd)});
    assert ClientsInv(s') by {
      hide CommandFits, CommandOf, ClusterInv, PayloadInv, AnswersInv, ReplicasInv;
      assert ClientInv(s, client);
      forall i | 0 <= i < |s'.history| ensures OpInv(s', i) {
        assert OpInv(s, i);
      }
      forall id | id in s'.clients ensures ClientInv(s', id) {
        assert ClientInv(s, id);
      }
    }
    SameLengths(s);
    hide SysInv, ClientsInv, Done, CommandOf;
    ClientSide(gh, s, s');
  }

  lemma WaitSafe(gh: Ghost, s: Sys, time: Time)
    requires SysInv(gh, s) && time >= s.now
    ensures SysInv(gh, s.(now := time))
  {
    var s' := s.(now := time);
    assert ClientsInv(s') by {
      hide CommandFits, CommandOf, ClusterInv, PayloadInv, AnswersInv, ReplicasInv;
      forall i | 0 <= i < |s'.history| ensures OpInv(s', i) {
        assert OpInv(s, i);
      }
      forall id | id in s'.clients ensures ClientInv(s', id) {
        assert ClientInv(s, id);
      }
    }
    SameLengths(s);
    hide SysInv, ClientsInv, Done, CommandOf;
    ClientSide(gh, s, s');
  }

  /** An answer to the operation a client waits for is the answer of its fresh command. */
  lemma CurrentAnswer(gh: Ghost, s: Sys, r: Response, es: seq<Entry>, t: nat)
    requires GhostInv(gh) && ClientsInv(s) && PayloadInv(gh.payload, s.history, s.seqs)
    requires IsCommitted(gh, es, t) && Answers(Commands(es), r.client, r.seqno, r.res)
    requires r.client in s.clients && s.clients[r.client].seqno == r.seqno
    ensures exists k :: 0 <= k < |Commands(es)| && AnsweredAt(Commands(es), k, r.client, r.seqno, r.res)
    ensures forall c :: c in Commands(es) ==> IssuedBy(s.history, s.seqs, c, s.now)
  {
    hide GhostInv, PayloadInv, IsCommitted, Commands, AnsweredAt;
    forall c | c in Commands(es)
      ensures IssuedBy(s.history, s.seqs, c, s.now) && (c.client == r.client ==> c.seqno <= r.seqno)
    {
      CommittedIssued(gh, s.history, s.seqs, es, t, c);
      var i :| 0 <= i < |s.history| && i < |s.seqs| && c == CommandOf(s.history[i], s.seqs[i]);
      assert OpInv(s, i);
    }
    forall k | 0 <= k < |Commands(es)| ensures Commands(es)[k].client == r.client ==> Commands(es)[k].seqno <= r.seqno {
      assert Commands(es)[k] in Commands(es);
    }
  }

  ghost predicate Awaits(s: Sys, r: Response) {
    r.client in s.clients && s.clients[r.client].inflight && r.seqno == s.clients[r.client].seqno &&
    s.clients[r.client].histIdx < |s.history|
  }

  lemma DeliveredDone(gh: Ghost, s: Sys, r: Response, s': Sys)
    requires SysInv(gh, s) && r in s.responses && r.ok
    requires Awaits(s, r) && s' == AfterDeliver(s, r)
    ensures s.clients[r.client].histIdx < |s'.history| && |s'.seqs| == |s'.history| &&
        Done(gh, s'.history, s'.seqs, s.clients[r.client].histIdx)
  {
    hide GhostInv, PayloadInv, IsCommitted, Commands, AnsweredAt, IssuedBy, ServerInv, MsgInv, ReplicaInv, Answers;
    var c := s.clients[r.client];
    var i := c.histIdx;
    assert ClientInv(s, r.client);
    assert Truth(gh, r);
    var es, t :| IsCommitted(gh, es, t) && Answers(Commands(es), r.client, r.seqno, r.res);
    CurrentAnswer(gh, s, r, es, t);
    forall d | d in Commands(es) ensures IssuedBy(s'.history, s'.seqs, d, s.now) {
      IssuedContinues(s.history, s.seqs, s'.history, s'.seqs, d, s.now);
    }
    assert s'.history[i].response == s.now;
    assert Result(s'.history[i].outValue, s'.history[i].outOK) == r.res;
    assert DoneBy(Commands(es), s'.history, s'.seqs, i);
  }

  lemma DeliveredClients(s: Sys, r: Response, s': Sys)
    requires ClientsInv(s)
    requires Awaits(s, r) && s' == AfterDeliver(s, r)
    ensures ClientsInv(s') && Continues(s.history, s.seqs, s'.history, s'.seqs)
  {
    hide CommandFits;
    assert ClientInv(s, r.client);
    forall i | 0 <= i < |s'.history| ensures OpInv(s', i) {
      assert OpInv(s, i);
    }
    forall id | id in s'.clients ensures ClientInv(s', id) {
      assert ClientInv(s, id);
    }
    forall q | q in s'.requests ensures Issued(s'.history, s'.seqs, q.cmd) {
      IssuedContinues(s.history, s.seqs, s'.history, s'.seqs, q.cmd, 0);
    }
  }

  lemma ClientsOf(gh: Ghost, s: Sys)
    requires SysInv(gh, s)
    ensures ClientsInv(s) && |s.history| == |s.seqs|
  {
    hide ClusterInv, PayloadInv, ReplicasInv, AnswersInv;
  }

  /** An answer changes one client and one recorded operation. */
  lemma DeliveredOnly(s: Sys, r: Response, s': Sys)
    requires Awaits(s, r) && s' == AfterDeliver(s, r)
    ensures s'.cluster == s.cluster && s'.apps == s.apps && s'.responses == s.responses && s'.notes == s.notes
    ensures forall i :: 0 <= i < |s'.history| && NewlyDone(s, s', i) ==> i == s.clients[r.client].histIdx
  {
  }

  lemma DeliverSafe(gh: Ghost, s: Sys, r: Response, s': Sys)
    requires SysInv(gh, s) && r in s.responses && r.ok
    requires Awaits(s, r) && s' == AfterDeliver(s, r)
    ensures SysInv(gh, s')
  {
    hide SysInv, ClientsInv, Done, Continues, Awaits;
    ClientsOf(gh, s);
    DeliveredDone(gh, s, r, s');
    DeliveredClients(s, r, s');
    DeliveredOnly(s, r, s');
    ClientSide(gh, s, s');
  }

  // ---- Every event

  lemma NextSysSafe(gh: Ghost, s: Sys, ev: Event, s': Sys) returns (gh': Ghost)
    requires SysInv(gh, s) && NextSys(gh.voters, s, ev, s')
    ensures SysInv(gh', s') && Ext(gh, gh')
  {
    hide SysInv, Ext, Served, Gone, MayGo, WithCrash, Step, AfterRestart, Offers, JustInvoked, CommandFits,
         EncodeCommand;
    gh' := gh;
    ExtSelf(gh);
    match ev
    case ServerStep(id, i, how) => gh' := CourseSafe(gh, s, id, i, how);
    case ServerCrash(id) => gh' := CrashSafe(gh, s, id);
    case ServerRestart(id, p) => gh' := RestartSysSafe(gh, s, id, p);
    case Serve(req, how) => gh' := ServeSafe(gh, s, req, how, s');
    case Invoke(client, op) => InvokeSafe(gh, s, client, op, s');
    case Send(client, target) => SendReqSafe(gh, s, client, target);
    case Deliver(r) =>
      if s' != s {
        DeliverSafe(gh, s, r, s');
      }
    case Wait(time) => WaitSafe(gh, s, time);
  }

  lemma InitSysSafe(voters: seq<nat>, s: Sys)
    requires NoDuplicates(voters) && InitSys(voters, s)
    ensures SysInv(NoHistory(voters, RestoresReplay), s)
  {
    hide ClusterInv, NewNode;
    var gh := NoHistory(voters, RestoresReplay);
    InitSafe(voters, RestoresReplay, s.cluster);
    forall id | id in s.apps ensures ReplicaInv(gh, s, id) {
      InitialReplica(voters, gh, s, id);
    }
  }

  lemma InitialReplica(voters: seq<nat>, gh: Ghost, s: Sys, id: nat)
    requires InitSys(voters, s) && id in s.apps
    ensures ReplicaInv(gh, s, id)
  {
    hide LogInv, Full;
    forall f: seq<Entry> ensures StoreAfter(f[..0]) == EMPTY_STORE {
      NothingReplayed(f);
    }
  }

  /** Every state of a run has a history that explains it, and the histories grow. */
  lemma {:induction false} SysRunSafe(voters: seq<nat>, r: SysRun, k: nat) returns (hs: seq<Ghost>)
    requires NoDuplicates(voters) && ValidSys(voters, r) && k < |r.states|
    ensures |hs| == k + 1
    ensures forall j :: 0 <= j <= k ==> hs[j].voters == voters && SysInv(hs[j], r.states[j]) && Ext(hs[j], hs[k])
  {
    hide SysInv, Ext, NextSys, InitSys;
    if k == 0 {
      InitSysSafe(voters, r.states[0]);
      hs := [NoHistory(voters, RestoresReplay)];
      ExtSelf(hs[0]);
    } else {
      var hq := SysRunSafe(voters, r, k - 1);
      assert NextSys(voters, r.states[k - 1], r.events[k - 1], r.states[k - 1 + 1]);
      var gh := NextSysSafe(hq[k - 1], r.states[k - 1], r.events[k - 1], r.states[k]);
      hs := hq + [gh];
      SameSetup(hq[k - 1], gh);
      ExtSelf(gh);
      forall j | 0 <= j <= k ensures hs[j].voters == voters && SysInv(hs[j], r.states[j]) && Ext(hs[j], gh) {
        if j < k {
          ExtTrans(hq[j], hq[k - 1], gh);
        }
      }
    }
  }
}
