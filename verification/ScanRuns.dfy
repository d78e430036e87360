/** The incremental scan against the full one, over Steps, events and runs. */
module ScanRuns {
  import opened RaftTypes
  import opened LogSpec
  import opened ConfSpec
  import opened NodeSpec
  import opened DiskRefinement
  import opened ChainScan
  import opened Ghosts
  import opened SafetyInv
  import opened SafetyLogs
  import opened Cluster
  import opened ClusterSafety
  import opened ClusterTheorems
  import Membership
  import ConfReplay

  // ---- One Step

  /** After one Step, and after the snapshot of the application that may follow it at once, the terms tell what
      changed. */
  lemma StepTells(s: NodeState, i: Input)
    requires WellFormed(s) && s.lastApplied <= s.commitIndex && !Step(s, i).panicked
    ensures s.log.snapIndex <= Step(s, i).log.snapIndex && TermsTell(s.log, Step(s, i).log)
  {
    hide Step, ConfReplay.ConfWellFormed, WellFormed, BaseTracks;
    Membership.StepTracks(s, i);
    ChangeTells(s.log, Step(s, i).log, Step(s, i).dirty);
  }

  lemma ChangeTells(l0: Log, l: Log, dirty: Dirty)
    requires LogChange(l0, l, dirty)
    ensures l0.snapIndex <= l.snapIndex && TermsTell(l0, l)
  {
    if dirty.snap.None? && dirty.appendedFrom != 0 {
      TailTells(l0, l, dirty.appendedFrom);
    }
  }

  lemma TailTells(l0: Log, l: Log, a: nat)
    requires NewTail(l0, l, a) && l.snapTerm == l0.snapTerm
    ensures TermsTell(l0, l)
  {
    forall i | l0.snapIndex < i <= l0.LastIndex() && l.snapIndex < i <= l.LastIndex() && SameTerms(l0, l, i)
      ensures SameAt(l0, l, i)
    {
      BeforeTail(l0, l, a, i);
      TailBelow(l0, l, a, i);
      if i - 1 > l0.snapIndex {
        TailBelow(l0, l, a, i - 1);
      }
    }
  }

  lemma BeforeTail(l0: Log, l: Log, a: nat, i: nat)
    requires NewTail(l0, l, a) && i <= l0.LastIndex() && SameTerms(l0, l, i)
    ensures i < a
  {
    assert a <= i ==> l.Term(a) == l0.Term(a);
  }

  lemma TailBelow(l0: Log, l: Log, a: nat, i: nat)
    requires NewTail(l0, l, a) && l0.snapIndex < i < a
    ensures i <= l0.LastIndex() && i <= l.LastIndex() && EntryOf(l, i) == EntryOf(l0, i) && l.Term(i) == l0.Term(i)
  {
    var k, m := i - l0.snapIndex - 1, a - l0.snapIndex - 1;
    assert l.entries[k] == l.entries[..m][k] == l0.entries[..m][k] == l0.entries[k];
  }

  /** After any one Step, on any input, scanning from the resume point finds what scanning the whole log would. */
  lemma StepScansInFull(h: Fingerprint, node: nat, s: NodeState, i: Input, t: Track, chain: Chain)
    requires WellFormed(s) && s.lastApplied <= s.commitIndex && !Step(s, i).panicked
    requires t == Observed(t, s.log) && Recorded(h, chain, s.log)
    ensures var l := Step(s, i).log;
      Scan(h, node, l, ResumeAt(t, l), chain) == Scan(h, node, l, l.FirstIndex(), chain)
  {
    hide Step, WellFormed, Observed, Recorded, TermsTell, ResumeAt;
    StepTells(s, i);
    IncrementalIsFull(h, node, s.log, Step(s, i).log, t, chain);
  }

  /** Compacting afterwards hides nothing as long as the terms up to the new snapshot point have not changed. */
  lemma CompactTells(l0: Log, l: Log, i: nat, t: nat)
    requires TermsTell(l0, l) && l0.snapIndex <= l.snapIndex < i <= l.LastIndex() && l.Term(i) == Some(t)
    requires SameTerms(l0, l, i)
    ensures TermsTell(l0, l.Compact(i, t))
  {
    var c := l.Compact(i, t);
    forall j: nat | c.snapIndex <= j ensures c.Term(j) == l.Term(j) {
    }
    forall j | l0.snapIndex < j <= l0.LastIndex() && c.snapIndex < j <= c.LastIndex() && SameTerms(l0, c, j)
      ensures SameAt(l0, c, j)
    {
      forall k: nat | l0.snapIndex < k <= j && l.snapIndex < k ensures l.Term(k) == l0.Term(k) {
        if k > i {
          assert c.Term(k) == l0.Term(k);
        }
      }
      assert SameAt(l0, l, j);
    }
  }

  // ---- One event

  /** Two entries in a row, of terms t and u. */
  function TwoEntries(t: nat, u: nat, x: seq<byte>): seq<Entry> {
    [Entry(1, t, Normal, x), Entry(2, u, Normal, x)]
  }

  /** A server restarted in term 3 with entries of terms 1 and 3. */
  function Before(p: Params, voters: seq<nat>, x: seq<byte>): NodeState {
    NewNode(p, voters, Restore(HardState(3, NONE), None, TwoEntries(1, 3, x)))
  }

  lemma BeforeIs(p: Params, voters: seq<nat>, x: seq<byte>)
    ensures var s := Before(p, voters, x);
      && s.role == Follower && s.term == 3 && s.log == Log(0, 0, TwoEntries(1, 3, x)) && s.p.id == p.id
      && s.commitIndex == 0 && s.lastApplied == 0 && !s.panicked
  {
    var ents := TwoEntries(1, 3, x);
    var s0 := Blank(p, voters, HardState(3, NONE));
    AppendsTwo(s0, ents);
  }

  lemma AppendsTwo(s: NodeState, ents: seq<Entry>)
    requires s.log == Log(0, 0, []) && !s.panicked && |ents| == 2
    requires ents[0].index == 1 && ents[1].index == 2 && ents[0].typ == Normal && ents[1].typ == Normal
    ensures AppendAll(s, ents) == s.(log := Log(0, 0, ents))
  {
    AppendAllPlain(s, ents);
    assert [] + ents == ents;
  }

  /** What the leader of term 3 sends: entries of terms 2 and 3, the first of them committed. */
  function Replacing(from: nat, to: nat, x: seq<byte>): Message {
    App(from, to, 3, 0, 0, TwoEntries(2, 3, x), 1)
  }

  lemma ReplacesEntries(s: NodeState, from: nat, x: seq<byte>)
    requires s.role == Follower && s.term == 3 && s.log == Log(0, 0, TwoEntries(1, 3, x))
    requires s.commitIndex == 0 && s.lastApplied == 0 && !s.panicked
    ensures var t := Step(s, Receive(Replacing(from, s.p.id, x)));
      t.log == Log(0, 0, TwoEntries(2, 3, x)) && t.lastApplied == 1 && t.commitIndex == 1 && !t.panicked
  {
    var m := Replacing(from, s.p.id, x);
    var b := FollowLeader(Begin(s), 3, from);
    var ents := TwoEntries(2, 3, x);
    assert m.entries[0..] == ents;
    assert AcceptEntries(b, ents).log == Log(0, 0, ents) && AcceptEntries(b, ents).commitIndex == 0
      && AcceptEntries(b, ents).lastApplied == 0 && !AcceptEntries(b, ents).panicked by {
      AcceptsReplacing(b, x);
    }
    hide AcceptEntries, PersistOf;
    assert Handle(Begin(s), Receive(m)) == HandleAppFrom(b, m, 0, ents);
  }

  lemma AcceptsReplacing(s: NodeState, x: seq<byte>)
    requires s.log == Log(0, 0, TwoEntries(1, 3, x)) && s.commitIndex == 0 && s.lastApplied == 0 && !s.panicked
    ensures var t := AcceptEntries(s, TwoEntries(2, 3, x));
      t.log == Log(0, 0, TwoEntries(2, 3, x)) && t.commitIndex == 0 && t.lastApplied == 0 && !t.panicked
  {
    hide AppendAll, TruncateConf;
    var ents := TwoEntries(2, 3, x);
    assert FirstConflict(s.log, ents, 0) == 0;
    assert ents[0..] == ents;
    var t := s.(log := s.log.TruncateFrom(1), conf := TruncateConf(s.conf, 1));
    assert t.log == Log(0, 0, []);
    AppendsTwo(t, ents);
  }

  lemma ThenCompacts(s: NodeState, x: seq<byte>, data: seq<byte>)
    requires s.log == Log(0, 0, TwoEntries(2, 3, x)) && s.lastApplied == 1 && !s.panicked
    ensures var t := Step(s, CreateSnapshot(1, data));
      t.log == Log(1, 2, [Entry(2, 3, Normal, x)]) && !t.panicked
  {
    hide PersistOf, PruneConf, ConfigAt;
    assert s.log.entries[1..] == [Entry(2, 3, Normal, x)];
  }

  lemma HiddenByScan(h: Fingerprint, node: nat, x: seq<byte>)
    ensures var l0, l := Log(0, 0, TwoEntries(1, 3, x)), Log(1, 2, [Entry(2, 3, Normal, x)]);
      var t := Observed(Track(0, None), l0);
      var chain := Scan(h, node, l0, 1, map[]).chain;
      && Recorded(h, chain, l0)
      && Scan(h, node, l, ResumeAt(t, l), chain).violations == []
      && Scan(h, node, l, l.FirstIndex(), chain).violations == [Mismatch(node, 2, 3)]
  {
    var l0, l := Log(0, 0, TwoEntries(1, 3, x)), Log(1, 2, [Entry(2, 3, Normal, x)]);
    var t := Observed(Track(0, None), l0);
    assert TermsOf(l0)[0] == 1 && TermsOf(l0)[1] == 3;
    assert TermsOf(l0) == [1, 3];
    var v1, v2 := ChainVal(h(Normal, x), 0), ChainVal(h(Normal, x), 1);
    var c1 := map[(1, 1) := v1];
    var c2 := c1[(2, 3) := v2];
    assert Scan(h, node, l0, 3, c2) == Found(c2, []);
    assert Scan(h, node, l0, 2, c1) == Found(c2, []);
    assert Scan(h, node, l0, 1, map[]) == Found(c2, []);
    assert FirstDifference(1, [1, 3], l, 3) == 3;
    assert FirstDifference(1, [1, 3], l, 2) == 3;
    assert ResumeAt(t, l) == 3;
    assert Scan(h, node, l, 3, c2) == Found(c2, []);
    assert ValueAt(h, l, 2) == ChainVal(h(Normal, x), 2);
  }

  /**
   * An event can hide a violation: a Step replaces entries, and the snapshot taken at once compacts past the first
   * replaced one. The terms above look unchanged, and the incremental scan misses what a full scan finds.
   */
  lemma CompactionCanHide(h: Fingerprint, p: Params, voters: seq<nat>, from: nat, x: seq<byte>, data: seq<byte>)
    ensures var s := Before(p, voters, x);
      var u := Step(Step(s, Receive(Replacing(from, p.id, x))), CreateSnapshot(1, data));
      var t := Observed(Track(0, None), s.log);
      var chain := Scan(h, p.id, s.log, s.log.FirstIndex(), map[]).chain;
      && !s.panicked && !u.panicked && Recorded(h, chain, s.log)
      && Scan(h, p.id, u.log, ResumeAt(t, u.log), chain).violations == []
      && Scan(h, p.id, u.log, u.log.FirstIndex(), chain).violations == [Mismatch(p.id, 2, 3)]
  {
    hide Before, Step, Scan, Observed, ResumeAt, Recorded;
    var s := Before(p, voters, x);
    BeforeIs(p, voters, x);
    ReplacesEntries(s, from, x);
    ThenCompacts(Step(s, Receive(Replacing(from, p.id, x))), x, data);
    HiddenByScan(h, p.id, x);
  }

  // ---- Runs of fixed voters, where log matching leaves nothing to hide

  /** Logs of one history that show the same terms hold the same entries. */
  lemma HistoryTells(tlog: Logs, l0: Log, l: Log)
    requires TermLogs(tlog) && LogInv(tlog, l0) && LogInv(tlog, l)
    ensures TermsTell(l0, l)
  {
    hide TermLogs, LogInv, Full, TermAt;
    forall i | l0.snapIndex < i <= l0.LastIndex() && l.snapIndex < i <= l.LastIndex() && SameTerms(l0, l, i)
      ensures SameAt(l0, l, i)
    {
      assert l.Term(i) == l0.Term(i);
      LogsMatch(tlog, l0, l, i);
      MatchedSame(tlog, l0, l, i);
    }
  }

  lemma MatchedSame(tlog: Logs, l0: Log, l: Log, i: nat)
    requires LogInv(tlog, l0) && LogInv(tlog, l) && Agree(Full(tlog, l0), Full(tlog, l), i)
    requires l0.snapIndex < i <= l0.LastIndex() && l.snapIndex < i <= l.LastIndex()
    ensures SameAt(l0, l, i)
  {
    hide LogInv, Full;
    var f0, f := Full(tlog, l0), Full(tlog, l);
    EntriesInFull(tlog, l0);
    EntriesInFull(tlog, l);
    AgreeLess(f0, f, i, i);
    assert l0.entries[i - l0.snapIndex - 1] == f0[i - 1] && l.entries[i - l.snapIndex - 1] == f[i - 1];
    TermInFull(tlog, l0, i - 1);
    TermInFull(tlog, l, i - 1);
    if i > 1 {
      AgreeLess(f0, f, i, i - 1);
      assert f0[i - 2] == f[i - 2];
    }
  }

  /** A snapshot point on disk never goes back. */
  lemma {:induction false} SnapshotsAdvance(voters: seq<nat>, r: Run, j: nat, k: nat, a: nat)
    requires NoDuplicates(voters) && Valid(voters, r) && j <= k < |r.states| && a in r.states[j].servers
    ensures a in r.states[k].servers
    ensures DiskLog(r.states[j].servers[a].disk).snapIndex <= DiskLog(r.states[k].servers[a].disk).snapIndex
  {
    hide Valid, DiskLog;
    if j < k {
      SnapshotsAdvance(voters, r, j, k - 1, a);
      SnapshotAdvances(voters, r, k - 1, a);
    }
  }

  lemma SnapshotAdvances(voters: seq<nat>, r: Run, k: nat, a: nat)
    requires NoDuplicates(voters) && Valid(voters, r) && k + 1 < |r.states| && a in r.states[k].servers
    ensures a in r.states[k + 1].servers
    ensures DiskLog(r.states[k].servers[a].disk).snapIndex <= DiskLog(r.states[k + 1].servers[a].disk).snapIndex
  {
    hide DiskLog, Step, NewNode, Fsync, Offers, Init;
    var c, c', act := r.states[k], r.states[k + 1], r.actions[k];
    assert Next(voters, c, act, c');
    if act.StepAt? && act.id == a {
      StepAdvances(voters, r, k, a, act.input);
    }
  }

  lemma StepAdvances(voters: seq<nat>, r: Run, k: nat, a: nat, i: Input)
    requires NoDuplicates(voters) && Valid(voters, r) && k + 1 < |r.states| && Alive(r.states[k], a)
    requires Alive(r.states[k + 1], a) && NodeOf(r.states[k + 1], a) == Step(NodeOf(r.states[k], a), i)
    ensures DiskLog(r.states[k].servers[a].disk).snapIndex <= DiskLog(r.states[k + 1].servers[a].disk).snapIndex
  {
    hide Valid, DiskLog, Step, ClusterInv, NodeInv, TermLogs;
    var hs := RunExplained(voters, r);
    LiveLogIsDurable(voters, r, k, a);
    LiveLogIsDurable(voters, r, k + 1, a);
    LiveIsView(hs[k], r.states[k], a);
    LiveIsView(hs[k + 1], r.states[k + 1], a);
    var s := NodeOf(r.states[k], a);
    NodeLog(hs[k], s);
    NotPanicked(hs[k + 1], Step(s, i));
    AppliedBelow(hs[k], s);
    StepTells(s, i);
  }

  lemma AppliedBelow(gh: Ghost, s: NodeState)
    requires NodeInv(gh, s)
    ensures s.lastApplied <= s.commitIndex
  {
    hide LogInv, Full, Owes, IsCommitted;
  }

  /**
   * In every run of fixed voters, scanning a server's log from the resume point finds the same violations and leaves the
   * same map as scanning all of it, whatever happened since the server was last observed and its log recorded.
   */
  lemma ScansInFullInRuns(h: Fingerprint, voters: seq<nat>, r: Run, j: nat, k: nat, a: nat, t: Track, chain: Chain)
    requires NoDuplicates(voters) && Valid(voters, r) && j <= k < |r.states|
    requires a in r.states[j].servers && a in r.states[k].servers
    requires var l0 := DiskLog(r.states[j].servers[a].disk); t == Observed(t, l0) && Recorded(h, chain, l0)
    ensures var l := DiskLog(r.states[k].servers[a].disk);
      Scan(h, a, l, ResumeAt(t, l), chain) == Scan(h, a, l, l.FirstIndex(), chain)
  {
    hide Valid, ClusterInv, DiskLog, TermLogs, LogInv, Full, TermsTell, Observed, Recorded, ResumeAt;
    var l0, l := DiskLog(r.states[j].servers[a].disk), DiskLog(r.states[k].servers[a].disk);
    var hs := RunExplained(voters, r);
    DurableLog(hs[j], r.states[j], a);
    DurableLog(hs[k], r.states[k], a);
    LogInvGrows(hs[j], hs[k], l0);
    HistoryTells(hs[k].tlog, l0, l);
    SnapshotsAdvance(voters, r, j, k, a);
    IncrementalIsFull(h, a, l0, l, t, chain);
  }

  // ---- No violation in any run of fixed voters

  /** What the map holds for an index and term is what some leader's log has there. */
  ghost predicate KeyTrue(h: Fingerprint, tlog: Logs, key: (nat, nat), val: ChainVal) {
    exists T :: T in tlog && 1 <= key.0 <= |tlog[T]| && tlog[T][key.0 - 1].term == key.1
      && val == ValueIn(h, tlog[T], key.0)
  }

  ghost function ValueIn(h: Fingerprint, f: seq<Entry>, i: nat): ChainVal
    requires 1 <= i <= |f|
  {
    ChainVal(h(f[i - 1].typ, f[i - 1].data), TermAt(f, i - 1))
  }

  ghost predicate ChainTrue(h: Fingerprint, tlog: Logs, chain: Chain) {
    forall key :: key in chain ==> KeyTrue(h, tlog, key, chain[key])
  }

  /** Logs of one history have one content for an index and term. */
  lemma OneValue(h: Fingerprint, tlog: Logs, T: nat, U: nat, i: nat)
    requires TermLogs(tlog) && T in tlog && U in tlog && 1 <= i <= |tlog[T]| && i <= |tlog[U]|
    requires tlog[T][i - 1].term == tlog[U][i - 1].term
    ensures ValueIn(h, tlog[T], i) == ValueIn(h, tlog[U], i)
  {
    hide TermLogs;
    TermsMatch(tlog, T, U, i);
    assert tlog[T][..i][i - 1] == tlog[U][..i][i - 1];
    if i > 1 {
      assert tlog[T][..i][i - 2] == tlog[U][..i][i - 2];
    }
  }

  /** An entry of a log of the history, as the scan sees it. */
  lemma SeenInHistory(h: Fingerprint, tlog: Logs, l: Log, i: nat)
    requires LogInv(tlog, l) && l.snapIndex < i <= l.LastIndex()
    ensures var T := l.LastTerm();
      && T in tlog && i <= |tlog[T]| && KeyAt(l, i) == (i, tlog[T][i - 1].term)
      && ValueAt(h, l, i) == ValueIn(h, tlog[T], i)
  {
    var f, L := Full(tlog, l), tlog[l.LastTerm()];
    assert l.entries[i - l.snapIndex - 1] == L[i - 1];
    TermInFull(tlog, l, i - 1);
    if i > 1 {
      assert f[i - 2] == L[i - 2];
    }
  }

  /** Scanning a log of the history, from wherever, finds nothing, and leaves the map true. */
  lemma {:induction false} ScanTrue(h: Fingerprint, tlog: Logs, node: nat, l: Log, i: nat, chain: Chain)
    requires TermLogs(tlog) && LogInv(tlog, l) && ChainTrue(h, tlog, chain) && l.snapIndex < i
    ensures var r := Scan(h, node, l, i, chain); r.violations == [] && ChainTrue(h, tlog, r.chain)
    decreases l.LastIndex() + 1 - i
  {
    hide TermLogs, LogInv, KeyAt, ValueAt, ValueIn;
    if i <= l.LastIndex() {
      var key, val, T := KeyAt(l, i), ValueAt(h, l, i), l.LastTerm();
      SeenInHistory(h, tlog, l, i);
      assert KeyTrue(h, tlog, key, val);
      if key in chain {
        var U :| U in tlog && 1 <= key.0 <= |tlog[U]| && tlog[U][key.0 - 1].term == key.1
          && chain[key] == ValueIn(h, tlog[U], key.0);
        OneValue(h, tlog, T, U, i);
        ScanTrue(h, tlog, node, l, i + 1, chain);
      } else {
        ScanTrue(h, tlog, node, l, i + 1, chain[key := val]);
      }
    }
  }

  /** The checker looks at a server at some moment of a run, and scans its log from some index on. */
  datatype Look = Look(moment: nat, server: nat, from: nat)

  ghost predicate MayLook(r: Run, look: Look) {
    && look.moment < |r.states| && look.server in r.states[look.moment].servers
    && DiskLog(r.states[look.moment].servers[look.server].disk).snapIndex < look.from
  }

  /** What the checker has found, and what its map holds, after a number of looks. */
  ghost function Watched(h: Fingerprint, r: Run, looks: seq<Look>): Found
    requires forall look :: look in looks ==> MayLook(r, look)
  {
    if looks == [] then Found(map[], [])
    else
      var last := looks[|looks| - 1];
      assert MayLook(r, last);
      var before := Watched(h, r, looks[..|looks| - 1]);
      var l := DiskLog(r.states[last.moment].servers[last.server].disk);
      var now := Scan(h, last.server, l, last.from, before.chain);
      Found(now.chain, before.violations + now.violations)
  }

  lemma LookExplained(r: Run, hs: seq<Ghost>, look: Look)
    requires Explains(r, hs) && |hs| > 0 && MayLook(r, look)
    ensures var l := DiskLog(r.states[look.moment].servers[look.server].disk);
      var tlog := hs[|hs| - 1].tlog;
      LogInv(tlog, l) && TermLogs(tlog)
  {
    hide ClusterInv, DiskLog, TermLogs, LogInv, Full, NoReturn, NodeInv;
    var k, n := look.moment, |hs| - 1;
    DurableLog(hs[k], r.states[k], look.server);
    LogInvGrows(hs[k], hs[n], DiskLog(r.states[k].servers[look.server].disk));
    HistoryOf(hs[n], r.states[n]);
  }

  lemma HistoryOf(gh: Ghost, c: State)
    requires ClusterInv(c, gh)
    ensures TermLogs(gh.tlog)
  {
    hide TermLogs, ServerInv, MsgInv;
  }

  /**
   * In no run of fixed voters does the log-chain check report a violation, whichever servers are looked at in whatever
   * order, at whatever moments and from whatever index on: the resume points of the incremental scan among them.
   */
  lemma {:induction false} NoViolation(h: Fingerprint, voters: seq<nat>, r: Run, looks: seq<Look>)
    requires NoDuplicates(voters) && Valid(voters, r)
    requires forall look :: look in looks ==> MayLook(r, look)
    ensures Watched(h, r, looks).violations == []
  {
    hide Valid, Explains;
    var hs := RunExplained(voters, r);
    NotEmpty(voters, r, hs);
    WatchedTrue(h, r, hs, looks);
  }

  lemma NotEmpty(voters: seq<nat>, r: Run, hs: seq<Ghost>)
    requires Valid(voters, r) && Explains(r, hs)
    ensures |hs| > 0
  {
    hide ClusterInv, Next, Init;
  }

  lemma {:induction false} WatchedTrue(h: Fingerprint, r: Run, hs: seq<Ghost>, looks: seq<Look>)
    requires Explains(r, hs) && |hs| > 0 && forall look :: look in looks ==> MayLook(r, look)
    ensures var w := Watched(h, r, looks); w.violations == [] && ChainTrue(h, hs[|hs| - 1].tlog, w.chain)
  {
    hide Explains, MayLook, ChainTrue, TermLogs, LogInv, Scan, DiskLog;
    if looks == [] {
      NothingHeld(h, hs[|hs| - 1].tlog);
    } else {
      var last := looks[|looks| - 1];
      WatchedTrue(h, r, hs, looks[..|looks| - 1]);
      LooksAbove(r, last);
      LookExplained(r, hs, last);
      ScanTrue(h, hs[|hs| - 1].tlog, last.server, DiskLog(r.states[last.moment].servers[last.server].disk), last.from,
          Watched(h, r, looks[..|looks| - 1]).chain);
    }
  }

  lemma NothingHeld(h: Fingerprint, tlog: Logs)
    ensures ChainTrue(h, tlog, map[])
  {
  }

  lemma LooksAbove(r: Run, look: Look)
    requires MayLook(r, look)
    ensures look.moment < |r.states| && look.server in r.states[look.moment].servers
    ensures DiskLog(r.states[look.moment].servers[look.server].disk).snapIndex < look.from
  {
  }
}
