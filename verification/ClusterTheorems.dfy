/** The safety properties of Raft, over all runs of the cluster. */
module ClusterTheorems {
  import opened RaftTypes
  import opened LogSpec
  import opened Storage
  import opened Ghosts
  import opened SafetyInv
  import opened SafetyLogs
  import opened SafetyRestart
  import opened DiskRefinement
  import opened Cluster
  import opened ClusterSafety
  import FastBackup
  import NodeSpec
  import SafetyReplication

  // ---- Reading the invariant

  /** Whether up or down, a server's durable log is the log the invariant speaks about. */
  lemma DurableLog(gh: Ghost, c: State, id: nat)
    requires ClusterInv(c, gh) && id in c.servers
    ensures var l := DiskLog(c.servers[id].disk);
      l == View(gh, id, c.servers[id]).log && LogInv(gh.tlog, l) && TermLogs(gh.tlog) &&
      NodeInv(gh, View(gh, id, c.servers[id]))
  {
    hide TermLogs, NodeInv, NodeSpec.NewNode;
    assert ServerInv(gh, id, c.servers[id]);
    NodeLog(gh, View(gh, id, c.servers[id]));
  }

  lemma NodeLog(gh: Ghost, s: NodeState)
    requires TermLogs(gh.tlog) && NodeInv(gh, s)
    ensures WellFormed(s) && LogInv(gh.tlog, s.log)
  {
    hide TermLogs;
    NodeWellFormed(gh, s);
  }

  lemma LeaderOf(gh: Ghost, c: State, id: nat, T: nat)
    requires ClusterInv(c, gh) && Leads(c, id, T)
    ensures T in gh.tlog && T in gh.leader && gh.leader[T] == id
    ensures LogInv(gh.tlog, NodeOf(c, id).log) && Full(gh.tlog, NodeOf(c, id).log) == gh.tlog[T]
  {
    hide GhostInv, LogInv, Full, Owes, IsCommitted;
    assert ServerInv(gh, id, c.servers[id]);
  }

  lemma CommitOf(gh: Ghost, c: State, id: nat)
    requires ClusterInv(c, gh) && Alive(c, id)
    ensures var s := NodeOf(c, id);
      && LogInv(gh.tlog, s.log) && s.commitIndex <= s.log.LastIndex()
      && IsCommitted(gh, Full(gh.tlog, s.log)[..s.commitIndex], s.term)
  {
    hide GhostInv, LogInv, Full, Owes, IsCommitted;
    assert ServerInv(gh, id, c.servers[id]);
  }

  /** Logs whose full histories agree up to k show the same entries up to k. */
  lemma AgreeShows(tlog: Logs, tlog': Logs, a: Log, b: Log, k: nat)
    requires LogInv(tlog, a) && LogInv(tlog', b)
    requires Agree(Full(tlog, a), Full(tlog', b), k)
    ensures SameUpTo(a, b, k)
  {
    EntriesInFull(tlog, a);
    EntriesInFull(tlog', b);
    AgreeLess(Full(tlog, a), Full(tlog', b), k, k);
    forall n: nat | n <= k && Retains(a, n) && Retains(b, n) ensures EntryAt(a, n) == EntryAt(b, n) {
      assert EntryAt(a, n) == Full(tlog, a)[n - 1];
      assert EntryAt(b, n) == Full(tlog', b)[n - 1];
    }
  }

  // ---- Election Safety

  /** At most one server is ever leader in a term, at any two moments of a run, crashes and restarts included. */
  lemma ElectionSafety(voters: seq<nat>, r: Run, j: nat, k: nat, a: nat, b: nat, T: nat)
    requires NoDuplicates(voters) && Valid(voters, r)
    requires j < |r.states| && k < |r.states|
    requires Leads(r.states[j], a, T) && Leads(r.states[k], b, T)
    ensures a == b
  {
    hide Valid, ClusterInv, Leads;
    var hs := RunExplained(voters, r);
    LeaderOf(hs[j], r.states[j], a, T);
    LeaderOf(hs[k], r.states[k], b, T);
    if j <= k {
      assert Ext(hs[j], hs[k]);
    } else {
      assert Ext(hs[k], hs[j]);
    }
  }

  /** A leader that stopped leading a term, by stepping down or by crashing, never leads that term again. */
  lemma {:induction false} NoSecondReign(voters: seq<nat>, r: Run, i: nat, j: nat, k: nat, id: nat, T: nat)
    requires NoDuplicates(voters) && Valid(voters, r)
    requires i <= j <= k < |r.states|
    requires Leads(r.states[i], id, T) && !Leads(r.states[j], id, T)
    ensures !Leads(r.states[k], id, T)
    decreases k
  {
    hide Valid, ClusterInv, Leads, Ext, Explains, NoReturn, NoDuplicates;
    if j < k {
      NoSecondReign(voters, r, i, j, k - 1, id, T);
      RunLength(voters, r);
      var hs := RunExplained(voters, r);
      LedAt(r, hs, i, k - 1, id, T);
      NotAgain(r, hs, k - 1, id, T);
    }
  }

  lemma RunLength(voters: seq<nat>, r: Run)
    requires Valid(voters, r)
    ensures |r.states| == |r.actions| + 1
  {
  }

  lemma LedAt(r: Run, hs: seq<Ghost>, i: nat, k: nat, id: nat, T: nat)
    requires Explains(r, hs) && i <= k < |r.states| && Leads(r.states[i], id, T)
    ensures k < |hs| && T in hs[k].leader
  {
    hide ClusterInv, Leads;
    assert ClusterInv(r.states[i], hs[i]);
    LeaderOf(hs[i], r.states[i], id, T);
    assert Ext(hs[i], hs[k]);
  }

  lemma NotAgain(r: Run, hs: seq<Ghost>, k: nat, id: nat, T: nat)
    requires Explains(r, hs) && k + 1 < |r.states| && k < |hs| && T in hs[k].leader && !Leads(r.states[k], id, T)
    ensures !Leads(r.states[k + 1], id, T)
  {
    hide ClusterInv, Leads, Ext;
    assert NoReturn(hs[k], r.states[k], r.states[k + 1]);
  }

  /** While a leader stays in its term its log only grows: what it held it still shows or has compacted away. */
  lemma LeaderAppendOnly(voters: seq<nat>, r: Run, j: nat, k: nat, id: nat, T: nat)
    requires NoDuplicates(voters) && Valid(voters, r)
    requires j <= k < |r.states| && Leads(r.states[j], id, T) && Leads(r.states[k], id, T)
    ensures var a, b := NodeOf(r.states[j], id).log, NodeOf(r.states[k], id).log;
      a.LastIndex() <= b.LastIndex() && SameUpTo(a, b, a.LastIndex())
  {
    hide Valid, ClusterInv, LogInv, Full, SameUpTo, Agree;
    var hs := RunExplained(voters, r);
    LeaderOf(hs[j], r.states[j], id, T);
    LeaderOf(hs[k], r.states[k], id, T);
    assert Ext(hs[j], hs[k]);
    GrowsAgree(hs[j].tlog[T], hs[k].tlog[T], T);
    AgreeSym(hs[k].tlog[T], hs[j].tlog[T], |hs[j].tlog[T]|);
    AgreeBounds(hs[j].tlog[T], hs[k].tlog[T], |hs[j].tlog[T]|);
    AgreeShows(hs[j].tlog, hs[k].tlog, NodeOf(r.states[j], id).log, NodeOf(r.states[k], id).log, |hs[j].tlog[T]|);
  }

  // ---- Log Matching

  /** Any two durable logs of any two moments: equal terms at an index mean equal entries up to it. */
  lemma LogMatching(voters: seq<nat>, r: Run, j: nat, k: nat, a: nat, b: nat, n: nat)
    requires NoDuplicates(voters) && Valid(voters, r)
    requires j < |r.states| && k < |r.states| && a in r.states[j].servers && b in r.states[k].servers
    requires var la, lb := DiskLog(r.states[j].servers[a].disk), DiskLog(r.states[k].servers[b].disk);
      la.Term(n).Some? && la.Term(n) == lb.Term(n)
    ensures SameUpTo(DiskLog(r.states[j].servers[a].disk), DiskLog(r.states[k].servers[b].disk), n)
  {
    hide Valid, ClusterInv, DiskLog, TermLogs, LogInv, Full, SameUpTo;
    var hs := RunExplained(voters, r);
    DurableLog(hs[j], r.states[j], a);
    DurableLog(hs[k], r.states[k], b);
    var la, lb := DiskLog(r.states[j].servers[a].disk), DiskLog(r.states[k].servers[b].disk);
    var gh := if j <= k then hs[k] else hs[j];
    DurableLog(gh, if j <= k then r.states[k] else r.states[j], if j <= k then b else a);
    LogInvGrows(hs[j], gh, la);
    LogInvGrows(hs[k], gh, lb);
    LogsMatch(gh.tlog, la, lb, n);
    AgreeShows(gh.tlog, gh.tlog, la, lb, n);
  }

  /** A live server's log is its durable log. */
  lemma LiveLogIsDurable(voters: seq<nat>, r: Run, k: nat, a: nat)
    requires NoDuplicates(voters) && Valid(voters, r)
    requires k < |r.states| && Alive(r.states[k], a)
    ensures var s := NodeOf(r.states[k], a);
      s.log == DiskLog(r.states[k].servers[a].disk) && Mirrors(r.states[k].servers[a].disk, s)
  {
    hide Valid, GhostInv, NodeInv, DiskLog;
    var hs := RunExplained(voters, r);
    DurableLog(hs[k], r.states[k], a);
    assert ServerInv(hs[k], a, r.states[k].servers[a]);
  }

  // ---- Leader Completeness

  /** A later leader's log at its own moment already reaches what an earlier term committed. */
  lemma CommittedReaches(gh: Ghost, gh': Ghost, f: seq<Entry>, T: nat, U: nat)
    requires GhostInv(gh) && GhostInv(gh') && IsCommitted(gh, f, T) && T < U && U in gh'.tlog
    requires Ext(gh, gh') || Ext(gh', gh)
    ensures Agree(gh'.tlog[U], f, |f|)
  {
    hide GhostInv, IsCommitted, Ext;
    if Ext(gh, gh') {
      IsCommittedGrows(gh, gh', f, T, T);
      CommittedInLeader(gh', f, T, U);
    } else {
      TermGrows(gh', gh, U);
      CommittedInLeader(gh, f, T, U);
      var a, b := gh'.tlog[U], gh.tlog[U];
      GrowsAgree(a, b, U);
      AgreeLess(b, f, |f|, |f|);
      if |f| > 0 {
        CommittedTerm(gh, f, T);
        assert |f| <= |a|;
      }
      AgreeLess(b, a, |a|, |f|);
    }
  }

  lemma TermGrows(gh: Ghost, gh': Ghost, T: nat)
    requires Ext(gh, gh') && T in gh.tlog
    ensures T in gh'.tlog && Grows(gh.tlog[T], gh'.tlog[T], T)
  {
  }

  /** What terms up to t committed was created in terms up to t. */
  lemma CommittedTerm(gh: Ghost, f: seq<Entry>, t: nat)
    requires GhostInv(gh) && IsCommitted(gh, f, t) && |f| > 0
    ensures f[|f| - 1].term <= t
  {
    hide VotesSafe, LeadersSafe, Elections, Acknowledged, TermLog;
    var T: nat, k: nat :| T <= t && Committed(gh, T, k) && Agree(gh.tlog[T], f, |f|) && |f| <= k;
    AgreeLess(gh.tlog[T], f, |f|, |f|);
    assert TermLog(gh.tlog, T, gh.tlog[T]);
    TermBound(gh.tlog, T, |f| - 1);
  }

  lemma TermBound(tlog: Logs, T: nat, k: nat)
    requires T in tlog && TermLog(tlog, T, tlog[T]) && k < |tlog[T]|
    ensures tlog[T][k].term <= T
  {
  }

  /**
   * What a server of term T has committed, every leader of a later term holds, whenever it leads: its log reaches
   * that far, and shows the same entries wherever neither has compacted them away.
   */
  lemma LeaderCompletenessOverRuns(voters: seq<nat>, r: Run, j: nat, k: nat, a: nat, b: nat, U: nat)
    requires NoDuplicates(voters) && Valid(voters, r)
    requires j < |r.states| && k < |r.states|
    requires Alive(r.states[j], a) && Leads(r.states[k], b, U) && NodeOf(r.states[j], a).term < U
    ensures var s, l := NodeOf(r.states[j], a), NodeOf(r.states[k], b).log;
      s.commitIndex <= l.LastIndex() && SameUpTo(s.log, l, s.commitIndex)
  {
    hide Valid, GhostInv, ServerInv, MsgInv, LogInv, Full, IsCommitted, SameUpTo, Agree;
    var hs := RunExplained(voters, r);
    var s, l := NodeOf(r.states[j], a), NodeOf(r.states[k], b).log;
    CommitOf(hs[j], r.states[j], a);
    LeaderOf(hs[k], r.states[k], b, U);
    assert Ext(hs[j], hs[k]) || Ext(hs[k], hs[j]);
    var f := Full(hs[j].tlog, s.log);
    CommittedReaches(hs[j], hs[k], f[..s.commitIndex], s.term, U);
    AgreeWhole(hs[k].tlog[U], f, s.commitIndex);
    AgreeShows(hs[j].tlog, hs[k].tlog, s.log, l, s.commitIndex);
  }

  lemma AgreeWhole(a: seq<Entry>, f: seq<Entry>, n: nat)
    requires n <= |f| && Agree(a, f[..n], n)
    ensures Agree(f, a, n) && n <= |a|
  {
    assert f[..n][..n] == f[..n];
  }

  // ---- State Machine Safety

  lemma AppliedCommitted(voters: seq<nat>, r: Run, hs: seq<Ghost>, k: nat, e: Entry)
    requires Valid(voters, r) && Explains(r, hs)
    requires k < |r.actions| && e in AppliedBy(r, k)
    ensures AppliedInv(hs[k + 1], e)
  {
    hide GhostInv, NodeInv, AppliedInv, NodeSpec.Step, MsgInv;
    assert Next(voters, r.states[k], r.actions[k], r.states[k + 1]);
    var id := r.actions[k].id;
    assert ServerInv(hs[k + 1], id, r.states[k + 1].servers[id]);
  }

  lemma AppliedAgree(gh: Ghost, e: Entry, f: Entry)
    requires GhostInv(gh) && AppliedInv(gh, e) && AppliedInv(gh, f) && e.index == f.index
    ensures e == f
  {
    hide GhostInv, IsCommitted;
    var s, t :| IsCommitted(gh, s, t) && 1 <= e.index <= |s| && s[e.index - 1] == e;
    var s', t' :| IsCommitted(gh, s', t') && 1 <= f.index <= |s'| && s'[f.index - 1] == f;
    CommittedConsistent(gh, s, s', t, t', e.index - 1);
  }

  /** No two servers, at any moments, hand different entries to the state machine for the same index. */
  lemma StateMachineSafety(voters: seq<nat>, r: Run, j: nat, k: nat, e: Entry, f: Entry)
    requires NoDuplicates(voters) && Valid(voters, r)
    requires j < |r.actions| && k < |r.actions|
    requires e in AppliedBy(r, j) && f in AppliedBy(r, k) && e.index == f.index
    ensures e == f
  {
    hide AppliedBy, Next, Init, ServerInv, MsgInv, AppliedInv, GhostInv;
    var hs := RunExplained(voters, r);
    AppliedCommitted(voters, r, hs, j, e);
    AppliedCommitted(voters, r, hs, k, f);
    if j <= k {
      AppliedGrows(hs[j + 1], hs[k + 1], e);
      AppliedAgree(hs[k + 1], e, f);
    } else {
      AppliedGrows(hs[k + 1], hs[j + 1], f);
      AppliedAgree(hs[j + 1], e, f);
    }
  }

  // ---- No panic, and a disk that mirrors the node

  /** No reachable node has panicked, and no fsync of a run finds a gap. */
  lemma NoPanic(voters: seq<nat>, r: Run, k: nat, id: nat)
    requires NoDuplicates(voters) && Valid(voters, r)
    requires k < |r.states| && Alive(r.states[k], id)
    ensures !NodeOf(r.states[k], id).panicked
    ensures forall i :: Offers(r.states[k], id, i) ==>
      var t := NodeSpec.Step(NodeOf(r.states[k], id), i);
      !t.panicked && (t.out.persist.Some? ==> !Discontinuous(r.states[k].servers[id].disk, t.out.persist.value))
  {
    hide Valid, Offers, GhostInv, MsgInv, NodeSpec.Step, Discontinuous, Ext, NoReturn;
    var hs := RunExplained(voters, r);
    var c := r.states[k];
    LiveNode(hs[k], c, id);
    forall i | Offers(c, id, i)
      ensures var t := NodeSpec.Step(NodeOf(c, id), i);
        !t.panicked && (t.out.persist.Some? ==> !Discontinuous(c.servers[id].disk, t.out.persist.value))
    {
      var noted := Noted(hs[k], c, StepAt(id, i));
      NotedKeeps(c, hs[k], StepAt(id, i));
      AnyDataOk(noted, c, StepAt(id, i));
      var gh' := StepAtSafe(c, id, i, noted);
    }
  }

  lemma LiveNode(gh: Ghost, c: State, id: nat)
    requires ClusterInv(c, gh) && Alive(c, id)
    ensures !NodeOf(c, id).panicked
  {
    hide GhostInv, LogInv, Full, Owes, IsCommitted;
    assert ServerInv(gh, id, c.servers[id]);
  }

  // ---- Durability of what is committed, and truthful progress

  /** Who acknowledged a committed entry still has it on disk. */
  lemma AckerHolds(gh: Ghost, c: State, T: nat, n: nat, v: nat)
    requires ClusterInv(c, gh) && Committed(gh, T, n) && v in AckSet(gh, T, n) && v in c.servers
    ensures var l := DiskLog(c.servers[v].disk); LogInv(gh.tlog, l) && Agree(Full(gh.tlog, l), gh.tlog[T], n)
  {
    hide GhostInv, LogInv, Full, Agree, DiskLog, NodeSpec.NewNode, ServerInv;
    DurableLog(gh, c, v);
    var s := View(gh, v, c.servers[v]);
    forall V | V in gh.tlog && T < V <= s.term ensures Agree(gh.tlog[V], gh.tlog[T], n) {
      LeaderCompleteness(gh, T, n, V);
    }
    ViewId(gh, c, v);
    assert Counts(gh.tlog, T, n, s.term);
    OwesAt(gh, s, T, n);
  }

  lemma ViewId(gh: Ghost, c: State, v: nat)
    requires ClusterInv(c, gh) && v in c.servers
    ensures View(gh, v, c.servers[v]).p.id == v && View(gh, v, c.servers[v]).term == c.servers[v].disk.hs.term
  {
    hide GhostInv, NodeInv, NodeSpec.NewNode;
    assert ServerInv(gh, v, c.servers[v]);
  }

  lemma OwesAt(gh: Ghost, s: NodeState, T: nat, k: nat)
    requires NodeInv(gh, s) && (T, s.p.id) in gh.acks && k <= gh.acks[(T, s.p.id)]
    requires Counts(gh.tlog, T, k, s.term) && LaterHave(gh.tlog, T, k, s.term)
    ensures LogInv(gh.tlog, s.log) && Agree(Full(gh.tlog, s.log), gh.tlog[T], k)
  {
    hide LogInv, Full, Agree, Counts, LaterHave, IsCommitted, SnapshotInv;
  }

  lemma {:induction false} ServersStay(voters: seq<nat>, r: Run, k: nat)
    requires Valid(voters, r) && k < |r.states|
    ensures forall v :: v in voters ==> v in r.states[k].servers
    decreases k
  {
    if k > 0 {
      ServersStay(voters, r, k - 1);
      hide NodeSpec.Step, NodeSpec.NewNode, Offers;
      assert Next(voters, r.states[k - 1], r.actions[k - 1], r.states[k - 1 + 1]);
    }
  }

  /**
   * What any server has committed is, then and ever after, on the disks of a majority, whatever crashes;
   * their logs reach that far and show the same entries.
   */
  lemma CommittedIsDurable(voters: seq<nat>, r: Run, j: nat, k: nat, a: nat) returns (q: set<nat>)
    requires NoDuplicates(voters) && Valid(voters, r)
    requires j <= k < |r.states| && Alive(r.states[j], a) && NodeOf(r.states[j], a).commitIndex > 0
    ensures 2 * |q| > |voters| && forall v :: v in q ==> v in voters
    ensures forall v :: v in q ==> v in r.states[k].servers
    ensures var s := NodeOf(r.states[j], a);
      forall v :: v in q ==>
        var l := DiskLog(r.states[k].servers[v].disk);
        s.commitIndex <= l.LastIndex() && SameUpTo(s.log, l, s.commitIndex)
  {
    hide Valid, GhostInv, ServerInv, MsgInv, LogInv, Full, SameUpTo, Agree, DiskLog;
    var hs := RunExplained(voters, r);
    ServersStay(voters, r, k);
    var s, gh := NodeOf(r.states[j], a), hs[k];
    CommitOf(hs[j], r.states[j], a);
    assert Ext(hs[j], gh);
    LogInvGrows(hs[j], gh, s.log);
    var f := Full(gh.tlog, s.log);
    var n := s.commitIndex;
    IsCommittedGrows(hs[j], gh, f[..n], s.term, s.term);
    var T: nat, m: nat :| T <= s.term && Committed(gh, T, m) && Agree(gh.tlog[T], f[..n], n) && n <= m;
    q := AckSet(gh, T, m);
    AgreeWhole(gh.tlog[T], f, n);
    forall v | v in q
      ensures n <= DiskLog(r.states[k].servers[v].disk).LastIndex()
      ensures SameUpTo(s.log, DiskLog(r.states[k].servers[v].disk), n)
    {
      var l := DiskLog(r.states[k].servers[v].disk);
      AckerHolds(gh, r.states[k], T, m, v);
      AgreeLess(Full(gh.tlog, l), gh.tlog[T], m, n);
      AgreeSym(Full(gh.tlog, l), gh.tlog[T], n);
      AgreeTrans(f, gh.tlog[T], Full(gh.tlog, l), n);
      AgreeBounds(f, Full(gh.tlog, l), n);
      AgreeShows(gh.tlog, gh.tlog, s.log, l, n);
    }
  }

  /** Up to `match` a disk holds what its server acknowledged, unless the server went on to a later term and the entries
      were never committed. */
  lemma MatchHeld(gh: Ghost, c: State, a: nat, v: nat, n: nat)
    requires ClusterInv(c, gh) && Alive(c, a) && NodeOf(c, a).role == Leader
    requires v in NodeOf(c, a).prs && v in c.servers && n <= NodeOf(c, a).prs[v].matched
    requires c.servers[v].disk.hs.term <= NodeOf(c, a).term || n <= NodeOf(c, a).commitIndex
    ensures var s, l := NodeOf(c, a), DiskLog(c.servers[v].disk);
      LogInv(gh.tlog, s.log) && LogInv(gh.tlog, l) && Agree(Full(gh.tlog, s.log), Full(gh.tlog, l), n)
  {
    hide GhostInv, ServerInv, MsgInv, LogInv, Full, Agree, DiskLog, NodeInv, LaterHave, Counts;
    var s, l, t := NodeOf(c, a), DiskLog(c.servers[v].disk), View(gh, v, c.servers[v]);
    LeaderOf(gh, c, a, s.term);
    ProgressOf(gh, c, a);
    DurableLog(gh, c, v);
    ViewId(gh, c, v);
    if n > 0 {
      AcksInLog(gh, c, s.term, v);
      AckedByTerm(gh, t, s.term);
      if t.term > s.term {
        CommittedStays(gh, c, a, n, t.term);
      }
      CountsHere(gh.tlog, s.term, n, t.term);
      OwesAt(gh, t, s.term, n);
      AgreeSym(Full(gh.tlog, l), gh.tlog[s.term], n);
    } else {
      AgreeNothing(Full(gh.tlog, s.log), Full(gh.tlog, l));
    }
  }

  /** A node acknowledges no term it has not reached. */
  lemma AckedByTerm(gh: Ghost, s: NodeState, T: nat)
    requires NodeInv(gh, s) && (T, s.p.id) in gh.acks
    ensures T <= s.term
  {
    hide LogInv, Full, Owes, IsCommitted;
  }

  lemma CountsHere(tlog: Logs, T: nat, n: nat, term: nat)
    requires TermLogs(tlog) && T in tlog && n <= |tlog[T]|
    ensures Counts(tlog, T, n, term)
    ensures term == T ==> LaterHave(tlog, T, n, term)
  {
    assert TermLog(tlog, T, tlog[T]);
  }

  /** Later leaders hold what a leader has committed. */
  lemma CommittedStays(gh: Ghost, c: State, a: nat, n: nat, U: nat)
    requires ClusterInv(c, gh) && Alive(c, a) && NodeOf(c, a).role == Leader && n <= NodeOf(c, a).commitIndex
    ensures NodeOf(c, a).term in gh.tlog && LaterHave(gh.tlog, NodeOf(c, a).term, n, U)
  {
    hide GhostInv, ServerInv, MsgInv, LogInv, Full, Agree, IsCommitted;
    var s := NodeOf(c, a);
    LeaderOf(gh, c, a, s.term);
    CommitOf(gh, c, a);
    var f := gh.tlog[s.term];
    IsCommittedLess(gh, f[..s.commitIndex], s.term, n);
    assert f[..s.commitIndex][..n] == f[..n];
    forall V | V in gh.tlog && s.term < V <= U ensures Agree(gh.tlog[V], f, n) {
      CommittedInLeader(gh, f[..n], s.term, V);
      AgreeWhole(gh.tlog[V], f, n);
      AgreeSym(f, gh.tlog[V], n);
    }
  }

  /**
   * What a server has on disk agrees with a leader's log through `match`, wherever both retain an entry, as long as the
   * server has not gone on to a later term.
   */
  lemma TruthfulProgress(voters: seq<nat>, r: Run, k: nat, a: nat, v: nat)
    requires NoDuplicates(voters) && Valid(voters, r)
    requires k < |r.states| && Alive(r.states[k], a) && NodeOf(r.states[k], a).role == Leader
    requires v in NodeOf(r.states[k], a).prs && v in r.states[k].servers
    requires r.states[k].servers[v].disk.hs.term <= NodeOf(r.states[k], a).term
    ensures var s, l := NodeOf(r.states[k], a), DiskLog(r.states[k].servers[v].disk);
      s.prs[v].matched <= l.LastIndex() && SameUpTo(s.log, l, s.prs[v].matched)
  {
    hide Valid, ClusterInv, LogInv, Full, SameUpTo, Agree, DiskLog;
    var hs := RunExplained(voters, r);
    var s, l := NodeOf(r.states[k], a), DiskLog(r.states[k].servers[v].disk);
    var n := s.prs[v].matched;
    MatchHeld(hs[k], r.states[k], a, v, n);
    AgreeBounds(Full(hs[k].tlog, s.log), Full(hs[k].tlog, l), n);
    AgreeShows(hs[k].tlog, hs[k].tlog, s.log, l, n);
  }

  /** What a leader counts as matched and has committed stays on the disk, whatever term the server goes on to. */
  lemma CommittedMatchStays(voters: seq<nat>, r: Run, k: nat, a: nat, v: nat, n: nat)
    requires NoDuplicates(voters) && Valid(voters, r)
    requires k < |r.states| && Alive(r.states[k], a) && NodeOf(r.states[k], a).role == Leader
    requires v in NodeOf(r.states[k], a).prs && v in r.states[k].servers
    requires n <= NodeOf(r.states[k], a).prs[v].matched && n <= NodeOf(r.states[k], a).commitIndex
    ensures var s, l := NodeOf(r.states[k], a), DiskLog(r.states[k].servers[v].disk);
      n <= l.LastIndex() && SameUpTo(s.log, l, n)
  {
    hide Valid, ClusterInv, LogInv, Full, SameUpTo, Agree, DiskLog;
    var hs := RunExplained(voters, r);
    var s, l := NodeOf(r.states[k], a), DiskLog(r.states[k].servers[v].disk);
    MatchHeld(hs[k], r.states[k], a, v, n);
    AgreeBounds(Full(hs[k].tlog, s.log), Full(hs[k].tlog, l), n);
    AgreeShows(hs[k].tlog, hs[k].tlog, s.log, l, n);
  }

  /**
   * Exactly when a disk agrees with a leader's log through `match`, for servers of any term: the server has not gone on
   * to a later term, or what is matched is committed or compacted away, or the disk still shows the leader's term there.
   */
  lemma AgreesThroughMatch(voters: seq<nat>, r: Run, k: nat, a: nat, v: nat)
    requires NoDuplicates(voters) && Valid(voters, r)
    requires k < |r.states| && Alive(r.states[k], a) && NodeOf(r.states[k], a).role == Leader
    requires v in NodeOf(r.states[k], a).prs && v in r.states[k].servers
    ensures var s, d := NodeOf(r.states[k], a), r.states[k].servers[v].disk;
      var l, n := DiskLog(d), s.prs[v].matched;
      (n <= l.LastIndex() && SameUpTo(s.log, l, n))
      <==> (d.hs.term <= s.term || n <= s.commitIndex || n <= l.snapIndex || l.Term(n) == s.log.Term(n))
  {
    hide Valid, ClusterInv, LogInv, Full, SameUpTo, Agree, DiskLog;
    var hs := RunExplained(voters, r);
    var s, d := NodeOf(r.states[k], a), r.states[k].servers[v].disk;
    var l, n := DiskLog(d), s.prs[v].matched;
    MatchBounds(hs[k], r.states[k], a, v);
    if d.hs.term <= s.term {
      TruthfulProgress(voters, r, k, a, v);
    } else if n <= s.commitIndex {
      CommittedMatchStays(voters, r, k, a, v, n);
    } else if n <= l.snapIndex {
      NothingRetained(s.log, l, n);
    } else if l.Term(n) == s.log.Term(n) {
      LiveLogIsDurable(voters, r, k, a);
      LogMatching(voters, r, k, k, a, v, n);
    } else if n <= l.LastIndex() && SameUpTo(s.log, l, n) {
      SameShows(s.log, l, n);
    }
  }

  lemma MatchBounds(gh: Ghost, c: State, a: nat, v: nat)
    requires ClusterInv(c, gh) && Alive(c, a) && NodeOf(c, a).role == Leader && v in NodeOf(c, a).prs
    ensures var s := NodeOf(c, a); s.prs[v].matched <= s.log.LastIndex() && s.log.snapIndex <= s.commitIndex
    ensures a in c.servers
  {
    hide GhostInv, MsgInv, LogInv, Full, Owes, IsCommitted;
    assert ServerInv(gh, a, c.servers[a]);
  }

  lemma NothingRetained(a: Log, b: Log, n: nat)
    requires n <= b.snapIndex
    ensures n <= b.LastIndex() && SameUpTo(a, b, n)
  {
  }

  lemma SameShows(a: Log, b: Log, n: nat)
    requires SameUpTo(a, b, n) && Retains(a, n) && Retains(b, n)
    ensures a.Term(n) == b.Term(n)
  {
    assert EntryAt(a, n) == EntryAt(b, n);
  }

  lemma AgreeNothing(a: seq<Entry>, b: seq<Entry>)
    ensures Agree(a, b, 0)
  {
  }

  lemma AcksInLog(gh: Ghost, c: State, T: nat, v: nat)
    requires ClusterInv(c, gh) && (T, v) in gh.acks
    ensures T in gh.tlog && gh.acks[(T, v)] <= |gh.tlog[T]|
  {
    hide TermLogs, Elections, VotesSafe, LeadersSafe, ServerInv, MsgInv;
  }

  lemma ProgressOf(gh: Ghost, c: State, a: nat)
    requires ClusterInv(c, gh) && Alive(c, a) && NodeOf(c, a).role == Leader
    ensures ProgressInv(gh, NodeOf(c, a))
  {
    hide GhostInv, LogInv, Full, Owes, IsCommitted, ProgressInv;
    assert ServerInv(gh, a, c.servers[a]);
  }

  /** The setting of a probe in a run: both logs explained by one history, and the progress truthful. */
  lemma ProbingInRun(gh: Ghost, c: State, a: nat, b: nat)
    requires ClusterInv(c, gh) && Alive(c, a) && Alive(c, b) && NodeOf(c, a).role == Leader && b in NodeOf(c, a).prs
    requires NodeOf(c, b).term <= NodeOf(c, a).term
    requires var next := NodeOf(c, a).prs[b].next; NodeOf(c, a).log.snapIndex < next && NodeOf(c, b).log.snapIndex < next
    ensures FastBackup.Probing(gh.tlog, NodeOf(c, a).log, NodeOf(c, b).log, NodeOf(c, a).prs[b])
  {
    hide GhostInv, ServerInv, MsgInv, LogInv, Full, Agree, DiskLog, NodeInv;
    var s, t := NodeOf(c, a), NodeOf(c, b);
    LeaderOf(gh, c, a, s.term);
    ProgressOf(gh, c, a);
    LiveDisk(gh, c, b);
    NodeLog(gh, t);
    MatchHeld(gh, c, a, b, s.prs[b].matched);
    AgreeSym(Full(gh.tlog, s.log), Full(gh.tlog, t.log), s.prs[b].matched);
    SnapInLeader(gh, c, b, s.term);
  }

  /** A live server's disk is its node's. */
  lemma LiveDisk(gh: Ghost, c: State, id: nat)
    requires ClusterInv(c, gh) && Alive(c, id)
    ensures DiskLog(c.servers[id].disk) == NodeOf(c, id).log && c.servers[id].disk.hs.term == NodeOf(c, id).term
    ensures NodeInv(gh, NodeOf(c, id)) && TermLogs(gh.tlog)
  {
    hide NodeInv, TermLogs, DiskLog, LogInv;
    DurableLog(gh, c, id);
    ViewId(gh, c, id);
    LiveIsView(gh, c, id);
  }

  /** The log of a leader of its term, or of a later one, goes through a server's snapshot point. */
  lemma SnapInLeader(gh: Ghost, c: State, b: nat, T: nat)
    requires ClusterInv(c, gh) && Alive(c, b) && NodeOf(c, b).term <= T && T in gh.tlog
    ensures var t := NodeOf(c, b);
      LogInv(gh.tlog, t.log) && Agree(Full(gh.tlog, t.log), gh.tlog[T], t.log.snapIndex)
  {
    hide GhostInv, MsgInv, LogInv, Full, Agree, NodeInv;
    LiveIsView(gh, c, b);
    var t := NodeOf(c, b);
    SafetyReplication.CommittedInTerm(gh, t, T);
    AgreeLess(Full(gh.tlog, t.log), gh.tlog[T], t.commitIndex, t.log.snapIndex);
  }

  lemma LiveIsView(gh: Ghost, c: State, id: nat)
    requires ClusterInv(c, gh) && Alive(c, id)
    ensures NodeInv(gh, NodeOf(c, id)) && TermLogs(gh.tlog) && NodeOf(c, id).p.id == id
  {
    hide TermLogs, VotesSafe, LeadersSafe, Elections, Acknowledged, NodeInv, MsgInv;
    assert ServerInv(gh, id, c.servers[id]);
  }

  /**
   * In every run, when a server that is not past the leader's term has a log that differs from the leader's at the
   * probed index, the answer to a probe sent now makes the leader probe strictly lower, and still above what the
   * follower has matched.
   */
  lemma BackupInRuns(voters: seq<nat>, r: Run, k: nat, a: nat, b: nat)
    requires NoDuplicates(voters) && Valid(voters, r)
    requires k < |r.states| && Alive(r.states[k], a) && Alive(r.states[k], b)
    requires var s, t := NodeOf(r.states[k], a), NodeOf(r.states[k], b);
      && s.role == Leader && b in s.prs && t.term <= s.term
      && s.log.snapIndex < s.prs[b].next && t.log.snapIndex < s.prs[b].next
      && t.log.Term(s.prs[b].next - 1) != s.log.Term(s.prs[b].next - 1)
    ensures var s, t := NodeOf(r.states[k], a), NodeOf(r.states[k], b);
      var (ci, ct) := FastBackup.Hints(t.log, s.prs[b].next - 1);
      s.prs[b].matched < NodeSpec.BackupNext(s.log, s.prs[b], ci, ct) < s.prs[b].next
  {
    hide Valid, ClusterInv, FastBackup.Probing, FastBackup.Hints, NodeSpec.BackupNext;
    var hs := RunExplained(voters, r);
    ProbingInRun(hs[k], r.states[k], a, b);
    FastBackup.RejectionBacksUp(hs[k].tlog, NodeOf(r.states[k], a).log, NodeOf(r.states[k], b).log,
        NodeOf(r.states[k], a).prs[b]);
  }

  /**
   * In every run, a leader and a live server not past its term that exchange probe and answer without loss settle: each
   * exchange that does not is a rejection that lowers the probe and changes no log, and it ends where the probe matches
   * or the leader sends its snapshot.
   */
  lemma ProbingEndsInRuns(voters: seq<nat>, r: Run, k: nat, a: nat, b: nat) returns (n: nat)
    requires NoDuplicates(voters) && Valid(voters, r)
    requires k < |r.states| && Alive(r.states[k], a) && Alive(r.states[k], b)
    requires var s, t := NodeOf(r.states[k], a), NodeOf(r.states[k], b);
      && s.role == Leader && b in s.prs && t.term <= s.term
      && s.log.snapIndex < s.prs[b].next && t.log.snapIndex < s.prs[b].next
    ensures var s, t := NodeOf(r.states[k], a), NodeOf(r.states[k], b);
      && n < s.prs[b].next
      && FastBackup.Falls(s, t, b, n)
      && FastBackup.Settled(s, t, b, FastBackup.Exchanges(s, t, b, n))
  {
    hide Valid, ClusterInv, FastBackup.Probing, FastBackup.Paired, FastBackup.Falls, FastBackup.Settled,
         FastBackup.Exchanges;
    var hs := RunExplained(voters, r);
    ProbingInRun(hs[k], r.states[k], a, b);
    PairedInRun(hs[k], r.states[k], a, b);
    n := FastBackup.ExchangesEnd(hs[k].tlog, NodeOf(r.states[k], a), NodeOf(r.states[k], b), b);
  }

  lemma PairedInRun(gh: Ghost, c: State, a: nat, b: nat)
    requires ClusterInv(c, gh) && Alive(c, a) && Alive(c, b) && NodeOf(c, a).role == Leader && b in NodeOf(c, a).prs
    requires NodeOf(c, b).term <= NodeOf(c, a).term
    ensures FastBackup.Paired(NodeOf(c, a), NodeOf(c, b), b)
  {
    hide GhostInv, ServerInv, MsgInv, LogInv, Full, Agree, DiskLog, NodeInv, Owes, IsCommitted;
    var s, t := NodeOf(c, a), NodeOf(c, b);
    LeaderOf(gh, c, a, s.term);
    ProgressOf(gh, c, a);
    LiveIsView(gh, c, a);
    LiveIsView(gh, c, b);
    if t.role == Leader && t.term == s.term {
      LeaderOf(gh, c, b, t.term);
    }
    NotPanicked(gh, s);
    NotPanicked(gh, t);
  }

  lemma NotPanicked(gh: Ghost, s: NodeState)
    requires NodeInv(gh, s)
    ensures !s.panicked && (s.log.snapIndex > 0 ==> s.snapshot.Some?)
  {
    hide LogInv, Full, Owes, IsCommitted;
  }

  lemma NoLearner(gh: Ghost, s: NodeState)
    requires NodeInv(gh, s)
    ensures s.learner == NONE
  {
    hide LogInv, Full, Owes, IsCommitted;
  }
}
