/** What holds of the whole system in every run: stores are replays, and client histories are linearizable. */
module SystemTheorems {
  import opened RaftTypes
  import opened Ghosts
  import opened SafetyInv
  import opened SafetyLogs
  import opened Cluster
  import opened ClusterSafety
  import opened Strings
  import opened KV
  import opened Codec
  import opened Replay
  import opened Histories
  import opened System
  import opened SystemSafety
  import opened LinearCheck
  import NodeSpec

  // ---- The committed log

  lemma {:induction false} LogBound(tlog: Logs) returns (b: nat)
    ensures forall T :: T in tlog ==> |tlog[T]| <= b
    decreases |tlog|
  {
    b := 0;
    if tlog != map[] {
      var T :| T in tlog;
      var rest := tlog - {T};
      assert tlog == rest[T := tlog[T]];
      assert T !in rest;
      b := LogBound(rest);
      b := if |tlog[T]| > b then |tlog[T]| else b;
      forall U | U in tlog ensures |tlog[U]| <= b {
        assert U != T ==> U in rest && rest[U] == tlog[U];
      }
    }
  }

  ghost predicate SomeCommitted(gh: Ghost, n: nat) {
    exists es, t :: IsCommitted(gh, es, t) && |es| == n
  }

  lemma {:induction false} LongestUpTo(gh: Ghost, b: nat) returns (n: nat)
    requires forall m: nat :: SomeCommitted(gh, m) ==> m <= b
    ensures SomeCommitted(gh, n) && forall m: nat :: SomeCommitted(gh, m) ==> m <= n
  {
    n := b;
    if b == 0 {
      var nothing: seq<Entry> := [];
      assert IsCommitted(gh, nothing, 0) && |nothing| == 0;
    } else if !SomeCommitted(gh, b) {
      n := LongestUpTo(gh, b - 1);
    }
  }

  /** The committed log: the longest committed prefix, of which every other is a prefix. */
  lemma CommittedLog(gh: Ghost) returns (l: seq<Entry>, t: nat)
    requires GhostInv(gh)
    ensures IsCommitted(gh, l, t)
    ensures forall es, u :: IsCommitted(gh, es, u) ==> |es| <= |l| && es == l[..|es|]
  {
    hide GhostInv;
    var b := LogBound(gh.tlog);
    forall m: nat | SomeCommitted(gh, m) ensures m <= b {
      var es, u :| IsCommitted(gh, es, u) && |es| == m;
      if m > 0 {
        var T: nat, k: nat :| T <= u && Committed(gh, T, k) && Agree(gh.tlog[T], es, |es|) && |es| <= k;
      }
    }
    var n := LongestUpTo(gh, b);
    hide IsCommitted;
    l, t :| IsCommitted(gh, l, t) && |l| == n;
    forall es, u | IsCommitted(gh, es, u) ensures |es| <= |l| && es == l[..|es|] {
      assert SomeCommitted(gh, |es|);
      IsCommittedLess(gh, l, t, |es|);
      SamePrefix(gh, es, l[..|es|], u, t);
    }
  }

  // ---- Stores are replays

  /** The server's store is the replay of the log up to what it has applied, and the log is what the server has
      committed. */
  ghost predicate Replays(s: Sys, id: nat, l: seq<Entry>)
    requires Alive(s.cluster, id) && id in s.apps
  {
    var n := NodeOf(s.cluster, id);
    && n.lastApplied <= n.commitIndex <= |l|
    && s.apps[id].store == StoreAfter(l[..n.lastApplied])
    && forall i: nat :: i <= n.commitIndex && Retains(n.log, i) ==> l[i - 1] == EntryAt(n.log, i)
  }

  lemma ReplaysNow(gh: Ghost, gh': Ghost, s: Sys, id: nat, l: seq<Entry>)
    requires SysInv(gh, s) && Ext(gh, gh') && Alive(s.cluster, id) && id in s.apps
    requires forall es, u :: IsCommitted(gh', es, u) ==> |es| <= |l| && es == l[..|es|]
    ensures Replays(s, id, l)
  {
    hide GhostInv, ServerInv, MsgInv, LogInv, Full, IsCommitted, StoreAfter, ClientsInv, PayloadInv, AnswersInv, Ext;
    var n := NodeOf(s.cluster, id);
    NodeBounds(gh, s.cluster, id);
    assert ReplicaInv(gh, s, id);
    var f := Full(gh.tlog, n.log);
    IsCommittedGrows(gh, gh', f[..n.commitIndex], n.term, n.term);
    assert f[..n.commitIndex] == l[..n.commitIndex];
    assert f[..n.lastApplied] == f[..n.commitIndex][..n.lastApplied] == l[..n.commitIndex][..n.lastApplied] ==
        l[..n.lastApplied];
    EntriesInFull(gh.tlog, n.log);
    forall i: nat | i <= n.commitIndex && Retains(n.log, i) ensures l[i - 1] == EntryAt(n.log, i) {
      assert l[..n.commitIndex][i - 1] == f[..n.commitIndex][i - 1];
    }
  }

  /**
   * There is one committed log such that at every moment up to the k-th, on every live server, the store equals its
   * replay through what the server has applied: by applying, by an installed snapshot, or after a restart.
   */
  lemma ReplicasAreReplays(voters: seq<nat>, r: SysRun, k: nat) returns (l: seq<Entry>)
    requires NoDuplicates(voters) && ValidSys(voters, r) && k < |r.states|
    ensures forall j, id :: 0 <= j <= k && Alive(r.states[j].cluster, id) && id in r.states[j].apps ==>
        Replays(r.states[j], id, l)
    ensures forall j, id :: 0 <= j <= k && Alive(r.states[j].cluster, id) ==> id in r.states[j].apps
  {
    hide SysInv, Ext, NextSys, InitSys, Replays, IsCommitted, ValidSys;
    var hs := SysRunSafe(voters, r, k);
    GhostOf(hs[k], r.states[k]);
    var t: nat;
    l, t := CommittedLog(hs[k]);
    forall j, id | 0 <= j <= k && Alive(r.states[j].cluster, id) ensures id in r.states[j].apps &&
        Replays(r.states[j], id, l) {
      HasApp(hs[j], r.states[j], id);
      ReplaysNow(hs[j], hs[k], r.states[j], id, l);
    }
  }

  // ---- Nothing undecodable is ever met

  /** Whatever a Step hands to the application can be read: every command, and a snapshot. */
  ghost predicate Decodes(out: Output) {
    && (forall e :: e in out.applied && e.typ == Normal && e.data != [] ==> DecodeCommand(e.data).Some?)
    && (out.applySnapshot.Some? ==> DecodeStore(out.applySnapshot.value.data).Some?)
  }

  /** An entry handed over carries what a client issued. */
  lemma AppliedDecodes(gh: Ghost, s: Sys, e: Entry)
    requires GhostInv(gh) && AppliedInv(gh, e) && PayloadInv(gh.payload, s.history, s.seqs) && e.typ == Normal
    ensures DecodeCommand(e.data).Some?
  {
    hide GhostInv, IsCommitted, Issued, CommandFits, EncodeCommand, DecodeCommand;
    var es, t :| IsCommitted(gh, es, t) && 1 <= e.index <= |es| && es[e.index - 1] == e;
    CommittedEntry(gh, es, t, e.index - 1);
    var c :| e.data == EncodeCommand(c) && CommandFits(c) && Issued(s.history, s.seqs, c);
    CommandRoundTrip(c);
  }

  lemma RestoredDecodes(gh: Ghost, snap: Snapshot)
    requires RestoredInv(gh, snap) && gh.rel == RestoresReplay
    ensures DecodeStore(snap.data).Some?
  {
    hide IsCommitted, DecodeStore, StoreAfter;
  }

  lemma OutputDecodes(gh: Ghost, s: Sys, id: nat, i: Input)
    requires SysInv(gh, s) && Alive(s.cluster, id) && id in s.apps && FairInput(s, id, i)
    ensures Decodes(NodeSpec.Step(NodeOf(s.cluster, id), i).out)
  {
    hide ClusterInv, ClientsInv, PayloadInv, Ext, NodeSpec.Step, AppOutput, Truth, ReplicaInv, FairInput, Offers, DataOk,
         AfterStep, ProposedBy, AppliedInv, RestoredInv, InOrder, DecodeCommand, DecodeStore, GhostInv;
    SnapshotOk(gh, s, id, i);
    StepIsNext(gh, s, id, i);
    var gh' := ActionSafe(s.cluster, StepAt(id, i), AfterStep(s.cluster, id, i), gh);
    SameSetup(gh, gh');
    PayloadStep(gh, gh', s, id, i);
    ClusterHistory(gh', AfterStep(s.cluster, id, i));
    var out := NodeSpec.Step(NodeOf(s.cluster, id), i).out;
    forall e | e in out.applied && e.typ == Normal ensures DecodeCommand(e.data).Some? {
      AppliedDecodes(gh', s, e);
    }
    if out.applySnapshot.Some? {
      RestoredDecodes(gh', out.applySnapshot.value);
    }
  }

  lemma ClusterHistory(gh: Ghost, c: State)
    requires ClusterInv(c, gh)
    ensures GhostInv(gh)
  {
    hide GhostInv, ServerInv, MsgInv;
  }

  lemma DiskDecodes(gh: Ghost, s: Sys, id: nat)
    requires SysInv(gh, s) && id in s.cluster.servers && s.cluster.servers[id].disk.snap.Some?
    ensures DecodeStore(s.cluster.servers[id].disk.snap.value.data).Some?
  {
    hide GhostInv, MsgInv, LogInv, Full, Owes, IsCommitted, ClientsInv, PayloadInv, ReplicaInv, AnswersInv, DecodeStore,
         StoreAfter, NodeSpec.NewNode;
    assert ServerInv(gh, id, s.cluster.servers[id]);
  }

  /**
   * No run meets a command or a snapshot it cannot read: not on any disk, and not in what any Step hands over, whatever
   * the server is given.
   */
  lemma NothingUndecodable(voters: seq<nat>, r: SysRun, k: nat, id: nat, i: Input)
    requires NoDuplicates(voters) && ValidSys(voters, r) && k < |r.states| && id in r.states[k].cluster.servers
    ensures var d := r.states[k].cluster.servers[id].disk; d.snap.Some? ==> DecodeStore(d.snap.value.data).Some?
    ensures var s := r.states[k];
      Alive(s.cluster, id) && id in s.apps && FairInput(s, id, i) ==>
        Decodes(NodeSpec.Step(NodeOf(s.cluster, id), i).out)
  {
    hide SysInv, Ext, ValidSys, FairInput, Decodes, NodeSpec.Step, DecodeStore;
    var hs := SysRunSafe(voters, r, k);
    if r.states[k].cluster.servers[id].disk.snap.Some? {
      DiskDecodes(hs[k], r.states[k], id);
    }
    if Alive(r.states[k].cluster, id) && id in r.states[k].apps && FairInput(r.states[k], id, i) {
      OutputDecodes(hs[k], r.states[k], id, i);
    }
  }

  // ---- Exactly once

  /**
   * The simulator's own check of exactly-once never fails, in any run: no command is seen to take effect at two indexes,
   * whichever servers apply it and however often they restart.
   */
  lemma ExactlyOnce(voters: seq<nat>, r: SysRun, k: nat)
    requires NoDuplicates(voters) && ValidSys(voters, r) && k < |r.states|
    ensures !r.states[k].notes.failed
  {
    hide SysInv, Ext, ValidSys;
    var hs := SysRunSafe(voters, r, k);
    ExtSelf(hs[k]);
    NoteFree(hs[k], r.states[k]);
  }

  lemma NoteFree(gh: Ghost, s: Sys)
    requires SysInv(gh, s) && Ext(gh, gh)
    ensures !s.notes.failed
  {
    hide SysInv, Ext;
    NotesHold(gh, gh, s);
  }

  lemma GhostOf(gh: Ghost, s: Sys)
    requires SysInv(gh, s)
    ensures GhostInv(gh)
  {
    hide GhostInv, ServerInv, MsgInv;
  }

  lemma HasApp(gh: Ghost, s: Sys, id: nat)
    requires SysInv(gh, s) && Alive(s.cluster, id)
    ensures id in s.apps
  {
    hide ClusterInv, ClientsInv, PayloadInv, AnswersInv, ReplicaInv;
  }

  // ---- Client histories are linearizable

  /** All the argument needs of a committed log and a history: who issued what, and what the answered were told. */
  ghost predicate Explains(cs: seq<Command>, history: seq<LinOp>, seqs: seq<nat>) {
    && |history| == |seqs|
    && Distinguished(history, seqs)
    && (forall i :: 0 <= i < |seqs| ==> seqs[i] >= 1)
    && (forall c :: c in cs ==> Issued(history, seqs, c))
    && (forall i :: 0 <= i < |history| && history[i].complete ==> DoneWithin(cs, history, seqs, i))
  }

  /** A fresh command of the log answered the operation, and all commands up to it had been issued by then. */
  ghost predicate DoneWithin(cs: seq<Command>, history: seq<LinOp>, seqs: seq<nat>, i: nat)
    requires i < |history| && i < |seqs|
  {
    exists k :: 0 <= k < |cs| && DoneAt(cs, history, seqs, i, k)
  }

  ghost predicate DoneAt(cs: seq<Command>, history: seq<LinOp>, seqs: seq<nat>, i: nat, k: nat)
    requires i < |history| && i < |seqs| && k < |cs|
  {
    && AnsweredAt(cs, k, history[i].client, seqs[i], Result(history[i].outValue, history[i].outOK))
    && forall j :: 0 <= j <= k ==> IssuedBy(history, seqs, cs[j], history[i].response)
  }

  lemma CommittedExplains(gh: Ghost, s: Sys, l: seq<Entry>, t: nat)
    requires SysInv(gh, s) && IsCommitted(gh, l, t)
    requires forall es, u :: IsCommitted(gh, es, u) ==> |es| <= |l| && es == l[..|es|]
    ensures Explains(Commands(l), s.history, s.seqs)
  {
    hide GhostInv, ServerInv, MsgInv, IsCommitted, Commands, PayloadInv, ReplicasInv, Issued, DoneBy;
    var cs := Commands(l);
    forall c | c in cs ensures Issued(s.history, s.seqs, c) {
      CommittedIssued(gh, s.history, s.seqs, l, t, c);
    }
    forall i | 0 <= i < |s.history| && s.history[i].complete ensures DoneWithin(cs, s.history, s.seqs, i) {
      assert Done(gh, s.history, s.seqs, i);
      var es, u :| IsCommitted(gh, es, u) && DoneBy(Commands(es), s.history, s.seqs, i);
      CommandsPrefix(l, |es|);
      DonePrefix(cs, |Commands(es)|, s.history, s.seqs, i);
    }
    forall i | 0 <= i < |s.seqs| ensures s.seqs[i] >= 1 {
      assert OpInv(s, i);
    }
  }

  lemma DonePrefix(cs: seq<Command>, n: nat, history: seq<LinOp>, seqs: seq<nat>, i: nat)
    requires n <= |cs| && i < |history| && i < |seqs| && DoneBy(cs[..n], history, seqs, i)
    ensures DoneWithin(cs, history, seqs, i)
  {
    hide IssuedBy;
    var ds := cs[..n];
    var k :| 0 <= k < n && AnsweredAt(ds, k, history[i].client, seqs[i], Result(history[i].outValue, history[i].outOK));
    PrefixFresh(cs, n, k);
    forall j | 0 <= j <= k ensures IssuedBy(history, seqs, cs[j], history[i].response) {
      assert ds[j] in ds;
    }
    assert DoneAt(cs, history, seqs, i, k);
  }

  // ---- The order: the fresh commands of the log

  ghost function IndexOf(history: seq<LinOp>, seqs: seq<nat>, c: Command): (i: nat)
    requires Issued(history, seqs, c)
    ensures i < |history| && i < |seqs| && c == CommandOf(history[i], seqs[i])
  {
    var i: nat :| i < |history| && i < |seqs| && c == CommandOf(history[i], seqs[i]);
    i
  }

  lemma IndexUnique(history: seq<LinOp>, seqs: seq<nat>, i: nat, j: nat)
    requires Distinguished(history, seqs) && i < |history| == |seqs| && j < |history|
    requires history[i].client == history[j].client && seqs[i] == seqs[j]
    ensures i == j
  {
    if i < j {
      assert false;
    } else if j < i {
      assert false;
    }
  }

  /** The operations of the fresh commands from position p on. */
  ghost function OrderFrom(cs: seq<Command>, history: seq<LinOp>, seqs: seq<nat>, p: nat): (idxs: seq<nat>)
    requires p <= |cs| && forall c :: c in cs ==> Issued(history, seqs, c)
    ensures forall j :: 0 <= j < |idxs| ==> idxs[j] < |history|
    decreases |cs| - p
  {
    if p == |cs| then []
    else (if IsFresh(cs, p) then [IndexOf(history, seqs, cs[p])] else []) + OrderFrom(cs, history, seqs, p + 1)
  }

  /** Where in the log the operations of the order stand. */
  lemma {:induction false} OrderPositions(cs: seq<Command>, history: seq<LinOp>, seqs: seq<nat>, p: nat)
    returns (at: seq<nat>)
    requires p <= |cs| && forall c :: c in cs ==> Issued(history, seqs, c)
    ensures var idxs := OrderFrom(cs, history, seqs, p);
      && |at| == |idxs|
      && (forall j :: 0 <= j < |at| ==>
           p <= at[j] < |cs| && IsFresh(cs, at[j]) &&
           idxs[j] == IndexOf(history, seqs, cs[at[j]]))
      && (forall i, j :: 0 <= i < j < |at| ==> at[i] < at[j])
      && (forall q :: p <= q < |cs| && IsFresh(cs, q) ==> q in at)
    decreases |cs| - p
  {
    hide IsFresh, Issued;
    if p == |cs| {
      at := [];
    } else {
      at := OrderPositions(cs, history, seqs, p + 1);
      if IsFresh(cs, p) {
        PrependIn(p, at);
        at := [p] + at;
      }
    }
  }

  lemma PrependIn(p: nat, rest: seq<nat>)
    ensures forall q :: q in [p] + rest <==> q == p || q in rest
  {
  }

  /** Two fresh positions of one operation are one position. */
  lemma FreshOnce(cs: seq<Command>, history: seq<LinOp>, seqs: seq<nat>, j: nat, k: nat)
    requires Explains(cs, history, seqs) && j < |cs| && k < |cs| && IsFresh(cs, j) && IsFresh(cs, k)
    requires cs[j].client == cs[k].client && cs[j].seqno == cs[k].seqno
    ensures j == k
  {
    hide IsFresh, Issued, IssuedBy, Distinguished, DoneWithin;
    assert cs[j] in cs;
    var i := IndexOf(history, seqs, cs[j]);
    if j < k {
      AtMostOnce(cs, j, k);
    } else if k < j {
      AtMostOnce(cs, k, j);
    }
  }

  // ---- Picking operations by their indexes

  function Pick(h: seq<LinOp>, idxs: seq<nat>): (r: seq<LinOp>)
    requires forall j :: 0 <= j < |idxs| ==> idxs[j] < |h|
    ensures |r| == |idxs| && forall j :: 0 <= j < |r| ==> r[j] == h[idxs[j]]
  {
    seq(|idxs|, j requires 0 <= j < |idxs| => h[idxs[j]])
  }

  ghost predicate Indexes(h: seq<LinOp>, idxs: seq<nat>) {
    && (forall j :: 0 <= j < |idxs| ==> idxs[j] < |h|)
    && NoDuplicates(idxs)
  }

  lemma Without(h: seq<LinOp>, idxs: seq<nat>, p: nat)
    requires Indexes(h, idxs) && p < |idxs| && idxs[p] == |h| - 1
    ensures var rest := idxs[..p] + idxs[p + 1..];
      && Indexes(h[..|h| - 1], rest)
      && multiset(Pick(h, idxs)) == multiset(Pick(h[..|h| - 1], rest)) + multiset{h[|h| - 1]}
      && forall i :: i in idxs && i != |h| - 1 ==> i in rest
  {
    var rest := idxs[..p] + idxs[p + 1..];
    forall i | i in idxs && i != |h| - 1 ensures i in rest {
      var j :| 0 <= j < |idxs| && idxs[j] == i;
      assert rest[if j < p then j else j - 1] == i;
    }
    var a, b := Pick(h, idxs), Pick(h[..|h| - 1], rest);
    assert a == a[..p] + [a[p]] + a[p + 1..];
    assert b == a[..p] + a[p + 1..];
  }

  lemma SomeIndex(h: seq<LinOp>, idxs: seq<nat>)
    requires Indexes(h, idxs)
    ensures |idxs| > 0 ==> |h| > 0
  {
    if |idxs| > 0 {
      assert idxs[0] < |h|;
    }
  }

  lemma LastCount(init: seq<LinOp>, last: LinOp, o: LinOp)
    ensures multiset(init + [last])[o] == multiset(init)[o] + (if last == o then 1 else 0)
  {
  }

  /** Distinct indexes pick each operation at most as often as it occurs, and as often if they pick all its
      occurrences. */
  lemma {:induction false} PickCovers(h: seq<LinOp>, idxs: seq<nat>, o: LinOp)
    requires Indexes(h, idxs)
    ensures multiset(Pick(h, idxs))[o] <= multiset(h)[o]
    ensures (forall i :: 0 <= i < |h| && h[i] == o ==> i in idxs) ==> multiset(Pick(h, idxs))[o] == multiset(h)[o]
    decreases |h|
  {
    hide NoDuplicates, Indexes;
    SomeIndex(h, idxs);
    if h != [] {
      var n := |h| - 1;
      var init := h[..n];
      assert h == init + [h[n]];
      LastCount(init, h[n], o);
      if n in idxs {
        var p :| 0 <= p < |idxs| && idxs[p] == n;
        Without(h, idxs, p);
        PickCovers(init, idxs[..p] + idxs[p + 1..], o);
      } else {
        NotLast(h, idxs);
        PickCovers(init, idxs, o);
      }
    }
  }

  lemma NotLast(h: seq<LinOp>, idxs: seq<nat>)
    requires Indexes(h, idxs) && h != [] && |h| - 1 !in idxs
    ensures Indexes(h[..|h| - 1], idxs) && Pick(h, idxs) == Pick(h[..|h| - 1], idxs)
  {
    hide NoDuplicates;
    forall j | 0 <= j < |idxs| ensures idxs[j] < |h| - 1 {
      assert idxs[j] in idxs;
    }
  }

  // ---- The three properties of the order

  lemma OrderCovers(cs: seq<Command>, history: seq<LinOp>, seqs: seq<nat>)
    requires Explains(cs, history, seqs)
    ensures Covers(multiset(history), Pick(history, OrderFrom(cs, history, seqs, 0)))
  {
    hide IsFresh, Issued, IssuedBy, DoneWithin, Distinguished, Pick;
    var idxs := OrderFrom(cs, history, seqs, 0);
    OrderDistinct(cs, history, seqs);
    forall o ensures multiset(Pick(history, idxs))[o] <= multiset(history)[o] {
      PickCovers(history, idxs, o);
    }
    forall o | o in multiset(history) - multiset(Pick(history, idxs)) ensures !o.complete {
      PickCovers(history, idxs, o);
      var i :| 0 <= i < |history| && history[i] == o && i !in idxs;
      if o.complete {
        AnsweredInOrder(cs, history, seqs, i);
      }
    }
  }

  lemma OrderDistinct(cs: seq<Command>, history: seq<LinOp>, seqs: seq<nat>)
    requires Explains(cs, history, seqs)
    ensures Indexes(history, OrderFrom(cs, history, seqs, 0))
  {
    hide IsFresh, Issued, IssuedBy, DoneWithin, Distinguished;
    var idxs := OrderFrom(cs, history, seqs, 0);
    var at := OrderPositions(cs, history, seqs, 0);
    forall a, b | 0 <= a < b < |idxs| ensures idxs[a] != idxs[b] {
      if idxs[a] == idxs[b] {
        FreshOnce(cs, history, seqs, at[a], at[b]);
      }
    }
  }

  lemma AnsweredInOrder(cs: seq<Command>, history: seq<LinOp>, seqs: seq<nat>, i: nat)
    requires Explains(cs, history, seqs) && i < |history| && history[i].complete
    ensures i in OrderFrom(cs, history, seqs, 0)
  {
    hide IsFresh, Issued, IssuedBy, Distinguished;
    var idxs := OrderFrom(cs, history, seqs, 0);
    var at := OrderPositions(cs, history, seqs, 0);
    assert DoneWithin(cs, history, seqs, i);
    var k :| 0 <= k < |cs| && DoneAt(cs, history, seqs, i, k);
    var j :| 0 <= j < |at| && at[j] == k;
    IndexUnique(history, seqs, idxs[j], i);
  }

  /** The answered operation at a place of the order was answered by the command there. */
  lemma AnsweredHere(cs: seq<Command>, history: seq<LinOp>, seqs: seq<nat>, i: nat, p: nat)
    requires Explains(cs, history, seqs) && p < |cs| && IsFresh(cs, p) && i == IndexOf(history, seqs, cs[p])
    requires history[i].complete
    ensures AnswerOf(cs, p) == Result(history[i].outValue, history[i].outOK)
    ensures forall q :: 0 <= q <= p ==> IssuedBy(history, seqs, cs[q], history[i].response)
  {
    hide IsFresh, AnswerOf, Issued, IssuedBy, Distinguished;
    assert DoneWithin(cs, history, seqs, i);
    var k :| 0 <= k < |cs| && DoneAt(cs, history, seqs, i, k);
    FreshOnce(cs, history, seqs, k, p);
  }

  lemma OrderRespectsTime(cs: seq<Command>, history: seq<LinOp>, seqs: seq<nat>)
    requires Explains(cs, history, seqs)
    ensures RespectsTime(Pick(history, OrderFrom(cs, history, seqs, 0)))
  {
    hide IsFresh, Issued, Distinguished, DoneWithin;
    var idxs := OrderFrom(cs, history, seqs, 0);
    var order := Pick(history, idxs);
    var at := OrderPositions(cs, history, seqs, 0);
    forall a, b | 0 <= a <= b < |order| && order[b].complete ensures order[a].invoke <= order[b].response {
      AnsweredHere(cs, history, seqs, idxs[b], at[b]);
      assert at[a] <= at[b];
      assert IssuedBy(history, seqs, cs[at[a]], order[b].response);
      var i :| 0 <= i < |history| && i < |seqs| && cs[at[a]] == CommandOf(history[i], seqs[i]) &&
          history[i].invoke <= order[b].response;
      IndexUnique(history, seqs, idxs[a], i);
    }
  }

  /** Registers and stored data say the same. */
  ghost predicate SameRegisters(rs: Registers, data: map<Str, Str>) {
    forall key :: Register(rs, key) == RegState(Current(data, key).value, Current(data, key).ok)
  }

  /** The recorded answer agrees with what the store answered, as far as an answer of its kind is looked at. */
  predicate Agrees(o: LinOp, res: Result) {
    && (o.kind == LinGet ==> Result(o.outValue, o.outOK) == res)
    && (o.kind == LinCAS ==> o.outOK == res.ok && (!res.ok ==> o.outValue == res.value))
  }

  /**
   * A register operation and the command that carries it out do the same, and an answered operation is explained if and
   * only if what was recorded agrees with what the store answers.
   */
  lemma OperationIsCommand(rs: Registers, data: map<Str, Str>, o: LinOp, seqno: nat)
    requires SameRegisters(rs, data)
    ensures var c := CommandOf(o, seqno);
      var (data', res) := Execute(data, c);
      && SameRegisters(rs[o.key := ApplyOp(Register(rs, o.key), o).next], data')
      && (Explained(Register(rs, o.key), o) <==> (o.complete ==> Agrees(o, res)))
  {
    var st := Register(rs, o.key);
    var rs' := rs[o.key := ApplyOp(st, o).next];
    var data' := Execute(data, CommandOf(o, seqno)).0;
    forall key ensures Register(rs', key) == RegState(Current(data', key).value, Current(data', key).ok) {
      assert Register(rs, key) == RegState(Current(data, key).value, Current(data, key).ok);
    }
  }

  lemma {:induction false} OrderLegal(cs: seq<Command>, history: seq<LinOp>, seqs: seq<nat>, p: nat, rs: Registers)
    requires Explains(cs, history, seqs) && p <= |cs|
    requires SameRegisters(rs, RunAll(EMPTY_STORE, cs[..p]).data)
    ensures LegalStoreRun(rs, Pick(history, OrderFrom(cs, history, seqs, p)))
    decreases |cs| - p
  {
    hide Explains, SameRegisters, Execute, Explained, ApplyOp, ApplyCommand, IndexOf, CommandOf, Register;
    if p < |cs| {
      ExplainsIssued(cs, history, seqs);
      var rest := OrderFrom(cs, history, seqs, p + 1);
      if IsFresh(cs, p) {
        var o := history[IndexOf(history, seqs, cs[p])];
        FreshMoves(cs, history, seqs, p, rs);
        OrderLegal(cs, history, seqs, p + 1, rs[o.key := ApplyOp(Register(rs, o.key), o).next]);
        var order := Pick(history, OrderFrom(cs, history, seqs, p));
        assert order[0] == o && order[1..] == Pick(history, rest);
      } else {
        StaleStays(cs, p);
        OrderLegal(cs, history, seqs, p + 1, rs);
        assert OrderFrom(cs, history, seqs, p) == rest;
      }
    }
  }

  /** A fresh command moves the registers as its operation does, and its operation is explained. */
  lemma FreshMoves(cs: seq<Command>, history: seq<LinOp>, seqs: seq<nat>, p: nat, rs: Registers)
    requires Explains(cs, history, seqs) && p < |cs| && IsFresh(cs, p) && Issued(history, seqs, cs[p])
    requires SameRegisters(rs, RunAll(EMPTY_STORE, cs[..p]).data)
    ensures var o := history[IndexOf(history, seqs, cs[p])];
      && Explained(Register(rs, o.key), o)
      && SameRegisters(rs[o.key := ApplyOp(Register(rs, o.key), o).next], RunAll(EMPTY_STORE, cs[..p + 1]).data)
  {
    hide Explains, SameRegisters, Execute, Explained, ApplyOp, CommandOf, Register;
    assert cs[..p + 1][..p] == cs[..p];
    var i := IndexOf(history, seqs, cs[p]);
    OperationIsCommand(rs, RunAll(EMPTY_STORE, cs[..p]).data, history[i], seqs[i]);
    if history[i].complete {
      AnsweredHere(cs, history, seqs, i, p);
    } else {
      Unanswered(Register(rs, history[i].key), history[i]);
    }
  }

  lemma Unanswered(st: RegState, o: LinOp)
    requires !o.complete
    ensures Explained(st, o)
  {
  }

  lemma StaleStays(cs: seq<Command>, p: nat)
    requires p < |cs| && !IsFresh(cs, p)
    ensures RunAll(EMPTY_STORE, cs[..p + 1]) == RunAll(EMPTY_STORE, cs[..p])
  {
    assert cs[..p + 1][..p] == cs[..p];
  }

  lemma ExplainsIssued(cs: seq<Command>, history: seq<LinOp>, seqs: seq<nat>)
    requires Explains(cs, history, seqs)
    ensures forall c :: c in cs ==> Issued(history, seqs, c)
  {
    hide Issued, DoneWithin, Distinguished;
  }

  /** The fresh commands of a log that explains a history are a linearization of it. */
  lemma LogLinearizes(cs: seq<Command>, history: seq<LinOp>, seqs: seq<nat>)
    requires Explains(cs, history, seqs)
    ensures Linearizable(history)
  {
    hide Explains, Covers, LegalStoreRun, RespectsTime, IsFresh, Issued;
    ExplainsIssued(cs, history, seqs);
    OrderCovers(cs, history, seqs);
    OrderRespectsTime(cs, history, seqs);
    assert cs[..0] == [];
    assert SameRegisters(map[], RunAll(EMPTY_STORE, cs[..0]).data);
    OrderLegal(cs, history, seqs, 0, map[]);
    assert IsStoreLinearization(history, Pick(history, OrderFrom(cs, history, seqs, 0)));
  }

  /**
   * The history clients record is linearizable at every moment of every run: with messages lost, repeated and reordered,
   * servers crashing and restarting, operations retried at any server, and answers given from apply or from the cache.
   */
  lemma HistoriesLinearizable(voters: seq<nat>, r: SysRun, k: nat)
    requires NoDuplicates(voters) && ValidSys(voters, r) && k < |r.states|
    ensures Linearizable(r.states[k].history)
  {
    hide SysInv, Ext, NextSys, InitSys, IsCommitted, Linearizable, Explains, GhostInv;
    var hs := SysRunSafe(voters, r, k);
    GhostOf(hs[k], r.states[k]);
    var l, t := CommittedLog(hs[k]);
    CommittedExplains(hs[k], r.states[k], l, t);
    LogLinearizes(Commands(l), r.states[k].history, r.states[k].seqs);
  }

  /** The answered operation came to this: a command of the log that took effect, answered by what was last written. */
  lemma AnsweredThere(cs: seq<Command>, history: seq<LinOp>, seqs: seq<nat>, i: nat) returns (p: nat)
    requires Explains(cs, history, seqs) && i < |history| && history[i].complete
    ensures p < |cs| && IsFresh(cs, p) && cs[p] == CommandOf(history[i], seqs[i])
    ensures AnswerOf(cs, p) == Result(history[i].outValue, history[i].outOK)
  {
    hide IsFresh, AnswerOf, Issued, IssuedBy, Distinguished;
    assert DoneWithin(cs, history, seqs, i);
    p :| p < |cs| && DoneAt(cs, history, seqs, i, p);
    assert cs[p] in cs;
    IndexUnique(history, seqs, IndexOf(history, seqs, cs[p]), i);
  }

  /** What clients are told in any run: every write succeeds, and only what was looked up and found has a value. */
  lemma AnswersTold(voters: seq<nat>, r: SysRun, k: nat, i: nat)
    requires NoDuplicates(voters) && ValidSys(voters, r) && k < |r.states|
    requires i < |r.states[k].history| && r.states[k].history[i].complete
    ensures var o := r.states[k].history[i];
      && (o.kind == LinPut ==> o.outOK && o.outValue == [])
      && (o.kind == LinCAS && o.outOK ==> o.outValue == [])
      && (o.kind == LinGet && !o.outOK ==> o.outValue == [])
  {
    hide SysInv, Ext, NextSys, InitSys, IsCommitted, Linearizable, Explains, GhostInv, IsFresh, AnswerOf, LastWritten;
    var hs := SysRunSafe(voters, r, k);
    GhostOf(hs[k], r.states[k]);
    var l, t := CommittedLog(hs[k]);
    CommittedExplains(hs[k], r.states[k], l, t);
    SameSeqs(hs[k], r.states[k]);
    var p := AnsweredThere(Commands(l), r.states[k].history, r.states[k].seqs, i);
    AnswersLastWritten(Commands(l), p);
  }

  lemma SameSeqs(gh: Ghost, s: Sys)
    requires SysInv(gh, s)
    ensures |s.history| == |s.seqs|
  {
    hide ClusterInv, PayloadInv, ReplicasInv, AnswersInv;
  }

  /** So the checker reports no violation on the history of any run. */
  method CheckRun(ghost voters: seq<nat>, ghost r: SysRun, ghost k: nat, history: seq<LinOp>)
    returns (violation: Option<Str>)
    requires NoDuplicates(voters) && ValidSys(voters, r) && k < |r.states| && history == r.states[k].history
    ensures violation.None?
  {
    HistoriesLinearizable(voters, r, k);
    violation := CheckLinearizable(history);
  }
}
