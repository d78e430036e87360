/** The invariant of the cluster, kept by every action, and the history that explains a whole run. */
module ClusterSafety {
  import opened RaftTypes
  import opened Storage
  import opened Ghosts
  import opened SafetyInv
  import opened SafetyRestart
  import opened DiskRefinement
  import opened Cluster
  import NodeSpec
  import SafetySteps

  type NodeState = NodeSpec.NodeState

  const IDLE: nat -> nat := (n: nat) => 0

  /** The node a server is, or would be if restarted now. */
  ghost function View(gh: Ghost, id: nat, sv: Server): NodeState {
    if sv.node.Some? then sv.node.value
    else NodeSpec.NewNode(NodeSpec.Params(id, 1, 1, 1, false, IDLE), gh.voters, Load(sv.disk))
  }

  ghost predicate ServerInv(gh: Ghost, id: nat, sv: Server) {
    var s := View(gh, id, sv);
    s.p.id == id && NodeInv(gh, s) && Mirrors(sv.disk, s) && AppliedTrue(gh, s)
  }

  /** What the last Step handed to the state machine was committed. */
  ghost predicate AppliedTrue(gh: Ghost, s: NodeState) {
    forall e :: e in s.out.applied ==> AppliedInv(gh, e)
  }

  ghost predicate ClusterInv(c: State, gh: Ghost) {
    && GhostInv(gh)
    && (forall id :: id in c.servers ==> ServerInv(gh, id, c.servers[id]))
    && (forall m :: m in c.net ==> MsgInv(gh, m))
  }

  /** The application's snapshots are what the argument assumes about them. */
  ghost predicate DataOk(gh: Ghost, c: State, a: Action) {
    a.StepAt? && a.input.CreateSnapshot? && Alive(c, a.id) && LogInv(gh.tlog, NodeOf(c, a.id).log)
      && a.input.index <= NodeOf(c, a.id).log.LastIndex()
    ==> gh.rel(Full(gh.tlog, NodeOf(c, a.id).log)[..a.input.index], a.input.data)
  }

  /** Nobody leads a term that already had a leader, except by having led it all along. */
  ghost predicate NoReturn(gh: Ghost, c: State, c': State) {
    forall id, T :: Leads(c', id, T) && T in gh.leader ==> Leads(c, id, T)
  }

  lemma OtherServers(gh: Ghost, gh': Ghost, c: State, i: nat)
    requires ClusterInv(c, gh) && ExtBy(i, gh, gh') && GhostInv(gh')
    ensures forall id :: id in c.servers && id != i ==> ServerInv(gh', id, c.servers[id])
    ensures forall m :: m in c.net ==> MsgInv(gh', m)
  {
    forall id | id in c.servers && id != i ensures ServerInv(gh', id, c.servers[id]) {
      OtherServer(gh, gh', i, id, c.servers[id]);
    }
    hide GhostInv, Ext, OnlyBy, MsgInv, ServerInv;
    forall m | m in c.net ensures MsgInv(gh', m) {
      MsgInvGrows(gh, gh', m);
    }
  }

  lemma OtherServer(gh: Ghost, gh': Ghost, i: nat, id: nat, sv: Server)
    requires GhostInv(gh) && GhostInv(gh') && ExtBy(i, gh, gh') && id != i && ServerInv(gh, id, sv)
    ensures ServerInv(gh', id, sv)
  {
    hide NodeInv, TermLogs, VotesSafe, LeadersSafe, OnlyBy, Grows, NodeSpec.NewNode, AppliedInv;
    NodeInvGrows(i, gh, gh', View(gh, id, sv));
    forall e | e in View(gh, id, sv).out.applied ensures AppliedInv(gh', e) {
      AppliedGrows(gh, gh', e);
    }
  }

  lemma DownSafe(gh: Ghost, id: nat, sv: Server)
    requires GhostInv(gh) && ServerInv(gh, id, sv)
    ensures ServerInv(gh, id, Server(None, sv.disk))
    ensures View(gh, id, Server(None, sv.disk)).role == Follower
  {
    hide GhostInv, NodeInv, NodeSpec.NewNode;
    RestartSafe(gh, View(gh, id, sv), sv.disk, NodeSpec.Params(id, 1, 1, 1, false, IDLE));
  }

  lemma UpSafe(gh: Ghost, id: nat, sv: Server, p: NodeSpec.Params)
    requires GhostInv(gh) && ServerInv(gh, id, sv) && p.id == id
    ensures var t := NodeSpec.NewNode(p, gh.voters, Load(sv.disk));
      ServerInv(gh, id, Server(Some(t), sv.disk)) && t.role == Follower
  {
    hide GhostInv, NodeInv, NodeSpec.NewNode;
    RestartSafe(gh, View(gh, id, sv), sv.disk, p);
  }

  ghost function ProposedBy(a: Action): set<seq<byte>> {
    if a.StepAt? && a.input.Propose? then {a.input.data} else {}
  }

  /** The history as it stands before an action: its proposals noted, and where its applying begins. */
  ghost function Noted(gh: Ghost, c: State, a: Action): Ghost {
    gh.(payload := gh.payload + ProposedBy(a), start := if Alive(c, a.id) then NodeOf(c, a.id).lastApplied else 0)
  }

  lemma NotedKeeps(c: State, gh: Ghost, a: Action)
    requires ClusterInv(c, gh)
    ensures ClusterInv(c, Noted(gh, c, a)) && Ext(gh, Noted(gh, c, a))
  {
    hide Alive;
    var i: nat := Unused(c.servers.Keys);
    ExtRefl(gh, i);
    assert ExtBy(i, gh, Noted(gh, c, a));
    NotedGhost(gh, Noted(gh, c, a));
    OtherServers(gh, Noted(gh, c, a), c, i);
  }

  ghost function Unused(ids: set<nat>): (i: nat)
    ensures i !in ids
  {
    FreshId(ids);
    var i: nat :| i !in ids;
    i
  }

  lemma FreshId(ids: set<nat>)
    ensures exists i: nat :: i !in ids
  {
    var i := Above(ids);
    assert i !in ids;
  }

  lemma {:induction false} Above(ids: set<nat>) returns (i: nat)
    ensures forall x :: x in ids ==> x < i
    decreases |ids|
  {
    i := 0;
    if ids != {} {
      var x :| x in ids;
      assert ids == (ids - {x}) + {x};
      var j := Above(ids - {x});
      i := if j > x then j else x + 1;
    }
  }

  lemma NotedGhost(gh: Ghost, gh': Ghost)
    requires GhostInv(gh) && gh.payload <= gh'.payload && gh' == gh.(payload := gh'.payload, start := gh'.start)
    ensures GhostInv(gh')
  {
    hide TermLogs, Own, LaterHave, KeyReaches, Agree;
    assert Elections(gh') by {
      forall T | T in gh'.tlog ensures Elected(gh', T) {
        assert Elected(gh, T);
      }
    }
    NotedSafe(gh, gh');
  }

  lemma NotedSafe(gh: Ghost, gh': Ghost)
    requires Elections(gh) && Acknowledged(gh) && VotesSafe(gh) && LeadersSafe(gh)
    requires Elections(gh') && gh' == gh.(payload := gh'.payload, start := gh'.start)
    ensures Acknowledged(gh') && VotesSafe(gh') && LeadersSafe(gh')
  {
    hide Own, LaterHave, KeyReaches, Agree, Elections;
  }

  lemma InputIsOk(gh: Ghost, c: State, id: nat, i: Input)
    requires ClusterInv(c, gh) && Alive(c, id) && Offers(c, id, i) && DataOk(gh, c, StepAt(id, i))
    requires ProposedBy(StepAt(id, i)) <= gh.payload
    ensures LogInv(gh.tlog, NodeOf(c, id).log) && InputOk(gh, NodeOf(c, id), i)
  {
    var s := NodeOf(c, id);
    assert ServerInv(gh, id, c.servers[id]);
    assert NodeInv(gh, s) && s.p.id == id;
    hide GhostInv, MsgInv, ServerInv, Owes, IsCommitted, SnapshotOf;
  }

  /** One Step of one server: its node, its disk and the network stay explained. */
  lemma StepAtSafe(c: State, id: nat, i: Input, gh: Ghost) returns (gh': Ghost)
    requires ClusterInv(c, gh) && Alive(c, id) && Offers(c, id, i) && DataOk(gh, c, StepAt(id, i))
    requires ProposedBy(StepAt(id, i)) <= gh.payload && gh.start == NodeOf(c, id).lastApplied
    ensures var t := NodeSpec.Step(NodeOf(c, id), i);
      var d := c.servers[id].disk;
      && ExtBy(id, gh, gh') && GhostInv(gh') && gh'.payload == gh.payload
      && ServerInv(gh', id, Server(Some(t), Fsync(d, t.out.persist)))
      && (t.out.persist.Some? ==> !Discontinuous(d, t.out.persist.value))
      && (forall m :: m in t.out.messages ==> MsgInv(gh', m))
      && (forall e :: e in t.out.applied ==> AppliedInv(gh', e))
      && InOrder(NodeOf(c, id).lastApplied, t)
      && (t.out.applySnapshot.Some? ==> RestoredInv(gh', t.out.applySnapshot.value))
      && !t.panicked
      && (t.role == Leader && t.term in gh.leader ==> NodeOf(c, id).role == Leader && NodeOf(c, id).term == t.term)
  {
    hide TermLogs, VotesSafe, LeadersSafe, Elections, Acknowledged, NodeInv, LogInv, Full, Ext, OnlyBy, NodeSpec.Step,
         WellFormed, AppliedInv;
    InputIsOk(gh, c, id, i);
    var s := NodeOf(c, id);
    assert ServerInv(gh, id, c.servers[id]);
    gh' := StepSafe(gh, s, i);
    var t := NodeSpec.Step(s, i);
    assert SafetySteps.Good(gh', t);
    NodeWellFormed(gh, s);
    NodeWellFormed(gh', t);
    StepMirrors(c.servers[id].disk, s, i);
  }

  /** What a Step hands to the state machine: in order, without a gap, and all of it committed. */
  ghost predicate HandsOver(gh: Ghost, c: State, a: Action) {
    a.StepAt? && Alive(c, a.id) ==>
      var t := NodeSpec.Step(NodeOf(c, a.id), a.input);
      && InOrder(NodeOf(c, a.id).lastApplied, t)
      && (forall e :: e in t.out.applied ==> AppliedInv(gh, e))
      && (t.out.applySnapshot.Some? ==> RestoredInv(gh, t.out.applySnapshot.value))
  }

  /** Every action keeps the invariant, for a history that only grows. */
  lemma NextSafe(c: State, a: Action, c': State, gh: Ghost) returns (gh': Ghost)
    requires ClusterInv(c, gh) && Next(gh.voters, c, a, c') && DataOk(gh, c, a)
    requires ProposedBy(a) <= gh.payload && (Alive(c, a.id) ==> gh.start == NodeOf(c, a.id).lastApplied)
    ensures ClusterInv(c', gh') && Ext(gh, gh') && NoReturn(gh, c, c') && gh'.payload == gh.payload
    ensures HandsOver(gh', c, a)
  {
    hide GhostInv, ServerInv, MsgInv, AppliedInv, RestoredInv, InOrder, OnlyBy, Grows, NodeSpec.Step,
         NodeSpec.NewNode, NodeInv, Offers;
    gh' := gh;
    ExtRefl(gh, a.id);
    match a
    case StepAt(id, i) =>
      gh' := StepAtSafe(c, id, i, gh);
      OtherServers(gh, gh', c, id);
    case CrashAtFsync(id, i) =>
      DownSafe(gh, id, c.servers[id]);
    case Crash(id) =>
      DownSafe(gh, id, c.servers[id]);
    case Restart(id, p) =>
      UpSafe(gh, id, c.servers[id], p);
  }

  lemma InitSafe(voters: seq<nat>, rel: SnapRel, c: State)
    requires NoDuplicates(voters) && Init(voters, c)
    ensures ClusterInv(c, NoHistory(voters, rel))
  {
    hide NodeInv, NodeSpec.NewNode, GhostInv;
    forall id | id in c.servers ensures ServerInv(NoHistory(voters, rel), id, c.servers[id]) {
      InitialSafe(voters, rel, c.servers[id].node.value.p);
    }
    InitialSafe(voters, rel, NodeSpec.Params(1, 1, 1, 1, false, IDLE));
  }

  // ---- Runs

  /** A growing history that explains every state of a run. */
  ghost predicate Explains(r: Run, hs: seq<Ghost>) {
    && |hs| == |r.states|
    && (forall k :: 0 <= k < |hs| ==> ClusterInv(r.states[k], hs[k]))
    && (forall j, k :: 0 <= j <= k < |hs| ==> Ext(hs[j], hs[k]))
    && (forall k :: 0 <= k < |hs| - 1 ==> NoReturn(hs[k], r.states[k], r.states[k + 1]))
  }

  /** The run without its last action. */
  ghost function Front(r: Run): Run
    requires |r.actions| > 0 && |r.states| == |r.actions| + 1
  {
    Run(r.states[..|r.actions|], r.actions[..|r.actions| - 1])
  }

  lemma AnyDataOk(gh: Ghost, c: State, a: Action)
    requires gh.rel == AnyData
    ensures DataOk(gh, c, a)
  {
    hide LogInv, Full;
  }

  lemma NotedDataOk(gh: Ghost, c: State, a: Action)
    requires DataOk(gh, c, a)
    ensures DataOk(Noted(gh, c, a), c, a)
  {
    hide LogInv, Full;
  }

  /** Every action of the cluster, with its proposals noted. */
  lemma ActionSafe(c: State, a: Action, c': State, gh: Ghost) returns (gh': Ghost)
    requires ClusterInv(c, gh) && Next(gh.voters, c, a, c') && DataOk(gh, c, a)
    ensures ClusterInv(c', gh') && Ext(gh, gh') && NoReturn(gh, c, c')
    ensures gh'.payload == gh.payload + ProposedBy(a) && HandsOver(gh', c, a)
  {
    hide ClusterInv, Ext, Next, DataOk, Leads, HandsOver;
    var noted := Noted(gh, c, a);
    NotedKeeps(c, gh, a);
    NotedDataOk(gh, c, a);
    gh' := NextSafe(c, a, c', noted);
    ExtTrans(gh, noted, gh');
  }

  /** Adds the last state of a run to a history of the rest. */
  lemma ExtendHistory(r: Run, hq: seq<Ghost>) returns (hs: seq<Ghost>)
    requires |r.actions| > 0 && |r.states| == |r.actions| + 1
    requires Explains(Front(r), hq)
    requires var n := |r.actions|; var gh := hq[n - 1];
      Next(gh.voters, r.states[n - 1], r.actions[n - 1], r.states[n]) && DataOk(gh, r.states[n - 1], r.actions[n - 1])
    ensures Explains(r, hs) && hs[..|hq|] == hq
    ensures hs[|r.actions|].payload == hq[|r.actions| - 1].payload + ProposedBy(r.actions[|r.actions| - 1])
  {
    hide ClusterInv, Ext, Next, DataOk, NoReturn;
    var n := |r.actions|;
    assert Front(r).states[n - 1] == r.states[n - 1];
    var gh' := ActionSafe(r.states[n - 1], r.actions[n - 1], r.states[n], hq[n - 1]);
    hs := hq + [gh'];
    forall j, k | 0 <= j <= k < |hs| ensures Ext(hs[j], hs[k]) {
      ExtSelf(gh');
      if j < n && k == n {
        assert Ext(hq[j], hq[n - 1]);
        ExtTrans(hq[j], hq[n - 1], gh');
      }
    }
    forall k | 0 <= k < |hs| ensures ClusterInv(r.states[k], hs[k]) {
      if k < n {
        assert Front(r).states[k] == r.states[k];
      }
    }
    forall k | 0 <= k < |hs| - 1 ensures NoReturn(hs[k], r.states[k], r.states[k + 1]) {
      if k < n - 1 {
        assert Front(r).states[k] == r.states[k] && Front(r).states[k + 1] == r.states[k + 1];
      }
    }
  }

  lemma ExtSelf(gh: Ghost)
    ensures Ext(gh, gh)
  {
    ExtRefl(gh, 0);
  }

  /** Every run has a history that explains it. */
  lemma {:induction false} RunExplained(voters: seq<nat>, r: Run) returns (hs: seq<Ghost>)
    requires NoDuplicates(voters) && Valid(voters, r)
    ensures Explains(r, hs)
    ensures forall k :: 0 <= k < |hs| ==> hs[k].voters == voters && hs[k].rel == AnyData
    decreases |r.actions|
  {
    hide ClusterInv, Ext, Init, Next, DataOk, NoReturn;
    var n := |r.actions|;
    if n == 0 {
      InitSafe(voters, AnyData, r.states[0]);
      hs := [NoHistory(voters, AnyData)];
      ExtSelf(hs[0]);
    } else {
      var hq := RunExplained(voters, Front(r));
      AnyDataOk(hq[n - 1], r.states[n - 1], r.actions[n - 1]);
      hs := ExtendHistory(r, hq);
      assert Ext(hs[0], hs[n]);
      SameSetup(hs[0], hs[n]);
      assert hs[0] == hs[..n][0];
      forall k | 0 <= k < |hs| ensures hs[k].voters == voters && hs[k].rel == AnyData {
        assert k < n ==> hs[k] == hs[..n][k];
      }
    }
  }

  lemma SameSetup(a: Ghost, b: Ghost)
    requires Ext(a, b)
    ensures b.voters == a.voters && b.rel == a.rel
  {
  }
}
