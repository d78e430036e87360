/**
 * The whole system: the cluster, a key-value store on every server, and clients that retry until answered.
 *
 * Requests and responses stay in their sets once sent, so they too may be lost, repeated and reordered.
 */
module System {
  import opened RaftTypes
  import opened NodeSpec
  import opened Storage
  import opened Cluster
  import opened KV
  import opened Codec
  import opened Replay
  import opened Histories
  import Bytes

  // ---- The application on one server

  /** The store, and the clients waiting here for an entry to be applied. */
  datatype Replica = Replica(store: StoreState, pending: map<nat, nat>)

  const NEW_REPLICA := Replica(EMPTY_STORE, map[])

  datatype Request = Request(target: nat, cmd: Command)

  datatype Response = Response(client: nat, seqno: nat, res: Result, ok: bool, hint: nat)

  datatype Reaction = Reaction(app: Replica, responses: seq<Response>)

  /** One committed entry: applied, and the client waiting for it answered. */
  function AppApply(app: Replica, e: Entry): Reaction {
    match CommandIn(e)
    case None => Reaction(app, [])
    case Some(c) =>
      var r := ApplyCommand(app.store, c);
      if c.client in app.pending && app.pending[c.client] == c.seqno
      then Reaction(Replica(r.next, app.pending - {c.client}), [Response(c.client, c.seqno, r.res, true, 0)])
      else Reaction(Replica(r.next, app.pending), [])
  }

  function AppApplyAll(app: Replica, es: seq<Entry>): Reaction {
    if es == [] then Reaction(app, [])
    else
      var r := AppApplyAll(app, es[..|es| - 1]);
      var q := AppApply(r.app, es[|es| - 1]);
      Reaction(q.app, r.responses + q.responses)
  }

  /** The empty store stands in where the original panics, which `SystemTheorems.NothingUndecodable` rules out. */
  function AppRestore(data: seq<byte>): Replica {
    Replica(if DecodeStore(data).Some? then DecodeStore(data).value else EMPTY_STORE, map[])
  }

  function AppRestart(d: Disk): Replica {
    if d.snap.Some? then AppRestore(d.snap.value.data) else NEW_REPLICA
  }

  /** What the application makes of a Step's output: a snapshot first, then the entries. */
  function AppOutput(app: Replica, out: Output): Reaction {
    AppApplyAll(if out.applySnapshot.Some? then AppRestore(out.applySnapshot.value.data) else app, out.applied)
  }

  /** The entry carries the command a client waits for here. */
  predicate Awaited(app: Replica, e: Entry, client: nat) {
    && client in app.pending && CommandIn(e).Some?
    && CommandIn(e).value.client == client && CommandIn(e).value.seqno == app.pending[client]
  }

  /** The first of the entries that carries the command a client waits for. */
  predicate FirstAwaited(app: Replica, es: seq<Entry>, client: nat, n: nat) {
    n < |es| && Awaited(app, es[n], client) && forall k :: 0 <= k < n ==> !Awaited(app, es[k], client)
  }

  /** The answer of the n-th entry, when the ones before it have been applied. */
  function AnswerAt(app: Replica, es: seq<Entry>, n: nat): Response
    requires n < |es| && CommandIn(es[n]).Some?
  {
    var c := CommandIn(es[n]).value;
    Response(c.client, c.seqno, ApplyCommand(ApplyEntries(app.store, es[..n]), c).res, true, 0)
  }

  /** Those still wait whose command is not among the entries; and the store is what applying the entries makes of it. */
  lemma {:induction false} StillWaiting(app: Replica, es: seq<Entry>)
    ensures var r := AppApplyAll(app, es);
      && r.app.store == ApplyEntries(app.store, es)
      && (forall c :: c in r.app.pending <==>
           c in app.pending && forall n :: 0 <= n < |es| ==> !Awaited(app, es[n], c))
      && (forall c :: c in r.app.pending ==> r.app.pending[c] == app.pending[c])
  {
    hide CommandIn, ApplyCommand;
    if es != [] {
      var m := |es| - 1;
      StillWaiting(app, es[..m]);
      forall c ensures (forall n :: 0 <= n < |es| ==> !Awaited(app, es[n], c)) <==>
          (forall n :: 0 <= n < m ==> !Awaited(app, es[..m][n], c)) && !Awaited(app, es[m], c) {
        hide Awaited;
        assert forall n :: 0 <= n < m ==> es[..m][n] == es[n];
      }
    }
  }

  /** The answers of the last entry: to the client whose command it carries, if it waits and no earlier one carried it. */
  lemma LastAnswers(app: Replica, es: seq<Entry>)
    requires es != []
    ensures var m := |es| - 1;
      var before, after := AppApplyAll(app, es[..m]).responses, AppApplyAll(app, es).responses;
      if CommandIn(es[m]).Some? && FirstAwaited(app, es, CommandIn(es[m]).value.client, m)
      then after == before + [AnswerAt(app, es, m)] else after == before
  {
    hide CommandIn, ApplyCommand;
    var m := |es| - 1;
    StillWaiting(app, es[..m]);
    assert forall n :: 0 <= n < m ==> es[..m][n] == es[n];
  }

  /** The n-th entry is the first to carry what the client waits for, and this is its answer. */
  predicate AnsweredBy(app: Replica, es: seq<Entry>, resp: Response, n: nat) {
    FirstAwaited(app, es, resp.client, n) && resp == AnswerAt(app, es, n)
  }

  lemma AnsweredBefore(app: Replica, es: seq<Entry>, resp: Response, n: nat)
    requires es != [] && n < |es| - 1
    ensures AnsweredBy(app, es[..|es| - 1], resp, n) <==> AnsweredBy(app, es, resp, n)
  {
    hide CommandIn, ApplyCommand, Awaited;
    assert es[..|es| - 1][..n] == es[..n];
  }

  lemma AnsweredLast(app: Replica, es: seq<Entry>, resp: Response)
    requires es != []
    ensures var m := |es| - 1;
      resp in AppApplyAll(app, es).responses <==>
        resp in AppApplyAll(app, es[..m]).responses || AnsweredBy(app, es, resp, m)
  {
    hide AppApplyAll, ApplyCommand;
    LastAnswers(app, es);
  }

  /**
   * Applying entries answers exactly those clients whose command is among them, with what the store answers when it comes
   * to the first that carries it.
   */
  lemma {:induction false} WaitingAnswered(app: Replica, es: seq<Entry>, resp: Response)
    ensures resp in AppApplyAll(app, es).responses <==> exists n :: 0 <= n < |es| && AnsweredBy(app, es, resp, n)
  {
    hide AnsweredBy;
    if es != [] {
      var m := |es| - 1;
      WaitingAnswered(app, es[..m], resp);
      AnsweredLast(app, es, resp);
      forall n: nat | n < m ensures AnsweredBy(app, es[..m], resp, n) <==> AnsweredBy(app, es, resp, n) {
        AnsweredBefore(app, es, resp, n);
      }
    }
  }

  // ---- The check of exactly-once

  /** At which index each command took effect first, and whether one was seen to take effect at two. */
  datatype Notes = Notes(effectAt: map<(nat, nat), nat>, failed: bool)

  const NO_NOTES := Notes(map[], false)

  /** An entry is about to be applied to a store; what takes effect is noted, or compared with what was noted before. */
  function NoteEntry(n: Notes, store: StoreState, e: Entry): Notes {
    match CommandIn(e)
    case None => n
    case Some(c) =>
      var k := (c.client, c.seqno);
      if !ApplyCommand(store, c).fresh_ then n
      else if k in n.effectAt then n.(failed := n.failed || n.effectAt[k] != e.index)
      else n.(effectAt := n.effectAt[k := e.index])
  }

  function NoteAll(n: Notes, store: StoreState, es: seq<Entry>): Notes {
    if es == [] then n
    else
      var init := es[..|es| - 1];
      NoteEntry(NoteAll(n, store, init), ApplyEntries(store, init), es[|es| - 1])
  }

  /** What a Step's output adds to the notes. */
  function NoteOutput(n: Notes, app: Replica, out: Output): Notes {
    NoteAll(n, (if out.applySnapshot.Some? then AppRestore(out.applySnapshot.value.data) else app).store, out.applied)
  }

  /** The i-th of the entries takes effect, as this command of this client. */
  predicate EffectAt(store: StoreState, es: seq<Entry>, i: nat, k: (nat, nat)) {
    && i < |es| && CommandIn(es[i]).Some? && k == (CommandIn(es[i]).value.client, CommandIn(es[i]).value.seqno)
    && ApplyCommand(ApplyEntries(store, es[..i]), CommandIn(es[i]).value).fresh_
  }

  /** It takes effect at another index than was noted. */
  predicate EffectElsewhere(n: Notes, store: StoreState, es: seq<Entry>, i: nat, k: (nat, nat)) {
    EffectAt(store, es, i, k) && !(k in n.effectAt && n.effectAt[k] == es[i].index)
  }

  /** The first place where the command takes effect. */
  predicate FirstEffect(store: StoreState, es: seq<Entry>, i: nat, k: (nat, nat)) {
    EffectAt(store, es, i, k) && forall j :: 0 <= j < i ==> !EffectAt(store, es, j, k)
  }

  lemma EffectBefore(store: StoreState, es: seq<Entry>, i: nat, k: (nat, nat))
    requires es != [] && i < |es| - 1
    ensures EffectAt(store, es[..|es| - 1], i, k) <==> EffectAt(store, es, i, k)
  {
    assert es[..|es| - 1][..i] == es[..i];
  }

  /** What the last entry adds to the notes. */
  lemma LastNoted(n: Notes, store: StoreState, es: seq<Entry>, k: (nat, nat))
    requires es != []
    ensures var m := |es| - 1;
      var a, b := NoteAll(n, store, es[..m]), NoteAll(n, store, es);
      && (k in b.effectAt <==> k in a.effectAt || EffectAt(store, es, m, k))
      && (k in b.effectAt ==> b.effectAt[k] == if k in a.effectAt then a.effectAt[k] else es[m].index)
      && (EffectAt(store, es, m, k) ==> b.failed == (a.failed || b.effectAt[k] != es[m].index))
      && ((forall q :: !EffectAt(store, es, m, q)) ==> b.failed == a.failed)
  {
    hide ApplyCommand, ApplyEntries;
    var m := |es| - 1;
    if CommandIn(es[m]).Some? {
      var q := (CommandIn(es[m]).value.client, CommandIn(es[m]).value.seqno);
      assert EffectAt(store, es, m, q) <==> ApplyCommand(ApplyEntries(store, es[..m]), CommandIn(es[m]).value).fresh_;
    }
  }

  /** Each command is noted where it first took effect, and what was noted before stays. */
  lemma {:induction false} NotedFirst(n: Notes, store: StoreState, es: seq<Entry>, k: (nat, nat))
    ensures var r := NoteAll(n, store, es);
      && (k in r.effectAt <==> k in n.effectAt || exists i :: 0 <= i < |es| && EffectAt(store, es, i, k))
      && (k in n.effectAt ==> r.effectAt[k] == n.effectAt[k])
      && (k !in n.effectAt ==> forall i :: 0 <= i < |es| && FirstEffect(store, es, i, k) ==> r.effectAt[k] == es[i].index)
  {
    hide NoteAll, EffectAt;
    if es == [] {
      NothingNoted(n, store);
    } else {
      var m := |es| - 1;
      NotedFirst(n, store, es[..m], k);
      LastNoted(n, store, es, k);
      forall i: nat | i < m ensures EffectAt(store, es[..m], i, k) <==> EffectAt(store, es, i, k) {
        EffectBefore(store, es, i, k);
      }
      assert forall i :: 0 <= i < m ==> (FirstEffect(store, es[..m], i, k) <==> FirstEffect(store, es, i, k));
    }
  }

  lemma NothingNoted(n: Notes, store: StoreState)
    ensures NoteAll(n, store, []) == n
  {
  }

  /** The check fails if and only if some command takes effect at another index than is noted for it. */
  lemma {:induction false} NotesExact(n: Notes, store: StoreState, es: seq<Entry>)
    ensures var r := NoteAll(n, store, es);
      r.failed <==> n.failed || exists i, k :: 0 <= i < |es| && EffectElsewhere(r, store, es, i, k)
  {
    hide NoteAll, EffectAt;
    if es == [] {
      NothingNoted(n, store);
    } else {
      var m := |es| - 1;
      var a, r := NoteAll(n, store, es[..m]), NoteAll(n, store, es);
      NotesExact(n, store, es[..m]);
      forall i: nat, k | i < m
        ensures EffectElsewhere(a, store, es[..m], i, k) <==> EffectElsewhere(r, store, es, i, k)
      {
        EffectBefore(store, es, i, k);
        LastNoted(n, store, es, k);
        NotedFirst(n, store, es[..m], k);
      }
      LastElsewhere(n, store, es);
    }
  }

  lemma LastElsewhere(n: Notes, store: StoreState, es: seq<Entry>)
    requires es != []
    ensures var m := |es| - 1;
      var a, r := NoteAll(n, store, es[..m]), NoteAll(n, store, es);
      r.failed <==> a.failed || exists k :: EffectElsewhere(r, store, es, m, k)
  {
    hide NoteAll;
    var m := |es| - 1;
    if k :| EffectAt(store, es, m, k) {
      LastNoted(n, store, es, k);
      var r := NoteAll(n, store, es);
      assert forall q :: EffectAt(store, es, m, q) ==> q == k;
      assert EffectElsewhere(r, store, es, m, k) <==> r.effectAt[k] != es[m].index;
    } else {
      LastNoted(n, store, es, (0, 0));
    }
  }

  // ---- Clients

  datatype Client = Client(seqno: nat, inflight: bool, cmd: Command, histIdx: nat)

  /** The command that carries out an operation. */
  function CommandOf(o: LinOp, seqno: nat): Command {
    match o.kind
    case LinGet => Command(o.client, seqno, OP_GET, o.key, [], [])
    case LinPut => Command(o.client, seqno, OP_PUT, o.key, o.arg1, [])
    case LinCAS => Command(o.client, seqno, OP_CAS, o.key, o.arg2, o.arg1)
  }

  /** An operation as it is recorded when invoked. */
  predicate JustInvoked(o: LinOp, client: nat, now: Time) {
    && o.client == client && o.invoke == now && o.response == 0
    && !o.complete && o.outValue == [] && !o.outOK
    && (o.kind == LinGet ==> o.arg1 == []) && (o.kind != LinCAS ==> o.arg2 == [])
  }

  function Answered(o: LinOp, res: Result, now: Time): LinOp {
    o.(response := now, complete := true, outValue := res.value, outOK := res.ok)
  }

  // ---- The system

  /** `seqs` records beside each operation of the history the sequence number it was sent under. */
  datatype Sys = Sys(
    cluster: State, apps: map<nat, Replica>, clients: map<nat, Client>,
    requests: set<Request>, responses: set<Response>, history: seq<LinOp>, seqs: seq<nat>, now: Time, notes: Notes)

  datatype Event =
    | ServerStep(id: nat, input: Input, how: Course)
    | ServerCrash(id: nat)
    | ServerRestart(id: nat, p: Params)
    | Serve(req: Request, how: Course)
    | Invoke(client: nat, op: LinOp)
    | Send(client: nat, target: nat)
    | Deliver(resp: Response)
    | Wait(time: Time)

  ghost function Elems(rs: seq<Response>): set<Response> {
    set r | r in rs
  }

  /** A step of a server's node, with what its application makes of the output. */
  ghost function WithStep(s: Sys, id: nat, i: Input): Sys
    requires Alive(s.cluster, id) && id in s.apps
  {
    var r := AppOutput(s.apps[id], Step(NodeOf(s.cluster, id), i).out);
    s.(cluster := AfterStep(s.cluster, id, i), apps := s.apps[id := r.app], responses := s.responses + Elems(r.responses),
       notes := NoteOutput(s.notes, s.apps[id], Step(NodeOf(s.cluster, id), i).out))
  }

  ghost function WithCrash(s: Sys, id: nat): Sys
    requires id in s.cluster.servers
  {
    s.(cluster := AfterCrash(s.cluster, id), apps := s.apps[id := NEW_REPLICA])
  }

  ghost function WithResponse(s: Sys, r: Response): Sys {
    s.(responses := s.responses + {r})
  }

  ghost function WithPending(s: Sys, id: nat, client: nat, seqno: nat): Sys
    requires id in s.apps
  {
    s.(apps := s.apps[id := s.apps[id].(pending := s.apps[id].pending[client := seqno])])
  }

  /** Clients make the proposals, and a server takes its snapshots itself. */
  ghost predicate MayStep(s: Sys, id: nat, i: Input) {
    Alive(s.cluster, id) && id in s.apps && Offers(s.cluster, id, i) && !i.Propose? && !i.CreateSnapshot?
  }

  /**
   * The course of one step: the fsync may be lost in a crash, and when something was applied a snapshot of the store may
   * be taken at once, whose fsync may be lost too.
   */
  datatype Course = Course(crash: bool, snapshot: Option<seq<byte>>, crashAgain: bool)

  function SnapshotInput(n: NodeState, data: seq<byte>): Input {
    CreateSnapshot(n.lastApplied, data)
  }

  /** Snapshots are of the store as it stands then, of at most 2^32 - 1 keys and sessions. */
  ghost predicate MayGo(s: Sys, id: nat, i: Input, how: Course)
    requires Alive(s.cluster, id) && id in s.apps
  {
    var t := WithStep(s, id, i);
    var n := Step(NodeOf(s.cluster, id), i);
    if how.crash then n.out.persist.Some? && how.snapshot.None?
    else how.snapshot.Some? ==>
      && n.out.applied != []
      && IsSnapshot(t.apps[id].store, how.snapshot.value) && Countable(t.apps[id].store)
      && (how.crashAgain ==> Step(n, SnapshotInput(n, how.snapshot.value)).out.persist.Some?)
  }

  ghost function Gone(s: Sys, id: nat, i: Input, how: Course): Sys
    requires Alive(s.cluster, id) && id in s.apps
  {
    if how.crash then WithCrash(s, id)
    else
      var t := WithStep(s, id, i);
      if how.snapshot.None? then t
      else if how.crashAgain then WithCrash(t, id)
      else WithStep(t, id, SnapshotInput(NodeOf(t.cluster, id), how.snapshot.value))
  }

  predicate Countable(store: StoreState) {
    |store.data| < Bytes.U32 && |store.sessions| < Bytes.U32
  }

  /** A server handles a client's request: from the cache, by a redirect, or by proposing it. */
  ghost predicate Served(s: Sys, req: Request, how: Course, s': Sys)
    requires req.target in s.cluster.servers && req.target in s.apps
  {
    var id, cmd := req.target, req.cmd;
    if !Alive(s.cluster, id) then s' == WithResponse(s, Response(cmd.client, cmd.seqno, NO_RESULT, false, 0))
    else
      var node, hit := NodeOf(s.cluster, id), Cached(s.apps[id].store, cmd.client, cmd.seqno);
      if hit.Some? then s' == WithResponse(s, Response(cmd.client, cmd.seqno, hit.value, true, 0))
      else if node.role != Leader then s' == WithResponse(s,
          Response(cmd.client, cmd.seqno, NO_RESULT, false, node.leaderID))
      else
        var input := Propose(EncodeCommand(cmd));
        var out := Step(node, input).out;
        && MayGo(s, id, input, how)
        && var t := Gone(s, id, input, how);
           s' == if out.reply.Some? && out.reply.value.ok then WithPending(t, id, cmd.client, cmd.seqno)
                 else WithResponse(t, Response(cmd.client, cmd.seqno, NO_RESULT, false,
                                               if out.reply.Some? then out.reply.value.leaderHint else 0))
  }

  /** The client starts its next operation. */
  ghost function AfterInvoke(s: Sys, client: nat, op: LinOp): Sys
    requires client in s.clients
  {
    var seqno := s.clients[client].seqno + 1;
    s.(clients := s.clients[client := Client(seqno, true, CommandOf(op, seqno), |s.history|)],
       history := s.history + [op], seqs := s.seqs + [seqno])
  }

  /** The client takes the answer of the operation it waits for. */
  ghost function AfterDeliver(s: Sys, r: Response): Sys
    requires r.client in s.clients && s.clients[r.client].histIdx < |s.history|
  {
    var c := s.clients[r.client];
    s.(clients := s.clients[r.client := c.(inflight := false)],
       history := s.history[c.histIdx := Answered(s.history[c.histIdx], r.res, s.now)])
  }

  ghost predicate NextSys(voters: seq<nat>, s: Sys, ev: Event, s': Sys) {
    match ev
    case ServerStep(id, i, how) => MayStep(s, id, i) && MayGo(s, id, i, how) && s' == Gone(s, id, i, how)
    case ServerCrash(id) => Alive(s.cluster, id) && s' == WithCrash(s, id)
    case ServerRestart(id, p) =>
      && id in s.cluster.servers && !Alive(s.cluster, id) && p.id == id
      && s' == s.(cluster := AfterRestart(voters, s.cluster, id, p),
           apps := s.apps[id := AppRestart(s.cluster.servers[id].disk)])
    case Serve(req, how) =>
      req in s.requests && req.target in s.cluster.servers && req.target in s.apps && Served(s, req, how, s')
    case Invoke(client, op) =>
      && client in s.clients && !s.clients[client].inflight && JustInvoked(op, client, s.now)
      && var seqno := s.clients[client].seqno + 1;
      CommandFits(CommandOf(op, seqno)) && s' == AfterInvoke(s, client, op)
    case Send(client, target) =>
      && client in s.clients && s.clients[client].inflight
      && s' == s.(requests := s.requests + {Request(target, s.clients[client].cmd)})
    case Deliver(resp) =>
      && resp in s.responses && resp.client in s.clients
      && var c := s.clients[resp.client];
      if !c.inflight || resp.seqno != c.seqno || !resp.ok then s' == s
      else c.histIdx < |s.history| && s' == AfterDeliver(s, resp)
    case Wait(time) => time >= s.now && s' == s.(now := time)
  }

  ghost predicate InitSys(voters: seq<nat>, s: Sys) {
    && Init(voters, s.cluster)
    && s.apps.Keys == s.cluster.servers.Keys
    && (forall id :: id in s.apps ==> s.apps[id] == NEW_REPLICA)
    && (forall c :: c in s.clients ==> s.clients[c].seqno == 0 && !s.clients[c].inflight)
    && s.requests == {} && s.responses == {} && s.history == [] && s.seqs == [] && s.notes == NO_NOTES
  }

  datatype SysRun = SysRun(states: seq<Sys>, events: seq<Event>)

  ghost predicate ValidSys(voters: seq<nat>, r: SysRun) {
    && |r.states| == |r.events| + 1
    && InitSys(voters, r.states[0])
    && forall k :: 0 <= k < |r.events| ==> NextSys(voters, r.states[k], r.events[k], r.states[k + 1])
  }
}
