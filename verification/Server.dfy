/** One server: a node, its disk and its store, and the order in which a Step's output takes effect. */
module Server {
  import opened RaftTypes
  import opened ConfSpec
  import N = NodeSpec
  import opened Node
  import opened Storage
  import opened KV
  import opened Codec
  import opened System
  import Cluster
  import Replay

  /** What handling an input leaves behind, besides the server itself: messages to send, answers to clients, and whether
      the disk took what it was given. */
  datatype Effects = Effects(sent: seq<Message>, responses: seq<Response>, ok: bool)

  const NO_EFFECTS := Effects([], [], true)

  function Both(a: Effects, b: Effects): Effects {
    Effects(a.sent + b.sent, a.responses + b.responses, a.ok && b.ok)
  }

  /** A server as a value, with the notes all servers share; without a node it is down. */
  datatype ServerValue = ServerValue(node: Option<N.NodeState>, disk: Disk, app: Replica, notes: Notes)

  datatype Outcome = Outcome(server: ServerValue, effects: Effects)

  // ---- What the methods come to

  /** A crash at the fsync: the disk and the notes are as before, all else is gone. */
  function Lost(v: ServerValue): Outcome {
    Outcome(v.(node := None, app := NEW_REPLICA), NO_EFFECTS)
  }

  /** The output is made durable, sent and applied. */
  function Taken(v: ServerValue, out: Output): Outcome {
    var r := AppOutput(v.app, out);
    Outcome(ServerValue(v.node, Cluster.Fsync(v.disk, out.persist), r.app, NoteOutput(v.notes, v.app, out)),
            Effects(out.messages, r.responses, out.persist.None? || !Discontinuous(v.disk, out.persist.value)))
  }

  function TakeStep(v: ServerValue, i: Input, crash: bool): Outcome
    requires v.node.Some?
  {
    var t := N.Step(v.node.value, i);
    if t.out.persist.Some? && crash then Lost(v) else Taken(v.(node := Some(t)), t.out)
  }

  /** Enough has been applied since the last snapshot. */
  predicate Due(v: ServerValue, threshold: nat) {
    v.node.Some? && threshold != 0 && v.node.value.lastApplied >= v.node.value.log.snapIndex + threshold
  }

  /** An input in full: the step, and the snapshot taken right after it. */
  function Whole(v: ServerValue, i: Input, how: Course): Outcome
    requires v.node.Some?
  {
    var a := TakeStep(v, i, how.crash);
    if how.snapshot.None? || a.server.node.None? then a
    else
      var b := TakeStep(a.server, SnapshotInput(a.server.node.value, how.snapshot.value), how.crashAgain);
      Outcome(b.server, Both(a.effects, b.effects))
  }

  /** A snapshot of the store is taken exactly when entries were applied and enough of them by now. */
  ghost predicate Chosen(v: ServerValue, i: Input, how: Course, threshold: nat)
    requires v.node.Some?
  {
    var a := TakeStep(v, i, how.crash).server;
    if N.Step(v.node.value, i).out.applied != [] && Due(a, threshold)
    then how.snapshot.Some? && IsSnapshot(a.app.store, how.snapshot.value)
    else how.snapshot.None?
  }

  /** A client's request: refused while down, answered from the cache, redirected, or proposed with its client waiting. */
  function Requested(v: ServerValue, cmd: Command, how: Course): Outcome {
    if v.node.None? then Outcome(v, Answer(cmd, NO_RESULT, false, 0))
    else
      var hit := Cached(v.app.store, cmd.client, cmd.seqno);
      if hit.Some? then Outcome(v, Answer(cmd, hit.value, true, 0))
      else if v.node.value.role != Leader then Outcome(v, Answer(cmd, NO_RESULT, false, v.node.value.leaderID))
      else
        var o := Whole(v, RaftTypes.Propose(EncodeCommand(cmd)), how);
        var reply := N.Step(v.node.value, RaftTypes.Propose(EncodeCommand(cmd))).out.reply;
        if reply.Some? && reply.value.ok
        then Outcome(o.server.(app := o.server.app.(pending := o.server.app.pending[cmd.client := cmd.seqno])), o.effects)
        else Outcome(o.server, Both(o.effects, Answer(cmd, NO_RESULT, false,
                                                      if reply.Some? then reply.value.leaderHint else 0)))
  }

  /** Only a leader without a cached answer proposes. */
  predicate Proposes(v: ServerValue, cmd: Command) {
    v.node.Some? && Cached(v.app.store, cmd.client, cmd.seqno).None? && v.node.value.role == Leader
  }

  function Answer(cmd: Command, res: Result, ok: bool, hint: nat): Effects {
    NO_EFFECTS.(responses := [Response(cmd.client, cmd.seqno, res, ok, hint)])
  }

  /** A snapshot of the application's own hands nothing over. */
  lemma SnapshotAppliesNothing(n: N.NodeState, index: nat, data: seq<byte>)
    ensures N.Step(n, CreateSnapshot(index, data)).out.applied == []
  {
    hide ConfigAt, PruneConf, N.PersistOf;
  }

  // ---- The server

  /** The record of effects all servers of a simulation write to. */
  class EffectRecord {
    var notes: Notes

    constructor ()
      ensures notes == NO_NOTES
    {
      notes := NO_NOTES;
    }
  }

  class Server {
    const voters: seq<nat>
    const threshold: nat
    const record: EffectRecord
    var node: Node?
    const store: Durable
    var app: Store
    var pending: map<nat, nat>

    ghost function ReplicaValue(): Replica
      reads this, app
    {
      Replica(app.State(), pending)
    }

    ghost function Value(): ServerValue
      reads this, record, store, app, node, if node == null then {} else {node.log}
    {
      ServerValue(if node == null then None else Some(node.State()), store.Value(), ReplicaValue(), record.notes)
    }

    constructor (initial: seq<nat>, p: N.Params, snapshotEvery: nat, shared: EffectRecord)
      ensures voters == initial && threshold == snapshotEvery && record == shared
      ensures Value() == ServerValue(Some(N.NewNode(p, initial, Load(EMPTY_DISK))), EMPTY_DISK, NEW_REPLICA, shared.notes)
      ensures node != null && fresh(store) && fresh(app) && fresh(node) && fresh(node.log)
    {
      voters, threshold, record := initial, snapshotEvery, shared;
      store := new Durable();
      app := new Store();
      pending := map[];
      node := new Node(p, initial, Load(EMPTY_DISK));
    }

    // ---- The application

    /** Applies a committed entry, notes where it took effect, and answers the client that waits for it here. */
    method ApplyEntry(e: Entry) returns (responses: seq<Response>)
      modifies this`pending, app, record
      ensures Reaction(ReplicaValue(), responses) == AppApply(old(ReplicaValue()), e)
      ensures record.notes == NoteEntry(old(record.notes), old(app.State()), e)
    {
      responses := [];
      if e.typ != Normal || |e.data| == 0 {
        return;
      }
      var cmd := DecodeCommand(e.data);
      if cmd.None? {
        return;
      }
      var c := cmd.value;
      var res, fresh_ := app.Apply(c);
      if fresh_ {
        var k := (c.client, c.seqno);
        if k in record.notes.effectAt {
          if record.notes.effectAt[k] != e.index {
            record.notes := record.notes.(failed := true);
          }
        } else {
          record.notes := record.notes.(effectAt := record.notes.effectAt[k := e.index]);
        }
      }
      if c.client in pending && pending[c.client] == c.seqno {
        pending := pending - {c.client};
        responses := [Response(c.client, c.seqno, res, true, 0)];
      }
    }

    method ApplyEntries(es: seq<Entry>) returns (responses: seq<Response>)
      modifies this`pending, app, record
      ensures Reaction(ReplicaValue(), responses) == AppApplyAll(old(ReplicaValue()), es)
      ensures record.notes == NoteAll(old(record.notes), old(app.State()), es)
    {
      responses := [];
      for k := 0 to |es|
        invariant Reaction(ReplicaValue(), responses) == AppApplyAll(old(ReplicaValue()), es[..k])
        invariant app.State() == Replay.ApplyEntries(old(app.State()), es[..k])
        invariant record.notes == NoteAll(old(record.notes), old(app.State()), es[..k])
      {
        assert es[..k + 1][..k] == es[..k];
        var more := ApplyEntry(es[k]);
        responses := responses + more;
      }
      assert es[..|es|] == es;
    }

    method RestoreApp(data: seq<byte>)
      modifies this`app, this`pending
      ensures ReplicaValue() == AppRestore(data) && fresh(app)
    {
      var restored := RestoreStore(data);
      if restored.Some? {
        app := restored.value;
      } else {
        app := new Store();
      }
      pending := map[];
    }

    /** Everything volatile is lost. */
    method Crash()
      modifies this
      ensures Outcome(Value(), NO_EFFECTS) == Lost(old(Value()))
      ensures node == null && fresh(app)
    {
      node := null;
      app := new Store();
      pending := map[];
    }

    // ---- Output, in order

    /**
     * Makes the output durable, and only then sends and applies; a crash at the fsync leaves nothing of it. A snapshot
     * may follow when entries were applied.
     */
    method HandleOutput(out: Output, crash: bool, crashAgain: bool) returns (e: Effects, ghost taken: Option<seq<byte>>)
      requires node != null
      modifies this, store, app, record, node, node.log
      ensures var a := Taken(old(Value()), out);
        if out.persist.Some? && crash
        then taken.None? && Outcome(Value(), e) == Lost(old(Value()))
        else if out.applied != [] && Due(a.server, threshold)
        then taken.Some? && Snapshotted(a, taken.value, crashAgain, Value(), e)
        else taken.None? && Outcome(Value(), e) == a
      decreases if out.applied != [] then 2 else 0
    {
      hide N.Step, AppOutput, NoteOutput, Cluster.Fsync, Discontinuous, IsSnapshot;
      e, taken := NO_EFFECTS, None;
      if out.persist.Some? && crash {
        Crash();
        return;
      }
      e := TakeOutput(out);
      if |out.applied| > 0 {
        var more: Effects;
        more, taken := MaybeSnapshot(crashAgain);
        e := Both(e, more);
      }
    }

    /** A snapshot of the store as it stands is taken, and what comes of it is handled. */
    ghost predicate Snapshotted(a: Outcome, data: seq<byte>, crash: bool, v: ServerValue, e: Effects)
      requires a.server.node.Some?
    {
      var b := TakeStep(a.server, SnapshotInput(a.server.node.value, data), crash);
      IsSnapshot(a.server.app.store, data) && v == b.server && e == Both(a.effects, b.effects)
    }

    /** The disk first, then the messages, then the application. */
    method TakeOutput(out: Output) returns (e: Effects)
      requires node != null
      modifies this, store, app, record
      ensures Outcome(Value(), e) == Taken(old(Value()), out)
      ensures node == old(node) && (app == old(app) || fresh(app))
    {
      var ok := true;
      if out.persist.Some? {
        ok := store.Apply(out.persist);
      }
      if out.applySnapshot.Some? {
        RestoreApp(out.applySnapshot.value.data);
      }
      var responses := ApplyEntries(out.applied);
      e := Effects(out.messages, responses, ok);
    }

    /** Takes a snapshot of the store when enough has been applied since the last one. */
    method MaybeSnapshot(crash: bool) returns (e: Effects, ghost taken: Option<seq<byte>>)
      modifies this, store, app, record, node, if node == null then {} else {node.log}
      ensures if Due(old(Value()), threshold)
        then taken.Some? && Snapshotted(Outcome(old(Value()), NO_EFFECTS), taken.value, crash, Value(), e)
        else taken.None? && Outcome(Value(), e) == Outcome(old(Value()), NO_EFFECTS)
      decreases 1
    {
      hide N.Step, AppOutput, NoteOutput, Cluster.Fsync, Discontinuous, IsSnapshot;
      e, taken := NO_EFFECTS, None;
      if threshold == 0 || node == null {
        return;
      }
      if node.lastApplied < node.log.snapIndex + threshold {
        return;
      }
      var idx := node.lastApplied;
      var data := Codec.Snapshot(app);
      taken := Some(data);
      SnapshotAppliesNothing(node.State(), idx, data);
      var out := node.Step(CreateSnapshot(idx, data));
      ghost var nothing;
      e, nothing := HandleOutput(out, crash, false);
    }

    /** Hands the node an input and handles the output; a server that is down does nothing. */
    method Step(i: Input, crash: bool, crashAgain: bool)
      returns (reply: Option<ProposeReply>, e: Effects, ghost how: Course)
      modifies this, store, app, record, node, if node == null then {} else {node.log}
      ensures old(node) == null ==> reply.None? && Outcome(Value(), e) == Outcome(old(Value()), NO_EFFECTS)
      ensures old(node) != null ==>
        && how == Course(crash, how.snapshot, crashAgain)
        && Chosen(old(Value()), i, how, threshold)
        && Outcome(Value(), e) == Whole(old(Value()), i, how)
        && reply == N.Step(old(Value()).node.value, i).out.reply
    {
      hide N.Step, AppOutput, NoteOutput, Cluster.Fsync, Discontinuous, IsSnapshot;
      how := Course(crash, None, crashAgain);
      if node == null {
        return None, NO_EFFECTS, how;
      }
      var out := node.Step(i);
      reply := out.reply;
      ghost var taken;
      e, taken := HandleOutput(out, crash, crashAgain);
      how := Course(crash, taken, crashAgain);
    }

    /** Rebuilds node and store from what the disk holds. */
    method Restart(p: N.Params)
      requires node == null
      modifies this
      ensures node != null && fresh(node) && fresh(node.log) && fresh(app)
      ensures Value() == old(Value()).(node := Some(N.NewNode(p, voters, Load(store.Value()))),
                                       app := AppRestart(store.Value()))
    {
      var r := store.Restored();
      node := new Node(p, voters, r);
      if r.snapshot.Some? {
        RestoreApp(r.snapshot.value.data);
      } else {
        app := new Store();
        pending := map[];
      }
    }

    // ---- Clients

    /** Answers from the cache, redirects, or proposes the command and lets its client wait here. */
    method HandleRequest(cmd: Command, crash: bool, crashAgain: bool) returns (e: Effects, ghost how: Course)
      modifies this, store, app, record, node, if node == null then {} else {node.log}
      ensures how == Course(crash, how.snapshot, crashAgain)
      ensures Outcome(Value(), e) == Requested(old(Value()), cmd, how)
      ensures Proposes(old(Value()), cmd) ==>
        Chosen(old(Value()), RaftTypes.Propose(EncodeCommand(cmd)), how, threshold)
    {
      hide N.Step, TakeStep, Whole, Chosen, Due, EncodeCommand, IsSnapshot;
      how := Course(crash, None, crashAgain);
      if node == null {
        return Answer(cmd, NO_RESULT, false, 0), how;
      }
      var res, hit := app.CachedResult(cmd.client, cmd.seqno);
      if hit {
        return Answer(cmd, res, true, 0), how;
      }
      if node.role != Leader {
        return Answer(cmd, NO_RESULT, false, node.leaderID), how;
      }
      var data := Encode(cmd);
      var reply: Option<ProposeReply>;
      reply, e, how := Step(RaftTypes.Propose(data), crash, crashAgain);
      if reply.Some? && reply.value.ok {
        pending := pending[cmd.client := cmd.seqno];
      } else {
        e := Both(e, Answer(cmd, NO_RESULT, false, if reply.Some? then reply.value.leaderHint else 0));
      }
    }
  }
}
