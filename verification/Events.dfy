/** What the methods of a server come to are the events of the system. */
module Events {
  import opened RaftTypes
  import opened Storage
  import opened KV
  import opened Codec
  import opened System
  import opened Server
  import N = NodeSpec
  import Cluster
  import Commands
  import Snapshots

  /** Server id of the system, as a value. */
  ghost function At(s: Sys, id: nat): ServerValue
    requires id in s.cluster.servers && id in s.apps
  {
    ServerValue(s.cluster.servers[id].node, s.cluster.servers[id].disk, s.apps[id], s.notes)
  }

  ghost function MessagesOf(ms: seq<Message>): set<Message> {
    set m | m in ms
  }

  /** The system once server id has come to an outcome: what it sent is on its way. */
  ghost function Put(s: Sys, id: nat, o: Outcome): Sys {
    s.(cluster := Cluster.State(s.cluster.servers[id := Cluster.Server(o.server.node, o.server.disk)],
                                s.cluster.net + MessagesOf(o.effects.sent)),
       apps := s.apps[id := o.server.app],
       responses := s.responses + Elems(o.effects.responses),
       notes := o.server.notes)
  }

  /** A crash is meant where there is an fsync to lose, and no snapshot follows a crash. */
  ghost predicate Meant(v: ServerValue, i: Input, how: Course)
    requires v.node.Some?
  {
    var a := TakeStep(v, i, how.crash).server;
    && (how.crash ==> N.Step(v.node.value, i).out.persist.Some?)
    && (how.crashAgain && a.node.Some? && how.snapshot.Some? ==>
      N.Step(a.node.value, SnapshotInput(a.node.value, how.snapshot.value)).out.persist.Some?)
  }

  lemma TakenIsStep(s: Sys, id: nat, i: Input)
    requires Cluster.Alive(s.cluster, id) && id in s.apps
    ensures Put(s, id, TakeStep(At(s, id), i, false)) == WithStep(s, id, i)
  {
    hide N.Step, AppOutput, NoteOutput, Cluster.Fsync, Discontinuous;
    var t := N.Step(Cluster.NodeOf(s.cluster, id), i);
    assert MessagesOf(t.out.messages) == Cluster.Sent(t);
  }

  lemma LostIsCrash(s: Sys, id: nat)
    requires Cluster.Alive(s.cluster, id) && id in s.apps
    ensures Put(s, id, Lost(At(s, id))) == WithCrash(s, id)
  {
    assert s.cluster.net + MessagesOf([]) == s.cluster.net;
    assert s.responses + Elems([]) == s.responses;
  }

  /** Two outcomes in a row are one. */
  lemma PutTwice(s: Sys, id: nat, a: Outcome, b: Outcome)
    ensures Put(Put(s, id, a), id, b) == Put(s, id, Outcome(b.server, Both(a.effects, b.effects)))
  {
    assert MessagesOf(a.effects.sent + b.effects.sent) == MessagesOf(a.effects.sent) + MessagesOf(b.effects.sent);
    assert Elems(a.effects.responses + b.effects.responses) == Elems(a.effects.responses) + Elems(b.effects.responses);
    hide MessagesOf, Elems;
    var x, y := Put(Put(s, id, a), id, b), Put(s, id, Outcome(b.server, Both(a.effects, b.effects)));
    assert x.cluster.servers == y.cluster.servers && x.apps == y.apps;
    assert x.cluster.net == y.cluster.net && x.responses == y.responses;
  }

  /** An input handled in full is what the system makes of it. */
  lemma WholeIsGone(s: Sys, id: nat, i: Input, how: Course)
    requires Cluster.Alive(s.cluster, id) && id in s.apps && Meant(At(s, id), i, how)
    requires how.crash ==> how.snapshot.None?
    ensures Put(s, id, Whole(At(s, id), i, how)) == Gone(s, id, i, how)
  {
    hide N.Step, Taken, Put, AppOutput, WithStep;
    var v := At(s, id);
    LostIsCrash(s, id);
    TakenIsStep(s, id, i);
    if !how.crash && how.snapshot.Some? {
      var a := TakeStep(v, i, false);
      var t := WithStep(s, id, i);
      StaysUp(v, i);
      PutAt(s, id, a);
      var b := TakeStep(a.server, SnapshotInput(a.server.node.value, how.snapshot.value), how.crashAgain);
      LostIsCrash(t, id);
      TakenIsStep(t, id, SnapshotInput(a.server.node.value, how.snapshot.value));
      PutTwice(s, id, a, b);
    }
  }

  lemma StaysUp(v: ServerValue, i: Input)
    requires v.node.Some?
    ensures TakeStep(v, i, false).server.node == Some(N.Step(v.node.value, i))
  {
    hide N.Step;
  }

  lemma PutAt(s: Sys, id: nat, o: Outcome)
    ensures id in Put(s, id, o).cluster.servers && id in Put(s, id, o).apps && At(Put(s, id, o), id) == o.server
  {
  }

  /** The course a server takes is one the system allows. */
  lemma ChosenMayGo(s: Sys, id: nat, i: Input, how: Course, threshold: nat)
    requires Cluster.Alive(s.cluster, id) && id in s.apps
    requires Chosen(At(s, id), i, how, threshold) && Meant(At(s, id), i, how)
    requires how.snapshot.Some? ==> Countable(TakeStep(At(s, id), i, how.crash).server.app.store)
    ensures MayGo(s, id, i, how) && (how.crash ==> how.snapshot.None?)
  {
    hide N.Step, AppOutput, IsSnapshot, Countable;
    TakenIsStep(s, id, i);
    PutAt(s, id, TakeStep(At(s, id), i, false));
  }

  /**
   * Handling an input, with the snapshot that may follow and the crashes that may strike, is one event of the system:
   * `Server.Step` and `Server.HandleOutput` do nothing that the theorems about runs do not cover.
   */
  lemma StepIsEvent(voters: seq<nat>, s: Sys, id: nat, i: Input, how: Course, threshold: nat)
    requires MayStep(s, id, i) && Chosen(At(s, id), i, how, threshold) && Meant(At(s, id), i, how)
    requires how.snapshot.Some? ==> Countable(TakeStep(At(s, id), i, how.crash).server.app.store)
    ensures NextSys(voters, s, ServerStep(id, i, how), Put(s, id, Whole(At(s, id), i, how)))
  {
    hide N.Step, Chosen, Meant, MayGo, Put, Whole, Gone, TakeStep, Cluster.Offers;
    ChosenMayGo(s, id, i, how, threshold);
    WholeIsGone(s, id, i, how);
  }

  /** Answering an outcome's client here is answering in the system. */
  lemma AnswerIsResponse(s: Sys, id: nat, o: Outcome, r: Response)
    ensures Put(s, id, Outcome(o.server, Both(o.effects, NO_EFFECTS.(responses := [r])))) == WithResponse(Put(s, id, o), r)
  {
    assert o.effects.sent + [] == o.effects.sent;
    assert Elems(o.effects.responses + [r]) == Elems(o.effects.responses) + {r};
  }

  lemma OnlyAnswer(s: Sys, id: nat, r: Response)
    requires id in s.cluster.servers && id in s.apps
    ensures Put(s, id, Outcome(At(s, id), NO_EFFECTS.(responses := [r]))) == WithResponse(s, r)
  {
    assert s.cluster.net + MessagesOf([]) == s.cluster.net;
    assert Elems([r]) == {r};
  }

  lemma WaitingIsPending(s: Sys, id: nat, o: Outcome, client: nat, seqno: nat)
    ensures Put(s, id, Outcome(o.server.(app := o.server.app.(pending := o.server.app.pending[client := seqno])), o.effects))
      == WithPending(Put(s, id, o), id, client, seqno)
  {
  }

  /**
   * Snapshots keep up with applying: when entries were applied and no crash struck, fewer than the threshold are applied
   * beyond the snapshot point, or none is ever taken.
   */
  lemma SnapshotsKeepUp(v: ServerValue, i: Input, how: Course, threshold: nat)
    requires v.node.Some? && Chosen(v, i, how, threshold) && !how.crash && !how.crashAgain && threshold > 0
    requires var n := N.Step(v.node.value, i);
      n.out.applied != [] && !n.panicked && n.lastApplied <= n.log.LastIndex()
    ensures var n := Whole(v, i, how).server.node;
      n.Some? && n.value.lastApplied < n.value.log.snapIndex + threshold
  {
    hide N.Step, AppOutput, NoteOutput, Cluster.Fsync, Discontinuous, IsSnapshot;
    var n := N.Step(v.node.value, i);
    if how.snapshot.Some? {
      Snapshots.SnapshotMade(n, n.lastApplied, how.snapshot.value);
    }
  }

  /**
   * A request that a leader takes becomes the next entry of its log, under its term, and the client waits for it here:
   * unless the answer is cached, the leader is handing over, or the step is lost.
   */
  lemma LeaderTakes(s: Sys, req: Request, s': Sys)
    requires Cluster.Alive(s.cluster, req.target) && req.target in s.apps
    requires Served(s, req, Course(false, None, false), s')
    requires Cached(s.apps[req.target].store, req.cmd.client, req.cmd.seqno).None?
    requires Cluster.NodeOf(s.cluster, req.target).role == Leader
    requires Cluster.NodeOf(s.cluster, req.target).transferee == NONE
    ensures Cluster.Alive(s'.cluster, req.target) && req.target in s'.apps
    ensures var n := Cluster.NodeOf(s.cluster, req.target);
      Cluster.NodeOf(s'.cluster, req.target).log ==
        n.log.Append(Entry(n.log.LastIndex() + 1, n.term, Normal, EncodeCommand(req.cmd)))
    ensures var pending := s'.apps[req.target].pending;
      req.cmd.client in pending && pending[req.cmd.client] == req.cmd.seqno
  {
    hide N.Step, AppOutput, EncodeCommand, Cached;
    Commands.Proposed(Cluster.NodeOf(s.cluster, req.target), EncodeCommand(req.cmd));
  }

  /** Handling a client's request is one event too. */
  lemma RequestIsEvent(voters: seq<nat>, s: Sys, req: Request, how: Course, threshold: nat)
    requires req in s.requests && req.target in s.cluster.servers && req.target in s.apps
    requires var v := At(s, req.target);
      var i := Propose(EncodeCommand(req.cmd));
      Proposes(v, req.cmd) ==>
        && Chosen(v, i, how, threshold) && Meant(v, i, how)
        && (how.snapshot.Some? ==> Countable(TakeStep(v, i, how.crash).server.app.store))
    ensures NextSys(voters, s, Serve(req, how), Put(s, req.target, Requested(At(s, req.target), req.cmd, how)))
  {
    hide N.Step, Chosen, Meant, MayGo, Put, Whole, Gone, TakeStep, EncodeCommand, Cached;
    var id, cmd := req.target, req.cmd;
    var v, i := At(s, id), Propose(EncodeCommand(cmd));
    if v.node.None? {
      OnlyAnswer(s, id, Response(cmd.client, cmd.seqno, NO_RESULT, false, 0));
    } else if !Proposes(v, cmd) {
      var hit := Cached(v.app.store, cmd.client, cmd.seqno);
      if hit.Some? {
        OnlyAnswer(s, id, Response(cmd.client, cmd.seqno, hit.value, true, 0));
      } else {
        OnlyAnswer(s, id, Response(cmd.client, cmd.seqno, NO_RESULT, false, v.node.value.leaderID));
      }
    } else {
      ChosenMayGo(s, id, i, how, threshold);
      WholeIsGone(s, id, i, how);
      var o := Whole(v, i, how);
      var reply := N.Step(v.node.value, i).out.reply;
      WaitingIsPending(s, id, o, cmd.client, cmd.seqno);
      AnswerIsResponse(s, id, o, Response(cmd.client, cmd.seqno, NO_RESULT, false,
          if reply.Some? then reply.value.leaderHint else 0));
    }
  }

  lemma CrashIsEvent(voters: seq<nat>, s: Sys, id: nat)
    requires Cluster.Alive(s.cluster, id) && id in s.apps
    ensures NextSys(voters, s, ServerCrash(id), Put(s, id, Lost(At(s, id))))
  {
    hide Put, Lost;
    LostIsCrash(s, id);
  }

  lemma RestartIsEvent(voters: seq<nat>, s: Sys, id: nat, p: N.Params)
    requires id in s.cluster.servers && id in s.apps && !Cluster.Alive(s.cluster, id) && p.id == id
    ensures var v := At(s, id);
      var up := v.(node := Some(N.NewNode(p, voters, Load(v.disk))), app := AppRestart(v.disk));
      NextSys(voters, s, ServerRestart(id, p), Put(s, id, Outcome(up, NO_EFFECTS)))
  {
    hide N.NewNode, AppRestart;
    assert s.cluster.net + MessagesOf([]) == s.cluster.net;
    assert s.responses + Elems([]) == s.responses;
  }
}
