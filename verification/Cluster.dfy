/**
 * A cluster of servers over a network that may lose, duplicate and reorder messages, with crashes at any moment,
 * at the fsync boundary included, and restarts from disk.
 */
module Cluster {
  import opened RaftTypes
  import opened LogSpec
  import opened NodeSpec
  import opened Storage

  /** A server is down when it has no node; its disk survives. */
  datatype Server = Server(node: Option<NodeState>, disk: Disk)

  /** Every message ever sent stays in `net`: a delivery picks any of them, any number of times, or never. */
  datatype State = State(servers: map<nat, Server>, net: set<Message>)

  datatype Action =
    | StepAt(id: nat, input: Input)        // the output is made durable, then sent
    | CrashAtFsync(id: nat, input: Input)  // the crash erases the Step with its output
    | Crash(id: nat)
    | Restart(id: nat, p: Params)

  ghost predicate Alive(c: State, id: nat) {
    id in c.servers && c.servers[id].node.Some?
  }

  ghost function NodeOf(c: State, id: nat): NodeState
    requires Alive(c, id)
  {
    c.servers[id].node.value
  }

  /** Messages come from the network, and a snapshot is of applied state. */
  ghost predicate MayOffer(c: State, id: nat, i: Input)
    requires Alive(c, id)
  {
    match i
    case Receive(m) => m in c.net && m.to == id
    case CreateSnapshot(index, _) => index <= NodeOf(c, id).lastApplied
    case _ => true
  }

  /** What may be offered while the voters stay fixed. */
  ghost predicate Offers(c: State, id: nat, i: Input)
    requires Alive(c, id)
  {
    MayOffer(c, id, i) && !i.ProposeConfChange?
  }

  function Fsync(d: Disk, p: Option<Persist>): Disk {
    if p.Some? then Write(d, p.value) else d
  }

  ghost function Sent(s: NodeState): set<Message> {
    set m | m in s.out.messages
  }

  ghost function AfterStep(c: State, id: nat, i: Input): State
    requires Alive(c, id)
  {
    var t := Step(NodeOf(c, id), i);
    State(c.servers[id := Server(Some(t), Fsync(c.servers[id].disk, t.out.persist))], c.net + Sent(t))
  }

  ghost function AfterCrash(c: State, id: nat): State
    requires id in c.servers
  {
    c.(servers := c.servers[id := Server(None, c.servers[id].disk)])
  }

  ghost function AfterRestart(voters: seq<nat>, c: State, id: nat, p: Params): State
    requires id in c.servers
  {
    c.(servers := c.servers[id := Server(Some(NewNode(p, voters, Load(c.servers[id].disk))), c.servers[id].disk)])
  }

  ghost predicate Next(voters: seq<nat>, c: State, a: Action, c': State) {
    match a
    case StepAt(id, i) =>
      && Alive(c, id) && Offers(c, id, i)
      && c' == AfterStep(c, id, i)
    case CrashAtFsync(id, i) =>
      && Alive(c, id) && Offers(c, id, i) && Step(NodeOf(c, id), i).out.persist.Some?
      && c' == AfterCrash(c, id)
    case Crash(id) =>
      && Alive(c, id)
      && c' == AfterCrash(c, id)
    case Restart(id, p) =>
      && id in c.servers && !Alive(c, id) && p.id == id
      && c' == AfterRestart(voters, c, id, p)
  }

  ghost predicate Init(voters: seq<nat>, c: State) {
    && NONE !in c.servers
    && (forall v :: v in voters ==> v in c.servers)
    && c.net == {}
    && forall id :: id in c.servers ==>
      && c.servers[id].disk == EMPTY_DISK
      && c.servers[id].node.Some?
      && c.servers[id].node.value == NewNode(c.servers[id].node.value.p, voters, Load(EMPTY_DISK))
      && c.servers[id].node.value.p.id == id
  }

  /** A finite run: states, and the actions between them. */
  datatype Run = Run(states: seq<State>, actions: seq<Action>)

  ghost predicate Valid(voters: seq<nat>, r: Run) {
    && |r.states| == |r.actions| + 1
    && Init(voters, r.states[0])
    && forall k :: 0 <= k < |r.actions| ==> Next(voters, r.states[k], r.actions[k], r.states[k + 1])
  }

  // ---- What can be observed

  ghost predicate Leads(c: State, id: nat, term: nat) {
    Alive(c, id) && NodeOf(c, id).role == Leader && NodeOf(c, id).term == term
  }

  /** The durable log of a server, up or down. */
  ghost function DiskLog(d: Disk): Log {
    if d.snap.Some? then Log(d.snap.value.index, d.snap.value.term, d.entries) else Log(0, 0, d.entries)
  }

  /** The entries the k-th action of a run hands to the state machine of the server it happens at. */
  ghost function AppliedBy(r: Run, k: nat): seq<Entry>
    requires k < |r.actions| && k < |r.states|
  {
    match r.actions[k]
    case StepAt(id, i) => if Alive(r.states[k], id) then Step(NodeOf(r.states[k], id), i).out.applied else []
    case _ => []
  }

  /** Both logs retain index n. */
  ghost predicate Retains(l: Log, n: nat) {
    l.snapIndex < n <= l.LastIndex()
  }

  ghost function EntryAt(l: Log, n: nat): Entry
    requires Retains(l, n)
  {
    l.entries[n - l.snapIndex - 1]
  }

  /** The two logs agree on every entry up to k that both still retain. */
  ghost predicate SameUpTo(a: Log, b: Log, k: nat) {
    forall n: nat :: n <= k && Retains(a, n) && Retains(b, n) ==> EntryAt(a, n) == EntryAt(b, n)
  }
}
