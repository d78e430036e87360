/** The vocabulary of the Raft core: entries, messages, persistence orders, inputs and outputs. */
module RaftTypes {
  type byte = b: int | 0 <= b < 256
  type pos = n: int | 0 < n witness 1

  datatype Option<+T> = None | Some(value: T)

  /** The identifier that stands for no node. */
  const NONE: nat := 0

  datatype Role = Follower | PreCandidate | Candidate | Leader

  datatype EntryType = Normal | Noop | Conf

  datatype Entry = Entry(index: nat, term: nat, typ: EntryType, data: seq<byte>)

  datatype HardState = HardState(term: nat, votedFor: nat)

  datatype Config = Config(voters: seq<nat>) {
    predicate Contains(id: nat) {
      id in voters
    }

    function Quorum(): (q: nat)
      ensures q >= 1
      ensures 2 * q > |voters|
    {
      |voters| / 2 + 1
    }
  }

  datatype Snapshot = Snapshot(index: nat, term: nat, config: Config, data: seq<byte>)

  /** RPC requests and responses; each constructor keeps the fields its kind uses. */
  datatype Message =
    | Vote(from: nat, to: nat, term: nat, preVote: bool, force: bool, lastLogIndex: nat, lastLogTerm: nat)
    | VoteResp(from: nat, to: nat, term: nat, preVote: bool, force: bool, granted: bool)
    | App(from: nat, to: nat, term: nat, prevLogIndex: nat, prevLogTerm: nat, entries: seq<Entry>, commit: nat)
    | AppResp(from: nat, to: nat, term: nat, success: bool, matchIndex: nat, conflictIndex: nat, conflictTerm: nat)
    | Snap(from: nat, to: nat, term: nat, snapshot: Option<Snapshot>)
    | SnapResp(from: nat, to: nat, term: nat, matchIndex: nat)
    | TimeoutNow(from: nat, to: nat, term: nat)

  /** One fsync unit: hard state, then snapshot, then entries. */
  datatype Persist = Persist(hardState: Option<HardState>, entries: seq<Entry>, snapshot: Option<Snapshot>, replaceLog: bool)

  datatype ConfChange = AddServer(id: nat) | RemoveServer(id: nat)

  datatype Input =
    | Tick
    | Receive(msg: Message)
    | Propose(data: seq<byte>)
    | ProposeConfChange(change: ConfChange)
    | TransferLeadership(target: nat)
    | CreateSnapshot(index: nat, data: seq<byte>)

  datatype ProposeReply = ProposeReply(ok: bool, index: nat, term: nat, leaderHint: nat)

  datatype Output = Output(
    messages: seq<Message>,
    persist: Option<Persist>,
    applied: seq<Entry>,
    applySnapshot: Option<Snapshot>,
    reply: Option<ProposeReply>)

  const EMPTY_OUTPUT := Output([], None, [], None, None)

  datatype Restore = Restore(hardState: HardState, snapshot: Option<Snapshot>, entries: seq<Entry>)
}
