/**
 * One Raft node as a value, and what each handler does to it.
 *
 * `Step` is the specification of the `Node` class and the transition the cluster is built from.
 * A panic of the original is a sticky flag: whatever the functions compute after it is set means nothing.
 */
module NodeSpec {
  import opened RaftTypes
  import opened LogSpec
  import opened ConfSpec

  /** Static parameters; `rng` is the injected source, read one draw at a time. */
  datatype Params = Params(id: nat, et: pos, ht: pos, maxBatch: nat, preVote: bool, rng: nat -> nat)

  datatype Progress = Progress(next: nat, matched: nat, recentActive: bool, pendingSnap: bool)

  datatype Clock = Clock(
    electionElapsed: nat, randTimeout: nat, heartbeatElapsed: nat,
    quorumElapsed: nat, transferElapsed: nat, drawn: nat)

  /** What the current Step still has to make durable. */
  datatype Dirty = Dirty(hs: bool, appendedFrom: nat, snap: Option<Persist>)

  const CLEAN := Dirty(false, 0, None)

  datatype NodeState = NodeState(
    p: Params, role: Role, term: nat, votedFor: nat, log: Log,
    commitIndex: nat, lastApplied: nat, leaderID: nat, conf: ConfState, clock: Clock,
    votes: map<nat, bool>, prs: map<nat, Progress>, transferee: nat, learner: nat,
    snapshot: Option<Snapshot>, out: Output, dirty: Dirty, panicked: bool)

  function Panic(s: NodeState): NodeState {
    s.(panicked := true)
  }

  function Send(s: NodeState, m: Message): NodeState {
    s.(out := s.out.(messages := s.out.messages + [m]))
  }

  function Reply(s: NodeState, r: ProposeReply): NodeState {
    s.(out := s.out.(reply := Some(r)))
  }

  function Reject(s: NodeState): NodeState {
    Reply(s, ProposeReply(false, 0, 0, s.leaderID))
  }

  /** The timeout taken from the k-th draw: at least et, less than twice as much. */
  function TimeoutOf(p: Params, k: nat): (t: nat)
    ensures p.et <= t < 2 * p.et
  {
    p.et + p.rng(k) % p.et
  }

  function ResetRandTimeout(s: NodeState): NodeState {
    s.(clock := s.clock.(randTimeout := TimeoutOf(s.p, s.clock.drawn), drawn := s.clock.drawn + 1))
  }

  function ResetElection(s: NodeState): NodeState {
    s.(clock := s.clock.(electionElapsed := 0))
  }

  function MarkAppended(s: NodeState, i: nat): NodeState {
    if s.dirty.appendedFrom == 0 || i < s.dirty.appendedFrom then s.(dirty := s.dirty.(appendedFrom := i)) else s
  }

  // ---- Roles and elections

  function BecomeFollower(s: NodeState, term: nat, leader: nat): NodeState {
    var s1 := if term > s.term then s.(term := term, votedFor := NONE, dirty := s.dirty.(hs := true)) else s;
    var s2 := s1.(role := Follower, leaderID := leader, votes := map[], prs := map[], transferee := NONE, learner := NONE);
    ResetRandTimeout(ResetElection(s2))
  }

  function BecomePreCandidate(s: NodeState): NodeState {
    ResetRandTimeout(ResetElection(s.(role := PreCandidate, leaderID := NONE, votes := map[])))
  }

  function BecomeCandidate(s: NodeState): NodeState {
    var s1 := s.(term := s.term + 1, votedFor := s.p.id, dirty := s.dirty.(hs := true),
                 role := Candidate, leaderID := NONE, votes := map[]);
    ResetRandTimeout(ResetElection(s1))
  }

  /** Progress for every voter but the node itself. */
  function FreshProgress(s: NodeState): map<nat, Progress> {
    map v | v in s.conf.config.voters && v != s.p.id :: Progress(s.log.LastIndex() + 1, 0, false, false)
  }

  function AssumeLeadership(s: NodeState): NodeState {
    s.(role := Leader, leaderID := s.p.id, votes := map[], transferee := NONE, prs := FreshProgress(s),
       clock := s.clock.(heartbeatElapsed := 0, quorumElapsed := 0))
  }

  function BecomeLeader(s: NodeState): NodeState {
    BroadcastAppend(MaybeCommit(AppendEntry(AssumeLeadership(s), Noop, [])))
  }

  function CountVotes(voters: seq<nat>, votes: map<nat, bool>, granted: bool): (c: nat)
    ensures c <= |voters|
  {
    if voters == [] then 0
    else
      var v := voters[|voters| - 1];
      CountVotes(voters[..|voters| - 1], votes, granted) + (if v in votes && votes[v] == granted then 1 else 0)
  }

  predicate HasQuorum(s: NodeState, granted: bool) {
    CountVotes(s.conf.config.voters, s.votes, granted) >= s.conf.config.Quorum()
  }

  function RequestVotes(s: NodeState, voters: seq<nat>, term: nat, pre: bool, force: bool): NodeState {
    if voters == [] then s
    else
      var s1 := RequestVotes(s, voters[..|voters| - 1], term, pre, force);
      var v := voters[|voters| - 1];
      if v == s.p.id then s1
      else Send(s1, Vote(s.p.id, v, term, pre, force, s.log.LastIndex(), s.log.LastTerm()))
  }

  predicate Promotable(s: NodeState) {
    s.conf.config.Contains(s.p.id)
  }

  function CastVote(s: NodeState, from: nat, granted: bool): NodeState {
    s.(votes := s.votes[from := granted])
  }

  function Campaign(s: NodeState, force: bool): NodeState {
    if !Promotable(s) then s
    else
      var s1 := BecomeCandidate(s);
      var s2 := CastVote(s1, s.p.id, true);
      if HasQuorum(s2, true) then BecomeLeader(s2)
      else RequestVotes(s2, s2.conf.config.voters, s2.term, false, force)
  }

  function PreCampaign(s: NodeState, force: bool): NodeState {
    if !Promotable(s) then s
    else
      var s1 := BecomePreCandidate(s);
      var s2 := CastVote(s1, s.p.id, true);
      if HasQuorum(s2, true) then Campaign(s2, force)
      else RequestVotes(s2, s2.conf.config.voters, s2.term + 1, true, force)
  }

  // ---- Ticks

  function ReplicationTargets(s: NodeState): seq<nat> {
    OtherVoters(s.conf.config.voters, s.p.id)
      + (if s.learner != NONE && !s.conf.config.Contains(s.learner) then [s.learner] else [])
  }

  function OtherVoters(voters: seq<nat>, id: nat): (r: seq<nat>)
    ensures forall v :: v in r <==> v in voters && v != id
  {
    if voters == [] then []
    else
      var v := voters[|voters| - 1];
      OtherVoters(voters[..|voters| - 1], id) + (if v == id then [] else [v])
  }

  function CountActive(voters: seq<nat>, id: nat, prs: map<nat, Progress>): nat {
    if voters == [] then 0
    else
      var v := voters[|voters| - 1];
      CountActive(voters[..|voters| - 1], id, prs)
        + (if v == id || (v in prs && prs[v].recentActive) then 1 else 0)
  }

  predicate QuorumActive(s: NodeState) {
    CountActive(s.conf.config.voters, s.p.id, s.prs) >= s.conf.config.Quorum()
  }

  function ForgetActivity(prs: map<nat, Progress>, targets: seq<nat>): map<nat, Progress> {
    map v | v in prs :: if v in targets then prs[v].(recentActive := false, pendingSnap := false) else prs[v]
  }

  /** A transfer that takes too long is given up. */
  function TickTransfer(s: NodeState): NodeState {
    if s.transferee == NONE then s
    else
      var t := s.(clock := s.clock.(transferElapsed := s.clock.transferElapsed + 1));
      if t.clock.transferElapsed >= t.p.et then t.(transferee := NONE) else t
  }

  function TickLeader(s: NodeState): NodeState {
    var s1 := s.(clock := s.clock.(heartbeatElapsed := s.clock.heartbeatElapsed + 1,
                                   quorumElapsed := s.clock.quorumElapsed + 1));
    var s2 := TickTransfer(s1);
    if s2.clock.quorumElapsed < s2.p.et then Heartbeat(s2)
    else
      var s3 := s2.(clock := s2.clock.(quorumElapsed := 0));
      if !QuorumActive(s3) then BecomeFollower(s3, s3.term, NONE)
      else Heartbeat(s3.(prs := ForgetActivity(s3.prs, ReplicationTargets(s3))))
  }

  function Heartbeat(s: NodeState): NodeState {
    if s.clock.heartbeatElapsed < s.p.ht then s
    else BroadcastAppend(s.(clock := s.clock.(heartbeatElapsed := 0)))
  }

  function DoTick(s: NodeState): NodeState {
    if s.role == Leader then TickLeader(s)
    else
      var s1 := s.(clock := s.clock.(electionElapsed := s.clock.electionElapsed + 1));
      if s1.clock.electionElapsed < s1.clock.randTimeout then s1
      else if s1.p.preVote then PreCampaign(s1, false)
      else Campaign(s1, false)
  }

  // ---- Receiving a message

  /** The node still believes in a live leader, and the request does not override that. */
  predicate Sticky(s: NodeState, force: bool) {
    !force && s.leaderID != NONE && s.clock.electionElapsed < s.p.et
  }

  function DoReceive(s: NodeState, m: Message): NodeState {
    if m.to != s.p.id then Panic(s)
    else if m.term > s.term then
      match m
      case Vote(_, _, _, preVote, force, _, _) =>
        if preVote then Dispatch(s, m)
        else if Sticky(s, force) then Send(s, VoteResp(s.p.id, m.from, s.term, false, false, false))
        else Dispatch(BecomeFollower(s, m.term, NONE), m)
      case VoteResp(_, _, _, preVote, _, granted) =>
        if preVote && granted then Dispatch(s, m) else Dispatch(BecomeFollower(s, m.term, NONE), m)
      case App(_, _, _, _, _, _, _) => Dispatch(BecomeFollower(s, m.term, m.from), m)
      case Snap(_, _, _, _) => Dispatch(BecomeFollower(s, m.term, m.from), m)
      case _ => Dispatch(BecomeFollower(s, m.term, NONE), m)
    else if m.term < s.term then
      match m
      case App(_, _, _, _, _, _, _) => RespondStale(s, m.from)
      case Snap(_, _, _, _) => RespondStale(s, m.from)
      case Vote(_, _, _, preVote, _, _, _) => Send(s, VoteResp(s.p.id, m.from, s.term, preVote, false, false))
      case _ => s
    else Dispatch(s, m)
  }

  function RespondStale(s: NodeState, to: nat): NodeState {
    Send(s, AppResp(s.p.id, to, s.term, false, 0, s.log.LastIndex() + 1, 0))
  }

  function Dispatch(s: NodeState, m: Message): NodeState {
    match m
    case Vote(_, _, _, _, _, _, _) => HandleVote(s, m)
    case VoteResp(_, _, _, _, _, _) => HandleVoteResp(s, m)
    case App(_, _, _, _, _, _, _) => HandleApp(s, m)
    case AppResp(_, _, _, _, _, _, _) => HandleAppResp(s, m)
    case Snap(_, _, _, _) => InstallSnapshot(s, m)
    case SnapResp(_, _, _, _) => HandleSnapResp(s, m)
    case TimeoutNow(_, _, _) => TimeoutElection(s)
  }

  predicate LogUpToDate(l: Log, lastIndex: nat, lastTerm: nat) {
    if lastTerm != l.LastTerm() then lastTerm > l.LastTerm() else lastIndex >= l.LastIndex()
  }

  function HandleVote(s: NodeState, m: Message): NodeState
    requires m.Vote?
  {
    var upToDate := LogUpToDate(s.log, m.lastLogIndex, m.lastLogTerm);
    if m.preVote then
      var granted := m.term > s.term && upToDate && !Sticky(s, m.force);
      Send(s, VoteResp(s.p.id, m.from, if granted then m.term else s.term, true, false, granted))
    else if (s.votedFor == NONE || s.votedFor == m.from) && upToDate then
      var s1 := ResetElection(s.(votedFor := m.from, dirty := s.dirty.(hs := true)));
      Send(s1, VoteResp(s.p.id, m.from, s.term, false, false, true))
    else Send(s, VoteResp(s.p.id, m.from, s.term, false, false, false))
  }

  function HandleVoteResp(s: NodeState, m: Message): NodeState
    requires m.VoteResp?
  {
    if s.role == PreCandidate then
      if !m.preVote || m.term != s.term + 1 || !m.granted then
        if m.preVote && !m.granted then
          var s1 := CastVote(s, m.from, false);
          if HasQuorum(s1, false) then BecomeFollower(s1, s1.term, NONE) else s1
        else s
      else
        var s1 := CastVote(s, m.from, true);
        if HasQuorum(s1, true) then Campaign(s1, m.force) else s1
    else if s.role == Candidate then
      if m.preVote || m.term != s.term then s
      else
        var s1 := CastVote(s, m.from, m.granted);
        if HasQuorum(s1, true) then BecomeLeader(s1)
        else if HasQuorum(s1, false) then BecomeFollower(s1, s1.term, NONE)
        else s1
    else s
  }

  function TimeoutElection(s: NodeState): NodeState {
    if s.role == Leader || !Promotable(s) then s else Campaign(s, true)
  }

  // ---- Log replication

  function SetConfig(s: NodeState, index: nat, cfg: Config): NodeState {
    var s1 := s.(conf := PushConf(s.conf, index, cfg));
    if s1.role == Leader then
      s1.(prs := s1.prs + map v | v in cfg.voters && v != s1.p.id && v !in s1.prs ::
          Progress(s1.log.LastIndex() + 1, 0, false, false))
    else s1
  }

  /** Appends one entry, which must be the next, and takes up the configuration it may carry. */
  function AppendOne(s: NodeState, e: Entry): NodeState {
    if e.index != s.log.LastIndex() + 1 then Panic(s)
    else
      var s1 := s.(log := s.log.Append(e));
      if e.typ != Conf then s1
      else match DecodeConfig(e.data)
        case None => Panic(s1)
        case Some(cfg) => SetConfig(s1, e.index, cfg)
  }

  function AppendAll(s: NodeState, ents: seq<Entry>): NodeState {
    if ents == [] then s
    else
      var s1 := AppendAll(s, ents[..|ents| - 1]);
      if s1.panicked then s1 else AppendOne(s1, ents[|ents| - 1])
  }

  function AppendEntry(s: NodeState, typ: EntryType, data: seq<byte>): NodeState {
    var e := Entry(s.log.LastIndex() + 1, s.term, typ, data);
    MarkAppended(AppendOne(s, e), e.index)
  }

  /** Skips what the log already holds, then cuts at the first difference and appends the rest. */
  function AcceptEntries(s: NodeState, ents: seq<Entry>): NodeState {
    var i := FirstConflict(s.log, ents, 0);
    if i == |ents| then s
    else
      var e := ents[i];
      var cut := s.log.Term(e.index).Some?;
      if cut && e.index <= s.commitIndex then Panic(s)
      else if cut && e.index <= s.log.snapIndex then Panic(s)
      else
        var s1 := if cut then s.(log := s.log.TruncateFrom(e.index), conf := TruncateConf(s.conf, e.index)) else s;
        var s2 := AppendAll(s1, ents[i..]);
        MarkAppended(s2, e.index)
  }

  function RespondApp(s: NodeState, to: nat, success: bool, matched: nat, ci: nat, ct: nat): NodeState {
    Send(s, AppResp(s.p.id, to, s.term, success, matched, ci, ct))
  }

  /** The node hears from the leader of its term. */
  function FollowLeader(s: NodeState, term: nat, leader: nat): NodeState {
    var s0 := if s.role != Follower then BecomeFollower(s, term, leader) else s;
    ResetElection(s0.(leaderID := leader))
  }

  function HandleApp(s: NodeState, m: Message): NodeState
    requires m.App?
  {
    if s.role == Leader then s
    else
      var s1 := FollowLeader(s, m.term, m.from);
      var skip := if m.prevLogIndex < s1.log.snapIndex then s1.log.snapIndex - m.prevLogIndex else 0;
      if skip > 0 && |m.entries| <= skip then RespondApp(s1, m.from, true, s1.log.snapIndex, 0, 0)
      else HandleAppFrom(s1, m, m.prevLogIndex + skip, m.entries[skip..])
  }

  /** The consistency check and the append, once what the snapshot covers has been skipped. */
  function HandleAppFrom(s: NodeState, m: Message, prev: nat, ents: seq<Entry>): NodeState
    requires m.App?
  {
    var t := s.log.Term(prev);
    if t != Some(m.prevLogTerm) then
      if t.None? then RespondApp(s, m.from, false, 0, s.log.LastIndex() + 1, 0)
      else RespondApp(s, m.from, false, 0, s.log.FirstIndexOfTerm(prev, t.value), t.value)
    else
      var s1 := AcceptEntries(s, ents);
      if s1.panicked then s1
      else RespondApp(FollowCommit(s1, m.commit, prev + |ents|), m.from, true, prev + |ents|, 0, 0)
  }

  function FollowCommit(s: NodeState, commit: nat, lastNew: nat): NodeState {
    var c := if lastNew < commit then lastNew else commit;
    if c > s.commitIndex then ApplyCommitted(s.(commitIndex := c)) else s
  }

  function ApplyCommitted(s: NodeState): NodeState {
    if s.commitIndex <= s.lastApplied then s
    else
      s.(out := s.out.(applied := s.out.applied + s.log.Slice(s.lastApplied + 1, s.commitIndex + 1, 0)),
         lastApplied := s.commitIndex)
  }

  function SetMatch(pr: Progress, matched: nat): Progress {
    var m := if matched > pr.matched then matched else pr.matched;
    Progress(if m + 1 > pr.next then m + 1 else pr.next, m, true, false)
  }

  /** Where the leader probes next after a rejection. */
  function BackupNext(l: Log, pr: Progress, ci: nat, ct: nat): nat {
    var li := if ct != 0 then l.LastIndexOfTerm(ct) else 0;
    var n0 := if li != 0 then li + 1 else ci;
    var n1 := if n0 < 1 then 1 else n0;
    var n2 := if n1 > l.LastIndex() + 1 then l.LastIndex() + 1 else n1;
    if n2 <= pr.matched then pr.matched + 1 else n2
  }

  function HandleAppResp(s: NodeState, m: Message): NodeState
    requires m.AppResp?
  {
    if s.role != Leader || m.term != s.term || m.from !in s.prs then s
    else if m.success then
      var pr := SetMatch(s.prs[m.from], m.matchIndex);
      var s1 := MaybeCommit(s.(prs := s.prs[m.from := pr]));
      if s1.role != Leader then s1
      else
        var s2 := if s1.transferee == m.from && pr.matched == s1.log.LastIndex()
                  then Send(s1, TimeoutNow(s1.p.id, m.from, s1.term)) else s1;
        AfterProgress(s2, m.from, pr.next)
    else
      var pr := s.prs[m.from];
      var next := BackupNext(s.log, pr, m.conflictIndex, m.conflictTerm);
      SendAppend(s.(prs := s.prs[m.from := pr.(recentActive := true, next := next)]), m.from)
  }

  function AfterProgress(s: NodeState, from: nat, next: nat): NodeState {
    var s1 := MaybePromoteLearner(s, from);
    if next <= s1.log.LastIndex() then SendAppend(s1, from) else s1
  }

  function SendAppendAll(s: NodeState, targets: seq<nat>): NodeState {
    if targets == [] then s
    else SendAppend(SendAppendAll(s, targets[..|targets| - 1]), targets[|targets| - 1])
  }

  function BroadcastAppend(s: NodeState): NodeState {
    SendAppendAll(s, ReplicationTargets(s))
  }

  function SendAppend(s: NodeState, to: nat): NodeState {
    if to !in s.prs then s
    else if s.prs[to].next <= s.log.snapIndex then SendSnapshot(s, to)
    else
      var next := s.prs[to].next;
      match s.log.Term(next - 1)
      case None => Panic(s)
      case Some(t) =>
        Send(s, App(s.p.id, to, s.term, next - 1, t, s.log.Slice(next, s.log.LastIndex() + 1, s.p.maxBatch), s.commitIndex))
  }

  function SendSnapshot(s: NodeState, to: nat): NodeState
    requires to in s.prs
  {
    if s.prs[to].pendingSnap then s
    else if s.snapshot.None? then Panic(s)
    else
      Send(s.(prs := s.prs[to := s.prs[to].(pendingSnap := true)]), Snap(s.p.id, to, s.term, s.snapshot))
  }

  // ---- Commitment

  /** What the leader knows to be recorded on a voter. */
  function MatchOf(v: nat, id: nat, last: nat, prs: map<nat, Progress>): nat {
    if v == id then last else if v in prs then prs[v].matched else 0
  }

  function Matches(voters: seq<nat>, id: nat, last: nat, prs: map<nat, Progress>): (r: seq<nat>)
    ensures |r| == |voters|
    ensures forall k :: 0 <= k < |r| ==> r[k] == MatchOf(voters[k], id, last, prs)
  {
    if voters == [] then []
    else Matches(voters[..|voters| - 1], id, last, prs) + [MatchOf(voters[|voters| - 1], id, last, prs)]
  }

  /** How many of the numbers reach at least x. */
  function CountAtLeast(a: seq<nat>, x: nat): (c: nat)
    ensures c <= |a|
  {
    if a == [] then 0 else CountAtLeast(a[..|a| - 1], x) + (if a[|a| - 1] >= x then 1 else 0)
  }

  /** r is the largest number that at least q of the numbers reach. */
  ghost predicate IsQuorumValue(a: seq<nat>, q: nat, r: nat) {
    && CountAtLeast(a, r) >= q
    && forall x :: x > r ==> CountAtLeast(a, x) < q
  }

  function InsertDesc(a: seq<nat>, x: nat): (r: seq<nat>)
    ensures |r| == |a| + 1
  {
    if a == [] || a[|a| - 1] >= x then a + [x]
    else InsertDesc(a[..|a| - 1], x) + [a[|a| - 1]]
  }

  function SortDesc(a: seq<nat>): (r: seq<nat>)
    ensures |r| == |a|
  {
    if a == [] then [] else InsertDesc(SortDesc(a[..|a| - 1]), a[|a| - 1])
  }

  /** The index at the quorum position of the sorted match indexes. */
  function MedianMatch(s: NodeState): Option<nat> {
    var a := SortDesc(Matches(s.conf.config.voters, s.p.id, s.log.LastIndex(), s.prs));
    var q := s.conf.config.Quorum();
    if q <= |a| then Some(a[q - 1]) else None
  }

  function MaybeCommit(s: NodeState): NodeState {
    if s.role != Leader then s
    else match MedianMatch(s)
      case None => Panic(s)
      case Some(n) =>
        if n <= s.commitIndex || s.log.Term(n) != Some(s.term) then s
        else
          var s1 := AfterCommit(ApplyCommitted(s.(commitIndex := n)));
          if s1.role == Leader then BroadcastAppend(s1) else s1
  }

  /** A leader whose committed configuration leaves it out steps down. */
  function AfterCommit(s: NodeState): NodeState {
    if s.role == Leader && s.conf.index <= s.commitIndex && !Promotable(s) then BecomeFollower(s, s.term, NONE) else s
  }

  // ---- Proposals

  function CommitAndBroadcast(s: NodeState): NodeState {
    var s1 := MaybeCommit(s);
    if s1.role == Leader then BroadcastAppend(s1) else s1
  }

  function DoPropose(s: NodeState, data: seq<byte>): NodeState {
    if s.role != Leader || s.transferee != NONE then Reject(s)
    else
      var s1 := AppendEntry(s, Normal, data);
      CommitAndBroadcast(Reply(s1, ProposeReply(true, s1.log.LastIndex(), s1.term, 0)))
  }

  function WithoutVoter(voters: seq<nat>, id: nat): seq<nat> {
    OtherVoters(voters, id)
  }

  function InsertSorted(a: seq<nat>, v: nat): seq<nat> {
    InsertFrom(a, v, 0, false)
  }

  /** The rest of the sorted insertion from position i on, knowing whether v already has its place. */
  function InsertFrom(a: seq<nat>, v: nat, i: nat, inserted: bool): seq<nat>
    requires i <= |a|
    decreases |a| - i
  {
    if i == |a| then (if inserted then [] else [v])
    else
      var now := !inserted && v < a[i];
      (if now then [v] else []) + [a[i]] + InsertFrom(a, v, i + 1, inserted || now || a[i] == v)
  }

  function DoProposeConfChange(s: NodeState, ch: ConfChange): NodeState {
    if s.role != Leader || s.transferee != NONE then Reject(s)
    else if s.conf.index > s.commitIndex || s.learner != NONE then Reject(s)
    else match ch
      case AddServer(id) => DoAddServer(s, id)
      case RemoveServer(id) => DoRemoveServer(s, id)
  }

  function DoAddServer(s: NodeState, id: nat): NodeState {
    if s.conf.config.Contains(id) || id == s.p.id || id == NONE then Reject(s)
    else
      var s1 := s.(learner := id, prs := s.prs[id := Progress(s.log.LastIndex() + 1, 0, false, false)]);
      SendAppend(Reply(s1, ProposeReply(true, 0, s1.term, 0)), id)
  }

  function DoRemoveServer(s: NodeState, id: nat): NodeState {
    if !s.conf.config.Contains(id) || |s.conf.config.voters| == 1 then Reject(s)
    else
      var cfg := Config(WithoutVoter(s.conf.config.voters, id));
      var s1 := AppendEntry(s, Conf, EncodeConfig(cfg));
      var s2 := if id != s1.p.id then s1.(prs := s1.prs - {id}) else s1;
      CommitAndBroadcast(Reply(s2, ProposeReply(true, s2.log.LastIndex(), s2.term, 0)))
  }

  function MaybePromoteLearner(s: NodeState, from: nat): NodeState {
    if s.learner == NONE || s.learner != from || s.role != Leader then s
    else if from !in s.prs || s.prs[from].matched < s.log.LastIndex() then s
    else
      var cfg := Config(InsertSorted(s.conf.config.voters, from));
      CommitAndBroadcast(AppendEntry(s.(learner := NONE), Conf, EncodeConfig(cfg)))
  }

  function DoTransfer(s: NodeState, target: nat): NodeState {
    if s.role != Leader || target == s.p.id || !s.conf.config.Contains(target) then Reject(s)
    else
      var s1 := Reply(s.(transferee := target, clock := s.clock.(transferElapsed := 0)), ProposeReply(true, 0, s.term, 0));
      if target in s1.prs && s1.prs[target].matched == s1.log.LastIndex()
      then Send(s1, TimeoutNow(s1.p.id, target, s1.term))
      else SendAppend(s1, target)
  }

  // ---- Snapshots

  function DoCreateSnapshot(s: NodeState, index: nat, data: seq<byte>): NodeState {
    if index <= s.log.snapIndex then s
    else if index > s.lastApplied then Panic(s)
    else match s.log.Term(index)
      case None => Panic(s)
      case Some(t) =>
        var snap := Snapshot(index, t, ConfigAt(s.conf.history, index), data);
        s.(log := s.log.Compact(index, t), snapshot := Some(snap), conf := PruneConf(s.conf, index),
           dirty := s.dirty.(snap := Some(Persist(None, [], Some(snap), false))))
  }

  function InstallSnapshot(s: NodeState, m: Message): NodeState
    requires m.Snap?
  {
    var s1 := FollowLeader(s, m.term, m.from);
    match m.snapshot
    case None => s1
    case Some(snap) =>
      if snap.index <= s1.commitIndex then Send(s1, SnapResp(s1.p.id, m.from, s1.term, s1.commitIndex))
      else
        var s2 := if s1.log.Term(snap.index) == Some(snap.term) then KeepSuffix(s1, snap) else ReplaceLog(s1, snap);
        Send(s2, SnapResp(s2.p.id, m.from, s2.term, snap.index))
  }

  /** The log reaches the snapshot point: apply up to there and compact. */
  function KeepSuffix(s: NodeState, snap: Snapshot): NodeState
    requires s.log.Term(snap.index).Some?
  {
    var s1 := ApplyCommitted(s.(commitIndex := snap.index));
    s1.(log := s1.log.Compact(snap.index, snap.term), snapshot := Some(snap), conf := PruneConf(s1.conf, snap.index),
        dirty := s1.dirty.(snap := Some(Persist(None, [], Some(snap), false))))
  }

  /** The log conflicts with the snapshot or ends before it: replace everything. */
  function ReplaceLog(s: NodeState, snap: Snapshot): NodeState {
    s.(log := Log(snap.index, snap.term, []), commitIndex := snap.index, lastApplied := snap.index,
       snapshot := Some(snap), conf := InitConf(snap.index, snap.config),
       dirty := s.dirty.(snap := Some(Persist(None, [], Some(snap), true))),
       out := s.out.(applySnapshot := Some(snap)))
  }

  function HandleSnapResp(s: NodeState, m: Message): NodeState
    requires m.SnapResp?
  {
    if s.role != Leader || m.term != s.term || m.from !in s.prs then s
    else
      var pr := SetMatch(s.prs[m.from], m.matchIndex);
      var s1 := MaybeCommit(s.(prs := s.prs[m.from := pr]));
      if s1.role != Leader then s1 else AfterProgress(s1, m.from, pr.next)
  }

  // ---- Step, start and restart

  function Begin(s: NodeState): NodeState {
    s.(out := EMPTY_OUTPUT, dirty := CLEAN)
  }

  function Handle(s: NodeState, i: Input): NodeState {
    match i
    case Tick => DoTick(s)
    case Receive(m) => DoReceive(s, m)
    case Propose(data) => DoPropose(s, data)
    case ProposeConfChange(ch) => DoProposeConfChange(s, ch)
    case TransferLeadership(target) => DoTransfer(s, target)
    case CreateSnapshot(index, data) => DoCreateSnapshot(s, index, data)
  }

  /** Everything that changed in one Step, as a single durable unit. */
  function PersistOf(s: NodeState): Option<Persist> {
    if s.dirty == CLEAN then None
    else
      var p := if s.dirty.snap.Some? then s.dirty.snap.value else Persist(None, [], None, false);
      var p1 := if s.dirty.hs then p.(hardState := Some(HardState(s.term, s.votedFor))) else p;
      Some(if s.dirty.appendedFrom != 0
           then p1.(entries := s.log.Slice(s.dirty.appendedFrom, s.log.LastIndex() + 1, 0)) else p1)
  }

  /** One event: the new state, whose `out` is what the caller gets back. */
  function Step(s: NodeState, i: Input): NodeState {
    var s1 := Handle(Begin(s), i);
    s1.(out := s1.out.(persist := PersistOf(s1)))
  }

  function Blank(p: Params, voters: seq<nat>, hs: HardState): NodeState {
    NodeState(p.(maxBatch := if p.maxBatch == 0 then 64 else p.maxBatch), Follower, hs.term, hs.votedFor, Log(0, 0, []),
              0, 0, NONE, InitConf(0, Config(voters)), Clock(0, 0, 0, 0, 0, 0),
              map[], map[], NONE, NONE, None, EMPTY_OUTPUT, CLEAN, false)
  }

  function LoadSnapshot(s: NodeState, snap: Snapshot): NodeState {
    s.(log := Log(snap.index, snap.term, []), snapshot := Some(snap), conf := InitConf(snap.index, snap.config),
       commitIndex := snap.index, lastApplied := snap.index)
  }

  /** Starts a node from durable state; an empty restore is a first start. */
  function NewNode(p: Params, voters: seq<nat>, r: Restore): NodeState {
    var s0 := Blank(p, voters, r.hardState);
    var s1 := if r.snapshot.Some? then LoadSnapshot(s0, r.snapshot.value) else s0;
    var s2 := AppendAll(s1, r.entries);
    BecomeFollower(s2, s2.term, NONE)
  }
}
