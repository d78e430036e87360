/** The node as the program has it: fields updated in place, each handler proved against its specification. */
module Node {
  import opened RaftTypes
  import opened LogSpec
  import opened Bytes
  import opened ConfSpec
  import opened RaftLog
  import N = NodeSpec

  class Node {
    const p: N.Params

    var role: Role
    var term: nat
    var votedFor: nat
    const log: RaftLog

    var commitIndex: nat
    var lastApplied: nat
    var leaderID: nat

    var conf: ConfState
    var clock: N.Clock

    var votes: map<nat, bool>
    var prs: map<nat, N.Progress>

    var transferee: nat
    var learner: nat
    var snapshot: Option<Snapshot>

    var out: Output
    var dirty: N.Dirty
    var panicked: bool

    /** The value the fields stand for. */
    function State(): N.NodeState
      reads this, log
    {
      N.NodeState(
        p, role, term, votedFor, log.Value(),
        commitIndex, lastApplied, leaderID, conf, clock,
        votes, prs, transferee, learner, snapshot, out, dirty, panicked)
    }

    constructor (params: N.Params, voters: seq<nat>, r: Restore)
      ensures State() == N.NewNode(params, voters, r)
      ensures fresh(log)
    {
      p := params.(maxBatch := if params.maxBatch == 0 then 64 else params.maxBatch);
      role, term, votedFor := Follower, r.hardState.term, r.hardState.votedFor;
      log := new RaftLog();
      commitIndex, lastApplied, leaderID := 0, 0, NONE;
      conf := ConfState(Config(voters), 0, [ConfRecord(0, Config(voters))]);
      clock := N.Clock(0, 0, 0, 0, 0, 0);
      votes, prs, transferee, learner, snapshot := map[], map[], NONE, NONE, None;
      out, dirty, panicked := EMPTY_OUTPUT, N.CLEAN, false;
      new;
      if r.snapshot.Some? {
        LoadSnapshot(r.snapshot.value);
      }
      AppendAll(r.entries);
      BecomeFollower(term, NONE);
    }

    // ---- Small steps

    method Panic()
      modifies `panicked
      ensures State() == N.Panic(old(State()))
    {
      panicked := true;
    }

    method Send(m: Message)
      modifies `out
      ensures State() == N.Send(old(State()), m)
    {
      out := out.(messages := out.messages + [m]);
    }

    method Reply(r: ProposeReply)
      modifies `out
      ensures State() == N.Reply(old(State()), r)
    {
      out := out.(reply := Some(r));
    }

    method RejectPropose()
      modifies `out
      ensures State() == N.Reject(old(State()))
    {
      Reply(ProposeReply(false, 0, 0, leaderID));
    }

    /** Restarts the election timer with a fresh random timeout. */
    method ResetTimer()
      modifies `clock
      ensures State() == N.ResetRandTimeout(N.ResetElection(old(State())))
    {
      clock := clock.(electionElapsed := 0);
      clock := clock.(randTimeout := p.et + p.rng(clock.drawn) % p.et, drawn := clock.drawn + 1);
    }

    method MarkAppended(i: nat)
      modifies `dirty
      ensures State() == N.MarkAppended(old(State()), i)
    {
      if dirty.appendedFrom == 0 || i < dirty.appendedFrom {
        dirty := dirty.(appendedFrom := i);
      }
    }

    method MarkHardState()
      modifies `dirty
      ensures State() == old(State()).(dirty := old(dirty).(hs := true))
    {
      dirty := dirty.(hs := true);
    }

    method MarkSnapshot(snap: Snapshot, replace_: bool)
      modifies `snapshot, `dirty
      ensures State() == old(State()).(snapshot := Some(snap),
          dirty := old(dirty).(snap := Some(Persist(None, [], Some(snap), replace_))))
    {
      snapshot := Some(snap);
      dirty := dirty.(snap := Some(Persist(None, [], snapshot, replace_)));
    }

    // ---- Roles and elections

    method EnterTerm(t: nat, vote: nat)
      modifies `term, `votedFor, `dirty
      ensures State() == old(State()).(term := t, votedFor := vote, dirty := old(dirty).(hs := true))
    {
      term := t;
      votedFor := vote;
      MarkHardState();
    }

    method TakeRole(r: Role, leader: nat)
      modifies `role, `leaderID, `votes
      ensures State() == old(State()).(role := r, leaderID := leader, votes := map[])
    {
      role := r;
      leaderID := leader;
      votes := map[];
    }

    method ForgetLeadership()
      modifies `prs, `transferee, `learner
      ensures State() == old(State()).(prs := map[], transferee := NONE, learner := NONE)
    {
      prs := map[];
      transferee := NONE;
      learner := NONE;
    }

    method BecomeFollower(t: nat, leader: nat)
      modifies this
      ensures State() == N.BecomeFollower(old(State()), t, leader)
    {
      if t > term {
        EnterTerm(t, NONE);
      }
      TakeRole(Follower, leader);
      ForgetLeadership();
      ResetTimer();
    }

    method BecomePreCandidate()
      modifies this
      ensures State() == N.BecomePreCandidate(old(State()))
    {
      TakeRole(PreCandidate, NONE);
      ResetTimer();
    }

    method BecomeCandidate()
      modifies this
      ensures State() == N.BecomeCandidate(old(State()))
    {
      EnterTerm(term + 1, p.id);
      TakeRole(Candidate, NONE);
      ResetTimer();
    }

    method AssumeLeadership()
      modifies this
      ensures State() == N.AssumeLeadership(old(State()))
    {
      TakeRole(Leader, p.id);
      clock := clock.(heartbeatElapsed := 0, quorumElapsed := 0);
      transferee := NONE;
      StartProgress();
    }

    method StartProgress()
      modifies `prs
      ensures State() == old(State()).(prs := N.FreshProgress(old(State())))
    {
      hide N.FreshProgress, FreshFor;
      ghost var s := State();
      FreshForNone(s);
      prs := map[];
      for k := 0 to |conf.config.voters|
        invariant prs == FreshFor(s, conf.config.voters[..k])
      {
        var v := conf.config.voters[k];
        FreshOneMore(s, conf.config.voters, k);
        if v != p.id {
          prs := prs[v := N.Progress(log.Value().LastIndex() + 1, 0, false, false)];
        }
      }
      assert conf.config.voters[..|conf.config.voters|] == conf.config.voters;
      FreshForAll(s);
    }

    method BecomeLeader()
      modifies this, log
      ensures State() == N.BecomeLeader(old(State()))
    {
      AssumeLeadership();
      AppendEntry(Noop, []);
      MaybeCommit();
      BroadcastAppend();
    }

    method CountVotes() returns (c: nat)
      ensures c == N.CountVotes(conf.config.voters, votes, true)
    {
      c := 0;
      for k := 0 to |conf.config.voters|
        invariant c == N.CountVotes(conf.config.voters[..k], votes, true)
      {
        assert conf.config.voters[..k + 1][..k] == conf.config.voters[..k];
        var v := conf.config.voters[k];
        if v in votes && votes[v] {
          c := c + 1;
        }
      }
      assert conf.config.voters[..|conf.config.voters|] == conf.config.voters;
    }

    method CountRejects() returns (c: nat)
      ensures c == N.CountVotes(conf.config.voters, votes, false)
    {
      c := 0;
      for k := 0 to |conf.config.voters|
        invariant c == N.CountVotes(conf.config.voters[..k], votes, false)
      {
        assert conf.config.voters[..k + 1][..k] == conf.config.voters[..k];
        var v := conf.config.voters[k];
        if v in votes && !votes[v] {
          c := c + 1;
        }
      }
      assert conf.config.voters[..|conf.config.voters|] == conf.config.voters;
    }

    method CastVote(from: nat, granted: bool)
      modifies `votes
      ensures State() == N.CastVote(old(State()), from, granted)
    {
      votes := votes[from := granted];
    }

    method RequestVotes(msgTerm: nat, pre: bool, force: bool)
      modifies `out
      ensures State() == N.RequestVotes(old(State()), conf.config.voters, msgTerm, pre, force)
    {
      ghost var s := State();
      for k := 0 to |conf.config.voters|
        invariant State() == N.RequestVotes(s, conf.config.voters[..k], msgTerm, pre, force)
      {
        assert conf.config.voters[..k + 1][..k] == conf.config.voters[..k];
        var v := conf.config.voters[k];
        if v != p.id {
          Send(Vote(p.id, v, msgTerm, pre, force, log.Value().LastIndex(), log.Value().LastTerm()));
        }
      }
      assert conf.config.voters[..|conf.config.voters|] == conf.config.voters;
    }

    /** An election, or the Pre-Vote round before one. */
    method Campaign(pre: bool, force: bool)
      modifies this, log
      ensures State() == if pre then N.PreCampaign(old(State()), force) else N.Campaign(old(State()), force)
      decreases pre
    {
      if !conf.config.Contains(p.id) {
        return;
      }
      var msgTerm: nat;
      if pre {
        BecomePreCandidate();
        msgTerm := term + 1;
      } else {
        BecomeCandidate();
        msgTerm := term;
      }
      CastVote(p.id, true);
      var count := CountVotes();
      if count >= conf.config.Quorum() {
        if pre {
          Campaign(false, force);
        } else {
          BecomeLeader();
        }
        return;
      }
      RequestVotes(msgTerm, pre, force);
    }

    // ---- Ticks

    method ReplicationTargets() returns (ts: seq<nat>)
      ensures ts == N.ReplicationTargets(State())
    {
      ts := [];
      for k := 0 to |conf.config.voters|
        invariant ts == N.OtherVoters(conf.config.voters[..k], p.id)
      {
        assert conf.config.voters[..k + 1][..k] == conf.config.voters[..k];
        if conf.config.voters[k] != p.id {
          ts := ts + [conf.config.voters[k]];
        }
      }
      assert conf.config.voters[..|conf.config.voters|] == conf.config.voters;
      if learner != NONE && !conf.config.Contains(learner) {
        ts := ts + [learner];
      }
    }

    method QuorumActive() returns (active: bool)
      ensures active == N.QuorumActive(State())
    {
      var c := 0;
      for k := 0 to |conf.config.voters|
        invariant c == N.CountActive(conf.config.voters[..k], p.id, prs)
      {
        assert conf.config.voters[..k + 1][..k] == conf.config.voters[..k];
        var v := conf.config.voters[k];
        if v == p.id || (v in prs && prs[v].recentActive) {
          c := c + 1;
        }
      }
      assert conf.config.voters[..|conf.config.voters|] == conf.config.voters;
      active := c >= conf.config.Quorum();
    }

    method TickLeader()
      modifies this, log
      ensures State() == N.TickLeader(old(State()))
    {
      hide N.BecomeFollower, N.ForgetActivity, N.ReplicationTargets, N.QuorumActive, N.Heartbeat, N.TickTransfer;
      clock := clock.(heartbeatElapsed := clock.heartbeatElapsed + 1, quorumElapsed := clock.quorumElapsed + 1);
      TickTransfer();
      if clock.quorumElapsed >= p.et {
        clock := clock.(quorumElapsed := 0);
        var active := QuorumActive();
        if !active {
          BecomeFollower(term, NONE);
          return;
        }
        ForgetActivity();
      }
      Heartbeat();
    }

    method TickTransfer()
      modifies `clock, `transferee
      ensures State() == N.TickTransfer(old(State()))
    {
      if transferee != NONE {
        clock := clock.(transferElapsed := clock.transferElapsed + 1);
        if clock.transferElapsed >= p.et {
          transferee := NONE;
        }
      }
    }

    method Heartbeat()
      modifies this
      ensures State() == N.Heartbeat(old(State()))
    {
      if clock.heartbeatElapsed >= p.ht {
        clock := clock.(heartbeatElapsed := 0);
        BroadcastAppend();
      }
    }

    method ForgetActivity()
      modifies `prs
      ensures var s := old(State()); State() == s.(prs := N.ForgetActivity(s.prs, N.ReplicationTargets(s)))
    {
      ghost var s := State();
      var ts := ReplicationTargets();
      for k := 0 to |ts|
        invariant prs == N.ForgetActivity(s.prs, ts[..k])
      {
        ForgetOneMore(s.prs, ts[..k], ts[k]);
        assert ts[..k + 1] == ts[..k] + [ts[k]];
        var v := ts[k];
        if v in prs {
          prs := prs[v := prs[v].(recentActive := false, pendingSnap := false)];
        }
      }
      assert ts[..|ts|] == ts;
    }

    method Tick()
      modifies this, log
      ensures State() == N.DoTick(old(State()))
    {
      if role == Leader {
        TickLeader();
        return;
      }
      clock := clock.(electionElapsed := clock.electionElapsed + 1);
      if clock.electionElapsed >= clock.randTimeout {
        Campaign(p.preVote, false);
      }
    }

    // ---- Receiving a message

    method Receive(m: Message)
      modifies this, log
      ensures State() == N.DoReceive(old(State()), m)
    {
      if m.to != p.id {
        Panic();
        return;
      }
      if m.term > term {
        match m
        case Vote(_, _, _, pre, force, _, _) =>
          if !pre {
            if !force && leaderID != NONE && clock.electionElapsed < p.et {
              Send(VoteResp(p.id, m.from, term, false, false, false));
              return;
            }
            BecomeFollower(m.term, NONE);
          }
        case VoteResp(_, _, _, pre, _, granted) =>
          if !(pre && granted) {
            BecomeFollower(m.term, NONE);
          }
        case App(_, _, _, _, _, _, _) => BecomeFollower(m.term, m.from);
        case Snap(_, _, _, _) => BecomeFollower(m.term, m.from);
        case _ => BecomeFollower(m.term, NONE);
      } else if m.term < term {
        match m {
          case App(_, _, _, _, _, _, _) => RespondStale(m.from);
          case Snap(_, _, _, _) => RespondStale(m.from);
          case Vote(_, _, _, pre, _, _, _) => Send(VoteResp(p.id, m.from, term, pre, false, false));
          case _ =>
        }
        return;
      }
      Dispatch(m);
    }

    method RespondStale(to: nat)
      modifies this
      ensures State() == N.RespondStale(old(State()), to)
    {
      Send(AppResp(p.id, to, term, false, 0, log.Value().LastIndex() + 1, 0));
    }

    method Dispatch(m: Message)
      modifies this, log
      ensures State() == N.Dispatch(old(State()), m)
    {
      match m
      case Vote(_, _, _, _, _, _, _) => HandleVote(m);
      case VoteResp(_, _, _, _, _, _) => HandleVoteResp(m);
      case App(_, _, _, _, _, _, _) => HandleApp(m);
      case AppResp(_, _, _, _, _, _, _) => HandleAppResp(m);
      case Snap(_, _, _, _) => InstallSnapshot(m);
      case SnapResp(_, _, _, _) => HandleSnapResp(m);
      case TimeoutNow(_, _, _) => TimeoutElection();
    }

    function LogUpToDate(lastIndex: nat, lastTerm: nat): bool
      reads this, log
    {
      N.LogUpToDate(log.Value(), lastIndex, lastTerm)
    }

    method Heard()
      modifies `clock
      ensures State() == N.ResetElection(old(State()))
    {
      clock := clock.(electionElapsed := 0);
    }

    /** The node hears from the leader of its term. */
    method FollowLeader(t: nat, leader: nat)
      modifies this
      ensures State() == N.FollowLeader(old(State()), t, leader)
    {
      if role != Follower {
        BecomeFollower(t, leader);
      }
      leaderID := leader;
      Heard();
    }

    method HandleVote(m: Message)
      requires m.Vote?
      modifies this
      ensures State() == N.HandleVote(old(State()), m)
    {
      if m.preVote {
        var granted := m.term > term && LogUpToDate(m.lastLogIndex, m.lastLogTerm);
        if !m.force && leaderID != NONE && clock.electionElapsed < p.et {
          granted := false;
        }
        var respTerm := term;
        if granted {
          respTerm := m.term;
        }
        Send(VoteResp(p.id, m.from, respTerm, true, false, granted));
        return;
      }
      var canVote := votedFor == NONE || votedFor == m.from;
      var granted := canVote && LogUpToDate(m.lastLogIndex, m.lastLogTerm);
      if granted {
        EnterTerm(term, m.from);
        Heard();
      }
      Send(VoteResp(p.id, m.from, term, false, false, granted));
    }

    method HandleVoteResp(m: Message)
      requires m.VoteResp?
      modifies this, log
      ensures State() == N.HandleVoteResp(old(State()), m)
    {
      if role == PreCandidate {
        if !m.preVote || m.term != term + 1 || !m.granted {
          if m.preVote && !m.granted {
            CastVote(m.from, false);
            var rejects := CountRejects();
            if rejects >= conf.config.Quorum() {
              BecomeFollower(term, NONE);
            }
          }
          return;
        }
        CastVote(m.from, true);
        var count := CountVotes();
        if count >= conf.config.Quorum() {
          Campaign(false, m.force);
        }
      } else if role == Candidate {
        if m.preVote || m.term != term {
          return;
        }
        CastVote(m.from, m.granted);
        var count := CountVotes();
        var rejects := CountRejects();
        if count >= conf.config.Quorum() {
          BecomeLeader();
        } else if rejects >= conf.config.Quorum() {
          BecomeFollower(term, NONE);
        }
      }
    }

    method TimeoutElection()
      modifies this, log
      ensures State() == N.TimeoutElection(old(State()))
    {
      if role == Leader || !conf.config.Contains(p.id) {
        return;
      }
      Campaign(false, true);
    }

    // ---- Log replication

    method AppendOne(e: Entry)
      modifies this, log
      ensures State() == N.AppendOne(old(State()), e)
    {
      var ok := log.Append(e);
      if !ok {
        Panic();
        return;
      }
      if e.typ == Conf {
        var cfg := DecodeConf(e.data);
        if cfg.None? {
          Panic();
          return;
        }
        SetConfig(e.index, cfg.value);
      }
    }

    /** Appends the entries one by one, up to the first that panics. */
    method AppendAll(ents: seq<Entry>)
      modifies this, log
      ensures State() == N.AppendAll(old(State()), ents)
    {
      ghost var s := State();
      for k := 0 to |ents|
        invariant State() == N.AppendAll(s, ents[..k])
      {
        assert ents[..k + 1][..k] == ents[..k];
        if !panicked {
          AppendOne(ents[k]);
        }
      }
      assert ents[..|ents|] == ents;
    }

    method AppendEntry(typ: EntryType, data: seq<byte>)
      modifies this, log
      ensures State() == N.AppendEntry(old(State()), typ, data)
    {
      var e := Entry(log.Value().LastIndex() + 1, term, typ, data);
      AppendOne(e);
      MarkAppended(e.index);
    }

    /** Skips what the log already holds, then cuts at the first difference and appends the rest. */
    method AcceptEntries(ents: seq<Entry>)
      modifies this, log
      ensures State() == N.AcceptEntries(old(State()), ents)
    {
      ghost var s := State();
      for i := 0 to |ents|
        invariant State() == s
        invariant FirstConflict(s.log, ents, i) == FirstConflict(s.log, ents, 0)
      {
        var e := ents[i];
        var t, exists_ := log.Term(e.index);
        if exists_ && t == e.term {
          continue;
        }
        if exists_ {
          if e.index <= commitIndex {
            Panic();
            return;
          }
          var ok := log.TruncateFrom(e.index);
          if !ok {
            Panic();
            return;
          }
          TruncateConfigsFrom(e.index);
        }
        AppendAll(ents[i..]);
        MarkAppended(ents[i].index);
        return;
      }
    }

    method HandleApp(m: Message)
      requires m.App?
      modifies this, log
      ensures State() == N.HandleApp(old(State()), m)
    {
      hide N.FollowLeader, N.HandleAppFrom;
      if role == Leader {
        return;
      }
      FollowLeader(m.term, m.from);
      var prev := m.prevLogIndex;
      var ents := m.entries;
      if prev < log.snapIndex {
        var skip := log.snapIndex - prev;
        if |ents| <= skip {
          RespondApp(m.from, true, log.snapIndex, 0, 0);
          return;
        }
        ents := ents[skip..];
        prev := log.snapIndex;
      }
      HandleAppFrom(m, prev, ents);
    }

    method HandleAppFrom(m: Message, prev: nat, ents: seq<Entry>)
      requires m.App?
      modifies this, log
      ensures State() == N.HandleAppFrom(old(State()), m, prev, ents)
    {
      var t, ok := log.Term(prev);
      if !ok || t != m.prevLogTerm {
        if !ok {
          RespondApp(m.from, false, 0, log.Value().LastIndex() + 1, 0);
        } else {
          var ci := log.FirstIndexOfTerm(prev, t);
          RespondApp(m.from, false, 0, ci, t);
        }
        return;
      }
      AcceptEntries(ents);
      if panicked {
        return;
      }
      var lastNew := prev + |ents|;
      if m.commit > commitIndex {
        var c := m.commit;
        if lastNew < c {
          c := lastNew;
        }
        if c > commitIndex {
          CommitTo(c);
        }
      }
      RespondApp(m.from, true, lastNew, 0, 0);
    }

    method RespondApp(to: nat, success: bool, matched: nat, ci: nat, ct: nat)
      modifies this
      ensures State() == N.RespondApp(old(State()), to, success, matched, ci, ct)
    {
      Send(AppResp(p.id, to, term, success, matched, ci, ct));
    }

    method CommitTo(c: nat)
      modifies `commitIndex, `out, `lastApplied
      ensures State() == N.ApplyCommitted(old(State()).(commitIndex := c))
    {
      commitIndex := c;
      ApplyCommitted();
    }

    method ApplyCommitted()
      modifies `out, `lastApplied
      ensures State() == N.ApplyCommitted(old(State()))
    {
      if commitIndex <= lastApplied {
        return;
      }
      var ents := log.Slice(lastApplied + 1, commitIndex + 1, 0);
      out := out.(applied := out.applied + ents);
      lastApplied := commitIndex;
    }

    method HandleAppResp(m: Message)
      requires m.AppResp?
      modifies this, log
      ensures State() == N.HandleAppResp(old(State()), m)
    {
      if role != Leader || m.term != term {
        return;
      }
      if m.from !in prs {
        return;
      }
      if m.success {
        var pr := RecordMatch(prs[m.from], m.matchIndex);
        SetProgress(m.from, pr);
        MaybeCommit();
        if role != Leader {
          return;
        }
        if transferee == m.from && pr.matched == log.Value().LastIndex() {
          Send(TimeoutNow(p.id, m.from, term));
        }
        AfterProgress(m.from, pr.next);
      } else {
        var next := Backup(prs[m.from], m.conflictIndex, m.conflictTerm);
        SetProgress(m.from, prs[m.from].(recentActive := true, next := next));
        SendAppend(m.from);
      }
    }

    /** Where to probe next: past the leader's last entry of the conflicting term, or where the follower suggests. */
    method Backup(pr: N.Progress, ci: nat, ct: nat) returns (next: nat)
      ensures next == N.BackupNext(log.Value(), pr, ci, ct)
    {
      next := ci;
      if ct != 0 {
        var li := log.LastIndexOfTerm(ct);
        if li != 0 {
          next := li + 1;
        }
      }
      if next < 1 {
        next := 1;
      }
      if next > log.Value().LastIndex() + 1 {
        next := log.Value().LastIndex() + 1;
      }
      if next <= pr.matched {
        next := pr.matched + 1;
      }
    }

    method SetProgress(v: nat, pr: N.Progress)
      modifies `prs
      ensures State() == old(State()).(prs := old(prs)[v := pr])
    {
      prs := prs[v := pr];
    }

    method RecordMatch(p: N.Progress, matched: nat) returns (pr: N.Progress)
      ensures pr == N.SetMatch(p, matched)
    {
      pr := p.(recentActive := true, pendingSnap := false);
      if matched > pr.matched {
        pr := pr.(matched := matched);
      }
      if pr.matched + 1 > pr.next {
        pr := pr.(next := pr.matched + 1);
      }
    }

    method AfterProgress(from: nat, next: nat)
      modifies this, log
      ensures State() == N.AfterProgress(old(State()), from, next)
    {
      MaybePromoteLearner(from);
      if next <= log.Value().LastIndex() {
        SendAppend(from);
      }
    }

    method BroadcastAppend()
      modifies this
      ensures State() == N.BroadcastAppend(old(State()))
    {
      ghost var s := State();
      var ts := ReplicationTargets();
      for k := 0 to |ts|
        invariant State() == N.SendAppendAll(s, ts[..k])
      {
        assert ts[..k + 1][..k] == ts[..k];
        SendAppend(ts[k]);
      }
      assert ts[..|ts|] == ts;
    }

    method SendAppend(to: nat)
      modifies this
      ensures State() == N.SendAppend(old(State()), to)
    {
      if to !in prs {
        return;
      }
      var pr := prs[to];
      if pr.next <= log.snapIndex {
        SendSnapshot(to);
        return;
      }
      var prevTerm, ok := log.Term(pr.next - 1);
      if !ok {
        Panic();
        return;
      }
      var ents := log.Slice(pr.next, log.Value().LastIndex() + 1, p.maxBatch);
      Send(App(p.id, to, term, pr.next - 1, prevTerm, ents, commitIndex));
    }

    // ---- Commitment

    /** The match indexes of the voters, then sorted downwards in place. */
    method SortedMatches() returns (a: array<nat>)
      ensures fresh(a)
      ensures a[..] == N.SortDesc(N.Matches(conf.config.voters, p.id, log.Value().LastIndex(), prs))
    {
      ghost var last := log.Value().LastIndex();
      var n := |conf.config.voters|;
      a := new nat[n];
      for k := 0 to n
        invariant a[..k] == N.Matches(conf.config.voters[..k], p.id, last, prs)
      {
        assert conf.config.voters[..k + 1][..k] == conf.config.voters[..k];
        var v := conf.config.voters[k];
        if v == p.id {
          a[k] := log.Value().LastIndex();
        } else if v in prs {
          a[k] := prs[v].matched;
        } else {
          a[k] := 0;
        }
        assert a[..k + 1] == a[..k] + [a[k]];
      }
      assert conf.config.voters[..n] == conf.config.voters;
      assert a[..n] == a[..];
      SortDescending(a);
    }

    /** The match at the quorum position, if there are that many voters. */
    method Median() returns (m: Option<nat>)
      ensures m == N.MedianMatch(State())
    {
      hide N.SortDesc, N.Matches;
      var matches := SortedMatches();
      var q := conf.config.Quorum();
      assert |matches[..]| == matches.Length;
      if q > matches.Length {
        return None;
      }
      assert matches[..][q - 1] == matches[q - 1];
      m := Some(matches[q - 1]);
    }

    method MaybeCommit()
      modifies this
      ensures State() == N.MaybeCommit(old(State()))
    {
      hide N.MedianMatch, N.ApplyCommitted, N.AfterCommit, N.BroadcastAppend;
      if role != Leader {
        return;
      }
      var median := Median();
      if median.None? {
        Panic();
        return;
      }
      var nCommit := median.value;
      if nCommit <= commitIndex {
        return;
      }
      var t, ok := log.Term(nCommit);
      if !ok || t != term {
        return;
      }
      CommitTo(nCommit);
      AfterCommit();
      if role == Leader {
        BroadcastAppend();
      }
    }

    method AfterCommit()
      modifies this
      ensures State() == N.AfterCommit(old(State()))
    {
      if role == Leader && conf.index <= commitIndex && !conf.config.Contains(p.id) {
        BecomeFollower(term, NONE);
      }
    }

    // ---- Proposals

    method CommitAndBroadcast()
      modifies this
      ensures State() == N.CommitAndBroadcast(old(State()))
    {
      MaybeCommit();
      if role == Leader {
        BroadcastAppend();
      }
    }

    method Propose(data: seq<byte>)
      modifies this, log
      ensures State() == N.DoPropose(old(State()), data)
    {
      if role != Leader || transferee != NONE {
        RejectPropose();
        return;
      }
      AppendEntry(Normal, data);
      Reply(ProposeReply(true, log.Value().LastIndex(), term, 0));
      CommitAndBroadcast();
    }

    method ProposeConfChange(ch: ConfChange)
      modifies this, log
      ensures State() == N.DoProposeConfChange(old(State()), ch)
    {
      if role != Leader || transferee != NONE {
        RejectPropose();
        return;
      }
      if conf.index > commitIndex || learner != NONE {
        RejectPropose();
        return;
      }
      match ch
      case AddServer(other) => ProposeAdd(other);
      case RemoveServer(other) => ProposeRemove(other);
    }

    /** The new server first catches up as a learner. */
    method ProposeAdd(other: nat)
      modifies this
      ensures State() == N.DoAddServer(old(State()), other)
    {
      if conf.config.Contains(other) || other == p.id || other == NONE {
        RejectPropose();
        return;
      }
      learner := other;
      SetProgress(other, N.Progress(log.Value().LastIndex() + 1, 0, false, false));
      Reply(ProposeReply(true, 0, term, 0));
      SendAppend(other);
    }

    method ProposeRemove(other: nat)
      modifies this, log
      ensures State() == N.DoRemoveServer(old(State()), other)
    {
      if !conf.config.Contains(other) || |conf.config.voters| == 1 {
        RejectPropose();
        return;
      }
      var voters := Without(conf.config.voters, other);
      var data := EncodeConf(Config(voters));
      AppendEntry(Conf, data);
      if other != p.id {
        prs := prs - {other};
      }
      Reply(ProposeReply(true, log.Value().LastIndex(), term, 0));
      CommitAndBroadcast();
    }

    method MaybePromoteLearner(from: nat)
      modifies this, log
      ensures State() == N.MaybePromoteLearner(old(State()), from)
    {
      if learner == NONE || learner != from || role != Leader {
        return;
      }
      if from !in prs || prs[from].matched < log.Value().LastIndex() {
        return;
      }
      var voters := InsertSorted(conf.config.voters, from);
      learner := NONE;
      var data := EncodeConf(Config(voters));
      AppendEntry(Conf, data);
      CommitAndBroadcast();
    }

    method Transfer(target: nat)
      modifies this
      ensures State() == N.DoTransfer(old(State()), target)
    {
      if role != Leader || target == p.id || !conf.config.Contains(target) {
        RejectPropose();
        return;
      }
      transferee := target;
      clock := clock.(transferElapsed := 0);
      Reply(ProposeReply(true, 0, term, 0));
      if target in prs && prs[target].matched == log.Value().LastIndex() {
        Send(TimeoutNow(p.id, target, term));
      } else {
        SendAppend(target);
      }
    }

    // ---- The configuration history

    method SetConfig(index: nat, cfg: Config)
      modifies `conf, `prs
      ensures State() == N.SetConfig(old(State()), index, cfg)
    {
      conf := ConfState(cfg, index, conf.history + [ConfRecord(index, cfg)]);
      if role == Leader {
        AddProgress(cfg.voters);
      }
    }

    method AddProgress(voters: seq<nat>)
      modifies `prs
      ensures State() == old(State()).(prs := old(prs) + FreshAmong(old(State()), voters))
    {
      hide FreshAmong;
      ghost var s := State();
      AmongNone(s);
      for k := 0 to |voters|
        invariant prs == s.prs + FreshAmong(s, voters[..k])
      {
        var v := voters[k];
        AmongOneMore(s, voters, k);
        if v != p.id && v !in prs {
          prs := prs[v := N.Progress(log.Value().LastIndex() + 1, 0, false, false)];
        }
      }
      assert voters[..|voters|] == voters;
    }

    method TruncateConfigsFrom(index: nat)
      modifies `conf
      ensures State() == old(State()).(conf := TruncateConf(old(State()).conf, index))
    {
      var h: History := conf.history;
      while |h| > 1 && h[|h| - 1].index >= index
        invariant PopFrom(h, index) == PopFrom(conf.history, index)
        decreases |h|
      {
        h := h[..|h| - 1];
      }
      conf := ConfState(h[|h| - 1].cfg, h[|h| - 1].index, h);
    }

    method ConfAt(index: nat) returns (cfg: Config)
      ensures cfg == ConfigAt(conf.history, index)
    {
      ghost var h := conf.history;
      var i: int := |conf.history| - 1;
      assert h[..i + 1] == h;
      while i >= 0
        invariant i < |h|
        invariant i >= 0 ==> ConfigAt(h[..i + 1], index) == ConfigAt(h, index)
        invariant i < 0 ==> h[0].cfg == ConfigAt(h, index)
      {
        ghost var top := h[..i + 1];
        assert top[i] == h[i];
        if conf.history[i].index <= index {
          return conf.history[i].cfg;
        }
        if i > 0 {
          assert top[..i] == h[..i - 1 + 1];
        }
        i := i - 1;
      }
      return conf.history[0].cfg;
    }

    method PruneConfHistory(index: nat)
      modifies `conf
      ensures State() == old(State()).(conf := PruneConf(old(State()).conf, index))
    {
      var h: History := conf.history;
      while |h| > 1 && h[1].index <= index
        invariant Prune(h, index) == Prune(conf.history, index)
        decreases |h|
      {
        h := h[1..];
      }
      conf := conf.(history := h);
    }

    // ---- Snapshots

    method CreateSnapshot(index: nat, data: seq<byte>)
      modifies this, log
      ensures State() == N.DoCreateSnapshot(old(State()), index, data)
    {
      if index <= log.snapIndex {
        return;
      }
      if index > lastApplied {
        Panic();
        return;
      }
      var t, ok := log.Term(index);
      if !ok {
        Panic();
        return;
      }
      var cfg := ConfAt(index);
      var snap := Snapshot(index, t, cfg, data);
      var _ := log.Compact(index, t);
      PruneConfHistory(index);
      MarkSnapshot(snap, false);
    }

    method SendSnapshot(to: nat)
      requires to in prs
      modifies this
      ensures State() == N.SendSnapshot(old(State()), to)
    {
      if prs[to].pendingSnap {
        return;
      }
      if snapshot.None? {
        Panic();
        return;
      }
      SetProgress(to, prs[to].(pendingSnap := true));
      Send(Snap(p.id, to, term, snapshot));
    }

    method InstallSnapshot(m: Message)
      requires m.Snap?
      modifies this, log
      ensures State() == N.InstallSnapshot(old(State()), m)
    {
      FollowLeader(m.term, m.from);
      if m.snapshot.None? {
        return;
      }
      var s := m.snapshot.value;
      if s.index <= commitIndex {
        Send(SnapResp(p.id, m.from, term, commitIndex));
        return;
      }
      var t, ok := log.Term(s.index);
      if ok && t == s.term {
        CommitTo(s.index);
        var _ := log.Compact(s.index, s.term);
        PruneConfHistory(s.index);
        MarkSnapshot(s, false);
        Send(SnapResp(p.id, m.from, term, s.index));
        return;
      }
      LoadSnapshot(s);
      MarkSnapshot(s, true);
      out := out.(applySnapshot := Some(s));
      Send(SnapResp(p.id, m.from, term, s.index));
    }

    /** Restarts the log and the configuration history at a snapshot. */
    method LoadSnapshot(s: Snapshot)
      modifies this, log
      ensures State() == N.LoadSnapshot(old(State()), s)
    {
      log.Reset(s.index, s.term);
      commitIndex := s.index;
      lastApplied := s.index;
      snapshot := Some(s);
      conf := InitConf(s.index, s.config);
    }

    method HandleSnapResp(m: Message)
      requires m.SnapResp?
      modifies this, log
      ensures State() == N.HandleSnapResp(old(State()), m)
    {
      if role != Leader || m.term != term {
        return;
      }
      if m.from !in prs {
        return;
      }
      var pr := RecordMatch(prs[m.from], m.matchIndex);
      SetProgress(m.from, pr);
      MaybeCommit();
      if role != Leader {
        return;
      }
      AfterProgress(m.from, pr.next);
    }

    // ---- Step

    /** One event: the output is what the caller must make durable, send and apply, in that order. */
    method Step(i: Input) returns (o: Output)
      modifies this, log
      ensures State() == N.Step(old(State()), i)
      ensures o == State().out
    {
      Begin();
      Handle(i);
      AssemblePersist();
      o := out;
    }

    method Begin()
      modifies `out, `dirty
      ensures State() == N.Begin(old(State()))
    {
      out := EMPTY_OUTPUT;
      dirty := N.CLEAN;
    }

    method Handle(i: Input)
      modifies this, log
      ensures State() == N.Handle(old(State()), i)
    {
      match i
      case Tick => Tick();
      case Receive(m) => Receive(m);
      case Propose(data) => Propose(data);
      case ProposeConfChange(ch) => ProposeConfChange(ch);
      case TransferLeadership(target) => Transfer(target);
      case CreateSnapshot(index, data) => CreateSnapshot(index, data);
    }

    /** Everything that changed becomes one durable unit. */
    method AssemblePersist()
      modifies `out
      ensures State() == old(State()).(out := old(out).(persist := N.PersistOf(old(State()))))
    {
      var o: Option<Persist> := None;
      if dirty.snap.Some? || dirty.hs || dirty.appendedFrom != 0 {
        var u := Persist(None, [], None, false);
        if dirty.snap.Some? {
          u := dirty.snap.value;
        }
        if dirty.hs {
          u := u.(hardState := Some(HardState(term, votedFor)));
        }
        if dirty.appendedFrom != 0 {
          var ents := log.Slice(dirty.appendedFrom, log.Value().LastIndex() + 1, 0);
          u := u.(entries := ents);
        }
        o := Some(u);
      }
      out := out.(persist := o);
    }
  }

  // ---- Loops over values

  ghost function FreshFor(s: N.NodeState, voters: seq<nat>): map<nat, N.Progress> {
    map v | v in voters && v != s.p.id :: N.Progress(s.log.LastIndex() + 1, 0, false, false)
  }

  lemma FreshOneMore(s: N.NodeState, voters: seq<nat>, k: nat)
    requires k < |voters|
    ensures FreshFor(s, voters[..k + 1]) == if voters[k] == s.p.id then FreshFor(s, voters[..k])
      else FreshFor(s, voters[..k])[voters[k] := N.Progress(s.log.LastIndex() + 1, 0, false, false)]
  {
    assert voters[..k + 1] == voters[..k] + [voters[k]];
  }

  lemma FreshForNone(s: N.NodeState)
    ensures FreshFor(s, []) == map[]
  {
  }

  lemma FreshForAll(s: N.NodeState)
    ensures FreshFor(s, s.conf.config.voters) == N.FreshProgress(s)
  {
  }

  lemma AmongNone(s: N.NodeState)
    ensures s.prs + FreshAmong(s, []) == s.prs
  {
  }

  lemma AmongOneMore(s: N.NodeState, voters: seq<nat>, k: nat)
    requires k < |voters|
    ensures var prs, v := s.prs + FreshAmong(s, voters[..k]), voters[k];
      s.prs + FreshAmong(s, voters[..k + 1]) == if v == s.p.id || v in prs then prs
        else prs[v := N.Progress(s.log.LastIndex() + 1, 0, false, false)]
  {
    assert voters[..k + 1] == voters[..k] + [voters[k]];
  }

  ghost function FreshAmong(s: N.NodeState, voters: seq<nat>): map<nat, N.Progress> {
    map v | v in voters && v != s.p.id && v !in s.prs :: N.Progress(s.log.LastIndex() + 1, 0, false, false)
  }

  lemma ForgetOneMore(prs: map<nat, N.Progress>, ts: seq<nat>, v: nat)
    ensures var f := N.ForgetActivity(prs, ts);
      N.ForgetActivity(prs, ts + [v]) == if v in f then f[v := f[v].(recentActive := false, pendingSnap := false)] else f
  {
  }

  /** Insertion sort, largest first. */
  method SortDescending(a: array<nat>)
    modifies a
    ensures a[..] == N.SortDesc(old(a[..]))
  {
    ghost var b := a[..];
    SortOne(b);
    var i := 1;
    while i < a.Length
      invariant a.Length > 0 ==> 1 <= i <= a.Length
      invariant i <= a.Length ==> a[..i] == N.SortDesc(b[..i]) && a[i..] == b[i..]
    {
      assert b[..i + 1][..i] == b[..i];
      ghost var sorted := a[..i];
      InsertLast(a, i);
      assert a[..i + 1] == N.InsertDesc(sorted, b[i]);
      assert a[i + 1..] == b[i..][1..];
      i := i + 1;
    }
    if a.Length > 0 {
      assert a[..] == a[..i] && b == b[..i];
    }
  }

  lemma SortOne(b: seq<nat>)
    ensures b == [] ==> N.SortDesc(b) == b
    ensures |b| >= 1 ==> b[..1] == N.SortDesc(b[..1])
  {
    if |b| >= 1 {
      assert b[..1] == [b[0]];
    }
  }

  /** Moves a[i] down to its place among the sorted elements before it. */
  method InsertLast(a: array<nat>, i: nat)
    requires i < a.Length
    modifies a
    ensures a[..i + 1] == N.InsertDesc(old(a[..i]), old(a[i]))
    ensures a[i + 1..] == old(a[i + 1..])
  {
    hide N.InsertDesc;
    ghost var x, sorted := a[i], a[..i];
    var j := i;
    assert sorted[..i] == sorted && sorted[i..] == [];
    while j > 0 && a[j] > a[j - 1]
      invariant 0 <= j <= i
      invariant a[j] == x
      invariant forall k :: 0 <= k < j ==> a[k] == sorted[k]
      invariant forall k :: j < k <= i ==> a[k] == sorted[k - 1]
      invariant a[i + 1..] == old(a[i + 1..])
      invariant N.InsertDesc(sorted[..j], x) + sorted[j..] == N.InsertDesc(sorted, x)
    {
      InsertBelow(sorted, j, x);
      a[j], a[j - 1] := a[j - 1], a[j];
      j := j - 1;
    }
    InsertHere(sorted, j, x);
    assert a[..i + 1] == sorted[..j] + [x] + sorted[j..];
  }

  lemma InsertBelow(sorted: seq<nat>, j: nat, x: nat)
    requires 0 < j <= |sorted| && sorted[j - 1] < x
    ensures N.InsertDesc(sorted[..j], x) + sorted[j..] == N.InsertDesc(sorted[..j - 1], x) + sorted[j - 1..]
  {
    assert sorted[..j][..j - 1] == sorted[..j - 1];
    assert sorted[j - 1..] == [sorted[j - 1]] + sorted[j..];
  }

  lemma InsertHere(sorted: seq<nat>, j: nat, x: nat)
    requires j <= |sorted| && (j == 0 || sorted[j - 1] >= x)
    ensures N.InsertDesc(sorted[..j], x) == sorted[..j] + [x]
  {
  }

  method Without(a: seq<nat>, id: nat) returns (r: seq<nat>)
    ensures r == N.WithoutVoter(a, id)
  {
    r := [];
    for k := 0 to |a|
      invariant r == N.WithoutVoter(a[..k], id)
    {
      assert a[..k + 1][..k] == a[..k];
      if a[k] != id {
        r := r + [a[k]];
      }
    }
    assert a[..|a|] == a;
  }

  method InsertSorted(a: seq<nat>, v: nat) returns (r: seq<nat>)
    ensures r == N.InsertSorted(a, v)
  {
    hide N.InsertFrom;
    r := [];
    var inserted := false;
    for k := 0 to |a|
      invariant r + N.InsertFrom(a, v, k, inserted) == N.InsertSorted(a, v)
    {
      InsertOneMore(a, v, k, inserted, r);
      if !inserted && v < a[k] {
        r := r + [v];
        inserted := true;
      }
      if a[k] == v {
        inserted := true;
      }
      r := r + [a[k]];
    }
    InsertAtEnd(a, v, inserted);
    if !inserted {
      r := r + [v];
    }
  }

  lemma InsertAtEnd(a: seq<nat>, v: nat, inserted: bool)
    ensures N.InsertFrom(a, v, |a|, inserted) == if inserted then [] else [v]
  {
  }

  lemma InsertOneMore(a: seq<nat>, v: nat, k: nat, inserted: bool, r: seq<nat>)
    requires k < |a|
    ensures var now := !inserted && v < a[k];
      r + N.InsertFrom(a, v, k, inserted) ==
          (r + (if now then [v] else [])) + [a[k]] + N.InsertFrom(a, v, k + 1, inserted || now || a[k] == v)
  {
    var now := !inserted && v < a[k];
    var rest := N.InsertFrom(a, v, k + 1, inserted || now || a[k] == v);
    JoinLast(r, if now then [v] else [], a[k], rest);
  }

  lemma JoinLast(r: seq<nat>, head: seq<nat>, x: nat, rest: seq<nat>)
    ensures r + (head + [x] + rest) == (r + head) + [x] + rest
  {
  }

  /** Writes n in the w bytes at off, most significant first. */
  method PutUint(buf: array<byte>, off: nat, w: nat, n: nat)
    requires off + w <= buf.Length
    modifies buf
    ensures buf[..] == old(buf[..off]) + ToBytes(n, w) + old(buf[off + w..])
  {
    var i, m := w, n;
    while i > 0
      invariant 0 <= i <= w
      invariant buf[..off] == old(buf[..off]) && buf[off + w..] == old(buf[off + w..])
      invariant ToBytes(m, i) + buf[off + i..off + w] == ToBytes(n, w)
    {
      i := i - 1;
      buf[off + i] := m % 256;
      m := m / 256;
    }
  }

  lemma VotersOneMore(vs: seq<nat>, i: nat)
    requires i < |vs|
    ensures EncodeVoters(vs[..i + 1]) == EncodeVoters(vs[..i]) + ToBytes(vs[i], 8)
  {
    assert vs[..i + 1][..i] == vs[..i];
  }

  /** What has been put is there, after what was there before it. */
  lemma PutThrough(before: seq<byte>, after: seq<byte>, off: nat, w: seq<byte>)
    requires off + |w| <= |before| && after == before[..off] + w + before[off + |w|..]
    ensures after[..off + |w|] == before[..off] + w
  {
  }

  method EncodeConf(c: Config) returns (b: seq<byte>)
    ensures b == EncodeConfig(c)
  {
    hide EncodeVoters, ToBytes;
    var n := |c.voters|;
    var buf := new byte[4 + 8 * n];
    ghost var blank := buf[..];
    PutUint(buf, 0, 4, n);
    PutThrough(blank, buf[..], 0, ToBytes(n, 4));
    for i := 0 to n
      invariant buf[..4 + 8 * i] == ToBytes(n, 4) + EncodeVoters(c.voters[..i])
    {
      ghost var before := buf[..];
      PutUint(buf, 4 + 8 * i, 8, c.voters[i]);
      VotersOneMore(c.voters, i);
      PutThrough(before, buf[..], 4 + 8 * i, ToBytes(c.voters[i], 8));
    }
    assert c.voters[..n] == c.voters;
    assert buf[..] == buf[..4 + 8 * n];
    b := buf[..];
  }

  method GetUint(b: seq<byte>) returns (n: nat)
    ensures n == FromBytes(b)
  {
    n := 0;
    for i := 0 to |b|
      invariant n == FromBytes(b[..i])
    {
      assert b[..i + 1][..i] == b[..i];
      n := 256 * n + b[i];
    }
    assert b[..|b|] == b;
  }

  /** None where the bytes run out, which the original answers with a slice panic. */
  method DecodeConf(b: seq<byte>) returns (c: Option<Config>)
    ensures c == DecodeConfig(b)
  {
    if |b| < 4 {
      return None;
    }
    var n := GetUint(b[..4]);
    var voters := [];
    for i := 0 to n
      invariant |voters| == i && 4 + 8 * i <= |b|
      invariant forall k :: 0 <= k < i ==> voters[k] == FromBytes(b[4 + 8 * k..4 + 8 * k + 8])
    {
      if |b| < 4 + 8 * i + 8 {
        return None;
      }
      var v := GetUint(b[4 + 8 * i..4 + 8 * i + 8]);
      voters := voters + [v];
    }
    assert |b| >= 4 + 8 * n;
    assert voters == DecodeConfig(b).value.voters;
    c := Some(Config(voters));
  }
}
