/** The key-value state machine with client sessions. */
module KV {
  import opened RaftTypes
  import opened Strings

  const OP_GET: byte := 0
  const OP_PUT: byte := 1
  const OP_CAS: byte := 2

  datatype Command = Command(client: nat, seqno: nat, op: byte, key: Str, value: Str, expect_: Str)

  datatype Result = Result(value: Str, ok: bool)

  const NO_RESULT := Result([], false)

  datatype Session = Session(lastSeq: nat, lastResult: Result)

  datatype StoreState = StoreState(data: map<Str, Str>, sessions: map<nat, Session>)

  const EMPTY_STORE := StoreState(map[], map[])

  datatype Applied = Applied(next: StoreState, res: Result, fresh_: bool)

  // ---- One command

  function Current(data: map<Str, Str>, key: Str): Result {
    if key in data then Result(data[key], true) else NO_RESULT
  }

  /** What a command does to the data, and its answer. */
  function Execute(data: map<Str, Str>, c: Command): (map<Str, Str>, Result) {
    if c.op == OP_GET then (data, Current(data, c.key))
    else if c.op == OP_PUT then (data[c.key := c.value], Result([], true))
    else if c.op == OP_CAS then
      var cur := Current(data, c.key);
      if cur.ok && cur.value == c.expect_ then (data[c.key := c.value], Result([], true))
      else (data, Result(cur.value, false))
    else (data, NO_RESULT)
  }

  function SessionOf(s: StoreState, client: nat): Session {
    if client in s.sessions then s.sessions[client] else Session(0, NO_RESULT)
  }

  function ApplyCommand(s: StoreState, c: Command): Applied {
    var sess := SessionOf(s, c.client);
    if c.seqno == sess.lastSeq && c.seqno != 0 then Applied(s, sess.lastResult, false)
    else if c.seqno < sess.lastSeq then Applied(s, NO_RESULT, false)
    else
      var (data, res) := Execute(s.data, c);
      Applied(StoreState(data, s.sessions[c.client := Session(c.seqno, res)]), res, true)
  }

  function Cached(s: StoreState, client: nat, seqno: nat): Option<Result> {
    if client in s.sessions && s.sessions[client].lastSeq == seqno && seqno != 0 then Some(s.sessions[client].lastResult)
    else None
  }

  class Store {
    var data: map<Str, Str>
    var sessions: map<nat, Session>

    function State(): StoreState
      reads this
    {
      StoreState(data, sessions)
    }

    constructor ()
      ensures State() == EMPTY_STORE
    {
      data, sessions := map[], map[];
    }

    /** Applies one command; a repeated one changes nothing and gets the cached answer. */
    method Apply(c: Command) returns (res: Result, fresh_: bool)
      modifies this
      ensures Applied(State(), res, fresh_) == ApplyCommand(old(State()), c)
    {
      if c.client !in sessions {
        sessions := sessions[c.client := Session(0, NO_RESULT)];
      }
      var sess := sessions[c.client];
      if c.seqno == sess.lastSeq && c.seqno != 0 {
        return sess.lastResult, false;
      }
      if c.seqno < sess.lastSeq {
        return NO_RESULT, false;
      }
      res := NO_RESULT;
      if c.op == OP_GET {
        if c.key in data {
          res := Result(data[c.key], true);
        }
      } else if c.op == OP_PUT {
        data := data[c.key := c.value];
        res := Result([], true);
      } else if c.op == OP_CAS {
        if c.key in data && data[c.key] == c.expect_ {
          data := data[c.key := c.value];
          res := Result([], true);
        } else {
          res := Result(if c.key in data then data[c.key] else [], false);
        }
      }
      sessions := sessions[c.client := Session(c.seqno, res)];
      return res, true;
    }

    method CachedResult(client: nat, seqno: nat) returns (r: Result, ok: bool)
      ensures Cached(State(), client, seqno) == if ok then Some(r) else None
    {
      if client in sessions && sessions[client].lastSeq == seqno && seqno != 0 {
        return sessions[client].lastResult, true;
      }
      return NO_RESULT, false;
    }
  }

  // ---- Exactly-once sessions, over any sequence of commands

  function RunAll(s: StoreState, cs: seq<Command>): StoreState {
    if cs == [] then s else ApplyCommand(RunAll(s, cs[..|cs| - 1]), cs[|cs| - 1]).next
  }

  /** The k-th command of the sequence takes effect. */
  predicate IsFresh(cs: seq<Command>, k: nat)
    requires k < |cs|
  {
    ApplyCommand(RunAll(EMPTY_STORE, cs[..k]), cs[k]).fresh_
  }

  /** The answer the k-th command of the sequence gets. */
  function AnswerOf(cs: seq<Command>, k: nat): Result
    requires k < |cs|
  {
    ApplyCommand(RunAll(EMPTY_STORE, cs[..k]), cs[k]).res
  }

  function FreshOnes(cs: seq<Command>): (r: seq<Command>)
    ensures |r| <= |cs|
  {
    if cs == [] then []
    else
      var n := |cs| - 1;
      FreshOnes(cs[..n]) + (if IsFresh(cs, n) then [cs[n]] else [])
  }

  lemma {:induction false} PrefixFresh(cs: seq<Command>, n: nat, k: nat)
    requires k < n <= |cs|
    ensures IsFresh(cs[..n], k) == IsFresh(cs, k) && AnswerOf(cs[..n], k) == AnswerOf(cs, k)
  {
    assert cs[..n][..k] == cs[..k];
  }

  /** The session remembers exactly the last fresh command of the client. */
  ghost predicate LastFresh(cs: seq<Command>, k: nat, client: nat)
    requires k < |cs|
  {
    cs[k].client == client && IsFresh(cs, k) && forall j :: k < j < |cs| && cs[j].client == client ==> !IsFresh(cs, j)
  }

  /** The last command of a client that took effect stays that while no other of its commands does. */
  lemma StillLastFresh(cs: seq<Command>, k: nat, client: nat)
    requires cs != [] && k < |cs| - 1 && LastFresh(cs[..|cs| - 1], k, client)
    requires !(cs[|cs| - 1].client == client && IsFresh(cs, |cs| - 1))
    ensures LastFresh(cs, k, client) && AnswerOf(cs, k) == AnswerOf(cs[..|cs| - 1], k)
  {
    var n := |cs| - 1;
    hide IsFresh, AnswerOf;
    PrefixFresh(cs, n, k);
    forall j | k < j < |cs| && cs[j].client == client ensures !IsFresh(cs, j) {
      if j < n {
        PrefixFresh(cs, n, j);
        assert cs[..n][j] == cs[j];
      }
    }
  }

  /** A command that does not take effect, or another client's, leaves the session alone. */
  ghost predicate SessionKept(s: StoreState, c: Command, client: nat) {
    client in ApplyCommand(s, c).next.sessions && client in s.sessions
    && ApplyCommand(s, c).next.sessions[client] == s.sessions[client]
  }

  lemma {:induction false} SessionIsLastFresh(cs: seq<Command>, client: nat)
    ensures var s := RunAll(EMPTY_STORE, cs);
      if client in s.sessions
      then exists k ::
             0 <= k < |cs| && LastFresh(cs, k, client) &&
             s.sessions[client] == Session(cs[k].seqno, AnswerOf(cs, k))
      else forall k :: 0 <= k < |cs| ==> cs[k].client != client
  {
    if cs != [] {
      var n := |cs| - 1;
      var cs', c := cs[..n], cs[n];
      var before := RunAll(EMPTY_STORE, cs');
      SessionIsLastFresh(cs', client);
      if c.client == client && IsFresh(cs, n) {
        assert LastFresh(cs, n, client);
      } else if client in before.sessions {
        var k :| 0 <= k < |cs'| && LastFresh(cs', k, client) &&
            before.sessions[client] == Session(cs'[k].seqno, AnswerOf(cs', k));
        StillLastFresh(cs, k, client);
        assert SessionKept(before, c, client);
      } else {
        forall k | 0 <= k < |cs| ensures cs[k].client != client {
          if k < n {
            assert cs'[k] == cs[k];
          }
        }
      }
    }
  }

  /** A cached answer is the one the last fresh command of the client got. */
  lemma CachedIsAnswer(cs: seq<Command>, client: nat, seqno: nat)
    ensures Cached(RunAll(EMPTY_STORE, cs), client, seqno).Some? <==>
      seqno != 0 && exists k :: 0 <= k < |cs| && LastFresh(cs, k, client) && cs[k].seqno == seqno
    ensures forall k :: 0 <= k < |cs| && LastFresh(cs, k, client) && cs[k].seqno == seqno && seqno != 0 ==>
      Cached(RunAll(EMPTY_STORE, cs), client, seqno) == Some(AnswerOf(cs, k))
  {
    SessionIsLastFresh(cs, client);
    var s := RunAll(EMPTY_STORE, cs);
    if client in s.sessions {
      var k :| 0 <= k < |cs| && LastFresh(cs, k, client) && s.sessions[client] == Session(cs[k].seqno, AnswerOf(cs, k));
      forall j | 0 <= j < |cs| && LastFresh(cs, j, client) ensures j == k {
      }
    }
  }

  lemma {:induction false} SessionsGrow(cs: seq<Command>, k: nat, n: nat, client: nat)
    requires k <= n <= |cs|
    ensures SessionOf(RunAll(EMPTY_STORE, cs[..k]), client).lastSeq <=
        SessionOf(RunAll(EMPTY_STORE, cs[..n]), client).lastSeq
    decreases n
  {
    if k < n {
      SessionsGrow(cs, k, n - 1, client);
      assert cs[..n][..n - 1] == cs[..n - 1];
    }
  }

  /** Fresh commands of one client carry ever larger sequence numbers; only number 0 can be fresh again. */
  lemma FreshIncreases(cs: seq<Command>, j: nat, k: nat)
    requires j < k < |cs| && cs[j].client == cs[k].client && IsFresh(cs, j) && IsFresh(cs, k)
    ensures cs[j].seqno < cs[k].seqno || cs[j].seqno == cs[k].seqno == 0
  {
    assert cs[..j + 1][..j] == cs[..j];
    SessionsGrow(cs, j + 1, k, cs[j].client);
  }

  /** Sequence numbers from 1 on take effect at most once. */
  lemma AtMostOnce(cs: seq<Command>, j: nat, k: nat)
    requires j < k < |cs| && cs[j].client == cs[k].client && cs[j].seqno == cs[k].seqno
    ensures IsFresh(cs, j) && IsFresh(cs, k) ==> cs[j].seqno == 0
  {
    if IsFresh(cs, j) && IsFresh(cs, k) {
      FreshIncreases(cs, j, k);
    }
  }

  /** Number 0 is not protected: the same write may take effect twice. */
  lemma ZeroNotProtected(c: Command)
    requires c.seqno == 0
    ensures IsFresh([c, c], 0) && IsFresh([c, c], 1)
  {
    assert [c, c][..1] == [c];
    assert [c][..0] == [];
    assert RunAll(EMPTY_STORE, [c]) == ApplyCommand(EMPTY_STORE, c).next;
  }

  /** Dropping every repetition changes neither the data nor the sessions. */
  lemma {:induction false} OnlyFreshMatter(cs: seq<Command>)
    ensures RunAll(EMPTY_STORE, FreshOnes(cs)) == RunAll(EMPTY_STORE, cs)
  {
    if cs != [] {
      var n := |cs| - 1;
      OnlyFreshMatter(cs[..n]);
      if IsFresh(cs, n) {
        assert FreshOnes(cs)[..|FreshOnes(cs)| - 1] == FreshOnes(cs[..n]);
      } else {
        assert FreshOnes(cs) == FreshOnes(cs[..n]);
      }
    }
  }

  /** Run alone, the fresh commands are all fresh. */
  lemma {:induction false} FreshStayFresh(cs: seq<Command>, k: nat)
    requires k < |FreshOnes(cs)|
    ensures IsFresh(FreshOnes(cs), k)
  {
    var n := |cs| - 1;
    var f, f' := FreshOnes(cs), FreshOnes(cs[..n]);
    assert f[..|f'|] == f';
    if k < |f'| {
      FreshStayFresh(cs[..n], k);
      PrefixFresh(f, |f'|, k);
    } else {
      OnlyFreshMatter(cs[..n]);
    }
  }

  // ---- What the answers say, in terms of the commands alone

  /** Fresh are exactly the commands numbered above all the client sent before; and number 0 while it is the only one. */
  lemma FreshExactly(cs: seq<Command>, k: nat)
    requires k < |cs|
    ensures IsFresh(cs, k) <==> forall j :: 0 <= j < k && cs[j].client == cs[k].client ==>
        cs[j].seqno < cs[k].seqno || cs[j].seqno == cs[k].seqno == 0
  {
    LastSeqIsMax(cs[..k], cs[k].client);
    var last := SessionOf(RunAll(EMPTY_STORE, cs[..k]), cs[k].client).lastSeq;
    assert forall j :: 0 <= j < k ==> cs[..k][j] == cs[j];
    if j :| 0 <= j < k && cs[j].client == cs[k].client && cs[..k][j].seqno == last {
    }
  }

  /** The session's number is the largest the client has sent. */
  lemma {:induction false} LastSeqIsMax(cs: seq<Command>, client: nat)
    ensures var last := SessionOf(RunAll(EMPTY_STORE, cs), client).lastSeq;
      && (forall j :: 0 <= j < |cs| && cs[j].client == client ==> cs[j].seqno <= last)
      && (last == 0 || exists j :: 0 <= j < |cs| && cs[j].client == client && cs[j].seqno == last)
  {
    if cs != [] {
      var n := |cs| - 1;
      LastSeqIsMax(cs[..n], client);
      var before := SessionOf(RunAll(EMPTY_STORE, cs[..n]), client).lastSeq;
      var last := SessionOf(RunAll(EMPTY_STORE, cs), client).lastSeq;
      assert forall j :: 0 <= j < n ==> cs[..n][j] == cs[j];
      if last != before {
        assert cs[n].client == client && cs[n].seqno == last;
      } else if j :| 0 <= j < n && cs[..n][j].client == client && cs[..n][j].seqno == last {
        assert cs[j].seqno == last;
      }
    }
  }

  /** The k-th command takes effect and writes the key. */
  ghost predicate WritesAt(cs: seq<Command>, k: nat, key: Str)
    requires k < |cs|
  {
    && IsFresh(cs, k) && cs[k].key == key
    && (cs[k].op == OP_PUT || (cs[k].op == OP_CAS && AnswerOf(cs, k).ok))
  }

  /** What the first n commands last wrote to the key, if they wrote to it. */
  ghost function LastWritten(cs: seq<Command>, n: nat, key: Str): Option<Str>
    requires n <= |cs|
  {
    if n == 0 then None else if WritesAt(cs, n - 1, key) then Some(cs[n - 1].value) else LastWritten(cs, n - 1, key)
  }

  lemma {:induction false} HoldsLastWritten(cs: seq<Command>, n: nat, key: Str)
    requires n <= |cs|
    ensures var data := RunAll(EMPTY_STORE, cs[..n]).data;
      LastWritten(cs, n, key) == if key in data then Some(data[key]) else None
  {
    if n > 0 {
      HoldsLastWritten(cs, n - 1, key);
      assert cs[..n][..n - 1] == cs[..n - 1];
    }
  }

  /** What a command that takes effect is answered: by what was last written to its key. */
  lemma AnswersLastWritten(cs: seq<Command>, n: nat)
    requires n < |cs| && IsFresh(cs, n)
    ensures var c, res, last := cs[n], AnswerOf(cs, n), LastWritten(cs, n, cs[n].key);
      && (c.op == OP_PUT ==> res == Result([], true))
      && (c.op == OP_GET ==> res == if last.Some? then Result(last.value, true) else NO_RESULT)
      && (c.op == OP_CAS && last == Some(c.expect_) ==> res == Result([], true))
      && (c.op == OP_CAS && last != Some(c.expect_) ==> res == Result(if last.Some? then last.value else [], false))
      && (c.op !in {OP_GET, OP_PUT, OP_CAS} ==> res == NO_RESULT)
  {
    HoldsLastWritten(cs, n, cs[n].key);
  }

  /** A repetition is answered as the command it repeats, and one the client has moved on from gets nothing. */
  lemma RepetitionAnswered(cs: seq<Command>, n: nat)
    requires n < |cs| && !IsFresh(cs, n)
    ensures exists k ::
        && 0 <= k < n && LastFresh(cs[..n], k, cs[n].client) && cs[k].seqno >= cs[n].seqno
        && AnswerOf(cs, n) == (if cs[k].seqno == cs[n].seqno then AnswerOf(cs, k) else NO_RESULT)
  {
    SessionIsLastFresh(cs[..n], cs[n].client);
    var s := RunAll(EMPTY_STORE, cs[..n]);
    var k :| 0 <= k < n && LastFresh(cs[..n], k, cs[n].client)
      && s.sessions[cs[n].client] == Session(cs[k].seqno, AnswerOf(cs[..n], k));
    PrefixFresh(cs, n, k);
  }
}
