/** The store a log prefix stands for, and what a snapshot of it must be. */
module Replay {
  import opened RaftTypes
  import opened Strings
  import opened KV
  import opened Codec

  /** The command an entry carries, if it carries one. */
  function CommandIn(e: Entry): Option<Command> {
    if e.typ != Normal || e.data == [] then None else DecodeCommand(e.data)
  }

  function Commands(s: seq<Entry>): (cs: seq<Command>)
    ensures |cs| <= |s|
  {
    if s == [] then []
    else
      var c := CommandIn(s[|s| - 1]);
      Commands(s[..|s| - 1]) + (if c.Some? then [c.value] else [])
  }

  /** The store after a log prefix has been applied, one entry after the other. */
  function StoreAfter(s: seq<Entry>): StoreState {
    RunAll(EMPTY_STORE, Commands(s))
  }

  function ApplyEntry(store: StoreState, e: Entry): StoreState {
    if CommandIn(e).Some? then ApplyCommand(store, CommandIn(e).value).next else store
  }

  function ApplyEntries(store: StoreState, es: seq<Entry>): StoreState {
    if es == [] then store else ApplyEntry(ApplyEntries(store, es[..|es| - 1]), es[|es| - 1])
  }

  /** A snapshot's data restores the store its entries lead to. */
  ghost predicate RestoresReplay(prefix: seq<Entry>, data: seq<byte>) {
    DecodeStore(data) == Some(StoreAfter(prefix))
  }

  lemma CommandsStep(s: seq<Entry>, e: Entry)
    ensures Commands(s + [e]) == Commands(s) + (if CommandIn(e).Some? then [CommandIn(e).value] else [])
  {
    assert (s + [e])[..|s|] == s;
  }

  lemma RunStep(s: StoreState, cs: seq<Command>, c: Command)
    ensures RunAll(s, cs + [c]) == ApplyCommand(RunAll(s, cs), c).next
  {
    assert (cs + [c])[..|cs|] == cs;
  }

  lemma ReplayStep(s: seq<Entry>, e: Entry)
    ensures StoreAfter(s + [e]) == ApplyEntry(StoreAfter(s), e)
  {
    hide CommandIn, ApplyCommand, Commands;
    CommandsStep(s, e);
    if CommandIn(e).Some? {
      RunStep(EMPTY_STORE, Commands(s), CommandIn(e).value);
    } else {
      assert Commands(s) + [] == Commands(s);
    }
  }

  /** Applying what comes after a prefix leads to what the longer prefix stands for. */
  lemma {:induction false} ReplayMore(s: seq<Entry>, es: seq<Entry>)
    ensures ApplyEntries(StoreAfter(s), es) == StoreAfter(s + es)
  {
    hide StoreAfter, ApplyEntry;
    if es == [] {
      assert s + es == s;
    } else {
      var n := |es| - 1;
      ReplayMore(s, es[..n]);
      ReplayStep(s + es[..n], es[n]);
      assert s + es == s + es[..n] + [es[n]];
    }
  }

  lemma {:induction false} CommandsPrefix(s: seq<Entry>, n: nat)
    requires n <= |s|
    ensures |Commands(s[..n])| <= |Commands(s)| && Commands(s)[..|Commands(s[..n])|] == Commands(s[..n])
    decreases |s|
  {
    if n < |s| {
      var m := |s| - 1;
      CommandsPrefix(s[..m], n);
      assert s[..m][..n] == s[..n];
    } else {
      assert s[..n] == s;
    }
  }

  lemma {:induction false} CommandsFrom(s: seq<Entry>, k: nat) returns (n: nat)
    requires k < |Commands(s)|
    ensures n < |s| && CommandIn(s[n]) == Some(Commands(s)[k]) && |Commands(s[..n])| == k
  {
    var m := |s| - 1;
    if k < |Commands(s[..m])| {
      n := CommandsFrom(s[..m], k);
      assert s[..m][..n] == s[..n];
    } else {
      n := m;
    }
  }

  /** A numbered command takes effect at one index of a log at most. */
  lemma EffectOnce(s: seq<Entry>, m: nat, n: nat)
    requires m < n < |s| && CommandIn(s[m]).Some? && CommandIn(s[n]).Some?
    requires var a, b := CommandIn(s[m]).value, CommandIn(s[n]).value; a.client == b.client && a.seqno == b.seqno >= 1
    ensures !(ApplyCommand(StoreAfter(s[..m]), CommandIn(s[m]).value).fresh_ &&
        ApplyCommand(StoreAfter(s[..n]), CommandIn(s[n]).value).fresh_)
  {
    hide ApplyCommand, CommandIn, Commands;
    var cs := Commands(s);
    CommandPlace(s, m);
    CommandPlace(s, n);
    var j, k := |Commands(s[..m])|, |Commands(s[..n])|;
    CommandPlace(s[..n], m);
    assert s[..n][..m] == s[..m];
    AtMostOnce(cs, j, k);
  }

  /** The command of an entry stands among the commands behind those of the entries before it. */
  lemma CommandPlace(s: seq<Entry>, n: nat)
    requires n < |s| && CommandIn(s[n]).Some?
    ensures var k := |Commands(s[..n])|;
      k < |Commands(s)| && Commands(s)[k] == CommandIn(s[n]).value &&
      Commands(s)[..k] == Commands(s[..n])
  {
    hide CommandIn;
    CommandsPrefix(s, n);
    CommandsPrefix(s, n + 1);
    assert s[..n + 1][..n] == s[..n];
  }

  // ---- Stores of fitting commands fit

  lemma ExecuteFits(data: map<Str, Str>, c: Command)
    requires DataFits(data) && CommandFits(c)
    ensures DataFits(Execute(data, c).0) && ShortStr(Execute(data, c).1.value)
  {
  }

  lemma {:induction false} RunFits(cs: seq<Command>)
    requires forall c :: c in cs ==> CommandFits(c)
    ensures DataFits(RunAll(EMPTY_STORE, cs).data) && SessionsFit(RunAll(EMPTY_STORE, cs).sessions)
  {
    if cs != [] {
      var init, c := cs[..|cs| - 1], cs[|cs| - 1];
      RunFits(init);
      ExecuteFits(RunAll(EMPTY_STORE, init).data, c);
    }
  }

  // ---- What answers mean

  /** The committed prefix answers (client, seqno) with res: its fresh occurrence got res, or the client moved on. */
  ghost predicate Answers(cs: seq<Command>, client: nat, seqno: nat, res: Result) {
    || (exists k :: 0 <= k < |cs| && AnsweredAt(cs, k, client, seqno, res))
    || MovedOn(cs, client, seqno)
  }

  ghost predicate AnsweredAt(cs: seq<Command>, k: nat, client: nat, seqno: nat, res: Result)
    requires k < |cs|
  {
    cs[k].client == client && cs[k].seqno == seqno && IsFresh(cs, k) && AnswerOf(cs, k) == res
  }

  /** A later command of the client has taken effect. */
  ghost predicate MovedOn(cs: seq<Command>, client: nat, seqno: nat) {
    exists k :: 0 <= k < |cs| && cs[k].client == client && cs[k].seqno > seqno
  }

  /** What the store answers to its next command is the truth. */
  lemma AppliedAnswers(cs: seq<Command>, c: Command)
    requires c.seqno >= 1
    ensures Answers(cs + [c], c.client, c.seqno, ApplyCommand(RunAll(EMPTY_STORE, cs), c).res)
  {
    hide Execute;
    var s := RunAll(EMPTY_STORE, cs);
    var ds := cs + [c];
    var r := ApplyCommand(s, c);
    assert ds[..|cs|] == cs;
    if r.fresh_ {
      assert AnsweredAt(ds, |cs|, c.client, c.seqno, r.res);
    } else {
      SessionIsLastFresh(cs, c.client);
      var k :| 0 <= k < |cs| && LastFresh(cs, k, c.client) && s.sessions[c.client] == Session(cs[k].seqno, AnswerOf(cs, k));
      PrefixFresh(ds, |cs|, k);
      if cs[k].seqno == c.seqno {
        assert AnsweredAt(ds, k, c.client, c.seqno, r.res);
      } else {
        assert ds[k].seqno > c.seqno;
      }
    }
  }

  lemma CachedAnswers(cs: seq<Command>, client: nat, seqno: nat, res: Result)
    requires Cached(RunAll(EMPTY_STORE, cs), client, seqno) == Some(res)
    ensures Answers(cs, client, seqno, res)
  {
    CachedIsAnswer(cs, client, seqno);
    var k :| 0 <= k < |cs| && LastFresh(cs, k, client) && cs[k].seqno == seqno;
    assert AnsweredAt(cs, k, client, seqno, res);
  }
}
