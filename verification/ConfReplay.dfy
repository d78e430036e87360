/** The cached configuration history is the replay of the log's configuration entries. */
module ConfReplay {
  import opened RaftTypes
  import opened LogSpec
  import opened ConfSpec
  import opened NodeSpec

  /** The configuration an entry carries, with the index it holds from. */
  function RecordIn(e: Entry): Option<ConfRecord> {
    if e.typ != Conf then None
    else match DecodeConfig(e.data)
      case None => None
      case Some(cfg) => Some(ConfRecord(e.index, cfg))
  }

  function Records(ents: seq<Entry>): (r: seq<ConfRecord>)
    ensures |r| <= |ents|
  {
    if ents == [] then []
    else
      var r := RecordIn(ents[|ents| - 1]);
      Records(ents[..|ents| - 1]) + (if r.Some? then [r.value] else [])
  }

  /** Every configuration entry carries a configuration. */
  ghost predicate Decodable(ents: seq<Entry>) {
    forall k :: 0 <= k < |ents| && ents[k].typ == Conf ==> RecordIn(ents[k]).Some?
  }

  /** The history is a base at or below the snapshot point, then one record per configuration entry, all of which can be
      read; the cache is the last. */
  ghost predicate ConfReplays(l: Log, c: ConfState) {
    && Decodable(l.entries)
    && c.history[1..] == Records(l.entries)
    && c.history[0].index <= l.snapIndex
    && c.config == c.history[|c.history| - 1].cfg
    && c.index == c.history[|c.history| - 1].index
  }

  lemma RecordsStep(ents: seq<Entry>, e: Entry)
    ensures Records(ents + [e]) == Records(ents) + (if RecordIn(e).Some? then [RecordIn(e).value] else [])
  {
    assert (ents + [e])[..|ents|] == ents;
  }

  lemma {:induction false} RecordsAppend(a: seq<Entry>, b: seq<Entry>)
    ensures Records(a + b) == Records(a) + Records(b)
  {
    if b == [] {
      assert a + b == a;
    } else {
      hide Records, RecordIn;
      var init, last := b[..|b| - 1], b[|b| - 1];
      assert b == init + [last];
      assert a + b == (a + init) + [last];
      RecordsAppend(a, init);
      RecordsStep(init, last);
      RecordsStep(a + init, last);
    }
  }

  /** The records of consecutive entries carry their indexes. */
  lemma {:induction false} RecordsBetween(ents: seq<Entry>, base: nat)
    requires forall k :: 0 <= k < |ents| ==> ents[k].index == base + 1 + k
    ensures forall k :: 0 <= k < |Records(ents)| ==> base < Records(ents)[k].index <= base + |ents|
    ensures forall j, k :: 0 <= j < k < |Records(ents)| ==> Records(ents)[j].index < Records(ents)[k].index
  {
    if ents != [] {
      RecordsBetween(ents[..|ents| - 1], base);
    }
  }

  /** Where the records of the entries up to index i end in the history. */
  lemma HistorySplit(l: Log, c: ConfState, i: nat) returns (n: nat)
    requires ConfReplays(l, c) && l.Contiguous() && l.snapIndex <= i <= l.LastIndex()
    ensures n + 1 <= |c.history|
    ensures Records(l.entries[..i - l.snapIndex]) == c.history[1..n + 1] &&
        Records(l.entries[i - l.snapIndex..]) == c.history[n + 1..]
    ensures (forall k :: 1 <= k <= n ==> c.history[k].index <= i) &&
        (forall k :: n < k < |c.history| ==> c.history[k].index > i)
  {
    hide Records, RecordIn, Decodable;
    var m := i - l.snapIndex;
    var a, b := l.entries[..m], l.entries[m..];
    assert l.entries == a + b;
    RecordsAppend(a, b);
    n := |Records(a)|;
    IndexesBelow(l, i);
    IndexesAbove(l, i);
    JoinedAt(c.history, Records(a), Records(b));
  }

  lemma IndexesBelow(l: Log, i: nat)
    requires l.Contiguous() && l.snapIndex <= i <= l.LastIndex()
    ensures var r := Records(l.entries[..i - l.snapIndex]);
      forall k :: 0 <= k < |r| ==> l.snapIndex < r[k].index <= i
  {
    RecordsBetween(l.entries[..i - l.snapIndex], l.snapIndex);
  }

  lemma IndexesAbove(l: Log, i: nat)
    requires l.Contiguous() && l.snapIndex <= i <= l.LastIndex()
    ensures var r := Records(l.entries[i - l.snapIndex..]);
      forall k :: 0 <= k < |r| ==> r[k].index > i
  {
    RecordsBetween(l.entries[i - l.snapIndex..], i);
  }

  lemma JoinedAt(h: seq<ConfRecord>, a: seq<ConfRecord>, b: seq<ConfRecord>)
    requires |h| > 0 && h[1..] == a + b
    ensures h[1..|a| + 1] == a && h[|a| + 1..] == b
    ensures forall k :: 1 <= k <= |a| ==> h[k] == a[k - 1]
    ensures forall k :: |a| < k < |h| ==> h[k] == b[k - 1 - |a|]
  {
    forall k | 1 <= k < |h| ensures h[k] == (a + b)[k - 1] {
      assert h[1..][k - 1] == h[k];
    }
  }

  // ---- What keeps it

  lemma AppendReplays(s: NodeState, e: Entry)
    requires ConfReplays(s.log, s.conf) && !AppendOne(s, e).panicked
    ensures ConfReplays(AppendOne(s, e).log, AppendOne(s, e).conf)
  {
    hide DecodeConfig, Records;
    RecordsStep(s.log.entries, e);
    var t := AppendOne(s, e);
    if RecordIn(e).Some? {
      assert t.conf.history[1..] == s.conf.history[1..] + [RecordIn(e).value];
    }
  }

  lemma {:induction false} AppendAllReplays(s: NodeState, ents: seq<Entry>)
    requires ConfReplays(s.log, s.conf) && !AppendAll(s, ents).panicked
    ensures ConfReplays(AppendAll(s, ents).log, AppendAll(s, ents).conf)
  {
    hide ConfReplays, AppendOne;
    if ents != [] {
      AppendAllReplays(s, ents[..|ents| - 1]);
      AppendReplays(AppendAll(s, ents[..|ents| - 1]), ents[|ents| - 1]);
    }
  }

  /** Popping from index i on leaves the base and the records below i. */
  lemma {:induction false} PopReplays(h: History, i: nat, n: nat)
    requires n + 1 <= |h|
    requires forall k :: 1 <= k <= n ==> h[k].index < i
    requires forall k :: n < k < |h| ==> h[k].index >= i
    ensures PopFrom(h, i) == h[..n + 1]
    decreases |h|
  {
    if n + 1 < |h| {
      PopReplays(h[..|h| - 1], i, n);
      assert h[..|h| - 1][..n + 1] == h[..n + 1];
    } else {
      assert h[..n + 1] == h;
    }
  }

  lemma TruncateReplays(l: Log, c: ConfState, i: nat)
    requires ConfReplays(l, c) && l.Contiguous() && l.snapIndex < i <= l.LastIndex()
    ensures ConfReplays(l.TruncateFrom(i), TruncateConf(c, i))
  {
    hide Records, PopFrom;
    var n := HistorySplit(l, c, i - 1);
    PopReplays(c.history, i, n);
    assert c.history[..n + 1][1..] == c.history[1..n + 1];
  }

  lemma {:induction false} PruneReplays(h: History, i: nat, n: nat)
    requires n + 1 <= |h|
    requires forall k :: 1 <= k <= n ==> h[k].index <= i
    requires forall k :: n < k < |h| ==> h[k].index > i
    ensures Prune(h, i) == h[n..]
    decreases |h|
  {
    if n > 0 {
      PruneReplays(h[1..], i, n - 1);
      assert h[1..][n - 1..] == h[n..];
    } else {
      assert h[n..] == h;
    }
  }

  lemma CompactReplays(l: Log, c: ConfState, i: nat, term: nat)
    requires ConfReplays(l, c) && l.Contiguous() && l.snapIndex < i <= l.LastIndex()
    ensures ConfReplays(l.Compact(i, term), PruneConf(c, i))
  {
    hide Records, Prune;
    var n := HistorySplit(l, c, i);
    PruneReplays(c.history, i, n);
    assert c.history[n..][1..] == c.history[n + 1..];
  }

  lemma ResetReplays(index: nat, term: nat, cfg: Config)
    ensures ConfReplays(Log(index, term, []), InitConf(index, cfg))
  {
  }

  // ---- What it says

  /** The configuration after a base and some entries, replayed in order. */
  function ReplayConf(base: Config, ents: seq<Entry>): Config {
    if ents == [] then base
    else if RecordIn(ents[|ents| - 1]).Some? then RecordIn(ents[|ents| - 1]).value.cfg
    else ReplayConf(base, ents[..|ents| - 1])
  }

  lemma {:induction false} ReplayIsLastRecord(base: Config, ents: seq<Entry>)
    ensures ReplayConf(base, ents) == if Records(ents) == [] then base else Records(ents)[|Records(ents)| - 1].cfg
  {
    if ents != [] {
      ReplayIsLastRecord(base, ents[..|ents| - 1]);
    }
  }

  /** The cached configuration is the base updated by every configuration entry of the log, in order. */
  lemma CachedIsReplay(l: Log, c: ConfState)
    requires ConfReplays(l, c)
    ensures c.config == ReplayConf(c.history[0].cfg, l.entries)
  {
    ReplayIsLastRecord(c.history[0].cfg, l.entries);
    if |c.history| > 1 {
      assert c.history[1..][|c.history| - 2] == c.history[|c.history| - 1];
    }
  }

  lemma {:induction false} ConfigAtIs(h: History, i: nat, n: nat)
    requires n + 1 <= |h|
    requires forall k :: 1 <= k <= n ==> h[k].index <= i
    requires forall k :: n < k < |h| ==> h[k].index > i
    ensures ConfigAt(h, i) == h[n].cfg
    decreases |h|
  {
    if n + 1 < |h| {
      ConfigAtIs(h[..|h| - 1], i, n);
    }
  }

  /** The configuration recorded for an index is the base updated by the configuration entries up to it. */
  lemma ConfigAtIsReplay(l: Log, c: ConfState, i: nat)
    requires ConfReplays(l, c) && l.Contiguous() && l.snapIndex <= i <= l.LastIndex()
    ensures ConfigAt(c.history, i) == ReplayConf(c.history[0].cfg, l.entries[..i - l.snapIndex])
  {
    hide Records, ConfigAt;
    var n := HistorySplit(l, c, i);
    ConfigAtIs(c.history, i, n);
    ReplayIsLastRecord(c.history[0].cfg, l.entries[..i - l.snapIndex]);
  }

  /** The base that pruning leaves is the configuration of the index pruned to. */
  lemma PrunedBase(l: Log, c: ConfState, i: nat)
    requires ConfReplays(l, c) && l.Contiguous() && l.snapIndex <= i <= l.LastIndex()
    ensures Prune(c.history, i)[0].cfg == ConfigAt(c.history, i)
  {
    hide Records, ConfigAt, Prune;
    var n := HistorySplit(l, c, i);
    ConfigAtIs(c.history, i, n);
    PruneReplays(c.history, i, n);
  }

  // ---- Learners

  /** A catch-up is under way only in a leader whose last configuration entry is committed, for a server outside it. */
  ghost predicate LearnerInv(s: NodeState) {
    s.learner != NONE ==> s.role == Leader && s.conf.index <= s.commitIndex && s.learner !in s.conf.config.voters
  }

  ghost predicate ConfWellFormed(s: NodeState) {
    ConfReplays(s.log, s.conf) && LearnerInv(s)
  }
}
