/** What the history says about one node's log: matching, compaction, and taking over a leader's entries. */
module SafetyLogs {
  import opened RaftTypes
  import opened LogSpec
  import opened ConfSpec
  import opened NodeSpec
  import opened Ghosts
  import opened SafetyInv

  /** Where a term's log and another agree on the term of an entry, they agree on everything up to it. */
  lemma TermsMatch(tlog: Logs, T: nat, U: nat, i: nat)
    requires TermLogs(tlog) && T in tlog && U in tlog
    requires 1 <= i <= |tlog[T]| && i <= |tlog[U]| && tlog[T][i - 1].term == tlog[U][i - 1].term
    ensures Agree(tlog[T], tlog[U], i)
  {
    assert TermLog(tlog, T, tlog[T]) && TermLog(tlog, U, tlog[U]);
    var t := tlog[T][i - 1].term;
    assert Agree(tlog[t], tlog[T], i) && Agree(tlog[t], tlog[U], i);
  }

  /** The terms a log shows are those of all its entries, compacted ones included. */
  lemma TermInFull(tlog: Logs, l: Log, i: nat)
    requires LogInv(tlog, l)
    ensures l.Term(i).Some? <==> l.snapIndex <= i <= l.LastIndex()
    ensures l.Term(i).Some? ==> l.Term(i).value == TermAt(Full(tlog, l), i)
  {
    if l.LastIndex() > 0 && l.snapIndex <= i <= l.LastIndex() {
      var L := tlog[l.LastTerm()];
      if i > 0 {
        assert Full(tlog, l)[i - 1] == L[i - 1];
      }
      if i > l.snapIndex {
        assert l.entries[i - l.snapIndex - 1] == L[i - 1];
      }
    }
  }

  lemma EntriesInFull(tlog: Logs, l: Log)
    requires LogInv(tlog, l)
    ensures l.entries == Full(tlog, l)[l.snapIndex..]
  {
  }

  /** Log matching: a log that shows the leader's term at an index agrees with the leader up to it. */
  lemma LogMatches(tlog: Logs, l: Log, T: nat, i: nat)
    requires TermLogs(tlog) && LogInv(tlog, l) && T in tlog && i <= |tlog[T]|
    requires l.Term(i) == Some(TermAt(tlog[T], i))
    ensures Agree(Full(tlog, l), tlog[T], i)
  {
    TermInFull(tlog, l, i);
    if i > 0 {
      var L := l.LastTerm();
      assert Full(tlog, l)[i - 1] == tlog[L][i - 1];
      TermsMatch(tlog, L, T, i);
      assert Full(tlog, l)[..i] == tlog[L][..i];
    }
  }

  /** Two logs that show the same term at an index hold the same entries up to it. */
  lemma LogsMatch(tlog: Logs, a: Log, b: Log, i: nat)
    requires TermLogs(tlog) && LogInv(tlog, a) && LogInv(tlog, b)
    requires a.Term(i).Some? && a.Term(i) == b.Term(i)
    ensures Agree(Full(tlog, a), Full(tlog, b), i)
  {
    TermInFull(tlog, a, i);
    TermInFull(tlog, b, i);
    if i > 0 {
      var A, B := a.LastTerm(), b.LastTerm();
      assert Full(tlog, a)[i - 1] == tlog[A][i - 1] && Full(tlog, b)[i - 1] == tlog[B][i - 1];
      TermsMatch(tlog, A, B, i);
      assert Full(tlog, a)[..i] == tlog[A][..i];
      assert Full(tlog, b)[..i] == tlog[B][..i];
    }
  }

  /** Entries are numbered from 1, and none changes the configuration. */
  lemma FullEntries(tlog: Logs, l: Log, k: nat)
    requires TermLogs(tlog) && LogInv(tlog, l) && k < l.LastIndex()
    ensures Full(tlog, l)[k].index == k + 1 && Full(tlog, l)[k].typ != Conf && 1 <= Full(tlog, l)[k].term <= l.LastTerm()
  {
    var L := l.LastTerm();
    assert TermLog(tlog, L, tlog[L]);
    assert Full(tlog, l)[k] == tlog[L][k];
  }

  /** Compaction forgets entries, not history. */
  lemma CompactKeeps(tlog: Logs, l: Log, i: nat, t: nat)
    requires LogInv(tlog, l) && l.snapIndex < i <= l.LastIndex() && l.Term(i) == Some(t)
    ensures LogInv(tlog, l.Compact(i, t))
    ensures l.Compact(i, t).LastIndex() == l.LastIndex() && l.Compact(i, t).LastTerm() == l.LastTerm()
    ensures Full(tlog, l.Compact(i, t)) == Full(tlog, l)
  {
    var l' := l.Compact(i, t);
    var L := tlog[l.LastTerm()];
    TermInFull(tlog, l, i);
    assert l'.entries == l.entries[i - l.snapIndex..];
    assert l'.LastTerm() == l.LastTerm();
    assert L[l.snapIndex..l.LastIndex()][i - l.snapIndex..] == L[i..l.LastIndex()];
    assert Full(tlog, l)[i - 1] == L[i - 1];
  }

  /** A log that is a prefix of a leader's log from some point on. */
  lemma LeaderPrefixLog(tlog: Logs, T: nat, l: Log)
    requires TermLogs(tlog) && T in tlog && 1 <= l.LastIndex() <= |tlog[T]|
    requires l.entries == tlog[T][l.snapIndex..l.LastIndex()]
    requires l.snapTerm == TermAt(tlog[T], l.snapIndex)
    ensures LogInv(tlog, l) && Full(tlog, l) == tlog[T][..l.LastIndex()]
    ensures l.LastTerm() <= T
  {
    hide TermLogs, TermLog;
    var n := l.LastIndex();
    if l.entries != [] {
      assert l.entries[|l.entries| - 1] == tlog[T][n - 1];
    }
    var t := l.LastTerm();
    TermLogEntry(tlog, T, n);
    AgreeLess(tlog[t], tlog[T], n, n);
    assert tlog[t][l.snapIndex..n] == tlog[t][..n][l.snapIndex..];
    assert tlog[T][l.snapIndex..n] == tlog[T][..n][l.snapIndex..];
  }

  /** An entry of a term's log, and the log of the leader that created it. */
  lemma TermLogEntry(tlog: Logs, T: nat, n: nat)
    requires TermLogs(tlog) && T in tlog && 1 <= n <= |tlog[T]|
    ensures var t := tlog[T][n - 1].term; 1 <= t <= T && t in tlog && Agree(tlog[t], tlog[T], n)
  {
    assert TermLog(tlog, T, tlog[T]);
  }

  // ---- Taking over a leader's entries

  /** The log after cutting at index i and appending the leader's entries up to `last`. */
  ghost function Spliced(l: Log, L: seq<Entry>, i: nat, last: nat): Log
    requires l.snapIndex < i <= last <= |L| && i <= l.LastIndex() + 1
  {
    Log(l.snapIndex, l.snapTerm, l.entries[..i - l.snapIndex - 1] + L[i - 1..last])
  }

  lemma SplicedLog(tlog: Logs, l: Log, T: nat, i: nat, last: nat)
    requires TermLogs(tlog) && LogInv(tlog, l) && T in tlog
    requires l.snapIndex < i <= last <= |tlog[T]| && i <= l.LastIndex() + 1
    requires Agree(Full(tlog, l), tlog[T], i - 1)
    ensures var l' := Spliced(l, tlog[T], i, last);
      LogInv(tlog, l') && Full(tlog, l') == tlog[T][..last] && l'.LastIndex() == last && l'.LastTerm() <= T
  {
    hide TermLogs, LogInv, Full;
    var L, f := tlog[T], Full(tlog, l);
    var l' := Spliced(l, L, i, last);
    EntriesInFull(tlog, l);
    AgreeLess(f, L, i - 1, i - 1);
    assert l.entries[..i - l.snapIndex - 1] == f[l.snapIndex..i - 1] == L[l.snapIndex..i - 1];
    assert l'.entries == L[l.snapIndex..last];
    TermInFull(tlog, l, l.snapIndex);
    assert l.snapTerm == TermAt(f, l.snapIndex) == TermAt(L, l.snapIndex);
    LeaderPrefixLog(tlog, T, l');
  }

  /** A splice at the first difference, or past the end, keeps every piece of a leader's log both had. */
  lemma SplicedKeeps(tlog: Logs, l: Log, T: nat, i: nat, last: nat, P: seq<Entry>, k: nat)
    requires LogInv(tlog, l) && T in tlog
    requires l.snapIndex < i <= last <= |tlog[T]| && i <= l.LastIndex() + 1
    requires i <= l.LastIndex() ==> Full(tlog, l)[i - 1].term != tlog[T][i - 1].term
    requires Agree(Full(tlog, l), P, k) && Agree(tlog[T], P, k)
    ensures k < i && Agree(tlog[T][..last], P, k)
  {
    AgreeLess(Full(tlog, l), P, k, k);
    AgreeLess(tlog[T], P, k, k);
    assert k < i;
    assert tlog[T][..last][..k] == tlog[T][..k];
  }

  lemma {:induction false} AppendAllPlain(s: NodeState, ents: seq<Entry>)
    requires !s.panicked
    requires forall k :: 0 <= k < |ents| ==> ents[k].index == s.log.LastIndex() + 1 + k && ents[k].typ != Conf
    ensures AppendAll(s, ents) == s.(log := Log(s.log.snapIndex, s.log.snapTerm, s.log.entries + ents))
  {
    if ents != [] {
      var n := |ents| - 1;
      AppendAllPlain(s, ents[..n]);
      assert s.log.entries + ents == (s.log.entries + ents[..n]) + [ents[n]];
    } else {
      assert s.log.entries + ents == s.log.entries;
    }
  }

  lemma {:induction false} PopKeepsVoters(h: History, i: nat, voters: seq<nat>)
    requires forall k :: 0 <= k < |h| ==> h[k].cfg.voters == voters
    ensures forall k :: 0 <= k < |PopFrom(h, i)| ==> PopFrom(h, i)[k].cfg.voters == voters
    decreases |h|
  {
    if |h| > 1 && h[|h| - 1].index >= i {
      PopKeepsVoters(h[..|h| - 1], i, voters);
    }
  }

  lemma {:induction false} PruneKeepsVoters(h: History, i: nat, voters: seq<nat>)
    requires forall k :: 0 <= k < |h| ==> h[k].cfg.voters == voters
    ensures forall k :: 0 <= k < |Prune(h, i)| ==> Prune(h, i)[k].cfg.voters == voters
    decreases |h|
  {
    if |h| > 1 && h[1].index <= i {
      PruneKeepsVoters(h[1..], i, voters);
    }
  }

  lemma {:induction false} ConfigAtVoters(h: History, i: nat, voters: seq<nat>)
    requires forall k :: 0 <= k < |h| ==> h[k].cfg.voters == voters
    ensures ConfigAt(h, i).voters == voters
    decreases |h|
  {
    if !(|h| == 1 || h[|h| - 1].index <= i) {
      ConfigAtVoters(h[..|h| - 1], i, voters);
    }
  }

  // ---- The median

  lemma {:induction false} CountInsert(a: seq<nat>, x: nat, y: nat)
    ensures CountAtLeast(InsertDesc(a, x), y) == CountAtLeast(a, y) + (if x >= y then 1 else 0)
  {
    if a == [] || a[|a| - 1] >= x {
      assert (a + [x])[..|a|] == a;
    } else {
      var n := |a| - 1;
      CountInsert(a[..n], x, y);
      assert InsertDesc(a, x)[..n + 1] == InsertDesc(a[..n], x);
    }
  }

  lemma {:induction false} CountSorted(a: seq<nat>, y: nat)
    ensures CountAtLeast(SortDesc(a), y) == CountAtLeast(a, y)
  {
    if a != [] {
      var n := |a| - 1;
      CountSorted(a[..n], y);
      CountInsert(SortDesc(a[..n]), a[n], y);
    }
  }

  ghost predicate Descending(a: seq<nat>) {
    forall i, j :: 0 <= i <= j < |a| ==> a[i] >= a[j]
  }

  lemma {:induction false} InsertDescends(a: seq<nat>, x: nat)
    requires Descending(a)
    ensures Descending(InsertDesc(a, x))
    ensures forall i :: 0 <= i <= |a| ==> InsertDesc(a, x)[i] == x || InsertDesc(a, x)[i] in a
  {
    if !(a == [] || a[|a| - 1] >= x) {
      var n := |a| - 1;
      InsertDescends(a[..n], x);
      var r := InsertDesc(a[..n], x);
      forall i | 0 <= i <= n ensures r[i] >= a[n] && (r[i] == x || r[i] in a) {
        assert r[i] == x || r[i] in a[..n];
      }
    }
  }

  lemma {:induction false} SortDescends(a: seq<nat>)
    ensures Descending(SortDesc(a))
  {
    if a != [] {
      SortDescends(a[..|a| - 1]);
      InsertDescends(SortDesc(a[..|a| - 1]), a[|a| - 1]);
    }
  }

  lemma {:induction false} CountDescending(a: seq<nat>, y: nat, q: nat)
    requires Descending(a) && 1 <= q <= |a|
    ensures a[q - 1] >= y <==> CountAtLeast(a, y) >= q
  {
    var n := |a| - 1;
    if q == |a| {
      if a[n] >= y {
        AllAtLeast(a, y);
      } else {
        assert CountAtLeast(a, y) == CountAtLeast(a[..n], y);
      }
    } else {
      CountDescending(a[..n], y, q);
      if a[n] >= y {
        AllAtLeast(a, y);
      }
    }
  }

  lemma {:induction false} AllAtLeast(a: seq<nat>, y: nat)
    requires forall i :: 0 <= i < |a| ==> a[i] >= y
    ensures CountAtLeast(a, y) == |a|
  {
    if a != [] {
      AllAtLeast(a[..|a| - 1], y);
    }
  }

  /** The quorum position of the sorted match indexes is exactly the largest index a quorum reaches. */
  lemma MedianIsQuorumValue(a: seq<nat>, q: nat)
    requires 1 <= q <= |a|
    ensures IsQuorumValue(a, q, SortDesc(a)[q - 1])
  {
    var r := SortDesc(a)[q - 1];
    SortDescends(a);
    CountDescending(SortDesc(a), r, q);
    CountSorted(a, r);
    forall x | x > r ensures CountAtLeast(a, x) < q {
      CountDescending(SortDesc(a), x, q);
      CountSorted(a, x);
    }
  }

  ghost function Among(voters: seq<nat>, reached: set<nat>): set<nat> {
    set v | v in voters && v in reached
  }

  lemma AmongOneMore(rest: seq<nat>, y: nat, reached: set<nat>)
    requires y !in rest
    ensures |Among(rest + [y], reached)| == |Among(rest, reached)| + (if y in reached then 1 else 0)
  {
    assert Among(rest + [y], reached) == Among(rest, reached) + if y in reached then {y} else {};
  }

  lemma AmongNone(reached: set<nat>)
    ensures Among([], reached) == {}
  {
  }

  /** The voters whose match reaches x number at least as many as the reaching matches. */
  lemma {:induction false} CountedMatches(voters: seq<nat>, id: nat, last: nat, prs: map<nat, Progress>, x: nat,
      reached: set<nat>)
    requires NoDuplicates(voters)
    requires forall v :: v in voters && MatchOf(v, id, last, prs) >= x ==> v in reached
    ensures |Among(voters, reached)| >= CountAtLeast(Matches(voters, id, last, prs), x)
    ensures (forall v :: v in voters && v in reached ==> MatchOf(v, id, last, prs) >= x) ==>
      |Among(voters, reached)| == CountAtLeast(Matches(voters, id, last, prs), x)
  {
    hide Among, MatchOf;
    AmongNone(reached);
    if voters != [] {
      var n := |voters| - 1;
      var y, rest := voters[n], voters[..n];
      assert voters == rest + [y];
      assert y in voters && forall v :: v in rest ==> v in voters;
      CountedMatches(rest, id, last, prs, x, reached);
      AmongOneMore(rest, y, reached);
      assert Matches(voters, id, last, prs)[..n] == Matches(rest, id, last, prs);
    }
  }
}
