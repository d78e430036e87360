/** The checker: one search per key, exact for the whole history. */
module LinearCheck {
  import opened RaftTypes
  import opened Strings
  import opened Histories
  import opened Locality
  import opened LinearSearch

  /** Puts an operation behind every one invoked no later. */
  function InsertByInvoke(s: seq<LinOp>, o: LinOp): (r: seq<LinOp>)
    ensures |r| == |s| + 1
  {
    if s == [] || s[|s| - 1].invoke <= o.invoke then s + [o]
    else InsertByInvoke(s[..|s| - 1], o) + [s[|s| - 1]]
  }

  /** A stable sort by invocation time. */
  function ByInvoke(s: seq<LinOp>): (r: seq<LinOp>)
    ensures |r| == |s|
  {
    if s == [] then [] else InsertByInvoke(ByInvoke(s[..|s| - 1]), s[|s| - 1])
  }

  lemma SortedAppend(s: seq<LinOp>, o: LinOp)
    requires Sorted(s) && forall x :: x in s ==> x.invoke <= o.invoke
    ensures Sorted(s + [o])
  {
  }

  lemma {:induction false} InsertSorts(s: seq<LinOp>, o: LinOp)
    requires Sorted(s)
    ensures Sorted(InsertByInvoke(s, o))
    ensures multiset(InsertByInvoke(s, o)) == multiset(s) + multiset{o}
  {
    if s == [] || s[|s| - 1].invoke <= o.invoke {
      SortedAppend(s, o);
    } else {
      var init, last := s[..|s| - 1], s[|s| - 1];
      InsertSorts(init, o);
      assert s == init + [last];
      var r := InsertByInvoke(init, o);
      forall x | x in r ensures x.invoke <= last.invoke {
        assert x in multiset(r);
      }
      SortedAppend(r, last);
    }
  }

  /** The sorted history holds the same operations. */
  lemma {:induction false} SortSorts(s: seq<LinOp>)
    ensures Sorted(ByInvoke(s)) && multiset(ByInvoke(s)) == multiset(s)
  {
    if s != [] {
      SortSorts(s[..|s| - 1]);
      InsertSorts(ByInvoke(s[..|s| - 1]), s[|s| - 1]);
      assert s == s[..|s| - 1] + [s[|s| - 1]];
    }
  }

  /** The operations invoked at one instant, in order. */
  function InvokedAt(s: seq<LinOp>, t: Time): seq<LinOp> {
    if s == [] then []
    else InvokedAt(s[..|s| - 1], t) + (if s[|s| - 1].invoke == t then [s[|s| - 1]] else [])
  }

  lemma InvokedAtAppend(s: seq<LinOp>, o: LinOp, t: Time)
    ensures InvokedAt(s + [o], t) == InvokedAt(s, t) + (if o.invoke == t then [o] else [])
  {
    assert (s + [o])[..|s|] == s;
  }

  lemma {:induction false} InsertKeepsOrder(s: seq<LinOp>, o: LinOp, t: Time)
    requires Sorted(s)
    ensures InvokedAt(InsertByInvoke(s, o), t) == InvokedAt(s, t) + (if o.invoke == t then [o] else [])
  {
    if s == [] || s[|s| - 1].invoke <= o.invoke {
      InvokedAtAppend(s, o, t);
    } else {
      var init, last := s[..|s| - 1], s[|s| - 1];
      InsertKeepsOrder(init, o, t);
      InvokedAtAppend(InsertByInvoke(init, o), last, t);
      if o.invoke == t {
        NoneLater(init, last, t);
      }
    }
  }

  /** In a sorted sequence that ends later, what was invoked at t comes before the end. */
  lemma NoneLater(init: seq<LinOp>, last: LinOp, t: Time)
    requires t < last.invoke
    ensures InvokedAt(init + [last], t) == InvokedAt(init, t)
  {
    InvokedAtAppend(init, last, t);
  }

  /** The sort is stable: operations invoked at one instant keep their order. */
  lemma {:induction false} SortIsStable(s: seq<LinOp>, t: Time)
    ensures InvokedAt(ByInvoke(s), t) == InvokedAt(s, t)
  {
    if s != [] {
      var init, last := s[..|s| - 1], s[|s| - 1];
      SortIsStable(init, t);
      SortSorts(init);
      InsertKeepsOrder(ByInvoke(init), last, t);
    }
  }

  /** Whether one key's history is linearizable. */
  method CheckKey(history: seq<LinOp>) returns (ok: bool)
    ensures ok == KeyLinearizable(history)
  {
    SortSorts(history);
    var search := new KeySearch(ByInvoke(history));
    ghost var none := search.linearized[..];
    NonePlaced(search.ops, none);
    assert DeadEnds(search.ops, {}, CountPlaced(none));
    ok := search.Dfs();
  }

  ghost function KeysOf(ops: seq<LinOp>): set<Str> {
    set i | 0 <= i < |ops| :: ops[i].key
  }

  lemma KeysOneMore(ops: seq<LinOp>, o: LinOp)
    ensures KeysOf(ops + [o]) == KeysOf(ops) + {o.key}
  {
    var ops' := ops + [o];
    assert ops'[|ops|] == o;
    forall k | k in KeysOf(ops) ensures k in KeysOf(ops') {
      var i :| 0 <= i < |ops| && ops[i].key == k;
      assert ops'[i].key == k;
    }
  }

  /** The map holds, under each key that occurs, that key's part. */
  ghost predicate IsSplit(ops: seq<LinOp>, byKey: map<Str, seq<LinOp>>) {
    byKey.Keys == KeysOf(ops) && forall k :: k in byKey ==> byKey[k] == Project(ops, k)
  }

  lemma SplitOneMore(ops: seq<LinOp>, byKey: map<Str, seq<LinOp>>, o: LinOp)
    requires IsSplit(ops, byKey)
    ensures IsSplit(ops + [o], byKey[o.key := (if o.key in byKey then byKey[o.key] else []) + [o]])
  {
    hide KeysOf;
    KeysOneMore(ops, o);
    assert (ops + [o])[..|ops|] == ops;
    if o.key !in byKey {
      NotAKey(ops, o.key);
    }
  }

  lemma NotAKey(ops: seq<LinOp>, k: Str)
    requires k !in KeysOf(ops)
    ensures Project(ops, k) == []
  {
    forall i | 0 <= i < |ops| ensures ops[i].key != k {
      assert ops[i].key in KeysOf(ops);
    }
    NoneProject(ops, k);
  }

  /** The history split by key. */
  method SplitByKey(ops: seq<LinOp>) returns (byKey: map<Str, seq<LinOp>>)
    ensures IsSplit(ops, byKey)
  {
    hide IsSplit;
    byKey := map[];
    NothingSplit();
    assert ops[..0] == [];
    for n := 0 to |ops|
      invariant IsSplit(ops[..n], byKey)
    {
      var o := ops[n];
      SplitOneMore(ops[..n], byKey, o);
      assert ops[..n + 1] == ops[..n] + [o];
      byKey := byKey[o.key := (if o.key in byKey then byKey[o.key] else []) + [o]];
    }
    assert ops[..|ops|] == ops;
  }

  lemma NothingSplit()
    ensures IsSplit([], map[])
  {
  }

  /** None exactly when the whole history is linearizable; otherwise the least key whose part is not. */
  method CheckLinearizable(ops: seq<LinOp>) returns (violation: Option<Str>)
    ensures violation.None? <==> Linearizable(ops)
    ensures violation.Some? ==> !KeyLinearizable(Project(ops, violation.value))
    ensures violation.Some? ==> forall k :: Less(k, violation.value) ==> KeyLinearizable(Project(ops, k))
  {
    hide KeyLinearizable, Linearizable, Less, Project, Ascending, HasKeys, IsSplit;
    var byKey := SplitByKey(ops);
    var keys := SortStrings(byKey.Keys);
    SortedKeys(ops, byKey, keys);
    LocalityTheorem(ops, keys);
    for n := 0 to |keys|
      invariant forall i :: 0 <= i < n ==> KeyLinearizable(Project(ops, keys[i]))
    {
      var ok := CheckKey(byKey[keys[n]]);
      if !ok {
        forall k | Less(k, keys[n]) ensures KeyLinearizable(Project(ops, k)) {
          BelowKey(ops, keys, n, k);
        }
        return Some(keys[n]);
      }
    }
    return None;
  }

  lemma SortedKeys(ops: seq<LinOp>, byKey: map<Str, seq<LinOp>>, keys: seq<Str>)
    requires Ascending(keys) && SameStrings(keys, byKey.Keys) && IsSplit(ops, byKey)
    ensures HasKeys(ops, keys)
    ensures forall k :: k in keys ==> k in byKey && byKey[k] == Project(ops, k)
  {
    hide Less;
    forall i, j | 0 <= i < j < |keys| ensures keys[i] != keys[j] {
      LessTotal(keys[i], keys[j]);
    }
  }

  /** A key below the n-th in order is one already checked, or one no operation touches. */
  lemma BelowKey(ops: seq<LinOp>, keys: seq<Str>, n: nat, k: Str)
    requires HasKeys(ops, keys) && Ascending(keys) && n < |keys| && Less(k, keys[n])
    requires forall i :: 0 <= i < n ==> KeyLinearizable(Project(ops, keys[i]))
    ensures KeyLinearizable(Project(ops, k))
  {
    hide Less, KeyLinearizable;
    if k in keys {
      var i :| 0 <= i < |keys| && keys[i] == k;
      LessTotal(k, keys[n]);
    } else {
      forall i | 0 <= i < |ops| ensures ops[i].key != k {
      }
      NoneProject(ops, k);
      NothingToExplain();
    }
  }

  lemma NothingToExplain()
    ensures KeyLinearizable([])
  {
    assert IsLinearization(multiset([]), ABSENT, []);
  }
}
