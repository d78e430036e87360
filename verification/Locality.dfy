/** A history is linearizable exactly when its projection to every key is. */
module Locality {
  import opened Strings
  import opened Histories

  function Project(s: seq<LinOp>, key: Str): seq<LinOp> {
    if s == [] then [] else Project(s[..|s| - 1], key) + (if s[|s| - 1].key == key then [s[|s| - 1]] else [])
  }

  lemma {:induction false} ProjectAppend(s: seq<LinOp>, t: seq<LinOp>, key: Str)
    ensures Project(s + t, key) == Project(s, key) + Project(t, key)
  {
    if t == [] {
      assert s + t == s;
    } else {
      assert (s + t)[..|s + t| - 1] == s + t[..|t| - 1];
      ProjectAppend(s, t[..|t| - 1], key);
    }
  }

  lemma ProjectHead(s: seq<LinOp>, key: Str)
    requires s != []
    ensures Project(s, key) == (if s[0].key == key then [s[0]] else []) + Project(s[1..], key)
  {
    assert s == [s[0]] + s[1..];
    ProjectAppend([s[0]], s[1..], key);
    assert Project([s[0]], key) == if s[0].key == key then [s[0]] else [];
  }

  lemma {:induction false} ProjectCount(s: seq<LinOp>, key: Str, o: LinOp)
    ensures multiset(Project(s, key))[o] == if o.key == key then multiset(s)[o] else 0
  {
    if s != [] {
      var n := |s| - 1;
      ProjectCount(s[..n], key, o);
      assert s == s[..n] + [s[n]];
    }
  }

  /** The positions of a projection, in order. */
  lemma {:induction false} ProjectPositions(s: seq<LinOp>, key: Str) returns (at: seq<nat>)
    ensures |at| == |Project(s, key)|
    ensures forall j :: 0 <= j < |at| ==> at[j] < |s| && s[at[j]] == Project(s, key)[j]
    ensures forall i, j :: 0 <= i < j < |at| ==> at[i] < at[j]
  {
    if s == [] {
      at := [];
    } else {
      var n := |s| - 1;
      at := ProjectPositions(s[..n], key);
      if s[n].key == key {
        at := at + [n];
      }
    }
  }

  /** The store's run is legal exactly when each register's is. */
  lemma {:induction false} RunsByKey(rs: Registers, order: seq<LinOp>)
    ensures LegalStoreRun(rs, order) <==> forall key :: LegalRun(Register(rs, key), Project(order, key))
    decreases |order|
  {
    if order != [] {
      var o := order[0];
      var st := Register(rs, o.key);
      var rs' := rs[o.key := ApplyOp(st, o).next];
      RunsByKey(rs', order[1..]);
      forall key ensures LegalRun(Register(rs, key), Project(order, key))
        <==> (key == o.key ==> Explained(st, o)) && LegalRun(Register(rs', key), Project(order[1..], key))
      {
        ProjectHead(order, key);
        if key == o.key {
          assert Project(order, key)[1..] == Project(order[1..], key);
        } else {
          assert Project(order, key) == Project(order[1..], key);
        }
      }
      if forall key :: LegalRun(Register(rs, key), Project(order, key)) {
        assert LegalRun(Register(rs, o.key), Project(order, o.key));
      }
    }
  }

  // ---- From the whole to the parts

  lemma CoversProject(ops: seq<LinOp>, order: seq<LinOp>, key: Str)
    requires Covers(multiset(ops), order)
    ensures Covers(multiset(Project(ops, key)), Project(order, key))
  {
    forall o ensures multiset(Project(order, key))[o] <= multiset(Project(ops, key))[o] {
      ProjectCount(ops, key, o);
      ProjectCount(order, key, o);
    }
    forall o | o in multiset(Project(ops, key)) - multiset(Project(order, key)) ensures !o.complete {
      ProjectCount(ops, key, o);
      ProjectCount(order, key, o);
      assert o in multiset(ops) - multiset(order);
    }
  }

  lemma TimeProject(order: seq<LinOp>, key: Str)
    requires RespectsTime(order)
    ensures RespectsTime(Project(order, key))
  {
    var at := ProjectPositions(order, key);
    var p := Project(order, key);
    forall i, j | 0 <= i <= j < |p| && p[j].complete ensures p[i].invoke <= p[j].response {
      assert order[at[i]] == p[i] && order[at[j]] == p[j];
    }
  }

  lemma WholeToParts(ops: seq<LinOp>, key: Str)
    requires Linearizable(ops)
    ensures KeyLinearizable(Project(ops, key))
  {
    var order :| IsStoreLinearization(ops, order);
    RunsByKey(map[], order);
    CoversProject(ops, order, key);
    TimeProject(order, key);
    assert IsLinearization(multiset(Project(ops, key)), ABSENT, Project(order, key));
  }

  // ---- From the parts to the whole

  /** An operation with the instant at which it takes effect. */
  datatype Stamped = Stamped(op: LinOp, at: int)

  function Ops(s: seq<Stamped>): (r: seq<LinOp>)
    ensures |r| == |s|
    ensures forall i :: 0 <= i < |s| ==> r[i] == s[i].op
  {
    if s == [] then [] else Ops(s[..|s| - 1]) + [s[|s| - 1].op]
  }

  /** Instants inside the intervals, in ascending order. */
  ghost predicate Timely(s: seq<Stamped>) {
    && (forall i :: 0 <= i < |s| ==> s[i].op.invoke <= s[i].at && (s[i].op.complete ==> s[i].at <= s[i].op.response))
    && (forall i, j :: 0 <= i <= j < |s| ==> s[i].at <= s[j].at)
  }

  lemma TimelyRespects(s: seq<Stamped>)
    requires Timely(s)
    ensures RespectsTime(Ops(s))
  {
    forall i, j | 0 <= i <= j < |s| && s[j].op.complete ensures s[i].op.invoke <= s[j].op.response {
      assert s[i].at <= s[j].at;
    }
  }

  /** The latest invocation so far. */
  function Latest(order: seq<LinOp>): (t: int)
    requires order != []
    ensures forall i :: 0 <= i < |order| ==> order[i].invoke <= t
    ensures exists i :: 0 <= i < |order| && order[i].invoke == t
  {
    var n := |order| - 1;
    if n == 0 then
      assert order[0].invoke == order[0].invoke;
      order[0].invoke
    else
      var t := Latest(order[..n]);
      if t > order[n].invoke then t else
      assert order[n].invoke == order[n].invoke;
      order[n].invoke
  }

  function Stamp(order: seq<LinOp>): (s: seq<Stamped>)
    ensures |s| == |order|
    ensures forall i :: 0 <= i < |s| ==> s[i] == Stamped(order[i], Latest(order[..i + 1]))
  {
    seq(|order|, i requires 0 <= i < |order| => Stamped(order[i], Latest(order[..i + 1])))
  }

  /** An order that respects time has instants: for each operation the latest invocation so far. */
  lemma StampTimely(order: seq<LinOp>)
    requires RespectsTime(order)
    ensures Ops(Stamp(order)) == order && Timely(Stamp(order))
  {
    var s := Stamp(order);
    forall i | 0 <= i < |s| ensures s[i].op.invoke <= s[i].at && (s[i].op.complete ==> s[i].at <= s[i].op.response) {
      LatestInside(order, i);
    }
    forall i, j | 0 <= i <= j < |s| ensures s[i].at <= s[j].at {
      LatestRises(order, i, j);
    }
  }

  lemma LatestInside(order: seq<LinOp>, i: nat)
    requires RespectsTime(order) && i < |order|
    ensures order[i].invoke <= Latest(order[..i + 1])
    ensures order[i].complete ==> Latest(order[..i + 1]) <= order[i].response
  {
    var p := order[..i + 1];
    assert p[i] == order[i];
    var k :| 0 <= k < |p| && p[k].invoke == Latest(p);
    assert p[k] == order[k];
  }

  lemma LatestRises(order: seq<LinOp>, i: nat, j: nat)
    requires i <= j < |order|
    ensures Latest(order[..i + 1]) <= Latest(order[..j + 1])
  {
    var p, q := order[..i + 1], order[..j + 1];
    var k :| 0 <= k < |p| && p[k].invoke == Latest(p);
    assert q[k] == p[k];
  }

  /** Two sequences in ascending order of instants, merged. */
  function Merge(a: seq<Stamped>, b: seq<Stamped>): (r: seq<Stamped>)
    ensures |r| == |a| + |b|
  {
    if a == [] then b
    else if b == [] then a
    else if a[|a| - 1].at >= b[|b| - 1].at then Merge(a[..|a| - 1], b) + [a[|a| - 1]]
    else Merge(a, b[..|b| - 1]) + [b[|b| - 1]]
  }

  lemma {:induction false} MergeTimely(a: seq<Stamped>, b: seq<Stamped>)
    requires Timely(a) && Timely(b)
    ensures Timely(Merge(a, b))
    ensures forall x :: x in Merge(a, b) <==> x in a || x in b
  {
    if a != [] && b != [] {
      if a[|a| - 1].at >= b[|b| - 1].at {
        MergeLast(a, b);
        MergeTimely(a[..|a| - 1], b);
        AppendTimely(Merge(a[..|a| - 1], b), a[|a| - 1]);
      } else {
        MergeLast(b, a);
        MergeTimely(a, b[..|b| - 1]);
        AppendTimely(Merge(a, b[..|b| - 1]), b[|b| - 1]);
      }
    }
  }

  /** What the later of two last instants tells about the others. */
  lemma MergeLast(a: seq<Stamped>, b: seq<Stamped>)
    requires Timely(a) && Timely(b) && a != [] && b != [] && a[|a| - 1].at >= b[|b| - 1].at
    ensures Timely(a[..|a| - 1]) && Timely([a[|a| - 1]])
    ensures a == a[..|a| - 1] + [a[|a| - 1]]
    ensures forall x :: x in a || x in b ==> x.at <= a[|a| - 1].at
  {
  }

  lemma AppendTimely(s: seq<Stamped>, x: Stamped)
    requires Timely(s) && Timely([x])
    requires forall y :: y in s ==> y.at <= x.at
    ensures Timely(s + [x])
  {
    assert [x][0] == x;
    forall i | 0 <= i < |s| ensures s[i].at <= x.at {
      assert s[i] in s;
    }
  }

  /** Merging keeps the order of each key, when the two share no key. */
  lemma {:induction false} MergeProject(a: seq<Stamped>, b: seq<Stamped>, key: Str, k: Str)
    requires (forall x :: x in a ==> x.op.key == key) && (forall x :: x in b ==> x.op.key != key)
    ensures Project(Ops(Merge(a, b)), k) == if k == key then Ops(a) else Project(Ops(b), k)
  {
    hide Project, Ops;
    NothingProject(k);
    if a == [] {
      OnlyOthers(b, key, k);
    } else if b == [] {
      OnlyOwn(a, key, k);
    } else if a[|a| - 1].at >= b[|b| - 1].at {
      MergeProject(a[..|a| - 1], b, key, k);
      LastProject(Merge(a[..|a| - 1], b), a[|a| - 1], k);
      LastOp(a);
      assert a[|a| - 1] in a;
    } else {
      var c := b[..|b| - 1];
      MergeProject(a, c, key, k);
      LastProject(Merge(a, c), b[|b| - 1], k);
      LastProject(c, b[|b| - 1], k);
      assert b == c + [b[|b| - 1]];
      assert b[|b| - 1] in b;
    }
  }

  lemma OnlyOthers(b: seq<Stamped>, key: Str, k: Str)
    requires forall x :: x in b ==> x.op.key != key
    ensures Project(Ops(Merge([], b)), k) == if k == key then Ops([]) else Project(Ops(b), k)
  {
    if k == key {
      NoneProject(Ops(b), k);
    }
  }

  lemma OnlyOwn(a: seq<Stamped>, key: Str, k: Str)
    requires a != [] && forall x :: x in a ==> x.op.key == key
    ensures Project(Ops(Merge(a, [])), k) == if k == key then Ops(a) else Project(Ops([]), k)
  {
    if k == key {
      AllProject(Ops(a), key);
    } else {
      NoneProject(Ops(a), k);
    }
  }

  lemma LastOp(a: seq<Stamped>)
    requires a != []
    ensures Ops(a) == Ops(a[..|a| - 1]) + [a[|a| - 1].op]
  {
  }

  lemma NothingProject(k: Str)
    ensures Project([], k) == [] && Ops([]) == []
  {
  }

  lemma LastProject(s: seq<Stamped>, x: Stamped, k: Str)
    ensures Project(Ops(s + [x]), k) == Project(Ops(s), k) + if x.op.key == k then [x.op] else []
  {
    assert (s + [x])[..|s|] == s;
    assert Ops(s + [x])[..|s|] == Ops(s);
  }

  lemma {:induction false} NoneProject(s: seq<LinOp>, key: Str)
    requires forall i :: 0 <= i < |s| ==> s[i].key != key
    ensures Project(s, key) == []
  {
    if s != [] {
      NoneProject(s[..|s| - 1], key);
    }
  }

  lemma {:induction false} AllProject(s: seq<LinOp>, key: Str)
    requires forall i :: 0 <= i < |s| ==> s[i].key == key
    ensures Project(s, key) == s
    ensures forall k :: k != key ==> Project(s, k) == []
  {
    if s != [] {
      AllProject(s[..|s| - 1], key);
    }
  }

  /** The linearizations of some keys' projections, merged into one order. */
  ghost predicate Merged(ops: seq<LinOp>, keys: seq<Str>, s: seq<Stamped>) {
    && Timely(s)
    && (forall x :: x in s ==> x.op.key in keys)
    && (forall k :: k in keys ==> IsLinearization(multiset(Project(ops, k)), ABSENT, Project(Ops(s), k)))
  }

  ghost predicate Distinct(keys: seq<Str>) {
    forall i, j :: 0 <= i < j < |keys| ==> keys[i] != keys[j]
  }

  lemma ProjectionKey(ops: seq<LinOp>, key: Str, order: seq<LinOp>)
    requires Covers(multiset(Project(ops, key)), order)
    ensures forall o :: o in order ==> o.key == key
  {
    forall o | o in order ensures o.key == key {
      ProjectCount(ops, key, o);
      assert o in multiset(order);
    }
  }

  lemma {:induction false} MergeKeys(ops: seq<LinOp>, keys: seq<Str>) returns (s: seq<Stamped>)
    requires Distinct(keys)
    requires forall k :: k in keys ==> KeyLinearizable(Project(ops, k))
    ensures Merged(ops, keys, s)
  {
    if keys == [] {
      s := [];
    } else {
      var rest, key := keys[..|keys| - 1], keys[|keys| - 1];
      var r := MergeKeys(ops, rest);
      assert keys == rest + [key];
      var order :| IsLinearization(multiset(Project(ops, key)), ABSENT, order);
      var a := Stamp(order);
      StampTimely(order);
      s := AddKey(ops, rest, key, a, r);
    }
  }

  lemma AddKey(ops: seq<LinOp>, rest: seq<Str>, key: Str, a: seq<Stamped>, r: seq<Stamped>) returns (s: seq<Stamped>)
    requires Merged(ops, rest, r) && key !in rest
    requires Timely(a) && IsLinearization(multiset(Project(ops, key)), ABSENT, Ops(a))
    ensures Merged(ops, rest + [key], s)
  {
    hide Timely, IsLinearization, Project, Merge;
    s := Merge(a, r);
    MergeTimely(a, r);
    StampedKey(ops, key, a);
    forall k ensures Project(Ops(s), k) == if k == key then Ops(a) else Project(Ops(r), k) {
      MergeProject(a, r, key, k);
    }
  }

  lemma StampedKey(ops: seq<LinOp>, key: Str, a: seq<Stamped>)
    requires IsLinearization(multiset(Project(ops, key)), ABSENT, Ops(a))
    ensures forall x :: x in a ==> x.op.key == key
  {
    ProjectionKey(ops, key, Ops(a));
    forall x | x in a ensures x.op.key == key {
      var i :| 0 <= i < |a| && a[i] == x;
      assert Ops(a)[i] in Ops(a);
    }
  }

  ghost predicate HasKeys(ops: seq<LinOp>, keys: seq<Str>) {
    Distinct(keys) && forall k :: k in keys <==> exists i :: 0 <= i < |ops| && ops[i].key == k
  }

  lemma CoversWhole(ops: seq<LinOp>, keys: seq<Str>, order: seq<LinOp>)
    requires HasKeys(ops, keys)
    requires forall i :: 0 <= i < |order| ==> order[i].key in keys
    requires forall k :: k in keys ==> Covers(multiset(Project(ops, k)), Project(order, k))
    ensures Covers(multiset(ops), order)
  {
    forall o ensures multiset(order)[o] <= multiset(ops)[o] {
      ProjectCount(ops, o.key, o);
      ProjectCount(order, o.key, o);
      if o in multiset(order) {
        assert o.key in keys;
      }
    }
    forall o | o in multiset(ops) - multiset(order) ensures !o.complete {
      ProjectCount(ops, o.key, o);
      ProjectCount(order, o.key, o);
      assert o in multiset(ops);
      assert o in ops;
      assert o.key in keys;
      assert o in multiset(Project(ops, o.key)) - multiset(Project(order, o.key));
    }
  }

  lemma PartsToWhole(ops: seq<LinOp>, keys: seq<Str>)
    requires HasKeys(ops, keys)
    requires forall k :: k in keys ==> KeyLinearizable(Project(ops, k))
    ensures Linearizable(ops)
  {
    var s := MergeKeys(ops, keys);
    var order := Ops(s);
    TimelyRespects(s);
    forall i | 0 <= i < |order| ensures order[i].key in keys {
      assert s[i] in s;
    }
    CoversWhole(ops, keys, order);
    forall k ensures LegalRun(Register(map[], k), Project(order, k)) {
      if k !in keys {
        NoneProject(order, k);
      }
    }
    RunsByKey(map[], order);
    assert IsStoreLinearization(ops, order);
  }

  /** Locality, after Herlihy and Wing. */
  lemma LocalityTheorem(ops: seq<LinOp>, keys: seq<Str>)
    requires HasKeys(ops, keys)
    ensures Linearizable(ops) <==> forall k :: k in keys ==> KeyLinearizable(Project(ops, k))
  {
    if Linearizable(ops) {
      forall k | k in keys ensures KeyLinearizable(Project(ops, k)) {
        WholeToParts(ops, k);
      }
    }
    if forall k :: k in keys ==> KeyLinearizable(Project(ops, k)) {
      PartsToWhole(ops, keys);
    }
  }
}
