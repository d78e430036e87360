/** Byte strings in lexicographic order, and sorting them. */
module Strings {
  import opened RaftTypes

  /** Strings are byte strings, as the program has them. */
  type Str = seq<byte>

  predicate Less(a: Str, b: Str)
    decreases |a|
  {
    if b == [] then false
    else if a == [] then true
    else a[0] < b[0] || (a[0] == b[0] && Less(a[1..], b[1..]))
  }

  lemma {:induction false} LessTotal(a: Str, b: Str)
    ensures Less(a, b) || a == b || Less(b, a)
    ensures !(Less(a, b) && Less(b, a)) && !Less(a, a)
    decreases |a|
  {
    if a != [] && b != [] && a[0] == b[0] {
      LessTotal(a[1..], b[1..]);
      LessTotal(a[1..], a[1..]);
      assert a == [a[0]] + a[1..] && b == [b[0]] + b[1..];
    } else if a != [] {
      LessTotal(a[1..], a[1..]);
    }
  }

  lemma {:induction false} LessTransitive(a: Str, b: Str, c: Str)
    requires Less(a, b) && Less(b, c)
    ensures Less(a, c)
    decreases |a|
  {
    if a != [] && a[0] == b[0] && b[0] == c[0] {
      LessTransitive(a[1..], b[1..], c[1..]);
    }
  }

  /** After n bytes in common a ends, or goes on with the smaller byte. */
  predicate SmallerAt(a: Str, b: Str, n: nat) {
    n <= |a| && n < |b| && a[..n] == b[..n] && (n == |a| || a[n] < b[n])
  }

  /** The order is the lexicographic one. */
  lemma {:induction false} LessMeans(a: Str, b: Str)
    ensures Less(a, b) <==> exists n :: 0 <= n < |b| && SmallerAt(a, b, n)
    decreases |a|
  {
    if a != [] && b != [] && a[0] == b[0] {
      LessMeans(a[1..], b[1..]);
      forall n: nat | n < |b| - 1 ensures SmallerAt(a[1..], b[1..], n) <==> SmallerAt(a, b, n + 1) {
        OneInCommon(a, b, n);
      }
      if n :| 0 <= n < |b| && SmallerAt(a, b, n) {
        assert n > 0;
        assert SmallerAt(a[1..], b[1..], n - 1);
      }
    } else if b != [] {
      assert SmallerAt(a, b, 0) <==> Less(a, b);
      forall n: nat | 0 < n < |b| ensures !SmallerAt(a, b, n) {
        assert n <= |a| ==> a[..n][0] == a[0] && b[..n][0] == b[0];
      }
    }
  }

  lemma OneInCommon(a: Str, b: Str, n: nat)
    requires a != [] && b != [] && a[0] == b[0]
    ensures SmallerAt(a[1..], b[1..], n) <==> SmallerAt(a, b, n + 1)
  {
    if n < |a| && n < |b| {
      assert a[..n + 1] == [a[0]] + a[1..][..n];
      assert b[..n + 1] == [b[0]] + b[1..][..n];
    }
  }

  /** Strictly ascending, so each string at most once. */
  ghost predicate Ascending(s: seq<Str>) {
    forall i, j :: 0 <= i < j < |s| ==> Less(s[i], s[j])
  }

  ghost predicate SameStrings(s: seq<Str>, keys: set<Str>) {
    forall k :: k in s <==> k in keys
  }

  /** The strings of a set in ascending order, whatever order the set is walked in. */
  method SortStrings(keys: set<Str>) returns (s: seq<Str>)
    ensures Ascending(s) && SameStrings(s, keys)
  {
    s := [];
    var left := keys;
    while left != {}
      invariant left <= keys
      invariant Ascending(s)
      invariant forall k :: k in s <==> k in keys && k !in left
      decreases |left|
    {
      var k :| k in left;
      s := Insert(s, k);
      left := left - {k};
    }
  }

  method Insert(s: seq<Str>, k: Str) returns (r: seq<Str>)
    requires Ascending(s) && k !in s
    ensures Ascending(r)
    ensures forall x :: x in r <==> x in s || x == k
  {
    var i: nat := |s|;
    while i > 0 && Less(k, s[i - 1])
      invariant 0 <= i <= |s|
      invariant forall j :: i <= j < |s| ==> Less(k, s[j])
    {
      i := i - 1;
    }
    r := s[..i] + [k] + s[i..];
    InsertedAscending(s, k, i);
  }

  lemma InsertedAscending(s: seq<Str>, k: Str, i: nat)
    requires Ascending(s) && k !in s && i <= |s|
    requires i > 0 ==> !Less(k, s[i - 1])
    requires forall j :: i <= j < |s| ==> Less(k, s[j])
    ensures Ascending(s[..i] + [k] + s[i..])
  {
    hide Less;
    if i > 0 {
      LessTotal(k, s[i - 1]);
      forall j | 0 <= j < i ensures Less(s[j], k) {
        if j < i - 1 {
          LessTransitive(s[j], s[i - 1], k);
        }
      }
    }
  }

  /** An ascending sequence is determined by the set of its strings. */
  lemma {:induction false} AscendingUnique(a: seq<Str>, b: seq<Str>)
    requires Ascending(a) && Ascending(b)
    requires forall k :: k in a <==> k in b
    ensures a == b
    decreases |a|
  {
    hide Less;
    NoneIn(a);
    NoneIn(b);
    if a != [] {
      assert a[0] in b;
      var a', x, b', y := a[..|a| - 1], a[|a| - 1], b[..|b| - 1], b[|b| - 1];
      LastGreatest(a, y);
      LastGreatest(b, x);
      LessTotal(x, y);
      InitAscending(a);
      InitAscending(b);
      forall k | k in a' ensures k in b' {
        assert k in b && k != y;
      }
      forall k | k in b' ensures k in a' {
        assert k in a && k != x;
      }
      AscendingUnique(a', b');
    }
  }

  lemma NoneIn(s: seq<Str>)
    ensures s == [] <==> forall k :: k !in s
  {
    if s != [] {
      assert s[0] in s;
    }
  }

  lemma LastGreatest(a: seq<Str>, k: Str)
    requires Ascending(a) && k in a
    ensures k == a[|a| - 1] || Less(k, a[|a| - 1])
  {
  }

  lemma InitAscending(a: seq<Str>)
    requires Ascending(a) && a != []
    ensures Ascending(a[..|a| - 1])
    ensures forall k :: k in a[..|a| - 1] <==> k in a && k != a[|a| - 1]
  {
    hide Less;
    var init, x := a[..|a| - 1], a[|a| - 1];
    forall k | k in init ensures k in a && k != x {
      var i :| 0 <= i < |init| && init[i] == k;
      LessTotal(k, x);
      assert Less(a[i], x);
    }
  }

  lemma {:induction false} AscendingCount(s: seq<Str>, keys: set<Str>)
    requires Ascending(s) && SameStrings(s, keys)
    ensures |s| == |keys|
    decreases |s|
  {
    hide Less;
    NoneIn(s);
    if s == [] {
      assert keys == {};
    } else {
      InitAscending(s);
      assert s[|s| - 1] in keys;
      AscendingCount(s[..|s| - 1], keys - {s[|s| - 1]});
    }
  }

  // ---- The same for numbers

  ghost predicate AscendingNats(s: seq<nat>) {
    forall i, j :: 0 <= i < j < |s| ==> s[i] < s[j]
  }

  ghost predicate SameNats(s: seq<nat>, ids: set<nat>) {
    forall x :: x in s <==> x in ids
  }

  method SortNats(ids: set<nat>) returns (s: seq<nat>)
    ensures AscendingNats(s) && SameNats(s, ids)
  {
    s := [];
    var left := ids;
    while left != {}
      invariant left <= ids
      invariant AscendingNats(s)
      invariant forall x :: x in s <==> x in ids && x !in left
      decreases |left|
    {
      var x :| x in left;
      s := InsertNat(s, x);
      left := left - {x};
    }
  }

  method InsertNat(s: seq<nat>, x: nat) returns (r: seq<nat>)
    requires AscendingNats(s) && x !in s
    ensures AscendingNats(r)
    ensures forall y :: y in r <==> y in s || y == x
  {
    var i: nat := |s|;
    while i > 0 && x < s[i - 1]
      invariant 0 <= i <= |s|
      invariant forall j :: i <= j < |s| ==> x < s[j]
    {
      i := i - 1;
    }
    r := s[..i] + [x] + s[i..];
  }

  lemma {:induction false} AscendingNatsUnique(a: seq<nat>, b: seq<nat>)
    requires AscendingNats(a) && AscendingNats(b)
    requires forall x :: x in a <==> x in b
    ensures a == b
    decreases |a|
  {
    NoneInNats(a);
    NoneInNats(b);
    if a != [] {
      assert a[0] in b;
      var a', x, b', y := a[..|a| - 1], a[|a| - 1], b[..|b| - 1], b[|b| - 1];
      assert x in b && y in a;
      forall k | k in a' ensures k in b' {
        assert k in b && k < x;
      }
      forall k | k in b' ensures k in a' {
        assert k in a && k < y;
      }
      AscendingNatsUnique(a', b');
    }
  }

  lemma NoneInNats(s: seq<nat>)
    ensures s == [] <==> forall x :: x !in s
  {
    if s != [] {
      assert s[0] in s;
    }
  }

  lemma {:induction false} AscendingNatsCount(s: seq<nat>, ids: set<nat>)
    requires AscendingNats(s) && SameNats(s, ids)
    ensures |s| == |ids|
    decreases |s|
  {
    NoneInNats(s);
    if s == [] {
      assert ids == {};
    } else {
      assert s[|s| - 1] in ids;
      AscendingNatsCount(s[..|s| - 1], ids - {s[|s| - 1]});
    }
  }
}
