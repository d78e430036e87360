/** The memoised backtracking search for one key, over a mask updated in place. */
module LinearSearch {
  import opened RaftTypes
  import opened Histories

  // ---- What the mask leaves

  /** The operations not yet placed. */
  ghost function Rest(ops: seq<LinOp>, placed: seq<bool>): multiset<LinOp>
    requires |placed| == |ops|
  {
    if ops == [] then multiset{}
    else
      var n := |ops| - 1;
      Rest(ops[..n], placed[..n]) + (if placed[n] then multiset{} else multiset{ops[n]})
  }

  function CountPlaced(placed: seq<bool>): (c: nat)
    ensures c <= |placed|
  {
    if placed == [] then 0 else CountPlaced(placed[..|placed| - 1]) + (if placed[|placed| - 1] then 1 else 0)
  }

  /** How many answered operations are not yet placed. */
  function CountOpen(ops: seq<LinOp>, placed: seq<bool>): nat
    requires |placed| == |ops|
  {
    if ops == [] then 0
    else
      var n := |ops| - 1;
      CountOpen(ops[..n], placed[..n]) + (if !placed[n] && ops[n].complete then 1 else 0)
  }

  lemma {:induction false} PlaceOne(ops: seq<LinOp>, placed: seq<bool>, i: nat)
    requires |placed| == |ops| && i < |ops| && !placed[i]
    ensures Rest(ops, placed) == Rest(ops, placed[i := true]) + multiset{ops[i]}
    ensures CountPlaced(placed[i := true]) == CountPlaced(placed) + 1
    ensures CountOpen(ops, placed) == CountOpen(ops, placed[i := true]) + (if ops[i].complete then 1 else 0)
  {
    hide Rest, CountPlaced, CountOpen;
    var n := |ops| - 1;
    var after := placed[i := true];
    LastPlaced(ops, placed);
    LastPlaced(ops, after);
    if i < n {
      PlaceOne(ops[..n], placed[..n], i);
      assert after[..n] == placed[..n][i := true];
    } else {
      assert after[..n] == placed[..n];
    }
  }

  lemma LastPlaced(ops: seq<LinOp>, placed: seq<bool>)
    requires |placed| == |ops| > 0
    ensures var n := |ops| - 1;
      && Rest(ops, placed) == Rest(ops[..n], placed[..n]) + (if placed[n] then multiset{} else multiset{ops[n]})
      && CountPlaced(placed) == CountPlaced(placed[..n]) + (if placed[n] then 1 else 0)
      && CountOpen(ops, placed) == CountOpen(ops[..n], placed[..n]) + (if !placed[n] && ops[n].complete then 1 else 0)
  {
  }

  lemma {:induction false} RestAt(ops: seq<LinOp>, placed: seq<bool>, o: LinOp) returns (i: nat)
    requires |placed| == |ops| && o in Rest(ops, placed)
    ensures i < |ops| && ops[i] == o && !placed[i]
  {
    var n := |ops| - 1;
    if !placed[n] && ops[n] == o {
      i := n;
    } else {
      i := RestAt(ops[..n], placed[..n], o);
    }
  }

  lemma {:induction false} NothingOpen(ops: seq<LinOp>, placed: seq<bool>)
    requires |placed| == |ops|
    ensures CountOpen(ops, placed) == 0 <==> forall i :: 0 <= i < |ops| && !placed[i] ==> !ops[i].complete
  {
    if ops != [] {
      var n := |ops| - 1;
      NothingOpen(ops[..n], placed[..n]);
      if CountOpen(ops, placed) == 0 {
        forall i | 0 <= i < |ops| && !placed[i] ensures !ops[i].complete {
          if i < n {
            assert !placed[..n][i] && ops[..n][i] == ops[i];
          }
        }
      } else if CountOpen(ops[..n], placed[..n]) > 0 {
        var i :| 0 <= i < n && !placed[..n][i] && ops[..n][i].complete;
        assert !placed[i] && ops[i].complete;
      }
    }
  }

  lemma {:induction false} NonePlaced(ops: seq<LinOp>, placed: seq<bool>)
    requires |placed| == |ops| && forall i :: 0 <= i < |placed| ==> !placed[i]
    ensures Rest(ops, placed) == multiset(ops)
  {
    if ops != [] {
      var n := |ops| - 1;
      NonePlaced(ops[..n], placed[..n]);
      assert ops == ops[..n] + [ops[n]];
    }
  }

  // ---- Which operation may come next

  /** No answered operation still to be placed was answered before the given time. */
  ghost predicate MayStart(ops: multiset<LinOp>, t: int) {
    forall o :: o in ops && o.complete ==> t <= o.response
  }

  lemma CoversCons(ops: multiset<LinOp>, o: LinOp, rest: seq<LinOp>)
    requires o in ops
    ensures Covers(ops, [o] + rest) <==> Covers(ops - multiset{o}, rest)
  {
    assert multiset([o] + rest) == multiset{o} + multiset(rest);
    assert ops - multiset([o] + rest) == ops - multiset{o} - multiset(rest);
  }

  lemma TimeCons(ops: multiset<LinOp>, o: LinOp, rest: seq<LinOp>)
    requires Covers(ops, [o] + rest)
    ensures RespectsTime([o] + rest) <==> MayStart(ops, o.invoke) && RespectsTime(rest)
  {
    var order := [o] + rest;
    assert order[1..] == rest;
    if RespectsTime(order) {
      forall x | x in ops && x.complete ensures o.invoke <= x.response {
        CoversAnswered(ops, order, x);
        var j :| 0 <= j < |order| && order[j] == x;
      }
      forall i, j | 0 <= i <= j < |rest| && rest[j].complete ensures rest[i].invoke <= rest[j].response {
        assert order[i + 1] == rest[i] && order[j + 1] == rest[j];
      }
    } else {
      var i, j :| 0 <= i <= j < |order| && order[j].complete && order[i].invoke > order[j].response;
      assert order[j] in multiset(order);
      assert i > 0 ==> rest[i - 1] == order[i] && rest[j - 1] == order[j];
    }
  }

  /** Every answered operation is part of the order. */
  lemma CoversAnswered(ops: multiset<LinOp>, order: seq<LinOp>, x: LinOp)
    requires Covers(ops, order) && x in ops && x.complete
    ensures x in order
  {
    assert x !in ops - multiset(order);
    assert x in multiset(order);
  }

  lemma LinearizationCons(ops: multiset<LinOp>, st: RegState, o: LinOp, rest: seq<LinOp>)
    requires o in ops
    ensures IsLinearization(ops, st, [o] + rest)
      <==> MayStart(ops, o.invoke) && Explained(st, o) && IsLinearization(ops - multiset{o}, ApplyOp(st, o).next, rest)
  {
    hide Covers, RespectsTime, MayStart, Explained, ApplyOp;
    assert ([o] + rest)[1..] == rest;
    CoversCons(ops, o, rest);
    if Covers(ops, [o] + rest) {
      TimeCons(ops, o, rest);
    }
  }

  /** An operation may be placed first when nothing left was answered before it began. */
  lemma PlaceFirst(ops: multiset<LinOp>, st: RegState, o: LinOp)
    requires o in ops && MayStart(ops, o.invoke) && Explained(st, o)
    requires CanFinish(ops - multiset{o}, ApplyOp(st, o).next)
    ensures CanFinish(ops, st)
  {
    hide IsLinearization, MayStart, Explained, ApplyOp;
    var rest: seq<LinOp> :| IsLinearization(ops - multiset{o}, ApplyOp(st, o).next, rest);
    LinearizationCons(ops, st, o, rest);
  }

  /** A linearization of a history with an answered operation begins with one that may be placed first. */
  lemma FirstPlaced(ops: multiset<LinOp>, st: RegState, x: LinOp) returns (o: LinOp)
    requires CanFinish(ops, st) && x in ops && x.complete
    ensures o in ops && MayStart(ops, o.invoke) && Explained(st, o)
    ensures CanFinish(ops - multiset{o}, ApplyOp(st, o).next)
  {
    var order: seq<LinOp> :| IsLinearization(ops, st, order);
    CoversAnswered(ops, order, x);
    o := order[0];
    assert order == [o] + order[1..];
    assert o in multiset(order);
    LinearizationCons(ops, st, o, order[1..]);
  }

  // ---- The mask in bytes, and the memo key

  function Weight(k: nat): (w: nat)
    ensures w >= 1
  {
    if k == 0 then 1 else 2 * Weight(k - 1)
  }

  function Bit(placed: seq<bool>, i: nat): nat {
    if i < |placed| && placed[i] then 1 else 0
  }

  /** The number whose n lowest bits are the flags from i on. */
  function FromBits(placed: seq<bool>, i: nat, n: nat): (b: nat)
    ensures b < Weight(n)
    decreases n
  {
    if n == 0 then 0 else Bit(placed, i) + 2 * FromBits(placed, i + 1, n - 1)
  }

  /** Eight flags in one byte, the first in the lowest bit. */
  function ByteAt(placed: seq<bool>, k: nat): byte {
    assert Weight(4) == 16;
    FromBits(placed, 8 * k, 8)
  }

  function MaskBytes(placed: seq<bool>): (b: seq<byte>)
    ensures |b| == (|placed| + 7) / 8
  {
    seq((|placed| + 7) / 8, k requires 0 <= k => ByteAt(placed, k))
  }

  predicate HasBit(b: nat, k: nat) {
    if k == 0 then b % 2 == 1 else HasBit(b / 2, k - 1)
  }

  function SetBit(b: byte, k: nat): byte
    requires !HasBit(b, k) ==> b + Weight(k) < 256
  {
    if HasBit(b, k) then b else b + Weight(k)
  }

  function ClearBit(b: byte, k: nat): byte
    requires HasBit(b, k) ==> b >= Weight(k)
  {
    if HasBit(b, k) then b - Weight(k) else b
  }

  lemma {:induction false} BitOfNumber(placed: seq<bool>, i: nat, n: nat, k: nat)
    requires k < n
    ensures HasBit(FromBits(placed, i, n), k) <==> Bit(placed, i + k) == 1
    decreases n
  {
    assert FromBits(placed, i, n) / 2 == FromBits(placed, i + 1, n - 1);
    if k > 0 {
      BitOfNumber(placed, i + 1, n - 1, k - 1);
    }
  }

  lemma BitOfByte(placed: seq<bool>, i: nat)
    requires i < |placed|
    ensures HasBit(ByteAt(placed, i / 8), i % 8) <==> placed[i]
  {
    hide FromBits, HasBit;
    var a, k := 8 * (i / 8), i % 8;
    assert a + k == i;
    BitOfNumber(placed, a, 8, k);
  }

  lemma {:induction false} BitMoved(placed: seq<bool>, i: nat, a: nat, n: nat)
    requires i < |placed| && !placed[i]
    ensures FromBits(placed[i := true], a, n) == FromBits(placed, a, n) + (if a <= i < a + n then Weight(i - a) else 0)
    decreases n
  {
    if n > 0 {
      BitMoved(placed, i, a + 1, n - 1);
    }
  }

  lemma BitsMoved(placed: seq<bool>, i: nat, k: nat)
    requires i < |placed| && !placed[i]
    ensures ByteAt(placed[i := true], k) == ByteAt(placed, k) + (if k == i / 8 then Weight(i % 8) else 0)
  {
    hide FromBits, Weight;
    assert 8 * k <= i < 8 * k + 8 <==> k == i / 8;
    assert k == i / 8 ==> i - 8 * k == i % 8;
    BitMoved(placed, i, 8 * k, 8);
  }

  /** Setting the bit of an operation is placing it; clearing it again is taking it back. */
  lemma MaskPlaced(placed: seq<bool>, i: nat)
    requires i < |placed| && !placed[i]
    ensures !HasBit(MaskBytes(placed)[i / 8], i % 8) && MaskBytes(placed)[i / 8] + Weight(i % 8) < 256
    ensures MaskBytes(placed[i := true]) == MaskBytes(placed)[i / 8 := SetBit(MaskBytes(placed)[i / 8], i % 8)]
    ensures HasBit(MaskBytes(placed[i := true])[i / 8], i % 8) && MaskBytes(placed[i := true])[i / 8] >= Weight(i % 8)
    ensures MaskBytes(placed) == MaskBytes(placed[i := true])[i / 8 := ClearBit(MaskBytes(placed[i := true])[i / 8], i % 8)]
  {
    hide ByteAt, HasBit, Weight;
    BitOfByte(placed, i);
    BitOfByte(placed[i := true], i);
    forall k: nat ensures ByteAt(placed[i := true], k) == ByteAt(placed, k) + (if k == i / 8 then Weight(i % 8) else 0) {
      BitsMoved(placed, i, k);
    }
  }

  /** The mask bytes determine the mask. */
  lemma MaskInjective(a: seq<bool>, b: seq<bool>)
    requires |a| == |b| && MaskBytes(a) == MaskBytes(b)
    ensures a == b
  {
    hide ByteAt, HasBit;
    forall i | 0 <= i < |a| ensures a[i] == b[i] {
      assert MaskBytes(a)[i / 8] == ByteAt(a, i / 8);
      assert MaskBytes(b)[i / 8] == ByteAt(b, i / 8);
      BitOfByte(a, i);
      BitOfByte(b, i);
    }
  }

  const ZERO: byte := 0

  function MemoKey(placed: seq<bool>, st: RegState): seq<byte> {
    MaskBytes(placed) + [ZERO] + st.value + [ZERO] + [if st.present then 49 else 48]
  }

  /** No two states of the search share a memo key, whatever bytes the value holds. */
  lemma MemoKeyInjective(a: seq<bool>, s: RegState, b: seq<bool>, t: RegState)
    requires |a| == |b| && MemoKey(a, s) == MemoKey(b, t)
    ensures a == b && s == t
  {
    hide ByteAt;
    var x, y, w := MemoKey(a, s), MemoKey(b, t), (|a| + 7) / 8;
    assert x[..w] == MaskBytes(a) && y[..w] == MaskBytes(b);
    MaskInjective(a, b);
    assert x[w + 1..|x| - 2] == s.value && y[w + 1..|y| - 2] == t.value;
    assert x[|x| - 1] == y[|y| - 1];
  }

  // ---- The search

  /** The memo holds only dead ends among the states that have placed at least c operations. */
  ghost predicate DeadEnds(ops: seq<LinOp>, visited: set<seq<byte>>, c: nat) {
    forall placed: seq<bool>, st ::
      |placed| == |ops| && CountPlaced(placed) >= c && MemoKey(placed, st) in visited ==> !CanFinish(Rest(ops, placed), st)
  }

  ghost predicate Sorted(ops: seq<LinOp>) {
    forall i, j :: 0 <= i <= j < |ops| ==> ops[i].invoke <= ops[j].invoke
  }

  /** The memo grew by dead ends only. */
  ghost predicate OnlyDeadEnds(ops: seq<LinOp>, before: set<seq<byte>>, after: set<seq<byte>>) {
    forall c: nat :: DeadEnds(ops, before, c) ==> DeadEnds(ops, after, c)
  }

  /** Starting a state off: it is the only one of its size that may be in the memo without being a dead end. */
  lemma EnterState(ops: seq<LinOp>, visited: set<seq<byte>>, placed: seq<bool>, st: RegState)
    requires |placed| == |ops| && DeadEnds(ops, visited, CountPlaced(placed))
    ensures DeadEnds(ops, visited + {MemoKey(placed, st)}, CountPlaced(placed) + 1)
    ensures !CanFinish(Rest(ops, placed), st) ==> OnlyDeadEnds(ops, visited, visited + {MemoKey(placed, st)})
  {
    hide MemoKey, CanFinish;
    forall p: seq<bool>, s | |p| == |ops| && MemoKey(p, s) == MemoKey(placed, st) ensures p == placed && s == st {
      MemoKeyInjective(p, s, placed, st);
    }
  }

  lemma KnownDeadEnd(ops: seq<LinOp>, visited: set<seq<byte>>, placed: seq<bool>, st: RegState)
    requires |placed| == |ops| && DeadEnds(ops, visited, CountPlaced(placed)) && MemoKey(placed, st) in visited
    ensures !CanFinish(Rest(ops, placed), st)
  {
    hide MemoKey, CanFinish, Rest;
  }

  lemma DeadEndsGrow(ops: seq<LinOp>, a: set<seq<byte>>, b: set<seq<byte>>, d: set<seq<byte>>, c: nat)
    requires OnlyDeadEnds(ops, b, d)
    ensures DeadEnds(ops, b, c) ==> DeadEnds(ops, d, c)
    ensures OnlyDeadEnds(ops, a, b) ==> OnlyDeadEnds(ops, a, d)
  {
    hide DeadEnds;
  }

  /** A state that can finish has a candidate from which it can. */
  lemma Candidate(ops: seq<LinOp>, placed: seq<bool>, st: RegState, minResp: int) returns (i: nat)
    requires |placed| == |ops| && OpenAnswer(ops, placed, minResp) && CanFinish(Rest(ops, placed), st)
    ensures i < |ops| && ops[i].invoke <= minResp && !Fails(ops, placed, st, i)
  {
    hide CanFinish, ApplyOp, Explained;
    var x :| x in Rest(ops, placed) && x.complete && x.response == minResp;
    var o := FirstPlaced(Rest(ops, placed), st, x);
    i := RestAt(ops, placed, o);
    PlaceOne(ops, placed, i);
    assert Rest(ops, placed) - multiset{o} == Rest(ops, placed[i := true]);
  }

  ghost predicate OpenAnswer(ops: seq<LinOp>, placed: seq<bool>, t: int)
    requires |placed| == |ops|
  {
    exists x :: x in Rest(ops, placed) && x.complete && x.response == t
  }

  /** Placing operation j next leads nowhere. */
  ghost predicate Fails(ops: seq<LinOp>, placed: seq<bool>, st: RegState, j: nat)
    requires |placed| == |ops| && j < |ops|
  {
    !placed[j] && Explained(st, ops[j]) ==> !CanFinish(Rest(ops, placed[j := true]), ApplyOp(st, ops[j]).next)
  }

  /** When every candidate has failed the state is a dead end. */
  lemma AllFailed(ops: seq<LinOp>, placed: seq<bool>, st: RegState, k: nat, minResp: int)
    requires |placed| == |ops| && Sorted(ops) && k <= |ops|
    requires OpenAnswer(ops, placed, minResp)
    requires k < |ops| ==> ops[k].invoke > minResp
    requires forall i :: 0 <= i < k ==> Fails(ops, placed, st, i)
    ensures !CanFinish(Rest(ops, placed), st)
  {
    hide CanFinish, ApplyOp, Explained, Rest, OpenAnswer;
    if CanFinish(Rest(ops, placed), st) {
      var i := Candidate(ops, placed, st, minResp);
    }
  }

  class KeySearch {
    const ops: seq<LinOp>
    const linearized: array<bool>
    const maskBytes: array<byte>
    var remaining: nat
    var st: RegState
    var visited: set<seq<byte>>

    ghost predicate Valid()
      reads this, linearized, maskBytes
    {
      && Sorted(ops)
      && linearized.Length == |ops|
      && maskBytes[..] == MaskBytes(linearized[..])
      && remaining == CountOpen(ops, linearized[..])
    }

    constructor (sorted: seq<LinOp>)
      requires Sorted(sorted)
      ensures Valid() && ops == sorted && st == ABSENT && visited == {}
      ensures fresh(linearized) && fresh(maskBytes)
      ensures forall i :: 0 <= i < |ops| ==> !linearized[i]
    {
      ops := sorted;
      linearized := new bool[|sorted|](_ => false);
      maskBytes := new byte[(|sorted| + 7) / 8](_ => 0);
      remaining := 0;
      st := ABSENT;
      visited := {};
      new;
      ghost var none := linearized[..];
      ByteOfNone(none);
      for i := 0 to |ops|
        invariant linearized[..] == none
        invariant maskBytes[..] == MaskBytes(linearized[..])
        invariant st == ABSENT && visited == {}
        invariant remaining == CountOpen(ops[..i], linearized[..i])
      {
        assert ops[..i + 1][..i] == ops[..i] && linearized[..i + 1][..i] == linearized[..i];
        if ops[i].complete {
          remaining := remaining + 1;
        }
      }
      assert ops[..|ops|] == ops && linearized[..|ops|] == linearized[..];
    }

    method Place(i: nat, next: RegState)
      requires Valid() && i < |ops| && !linearized[i]
      modifies `remaining, `st, linearized, maskBytes
      ensures Valid() && linearized[..] == old(linearized[..])[i := true] && st == next
    {
      hide Rest, CountPlaced, CountOpen, Sorted, HasBit, Weight, MaskBytes;
      ghost var placed, bytes := linearized[..], maskBytes[..];
      MaskPlaced(placed, i);
      PlaceOne(ops, placed, i);
      linearized[i] := true;
      maskBytes[i / 8] := SetBit(maskBytes[i / 8], i % 8);
      assert maskBytes[..] == bytes[i / 8 := SetBit(bytes[i / 8], i % 8)];
      if ops[i].complete {
        remaining := remaining - 1;
      }
      st := next;
      assert linearized[..] == placed[i := true];
    }

    method TakeBack(i: nat, before: RegState)
      requires Valid() && i < |ops| && linearized[i]
      modifies `remaining, `st, linearized, maskBytes
      ensures Valid() && linearized[..] == old(linearized[..])[i := false] && st == before
    {
      hide Rest, CountPlaced, CountOpen, Sorted, HasBit, Weight, MaskBytes;
      ghost var placed, bytes := linearized[..][i := false], maskBytes[..];
      assert placed[i := true] == linearized[..];
      MaskPlaced(placed, i);
      PlaceOne(ops, placed, i);
      st := before;
      linearized[i] := false;
      maskBytes[i / 8] := ClearBit(maskBytes[i / 8], i % 8);
      assert maskBytes[..] == bytes[i / 8 := ClearBit(bytes[i / 8], i % 8)];
      if ops[i].complete {
        remaining := remaining + 1;
      }
      assert linearized[..] == placed;
    }

    /** The earliest answer among the operations still to be placed. */
    method MinResponse() returns (minResp: int)
      requires Valid() && remaining > 0
      ensures MayStart(Rest(ops, linearized[..]), minResp)
      ensures OpenAnswer(ops, linearized[..], minResp)
    {
      hide Rest, CountPlaced, CountOpen, Sorted, MaskBytes;
      minResp := MAX_TIME;
      ghost var placed := linearized[..];
      for i := 0 to |ops|
        invariant forall j :: 0 <= j < i && !placed[j] && ops[j].complete ==> minResp <= ops[j].response
        invariant minResp == MAX_TIME || exists j ::
                    0 <= j < i && !placed[j] && ops[j].complete &&
                    ops[j].response == minResp
      {
        if !linearized[i] && ops[i].complete && ops[i].response < minResp {
          minResp := ops[i].response;
        }
      }
      NothingOpen(ops, placed);
      ghost var j :| 0 <= j < |ops| && !placed[j] && ops[j].complete;
      ghost var k :| 0 <= k < |ops| && !placed[k] && ops[k].complete && ops[k].response == minResp;
      PlaceOne(ops, placed, k);
      forall o | o in Rest(ops, placed) && o.complete ensures minResp <= o.response {
        var i := RestAt(ops, placed, o);
      }
    }

    /** Whether what is left can be placed after what has been; on failure everything is put back. */
    method Dfs() returns (found: bool)
      requires Valid() && DeadEnds(ops, visited, CountPlaced(linearized[..]))
      modifies this, linearized, maskBytes
      ensures Valid()
      ensures found == CanFinish(Rest(ops, old(linearized[..])), old(st))
      ensures !found ==> linearized[..] == old(linearized[..]) && st == old(st)
      ensures !found ==> OnlyDeadEnds(ops, old(visited), visited)
      decreases |ops| - CountPlaced(linearized[..])
    {
      hide CanFinish, Rest, MemoKey, DeadEnds, Sorted, MaskBytes, ApplyOp, OpenAnswer, MayStart, CountOpen,
           CountPlaced, OnlyDeadEnds;
      ghost var placed, left := linearized[..], Rest(ops, linearized[..]);
      if remaining == 0 {
        Finished(ops, placed, st);
        return true;
      }
      var key := MemoKey(linearized[..], st);
      if key in visited {
        KnownDeadEnd(ops, visited, placed, st);
        DeadEndsSame(ops, visited);
        return false;
      }
      EnterState(ops, visited, placed, st);
      visited := visited + {key};
      var minResp := MinResponse();
      var here := st;
      var i := 0;
      while i < |ops|
        invariant i <= |ops|
        invariant Valid() && linearized[..] == placed && st == here
        invariant DeadEnds(ops, visited, CountPlaced(placed) + 1)
        invariant !CanFinish(left, here) ==> OnlyDeadEnds(ops, old(visited), visited)
        invariant forall j :: 0 <= j < i ==> Fails(ops, placed, here, j)
      {
        if linearized[i] {
          i := i + 1;
          continue;
        }
        if ops[i].invoke > minResp {
          break;
        }
        var next := ApplyOp(st, ops[i]);
        if ops[i].complete && !OutputMatches(ops[i], next.value, next.ok) {
          i := i + 1;
          continue;
        }
        ghost var v := visited;
        found := Try(i, next.next);
        if !found {
          DeadEndsGrow(ops, old(visited), v, visited, CountPlaced(placed) + 1);
        }
        if found {
          Succeeds(ops, placed, here, i, minResp);
          return true;
        }
        i := i + 1;
      }
      AllFailed(ops, placed, here, i, minResp);
      return false;
    }

    /** Places one operation, searches on, and takes it back when that fails. */
    method Try(i: nat, next: RegState) returns (found: bool)
      requires Valid() && i < |ops| && !linearized[i] && DeadEnds(ops, visited, CountPlaced(linearized[..]) + 1)
      modifies this, linearized, maskBytes
      ensures Valid()
      ensures found == CanFinish(Rest(ops, old(linearized[..])[i := true]), next)
      ensures !found ==> linearized[..] == old(linearized[..]) && st == old(st)
      ensures !found ==> OnlyDeadEnds(ops, old(visited), visited)
      decreases |ops| - CountPlaced(linearized[..]), 0
    {
      hide CanFinish, Rest, MemoKey, DeadEnds, Sorted, MaskBytes, CountOpen, CountPlaced, OnlyDeadEnds;
      ghost var placed := linearized[..];
      var here := st;
      PlaceOne(ops, placed, i);
      Place(i, next);
      found := Dfs();
      if !found {
        TakeBack(i, here);
        assert placed[i := true][i := false] == placed;
      }
    }
  }

  lemma DeadEndsSame(ops: seq<LinOp>, v: set<seq<byte>>)
    ensures OnlyDeadEnds(ops, v, v)
  {
  }

  /** Placing a candidate after which the rest can finish. */
  lemma Succeeds(ops: seq<LinOp>, placed: seq<bool>, st: RegState, i: nat, minResp: int)
    requires |placed| == |ops| && i < |ops| && !placed[i] && MayStart(Rest(ops, placed), minResp)
    requires ops[i].invoke <= minResp
    requires Explained(st, ops[i]) && CanFinish(Rest(ops, placed[i := true]), ApplyOp(st, ops[i]).next)
    ensures CanFinish(Rest(ops, placed), st)
  {
    hide CanFinish, ApplyOp, Explained;
    PlaceOne(ops, placed, i);
    assert Rest(ops, placed) - multiset{ops[i]} == Rest(ops, placed[i := true]);
    PlaceFirst(Rest(ops, placed), st, ops[i]);
  }

  lemma ByteOfNone(placed: seq<bool>)
    requires forall i :: 0 <= i < |placed| ==> !placed[i]
    ensures forall k: nat :: ByteAt(placed, k) == 0
  {
    forall k: nat ensures ByteAt(placed, k) == 0 {
      NoBits(placed, 8 * k, 8);
    }
  }

  lemma {:induction false} NoBits(placed: seq<bool>, i: nat, n: nat)
    requires forall i :: 0 <= i < |placed| ==> !placed[i]
    ensures FromBits(placed, i, n) == 0
    decreases n
  {
    if n > 0 {
      NoBits(placed, i + 1, n - 1);
    }
  }

  lemma Finished(ops: seq<LinOp>, placed: seq<bool>, st: RegState)
    requires |placed| == |ops| && CountOpen(ops, placed) == 0
    ensures CanFinish(Rest(ops, placed), st)
  {
    NothingOpen(ops, placed);
    forall o | o in Rest(ops, placed) ensures !o.complete {
      var i := RestAt(ops, placed, o);
    }
    assert IsLinearization(Rest(ops, placed), st, []);
  }
}
