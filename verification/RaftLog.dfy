/** The log a node keeps in memory, updated in place. */
module RaftLog {
  import opened RaftTypes
  import opened LogSpec

  class RaftLog {
    var snapIndex: nat
    var snapTerm: nat
    var entries: seq<Entry>

    function Value(): Log
      reads this
    {
      Log(snapIndex, snapTerm, entries)
    }

    constructor ()
      ensures Value() == Log(0, 0, [])
    {
      snapIndex, snapTerm, entries := 0, 0, [];
    }

    method Term(i: nat) returns (t: nat, ok: bool)
      ensures Value().Term(i) == if ok then Some(t) else None
    {
      if i == snapIndex {
        return snapTerm, true;
      }
      if i < snapIndex || i > snapIndex + |entries| {
        return 0, false;
      }
      return entries[i - snapIndex - 1].term, true;
    }

    method Slice(lo: nat, hi: nat, maxEntries: nat) returns (out: seq<Entry>)
      ensures out == Value().Slice(lo, hi, maxEntries)
      ensures |out| == SliceSize(Value(), lo, hi, maxEntries)
      ensures forall k :: 0 <= k < |out| ==> out[k] == entries[lo + k - snapIndex - 1]
    {
      var to := hi;
      if to > Value().LastIndex() + 1 {
        to := Value().LastIndex() + 1;
      }
      if lo < Value().FirstIndex() || lo >= to {
        return [];
      }
      var n := to - lo;
      if maxEntries > 0 && n > maxEntries {
        n := maxEntries;
      }
      out := entries[lo - snapIndex - 1..lo - snapIndex - 1 + n];
    }

    /** Appends the next entry; any other index is refused, where the original panics. */
    method Append(e: Entry) returns (ok: bool)
      modifies this
      ensures ok == (e.index == old(Value()).LastIndex() + 1)
      ensures Value() == if ok then old(Value()).Append(e) else old(Value())
    {
      ok := e.index == Value().LastIndex() + 1;
      if ok {
        entries := entries + [e];
      }
    }

    /** Drops the entries from i on; false where the original panics, below the snapshot point. */
    method TruncateFrom(i: nat) returns (ok: bool)
      modifies this
      ensures ok == (i > old(snapIndex))
      ensures Value() == if ok then old(Value()).TruncateFrom(i) else old(Value())
    {
      if i <= snapIndex {
        return false;
      }
      if i > Value().LastIndex() {
        return true;
      }
      entries := entries[..i - snapIndex - 1];
      return true;
    }

    /** Forgets the entries up to i; false where the original panics, beyond the end. */
    method Compact(i: nat, term: nat) returns (ok: bool)
      modifies this
      ensures ok == (i <= old(Value()).LastIndex())
      ensures Value() == if ok then old(Value()).Compact(i, term) else old(Value())
    {
      if i <= snapIndex {
        return true;
      }
      if i > Value().LastIndex() {
        return false;
      }
      entries := entries[i - snapIndex..];
      snapIndex, snapTerm := i, term;
      return true;
    }

    method Reset(index: nat, term: nat)
      modifies this
      ensures Value() == Log(index, term, [])
    {
      snapIndex, snapTerm, entries := index, term, [];
    }

    method FirstIndexOfTerm(from: nat, t: nat) returns (i: nat)
      ensures i == Value().FirstIndexOfTerm(from, t)
    {
      i := from;
      while i > Value().FirstIndex()
        invariant Value().FirstIndexOfTerm(i, t) == Value().FirstIndexOfTerm(from, t)
      {
        var pt, ok := Term(i - 1);
        if !ok || pt != t {
          break;
        }
        i := i - 1;
      }
    }

    method LastIndexOfTerm(t: nat) returns (r: nat)
      ensures r == Value().LastIndexOfTerm(t)
    {
      var i: nat := Value().LastIndex();
      while i >= Value().FirstIndex()
        invariant i <= Value().LastIndex()
        invariant Value().LastIndexOfTermFrom(i, t) == Value().LastIndexOfTerm(t)
        decreases i
      {
        var pt, _ := Term(i);
        if pt == t {
          return i;
        }
        if pt < t {
          return 0;
        }
        i := i - 1;
      }
      return 0;
    }
  }
}
