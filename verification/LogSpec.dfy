/** The value of a Raft log: the entries after a snapshot point. */
module LogSpec {
  import opened RaftTypes

  datatype Log = Log(snapIndex: nat, snapTerm: nat, entries: seq<Entry>) {
    function FirstIndex(): nat {
      snapIndex + 1
    }

    function LastIndex(): nat {
      snapIndex + |entries|
    }

    function LastTerm(): nat {
      if entries == [] then snapTerm else entries[|entries| - 1].term
    }

    /** The term at an index; the snapshot point counts, anything else outside the log does not. */
    function Term(i: nat): Option<nat> {
      if i == snapIndex then Some(snapTerm)
      else if i < snapIndex || i > LastIndex() then None
      else Some(entries[i - snapIndex - 1].term)
    }

    /** The entries in [lo, hi), at most `max` of them when `max` is positive. */
    function Slice(lo: nat, hi: nat, max: nat): seq<Entry> {
      var hi := if hi > LastIndex() + 1 then LastIndex() + 1 else hi;
      if lo < FirstIndex() || lo >= hi then []
      else
        var n := if max > 0 && hi - lo > max then max else hi - lo;
        entries[lo - snapIndex - 1..lo - snapIndex - 1 + n]
    }

    function Append(e: Entry): Log {
      Log(snapIndex, snapTerm, entries + [e])
    }

    function TruncateFrom(i: nat): Log
      requires snapIndex < i
    {
      if i > LastIndex() then this else Log(snapIndex, snapTerm, entries[..i - snapIndex - 1])
    }

    function Compact(i: nat, term: nat): Log
      requires i <= LastIndex()
    {
      if i <= snapIndex then this else Log(i, term, entries[i - snapIndex..])
    }

    /** The start of the run of entries of term t that ends just before `from`. */
    function FirstIndexOfTerm(from: nat, t: nat): (r: nat)
      ensures r <= from
      ensures FirstIndex() <= from ==> FirstIndex() <= r
      ensures forall j :: r <= j < from ==> Term(j) == Some(t)
      ensures r > FirstIndex() ==> Term(r - 1) != Some(t)
      decreases from
    {
      if from > FirstIndex() && Term(from - 1) == Some(t) then FirstIndexOfTerm(from - 1, t) else from
    }

    /** The last index at or below i with term t, giving up at the first smaller term; 0 when there is none. */
    function LastIndexOfTermFrom(i: nat, t: nat): (r: nat)
      requires i <= LastIndex()
      ensures r != 0 ==> FirstIndex() <= r <= i && Term(r) == Some(t)
      ensures r != 0 ==> forall j :: r < j <= i ==> Term(j).value > t
      decreases i
    {
      if i < FirstIndex() then 0
      else if Term(i).value == t then i
      else if Term(i).value < t then 0
      else LastIndexOfTermFrom(i - 1, t)
    }

    function LastIndexOfTerm(t: nat): nat {
      LastIndexOfTermFrom(LastIndex(), t)
    }

    /** Entry indexes are contiguous after the snapshot point. */
    ghost predicate Contiguous() {
      forall k :: 0 <= k < |entries| ==> entries[k].index == snapIndex + 1 + k
    }
  }

  function Min(a: nat, b: nat): nat {
    if a < b then a else b
  }

  /** How many entries a slice has: all there are from lo below hi, but no more than a positive cap. */
  function SliceSize(l: Log, lo: nat, hi: nat, max: nat): nat {
    var all := if lo < Min(hi, l.LastIndex() + 1) then Min(hi, l.LastIndex() + 1) - lo else 0;
    if lo <= l.snapIndex then 0 else if max == 0 then all else Min(max, all)
  }

  /** The k-th of them is the entry at index lo + k. */
  lemma SliceTakes(l: Log, lo: nat, hi: nat, max: nat)
    ensures |l.Slice(lo, hi, max)| == SliceSize(l, lo, hi, max)
    ensures forall k :: 0 <= k < SliceSize(l, lo, hi, max) ==>
        l.Slice(lo, hi, max)[k] == l.entries[lo + k - l.snapIndex - 1]
  {
  }

  /** The first position at or after i whose entry the log does not already hold with the same term. */
  function FirstConflict(l: Log, ents: seq<Entry>, i: nat): (r: nat)
    requires i <= |ents|
    ensures i <= r <= |ents|
    ensures forall j :: i <= j < r ==> l.Term(ents[j].index) == Some(ents[j].term)
    ensures r < |ents| ==> l.Term(ents[r].index) != Some(ents[r].term)
    decreases |ents| - i
  {
    if i < |ents| && l.Term(ents[i].index) == Some(ents[i].term) then FirstConflict(l, ents, i + 1) else i
  }
}
