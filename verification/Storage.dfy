/** The simulated disk: one `Apply` is one atomic fsync. */
module Storage {
  import opened RaftTypes

  datatype Disk = Disk(hs: HardState, snap: Option<Snapshot>, entries: seq<Entry>)

  const EMPTY_DISK := Disk(HardState(0, NONE), None, [])

  /** What remains once everything up to index i is dropped from the front. */
  function TrimThrough(entries: seq<Entry>, i: nat): seq<Entry> {
    if entries != [] && entries[0].index <= i then TrimThrough(entries[1..], i) else entries
  }

  /** How many entries from position k on precede index `first`. */
  function KeepCount(entries: seq<Entry>, first: nat, k: nat): (r: nat)
    requires k <= |entries|
    ensures k <= r <= |entries|
    ensures forall j :: k <= j < r ==> entries[j].index < first
    ensures r < |entries| ==> entries[r].index >= first
    decreases |entries| - k
  {
    if k < |entries| && entries[k].index < first then KeepCount(entries, first, k + 1) else k
  }

  /** Hard state, then snapshot. */
  function WriteHead(d: Disk, p: Persist): Disk {
    var d1 := if p.hardState.Some? then d.(hs := p.hardState.value) else d;
    if p.snapshot.None? then d1
    else d1.(snap := p.snapshot, entries := if p.replaceLog then [] else TrimThrough(d1.entries, p.snapshot.value.index))
  }

  function Write(d: Disk, p: Persist): Disk {
    var d1 := WriteHead(d, p);
    if p.entries == [] then d1
    else d1.(entries := d1.entries[..KeepCount(d1.entries, p.entries[0].index, 0)] + p.entries)
  }

  /** The appended entries would not continue what is kept: the original panics. */
  predicate Discontinuous(d: Disk, p: Persist) {
    var d1 := WriteHead(d, p);
    p.entries != [] &&
    var keep := KeepCount(d1.entries, p.entries[0].index, 0);
    var prev := if keep > 0 then d1.entries[keep - 1].index else if d1.snap.Some? then d1.snap.value.index else 0;
    p.entries[0].index != prev + 1
  }

  /** On a disk without a gap, new entries are refused exactly when they would leave one or reach below the snapshot. */
  lemma GapExactly(d: Disk, p: Persist)
    requires p.entries != []
    requires var d1 := WriteHead(d, p);
      var base := if d1.snap.Some? then d1.snap.value.index else 0;
      forall k :: 0 <= k < |d1.entries| ==> d1.entries[k].index == base + 1 + k
    ensures var d1 := WriteHead(d, p);
      var base := if d1.snap.Some? then d1.snap.value.index else 0;
      Discontinuous(d, p) <==> !(base < p.entries[0].index <= base + |d1.entries| + 1)
  {
    hide WriteHead;
  }

  function Load(d: Disk): Restore {
    Restore(d.hs, d.snap, d.entries)
  }

  class Durable {
    var hs: HardState
    var snap: Option<Snapshot>
    var entries: seq<Entry>

    ghost function Value(): Disk
      reads this
    {
      Disk(hs, snap, entries)
    }

    constructor ()
      ensures Value() == EMPTY_DISK
    {
      hs := HardState(0, NONE);
      snap := None;
      entries := [];
    }

    /** Forgets everything up to the snapshot point. */
    method DropThrough(i: nat)
      modifies this`entries
      ensures entries == TrimThrough(old(entries), i)
    {
      while |entries| > 0 && entries[0].index <= i
        invariant TrimThrough(entries, i) == TrimThrough(old(entries), i)
        decreases |entries|
      {
        entries := entries[1..];
      }
    }

    /** Cuts at the first new index and appends; false where the new entries leave a gap. */
    method ReplaceFrom(ents: seq<Entry>) returns (ok: bool)
      requires |ents| > 0
      modifies this`entries
      ensures entries == old(entries)[..KeepCount(old(entries), ents[0].index, 0)] + ents
      ensures var keep := KeepCount(old(entries), ents[0].index, 0);
        var last := if keep > 0 then old(entries)[keep - 1].index else if snap.Some? then snap.value.index else 0;
        ok == (ents[0].index == last + 1)
    {
      var first := ents[0].index;
      var keep := 0;
      while keep < |entries| && entries[keep].index < first
        invariant keep <= |entries|
        invariant KeepCount(entries, first, keep) == KeepCount(entries, first, 0)
      {
        keep := keep + 1;
      }
      var prev := if keep > 0 then entries[keep - 1].index else if snap.Some? then snap.value.index else 0;
      entries := entries[..keep] + ents;
      ok := first == prev + 1;
    }

    /** Makes a persistence order durable; false where the original panics on a gap. */
    method Apply(order: Option<Persist>) returns (ok: bool)
      modifies this
      ensures order.None? ==> ok && Value() == old(Value())
      ensures order.Some? ==> ok == !Discontinuous(old(Value()), order.value)
      ensures order.Some? ==> Value() == Write(old(Value()), order.value)
    {
      ok := true;
      if order.None? {
        return;
      }
      var p := order.value;
      if p.hardState.Some? {
        hs := p.hardState.value;
      }
      if p.snapshot.Some? {
        snap := p.snapshot;
        if p.replaceLog {
          entries := [];
        } else {
          DropThrough(p.snapshot.value.index);
        }
      }
      assert Value() == WriteHead(old(Value()), p);
      if |p.entries| > 0 {
        ok := ReplaceFrom(p.entries);
      }
    }

    /** What a restart reads back. */
    method Restored() returns (r: Restore)
      ensures r == Load(Value())
    {
      r := Restore(hs, snap, entries);
    }
  }
}
