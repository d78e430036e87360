/** The checker's scan of log chains, incremental from one observation of a node to the next. */
module ChainScan {
  import opened RaftTypes
  import opened LogSpec

  /** The fingerprint of an entry's content; collisions are not excluded. */
  type Fingerprint = (EntryType, seq<byte>) -> nat

  /** What the map keeps for an index and term: the content, and the term of the entry before. */
  datatype ChainVal = ChainVal(hash: nat, prevTerm: nat)

  type Chain = map<(nat, nat), ChainVal>

  /** The other violation of the original, a hole in the log, cannot arise below the last index. */
  datatype Violation = Mismatch(node: nat, index: nat, term: nat)

  datatype Found = Found(chain: Chain, violations: seq<Violation>)

  /** The terms a node's log showed when last observed; None before the first entry is seen. */
  datatype Track = Track(logFirst: nat, terms: Option<seq<nat>>)

  // ---- One scan

  function EntryOf(l: Log, i: nat): Option<Entry> {
    if l.snapIndex < i <= l.LastIndex() then Some(l.entries[i - l.snapIndex - 1]) else None
  }

  function ValueAt(h: Fingerprint, l: Log, i: nat): ChainVal
    requires l.snapIndex < i <= l.LastIndex()
  {
    var e := EntryOf(l, i).value;
    ChainVal(h(e.typ, e.data), match l.Term(i - 1) case Some(t) => t case None => 0)
  }

  function KeyAt(l: Log, i: nat): (nat, nat)
    requires l.snapIndex < i <= l.LastIndex()
  {
    (i, EntryOf(l, i).value.term)
  }

  /** Compares the log from index i on with the map, and records what the map does not have. */
  function Scan(h: Fingerprint, node: nat, l: Log, i: nat, chain: Chain): Found
    requires l.snapIndex < i
    decreases l.LastIndex() + 1 - i
  {
    if i > l.LastIndex() then Found(chain, [])
    else
      var key, val := KeyAt(l, i), ValueAt(h, l, i);
      if key in chain then
        var r := Scan(h, node, l, i + 1, chain);
        if chain[key] == val then r else r.(violations := [Mismatch(node, i, key.1)] + r.violations)
      else Scan(h, node, l, i + 1, chain[key := val])
  }

  // ---- Where an incremental scan resumes

  function TermsOf(l: Log): (ts: seq<nat>)
    ensures |ts| == |l.entries|
  {
    seq(|l.entries|, k requires 0 <= k < |l.entries| => l.entries[k].term)
  }

  /** The first index from i on where the log shows another term than before; one past the end if there is none. */
  function FirstDifference(logFirst: nat, terms: seq<nat>, l: Log, i: nat): (r: nat)
    requires logFirst <= i && l.snapIndex < i
    ensures i <= r || r == logFirst + |terms|
    decreases logFirst + |terms| - i
  {
    if i >= logFirst + |terms| || i > l.LastIndex() then logFirst + |terms|
    else if l.Term(i) != Some(terms[i - logFirst]) then i
    else FirstDifference(logFirst, terms, l, i + 1)
  }

  function ResumeAt(t: Track, l: Log): (r: nat)
    ensures r >= l.FirstIndex()
  {
    match t.terms
    case None => l.FirstIndex()
    case Some(terms) =>
      var lo := if t.logFirst > l.FirstIndex() then t.logFirst else l.FirstIndex();
      var d := FirstDifference(t.logFirst, terms, l, lo);
      var s := if l.LastIndex() + 1 < d then l.LastIndex() + 1 else d;
      if s < l.FirstIndex() then l.FirstIndex() else s
  }

  /** The buffer stays nil as long as only empty logs have been seen. */
  function Observed(t: Track, l: Log): Track {
    Track(l.FirstIndex(), if t.terms.None? && l.entries == [] then None else Some(TermsOf(l)))
  }

  // ---- The checker's state

  class Checker {
    const h: Fingerprint
    var chain: Chain
    var violations: seq<Violation>
    var tracks: map<nat, Track>

    constructor (fingerprint: Fingerprint)
      ensures h == fingerprint && chain == map[] && violations == [] && tracks == map[]
    {
      h := fingerprint;
      chain, violations, tracks := map[], [], map[];
    }

    /** A restarted node is scanned in full again. */
    method ObserveRestart(id: nat)
      modifies `tracks
      ensures tracks == old(tracks)[id := Track(0, None)]
    {
      tracks := tracks[id := Track(0, None)];
    }

    method CheckLogChain(id: nat, l: Log)
      modifies this
      ensures var t := if id in old(tracks) then old(tracks)[id] else Track(0, None);
        var r := Scan(h, id, l, ResumeAt(t, l), old(chain));
        && chain == r.chain
        && violations == old(violations) + r.violations
        && tracks == old(tracks)[id := Observed(t, l)]
    {
      var t := Track(0, None);
      if id in tracks {
        t := tracks[id];
      }
      var scanFrom := ResumePoint(t, l);
      ScanLog(id, l, scanFrom);
      var terms := [];
      for i := l.FirstIndex() to l.LastIndex() + 1
        invariant terms == TermsOf(l)[..i - l.FirstIndex()]
        invariant chain == Scan(h, id, l, scanFrom, old(chain)).chain
        invariant violations == old(violations) + Scan(h, id, l, scanFrom, old(chain)).violations
        invariant tracks == old(tracks)
      {
        terms := terms + [l.Term(i).value];
      }
      assert TermsOf(l)[..|l.entries|] == TermsOf(l);
      tracks := tracks[id := Track(l.FirstIndex(), if t.terms.None? && l.entries == [] then None else Some(terms))];
    }

    method ResumePoint(t: Track, l: Log) returns (scanFrom: nat)
      ensures scanFrom == ResumeAt(t, l)
    {
      scanFrom := l.FirstIndex();
      if t.terms.Some? {
        var terms := t.terms.value;
        scanFrom := t.logFirst + |terms|;
        var lo := l.FirstIndex();
        if t.logFirst > lo {
          lo := t.logFirst;
        }
        var i := lo;
        while i < t.logFirst + |terms| && i <= l.LastIndex()
          invariant lo <= i && scanFrom == t.logFirst + |terms|
          invariant FirstDifference(t.logFirst, terms, l, i) == FirstDifference(t.logFirst, terms, l, lo)
        {
          if l.Term(i) != Some(terms[i - t.logFirst]) {
            scanFrom := i;
            break;
          }
          i := i + 1;
        }
        if l.LastIndex() + 1 < scanFrom {
          scanFrom := l.LastIndex() + 1;
        }
      }
      if scanFrom < l.FirstIndex() {
        scanFrom := l.FirstIndex();
      }
    }

    method ScanLog(id: nat, l: Log, from: nat)
      requires l.snapIndex < from
      modifies `chain, `violations
      ensures chain == Scan(h, id, l, from, old(chain)).chain
      ensures violations == old(violations) + Scan(h, id, l, from, old(chain)).violations
    {
      var i := from;
      while i <= l.LastIndex()
        invariant from <= i
        invariant Scan(h, id, l, i, chain).chain == Scan(h, id, l, from, old(chain)).chain
        invariant violations + Scan(h, id, l, i, chain).violations ==
            old(violations) + Scan(h, id, l, from, old(chain)).violations
        decreases l.LastIndex() + 1 - i
      {
        var e := EntryOf(l, i).value;
        var prevTerm := 0;
        if l.Term(i - 1).Some? {
          prevTerm := l.Term(i - 1).value;
        }
        var key, val := (i, e.term), ChainVal(h(e.typ, e.data), prevTerm);
        ghost var rest := Scan(h, id, l, i, chain).violations;
        if key in chain {
          if chain[key] != val {
            assert violations + rest == violations + [Mismatch(id, i, e.term)] + Scan(h, id, l, i + 1, chain).violations;
            violations := violations + [Mismatch(id, i, e.term)];
          }
        } else {
          chain := chain[key := val];
        }
        i := i + 1;
      }
    }
  }

  // ---- The incremental scan is the full scan

  /** The map holds every entry of the log as the log has it. */
  ghost predicate Recorded(h: Fingerprint, chain: Chain, l: Log) {
    forall i :: l.snapIndex < i <= l.LastIndex() ==> RecordedAt(h, chain, l, i)
  }

  ghost predicate RecordedAt(h: Fingerprint, chain: Chain, l: Log, i: nat)
    requires l.snapIndex < i <= l.LastIndex()
  {
    KeyAt(l, i) in chain && chain[KeyAt(l, i)] == ValueAt(h, l, i)
  }

  /** What the map holds it keeps. */
  ghost predicate Kept(a: Chain, b: Chain) {
    forall k :: k in a ==> k in b && b[k] == a[k]
  }

  lemma {:induction false} ScanKeeps(h: Fingerprint, node: nat, l: Log, i: nat, chain: Chain)
    requires l.snapIndex < i
    ensures Kept(chain, Scan(h, node, l, i, chain).chain)
    decreases l.LastIndex() + 1 - i
  {
    hide KeyAt, ValueAt;
    if i <= l.LastIndex() {
      var key, val := KeyAt(l, i), ValueAt(h, l, i);
      ScanKeeps(h, node, l, i + 1, if key in chain then chain else chain[key := val]);
    }
  }

  /** A scan without violations leaves every entry it passed recorded. */
  lemma {:induction false} ScanRecords(h: Fingerprint, node: nat, l: Log, i: nat, chain: Chain, j: nat)
    requires l.snapIndex < i <= j <= l.LastIndex()
    requires Scan(h, node, l, i, chain).violations == []
    ensures RecordedAt(h, Scan(h, node, l, i, chain).chain, l, j)
    decreases l.LastIndex() + 1 - i
  {
    hide KeyAt, ValueAt;
    var key, val := KeyAt(l, i), ValueAt(h, l, i);
    var next := if key in chain then chain else chain[key := val];
    if j == i {
      ScanKeeps(h, node, l, i + 1, next);
    } else {
      ScanRecords(h, node, l, i + 1, next, j);
    }
  }

  /** The map holds something else for the entry. */
  ghost predicate Differs(h: Fingerprint, chain: Chain, l: Log, i: nat)
    requires l.snapIndex < i <= l.LastIndex()
  {
    KeyAt(l, i) in chain && chain[KeyAt(l, i)] != ValueAt(h, l, i)
  }

  /** A scan reports exactly the entries for which the map holds something else. */
  lemma {:induction false} ScanFinds(h: Fingerprint, node: nat, l: Log, i: nat, chain: Chain, v: Violation)
    requires l.snapIndex < i
    ensures v in Scan(h, node, l, i, chain).violations <==>
      i <= v.index <= l.LastIndex() && v == Mismatch(node, v.index, KeyAt(l, v.index).1) && Differs(h, chain, l, v.index)
    decreases l.LastIndex() + 1 - i
  {
    hide ValueAt;
    if i <= l.LastIndex() {
      var key, val := KeyAt(l, i), ValueAt(h, l, i);
      ScanFinds(h, node, l, i + 1, if key in chain then chain else chain[key := val], v);
    }
  }

  /** What is recorded need not be scanned. */
  lemma {:induction false} SkipRecorded(h: Fingerprint, node: nat, l: Log, i: nat, from: nat, chain: Chain)
    requires l.snapIndex < i <= from <= l.LastIndex() + 1
    requires forall j :: i <= j < from ==> RecordedAt(h, chain, l, j)
    ensures Scan(h, node, l, i, chain) == Scan(h, node, l, from, chain)
    decreases from - i
  {
    if i < from {
      assert RecordedAt(h, chain, l, i);
      SkipRecorded(h, node, l, i + 1, from, chain);
    }
  }

  /** Since the last observation the log changed only in ways its terms show. */
  ghost predicate TermsTell(l0: Log, l: Log) {
    forall i :: l0.snapIndex < i <= l0.LastIndex() && l.snapIndex < i <= l.LastIndex() && SameTerms(l0, l, i) ==>
        SameAt(l0, l, i)
  }

  ghost predicate SameTerms(l0: Log, l: Log, i: nat) {
    forall j: nat :: l0.snapIndex < j <= i && l.snapIndex < j ==> l.Term(j) == l0.Term(j)
  }

  /** The entry and the term before it are what they were. */
  ghost predicate SameAt(l0: Log, l: Log, i: nat)
    requires l0.snapIndex < i <= l0.LastIndex() && l.snapIndex < i <= l.LastIndex()
  {
    EntryOf(l, i) == EntryOf(l0, i) && l.Term(i - 1) == l0.Term(i - 1)
  }

  /** Below the resume point no term differs, and every index was in the log already. */
  lemma {:induction false} BelowDifference(logFirst: nat, terms: seq<nat>, l: Log, lo: nat, j: nat)
    requires logFirst <= lo && l.snapIndex < lo
    requires lo <= j < FirstDifference(logFirst, terms, l, lo) && j <= l.LastIndex()
    ensures j < logFirst + |terms| && l.Term(j) == Some(terms[j - logFirst])
    decreases logFirst + |terms| - lo
  {
    if lo < logFirst + |terms| && lo <= l.LastIndex() && l.Term(lo) == Some(terms[lo - logFirst]) && lo < j {
      BelowDifference(logFirst, terms, l, lo + 1, j);
    }
  }

  /** Everything below the resume point is as the last observation left it. */
  lemma ResumeSafe(l0: Log, l: Log, t: Track, i: nat)
    requires t == Observed(t, l0) && l.snapIndex >= l0.snapIndex && TermsTell(l0, l)
    requires l.snapIndex < i < ResumeAt(t, l)
    ensures l0.snapIndex < i <= l0.LastIndex() && i <= l.LastIndex() && SameAt(l0, l, i)
  {
    hide TermsTell, FirstDifference, SameAt;
    var terms := t.terms.value;
    var lo := l.FirstIndex();
    forall j: nat | lo <= j <= i ensures j <= l0.LastIndex() && l.Term(j) == l0.Term(j) {
      BelowDifference(t.logFirst, terms, l, lo, j);
    }
    assert l.Term(i) == l0.Term(i);
    TellAt(l0, l, i);
  }

  lemma TellAt(l0: Log, l: Log, i: nat)
    requires TermsTell(l0, l) && l0.snapIndex < i <= l0.LastIndex() && l.snapIndex < i <= l.LastIndex()
    requires SameTerms(l0, l, i)
    ensures SameAt(l0, l, i)
  {
  }

  /**
   * After a node changed in a way its terms show, scanning from the resume point finds the same violations and leaves
   * the same map as scanning the whole log, provided the log last observed is recorded.
   */
  lemma IncrementalIsFull(h: Fingerprint, node: nat, l0: Log, l: Log, t: Track, chain: Chain)
    requires t == Observed(t, l0) && l.snapIndex >= l0.snapIndex && TermsTell(l0, l) && Recorded(h, chain, l0)
    ensures Scan(h, node, l, ResumeAt(t, l), chain) == Scan(h, node, l, l.FirstIndex(), chain)
  {
    hide TermsTell, Observed, ResumeAt;
    ResumeBound(t, l);
    forall j | l.FirstIndex() <= j < ResumeAt(t, l) ensures RecordedAt(h, chain, l, j) {
      ResumeSafe(l0, l, t, j);
      assert RecordedAt(h, chain, l0, j);
    }
    SkipRecorded(h, node, l, l.FirstIndex(), ResumeAt(t, l), chain);
  }

  /** The skipped entries have the fingerprints they had, and the first of them the predecessor it had. */
  ghost predicate NothingHidden(h: Fingerprint, l0: Log, l: Log, resume: nat) {
    && (l.FirstIndex() < resume ==> l0.Term(l.snapIndex) == Some(l.snapTerm))
    && forall i :: l.snapIndex < i < resume && i <= l.LastIndex() && l0.snapIndex < i <= l0.LastIndex() ==>
      h(EntryOf(l, i).value.typ, EntryOf(l, i).value.data) == h(EntryOf(l0, i).value.typ, EntryOf(l0, i).value.data)
  }

  /** A skipped index was in the log last observed, under the same term. */
  lemma SkippedTerm(l0: Log, l: Log, t: Track, i: nat)
    requires t == Observed(t, l0) && l.snapIndex >= l0.snapIndex && l.snapIndex < i < ResumeAt(t, l)
    ensures l0.snapIndex < i <= l0.LastIndex() && i <= l.LastIndex() && l.Term(i) == l0.Term(i)
  {
    hide FirstDifference;
    BelowDifference(t.logFirst, t.terms.value, l, l.FirstIndex(), i);
  }

  /** A skipped entry is recorded as it is exactly when nothing about it is hidden. */
  lemma SkippedRecorded(h: Fingerprint, l0: Log, l: Log, t: Track, chain: Chain, i: nat)
    requires t == Observed(t, l0) && l.snapIndex >= l0.snapIndex && Recorded(h, chain, l0)
    requires l.snapIndex < i < ResumeAt(t, l)
    ensures l0.snapIndex < i <= l0.LastIndex() && i <= l.LastIndex() && KeyAt(l, i) in chain
    ensures RecordedAt(h, chain, l, i) <==>
      && (i == l.FirstIndex() ==> l0.Term(l.snapIndex) == Some(l.snapTerm))
      && h(EntryOf(l, i).value.typ, EntryOf(l, i).value.data) == h(EntryOf(l0, i).value.typ, EntryOf(l0, i).value.data)
  {
    hide ResumeAt, Observed;
    SkippedTerm(l0, l, t, i);
    assert RecordedAt(h, chain, l0, i);
    if i > l.FirstIndex() {
      SkippedTerm(l0, l, t, i - 1);
    }
  }

  /** Skipping known entries leaves out their mismatches, and only those. */
  lemma {:induction false} SkipKnown(h: Fingerprint, node: nat, l: Log, i: nat, from: nat, chain: Chain)
    requires l.snapIndex < i <= from <= l.LastIndex() + 1
    requires forall j :: i <= j < from ==> KeyAt(l, j) in chain
    ensures |Scan(h, node, l, i, chain).violations| >= |Scan(h, node, l, from, chain).violations|
    ensures (exists j :: i <= j < from && !RecordedAt(h, chain, l, j)) ==>
      |Scan(h, node, l, i, chain).violations| > |Scan(h, node, l, from, chain).violations|
    decreases from - i
  {
    if i < from {
      SkipKnown(h, node, l, i + 1, from, chain);
    }
  }

  /** The incremental scan finds what a full one does if and only if the change hid nothing below the resume point. */
  lemma IncrementalIffFull(h: Fingerprint, node: nat, l0: Log, l: Log, t: Track, chain: Chain)
    requires t == Observed(t, l0) && l.snapIndex >= l0.snapIndex && Recorded(h, chain, l0)
    ensures Scan(h, node, l, ResumeAt(t, l), chain) == Scan(h, node, l, l.FirstIndex(), chain)
      <==> NothingHidden(h, l0, l, ResumeAt(t, l))
  {
    hide Observed, ResumeAt, RecordedAt, KeyAt, ValueAt, Recorded;
    var first, resume := l.FirstIndex(), ResumeAt(t, l);
    ResumeBound(t, l);
    forall j | first <= j < resume
      ensures l0.snapIndex < j <= l0.LastIndex() && j <= l.LastIndex() && KeyAt(l, j) in chain
      ensures RecordedAt(h, chain, l, j) <==>
        && (j == first ==> l0.Term(l.snapIndex) == Some(l.snapTerm))
        && h(EntryOf(l, j).value.typ, EntryOf(l, j).value.data) == h(EntryOf(l0, j).value.typ, EntryOf(l0, j).value.data)
    {
      SkippedRecorded(h, l0, l, t, chain, j);
    }
    SkipKnown(h, node, l, first, resume, chain);
    if forall j :: first <= j < resume ==> RecordedAt(h, chain, l, j) {
      SkipRecorded(h, node, l, first, resume, chain);
      assert first < resume ==> RecordedAt(h, chain, l, first);
    }
  }

  lemma ResumeBound(t: Track, l: Log)
    ensures l.FirstIndex() <= ResumeAt(t, l) <= l.LastIndex() + 1
  {
    hide FirstDifference;
  }

  /** A full scan without violations records the whole log, and forgets nothing recorded before. */
  lemma FullScanRecords(h: Fingerprint, node: nat, l: Log, chain: Chain)
    requires Scan(h, node, l, l.FirstIndex(), chain).violations == []
    ensures Recorded(h, Scan(h, node, l, l.FirstIndex(), chain).chain, l)
    ensures forall o :: Recorded(h, chain, o) ==> Recorded(h, Scan(h, node, l, l.FirstIndex(), chain).chain, o)
  {
    hide KeyAt, ValueAt;
    var after := Scan(h, node, l, l.FirstIndex(), chain).chain;
    forall j | l.snapIndex < j <= l.LastIndex() ensures RecordedAt(h, after, l, j) {
      ScanRecords(h, node, l, l.FirstIndex(), chain, j);
    }
    ScanKeeps(h, node, l, l.FirstIndex(), chain);
    forall o | Recorded(h, chain, o) ensures Recorded(h, after, o) {
      RecordedKept(h, chain, after, o);
    }
  }

  lemma RecordedKept(h: Fingerprint, a: Chain, b: Chain, l: Log)
    requires Kept(a, b) && Recorded(h, a, l)
    ensures Recorded(h, b, l)
  {
    hide KeyAt, ValueAt;
    forall j | l.snapIndex < j <= l.LastIndex() ensures RecordedAt(h, b, l, j) {
      assert RecordedAt(h, a, l, j);
    }
  }

  // ---- What the map proves

  /** Logs both recorded in one map that show the same term at an index agree below it: same terms, same
      fingerprints. */
  lemma {:induction false} ChainMatches(h: Fingerprint, chain: Chain, a: Log, b: Log, i: nat, j: nat)
    requires Recorded(h, chain, a) && Recorded(h, chain, b)
    requires a.snapIndex < j <= i <= a.LastIndex() && b.snapIndex < j && i <= b.LastIndex()
    requires a.Term(i) == b.Term(i)
    ensures a.Term(j) == b.Term(j)
    ensures var x, y := EntryOf(a, j).value, EntryOf(b, j).value; h(x.typ, x.data) == h(y.typ, y.data)
    decreases i
  {
    assert RecordedAt(h, chain, a, i) && RecordedAt(h, chain, b, i);
    if j < i {
      assert a.Term(i - 1) == b.Term(i - 1);
      ChainMatches(h, chain, a, b, i - 1, j);
    }
  }
}
