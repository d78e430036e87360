/** Histories of register operations, and what it means for one to be linearizable. */
module Histories {
  import opened Strings

  /** Virtual time, 64 bits wide. */
  type Time = t: int | -0x8000_0000_0000_0000 <= t < 0x8000_0000_0000_0000

  const MAX_TIME: Time := 0x7FFF_FFFF_FFFF_FFFF

  datatype Kind = LinGet | LinPut | LinCAS

  /** One operation of a client: what it asked, when, and what it was told if it was told anything. */
  datatype LinOp = LinOp(
    client: nat, kind: Kind, key: Str, arg1: Str, arg2: Str,
    outValue: Str, outOK: bool, invoke: Time, response: Time, complete: bool)

  datatype RegState = RegState(value: Str, present: bool)

  const ABSENT := RegState([], false)

  datatype Outcome = Outcome(next: RegState, value: Str, ok: bool)

  function ApplyOp(st: RegState, o: LinOp): Outcome {
    match o.kind
    case LinGet => Outcome(st, st.value, st.present)
    case LinPut => Outcome(RegState(o.arg1, true), [], true)
    case LinCAS =>
      if st.present && st.value == o.arg1 then Outcome(RegState(o.arg2, true), [], true)
      else Outcome(st, st.value, false)
  }

  /** The recorded answer is one the operation could have got. */
  predicate OutputMatches(o: LinOp, value: Str, ok: bool) {
    match o.kind
    case LinGet => o.outOK == ok && o.outValue == value
    case LinPut => true
    case LinCAS => o.outOK == ok && (ok || o.outValue == value)
  }

  /** An operation that got no answer may have done anything. */
  predicate Explained(st: RegState, o: LinOp) {
    o.complete ==> OutputMatches(o, ApplyOp(st, o).value, ApplyOp(st, o).ok)
  }

  /** One register, taking the operations one after the other. */
  predicate LegalRun(st: RegState, order: seq<LinOp>)
    decreases |order|
  {
    order == [] || (Explained(st, order[0]) && LegalRun(ApplyOp(st, order[0]).next, order[1..]))
  }

  /**
   * The order respects real time: every operation can be given an instant inside its interval, in this order.
   * That is, none is invoked after a later one of the order, or itself, was answered.
   */
  ghost predicate RespectsTime(order: seq<LinOp>) {
    forall i, j :: 0 <= i <= j < |order| && order[j].complete ==> order[i].invoke <= order[j].response
  }

  /** The order uses operations of the history, each at most once, and leaves out only unanswered ones. */
  ghost predicate Covers(ops: multiset<LinOp>, order: seq<LinOp>) {
    multiset(order) <= ops && forall o :: o in ops - multiset(order) ==> !o.complete
  }

  ghost predicate IsLinearization(ops: multiset<LinOp>, st: RegState, order: seq<LinOp>) {
    Covers(ops, order) && LegalRun(st, order) && RespectsTime(order)
  }

  /** One register's history has a sequential explanation from a given state. */
  ghost predicate CanFinish(ops: multiset<LinOp>, st: RegState) {
    exists order :: IsLinearization(ops, st, order)
  }

  ghost predicate KeyLinearizable(ops: seq<LinOp>) {
    CanFinish(multiset(ops), ABSENT)
  }

  // ---- Several registers

  type Registers = map<Str, RegState>

  function Register(rs: Registers, key: Str): RegState {
    if key in rs then rs[key] else ABSENT
  }

  /** All registers together, taking the operations one after the other. */
  predicate LegalStoreRun(rs: Registers, order: seq<LinOp>)
    decreases |order|
  {
    order == [] ||
    (var st := Register(rs, order[0].key);
     Explained(st, order[0]) && LegalStoreRun(rs[order[0].key := ApplyOp(st, order[0]).next], order[1..]))
  }

  ghost predicate IsStoreLinearization(ops: seq<LinOp>, order: seq<LinOp>) {
    Covers(multiset(ops), order) && LegalStoreRun(map[], order) && RespectsTime(order)
  }

  /** The whole history, all keys together, has a sequential explanation. */
  ghost predicate Linearizable(ops: seq<LinOp>) {
    exists order :: IsStoreLinearization(ops, order)
  }

  // ---- The textbook reading of real time

  /** Every answered operation was invoked before it was answered. */
  ghost predicate WellTimed(ops: seq<LinOp>) {
    forall i :: 0 <= i < |ops| && ops[i].complete ==> ops[i].invoke <= ops[i].response
  }

  /** An operation answered before another was invoked comes first. */
  ghost predicate PrecedenceKept(order: seq<LinOp>) {
    forall i, j :: 0 <= i < j < |order| ==> !(order[j].complete && order[j].response < order[i].invoke)
  }

  lemma Textbook(ops: seq<LinOp>, order: seq<LinOp>)
    requires WellTimed(ops) && Covers(multiset(ops), order)
    ensures RespectsTime(order) <==> PrecedenceKept(order)
  {
    forall j | 0 <= j < |order| ensures order[j].complete ==> order[j].invoke <= order[j].response {
      assert order[j] in multiset(order);
      assert order[j] in multiset(ops);
    }
  }
}
