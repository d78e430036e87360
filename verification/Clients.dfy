/** A client of the store: it issues one operation at a time, retries it, and records it in the shared history. */
module Clients {
  import opened Strings
  import opened KV
  import opened Histories
  import S = System

  /** What the clients share: the recorded operations and the clock. */
  class Record {
    var now: Time
    var history: seq<LinOp>
    ghost var seqs: seq<nat>

    constructor ()
      ensures history == [] && seqs == [] && now == 0
    {
      now, history, seqs := 0, [], [];
    }
  }

  class Client {
    const id: nat
    const record: Record
    var seqno: nat
    var inflight: bool
    var histIdx: nat
    var cmd: Command
    var target: nat
    var lastSeen: map<Str, Str>

    function Value(): S.Client
      reads this
    {
      S.Client(seqno, inflight, cmd, histIdx)
    }

    /** The system shows this client, the recorded history and the clock as they are. */
    ghost predicate Shown(s: S.Sys)
      reads this, record
    {
      && id in s.clients && s.clients[id] == Value()
      && s.history == record.history && s.seqs == record.seqs && s.now == record.now
    }

    constructor (client: nat, shared: Record)
      ensures id == client && record == shared && seqno == 0 && !inflight && lastSeen == map[]
    {
      id, record := client, shared;
      seqno, inflight, histIdx, target := 0, false, 0, 0;
      cmd := Command(client, 0, OP_GET, [], [], []);
      lastSeen := map[];
    }

    /** Starts an operation of the given kind; a compare-and-set expects what was last seen under the key. */
    method StartNextOp(kind: Kind, key: Str, value: Str) returns (ghost op: LinOp)
      modifies this, record
      ensures S.JustInvoked(op, id, record.now) && op.kind == kind && op.key == key
      ensures kind == LinPut ==> op.arg1 == value
      ensures kind == LinCAS ==> op.arg2 == value && op.arg1 == if key in old(lastSeen) then old(lastSeen)[key] else []
      ensures Value() == S.Client(old(seqno) + 1, true, S.CommandOf(op, old(seqno) + 1), |old(record.history)|)
      ensures record.history == old(record.history) + [op] && record.seqs == old(record.seqs) + [old(seqno) + 1]
      ensures record.now == old(record.now) && lastSeen == old(lastSeen) && target == 0
      ensures forall s: S.Sys | old(Shown(s)) :: Shown(S.AfterInvoke(s, id, op))
    {
      seqno := seqno + 1;
      inflight := true;
      target := 0;
      var o := LinOp(id, kind, key, [], [], [], false, record.now, 0, false);
      var c := Command(id, seqno, OP_GET, key, [], []);
      match kind {
        case LinGet =>
        case LinPut =>
          c := c.(op := OP_PUT, value := value);
          o := o.(arg1 := value);
        case LinCAS =>
          c := c.(op := OP_CAS, value := value, expect_ := if key in lastSeen then lastSeen[key] else []);
          o := o.(arg1 := c.expect_, arg2 := value);
      }
      cmd := c;
      histIdx := |record.history|;
      record.history := record.history + [o];
      record.seqs := record.seqs + [seqno];
      op := o;
    }

    /** Takes an answer: stale ones are ignored, refusals choose the next server, the first real one completes
        the operation. */
    method HandleResp(r: S.Response) returns (retry: bool)
      requires inflight ==> histIdx < |record.history|
      modifies this, record
      ensures record.now == old(record.now) && record.seqs == old(record.seqs)
      ensures retry == (old(inflight) && r.seqno == old(seqno) && !r.ok)
      ensures retry ==> Value() == old(Value()) && record.history == old(record.history)
      ensures retry ==> target == if r.hint != 0 && r.hint != old(target) then r.hint else 0
      ensures !old(inflight) || r.seqno != old(seqno) ==>
        Value() == old(Value()) && record.history == old(record.history) && target == old(target) &&
            lastSeen == old(lastSeen)
      ensures old(inflight) && r.seqno == old(seqno) && r.ok ==>
        && Value() == old(Value()).(inflight := false)
        && record.history == old(record.history)[histIdx := S.Answered(old(record.history)[histIdx], r.res, record.now)]
        && lastSeen == Seen(old(lastSeen), old(record.history)[histIdx], r.res)
        && (r.client == id ==> forall s: S.Sys | old(Shown(s)) :: Shown(S.AfterDeliver(s, r)))
    {
      retry := false;
      if !inflight || r.seqno != seqno {
        return;
      }
      if !r.ok {
        if r.hint != 0 && r.hint != target {
          target := r.hint;
        } else {
          target := 0;
        }
        return true;
      }
      var o := record.history[histIdx];
      o := o.(response := record.now, complete := true, outValue := r.res.value, outOK := r.res.ok);
      record.history := record.history[histIdx := o];
      match o.kind {
        case LinGet =>
          if r.res.ok {
            lastSeen := lastSeen[o.key := r.res.value];
          } else {
            lastSeen := lastSeen - {o.key};
          }
        case LinPut => lastSeen := lastSeen[o.key := o.arg1];
        case LinCAS => lastSeen := lastSeen[o.key := if r.res.ok then o.arg2 else r.res.value];
      }
      inflight := false;
    }
  }

  /** What a client has last seen under each key, after an answer. */
  function Seen(seen: map<Str, Str>, o: LinOp, res: Result): map<Str, Str> {
    match o.kind
    case LinGet => if res.ok then seen[o.key := res.value] else seen - {o.key}
    case LinPut => seen[o.key := o.arg1]
    case LinCAS => seen[o.key := if res.ok then o.arg2 else res.value]
  }
}
