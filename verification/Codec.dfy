/** The binary codec of commands and of whole stores. */
module Codec {
  import opened RaftTypes
  import opened Bytes
  import opened Strings
  import opened KV

  // ---- Strings

  function AppendStr(b: seq<byte>, s: Str): seq<byte> {
    b + ToBytes(|s|, 4) + s
  }

  datatype Read<T> = Read(value: T, rest: seq<byte>)

  /** A length-prefixed string; None where the original panics. The slice bound is 32 bits wide. */
  function ReadStr(b: seq<byte>): Option<Read<Str>> {
    if |b| < 4 then None
    else
      var end := (4 + FromBytes(b[..4])) % U32;
      if end < 4 || end > |b| then None else Some(Read(b[4..end], b[end..]))
  }

  predicate ShortStr(s: Str) {
    |s| < U32 - 4
  }

  /** What is read is always short. */
  lemma ReadIsShort(b: seq<byte>)
    ensures ReadStr(b).Some? ==> ShortStr(ReadStr(b).value.value)
  {
  }

  lemma StrRoundTrip(s: Str, rest: seq<byte>)
    requires ShortStr(s)
    ensures ReadStr(AppendStr([], s) + rest) == Some(Read(s, rest))
  {
    var b := AppendStr([], s) + rest;
    RoundTrip32(|s|);
    assert b[..4] == ToBytes(|s|, 4);
    assert b[4..4 + |s|] == s;
    assert b[4 + |s|..] == rest;
  }

  function ReadUint(b: seq<byte>, w: nat): Option<Read<nat>> {
    if |b| < w then None else Some(Read(FromBytes(b[..w]), b[w..]))
  }

  lemma UintRoundTrip(n: nat, w: nat, rest: seq<byte>)
    requires n < Pow256(w)
    ensures ReadUint(ToBytes(n, w) + rest, w) == Some(Read(n, rest))
  {
    FromToBytes(n, w);
    var b := ToBytes(n, w) + rest;
    assert b[..w] == ToBytes(n, w);
    assert b[w..] == rest;
  }

  lemma {:induction false} FromBytesBound(b: seq<byte>)
    ensures FromBytes(b) < Pow256(|b|)
  {
    if b != [] {
      FromBytesBound(b[..|b| - 1]);
    }
  }

  lemma ReadUintBound(b: seq<byte>, w: nat)
    ensures ReadUint(b, w).Some? ==> ReadUint(b, w).value.value < Pow256(w)
  {
    if |b| >= w {
      FromBytesBound(b[..w]);
    }
  }

  // ---- Commands

  function EncodeCommand(c: Command): seq<byte> {
    AppendStr(AppendStr(AppendStr([c.op] + ToBytes(c.client, 8) + ToBytes(c.seqno, 8), c.key), c.value), c.expect_)
  }

  /** None where the original panics. */
  function DecodeCommand(b: seq<byte>): Option<Command> {
    if |b| < 17 then None
    else match ReadStr(b[17..])
      case None => None
      case Some(k) => match ReadStr(k.rest)
        case None => None
        case Some(v) => match ReadStr(v.rest)
          case None => None
          case Some(e) => Some(Command(FromBytes(b[1..9]), FromBytes(b[9..17]), b[0], k.value, v.value, e.value))
  }

  predicate CommandFits(c: Command) {
    c.client < U64 && c.seqno < U64 && ShortStr(c.key) && ShortStr(c.value) && ShortStr(c.expect_)
  }

  lemma DecodedFits(b: seq<byte>)
    ensures DecodeCommand(b).Some? ==> CommandFits(DecodeCommand(b).value)
  {
    Widths();
    if |b| >= 17 {
      FromBytesBound(b[1..9]);
      FromBytesBound(b[9..17]);
    }
  }

  /** A command survives encoding exactly when its numbers have 64 bits and its strings are shorter than 2^32 - 4. */
  lemma CommandRoundTrip(c: Command)
    ensures DecodeCommand(EncodeCommand(c)) == Some(c) <==> CommandFits(c)
  {
    DecodedFits(EncodeCommand(c));
    if CommandFits(c) {
      var b := EncodeCommand(c);
      var e := AppendStr([], c.expect_);
      var v := AppendStr([], c.value) + e;
      assert b[1..9] == ToBytes(c.client, 8);
      assert b[9..17] == ToBytes(c.seqno, 8);
      assert b[17..] == AppendStr([], c.key) + v;
      RoundTrip64(c.client);
      RoundTrip64(c.seqno);
      StrRoundTrip(c.key, v);
      StrRoundTrip(c.value, e);
      StrRoundTrip(c.expect_, []);
      assert e + [] == e;
    }
  }

  /** From this position on stand the length of s, in four bytes, and then s. */
  predicate HoldsStr(b: seq<byte>, from: nat, s: Str) {
    && from + 4 + |s| <= |b| && b[from..from + 4] == ToBytes(|s|, 4) && b[from + 4..from + 4 + |s|] == s
  }

  lemma StrStands(before: seq<byte>, s: Str, after: seq<byte>)
    ensures HoldsStr(before + AppendStr([], s) + after, |before|, s)
  {
    var b := before + AppendStr([], s) + after;
    assert b[|before|..|before| + 4] == ToBytes(|s|, 4);
    assert b[|before| + 4..|before| + 4 + |s|] == s;
  }

  /** The bytes before the strings of a command. */
  function Head(c: Command): (b: seq<byte>)
    ensures |b| == 17
  {
    [c.op] + ToBytes(c.client, 8) + ToBytes(c.seqno, 8)
  }

  /** Where the parts of a command stand: kind, client, number, and then key, value and expectation. */
  lemma CommandLayout(c: Command)
    ensures var b, k, v := EncodeCommand(c), 17, 21 + |c.key|;
      var e := v + 4 + |c.value|;
      && |b| == e + 4 + |c.expect_|
      && b[0] == c.op && b[1..9] == ToBytes(c.client, 8) && b[9..17] == ToBytes(c.seqno, 8)
      && HoldsStr(b, k, c.key) && HoldsStr(b, v, c.value) && HoldsStr(b, e, c.expect_)
  {
    hide ToBytes, HoldsStr;
    var b, h := EncodeCommand(c), Head(c);
    var k, v, e := AppendStr([], c.key), AppendStr([], c.value), AppendStr([], c.expect_);
    assert b == h + k + v + e;
    assert b[..17] == h;
    assert h[1..9] == ToBytes(c.client, 8) && h[9..17] == ToBytes(c.seqno, 8);
    assert b[1..9] == b[..17][1..9] && b[9..17] == b[..17][9..17];
    assert h + k + (v + e) == b && (h + k) + v + e == b && (h + k + v) + e + [] == b;
    StrStands(h, c.key, v + e);
    StrStands(h + k, c.value, e);
    StrStands(h + k + v, c.expect_, []);
  }

  method Encode(c: Command) returns (b: seq<byte>)
    ensures b == EncodeCommand(c)
  {
    b := [c.op];
    b := b + ToBytes(c.client, 8);
    b := b + ToBytes(c.seqno, 8);
    b := AppendStr(b, c.key);
    b := AppendStr(b, c.value);
    b := AppendStr(b, c.expect_);
  }

  // ---- Whole stores

  function EncodeData(keys: seq<Str>, data: map<Str, Str>): seq<byte>
    requires forall k :: k in keys ==> k in data
  {
    if keys == [] then []
    else
      var k := keys[|keys| - 1];
      AppendStr(AppendStr(EncodeData(keys[..|keys| - 1], data), k), data[k])
  }

  function EncodeSession(client: nat, s: Session): seq<byte> {
    AppendStr(ToBytes(client, 8) + ToBytes(s.lastSeq, 8) + [if s.lastResult.ok then 1 else 0], s.lastResult.value)
  }

  function EncodeSessions(clients: seq<nat>, sessions: map<nat, Session>): seq<byte>
    requires forall c :: c in clients ==> c in sessions
  {
    if clients == [] then []
    else
      var c := clients[|clients| - 1];
      EncodeSessions(clients[..|clients| - 1], sessions) + EncodeSession(c, sessions[c])
  }

  /** The encoding with keys and clients in the given order. */
  function EncodeStore(s: StoreState, keys: seq<Str>, clients: seq<nat>): seq<byte>
    requires forall k :: k in keys ==> k in s.data
    requires forall c :: c in clients ==> c in s.sessions
  {
    ToBytes(|keys|, 4) + EncodeData(keys, s.data) + ToBytes(|clients|, 4) + EncodeSessions(clients, s.sessions)
  }

  /** The keys and clients of a store in ascending order. */
  ghost predicate KeysInOrder(s: StoreState, keys: seq<Str>, clients: seq<nat>) {
    && Ascending(keys) && SameStrings(keys, s.data.Keys)
    && AscendingNats(clients) && SameNats(clients, s.sessions.Keys)
  }

  /** A snapshot's bytes: those of the one ascending order, so a function of the contents alone. */
  ghost predicate IsSnapshot(s: StoreState, b: seq<byte>) {
    exists keys, clients :: KeysInOrder(s, keys, clients) && b == EncodeStore(s, keys, clients)
  }

  lemma SnapshotUnique(s: StoreState, a: seq<byte>, b: seq<byte>)
    requires IsSnapshot(s, a) && IsSnapshot(s, b)
    ensures a == b
  {
    hide EncodeStore, Less;
    var k1, c1 :| KeysInOrder(s, k1, c1) && a == EncodeStore(s, k1, c1);
    var k2, c2 :| KeysInOrder(s, k2, c2) && b == EncodeStore(s, k2, c2);
    AscendingUnique(k1, k2);
    AscendingNatsUnique(c1, c2);
  }

  function ReadPairs(b: seq<byte>, n: nat, data: map<Str, Str>): Option<Read<map<Str, Str>>> {
    if n == 0 then Some(Read(data, b))
    else match ReadStr(b)
      case None => None
      case Some(k) => match ReadStr(k.rest)
        case None => None
        case Some(v) => ReadPairs(v.rest, n - 1, data[k.value := v.value])
  }

  function ReadSession(b: seq<byte>): Option<Read<(nat, Session)>> {
    if |b| < 17 then None
    else match ReadStr(b[17..])
      case None => None
      case Some(v) =>
        Some(Read((FromBytes(b[..8]), Session(FromBytes(b[8..16]), Result(v.value, b[16] == 1))), v.rest))
  }

  function ReadSessions(b: seq<byte>, n: nat, sessions: map<nat, Session>): Option<map<nat, Session>> {
    if n == 0 then Some(sessions)
    else match ReadSession(b)
      case None => None
      case Some(s) => ReadSessions(s.rest, n - 1, sessions[s.value.0 := s.value.1])
  }

  /** The second half of a snapshot, once the data has been read. */
  function RestoreSessions(data: map<Str, Str>, b: seq<byte>): Option<StoreState> {
    match ReadUint(b, 4)
    case None => None
    case Some(nc) => match ReadSessions(nc.rest, nc.value, map[])
      case None => None
      case Some(ss) => Some(StoreState(data, ss))
  }

  /** None where the original panics. */
  function DecodeStore(b: seq<byte>): Option<StoreState> {
    if b == [] then Some(EMPTY_STORE)
    else match ReadUint(b, 4)
      case None => None
      case Some(nk) => match ReadPairs(nk.rest, nk.value, map[])
        case None => None
        case Some(d) => RestoreSessions(d.value, d.rest)
  }

  // ---- A store survives its snapshot exactly when it fits

  predicate DataFits(data: map<Str, Str>) {
    forall k :: k in data ==> ShortStr(k) && ShortStr(data[k])
  }

  predicate SessionFits(client: nat, s: Session) {
    client < U64 && s.lastSeq < U64 && ShortStr(s.lastResult.value)
  }

  predicate SessionsFit(sessions: map<nat, Session>) {
    forall c :: c in sessions ==> SessionFits(c, sessions[c])
  }

  predicate StoreFits(s: StoreState) {
    |s.data| < U32 && |s.sessions| < U32 && DataFits(s.data) && SessionsFit(s.sessions)
  }

  lemma {:induction false} ReadPairsFit(b: seq<byte>, n: nat, data: map<Str, Str>)
    requires DataFits(data)
    ensures ReadPairs(b, n, data).Some? ==>
      DataFits(ReadPairs(b, n, data).value.value) && |ReadPairs(b, n, data).value.value| <= |data| + n
    decreases n
  {
    if n > 0 {
      ReadIsShort(b);
      match ReadStr(b)
      case None =>
      case Some(k) =>
        ReadIsShort(k.rest);
        match ReadStr(k.rest)
        case None =>
        case Some(v) =>
          AddedKeys(data, k.value, v.value);
          ReadPairsFit(v.rest, n - 1, data[k.value := v.value]);
    }
  }

  lemma AddedKeys<K, V>(m: map<K, V>, k: K, v: V)
    ensures |m[k := v]| <= |m| + 1
  {
    assert m[k := v].Keys == m.Keys + {k};
  }

  lemma ReadSessionFits(b: seq<byte>)
    ensures ReadSession(b).Some? ==> SessionFits(ReadSession(b).value.value.0, ReadSession(b).value.value.1)
  {
    Widths();
    if |b| >= 17 {
      FromBytesBound(b[..8]);
      FromBytesBound(b[8..16]);
      ReadIsShort(b[17..]);
    }
  }

  lemma {:induction false} ReadSessionsFit(b: seq<byte>, n: nat, sessions: map<nat, Session>)
    requires SessionsFit(sessions)
    ensures ReadSessions(b, n, sessions).Some? ==>
      SessionsFit(ReadSessions(b, n, sessions).value) && |ReadSessions(b, n, sessions).value| <= |sessions| + n
    decreases n
  {
    hide ReadSession, SessionFits;
    if n > 0 {
      ReadSessionFits(b);
      match ReadSession(b)
      case None =>
      case Some(s) =>
        AddedKeys(sessions, s.value.0, s.value.1);
        ReadSessionsFit(s.rest, n - 1, sessions[s.value.0 := s.value.1]);
    }
  }

  lemma RestoredFits(b: seq<byte>)
    ensures DecodeStore(b).Some? ==> StoreFits(DecodeStore(b).value)
  {
    hide ReadPairs, ReadSessions, DataFits, SessionsFit;
    NothingFits();
    Widths();
    ReadUintBound(b, 4);
    match ReadUint(b, 4)
    case None =>
    case Some(nk) =>
      ReadPairsFit(nk.rest, nk.value, map[]);
      match ReadPairs(nk.rest, nk.value, map[])
      case None =>
      case Some(d) =>
        ReadUintBound(d.rest, 4);
        match ReadUint(d.rest, 4)
        case None =>
        case Some(nc) =>
          ReadSessionsFit(nc.rest, nc.value, map[]);
  }

  lemma NothingFits()
    ensures DataFits(map[]) && SessionsFit(map[])
  {
  }

  lemma PairRoundTrip(k: Str, v: Str, rest: seq<byte>, n: nat, into: map<Str, Str>)
    requires ShortStr(k) && ShortStr(v)
    ensures ReadPairs(AppendStr(AppendStr([], k), v) + rest, n + 1, into) == ReadPairs(rest, n, into[k := v])
  {
    hide ReadStr;
    var b := AppendStr(AppendStr([], k), v) + rest;
    assert b == AppendStr([], k) + (AppendStr([], v) + rest);
    StrRoundTrip(k, AppendStr([], v) + rest);
    StrRoundTrip(v, rest);
  }

  /** The map's restriction to some keys, written over another map. */
  ghost function Over<K, V>(into: map<K, V>, keys: seq<K>, m: map<K, V>): map<K, V>
    requires forall k :: k in keys ==> k in m
  {
    into + map k | k in keys :: m[k]
  }

  lemma OverHead<K, V>(into: map<K, V>, keys: seq<K>, m: map<K, V>)
    requires keys != [] && forall k :: k in keys ==> k in m
    ensures Over(into, keys, m) == Over(into[keys[0] := m[keys[0]]], keys[1..], m)
  {
    assert keys == [keys[0]] + keys[1..];
  }

  lemma OverAll<K, V>(keys: seq<K>, m: map<K, V>)
    requires forall k :: k in keys <==> k in m
    ensures Over(map[], keys, m) == m
  {
  }

  lemma OverNone<K, V>(into: map<K, V>, m: map<K, V>)
    ensures Over(into, [], m) == into
  {
  }

  /** Reading pairs off their encoding, whatever comes after it. */
  lemma {:induction false} PairsRoundTrip(keys: seq<Str>, data: map<Str, Str>, into: map<Str, Str>, rest: seq<byte>)
    requires forall k :: k in keys ==> k in data
    requires DataFits(data)
    ensures ReadPairs(EncodeData(keys, data) + rest, |keys|, into) == Some(Read(Over(into, keys, data), rest))
    decreases |keys|
  {
    hide Over, AppendStr;
    if keys == [] {
      assert EncodeData(keys, data) + rest == rest;
      OverNone(into, data);
    } else {
      var k, tail := keys[0], keys[1..];
      DataHead(keys, data);
      var more := EncodeData(tail, data) + rest;
      assert EncodeData(keys, data) + rest == AppendStr(AppendStr([], k), data[k]) + more;
      PairRoundTrip(k, data[k], more, |tail|, into);
      PairsRoundTrip(tail, data, into[k := data[k]], rest);
      OverHead(into, keys, data);
    }
  }

  lemma {:induction false} DataHead(keys: seq<Str>, data: map<Str, Str>)
    requires keys != [] && forall k :: k in keys ==> k in data
    ensures EncodeData(keys, data) == EncodePair(keys[0], data[keys[0]]) + EncodeData(keys[1..], data)
  {
    hide EncodeData;
    var n := |keys| - 1;
    DataLast(keys, data);
    if n == 0 {
      assert keys[1..] == [] && keys[..0] == [];
      NoData(data);
    } else {
      DataHead(keys[..n], data);
      DataLast(keys[1..], data);
      assert keys[..n][1..] == keys[1..][..n - 1];
    }
  }

  /** The bytes of one entry of the store. */
  function EncodePair(k: Str, v: Str): seq<byte> {
    AppendStr(AppendStr([], k), v)
  }

  lemma NoData(data: map<Str, Str>)
    ensures EncodeData([], data) == []
  {
  }

  lemma DataLast(keys: seq<Str>, data: map<Str, Str>)
    requires keys != [] && forall k :: k in keys ==> k in data
    ensures var n := |keys| - 1;
      EncodeData(keys, data) == EncodeData(keys[..n], data) + EncodePair(keys[n], data[keys[n]])
  {
    hide AppendStr;
    var n := |keys| - 1;
    var b, k, v := EncodeData(keys[..n], data), keys[n], data[keys[n]];
    assert EncodeData(keys, data) == AppendStr(AppendStr(b, k), v);
    hide EncodeData;
    var x, y := AppendStr([], k), AppendStr([], v);
    AppendStrAfter(b, k);
    AppendStrAfter(b + x, v);
    AppendStrAfter(x, v);
    assert (b + x) + y == b + (x + y);
  }

  lemma AppendStrAfter(b: seq<byte>, s: Str)
    ensures AppendStr(b, s) == b + AppendStr([], s)
  {
  }

  lemma SessionRoundTrip(client: nat, s: Session, rest: seq<byte>)
    requires SessionFits(client, s)
    ensures ReadSession(EncodeSession(client, s) + rest) == Some(Read((client, s), rest))
  {
    var b := EncodeSession(client, s) + rest;
    assert b[..8] == ToBytes(client, 8);
    assert b[8..16] == ToBytes(s.lastSeq, 8);
    assert b[17..] == AppendStr([], s.lastResult.value) + rest;
    RoundTrip64(client);
    RoundTrip64(s.lastSeq);
    StrRoundTrip(s.lastResult.value, rest);
  }

  lemma {:induction false} SessionsRoundTrip(clients: seq<nat>, sessions: map<nat, Session>, into: map<nat, Session>)
    requires forall c :: c in clients ==> c in sessions
    requires SessionsFit(sessions)
    ensures ReadSessions(EncodeSessions(clients, sessions), |clients|, into) == Some(Over(into, clients, sessions))
    decreases |clients|
  {
    hide SessionFits, EncodeSession, ReadSession, Over;
    if clients == [] {
      OverNone(into, sessions);
    } else {
      var c, tail := clients[0], clients[1..];
      SessionsHead(clients, sessions);
      SessionRoundTrip(c, sessions[c], EncodeSessions(tail, sessions));
      SessionsRoundTrip(tail, sessions, into[c := sessions[c]]);
      OverHead(into, clients, sessions);
    }
  }

  lemma {:induction false} SessionsHead(clients: seq<nat>, sessions: map<nat, Session>)
    requires clients != [] && forall c :: c in clients ==> c in sessions
    ensures EncodeSessions(clients, sessions) ==
        EncodeSession(clients[0], sessions[clients[0]]) + EncodeSessions(clients[1..], sessions)
  {
    hide EncodeSession;
    var n := |clients| - 1;
    if n == 0 {
      assert clients[..0] == [] && clients[1..] == [];
    } else {
      SessionsHead(clients[..n], sessions);
      assert clients[..n][1..] == clients[1..][..n - 1];
      assert clients[1..][n - 1] == clients[n];
    }
  }

  /** Restoring a snapshot rebuilds the store exactly when the store fits. */
  lemma StoreRoundTrip(s: StoreState, b: seq<byte>)
    requires IsSnapshot(s, b)
    ensures DecodeStore(b) == Some(s) <==> StoreFits(s)
  {
    hide DecodeStore, DataFits, SessionsFit, Ascending, AscendingNats, EncodeStore;
    RestoredFits(b);
    if StoreFits(s) {
      var keys, clients :| KeysInOrder(s, keys, clients) && b == EncodeStore(s, keys, clients);
      StoreRestored(s, keys, clients);
    }
  }

  lemma SessionsRestored(data: map<Str, Str>, clients: seq<nat>, sessions: map<nat, Session>)
    requires (forall c :: c in clients <==> c in sessions) && |clients| < U32 && SessionsFit(sessions)
    ensures RestoreSessions(data, ToBytes(|clients|, 4) + EncodeSessions(clients, sessions)) ==
        Some(StoreState(data, sessions))
  {
    hide ReadSessions, ReadUint, SessionsFit, EncodeSessions, Over;
    Widths();
    UintRoundTrip(|clients|, 4, EncodeSessions(clients, sessions));
    SessionsRoundTrip(clients, sessions, map[]);
    OverAll(clients, sessions);
  }

  lemma DataRestored(keys: seq<Str>, data: map<Str, Str>, tail: seq<byte>)
    requires (forall k :: k in keys <==> k in data) && |keys| < U32 && DataFits(data)
    ensures DecodeStore(ToBytes(|keys|, 4) + EncodeData(keys, data) + tail) == RestoreSessions(data, tail)
  {
    hide ReadPairs, ReadUint, DataFits, EncodeData, Over, RestoreSessions, Pow256;
    Widths();
    var d := EncodeData(keys, data);
    assert ToBytes(|keys|, 4) + d + tail == ToBytes(|keys|, 4) + (d + tail);
    UintRoundTrip(|keys|, 4, d + tail);
    PairsRoundTrip(keys, data, map[], tail);
    OverAll(keys, data);
  }

  lemma StoreRestored(s: StoreState, keys: seq<Str>, clients: seq<nat>)
    requires KeysInOrder(s, keys, clients) && StoreFits(s)
    ensures DecodeStore(EncodeStore(s, keys, clients)) == Some(s)
  {
    hide DecodeStore, RestoreSessions, DataFits, SessionsFit, EncodeData, EncodeSessions, Ascending;
    OrderedCount(s, keys, clients);
    var tail := ToBytes(|clients|, 4) + EncodeSessions(clients, s.sessions);
    assert EncodeStore(s, keys, clients) == ToBytes(|keys|, 4) + EncodeData(keys, s.data) + tail;
    DataRestored(keys, s.data, tail);
    SessionsRestored(s.data, clients, s.sessions);
  }

  lemma OrderedCount(s: StoreState, keys: seq<Str>, clients: seq<nat>)
    requires KeysInOrder(s, keys, clients)
    ensures |keys| == |s.data| && |clients| == |s.sessions|
  {
    AscendingCount(keys, s.data.Keys);
    AscendingNatsCount(clients, s.sessions.Keys);
    assert |s.data| == |s.data.Keys| && |s.sessions| == |s.sessions.Keys|;
  }

  // ---- The loops

  /** The store's snapshot, whatever order its maps are walked in. */
  method Snapshot(store: Store) returns (b: seq<byte>)
    ensures IsSnapshot(store.State(), b)
  {
    var keys := SortStrings(store.data.Keys);
    var clients := SortNats(store.sessions.Keys);
    ghost var s := store.State();
    assert KeysInOrder(s, keys, clients);
    b := WriteData(ToBytes(|keys|, 4), keys, store.data);
    b := WriteSessions(b + ToBytes(|clients|, 4), clients, store.sessions);
    assert b == EncodeStore(s, keys, clients);
  }

  method WriteData(head: seq<byte>, keys: seq<Str>, data: map<Str, Str>) returns (b: seq<byte>)
    requires forall k :: k in keys ==> k in data
    ensures b == head + EncodeData(keys, data)
  {
    b := head;
    for i := 0 to |keys|
      invariant b == head + EncodeData(keys[..i], data)
    {
      assert keys[..i + 1][..i] == keys[..i];
      ghost var before := EncodeData(keys[..i], data);
      b := AppendStr(b, keys[i]);
      b := AppendStr(b, data[keys[i]]);
      assert b == head + AppendStr(AppendStr(before, keys[i]), data[keys[i]]);
    }
    assert keys[..|keys|] == keys;
  }

  method WriteSessions(head: seq<byte>, clients: seq<nat>, sessions: map<nat, Session>) returns (b: seq<byte>)
    requires forall c :: c in clients ==> c in sessions
    ensures b == head + EncodeSessions(clients, sessions)
  {
    b := head;
    for i := 0 to |clients|
      invariant b == head + EncodeSessions(clients[..i], sessions)
    {
      assert clients[..i + 1][..i] == clients[..i];
      ghost var before := b;
      var c := clients[i];
      var sess := sessions[c];
      b := b + ToBytes(c, 8);
      b := b + ToBytes(sess.lastSeq, 8);
      if sess.lastResult.ok {
        b := b + [1];
      } else {
        b := b + [0];
      }
      b := AppendStr(b, sess.lastResult.value);
      assert b == before + EncodeSession(c, sess);
    }
    assert clients[..|clients|] == clients;
  }

  /** Fills a new store from a snapshot; None where the original panics. */
  method RestoreStore(b: seq<byte>) returns (store: Option<Store>)
    ensures store.None? <==> DecodeStore(b).None?
    ensures store.Some? ==> fresh(store.value) && DecodeStore(b) == Some(store.value.State())
  {
    hide ReadPairs, ReadSessions;
    var s := new Store();
    if |b| == 0 {
      return Some(s);
    }
    if |b| < 4 {
      return None;
    }
    var d := FillData(FromBytes(b[..4]), b[4..]);
    if d.None? || |d.value.rest| < 4 {
      return None;
    }
    s.data := d.value.value;
    var ss := FillSessions(FromBytes(d.value.rest[..4]), d.value.rest[4..]);
    if ss.None? {
      return None;
    }
    s.sessions := ss.value;
    return Some(s);
  }

  method FillData(n: nat, b: seq<byte>) returns (r: Option<Read<map<Str, Str>>>)
    ensures r == ReadPairs(b, n, map[])
  {
    var rest, data := b, map[];
    for i := 0 to n
      invariant ReadPairs(b, n, map[]) == ReadPairs(rest, n - i, data)
    {
      var k := ReadStr(rest);
      if k.None? {
        return None;
      }
      var v := ReadStr(k.value.rest);
      if v.None? {
        return None;
      }
      rest := v.value.rest;
      data := data[k.value.value := v.value.value];
    }
    return Some(Read(data, rest));
  }

  method FillSessions(n: nat, b: seq<byte>) returns (r: Option<map<nat, Session>>)
    ensures r == ReadSessions(b, n, map[])
  {
    var rest, sessions: map<nat, Session> := b, map[];
    for i := 0 to n
      invariant ReadSessions(b, n, map[]) == ReadSessions(rest, n - i, sessions)
    {
      if |rest| < 17 {
        return None;
      }
      var v := ReadStr(rest[17..]);
      if v.None? {
        return None;
      }
      sessions := sessions[FromBytes(rest[..8]) := Session(FromBytes(rest[8..16]), Result(v.value.value, rest[16] == 1))];
      rest := v.value.rest;
    }
    return Some(sessions);
  }
}
