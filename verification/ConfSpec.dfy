/** The configuration history kept beside the log, and the configuration codec. */
module ConfSpec {
  import opened RaftTypes
  import opened Bytes

  function EncodeVoters(vs: seq<nat>): (b: seq<byte>)
    ensures |b| == 8 * |vs|
  {
    if vs == [] then [] else EncodeVoters(vs[..|vs| - 1]) + ToBytes(vs[|vs| - 1], 8)
  }

  function EncodeConfig(c: Config): seq<byte> {
    ToBytes(|c.voters|, 4) + EncodeVoters(c.voters)
  }

  /** None where the bytes are too short, which the original answers with a slice panic. */
  function DecodeConfig(b: seq<byte>): Option<Config> {
    if |b| < 4 then None
    else
      var n := FromBytes(b[..4]);
      if |b| < 4 + 8 * n then None
      else Some(Config(seq(n, i requires 0 <= i < n => FromBytes(b[4 + 8 * i..4 + 8 * i + 8]))))
  }

  /** Every configuration of 64-bit identifiers survives encoding. */
  lemma ConfigRoundTrip(c: Config)
    requires |c.voters| < U32
    requires forall k :: 0 <= k < |c.voters| ==> c.voters[k] < U64
    ensures DecodeConfig(EncodeConfig(c)) == Some(c)
  {
    var b := EncodeConfig(c);
    var n := |c.voters|;
    RoundTrip32(n);
    assert b[..4] == ToBytes(n, 4);
    forall k | 0 <= k < n ensures FromBytes(b[4 + 8 * k..4 + 8 * k + 8]) == c.voters[k] {
      EncodedVoterAt(c.voters, k);
      assert b[4 + 8 * k..4 + 8 * k + 8] == EncodeVoters(c.voters)[8 * k..8 * k + 8];
      RoundTrip64(c.voters[k]);
    }
    assert DecodeConfig(b).value.voters == c.voters;
  }

  lemma {:induction false} EncodedVoterAt(vs: seq<nat>, k: nat)
    requires k < |vs|
    ensures EncodeVoters(vs)[8 * k..8 * k + 8] == ToBytes(vs[k], 8)
  {
    var n := |vs|;
    var init := vs[..n - 1];
    var b := EncodeVoters(vs);
    assert b == EncodeVoters(init) + ToBytes(vs[n - 1], 8);
    if k < n - 1 {
      EncodedVoterAt(init, k);
      assert b[8 * k..8 * k + 8] == EncodeVoters(init)[8 * k..8 * k + 8];
    } else {
      assert b[8 * k..8 * k + 8] == ToBytes(vs[n - 1], 8);
    }
  }

  /** A configuration and the log index from which it holds. */
  datatype ConfRecord = ConfRecord(index: nat, cfg: Config)

  type History = h: seq<ConfRecord> | |h| > 0 witness [ConfRecord(0, Config([]))]

  datatype ConfState = ConfState(config: Config, index: nat, history: History)

  function InitConf(index: nat, base: Config): ConfState {
    ConfState(base, index, [ConfRecord(index, base)])
  }

  function PushConf(c: ConfState, index: nat, cfg: Config): ConfState {
    ConfState(cfg, index, c.history + [ConfRecord(index, cfg)])
  }

  /** Drops trailing records at or above index i, always keeping one. */
  function PopFrom(h: History, i: nat): History
    decreases |h|
  {
    if |h| > 1 && h[|h| - 1].index >= i then PopFrom(h[..|h| - 1], i) else h
  }

  function TruncateConf(c: ConfState, i: nat): ConfState {
    var h := PopFrom(c.history, i);
    ConfState(h[|h| - 1].cfg, h[|h| - 1].index, h)
  }

  /** The configuration in force at index i: that of the last record at or below i. */
  function ConfigAt(h: History, i: nat): Config
    decreases |h|
  {
    if |h| == 1 || h[|h| - 1].index <= i then h[|h| - 1].cfg else ConfigAt(h[..|h| - 1], i)
  }

  /** Drops leading records that a later record at or below i overrides. */
  function Prune(h: History, i: nat): History
    decreases |h|
  {
    if |h| > 1 && h[1].index <= i then Prune(h[1..], i) else h
  }

  function PruneConf(c: ConfState, i: nat): ConfState {
    c.(history := Prune(c.history, i))
  }
}
