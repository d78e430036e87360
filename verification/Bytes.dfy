/** Fixed-width big-endian integers. */
module Bytes {
  import opened RaftTypes

  function Pow256(w: nat): (p: nat)
    ensures p >= 1
  {
    if w == 0 then 1 else 256 * Pow256(w - 1)
  }

  /** The low w bytes of n, most significant first. */
  function ToBytes(n: nat, w: nat): (b: seq<byte>)
    ensures |b| == w
  {
    if w == 0 then [] else ToBytes(n / 256, w - 1) + [n % 256]
  }

  function FromBytes(b: seq<byte>): nat {
    if b == [] then 0 else 256 * FromBytes(b[..|b| - 1]) + b[|b| - 1]
  }

  /** Reading back a fixed-width integer gives it modulo its width. */
  lemma {:induction false} FromToBytes(n: nat, w: nat)
    ensures n < Pow256(w) ==> FromBytes(ToBytes(n, w)) == n
  {
    if w > 0 {
      FromToBytes(n / 256, w - 1);
      var b := ToBytes(n, w);
      assert b[..|b| - 1] == ToBytes(n / 256, w - 1);
    }
  }

  /** The first byte has the highest place. */
  lemma {:induction false} MostSignificantFirst(b: seq<byte>)
    requires b != []
    ensures FromBytes(b) == b[0] * Pow256(|b| - 1) + FromBytes(b[1..])
  {
    var n := |b| - 1;
    if n > 0 {
      var p := Pow256(n - 1);
      MostSignificantFirst(b[..n]);
      assert b[..n][1..] == b[1..][..n - 1];
      assert FromBytes(b) == 256 * (b[0] * p + FromBytes(b[1..][..n - 1])) + b[n];
      assert 256 * (b[0] * p) == b[0] * (256 * p);
    }
  }

  const U32: nat := 0x1_0000_0000
  const U64: nat := 0x1_0000_0000_0000_0000

  lemma Widths()
    ensures Pow256(4) == U32
    ensures Pow256(8) == U64
  {
    assert Pow256(2) == 0x1_0000;
    assert Pow256(3) == 0x100_0000;
    assert Pow256(4) == U32;
    assert Pow256(5) == 0x100_0000_0000;
    assert Pow256(6) == 0x1_0000_0000_0000;
    assert Pow256(7) == 0x100_0000_0000_0000;
  }

  lemma RoundTrip32(n: nat)
    requires n < U32
    ensures FromBytes(ToBytes(n, 4)) == n
  {
    Widths();
    FromToBytes(n, 4);
  }

  lemma RoundTrip64(n: nat)
    requires n < U64
    ensures FromBytes(ToBytes(n, 8)) == n
  {
    Widths();
    FromToBytes(n, 8);
  }
}
