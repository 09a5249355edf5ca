/** Bytes, the unsigned number a run of them spells in little-endian order, and the run that spells a number. */
module Octets {

  type Byte = b: int | 0 <= b < 256

  type Bytes = seq<Byte>

  const MAX_U64 := 0x1_0000_0000_0000_0000

  function Unsigned(bytes: Bytes): nat {
    if bytes == [] then 0 else bytes[0] + 256 * Unsigned(bytes[1..])
  }

  function Pow256(k: nat): (p: nat)
    ensures p > 0
  {
    if k == 0 then 1 else 256 * Pow256(k - 1)
  }

  function LittleEndian(n: nat, size: nat): (bytes: Bytes)
    ensures |bytes| == size
  {
    if size == 0 then [] else [n % 256] + LittleEndian(n / 256, size - 1)
  }

  lemma {:induction false} UnsignedRoundTrip(n: nat, size: nat)
    requires n < Pow256(size)
    ensures Unsigned(LittleEndian(n, size)) == n
  {
    if size > 0 {
      UnsignedRoundTrip(n / 256, size - 1);
      var bytes := LittleEndian(n, size);
      assert bytes[1..] == LittleEndian(n / 256, size - 1);
    }
  }

  lemma Powers()
    ensures Pow256(1) == 256 && Pow256(2) == 65536 && Pow256(4) == 0x1_0000_0000 && Pow256(8) == MAX_U64
  {
    assert Pow256(2) == 256 * Pow256(1);
    assert Pow256(3) == 256 * Pow256(2);
    assert Pow256(4) == 256 * Pow256(3);
    assert Pow256(5) == 256 * Pow256(4);
    assert Pow256(6) == 256 * Pow256(5);
    assert Pow256(7) == 256 * Pow256(6);
  }
}
