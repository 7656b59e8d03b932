/** Fixed-width big-endian integers, as every wire format of the host uses them. */
module BigEndian {
  import opened Prelude

  function Pow256(n: nat): (p: nat)
    ensures p > 0
  {
    if n == 0 then 1 else 256 * Pow256(n - 1)
  }

  function Write(n: nat, v: nat): (b: Bytes)
    ensures |b| == n
    decreases n
  {
    if n == 0 then [] else Write(n - 1, v / 256) + [v % 256]
  }

  function Read(b: Bytes): nat
    decreases |b|
  {
    if b == [] then 0 else Read(b[..|b|-1]) * 256 + b[|b|-1]
  }

  lemma {:induction false} ReadWrite(n: nat, v: nat)
    requires v < Pow256(n)
    ensures Read(Write(n, v)) == v
    decreases n
  {
    if n > 0 {
      ReadWrite(n - 1, v / 256);
      assert Write(n, v)[..n-1] == Write(n - 1, v / 256);
    }
  }

  lemma {:induction false} WriteRead(b: Bytes)
    ensures Write(|b|, Read(b)) == b && Read(b) < Pow256(|b|)
    decreases |b|
  {
    if b != [] {
      WriteRead(b[..|b|-1]);
      assert b == b[..|b|-1] + [b[|b|-1]];
    }
  }

  /** The most significant byte comes first. */
  lemma {:induction false} WriteBegins(n: nat, high: byte, low: nat)
    requires n > 0 && low < Pow256(n - 1)
    ensures Write(n, high * Pow256(n - 1) + low) == [high] + Write(n - 1, low)
    decreases n
  {
    var v := high * Pow256(n - 1) + low;
    if n == 1 {
      assert Write(0, v / 256) == [];
    } else {
      Shifted(high, Pow256(n - 2), low);
      WriteBegins(n - 1, high, low / 256);
    }
  }

  lemma Shifted(high: nat, power: nat, low: nat)
    ensures (high * (256 * power) + low) / 256 == high * power + low / 256
    ensures (high * (256 * power) + low) % 256 == low % 256
  {
    assert high * (256 * power) == 256 * (high * power);
  }

  lemma Widths()
    ensures Pow256(2) == U16_MAX + 1 && Pow256(4) == U32_MAX + 1 && Pow256(8) == U64_MAX + 1
  {
    assert Pow256(1) == 256;
    assert Pow256(2) == 0x1_0000;
    assert Pow256(3) == 0x100_0000;
    assert Pow256(4) == 0x1_0000_0000;
    assert Pow256(5) == 0x100_0000_0000;
    assert Pow256(6) == 0x1_0000_0000_0000;
    assert Pow256(7) == 0x100_0000_0000_0000;
  }
}
