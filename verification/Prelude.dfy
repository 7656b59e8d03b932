/** Wrappers and fixed-width number types shared by the models. */
module Prelude {

  datatype Option<+T> = None | Some(value: T)

  datatype Result<+T, +E> = Ok(value: T) | Err(error: E)

  const U16_MAX: int := 0xFFFF
  const U32_MAX: int := 0xFFFF_FFFF
  const U64_MAX: int := 0xFFFF_FFFF_FFFF_FFFF
  const I64_MAX: int := 0x7FFF_FFFF_FFFF_FFFF

  /** The bound on a configuration document's text. */
  const MAX_CONFIG_BYTES: nat := 64 * 1024

  type byte = x: int | 0 <= x < 256
  type u16 = x: int | 0 <= x <= U16_MAX
  type u32 = x: int | 0 <= x <= U32_MAX
  type u64 = x: int | 0 <= x <= U64_MAX

  type Bytes = seq<byte>

  function Min(a: int, b: int): int {
    if a <= b then a else b
  }

  function Max(a: int, b: int): int {
    if a <= b then b else a
  }

  function SaturatingAdd(a: u64, b: nat): u64 {
    if a + b > U64_MAX then U64_MAX else a + b
  }

  lemma SliceSplits<T>(data: seq<T>, at: nat, a: seq<T>, b: seq<T>)
    requires at <= |data| && data[at..] == a + b
    ensures at + |a| <= |data| && data[at..at + |a|] == a && data[at + |a|..] == b
  {
    assert |data| == at + |a| + |b|;
    forall m | 0 <= m < |a| ensures data[at + m] == a[m] { assert data[at..][m] == (a + b)[m]; }
    forall m | 0 <= m < |b| ensures data[at + |a| + m] == b[m] { assert data[at..][|a| + m] == (a + b)[|a| + m]; }
  }
}
