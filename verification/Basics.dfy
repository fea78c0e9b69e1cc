/** Machine integers, byte strings and the failure type shared by every module. */
module Basics {

  const U32_LIMIT: int := 0x1_0000_0000
  const U64_LIMIT: int := 0x1_0000_0000_0000_0000
  const I32_MAX: int := 0x7fff_ffff
  const I64_MAX: int := 0x7fff_ffff_ffff_ffff
  const I64_MIN: int := -0x8000_0000_0000_0000

  type u8 = x: int | 0 <= x < 256
  type u32 = x: int | 0 <= x < U32_LIMIT
  type u64 = x: int | 0 <= x < U64_LIMIT
  type i64 = x: int | I64_MIN <= x <= I64_MAX

  type Bytes = seq<u8>

  /** A 256-bit hash, in the byte order the source stores it in. */
  type Hash = b: Bytes | |b| == 32
    witness [0, 0, 0, 0, 0, 0, 0, 0, 0, 0, 0, 0, 0, 0, 0, 0, 0, 0, 0, 0, 0, 0, 0, 0, 0, 0, 0, 0, 0, 0, 0, 0]

  const ZERO_HASH: Hash :=
    [0, 0, 0, 0, 0, 0, 0, 0, 0, 0, 0, 0, 0, 0, 0, 0, 0, 0, 0, 0, 0, 0, 0, 0, 0, 0, 0, 0, 0, 0, 0, 0]

  datatype Option<+T> = None | Some(value: T)

  datatype OutPoint = OutPoint(hash: Hash, index: u32)

  const COIN: int := 100_000_000

  predicate InI64(x: int) {
    I64_MIN <= x <= I64_MAX
  }

  function Min(a: nat, b: nat): (m: nat) { if a < b then a else b }

  function SaturatingAdd(a: nat, b: nat, max: nat): (s: nat)
    ensures s <= max && (a <= max ==> a <= s)
  {
    if a + b <= max then a + b else max
  }
}
