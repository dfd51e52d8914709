/** The program's unsigned 64-bit integers, and the saturating arithmetic it does on them. */
module Numbers {

  const U64_MAX: int := 0xFFFF_FFFF_FFFF_FFFF

  type u64 = n: int | 0 <= n <= U64_MAX

  type u16 = n: int | 0 <= n <= 0xFFFF

  /** An instant on the host's clock, in milliseconds. */
  type Millis = u64

  function Min(a: int, b: int): int {
    if a <= b then a else b
  }

  function Max(a: int, b: int): int {
    if a <= b then b else a
  }

  /** A wide intermediate brought back to 64 bits. */
  function Saturate(n: nat): u64 {
    if n <= U64_MAX then n else U64_MAX
  }

  function SatAdd(a: u64, b: u64): u64 {
    Saturate(a + b)
  }

  function SatSub(a: u64, b: u64): u64 {
    if a <= b then 0 else a - b
  }
}

module Wrappers {
  datatype Option<+T> = None | Some(value: T)

  datatype Result<+T, +E> = Ok(value: T) | Err(error: E)
}
