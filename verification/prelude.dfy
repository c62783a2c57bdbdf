/** Small vocabulary shared by every part of the gateway model. */
module Prelude {

  datatype Option<+T> = None | Some(value: T)

  /** The largest value of the source's `std::uint64_t` counters. */
  const MAX_UINT64: nat := 0xFFFF_FFFF_FFFF_FFFF

  function Min(a: int, b: int): int {
    if a < b then a else b
  }

  function Max(a: int, b: int): int {
    if a < b then b else a
  }
}
