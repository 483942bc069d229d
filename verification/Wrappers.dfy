/** Optional values shared by every module of the model. */
module Wrappers {
  datatype Option<+T> = None | Some(value: T)

  /** The largest value of the 64-bit counters (generations, epochs, identifiers). */
  const MAX_UINT64: nat := 0xffff_ffff_ffff_ffff

  function Min(a: int, b: int): int { if a < b then a else b }

  function Max(a: int, b: int): int { if a < b then b else a }
}
