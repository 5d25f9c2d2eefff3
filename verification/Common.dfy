/** Vocabulary shared by every component: an optional value and machine-integer ranges. */
module Common {

  datatype Option<+T> = None | Some(value: T)

  /** How an operation on the file system ends: done, failed without effect, or failed after taking effect. */
  datatype Fate = Works | Fails | Late

  const U32_MAX: int := 0xFFFF_FFFF
  const U64_MAX: int := 0xFFFF_FFFF_FFFF_FFFF
  const I64_MAX: int := 0x7FFF_FFFF_FFFF_FFFF
  const I128_MIN: int := -0x8000_0000_0000_0000_0000_0000_0000_0000
  const I128_MAX: int := 0x7FFF_FFFF_FFFF_FFFF_FFFF_FFFF_FFFF_FFFF

  /** The values of Rust's `u32`, `u64` and `i128`; every arithmetic step says itself how it overflows. */
  type U32 = x: int | 0 <= x <= U32_MAX
  type U64 = x: int | 0 <= x <= U64_MAX
  type I128 = x: int | I128_MIN <= x <= I128_MAX

  predicate FitsI128(x: int) {
    I128_MIN <= x <= I128_MAX
  }

  /** An `i128` `checked_*` result: the exact value when it fits, nothing otherwise. */
  function CheckedI128(x: int): Option<I128> {
    if FitsI128(x) then Some(x) else None
  }

  function Abs(x: int): nat {
    if x < 0 then -x else x
  }
}
