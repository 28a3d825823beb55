/**
 The fixed-width integers of the contract, of the services and of the Postgres columns.
 A value of one of these types is always in range, so every place where the source
 checks, converts or could overflow has to be written out.
 */
module Integers {

  const I128_MAX: int := 0x7FFF_FFFF_FFFF_FFFF_FFFF_FFFF_FFFF_FFFF
  const I128_MIN: int := -I128_MAX - 1
  const I64_MAX: int := 0x7FFF_FFFF_FFFF_FFFF
  const I64_MIN: int := -I64_MAX - 1
  const I32_MAX: int := 0x7FFF_FFFF
  const I32_MIN: int := -I32_MAX - 1
  const U64_MAX: int := 0xFFFF_FFFF_FFFF_FFFF
  const U32_MAX: int := 0xFFFF_FFFF

  type I128 = x: int | I128_MIN <= x <= I128_MAX
  type I64 = x: int | I64_MIN <= x <= I64_MAX
  type I32 = x: int | I32_MIN <= x <= I32_MAX
  type U64 = x: int | 0 <= x <= U64_MAX
  type U32 = x: int | 0 <= x <= U32_MAX

  predicate FitsI128(x: int) {
    I128_MIN <= x <= I128_MAX
  }

  predicate FitsI64(x: int) {
    I64_MIN <= x <= I64_MAX
  }

  function Max(x: int, y: int): int {
    if x < y then y else x
  }
}
