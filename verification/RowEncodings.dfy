/**
 How the services turn 64-bit program ids and PR numbers, points and amounts into Postgres
 columns and back. `as` between integers of one width keeps the bits.
 */
module RowEncodings {
  import opened Containers
  import opened Integers

  /** `i64::try_from(n).unwrap_or(i64::MAX)` */
  function ClampU64(n: U64): I64 {
    if n <= I64_MAX then n else I64_MAX
  }

  /** `i64::try_from(n)` */
  function TryI64(n: int): Option<I64> {
    if FitsI64(n) then Some(n) else None
  }

  /** `i as u64` */
  function AsU64(i: I64): U64 {
    if 0 <= i then i else i + U64_MAX + 1
  }

  /** `i32::try_from(points).unwrap_or(1)` */
  function PointsColumn(points: U32): I32 {
    if points <= I32_MAX then points else 1
  }

  /** `i as u32` */
  function AsU32(i: I32): U32 {
    if 0 <= i then i else i + U32_MAX + 1
  }

  /** The product `i128::from(points) * reward_per_point`, computed without a check. */
  function RewardAmount(points: U32, ratio: I64): int {
    points * ratio
  }

  /** Reading a clamped id back gives the id exactly for ids a BIGINT can hold. */
  lemma IdRoundTrip(n: U64)
    ensures AsU64(ClampU64(n)) == n <==> n <= I64_MAX
    ensures TryI64(n).Some? <==> n <= I64_MAX
    ensures TryI64(n).Some? ==> AsU64(TryI64(n).value) == n
    ensures n > I64_MAX ==> AsU64(ClampU64(n)) == I64_MAX
  {
  }

  lemma PointsRoundTrip(points: U32)
    ensures AsU32(PointsColumn(points)) == points <==> points <= I32_MAX
    ensures points > I32_MAX ==> AsU32(PointsColumn(points)) == 1
  {
  }

  /** Reading a signed column as unsigned keeps the bits: the values are equal modulo the width. */
  lemma CastsKeepBits(i: I64, j: I32)
    ensures AsU64(i) == i % (U64_MAX + 1) && AsU32(j) == j % (U32_MAX + 1)
  {
  }

  lemma AsU64Injective(i: I64, j: I64)
    requires AsU64(i) == AsU64(j)
    ensures i == j
  {
  }

  /** The unchecked product fits `i128` for any points and ratio, and an `i64` for one point. */
  lemma RewardFits(points: U32, ratio: I64)
    ensures FitsI128(RewardAmount(points, ratio))
    ensures points == 1 ==> TryI64(RewardAmount(points, ratio)) == Some(ratio)
  {
    assert -U32_MAX * (I64_MAX + 1) <= points * ratio <= U32_MAX * (I64_MAX + 1) by {
      ProductBounds(points, ratio, U32_MAX, I64_MAX + 1);
    }
  }

  lemma ProductBounds(x: int, y: int, a: int, b: int)
    requires 0 <= x <= a && 0 <= b && -b <= y <= b
    ensures -a * b <= x * y <= a * b
  {
    assert x * y <= x * b <= a * b by { assert x * (b - y) >= 0 && (a - x) * b >= 0; }
    assert x * y >= x * -b >= -a * b by { assert x * (y + b) >= 0 && (a - x) * b >= 0; }
  }
}
