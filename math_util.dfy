/** `util.MathUtil.clamp` for Java `int` and `long`. */
module MathUtil {
  import opened Base

  function Dist(a: int, b: int): nat {
    if a <= b then b - a else a - b
  }

  /** `clamp(int val, int min, int max)`: the point of [min, max] nearest to `val`. */
  function ClampInt(val: int32, min: int32, max: int32): (r: int32)
    ensures min <= max ==> min <= r <= max
    ensures min <= val <= max ==> r == val
    ensures min <= max ==> forall y: int {:trigger Dist(y, val as int)} :: min as int <= y <= max as int ==> Dist(r as int, val as int) <= Dist(y, val as int)
  {
    if val < min then min else if val > max then max else val
  }

  /** `clamp(long val, long min, long max)`, the same conditional on 64-bit values. */
  function ClampLong(val: int64, min: int64, max: int64): (r: int64)
    ensures min <= max ==> min <= r <= max
    ensures min <= val <= max ==> r == val
    ensures min <= max ==> forall y: int {:trigger Dist(y, val as int)} :: min as int <= y <= max as int ==> Dist(r as int, val as int) <= Dist(y, val as int)
  {
    if val < min then min else if val > max then max else val
  }

  /** With ordered bounds, clamping twice is clamping once. */
  lemma ClampIntIdempotent(val: int32, min: int32, max: int32)
    requires min <= max
    ensures ClampInt(ClampInt(val, min, max), min, max) == ClampInt(val, min, max)
  {
  }

  lemma ClampLongIdempotent(val: int64, min: int64, max: int64)
    requires min <= max
    ensures ClampLong(ClampLong(val, min, max), min, max) == ClampLong(val, min, max)
  {
  }

  /** With crossed bounds the below-min test wins: the result is `min` below `min`, else `max`. */
  lemma ClampIntCrossed(val: int32, min: int32, max: int32)
    requires min > max
    ensures ClampInt(val, min, max) == if val < min then min else max
  {
  }

  lemma ClampLongCrossed(val: int64, min: int64, max: int64)
    requires min > max
    ensures ClampLong(val, min, max) == if val < min then min else max
  {
  }

  /** With crossed bounds clamping is not idempotent: clamp(0, 2, 1) is 2 but clamp(2, 2, 1) is 1. */
  lemma ClampIntCrossedNotIdempotent()
    ensures ClampInt(0, 2, 1) == 2 && ClampInt(ClampInt(0, 2, 1), 2, 1) == 1
  {
  }
}
