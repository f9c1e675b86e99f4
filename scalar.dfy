/**
 * Scalar helpers of the math library: `clamp`.
 * Floats are modelled by exact reals.
 */
module Scalar {

  /** Clamps `num` to `[min, max]`: below `min` gives `min`, above `max` gives `max`,
      anything else comes back unchanged. The lower bound is tested first, so when
      `min > max` a value below `min` still yields `min`. */
  function Clamp(num: real, min: real, max: real): (r: real)
    ensures min <= max ==> min <= r <= max
    ensures min <= num <= max ==> r == num
    ensures num < min ==> r == min
    ensures min <= num && max < num ==> r == max
  {
    if num < min then min
    else if num > max then max
    else num
  }

  /** Clamping is idempotent on a well-formed range. */
  lemma ClampIdempotent(num: real, min: real, max: real)
    requires min <= max
    ensures Clamp(Clamp(num, min, max), min, max) == Clamp(num, min, max)
  {
  }

  /** Clamping preserves order: it is a monotone map. */
  lemma ClampMonotone(a: real, b: real, min: real, max: real)
    requires min <= max && a <= b
    ensures Clamp(a, min, max) <= Clamp(b, min, max)
  {
  }
}
