/** Saturation of a scalar, for the controller's utility functions
    `clamp_assym(value, upper, lower)` and `clamp(value, limit)`, the symmetric
    case with lower bound `-limit`. The utility library is not part of this
    model; `ClampAsym` tests the upper bound first, as the inline saturation
    in src/input_processing.rs does. */
module Saturation {

  function ClampAsym(value: real, upper: real, lower: real): (r: real)
    ensures lower <= upper ==> lower <= r <= upper
    ensures lower <= value <= upper ==> r == value
    ensures value > upper ==> r == upper
    ensures value <= upper && value < lower ==> r == lower
  {
    if value > upper then upper
    else if value < lower then lower
    else value
  }

  /** Saturating twice is saturating once. */
  lemma ClampAsymIdempotent(value: real, upper: real, lower: real)
    requires lower <= upper
    ensures ClampAsym(ClampAsym(value, upper, lower), upper, lower) == ClampAsym(value, upper, lower)
  {
  }

  function Clamp(value: real, limit: real): (r: real)
    ensures limit >= 0.0 ==> -limit <= r <= limit
    ensures -limit <= value <= limit ==> r == value
    ensures value > limit ==> r == limit
    ensures value <= limit && value < -limit ==> r == -limit
  {
    ClampAsym(value, limit, -limit)
  }
}
