/** The controller's error type and its sign-dependent scaler. */
module Utils {

  /** The one failure the core reports: a thruster too large for its mount point. */
  datatype FcsError = ThrusterTooLarge

  datatype Option<T> = None | Some(value: T)

  datatype Result<T> = Ok(value: T) | Err(error: FcsError)

  /** Scales a positive input by `highMultiplier`, a negative one by
      `lowMultiplier`, and maps zero to zero whatever the multipliers. */
  function MultiplyCompareZero(input: real, highMultiplier: real, lowMultiplier: real): (r: real)
    ensures input == 0.0 ==> r == 0.0
    ensures highMultiplier >= 0.0 && lowMultiplier >= 0.0 ==>
              (input > 0.0 ==> r >= 0.0) && (input < 0.0 ==> r <= 0.0)
    ensures -1.0 <= input <= 1.0 && highMultiplier >= 0.0 && lowMultiplier >= 0.0 ==>
              -lowMultiplier <= r <= highMultiplier
  {
    if input > 0.0 then
      FractionOfMagnitude(input, highMultiplier);
      input * highMultiplier
    else if input < 0.0 then
      NegativeFractionOfMagnitude(input, lowMultiplier);
      input * lowMultiplier
    else 0.0
  }

  /** A fraction in [0, 1] of a magnitude lies between zero and that magnitude. */
  lemma FractionOfMagnitude(fraction: real, magnitude: real)
    ensures 0.0 <= fraction && magnitude >= 0.0 ==> 0.0 <= fraction * magnitude
    ensures fraction <= 1.0 && magnitude >= 0.0 ==> fraction * magnitude <= magnitude
  {
    assert magnitude - fraction * magnitude == (1.0 - fraction) * magnitude;
  }

  /** A fraction in [-1, 0] of a magnitude lies between minus that magnitude and zero. */
  lemma NegativeFractionOfMagnitude(fraction: real, magnitude: real)
    ensures fraction <= 0.0 && magnitude >= 0.0 ==> fraction * magnitude <= 0.0
    ensures -1.0 <= fraction && magnitude >= 0.0 ==> -magnitude <= fraction * magnitude
  {
    assert fraction * magnitude + magnitude == (fraction + 1.0) * magnitude;
  }

  /** The value of the scaler: a positive input times `highMultiplier`, a
      negative one times `lowMultiplier`. */
  lemma MultiplyCompareZeroScales(input: real, highMultiplier: real, lowMultiplier: real)
    ensures input > 0.0 ==> MultiplyCompareZero(input, highMultiplier, lowMultiplier) == input * highMultiplier
    ensures input < 0.0 ==> MultiplyCompareZero(input, highMultiplier, lowMultiplier) == input * lowMultiplier
  {
  }
}
