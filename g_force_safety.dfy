/** G-force safety: each component of the combined command is saturated on
    its own to the pilot's limits, [-negative limit, +positive limit]. The
    negative limits are stored as magnitudes and negated here. */
module GForceSafety {
  import opened Shapes
  import opened Saturation

  /** The limits the pilot set: one signal of positive magnitudes, one of negative. */
  type Limits = AxisContribution<Signal>

  /** Every component's range is non-empty. */
  predicate LimitsConsistent(limits: Limits) {
    forall a, k :: -At(limits.negative, a, k) <= At(limits.positive, a, k)
  }

  function LimitComponent(value: real, limits: Limits, a: Axis, k: Dim): real {
    ClampAsym(value, At(limits.positive, a, k), -At(limits.negative, a, k))
  }

  /** Returns a new command; the one passed in is left as it is. */
  function Process(desired: Signal, limits: Limits): Signal {
    ControlAxis(
      Dimension3(
        ClampAsym(desired.linear.x, limits.positive.linear.x, -limits.negative.linear.x),
        ClampAsym(desired.linear.y, limits.positive.linear.y, -limits.negative.linear.y),
        ClampAsym(desired.linear.z, limits.positive.linear.z, -limits.negative.linear.z)),
      Dimension3(
        ClampAsym(desired.rotational.x, limits.positive.rotational.x, -limits.negative.rotational.x),
        ClampAsym(desired.rotational.y, limits.positive.rotational.y, -limits.negative.rotational.y),
        ClampAsym(desired.rotational.z, limits.positive.rotational.z, -limits.negative.rotational.z)))
  }

  /** Each component is saturated on its own: output (a, k) depends only on
      input (a, k) and the limits of (a, k); no magnitude of the whole vector
      is involved. */
  lemma ProcessComponentwise(desired: Signal, limits: Limits)
    ensures forall a, k :: At(Process(desired, limits), a, k) == LimitComponent(At(desired, a, k), limits, a, k)
  {
  }

  /** With consistent limits every output lies within its component's limits;
      a value above the positive limit becomes exactly that limit, one below
      the negated negative limit exactly that bound. */
  lemma ProcessRespectsLimits(desired: Signal, limits: Limits)
    requires LimitsConsistent(limits)
    ensures var r := Process(desired, limits);
            forall a, k :: -At(limits.negative, a, k) <= At(r, a, k) <= At(limits.positive, a, k)
    ensures var r := Process(desired, limits);
            forall a, k :: At(desired, a, k) > At(limits.positive, a, k) ==> At(r, a, k) == At(limits.positive, a, k)
    ensures var r := Process(desired, limits);
            forall a, k :: At(desired, a, k) < -At(limits.negative, a, k) ==> At(r, a, k) == -At(limits.negative, a, k)
  {
    ProcessComponentwise(desired, limits);
  }

  /** A command already within the limits passes through unchanged. */
  lemma ProcessPassesWithinLimits(desired: Signal, limits: Limits)
    requires forall a, k :: -At(limits.negative, a, k) <= At(desired, a, k) <= At(limits.positive, a, k)
    ensures Process(desired, limits) == desired
  {
    ProcessComponentwise(desired, limits);
    var r := Process(desired, limits);
    assert r.linear.x == At(r, Linear, X) == At(desired, Linear, X);
    assert r.linear.y == At(r, Linear, Y) == At(desired, Linear, Y);
    assert r.linear.z == At(r, Linear, Z) == At(desired, Linear, Z);
    assert r.rotational.x == At(r, Rotational, X) == At(desired, Rotational, X);
    assert r.rotational.y == At(r, Rotational, Y) == At(desired, Rotational, Y);
    assert r.rotational.z == At(r, Rotational, Z) == At(desired, Rotational, Z);
  }

  /** Applying the safety clamp twice is applying it once. */
  lemma ProcessIdempotent(desired: Signal, limits: Limits)
    requires LimitsConsistent(limits)
    ensures Process(Process(desired, limits), limits) == Process(desired, limits)
  {
    ProcessRespectsLimits(desired, limits);
    ProcessPassesWithinLimits(Process(desired, limits), limits);
  }

  /** 55 against limits of 50 becomes 50, and -55 becomes -50. */
  lemma ProcessExample()
    ensures var limits := AxisContribution(ControlAxis(Uniform(50.0), Uniform(50.0)), ControlAxis(Uniform(50.0), Uniform(50.0)));
            Process(ControlAxis(Dimension3(55.0, -55.0, 0.0), Uniform(0.0)), limits) ==
              ControlAxis(Dimension3(50.0, -50.0, 0.0), Uniform(0.0))
  {
  }
}
