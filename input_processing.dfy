/** The pilot-input feedforward stage: per component, either a velocity
    target tracked within the asymmetric acceleration budget (assist on) or
    pilot input scaling that budget directly (assist off). */
module InputProcessing {
  import opened Shapes
  import opened Saturation
  import opened Utils

  /** The acceleration that reaches the commanded velocity in one tick. */
  function TargetAcceleration(input: real, maxVelocity: real, velocity: real, deltaTime: real): real
    requires deltaTime != 0.0
  {
    (input * maxVelocity - velocity) / deltaTime
  }

  /** True when the vehicle already moves at or beyond the maximum velocity in
      the direction the input pushes. */
  predicate AtVelocityLimit(input: real, maxVelocity: real, velocity: real) {
    (velocity >= maxVelocity && input > 0.0) || (velocity <= -maxVelocity && input < 0.0)
  }

  function PilotInputToAcceleration(assistEnabled: bool, input: real, maxVelocity: real, velocity: real,
                                    available: AxisContribution<real>, deltaTime: real): (r: real)
    requires assistEnabled ==> deltaTime != 0.0
    // assist on: the target, saturated to [-negative, +positive]
    ensures assistEnabled && NonNegative(available) ==> -available.negative <= r <= available.positive
    ensures assistEnabled && -available.negative <= TargetAcceleration(input, maxVelocity, velocity, deltaTime) <= available.positive ==>
              r == TargetAcceleration(input, maxVelocity, velocity, deltaTime)
    ensures assistEnabled && TargetAcceleration(input, maxVelocity, velocity, deltaTime) > available.positive ==>
              r == available.positive
    ensures assistEnabled && TargetAcceleration(input, maxVelocity, velocity, deltaTime) <= available.positive &&
            TargetAcceleration(input, maxVelocity, velocity, deltaTime) < -available.negative ==>
              r == -available.negative
    // assist off: nothing past the velocity limit, otherwise input scales the budget side it points to
    ensures !assistEnabled && AtVelocityLimit(input, maxVelocity, velocity) ==> r == 0.0
    ensures !assistEnabled && !AtVelocityLimit(input, maxVelocity, velocity) ==>
              r == MultiplyCompareZero(input, available.positive, available.negative)
    ensures !assistEnabled && input == 0.0 ==> r == 0.0
    ensures !assistEnabled && -1.0 <= input <= 1.0 && NonNegative(available) ==>
              -available.negative <= r <= available.positive
  {
    if assistEnabled then
      ClampAsym(TargetAcceleration(input, maxVelocity, velocity, deltaTime), available.positive, -available.negative)
    else if AtVelocityLimit(input, maxVelocity, velocity) then
      0.0
    else if input > 0.0 then
      input * available.positive
    else if input < 0.0 then
      input * available.negative
    else
      0.0
  }

  /** With assist on and the vehicle at rest, a pilot input pushes the
      command the same way, as long as the budget on that side is positive. */
  lemma AssistedCommandFollowsInputSign(input: real, maxVelocity: real, available: AxisContribution<real>, deltaTime: real)
    requires maxVelocity > 0.0 && deltaTime > 0.0
    ensures input > 0.0 && available.positive > 0.0 ==>
              PilotInputToAcceleration(true, input, maxVelocity, 0.0, available, deltaTime) > 0.0
    ensures input < 0.0 && available.negative > 0.0 ==>
              PilotInputToAcceleration(true, input, maxVelocity, 0.0, available, deltaTime) < 0.0
  {
    var target := TargetAcceleration(input, maxVelocity, 0.0, deltaTime);
    if input > 0.0 {
      assert input * maxVelocity > 0.0;
      assert target > 0.0;
    } else if input < 0.0 {
      assert input * maxVelocity < 0.0;
      assert target < 0.0;
    }
  }

  /** Which assist toggle governs the components of group a. */
  function AssistFor(a: Axis, linearAssist: bool, rotationalAssist: bool): bool {
    if a == Linear then linearAssist else rotationalAssist
  }

  function ProcessPilotInput(input: Signal, linearAssist: bool, rotationalAssist: bool, maxVelocity: Signal,
                             velocity: Signal, available: Budget, deltaTime: real): Signal
    requires (linearAssist || rotationalAssist) ==> deltaTime != 0.0
  {
    ControlAxis(
      Dimension3(
        PilotInputToAcceleration(linearAssist, input.linear.x, maxVelocity.linear.x, velocity.linear.x, available.linear.x, deltaTime),
        PilotInputToAcceleration(linearAssist, input.linear.y, maxVelocity.linear.y, velocity.linear.y, available.linear.y, deltaTime),
        PilotInputToAcceleration(linearAssist, input.linear.z, maxVelocity.linear.z, velocity.linear.z, available.linear.z, deltaTime)),
      Dimension3(
        PilotInputToAcceleration(rotationalAssist, input.rotational.x, maxVelocity.rotational.x, velocity.rotational.x, available.rotational.x, deltaTime),
        PilotInputToAcceleration(rotationalAssist, input.rotational.y, maxVelocity.rotational.y, velocity.rotational.y, available.rotational.y, deltaTime),
        PilotInputToAcceleration(rotationalAssist, input.rotational.z, maxVelocity.rotational.z, velocity.rotational.z, available.rotational.z, deltaTime)))
  }

  /** Each of the six outputs is the scalar law applied to the same component
      of every input, under the toggle of its own group. */
  lemma ProcessPilotInputComponentwise(input: Signal, linearAssist: bool, rotationalAssist: bool, maxVelocity: Signal,
                                       velocity: Signal, available: Budget, deltaTime: real)
    requires (linearAssist || rotationalAssist) ==> deltaTime != 0.0
    ensures forall a, k ::
              At(ProcessPilotInput(input, linearAssist, rotationalAssist, maxVelocity, velocity, available, deltaTime), a, k)
              == PilotInputToAcceleration(AssistFor(a, linearAssist, rotationalAssist), At(input, a, k),
                                          At(maxVelocity, a, k), At(velocity, a, k), At(available, a, k), deltaTime)
  {
  }

  /** The linear toggle does not affect rotational outputs, nor the rotational
      toggle linear outputs. */
  lemma AssistTogglesAreIndependent(input: Signal, linearAssist: bool, rotationalAssist: bool, maxVelocity: Signal,
                                    velocity: Signal, available: Budget, deltaTime: real)
    requires deltaTime != 0.0
    ensures ProcessPilotInput(input, linearAssist, rotationalAssist, maxVelocity, velocity, available, deltaTime).linear
            == ProcessPilotInput(input, linearAssist, !rotationalAssist, maxVelocity, velocity, available, deltaTime).linear
    ensures ProcessPilotInput(input, linearAssist, rotationalAssist, maxVelocity, velocity, available, deltaTime).rotational
            == ProcessPilotInput(input, !linearAssist, rotationalAssist, maxVelocity, velocity, available, deltaTime).rotational
  {
  }

  /** With a non-negative budget and inputs in [-1, 1], every output lies in
      the budget of its own component, whichever the assist modes. */
  lemma ProcessPilotInputWithinBudget(input: Signal, linearAssist: bool, rotationalAssist: bool, maxVelocity: Signal,
                                      velocity: Signal, available: Budget, deltaTime: real)
    requires (linearAssist || rotationalAssist) ==> deltaTime != 0.0
    requires BudgetNonNegative(available)
    requires forall a, k :: -1.0 <= At(input, a, k) <= 1.0
    ensures var r := ProcessPilotInput(input, linearAssist, rotationalAssist, maxVelocity, velocity, available, deltaTime);
            forall a, k :: -At(available, a, k).negative <= At(r, a, k) <= At(available, a, k).positive
  {
    ProcessPilotInputComponentwise(input, linearAssist, rotationalAssist, maxVelocity, velocity, available, deltaTime);
  }

  /** Full deflection from rest, with maximum velocity 50, a unit budget and a
      one-second tick, commands a unit acceleration in every component, in
      both assist modes. */
  lemma FullDeflectionFromRest(assist: bool, sign: real)
    requires sign == 1.0 || sign == -1.0
    ensures ProcessPilotInput(ControlAxis(Uniform(sign), Uniform(sign)), assist, assist,
                              ControlAxis(Uniform(50.0), Uniform(50.0)), ZeroSignal(),
                              ControlAxis(Uniform(AxisContribution(1.0, 1.0)), Uniform(AxisContribution(1.0, 1.0))), 1.0)
            == ControlAxis(Uniform(sign), Uniform(sign))
  {
  }

  /** Zero input from rest commands nothing, with or without assist. */
  lemma ZeroInputFromRest(assist: bool, maxVelocity: real, available: AxisContribution<real>, deltaTime: real)
    requires deltaTime != 0.0 && NonNegative(available)
    ensures PilotInputToAcceleration(assist, 0.0, maxVelocity, 0.0, available, deltaTime) == 0.0
  {
  }

  /** The non-negative budget is needed above: with assist on, a negative
      positive side is itself the bound zero input is saturated to. */
  lemma ZeroInputWithNegativeBudget(maxVelocity: real, deltaTime: real)
    requires deltaTime != 0.0
    ensures PilotInputToAcceleration(true, 0.0, maxVelocity, 0.0, AxisContribution(-1.0, 1.0), deltaTime) == -1.0
  {
  }

  /** While moving with assist on, zero input is the braking command
      -velocity / deltaTime saturated to the budget, so a zero braking side
      still gives 0. */
  lemma ZeroInputWhileMoving(maxVelocity: real, velocity: real, available: AxisContribution<real>, deltaTime: real)
    requires deltaTime != 0.0
    ensures PilotInputToAcceleration(true, 0.0, maxVelocity, velocity, available, deltaTime) ==
              ClampAsym(-velocity / deltaTime, available.positive, -available.negative)
    // a braking command for a positive time step and a non-negative budget
    ensures deltaTime > 0.0 && NonNegative(available) && velocity > 0.0 ==>
              PilotInputToAcceleration(true, 0.0, maxVelocity, velocity, available, deltaTime) <= 0.0
    ensures deltaTime > 0.0 && NonNegative(available) && velocity < 0.0 ==>
              PilotInputToAcceleration(true, 0.0, maxVelocity, velocity, available, deltaTime) >= 0.0
  {
    assert TargetAcceleration(0.0, maxVelocity, velocity, deltaTime) == -velocity / deltaTime;
  }
}
