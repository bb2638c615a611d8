/** The flight-assist feedforward controller: with assist on, a component
    tracks the velocity the input asks for, its acceleration saturated
    symmetrically; with assist off, the raw input passes through unless the
    vehicle is already at the maximum velocity in the input's direction. */
module FeedforwardController {
  import opened Shapes
  import opened Saturation

  /** The acceleration that closes the velocity error in one tick, saturated
      to [-clampValue, clampValue]. */
  function VelocityControl(desiredVelocity: real, velocity: real, deltaTime: real, clampValue: real): (r: real)
    requires deltaTime != 0.0
    ensures clampValue >= 0.0 ==> -clampValue <= r <= clampValue
    ensures -clampValue <= (desiredVelocity - velocity) / deltaTime <= clampValue ==>
              r == (desiredVelocity - velocity) / deltaTime
    ensures (desiredVelocity - velocity) / deltaTime > clampValue ==> r == clampValue
    ensures (desiredVelocity - velocity) / deltaTime <= clampValue &&
            (desiredVelocity - velocity) / deltaTime < -clampValue ==>
              r == -clampValue
  {
    var deltaVelocity := desiredVelocity - velocity;
    Clamp(deltaVelocity / deltaTime, clampValue)
  }

  /** The raw input, replaced by `zeroValue` where it would push the vehicle
      further past the maximum velocity. */
  function AccelerationControl(currentVelocity: real, maxVelocity: real, input: real, zeroValue: real): (r: real)
    ensures r == input || r == zeroValue
    ensures input == zeroValue ==> r == zeroValue
    // the input is dropped exactly when it pushes further past a velocity limit
    ensures !(currentVelocity >= maxVelocity && input > zeroValue) &&
            !(currentVelocity <= -maxVelocity && input < zeroValue) ==>
              r == input
    ensures (currentVelocity >= maxVelocity && input > zeroValue) ||
            (currentVelocity <= -maxVelocity && input < zeroValue) ==>
              r == zeroValue
    ensures -maxVelocity < currentVelocity < maxVelocity ==> r == input
    ensures currentVelocity >= maxVelocity ==> r <= zeroValue
    ensures currentVelocity <= -maxVelocity ==> r >= zeroValue
    ensures zeroValue == 0.0 ==> Abs(r) <= Abs(input)
  {
    if currentVelocity >= maxVelocity && input > zeroValue then zeroValue
    else if currentVelocity <= -maxVelocity && input < zeroValue then zeroValue
    else input
  }

  /** The velocity a pilot input asks for: the input scales the maximum velocity. */
  function DesiredVelocity(input: real, maxVelocity: real): real {
    input * maxVelocity
  }

  /** The command of one component: velocity control of input times maximum
      velocity when its group's assist is on, acceleration control otherwise. */
  function AxisCommand(assist: bool, input: real, maxVelocity: real, velocity: real,
                       deltaTime: real, clampValue: real, zeroValue: real): (r: real)
    requires assist ==> deltaTime != 0.0
    ensures assist && clampValue >= 0.0 ==> Abs(r) <= clampValue
    ensures !assist && zeroValue == 0.0 ==> Abs(r) <= Abs(input)
  {
    if assist then VelocityControl(DesiredVelocity(input, maxVelocity), velocity, deltaTime, clampValue)
    else AccelerationControl(velocity, maxVelocity, input, zeroValue)
  }

  /** Starts from `zeroValue` in every component and overwrites each of the
      six once, from the same component of the inputs, under the toggle of
      its own group. */
  method Calculate(input: Signal, linearAssist: bool, rotationalAssist: bool, maxVelocity: Signal,
                   velocity: Signal, deltaTime: real, clampValue: real, zeroValue: real)
    returns (signal: Signal)
    requires (linearAssist || rotationalAssist) ==> deltaTime != 0.0
    ensures forall k :: Get(signal.linear, k) ==
              AxisCommand(linearAssist, Get(input.linear, k), Get(maxVelocity.linear, k), Get(velocity.linear, k),
                          deltaTime, clampValue, zeroValue)
    ensures forall k :: Get(signal.rotational, k) ==
              AxisCommand(rotationalAssist, Get(input.rotational, k), Get(maxVelocity.rotational, k),
                          Get(velocity.rotational, k), deltaTime, clampValue, zeroValue)
  {
    signal := ControlAxis(Uniform(zeroValue), Uniform(zeroValue));

    if linearAssist {
      signal := signal.(linear := signal.linear.(x :=
        VelocityControl(DesiredVelocity(input.linear.x, maxVelocity.linear.x), velocity.linear.x, deltaTime, clampValue)));
      signal := signal.(linear := signal.linear.(y :=
        VelocityControl(DesiredVelocity(input.linear.y, maxVelocity.linear.y), velocity.linear.y, deltaTime, clampValue)));
      signal := signal.(linear := signal.linear.(z :=
        VelocityControl(DesiredVelocity(input.linear.z, maxVelocity.linear.z), velocity.linear.z, deltaTime, clampValue)));
    } else {
      signal := signal.(linear := signal.linear.(x :=
        AccelerationControl(velocity.linear.x, maxVelocity.linear.x, input.linear.x, zeroValue)));
      signal := signal.(linear := signal.linear.(y :=
        AccelerationControl(velocity.linear.y, maxVelocity.linear.y, input.linear.y, zeroValue)));
      signal := signal.(linear := signal.linear.(z :=
        AccelerationControl(velocity.linear.z, maxVelocity.linear.z, input.linear.z, zeroValue)));
    }

    if rotationalAssist {
      signal := signal.(rotational := signal.rotational.(x :=
        VelocityControl(DesiredVelocity(input.rotational.x, maxVelocity.rotational.x), velocity.rotational.x, deltaTime, clampValue)));
      signal := signal.(rotational := signal.rotational.(y :=
        VelocityControl(DesiredVelocity(input.rotational.y, maxVelocity.rotational.y), velocity.rotational.y, deltaTime, clampValue)));
      signal := signal.(rotational := signal.rotational.(z :=
        VelocityControl(DesiredVelocity(input.rotational.z, maxVelocity.rotational.z), velocity.rotational.z, deltaTime, clampValue)));
    } else {
      signal := signal.(rotational := signal.rotational.(x :=
        AccelerationControl(velocity.rotational.x, maxVelocity.rotational.x, input.rotational.x, zeroValue)));
      signal := signal.(rotational := signal.rotational.(y :=
        AccelerationControl(velocity.rotational.y, maxVelocity.rotational.y, input.rotational.y, zeroValue)));
      signal := signal.(rotational := signal.rotational.(z :=
        AccelerationControl(velocity.rotational.z, maxVelocity.rotational.z, input.rotational.z, zeroValue)));
    }
  }

  /** A full-deflection request of 50 from rest over a 0.02 tick saturates at
      the clamp value 1.0. */
  lemma VelocityControlSaturates()
    ensures VelocityControl(DesiredVelocity(1.0, 50.0), 0.0, 0.02, 1.0) == 1.0
  {
  }

  /** Already above the maximum velocity, positive input yields nothing. */
  lemma AccelerationControlCutsOff()
    ensures AccelerationControl(55.0, 50.0, 1.0, 0.0) == 0.0
  {
  }

  /** Above the maximum velocity, input that brakes still passes through. */
  lemma AccelerationControlLetsBrakingThrough()
    ensures AccelerationControl(55.0, 50.0, -1.0, 0.0) == -1.0
    ensures AccelerationControl(-55.0, 50.0, 1.0, 0.0) == 1.0
  {
  }
}
