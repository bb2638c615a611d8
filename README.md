# Flight controller control laws and propulsion allocation, in Dafny

This project models the control-signal core of a six-degree-of-freedom flight
controller. Each stage works on six scalar components: linear and rotational,
each with x, y and z. All quantities are `real`.

- **Propulsion allocator** (`propulsion_control.dfy`). Thruster sizes are
  ordered Small < Medium < Large. A `ThrusterMountPoint` class holds an
  optional thruster; `ChangeThruster` refuses a thruster larger than the slot
  accepts and then leaves the slot as it was. `CalculateAvailableThrust` loops
  over a layout of mount points and builds a sign-asymmetric thrust budget.
  The loop is proved equal to `AvailableThrust`, which defines the budget as a
  sum over the layout. `CalculateAvailableAcceleration` divides the budget by
  the mass. Rotational x goes through an identity stand-in instead, because
  the allocator has no inertia model. `CalculateThrusterOutput` and
  `CalculateSimplifiedThrusterOutput` turn an acceleration command back into
  thrust.
- **Feedforward, pilot-input version** (`input_processing.dfy`). With assist
  on, the velocity target is tracked and the result is saturated to the
  asymmetric budget. With assist off, the pilot input scales the budget side
  it points to, and is cut to zero at the maximum velocity.
- **Feedforward, flight-assist version** (`feedforward_controller.dfy`). This
  version saturates symmetrically to a `clampValue`. With assist off it passes
  the raw input through, with the same velocity cut-off. `Calculate` is
  imperative, like the source: it starts from `zeroValue` and sets each
  component once.
- **Combiner** (`flight_control_system.dfy`): component-wise sum.
- **G-force safety clamp** (`g_force_safety.dfy`): each component is saturated
  on its own to [-negative limit, +positive limit].
- **Sign-dependent scaler** (`utils.dfy`): `MultiplyCompareZero`.
- **Shared shapes** (`shapes.dfy`, `saturation.dfy`). These are `ControlAxis`,
  `Dimension3`, `AxisContribution` and `Vector3`, plus the `clamp` and
  `clamp_assym` saturation functions. The controller takes all of them from an
  external utility library, so that library is not part of this model. The
  saturation functions follow the behaviour the source's tests pin down:
  50/0.02 clamps to 1.0, 55 becomes 50 and -55 becomes -50. `ClampAsym` tests
  the upper bound first, as the inline saturation in
  `src/input_processing.rs` does.

Budgets follow the source's sign convention. Both sides of an
`AxisContribution` are magnitudes, and the negative side is negated wherever
it is used as a lower bound.

Behaviour of the code worth knowing before reading the contracts:
- Zero input does not always give zero output. With assist off it does.
  With assist on, zero input gives -velocity/delta_time saturated to the
  budget. From rest with a non-negative budget that is 0. While moving it is
  a braking command for a positive time step and a non-negative budget,
  unless the braking side of the budget is 0.
- The flight-assist `calculate` saturates to the symmetric `clamp_value`, not
  to the asymmetric budget.
- Mount points add only to the linear budget, from the three components of
  their thrust direction. Rotational thrust is always zero.
- The mount-point constructor does not check the attached thruster against
  the slot's maximum size. Only `change_thruster` checks it.

## Model

| member | source | states |
|---|---|---|
| `Saturation.ClampAsym` | src/input_processing.rs:96-104 | With lower ≤ upper the result lies in [lower, upper]. A value inside passes through exactly. A value above the upper bound becomes the upper bound; one below the lower bound (and not above the upper) becomes the lower bound. |
| `Saturation.ClampAsymIdempotent` | src/g_force_safety.rs:24-59 | Saturating a saturated value changes nothing, when the range is non-empty. |
| `Saturation.Clamp` | src/feedforward_controller.rs:45 | With limit ≥ 0 the result lies in [-limit, limit]. Values inside pass through. A value above the limit becomes the limit; one below -limit (and not above the limit) becomes exactly -limit. |
| `Utils.MultiplyCompareZero` | src/utils.rs:24-31 | Zero input gives exactly 0 whatever the multipliers. With non-negative multipliers the sign of the input is kept. For input in [-1, 1] the result lies in [-low, high]. Its value is stated by `MultiplyCompareZeroScales`. |
| `Utils.MultiplyCompareZeroScales` | src/utils.rs:25-29 | A positive input gives input·high and a negative input gives input·low. |
| `PropulsionControl.SizeOrderIsStrictTotal` | src/propulsion_control.rs:24-29 | The size order is irreflexive, transitive and total, and Small < Medium < Large. |
| `PropulsionControl.ThrusterMountPoint.constructor` | src/propulsion_control.rs:66-78 | Stores the four given fields as they are, without a size check. |
| `PropulsionControl.ThrusterMountPoint.ChangeThruster` | src/propulsion_control.rs:82-89 | Fails, with the too-large error, exactly when the thruster's size exceeds the slot's maximum; equal size is accepted. On failure the previous attachment stays; on success the slot holds `Some(thruster)`. Direction, maximum size and location never change. |
| `PropulsionControl.SumAvailableThrustPerAxis` | src/propulsion_control.rs:147-189 | For each of x/y/z, a direction component d ≥ 0 adds \|d\|·max_thrust to the positive side and leaves the negative side alone; d < 0 does the reverse. Rotational components are untouched. |
| `PropulsionControl.AvailableThrust` | src/propulsion_control.rs:113-139 | The reference definition of the budget: each linear side is the sum, over the layout, of the shares of the attached thrusters; rotational is zero. Its properties are the lemmas `UnequippedLayoutHasNoThrust`, `AvailableThrustIsMagnitudes` and `CardinalLayoutThrust`, and `CalculateAvailableThrust` is proved equal to it. |
| `PropulsionControl.CalculateAvailableThrust` | src/propulsion_control.rs:113-139 | The loop starts from zero, skips unequipped mount points, and ends equal to `AvailableThrust`: on each side of each linear component, the sum of the shares of all attached thrusters. |
| `PropulsionControl.UnequippedLayoutHasNoThrust` | src/propulsion_control.rs:118-136 | A layout whose mount points hold no thruster, including the empty layout, has an all-zero budget. |
| `PropulsionControl.AvailableThrustIsMagnitudes` | src/propulsion_control.rs:11-20 | If every attached maximum thrust is ≥ 0, every side of every component is ≥ 0, so the magnitude convention holds. Rotational components are zero. |
| `PropulsionControl.CardinalLayoutThrust` | src/propulsion_control.rs:338-426 | Six equal thrusters, one along each signed linear axis, give that thrust on both sides of every linear component and zero rotational thrust. |
| `PropulsionControl.CalculateAngularAcceleration` | src/propulsion_control.rs:240-241 | The identity placeholder for angular acceleration. Its effect is stated by `CalculateAvailableAcceleration` and `ThrustRoundTrip`: rotational x is not divided by the mass. |
| `PropulsionControl.CalculateAvailableAcceleration` | src/propulsion_control.rs:202-241 | Every side of every component except rotational x, multiplied by the mass, gives back the thrust budget. Rotational x is returned unchanged. Positive mass keeps a non-negative budget non-negative. |
| `PropulsionControl.AvailableAccelerationExample` | src/propulsion_control.rs:429-478 | 20000 of thrust on a mass of 2000 gives an acceleration of 10 on both sides of every linear component; rotational stays zero. |
| `PropulsionControl.CalculateThrusterOutput` | src/propulsion_control.rs:249-274 | Each of the six outputs is the command times the mass, and the mount points do not appear in the result. This per-component ensures follows the body; the contract that matters is `ThrustRoundTrip`, which makes it the inverse of `CalculateAvailableAcceleration`. |
| `PropulsionControl.CalculateSimplifiedThrusterOutput` | src/propulsion_control.rs:278-292 | Linear outputs are mass times the command. Rotational outputs are zero. This per-component ensures follows the body; the contract that matters is `SimplifiedThrustRoundTrip`, the inverse on the linear budget. |
| `PropulsionControl.ThrustRoundTrip` | src/propulsion_control.rs:208-269 | Realizing either side of the acceleration budget with the same nonzero mass recovers that side of the thrust budget. The exception is rotational x, which comes back multiplied by the mass. |
| `PropulsionControl.SimplifiedThrustRoundTrip` | src/propulsion_control.rs:284-291 | The simplified realizer recovers the linear thrust budget from the linear acceleration budget. |
| `InputProcessing.PilotInputToAcceleration` | src/input_processing.rs:82-122 | Assist on: the velocity-tracking target saturated to [-negative, +positive]. It stays in range for a non-negative budget, is exact inside the range, and is exactly the bound it crosses. Assist off: exactly 0 at or past the maximum velocity in the input's direction, otherwise the sign-dependent scaling of the input by the budget. Zero input gives 0, and input in [-1, 1] stays within the budget. |
| `InputProcessing.AssistedCommandFollowsInputSign` | src/input_processing.rs:247-284 | With assist on, the vehicle at rest, positive maximum velocity and time step: positive input and a positive budget give a positive command, and the mirror case gives a negative one. |
| `InputProcessing.ZeroInputFromRest` | src/input_processing.rs:298-321 | Zero input from rest gives exactly 0 in both assist modes, for every maximum velocity, nonzero time step and non-negative budget. |
| `InputProcessing.ZeroInputWithNegativeBudget` | src/input_processing.rs:96-104 | The non-negative budget is needed: with assist on, from rest, a budget of (-1, 1) saturates zero input to -1. |
| `InputProcessing.ZeroInputWhileMoving` | src/input_processing.rs:94-104 | With assist on, zero input at any velocity is -velocity/delta_time saturated to the budget. For a positive time step and a non-negative budget it is a braking command: ≤ 0 when the velocity is positive and ≥ 0 when it is negative (0 when the braking side of the budget is 0). |
| `InputProcessing.ProcessPilotInput` | src/input_processing.rs:13-78 | The six-component pilot-input stage. Its contract is carried by `ProcessPilotInputComponentwise`, `AssistTogglesAreIndependent` and `ProcessPilotInputWithinBudget`. |
| `InputProcessing.ProcessPilotInputComponentwise` | src/input_processing.rs:13-78 | Each output component is the scalar law on the same component of input, maximum velocity, velocity and budget. Linear components use only the linear toggle and rotational ones only the rotational toggle. |
| `InputProcessing.AssistTogglesAreIndependent` | src/input_processing.rs:24-77 | Flipping the rotational assist leaves the linear outputs unchanged, and flipping the linear assist leaves the rotational outputs unchanged. |
| `InputProcessing.ProcessPilotInputWithinBudget` | src/input_processing.rs:92-119 | With a non-negative budget and inputs in [-1, 1], every output lies within its own component's budget in either assist mode. |
| `InputProcessing.FullDeflectionFromRest` | src/input_processing.rs:347-470 | Input ±1 from rest, with maximum velocity 50, unit budgets and a time step of 1, gives ±1 in all six components in both assist modes. |
| `FeedforwardController.VelocityControl` | src/feedforward_controller.rs:35-49 | The velocity error over the time step, saturated: with clamp ≥ 0 it lies in [-clamp, clamp]. It passes through exactly inside, is exactly the clamp value above it, and exactly -clamp below -clamp. |
| `FeedforwardController.AccelerationControl` | src/feedforward_controller.rs:52-63 | The result is `zeroValue` exactly when the vehicle is at or past +max and the input is above `zeroValue`, or at or past -max and the input is below it; otherwise the input passes through, so braking past a limit is never blocked. Zero input gives `zeroValue`. Strictly inside the velocity limits the input passes through. At or above +max the result is ≤ `zeroValue`; at or below -max it is ≥ `zeroValue`. With `zeroValue` = 0, \|output\| ≤ \|input\|. |
| `FeedforwardController.AxisCommand` | src/feedforward_controller.rs:88-192 | A component's command: with assist on it is bounded by the clamp value; with assist off and zero value 0 it is no larger than the input. |
| `FeedforwardController.Calculate` | src/feedforward_controller.rs:65-195 | Each linear component is velocity control when the linear assist is on and acceleration control otherwise. Rotational components follow the same rule under the rotational toggle. Each comes from the same component of the inputs only, so flipping one toggle leaves the other group unchanged. |
| `FeedforwardController.VelocityControlSaturates` | src/feedforward_controller.rs:209-222 | A desired velocity of 1·50 from rest over 0.02 saturates at the clamp value 1.0. |
| `FeedforwardController.AccelerationControlCutsOff` | src/feedforward_controller.rs:224-236 | At velocity 55 against a maximum of 50, input 1 gives 0. |
| `FeedforwardController.AccelerationControlLetsBrakingThrough` | src/feedforward_controller.rs:60-62 | Past either velocity limit, an input pointing back inside passes through: at 55 against 50, input -1 gives -1, and at -55, input 1 gives 1. |
| `FlightControlSystem.SumAcceleration` | src/lib.rs:82-96 | The combiner. Its contract is carried by the five `SumAcceleration…` lemmas below. |
| `FlightControlSystem.SumAccelerationComponentwise` | src/lib.rs:82-96 | Each output component is feedforward plus feedback for that component. |
| `FlightControlSystem.SumAccelerationZeroIsNeutral` | src/lib.rs:85-95 | Zero feedback returns the feedforward command unchanged, and zero feedforward returns the feedback command unchanged. |
| `FlightControlSystem.SumAccelerationCommutes` | src/lib.rs:86-95 | The sum is commutative. |
| `FlightControlSystem.SumAccelerationAssociates` | src/lib.rs:86-94 | Summing three signals is associative. |
| `FlightControlSystem.SumAccelerationGroupsAreIndependent` | src/lib.rs:84-95 | Linear outputs depend only on linear inputs, and rotational outputs only on rotational inputs. |
| `GForceSafety.Process` | src/g_force_safety.rs:17-60 | The g-force clamp. Its contract is carried by the `Process…` lemmas below. |
| `GForceSafety.ProcessComponentwise` | src/g_force_safety.rs:17-60 | Output (a, k) is input (a, k) saturated to the limits of (a, k) alone. There is no scaling by the magnitude of the whole vector. |
| `GForceSafety.ProcessRespectsLimits` | src/g_force_safety.rs:24-59 | With consistent limits, every output lies in [-negative limit, +positive limit]. A value above the positive limit becomes exactly that limit, and one below the negated negative limit becomes exactly that bound. |
| `GForceSafety.ProcessPassesWithinLimits` | src/g_force_safety.rs:25-29 | A command already within the limits is returned unchanged. |
| `GForceSafety.ProcessIdempotent` | src/g_force_safety.rs:23-59 | Applying the clamp twice equals applying it once. |
| `GForceSafety.ProcessExample` | src/g_force_safety.rs:66-87 | 55 against limits of 50 becomes 50, and -55 becomes -50. |

## Left out

- Feedback stage (`src/feedback_controller.rs`): it wraps an external PID controller whose update and output are not visible. Its only local rule, using `zero_value` when the PID has no output yet, is not modelled.
- `src/components.rs` is not part of this model. It holds only plain declarations and two boolean negations, and the crate does not declare it as a module.
- `distance_from_center` (src/propulsion_control.rs:96-102): square root and powers of floats. The mount location is stored but never read.
- IEEE floating point: NaN, rounding and the tests' 0.001 tolerances are not modelled. So is `is_sign_positive` treating -0.0 as negative: the model tests d ≥ 0.
- Division by zero: the source divides by `delta_time` and by `mass` without a guard. The model requires a nonzero divisor; properties about signs add `> 0` as a hypothesis.
- Commented-out code is not live and is not modelled. This covers autonomous mode, the torque formula, per-thruster allocation, the pipeline sketch in `src/lib.rs` and the toggle-driven enable or disable of g-force safety.
- Rotational acceleration: the source's identity placeholder for rotational x is modelled as it is. No inertia model is guessed.
- `FcsError` carries only a failure tag; its message and `Display` output are not modelled.
- `ControlModel` (src/feedforward_controller.rs:23-28) is never used.
- Toggles are plain `bool` inputs.
- `Vector3` keeps only x, y and z, the components the allocator reads; the fourth constructor argument in the tests is not modelled.
- The getters `max_thrust`, `size`, `attached_thruster` and `thrust_direction` are modelled as field reads.
- Recomputing the budget whenever the layout changes is the caller's duty, and the model does not capture it.
