/** The propulsion allocator: a thruster layout, the sign-asymmetric thrust
    budget it yields, the acceleration budget that follows from the vehicle's
    mass, and the conversion of an acceleration command back into thrust. */
module PropulsionControl {
  import opened Shapes
  import opened Utils

  /** Size classes, compared in declaration order. */
  datatype ThrusterSize = Small | Medium | Large

  function Rank(s: ThrusterSize): nat {
    match s
    case Small => 0
    case Medium => 1
    case Large => 2
  }

  /** The derived `<` on ThrusterSize. */
  predicate SizeLess(a: ThrusterSize, b: ThrusterSize) {
    Rank(a) < Rank(b)
  }

  /** The size order is a strict total order: Small < Medium < Large. */
  lemma SizeOrderIsStrictTotal()
    ensures forall a :: !SizeLess(a, a)
    ensures forall a, b, c :: SizeLess(a, b) && SizeLess(b, c) ==> SizeLess(a, c)
    ensures forall a, b :: a == b || SizeLess(a, b) || SizeLess(b, a)
    ensures SizeLess(Small, Medium) && SizeLess(Medium, Large) && SizeLess(Small, Large)
  {
  }

  /** A thruster: its maximum thrust (meant to be a magnitude) and its size class. */
  datatype Thruster = Thruster(maxThrust: real, size: ThrusterSize)

  /** A slot on the hull that may hold one thruster. */
  class ThrusterMountPoint {
    var attachedThruster: Option<Thruster>
    var thrustDirection: Vector3
    var maxThrusterSize: ThrusterSize
    var mountLocation: Dimension3<real>

    /** The constructor does not check the attached thruster against the
        slot's maximum size. */
    constructor (attachedThruster: Option<Thruster>, thrustDirection: Vector3,
                 maxThrusterSize: ThrusterSize, mountLocation: Dimension3<real>)
      ensures this.attachedThruster == attachedThruster
      ensures this.thrustDirection == thrustDirection
      ensures this.maxThrusterSize == maxThrusterSize
      ensures this.mountLocation == mountLocation
    {
      this.attachedThruster := attachedThruster;
      this.thrustDirection := thrustDirection;
      this.maxThrusterSize := maxThrusterSize;
      this.mountLocation := mountLocation;
    }

    /** Attaches `thruster` unless it is larger than the slot accepts; on
        failure the previous attachment stays. */
    method ChangeThruster(thruster: Thruster) returns (result: Result<()>)
      modifies this`attachedThruster
      ensures result.Err? <==> SizeLess(maxThrusterSize, thruster.size)
      ensures result.Err? ==> result.error == ThrusterTooLarge && attachedThruster == old(attachedThruster)
      ensures result.Ok? ==> attachedThruster == Some(thruster)
      ensures thrustDirection == old(thrustDirection) && maxThrusterSize == old(maxThrusterSize)
      ensures mountLocation == old(mountLocation)
    {
      if SizeLess(maxThrusterSize, thruster.size) {
        return Err(ThrusterTooLarge);
      }
      attachedThruster := Some(thruster);
      result := Ok(());
    }
  }

  /** The part of a thruster's maximum thrust that acts along a direction
      component `d`: |d| times the maximum thrust. */
  function AxisThrust(d: real, thruster: Thruster): real {
    Abs(d) * thruster.maxThrust
  }

  /** What mount point `m` adds to one side of component k of the linear
      budget: |d_k| times the maximum thrust of its thruster when the sign of
      the direction component d_k selects that side, nothing otherwise. */
  function Share(m: ThrusterMountPoint, k: Dim, positiveSide: bool): real
    reads m
  {
    match m.attachedThruster
    case None => 0.0
    case Some(t) =>
      var d := Direction(m.thrustDirection, k);
      if (d >= 0.0) == positiveSide then AxisThrust(d, t) else 0.0
  }

  /** The sum of the shares of every mount point in the layout. */
  function SideThrust(mounts: seq<ThrusterMountPoint>, k: Dim, positiveSide: bool): real
    reads mounts
  {
    if mounts == [] then 0.0
    else SideThrust(mounts[..|mounts| - 1], k, positiveSide) + Share(mounts[|mounts| - 1], k, positiveSide)
  }

  function LinearSide(mounts: seq<ThrusterMountPoint>, k: Dim): AxisContribution<real>
    reads mounts
  {
    AxisContribution(SideThrust(mounts, k, true), SideThrust(mounts, k, false))
  }

  /** The thrust budget of a layout, as a sum over its mount points. Rotational
      thrust is not derived from the layout, so it is zero. */
  function AvailableThrust(mounts: seq<ThrusterMountPoint>): Budget
    reads mounts
  {
    ControlAxis(
      Dimension3(LinearSide(mounts, X), LinearSide(mounts, Y), LinearSide(mounts, Z)),
      Uniform(AxisContribution(0.0, 0.0)))
  }

  /** Adds one thruster, pointed along `direction`, to the linear budget: for
      each component the side chosen by the sign of the direction grows by
      |d| times the maximum thrust and the other side is unchanged. */
  method SumAvailableThrustPerAxis(thruster: Thruster, direction: Vector3, budget: Budget)
    returns (updated: Budget)
    ensures updated.rotational == budget.rotational
    ensures forall k :: Direction(direction, k) >= 0.0 ==>
              Get(updated.linear, k) == AxisContribution(
                Get(budget.linear, k).positive + AxisThrust(Direction(direction, k), thruster),
                Get(budget.linear, k).negative)
    ensures forall k :: Direction(direction, k) < 0.0 ==>
              Get(updated.linear, k) == AxisContribution(
                Get(budget.linear, k).positive,
                Get(budget.linear, k).negative + AxisThrust(Direction(direction, k), thruster))
  {
    updated := budget;
    if direction.x >= 0.0 {
      var sum := updated.linear.x.positive + AxisThrust(direction.x, thruster);
      updated := updated.(linear := updated.linear.(x := updated.linear.x.(positive := sum)));
    } else {
      var sum := updated.linear.x.negative + AxisThrust(direction.x, thruster);
      updated := updated.(linear := updated.linear.(x := updated.linear.x.(negative := sum)));
    }
    if direction.y >= 0.0 {
      var sum := updated.linear.y.positive + AxisThrust(direction.y, thruster);
      updated := updated.(linear := updated.linear.(y := updated.linear.y.(positive := sum)));
    } else {
      var sum := updated.linear.y.negative + AxisThrust(direction.y, thruster);
      updated := updated.(linear := updated.linear.(y := updated.linear.y.(negative := sum)));
    }
    if direction.z >= 0.0 {
      var sum := updated.linear.z.positive + AxisThrust(direction.z, thruster);
      updated := updated.(linear := updated.linear.(z := updated.linear.z.(positive := sum)));
    } else {
      var sum := updated.linear.z.negative + AxisThrust(direction.z, thruster);
      updated := updated.(linear := updated.linear.(z := updated.linear.z.(negative := sum)));
    }
  }

  /** Accumulates the budget of a layout, starting from zero and skipping
      mount points without a thruster. */
  method CalculateAvailableThrust(mounts: seq<ThrusterMountPoint>) returns (budget: Budget)
    ensures budget == AvailableThrust(mounts)
  {
    budget := ZeroBudget();
    for i := 0 to |mounts|
      invariant budget == AvailableThrust(mounts[..i])
    {
      assert mounts[..i + 1][..i] == mounts[..i];
      match mounts[i].attachedThruster {
        case Some(thruster) =>
          budget := SumAvailableThrustPerAxis(thruster, mounts[i].thrustDirection, budget);
          AddedMountPoint(mounts[..i + 1], X);
          AddedMountPoint(mounts[..i + 1], Y);
          AddedMountPoint(mounts[..i + 1], Z);
        case None =>
      }
    }
    assert mounts[..|mounts|] == mounts;
  }

  /** The last mount point of a non-empty layout adds its share to one side. */
  lemma AddedMountPoint(mounts: seq<ThrusterMountPoint>, k: Dim)
    requires mounts != []
    ensures LinearSide(mounts, k) == (
              var before := LinearSide(mounts[..|mounts| - 1], k);
              var last := mounts[|mounts| - 1];
              AxisContribution(before.positive + Share(last, k, true),
                               before.negative + Share(last, k, false)))
  {
  }

  /** A layout whose mount points hold no thruster (the empty layout among
      them) has an all-zero budget. */
  lemma {:induction false} UnequippedLayoutHasNoThrust(mounts: seq<ThrusterMountPoint>)
    requires forall i :: 0 <= i < |mounts| ==> mounts[i].attachedThruster.None?
    ensures AvailableThrust(mounts) == ZeroBudget()
  {
    forall k, positiveSide: bool ensures SideThrust(mounts, k, positiveSide) == 0.0 {
      SideThrustOfUnequipped(mounts, k, positiveSide);
    }
  }

  lemma {:induction false} SideThrustOfUnequipped(mounts: seq<ThrusterMountPoint>, k: Dim, positiveSide: bool)
    requires forall i :: 0 <= i < |mounts| ==> mounts[i].attachedThruster.None?
    ensures SideThrust(mounts, k, positiveSide) == 0.0
  {
    if mounts != [] {
      SideThrustOfUnequipped(mounts[..|mounts| - 1], k, positiveSide);
    }
  }

  /** When every attached thruster has a non-negative maximum thrust, both
      sides of every component of the budget are magnitudes, and the
      rotational components are zero. */
  lemma {:induction false} AvailableThrustIsMagnitudes(mounts: seq<ThrusterMountPoint>)
    requires forall i :: 0 <= i < |mounts| && mounts[i].attachedThruster.Some? ==>
               mounts[i].attachedThruster.value.maxThrust >= 0.0
    ensures BudgetNonNegative(AvailableThrust(mounts))
    ensures AvailableThrust(mounts).rotational == Uniform(AxisContribution(0.0, 0.0))
  {
    forall k, positiveSide: bool ensures SideThrust(mounts, k, positiveSide) >= 0.0 {
      SideThrustNonNegative(mounts, k, positiveSide);
    }
    forall a, k ensures NonNegative(At(AvailableThrust(mounts), a, k)) {
      if a == Linear {
        assert At(AvailableThrust(mounts), a, k) == LinearSide(mounts, k);
      }
    }
  }

  lemma {:induction false} SideThrustNonNegative(mounts: seq<ThrusterMountPoint>, k: Dim, positiveSide: bool)
    requires forall i :: 0 <= i < |mounts| && mounts[i].attachedThruster.Some? ==>
               mounts[i].attachedThruster.value.maxThrust >= 0.0
    ensures SideThrust(mounts, k, positiveSide) >= 0.0
  {
    if mounts != [] {
      SideThrustNonNegative(mounts[..|mounts| - 1], k, positiveSide);
      var last := mounts[|mounts| - 1];
      if last.attachedThruster.Some? {
        var d := Direction(last.thrustDirection, k);
        assert AxisThrust(d, last.attachedThruster.value) >= 0.0;
      }
    }
  }

  /** The stand-in for an angular-acceleration formula, which the allocator
      does not have yet: the identity. */
  function CalculateAngularAcceleration(someInput: real): real {
    someInput
  }

  function DivideBy(c: AxisContribution<real>, mass: real): AxisContribution<real>
    requires mass != 0.0
  {
    AxisContribution(c.positive / mass, c.negative / mass)
  }

  /** The acceleration budget of a thrust budget: every side of every
      component divided by the mass, except rotational x, which passes through
      the identity stand-in unscaled. Positive mass keeps magnitudes
      magnitudes. */
  function CalculateAvailableAcceleration(thrust: Budget, mass: real): (r: Budget)
    requires mass != 0.0
    ensures forall a, k :: !(a == Rotational && k == X) ==>
              At(r, a, k).positive * mass == At(thrust, a, k).positive &&
              At(r, a, k).negative * mass == At(thrust, a, k).negative
    ensures At(r, Rotational, X) == At(thrust, Rotational, X)
    ensures mass > 0.0 && BudgetNonNegative(thrust) ==> BudgetNonNegative(r)
  {
    ControlAxis(
      Dimension3(
        DivideBy(thrust.linear.x, mass),
        DivideBy(thrust.linear.y, mass),
        DivideBy(thrust.linear.z, mass)),
      Dimension3(
        AxisContribution(
          CalculateAngularAcceleration(thrust.rotational.x.positive),
          CalculateAngularAcceleration(thrust.rotational.x.negative)),
        DivideBy(thrust.rotational.y, mass),
        DivideBy(thrust.rotational.z, mass)))
  }

  /** Newton's second law per component: the thrust that realizes an
      acceleration command is the command times the mass. The mount points
      are accepted and ignored. */
  function CalculateThrusterOutput(desired: Signal, mounts: seq<ThrusterMountPoint>, mass: real): (r: Signal)
    ensures forall a, k :: At(r, a, k) == At(desired, a, k) * mass
  {
    ControlAxis(
      Dimension3(desired.linear.x * mass, desired.linear.y * mass, desired.linear.z * mass),
      Dimension3(desired.rotational.x * mass, desired.rotational.y * mass, desired.rotational.z * mass))
  }

  /** The simplified realizer: linear thrust is mass times the command,
      rotational thrust is zero. */
  function CalculateSimplifiedThrusterOutput(desired: Signal, mass: real): (r: Signal)
    ensures forall k :: Get(r.linear, k) == mass * Get(desired.linear, k)
    ensures r.rotational == Uniform(0.0)
  {
    ControlAxis(
      Dimension3(mass * desired.linear.x, mass * desired.linear.y, mass * desired.linear.z),
      Uniform(0.0))
  }

  /** Realizing either side of the acceleration budget with the same mass
      gives back that side of the thrust budget, except on rotational x, whose
      acceleration was never divided by the mass. */
  lemma ThrustRoundTrip(thrust: Budget, mass: real, positiveSide: bool)
    requires mass != 0.0
    ensures var accel := SideSignal(CalculateAvailableAcceleration(thrust, mass), positiveSide);
            var side := SideSignal(thrust, positiveSide);
            var realized := CalculateThrusterOutput(accel, [], mass);
            && (forall a, k :: !(a == Rotational && k == X) ==> At(realized, a, k) == At(side, a, k))
            && At(realized, Rotational, X) == At(side, Rotational, X) * mass
  {
    var budget := CalculateAvailableAcceleration(thrust, mass);
    var accel := SideSignal(budget, positiveSide);
    var side := SideSignal(thrust, positiveSide);
    var realized := CalculateThrusterOutput(accel, [], mass);
    forall a, k | !(a == Rotational && k == X) ensures At(realized, a, k) == At(side, a, k) {
      RealizedComponent(budget, thrust, mass, positiveSide, a, k);
    }
  }

  lemma RealizedComponent(budget: Budget, thrust: Budget, mass: real, positiveSide: bool, a: Axis, k: Dim)
    requires At(budget, a, k).positive * mass == At(thrust, a, k).positive
    requires At(budget, a, k).negative * mass == At(thrust, a, k).negative
    ensures At(CalculateThrusterOutput(SideSignal(budget, positiveSide), [], mass), a, k) ==
            At(SideSignal(thrust, positiveSide), a, k)
  {
  }

  /** The simplified realizer recovers the linear thrust budget from the
      linear acceleration budget. */
  lemma SimplifiedThrustRoundTrip(thrust: Budget, mass: real, positiveSide: bool)
    requires mass != 0.0
    ensures CalculateSimplifiedThrusterOutput(SideSignal(CalculateAvailableAcceleration(thrust, mass), positiveSide), mass).linear
              == SideSignal(thrust, positiveSide).linear
  {
    var budget := CalculateAvailableAcceleration(thrust, mass);
    var simplified := CalculateSimplifiedThrusterOutput(SideSignal(budget, positiveSide), mass);
    var side := SideSignal(thrust, positiveSide);
    forall k ensures Get(simplified.linear, k) == Get(side.linear, k) {
      RealizedComponent(budget, thrust, mass, positiveSide, Linear, k);
      assert Get(simplified.linear, k) == At(CalculateThrusterOutput(SideSignal(budget, positiveSide), [], mass), Linear, k);
    }
    assert Get(simplified.linear, X) == Get(side.linear, X);
    assert Get(simplified.linear, Y) == Get(side.linear, Y);
    assert Get(simplified.linear, Z) == Get(side.linear, Z);
  }

  /** Six equal thrusters, one along each signed linear axis, give the same
      budget on both sides of every linear component and none on rotation. */
  lemma CardinalLayoutThrust(mounts: seq<ThrusterMountPoint>, maxThrust: real)
    requires |mounts| == 6
    requires forall i :: 0 <= i < 6 ==>
               mounts[i].attachedThruster.Some? && mounts[i].attachedThruster.value.maxThrust == maxThrust
    requires mounts[0].thrustDirection == Vector3(1.0, 0.0, 0.0)
    requires mounts[1].thrustDirection == Vector3(-1.0, 0.0, 0.0)
    requires mounts[2].thrustDirection == Vector3(0.0, 1.0, 0.0)
    requires mounts[3].thrustDirection == Vector3(0.0, -1.0, 0.0)
    requires mounts[4].thrustDirection == Vector3(0.0, 0.0, 1.0)
    requires mounts[5].thrustDirection == Vector3(0.0, 0.0, -1.0)
    ensures AvailableThrust(mounts) ==
              ControlAxis(Uniform(AxisContribution(maxThrust, maxThrust)), Uniform(AxisContribution(0.0, 0.0)))
  {
    forall k, positiveSide: bool ensures SideThrust(mounts, k, positiveSide) == maxThrust {
      var i := 0;
      while i < 6
        invariant 0 <= i <= 6
        invariant SideThrust(mounts[..i], k, positiveSide) ==
                    if i > CardinalIndex(k, positiveSide) then maxThrust else 0.0
      {
        assert mounts[..i + 1][..i] == mounts[..i];
        i := i + 1;
      }
      assert mounts[..6] == mounts;
    }
  }

  /** Where the thruster pushing along (k, side) sits in the cardinal layout. */
  function CardinalIndex(k: Dim, positiveSide: bool): nat {
    (match k case X => 0 case Y => 2 case Z => 4) + (if positiveSide then 0 else 1)
  }

  /** 20000 of thrust on a 2000-unit mass is an acceleration of 10. */
  lemma AvailableAccelerationExample()
    ensures var thrust := ControlAxis(Uniform(AxisContribution(20000.0, 20000.0)), Uniform(AxisContribution(0.0, 0.0)));
            CalculateAvailableAcceleration(thrust, 2000.0) ==
              ControlAxis(Uniform(AxisContribution(10.0, 10.0)), Uniform(AxisContribution(0.0, 0.0)))
  {
  }
}
