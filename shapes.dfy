/** The container shapes every stage of the flight controller passes around.
    The controller gets them from its utility library; only the parts it
    reads are modelled here. */
module Shapes {

  /** The two actuation groups: translation and rotation. */
  datatype Axis = Linear | Rotational

  /** The three spatial components of one group. */
  datatype Dim = X | Y | Z

  /** Three independent components of one quantity. */
  datatype Dimension3<T> = Dimension3(x: T, y: T, z: T)

  /** One quantity split by actuation kind. */
  datatype ControlAxis<T> = ControlAxis(linear: T, rotational: T)

  /** The two sides of one axis. Both sides hold magnitudes: the negative side
      is stored as a non-negative number and negated wherever it is used as a
      lower bound. */
  datatype AxisContribution<T> = AxisContribution(positive: T, negative: T)

  /** A thrust direction; only its three components are read. */
  datatype Vector3 = Vector3(x: real, y: real, z: real)

  /** Six scalar components: an acceleration command, a velocity, a thrust. */
  type Signal = ControlAxis<Dimension3<real>>

  /** A sign-asymmetric budget: a (positive, negative) magnitude pair per component. */
  type Budget = ControlAxis<Dimension3<AxisContribution<real>>>

  /** The same value in all three components. */
  function Uniform<T>(v: T): Dimension3<T> {
    Dimension3(v, v, v)
  }

  function Get<T>(d: Dimension3<T>, k: Dim): T {
    match k
    case X => d.x
    case Y => d.y
    case Z => d.z
  }

  function Group<T>(c: ControlAxis<T>, a: Axis): T {
    match a
    case Linear => c.linear
    case Rotational => c.rotational
  }

  /** The scalar component (a, k) of a six-component value. */
  function At<T>(c: ControlAxis<Dimension3<T>>, a: Axis, k: Dim): T {
    Get(Group(c, a), k)
  }

  function Direction(v: Vector3, k: Dim): real {
    match k
    case X => v.x
    case Y => v.y
    case Z => v.z
  }

  function Abs(x: real): real {
    if x >= 0.0 then x else -x
  }

  /** Every component zero. */
  function ZeroSignal(): Signal {
    ControlAxis(Uniform(0.0), Uniform(0.0))
  }

  /** Every side of every component zero. */
  function ZeroBudget(): Budget {
    ControlAxis(Uniform(AxisContribution(0.0, 0.0)), Uniform(AxisContribution(0.0, 0.0)))
  }

  /** The convention of AxisContribution: both sides are magnitudes. */
  predicate NonNegative(c: AxisContribution<real>) {
    c.positive >= 0.0 && c.negative >= 0.0
  }

  predicate BudgetNonNegative(b: Budget) {
    forall a, k :: NonNegative(At(b, a, k))
  }

  /** One side of every component of a budget, as a signal. */
  function SideSignal(b: Budget, positiveSide: bool): (s: Signal)
    ensures forall a, k :: At(s, a, k) == if positiveSide then At(b, a, k).positive else At(b, a, k).negative
  {
    var side := (c: AxisContribution<real>) => if positiveSide then c.positive else c.negative;
    ControlAxis(
      Dimension3(side(b.linear.x), side(b.linear.y), side(b.linear.z)),
      Dimension3(side(b.rotational.x), side(b.rotational.y), side(b.rotational.z)))
  }
}
