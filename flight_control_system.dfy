/** The combiner: the feedforward and feedback commands added component by
    component, with no saturation of its own. */
module FlightControlSystem {
  import opened Shapes

  function SumAcceleration(feedforward: Signal, feedback: Signal): Signal {
    ControlAxis(
      Dimension3(
        feedforward.linear.x + feedback.linear.x,
        feedforward.linear.y + feedback.linear.y,
        feedforward.linear.z + feedback.linear.z),
      Dimension3(
        feedforward.rotational.x + feedback.rotational.x,
        feedforward.rotational.y + feedback.rotational.y,
        feedforward.rotational.z + feedback.rotational.z))
  }

  /** Every output component is the sum of the same component of the two inputs. */
  lemma SumAccelerationComponentwise(feedforward: Signal, feedback: Signal)
    ensures forall a, k :: At(SumAcceleration(feedforward, feedback), a, k) == At(feedforward, a, k) + At(feedback, a, k)
  {
  }

  /** A zero feedback leaves the feedforward command as it is, and a zero
      feedforward the feedback command. */
  lemma SumAccelerationZeroIsNeutral(command: Signal)
    ensures SumAcceleration(command, ZeroSignal()) == command
    ensures SumAcceleration(ZeroSignal(), command) == command
  {
  }

  lemma SumAccelerationCommutes(feedforward: Signal, feedback: Signal)
    ensures SumAcceleration(feedforward, feedback) == SumAcceleration(feedback, feedforward)
  {
  }

  lemma SumAccelerationAssociates(a: Signal, b: Signal, c: Signal)
    ensures SumAcceleration(SumAcceleration(a, b), c) == SumAcceleration(a, SumAcceleration(b, c))
  {
  }

  /** Linear outputs depend on linear inputs only, rotational on rotational only. */
  lemma SumAccelerationGroupsAreIndependent(ff1: Signal, fb1: Signal, ff2: Signal, fb2: Signal)
    ensures ff1.linear == ff2.linear && fb1.linear == fb2.linear ==>
              SumAcceleration(ff1, fb1).linear == SumAcceleration(ff2, fb2).linear
    ensures ff1.rotational == ff2.rotational && fb1.rotational == fb2.rotational ==>
              SumAcceleration(ff1, fb1).rotational == SumAcceleration(ff2, fb2).rotational
  {
  }
}
