/** Worked runs of the controller with concrete numbers: a proportional-only
    loop, an integrating loop over two periods, and narrowing the limits of
    a saturated controller.
 */
module PidScenarios {
  import opened Clock
  import opened Pid

  /** Setpoint 10, measurement 0, Kp = 1 and no I or D: the first step after
      entering automatic mode drives the command to 10. */
  lemma ProportionalOnly(prior: PidState, now0: U32)
    ensures var s := SetMode(Construct(prior, 0.0, 0.0, 10.0, 1.0, 0.0, 0.0, P_ON_E, DIRECT, now0),
                             AUTOMATIC);
            var r := Compute(s, Advance(now0, 100));
            r.0 && r.1.output == 10.0 && r.1.outputSum == 0.0
  {
  }

  /** The same loop with Ki = 0.1 per second: over a 100 ms period the
      working ki is 0.01, so with the error held at 10 the accumulator grows
      by 0.1 per step and persists from one step to the next. */
  lemma IntegralPersists(prior: PidState, now0: U32)
    ensures var s := SetMode(Construct(prior, 0.0, 0.0, 10.0, 1.0, 0.1, 0.0, P_ON_E, DIRECT, now0),
                             AUTOMATIC);
            var r1 := Compute(s, Advance(now0, 100));
            var r2 := Compute(r1.1, Advance(now0, 200));
            && r1.0 && r1.1.outputSum == 0.1 && r1.1.output == 10.1
            && r2.0 && r2.1.outputSum == 0.2 && r2.1.output == 10.2
  {
  }

  /** Narrowing the limits of an automatic controller whose command and
      accumulator both sit at 100 pulls both down to the new maximum. */
  lemma NarrowingLimitsClamps(s: PidState)
    requires s.inAuto && s.output == 100.0 && s.outputSum == 100.0
    ensures SetOutputLimits(s, 0.0, 50.0).output == 50.0
    ensures SetOutputLimits(s, 0.0, 50.0).outputSum == 50.0
  {
  }
}
