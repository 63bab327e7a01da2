/** Properties of the controller that relate several operations: the
    invariants every operation keeps, round trips and idempotence of the
    configuration calls, the time gate, and the control law in terms of the
    gains the user supplied.
 */
module PidProperties {
  import opened Clock
  import opened Pid

  // ---------------------------------------------------------------------
  // Clamp

  /** Clamping twice is clamping once. */
  lemma ClampIdempotent(x: real, lo: real, hi: real)
    requires lo <= hi
    ensures Clamp(Clamp(x, lo, hi), lo, hi) == Clamp(x, lo, hi)
  {
  }

  /** The hand-written clamp is the usual min/max composition. */
  lemma ClampIsMinOfMax(x: real, lo: real, hi: real)
    requires lo <= hi
    ensures Clamp(x, lo, hi) == Min(hi, Max(lo, x))
  {
  }

  function Min(a: real, b: real): real { if a <= b then a else b }
  function Max(a: real, b: real): real { if a >= b then a else b }

  // ---------------------------------------------------------------------
  // Everything a caller can do to the controller

  /** One call a caller can make: a control step at a given clock reading,
      a write to one of the three external cells, or a configuration call. */
  datatype Command =
    | Tick(now: U32)
    | WriteInput(value: real)
    | WriteSetpoint(value: real)
    | WriteOutput(value: real)
    | Tunings(Kp: real, Ki: real, Kd: real, POn: Int32)
    | TuningsSimple(Kp: real, Ki: real, Kd: real)
    | SampleTime(period: Int32)
    | OutputLimits(lo: real, hi: real)
    | Mode(mode: Int32)
    | Direction(direction: Int32)

  function Step(s: PidState, c: Command): PidState
  {
    match c
    case Tick(now) => Compute(s, now).1
    case WriteInput(v) => s.(input := v)
    case WriteSetpoint(v) => s.(setpoint := v)
    case WriteOutput(v) => s.(output := v)
    case Tunings(kp, ki, kd, pOn) => SetTunings(s, kp, ki, kd, pOn)
    case TuningsSimple(kp, ki, kd) => SetTuningsSimple(s, kp, ki, kd)
    case SampleTime(t) => SetSampleTime(s, t)
    case OutputLimits(lo, hi) => SetOutputLimits(s, lo, hi)
    case Mode(m) => SetMode(s, m)
    case Direction(d) => SetControllerDirection(s, d)
  }

  function Run(s: PidState, cs: seq<Command>): PidState
    decreases |cs|
  {
    if cs == [] then s else Run(Step(s, cs[0]), cs[1..])
  }

  // ---------------------------------------------------------------------
  // Invariant: the limits form a range, and while automatic the
  // accumulator lies inside it (anti-windup)

  ghost predicate Inv(s: PidState)
  {
    && s.outMin < s.outMax
    && (s.inAuto ==> s.outMin <= s.outputSum <= s.outMax)
  }

  lemma ConstructEstablishesInv(prior: PidState, input: real, output: real, setpoint: real,
                                Kp: real, Ki: real, Kd: real, POn: Int32, direction: Int32, now: U32)
    ensures Inv(Construct(prior, input, output, setpoint, Kp, Ki, Kd, POn, direction, now))
  {
  }

  lemma StepPreservesInv(s: PidState, c: Command)
    requires Inv(s)
    ensures Inv(Step(s, c))
  {
  }

  /** No sequence of calls, however interleaved with writes to the external
      cells, can leave an automatic controller with its accumulator outside
      the limits, or with an empty range of limits. */
  lemma {:induction false} RunPreservesInv(s: PidState, cs: seq<Command>)
    requires Inv(s)
    ensures Inv(Run(s, cs))
    decreases |cs|
  {
    if cs != [] {
      StepPreservesInv(s, cs[0]);
      RunPreservesInv(Step(s, cs[0]), cs[1..]);
    }
  }

  // ---------------------------------------------------------------------
  // Working gains versus display gains

  predicate StandardDirection(d: Int32)
  {
    d == DIRECT || d == REVERSE
  }

  /** Changing the period keeps the working gains per second: ki divided by
      the period and kd multiplied by it are the same before and after. */
  lemma SetSampleTimeKeepsRates(s: PidState, period: Int32)
    requires period > 0
    ensures SetSampleTime(s, period).ki / (period as real) == s.ki / (s.sampleTime as real)
    ensures SetSampleTime(s, period).kd * (period as real) == s.kd * (s.sampleTime as real)
  {
  }

  /** Changing the period keeps the working gains equal to the display gains
      scaled by the new period: the gains per second are unchanged. */
  lemma SetSampleTimePreservesGainsMatch(s: PidState, period: Int32)
    requires GainsMatch(s)
    ensures GainsMatch(SetSampleTime(s, period))
  {
  }

  /** In automatic mode, switching between DIRECT and REVERSE re-signs the
      working gains consistently with the new direction. */
  lemma AutoDirectionChangePreservesGainsMatch(s: PidState, d: Int32)
    requires s.inAuto
    requires StandardDirection(s.controllerDirection) && StandardDirection(d)
    ensures GainsMatch(s) ==> GainsMatch(SetControllerDirection(s, d))
  {
  }

  /** Every call keeps the working gains in step with the display gains,
      except a change of direction made in manual mode (or to a value that
      is neither DIRECT nor REVERSE). */
  lemma StepPreservesGainsMatch(s: PidState, c: Command)
    requires GainsMatch(s)
    requires c.Direction? ==>
               s.inAuto && StandardDirection(s.controllerDirection) && StandardDirection(c.direction)
    ensures GainsMatch(Step(s, c))
  {
    match c
    case SampleTime(t) => SetSampleTimePreservesGainsMatch(s, t);
    case Direction(d) => AutoDirectionChangePreservesGainsMatch(s, d);
    case _ =>
  }

  /** A direction change made in manual mode stores the new direction but
      leaves the working gains with the old sign. */
  lemma ManualDirectionChangeBreaksGainsMatch(s: PidState)
    requires GainsMatch(s) && !s.inAuto
    requires s.controllerDirection == DIRECT && s.dispKp > 0.0
    ensures !GainsMatch(SetControllerDirection(s, REVERSE))
  {
  }

  /** Re-applying the displayed tunings repairs the sign after such a change. */
  lemma RetuningRestoresGainsMatch(s: PidState)
    requires s.dispKp >= 0.0 && s.dispKi >= 0.0 && s.dispKd >= 0.0
    ensures GainsMatch(SetTuningsSimple(s, s.dispKp, s.dispKi, s.dispKd))
  {
  }

  // ---------------------------------------------------------------------
  // Configuration calls: round trips and idempotence

  /** The getters return exactly the gains supplied, whatever the direction. */
  lemma GettersReturnSuppliedTunings(s: PidState, Kp: real, Ki: real, Kd: real, POn: Int32)
    requires Kp >= 0.0 && Ki >= 0.0 && Kd >= 0.0
    ensures GetKp(SetTunings(s, Kp, Ki, Kd, POn)) == Kp
    ensures GetKi(SetTunings(s, Kp, Ki, Kd, POn)) == Ki
    ensures GetKd(SetTunings(s, Kp, Ki, Kd, POn)) == Kd
    ensures GetDirection(SetTunings(s, Kp, Ki, Kd, POn)) == GetDirection(s)
    ensures GetMode(SetTunings(s, Kp, Ki, Kd, POn)) == GetMode(s)
  {
  }

  lemma SetTuningsIdempotent(s: PidState, Kp: real, Ki: real, Kd: real, POn: Int32)
    ensures SetTunings(SetTunings(s, Kp, Ki, Kd, POn), Kp, Ki, Kd, POn) == SetTunings(s, Kp, Ki, Kd, POn)
  {
  }

  /** Changing the period and changing it back restores the record exactly. */
  lemma SetSampleTimeRoundTrip(s: PidState, period: Int32)
    requires period > 0
    requires s.sampleTime < 0x8000_0000
    ensures SetSampleTime(SetSampleTime(s, period), s.sampleTime as Int32) == s
  {
  }

  /** Two period changes in a row amount to the last one alone. */
  lemma SetSampleTimeComposes(s: PidState, a: Int32, b: Int32)
    requires a > 0 && b > 0
    ensures SetSampleTime(SetSampleTime(s, a), b) == SetSampleTime(s, b)
  {
  }

  lemma SetOutputLimitsIdempotent(s: PidState, lo: real, hi: real)
    ensures SetOutputLimits(SetOutputLimits(s, lo, hi), lo, hi) == SetOutputLimits(s, lo, hi)
  {
  }

  /** Asking for automatic mode twice initializes only once. */
  lemma SetModeIdempotent(s: PidState, mode: Int32)
    ensures SetMode(SetMode(s, mode), mode) == SetMode(s, mode)
    ensures GetMode(SetMode(s, mode)) == (if mode == AUTOMATIC then AUTOMATIC else MANUAL)
  {
  }

  /** Bumpless transfer: entering automatic mode seeds the accumulator from
      the command in the output cell and the derivative from the measurement,
      and changes nothing else. */
  lemma BumplessTransfer(s: PidState)
    requires !s.inAuto
    ensures SetMode(s, AUTOMATIC).outputSum == Clamp(s.output, s.outMin, s.outMax)
    ensures SetMode(s, AUTOMATIC).lastInput == s.input
    ensures SetMode(s, AUTOMATIC).output == s.output
    ensures SetMode(s, AUTOMATIC) == s.(inAuto := true, outputSum := Clamp(s.output, s.outMin, s.outMax),
                                        lastInput := s.input)
  {
  }

  /** Flipping the direction away and back restores the record exactly, in
      either mode; the display gains are never touched. */
  lemma DirectionRoundTrip(s: PidState, d: Int32)
    ensures SetControllerDirection(SetControllerDirection(s, d), s.controllerDirection) == s
    ensures GetDirection(SetControllerDirection(s, d)) == d
    ensures GetKp(SetControllerDirection(s, d)) == GetKp(s)
    ensures GetKi(SetControllerDirection(s, d)) == GetKi(s)
    ensures GetKd(SetControllerDirection(s, d)) == GetKd(s)
  {
  }

  // ---------------------------------------------------------------------
  // The time gate

  /** Once a step has run, no further step runs until a full period has
      passed on the wrapping clock, whatever the caller writes into the input
      and setpoint cells meanwhile; the output cell keeps its value. */
  lemma NoStepWithinPeriod(s: PidState, t1: U32, t2: U32, input: real, setpoint: real)
    requires Compute(s, t1).0
    requires WrappingSub(t2, t1) < s.sampleTime
    ensures var s1 := Compute(s, t1).1.(input := input, setpoint := setpoint);
            Compute(s1, t2) == (false, s1)
  {
  }

  /** After construction and a switch to automatic mode, the first step is
      due at once: the time stamp of construction lies one period in the
      past, and this survives a wrap of the clock in between, as long as
      fewer than 2^32 - 100 ms have passed. */
  lemma FirstStepIsDue(prior: PidState, input: real, output: real, setpoint: real,
                       Kp: real, Ki: real, Kd: real, POn: Int32, direction: Int32,
                       now0: U32, d: nat)
    requires d < Modulus - 100
    ensures var s := SetMode(Construct(prior, input, output, setpoint, Kp, Ki, Kd, POn, direction, now0),
                             AUTOMATIC);
            Compute(s, Advance(now0, d)).0
  {
  }

  // ---------------------------------------------------------------------
  // The control law in terms of the display gains

  // The textbook discrete PID terms over a sample period of `dt` seconds,
  // with gains per second: the integral grows by Ki·e·dt, the derivative of
  // the measurement is approximated by dInput/dt.
  function TextbookProportional(Kp: real, e: real): real { Kp * e }
  function TextbookIntegral(Ki: real, dt: real, e: real): real { Ki * dt * e }
  function TextbookDerivative(Kd: real, dt: real, dInput: real): real
    requires dt > 0.0
  {
    Kd * dInput / dt
  }

  /** Each working-gain product of a step equals the textbook term formed
      from the display gains, signed by the direction. */
  lemma TermsMatchTextbook(s: PidState)
    requires GainsMatch(s)
    ensures ProportionalOnError(s) == Signed(s.controllerDirection, TextbookProportional(s.dispKp, Error(s)))
    ensures IntegralStep(s)
            == Signed(s.controllerDirection, TextbookIntegral(s.dispKi, Seconds(s.sampleTime), Error(s)))
    ensures DerivativeOnMeasurement(s)
            == Signed(s.controllerDirection, TextbookDerivative(s.dispKd, Seconds(s.sampleTime), DInput(s)))
  {
  }



  /** While the working gains match the display gains, a step with
      proportional on error is the textbook discrete PID law with the
      per-second gains the user supplied, signed by the direction: the
      accumulator gains Ki·dt·error, and the command is
      Kp·error + accumulator − Kd·dInput/dt, both clamped. */
  lemma StepIsDiscretePid(s: PidState, now: U32)
    requires GainsMatch(s) && s.pOnE
    ensures var dt := Seconds(s.sampleTime);
            var d := s.controllerDirection;
            var r := Sample(s, now);
            && r.outputSum == Clamp(s.outputSum + Signed(d, TextbookIntegral(s.dispKi, dt, Error(s))),
                                    s.outMin, s.outMax)
            && r.output == Clamp(Signed(d, TextbookProportional(s.dispKp, Error(s))) + r.outputSum
                                 - Signed(d, TextbookDerivative(s.dispKd, dt, DInput(s))),
                                 s.outMin, s.outMax)
  {
    TermsMatchTextbook(s);
  }

  // ---------------------------------------------------------------------
  // Integration over a run of accepted steps

  /** One reading a caller supplies per step: the clock, the measurement,
      the setpoint. */
  datatype Reading = Reading(now: U32, input: real, setpoint: real)

  function Feed(s: PidState, x: Reading): PidState
  {
    s.(input := x.input, setpoint := x.setpoint)
  }

  /** The loop the caller runs: write the cells, then call `Compute`. */
  function Track(s: PidState, xs: seq<Reading>): PidState
    decreases |xs|
  {
    if xs == [] then s else Track(Compute(Feed(s, xs[0]), xs[0].now).1, xs[1..])
  }

  /** The accumulator before its clamp, as `Compute` forms it. */
  function RawSum(s: PidState): real
  {
    s.outputSum + IntegralStep(s) - (if s.pOnE then 0.0 else ProportionalOnMeasurement(s))
  }

  /** Every step in the run is due, and no step saturates the accumulator. */
  ghost predicate Unsaturated(s: PidState, xs: seq<Reading>)
    decreases |xs|
  {
    xs == [] ||
      var f := Feed(s, xs[0]);
      && Compute(f, xs[0].now).0
      && s.outMin <= RawSum(f) <= s.outMax
      && Unsaturated(Compute(f, xs[0].now).1, xs[1..])
  }

  /** ki times the sum of the errors of the readings: the integral term
      the accumulator collects over the run. */
  function IntegralOver(ki: real, xs: seq<Reading>): real
    decreases |xs|
  {
    if xs == [] then 0.0 else Integrate(ki, xs[0]) + IntegralOver(ki, xs[1..])
  }

  /** ki times the error of one reading. */
  function Integrate(ki: real, x: Reading): real { ki * (x.setpoint - x.input) }

  /** kp times the net change of the measurement from `a` to `b`. */
  function Drift(kp: real, a: real, b: real): real { kp * (b - a) }


  /** The drift of the measurement over two stretches adds up. */
  lemma DriftTelescopes(kp: real, a: real, b: real, c: real)
    ensures Drift(kp, a, b) + Drift(kp, b, c) == Drift(kp, a, c)
  {
  }

  /** One accepted, unsaturated step of the loop. */
  lemma TrackStep(s: PidState, x: Reading)
    requires Compute(Feed(s, x), x.now).0
    requires s.outMin <= RawSum(Feed(s, x)) <= s.outMax
    ensures var s1 := Compute(Feed(s, x), x.now).1;
            && s1.outputSum == s.outputSum + Integrate(s.ki, x)
                               - (if s.pOnE then 0.0 else Drift(s.kp, s.lastInput, x.input))
            && s1.lastInput == x.input
            && s1.ki == s.ki && s1.kp == s.kp && s1.pOnE == s.pOnE
            && s1.outMin == s.outMin && s1.outMax == s.outMax
  {
  }

  /** Over a run that never saturates, the accumulator collects ki times
      the sum of the errors; with proportional on measurement it also loses
      kp times the NET change of the measurement since the run began, so a
      step in the setpoint causes no proportional kick. */
  lemma {:induction false} AccumulatorIntegratesError(s: PidState, xs: seq<Reading>)
    requires Unsaturated(s, xs)
    ensures Track(s, xs).outputSum
            == s.outputSum + IntegralOver(s.ki, xs)
               - (if s.pOnE then 0.0 else Drift(s.kp, s.lastInput, Track(s, xs).lastInput))
    ensures Track(s, xs).ki == s.ki && Track(s, xs).kp == s.kp && Track(s, xs).pOnE == s.pOnE
    decreases |xs|
  {
    if xs != [] {
      var s1 := Compute(Feed(s, xs[0]), xs[0].now).1;
      TrackStep(s, xs[0]);
      AccumulatorIntegratesError(s1, xs[1..]);
      DriftTelescopes(s.kp, s.lastInput, xs[0].input, Track(s1, xs[1..]).lastInput);
    }
  }
}
