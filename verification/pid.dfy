/** The discrete-time PID controller of PID_ESP32/PID.c, a C port of the
    Arduino PID Library v1.2.1.

    The C code works on one record (`PID_t`) through a pointer; here every
    operation is a pure function from the record before the call to the
    record after it. The three caller-owned cells the record points to
    (input, output, setpoint) are modelled as plain fields of the record:
    the caller "writes" them with a record update, the controller reads
    `input` and `setpoint` and writes `output`. `double` is modelled as
    `real`; the millisecond clock is passed in as `now`.
 */
module Pid {
  import opened Clock

  // Values of the mode, direction and proportional-mode constants of the
  // Arduino PID Library v1.2.1 header. The code only ever compares against
  // them, so any other value simply fails the comparison.
  const AUTOMATIC: Int32 := 1
  const MANUAL: Int32 := 0
  const DIRECT: Int32 := 0
  const REVERSE: Int32 := 1
  const P_ON_M: Int32 := 0
  const P_ON_E: Int32 := 1

  /** The sample period in milliseconds. The record only ever receives 100
      (at construction) or a positive `int`, so it is never zero. */
  type Period = x: int | 0 < x < 0x1_0000_0000 witness 100

  /** The controller record `PID_t`, with the three external cells inlined. */
  datatype PidState = PidState(
    // external cells: process variable, command written by the controller, desired value
    input: real,
    output: real,
    setpoint: real,
    // the gains as the user supplied them, for display only
    dispKp: real,
    dispKi: real,
    dispKd: real,
    // the working gains: ki and kd scaled by the sample period, all three
    // negated for a reverse-acting process
    kp: real,
    ki: real,
    kd: real,
    pOn: Int32,
    pOnE: bool,
    // integral accumulator and memory of the previous accepted sample
    outputSum: real,
    lastInput: real,
    lastTime: U32,
    sampleTime: Period,
    outMin: real,
    outMax: real,
    controllerDirection: Int32,
    inAuto: bool)

  /** The clamp the C code writes out by hand at every bound check: the upper
      bound is tested first, then the lower one. */
  function Clamp(x: real, lo: real, hi: real): (r: real)
    ensures lo <= hi ==> lo <= r <= hi
    ensures lo <= hi ==> (r == x <==> lo <= x <= hi)
    ensures x > hi ==> r == hi
    ensures lo <= hi && x < lo ==> r == lo
  {
    if x > hi then hi else if x < lo then lo else x
  }

  /** The sample period in seconds. */
  function Seconds(t: Period): (r: real)
    ensures r > 0.0
    ensures r * 1000.0 == t as real
  {
    t as real / 1000.0
  }

  /** A gain as the working gains carry it for a given direction: negated
      for a reverse-acting process. */
  function Signed(direction: Int32, k: real): real
  {
    if direction == REVERSE then -k else k
  }

  /** The working gains are the display gains, scaled by the sample period
      and signed by the stored direction. */
  ghost predicate GainsMatch(s: PidState)
  {
    && s.kp == Signed(s.controllerDirection, s.dispKp)
    && s.ki == Signed(s.controllerDirection, s.dispKi * Seconds(s.sampleTime))
    && s.kd == Signed(s.controllerDirection, s.dispKd / Seconds(s.sampleTime))
  }

  /** Error and change of the measurement that `PID_Compute` works with. */
  function Error(s: PidState): real { s.setpoint - s.input }
  function DInput(s: PidState): real { s.input - s.lastInput }

  // The four products `PID_Compute` forms from the working gains.
  function IntegralStep(s: PidState): real { s.ki * Error(s) }
  function ProportionalOnError(s: PidState): real { s.kp * Error(s) }
  function ProportionalOnMeasurement(s: PidState): real { s.kp * DInput(s) }
  function DerivativeOnMeasurement(s: PidState): real { s.kd * DInput(s) }

  /** The body of `PID_Compute` once the step is due: integrate, clamp the
      accumulator, form and clamp the command, remember the sample. */
  function Sample(s: PidState, now: U32): (r: PidState)
    // only the accumulator, the output cell and the sample memory change
    ensures r == s.(outputSum := r.outputSum, output := r.output,
                    lastInput := s.input, lastTime := now)
    // anti-windup: both the accumulator and the command stay within the limits
    ensures s.outMin <= s.outMax ==>
              && s.outMin <= r.outputSum <= s.outMax
              && s.outMin <= r.output <= s.outMax
    // proportional on error: the accumulator integrates ki·error, the command adds kp·error
    ensures s.pOnE ==>
              && r.outputSum == Clamp(s.outputSum + IntegralStep(s), s.outMin, s.outMax)
              && r.output == Clamp(ProportionalOnError(s) + r.outputSum - DerivativeOnMeasurement(s),
                                   s.outMin, s.outMax)
    // proportional on measurement: kp·dInput is taken out of the accumulator
    // before its clamp, and the command carries no kp·error term
    ensures !s.pOnE ==>
              && r.outputSum == Clamp(s.outputSum + IntegralStep(s) - ProportionalOnMeasurement(s),
                                      s.outMin, s.outMax)
              && r.output == Clamp(r.outputSum - DerivativeOnMeasurement(s), s.outMin, s.outMax)
  {
    var sum0 := s.outputSum + IntegralStep(s);
    var sum1 := if !s.pOnE then sum0 - ProportionalOnMeasurement(s) else sum0;
    var sum := Clamp(sum1, s.outMin, s.outMax);
    var output0 := if s.pOnE then ProportionalOnError(s) else 0.0;
    var output := Clamp(output0 + sum - DerivativeOnMeasurement(s), s.outMin, s.outMax);
    s.(outputSum := sum, output := output, lastInput := s.input, lastTime := now)
  }

  /** `PID_Compute`: the time-gated control step. Returns whether a new
      output was computed, together with the record afterwards. */
  function Compute(s: PidState, now: U32): (r: (bool, PidState))
    // outside automatic mode, or before a full period has elapsed on the
    // wrapping clock, nothing happens at all
    ensures r.0 <==> s.inAuto && WrappingSub(now, s.lastTime) >= s.sampleTime
    ensures !r.0 ==> r.1 == s
    ensures r.0 ==> r.1 == Sample(s, now)
  {
    if !s.inAuto then (false, s)
    else
      var timeChange := WrappingSub(now, s.lastTime);
      if timeChange >= s.sampleTime then (true, Sample(s, now))
      else (false, s)
  }

  /** `PID_SetTunings`: negative gains are rejected; otherwise the display
      gains are stored as given and the working gains re-derived from them. */
  function SetTunings(s: PidState, Kp: real, Ki: real, Kd: real, POn: Int32): (r: PidState)
    ensures Kp < 0.0 || Ki < 0.0 || Kd < 0.0 ==> r == s
    ensures Kp >= 0.0 && Ki >= 0.0 && Kd >= 0.0 ==>
              && r.dispKp == Kp && r.dispKi == Ki && r.dispKd == Kd
              && r.pOn == POn && (r.pOnE <==> POn == P_ON_E)
              // kp = Kp, ki = Ki·period, kd = Kd/period, negated iff REVERSE
              && GainsMatch(r)
              && r == s.(dispKp := Kp, dispKi := Ki, dispKd := Kd, pOn := POn, pOnE := r.pOnE,
                         kp := r.kp, ki := r.ki, kd := r.kd)
  {
    if Kp < 0.0 || Ki < 0.0 || Kd < 0.0 then s
    else
      var sampleTimeInSec := Seconds(s.sampleTime);
      var t := s.(pOn := POn, pOnE := POn == P_ON_E,
                  dispKp := Kp, dispKi := Ki, dispKd := Kd,
                  kp := Kp, ki := Ki * sampleTimeInSec, kd := Kd / sampleTimeInSec);
      if t.controllerDirection == REVERSE then
        t.(kp := 0.0 - t.kp, ki := 0.0 - t.ki, kd := 0.0 - t.kd)
      else t
  }

  /** `PID_SetTunings_simple`: `SetTunings` with the remembered proportional mode. */
  function SetTuningsSimple(s: PidState, Kp: real, Ki: real, Kd: real): (r: PidState)
    ensures Kp < 0.0 || Ki < 0.0 || Kd < 0.0 ==> r == s
    ensures Kp >= 0.0 && Ki >= 0.0 && Kd >= 0.0 ==>
              && r.dispKp == Kp && r.dispKi == Ki && r.dispKd == Kd
              && r.pOn == s.pOn && (r.pOnE <==> s.pOn == P_ON_E)
              && GainsMatch(r)
              && r == s.(dispKp := Kp, dispKi := Ki, dispKd := Kd, pOnE := r.pOnE,
                         kp := r.kp, ki := r.ki, kd := r.kd)
  {
    SetTunings(s, Kp, Ki, Kd, s.pOn)
  }

  /** `PID_SetSampleTime`: a non-positive period is rejected; otherwise the
      period is stored and only the working ki and kd are rescaled, by the
      ratio new/old and old/new (see `SetSampleTimeKeepsRates`). */
  function SetSampleTime(s: PidState, newSampleTime: Int32): (r: PidState)
    ensures newSampleTime <= 0 ==> r == s
    ensures newSampleTime > 0 ==>
              && r.sampleTime == newSampleTime
              && r == s.(ki := r.ki, kd := r.kd, sampleTime := newSampleTime)
  {
    if newSampleTime > 0 then
      var ratio := newSampleTime as real / s.sampleTime as real;
      s.(ki := s.ki * ratio, kd := s.kd / ratio, sampleTime := newSampleTime as int)
    else s
  }

  /** `PID_SetOutputLimits`: an empty or inverted range is rejected; otherwise
      the bounds are stored, and only in automatic mode are the output cell
      and the accumulator pulled into them. */
  function SetOutputLimits(s: PidState, lo: real, hi: real): (r: PidState)
    ensures lo >= hi ==> r == s
    ensures lo < hi ==> r.outMin == lo && r.outMax == hi
    ensures lo < hi && s.inAuto ==>
              && lo <= r.output <= hi && lo <= r.outputSum <= hi
              && (lo <= s.output <= hi ==> r.output == s.output)
              && (lo <= s.outputSum <= hi ==> r.outputSum == s.outputSum)
              && r == s.(outMin := lo, outMax := hi, output := r.output, outputSum := r.outputSum)
    // a value outside the new range goes to the nearer bound
    ensures lo < hi && s.inAuto ==>
              r.output == Clamp(s.output, lo, hi) && r.outputSum == Clamp(s.outputSum, lo, hi)
    ensures lo < hi && !s.inAuto ==> r == s.(outMin := lo, outMax := hi)
  {
    if lo >= hi then s
    else
      var t := s.(outMin := lo, outMax := hi);
      if t.inAuto then
        t.(output := Clamp(t.output, t.outMin, t.outMax),
           outputSum := Clamp(t.outputSum, t.outMin, t.outMax))
      else t
  }

  /** `PID_Initialize`: bumpless transfer. The accumulator resumes from the
      command currently in the output cell (clamped), and the derivative
      starts from the current measurement. */
  function Initialize(s: PidState): (r: PidState)
    ensures s.outMin <= s.outMax ==> s.outMin <= r.outputSum <= s.outMax
    ensures s.outMin <= s.output <= s.outMax ==> r.outputSum == s.output
    ensures r.outputSum == Clamp(s.output, s.outMin, s.outMax)
    ensures r == s.(outputSum := r.outputSum, lastInput := s.input)
  {
    s.(outputSum := Clamp(s.output, s.outMin, s.outMax), lastInput := s.input)
  }

  /** `PID_SetMode`: any mode other than AUTOMATIC means manual; only the
      manual-to-automatic transition initializes the controller. */
  function SetMode(s: PidState, mode: Int32): (r: PidState)
    ensures r.inAuto <==> mode == AUTOMATIC
    ensures mode == AUTOMATIC && !s.inAuto ==> r == Initialize(s).(inAuto := true)
    ensures !(mode == AUTOMATIC && !s.inAuto) ==> r == s.(inAuto := mode == AUTOMATIC)
  {
    var newAuto := mode == AUTOMATIC;
    var t := if newAuto && !s.inAuto then Initialize(s) else s;
    t.(inAuto := newAuto)
  }

  /** `PID_SetControllerDirection`: the direction is always stored; the
      working gains change sign only in automatic mode and only when the
      direction actually changes. The display gains are never touched. */
  function SetControllerDirection(s: PidState, direction: Int32): (r: PidState)
    ensures r.controllerDirection == direction
    ensures s.inAuto && direction != s.controllerDirection ==>
              r == s.(kp := -s.kp, ki := -s.ki, kd := -s.kd, controllerDirection := direction)
    ensures !(s.inAuto && direction != s.controllerDirection) ==>
              r == s.(controllerDirection := direction)
  {
    if s.inAuto && direction != s.controllerDirection then
      s.(kp := 0.0 - s.kp, ki := 0.0 - s.ki, kd := 0.0 - s.kd, controllerDirection := direction)
    else
      s.(controllerDirection := direction)
  }

  /** `PID_constructor`. `prior` is whatever the record held before the call:
      the C constructor never assigns the accumulator or the previous
      measurement, and leaves the gains alone when `SetTunings` rejects them.
      `now` is the clock reading taken at construction. */
  function Construct(prior: PidState, input: real, output: real, setpoint: real,
                     Kp: real, Ki: real, Kd: real, POn: Int32, direction: Int32,
                     now: U32): (s: PidState)
    ensures s.input == input && s.output == output && s.setpoint == setpoint
    ensures s.outMin == 0.0 && s.outMax == 255.0
    ensures s.sampleTime == 100 && !s.inAuto
    ensures s.controllerDirection == direction
    // the first step becomes due the moment the controller is constructed
    ensures s.lastTime == WrappingSub(now, 100)
    ensures s.outputSum == prior.outputSum && s.lastInput == prior.lastInput
    ensures Kp >= 0.0 && Ki >= 0.0 && Kd >= 0.0 ==>
              && s.dispKp == Kp && s.dispKi == Ki && s.dispKd == Kd
              && s.pOn == POn && (s.pOnE <==> POn == P_ON_E)
              && GainsMatch(s)
    ensures Kp < 0.0 || Ki < 0.0 || Kd < 0.0 ==>
              && s.dispKp == prior.dispKp && s.dispKi == prior.dispKi && s.dispKd == prior.dispKd
              && s.kp == prior.kp && s.ki == prior.ki && s.kd == prior.kd
              && s.pOn == prior.pOn && s.pOnE == prior.pOnE
  {
    var s0 := prior.(input := input, output := output, setpoint := setpoint, inAuto := false);
    var s1 := SetOutputLimits(s0, 0.0, 255.0);
    var s2 := s1.(sampleTime := 100);
    var s3 := SetControllerDirection(s2, direction);
    var s4 := SetTunings(s3, Kp, Ki, Kd, POn);
    s4.(lastTime := WrappingSub(now, s4.sampleTime))
  }

  // Read accessors (`PID_GetKp` … `PID_GetDirection`).

  function GetKp(s: PidState): real { s.dispKp }
  function GetKi(s: PidState): real { s.dispKi }
  function GetKd(s: PidState): real { s.dispKd }
  function GetMode(s: PidState): Int32 { if s.inAuto then AUTOMATIC else MANUAL }
  function GetDirection(s: PidState): Int32 { s.controllerDirection }
}
