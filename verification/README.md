# PID controller (ESP32 port of the Arduino PID Library v1.2.1), modelled in Dafny

This project models the discrete-time PID controller of `PID_ESP32/PID.c`.
That file is a C port of the Arduino PID Library v1.2.1. The controller is
one record (`PID_t`) that a control loop calls periodically. `PID_Compute`
is time-gated. When a full sample period has passed on the millisecond
clock, it integrates the error into an accumulator, optionally folds a
proportional-on-measurement term into that accumulator, subtracts a
derivative-on-measurement term, and clamps both the accumulator
(anti-windup) and the command into `[outMin, outMax]`. The configuration
calls re-derive the working gains, pull the accumulator and command into new
limits, or re-initialize the controller. `SetTunings`, `SetTunings_simple`,
`SetSampleTime` and `SetOutputLimits` silently reject invalid arguments.
`SetMode` and `SetControllerDirection` accept any `int`: every mode other
than `AUTOMATIC` means manual, and any direction value is stored. In
automatic mode, any change of direction value negates the working gains,
even to a value other than `DIRECT` or `REVERSE`.

Files:

- `clock.dfy` (module `Clock`): the 32-bit machine types and the wrapping
  millisecond clock.
- `pid.dfy` (module `Pid`): the record, and one pure function per C
  operation (record before the call → record after it).
- `pid_properties.dfy` (module `PidProperties`): properties that relate
  several calls. These are the invariants every call keeps, round trips,
  idempotence, the time gate, the control law in terms of the display
  gains, and the accumulator over a run of steps.
- `scenarios.dfy` (module `PidScenarios`): concrete runs with numbers.

Modelling choices:

- `double` is `real`.
- The clock (`unsigned long`, 32 bits on the ESP32) is `U32`. Elapsed time is
  the wrapping difference `(now - lastTime) mod 2^32`. The clock reading is a
  parameter `now` of `Compute` and `Construct`.
- The external input, output and setpoint cells are fields of the record.
  A caller writing a cell is a record update.
- `int` arguments are `Int32`. The mode, direction and proportional-mode
  constants take the values of the Arduino PID Library v1.2.1 header
  (`AUTOMATIC = 1`, `MANUAL = 0`, `DIRECT = 0`, `REVERSE = 1`, `P_ON_E = 1`,
  `P_ON_M = 0`). The code only compares against them, so any other value
  just fails the comparison, as in C. `PID_v1.h` is not part of this model.
- `SetMode` follows the code (`PID.c:192`), which tests `Mode == AUTOMATIC`.
  The comment above it (`PID.c:186`) says any non-zero mode is automatic;
  under the header's constants a mode of 2 is manual in the code.
- `Construct` takes `prior`, whatever the record held before the call. The C
  constructor never assigns `outputSum` or `lastInput`. It also leaves the
  gains unset when `PID_SetTunings` rejects a negative gain.
- The sample period field is `Period` (1 … 2^32−1). The only values ever
  stored in it are 100 and a positive `int`, so zero cannot occur.

A direction change made in manual mode stores the new direction but does
not re-sign the working gains (`PID.c:219`). The model keeps this behaviour.
`ManualDirectionChangeBreaksGainsMatch` shows the resulting mismatch, and
`RetuningRestoresGainsMatch` shows that re-applying the tunings repairs it.

## Model

| member | source | states |
|---|---|---|
| Clock.WrappingSub | PID_ESP32/PID.c:81 | unsigned subtraction equals `now - lastTime`, plus 2^32 when the clock has wrapped past `lastTime` |
| Clock.ElapsedSurvivesWrap | PID_ESP32/PID.c:80-83 | the gate measures the true elapsed time across a clock wrap-around, for any elapsed time below 2^32 ms |
| Pid.Clamp | PID_ESP32/PID.c:93-94 | the hand-written bound check yields a value in `[lo, hi]`, and leaves the value unchanged exactly when it is already inside |
| Pid.Sample | PID_ESP32/PID.c:84-111 | an accepted step keeps accumulator and command in `[outMin, outMax]`, records `lastInput = input` and `lastTime = now`, and changes nothing else. With P_ON_E the command is clamp(kp·error + sum − kd·dInput). With P_ON_M, kp·dInput leaves the accumulator before its clamp and the command has no kp·error term |
| Pid.Compute | PID_ESP32/PID.c:77-114 | returns true exactly when in automatic mode and a full period has elapsed on the wrapping clock; otherwise the record, output cell included, is unchanged |
| Pid.SetTunings | PID_ESP32/PID.c:121-140 | any negative gain leaves the record unchanged. Otherwise the display gains are the supplied ones, `pOnE` holds iff `POn == P_ON_E`, kp = Kp, ki = Ki·period, kd = Kd/period, all negated iff the direction is REVERSE, and nothing else changes |
| Pid.SetTuningsSimple | PID_ESP32/PID.c:145-147 | negative gains leave the record unchanged. Otherwise, as `SetTunings` with the remembered `pOn`: the display gains are the supplied ones, the working gains match them and the direction, `pOn` is kept, and nothing else changes |
| Pid.SetSampleTime | PID_ESP32/PID.c:152-161 | a non-positive period is rejected. Otherwise the new period is stored and only ki and kd change besides it; the display gains and everything else are untouched |
| PidProperties.SetSampleTimeKeepsRates | PID_ESP32/PID.c:155-158 | after an accepted period change, `ki/period` and `kd·period` equal their values before it: the gains per second are preserved |
| Pid.SetOutputLimits | PID_ESP32/PID.c:171-184 | `Min >= Max` is rejected. Otherwise the bounds are stored. In automatic mode the output cell and the accumulator each move to the nearer bound when outside the range and are unchanged when inside it. In manual mode only the bounds change |
| Pid.Initialize | PID_ESP32/PID.c:205-210 | the accumulator is the output cell moved to the nearer limit when it lies outside them (equal to it when in range), and `lastInput` is the current input; nothing else changes |
| Pid.SetMode | PID_ESP32/PID.c:191-199 | `inAuto` becomes `Mode == AUTOMATIC`; only the manual-to-automatic transition runs `Initialize` |
| Pid.SetControllerDirection | PID_ESP32/PID.c:218-226 | the direction is always stored; kp, ki and kd are negated exactly when automatic and the direction differs; display gains are never touched |
| Pid.Construct | PID_ESP32/PID.c:41-57 | limits [0, 255], period 100 ms, manual mode, the given direction, `lastTime = now − 100` (wrapping). Non-negative gains and `POn` are stored, with working gains that match the direction; a negative gain leaves the prior gains in place |
| PidProperties.ClampIdempotent | PID_ESP32/PID.c:178-182 | clamping an already-clamped value changes nothing |
| PidProperties.ClampIsMinOfMax | PID_ESP32/PID.c:104-105 | the upper-then-lower bound check equals `min(hi, max(lo, x))` |
| PidProperties.ConstructEstablishesInv | PID_ESP32/PID.c:46-48 | a freshly constructed controller has a non-empty range of limits and is manual |
| PidProperties.StepPreservesInv | PID_ESP32/PID.c:93-94 | every call, and every write to a cell, keeps `outMin < outMax` and, while automatic, the accumulator within the limits |
| PidProperties.RunPreservesInv | PID_ESP32/PID.c:171-210 | the same holds over any sequence of calls and cell writes |
| PidProperties.SetSampleTimePreservesGainsMatch | PID_ESP32/PID.c:152-161 | after a period change the working gains are still the display gains scaled by the new period, so the per-second gains are unchanged |
| PidProperties.AutoDirectionChangePreservesGainsMatch | PID_ESP32/PID.c:219-224 | switching between DIRECT and REVERSE in automatic mode re-signs the working gains to match the new direction |
| PidProperties.StepPreservesGainsMatch | PID_ESP32/PID.c:121-226 | every call keeps working and display gains consistent, except a direction change made in manual mode, or one from or to a value other than DIRECT or REVERSE |
| PidProperties.ManualDirectionChangeBreaksGainsMatch | PID_ESP32/PID.c:219 | a direction change made in manual mode leaves the working gains with the old sign |
| PidProperties.RetuningRestoresGainsMatch | PID_ESP32/PID.c:145-147 | re-applying the displayed tunings makes the working gains consistent with the direction again |
| PidProperties.GettersReturnSuppliedTunings | PID_ESP32/PID.c:233-251 | after accepted tunings, `GetKp/GetKi/GetKd` return exactly the supplied values whatever the direction; mode and direction are unchanged |
| PidProperties.SetTuningsIdempotent | PID_ESP32/PID.c:121-140 | applying the same tunings twice is applying them once |
| PidProperties.SetSampleTimeRoundTrip | PID_ESP32/PID.c:152-161 | changing the period and changing it back restores the record exactly |
| PidProperties.SetSampleTimeComposes | PID_ESP32/PID.c:155-159 | two period changes in a row equal the last one alone |
| PidProperties.SetOutputLimitsIdempotent | PID_ESP32/PID.c:171-184 | setting the same limits twice is setting them once |
| PidProperties.SetModeIdempotent | PID_ESP32/PID.c:191-199 | `SetMode(AUTOMATIC)` twice equals once (no second initialization); `GetMode` reports the mode set |
| PidProperties.BumplessTransfer | PID_ESP32/PID.c:194-209 | in any manual state, switching to automatic seeds the accumulator with the clamped output and `lastInput` with the input, leaving the output cell and all else as they were |
| PidProperties.DirectionRoundTrip | PID_ESP32/PID.c:218-226 | flipping the direction away and back restores the record in either mode; `GetDirection` reports the new direction; the display gains never change |
| PidProperties.NoStepWithinPeriod | PID_ESP32/PID.c:81-83 | after an accepted step, a call less than one period later on the wrapping clock returns false and changes nothing, whatever was written to input and setpoint |
| PidProperties.FirstStepIsDue | PID_ESP32/PID.c:56 | after construction and entering automatic mode, a step at any time 0 … 2^32−101 ms after construction is due, even across a clock wrap |
| PidProperties.TermsMatchTextbook | PID_ESP32/PID.c:129-139 | while the gains match, kp·error, ki·error and kd·dInput equal the textbook terms Kp·e, Ki·dt·e and Kd·dInput/dt of the display gains, signed by direction |
| PidProperties.StepIsDiscretePid | PID_ESP32/PID.c:86-105 | with P_ON_E and matching gains, a step is the textbook discrete PID law with the per-second display gains over a period of dt seconds |
| PidProperties.TrackStep | PID_ESP32/PID.c:85-110 | one accepted, unsaturated step adds ki·error to the accumulator (minus kp·dInput with P_ON_M) and keeps the gains |
| PidProperties.AccumulatorIntegratesError | PID_ESP32/PID.c:88-94 | over a run of unsaturated steps the accumulator collects ki·Σerror; with P_ON_M it also loses kp times the net change of the measurement, so a setpoint step causes no proportional kick |
| PidScenarios.ProportionalOnly | PID_ESP32/PID.c:41-111 | setpoint 10, input 0, Kp = 1: the first step after entering automatic mode outputs 10 |
| PidScenarios.IntegralPersists | PID_ESP32/PID.c:88-110 | with Ki = 0.1/s and 100 ms steps, the accumulator is 0.1 then 0.2 across two steps and the output is 10.1 then 10.2 |
| PidScenarios.NarrowingLimitsClamps | PID_ESP32/PID.c:176-183 | narrowing the limits to [0, 50] in automatic mode pulls an output and accumulator of 100 down to 50 |

## Left out

- `millis()` and the FreeRTOS tick source (`PID.c:33-35`): the clock reading is a parameter `now` instead.
- The ESP-IDF GPIO, I2C and logging includes (`PID.c:19-27`): no logic from them is used.
- IEEE-754 rounding, NaN and infinities: `double` is modelled as exact `real` arithmetic. Every equality about gains, such as the round trip of `SetSampleTime`, holds exactly over reals and only approximately in `double`.
- Pointer aliasing and the lifetime of the caller's input, output and setpoint cells: they are record fields, so they cannot alias each other or the record.
- The commented-out `PID_constructor_simple` (`PID.c:64-68`): it is dead code.
- The getters `GetKp`, `GetKi`, `GetKd`, `GetMode` and `GetDirection` are plain field reads without contracts of their own. What they return is stated by `GettersReturnSuppliedTunings`, `SetModeIdempotent` and `DirectionRoundTrip`.
