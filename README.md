# Line-following robot control loop, modelled in Dafny

The model covers the decision and arbitration logic of the CEENBoT line follower's control loop (`main.c`). It has four parts:

- **Motor actions** (`motor_action.dfy`, module `MotorActions`). These are the `ROBOT_STATE` tag, the `MOTOR_ACTION` record with `signed short` speeds and `unsigned short` accelerations, and the `SENSOR_DATA` snapshot. The module also holds `compare_actions` and the implicit float → `signed short` conversion, which truncates toward zero.
- **PID controller** (`pid.dfy`, module `PidControl`). It models the globals `integral` and `last_error`, one call of `PID`, and repeated calls under a constant error.
- **Line-follow decision** (`line_follow.dfy`, module `LineFollowing`). `LINE_Follow` is modelled as a function. It covers the dead-band (4.3, 4.7), the right-priority choice of `position`, and the two correction blocks with their floors (3 and 5). It also covers the centred cruise speeds (30, 30) and the unreachable (50, 50) fallback.
- **Arbitration and status** (`arbitration.dfy`, `status.dfy`). `act` issues a motor command only when the candidate differs from the retained previous action. `info_display` redraws the LCD only when the state changes, or always for STARTUP.
- **Controller** (`robot.dfy`, class `Robot.Controller`). Its fields are the retained state of the loop: the global `action`, the statics `previous_action` and `previous_state`, and the PID globals. Its methods update these fields in place, as the C code does. Each method is proved against the functions above. A ghost `log` records every LCD and stepper driver call in order.

Speeds, readings and the PID accumulators are exact `real`/`int` values: the model ignores IEEE-754 rounding. Where C stores a float result in a `signed short`, `TruncToShort` truncates toward zero. Under a precondition (`FitsShort`, collected per call in `FollowFits`), the value must fit the type; out of range, the C conversion is undefined. The `<= 0` clamp tests look at the truncated value, as in the source.

Quirks of the code that the model keeps on purpose:

- The two correction blocks test `position` by value, not by which channel was chosen. With equal readings both blocks run. `PID` is then called twice, and the left block's speeds overwrite the right block's (`EqualOffTargetReadings`).
- A right reading equal to a centred left reading still calls `PID`, but the speeds do not change (`BothCentred`).
- `LINE_Follow` drives the motors directly on every pass (main.c:293), ignoring the dedup in `act`. `act` may then drive them a second time (main.c:312). `Controller.Step` states both calls in the log. `CentredTwice` gives the whole log of two passes: three motor calls, two from `LINE_Follow` and one from `act`.

Two values that follow from the code's own constants and types:

- **The correction is not the error.** For reading (left 5.0, right 2.0) on a fresh controller, the error is 2.5. The gains of main.c:17-19 sum to 1.03, so `PID` returns 0.3·2.5 + 0.7·2.5 + 0.03·2.5 = 2.575 (`FreshCorrection`).
- **Speeds are truncated.** The stores at main.c:243-244 truncate 97.425 and 102.575 to the `signed short` speeds 97 and 102 (`ScenarioRightLow`).

## Model

| member | source | states |
|---|---|---|
| `MotorActions.CompareActions` | main.c:135-150 | TRUE exactly when the two actions agree on state, both speeds and both accelerations, i.e. exactly when the records are equal |
| `MotorActions.CompareActionsIsEquivalence` | main.c:141-148 | the comparison is reflexive, symmetric and transitive |
| `MotorActions.TruncToShort` | main.c:243-244 | the float → `signed short` store truncates toward zero: for x ≥ 0 the result r satisfies r ≤ x < r+1; for x < 0 it satisfies r−1 < x ≤ r |
| `PidControl.UpdateEffect` | main.c:215-221 | one call adds the error e = setpoint − measured to `integral` and sets `last_error` to e. It returns 0.3·e + 0.7·integral′ + 0.03·(e − old last_error) |
| `PidControl.ConstantErrorAccumulates` | main.c:215-221 | n calls under a constant error e grow `integral` by exactly n·e, with no decay; afterwards `last_error` is e |
| `PidControl.SteadyDerivativeVanishes` | main.c:218-220 | under a constant error, once one call has been made, the derivative term drops out of every later correction |
| `PidControl.WindupIsMonotone` | main.c:215-221 | from zero-initialised globals, each call under a constant nonzero error strictly increases the magnitude of `integral` in the error's sign (no anti-windup) |
| `PidControl.FreshCorrection` | main.c:215-221 | PID(4.5, 2.0) on fresh globals returns 2.575 and leaves integral = last_error = 2.5 |
| `LineFollowing.PositionIsAReading` | main.c:229-233 | `position` is always one of the readings. It equals the right reading iff that reading is off-target or the readings are equal, and the left reading iff the right reading is centred or they are equal |
| `LineFollowing.FollowFrame` | main.c:223-295 | every call leaves state = LINE_FOLLOW and both accelerations unchanged. One or two blocks run, and the (50, 50) branch never fires. The LCD is cleared first and the motors are driven last |
| `LineFollowing.FollowDrivesMotorsOnce` | main.c:293 | LINE_Follow makes exactly one `__MOTOR_ACTION` per pass, and it is its last event. One `Motor` event stands for the macro's STEPPER_set_accel2 and STEPPER_runn calls together (main.c:36-37) |
| `LineFollowing.RightPath` | main.c:237-256 | for an off-target right reading that differs from the left one, PID is called once. At ≤ 4.3: speed_L = clamp3(trunc(100 − adj)) and speed_R = trunc(100 + adj). At ≥ 4.7: the mirror image, with the floor of 3 on speed_R |
| `LineFollowing.LeftPath` | main.c:258-281 | for a centred right reading and an off-target left one, PID is called once. The polarity is swapped relative to the right path and the floor is 5 |
| `LineFollowing.BothCentred` | main.c:229-290 | for two centred readings, the speeds are exactly (30, 30), state is LINE_FOLLOW and the accelerations are kept. PID runs, with no speed effect, iff the readings are equal |
| `LineFollowing.EqualOffTargetReadings` | main.c:237-291 | equal off-target readings run both blocks. PID is called twice, and the final speeds are the left block's, computed from the second correction |
| `LineFollowing.ScenarioRightLow` | main.c:223-256 | reading (left 5.0, right 2.0) on fresh globals selects the right channel. Branch "shift left R" fires and gives speeds (97, 102) |
| `Arbitration.Arbitrate` | main.c:298-319 | act issues the motor command iff the candidate differs from the retained previous action. Afterwards the retained action equals the candidate |
| `Arbitration.ActIsIdempotent` | main.c:309-317 | a second call with the same candidate issues nothing and keeps the retained action |
| `Arbitration.ReplayBounds` | main.c:309-317 | over any run of passes, act makes no more motor calls in all than there are passes, every event is a motor call, and the retained action is the last candidate. The per-call bound of one is `Arbitrate`'s own contract |
| `Arbitration.RepeatedCandidateIssuesAtMostOnce` | main.c:303-317 | one candidate repeated for n passes is issued exactly once if it differs from the retained action, and never otherwise |
| `Arbitration.FirstActAgainstReset` | main.c:303-307 | the retained action starts as {STARTUP, 0, 0, 0, 0}. A first candidate is issued iff it differs from that action, so every LINE_FOLLOW candidate is issued |
| `Status.Display` | main.c:97-132 | redraws iff the state differs from the retained one or is STARTUP. The redraw is a clear followed by the state's line. Afterwards the retained state is the new one |
| `Status.MessageTable` | main.c:108-125 | STARTUP → "Starting...", LINE_FOLLOW → "Following line...", and every other state, EXPLORING included, → "Unknown state!" |
| `Status.TwoCallsSameState` | main.c:102-130 | two calls with the same non-STARTUP state redraw at most once, and exactly once when the state is new; two STARTUP calls redraw twice |
| `Robot.Controller.constructor` | main.c:82-87 | at loop entry: the global action is reset by `__RESET_ACTION` (main.c:23-30, 334); `previous_action` = {STARTUP,0,0,0,0} (main.c:303-307); `previous_state` = STARTUP (main.c:102); integral = last_error = 0 (main.c:86-87) |
| `Robot.Controller.Pid` | main.c:215-221 | updates `integral` and `last_error` in place and returns the correction of `PidControl.Update` |
| `Robot.Controller.FollowLine` | main.c:223-295 | writes `action` field by field and leaves it, the PID globals and the log exactly as `Follow` says. The state becomes LINE_FOLLOW, the accelerations are untouched, and the statics of act and info_display are left alone |
| `Robot.Controller.RightCorrection` | main.c:237-257 | the right-channel block, run in place, equals `RightBlock` |
| `Robot.Controller.LeftCorrection` | main.c:258-291 | the left-channel block, run in place, equals `LeftBlock` |
| `Robot.Controller.Act` | main.c:298-319 | drives the motors (logged) iff the candidate differs from `previous_action`, then stores the candidate |
| `Robot.Controller.InfoDisplay` | main.c:97-132 | clears and prints the state's line (logged) iff the state changed or is STARTUP, then stores the state |
| `Robot.Controller.Step` | main.c:347-363 | one loop pass: LINE_Follow, act, info_display. The log holds LINE_Follow's direct motor call, then act's call iff the new action differs. The status is redrawn iff the previous state was not LINE_FOLLOW |
| `Robot.CentredTwice` | main.c:347-363 | from power-on, two passes over the same centred reading. The first pass issues through act and redraws; the second does neither. The full log is given: each pass has LINE_Follow's clear, "straight" and direct motor call; the first pass also has act's motor call and the status redraw |

## Left out

- `LINE_sense` (main.c:153-213) is not modelled. Its timer-service objects, ADC channel selection and sampling, LED heartbeat and LCD print are peripheral I/O. The model takes the sensor reading as the input of each pass.
- `sensor_data` in `CBOT_main` is never initialised. The first `LINE_sense` call only starts the timer, so the first `LINE_Follow` reads indeterminate values. The model takes any reading as input and does not model this.
- `CBOT_main`'s set-up is not modelled: module open calls, `ADC_set_VREF`, the 3-second delay and the unbounded `while (1)`. Only one loop body (`Controller.Step`) is modelled. The constructor stands for the state just before the loop.
- The LCD and stepper drivers are foreign code. They appear only as entries of the ghost event log, not as effects.
- IEEE-754 `float`/`double` arithmetic is not modelled. Readings, gains and accumulators are exact reals, so rounding, NaN and overflow of the accumulators are not captured.
- An out-of-range float → `signed short` conversion is undefined behaviour in C. Preconditions (`FitsShort`, `Fits`, `FollowFits`) exclude it.
- `volatile` qualifiers are not modelled. The loop is single-threaded, and nothing else writes these variables.
- Robot.Controller.LeftCorrection: the (50, 50) `else` branch (main.c:282-285) is a bare `assert false` in the method, because its enclosing test makes it unreachable. The function `LeftBlock` keeps the two writes as written, and `FollowFrame` proves the branch never fires.
