/** The retained state of the control loop and the operations that update it
    in place: the global `action`, the statics of `act` and `info_display`,
    and the PID globals. Driver calls are appended to a ghost event log. */
module Robot {
  import opened MotorActions
  import opened PidControl
  import opened LineFollowing
  import opened Arbitration
  import opened Status

  class Controller {
    /** The global `action` that LINE_Follow writes and `act` reads. */
    var action: MotorAction
    /** The static `previous_action` of `act`. */
    var previousAction: MotorAction
    /** The static `previous_state` of `info_display`. */
    var previousState: RobotState
    /** The PID globals. */
    var integral: real
    var lastError: real
    /** Every LCD and stepper driver call made so far, in order. */
    ghost var log: seq<Event>

    function Memory(): PidState
      reads this
    {
      PidState(integral, lastError)
    }

    /** The state at the top of the first loop pass: `action` reset, both
        statics at their initialisers, the PID globals zero. */
    constructor ()
      ensures action == ResetAction && previousAction == ResetAction
      ensures previousState == Startup
      ensures Memory() == Fresh
      ensures log == []
    {
      action := ResetAction;
      previousAction := ResetAction;
      previousState := Startup;
      integral := 0.0;
      lastError := 0.0;
      log := [];
    }

    /** PID(setpoint, measured_value). */
    method Pid(setpoint: real, measured: real) returns (adjustment: real)
      modifies this`integral, this`lastError
      ensures integral == old(integral) + (setpoint - measured)
      ensures lastError == setpoint - measured
      ensures Memory() == Update(old(Memory()), setpoint, measured).next
      ensures adjustment == Update(old(Memory()), setpoint, measured).output
    {
      var error := setpoint - measured;
      integral := integral + error;
      var derivative := error - lastError;
      lastError := error;
      adjustment := Kp * error + Ki * integral + Kd * derivative;
    }

    /** LINE_Follow(&action, sensors): writes the state tag and the speeds of
        `action` field by field, then drives the motors directly. */
    method FollowLine(sensors: SensorData)
      requires FollowFits(sensors, Memory())
      modifies this`action, this`integral, this`lastError, this`log
      ensures var out := Follow(old(action), sensors, old(Memory()));
        action == out.action && Memory() == out.pid && log == old(log) + out.events
      ensures action.state == LineFollow
      ensures action.accelL == old(action.accelL) && action.accelR == old(action.accelR)
      ensures previousAction == old(previousAction) && previousState == old(previousState)
    {
      var leftSensor := sensors.leftLine;
      var rightSensor := sensors.rightLine;
      var position: real;
      ghost var a0, p0, logIn := action, Memory(), log;
      log := log + [LcdClear];
      ghost var log0 := log;

      if rightSensor <= DeadBandLow || rightSensor >= DeadBandHigh {
        position := sensors.rightLine;
      } else {
        position := sensors.leftLine;
      }
      assert position == Position(sensors);

      action := action.(state := LineFollow);

      ghost var right := if position == rightSensor then RightBlock(action, position, p0)
                         else Block(action, p0, [], []);
      if position == rightSensor {
        RightCorrection(position);
      }
      assert action == right.action && Memory() == right.pid;
      assert log == log0 + right.events;
      assert Memory() == PidBeforeLeft(sensors, p0);

      ghost var left := if position == leftSensor then LeftBlock(action, position, right.pid)
                        else Block(action, right.pid, [], []);
      ghost var log1 := log;
      if position == leftSensor {
        LeftCorrection(position);
      }
      assert action == left.action && Memory() == left.pid;
      assert log == log1 + left.events;

      log := log + [MotorCommand(action)];
      ghost var out := Follow(a0, sensors, p0);
      assert out.events == [LcdClear] + right.events + left.events
                           + [MotorCommand(action)];
      assert log == logIn + out.events;
    }

    /** The block LINE_Follow runs when `position` equals the right reading:
        one PID call, then speeds steered by the correction with a floor of 3. */
    method RightCorrection(position: real)
      requires OffTarget(position) ==> Fits(Update(Memory(), Target, position).output)
      modifies this`action, this`integral, this`lastError, this`log
      ensures var b := RightBlock(old(action), position, old(Memory()));
        action == b.action && Memory() == b.pid && log == old(log) + b.events
    {
      var adjustment := Pid(Target, position);
      if position <= DeadBandLow {
        action := action.(speedL := TruncToShort(BaseSpeed - adjustment));
        action := action.(speedR := TruncToShort(BaseSpeed + adjustment));
        if action.speedL <= 0 {
          action := action.(speedL := RightFloor);
        }
        log := log + [LcdPrintAt(3, 0, "shift left R\n")];
      } else if position >= DeadBandHigh {
        action := action.(speedL := TruncToShort(BaseSpeed + adjustment));
        action := action.(speedR := TruncToShort(BaseSpeed - adjustment));
        if action.speedR <= 0 {
          action := action.(speedR := RightFloor);
        }
        log := log + [LcdPrintAt(3, 0, "shift right\n")];
      }
    }

    /** The block LINE_Follow runs when `position` equals the left reading:
        a PID call and inverted steering with a floor of 5 when off-target,
        the cruise speeds otherwise. */
    method LeftCorrection(position: real)
      requires OffTarget(position) ==> Fits(Update(Memory(), Target, position).output)
      modifies this`action, this`integral, this`lastError, this`log
      ensures var b := LeftBlock(old(action), position, old(Memory()));
        action == b.action && Memory() == b.pid && log == old(log) + b.events
    {
      if position <= DeadBandLow || position >= DeadBandHigh {
        var adjustment := Pid(Target, position);
        if position <= DeadBandLow {
          action := action.(speedL := TruncToShort(BaseSpeed + adjustment));
          action := action.(speedR := TruncToShort(BaseSpeed - adjustment));
          if action.speedR <= 0 {
            action := action.(speedR := LeftFloor);
          }
          log := log + [LcdPrintAt(3, 0, "shift right AL\n")];
        } else if position >= DeadBandHigh {
          action := action.(speedL := TruncToShort(BaseSpeed - adjustment));
          action := action.(speedR := TruncToShort(BaseSpeed + adjustment));
          if action.speedL <= 0 {
            action := action.(speedL := LeftFloor);
          }
          log := log + [LcdPrintAt(3, 0, "shift left AL\n")];
        } else {
          // The C code writes (50, 50) here; the enclosing test makes this
          // branch unreachable, and LeftBlock keeps the writes as written.
          assert false;
        }
      } else {
        log := log + [LcdPrintAt(3, 0, "straight\n")];
        action := action.(speedL := Cruise);
        action := action.(speedR := Cruise);
      }
    }

    /** act(candidate): drive the motors and remember the candidate only when it
        differs from the previously issued action. */
    method Act(candidate: MotorAction) returns (issued: bool)
      modifies this`previousAction, this`log
      ensures issued <==> candidate != old(previousAction)
      ensures previousAction == candidate
      ensures log == old(log) + (if issued then [MotorCommand(candidate)] else [])
      ensures Arbitrate(old(previousAction), candidate)
              == ActOutcome(previousAction, issued, log[|old(log)|..])
    {
      issued := false;
      if !CompareActions(candidate, previousAction) {
        log := log + [MotorCommand(candidate)];
        previousAction := candidate;
        issued := true;
      }
    }

    /** info_display(a): redraw the status line only on a state change, or
        always for STARTUP, and remember the state shown. */
    method InfoDisplay(a: MotorAction) returns (redraw: bool)
      modifies this`previousState, this`log
      ensures redraw <==> a.state != old(previousState) || a.state == Startup
      ensures previousState == a.state
      ensures log == old(log) + (if redraw then [LcdClear, LcdPrint(Message(a.state))] else [])
      ensures Display(old(previousState), a.state)
              == Report(previousState, redraw, log[|old(log)|..])
    {
      redraw := false;
      if a.state != previousState || a.state == Startup {
        log := log + [LcdClear];
        match a.state {
          case Startup =>
            log := log + [LcdPrint("Starting...\n")];
          case LineFollow =>
            log := log + [LcdPrint("Following line...\n")];
          case _ =>
            log := log + [LcdPrint("Unknown state!\n")];
        }
        previousState := a.state;
        redraw := true;
      }
    }

    /** One pass of the arbitration loop after sensing:
        LINE_Follow, then act, then info_display, all on the global `action`. */
    method Step(sensors: SensorData) returns (issued: bool, redraw: bool)
      requires FollowFits(sensors, Memory())
      modifies this
      ensures var out := Follow(old(action), sensors, old(Memory()));
        && action == out.action && Memory() == out.pid
        && previousAction == out.action
        && (issued <==> out.action != old(previousAction))
        && previousState == LineFollow
        && (redraw <==> old(previousState) != LineFollow)
        && log == old(log) + out.events
                  + (if issued then [MotorCommand(out.action)] else [])
                  + (if redraw then [LcdClear, LcdPrint("Following line...\n")] else [])
    {
      FollowLine(sensors);
      issued := Act(action);
      redraw := InfoDisplay(action);
    }
  }

  /** Two passes over centred readings from power-on: the first pass redraws
      the status and actuates through `act`; the second repeats the cruise
      command, so `act` stays silent and nothing is redrawn, although
      LINE_Follow still drives the motors directly on both passes: the log
      holds three motor calls, two from LINE_Follow and one from `act`. */
  method CentredTwice() returns (issued1: bool, redraw1: bool, issued2: bool, redraw2: bool,
                                 ghost log: seq<Event>)
    ensures issued1 && redraw1 && !issued2 && !redraw2
    ensures log == [LcdClear, LcdPrintAt(3, 0, "straight\n"), Motor(0, 0, 30, 30),
                    Motor(0, 0, 30, 30),
                    LcdClear, LcdPrint("Following line...\n"),
                    LcdClear, LcdPrintAt(3, 0, "straight\n"), Motor(0, 0, 30, 30)]
  {
    var c := new Controller();
    var centred := SensorData(4.4, 4.6);
    BothCentred(c.action, centred, c.Memory());
    issued1, redraw1 := c.Step(centred);
    BothCentred(c.action, centred, c.Memory());
    issued2, redraw2 := c.Step(centred);
    log := c.log;
  }
}
