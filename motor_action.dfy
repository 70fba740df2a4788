/** The values shared by every stage of the control loop: the robot state tag,
    the motor action record, the sensor snapshot, the observable events of the
    hardware drivers, and the C integer conversions the loop relies on. */
module MotorActions {

  /** ROBOT_STATE: the behaviour currently in control. */
  datatype RobotState = Startup | Exploring | LineFollow

  /** `signed short int` and `unsigned short int` of the target compiler. */
  type Int16 = x: int | -32768 <= x <= 32767
  type UInt16 = x: int | 0 <= x <= 65535

  /** MOTOR_ACTION: the full actuation intent plus the state tag that produced it. */
  datatype MotorAction = MotorAction(
    state: RobotState,
    speedL: Int16,
    speedR: Int16,
    accelL: UInt16,
    accelR: UInt16)

  /** The value written by __RESET_ACTION, and the initial value of the
      previous action retained by `act`. */
  const ResetAction: MotorAction := MotorAction(Startup, 0, 0, 0, 0)

  /** SENSOR_DATA: the two normalised reflectance readings. The C fields are
      `float`; here they are exact reals. */
  datatype SensorData = SensorData(leftLine: real, rightLine: real)

  /** What the core asks of the foreign LCD and stepper drivers. */
  datatype Event =
    | LcdClear
    | LcdPrint(text: string)
    | LcdPrintAt(row: nat, col: nat, text: string)
      /** STEPPER_set_accel2 followed by STEPPER_runn, issued together. */
    | Motor(accelL: UInt16, accelR: UInt16, speedL: Int16, speedR: Int16)

  /** The driver call made by the __MOTOR_ACTION macro for an action. */
  function MotorCommand(a: MotorAction): Event
  {
    Motor(a.accelL, a.accelR, a.speedL, a.speedR)
  }

  /** compare_actions: TRUE exactly when no field of the two actions differs,
      that is, exactly when the two records are equal. */
  function CompareActions(a: MotorAction, b: MotorAction): (same: bool)
    ensures same <==> a == b
  {
    !(a.state != b.state || a.speedL != b.speedL || a.speedR != b.speedR
      || a.accelL != b.accelL || a.accelR != b.accelR)
  }

  /** compare_actions is an equivalence: reflexive, symmetric and transitive. */
  lemma CompareActionsIsEquivalence(a: MotorAction, b: MotorAction, c: MotorAction)
    ensures CompareActions(a, a)
    ensures CompareActions(a, b) == CompareActions(b, a)
    ensures CompareActions(a, b) && CompareActions(b, c) ==> CompareActions(a, c)
  {
  }

  /** A real whose truncation toward zero is a `signed short`; converting any
      other value to `signed short` is undefined behaviour in C. */
  predicate FitsShort(x: real)
  {
    -32769.0 < x < 32768.0
  }

  /** The implicit float to `signed short` conversion of an assignment:
      truncation toward zero. */
  function TruncToShort(x: real): (r: Int16)
    requires FitsShort(x)
    ensures x >= 0.0 ==> 0 <= r && r as real <= x < r as real + 1.0
    ensures x < 0.0 ==> r <= 0 && r as real - 1.0 < x <= r as real
  {
    if x >= 0.0 then x.Floor else -((-x).Floor)
  }
}
