/** The PID controller of the steering behaviour. Its two process-wide
    accumulators are idealised as exact reals: no IEEE-754 rounding. */
module PidControl {

  const Kp: real := 0.3
  const Ki: real := 0.7
  const Kd: real := 0.03

  /** The globals `integral` and `last_error`. */
  datatype PidState = PidState(integral: real, lastError: real)

  /** Both globals are zero-initialised at process start and never reset. */
  const Fresh: PidState := PidState(0.0, 0.0)

  /** The new accumulators and the correction returned by one call. */
  datatype PidResult = PidResult(next: PidState, output: real)

  /** One call of PID(setpoint, measured_value). */
  function Update(s: PidState, setpoint: real, measured: real): PidResult
  {
    var error := setpoint - measured;
    var integral := s.integral + error;
    var derivative := error - s.lastError;
    PidResult(PidState(integral, error), Kp * error + Ki * integral + Kd * derivative)
  }

  /** The accumulators after `n` consecutive calls with the same arguments. */
  function Repeat(s: PidState, setpoint: real, measured: real, n: nat): PidState
    decreases n
  {
    if n == 0 then s else Update(Repeat(s, setpoint, measured, n - 1), setpoint, measured).next
  }

  /** One call moves `integral` by exactly the error, records the error as
      `last_error`, and returns the weighted sum of the error, the new
      integral and the change of error since the previous call. */
  lemma UpdateEffect(s: PidState, setpoint: real, measured: real)
    ensures var r := Update(s, setpoint, measured);
      && r.next.integral == s.integral + (setpoint - measured)
      && r.next.lastError == setpoint - measured
      && r.output == Kp * (setpoint - measured) + Ki * r.next.integral
                     + Kd * ((setpoint - measured) - s.lastError)
  {
  }

  /** Under a constant error `e`, n calls grow `integral` by exactly n*e, with
      no decay; after at least one call `last_error` is `e`. */
  lemma {:induction false} ConstantErrorAccumulates(s: PidState, setpoint: real, measured: real, n: nat)
    ensures Repeat(s, setpoint, measured, n).integral
            == s.integral + (n as real) * (setpoint - measured)
    ensures n > 0 ==> Repeat(s, setpoint, measured, n).lastError == setpoint - measured
    decreases n
  {
    if n > 0 {
      ConstantErrorAccumulates(s, setpoint, measured, n - 1);
      var e := setpoint - measured;
      assert (n as real) * e == ((n - 1) as real) * e + e;
    }
  }

  /** Under a constant error, once one call has been made the derivative term
      vanishes: the next correction is Kp*e + Ki*(integral + e). */
  lemma {:induction false} SteadyDerivativeVanishes(s: PidState, setpoint: real, measured: real, n: nat)
    requires n > 0
    ensures var before := Repeat(s, setpoint, measured, n);
      Update(before, setpoint, measured).output
      == Kp * (setpoint - measured) + Ki * (before.integral + (setpoint - measured))
  {
    ConstantErrorAccumulates(s, setpoint, measured, n);
  }

  /** No anti-windup: from a fresh controller, every call under a constant
      nonzero error strictly increases the magnitude of `integral`. */
  lemma {:induction false} WindupIsMonotone(setpoint: real, measured: real, n: nat)
    requires setpoint != measured
    ensures var before := Repeat(Fresh, setpoint, measured, n).integral;
      var after := Repeat(Fresh, setpoint, measured, n + 1).integral;
      if setpoint > measured then 0.0 <= before < after else after < before <= 0.0
  {
    ConstantErrorAccumulates(Fresh, setpoint, measured, n);
    ConstantErrorAccumulates(Fresh, setpoint, measured, n + 1);
    var e := setpoint - measured;
    assert ((n + 1) as real) * e == (n as real) * e + e;
    if e > 0.0 {
      assert (n as real) * e >= 0.0;
    } else {
      assert (n as real) * e <= 0.0;
    }
  }

  /** A fresh controller asked for PID(4.5, 2.0) returns 0.3*2.5 + 0.7*2.5 + 0.03*2.5. */
  lemma FreshCorrection()
    ensures Update(Fresh, 4.5, 2.0).output == 2.575
    ensures Update(Fresh, 4.5, 2.0).next == PidState(2.5, 2.5)
  {
  }
}
