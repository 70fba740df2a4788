/** LINE_Follow: the dead-band classification of the two readings, the
    right-priority choice of `position`, and the two correction blocks that
    write the candidate speeds. As in the C code, the two blocks test
    `position` by value, so equal readings run both. */
module LineFollowing {
  import opened MotorActions
  import opened PidControl

  const BaseSpeed: real := 100.0
  const DeadBandLow: real := 4.3
  const DeadBandHigh: real := 4.7
  const Target: real := 4.5

  /** Floors substituted for a non-positive truncated speed: 3 on the
      right-channel path, 5 on the left-channel path. */
  const RightFloor: Int16 := 3
  const LeftFloor: Int16 := 5
  /** Speeds written by the centred branch of the left path. */
  const Cruise: Int16 := 30
  /** Speeds written by the last `else` of the left correction. */
  const Half: Int16 := 50

  /** A reading asks for correction when it is not strictly inside the dead-band. */
  predicate OffTarget(v: real)
  {
    v <= DeadBandLow || v >= DeadBandHigh
  }

  /** The right reading when it is off-target, and the left reading otherwise. */
  function Position(r: SensorData): real
  {
    if r.rightLine <= DeadBandLow || r.rightLine >= DeadBandHigh then r.rightLine else r.leftLine
  }

  /** The branches of LINE_Follow that can fire. */
  datatype Branch =
    | ShiftLeftR      // right path, position <= 4.3
    | ShiftRight      // right path, position >= 4.7
    | RightNoChange   // right path entered with a centred position: PID only
    | ShiftRightAL    // left path, position <= 4.3
    | ShiftLeftAL     // left path, position >= 4.7
    | HalfSpeed       // left path, the (50, 50) fallback
    | Straight        // left path, centred: cruise

  /** The annotation LINE_Follow prints at row 3, column 0. */
  function Annotate(text: string): seq<Event>
  {
    [LcdPrintAt(3, 0, text)]
  }

  /** Both speeds computed from a correction can be stored in a `signed short`. */
  predicate Fits(adjustment: real)
  {
    FitsShort(BaseSpeed - adjustment) && FitsShort(BaseSpeed + adjustment)
  }

  /** A truncated speed, replaced by `floor` when it is not positive. */
  function Clamp(v: Int16, floor: Int16): Int16
  {
    if v <= 0 then floor else v
  }

  /** The action, the PID accumulators, the branch fired and the LCD output
      after a block. */
  datatype Block = Block(action: MotorAction, pid: PidState, fired: seq<Branch>, events: seq<Event>)

  /** The block entered when `position` equals the right reading. */
  function RightBlock(a: MotorAction, position: real, p: PidState): Block
    requires OffTarget(position) ==> Fits(Update(p, Target, position).output)
  {
    var u := Update(p, Target, position);
    if position <= DeadBandLow then
      var l := TruncToShort(BaseSpeed - u.output);
      var r := TruncToShort(BaseSpeed + u.output);
      Block(a.(speedL := Clamp(l, RightFloor), speedR := r), u.next, [ShiftLeftR], Annotate("shift left R\n"))
    else if position >= DeadBandHigh then
      var l := TruncToShort(BaseSpeed + u.output);
      var r := TruncToShort(BaseSpeed - u.output);
      Block(a.(speedL := l, speedR := Clamp(r, RightFloor)), u.next, [ShiftRight], Annotate("shift right\n"))
    else
      Block(a, u.next, [RightNoChange], [])
  }

  /** The block entered when `position` equals the left reading. */
  function LeftBlock(a: MotorAction, position: real, p: PidState): Block
    requires OffTarget(position) ==> Fits(Update(p, Target, position).output)
  {
    if position <= DeadBandLow || position >= DeadBandHigh then
      var u := Update(p, Target, position);
      if position <= DeadBandLow then
        var l := TruncToShort(BaseSpeed + u.output);
        var r := TruncToShort(BaseSpeed - u.output);
        Block(a.(speedL := l, speedR := Clamp(r, LeftFloor)), u.next, [ShiftRightAL], Annotate("shift right AL\n"))
      else if position >= DeadBandHigh then
        var l := TruncToShort(BaseSpeed - u.output);
        var r := TruncToShort(BaseSpeed + u.output);
        Block(a.(speedL := Clamp(l, LeftFloor), speedR := r), u.next, [ShiftLeftAL], Annotate("shift left AL\n"))
      else
        Block(a.(speedL := Half, speedR := Half), u.next, [HalfSpeed], [])
    else
      Block(a.(speedL := Cruise, speedR := Cruise), p, [Straight], Annotate("straight\n"))
  }

  /** The accumulators the left block starts from: those left by the right
      block when it ran. */
  function PidBeforeLeft(r: SensorData, p: PidState): PidState
  {
    var position := Position(r);
    if position == r.rightLine then Update(p, Target, position).next else p
  }

  /** Every speed LINE_Follow writes for this reading and these accumulators
      fits a `signed short`. */
  predicate FollowFits(r: SensorData, p: PidState)
  {
    var position := Position(r);
    && (position == r.rightLine && OffTarget(position) ==> Fits(Update(p, Target, position).output))
    && (position == r.leftLine && OffTarget(position)
        ==> Fits(Update(PidBeforeLeft(r, p), Target, position).output))
  }

  /** The new action, the new accumulators, the branches fired and the driver
      calls of one LINE_Follow. */
  datatype FollowResult = FollowResult(
    action: MotorAction, pid: PidState, fired: seq<Branch>, events: seq<Event>)

  /** One call of LINE_Follow on the action `a`. */
  function Follow(a: MotorAction, r: SensorData, p: PidState): FollowResult
    requires FollowFits(r, p)
  {
    var position := Position(r);
    var tagged := a.(state := LineFollow);
    var right := if position == r.rightLine then RightBlock(tagged, position, p)
                 else Block(tagged, p, [], []);
    var left := if position == r.leftLine then LeftBlock(right.action, position, right.pid)
                else Block(right.action, right.pid, [], []);
    var fired := right.fired + left.fired;
    FollowResult(left.action, left.pid, fired,
                 [LcdClear] + right.events + left.events
                 + [MotorCommand(left.action)])
  }

  /** `position` is always one of the two readings: it is the right reading
      exactly when that one is off-target or both are equal. */
  lemma PositionIsAReading(r: SensorData)
    ensures Position(r) == r.rightLine || Position(r) == r.leftLine
    ensures Position(r) == r.rightLine <==> OffTarget(r.rightLine) || r.leftLine == r.rightLine
    ensures Position(r) == r.leftLine <==> !OffTarget(r.rightLine) || r.leftLine == r.rightLine
  {
  }

  /** Whatever the branch, LINE_Follow tags the action LINE_FOLLOW, leaves both
      accelerations alone, clears the LCD first and drives the motors last
      (bypassing the dedup of `act`). At least one block runs, and the
      (50, 50) fallback never fires. */
  lemma FollowFrame(a: MotorAction, r: SensorData, p: PidState)
    requires FollowFits(r, p)
    ensures var out := Follow(a, r, p);
      && out.action.state == LineFollow
      && out.action.accelL == a.accelL && out.action.accelR == a.accelR
      && 1 <= |out.fired| <= 2
      && HalfSpeed !in out.fired
      && out.events[0] == LcdClear
      && out.events[|out.events| - 1] == MotorCommand(out.action)
  {
  }

  /** LINE_Follow makes exactly one motor-driver call, its last event. */
  lemma FollowDrivesMotorsOnce(a: MotorAction, r: SensorData, p: PidState)
    requires FollowFits(r, p)
    ensures var out := Follow(a, r, p);
      forall i :: 0 <= i < |out.events| ==> (out.events[i].Motor? <==> i == |out.events| - 1)
  {
  }

  /** Right-channel path: the right reading is off-target and differs from the
      left one. One PID call; below the band the left speed drops (floor 3),
      above it the right speed drops (floor 3). */
  lemma RightPath(a: MotorAction, r: SensorData, p: PidState)
    requires FollowFits(r, p)
    requires OffTarget(r.rightLine) && r.leftLine != r.rightLine
    ensures var out := Follow(a, r, p);
      var u := Update(p, Target, r.rightLine);
      && Fits(u.output)
      && out.pid == u.next
      && (r.rightLine <= DeadBandLow ==>
            && out.fired == [ShiftLeftR]
            && out.action.speedL == Clamp(TruncToShort(BaseSpeed - u.output), RightFloor)
            && out.action.speedR == TruncToShort(BaseSpeed + u.output))
      && (r.rightLine >= DeadBandHigh ==>
            && out.fired == [ShiftRight]
            && out.action.speedL == TruncToShort(BaseSpeed + u.output)
            && out.action.speedR == Clamp(TruncToShort(BaseSpeed - u.output), RightFloor))
  {
  }

  /** Left-channel path: the right reading is centred and the left one is
      off-target. One PID call, with the polarity swapped relative to the
      right path and a floor of 5. */
  lemma LeftPath(a: MotorAction, r: SensorData, p: PidState)
    requires FollowFits(r, p)
    requires !OffTarget(r.rightLine) && OffTarget(r.leftLine)
    ensures var out := Follow(a, r, p);
      var u := Update(p, Target, r.leftLine);
      && Fits(u.output)
      && out.pid == u.next
      && (r.leftLine <= DeadBandLow ==>
            && out.fired == [ShiftRightAL]
            && out.action.speedL == TruncToShort(BaseSpeed + u.output)
            && out.action.speedR == Clamp(TruncToShort(BaseSpeed - u.output), LeftFloor))
      && (r.leftLine >= DeadBandHigh ==>
            && out.fired == [ShiftLeftAL]
            && out.action.speedL == Clamp(TruncToShort(BaseSpeed - u.output), LeftFloor)
            && out.action.speedR == TruncToShort(BaseSpeed + u.output))
  {
  }

  /** Both readings centred: the cruise command (30, 30). The PID is still
      called, with no effect on the speeds, when the two readings are equal. */
  lemma BothCentred(a: MotorAction, r: SensorData, p: PidState)
    requires !OffTarget(r.rightLine) && !OffTarget(r.leftLine)
    ensures FollowFits(r, p)
    ensures var out := Follow(a, r, p);
      && out.action == MotorAction(LineFollow, Cruise, Cruise, a.accelL, a.accelR)
      && out.fired == (if r.leftLine == r.rightLine then [RightNoChange, Straight] else [Straight])
      && out.pid == (if r.leftLine == r.rightLine then Update(p, Target, r.rightLine).next else p)
  {
  }

  /** Equal off-target readings run both blocks: the PID is called twice and
      the left block's speeds, computed from the second correction, overwrite
      the right block's. */
  lemma EqualOffTargetReadings(a: MotorAction, r: SensorData, p: PidState)
    requires FollowFits(r, p)
    requires r.leftLine == r.rightLine && OffTarget(r.rightLine)
    ensures var out := Follow(a, r, p);
      var v := r.rightLine;
      var u2 := Update(Update(p, Target, v).next, Target, v);
      && Fits(u2.output)
      && out.pid == u2.next
      && (v <= DeadBandLow ==>
            && out.fired == [ShiftLeftR, ShiftRightAL]
            && out.action.speedL == TruncToShort(BaseSpeed + u2.output)
            && out.action.speedR == Clamp(TruncToShort(BaseSpeed - u2.output), LeftFloor))
      && (v >= DeadBandHigh ==>
            && out.fired == [ShiftRight, ShiftLeftAL]
            && out.action.speedL == Clamp(TruncToShort(BaseSpeed - u2.output), LeftFloor)
            && out.action.speedR == TruncToShort(BaseSpeed + u2.output))
  {
  }

  /** Reading (left 5.0, right 2.0) on a fresh controller: the right channel is
      chosen, the correction is 2.575, and the stored speeds are the truncations
      97 and 102. */
  lemma ScenarioRightLow(a: MotorAction)
    ensures FollowFits(SensorData(5.0, 2.0), Fresh)
    ensures var out := Follow(a, SensorData(5.0, 2.0), Fresh);
      && out.fired == [ShiftLeftR]
      && out.action == MotorAction(LineFollow, 97, 102, a.accelL, a.accelR)
      && out.pid == PidState(2.5, 2.5)
  {
    FreshCorrection();
    assert TruncToShort(BaseSpeed - 2.575) == 97;
    assert TruncToShort(BaseSpeed + 2.575) == 102;
  }
}
