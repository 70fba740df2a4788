/** info_display: redraw the LCD status only when the state tag changes, or
    always for STARTUP. */
module Status {
  import opened MotorActions

  /** The status line for each state; any state without its own line,
      EXPLORING included, falls back to the unknown-state text. */
  function Message(s: RobotState): string
  {
    match s
    case Startup => "Starting...\n"
    case LineFollow => "Following line...\n"
    case _ => "Unknown state!\n"
  }

  /** The retained previous state, whether the LCD was redrawn, and the
      driver calls made by one call of info_display. */
  datatype Report = Report(previous: RobotState, redraw: bool, events: seq<Event>)

  /** One call of info_display for state `s` against the retained `previous`. */
  function Display(previous: RobotState, s: RobotState): (r: Report)
    ensures r.redraw <==> s != previous || s == Startup
    ensures r.previous == s
    ensures r.events == if r.redraw then [LcdClear, LcdPrint(Message(s))] else []
  {
    if s != previous || s == Startup then Report(s, true, [LcdClear, LcdPrint(Message(s))])
    else Report(previous, false, [])
  }

  /** Each state has its fixed text; the fallback is shared by every state
      other than STARTUP and LINE_FOLLOW. */
  lemma MessageTable(s: RobotState)
    ensures Message(Startup) == "Starting...\n"
    ensures Message(LineFollow) == "Following line...\n"
    ensures Message(Exploring) == "Unknown state!\n"
    ensures Message(s) == "Starting...\n" <==> s == Startup
    ensures Message(s) == "Following line...\n" <==> s == LineFollow
  {
  }

  /** Two calls with the same state: a state other than STARTUP is drawn at
      most once (exactly once when it is new), STARTUP is drawn both times. */
  lemma TwoCallsSameState(previous: RobotState, s: RobotState)
    ensures var first := Display(previous, s);
      var second := Display(first.previous, s);
      if s == Startup then first.redraw && second.redraw
      else !second.redraw && (first.redraw <==> previous != s)
  {
  }
}
