/** act: issue a motor command only when the candidate differs from the
    previously issued one (jitter suppression). */
module Arbitration {
  import opened MotorActions

  /** The retained previous action, whether the motors were driven, and the
      driver calls made by one call of `act`. */
  datatype ActOutcome = ActOutcome(previous: MotorAction, issued: bool, events: seq<Event>)

  /** One call of act(candidate) against the retained `previous`. */
  function Arbitrate(previous: MotorAction, candidate: MotorAction): (r: ActOutcome)
    ensures r.issued <==> candidate != previous
    ensures r.previous == candidate
    ensures r.events == if r.issued then [MotorCommand(candidate)] else []
  {
    if !CompareActions(candidate, previous) then
      ActOutcome(candidate, true, [MotorCommand(candidate)])
    else
      ActOutcome(previous, false, [])
  }

  /** Calls of `act` on a sequence of candidates, one per loop pass. */
  function Replay(previous: MotorAction, candidates: seq<MotorAction>): ActOutcome
    decreases |candidates|
  {
    if candidates == [] then ActOutcome(previous, false, [])
    else
      var first := Arbitrate(previous, candidates[0]);
      var rest := Replay(first.previous, candidates[1..]);
      ActOutcome(rest.previous, first.issued || rest.issued, first.events + rest.events)
  }

  /** The same candidate repeated `n` times. */
  function Repeated(c: MotorAction, n: nat): (s: seq<MotorAction>)
    ensures |s| == n && forall i :: 0 <= i < n ==> s[i] == c
    decreases n
  {
    if n == 0 then [] else [c] + Repeated(c, n - 1)
  }

  /** A second call with the candidate just stored issues nothing. */
  lemma ActIsIdempotent(previous: MotorAction, candidate: MotorAction)
    ensures var first := Arbitrate(previous, candidate);
      var second := Arbitrate(first.previous, candidate);
      !second.issued && second.events == [] && second.previous == first.previous
  {
  }

  /** Over any run of passes, `act` drives the motors at most once per pass,
      and the retained action is the last candidate. */
  lemma {:induction false} ReplayBounds(previous: MotorAction, candidates: seq<MotorAction>)
    ensures |Replay(previous, candidates).events| <= |candidates|
    ensures Replay(previous, candidates).previous
            == if candidates == [] then previous else candidates[|candidates| - 1]
    ensures forall i :: 0 <= i < |Replay(previous, candidates).events| ==>
              Replay(previous, candidates).events[i].Motor?
    decreases |candidates|
  {
    if candidates != [] {
      ReplayBounds(candidates[0], candidates[1..]);
    }
  }

  /** A candidate repeated over any number of passes drives the motors once
      when it differs from the retained action, and never otherwise. */
  lemma {:induction false} RepeatedCandidateIssuesAtMostOnce(previous: MotorAction, c: MotorAction, n: nat)
    ensures Replay(previous, Repeated(c, n)).events
            == if n > 0 && c != previous then [MotorCommand(c)] else []
    decreases n
  {
    if n > 0 {
      assert Repeated(c, n)[1..] == Repeated(c, n - 1);
      RepeatedCandidateIssuesAtMostOnce(c, c, n - 1);
    }
  }

  /** `act` starts from {STARTUP, 0, 0, 0, 0}: a first candidate is sent to the
      motors exactly when it differs from that action, so every LINE_FOLLOW
      candidate is. */
  lemma FirstActAgainstReset(c: MotorAction)
    ensures Arbitrate(ResetAction, c).issued <==> c != ResetAction
    ensures c.state == LineFollow ==> Arbitrate(ResetAction, c).issued
  {
  }
}
