/** The states of a run and the transitions allowed between them. */
module RunStates {
  datatype RunState = Queued | Running | Stopping | Succeeded | Failed | Cancelled

  /** The table of allowed transitions. */
  function Allowed(from: RunState): set<RunState> {
    match from
    case Queued => {Running, Cancelled}
    case Running => {Stopping, Succeeded, Failed, Cancelled}
    case Stopping => {Cancelled, Failed}
    case _ => {}
  }

  /** `TransitionRun` returns no error. */
  predicate CanMove(from: RunState, to: RunState) {
    from == to || to in Allowed(from)
  }

  predicate Terminal(s: RunState) {
    s in {Succeeded, Failed, Cancelled}
  }

  /** How far along its life a run is. */
  function Rank(s: RunState): nat {
    match s
    case Queued => 0
    case Running => 1
    case Stopping => 2
    case _ => 3
  }

  /** Nothing moves back to the queued state. */
  lemma NeverRequeued(from: RunState, to: RunState)
    requires CanMove(from, to) && from != Queued
    ensures to != Queued
  {
  }

  /** A log of states that starts queued and moves only as allowed. */
  ghost predicate LegalLog(log: seq<RunState>) {
    && log != [] && log[0] == Queued
    && forall i :: 0 <= i < |log| - 1 ==> CanMove(log[i], log[i + 1])
  }

  function Changes(log: seq<RunState>): nat {
    if |log| < 2 then 0
    else Changes(log[..|log| - 1]) + if log[|log| - 1] == log[|log| - 2] then 0 else 1
  }

  /** A legal log changes state at most three times and never leaves a terminal state. */
  lemma {:induction false} LegalLogBounds(log: seq<RunState>)
    requires LegalLog(log)
    ensures Changes(log) <= Rank(log[|log| - 1]) <= 3
    ensures forall i :: 0 <= i < |log| && Terminal(log[i]) ==> log[|log| - 1] == log[i]
    ensures forall i :: 0 <= i < |log| && log[i] == Stopping ==> log[|log| - 1] in {Stopping, Cancelled, Failed}
  {
    if |log| > 1 {
      var init := log[..|log| - 1];
      LegalLogBounds(init);
      assert CanMove(log[|log| - 2], log[|log| - 1]);
      forall i | 0 <= i < |init| ensures init[i] == log[i] {}
    }
  }
}
