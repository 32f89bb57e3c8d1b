/** The execution states, the table of valid transitions and the guarded machine over it. */
module StateMachine {
  datatype ExecutionState = Pending | Running | Completed | Failed | Cancelled | TimedOut

  function ValidTransitions(s: ExecutionState): set<ExecutionState> {
    match s
    case Pending => {Running, Cancelled}
    case Running => {Completed, Failed, Cancelled, TimedOut}
    case Completed => {}
    case Failed => {Pending}
    case Cancelled => {}
    case TimedOut => {Pending}
  }

  predicate CanTransition(s: ExecutionState, target: ExecutionState) {
    target in ValidTransitions(s)
  }

  /** Only a Pending execution starts; a Running one ends; a failed or timed out one can only be Pending again. */
  lemma TransitionsAre(s: ExecutionState, target: ExecutionState)
    ensures CanTransition(s, target) <==>
              || (s == Pending && target in {Running, Cancelled})
              || (s == Running && target in {Completed, Failed, Cancelled, TimedOut})
              || (s in {Failed, TimedOut} && target == Pending)
  {
  }

  /** Where a guarded assignment of `target` leaves the state. */
  function Guarded(s: ExecutionState, target: ExecutionState): ExecutionState {
    if CanTransition(s, target) then target else s
  }

  class ExecutionStateMachine {
    var state: ExecutionState

    constructor (current: ExecutionState)
      ensures state == current
    {
      state := current;
    }

    /** `ok` is false where the source raises ValueError. */
    method TransitionTo(target: ExecutionState) returns (ok: bool)
      modifies this
      ensures ok == CanTransition(old(state), target)
      ensures state == Guarded(old(state), target)
    {
      ok := CanTransition(state, target);
      if ok { state := target; }
    }
  }

  // ---- Histories ----

  /** Each status follows from the one before by a table entry, or repeats it. */
  ghost predicate LegalHistory(h: seq<ExecutionState>) {
    forall i | 0 <= i < |h| - 1 :: h[i + 1] == h[i] || CanTransition(h[i], h[i + 1])
  }

  /** Completed and Cancelled absorb: once in a legal history, they stay to its end. */
  lemma {:induction false} TerminalStatesAbsorb(h: seq<ExecutionState>, i: nat, j: nat)
    requires LegalHistory(h) && i <= j < |h| && (h[i].Completed? || h[i].Cancelled?)
    ensures h[j] == h[i]
    decreases j - i
  {
    if i < j {
      assert h[i + 1] == h[i] || CanTransition(h[i], h[i + 1]);
      TerminalStatesAbsorb(h, i + 1, j);
    }
  }

  /** A legal history that reaches Completed from Pending passes through Running just before. */
  lemma {:induction false} CompletedComesFromRunning(h: seq<ExecutionState>, j: nat)
    requires LegalHistory(h) && j < |h| && h[0].Pending? && h[j].Completed?
    ensures exists i :: 0 < i <= j && h[i - 1].Running? && h[i].Completed?
  {
    assert h[j - 1 + 1] == h[j - 1] || CanTransition(h[j - 1], h[j - 1 + 1]);
    if h[j - 1].Completed? { CompletedComesFromRunning(h, j - 1); }
  }
}
