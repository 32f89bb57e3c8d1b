/** The retry loop of one task. The row functions are those of Executor's Attempt, Return and Wake steps. */
module TaskAttempts {
  import opened Options
  import opened Workflows
  import opened Executor
  import opened Retries

  /** The first attempt from `a` on that succeeds, or `b` if none before `b` does. */
  function FirstSuccess(outcomes: nat -> Outcome, a: nat, b: nat): (k: nat)
    requires a <= b
    ensures a <= k <= b && (k < b ==> outcomes(k).Success?) && forall j | a <= j < k :: !outcomes(j).Success?
    decreases b - a
  {
    if a == b || outcomes(a).Success? then a else FirstSuccess(outcomes, a + 1, b)
  }

  /** The first attempt from `a` on that finds the execution cancelled, or `b` if none before `b` does. */
  function FirstCancelled(cancelled: nat -> bool, a: nat, b: nat): (k: nat)
    requires a <= b
    ensures a <= k <= b && (k < b ==> cancelled(k)) && forall j | a <= j < k :: !cancelled(j)
    decreases b - a
  {
    if a == b || cancelled(a) then a else FirstCancelled(cancelled, a + 1, b)
  }

  /** The row after `n` calls of the handler, all of them made from `row` on. */
  function Attempted(row: Row, outcomes: nat -> Outcome, result: Option<Json>, n: nat): Row {
    if n == 0 then row
    else
      var before := if n == 1 then row else NextAttemptRow(Attempted(row, outcomes, result, n - 1));
      EndedRow(StartedRow(before), outcomes(row.attempt + n - 1), result)
  }

  /** Calls count attempts, and the last outcome decides the status. */
  lemma {:induction false} AttemptedRow(row: Row, outcomes: nat -> Outcome, result: Option<Json>, n: nat)
    requires n > 0
    ensures var r := Attempted(row, outcomes, result, n);
            && r.attempt == row.attempt + n - 1 && r.maxAttempts == row.maxAttempts
            && r.status == (if outcomes(r.attempt).Success? then RowCompleted else RowFailed)
            && (outcomes(r.attempt) == Success ==> r.output == result)
            && (outcomes(r.attempt).Failure? ==> r.output == outcomes(r.attempt).output)
            && (outcomes(r.attempt) == Timeout ==>
                  r.output == if n == 1 then row.output else Attempted(row, outcomes, result, n - 1).output)
  {
    if n > 1 { AttemptedRow(row, outcomes, result, n - 1); }
  }

  lemma OneMoreAttempt(row: Row, outcomes: nat -> Outcome, result: Option<Json>, n: nat)
    ensures Attempted(row, outcomes, result, 0) == row
    ensures var before := if n == 0 then row else NextAttemptRow(Attempted(row, outcomes, result, n));
            Attempted(row, outcomes, result, n + 1) == EndedRow(StartedRow(before), outcomes(row.attempt + n), result)
  {
  }

  lemma OneMoreSleep(strategy: Strategy, draws: nat -> real, a: nat, b: nat)
    requires 1 <= a <= b
    ensures Slept(strategy, draws, a, a) == 0.0
    ensures Slept(strategy, draws, a, b + 1) == Slept(strategy, draws, a, b) + GetDelay(strategy, b, draws(b))
  {
  }

  class TaskExecution {
    var status: RowStatus
    var output: Option<Json>
    var attempt: nat
    const maxAttempts: nat

    constructor (row: Row)
      ensures Value() == row
    {
      status, output, attempt, maxAttempts := row.status, row.output, row.attempt, row.maxAttempts;
    }

    function Value(): Row
      reads this
    {
      Row(status, output, attempt, maxAttempts)
    }

    method ExecuteTaskOnce(outcome: Outcome, result: Option<Json>) returns (ok: bool)
      modifies this
      ensures ok == outcome.Success?
      ensures Value() == EndedRow(StartedRow(old(Value())), outcome, result)
      ensures attempt == old(attempt)
      ensures status == if outcome == Success then RowCompleted else RowFailed
      ensures output == match outcome
                        case Success => result
                        case Failure(o) => o
                        case Timeout => old(output)
    {
      status := RowRunning;
      match outcome {
        case Timeout =>
          status := RowFailed;
          ok := false;
        case Success =>
          status, output := RowCompleted, result;
          ok := true;
        case Failure(o) =>
          status, output := RowFailed, o;
          ok := false;
      }
    }

    /**
     `outcomes(k)` is how attempt k ends if it is made, and `cancelled(k)` what the check before it
     sees. The loop stops at the first success, at the first check that sees a cancelled execution, or
     after the last attempt.
     */
    method ExecuteTaskWithRetries(strategy: Strategy, draws: nat -> real, outcomes: nat -> Outcome,
                                  result: Option<Json>, cancelled: nat -> bool)
      returns (ok: bool, calls: nat, slept: real)
      requires attempt >= 1
      modifies this
      ensures old(attempt) <= maxAttempts ==>
                var s := FirstSuccess(outcomes, old(attempt), maxAttempts + 1);
                var c := FirstCancelled(cancelled, old(attempt), maxAttempts + 1);
                && ok == (s < c)
                && calls == (if s < c then s + 1 else c) - old(attempt)
                && Value() == (var row := Attempted(old(Value()), outcomes, result, calls);
                               if s < c || calls == 0 || c > maxAttempts then row else NextAttemptRow(row))
      ensures old(attempt) > maxAttempts ==> !ok && calls == 0 && Value() == old(Value())
      ensures old(attempt) <= attempt && (old(attempt) <= maxAttempts ==> attempt <= maxAttempts)
      ensures slept == Slept(strategy, draws, old(attempt), attempt)
    {
      hide GetDelay, Slept, Attempted, EndedRow, StartedRow, FirstSuccess, FirstCancelled;
      ghost var first := Value();
      ok, calls, slept := false, 0, 0.0;
      OneMoreAttempt(first, outcomes, result, 0);
      OneMoreSleep(strategy, draws, attempt, attempt);
      while attempt <= maxAttempts
        invariant first.attempt <= attempt && calls == attempt - first.attempt
        invariant attempt <= maxAttempts || calls == 0
        invariant Value() == if calls == 0 then first else NextAttemptRow(Attempted(first, outcomes, result, calls))
        invariant forall k | first.attempt <= k < attempt :: !outcomes(k).Success? && !cancelled(k)
        invariant slept == Slept(strategy, draws, first.attempt, attempt)
        invariant !ok
      {
        if cancelled(attempt) { return; }
        OneMoreAttempt(first, outcomes, result, calls);
        OneMoreSleep(strategy, draws, first.attempt, attempt);
        ok := ExecuteTaskOnce(outcomes(attempt), result);
        calls := calls + 1;
        if ok { return; }
        if attempt >= maxAttempts { return; }
        slept := slept + GetDelay(strategy, attempt, draws(attempt));
        attempt := attempt + 1;
        status := RowPending;
      }
    }
  }

  /** With no cancel the handler is called until the first success or the last attempt, whichever comes first. */
  lemma UncancelledCalls(outcomes: nat -> Outcome, cancelled: nat -> bool, a: nat, m: nat)
    requires a <= m && forall k | a <= k <= m :: !cancelled(k)
    ensures var s := FirstSuccess(outcomes, a, m + 1);
            var c := FirstCancelled(cancelled, a, m + 1);
            var calls := (if s < c then s + 1 else c) - a;
            && c == m + 1
            && ((s < c) <==> exists k :: a <= k <= m && outcomes(k).Success?)
            && calls == (if s + 1 - a <= m - a + 1 then s + 1 - a else m - a + 1)
  {
    var s := FirstSuccess(outcomes, a, m + 1);
    assert FirstCancelled(cancelled, a, m + 1) == m + 1;
    if s <= m { assert outcomes(s).Success?; }
  }
}
