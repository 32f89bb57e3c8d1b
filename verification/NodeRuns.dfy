/** What one coroutine does to the execution when nothing interleaves with it. */
module NodeRuns {
  import opened Options
  import opened Graphs
  import opened Workflows
  import opened StateMachine
  import opened Executor
  import opened ExecutorInvariant
  import opened ExecutorTheorems
  import opened ExecutorProgress
  import opened ExecutorTermination
  import opened ExecutorCompletion
  import opened TaskAttempts

  /** Some attempt that the row has left succeeds. */
  ghost predicate Succeeds(row: Row, outcomes: nat -> Outcome) {
    exists k :: row.attempt <= k <= row.maxAttempts && outcomes(k).Success?
  }

  /** Calls of the handler, if they are not cut short by a cancel. */
  function CallsMade(row: Row, outcomes: nat -> Outcome): nat {
    if row.attempt > row.maxAttempts then 0
    else
      var first := FirstSuccess(outcomes, row.attempt, row.maxAttempts + 1);
      if first <= row.maxAttempts then first + 1 - row.attempt else first - row.attempt
  }

  function InputOf(w: Workflow, s: State, t: TaskId): Object {
    MergedInput(w.input, AvailableOutputs(w, s.taskOutputs, t))
  }

  /** The row of `t` after its attempts. */
  function TriedRow(w: Workflow, s: State, t: TaskId, outcomes: nat -> Outcome): Row
    requires t in w.tasks
  {
    var row := RowOf(w, s.rows, t);
    Attempted(row, outcomes, w.result(t, InputOf(w, s, t)), CallsMade(row, outcomes))
  }

  /** The coroutine gives up before the handler: cancelled, or settled already. */
  predicate Declines(s: State, t: TaskId) {
    s.status.Cancelled? || t in s.completed || t in s.skipped
  }

  /** A whole run_node. */
  ghost function NodeRun(w: Workflow, s: State, t: TaskId, outcomes: nat -> Outcome): State
    requires w.tasks.Keys == w.Nodes() && t in w.tasks
  {
    var s1 := s.(seen := s.status, pcs := s.pcs[t := Finished]);
    if Declines(s, t) then s1
    else
      var row := TriedRow(w, s, t, outcomes);
      var s2 := s1.(rows := s.rows[t := row]);
      if !Succeeds(RowOf(w, s.rows, t), outcomes) then s2.(failed := true)
      else
        var s3 := s2.(completed := s.completed + {t},
                      taskOutputs := if row.output.Some? then s.taskOutputs[t := row.output.value] else s.taskOutputs);
        var loser := Loser(w, t, row.output);
        if loser.Some? then SkipStep(w, s3, {loser.value}) else s3
  }

  // ---- The calls, counted ----

  lemma CallsDecide(row: Row, outcomes: nat -> Outcome, n: nat)
    requires n == CallsMade(row, outcomes)
    ensures forall k | row.attempt <= k < row.attempt + n - 1 :: !outcomes(k).Success?
    ensures Succeeds(row, outcomes) <==> n > 0 && outcomes(row.attempt + n - 1).Success?
    ensures !Succeeds(row, outcomes) ==> row.attempt + n > row.maxAttempts
    ensures n > 0 ==> row.attempt + n - 1 <= row.maxAttempts
  {
  }

  /** After n failed calls another is made, unless they were the last. */
  lemma CallsGoOn(row: Row, outcomes: nat -> Outcome, n: nat)
    requires forall k | row.attempt <= k < row.attempt + n :: !outcomes(k).Success?
    requires n == 0 || row.attempt + n - 1 <= row.maxAttempts
    ensures row.attempt + n > row.maxAttempts ==> CallsMade(row, outcomes) == n && !Succeeds(row, outcomes)
    ensures row.attempt + n <= row.maxAttempts && outcomes(row.attempt + n).Success? ==>
              CallsMade(row, outcomes) == n + 1 && Succeeds(row, outcomes)
  {
  }

  // ---- Between the first check and the recording only the row of `t` moves ----

  ghost function Midway(s: State, t: TaskId, row: Row, pc: Pc): State
    requires s.permits > 0
  {
    s.(seen := s.status, rows := s.rows[t := row], pcs := s.pcs[t := pc], permits := s.permits - 1)
  }

  ghost predicate MayStart(w: Workflow, s: State, t: TaskId) {
    && w.tasks.Keys == w.Nodes() && t in w.tasks && t in s.pcs && s.pcs[t].Waiting?
    && s.phase.Wave? && s.permits > 0 && s.glock.None?
  }

  lemma ChecksIn(w: Workflow, s: State, t: TaskId)
    requires MayStart(w, s, t)
    ensures var s1 := Goto(s, t, Entered).(permits := s.permits - 1);
            var s2 := CheckStep(s1, t);
            if s.status.Cancelled? then s2 == s.(seen := s.status, pcs := s.pcs[t := Finished])
            else s2 == s.(seen := s.status, pcs := s.pcs[t := Checked], permits := s.permits - 1)
  {
  }

  lemma FetchesRow(w: Workflow, s: State, t: TaskId)
    requires MayStart(w, s, t) && !s.status.Cancelled?
    ensures var s2 := s.(seen := s.status, pcs := s.pcs[t := Checked], permits := s.permits - 1);
            var s3 := SectionStep(w, s2.(glock := Some(t)), t);
            if Declines(s, t) then s3 == s.(seen := s.status, pcs := s.pcs[t := Finished])
            else s3 == Midway(s, t, RowOf(w, s.rows, t), Fetching)
  {
    hide RowOf;
  }

  lemma FetchesInputs(w: Workflow, s: State, t: TaskId, row: Row)
    requires MayStart(w, s, t)
    ensures SectionStep(w, Midway(s, t, row, Fetching).(glock := Some(t)), t) ==
        Midway(s, t, row, Trying(InputOf(w, s, t)))
  {
    hide MergedInput, AvailableOutputs;
  }

  lemma Attempts(w: Workflow, s: State, t: TaskId, row: Row, input: Object)
    requires MayStart(w, s, t) && !s.status.Cancelled?
    ensures AttemptStep(w, Midway(s, t, row, Trying(input)), t)
         == if row.attempt > row.maxAttempts then Midway(s, t, row, Ending(false))
            else Midway(s, t, StartedRow(row), Invoking(input))
  {
  }

  lemma Returns(w: Workflow, s: State, t: TaskId, row: Row, input: Object, outcome: Outcome)
    requires MayStart(w, s, t)
    ensures ReturnStep(w, Midway(s, t, row, Invoking(input)), t, outcome)
         == Midway(s, t, EndedRow(row, outcome, w.result(t, input)),
                   if outcome.Success? then Ending(true)
                   else if row.attempt >= row.maxAttempts then Ending(false) else Sleeping(input))
  {
    hide EndedRow;
  }

  lemma Wakes(w: Workflow, s: State, t: TaskId, row: Row, input: Object)
    requires MayStart(w, s, t)
    ensures WakeStep(w, Midway(s, t, row, Sleeping(input)), t) == Midway(s, t, NextAttemptRow(row), Trying(input))
  {
  }

  /** The recording, up to the pruning of a condition. */
  ghost function Recorded(w: Workflow, s: State, t: TaskId, row: Row, ok: bool): State
    requires t in w.tasks && s.permits > 0
  {
    var loser := Loser(w, t, row.output);
    var s1 := s.(seen := s.status, rows := s.rows[t := row]);
    if !ok then s1.(failed := true, pcs := s.pcs[t := Finished])
    else
      var s2 := s1.(completed := s.completed + {t},
                    taskOutputs := if row.output.Some? then s.taskOutputs[t := row.output.value] else s.taskOutputs);
      if loser.Some? then s2.(pcs := s.pcs[t := Pruning(loser.value)], permits := s.permits - 1)
      else s2.(pcs := s.pcs[t := Finished])
  }

  lemma RecordsRow(w: Workflow, s: State, t: TaskId, row: Row, ok: bool)
    requires MayStart(w, s, t)
    ensures var s1 := Midway(s, t, row, Ending(ok));
            RecordStep(w, s1, t, ok) == Recorded(w, s, t, row, ok)
  {
    assert RowOf(w, s.rows[t := row], t) == row;
    hide Loser, RowOf;
    var loser := Loser(w, t, row.output);
    assert s.pcs[t := Ending(ok)][t := Finished] == s.pcs[t := Finished];
    if loser.Some? { assert s.pcs[t := Ending(ok)][t := Pruning(loser.value)] == s.pcs[t := Pruning(loser.value)]; }
  }

  lemma Records(w: Workflow, s: State, t: TaskId, row: Row, ok: bool)
    requires MayStart(w, s, t)
    ensures SectionStep(w, Midway(s, t, row, Ending(ok)).(glock := Some(t)), t) == Recorded(w, s, t, row, ok)
  {
    var s1 := Midway(s, t, row, Ending(ok));
    assert s1.(glock := Some(t)).(glock := None) == s1;
    hide Loser, RecordStep, Recorded, RowOf;
    RecordsRow(w, s, t, row, ok);
  }

  lemma Prunes(w: Workflow, s: State, t: TaskId, row: Row)
    requires MayStart(w, s, t) && Loser(w, t, row.output).Some?
    ensures var x := Loser(w, t, row.output).value;
            var s1 := Recorded(w, s, t, row, true);
            && x in w.tasks && s1.pcs[t] == Pruning(x)
            && SectionStep(w, s1.(glock := Some(t)), t)
            == SkipStep(w, s1.(pcs := s.pcs[t := Finished], permits := s.permits), {x})
  {
    hide MarkSkipped;
  }

  lemma RunIsRecorded(w: Workflow, s: State, t: TaskId, outcomes: nat -> Outcome)
    requires MayStart(w, s, t) && !Declines(s, t)
    ensures var row, ok := TriedRow(w, s, t, outcomes), Succeeds(RowOf(w, s.rows, t), outcomes);
            var s1, loser := Recorded(w, s, t, row, ok), Loser(w, t, row.output);
            NodeRun(w, s, t, outcomes)
            == if ok && loser.Some?
                then SkipStep(w, s1.(pcs := s.pcs[t := Finished], permits := s.permits), {loser.value}) else s1
  {
    hide MarkSkipped, TriedRow, Succeeds, RowOf;
  }

  lemma RecordedAt(w: Workflow, s: State, t: TaskId, row: Row, ok: bool)
    requires MayStart(w, s, t)
    ensures var s1, loser := Recorded(w, s, t, row, ok), Loser(w, t, row.output);
            && s1.phase.Wave? && s1.glock.None? && t in s1.pcs
            && s1.pcs[t] == if ok && loser.Some? then Pruning(loser.value) else Finished
  {
    hide Loser;
  }

  // ---- The attempts, one after another ----

  /** The row when attempt n, counting from 0, is about to be made. */
  function NthRow(row: Row, outcomes: nat -> Outcome, result: Option<Json>, n: nat): Row {
    if n == 0 then row else NextAttemptRow(Attempted(row, outcomes, result, n))
  }

  lemma NthAttempt(row: Row, outcomes: nat -> Outcome, result: Option<Json>, n: nat)
    ensures var before := NthRow(row, outcomes, result, n);
            && Attempted(row, outcomes, result, n + 1) ==
                EndedRow(StartedRow(before), outcomes(row.attempt + n), result)
            && before.attempt == row.attempt + n && before.maxAttempts == row.maxAttempts
            && (n == 0 ==> before == row)
    ensures var after := NthRow(row, outcomes, result, n + 1);
            after == NextAttemptRow(Attempted(row, outcomes, result, n + 1))
    ensures n > 0 || Attempted(row, outcomes, result, 0) == row
  {
    OneMoreAttempt(row, outcomes, result, n);
    if n > 0 { AttemptedRow(row, outcomes, result, n); }
  }

  /** `t`, started in `start`, is at the head of its retry loop after n calls, all failed. */
  ghost predicate TryingNth(w: Workflow, start: State, s: State, t: TaskId, outcomes: nat -> Outcome, n: nat)
    requires MayStart(w, start, t)
  {
    var first, input := RowOf(w, start.rows, t), InputOf(w, start, t);
    && s == Midway(start, t, NthRow(first, outcomes, w.result(t, input), n), Trying(input))
    && (n == 0 || first.attempt + n <= first.maxAttempts)
    && forall k | first.attempt <= k < first.attempt + n :: !outcomes(k).Success?
  }

  /** Inside that call. */
  ghost predicate CallingNth(w: Workflow, start: State, s: State, t: TaskId, outcomes: nat -> Outcome, n: nat)
    requires MayStart(w, start, t)
  {
    var first, input := RowOf(w, start.rows, t), InputOf(w, start, t);
    && s == Midway(start, t, StartedRow(NthRow(first, outcomes, w.result(t, input), n)), Invoking(input))
    && first.attempt + n <= first.maxAttempts
    && forall k | first.attempt <= k < first.attempt + n :: !outcomes(k).Success?
  }

  /** After it, failed, with another to come. */
  ghost predicate SleepingNth(w: Workflow, start: State, s: State, t: TaskId, outcomes: nat -> Outcome, n: nat)
    requires MayStart(w, start, t)
  {
    var first, input := RowOf(w, start.rows, t), InputOf(w, start, t);
    && s == Midway(start, t, Attempted(first, outcomes, w.result(t, input), n + 1), Sleeping(input))
    && first.attempt + n < first.maxAttempts
    && forall k | first.attempt <= k <= first.attempt + n :: !outcomes(k).Success?
  }

  /** All attempts of `t` are over. */
  ghost predicate Tried(w: Workflow, start: State, s: State, t: TaskId, outcomes: nat -> Outcome)
    requires MayStart(w, start, t)
  {
    s == Midway(start, t, TriedRow(w, start, t, outcomes), Ending(Succeeds(RowOf(w, start.rows, t), outcomes)))
  }

  lemma TurnStarts(w: Workflow, start: State, s: State, t: TaskId, outcomes: nat -> Outcome, n: nat)
    requires MayStart(w, start, t) && !Declines(start, t) && TryingNth(w, start, s, t, outcomes, n)
    ensures s.phase.Wave? && t in s.pcs && s.pcs[t].Trying?
    ensures var s' := AttemptStep(w, s, t);
            && t in s'.pcs && (s'.pcs[t].Ending? || s'.pcs[t].Invoking?)
            && (s'.pcs[t].Ending? ==> Tried(w, start, s', t, outcomes))
            && (s'.pcs[t].Invoking? ==> CallingNth(w, start, s', t, outcomes, n) && t in s'.rows)
  {
    var first, input := RowOf(w, start.rows, t), InputOf(w, start, t);
    var row := NthRow(first, outcomes, w.result(t, input), n);
    hide AttemptStep, Attempted, NthRow, Succeeds, CallsMade, RowOf, InputOf;
    NthAttempt(first, outcomes, w.result(t, input), n);
    CallsGoOn(first, outcomes, n);
    Attempts(w, start, t, row, input);
  }

  lemma TurnReturns(w: Workflow, start: State, s: State, t: TaskId, outcomes: nat -> Outcome, n: nat)
    requires MayStart(w, start, t) && CallingNth(w, start, s, t, outcomes, n) && t in s.rows
    ensures s.phase.Wave? && t in s.pcs && s.pcs[t].Invoking?
    ensures var s' := ReturnStep(w, s, t, outcomes(s.rows[t].attempt));
            && t in s'.pcs && (s'.pcs[t].Ending? || s'.pcs[t].Sleeping?)
            && (s'.pcs[t].Ending? ==> Tried(w, start, s', t, outcomes))
            && (s'.pcs[t].Sleeping? ==> SleepingNth(w, start, s', t, outcomes, n))
  {
    var first, input := RowOf(w, start.rows, t), InputOf(w, start, t);
    var row := NthRow(first, outcomes, w.result(t, input), n);
    hide ReturnStep, Attempted, NthRow, Succeeds, CallsMade, RowOf, InputOf, EndedRow;
    NthAttempt(first, outcomes, w.result(t, input), n);
    var outcome := outcomes(first.attempt + n);
    assert s.rows[t].attempt == first.attempt + n;
    Returns(w, start, t, StartedRow(row), input, outcome);
    CallsGoOn(first, outcomes, n);
    if !outcome.Success? { CallsGoOn(first, outcomes, n + 1); }
  }

  lemma TurnWakes(w: Workflow, start: State, s: State, t: TaskId, outcomes: nat -> Outcome, n: nat)
    requires MayStart(w, start, t) && SleepingNth(w, start, s, t, outcomes, n)
    ensures s.phase.Wave? && t in s.pcs && s.pcs[t].Sleeping?
    ensures var s' := WakeStep(w, s, t);
            t in s'.pcs && s'.pcs[t].Trying? && TryingNth(w, start, s', t, outcomes, n + 1)
  {
    var first, input := RowOf(w, start.rows, t), InputOf(w, start, t);
    hide WakeStep, Attempted, NthRow, RowOf, InputOf;
    NthAttempt(first, outcomes, w.result(t, input), n);
    Wakes(w, start, t, Attempted(first, outcomes, w.result(t, input), n + 1), input);
  }

  lemma TryingIsTrying(w: Workflow, start: State, s: State, t: TaskId, outcomes: nat -> Outcome, n: nat)
    requires MayStart(w, start, t) && TryingNth(w, start, s, t, outcomes, n)
    ensures t in s.pcs && s.pcs[t].Trying? && n <= RowOf(w, start.rows, t).maxAttempts
  {
  }

  lemma StartsTrying(w: Workflow, start: State, t: TaskId, outcomes: nat -> Outcome)
    requires MayStart(w, start, t)
    ensures TryingNth(w, start, Midway(start, t, RowOf(w, start.rows, t), Trying(InputOf(w, start, t))), t, outcomes, 0)
  {
  }

  // ---- A wave, one coroutine after another ----

  /** The attempts a task has are those it had. */
  ghost predicate SameAttempts(r: Row, r': Row) {
    r'.attempt == r.attempt && r'.maxAttempts == r.maxAttempts
  }

  ghost predicate TaskSucceeds(w: Workflow, rows: map<TaskId, Row>, outcomes: TaskId -> nat -> Outcome, t: TaskId) {
    t in w.tasks && Succeeds(RowOf(w, rows, t), outcomes(t))
  }

  ghost predicate WaveIsFresh(s: State) {
    s.phase.Wave? && s.permits > 0 && s.glock.None? && forall t | t in s.pcs :: s.pcs[t].Waiting?
  }

  /** From `s` the coroutines of `ran` have run to their ends: those that succeed are completed, and only those. */
  ghost predicate WaveRan(w: Workflow, s: State, s': State, ran: set<TaskId>, outcomes: TaskId -> nat -> Outcome) {
    && s'.phase.Wave? && s'.status == s.status && s'.permits == s.permits && s'.glock == s.glock
    && s'.pcs.Keys == s.pcs.Keys && s.skipped <= s'.skipped
    && (forall t :: t in s'.completed <==> t in s.completed || (t in ran && TaskSucceeds(w, s.rows, outcomes, t)))
    && (s'.failed <==> s.failed || exists t :: t in ran && !TaskSucceeds(w, s.rows, outcomes, t))
    && (forall t | t in w.tasks && t !in ran :: SameAttempts(RowOf(w, s.rows, t), RowOf(w, s'.rows, t)))
  }

  lemma NothingRan(w: Workflow, s: State, outcomes: TaskId -> nat -> Outcome)
    requires s.phase.Wave?
    ensures WaveRan(w, s, s, {}, outcomes)
  {
  }

  lemma WaveMayGoOn(w: Workflow, start: State, s: State, t: TaskId, ran: set<TaskId>,
      outcomes: TaskId -> nat -> Outcome)
    requires WaveIsFresh(start) && WaveRan(w, start, s, ran, outcomes) && Typed(w, s) && t in s.pcs && s.pcs[t].Waiting?
    ensures MayStart(w, s, t) && s.status == start.status
  {
  }

  lemma LastHasInv(w: Workflow, v: Verdicts, es: seq<Event>, ss: seq<State>)
    requires Setting(w, v) && Trace(w, es, ss)
    ensures Inv(w, v, ss[|es|])
  {
    RunKeeps(w, v, es, ss, |es|);
  }

  lemma WaitingIsFresh(w: Workflow, v: Verdicts, s: State, t: TaskId)
    requires Inv(w, v, s) && s.phase.Wave? && t in s.pcs && s.pcs[t].Waiting? && !s.status.Cancelled?
    ensures !Declines(s, t) && t in v && v[t].Ran?
  {
    assert CoroutineOk(w, v, s, t);
    hide Loser, BranchesPruned, LocksOk, StatusOk, RowsOk, RowOk;
    if t in s.skipped { SkippedIsPruned(w, v, s, t); }
  }

  lemma NodeRunEffect(w: Workflow, s: State, t: TaskId, outcomes: nat -> Outcome)
    requires MayStart(w, s, t) && !Declines(s, t)
    ensures var s', ok := NodeRun(w, s, t, outcomes), Succeeds(RowOf(w, s.rows, t), outcomes);
            && s'.phase == s.phase && s'.status == s.status && s'.permits == s.permits && s'.glock == s.glock
            && s'.pcs == s.pcs[t := Finished] && s.skipped <= s'.skipped
            && s'.completed == (if ok then s.completed + {t} else s.completed) && s'.failed == (s.failed || !ok)
            && forall n | n in w.tasks && n != t :: SameAttempts(RowOf(w, s.rows, n), RowOf(w, s'.rows, n))
  {
    hide TriedRow, Loser, Succeeds;
  }

  lemma OneMoreRan(w: Workflow, start: State, s: State, s': State, t: TaskId, ran: set<TaskId>,
      outcomes: TaskId -> nat -> Outcome)
    requires WaveRan(w, start, s, ran, outcomes) && t !in ran && t in s.pcs && t in w.tasks
    requires var ok := Succeeds(RowOf(w, s.rows, t), outcomes(t));
            && s'.phase == s.phase && s'.status == s.status && s'.permits == s.permits && s'.glock == s.glock
            && s'.pcs == s.pcs[t := Finished] && s.skipped <= s'.skipped
            && s'.completed == (if ok then s.completed + {t} else s.completed) && s'.failed == (s.failed || !ok)
            && forall n | n in w.tasks && n != t :: SameAttempts(RowOf(w, s.rows, n), RowOf(w, s'.rows, n))
    ensures WaveRan(w, start, s', ran + {t}, outcomes)
  {
    assert Succeeds(RowOf(w, s.rows, t), outcomes(t)) <==> TaskSucceeds(w, start.rows, outcomes, t) by {
      SameAttemptsSucceed(RowOf(w, start.rows, t), RowOf(w, s.rows, t), outcomes(t));
    }
    hide Succeeds, RowOf, TaskSucceeds;
  }

  lemma WaveGoesOn(w: Workflow, v: Verdicts, start: State, s: State, t: TaskId, ran: set<TaskId>,
      outcomes: TaskId -> nat -> Outcome)
    requires Setting(w, v) && Inv(w, v, s) && WaveIsFresh(start) && !start.status.Cancelled?
    requires WaveRan(w, start, s, ran, outcomes) && Typed(w, s) && t in s.pcs && s.pcs[t].Waiting? && t !in ran
    ensures MayStart(w, s, t)
    ensures var s' := NodeRun(w, s, t, outcomes(t));
            WaveRan(w, start, s', ran + {t}, outcomes) && s'.pcs == s.pcs[t := Finished]
  {
    WaveMayGoOn(w, start, s, t, ran, outcomes);
    hide Inv, Setting, WaveIsFresh, NodeRun, Typed;
    assert s.phase.Wave? && t in w.tasks by { hide WaveRan; }
    WaitingIsFresh(w, v, s, t);
    NodeRunEffect(w, s, t, outcomes(t));
    OneMoreRan(w, start, s, NodeRun(w, s, t, outcomes(t)), t, ran, outcomes);
  }

  lemma SameAttemptsSucceed(r: Row, r': Row, outcomes: nat -> Outcome)
    requires SameAttempts(r, r')
    ensures Succeeds(r, outcomes) <==> Succeeds(r', outcomes)
  {
  }

  // ---- Whole executions ----

  /** Every task the equations run was completed before, or has an attempt that succeeds. */
  ghost predicate AllSucceed(w: Workflow, v: Verdicts, rows: map<TaskId, Row>, outcomes: TaskId -> nat -> Outcome) {
    forall t | t in v && v[t].Ran? :: t in CompletedRows(rows) || TaskSucceeds(w, rows, outcomes, t)
  }

  /** How far an execution that began with `rows` has come. */
  ghost predicate Progress(w: Workflow, v: Verdicts, rows: map<TaskId, Row>, s: State,
      outcomes: TaskId -> nat -> Outcome) {
    && (forall t | t in s.completed :: t in CompletedRows(rows) || TaskSucceeds(w, rows, outcomes, t))
    && (s.failed ==> !AllSucceed(w, v, rows, outcomes))
    && (!s.failed ==> CompletedRows(rows) <= s.completed)
    && (!s.failed ==> forall t | t in w.tasks && t !in s.completed ::
        SameAttempts(RowOf(w, rows, t), RowOf(w, s.rows, t)))
  }

  lemma ProgressBegins(w: Workflow, v: Verdicts, s: State, outcomes: TaskId -> nat -> Outcome)
    ensures Progress(w, v, s.rows, DispatchStep(w, s), outcomes)
  {
  }

  lemma MarkingKeepsAttempts(w: Workflow, rows: map<TaskId, Row>, ts: set<TaskId>, t: TaskId)
    requires ts <= w.tasks.Keys && t in w.tasks
    ensures SameAttempts(RowOf(w, rows, t), RowOf(w, MarkSkipped(w, rows, ts), t))
  {
  }

  lemma HeadKeepsAttempts(w: Workflow, s: State, t: TaskId)
    requires w.tasks.Keys == w.Nodes() && s.phase.LoopHead? && t in w.tasks
    ensures SameAttempts(RowOf(w, s.rows, t), RowOf(w, HeadStep(w, s).rows, t))
    ensures HeadStep(w, s).completed == s.completed && HeadStep(w, s).failed == s.failed
  {
    MarkingKeepsAttempts(w, s.rows, AllPredsSkipped(w.graph, s.completed, s.skipped), t);
    HeadCases(w, s, HeadStep(w, s));
    hide HeadStep, MarkSkipped, Ready, AllPredsSkipped, Guarded, RowOf;
  }

  lemma HeadKeepsProgress(w: Workflow, v: Verdicts, rows: map<TaskId, Row>, s: State,
      outcomes: TaskId -> nat -> Outcome)
    requires w.tasks.Keys == w.Nodes() && s.phase.LoopHead? && Progress(w, v, rows, s, outcomes)
    ensures Progress(w, v, rows, HeadStep(w, s), outcomes)
  {
    HeadCases(w, s, HeadStep(w, s));
    hide HeadStep, AllSucceed, TaskSucceeds, CompletedRows, Ready, AllPredsSkipped, Guarded, RowOf, MarkSkipped;
    forall t | t in w.tasks ensures SameAttempts(RowOf(w, s.rows, t), RowOf(w, HeadStep(w, s).rows, t)) {
      HeadKeepsAttempts(w, s, t);
    }
  }

  /** The coroutines of a fresh wave run tasks that the equations run, none of them completed. */
  lemma FreshWaveRuns(w: Workflow, v: Verdicts, s: State)
    requires Setting(w, v) && Inv(w, v, s) && WaveIsFresh(s) && !s.status.Cancelled?
    ensures forall t | t in s.pcs :: t in v && v[t].Ran? && t !in s.completed && t in w.Nodes()
  {
    hide Inv, Setting;
    forall t | t in s.pcs ensures t in v && v[t].Ran? && t !in s.completed && t in w.Nodes() {
      WaitingIsFresh(w, v, s, t);
      AtCoroutine(w, v, s, t);
    }
  }

  lemma WaveKeepsProgress(w: Workflow, v: Verdicts, rows: map<TaskId, Row>, s: State, s': State,
      outcomes: TaskId -> nat -> Outcome)
    requires w.tasks.Keys == w.Nodes() && Progress(w, v, rows, s, outcomes) && !s.failed
    requires WaveRan(w, s, s', s.pcs.Keys, outcomes)
    requires forall t | t in s.pcs :: t in v && v[t].Ran? && t !in s.completed && t in w.Nodes()
    ensures Progress(w, v, rows, s', outcomes)
  {
    forall t | t in s.pcs ensures TaskSucceeds(w, s.rows, outcomes, t) <==> TaskSucceeds(w, rows, outcomes, t) {
      SameAttemptsSucceed(RowOf(w, rows, t), RowOf(w, s.rows, t), outcomes(t));
    }
    hide TaskSucceeds, RowOf;
    if s'.failed {
      var t :| t in s.pcs.Keys && !TaskSucceeds(w, s.rows, outcomes, t);
      assert t !in CompletedRows(rows) && !TaskSucceeds(w, rows, outcomes, t);
    }
  }

  /** A turn that stays at the head skips something, or idles because a task is blocked. */
  lemma TurnAtHead(w: Workflow, v: Verdicts, s: State, s': State)
    requires Setting(w, v) && Inv(w, v, s) && Next(w, s, Head, s') && s'.phase.LoopHead?
    ensures Live(s') == Live(s)
    ensures s'.skipped != s.skipped ==> LiveUnstarted(w, s') < LiveUnstarted(w, s)
    ensures s'.skipped == s.skipped ==> Quiescent(w, s') && !Unblocked(v) && LiveUnstarted(w, s') == LiveUnstarted(w, s)
  {
    hide Inv, Setting, Next, Quiescent, LiveUnstarted, Unblocked, Live;
    StaysAtHead(w, s, s');
    if s'.skipped == s.skipped {
      IdleIffBlocked(w, v, s, s');
      QuiescentAgain(w, s, s');
      RefreshedUnstarted(w, s);
    } else {
      ProductiveStartsFewer(w, v, s, Head, s');
    }
  }

  lemma RefreshedUnstarted(w: Workflow, s: State)
    ensures LiveUnstarted(w, s.(seen := s.status)) == LiveUnstarted(w, s)
  {
    assert Unstarted(w, s.(seen := s.status)) == Unstarted(w, s);
  }

  lemma QuiescentAgain(w: Workflow, s: State, s': State)
    requires Quiescent(w, s) && s'.completed == s.completed && s'.skipped == s.skipped
    ensures Quiescent(w, s')
  {
  }

  lemma StaysAtHead(w: Workflow, s: State, s': State)
    requires Next(w, s, Head, s') && s'.phase.LoopHead?
    ensures Live(s') == Live(s) && (s'.skipped == s.skipped ==> s' == s.(seen := s.status))
  {
    hide Next;
    NextHead(w, s, s');
    HeadCases(w, s, s');
    PropagatedInBrief(w, s.(seen := s.status));
    FreshSkips(w.graph, s.completed, s.skipped);
    hide HeadStep, Propagated, Ready, MarkSkipped, AllPredsSkipped, Guarded;
  }

  lemma TurnIntoWave(w: Workflow, v: Verdicts, s: State, s': State)
    requires Setting(w, v) && Inv(w, v, s) && Next(w, s, Head, s') && s'.phase.Wave?
    ensures !s'.failed && !s'.status.Cancelled? && Live(s) == 1 && s'.status == s.status
    ensures LiveUnstarted(w, s') < LiveUnstarted(w, s)
  {
    hide Inv, Setting, LiveUnstarted, Next;
    NextHead(w, s, s');
    HeadCases(w, s, s');
    assert Productive(s, Head, s');
    ProductiveStartsFewer(w, v, s, Head, s');
    hide HeadStep, Ready, MarkSkipped, AllPredsSkipped, Guarded;
  }

  /** From a fresh wave to the state after its end nothing more is unstarted, unless the wave failed. */
  lemma WaveDescends(w: Workflow, v: Verdicts, s: State, s': State, s'': State, outcomes: TaskId -> nat -> Outcome)
    requires Setting(w, v) && Inv(w, v, s') && WaveRan(w, s, s', s.pcs.Keys, outcomes) && s'.pcs.Keys == s.pcs.Keys
    requires Next(w, s', EndWave, s'') && !s.failed && !s.status.Cancelled?
    ensures Live(s'') == 0 || LiveUnstarted(w, s'') <= LiveUnstarted(w, s)
    ensures s''.failed == s'.failed && s''.status == s.status
  {
    UnstartedShrinks(w, s, s');
    EndWaveInBrief(w, s', s'');
    hide Inv, Setting, Next, Unstarted, WaveRan;
    if Live(s'') == 1 { EndWaveKeepsUnstarted(w, v, s', s''); }
  }

  lemma UnstartedShrinks(w: Workflow, s: State, s': State)
    requires s.completed <= s'.completed && s.skipped <= s'.skipped && s'.pcs.Keys == s.pcs.Keys
    ensures |Unstarted(w, s')| <= |Unstarted(w, s)|
  {
    SubsetSize(Unstarted(w, s'), Unstarted(w, s));
  }

  /** While nothing has failed, a Running head goes on; if it has, it ends the run Failed. */
  lemma TurnKeepsRunning(w: Workflow, s: State)
    requires w.tasks.Keys == w.Nodes() && s.phase.LoopHead? && s.status.Running?
    ensures var s' := HeadStep(w, s);
            if s'.phase.Off? then s'.failed && !s'.status.Completed? else s'.status.Running?
  {
    HeadCases(w, s, HeadStep(w, s));
    hide HeadStep, Ready, MarkSkipped, AllPredsSkipped;
  }

  /** Past its loop, an execution with nothing failed has completed all that the equations run. */
  lemma SettledSucceeds(w: Workflow, v: Verdicts, rows: map<TaskId, Row>, s: State, outcomes: TaskId -> nat -> Outcome)
    requires Setting(w, v) && Inv(w, v, s) && s.phase.AfterLoop? && !s.failed && Progress(w, v, rows, s, outcomes)
    ensures AllSucceed(w, v, rows, outcomes) && Unblocked(v)
  {
    VerdictsAreNodes(w, v);
    AfterLoopIsSettled(w, v, s);
    hide Setting, TaskSucceeds, CompletedRows;
    forall t | t in v ensures !v[t].Blocked? && (v[t].Ran? ==> t in s.completed) {
      SettledVerdict(w, v, s, t);
    }
  }

  lemma SettledVerdict(w: Workflow, v: Verdicts, s: State, t: TaskId)
    requires Inv(w, v, s) && s.phase.AfterLoop? && t in v && (t in s.completed || t in s.skipped)
    ensures t in s.completed ==> v[t].Ran?
    ensures t in s.skipped ==> v[t].Pruned?
  {
    hide Loser, BranchesPruned, CoroutinesOk, LocksOk, RowsOk, RowOk;
    RowAt(w, v, s, t);
    RowMeans(w, v, s.rows[t], t);
  }

  lemma ProgressFailed(w: Workflow, v: Verdicts, rows: map<TaskId, Row>, s: State, outcomes: TaskId -> nat -> Outcome)
    requires Progress(w, v, rows, s, outcomes)
    ensures s.failed ==> !AllSucceed(w, v, rows, outcomes)
  {
  }

  lemma ProgressStays(w: Workflow, v: Verdicts, rows: map<TaskId, Row>, s: State, s': State,
      outcomes: TaskId -> nat -> Outcome)
    requires Progress(w, v, rows, s, outcomes) && s'.completed == s.completed &&
        s'.failed == s.failed && s'.rows == s.rows
    ensures Progress(w, v, rows, s', outcomes)
  {
  }

  lemma WaveSettings(w: Workflow, s: State, s': State, outcomes: TaskId -> nat -> Outcome)
    requires WaveRan(w, s, s', s.pcs.Keys, outcomes)
    ensures s'.phase.Wave? && s'.status == s.status && s'.permits == s.permits && s'.glock == s.glock
    ensures s'.pcs.Keys == s.pcs.Keys
  {
  }

  lemma EndWaveIsNext(w: Workflow, s: State, s': State)
    requires Typed(w, s) && s.phase.Wave? && (forall t | t in s.pcs :: s.pcs[t].Finished?) && s' == EndWaveStep(w, s)
    ensures Next(w, s, EndWave, s')
  {
  }
}
