/**
 The executor as it updates its fields in place. Each method is one stretch of execute_workflow,
 cancel_execution or retry_execution between two awaits, and is proved to be one step of the system
 in Executor; so the calls made on one object are a run, and what is proved about runs holds of it.
 */
module WorkflowExecutions {
  import opened Options
  import opened Graphs
  import opened Workflows
  import opened StateMachine
  import opened Executor
  import opened ExecutorInvariant
  import opened ExecutorTheorems
  import opened TaskAttempts
  import opened ExecutorProgress
  import opened ExecutorTermination
  import opened ExecutorCompletion
  import opened ExecutorMeaning
  import opened NodeRuns

  lemma DispatchIsNext(w: Workflow, s: State, s': State)
    requires Typed(w, s) && s.phase.Off? && s' == DispatchStep(w, s)
    ensures Next(w, s, Dispatch, s')
  {
  }

  lemma HeadIsNext(w: Workflow, s: State, s': State)
    requires Typed(w, s) && s.phase.LoopHead? && s' == HeadStep(w, s)
    ensures Next(w, s, Head, s') && Typed(w, s')
  {
    HeadCases(w, s, s');
    hide HeadStep, AllPredsSkipped, MarkSkipped, Guarded;
  }

  lemma SectionIsNext(w: Workflow, s: State, t: TaskId, s': State)
    requires Typed(w, s) && s.phase.Wave? && t in s.pcs && t in w.tasks && WantsLock(s.pcs[t]) && s.glock == Some(t)
    requires s' == SectionStep(w, s, t)
    ensures Next(w, s, Section(t), s') && Typed(w, s')
  {
    hide Loser, MarkSkipped, MergedInput, AvailableOutputs;
  }

  lemma DispatchOpens(w: Workflow, s: State)
    ensures var s' := DispatchStep(w, s);
            && s'.phase.LoopHead? && s'.permits == w.maxConcurrent && s'.glock.None?
            && (s.status.Pending? || s.status.Running? ==> s'.status.Running?)
  {
  }

  lemma HeadOpens(w: Workflow, s: State)
    requires w.tasks.Keys == w.Nodes() && s.phase.LoopHead?
    ensures var s' := HeadStep(w, s);
            && s'.permits == s.permits && s'.glock == s.glock
            && (s'.phase.Wave? ==> forall t | t in s'.pcs :: s'.pcs[t].Waiting?)
  {
    HeadCases(w, s, HeadStep(w, s));
    hide HeadStep, Ready, AllPredsSkipped, MarkSkipped, Guarded;
  }

  class WorkflowExecution {
    const w: Workflow
    var phase: Phase
    var status: ExecutionState
    var seen: ExecutionState
    var rows: map<TaskId, Row>
    var outputData: Option<Object>
    var completed: set<TaskId>
    var skipped: set<TaskId>
    var failed: bool
    var taskOutputs: Object
    var pcs: map<TaskId, Pc>
    var permits: nat
    var glock: Option<TaskId>
    ghost var events: seq<Event>
    ghost var history: seq<State>

    ghost function Value(): State
      reads this
    {
      State(phase, status, seen, rows, outputData, completed, skipped, failed, taskOutputs, pcs, permits, glock)
    }

    /** The calls so far are a run that has led here. */
    ghost predicate Valid()
      reads this
    {
      Trace(w, events, history) && history[|events|] == Value() && Typed(w, Value())
    }

    constructor (w: Workflow)
      requires w.tasks.Keys == w.Nodes()
      ensures Valid() && Value() == Triggered(w) && this.w == w
    {
      this.w := w;
      phase, status, seen, rows, outputData := Off, Pending, Pending, map[], None;
      completed, skipped, failed, taskOutputs := {}, {}, false, map[];
      pcs, permits, glock := map[], w.maxConcurrent, None;
      events, history := [], [Triggered(w)];
    }

    ghost method Log(e: Event)
      requires Trace(w, events, history) && Next(w, history[|events|], e, Value()) && Typed(w, Value())
      modifies this`events, this`history
      ensures Valid() && events == old(events) + [e]
    {
      TraceGrows(w, events, history, e, Value());
      history := history + [Value()];
      events := events + [e];
    }

    // ---- Calls from outside ----

    /** Lines 72-82: what earlier runs recorded. */
    method LoadRows()
      modifies this`completed, this`skipped, this`taskOutputs
      ensures completed == CompletedRows(rows) && skipped == SkippedRows(rows) && taskOutputs == RecordedOutputs(rows)
    {
      completed, skipped, taskOutputs := {}, {}, map[];
      var todo := rows.Keys;
      while todo != {}
        invariant todo <= rows.Keys
        invariant forall t :: t in completed <==> t in rows && t !in todo && rows[t].status.RowCompleted?
        invariant forall t :: t in skipped <==> t in rows && t !in todo && rows[t].status.RowSkipped?
        invariant forall t :: t in taskOutputs <==> t in completed && rows[t].output.Some?
        invariant forall t | t in taskOutputs :: Some(taskOutputs[t]) == rows[t].output
      {
        var t :| t in todo;
        todo := todo - {t};
        if rows[t].status.RowCompleted? {
          completed := completed + {t};
          if rows[t].output.Some? { taskOutputs := taskOutputs[t := rows[t].output.value]; }
        } else if rows[t].status.RowSkipped? {
          skipped := skipped + {t};
        }
      }
    }

    /** Lines 58-63. */
    method MarkRunning()
      modifies this`status, this`seen
      ensures status == Guarded(old(status), Running) && seen == status
    {
      if CanTransition(status, Running) { status := Running; }
      seen := status;
    }

    /** Lines 58-83: start a run. */
    method Begin()
      requires Valid() && phase.Off?
      modifies this
      ensures Valid() && Value() == DispatchStep(w, old(Value())) && events == old(events) + [Dispatch]
    {
      hide CompletedRows, SkippedRows, RecordedOutputs, Trace, Guarded;
      MarkRunning();
      LoadRows();
      failed := false;
      phase, pcs, permits, glock := LoopHead, map[], w.maxConcurrent, None;
      DispatchIsNext(w, old(Value()), Value());
      Log(Dispatch);
    }

    /** Lines 371-374. */
    method CancelLiveRows()
      modifies this`rows
      ensures rows == CancelRows(old(rows))
    {
      var todo := rows.Keys;
      while todo != {}
        invariant todo <= rows.Keys == old(rows.Keys)
        invariant forall t | t in rows :: rows[t] == if t in todo then old(rows)[t] else CancelRow(old(rows)[t])
      {
        var t :| t in todo;
        todo := todo - {t};
        if rows[t].status.RowPending? || rows[t].status.RowRunning? {
          rows := rows[t := rows[t].(status := RowCancelled)];
        }
      }
    }

    /** Lines 366-375. */
    method CancelExecution()
      requires Valid()
      modifies this
      ensures Valid() && Value() == CancelStep(old(Value())) && events == old(events) + [Cancel]
      ensures status == if old(status) in {Pending, Running} then Cancelled else old(status)
      ensures Rewrites(old(rows), rows, {RowPending, RowRunning}, (r: Row) => r.(status := RowCancelled))
    {
      CancelMeans(w, Value(), CancelStep(Value()));
      hide Trace, CancelRows, Rewrites;
      if CanTransition(status, Cancelled) { status := Cancelled; }
      CancelLiveRows();
      Log(Cancel);
    }

    /** Lines 94-102 of execution_service.py. */
    method ResetFailedRows()
      modifies this`rows
      ensures rows == ResetRows(old(rows))
    {
      var todo := rows.Keys;
      while todo != {}
        invariant todo <= rows.Keys == old(rows.Keys)
        invariant forall t | t in rows :: rows[t] == if t in todo then old(rows)[t] else ResetRow(old(rows)[t])
      {
        var t :| t in todo;
        todo := todo - {t};
        if rows[t].status.RowFailed? {
          rows := rows[t := rows[t].(status := RowPending, output := None, attempt := 1)];
        }
      }
    }

    /** Lines 85-108 of execution_service.py. */
    method RetryExecution() returns (accepted: bool)
      requires Valid()
      modifies this
      ensures Valid() && Value() == RetryStep(old(Value())) && events == old(events) + [Retry]
      ensures accepted == (old(status) in {Pending, Failed, TimedOut})
      ensures accepted ==> status == Pending && outputData == None
      ensures accepted ==> Rewrites(old(rows), rows, {RowFailed}, (r: Row) => Row(RowPending, None, 1, r.maxAttempts))
      ensures !accepted ==> Value() == old(Value())
    {
      RetryStepMeans(Value());
      hide Trace, ResetRows, Rewrites;
      accepted := !(status.Completed? || status.Cancelled? || status.Running?);
      if accepted {
        if CanTransition(status, Pending) { status := Pending; }
        status := Pending;
        outputData := None;
        ResetFailedRows();
      }
      Log(Retry);
    }

    // ---- The main loop ----

    /** _get_or_create_task_execution. */
    method GetOrCreateTaskExecution(t: TaskId) returns (te: Row)
      requires t in w.tasks
      modifies this`rows
      ensures te == RowOf(w, old(rows), t) && rows == old(rows)[t := te]
    {
      if t !in rows {
        var most := if w.tasks[t].maxAttempts < 1 then 1 else w.tasks[t].maxAttempts;
        rows := rows[t := Row(RowPending, None, 1, most)];
      }
      te := rows[t];
    }

    method SkipTask(t: TaskId)
      requires t in w.tasks
      modifies this`rows, this`skipped
      ensures skipped == old(skipped) + {t} && rows == MarkSkipped(w, old(rows), {t})
    {
      skipped := skipped + {t};
      var te := GetOrCreateTaskExecution(t);
      rows := rows[t := te.(status := RowSkipped)];
    }

    /** Lines 138-153: the list of skips is made before the first of them is recorded. */
    method PropagateSkips()
      requires w.tasks.Keys == w.Nodes()
      modifies this`rows, this`skipped
      ensures var more := AllPredsSkipped(w.graph, completed, old(skipped));
              skipped == old(skipped) + more && rows == MarkSkipped(w, old(rows), more)
    {
      var more := AllPredsSkipped(w.graph, completed, skipped);
      assert more <= w.tasks.Keys;
      hide AllPredsSkipped;
      var todo := more;
      while todo != {}
        invariant todo <= more <= w.tasks.Keys
        invariant skipped == old(skipped) + (more - todo)
        invariant rows == MarkSkipped(w, old(rows), more - todo)
      {
        var t :| t in todo;
        SkipTask(t);
        todo := todo - {t};
      }
      assert more - todo == more;
    }

    /** _fail_execution. */
    method FailExecution()
      modifies this`status
      ensures status == Guarded(old(status), Failed)
    {
      if CanTransition(status, Failed) { status := Failed; }
    }

    /** is_cancelled. */
    method IsCancelled() returns (yes: bool)
      modifies this`seen
      ensures seen == status && yes == status.Cancelled?
    {
      seen := status;
      yes := seen.Cancelled?;
    }

    /** Lines 118-159, from the guard up to `gather`, `continue`, `break` or `return`. */
    method LoopOnce()
      requires Valid() && phase.LoopHead?
      modifies this
      ensures Valid() && Value() == HeadStep(w, old(Value())) && events == old(events) + [Head]
    {
      hide Trace, AllPredsSkipped, Ready, MarkSkipped;
      if |completed| + |skipped| < |w.Nodes()| {
        var cancelled := IsCancelled();
        if cancelled {
          phase := Off;
        } else if failed {
          FailExecution();
          seen := status;
          phase := Off;
        } else {
          PropagateSkips();
          var ready := Ready(w.graph, completed, skipped);
          if ready != {} {
            phase, pcs := Wave, map t | t in ready :: Waiting;
          } else if |completed| + |skipped| >= |w.Nodes()| {
            phase := AfterLoop;
          }
        }
      } else {
        phase := AfterLoop;
      }
      HeadIsNext(w, old(Value()), Value());
      Log(Head);
    }

    /** Lines 159-161: all coroutines of the wave are done. */
    method EndWave()
      requires Valid() && phase.Wave? && forall t | t in pcs :: pcs[t].Finished?
      modifies this
      ensures Valid() && Value() == EndWaveStep(w, old(Value())) && events == old(events) + [Event.EndWave]
    {
      hide Trace;
      phase := if failed && w.breaksOnFailure then AfterLoop else LoopHead;
      pcs := map[];
      Log(Event.EndWave);
    }

    /** Lines 163-167 with _complete_execution; `ok` is false where the transition raises. */
    method CompleteExecution() returns (ok: bool)
      requires Valid() && phase.AfterLoop?
      modifies this
      ensures Valid() && Value() == FinishStep(old(Value())) && events == old(events) + [Finish]
      ensures ok <==> status.Completed? && outputData == Some(taskOutputs) && old(status).Running?
    {
      hide Trace;
      var cancelled := IsCancelled();
      ok := !cancelled && !failed && CanTransition(status, Completed);
      if ok {
        status, outputData := Completed, Some(taskOutputs);
        seen := Completed;
      }
      phase := Off;
      Log(Finish);
    }

    // ---- run_node ----

    method Suspend(t: TaskId, pc: Pc)
      requires t in pcs
      modifies this`pcs
      ensures pcs == old(pcs)[t := pc]
    {
      pcs := pcs[t := pc];
    }

    /** Leave the semaphore's block, by `return` or at its end. */
    method Release(t: TaskId)
      modifies this`pcs, this`permits
      ensures pcs == old(pcs)[t := Finished] && permits == old(permits) + 1
    {
      pcs := pcs[t := Finished];
      permits := permits + 1;
    }

    /** Line 95. */
    method EnterSemaphore(t: TaskId)
      requires Valid() && phase.Wave? && t in pcs && pcs[t].Waiting? && permits > 0
      modifies this
      ensures Valid() && events == old(events) + [Enter(t)]
      ensures Value() == Goto(old(Value()), t, Entered).(permits := old(permits) - 1)
    {
      hide Trace;
      permits := permits - 1;
      Suspend(t, Entered);
      Log(Enter(t));
    }

    /** Lines 96-97. */
    method LeaveIfCancelled(t: TaskId)
      requires Valid() && phase.Wave? && t in pcs && pcs[t].Entered?
      modifies this
      ensures Valid() && Value() == CheckStep(old(Value()), t) && events == old(events) + [CheckCancelled(t)]
    {
      hide Trace;
      var cancelled := IsCancelled();
      if cancelled { Release(t); } else { Suspend(t, Checked); }
      Log(CheckCancelled(t));
    }

    /** Entering any of the `async with glock` blocks. */
    method AcquireLock(t: TaskId)
      requires Valid() && phase.Wave? && t in pcs && WantsLock(pcs[t]) && glock.None?
      modifies this
      ensures Valid() && Value() == old(Value()).(glock := Some(t)) && events == old(events) + [Lock(t)]
    {
      hide Trace;
      glock := Some(t);
      Log(Lock(t));
    }

    ghost predicate Holds(t: TaskId)
      reads this
    {
      Valid() && phase.Wave? && t in pcs && t in w.tasks && glock == Some(t)
    }

    /** Lines 98-101. */
    method LeaveIfSettled(t: TaskId)
      requires Holds(t) && pcs[t].Checked?
      modifies this
      ensures Valid() && Value() == SectionStep(w, old(Value()), t) && events == old(events) + [Section(t)]
    {
      hide Trace;
      if t in completed || t in skipped {
        Release(t);
      } else {
        var te := GetOrCreateTaskExecution(t);
        Suspend(t, Fetching);
      }
      glock := None;
      SectionIsNext(w, old(Value()), t, Value());
      Log(Section(t));
    }

    /** Lines 102-106. */
    method ReadInputs(t: TaskId)
      requires Holds(t) && pcs[t].Fetching?
      modifies this
      ensures Valid() && Value() == SectionStep(w, old(Value()), t) && events == old(events) + [Section(t)]
      ensures t in pcs && pcs[t].Trying? && IsReadFrom(w, old(taskOutputs), t, pcs[t].input)
    {
      ReadingMeans(w, taskOutputs, t);
      hide Trace, IsReadFrom;
      var predOutputs := map p | p in w.Preds(t) && p in taskOutputs :: taskOutputs[p];
      Suspend(t, Trying(MergedInput(w.input, predOutputs)));
      glock := None;
      SectionIsNext(w, old(Value()), t, Value());
      Log(Section(t));
    }

    /** Lines 110-112. */
    method AddCompleted(t: TaskId) returns (output: Option<Json>)
      requires t in w.tasks
      modifies this`completed, this`taskOutputs
      ensures output == RowOf(w, rows, t).output && completed == old(completed) + {t}
      ensures taskOutputs == if output.Some? then old(taskOutputs)[t := output.value] else old(taskOutputs)
    {
      completed := completed + {t};
      output := RowOf(w, rows, t).output;
      if output.Some? { taskOutputs := taskOutputs[t := output.value]; }
    }

    /** Lines 108-115, and lines 184-195 for the branch to skip. */
    method RecordOutcome(t: TaskId)
      requires Holds(t) && pcs[t].Ending?
      modifies this
      ensures Valid() && Value() == SectionStep(w, old(Value()), t) && events == old(events) + [Section(t)]
    {
      hide Trace, Loser, RowOf;
      if pcs[t].ok {
        var output := AddCompleted(t);
        var loser := Loser(w, t, output);
        if loser.Some? { Suspend(t, Pruning(loser.value)); } else { Release(t); }
      } else {
        failed := true;
        Release(t);
      }
      glock := None;
      SectionIsNext(w, old(Value()), t, Value());
      Log(Section(t));
    }

    /** Lines 196-201. */
    method ApplyConditionBranchSkips(t: TaskId)
      requires Holds(t) && pcs[t].Pruning?
      modifies this
      ensures Valid() && Value() == SectionStep(w, old(Value()), t) && events == old(events) + [Section(t)]
    {
      hide Trace, MarkSkipped;
      var sid := pcs[t].target;
      if sid in w.tasks { SkipTask(sid); }
      Release(t);
      glock := None;
      SectionIsNext(w, old(Value()), t, Value());
      Log(Section(t));
    }

    /** Lines 237-240 and 262-265. */
    method StartAttempt(t: TaskId)
      requires Valid() && phase.Wave? && t in pcs && t in w.tasks && pcs[t].Trying?
      modifies this
      ensures Valid() && Value() == AttemptStep(w, old(Value()), t) && events == old(events) + [Attempt(t)]
    {
      hide Trace;
      var te := RowOf(w, rows, t);
      if te.attempt <= te.maxAttempts && !seen.Cancelled? {
        rows := rows[t := te.(status := RowRunning)];
        Suspend(t, Invoking(pcs[t].input));
      } else {
        Suspend(t, Ending(false));
      }
      Log(Attempt(t));
    }

    /** Lines 280-326, then lines 241-244. */
    method EndAttempt(t: TaskId, outcome: Outcome)
      requires Valid() && phase.Wave? && t in pcs && t in w.tasks && pcs[t].Invoking?
      modifies this
      ensures Valid() && Value() == ReturnStep(w, old(Value()), t, outcome) &&
          events == old(events) + [Return(t, outcome)]
    {
      hide Trace;
      var te, input := RowOf(w, rows, t), pcs[t].input;
      match outcome {
        case Timeout =>
          rows := rows[t := te.(status := RowFailed)];
        case Success =>
          rows := rows[t := te.(status := RowCompleted, output := w.result(t, input))];
        case Failure(output) =>
          rows := rows[t := te.(status := RowFailed, output := output)];
      }
      if outcome.Success? {
        Suspend(t, Ending(true));
      } else if te.attempt >= te.maxAttempts {
        Suspend(t, Ending(false));
      } else {
        Suspend(t, Sleeping(input));
      }
      Log(Return(t, outcome));
    }

    /** Lines 247-249, after the sleep. */
    method NextAttempt(t: TaskId)
      requires Valid() && phase.Wave? && t in pcs && t in w.tasks && pcs[t].Sleeping?
      modifies this
      ensures Valid() && Value() == WakeStep(w, old(Value()), t) && events == old(events) + [Wake(t)]
    {
      hide Trace;
      var te := RowOf(w, rows, t);
      rows := rows[t := te.(attempt := te.attempt + 1, status := RowPending)];
      Suspend(t, Trying(pcs[t].input));
      Log(Wake(t));
    }

    // ---- One coroutine after another ----

    /** One turn of the retry loop, after n failed calls; `outcomes(k)` is how attempt k ends if it is made. */
    method TryOnce(t: TaskId, outcomes: nat -> Outcome, ghost start: State, ghost n: nat)
      requires Valid() && MayStart(w, start, t) && !Declines(start, t) && TryingNth(w, start, Value(), t, outcomes, n)
      modifies this
      ensures Valid() && t in pcs
      ensures pcs[t].Trying? ==> TryingNth(w, start, Value(), t, outcomes, n + 1)
      ensures !pcs[t].Trying? ==> Tried(w, start, Value(), t, outcomes)
    {
      hide Trace, AttemptStep, ReturnStep, WakeStep, TryingNth, CallingNth, SleepingNth, Tried;
      TurnStarts(w, start, Value(), t, outcomes, n);
      StartAttempt(t);
      if pcs[t].Invoking? {
        var outcome := outcomes(rows[t].attempt);
        TurnReturns(w, start, Value(), t, outcomes, n);
        EndAttempt(t, outcome);
        if pcs[t].Sleeping? {
          TurnWakes(w, start, Value(), t, outcomes, n);
          NextAttempt(t);
        }
      }
    }

    /** The retry loop of a coroutine, entered from `start`. */
    method TryTask(t: TaskId, outcomes: nat -> Outcome, ghost start: State)
      requires Valid() && MayStart(w, start, t) && !Declines(start, t) && TryingNth(w, start, Value(), t, outcomes, 0)
      modifies this
      ensures Valid() && Tried(w, start, Value(), t, outcomes)
    {
      hide Trace, TryingNth, Tried, RowOf, Midway;
      ghost var n := 0;
      TryingIsTrying(w, start, Value(), t, outcomes, 0);
      while pcs[t].Trying?
        invariant Valid() && t in pcs
        invariant pcs[t].Trying? ==> TryingNth(w, start, Value(), t, outcomes, n)
        invariant !pcs[t].Trying? ==> Tried(w, start, Value(), t, outcomes)
        decreases pcs[t].Trying?, RowOf(w, start.rows, t).maxAttempts + 1 - n
      {
        TryingIsTrying(w, start, Value(), t, outcomes, n);
        TryOnce(t, outcomes, start, n);
        n := n + 1;
      }
    }

    /** run_node with nothing interleaved. */
    method RunNode(t: TaskId, outcomes: nat -> Outcome)
      requires Valid() && MayStart(w, Value(), t)
      modifies this
      ensures Valid() && Value() == NodeRun(w, old(Value()), t, outcomes)
    {
      ghost var start := Value();
      hide Trace, CheckStep, SectionStep, Recorded, TriedRow, Succeeds, InputOf, RowOf, Loser;
      ChecksIn(w, start, t);
      EnterSemaphore(t);
      LeaveIfCancelled(t);
      if pcs[t].Finished? { return; }
      FetchesRow(w, start, t);
      AcquireLock(t);
      LeaveIfSettled(t);
      if pcs[t].Finished? { return; }
      FetchesInputs(w, start, t, RowOf(w, start.rows, t));
      AcquireLock(t);
      ReadInputs(t);
      StartsTrying(w, start, t, outcomes);
      TryTask(t, outcomes, start);
      ghost var row, ok := TriedRow(w, start, t, outcomes), Succeeds(RowOf(w, start.rows, t), outcomes);
      RunIsRecorded(w, start, t, outcomes);
      Records(w, start, t, row, ok);
      RecordedAt(w, start, t, row, ok);
      AcquireLock(t);
      RecordOutcome(t);
      if pcs[t].Pruning? {
        Prunes(w, start, t, row);
        AcquireLock(t);
        ApplyConditionBranchSkips(t);
      }
    }

    /** `gather`, in one of its possible orders: a task completes exactly if one of its attempts succeeds. */
    method Gather(outcomes: TaskId -> nat -> Outcome, ghost v: Verdicts)
      requires Valid() && Setting(w, v) && WaveIsFresh(Value()) && !status.Cancelled?
      modifies this
      ensures Valid() && WaveRan(w, old(Value()), Value(), old(pcs).Keys, outcomes)
      ensures forall t | t in pcs :: pcs[t].Finished?
    {
      hide Trace, NodeRun, WaveRan, Setting, Inv, MayStart, Typed;
      ghost var start := Value();
      var todo := pcs.Keys;
      NothingRan(w, start, outcomes);
      assert start.pcs.Keys - todo == {};
      while todo != {}
        invariant Valid() && todo <= start.pcs.Keys == pcs.Keys
        invariant WaveRan(w, start, Value(), start.pcs.Keys - todo, outcomes)
        invariant forall t | t in pcs :: if t in todo then pcs[t].Waiting? else pcs[t].Finished?
      {
        var t :| t in todo;
        LastHasInv(w, v, events, history);
        WaveGoesOn(w, v, start, Value(), t, start.pcs.Keys - todo, outcomes);
        assert start.pcs.Keys - (todo - {t}) == start.pcs.Keys - todo + {t};
        RunNode(t, outcomes(t));
        todo := todo - {t};
      }
      assert start.pcs.Keys - todo == start.pcs.Keys;
    }

    /** Lines 159-161 in full. */
    method RunWave(outcomes: TaskId -> nat -> Outcome, ghost v: Verdicts, ghost rows0: map<TaskId, Row>)
      requires Valid() && Setting(w, v) && WaveIsFresh(Value()) && !status.Cancelled? && !failed
      requires Progress(w, v, rows0, Value(), outcomes)
      modifies this
      ensures Valid() && Progress(w, v, rows0, Value(), outcomes) && (phase.LoopHead? || phase.AfterLoop?)
      ensures permits == old(permits) && glock.None? && status == old(status)
      ensures Live(Value()) == 0 || LiveUnstarted(w, Value()) <= LiveUnstarted(w, old(Value()))
    {
      hide Trace, Setting, Inv, Progress, WaveRan, LiveUnstarted;
      ghost var s := Value();
      LastHasInv(w, v, events, history);
      FreshWaveRuns(w, v, s);
      Gather(outcomes, v);
      ghost var s1 := Value();
      WaveKeepsProgress(w, v, rows0, s, s1, outcomes);
      WaveSettings(w, s, s1, outcomes);
      LastHasInv(w, v, events, history);
      EndWave();
      EndWaveIsNext(w, s1, Value());
      WaveDescends(w, v, s, s1, Value(), outcomes);
      ProgressStays(w, v, rows0, s1, Value(), outcomes);
    }

    /** Between turns: at the head, past the loop, or ended in failure. */
    ghost predicate BetweenTurns(v: Verdicts, rows0: map<TaskId, Row>, outcomes: TaskId -> nat -> Outcome, open: bool)
      reads this
    {
      && Valid() && Progress(w, v, rows0, Value(), outcomes)
      && (phase.LoopHead? || phase.AfterLoop? || phase.Off?)
      && (phase.LoopHead? ==> permits > 0 && glock.None?)
      && (open ==> if phase.Off? then failed && !status.Completed? else status.Running?)
    }

    /** One turn of the main loop; `idle` if it started, skipped and ended nothing. */
    method TakeTurn(outcomes: TaskId -> nat -> Outcome, ghost v: Verdicts, ghost rows0: map<TaskId, Row>,
        ghost open: bool)
      returns (idle: bool)
      requires Setting(w, v) && BetweenTurns(v, rows0, outcomes, open) && phase.LoopHead?
      modifies this
      ensures BetweenTurns(v, rows0, outcomes, open)
      ensures idle ==> phase.LoopHead? && Quiescent(w, Value()) && !Unblocked(v)
      ensures idle ==> Live(Value()) == old(Live(Value()))
      ensures idle ==> LiveUnstarted(w, Value()) == old(LiveUnstarted(w, Value()))
      ensures !idle && phase.LoopHead? ==>
                || Live(Value()) < old(Live(Value()))
                || (Live(Value()) == old(Live(Value())) && LiveUnstarted(w, Value()) < old(LiveUnstarted(w, Value())))
    {
      hide Trace, HeadStep, Setting, Inv, Progress, AllSucceed, Unblocked, Quiescent, WaveRan, LiveUnstarted;
      ghost var s := Value();
      var before := skipped;
      LastHasInv(w, v, events, history);
      HeadOpens(w, s);
      HeadKeepsProgress(w, v, rows0, s, outcomes);
      if open { TurnKeepsRunning(w, s); }
      LoopOnce();
      HeadIsNext(w, s, Value());
      hide Next;
      idle := false;
      if phase.Wave? {
        TurnIntoWave(w, v, s, Value());
        RunWave(outcomes, v, rows0);
      } else if phase.LoopHead? {
        TurnAtHead(w, v, s, Value());
        idle := skipped == before;
      }
    }

    /** Lines 118-161. The source polls for ever when a task is blocked; `polls` idle polls are waited for. */
    method RunLoop(outcomes: TaskId -> nat -> Outcome, polls: nat, ghost v: Verdicts, ghost rows0: map<TaskId, Row>,
                   ghost open: bool)
      requires Setting(w, v) && BetweenTurns(v, rows0, outcomes, open)
      modifies this
      ensures BetweenTurns(v, rows0, outcomes, open)
      ensures phase.LoopHead? ==> Quiescent(w, Value()) && !Unblocked(v)
    {
      hide BetweenTurns, Setting, Quiescent, LiveUnstarted, Live, Unblocked;
      var left := polls;
      while phase.LoopHead?
        invariant BetweenTurns(v, rows0, outcomes, open)
        decreases Live(Value()), LiveUnstarted(w, Value()), left
      {
        var idle := TakeTurn(outcomes, v, rows0, open);
        if !phase.LoopHead? { break; }
        if idle {
          if left == 0 { break; }
          left := left - 1;
        }
      }
    }

    /** Lines 163-167 after the loop. */
    method Conclude(outcomes: TaskId -> nat -> Outcome, ghost v: Verdicts, ghost rows0: map<TaskId, Row>,
        ghost open: bool)
      requires Setting(w, v) && BetweenTurns(v, rows0, outcomes, open)
      requires phase.LoopHead? ==> !Unblocked(v)
      modifies this
      ensures Valid() && (phase.Off? || (phase.LoopHead? && Value() == old(Value())))
      ensures open ==> (status.Completed? <==> Unblocked(v) && AllSucceed(w, v, rows0, outcomes))
    {
      hide Trace, Setting, Inv, Progress, AllSucceed, Unblocked;
      ProgressFailed(w, v, rows0, Value(), outcomes);
      if phase.AfterLoop? {
        LastHasInv(w, v, events, history);
        if !failed { SettledSucceeds(w, v, rows0, Value(), outcomes); }
        var ok := CompleteExecution();
      }
    }

    /**
     execute_workflow. Without a blocked task the run ends, and an execution that was Pending or Running
     ends Completed exactly when, besides, every task the equations run was completed before or succeeds.
     */
    method ExecuteWorkflow(outcomes: TaskId -> nat -> Outcome, polls: nat, ghost v: Verdicts)
      requires Valid() && phase.Off? && w.maxConcurrent > 0 && Setting(w, v)
      modifies this
      ensures Valid()
      ensures phase.Off? || (phase.LoopHead? && Quiescent(w, Value()) && !Unblocked(v))
      ensures old(status).Pending? || old(status).Running? ==>
                (status.Completed? <==> Unblocked(v) && AllSucceed(w, v, old(rows), outcomes))
      ensures status.Completed? ==>
                && CompletedRows(rows) == RanTasks(v) && SkippedRows(rows) == PrunedTasks(v)
                && outputData == Some(Outputs(v, w.Nodes()))
    {
      hide Trace, DispatchStep, CompletedRows, SkippedRows, RanTasks, PrunedTasks, Outputs, Setting, Progress,
          AllSucceed, Unblocked, Quiescent;
      ghost var open := status.Pending? || status.Running?;
      DispatchOpens(w, Value());
      ProgressBegins(w, v, Value(), outcomes);
      Begin();
      RunLoop(outcomes, polls, v, old(rows), open);
      Conclude(outcomes, v, old(rows), open);
      if status.Completed? { CompletedObjectIsSpec(this, v); }
    }
  }

  /** Whatever sequence of calls has made it Completed, an execution object holds the solution of the equations. */
  lemma CompletedObjectIsSpec(x: WorkflowExecution, v: Verdicts)
    requires x.Valid() && Setting(x.w, v) && x.status.Completed?
    ensures CompletedRows(x.rows) == RanTasks(v) && SkippedRows(x.rows) == PrunedTasks(v)
    ensures x.outputData == Some(Outputs(v, x.w.Nodes()))
  {
    CompletedMeansSpec(x.w, v, x.events, x.history, |x.events|);
  }
}
