/** What every run of the executor guarantees, under any interleaving of its coroutines. */
module ExecutorTheorems {
  import opened Options
  import opened Graphs
  import opened Workflows
  import opened StateMachine
  import opened Executor
  import opened ExecutorInvariant

  // ---- A completed execution is the solution of the equations ----

  ghost function RanTasks(v: Verdicts): set<TaskId> {
    set n | n in v && v[n].Ran?
  }

  ghost function PrunedTasks(v: Verdicts): set<TaskId> {
    set n | n in v && v[n].Pruned?
  }

  lemma SettledIsSpec(w: Workflow, v: Verdicts, s: State)
    requires Setting(w, v) && Inv(w, v, s) && AllSettled(w, s.rows)
    ensures CompletedRows(s.rows) == RanTasks(v) && SkippedRows(s.rows) == PrunedTasks(v)
    ensures forall n | n in w.Nodes() :: !v[n].Blocked?
  {
    hide Rule, Loser, BranchesPruned, CoroutinesOk, SetsOk, LocksOk;
    forall n | n in s.rows ensures RowOk(w, v, s.rows[n], n) {}
    forall n | n in w.Nodes()
      ensures n in CompletedRows(s.rows) <==> v[n].Ran?
      ensures n in SkippedRows(s.rows) <==> v[n].Pruned?
      ensures !v[n].Blocked?
    {
      assert Done(s.rows, n) || Skip(s.rows, n);
    }
  }

  /**
   Whatever the schedule, the number of permits, the failed attempts and the fail and retry rounds on
   the way: an execution that is Completed completed the tasks that the equations run, skipped the
   tasks they prune, blocked on none, and reports their outputs.
   */
  lemma CompletedMeansSpec(w: Workflow, v: Verdicts, es: seq<Event>, ss: seq<State>, i: nat)
    requires Setting(w, v) && Trace(w, es, ss) && i < |ss| && ss[i].status.Completed?
    ensures CompletedRows(ss[i].rows) == RanTasks(v) && SkippedRows(ss[i].rows) == PrunedTasks(v)
    ensures ss[i].outputData == Some(Outputs(v, w.Nodes()))
    ensures forall n | n in w.Nodes() :: !v[n].Blocked?
    ensures forall n | n in RanTasks(v) :: ss[i].rows[n].output == w.result(n, SpecInput(w, v, n))
  {
    RunKeeps(w, v, es, ss, i);
    SettledIsSpec(w, v, ss[i]);
    forall n | n in RanTasks(v) ensures ss[i].rows[n].output == w.result(n, SpecInput(w, v, n)) {
      hide Rule, Loser, BranchesPruned, CoroutinesOk, SetsOk, LocksOk;
      assert RowOk(w, v, ss[i].rows[n], n);
      RanValue(w, v, n);
    }
  }

  /** Two completed runs agree, however they were scheduled, failed and resumed. */
  lemma CompletedRunsAgree(w: Workflow, es: seq<Event>, ss: seq<State>, i: nat, es': seq<Event>, ss': seq<State>,
      j: nat)
    requires WellFormed(w) && Trace(w, es, ss) && Trace(w, es', ss') && i < |ss| && j < |ss'|
    requires ss[i].status.Completed? && ss'[j].status.Completed?
    ensures CompletedRows(ss[i].rows) == CompletedRows(ss'[j].rows)
    ensures SkippedRows(ss[i].rows) == SkippedRows(ss'[j].rows)
    ensures ss[i].outputData == ss'[j].outputData
  {
    var v := SolutionExists(w);
    CompletedMeansSpec(w, v, es, ss, i);
    CompletedMeansSpec(w, v, es', ss', j);
  }

  // ---- Safety in every state ----

  /** A handler runs only with all predecessors completed, on the input the equations prescribe. */
  lemma HandlersRunReadyTasks(w: Workflow, v: Verdicts, es: seq<Event>, ss: seq<State>, i: nat, t: TaskId)
    requires Setting(w, v) && Trace(w, es, ss) && i < |ss| && t in ss[i].pcs && ss[i].pcs[t].Invoking?
    ensures t in w.Nodes() && w.Preds(t) <= ss[i].completed
    ensures t !in ss[i].completed && t !in ss[i].skipped
    ensures ss[i].pcs[t].input == SpecInput(w, v, t)
  {
    RunKeeps(w, v, es, ss, i);
    AtCoroutine(w, v, ss[i], t);
  }

  /** While a run is on, its sets are disjoint, closed under predecessors, and counted by the guard. */
  lemma SetsStaySound(w: Workflow, v: Verdicts, es: seq<Event>, ss: seq<State>, i: nat)
    requires Setting(w, v) && Trace(w, es, ss) && i < |ss| && !ss[i].phase.Off?
    ensures ss[i].completed !! ss[i].skipped && ss[i].completed + ss[i].skipped <= w.Nodes()
    ensures PredClosed(w.graph, ss[i].completed)
    ensures SettledCount(ss[i]) < |w.Nodes()| <==>
        exists n :: n in w.Nodes() && n !in ss[i].completed && n !in ss[i].skipped
  {
    RunKeeps(w, v, es, ss, i);
    hide Rule, Loser, BranchesPruned, CoroutinesOk, SetsOk, LocksOk;
    SetsAreDisjoint(w, v, ss[i]);
    CountingGuard(w, v, ss[i]);
  }

  /**
   The wave barrier closes the gap between recording a condition and pruning its branch: whenever the
   loop is at its head, the losing branch of every completed condition is already skipped.
   */
  lemma HeadSeesBranchesPruned(w: Workflow, v: Verdicts, es: seq<Event>, ss: seq<State>, i: nat, c: TaskId)
    requires Setting(w, v) && Trace(w, es, ss) && i < |ss| && ss[i].phase.LoopHead?
    requires c in ss[i].completed && c in w.tasks && c in ss[i].rows
    ensures var loser := Loser(w, c, ss[i].rows[c].output);
            loser.Some? ==> loser.value in ss[i].skipped
  {
    hide Rule, Loser, Setting, CoroutinesOk, LocksOk, RowsOk, BranchesPruned, Trace;
    RunKeeps(w, v, es, ss, i);
    var loser := Loser(w, c, ss[i].rows[c].output);
    assert Done(ss[i].rows, c);
    if loser.Some? { UnprunedContradicts(w, ss[i], c, loser.value); }
  }

  /** Permits are conserved, so at most `maxConcurrent` coroutines are inside the semaphore. */
  lemma PermitsConserved(w: Workflow, v: Verdicts, es: seq<Event>, ss: seq<State>, i: nat)
    requires Setting(w, v) && Trace(w, es, ss) && i < |ss| && !ss[i].phase.Off?
    ensures ss[i].permits + |Holders(ss[i].pcs)| == w.maxConcurrent
    ensures |Holders(ss[i].pcs)| <= w.maxConcurrent
  {
    RunKeeps(w, v, es, ss, i);
    hide Rule, Loser, CoroutinesOk, RowsOk, BranchesPruned, SetsOk;
  }

  // ---- A settled task is settled for good ----

  lemma RowAt(w: Workflow, v: Verdicts, s: State, t: TaskId)
    requires Inv(w, v, s) && t in s.rows
    ensures RowOk(w, v, s.rows[t], t)
  {
    hide Loser, BranchesPruned, CoroutinesOk, SetsOk, LocksOk, StatusOk;
  }

  lemma PrunedNotDone(w: Workflow, v: Verdicts, s: State, t: TaskId)
    requires Setting(w, v) && Inv(w, v, s) && s.phase.Wave? && t in s.pcs && s.pcs[t].Pruning?
    ensures !Done(s.rows, s.pcs[t].target)
  {
    hide Inv, Setting, Rule, Loser;
    AtCoroutine(w, v, s, t);
    var x := s.pcs[t].target;
    LoserIsPruned(w, v, t, x);
    if x in s.rows { RowAt(w, v, s, x); }
  }

  lemma ActorNotDone(w: Workflow, v: Verdicts, s: State, e: Event, s': State)
    requires Setting(w, v) && Inv(w, v, s) && Next(w, s, e, s') && (e.Attempt? || e.Return? || e.Wake? || e.Section?)
    ensures !Skip(s.rows, e.t) && (e.Section? || !Done(s.rows, e.t))
  {
    hide Inv, Setting, Rule, Loser, SectionStep, AttemptStep, ReturnStep, WakeStep;
    AtCoroutine(w, v, s, e.t);
  }

  lemma CompletedSetHoldsDone(w: Workflow, v: Verdicts, s: State, t: TaskId)
    requires Setting(w, v) && Inv(w, v, s) && s.phase.LoopHead? && Done(s.rows, t)
    ensures t in s.completed
  {
    hide Loser, BranchesPruned, CoroutinesOk, LocksOk, StatusOk, RowsOk, Rule;
  }

  lemma SectionSparesSettled(w: Workflow, v: Verdicts, s: State, t: TaskId, s': State, u: TaskId)
    requires Setting(w, v) && Inv(w, v, s) && Next(w, s, Section(t), s')
    ensures Done(s.rows, u) ==> Done(s'.rows, u) && s'.rows[u].output == s.rows[u].output
    ensures Skip(s.rows, u) ==> Skip(s'.rows, u)
  {
    hide Next, Inv, Setting, Rule, Loser, MergedInput, AvailableOutputs;
    NextSection(w, s, t, s');
    ActorNotDone(w, v, s, Section(t), s');
    if s.pcs[t].Pruning? { PrunedNotDone(w, v, s, t); }
  }

  lemma LoopSparesSettled(w: Workflow, v: Verdicts, s: State, e: Event, s': State, u: TaskId)
    requires Setting(w, v) && Inv(w, v, s) && Next(w, s, e, s') && (e.Head? || e.EndWave? || e.Finish?)
    ensures Done(s.rows, u) ==> Done(s'.rows, u) && s'.rows[u].output == s.rows[u].output
    ensures Skip(s.rows, u) ==> Skip(s'.rows, u)
  {
    hide Inv, Setting, Rule, HeadStep, Propagated, Guarded, Ready;
    if e.Head? {
      HeadCases(w, s, s');
      PropagatedInBrief(w, s.(seen := s.status));
      if Done(s.rows, u) { CompletedSetHoldsDone(w, v, s, u); }
    }
  }

  /** Settled rows survive a step, with their outputs. */
  lemma SettledRowsStay(w: Workflow, v: Verdicts, s: State, e: Event, s': State, t: TaskId)
    requires Setting(w, v) && Inv(w, v, s) && Next(w, s, e, s')
    ensures Done(s.rows, t) ==> Done(s'.rows, t) && s'.rows[t].output == s.rows[t].output
    ensures Skip(s.rows, t) ==> Skip(s'.rows, t)
  {
    hide Inv, Setting, Rule, Loser, SectionStep, HeadStep;
    if e.Section? {
      SectionSparesSettled(w, v, s, e.t, s', t);
    } else if e.Head? || e.EndWave? || e.Finish? {
      LoopSparesSettled(w, v, s, e, s', t);
    } else if e.Attempt? || e.Return? || e.Wake? {
      ActorNotDone(w, v, s, e, s');
    }
  }

  lemma {:induction false} SettledRowsLast(w: Workflow, v: Verdicts, es: seq<Event>, ss: seq<State>, i: nat,
      j: nat, t: TaskId)
    requires Setting(w, v) && Trace(w, es, ss) && i <= j < |ss|
    ensures Done(ss[i].rows, t) ==> Done(ss[j].rows, t) && ss[j].rows[t].output == ss[i].rows[t].output
    ensures Skip(ss[i].rows, t) ==> Skip(ss[j].rows, t)
    decreases j
  {
    hide Setting, Inv, Next;
    if i < j {
      SettledRowsLast(w, v, es, ss, i, j - 1, t);
      RunKeeps(w, v, es, ss, j - 1);
      assert Next(w, ss[j - 1], es[j - 1], ss[j - 1 + 1]);
      SettledRowsStay(w, v, ss[j - 1], es[j - 1], ss[j], t);
    }
  }

  /**
   Once a task's row is completed or skipped, no later attempt of any run invokes its handler: not in
   this wave, and not after any number of failures, retries and new dispatches.
   */
  lemma SettledTasksAreNotInvokedAgain(w: Workflow, v: Verdicts, es: seq<Event>, ss: seq<State>, i: nat, j: nat,
      t: TaskId)
    requires Setting(w, v) && Trace(w, es, ss) && i <= j < |es|
    requires Done(ss[i].rows, t) || Skip(ss[i].rows, t)
    ensures es[j] != Attempt(t)
  {
    hide Setting, Inv;
    SettledRowsLast(w, v, es, ss, i, j, t);
    RunKeeps(w, v, es, ss, j);
    assert Next(w, ss[j], es[j], ss[j + 1]);
    if es[j] == Attempt(t) { ActorNotDone(w, v, ss[j], es[j], ss[j + 1]); }
  }

  // ---- The status ----

  ghost function StatusHistory(ss: seq<State>): seq<ExecutionState> {
    seq(|ss|, i requires 0 <= i < |ss| => ss[i].status)
  }

  /**
   Under any interleaving of runs, cancels and retries the status walks the transition table, although
   retry_execution assigns Pending outside the guard.
   */
  lemma StatusHistoryIsLegal(w: Workflow, es: seq<Event>, ss: seq<State>)
    requires Trace(w, es, ss)
    ensures LegalHistory(StatusHistory(ss))
  {
    forall i | 0 <= i < |ss| - 1
      ensures ss[i + 1].status == ss[i].status || CanTransition(ss[i].status, ss[i + 1].status)
    {
      hide Next;
      assert Next(w, ss[i], es[i], ss[i + 1]);
      StatusStep(w, ss[i], es[i], ss[i + 1]);
    }
  }

  /** What a step may do to the status, and which step writes Completed and Failed. */
  ghost predicate StatusMove(s: State, e: Event, s': State) {
    && (s'.status == s.status || CanTransition(s.status, s'.status))
    && (s'.status.Completed? && !s.status.Completed? ==> e.Finish? && !s.failed && s.status.Running?)
    && (s'.status.Failed? && !s.status.Failed? ==> e.Head? && s.phase.LoopHead? && s.failed)
    && (s'.status.TimedOut? ==> s.status.TimedOut?)
  }

  lemma StatusStep(w: Workflow, s: State, e: Event, s': State)
    requires Next(w, s, e, s')
    ensures StatusMove(s, e, s')
  {
    hide Next;
    if OwnEvent(e) {
      CoroutinesLeaveStatus(w, s, e, s');
    } else if OfWorker(e) {
      LoopMovesStatus(w, s, e, s');
    } else {
      CallsMoveStatus(w, s, e, s');
    }
  }

  lemma CallsMoveStatus(w: Workflow, s: State, e: Event, s': State)
    requires Next(w, s, e, s') && !OfWorker(e)
    ensures StatusMove(s, e, s')
  {
  }

  lemma LoopMovesStatus(w: Workflow, s: State, e: Event, s': State)
    requires Next(w, s, e, s') && OfWorker(e) && !OwnEvent(e)
    ensures StatusMove(s, e, s')
  {
    hide Ready, MarkSkipped, AllPredsSkipped;
  }

  lemma CoroutineIsInWave(w: Workflow, s: State, e: Event, s': State)
    requires Next(w, s, e, s') && OwnEvent(e)
    ensures s.phase.Wave? && e.t in s.pcs
  {
    hide Apply;
  }

  lemma CoroutinesLeaveStatus(w: Workflow, s: State, e: Event, s': State)
    requires Next(w, s, e, s') && OwnEvent(e)
    ensures s'.status == s.status && s'.phase == s.phase
  {
    hide Next, Loser, MergedInput, AvailableOutputs, MarkSkipped;
    match e
    case Section(t) => NextSection(w, s, t, s');
    case Attempt(t) => NextAttempt(w, s, t, s');
    case Return(t, outcome) => NextReturn(w, s, t, outcome, s');
    case Wake(t) => NextWake(w, s, t, s');
    case _ => NextLight(w, s, e, s');
  }

  lemma AfterLoopIsSettled(w: Workflow, v: Verdicts, s: State)
    requires Inv(w, v, s) && s.phase.AfterLoop? && !s.failed
    ensures s.pcs == map[] && s.completed + s.skipped == w.Nodes() && s.completed !! s.skipped
  {
    hide Loser, BranchesPruned, CoroutinesOk, LocksOk;
    SetsAreDisjoint(w, v, s);
    forall n | n in w.Nodes() ensures n in s.completed + s.skipped { assert Done(s.rows, n) || Skip(s.rows, n); }
  }

  /**
   The step that writes Completed is the one after the loop, with the run still Running, nothing
   failed, no coroutine in flight, and every task in exactly one of the two sets.
   */
  lemma CompletionIsClean(w: Workflow, v: Verdicts, es: seq<Event>, ss: seq<State>, i: nat)
    requires Setting(w, v) && Trace(w, es, ss) && i < |es|
    requires !ss[i].status.Completed? && ss[i + 1].status.Completed?
    ensures es[i] == Finish && ss[i].status.Running? && !ss[i].failed && ss[i].pcs == map[]
    ensures ss[i].completed + ss[i].skipped == w.Nodes() && ss[i].completed !! ss[i].skipped
  {
    hide Setting, Inv, Next;
    RunKeeps(w, v, es, ss, i);
    assert Next(w, ss[i], es[i], ss[i + 1]);
    StatusStep(w, ss[i], es[i], ss[i + 1]);
    NextFinish(w, ss[i], ss[i + 1]);
    AfterLoopIsSettled(w, v, ss[i]);
  }

  // ---- The failure exit ----

  /**
   The loop as printed never records a failure: after `break` the exit at its head is out of reach, so
   no execution is ever Failed.
   */
  lemma {:induction false} PrintedLoopNeverFails(w: Workflow, v: Verdicts, es: seq<Event>, ss: seq<State>, i: nat)
    requires Setting(w, v) && w.breaksOnFailure && Trace(w, es, ss) && i < |ss|
    ensures !ss[i].status.Failed? && !ss[i].status.TimedOut?
  {
    hide Setting, Inv, Next;
    if i > 0 {
      PrintedLoopNeverFails(w, v, es, ss, i - 1);
      RunKeeps(w, v, es, ss, i - 1);
      assert Next(w, ss[i - 1], es[i - 1], ss[i - 1 + 1]);
      StatusStep(w, ss[i - 1], es[i - 1], ss[i]);
      if ss[i].status.Failed? { PrintedLoopHeadIsClean(w, v, ss[i - 1]); }
    }
  }

  lemma PrintedLoopHeadIsClean(w: Workflow, v: Verdicts, s: State)
    requires Inv(w, v, s) && w.breaksOnFailure && s.phase.LoopHead?
    ensures !s.failed
  {
    hide Loser, BranchesPruned, CoroutinesOk, SetsOk, LocksOk, RowsOk;
  }

  lemma FailureIsUnsettled(w: Workflow, v: Verdicts, s: State)
    requires Setting(w, v) && Inv(w, v, s) && s.phase.LoopHead? && s.failed
    ensures SettledCount(s) < |w.Nodes()|
  {
    hide Rule, Loser, BranchesPruned, CoroutinesOk, LocksOk, StatusOk, RowOk;
    var t :| FailedTask(w, v, s.rows, s.pcs, t);
    CountingGuard(w, v, s);
    if t in s.completed + s.skipped {
      assert Skip(s.rows, t);
      assert RowOk(w, v, s.rows[t], t);
      SkippedIsPruned(w, v, s, t);
    }
  }

  lemma SkippedIsPruned(w: Workflow, v: Verdicts, s: State, t: TaskId)
    requires Inv(w, v, s) && Skip(s.rows, t)
    ensures t in v && v[t].Pruned?
  {
    hide Inv;
    RowAt(w, v, s, t);
  }

  /**
   A wave that failed while the execution was Running ends the run two steps later. It leaves the
   execution Failed, and retry_execution willing, exactly when the loop does not break on failure.
   */
  lemma FailedWaveExit(w: Workflow, v: Verdicts, s: State, s1: State, e: Event, s2: State)
    requires Setting(w, v) && Inv(w, v, s) && s.failed && s.status.Running?
    requires Next(w, s, EndWave, s1) && OfWorker(e) && Next(w, s1, e, s2)
    ensures s2.phase.Off? && CompletedRows(s2.rows) == CompletedRows(s.rows)
    ensures s2.status.Failed? <==> !w.breaksOnFailure
    ensures RetryRefused(s2.status) <==> w.breaksOnFailure
  {
    hide Inv, Setting, HeadStep, Propagated, Ready;
    StepKeeps(w, v, s, EndWave, s1);
    if s1.phase.LoopHead? {
      FailureIsUnsettled(w, v, s1);
      HeadCases(w, s1, s2);
    }
  }
}
