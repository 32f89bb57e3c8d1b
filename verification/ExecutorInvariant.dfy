/**
 What every reachable state of the executor satisfies, stated against a solution `v` of the
 workflow's equations.
 */
module ExecutorInvariant {
  import opened Options
  import opened Graphs
  import opened Workflows
  import opened StateMachine
  import opened Executor

  ghost predicate Done(rows: map<TaskId, Row>, t: TaskId) {
    t in rows && rows[t].status.RowCompleted?
  }

  ghost predicate Skip(rows: map<TaskId, Row>, t: TaskId) {
    t in rows && rows[t].status.RowSkipped?
  }

  /** Between the commit of a completed row and the moment `completed` hears of it. */
  ghost predicate Recording(pcs: map<TaskId, Pc>, t: TaskId) {
    t in pcs && pcs[t] == Ending(true)
  }

  ghost function SpecInput(w: Workflow, v: Verdicts, t: TaskId): Object {
    MergedInput(w.input, Outputs(v, w.Preds(t)))
  }

  // ---- Rows ----

  ghost predicate RowOk(w: Workflow, v: Verdicts, r: Row, t: TaskId) {
    && t in w.Nodes() && t in v
    && 1 <= r.attempt <= r.maxAttempts
    && (r.status.RowCompleted? ==> v[t] == Ran(r.output))
    && (r.status.RowSkipped? ==> v[t].Pruned?)
  }

  ghost predicate RowsOk(w: Workflow, v: Verdicts, rows: map<TaskId, Row>) {
    && (forall t | t in rows :: RowOk(w, v, rows[t], t))
    && (forall t, p | Done(rows, t) && p in w.Preds(t) :: Done(rows, p))
  }

  /** A condition that completed has pruned its losing branch, unless its coroutine is about to. */
  ghost predicate BranchesPruned(w: Workflow, rows: map<TaskId, Row>, pcs: map<TaskId, Pc>) {
    forall c, x | Done(rows, c) && c in w.tasks && Loser(w, c, rows[c].output) == Some(x) ::
      Skip(rows, x) || Recording(pcs, c) || (c in pcs && pcs[c] == Pruning(x))
  }

  // ---- The worker's own sets ----

  ghost predicate SetsAgree(rows: map<TaskId, Row>, pcs: map<TaskId, Pc>, completed: set<TaskId>, skipped: set<TaskId>,
                            taskOutputs: Object) {
    && (forall t :: t in completed <==> Done(rows, t) && !Recording(pcs, t))
    && (forall t :: t in skipped <==> Skip(rows, t))
    && (forall t :: t in taskOutputs <==> t in completed && t in rows && rows[t].output.Some?)
    && (forall t | t in taskOutputs && t in rows :: rows[t].output == Some(taskOutputs[t]))
  }

  ghost predicate SetsOk(s: State) {
    SetsAgree(s.rows, s.pcs, s.completed, s.skipped, s.taskOutputs)
  }

  // ---- Coroutines ----

  /** What holds of task `t` at counter `pc`; `quit` once the run has failed or been cancelled. */
  ghost predicate CoroutineAt(w: Workflow, v: Verdicts, rows: map<TaskId, Row>, completed: set<TaskId>, quit: bool,
                              t: TaskId, pc: Pc) {
    && t in w.Nodes() && t in v && v[t].Ran? && w.Preds(t) <= completed
    && match pc
       case Waiting => !Done(rows, t)
       case Entered => !Done(rows, t)
       case Checked => !Done(rows, t)
       case Fetching => !Done(rows, t) && t in rows
       case Trying(input) => !Done(rows, t) && t in rows && input == SpecInput(w, v, t)
       case Invoking(input) => !Done(rows, t) && t in rows && input == SpecInput(w, v, t)
       case Sleeping(input) => !Done(rows, t) && t in rows && input == SpecInput(w, v, t)
                               && rows[t].attempt < rows[t].maxAttempts
       case Ending(ok) => t in rows && (ok <==> Done(rows, t))
       case Pruning(x) => Done(rows, t) && t in w.tasks && Loser(w, t, rows[t].output) == Some(x)
       case Finished => Done(rows, t) || quit
  }

  ghost predicate Coroutines(w: Workflow, v: Verdicts, rows: map<TaskId, Row>, completed: set<TaskId>, quit: bool,
                             pcs: map<TaskId, Pc>) {
    forall t | t in pcs :: CoroutineAt(w, v, rows, completed, quit, t, pcs[t])
  }

  ghost predicate CoroutineOk(w: Workflow, v: Verdicts, s: State, t: TaskId)
    requires t in s.pcs
  {
    CoroutineAt(w, v, s.rows, s.completed, s.failed || s.status.Cancelled?, t, s.pcs[t])
  }

  ghost predicate CoroutinesOk(w: Workflow, v: Verdicts, s: State) {
    Coroutines(w, v, s.rows, s.completed, s.failed || s.status.Cancelled?, s.pcs)
  }

  function Holders(pcs: map<TaskId, Pc>): set<TaskId> {
    set t | t in pcs && HoldsPermit(pcs[t])
  }

  ghost predicate LocksAgree(w: Workflow, pcs: map<TaskId, Pc>, permits: nat, glock: Option<TaskId>) {
    && (glock.Some? ==> glock.value in pcs && WantsLock(pcs[glock.value]))
    && permits + |Holders(pcs)| == w.maxConcurrent
  }

  ghost predicate LocksOk(w: Workflow, s: State) {
    LocksAgree(w, s.pcs, s.permits, s.glock)
  }

  // ---- Status ----

  ghost predicate AllSettled(w: Workflow, rows: map<TaskId, Row>) {
    forall n | n in w.Nodes() :: Done(rows, n) || Skip(rows, n)
  }

  ghost predicate StatusOk(w: Workflow, v: Verdicts, s: State) {
    && (s.seen.Cancelled? ==> s.status.Cancelled?)
    && (s.phase.AfterLoop? ==> s.failed || AllSettled(w, s.rows))
    && (w.breaksOnFailure && s.phase.LoopHead? ==> !s.failed)
    && (s.status.Completed? ==> AllSettled(w, s.rows) && s.outputData == Some(Outputs(v, w.Nodes())))
  }

  /** A run that failed leaves behind a task that should have run, did not, and is over. */
  ghost predicate FailureLeft(w: Workflow, v: Verdicts, rows: map<TaskId, Row>, pcs: map<TaskId, Pc>) {
    exists t :: FailedTask(w, v, rows, pcs, t)
  }

  ghost predicate FailedTask(w: Workflow, v: Verdicts, rows: map<TaskId, Row>, pcs: map<TaskId, Pc>, t: TaskId) {
    t in w.Nodes() && t in v && v[t].Ran? && !Done(rows, t) && (t in pcs ==> pcs[t].Finished?)
  }

  ghost predicate Inv(w: Workflow, v: Verdicts, s: State) {
    && RowsOk(w, v, s.rows) && BranchesPruned(w, s.rows, s.pcs) && CoroutinesOk(w, v, s) && StatusOk(w, v, s)
    && (!s.phase.Off? ==> SetsOk(s) && LocksOk(w, s) && PredClosed(w.graph, s.completed))
    && (!s.phase.Off? && s.failed ==> FailureLeft(w, v, s.rows, s.pcs))
    && (!s.phase.Wave? ==> s.pcs == map[])
  }

  ghost predicate Setting(w: Workflow, v: Verdicts) {
    WellFormed(w) && Solves(w, v)
  }

  lemma InvIsTyped(w: Workflow, v: Verdicts, s: State)
    requires Setting(w, v) && Inv(w, v, s)
    ensures Typed(w, s)
  {
  }

  // ---- Facts about the equations ----

  lemma RanValue(w: Workflow, v: Verdicts, t: TaskId)
    requires Setting(w, v) && t in w.Nodes() && v[t].Ran?
    ensures v[t] == Ran(w.result(t, SpecInput(w, v, t)))
  {
    assert v[t] == Rule(w, v, t);
  }

  lemma LoserIsPruned(w: Workflow, v: Verdicts, c: TaskId, x: TaskId)
    requires Setting(w, v) && c in w.Nodes() && v[c].Ran? && Loser(w, c, v[c].output) == Some(x)
    ensures x in w.Nodes() && v[x].Pruned?
  {
    assert PrunedBy(w, v, c, x);
    assert v[x] == Rule(w, v, x);
  }

  lemma PropagatedArePruned(w: Workflow, v: Verdicts, x: TaskId)
    requires Setting(w, v) && x in w.Nodes() && w.Preds(x) != {}
    requires forall p | p in w.Preds(x) :: v[p].Pruned?
    ensures v[x].Pruned?
  {
    assert v[x] == Rule(w, v, x);
  }

  lemma RunsWhenFree(w: Workflow, v: Verdicts, t: TaskId)
    requires Setting(w, v) && t in w.Nodes()
    requires forall c :: !PrunedBy(w, v, c, t)
    requires forall p | p in w.Preds(t) :: v[p].Ran?
    ensures v[t].Ran?
  {
    assert v[t] == Rule(w, v, t);
  }

  lemma DoneIsClosed(w: Workflow, v: Verdicts, s: State)
    requires RowsOk(w, v, s.rows)
    ensures PredClosed(w.graph, CompletedRows(s.rows))
  {
    hide RowOk;
    forall t | t in CompletedRows(s.rows) ensures w.Preds(t) <= CompletedRows(s.rows) {
      assert Done(s.rows, t);
      forall p | p in w.Preds(t) ensures p in CompletedRows(s.rows) { assert Done(s.rows, p); }
    }
  }

  /** With the predecessors of `t` done, a condition that could prune it is done too, and pruned nothing here. */
  lemma NoPrunerLeft(w: Workflow, v: Verdicts, s: State, t: TaskId, c: TaskId)
    requires Setting(w, v) && RowsOk(w, v, s.rows) && BranchesPruned(w, s.rows, s.pcs) && s.pcs == map[]
    requires t in w.Nodes() && !Skip(s.rows, t) && forall p | p in w.Preds(t) :: Done(s.rows, p)
    ensures !PrunedBy(w, v, c, t)
  {
    hide Rule, Acyclic, Solves, BranchesPruned;
    if PrunedBy(w, v, c, t) {
      var done := CompletedRows(s.rows);
      DoneIsClosed(w, v, s);
      assert MayPrune(w, c, t);
      assert w.Preds(t) == w.graph.Preds(t) && forall p | p in w.Preds(t) :: p in done;
      assert Ancestor(w.graph, c, t);
      ClosedHoldsAncestors(w.graph, done, c, t);
      assert Done(s.rows, c) && RowOk(w, v, s.rows[c], c);
      assert Loser(w, c, s.rows[c].output) == Some(t);
      UnprunedContradicts(w, s, c, t);
    }
  }

  lemma UnprunedContradicts(w: Workflow, s: State, c: TaskId, t: TaskId)
    requires BranchesPruned(w, s.rows, s.pcs) && s.pcs == map[]
    requires Done(s.rows, c) && c in w.tasks && Loser(w, c, s.rows[c].output) == Some(t)
    ensures Skip(s.rows, t)
  {
  }

  lemma ReadyRuns(w: Workflow, v: Verdicts, s: State, t: TaskId)
    requires Setting(w, v) && RowsOk(w, v, s.rows) && BranchesPruned(w, s.rows, s.pcs) && s.pcs == map[]
    requires t in w.Nodes() && !Skip(s.rows, t) && forall p | p in w.Preds(t) :: Done(s.rows, p)
    ensures v[t].Ran?
  {
    hide Rule, BranchesPruned, PrunedBy, Acyclic;
    forall c ensures !PrunedBy(w, v, c, t) { NoPrunerLeft(w, v, s, t, c); }
    forall p | p in w.Preds(t) ensures v[p].Ran? { assert RowOk(w, v, s.rows[p], p); }
    RunsWhenFree(w, v, t);
  }

  lemma FetchedInput(w: Workflow, v: Verdicts, s: State, t: TaskId)
    requires Setting(w, v) && RowsOk(w, v, s.rows) && SetsOk(s)
    requires t in w.Nodes() && w.Preds(t) <= s.completed
    ensures AvailableOutputs(w, s.taskOutputs, t) == Outputs(v, w.Preds(t))
  {
    hide Rule;
    forall p | p in w.Preds(t)
      ensures p in s.taskOutputs <==> v[p].Ran? && v[p].output.Some?
      ensures p in s.taskOutputs ==> Some(s.taskOutputs[p]) == v[p].output
    {
      assert RowOk(w, v, s.rows[p], p);
    }
  }

  // ---- Counting ----

  lemma SetsAreDisjoint(w: Workflow, v: Verdicts, s: State)
    requires RowsOk(w, v, s.rows) && SetsOk(s)
    ensures s.completed !! s.skipped && s.completed + s.skipped <= w.Nodes()
  {
    forall t | t in s.completed + s.skipped ensures t in w.Nodes() { assert RowOk(w, v, s.rows[t], t); }
  }

  /** The loop's counting guard asks whether some task is unsettled. */
  lemma CountingGuard(w: Workflow, v: Verdicts, s: State)
    requires RowsOk(w, v, s.rows) && SetsOk(s)
    ensures SettledCount(s) >= |w.Nodes()| <==> s.completed + s.skipped == w.Nodes()
  {
    SetsAreDisjoint(w, v, s);
    assert |s.completed + s.skipped| == SettledCount(s);
    SubsetSize(s.completed + s.skipped, w.Nodes());
  }

  // ---- The invariant is kept ----

  lemma TriggeredInv(w: Workflow, v: Verdicts)
    requires Setting(w, v)
    ensures Inv(w, v, Triggered(w))
  {
    hide Rule, Loser, SetsOk, LocksOk;
  }

  lemma LoadedSetsAgree(rows: map<TaskId, Row>)
    ensures SetsAgree(rows, map[], CompletedRows(rows), SkippedRows(rows), RecordedOutputs(rows))
  {
  }

  lemma DispatchKeeps(w: Workflow, v: Verdicts, s: State)
    requires Setting(w, v) && Inv(w, v, s) && s.phase.Off?
    ensures Inv(w, v, DispatchStep(w, s))
  {
    LoadedSetsAgree(s.rows);
    DoneIsClosed(w, v, s);
    hide Rule, Loser, RowsOk, BranchesPruned, SetsAgree, PredClosed, CompletedRows, SkippedRows, RecordedOutputs,
        AllSettled, Guarded;
    GuardedRunning(s.status);
    var s' := DispatchStep(w, s);
    assert s'.rows == s.rows && s'.pcs == s.pcs == map[];
    assert Holders(s'.pcs) == {};
  }

  lemma GuardedRunning(status: ExecutionState)
    ensures Guarded(status, Running).Completed? ==> status.Completed?
    ensures Guarded(status, Running).Cancelled? <==> status.Cancelled?
  {
  }

  lemma CancelKeepsCoroutines(w: Workflow, v: Verdicts, s: State)
    requires CoroutinesOk(w, v, s)
    ensures CoroutinesOk(w, v, CancelStep(s))
  {
    hide Rule, Loser;
    var s' := CancelStep(s);
    forall t | t in s.pcs ensures CoroutineOk(w, v, s', t) {
      assert CoroutineOk(w, v, s, t);
      assert Done(s'.rows, t) <==> Done(s.rows, t);
    }
  }

  lemma CancelKeeps(w: Workflow, v: Verdicts, s: State)
    requires Setting(w, v) && Inv(w, v, s)
    ensures Inv(w, v, CancelStep(s))
  {
    hide Rule, Loser, CoroutinesOk;
    var s' := CancelStep(s);
    assert Holders(s'.pcs) == Holders(s.pcs);
    assert forall t :: Done(s'.rows, t) <==> Done(s.rows, t);
    assert forall t :: Skip(s'.rows, t) <==> Skip(s.rows, t);
    CancelKeepsCoroutines(w, v, s);
    if !s.phase.Off? && s.failed {
      var t :| FailedTask(w, v, s.rows, s.pcs, t);
      assert FailedTask(w, v, s'.rows, s'.pcs, t);
    }
  }

  lemma RetryKeepsCoroutines(w: Workflow, v: Verdicts, s: State)
    requires CoroutinesOk(w, v, s) && RowsOk(w, v, s.rows)
    ensures CoroutinesOk(w, v, RetryStep(s))
  {
    hide Rule, Loser;
    var s' := RetryStep(s);
    forall t | t in s.pcs ensures CoroutineOk(w, v, s', t) {
      assert CoroutineOk(w, v, s, t);
      assert t in s.rows ==> RowOk(w, v, s.rows[t], t);
      assert Done(s'.rows, t) <==> Done(s.rows, t);
    }
  }

  lemma ResetKeepsSettled(rows: map<TaskId, Row>)
    ensures ResetRows(rows).Keys == rows.Keys
    ensures forall t :: Done(ResetRows(rows), t) <==> Done(rows, t)
    ensures forall t :: Skip(ResetRows(rows), t) <==> Skip(rows, t)
    ensures forall t | Done(rows, t) :: ResetRows(rows)[t] == rows[t]
  {
  }

  lemma ResetKeepsRows(w: Workflow, v: Verdicts, rows: map<TaskId, Row>, pcs: map<TaskId, Pc>)
    requires RowsOk(w, v, rows) && BranchesPruned(w, rows, pcs)
    ensures RowsOk(w, v, ResetRows(rows)) && BranchesPruned(w, ResetRows(rows), pcs)
  {
    hide Rule, Loser, Skip;
    ResetKeepsSettled(rows);
    forall t | t in rows ensures RowOk(w, v, ResetRows(rows)[t], t) { assert RowOk(w, v, rows[t], t); }
    forall c, x | Done(ResetRows(rows), c) && c in w.tasks && Loser(w, c, ResetRows(rows)[c].output) == Some(x)
      ensures Skip(ResetRows(rows), x) || Recording(pcs, c) || (c in pcs && pcs[c] == Pruning(x))
    {
      assert Done(rows, c);
    }
  }

  lemma RetryKeepsRows(w: Workflow, v: Verdicts, s: State)
    requires RowsOk(w, v, s.rows) && BranchesPruned(w, s.rows, s.pcs)
    ensures var s' := RetryStep(s);
            && RowsOk(w, v, s'.rows) && BranchesPruned(w, s'.rows, s.pcs) && s'.rows.Keys == s.rows.Keys
            && (forall t :: Done(s'.rows, t) <==> Done(s.rows, t))
            && (forall t :: Skip(s'.rows, t) <==> Skip(s.rows, t))
            && (forall t | Done(s.rows, t) :: s'.rows[t] == s.rows[t])
  {
    ResetKeepsSettled(s.rows);
    ResetKeepsRows(w, v, s.rows, s.pcs);
    hide RowsOk, BranchesPruned, ResetRows;
  }

  lemma RetryKeepsSets(w: Workflow, v: Verdicts, s: State)
    requires RowsOk(w, v, s.rows) && BranchesPruned(w, s.rows, s.pcs) && SetsOk(s)
    ensures SetsOk(RetryStep(s))
  {
    hide Rule, Loser, RowsOk, BranchesPruned, ResetRows;
    RetryKeepsRows(w, v, s);
  }

  lemma RetryKeeps(w: Workflow, v: Verdicts, s: State)
    requires Setting(w, v) && Inv(w, v, s)
    ensures Inv(w, v, RetryStep(s))
  {
    hide Rule, Loser, CoroutinesOk, BranchesPruned, RowsOk, SetsOk, Setting, ResetRows, Done, Skip;
    var s' := RetryStep(s);
    RetryKeepsRows(w, v, s);
    RetryKeepsCoroutines(w, v, s);
    if !s.phase.Off? {
      RetryKeepsSets(w, v, s);
      if s.failed {
        var t :| FailedTask(w, v, s.rows, s.pcs, t);
        assert FailedTask(w, v, s'.rows, s'.pcs, t);
      }
    }
  }

  // ---- A step of one coroutine ----

  /** `s'` has the rows of `s`, except perhaps that of `t`, which does not lose ground. */
  ghost predicate RowMoves(w: Workflow, v: Verdicts, s: State, s': State, t: TaskId) {
    && s.rows.Keys <= s'.rows.Keys <= s.rows.Keys + {t}
    && (forall u | u in s.rows && u != t :: s'.rows[u] == s.rows[u])
    && (t in s'.rows ==> RowOk(w, v, s'.rows[t], t))
    && (Done(s.rows, t) ==> Done(s'.rows, t) && s'.rows[t].output == s.rows[t].output)
    && !Skip(s.rows, t) && !Skip(s'.rows, t)
    && s'.skipped == s.skipped
  }

  /** `t` may enter `completed`, with its output. */
  ghost predicate SetsMove(s: State, s': State, t: TaskId) {
    && (s'.completed == s.completed || s'.completed == s.completed + {t})
    && (forall u | u != t :: (u in s.taskOutputs <==> u in s'.taskOutputs))
    && (forall u | u in s.taskOutputs && u != t :: s'.taskOutputs[u] == s.taskOutputs[u])
    && (t in s'.completed <==> Done(s'.rows, t) && !Recording(s'.pcs, t))
    && (t in s'.taskOutputs <==> t in s'.completed && t in s'.rows && s'.rows[t].output.Some?)
    && (t in s'.taskOutputs && t in s'.rows ==> s'.rows[t].output == Some(s'.taskOutputs[t]))
  }

  ghost predicate PcMoves(s: State, s': State, t: TaskId) {
    && s.phase.Wave? && s'.phase.Wave? && t in s.pcs && !s.pcs[t].Finished?
    && s'.pcs.Keys == s.pcs.Keys
    && (forall u | u in s.pcs && u != t :: s'.pcs[u] == s.pcs[u])
    && s'.permits == s.permits + (if HoldsPermit(s.pcs[t]) then 1 else 0) - (if HoldsPermit(s'.pcs[t]) then 1 else 0)
    && (s'.glock == None || (s'.glock == s.glock && !WantsLock(s.pcs[t])) ||
        (s'.glock == Some(t) && WantsLock(s'.pcs[t])))
    && s'.status == s.status && s'.outputData == s.outputData
    && (s'.seen == s.seen || s'.seen == s.status)
    && (s.failed ==> s'.failed)
    && (s'.failed && !s.failed ==> s'.pcs[t].Finished? && !Done(s'.rows, t))
  }

  lemma CoroutinePredsDone(w: Workflow, v: Verdicts, s: State, t: TaskId)
    requires CoroutinesOk(w, v, s) && SetsOk(s) && t in s.pcs
    ensures t in w.Nodes() && t in v && v[t].Ran? && w.Preds(t) <= s.completed
    ensures forall p | p in w.Preds(t) :: Done(s.rows, p)
  {
    assert CoroutineOk(w, v, s, t);
  }

  lemma RowMoveKeepsRows(w: Workflow, v: Verdicts, s: State, s': State, t: TaskId)
    requires RowsOk(w, v, s.rows) && RowMoves(w, v, s, s', t)
    requires Done(s'.rows, t) ==> forall p | p in w.Preds(t) :: Done(s.rows, p)
    ensures RowsOk(w, v, s'.rows)
  {
    hide RowOk;
    assert forall u | Done(s.rows, u) :: Done(s'.rows, u);
    forall u, p | Done(s'.rows, u) && p in w.Preds(u) ensures Done(s'.rows, p) {
      if u != t { assert Done(s.rows, u); }
    }
    forall u | u in s'.rows ensures RowOk(w, v, s'.rows[u], u) {
      if u != t { assert RowOk(w, v, s.rows[u], u); }
    }
  }

  lemma MoveKeepsBranches(w: Workflow, v: Verdicts, s: State, s': State, t: TaskId)
    requires BranchesPruned(w, s.rows, s.pcs) && RowMoves(w, v, s, s', t) && PcMoves(s, s', t)
    requires Done(s'.rows, t) && t in w.tasks ==>
               var loser := Loser(w, t, s'.rows[t].output);
               loser.None? || Skip(s'.rows, loser.value) || Recording(s'.pcs, t) || s'.pcs[t] == Pruning(loser.value)
    ensures BranchesPruned(w, s'.rows, s'.pcs)
  {
    hide Loser, RowOk;
    forall c, x | Done(s'.rows, c) && c in w.tasks && Loser(w, c, s'.rows[c].output) == Some(x)
      ensures Skip(s'.rows, x) || Recording(s'.pcs, c) || (c in s'.pcs && s'.pcs[c] == Pruning(x))
    {
      if c != t {
        assert Done(s.rows, c);
        if Skip(s.rows, x) { assert Skip(s'.rows, x); }
      }
    }
  }

  lemma MoveKeepsSets(w: Workflow, v: Verdicts, s: State, s': State, t: TaskId)
    requires SetsOk(s) && RowMoves(w, v, s, s', t) && PcMoves(s, s', t) && SetsMove(s, s', t)
    ensures SetsOk(s')
  {
    hide RowOk;
    forall u ensures u in s'.completed <==> Done(s'.rows, u) && !Recording(s'.pcs, u) {
      if u != t { assert Done(s'.rows, u) == Done(s.rows, u) && Recording(s'.pcs, u) == Recording(s.pcs, u); }
    }
    forall u ensures u in s'.skipped <==> Skip(s'.rows, u) {
      if u != t { assert Skip(s'.rows, u) == Skip(s.rows, u); }
    }
  }

  lemma MoveKeepsCoroutines(w: Workflow, v: Verdicts, s: State, s': State, t: TaskId)
    requires CoroutinesOk(w, v, s) && RowMoves(w, v, s, s', t) && PcMoves(s, s', t)
    requires s.completed <= s'.completed && CoroutineOk(w, v, s', t)
    ensures CoroutinesOk(w, v, s')
  {
    hide Loser, SpecInput;
    forall u | u in s'.pcs ensures CoroutineOk(w, v, s', u) {
      if u != t {
        assert CoroutineOk(w, v, s, u);
        assert Done(s'.rows, u) == Done(s.rows, u);
      }
    }
  }

  lemma MoveKeepsLocks(w: Workflow, s: State, s': State, t: TaskId)
    requires LocksOk(w, s) && PcMoves(s, s', t)
    ensures LocksOk(w, s')
  {
    if HoldsPermit(s'.pcs[t]) {
      assert Holders(s'.pcs) == Holders(s.pcs) + {t};
    } else {
      assert Holders(s'.pcs) == Holders(s.pcs) - {t};
    }
  }

  lemma MoveKeepsStatus(w: Workflow, v: Verdicts, s: State, s': State, t: TaskId)
    requires StatusOk(w, v, s) && RowMoves(w, v, s, s', t) && PcMoves(s, s', t)
    ensures StatusOk(w, v, s')
  {
    hide RowOk;
    assert forall u | u in s.rows && u != t ::
        Done(s'.rows, u) == Done(s.rows, u) && Skip(s'.rows, u) == Skip(s.rows, u);
    assert AllSettled(w, s.rows) ==> AllSettled(w, s'.rows);
  }

  lemma MoveKeepsFailure(w: Workflow, v: Verdicts, s: State, s': State, t: TaskId)
    requires s'.failed && (s.failed ==> FailureLeft(w, v, s.rows, s.pcs))
    requires RowMoves(w, v, s, s', t) && PcMoves(s, s', t) && t in w.Nodes() && t in v && v[t].Ran?
    ensures FailureLeft(w, v, s'.rows, s'.pcs)
  {
    hide RowOk;
    if s.failed {
      var u :| FailedTask(w, v, s.rows, s.pcs, u);
      assert FailedTask(w, v, s'.rows, s'.pcs, u);
    } else {
      assert FailedTask(w, v, s'.rows, s'.pcs, t);
    }
  }

  lemma MoveKeepsClosed(w: Workflow, s: State, s': State, t: TaskId)
    requires PredClosed(w.graph, s.completed) && w.Preds(t) <= s.completed && SetsMove(s, s', t)
    ensures PredClosed(w.graph, s'.completed)
  {
  }

  /** A coroutine step that moves its own row, sets and counter as allowed keeps the invariant. */
  lemma MoveKeeps(w: Workflow, v: Verdicts, s: State, s': State, t: TaskId)
    requires Setting(w, v) && Inv(w, v, s)
    requires RowMoves(w, v, s, s', t) && SetsMove(s, s', t) && PcMoves(s, s', t)
    requires CoroutineOk(w, v, s', t)
    requires Done(s'.rows, t) && t in w.tasks ==>
               var loser := Loser(w, t, s'.rows[t].output);
               loser.None? || Skip(s'.rows, loser.value) || Recording(s'.pcs, t) || s'.pcs[t] == Pruning(loser.value)
    ensures Inv(w, v, s')
  {
    hide Rule, Loser, RowOk, RowsOk, BranchesPruned, CoroutineOk, CoroutinesOk, SetsOk, LocksOk, StatusOk,
        RowMoves, Done, FailureLeft, PredClosed;
    CoroutinePredsDone(w, v, s, t);
    RowMoveKeepsRows(w, v, s, s', t);
    MoveKeepsBranches(w, v, s, s', t);
    MoveKeepsSets(w, v, s, s', t);
    MoveKeepsCoroutines(w, v, s, s', t);
    MoveKeepsLocks(w, s, s', t);
    MoveKeepsStatus(w, v, s, s', t);
    MoveKeepsClosed(w, s, s', t);
    if s'.failed { MoveKeepsFailure(w, v, s, s', t); }
  }

  /** What the invariant says of the acting coroutine and its row. */
  lemma AtCoroutine(w: Workflow, v: Verdicts, s: State, t: TaskId)
    requires Setting(w, v) && Inv(w, v, s) && s.phase.Wave? && t in s.pcs
    ensures CoroutineOk(w, v, s, t) && t in w.tasks && !Skip(s.rows, t)
    ensures t in s.rows ==> RowOk(w, v, s.rows[t], t)
    ensures t in s.completed <==> Done(s.rows, t) && !Recording(s.pcs, t)
    ensures t in s.taskOutputs <==> t in s.completed && t in s.rows && s.rows[t].output.Some?
    ensures t in s.taskOutputs && t in s.rows ==> s.rows[t].output == Some(s.taskOutputs[t])
    ensures t !in s.skipped
  {
    hide Rule, Loser, BranchesPruned, LocksOk, StatusOk;
    assert CoroutineOk(w, v, s, t);
    if t in s.rows { assert RowOk(w, v, s.rows[t], t); }
  }

  lemma EnterKeeps(w: Workflow, v: Verdicts, s: State, t: TaskId, s': State)
    requires Setting(w, v) && Inv(w, v, s) && Next(w, s, Enter(t), s')
    ensures Inv(w, v, s')
  {
    hide Next, Rule, Loser, Inv, Setting, Guarded;
    NextLight(w, s, Enter(t), s');
    AtCoroutine(w, v, s, t);
    MoveKeeps(w, v, s, s', t);
  }

  lemma CheckKeeps(w: Workflow, v: Verdicts, s: State, t: TaskId, s': State)
    requires Setting(w, v) && Inv(w, v, s) && Next(w, s, CheckCancelled(t), s')
    ensures Inv(w, v, s')
  {
    hide Next, Rule, Loser, Inv, Setting, Guarded;
    NextLight(w, s, CheckCancelled(t), s');
    AtCoroutine(w, v, s, t);
    MoveKeeps(w, v, s, s', t);
  }

  lemma LockKeeps(w: Workflow, v: Verdicts, s: State, t: TaskId, s': State)
    requires Setting(w, v) && Inv(w, v, s) && Next(w, s, Lock(t), s')
    ensures Inv(w, v, s')
  {
    hide Next, Rule, Loser, Inv, Setting, Guarded;
    NextLight(w, s, Lock(t), s');
    AtCoroutine(w, v, s, t);
    MoveKeeps(w, v, s, s', t);
  }

  lemma AttemptKeeps(w: Workflow, v: Verdicts, s: State, t: TaskId, s': State)
    requires Setting(w, v) && Inv(w, v, s) && Next(w, s, Attempt(t), s')
    ensures Inv(w, v, s')
  {
    hide Next, Rule, Loser, Inv, Setting, Guarded;
    NextAttempt(w, s, t, s');
    AtCoroutine(w, v, s, t);
    MoveKeeps(w, v, s, s', t);
  }

  lemma WakeKeeps(w: Workflow, v: Verdicts, s: State, t: TaskId, s': State)
    requires Setting(w, v) && Inv(w, v, s) && Next(w, s, Wake(t), s')
    ensures Inv(w, v, s')
  {
    hide Next, Rule, Loser, Inv, Setting, Guarded;
    NextWake(w, s, t, s');
    AtCoroutine(w, v, s, t);
    MoveKeeps(w, v, s, s', t);
  }

  lemma ReturnKeeps(w: Workflow, v: Verdicts, s: State, t: TaskId, outcome: Outcome, s': State)
    requires Setting(w, v) && Inv(w, v, s) && Next(w, s, Return(t, outcome), s')
    ensures Inv(w, v, s')
  {
    hide Next, Rule, Loser, Inv, Setting, Guarded;
    NextReturn(w, s, t, outcome, s');
    AtCoroutine(w, v, s, t);
    RanValue(w, v, t);
    MoveKeeps(w, v, s, s', t);
  }

  lemma CoroutineInput(w: Workflow, v: Verdicts, s: State, t: TaskId)
    requires Setting(w, v) && Inv(w, v, s) && s.phase.Wave? && t in s.pcs
    ensures AvailableOutputs(w, s.taskOutputs, t) == Outputs(v, w.Preds(t))
  {
    AtCoroutine(w, v, s, t);
    FetchedInput(w, v, s, t);
  }

  lemma CheckedSectionKeeps(w: Workflow, v: Verdicts, s: State, t: TaskId, s': State)
    requires Setting(w, v) && Inv(w, v, s) && Next(w, s, Section(t), s') && s.pcs[t].Checked?
    ensures Inv(w, v, s')
  {
    hide Next, Rule, Loser, Inv, Setting, Guarded;
    NextSection(w, s, t, s');
    AtCoroutine(w, v, s, t);
    MoveKeeps(w, v, s, s', t);
  }

  lemma FetchingSectionKeeps(w: Workflow, v: Verdicts, s: State, t: TaskId, s': State)
    requires Setting(w, v) && Inv(w, v, s) && Next(w, s, Section(t), s') && s.pcs[t].Fetching?
    ensures Inv(w, v, s')
  {
    hide Next, Rule, Loser, Inv, Setting, Guarded, Outputs, AvailableOutputs, MergedInput;
    NextSection(w, s, t, s');
    AtCoroutine(w, v, s, t);
    CoroutineInput(w, v, s, t);
    MoveKeeps(w, v, s, s', t);
  }

  lemma FailedSectionKeeps(w: Workflow, v: Verdicts, s: State, t: TaskId, s': State)
    requires Setting(w, v) && Inv(w, v, s) && Next(w, s, Section(t), s') && s.pcs[t] == Ending(false)
    ensures Inv(w, v, s')
  {
    hide Next, Rule, Loser, Inv, Setting, Guarded;
    NextSection(w, s, t, s');
    AtCoroutine(w, v, s, t);
    MoveKeeps(w, v, s, s', t);
  }

  lemma RecordedSectionKeeps(w: Workflow, v: Verdicts, s: State, t: TaskId, s': State)
    requires Setting(w, v) && Inv(w, v, s) && Next(w, s, Section(t), s') && s.pcs[t] == Ending(true)
    ensures Inv(w, v, s')
  {
    hide Next, Rule, Loser, Inv, Setting, Guarded;
    NextSection(w, s, t, s');
    AtCoroutine(w, v, s, t);
    MoveKeeps(w, v, s, s', t);
  }

  // ---- Skipping, and the main loop ----

  /** `rows'` is `rows` with the tasks of `ts`, none of them done, marked skipped. */
  ghost predicate Marked(rows: map<TaskId, Row>, rows': map<TaskId, Row>, ts: set<TaskId>) {
    && (forall t | t in ts :: !Done(rows, t) && Skip(rows', t))
    && rows'.Keys == rows.Keys + ts
    && (forall t | t in rows && t !in ts :: rows'[t] == rows[t])
  }

  lemma MarkingMarks(w: Workflow, v: Verdicts, s: State, ts: set<TaskId>)
    requires Setting(w, v) && RowsOk(w, v, s.rows) && ts <= w.Nodes() && forall x | x in ts :: v[x].Pruned?
    ensures Marked(s.rows, MarkSkipped(w, s.rows, ts), ts) && RowsOk(w, v, MarkSkipped(w, s.rows, ts))
  {
    hide Rule;
    var rows := MarkSkipped(w, s.rows, ts);
    forall t | t in s.rows ensures RowOk(w, v, s.rows[t], t) {}
    forall t | t in rows ensures RowOk(w, v, rows[t], t) {}
    forall t, p | Done(rows, t) && p in w.Preds(t) ensures Done(rows, p) {
      assert Done(s.rows, t) && Done(s.rows, p);
      assert RowOk(w, v, s.rows[p], p);
    }
  }

  lemma MarkingKeepsBranches(w: Workflow, rows: map<TaskId, Row>, rows': map<TaskId, Row>, ts: set<TaskId>,
      pcs: map<TaskId, Pc>)
    requires BranchesPruned(w, rows, pcs) && Marked(rows, rows', ts)
    ensures BranchesPruned(w, rows', pcs)
  {
    hide Loser;
    forall c, x | Done(rows', c) && c in w.tasks && Loser(w, c, rows'[c].output) == Some(x)
      ensures Skip(rows', x) || Recording(pcs, c) || (c in pcs && pcs[c] == Pruning(x))
    {
      assert Done(rows, c);
      if Skip(rows, x) && x !in ts { assert Skip(rows', x); }
    }
  }

  lemma MarkingKeepsSets(s: State, s': State, ts: set<TaskId>)
    requires SetsOk(s) && Marked(s.rows, s'.rows, ts) && s' == s.(skipped := s.skipped + ts, rows := s'.rows)
    requires forall t | t in ts :: t !in s.pcs
    ensures SetsOk(s')
  {
    forall t ensures (Done(s'.rows, t) <==> Done(s.rows, t)) && (Skip(s'.rows, t) <==> Skip(s.rows, t) || t in ts) {}
  }

  lemma MarkingKeepsCoroutines(w: Workflow, v: Verdicts, s: State, s': State, ts: set<TaskId>)
    requires CoroutinesOk(w, v, s) && Marked(s.rows, s'.rows, ts) &&
        s' == s.(skipped := s.skipped + ts, rows := s'.rows)
    requires forall t | t in ts :: t !in s.pcs
    ensures CoroutinesOk(w, v, s')
  {
    hide Loser, SpecInput;
    forall t | t in s.pcs ensures CoroutineOk(w, v, s', t) {
      assert CoroutineOk(w, v, s, t);
      assert Done(s'.rows, t) <==> Done(s.rows, t);
    }
  }

  lemma MarkingKeepsSettled(w: Workflow, rows: map<TaskId, Row>, rows': map<TaskId, Row>, ts: set<TaskId>)
    requires AllSettled(w, rows) && Marked(rows, rows', ts)
    ensures AllSettled(w, rows')
  {
  }

  lemma MarkingKeepsFailure(w: Workflow, v: Verdicts, rows: map<TaskId, Row>, rows': map<TaskId, Row>,
      ts: set<TaskId>, pcs: map<TaskId, Pc>)
    requires FailureLeft(w, v, rows, pcs) && Marked(rows, rows', ts)
    ensures FailureLeft(w, v, rows', pcs)
  {
    var t :| FailedTask(w, v, rows, pcs, t);
    assert FailedTask(w, v, rows', pcs, t);
  }

  lemma CoroutinesRan(w: Workflow, v: Verdicts, s: State)
    requires CoroutinesOk(w, v, s)
    ensures forall t | t in s.pcs :: t in v && v[t].Ran?
  {
    forall t | t in s.pcs ensures t in v && v[t].Ran? { assert CoroutineOk(w, v, s, t); }
  }

  /** Skipping pruned tasks keeps the invariant, at the loop head and in a wave. */
  lemma SkipKeeps(w: Workflow, v: Verdicts, s: State, ts: set<TaskId>)
    requires Setting(w, v) && Inv(w, v, s) && !s.phase.Off?
    requires ts <= w.Nodes() && forall x | x in ts :: v[x].Pruned?
    ensures Inv(w, v, SkipStep(w, s, ts))
    ensures forall x | x in ts :: x !in s.pcs
  {
    MarkingMarks(w, v, s, ts);
    CoroutinesRan(w, v, s);
    hide Rule, Marked, FailureLeft, PredClosed, SetsOk, CoroutinesOk, LocksOk, AllSettled, RowsOk, BranchesPruned,
        MarkSkipped;
    var s' := SkipStep(w, s, ts);
    MarkingKeepsBranches(w, s.rows, s'.rows, ts, s.pcs);
    MarkingKeepsSets(s, s', ts);
    MarkingKeepsCoroutines(w, v, s, s', ts);
    if AllSettled(w, s.rows) { MarkingKeepsSettled(w, s.rows, s'.rows, ts); }
    assert LocksOk(w, s');
    if s.failed { MarkingKeepsFailure(w, v, s.rows, s'.rows, ts, s.pcs); }
  }

  lemma PruningSectionKeeps(w: Workflow, v: Verdicts, s: State, t: TaskId, s': State)
    requires Setting(w, v) && Inv(w, v, s) && Next(w, s, Section(t), s') && s.pcs[t].Pruning?
    ensures Inv(w, v, s')
  {
    hide Next, Rule, Loser, Inv, Setting, Guarded;
    NextSection(w, s, t, s');
    AtCoroutine(w, v, s, t);
    var x := s.pcs[t].target;
    LoserIsPruned(w, v, t, x);
    SkipKeeps(w, v, s, {x});
    var s1 := SkipStep(w, s, {x});
    AtCoroutine(w, v, s1, t);
    MoveKeeps(w, v, s1, s', t);
  }

  lemma StartWaveKeeps(w: Workflow, v: Verdicts, s: State, s': State)
    requires Setting(w, v) && Inv(w, v, s) && s.phase.LoopHead? && !s.failed
    requires s' == s.(phase := Wave, pcs := map t | t in Ready(w.graph, s.completed, s.skipped) :: Waiting)
    ensures Inv(w, v, s')
  {
    hide Rule, Loser, RowOk;
    assert Holders(s'.pcs) == Holders(s.pcs) == {};
    forall t | t in s'.pcs ensures CoroutineOk(w, v, s', t) {
      ReadyRuns(w, v, s, t);
    }
  }

  lemma PropagateKeeps(w: Workflow, v: Verdicts, s: State)
    requires Setting(w, v) && Inv(w, v, s) && s.phase.LoopHead?
    ensures Inv(w, v, Propagated(w, s)) && Propagated(w, s).phase == s.phase && Propagated(w, s).failed == s.failed
  {
    var more := AllPredsSkipped(w.graph, s.completed, s.skipped);
    forall x | x in more ensures v[x].Pruned? {
      hide Rule, Loser;
      forall p | p in w.Preds(x) ensures v[p].Pruned? { assert RowOk(w, v, s.rows[p], p); }
      PropagatedArePruned(w, v, x);
    }
    hide Inv;
    SkipKeeps(w, v, s, more);
  }

  lemma LeaveLoopKeeps(w: Workflow, v: Verdicts, s: State)
    requires Setting(w, v) && Inv(w, v, s) && s.phase.LoopHead? && SettledCount(s) >= |w.Nodes()|
    ensures Inv(w, v, s.(phase := AfterLoop))
  {
    hide Rule, Loser, RowOk;
    CountingGuard(w, v, s);
    assert Holders(s.pcs) == Holders(s.pcs);
    assert AllSettled(w, s.rows) by {
      forall n | n in w.Nodes() ensures Done(s.rows, n) || Skip(s.rows, n) { assert n in s.completed + s.skipped; }
    }
  }

  lemma RefreshKeeps(w: Workflow, v: Verdicts, s: State)
    requires Setting(w, v) && Inv(w, v, s) && s.phase.LoopHead?
    ensures Inv(w, v, s.(seen := s.status))
    ensures Inv(w, v, s.(phase := Off, seen := s.status))
    ensures Inv(w, v, s.(phase := Off, status := Guarded(s.status, Failed), seen := Guarded(s.status, Failed)))
  {
    hide Rule, Loser, RowOk;
    assert Holders(s.pcs) == Holders(s.pcs);
  }

  lemma HeadKeeps(w: Workflow, v: Verdicts, s: State, s': State)
    requires Setting(w, v) && Inv(w, v, s) && Next(w, s, Head, s')
    ensures Inv(w, v, s')
  {
    hide Inv, Setting, Rule, Loser, SkipStep, Ready, AllPredsSkipped, Guarded;
    RefreshKeeps(w, v, s);
    if SettledCount(s) >= |w.Nodes()| {
      LeaveLoopKeeps(w, v, s);
    } else if !s.status.Cancelled? && !s.failed {
      var s0 := s.(seen := s.status);
      PropagateKeeps(w, v, s0);
      var s1 := Propagated(w, s0);
      if Ready(w.graph, s1.completed, s1.skipped) != {} {
        StartWaveKeeps(w, v, s1, s');
      } else if SettledCount(s1) >= |w.Nodes()| {
        LeaveLoopKeeps(w, v, s1);
      }
    }
  }

  lemma EndWaveKeeps(w: Workflow, v: Verdicts, s: State, s': State)
    requires Setting(w, v) && Inv(w, v, s) && Next(w, s, EndWave, s')
    ensures Inv(w, v, s')
  {
    hide Rule, Loser, RowOk;
    assert Holders(s'.pcs) == Holders(s.pcs) == {};
    if s.failed {
      var t :| FailedTask(w, v, s.rows, s.pcs, t);
      assert FailedTask(w, v, s'.rows, s'.pcs, t);
    }
  }

  lemma FinishKeeps(w: Workflow, v: Verdicts, s: State, s': State)
    requires Setting(w, v) && Inv(w, v, s) && Next(w, s, Finish, s')
    ensures Inv(w, v, s')
  {
    hide Rule, Loser;
    if !s.status.Cancelled? && !s.failed {
      forall n | n in w.Nodes()
        ensures n in s.taskOutputs <==> v[n].Ran? && v[n].output.Some?
        ensures n in s.taskOutputs ==> Some(s.taskOutputs[n]) == v[n].output
      {
        assert RowOk(w, v, s.rows[n], n);
      }
      assert s.taskOutputs == Outputs(v, w.Nodes()) by {
        forall t | t in s.taskOutputs ensures t in w.Nodes() { assert RowOk(w, v, s.rows[t], t); }
      }
    }
  }

  lemma SectionKeeps(w: Workflow, v: Verdicts, s: State, t: TaskId, s': State)
    requires Setting(w, v) && Inv(w, v, s) && Next(w, s, Section(t), s')
    ensures Inv(w, v, s')
  {
    hide Inv, Setting, SectionStep;
    match s.pcs[t]
    case Checked => CheckedSectionKeeps(w, v, s, t, s');
    case Fetching => FetchingSectionKeeps(w, v, s, t, s');
    case Ending(ok) => if ok { RecordedSectionKeeps(w, v, s, t, s'); } else { FailedSectionKeeps(w, v, s, t, s'); }
    case Pruning(_) => PruningSectionKeeps(w, v, s, t, s');
  }

  /** Every step keeps the invariant. */
  lemma StepKeeps(w: Workflow, v: Verdicts, s: State, e: Event, s': State)
    requires Setting(w, v) && Inv(w, v, s) && Next(w, s, e, s')
    ensures Inv(w, v, s')
  {
    match e
    case Dispatch => DispatchKeeps(w, v, s);
    case Cancel => CancelKeeps(w, v, s);
    case Retry => RetryKeeps(w, v, s);
    case Head => HeadKeeps(w, v, s, s');
    case EndWave => EndWaveKeeps(w, v, s, s');
    case Finish => FinishKeeps(w, v, s, s');
    case Enter(t) => EnterKeeps(w, v, s, t, s');
    case CheckCancelled(t) => CheckKeeps(w, v, s, t, s');
    case Lock(t) => LockKeeps(w, v, s, t, s');
    case Section(t) => SectionKeeps(w, v, s, t, s');
    case Attempt(t) => AttemptKeeps(w, v, s, t, s');
    case Return(t, outcome) => ReturnKeeps(w, v, s, t, outcome, s');
    case Wake(t) => WakeKeeps(w, v, s, t, s');
  }

  /** So it holds all along every run. */
  lemma {:induction false} RunKeeps(w: Workflow, v: Verdicts, es: seq<Event>, ss: seq<State>, i: nat)
    requires Setting(w, v) && Trace(w, es, ss) && i < |ss|
    ensures Inv(w, v, ss[i])
  {
    hide Setting, Inv, Next;
    if i == 0 {
      TriggeredInv(w, v);
    } else {
      RunKeeps(w, v, es, ss, i - 1);
      assert Next(w, ss[i - 1], es[i - 1], ss[i - 1 + 1]);
      StepKeeps(w, v, ss[i - 1], es[i - 1], ss[i]);
    }
  }
}
