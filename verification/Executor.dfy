/**
 WorkflowExecutor.execute_workflow as a step system. A coroutine of run_node is a program counter;
 one event is what happens between two awaits, or inside one `async with glock` block. Cancel and
 Retry are the API calls that touch the same rows from outside. One worker runs an execution at a
 time, and a status is read, checked and written in one step.
 */
module Executor {
  import opened Options
  import opened Graphs
  import opened Workflows
  import opened StateMachine

  datatype RowStatus = RowPending | RowRunning | RowCompleted | RowFailed | RowSkipped | RowCancelled

  /** A TaskExecution row. */
  datatype Row = Row(status: RowStatus, output: Option<Json>, attempt: nat, maxAttempts: nat)

  datatype Pc =
    | Waiting                    // before the semaphore
    | Entered                    // holds a permit
    | Checked                    // not cancelled; wants glock to look at the sets
    | Fetching                   // has its row; wants glock to read predecessor outputs
    | Trying(input: Object)      // head of the retry loop
    | Invoking(input: Object)    // inside the handler
    | Sleeping(input: Object)    // backing off before the next attempt
    | Ending(ok: bool)           // wants glock to record the outcome
    | Pruning(target: TaskId)    // a condition; wants glock to skip its losing branch
    | Finished

  datatype Phase = Off | LoopHead | Wave | AfterLoop

  datatype State = State(
    phase: Phase,
    status: ExecutionState,              // the committed status
    seen: ExecutionState,                // the worker's copy, refreshed by is_cancelled
    rows: map<TaskId, Row>,
    outputData: Option<Object>,
    completed: set<TaskId>,
    skipped: set<TaskId>,
    failed: bool,
    taskOutputs: Object,
    pcs: map<TaskId, Pc>,                // the coroutines of the current wave
    permits: nat,
    glock: Option<TaskId>)

  datatype Outcome = Success | Failure(output: Option<Json>) | Timeout

  datatype Event =
    | Dispatch | Cancel | Retry
    | Head | EndWave | Finish
    | Enter(t: TaskId) | CheckCancelled(t: TaskId) | Lock(t: TaskId) | Section(t: TaskId)
    | Attempt(t: TaskId) | Return(t: TaskId, outcome: Outcome) | Wake(t: TaskId)

  /** Events of the worker, as opposed to the API calls and the message that starts a run. */
  predicate OfWorker(e: Event) {
    !e.Dispatch? && !e.Cancel? && !e.Retry?
  }

  /** Events of one coroutine. */
  predicate OwnEvent(e: Event) {
    e.Enter? || e.CheckCancelled? || e.Lock? || e.Section? || e.Attempt? || e.Return? || e.Wake?
  }

  /** A freshly triggered execution. */
  function Triggered(w: Workflow): State {
    State(Off, Pending, Pending, map[], None, {}, {}, false, map[], map[], w.maxConcurrent, None)
  }

  predicate WantsLock(pc: Pc) {
    pc.Checked? || pc.Fetching? || pc.Ending? || pc.Pruning?
  }

  predicate HoldsPermit(pc: Pc) {
    !pc.Waiting? && !pc.Finished?
  }

  /** _get_or_create_task_execution. */
  function RowOf(w: Workflow, rows: map<TaskId, Row>, t: TaskId): Row
    requires t in w.tasks
  {
    if t in rows then rows[t]
    else Row(RowPending, None, 1, if w.tasks[t].maxAttempts < 1 then 1 else w.tasks[t].maxAttempts)
  }

  function SettledCount(s: State): nat {
    |s.completed| + |s.skipped|
  }

  /** get_ready_tasks with nothing running. */
  function Ready(g: Graph, completed: set<TaskId>, skipped: set<TaskId>): set<TaskId> {
    set n | n in g.nodes && n !in completed && n !in skipped && g.Preds(n) !! skipped && g.Preds(n) <= completed
  }

  /** The tasks in neither set that have predecessors, all of them skipped. */
  function AllPredsSkipped(g: Graph, completed: set<TaskId>, skipped: set<TaskId>): set<TaskId> {
    set n | n in g.nodes && n !in completed && n !in skipped && g.Preds(n) != {} && g.Preds(n) <= skipped
  }

  function MarkSkipped(w: Workflow, rows: map<TaskId, Row>, ts: set<TaskId>): map<TaskId, Row>
    requires ts <= w.tasks.Keys
  {
    map t | t in rows.Keys + ts :: if t in ts then RowOf(w, rows, t).(status := RowSkipped) else rows[t]
  }

  /** Add tasks to `skipped` and mark their rows. */
  function SkipStep(w: Workflow, s: State, ts: set<TaskId>): State
    requires ts <= w.tasks.Keys
  {
    s.(skipped := s.skipped + ts, rows := MarkSkipped(w, s.rows, ts))
  }

  function AvailableOutputs(w: Workflow, taskOutputs: Object, t: TaskId): Object {
    map p | p in w.Preds(t) && p in taskOutputs :: taskOutputs[p]
  }

  // ---- Calls from outside ----

  function CompletedRows(rows: map<TaskId, Row>): set<TaskId> {
    set t | t in rows && rows[t].status.RowCompleted?
  }

  function SkippedRows(rows: map<TaskId, Row>): set<TaskId> {
    set t | t in rows && rows[t].status.RowSkipped?
  }

  function RecordedOutputs(rows: map<TaskId, Row>): Object {
    map t | t in rows && rows[t].status.RowCompleted? && rows[t].output.Some? :: rows[t].output.value
  }

  function DispatchStep(w: Workflow, s: State): State {
    var status := Guarded(s.status, Running);
    s.(phase := LoopHead, status := status, seen := status,
       completed := CompletedRows(s.rows), skipped := SkippedRows(s.rows), failed := false,
       taskOutputs := RecordedOutputs(s.rows),
       pcs := map[], permits := w.maxConcurrent, glock := None)
  }

  function CancelRow(r: Row): Row {
    if r.status.RowPending? || r.status.RowRunning? then r.(status := RowCancelled) else r
  }

  function CancelRows(rows: map<TaskId, Row>): map<TaskId, Row> {
    map t | t in rows :: CancelRow(rows[t])
  }

  function CancelStep(s: State): State {
    s.(status := Guarded(s.status, Cancelled), rows := CancelRows(s.rows))
  }

  /** retry_execution refuses exactly these. */
  predicate RetryRefused(status: ExecutionState) {
    status.Completed? || status.Cancelled? || status.Running?
  }

  function ResetRow(r: Row): Row {
    if r.status.RowFailed? then Row(RowPending, None, 1, r.maxAttempts) else r
  }

  function ResetRows(rows: map<TaskId, Row>): map<TaskId, Row> {
    map t | t in rows :: ResetRow(rows[t])
  }

  function RetryStep(s: State): State {
    if RetryRefused(s.status) then s
    else s.(status := Pending, outputData := None, rows := ResetRows(s.rows))
  }

  // ---- The main loop ----

  /** Lines 138-153: skip propagation under glock. */
  function Propagated(w: Workflow, s: State): State
    requires w.tasks.Keys == w.Nodes()
  {
    SkipStep(w, s, AllPredsSkipped(w.graph, s.completed, s.skipped))
  }

  /** `gather`: one coroutine for each ready task. */
  function StartWave(s: State, ready: set<TaskId>): State {
    s.(phase := Wave, pcs := map t | t in ready :: Waiting)
  }

  /** One evaluation of the loop guard and, when it holds, of the body up to `gather`. */
  function HeadStep(w: Workflow, s: State): State
    requires w.tasks.Keys == w.Nodes()
  {
    if SettledCount(s) >= |w.Nodes()| then s.(phase := AfterLoop)
    else if s.status.Cancelled? then s.(phase := Off, seen := s.status)
    else if s.failed then s.(phase := Off, status := Guarded(s.status, Failed), seen := Guarded(s.status, Failed))
    else
      var s1 := Propagated(w, s.(seen := s.status));
      var ready := Ready(w.graph, s1.completed, s1.skipped);
      if ready != {} then StartWave(s1, ready)
      else if SettledCount(s1) >= |w.Nodes()| then s1.(phase := AfterLoop)
      else s1
  }

  /** A head step leaves the loop, ends the run, or propagates the skips and then goes on. */
  lemma HeadCases(w: Workflow, s: State, s': State)
    requires w.tasks.Keys == w.Nodes() && s' == HeadStep(w, s)
    ensures var s1 := Propagated(w, s.(seen := s.status));
            || (SettledCount(s) >= |w.Nodes()| && s' == s.(phase := AfterLoop))
            || (SettledCount(s) < |w.Nodes()| && s.status.Cancelled? && s' == s.(phase := Off, seen := s.status))
            || (SettledCount(s) < |w.Nodes()| && !s.status.Cancelled? && s.failed
                && s' == s.(phase := Off, status := Guarded(s.status, Failed), seen := Guarded(s.status, Failed)))
            || (!s.status.Cancelled? && !s.failed && Ready(w.graph, s1.completed, s1.skipped) != {}
                && s' == StartWave(s1, Ready(w.graph, s1.completed, s1.skipped)))
            || (!s.status.Cancelled? && !s.failed && s' == s1.(phase := AfterLoop))
            || (!s.status.Cancelled? && !s.failed && s' == s1
                && SettledCount(s1) < |w.Nodes()| && Ready(w.graph, s1.completed, s1.skipped) == {})
  {
    hide Ready, Propagated, Guarded, StartWave, SettledCount;
  }

  /** Propagation changes `skipped` and the rows it marks, and nothing else. */
  lemma PropagatedInBrief(w: Workflow, s: State)
    requires w.tasks.Keys == w.Nodes()
    ensures var more := AllPredsSkipped(w.graph, s.completed, s.skipped);
            Propagated(w, s) == s.(skipped := s.skipped + more, rows := MarkSkipped(w, s.rows, more))
    ensures AllPredsSkipped(w.graph, s.completed, s.skipped) == {} ==> Propagated(w, s) == s
  {
    if AllPredsSkipped(w.graph, s.completed, s.skipped) == {} {
      assert MarkSkipped(w, s.rows, {}) == s.rows;
      assert s.skipped + {} == s.skipped;
    }
  }

  function EndWaveStep(w: Workflow, s: State): State {
    s.(phase := if s.failed && w.breaksOnFailure then AfterLoop else LoopHead, pcs := map[])
  }

  /** Lines 163-167; a refused transition to Completed raises, and the run ends there. */
  function FinishStep(s: State): State {
    if s.status.Cancelled? || s.failed || !CanTransition(s.status, Completed) then s.(phase := Off, seen := s.status)
    else s.(phase := Off, status := Completed, seen := Completed, outputData := Some(s.taskOutputs))
  }

  // ---- run_node ----

  function Goto(s: State, t: TaskId, pc: Pc): State {
    s.(pcs := s.pcs[t := pc])
  }

  /** Leave the `async with self._sem` block. */
  function Leave(s: State, t: TaskId): State {
    s.(pcs := s.pcs[t := Finished], permits := s.permits + 1)
  }

  function CheckStep(s: State, t: TaskId): State {
    var s1 := s.(seen := s.status);
    if s.status.Cancelled? then Leave(s1, t) else Goto(s1, t, Checked)
  }

  /** Lines 108-114, then the choice of line 115. */
  function RecordStep(w: Workflow, s: State, t: TaskId, ok: bool): State
    requires t in w.tasks
  {
    if !ok then Leave(s.(failed := true), t)
    else
      var out := RowOf(w, s.rows, t).output;
      var s1 := s.(completed := s.completed + {t},
                   taskOutputs := if out.Some? then s.taskOutputs[t := out.value] else s.taskOutputs);
      var loser := Loser(w, t, out);
      if loser.Some? then Goto(s1, t, Pruning(loser.value)) else Leave(s1, t)
  }

  /** The body of one glock block, which releases the lock at its end. */
  function SectionStep(w: Workflow, s: State, t: TaskId): State
    requires w.tasks.Keys == w.Nodes() && t in w.tasks && t in s.pcs && WantsLock(s.pcs[t])
  {
    var s1 := s.(glock := None);
    match s.pcs[t]
    case Checked =>
      if t in s.completed || t in s.skipped then Leave(s1, t)
      else Goto(s1.(rows := s.rows[t := RowOf(w, s.rows, t)]), t, Fetching)
    case Fetching =>
      Goto(s1, t, Trying(MergedInput(w.input, AvailableOutputs(w, s.taskOutputs, t))))
    case Ending(ok) => RecordStep(w, s1, t, ok)
    case Pruning(x) =>
      Leave(if x in w.tasks then SkipStep(w, s1, {x}) else s1, t)
    case _ => s1
  }

  // What an attempt writes to its row.

  function StartedRow(row: Row): Row {
    row.(status := RowRunning)
  }

  /** The handler's outcome; `result` is what it returned if it succeeded. */
  function EndedRow(row: Row, outcome: Outcome, result: Option<Json>): Row {
    match outcome
    case Success => row.(status := RowCompleted, output := result)
    case Failure(output) => row.(status := RowFailed, output := output)
    case Timeout => row.(status := RowFailed)
  }

  function NextAttemptRow(row: Row): Row {
    row.(status := RowPending, attempt := row.attempt + 1)
  }

  /** Head of the retry loop, up to the call of the handler. */
  function AttemptStep(w: Workflow, s: State, t: TaskId): State
    requires t in w.tasks && t in s.pcs && s.pcs[t].Trying?
  {
    var row := RowOf(w, s.rows, t);
    if row.attempt > row.maxAttempts || s.seen.Cancelled? then Goto(s, t, Ending(false))
    else Goto(s.(rows := s.rows[t := StartedRow(row)]), t, Invoking(s.pcs[t].input))
  }

  /** The handler returns, fails or times out; the row is committed. */
  function ReturnStep(w: Workflow, s: State, t: TaskId, outcome: Outcome): State
    requires t in w.tasks && t in s.pcs && s.pcs[t].Invoking?
  {
    var row := RowOf(w, s.rows, t);
    var input := s.pcs[t].input;
    var s1 := s.(rows := s.rows[t := EndedRow(row, outcome, w.result(t, input))]);
    Goto(s1, t, if outcome.Success? then Ending(true)
                else if row.attempt >= row.maxAttempts then Ending(false)
                else Sleeping(input))
  }

  function WakeStep(w: Workflow, s: State, t: TaskId): State
    requires t in w.tasks && t in s.pcs && s.pcs[t].Sleeping?
  {
    var row := RowOf(w, s.rows, t);
    Goto(s.(rows := s.rows[t := NextAttemptRow(row)]), t, Trying(s.pcs[t].input))
  }

  // ---- Steps and traces ----

  predicate Enabled(w: Workflow, s: State, e: Event)
  {
    match e
    case Dispatch => s.phase.Off?
    case Cancel => true
    case Retry => true
    case Head => s.phase.LoopHead?
    case EndWave => s.phase.Wave? && forall t | t in s.pcs :: s.pcs[t].Finished?
    case Finish => s.phase.AfterLoop?
    case Enter(t) => s.phase.Wave? && t in s.pcs && s.pcs[t].Waiting? && s.permits > 0
    case CheckCancelled(t) => s.phase.Wave? && t in s.pcs && s.pcs[t].Entered?
    case Lock(t) => s.phase.Wave? && t in s.pcs && WantsLock(s.pcs[t]) && s.glock.None?
    case Section(t) => s.phase.Wave? && t in s.pcs && WantsLock(s.pcs[t]) && s.glock == Some(t)
    case Attempt(t) => s.phase.Wave? && t in s.pcs && s.pcs[t].Trying?
    case Return(t, _) => s.phase.Wave? && t in s.pcs && s.pcs[t].Invoking?
    case Wake(t) => s.phase.Wave? && t in s.pcs && s.pcs[t].Sleeping?
  }

  /** The coroutines run tasks of the workflow; kept by every step. */
  predicate Typed(w: Workflow, s: State) {
    w.tasks.Keys == w.Nodes() && s.pcs.Keys <= w.Nodes()
  }

  function Apply(w: Workflow, s: State, e: Event): State
    requires Typed(w, s) && Enabled(w, s, e)
  {
    match e
    case Dispatch => DispatchStep(w, s)
    case Cancel => CancelStep(s)
    case Retry => RetryStep(s)
    case Head => HeadStep(w, s)
    case EndWave => EndWaveStep(w, s)
    case Finish => FinishStep(s)
    case Enter(t) => Goto(s, t, Entered).(permits := s.permits - 1)
    case CheckCancelled(t) => CheckStep(s, t)
    case Lock(t) => s.(glock := Some(t))
    case Section(t) => SectionStep(w, s, t)
    case Attempt(t) => AttemptStep(w, s, t)
    case Return(t, outcome) => ReturnStep(w, s, t, outcome)
    case Wake(t) => WakeStep(w, s, t)
  }

  ghost predicate Next(w: Workflow, s: State, e: Event, s': State) {
    Typed(w, s) && Enabled(w, s, e) && s' == Apply(w, s, e)
  }

  // What each step is, one event at a time.

  lemma NextHead(w: Workflow, s: State, s': State)
    requires Next(w, s, Head, s')
    ensures w.tasks.Keys == w.Nodes() && s.phase.LoopHead? && s' == HeadStep(w, s)
  {
    hide HeadStep;
  }

  lemma NextCancel(w: Workflow, s: State, s': State)
    requires Next(w, s, Cancel, s')
    ensures s' == CancelStep(s)
  {
    hide CancelStep;
  }

  lemma NextFinish(w: Workflow, s: State, s': State)
    requires Next(w, s, Finish, s')
    ensures s.phase.AfterLoop? && s' == FinishStep(s)
  {
    hide FinishStep;
  }

  lemma NextLight(w: Workflow, s: State, e: Event, s': State)
    requires Next(w, s, e, s') && (e.Enter? || e.CheckCancelled? || e.Lock?)
    ensures s.phase.Wave? && e.t in s.pcs
    ensures e.Enter? ==> s.pcs[e.t].Waiting? && s.permits > 0 && s' == Goto(s, e.t, Entered).(permits := s.permits - 1)
    ensures e.CheckCancelled? ==> s.pcs[e.t].Entered? && s' == CheckStep(s, e.t)
    ensures e.Lock? ==> WantsLock(s.pcs[e.t]) && s.glock.None? && s' == s.(glock := Some(e.t))
  {
    hide CheckStep;
  }

  lemma NextSection(w: Workflow, s: State, t: TaskId, s': State)
    requires Next(w, s, Section(t), s')
    ensures s.phase.Wave? && w.tasks.Keys == w.Nodes() && t in w.tasks && t in s.pcs && WantsLock(s.pcs[t])
    ensures s.glock == Some(t) && s' == SectionStep(w, s, t)
  {
    hide SectionStep;
  }

  lemma NextAttempt(w: Workflow, s: State, t: TaskId, s': State)
    requires Next(w, s, Attempt(t), s')
    ensures s.phase.Wave? && t in w.tasks && t in s.pcs && s.pcs[t].Trying? && s' == AttemptStep(w, s, t)
  {
    hide AttemptStep;
  }

  lemma NextReturn(w: Workflow, s: State, t: TaskId, outcome: Outcome, s': State)
    requires Next(w, s, Return(t, outcome), s')
    ensures s.phase.Wave? && t in w.tasks && t in s.pcs && s.pcs[t].Invoking? && s' == ReturnStep(w, s, t, outcome)
  {
    hide ReturnStep;
  }

  lemma NextWake(w: Workflow, s: State, t: TaskId, s': State)
    requires Next(w, s, Wake(t), s')
    ensures s.phase.Wave? && t in w.tasks && t in s.pcs && s.pcs[t].Sleeping? && s' == WakeStep(w, s, t)
  {
    hide WakeStep;
  }

  /** `ss` is the run that the events `es` drive from a freshly triggered execution. */
  ghost predicate Trace(w: Workflow, es: seq<Event>, ss: seq<State>) {
    && |ss| == |es| + 1
    && ss[0] == Triggered(w)
    && forall i | 0 <= i < |es| :: Next(w, ss[i], es[i], ss[i + 1])
  }

  lemma TraceGrows(w: Workflow, es: seq<Event>, ss: seq<State>, e: Event, s: State)
    requires Trace(w, es, ss) && Next(w, ss[|es|], e, s)
    ensures Trace(w, es + [e], ss + [s])
  {
    hide Next;
    var es', ss' := es + [e], ss + [s];
    forall i | 0 <= i < |es'| ensures Next(w, ss'[i], es'[i], ss'[i + 1]) {
      if i < |es| { assert Next(w, ss[i], es[i], ss[i + 1]); }
    }
  }
}
