/**
 The executor's results in terms of the rows and the definition alone: what a handler is given, which
 branch a condition skips, and what cancel, retry and a new row write.
 */
module ExecutorMeaning {
  import opened Options
  import opened Graphs
  import opened Workflows
  import opened StateMachine
  import opened Executor
  import opened ExecutorInvariant
  import opened ExecutorTheorems
  import opened ExecutorProgress
  import opened ExecutorCompletion
  import opened ExecutorCancel

  // ---- What a handler is given ----

  /** `p` has an edge to `t` and has completed with an output. */
  ghost predicate Feeds(w: Workflow, rows: map<TaskId, Row>, p: TaskId, t: TaskId) {
    && (p, t) in w.graph.edges && p in w.graph.nodes
    && p in rows && rows[p].status.RowCompleted? && rows[p].output.Some?
  }

  /**
   Line 106: the key "tasks" holds exactly the outputs of the predecessors that have one, each of them is
   there under its own name too, and every other key is that of the trigger input.
   */
  ghost predicate IsInputOf(w: Workflow, rows: map<TaskId, Row>, t: TaskId, input: Object) {
    && "tasks" in input && input["tasks"].Obj?
    && (forall p :: p in input["tasks"].fields <==> Feeds(w, rows, p, t))
    && (forall p | Feeds(w, rows, p, t) :: input["tasks"].fields[p] == rows[p].output.value)
    && (forall p | Feeds(w, rows, p, t) && p != "tasks" :: p in input && input[p] == rows[p].output.value)
    && (forall k | k != "tasks" && !Feeds(w, rows, k, t) :: k in input <==> k in w.input)
    && (forall k | k != "tasks" && !Feeds(w, rows, k, t) && k in w.input :: k in input && input[k] == w.input[k])
  }

  lemma MergedIsInput(w: Workflow, rows: map<TaskId, Row>, t: TaskId, outputs: Object)
    requires forall p :: p in outputs <==> Feeds(w, rows, p, t)
    requires forall p | p in outputs :: p in rows && rows[p].output == Some(outputs[p])
    ensures IsInputOf(w, rows, t, MergedInput(w.input, outputs))
  {
    hide Feeds;
    assert forall p | Feeds(w, rows, p, t) :: p in rows && rows[p].output.Some? by { FeedersHaveOutputs(w, rows, t); }
  }

  lemma FeedersHaveOutputs(w: Workflow, rows: map<TaskId, Row>, t: TaskId)
    ensures forall p | Feeds(w, rows, p, t) :: p in rows && rows[p].output.Some?
  {
  }

  /** The same of the worker's own record of outputs, as read under glock. */
  ghost predicate IsReadFrom(w: Workflow, outputs: Object, t: TaskId, input: Object) {
    && "tasks" in input && input["tasks"].Obj?
    && (forall p :: p in input["tasks"].fields <==> p in outputs && p in w.graph.nodes && (p, t) in w.graph.edges)
    && (forall p | p in outputs && p in w.graph.nodes && (p, t) in w.graph.edges ::
          && p in input["tasks"].fields && input["tasks"].fields[p] == outputs[p]
          && (p != "tasks" ==> p in input && input[p] == outputs[p]))
    && (forall k | k != "tasks" && !(k in outputs && k in w.graph.nodes && (k, t) in w.graph.edges) ::
          if k in w.input then k in input && input[k] == w.input[k] else k !in input)
  }

  lemma ReadingMeans(w: Workflow, outputs: Object, t: TaskId)
    ensures IsReadFrom(w, outputs, t, MergedInput(w.input, AvailableOutputs(w, outputs, t)))
  {
    var available := AvailableOutputs(w, outputs, t);
    assert forall p :: p in available <==> p in outputs && p in w.graph.nodes && (p, t) in w.graph.edges;
  }

  /** With all predecessors of `t` completed, the input of the equations is the one the rows give. */
  lemma SpecInputIsInput(w: Workflow, v: Verdicts, s: State, t: TaskId)
    requires Setting(w, v) && Inv(w, v, s) && t in w.Nodes() && forall p | p in w.Preds(t) :: Done(s.rows, p)
    ensures IsInputOf(w, s.rows, t, SpecInput(w, v, t))
  {
    hide Setting, Inv, IsInputOf, MergedInput, RowOk;
    forall p | p in w.Preds(t) ensures p in v && v[p] == Ran(s.rows[p].output) {
      RowAt(w, v, s, p);
      RowMeans(w, v, s.rows[p], p);
    }
    MergedIsInput(w, s.rows, t, Outputs(v, w.Preds(t)));
  }

  lemma CompletedAreDone(w: Workflow, v: Verdicts, s: State)
    requires Inv(w, v, s) && !s.phase.Off?
    ensures forall p | p in s.completed :: Done(s.rows, p)
  {
    hide Loser, BranchesPruned, CoroutinesOk, LocksOk, StatusOk, RowsOk;
  }

  /** While its handler runs, a task's input is the one its predecessors' rows and the trigger input give. */
  lemma HandlersGetTheirInput(w: Workflow, v: Verdicts, es: seq<Event>, ss: seq<State>, i: nat, t: TaskId)
    requires Setting(w, v) && Trace(w, es, ss) && i < |ss| && t in ss[i].pcs && ss[i].pcs[t].Invoking?
    ensures IsInputOf(w, ss[i].rows, t, ss[i].pcs[t].input)
  {
    HandlersRunReadyTasks(w, v, es, ss, i, t);
    RunKeeps(w, v, es, ss, i);
    InvokingIsInWave(w, v, ss[i]);
    hide Setting, Inv, IsInputOf, SpecInput, Trace;
    CompletedAreDone(w, v, ss[i]);
    SpecInputIsInput(w, v, ss[i], t);
  }

  lemma InvokingIsInWave(w: Workflow, v: Verdicts, s: State)
    requires Inv(w, v, s) && s.pcs != map[]
    ensures s.phase.Wave?
  {
    hide RowsOk, BranchesPruned, CoroutinesOk, SetsOk, LocksOk, StatusOk;
  }

  // ---- Which branch a condition skips ----

  /** A result that is the boolean true skips `on_false`. */
  lemma TrueSkipsOnFalse(w: Workflow, c: TaskId, yes: TaskId, no: TaskId, n: int, fields: Object)
    requires c in w.tasks && w.tasks[c] == TaskSpec(true, yes, no, n) && yes != "" && no != ""
    requires "result" in fields && fields["result"] == Bool(true)
    ensures Loser(w, c, Some(Obj(fields))) == if no in w.Nodes() then Some(no) else None
  {
  }

  /** Anything else skips `on_true`: no output, no object, no result, or another one. */
  lemma OtherwiseSkipsOnTrue(w: Workflow, c: TaskId, yes: TaskId, no: TaskId, n: int, out: Option<Json>)
    requires c in w.tasks && w.tasks[c] == TaskSpec(true, yes, no, n) && yes != "" && no != ""
    requires forall fields | out == Some(Obj(fields)) && "result" in fields :: fields["result"] != Bool(true)
    ensures Loser(w, c, out) == if yes in w.Nodes() then Some(yes) else None
  {
    if out.Some? && out.value.Obj? { assert out == Some(Obj(out.value.fields)); }
  }

  /** `c` has completed, has two branches, and its output does not choose `t`. */
  ghost predicate Unpicked(w: Workflow, rows: map<TaskId, Row>, c: TaskId, t: TaskId) {
    && c in rows && rows[c].status.RowCompleted? && t in w.graph.nodes
    && c in w.tasks && w.tasks[c].isCondition && w.tasks[c].onTrue != "" && w.tasks[c].onFalse != ""
    && var yes := exists fields ::
         rows[c].output == Some(Obj(fields)) && "result" in fields && fields["result"] == Bool(true);
       t == if yes then w.tasks[c].onFalse else w.tasks[c].onTrue
  }

  lemma UnpickedIsLoser(w: Workflow, rows: map<TaskId, Row>, c: TaskId, t: TaskId)
    requires c in rows && c in w.tasks && rows[c].status.RowCompleted?
    ensures Unpicked(w, rows, c, t) <==> Loser(w, c, rows[c].output) == Some(t)
  {
    var spec, out := w.tasks[c], rows[c].output;
    if spec.isCondition && spec.onTrue != "" && spec.onFalse != "" {
      assert spec == TaskSpec(true, spec.onTrue, spec.onFalse, spec.maxAttempts);
      if fields :| out == Some(Obj(fields)) && "result" in fields && fields["result"] == Bool(true) {
        TrueSkipsOnFalse(w, c, spec.onTrue, spec.onFalse, spec.maxAttempts, fields);
      } else {
        OtherwiseSkipsOnTrue(w, c, spec.onTrue, spec.onFalse, spec.maxAttempts, out);
      }
    }
  }

  /** At a loop head the branch that a completed condition did not pick is skipped. */
  lemma HeadHasSkippedUnpicked(w: Workflow, v: Verdicts, es: seq<Event>, ss: seq<State>, i: nat, c: TaskId, t: TaskId)
    requires Setting(w, v) && Trace(w, es, ss) && i < |ss| && ss[i].phase.LoopHead?
    requires c in ss[i].completed && Unpicked(w, ss[i].rows, c, t)
    ensures t in ss[i].skipped
  {
    UnpickedIsLoser(w, ss[i].rows, c, t);
    hide Setting, Trace, Unpicked, Loser;
    HeadSeesBranchesPruned(w, v, es, ss, i, c);
  }

  // ---- A completed execution, row by row ----

  ghost predicate IsCompleted(rows: map<TaskId, Row>, t: TaskId) {
    t in rows && rows[t].status.RowCompleted?
  }

  ghost predicate IsSkipped(rows: map<TaskId, Row>, t: TaskId) {
    t in rows && rows[t].status.RowSkipped?
  }

  /** `t` has an edge into it, and every task with an edge into it is skipped. */
  ghost predicate CutOff(w: Workflow, rows: map<TaskId, Row>, t: TaskId) {
    && (exists p :: p in w.graph.nodes && (p, t) in w.graph.edges)
    && (forall p | p in w.graph.nodes && (p, t) in w.graph.edges :: IsSkipped(rows, p))
  }

  lemma SettledVerdicts(w: Workflow, v: Verdicts, s: State, t: TaskId)
    requires Setting(w, v) && Inv(w, v, s) && AllSettled(w, s.rows) && t in w.Nodes()
    ensures t in v && (IsCompleted(s.rows, t) || IsSkipped(s.rows, t))
    ensures IsCompleted(s.rows, t) <==> v[t].Ran?
    ensures IsSkipped(s.rows, t) <==> v[t].Pruned?
    ensures IsCompleted(s.rows, t) ==> v[t] == Ran(s.rows[t].output)
  {
    hide Setting, Inv, RowOk;
    assert Done(s.rows, t) || Skip(s.rows, t);
    RowAt(w, v, s, t);
    RowMeans(w, v, s.rows[t], t);
  }

  lemma RanPreds(w: Workflow, v: Verdicts, s: State, t: TaskId)
    requires Setting(w, v) && Inv(w, v, s) && AllSettled(w, s.rows) && t in w.Nodes() && IsCompleted(s.rows, t)
    ensures forall p | p in w.Preds(t) :: Done(s.rows, p)
  {
    SettledVerdicts(w, v, s, t);
    RanWhy(w, v, t);
    hide Setting, Inv, Rule;
    forall p | p in w.Preds(t) ensures Done(s.rows, p) { SettledVerdicts(w, v, s, p); }
  }

  lemma PrunedByIsUnpicked(w: Workflow, v: Verdicts, s: State, c: TaskId, t: TaskId)
    requires Setting(w, v) && Inv(w, v, s) && AllSettled(w, s.rows) && t in w.Nodes()
    ensures PrunedBy(w, v, c, t) <==> Unpicked(w, s.rows, c, t)
  {
    VerdictsAreNodes(w, v);
    TasksAreNodes(w, v);
    hide Setting, Inv, Loser;
    if c in w.tasks {
      SettledVerdicts(w, v, s, c);
      if IsCompleted(s.rows, c) {
        hide Unpicked;
        UnpickedIsLoser(w, s.rows, c, t);
      }
    }
  }

  lemma TasksAreNodes(w: Workflow, v: Verdicts)
    requires Setting(w, v)
    ensures w.tasks.Keys == w.Nodes()
  {
  }

  lemma CutOffByPreds(w: Workflow, rows: map<TaskId, Row>, t: TaskId)
    ensures CutOff(w, rows, t) <==> w.Preds(t) != {} && forall p | p in w.Preds(t) :: IsSkipped(rows, p)
  {
    if w.Preds(t) != {} { var p :| p in w.Preds(t); }
    if p :| p in w.graph.nodes && (p, t) in w.graph.edges { assert p in w.Preds(t); }
  }

  lemma SkippedMeans(w: Workflow, v: Verdicts, s: State, t: TaskId)
    requires Setting(w, v) && Inv(w, v, s) && AllSettled(w, s.rows) && t in w.Nodes()
    ensures IsSkipped(s.rows, t) <==> (exists c :: Unpicked(w, s.rows, c, t)) || CutOff(w, s.rows, t)
  {
    SettledVerdicts(w, v, s, t);
    PrunedWhy(w, v, t);
    CutOffByPreds(w, s.rows, t);
    hide Setting, Inv, PrunedBy, Unpicked, CutOff, Rule, AllSettled;
    forall c ensures PrunedBy(w, v, c, t) <==> Unpicked(w, s.rows, c, t) { PrunedByIsUnpicked(w, v, s, c, t); }
    forall p | p in w.Preds(t) ensures IsSkipped(s.rows, p) <==> v[p].Pruned? { SettledVerdicts(w, v, s, p); }
  }

  lemma OutputMeans(w: Workflow, v: Verdicts, s: State, t: TaskId)
    requires Setting(w, v) && Inv(w, v, s) && AllSettled(w, s.rows) && t in w.Nodes() && IsCompleted(s.rows, t)
    ensures forall p | p in w.graph.nodes && (p, t) in w.graph.edges :: IsCompleted(s.rows, p)
    ensures exists input :: IsInputOf(w, s.rows, t, input) && s.rows[t].output == w.result(t, input)
  {
    SettledVerdicts(w, v, s, t);
    RanPreds(w, v, s, t);
    RanValue(w, v, t);
    hide Setting, Inv, AllSettled, SpecInput, IsInputOf;
    SpecInputIsInput(w, v, s, t);
    forall p | p in w.graph.nodes && (p, t) in w.graph.edges ensures IsCompleted(s.rows, p) {
      assert p in w.Preds(t);
    }
  }

  /**
   What the rows of a Completed execution say: each task is completed or skipped; it is skipped exactly if
   a completed condition did not pick it or all its predecessors are skipped; a completed task has only
   completed predecessors, and its output is what its handler returns on the input they give.
   */
  lemma CompletedRowsMean(w: Workflow, v: Verdicts, es: seq<Event>, ss: seq<State>, i: nat, t: TaskId)
    requires Setting(w, v) && Trace(w, es, ss) && i < |ss| && ss[i].status.Completed? && t in w.graph.nodes
    ensures IsCompleted(ss[i].rows, t) || IsSkipped(ss[i].rows, t)
    ensures IsSkipped(ss[i].rows, t) <==> (exists c :: Unpicked(w, ss[i].rows, c, t)) || CutOff(w, ss[i].rows, t)
    ensures IsCompleted(ss[i].rows, t) ==>
              && (forall p | p in w.graph.nodes && (p, t) in w.graph.edges :: IsCompleted(ss[i].rows, p))
              && (exists input :: IsInputOf(w, ss[i].rows, t, input) && ss[i].rows[t].output == w.result(t, input))
  {
    RunKeeps(w, v, es, ss, i);
    hide Setting, Inv, Trace, CutOff, Unpicked, IsInputOf;
    CompletedIsSettled(w, v, ss[i]);
    SettledVerdicts(w, v, ss[i], t);
    SkippedMeans(w, v, ss[i], t);
    if IsCompleted(ss[i].rows, t) { OutputMeans(w, v, ss[i], t); }
  }

  lemma CompletedIsSettled(w: Workflow, v: Verdicts, s: State)
    requires Inv(w, v, s) && s.status.Completed?
    ensures AllSettled(w, s.rows) && s.outputData == Some(Outputs(v, w.Nodes()))
  {
    hide RowsOk, BranchesPruned, CoroutinesOk, SetsOk, LocksOk;
  }

  /** The output of a Completed execution: every output of a completed task, and nothing else. */
  lemma CompletedOutputMeans(w: Workflow, v: Verdicts, es: seq<Event>, ss: seq<State>, i: nat)
    requires Setting(w, v) && Trace(w, es, ss) && i < |ss| && ss[i].status.Completed?
    ensures ss[i].outputData.Some?
    ensures forall t :: t in ss[i].outputData.value <==>
              t in w.graph.nodes && IsCompleted(ss[i].rows, t) && ss[i].rows[t].output.Some?
    ensures forall t | t in ss[i].outputData.value && t in ss[i].rows ::
              ss[i].rows[t].output == Some(ss[i].outputData.value[t])
  {
    RunKeeps(w, v, es, ss, i);
    CompletedIsSettled(w, v, ss[i]);
    hide Setting, Inv, Trace;
    forall t | t in w.Nodes()
      ensures t in v && (IsCompleted(ss[i].rows, t) <==> v[t].Ran?)
      ensures IsCompleted(ss[i].rows, t) ==> v[t] == Ran(ss[i].rows[t].output)
    {
      SettledVerdicts(w, v, ss[i], t);
    }
  }

  // ---- Cancel and retry ----

  /** Rows that a cancel or a retry has changed only as `change` says, keeping the tasks. */
  ghost predicate Rewrites(rows: map<TaskId, Row>, rows': map<TaskId, Row>, from: set<RowStatus>, to: Row -> Row) {
    && rows'.Keys == rows.Keys
    && forall t | t in rows :: rows'[t] == if rows[t].status in from then to(rows[t]) else rows[t]
  }

  /** A cancel makes a Pending or Running execution Cancelled, sweeps its pending and running rows, and does no more. */
  lemma CancelMeans(w: Workflow, s: State, s': State)
    requires Next(w, s, Cancel, s')
    ensures s.status in {Pending, Running} ==> s'.status == Cancelled
    ensures s.status !in {Pending, Running} ==> s'.status == s.status
    ensures Rewrites(s.rows, s'.rows, {RowPending, RowRunning}, (r: Row) => r.(status := RowCancelled))
    ensures s' == s.(status := s'.status, rows := s'.rows)
  {
    NextCancel(w, s, s');
  }

  lemma RetryStepMeans(s: State)
    ensures s.status in {Pending, Failed, TimedOut} ==>
              && RetryStep(s) == s.(status := Pending, outputData := None, rows := RetryStep(s).rows)
              && Rewrites(s.rows, RetryStep(s).rows, {RowFailed}, (r: Row) => Row(RowPending, None, 1, r.maxAttempts))
    ensures s.status !in {Pending, Failed, TimedOut} ==> RetryStep(s) == s
  {
  }

  /**
   A retry is accepted of a Pending, Failed or TimedOut execution; it is then Pending with no output, and a
   failed task is pending again with no output and every attempt it may make. Otherwise nothing changes.
   */
  lemma RetryMeans(w: Workflow, s: State, s': State)
    requires Next(w, s, Retry, s')
    ensures s.status in {Pending, Failed, TimedOut} ==>
              && s' == s.(status := Pending, outputData := None, rows := s'.rows)
              && Rewrites(s.rows, s'.rows, {RowFailed}, (r: Row) => Row(RowPending, None, 1, r.maxAttempts))
    ensures s.status !in {Pending, Failed, TimedOut} ==> s' == s
  {
    RetryStepMeans(s);
    hide RetryStep, Rewrites;
  }

  // ---- Rows ----

  /** A row that was not there is pending, has no output, and is at its first attempt. */
  lemma NewRowMeans(w: Workflow, rows: map<TaskId, Row>, t: TaskId)
    requires t in w.tasks && t !in rows
    ensures var r := RowOf(w, rows, t);
            && r.status == RowPending && r.output == None && r.attempt == 1 && r.maxAttempts >= 1
            && (w.tasks[t].maxAttempts >= 1 ==> r.maxAttempts == w.tasks[t].maxAttempts)
            && (w.tasks[t].maxAttempts < 1 ==> r.maxAttempts == 1)
  {
  }

  /** Skipping tasks changes the status of their rows and nothing else; a row made for it is otherwise a new one. */
  lemma SkippingMeans(w: Workflow, rows: map<TaskId, Row>, ts: set<TaskId>, t: TaskId)
    requires ts <= w.tasks.Keys
    ensures var rows' := MarkSkipped(w, rows, ts);
            && rows'.Keys == rows.Keys + ts
            && (t in ts && t in rows ==>
                  rows'[t] == Row(RowSkipped, rows[t].output, rows[t].attempt, rows[t].maxAttempts))
            && (t in ts && t !in rows ==>
                  rows'[t].status == RowSkipped && rows'[t].output == None && rows'[t].attempt == 1)
            && (t in rows && t !in ts ==> rows'[t] == rows[t])
  {
    if t in ts && t !in rows { NewRowMeans(w, rows, t); }
  }

  /** Every row may make the attempts its task is configured for, and at least one. */
  ghost predicate AsConfigured(w: Workflow, rows: map<TaskId, Row>) {
    forall t | t in rows && t in w.tasks ::
      && rows[t].maxAttempts >= 1
      && (w.tasks[t].maxAttempts >= 1 ==> rows[t].maxAttempts == w.tasks[t].maxAttempts)
      && (w.tasks[t].maxAttempts < 1 ==> rows[t].maxAttempts == 1)
  }

  lemma SectionKeepsConfiguration(w: Workflow, s: State, t: TaskId, s': State)
    requires Next(w, s, Section(t), s') && AsConfigured(w, s.rows)
    ensures AsConfigured(w, s'.rows)
  {
    hide Next, Loser, MergedInput, AvailableOutputs;
    NextSection(w, s, t, s');
  }

  lemma CoroutineKeepsConfiguration(w: Workflow, s: State, e: Event, s': State)
    requires Next(w, s, e, s') && OwnEvent(e) && AsConfigured(w, s.rows)
    ensures AsConfigured(w, s'.rows)
  {
    hide Next, SectionStep;
    match e
    case Section(t) => SectionKeepsConfiguration(w, s, t, s');
    case Attempt(t) => NextAttempt(w, s, t, s');
    case Return(t, outcome) => NextReturn(w, s, t, outcome, s');
    case Wake(t) => NextWake(w, s, t, s');
    case _ => NextLight(w, s, e, s');
  }

  lemma HeadKeepsConfiguration(w: Workflow, s: State, s': State)
    requires Next(w, s, Head, s') && AsConfigured(w, s.rows)
    ensures AsConfigured(w, s'.rows)
  {
    NextHead(w, s, s');
    HeadCases(w, s, s');
    hide Next, HeadStep, Ready, AllPredsSkipped, Guarded, SettledCount;
  }

  lemma OutsideKeepsConfiguration(w: Workflow, s: State, e: Event, s': State)
    requires Next(w, s, e, s') && !OwnEvent(e) && !e.Head? && AsConfigured(w, s.rows)
    ensures AsConfigured(w, s'.rows)
  {
    hide HeadStep;
  }

  lemma EventKeepsConfiguration(w: Workflow, s: State, e: Event, s': State)
    requires Next(w, s, e, s') && AsConfigured(w, s.rows)
    ensures AsConfigured(w, s'.rows)
  {
    hide Next, AsConfigured;
    if OwnEvent(e) {
      CoroutineKeepsConfiguration(w, s, e, s');
    } else if e.Head? {
      HeadKeepsConfiguration(w, s, s');
    } else {
      OutsideKeepsConfiguration(w, s, e, s');
    }
  }

  lemma {:induction false} RowsAreAsConfigured(w: Workflow, es: seq<Event>, ss: seq<State>, i: nat)
    requires Trace(w, es, ss) && i < |ss|
    ensures AsConfigured(w, ss[i].rows)
  {
    hide Next;
    if i == 0 {
      assert ss[0].rows == map[];
    } else {
      hide AsConfigured;
      RowsAreAsConfigured(w, es, ss, i - 1);
      assert Next(w, ss[i - 1], es[i - 1], ss[i - 1 + 1]);
      EventKeepsConfiguration(w, ss[i - 1], es[i - 1], ss[i]);
    }
  }

  /** The head of the retry loop calls the handler unless the attempts are used up or the cancel has been seen. */
  lemma AttemptMeans(w: Workflow, s: State, t: TaskId, s': State)
    requires Next(w, s, Attempt(t), s') && t in s.rows
    ensures t in s.pcs && s.pcs[t].Trying?
    ensures s.rows[t].attempt > s.rows[t].maxAttempts || s.seen == Cancelled ==>
              s' == s.(pcs := s.pcs[t := Ending(false)])
    ensures s.rows[t].attempt <= s.rows[t].maxAttempts && s.seen != Cancelled ==>
              s' == s.(pcs := s.pcs[t := Invoking(s.pcs[t].input)],
                       rows := s.rows[t := s.rows[t].(status := RowRunning)])
  {
    hide Next;
    NextAttempt(w, s, t, s');
  }

  /** What each outcome writes to the row, and where the retry loop goes. */
  lemma ReturnMeans(w: Workflow, s: State, t: TaskId, outcome: Outcome, s': State)
    requires Next(w, s, Return(t, outcome), s') && t in s.rows
    ensures t in s.pcs && s.pcs[t].Invoking? && t in s'.rows && t in s'.pcs
    ensures s' == s.(rows := s.rows[t := s'.rows[t]], pcs := s.pcs[t := s'.pcs[t]])
    ensures s'.rows[t].attempt == s.rows[t].attempt && s'.rows[t].maxAttempts == s.rows[t].maxAttempts
    ensures outcome == Success ==>
              && s'.rows[t].status == RowCompleted && s'.rows[t].output == w.result(t, s.pcs[t].input)
              && s'.pcs[t] == Ending(true)
    ensures outcome.Failure? ==> s'.rows[t].status == RowFailed && s'.rows[t].output == outcome.output
    ensures outcome == Timeout ==> s'.rows[t].status == RowFailed && s'.rows[t].output == s.rows[t].output
    ensures outcome != Success && s.rows[t].attempt < s.rows[t].maxAttempts ==> s'.pcs[t] == Sleeping(s.pcs[t].input)
    ensures outcome != Success && s.rows[t].attempt >= s.rows[t].maxAttempts ==> s'.pcs[t] == Ending(false)
  {
    hide Next;
    NextReturn(w, s, t, outcome, s');
  }

  /** After the backoff the row is pending at the next attempt. */
  lemma WakeMeans(w: Workflow, s: State, t: TaskId, s': State)
    requires Next(w, s, Wake(t), s') && t in s.rows
    ensures t in s.pcs && s.pcs[t].Sleeping?
    ensures var row := s.rows[t];
            s' == s.(pcs := s.pcs[t := Trying(s.pcs[t].input)],
                     rows := s.rows[t := Row(RowPending, row.output, row.attempt + 1, row.maxAttempts)])
  {
    hide Next;
    NextWake(w, s, t, s');
  }

  // ---- Starting, checking and leaving the loop ----

  /**
   A run that starts takes its sets and outputs from the rows, has failed nothing, and makes a Pending
   execution Running.
   */
  lemma DispatchMeans(w: Workflow, s: State, s': State)
    requires Next(w, s, Dispatch, s')
    ensures s'.phase == LoopHead && !s'.failed && s'.rows == s.rows && s'.outputData == s.outputData
    ensures s'.status == (if s.status == Pending then Running else s.status) && s'.seen == s'.status
    ensures forall t :: t in s'.completed <==> t in s.rows && s.rows[t].status == RowCompleted
    ensures forall t :: t in s'.skipped <==> t in s.rows && s.rows[t].status == RowSkipped
    ensures forall t :: t in s'.taskOutputs <==> t in s'.completed && t in s.rows && s.rows[t].output != None
    ensures forall t | t in s'.taskOutputs && t in s.rows :: s.rows[t].output == Some(s'.taskOutputs[t])
    ensures s'.pcs == map[] && s'.permits == w.maxConcurrent && s'.glock == None
  {
  }

  /** The check under the semaphore reads the committed status; only a Cancelled one makes the coroutine give up. */
  lemma CheckMeans(w: Workflow, s: State, t: TaskId, s': State)
    requires Next(w, s, CheckCancelled(t), s')
    ensures t in s.pcs && s.pcs[t].Entered? && t in s'.pcs
    ensures s' == s.(seen := s.status, pcs := s.pcs[t := s'.pcs[t]], permits := s'.permits)
    ensures s.status == Cancelled ==> s'.pcs[t] == Finished && s'.permits == s.permits + 1
    ensures s.status != Cancelled ==> s'.pcs[t] == Checked && s'.permits == s.permits
  {
    hide Next;
    NextLight(w, s, CheckCancelled(t), s');
  }

  /** A turn of the loop and the step after it read the committed status too, unless the guard has failed. */
  lemma LoopRefreshes(w: Workflow, s: State, e: Event, s': State)
    requires Next(w, s, e, s') && (e.Head? || e.Finish?)
    ensures e.Finish? || SettledCount(s) < |w.Nodes()| ==> s'.seen == s'.status
    ensures e.Head? && SettledCount(s) >= |w.Nodes()| ==> s' == s.(phase := AfterLoop)
    ensures e.Head? && SettledCount(s) < |w.Nodes()| && s.status == Cancelled
            ==> s' == s.(phase := Off, seen := Cancelled)
  {
    hide Next;
    if e.Head? {
      NextHead(w, s, s');
      HeadCases(w, s, s');
      hide HeadStep, Ready, MarkSkipped, AllPredsSkipped, SettledCount, Guarded;
    } else {
      NextFinish(w, s, s');
    }
  }

  /** A turn that goes round again leaves some task to settle: if it skipped the last one, it leaves the loop. */
  lemma SettledLeaves(w: Workflow, s: State, s': State)
    requires Next(w, s, Head, s') && s'.phase.LoopHead?
    ensures SettledCount(s') < |w.Nodes()| && Ready(w.graph, s'.completed, s'.skipped) == {}
  {
    hide Next;
    NextHead(w, s, s');
    HeadCases(w, s, s');
    hide HeadStep, Ready, Propagated, Guarded, SettledCount;
  }

  // ---- A cancel that the worker has seen ----

  lemma SeenMoves(w: Workflow, s: State, e: Event, s': State)
    requires Next(w, s, e, s')
    ensures s'.seen == s.seen || s'.seen == s.status || s'.seen == s'.status
  {
    hide Next;
    match e
    case Section(t) => SeenInSection(w, s, t, s');
    case Attempt(t) => NextAttempt(w, s, t, s');
    case Return(t, outcome) => NextReturn(w, s, t, outcome, s');
    case Wake(t) => NextWake(w, s, t, s');
    case Head =>
      NextHead(w, s, s');
      HeadCases(w, s, s');
      hide HeadStep, Ready, AllPredsSkipped, MarkSkipped, Guarded;
    case Finish => NextFinish(w, s, s');
    case Enter(t) => NextLight(w, s, e, s');
    case CheckCancelled(t) => NextLight(w, s, e, s');
    case Lock(t) => NextLight(w, s, e, s');
    case _ => SeenOutside(w, s, e, s');
  }

  lemma SeenInSection(w: Workflow, s: State, t: TaskId, s': State)
    requires Next(w, s, Section(t), s')
    ensures s'.seen == s.seen
  {
    hide Next, Loser, MergedInput, AvailableOutputs, MarkSkipped, RowOf;
    NextSection(w, s, t, s');
  }

  lemma SeenOutside(w: Workflow, s: State, e: Event, s': State)
    requires Next(w, s, e, s') && (e.Dispatch? || e.Cancel? || e.Retry? || e.EndWave?)
    ensures s'.seen == s.seen || s'.seen == s'.status
  {
    hide CompletedRows, SkippedRows, RecordedOutputs, CancelRows, ResetRows;
  }

  lemma SeenIsStatus(w: Workflow, v: Verdicts, s: State)
    requires Inv(w, v, s)
    ensures s.seen.Cancelled? ==> s.status.Cancelled?
  {
    hide RowsOk, BranchesPruned, CoroutinesOk, SetsOk, LocksOk;
  }

  /** Once the worker has seen the cancel, no coroutine calls its handler again, not even to use up its attempts. */
  lemma {:induction false} SeenCancelStopsCalls(w: Workflow, v: Verdicts, es: seq<Event>, ss: seq<State>, i: nat,
      j: nat, t: TaskId)
    requires Setting(w, v) && Trace(w, es, ss) && i <= j < |ss| && ss[i].seen.Cancelled?
    ensures CallCount(es, ss, i, j, t) == 0 && ss[j].seen.Cancelled? && ss[j].status.Cancelled?
    decreases j
  {
    hide Setting, Inv, Next;
    RunKeeps(w, v, es, ss, j);
    SeenIsStatus(w, v, ss[j]);
    if i < j {
      SeenCancelStopsCalls(w, v, es, ss, i, j - 1, t);
      var s, e, s' := ss[j - 1], es[j - 1], ss[j];
      assert Next(w, s, e, ss[j - 1 + 1]);
      SeenMoves(w, s, e, s');
      StatusStep(w, s, e, s');
      if e == Attempt(t) { SeenCancelEndsTask(w, s, t, s'); }
    }
  }

  lemma SeenCancelEndsTask(w: Workflow, s: State, t: TaskId, s': State)
    requires Next(w, s, Attempt(t), s') && s.seen.Cancelled?
    ensures t in s'.pcs && s'.pcs[t] == Ending(false)
  {
    hide Next, RowOf;
    NextAttempt(w, s, t, s');
  }
}
