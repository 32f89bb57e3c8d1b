/** What a committed cancel still lets the worker do. */
module ExecutorCancel {
  import opened Options
  import opened Graphs
  import opened Workflows
  import opened StateMachine
  import opened Executor
  import opened ExecutorInvariant
  import opened ExecutorTheorems
  import opened ExecutorTermination

  /** Past the check of line 96, with the outcome still to be recorded or its pruning to be done. */
  predicate PastCheck(pc: Pc) {
    !pc.Waiting? && !pc.Entered? && !pc.Finished?
  }

  /** Handler calls that the counter and the row of a coroutine still allow. */
  function CallsLeft(pc: Pc, r: Row): nat {
    var spare := if r.attempt < r.maxAttempts then r.maxAttempts - r.attempt else 0;
    match pc
    case Checked => spare + 1
    case Fetching => spare + 1
    case Trying(_) => spare + 1
    case Invoking(_) => spare
    case Sleeping(_) => spare
    case _ => 0
  }

  function Remaining(w: Workflow, s: State, t: TaskId): nat {
    if t in s.pcs && t in w.tasks then CallsLeft(s.pcs[t], RowOf(w, s.rows, t)) else 0
  }

  /** Does this step call the handler of `t`? */
  predicate Calls(s: State, e: Event, s': State, t: TaskId) {
    e == Attempt(t) && t in s'.pcs && s'.pcs[t].Invoking?
  }

  lemma SectionSpendsCalls(w: Workflow, v: Verdicts, s: State, t: TaskId, s': State)
    requires Next(w, s, Section(t), s')
    ensures Remaining(w, s', t) <= Remaining(w, s, t)
  {
    hide Next, Loser, MergedInput, AvailableOutputs, SkipStep;
    NextSection(w, s, t, s');
  }

  lemma CoroutineSpendsCalls(w: Workflow, v: Verdicts, s: State, e: Event, s': State, t: TaskId)
    requires Setting(w, v) && Inv(w, v, s) && s.status.Cancelled? && Next(w, s, e, s') && OwnEvent(e) && e.t == t
    requires t in s.pcs && s.phase.Wave?
    ensures Remaining(w, s', t) + (if Calls(s, e, s', t) then 1 else 0) <= Remaining(w, s, t)
  {
    hide Inv, Setting, Next, SectionStep;
    AtCoroutine(w, v, s, t);
    match e
    case Section(_) => SectionSpendsCalls(w, v, s, t, s');
    case Attempt(_) => NextAttempt(w, s, t, s');
    case Return(_, outcome) => NextReturn(w, s, t, outcome, s');
    case Wake(_) => NextWake(w, s, t, s');
    case _ => NextLight(w, s, e, s');
  }

  lemma OthersKeepCalls(w: Workflow, v: Verdicts, s: State, e: Event, s': State, t: TaskId)
    requires Setting(w, v) && Inv(w, v, s) && Next(w, s, e, s') && OwnEvent(e) && e.t != t
    ensures Remaining(w, s', t) <= Remaining(w, s, t) && !Calls(s, e, s', t)
  {
    hide Inv, Setting, Next, CallsLeft, Lighter;
    InvIsTyped(w, v, s);
    OwnStepDropsWeight(w, v, s, e, s');
  }

  lemma LoopSpendsNothing(w: Workflow, v: Verdicts, s: State, e: Event, s': State, t: TaskId)
    requires s.status.Cancelled? && Next(w, s, e, s') && OfWorker(e) && !OwnEvent(e)
    requires !s.phase.Wave? ==> s.pcs == map[]
    ensures Remaining(w, s', t) <= Remaining(w, s, t) && !Calls(s, e, s', t)
  {
    hide MarkSkipped, Ready, CallsLeft, Guarded;
  }

  lemma CallsFromOutsideSpendNothing(w: Workflow, s: State, e: Event, s': State, t: TaskId)
    requires s.status.Cancelled? && Next(w, s, e, s') && !OfWorker(e)
    requires !s.phase.Wave? ==> s.pcs == map[]
    ensures Remaining(w, s', t) <= Remaining(w, s, t) && !Calls(s, e, s', t)
  {
    hide Guarded;
  }

  lemma WaveOrAlone(w: Workflow, v: Verdicts, s: State)
    requires Inv(w, v, s)
    ensures !s.phase.Wave? ==> s.pcs == map[]
  {
  }

  lemma CancelledStep(w: Workflow, v: Verdicts, s: State, e: Event, s': State, t: TaskId)
    requires Setting(w, v) && Inv(w, v, s) && s.status.Cancelled? && Next(w, s, e, s')
    ensures s'.status.Cancelled?
    ensures Remaining(w, s', t) + (if Calls(s, e, s', t) then 1 else 0) <= Remaining(w, s, t)
  {
    hide Inv, Setting, Next, Remaining, Calls;
    StatusStep(w, s, e, s');
    WaveOrAlone(w, v, s);
    if !OfWorker(e) {
      CallsFromOutsideSpendNothing(w, s, e, s', t);
    } else if !OwnEvent(e) {
      LoopSpendsNothing(w, v, s, e, s', t);
    } else if e.t == t {
      CoroutineIsInWave(w, s, e, s');
      CoroutineSpendsCalls(w, v, s, e, s', t);
    } else {
      OthersKeepCalls(w, v, s, e, s', t);
    }
  }

  /** Handler calls of `t` among the steps from `i` to `j`. */
  ghost function CallCount(es: seq<Event>, ss: seq<State>, i: nat, j: nat, t: TaskId): nat
    requires i <= j < |ss| && |ss| == |es| + 1
    decreases j
  {
    if i == j then 0
    else CallCount(es, ss, i, j - 1, t) + (if Calls(ss[j - 1], es[j - 1], ss[j], t) then 1 else 0)
  }

  /**
   From the commit of Cancelled on, the status stays Cancelled, so no run goes on to write Completed or
   Failed, and each task is called at most as often as its remaining attempts allow.
   */
  lemma {:induction false} CancelBoundsCalls(w: Workflow, v: Verdicts, es: seq<Event>, ss: seq<State>, i: nat,
      j: nat, t: TaskId)
    requires Setting(w, v) && Trace(w, es, ss) && i <= j < |ss| && ss[i].status.Cancelled?
    ensures ss[j].status.Cancelled?
    ensures CallCount(es, ss, i, j, t) + Remaining(w, ss[j], t) <= Remaining(w, ss[i], t)
    decreases j
  {
    hide Setting, Inv, Next, Remaining, Calls;
    if i < j {
      CancelBoundsCalls(w, v, es, ss, i, j - 1, t);
      RunKeeps(w, v, es, ss, j - 1);
      assert Next(w, ss[j - 1], es[j - 1], ss[j - 1 + 1]);
      CancelledStep(w, v, ss[j - 1], es[j - 1], ss[j], t);
    }
  }

  /** A task that had not passed the check is not called at all after the cancel. */
  lemma UncheckedTasksAreNotCalled(w: Workflow, v: Verdicts, es: seq<Event>, ss: seq<State>, i: nat, j: nat, t: TaskId)
    requires Setting(w, v) && Trace(w, es, ss) && i <= j < |ss| && ss[i].status.Cancelled?
    requires t in ss[i].pcs ==> !PastCheck(ss[i].pcs[t])
    ensures CallCount(es, ss, i, j, t) == 0
  {
    hide Setting;
    CancelBoundsCalls(w, v, es, ss, i, j, t);
  }

  /** At most `maxConcurrent` tasks can still be called, each at most its `maxAttempts` times. */
  lemma FewTasksMayBeCalled(w: Workflow, v: Verdicts, es: seq<Event>, ss: seq<State>, i: nat)
    requires Setting(w, v) && Trace(w, es, ss) && i < |ss|
    ensures |MayBeCalled(w, ss[i])| <= w.maxConcurrent
    ensures forall t | t in ss[i].pcs && t in w.tasks :: Remaining(w, ss[i], t) <= RowOf(w, ss[i].rows, t).maxAttempts
  {
    hide Setting, Inv, Trace, Remaining, RowOf;
    RunKeeps(w, v, es, ss, i);
    CalledHold(w, ss[i]);
    HoldersAreFew(w, v, ss[i]);
    forall t | t in ss[i].pcs && t in w.tasks ensures Remaining(w, ss[i], t) <= RowOf(w, ss[i].rows, t).maxAttempts {
      CallsAreBounded(w, v, ss[i], t);
    }
  }

  ghost function MayBeCalled(w: Workflow, s: State): set<TaskId> {
    set t | t in s.pcs && Remaining(w, s, t) > 0
  }

  /** The tasks called from state i to state j. */
  ghost function CalledTasks(w: Workflow, es: seq<Event>, ss: seq<State>, i: nat, j: nat): set<TaskId>
    requires i <= j < |ss| && |ss| == |es| + 1
  {
    set t | t in w.Nodes() && CallCount(es, ss, i, j, t) > 0
  }

  /**
   However long the run goes on after the cancel, at most `maxConcurrent` tasks are called in it, each at
   most its `maxAttempts` times.
   */
  lemma FewTasksAreStillCalled(w: Workflow, v: Verdicts, es: seq<Event>, ss: seq<State>, i: nat, j: nat)
    requires Setting(w, v) && Trace(w, es, ss) && i <= j < |ss| && ss[i].status.Cancelled?
    ensures |CalledTasks(w, es, ss, i, j)| <= w.maxConcurrent
    ensures forall t | t in CalledTasks(w, es, ss, i, j) ::
              t in w.tasks && CallCount(es, ss, i, j, t) <= RowOf(w, ss[i].rows, t).maxAttempts
  {
    FewTasksMayBeCalled(w, v, es, ss, i);
    hide Setting, Remaining, RowOf;
    forall t | t in CalledTasks(w, es, ss, i, j)
      ensures t in MayBeCalled(w, ss[i]) && t in w.tasks
      ensures CallCount(es, ss, i, j, t) <= RowOf(w, ss[i].rows, t).maxAttempts
    {
      CancelBoundsCalls(w, v, es, ss, i, j, t);
      RemainingIsInWave(w, ss[i], t);
    }
    SubsetSize(CalledTasks(w, es, ss, i, j), MayBeCalled(w, ss[i]));
  }

  lemma RemainingIsInWave(w: Workflow, s: State, t: TaskId)
    requires Remaining(w, s, t) > 0
    ensures t in s.pcs && t in w.tasks
  {
  }

  lemma CalledHold(w: Workflow, s: State)
    ensures |MayBeCalled(w, s)| <= |Holders(s.pcs)|
  {
    SubsetSize(MayBeCalled(w, s), Holders(s.pcs));
  }

  lemma CallsAreBounded(w: Workflow, v: Verdicts, s: State, t: TaskId)
    requires Inv(w, v, s) && t in s.pcs && t in w.tasks
    ensures Remaining(w, s, t) <= RowOf(w, s.rows, t).maxAttempts
  {
    hide Inv;
    if t in s.rows { RowAt(w, v, s, t); }
  }

  lemma HoldersAreFew(w: Workflow, v: Verdicts, s: State)
    requires Inv(w, v, s)
    ensures |Holders(s.pcs)| <= w.maxConcurrent
  {
    hide RowsOk, BranchesPruned, CoroutinesOk, StatusOk, SetsOk;
    if s.phase.Off? { assert Holders(s.pcs) == {}; }
  }
}
