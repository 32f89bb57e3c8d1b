/** When a run ends and how: Completed is in reach exactly when no task is blocked. */
module ExecutorCompletion {
  import opened Options
  import opened Graphs
  import opened Workflows
  import opened StateMachine
  import opened Executor
  import opened ExecutorInvariant
  import opened ExecutorTheorems
  import opened ExecutorProgress
  import opened ExecutorTermination

  ghost predicate Unblocked(v: Verdicts) {
    forall n | n in v :: !v[n].Blocked?
  }

  // ---- Idle polls ----

  lemma IdleIsQuiescent(w: Workflow, s: State, s': State)
    requires Next(w, s, Head, s') && IdlePoll(s, Head, s')
    ensures Quiescent(w, s) && !s.failed && !s.status.Cancelled?
  {
    hide Next;
    NextHead(w, s, s');
    HeadCases(w, s, s');
    PropagatedInBrief(w, s.(seen := s.status));
    hide HeadStep, Propagated, Ready, MarkSkipped, Guarded;
    FreshSkips(w.graph, s.completed, s.skipped);
  }

  lemma FreshSkips(g: Graph, completed: set<TaskId>, skipped: set<TaskId>)
    ensures AllPredsSkipped(g, completed, skipped) !! skipped
    ensures skipped + AllPredsSkipped(g, completed, skipped) == skipped ==> AllPredsSkipped(g, completed, skipped) == {}
  {
    var more := AllPredsSkipped(g, completed, skipped);
    assert more <= skipped + more;
  }

  /** A turn of the loop is an idle poll exactly when nothing is left to start or skip and a task is blocked. */
  lemma IdleIffBlocked(w: Workflow, v: Verdicts, s: State, s': State)
    requires Setting(w, v) && Inv(w, v, s) && Next(w, s, Head, s')
    ensures IdlePoll(s, Head, s') <==> !s.failed && !s.status.Cancelled? && Quiescent(w, s) && !Unblocked(v)
  {
    NextHead(w, s, s');
    VerdictsAreNodes(w, v);
    hide Inv, Setting, Next, HeadStep, Quiescent;
    if IdlePoll(s, Head, s') { IdleIsQuiescent(w, s, s'); }
    if !s.failed && !s.status.Cancelled? && Quiescent(w, s) { QuiescentHead(w, v, s); }
  }

  lemma VerdictsAreNodes(w: Workflow, v: Verdicts)
    requires Setting(w, v)
    ensures v.Keys == w.Nodes()
  {
  }

  lemma WorkerAtHead(w: Workflow, s: State, e: Event, s': State)
    requires Next(w, s, e, s') && OfWorker(e) && s.phase.LoopHead?
    ensures e == Head
  {
    hide Apply;
  }

  /** Once a blocked task is all that is left, nothing changes any more, until a call comes from outside. */
  lemma {:induction false} BlockedRunPolls(w: Workflow, v: Verdicts, es: seq<Event>, ss: seq<State>, i: nat, j: nat)
    requires Setting(w, v) && Trace(w, es, ss) && i <= j < |ss| && !Unblocked(v)
    requires ss[i].phase.LoopHead? && !ss[i].failed && !ss[i].status.Cancelled? && Quiescent(w, ss[i])
    requires forall k | i <= k < j :: OfWorker(es[k])
    ensures ss[j] == ss[i].(seen := ss[j].seen)
  {
    hide Setting, Inv, Next, Unblocked, OfWorker;
    if i < j {
      BlockedRunPolls(w, v, es, ss, i, j - 1);
      RunKeeps(w, v, es, ss, j - 1);
      assert Next(w, ss[j - 1], es[j - 1], ss[j - 1 + 1]);
      WorkerAtHead(w, ss[j - 1], es[j - 1], ss[j]);
      IdleIffBlocked(w, v, ss[j - 1], ss[j]);
    }
  }

  // ---- Healthy runs ----

  /** While nothing has failed, a Running worker goes on or completes. */
  lemma HealthyStep(w: Workflow, s: State, e: Event, s': State)
    requires Next(w, s, e, s') && OfWorker(e) && !s.phase.Off? && s.status.Running? && !s.failed && !s'.failed
    ensures if s'.phase.Off? then s'.status.Completed? else s'.status.Running?
  {
    hide Next;
    match e
    case Head =>
      NextHead(w, s, s');
      HeadCases(w, s, s');
      hide HeadStep, Ready, AllPredsSkipped, MarkSkipped, Guarded;
    case Finish =>
      NextFinish(w, s, s');
    case EndWave =>
      EndWaveInBrief(w, s, s');
    case _ =>
      CoroutinesLeaveStatus(w, s, e, s');
  }

  lemma EndWaveInBrief(w: Workflow, s: State, s': State)
    requires Next(w, s, EndWave, s')
    ensures s'.status == s.status && !s'.phase.Off? && s'.failed == s.failed && s'.pcs == map[]
  {
  }

  /** Running, with nothing failed and no coroutine about to report a failure. */
  ghost predicate Hopeful(s: State) {
    !s.phase.Off? && s.status.Running? && !s.failed && forall t | t in s.pcs :: s.pcs[t] != Ending(false)
  }

  /** Hopeful, or Completed already. */
  ghost predicate OnTrack(s: State) {
    Hopeful(s) || (s.phase.Off? && s.status.Completed?)
  }

  lemma AttemptsRemain(w: Workflow, v: Verdicts, s: State, t: TaskId)
    requires Setting(w, v) && Inv(w, v, s) && s.phase.Wave? && t in s.pcs && s.pcs[t].Trying? && !s.status.Cancelled?
    ensures t in s.rows && s.rows[t].attempt <= s.rows[t].maxAttempts && !s.seen.Cancelled?
  {
    hide Rule, Loser, BranchesPruned, LocksOk, SetsOk;
    assert CoroutineOk(w, v, s, t);
    assert RowOk(w, v, s.rows[t], t);
  }

  /** A coroutine whose handler only succeeds reports no failure. */
  lemma SuccessStaysHopeful(w: Workflow, v: Verdicts, s: State, e: Event, s': State)
    requires Setting(w, v) && Inv(w, v, s) && Hopeful(s) && Next(w, s, e, s') && OwnEvent(e)
    requires e.Return? ==> e.outcome.Success?
    ensures !s'.failed && forall t | t in s'.pcs :: s'.pcs[t] != Ending(false)
  {
    hide Next, Inv, Setting, Loser, MergedInput, AvailableOutputs, MarkSkipped, RowOf;
    match e
    case Section(t) => NextSection(w, s, t, s');
    case Attempt(t) =>
      NextAttempt(w, s, t, s');
      AttemptsRemain(w, v, s, t);
      KnownRow(w, s.rows, t);
    case Return(t, outcome) => NextReturn(w, s, t, outcome, s');
    case Wake(t) => NextWake(w, s, t, s');
    case _ => NextLight(w, s, e, s');
  }

  lemma KnownRow(w: Workflow, rows: map<TaskId, Row>, t: TaskId)
    requires t in rows && t in w.tasks
    ensures RowOf(w, rows, t) == rows[t]
  {
  }

  lemma LoopStaysHopeful(w: Workflow, s: State, e: Event, s': State)
    requires Hopeful(s) && Next(w, s, e, s') && (e.Head? || e.EndWave? || e.Finish?)
    ensures !s'.failed && (e.Finish? || forall t | t in s'.pcs :: s'.pcs[t] != Ending(false))
  {
    hide Next;
    if e.Head? {
      NextHead(w, s, s');
      HeadCases(w, s, s');
      hide HeadStep, Ready, AllPredsSkipped, MarkSkipped, Guarded;
    } else if e.EndWave? {
      EndWaveInBrief(w, s, s');
    } else {
      NextFinish(w, s, s');
    }
  }

  lemma HopefulStep(w: Workflow, v: Verdicts, s: State, e: Event, s': State)
    requires Setting(w, v) && Inv(w, v, s) && Hopeful(s) && Next(w, s, e, s') && OfWorker(e)
    requires e.Return? ==> e.outcome.Success?
    ensures OnTrack(s')
  {
    hide Inv, Setting, Next;
    if OwnEvent(e) {
      SuccessStaysHopeful(w, v, s, e, s');
    } else {
      LoopStaysHopeful(w, s, e, s');
    }
    HealthyStep(w, s, e, s');
    if e.Finish? { NextFinish(w, s, s'); }
  }

  lemma WorkerNeverCancels(w: Workflow, s: State, e: Event, s': State)
    requires Next(w, s, e, s') && OfWorker(e) && !s.status.Cancelled?
    ensures !s'.status.Cancelled?
  {
    hide Next;
    match e
    case Head =>
      NextHead(w, s, s');
      HeadCases(w, s, s');
      hide HeadStep, Ready, AllPredsSkipped, MarkSkipped;
    case Finish =>
      NextFinish(w, s, s');
    case EndWave =>
      EndWaveInBrief(w, s, s');
    case _ =>
      CoroutinesLeaveStatus(w, s, e, s');
  }

  // ---- Every run of an unblocked workflow ends ----

  /** No worker step of an unblocked workflow idles, so every one of them descends. */
  lemma UnblockedStepIsCloser(w: Workflow, v: Verdicts, s: State, e: Event, s': State)
    requires Setting(w, v) && Unblocked(v) && Inv(w, v, s) && Next(w, s, e, s') && OfWorker(e)
    ensures Inv(w, v, s') && Typed(w, s) && Typed(w, s') && Closer(w, s, s')
  {
    hide Setting, Inv, Next, Closer, Unblocked;
    if e.Head? { IdleIffBlocked(w, v, s, s'); }
    WorkerStepIsCloser(w, v, s, e, s');
    StepKeeps(w, v, s, e, s');
  }

  /**
   Whatever the schedule and the outcomes, an endless supply of worker steps runs out: some state is Off.
   If the run was Running at first and never failed, it is Completed there.
   */
  lemma {:induction false} UnblockedRunsEnd(w: Workflow, v: Verdicts, es: nat -> Event, ss: nat -> State, i: nat)
    returns (n: nat)
    requires Setting(w, v) && Unblocked(v) && Inv(w, v, ss(i)) && Typed(w, ss(i)) && !ss(i).phase.Off?
    requires forall k | i <= k && !ss(k).phase.Off? :: Next(w, ss(k), es(k), ss(k + 1)) && OfWorker(es(k))
    ensures n > i && ss(n).phase.Off? && forall k | i <= k < n :: !ss(k).phase.Off?
    ensures ss(i).status.Running? && (forall k | i <= k <= n :: !ss(k).failed) ==> ss(n).status.Completed?
    decreases Live(ss(i)), LiveUnstarted(w, ss(i)), PhaseRank(ss(i)), Sum(Weights(w, ss(i)))
  {
    hide Setting, Inv, Next, Unblocked, Live, LiveUnstarted, PhaseRank, Sum, Weights, Typed;
    assert Next(w, ss(i), es(i), ss(i + 1)) && OfWorker(es(i));
    UnblockedStepIsCloser(w, v, ss(i), es(i), ss(i + 1));
    if ss(i + 1).phase.Off? {
      n := i + 1;
    } else {
      n := UnblockedRunsEnd(w, v, es, ss, i + 1);
    }
    if ss(i).status.Running? && !ss(i).failed && !ss(i + 1).failed {
      HealthyStep(w, ss(i), es(i), ss(i + 1));
    }
  }

  // ---- Completed is in reach ----

  /** `es'`, `ss'` continue the run. */
  ghost predicate Extends(w: Workflow, es: seq<Event>, ss: seq<State>, es': seq<Event>, ss': seq<State>) {
    Trace(w, es', ss') && es <= es' && ss <= ss'
  }

  /** ... and leave it Completed. */
  ghost predicate Completes(w: Workflow, es: seq<Event>, ss: seq<State>, es': seq<Event>, ss': seq<State>) {
    Extends(w, es, ss, es', ss') && |ss'| > 0 && ss'[|ss'| - 1].status.Completed?
  }

  ghost predicate ByWorker(es: seq<Event>, i: nat) {
    forall k | i <= k < |es| :: OfWorker(es[k])
  }

  /** From any state of an unblocked workflow its worker can end the run, and a hopeful one ends Completed. */
  lemma {:induction false} RunToEnd(w: Workflow, v: Verdicts, es: seq<Event>, ss: seq<State>)
    returns (es': seq<Event>, ss': seq<State>)
    requires Setting(w, v) && Unblocked(v) && w.maxConcurrent > 0 && Trace(w, es, ss) && Typed(w, ss[|es|])
    ensures Extends(w, es, ss, es', ss') && ByWorker(es', |es|) && Typed(w, ss'[|es'|]) && ss'[|es'|].phase.Off?
    ensures OnTrack(ss[|es|]) ==> ss'[|es'|].status.Completed?
    ensures !ss[|es|].status.Cancelled? ==> !ss'[|es'|].status.Cancelled?
    decreases Live(ss[|es|]), LiveUnstarted(w, ss[|es|]), PhaseRank(ss[|es|]), Sum(Weights(w, ss[|es|]))
  {
    TraceLength(w, es, ss);
    hide *;
    if ss[|es|].phase.Off? {
      es', ss' := es, ss;
      NoExtension(w, es, ss);
    } else {
      var es1, ss1 := GoOn(w, v, es, ss);
      CloserDescends(w, ss[|es|], ss1[|es1|]);
      es', ss' := RunToEnd(w, v, es1, ss1);
      ExtendsOne(w, es, ss, es1, ss1, es', ss');
    }
  }

  lemma TraceLength(w: Workflow, es: seq<Event>, ss: seq<State>)
    requires Trace(w, es, ss)
    ensures |ss| == |es| + 1
  {
    hide Next;
  }

  lemma NoExtension(w: Workflow, es: seq<Event>, ss: seq<State>)
    requires Trace(w, es, ss)
    ensures Extends(w, es, ss, es, ss) && ByWorker(es, |es|)
    ensures ss[|es|].phase.Off? && OnTrack(ss[|es|]) ==> ss[|es|].status.Completed?
  {
    hide Next;
  }

  lemma ExtendsOne(w: Workflow, es: seq<Event>, ss: seq<State>, es1: seq<Event>, ss1: seq<State>, es': seq<Event>,
      ss': seq<State>)
    requires es <= es1 && ss <= ss1 && |es1| == |es| + 1 && OfWorker(es1[|es|])
    requires Extends(w, es1, ss1, es', ss') && ByWorker(es', |es1|)
    ensures Extends(w, es, ss, es', ss') && ByWorker(es', |es|)
  {
    hide Trace;
    assert es'[|es|] == es1[|es|];
  }

  lemma CloserDescends(w: Workflow, s: State, s': State)
    requires Typed(w, s) && Typed(w, s') && Closer(w, s, s')
    ensures (Live(s), LiveUnstarted(w, s), PhaseRank(s), Sum(Weights(w, s)) decreases to
             Live(s'), LiveUnstarted(w, s'), PhaseRank(s'), Sum(Weights(w, s')))
  {
    hide Live, LiveUnstarted, PhaseRank, Sum, Weights, Typed;
  }

  /** One step of that run. */
  lemma GoOn(w: Workflow, v: Verdicts, es: seq<Event>, ss: seq<State>) returns (es1: seq<Event>, ss1: seq<State>)
    requires Setting(w, v) && Unblocked(v) && w.maxConcurrent > 0 && Trace(w, es, ss)
    requires Typed(w, ss[|es|]) && !ss[|es|].phase.Off?
    ensures Trace(w, es1, ss1) && |es1| == |es| + 1 && |ss1| == |ss| + 1 && |ss| == |es| + 1
    ensures es <= es1 && ss <= ss1 && OfWorker(es1[|es|]) && Typed(w, ss1[|es1|]) && Closer(w, ss[|es|], ss1[|es1|])
    ensures OnTrack(ss[|es|]) ==> OnTrack(ss1[|es1|])
    ensures !ss[|es|].status.Cancelled? ==> !ss1[|es1|].status.Cancelled?
  {
    var s := ss[|es|];
    RunKeeps(w, v, es, ss, |es|);
    hide Setting, Inv, Unblocked, Closer, Hopeful, Apply, Enabled, Typed, OfWorker, Trace;
    var e := WorkerIsNeverStuck(w, v, s);
    var next := Apply(w, s, e);
    UnblockedStepIsCloser(w, v, s, e, next);
    if Hopeful(s) { HopefulStep(w, v, s, e, next); }
    if !s.status.Cancelled? { WorkerNeverCancels(w, s, e, next); }
    TraceGrows(w, es, ss, e, next);
    es1, ss1 := es + [e], ss + [next];
  }

  /**
   From a hopeful state the worker can complete the execution if and only if no task is blocked. No
   retry, dispatch or cancel is needed, and for the other half none helps.
   */
  lemma WorkerCompletesIff(w: Workflow, v: Verdicts, es: seq<Event>, ss: seq<State>)
    requires Setting(w, v) && w.maxConcurrent > 0 && Trace(w, es, ss) && Hopeful(ss[|es|])
    ensures (exists es', ss' :: Completes(w, es, ss, es', ss') && ByWorker(es', |es|))
       <==> Unblocked(v)
  {
    hide Setting, Next;
    if Unblocked(v) {
      LastIsTyped(w, v, es, ss);
      var es', ss' := RunToEnd(w, v, es, ss);
      assert Completes(w, es, ss, es', ss');
    } else {
      forall es', ss' ensures !Completes(w, es, ss, es', ss') {
        if Extends(w, es, ss, es', ss') { BlockedStaysOpen(w, v, es', ss'); }
      }
    }
  }

  lemma LastIsTyped(w: Workflow, v: Verdicts, es: seq<Event>, ss: seq<State>)
    requires Setting(w, v) && Trace(w, es, ss)
    ensures Typed(w, ss[|es|]) && Inv(w, v, ss[|es|])
  {
    RunKeeps(w, v, es, ss, |es|);
    InvIsTyped(w, v, ss[|es|]);
  }

  lemma BlockedStaysOpen(w: Workflow, v: Verdicts, es: seq<Event>, ss: seq<State>)
    requires Setting(w, v) && Trace(w, es, ss) && !Unblocked(v)
    ensures !ss[|ss| - 1].status.Completed?
  {
    VerdictsAreNodes(w, v);
    var n :| n in v && v[n].Blocked?;
    hide Setting, Next;
    BlockedNeverCompletes(w, v, es, ss, n);
  }

  /** A retry, if the status asks for one, and a new start bring an execution that is Off back on track. */
  lemma Restart(w: Workflow, v: Verdicts, es: seq<Event>, ss: seq<State>) returns (es': seq<Event>, ss': seq<State>)
    requires Setting(w, v) && Trace(w, es, ss) && Typed(w, ss[|es|])
    requires ss[|es|].phase.Off? && !ss[|es|].status.Cancelled?
    ensures Extends(w, es, ss, es', ss') && OnTrack(ss'[|es'|]) && Typed(w, ss'[|es'|])
  {
    TraceLength(w, es, ss);
    es', ss' := es, ss;
    hide Trace, Setting;
    var s := ss[|es|];
    if s.status.Failed? || s.status.TimedOut? {
      RetryReopens(w, s);
      TraceGrows(w, es', ss', Retry, RetryStep(s));
      es', ss', s := es' + [Retry], ss' + [RetryStep(s)], RetryStep(s);
    }
    if !s.status.Completed? {
      DispatchRestarts(w, s);
      TraceGrows(w, es', ss', Dispatch, DispatchStep(w, s));
      es', ss' := es' + [Dispatch], ss' + [DispatchStep(w, s)];
    }
  }

  lemma RetryReopens(w: Workflow, s: State)
    requires Typed(w, s) && (s.status.Failed? || s.status.TimedOut?)
    ensures var s' := RetryStep(s); Next(w, s, Retry, s') && Typed(w, s') && s'.status.Pending? && s'.phase == s.phase
  {
    hide ResetRows;
  }

  lemma DispatchRestarts(w: Workflow, s: State)
    requires Typed(w, s) && s.phase.Off? && (s.status.Pending? || s.status.Running?)
    ensures var s' := DispatchStep(w, s); Next(w, s, Dispatch, s') && Typed(w, s') && Hopeful(s')
  {
    hide CompletedRows, SkippedRows, RecordedOutputs;
  }

  /**
   In every reachable state that is not Cancelled, whatever has failed before, Completed is in reach if
   and only if no task is blocked.
   */
  lemma CompletedInReachIff(w: Workflow, v: Verdicts, es: seq<Event>, ss: seq<State>)
    requires Setting(w, v) && w.maxConcurrent > 0 && Trace(w, es, ss) && !ss[|es|].status.Cancelled?
    ensures (exists es', ss' :: Completes(w, es, ss, es', ss')) <==> Unblocked(v)
  {
    hide Setting, Next, Hopeful;
    if Unblocked(v) {
      LastIsTyped(w, v, es, ss);
      var es1, ss1 := RunToEnd(w, v, es, ss);
      var es2, ss2 := Restart(w, v, es1, ss1);
      var es3, ss3 := RunToEnd(w, v, es2, ss2);
      assert Completes(w, es, ss, es3, ss3);
    } else {
      forall es', ss' ensures !Completes(w, es, ss, es', ss') {
        if Extends(w, es, ss, es', ss') { BlockedStaysOpen(w, v, es', ss'); }
      }
    }
  }
}
