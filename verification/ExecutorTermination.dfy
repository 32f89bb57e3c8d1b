/** No worker step but an idle poll can be repeated for ever, and until the run is over one is enabled. */
module ExecutorTermination {
  import opened Options
  import opened Graphs
  import opened Workflows
  import opened StateMachine
  import opened Executor
  import opened ExecutorInvariant
  import opened ExecutorTheorems
  import opened ExecutorProgress

  // ---- Sums over a map ----

  ghost function Sum(m: map<TaskId, nat>): nat {
    if m == map[] then 0
    else
      var k :| k in m;
      m[k] + Sum(m - {k})
  }

  lemma {:induction false} SumRemove(m: map<TaskId, nat>, k: TaskId)
    requires k in m
    ensures Sum(m) == m[k] + Sum(m - {k})
    decreases |m|
  {
    var j :| j in m && Sum(m) == m[j] + Sum(m - {j});
    if j != k {
      SumRemove(m - {j}, k);
      SumRemove(m - {k}, j);
      assert m - {j} - {k} == m - {k} - {j};
    }
  }

  lemma SumDrops(m: map<TaskId, nat>, m': map<TaskId, nat>, t: TaskId)
    requires m.Keys == m'.Keys && t in m && m'[t] < m[t]
    requires forall u | u in m && u != t :: m'[u] == m[u]
    ensures Sum(m') < Sum(m)
  {
    SumRemove(m, t);
    SumRemove(m', t);
    assert m - {t} == m' - {t};
  }

  // ---- The measure ----

  /** Attempts a row has left after the current one. */
  function Spare(r: Row): nat {
    if r.attempt < r.maxAttempts then r.maxAttempts - r.attempt else 0
  }

  /** Steps a coroutine can still take. */
  function Weight(pc: Pc, r: Row, hasLock: bool): nat {
    var held := if hasLock then 1 else 0;
    match pc
    case Waiting => 12 + 3 * Spare(r)
    case Entered => 11 + 3 * Spare(r)
    case Checked => 10 + 3 * Spare(r) - held
    case Fetching => 8 + 3 * Spare(r) - held
    case Trying(_) => 6 + 3 * Spare(r)
    case Invoking(_) => 5 + 3 * Spare(r)
    case Sleeping(_) => 4 + 3 * Spare(r)
    case Ending(_) => 4 - held
    case Pruning(_) => 2 - held
    case Finished => 0
  }

  function Weights(w: Workflow, s: State): map<TaskId, nat>
    requires Typed(w, s)
  {
    map t | t in s.pcs :: Weight(s.pcs[t], RowOf(w, s.rows, t), s.glock == Some(t))
  }

  /** 1 while the run may still start tasks. */
  function Live(s: State): nat {
    if s.failed || s.status.Cancelled? then 0 else 1
  }

  function Unstarted(w: Workflow, s: State): set<TaskId> {
    w.Nodes() - s.completed - s.skipped - s.pcs.Keys
  }

  function LiveUnstarted(w: Workflow, s: State): nat {
    if Live(s) == 1 then |Unstarted(w, s)| else 0
  }

  function PhaseRank(s: State): nat {
    match s.phase
    case Wave => 3
    case LoopHead => 2
    case AfterLoop => 1
    case Off => 0
  }

  /** The lexicographic order on (Live, LiveUnstarted, PhaseRank, total weight), which is well-founded. */
  ghost predicate Closer(w: Workflow, s: State, s': State)
    requires Typed(w, s) && Typed(w, s')
  {
    (Live(s), LiveUnstarted(w, s), PhaseRank(s), Sum(Weights(w, s)) decreases to
     Live(s'), LiveUnstarted(w, s'), PhaseRank(s'), Sum(Weights(w, s')))
  }

  /** Closer, on the four numbers. */
  lemma CloserWhen(w: Workflow, s: State, s': State)
    requires Typed(w, s) && Typed(w, s')
    requires Live(s') < Live(s) || (Live(s') == Live(s) &&
               (LiveUnstarted(w, s') < LiveUnstarted(w, s) || (LiveUnstarted(w, s') == LiveUnstarted(w, s) &&
                 (PhaseRank(s') < PhaseRank(s) || (PhaseRank(s') == PhaseRank(s) &&
                   Sum(Weights(w, s')) < Sum(Weights(w, s)))))))
    ensures Closer(w, s, s')
  {
    hide Live, LiveUnstarted, PhaseRank, Sum, Weights, Typed;
  }

  /** A poll of the loop head that starts, skips and ends nothing. */
  ghost predicate IdlePoll(s: State, e: Event, s': State) {
    e.Head? && s' == s.(seen := s.status)
  }

  // ---- Coroutine steps ----

  /** Apart from `t`, every coroutine keeps its counter, its row and its hold on glock. */
  ghost predicate Local(w: Workflow, s: State, s': State, t: TaskId)
    requires Typed(w, s)
  {
    && t in s.pcs && s'.pcs.Keys == s.pcs.Keys && s'.phase == s.phase
    && s'.status == s.status && s.completed <= s'.completed && s.skipped <= s'.skipped && (s.failed ==> s'.failed)
    && forall u | u in s.pcs && u != t ::
         && s'.pcs[u] == s.pcs[u] && (s'.glock == Some(u) <==> s.glock == Some(u))
         && (u in s'.rows <==> u in s.rows) && (u in s.rows ==> s'.rows[u] == s.rows[u])
  }

  ghost predicate Lighter(w: Workflow, s: State, s': State, t: TaskId)
    requires Typed(w, s)
  {
    && t in s.pcs && t in s'.pcs
    && Weight(s'.pcs[t], RowOf(w, s'.rows, t), s'.glock == Some(t)) <
        Weight(s.pcs[t], RowOf(w, s.rows, t), s.glock == Some(t))
  }

  lemma LightStepIsLocal(w: Workflow, s: State, e: Event, s': State)
    requires Typed(w, s) && Next(w, s, e, s') && (e.Enter? || e.CheckCancelled? || e.Lock?)
    ensures Local(w, s, s', e.t)
  {
    hide Next, CanTransition;
    NextLight(w, s, e, s');
  }

  lemma RowStepIsLocal(w: Workflow, s: State, e: Event, s': State)
    requires Typed(w, s) && Next(w, s, e, s') && (e.Attempt? || e.Return? || e.Wake?)
    ensures Local(w, s, s', e.t)
  {
    hide Next, RowOf;
    match e
    case Attempt(t) => NextAttempt(w, s, t, s');
    case Return(t, outcome) => NextReturn(w, s, t, outcome, s');
    case Wake(t) => NextWake(w, s, t, s');
  }

  lemma RecordingIsLocal(w: Workflow, s: State, t: TaskId, s': State)
    requires Typed(w, s) && Next(w, s, Section(t), s') && s.pcs[t].Ending?
    ensures Local(w, s, s', t)
  {
    hide Next, Loser, RowOf, Typed;
    NextSection(w, s, t, s');
  }

  lemma SectionIsLocal(w: Workflow, s: State, t: TaskId, s': State)
    requires Typed(w, s) && Next(w, s, Section(t), s') && !s.pcs[t].Pruning?
    ensures Local(w, s, s', t)
  {
    if s.pcs[t].Ending? {
      hide *;
      RecordingIsLocal(w, s, t, s');
    } else {
      hide Next, Loser, AvailableOutputs, MergedInput, RowOf, SkipStep, RecordStep, Typed;
      NextSection(w, s, t, s');
    }
  }

  lemma PruningIsLocal(w: Workflow, s: State, t: TaskId, s': State)
    requires Typed(w, s) && Next(w, s, Section(t), s') && s.pcs[t].Pruning? && s.pcs[t].target !in s.pcs
    ensures Local(w, s, s', t)
  {
    hide Next, RecordStep, AvailableOutputs, MergedInput, RowOf;
    NextSection(w, s, t, s');
  }

  lemma LightStepIsLighter(w: Workflow, s: State, e: Event, s': State)
    requires Typed(w, s) && Next(w, s, e, s') && (e.Enter? || e.CheckCancelled? || e.Lock?)
    ensures Lighter(w, s, s', e.t)
  {
    hide Next, Spare;
    NextLight(w, s, e, s');
  }

  lemma AttemptIsLighter(w: Workflow, s: State, t: TaskId, s': State)
    requires Typed(w, s) && Next(w, s, Attempt(t), s')
    ensures Lighter(w, s, s', t)
  {
    hide Next;
    NextAttempt(w, s, t, s');
  }

  lemma ReturnIsLighter(w: Workflow, s: State, t: TaskId, outcome: Outcome, s': State)
    requires Typed(w, s) && Next(w, s, Return(t, outcome), s')
    ensures Lighter(w, s, s', t)
  {
    hide Next;
    NextReturn(w, s, t, outcome, s');
  }

  lemma WakeIsLighter(w: Workflow, s: State, t: TaskId, s': State)
    requires Typed(w, s) && Next(w, s, Wake(t), s') && RowOf(w, s.rows, t).attempt < RowOf(w, s.rows, t).maxAttempts
    ensures Lighter(w, s, s', t)
  {
    hide Next;
    NextWake(w, s, t, s');
  }

  lemma SectionIsLighter(w: Workflow, s: State, t: TaskId, s': State)
    requires Typed(w, s) && Next(w, s, Section(t), s')
    ensures Lighter(w, s, s', t)
  {
    hide Next, Loser, AvailableOutputs, MergedInput, Spare, MarkSkipped;
    NextSection(w, s, t, s');
  }

  lemma SleeperHasAttempts(w: Workflow, v: Verdicts, s: State, t: TaskId)
    requires Setting(w, v) && Inv(w, v, s) && s.phase.Wave? && t in s.pcs && s.pcs[t].Sleeping?
    ensures t in s.rows && s.rows[t].attempt < s.rows[t].maxAttempts
  {
    hide Inv, Setting;
    AtCoroutine(w, v, s, t);
  }

  lemma PrunedIsNoCoroutine(w: Workflow, v: Verdicts, s: State, t: TaskId)
    requires Setting(w, v) && Inv(w, v, s) && s.phase.Wave? && t in s.pcs && s.pcs[t].Pruning?
    ensures s.pcs[t].target !in s.pcs
  {
    hide Inv, Setting, Rule, Loser;
    AtCoroutine(w, v, s, t);
    LoserIsPruned(w, v, t, s.pcs[t].target);
    SkipKeeps(w, v, s, {s.pcs[t].target});
  }

  lemma OwnStepDropsWeight(w: Workflow, v: Verdicts, s: State, e: Event, s': State)
    requires Setting(w, v) && Inv(w, v, s) && Typed(w, s) && Next(w, s, e, s') && OwnEvent(e)
    ensures Local(w, s, s', e.t) && Lighter(w, s, s', e.t)
  {
    hide Inv, Setting, Local, Lighter, SectionStep, AttemptStep, ReturnStep, WakeStep, CheckStep;
    if e.Section? {
      if s.pcs[e.t].Pruning? {
        PrunedIsNoCoroutine(w, v, s, e.t);
        PruningIsLocal(w, s, e.t, s');
      } else {
        SectionIsLocal(w, s, e.t, s');
      }
      SectionIsLighter(w, s, e.t, s');
    } else {
      if e.Attempt? || e.Return? || e.Wake? { RowStepIsLocal(w, s, e, s'); } else { LightStepIsLocal(w, s, e, s'); }
      if e.Wake? { SleeperHasAttempts(w, v, s, e.t); }
      match e
      case Attempt(t) => AttemptIsLighter(w, s, t, s');
      case Return(t, outcome) => ReturnIsLighter(w, s, t, outcome, s');
      case Wake(t) => WakeIsLighter(w, s, t, s');
      case _ => LightStepIsLighter(w, s, e, s');
    }
  }

  lemma SumDropsWithLocal(w: Workflow, s: State, s': State, t: TaskId)
    requires Typed(w, s) && Typed(w, s') && Local(w, s, s', t) && Lighter(w, s, s', t)
    ensures Sum(Weights(w, s')) < Sum(Weights(w, s))
  {
    hide Weight, Sum;
    SumDrops(Weights(w, s), Weights(w, s'), t);
  }

  lemma CoroutineStepIsCloser(w: Workflow, v: Verdicts, s: State, e: Event, s': State)
    requires Setting(w, v) && Inv(w, v, s) && Next(w, s, e, s') && OwnEvent(e)
    ensures Typed(w, s) && Typed(w, s') && Closer(w, s, s')
  {
    hide Inv, Setting, Next, Weight, Sum, Closer, Lighter;
    InvIsTyped(w, v, s);
    OwnStepDropsWeight(w, v, s, e, s');
    SubsetSize(Unstarted(w, s'), Unstarted(w, s));
    SumDropsWithLocal(w, s, s', e.t);
    hide Weights, Unstarted;
    CloserWhen(w, s, s');
  }

  // ---- Loop steps ----

  lemma EndWaveKeepsUnstarted(w: Workflow, v: Verdicts, s: State, s': State)
    requires Setting(w, v) && Inv(w, v, s) && Next(w, s, EndWave, s') && Live(s) == 1
    ensures Unstarted(w, s') == Unstarted(w, s)
  {
    hide Rule, Loser, BranchesPruned, LocksOk, StatusOk, RowsOk;
    forall t | t in s.pcs ensures t in s.completed { assert CoroutineOk(w, v, s, t); }
  }

  lemma NewlySettledShrinks(w: Workflow, s: State, s': State, t: TaskId)
    requires s.pcs == map[] && s.completed <= s'.completed && s.skipped <= s'.skipped
    requires t in w.Nodes() && t !in s.completed && t !in s.skipped
    requires t in s'.completed || t in s'.skipped || t in s'.pcs
    ensures |Unstarted(w, s')| < |Unstarted(w, s)|
  {
    assert t in Unstarted(w, s) && t !in Unstarted(w, s') && Unstarted(w, s') <= Unstarted(w, s);
    SubsetSize(Unstarted(w, s'), Unstarted(w, s) - {t});
  }

  lemma HeadStartsOrSkips(w: Workflow, s: State, s': State) returns (t: TaskId)
    requires w.tasks.Keys == w.Nodes() && s.phase.LoopHead? && s' == HeadStep(w, s) && s' != s.(seen := s.status)
    requires s'.phase.Wave? || s'.phase.LoopHead?
    ensures s.completed <= s'.completed && s.skipped <= s'.skipped
    ensures t in w.Nodes() && t !in s.completed && t !in s.skipped
    ensures t in s'.skipped || t in s'.pcs
  {
    hide HeadStep, Propagated, Ready, MarkSkipped;
    HeadCases(w, s, s');
    PropagatedInBrief(w, s.(seen := s.status));
    var more := AllPredsSkipped(w.graph, s.completed, s.skipped);
    if more != {} {
      t :| t in more;
    } else {
      var ready := Ready(w.graph, s.completed, s.skipped);
      t :| t in ready;
      ReadyAreUnsettled(w.graph, s.completed, s.skipped);
    }
  }

  lemma ReadyAreUnsettled(g: Graph, completed: set<TaskId>, skipped: set<TaskId>)
    ensures forall t | t in Ready(g, completed, skipped) :: t in g.nodes && t !in completed && t !in skipped
  {
  }

  /** Each turn of the loop that starts or skips anything leaves fewer unstarted tasks. */
  lemma ProductiveRoundsAreFew(w: Workflow, v: Verdicts, s: State, s': State)
    requires Setting(w, v) && Inv(w, v, s) && Next(w, s, Head, s') && !IdlePoll(s, Head, s')
    requires s'.phase.Wave? || s'.phase.LoopHead?
    ensures |Unstarted(w, s')| < |Unstarted(w, s)| <= |w.Nodes()|
  {
    hide Rule, Loser, HeadStep, Setting;
    SubsetSize(Unstarted(w, s), w.Nodes());
    var t := HeadStartsOrSkips(w, s, s');
    NewlySettledShrinks(w, s, s', t);
  }

  lemma DeadHeadLeaves(w: Workflow, s: State, s': State)
    requires w.tasks.Keys == w.Nodes() && s.phase.LoopHead? && s' == HeadStep(w, s) && Live(s) == 0
    ensures Live(s') == 0 && PhaseRank(s') < PhaseRank(s) && s'.pcs == s.pcs
  {
    HeadCases(w, s, s');
    hide HeadStep, Propagated, Ready, StartWave;
  }

  lemma LiveHead(w: Workflow, s: State, s': State)
    requires w.tasks.Keys == w.Nodes() && s.phase.LoopHead? && s' == HeadStep(w, s) && Live(s) == 1
    ensures Live(s') == 1 && s.completed <= s'.completed && s.skipped <= s'.skipped
    ensures s'.phase.AfterLoop? ==> s'.pcs == s.pcs
    ensures s'.phase.Wave? || s'.phase.LoopHead? || s'.phase.AfterLoop?
  {
    HeadCases(w, s, s');
    PropagatedInBrief(w, s.(seen := s.status));
    hide HeadStep, Propagated, Ready, AllPredsSkipped, MarkSkipped;
  }

  lemma HeadIsAlone(w: Workflow, v: Verdicts, s: State)
    requires Inv(w, v, s) && s.phase.LoopHead?
    ensures s.pcs == map[]
  {
  }

  lemma NoneStarted(w: Workflow, s: State, s': State)
    requires s.completed <= s'.completed && s.skipped <= s'.skipped && s'.pcs == s.pcs
    ensures |Unstarted(w, s')| <= |Unstarted(w, s)|
  {
    SubsetSize(Unstarted(w, s'), Unstarted(w, s));
  }

  lemma LiveHeadCounts(w: Workflow, v: Verdicts, s: State, s': State)
    requires Setting(w, v) && Inv(w, v, s) && Next(w, s, Head, s') && !IdlePoll(s, Head, s') && Live(s) == 1
    ensures Live(s') == 1
    ensures |Unstarted(w, s')| < |Unstarted(w, s)| ||
            (|Unstarted(w, s')| == |Unstarted(w, s)| && PhaseRank(s') < PhaseRank(s))
  {
    hide Inv, Setting, Next, HeadStep, IdlePoll, Live, Unstarted;
    NextHead(w, s, s');
    HeadIsAlone(w, v, s);
    LiveHead(w, s, s');
    if s'.phase.AfterLoop? {
      NoneStarted(w, s, s');
    } else {
      ProductiveRoundsAreFew(w, v, s, s');
    }
  }

  lemma HeadIsCloser(w: Workflow, v: Verdicts, s: State, s': State)
    requires Setting(w, v) && Inv(w, v, s) && Typed(w, s) && Typed(w, s')
    requires Next(w, s, Head, s') && !IdlePoll(s, Head, s')
    ensures Closer(w, s, s')
  {
    hide Inv, Setting, Next, HeadStep, Sum, Weights, IdlePoll, Closer, Unstarted, PhaseRank, Typed;
    NextHead(w, s, s');
    if Live(s) == 0 {
      DeadHeadLeaves(w, s, s');
    } else {
      LiveHeadCounts(w, v, s, s');
    }
    CloserWhen(w, s, s');
  }

  lemma EndWaveIsCloser(w: Workflow, v: Verdicts, s: State, s': State)
    requires Setting(w, v) && Inv(w, v, s) && Typed(w, s) && Next(w, s, EndWave, s')
    ensures Typed(w, s') && Closer(w, s, s')
  {
    hide Inv, Setting, Sum, Weights, Unstarted, Closer;
    if Live(s) == 1 { EndWaveKeepsUnstarted(w, v, s, s'); }
    CloserWhen(w, s, s');
  }

  lemma FinishInBrief(w: Workflow, s: State, s': State)
    requires Typed(w, s) && Next(w, s, Finish, s')
    ensures s.phase.AfterLoop? && s'.phase.Off? && Live(s') <= Live(s)
    ensures s'.completed == s.completed && s'.skipped == s.skipped && s'.pcs == s.pcs
  {
    hide Next, CanTransition;
    NextFinish(w, s, s');
  }

  lemma FinishIsCloser(w: Workflow, s: State, s': State)
    requires Typed(w, s) && Typed(w, s') && Next(w, s, Finish, s')
    ensures Closer(w, s, s')
  {
    hide Sum, Weights, Next, Closer;
    FinishInBrief(w, s, s');
    assert Unstarted(w, s') == Unstarted(w, s);
    CloserWhen(w, s, s');
  }

  /** Every worker step but an idle poll moves down a well-founded order. */
  lemma WorkerStepIsCloser(w: Workflow, v: Verdicts, s: State, e: Event, s': State)
    requires Setting(w, v) && Inv(w, v, s) && Next(w, s, e, s') && OfWorker(e) && !IdlePoll(s, e, s')
    ensures Typed(w, s) && Typed(w, s') && Closer(w, s, s')
  {
    hide Inv, Setting, Next, Closer, IdlePoll;
    StepKeeps(w, v, s, e, s');
    InvIsTyped(w, v, s);
    InvIsTyped(w, v, s');
    match e
    case Head => HeadIsCloser(w, v, s, s');
    case EndWave => EndWaveIsCloser(w, v, s, s');
    case Finish => FinishIsCloser(w, s, s');
    case _ => CoroutineStepIsCloser(w, v, s, e, s');
  }

  // ---- A run has few productive rounds ----

  /** A turn of the loop that starts a wave or skips something, and stays in the loop. */
  ghost predicate Productive(s: State, e: Event, s': State) {
    e.Head? && (s'.phase.Wave? || s'.phase.LoopHead?) && !IdlePoll(s, e, s')
  }

  ghost function ProductiveRounds(es: seq<Event>, ss: seq<State>, i: nat, j: nat): nat
    requires i <= j < |ss| && |ss| == |es| + 1
  {
    if i == j then 0
    else ProductiveRounds(es, ss, i, j - 1) + if Productive(ss[j - 1], es[j - 1], ss[j]) then 1 else 0
  }

  lemma CloserStartsNoMore(w: Workflow, s: State, s': State)
    requires Typed(w, s) && Typed(w, s') && Closer(w, s, s')
    ensures LiveUnstarted(w, s') <= LiveUnstarted(w, s)
  {
    hide Sum, Weights, Unstarted, Typed;
  }

  lemma ProductiveStartsFewer(w: Workflow, v: Verdicts, s: State, e: Event, s': State)
    requires Setting(w, v) && Inv(w, v, s) && Next(w, s, e, s') && Productive(s, e, s')
    ensures LiveUnstarted(w, s') < LiveUnstarted(w, s)
  {
    hide Inv, Setting, Next, HeadStep, Unstarted, Typed;
    NextHead(w, s, s');
    if Live(s) == 0 {
      DeadHeadLeaves(w, s, s');
    } else {
      LiveHead(w, s, s');
      ProductiveRoundsAreFew(w, v, s, s');
    }
  }

  lemma CancelStartsNoMore(w: Workflow, s: State, s': State)
    requires s' == CancelStep(s)
    ensures LiveUnstarted(w, s') <= LiveUnstarted(w, s)
  {
    hide CancelRows;
    assert Unstarted(w, s') == Unstarted(w, s);
    hide Unstarted;
  }

  lemma StepStartsNoMore(w: Workflow, v: Verdicts, s: State, e: Event, s': State)
    requires Setting(w, v) && Inv(w, v, s) && Next(w, s, e, s') && (OfWorker(e) || e.Cancel?)
    ensures LiveUnstarted(w, s') + (if Productive(s, e, s') then 1 else 0) <= LiveUnstarted(w, s)
  {
    hide Inv, Setting, Next, Closer;
    if Productive(s, e, s') {
      ProductiveStartsFewer(w, v, s, e, s');
    } else if e.Cancel? {
      NextCancel(w, s, s');
      CancelStartsNoMore(w, s, s');
    } else if !IdlePoll(s, e, s') {
      WorkerStepIsCloser(w, v, s, e, s');
      CloserStartsNoMore(w, s, s');
    }
  }

  lemma StartsAreFew(w: Workflow, s: State)
    ensures LiveUnstarted(w, s) <= |w.Nodes()|
  {
    SubsetSize(Unstarted(w, s), w.Nodes());
  }

  /**
   Between its start and the next call that starts or retries it, a run has at most as many productive
   rounds as there are tasks, however its coroutines interleave and whenever it is cancelled.
   */
  lemma {:induction false} RunsHaveFewRounds(w: Workflow, v: Verdicts, es: seq<Event>, ss: seq<State>, i: nat, j: nat)
    requires Setting(w, v) && Trace(w, es, ss) && i <= j < |ss|
    requires forall k | i <= k < j :: OfWorker(es[k]) || es[k].Cancel?
    ensures ProductiveRounds(es, ss, i, j) + LiveUnstarted(w, ss[j]) <= LiveUnstarted(w, ss[i]) <= |w.Nodes()|
    decreases j
  {
    hide Setting, Inv, Next, Productive, LiveUnstarted, OfWorker;
    StartsAreFew(w, ss[i]);
    if i < j {
      RunsHaveFewRounds(w, v, es, ss, i, j - 1);
      RunKeeps(w, v, es, ss, j - 1);
      assert Next(w, ss[j - 1], es[j - 1], ss[j - 1 + 1]);
      StepStartsNoMore(w, v, ss[j - 1], es[j - 1], ss[j]);
    }
  }

  // ---- No deadlock ----

  lemma PermitsFreeWithoutHolders(w: Workflow, v: Verdicts, s: State)
    requires Inv(w, v, s) && s.phase.Wave? && w.maxConcurrent > 0 && Holders(s.pcs) == {}
    ensures s.permits > 0
  {
  }

  lemma LockOwnerWantsLock(w: Workflow, v: Verdicts, s: State)
    requires Inv(w, v, s) && s.phase.Wave? && s.glock.Some?
    ensures s.glock.value in s.pcs && WantsLock(s.pcs[s.glock.value])
  {
  }

  /**
   With at least one permit, a worker whose run is not over always has a step to take: taking the
   semaphore first and glock second cannot deadlock. (A handler that runs may take its time; its
   step is the return.)
   */
  lemma WorkerIsNeverStuck(w: Workflow, v: Verdicts, s: State) returns (e: Event)
    requires Setting(w, v) && Inv(w, v, s) && !s.phase.Off? && w.maxConcurrent > 0
    ensures OfWorker(e) && Enabled(w, s, e) && (e.Return? ==> e.outcome.Success?)
  {
    hide Inv, Setting;
    if s.phase.LoopHead? { e := Head; return; }
    if s.phase.AfterLoop? { e := Finish; return; }
    if s.glock.Some? {
      LockOwnerWantsLock(w, v, s);
      e := Section(s.glock.value);
    } else if Holders(s.pcs) != {} {
      var t :| t in Holders(s.pcs);
      e := match s.pcs[t]
           case Entered => CheckCancelled(t)
           case Trying(_) => Attempt(t)
           case Invoking(_) => Return(t, Success)
           case Sleeping(_) => Wake(t)
           case _ => Lock(t);
    } else if t :| t in s.pcs && !s.pcs[t].Finished? {
      PermitsFreeWithoutHolders(w, v, s);
      assert t !in Holders(s.pcs);
      e := Enter(t);
    } else {
      e := EndWave;
    }
  }
}
