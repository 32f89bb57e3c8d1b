/** Without conditions the waves of a run are the generations of the graph. */
module ExecutorWaves {
  import opened Options
  import opened Graphs
  import opened Workflows
  import opened StateMachine
  import opened Executor
  import opened ExecutorInvariant
  import opened ExecutorTheorems
  import opened ExecutorTermination

  ghost predicate Unconditional(w: Workflow) {
    forall c, x :: !MayPrune(w, c, x)
  }

  /** After k waves exactly the first k generations are done; the wave under way is the next one. */
  ghost predicate AtWave(w: Workflow, s: State, k: nat) {
    && (forall t :: !Skip(s.rows, t))
    && (forall t | t in Before(w.graph, k) :: Done(s.rows, t))
    && (!s.phase.Wave? ==> forall t | Done(s.rows, t) :: t in Before(w.graph, k))
    && (s.phase.Wave? ==> s.pcs.Keys == Frontier(w.graph, Before(w.graph, k)) && s.pcs.Keys != {}
                          && forall t | Done(s.rows, t) :: t in Before(w.graph, k) + s.pcs.Keys)
  }

  /** Neither failed nor cancelled. */
  ghost predicate Healthy(s: State) {
    !s.failed && !s.status.Cancelled?
  }

  lemma NothingIsSkipped(w: Workflow, v: Verdicts, s: State)
    requires Setting(w, v) && Inv(w, v, s) && Unconditional(w)
    ensures forall t :: !Skip(s.rows, t)
  {
    hide Inv;
    var r := AcyclicHasRank(w.graph);
    forall t ensures !Skip(s.rows, t) {
      if Skip(s.rows, t) {
        SkippedIsPruned(w, v, s, t);
        SkippedIsNode(w, v, s, t);
        WithoutConditionsAllRun(w, v, r, t);
      }
    }
  }

  lemma SkippedIsNode(w: Workflow, v: Verdicts, s: State, t: TaskId)
    requires Inv(w, v, s) && Skip(s.rows, t)
    ensures t in w.Nodes()
  {
    hide Inv;
    RowAt(w, v, s, t);
  }

  lemma SectionKeepsDone(w: Workflow, s: State, t: TaskId, s': State, u: TaskId)
    requires Next(w, s, Section(t), s') && Done(s'.rows, u)
    ensures Done(s.rows, u) || u in s.pcs
  {
    hide Next, Loser, MergedInput, AvailableOutputs, RowOf;
    NextSection(w, s, t, s');
  }

  lemma CoroutineStepKeepsDone(w: Workflow, s: State, e: Event, s': State, u: TaskId)
    requires Next(w, s, e, s') && OwnEvent(e) && Done(s'.rows, u)
    ensures Done(s.rows, u) || u in s.pcs
  {
    hide Next, SectionStep, RowOf;
    match e
    case Section(t) => SectionKeepsDone(w, s, t, s', u);
    case Attempt(t) => NextAttempt(w, s, t, s');
    case Return(t, outcome) => NextReturn(w, s, t, outcome, s');
    case Wake(t) => NextWake(w, s, t, s');
    case _ => NextLight(w, s, e, s');
  }

  lemma CoroutineStepKeepsWave(w: Workflow, v: Verdicts, s: State, e: Event, s': State, k: nat)
    requires Setting(w, v) && Inv(w, v, s) && Next(w, s, e, s') && OwnEvent(e) && AtWave(w, s, k) && s.phase.Wave?
    requires forall t :: !Skip(s'.rows, t)
    ensures AtWave(w, s', k)
  {
    hide Inv, Setting, Next, Before, Frontier, Lighter;
    InvIsTyped(w, v, s);
    OwnStepDropsWeight(w, v, s, e, s');
    forall t ensures Done(s.rows, t) ==> Done(s'.rows, t) { SettledRowsStay(w, v, s, e, s', t); }
    forall t | Done(s'.rows, t) ensures Done(s.rows, t) || t in s.pcs { CoroutineStepKeepsDone(w, s, e, s', t); }
  }

  lemma HeadSets(w: Workflow, v: Verdicts, s: State, k: nat)
    requires Setting(w, v) && Inv(w, v, s) && s.phase.LoopHead? && AtWave(w, s, k)
    ensures s.skipped == {} && s.completed == Before(w.graph, k)
  {
    hide Rule, Loser, RowsOk, BranchesPruned, CoroutinesOk, LocksOk, StatusOk, Before;
  }

  /** With nothing skipped there is nothing to propagate, and ready means next in line. */
  lemma ReadyIsFrontier(g: Graph, done: set<TaskId>)
    ensures AllPredsSkipped(g, done, {}) == {} && Ready(g, done, {}) == Frontier(g, done)
  {
  }

  /** At the head the ready tasks are the next generation. */
  lemma HeadStartsNextGeneration(w: Workflow, v: Verdicts, s: State, s': State, k: nat)
    requires Setting(w, v) && Inv(w, v, s) && Next(w, s, Head, s') && AtWave(w, s, k)
    ensures s'.phase.Wave? ==> s'.pcs.Keys == Frontier(w.graph, Before(w.graph, k)) && s'.pcs.Keys != {}
    ensures s'.rows == s.rows
  {
    hide Inv, Setting, AtWave, Guarded, Frontier, Before;
    HeadSets(w, v, s, k);
    ReadyIsFrontier(w.graph, s.completed);
    HeadCases(w, s, s');
    PropagatedInBrief(w, s.(seen := s.status));
    hide HeadStep, Propagated, Ready, AllPredsSkipped, MarkSkipped;
  }

  lemma EndWaveFinishesGeneration(w: Workflow, v: Verdicts, s: State, s': State, k: nat)
    requires Setting(w, v) && Inv(w, v, s) && Next(w, s, EndWave, s') && AtWave(w, s, k) && Healthy(s)
    ensures AtWave(w, s', k + 1)
  {
    hide Rule, Loser, RowsOk, BranchesPruned, SetsOk, LocksOk, StatusOk, Frontier;
    assert Before(w.graph, k + 1) == Before(w.graph, k) + s.pcs.Keys;
    forall t | t in s.pcs ensures Done(s.rows, t) { assert CoroutineOk(w, v, s, t); }
  }

  lemma QuietStepKeepsWave(w: Workflow, s: State, s': State, k: nat)
    requires AtWave(w, s, k) && !s.phase.Wave? && !s'.phase.Wave?
    requires forall t :: Done(s'.rows, t) <==> Done(s.rows, t)
    requires forall t :: !Skip(s'.rows, t)
    ensures AtWave(w, s', k)
  {
    hide Before;
  }

  lemma OutsideKeepsDone(w: Workflow, s: State, e: Event, s': State)
    requires Next(w, s, e, s') && (e.Dispatch? || e.Finish?)
    ensures !s.phase.Wave? && !s'.phase.Wave?
    ensures forall t :: Done(s'.rows, t) <==> Done(s.rows, t)
  {
    hide Guarded;
  }

  lemma RetryKeepsWave(w: Workflow, s: State, s': State, k: nat)
    requires Next(w, s, Retry, s') && AtWave(w, s, k)
    ensures AtWave(w, s', k)
  {
    hide Before, Frontier;
    forall t ensures (Done(s'.rows, t) <==> Done(s.rows, t)) && (Skip(s'.rows, t) <==> Skip(s.rows, t)) {}
  }

  lemma StepKeepsWave(w: Workflow, v: Verdicts, s: State, e: Event, s': State, k: nat)
    requires Setting(w, v) && Unconditional(w) && Inv(w, v, s) && Inv(w, v, s') && Next(w, s, e, s')
    requires AtWave(w, s, k) && Healthy(s) && !e.Cancel?
    ensures AtWave(w, s', if e.EndWave? then k + 1 else k)
  {
    hide Inv, Setting, Next, Before, Frontier;
    NothingIsSkipped(w, v, s');
    if e.EndWave? {
      EndWaveFinishesGeneration(w, v, s, s', k);
    } else if OwnEvent(e) {
      CoroutineIsInWave(w, s, e, s');
      CoroutineStepKeepsWave(w, v, s, e, s', k);
    } else if e.Head? {
      NextHead(w, s, s');
      HeadStartsNextGeneration(w, v, s, s', k);
    } else if e.Retry? {
      RetryKeepsWave(w, s, s', k);
    } else {
      OutsideKeepsDone(w, s, e, s');
      QuietStepKeepsWave(w, s, s', k);
    }
  }

  /** Waves ended among the first i events. */
  ghost function WavesEnded(es: seq<Event>, i: nat): nat
    requires i <= |es|
  {
    if i == 0 then 0 else WavesEnded(es, i - 1) + (if es[i - 1].EndWave? then 1 else 0)
  }

  lemma {:induction false} RunKeepsWave(w: Workflow, v: Verdicts, es: seq<Event>, ss: seq<State>, i: nat)
    requires Setting(w, v) && Unconditional(w) && Trace(w, es, ss) && i < |ss|
    requires forall j | 0 <= j < |ss| :: Healthy(ss[j])
    ensures AtWave(w, ss[i], WavesEnded(es, i))
  {
    hide Setting, Inv, Next, AtWave, Healthy, Unconditional;
    if i == 0 {
      FreshRunAtWave(w);
    } else {
      RunKeepsWave(w, v, es, ss, i - 1);
      RunKeeps(w, v, es, ss, i - 1);
      RunKeeps(w, v, es, ss, i);
      assert Next(w, ss[i - 1], es[i - 1], ss[i - 1 + 1]);
      assert Healthy(ss[i - 1]) && Healthy(ss[i]);
      if es[i - 1].Cancel? {
        HarmlessCancelKeepsWave(w, ss[i - 1], ss[i], WavesEnded(es, i - 1));
      } else {
        StepKeepsWave(w, v, ss[i - 1], es[i - 1], ss[i], WavesEnded(es, i - 1));
      }
    }
  }

  lemma FreshRunAtWave(w: Workflow)
    ensures AtWave(w, Triggered(w), 0)
  {
  }

  /** A cancel that comes too late to take effect still sweeps rows, but none that is settled. */
  lemma HarmlessCancelKeepsWave(w: Workflow, s: State, s': State, k: nat)
    requires Next(w, s, Cancel, s') && AtWave(w, s, k)
    ensures AtWave(w, s', k)
  {
    hide Before, Frontier, Guarded;
    forall t ensures (Done(s'.rows, t) <==> Done(s.rows, t)) && (Skip(s'.rows, t) <==> Skip(s.rows, t)) {}
  }

  /**
   In a run with no condition tasks that never fails or is cancelled, the coroutines of the k-th wave
   are exactly the k-th generation of get_execution_order.
   */
  lemma WavesAreGenerations(w: Workflow, v: Verdicts, es: seq<Event>, ss: seq<State>, i: nat)
    requires Setting(w, v) && Unconditional(w) && Trace(w, es, ss) && i < |ss| && ss[i].phase.Wave?
    requires forall j | 0 <= j < |ss| :: Healthy(ss[j])
    ensures WavesEnded(es, i) < |Generations(w.graph)|
    ensures ss[i].pcs.Keys == Generations(w.graph)[WavesEnded(es, i)]
  {
    hide Setting, Frontier, Before, Unconditional, Healthy, Generations;
    RunKeepsWave(w, v, es, ss, i);
    assert Frontier(w.graph, Before(w.graph, WavesEnded(es, i))) == ss[i].pcs.Keys;
    NonemptyFrontierIsGeneration(w.graph, WavesEnded(es, i));
  }
}
