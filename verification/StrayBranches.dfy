/**
 Why branch targets must be descendants of their condition: with a target beside its condition instead
 of below it, the loop's counting guard is fooled, and a run completes without its chosen branch.
 */
module StrayBranches {
  import opened Options
  import opened Graphs
  import opened Workflows
  import opened StateMachine
  import opened Executor

  /** "gate" leads to "chosen" and may also prune "beside", a root of its own. */
  function Stray(): Workflow {
    Workflow(
      Graph({"gate", "beside", "chosen"}, {("gate", "chosen")}),
      map["gate" := TaskSpec(true, "beside", "chosen", 1),
          "beside" := TaskSpec(false, "", "", 1),
          "chosen" := TaskSpec(false, "", "", 1)],
      map[], (t, input) => None, 2, false)
  }

  lemma StrayFacts()
    ensures var w := Stray();
            && w.tasks.Keys == w.Nodes() == {"gate", "beside", "chosen"} && |w.Nodes()| == 3
            && w.Preds("gate") == {} == w.Preds("beside") && w.Preds("chosen") == {"gate"}
            && Loser(w, "gate", None) == Some("beside") && Loser(w, "beside", None) == None
            && Acyclic(w.graph) && w.graph.Valid() && MayPrune(w, "gate", "beside") && !BranchesDescend(w)
  {
    var w := Stray();
    var r: map<TaskId, nat> := map["gate" := 0, "beside" := 0, "chosen" := 1];
    assert IsRank(w.graph, r);
    RankedIsAcyclic(w.graph, r);
    if Ancestor(w.graph, "gate", "beside") { AncestorRank(w.graph, r, "gate", "beside"); }
    assert w.Preds("chosen") == {"gate"};
    assert |{"gate", "beside", "chosen"}| == 3;
  }

  /** Append one step to a run. */
  lemma Do(w: Workflow, es: seq<Event>, ss: seq<State>, e: Event) returns (es': seq<Event>, ss': seq<State>)
    requires Trace(w, es, ss) && Typed(w, ss[|es|]) && Enabled(w, ss[|es|], e)
    ensures Trace(w, es', ss') && |ss'| == |es'| + 1 && ss'[|es'|] == Apply(w, ss[|es|], e)
  {
    hide Apply, Enabled, Typed;
    TraceGrows(w, es, ss, e, Apply(w, ss[|es|], e));
    es', ss' := es + [e], ss + [Apply(w, ss[|es|], e)];
  }

  /** A wave in which nothing went wrong and `t` is about to start; it has not been tried before. */
  ghost predicate Fresh(w: Workflow, s: State, t: TaskId) {
    && Typed(w, s) && s.phase.Wave? && s.status.Running? && s.permits > 0 && s.glock.None?
    && t in s.pcs && t in w.tasks && s.pcs[t].Waiting? && t !in s.rows && t !in s.completed && t !in s.skipped
  }

  function InputIn(w: Workflow, s: State, t: TaskId): Object {
    MergedInput(w.input, AvailableOutputs(w, s.taskOutputs, t))
  }

  /** The coroutine of `t` up to the retry loop. */
  lemma Prepare(w: Workflow, es: seq<Event>, ss: seq<State>, t: TaskId) returns (es': seq<Event>, ss': seq<State>)
    requires Trace(w, es, ss) && |ss| == |es| + 1 && Fresh(w, ss[|es|], t)
    ensures Trace(w, es', ss') && |ss'| == |es'| + 1
    ensures var s, s' := ss[|es|], ss'[|es'|];
            s' == s.(seen := s.status, rows := s.rows[t := RowOf(w, s.rows, t)],
                     pcs := s.pcs[t := Trying(InputIn(w, s, t))], permits := s.permits - 1)
  {
    hide Trace, MergedInput, AvailableOutputs, RowOf;
    es', ss' := Do(w, es, ss, Enter(t));
    es', ss' := Do(w, es', ss', CheckCancelled(t));
    es', ss' := Do(w, es', ss', Lock(t));
    es', ss' := Do(w, es', ss', Section(t));
    es', ss' := Do(w, es', ss', Lock(t));
    es', ss' := Do(w, es', ss', Section(t));
  }

  /** Its first attempt succeeds ... */
  lemma Succeed(w: Workflow, es: seq<Event>, ss: seq<State>, t: TaskId) returns (es': seq<Event>, ss': seq<State>)
    requires Trace(w, es, ss) && |ss| == |es| + 1 && Typed(w, ss[|es|]) && t in w.tasks
    requires var s := ss[|es|];
             && s.phase.Wave? && s.seen.Running? && t in s.pcs && s.pcs[t].Trying?
             && t in s.rows && s.rows[t].attempt <= s.rows[t].maxAttempts
    ensures Trace(w, es', ss') && |ss'| == |es'| + 1
    ensures var s, s' := ss[|es|], ss'[|es'|];
            && t in s'.rows && s'.rows[t].output == w.result(t, s.pcs[t].input)
            && s' == s.(rows := s.rows[t := s'.rows[t]], pcs := s.pcs[t := Ending(true)])
  {
    hide Trace, HeadStep, SectionStep, CheckStep, DispatchStep, CancelStep, RetryStep, FinishStep;
    es', ss' := Do(w, es, ss, Attempt(t));
    es', ss' := Do(w, es', ss', Return(t, Success));
  }

  /** ... and is recorded. */
  lemma Record(w: Workflow, es: seq<Event>, ss: seq<State>, t: TaskId) returns (es': seq<Event>, ss': seq<State>)
    requires Trace(w, es, ss) && |ss| == |es| + 1 && Typed(w, ss[|es|]) && t in w.tasks
    requires var s := ss[|es|];
             s.phase.Wave? && s.glock.None? && t in s.pcs && s.pcs[t] == Ending(true) && t in s.rows
    ensures Trace(w, es', ss') && |ss'| == |es'| + 1
    ensures var s, s' := ss[|es|], ss'[|es'|]; var loser := Loser(w, t, s.rows[t].output);
            && t in s'.pcs && s'.pcs[t] == (if loser.Some? then Pruning(loser.value) else Finished)
            && s' == s.(completed := s.completed + {t}, taskOutputs := s'.taskOutputs, pcs := s.pcs[t := s'.pcs[t]],
                        permits := if loser.Some? then s.permits else s.permits + 1)
  {
    hide Trace, Loser, HeadStep, AttemptStep, ReturnStep, CheckStep, DispatchStep, CancelStep, RetryStep, FinishStep,
        MarkSkipped;
    es', ss' := Do(w, es, ss, Lock(t));
    es', ss' := Do(w, es', ss', Section(t));
  }

  /** A condition skips its losing branch. */
  lemma Prune(w: Workflow, es: seq<Event>, ss: seq<State>, t: TaskId) returns (es': seq<Event>, ss': seq<State>)
    requires Trace(w, es, ss) && |ss| == |es| + 1 && Typed(w, ss[|es|]) && t in w.tasks
    requires var s := ss[|es|];
             s.phase.Wave? && s.glock.None? && t in s.pcs && s.pcs[t].Pruning? && s.pcs[t].target in w.tasks
    ensures Trace(w, es', ss') && |ss'| == |es'| + 1
    ensures var s, s' := ss[|es|], ss'[|es'|];
            && s' == s.(skipped := s.skipped + {s.pcs[t].target}, rows := MarkSkipped(w, s.rows, {s.pcs[t].target}),
                        pcs := s.pcs[t := Finished], permits := s.permits + 1)
  {
    hide Trace, MarkSkipped;
    es', ss' := Do(w, es, ss, Lock(t));
    es', ss' := Do(w, es', ss', Section(t));
  }

  lemma TypedWith(w: Workflow, s: State, s': State, t: TaskId)
    requires Typed(w, s) && t in w.tasks && s'.pcs.Keys == s.pcs.Keys + {t}
    ensures Typed(w, s')
  {
  }

  /** The task that `t` prunes if it completes from `s`. */
  function LoserFrom(w: Workflow, s: State, t: TaskId): Option<TaskId>
    requires t in w.tasks
  {
    Loser(w, t, w.result(t, InputIn(w, s, t)))
  }

  /** What the whole coroutine of `t` leaves behind, when its first attempt succeeds. */
  ghost predicate Completed(w: Workflow, s: State, s': State, t: TaskId)
    requires t in w.tasks
  {
    var pruned := if LoserFrom(w, s, t).Some? then {LoserFrom(w, s, t).value} else {};
    && s'.phase.Wave? && s'.status.Running? && s'.glock.None? && s'.failed == s.failed && s'.permits == s.permits
    && s'.completed == s.completed + {t} && s'.skipped == s.skipped + pruned
    && s'.rows.Keys == s.rows.Keys + {t} + pruned && s'.pcs == s.pcs[t := Finished]
  }

  lemma FirstAttemptIsAllowed(w: Workflow, s: State, t: TaskId)
    requires t in w.tasks && t !in s.rows
    ensures RowOf(w, s.rows, t).attempt <= RowOf(w, s.rows, t).maxAttempts
  {
  }

  /** ... up to the pruning, if it is a condition. */
  lemma Recorded(w: Workflow, es: seq<Event>, ss: seq<State>, t: TaskId) returns (es': seq<Event>, ss': seq<State>)
    requires Trace(w, es, ss) && |ss| == |es| + 1 && Fresh(w, ss[|es|], t)
    ensures Trace(w, es', ss') && |ss'| == |es'| + 1
    ensures var s, s' := ss[|es|], ss'[|es'|]; var loser := LoserFrom(w, s, t);
            && s'.phase.Wave? && s'.status.Running? && s'.glock.None? &&
                s'.failed == s.failed && s'.skipped == s.skipped
            && s'.completed == s.completed + {t} && s'.rows.Keys == s.rows.Keys + {t}
            && s'.pcs == s.pcs[t := if loser.Some? then Pruning(loser.value) else Finished]
            && s'.permits == (if loser.Some? then s.permits - 1 else s.permits)
  {
    FirstAttemptIsAllowed(w, ss[|es|], t);
    hide Trace, Apply, Enabled, Loser, Typed, InputIn, RowOf;
    es', ss' := Prepare(w, es, ss, t);
    TypedWith(w, ss[|es|], ss'[|es'|], t);
    es', ss' := Succeed(w, es', ss', t);
    TypedWith(w, ss[|es|], ss'[|es'|], t);
    es', ss' := Record(w, es', ss', t);
  }

  lemma Complete(w: Workflow, es: seq<Event>, ss: seq<State>, t: TaskId) returns (es': seq<Event>, ss': seq<State>)
    requires Trace(w, es, ss) && |ss| == |es| + 1 && Fresh(w, ss[|es|], t)
    ensures Trace(w, es', ss') && |ss'| == |es'| + 1 && Completed(w, ss[|es|], ss'[|es'|], t)
  {
    var loser := LoserFrom(w, ss[|es|], t);
    assert loser.Some? ==> loser.value in w.tasks;
    hide Trace, Apply, Enabled, Typed, LoserFrom;
    es', ss' := Recorded(w, es, ss, t);
    if loser.Some? {
      TypedWith(w, ss[|es|], ss'[|es'|], t);
      es', ss' := Prune(w, es', ss', t);
    }
  }

  // ---- Any root that another root prunes ----

  function RootInput(w: Workflow): Object {
    MergedInput(w.input, map[])
  }

  /** `c` prunes `x` if both are the first to run. */
  predicate PrunesBeside(w: Workflow, c: TaskId, x: TaskId) {
    && w.tasks.Keys == w.Nodes() && c in w.Nodes() && x in w.Nodes() && c != x
    && w.Preds(c) == {} && w.Preds(x) == {} && Loser(w, c, w.result(c, RootInput(w))) == Some(x)
    && Loser(w, x, w.result(x, RootInput(w))) != Some(c)
  }

  lemma RootsReadNothing(w: Workflow, s: State, t: TaskId)
    requires w.Preds(t) == {}
    ensures InputIn(w, s, t) == RootInput(w)
  {
    assert AvailableOutputs(w, s.taskOutputs, t) == map[];
  }

  lemma FirstDispatch(w: Workflow) returns (es: seq<Event>, ss: seq<State>)
    requires w.tasks.Keys == w.Nodes()
    ensures Trace(w, es, ss) && |ss| == |es| + 1
    ensures ss[|es|] ==
        State(LoopHead, Running, Running, map[], None, {}, {}, false, map[], map[], w.maxConcurrent, None)
  {
    es, ss := Do(w, [], [Triggered(w)], Dispatch);
    assert CompletedRows(map[]) == {} && SkippedRows(map[]) == {} && RecordedOutputs(map[]) == map[];
  }

  /** The first wave is the roots. */
  lemma FirstWave(w: Workflow, t: TaskId) returns (es: seq<Event>, ss: seq<State>)
    requires w.tasks.Keys == w.Nodes() && t in w.Nodes() && w.Preds(t) == {}
    ensures Trace(w, es, ss) && |ss| == |es| + 1
    ensures ss[|es|] == State(Wave, Running, Running, map[], None, {}, {}, false, map[],
                              map n | n in Ready(w.graph, {}, {}) :: Waiting, w.maxConcurrent, None)
  {
    es, ss := FirstDispatch(w);
    assert t in Ready(w.graph, {}, {});
    assert AllPredsSkipped(w.graph, {}, {}) == {};
    assert SettledCount(ss[|es|]) == 0 < |w.Nodes()|;
    hide Ready, AllPredsSkipped, Trace, Propagated, MarkSkipped;
    PropagatedInBrief(w, ss[|es|].(seen := Running));
    es, ss := Do(w, es, ss, Head);
  }

  /**
   A branch target that is a root beside its condition: some run puts it in both sets. It completes, and
   then the condition completes and prunes it.
   */
  lemma BesideIsInBothSets(w: Workflow, c: TaskId, x: TaskId) returns (es: seq<Event>, ss: seq<State>)
    requires PrunesBeside(w, c, x) && w.maxConcurrent > 0
    ensures Trace(w, es, ss) && |ss| == |es| + 1
    ensures var s := ss[|es|];
            && s.phase.Wave? && s.status.Running? && !s.failed && s.completed == {c, x} && x in s.skipped
            && s.pcs.Keys == Ready(w.graph, {}, {}) && c in s.pcs && x in s.pcs
            && s.pcs[c].Finished? && s.pcs[x].Finished?
            && s.skipped == {x} + (var y := Loser(w, x, w.result(x, RootInput(w))); if y.Some? then {y.value} else {})
  {
    es, ss := FirstWave(w, c);
    RootsReadNothing(w, ss[|es|], x);
    assert c in Ready(w.graph, {}, {}) && x in Ready(w.graph, {}, {}) && Ready(w.graph, {}, {}) <= w.Nodes();
    hide Ready, Trace, Loser, MergedInput, InputIn;
    es, ss := Complete(w, es, ss, x);
    RootsReadNothing(w, ss[|es|], c);
    es, ss := Complete(w, es, ss, c);
  }

  lemma StrayPrunes()
    ensures PrunesBeside(Stray(), "gate", "beside") && Stray().maxConcurrent > 0
    ensures Ready(Stray().graph, {}, {}) == {"gate", "beside"}
    ensures Loser(Stray(), "beside", Stray().result("beside", RootInput(Stray()))) == None
  {
    StrayFacts();
    var w := Stray();
    assert forall t, input :: w.result(t, input) == None;
  }

  /** The first wave of the example. */
  lemma StrayWave() returns (es: seq<Event>, ss: seq<State>)
    ensures Trace(Stray(), es, ss) && |ss| == |es| + 1
    ensures var s := ss[|es|];
            && s.phase.Wave? && s.status.Running? && !s.failed && s.pcs.Keys <= Stray().Nodes()
            && s.completed == {"gate", "beside"} && s.skipped == {"beside"}
            && forall t | t in s.pcs :: s.pcs[t].Finished?
  {
    StrayFacts();
    StrayPrunes();
    hide *;
    es, ss := BesideIsInBothSets(Stray(), "gate", "beside");
  }

  /**
   The run ends Completed with two tasks completed and one skipped, three in all, so that the guard
   counts three tasks settled; but one is counted twice, and the branch the gate chose has not run.
   */
  lemma StrayCompletesWithoutChosenBranch() returns (es: seq<Event>, ss: seq<State>)
    ensures Trace(Stray(), es, ss) && |ss| == |es| + 1
    ensures ss[|es|].status.Completed? && "beside" in ss[|es|].completed * ss[|es|].skipped
    ensures "chosen" in Stray().Nodes() && "chosen" !in ss[|es|].completed + ss[|es|].skipped
  {
    StrayFacts();
    var w := Stray();
    es, ss := StrayWave();
    hide Stray, Trace;
    assert SettledCount(ss[|es|]) == 3 by { assert |{"gate", "beside"}| == 2 && |{"beside"}| == 1; }
    es, ss := Do(w, es, ss, EndWave);
    es, ss := Do(w, es, ss, Head);
    es, ss := Do(w, es, ss, Finish);
  }
}
