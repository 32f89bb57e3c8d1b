/** Where a run can stand still, and why it otherwise ends. */
module ExecutorProgress {
  import opened Options
  import opened Graphs
  import opened Workflows
  import opened StateMachine
  import opened Executor
  import opened ExecutorInvariant
  import opened ExecutorTheorems

  // ---- Standing still ----

  /** Nothing to start and nothing to skip. */
  ghost predicate Quiescent(w: Workflow, s: State) {
    && Ready(w.graph, s.completed, s.skipped) == {}
    && AllPredsSkipped(w.graph, s.completed, s.skipped) == {}
  }

  /** An unsettled join with all its predecessors settled, some completed and some skipped. */
  ghost predicate MixedJoin(w: Workflow, s: State, n: TaskId) {
    && n in w.Nodes() && n !in s.completed && n !in s.skipped
    && w.Preds(n) <= s.completed + s.skipped
    && w.Preds(n) * s.completed != {} && w.Preds(n) * s.skipped != {}
  }

  lemma SetsMeanVerdicts(w: Workflow, v: Verdicts, s: State, n: TaskId)
    requires Setting(w, v) && Inv(w, v, s) && s.phase.LoopHead? && n in w.Nodes()
    ensures n in s.completed ==> v[n].Ran?
    ensures n in s.skipped ==> v[n].Pruned?
  {
    hide Rule, Loser, BranchesPruned, CoroutinesOk, LocksOk, StatusOk, RowOk, RowsOk;
    if n in s.rows { RowAt(w, v, s, n); RowMeans(w, v, s.rows[n], n); }
  }

  lemma RowMeans(w: Workflow, v: Verdicts, r: Row, n: TaskId)
    requires RowOk(w, v, r, n)
    ensures n in v && (r.status.RowCompleted? ==> v[n] == Ran(r.output)) && (r.status.RowSkipped? ==> v[n].Pruned?)
  {
  }

  lemma PrunedByIsSkipped(w: Workflow, v: Verdicts, s: State, c: TaskId, n: TaskId)
    requires Setting(w, v) && Inv(w, v, s) && s.phase.LoopHead?
    requires PrunedBy(w, v, c, n) && c in s.completed
    ensures n in s.skipped
  {
    hide Rule, Loser, BranchesPruned, CoroutinesOk, LocksOk, StatusOk, RowOk, RowsOk;
    assert Done(s.rows, c);
    RowAt(w, v, s, c);
    RowMeans(w, v, s.rows[c], c);
    UnprunedContradicts(w, s, c, n);
  }

  /** At a quiescent loop head every verdict but Blocked has been carried out. */
  lemma {:induction false} QuiescentCarriesOut(w: Workflow, v: Verdicts, s: State, r: map<TaskId, nat>, n: TaskId)
    requires Setting(w, v) && Inv(w, v, s) && s.phase.LoopHead? && Quiescent(w, s)
    requires IsRank(w.graph, r) && n in w.Nodes()
    ensures v[n].Ran? ==> n in s.completed
    ensures v[n].Pruned? ==> n in s.skipped
    decreases r[n]
  {
    hide Inv, Loser, PrunedBy, Acyclic, BranchesDescend;
    BranchesClimb(w, r);
    SetsMeanVerdicts(w, v, s, n);
    forall p | p in w.Preds(n)
      ensures v[p].Ran? ==> p in s.completed
      ensures v[p].Pruned? ==> p in s.skipped
      ensures p in s.skipped ==> v[p].Pruned?
    {
      QuiescentCarriesOut(w, v, s, r, p);
      SetsMeanVerdicts(w, v, s, p);
    }
    if v[n].Ran? {
      RanWhy(w, v, n);
      assert n !in Ready(w.graph, s.completed, s.skipped);
    } else if v[n].Pruned? {
      PrunedWhy(w, v, n);
      if c :| PrunedBy(w, v, c, n) {
        PrunerIsUpstream(w, v, r, c, n);
        QuiescentCarriesOut(w, v, s, r, c);
        PrunedByIsSkipped(w, v, s, c, n);
      } else {
        assert n !in AllPredsSkipped(w.graph, s.completed, s.skipped);
      }
    }
  }

  lemma RanWhy(w: Workflow, v: Verdicts, n: TaskId)
    requires Solves(w, v) && n in w.Nodes() && v[n].Ran?
    ensures forall p | p in w.Preds(n) :: v[p].Ran?
  {
    assert v[n] == Rule(w, v, n);
  }

  lemma PrunerIsUpstream(w: Workflow, v: Verdicts, r: map<TaskId, nat>, c: TaskId, n: TaskId)
    requires WellFormed(w) && Solves(w, v) && IsRank(w.graph, r) && PrunedBy(w, v, c, n)
    ensures c in w.Nodes() && n in w.Nodes() && r[c] < r[n] && v[c].Ran?
  {
    hide Rule, Acyclic;
    BranchesClimb(w, r);
    assert MayPrune(w, c, n);
  }

  lemma QuiescentIsSpec(w: Workflow, v: Verdicts, s: State)
    requires Setting(w, v) && Inv(w, v, s) && s.phase.LoopHead? && Quiescent(w, s)
    ensures s.completed == RanTasks(v) && s.skipped == PrunedTasks(v) && v.Keys == w.Nodes()
  {
    hide Inv, Rule, Quiescent;
    var r := AcyclicHasRank(w.graph);
    forall n | n in w.Nodes()
      ensures n in s.completed <==> v[n].Ran?
      ensures n in s.skipped <==> v[n].Pruned?
    {
      QuiescentCarriesOut(w, v, s, r, n);
      SetsMeanVerdicts(w, v, s, n);
    }
    assert s.completed + s.skipped <= w.Nodes() by { HeadSetsAreNodes(w, v, s); }
  }

  lemma HeadSetsAreNodes(w: Workflow, v: Verdicts, s: State)
    requires Inv(w, v, s) && s.phase.LoopHead?
    ensures s.completed !! s.skipped && s.completed + s.skipped <= w.Nodes()
    ensures SettledCount(s) >= |w.Nodes()| <==> s.completed + s.skipped == w.Nodes()
  {
    hide BranchesPruned, CoroutinesOk, LocksOk, StatusOk, SetsOk, RowsOk;
    SetsAreDisjoint(w, v, s);
    CountingGuard(w, v, s);
  }

  /** A blocked task has, at or above it, one blocked by a mix of ran and pruned predecessors. */
  lemma {:induction false} BlockedHasMixedJoin(w: Workflow, v: Verdicts, r: map<TaskId, nat>,
      n: TaskId) returns (m: TaskId)
    requires Setting(w, v) && IsRank(w.graph, r) && n in w.Nodes() && v[n].Blocked?
    ensures m in w.Nodes() && v[m].Blocked? && forall p | p in w.Preds(m) :: !v[p].Blocked?
    ensures exists p :: p in w.Preds(m) && v[p].Ran?
    ensures exists p :: p in w.Preds(m) && v[p].Pruned?
    decreases r[n]
  {
    hide PrunedBy, Outputs, MergedInput, Acyclic, BranchesDescend;
    if p :| p in w.Preds(n) && v[p].Blocked? {
      BranchesClimb(w, r);
      m := BlockedHasMixedJoin(w, v, r, p);
    } else {
      m := n;
      assert v[n] == Rule(w, v, n);
      var p :| p in w.Preds(n) && !v[p].Ran?;
      var q :| q in w.Preds(n) && !v[q].Pruned?;
      assert v[p].Pruned? && v[q].Ran?;
    }
  }

  /**
   A loop head has a task to start, a skip to propagate, every task settled, or a mixed join: a task
   that no later step will start or skip.
   */
  lemma HeadProgress(w: Workflow, v: Verdicts, s: State)
    requires Setting(w, v) && Inv(w, v, s) && s.phase.LoopHead?
    ensures Ready(w.graph, s.completed, s.skipped) != {}
         || AllPredsSkipped(w.graph, s.completed, s.skipped) != {}
         || SettledCount(s) >= |w.Nodes()|
         || exists n :: MixedJoin(w, s, n)
  {
    if Quiescent(w, s) && SettledCount(s) < |w.Nodes()| { StuckHasMixedJoin(w, v, s); }
  }

  lemma StuckHasMixedJoin(w: Workflow, v: Verdicts, s: State)
    requires Setting(w, v) && Inv(w, v, s) && s.phase.LoopHead? && Quiescent(w, s) && SettledCount(s) < |w.Nodes()|
    ensures exists n :: MixedJoin(w, s, n)
  {
    hide Inv, Quiescent, Rule, Acyclic, BranchesDescend;
    HeadSetsAreNodes(w, v, s);
    QuiescentIsSpec(w, v, s);
    var n :| n in w.Nodes() && n !in s.completed + s.skipped;
    var r := AcyclicHasRank(w.graph);
    var m := BlockedHasMixedJoin(w, v, r, n);
    var p :| p in w.Preds(m) && v[p].Ran?;
    var q :| q in w.Preds(m) && v[q].Pruned?;
    assert p in w.Preds(m) * s.completed && q in w.Preds(m) * s.skipped;
    assert MixedJoin(w, s, m);
  }

  /** A quiescent head leaves the loop exactly when no task is blocked; otherwise its poll changes no set. */
  lemma QuiescentHead(w: Workflow, v: Verdicts, s: State)
    requires Setting(w, v) && Inv(w, v, s) && s.phase.LoopHead? && Quiescent(w, s)
    requires !s.failed && !s.status.Cancelled? && w.tasks.Keys == w.Nodes()
    ensures HeadStep(w, s).phase.AfterLoop? <==> forall n | n in w.Nodes() :: !v[n].Blocked?
    ensures !HeadStep(w, s).phase.AfterLoop? ==> HeadStep(w, s) == s.(seen := s.status)
  {
    hide Inv, Setting;
    QuiescentIsSpec(w, v, s);
    HeadSetsAreNodes(w, v, s);
    SettledIffUnblocked(w, v, s);
    HeadCases(w, s, HeadStep(w, s));
    PropagatedInBrief(w, s.(seen := s.status));
    hide HeadStep, Propagated, Ready, AllPredsSkipped, RanTasks, PrunedTasks;
  }

  lemma SettledIffUnblocked(w: Workflow, v: Verdicts, s: State)
    requires s.completed == RanTasks(v) && s.skipped == PrunedTasks(v) && v.Keys == w.Nodes()
    ensures s.completed + s.skipped == w.Nodes() <==> forall n | n in w.Nodes() :: !v[n].Blocked?
  {
    if n :| n in w.Nodes() && v[n].Blocked? {
      assert n !in s.completed + s.skipped;
    } else {
      assert forall n | n in w.Nodes() :: n in s.completed + s.skipped;
    }
  }

  /** So a workflow with a blocked task never completes. */
  lemma BlockedNeverCompletes(w: Workflow, v: Verdicts, es: seq<Event>, ss: seq<State>, n: TaskId)
    requires Setting(w, v) && Trace(w, es, ss) && n in w.Nodes() && v[n].Blocked?
    ensures forall i | 0 <= i < |ss| :: !ss[i].status.Completed?
  {
    hide Setting, Trace;
    forall i | 0 <= i < |ss| ensures !ss[i].status.Completed? {
      if ss[i].status.Completed? { CompletedMeansSpec(w, v, es, ss, i); }
    }
  }

  /** A task can only be blocked below a join: with at most one predecessor each, none is. */
  lemma {:induction false} TreesNeverBlock(w: Workflow, v: Verdicts, n: TaskId)
    requires Setting(w, v) && n in w.Nodes()
    requires forall m, p, q | m in w.Nodes() && p in w.Preds(m) && q in w.Preds(m) :: p == q
    ensures !v[n].Blocked?
  {
    hide Rule;
    if v[n].Blocked? {
      var r := AcyclicHasRank(w.graph);
      var m := BlockedHasMixedJoin(w, v, r, n);
    }
  }
}
