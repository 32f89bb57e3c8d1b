/**
 What a workflow means, with no schedule in sight: each task runs, is pruned, or is blocked, and
 which of the three is the solution of one equation per task.
 */
module Workflows {
  import opened Options
  import opened Graphs

  datatype Json = Bool(b: bool) | Atom(n: int) | Obj(fields: map<string, Json>)
  type Object = map<string, Json>

  /** The part of a DAGNode the executor looks at. */
  datatype TaskSpec = TaskSpec(isCondition: bool, onTrue: TaskId, onFalse: TaskId, maxAttempts: int)

  /**
   A workflow and the environment it runs in. `result` is what a handler returns when an attempt
   succeeds; which attempts succeed is left open. `breaksOnFailure` is true for the loop as
   printed, which leaves by `break` after a failing wave, and false for the loop that goes back to
   its head, where the failure exit is.
   */
  datatype Workflow = Workflow(
    graph: Graph,
    tasks: map<TaskId, TaskSpec>,
    input: Object,
    result: (TaskId, Object) -> Option<Json>,
    maxConcurrent: nat,
    breaksOnFailure: bool)
  {
    function Nodes(): set<TaskId> { graph.nodes }

    function Preds(n: TaskId): set<TaskId> { graph.Preds(n) }
  }

  /** Predecessor outputs override the trigger input, and "tasks" overrides both. */
  function MergedInput(input: Object, predOutputs: Object): Object {
    input + predOutputs + map["tasks" := Obj(predOutputs)]
  }

  function ResultIsTrue(out: Option<Json>): bool {
    && out.Some? && out.value.Obj?
    && "result" in out.value.fields && out.value.fields["result"] == Bool(true)
  }

  /** `c` is a condition with two branches, and `x` is a task named by one of them. */
  predicate MayPrune(w: Workflow, c: TaskId, x: TaskId) {
    && c in w.tasks && w.tasks[c].isCondition
    && w.tasks[c].onTrue != "" && w.tasks[c].onFalse != ""
    && x in w.Nodes() && (x == w.tasks[c].onTrue || x == w.tasks[c].onFalse)
  }

  /** The task a completed condition prunes: the branch it did not choose, when that names a task. */
  function Loser(w: Workflow, c: TaskId, out: Option<Json>): (x: Option<TaskId>)
    requires c in w.tasks
    ensures x.Some? ==> MayPrune(w, c, x.value)
  {
    var spec := w.tasks[c];
    if spec.isCondition && spec.onTrue != "" && spec.onFalse != "" then
      var sid := if ResultIsTrue(out) then spec.onFalse else spec.onTrue;
      if sid in w.Nodes() then Some(sid) else None
    else None
  }

  /** The branch of a condition that its output does not choose. */
  function Unchosen(w: Workflow, c: TaskId, out: Option<Json>): TaskId
    requires c in w.tasks
  {
    if ResultIsTrue(out) then w.tasks[c].onFalse else w.tasks[c].onTrue
  }

  /** The loser is the branch not chosen, whenever the condition may prune that, and otherwise there is none. */
  lemma LoserIsUnchosen(w: Workflow, c: TaskId, out: Option<Json>)
    requires c in w.tasks
    ensures Loser(w, c, out) == if MayPrune(w, c, Unchosen(w, c, out)) then Some(Unchosen(w, c, out)) else None
    ensures w.tasks[c].onTrue != w.tasks[c].onFalse && ResultIsTrue(out) ==> Loser(w, c, out) != Some(w.tasks[c].onTrue)
    ensures w.tasks[c].onTrue != w.tasks[c].onFalse && !ResultIsTrue(out) ==>
        Loser(w, c, out) != Some(w.tasks[c].onFalse)
  {
  }

  ghost predicate BranchesDescend(w: Workflow) {
    forall c, x | MayPrune(w, c, x) :: Ancestor(w.graph, c, x)
  }

  ghost predicate WellFormed(w: Workflow) {
    w.graph.Valid() && Acyclic(w.graph) && w.tasks.Keys == w.Nodes() && BranchesDescend(w)
  }

  // ---- The equations ----

  datatype Verdict = Ran(output: Option<Json>) | Pruned | Blocked

  type Verdicts = map<TaskId, Verdict>

  ghost predicate PrunedBy(w: Workflow, v: Verdicts, c: TaskId, n: TaskId) {
    c in v && c in w.tasks && v[c].Ran? && Loser(w, c, v[c].output) == Some(n)
  }

  ghost function Outputs(v: Verdicts, ps: set<TaskId>): Object {
    map p | p in ps && p in v && v[p].Ran? && v[p].output.Some? :: v[p].output.value
  }

  /** The verdict of a task, given those of the tasks upstream. */
  ghost function Rule(w: Workflow, v: Verdicts, n: TaskId): Verdict {
    if exists c :: PrunedBy(w, v, c, n) then Pruned
    else if w.Preds(n) != {} && forall p | p in w.Preds(n) :: p in v && v[p].Pruned? then Pruned
    else if forall p | p in w.Preds(n) :: p in v && v[p].Ran? then
      Ran(w.result(n, MergedInput(w.input, Outputs(v, w.Preds(n)))))
    else Blocked
  }

  ghost predicate Solves(w: Workflow, v: Verdicts) {
    v.Keys == w.Nodes() && forall n | n in w.Nodes() :: v[n] == Rule(w, v, n)
  }

  lemma BranchesClimb(w: Workflow, r: map<TaskId, nat>)
    requires WellFormed(w) && IsRank(w.graph, r)
    ensures forall c, x | MayPrune(w, c, x) :: r[c] < r[x]
    ensures forall n, p | n in w.Nodes() && p in w.Preds(n) :: r[p] < r[n]
  {
    forall c, x | MayPrune(w, c, x) ensures r[c] < r[x] {
      AncestorRank(w.graph, r, c, x);
    }
    forall n, p | n in w.Nodes() && p in w.Preds(n) ensures r[p] < r[n] {
      var e := (p, n);
      assert r[e.0] < r[e.1];
    }
  }

  /** The tasks numbered below k, with the verdict of each by recursion over the graph. */
  ghost function VerdictsBelow(w: Workflow, r: map<TaskId, nat>, k: nat): (v: Verdicts)
    requires r.Keys == w.Nodes()
    ensures v.Keys == set n | n in w.Nodes() && r[n] < k
  {
    if k == 0 then map[]
    else
      var v := VerdictsBelow(w, r, k - 1);
      map n | n in w.Nodes() && r[n] < k :: if n in v then v[n] else Rule(w, v, n)
  }

  /** A rule looks only upstream: two assignments that agree there give the same verdict. */
  lemma RuleLooksUpstream(w: Workflow, r: map<TaskId, nat>, v: Verdicts, v': Verdicts, n: TaskId)
    requires WellFormed(w) && IsRank(w.graph, r) && n in w.Nodes()
    requires forall m | m in w.Nodes() && r[m] < r[n] :: m in v && m in v' && v[m] == v'[m]
    ensures Rule(w, v, n) == Rule(w, v', n)
  {
    BranchesClimb(w, r);
    forall c ensures PrunedBy(w, v, c, n) <==> PrunedBy(w, v', c, n) {
      if c in w.tasks && MayPrune(w, c, n) { assert r[c] < r[n]; }
    }
    assert Outputs(v, w.Preds(n)) == Outputs(v', w.Preds(n));
  }

  lemma {:induction false} BelowAgrees(w: Workflow, r: map<TaskId, nat>, k: nat, n: TaskId)
    requires WellFormed(w) && IsRank(w.graph, r) && n in w.Nodes() && r[n] < k
    ensures VerdictsBelow(w, r, k)[n] == Rule(w, VerdictsBelow(w, r, k), n)
  {
    hide Rule;
    var v := VerdictsBelow(w, r, k - 1);
    if n in v { BelowAgrees(w, r, k - 1, n); }
    RuleLooksUpstream(w, r, v, VerdictsBelow(w, r, k), n);
  }

  lemma {:induction false} TopRank(r: map<TaskId, nat>) returns (k: nat)
    ensures forall n | n in r :: r[n] < k
  {
    k := 0;
    var todo := r.Keys;
    while todo != {}
      invariant todo <= r.Keys && forall n | n in r && n !in todo :: r[n] < k
    {
      var n :| n in todo;
      todo := todo - {n};
      if r[n] >= k { k := r[n] + 1; }
    }
  }

  /** The equations of a well-formed workflow have a solution ... */
  lemma SolutionExists(w: Workflow) returns (v: Verdicts)
    requires WellFormed(w)
    ensures Solves(w, v)
  {
    hide Rule;
    var r := AcyclicHasRank(w.graph);
    var k := TopRank(r);
    v := VerdictsBelow(w, r, k);
    forall n | n in w.Nodes() ensures v[n] == Rule(w, v, n) { BelowAgrees(w, r, k, n); }
  }

  lemma {:induction false} SolutionsAgreeAt(w: Workflow, r: map<TaskId, nat>, v: Verdicts, v': Verdicts, n: TaskId)
    requires WellFormed(w) && IsRank(w.graph, r) && Solves(w, v) && Solves(w, v') && n in w.Nodes()
    ensures v[n] == v'[n]
    decreases r[n]
  {
    hide Rule;
    forall m | m in w.Nodes() && r[m] < r[n] ensures v[m] == v'[m] {
      SolutionsAgreeAt(w, r, v, v', m);
    }
    RuleLooksUpstream(w, r, v, v', n);
  }

  /** ... and only one. */
  lemma SolutionUnique(w: Workflow, v: Verdicts, v': Verdicts)
    requires WellFormed(w) && Solves(w, v) && Solves(w, v')
    ensures v == v'
  {
    var r := AcyclicHasRank(w.graph);
    forall n | n in w.Nodes() ensures v[n] == v'[n] { SolutionsAgreeAt(w, r, v, v', n); }
  }

  // ---- Pruning, seen along paths ----

  /** A walk from a root of the graph to `n`. */
  ghost predicate RootWalk(g: Graph, p: seq<TaskId>, n: TaskId) {
    Walk(g, p) && g.Preds(p[0]) == {} && p[|p| - 1] == n
  }

  ghost predicate Hit(w: Workflow, v: Verdicts, p: seq<TaskId>) {
    exists i, c :: 0 <= i < |p| && PrunedBy(w, v, c, p[i])
  }

  lemma PrunedWhy(w: Workflow, v: Verdicts, n: TaskId)
    requires Solves(w, v) && n in w.Nodes()
    ensures v[n].Pruned? <==> (exists c :: PrunedBy(w, v, c, n)) ||
                              (w.Preds(n) != {} && forall p | p in w.Preds(n) :: v[p].Pruned?)
  {
    assert v[n] == Rule(w, v, n);
  }

  lemma {:induction false} PrunedWalksAreHit(w: Workflow, v: Verdicts, p: seq<TaskId>, n: TaskId)
    requires Solves(w, v) && n in w.Nodes() && v[n].Pruned? && RootWalk(w.graph, p, n)
    ensures Hit(w, v, p)
    decreases |p|
  {
    hide Rule, Solves, PrunedBy;
    PrunedWhy(w, v, n);
    if c :| PrunedBy(w, v, c, n) {
      assert PrunedBy(w, v, c, p[|p| - 1]);
    } else if |p| > 1 {
      var q, m := p[..|p| - 1], p[|p| - 2];
      assert (p[|p| - 2], p[|p| - 2 + 1]) in w.graph.edges;
      assert m in w.Preds(n);
      PrunedWalksAreHit(w, v, q, m);
      var i, c :| 0 <= i < |q| && PrunedBy(w, v, c, q[i]);
      assert PrunedBy(w, v, c, p[i]);
    }
  }

  lemma {:induction false} UnprunedHasFreeWalk(w: Workflow, v: Verdicts, r: map<TaskId, nat>,
      n: TaskId) returns (p: seq<TaskId>)
    requires WellFormed(w) && IsRank(w.graph, r) && Solves(w, v) && n in w.Nodes() && !v[n].Pruned?
    ensures RootWalk(w.graph, p, n) && !Hit(w, v, p)
    decreases r[n]
  {
    hide Rule, PrunedBy, WellFormed;
    PrunedWhy(w, v, n);
    if w.Preds(n) == {} {
      p := [n];
    } else {
      BranchesClimb(w, r);
      var m :| m in w.Preds(n) && !v[m].Pruned?;
      var q := UnprunedHasFreeWalk(w, v, r, m);
      p := ExtendWalk(w.graph, q, n);
      forall i, c | 0 <= i < |p| ensures !PrunedBy(w, v, c, p[i]) {
        if i < |q| { assert p[i] == q[i]; }
      }
    }
  }

  /** A task is pruned exactly when every walk from a root to it meets a directly pruned branch. */
  lemma PrunedIffEveryWalkHit(w: Workflow, v: Verdicts, n: TaskId)
    requires WellFormed(w) && Solves(w, v) && n in w.Nodes()
    ensures v[n].Pruned? <==> forall p | RootWalk(w.graph, p, n) :: Hit(w, v, p)
  {
    if v[n].Pruned? {
      forall p | RootWalk(w.graph, p, n) ensures Hit(w, v, p) { PrunedWalksAreHit(w, v, p, n); }
    } else {
      var r := AcyclicHasRank(w.graph);
      var p := UnprunedHasFreeWalk(w, v, r, n);
    }
  }

  /** Pruning is the least fixed point: it lies inside every set closed under the two ways to be skipped. */
  lemma {:induction false} PruningIsLeast(w: Workflow, v: Verdicts, r: map<TaskId, nat>, s: set<TaskId>, n: TaskId)
    requires WellFormed(w) && IsRank(w.graph, r) && Solves(w, v) && n in w.Nodes() && v[n].Pruned?
    requires forall c, x | PrunedBy(w, v, c, x) :: x in s
    requires forall x | x in w.Nodes() && w.Preds(x) != {} && w.Preds(x) <= s :: x in s
    ensures n in s
    decreases r[n]
  {
    assert v[n] == Rule(w, v, n);
    if !exists c :: PrunedBy(w, v, c, n) {
      BranchesClimb(w, r);
      forall p | p in w.Preds(n) ensures p in s { PruningIsLeast(w, v, r, s, p); }
    }
  }

  /** With no condition task every task runs. */
  lemma {:induction false} WithoutConditionsAllRun(w: Workflow, v: Verdicts, r: map<TaskId, nat>, n: TaskId)
    requires WellFormed(w) && IsRank(w.graph, r) && Solves(w, v) && n in w.Nodes()
    requires forall c, x :: !MayPrune(w, c, x)
    ensures v[n].Ran?
    decreases r[n]
  {
    assert v[n] == Rule(w, v, n);
    BranchesClimb(w, r);
    forall p | p in w.Preds(n) ensures v[p].Ran? { WithoutConditionsAllRun(w, v, r, p); }
  }
}
