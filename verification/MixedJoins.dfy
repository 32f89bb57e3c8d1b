/**
 Not every workflow the DAG class accepts can finish: two branches of a condition that meet again leave
 their join waiting for ever.
 */
module MixedJoins {
  import opened Options
  import opened Graphs
  import opened Workflows
  import opened StateMachine
  import opened Executor
  import opened ExecutorInvariant
  import opened ExecutorProgress

  /** A gate with the branches "a" and "b", which both lead to "join". */
  function Diamond(): Graph {
    Graph({"gate", "a", "b", "join"}, {("gate", "a"), ("gate", "b"), ("a", "join"), ("b", "join")})
  }

  function DiamondTask(t: TaskId): TaskSpec {
    TaskSpec(t == "gate", "a", "b", 1)
  }

  function DiamondWorkflow(input: Object, result: (TaskId, Object) -> Option<Json>, breaks: bool): Workflow {
    Workflow(Diamond(), map t | t in Diamond().nodes :: DiamondTask(t), input, result, 10, breaks)
  }

  lemma DiamondIsWellFormed(input: Object, result: (TaskId, Object) -> Option<Json>, breaks: bool)
    ensures WellFormed(DiamondWorkflow(input, result, breaks))
  {
    var w := DiamondWorkflow(input, result, breaks);
    var g := w.graph;
    var r: map<TaskId, nat> := map["gate" := 0, "a" := 1, "b" := 1, "join" := 2];
    assert IsRank(g, r);
    RankedIsAcyclic(g, r);
    forall c, x | MayPrune(w, c, x) ensures Ancestor(g, c, x) {
      assert c == "gate" && (x == "a" || x == "b");
      var p := ["gate", x];
      assert WalkFromTo(g, c, p, x);
    }
  }

  lemma DiamondPreds()
    ensures Diamond().Preds("gate") == {}
    ensures Diamond().Preds("a") == {"gate"} == Diamond().Preds("b")
    ensures Diamond().Preds("join") == {"a", "b"}
  {
  }

  lemma UnprunedVerdict(w: Workflow, v: Verdicts, n: TaskId)
    requires Solves(w, v) && n in w.Nodes() && forall c :: !PrunedBy(w, v, c, n)
    ensures (forall p | p in w.Preds(n) :: p in v && v[p].Ran?) ==> v[n].Ran?
    ensures (exists p :: p in w.Preds(n) && v[p].Ran?) && (exists p :: p in w.Preds(n) && v[p].Pruned?) ==>
        v[n].Blocked?
  {
    assert v[n] == Rule(w, v, n);
  }

  lemma OnlyTheGatePrunes(w: Workflow, v: Verdicts, c: TaskId, n: TaskId)
    requires w.graph == Diamond() && w.tasks == map t | t in Diamond().nodes :: DiamondTask(t)
    requires PrunedBy(w, v, c, n)
    ensures c == "gate" && (n == "a" || n == "b")
  {
    assert MayPrune(w, c, n);
  }

  lemma GateHasLoser(w: Workflow, out: Option<Json>)
    requires w.graph == Diamond() && w.tasks == map t | t in Diamond().nodes :: DiamondTask(t)
    ensures Loser(w, "gate", out) == Some(if ResultIsTrue(out) then "b" else "a")
  {
  }

  lemma LoserVerdict(w: Workflow, v: Verdicts, c: TaskId, x: TaskId)
    requires Solves(w, v) && c in w.Nodes() && c in w.tasks && v[c].Ran? && Loser(w, c, v[c].output) == Some(x)
    ensures x in w.Nodes() && v[x].Pruned?
  {
    assert PrunedBy(w, v, c, x);
    assert v[x] == Rule(w, v, x);
  }

  /** The gate runs, one branch runs, the other is pruned; the join is blocked whatever the gate answers. */
  lemma DiamondBlocks(w: Workflow, v: Verdicts)
    requires w.graph == Diamond() && w.tasks == map t | t in Diamond().nodes :: DiamondTask(t)
    requires Solves(w, v)
    ensures v.Keys == Diamond().nodes && v["join"].Blocked?
  {
    DiamondPreds();
    assert v.Keys == w.Nodes() == {"gate", "a", "b", "join"};
    hide Rule, Loser, PrunedBy, Diamond, Graph.Preds;
    forall c, n | PrunedBy(w, v, c, n) ensures c == "gate" && (n == "a" || n == "b") { OnlyTheGatePrunes(w, v, c, n); }
    UnprunedVerdict(w, v, "gate");
    GateHasLoser(w, v["gate"].output);
    var loser := if ResultIsTrue(v["gate"].output) then "b" else "a";
    var winner := if loser == "a" then "b" else "a";
    LoserVerdict(w, v, "gate", loser);
    forall c ensures !PrunedBy(w, v, c, winner) { OneLoser(w, v, c, loser, winner); }
    UnprunedVerdict(w, v, winner);
    UnprunedVerdict(w, v, "join");
  }

  lemma OneLoser(w: Workflow, v: Verdicts, c: TaskId, loser: TaskId, winner: TaskId)
    requires PrunedBy(w, v, c, winner) ==> c == "gate"
    requires "gate" in v && v["gate"].Ran? && "gate" in w.tasks &&
        Loser(w, "gate", v["gate"].output) == Some(loser) && loser != winner
    ensures !PrunedBy(w, v, c, winner)
  {
  }

  /** So no run of the diamond ever completes, on any input and with any handlers. */
  lemma DiamondNeverCompletes(input: Object, result: (TaskId, Object) -> Option<Json>, breaks: bool,
      es: seq<Event>, ss: seq<State>)
    requires Trace(DiamondWorkflow(input, result, breaks), es, ss)
    ensures forall i | 0 <= i < |ss| :: !ss[i].status.Completed?
  {
    hide Trace, WellFormed, Solves, Diamond;
    var w := DiamondWorkflow(input, result, breaks);
    DiamondIsWellFormed(input, result, breaks);
    var v := SolutionExists(w);
    DiamondBlocks(w, v);
    JoinIsNode();
    BlockedNeverCompletes(w, v, es, ss, "join");
  }

  lemma JoinIsNode()
    ensures "join" in Diamond().nodes
  {
  }
}
