/** The DAG class: parsing and validating a definition, and the two queries for runnable tasks. */
module Dags {
  import opened Options
  import opened Graphs
  import opened Workflows
  import opened Executor

  datatype TaskConfig = TaskConfig(id: TaskId, spec: TaskSpec)
  datatype EdgeConfig = EdgeConfig(fromTask: TaskId, toTask: TaskId)

  datatype DagNode = DagNode(spec: TaskSpec, dependencies: set<TaskId>, dependents: set<TaskId>)

  datatype DagError = UnknownTask(fromTask: TaskId, toTask: TaskId) | HasCycle | NoRoot

  // ---- What a definition means ----

  function Ids(tasks: seq<TaskConfig>): set<TaskId> {
    set t | t in tasks :: t.id
  }

  function Edges(edges: seq<EdgeConfig>): set<(TaskId, TaskId)> {
    set e | e in edges :: (e.fromTask, e.toTask)
  }

  function GraphOf(tasks: seq<TaskConfig>, edges: seq<EdgeConfig>): Graph {
    Graph(Ids(tasks), Edges(edges))
  }

  predicate Known(tasks: seq<TaskConfig>, e: EdgeConfig) {
    e.fromTask in Ids(tasks) && e.toTask in Ids(tasks)
  }

  /** Edge i is the first that names an unknown task. */
  ghost predicate FirstUnknown(tasks: seq<TaskConfig>, es: seq<EdgeConfig>, i: int) {
    0 <= i < |es| && !Known(tasks, es[i]) && forall j | 0 <= j < i :: Known(tasks, es[j])
  }

  function UnknownEdge(e: EdgeConfig): Option<DagError> {
    Some(UnknownTask(e.fromTask, e.toTask))
  }

  /** The spec of the last task listed under an id, which is the one a dictionary keeps. */
  function SpecOf(tasks: seq<TaskConfig>, id: TaskId): Option<TaskSpec> {
    if tasks == [] then None
    else if tasks[|tasks| - 1].id == id then Some(tasks[|tasks| - 1].spec)
    else SpecOf(tasks[..|tasks| - 1], id)
  }

  ghost predicate LastListed(tasks: seq<TaskConfig>, t: TaskId, spec: TaskSpec) {
    exists i :: 0 <= i < |tasks| && tasks[i] == TaskConfig(t, spec) && forall j | i < j < |tasks| :: tasks[j].id != t
  }

  /** The last task listed under `t` has the node's spec, and the listed edges are its dependencies and dependents. */
  ghost predicate DefinedAs(tasks: seq<TaskConfig>, es: seq<EdgeConfig>, t: TaskId, node: DagNode) {
    && LastListed(tasks, t, node.spec)
    && (forall p :: p in node.dependencies <==> exists i :: 0 <= i < |es| && es[i] == EdgeConfig(p, t))
    && (forall n :: n in node.dependents <==> exists i :: 0 <= i < |es| && es[i] == EdgeConfig(t, n))
  }

  lemma {:induction false} SpecIsLast(tasks: seq<TaskConfig>, t: TaskId, spec: TaskSpec)
    requires SpecOf(tasks, t) == Some(spec)
    ensures LastListed(tasks, t, spec)
  {
    var n := |tasks| - 1;
    if tasks[n].id == t {
      assert tasks[n] == TaskConfig(t, spec);
    } else {
      SpecIsLast(tasks[..n], t, spec);
      var i :| 0 <= i < n && tasks[..n][i] == TaskConfig(t, spec) && forall j | i < j < n :: tasks[..n][j].id != t;
      assert forall j | i < j < n :: tasks[j].id == tasks[..n][j].id;
      assert tasks[i] == TaskConfig(t, spec);
    }
  }

  lemma EdgesAre(es: seq<EdgeConfig>, p: TaskId, n: TaskId)
    ensures (p, n) in Edges(es) <==> exists i :: 0 <= i < |es| && es[i] == EdgeConfig(p, n)
  {
    if (p, n) in Edges(es) {
      var e :| e in es && (e.fromTask, e.toTask) == (p, n);
      var i :| 0 <= i < |es| && es[i] == e;
      assert es[i] == EdgeConfig(p, n);
    }
    if i :| 0 <= i < |es| && es[i] == EdgeConfig(p, n) { assert es[i] in es; }
  }

  lemma IdsAre(tasks: seq<TaskConfig>, t: TaskId)
    ensures t in Ids(tasks) <==> exists i :: 0 <= i < |tasks| && tasks[i].id == t
  {
    if t in Ids(tasks) {
      var x :| x in tasks && x.id == t;
      var i :| 0 <= i < |tasks| && tasks[i] == x;
      assert tasks[i].id == t;
    }
  }

  lemma NodeIsDefined(tasks: seq<TaskConfig>, es: seq<EdgeConfig>, t: TaskId, node: DagNode)
    requires forall e | e in es :: Known(tasks, e)
    requires SpecOf(tasks, t) == Some(node.spec)
    requires node.dependencies == GraphOf(tasks, es).Preds(t) && node.dependents == GraphOf(tasks, es).Succs(t)
    ensures DefinedAs(tasks, es, t, node)
  {
    SpecIsLast(tasks, t, node.spec);
    forall p ensures p in node.dependencies <==> exists i :: 0 <= i < |es| && es[i] == EdgeConfig(p, t) {
      EdgesAre(es, p, t);
      if i :| 0 <= i < |es| && es[i] == EdgeConfig(p, t) { assert Known(tasks, es[i]); }
    }
    forall n ensures n in node.dependents <==> exists i :: 0 <= i < |es| && es[i] == EdgeConfig(t, n) {
      EdgesAre(es, t, n);
      if i :| 0 <= i < |es| && es[i] == EdgeConfig(t, n) { assert Known(tasks, es[i]); }
    }
  }

  lemma AppendTask(tasks: seq<TaskConfig>, t: TaskConfig)
    ensures Ids(tasks + [t]) == Ids(tasks) + {t.id}
    ensures forall id :: SpecOf(tasks + [t], id) == if id == t.id then Some(t.spec) else SpecOf(tasks, id)
  {
    assert (tasks + [t])[..|tasks|] == tasks;
  }

  /** The tasks of `s`, in the order of `order`. */
  function InOrder(order: seq<TaskId>, s: set<TaskId>): seq<TaskId> {
    if order == [] then []
    else InOrder(order[..|order| - 1], s) + if order[|order| - 1] in s then [order[|order| - 1]] else []
  }

  /** get_ready_tasks, on values. */
  function ReadyTasks(g: Graph, completed: set<TaskId>, skipped: set<TaskId>, running: set<TaskId>): set<TaskId> {
    set n | n in g.nodes && n !in completed && n !in skipped && n !in running
            && g.Preds(n) !! skipped && g.Preds(n) <= completed
  }

  /** get_next_tasks, on values. */
  function NextTasks(g: Graph, c: TaskId, completed: set<TaskId>): set<TaskId> {
    set n | n in g.Succs(c) && g.Preds(n) <= completed
  }

  /** The executor asks for ready tasks with nothing running. */
  lemma ReadyWithNothingRunning(g: Graph, completed: set<TaskId>, skipped: set<TaskId>)
    ensures ReadyTasks(g, completed, skipped, {}) == Ready(g, completed, skipped)
  {
  }

  /**
   The incremental query agrees with the full scan: what completing `c` makes ready is what
   get_next_tasks offers, less the tasks already completed, skipped or running.
   */
  lemma NextTasksAreNewlyReady(g: Graph, c: TaskId, completed: set<TaskId>, skipped: set<TaskId>, running: set<TaskId>)
    requires g.Valid() && Acyclic(g) && c in g.nodes && c !in completed
    requires (completed + {c}) !! skipped
    ensures ReadyTasks(g, completed + {c}, skipped, running) - ReadyTasks(g, completed, skipped, running)
         == NextTasks(g, c, completed + {c}) - completed - skipped - running
  {
    var r := AcyclicHasRank(g);
    forall n | n in g.Succs(c) ensures n != c && c in g.Preds(n) {
      var e := (c, n);
      assert r[e.0] < r[e.1];
    }
    var newly := ReadyTasks(g, completed + {c}, skipped, running) - ReadyTasks(g, completed, skipped, running);
    forall n | n in newly ensures n in NextTasks(g, c, completed + {c}) - completed - skipped - running {
      assert !(g.Preds(n) <= completed);
    }
  }

  lemma {:induction false} InOrderElements(order: seq<TaskId>, s: set<TaskId>, t: TaskId)
    ensures t in InOrder(order, s) <==> t in order && t in s
  {
    if order != [] { InOrderElements(order[..|order| - 1], s, t); }
  }

  /** `xs` lists every element of `s` once. */
  ghost predicate Lists<T(!new)>(xs: seq<T>, s: set<T>) {
    && (forall x :: x in xs <==> x in s)
    && (forall i, j | 0 <= i < j < |xs| :: xs[i] != xs[j])
  }

  lemma {:induction false} InOrderIsDistinct(order: seq<TaskId>, s: set<TaskId>)
    requires forall i, j | 0 <= i < j < |order| :: order[i] != order[j]
    ensures forall i, j | 0 <= i < j < |InOrder(order, s)| :: InOrder(order, s)[i] != InOrder(order, s)[j]
  {
    if order != [] {
      var init, last := order[..|order| - 1], order[|order| - 1];
      InOrderIsDistinct(init, s);
      InOrderElements(init, s, last);
      assert last !in InOrder(init, s);
    }
  }

  /** Picking a subset from a list of a set, in order, lists the subset. */
  lemma InOrderLists(order: seq<TaskId>, all: set<TaskId>, s: set<TaskId>)
    requires Lists(order, all) && s <= all
    ensures Lists(InOrder(order, s), s)
  {
    InOrderIsDistinct(order, s);
    forall t ensures t in InOrder(order, s) <==> t in s { InOrderElements(order, s, t); }
  }

  lemma ListsAppend<T(!new)>(xs: seq<T>, s: set<T>, x: T)
    requires Lists(xs, s)
    ensures x in s ==> s + {x} == s
    ensures x !in s ==> Lists(xs + [x], s + {x})
  {
  }

  // ---- The class ----

  class DAG {
    var nodes: map<TaskId, DagNode>
    var order: seq<TaskId>                    // the keys of nodes, in insertion order
    var edges: set<(TaskId, TaskId)>          // of the networkx graph
    var edgeOrder: seq<(TaskId, TaskId)>      // its edges, in insertion order

    ghost function Value(): Graph
      reads this
    {
      Graph(nodes.Keys, edges)
    }

    /** The dictionary order lists every task once, and the edge order every edge. */
    ghost predicate Listed()
      reads this
    {
      Lists(order, nodes.Keys) && Lists(edgeOrder, edges)
    }

    ghost predicate Valid()
      reads this
    {
      && Listed() && Value().Valid() && Acyclic(Value())
      && forall t | t in nodes ::
           nodes[t].dependencies == Value().Preds(t) && nodes[t].dependents == Value().Succs(t)
    }

    /** An empty object; Load fills it, as __init__ does. */
    constructor ()
      ensures nodes == map[] && order == [] && edges == {} && edgeOrder == []
    {
      nodes, order, edges, edgeOrder := map[], [], {}, [];
    }

    /** The workflow an execution of this graph runs, on a given input and with given handlers. */
    ghost function ToWorkflow(input: Object, result: (TaskId, Object) -> Option<Json>, maxConcurrent: nat,
        breaks: bool): Workflow
      reads this
    {
      Workflow(Value(), map t | t in nodes :: nodes[t].spec, input, result, maxConcurrent, breaks)
    }

    method AddNodes(tasks: seq<TaskConfig>)
      requires nodes == map[] && order == [] && edges == {} && edgeOrder == []
      modifies this
      ensures nodes.Keys == Ids(tasks) && edges == {} && edgeOrder == [] && Listed()
      ensures forall t | t in nodes :: SpecOf(tasks, t) == Some(nodes[t].spec)
    {
      for k := 0 to |tasks|
        invariant nodes.Keys == Ids(tasks[..k]) && edges == {} && edgeOrder == [] && Listed()
        invariant forall t | t in nodes :: SpecOf(tasks[..k], t) == Some(nodes[t].spec)
      {
        var t := tasks[k];
        assert tasks[..k + 1] == tasks[..k] + [t];
        AppendTask(tasks[..k], t);
        ListsAppend(order, nodes.Keys, t.id);
        hide Lists, Ids, SpecOf;
        if t.id !in nodes { order := order + [t.id]; }
        nodes := nodes[t.id := DagNode(t.spec, {}, {})];
      }
      assert tasks[..|tasks|] == tasks;
    }

    /** Stops at the first edge that names an unknown task. */
    method AddEdges(tasks: seq<TaskConfig>, es: seq<EdgeConfig>) returns (error: Option<DagError>)
      requires nodes.Keys == Ids(tasks) && edges == {} && edgeOrder == [] && Listed()
      modifies this`edges, this`edgeOrder
      ensures error.None? ==> (forall e | e in es :: Known(tasks, e)) && edges == Edges(es) && Listed()
      ensures error.Some? ==> exists i :: FirstUnknown(tasks, es, i) && error == UnknownEdge(es[i])
      ensures nodes == old(nodes)
    {
      for k := 0 to |es|
        invariant forall j | 0 <= j < k :: Known(tasks, es[j])
        invariant edges == Edges(es[..k]) && Listed()
      {
        var e := es[k];
        if e.fromTask !in nodes || e.toTask !in nodes {
          assert FirstUnknown(tasks, es, k);
          return Some(UnknownTask(e.fromTask, e.toTask));
        }
        assert es[..k + 1] == es[..k] + [e];
        var pair := (e.fromTask, e.toTask);
        ListsAppend(edgeOrder, edges, pair);
        if pair !in edges { edgeOrder := edgeOrder + [pair]; }
        edges := edges + {pair};
      }
      assert es[..|es|] == es;
      return None;
    }

    method LinkNodes()
      requires Listed()
      modifies this`nodes
      ensures nodes.Keys == old(nodes.Keys)
      ensures forall t | t in nodes ::
                nodes[t] == DagNode(old(nodes)[t].spec, Value().Preds(t), Value().Succs(t))
    {
      ghost var g := Value();
      for k := 0 to |order|
        invariant nodes.Keys == g.nodes
        invariant forall i | 0 <= i < k ::
            nodes[order[i]] == DagNode(old(nodes)[order[i]].spec, g.Preds(order[i]), g.Succs(order[i]))
        invariant forall i | k <= i < |order| :: nodes[order[i]] == old(nodes)[order[i]]
      {
        var t := order[k];
        var here := Graph(nodes.Keys, edges);
        nodes := nodes[t := DagNode(nodes[t].spec, here.Preds(t), here.Succs(t))];
      }
    }

    /**
     _parse and _validate. A definition is accepted exactly when its edges name known tasks, no walk
     returns to its start, and there is a task; the object then holds its graph.
     */
    method Load(tasks: seq<TaskConfig>, es: seq<EdgeConfig>) returns (error: Option<DagError>)
      requires nodes == map[] && order == [] && edges == {} && edgeOrder == []
      modifies this
      ensures error.None? <==> (forall e | e in es :: Known(tasks, e)) && Acyclic(GraphOf(tasks, es)) && tasks != []
      ensures error.None? ==> Valid() && Value() == GraphOf(tasks, es)
      ensures error.None? ==> forall t | t in nodes :: SpecOf(tasks, t) == Some(nodes[t].spec)
      ensures error.None? ==> forall t | t in nodes :: DefinedAs(tasks, es, t, nodes[t])
      ensures error.None? ==> forall t :: t in nodes <==> exists i :: 0 <= i < |tasks| && tasks[i].id == t
      ensures error == Some(HasCycle) <==> (forall e | e in es :: Known(tasks, e)) && !Acyclic(GraphOf(tasks, es))
      ensures error == Some(NoRoot) ==> tasks == []
      ensures (exists e :: e in es && !Known(tasks, e)) <==>
          exists i :: FirstUnknown(tasks, es, i) && error == UnknownEdge(es[i])
    {
      AddNodes(tasks);
      error := AddEdges(tasks, es);
      if error.Some? {
        ghost var i :| FirstUnknown(tasks, es, i) && error == UnknownEdge(es[i]);
        return;
      }
      LinkNodes();
      assert Value() == GraphOf(tasks, es);
      error := Validate();
      forall t | error.None? && t in nodes ensures DefinedAs(tasks, es, t, nodes[t]) {
        NodeIsDefined(tasks, es, t, nodes[t]);
      }
      forall t ensures t in nodes <==> exists i :: 0 <= i < |tasks| && tasks[i].id == t { IdsAre(tasks, t); }
      assert nodes.Keys != {} <==> tasks != [] by { if tasks != [] { assert tasks[0].id in nodes.Keys; } }
    }

    /** The root check only ever rejects the empty definition: an acyclic graph with tasks has a root. */
    method Validate() returns (error: Option<DagError>)
      requires Value().Valid()
      ensures error.None? <==> Acyclic(Value()) && nodes.Keys != {}
      ensures error == Some(HasCycle) <==> !Acyclic(Value())
      ensures error == Some(NoRoot) ==> nodes.Keys == {}
      ensures error.Some? ==> !error.value.UnknownTask?
    {
      var g := Graph(nodes.Keys, edges);
      PeelDecidesAcyclic(g);
      if Peel(g, {}) != g.nodes { return Some(HasCycle); }
      AcyclicHasRoot(g);
      var roots := set n | n in g.nodes && g.Preds(n) == {};
      if roots == {} { return Some(NoRoot); }
      return None;
    }

    /** get_ready_tasks: the ready tasks in dictionary order. */
    method GetReadyTasks(completed: set<TaskId>, skipped: set<TaskId>,
        running: set<TaskId>) returns (ready: seq<TaskId>)
      requires Listed()
      ensures ready == InOrder(order, ReadyTasks(Value(), completed, skipped, running))
    {
      ready := [];
      ghost var want := ReadyTasks(Value(), completed, skipped, running);
      for k := 0 to |order|
        invariant ready == InOrder(order[..k], want)
      {
        var nid := order[k];
        ghost var seen := order[..k + 1];
        assert seen[..|seen| - 1] == order[..k] && seen[|seen| - 1] == nid && ready + [] == ready;
        if nid in completed || nid in skipped || nid in running { continue; }
        var preds := Graph(nodes.Keys, edges).Preds(nid);
        assert nid in want <==> preds !! skipped && preds <= completed;
        if exists p :: p in preds && p in skipped { continue; }
        if preds != {} && !(preds <= completed) { continue; }
        ready := ready + [nid];
      }
      assert order[..|order|] == order;
      InOrderLists(order, nodes.Keys, want);
      ReadyWithNothingRunning(Value(), completed, skipped);
    }

    /** get_next_tasks: successors of `c` whose predecessors are all completed, once each. */
    method GetNextTasks(c: TaskId, completed: set<TaskId>) returns (ready: seq<TaskId>)
      requires Valid()
      ensures forall t :: t in ready <==> t in NextTasks(Value(), c, completed)
      ensures forall t :: t in ready <==> (c, t) in edges && forall p | (p, t) in edges :: p in completed
      ensures forall i, j | 0 <= i < j < |ready| :: ready[i] != ready[j]
    {
      ready := [];
      for k := 0 to |edgeOrder|
        invariant forall t :: t in ready <==> (c, t) in edgeOrder[..k] && t in NextTasks(Value(), c, completed)
        invariant forall i, j | 0 <= i < j < |ready| :: ready[i] != ready[j]
      {
        var e := edgeOrder[k];
        assert edgeOrder[..k + 1] == edgeOrder[..k] + [e];
        assert e !in edgeOrder[..k] && e in edges;
        if e.0 != c { continue; }
        var preds := Graph(nodes.Keys, edges).Preds(e.1);
        assert e == (c, e.1) && c in preds && e.1 in Value().Succs(c);
        if preds != {} && preds <= completed { ready := ready + [e.1]; }
      }
      assert edgeOrder[..|edgeOrder|] == edgeOrder;
    }
  }

  /**
   The executor's theorems apply to whatever the class loads: a validated graph makes a well-formed
   workflow exactly when branch targets lie below their conditions, the one thing Load does not ask.
   */
  lemma LoadedIsWellFormedIff(d: DAG, input: Object, result: (TaskId, Object) -> Option<Json>, maxConcurrent: nat,
      breaks: bool)
    requires d.Valid()
    ensures var w := d.ToWorkflow(input, result, maxConcurrent, breaks); WellFormed(w) <==> BranchesDescend(w)
  {
  }

  /** Load a definition and, if it is accepted, set up an execution of it. */
  method Prepare(tasks: seq<TaskConfig>, es: seq<EdgeConfig>, input: Object, ghost result: (TaskId,
      Object) -> Option<Json>,
                 maxConcurrent: nat, ghost breaks: bool)
    returns (error: Option<DagError>, dag: DAG, ghost w: Workflow)
    ensures fresh(dag)
    ensures error.None? <==> (forall e | e in es :: Known(tasks, e)) && Acyclic(GraphOf(tasks, es)) && tasks != []
    ensures error.None? ==> w.graph == GraphOf(tasks, es) && w.tasks.Keys == Ids(tasks) &&
                            (forall t | t in w.tasks :: SpecOf(tasks, t) == Some(w.tasks[t])) &&
                            (WellFormed(w) <==> BranchesDescend(w))
  {
    dag := new DAG();
    error := dag.Load(tasks, es);
    w := dag.ToWorkflow(input, result, maxConcurrent, breaks);
    if error.None? { LoadedIsWellFormedIff(dag, input, result, maxConcurrent, breaks); }
  }
}
