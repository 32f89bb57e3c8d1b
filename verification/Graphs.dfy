/** Task graphs: walks, acyclicity, and the layers a graph peels into. */
module Graphs {
  type TaskId = string

  /** The graph a DAG object holds: its task ids and its (from, to) edges. */
  datatype Graph = Graph(nodes: set<TaskId>, edges: set<(TaskId, TaskId)>) {
    predicate Valid() {
      forall e | e in edges :: e.0 in nodes && e.1 in nodes
    }

    function Preds(n: TaskId): set<TaskId> {
      set p | p in nodes && (p, n) in edges
    }

    function Succs(n: TaskId): set<TaskId> {
      set m | m in nodes && (n, m) in edges
    }
  }

  // ---- Acyclicity, stated with walks ----

  /** A nonempty sequence of tasks in which every step follows an edge. */
  ghost predicate Walk(g: Graph, p: seq<TaskId>) {
    && |p| >= 1
    && (forall i | 0 <= i < |p| :: p[i] in g.nodes)
    && (forall i | 0 <= i < |p| - 1 :: (p[i], p[i + 1]) in g.edges)
  }

  ghost predicate WalkFromTo(g: Graph, a: TaskId, p: seq<TaskId>, b: TaskId) {
    Walk(g, p) && |p| >= 2 && p[0] == a && p[|p| - 1] == b
  }

  ghost predicate Acyclic(g: Graph) {
    forall p: seq<TaskId>, a :: !WalkFromTo(g, a, p, a)
  }

  /** `b` lies downstream of `a`. */
  ghost predicate Ancestor(g: Graph, a: TaskId, b: TaskId) {
    exists p: seq<TaskId> :: WalkFromTo(g, a, p, b)
  }

  /** A numbering that grows along every edge. */
  ghost predicate IsRank(g: Graph, r: map<TaskId, nat>) {
    && r.Keys == g.nodes
    && forall e | e in g.edges && e.0 in g.nodes && e.1 in g.nodes :: r[e.0] < r[e.1]
  }

  lemma {:induction false} WalkClimbs(g: Graph, r: map<TaskId, nat>, p: seq<TaskId>)
    requires IsRank(g, r) && Walk(g, p)
    ensures r[p[0]] + |p| - 1 <= r[p[|p| - 1]]
  {
    if |p| > 1 {
      var q := p[..|p| - 1];
      WalkClimbs(g, r, q);
      assert (p[|p| - 2], p[|p| - 2 + 1]) in g.edges;
    }
  }

  lemma ExtendWalk(g: Graph, q: seq<TaskId>, n: TaskId) returns (p: seq<TaskId>)
    requires Walk(g, q) && n in g.nodes && (q[|q| - 1], n) in g.edges
    ensures Walk(g, p) && p == q + [n]
  {
    p := q + [n];
    forall i | 0 <= i < |p| - 1 ensures (p[i], p[i + 1]) in g.edges {
      if i < |q| - 1 { assert (q[i], q[i + 1]) in g.edges; }
    }
  }

  // ---- Peeling: take away, round after round, the tasks with no predecessor left ----

  function Frontier(g: Graph, done: set<TaskId>): set<TaskId> {
    set n | n in g.nodes && n !in done && g.Preds(n) <= done
  }

  lemma FrontierIsFresh(g: Graph, done: set<TaskId>, n: TaskId)
    ensures n in Frontier(g, done) <==> n in g.nodes && n !in done && g.Preds(n) <= done
  {
  }

  function Peel(g: Graph, done: set<TaskId>): set<TaskId>
    requires done <= g.nodes
    decreases |g.nodes - done|
  {
    var front := Frontier(g, done);
    if front == {} then done
    else
      FrontierShrinks(g, done);
      Peel(g, done + front)
  }

  lemma FrontierShrinks(g: Graph, done: set<TaskId>)
    requires done <= g.nodes && Frontier(g, done) != {}
    ensures done + Frontier(g, done) <= g.nodes
    ensures |g.nodes - (done + Frontier(g, done))| < |g.nodes - done|
  {
    var front := Frontier(g, done);
    var n :| n in front;
    assert g.nodes - (done + front) <= g.nodes - done - {n};
    SubsetSize(g.nodes - (done + front), g.nodes - done - {n});
  }

  lemma {:induction false} SubsetSize<T>(a: set<T>, b: set<T>)
    requires a <= b
    ensures |a| <= |b|
    ensures |a| == |b| ==> a == b
  {
    if a != {} {
      var x :| x in a;
      SubsetSize(a - {x}, b - {x});
    }
  }

  /** What peeling leaves behind is a set in which every task has a predecessor. */
  lemma {:induction false} PeelRemainder(g: Graph, done: set<TaskId>)
    requires done <= g.nodes
    ensures done <= Peel(g, done) <= g.nodes
    ensures Frontier(g, Peel(g, done)) == {}
    decreases |g.nodes - done|
  {
    var front := Frontier(g, done);
    if front != {} {
      FrontierShrinks(g, done);
      PeelRemainder(g, done + front);
    }
  }

  /** A rank for a predecessor-closed part of the graph, with all values below k. */
  ghost predicate PartialRank(g: Graph, r: map<TaskId, nat>, k: nat) {
    && (forall n | n in r :: r[n] < k && g.Preds(n) <= r.Keys)
    && (forall n, p | n in r && p in g.Preds(n) :: p in r && r[p] < r[n])
  }

  lemma ExtendRank(g: Graph, r: map<TaskId, nat>, k: nat) returns (r1: map<TaskId, nat>)
    requires PartialRank(g, r, k)
    ensures PartialRank(g, r1, k + 1) && r1.Keys == r.Keys + Frontier(g, r.Keys)
  {
    r1 := r + map n | n in Frontier(g, r.Keys) :: k;
  }

  lemma {:induction false} PeelRanks(g: Graph, r: map<TaskId, nat>, k: nat) returns (r': map<TaskId, nat>, k': nat)
    requires r.Keys <= g.nodes && PartialRank(g, r, k)
    ensures PartialRank(g, r', k') && r'.Keys == Peel(g, r.Keys)
    decreases |g.nodes - r.Keys|
  {
    hide Frontier, PartialRank;
    if Frontier(g, r.Keys) == {} {
      r', k' := r, k;
    } else {
      FrontierShrinks(g, r.Keys);
      var r1 := ExtendRank(g, r, k);
      r', k' := PeelRanks(g, r1, k + 1);
    }
  }

  lemma PeelHasRank(g: Graph) returns (r: map<TaskId, nat>)
    requires g.Valid() && Peel(g, {}) == g.nodes
    ensures IsRank(g, r)
  {
    hide Frontier;
    var none: map<TaskId, nat> := map[];
    assert none.Keys == {};
    var k: nat;
    r, k := PeelRanks(g, none, 0);
    forall e | e in g.edges ensures r[e.0] < r[e.1] {
      assert e == (e.0, e.1) && e.0 in g.Preds(e.1);
    }
  }

  /** In a set where every task has a predecessor inside, a walk of any length ends at any task. */
  lemma {:induction false} BackwardWalk(g: Graph, left: set<TaskId>, b: TaskId, k: nat) returns (p: seq<TaskId>)
    requires b in left && left <= g.nodes
    requires forall n | n in left :: g.Preds(n) * left != {}
    decreases k
    ensures |p| == k + 1 && p[k] == b && Walk(g, p) && (forall i | 0 <= i < |p| :: p[i] in left)
  {
    if k == 0 {
      p := [b];
    } else {
      assert g.Preds(b) * left != {};
      var a :| a in g.Preds(b) * left;
      var q := BackwardWalk(g, left, a, k - 1);
      p := ExtendWalk(g, q, b);
    }
  }

  /** Pigeonhole: a sequence longer than the set it draws from repeats an element. */
  lemma {:induction false} Repeats(p: seq<TaskId>, s: set<TaskId>) returns (i: nat, j: nat)
    requires (forall k | 0 <= k < |p| :: p[k] in s) && |p| > |s|
    ensures i < j < |p| && p[i] == p[j]
  {
    var last := p[|p| - 1];
    var q := p[..|p| - 1];
    if k :| 0 <= k < |q| && q[k] == last {
      i, j := k, |p| - 1;
    } else {
      i, j := Repeats(q, s - {last});
    }
  }

  lemma ClosedSetHasCycle(g: Graph, left: set<TaskId>)
    requires left <= g.nodes && left != {}
    requires forall n | n in left :: g.Preds(n) * left != {}
    ensures !Acyclic(g)
  {
    var b :| b in left;
    var p := BackwardWalk(g, left, b, |left|);
    var i, j := Repeats(p, left);
    var q := p[i..j + 1];
    forall k | 0 <= k < |q| - 1 ensures (q[k], q[k + 1]) in g.edges {
      assert (p[i + k], p[i + k + 1]) in g.edges;
    }
    assert WalkFromTo(g, p[i], q, p[i]);
  }

  lemma RankedIsAcyclic(g: Graph, r: map<TaskId, nat>)
    requires IsRank(g, r)
    ensures Acyclic(g)
  {
    forall p: seq<TaskId>, a ensures !WalkFromTo(g, a, p, a) {
      if WalkFromTo(g, a, p, a) { WalkClimbs(g, r, p); }
    }
  }

  /** Peeling consumes the whole graph exactly when no walk returns to its start. */
  lemma PeelDecidesAcyclic(g: Graph)
    requires g.Valid()
    ensures Peel(g, {}) == g.nodes <==> Acyclic(g)
  {
    PeelRemainder(g, {});
    var left := g.nodes - Peel(g, {});
    if left == {} {
      var r := PeelHasRank(g);
      RankedIsAcyclic(g, r);
    } else {
      forall n | n in left ensures g.Preds(n) * left != {} {
        assert n !in Frontier(g, Peel(g, {}));
        var p :| p in g.Preds(n) && p !in Peel(g, {});
        assert p in g.Preds(n) * left;
      }
      ClosedSetHasCycle(g, left);
    }
  }

  lemma AcyclicHasRank(g: Graph) returns (r: map<TaskId, nat>)
    requires g.Valid() && Acyclic(g)
    ensures IsRank(g, r)
  {
    PeelDecidesAcyclic(g);
    r := PeelHasRank(g);
  }

  /** A nonempty acyclic graph always has a root, so only the empty definition fails the root check. */
  lemma AcyclicHasRoot(g: Graph)
    requires g.Valid() && Acyclic(g)
    ensures g.nodes != {} <==> exists n :: n in g.nodes && g.Preds(n) == {}
  {
    if g.nodes != {} {
      if forall n | n in g.nodes :: g.Preds(n) * g.nodes != {} {
        ClosedSetHasCycle(g, g.nodes);
      } else {
        var n :| n in g.nodes && g.Preds(n) * g.nodes == {};
        assert g.Preds(n) == {};
      }
    }
  }

  // ---- Sets closed under predecessors ----

  ghost predicate PredClosed(g: Graph, s: set<TaskId>) {
    forall n | n in s :: g.Preds(n) <= s
  }

  /** A predecessor-closed set that holds all predecessors of `b` holds all its ancestors. */
  lemma {:induction false} ClosedHoldsAncestors(g: Graph, s: set<TaskId>, a: TaskId, b: TaskId)
    requires PredClosed(g, s) && g.Preds(b) <= s && Ancestor(g, a, b)
    ensures a in s
  {
    var p :| WalkFromTo(g, a, p, b);
    var i := |p| - 2;
    assert (p[i], p[i + 1]) in g.edges;
    assert p[i] in g.Preds(b);
    while i > 0
      invariant 0 <= i < |p| && p[i] in s
    {
      assert (p[i - 1], p[i - 1 + 1]) in g.edges;
      assert p[i - 1] in g.Preds(p[i]);
      i := i - 1;
    }
  }

  lemma AncestorRank(g: Graph, r: map<TaskId, nat>, a: TaskId, b: TaskId)
    requires IsRank(g, r) && Ancestor(g, a, b)
    ensures a in g.nodes && b in g.nodes && r[a] < r[b]
  {
    var p :| WalkFromTo(g, a, p, b);
    WalkClimbs(g, r, p);
  }

  // ---- Generations ----

  /** The tasks of the generations before the k-th. */
  function Before(g: Graph, k: nat): set<TaskId> {
    if k == 0 then {} else Before(g, k - 1) + Frontier(g, Before(g, k - 1))
  }

  lemma {:induction false} BeforeIsClosed(g: Graph, k: nat)
    ensures Before(g, k) <= g.nodes && PredClosed(g, Before(g, k))
  {
    if k > 0 { BeforeIsClosed(g, k - 1); }
  }

  lemma {:induction false} BeforeGrows(g: Graph, j: nat, k: nat)
    requires j <= k
    ensures Before(g, j) <= Before(g, k)
  {
    if j < k { BeforeGrows(g, j, k - 1); }
  }

  /** The generations from the k-th on, as get_execution_order lists them. */
  function GenerationsFrom(g: Graph, k: nat): (gens: seq<set<TaskId>>)
    decreases |g.nodes - Before(g, k)|
  {
    var front := Frontier(g, Before(g, k));
    if front == {} then []
    else
      BeforeIsClosed(g, k);
      FrontierShrinks(g, Before(g, k));
      [front] + GenerationsFrom(g, k + 1)
  }

  function Generations(g: Graph): seq<set<TaskId>> {
    GenerationsFrom(g, 0)
  }

  lemma {:induction false} GenerationIsFrontier(g: Graph, k: nat, i: nat)
    requires i <= |GenerationsFrom(g, k)|
    ensures i < |GenerationsFrom(g, k)| ==> GenerationsFrom(g, k)[i] == Frontier(g, Before(g, k + i))
    ensures i == |GenerationsFrom(g, k)| ==> Frontier(g, Before(g, k + i)) == {}
    decreases i
  {
    hide Frontier;
    if i > 0 { GenerationIsFrontier(g, k + 1, i - 1); }
  }

  lemma {:induction false} BeforeStalls(g: Graph, j: nat, k: nat)
    requires j <= k && Frontier(g, Before(g, j)) == {}
    ensures Before(g, k) == Before(g, j)
  {
    hide Frontier;
    if j < k { BeforeStalls(g, j, k - 1); }
  }

  lemma NonemptyFrontierIsGeneration(g: Graph, k: nat)
    requires Frontier(g, Before(g, k)) != {}
    ensures k < |Generations(g)| && Generations(g)[k] == Frontier(g, Before(g, k))
  {
    hide Frontier;
    var n := |Generations(g)|;
    if n <= k {
      GenerationIsFrontier(g, 0, n);
      BeforeStalls(g, n, k);
    } else {
      GenerationIsFrontier(g, 0, k);
    }
  }

  lemma {:induction false} PeelPassesBefore(g: Graph, k: nat)
    ensures Before(g, k) <= g.nodes && Peel(g, Before(g, k)) == Peel(g, {})
  {
    hide Frontier;
    BeforeIsClosed(g, k);
    if k > 0 {
      PeelPassesBefore(g, k - 1);
      BeforeIsClosed(g, k - 1);
      if Frontier(g, Before(g, k - 1)) == {} { assert Before(g, k) == Before(g, k - 1); }
    }
  }

  /** The generations partition the tasks: each task is in exactly one of them. */
  lemma GenerationsPartition(g: Graph, n: TaskId)
    requires g.Valid() && Acyclic(g) && n in g.nodes
    ensures exists k :: 0 <= k < |Generations(g)| && n in Generations(g)[k]
    ensures forall i, j | 0 <= i < j < |Generations(g)| :: n in Generations(g)[i] ==> n !in Generations(g)[j]
  {
    hide Frontier;
    var gens := Generations(g);
    PeelDecidesAcyclic(g);
    GenerationIsFrontier(g, 0, |gens|);
    PeelPassesBefore(g, |gens|);
    var k := |gens|;
    while n in Before(g, k - 1)
      invariant 0 < k <= |gens| && n in Before(g, k)
      decreases k
    {
      k := k - 1;
    }
    GenerationIsFrontier(g, 0, k - 1);
    assert n in gens[k - 1];
    forall i, j | 0 <= i < j < |gens| && n in gens[i] ensures n !in gens[j] {
      GenerationIsFrontier(g, 0, i);
      GenerationIsFrontier(g, 0, j);
      BeforeGrows(g, i + 1, j);
      FrontierIsFresh(g, Before(g, j), n);
    }
  }

  /** Every predecessor of a task is in an earlier generation, and one is in the generation just before. */
  lemma GenerationFollowsPredecessors(g: Graph, k: nat, n: TaskId)
    requires k < |Generations(g)| && n in Generations(g)[k]
    ensures g.Preds(n) <= Before(g, k)
    ensures k == 0 ==> g.Preds(n) == {}
    ensures k > 0 ==> g.Preds(n) * Generations(g)[k - 1] != {}
  {
    hide Frontier;
    GenerationIsFrontier(g, 0, k);
    FrontierIsFresh(g, Before(g, k), n);
    if k > 0 {
      GenerationIsFrontier(g, 0, k - 1);
      var early := Before(g, k - 1);
      assert n !in Frontier(g, early);
      FrontierIsFresh(g, early, n);
      var p :| p in g.Preds(n) && p !in early;
      assert p in g.Preds(n) * Frontier(g, early);
    }
  }
}
