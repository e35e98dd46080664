/** Task graphs as values: edges with multiplicity, cycles, topological orders, and how the last two exclude each other. */
module GraphModel {
  import opened Basics

  type NodeId = nat

  /** A stored body, or what is left of it once it has been handed to the runtime. */
  datatype Desc = Body(id: nat) | MovedFrom

  datatype Node = Node(desc: Desc, predecessors: seq<NodeId>, successors: seq<NodeId>)

  type Graph = seq<Node>

  /** How often the edge was added, as the target's predecessor list has it. */
  function Multiplicity(g: Graph, before: NodeId, after: NodeId): nat
    requires after < |g|
  { multiset(g[after].predecessors)[before] }

  /** Both adjacency lists tell the same story, with multiplicity, and name only nodes of the graph. */
  ghost predicate Valid(g: Graph) {
    && (forall v, u | 0 <= v < |g| && u in g[v].predecessors :: u < |g| && u != v)
    && (forall u, v | 0 <= u < |g| && v in g[u].successors :: v < |g|)
    && (forall u, v | 0 <= u < |g| && 0 <= v < |g| :: multiset(g[u].successors)[v] == Multiplicity(g, u, v))
  }

  predicate IsEdge(g: Graph, u: NodeId, v: NodeId) { u < |g| && v < |g| && u in g[v].predecessors }

  /** The walk takes an edge from its entry `i` to the next. */
  predicate StepsAt(g: Graph, walk: seq<NodeId>, i: nat)
    requires i + 1 < |walk|
  {
    IsEdge(g, walk[i], walk[i + 1])
  }

  predicate IsWalk(g: Graph, walk: seq<NodeId>) {
    && (forall i | 0 <= i < |walk| :: walk[i] < |g|)
    && (forall i | 0 <= i < |walk| - 1 :: StepsAt(g, walk, i))
  }

  /** A walk along at least one edge that ends where it began. */
  predicate IsCycle(g: Graph, walk: seq<NodeId>) { |walk| >= 2 && IsWalk(g, walk) && walk[0] == walk[|walk| - 1] }

  ghost predicate Cyclic(g: Graph) { exists walk :: IsCycle(g, walk) }

  /** Every predecessor of an entry is an earlier entry. */
  predicate PredecessorsFirst(g: Graph, order: seq<NodeId>) {
    && (forall i | 0 <= i < |order| :: order[i] < |g|)
    && (forall i, u | 0 <= i < |order| && u in g[order[i]].predecessors :: u in order[..i])
  }

  /** Every node once, each after all its predecessors. */
  predicate IsTopological(g: Graph, order: seq<NodeId>) {
    Distinct(order) && |order| == |g| && PredecessorsFirst(g, order)
  }

  // ------------------------------------------------------------- pigeonholes

  lemma {:induction false} DistinctFit(s: seq<NodeId>, n: nat)
    requires Distinct(s) && forall i | 0 <= i < |s| :: s[i] < n
    ensures |s| <= n
    ensures |s| == n ==> forall v: NodeId | v < n :: v in s
  {
    if s != [] {
      var last := s[|s| - 1];
      if i :| 0 <= i < |s| && s[i] == n - 1 {
        var rest := s[..i] + s[i + 1..];
        DistinctFit(rest, n - 1);
        forall v: NodeId | v < n && |s| == n ensures v in s {
          if v < n - 1 {
            assert |rest| == n - 1 && v in rest;
            var k :| 0 <= k < |rest| && rest[k] == v;
            assert v == s[if k < i then k else k + 1];
          }
        }
      } else {
        DistinctFit(s, n - 1);
      }
    }
  }

  lemma Repetition(s: seq<NodeId>, n: nat) returns (i: nat, j: nat)
    requires |s| > n && forall k | 0 <= k < |s| :: s[k] < n
    ensures i < j < |s| && s[i] == s[j]
  {
    if Distinct(s) { DistinctFit(s, n); }
    i, j :| 0 <= i < j < |s| && s[i] == s[j];
  }

  // ------------------------------------------------------- orders and cycles

  function Place(order: seq<NodeId>, v: NodeId): (i: nat)
    requires v in order
    ensures i < |order| && order[i] == v
  {
    if order[0] == v then 0 else 1 + Place(order[1..], v)
  }

  lemma EdgeGoesForward(g: Graph, order: seq<NodeId>, u: NodeId, v: NodeId)
    requires IsTopological(g, order) && IsEdge(g, u, v) && u in order && v in order
    ensures Place(order, u) < Place(order, v)
  {
    var j := Place(order, v);
    assert u in order[..j];
    var i :| 0 <= i < j && order[..j][i] == u;
    assert order[i] == u == order[Place(order, u)];
  }

  lemma {:induction false} WalkGoesForward(g: Graph, order: seq<NodeId>, walk: seq<NodeId>)
    requires IsTopological(g, order) && IsWalk(g, walk) && |walk| >= 2 && forall v: NodeId | v < |g| :: v in order
    ensures Place(order, walk[0]) < Place(order, walk[|walk| - 1])
  {
    var n := |walk| - 1;
    assert StepsAt(g, walk, n - 1);
    EdgeGoesForward(g, order, walk[n - 1], walk[n]);
    if n > 1 {
      var shorter := walk[..n];
      assert forall i | 0 <= i < n - 1 :: StepsAt(g, walk, i) ==> StepsAt(g, shorter, i);
      WalkGoesForward(g, order, shorter);
    }
  }

  /** A graph with a topological order has no cycle. */
  lemma OrderedIsAcyclic(g: Graph, order: seq<NodeId>)
    requires IsTopological(g, order)
    ensures !Cyclic(g)
  {
    DistinctFit(order, |g|);
    forall walk ensures !IsCycle(g, walk) {
      if IsCycle(g, walk) { WalkGoesForward(g, order, walk); }
    }
  }

  /** `u` has a predecessor in `stuck`. */
  ghost predicate HeldBack(g: Graph, stuck: set<NodeId>, u: NodeId) {
    u < |g| && exists p :: p in g[u].predecessors && p in stuck
  }

  /** Nodes that each have a predecessor among themselves: back from any of them, for as long as we like. */
  lemma {:induction false} WalkBack(g: Graph, stuck: set<NodeId>, v: NodeId, n: nat) returns (walk: seq<NodeId>)
    requires v in stuck && forall u | u in stuck :: HeldBack(g, stuck, u)
    requires Valid(g)
    ensures |walk| == n + 1 && IsWalk(g, walk) && walk[n] == v
    decreases n
  {
    assert HeldBack(g, stuck, v);
    if n == 0 {
      walk := [v];
    } else {
      var p :| p in g[v].predecessors && p in stuck;
      var back := WalkBack(g, stuck, p, n - 1);
      walk := back + [v];
      assert forall i | 0 <= i < n - 1 :: StepsAt(g, back, i) ==> StepsAt(g, walk, i);
    }
  }

  /** Left-over nodes, each with a left-over predecessor, hold a cycle. */
  lemma StuckIsCyclic(g: Graph, stuck: set<NodeId>, v: NodeId)
    requires v in stuck && forall u | u in stuck :: HeldBack(g, stuck, u)
    requires Valid(g)
    ensures Cyclic(g)
  {
    var walk := WalkBack(g, stuck, v, |g|);
    var i, j := Repetition(walk, |g|);
    var cycle := walk[i..j + 1];
    forall k | 0 <= k < |cycle| - 1 ensures StepsAt(g, cycle, k) { assert StepsAt(g, walk, i + k); }
    assert IsCycle(g, cycle);
  }

  // ------------------------------------------------ counting what is still missing

  /** How many entries of `list` are not in `done`. */
  function Missing(list: seq<NodeId>, done: set<NodeId>): nat {
    if list == [] then 0
    else Missing(list[..|list| - 1], done) + if list[|list| - 1] in done then 0 else 1
  }

  lemma {:induction false} MissingNone(list: seq<NodeId>, done: set<NodeId>)
    ensures Missing(list, done) == 0 <==> forall u | u in list :: u in done
    ensures Missing(list, {}) == |list|
  {
    if list != [] {
      var n := |list| - 1;
      assert list == list[..n] + [list[n]];
      MissingNone(list[..n], done);
    }
  }

  lemma {:induction false} MissingOneLess(list: seq<NodeId>, done: set<NodeId>, u: NodeId)
    requires u !in done
    ensures Missing(list, done + {u}) == Missing(list, done) - multiset(list)[u]
  {
    if list != [] {
      var n := |list| - 1;
      assert list == list[..n] + [list[n]];
      assert multiset(list)[u] == multiset(list[..n])[u] + if list[n] == u then 1 else 0;
      MissingOneLess(list[..n], done, u);
    }
  }
}
