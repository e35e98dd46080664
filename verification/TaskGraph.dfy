/** The task graph: edges are added one at a time, ordered by Kahn's algorithm, and submitted in that order. */
module TaskGraphs {
  import opened Basics
  import opened GraphModel

  function SetOf(s: seq<NodeId>): set<NodeId> { set v | v in s }

  /** Between two rounds: `order` has been taken off, `ready` are the nodes that miss nothing more. */
  ghost predicate Kahn(g: Graph, remaining: seq<int>, ready: seq<NodeId>, order: seq<NodeId>) {
    && |remaining| == |g| && Distinct(order + ready) && PredecessorsFirst(g, order)
    && (forall v | 0 <= v < |g| :: remaining[v] == Missing(g[v].predecessors, SetOf(order)))
    && (forall v | v in ready :: v < |g|)
    && (forall v | 0 <= v < |g| :: v in order || v in ready <==> remaining[v] == 0)
  }

  /** Within the round of `id`, the last of `order`, after `k` of its successors. */
  ghost predicate Relaxing(g: Graph, remaining: seq<int>, ready: seq<NodeId>, order: seq<NodeId>, id: NodeId, k: nat) {
    && |remaining| == |g| && Distinct(order + ready) && id < |g| && k <= |g[id].successors|
    && (forall v | 0 <= v < |g| ::
          remaining[v] == Missing(g[v].predecessors, SetOf(order) - {id}) - multiset(g[id].successors[..k])[v])
    && (forall v | v in ready :: v < |g|)
    && (forall v | 0 <= v < |g| :: v in order || v in ready <==> remaining[v] == 0)
  }

  lemma DistinctParts(a: seq<NodeId>, b: seq<NodeId>)
    requires Distinct(a + b)
    ensures Distinct(a) && Distinct(b) && forall v | v in a :: v !in b
  {
    forall i, j | 0 <= i < j < |a| ensures a[i] != a[j] { assert (a + b)[i] == a[i] && (a + b)[j] == a[j]; }
    forall i, j | 0 <= i < j < |b| ensures b[i] != b[j] {
      assert (a + b)[|a| + i] == b[i] && (a + b)[|a| + j] == b[j];
    }
    forall i, j | 0 <= i < |a| && 0 <= j < |b| ensures a[i] != b[j] {
      assert (a + b)[i] == a[i] && (a + b)[|a| + j] == b[j];
    }
  }

  lemma StartRound(g: Graph, remaining: seq<int>, ready: seq<NodeId>, order: seq<NodeId>)
    requires Kahn(g, remaining, ready, order) && ready != []
    ensures ready[0] < |g| && Relaxing(g, remaining, ready[1..], order + [ready[0]], ready[0], 0)
  {
    hide Distinct, Missing;
    var id := ready[0];
    DistinctParts(order, ready);
    assert id in ready && ready == [id] + ready[1..];
    assert order + ready == (order + [id]) + ready[1..];
    assert SetOf(order + [id]) - {id} == SetOf(order);
    assert forall v | 0 <= v < |g| :: v in order + [id] || v in ready[1..] <==> v in order || v in ready;
    assert g[id].successors[..0] == [];
    assert forall v | v in ready[1..] :: v in ready;
    assert Distinct((order + [id]) + ready[1..]);
  }

  /** A node that misses nothing more may come next. */
  lemma NextInOrder(g: Graph, remaining: seq<int>, ready: seq<NodeId>, order: seq<NodeId>)
    requires Kahn(g, remaining, ready, order) && ready != []
    ensures PredecessorsFirst(g, order + [ready[0]]) && |order| < |g|
  {
    hide Distinct;
    var id := ready[0];
    RoomLeft(g, remaining, ready, order);
    assert id in ready;
    MissingNone(g[id].predecessors, SetOf(order));
    var longer := order + [id];
    forall i, u | 0 <= i < |longer| && u in g[longer[i]].predecessors ensures u in longer[..i] {
      assert longer[..i] == order[..i];
    }
  }

  lemma EndRound(g: Graph, remaining: seq<int>, ready: seq<NodeId>, order: seq<NodeId>, id: NodeId)
    requires Valid(g) && id in order && PredecessorsFirst(g, order)
    requires id < |g| && Relaxing(g, remaining, ready, order, id, |g[id].successors|)
    ensures Kahn(g, remaining, ready, order)
  {
    var before := SetOf(order) - {id};
    assert before + {id} == SetOf(order);
    assert g[id].successors[..|g[id].successors|] == g[id].successors;
    forall v | 0 <= v < |g| ensures remaining[v] == Missing(g[v].predecessors, SetOf(order)) {
      MissingOneLess(g[v].predecessors, before, id);
    }
  }

  /** A successor not yet relaxed is still missing something. */
  lemma StillMissing(g: Graph, remaining: seq<int>, ready: seq<NodeId>, order: seq<NodeId>, id: NodeId, k: nat)
    requires Valid(g) && Relaxing(g, remaining, ready, order, id, k) && k < |g[id].successors|
    ensures var v := g[id].successors[k]; v < |g| && remaining[v] > 0
  {
    var list := g[id].successors;
    var v := list[k];
    assert v in list;
    assert list == list[..k] + ([v] + list[k + 1..]);
    MissingOneLess(g[v].predecessors, SetOf(order) - {id}, id);
    assert multiset(list)[v] == Multiplicity(g, id, v);
  }

  /** One decrement: the successor joins `ready` if it is missing nothing more. */
  lemma Relax(g: Graph, remaining: seq<int>, ready: seq<NodeId>, order: seq<NodeId>, id: NodeId, k: nat)
    requires Valid(g) && Relaxing(g, remaining, ready, order, id, k) && k < |g[id].successors|
    ensures var v := g[id].successors[k];
      && v < |g| && remaining[v] > 0
      && var after := remaining[v := remaining[v] - 1];
         Relaxing(g, after, if after[v] == 0 then ready + [v] else ready, order, id, k + 1)
  {
    hide Valid, Missing;
    StillMissing(g, remaining, ready, order, id, k);
    var list := g[id].successors;
    var v := list[k];
    assert list[..k + 1] == list[..k] + [v];
    if remaining[v] == 1 {
      hide Distinct;
      DistinctMore(order + ready, v);
      assert order + (ready + [v]) == (order + ready) + [v];
    }
  }

  lemma DistinctMore(s: seq<NodeId>, v: NodeId)
    requires Distinct(s) && v !in s
    ensures Distinct(s + [v])
  {
  }

  /** If the worklist runs dry early, the rest of the graph is stuck. */
  lemma LeftOverIsCyclic(g: Graph, remaining: seq<int>, order: seq<NodeId>)
    requires Valid(g) && Kahn(g, remaining, [], order) && |order| != |g|
    ensures g != [] && Cyclic(g)
  {
    assert order + [] == order;
    DistinctFit(order, |g|);
    var stuck := set v: NodeId | v < |g| && v !in order;
    forall u | u in stuck ensures HeldBack(g, stuck, u) {
      MissingNone(g[u].predecessors, SetOf(order));
      var p :| p in g[u].predecessors && p !in SetOf(order);
      assert p in stuck;
    }
    var v: NodeId :| v < |g| && v !in order by { AllInMeansFull(g, order); }
    StuckIsCyclic(g, stuck, v);
  }

  lemma {:induction false} AllInMeansFull(g: Graph, order: seq<NodeId>)
    requires |order| < |g|
    ensures exists v: NodeId :: v < |g| && v !in order
  {
    if forall v: NodeId | v < |g| :: v in order {
      var all := seq(|g|, i => i);
      var places := seq(|g|, i requires 0 <= i < |g| => Place(order, i));
      var i, j := Repetition(places, |order|);
      assert order[places[i]] == i && order[places[j]] == j;
    }
  }

  lemma CompleteOrder(g: Graph, remaining: seq<int>, order: seq<NodeId>)
    requires Kahn(g, remaining, [], order) && |order| == |g|
    ensures IsTopological(g, order) && !Cyclic(g)
  {
    assert order + [] == order;
    OrderedIsAcyclic(g, order);
  }

  // -------------------------------------------------------------- submission

  type TaskId = nat

  /** One `submit_after`: the body, and the handles it was told to wait for. */
  datatype Call = Call(desc: Desc, deps: seq<TaskId>)

  /**
   What a runtime has been asked to do. A handle stands for the number of the submission that
   returned it, as in RuntimeModel, whether or not that submission got a pool slot.
   */
  class Runtime {
    var calls: seq<Call>
    var waits: seq<TaskId>

    constructor ()
      ensures calls == [] && waits == []
    {
      calls, waits := [], [];
    }

    method SubmitAfter(desc: Desc, deps: seq<TaskId>) returns (handle: TaskId)
      requires forall d | d in deps :: d < |calls|
      modifies this
      ensures handle == |old(calls)| && calls == old(calls) + [Call(desc, deps)] && waits == old(waits)
    {
      handle := |calls|;
      calls := calls + [Call(desc, deps)];
    }

    method Wait(handle: TaskId)
      requires handle < |calls|
      modifies this
      ensures calls == old(calls) && waits == old(waits) + [handle]
    {
      waits := waits + [handle];
    }
  }

  function HandlesOf(handles: seq<TaskId>, nodes: seq<NodeId>): (r: seq<TaskId>)
    requires forall u | u in nodes :: u < |handles|
    ensures |r| == |nodes|
  {
    seq(|nodes|, i requires 0 <= i < |nodes| => assert nodes[i] in nodes; handles[nodes[i]])
  }

  /**
   The runtime was asked, after its first `base` calls, for exactly one submission per node:
   the node's body, behind the handles of the node's predecessors, all returned earlier.
   */
  ghost predicate Submitted(g: Graph, base: nat, calls: seq<Call>, handles: seq<TaskId>)
    requires Valid(g)
  {
    && |handles| == |g| && |calls| == base + |g| && Distinct(handles)
    && (forall v | 0 <= v < |g| ::
          base <= handles[v] < |calls| && calls[handles[v]] == Call(g[v].desc, HandlesOf(handles, g[v].predecessors)))
    && (forall v, u | 0 <= v < |g| && u in g[v].predecessors :: handles[u] < handles[v])
  }

  /** The handle of a node that is submitted at its place in `order`. */
  function Number(order: seq<NodeId>, base: nat, v: NodeId): nat {
    if v in order then base + Place(order, v) else 0
  }

  function Numbers(order: seq<NodeId>, base: nat, list: seq<NodeId>): seq<TaskId> {
    seq(|list|, i requires 0 <= i < |list| => Number(order, base, list[i]))
  }

  /** After the first `j` nodes of `order`. */
  ghost predicate Submitting(g: Graph, order: seq<NodeId>, base: nat, j: nat, nodes: Graph, calls: seq<Call>, handles: seq<TaskId>) {
    && IsTopological(g, order) && j <= |order| && |nodes| == |g| == |handles| && |calls| == base + j
    && (forall i | 0 <= i < j ::
          calls[base + i] == Call(g[order[i]].desc, Numbers(order, base, g[order[i]].predecessors)))
    && (forall v | 0 <= v < |g| ::
          if v in order[..j] then nodes[v] == g[v].(desc := MovedFrom) && handles[v] == Number(order, base, v)
          else nodes[v] == g[v])
  }

  lemma PlaceIs(order: seq<NodeId>, i: nat)
    requires Distinct(order) && i < |order|
    ensures Place(order, order[i]) == i
  {
  }

  /** The handles gathered for the next node. */
  lemma Gathered(g: Graph, order: seq<NodeId>, base: nat, j: nat, nodes: Graph, calls: seq<Call>, handles: seq<TaskId>)
    requires Submitting(g, order, base, j, nodes, calls, handles) && j < |order|
    ensures order[j] < |g| && nodes[order[j]] == g[order[j]]
    ensures forall u | u in g[order[j]].predecessors ::
      u < |handles| && handles[u] == Number(order, base, u) && handles[u] < |calls|
  {
    PlaceIs(order, j);
    forall u | u in g[order[j]].predecessors
      ensures u < |handles| && handles[u] == Number(order, base, u) && handles[u] < |calls|
    {
      assert u in order[..j];
      var i :| 0 <= i < j && order[..j][i] == u;
      PlaceIs(order, i);
    }
  }

  lemma SubmitNext(g: Graph, order: seq<NodeId>, base: nat, j: nat, nodes: Graph, calls: seq<Call>, handles: seq<TaskId>)
    requires Submitting(g, order, base, j, nodes, calls, handles) && j < |order| && order[j] < |g|
    ensures var v := order[j];
      Submitting(g, order, base, j + 1, nodes[v := nodes[v].(desc := MovedFrom)],
                 calls + [Call(g[v].desc, Numbers(order, base, g[v].predecessors))], handles[v := base + j])
  {
    OrderIsDistinct(g, order);
    PlaceIs(order, j);
    Gathered(g, order, base, j, nodes, calls, handles);
    hide IsTopological, Numbers, Place, Distinct;
    assert order[..j + 1] == order[..j] + [order[j]];
  }

  lemma OrderIsDistinct(g: Graph, order: seq<NodeId>)
    requires IsTopological(g, order)
    ensures Distinct(order) && |order| == |g| && forall v: NodeId | v < |g| :: v in order
  {
    DistinctFit(order, |g|);
  }

  /** At the end every node has its number. */
  lemma Numbered(g: Graph, order: seq<NodeId>, base: nat, nodes: Graph, calls: seq<Call>, handles: seq<TaskId>, v: NodeId)
    requires Submitting(g, order, base, |order|, nodes, calls, handles) && v < |g| && v in order
    ensures |handles| == |g| == |nodes| && |calls| == base + |order|
    ensures handles[v] == base + Place(order, v) && nodes[v] == g[v].(desc := MovedFrom)
    ensures calls[handles[v]] == Call(g[v].desc, Numbers(order, base, g[v].predecessors))
  {
    hide IsTopological, Numbers;
    assert order[..|order|] == order;
    var i := Place(order, v);
    hide Place;
    assert order[i] == v;
  }

  lemma AllNumbered(g: Graph, order: seq<NodeId>, base: nat, nodes: Graph, calls: seq<Call>, handles: seq<TaskId>)
    requires Submitting(g, order, base, |order|, nodes, calls, handles)
    ensures |handles| == |g| == |nodes| == |order| && |calls| == base + |g| && IsTopological(g, order)
    ensures forall v: NodeId | v < |g| ::
      v in order && handles[v] == base + Place(order, v) && nodes[v] == g[v].(desc := MovedFrom)
      && calls[handles[v]] == Call(g[v].desc, Numbers(order, base, g[v].predecessors))
  {
    SameSizes(g, order, base, |order|, nodes, calls, handles);
    assert IsTopological(g, order);
    hide Submitting, IsTopological, Numbers, Place;
    OrderIsDistinct(g, order);
    forall v: NodeId | v < |g|
      ensures handles[v] == base + Place(order, v) && nodes[v] == g[v].(desc := MovedFrom)
      ensures calls[handles[v]] == Call(g[v].desc, Numbers(order, base, g[v].predecessors))
    {
      Numbered(g, order, base, nodes, calls, handles, v);
    }
  }

  lemma SameNumbers(g: Graph, order: seq<NodeId>, base: nat, handles: seq<TaskId>, v: NodeId)
    requires Valid(g) && v < |g| && |handles| == |g| && IsTopological(g, order)
    requires forall u: NodeId | u < |g| :: u in order && handles[u] == base + Place(order, u)
    ensures HandlesOf(handles, g[v].predecessors) == Numbers(order, base, g[v].predecessors)
    ensures forall u | u in g[v].predecessors :: handles[u] < handles[v]
  {
    assert forall i | 0 <= i < |g[v].predecessors| :: g[v].predecessors[i] in g[v].predecessors;
    forall u | u in g[v].predecessors ensures handles[u] < handles[v] { EdgeGoesForward(g, order, u, v); }
  }

  lemma AllSubmitted(g: Graph, order: seq<NodeId>, base: nat, nodes: Graph, calls: seq<Call>, handles: seq<TaskId>)
    requires Valid(g) && Submitting(g, order, base, |order|, nodes, calls, handles)
    ensures Submitted(g, base, calls, handles)
    ensures forall v | 0 <= v < |g| :: nodes[v] == g[v].(desc := MovedFrom)
  {
    hide Submitting, IsTopological, Valid, Numbers, HandlesOf;
    AllNumbered(g, order, base, nodes, calls, handles);
    assert forall v: NodeId | v < |g| :: base <= handles[v] < |calls|;
    forall v: NodeId | v < |g|
      ensures HandlesOf(handles, PredecessorsOf(g, v)) == Numbers(order, base, PredecessorsOf(g, v))
      ensures forall u | u in g[v].predecessors :: handles[u] < handles[v]
    {
      SameNumbers(g, order, base, handles, v);
    }
  }

  /** A node's predecessors, which in a valid graph are nodes of it. */
  function PredecessorsOf(g: Graph, v: NodeId): (list: seq<NodeId>)
    requires Valid(g) && v < |g|
    ensures list == g[v].predecessors && forall u | u in list :: u < |g|
  { g[v].predecessors }

  class TaskGraph {
    var nodes: seq<Node>
    var edgeCount: nat

    ghost predicate Valid()
      reads this
    {
      GraphModel.Valid(nodes)
    }

    constructor ()
      ensures Valid() && nodes == [] && edgeCount == 0
    {
      nodes := [];
      edgeCount := 0;
    }

    method Add(desc: Desc) returns (id: NodeId)
      requires Valid()
      modifies this
      ensures Valid() && id == |old(nodes)| && nodes == old(nodes) + [Node(desc, [], [])] && edgeCount == old(edgeCount)
    {
      id := |nodes|;
      nodes := nodes + [Node(desc, [], [])];
      FreshNode(old(nodes), desc);
    }

    /** An edge between two different nodes of the graph is added once more; any other is ignored. */
    method AddEdge(before: NodeId, after: NodeId)
      requires Valid()
      modifies this
      ensures Valid() && |nodes| == |old(nodes)| && forall v | 0 <= v < |nodes| :: nodes[v].desc == old(nodes)[v].desc
      ensures var accepted := before < |nodes| && after < |nodes| && before != after;
        && edgeCount == old(edgeCount) + (if accepted then 1 else 0)
        && forall u, v | 0 <= u && 0 <= v < |nodes| ::
             Multiplicity(nodes, u, v) ==
               Multiplicity(old(nodes), u, v) + if accepted && u == before && v == after then 1 else 0
    {
      if before >= |nodes| || after >= |nodes| {
        return;
      }
      if before == after {
        return;
      }
      nodes := nodes[after := nodes[after].(predecessors := nodes[after].predecessors + [before])];
      nodes := nodes[before := nodes[before].(successors := nodes[before].successors + [after])];
      assert nodes == WithEdge(old(nodes), before, after);
      edgeCount := edgeCount + 1;
      EdgeAdded(old(nodes), before, after);
    }

    /** All nodes in an order that respects every edge, or nothing when there is a cycle. */
    method TopologicalOrder() returns (order: seq<NodeId>)
      requires Valid()
      ensures order != [] ==> IsTopological(nodes, order)
      ensures order == [] <==> nodes == [] || Cyclic(nodes)
    {
      hide GraphModel.Valid, Kahn, Relaxing, PredecessorsFirst, IsTopological, Cyclic, Multiplicity;
      var count := |nodes|;
      var remaining := new int[count];
      for i := 0 to count
        invariant forall v | 0 <= v < i :: remaining[v] == |nodes[v].predecessors|
      {
        remaining[i] := |nodes[i].predecessors|;
      }

      var ready: seq<NodeId> := [];
      for i := 0 to count
        invariant forall v | v in ready :: v < i
        invariant forall v | 0 <= v < i :: v in ready <==> remaining[v] == 0
        invariant Distinct(ready)
      {
        if remaining[i] == 0 {
          ready := ready + [i];
        }
      }
      InitialRound(nodes, remaining[..], ready);

      order := [];
      while ready != []
        invariant Kahn(nodes, remaining[..], ready, order)
        decreases count - |order|
      {
        var id := ready[0];
        StartRound(nodes, remaining[..], ready, order);
        NextInOrder(nodes, remaining[..], ready, order);
        ready := ready[1..];
        order := order + [id];
        var successors := nodes[id].successors;
        for k := 0 to |successors|
          invariant Relaxing(nodes, remaining[..], ready, order, id, k)
        {
          Relax(nodes, remaining[..], ready, order, id, k);
          ghost var before := remaining[..];
          var successor := successors[k];
          remaining[successor] := remaining[successor] - 1;
          assert remaining[..] == before[successor := before[successor] - 1];
          if remaining[successor] == 0 {
            ready := ready + [successor];
          }
        }
        EndRound(nodes, remaining[..], ready, order, id);
      }

      if |order| != count {
        LeftOverIsCyclic(nodes, remaining[..], order);
        return [];
      }
      CompleteOrder(nodes, remaining[..], order);
    }

    method IsAcyclic() returns (acyclic: bool)
      requires Valid()
      ensures acyclic <==> !Cyclic(nodes)
    {
      if nodes == [] {
        EmptyIsAcyclic(nodes);
        return true;
      }
      var order := TopologicalOrder();
      return order != [];
    }

    /** An acyclic graph is submitted whole, a cyclic one not at all; the edges stay as they are. */
    method Submit(runtime: Runtime) returns (handles: seq<TaskId>)
      requires Valid()
      modifies this, runtime
      ensures Valid() && edgeCount == old(edgeCount) && runtime.waits == old(runtime.waits)
      ensures old(runtime.calls) <= runtime.calls
      ensures old(nodes == [] || Cyclic(nodes)) ==>
        handles == [] && nodes == old(nodes) && runtime.calls == old(runtime.calls)
      ensures !old(nodes == [] || Cyclic(nodes)) ==>
        && handles != [] && Submitted(old(nodes), |old(runtime.calls)|, runtime.calls, handles)
        && |nodes| == |old(nodes)| && forall v | 0 <= v < |nodes| :: nodes[v] == old(nodes)[v].(desc := MovedFrom)
    {
      hide GraphModel.Valid, Submitting, Submitted, IsTopological, Cyclic;
      if nodes == [] {
        return [];
      }
      var order := TopologicalOrder();
      if order == [] {
        return [];
      }
      ghost var g, base := nodes, |runtime.calls|;
      handles := seq(|nodes|, i => 0);
      StartSubmitting(g, order, runtime.calls, handles);
      for j := 0 to |order|
        invariant Submitting(g, order, base, j, nodes, runtime.calls, handles)
        invariant edgeCount == old(edgeCount) && runtime.waits == old(runtime.waits)
        invariant old(runtime.calls) <= runtime.calls
      {
        var id := order[j];
        Gathered(g, order, base, j, nodes, runtime.calls, handles);
        SubmitNext(g, order, base, j, nodes, runtime.calls, handles);
        SameSizes(g, order, base, j, nodes, runtime.calls, handles);
        var predecessors := nodes[id].predecessors;
        var dependencies: seq<TaskId> := [];
        for k := 0 to |predecessors|
          invariant |dependencies| == k && forall m | 0 <= m < k :: dependencies[m] == Number(order, base, predecessors[m])
          invariant forall d | d in dependencies :: d < |runtime.calls|
        {
          assert predecessors[k] in predecessors;
          dependencies := dependencies + [handles[predecessors[k]]];
        }
        assert dependencies == Numbers(order, base, predecessors);
        var desc := nodes[id].desc;
        nodes := nodes[id := nodes[id].(desc := MovedFrom)];
        var handle := runtime.SubmitAfter(desc, dependencies);
        handles := handles[id := handle];
      }
      AllSubmitted(g, order, base, nodes, runtime.calls, handles);
      SameSizes(g, order, base, |order|, nodes, runtime.calls, handles);
      SameEdgesValid(g, nodes);
    }

    /** Returns false exactly for a cyclic graph; otherwise every node's handle is waited for. */
    method SubmitAndWait(runtime: Runtime) returns (accepted: bool)
      requires Valid()
      modifies this, runtime
      ensures Valid() && (accepted <==> !old(Cyclic(nodes)))
      ensures old(nodes != [] && !Cyclic(nodes)) ==> exists handles ::
        Submitted(old(nodes), |old(runtime.calls)|, runtime.calls, handles) && runtime.waits == old(runtime.waits) + handles
      ensures old(nodes == [] || Cyclic(nodes)) ==>
        runtime.calls == old(runtime.calls) && runtime.waits == old(runtime.waits)
    {
      hide GraphModel.Valid, Submitted, Cyclic;
      ghost var g, base := nodes, |runtime.calls|;
      if |g| == 0 { EmptyIsAcyclic(g); }
      var handles := Submit(runtime);
      ghost var calls := runtime.calls;
      if handles == [] && nodes != [] {
        return false;
      }
      if nodes != [] { HandlesInRange(g, base, runtime.calls, handles); }
      for i := 0 to |handles|
        modifies runtime
        invariant runtime.calls == calls
        invariant runtime.waits == old(runtime.waits) + handles[..i]
      {
        runtime.Wait(handles[i]);
      }
      assert runtime.waits == old(runtime.waits) + handles by { assert handles[..|handles|] == handles; }
      return true;
    }
  }

  lemma StartSubmitting(g: Graph, order: seq<NodeId>, calls: seq<Call>, handles: seq<TaskId>)
    requires IsTopological(g, order) && |handles| == |g|
    ensures Submitting(g, order, |calls|, 0, g, calls, handles)
  {
  }

  lemma SameSizes(g: Graph, order: seq<NodeId>, base: nat, j: nat, nodes: Graph, calls: seq<Call>, handles: seq<TaskId>)
    requires Submitting(g, order, base, j, nodes, calls, handles)
    ensures |nodes| == |g| == |handles| == |order| && |calls| == base + j
  {
  }

  lemma SameEdgesValid(g: Graph, nodes: Graph)
    requires Valid(g) && |nodes| == |g| && forall v | 0 <= v < |g| :: nodes[v] == g[v].(desc := MovedFrom)
    ensures Valid(nodes)
  {
    forall u, v | 0 <= u < |g| && 0 <= v < |g| ensures multiset(nodes[u].successors)[v] == Multiplicity(nodes, u, v) {
      assert multiset(g[u].successors)[v] == Multiplicity(g, u, v);
    }
  }

  lemma HandlesInRange(g: Graph, base: nat, calls: seq<Call>, handles: seq<TaskId>)
    requires Valid(g) && Submitted(g, base, calls, handles)
    ensures forall v | 0 <= v < |handles| :: handles[v] < |calls|
  {
  }

  function WithEdge(g: Graph, before: NodeId, after: NodeId): Graph
    requires before < |g| && after < |g| && before != after
  {
    g[after := g[after].(predecessors := g[after].predecessors + [before])]
     [before := g[before].(successors := g[before].successors + [after])]
  }

  lemma EdgeCounted(g: Graph, before: NodeId, after: NodeId, u: NodeId, v: NodeId)
    requires before < |g| && after < |g| && before != after && v < |g|
    ensures var r := WithEdge(g, before, after); var more := if u == before && v == after then 1 else 0;
      && Multiplicity(r, u, v) == Multiplicity(g, u, v) + more
      && (u < |g| ==> multiset(r[u].successors)[v] == multiset(g[u].successors)[v] + more)
  {
  }

  lemma EdgeAdded(g: Graph, before: NodeId, after: NodeId)
    requires GraphModel.Valid(g) && before < |g| && after < |g| && before != after
    ensures var r := WithEdge(g, before, after);
      && GraphModel.Valid(r) && (forall v | 0 <= v < |g| :: r[v].desc == g[v].desc)
      && forall u, v | 0 <= u && 0 <= v < |g| ::
           Multiplicity(r, u, v) == Multiplicity(g, u, v) + if u == before && v == after then 1 else 0
  {
    var r := WithEdge(g, before, after);
    forall v, u | 0 <= v < |r| && u in r[v].predecessors ensures u < |r| && u != v {
      assert u in g[v].predecessors || (v == after && u == before);
    }
    forall u, v | 0 <= u < |r| && v in r[u].successors ensures v < |r| {
      assert v in g[u].successors || (u == before && v == after);
    }
    hide Multiplicity;
    forall u: NodeId, v: NodeId | v < |r|
      ensures Multiplicity(r, u, v) == Multiplicity(g, u, v) + if u == before && v == after then 1 else 0
    {
      EdgeCounted(g, before, after, u, v);
    }
    forall u: NodeId, v: NodeId | u < |r| && v < |r|
      ensures multiset(r[u].successors)[v] == Multiplicity(r, u, v)
    {
      EdgeCounted(g, before, after, u, v);
    }
  }

  lemma EmptyIsAcyclic(g: Graph)
    requires |g| == 0
    ensures !Cyclic(g)
  {
    OrderedIsAcyclic(g, []);
  }

  lemma FreshNode(g: Graph, desc: Desc)
    requires GraphModel.Valid(g)
    ensures GraphModel.Valid(g + [Node(desc, [], [])])
  {
    var r := g + [Node(desc, [], [])];
    forall u, v | 0 <= u < |r| && 0 <= v < |r| ensures multiset(r[u].successors)[v] == Multiplicity(r, u, v) {
      if u < |g| && v == |g| { assert v !in g[u].successors; }
      if v < |g| && u == |g| { assert u !in g[v].predecessors; }
    }
  }

  lemma InitialRound(g: Graph, remaining: seq<int>, ready: seq<NodeId>)
    requires |remaining| == |g| && Distinct(ready) && forall v | v in ready :: v < |g|
    requires forall v | 0 <= v < |g| :: remaining[v] == |g[v].predecessors| && (v in ready <==> remaining[v] == 0)
    ensures Kahn(g, remaining, ready, [])
  {
    assert SetOf([]) == {} && [] + ready == ready;
    forall v | 0 <= v < |g| ensures remaining[v] == Missing(g[v].predecessors, {}) {
      MissingNone(g[v].predecessors, {});
    }
  }

  lemma RoomLeft(g: Graph, remaining: seq<int>, ready: seq<NodeId>, order: seq<NodeId>)
    requires Kahn(g, remaining, ready, order) && ready != []
    ensures |order| < |g|
  {
    forall k | 0 <= k < |order + ready| ensures (order + ready)[k] < |g| {
      if k >= |order| { assert (order + ready)[k] in ready; }
    }
    DistinctFit(order + ready, |g|);
  }
}
