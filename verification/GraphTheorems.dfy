/** A submitted graph on the runtime: what TaskGraph asks for, and what RuntimeModel makes of it. */
module GraphTheorems {
  import GraphModel
  import opened TaskGraphs
  import RuntimeModel
  import RuntimeTheorems

  type TaskId = TaskGraphs.TaskId

  /**
   The runtime has taken the first `|names|` calls, the last of them perhaps still in progress:
   call `k` became its task `names[k]`. Other threads may have submitted in between, so the
   names need not be consecutive.
   */
  ghost predicate Carries(tasks: seq<RuntimeModel.Task>, calls: seq<Call>, names: seq<TaskId>) {
    && |names| <= |calls|
    && (forall k | 0 <= k < |names| ::
          && names[k] < |tasks| && !tasks[names[k]].kind.InPlace?
          && |tasks[names[k]].deps| == |calls[k].deps|
          && forall i | 0 <= i < |calls[k].deps| ::
               calls[k].deps[i] < |names| && tasks[names[k]].deps[i] == names[calls[k].deps[i]])
  }

  /**
   In every state from the moment a node's own submission begins, whatever else the runtime is
   doing, whatever part of the graph is still to be submitted, and whether the predecessors are
   still waiting, already done, recycled, or ran inline: the node's body does not start twice,
   it does not start before the bodies of all its predecessors have returned, and whenever
   nothing is outstanding it has run.
   */
  lemma GraphRunsInOrder(run: seq<RuntimeModel.Sys>, n: nat, g: GraphModel.Graph, base: nat,
                         calls: seq<Call>, handles: seq<TaskId>, names: seq<TaskId>, v: GraphModel.NodeId)
    requires RuntimeModel.Run(run) && n < |run| && GraphModel.Valid(g) && Submitted(g, base, calls, handles)
    requires Carries(run[n].tasks, calls, names) && v < |g| && handles[v] < |names|
    ensures var tasks := run[n].tasks; var t := tasks[names[handles[v]]];
      && t.started <= 1 && (t.done ==> t.started == 1)
      && (t.started == 1 ==> forall u | u in g[v].predecessors ::
            handles[u] < handles[v] && tasks[names[handles[u]]].done)
      && (run[n].outstanding == 0 ==> t.started == 1 && t.done)
  {
    var tasks := run[n].tasks;
    var k := handles[v];
    RuntimeTheorems.EveryTaskRunsOnceAfterItsDependencies(run, n, names[k]);
    RuntimeTheorems.OutstandingIsExact(run, n);
    if tasks[names[k]].phase.Dropped? { RuntimeTheorems.DroppedIsInPlace(run, n, names[k]); }
    forall u | tasks[names[k]].started == 1 && u in g[v].predecessors ensures handles[u] < k && tasks[names[handles[u]]].done {
      var i :| 0 <= i < |g[v].predecessors| && g[v].predecessors[i] == u;
      assert calls[k].deps[i] == handles[u];
      assert tasks[names[k]].deps[i] == names[handles[u]];
    }
  }
}
