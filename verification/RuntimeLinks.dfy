/** How the dependency records change, one kind of step at a time. */
module RuntimeLinks {
  import opened Basics
  import opened RuntimeModel
  import opened RuntimeInvariant

  lemma LinksAfterCall(tasks: seq<Task>, t: Task)
    requires LinksOk(tasks) && t.edges == [] && t.dependents == [] && t.started == 0
    requires forall i | 0 <= i < |t.deps| :: t.deps[i] < |tasks| && tasks[t.deps[i]].known
    ensures LinksOk(tasks + [t])
  {
    var r := tasks + [t];
    forall id | 0 <= id < |r| ensures DepsOk(r, id) {
      if id < |tasks| { assert DepsOk(tasks, id); }
    }
    forall id, i | 0 <= id < |r| && 0 <= i < |r[id].edges| ensures EdgeOk(r, id, i) {
      assert EdgeOk(tasks, id, i);
    }
    forall d, e | 0 <= d < |r| && e in r[d].dependents ensures EntryOk(r, d, e) {
      assert EntryOk(tasks, d, e);
    }
  }

  /** A record moves on without its edges or its dependents changing. */
  lemma LinksAfterRetag(tasks: seq<Task>, id: TaskId, u: Task)
    requires LinksOk(tasks) && id < |tasks|
    requires var t := tasks[id];
      && u.deps == t.deps && u.edges == t.edges && u.dependents == t.dependents
      && (t.known ==> u.known) && (t.done ==> u.done)
      && (u.started > 0 ==> t.started > 0 || DoneUpTo(tasks, id, |t.deps|))
    ensures LinksOk(tasks[id := u])
  {
    var r := tasks[id := u];
    forall j | 0 <= j < |r| ensures DepsOk(r, j) {
      assert DepsOk(tasks, j);
    }
    forall j, i | 0 <= j < |r| && 0 <= i < |r[j].edges| ensures EdgeOk(r, j, i) {
      assert EdgeOk(tasks, j, i);
    }
    forall d, e | 0 <= d < |r| && e in r[d].dependents ensures EntryOk(r, d, e) {
      assert EntryOk(tasks, d, e);
    }
  }

  /** The dependencies of `id` start to be tracked. */
  lemma LinksAfterStart(tasks: seq<Task>, id: TaskId)
    requires LinksOk(tasks) && id < |tasks| && tasks[id].edges == []
    ensures LinksOk(tasks[id := tasks[id].(guarded := true, edges := seq(|tasks[id].deps|, i => Unscanned))])
  {
    var r := tasks[id := tasks[id].(guarded := true, edges := seq(|tasks[id].deps|, i => Unscanned))];
    forall j | 0 <= j < |r| ensures DepsOk(r, j) {
      assert DepsOk(tasks, j);
    }
    forall j, i | 0 <= j < |r| && 0 <= i < |r[j].edges| ensures EdgeOk(r, j, i) {
      if j != id { assert EdgeOk(tasks, j, i); } else { assert DepsOk(tasks, id); }
    }
    forall d, e | 0 <= d < |r| && e in r[d].dependents ensures EntryOk(r, d, e) {
      assert EntryOk(tasks, d, e);
    }
  }

  function Attach(tasks: seq<Task>, id: TaskId, i: nat): (r: seq<Task>)
    requires HasEdge(tasks, id, i) && Dep(tasks, id, i) != id
    ensures |r| == |tasks|
  {
    var d := Dep(tasks, id, i);
    tasks[d := tasks[d].(dependents := tasks[d].dependents + [Entry(id, i)])]
         [id := tasks[id].(edges := tasks[id].edges[i := Attached])]
  }

  lemma LinksAfterAttach(tasks: seq<Task>, id: TaskId, i: nat)
    requires LinksOk(tasks) && HasEdge(tasks, id, i) && Dep(tasks, id, i) != id
    requires tasks[id].edges[i] == Unscanned
    ensures LinksOk(Attach(tasks, id, i))
  {
    var d := Dep(tasks, id, i);
    var r := Attach(tasks, id, i);
    assert !EntryOk(tasks, d, Entry(id, i));
    forall j | 0 <= j < |r| ensures DepsOk(r, j) {
      assert DepsOk(tasks, j);
    }
    forall j, k | 0 <= j < |r| && 0 <= k < |r[j].edges| ensures EdgeOk(r, j, k) {
      assert EdgeOk(tasks, j, k);
      assert forall e | e in tasks[d].dependents :: e in r[d].dependents;
      assert r[d].dependents[|tasks[d].dependents|] == Entry(id, i);
    }
    forall j | 0 <= j < |r| ensures Distinct(r[j].dependents) {
      assert Distinct(tasks[j].dependents);
    }
    forall j, e | 0 <= j < |r| && e in r[j].dependents ensures EntryOk(r, j, e) {
      if j == d && e == Entry(id, i) {
      } else {
        assert e in tasks[j].dependents;
        assert EntryOk(tasks, j, e);
      }
    }
  }

  /** The submitter finds a dependency satisfied that it never attached. */
  lemma LinksAfterSatisfied(tasks: seq<Task>, id: TaskId, i: nat)
    requires LinksOk(tasks) && HasEdge(tasks, id, i)
    requires tasks[id].edges[i] == Unscanned && tasks[Dep(tasks, id, i)].done
    ensures LinksOk(tasks[id := Release(tasks[id], i)])
  {
    var r := tasks[id := Release(tasks[id], i)];
    forall j | 0 <= j < |r| ensures DepsOk(r, j) {
      assert DepsOk(tasks, j);
    }
    forall j, k | 0 <= j < |r| && 0 <= k < |r[j].edges| ensures EdgeOk(r, j, k) {
      assert EdgeOk(tasks, j, k);
    }
    forall d, e | 0 <= d < |r| && e in r[d].dependents ensures EntryOk(r, d, e) {
      assert EntryOk(tasks, d, e);
    }
  }

  function Detach(tasks: seq<Task>, c: TaskId): (r: seq<Task>)
    requires c < |tasks| && tasks[c].dependents != []
    requires var e := tasks[c].dependents[0]; HasEdge(tasks, e.task, e.position) && e.task != c
    ensures |r| == |tasks|
  {
    var e := tasks[c].dependents[0];
    tasks[c := tasks[c].(dependents := tasks[c].dependents[1..])]
         [e.task := Release(tasks[e.task], e.position)]
  }

  /** A completing task releases its first remaining dependent. */
  lemma LinksAfterDetach(tasks: seq<Task>, c: TaskId)
    requires LinksOk(tasks) && c < |tasks| && tasks[c].dependents != [] && tasks[c].done
    requires var e := tasks[c].dependents[0]; HasEdge(tasks, e.task, e.position) && e.task != c
    ensures LinksOk(Detach(tasks, c))
  {
    var list := tasks[c].dependents;
    var e := list[0];
    var r := Detach(tasks, c);
    assert EntryOk(tasks, c, e) && Distinct(list);
    forall j | 0 <= j < |r| ensures DepsOk(r, j) {
      assert DepsOk(tasks, j);
    }
    forall j, k | 0 <= j < |r| && 0 <= k < |r[j].edges| ensures EdgeOk(r, j, k) {
      assert EdgeOk(tasks, j, k);
      if tasks[j].edges[k] == Attached && Dep(tasks, j, k) == c && Entry(j, k) != e {
        var m :| 0 <= m < |list| && list[m] == Entry(j, k);
        assert list[1..][m - 1] == Entry(j, k);
      }
    }
    forall j | 0 <= j < |r| ensures Distinct(r[j].dependents) {
      assert Distinct(tasks[j].dependents);
    }
    forall j, f | 0 <= j < |r| && f in r[j].dependents ensures EntryOk(r, j, f) {
      assert f in tasks[j].dependents && EntryOk(tasks, j, f);
      if j == c {
        var m :| 0 <= m < |list[1..]| && list[1..][m] == f;
        assert list[m + 1] == f != list[0];
      }
    }
  }
}
