/** The steps that move a task through its life, and the theorem that every step keeps the invariant. */
module RuntimeMoves {
  import opened RuntimeModel
  import opened RuntimeInvariant
  import opened RuntimeFrames
  import opened RuntimeLinks
  import opened RuntimeSteps

  /** One record and its slot move on; edges and dependents stay. */
  lemma RetagKeeps(s: Sys, r: Sys, a: Agent, id: TaskId, u: Task, x: nat, slot: Slot)
    requires Inv(s) && Owes(s, r, a, id, u)
    requires x < |s.slots| && r.slots == s.slots[x := slot]
    requires TaskSpared(s.tasks[id], u, a) && SlotSpared(s.tasks, s.slots[x], slot, a)
    requires s.slots[x].use.HeldFor? ==> s.slots[x].use.task == id
    requires Resident(s.tasks[id].phase) ==> s.tasks[id].handle.Handle? && s.tasks[id].handle.index == x
    requires u.edges == s.tasks[id].edges && u.dependents == s.tasks[id].dependents
    requires u.started > s.tasks[id].started ==> DoneUpTo(s.tasks, id, |u.deps|)
    requires HomeMoves(s.slots, id, u, x, slot)
    ensures Inv(r)
  {
    hide Core, LinksOk, PcOk, Shape, HomeMoves, OwnerMoves;
    RecordKeeps(s, r, a, id, u, x, slot);
    LinksAfterRetag(s.tasks, id, u);
  }

  /** One record moves on, no slot does; edges and dependents stay. */
  lemma BareRetagKeeps(s: Sys, r: Sys, a: Agent, id: TaskId, u: Task)
    requires Inv(s) && Owes(s, r, a, id, u)
    requires r.slots == s.slots && TaskSpared(s.tasks[id], u, a)
    requires HomeOk(u, id, s.slots) && (Resident(s.tasks[id].phase) <==> Resident(u.phase))
    requires u.edges == s.tasks[id].edges && u.dependents == s.tasks[id].dependents
    requires u.started > s.tasks[id].started ==> DoneUpTo(s.tasks, id, |u.deps|)
    ensures Inv(r)
  {
    hide Core, LinksOk, PcOk, Shape, HomeOk, OwnerMoves;
    BareRecordKeeps(s, r, a, id, u);
    LinksAfterRetag(s.tasks, id, u);
  }

  lemma ExhaustKeeps(s: Sys, r: Sys, a: Agent)
    requires Inv(s) && Exhaust(s, r, a)
    ensures Inv(r)
  {
    hide Inv;
    PcHolds(s, a);
    var id := s.agents[a].task;
    RecordHolds(s, id);
    ReadyHolds(s, id);
    BareRetagKeeps(s, r, a, id, r.tasks[id]);
  }

  lemma OpenKeeps(s: Sys, r: Sys, a: Agent, id: TaskId, kind: Kind, x: nat)
    requires Inv(s) && a in s.agents && s.agents[a] == Taken(id, kind, x) && RuntimeModel.Open(s, r, a, id, kind, x)
    ensures Inv(r)
  {
    hide Inv;
    PcHolds(s, a);
    RecordHolds(s, id);
    ReadyHolds(s, id);
    RetagKeeps(s, r, a, id, r.tasks[id], x, r.slots[x]);
  }

  lemma PublishOwes(s: Sys, r: Sys, a: Agent, id: TaskId, kind: Kind, x: nat)
    requires Inv(s) && a in s.agents && s.agents[a] == Opened(id, kind, x) && Publish(s, r, a, id, kind, x)
    ensures Owes(s, r, a, id, r.tasks[id])
  {
    hide Inv, HomeOk;
    PcHolds(s, a);
    RecordHolds(s, id);
    ReadyHolds(s, id);
  }

  lemma PublishKeeps(s: Sys, r: Sys, a: Agent, id: TaskId, kind: Kind, x: nat)
    requires Inv(s) && a in s.agents && s.agents[a] == Opened(id, kind, x) && Publish(s, r, a, id, kind, x)
    ensures Inv(r)
  {
    hide Inv, Owes;
    PublishOwes(s, r, a, id, kind, x);
    PcHolds(s, a);
    RecordHolds(s, id);
    RetagKeeps(s, r, a, id, r.tasks[id], x, r.slots[x]);
  }

  lemma StoreQueuedPlainKeeps(s: Sys, r: Sys, a: Agent, id: TaskId, kind: Kind, x: nat)
    requires Inv(s) && a in s.agents && s.agents[a] == Made(id, kind, x) && StoreState(s, r, a, id, kind, x)
    requires !kind.After?
    ensures Inv(r)
  {
    hide Inv;
    PcHolds(s, a);
    RecordHolds(s, id);
    ReadyHolds(s, id);
    RetagKeeps(s, r, a, id, r.tasks[id], x, r.slots[x]);
  }

  lemma ScanAdvances(edges: seq<Edge>, i: nat, e: Edge)
    requires i < |edges| && ScannedTo(edges, i) && e != Unscanned
    ensures ScannedTo(edges[i := e], i + 1) && edges[i] == Unscanned
  {
  }

  lemma StorePendingOwes(s: Sys, r: Sys, a: Agent, id: TaskId, x: nat)
    requires Inv(s) && a in s.agents && s.agents[a] == MadeWaiting(id, x) && StorePending(s, r, a, id, x)
    ensures Owes(s, r, a, id, r.tasks[id])
  {
    hide Inv, HomeOk;
    PcHolds(s, a);
    RecordHolds(s, id);
    ReadyHolds(s, id);
  }

  lemma StorePendingKeeps(s: Sys, r: Sys, a: Agent, id: TaskId, x: nat)
    requires Inv(s) && a in s.agents && s.agents[a] == MadeWaiting(id, x) && StorePending(s, r, a, id, x)
    ensures Inv(r)
  {
    hide Inv, Core, LinksOk, Owes;
    StorePendingOwes(s, r, a, id, x);
    PcHolds(s, a);
    RecordHolds(s, id);
    InvParts(s, r);
    LinksAfterStart(s.tasks, id);
    OpenAllUnscanned(|s.tasks[id].deps|);
    RecordKeeps(s, r, a, id, r.tasks[id], x, r.slots[x]);
  }

  lemma InvParts(s: Sys, r: Sys)
    ensures Inv(s) ==> Core(s) && LinksOk(s.tasks)
    ensures Core(r) && LinksOk(r.tasks) ==> Inv(r)
  {
  }

  lemma DropGuardKeeps(s: Sys, r: Sys, a: Agent, id: TaskId, x: nat, i: nat)
    requires Inv(s) && a in s.agents && s.agents[a] == Scanning(id, x, i) && Scan(s, r, a, id, x, i)
    requires i >= |s.tasks[id].deps|
    ensures Inv(r)
  {
    hide Inv;
    PcHolds(s, a);
    RecordHolds(s, id);
    ReadyHolds(s, id);
    OpenZero(s.tasks[id].edges);
    RetagKeeps(s, r, a, id, r.tasks[id], x, r.slots[x]);
  }

  lemma SatisfiedKeeps(s: Sys, r: Sys, a: Agent, id: TaskId, x: nat, i: nat)
    requires Inv(s) && a in s.agents && s.agents[a] == Unregistered(id, x, i) && CountSatisfied(s, r, a, id, x, i)
    ensures Inv(r)
  {
    hide Inv, LinksOk, Core, Shape, HomeOk;
    PcHolds(s, a);
    RecordHolds(s, id);
    InvParts(s, r);
    ScanAdvances(s.tasks[id].edges, i, Released);
    LinksAfterSatisfied(s.tasks, id, i);
    SatisfiedCore(s, r, a, id, x, i);
  }

  lemma SatisfiedOwes(s: Sys, r: Sys, a: Agent, id: TaskId, x: nat, i: nat)
    requires Inv(s) && a in s.agents && s.agents[a] == Unregistered(id, x, i) && CountSatisfied(s, r, a, id, x, i)
    requires i < |s.tasks[id].edges| && ScannedTo(r.tasks[id].edges, i + 1)
    ensures Owes(s, r, a, id, r.tasks[id])
  {
    hide Inv, LinksOk, HomeOk, ScannedTo;
    PcHolds(s, a);
    RecordHolds(s, id);
    ReadyHolds(s, id);
  }

  lemma SatisfiedCore(s: Sys, r: Sys, a: Agent, id: TaskId, x: nat, i: nat)
    requires Inv(s) && a in s.agents && s.agents[a] == Unregistered(id, x, i) && CountSatisfied(s, r, a, id, x, i)
    requires i < |s.tasks[id].edges| && s.tasks[id].edges[i] == Unscanned && ScannedTo(r.tasks[id].edges, i + 1)
    ensures Core(r)
  {
    hide Inv, Core, LinksOk, Shape, Owes, ScannedTo;
    SatisfiedOwes(s, r, a, id, x, i);
    PcHolds(s, a);
    RecordHolds(s, id);
    InvParts(s, r);
    OpenOne(s.tasks[id].edges, i, Released);
    RecordKeeps(s, r, a, id, r.tasks[id], x, r.slots[x]);
  }

  lemma EnqueueKeeps(s: Sys, r: Sys, a: Agent, id: TaskId)
    requires Inv(s) && a in s.agents && s.agents[a] == Enqueuing(id) && Enqueue(s, r, a, id)
    ensures Inv(r)
  {
    hide Inv;
    PcHolds(s, a);
    RecordHolds(s, id);
    ReadyHolds(s, id);
    assert r.ready == s.ready[id := 1];
    BareRetagKeeps(s, r, a, id, r.tasks[id]);
  }

  lemma ThrowOpenedKeeps(s: Sys, r: Sys, a: Agent)
    requires Inv(s) && Throw(s, r, a) && s.agents[a].Opened?
    ensures Inv(r)
  {
    hide Inv;
    PcHolds(s, a);
    MoveKeeps(s, r, a, r.agents[a]);
  }

  lemma ThrowInlineKeeps(s: Sys, r: Sys, a: Agent)
    requires Inv(s) && Throw(s, r, a) && s.agents[a].Exhausted?
    ensures Inv(r)
  {
    hide Inv;
    PcHolds(s, a);
    var id := s.agents[a].task;
    RecordHolds(s, id);
    ReadyHolds(s, id);
    BareRetagKeeps(s, r, a, id, r.tasks[id]);
  }

  lemma UndoKeeps(s: Sys, r: Sys, a: Agent, id: TaskId, x: nat)
    requires Inv(s) && a in s.agents && s.agents[a] == Undoing(id, x)
    requires Bump(s, r, a, id, x, Dropping(a), UndoBumped(id, x))
    ensures Inv(r)
  {
    hide Inv;
    PcHolds(s, a);
    RecordHolds(s, id);
    ReadyHolds(s, id);
    RetagKeeps(s, r, a, id, r.tasks[id], x, r.slots[x]);
  }

  lemma BumpKeeps(s: Sys, r: Sys, a: Agent, id: TaskId, x: nat, list: seq<Entry>)
    requires Inv(s) && a in s.agents && s.agents[a] == Marked(id, list) && Addressed(s, id) && x == SlotOf(s, id)
    requires Bump(s, r, a, id, x, Releasing(a), Bumped(id, x, list))
    ensures Inv(r)
  {
    hide Inv;
    PcHolds(s, a);
    RecordHolds(s, id);
    ReadyHolds(s, id);
    RetagKeeps(s, r, a, id, r.tasks[id], x, r.slots[x]);
  }

  lemma SettleKeeps(s: Sys, r: Sys, a: Agent, id: TaskId)
    requires Inv(s) && a in s.agents && s.agents[a] == Settling(id) && Settle(s, r, a, id)
    ensures Inv(r)
  {
    hide Inv;
    PcHolds(s, a);
    RecordHolds(s, id);
    ReadyHolds(s, id);
    BareRetagKeeps(s, r, a, id, r.tasks[id]);
  }

  lemma InlineStartKeeps(s: Sys, r: Sys, a: Agent, id: TaskId, j: nat)
    requires Inv(s) && a in s.agents && s.agents[a] == InlineWaiting(id, j) && InlineNext(s, r, a, id, j)
    requires j >= |s.tasks[id].deps|
    ensures Inv(r)
  {
    hide Inv;
    PcHolds(s, a);
    RecordHolds(s, id);
    ReadyHolds(s, id);
    BareRetagKeeps(s, r, a, id, r.tasks[id]);
  }

  lemma InlineReturnKeeps(s: Sys, r: Sys, a: Agent, id: TaskId)
    requires Inv(s) && a in s.agents && s.agents[a] == InlineRunning(id) && InlineReturn(s, r, a, id)
    ensures Inv(r)
  {
    hide Inv;
    PcHolds(s, a);
    RecordHolds(s, id);
    ReadyHolds(s, id);
    BareRetagKeeps(s, r, a, id, r.tasks[id]);
  }

  lemma DequeueKeeps(s: Sys, r: Sys, a: Agent, id: TaskId)
    requires Inv(s) && Dequeue(s, r, a, id)
    ensures Inv(r)
  {
    hide Inv;
    RecordHolds(s, id);
    ReadyHolds(s, id);
    assert r.ready == s.ready[id := 0];
    BareRetagKeeps(s, r, a, id, r.tasks[id]);
  }

  lemma ExecuteKeeps(s: Sys, r: Sys, a: Agent, id: TaskId)
    requires Inv(s) && a in s.agents && s.agents[a] == Claimed(id) && Execute(s, r, a, id)
    ensures Inv(r)
  {
    hide Inv;
    PcHolds(s, a);
    RecordHolds(s, id);
    ReadyHolds(s, id);
    UnlockedMeansDepsDone(s, id);
    RetagKeeps(s, r, a, id, r.tasks[id], SlotOf(s, id), r.slots[SlotOf(s, id)]);
  }

  /** A task whose dependencies are all accounted for has only finished ones. */
  lemma UnlockedMeansDepsDone(s: Sys, id: TaskId)
    requires Inv(s) && id < |s.tasks| && Unlocked(s.tasks[id].phase)
    ensures DoneUpTo(s.tasks, id, |s.tasks[id].deps|)
  {
    hide Inv;
    RecordHolds(s, id);
    forall k | 0 <= k < |s.tasks[id].deps|
      ensures s.tasks[id].deps[k] < |s.tasks| && s.tasks[s.tasks[id].deps[k]].done
    {
      EdgeHolds(s, id, k);
    }
  }

  lemma BodyReturnKeeps(s: Sys, r: Sys, a: Agent, id: TaskId)
    requires Inv(s) && a in s.agents && s.agents[a] == Running(id) && BodyReturn(s, r, a, id)
    ensures Inv(r)
  {
    hide Inv;
    PcHolds(s, a);
    RecordHolds(s, id);
    ReadyHolds(s, id);
    BareRetagKeeps(s, r, a, id, r.tasks[id]);
  }

  lemma TakeSuccessorsKeeps(s: Sys, r: Sys, a: Agent, id: TaskId)
    requires Inv(s) && a in s.agents && s.agents[a] == Returned(id) && TakeSuccessors(s, r, a, id)
    ensures Inv(r)
  {
    hide Inv;
    PcHolds(s, a);
    RecordHolds(s, id);
    ReadyHolds(s, id);
    RetagKeeps(s, r, a, id, r.tasks[id], SlotOf(s, id), r.slots[SlotOf(s, id)]);
  }

  lemma FinishKeeps(s: Sys, r: Sys, a: Agent, id: TaskId)
    requires Inv(s) && a in s.agents && s.agents[a] == Notifying(id, []) && Notify(s, r, a, id, [])
    ensures Inv(r)
  {
    hide Inv;
    PcHolds(s, a);
    RecordHolds(s, id);
    ReadyHolds(s, id);
    BareRetagKeeps(s, r, a, id, r.tasks[id]);
  }

  lemma EnqueueDependentAgent(s: Sys, r: Sys, a: Agent, id: TaskId, list: seq<Entry>)
    requires Inv(s) && a in s.agents && s.agents[a] == DependentEnqueuing(id, list)
    requires EnqueueDependent(s, r, a, id, list)
    ensures PcOk(r, a, Notifying(id, list[1..])) && InPhase(s, list[0].task, Publishing(a))
  {
    hide Inv, HomeOk;
    PcHolds(s, a);
  }

  lemma EnqueueDependentOwes(s: Sys, r: Sys, a: Agent, id: TaskId, list: seq<Entry>)
    requires Inv(s) && a in s.agents && s.agents[a] == DependentEnqueuing(id, list)
    requires EnqueueDependent(s, r, a, id, list)
    ensures Owes(s, r, a, list[0].task, r.tasks[list[0].task])
  {
    hide Inv, HomeOk, PcOk;
    EnqueueDependentAgent(s, r, a, id, list);
    var d := list[0].task;
    RecordHolds(s, d);
    ReadyHolds(s, d);
    assert r.ready == s.ready[d := 1];
  }

  lemma EnqueueDependentKeeps(s: Sys, r: Sys, a: Agent, id: TaskId, list: seq<Entry>)
    requires Inv(s) && a in s.agents && s.agents[a] == DependentEnqueuing(id, list)
    requires EnqueueDependent(s, r, a, id, list)
    ensures Inv(r)
  {
    hide Inv, Owes;
    EnqueueDependentOwes(s, r, a, id, list);
    PcHolds(s, a);
    var d := list[0].task;
    RecordHolds(s, d);
    BareRetagKeeps(s, r, a, d, r.tasks[d]);
  }

  // ------------------------------------------------ steps on two records at once

  /** The first half of a registration: the predecessor's list takes the entry. */
  function ListEntry(s: Sys, id: TaskId, i: nat, d: TaskId, y: nat): Sys
    requires d < |s.tasks| && y < |s.slots|
  {
    s.(tasks := s.tasks[d := s.tasks[d].(dependents := s.tasks[d].dependents + [Entry(id, i)])],
       slots := s.slots[y := s.slots[y].(successors := s.slots[y].successors + [Entry(id, i)])])
  }

  lemma ListEntryOwes(s: Sys, a: Agent, id: TaskId, x: nat, i: nat, d: TaskId, y: nat)
    requires Inv(s) && a in s.agents && s.agents[a] == Resolved(id, x, i)
    requires HasEdge(s.tasks, id, i) && d == Dep(s.tasks, id, i) && d != id
    requires Resolves(s, d) && y == SlotOf(s, d)
    ensures var m := ListEntry(s, id, i, d, y); Owes(s, m, a, d, m.tasks[d])
  {
    hide Inv, LinksOk, ScannedTo, DutyOf, SideDuty;
    PcHolds(s, a);
    RecordHolds(s, d);
    DepsHold(s, id);
    ReadyHolds(s, d);
    if Staffed(s.tasks[d].phase) && s.tasks[d].phase.agent == a { OwnerStays(s, d, a); }
  }

  lemma OwnerStays(s: Sys, id: TaskId, a: Agent)
    requires Inv(s) && id < |s.tasks| && Staffed(s.tasks[id].phase) && s.tasks[id].phase.agent == a
    ensures a in s.agents && WorksOn(s.agents[a], id, s.tasks[id].phase)
  {
  }

  lemma ListEntryHome(s: Sys, a: Agent, id: TaskId, i: nat, d: TaskId, y: nat)
    requires Inv(s) && Resolves(s, d) && y == SlotOf(s, d) && !s.slots[y].closed
    ensures var m := ListEntry(s, id, i, d, y);
      && TaskSpared(s.tasks[d], m.tasks[d], a) && SlotSpared(s.tasks, s.slots[y], m.slots[y], a)
      && s.slots[y].use == HeldFor(d) && HomeMoves(s.slots, d, m.tasks[d], y, m.slots[y])
  {
    hide Inv, Shape;
    RecordHolds(s, d);
  }

  lemma ListEntryKeeps(s: Sys, a: Agent, id: TaskId, x: nat, i: nat, d: TaskId, y: nat)
    requires Inv(s) && a in s.agents && s.agents[a] == Resolved(id, x, i)
    requires HasEdge(s.tasks, id, i) && d == Dep(s.tasks, id, i) && d != id
    requires Resolves(s, d) && y == SlotOf(s, d) && !s.slots[y].closed
    ensures Core(ListEntry(s, id, i, d, y))
  {
    hide Inv, LinksOk, Owes, Core, TaskSpared, SlotSpared, HomeMoves;
    var m := ListEntry(s, id, i, d, y);
    ListEntryOwes(s, a, id, x, i, d, y);
    ListEntryHome(s, a, id, i, d, y);
    InvParts(s, m);
    RecordKeeps(s, m, a, d, m.tasks[d], y, m.slots[y]);
  }

  /** A registration that succeeds attaches the edge and puts its entry at the end of the open list. */
  lemma RegisterLists(s: Sys, r: Sys, a: Agent, id: TaskId, x: nat, i: nat)
    requires Register(s, r, a, id, x, i) && a in r.agents && r.agents[a].Scanning?
    ensures id < |r.tasks| && i < |r.tasks[id].edges| && r.tasks[id].edges[i] == Attached
    ensures var d := Dep(s.tasks, id, i);
      && Resolves(r, d) && !r.slots[SlotOf(r, d)].closed
      && r.slots[SlotOf(r, d)].successors == s.slots[SlotOf(s, d)].successors + [Entry(id, i)]
  {
  }

  lemma RegisterKeeps(s: Sys, r: Sys, a: Agent, id: TaskId, x: nat, i: nat)
    requires Inv(s) && a in s.agents && s.agents[a] == Resolved(id, x, i) && Register(s, r, a, id, x, i)
    requires r.agents[a].Scanning?
    ensures Inv(r)
    ensures id < |r.tasks| && i < |r.tasks[id].edges| && r.tasks[id].edges[i] == Attached
    ensures var d := Dep(s.tasks, id, i);
      && Resolves(r, d) && !r.slots[SlotOf(r, d)].closed
      && r.slots[SlotOf(r, d)].successors == s.slots[SlotOf(s, d)].successors + [Entry(id, i)]
  {
    hide Inv, LinksOk, Core;
    RegisterLists(s, r, a, id, x, i);
    PcHolds(s, a);
    RecordHolds(s, id);
    RecordHolds(s, Dep(s.tasks, id, i));
    ReadyHolds(s, id);
    InvParts(s, r);
    var d := Dep(s.tasks, id, i);
    var m := ListEntry(s, id, i, d, SlotOf(s, d));
    ListEntryKeeps(s, a, id, x, i, d, SlotOf(s, d));
    ScanAdvances(s.tasks[id].edges, i, Attached);
    LinksAfterAttach(s.tasks, id, i);
    assert Core(r) by {
      hide ScannedTo;
      OpenOne(s.tasks[id].edges, i, Attached);
      BareRecordKeeps(m, r, a, id, r.tasks[id]);
    }
  }

  /** The first half of a release: the completing task's list loses its first entry. */
  function Unlist(s: Sys, a: Agent, c: TaskId, list: seq<Entry>): Sys
    requires c < |s.tasks| && list != []
  {
    SetPc(SetTask(s, c, s.tasks[c].(dependents := list[1..])), a, Notifying(c, list[1..]))
  }

  lemma UnlistOwes(s: Sys, a: Agent, c: TaskId, list: seq<Entry>)
    requires Inv(s) && a in s.agents && s.agents[a] == Decrementing(c, list)
    ensures InPhase(s, c, Releasing(a)) && list != []
    ensures var m := Unlist(s, a, c, list); Owes(s, m, a, c, m.tasks[c])
  {
    hide Inv, LinksOk, HomeOk;
    PcHolds(s, a);
    RecordHolds(s, c);
    ReadyHolds(s, c);
  }

  lemma UnlistKeeps(s: Sys, a: Agent, c: TaskId, list: seq<Entry>)
    requires Inv(s) && a in s.agents && s.agents[a] == Decrementing(c, list)
    ensures c < |s.tasks| && list != [] && Core(Unlist(s, a, c, list))
  {
    hide Inv, LinksOk, Owes;
    UnlistOwes(s, a, c, list);
    RecordHolds(s, c);
    var m := Unlist(s, a, c, list);
    InvParts(s, m);
    BareRecordKeeps(s, m, a, c, m.tasks[c]);
  }

  lemma CountDownShape(t: Task, i: nat, slot: Slot, id: TaskId, a: Agent)
    requires Shape(t) && Houses(slot, t, id) && (t.phase.Building? || t.phase.Blocked?)
    requires i < |t.edges| && t.edges[i] == Attached
    ensures var last := slot.pending == 1;
      var u := if last then Release(t, i).(phase := Publishing(a)) else Release(t, i);
      Shape(u) && TaskSpared(t, u, a) && Houses(slot.(pending := slot.pending - 1), u, id)
      && (last ==> t.phase.Blocked?)
  {
    OpenOne(t.edges, i, Released);
    OpenZero(t.edges[i := Released]);
  }

  lemma CountDownAgent(s: Sys, r: Sys, a: Agent, c: TaskId, list: seq<Entry>)
    requires Inv(s) && a in s.agents && s.agents[a] == Decrementing(c, list) && Decrement(s, r, a, c, list)
    ensures a in r.agents && PcOk(r, a, r.agents[a])
  {
    hide Inv, LinksOk, HomeOk, Shape, HasEdge, Resolves;
    PcHolds(s, a);
  }

  /** Who answers for the dependent before and after its count goes down. */
  lemma CountDownOwner(s: Sys, m: Sys, r: Sys, a: Agent, c: TaskId, list: seq<Entry>, d: TaskId)
    requires Inv(s) && a in s.agents && s.agents[a] == Decrementing(c, list) && Decrement(s, r, a, c, list)
    requires c < |s.tasks| && m == Unlist(s, a, c, list) && d == list[0].task && d < |r.tasks|
    requires var p := s.tasks[d].phase; p.Building? || p.Blocked?
    ensures OwnerMoves(m, r, a, d, s.tasks[d].phase, r.tasks[d].phase)
  {
    hide Inv, LinksOk, HomeOk, Shape, HasEdge, Resolves, PcOk;
    if Staffed(s.tasks[d].phase) && s.tasks[d].phase.agent == a { OwnerStays(s, d, a); }
  }

  lemma CountDownOwes(s: Sys, m: Sys, r: Sys, a: Agent, c: TaskId, list: seq<Entry>, d: TaskId, u: Task)
    requires Inv(s) && a in s.agents && s.agents[a] == Decrementing(c, list) && Decrement(s, r, a, c, list)
    requires c < |s.tasks| && m == Unlist(s, a, c, list)
    requires d == list[0].task && u == r.tasks[d] && Shape(u)
    requires var p := s.tasks[d].phase; p.Building? || p.Blocked?
    ensures Owes(m, r, a, d, u)
  {
    hide Inv, LinksOk, HomeOk, Shape, HasEdge, Resolves, PcOk, OwnerMoves;
    CountDownAgent(s, r, a, c, list);
    CountDownOwner(s, m, r, a, c, list, d);
    ReadyHolds(s, d);
  }

  /** The second half: the dependent's count goes down, and at zero the agent publishes it. */
  lemma CountDownKeeps(s: Sys, m: Sys, r: Sys, a: Agent, c: TaskId, list: seq<Entry>)
    requires Inv(s) && a in s.agents && s.agents[a] == Decrementing(c, list) && Decrement(s, r, a, c, list)
    requires c < |s.tasks| && list != [] && m == Unlist(s, a, c, list) && Core(m)
    ensures Core(r)
  {
    hide Inv, Core, LinksOk, Owes, Shape, TaskSpared, Houses;
    PcHolds(s, a);
    var e := list[0];
    var d := e.task;
    AttachedIsResident(s, c, e);
    RecordHolds(s, d);
    var y := SlotOf(s, d);
    CountDownShape(s.tasks[d], e.position, s.slots[y], d, a);
    CountDownOwes(s, m, r, a, c, list, d, r.tasks[d]);
    HousedIn(s.slots[y], s.tasks[d], d);
    HousedIn(r.slots[y], r.tasks[d], d);
    RecordKeeps(m, r, a, d, r.tasks[d], y, r.slots[y]);
  }

  lemma HousedIn(slot: Slot, t: Task, id: TaskId)
    requires Houses(slot, t, id)
    ensures slot.use == HeldFor(id)
  {
  }

  lemma DecrementKeeps(s: Sys, r: Sys, a: Agent, c: TaskId, list: seq<Entry>)
    requires Inv(s) && a in s.agents && s.agents[a] == Decrementing(c, list) && Decrement(s, r, a, c, list)
    ensures Inv(r)
  {
    hide Inv, Core, LinksOk;
    PcHolds(s, a);
    RecordHolds(s, c);
    InvParts(s, r);
    UnlistKeeps(s, a, c, list);
    CountDownKeeps(s, Unlist(s, a, c, list), r, a, c, list);
    LinksAfterDetach(s.tasks, c);
    var d := list[0].task;
    LinksAfterRetag(Detach(s.tasks, c), d, r.tasks[d]);
    assert r.tasks == Detach(s.tasks, c)[d := r.tasks[d]];
  }

  // ------------------------------------------------------------- a new record

  lemma CallKeeps(s: Sys, r: Sys, a: Agent, kind: Kind, deps: seq<TaskId>)
    requires Inv(s) && Call(s, r, a, kind, deps)
    ensures Inv(r)
  {
    var id := |s.tasks|;
    hide Inv;
    InvParts(s, r);
    CallCore(s, r, a, kind, deps);
    LinksAfterCall(s.tasks, r.tasks[id]);
  }

  lemma CallCore(s: Sys, r: Sys, a: Agent, kind: Kind, deps: seq<TaskId>)
    requires Core(s) && Call(s, r, a, kind, deps)
    ensures Core(r)
  {
    hide PcOk, HomeOk, SlotOk, DutyOf, SideDuty, ShapesOk, HomesOk, ReadyOk, OwnersOk, AgentsOk, Shape;
    assert r.tasks[..|s.tasks|] == s.tasks;
    CallRecords(s, r, a, kind, deps);
    CallAgents(s, r, a, kind, deps);
  }

  lemma CallRecords(s: Sys, r: Sys, a: Agent, kind: Kind, deps: seq<TaskId>)
    requires ShapesOk(s.tasks) && HomesOk(s.tasks, s.slots) && ReadyOk(s.tasks, s.ready)
    requires Call(s, r, a, kind, deps)
    ensures ShapesOk(r.tasks) && HomesOk(r.tasks, r.slots) && ReadyOk(r.tasks, r.ready)
  {
    forall x | 0 <= x < |r.slots| ensures SlotOk(r.tasks, r.slots[x], x) {
      assert SlotOk(s.tasks, s.slots[x], x);
    }
  }

  lemma CallAgents(s: Sys, r: Sys, a: Agent, kind: Kind, deps: seq<TaskId>)
    requires HomesOk(s.tasks, s.slots) && AgentsOk(s) && OwnersOk(s.tasks, s.agents) && Call(s, r, a, kind, deps)
    ensures AgentsOk(r) && OwnersOk(r.tasks, r.agents)
  {
    hide HomesOk;
    assert PcOk(r, a, r.agents[a]);
    OtherAgentsSpared(s, r, a);
  }
}
