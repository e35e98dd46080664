/** Every step keeps the invariant, one lemma per kind of access. */
module RuntimeSteps {
  import opened RuntimeModel
  import opened RuntimeInvariant
  import opened RuntimeFrames
  import opened RuntimeLinks

  predicate SameDuty(p: Pc, q: Pc) {
    && SideDuty(p) == SideDuty(q)
    && (DutyOf(p) == DutyOf(q) || (DutyOf(p).ToDrop? && DutyOf(q) == ToSettle(DutyOf(p).task)))
  }

  // One fact out of the invariant at a time.

  lemma PcHolds(s: Sys, a: Agent)
    requires Inv(s) && a in s.agents
    ensures PcOk(s, a, s.agents[a])
  {
  }

  lemma RecordHolds(s: Sys, id: TaskId)
    requires Inv(s) && id < |s.tasks|
    ensures Shape(s.tasks[id]) && HomeOk(s.tasks[id], id, s.slots)
  {
  }

  lemma DepsHold(s: Sys, id: TaskId)
    requires Inv(s) && id < |s.tasks|
    ensures DepsOk(s.tasks, id)
  {
  }

  lemma SlotHolds(s: Sys, x: nat)
    requires Inv(s) && x < |s.slots|
    ensures SlotOk(s.tasks, s.slots[x], x)
  {
  }

  lemma ReadyHolds(s: Sys, id: TaskId)
    requires Inv(s)
    ensures s.ready[id] == if id < |s.tasks| && s.tasks[id].phase.Ready? then 1 else 0
  {
  }

  lemma EdgeHolds(s: Sys, id: TaskId, i: nat)
    requires Inv(s) && id < |s.tasks| && i < |s.tasks[id].edges|
    ensures EdgeOk(s.tasks, id, i)
  {
  }

  lemma EntryHolds(s: Sys, d: TaskId, e: Entry)
    requires Inv(s) && d < |s.tasks| && e in s.tasks[d].dependents
    ensures EntryOk(s.tasks, d, e)
  {
  }

  // ------------------------------------------- accesses that touch a slot alone

  /** A slot on its way into or out of the free lists. */
  lemma FreeSlotKeeps(s: Sys, r: Sys, a: Agent, x: nat, slot: Slot, pc: Pc)
    requires Inv(s) && a in s.agents && x < |s.slots| && r == SetPc(SetSlot(s, x, slot), a, pc)
    requires s.slots[x].use == Listed || s.slots[x].use == InTransit(a)
    requires !slot.use.HeldFor? && slot.generation == s.slots[x].generation
    requires slot.use.Listed? ==> slot.state == Free
    requires SameDuty(s.agents[a], pc) && PcOk(r, a, pc)
    ensures Inv(r)
  {
    hide LinksOk, ReadyOk, ShapesOk, PcOk, DutyOf, SideDuty;
    FreeSlotSpared(s.tasks, s.slots, x, slot);
    OwnersSpared(s, r, a);
    OtherAgentsSpared(s, r, a);
  }

  lemma TakeKeeps(s: Sys, r: Sys, a: Agent, x: nat)
    requires Inv(s) && Take(s, r, a, x)
    ensures Inv(r)
  {
    hide Inv;
    PcHolds(s, a);
    SlotHolds(s, x);
    FreeSlotKeeps(s, r, a, x, r.slots[x], r.agents[a]);
  }

  lemma ResetListKeeps(s: Sys, r: Sys, a: Agent, x: nat, pc: Pc)
    requires Inv(s) && a in s.agents && ResetList(s, r, a, x, pc)
    requires || (s.agents[a].UndoBumped? && x == s.agents[a].slot && pc == UndoClosed(s.agents[a].task, x))
             || (s.agents[a].Bumped? && x == s.agents[a].slot && pc == Closed(s.agents[a].task, x, s.agents[a].list))
    ensures Inv(r)
  {
    hide Inv;
    PcHolds(s, a);
    FreeSlotKeeps(s, r, a, x, r.slots[x], pc);
  }

  lemma StoreFreeKeeps(s: Sys, r: Sys, a: Agent, x: nat, pc: Pc)
    requires Inv(s) && a in s.agents && StoreFree(s, r, a, x, pc)
    requires || (s.agents[a].UndoClosed? && x == s.agents[a].slot && pc == UndoFreed(s.agents[a].task, x))
             || (s.agents[a].Closed? && x == s.agents[a].slot && pc == Freed(s.agents[a].task, x, s.agents[a].list))
    ensures Inv(r)
  {
    hide Inv;
    PcHolds(s, a);
    FreeSlotKeeps(s, r, a, x, r.slots[x], pc);
  }

  lemma GiveBackKeeps(s: Sys, r: Sys, a: Agent, x: nat, pc: Pc)
    requires Inv(s) && a in s.agents && GiveBack(s, r, a, x, pc)
    requires || (s.agents[a].UndoFreed? && x == s.agents[a].slot && pc == Settling(s.agents[a].task))
             || (s.agents[a].Freed? && x == s.agents[a].slot && pc == Notifying(s.agents[a].task, s.agents[a].list))
    ensures Inv(r)
  {
    hide Inv;
    PcHolds(s, a);
    FreeSlotKeeps(s, r, a, x, r.slots[x], pc);
  }

  /** `state` of the slot of a task that agent `a` owns. */
  lemma StateKeeps(s: Sys, r: Sys, a: Agent, id: TaskId, state: TaskState, pc: Pc)
    requires Inv(s) && a in s.agents && Addressed(s, id) && r == SetPc(SetState(s, SlotOf(s, id), state), a, pc)
    requires Resident(s.tasks[id].phase) && Staffed(s.tasks[id].phase) && s.tasks[id].phase.agent == a
    requires state == Completed <==> s.tasks[id].phase.Completing?
    requires var p := s.tasks[id].phase; p.Building? || p.Publishing? || p.Completing?
    requires SameDuty(s.agents[a], pc) && PcOk(r, a, pc)
    ensures Inv(r)
  {
    hide LinksOk, ReadyOk, ShapesOk, PcOk, DutyOf, SideDuty;
    var x := SlotOf(s, id);
    assert HomeOk(s.tasks[id], id, s.slots) && SlotOk(s.tasks, s.slots[x], x);
    HomesSpared(s.tasks, s.slots, r.tasks, r.slots, id, x);
    OwnersSpared(s, r, a);
    OtherAgentsSpared(s, r, a);
  }

  lemma StoreWaitingKeeps(s: Sys, r: Sys, a: Agent, id: TaskId, x: nat)
    requires Inv(s) && a in s.agents && s.agents[a] == Made(id, After, x) && StoreState(s, r, a, id, After, x)
    ensures Inv(r)
  {
    hide Inv;
    PcHolds(s, a);
    StateKeeps(s, r, a, id, Waiting, MadeWaiting(id, x));
  }

  lemma StoreQueuedKeeps(s: Sys, r: Sys, a: Agent, id: TaskId, x: nat)
    requires Inv(s) && a in s.agents && s.agents[a] == Zeroed(id, x) && StoreQueued(s, r, a, id, x)
    ensures Inv(r)
  {
    hide Inv;
    PcHolds(s, a);
    StateKeeps(s, r, a, id, Queued, Enqueuing(id));
  }

  lemma StoreCompletedKeeps(s: Sys, r: Sys, a: Agent, id: TaskId, list: seq<Entry>)
    requires Inv(s) && a in s.agents && s.agents[a] == Drained(id, list) && StoreCompleted(s, r, a, id, list)
    ensures Inv(r)
  {
    hide Inv;
    PcHolds(s, a);
    StateKeeps(s, r, a, id, Completed, Marked(id, list));
  }

  lemma StoreDependentQueuedKeeps(s: Sys, r: Sys, a: Agent, id: TaskId, list: seq<Entry>)
    requires Inv(s) && a in s.agents && s.agents[a] == DependentZeroed(id, list)
    requires StoreDependentQueued(s, r, a, id, list)
    ensures Inv(r)
  {
    hide Inv;
    PcHolds(s, a);
    StateKeeps(s, r, a, list[0].task, Queued, DependentEnqueuing(id, list));
  }

  // ----------------------------------------------- accesses that only look

  lemma MoveKeeps(s: Sys, r: Sys, a: Agent, pc: Pc)
    requires Inv(s) && r == SetPc(s, a, pc)
    requires (a in s.agents ==> SameDuty(s.agents[a], pc)) && PcOk(r, a, pc)
    ensures Inv(r)
  {
    hide LinksOk, ReadyOk, ShapesOk, HomesOk, PcOk, DutyOf, SideDuty;
    OwnersSpared(s, r, a);
    SparesItself(s, r, a);
    OtherAgentsSpared(s, r, a);
  }

  lemma SparesItself(s: Sys, r: Sys, a: Agent)
    requires r.tasks == s.tasks && r.slots == s.slots
    ensures Spares(s, r, a)
  {
  }

  lemma LookupKeeps(s: Sys, r: Sys, a: Agent, id: TaskId, x: nat, i: nat)
    requires Inv(s) && a in s.agents && s.agents[a] == Scanning(id, x, i) && Scan(s, r, a, id, x, i)
    requires i < |s.tasks[id].deps|
    ensures Inv(r)
  {
    hide Inv;
    PcHolds(s, a);
    var d := Dep(s.tasks, id, i);
    DepsHold(s, id);
    if !Resolves(s, d) { StaleMeansDone(s, d); }
    MoveKeeps(s, r, a, r.agents[a]);
  }

  /** A handle that some submission returned and that no longer resolves belongs to a finished task. */
  lemma StaleMeansDone(s: Sys, d: TaskId)
    requires Inv(s) && d < |s.tasks| && s.tasks[d].known && !Resolves(s, d)
    ensures s.tasks[d].done
  {
    hide Inv;
    RecordHolds(s, d);
  }

  /** A closed list under a generation that still matches belongs to a finished task. */
  lemma ClosedMeansDone(s: Sys, d: TaskId)
    requires Inv(s) && Resolves(s, d) && s.slots[SlotOf(s, d)].closed
    ensures s.tasks[d].done
  {
    hide Inv;
    RecordHolds(s, d);
  }

  lemma RefusedKeeps(s: Sys, r: Sys, a: Agent, id: TaskId, x: nat, i: nat)
    requires Inv(s) && a in s.agents && s.agents[a] == Resolved(id, x, i) && Register(s, r, a, id, x, i)
    requires r.agents[a].Unregistered?
    ensures Inv(r)
  {
    hide Inv;
    PcHolds(s, a);
    var d := Dep(s.tasks, id, i);
    DepsHold(s, id);
    if Resolves(s, d) { ClosedMeansDone(s, d); } else { StaleMeansDone(s, d); }
    MoveKeeps(s, r, a, r.agents[a]);
  }

  lemma ExhaustedKeeps(s: Sys, r: Sys, a: Agent, id: TaskId, kind: Kind)
    requires Inv(s) && a in s.agents && s.agents[a] == Exhausted(id, kind) && r == SetPc(s, a, InlineWaiting(id, 0))
    ensures Inv(r)
  {
    hide Inv;
    PcHolds(s, a);
    MoveKeeps(s, r, a, r.agents[a]);
  }

  lemma InlineAskKeeps(s: Sys, r: Sys, a: Agent, id: TaskId, j: nat)
    requires Inv(s) && a in s.agents && s.agents[a] == InlineWaiting(id, j) && InlineNext(s, r, a, id, j)
    requires j < |s.tasks[id].deps|
    ensures Inv(r)
  {
    hide Inv;
    PcHolds(s, a);
    DepsHold(s, id);
    MoveKeeps(s, r, a, r.agents[a]);
  }

  lemma NotifyLookupKeeps(s: Sys, r: Sys, a: Agent, id: TaskId, list: seq<Entry>)
    requires Inv(s) && a in s.agents && s.agents[a] == Notifying(id, list) && Notify(s, r, a, id, list)
    requires list != []
    ensures Inv(r)
  {
    hide Inv;
    PcHolds(s, a);
    AttachedIsResident(s, id, list[0]);
    MoveKeeps(s, r, a, r.agents[a]);
  }

  /** A task with an unreleased dependency still has its slot. */
  lemma AttachedIsResident(s: Sys, d: TaskId, e: Entry)
    requires Inv(s) && d < |s.tasks| && e in s.tasks[d].dependents
    ensures EntryOk(s.tasks, d, e) && Resolves(s, e.task) && e.task != d
    ensures s.tasks[e.task].phase.Building? || s.tasks[e.task].phase.Blocked?
  {
    hide Inv;
    EntryHolds(s, d, e);
    RecordHolds(s, e.task);
    DepsHold(s, e.task);
  }

  // ------------------------------------------------------ completion queries

  lemma AskKeeps(s: Sys, r: Sys, a: Agent, id: TaskId)
    requires Inv(s) && Ask(s, r, a, id)
    ensures Inv(r)
  {
    hide Inv;
    MoveKeeps(s, r, a, r.agents[a]);
  }

  lemma ReplyKeeps(s: Sys, r: Sys, a: Agent, id: TaskId, asker: Asker, answer: bool)
    requires Inv(s) && a in s.agents && AskerOk(s, a, id, asker) && r == Reply(s, a, id, asker, answer)
    requires s.agents[a].AskGet? || s.agents[a].AskState? || s.agents[a].AskGeneration?
    requires s.agents[a].asker == asker
    requires answer ==> s.tasks[id].done
    requires asker.Caller? && asker.sure ==> answer
    ensures Inv(r)
  {
    hide Inv;
    MoveKeeps(s, r, a, r.agents[a]);
  }

  lemma QueryGetKeeps(s: Sys, r: Sys, a: Agent, id: TaskId, asker: Asker)
    requires Inv(s) && a in s.agents && s.agents[a] == AskGet(id, asker) && QueryGet(s, r, a, id, asker)
    ensures Inv(r)
  {
    hide Inv;
    PcHolds(s, a);
    if Resolves(s, id) {
      MoveKeeps(s, r, a, r.agents[a]);
    } else {
      StaleMeansDone(s, id);
      ReplyKeeps(s, r, a, id, asker, true);
    }
  }

  lemma QueryStateKeeps(s: Sys, r: Sys, a: Agent, id: TaskId, asker: Asker)
    requires Inv(s) && a in s.agents && s.agents[a] == AskState(id, asker) && QueryState(s, r, a, id, asker)
    ensures Inv(r)
  {
    hide Inv;
    PcHolds(s, a);
    if Resolves(s, id) && s.slots[SlotOf(s, id)].state == Completed { CompletedMeansDone(s, id); }
    MoveKeeps(s, r, a, r.agents[a]);
  }

  /** State Completed under a generation that still matches belongs to a finished task. */
  lemma CompletedMeansDone(s: Sys, id: TaskId)
    requires Inv(s) && id < |s.tasks|
    requires Resolves(s, id) && s.slots[SlotOf(s, id)].state == Completed
    ensures s.tasks[id].done
  {
    hide Inv;
    RecordHolds(s, id);
  }

  lemma QueryGenerationKeeps(s: Sys, r: Sys, a: Agent, id: TaskId, asker: Asker, seen: TaskState)
    requires Inv(s) && a in s.agents && s.agents[a] == AskGeneration(id, asker, seen)
    requires QueryGeneration(s, r, a, id, asker, seen)
    ensures Inv(r)
  {
    hide Inv;
    PcHolds(s, a);
    if !Resolves(s, id) { StaleMeansDone(s, id); }
    ReplyKeeps(s, r, a, id, asker, if Resolves(s, id) then seen == Completed else true);
  }

  lemma AnsweredKeeps(s: Sys, r: Sys, a: Agent)
    requires Inv(s) && a in s.agents && s.agents[a].Answered? && r == Leave(s, a)
    ensures Inv(r)
  {
    hide LinksOk, ReadyOk, ShapesOk, HomesOk, PcOk;
    OwnersSpared(s, r, a);
    SparesItself(s, r, a);
    OtherAgentsSpared(s, r, a);
  }

  // ------------------------------------------------ accesses that move a task on

  predicate About(d: Duty, id: TaskId) { d.NoDuty? || d.task == id }

  /** Of the duties in `p`, all but those about `id` are still in `q`. */
  predicate HandsOver(p: Pc, q: Pc, id: TaskId) {
    && (DutyOf(p) == DutyOf(q) || About(DutyOf(p), id))
    && (SideDuty(p) == SideDuty(q) || About(SideDuty(p), id))
  }

  predicate LaysDown(p: Pc, id: TaskId) { About(DutyOf(p), id) && About(SideDuty(p), id) }

  function One(b: bool): nat { if b then 1 else 0 }

  /** The step of `a` changes no other agent's position. */
  predicate OnlyAgent(s: Sys, r: Sys, a: Agent) { r.agents - {a} == s.agents - {a} }

  /** Who answers for `id` before, in phase `p`, and after, in phase `q`. */
  predicate OwnerMoves(s: Sys, r: Sys, a: Agent, id: TaskId, p: Phase, q: Phase) {
    && (a in s.agents ==>
          if a in r.agents then HandsOver(s.agents[a], r.agents[a], id) else LaysDown(s.agents[a], id))
    && (Staffed(q) ==> if q.agent == a then a in r.agents && WorksOn(r.agents[a], id, q) else q == p)
  }

  /** Where record `u` of task `id` is at home once slot `x` has become `slot`. */
  predicate HomeMoves(slots: seq<Slot>, id: TaskId, u: Task, x: nat, slot: Slot)
    requires x < |slots|
  {
    if Resident(u.phase) then u.handle == Handle(x, slot.generation) && Houses(slot, u, id)
    else
      && !slot.use.HeldFor? && (slot.use.Listed? ==> slot.state == Free)
      && (u.handle.Handle? ==>
            if u.handle.index == x then u.handle.generation < slot.generation else GoneOk(u, slots))
  }

  lemma RecordHomes(s: Sys, r: Sys, id: TaskId, u: Task, x: nat, slot: Slot)
    requires HomesOk(s.tasks, s.slots) && id < |s.tasks| && x < |s.slots|
    requires r.tasks == s.tasks[id := u] && r.slots == s.slots[x := slot]
    requires s.slots[x].generation <= slot.generation
    requires s.slots[x].use.HeldFor? ==> s.slots[x].use.task == id
    requires Resident(s.tasks[id].phase) ==> s.tasks[id].handle.Handle? && s.tasks[id].handle.index == x
    requires HomeMoves(s.slots, id, u, x, slot)
    ensures HomesOk(r.tasks, r.slots)
  {
    HomesSpared(s.tasks, s.slots, r.tasks, r.slots, id, x);
  }

  lemma BareRecordHomes(s: Sys, r: Sys, id: TaskId, u: Task)
    requires HomesOk(s.tasks, s.slots) && id < |s.tasks| && r.tasks == s.tasks[id := u] && r.slots == s.slots
    requires s.tasks[id].handle.Handle? ==> u.handle == s.tasks[id].handle
    requires HomeOk(u, id, s.slots) && (Resident(s.tasks[id].phase) <==> Resident(u.phase))
    ensures HomesOk(r.tasks, r.slots)
  {
    assert HomeOk(s.tasks[id], id, s.slots);
    var x := if Resident(u.phase) then u.handle.index else |s.slots|;
    HomesSpared(s.tasks, s.slots, r.tasks, r.slots, id, x);
  }

  lemma RecordSpares(s: Sys, r: Sys, a: Agent, id: TaskId, u: Task)
    requires id < |s.tasks| && r.tasks == s.tasks[id := u] && |r.slots| == |s.slots|
    requires TaskSpared(s.tasks[id], u, a)
    requires forall x | 0 <= x < |s.slots| :: SlotSpared(s.tasks, s.slots[x], r.slots[x], a)
    ensures Spares(s, r, a)
  {
  }

  /** What a step on one record owes besides the homes of the tasks. */
  ghost predicate Owes(s: Sys, r: Sys, a: Agent, id: TaskId, u: Task) {
    && id < |s.tasks| && r.tasks == s.tasks[id := u] && OnlyAgent(s, r, a)
    && Shape(u) && OwnerMoves(s, r, a, id, s.tasks[id].phase, u.phase)
    && (a in r.agents ==> PcOk(r, a, r.agents[a]))
    && r.ready == s.ready[id := One(u.phase.Ready?)]
    && r.outstanding == s.outstanding - One(Unsettled(s.tasks[id])) + One(Unsettled(u))
  }

  lemma CoreFromParts(s: Sys, r: Sys, a: Agent, id: TaskId, u: Task)
    requires Core(s) && Owes(s, r, a, id, u) && Spares(s, r, a) && HomesOk(r.tasks, r.slots)
    ensures Core(r)
  {
    hide PcOk, DutyOf, SideDuty, Shape, HomesOk, Spares, OwnersOk, AgentsOk, OwnerMoves, OnlyAgent;
    OwnersMove(s, r, a, id);
    AgentsMove(s, r, a);
    UnsettledOne(s.tasks, id, u);
  }

  /** A step of `a` on one record and one slot. */
  lemma RecordKeeps(s: Sys, r: Sys, a: Agent, id: TaskId, u: Task, x: nat, slot: Slot)
    requires Core(s) && Owes(s, r, a, id, u)
    requires x < |s.slots| && r.slots == s.slots[x := slot]
    requires TaskSpared(s.tasks[id], u, a) && SlotSpared(s.tasks, s.slots[x], slot, a)
    requires s.slots[x].use.HeldFor? ==> s.slots[x].use.task == id
    requires Resident(s.tasks[id].phase) ==> s.tasks[id].handle.Handle? && s.tasks[id].handle.index == x
    requires HomeMoves(s.slots, id, u, x, slot)
    ensures Core(r)
  {
    hide PcOk, Shape, HomesOk, OwnersOk, AgentsOk, OwnerMoves, OnlyAgent, HomeMoves, ShapesOk, ReadyOk;
    RecordHomes(s, r, id, u, x, slot);
    RecordSpares(s, r, a, id, u);
    CoreFromParts(s, r, a, id, u);
  }

  /** A step of `a` on one record and no slot. */
  lemma BareRecordKeeps(s: Sys, r: Sys, a: Agent, id: TaskId, u: Task)
    requires Core(s) && Owes(s, r, a, id, u)
    requires r.slots == s.slots && TaskSpared(s.tasks[id], u, a)
    requires HomeOk(u, id, s.slots) && (Resident(s.tasks[id].phase) <==> Resident(u.phase))
    ensures Core(r)
  {
    hide PcOk, Shape, HomesOk, OwnersOk, AgentsOk, OwnerMoves, OnlyAgent, HomeOk, ShapesOk, ReadyOk;
    BareRecordHomes(s, r, id, u);
    RecordSpares(s, r, a, id, u);
    CoreFromParts(s, r, a, id, u);
  }

  lemma OthersStay(s: Sys, r: Sys, a: Agent)
    requires OnlyAgent(s, r, a)
    ensures forall b | b in s.agents && b != a :: b in r.agents && r.agents[b] == s.agents[b]
    ensures forall b | b in r.agents && b != a :: b in s.agents
  {
    forall b | b in s.agents && b != a ensures b in r.agents && r.agents[b] == s.agents[b] {
      assert b in s.agents - {a} && b in r.agents - {a};
      assert (s.agents - {a})[b] == (r.agents - {a})[b];
    }
    forall b | b in r.agents && b != a ensures b in s.agents {
      assert b in r.agents - {a} && b in s.agents - {a};
    }
  }

  lemma OwnersMove(s: Sys, r: Sys, a: Agent, id: TaskId)
    requires OwnersOk(s.tasks, s.agents) && OnlyAgent(s, r, a)
    requires id < |s.tasks| == |r.tasks| && r.tasks == s.tasks[id := r.tasks[id]]
    requires OwnerMoves(s, r, a, id, s.tasks[id].phase, r.tasks[id].phase)
    ensures OwnersOk(r.tasks, r.agents)
  {
    hide DutyOf, SideDuty;
    OthersStay(s, r, a);
    OwnersSpared(s, r, a);
  }

  lemma AgentsMove(s: Sys, r: Sys, a: Agent)
    requires HomesOk(s.tasks, s.slots) && AgentsOk(s) && Spares(s, r, a) && OnlyAgent(s, r, a)
    requires a in r.agents ==> PcOk(r, a, r.agents[a])
    ensures AgentsOk(r)
  {
    hide HomesOk, PcOk, AgentsOk, Spares;
    OthersStay(s, r, a);
    OtherAgentsSpared(s, r, a);
  }
}
