/** No pool slot is lost: whoever has taken one out of the free lists is on the way to using it or giving it back. */
module RuntimeSlots {
  import opened RuntimeModel
  import opened RuntimeInvariant
  import opened RuntimeFrames
  import opened RuntimeLinks
  import opened RuntimeSteps
  import opened RuntimeMoves
  import opened RuntimeTheorems
  import opened RuntimeProgress

  /** An agent at `pc` has slot `x` in its hands. */
  predicate Carries(pc: Pc, x: nat) { (pc.Taken? || HasSlot(pc)) && pc.slot == x }

  predicate InHands(s: Sys, x: nat)
    requires x < |s.slots|
  {
    s.slots[x].use.InTransit? ==> s.slots[x].use.agent in s.agents && Carries(s.agents[s.slots[x].use.agent], x)
  }

  ghost predicate Accounted(s: Sys) { forall x {:trigger InHands(s, x)} | 0 <= x < |s.slots| :: InHands(s, x) }

  lemma OpeningAccounts(s: Sys, r: Sys, a: Agent, x: nat)
    requires Inv(s) && Go(s, r, a) && IsOpening(s.agents[a]) && x < |s.slots| && InHands(s, x)
    ensures |r.slots| == |s.slots| && InHands(r, x)
  {
    hide Inv;
    PcHolds(s, a);
  }

  lemma AssemblingAccounts(s: Sys, r: Sys, a: Agent, x: nat)
    requires Go(s, r, a) && x < |s.slots| && InHands(s, x)
    requires s.agents[a].Scanning? || s.agents[a].Resolved? || s.agents[a].Unregistered?
    ensures |r.slots| == |s.slots| && InHands(r, x)
  {
  }

  lemma ReturningAccounts(s: Sys, r: Sys, a: Agent, x: nat)
    requires Inv(s) && Go(s, r, a) && HasSlot(s.agents[a]) && x < |s.slots| && InHands(s, x)
    ensures |r.slots| == |s.slots| && InHands(r, x)
  {
    hide Inv;
    PcHolds(s, a);
  }

  lemma QueryAccounts(s: Sys, r: Sys, a: Agent, x: nat)
    requires Go(s, r, a) && IsQuery(s.agents[a]) && x < |s.slots| && InHands(s, x)
    ensures |r.slots| == |s.slots| && InHands(r, x)
  {
  }

  lemma ExecutingAccounts(s: Sys, r: Sys, a: Agent, x: nat)
    requires Go(s, r, a) && IsExecution(s.agents[a]) && x < |s.slots| && InHands(s, x)
    ensures |r.slots| == |s.slots| && InHands(r, x)
  {
  }

  lemma PublishingAccounts(s: Sys, r: Sys, a: Agent, x: nat)
    requires Go(s, r, a) && x < |s.slots| && InHands(s, x)
    requires s.agents[a].Zeroed? || s.agents[a].Enqueuing? || s.agents[a].Settling? || IsReleasing(s.agents[a])
    ensures |r.slots| == |s.slots| && InHands(r, x)
  {
  }

  lemma StepAccounts(s: Sys, r: Sys, a: Agent, action: Action, x: nat)
    requires Inv(s) && Step(s, r, a, action) && x < |s.slots| && InHands(s, x)
    ensures |r.slots| == |s.slots| && InHands(r, x)
  {
    hide Inv, Go;
    if action.Goes? {
      hide InHands;
      GoesFromAgent(s, r, a);
      var pc := s.agents[a];
      if IsOpening(pc) { OpeningAccounts(s, r, a, x); }
      else if pc.Scanning? || pc.Resolved? || pc.Unregistered? { AssemblingAccounts(s, r, a, x); }
      else if HasSlot(pc) { ReturningAccounts(s, r, a, x); }
      else if IsQuery(pc) { QueryAccounts(s, r, a, x); }
      else if IsExecution(pc) { ExecutingAccounts(s, r, a, x); }
      else {
        assert !pc.Counted? by { CountedIsStill(s, r, a); }
        PublishingAccounts(s, r, a, x);
      }
    }
  }

  lemma CountedIsStill(s: Sys, r: Sys, a: Agent)
    requires Go(s, r, a)
    ensures !s.agents[a].Counted?
  {
  }

  lemma {:induction false} RunAccounts(run: seq<Sys>, n: nat)
    requires Run(run) && n < |run|
    ensures Accounted(run[n])
  {
    hide Inv, Step, InHands;
    if n == 0 {
      InitAccounts(run[0]);
    } else {
      RunAccounts(run, n - 1);
      RunKeepsInv(run, n - 1);
      assert Follows(run, n);
      var a: Agent, action: Action :| Step(run[n - 1], run[n], a, action);
      SlotsStay(run[n - 1], run[n], a, action);
      forall x | 0 <= x < |run[n].slots| ensures InHands(run[n], x) {
        assert InHands(run[n - 1], x);
        StepAccounts(run[n - 1], run[n], a, action, x);
      }
    }
  }

  lemma InitAccounts(s: Sys)
    requires Init(s)
    ensures Accounted(s)
  {
  }

  lemma SlotsStay(s: Sys, r: Sys, a: Agent, action: Action)
    requires Inv(s) && Step(s, r, a, action)
    ensures |r.slots| == |s.slots|
  {
    hide Inv, Step;
    if |s.tasks| > 0 { StepMoves(s, r, a, action, 0); } else { FirstStep(s, r, a, action); }
  }

  lemma FirstStep(s: Sys, r: Sys, a: Agent, action: Action)
    requires Step(s, r, a, action) && |s.tasks| == 0
    ensures |r.slots| == |s.slots|
  {
  }

  /**
   Every slot is on the free lists, with the task that occupies it, or in the hands of an agent
   that is taking it or giving it back; so when nothing is outstanding and no agent is doing
   either, all of them are free.
   */
  lemma NoSlotIsLost(run: seq<Sys>, n: nat, x: nat)
    requires Run(run) && n < |run| && x < |run[n].slots|
    ensures match run[n].slots[x].use
      case Listed => run[n].slots[x].state == Free
      case InTransit(a) => a in run[n].agents && Carries(run[n].agents[a], x)
      case HeldFor(id) => id < |run[n].tasks| && Unsettled(run[n].tasks[id]) && run[n].tasks[id].handle == Handle(x, run[n].slots[x].generation)
    ensures run[n].outstanding == 0 && (forall a | a in run[n].agents :: !Carries(run[n].agents[a], x)) ==>
      run[n].slots[x].use == Listed
  {
    hide Inv, Run;
    RunKeepsInv(run, n);
    RunAccounts(run, n);
    var s := run[n];
    assert InHands(s, x);
    SlotHolds(s, x);
    if s.slots[x].use.HeldFor? {
      RecordHolds(s, s.slots[x].use.task);
      OutstandingHolds(s);
      if s.outstanding == 0 { NoneUnsettled(s.tasks, s.slots[x].use.task); }
    }
  }
}
