/**
 The work-stealing deque as a state machine: one owner, any number of thieves, and one
 step per access to `top_`, `bottom_` or a ring slot. Interleavings are sequentially
 consistent; the fences of the implementation are there to restore exactly that.

 Next to the shared words the state keeps a history that no operation reads:
 `live` (the abstract deque), `log` (operations in the order they take effect),
 `pushed` and `given` (what went in and what callers were handed).
 */
module DequeMachine {

  type Tid = nat

  /** Where the owner is inside `push` or `pop`, with the locals it holds there. */
  datatype OwnerPc<T> =
    | OwnerIdle
    | PushLoadedBottom(item: T, b: int)
    | PushLoadedTop(item: T, b: int, t: int)
    | PushWrote(item: T, b: int)
    | PopLoadedBottom(b: int)
    | PopStored(b: int)
    | PopRestoring(b: int)
    | PopTaking(b: int, promised: T)
    | PopRacing(b: int)
    | PopRead(b: int, item: T)
    | PopDecided(b: int, item: T, won: bool)

  /** Where a thief is inside `steal`; a thief that is not a key is outside it. */
  datatype ThiefPc<T> =
    | StealLoadedTop(t: int)
    | StealChecked(t: int)
    | StealRead(t: int, item: T)

  datatype Event<T> =
    | Pushed(item: T)
    | PushRefused
    | Popped(item: T)
    | PopMissed
    | Stolen(item: T)

  datatype State<T(==)> = State(
    capacity: nat,
    top: int,
    bottom: int,
    buffer: seq<T>,
    owner: OwnerPc<T>,
    thieves: map<Tid, ThiefPc<T>>,
    live: seq<T>,
    log: seq<Event<T>>,
    pushed: multiset<T>,
    given: multiset<T>
  )

  datatype Action<T> =
    | PushCall(item: T)
    | PopCall
    | OwnerStep
    | StealCall(thief: Tid)
    | ThiefStep(thief: Tid)

  predicate Shaped<T(==)>(s: State<T>) {
    0 < s.capacity == |s.buffer|
  }

  /** The ring slot of logical index `i`: `i` wrapped around every `capacity`. */
  function SlotOf(i: int, capacity: nat): (k: nat)
    requires 0 < capacity
    ensures k < capacity
    decreases if i < 0 then capacity - i else i
  {
    if i < 0 then SlotOf(i + capacity, capacity)
    else if i < capacity then i
    else SlotOf(i - capacity, capacity)
  }

  predicate Enabled<T(==)>(s: State<T>, a: Action<T>) {
    match a
    case PushCall(_) => s.owner.OwnerIdle?
    case PopCall => s.owner.OwnerIdle?
    case OwnerStep => !s.owner.OwnerIdle?
    case StealCall(thief) => thief !in s.thieves
    case ThiefStep(thief) => thief in s.thieves
  }

  /** The owner's next access; lines are those of `push` and `pop`. */
  function OwnerNext<T(==)>(s: State<T>): (r: State<T>)
    requires Shaped(s) && !s.owner.OwnerIdle?
    ensures Shaped(r) && r.capacity == s.capacity
  {
    match s.owner
    case PushLoadedBottom(item, b) =>
      if b - s.top >= s.capacity
      then s.(owner := OwnerIdle, log := s.log + [PushRefused])
      else s.(owner := PushLoadedTop(item, b, s.top))
    case PushLoadedTop(item, b, t) =>
      s.(owner := PushWrote(item, b), buffer := s.buffer[SlotOf(b, s.capacity) := item])
    case PushWrote(item, b) =>
      s.(owner := OwnerIdle, bottom := b + 1,
         live := s.live + [item], log := s.log + [Pushed(item)], pushed := s.pushed + multiset{item})
    case PopLoadedBottom(b) =>
      s.(owner := PopStored(b), bottom := b)
    case PopStored(b) =>
      if s.top > b then
        s.(owner := PopRestoring(b), log := s.log + [PopMissed])
      else if s.top == b then
        s.(owner := PopRacing(b))
      else
        var last := s.buffer[SlotOf(b, s.capacity)];
        s.(owner := PopTaking(b, last), log := s.log + [Popped(last)],
           live := if s.live == [] then [] else s.live[..|s.live| - 1])
    case PopRestoring(b) =>
      s.(owner := OwnerIdle, bottom := b + 1)
    case PopTaking(b, _) =>
      s.(owner := OwnerIdle, given := s.given + multiset{s.buffer[SlotOf(b, s.capacity)]})
    case PopRacing(b) =>
      s.(owner := PopRead(b, s.buffer[SlotOf(b, s.capacity)]))
    case PopRead(b, item) =>
      if s.top == b
      then s.(owner := PopDecided(b, item, true), top := b + 1, live := [], log := s.log + [Popped(item)])
      else s.(owner := PopDecided(b, item, false), log := s.log + [PopMissed])
    case PopDecided(b, item, won) =>
      s.(owner := OwnerIdle, bottom := b + 1, given := if won then s.given + multiset{item} else s.given)
    case OwnerIdle => s
  }

  /** A thief's next access; lines are those of `steal`. */
  function ThiefNext<T(==)>(s: State<T>, thief: Tid): (r: State<T>)
    requires Shaped(s) && thief in s.thieves
    ensures Shaped(r) && r.capacity == s.capacity
  {
    match s.thieves[thief]
    case StealLoadedTop(t) =>
      if t >= s.bottom
      then s.(thieves := s.thieves - {thief})
      else s.(thieves := s.thieves[thief := StealChecked(t)])
    case StealChecked(t) =>
      s.(thieves := s.thieves[thief := StealRead(t, s.buffer[SlotOf(t, s.capacity)])])
    case StealRead(t, item) =>
      if s.top == t
      then s.(thieves := s.thieves - {thief}, top := t + 1,
              live := if s.live == [] then [] else s.live[1..],
              log := s.log + [Stolen(item)], given := s.given + multiset{item})
      else s.(thieves := s.thieves - {thief})
  }

  function Next<T(==)>(s: State<T>, a: Action<T>): (r: State<T>)
    requires Shaped(s) && Enabled(s, a)
    ensures Shaped(r) && r.capacity == s.capacity
  {
    match a
    case PushCall(item) => s.(owner := PushLoadedBottom(item, s.bottom))
    case PopCall => s.(owner := PopLoadedBottom(s.bottom - 1))
    case OwnerStep => OwnerNext(s)
    case StealCall(thief) => s.(thieves := s.thieves[thief := StealLoadedTop(s.top)])
    case ThiefStep(thief) => ThiefNext(s, thief)
  }

  predicate Init<T(==)>(s: State<T>) {
    && Shaped(s)
    && s.top == 0 && s.bottom == 0
    && s.owner.OwnerIdle? && s.thieves == map[]
    && s.live == [] && s.log == []
    && s.pushed == multiset{} && s.given == multiset{}
  }

  /** `actions` is an interleaving that the two sides can perform from `s`, ending in `r`. */
  ghost predicate Run<T>(s: State<T>, actions: seq<Action<T>>, r: State<T>)
    requires Shaped(s)
    decreases |actions|
  {
    && Shaped(r)
    && if actions == [] then s == r
       else Enabled(s, actions[0]) && Run(Next(s, actions[0]), actions[1..], r)
  }

  // ------------------------------------------------------------------ invariant

  ghost predicate RingHoldsLive<T>(s: State<T>)
    requires Shaped(s)
  {
    && 0 <= s.top
    && |s.live| <= s.capacity
    && forall k | 0 <= k < |s.live| :: s.buffer[SlotOf(s.top + k, s.capacity)] == s.live[k]
  }

  ghost predicate OwnerOk<T>(s: State<T>)
    requires Shaped(s)
  {
    match s.owner
    case OwnerIdle => s.bottom == s.top + |s.live|
    case PushLoadedBottom(_, b) => s.bottom == s.top + |s.live| && b == s.bottom
    case PushLoadedTop(_, b, t) =>
      s.bottom == s.top + |s.live| && b == s.bottom && t <= s.top && b - t < s.capacity
    case PushWrote(item, b) =>
      s.bottom == s.top + |s.live| && b == s.bottom && |s.live| < s.capacity
      && s.buffer[SlotOf(b, s.capacity)] == item
    case PopLoadedBottom(b) => s.bottom == s.top + |s.live| && b == s.bottom - 1
    case PopStored(b) => s.bottom == b && s.top + |s.live| == b + 1
    case PopRestoring(b) => s.bottom == b && s.live == [] && s.top == b + 1
    case PopTaking(b, promised) =>
      s.bottom == b && s.top + |s.live| == b && |s.live| < s.capacity
      && s.buffer[SlotOf(b, s.capacity)] == promised
    case PopRacing(b) => s.bottom == b && s.top + |s.live| == b + 1 && b <= s.top
    case PopRead(b, item) =>
      s.bottom == b && s.top + |s.live| == b + 1 && b <= s.top && (s.top == b ==> s.live == [item])
    case PopDecided(b, _, _) => s.bottom == b && s.live == [] && s.top == b + 1
  }

  ghost predicate ThiefOk<T>(s: State<T>, pc: ThiefPc<T>) {
    match pc
    case StealLoadedTop(t) => t <= s.top
    case StealChecked(t) => t <= s.top && (t == s.top ==> s.live != [])
    case StealRead(t, item) => t <= s.top && (t == s.top ==> s.live != [] && s.live[0] == item)
  }

  /** Taken out of the abstract deque, not yet handed to the caller of `pop`. */
  function InFlight<T(==)>(pc: OwnerPc<T>): multiset<T> {
    match pc
    case PopTaking(_, promised) => multiset{promised}
    case PopDecided(_, item, won) => if won then multiset{item} else multiset{}
    case _ => multiset{}
  }

  /** What an event demands of a plain double-ended queue, and what it leaves. */
  function Apply<T(==)>(e: Event<T>, ok: bool, q: seq<T>): (bool, seq<T>) {
    match e
    case Pushed(item) => (ok, q + [item])
    case PushRefused => (ok, q)
    case Popped(item) => if |q| > 0 then (ok && q[|q| - 1] == item, q[..|q| - 1]) else (false, [])
    case PopMissed => (ok && q == [], q)
    case Stolen(item) => if |q| > 0 then (ok && q[0] == item, q[1..]) else (false, [])
  }

  /** The queue after all of `log`, and whether every event in it was legal. */
  function Replay<T(==)>(log: seq<Event<T>>): (r: (bool, seq<T>)) {
    if log == [] then (true, [])
    else
      var (ok, q) := Replay(log[..|log| - 1]);
      Apply(log[|log| - 1], ok, q)
  }

  ghost predicate ProtocolOk<T>(s: State<T>) {
    && Shaped(s)
    && RingHoldsLive(s)
    && OwnerOk(s)
    && (forall thief | thief in s.thieves :: ThiefOk(s, s.thieves[thief]))
  }

  ghost predicate Conserved<T>(s: State<T>) {
    s.pushed == s.given + multiset(s.live) + InFlight(s.owner)
  }

  ghost predicate Linear<T>(s: State<T>) {
    Replay(s.log) == (true, s.live)
  }

  ghost predicate Inv<T>(s: State<T>) {
    ProtocolOk(s) && Conserved(s) && Linear(s)
  }

  // ------------------------------------------------------- the invariant is kept

  /** Indices less than a ring apart occupy different slots. */
  lemma {:induction false} SlotsDiffer(i: int, j: int, capacity: nat)
    requires 0 < capacity && 0 <= i < j < i + capacity
    ensures SlotOf(i, capacity) != SlotOf(j, capacity)
    decreases j
  {
    if i >= capacity {
      SlotsDiffer(i - capacity, j - capacity, capacity);
    } else if j >= capacity {
      assert SlotOf(j - capacity, capacity) == j - capacity < i;
    }
  }

  lemma WriteSparesLive<T>(s: State<T>, b: int, item: T)
    requires Shaped(s) && RingHoldsLive(s) && b == s.top + |s.live| && |s.live| < s.capacity
    ensures RingHoldsLive(s.(buffer := s.buffer[SlotOf(b, s.capacity) := item]))
  {
    forall k | 0 <= k < |s.live|
      ensures s.buffer[SlotOf(b, s.capacity) := item][SlotOf(s.top + k, s.capacity)] == s.live[k]
    {
      SlotsDiffer(s.top + k, b, s.capacity);
    }
  }

  lemma ReplayOne<T>(log: seq<Event<T>>, e: Event<T>)
    requires Replay(log).0
    ensures Replay(log + [e]) == Apply(e, true, Replay(log).1)
  {
    assert (log + [e])[..|log|] == log;
  }

  predicate Pushing<T>(pc: OwnerPc<T>) {
    pc.PushLoadedBottom? || pc.PushLoadedTop? || pc.PushWrote?
  }

  lemma PushStepKeepsProtocol<T>(s: State<T>)
    requires ProtocolOk(s) && Pushing(s.owner)
    ensures ProtocolOk(OwnerNext(s))
  {
    match s.owner
    case PushLoadedBottom(item, b) =>
    case PushLoadedTop(item, b, t) => WriteSparesLive(s, b, item);
    case PushWrote(item, b) =>
  }

  lemma PopStoredKeepsProtocol<T>(s: State<T>)
    requires ProtocolOk(s) && s.owner.PopStored?
    ensures ProtocolOk(OwnerNext(s))
  {
  }

  lemma PopReadKeepsProtocol<T>(s: State<T>)
    requires ProtocolOk(s) && (s.owner.PopRead? || s.owner.PopRacing?)
    ensures ProtocolOk(OwnerNext(s))
  {
    if s.top == s.owner.b { assert SlotOf(s.top + 0, s.capacity) == SlotOf(s.owner.b, s.capacity); }
  }

  lemma OwnerStepKeepsProtocol<T>(s: State<T>)
    requires ProtocolOk(s) && !s.owner.OwnerIdle?
    ensures ProtocolOk(OwnerNext(s))
  {
    if Pushing(s.owner) { PushStepKeepsProtocol(s); }
    else if s.owner.PopStored? { PopStoredKeepsProtocol(s); }
    else if s.owner.PopRead? || s.owner.PopRacing? { PopReadKeepsProtocol(s); }
  }

  /** The ring slot the owner is about to take holds the newest live item. */
  ghost predicate BottomSlotIsLast<T>(s: State<T>)
    requires Shaped(s)
  {
    s.owner.PopStored? && s.top < s.owner.b ==>
      s.live != [] && s.live[|s.live| - 1] == s.buffer[SlotOf(s.owner.b, s.capacity)]
  }

  lemma LastLiveIsInTheRing<T>(s: State<T>)
    requires ProtocolOk(s)
    ensures BottomSlotIsLast(s)
  {
    if s.owner.PopStored? && s.top < s.owner.b {
      assert s.top + (|s.live| - 1) == s.owner.b;
    }
  }

  lemma OwnerStepKeepsLog<T>(s: State<T>)
    requires Shaped(s) && OwnerOk(s) && BottomSlotIsLast(s) && Linear(s) && !s.owner.OwnerIdle?
    ensures Linear(OwnerNext(s))
  {
    var r := OwnerNext(s);
    if r.log != s.log {
      assert r.log == s.log + [r.log[|s.log|]];
      ReplayOne(s.log, r.log[|s.log|]);
    }
  }

  lemma FrontOrBack<T>(list: seq<T>)
    requires list != []
    ensures multiset(list) == multiset(list[1..]) + multiset{list[0]}
    ensures multiset(list) == multiset(list[..|list| - 1]) + multiset{list[|list| - 1]}
  {
    assert list == [list[0]] + list[1..];
    assert list == list[..|list| - 1] + [list[|list| - 1]];
  }

  /** One item moves from what is live to what is given, or to what is in flight. */
  lemma Regrouped<T>(given: multiset<T>, rest: multiset<T>, x: T, flight: multiset<T>)
    ensures given + (rest + multiset{x}) + flight == (given + multiset{x}) + rest + flight
    ensures given + (rest + multiset{x}) + multiset{} == given + rest + multiset{x}
  {
  }

  /** The two steps at which `pop` takes an item out of the abstract deque, or finds none. */
  lemma OwnerTakes<T>(s: State<T>)
    requires Shaped(s) && OwnerOk(s) && BottomSlotIsLast(s) && (s.owner.PopStored? || s.owner.PopRead?)
    ensures var r := OwnerNext(s);
      && r.given == s.given && r.pushed == s.pushed && InFlight(s.owner) == multiset{}
      && if r.live == s.live then InFlight(r.owner) == multiset{}
         else s.live != [] && r.live == s.live[..|s.live| - 1] && InFlight(r.owner) == multiset{s.live[|s.live| - 1]}
  {
    hide SlotOf;
  }

  /** Items leave the abstract deque into the owner's hands. */
  lemma OwnerTakesConserve<T>(s: State<T>)
    requires Shaped(s) && OwnerOk(s) && BottomSlotIsLast(s) && Conserved(s)
    requires s.owner.PopStored? || s.owner.PopRead?
    ensures Conserved(OwnerNext(s))
  {
    hide OwnerNext, OwnerOk, BottomSlotIsLast, InFlight;
    OwnerTakes(s);
    if OwnerNext(s).live != s.live {
      var last := |s.live| - 1;
      FrontOrBack(s.live);
      Regrouped(s.given, multiset(s.live[..last]), s.live[last], multiset{});
    }
  }

  /** Items leave the owner's hands for its caller. */
  lemma OwnerReturnsConserve<T>(s: State<T>)
    requires Shaped(s) && OwnerOk(s) && Conserved(s)
    requires s.owner.PopTaking? || s.owner.PopDecided?
    ensures Conserved(OwnerNext(s))
  {
    var r := OwnerNext(s);
    assert InFlight(r.owner) == multiset{} && r.live == s.live;
    assert r.given == s.given + InFlight(s.owner);
  }

  lemma OwnerStepKeepsItems<T>(s: State<T>)
    requires Shaped(s) && OwnerOk(s) && BottomSlotIsLast(s) && Conserved(s) && !s.owner.OwnerIdle?
    ensures Conserved(OwnerNext(s))
  {
    var r := OwnerNext(s);
    if s.owner.PopStored? || s.owner.PopRead? {
      OwnerTakesConserve(s);
    } else if s.owner.PushWrote? {
      assert r.live == s.live + [s.owner.item];
    } else if s.owner.PopTaking? || s.owner.PopDecided? {
      OwnerReturnsConserve(s);
    } else {
      assert r.pushed == s.pushed && r.live == s.live && r.given == s.given;
      assert InFlight(r.owner) == InFlight(s.owner);
    }
  }

  lemma ThiefStepKeepsProtocol<T>(s: State<T>, thief: Tid)
    requires ProtocolOk(s) && thief in s.thieves
    ensures ProtocolOk(ThiefNext(s, thief))
  {
    var r := ThiefNext(s, thief);
    if s.thieves[thief].StealChecked? && s.thieves[thief].t == s.top {
      assert SlotOf(s.top + 0, s.capacity) == SlotOf(s.top, s.capacity);
    }
    if r.top == s.top + 1 {
      forall k | 0 <= k < |r.live|
        ensures r.buffer[SlotOf(r.top + k, r.capacity)] == r.live[k]
      {
        assert r.top + k == s.top + (k + 1);
      }
    }
  }

  /** A thief about to succeed: what it read is the oldest live item. */
  lemma ThiefHolds<T>(s: State<T>, thief: Tid)
    requires Inv(s) && thief in s.thieves
    ensures Shaped(s) && Conserved(s) && Linear(s)
    ensures s.thieves[thief].StealRead? && s.thieves[thief].t == s.top ==> s.live != [] && s.live[0] == s.thieves[thief].item
  {
  }

  lemma ThiefStepConserves<T>(s: State<T>, thief: Tid)
    requires Inv(s) && thief in s.thieves
    ensures Conserved(ThiefNext(s, thief))
  {
    hide Inv, SlotOf, Linear;
    ThiefHolds(s, thief);
    var r := ThiefNext(s, thief);
    assert r.owner == s.owner && r.pushed == s.pushed;
    if s.thieves[thief].StealRead? && s.thieves[thief].t == s.top {
      assert r.live == s.live[1..] && r.given == s.given + multiset{s.live[0]};
      hide ThiefNext, InFlight;
      FrontOrBack(s.live);
      Regrouped(s.given, multiset(s.live[1..]), s.live[0], InFlight(s.owner));
    } else {
      assert r.live == s.live && r.given == s.given;
    }
  }

  lemma ThiefStepKeepsLog<T>(s: State<T>, thief: Tid)
    requires Inv(s) && thief in s.thieves
    ensures Linear(ThiefNext(s, thief))
  {
    hide Inv, SlotOf, Conserved;
    ThiefHolds(s, thief);
    if s.thieves[thief].StealRead? { ReplayOne(s.log, Stolen(s.thieves[thief].item)); }
  }

  lemma StepKeepsInv<T>(s: State<T>, a: Action<T>)
    requires Inv(s) && Enabled(s, a)
    ensures Inv(Next(s, a))
  {
    match a
    case OwnerStep => OwnerStepKeepsProtocol(s); LastLiveIsInTheRing(s); OwnerStepKeepsLog(s); OwnerStepKeepsItems(s);
    case ThiefStep(thief) => ThiefStepKeepsProtocol(s, thief); ThiefStepConserves(s, thief); ThiefStepKeepsLog(s, thief);
    case _ =>
  }

  lemma {:induction false} RunKeepsInv<T>(s: State<T>, actions: seq<Action<T>>, r: State<T>)
    requires Inv(s) && Run(s, actions, r)
    ensures Inv(r)
    decreases |actions|
  {
    if actions != [] {
      StepKeepsInv(s, actions[0]);
      RunKeepsInv(Next(s, actions[0]), actions[1..], r);
    }
  }

  // ------------------------------------------------------------- main results

  /**
   However one owner and any number of thieves interleave: no item is handed out more
   often than it was pushed, nothing pushed is lost, and every push, pop and successful
   steal takes effect, in one order, as on a plain double-ended queue.
   */
  lemma EveryItemHandedOutOnce<T>(s: State<T>, actions: seq<Action<T>>, r: State<T>)
    requires Init(s) && Run(s, actions, r)
    ensures r.given <= r.pushed
    ensures r.pushed == r.given + multiset(r.live) + InFlight(r.owner)
    ensures Replay(r.log) == (true, r.live)
    ensures r.owner.OwnerIdle? ==> r.pushed == r.given + multiset(r.live) && |r.live| == r.bottom - r.top
  {
    RunKeepsInv(s, actions, r);
  }

  /** A thief whose claim will succeed holds exactly the oldest live item. */
  lemma SuccessfulClaimHoldsTheItemAtTop<T>(
    s: State<T>, actions: seq<Action<T>>, r: State<T>, thief: Tid, t: int, item: T)
    requires Init(s) && Run(s, actions, r)
    requires thief in r.thieves && r.thieves[thief] == StealRead(t, item) && r.top == t
    ensures r.live != [] && r.live[0] == item && r.buffer[SlotOf(t, r.capacity)] == item
  {
    RunKeepsInv(s, actions, r);
    assert SlotOf(r.top + 0, r.capacity) == SlotOf(t, r.capacity);
  }

  /** The ring write of `push`, made with a possibly stale `top`, never lands on a live index. */
  lemma PushNeverOverwritesLive<T>(s: State<T>, actions: seq<Action<T>>, r: State<T>, k: nat)
    requires Init(s) && Run(s, actions, r) && r.owner.PushLoadedTop? && k < |r.live|
    ensures SlotOf(r.owner.b, r.capacity) != SlotOf(r.top + k, r.capacity)
    ensures OwnerNext(r).buffer[SlotOf(r.top + k, r.capacity)] == r.live[k]
  {
    RunKeepsInv(s, actions, r);
    SlotsDiffer(r.top + k, r.owner.b, r.capacity);
  }

  /** A refused push found the deque exactly full. */
  lemma PushRefusedOnlyWhenFull<T>(s: State<T>, actions: seq<Action<T>>, r: State<T>)
    requires Init(s) && Run(s, actions, r) && r.owner.PushLoadedBottom?
    ensures OwnerNext(r).owner.OwnerIdle? <==> |r.live| == r.capacity
  {
    RunKeepsInv(s, actions, r);
  }

  /**
   What `Empty` from `steal` means: nothing is live, or the single live item is the one
   the owner's `pop` is taking or racing for at this moment.
   */
  lemma StealEmptyMeansNothingLeftToTake<T>(
    s: State<T>, actions: seq<Action<T>>, r: State<T>, thief: Tid)
    requires Init(s) && Run(s, actions, r)
    requires thief in r.thieves && r.thieves[thief].StealLoadedTop?
    requires thief !in ThiefNext(r, thief).thieves
    ensures r.live == [] || (|r.live| == 1 && (r.owner.PopStored? || r.owner.PopRacing? || r.owner.PopRead?))
  {
    RunKeepsInv(s, actions, r);
  }

  /** The converse side of a failed claim: an `Abort` means another party took an item meanwhile. */
  lemma StealAbortMeansTopMoved<T>(
    s: State<T>, actions: seq<Action<T>>, r: State<T>, thief: Tid, t: int, item: T)
    requires Init(s) && Run(s, actions, r)
    requires thief in r.thieves && r.thieves[thief] == StealRead(t, item) && r.top != t
    ensures t < r.top && ThiefNext(r, thief) == r.(thieves := r.thieves - {thief})
  {
    RunKeepsInv(s, actions, r);
  }

  // ------------------------------------------------- calls nobody interrupts

  /** Equal in every shared word and in the abstract deque. */
  ghost predicate SameDeque<T>(s: State<T>, r: State<T>) {
    && s.capacity == r.capacity && s.top == r.top && s.bottom == r.bottom && s.buffer == r.buffer
    && s.live == r.live && s.owner == r.owner && s.thieves == r.thieves
  }

  /** `push` from its first access to its return, with no thief moving in between. */
  function SoloPush<T(==)>(s: State<T>, item: T): (r: State<T>)
    requires Shaped(s) && s.owner.OwnerIdle?
    ensures Shaped(r)
  {
    var s1 := OwnerNext(Next(s, PushCall(item)));
    if s1.owner.OwnerIdle? then s1 else OwnerNext(OwnerNext(s1))
  }

  lemma SoloPushResult<T>(s: State<T>, item: T)
    requires Shaped(s) && s.owner.OwnerIdle?
    ensures SoloPush(s, item) ==
      if s.bottom - s.top >= s.capacity then s.(log := s.log + [PushRefused])
      else s.(bottom := s.bottom + 1, buffer := s.buffer[SlotOf(s.bottom, s.capacity) := item],
              live := s.live + [item], log := s.log + [Pushed(item)], pushed := s.pushed + multiset{item})
  {
  }

  /** `pop` from its first access to its return, with no thief moving in between. */
  function SoloPop<T(==)>(s: State<T>): (r: State<T>)
    requires Shaped(s) && s.owner.OwnerIdle?
    ensures Shaped(r)
  {
    var s1 := OwnerNext(OwnerNext(Next(s, PopCall)));
    if s1.owner.PopRacing? then OwnerNext(OwnerNext(OwnerNext(s1)))
    else if s1.owner.OwnerIdle? then s1
    else OwnerNext(s1)
  }

  lemma SoloPopMisses<T>(s: State<T>)
    requires Shaped(s) && s.owner.OwnerIdle? && s.bottom == s.top && s.live == []
    ensures SoloPop(s) == s.(log := s.log + [PopMissed])
  {
    hide SlotOf;
  }

  lemma SoloPopLast<T>(s: State<T>)
    requires Shaped(s) && s.owner.OwnerIdle? && s.bottom == s.top + 1 && |s.live| == 1
    requires s.live[0] == s.buffer[SlotOf(s.bottom - 1, s.capacity)]
    ensures SoloPop(s) ==
      s.(top := s.top + 1, live := [], log := s.log + [Popped(s.live[0])], given := s.given + multiset{s.live[0]})
  {
    hide SlotOf;
  }

  lemma SoloPopOneOfMany<T>(s: State<T>)
    requires Shaped(s) && s.owner.OwnerIdle? && s.bottom == s.top + |s.live| && |s.live| > 1
    requires s.live[|s.live| - 1] == s.buffer[SlotOf(s.bottom - 1, s.capacity)]
    ensures var item := s.live[|s.live| - 1];
      SoloPop(s) == s.(bottom := s.bottom - 1, live := s.live[..|s.live| - 1],
                       log := s.log + [Popped(item)], given := s.given + multiset{item})
  {
    hide SlotOf;
  }

  lemma SoloPopResult<T>(s: State<T>)
    requires Shaped(s) && s.owner.OwnerIdle? && s.bottom == s.top + |s.live|
    requires s.live != [] ==> s.live[|s.live| - 1] == s.buffer[SlotOf(s.bottom - 1, s.capacity)]
    ensures SoloPop(s) ==
      if s.live == [] then s.(log := s.log + [PopMissed])
      else
        var item := s.live[|s.live| - 1];
        s.(top := if |s.live| == 1 then s.top + 1 else s.top,
           bottom := if |s.live| == 1 then s.bottom else s.bottom - 1,
           live := s.live[..|s.live| - 1], log := s.log + [Popped(item)], given := s.given + multiset{item})
  {
    hide SoloPop, SlotOf;
    if s.live == [] { SoloPopMisses(s); }
    else if |s.live| == 1 { SoloPopLast(s); assert s.live[..0] == []; }
    else { SoloPopOneOfMany(s); }
  }

  /** `steal` from its first access to its return, with nobody else moving in between. */
  function SoloSteal<T(==)>(s: State<T>, thief: Tid): (r: State<T>)
    requires Shaped(s) && thief !in s.thieves
    ensures Shaped(r)
  {
    var s0 := Next(s, StealCall(thief));
    var s1 := ThiefNext(s0, thief);
    if thief !in s1.thieves then s1 else ThiefNext(ThiefNext(s1, thief), thief)
  }

  lemma SoloStealResult<T>(s: State<T>, thief: Tid)
    requires Shaped(s) && s.bottom == s.top + |s.live| && thief !in s.thieves
    requires s.live != [] ==> s.live[0] == s.buffer[SlotOf(s.top, s.capacity)]
    ensures SoloSteal(s, thief) ==
      if s.live == [] then s
      else s.(top := s.top + 1, live := s.live[1..],
              log := s.log + [Stolen(s.live[0])], given := s.given + multiset{s.live[0]})
  {
    var s0 := Next(s, StealCall(thief));
    assert s0.thieves - {thief} == s.thieves;
    if s.live != [] {
      var s2 := ThiefNext(ThiefNext(s0, thief), thief);
      assert s2.thieves - {thief} == s.thieves;
    }
  }
}
