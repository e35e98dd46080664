/** Which handle `acquire_next` gives a worker: the order it looks in, priorities, aging turns, and that it ends. */
module DispatchOrder {
  import opened ReadyQueues
  import opened DispatchModel
  import opened DispatchTheorems
  import PowersOfTwo

  // ------------------------------------------------------- what a look has established

  /** The first `n` of the worker's own deques, in the order of its scan, are empty. */
  ghost predicate LookedAt(c: Config, s: Sys, w: Worker, n: nat) {
    n <= PRIORITY_COUNT && forall k: nat | k < n :: Queue(s, Deque(w, Scan(k, FavoursLowest(c, s, w)))) == []
  }

  ghost predicate LookOk(c: Config, s: Sys, t: Thread)
    requires t in s.threads
  {
    match s.threads[t]
    case Looking(n) => t < c.workers && !c.mode.Static? && LookedAt(c, s, t, n)
    case Stealing(start, offset, next) =>
      t < c.workers && LookedAt(c, s, t, PRIORITY_COUNT) && offset <= c.workers && next <= PRIORITY_COUNT
    case Draining(_, taken) => taken <= GLOBAL_DRAIN_BATCH
    case Moving(_, taken, _, _) => taken < GLOBAL_DRAIN_BATCH
    case Spilling(_, _) => !c.mode.Static?
    case _ => true
  }

  ghost predicate LooksOk(c: Config, s: Sys) {
    forall t {:trigger LookOk(c, s, t)} | t in s.threads :: LookOk(c, s, t)
  }

  /** Nobody else fills a worker's deques, counts its pops or moves it. */
  lemma OthersLeaveAlone(c: Config, s: Sys, r: Sys, b: Thread, action: Action, t: Thread, p: nat)
    requires Step(c, s, r, b, action) && b != t
    ensures Queue(s, Deque(t, p)) == [] ==> Queue(r, Deque(t, p)) == []
    ensures PopIndex(r, t) == PopIndex(s, t)
    ensures (t in r.threads <==> t in s.threads) && (t in s.threads ==> r.threads[t] == s.threads[t])
  {
    OthersFillNothing(c, s, r, b, action, t, p);
    PopsAreCounted(c, s, r, b, action, t);
    hide AllEmpty, FavoursLowest, Scan, Queue, PopIndex, Note;
  }

  lemma OthersFillNothing(c: Config, s: Sys, r: Sys, b: Thread, action: Action, t: Thread, p: nat)
    requires Step(c, s, r, b, action) && b != t
    ensures Queue(s, Deque(t, p)) == [] ==> Queue(r, Deque(t, p)) == []
  {
    hide AllEmpty, FavoursLowest, Scan, Note;
  }

  lemma OtherLooks(c: Config, s: Sys, r: Sys, b: Thread, action: Action, t: Thread)
    requires Step(c, s, r, b, action) && b != t && t in s.threads && LookOk(c, s, t)
    ensures t in r.threads && LookOk(c, r, t)
  {
    hide Step, Scan;
    OthersLeaveAlone(c, s, r, b, action, t, 0);
    assert forall n: nat | LookedAt(c, s, t, n) :: LookedAt(c, r, t, n) by {
      forall n: nat, k: nat | LookedAt(c, s, t, n) && k < n
        ensures Queue(r, Deque(t, Scan(k, FavoursLowest(c, r, t)))) == []
      {
        OthersLeaveAlone(c, s, r, b, action, t, Scan(k, FavoursLowest(c, s, t)));
      }
    }
  }

  lemma OwnLooks(c: Config, s: Sys, r: Sys, t: Thread, action: Action)
    requires Step(c, s, r, t, action) && (t in s.threads ==> LookOk(c, s, t)) && t in r.threads
    ensures LookOk(c, r, t)
  {
    hide Settles, AllEmpty, Pull, Put, Scan, LookedAt;
    if t in s.threads && (s.threads[t].Looking? || s.threads[t].Stealing?) && (r.threads[t].Looking? || r.threads[t].Stealing?) {
      OneMoreLook(c, s, r, t, if s.threads[t].Looking? then s.threads[t].next else PRIORITY_COUNT);
    } else if r.threads[t].Looking? {
      NothingLookedAt(c, r, t);
    }
  }

  lemma NothingLookedAt(c: Config, s: Sys, w: Worker)
    ensures LookedAt(c, s, w, 0)
  {
  }

  lemma OneMoreLook(c: Config, s: Sys, r: Sys, t: Thread, n: nat)
    requires r.queues == s.queues && r.pops == s.pops && LookedAt(c, s, t, n)
    ensures LookedAt(c, r, t, n)
    ensures n < PRIORITY_COUNT && Queue(s, Deque(t, Scan(n, FavoursLowest(c, s, t)))) == [] ==> LookedAt(c, r, t, n + 1)
  {
    hide Scan;
    var lowest := FavoursLowest(c, s, t);
    assert FavoursLowest(c, r, t) == lowest;
    forall k: nat | k < n ensures Queue(r, Deque(t, Scan(k, lowest))) == [] {
      assert Queue(s, Deque(t, Scan(k, lowest))) == [];
    }
  }

  lemma {:induction false} RunKeepsLooks(c: Config, run: seq<Sys>, n: nat)
    requires Run(c, run) && n < |run|
    ensures LooksOk(c, run[n])
  {
    hide Step, LookOk;
    if n > 0 {
      RunKeepsLooks(c, run, n - 1);
      assert Follows(c, run, n);
      var b: Thread, action: Action :| Step(c, run[n - 1], run[n], b, action);
      forall t | t in run[n].threads ensures LookOk(c, run[n], t) {
        if t in run[n - 1].threads { assert LookOk(c, run[n - 1], t); }
        if t == b { OwnLooks(c, run[n - 1], run[n], t, action); } else { OtherWasThere(c, run[n - 1], run[n], b, action, t); }
      }
    }
  }

  lemma OtherWasThere(c: Config, s: Sys, r: Sys, b: Thread, action: Action, t: Thread)
    requires Step(c, s, r, b, action) && b != t && t in r.threads && (t in s.threads ==> LookOk(c, s, t))
    ensures LookOk(c, r, t)
  {
    hide Step, LookOk;
    OthersLeaveAlone(c, s, r, b, action, t, 0);
    OtherLooks(c, s, r, b, action, t);
  }

  // ------------------------------------------------------------------ first come

  /** A queue lists its entries in the order in which they were put into it. */
  ghost predicate InOrder(s: Sys, list: seq<nat>) {
    && (forall k | 0 <= k < |list| :: list[k] in s.stamps && s.stamps[list[k]] < s.clock)
    && (forall k, m | 0 <= k < m < |list| :: s.stamps[list[k]] < s.stamps[list[m]])
  }

  ghost predicate AllInOrder(s: Sys) { forall q: QueueId :: InOrder(s, Queue(s, q)) }

  lemma PutInOrder(s: Sys, r: Sys, q: QueueId, e: nat)
    requires AllInOrder(s) && r.queues == Put(s, q, e).queues && r.stamps == Put(s, q, e).stamps && r.clock == s.clock + 1
    requires forall o: QueueId :: e !in Queue(s, o)
    ensures AllInOrder(r)
  {
    forall o: QueueId ensures InOrder(r, Queue(r, o)) {
      assert InOrder(s, Queue(s, o));
      assert Queue(r, o) == if o == q then Queue(s, o) + [e] else Queue(s, o);
    }
  }

  lemma PullInOrder(s: Sys, r: Sys, t: Thread, q: QueueId, back: bool)
    requires AllInOrder(s) && Queue(s, q) != [] && r.stamps == s.stamps && r.clock == s.clock
    requires r.queues == Pull(s, t, q, back).queues
    ensures AllInOrder(r)
  {
    forall o: QueueId ensures InOrder(r, Queue(r, o)) {
      assert InOrder(s, Queue(s, o));
      if o == q { assert Queue(r, q) == Rest(Queue(s, q), back); }
    }
  }

  lemma NotQueued(s: Sys, e: nat)
    requires Inv(s) && e < |s.entries| && !s.entries[e].place.In?
    ensures forall o: QueueId :: e !in Queue(s, o)
  {
    hide Inv;
    forall o: QueueId ensures e !in Queue(s, o) { QueueHolds(s, o); }
  }

  lemma PuttingKeepsOrder(c: Config, s: Sys, r: Sys, t: Thread, action: Action)
    requires Inv(s) && AllInOrder(s) && Step(c, s, r, t, action)
    requires action.ToInbox? || action.ToDeque? || action.ToGlobal? || action.KeepExtra? || action.PutBack?
    ensures AllInOrder(r)
  {
    hide Inv, AllInOrder, Queue;
    PcHolds(s, t);
    if r.clock == s.clock {
      SameOrder(s, r);
    } else {
      var e := if IsSubmitting(s.threads[t]) then s.threads[t].entry else s.threads[t].extra;
      if action.KeepExtra? || action.PutBack? { assert Hands(s.threads[t])[1] == e; }
      NotQueued(s, e);
      PutInOrder(s, r, r.entries[e].place.queue, e);
    }
  }

  lemma TakingKeepsOrder(c: Config, s: Sys, r: Sys, t: Thread, action: Action)
    requires Inv(s) && AllInOrder(s) && Step(c, s, r, t, action)
    requires action.PopInbox? || action.PopAging? || action.LookOwn? || action.DrainFirst? || action.DrainMore? || action.Steal?
    ensures AllInOrder(r)
  {
    hide Inv, Settles, FavoursLowest, Scan, AllInOrder, Queue, Note;
    match action
    case PopInbox(p) => SettledHasOne(s, InboxOf(t), p, FavoursLowest(c, s, t)); PullInOrder(s, r, t, Inbox(t, p), false);
    case PopAging(p) => SettledHasOne(s, GlobalOf(), p, true); PullInOrder(s, r, t, Global(p), false);
    case LookOwn =>
      var q := Deque(t, Scan(s.threads[t].next, FavoursLowest(c, s, t)));
      if Queue(s, q) != [] { PullInOrder(s, r, t, q, true); } else { SameOrder(s, r); }
    case Steal => PullInOrder(s, r, t, Victim(c, s.threads[t]), false);
    case DrainFirst(p) => SettledHasOne(s, GlobalOf(), p, FavoursLowest(c, s, t)); PullInOrder(s, r, t, Global(p), false);
    case DrainMore(p) => SettledHasOne(s, GlobalOf(), p, false); PullInOrder(s, r, t, Global(p), false);
  }

  lemma StepKeepsOrder(c: Config, s: Sys, r: Sys, t: Thread, action: Action)
    requires Inv(s) && AllInOrder(s) && Step(c, s, r, t, action)
    ensures AllInOrder(r)
  {
    hide Inv, Settles, AllEmpty, FavoursLowest, Scan, AllInOrder, Put, Pull, Queue;
    if action.ToInbox? || action.ToDeque? || action.ToGlobal? || action.KeepExtra? || action.PutBack? {
      PuttingKeepsOrder(c, s, r, t, action);
    } else if action.PopInbox? || action.PopAging? || action.LookOwn? || action.DrainFirst? || action.DrainMore? || action.Steal? {
      TakingKeepsOrder(c, s, r, t, action);
    } else {
      SameOrder(s, r);
    }
  }

  lemma SameOrder(s: Sys, r: Sys)
    requires AllInOrder(s) && r.queues == s.queues && r.stamps == s.stamps && r.clock == s.clock
    ensures AllInOrder(r)
  {
    forall o: QueueId ensures InOrder(r, Queue(r, o)) { assert InOrder(s, Queue(s, o)); }
  }

  lemma {:induction false} RunKeepsOrder(c: Config, run: seq<Sys>, n: nat)
    requires Run(c, run) && n < |run|
    ensures AllInOrder(run[n])
  {
    if n > 0 {
      hide Inv, Step, AllInOrder;
      RunKeepsOrder(c, run, n - 1);
      RunKeepsInv(c, run, n - 1);
      assert Follows(c, run, n);
      var t: Thread, action: Action :| Step(c, run[n - 1], run[n], t, action);
      StepKeepsOrder(c, run[n - 1], run[n], t, action);
    }
  }

  // ------------------------------------------------------------- what is handed out

  /** `e` is queued in one of the queues `of`, and no entry queued there goes before it. */
  ghost predicate First(s: Sys, e: nat, of: nat -> QueueId, lowestFirst: bool) {
    && e < |s.entries| && InOneOf(s, e, of)
    && forall x | 0 <= x < |s.entries| && InOneOf(s, x, of) ::
         if lowestFirst then s.entries[x].priority <= s.entries[e].priority else s.entries[e].priority <= s.entries[x].priority
  }

  predicate InOneOf(s: Sys, e: nat, of: nat -> QueueId)
    requires e < |s.entries|
  {
    s.entries[e].place.In? && s.entries[e].place.queue == of(s.entries[e].priority)
  }

  ghost predicate NoneIn(s: Sys, of: nat -> QueueId) { forall x | 0 <= x < |s.entries| :: !InOneOf(s, x, of) }

  function DequeOf(w: Worker): nat -> QueueId { (p: nat) => Deque(w, p) }

  /** Five queues, one for each priority. */
  ghost predicate ByPriority(of: nat -> QueueId) { forall p: nat :: of(p).priority == p }

  lemma PrioritiesInRange(c: Config, run: seq<Sys>, n: nat, e: nat)
    requires Run(c, run) && n < |run| && e < |run[n].entries|
    ensures run[n].entries[e].priority < PRIORITY_COUNT
    decreases n
  {
    hide Step;
    if n > 0 {
      assert Follows(c, run, n);
      var t: Thread, action: Action :| Step(c, run[n - 1], run[n], t, action);
      PrioritiesStay(c, run[n - 1], run[n], t, action, e);
      if e < |run[n - 1].entries| { PrioritiesInRange(c, run, n - 1, e); }
    }
  }

  lemma PrioritiesStay(c: Config, s: Sys, r: Sys, t: Thread, action: Action, e: nat)
    requires Step(c, s, r, t, action) && e < |r.entries|
    ensures if e < |s.entries| then r.entries[e].priority == s.entries[e].priority else r.entries[e].priority < PRIORITY_COUNT
  {
    hide Settles, AllEmpty, FavoursLowest, Scan;
    if action.PopInbox? || action.PopAging? || action.LookOwn? || action.DrainFirst? || action.DrainMore? || action.Steal? {
      TakingKeepsPriorities(c, s, r, t, action, e);
    }
  }

  lemma TakingKeepsPriorities(c: Config, s: Sys, r: Sys, t: Thread, action: Action, e: nat)
    requires Step(c, s, r, t, action) && e < |r.entries|
    requires action.PopInbox? || action.PopAging? || action.LookOwn? || action.DrainFirst? || action.DrainMore? || action.Steal?
    ensures |r.entries| == |s.entries| && r.entries[e].priority == s.entries[e].priority
  {
    hide AllEmpty, FavoursLowest, Scan;
  }

  /** What the first non-empty queue of a scan holds at its end goes before everything in the other queues. */
  lemma FirstOfScan(s: Sys, of: nat -> QueueId, p: nat, lowestFirst: bool, back: bool)
    requires Inv(s) && ByPriority(of) && Queue(s, of(p)) != []
    requires forall e | 0 <= e < |s.entries| :: s.entries[e].priority < PRIORITY_COUNT
    requires forall o: nat | o < PRIORITY_COUNT && (if lowestFirst then o > p else o < p) :: Queue(s, of(o)) == []
    ensures First(s, End(Queue(s, of(p)), back), of, lowestFirst)
  {
    hide Inv;
    var e := End(Queue(s, of(p)), back);
    FrontIsThere(s, of(p), back);
    QueueHolds(s, of(p));
    assert e in Queue(s, of(p));
    forall x | 0 <= x < |s.entries| && InOneOf(s, x, of)
      ensures if lowestFirst then s.entries[x].priority <= p else p <= s.entries[x].priority
    {
      EntryHolds(s, x);
      assert x in Queue(s, of(s.entries[x].priority));
    }
  }

  /** The handle a worker gets: nothing goes before it by priority, and in its own queue it is the newest, or the oldest. */
  ghost predicate Gets(s: Sys, e: nat, of: nat -> QueueId, lowestFirst: bool, newest: bool) {
    && First(s, e, of, lowestFirst)
    && e in s.stamps
    && forall x | 0 <= x < |s.entries| && s.entries[x].place == s.entries[e].place ::
         x in s.stamps && if newest then s.stamps[x] <= s.stamps[e] else s.stamps[e] <= s.stamps[x]
  }

  lemma EndIsNewest(s: Sys, q: QueueId, back: bool)
    requires Inv(s) && AllInOrder(s) && Queue(s, q) != []
    ensures var e := End(Queue(s, q), back);
      && e in s.stamps && e < |s.entries| && s.entries[e].place == In(q)
      && forall x | 0 <= x < |s.entries| && s.entries[x].place == In(q) ::
           x in s.stamps && if back then s.stamps[x] <= s.stamps[e] else s.stamps[e] <= s.stamps[x]
  {
    hide Inv;
    var list := Queue(s, q);
    var e := End(list, back);
    assert InOrder(s, list);
    FrontIsThere(s, q, back);
    forall x | 0 <= x < |s.entries| && s.entries[x].place == In(q)
      ensures x in s.stamps && if back then s.stamps[x] <= s.stamps[e] else s.stamps[e] <= s.stamps[x]
    {
      EntryHolds(s, x);
      var k :| 0 <= k < |list| && list[k] == x;
    }
  }

  /**
   `pop_local` gives a worker the newest handle of the most urgent priority in its own deques, or
   of the least urgent on an aging turn, although it looks at one deque at a time while thieves
   are at work.
   */
  lemma OwnPopIsFirst(c: Config, run: seq<Sys>, n: nat, r: Sys, t: Thread)
    requires Run(c, run) && n < |run| && Step(c, run[n], r, t, LookOwn) && t in r.threads && r.threads[t].Returning?
    ensures Gets(run[n], r.threads[t].entry, DequeOf(t), FavoursLowest(c, run[n], t), true)
  {
    hide Run, Inv;
    RunKeepsInv(c, run, n);
    RunKeepsLooks(c, run, n);
    var s := run[n];
    assert LookOk(c, s, t);
    var lowest, k := FavoursLowest(c, s, t), s.threads[t].next;
    forall o: nat | o < PRIORITY_COUNT && (if lowest then o > Scan(k, lowest) else o < Scan(k, lowest))
      ensures Queue(s, DequeOf(t)(o)) == []
    {
      assert Scan(if lowest then PRIORITY_COUNT - 1 - o else o, lowest) == o;
    }
    InRange(c, run, n);
    FirstOfScan(s, DequeOf(t), Scan(k, lowest), lowest, true);
    RunKeepsOrder(c, run, n);
    EndIsNewest(s, Deque(t, Scan(k, lowest)), true);
  }

  lemma InRange(c: Config, run: seq<Sys>, n: nat)
    requires Run(c, run) && n < |run|
    ensures forall e | 0 <= e < |run[n].entries| :: run[n].entries[e].priority < PRIORITY_COUNT
  {
    forall e | 0 <= e < |run[n].entries| ensures run[n].entries[e].priority < PRIORITY_COUNT { PrioritiesInRange(c, run, n, e); }
  }

  lemma SettledIsFirst(c: Config, run: seq<Sys>, n: nat, of: nat -> QueueId, p: nat, lowestFirst: bool)
    requires Run(c, run) && n < |run| && ByPriority(of) && Settles(run[n], of, p, lowestFirst)
    ensures Queue(run[n], of(p)) != [] && Gets(run[n], Queue(run[n], of(p))[0], of, lowestFirst, false)
  {
    hide Run, Inv;
    RunKeepsInv(c, run, n);
    InRange(c, run, n);
    FirstOfScan(run[n], of, p, lowestFirst, false);
    RunKeepsOrder(c, run, n);
    EndIsNewest(run[n], of(p), false);
  }

  /**
   From the global queue: on an aging turn first of all the oldest of the least urgent; otherwise,
   and as the first of a drain, the oldest of the most urgent, or again of the least urgent on an
   aging turn; and as an extra of a drain always the oldest of the most urgent.
   */
  lemma GlobalPopIsFirst(c: Config, run: seq<Sys>, n: nat, r: Sys, t: Thread, action: Action)
    requires Run(c, run) && n < |run| && Step(c, run[n], r, t, action) && t in r.threads
    ensures action.PopAging? ==>
      FavoursLowest(c, run[n], t) && r.threads[t].Returning? && Gets(run[n], r.threads[t].entry, GlobalOf(), true, false)
    ensures action.DrainFirst? ==>
      r.threads[t].Draining? && Gets(run[n], r.threads[t].first, GlobalOf(), FavoursLowest(c, run[n], t), false)
    ensures action.DrainMore? ==> r.threads[t].Moving? && Gets(run[n], r.threads[t].extra, GlobalOf(), false, false)
  {
    hide Run, Inv, Gets, Pull, Settles, FavoursLowest;
    match action
    case PopAging(p) => SettledIsFirst(c, run, n, GlobalOf(), p, true);
    case DrainFirst(p) => SettledIsFirst(c, run, n, GlobalOf(), p, FavoursLowest(c, run[n], t));
    case DrainMore(p) => SettledIsFirst(c, run, n, GlobalOf(), p, false);
    case _ =>
  }

  /** In the static mode a worker gets the oldest of the most urgent handles in its own inbox. */
  lemma InboxPopIsFirst(c: Config, run: seq<Sys>, n: nat, r: Sys, t: Thread, p: nat)
    requires Run(c, run) && n < |run| && Step(c, run[n], r, t, PopInbox(p))
    ensures t in r.threads && r.threads[t].Returning? && Gets(run[n], r.threads[t].entry, InboxOf(t), false, false)
  {
    hide Run, Inv, Gets, Pull, Settles;
    SettledIsFirst(c, run, n, InboxOf(t), p, false);
  }

  /** A thief takes the oldest handle in the deque it looks at. */
  lemma StolenIsOldest(c: Config, run: seq<Sys>, n: nat, r: Sys, t: Thread)
    requires Run(c, run) && n < |run| && Step(c, run[n], r, t, Steal)
    ensures t in r.threads && r.threads[t].Returning?
    ensures var s := run[n]; var e := r.threads[t].entry;
      && e in s.stamps && e < |s.entries| && s.entries[e].place == In(Victim(c, s.threads[t]))
      && forall x | 0 <= x < |s.entries| && s.entries[x].place == s.entries[e].place :: x in s.stamps && s.stamps[e] <= s.stamps[x]
  {
    hide Run, Inv;
    RunKeepsInv(c, run, n);
    RunKeepsOrder(c, run, n);
    EndIsNewest(run[n], Victim(c, run[n].threads[t]), false);
  }

  // ------------------------------------------------------------------- its order

  lemma EmptyHasNone(s: Sys, of: nat -> QueueId)
    requires Inv(s) && AllEmpty(s, of) && forall e | 0 <= e < |s.entries| :: s.entries[e].priority < PRIORITY_COUNT
    ensures NoneIn(s, of)
  {
    hide Inv;
    forall x | 0 <= x < |s.entries| ensures !InOneOf(s, x, of) { EntryHolds(s, x); }
  }

  lemma OwnAreEmpty(c: Config, s: Sys, t: Thread)
    requires LookedAt(c, s, t, PRIORITY_COUNT)
    ensures AllEmpty(s, DequeOf(t))
  {
    var lowest := FavoursLowest(c, s, t);
    forall o: nat | o < PRIORITY_COUNT ensures Queue(s, DequeOf(t)(o)) == [] {
      assert Scan(if lowest then PRIORITY_COUNT - 1 - o else o, lowest) == o;
    }
  }

  /**
   Local, then global, then stealing: a worker takes from the global queue outside the first
   look of an aging turn, from another worker, or gives up, only while nothing is in its own
   deques; it goes on to steal, or on an aging turn to its own deques, only if nothing was in the
   global queue; and in the static mode it comes back without a handle only if its inbox was empty.
   */
  lemma AcquiresInOrder(c: Config, run: seq<Sys>, n: nat, r: Sys, t: Thread, action: Action)
    requires Run(c, run) && n < |run| && Step(c, run[n], r, t, action)
    ensures action.DrainFirst? || action.GlobalEmpty? || action.Steal? || action.MissSteal? ==> NoneIn(run[n], DequeOf(t))
    ensures action.GlobalEmpty? || (action.BeginLooking? && FavoursLowest(c, run[n], t)) ==> NoneIn(run[n], GlobalOf())
    ensures action.InboxEmpty? ==> NoneIn(run[n], InboxOf(t))
  {
    hide Run, Inv, NoneIn, AllEmpty, Settles, Pull, FavoursLowest, LookedAt;
    var s := run[n];
    RunKeepsInv(c, run, n);
    InRange(c, run, n);
    RunKeepsLooks(c, run, n);
    if action.DrainFirst? || action.GlobalEmpty? || action.Steal? || action.MissSteal? {
      assert LookOk(c, s, t);
      OwnAreEmpty(c, s, t);
      EmptyHasNone(s, DequeOf(t));
    }
    if action.GlobalEmpty? || (action.BeginLooking? && FavoursLowest(c, s, t)) { EmptyHasNone(s, GlobalOf()); }
    if action.InboxEmpty? { EmptyHasNone(s, InboxOf(t)); }
  }

  /** An aging turn is every eighth pop of a worker in the aging mode, and there is none in the other modes. */
  lemma AgingTurns(c: Config, s: Sys, t: Thread)
    ensures FavoursLowest(c, s, t) <==> c.mode.PriorityAging? && exists k: nat :: PopIndex(s, t) + 1 == AGING_INTERVAL * k
  {
    var i := PopIndex(s, t);
    if i % AGING_INTERVAL == AGING_INTERVAL - 1 { assert i + 1 == AGING_INTERVAL * (i / AGING_INTERVAL + 1); }
    if k: nat :| i + 1 == AGING_INTERVAL * k { assert i == AGING_INTERVAL * (k - 1) + (AGING_INTERVAL - 1); }
  }

  /** A worker's pops are counted where it takes from its inbox, its own deques or the global queue: not extras, not thefts. */
  lemma PopsAreCounted(c: Config, s: Sys, r: Sys, t: Thread, action: Action, w: Worker)
    requires Step(c, s, r, t, action)
    ensures PopIndex(r, w) == PopIndex(s, w)
      + if w == t && (action.PopInbox? || action.PopAging? || action.DrainFirst?
                      || (action.LookOwn? && t in r.threads && r.threads[t].Returning?)) then 1 else 0
  {
    hide AllEmpty, FavoursLowest, Scan, Note, Queue;
  }

  // ------------------------------------------------------------------- it ends

  /** How many steps a call of `enqueue_ready` or `acquire_next` has left, at most. */
  function StepsLeft(c: Config, pc: Pc): int {
    match pc
    case Enqueuing(_, _) => 2
    case Targeting(_, _, _) => 1
    case Spilling(_, _) => 1
    case Looking(n) => 7 * c.workers + 80 - n
    case Stealing(_, offset, p) => 7 * (c.workers - offset) + 7 - p
    case Draining(_, taken) => 2 * (GLOBAL_DRAIN_BATCH - taken) + 2
    case Moving(_, taken, _, _) => 2 * (GLOBAL_DRAIN_BATCH - taken) + 1
    case PuttingBack(_, _, _) => 2
    case Returning(_) => 1
  }

  lemma StepNearer(c: Config, s: Sys, r: Sys, t: Thread, action: Action)
    requires t in s.threads && LookOk(c, s, t) && Step(c, s, r, t, action) && (t in r.threads ==> LookOk(c, r, t))
    ensures StepsLeft(c, s.threads[t]) > 0
    ensures t in r.threads ==> 0 < StepsLeft(c, r.threads[t]) < StepsLeft(c, s.threads[t])
  {
    hide Settles, AllEmpty, FavoursLowest, Pull, Put, Queue, Scan, Note, CountPop;
    BoundedLook(c, s, t);
    if t in r.threads { BoundedLook(c, r, t); }
    hide LookOk, LookedAt;
  }

  lemma BoundedLook(c: Config, s: Sys, t: Thread)
    requires t in s.threads && LookOk(c, s, t)
    ensures match s.threads[t]
      case Looking(n) => n <= PRIORITY_COUNT
      case Stealing(start, offset, next) => offset <= c.workers && next <= PRIORITY_COUNT
      case Draining(_, taken) => taken <= GLOBAL_DRAIN_BATCH
      case Moving(_, taken, _, _) => taken < GLOBAL_DRAIN_BATCH
      case _ => true
  {
  }

  /** Every step of a call brings its end nearer. */
  lemma CallEnds(c: Config, run: seq<Sys>, n: nat, r: Sys, t: Thread, action: Action)
    requires Run(c, run) && n < |run| && t in run[n].threads && Step(c, run[n], r, t, action)
    ensures StepsLeft(c, run[n].threads[t]) > 0
    ensures t in r.threads ==> 0 < StepsLeft(c, r.threads[t]) < StepsLeft(c, run[n].threads[t])
  {
    hide Run, Step, LookOk, StepsLeft;
    RunKeepsLooks(c, run, n);
    assert LookOk(c, run[n], t);
    if t in r.threads { OwnLooks(c, run[n], r, t, action); }
    StepNearer(c, run[n], r, t, action);
  }

  /** A locked scan settles on a queue, or finds all of them empty. */
  lemma ScanSettles(s: Sys, of: nat -> QueueId, lowestFirst: bool, n: nat) returns (p: nat)
    requires n <= PRIORITY_COUNT
    requires forall k: nat | k < n :: Queue(s, of(Scan(k, lowestFirst))) == []
    ensures AllEmpty(s, of) || Settles(s, of, p, lowestFirst)
    decreases PRIORITY_COUNT - n
  {
    p := 0;
    if n == PRIORITY_COUNT {
      forall o: nat | o < PRIORITY_COUNT ensures Queue(s, of(o)) == [] {
        assert Scan(if lowestFirst then PRIORITY_COUNT - 1 - o else o, lowestFirst) == o;
      }
    } else if Queue(s, of(Scan(n, lowestFirst))) == [] {
      p := ScanSettles(s, of, lowestFirst, n + 1);
    } else {
      p := Scan(n, lowestFirst);
      forall o: nat | o < PRIORITY_COUNT && (if lowestFirst then o > p else o < p) ensures Queue(s, of(o)) == [] {
        assert Scan(if lowestFirst then PRIORITY_COUNT - 1 - o else o, lowestFirst) == o;
      }
    }
  }

  lemma EnqueueGoesOn(c: Config, s: Sys, t: Thread) returns (r: Sys, action: Action)
    requires t in s.threads && IsSubmitting(s.threads[t]) && (s.threads[t].Spilling? ==> !c.mode.Static?) && c.workers > 0
    ensures Step(c, s, r, t, action) && !action.Steal?
  {
    hide Settles, AllEmpty, FavoursLowest, Scan, Put, Pull;
    match s.threads[t]
    case Enqueuing(e, p) =>
      if c.mode.Static? {
        r, action := SetPc(s, t, Targeting(e, p, s.cursor % c.workers)).(cursor := s.cursor + 1), PickTarget;
      } else if t < c.workers {
        action := ToDeque;
        r := if |Queue(s, Deque(t, p))| < c.capacity then Leave(Put(s, Deque(t, p), e), t) else SetPc(s, t, Spilling(e, p));
      } else {
        r, action := Leave(Put(s, Global(p), e), t), ToGlobal;
      }
    case Targeting(e, p, target) => r, action := Leave(Put(s, Inbox(target, p), e), t), ToInbox;
    case Spilling(e, p) => r, action := Leave(Put(s, Global(p), e), t), ToGlobal;
  }

  lemma LookingGoesOn(c: Config, s: Sys, t: Thread) returns (r: Sys, action: Action)
    requires t in s.threads && s.threads[t].Looking? && s.threads[t].next <= PRIORITY_COUNT && c.workers > 0
    ensures Step(c, s, r, t, action)
  {
    hide Settles, AllEmpty, FavoursLowest, Scan;
    var k, lowest := s.threads[t].next, FavoursLowest(c, s, t);
    if k < PRIORITY_COUNT {
      var q := Deque(t, Scan(k, lowest));
      action := LookOwn;
      r := if Queue(s, q) == [] then SetPc(s, t, Looking(k + 1))
           else SetPc(CountPop(Pull(s, t, q, true), t), t, Returning(End(Queue(s, q), true)));
    } else {
      var p := ScanSettles(s, GlobalOf(), lowest, 0);
      if AllEmpty(s, GlobalOf()) {
        action := GlobalEmpty(0);
        r := if c.workers <= 1 then Leave(s, t) else SetPc(s, t, Stealing(0, 0, 0));
      } else {
        SettledHasOne(s, GlobalOf(), p, lowest);
        action := DrainFirst(p);
        r := SetPc(CountPop(Pull(s, t, Global(p), false), t), t, Draining(Queue(s, Global(p))[0], 1));
      }
    }
  }

  lemma DrainingGoesOn(c: Config, s: Sys, t: Thread) returns (r: Sys, action: Action)
    requires t in s.threads && s.threads[t].Draining?
    ensures Step(c, s, r, t, action)
  {
    hide Settles, AllEmpty, FavoursLowest, Scan;
    var Draining(first, taken) := s.threads[t];
    var p := ScanSettles(s, GlobalOf(), false, 0);
    if taken >= GLOBAL_DRAIN_BATCH || AllEmpty(s, GlobalOf()) {
      r, action := SetPc(s, t, Returning(first)), DrainStop;
    } else {
      SettledHasOne(s, GlobalOf(), p, false);
      action := DrainMore(p);
      r := SetPc(Pull(s, t, Global(p), false), t, Moving(first, taken, Queue(s, Global(p))[0], p));
    }
  }

  /** A thief looks at a deque of somebody else that is not empty. */
  predicate CanSteal(c: Config, s: Sys, t: Thread) {
    && t in s.threads && s.threads[t].Stealing? && c.workers > 0
    && s.threads[t].offset < c.workers && s.threads[t].next < PRIORITY_COUNT
    && Victim(c, s.threads[t]).worker != t && Queue(s, Victim(c, s.threads[t])) != []
  }

  lemma StealingGoesOn(c: Config, s: Sys, t: Thread) returns (r: Sys, action: Action)
    requires t in s.threads && s.threads[t].Stealing? && c.workers > 0
    ensures Step(c, s, r, t, action) && action == if CanSteal(c, s, t) then Steal else MissSteal
  {
    var Stealing(start, offset, p) := s.threads[t];
    if CanSteal(c, s, t) {
      var q := Victim(c, s.threads[t]);
      r, action := SetPc(Pull(s, t, q, false), t, Returning(Queue(s, q)[0])), Steal;
    } else {
      action := MissSteal;
      r := if offset >= c.workers then Leave(s, t)
           else if (start + offset) % c.workers == t || p >= PRIORITY_COUNT then SetPc(s, t, Stealing(start, offset + 1, 0))
           else SetPc(s, t, Stealing(start, offset, p + 1));
    }
  }

  /** A thread in a call always has a step it can take; a thief that finds something can take it. */
  lemma CallGoesOn(c: Config, run: seq<Sys>, n: nat, t: Thread) returns (r: Sys, action: Action)
    requires Run(c, run) && n < |run| && t in run[n].threads && c.workers > 0
    ensures Step(c, run[n], r, t, action) && (CanSteal(c, run[n], t) ==> action.Steal?)
  {
    RunKeepsLooks(c, run, n);
    var s := run[n];
    assert LookOk(c, s, t) && (s.threads[t].Looking? ==> s.threads[t].next <= PRIORITY_COUNT);
    hide Run, LookedAt, Settles, AllEmpty, FavoursLowest, Scan, Put, Pull, Queue, Victim, Note, CountPop;
    match s.threads[t]
    case Enqueuing(_, _) => r, action := EnqueueGoesOn(c, s, t);
    case Targeting(_, _, _) => r, action := EnqueueGoesOn(c, s, t);
    case Spilling(_, _) => r, action := EnqueueGoesOn(c, s, t);
    case Looking(_) => r, action := LookingGoesOn(c, s, t);
    case Stealing(_, _, _) => r, action := StealingGoesOn(c, s, t);
    case Draining(_, _) => r, action := DrainingGoesOn(c, s, t);
    case Moving(first, taken, e, p) =>
      action := KeepExtra;
      r := if |Queue(s, Deque(t, p))| < c.capacity then SetPc(Put(s, Deque(t, p), e), t, Draining(first, taken + 1))
           else SetPc(s, t, PuttingBack(first, e, p));
    case PuttingBack(first, e, p) => r, action := SetPc(Put(s, Global(p), e), t, Returning(first)), PutBack;
    case Returning(e) => r, action := Leave(Note(s, e, Taken(t)), t), Return;
  }

  /** And a worker that is in no call can begin `acquire_next`, with whatever that finds first. */
  lemma WorkerCanAcquire(c: Config, s: Sys, t: Thread) returns (r: Sys, action: Action)
    requires t < c.workers && t !in s.threads
    ensures Step(c, s, r, t, action) && (action.PopInbox? || action.InboxEmpty? || action.PopAging? || action.BeginLooking?)
  {
    hide Settles, AllEmpty;
    var lowest := FavoursLowest(c, s, t);
    if c.mode.Static? {
      var p := ScanSettles(s, InboxOf(t), lowest, 0);
      if AllEmpty(s, InboxOf(t)) {
        r, action := s, InboxEmpty;
      } else {
        SettledHasOne(s, InboxOf(t), p, lowest);
        r, action := SetPc(CountPop(Pull(s, t, Inbox(t, p), false), t), t, Returning(Queue(s, Inbox(t, p))[0])), PopInbox(p);
      }
    } else {
      var p := ScanSettles(s, GlobalOf(), true, 0);
      if lowest && !AllEmpty(s, GlobalOf()) {
        SettledHasOne(s, GlobalOf(), p, true);
        r, action := SetPc(CountPop(Pull(s, t, Global(p), false), t), t, Returning(Queue(s, Global(p))[0])), PopAging(p);
      } else {
        r, action := SetPc(s, t, Looking(0)), BeginLooking;
      }
    }
  }

  // ------------------------------------------------------------ the static mode

  /** The static mode deals in turn: the cursor counts the submissions, and no worker is picked twice in a round. */
  lemma NoWorkerTwiceARound(c: Config, s: Sys, r: Sys, t: Thread, s2: Sys, r2: Sys, t2: Thread)
    requires Step(c, s, r, t, PickTarget) && Step(c, s2, r2, t2, PickTarget) && s.cursor < s2.cursor < s.cursor + c.workers
    ensures t in r.threads && r.threads[t].Targeting? && r.threads[t].target < c.workers
    ensures t2 in r2.threads && r2.threads[t2].Targeting? && r2.threads[t2].target != r.threads[t].target
  {
    SameRemainder(s.cursor, s2.cursor, c.workers);
  }

  lemma SameRemainder(i: nat, j: nat, n: nat)
    requires i < j < i + n
    ensures i % n != j % n
  {
    QuotientAndRemainder(i, n);
    QuotientAndRemainder(j, n);
    var p, q := i / n, j / n;
    if p < q { PowersOfTwo.Multiples(n, p, q); } else if q < p { PowersOfTwo.Multiples(n, q, p); }
  }

  lemma QuotientAndRemainder(i: nat, n: nat)
    requires n > 0
    ensures i == n * (i / n) + i % n
  {
  }

  lemma CursorCounts(c: Config, s: Sys, r: Sys, t: Thread, action: Action)
    requires Step(c, s, r, t, action)
    ensures r.cursor == s.cursor + if action.PickTarget? then 1 else 0
  {
    hide AllEmpty, FavoursLowest, Scan, Note, Queue;
  }

  // -------------------------------------------------------------------- capacity

  ghost predicate DequesFit(c: Config, s: Sys) { forall w: Worker, p: nat :: |Queue(s, Deque(w, p))| <= c.capacity }

  lemma StepKeepsFit(c: Config, s: Sys, r: Sys, t: Thread, action: Action)
    requires DequesFit(c, s) && Step(c, s, r, t, action)
    ensures DequesFit(c, r)
  {
    forall w: Worker, p: nat ensures |Queue(r, Deque(w, p))| <= c.capacity { DequeGrows(c, s, r, t, action, w, p); }
  }

  lemma DequeGrows(c: Config, s: Sys, r: Sys, t: Thread, action: Action, w: Worker, p: nat)
    requires Step(c, s, r, t, action) && |Queue(s, Deque(w, p))| <= c.capacity
    ensures |Queue(r, Deque(w, p))| <= c.capacity
  {
    hide AllEmpty, FavoursLowest, Scan, Note;
  }

  lemma {:induction false} RunKeepsFit(c: Config, run: seq<Sys>, n: nat)
    requires Run(c, run) && n < |run|
    ensures DequesFit(c, run[n])
  {
    if n > 0 {
      hide Step, DequesFit;
      RunKeepsFit(c, run, n - 1);
      assert Follows(c, run, n);
      var t: Thread, action: Action :| Step(c, run[n - 1], run[n], t, action);
      StepKeepsFit(c, run[n - 1], run[n], t, action);
    }
  }

  /** No deque ever holds more than its capacity, and a worker spills to the global queue only what its full deque would not take. */
  lemma SpillsOnlyWhenFull(c: Config, run: seq<Sys>, n: nat, r: Sys, t: Thread, action: Action)
    requires Run(c, run) && n < |run| && Step(c, run[n], r, t, action) && t in r.threads
    requires r.threads[t].Spilling? || r.threads[t].PuttingBack?
    ensures DequesFit(c, run[n]) && |Queue(run[n], Deque(t, r.threads[t].priority))| == c.capacity
  {
    hide Run, AllEmpty, FavoursLowest, Scan, Settles;
    RunKeepsFit(c, run, n);
  }
}
