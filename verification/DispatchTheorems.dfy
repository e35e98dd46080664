/** Every handle given to `enqueue_ready` is handed to exactly one worker: dispatch refines a bag. */
module DispatchTheorems {
  import opened Basics
  import opened ReadyQueues
  import opened DispatchModel

  // One fact out of the invariant at a time.

  lemma QueueHolds(s: Sys, q: QueueId)
    requires Inv(s)
    ensures Lists(s.entries, Queue(s, q), q)
  {
  }

  lemma PcHolds(s: Sys, t: Thread)
    requires Inv(s) && t in s.threads
    ensures PcOk(s.entries, t, s.threads[t])
  {
  }

  lemma EntryHolds(s: Sys, e: nat)
    requires Inv(s) && e < |s.entries|
    ensures EntryOk(s, e)
  {
  }

  // ------------------------------------------------------- one entry changes place

  /** Between `s` and `r` only entry `e`, queue `q` and thread `t` differ. */
  ghost predicate Moves(s: Sys, r: Sys, e: nat, place: Place, q: QueueId, t: Thread) {
    && e < |s.entries| && r.entries == s.entries[e := s.entries[e].(place := place)]
    && (forall o: QueueId | o != q :: Queue(r, o) == Queue(s, o))
    && (forall u | u != t :: (u in r.threads <==> u in s.threads) && (u in s.threads ==> r.threads[u] == s.threads[u]))
  }

  /** What has to be checked when one entry changes place: the queue, the thread, and the entry itself. */
  lemma MoveKeeps(s: Sys, r: Sys, e: nat, place: Place, q: QueueId, t: Thread)
    requires Inv(s) && Moves(s, r, e, place, q, t)
    requires s.entries[e].place == In(q) || s.entries[e].place == Carried(t) || s.entries[e].place == Arriving(t)
    requires Lists(r.entries, Queue(r, q), q)
    requires forall x | x in Queue(s, q) && x != e :: x in Queue(r, q)
    requires t in r.threads ==> PcOk(r.entries, t, r.threads[t])
    requires t in s.threads ==> forall x | x in Hands(s.threads[t]) && x != e :: t in r.threads && x in Hands(r.threads[t])
    requires t in s.threads ==>
      forall x | x in Submitting(s.threads[t]) && x != e :: t in r.threads && x in Submitting(r.threads[t])
    requires EntryOk(r, e)
    ensures Inv(r)
  {
    forall o: QueueId ensures Lists(r.entries, Queue(r, o), o) { QueueHolds(s, o); }
    forall u | u in r.threads ensures PcOk(r.entries, u, r.threads[u]) {
      if u != t { PcHolds(s, u); }
    }
    forall x | 0 <= x < |r.entries| ensures EntryOk(r, x) { EntryHolds(s, x); }
  }

  /** A step that only moves a thread on, with the same things in its hands. */
  lemma GoOnKeeps(s: Sys, r: Sys, t: Thread, pc: Pc)
    requires Inv(s) && r == SetPc(s, t, pc).(cursor := r.cursor) && PcOk(s.entries, t, pc)
    requires if t in s.threads then Hands(pc) == Hands(s.threads[t]) && Submitting(pc) == Submitting(s.threads[t])
             else Hands(pc) == [] && Submitting(pc) == []
    ensures Inv(r)
  {
    forall o: QueueId ensures Lists(r.entries, Queue(r, o), o) { QueueHolds(s, o); }
    forall u | u in r.threads ensures PcOk(r.entries, u, r.threads[u]) {
      if u != t { PcHolds(s, u); }
    }
    forall x | 0 <= x < |r.entries| ensures EntryOk(r, x) { EntryHolds(s, x); }
  }

  lemma Appended(entries: seq<Entry>, list: seq<nat>, q: QueueId, e: nat)
    requires Lists(entries, list, q) && e < |entries| && entries[e].priority == PriorityOf(q) && entries[e].place != In(q)
    ensures Lists(entries[e := entries[e].(place := In(q))], list + [e], q)
  {
    assert e !in list;
  }

  /** `enqueue_ready` publishes: the entry goes from the submitting thread to the back of a queue. */
  lemma PublishKeeps(s: Sys, r: Sys, t: Thread, q: QueueId)
    requires Inv(s) && t in s.threads && IsSubmitting(s.threads[t])
    requires PriorityOf(q) == s.threads[t].priority && r == Leave(Put(s, q, s.threads[t].entry), t)
    ensures Inv(r)
  {
    var e := s.threads[t].entry;
    PcHolds(s, t);
    QueueHolds(s, q);
    Appended(s.entries, Queue(s, q), q, e);
    MoveKeeps(s, r, e, In(q), q, t);
  }

  /** A drained extra goes to the back of a queue of its own priority. */
  lemma PlaceExtraKeeps(s: Sys, r: Sys, t: Thread, q: QueueId, pc: Pc)
    requires Inv(s) && t in s.threads && (s.threads[t].Moving? || s.threads[t].PuttingBack?)
    requires PriorityOf(q) == s.threads[t].priority && r == SetPc(Put(s, q, s.threads[t].extra), t, pc)
    requires Hands(pc) == [s.threads[t].first] && Submitting(pc) == []
    ensures Inv(r)
  {
    var e := s.threads[t].extra;
    PcHolds(s, t);
    QueueHolds(s, q);
    Appended(s.entries, Queue(s, q), q, e);
    assert Hands(s.threads[t])[0] != Hands(s.threads[t])[1];
    assert forall x | x in Hands(pc) :: x in Hands(s.threads[t]);
    MoveKeeps(s, r, e, In(q), q, t);
  }

  /** The queue without the entry at its end. */
  function Rest(list: seq<nat>, back: bool): seq<nat>
    requires list != []
  { if back then list[..|list| - 1] else list[1..] }

  lemma RestOf(list: seq<nat>, back: bool)
    requires list != [] && Distinct(list)
    ensures Distinct(Rest(list, back)) && End(list, back) in list && End(list, back) !in Rest(list, back)
    ensures forall x :: x in list <==> x == End(list, back) || x in Rest(list, back)
  {
    var rest := Rest(list, back);
    assert list == if back then rest + [End(list, back)] else [End(list, back)] + rest;
    var shift := if back then 0 else 1;
    assert forall k | 0 <= k < |rest| :: rest[k] == list[k + shift];
  }

  lemma Removed(entries: seq<Entry>, list: seq<nat>, q: QueueId, back: bool, place: Place)
    requires Lists(entries, list, q) && list != [] && place != In(q)
    ensures var e := End(list, back);
      && e < |entries| && entries[e] == Entry(PriorityOf(q), In(q))
      && Lists(entries[e := entries[e].(place := place)], Rest(list, back), q)
      && forall x | x in list && x != e :: x in Rest(list, back)
  {
    hide Distinct, Rest, End;
    RestOf(list, back);
  }

  /** A thread takes the entry at one end of a queue into its hands. */
  lemma PullKeeps(s: Sys, r: Sys, t: Thread, q: QueueId, back: bool, pc: Pc)
    requires Inv(s) && Queue(s, q) != [] && r == SetPc(Pull(s, t, q, back), t, pc).(pops := r.pops)
    requires var e := End(Queue(s, q), back);
      && Submitting(pc) == []
      && (if t in s.threads && Hands(s.threads[t]) != [] then
            && Submitting(s.threads[t]) == [] && s.threads[t].Draining?
            && pc == Moving(s.threads[t].first, s.threads[t].taken, e, PriorityOf(q))
          else (t in s.threads ==> !IsSubmitting(s.threads[t])) && Hands(pc) == [e] && !pc.Moving? && !pc.PuttingBack?)
    ensures Inv(r)
  {
    var e := End(Queue(s, q), back);
    QueueHolds(s, q);
    Removed(s.entries, Queue(s, q), q, back, Carried(t));
    if t in s.threads { PcHolds(s, t); }
    assert e in Hands(pc);
    MoveKeeps(s, r, e, Carried(t), q, t);
  }

  lemma SubmitKeeps(c: Config, s: Sys, r: Sys, t: Thread, p: nat)
    requires Inv(s) && Step(c, s, r, t, Submit(p))
    ensures Inv(r)
  {
    forall o: QueueId ensures Lists(r.entries, Queue(r, o), o) { QueueHolds(s, o); }
    forall u | u in r.threads ensures PcOk(r.entries, u, r.threads[u]) {
      if u != t { PcHolds(s, u); }
    }
    forall x | 0 <= x < |r.entries| ensures EntryOk(r, x) {
      if x < |s.entries| { EntryHolds(s, x); }
    }
  }

  lemma ReturnKeeps(c: Config, s: Sys, r: Sys, t: Thread)
    requires Inv(s) && Step(c, s, r, t, Return)
    ensures Inv(r)
  {
    var e := s.threads[t].entry;
    PcHolds(s, t);
    assert e in Hands(s.threads[t]);
    var q := Global(0);
    QueueHolds(s, q);
    MoveKeeps(s, r, e, Taken(t), q, t);
  }

  /** `acquire_next` returns without a handle. */
  lemma GivesUpKeeps(s: Sys, r: Sys, t: Thread)
    requires Inv(s) && t in s.threads && r == Leave(s, t) && (s.threads[t].Looking? || s.threads[t].Stealing?)
    ensures Inv(r)
  {
    forall o: QueueId ensures Lists(r.entries, Queue(r, o), o) { QueueHolds(s, o); }
    forall u | u in r.threads ensures PcOk(r.entries, u, r.threads[u]) { PcHolds(s, u); }
    forall x | 0 <= x < |r.entries| ensures EntryOk(r, x) { EntryHolds(s, x); }
  }

  /** The deque a thief looks at. */
  function Victim(c: Config, pc: Pc): QueueId
    requires pc.Stealing? && c.workers > 0
  { Deque((pc.start + pc.offset) % c.workers, pc.next) }

  lemma EnqueueKeeps(c: Config, s: Sys, r: Sys, t: Thread, action: Action)
    requires Inv(s) && Step(c, s, r, t, action)
    requires action.Submit? || action.PickTarget? || action.ToInbox? || action.ToDeque? || action.ToGlobal?
    ensures Inv(r)
  {
    hide Inv;
    if t in s.threads { PcHolds(s, t); }
    match action
    case Submit(p) => SubmitKeeps(c, s, r, t, p);
    case PickTarget => GoOnKeeps(s, r, t, r.threads[t]);
    case ToInbox => PublishKeeps(s, r, t, Inbox(s.threads[t].target, s.threads[t].priority));
    case ToDeque =>
      var Enqueuing(e, p) := s.threads[t];
      if |Queue(s, Deque(t, p))| < c.capacity { PublishKeeps(s, r, t, Deque(t, p)); }
      else { GoOnKeeps(s, r, t, Spilling(e, p)); }
    case ToGlobal => PublishKeeps(s, r, t, Global(s.threads[t].priority));
  }

  lemma TakeKeeps(c: Config, s: Sys, r: Sys, t: Thread, action: Action)
    requires Inv(s) && Step(c, s, r, t, action)
    requires action.PopInbox? || action.PopAging? || action.LookOwn? || action.DrainFirst? || action.DrainMore? || action.Steal?
    ensures Inv(r)
  {
    hide Inv, Settles, FavoursLowest;
    match action
    case PopInbox(p) => SettledHasOne(s, InboxOf(t), p, FavoursLowest(c, s, t)); PullKeeps(s, r, t, Inbox(t, p), false, r.threads[t]);
    case PopAging(p) => SettledHasOne(s, GlobalOf(), p, true); PullKeeps(s, r, t, Global(p), false, r.threads[t]);
    case LookOwn =>
      var q := Deque(t, Scan(s.threads[t].next, FavoursLowest(c, s, t)));
      if Queue(s, q) == [] { GoOnKeeps(s, r, t, r.threads[t]); } else { PullKeeps(s, r, t, q, true, r.threads[t]); }
    case DrainFirst(p) => SettledHasOne(s, GlobalOf(), p, FavoursLowest(c, s, t)); PullKeeps(s, r, t, Global(p), false, r.threads[t]);
    case DrainMore(p) => SettledHasOne(s, GlobalOf(), p, false); PullKeeps(s, r, t, Global(p), false, r.threads[t]);
    case Steal => PullKeeps(s, r, t, Victim(c, s.threads[t]), false, r.threads[t]);
  }

  lemma MissKeeps(c: Config, s: Sys, r: Sys, t: Thread, action: Action)
    requires Inv(s) && Step(c, s, r, t, action)
    requires action.InboxEmpty? || action.BeginLooking? || action.GlobalEmpty? || action.MissSteal?
    ensures Inv(r)
  {
    hide Inv, AllEmpty, FavoursLowest;
    if r != s {
      if t in r.threads { GoOnKeeps(s, r, t, r.threads[t]); } else { GivesUpKeeps(s, r, t); }
    }
  }

  lemma StepKeepsInv(c: Config, s: Sys, r: Sys, t: Thread, action: Action)
    requires Inv(s) && Step(c, s, r, t, action)
    ensures Inv(r)
  {
    hide Inv, Settles, AllEmpty, FavoursLowest, Scan;
    if action.Submit? || action.PickTarget? || action.ToInbox? || action.ToDeque? || action.ToGlobal? {
      EnqueueKeeps(c, s, r, t, action);
    } else if action.InboxEmpty? || action.BeginLooking? || action.GlobalEmpty? || action.MissSteal? {
      MissKeeps(c, s, r, t, action);
    } else if action.DrainStop? {
      PcHolds(s, t);
      GoOnKeeps(s, r, t, Returning(s.threads[t].first));
    } else if action.KeepExtra? {
      PcHolds(s, t);
      var Moving(first, taken, e, p) := s.threads[t];
      if |Queue(s, Deque(t, p))| < c.capacity { PlaceExtraKeeps(s, r, t, Deque(t, p), Draining(first, taken + 1)); }
      else { GoOnKeeps(s, r, t, PuttingBack(first, e, p)); }
    } else if action.PutBack? {
      PlaceExtraKeeps(s, r, t, Global(s.threads[t].priority), Returning(s.threads[t].first));
    } else if action.Return? {
      ReturnKeeps(c, s, r, t);
    } else {
      TakeKeeps(c, s, r, t, action);
    }
  }

  lemma SettledHasOne(s: Sys, of: nat -> QueueId, p: nat, lowestFirst: bool)
    requires Settles(s, of, p, lowestFirst)
    ensures Queue(s, of(p)) != []
  {
  }

  lemma {:induction false} RunKeepsInv(c: Config, run: seq<Sys>, n: nat)
    requires Run(c, run) && n < |run|
    ensures Inv(run[n])
  {
    if n > 0 {
      hide Inv, Step;
      RunKeepsInv(c, run, n - 1);
      assert Follows(c, run, n);
      var t: Thread, action: Action :| Step(c, run[n - 1], run[n], t, action);
      StepKeepsInv(c, run[n - 1], run[n], t, action);
    }
  }

  // ------------------------------------------------------------- conservation

  function InQueue(s: Sys, q: QueueId, e: nat): nat { multiset(Queue(s, q))[e] }

  function InHands(s: Sys, t: Thread, e: nat): nat { if t in s.threads then multiset(Hands(s.threads[t]))[e] else 0 }

  /**
   Every entry is at all times in exactly one queue, or in one worker's hands, or on its way in
   or out; in a queue it is among the entries of its own priority, overflow, batch drain and
   put-back included.
   */
  lemma EveryEntryInOnePlace(c: Config, run: seq<Sys>, n: nat, e: nat)
    requires Run(c, run) && n < |run| && e < |run[n].entries|
    ensures var s := run[n]; var place := s.entries[e].place;
      && (forall q: QueueId :: InQueue(s, q, e) == if place == In(q) then 1 else 0)
      && (forall t: Thread :: InHands(s, t, e) == if place == Carried(t) then 1 else 0)
      && (place.In? ==> PriorityOf(place.queue) == s.entries[e].priority)
  {
    RunKeepsInv(c, run, n);
    hide Inv;
    var s := run[n];
    EntryHolds(s, e);
    forall q: QueueId ensures InQueue(s, q, e) == if s.entries[e].place == In(q) then 1 else 0 {
      QueueHolds(s, q);
      OnceIfDistinct(Queue(s, q), e);
    }
    forall t: Thread ensures InHands(s, t, e) == if s.entries[e].place == Carried(t) then 1 else 0 {
      if t in s.threads {
        PcHolds(s, t);
        OnceIfDistinct(Hands(s.threads[t]), e);
      }
    }
    if s.entries[e].place.In? { QueueHolds(s, s.entries[e].place.queue); }
  }

  // --------------------------------------------------------- the bag it refines

  /** What the rest of the runtime sees: the entries that are ready, and those that were handed out. */
  datatype Bag = Bag(ready: multiset<nat>, out: set<nat>)

  function Abstract(s: Sys): Bag {
    Bag(multiset(set e | 0 <= e < |s.entries| && (s.entries[e].place.In? || s.entries[e].place.Carried?)),
        set e | 0 <= e < |s.entries| && s.entries[e].place.Taken?)
  }

  /** A handle is taken in for the first time. */
  predicate Insert(b: Bag, d: Bag, e: nat) {
    e !in b.ready && e !in b.out && Inserts(b.ready, d.ready, e) && d.out == b.out
  }

  /** It is given out for the only time. */
  predicate Remove(b: Bag, d: Bag, e: nat) {
    e !in b.out && e !in d.ready && Removes(b.ready, d.ready, e) && d.out == b.out + {e}
  }

  ghost predicate BagStep(b: Bag, d: Bag) {
    b == d || (exists e: nat :: Insert(b, d, e)) || (exists e: nat :: Remove(b, d, e))
  }

  /** What an entry's change of place means to the bag. */
  lemma AbstractMove(s: Sys, r: Sys, e: nat, place: Place)
    requires e < |s.entries| && r.entries == s.entries[e := s.entries[e].(place := place)]
    ensures s.entries[e].place.Arriving? && place.In? ==> Insert(Abstract(s), Abstract(r), e)
    ensures s.entries[e].place.Carried? && place.Taken? ==> Remove(Abstract(s), Abstract(r), e)
    ensures (s.entries[e].place.In? && place.Carried?) || (s.entries[e].place.Carried? && place.In?) ==>
      Abstract(r) == Abstract(s)
  {
  }

  /**
   Local push, overflow spill, batch drain, put-back, stealing and inboxes: each step either
   publishes one new entry, hands one ready entry to a worker, or changes nothing in the bag.
   */
  lemma DispatchRefinesBag(c: Config, run: seq<Sys>, n: nat, r: Sys, t: Thread, action: Action)
    requires Run(c, run) && n < |run| && Step(c, run[n], r, t, action)
    ensures BagStep(Abstract(run[n]), Abstract(r))
    ensures action.Return? ==> Remove(Abstract(run[n]), Abstract(r), run[n].threads[t].entry)
  {
    RunKeepsInv(c, run, n);
    hide Inv, BagStep, Remove, Abstract, Settles, AllEmpty;
    var s := run[n];
    if action.Submit? || action.PickTarget? || action.ToInbox? || action.ToDeque? || action.ToGlobal? {
      EnqueueRefines(c, s, r, t, action);
    } else if action.InboxEmpty? || action.BeginLooking? || action.GlobalEmpty? || action.MissSteal? {
      SameBag(s, r);
    } else if action.DrainStop? || action.KeepExtra? || action.PutBack? {
      DrainRefines(c, s, r, t, action);
    } else if action.Return? {
      ReturnRefines(c, s, r, t);
    } else {
      AcquireRefines(c, s, r, t, action);
    }
  }

  lemma EnqueueRefines(c: Config, s: Sys, r: Sys, t: Thread, action: Action)
    requires Inv(s) && Step(c, s, r, t, action)
    requires action.Submit? || action.PickTarget? || action.ToInbox? || action.ToDeque? || action.ToGlobal?
    ensures BagStep(Abstract(s), Abstract(r))
  {
    hide Inv, BagStep, Abstract;
    if t in s.threads { PcHolds(s, t); }
    match action
    case Submit(p) => SameBag(s, r);
    case PickTarget => SameBag(s, r);
    case ToInbox => Publishes(s, r, s.threads[t].entry, Inbox(s.threads[t].target, s.threads[t].priority));
    case ToDeque =>
      if |Queue(s, Deque(t, s.threads[t].priority))| < c.capacity {
        Publishes(s, r, s.threads[t].entry, Deque(t, s.threads[t].priority));
      } else { SameBag(s, r); }
    case ToGlobal => Publishes(s, r, s.threads[t].entry, Global(s.threads[t].priority));
  }

  lemma AcquireRefines(c: Config, s: Sys, r: Sys, t: Thread, action: Action)
    requires Inv(s) && Step(c, s, r, t, action)
    requires action.PopInbox? || action.PopAging? || action.LookOwn? || action.Steal?
      || action.DrainFirst? || action.DrainMore?
    ensures BagStep(Abstract(s), Abstract(r))
  {
    hide Inv, Settles, BagStep, Abstract;
    match action
    case PopInbox(p) => SettledHasOne(s, InboxOf(t), p, FavoursLowest(c, s, t)); Pulls(s, r, t, Inbox(t, p), false);
    case PopAging(p) => SettledHasOne(s, GlobalOf(), p, true); Pulls(s, r, t, Global(p), false);
    case LookOwn =>
      var q := Deque(t, Scan(s.threads[t].next, FavoursLowest(c, s, t)));
      if Queue(s, q) == [] { SameBag(s, r); } else { Pulls(s, r, t, q, true); }
    case Steal => Pulls(s, r, t, Victim(c, s.threads[t]), false);
    case DrainFirst(p) => SettledHasOne(s, GlobalOf(), p, FavoursLowest(c, s, t)); Pulls(s, r, t, Global(p), false);
    case DrainMore(p) => SettledHasOne(s, GlobalOf(), p, false); Pulls(s, r, t, Global(p), false);
  }

  lemma DrainRefines(c: Config, s: Sys, r: Sys, t: Thread, action: Action)
    requires Inv(s) && Step(c, s, r, t, action) && (action.DrainStop? || action.KeepExtra? || action.PutBack?)
    ensures BagStep(Abstract(s), Abstract(r))
  {
    hide Inv, BagStep, Abstract;
    PcHolds(s, t);
    if action.DrainStop? {
      SameBag(s, r);
    } else {
      var hands := Hands(s.threads[t]);
      var e, p := s.threads[t].extra, s.threads[t].priority;
      assert hands[1] == e;
      var q := if action.PutBack? then Global(p) else Deque(t, p);
      if action.KeepExtra? && |Queue(s, q)| >= c.capacity {
        SameBag(s, r);
      } else {
        AbstractMove(s, r, e, In(q));
        EqualBags(s, r);
      }
    }
  }

  lemma ReturnRefines(c: Config, s: Sys, r: Sys, t: Thread)
    requires Inv(s) && Step(c, s, r, t, Return)
    ensures Remove(Abstract(s), Abstract(r), s.threads[t].entry) && BagStep(Abstract(s), Abstract(r))
  {
    hide Inv, BagStep, Remove, Abstract;
    var e := s.threads[t].entry;
    PcHolds(s, t);
    assert Hands(s.threads[t])[0] == e && e in Hands(s.threads[t]);
    AbstractMove(s, r, e, Taken(t));
    RemovesOne(s, r, e);
  }

  lemma EqualBags(s: Sys, r: Sys)
    requires Abstract(r) == Abstract(s)
    ensures BagStep(Abstract(s), Abstract(r))
  {
  }

  lemma RemovesOne(s: Sys, r: Sys, e: nat)
    requires Remove(Abstract(s), Abstract(r), e)
    ensures BagStep(Abstract(s), Abstract(r))
  {
  }

  /** An entry not yet published is not in the bag, and one that does not move changes nothing. */
  lemma SameBag(s: Sys, r: Sys)
    requires r.entries == s.entries || exists p: nat, t: Thread :: r.entries == s.entries + [Entry(p, Arriving(t))]
    ensures BagStep(Abstract(s), Abstract(r))
  {
    assert Abstract(r) == Abstract(s);
  }

  lemma Publishes(s: Sys, r: Sys, e: nat, q: QueueId)
    requires e < |s.entries| && s.entries[e].place.Arriving? && r.entries == s.entries[e := s.entries[e].(place := In(q))]
    ensures BagStep(Abstract(s), Abstract(r))
  {
    AbstractMove(s, r, e, In(q));
  }

  lemma Pulls(s: Sys, r: Sys, t: Thread, q: QueueId, back: bool)
    requires Inv(s) && Queue(s, q) != [] && r.entries == Pull(s, t, q, back).entries
    ensures BagStep(Abstract(s), Abstract(r))
  {
    hide Inv;
    QueueHolds(s, q);
    var e := End(Queue(s, q), back);
    assert e in Queue(s, q);
    AbstractMove(s, r, e, Carried(t));
  }

  /** Once handed out, an entry stays with the one worker that got it: nothing is handed out twice. */
  lemma {:induction false} HandedOutOnce(c: Config, run: seq<Sys>, n: nat, m: nat, e: nat)
    requires Run(c, run) && n <= m < |run| && e < |run[n].entries| && run[n].entries[e].place.Taken?
    ensures e < |run[m].entries| && run[m].entries[e] == run[n].entries[e]
  {
    hide Inv, Step;
    if n < m {
      HandedOutOnce(c, run, n, m - 1, e);
      RunKeepsInv(c, run, m - 1);
      assert Follows(c, run, m);
      var t: Thread, action: Action :| Step(c, run[m - 1], run[m], t, action);
      TakenStays(c, run[m - 1], run[m], t, action, e);
    }
  }

  lemma TakenStays(c: Config, s: Sys, r: Sys, t: Thread, action: Action, e: nat)
    requires Inv(s) && Step(c, s, r, t, action) && e < |s.entries| && s.entries[e].place.Taken?
    ensures e < |r.entries| && r.entries[e] == s.entries[e]
  {
    hide Inv, Settles, AllEmpty, FavoursLowest, Scan;
    if t in s.threads {
      PcHolds(s, t);
      forall x | x in Hands(s.threads[t]) ensures x != e {
      }
    }
    if action.LookOwn? || action.Steal? || action.PopInbox? || action.PopAging? || action.DrainFirst? || action.DrainMore? {
      TakingSpares(c, s, r, t, action, e);
    } else if action.KeepExtra? || action.PutBack? {
      assert Hands(s.threads[t])[1] == s.threads[t].extra;
    } else if action.Return? {
      assert Hands(s.threads[t])[0] == s.threads[t].entry;
    }
  }

  lemma TakingSpares(c: Config, s: Sys, r: Sys, t: Thread, action: Action, e: nat)
    requires Inv(s) && Step(c, s, r, t, action) && e < |s.entries| && s.entries[e].place.Taken?
    requires action.PopInbox? || action.PopAging? || action.LookOwn? || action.DrainFirst? || action.DrainMore? || action.Steal?
    ensures e < |r.entries| && r.entries[e] == s.entries[e]
  {
    hide Inv, Settles, FavoursLowest;
    match action
    case PopInbox(p) => SettledHasOne(s, InboxOf(t), p, FavoursLowest(c, s, t)); FrontIsThere(s, Inbox(t, p), false);
    case PopAging(p) => SettledHasOne(s, GlobalOf(), p, true); FrontIsThere(s, Global(p), false);
    case LookOwn =>
      var q := Deque(t, Scan(s.threads[t].next, FavoursLowest(c, s, t)));
      if Queue(s, q) != [] { FrontIsThere(s, q, true); }
    case Steal => FrontIsThere(s, Victim(c, s.threads[t]), false);
    case DrainFirst(p) => SettledHasOne(s, GlobalOf(), p, FavoursLowest(c, s, t)); FrontIsThere(s, Global(p), false);
    case DrainMore(p) => SettledHasOne(s, GlobalOf(), p, false); FrontIsThere(s, Global(p), false);
  }

  lemma FrontIsThere(s: Sys, q: QueueId, back: bool)
    requires Inv(s) && Queue(s, q) != []
    ensures var e := End(Queue(s, q), back); e < |s.entries| && s.entries[e].place == In(q)
  {
    QueueHolds(s, q);
    assert End(Queue(s, q), back) in Queue(s, q);
  }
}
