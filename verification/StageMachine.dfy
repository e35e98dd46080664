/**
 One fused stage of a frame, executed by any number of claiming tasks in any interleaving. One
 step is one `fetch_add` on the stage's cursor or one record written by one of the chain's
 kernels; in between, every other task may run.
 */
module StageMachine {
  import opened FrameModel

  function BatchCountFor(count: nat): nat { (count + BATCH_SIZE - 1) / BATCH_SIZE }

  function BatchOf(i: nat): nat { i / BATCH_SIZE }

  function BatchEnd(b: nat, count: nat): nat {
    if b * BATCH_SIZE + BATCH_SIZE < count then b * BATCH_SIZE + BATCH_SIZE else count
  }

  /** `body` is the stages of the chain on one record, `stages` how many there are. */
  datatype Work<!E> = Work(body: (nat, nat, E) -> E, stages: nat, count: nat)

  datatype Claimant = Claiming | InBatch(batch: nat, stage: nat, i: nat) | Finished

  /** History: who has which batch. No step chooses its branch by it. */
  datatype BatchState = Unclaimed | With(claimant: nat) | Complete

  datatype Sys<E> = Sys(out: seq<E>, cursor: nat, claimants: seq<Claimant>, batches: seq<BatchState>)

  ghost predicate Step<E>(w: Work<E>, s: Sys<E>, r: Sys<E>, c: nat) {
    && c < |s.claimants|
    && match s.claimants[c]
       case Claiming =>
         var b := s.cursor;
         if b >= BatchCountFor(w.count) then
           r == s.(cursor := b + 1, claimants := s.claimants[c := Finished])
         else
           && b < |s.batches|
           && r == s.(cursor := b + 1, claimants := s.claimants[c := InBatch(b, 0, b * BATCH_SIZE)],
                      batches := s.batches[b := With(c)])
       case InBatch(b, stage, i) =>
         if stage >= w.stages then
           && b < |s.batches|
           && r == s.(claimants := s.claimants[c := Claiming], batches := s.batches[b := Complete])
         else if i >= BatchEnd(b, w.count) then
           r == s.(claimants := s.claimants[c := InBatch(b, stage + 1, b * BATCH_SIZE)])
         else
           && i < |s.out|
           && r == s.(claimants := s.claimants[c := InBatch(b, stage, i + 1)],
                      out := s.out[i := w.body(stage, i, s.out[i])])
       case Finished => false
  }

  ghost predicate Next<E>(w: Work<E>, s: Sys<E>, r: Sys<E>) { exists c: nat :: Step(w, s, r, c) }

  /** The tasks are submitted: at most one a worker, none if there is nothing to do. */
  function Claimants(count: nat, workers: nat): nat {
    var cap := if workers == 0 then 1 else workers;
    if BatchCountFor(count) < cap then BatchCountFor(count) else cap
  }

  ghost predicate Init<E>(w: Work<E>, workers: nat, before: seq<E>, s: Sys<E>) {
    && |before| == w.count
    && s == Sys(before, 0, seq(Claimants(w.count, workers), i => Claiming), seq(BatchCountFor(w.count), i => Unclaimed))
  }

  /** Every claiming task has returned, so the stage's barrier is complete. */
  predicate AllFinished<E>(s: Sys<E>) { forall c | 0 <= c < |s.claimants| :: s.claimants[c].Finished? }

  // --------------------------------------------------------------- invariant

  /** How many stages of the chain entity `i` has behind it when its claimant is at `(stage, at)`. */
  function StagesDone(stage: nat, at: nat, i: nat): nat { if i < at then stage + 1 else stage }

  /** What entity `i` of a batch in state `b` must look like. */
  ghost predicate EntityOk<E>(w: Work<E>, before: seq<E>, s: Sys<E>, i: nat)
    requires |before| == w.count == |s.out| && |s.batches| == BatchCountFor(w.count) && i < w.count
  {
    BatchOf(i) < |s.batches|
    && match s.batches[BatchOf(i)]
       case Unclaimed => s.out[i] == before[i]
       case With(c) =>
         && c < |s.claimants| && s.claimants[c].InBatch?
         && s.out[i] == Chain(w.body, StagesDone(s.claimants[c].stage, s.claimants[c].i, i), i, before[i])
       case Complete => s.out[i] == Chain(w.body, w.stages, i, before[i])
  }

  ghost predicate ClaimantOk<E>(w: Work<E>, s: Sys<E>, c: nat)
    requires c < |s.claimants|
  {
    match s.claimants[c]
    case Claiming => true
    case InBatch(b, stage, i) =>
      && b < |s.batches| && s.batches[b] == With(c) && b < s.cursor
      && b * BATCH_SIZE <= i <= BatchEnd(b, w.count) && stage <= w.stages
      && (stage == w.stages ==> i == b * BATCH_SIZE)
    case Finished => s.cursor >= |s.batches|
  }

  predicate BatchOk<E>(s: Sys<E>, b: nat)
    requires b < |s.batches|
  {
    && (s.batches[b].Unclaimed? <==> b >= s.cursor)
    && (s.batches[b].With? ==>
          var c := s.batches[b].claimant;
          c < |s.claimants| && s.claimants[c].InBatch? && s.claimants[c].batch == b)
  }

  ghost predicate Inv<E>(w: Work<E>, before: seq<E>, s: Sys<E>) {
    && |before| == w.count == |s.out| && |s.batches| == BatchCountFor(w.count)
    && (forall c | 0 <= c < |s.claimants| :: ClaimantOk(w, s, c))
    && (forall b | 0 <= b < |s.batches| :: BatchOk(s, b))
    && (forall i | 0 <= i < w.count :: EntityOk(w, before, s, i))
  }

  /** The batches divide the entities among them. */
  lemma BatchBounds(i: nat, b: nat, count: nat)
    ensures b * BATCH_SIZE <= i < BatchEnd(b, count) <==> BatchOf(i) == b && i < count
    ensures i < count ==> BatchOf(i) < BatchCountFor(count)
    ensures b < BatchCountFor(count) ==> b * BATCH_SIZE < BatchEnd(b, count) <= count
  {
  }

  lemma InitInv<E>(w: Work<E>, workers: nat, before: seq<E>, s: Sys<E>)
    requires Init(w, workers, before, s)
    ensures Inv(w, before, s) && CursorOk(s)
  {
    forall i | 0 <= i < w.count ensures EntityOk(w, before, s, i) { BatchBounds(i, 0, w.count); }
  }

  lemma ClaimKeeps<E>(w: Work<E>, before: seq<E>, s: Sys<E>, r: Sys<E>, c: nat)
    requires Inv(w, before, s) && Step(w, s, r, c) && s.claimants[c].Claiming?
    ensures Inv(w, before, r)
  {
    var b := s.cursor;
    if b < BatchCountFor(w.count) {
      BatchBounds(0, b, w.count);
      assert BatchOk(s, b);
    }
    forall d | 0 <= d < |r.claimants| ensures ClaimantOk(w, r, d) { assert ClaimantOk(w, s, d); }
    forall x | 0 <= x < |r.batches| ensures BatchOk(r, x) { assert BatchOk(s, x); }
    forall i | 0 <= i < w.count ensures EntityOk(w, before, r, i) {
      assert EntityOk(w, before, s, i);
      assert BatchOk(s, BatchOf(i));
      BatchBounds(i, b, w.count);
    }
  }

  /** A record is written: only this task can be at this entity, and only this entity changes. */
  lemma WriteKeeps<E>(w: Work<E>, before: seq<E>, s: Sys<E>, r: Sys<E>, c: nat)
    requires Inv(w, before, s) && Step(w, s, r, c) && s.claimants[c].InBatch?
    requires s.claimants[c].stage < w.stages && s.claimants[c].i < BatchEnd(s.claimants[c].batch, w.count)
    ensures Inv(w, before, r)
  {
    var InBatch(b, stage, at) := s.claimants[c];
    assert ClaimantOk(w, s, c);
    BatchBounds(at, b, w.count);
    forall d | 0 <= d < |r.claimants| ensures ClaimantOk(w, r, d) { assert ClaimantOk(w, s, d); }
    forall x | 0 <= x < |r.batches| ensures BatchOk(r, x) { assert BatchOk(s, x); }
    forall i | 0 <= i < w.count ensures EntityOk(w, before, r, i) {
      assert EntityOk(w, before, s, i);
      assert BatchOk(s, BatchOf(i));
    }
  }

  lemma AdvanceKeeps<E>(w: Work<E>, before: seq<E>, s: Sys<E>, r: Sys<E>, c: nat)
    requires Inv(w, before, s) && Step(w, s, r, c) && s.claimants[c].InBatch?
    requires s.claimants[c].stage < w.stages && s.claimants[c].i >= BatchEnd(s.claimants[c].batch, w.count)
    ensures Inv(w, before, r)
  {
    var InBatch(b, stage, at) := s.claimants[c];
    assert ClaimantOk(w, s, c);
    BatchBounds(0, b, w.count);
    forall d | 0 <= d < |r.claimants| ensures ClaimantOk(w, r, d) { assert ClaimantOk(w, s, d); }
    forall x | 0 <= x < |r.batches| ensures BatchOk(r, x) { assert BatchOk(s, x); }
    forall i | 0 <= i < w.count ensures EntityOk(w, before, r, i) {
      assert EntityOk(w, before, s, i);
      assert BatchOk(s, BatchOf(i));
      BatchBounds(i, b, w.count);
    }
  }

  lemma CompleteKeeps<E>(w: Work<E>, before: seq<E>, s: Sys<E>, r: Sys<E>, c: nat)
    requires Inv(w, before, s) && Step(w, s, r, c) && s.claimants[c].InBatch? && s.claimants[c].stage >= w.stages
    ensures Inv(w, before, r)
  {
    var InBatch(b, stage, at) := s.claimants[c];
    assert ClaimantOk(w, s, c);
    forall d | 0 <= d < |r.claimants| ensures ClaimantOk(w, r, d) { assert ClaimantOk(w, s, d); }
    forall x | 0 <= x < |r.batches| ensures BatchOk(r, x) { assert BatchOk(s, x); }
    forall i | 0 <= i < w.count ensures EntityOk(w, before, r, i) {
      assert EntityOk(w, before, s, i);
      assert BatchOk(s, BatchOf(i));
      BatchBounds(i, b, w.count);
    }
  }

  lemma StepKeepsInv<E>(w: Work<E>, before: seq<E>, s: Sys<E>, r: Sys<E>, c: nat)
    requires Inv(w, before, s) && Step(w, s, r, c)
    ensures Inv(w, before, r)
  {
    hide Inv;
    if s.claimants[c].Claiming? { ClaimKeeps(w, before, s, r, c); }
    else if s.claimants[c].stage >= w.stages { CompleteKeeps(w, before, s, r, c); }
    else if s.claimants[c].i >= BatchEnd(s.claimants[c].batch, w.count) { AdvanceKeeps(w, before, s, r, c); }
    else { WriteKeeps(w, before, s, r, c); }
  }

  // ------------------------------------------------------------- main results

  /** When the claiming tasks have returned, the whole chain has been applied to every entity, once. */
  lemma ChainOnEveryEntity<E>(w: Work<E>, before: seq<E>, s: Sys<E>, i: nat)
    requires Inv(w, before, s) && AllFinished(s) && (w.count > 0 ==> |s.claimants| > 0) && i < w.count
    ensures s.out[i] == Chain(w.body, w.stages, i, before[i])
  {
    assert EntityOk(w, before, s, i) && BatchOk(s, BatchOf(i));
    assert ClaimantOk(w, s, 0);
  }

  /** A task between claiming a batch and finishing it is at a record of that batch. */
  predicate AtWork<E>(w: Work<E>, p: Claimant) { p.InBatch? && p.i < BatchEnd(p.batch, w.count) }

  ghost predicate NoneShared<E>(w: Work<E>, s: Sys<E>) {
    forall c, d | 0 <= c < d < |s.claimants| && AtWork(w, s.claimants[c]) && AtWork(w, s.claimants[d]) ::
      s.claimants[c].i != s.claimants[d].i
  }

  /** No two tasks are at work on the same entity. */
  lemma NoEntityShared<E>(w: Work<E>, before: seq<E>, s: Sys<E>)
    requires Inv(w, before, s)
    ensures NoneShared(w, s)
  {
    forall c, d | 0 <= c < d < |s.claimants| && AtWork(w, s.claimants[c]) && AtWork(w, s.claimants[d])
      ensures s.claimants[c].i != s.claimants[d].i
    {
      assert ClaimantOk(w, s, c) && ClaimantOk(w, s, d);
      BatchBounds(s.claimants[c].i, s.claimants[c].batch, w.count);
      BatchBounds(s.claimants[d].i, s.claimants[d].batch, w.count);
    }
  }

  // -------------------------------------------------------------- termination

  /** The accesses a claimant has left in its batch, one more for claiming again. */
  function Left<E>(w: Work<E>, p: Claimant): nat {
    match p
    case Claiming => 0
    case InBatch(b, stage, i) =>
      if stage >= w.stages then 1
      else (w.stages - stage) * (BATCH_SIZE + 1) + (if i < b * BATCH_SIZE + BATCH_SIZE then b * BATCH_SIZE + BATCH_SIZE - i else 0) + 1
    case Finished => 0
  }

  function SumLeft<E>(w: Work<E>, claimants: seq<Claimant>): nat {
    if claimants == [] then 0
    else SumLeft(w, claimants[..|claimants| - 1]) + Left(w, claimants[|claimants| - 1])
  }

  lemma {:induction false} SumLeftNone<E>(w: Work<E>, claimants: seq<Claimant>)
    requires forall c | 0 <= c < |claimants| :: claimants[c].Claiming?
    ensures SumLeft(w, claimants) == 0
  {
    if claimants != [] { SumLeftNone(w, claimants[..|claimants| - 1]); }
  }

  lemma {:induction false} SumLeftOne<E>(w: Work<E>, claimants: seq<Claimant>, c: nat, p: Claimant)
    requires c < |claimants|
    ensures SumLeft(w, claimants[c := p]) == SumLeft(w, claimants) - Left(w, claimants[c]) + Left(w, p)
  {
    var n := |claimants| - 1;
    assert claimants[c := p][..n] == if c < n then claimants[..n][c := p] else claimants[..n];
    if c < n { SumLeftOne(w, claimants[..n], c, p); }
  }

  function CountFinished(claimants: seq<Claimant>): (n: nat)
    ensures n <= |claimants|
  {
    if claimants == [] then 0
    else CountFinished(claimants[..|claimants| - 1]) + if claimants[|claimants| - 1].Finished? then 1 else 0
  }

  lemma {:induction false} FinishedOne(claimants: seq<Claimant>, c: nat, p: Claimant)
    requires c < |claimants|
    ensures CountFinished(claimants[c := p]) ==
      CountFinished(claimants) - (if claimants[c].Finished? then 1 else 0) + if p.Finished? then 1 else 0
    ensures !claimants[c].Finished? ==> CountFinished(claimants) < |claimants|
  {
    var n := |claimants| - 1;
    assert claimants[c := p][..n] == if c < n then claimants[..n][c := p] else claimants[..n];
    if c < n { FinishedOne(claimants[..n], c, p); }
  }

  /** The cursor passes the last batch once for each task that has ended, never more. */
  ghost predicate CursorOk<E>(s: Sys<E>) {
    s.cursor <= |s.batches| + CountFinished(s.claimants)
  }

  lemma CursorStaysBounded<E>(w: Work<E>, s: Sys<E>, r: Sys<E>, c: nat)
    requires CursorOk(s) && |s.batches| == BatchCountFor(w.count) && Step(w, s, r, c)
    ensures CursorOk(r) && r.cursor <= |r.batches| + |r.claimants| && |r.batches| == |s.batches|
  {
    FinishedOne(s.claimants, c, r.claimants[c]);
  }

  /** What a claim can add to the accesses left in batches, and one for the claim itself. */
  function PerClaim<E>(w: Work<E>): nat { w.stages * (BATCH_SIZE + 1) + BATCH_SIZE + 2 }

  function Budget<E>(w: Work<E>, claims: nat): nat { if claims == 0 then 0 else Budget(w, claims - 1) + PerClaim(w) }

  /** How many accesses the tasks of the stage have left, at most: for the claims still to be made, and in their batches. */
  function AccessesLeft<E>(w: Work<E>, s: Sys<E>): nat {
    var claims := BatchCountFor(w.count) + |s.claimants| - s.cursor;
    (if claims >= 0 then Budget(w, claims) else 0) + SumLeft(w, s.claimants)
  }

  /** Every access brings the end of the stage nearer. */
  lemma StageComesNearer<E>(w: Work<E>, before: seq<E>, s: Sys<E>, r: Sys<E>, c: nat)
    requires Inv(w, before, s) && CursorOk(s) && Step(w, s, r, c)
    ensures AccessesLeft(w, r) < AccessesLeft(w, s)
  {
    CursorStaysBounded(w, s, r, c);
    SumLeftOne(w, s.claimants, c, r.claimants[c]);
    if s.claimants[c].InBatch? {
      assert ClaimantOk(w, s, c);
      LeftGoesDown(w, s, r, c);
    }
  }

  lemma LeftGoesDown<E>(w: Work<E>, s: Sys<E>, r: Sys<E>, c: nat)
    requires Step(w, s, r, c) && s.claimants[c].InBatch? && ClaimantOk(w, s, c)
    ensures Left(w, r.claimants[c]) < Left(w, s.claimants[c])
  {
  }

  /** And every task that has not returned has a next access. */
  lemma StageGoesOn<E>(w: Work<E>, before: seq<E>, s: Sys<E>, c: nat) returns (r: Sys<E>)
    requires Inv(w, before, s) && c < |s.claimants| && !s.claimants[c].Finished?
    ensures Step(w, s, r, c)
  {
    assert ClaimantOk(w, s, c);
    match s.claimants[c]
    case Claiming =>
      var b := s.cursor;
      r := if b >= BatchCountFor(w.count) then s.(cursor := b + 1, claimants := s.claimants[c := Finished])
           else s.(cursor := b + 1, claimants := s.claimants[c := InBatch(b, 0, b * BATCH_SIZE)],
                   batches := s.batches[b := With(c)]);
    case InBatch(b, stage, i) =>
      r := if stage >= w.stages then s.(claimants := s.claimants[c := Claiming], batches := s.batches[b := Complete])
           else if i >= BatchEnd(b, w.count) then s.(claimants := s.claimants[c := InBatch(b, stage + 1, b * BATCH_SIZE)])
           else s.(claimants := s.claimants[c := InBatch(b, stage, i + 1)],
                   out := s.out[i := w.body(stage, i, s.out[i])]);
  }
}
