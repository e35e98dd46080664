/**
 `parallel_for`: at most `worker_count` tasks claim chunks of a range from one shared cursor,
 in the machine's own 64-bit arithmetic. Which task claims which chunk is up to the schedule;
 what is claimed is not, and exactly when the arithmetic does not wrap it is the range.
 */
module ParallelFor {
  import opened Basics
  import TaskGraphs
  import GraphModel

  const WORD := 0x1_0000_0000_0000_0000

  /** A call with a non-empty range, after a grain of zero has been replaced by one. */
  datatype Job = Job(begin: nat, end: nat, grain: nat)

  predicate ValidJob(job: Job) { job.begin < job.end < WORD && 0 < job.grain < WORD }

  /** An empty range is nothing to do; a grain of zero becomes one. */
  function Prepare(begin: nat, end: nat, grain: nat): (job: Option<Job>)
    requires end < WORD && grain < WORD
    ensures job.None? <==> begin >= end
    ensures job.Some? ==> ValidJob(job.value) && job.value.begin == begin && job.value.end == end
    ensures job.Some? ==> job.value.grain == if grain == 0 then 1 else grain
  {
    if begin >= end then None else Some(Job(begin, end, if grain == 0 then 1 else grain))
  }

  function Wrap(n: nat): (w: nat)
    ensures w < WORD
    ensures n < WORD ==> w == n
    ensures WORD <= n < 2 * WORD ==> w == n - WORD
  { n % WORD }

  /** Unsigned division. */
  function Quotient(n: nat, d: nat): nat
    requires d > 0
  { n / d }

  /** `batch_count`, as it is computed. */
  function BatchCount(job: Job): nat
    requires ValidJob(job)
  { Quotient(Wrap(job.end - job.begin + job.grain - 1), job.grain) }

  function WorkerCap(workers: nat): nat { if workers == 0 then 1 else workers }

  function TaskCount(job: Job, workers: nat): nat
    requires ValidJob(job)
  { if BatchCount(job) < WorkerCap(workers) then BatchCount(job) else WorkerCap(workers) }

  /** One claiming task a worker, but no more than there are chunks; with no workers configured, one. */
  lemma TasksAreCapped(job: Job, workers: nat)
    requires ValidJob(job)
    ensures TaskCount(job, workers) <= BatchCount(job)
    ensures workers > 0 ==> TaskCount(job, workers) <= workers
    ensures 0 < workers <= BatchCount(job) ==> TaskCount(job, workers) == workers
    ensures BatchCount(job) <= workers ==> TaskCount(job, workers) == BatchCount(job)
    ensures workers == 0 && BatchCount(job) > 0 ==> TaskCount(job, workers) == 1
  {
    hide BatchCount;
  }

  datatype Claimant = Claiming | InBody | Finished

  datatype Call = Call(lo: nat, hi: nat)

  /** `claims` counts the `fetch_add`s and `calls` lists the body calls so far; neither steers anything. */
  datatype Sys = Sys(cursor: nat, claimants: seq<Claimant>, claims: nat, calls: seq<Call>)

  function CallAt(job: Job, lo: nat): Call {
    Call(lo, if Wrap(lo + job.grain) < job.end then Wrap(lo + job.grain) else job.end)
  }

  ghost predicate Init(job: Job, workers: nat, s: Sys)
    requires ValidJob(job)
  {
    s == Sys(job.begin, seq(TaskCount(job, workers), i => Claiming), 0, [])
  }

  ghost predicate Step(job: Job, s: Sys, r: Sys, c: nat) {
    && c < |s.claimants|
    && match s.claimants[c]
       case Claiming =>
         var lo := s.cursor;
         var next := s.(cursor := Wrap(s.cursor + job.grain), claims := s.claims + 1);
         if lo >= job.end then r == next.(claimants := s.claimants[c := Finished])
         else r == next.(claimants := s.claimants[c := InBody], calls := s.calls + [CallAt(job, lo)])
       case InBody => r == s.(claimants := s.claimants[c := Claiming])
       case Finished => false
  }

  ghost predicate Next(job: Job, s: Sys, r: Sys) { exists c: nat :: Step(job, s, r, c) }

  ghost predicate Follows(job: Job, run: seq<Sys>, i: nat)
    requires 0 < i < |run|
  {
    Next(job, run[i - 1], run[i])
  }

  ghost predicate Run(job: Job, workers: nat, run: seq<Sys>)
    requires ValidJob(job)
  {
    && run != [] && Init(job, workers, run[0])
    && forall i | 0 < i < |run| :: Follows(job, run, i)
  }

  /** Every claiming task has returned, so the `wait`s return and so does `parallel_for`. */
  predicate Complete(s: Sys) { forall c | 0 <= c < |s.claimants| :: s.claimants[c].Finished? }

  // ----------------------------------------------------------- what it is for

  function Hits(calls: seq<Call>, x: nat): nat {
    if calls == [] then 0
    else Hits(calls[..|calls| - 1], x) + if calls[|calls| - 1].lo <= x < calls[|calls| - 1].hi then 1 else 0
  }

  /** Every call is a non-empty part of the range of at most `grain` elements, and every element is in exactly one. */
  ghost predicate Tiles(job: Job, calls: seq<Call>) {
    && (forall k | 0 <= k < |calls| ::
          job.begin <= calls[k].lo < calls[k].hi <= job.end && calls[k].hi - calls[k].lo <= job.grain)
    && (forall x: nat | job.begin <= x < job.end :: Hits(calls, x) == 1)
  }

  /** The number of chunks, rounded up. */
  function Batches(job: Job): nat
    requires ValidJob(job)
  { (job.end - job.begin + job.grain - 1) / job.grain }

  /** What a caller can check beforehand: neither the rounding up nor any cursor value that is read wraps. */
  predicate Fits(job: Job, workers: nat)
    requires ValidJob(job)
  {
    var b := Batches(job);
    var t := if b < WorkerCap(workers) then b else WorkerCap(workers);
    && job.end - job.begin + job.grain - 1 < WORD
    && job.begin + (b + t - 1) * job.grain < WORD
  }

  // ------------------------------------------------------- the claim sequence

  /** The `k`-th value of a cursor that never wraps. */
  function Mark(job: Job, k: nat): nat { if k == 0 then job.begin else Mark(job, k - 1) + job.grain }

  lemma {:induction false} MarkIs(job: Job, k: nat)
    ensures Mark(job, k) == job.begin + k * job.grain
  {
    if k > 0 {
      MarkIs(job, k - 1);
      assert k * job.grain == (k - 1) * job.grain + job.grain;
    }
  }

  lemma {:induction false} MarkGrows(job: Job, j: nat, k: nat)
    requires j <= k
    ensures Mark(job, j) <= Mark(job, k)
    ensures j < k ==> Mark(job, j) + job.grain <= Mark(job, k)
  {
    if j < k { MarkGrows(job, j, k - 1); }
  }

  /** The chunk count is where the marks reach the end of the range. */
  lemma BatchesReachEnd(job: Job)
    requires ValidJob(job)
    ensures Batches(job) > 0 && Mark(job, Batches(job) - 1) < job.end <= Mark(job, Batches(job))
  {
    var n, b, g := job.end - job.begin, Batches(job), job.grain;
    MarkIs(job, b);
    MarkIs(job, b - 1);
    assert b * g <= n + g - 1 < (b + 1) * g;
    assert (b + 1) * g == b * g + g && (b - 1) * g == b * g - g;
  }

  /** The calls that the first `n` claims lead to, and how many of those claims end a task. */
  function Calls(job: Job, n: nat): seq<Call> {
    if n == 0 then []
    else
      var lo := Wrap(Mark(job, n - 1));
      Calls(job, n - 1) + if lo < job.end then [CallAt(job, lo)] else []
  }

  function Ends(job: Job, n: nat): nat {
    if n == 0 then 0 else Ends(job, n - 1) + if Wrap(Mark(job, n - 1)) < job.end then 0 else 1
  }

  function CountFinished(claimants: seq<Claimant>): (n: nat)
    ensures n <= |claimants|
  {
    if claimants == [] then 0
    else CountFinished(claimants[..|claimants| - 1]) + if claimants[|claimants| - 1].Finished? then 1 else 0
  }

  lemma {:induction false} FinishedOne(claimants: seq<Claimant>, c: nat, p: Claimant)
    requires c < |claimants|
    ensures CountFinished(claimants[c := p]) ==
      CountFinished(claimants) - (if claimants[c].Finished? then 1 else 0) + if p.Finished? then 1 else 0
    ensures !claimants[c].Finished? ==> CountFinished(claimants) < |claimants|
  {
    var n := |claimants| - 1;
    assert claimants[c := p][..n] == if c < n then claimants[..n][c := p] else claimants[..n];
    if c < n { FinishedOne(claimants[..n], c, p); }
  }

  lemma {:induction false} FinishedAll(claimants: seq<Claimant>)
    ensures CountFinished(claimants) == |claimants| <==> forall c | 0 <= c < |claimants| :: claimants[c].Finished?
    ensures (forall c | 0 <= c < |claimants| :: !claimants[c].Finished?) ==> CountFinished(claimants) == 0
  {
    if claimants != [] {
      var n := |claimants| - 1;
      FinishedAll(claimants[..n]);
      assert forall c | 0 <= c < n :: claimants[..n][c] == claimants[c];
    }
  }

  /** The schedule has no say in it: everything but who is where follows from the number of claims. */
  ghost predicate Inv(job: Job, workers: nat, s: Sys)
    requires ValidJob(job)
  {
    && |s.claimants| == TaskCount(job, workers)
    && s.cursor == Wrap(Mark(job, s.claims)) && s.calls == Calls(job, s.claims)
    && CountFinished(s.claimants) == Ends(job, s.claims)
  }

  lemma WrapAdds(n: nat, g: nat)
    ensures Wrap(Wrap(n) + g) == Wrap(n + g)
  {
  }

  lemma StepKeepsInv(job: Job, workers: nat, s: Sys, r: Sys, c: nat)
    requires ValidJob(job) && Inv(job, workers, s) && Step(job, s, r, c)
    ensures Inv(job, workers, r)
  {
    hide Wrap;
    FinishedOne(s.claimants, c, r.claimants[c]);
    WrapAdds(Mark(job, s.claims), job.grain);
  }

  lemma {:induction false} RunKeepsInv(job: Job, workers: nat, run: seq<Sys>, n: nat)
    requires ValidJob(job) && Run(job, workers, run) && n < |run|
    ensures Inv(job, workers, run[n])
  {
    if n == 0 {
      FinishedAll(run[0].claimants);
    } else {
      RunKeepsInv(job, workers, run, n - 1);
      assert Follows(job, run, n);
      var c: nat :| Step(job, run[n - 1], run[n], c);
      StepKeepsInv(job, workers, run[n - 1], run[n], c);
    }
  }

  // ------------------------------------------------------- when nothing wraps

  function Min(a: nat, b: nat): nat { if a < b then a else b }

  /** `b` chunks and `t` tasks, none of whose claims reads a cursor that has wrapped. */
  predicate Unwrapped(job: Job, b: nat, t: nat) {
    0 < t <= b && Mark(job, b - 1) < job.end <= Mark(job, b) && Mark(job, b + t - 1) < WORD && job.end < WORD
  }

  lemma FitsMeans(job: Job, workers: nat)
    requires ValidJob(job) && Fits(job, workers)
    ensures BatchCount(job) == Batches(job) && Unwrapped(job, BatchCount(job), TaskCount(job, workers))
  {
    BatchesReachEnd(job);
    MarkIs(job, BatchCount(job) + TaskCount(job, workers) - 1);
  }

  /** The chunk that starts at the `k`-th mark. */
  predicate IsChunk(job: Job, call: Call, k: nat) {
    call == Call(Mark(job, k), Min(Mark(job, k + 1), job.end)) && Mark(job, k) < job.end
  }

  ghost predicate AreChunks(job: Job, calls: seq<Call>) {
    forall k | 0 <= k < |calls| :: IsChunk(job, calls[k], k)
  }

  lemma ClaimIsChunk(job: Job, b: nat, t: nat, k: nat)
    requires Unwrapped(job, b, t) && k < b
    ensures IsChunk(job, CallAt(job, Mark(job, k)), k)
  {
    MarkGrows(job, k, b - 1);
    MarkGrows(job, k + 1, b + t - 1);
  }

  /** Up to the last claim that is made, the claims are the marks: first the chunks, then one end per task. */
  lemma {:induction false} ClaimsInOrder(job: Job, b: nat, t: nat, n: nat)
    requires Unwrapped(job, b, t) && n <= b + t
    ensures |Calls(job, n)| == Min(n, b) && Ends(job, n) == n - Min(n, b) && AreChunks(job, Calls(job, n))
  {
    hide Wrap, IsChunk, Mark;
    if n > 0 {
      ClaimsInOrder(job, b, t, n - 1);
      MarkGrows(job, n - 1, b + t - 1);
      if n <= b {
        MarkGrows(job, n - 1, b - 1);
        ClaimIsChunk(job, b, t, n - 1);
      } else {
        MarkGrows(job, b, n - 1);
      }
    }
  }

  /** Consecutive chunks cover what lies between their first and their last mark, once. */
  lemma {:induction false} ChunksTile(job: Job, calls: seq<Call>, x: nat)
    requires AreChunks(job, calls)
    ensures Hits(calls, x) == if job.begin <= x < Min(Mark(job, |calls|), job.end) then 1 else 0
  {
    if calls != [] {
      var n := |calls| - 1;
      assert AreChunks(job, calls[..n]) by { assert forall k | 0 <= k < n :: IsChunk(job, calls[k], k); }
      ChunksTile(job, calls[..n], x);
      MarkGrows(job, 0, n);
      assert IsChunk(job, calls[n], n);
    }
  }

  lemma ChunksAreTiles(job: Job, calls: seq<Call>)
    requires AreChunks(job, calls) && job.end <= Mark(job, |calls|) && 0 < job.grain
    ensures Tiles(job, calls)
  {
    forall x: nat | job.begin <= x < job.end ensures Hits(calls, x) == 1 { ChunksTile(job, calls, x); }
    forall k | 0 <= k < |calls|
      ensures job.begin <= calls[k].lo < calls[k].hi <= job.end && calls[k].hi - calls[k].lo <= job.grain
    {
      assert IsChunk(job, calls[k], k);
      MarkGrows(job, 0, k);
    }
  }

  function FinalCursor(job: Job, batches: nat, tasks: nat): int { job.begin + (batches + tasks) * job.grain }

  /**
   In every interleaving: once the claiming tasks have returned, the body has been called on
   chunks that tile the range exactly once, and the cursor stands at
   `begin + (batch_count + task_count) * grain` (in the machine's arithmetic).
   */
  lemma EveryElementOnce(job: Job, workers: nat, run: seq<Sys>)
    requires ValidJob(job) && Fits(job, workers) && Run(job, workers, run) && Complete(run[|run| - 1])
    ensures Tiles(job, run[|run| - 1].calls) && |run[|run| - 1].calls| == BatchCount(job)
    ensures run[|run| - 1].cursor == FinalCursor(job, BatchCount(job), TaskCount(job, workers)) % WORD
  {
    hide Wrap, BatchCount, TaskCount, Fits, Tiles, FinalCursor;
    var n := |run| - 1;
    var s := run[n];
    RunKeepsInv(job, workers, run, n);
    FinishedAll(s.claimants);
    FitsMeans(job, workers);
    ClaimsBounded(job, workers, run, n);
    var b, t := BatchCount(job), TaskCount(job, workers);
    ClaimsInOrder(job, b, t, s.claims);
    ChunksAreTiles(job, s.calls);
    FinalCursorIs(job, b, t);
  }

  lemma FinalCursorIs(job: Job, b: nat, t: nat)
    ensures Wrap(Mark(job, b + t)) == FinalCursor(job, b, t) % WORD
  {
    MarkIs(job, b + t);
  }

  /** No task claims after it has ended, so there are never more claims than chunks and tasks. */
  lemma {:induction false} ClaimsBounded(job: Job, workers: nat, run: seq<Sys>, n: nat)
    requires ValidJob(job) && Fits(job, workers) && Run(job, workers, run) && n < |run|
    ensures run[n].claims <= BatchCount(job) + TaskCount(job, workers)
  {
    hide Wrap, BatchCount, TaskCount, Fits;
    if n > 0 {
      ClaimsBounded(job, workers, run, n - 1);
      RunKeepsInv(job, workers, run, n - 1);
      FitsMeans(job, workers);
      assert Follows(job, run, n);
      var c: nat :| Step(job, run[n - 1], run[n], c);
      FinishedOne(run[n - 1].claimants, c, run[n].claimants[c]);
      ClaimsInOrder(job, BatchCount(job), TaskCount(job, workers), run[n - 1].claims);
    }
  }

  function CountInBody(claimants: seq<Claimant>): nat {
    if claimants == [] then 0
    else CountInBody(claimants[..|claimants| - 1]) + if claimants[|claimants| - 1].InBody? then 1 else 0
  }

  lemma {:induction false} InBodyOne(claimants: seq<Claimant>, c: nat, p: Claimant)
    requires c < |claimants|
    ensures CountInBody(claimants[c := p]) ==
      CountInBody(claimants) - (if claimants[c].InBody? then 1 else 0) + if p.InBody? then 1 else 0
  {
    var n := |claimants| - 1;
    assert claimants[c := p][..n] == if c < n then claimants[..n][c := p] else claimants[..n];
    if c < n { InBodyOne(claimants[..n], c, p); }
  }

  /** The work left: it goes down with every claim and every return of the body, so the claim loops end. */
  function WorkLeft(job: Job, workers: nat, s: Sys): int
    requires ValidJob(job)
  { 2 * (BatchCount(job) + TaskCount(job, workers) - s.claims) + CountInBody(s.claimants) }

  lemma ClaimLoopsEnd(job: Job, workers: nat, run: seq<Sys>, n: nat, r: Sys, c: nat)
    requires ValidJob(job) && Fits(job, workers) && Run(job, workers, run) && n < |run| && Step(job, run[n], r, c)
    ensures 0 <= WorkLeft(job, workers, r) < WorkLeft(job, workers, run[n])
  {
    hide Wrap, BatchCount, TaskCount, Fits;
    var s := run[n];
    RunKeepsInv(job, workers, run, n);
    ClaimsBounded(job, workers, run, n);
    FitsMeans(job, workers);
    ClaimsInOrder(job, BatchCount(job), TaskCount(job, workers), s.claims);
    FinishedOne(s.claimants, c, r.claimants[c]);
    InBodyOne(s.claimants, c, r.claimants[c]);
  }

  // ---------------------------------------------------------- when something does

  /** A body call that is out of place: empty, outside the range, or on top of the chunks before it. */
  lemma {:induction false} ExtraCallSpoils(job: Job, calls: seq<Call>, b: nat)
    requires b < |calls| && AreChunks(job, calls[..b]) && job.end <= Mark(job, b)
    ensures !Tiles(job, calls)
  {
    var x := calls[b].lo;
    if Tiles(job, calls) {
      ChunksTile(job, calls[..b], x);
      HitsAdd(calls, b, x);
    }
  }

  /** A further call on an element that is already covered shows in the count. */
  lemma {:induction false} HitsAdd(calls: seq<Call>, b: nat, x: nat)
    requires b < |calls| && calls[b].lo <= x < calls[b].hi
    ensures Hits(calls, x) >= Hits(calls[..b], x) + 1
  {
    var n := |calls| - 1;
    if b < n {
      assert calls[..n][..b] == calls[..b];
      HitsAdd(calls[..n], b, x);
    }
  }

  lemma {:induction false} CallsExtend(job: Job, n: nat, m: nat)
    requires n <= m
    ensures Calls(job, n) <= Calls(job, m) && Ends(job, n) <= Ends(job, m)
  {
    if n < m { CallsExtend(job, n, m - 1); }
  }

  /** Rounding up wraps: no task is submitted at all, and the range is not touched. */
  lemma RoundingWraps(job: Job, workers: nat)
    requires ValidJob(job) && job.end - job.begin + job.grain - 1 >= WORD
    ensures BatchCount(job) == 0 && TaskCount(job, workers) == 0
  {
  }

  /** The first mark past the last cursor value a 64-bit word can hold. */
  lemma {:induction false} FirstWrapped(job: Job, b: nat, m: nat) returns (k: nat)
    requires b > 0 && Mark(job, b - 1) < WORD <= Mark(job, m) && b <= m
    ensures b <= k <= m && Mark(job, k - 1) < WORD <= Mark(job, k)
  {
    if Mark(job, m - 1) < WORD {
      k := m;
    } else {
      if b == m { assert false; }
      k := FirstWrapped(job, b, m - 1);
    }
  }

  /** A cursor that has wrapped reads as a value before the end of the range, so it is claimed again. */
  lemma WrappedIsClaimed(job: Job, b: nat, k: nat)
    requires ValidJob(job) && 0 < b <= k && Mark(job, b - 1) < job.end <= Mark(job, b)
    requires Mark(job, k - 1) < WORD <= Mark(job, k) && (k == 1 || b >= 2)
    ensures Wrap(Mark(job, k)) == Mark(job, k) - WORD < job.grain && Wrap(Mark(job, k)) < job.end
  {
    if b >= 2 { MarkGrows(job, 1, b - 1); } else { assert Mark(job, 1) == job.begin + job.grain; }
  }

  lemma {:induction false} NoEndsYet(job: Job, b: nat, n: nat)
    requires 0 < b && Mark(job, b - 1) < job.end < WORD && n <= b
    ensures Ends(job, n) == 0
  {
    if n > 0 {
      NoEndsYet(job, b, n - 1);
      MarkGrows(job, n - 1, b - 1);
    }
  }

  /** The last chunk's upper end has wrapped: its call is upside down. */
  lemma LastChunkSpoils(job: Job, b: nat, n: nat)
    requires ValidJob(job) && 0 < b <= n && Mark(job, b - 1) < job.end && WORD <= Mark(job, b)
    requires Wrap(Mark(job, b)) < job.end
    ensures !Tiles(job, Calls(job, n))
  {
    CallsExtend(job, b, n);
    var last := |Calls(job, b)| - 1;
    assert Calls(job, b)[last] == CallAt(job, Mark(job, b - 1));
    assert Calls(job, n)[last] == Calls(job, b)[last];
    assert Calls(job, n)[last].hi < Calls(job, n)[last].lo;
  }

  lemma UnwrappedMeans(job: Job, b: nat, t: nat)
    requires Unwrapped(job, b, t)
    ensures job.end <= Mark(job, b)
  {
  }

  lemma OneMoreCall(job: Job, k: nat)
    requires Wrap(Mark(job, k)) < job.end
    ensures Calls(job, k + 1) == Calls(job, k) + [CallAt(job, Wrap(Mark(job, k)))]
  {
  }

  /** The cursor wraps after the chunks: some chunk is claimed that is none. */
  lemma WrappedClaimSpoils(job: Job, b: nat, k: nat, n: nat)
    requires ValidJob(job) && b <= k < n && Unwrapped(job, b, k - b) && Wrap(Mark(job, k)) < job.end
    ensures !Tiles(job, Calls(job, n))
  {
    hide Tiles, Wrap, Unwrapped, AreChunks;
    UnwrappedMeans(job, b, k - b);
    ClaimsInOrder(job, b, k - b, k);
    CallsExtend(job, k + 1, n);
    OneMoreCall(job, k);
    assert Calls(job, n)[..b] == Calls(job, k);
    ExtraCallSpoils(job, Calls(job, n), b);
  }

  lemma Spoiled(job: Job, workers: nat, n: nat)
    requires ValidJob(job) && !Fits(job, workers) && Ends(job, n) == TaskCount(job, workers)
    requires TaskCount(job, workers) == 0 ==> n == 0
    ensures !Tiles(job, Calls(job, n))
  {
    hide Tiles, Wrap;
    if job.end - job.begin + job.grain - 1 >= WORD {
      RoundingWraps(job, workers);
      EmptySpoils(job);
    } else {
      var b, t := BatchCount(job), TaskCount(job, workers);
      BatchesReachEnd(job);
      UnfitMeans(job, workers);
      var k := FirstWrapped(job, b, b + t - 1);
      WrappedIsClaimed(job, b, k);
      if k == b {
        if n < b { NoEndsYet(job, b, n); }
        LastChunkSpoils(job, b, n);
      } else {
        if n <= k {
          ClaimsInOrder(job, b, k - b, k);
          CallsExtend(job, n, k);
        }
        WrappedClaimSpoils(job, b, k, n);
      }
    }
  }

  lemma UnfitMeans(job: Job, workers: nat)
    requires ValidJob(job) && !Fits(job, workers) && job.end - job.begin + job.grain - 1 < WORD
    ensures var b := BatchCount(job); var t := TaskCount(job, workers);
      b == Batches(job) && 0 < t <= b && Mark(job, b + t - 1) >= WORD
  {
    BatchesReachEnd(job);
    MarkIs(job, BatchCount(job) + TaskCount(job, workers) - 1);
  }

  lemma EmptySpoils(job: Job)
    requires ValidJob(job)
    ensures !Tiles(job, [])
  {
    assert Hits([], job.begin) == 0;
  }

  /**
   The exact condition. Whatever the schedule, a call of `parallel_for` that returns has called
   the body on each element of its range exactly once if and only if `Fits` held.
   */
  lemma CoversExactlyWhenItFits(job: Job, workers: nat, run: seq<Sys>)
    requires ValidJob(job) && Run(job, workers, run) && Complete(run[|run| - 1])
    ensures Tiles(job, run[|run| - 1].calls) <==> Fits(job, workers)
  {
    hide Tiles, Fits, Wrap;
    if Fits(job, workers) {
      EveryElementOnce(job, workers, run);
    } else {
      var s := run[|run| - 1];
      RunKeepsInv(job, workers, run, |run| - 1);
      FinishedAll(s.claimants);
      if TaskCount(job, workers) == 0 { NobodyClaims(job, workers, run, |run| - 1); }
      Spoiled(job, workers, s.claims);
    }
  }

  lemma NobodyClaims(job: Job, workers: nat, run: seq<Sys>, n: nat)
    requires ValidJob(job) && Run(job, workers, run) && n < |run| && TaskCount(job, workers) == 0
    ensures run[n].claims == 0
  {
    if n > 0 {
      RunKeepsInv(job, workers, run, n - 1);
      assert Follows(job, run, n);
      NobodySteps(job, run[n - 1], run[n]);
    }
  }

  lemma NobodySteps(job: Job, s: Sys, r: Sys)
    requires |s.claimants| == 0
    ensures !Next(job, s, r)
  {
  }

  /** A grain near the top of the machine's range, meant as "one chunk", silently covers nothing. */
  lemma HugeGrainRunsNothing()
    ensures var job := Job(0, 10, WORD - 1);
      ValidJob(job) && !Fits(job, 8) && TaskCount(job, 8) == 0
  {
  }

  // ------------------------------------------------------------ the code in place

  class Cursor {
    var value: nat

    constructor (begin: nat)
      ensures value == begin
    {
      value := begin;
    }
  }

  /** What a lone task's claim number `n` sees. */
  lemma LoneClaim(job: Job, n: nat)
    requires ValidJob(job) && Fits(job, 1) && n <= BatchCount(job)
    ensures var lo := Wrap(Mark(job, n));
      && Wrap(lo + job.grain) == Wrap(Mark(job, n + 1))
      && (lo < job.end <==> n < BatchCount(job))
      && Calls(job, n + 1) == Calls(job, n) + (if lo < job.end then [CallAt(job, lo)] else [])
    ensures n == BatchCount(job) ==> Tiles(job, Calls(job, n))
  {
    hide Wrap, Fits, Tiles, AreChunks;
    var b := BatchCount(job);
    FitsMeans(job, 1);
    assert TaskCount(job, 1) == 1;
    hide BatchCount, TaskCount;
    ClaimsInOrder(job, b, 1, n);
    ClaimsInOrder(job, b, 1, n + 1);
    WrapAdds(Mark(job, n), job.grain);
    if n == b { ChunksAreTiles(job, Calls(job, n)); }
  }

  /** The loop of one claiming task, with no other task about: it covers the range by itself. */
  method ClaimAlone(job: Job, cursor: Cursor) returns (calls: seq<Call>)
    requires ValidJob(job) && Fits(job, 1) && cursor.value == job.begin
    modifies cursor
    ensures Tiles(job, calls) && cursor.value == FinalCursor(job, BatchCount(job), 1) % WORD
  {
    hide Wrap, Fits, Tiles, BatchCount, FinalCursor, Mark;
    ghost var n: nat := 0;
    calls := [];
    MarkStartsAtBegin(job);
    while true
      invariant n <= BatchCount(job) && cursor.value == Wrap(Mark(job, n)) && calls == Calls(job, n)
      decreases BatchCount(job) - n
    {
      LoneClaim(job, n);
      var lo := cursor.value;
      cursor.value := Wrap(cursor.value + job.grain);
      if lo >= job.end {
        FinalCursorIs(job, n, 1);
        break;
      }
      var hi := if Wrap(lo + job.grain) < job.end then Wrap(lo + job.grain) else job.end;
      calls := calls + [Call(lo, hi)];
      n := n + 1;
    }
  }

  lemma MarkStartsAtBegin(job: Job)
    requires ValidJob(job)
    ensures Wrap(Mark(job, 0)) == job.begin
  {
  }

  /** The calling thread: one claiming task per handle, as many as `TaskCount` says, and then a wait for each. */
  method SubmitAndWait(runtime: TaskGraphs.Runtime, begin: nat, end: nat, grain: nat, workers: nat, body: GraphModel.Desc)
    requires end < WORD && grain < WORD
    modifies runtime
    ensures begin >= end ==> runtime.calls == old(runtime.calls) && runtime.waits == old(runtime.waits)
    ensures begin < end ==>
      var tasks := TaskCount(Prepare(begin, end, grain).value, workers);
      && runtime.calls == old(runtime.calls) + seq(tasks, t => TaskGraphs.Call(body, []))
      && runtime.waits == old(runtime.waits) + seq(tasks, t => |old(runtime.calls)| + t)
  {
    hide BatchCount, TaskCount;
    var job := Prepare(begin, end, grain);
    if job.None? {
      return;
    }
    var taskCount := TaskCount(job.value, workers);
    var handles := new nat[taskCount];
    for t := 0 to taskCount
      invariant runtime.calls == old(runtime.calls) + seq(t, i => TaskGraphs.Call(body, []))
      invariant runtime.waits == old(runtime.waits)
      invariant forall i | 0 <= i < t :: handles[i] == |old(runtime.calls)| + i
    {
      handles[t] := runtime.SubmitAfter(body, []);
    }
    for t := 0 to taskCount
      modifies runtime
      invariant runtime.calls == old(runtime.calls) + seq(taskCount, i => TaskGraphs.Call(body, []))
      invariant runtime.waits == old(runtime.waits) + seq(t, i => |old(runtime.calls)| + i)
    {
      runtime.Wait(handles[t]);
    }
  }
}
