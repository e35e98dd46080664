/**
 When the claim loops of `parallel_for` end at all. The shared cursor is a 64-bit word and a
 task stops only when it reads a value at or past the end of the range. If the cursor can
 step over all such values each time it comes round, no task ever stops.
 */
module ClaimLoops {
  import opened PowersOfTwo
  import opened ParallelFor

  /** The largest power of two that divides `n`. */
  function LowBit(n: nat): (p: nat)
    requires n > 0
    ensures 0 < p <= n
  { if n % 2 == 1 then 1 else 2 * LowBit(n / 2) }

  /** What a caller can check beforehand: some value the cursor can take is at or past the end of the range. */
  predicate Stops(job: Job)
    requires ValidJob(job)
  {
    job.end <= WORD - LowBit(job.grain) + job.begin % LowBit(job.grain)
  }

  /** No run of this call has more than `bound` states. */
  ghost predicate EndsWithin(job: Job, workers: nat, bound: nat)
    requires ValidJob(job)
  {
    forall run: seq<Sys> | Run(job, workers, run) :: |run| <= bound
  }

  // ------------------------------------------------- which values the cursor takes

  lemma Regroup(z: int, p: int)
    ensures z * (2 * p) == (2 * z) * p
  {
  }

  lemma Spread(x: int, y: int, p: int)
    ensures (x + y) * p == x * p + y * p
  {
  }

  /** The multiples of an odd number take every value modulo a power of two. */
  lemma {:induction false} OddReaches(u: nat, m: nat, r: int) returns (n: nat, q: int)
    requires u % 2 == 1
    ensures n * u == r + q * Pow2(m)
  {
    if m == 0 {
      n, q := 0, -r;
    } else {
      n, q := OddReaches(u, m - 1, r);
      var p := Pow2(m - 1);
      if q % 2 == 1 {
        Spread(n, p, u);
        Spread(q, u, p);
        n, q := n + p, q + u;
      }
      Regroup(q / 2, p);
      q := q / 2;
    }
  }

  /** The multiples of any number take every multiple of its lowest bit. */
  lemma {:induction false} Reaches(g: nat, m: nat, k: int) returns (n: nat, q: int)
    requires g > 0 && LowBit(g) <= Pow2(m)
    ensures n * g == LowBit(g) * k + q * Pow2(m)
  {
    if g % 2 == 1 {
      n, q := OddReaches(g, m, k);
    } else {
      n, q := Reaches(g / 2, m - 1, k);
      Doubled(n, g / 2, LowBit(g / 2), k, q, Pow2(m - 1));
    }
  }

  lemma Doubled(n: int, h: int, l: int, k: int, q: int, p: int)
    requires n * h == l * k + q * p
    ensures n * (2 * h) == (2 * l) * k + q * (2 * p)
  {
    Twice(n, h);
    Twice(l, k);
    Twice(q, p);
  }

  lemma Twice(x: int, y: int)
    ensures x * (2 * y) == 2 * (x * y) == (2 * x) * y
  {
  }

  lemma {:induction false} PowersMultiply(j: nat, k: nat)
    ensures Pow2(j + k) == Pow2(j) * Pow2(k)
  {
    if j > 0 {
      PowersMultiply(j - 1, k);
      Regroup(Pow2(k), Pow2(j - 1));
    }
  }

  lemma WordIsAPower()
    ensures Pow2(64) == WORD
  {
    PowersMultiply(1, 1);
    PowersMultiply(2, 2);
    PowersMultiply(4, 4);
    PowersMultiply(8, 8);
    PowersMultiply(16, 16);
    PowersMultiply(32, 32);
  }

  lemma {:induction false} LowBitDivides(g: nat) returns (c: nat)
    requires g > 0
    ensures g == LowBit(g) * c
  {
    if g % 2 == 1 {
      c := g;
    } else {
      c := LowBitDivides(g / 2);
      Regroup(c, LowBit(g / 2));
    }
  }

  lemma {:induction false} LowBitDividesPower(g: nat, m: nat) returns (b: nat)
    requires g > 0 && LowBit(g) <= Pow2(m)
    ensures Pow2(m) == LowBit(g) * b
  {
    if g % 2 == 1 {
      b := Pow2(m);
    } else {
      b := LowBitDividesPower(g / 2, m - 1);
      Regroup(b, LowBit(g / 2));
    }
  }

  lemma WrapIs(n: nat, x: nat, q: int)
    requires n == x + q * WORD && x < WORD
    ensures Wrap(n) == x
  {
  }

  lemma DivMod(n: nat, p: nat) returns (d: nat)
    requires p > 0
    ensures n == p * d + n % p
  {
    d := n / p;
  }

  /** If the call `Stops`, some claim reads a value at or past the end of the range. */
  lemma SomeClaimStops(job: Job) returns (n: nat)
    requires ValidJob(job) && Stops(job)
    ensures Wrap(Mark(job, n)) >= job.end
  {
    hide Pow2, LowBit, Wrap;
    var p, g, c := LowBit(job.grain), job.grain, job.begin % LowBit(job.grain);
    WordIsAPower();
    var b := LowBitDividesPower(g, 64);
    var d := DivMod(job.begin, p);
    var q: int;
    n, q := Reaches(g, 64, b - 1 - d);
    MarkIs(job, n);
    assert p * (b - 1 - d) == p * b - p - p * d;
    WrapIs(Mark(job, n), WORD - p + c, q);
  }

  lemma NextMultiple(p: nat, e: int, b: int, c: nat)
    requires p > 0 && p * e + c < p * b
    ensures p * e + c <= p * b - p + c
  {
    if e >= b { TimesGrows(p, b, e); }
    TimesGrows(p, e, b - 1);
    Spread(b - 1, 1, p);
  }

  lemma TimesGrows(p: nat, x: int, y: int)
    requires x <= y
    ensures p * x <= p * y
  {
    Spread(x, y - x, p);
  }

  /** If it does not, none ever does. */
  lemma NoClaimStops(job: Job, n: nat)
    requires ValidJob(job) && !Stops(job)
    ensures Wrap(Mark(job, n)) < job.end
  {
    hide Pow2, LowBit;
    var p, g, m := LowBit(job.grain), job.grain, Mark(job, n);
    WordIsAPower();
    var b := LowBitDividesPower(g, 64);
    var c := LowBitDivides(g);
    var d := DivMod(job.begin, p);
    MarkIs(job, n);
    var z := WrapsTimes(m);
    hide Wrap;
    var r := job.begin % p;
    SameResidue(p, d, n, c, z, b);
    NextMultiple(p, d + n * c - z * b, b, r);
  }

  lemma WrapsTimes(m: nat) returns (z: nat)
    ensures Wrap(m) == m - z * WORD
  {
    z := m / WORD;
  }

  lemma SameResidue(p: int, d: int, n: int, c: int, z: int, b: int)
    ensures p * d + n * (p * c) - z * (p * b) == p * (d + n * c - z * b)
  {
    Reorder(n, p, c);
    Reorder(z, p, b);
    Spread(d, n * c, p);
    Spread(d + n * c, -(z * b), p);
  }

  lemma Reorder(x: int, p: int, y: int)
    ensures x * (p * y) == p * (x * y)
  {
  }

  // ----------------------------------------------------------------- they end

  /** The cursor comes round: a value that stops a task does so again every `WORD` claims. */
  lemma MarkComesRound(job: Job, n: nat, j: nat)
    ensures Wrap(Mark(job, n + j * WORD)) == Wrap(Mark(job, n))
  {
    MarkIs(job, n);
    MarkIs(job, n + j * WORD);
    var g := job.grain;
    Spread(n, j * WORD, g);
    assert (j * WORD) * g == (j * g) * WORD;
    WrapRound(Mark(job, n), j * g);
  }

  lemma WrapRound(n: nat, k: nat)
    ensures Wrap(n + k * WORD) == Wrap(n)
  {
  }

  lemma {:induction false} EndsAdd(job: Job, n: nat, j: nat)
    requires ValidJob(job) && Wrap(Mark(job, n)) >= job.end
    ensures Ends(job, n + j * WORD + 1) >= j + 1
  {
    hide Wrap;
    var m := n + j * WORD;
    MarkComesRound(job, n, j);
    assert Ends(job, m + 1) == Ends(job, m) + 1;
    if j > 0 {
      EndsAdd(job, n, j - 1);
      CallsExtend(job, n + (j - 1) * WORD + 1, m);
    }
  }

  /** Every step is a claim, or the return of the body that a claim called. */
  lemma {:induction false} StepsAreClaims(job: Job, workers: nat, run: seq<Sys>, n: nat)
    requires ValidJob(job) && Run(job, workers, run) && n < |run|
    ensures n + CountInBody(run[n].claimants) <= 2 * run[n].claims
  {
    hide Wrap, TaskCount;
    if n == 0 {
      NobodyInBody(run[0].claimants);
    } else {
      StepsAreClaims(job, workers, run, n - 1);
      assert Follows(job, run, n);
      var c: nat :| Step(job, run[n - 1], run[n], c);
      InBodyOne(run[n - 1].claimants, c, run[n].claimants[c]);
    }
  }

  lemma {:induction false} NobodyInBody(claimants: seq<Claimant>)
    requires forall c | 0 <= c < |claimants| :: claimants[c].Claiming?
    ensures CountInBody(claimants) == 0
  {
    if claimants != [] { NobodyInBody(claimants[..|claimants| - 1]); }
  }

  lemma RunIsShort(job: Job, workers: nat, stop: nat, run: seq<Sys>)
    requires ValidJob(job) && Run(job, workers, run) && Wrap(Mark(job, stop)) >= job.end
    ensures |run| <= 1 + 2 * (stop + TaskCount(job, workers) * WORD)
  {
    hide Run, Wrap, TaskCount;
    var n, t := |run| - 1, TaskCount(job, workers);
    assert run != [] by { RunIsThere(job, workers, run); }
    StepsAreClaims(job, workers, run, n);
    RunKeepsInv(job, workers, run, n);
    EndsAdd(job, stop, t);
    if run[n].claims > stop + t * WORD {
      CallsExtend(job, stop + t * WORD + 1, run[n].claims);
    }
  }

  lemma RunIsThere(job: Job, workers: nat, run: seq<Sys>)
    requires ValidJob(job) && Run(job, workers, run)
    ensures run != []
  {
  }

  // ---------------------------------------------------------- or they never do

  /** The schedule that lets the first task make every step. */
  lemma {:induction false} LongRun(job: Job, workers: nat, steps: nat) returns (run: seq<Sys>)
    requires ValidJob(job) && !Stops(job) && TaskCount(job, workers) > 0
    ensures Run(job, workers, run) && |run| == steps + 1
    ensures |run[steps].claimants| > 0 && !run[steps].claimants[0].Finished?
  {
    hide Stops, Wrap, TaskCount;
    if steps == 0 {
      run := [Sys(job.begin, seq(TaskCount(job, workers), i => Claiming), 0, [])];
    } else {
      var before := LongRun(job, workers, steps - 1);
      var s := before[steps - 1];
      RunKeepsInv(job, workers, before, steps - 1);
      NoClaimStops(job, s.claims);
      var next := if s.claimants[0].InBody? then s.(claimants := s.claimants[0 := Claiming])
                  else s.(cursor := Wrap(s.cursor + job.grain), claims := s.claims + 1,
                          claimants := s.claimants[0 := InBody], calls := s.calls + [CallAt(job, s.cursor)]);
      assert Step(job, s, next, 0);
      run := before + [next];
      forall i | 0 < i < |run| ensures Follows(job, run, i) {
        if i < steps { assert Follows(job, before, i); }
      }
    }
  }

  /**
   The exact condition. There is a bound that no schedule exceeds if and only if no task was
   submitted or the call `Stops`; if it does not, its tasks can go on calling the body for ever.
   */
  lemma LoopsEndExactlyWhen(job: Job, workers: nat)
    requires ValidJob(job)
    ensures (exists bound :: EndsWithin(job, workers, bound)) <==> TaskCount(job, workers) == 0 || Stops(job)
  {
    hide Run, Stops, TaskCount;
    if Stops(job) {
      var stop := SomeClaimStops(job);
      var bound := 1 + 2 * (stop + TaskCount(job, workers) * WORD);
      forall run: seq<Sys> | Run(job, workers, run) ensures |run| <= bound { RunIsShort(job, workers, stop, run); }
      assert EndsWithin(job, workers, bound);
    } else if TaskCount(job, workers) == 0 {
      forall run: seq<Sys> | Run(job, workers, run) ensures |run| <= 1 { NobodyRuns(job, workers, run); }
      assert EndsWithin(job, workers, 1);
    } else {
      forall bound ensures !EndsWithin(job, workers, bound) {
        var run := LongRun(job, workers, bound);
      }
    }
  }

  lemma NobodyRuns(job: Job, workers: nat, run: seq<Sys>)
    requires ValidJob(job) && Run(job, workers, run) && TaskCount(job, workers) == 0
    ensures |run| <= 1
  {
    if |run| > 1 {
      RunKeepsInv(job, workers, run, 0);
      assert Follows(job, run, 1);
      NobodySteps(job, run[0], run[1]);
    }
  }

  /** Three elements at the very top of the range, two at a time: the cursor steps over the last value and starts again. */
  lemma TopOfTheRangeNeverEnds()
    ensures var job := Job(WORD - 4, WORD - 1, 2); ValidJob(job) && TaskCount(job, 8) == 2 && !Stops(job)
  {
  }

  /** Where the arithmetic does not wrap they end, so `Fits` is enough. */
  lemma FittingStops(job: Job, workers: nat)
    requires ValidJob(job) && Fits(job, workers)
    ensures Stops(job)
  {
    hide Wrap, Fits, Stops, BatchCount, TaskCount;
    FitsMeans(job, workers);
    if !Stops(job) {
      var b, t := BatchCount(job), TaskCount(job, workers);
      MarkGrows(job, b, b + t - 1);
      NoClaimStops(job, b);
    }
  }
}
