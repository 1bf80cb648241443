/**
 * The CPU burner around the generator bank: checking the command-line
 * settings and deriving the duty cycle, seeding every worker's slot with
 * the same key, one burst of a worker against the clock readings it takes,
 * and the total of the per-thread batch counters.
 */
module Burner {
  import opened Mt
  import opened MtBanks
  import opened Clock

  /** The key every worker slot is seeded with. */
  const SeedKey: seq<bv32> := [0x123, 0x234, 0x345, 0x456]

  /** The settings `-t`, `-u` and `-c` (their defaults are 10, 100 and 1). */
  datatype Settings = Settings(nsecs: int, utilization: int, nthreads: int)

  /** Why the burner refuses to start. */
  datatype SettingsError = TooManyThreads | NonPositiveTime | InvalidUtilization

  /** Microseconds of work and of sleep in each duty cycle. */
  datatype DutyCycle = DutyCycle(tloop: int, twait: int)

  datatype Checked = Accepted(cycle: DutyCycle) | Rejected(error: SettingsError)

  /**
   * The checks `main` makes before it starts any thread, in their order,
   * and the duty cycle for accepted settings. A thread count of zero or
   * less is not refused. A period is 1000000 / WRK_FREQ = 100000
   * microseconds, at 10 cycles per second.
   */
  function Configure(s: Settings): (r: Checked)
    ensures r.Accepted? <==> s.nthreads <= MaxThreads && s.nsecs >= 1 && 0 <= s.utilization <= 100
    ensures r == Rejected(TooManyThreads) <==> s.nthreads > MaxThreads
    ensures r == Rejected(NonPositiveTime) <==> s.nthreads <= MaxThreads && s.nsecs < 1
    ensures r == Rejected(InvalidUtilization) <==>
              s.nthreads <= MaxThreads && s.nsecs >= 1 && (s.utilization > 100 || s.utilization < 0)
    ensures r.Accepted? ==> r.cycle.tloop == 1000 * s.utilization && r.cycle.tloop + r.cycle.twait == 100000
    ensures r.Accepted? ==> 0 <= r.cycle.tloop <= 100000 && 0 <= r.cycle.twait <= 100000
  {
    if s.nthreads > MaxThreads then Rejected(TooManyThreads)
    else if s.nsecs < 1 then Rejected(NonPositiveTime)
    else if s.utilization > 100 || s.utilization < 0 then Rejected(InvalidUtilization)
    else
      var tloop := 100000 * s.utilization / 100;
      Accepted(DutyCycle(tloop, 100000 - tloop))
  }

  /** Full utilisation never sleeps; zero utilisation works for no time. */
  lemma {:induction false} DutyCycleExtremes(nsecs: int, nthreads: int)
    requires nsecs >= 1 && nthreads <= MaxThreads
    ensures Configure(Settings(nsecs, 100, nthreads)).cycle.twait == 0
    ensures Configure(Settings(nsecs, 0, nthreads)).cycle.tloop == 0
  {
  }

  /**
   * The elapsed time after each batch: `usecdiff(tstart, tend)` for each
   * reading. The ensures only expose the comprehension to the prover; they
   * are not a separate specification.
   */
  function Elapsed(start: Timespec, clock: seq<Timespec>): (e: seq<int>)
    ensures |e| == |clock|
    ensures forall k :: 0 <= k < |clock| ==> e[k] == UsecDiff(start, clock[k])
  {
    seq(|clock|, k requires 0 <= k < |clock| => UsecDiff(start, clock[k]))
  }

  /**
   * Batches a burst runs from reading b on: it stops after the first batch
   * whose elapsed time is at least tloop, or when the readings run out.
   */
  function BatchesRun(elapsed: seq<int>, tloop: int, b: nat): (n: nat)
    requires b <= |elapsed|
    ensures n <= |elapsed| - b
    decreases |elapsed| - b
  {
    if b == |elapsed| then 0
    else if elapsed[b] >= tloop then 1
    else 1 + BatchesRun(elapsed, tloop, b + 1)
  }

  /**
   * Every batch before the last one ended short of tloop; the last one
   * reached it, or no reading ever did.
   */
  lemma {:induction false} BatchesRunStops(elapsed: seq<int>, tloop: int, b: nat)
    requires b <= |elapsed|
    ensures var n := BatchesRun(elapsed, tloop, b);
            (forall k :: b <= k < b + n - 1 ==> elapsed[k] < tloop) &&
            ((n >= 1 && elapsed[b + n - 1] >= tloop) ||
             (b + n == |elapsed| && forall k :: b <= k < |elapsed| ==> elapsed[k] < tloop))
    decreases |elapsed| - b
  {
    if b < |elapsed| && elapsed[b] < tloop {
      BatchesRunStops(elapsed, tloop, b + 1);
    }
  }

  /** With tloop 0 and a clock that does not run backwards, a burst is exactly one batch. */
  lemma {:induction false} ZeroBudgetOneBatch(elapsed: seq<int>)
    requires |elapsed| >= 1 && elapsed[0] >= 0
    ensures BatchesRun(elapsed, 0, 0) == 1
  {
  }

  /** Sum of a sequence of counters. */
  function Sum(s: seq<nat>): nat
  {
    if |s| == 0 then 0 else Sum(s[..|s| - 1]) + s[|s| - 1]
  }

  /** Raising one counter by d raises the sum by d. */
  lemma {:induction false} SumBump(s: seq<nat>, i: nat, d: nat)
    requires i < |s|
    ensures Sum(s[i := s[i] + d]) == Sum(s) + d
  {
    var t := s[i := s[i] + d];
    if i < |s| - 1 {
      assert t[..|t| - 1] == s[..|s| - 1][i := s[i] + d];
      SumBump(s[..|s| - 1], i, d);
    } else {
      assert t[..|t| - 1] == s[..|s| - 1];
    }
  }

  /**
   * A burst that adds b to `thread_stat[idx]` and leaves the other counters
   * alone raises the reported total by exactly b.
   */
  lemma {:induction false} BurstRaisesTotal(before: seq<nat>, after: seq<nat>, idx: nat, b: nat)
    requires |after| == |before| && idx < |before|
    requires after[idx] == before[idx] + b
    requires forall u :: 0 <= u < |before| && u != idx ==> after[u] == before[u]
    ensures Sum(after) == Sum(before) + b
  {
    assert after == before[idx := before[idx] + b];
    SumBump(before, idx, b);
  }

  /** The loop bound `i < nthreads` as a count: no iterations for a non-positive count. */
  function ThreadCount(nthreads: int): nat
  {
    if nthreads < 0 then 0 else nthreads
  }

  class Burner {
    /** The generators `mt` and `mti` of every thread slot. */
    const bank: MtBank
    /** `thread_stat`: batches each worker has completed. */
    const stat: array<nat>

    ghost predicate Valid()
      reads this, bank, bank.slots, stat
    {
      bank.Valid() && stat.Length == MaxThreads
    }

    /** Static storage: unseeded slots and zero counters. */
    constructor ()
      ensures Valid() && fresh(bank) && fresh(bank.Repr()) && fresh(stat)
      ensures forall t :: 0 <= t < MaxThreads ==> bank.slots[t].State() == InitialState()
      ensures forall t :: 0 <= t < MaxThreads ==> stat[t] == 0
    {
      bank := new MtBank();
      stat := new nat[MaxThreads](_ => 0);
    }

    /** `init_by_array(i, init, 4)` for every thread i: all workers get the same generator state. */
    method SeedAll(nthreads: int)
      requires Valid() && nthreads <= MaxThreads
      modifies bank.Repr()
      ensures Valid()
      ensures forall t :: 0 <= t < nthreads ==> bank.slots[t].State() == KeyedState(SeedKey)
      ensures forall t :: ThreadCount(nthreads) <= t < MaxThreads ==>
                bank.slots[t].State() == old(bank.slots[t].State())
    {
      var i := 0;
      while i < nthreads
        invariant 0 <= i && (nthreads >= 0 ==> i <= nthreads) && (nthreads < 0 ==> i == 0)
        invariant bank.Valid()
        invariant forall t :: 0 <= t < i ==> bank.slots[t].State() == KeyedState(SeedKey)
        invariant forall t :: i <= t < MaxThreads ==> bank.slots[t].State() == old(bank.slots[t].State())
      {
        bank.InitByArray(i, SeedKey);
        i := i + 1;
      }
    }

    /**
     * One burst of worker idx: batches of 10000 generator calls, each
     * counted in `thread_stat[idx]` and followed by a clock reading, until
     * the elapsed time reaches tloop or the readings run out.
     */
    method Burst(idx: int, tloop: int, start: Timespec, clock: seq<Timespec>) returns (batches: nat, finished: bool)
      requires Valid() && 0 <= idx < MaxThreads
      modifies bank.slots[idx], bank.slots[idx].mt, stat
      ensures Valid()
      ensures batches == BatchesRun(Elapsed(start, clock), tloop, 0)
      ensures finished <==> exists k :: 0 <= k < |clock| && UsecDiff(start, clock[k]) >= tloop
      ensures stat[idx] == old(stat[idx]) + batches
      ensures forall u :: 0 <= u < MaxThreads && u != idx ==> stat[u] == old(stat[u])
      ensures bank.slots[idx].State() == Iterate(old(bank.slots[idx].State()), 10000 * batches)
      ensures forall u :: 0 <= u < MaxThreads && u != idx ==> bank.slots[u].State() == old(bank.slots[u].State())
    {
      ghost var e := Elapsed(start, clock);
      ghost var st := bank.slots[idx].State();
      ghost var draws: nat := 0;
      batches, finished := 0, false;
      while !finished && batches < |clock|
        invariant Valid() && batches <= |clock|
        invariant finished ==> BatchesRun(e, tloop, 0) == batches && batches >= 1 && e[batches - 1] >= tloop
        invariant !finished ==> BatchesRun(e, tloop, 0) == batches + BatchesRun(e, tloop, batches)
        invariant !finished && batches >= 1 ==> e[batches - 1] < tloop
        invariant stat[idx] == old(stat[idx]) + batches
        invariant forall u :: 0 <= u < MaxThreads && u != idx ==> stat[u] == old(stat[u])
        invariant draws == 10000 * batches && bank.slots[idx].State() == Iterate(st, draws)
        decreases |clock| - batches, if finished then 0 else 1
      {
        CountedBatch(idx, st, draws);
        draws := draws + 10000;
        var tdiff := UsecDiff(start, clock[batches]);
        batches := batches + 1;
        if tdiff >= tloop {
          finished := true;
        }
      }
      BatchesRunStops(e, tloop, 0);
      if finished {
        assert UsecDiff(start, clock[batches - 1]) >= tloop;
      } else {
        assert batches == |clock|;
      }
    }

    /** One pass of the burst loop's body: a batch of draws, then `thread_stat[idx]++`. */
    method CountedBatch(idx: int, ghost st: MtState, ghost draws: nat)
      requires Valid() && 0 <= idx < MaxThreads
      requires ValidState(st) && bank.slots[idx].State() == Iterate(st, draws)
      modifies bank.slots[idx], bank.slots[idx].mt, stat
      ensures Valid()
      ensures stat[idx] == old(stat[idx]) + 1
      ensures forall u :: 0 <= u < MaxThreads && u != idx ==> stat[u] == old(stat[u])
      ensures bank.slots[idx].State() == Iterate(st, draws + 10000)
      ensures forall u :: 0 <= u < MaxThreads && u != idx ==> bank.slots[u].State() == old(bank.slots[u].State())
    {
      RunBatch(idx);
      IterateAdd(st, draws, 10000);
      stat[idx] := stat[idx] + 1;
    }

    /** `for (i = 0; i < 10000; i++) genrand_int32(idx)`: 10000 more draws from slot idx. */
    method RunBatch(idx: int)
      requires Valid() && 0 <= idx < MaxThreads
      modifies bank.slots[idx], bank.slots[idx].mt
      ensures Valid()
      ensures bank.slots[idx].State() == Iterate(old(bank.slots[idx].State()), 10000)
      ensures forall u :: 0 <= u < MaxThreads && u != idx ==> bank.slots[u].State() == old(bank.slots[u].State())
    {
      ghost var st := bank.slots[idx].State();
      var i := 0;
      while i < 10000
        invariant 0 <= i <= 10000
        invariant bank.Valid()
        invariant bank.slots[idx].State() == Iterate(st, i)
        invariant forall u :: 0 <= u < MaxThreads && u != idx ==> bank.slots[u].State() == old(bank.slots[u].State())
      {
        var number := bank.GenrandInt32(idx);
        i := i + 1;
      }
    }

    /** `total_stats`: the sum of the counters of threads 0 .. nthreads-1. */
    method TotalStats(nthreads: int) returns (total: int)
      requires Valid() && nthreads <= MaxThreads
      ensures total == Sum(stat[..ThreadCount(nthreads)])
    {
      total := 0;
      var i := 0;
      while i < nthreads
        invariant 0 <= i <= ThreadCount(nthreads)
        invariant total == Sum(stat[..i])
      {
        assert stat[..i + 1][..i] == stat[..i];
        total := total + stat[i];
        i := i + 1;
      }
    }
  }
}
