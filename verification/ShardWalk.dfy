/** The spawn loop's walk over the shards, and the cycle counters it keeps. */
module ShardWalk {
  import opened Arithmetic

  const U8_RANGE := 256

  /** The 8-bit job counter after the iterations from `lo` up to `hi`, from zero. */
  function JobCounter(picked: nat -> nat, lo: nat, hi: nat): nat
    requires lo <= hi
  {
    if lo == hi then 0 else (JobCounter(picked, lo, hi - 1) + picked(hi - 1)) % U8_RANGE
  }

  /** How many sessions report a read during those iterations, without the wrap. */
  function Sum(picked: nat -> nat, lo: nat, hi: nat): nat
    requires lo <= hi
  {
    if lo == hi then 0 else Sum(picked, lo, hi - 1) + picked(hi - 1)
  }

  /** Where the loop stands after `k` iterations: completed cycles, where this one began, shard. */
  datatype Position = Position(cycle: nat, start: nat, index: nat)

  function Walk(n: nat, k: nat): (p: Position)
    ensures p.start <= k
  {
    if k == 0 then Position(0, 0, 0) else
      var p := Walk(n, k - 1);
      if p.index + 1 == n then Position(p.cycle + 1, k, 0) else p.(index := p.index + 1)
  }

  /** The successful-cycle counter after `k` iterations. */
  function Successes(picked: nat -> nat, n: nat, k: nat): nat {
    if k == 0 then 0 else
      var completed := Walk(n, k).index == 0;
      Successes(picked, n, k - 1) +
        if completed && JobCounter(picked, Walk(n, k - 1).start, k) != 0 then 1 else 0
  }

  class Handler {
    const partitions: nat
    var jobsPicked: nat
    var cyclesSuccessful: nat
    var cyclesUnsuccessful: nat

    ghost predicate Valid()
      reads this
    {
      0 < partitions < U8_RANGE && jobsPicked < U8_RANGE
    }

    constructor (partitions: nat)
      requires 0 < partitions < U8_RANGE
      ensures Valid() && this.partitions == partitions
      ensures jobsPicked == 0 && cyclesSuccessful == 0 && cyclesUnsuccessful == 0
    {
      this.partitions := partitions;
      jobsPicked, cyclesSuccessful, cyclesUnsuccessful := 0, 0, 0;
    }

    method IncrementStreamIndex(index: nat) returns (next: nat)
      requires Valid() && index < partitions
      modifies this
      ensures Valid() && next < partitions
      ensures next == (index + 1) % partitions
      ensures cyclesSuccessful + cyclesUnsuccessful ==
        old(cyclesSuccessful + cyclesUnsuccessful) + (index + 1) / partitions
      ensures cyclesSuccessful == old(cyclesSuccessful) + if next == 0 && old(jobsPicked) != 0 then 1 else 0
      ensures jobsPicked == if next == 0 then 0 else old(jobsPicked)
    {
      ghost var last := index + 1 == partitions;
      DivMod(index + 1, partitions, if last then 1 else 0, if last then 0 else index + 1);
      if index == partitions - 1 {
        if jobsPicked == 0 {
          cyclesUnsuccessful := cyclesUnsuccessful + 1;
        } else {
          cyclesSuccessful := cyclesSuccessful + 1;
        }
        jobsPicked := 0;
        next := 0;
      } else {
        next := index + 1;
      }
    }

    /** One iteration, during which `picked` sessions report a read. */
    method Iterate(index: nat, picked: nat) returns (next: nat)
      requires Valid() && index < partitions
      modifies this
      ensures Valid() && next == (if index + 1 == partitions then 0 else index + 1) < partitions
      ensures var counter := (old(jobsPicked) + picked) % U8_RANGE;
        && cyclesSuccessful == old(cyclesSuccessful) + (if next == 0 && counter != 0 then 1 else 0)
        && jobsPicked == (if next == 0 then 0 else counter)
      ensures cyclesSuccessful + cyclesUnsuccessful ==
        old(cyclesSuccessful + cyclesUnsuccessful) + if next == 0 then 1 else 0
    {
      jobsPicked := (jobsPicked + picked) % U8_RANGE;
      next := IncrementStreamIndex(index);
      ghost var last := index + 1 == partitions;
      DivMod(index + 1, partitions, if last then 1 else 0, if last then 0 else index + 1);
    }

    /**
      The loop, for as many iterations as it finds `running` set; `picked(k)` is how many sessions
      report a read during iteration `k`. A completed cycle was successful if that is not a multiple
      of 256 over the whole cycle.
     */
    method Spawn(rounds: nat, picked: nat -> nat) returns (index: nat)
      requires Valid() && jobsPicked == 0 && cyclesSuccessful == 0 && cyclesUnsuccessful == 0
      modifies this
      ensures Valid()
      ensures index == rounds % partitions
      ensures cyclesSuccessful + cyclesUnsuccessful == rounds / partitions
      ensures cyclesSuccessful == |SuccessfulCycles(picked, partitions, rounds / partitions)|
    {
      index := 0;
      var k := 0;
      while k < rounds
        invariant Valid() && k <= rounds
        invariant index == Walk(partitions, k).index < partitions
        invariant cyclesSuccessful == Successes(picked, partitions, k)
        invariant cyclesSuccessful + cyclesUnsuccessful == Walk(partitions, k).cycle
        invariant jobsPicked == JobCounter(picked, Walk(partitions, k).start, k)
      {
        assert JobCounter(picked, Walk(partitions, k).start, k + 1) == (jobsPicked + picked(k)) % U8_RANGE;
        index := Iterate(index, picked(k));
        k := k + 1;
      }
      WalkClosedForm(partitions, rounds);
      SuccessesCounted(picked, partitions, rounds);
    }
  }

  /** The cycles before the `q`-th during which the number of reads is not a multiple of 256. */
  ghost function SuccessfulCycles(picked: nat -> nat, n: nat, q: nat): set<nat> {
    set c | 0 <= c < q && Successful(picked, n, c)
  }

  ghost predicate Successful(picked: nat -> nat, n: nat, c: nat) {
    Sum(picked, c * n, c * n + n) % U8_RANGE != 0
  }

  /** The 8-bit counter is the number of reads, modulo 256. */
  lemma {:induction false} JobCounterWraps(picked: nat -> nat, lo: nat, hi: nat)
    requires lo <= hi
    ensures JobCounter(picked, lo, hi) == Sum(picked, lo, hi) % U8_RANGE
  {
    if lo < hi {
      JobCounterWraps(picked, lo, hi - 1);
    }
  }

  lemma {:induction false} WalkStart(n: nat, k: nat)
    requires n > 0
    ensures Walk(n, k).start == Walk(n, k).cycle * n
  {
    if k > 0 {
      WalkStart(n, k - 1);
      WalkPosition(n, k);
    }
  }

  /** What the loop counts are the completed cycles whose reads are not a multiple of 256. */
  lemma {:induction false} SuccessesCounted(picked: nat -> nat, n: nat, k: nat)
    requires n > 0
    ensures Successes(picked, n, k) == |SuccessfulCycles(picked, n, k / n)|
  {
    WalkClosedForm(n, k);
    if k == 0 {
      assert SuccessfulCycles(picked, n, 0) == {};
    } else {
      SuccessesCounted(picked, n, k - 1);
      WalkClosedForm(n, k - 1);
      if Walk(n, k).index == 0 {
        CycleCompleted(picked, n, k);
        OneMoreCycle(picked, n, Walk(n, k - 1).cycle);
      }
    }
  }

  lemma CycleCompleted(picked: nat -> nat, n: nat, k: nat)
    requires n > 0 && k > 0 && Walk(n, k).index == 0
    ensures var c := Walk(n, k - 1).cycle;
      && Walk(n, k).cycle == c + 1
      && (JobCounter(picked, Walk(n, k - 1).start, k) != 0 <==> Successful(picked, n, c))
  {
    var c := Walk(n, k - 1).cycle;
    WalkStart(n, k - 1);
    WalkPosition(n, k - 1);
    assert k == c * n + n;
    JobCounterWraps(picked, c * n, k);
  }

  lemma OneMoreCycle(picked: nat -> nat, n: nat, c: nat)
    ensures |SuccessfulCycles(picked, n, c + 1)| ==
            |SuccessfulCycles(picked, n, c)| + if Successful(picked, n, c) then 1 else 0
  {
    assert SuccessfulCycles(picked, n, c + 1) ==
           SuccessfulCycles(picked, n, c) + if Successful(picked, n, c) then {c} else {};
  }

  /** A cycle with 256 reads is counted as unsuccessful. */
  lemma WrappedCycleIsUnsuccessful(n: nat)
    requires n > 0
    ensures var picked := (k: nat) => if k == 0 then 256 else 0;
      Sum(picked, 0, n) == 256 && Successes(picked, n, n) == 0
  {
    var picked := (k: nat) => if k == 0 then 256 else 0;
    OnlyTheFirst(picked, n);
    SuccessesCounted(picked, n, n);
    DivMod(n, n, 1, 0);
    FirstCycleWraps(picked, n);
  }

  lemma FirstCycleWraps(picked: nat -> nat, n: nat)
    requires Sum(picked, 0, n) == 256
    ensures |SuccessfulCycles(picked, n, 1)| == 0
  {
    assert 0 * n == 0;
    assert !Successful(picked, n, 0);
    assert SuccessfulCycles(picked, n, 1) == {};
  }

  lemma {:induction false} OnlyTheFirst(picked: nat -> nat, n: nat)
    requires n > 0 && forall k: nat :: picked(k) == if k == 0 then 256 else 0
    ensures Sum(picked, 0, n) == 256
  {
    if n > 1 {
      OnlyTheFirst(picked, n - 1);
    } else {
      assert Sum(picked, 0, 0) == 0;
    }
  }

  /** The walk in closed form: shard `k mod n`, `k div n` cycles completed. */
  lemma {:induction false} WalkClosedForm(n: nat, k: nat)
    requires n > 0
    ensures Walk(n, k).index == k % n && Walk(n, k).cycle == k / n
  {
    WalkPosition(n, k);
    DivMod(k, n, Walk(n, k).cycle, Walk(n, k).index);
  }

  lemma {:induction false} WalkPosition(n: nat, k: nat)
    requires n > 0
    ensures Walk(n, k).index < n && k == Walk(n, k).cycle * n + Walk(n, k).index
  {
    if k > 0 {
      WalkPosition(n, k - 1);
      var p := Walk(n, k - 1);
      assert (p.cycle + 1) * n == p.cycle * n + n;
    }
  }

  lemma NextVisit(n: nat, start: nat, shard: nat) returns (k: nat)
    requires shard < n
    ensures start <= k < start + n && k % n == shard
  {
    var q, r := start / n, start % n;
    assert start == q * n + r;
    assert (q + 1) * n == q * n + n;
    var turn := if r <= shard then q else q + 1;
    k := turn * n + shard;
    DivMod(k, n, turn, shard);
  }

  /** Any `n` consecutive iterations visit every shard exactly once. */
  lemma FairWindow(n: nat, start: nat, shard: nat) returns (k: nat)
    requires shard < n
    ensures start <= k < start + n && Walk(n, k).index == shard
    ensures forall j :: start <= j < start + n && Walk(n, j).index == shard ==> j == k
  {
    k := NextVisit(n, start, shard);
    WalkClosedForm(n, k);
    forall j | start <= j < start + n && Walk(n, j).index == shard ensures j == k {
      WalkClosedForm(n, j);
      SameResidue(j, k, n);
    }
  }
}
