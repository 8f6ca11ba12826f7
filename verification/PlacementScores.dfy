/** The utilization score of a placement (internal/placement/plan.go), on 64-bit
    unsigned arithmetic as the source computes it. */
module PlacementScores {
  import opened Metadata

  const MODULUS: nat := MAX_UINT64 + 1
  const MILLION: nat := 1_000_000

  /** The largest amount whose parts per million still fit. */
  const LARGEST_EXACT: nat := 18_446_744_073_709

  datatype Resources = Resources(cpu: uint64, memory: uint64, storage: uint64)

  // ----- scores -----

  predicate Holds(allocatable: uint64, used: uint64) { 0 < allocatable && used <= allocatable }

  function Quotient(x: nat, a: nat): nat
    requires 0 < a
  {
    x / a
  }

  /** x * 1_000_000 on uint64. */
  function WrappedMillions(x: nat): uint64 { x * MILLION % MODULUS }

  /** (used + need) * 1_000_000 / allocatable, on uint64. */
  function WrappedPPM(used: uint64, need: uint64, allocatable: uint64): nat
    requires 0 < allocatable
  {
    Quotient(WrappedMillions((used + need) % MODULUS), allocatable)
  }

  /** The same without wrap-around. */
  function TruePPM(used: uint64, need: uint64, allocatable: uint64): nat
    requires 0 < allocatable
  {
    Quotient((used + need) * MILLION, allocatable)
  }

  lemma Scaled(p: int, q: int, a: nat)
    requires p <= q
    ensures p * a <= q * a
  {
    assert (q - p) * a >= 0;
  }

  lemma Cancelled(p: int, q: int, a: nat)
    requires p * a < q * a
    ensures p < q
  {
    if p >= q { Scaled(q, p, a); }
  }

  lemma QuotientSplits(x: nat, a: nat)
    requires 0 < a
    ensures Quotient(x, a) * a <= x < (Quotient(x, a) + 1) * a
  {
    assert x == x / a * a + x % a;
    assert (x / a + 1) * a == x / a * a + a;
  }

  lemma QuotientAtLeast(x: nat, a: nat, q: nat)
    requires 0 < a && q * a <= x
    ensures q <= Quotient(x, a)
  {
    hide Quotient;
    QuotientSplits(x, a);
    Cancelled(q, Quotient(x, a) + 1, a);
  }

  lemma QuotientRises(lo: nat, hi: nat, a: nat)
    requires 0 < a && lo <= hi
    ensures Quotient(lo, a) <= Quotient(hi, a)
    ensures lo + a <= hi ==> Quotient(lo, a) < Quotient(hi, a)
  {
    hide Quotient;
    QuotientSplits(lo, a);
    QuotientAtLeast(hi, a, Quotient(lo, a));
    if lo + a <= hi {
      assert (Quotient(lo, a) + 1) * a == Quotient(lo, a) * a + a;
      QuotientAtLeast(hi, a, Quotient(lo, a) + 1);
    }
  }

  lemma QuotientOfMultiple(q: nat, a: nat)
    requires 0 < a
    ensures Quotient(q * a, a) == q
  {
    hide Quotient;
    QuotientSplits(q * a, a);
    QuotientAtLeast(q * a, a, q);
    assert q * a < (q + 1) * a by { assert (q + 1) * a == q * a + a; }
    Cancelled(Quotient(q * a, a), q + 1, a);
  }

  lemma WrapLoses(x: nat)
    requires x <= MAX_UINT64
    ensures WrappedMillions(x) <= x * MILLION
    ensures x <= LARGEST_EXACT ==> WrappedMillions(x) == x * MILLION
    ensures x > LARGEST_EXACT ==> WrappedMillions(x) + MODULUS <= x * MILLION
  {
    var y := x * MILLION;
    assert y == y / MODULUS * MODULUS + y % MODULUS;
    if x > LARGEST_EXACT { assert y / MODULUS >= 1; }
  }

  /** A resource's score never exceeds the true one, which is at most a million, and
      it is right exactly when the amount is small enough. */
  lemma ScoreExactIff(used: uint64, need: uint64, allocatable: uint64)
    requires Holds(allocatable, used) && need <= allocatable - used
    ensures WrappedPPM(used, need, allocatable) <= TruePPM(used, need, allocatable) <= MILLION
    ensures WrappedPPM(used, need, allocatable) == TruePPM(used, need, allocatable) <==> used + need <= LARGEST_EXACT
  {
    var amount := used + need;
    assert amount % MODULUS == amount;
    hide Quotient;
    WrapLoses(amount);
    hide WrappedMillions;
    QuotientRises(WrappedMillions(amount), amount * MILLION, allocatable);
    QuotientRises(amount * MILLION, MILLION * allocatable, allocatable);
    QuotientOfMultiple(MILLION, allocatable);
  }

  // ----- the dominant resource -----

  predicate HoldsAll(allocatable: Resources, used: Resources)
  {
    Holds(allocatable.cpu, used.cpu) && Holds(allocatable.memory, used.memory) && Holds(allocatable.storage, used.storage)
  }

  predicate Fits(allocatable: Resources, used: Resources, need: Resources)
    requires HoldsAll(allocatable, used)
  {
    && need.cpu <= allocatable.cpu - used.cpu && need.memory <= allocatable.memory - used.memory
    && need.storage <= allocatable.storage - used.storage
  }

  function Largest(a: nat, b: nat, c: nat): nat
  {
    if a >= b && a >= c then a else if b >= c then b else c
  }

  function DominantPPM(allocatable: Resources, used: Resources, need: Resources): nat
    requires HoldsAll(allocatable, used)
  {
    Largest(WrappedPPM(used.cpu, need.cpu, allocatable.cpu), WrappedPPM(used.memory, need.memory, allocatable.memory),
            WrappedPPM(used.storage, need.storage, allocatable.storage))
  }

  function TrueDominantPPM(allocatable: Resources, used: Resources, need: Resources): nat
    requires HoldsAll(allocatable, used)
  {
    Largest(TruePPM(used.cpu, need.cpu, allocatable.cpu), TruePPM(used.memory, need.memory, allocatable.memory),
            TruePPM(used.storage, need.storage, allocatable.storage))
  }

  /** Some resource that really dominates has an amount that does not wrap. */
  predicate Measurable(allocatable: Resources, used: Resources, need: Resources)
    requires HoldsAll(allocatable, used)
  {
    var dominant := TrueDominantPPM(allocatable, used, need);
    || (TruePPM(used.cpu, need.cpu, allocatable.cpu) == dominant && used.cpu + need.cpu <= LARGEST_EXACT)
    || (TruePPM(used.memory, need.memory, allocatable.memory) == dominant && used.memory + need.memory <= LARGEST_EXACT)
    || (TruePPM(used.storage, need.storage, allocatable.storage) == dominant && used.storage + need.storage <= LARGEST_EXACT)
  }

  /** The score of a candidate that fits is at most a million whatever wraps, and is
      the true one exactly when the dominant resource is measurable. */
  lemma DominantExactIff(allocatable: Resources, used: Resources, need: Resources)
    requires HoldsAll(allocatable, used) && Fits(allocatable, used, need)
    ensures DominantPPM(allocatable, used, need) <= TrueDominantPPM(allocatable, used, need) <= MILLION
    ensures DominantPPM(allocatable, used, need) == TrueDominantPPM(allocatable, used, need) <==>
            Measurable(allocatable, used, need)
  {
    hide WrappedPPM;
    hide TruePPM;
    ScoreExactIff(used.cpu, need.cpu, allocatable.cpu);
    ScoreExactIff(used.memory, need.memory, allocatable.memory);
    ScoreExactIff(used.storage, need.storage, allocatable.storage);
  }

  /** In particular whenever no allocatable amount exceeds the largest exact one. */
  lemma SmallIsMeasurable(allocatable: Resources, used: Resources, need: Resources)
    requires HoldsAll(allocatable, used) && Fits(allocatable, used, need)
    requires allocatable.cpu <= LARGEST_EXACT && allocatable.memory <= LARGEST_EXACT && allocatable.storage <= LARGEST_EXACT
    ensures Measurable(allocatable, used, need)
  {
    hide TruePPM;
  }
}
