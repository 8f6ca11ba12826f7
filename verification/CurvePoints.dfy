/** Estimating on a measured capacity curve: snap to the first close point, else
    interpolate between neighbours (internal/capacity/workload_curve.go). */
module CurvePoints {
  import opened Reals

  const LARGEST_FACTOR: real := 1000.0
  const LARGEST_WORKLOAD: real := 1_000_000_000_000.0

  /** A resource factor and the workload that was safe at it. */
  datatype Sample = Sample(factor: real, workload: real)

  predicate SampleOk(s: Sample)
  {
    0.0 < s.factor <= LARGEST_FACTOR && 0.0 < s.workload <= LARGEST_WORKLOAD
  }

  /** At least two valid samples in ascending order of their factors. */
  ghost predicate Curve(s: seq<Sample>)
  {
    && |s| >= 2 && (forall i | 0 <= i < |s| :: SampleOk(s[i]))
    && forall i, j | 0 <= i < j < |s| :: s[i].factor < s[j].factor
  }

  predicate TargetOk(t: real)
  {
    0.0 < t <= LARGEST_FACTOR
  }

  /** Within the observed range, widened by the tolerance at either end. */
  predicate InRange(s: seq<Sample>, t: real)
    requires |s| > 0
  {
    var first, last := s[0].factor, s[|s| - 1].factor;
    first - Tolerance(t, first) <= t <= last + Tolerance(t, last)
  }

  ghost predicate SnapsTo(s: seq<Sample>, t: real, k: nat)
  {
    k < |s| && Close(t, s[k].factor) && forall j | 0 <= j < k :: !Close(t, s[j].factor)
  }

  /** `t` lies inside the segment that ends at `i`, away from every sample. */
  ghost predicate Inside(s: seq<Sample>, t: real, i: nat)
  {
    && 1 <= i < |s| && s[i - 1].factor < t < s[i].factor
    && forall j | 0 <= j < |s| :: !Close(t, s[j].factor)
  }

  function Mix(a: real, b: real, u: real): real
  {
    a + u * (b - a)
  }

  function Fraction(left: Sample, right: Sample, t: real): real
    requires left.factor != right.factor
  {
    (t - left.factor) / (right.factor - left.factor)
  }

  function Interpolated(left: Sample, right: Sample, t: real): real
    requires left.factor != right.factor
  {
    Mix(left.workload, right.workload, Fraction(left, right, t))
  }

  ghost predicate EstimateIs(s: seq<Sample>, t: real, v: real)
  {
    (exists k: nat :: SnapsTo(s, t, k) && v == s[k].workload) ||
    (exists i: nat :: Inside(s, t, i) && v == Interpolated(s[i - 1], s[i], t))
  }

  // ----- closeness between positive numbers is convex -----

  lemma Squeeze(x: real, y: real, z: real)
    requires 0.0 < x <= y <= z <= LARGEST_FACTOR && Close(x, z)
    ensures Close(x, y) && Close(y, z)
  {
  }

  lemma CloseSymmetric(x: real, y: real)
    ensures Close(x, y) <==> Close(y, x)
  {
  }

  // ----- every target in range has an estimate -----

  lemma OutsideIsClose(t: real, f: real)
    requires TargetOk(t) && 0.0 < f <= LARGEST_FACTOR
    ensures t <= f && f - Tolerance(t, f) <= t ==> Close(t, f)
    ensures t >= f && t <= f + Tolerance(t, f) ==> Close(t, f)
  {
  }

  /** A target between the outermost factors, equal to none, lies in one segment. */
  lemma {:induction false} SegmentOf(s: seq<Sample>, t: real, n: nat) returns (i: nat)
    requires 1 <= n < |s| && s[0].factor < t < s[n].factor
    requires forall j | 0 <= j < |s| :: t != s[j].factor
    ensures 1 <= i <= n && s[i - 1].factor < t < s[i].factor
  {
    if s[n - 1].factor < t {
      i := n;
    } else {
      i := SegmentOf(s, t, n - 1);
    }
  }

  lemma CloseToItself(t: real)
    requires TargetOk(t)
    ensures Close(t, t)
  {
  }

  /** Neither scan can miss: in range, a target is close to a sample or inside a segment. */
  lemma Resolved(s: seq<Sample>, t: real)
    requires Curve(s) && TargetOk(t) && InRange(s, t) && forall j | 0 <= j < |s| :: !Close(t, s[j].factor)
    ensures exists i: nat :: Inside(s, t, i)
  {
    var n := |s| - 1;
    OutsideIsClose(t, s[0].factor);
    OutsideIsClose(t, s[n].factor);
    CloseToItself(t);
    hide Close;
    hide Tolerance;
    var i := SegmentOf(s, t, n);
    assert Inside(s, t, i);
  }

  // ----- an estimate lies between neighbouring observations -----

  lemma FractionWithin(left: Sample, right: Sample, t: real)
    requires left.factor < t < right.factor
    ensures 0.0 <= Fraction(left, right, t) <= 1.0
  {
    var u := Fraction(left, right, t);
    assert u * (right.factor - left.factor) == t - left.factor;
  }

  lemma MixBounds(a: real, b: real, u: real)
    requires 0.0 <= u <= 1.0
    ensures a <= b ==> a <= Mix(a, b, u) <= b
    ensures b <= a ==> b <= Mix(a, b, u) <= a
  {
    if a <= b {
      ProductNonNegative(u, b - a);
      ProductNonNegative(1.0 - u, b - a);
      assert (1.0 - u) * (b - a) == (b - a) - u * (b - a);
    } else {
      ProductNonNegative(u, a - b);
      ProductNonNegative(1.0 - u, a - b);
      assert (1.0 - u) * (a - b) == (a - b) - u * (a - b);
      assert u * (b - a) == -(u * (a - b));
    }
  }

  lemma ProductNonNegative(x: real, y: real)
    requires x >= 0.0 && y >= 0.0
    ensures x * y >= 0.0
  {
  }

  /** An interpolated value lies between the two neighbours. */
  lemma BetweenNeighbours(left: Sample, right: Sample, t: real)
    requires left.factor < t < right.factor
    ensures left.workload <= right.workload ==> left.workload <= Interpolated(left, right, t) <= right.workload
    ensures right.workload <= left.workload ==> right.workload <= Interpolated(left, right, t) <= left.workload
  {
    hide Mix;
    hide Fraction;
    FractionWithin(left, right, t);
    MixBounds(left.workload, right.workload, Fraction(left, right, t));
  }

  /** So the guard against overflow never fires. */
  lemma EstimateIsFinite(s: seq<Sample>, t: real, v: real)
    requires Curve(s) && EstimateIs(s, t, v)
    ensures FinitePositive(v) && v <= LARGEST_WORKLOAD
  {
    hide Close;
    if i: nat :| Inside(s, t, i) && v == Interpolated(s[i - 1], s[i], t) {
      BetweenNeighbours(s[i - 1], s[i], t);
    }
  }

  // ----- order -----

  lemma FractionRises(left: Sample, right: Sample, t: real, t': real)
    requires left.factor < t <= t' < right.factor
    ensures Fraction(left, right, t) <= Fraction(left, right, t')
  {
    var span := right.factor - left.factor;
    var u, u' := Fraction(left, right, t), Fraction(left, right, t');
    assert u * span == t - left.factor && u' * span == t' - left.factor;
  }

  lemma MixRises(a: real, b: real, u: real, u': real)
    requires a <= b && u <= u'
    ensures Mix(a, b, u) <= Mix(a, b, u')
  {
    ProductNonNegative(u' - u, b - a);
    assert (u' - u) * (b - a) == u' * (b - a) - u * (b - a);
  }

  lemma SameSegmentRises(left: Sample, right: Sample, t: real, t': real)
    requires left.factor < t <= t' < right.factor && left.workload <= right.workload
    ensures Interpolated(left, right, t) <= Interpolated(left, right, t')
  {
    hide Mix;
    hide Fraction;
    FractionRises(left, right, t, t');
    MixRises(left.workload, right.workload, Fraction(left, right, t), Fraction(left, right, t'));
  }

  /** The workloads never fall, except after a factor so near the largest target
      that no target can get past it. */
  ghost predicate Rises(s: seq<Sample>)
  {
    forall i | 1 <= i < |s| :: s[i - 1].workload <= s[i].workload || Close(s[i - 1].factor, LARGEST_FACTOR)
  }

  /** The first sample a target may use, and the last. A snap uses one sample. */
  ghost predicate Uses(s: seq<Sample>, t: real, lo: nat, hi: nat)
  {
    (lo == hi && SnapsTo(s, t, lo)) || (lo + 1 == hi && Inside(s, t, hi))
  }

  /** What lies before the samples in use is too far from the largest target to block the way. */
  lemma UsedAreReached(s: seq<Sample>, t: real, lo: nat, hi: nat)
    requires Curve(s) && TargetOk(t) && Uses(s, t, lo, hi)
    ensures lo <= hi < |s|
    ensures hi >= 1 ==> !Close(s[hi - 1].factor, LARGEST_FACTOR)
  {
    hide Close;
    if hi >= 1 && Close(s[hi - 1].factor, LARGEST_FACTOR) {
      var before, at := s[hi - 1].factor, s[hi].factor;
      if t >= before {
        Squeeze(before, t, LARGEST_FACTOR);
        CloseSymmetric(before, t);
      } else {
        CloseSymmetric(t, at);
        Squeeze(t, before, at);
      }
    }
  }

  lemma {:induction false} RisesTo(s: seq<Sample>, j: nat, k: nat)
    requires Curve(s) && Rises(s) && j <= k < |s| && (k >= 1 ==> !Close(s[k - 1].factor, LARGEST_FACTOR))
    ensures s[j].workload <= s[k].workload
  {
    hide Close;
    if j < k {
      if k >= 2 && Close(s[k - 2].factor, LARGEST_FACTOR) {
        Squeeze(s[k - 2].factor, s[k - 1].factor, LARGEST_FACTOR);
      }
      RisesTo(s, j, k - 1);
    }
  }

  /** A larger target never uses earlier samples. */
  lemma UseAdvances(s: seq<Sample>, t: real, t': real, lo: nat, hi: nat, lo': nat, hi': nat)
    requires Curve(s) && TargetOk(t) && TargetOk(t') && t <= t' && Uses(s, t, lo, hi) && Uses(s, t', lo', hi')
    ensures hi <= lo' || (lo == lo' && hi == hi')
  {
    hide Close;
    if SnapsTo(s, t, lo) && lo == hi {
      if SnapsTo(s, t', lo') && lo' == hi' {
        if lo' < lo { NoStepBack(s, t, t', lo, lo'); }
      } else {
        if lo' < lo { SnapPastTarget(s, t, t', lo, hi'); }
      }
    } else if SnapsTo(s, t', lo') && lo' == hi' {
      if lo' < hi { SnapBeforeTarget(s, t, t', hi, lo'); }
    }
  }

  lemma NoStepBack(s: seq<Sample>, t: real, t': real, a: nat, b: nat)
    requires Curve(s) && TargetOk(t) && TargetOk(t') && t <= t' && b < a < |s|
    requires Close(t, s[a].factor) && Close(t', s[b].factor)
    ensures Close(t, s[b].factor)
  {
    hide Close;
    var f := s[b].factor;
    if t >= f {
      CloseSymmetric(t', f);
      Squeeze(f, t, t');
      CloseSymmetric(f, t);
    } else {
      Squeeze(t, f, s[a].factor);
    }
  }

  lemma SnapPastTarget(s: seq<Sample>, t: real, t': real, a: nat, i: nat)
    requires Curve(s) && TargetOk(t) && TargetOk(t') && t <= t' && 1 <= i <= a < |s| && t' < s[i].factor
    requires Close(t, s[a].factor)
    ensures Close(t', s[a].factor)
  {
    hide Close;
    Squeeze(t, t', s[a].factor);
  }

  lemma SnapBeforeTarget(s: seq<Sample>, t: real, t': real, i: nat, b: nat)
    requires Curve(s) && TargetOk(t) && TargetOk(t') && t <= t' && b < i < |s| && s[i - 1].factor < t
    requires Close(t', s[b].factor)
    ensures Close(t, s[b].factor)
  {
    hide Close;
    CloseSymmetric(t', s[b].factor);
    Squeeze(s[b].factor, t, t');
    CloseSymmetric(s[b].factor, t);
  }

  /** The samples an estimate uses, and that it lies between their workloads. */
  lemma EstimateUses(s: seq<Sample>, t: real, v: real) returns (lo: nat, hi: nat)
    requires Curve(s) && EstimateIs(s, t, v)
    ensures Uses(s, t, lo, hi) && lo <= hi < |s| && (lo < hi ==> s[lo].factor < t < s[hi].factor)
    ensures v == if lo == hi then s[lo].workload else Interpolated(s[lo], s[hi], t)
    ensures s[lo].workload <= s[hi].workload ==> s[lo].workload <= v <= s[hi].workload
    ensures s[hi].workload <= s[lo].workload ==> s[hi].workload <= v <= s[lo].workload
  {
    hide Close;
    if k: nat :| SnapsTo(s, t, k) && v == s[k].workload {
      lo, hi := k, k;
    } else {
      var i: nat :| Inside(s, t, i) && v == Interpolated(s[i - 1], s[i], t);
      lo, hi := i - 1, i;
      BetweenNeighbours(s[i - 1], s[i], t);
    }
  }

  ghost predicate MonotoneEstimates(s: seq<Sample>)
  {
    forall t, t', v, v' | TargetOk(t) && TargetOk(t') && t <= t' && EstimateIs(s, t, v) && EstimateIs(s, t', v') :: v <= v'
  }

  lemma RisingPair(s: seq<Sample>, t: real, t': real, v: real, v': real)
    requires Curve(s) && Rises(s) && TargetOk(t) && TargetOk(t') && t <= t' && EstimateIs(s, t, v) && EstimateIs(s, t', v')
    ensures v <= v'
  {
    hide *;
    var lo, hi := EstimateUses(s, t, v);
    var lo', hi' := EstimateUses(s, t', v');
    UsedAreReached(s, t, lo, hi);
    UsedAreReached(s, t', lo', hi');
    UseAdvances(s, t, t', lo, hi, lo', hi');
    RisesTo(s, lo, hi);
    RisesTo(s, lo', hi');
    if hi <= lo' {
      BeforeReached(s, lo', hi');
      RisesTo(s, hi, lo');
    } else if lo < hi {
      SameSegmentRises(s[lo], s[hi], t, t');
    }
  }

  lemma BeforeReached(s: seq<Sample>, lo: nat, hi: nat)
    requires Curve(s) && lo <= hi < |s| && (hi >= 1 ==> !Close(s[hi - 1].factor, LARGEST_FACTOR))
    ensures lo >= 1 ==> !Close(s[lo - 1].factor, LARGEST_FACTOR)
  {
    hide Close;
    if lo >= 1 && Close(s[lo - 1].factor, LARGEST_FACTOR) {
      Squeeze(s[lo - 1].factor, s[hi - 1].factor, LARGEST_FACTOR);
    }
  }

  // ----- where the curve falls, estimates fall -----

  /** The largest number close to `f`. */
  function Furthest(f: real): real
  {
    if f + RELATIVE <= 1.0 then f + RELATIVE else f / (1.0 - RELATIVE)
  }

  lemma FurthestIsClose(f: real)
    requires 0.0 < f <= LARGEST_FACTOR
    ensures f < Furthest(f) && Close(Furthest(f), f)
    ensures forall x | 0.0 < x < f :: !Close(Furthest(f), x)
    ensures !Close(f, LARGEST_FACTOR) ==> Furthest(f) < LARGEST_FACTOR
  {
  }

  /** The largest target that snaps no further than `f`. */
  function LastTarget(f: real): real
  {
    if Furthest(f) <= LARGEST_FACTOR then Furthest(f) else LARGEST_FACTOR
  }

  lemma LastTargetSnaps(s: seq<Sample>, k: nat)
    requires Curve(s) && k < |s| && (k >= 1 ==> !Close(s[k - 1].factor, LARGEST_FACTOR))
    ensures TargetOk(LastTarget(s[k].factor)) && s[k].factor <= LastTarget(s[k].factor)
    ensures SnapsTo(s, LastTarget(s[k].factor), k)
  {
    var f := s[k].factor;
    var t := LastTarget(f);
    FurthestIsClose(f);
    hide Close;
    hide Furthest;
    if Furthest(f) > LARGEST_FACTOR {
      CloseSymmetric(Furthest(f), f);
      SqueezeUnder(f, Furthest(f));
      forall j | 0 <= j < k ensures !Close(t, s[j].factor) {
        if Close(t, s[j].factor) {
          CloseSymmetric(t, s[j].factor);
          Squeeze(s[j].factor, s[k - 1].factor, LARGEST_FACTOR);
        }
      }
    }
  }

  lemma SqueezeUnder(f: real, z: real)
    requires 0.0 < f <= LARGEST_FACTOR < z && Close(f, z)
    ensures Close(LARGEST_FACTOR, f)
  {
  }

  lemma FallingPair(s: seq<Sample>, i: nat)
    requires Curve(s) && 1 <= i < |s| && s[i - 1].workload > s[i].workload && !Close(s[i - 1].factor, LARGEST_FACTOR)
    ensures !MonotoneEstimates(s)
  {
    var t, t' := LastTarget(s[i - 1].factor), LastTarget(s[i].factor);
    BeforeReached(s, i - 1, i);
    LastTargetSnaps(s, i - 1);
    LastTargetSnaps(s, i);
    assert t <= t' by { FurthestIsClose(s[i - 1].factor); }
    hide Close;
    assert EstimateIs(s, t, s[i - 1].workload) && EstimateIs(s, t', s[i].workload);
  }

  /** Estimates rise with the target exactly when the curve rises as far as any
      target can reach. */
  lemma MonotoneIff(s: seq<Sample>)
    requires Curve(s)
    ensures MonotoneEstimates(s) <==> Rises(s)
  {
    hide Close;
    hide Curve;
    hide EstimateIs;
    if Rises(s) {
      hide Rises;
      forall t, t', v, v' | TargetOk(t) && TargetOk(t') && t <= t' && EstimateIs(s, t, v) && EstimateIs(s, t', v')
        ensures v <= v'
      {
        RisingPair(s, t, t', v, v');
      }
    } else {
      var i :| 1 <= i < |s| && !(s[i - 1].workload <= s[i].workload || Close(s[i - 1].factor, LARGEST_FACTOR));
      FallingPair(s, i);
    }
  }

  /** In particular on every exactly non-decreasing curve, where moreover no
      estimate leaves the range of the observations. */
  lemma NonDecreasingCurve(s: seq<Sample>, t: real, v: real)
    requires Curve(s) && (forall i | 1 <= i < |s| :: s[i - 1].workload <= s[i].workload)
    ensures MonotoneEstimates(s)
    ensures TargetOk(t) && EstimateIs(s, t, v) ==> s[0].workload <= v <= s[|s| - 1].workload && InRange(s, t)
  {
    assert Rises(s);
    MonotoneIff(s);
    if TargetOk(t) && EstimateIs(s, t, v) {
      var lo, hi := EstimateUses(s, t, v);
      Ascends(s, 0, lo);
      Ascends(s, lo, hi);
      Ascends(s, hi, |s| - 1);
      UsedInRange(s, t, lo, hi);
    }
  }

  lemma {:induction false} Ascends(s: seq<Sample>, j: nat, k: nat)
    requires j <= k < |s| && (forall i | 1 <= i < |s| :: s[i - 1].workload <= s[i].workload)
    ensures s[j].workload <= s[k].workload
  {
    if j < k { Ascends(s, j, k - 1); }
  }

  lemma UsedInRange(s: seq<Sample>, t: real, lo: nat, hi: nat)
    requires Curve(s) && TargetOk(t) && Uses(s, t, lo, hi)
    ensures InRange(s, t)
  {
    var first, last := s[0].factor, s[|s| - 1].factor;
    if lo == hi && SnapsTo(s, t, lo) {
      if t < first { Squeeze(t, first, s[lo].factor); }
      if last < t {
        CloseSymmetric(t, s[lo].factor);
        Squeeze(s[lo].factor, last, t);
      }
    }
  }

  // ----- what a ready curve promises -----

  /** The builder's test: no workload falls by more than the tolerance. */
  ghost predicate NearlyRises(s: seq<Sample>)
  {
    forall i | 1 <= i < |s| :: !Drops(s[i - 1], s[i])
  }

  predicate Drops(previous: Sample, current: Sample)
  {
    current.workload + Tolerance(previous.workload, current.workload) < previous.workload
  }

  function DippingSamples(): seq<Sample>
  {
    [Sample(1.0, 100.0), Sample(2.0, 99.999_999_95), Sample(3.0, 200.0)]
  }

  /** That is not enough for estimates to rise: a dip within the tolerance shows. */
  lemma DipWithinTolerance()
    ensures Curve(DippingSamples()) && NearlyRises(DippingSamples())
    ensures !Rises(DippingSamples()) && !MonotoneEstimates(DippingSamples())
  {
    var s := DippingSamples();
    assert !Close(s[0].factor, LARGEST_FACTOR) && s[0].workload > s[1].workload;
    FallingPair(s, 1);
  }
}
