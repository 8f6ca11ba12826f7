/** Workload curves and their estimates, said of the points and the target as
    they were given (internal/capacity/workload_curve.go). */
module CurveMeaning {
  import opened CurvePoints
  import opened Reals
  import opened WorkloadCurve
  import Seqs
  import Sorting
  import Text

  // ----- tolerance -----

  function Larger(x: real, y: real): real { if x < y then y else x }

  /** A billionth of the larger value, or of 1. */
  function Leeway(x: real, y: real): real { Larger(1.0, Larger(x, y)) * 0.000_000_001 }

  predicate Within(x: real, y: real) { x - y <= Leeway(x, y) && y - x <= Leeway(x, y) }

  lemma LeewayIs(x: real, y: real)
    requires 0.0 < x && 0.0 < y
    ensures Leeway(x, y) == Tolerance(x, y)
    ensures x <= 1000.0 && y <= 1000.0 ==> (Within(x, y) <==> Close(x, y))
  {
  }

  // ----- what is built -----

  function Clean(p: Point): Point { p.(id := Text.Trim(p.id), profileID := Text.Trim(p.profileID)) }

  /** The points as listed, cleaned and in ascending order of their factors. */
  ghost predicate Arranges(sorted: seq<Point>, points: seq<Point>)
  {
    && |sorted| == |points| && (forall p | p in points :: Clean(p) in sorted)
    && (forall q | q in sorted :: exists p | p in points :: Clean(p) == q)
    && forall i, j | 0 <= i < j < |sorted| :: sorted[i].factor < sorted[j].factor
  }

  /** No point falls below the one before it by more than the leeway. */
  ghost predicate NeverFalls(sorted: seq<Point>)
  {
    forall i | 1 <= i < |sorted| ::
      sorted[i - 1].workload <= sorted[i].workload + Leeway(sorted[i - 1].workload, sorted[i].workload)
  }

  lemma CleanIs(p: Point)
    ensures Clean(p) == Trimmed(p)
  {
  }

  lemma ArrangedBuilt(request: Request, points: seq<Point>)
    requires Admissible(request, points)
    ensures Arranges(Sorted(Seqs.Map(Trimmed, points)), points)
    ensures PointsOk(Sorted(Seqs.Map(Trimmed, points)))
  {
    var all := Seqs.Map(Trimmed, points);
    var sorted := Sorted(all);
    Sorting.SameElements(sorted, all);
    PointsOkPermuted(all, sorted);
    hide PointOk;
    hide RequestOk;
    hide Text.Trim;
    hide Sorted;
    forall p | p in points ensures Clean(p) in sorted {
      CleanIs(p);
      var i :| 0 <= i < |points| && points[i] == p;
      assert all[i] == Trimmed(p);
    }
    forall q | q in sorted ensures exists p | p in points :: Clean(p) == q {
      assert q in all;
      var i :| 0 <= i < |all| && all[i] == q;
      CleanIs(points[i]);
      assert points[i] in points && Clean(points[i]) == q;
    }
    forall i, j | 0 <= i < j < |sorted| ensures sorted[i].factor < sorted[j].factor {
      assert Factor(sorted[i]) != Factor(sorted[j]);
      assert !Before(sorted[j], sorted[i]);
    }
  }

  lemma RisesIs(sorted: seq<Point>)
    requires PointsOk(sorted)
    ensures NearlyRises(Samples(sorted)) <==> NeverFalls(sorted)
  {
    var s := Samples(sorted);
    forall i | 0 <= i < |sorted| ensures s[i].workload == sorted[i].workload && s[i].workload > 0.0 {
      assert PointOk(sorted[i]);
    }
    hide PointsOk;
    forall i | 1 <= i < |s|
      ensures !Drops(s[i - 1], s[i]) <==>
              sorted[i - 1].workload <= sorted[i].workload + Leeway(sorted[i - 1].workload, sorted[i].workload)
    {
      LeewayIs(s[i - 1].workload, s[i].workload);
    }
    hide Leeway;
    hide Drops;
  }

  // ----- confidence -----

  lemma {:induction false} WeakestMeans(points: seq<Point>)
    requires points != [] && forall p | p in points :: !p.confidence.UnknownLevel?
    ensures !Weakest(points).UnknownLevel?
    ensures Weakest(points).Low? <==> exists p | p in points :: p.confidence.Low?
    ensures Weakest(points).High? <==> forall p | p in points :: p.confidence.High?
  {
    if |points| > 1 {
      var n := |points| - 1;
      var front, last := points[..n], points[n];
      assert points == front + [last] && last in points;
      WeakestMeans(front);
      hide Weakest;
      WeakestNext(points);
      if p :| p in points && p.confidence.Low? { assert p in front || p == last; }
      if forall p | p in points :: p.confidence.High? { assert forall p | p in front :: p in points; }
    } else {
      assert points == [points[0]];
    }
  }

  lemma WeakestNext(points: seq<Point>)
    requires |points| > 1
    ensures var last, front := points[|points| - 1].confidence, Weakest(points[..|points| - 1]);
            Weakest(points) == if Rank(last) < Rank(front) then last else front
  {
  }

  /** The curve of the listed points: ready exactly when it never falls, and as
      certain as its least certain point. */
  ghost predicate Means(e: Evidence, request: Request, points: seq<Point>)
  {
    && e.request == request.(scopeID := Text.Trim(request.scopeID), unit := Text.Lower(Text.Trim(request.unit)))
    && Arranges(e.points, points)
    && (if NeverFalls(e.points) then e.status.Ready? && e.reason.CurveReady? else e.status.Blocked? && e.reason.NonMonotonic?)
    && !e.confidence.UnknownLevel? && (e.confidence.Low? <==> exists p | p in points :: p.confidence.Low?)
    && (e.confidence.High? <==> forall p | p in points :: p.confidence.High?)
    && e.schemaOk && e.advisoryOnly && !e.productionMutation
  }

  lemma ConfidenceListed(sorted: seq<Point>, points: seq<Point>)
    requires PointsOk(sorted) && sorted != [] && Arranges(sorted, points)
    ensures !Weakest(sorted).UnknownLevel?
    ensures Weakest(sorted).Low? <==> exists p | p in points :: p.confidence.Low?
    ensures Weakest(sorted).High? <==> forall p | p in points :: p.confidence.High?
  {
    forall p | p in sorted ensures !p.confidence.UnknownLevel? { assert PointOk(p); }
    hide PointsOk;
    hide Weakest;
    hide Text.Trim;
    WeakestMeans(sorted);
    if p :| p in points && p.confidence.Low? { assert Clean(p) in sorted && Clean(p).confidence.Low?; }
    if q :| q in sorted && q.confidence.Low? {
      var p :| p in points && Clean(p) == q;
      assert p.confidence.Low?;
    }
    if forall p | p in points :: p.confidence.High? {
      forall q | q in sorted ensures q.confidence.High? { var p :| p in points && Clean(p) == q; }
    }
    if forall q | q in sorted :: q.confidence.High? {
      forall p | p in points ensures p.confidence.High? { assert Clean(p) in sorted; }
    }
  }

  lemma CurveMeans(request: Request, sorted: seq<Point>, points: seq<Point>)
    requires PointsOk(sorted) && sorted != [] && Arranges(sorted, points)
    ensures Means(CurveOf(Normal(request), sorted), request, points)
  {
    hide PointsOk;
    hide Arranges;
    hide NearlyRises;
    hide NeverFalls;
    hide Weakest;
    hide Text.Trim;
    hide Text.Lower;
    RisesIs(sorted);
    ConfidenceListed(sorted, points);
  }

  lemma BuiltIs(request: Request, points: seq<Point>)
    requires Built(request, points).Some?
    ensures Admissible(request, points) && |points| >= 3
    ensures |Sorted(Seqs.Map(Trimmed, points))| == |points|
    ensures Built(request, points).value == CurveOf(Normal(request), Sorted(Seqs.Map(Trimmed, points)))
  {
    hide Admissible;
    hide CurveOf;
    hide Sorted;
    AtLeastThreePoints(request, points);
    Sorting.SameElements(Sorted(Seqs.Map(Trimmed, points)), Seqs.Map(Trimmed, points));
  }

  lemma BuiltMeans(request: Request, points: seq<Point>)
    requires Built(request, points).Some?
    ensures Means(Built(request, points).value, request, points)
  {
    hide *;
    BuiltIs(request, points);
    ArrangedBuilt(request, points);
    CurveMeans(request, Sorted(Seqs.Map(Trimmed, points)), points);
  }

  /** Built curves with one identity are the same curve. */
  lemma CurveIDDecides(request: Request, points: seq<Point>, other: Request, others: seq<Point>)
    requires Built(request, points).Some? && Built(other, others).Some?
    requires Built(request, points).value.id == Built(other, others).value.id
    ensures Built(request, points) == Built(other, others)
  {
    hide Admissible;
    hide Normal;
    hide Trimmed;
    hide Sorted;
    hide NearlyRises;
    hide Weakest;
    Sorting.SameElements(Sorted(Seqs.Map(Trimmed, points)), Seqs.Map(Trimmed, points));
    Sorting.SameElements(Sorted(Seqs.Map(Trimmed, others)), Seqs.Map(Trimmed, others));
    assert points != [] && others != [] by {
      SomePoints(request, points);
      SomePoints(other, others);
    }
  }

  lemma SomePoints(request: Request, points: seq<Point>)
    requires Built(request, points).Some?
    ensures points != []
  {
    hide PointsOk;
    hide CurveOf;
    hide Sorted;
    AtLeastThreePoints(request, points);
  }

  /** Accepted evidence with one identity agrees in all that was judged, and its
      points are the same but for order and surrounding spaces. */
  lemma TamperingShows(e: Evidence, e': Evidence)
    requires Genuine(e) && Genuine(e') && e.id == e'.id
    ensures e.status == e'.status && e.reason == e'.reason && e.confidence == e'.confidence
    ensures exists sorted :: Arranges(sorted, e.points) && Arranges(sorted, e'.points)
    ensures e.request.minimumPoints == e'.request.minimumPoints
  {
    hide Built;
    CurveIDDecides(e.request, e.points, e'.request, e'.points);
    BuiltMeans(e.request, e.points);
    BuiltMeans(e'.request, e'.points);
    hide Arranges;
    hide NeverFalls;
    var built := Built(e.request, e.points).value;
    assert Arranges(built.points, e.points) && Arranges(built.points, e'.points);
  }

  // ----- what is accepted -----

  predicate PointListed(p: Point)
  {
    && Text.IsIdentifier(Text.Trim(p.id), 255, true) && IsProfileID(Text.Trim(p.profileID))
    && 0.0 < p.factor <= 1000.0 && 0.0 < p.workload <= 1_000_000_000_000.0
    && (p.confidence.Low? || p.confidence.Medium? || p.confidence.High?)
  }

  /** No two positions share a trimmed identifier, a trimmed profile or a factor. */
  predicate AllApart(points: seq<Point>)
  {
    forall i, j | 0 <= i < j < |points| ::
      && Text.Trim(points[i].id) != Text.Trim(points[j].id)
      && Text.Trim(points[i].profileID) != Text.Trim(points[j].profileID) && points[i].factor != points[j].factor
  }

  lemma PointListedIs(p: Point)
    ensures PointListed(p) <==> PointOk(Trimmed(p))
  {
    hide Text.Trim;
    hide Text.IsIdentifier;
    hide IsProfileID;
  }

  lemma AllApartIs(points: seq<Point>)
    ensures AllApart(points) <==>
            var all := Seqs.Map(Trimmed, points);
            Sorting.DistinctKeys(all, PointID) && Sorting.DistinctKeys(all, ProfileID) && Sorting.DistinctKeys(all, Factor)
  {
    hide Text.Trim;
    var all := Seqs.Map(Trimmed, points);
    forall i | 0 <= i < |points|
      ensures PointID(all[i]) == Text.Trim(points[i].id) && ProfileID(all[i]) == Text.Trim(points[i].profileID)
      ensures Factor(all[i]) == points[i].factor
    {
    }
    hide Trimmed;
    hide PointID;
    hide ProfileID;
    hide Factor;
  }

  /** A curve is built exactly from enough valid points, nothing repeated, for a
      known scope and unit. */
  lemma BuiltIff(request: Request, points: seq<Point>)
    ensures Built(request, points).Some? <==>
            && Text.IsIdentifier(Text.Trim(request.scopeID), 255, true)
            && Text.Lower(Text.Trim(request.unit)) in
               {"devices", "concurrent-sessions", "jobs-per-minute", "requests-per-second", "instances"}
            && 3 <= request.minimumPoints <= |points| <= 64
            && (forall p | p in points :: PointListed(p)) && AllApart(points)
  {
    hide CurveOf;
    hide Sorted;
    hide PointListed;
    hide PointOk;
    hide AllApart;
    hide Trimmed;
    hide Sorting.DistinctKeys;
    hide Text.Trim;
    hide Text.Lower;
    hide Text.IsIdentifier;
    var all := Seqs.Map(Trimmed, points);
    AllApartIs(points);
    assert (forall p | p in points :: PointListed(p)) <==> (forall q | q in all :: PointOk(q)) by {
      forall i | 0 <= i < |points| ensures PointListed(points[i]) <==> PointOk(all[i]) { PointListedIs(points[i]); }
      if forall p | p in points :: PointListed(p) {
        forall q | q in all ensures PointOk(q) {
          var i :| 0 <= i < |all| && all[i] == q;
          assert points[i] in points;
        }
      }
      if forall q | q in all :: PointOk(q) {
        forall p | p in points ensures PointListed(p) {
          var i :| 0 <= i < |points| && points[i] == p;
          assert all[i] in all;
        }
      }
    }
  }

  // ----- what is estimated -----

  /** The first sample within the leeway of the target. */
  ghost predicate FirstNear(points: seq<Point>, t: real, k: nat)
  {
    k < |points| && Within(t, points[k].factor) && forall j | 0 <= j < k :: !Within(t, points[j].factor)
  }

  /** The value lies on the line through two neighbours around the target. */
  predicate OnLine(left: Point, right: Point, t: real, v: real)
  {
    && left.factor < t < right.factor
    && (v - left.workload) * (right.factor - left.factor) == (right.workload - left.workload) * (t - left.factor)
  }

  ghost predicate Observed(points: seq<Point>, t: real)
    requires points != []
  {
    var first, last := points[0].factor, points[|points| - 1].factor;
    first - Leeway(t, first) <= t <= last + Leeway(t, last)
  }

  lemma InterpolatedOnLine(left: Point, right: Point, t: real)
    requires left.factor < t < right.factor
    ensures OnLine(left, right, t, Interpolated(SampleOf(left), SampleOf(right), t))
  {
    var u := Fraction(SampleOf(left), SampleOf(right), t);
    var run, rise := right.factor - left.factor, right.workload - left.workload;
    Scaled(t - left.factor, run);
    assert u == (t - left.factor) / run && u * run == t - left.factor;
    assert Interpolated(SampleOf(left), SampleOf(right), t) - left.workload == u * rise;
    Regrouped(u, rise, run);
  }

  lemma Scaled(x: real, y: real)
    requires y != 0.0
    ensures x / y * y == x
  {
  }

  lemma Regrouped(u: real, rise: real, run: real)
    ensures u * rise * run == rise * (u * run)
  {
  }

  /** An answer on a curve: nothing for a curve that falls or beyond what was observed;
      the workload of the first sample about there; else what the line between the
      neighbours says. */
  ghost predicate Says(a: Estimate, curve: Evidence, t: real)
    requires curve.points != []
  {
    && a.curve == curve.id && a.target == t
    && (a.status.Blocked? <==> !NeverFalls(curve.points))
    && (a.status.Ready? <==> NeverFalls(curve.points) && Observed(curve.points, t))
    && (a.status.Ready? || a.status.Blocked? || a.status.CollectEvidence?)
    && (a.value.Some? <==> a.status.Ready?)
    && (a.value.Some? ==>
          || (exists k: nat :: FirstNear(curve.points, t, k) && a.value.value == curve.points[k].workload)
          || (&& (forall k: nat :: !FirstNear(curve.points, t, k))
              && exists i: nat :: i + 1 < |curve.points| && OnLine(curve.points[i], curve.points[i + 1], t, a.value.value)))
  }

  lemma FactorBounds(points: seq<Point>, k: nat)
    requires PointsOk(points) && k < |points|
    ensures 0.0 < points[k].factor <= 1000.0
  {
    assert PointOk(points[k]);
  }

  lemma NearIs(points: seq<Point>, t: real, k: nat)
    requires PointsOk(points) && TargetOk(t)
    ensures FirstNear(points, t, k) <==> SnapsTo(Samples(points), t, k)
  {
    forall j: nat | j < |points| ensures Within(t, points[j].factor) <==> Close(t, Samples(points)[j].factor) {
      FactorBounds(points, j);
      LeewayIs(t, points[j].factor);
    }
    hide PointsOk;
    hide Within;
    hide Close;
  }

  lemma ObservedIs(points: seq<Point>, t: real)
    requires PointsOk(points) && points != [] && TargetOk(t)
    ensures Observed(points, t) <==> InRange(Samples(points), t)
  {
    FactorBounds(points, 0);
    FactorBounds(points, |points| - 1);
    LeewayIs(t, points[0].factor);
    LeewayIs(t, points[|points| - 1].factor);
    hide Leeway;
    hide Tolerance;
    hide PointsOk;
  }

  /** The two ways to an estimate, of the points themselves. */
  lemma EstimateSays(points: seq<Point>, t: real, v: real)
    requires PointsOk(points) && TargetOk(t) && EstimateIs(Samples(points), t, v)
    ensures || (exists k: nat :: FirstNear(points, t, k) && v == points[k].workload)
            || (&& (forall k: nat :: !FirstNear(points, t, k))
                && exists i: nat :: i + 1 < |points| && OnLine(points[i], points[i + 1], t, v))
  {
    hide FirstNear;
    hide OnLine;
    var s := Samples(points);
    if k: nat :| SnapsTo(s, t, k) && v == s[k].workload {
      NearIs(points, t, k);
    } else {
      var i: nat :| Inside(s, t, i) && v == Interpolated(s[i - 1], s[i], t);
      InterpolatedOnLine(points[i - 1], points[i], t);
      assert i - 1 + 1 < |points| && OnLine(points[i - 1], points[i - 1 + 1], t, v);
      forall k: nat ensures !FirstNear(points, t, k) { NearIs(points, t, k); }
    }
  }

  lemma AnswerMeans(request: Request, points: seq<Point>, a: Estimate, t: real)
    requires Built(request, points).Some? && TargetOk(t)
    requires |Built(request, points).value.points| > 0 && Answers(a, Built(request, points).value, t)
    ensures Says(a, Built(request, points).value, t)
  {
    var e := Built(request, points).value;
    BuiltMeans(request, points);
    BuiltPoints(request, points);
    hide Built;
    hide Arranges;
    hide NeverFalls;
    hide Observed;
    hide PointsOk;
    hide FirstNear;
    hide OnLine;
    hide EstimateIs;
    hide InRange;
    ObservedIs(e.points, t);
    if a.value.Some? { EstimateSays(e.points, t, a.value.value); }
  }

  lemma BuiltPoints(request: Request, points: seq<Point>)
    requires Built(request, points).Some?
    ensures PointsOk(Built(request, points).value.points)
  {
    hide *;
    BuiltIs(request, points);
    ArrangedBuilt(request, points);
    CurveHolds(Normal(request), Sorted(Seqs.Map(Trimmed, points)));
  }

  lemma CurveHolds(request: Request, sorted: seq<Point>)
    requires sorted != []
    ensures CurveOf(request, sorted).points == sorted
  {
  }
}
