/** Building a workload curve from measured points and estimating on it
    (internal/capacity/workload_curve.go). */
module WorkloadCurve {
  import opened CurvePoints
  import opened Options
  import opened Reals
  import Seqs
  import Sorting
  import Text

  datatype Level = Low | Medium | High | UnknownLevel(text: string)
  datatype Point = Point(id: string, profileID: string, factor: real, workload: real, confidence: Level)
  datatype Request = Request(scopeID: string, unit: string, minimumPoints: int)
  datatype Status = Ready | Blocked | CollectEvidence | UnknownStatus(text: string)
  datatype Reason = CurveReady | NonMonotonic | OtherReason(text: string)

  /** The identity is a digest of the request and the points, taken as injective. */
  datatype Digest = Sha256Of(request: Request, points: seq<Point>) | OtherText(text: string)

  datatype Evidence = Evidence(
    schemaOk: bool, id: Digest, request: Request, points: seq<Point>, status: Status, reason: Reason, confidence: Level,
    advisoryOnly: bool, productionMutation: bool)

  datatype Estimate = Estimate(curve: Digest, target: real, value: Option<real>, status: Status)

  // ----- admission -----

  function Trimmed(p: Point): Point { p.(id := Text.Trim(p.id), profileID := Text.Trim(p.profileID)) }
  function Normal(r: Request): Request { r.(scopeID := Text.Trim(r.scopeID), unit := Text.Lower(Text.Trim(r.unit))) }
  function PointID(p: Point): string { p.id }
  function ProfileID(p: Point): string { p.profileID }
  function Factor(p: Point): real { p.factor }

  predicate IsUnit(s: string)
  {
    s in {"devices", "concurrent-sessions", "jobs-per-minute", "requests-per-second", "instances"}
  }

  /** "wlp-" and twenty-four lower-case hexadecimal digits. */
  predicate IsProfileID(s: string)
  {
    |s| == 28 && s[..4] == "wlp-" && forall i | 4 <= i < 28 :: '0' <= s[i] <= '9' || 'a' <= s[i] <= 'f'
  }

  predicate PointOk(p: Point)
  {
    && Text.IsIdentifier(p.id, 255, true) && IsProfileID(p.profileID)
    && SampleOk(SampleOf(p)) && !p.confidence.UnknownLevel?
  }

  predicate RequestOk(r: Request)
  {
    Text.IsIdentifier(r.scopeID, 255, true) && IsUnit(r.unit) && 3 <= r.minimumPoints <= 64
  }

  ghost predicate PointsOk(points: seq<Point>)
  {
    && (forall p | p in points :: PointOk(p))
    && Sorting.DistinctKeys(points, PointID) && Sorting.DistinctKeys(points, ProfileID) && Sorting.DistinctKeys(points, Factor)
  }

  ghost predicate Admissible(request: Request, points: seq<Point>)
  {
    && RequestOk(Normal(request)) && request.minimumPoints <= |points| <= 64
    && PointsOk(Seqs.Map(Trimmed, points))
  }

  // ----- the curve -----

  function SampleOf(p: Point): Sample { Sample(p.factor, p.workload) }
  function Samples(points: seq<Point>): seq<Sample> { Seqs.Map(SampleOf, points) }

  predicate Before(a: Point, b: Point)
  {
    if a.factor == b.factor then Text.Less(a.id, b.id) else a.factor < b.factor
  }

  lemma BeforeOrders(points: seq<Point>)
    ensures Sorting.Orders(points, Before)
  {
    Text.LessIsStrictTotal();
  }

  function Sorted(points: seq<Point>): (r: seq<Point>)
    ensures multiset(r) == multiset(points) && Sorting.SortedBy(r, Before)
  {
    BeforeOrders(points);
    Sorting.SortBy(points, Before)
  }

  function Rank(l: Level): int
  {
    match l case High => 3 case Medium => 2 case Low => 1 case UnknownLevel(_) => 0
  }

  /** The weakest confidence; the first of equals. */
  function Weakest(points: seq<Point>): Level
    requires points != []
  {
    if |points| == 1 then points[0].confidence
    else
      var last, front := points[|points| - 1].confidence, Weakest(points[..|points| - 1]);
      if Rank(last) < Rank(front) then last else front
  }

  /** The curve of a normal request and sorted points. */
  ghost function CurveOf(request: Request, sorted: seq<Point>): Evidence
    requires sorted != []
  {
    var rising := NearlyRises(Samples(sorted));
    Evidence(true, Sha256Of(request, sorted), request, sorted, if rising then Ready else Blocked,
             if rising then CurveReady else NonMonotonic, Weakest(sorted), true, false)
  }

  /** What the builder makes of its input. */
  ghost function Built(request: Request, points: seq<Point>): Option<Evidence>
  {
    if !Admissible(request, points) then None
    else
      var sorted := Sorted(Seqs.Map(Trimmed, points));
      Sorting.SameElements(sorted, Seqs.Map(Trimmed, points));
      Some(CurveOf(Normal(request), sorted))
  }

  /** The points of a built curve make a curve in the estimator's sense. */
  lemma SortedIsCurve(points: seq<Point>)
    requires PointsOk(points) && Sorting.SortedBy(points, Before) && |points| >= 2
    ensures Curve(Samples(points))
  {
    hide PointOk;
    var s := Samples(points);
    forall i | 0 <= i < |s| ensures SampleOk(s[i]) {
      assert points[i] in points;
      PointIsSample(points[i]);
    }
    forall i, j | 0 <= i < j < |s| ensures s[i].factor < s[j].factor {
      assert Factor(points[i]) != Factor(points[j]);
      assert !Before(points[j], points[i]);
    }
  }

  lemma PointIsSample(p: Point)
    requires PointOk(p)
    ensures SampleOk(SampleOf(p))
  {
  }

  lemma PointsOkPermuted(a: seq<Point>, b: seq<Point>)
    requires multiset(a) == multiset(b) && PointsOk(a)
    ensures PointsOk(b)
  {
    hide PointOk;
    Sorting.SameElements(a, b);
    Sorting.DistinctPermuted(a, b, PointID);
    Sorting.DistinctPermuted(a, b, ProfileID);
    Sorting.DistinctPermuted(a, b, Factor);
  }

  lemma FactorsSeparate(points: seq<Point>)
    requires Sorting.DistinctKeys(points, Factor)
    ensures Sorting.Separates(points, Before)
  {
    forall a, b | a in points && b in points && a != b ensures Before(a, b) || Before(b, a) {
      if a.factor == b.factor { Sorting.SameKeySameElement(points, Factor, a, b); }
    }
  }

  /** Any order of the points builds the same curve. */
  lemma BuiltIgnoresOrder(request: Request, a: seq<Point>, b: seq<Point>)
    requires multiset(a) == multiset(b) && Admissible(request, a)
    ensures Built(request, a) == Built(request, b)
  {
    Seqs.MapPermuted(Trimmed, a, b);
    var p, q := Seqs.Map(Trimmed, a), Seqs.Map(Trimmed, b);
    Sorting.SameElements(a, b);
    PointsOkPermuted(p, q);
    hide PointOk;
    hide RequestOk;
    hide Normal;
    hide Before;
    PointsOkPermuted(p, Sorted(p));
    FactorsSeparate(Sorted(p));
    Sorting.SortedUnique(Sorted(p), Sorted(q), Before);
  }

  // ----- accepting a curve -----

  /** The evidence is what the builder makes of its own parts. */
  ghost predicate Genuine(e: Evidence)
  {
    && e.schemaOk && e.advisoryOnly && !e.productionMutation
    && var rebuilt := Built(e.request, e.points);
       && rebuilt.Some? && rebuilt.value.id == e.id && rebuilt.value.status == e.status
       && rebuilt.value.reason == e.reason && rebuilt.value.confidence == e.confidence
  }

  lemma TrimmedStays(p: Point)
    requires PointOk(p)
    ensures Trimmed(p) == p
  {
    Text.TrimIdentifier(p.id, 255, true);
    ProfileTrims(p.profileID);
  }

  lemma ProfileTrims(s: string)
    requires IsProfileID(s)
    ensures Text.Trim(s) == s
  {
    assert s[0] == s[..4][0] == 'w' && !Text.IsSpace(s[0]) && !Text.IsSpace(s[27]);
  }

  lemma NormalStays(r: Request)
    requires RequestOk(Normal(r))
    ensures Normal(Normal(r)) == Normal(r)
  {
    Text.TrimIdempotent(r.scopeID);
    UnitStays(Normal(r).unit);
  }

  lemma UnitStays(unit: string)
    requires IsUnit(unit)
    ensures Text.Lower(Text.Trim(unit)) == unit
  {
    assert !Text.IsSpace(unit[0]) && !Text.IsSpace(unit[|unit| - 1]);
    assert Text.Trim(unit) == unit;
    LowerStays(unit);
  }

  lemma LowerStays(s: string)
    requires forall c | c in s :: !('A' <= c <= 'Z')
    ensures Text.Lower(s) == s
  {
    forall i | 0 <= i < |s| ensures Text.Lower(s)[i] == s[i] { assert s[i] in s; }
  }

  lemma SortedStays(points: seq<Point>)
    requires PointsOk(points)
    ensures |Sorted(points)| == |points| && PointsOk(Sorted(points))
    ensures Seqs.Map(Trimmed, Sorted(points)) == Sorted(points) && Sorted(Sorted(points)) == Sorted(points)
  {
    var sorted := Sorted(points);
    Sorting.SameElements(sorted, points);
    PointsOkPermuted(points, sorted);
    hide PointOk;
    hide Before;
    hide Trimmed;
    forall p | p in sorted ensures Trimmed(p) == p { TrimmedStays(p); }
    Seqs.MapFixed(Trimmed, sorted);
    FactorsSeparate(sorted);
    Sorting.SortedUnique(sorted, Sorted(sorted), Before);
  }

  lemma Rebuilt(request: Request, points: seq<Point>)
    requires Admissible(request, points)
    ensures Built(Normal(request), Sorted(Seqs.Map(Trimmed, points))) == Built(request, points)
  {
    NormalStays(request);
    SortedStays(Seqs.Map(Trimmed, points));
    hide PointsOk;
    hide RequestOk;
    hide Trimmed;
    hide Sorted;
    hide CurveOf;
    hide Text.Trim;
    hide Text.Lower;
  }

  /** The builder's own output is accepted, and rebuilding it changes nothing. */
  lemma BuiltIsGenuine(request: Request, points: seq<Point>)
    requires Built(request, points).Some?
    ensures var e := Built(request, points).value;
            Genuine(e) && Built(e.request, e.points) == Some(e)
  {
    hide Admissible;
    hide Normal;
    hide Trimmed;
    hide Sorted;
    hide CurveOf;
    Rebuilt(request, points);
    var sorted := Sorted(Seqs.Map(Trimmed, points));
    Sorting.SameElements(sorted, Seqs.Map(Trimmed, points));
    AtLeastThreePoints(request, points);
    CurveParts(Normal(request), sorted);
  }

  lemma AtLeastThreePoints(request: Request, points: seq<Point>)
    requires Admissible(request, points)
    ensures |points| >= 3
  {
    KeepsMinimum(request);
    AtLeastThree(Normal(request));
    hide RequestOk;
    hide PointsOk;
    hide Normal;
  }

  lemma CurveParts(request: Request, sorted: seq<Point>)
    requires sorted != []
    ensures CurveOf(request, sorted).request == request && CurveOf(request, sorted).points == sorted
    ensures CurveOf(request, sorted).schemaOk && CurveOf(request, sorted).advisoryOnly && !CurveOf(request, sorted).productionMutation
  {
  }

  // ----- the builder -----

  method NormalizePoints(points: seq<Point>) returns (ok: bool, normalized: seq<Point>)
    ensures ok <==> PointsOk(Seqs.Map(Trimmed, points))
    ensures ok ==> normalized == Seqs.Map(Trimmed, points)
  {
    ghost var all := Seqs.Map(Trimmed, points);
    normalized := [];
    var pointIDs: set<string>, profileIDs: set<string>, factors: set<real> := {}, {}, {};
    assert Kept(pointIDs, profileIDs, factors, all[..0]);
    hide PointOk;
    hide Trimmed;
    hide Kept;
    hide PointsOk;
    for k := 0 to |points|
      invariant normalized == all[..k] && Kept(pointIDs, profileIDs, factors, all[..k])
    {
      var point := Trimmed(points[k]);
      assert point == all[k] && all[..k + 1] == all[..k] + [point];
      KeptNext(pointIDs, profileIDs, factors, all, k);
      if !PointOk(point) || PointID(point) in pointIDs || ProfileID(point) in profileIDs || Factor(point) in factors {
        return false, [];
      }
      pointIDs, profileIDs, factors := pointIDs + {PointID(point)}, profileIDs + {ProfileID(point)}, factors + {Factor(point)};
      normalized := normalized + [point];
    }
    assert all[..|all|] == all;
    KeptAll(pointIDs, profileIDs, factors, all);
    ok := true;
  }

  /** What the admission loop has seen of valid points so far. */
  ghost predicate Kept(pointIDs: set<string>, profileIDs: set<string>, factors: set<real>, s: seq<Point>)
  {
    && (forall p | p in s :: PointOk(p))
    && Sorting.SeenKeys(pointIDs, s, PointID) && Sorting.SeenKeys(profileIDs, s, ProfileID)
    && Sorting.SeenKeys(factors, s, Factor)
  }

  lemma KeptNext(pointIDs: set<string>, profileIDs: set<string>, factors: set<real>, s: seq<Point>, k: nat)
    requires k < |s| && Kept(pointIDs, profileIDs, factors, s[..k])
    ensures if PointOk(s[k]) && PointID(s[k]) !in pointIDs && ProfileID(s[k]) !in profileIDs && Factor(s[k]) !in factors then
              Kept(pointIDs + {PointID(s[k])}, profileIDs + {ProfileID(s[k])}, factors + {Factor(s[k])}, s[..k + 1])
            else !PointsOk(s)
  {
    hide PointOk;
    hide Sorting.SeenKeys;
    hide Sorting.DistinctKeys;
    assert s[k] in s && s[..k + 1] == s[..k] + [s[k]];
    Sorting.SeenNext(pointIDs, s, PointID, k);
    Sorting.SeenNext(profileIDs, s, ProfileID, k);
    Sorting.SeenNext(factors, s, Factor, k);
  }

  lemma KeptAll(pointIDs: set<string>, profileIDs: set<string>, factors: set<real>, s: seq<Point>)
    requires Kept(pointIDs, profileIDs, factors, s)
    ensures PointsOk(s)
  {
    hide PointOk;
    hide Sorting.SeenKeys;
    hide Sorting.DistinctKeys;
    Sorting.SeenAll(pointIDs, s, PointID);
    Sorting.SeenAll(profileIDs, s, ProfileID);
    Sorting.SeenAll(factors, s, Factor);
  }

  method ScanStatus(sorted: seq<Point>) returns (status: Status, reason: Reason)
    ensures status == (if NearlyRises(Samples(sorted)) then Ready else Blocked)
    ensures reason == (if NearlyRises(Samples(sorted)) then CurveReady else NonMonotonic)
  {
    hide Drops;
    ghost var s := Samples(sorted);
    status, reason := Ready, CurveReady;
    var index := 1;
    while index < |sorted|
      invariant 1 <= index && forall i | 1 <= i < index && i < |s| :: !Drops(s[i - 1], s[i])
    {
      if Drops(SampleOf(sorted[index - 1]), SampleOf(sorted[index])) {
        assert s[index - 1] == SampleOf(sorted[index - 1]) && s[index] == SampleOf(sorted[index]);
        return Blocked, NonMonotonic;
      }
      index := index + 1;
    }
  }

  method ScanConfidence(sorted: seq<Point>) returns (confidence: Level)
    requires sorted != []
    ensures confidence == Weakest(sorted)
  {
    confidence := sorted[0].confidence;
    for k := 1 to |sorted|
      invariant confidence == Weakest(sorted[..k])
    {
      assert sorted[..k + 1][..k] == sorted[..k];
      if Rank(sorted[k].confidence) < Rank(confidence) { confidence := sorted[k].confidence; }
    }
    assert sorted[..|sorted|] == sorted;
  }

  method BuildWorkloadCurve(request: Request, points: seq<Point>) returns (r: Option<Evidence>)
    ensures r == Built(request, points)
  {
    hide RequestOk;
    hide PointsOk;
    hide NearlyRises;
    hide Weakest;
    hide Normal;
    assert Normal(request).minimumPoints == request.minimumPoints by { KeepsMinimum(request); }
    if !RequestOk(Normal(request)) || |points| < request.minimumPoints || |points| > 64 { return None; }
    var ok, normalized := NormalizePoints(points);
    if !ok { return None; }
    AtLeastThree(Normal(request));
    var sorted := Sorted(normalized);
    Sorting.SameElements(sorted, normalized);
    hide Sorted;
    var status, reason := ScanStatus(sorted);
    var confidence := ScanConfidence(sorted);
    return Some(Evidence(true, Sha256Of(Normal(request), sorted), Normal(request), sorted, status, reason, confidence,
                         true, false));
  }

  lemma KeepsMinimum(r: Request)
    ensures Normal(r).minimumPoints == r.minimumPoints
  {
  }

  lemma AtLeastThree(r: Request)
    requires RequestOk(r)
    ensures r.minimumPoints >= 3
  {
  }

  // ----- the estimator -----

  datatype Result = Ok(estimate: Estimate) | InvalidRecommendation

  /** What an estimate on genuine evidence says: nothing for a blocked curve or
      outside the widened range, else a value by snapping or interpolation. */
  ghost predicate Answers(e: Estimate, curve: Evidence, t: real)
    requires |curve.points| > 0
  {
    && e.curve == curve.id && e.target == t
    && if curve.status.Blocked? then e.status == Blocked && e.value == None
       else if !InRange(Samples(curve.points), t) then e.status == CollectEvidence && e.value == None
       else e.status == Ready && e.value.Some? && EstimateIs(Samples(curve.points), t, e.value.value)
  }

  lemma BuiltCurve(request: Request, points: seq<Point>)
    requires Built(request, points).Some?
    ensures var e := Built(request, points).value;
            && Curve(Samples(e.points)) && |e.points| >= 2 && (e.status.Ready? || e.status.Blocked?)
  {
    hide Text.Trim;
    hide Text.Lower;
    hide Weakest;
    hide NearlyRises;
    var all := Seqs.Map(Trimmed, points);
    Sorting.SameElements(Sorted(all), all);
    PointsOkPermuted(all, Sorted(all));
    hide PointOk;
    hide Before;
    SortedIsCurve(Sorted(all));
  }

  /** Only invalid evidence and targets out of bounds are refused: the last error
      and the overflow error of the scan cannot occur. */
  method EstimateWorkloadCurve(evidence: Evidence, t: real) returns (r: Result)
    ensures r.Ok? <==> Genuine(evidence) && TargetOk(t)
    ensures r.Ok? ==> Built(evidence.request, evidence.points).Some? &&
                      |Built(evidence.request, evidence.points).value.points| > 0 &&
                      Answers(r.estimate, Built(evidence.request, evidence.points).value, t)
  {
    hide Built;
    if !evidence.schemaOk || !evidence.advisoryOnly || evidence.productionMutation { return InvalidRecommendation; }
    if !FinitePositive(t) || t > LARGEST_FACTOR { return InvalidRecommendation; }
    var rebuilt := BuildWorkloadCurve(evidence.request, evidence.points);
    if rebuilt.None? { return InvalidRecommendation; }
    var curve := rebuilt.value;
    if curve.id != evidence.id || curve.status != evidence.status || curve.reason != evidence.reason ||
       curve.confidence != evidence.confidence {
      return InvalidRecommendation;
    }
    BuiltCurve(evidence.request, evidence.points);
    if curve.status.Blocked? { return Ok(Estimate(curve.id, t, None, Blocked)); }
    if !curve.status.Ready? { assert false; }
    hide Genuine;
    var s := Samples(curve.points);
    if !InRange(s, t) { return Ok(Estimate(curve.id, t, None, CollectEvidence)); }
    var v := Resolve(s, t);
    return Ok(Estimate(curve.id, t, Some(v), Ready));
  }

  /** The two scans. */
  method Resolve(s: seq<Sample>, t: real) returns (v: real)
    requires Curve(s) && TargetOk(t) && InRange(s, t)
    ensures EstimateIs(s, t, v)
  {
    hide Close;
    hide Interpolated;
    for k := 0 to |s|
      invariant forall j | 0 <= j < k :: !Close(t, s[j].factor)
    {
      if Close(t, s[k].factor) {
        assert SnapsTo(s, t, k);
        return s[k].workload;
      }
    }
    Resolved(s, t);
    ghost var i: nat :| Inside(s, t, i);
    var index := 1;
    while index < |s|
      invariant 1 <= index <= i
    {
      var left, right := s[index - 1], s[index];
      if left.factor < t < right.factor {
        v := Interpolated(left, right, t);
        assert Inside(s, t, index);
        EstimateIsFinite(s, t, v);
        if !FinitePositive(v) { assert false; }
        return;
      }
      index := index + 1;
    }
    assert false;
  }

  // ----- do answers rise with the target? -----

  /** Of two answers with a value, the one for the larger target is no smaller. */
  ghost predicate AnswersRise(curve: Evidence)
    requires |curve.points| > 0
  {
    forall t, t', a, b | TargetOk(t) && TargetOk(t') && t <= t' && Answers(a, curve, t) && Answers(b, curve, t') &&
                         a.value.Some? && b.value.Some? :: a.value.value <= b.value.value
  }

  /** On a curve that was built and is ready, the answers rise with the target exactly
      when the workloads rise as far as any target can reach. */
  lemma ReadyAnswersRiseIff(request: Request, points: seq<Point>)
    requires Built(request, points).Some? && Built(request, points).value.status.Ready?
    ensures |Built(request, points).value.points| > 0
    ensures AnswersRise(Built(request, points).value) <==> Rises(Samples(Built(request, points).value.points))
  {
    var e := Built(request, points).value;
    BuiltCurve(request, points);
    hide Built;
    hide Samples;
    hide Curve;
    hide Rises;
    hide EstimateIs;
    MonotoneIff(Samples(e.points));
    AnswersAreEstimates(e);
  }

  lemma AnswersAreEstimates(e: Evidence)
    requires |e.points| > 0 && Curve(Samples(e.points)) && e.status.Ready?
    ensures AnswersRise(e) <==> MonotoneEstimates(Samples(e.points))
  {
    var s := Samples(e.points);
    hide Samples;
    hide Curve;
    hide InRange;
    hide EstimateIs;
    if AnswersRise(e) {
      forall t, t', v, v' | TargetOk(t) && TargetOk(t') && t <= t' && EstimateIs(s, t, v) && EstimateIs(s, t', v')
        ensures v <= v'
      {
        EstimateInRange(s, t, v);
        EstimateInRange(s, t', v');
        var a, b := Estimate(e.id, t, Some(v), Ready), Estimate(e.id, t', Some(v'), Ready);
        assert Answers(a, e, t) && Answers(b, e, t');
      }
    }
  }

  lemma EstimateInRange(s: seq<Sample>, t: real, v: real)
    requires Curve(s) && TargetOk(t) && EstimateIs(s, t, v)
    ensures InRange(s, t)
  {
    hide *;
    var lo, hi := EstimateUses(s, t, v);
    UsedInRange(s, t, lo, hi);
  }

  // ----- a ready curve whose answers fall -----

  function Profile(digit: char): string { "wlp-00000000000000000000000" + [digit] }

  function ExamplePoint(id: string, digit: char, factor: real, workload: real): Point
  {
    Point(id, Profile(digit), factor, workload, High)
  }

  lemma ExamplePointOk(id: string, digit: char, factor: real, workload: real)
    requires id in {"a", "b", "c"} && '0' <= digit <= '9' && SampleOk(Sample(factor, workload))
    ensures PointOk(ExamplePoint(id, digit, factor, workload))
    ensures Trimmed(ExamplePoint(id, digit, factor, workload)) == ExamplePoint(id, digit, factor, workload)
  {
    var s := Profile(digit);
    assert |s| == 28 && s[..4] == "wlp-" && forall i | 4 <= i < 27 :: s[i] == '0';
    TrimmedStays(ExamplePoint(id, digit, factor, workload));
  }

  function ExampleRequest(): Request { Request("s", "devices", 3) }

  /** Three valid points in ascending order, with nothing repeated, are their own
      normal and sorted form. */
  lemma ThreeInOrder(a: Point, b: Point, c: Point)
    requires PointOk(a) && PointOk(b) && PointOk(c) && a.factor < b.factor < c.factor
    requires a.id != b.id && b.id != c.id && a.id != c.id
    requires a.profileID != b.profileID && b.profileID != c.profileID && a.profileID != c.profileID
    ensures PointsOk([a, b, c]) && Seqs.Map(Trimmed, [a, b, c]) == [a, b, c] && Sorted([a, b, c]) == [a, b, c]
  {
    hide PointOk;
    hide Trimmed;
    TrimmedStays(a);
    TrimmedStays(b);
    TrimmedStays(c);
    hide Sorted;
    hide Sorting.DistinctKeys;
    ThreeSorted(a, b, c);
    ThreeDistinct(a, b, c, PointID);
    ThreeDistinct(a, b, c, ProfileID);
    ThreeDistinct(a, b, c, Factor);
    Seqs.MapFixed(Trimmed, [a, b, c]);
  }

  lemma ThreeDistinct<K>(a: Point, b: Point, c: Point, key: Point -> K)
    requires key(a) != key(b) && key(b) != key(c) && key(a) != key(c)
    ensures Sorting.DistinctKeys([a, b, c], key)
  {
  }

  lemma ThreeSorted(a: Point, b: Point, c: Point)
    requires a.factor < b.factor < c.factor
    ensures Sorted([a, b, c]) == [a, b, c]
  {
    var points := [a, b, c];
    assert !Before(b, a) && !Before(c, a) && !Before(c, b);
    assert Before(a, b) && Before(b, c) && Before(a, c);
    hide Before;
    assert Sorting.SortedBy(points, Before) && Sorting.Separates(points, Before);
    hide Sorting.SortedBy;
    hide Sorting.Separates;
    Sorting.SortedUnique(points, Sorted(points), Before);
  }

  lemma BuiltReady(request: Request, points: seq<Point>)
    requires RequestOk(Normal(request)) && request.minimumPoints <= |points| <= 64 && points != []
    requires PointsOk(points) && Seqs.Map(Trimmed, points) == points && Sorted(points) == points && NearlyRises(Samples(points))
    ensures Admissible(request, points) && Built(request, points).Some?
    ensures Built(request, points).value.status.Ready? && Built(request, points).value.points == points
  {
    hide RequestOk;
    hide PointsOk;
    hide Normal;
    hide Trimmed;
    hide Sorted;
    hide NearlyRises;
    hide Weakest;
  }

  /** An admissible request for a curve that is ready although its second workload is
      below the first by less than the tolerance, and whose answers fall. */
  lemma DipIsReady() returns (request: Request, points: seq<Point>)
    ensures Admissible(request, points) && Built(request, points).Some?
    ensures Built(request, points).value.status.Ready? && |Built(request, points).value.points| > 0
    ensures !AnswersRise(Built(request, points).value)
  {
    var a, b, c := ExamplePoint("a", '1', 1.0, 100.0), ExamplePoint("b", '2', 2.0, 99.999_999_95), ExamplePoint("c", '3', 3.0, 200.0);
    request, points := ExampleRequest(), [a, b, c];
    assert a.profileID[27] == '1' && b.profileID[27] == '2' && c.profileID[27] == '3';
    assert a.id[0] == 'a' && b.id[0] == 'b' && c.id[0] == 'c';
    assert SampleOk(Sample(1.0, 100.0)) && SampleOk(Sample(2.0, 99.999_999_95)) && SampleOk(Sample(3.0, 200.0));
    assert Samples(points) == DippingSamples();
    assert a.factor < b.factor < c.factor;
    assert request.minimumPoints == 3;
    hide *;
    ExamplePointOk("a", '1', 1.0, 100.0);
    ExamplePointOk("b", '2', 2.0, 99.999_999_95);
    ExamplePointOk("c", '3', 3.0, 200.0);
    ThreeInOrder(a, b, c);
    ExampleRequestOk();
    DipWithinTolerance();
    BuiltReady(request, points);
    ReadyAnswersRiseIff(request, points);
  }

  lemma ExampleRequestOk()
    ensures RequestOk(Normal(ExampleRequest()))
  {
    assert Text.Trim("s") == "s";
    UnitStays("devices");
  }
}
