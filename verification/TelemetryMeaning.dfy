/** Telemetry batches and their reports, said of the observations as they came
    in (internal/networktelemetry/telemetry.go). */
module TelemetryMeaning {
  import opened Options
  import opened Telemetry
  import opened TelemetryAggregates
  import Seqs
  import Sorting
  import Text

  // ----- series -----

  function KindOf(o: Observation): string { Text.Lower(Text.Trim(o.targetKind)) }
  function TargetOf(o: Observation): string { Text.Lower(Text.Trim(o.targetID)) }
  function MetricOf(o: Observation): string { Text.Lower(Text.Trim(o.metric)) }

  /** One target, whatever the case of its identifier, and one metric. */
  predicate SameSeries(a: Observation, b: Observation)
  {
    KindOf(a) == KindOf(b) && TargetOf(a) == TargetOf(b) && MetricOf(a) == MetricOf(b)
  }

  predicate Plain(s: string) { forall i | 0 <= i < |s| :: s[i] != 0 as char }

  lemma {:induction false} SplitOnce(x: string, y: string, x': string, y': string)
    requires Plain(x) && Plain(x') && x + Separator() + y == x' + Separator() + y'
    ensures x == x' && y == y'
  {
    var s, t := x + Separator() + y, x' + Separator() + y';
    assert s[|x|] == 0 as char && t[|x'|] == 0 as char;
    assert forall i | 0 <= i < |x| :: s[i] == x[i];
    assert forall i | 0 <= i < |x'| :: t[i] == x'[i];
    assert |x| == |x'|;
    assert s[|x| + 1..] == y && t[|x'| + 1..] == y' && s[..|x|] == x && t[..|x'|] == x';
  }

  lemma PlainIdentifier(s: string)
    requires Text.IsIdentifier(s, 128, true)
    ensures Plain(Text.Lower(s))
  {
    forall i | 0 <= i < |s| ensures Text.Lower(s)[i] != 0 as char {
      assert Text.IsAlphanumeric(s[i]) || s[i] in "._-" || s[i] == ':';
    }
  }

  lemma PlainKinds(kind: string)
    requires kind in {"interface", "zone", "site"}
    ensures Plain(kind)
  {
  }

  lemma FieldsPlain(o: Observation)
    requires FieldsOk(o)
    ensures Plain(o.targetKind) && Plain(Text.Lower(o.targetID))
  {
    hide Maximum;
    hide BandOk;
    hide Text.IsIdentifier;
    hide Text.Lower;
    hide Plain;
    PlainKinds(o.targetKind);
    PlainIdentifier(o.targetID);
  }

  lemma JoinedIff(x: string, y: string, z: string, x': string, y': string, z': string)
    requires Plain(x) && Plain(x') && Plain(y) && Plain(y')
    ensures x + Separator() + y + Separator() + z == x' + Separator() + y' + Separator() + z' <==> x == x' && y == y' && z == z'
  {
    hide Plain;
    hide Separator;
    var u, u' := y + Separator() + z, y' + Separator() + z';
    assert x + Separator() + y + Separator() + z == x + Separator() + u;
    assert x' + Separator() + y' + Separator() + z' == x' + Separator() + u';
    if x + Separator() + u == x' + Separator() + u' {
      SplitOnce(x, u, x', u');
      SplitOnce(y, z, y', z');
    }
  }

  lemma SeriesKeyIff(a: Observation, b: Observation)
    requires FieldsOk(a) && FieldsOk(b)
    ensures SeriesKey(a) == SeriesKey(b) <==>
            a.targetKind == b.targetKind && Text.Lower(a.targetID) == Text.Lower(b.targetID) && a.metric == b.metric
  {
    hide FieldsOk;
    hide Text.Lower;
    hide Plain;
    hide Separator;
    FieldsPlain(a);
    FieldsPlain(b);
    JoinedIff(a.targetKind, Text.Lower(a.targetID), a.metric, b.targetKind, Text.Lower(b.targetID), b.metric);
  }

  /** The keys of two accepted observations agree exactly when they are of one series. */
  lemma SeriesIff(a: Observation, b: Observation)
    requires FieldsOk(Normal(a)) && FieldsOk(Normal(b))
    ensures SeriesKey(Normal(a)) == SeriesKey(Normal(b)) <==> SameSeries(a, b)
  {
    hide FieldsOk;
    hide Text.Lower;
    hide Text.Trim;
    hide SeriesKey;
    SeriesKeyIff(Normal(a), Normal(b));
  }

  // ----- which batches are accepted -----

  /** The unit of a metric and its largest value. */
  predicate Measures(metric: string, unit: string, value: real)
  {
    match unit
    case "bits-per-second" =>
      metric in {"network.throughput.receive", "network.throughput.transmit"} && value <= 1_000_000_000_000_000.0
    case "percent" =>
      metric in {"network.utilization.receive", "network.utilization.transmit", "network.packet-loss"} && value <= 100.0
    case "errors-per-second" => metric in {"network.errors.receive", "network.errors.transmit"} && value <= 1_000_000_000_000.0
    case "milliseconds" => metric == "network.latency" && value <= 600_000.0
    case _ => false
  }

  lemma MeasuresIs(metric: string, unit: string, value: real)
    ensures Measures(metric, unit, value) <==> Maximum(metric, unit).Some? && value <= Maximum(metric, unit).value
  {
  }

  /** How sure an observation may claim to be. */
  predicate Claims(level: string, score: real)
  {
    match level
    case "low" => 0.0 <= score < 0.5
    case "medium" => 0.5 <= score < 0.8
    case "high" => 0.8 <= score <= 1.0
    case _ => false
  }

  /** An observation as it came in: its identifiers, measurement, confidence and window. */
  predicate Acceptable(o: Observation, now: Time, maxAgeSeconds: int)
  {
    && Text.Trim(o.schema) == "network.telemetry.observation/v1"
    && Text.IsIdentifier(Text.Trim(o.id), 128, true) && !o.idIsAddress
    && KindOf(o) in {"interface", "zone", "site"}
    && Text.IsIdentifier(Text.Trim(o.targetID), 128, true) && !o.targetIsAddress
    && o.value >= 0.0 && Measures(MetricOf(o), Text.Lower(Text.Trim(o.unit)), o.value)
    && Claims(Text.Lower(Text.Trim(o.level)), o.score)
    && o.start != 0 && o.end != 0 && 1_000_000_000 <= o.end - o.start <= 86_400_000_000_000
    && 1 <= o.samples <= 1_000_000_000_000 && o.end <= now <= o.end + maxAgeSeconds * 1_000_000_000
  }

  lemma AcceptableIs(o: Observation, now: Time, maxAgeSeconds: int)
    ensures Acceptable(o, now, maxAgeSeconds) <==> ObservationOk(Normal(o), now, maxAgeSeconds * SECOND)
  {
    hide Text.Lower;
    hide Text.Trim;
    hide Text.IsIdentifier;
    hide Maximum;
    hide Measures;
    MeasuresIs(MetricOf(o), Text.Lower(Text.Trim(o.unit)), o.value);
  }

  function IDOf(o: Observation): string { Text.Lower(Text.Trim(o.id)) }

  /** Two observations of a batch: other identifiers, and in one series other times. */
  predicate Compatible(a: Observation, b: Observation)
  {
    IDOf(a) != IDOf(b) && (SameSeries(a, b) ==> a.end <= b.start || b.end <= a.start)
  }

  ghost predicate AllCompatible(s: seq<Observation>)
  {
    forall i, j | 0 <= i < j < |s| :: Compatible(s[i], s[j])
  }

  lemma CompatibleIs(a: Observation, b: Observation)
    requires FieldsOk(Normal(a)) && FieldsOk(Normal(b))
    ensures Compatible(a, b) <==> LowerID(Normal(a)) != LowerID(Normal(b)) && Apart(Normal(a), Normal(b))
  {
    hide Text.Lower;
    hide Text.Trim;
    hide FieldsOk;
    hide SeriesKey;
    hide SameSeries;
    SeriesIff(a, b);
  }

  lemma AllCompatibleIs(s: seq<Observation>)
    requires forall o | o in s :: FieldsOk(Normal(o))
    ensures var t := Seqs.Map(Normal, s);
            AllCompatible(s) <==> Sorting.DistinctKeys(t, LowerID) && Disjoint(t)
  {
    hide Normal;
    hide FieldsOk;
    hide Compatible;
    hide LowerID;
    hide Apart;
    var t := Seqs.Map(Normal, s);
    forall i, j | 0 <= i < j < |s|
      ensures Compatible(s[i], s[j]) <==> LowerID(t[i]) != LowerID(t[j]) && Apart(t[i], t[j])
    {
      assert s[i] in s && s[j] in s;
      CompatibleIs(s[i], s[j]);
    }
    if AllCompatible(s) {
      forall i, j | 0 <= i < j < |t| ensures LowerID(t[i]) != LowerID(t[j]) && Apart(t[i], t[j]) { assert Compatible(s[i], s[j]); }
    }
    if Sorting.DistinctKeys(t, LowerID) && Disjoint(t) {
      forall i, j | 0 <= i < j < |s| ensures Compatible(s[i], s[j]) {
        assert LowerID(t[i]) != LowerID(t[j]) && Apart(t[i], t[j]);
      }
    }
  }

  /** A batch is accepted exactly when its observations are acceptable one by one
      and compatible two by two. */
  lemma BatchIff(b: Batch, now: Time)
    ensures BatchOk(b, now) <==>
            && Text.Trim(b.schema) == "network.telemetry.batch/v1" && now != 0 && 1 <= b.maxAgeSeconds <= 86_400
            && 1 <= |b.observations| <= 1024
            && (forall o | o in b.observations :: Acceptable(o, now, b.maxAgeSeconds)) && AllCompatible(b.observations)
  {
    hide Acceptable;
    hide ObservationOk;
    hide AllCompatible;
    hide Disjoint;
    hide Normal;
    hide Text.Trim;
    hide Sorting.DistinctKeys;
    AllAcceptable(b.observations, now, b.maxAgeSeconds);
    if forall o | o in b.observations :: Acceptable(o, now, b.maxAgeSeconds) {
      forall o | o in b.observations ensures FieldsOk(Normal(o)) {
        AcceptableIs(o, now, b.maxAgeSeconds);
        OkFields(Normal(o), now, b.maxAgeSeconds * SECOND);
      }
      hide FieldsOk;
      AllCompatibleIs(b.observations);
    }
  }

  lemma OkFields(o: Observation, now: Time, maxAge: int)
    requires ObservationOk(o, now, maxAge)
    ensures FieldsOk(o)
  {
    hide FieldsOk;
  }

  lemma AllAcceptable(s: seq<Observation>, now: Time, maxAgeSeconds: int)
    ensures (forall o | o in s :: Acceptable(o, now, maxAgeSeconds)) <==>
            forall o | o in Seqs.Map(Normal, s) :: ObservationOk(o, now, maxAgeSeconds * SECOND)
  {
    hide Acceptable;
    hide ObservationOk;
    hide Normal;
    var t := Seqs.Map(Normal, s);
    forall i | 0 <= i < |s| ensures Acceptable(s[i], now, maxAgeSeconds) <==> ObservationOk(t[i], now, maxAgeSeconds * SECOND) {
      AcceptableIs(s[i], now, maxAgeSeconds);
    }
    if forall o | o in s :: Acceptable(o, now, maxAgeSeconds) {
      forall o | o in t ensures ObservationOk(o, now, maxAgeSeconds * SECOND) {
        var i :| 0 <= i < |t| && t[i] == o;
        assert s[i] in s;
      }
    }
    if forall o | o in t :: ObservationOk(o, now, maxAgeSeconds * SECOND) {
      forall o | o in s ensures Acceptable(o, now, maxAgeSeconds) {
        var i :| 0 <= i < |s| && s[i] == o;
        assert t[i] in t;
      }
    }
  }

  // ----- what is reported -----

  /** The aggregate is of the observation's series. */
  predicate Covers(a: Aggregate, o: Observation)
  {
    a.targetKind == KindOf(o) && Text.Lower(a.targetID) == TargetOf(o) && a.metric == MetricOf(o)
  }

  function SamplesIn(a: Aggregate, s: seq<Observation>): nat
  {
    if s == [] then 0
    else SamplesIn(a, s[..|s| - 1]) + if Covers(a, s[|s| - 1]) then s[|s| - 1].samples else 0
  }

  function WeightIn(a: Aggregate, s: seq<Observation>): real
  {
    if s == [] then 0.0
    else
      var o := s[|s| - 1];
      WeightIn(a, s[..|s| - 1]) + if Covers(a, o) then Amount(o) else 0.0
  }

  /** A value, once for each of its samples. */
  function Amount(o: Observation): real { o.value * (o.samples as real) }

  /** Nothing the series holds lies outside the aggregate. */
  ghost predicate Bounds(a: Aggregate, s: seq<Observation>)
  {
    forall o | o in s && Covers(a, o) ::
      && o.value <= a.peak && a.start <= o.start && o.end <= a.end && a.score <= o.score
      && Text.Lower(Text.Trim(o.unit)) == a.unit
  }

  /** And each of its figures is some observation's of the series. */
  ghost predicate Attains(a: Aggregate, s: seq<Observation>)
  {
    && (exists o | o in s && Covers(a, o) :: o.value == a.peak)
    && (exists o | o in s && Covers(a, o) :: o.start == a.start)
    && (exists o | o in s && Covers(a, o) :: o.end == a.end && o.value == a.latestValue && Text.Trim(o.id) == a.latestID)
    && (exists o | o in s && Covers(a, o) :: o.score == a.score && Text.Lower(Text.Trim(o.level)) == a.level)
  }

  ghost predicate Summarizes(r: Report, s: seq<Observation>, now: Time)
  {
    var a := r.aggregate;
    && a.samples == SamplesIn(a, s) && a.samples > 0 && r.average * (a.samples as real) == WeightIn(a, s)
    && Bounds(a, s) && Attains(a, s)
    && forall k: nat :: r.ageSeconds <= k <==> now - a.end <= k * 1_000_000_000
  }

  // ----- sums -----

  lemma {:induction false} TotalsPermuted(a: seq<Observation>, b: seq<Observation>)
    requires multiset(a) == multiset(b)
    ensures TotalSamples(a) == TotalSamples(b) && TotalWeight(a) == TotalWeight(b)
  {
    hide Weight;
    if a == [] {
      assert |multiset(b)| == |b|;
    } else {
      Seqs.WithoutOne(a, 0);
      var k := Seqs.Occurs(b, a[0]);
      Seqs.WithoutOne(b, k);
      TotalsPermuted(Seqs.Without(a, 0), Seqs.Without(b, k));
      TotalsWithout(a, 0);
      TotalsWithout(b, k);
    }
  }

  lemma {:induction false} TotalsJoin(a: seq<Observation>, b: seq<Observation>)
    ensures TotalSamples(a + b) == TotalSamples(a) + TotalSamples(b) && TotalWeight(a + b) == TotalWeight(a) + TotalWeight(b)
  {
    hide Weight;
    if b == [] {
      assert a + b == a;
    } else {
      var n := |b| - 1;
      assert (a + b)[..|a| + n] == a + b[..n];
      TotalsJoin(a, b[..n]);
    }
  }

  lemma TotalsOne(o: Observation)
    ensures TotalSamples([o]) == o.samples && TotalWeight([o]) == Weight(o)
  {
    assert [o][..0] == [];
  }

  lemma TotalsWithout(s: seq<Observation>, k: nat)
    requires k < |s|
    ensures TotalSamples(s) == TotalSamples(Seqs.Without(s, k)) + s[k].samples
    ensures TotalWeight(s) == TotalWeight(Seqs.Without(s, k)) + Weight(s[k])
  {
    hide TotalSamples;
    hide TotalWeight;
    hide Weight;
    assert s == s[..k] + [s[k]] + s[k + 1..];
    TotalsJoin(s[..k] + [s[k]], s[k + 1..]);
    TotalsJoin(s[..k], [s[k]]);
    TotalsJoin(s[..k], s[k + 1..]);
    TotalsOne(s[k]);
  }

  /** The series of the aggregate, among observations as they came in. */
  ghost predicate Belongs(a: Aggregate, key: string, s: seq<Observation>)
  {
    forall o | o in s :: Covers(a, o) <==> SeriesKey(Normal(o)) == key
  }

  lemma NormalKeeps(o: Observation)
    ensures Normal(o).samples == o.samples && Normal(o).value == o.value && Weight(Normal(o)) == Amount(o)
    ensures Normal(o).start == o.start && Normal(o).end == o.end && Normal(o).score == o.score
    ensures Normal(o).id == Text.Trim(o.id) && Normal(o).level == Text.Lower(Text.Trim(o.level))
    ensures Normal(o).unit == Text.Lower(Text.Trim(o.unit))
  {
    hide Text.Trim;
    hide Text.Lower;
  }

  lemma SeriesSnoc(s: seq<Observation>, o: Observation, key: string)
    ensures SeriesOf(Seqs.Map(Normal, s + [o]), key) ==
            SeriesOf(Seqs.Map(Normal, s), key) + if SeriesKey(Normal(o)) == key then [Normal(o)] else []
  {
    hide Normal;
    hide SeriesKey;
    var t := Seqs.Map(Normal, s + [o]);
    assert t[..|s|] == Seqs.Map(Normal, s) && t[..|s| + 1] == t && t[|s|] == Normal(o);
    SeriesNext(t, |s|, key);
  }

  lemma SumsNext(a: Aggregate, s: seq<Observation>, o: Observation)
    ensures SamplesIn(a, s + [o]) == SamplesIn(a, s) + if Covers(a, o) then o.samples else 0
    ensures WeightIn(a, s + [o]) == WeightIn(a, s) + if Covers(a, o) then Amount(o) else 0.0
  {
    hide Covers;
    hide Amount;
    assert (s + [o])[..|s|] == s;
  }

  lemma TotalsNext(s: seq<Observation>, o: Observation, more: bool)
    ensures TotalSamples(s + if more then [o] else []) == TotalSamples(s) + if more then o.samples else 0
    ensures TotalWeight(s + if more then [o] else []) == TotalWeight(s) + if more then Weight(o) else 0.0
  {
    hide Weight;
    TotalsOne(o);
    TotalsJoin(s, if more then [o] else []);
  }

  lemma {:induction false} SumsAgree(a: Aggregate, key: string, s: seq<Observation>)
    requires Belongs(a, key, s)
    ensures SamplesIn(a, s) == TotalSamples(SeriesOf(Seqs.Map(Normal, s), key))
    ensures WeightIn(a, s) == TotalWeight(SeriesOf(Seqs.Map(Normal, s), key))
  {
    hide Normal;
    hide Covers;
    hide SeriesKey;
    hide Weight;
    hide Amount;
    if s == [] {
      assert Seqs.Map(Normal, s) == [];
    } else {
      hide SeriesOf;
      hide TotalSamples;
      hide TotalWeight;
      hide SamplesIn;
      hide WeightIn;
      var n := |s| - 1;
      var front, o := s[..n], s[n];
      assert s == front + [o] && o in s;
      SumsAgree(a, key, front);
      SeriesSnoc(front, o, key);
      SumsNext(a, front, o);
      NormalKeeps(o);
      TotalsNext(SeriesOf(Seqs.Map(Normal, front), key), Normal(o), SeriesKey(Normal(o)) == key);
    }
  }

  // ----- from the reduced series to the observations -----

  lemma {:induction false} ReducedTarget(s: seq<Observation>)
    requires s != []
    ensures var a := Reduced(s);
            a.targetKind == s[0].targetKind && a.targetID == s[0].targetID && a.metric == s[0].metric && a.unit == s[0].unit
  {
    var front, last := s[..|s| - 1], s[|s| - 1];
    if front != [] { ReducedTarget(front); }
    AddedTarget(if front == [] then Opened(last) else Reduced(front), last);
    hide Added;
  }

  lemma AddedTarget(a: Aggregate, o: Observation)
    ensures Added(a, o).targetKind == a.targetKind && Added(a, o).targetID == a.targetID
    ensures Added(a, o).metric == a.metric && Added(a, o).unit == a.unit
  {
    hide Weight;
    hide TakesOver;
  }

  ghost predicate AllFields(s: seq<Observation>)
  {
    forall o | o in s :: FieldsOk(Normal(o))
  }

  lemma CoversKey(a: Aggregate, x: Observation, o: Observation)
    requires FieldsOk(x) && FieldsOk(Normal(o))
    requires a.targetKind == x.targetKind && a.targetID == x.targetID && a.metric == x.metric
    ensures Covers(a, o) <==> SeriesKey(Normal(o)) == SeriesKey(x)
  {
    hide FieldsOk;
    hide SeriesKey;
    hide Text.Lower;
    hide Text.Trim;
    SeriesKeyIff(Normal(o), x);
  }

  /** A series of the sorted batch, as observations that came in. */
  lemma SeriesListed(raw: seq<Observation>, key: string, x: Observation)
    ensures x in SeriesOf(Sorted(Seqs.Map(Normal, raw)), key) <==>
            SeriesKey(x) == key && exists o | o in raw :: Normal(o) == x
  {
    hide *;
    if x in SeriesOf(Sorted(Seqs.Map(Normal, raw)), key) { var o := CameIn(raw, key, x); }
    if o :| SeriesKey(x) == key && o in raw && Normal(o) == x { IsListed(raw, key, o); }
  }

  lemma CameIn(raw: seq<Observation>, key: string, x: Observation) returns (o: Observation)
    requires x in SeriesOf(Sorted(Seqs.Map(Normal, raw)), key)
    ensures SeriesKey(x) == key && o in raw && Normal(o) == x
  {
    var t := Seqs.Map(Normal, raw);
    Sorting.SameElements(Sorted(t), t);
    hide Sorted;
    hide Normal;
    hide SeriesOf;
    SeriesMembers(Sorted(t), key);
    hide SeriesKey;
    var i :| 0 <= i < |t| && t[i] == x;
    o := raw[i];
  }

  lemma IsListed(raw: seq<Observation>, key: string, o: Observation)
    requires o in raw && SeriesKey(Normal(o)) == key
    ensures Normal(o) in SeriesOf(Sorted(Seqs.Map(Normal, raw)), key)
  {
    var t := Seqs.Map(Normal, raw);
    Sorting.SameElements(Sorted(t), t);
    hide Sorted;
    hide Normal;
    hide SeriesKey;
    var i :| 0 <= i < |raw| && raw[i] == o;
    assert t[i] == Normal(o) && t[i] in t;
    Seqs.Collected(PickSeries(key), Sorted(t));
    assert PickSeries(key)(Normal(o)) == Some(Normal(o));
  }

  lemma SeriesBelongs(raw: seq<Observation>, key: string)
    requires AllFields(raw) && SeriesOf(Sorted(Seqs.Map(Normal, raw)), key) != []
    ensures Belongs(Reduced(SeriesOf(Sorted(Seqs.Map(Normal, raw)), key)), key, raw)
  {
    var s := SeriesOf(Sorted(Seqs.Map(Normal, raw)), key);
    ReducedTarget(s);
    SeriesListed(raw, key, s[0]);
    hide Reduced;
    hide SeriesOf;
    hide Normal;
    hide FieldsOk;
    hide Covers;
    hide SeriesKey;
    hide Sorted;
    forall o | o in raw ensures Covers(Reduced(s), o) <==> SeriesKey(Normal(o)) == key { CoversKey(Reduced(s), s[0], o); }
  }

  /** The sums of a reduced series are sums over what came in. */
  lemma ReducedSums(raw: seq<Observation>, key: string)
    requires AllFields(raw) && SeriesOf(Sorted(Seqs.Map(Normal, raw)), key) != []
    ensures var a := Reduced(SeriesOf(Sorted(Seqs.Map(Normal, raw)), key));
            a.samples == SamplesIn(a, raw) && a.weightedSum == WeightIn(a, raw)
  {
    hide *;
    var t := Seqs.Map(Normal, raw);
    var s := SeriesOf(Sorted(t), key);
    SeriesBelongs(raw, key);
    ReducedTotals(s);
    SumsAgree(Reduced(s), key, raw);
    SeriesPermuted(t, key);
    TotalsPermuted(s, SeriesOf(t, key));
  }

  lemma SeriesPermuted(t: seq<Observation>, key: string)
    ensures multiset(SeriesOf(Sorted(t), key)) == multiset(SeriesOf(t, key))
  {
    Seqs.CollectPermuted(PickSeries(key), Sorted(t), t);
  }

  lemma OneUnit(x: Observation, y: Observation)
    requires FieldsOk(x) && FieldsOk(y) && x.metric == y.metric
    ensures x.unit == y.unit
  {
    hide Text.IsIdentifier;
    hide BandOk;
  }

  /** What the reduction of a series in time order says of each member. */
  lemma ReducedBounds(s: seq<Observation>, x: Observation)
    requires Chronological(s) && x in s
    ensures var a := Reduced(s);
            x.value <= a.peak && a.start <= x.start && x.end <= a.end && a.score <= x.score
  {
    ReducedTimes(s);
    ReducedExtremes(s);
    hide Reduced;
    var i :| 0 <= i < |s| && s[i] == x;
    if i > 0 { assert s[0].end <= s[i].start; }
    if i < |s| - 1 { assert s[i].end <= s[|s| - 1].start; }
  }

  lemma CoveredIsMember(raw: seq<Observation>, key: string, o: Observation)
    requires AllFields(raw) && SeriesOf(Sorted(Seqs.Map(Normal, raw)), key) != [] && o in raw
    ensures Covers(Reduced(SeriesOf(Sorted(Seqs.Map(Normal, raw)), key)), o) <==>
            Normal(o) in SeriesOf(Sorted(Seqs.Map(Normal, raw)), key)
  {
    SeriesBelongs(raw, key);
    hide Reduced;
    hide SeriesOf;
    hide Normal;
    hide Covers;
    hide Sorted;
    hide SeriesKey;
    SeriesListed(raw, key, Normal(o));
  }

  lemma SeriesBounds(raw: seq<Observation>, key: string)
    requires AllFields(raw) && SeriesOf(Sorted(Seqs.Map(Normal, raw)), key) != []
    requires Chronological(SeriesOf(Sorted(Seqs.Map(Normal, raw)), key))
    ensures Bounds(Reduced(SeriesOf(Sorted(Seqs.Map(Normal, raw)), key)), raw)
  {
    var s := SeriesOf(Sorted(Seqs.Map(Normal, raw)), key);
    var a := Reduced(s);
    ReducedTarget(s);
    hide Reduced;
    hide Sorted;
    hide SeriesOf;
    hide Chronological;
    hide FieldsOk;
    hide Normal;
    SeriesListed(raw, key, s[0]);
    hide SeriesKey;
    forall o | o in raw && Covers(a, o)
      ensures o.value <= a.peak && a.start <= o.start && o.end <= a.end && a.score <= o.score
      ensures Text.Lower(Text.Trim(o.unit)) == a.unit
    {
      CoveredIsMember(raw, key, o);
      ReducedBounds(s, Normal(o));
      NormalKeeps(o);
      MetricKept(o);
      OneUnit(Normal(o), s[0]);
    }
  }

  lemma MetricKept(o: Observation)
    ensures Normal(o).metric == MetricOf(o)
  {
  }

  /** A member of the series came in as an observation the aggregate covers. */
  lemma MemberCameIn(raw: seq<Observation>, key: string, x: Observation) returns (o: Observation)
    requires AllFields(raw) && x in SeriesOf(Sorted(Seqs.Map(Normal, raw)), key)
    ensures SeriesOf(Sorted(Seqs.Map(Normal, raw)), key) != []
    ensures o in raw && Normal(o) == x && Covers(Reduced(SeriesOf(Sorted(Seqs.Map(Normal, raw)), key)), o)
  {
    hide Reduced;
    hide SeriesOf;
    hide Normal;
    hide Sorted;
    hide Covers;
    hide AllFields;
    SeriesListed(raw, key, x);
    o :| o in raw && Normal(o) == x;
    CoveredIsMember(raw, key, o);
  }

  lemma SeriesAttains(raw: seq<Observation>, key: string)
    requires AllFields(raw) && SeriesOf(Sorted(Seqs.Map(Normal, raw)), key) != []
    requires Chronological(SeriesOf(Sorted(Seqs.Map(Normal, raw)), key))
    ensures Attains(Reduced(SeriesOf(Sorted(Seqs.Map(Normal, raw)), key)), raw)
  {
    hide *;
    var s := SeriesOf(Sorted(Seqs.Map(Normal, raw)), key);
    ReducedTimes(s);
    var peak, least := Extremes(s);
    var highest := MemberCameIn(raw, key, peak);
    var first := MemberCameIn(raw, key, s[0]);
    var last := MemberCameIn(raw, key, s[|s| - 1]);
    var unsure := MemberCameIn(raw, key, least);
    NormalKeeps(highest);
    NormalKeeps(first);
    NormalKeeps(last);
    NormalKeeps(unsure);
    AttainsAt(Reduced(s), raw, highest, first, last, unsure);
  }

  lemma Extremes(s: seq<Observation>) returns (peak: Observation, least: Observation)
    requires s != []
    ensures peak in s && peak.value == Reduced(s).peak
    ensures least in s && least.level == Reduced(s).level && least.score == Reduced(s).score
  {
    ReducedExtremes(s);
    hide Reduced;
    peak :| peak in s && peak.value == Reduced(s).peak;
    least :| least in s && least.level == Reduced(s).level && least.score == Reduced(s).score;
  }

  lemma AttainsAt(a: Aggregate, s: seq<Observation>, highest: Observation, first: Observation, last: Observation,
                  unsure: Observation)
    requires highest in s && Covers(a, highest) && highest.value == a.peak
    requires first in s && Covers(a, first) && first.start == a.start
    requires last in s && Covers(a, last) && last.end == a.end && last.value == a.latestValue && Text.Trim(last.id) == a.latestID
    requires unsure in s && Covers(a, unsure) && unsure.score == a.score && Text.Lower(Text.Trim(unsure.level)) == a.level
    ensures Attains(a, s)
  {
    hide Covers;
    hide Text.Trim;
    hide Text.Lower;
  }

  lemma AcceptedFields(b: Batch, now: Time)
    requires BatchOk(b, now)
    ensures AllFields(b.observations)
  {
    hide Acceptable;
    hide AllCompatible;
    hide FieldsOk;
    BatchIff(b, now);
    forall o | o in b.observations ensures FieldsOk(Normal(o)) {
      AcceptableIs(o, now, b.maxAgeSeconds);
      OkFields(Normal(o), now, b.maxAgeSeconds * SECOND);
    }
  }

  lemma AcceptedSeries(b: Batch, now: Time, key: string)
    requires BatchOk(b, now)
    ensures Chronological(SeriesOf(Sorted(Normalized(b)), key))
  {
    hide *;
    var h := Sorted(Normalized(b));
    AcceptedInOrder(b, now);
    SeriesChronological(h, key, |h|);
    assert h[..|h|] == h;
  }

  lemma AverageTimes(r: Report, now: Time)
    requires ReportOk(r, now)
    ensures r.aggregate.samples > 0 && r.average * (r.aggregate.samples as real) == r.aggregate.weightedSum
    ensures forall k: nat :: r.ageSeconds <= k <==> now - r.aggregate.end <= k * 1_000_000_000
  {
    forall k: nat ensures r.ageSeconds <= k <==> now - r.aggregate.end <= k * 1_000_000_000 {
      CeilingIsLeast(now - r.aggregate.end, k);
    }
    hide CeilingSeconds;
    Divides(r.aggregate.weightedSum, r.aggregate.samples as real);
  }

  lemma Divides(x: real, y: real)
    requires y != 0.0
    ensures x / y * y == x
  {
  }

  /** Every report of an accepted batch summarizes the observations of its series. */
  lemma ReportSummarizes(b: Batch, now: Time, result: seq<Report>, r: Report)
    requires BatchOk(b, now) && ListsReports(result, Sorted(Normalized(b)), now) && r in result
    ensures Summarizes(r, b.observations, now)
  {
    var h := Sorted(Normalized(b));
    assert h == Sorted(Seqs.Map(Normal, b.observations));
    assert ReportOk(r, now);
    hide *;
    var key := ReportedSeries(result, h, now, r);
    AcceptedFields(b, now);
    AcceptedSeries(b, now, key);
    ReducedSums(b.observations, key);
    SeriesBounds(b.observations, key);
    SeriesAttains(b.observations, key);
    AverageTimes(r, now);
    SummaryIs(r, b.observations, now);
  }

  lemma SummaryIs(r: Report, s: seq<Observation>, now: Time)
    requires var a := r.aggregate;
             && a.samples == SamplesIn(a, s) && a.samples > 0 && a.weightedSum == WeightIn(a, s)
             && r.average * (a.samples as real) == a.weightedSum && Bounds(a, s) && Attains(a, s)
    requires forall k: nat :: r.ageSeconds <= k <==> now - r.aggregate.end <= k * 1_000_000_000
    ensures Summarizes(r, s, now)
  {
    hide Bounds;
    hide Attains;
    hide SamplesIn;
    hide WeightIn;
  }

  /** Every observation of an accepted batch is covered by exactly one report. */
  lemma CoveredOnce(b: Batch, now: Time, result: seq<Report>, o: Observation) returns (i: nat)
    requires BatchOk(b, now) && ListsReports(result, Sorted(Normalized(b)), now) && o in b.observations
    ensures i < |result| && forall j | 0 <= j < |result| :: Covers(result[j].aggregate, o) <==> j == i
  {
    var h := Sorted(Normalized(b));
    assert h == Sorted(Seqs.Map(Normal, b.observations));
    var key := SeriesKey(Normal(o));
    var keys := Sorting.Ascending(Keys(h));
    Sorting.AscendingListed(Keys(h));
    Sorting.AscendingOnce(Keys(h));
    AcceptedFields(b, now);
    ListedReports(result, h, now);
    hide *;
    SeriesListed(b.observations, key, Normal(o));
    SeriesMembers(h, key);
    i :| 0 <= i < |keys| && keys[i] == key;
    forall j | 0 <= j < |result| ensures Covers(result[j].aggregate, o) <==> j == i {
      SeriesBelongs(b.observations, keys[j]);
      BelongsAt(result[j].aggregate, keys[j], b.observations, o);
    }
  }

  lemma ListedReports(result: seq<Report>, h: seq<Observation>, now: Time)
    requires ListsReports(result, h, now)
    ensures var keys := Sorting.Ascending(Keys(h));
            && |result| == |keys|
            && forall i | 0 <= i < |keys| :: SeriesOf(h, keys[i]) != [] && result[i].aggregate == Reduced(SeriesOf(h, keys[i]))
  {
    hide SeriesOf;
    hide Reduced;
    hide Keys;
    var listed := Seqs.Map(AggregateOf, result);
    assert forall i | 0 <= i < |result| :: listed[i] == result[i].aggregate;
  }

  lemma BelongsAt(a: Aggregate, key: string, s: seq<Observation>, o: Observation)
    requires Belongs(a, key, s) && o in s
    ensures Covers(a, o) <==> SeriesKey(Normal(o)) == key
  {
    hide Covers;
    hide SeriesKey;
    hide Normal;
  }

  // ----- too many samples -----

  /** An aggregate of the observation's series. */
  function LikeOf(o: Observation): Aggregate
  {
    Aggregate(KindOf(o), Text.Trim(o.targetID), MetricOf(o), "", "", 0.0, 0.0, 0.0, 0, 0, 0, "", 0.0)
  }

  lemma LikeBelongs(raw: seq<Observation>, o: Observation)
    requires AllFields(raw) && o in raw
    ensures Belongs(LikeOf(o), SeriesKey(Normal(o)), raw)
  {
    hide FieldsOk;
    hide SeriesKey;
    hide Text.Lower;
    hide Text.Trim;
    forall x | x in raw ensures Covers(LikeOf(o), x) <==> SeriesKey(Normal(x)) == SeriesKey(Normal(o)) { SeriesIff(x, o); }
  }

  lemma SeriesTotal(raw: seq<Observation>, o: Observation)
    requires AllFields(raw) && o in raw
    ensures TotalSamples(SeriesOf(Sorted(Seqs.Map(Normal, raw)), SeriesKey(Normal(o)))) == SamplesIn(LikeOf(o), raw)
  {
    hide *;
    var t, key := Seqs.Map(Normal, raw), SeriesKey(Normal(o));
    LikeBelongs(raw, o);
    SumsAgree(LikeOf(o), key, raw);
    SeriesPermuted(t, key);
    TotalsPermuted(SeriesOf(Sorted(t), key), SeriesOf(t, key));
  }

  /** An accepted batch is aggregated exactly when no series has more than
      10^15 samples. */
  lemma CountableIff(b: Batch, now: Time)
    requires BatchOk(b, now)
    ensures Countable(Sorted(Normalized(b))) <==>
            forall o | o in b.observations :: SamplesIn(LikeOf(o), b.observations) <= 1_000_000_000_000_000
  {
    AcceptedFields(b, now);
    hide BatchOk;
    var raw := b.observations;
    var h := Sorted(Seqs.Map(Normal, raw));
    hide AllFields;
    hide Sorted;
    hide SeriesOf;
    hide TotalSamples;
    hide SamplesIn;
    hide Normal;
    hide SeriesKey;
    hide LikeOf;
    forall key ensures key in Keys(h) <==> exists o | o in raw :: SeriesKey(Normal(o)) == key { KeysListed(raw, key); }
    forall o | o in raw ensures TotalSamples(SeriesOf(h, SeriesKey(Normal(o)))) == SamplesIn(LikeOf(o), raw) { SeriesTotal(raw, o); }
    hide Keys;
    if Countable(h) {
      forall o | o in raw ensures SamplesIn(LikeOf(o), raw) <= 1_000_000_000_000_000 {
        assert SeriesKey(Normal(o)) in Keys(h);
      }
    }
  }

  lemma KeysListed(raw: seq<Observation>, key: string)
    ensures key in Keys(Sorted(Seqs.Map(Normal, raw))) <==> exists o | o in raw :: SeriesKey(Normal(o)) == key
  {
    hide *;
    var h := Sorted(Seqs.Map(Normal, raw));
    SeriesMembers(h, key);
    if key in Keys(h) {
      var s := SeriesOf(h, key);
      var o := CameIn(raw, key, s[0]);
    }
    if o :| o in raw && SeriesKey(Normal(o)) == key { IsListed(raw, key, o); }
  }
}
