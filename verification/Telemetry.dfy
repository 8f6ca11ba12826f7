/** Network telemetry batches: sample windows of a series and their order
    (internal/networktelemetry/telemetry.go). */
module Telemetry {
  import opened Options
  import Seqs
  import Sorting
  import Text

  /** Instants and durations in nanoseconds; 0 is Go's zero time. */
  type Time = int

  const SECOND: int := 1_000_000_000
  const LONGEST_WINDOW: int := 86_400 * SECOND
  const LONGEST_AGE_SECONDS: int := 86_400
  const MOST_SAMPLES_A_WINDOW: nat := 1_000_000_000_000
  const MOST_OBSERVATIONS: nat := 1024

  /** Whether an identifier parses as an IP or MAC address is not decided here but
      given with it. */
  datatype Observation = Observation(
    schema: string, id: string, idIsAddress: bool, targetKind: string, targetID: string, targetIsAddress: bool,
    metric: string, unit: string, value: real, start: Time, end: Time, samples: nat, level: string, score: real)

  const OBSERVATION_SCHEMA := "network.telemetry.observation/v1"
  const BATCH_SCHEMA := "network.telemetry.batch/v1"

  function LowerTrimmed(s: string): string { Text.Lower(Text.Trim(s)) }

  function Normal(o: Observation): Observation
  {
    o.(schema := Text.Trim(o.schema), id := Text.Trim(o.id), targetKind := LowerTrimmed(o.targetKind),
       targetID := Text.Trim(o.targetID), metric := LowerTrimmed(o.metric), unit := LowerTrimmed(o.unit),
       level := LowerTrimmed(o.level))
  }

  /** The largest value of a metric in its unit; `None` for any other pair. */
  function Maximum(metric: string, unit: string): Option<real>
  {
    if metric in {"network.throughput.receive", "network.throughput.transmit"} && unit == "bits-per-second" then
      Some(1_000_000_000_000_000.0)
    else if metric in {"network.utilization.receive", "network.utilization.transmit", "network.packet-loss"} &&
            unit == "percent" then Some(100.0)
    else if metric in {"network.errors.receive", "network.errors.transmit"} && unit == "errors-per-second" then
      Some(1_000_000_000_000.0)
    else if metric == "network.latency" && unit == "milliseconds" then Some(600_000.0)
    else None
  }

  predicate BandOk(level: string, score: real)
  {
    && 0.0 <= score <= 1.0
    && (|| (level == "low" && score < 0.5)
        || (level == "medium" && 0.5 <= score < 0.8)
        || (level == "high" && 0.8 <= score))
  }

  predicate FieldsOk(o: Observation)
  {
    && o.schema == OBSERVATION_SCHEMA && Text.IsIdentifier(o.id, 128, true) && !o.idIsAddress
    && o.targetKind in {"interface", "zone", "site"} && Text.IsIdentifier(o.targetID, 128, true) && !o.targetIsAddress
    && Maximum(o.metric, o.unit).Some? && 0.0 <= o.value <= Maximum(o.metric, o.unit).value && BandOk(o.level, o.score)
  }

  function Separator(): string { [0 as char] }

  /** Target identifiers are compared without regard to case. */
  function SeriesKey(o: Observation): string
  {
    o.targetKind + Separator() + Text.Lower(o.targetID) + Separator() + o.metric
  }

  function LowerID(o: Observation): string { Text.Lower(o.id) }

  predicate ObservationOk(o: Observation, now: Time, maxAge: int)
  {
    && FieldsOk(o)
    && o.start != 0 && o.end != 0 && SECOND <= o.end - o.start <= LONGEST_WINDOW
    && 1 <= o.samples <= MOST_SAMPLES_A_WINDOW && o.end <= now && now - o.end <= maxAge
  }

  // ----- order -----

  /** By series, then start, end and identifier. */
  predicate Earlier(a: Observation, b: Observation)
  {
    if SeriesKey(a) != SeriesKey(b) then Text.Less(SeriesKey(a), SeriesKey(b))
    else if a.start != b.start then a.start < b.start
    else if a.end != b.end then a.end < b.end
    else Text.Less(a.id, b.id)
  }

  lemma EarlierOrders(s: seq<Observation>)
    ensures Sorting.Orders(s, Earlier)
  {
    Text.LessIsStrictTotal();
    hide Text.Less;
    hide SeriesKey;
  }

  function Sorted(s: seq<Observation>): (r: seq<Observation>)
    ensures multiset(r) == multiset(s) && Sorting.SortedBy(r, Earlier)
  {
    EarlierOrders(s);
    Sorting.SortBy(s, Earlier)
  }

  // ----- disjoint windows -----

  /** Windows of one series do not overlap. */
  predicate Apart(a: Observation, b: Observation)
  {
    SeriesKey(a) == SeriesKey(b) ==> a.end <= b.start || b.end <= a.start
  }

  ghost predicate Disjoint(s: seq<Observation>)
  {
    forall i, j | 0 <= i < j < |s| :: Apart(s[i], s[j])
  }

  predicate Overlaps(previous: Observation, current: Observation)
  {
    SeriesKey(previous) == SeriesKey(current) && current.start < previous.end
  }

  ghost predicate NeighboursApart(s: seq<Observation>)
  {
    forall i | 1 <= i < |s| :: !Overlaps(s[i - 1], s[i])
  }

  ghost predicate Timed(s: seq<Observation>)
  {
    forall o | o in s :: o.start < o.end
  }

  /** Between two observations of one series only that series is met. */
  lemma SeriesContiguous(s: seq<Observation>, i: nat, k: nat, j: nat)
    requires Sorting.SortedBy(s, Earlier) && i <= k <= j < |s| && SeriesKey(s[i]) == SeriesKey(s[j])
    ensures SeriesKey(s[k]) == SeriesKey(s[i])
  {
    if i < k < j {
      assert !Earlier(s[k], s[i]) && !Earlier(s[j], s[k]);
      hide SeriesKey;
      Text.LessTotal(SeriesKey(s[i]), SeriesKey(s[k]));
      Text.LessAsymmetric(SeriesKey(s[i]), SeriesKey(s[k]));
    }
  }

  /** Checking neighbours in sorted order puts all windows of a series in order. */
  lemma {:induction false} NeighboursChain(s: seq<Observation>, i: nat, j: nat)
    requires Sorting.SortedBy(s, Earlier) && NeighboursApart(s) && Timed(s) && i < j < |s|
    requires SeriesKey(s[i]) == SeriesKey(s[j])
    ensures s[i].end <= s[j].start
  {
    hide SeriesKey;
    hide Sorting.SortedBy;
    hide NeighboursApart;
    hide Timed;
    SeriesContiguous(s, i, j - 1, j);
    NeighbourApart(s, j);
    if i < j - 1 { NeighboursChain(s, i, j - 1); }
  }

  lemma NeighbourApart(s: seq<Observation>, j: nat)
    requires NeighboursApart(s) && Timed(s) && 1 <= j < |s|
    ensures !Overlaps(s[j - 1], s[j]) && s[j - 1].start < s[j - 1].end
  {
    hide Overlaps;
    assert s[j - 1] in s;
  }

  /** The neighbour check accepts exactly the batches whose series have pairwise
      disjoint windows. */
  lemma NeighboursDecide(s: seq<Observation>)
    requires Sorting.SortedBy(s, Earlier) && Timed(s)
    ensures NeighboursApart(s) <==> Disjoint(s)
  {
    if NeighboursApart(s) {
      forall i, j | 0 <= i < j < |s| ensures Apart(s[i], s[j]) {
        if SeriesKey(s[i]) == SeriesKey(s[j]) { NeighboursChain(s, i, j); }
      }
    }
    if Disjoint(s) {
      forall i | 1 <= i < |s| ensures !Overlaps(s[i - 1], s[i]) {
        assert Apart(s[i - 1], s[i]) && !Earlier(s[i], s[i - 1]);
        assert s[i] in s && s[i - 1] in s;
        hide SeriesKey;
      }
    }
  }

  lemma ApartSymmetric(a: Observation, b: Observation)
    requires Apart(a, b)
    ensures Apart(b, a)
  {
    hide SeriesKey;
  }

  /** Disjointness does not depend on the order of the observations. */
  lemma DisjointPermuted(a: seq<Observation>, b: seq<Observation>)
    requires multiset(a) == multiset(b) && Disjoint(a) && Sorting.DistinctKeys(a, LowerID)
    ensures Disjoint(b)
  {
    hide Apart;
    Sorting.SameElements(a, b);
    Sorting.DistinctPermuted(a, b, LowerID);
    forall i, j | 0 <= i < j < |b| ensures Apart(b[i], b[j]) {
      assert b[i] in a && b[j] in a && LowerID(b[i]) != LowerID(b[j]);
      var k :| 0 <= k < |a| && a[k] == b[i];
      var l :| 0 <= l < |a| && a[l] == b[j];
      if k < l { assert Apart(a[k], a[l]); } else { assert Apart(a[l], a[k]); ApartSymmetric(a[l], a[k]); }
    }
  }

  // ----- normalizing a batch -----

  datatype Batch = Batch(schema: string, maxAgeSeconds: int, observations: seq<Observation>)

  predicate HeaderOk(b: Batch, now: Time)
  {
    Text.Trim(b.schema) == BATCH_SCHEMA && now != 0 && 1 <= b.maxAgeSeconds <= LONGEST_AGE_SECONDS && 1 <= |b.observations| <= MOST_OBSERVATIONS
  }

  function Normalized(b: Batch): seq<Observation> { Seqs.Map(Normal, b.observations) }

  /** Each observation is valid, and no identifier occurs twice. */
  ghost predicate AllValid(s: seq<Observation>, now: Time, maxAge: int)
  {
    (forall o | o in s :: ObservationOk(o, now, maxAge)) && Sorting.DistinctKeys(s, LowerID)
  }

  ghost predicate BatchOk(b: Batch, now: Time)
  {
    HeaderOk(b, now) && AllValid(Normalized(b), now, b.maxAgeSeconds * SECOND) && Disjoint(Normalized(b))
  }

  lemma OkTimed(s: seq<Observation>, now: Time, maxAge: int)
    requires forall o | o in s :: ObservationOk(o, now, maxAge)
    ensures Timed(s)
  {
  }

  /** What the loop over the observations has established for a prefix. */
  ghost predicate ValidSoFar(ids: set<string>, s: seq<Observation>, now: Time, maxAge: int)
  {
    (forall o | o in s :: ObservationOk(o, now, maxAge)) && Sorting.SeenKeys(ids, s, LowerID)
  }

  lemma NoneValid(now: Time, maxAge: int)
    ensures ValidSoFar({}, [], now, maxAge)
  {
  }

  lemma ValidNext(ids: set<string>, s: seq<Observation>, k: nat, now: Time, maxAge: int)
    requires k < |s| && ValidSoFar(ids, s[..k], now, maxAge)
    ensures if ObservationOk(s[k], now, maxAge) && LowerID(s[k]) !in ids then
              ValidSoFar(ids + {LowerID(s[k])}, s[..k + 1], now, maxAge)
            else !AllValid(s, now, maxAge)
  {
    hide ObservationOk;
    hide LowerID;
    hide Sorting.SeenKeys;
    hide Sorting.DistinctKeys;
    assert s[k] in s && s[..k + 1] == s[..k] + [s[k]];
    Sorting.SeenNext(ids, s, LowerID, k);
  }

  lemma ValidAll(ids: set<string>, s: seq<Observation>, now: Time, maxAge: int)
    requires ValidSoFar(ids, s, now, maxAge)
    ensures AllValid(s, now, maxAge)
  {
    hide ObservationOk;
    Sorting.SeenAll(ids, s, LowerID);
  }

  method NormalizeObservations(raw: seq<Observation>, now: Time, maxAge: int) returns (ok: bool, normal: seq<Observation>)
    ensures ok <==> AllValid(Seqs.Map(Normal, raw), now, maxAge)
    ensures ok ==> normal == Seqs.Map(Normal, raw)
  {
    ghost var s := Seqs.Map(Normal, raw);
    hide *;
    normal := [];
    var ids: set<string> := {};
    assert s[..0] == [];
    NoneValid(now, maxAge);
    for k := 0 to |raw|
      invariant normal == s[..k] && ValidSoFar(ids, s[..k], now, maxAge)
    {
      var observation := Normal(raw[k]);
      ValidNext(ids, s, k, now, maxAge);
      if !ObservationOk(observation, now, maxAge) || LowerID(observation) in ids { return false, []; }
      ids := ids + {LowerID(observation)};
      normal := normal + [observation];
    }
    assert s[..|s|] == s;
    ValidAll(ids, s, now, maxAge);
    ok := true;
  }

  method CheckNeighbours(s: seq<Observation>) returns (ok: bool)
    ensures ok <==> NeighboursApart(s)
  {
    hide Overlaps;
    var i := 1;
    while i < |s|
      invariant 1 <= i && forall k | 1 <= k < i && k < |s| :: !Overlaps(s[k - 1], s[k])
    {
      if Overlaps(s[i - 1], s[i]) { return false; }
      i := i + 1;
    }
    return true;
  }

  /** Accepts exactly the valid batches with pairwise disjoint windows in every
      series, and returns them in order. */
  method NormalizeBatch(b: Batch, now: Time) returns (r: Option<seq<Observation>>)
    ensures r.Some? <==> BatchOk(b, now)
    ensures r.Some? ==> r.value == Sorted(Normalized(b))
  {
    hide AllValid;
    hide Normal;
    hide Sorted;
    hide Disjoint;
    hide NeighboursApart;
    if !HeaderOk(b, now) { return None; }
    var maxAge := b.maxAgeSeconds * SECOND;
    var ok, normal := NormalizeObservations(b.observations, now, maxAge);
    if !ok { return None; }
    var result := Sorted(normal);
    SortedChecks(normal, now, maxAge);
    var apart := CheckNeighbours(result);
    return if apart then Some(result) else None;
  }

  lemma SortedChecks(s: seq<Observation>, now: Time, maxAge: int)
    requires AllValid(s, now, maxAge)
    ensures NeighboursApart(Sorted(s)) <==> Disjoint(s)
  {
    OkTimed(s, now, maxAge);
    hide ObservationOk;
    hide Earlier;
    hide Overlaps;
    Sorting.SameElements(Sorted(s), s);
    NeighboursDecide(Sorted(s));
    Sorting.DistinctPermuted(s, Sorted(s), LowerID);
    if Disjoint(s) { DisjointPermuted(s, Sorted(s)); }
    if Disjoint(Sorted(s)) { DisjointPermuted(Sorted(s), s); }
  }
}
