/** Reducing each telemetry series to one aggregate
    (internal/networktelemetry/telemetry.go). */
module TelemetryAggregates {
  import opened Options
  import opened Telemetry
  import Seqs
  import Sorting
  import Text

  const MOST_SAMPLES_AN_AGGREGATE: nat := 1_000_000_000_000_000

  datatype Aggregate = Aggregate(
    targetKind: string, targetID: string, metric: string, unit: string, latestID: string, latestValue: real, weightedSum: real,
    peak: real, samples: nat, start: Time, end: Time, level: string, score: real)
  {
    function Average(): real requires samples > 0 { weightedSum / (samples as real) }
  }

  function Weight(o: Observation): real { o.value * (o.samples as real) }

  // ----- one accumulator -----

  function Opened(o: Observation): Aggregate
  {
    Aggregate(o.targetKind, o.targetID, o.metric, o.unit, o.id, o.value, 0.0, o.value, 0, o.start, o.end, o.level, o.score)
  }

  predicate TakesOver(o: Observation, a: Aggregate)
  {
    o.end > a.end || (o.end == a.end && Text.Less(o.id, a.latestID))
  }

  /** One turn of the loop on an accumulator that is already there. */
  function Added(a: Aggregate, o: Observation): Aggregate
  {
    var counted := a.(samples := a.samples + o.samples, weightedSum := a.weightedSum + Weight(o),
                      peak := if o.value > a.peak then o.value else a.peak, start := if o.start < a.start then o.start else a.start);
    var timed := if TakesOver(o, a) then counted.(end := o.end, latestID := o.id, latestValue := o.value) else counted;
    if o.score < a.score then timed.(level := o.level, score := o.score) else timed
  }

  /** The accumulator of a series, in the order its observations are met. */
  function Reduced(s: seq<Observation>): Aggregate
    requires s != []
  {
    var front, last := s[..|s| - 1], s[|s| - 1];
    Added(if front == [] then Opened(last) else Reduced(front), last)
  }

  // ----- what the reduction of a series in time order means -----

  ghost predicate Chronological(s: seq<Observation>)
  {
    && (forall i | 0 <= i < |s| :: s[i].start < s[i].end && s[i].samples >= 1)
    && forall i, j | 0 <= i < j < |s| :: s[i].end <= s[j].start
  }

  function TotalSamples(s: seq<Observation>): nat
  {
    if s == [] then 0 else TotalSamples(s[..|s| - 1]) + s[|s| - 1].samples
  }

  function TotalWeight(s: seq<Observation>): real
  {
    if s == [] then 0.0 else TotalWeight(s[..|s| - 1]) + Weight(s[|s| - 1])
  }

  lemma ChronologicalFront(s: seq<Observation>)
    requires Chronological(s) && s != []
    ensures Chronological(s[..|s| - 1])
  {
  }

  lemma AddedTotals(a: Aggregate, o: Observation)
    ensures Added(a, o).samples == a.samples + o.samples && Added(a, o).weightedSum == a.weightedSum + Weight(o)
    ensures Added(a, o).start == if o.start < a.start then o.start else a.start
    ensures TakesOver(o, a) ==> Added(a, o).end == o.end && Added(a, o).latestID == o.id && Added(a, o).latestValue == o.value
    ensures !TakesOver(o, a) ==>
              Added(a, o).end == a.end && Added(a, o).latestID == a.latestID && Added(a, o).latestValue == a.latestValue
  {
    hide Weight;
    hide TakesOver;
  }

  /** The sample counts and weights add up. */
  lemma {:induction false} ReducedTotals(s: seq<Observation>)
    requires s != []
    ensures Reduced(s).samples == TotalSamples(s) && Reduced(s).weightedSum == TotalWeight(s)
  {
    hide Weight;
    hide Added;
    var front, last := s[..|s| - 1], s[|s| - 1];
    AddedTotals(if front == [] then Opened(last) else Reduced(front), last);
    if front != [] { ReducedTotals(front); }
  }

  /** The window runs from the first start to the last end, and the latest value is
      that of the last window. */
  lemma {:induction false} ReducedTimes(s: seq<Observation>)
    requires Chronological(s) && s != []
    ensures var a := Reduced(s);
            && a.start == s[0].start && a.end == s[|s| - 1].end
            && a.latestID == s[|s| - 1].id && a.latestValue == s[|s| - 1].value
  {
    hide Weight;
    hide Added;
    var n := |s| - 1;
    var front, last := s[..n], s[n];
    AddedTotals(if front == [] then Opened(last) else Reduced(front), last);
    if n == 0 {
      Text.LessAsymmetric(last.id, last.id);
    } else {
      ChronologicalFront(s);
      ReducedTimes(front);
      assert s[n - 1].end <= s[n].start < s[n].end && s[0].end <= s[n].start;
    }
  }

  /** Against an earlier accumulator a later window always takes over by its end. */
  lemma TieBreakIdle(s: seq<Observation>)
    requires Chronological(s) && |s| >= 2
    ensures s[|s| - 1].end > Reduced(s[..|s| - 1]).end
  {
    ChronologicalFront(s);
    ReducedTimes(s[..|s| - 1]);
    hide Reduced;
    assert s[|s| - 2].end <= s[|s| - 1].start;
  }

  ghost predicate Peaks(s: seq<Observation>, peak: real)
  {
    (forall o | o in s :: o.value <= peak) && exists o | o in s :: o.value == peak
  }

  ghost predicate LeastSure(s: seq<Observation>, level: string, score: real)
  {
    (forall o | o in s :: score <= o.score) && exists o | o in s :: o.level == level && o.score == score
  }

  lemma PeaksNext(front: seq<Observation>, last: Observation, peak: real)
    requires Peaks(front, peak)
    ensures Peaks(front + [last], if last.value > peak then last.value else peak)
  {
    var o :| o in front && o.value == peak;
    assert o in front + [last] && last in front + [last];
  }

  lemma LeastSureNext(front: seq<Observation>, last: Observation, level: string, score: real)
    requires LeastSure(front, level, score)
    ensures if last.score < score then LeastSure(front + [last], last.level, last.score)
            else LeastSure(front + [last], level, score)
  {
    var o :| o in front && o.level == level && o.score == score;
    assert o in front + [last] && last in front + [last];
  }

  lemma AddedParts(a: Aggregate, o: Observation)
    ensures Added(a, o).peak == if o.value > a.peak then o.value else a.peak
    ensures Added(a, o).score == if o.score < a.score then o.score else a.score
    ensures Added(a, o).level == if o.score < a.score then o.level else a.level
  {
    hide Weight;
    hide TakesOver;
  }

  /** The peak is the largest value, and the confidence the least. */
  lemma {:induction false} ReducedExtremes(s: seq<Observation>)
    requires s != []
    ensures Peaks(s, Reduced(s).peak) && LeastSure(s, Reduced(s).level, Reduced(s).score)
  {
    var front, last := s[..|s| - 1], s[|s| - 1];
    assert s == front + [last];
    if front == [] {
      AddedParts(Opened(last), last);
      hide Added;
      assert last in s;
    } else {
      hide Added;
      hide Peaks;
      hide LeastSure;
      ReducedExtremes(front);
      AddedParts(Reduced(front), last);
      PeaksNext(front, last, Reduced(front).peak);
      LeastSureNext(front, last, Reduced(front).level, Reduced(front).score);
    }
  }

  lemma Weighed(o: Observation, lo: real, hi: real)
    requires lo <= o.value <= hi
    ensures Balanced(o.samples, Weight(o), lo, hi)
  {
  }

  ghost predicate Within(s: seq<Observation>, lo: real, hi: real)
  {
    forall o | o in s :: lo <= o.value <= hi
  }

  /** The weight of `n` samples whose values lie between `lo` and `hi`. */
  predicate Balanced(n: nat, weight: real, lo: real, hi: real)
  {
    lo * (n as real) <= weight <= hi * (n as real)
  }

  lemma {:induction false} WeightBetween(s: seq<Observation>, lo: real, hi: real)
    requires Within(s, lo, hi)
    ensures Balanced(TotalSamples(s), TotalWeight(s), lo, hi)
  {
    if s != [] {
      hide Weight;
      var front, last := s[..|s| - 1], s[|s| - 1];
      WeightBetween(front, lo, hi);
      Weighed(last, lo, hi);
      hide Balanced;
      BalancedAdds(TotalSamples(front), TotalWeight(front), last.samples, Weight(last), lo, hi);
    }
  }

  lemma BalancedAdds(a: nat, v: real, b: nat, w: real, lo: real, hi: real)
    requires Balanced(a, v, lo, hi) && Balanced(b, w, lo, hi)
    ensures Balanced(a + b, v + w, lo, hi)
  {
    Spread(lo, a, b);
    Spread(hi, a, b);
  }

  lemma Spread(x: real, a: nat, b: nat)
    ensures x * ((a + b) as real) == x * (a as real) + x * (b as real)
  {
  }

  lemma Cancelled(p: real, q: real, n: real)
    requires n > 0.0 && p * n <= q * n
    ensures p <= q
  {
    if p > q { ProductPositive(p - q, n); }
  }

  lemma ProductPositive(x: real, y: real)
    requires x > 0.0 && y > 0.0
    ensures x * y > 0.0
  {
  }

  lemma QuotientBetween(w: real, n: real, lo: real, hi: real)
    requires n > 0.0 && lo * n <= w <= hi * n
    ensures lo <= w / n <= hi
  {
    var q := w / n;
    assert q * n == w;
    Cancelled(lo, q, n);
    Cancelled(q, hi, n);
  }

  lemma {:induction false} SomeSamples(s: seq<Observation>)
    requires Chronological(s)
    ensures TotalSamples(s) >= |s|
  {
    if s != [] {
      ChronologicalFront(s);
      SomeSamples(s[..|s| - 1]);
    }
  }

  /** The weighted average lies between the smallest and the largest value. */
  lemma AverageBetween(s: seq<Observation>, lo: real)
    requires Chronological(s) && s != [] && forall o | o in s :: lo <= o.value
    ensures Reduced(s).samples > 0 && lo <= Reduced(s).Average() <= Reduced(s).peak
  {
    PeakBounds(s, lo);
    hide *;
    SomeSamples(s);
    ReducedTotals(s);
    WeightBetween(s, lo, Reduced(s).peak);
    AverageIs(Reduced(s), lo, Reduced(s).peak);
  }

  lemma PeakBounds(s: seq<Observation>, lo: real)
    requires s != [] && forall o | o in s :: lo <= o.value
    ensures Within(s, lo, Reduced(s).peak)
  {
    hide Reduced;
    ReducedExtremes(s);
  }

  lemma AverageIs(a: Aggregate, lo: real, hi: real)
    requires a.samples > 0 && Balanced(a.samples, a.weightedSum, lo, hi)
    ensures lo <= a.Average() <= hi
  {
    QuotientBetween(a.weightedSum, a.samples as real, lo, hi);
  }

  // ----- the series of a batch -----

  function PickSeries(key: string): Observation -> Option<Observation>
  {
    (o: Observation) => if SeriesKey(o) == key then Some(o) else None
  }

  /** The observations of one series, in order. */
  function SeriesOf(h: seq<Observation>, key: string): seq<Observation>
  {
    Seqs.Collect(PickSeries(key), h)
  }

  function Keys(h: seq<Observation>): set<string> { set o | o in h :: SeriesKey(o) }

  lemma SeriesNext(h: seq<Observation>, k: nat, key: string)
    requires k < |h|
    ensures SeriesOf(h[..k + 1], key) == SeriesOf(h[..k], key) + if SeriesKey(h[k]) == key then [h[k]] else []
  {
    hide SeriesKey;
    Seqs.CollectSnoc(PickSeries(key), h, k);
  }

  lemma SeriesMembers(h: seq<Observation>, key: string)
    ensures forall o | o in SeriesOf(h, key) :: o in h && SeriesKey(o) == key
    ensures SeriesOf(h, key) != [] <==> key in Keys(h)
  {
    hide SeriesKey;
    Seqs.Collected(PickSeries(key), h);
    if key in Keys(h) {
      var o :| o in h && SeriesKey(o) == key;
      assert PickSeries(key)(o) == Some(o);
    }
    if SeriesOf(h, key) != [] { assert SeriesOf(h, key)[0] in SeriesOf(h, key); }
  }

  /** In an accepted batch each series is in time order. */
  lemma {:induction false} SeriesChronological(h: seq<Observation>, key: string, k: nat)
    requires Sorting.SortedBy(h, Earlier) && NeighboursApart(h) && Timed(h) && k <= |h|
    requires forall o | o in h :: o.samples >= 1
    ensures Chronological(SeriesOf(h[..k], key))
  {
    if k > 0 {
      hide SeriesKey;
      hide SeriesOf;
      hide Chronological;
      hide Sorting.SortedBy;
      hide NeighboursApart;
      SeriesChronological(h, key, k - 1);
      SeriesNext(h, k - 1, key);
      SeriesMembers(h[..k - 1], key);
      var s, last := SeriesOf(h[..k - 1], key), h[k - 1];
      assert last in h && s + [] == s;
      if SeriesKey(last) == key {
        forall o | o in s ensures o.end <= last.start {
          var i :| 0 <= i < k - 1 && h[i] == o;
          NeighboursChain(h, i, k - 1);
        }
        ChronologicalSnoc(s, last);
      }
    } else {
      assert h[..0] == [];
    }
  }

  lemma ChronologicalSnoc(s: seq<Observation>, last: Observation)
    requires Chronological(s) && (forall o | o in s :: o.end <= last.start) && last.start < last.end && last.samples >= 1
    ensures Chronological(s + [last])
  {
  }

  // ----- conservation -----

  /** The sample counts of the series named by `keys`, added up. */
  function SumOver(keys: seq<string>, h: seq<Observation>): nat
  {
    if keys == [] then 0 else SumOver(keys[..|keys| - 1], h) + TotalSamples(SeriesOf(h, keys[|keys| - 1]))
  }

  ghost predicate Once(keys: seq<string>)
  {
    forall i, j | 0 <= i < j < |keys| :: keys[i] != keys[j]
  }

  lemma TotalSnoc(s: seq<Observation>, o: Observation)
    ensures TotalSamples(s + [o]) == TotalSamples(s) + o.samples
  {
    assert (s + [o])[..|s|] == s;
  }

  lemma {:induction false} SumGrows(keys: seq<string>, h: seq<Observation>, k: nat)
    requires k < |h| && Once(keys)
    ensures SumOver(keys, h[..k + 1]) == SumOver(keys, h[..k]) + if SeriesKey(h[k]) in keys then h[k].samples else 0
  {
    hide SeriesKey;
    hide SeriesOf;
    hide TotalSamples;
    if keys != [] {
      var front, last := keys[..|keys| - 1], keys[|keys| - 1];
      assert keys == front + [last] && last !in front;
      SumGrows(front, h, k);
      SeriesNext(h, k, last);
      var s := SeriesOf(h[..k], last);
      TotalSnoc(s, h[k]);
      assert s + [] == s;
    }
  }

  lemma {:induction false} SumOfNothing(keys: seq<string>)
    ensures SumOver(keys, []) == 0
  {
    if keys != [] { SumOfNothing(keys[..|keys| - 1]); }
  }

  /** Every sample is counted in exactly one series. */
  lemma {:induction false} SamplesConserved(keys: seq<string>, h: seq<Observation>, k: nat)
    requires k <= |h| && Once(keys) && forall key | key in Keys(h) :: key in keys
    ensures SumOver(keys, h[..k]) == TotalSamples(h[..k])
  {
    hide SeriesKey;
    if k == 0 {
      SumOfNothing(keys);
      assert h[..0] == [];
    } else {
      SamplesConserved(keys, h, k - 1);
      SumGrows(keys, h, k - 1);
      TotalSnoc(h[..k - 1], h[k - 1]);
      assert h[..k] == h[..k - 1] + [h[k - 1]] && h[k - 1] in h && SeriesKey(h[k - 1]) in Keys(h);
    }
  }

  // ----- aggregating a batch -----

  /** The aggregates of all series, by ascending key. */
  ghost predicate ListsAggregates(result: seq<Aggregate>, h: seq<Observation>)
  {
    var keys := Sorting.Ascending(Keys(h));
    && |result| == |keys|
    && forall i | 0 <= i < |keys| :: SeriesOf(h, keys[i]) != [] && result[i] == Reduced(SeriesOf(h, keys[i]))
  }

  ghost predicate Countable(h: seq<Observation>)
  {
    forall key | key in Keys(h) :: TotalSamples(SeriesOf(h, key)) <= MOST_SAMPLES_AN_AGGREGATE
  }

  function SamplesOf(result: seq<Aggregate>): nat
  {
    if result == [] then 0 else SamplesOf(result[..|result| - 1]) + result[|result| - 1].samples
  }

  lemma {:induction false} ListedSum(result: seq<Aggregate>, keys: seq<string>, h: seq<Observation>, n: nat)
    requires |result| == |keys| && n <= |keys|
    requires forall i | 0 <= i < |keys| :: SeriesOf(h, keys[i]) != [] && result[i] == Reduced(SeriesOf(h, keys[i]))
    ensures SamplesOf(result[..n]) == SumOver(keys[..n], h)
  {
    hide SeriesOf;
    hide Reduced;
    hide TotalSamples;
    if n > 0 {
      ListedSum(result, keys, h, n - 1);
      assert result[..n][..n - 1] == result[..n - 1] && keys[..n][..n - 1] == keys[..n - 1];
      ReducedTotals(SeriesOf(h, keys[n - 1]));
    } else {
      assert result[..0] == [] && keys[..0] == [];
    }
  }

  /** Aggregation conserves the number of samples. */
  lemma AggregatesConserve(result: seq<Aggregate>, h: seq<Observation>)
    requires ListsAggregates(result, h)
    ensures SamplesOf(result) == TotalSamples(h)
  {
    var keys := Sorting.Ascending(Keys(h));
    Sorting.AscendingListed(Keys(h));
    Sorting.AscendingOnce(Keys(h));
    hide Keys;
    hide SeriesOf;
    hide Reduced;
    hide TotalSamples;
    assert Once(keys);
    ListedSum(result, keys, h, |keys|);
    SamplesConserved(keys, h, |h|);
    assert result[..|keys|] == result && keys[..|keys|] == keys && h[..|h|] == h;
  }

  /** Each aggregate of an accepted batch: its average lies between the least value
      and the peak, its window spans the series, and its latest value is the one of
      the series' unique latest window. */
  lemma AggregateMeans(h: seq<Observation>, key: string, lo: real)
    requires Sorting.SortedBy(h, Earlier) && NeighboursApart(h) && Timed(h) && forall o | o in h :: o.samples >= 1
    requires key in Keys(h) && forall o | o in h && SeriesKey(o) == key :: lo <= o.value
    ensures var s := SeriesOf(h, key);
            && s != [] && Reduced(s).samples == TotalSamples(s) > 0 && lo <= Reduced(s).Average() <= Reduced(s).peak
            && Peaks(s, Reduced(s).peak) && Reduced(s).start == s[0].start && Reduced(s).end == s[|s| - 1].end
            && Reduced(s).latestID == s[|s| - 1].id && Reduced(s).latestValue == s[|s| - 1].value
            && forall i | 0 <= i < |s| - 1 :: s[i].end < s[|s| - 1].end
  {
    var s := SeriesOf(h, key);
    SeriesMembers(h, key);
    SeriesChronological(h, key, |h|);
    assert h[..|h|] == h;
    hide SeriesOf;
    hide Reduced;
    hide SeriesKey;
    hide Peaks;
    hide Sorting.SortedBy;
    hide NeighboursApart;
    ReducedTotals(s);
    ReducedTimes(s);
    ReducedExtremes(s);
    AverageBetween(s, lo);
    LastIsLatest(s);
  }

  lemma LastIsLatest(s: seq<Observation>)
    requires Chronological(s) && s != []
    ensures forall i | 0 <= i < |s| - 1 :: s[i].end < s[|s| - 1].end
  {
  }

  ghost predicate Accumulated(bySeries: map<string, Aggregate>, h: seq<Observation>)
  {
    && bySeries.Keys == Keys(h)
    && forall key | key in bySeries ::
         && SeriesOf(h, key) != [] && bySeries[key] == Reduced(SeriesOf(h, key))
         && TotalSamples(SeriesOf(h, key)) <= MOST_SAMPLES_AN_AGGREGATE
  }

  /** The accumulator an observation goes to; a new one if its series has none. */
  function Item(bySeries: map<string, Aggregate>, o: Observation): Aggregate
  {
    if SeriesKey(o) in bySeries then bySeries[SeriesKey(o)] else Opened(o)
  }

  lemma NothingAccumulated()
    ensures Accumulated(map[], [])
  {
  }

  lemma ItemIs(bySeries: map<string, Aggregate>, h: seq<Observation>, k: nat)
    requires k < |h| && Accumulated(bySeries, h[..k])
    ensures var o, key := h[k], SeriesKey(h[k]);
            && SeriesOf(h[..k + 1], key) != [] && Reduced(SeriesOf(h[..k + 1], key)) == Added(Item(bySeries, o), o)
            && TotalSamples(SeriesOf(h[..k + 1], key)) == Item(bySeries, o).samples + o.samples
  {
    hide SeriesOf;
    hide Keys;
    hide SeriesKey;
    hide Reduced;
    hide Added;
    hide Opened;
    hide TotalSamples;
    var o, key := h[k], SeriesKey(h[k]);
    var s := SeriesOf(h[..k], key);
    SeriesMembers(h[..k], key);
    SeriesNext(h, k, key);
    ReducedSnoc(s, o);
    TotalSnoc(s, o);
    OpenedEmpty(o);
    if s != [] { ReducedTotals(s); } else { NoSamples(); }
  }

  lemma NoSamples()
    ensures TotalSamples([]) == 0
  {
  }

  lemma TooMany(h: seq<Observation>, k: nat)
    requires k < |h| && TotalSamples(SeriesOf(h[..k + 1], SeriesKey(h[k]))) > MOST_SAMPLES_AN_AGGREGATE
    ensures !Countable(h)
  {
    hide SeriesOf;
    hide TotalSamples;
    KeysNext(h, k);
    SeriesWithin(h, k + 1, SeriesKey(h[k]));
    hide Keys;
    hide SeriesKey;
  }

  lemma AccumulateNext(bySeries: map<string, Aggregate>, h: seq<Observation>, k: nat)
    requires k < |h| && Accumulated(bySeries, h[..k])
    requires Item(bySeries, h[k]).samples + h[k].samples <= MOST_SAMPLES_AN_AGGREGATE
    ensures Accumulated(bySeries[SeriesKey(h[k]) := Added(Item(bySeries, h[k]), h[k])], h[..k + 1])
  {
    hide SeriesOf;
    hide Keys;
    hide SeriesKey;
    hide Reduced;
    hide Added;
    hide TotalSamples;
    hide Item;
    KeysNext(h, k);
    ItemIs(bySeries, h, k);
    forall other | other in bySeries && other != SeriesKey(h[k])
      ensures SeriesOf(h[..k + 1], other) == SeriesOf(h[..k], other)
    {
      SeriesNext(h, k, other);
      assert SeriesOf(h[..k], other) + [] == SeriesOf(h[..k], other);
    }
  }

  lemma OpenedEmpty(o: Observation)
    ensures Opened(o).samples == 0
  {
  }

  lemma ReducedSnoc(s: seq<Observation>, o: Observation)
    ensures Reduced(s + [o]) == Added(if s == [] then Opened(o) else Reduced(s), o)
  {
    assert (s + [o])[..|s|] == s;
  }

  lemma KeysNext(h: seq<Observation>, k: nat)
    requires k < |h|
    ensures Keys(h[..k + 1]) == Keys(h[..k]) + {SeriesKey(h[k])}
    ensures SeriesKey(h[k]) in Keys(h)
  {
    hide SeriesKey;
    assert h[..k + 1] == h[..k] + [h[k]] && h[k] in h;
  }

  /** A prefix has no more samples of a series than the whole. */
  lemma {:induction false} SeriesWithin(h: seq<Observation>, k: nat, key: string)
    requires k <= |h|
    ensures TotalSamples(SeriesOf(h[..k], key)) <= TotalSamples(SeriesOf(h, key))
    decreases |h| - k
  {
    if k == |h| {
      assert h[..k] == h;
    } else {
      hide SeriesKey;
      hide SeriesOf;
      hide TotalSamples;
      SeriesWithin(h, k + 1, key);
      SeriesNext(h, k, key);
      TotalSnoc(SeriesOf(h[..k], key), h[k]);
      assert SeriesOf(h[..k], key) + [] == SeriesOf(h[..k], key);
    }
  }

  // ----- what is reported -----

  /** An aggregate with what is worked out at the end. */
  datatype Report = Report(aggregate: Aggregate, average: real, ageSeconds: nat)

  function AggregateOf(r: Report): Aggregate { r.aggregate }

  /** Whole seconds, rounded up; nothing for an instant that is not past. */
  function CeilingSeconds(d: int): nat
  {
    if d <= 0 then 0 else (d + SECOND - 1) / SECOND
  }

  /** The least number of seconds that covers the duration. */
  lemma CeilingIsLeast(d: int, k: nat)
    ensures CeilingSeconds(d) <= k <==> d <= k * SECOND
  {
  }

  predicate ReportOk(r: Report, now: Time)
  {
    r.aggregate.samples > 0 && r.average == r.aggregate.Average() && r.ageSeconds == CeilingSeconds(now - r.aggregate.end)
  }

  /** One report for each series, by ascending key. */
  ghost predicate ListsReports(result: seq<Report>, h: seq<Observation>, now: Time)
  {
    ListsAggregates(Seqs.Map(AggregateOf, result), h) && forall r | r in result :: ReportOk(r, now)
  }

  ghost predicate Counted(h: seq<Observation>) { forall o | o in h :: o.samples >= 1 }

  lemma {:induction false} SamplesPositive(s: seq<Observation>)
    requires s != [] && Counted(s)
    ensures TotalSamples(s) >= 1
  {
    if |s| > 1 { SamplesPositive(s[..|s| - 1]); }
  }

  lemma ItemCounted(bySeries: map<string, Aggregate>, h: seq<Observation>, key: string)
    requires Accumulated(bySeries, h) && Counted(h) && key in bySeries
    ensures bySeries[key].samples > 0
  {
    SeriesMembers(h, key);
    hide SeriesOf;
    hide Reduced;
    hide TotalSamples;
    hide Keys;
    hide SeriesKey;
    SamplesPositive(SeriesOf(h, key));
    ReducedTotals(SeriesOf(h, key));
  }

  /** Fails only when a series has too many samples. */
  method AggregateNormalized(h: seq<Observation>, now: Time) returns (r: Option<seq<Report>>)
    requires Counted(h)
    ensures r.Some? <==> Countable(h)
    ensures r.Some? ==> ListsReports(r.value, h, now)
  {
    hide *;
    var bySeries: map<string, Aggregate> := map[];
    assert h[..0] == [];
    NothingAccumulated();
    for k := 0 to |h|
      invariant Accumulated(bySeries, h[..k])
    {
      var o := h[k];
      var item := Item(bySeries, o);
      ItemIs(bySeries, h, k);
      if MOST_SAMPLES_AN_AGGREGATE - item.samples < o.samples {
        TooMany(h, k);
        return None;
      }
      AccumulateNext(bySeries, h, k);
      bySeries := bySeries[SeriesKey(o) := Added(item, o)];
    }
    assert h[..|h|] == h;
    AllCounted(bySeries, h);
    var result := ListSeries(bySeries, h, now);
    return Some(result);
  }

  method ListSeries(bySeries: map<string, Aggregate>, ghost h: seq<Observation>, now: Time) returns (result: seq<Report>)
    requires Accumulated(bySeries, h) && Counted(h)
    ensures ListsReports(result, h, now)
  {
    hide *;
    var keys := Sorting.SortedKeys(bySeries.Keys);
    Sorting.AscendingListed(bySeries.Keys);
    result := [];
    for k := 0 to |keys|
      invariant |result| == k && forall i | 0 <= i < k :: result[i].aggregate == bySeries[keys[i]]
      invariant forall r | r in result :: ReportOk(r, now)
    {
      assert keys[k] in keys;
      var a := bySeries[keys[k]];
      ItemCounted(bySeries, h, keys[k]);
      var report := Report(a, a.Average(), CeilingSeconds(now - a.end));
      ReportIs(report, now);
      result := result + [report];
    }
    ReportsListed(result, keys, bySeries, h, now);
  }

  lemma ReportIs(r: Report, now: Time)
    requires r.aggregate.samples > 0 && r.average == r.aggregate.Average() && r.ageSeconds == CeilingSeconds(now - r.aggregate.end)
    ensures ReportOk(r, now)
  {
  }

  lemma ReportsListed(result: seq<Report>, keys: seq<string>, bySeries: map<string, Aggregate>, h: seq<Observation>, now: Time)
    requires Accumulated(bySeries, h) && keys == Sorting.Ascending(bySeries.Keys) && |result| == |keys|
    requires (forall key | key in keys :: key in bySeries) && forall r | r in result :: ReportOk(r, now)
    requires forall i | 0 <= i < |keys| :: result[i].aggregate == bySeries[keys[i]]
    ensures ListsReports(result, h, now)
  {
    hide Accumulated;
    hide ListsAggregates;
    Listed(Seqs.Map(AggregateOf, result), keys, bySeries, h);
  }

  lemma AllCounted(bySeries: map<string, Aggregate>, h: seq<Observation>)
    requires Accumulated(bySeries, h)
    ensures Countable(h)
  {
    hide Keys;
    hide SeriesOf;
    hide Reduced;
    hide TotalSamples;
  }

  lemma Listed(result: seq<Aggregate>, keys: seq<string>, bySeries: map<string, Aggregate>, h: seq<Observation>)
    requires Accumulated(bySeries, h) && keys == Sorting.Ascending(bySeries.Keys) && |result| == |keys|
    requires forall key | key in keys :: key in bySeries
    requires forall i | 0 <= i < |keys| :: result[i] == bySeries[keys[i]]
    ensures ListsAggregates(result, h)
  {
    hide Keys;
    hide SeriesOf;
    hide Reduced;
    hide TotalSamples;
  }

  /** What normalizing establishes for the aggregation. */
  lemma AcceptedInOrder(b: Batch, now: Time)
    requires BatchOk(b, now)
    ensures var h := Sorted(Normalized(b));
            Sorting.SortedBy(h, Earlier) && NeighboursApart(h) && Timed(h) && forall o | o in h :: o.samples >= 1
  {
    SortedChecks(Normalized(b), now, b.maxAgeSeconds * SECOND);
    Sorting.SameElements(Sorted(Normalized(b)), Normalized(b));
    hide Disjoint;
    hide NeighboursApart;
    hide Earlier;
    hide Sorting.DistinctKeys;
  }

  /** Validates, then reduces; refused for an invalid batch or too many samples. */
  method AggregateBatch(b: Batch, now: Time) returns (r: Option<seq<Report>>)
    ensures r.Some? <==> BatchOk(b, now) && Countable(Sorted(Normalized(b)))
    ensures r.Some? ==> ListsReports(r.value, Sorted(Normalized(b)), now)
  {
    hide *;
    var normalized := NormalizeBatch(b, now);
    if normalized.None? { return None; }
    AcceptedCounted(b, now);
    r := AggregateNormalized(normalized.value, now);
  }

  lemma AcceptedCounted(b: Batch, now: Time)
    requires BatchOk(b, now)
    ensures Counted(Sorted(Normalized(b)))
  {
    hide BatchOk;
    AcceptedInOrder(b, now);
  }

  /** No report of an accepted batch is older than the batch allows. */
  lemma ReportsAreFresh(b: Batch, now: Time, result: seq<Report>, r: Report)
    requires BatchOk(b, now) && ListsReports(result, Sorted(Normalized(b)), now) && r in result
    ensures r.ageSeconds <= b.maxAgeSeconds
  {
    var h := Sorted(Normalized(b));
    AcceptedInOrder(b, now);
    var key := ReportedSeries(result, h, now, r);
    var s := SeriesOf(h, key);
    SeriesMembers(h, key);
    SeriesChronological(h, key, |h|);
    assert h[..|h|] == h;
    hide SeriesOf;
    hide Keys;
    hide SeriesKey;
    hide Sorting.SortedBy;
    hide NeighboursApart;
    ReducedTimes(s);
    hide Reduced;
    var last := s[|s| - 1];
    assert last in s && last in h;
    LastEnd(b, now, last);
    CeilingIsLeast(now - last.end, b.maxAgeSeconds);
  }

  lemma ReportedSeries(result: seq<Report>, h: seq<Observation>, now: Time, r: Report) returns (key: string)
    requires ListsReports(result, h, now) && r in result
    ensures key in Keys(h) && SeriesOf(h, key) != [] && r.aggregate == Reduced(SeriesOf(h, key))
    ensures r.ageSeconds == CeilingSeconds(now - r.aggregate.end)
  {
    hide SeriesOf;
    hide Reduced;
    Sorting.AscendingListed(Keys(h));
    hide Keys;
    var i :| 0 <= i < |result| && result[i] == r;
    key := Sorting.Ascending(Keys(h))[i];
  }

  lemma LastEnd(b: Batch, now: Time, o: Observation)
    requires BatchOk(b, now) && o in Sorted(Normalized(b))
    ensures now - o.end <= b.maxAgeSeconds * SECOND && 1 <= b.maxAgeSeconds
  {
    Sorting.SameElements(Sorted(Normalized(b)), Normalized(b));
    hide Disjoint;
    hide Sorted;
    hide Sorting.DistinctKeys;
    assert ObservationOk(o, now, b.maxAgeSeconds * SECOND);
  }

  /** The order of a batch's observations is forgotten. */
  lemma BatchOrderForgotten(a: seq<Observation>, b: seq<Observation>)
    requires multiset(a) == multiset(b) && Sorting.DistinctKeys(a, LowerID)
    ensures Sorted(a) == Sorted(b)
  {
    hide SeriesKey;
    Sorting.DistinctPermuted(a, Sorted(a), LowerID);
    forall x, y | x in Sorted(a) && y in Sorted(a) && x != y ensures Earlier(x, y) || Earlier(y, x) {
      Text.LessTotal(SeriesKey(x), SeriesKey(y));
      Text.LessTotal(x.id, y.id);
      if x.id == y.id { Sorting.SameKeySameElement(Sorted(a), LowerID, x, y); }
    }
    hide Earlier;
    Sorting.SortedUnique(Sorted(a), Sorted(b), Earlier);
  }
}
