/** Reconciling device observations and the registry that keeps the outcome
    (internal/inventory/reconcile.go and state.go). */
module Inventory {
  import opened Options
  import Seqs
  import Sorting
  import Text

  /** Instants in nanoseconds; 0 is Go's zero time. */
  type Time = int

  datatype Observation = Observation(deviceID: string, source: string, hostname: string, seenAt: Time)
  datatype Device = Device(deviceID: string, latest: Observation, sources: seq<string>)

  function Trimmed(o: Observation): Observation
  {
    o.(deviceID := Text.Trim(o.deviceID), source := Text.Trim(o.source))
  }

  function Normal(batch: seq<Observation>): seq<Observation> { Seqs.Map(Trimmed, batch) }

  predicate Usable(o: Observation) { o.deviceID != "" && o.source != "" && o.seenAt != 0 }

  /** Trimmed and usable observations throughout. */
  predicate Clean(h: seq<Observation>)
  {
    forall o | o in h :: Usable(o) && Trimmed(o) == o
  }

  // ----- the newest observation -----

  /** Newer, or as new and from a smaller source. */
  predicate Beats(a: Observation, b: Observation)
  {
    a.seenAt > b.seenAt || (a.seenAt == b.seenAt && Text.Less(a.source, b.source))
  }

  function Better(current: Option<Observation>, o: Observation): Option<Observation>
  {
    if current.None? || Beats(o, current.value) then Some(o) else current
  }

  function Latest(h: seq<Observation>, id: string): Option<Observation>
  {
    if h == [] then None
    else
      var before, last := Latest(h[..|h| - 1], id), h[|h| - 1];
      if last.deviceID == id then Better(before, last) else before
  }

  lemma BeatsOrders(a: Observation, b: Observation, c: Observation)
    ensures !(Beats(a, b) && Beats(b, a))
    ensures Beats(a, b) && Beats(b, c) ==> Beats(a, c)
    ensures !Beats(a, b) && !Beats(b, c) ==> !Beats(a, c)
  {
    Text.LessIsStrictTotal();
  }

  /** Comparing in groups is comparing one by one. */
  lemma BetterAssociates(a: Option<Observation>, b: Option<Observation>, o: Observation)
    ensures Better(if b.Some? then Better(a, b.value) else a, o) == Better(a, Better(b, o).value)
  {
    if a.Some? && b.Some? {
      BeatsOrders(o, b.value, a.value);
      BeatsOrders(o, a.value, b.value);
      BeatsOrders(b.value, o, a.value);
      BeatsOrders(b.value, a.value, o);
    }
  }

  function Joined(a: Option<Observation>, b: Option<Observation>): Option<Observation>
  {
    if b.Some? then Better(a, b.value) else a
  }

  lemma {:induction false} LatestJoins(a: seq<Observation>, b: seq<Observation>, id: string)
    ensures Latest(a + b, id) == Joined(Latest(a, id), Latest(b, id))
  {
    if b == [] {
      assert a + b == a;
    } else {
      var front, last := b[..|b| - 1], b[|b| - 1];
      assert (a + b)[..|a + b| - 1] == a + front;
      hide Better;
      hide Beats;
      LatestJoins(a, front, id);
      BetterAssociates(Latest(a, id), Latest(front, id), last);
      BetterIsSome(Latest(front, id), last);
    }
  }

  lemma BetterIsSome(a: Option<Observation>, o: Observation)
    ensures Better(a, o).Some?
  {
  }

  /** The first of the best: it beats every earlier observation of the device, and
      no later one beats it. */
  ghost predicate FirstBest(h: seq<Observation>, id: string, k: nat)
  {
    && k < |h| && h[k].deviceID == id
    && (forall j | 0 <= j < k && h[j].deviceID == id :: Beats(h[k], h[j]))
    && (forall j | k < j < |h| && h[j].deviceID == id :: !Beats(h[j], h[k]))
  }

  lemma {:induction false} LatestIsFirstBest(h: seq<Observation>, id: string)
    ensures Latest(h, id).None? <==> forall o | o in h :: o.deviceID != id
    ensures Latest(h, id).Some? ==> exists k: nat :: FirstBest(h, id, k) && h[k] == Latest(h, id).value
  {
    if h != [] {
      var n := |h| - 1;
      var front, last := h[..n], h[n];
      assert h == front + [last];
      LatestIsFirstBest(front, id);
      if Latest(front, id).Some? {
        var k: nat :| FirstBest(front, id, k) && front[k] == Latest(front, id).value;
        if last.deviceID == id && Beats(last, front[k]) {
          LastIsBest(front, last, id, k);
          assert FirstBest(h, id, n);
        } else {
          assert FirstBest(h, id, k);
        }
      } else if last.deviceID == id {
        assert FirstBest(h, id, n);
      }
    }
  }

  lemma LastIsBest(front: seq<Observation>, last: Observation, id: string, k: nat)
    requires FirstBest(front, id, k) && Beats(last, front[k])
    ensures forall j | 0 <= j < |front| && front[j].deviceID == id :: Beats(last, front[j])
  {
    forall j | 0 <= j < |front| && front[j].deviceID == id ensures Beats(last, front[j]) {
      BeatsOrders(last, front[k], front[j]);
      BeatsOrders(last, front[j], front[k]);
    }
  }

  // ----- the registry of a history -----

  function Known(h: seq<Observation>): set<string> { set o | o in h :: o.deviceID }
  function Sources(h: seq<Observation>, id: string): set<string> { set o | o in h && o.deviceID == id :: o.source }

  lemma KnownHasLatest(h: seq<Observation>, id: string)
    ensures id in Known(h) <==> Latest(h, id).Some?
  {
    LatestIsFirstBest(h, id);
  }

  /** The newest observation and the sorted sources of a device over a history. */
  ghost function View(h: seq<Observation>, id: string): Device
    requires id in Known(h)
  {
    KnownHasLatest(h, id);
    Device(id, Latest(h, id).value, Sorting.Ascending(Sources(h, id)))
  }

  ghost function Registry(h: seq<Observation>): map<string, Device>
  {
    map id | id in Known(h) :: View(h, id)
  }

  // ----- merging a batch -----

  function NonEmptyTrimmed(values: seq<string>): set<string>
  {
    set v | v in values && Text.Trim(v) != "" :: Text.Trim(v)
  }

  ghost function Merged(left: seq<string>, right: seq<string>): seq<string>
  {
    Sorting.Ascending(NonEmptyTrimmed(left + right))
  }

  ghost function Combined(current: Device, incoming: Device): Device
  {
    Device(current.deviceID, if Beats(incoming.latest, current.latest) then incoming.latest else current.latest,
           Merged(current.sources, incoming.sources))
  }

  ghost function Updated(devices: map<string, Device>, incoming: Device): Device
  {
    if incoming.deviceID in devices then Combined(devices[incoming.deviceID], incoming) else incoming
  }

  /** The registry after a batch of clean observations. */
  ghost function Ingested(devices: map<string, Device>, batch: seq<Observation>): map<string, Device>
  {
    map id | id in devices.Keys + Known(batch) ::
      if id in Known(batch) then Updated(devices, View(batch, id)) else devices[id]
  }

  lemma SourcesMerge(a: seq<Observation>, b: seq<Observation>, id: string)
    requires Clean(a) && Clean(b)
    ensures Merged(Sorting.Ascending(Sources(a, id)), Sorting.Ascending(Sources(b, id))) == Sorting.Ascending(Sources(a + b, id))
  {
    var left, right := Sorting.Ascending(Sources(a, id)), Sorting.Ascending(Sources(b, id));
    Sorting.AscendingListed(Sources(a, id));
    Sorting.AscendingListed(Sources(b, id));
    SourcesJoin(a, b, id);
    CleanSources(a, id);
    CleanSources(b, id);
    hide Clean;
    hide Sources;
    hide Text.Trim;
    hide Sorting.Ascending;
    assert forall v :: v in left + right <==> v in Sources(a, id) + Sources(b, id);
    assert NonEmptyTrimmed(left + right) == Sources(a, id) + Sources(b, id);
  }

  lemma SourcesJoin(a: seq<Observation>, b: seq<Observation>, id: string)
    ensures Sources(a + b, id) == Sources(a, id) + Sources(b, id)
  {
  }

  lemma CleanSources(h: seq<Observation>, id: string)
    requires Clean(h)
    ensures forall v | v in Sources(h, id) :: Text.Trim(v) == v != ""
  {
    hide Text.Trim;
  }

  lemma KnownJoins(a: seq<Observation>, b: seq<Observation>)
    ensures Known(a + b) == Known(a) + Known(b)
  {
  }

  lemma ViewJoins(h: seq<Observation>, batch: seq<Observation>, id: string)
    requires Clean(h) && Clean(batch) && id in Known(h) + Known(batch)
    ensures id in Known(h + batch)
    ensures View(h + batch, id) == if id !in Known(batch) then View(h, id)
                                   else if id !in Known(h) then View(batch, id)
                                   else Combined(View(h, id), View(batch, id))
  {
    hide Clean;
    hide Latest;
    hide Sources;
    hide Known;
    hide Merged;
    hide Beats;
    hide Sorting.Ascending;
    KnownJoins(h, batch);
    LatestJoins(h, batch, id);
    KnownHasLatest(h, id);
    KnownHasLatest(batch, id);
    SourcesMerge(h, batch, id);
    SourcesJoin(h, batch, id);
    var a, b := Sources(h, id), Sources(batch, id);
    if id !in Known(h) {
      NoSources(h, id);
      assert {} + b == b;
    } else if id !in Known(batch) {
      NoSources(batch, id);
      assert a + {} == a;
    }
  }

  /** Merging a batch into the registry of a history gives the registry of both. */
  lemma IngestExtends(h: seq<Observation>, batch: seq<Observation>)
    requires Clean(h) && Clean(batch)
    ensures Ingested(Registry(h), batch) == Registry(h + batch)
  {
    hide Clean;
    hide Known;
    hide View;
    hide Combined;
    KnownJoins(h, batch);
    forall id | id in Known(h) + Known(batch) ensures Ingested(Registry(h), batch)[id] == Registry(h + batch)[id] {
      ViewJoins(h, batch, id);
      ViewNames(batch, id);
    }
  }

  lemma ViewNames(h: seq<Observation>, id: string)
    ensures id in Known(h) ==> View(h, id).deviceID == id
  {
    hide Known;
  }

  lemma NoSources(h: seq<Observation>, id: string)
    requires id !in Known(h)
    ensures Sources(h, id) == {}
  {
    forall o | o in h ensures o.deviceID != id { assert o.deviceID in Known(h); }
  }

  /** What Ingest accepts is clean once trimmed, so runs of Ingest are runs of
      clean batches. */
  lemma NormalIsClean(batch: seq<Observation>)
    requires forall o | o in Normal(batch) :: Usable(o)
    ensures Clean(Normal(batch))
  {
    forall o | o in Normal(batch) ensures Trimmed(o) == o {
      var i :| 0 <= i < |batch| && Trimmed(batch[i]) == o;
      Text.TrimIdempotent(batch[i].deviceID);
      Text.TrimIdempotent(batch[i].source);
    }
  }

  // ----- any grouping into batches -----

  function Flatten(batches: seq<seq<Observation>>): seq<Observation>
  {
    if batches == [] then [] else Flatten(batches[..|batches| - 1]) + batches[|batches| - 1]
  }

  ghost function IngestedAll(batches: seq<seq<Observation>>): map<string, Device>
  {
    if batches == [] then map[] else Ingested(IngestedAll(batches[..|batches| - 1]), batches[|batches| - 1])
  }

  lemma {:induction false} FlattenClean(batches: seq<seq<Observation>>)
    requires forall b | b in batches :: Clean(b)
    ensures Clean(Flatten(batches))
  {
    if batches != [] {
      FlattenClean(batches[..|batches| - 1]);
      assert batches[|batches| - 1] in batches;
      hide Usable;
      hide Trimmed;
    }
  }

  /** However observations are grouped into batches, the registry is the one of
      all of them: newest first-best observation and sorted union of sources. */
  lemma {:induction false} GroupingIsIrrelevant(batches: seq<seq<Observation>>)
    requires forall b | b in batches :: Clean(b)
    ensures IngestedAll(batches) == Registry(Flatten(batches))
  {
    hide Clean;
    if batches == [] {
      assert Registry([]) == map[];
    } else {
      var front, last := batches[..|batches| - 1], batches[|batches| - 1];
      assert last in batches && forall b | b in front :: b in batches;
      GroupingIsIrrelevant(front);
      FlattenClean(front);
      hide Ingested;
      hide Registry;
      IngestExtends(Flatten(front), last);
    }
  }

  lemma OneBatch(batch: seq<Observation>)
    requires Clean(batch)
    ensures Ingested(map[], batch) == Registry(batch)
  {
    assert [] + batch == batch && Registry([]) == map[];
    IngestExtends([], batch);
  }

  lemma {:induction false} NormalFlattens(batches: seq<seq<Observation>>)
    ensures Flatten(Seqs.Map(Normal, batches)) == Normal(Flatten(batches))
  {
    if batches != [] {
      var n := |batches| - 1;
      hide Normal;
      NormalFlattens(batches[..n]);
      assert Seqs.Map(Normal, batches)[..n] == Seqs.Map(Normal, batches[..n]);
      NormalJoins(Flatten(batches[..n]), batches[n]);
    }
  }

  lemma NormalJoins(a: seq<Observation>, b: seq<Observation>)
    ensures Normal(a + b) == Normal(a) + Normal(b)
  {
    hide Trimmed;
  }

  /** Ingesting observations batch by batch, in any grouping that Ingest accepts, ends
      in the registry that one batch of all of them gives. */
  lemma AnyGrouping(batches: seq<seq<Observation>>)
    requires forall b | b in batches :: forall o | o in Normal(b) :: Usable(o)
    ensures IngestedAll(Seqs.Map(Normal, batches)) == Ingested(map[], Normal(Flatten(batches)))
    ensures IngestedAll(Seqs.Map(Normal, batches)) == Registry(Normal(Flatten(batches)))
  {
    var clean := Seqs.Map(Normal, batches);
    forall b | b in clean ensures Clean(b) {
      var i :| 0 <= i < |batches| && Normal(batches[i]) == b;
      assert batches[i] in batches;
      NormalIsClean(batches[i]);
    }
    hide Clean;
    hide Normal;
    hide Registry;
    hide Ingested;
    GroupingIsIrrelevant(clean);
    FlattenClean(clean);
    NormalFlattens(batches);
    OneBatch(Flatten(clean));
  }

  // ----- reconciling -----

  ghost predicate ListsRegistry(result: seq<Device>, registry: map<string, Device>)
  {
    var ids := Sorting.Ascending(registry.Keys);
    |result| == |ids| && forall i | 0 <= i < |ids| :: ids[i] in registry && result[i] == registry[ids[i]]
  }

  /** The aggregates after the observations `h`. */
  ghost predicate Aggregates(latest: map<string, Observation>, sources: map<string, set<string>>, h: seq<Observation>)
  {
    && latest.Keys == sources.Keys == Known(h)
    && forall id | id in latest :: Latest(h, id) == Some(latest[id]) && sources[id] == Sources(h, id)
  }

  lemma Snoc(h: seq<Observation>, o: Observation, id: string)
    ensures Known(h + [o]) == Known(h) + {o.deviceID}
    ensures Latest(h + [o], id) == if o.deviceID == id then Better(Latest(h, id), o) else Latest(h, id)
    ensures Sources(h + [o], id) == Sources(h, id) + if o.deviceID == id then {o.source} else {}
    ensures id !in Known(h) ==> Sources(h, id) == {} && Latest(h, id) == None
  {
    KnownJoins(h, [o]);
    assert Known([o]) == {o.deviceID};
    assert (h + [o])[..|h|] == h;
    SourcesJoin(h, [o], id);
    assert Sources([o], id) == if o.deviceID == id then {o.source} else {};
    KnownHasLatest(h, id);
    if id !in Known(h) { NoSources(h, id); }
  }

  lemma AggregateNext(latest: map<string, Observation>, sources: map<string, set<string>>, h: seq<Observation>, o: Observation)
    requires Aggregates(latest, sources, h)
    ensures var id := o.deviceID;
            Aggregates(latest[id := if id !in latest || Beats(o, latest[id]) then o else latest[id]],
                       sources[id := (if id in sources then sources[id] else {}) + {o.source}], h + [o])
  {
    hide Sources;
    hide Known;
    hide Beats;
    hide Latest;
    var d := o.deviceID;
    var latest' := latest[d := if d !in latest || Beats(o, latest[d]) then o else latest[d]];
    var sources' := sources[d := (if d in sources then sources[d] else {}) + {o.source}];
    Snoc(h, o, d);
    forall id | id in latest' ensures Latest(h + [o], id) == Some(latest'[id]) && sources'[id] == Sources(h + [o], id) {
      Snoc(h, o, id);
    }
  }

  method ReconcileObservations(observations: seq<Observation>) returns (r: Option<seq<Device>>)
    ensures r.Some? <==> forall o | o in Normal(observations) :: Usable(o)
    ensures r.Some? ==> ListsRegistry(r.value, Registry(Normal(observations)))
  {
    ghost var h := Normal(observations);
    var latest: map<string, Observation>, sources: map<string, set<string>> := map[], map[];
    assert h[..0] == [] && Aggregates(latest, sources, []);
    hide Aggregates;
    hide Usable;
    for k := 0 to |observations|
      invariant forall o | o in h[..k] :: Usable(o)
      invariant Aggregates(latest, sources, h[..k])
    {
      var o := Trimmed(observations[k]);
      assert o == h[k] && o in h && h[..k + 1] == h[..k] + [o];
      if !Usable(o) { return None; }
      AggregateNext(latest, sources, h[..k], o);
      var id := o.deviceID;
      latest := latest[id := if id !in latest || Beats(o, latest[id]) then o else latest[id]];
      sources := sources[id := (if id in sources then sources[id] else {}) + {o.source}];
    }
    assert h[..|h|] == h;
    var result := ListAggregates(latest, sources, h);
    return Some(result);
  }

  method ListAggregates(latest: map<string, Observation>, sources: map<string, set<string>>, ghost h: seq<Observation>)
    returns (result: seq<Device>)
    requires Aggregates(latest, sources, h)
    ensures ListsRegistry(result, Registry(h))
  {
    hide *;
    AggregatedKeys(latest, sources, h);
    var ids := Sorting.SortedKeys(latest.Keys);
    Sorting.AscendingListed(latest.Keys);
    result := [];
    for k := 0 to |ids|
      invariant |result| == k && forall i | 0 <= i < k :: Registered(h, ids[i], result[i])
    {
      var id := ids[k];
      assert id in ids;
      var listed := Sorting.SortedKeys(sources[id]);
      AggregatedView(latest, sources, h, id);
      result := result + [Device(id, latest[id], listed)];
    }
    Lists(result, Registry(h), ids, h);
  }

  ghost predicate Registered(h: seq<Observation>, id: string, d: Device)
  {
    id in Registry(h) && Registry(h)[id] == d
  }

  lemma Lists(result: seq<Device>, registry: map<string, Device>, ids: seq<string>, h: seq<Observation>)
    requires registry == Registry(h) && ids == Sorting.Ascending(registry.Keys) && |result| == |ids|
    requires forall i | 0 <= i < |ids| :: Registered(h, ids[i], result[i])
    ensures ListsRegistry(result, registry)
  {
    hide Registry;
  }

  lemma AggregatedKeys(latest: map<string, Observation>, sources: map<string, set<string>>, h: seq<Observation>)
    requires Aggregates(latest, sources, h)
    ensures latest.Keys == sources.Keys == Registry(h).Keys
  {
    hide Latest;
    hide Sources;
    hide Known;
  }

  lemma AggregatedView(latest: map<string, Observation>, sources: map<string, set<string>>, h: seq<Observation>, id: string)
    requires Aggregates(latest, sources, h) && id in latest
    ensures id in sources && Registered(h, id, Device(id, latest[id], Sorting.Ascending(sources[id])))
  {
    hide Latest;
    hide Sources;
    hide Known;
  }

  // ----- the registry object -----

  method MergeStrings(left: seq<string>, right: seq<string>) returns (out: seq<string>)
    ensures out == Merged(left, right)
  {
    var values := left + right;
    var kept: set<string> := {};
    for k := 0 to |values|
      invariant kept == NonEmptyTrimmed(values[..k])
    {
      assert values[..k + 1] == values[..k] + [values[k]];
      var value := Text.Trim(values[k]);
      if value != "" { kept := kept + {value}; }
    }
    assert values[..|values|] == values;
    out := Sorting.SortedKeys(kept);
  }

  class MemoryRegistry {
    var devices: map<string, Device>

    constructor ()
      ensures devices == map[]
    {
      devices := map[];
    }

    /** A batch with an unusable observation changes nothing. */
    method Ingest(observations: seq<Observation>) returns (r: Option<seq<Device>>)
      modifies this
      ensures r.Some? <==> forall o | o in Normal(observations) :: Usable(o)
      ensures r.Some? ==> devices == Ingested(old(devices), Normal(observations)) && ListsRegistry(r.value, devices)
      ensures r.None? ==> devices == old(devices)
    {
      hide ListsRegistry;
      hide Usable;
      hide Ingested;
      var reconciled := ReconcileObservations(observations);
      if reconciled.None? { return None; }
      ghost var h := Normal(observations);
      ghost var ids := ListedOnce(reconciled.value, h);
      SameLength(reconciled.value, ids, h);
      HalfwayStart(devices, h);
      hide *;
      for k := 0 to |reconciled.value|
        invariant |ids| == |reconciled.value| && Halfway(old(devices), devices, h, ids[..k])
      {
        var incoming := reconciled.value[k];
        HalfwayNext(old(devices), devices, h, reconciled.value, ids, k);
        UpdatedIs(old(devices), incoming);
        if incoming.deviceID !in devices {
          devices := devices[incoming.deviceID := incoming];
        } else {
          var current := devices[incoming.deviceID];
          var sources := MergeStrings(current.sources, incoming.sources);
          var latest := if Beats(incoming.latest, current.latest) then incoming.latest else current.latest;
          devices := devices[incoming.deviceID := Device(current.deviceID, latest, sources)];
        }
      }
      assert ids[..|ids|] == ids;
      HalfwayDone(old(devices), devices, h, reconciled.value, ids);
      var list := ListLocked();
      return Some(list);
    }

    method ListLocked() returns (items: seq<Device>)
      ensures ListsRegistry(items, devices)
    {
      var ids := Sorting.SortedKeys(devices.Keys);
      Sorting.AscendingListed(devices.Keys);
      items := [];
      for k := 0 to |ids|
        invariant |items| == k && forall i | 0 <= i < k :: ids[i] in devices && items[i] == devices[ids[i]]
      {
        assert ids[k] in ids;
        items := items + [devices[ids[k]]];
      }
    }

    method Get(deviceID: string) returns (item: Option<Device>)
      ensures item.Some? <==> Text.Trim(deviceID) in devices
      ensures item.Some? ==> item.value == devices[Text.Trim(deviceID)]
    {
      var id := Text.Trim(deviceID);
      item := if id in devices then Some(devices[id]) else None;
    }
  }

  /** The list of a reconciled batch names each device once, with its view. */
  ghost predicate Listed(list: seq<Device>, ids: seq<string>, h: seq<Observation>)
  {
    && |list| == |ids| && (forall i, j | 0 <= i < j < |ids| :: ids[i] != ids[j])
    && (forall id :: id in ids <==> id in Known(h))
    && forall k | 0 <= k < |ids| :: ids[k] in Known(h) && list[k] == View(h, ids[k])
  }

  lemma ListedOnce(list: seq<Device>, h: seq<Observation>) returns (ids: seq<string>)
    requires ListsRegistry(list, Registry(h))
    ensures Listed(list, ids, h)
  {
    hide Known;
    hide View;
    hide Sorting.SortedBy;
    ids := Sorting.Ascending(Registry(h).Keys);
    assert Registry(h).Keys == Known(h);
    Sorting.AscendingListed(Known(h));
    Sorting.AscendingOnce(Known(h));
  }

  lemma ListedAt(list: seq<Device>, ids: seq<string>, h: seq<Observation>, k: nat)
    requires Listed(list, ids, h) && k < |ids|
    ensures |list| == |ids| && ids[k] in Known(h) && list[k] == View(h, ids[k]) && list[k].deviceID == ids[k]
    ensures ids[k] !in ids[..k]
  {
    hide Known;
    ViewNames(h, ids[k]);
    hide View;
  }

  /** Part of a batch is merged: the devices done are, the others are as before. */
  ghost predicate Halfway(before: map<string, Device>, now: map<string, Device>, h: seq<Observation>, done: seq<string>)
  {
    && (forall id | id in done :: id in Known(h))
    && (forall id :: id in now <==> id in before || id in done)
    && forall id | id in now :: now[id] == if id in done then Updated(before, View(h, id)) else before[id]
  }

  lemma HalfwayStart(devices: map<string, Device>, h: seq<Observation>)
    ensures Halfway(devices, devices, h, [])
  {
  }

  lemma HalfwayNext(before: map<string, Device>, now: map<string, Device>, h: seq<Observation>, list: seq<Device>,
                    ids: seq<string>, k: nat)
    requires Listed(list, ids, h) && k < |ids| && Halfway(before, now, h, ids[..k])
    ensures var incoming := list[k];
            var id := incoming.deviceID;
            && (id in now <==> id in before) && (id in now ==> now[id] == before[id])
            && Halfway(before, now[id := Updated(before, incoming)], h, ids[..k + 1])
  {
    hide *;
    ListedAt(list, ids, h, k);
    assert ids[..k + 1] == ids[..k] + [ids[k]];
    HalfwayAdd(before, now, h, ids[..k], ids[k]);
  }

  lemma HalfwayAdd(before: map<string, Device>, now: map<string, Device>, h: seq<Observation>, done: seq<string>, id: string)
    requires Halfway(before, now, h, done) && id in Known(h) && id !in done
    ensures (id in now <==> id in before) && (id in now ==> now[id] == before[id])
    ensures Halfway(before, now[id := Updated(before, View(h, id))], h, done + [id])
  {
    hide Known;
    hide Updated;
    hide View;
  }

  lemma HalfwayDone(before: map<string, Device>, now: map<string, Device>, h: seq<Observation>, list: seq<Device>, ids: seq<string>)
    requires Listed(list, ids, h) && Halfway(before, now, h, ids)
    ensures now == Ingested(before, h)
  {
    hide Known;
    hide Updated;
    hide View;
  }

  lemma UpdatedIs(devices: map<string, Device>, incoming: Device)
    ensures Updated(devices, incoming) ==
            if incoming.deviceID !in devices then incoming
            else var current := devices[incoming.deviceID];
                 Device(current.deviceID, if Beats(incoming.latest, current.latest) then incoming.latest else current.latest,
                        Merged(current.sources, incoming.sources))
  {
  }

  lemma SameLength(list: seq<Device>, ids: seq<string>, h: seq<Observation>)
    requires Listed(list, ids, h)
    ensures |list| == |ids|
  {
  }
}
