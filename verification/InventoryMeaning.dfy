/** The device registry said of the observations as they came in, over any run
    of accepted batches (internal/inventory/reconcile.go and state.go). */
module InventoryMeaning {
  import opened Inventory
  import Seqs
  import Sorting
  import Text

  predicate Of(o: Observation, id: string) { Text.Trim(o.deviceID) == id }

  /** The observation at `k` is the newest of its device: strictly newer than those
      before it, or as new and from a source that sorts first; and never behind one
      after it. */
  ghost predicate NewestAt(raw: seq<Observation>, id: string, k: nat)
  {
    && k < |raw| && Of(raw[k], id)
    && forall j | 0 <= j < |raw| && Of(raw[j], id) && j != k ::
         || raw[j].seenAt < raw[k].seenAt
         || (raw[j].seenAt == raw[k].seenAt && Text.Less(Text.Trim(raw[k].source), Text.Trim(raw[j].source)))
         || (raw[j].seenAt == raw[k].seenAt && Text.Trim(raw[j].source) == Text.Trim(raw[k].source) && k < j)
  }

  /** All the sources of a device, each once, in ascending order. */
  ghost predicate ListsSources(sources: seq<string>, raw: seq<Observation>, id: string)
  {
    && (forall s :: s in sources <==> Reported(raw, id, s))
    && forall i, j | 0 <= i < j < |sources| :: Text.Less(sources[i], sources[j])
  }

  ghost predicate Reported(raw: seq<Observation>, id: string, source: string)
  {
    exists o | o in raw :: Of(o, id) && Text.Trim(o.source) == source
  }

  /** The device shows its newest observation and all its sources in order. */
  ghost predicate Shows(d: Device, raw: seq<Observation>, id: string)
  {
    && d.deviceID == id
    && (exists k: nat :: NewestAt(raw, id, k) &&
          d.latest == raw[k].(deviceID := Text.Trim(raw[k].deviceID), source := Text.Trim(raw[k].source)))
    && ListsSources(d.sources, raw, id)
  }

  lemma NormalAt(raw: seq<Observation>, k: nat)
    requires k < |raw|
    ensures |Normal(raw)| == |raw|
    ensures Normal(raw)[k] == raw[k].(deviceID := Text.Trim(raw[k].deviceID), source := Text.Trim(raw[k].source))
  {
  }

  lemma FirstBestIsNewest(raw: seq<Observation>, id: string, k: nat)
    requires FirstBest(Normal(raw), id, k)
    ensures k < |raw| && NewestAt(raw, id, k)
  {
    hide Text.Trim;
    hide Text.Less;
    NormalAt(raw, k);
    forall j | 0 <= j < |raw| && Of(raw[j], id) && j != k
      ensures || raw[j].seenAt < raw[k].seenAt
              || (raw[j].seenAt == raw[k].seenAt && Text.Less(Text.Trim(raw[k].source), Text.Trim(raw[j].source)))
              || (raw[j].seenAt == raw[k].seenAt && Text.Trim(raw[j].source) == Text.Trim(raw[k].source) && k < j)
    {
      NormalAt(raw, j);
      Text.LessTotal(Text.Trim(raw[j].source), Text.Trim(raw[k].source));
    }
  }

  lemma KnownMeans(raw: seq<Observation>, id: string)
    ensures id in Known(Normal(raw)) <==> exists o | o in raw :: Of(o, id)
  {
    hide Text.Trim;
    var h := Normal(raw);
    if id in Known(h) {
      var x :| x in h && x.deviceID == id;
      var i :| 0 <= i < |h| && h[i] == x;
      NormalAt(raw, i);
      assert raw[i] in raw;
    }
    if o :| o in raw && Of(o, id) {
      var i :| 0 <= i < |raw| && raw[i] == o;
      NormalAt(raw, i);
      assert h[i] in h;
    }
  }

  lemma SourcesMean(raw: seq<Observation>, id: string, s: string)
    ensures s in Sources(Normal(raw), id) <==> Reported(raw, id, s)
  {
    hide Text.Trim;
    var h := Normal(raw);
    if s in Sources(h, id) {
      var x :| x in h && x.deviceID == id && x.source == s;
      var i :| 0 <= i < |h| && h[i] == x;
      NormalAt(raw, i);
      assert raw[i] in raw;
    }
    if o :| o in raw && Of(o, id) && Text.Trim(o.source) == s {
      var i :| 0 <= i < |raw| && raw[i] == o;
      NormalAt(raw, i);
      assert h[i] in h;
    }
  }

  lemma AscendingStrictly(keys: set<string>, i: nat, j: nat)
    requires i < j < |Sorting.Ascending(keys)|
    ensures Text.Less(Sorting.Ascending(keys)[i], Sorting.Ascending(keys)[j])
  {
    hide Sorting.Ascending;
    Sorting.AscendingOnce(keys);
    Text.LessTotal(Sorting.Ascending(keys)[i], Sorting.Ascending(keys)[j]);
    assert !Text.Less(Sorting.Ascending(keys)[j], Sorting.Ascending(keys)[i]);
  }

  lemma ViewMeans(raw: seq<Observation>, id: string)
    requires id in Known(Normal(raw))
    ensures Shows(View(Normal(raw), id), raw, id)
  {
    hide *;
    var h := Normal(raw);
    ViewParts(h, id);
    var k := LatestAt(h, id);
    FirstBestIsNewest(raw, id, k);
    NormalAt(raw, k);
    ShowsAt(View(h, id), raw, id, k);
  }

  lemma ViewParts(h: seq<Observation>, id: string)
    requires id in Known(h)
    ensures Latest(h, id).Some? && View(h, id) == Device(id, Latest(h, id).value, Sorting.Ascending(Sources(h, id)))
  {
    hide Known;
    hide Latest;
    hide Sources;
    KnownHasLatest(h, id);
  }

  lemma LatestAt(h: seq<Observation>, id: string) returns (k: nat)
    requires Latest(h, id).Some?
    ensures FirstBest(h, id, k) && k < |h| && h[k] == Latest(h, id).value
  {
    hide Latest;
    LatestIsFirstBest(h, id);
    k :| FirstBest(h, id, k) && h[k] == Latest(h, id).value;
  }

  lemma ShowsAt(d: Device, raw: seq<Observation>, id: string, k: nat)
    requires NewestAt(raw, id, k) && d.deviceID == id && k < |raw|
    requires d.latest == raw[k].(deviceID := Text.Trim(raw[k].deviceID), source := Text.Trim(raw[k].source))
    requires d.sources == Sorting.Ascending(Sources(Normal(raw), id))
    ensures Shows(d, raw, id)
  {
    hide NewestAt;
    hide ListsSources;
    hide Text.Trim;
    SourcesListed(raw, id);
  }

  lemma SourcesListed(raw: seq<Observation>, id: string)
    ensures ListsSources(Sorting.Ascending(Sources(Normal(raw), id)), raw, id)
  {
    hide Sources;
    hide Normal;
    hide Reported;
    hide Text.Less;
    hide Sorting.SortedBy;
    hide Sorting.Ascending;
    var sources := Sources(Normal(raw), id);
    Sorting.AscendingListed(sources);
    forall s ensures s in Sorting.Ascending(sources) <==> Reported(raw, id, s) { SourcesMean(raw, id, s); }
    forall i, j | 0 <= i < j < |Sorting.Ascending(sources)|
      ensures Text.Less(Sorting.Ascending(sources)[i], Sorting.Ascending(sources)[j])
    {
      AscendingStrictly(sources, i, j);
    }
  }

  predicate Complete(o: Observation) { Text.Trim(o.deviceID) != "" && Text.Trim(o.source) != "" && o.seenAt != 0 }

  /** A batch is accepted exactly when every observation names a device, a source and a time. */
  lemma AcceptedIff(raw: seq<Observation>)
    ensures (forall o | o in Normal(raw) :: Usable(o)) <==> forall o | o in raw :: Complete(o)
  {
    hide Text.Trim;
    var h := Normal(raw);
    forall i | 0 <= i < |raw| ensures Usable(h[i]) <==> Complete(raw[i]) { NormalAt(raw, i); }
    hide Usable;
    hide Complete;
    if forall o | o in h :: Usable(o) {
      forall o | o in raw ensures Complete(o) {
        var i :| 0 <= i < |raw| && raw[i] == o;
        assert h[i] in h;
      }
    }
    if forall o | o in raw :: Complete(o) {
      forall x | x in h ensures Usable(x) {
        var i :| 0 <= i < |h| && h[i] == x;
        assert raw[i] in raw;
      }
    }
  }

  /** After any run of accepted batches the registry holds exactly the devices seen,
      each with its newest observation and its sources. */
  lemma RegistryMeans(batches: seq<seq<Observation>>)
    requires forall b | b in batches :: forall o | o in b :: Complete(o)
    ensures var devices, raw := IngestedAll(Seqs.Map(Normal, batches)), Flatten(batches);
            && (forall id :: id in devices <==> exists o | o in raw :: Of(o, id))
            && forall id | id in devices :: Shows(devices[id], raw, id)
  {
    hide *;
    forall b | b in batches ensures forall o | o in Normal(b) :: Usable(o) { AcceptedIff(b); }
    AnyGrouping(batches);
    var raw := Flatten(batches);
    RegistryKeys(Normal(raw));
    forall id ensures id in Registry(Normal(raw)) <==> exists o | o in raw :: Of(o, id) { KnownMeans(raw, id); }
    forall id | id in Registry(Normal(raw)) ensures Shows(Registry(Normal(raw))[id], raw, id) { ViewMeans(raw, id); }
  }

  lemma RegistryKeys(h: seq<Observation>)
    ensures Registry(h).Keys == Known(h)
    ensures forall id | id in Known(h) :: Registry(h)[id] == View(h, id)
  {
    hide Known;
    hide View;
  }
}
