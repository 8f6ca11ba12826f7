/** The in-memory object repository with compare-and-swap writes and idempotency
    receipts (internal/corecontracts/memory_repository.go). Clock readings,
    version allocation and cancellation arrive as parameters. */
module Repository {
  import opened Metadata
  import opened Mutations
  import opened Objects
  import opened Options
  import Seqs
  import Sorting
  import Text

  /** The digest of a request, taken as injective. Requests are compared as JSON
      values, so whitespace and key order in a document do not matter. */
  datatype Fingerprint = Sha256Of(request: MutationRequest)

  datatype Receipt = Receipt(fingerprint: Fingerprint, result: StoredObject)

  /** The repository as a value. */
  datatype Store = Store(objects: map<string, StoredObject>, receipts: map<string, Receipt>)

  /** One call to Apply with what the environment supplies for it. A version of
      `None` is a failed allocation. */
  datatype Call = Call(canceled: bool, request: MutationRequest, key: string, now: Time, version: Option<string>)

  function Listing(objects: map<string, StoredObject>, ids: seq<string>): seq<StoredObject>
    requires forall id | id in ids :: id in objects
  {
    seq(|ids|, i requires 0 <= i < |ids| => objects[ids[i]])
  }

  /** The objects in ascending order of their identifiers. */
  ghost function Ordered(objects: map<string, StoredObject>): seq<StoredObject>
  {
    Known(objects);
    Listing(objects, Sorting.Ascending(objects.Keys))
  }

  lemma Known(objects: map<string, StoredObject>)
    ensures forall id :: id in Sorting.Ascending(objects.Keys) <==> id in objects
  {
    Sorting.AscendingListed(objects.Keys);
  }

  /** What `Apply` answers. */
  ghost function Answer(s: Store, c: Call): Result<StoredObject>
  {
    if c.canceled then Err(Canceled)
    else if !Text.IsOpaqueToken(c.key) || c.request.document.content.Malformed? then Err(InvalidMutation)
    else if c.key in s.receipts then
      if s.receipts[c.key].fingerprint == Sha256Of(c.request) then Ok(s.receipts[c.key].result)
      else Err(IdempotencyConflict)
    else if c.version.None? then Err(VersionUnavailable)
    else Prepare(Current(s, c.request.objectID), c.request, Ordered(s.objects), c.now, c.version.value)
  }

  function Current(s: Store, id: string): Option<StoredObject>
  {
    if id in s.objects then Some(s.objects[id]) else None
  }

  /** The call writes: it succeeds and is not a replay. */
  ghost predicate Writes(s: Store, c: Call)
  {
    Answer(s, c).Ok? && c.key !in s.receipts
  }

  /** The store after the call. */
  ghost function After(s: Store, c: Call): Store
  {
    if !Writes(s, c) then s
    else
      var next := Answer(s, c).value;
      Store(s.objects[ObjectID(next) := next], s.receipts[c.key := Receipt(Sha256Of(c.request), next)])
  }

  // ----- any order of the snapshot gives the same answer -----

  lemma ListingPermuted(objects: map<string, StoredObject>, a: seq<string>, b: seq<string>)
    requires multiset(a) == multiset(b) && forall id | id in a :: id in objects
    ensures forall id | id in b :: id in objects
    ensures multiset(Listing(objects, a)) == multiset(Listing(objects, b))
  {
    Sorting.SameElements(a, b);
    var pick := (id: string) => if id in objects then objects[id] else FirstVersion(Anything(), 0, "");
    Seqs.MapPermuted(pick, a, b);
    assert Listing(objects, a) == Seqs.Map(pick, a) && Listing(objects, b) == Seqs.Map(pick, b);
  }

  function Anything(): MutationRequest
  {
    MutationRequest(Create, ScopeObject, "", "", "", Document(Malformed, 0), None)
  }

  /** Preparing a mutation does not depend on the order of the snapshot. */
  lemma PrepareIgnoresOrder(current: Option<StoredObject>, request: MutationRequest, a: seq<StoredObject>,
                            b: seq<StoredObject>, now: Time, version: string)
    requires multiset(a) == multiset(b)
    ensures Prepare(current, request, a, now, version) == Prepare(current, request, b, now, version)
  {
    hide FirstVersion;
    hide NextVersion;
    hide CheckReplace;
    hide Settle;
    hide Taken;
    TakenPermuted(a, b, request.objectID);
    SettleIgnoresOrder(FirstVersion(request, now, version), a, b);
    if current.Some? {
      SettleIgnoresOrder(NextVersion(current.value, request, now, version), a, b);
      ReplaceIgnoresOrder(current.value, request, a, b, now, version);
    }
  }

  lemma TakenPermuted(a: seq<StoredObject>, b: seq<StoredObject>, id: string)
    requires multiset(a) == multiset(b)
    ensures Taken(a, id) <==> Taken(b, id)
  {
    Sorting.SameElements(a, b);
  }

  lemma ReplaceIgnoresOrder(current: StoredObject, request: MutationRequest, a: seq<StoredObject>, b: seq<StoredObject>,
                            now: Time, version: string)
    requires multiset(a) == multiset(b)
    ensures CheckReplace(current, request, a, now, version) == CheckReplace(current, request, b, now, version)
  {
    var next := NextVersion(current, request, now, version);
    NextVersionType(current, request, now, version);
    hide NextVersion;
    hide CheckPrecondition;
    hide Succeeds;
    hide CheckTypedSuccessor;
    if request.objectType == current.objectType { SuccessorIgnoresOrder(current, next, a, b); }
  }

  lemma CandidatePermuted(next: StoredObject, a: seq<StoredObject>, b: seq<StoredObject>)
    requires multiset(a) == multiset(b)
    ensures multiset(Candidate(a, next)) == multiset(Candidate(b, next))
  {
    var id := ObjectID(next);
    Seqs.CollectPermuted((o: StoredObject) => if ObjectID(o) == id then None else Some(o), a, b);
    OthersAre(a, id);
    OthersAre(b, id);
  }

  lemma OthersAre(s: seq<StoredObject>, id: string)
    ensures Others(s, id) == Seqs.Collect((o: StoredObject) => if ObjectID(o) == id then None else Some(o), s)
  {
  }

  lemma SettleIgnoresOrder(next: StoredObject, a: seq<StoredObject>, b: seq<StoredObject>)
    requires multiset(a) == multiset(b)
    ensures Settle(next, a) == Settle(next, b)
  {
    CandidatePermuted(next, a, b);
    hide Candidate;
    if SnapshotOk(Candidate(a, next)) { SnapshotPermuted(Candidate(a, next), Candidate(b, next)); }
    if SnapshotOk(Candidate(b, next)) { SnapshotPermuted(Candidate(b, next), Candidate(a, next)); }
  }

  lemma SuccessorIgnoresOrder(current: StoredObject, next: StoredObject, a: seq<StoredObject>, b: seq<StoredObject>)
    requires multiset(a) == multiset(b) && next.objectType == current.objectType
    ensures CheckTypedSuccessor(current, next, a) == CheckTypedSuccessor(current, next, b)
  {
    CandidatePermuted(next, a, b);
    hide Candidate;
    hide TopologyFits;
    if TopologyFits(Candidate(a, next)) { TopologyOfPermuted(Candidate(a, next), Candidate(b, next)); }
    if TopologyFits(Candidate(b, next)) { TopologyOfPermuted(Candidate(b, next), Candidate(a, next)); }
  }

  // ----- the repository as the source keeps it -----

  /** Each object is stored under its own identifier. */
  predicate Keyed(objects: map<string, StoredObject>)
  {
    forall id | id in objects :: ObjectID(objects[id]) == id
  }

  method ListingOf(objects: map<string, StoredObject>, ids: seq<string>) returns (result: seq<StoredObject>)
    requires forall id | id in ids :: id in objects
    ensures result == Listing(objects, ids)
  {
    result := [];
    for k := 0 to |ids|
      invariant |result| == k && forall i | 0 <= i < k :: result[i] == objects[ids[i]]
    {
      result := result + [objects[ids[k]]];
    }
  }

  // ----- listing -----

  /** A type of `None` and empty scopes stand for no restriction. */
  datatype ObjectFilter = ObjectFilter(objectType: Option<ObjectType>, scopeID: string, ownerScope: string)

  predicate FilterOk(f: ObjectFilter)
  {
    && (f.objectType.Some? ==> !f.objectType.value.UnknownObject?)
    && (f.scopeID != "" ==> IsIdentifier(f.scopeID)) && (f.ownerScope != "" ==> IsIdentifier(f.ownerScope))
  }

  predicate Admits(f: ObjectFilter, o: StoredObject)
  {
    && (f.objectType.None? || f.objectType.value == o.objectType)
    && (f.scopeID == "" || f.scopeID == o.metadata.scopeID) && (f.ownerScope == "" || f.ownerScope == o.metadata.ownerScope)
  }

  function PickAdmitted(f: ObjectFilter): StoredObject -> Option<StoredObject>
  {
    (o: StoredObject) => if Admits(f, o) then Some(o) else None
  }

  function Admitted(f: ObjectFilter, listing: seq<StoredObject>): seq<StoredObject>
  {
    Seqs.Collect(PickAdmitted(f), listing)
  }

  function TypeName(t: ObjectType): string
  {
    match t
    case ScopeObject => "scope"
    case SiteObject => "site"
    case ManagementZoneObject => "management-zone"
    case NetworkZoneObject => "network-zone"
    case InterfaceObject => "network-interface"
    case RoleObject => "role-assignment"
    case DesiredObject => "desired-state"
    case ActualObject => "actual-state"
    case UnknownObject(text) => text
  }

  predicate ByTypeThenID(a: StoredObject, b: StoredObject)
  {
    if TypeName(a.objectType) == TypeName(b.objectType) then Text.Less(ObjectID(a), ObjectID(b))
    else Text.Less(TypeName(a.objectType), TypeName(b.objectType))
  }

  lemma TypeThenIDOrders(s: seq<StoredObject>)
    ensures Sorting.Orders(s, ByTypeThenID)
  {
    Text.LessIsStrictTotal();
    hide Text.Less;
    hide TypeName;
  }

  /** Only one listing is sorted and has the admitted objects: the order in which
      the map is ranged does not show. */
  lemma ListingIsUnique(objects: map<string, StoredObject>, f: ObjectFilter, ids: seq<string>, a: seq<StoredObject>,
                        b: seq<StoredObject>)
    requires Keyed(objects) && (forall id | id in ids :: id in objects)
    requires forall i, j | 0 <= i < j < |ids| :: ids[i] != ids[j]
    requires multiset(a) == multiset(b) == multiset(Admitted(f, Listing(objects, ids)))
    requires Sorting.SortedBy(a, ByTypeThenID) && Sorting.SortedBy(b, ByTypeThenID)
    ensures a == b
  {
    var admitted := Admitted(f, Listing(objects, ids));
    Seqs.CollectDistinct(PickAdmitted(f), Listing(objects, ids), ObjectID, ObjectID);
    Sorting.DistinctPermuted(admitted, a, ObjectID);
    hide Admitted;
    forall x, y | x in a && y in a && x != y ensures ByTypeThenID(x, y) || ByTypeThenID(y, x) {
      Text.LessTotal(TypeName(x.objectType), TypeName(y.objectType));
      Text.LessTotal(ObjectID(x), ObjectID(y));
      if ObjectID(x) == ObjectID(y) { Sorting.SameKeySameElement(a, ObjectID, x, y); }
    }
    hide ByTypeThenID;
    Sorting.SortedUnique(a, b, ByTypeThenID);
  }

  class MemoryObjectRepository {
    var objects: map<string, StoredObject>
    var receipts: map<string, Receipt>

    function Value(): Store
      reads this
    {
      Store(objects, receipts)
    }

    /** Expects a validated snapshot; see NewMemoryObjectRepository. */
    constructor (initial: seq<StoredObject>)
      ensures Value() == Store(Filled(initial), map[])
    {
      objects, receipts := map[], map[];
      new;
      for k := 0 to |initial|
        invariant Value() == Store(Filled(initial[..k]), map[])
      {
        assert initial[..k + 1][..k] == initial[..k];
        objects := objects[ObjectID(initial[k]) := initial[k]];
      }
      assert initial[..|initial|] == initial;
    }

    /** All objects, in whatever order the map is ranged. */
    method SnapshotLocked() returns (result: seq<StoredObject>)
      ensures multiset(result) == multiset(Ordered(objects))
    {
      var ids := Sorting.RangeKeys(objects.Keys);
      Known(objects);
      ListingPermuted(objects, Sorting.Ascending(objects.Keys), ids);
      hide Sorting.Ascending;
      hide Sorting.SortedBy;
      result := ListingOf(objects, ids);
    }

    method Apply(c: Call) returns (r: Result<StoredObject>)
      modifies this
      ensures Value() == After(old(Value()), c)
      ensures r == Answer(old(Value()), c)
    {
      hide Prepare;
      hide Ordered;
      if c.canceled { return Err(Canceled); }
      if !Text.IsOpaqueToken(c.key) || c.request.document.content.Malformed? { return Err(InvalidMutation); }
      var fingerprint := Sha256Of(c.request);
      if c.key in receipts {
        if receipts[c.key].fingerprint != fingerprint { return Err(IdempotencyConflict); }
        return Ok(receipts[c.key].result);
      }
      var current := if c.request.objectID in objects then Some(objects[c.request.objectID]) else None;
      if c.version.None? { return Err(VersionUnavailable); }
      var snapshot := SnapshotLocked();
      PrepareIgnoresOrder(current, c.request, snapshot, Ordered(objects), c.now, c.version.value);
      r := PrepareMutation(current, c.request, snapshot, c.now, c.version.value);
      if r.Err? { return; }
      objects := objects[ObjectID(r.value) := r.value];
      receipts := receipts[c.key := Receipt(fingerprint, r.value)];
    }

    /** The admitted objects, each once, by type and identifier. */
    method List(canceled: bool, filter: ObjectFilter) returns (r: Result<seq<StoredObject>>)
      ensures r.Ok? <==> !canceled && FilterOk(filter)
      ensures r.Ok? ==> multiset(r.value) == multiset(Admitted(filter, Ordered(objects)))
      ensures r.Ok? ==> Sorting.SortedBy(r.value, ByTypeThenID)
      ensures r.Err? ==> r.error == if canceled then Canceled else InvalidObject
    {
      hide FilterOk;
      hide Admits;
      hide ByTypeThenID;
      hide Ordered;
      if canceled { return Err(Canceled); }
      if !FilterOk(filter) { return Err(InvalidObject); }
      var all := SnapshotLocked();
      Seqs.CollectPermuted(PickAdmitted(filter), all, Ordered(objects));
      var result: seq<StoredObject> := [];
      assert all[..0] == [] && Admitted(filter, []) == [];
      hide Seqs.Collect;
      for k := 0 to |all|
        invariant result == Admitted(filter, all[..k])
      {
        Seqs.CollectSnoc(PickAdmitted(filter), all, k);
        if Admits(filter, all[k]) { result := result + [all[k]]; }
      }
      assert all[..|all|] == all;
      TypeThenIDOrders(result);
      return Ok(Sorting.SortBy(result, ByTypeThenID));
    }

    method Get(canceled: bool, id: string) returns (r: Result<StoredObject>)
      ensures r.Ok? <==> !canceled && IsIdentifier(id) && id in objects
      ensures r.Ok? ==> r.value == objects[id]
      ensures r.Err? ==> r.error == (if canceled then Canceled else if !IsIdentifier(id) then InvalidObject else ObjectNotFound)
    {
      if canceled { return Err(Canceled); }
      if !IsIdentifier(id) { return Err(InvalidObject); }
      r := if id in objects then Ok(objects[id]) else Err(ObjectNotFound);
    }
  }

  function Filled(initial: seq<StoredObject>): map<string, StoredObject>
  {
    if initial == [] then map[]
    else
      var last := initial[|initial| - 1];
      Filled(initial[..|initial| - 1])[ObjectID(last) := last]
  }

  /** A repository only starts from a valid snapshot. */
  method NewMemoryObjectRepository(initial: seq<StoredObject>) returns (repository: MemoryObjectRepository?)
    ensures repository != null <==> SnapshotOk(initial)
    ensures repository != null ==> fresh(repository) && repository.Value() == Store(Filled(initial), map[])
  {
    var valid := ValidateStoredObjects(initial);
    if !valid { return null; }
    repository := new MemoryObjectRepository(initial);
  }
}
