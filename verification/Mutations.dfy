/** Building and checking the next version of an object against a snapshot
    (internal/corecontracts/objects.go, PrepareMutation and its parts). */
module Mutations {
  import opened Metadata
  import opened Network
  import opened Objects
  import opened Options
  import opened Roles
  import opened Topology
  import Seqs
  import Sorting

  datatype Operation = Create | Replace | UnknownOperation(text: string)

  datatype MutationRequest = MutationRequest(
    operation: Operation, objectType: ObjectType, objectID: string, scopeID: string, ownerScope: string,
    document: Document, precondition: Option<Precondition>)

  datatype Result<+T> = Ok(value: T) | Err(error: Error)

  // ----- the candidate snapshot -----

  function Others(snapshot: seq<StoredObject>, id: string): seq<StoredObject>
  {
    Seqs.Collect((o: StoredObject) => if ObjectID(o) == id then None else Some(o), snapshot)
  }

  /** The snapshot with `next` in the place of the object it replaces. */
  function Candidate(snapshot: seq<StoredObject>, next: StoredObject): seq<StoredObject>
  {
    Others(snapshot, ObjectID(next)) + [next]
  }

  method ReplaceInSnapshot(snapshot: seq<StoredObject>, next: StoredObject) returns (result: seq<StoredObject>)
    ensures multiset(result) == multiset(Candidate(snapshot, next))
    ensures Sorting.SortedBy(result, Sorting.KeyLess(ObjectID))
  {
    hide *;
    result := [];
    var replaced := false;
    assert snapshot[..0] == [];
    NothingReplaced(next);
    for k := 0 to |snapshot|
      invariant Replaced(result, snapshot[..k], next, replaced)
    {
      ReplacedNext(result, snapshot, k, next, replaced);
      if ObjectID(snapshot[k]) == ObjectID(next) {
        if !replaced {
          result := result + [next];
          replaced := true;
        }
      } else {
        result := result + [snapshot[k]];
      }
    }
    assert snapshot[..|snapshot|] == snapshot;
    ReplacedAll(result, snapshot, next, replaced);
    if !replaced { result := result + [next]; }
    result := Sorting.SortByKey(result, ObjectID);
  }

  /** The result so far: the others, and the new version if its place was met. */
  ghost predicate Replaced(result: seq<StoredObject>, done: seq<StoredObject>, next: StoredObject, replaced: bool)
  {
    multiset(result) == multiset(Others(done, ObjectID(next))) + if replaced then multiset{next} else multiset{}
  }

  lemma NothingReplaced(next: StoredObject)
    ensures Replaced([], [], next, false)
  {
  }

  lemma ReplacedNext(result: seq<StoredObject>, snapshot: seq<StoredObject>, k: nat, next: StoredObject, replaced: bool)
    requires k < |snapshot| && Replaced(result, snapshot[..k], next, replaced)
    ensures if ObjectID(snapshot[k]) != ObjectID(next) then Replaced(result + [snapshot[k]], snapshot[..k + 1], next, replaced)
            else if replaced then Replaced(result, snapshot[..k + 1], next, true)
            else Replaced(result + [next], snapshot[..k + 1], next, true)
  {
    hide Others;
    OthersNext(snapshot, ObjectID(next), k);
    var others := Others(snapshot[..k], ObjectID(next));
    assert multiset(others + [snapshot[k]]) == multiset(others) + multiset{snapshot[k]} && others + [] == others;
  }

  lemma ReplacedAll(result: seq<StoredObject>, snapshot: seq<StoredObject>, next: StoredObject, replaced: bool)
    requires Replaced(result, snapshot, next, replaced)
    ensures multiset(if replaced then result else result + [next]) == multiset(Candidate(snapshot, next))
  {
    hide Others;
    CandidateIs(snapshot, next);
  }

  lemma CandidateIs(snapshot: seq<StoredObject>, next: StoredObject)
    ensures multiset(Candidate(snapshot, next)) == multiset(Others(snapshot, ObjectID(next))) + multiset{next}
  {
  }

  lemma OthersNext(snapshot: seq<StoredObject>, id: string, k: nat)
    requires k < |snapshot|
    ensures Others(snapshot[..k + 1], id) ==
            Others(snapshot[..k], id) + if ObjectID(snapshot[k]) == id then [] else [snapshot[k]]
  {
    assert snapshot[..k + 1][..k] == snapshot[..k];
  }

  // ----- succession of typed objects -----

  ghost predicate TopologyFits(objects: seq<StoredObject>)
  {
    && (forall o | o in objects && (o.objectType.ScopeObject? || o.objectType.SiteObject? || o.objectType.ManagementZoneObject?)
          :: Decodes(o))
    && Describes(Scopes(objects), Sites(objects), ManagementZones(objects))
  }

  ghost function TopologyOf(objects: seq<StoredObject>): Topology
    requires TopologyFits(objects)
    ensures WellFormed(TopologyOf(objects), Scopes(objects), Sites(objects), ManagementZones(objects))
  {
    var t :| WellFormed(t, Scopes(objects), Sites(objects), ManagementZones(objects));
    t
  }

  /** Fields an object keeps for life, by type; and observations do not run backwards. */
  predicate KeepsIdentity(before: Content, after: Content)
  {
    match (before, after)
    case (ScopeContent(a), ScopeContent(b)) => a.kind == b.kind
    case (NetworkZoneContent(a), NetworkZoneContent(b)) => a.kind == b.kind && a.siteID == b.siteID
    case (InterfaceContent(a), InterfaceContent(b)) => a.nodeID == b.nodeID && a.kind == b.kind && a.siteID == b.siteID
    case (DesiredContent(a), DesiredContent(b)) => a.kind == b.kind && a.targetObjectID == b.targetObjectID
    case (ActualContent(a), ActualContent(b)) =>
      && a.kind == b.kind && a.targetObjectID == b.targetObjectID && a.desiredObjectID == b.desiredObjectID
      && a.sourceNodeID == b.sourceNodeID
      && a.observedGeneration <= b.observedGeneration && a.observedAt <= b.observedAt
    case _ => true
  }

  predicate DecodedForSuccession(o: StoredObject)
  {
    o.objectType.SiteObject? || o.objectType.ManagementZoneObject? || o.objectType.UnknownObject? || Decodes(o)
  }

  ghost function CheckTypedSuccessor(current: StoredObject, next: StoredObject, snapshot: seq<StoredObject>): Option<Error>
    requires next.objectType == current.objectType
  {
    var candidate := Candidate(snapshot, next);
    if !TopologyFits(candidate) then Some(InvalidObject)
    else if !DecodedForSuccession(current) || !DecodedForSuccession(next) then Some(InvalidObject)
    else if current.objectType.RoleObject? then
      CheckRoleSuccessor(AssignmentFrom(current.metadata, current.document.content.role),
                         AssignmentFrom(next.metadata, next.document.content.role), TopologyOf(candidate))
    else if !KeepsIdentity(current.document.content, next.document.content) then Some(InvalidTransition)
    else None
  }

  // ----- the mutation -----

  ghost predicate Taken(snapshot: seq<StoredObject>, id: string)
  {
    exists o | o in snapshot :: ObjectID(o) == id
  }

  function FirstVersion(request: MutationRequest, now: Time, version: string): StoredObject
  {
    StoredObject(ObjectMetadata(request.objectID, request.scopeID, request.ownerScope, 1, version, now, now),
                 request.objectType, request.document)
  }

  predicate DesiredChanged(current: StoredObject, request: MutationRequest)
  {
    && !request.objectType.ActualObject?
    && (request.scopeID != current.metadata.scopeID || request.ownerScope != current.metadata.ownerScope ||
        request.document != current.document)
  }

  /** Creation time is kept; the generation advances (on a uint64) with desired content. */
  function NextVersion(current: StoredObject, request: MutationRequest, now: Time, version: string): StoredObject
  {
    var generation := current.metadata.generation;
    StoredObject(
      FirstVersion(request, now, version).metadata.(
        createdAt := current.metadata.createdAt,
        generation := if DesiredChanged(current, request) then Incremented(generation) else generation),
      request.objectType, request.document)
  }

  ghost function CheckReplace(current: StoredObject, request: MutationRequest, snapshot: seq<StoredObject>, now: Time,
                              version: string): Option<Error>
  {
    if request.precondition.None? then Some(PreconditionRequired)
    else
      var guard := CheckPrecondition(request.precondition.value, current.metadata);
      if guard.Some? then guard
      else if request.objectType != current.objectType then Some(InvalidTransition)
      else
        var next := NextVersion(current, request, now, version);
        var typed := CheckTypedSuccessor(current, next, snapshot);
        if typed.Some? then typed
        else if !Succeeds(current.metadata, next.metadata, DesiredChanged(current, request)) then Some(InvalidTransition)
        else None
  }

  ghost function Prepare(current: Option<StoredObject>, request: MutationRequest, snapshot: seq<StoredObject>, now: Time,
                         version: string): Result<StoredObject>
  {
    if now == ZERO_TIME || request.operation.UnknownOperation? || request.objectType.UnknownObject? ||
       !request.document.IsJsonObject() then Err(InvalidMutation)
    else if request.operation.Create? then
      if current.Some? || Taken(snapshot, request.objectID) then Err(ObjectAlreadyExists)
      else if request.precondition.Some? then Err(InvalidMutation)
      else Settle(FirstVersion(request, now, version), snapshot)
    else if current.None? then Err(ObjectNotFound)
    else
      var refused := CheckReplace(current.value, request, snapshot, now, version);
      if refused.Some? then Err(refused.value)
      else Settle(NextVersion(current.value, request, now, version), snapshot)
  }

  /** A new version stands only if the whole candidate snapshot does. */
  ghost function Settle(next: StoredObject, snapshot: seq<StoredObject>): Result<StoredObject>
  {
    if SnapshotOk(Candidate(snapshot, next)) then Ok(next) else Err(InvalidObject)
  }

  // ----- the methods -----

  method TopologyFromObjects(objects: seq<StoredObject>) returns (ok: bool, t: Topology)
    ensures ok <==> TopologyFits(objects)
    ensures ok ==> WellFormed(t, Scopes(objects), Sites(objects), ManagementZones(objects))
  {
    ok, t := false, Topology("", map[], map[], map[]);
    var parts := Parts([], [], [], [], [], []);
    assert objects[..0] == [];
    NoParts();
    hide Scopes;
    hide Sites;
    hide ManagementZones;
    hide Decodes;
    hide WellFormed;
    hide Describes;
    hide NetworkZones;
    hide Interfaces;
    hide Assignments;
    for k := 0 to |objects|
      invariant forall o | o in objects[..k] &&
                  (o.objectType.ScopeObject? || o.objectType.SiteObject? || o.objectType.ManagementZoneObject?) :: Decodes(o)
      invariant parts == PartsOf(objects[..k])
      invariant !ok
    {
      var o := objects[k];
      assert o in objects && objects[..k + 1] == objects[..k] + [o];
      NextPart(objects, k);
      if o.objectType.ScopeObject? || o.objectType.SiteObject? || o.objectType.ManagementZoneObject? {
        if !Decodes(o) { return; }
      }
      if Decodes(o) { parts := parts.Plus(o); }
    }
    assert objects[..|objects|] == objects;
    ok, t := NewTopology(parts.scopes, parts.sites, parts.zones);
  }

  lemma TopologyOfPermuted(a: seq<StoredObject>, b: seq<StoredObject>)
    requires multiset(a) == multiset(b) && TopologyFits(a)
    ensures TopologyFits(b) && TopologyOf(a) == TopologyOf(b)
  {
    hide WellFormed;
    hide Decodes;
    Sorting.SameElements(a, b);
    Seqs.CollectPermuted(PickScope, a, b);
    Seqs.CollectPermuted(PickSite, a, b);
    Seqs.CollectPermuted(PickManagementZone, a, b);
    WellFormedPermuted(TopologyOf(a), Scopes(a), Sites(a), ManagementZones(a), Scopes(b), Sites(b), ManagementZones(b));
    DescribedBy(TopologyOf(a), Scopes(b), Sites(b), ManagementZones(b));
    TopologyUnique(TopologyOf(a), TopologyOf(b), Scopes(a), Sites(a), ManagementZones(a),
                   Scopes(b), Sites(b), ManagementZones(b));
  }

  method ValidateTypedSuccessor(current: StoredObject, next: StoredObject, snapshot: seq<StoredObject>)
    returns (r: Option<Error>)
    requires next.objectType == current.objectType
    ensures r == CheckTypedSuccessor(current, next, snapshot)
  {
    hide TopologyFits;
    hide WellFormed;
    hide Accepted;
    hide CheckRoleSuccessor;
    hide Candidate;
    hide KeepsIdentity;
    ghost var candidate := Candidate(snapshot, next);
    var objects := ReplaceInSnapshot(snapshot, next);
    if TopologyFits(candidate) { TopologyOfPermuted(candidate, objects); }
    if TopologyFits(objects) { TopologyOfPermuted(objects, candidate); }
    var fits, t := TopologyFromObjects(objects);
    if !fits { return Some(InvalidObject); }
    Accepts(t, Scopes(objects), Sites(objects), ManagementZones(objects));
    TopologyUnique(t, TopologyOf(objects), Scopes(objects), Sites(objects), ManagementZones(objects),
                   Scopes(objects), Sites(objects), ManagementZones(objects));
    if !DecodedForSuccession(current) || !DecodedForSuccession(next) { return Some(InvalidObject); }
    if current.objectType.RoleObject? {
      r := ValidateRoleAssignmentSuccessor(AssignmentFrom(current.metadata, current.document.content.role),
                                           AssignmentFrom(next.metadata, next.document.content.role), t);
    } else {
      r := if KeepsIdentity(current.document.content, next.document.content) then None else Some(InvalidTransition);
    }
  }

  method PrepareMutation(current: Option<StoredObject>, request: MutationRequest, snapshot: seq<StoredObject>, now: Time,
                         version: string)
    returns (r: Result<StoredObject>)
    ensures r == Prepare(current, request, snapshot, now, version)
  {
    hide CheckTypedSuccessor;
    hide SnapshotOk;
    hide Candidate;
    hide Succeeds;
    hide CheckPrecondition;
    hide NextVersion;
    hide FirstVersion;
    if now == ZERO_TIME || request.operation.UnknownOperation? || request.objectType.UnknownObject? ||
       !request.document.IsJsonObject() {
      return Err(InvalidMutation);
    }
    var next;
    if request.operation.Create? {
      if current.Some? { return Err(ObjectAlreadyExists); }
      for k := 0 to |snapshot|
        invariant forall o | o in snapshot[..k] :: ObjectID(o) != request.objectID
      {
        assert snapshot[k] in snapshot && snapshot[..k + 1] == snapshot[..k] + [snapshot[k]];
        if ObjectID(snapshot[k]) == request.objectID { return Err(ObjectAlreadyExists); }
      }
      assert snapshot[..|snapshot|] == snapshot;
      if request.precondition.Some? { return Err(InvalidMutation); }
      next := FirstVersion(request, now, version);
    } else {
      if current.None? { return Err(ObjectNotFound); }
      if request.precondition.None? { return Err(PreconditionRequired); }
      var guard := CheckPrecondition(request.precondition.value, current.value.metadata);
      if guard.Some? { return Err(guard.value); }
      if request.objectType != current.value.objectType { return Err(InvalidTransition); }
      next := NextVersion(current.value, request, now, version);
      NextVersionType(current.value, request, now, version);
      var typed := ValidateTypedSuccessor(current.value, next, snapshot);
      if typed.Some? { return Err(typed.value); }
      if !Succeeds(current.value.metadata, next.metadata, DesiredChanged(current.value, request)) {
        return Err(InvalidTransition);
      }
    }
    var candidate := ReplaceInSnapshot(snapshot, next);
    var valid := ValidateStoredObjects(candidate);
    if valid { SnapshotPermuted(candidate, Candidate(snapshot, next)); }
    if SnapshotOk(Candidate(snapshot, next)) { SnapshotPermuted(Candidate(snapshot, next), candidate); }
    r := if valid then Ok(next) else Err(InvalidObject);
  }

  lemma NextVersionType(current: StoredObject, request: MutationRequest, now: Time, version: string)
    ensures NextVersion(current, request, now, version).objectType == request.objectType
  {
  }
}
