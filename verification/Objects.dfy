/** Stored objects of the distributed core and the validation of a complete
    snapshot (internal/corecontracts/objects.go and state.go). */
module Objects {
  import opened Metadata
  import opened Network
  import opened Options
  import opened Roles
  import opened Topology
  import Seqs
  import Sorting

  // ----- documents -----

  /** JSON is not parsed here: a text is an object or it is not. */
  datatype JsonText = JsonObject(text: string) | OtherJson(text: string)

  datatype RoleDocument = RoleDocument(
    targetNodeID: string, serviceIdentityID: string, role: NodeRole, siteID: string, managementZoneID: string)

  datatype DesiredDocument = DesiredDocument(kind: string, targetObjectID: string, spec: JsonText)

  datatype ActualStatus = Converged | Progressing | Drifted | Failed | Unknown | InvalidStatus(text: string)

  datatype ActualDocument = ActualDocument(
    kind: string, targetObjectID: string, desiredObjectID: string, observedGeneration: uint64,
    sourceNodeID: string, observedAt: Time, status: ActualStatus, state: JsonText)

  /** What a document decodes to under its object's type. */
  datatype Content =
    | ScopeContent(scope: Scope)
    | SiteContent(site: Site)
    | ManagementZoneContent(managementZone: ManagementZone)
    | NetworkZoneContent(networkZone: NetworkZone)
    | InterfaceContent(networkInterface: NetworkInterface)
    | RoleContent(role: RoleDocument)
    | DesiredContent(desired: DesiredDocument)
    | ActualContent(actual: ActualDocument)
    | UndecodableObject
    | NotAnObject
    | Malformed

  /** Documents are equal when they are the same JSON value; two spellings may
      decode to the same content and still differ as JSON. */
  datatype Document = Document(content: Content, spelling: int)
  {
    predicate IsJsonObject() { !content.NotAnObject? && !content.Malformed? }
  }

  datatype ObjectType =
    | ScopeObject | SiteObject | ManagementZoneObject | NetworkZoneObject | InterfaceObject
    | RoleObject | DesiredObject | ActualObject | UnknownObject(text: string)

  datatype StoredObject = StoredObject(metadata: ObjectMetadata, objectType: ObjectType, document: Document)

  function ObjectID(o: StoredObject): string { o.metadata.objectID }

  /** The document is of the shape its object's type calls for. */
  predicate Decodes(o: StoredObject)
  {
    match o.objectType
    case ScopeObject => o.document.content.ScopeContent?
    case SiteObject => o.document.content.SiteContent?
    case ManagementZoneObject => o.document.content.ManagementZoneContent?
    case NetworkZoneObject => o.document.content.NetworkZoneContent?
    case InterfaceObject => o.document.content.InterfaceContent?
    case RoleObject => o.document.content.RoleContent?
    case DesiredObject => o.document.content.DesiredContent?
    case ActualObject => o.document.content.ActualContent?
    case UnknownObject(_) => false
  }

  // ----- the typed parts of a snapshot -----

  function PickScope(o: StoredObject): Option<Scope>
  {
    if o.objectType.ScopeObject? && Decodes(o) then Some(o.document.content.scope) else None
  }

  function PickSite(o: StoredObject): Option<Site>
  {
    if o.objectType.SiteObject? && Decodes(o) then Some(o.document.content.site) else None
  }

  function PickManagementZone(o: StoredObject): Option<ManagementZone>
  {
    if o.objectType.ManagementZoneObject? && Decodes(o) then Some(o.document.content.managementZone) else None
  }

  function PickNetworkZone(o: StoredObject): Option<NetworkZone>
  {
    if o.objectType.NetworkZoneObject? && Decodes(o) then Some(o.document.content.networkZone) else None
  }

  function PickInterface(o: StoredObject): Option<NetworkInterface>
  {
    if o.objectType.InterfaceObject? && Decodes(o) then Some(o.document.content.networkInterface) else None
  }

  function AssignmentFrom(m: ObjectMetadata, d: RoleDocument): RoleAssignment
  {
    RoleAssignment(m, d.targetNodeID, d.serviceIdentityID, d.role, d.siteID, d.managementZoneID)
  }

  function PickAssignment(o: StoredObject): Option<RoleAssignment>
  {
    if o.objectType.RoleObject? && Decodes(o) then Some(AssignmentFrom(o.metadata, o.document.content.role)) else None
  }

  function Scopes(objects: seq<StoredObject>): seq<Scope> { Seqs.Collect(PickScope, objects) }
  function Sites(objects: seq<StoredObject>): seq<Site> { Seqs.Collect(PickSite, objects) }
  function ManagementZones(objects: seq<StoredObject>): seq<ManagementZone> { Seqs.Collect(PickManagementZone, objects) }
  function NetworkZones(objects: seq<StoredObject>): seq<NetworkZone> { Seqs.Collect(PickNetworkZone, objects) }
  function Interfaces(objects: seq<StoredObject>): seq<NetworkInterface> { Seqs.Collect(PickInterface, objects) }
  function Assignments(objects: seq<StoredObject>): seq<RoleAssignment> { Seqs.Collect(PickAssignment, objects) }

  // ----- one object -----

  predicate EnvelopeOk(o: StoredObject)
  {
    Valid(o.metadata) && !o.objectType.UnknownObject? && o.document.IsJsonObject()
  }

  /** Top-down intent: owned by an ancestor with desired-state authority. */
  ghost predicate DesiredOk(m: ObjectMetadata, d: DesiredDocument, t: Topology)
  {
    && Valid(m) && m.scopeID in t.scopes && OwnedBy(t, m.ownerScope, m.scopeID, DesiredState)
    && IsIdentifier(d.targetObjectID) && IsIdentifier(d.kind) && d.spec.JsonObject?
  }

  /** Bottom-up observation: reported by a scope that contains the target. */
  ghost predicate ActualOk(m: ObjectMetadata, d: ActualDocument, t: Topology)
  {
    && Valid(m) && m.scopeID in t.scopes && Contains(t, m.ownerScope, m.scopeID)
    && IsIdentifier(d.targetObjectID) && IsIdentifier(d.desiredObjectID) && IsIdentifier(d.sourceNodeID)
    && IsIdentifier(d.kind) && !d.status.InvalidStatus? && d.observedAt != ZERO_TIME && d.state.JsonObject?
  }

  ghost predicate ScopeObjectOk(m: ObjectMetadata, s: Scope, t: Topology)
  {
    && s.id == m.objectID
    && (if s.kind.GlobalScope? then m.scopeID == s.id && m.ownerScope == s.id
        else m.scopeID == s.parentID && OwnedBy(t, m.ownerScope, s.id, Configuration))
  }

  /** The document names the object and its scope, and the owner may configure it. */
  ghost predicate LocatedOk(m: ObjectMetadata, id: string, scopeID: string, t: Topology)
  {
    id == m.objectID && scopeID == m.scopeID && OwnedBy(t, m.ownerScope, m.scopeID, Configuration)
  }

  ghost predicate TypedOk(o: StoredObject, t: Topology)
  {
    && Decodes(o)
    && match o.document.content
       case ScopeContent(s) => ScopeObjectOk(o.metadata, s, t)
       case SiteContent(s) => LocatedOk(o.metadata, s.id, s.scopeID, t)
       case ManagementZoneContent(z) => LocatedOk(o.metadata, z.id, z.scopeID, t)
       case NetworkZoneContent(z) => LocatedOk(o.metadata, z.id, z.scopeID, t)
       case InterfaceContent(i) => LocatedOk(o.metadata, i.id, i.scopeID, t)
       case RoleContent(d) => AssignmentOk(AssignmentFrom(o.metadata, d), t)
       case DesiredContent(d) => DesiredOk(o.metadata, d, t)
       case ActualContent(d) => ActualOk(o.metadata, d, t)
       case _ => false
  }

  // ----- a complete snapshot -----

  ghost predicate SnapshotFits(t: Topology, objects: seq<StoredObject>)
  {
    && objects != [] && (forall o | o in objects :: EnvelopeOk(o) && TypedOk(o, t))
    && Sorting.DistinctKeys(objects, ObjectID)
    && WellFormed(t, Scopes(objects), Sites(objects), ManagementZones(objects))
    && AssignmentsOk(Assignments(objects), t)
    && NetworkOk(NetworkZones(objects), Interfaces(objects), Assignments(objects), t)
  }

  ghost predicate SnapshotOk(objects: seq<StoredObject>)
  {
    exists t :: SnapshotFits(t, objects)
  }

  /** Validity of a snapshot does not depend on the order of its objects. */
  lemma SnapshotPermuted(a: seq<StoredObject>, b: seq<StoredObject>)
    requires multiset(a) == multiset(b) && SnapshotOk(a)
    ensures SnapshotOk(b)
  {
    hide SnapshotFits;
    var t :| SnapshotFits(t, a);
    SnapshotFitsPermuted(t, a, b);
  }

  lemma SnapshotFitsPermuted(t: Topology, a: seq<StoredObject>, b: seq<StoredObject>)
    requires multiset(a) == multiset(b) && SnapshotFits(t, a)
    ensures SnapshotFits(t, b)
  {
    hide EnvelopeOk;
    hide TypedOk;
    hide WellFormed;
    hide AssignmentsOk;
    hide NetworkOk;
    Sorting.SameElements(a, b);
    Sorting.DistinctPermuted(a, b, ObjectID);
    Seqs.CollectPermuted(PickScope, a, b);
    Seqs.CollectPermuted(PickSite, a, b);
    Seqs.CollectPermuted(PickManagementZone, a, b);
    Seqs.CollectPermuted(PickNetworkZone, a, b);
    Seqs.CollectPermuted(PickInterface, a, b);
    Seqs.CollectPermuted(PickAssignment, a, b);
    WellFormedPermuted(t, Scopes(a), Sites(a), ManagementZones(a), Scopes(b), Sites(b), ManagementZones(b));
    AssignmentsPermuted(Assignments(a), Assignments(b), t);
    NetworkPermuted(NetworkZones(a), Interfaces(a), Assignments(a), NetworkZones(b), Interfaces(b), Assignments(b), t);
  }

  // ----- the validator -----

  method ValidateTypedObject(o: StoredObject, t: Topology) returns (ok: bool)
    requires Accepted(t)
    ensures ok <==> TypedOk(o, t)
  {
    hide Accepted;
    hide Valid;
    hide IsIdentifier;
    hide OwnedBy;
    hide AssignmentOk;
    hide Contains;
    if !Decodes(o) { return false; }
    var m := o.metadata;
    match o.document.content
    case ScopeContent(s) =>
      if s.id != m.objectID { return false; }
      if s.kind.GlobalScope? { return m.scopeID == s.id && m.ownerScope == s.id; }
      if m.scopeID != s.parentID { return false; }
      ok := CheckOwner(t, m.ownerScope, s.id, Configuration);
    case SiteContent(s) => ok := ValidateLocated(m, s.id, s.scopeID, t);
    case ManagementZoneContent(z) => ok := ValidateLocated(m, z.id, z.scopeID, t);
    case NetworkZoneContent(z) => ok := ValidateLocated(m, z.id, z.scopeID, t);
    case InterfaceContent(i) => ok := ValidateLocated(m, i.id, i.scopeID, t);
    case RoleContent(d) => ok := ValidateRoleAssignment(AssignmentFrom(m, d), t);
    case DesiredContent(d) =>
      if !Valid(m) || m.scopeID !in t.scopes { return false; }
      ok := CheckOwner(t, m.ownerScope, m.scopeID, DesiredState);
      ok := ok && IsIdentifier(d.targetObjectID) && IsIdentifier(d.kind) && d.spec.JsonObject?;
    case ActualContent(d) =>
      if !Valid(m) || m.scopeID !in t.scopes { return false; }
      ok := ContainsInTopology(t, m.ownerScope, m.scopeID);
      ok := ok && IsIdentifier(d.targetObjectID) && IsIdentifier(d.desiredObjectID) && IsIdentifier(d.sourceNodeID) &&
            IsIdentifier(d.kind) && !d.status.InvalidStatus? && d.observedAt != ZERO_TIME && d.state.JsonObject?;
    case _ => ok := false;
  }

  method ValidateLocated(m: ObjectMetadata, id: string, scopeID: string, t: Topology) returns (ok: bool)
    requires Accepted(t)
    ensures ok <==> LocatedOk(m, id, scopeID, t)
  {
    hide Accepted;
    if id != m.objectID || scopeID != m.scopeID { return false; }
    ok := CheckOwner(t, m.ownerScope, m.scopeID, Configuration);
  }

  /** The six typed lists the snapshot is sorted into. */
  datatype Parts = Parts(
    scopes: seq<Scope>, sites: seq<Site>, zones: seq<ManagementZone>,
    networkZones: seq<NetworkZone>, interfaces: seq<NetworkInterface>, assignments: seq<RoleAssignment>)
  {
    /** With one more object put where it belongs. */
    function Plus(o: StoredObject): Parts
      requires Decodes(o)
    {
      match o.objectType
      case ScopeObject => this.(scopes := scopes + [o.document.content.scope])
      case SiteObject => this.(sites := sites + [o.document.content.site])
      case ManagementZoneObject => this.(zones := zones + [o.document.content.managementZone])
      case NetworkZoneObject => this.(networkZones := networkZones + [o.document.content.networkZone])
      case InterfaceObject => this.(interfaces := interfaces + [o.document.content.networkInterface])
      case RoleObject => this.(assignments := assignments + [AssignmentFrom(o.metadata, o.document.content.role)])
      case _ => this
    }
  }

  function PartsOf(objects: seq<StoredObject>): Parts
  {
    Parts(Scopes(objects), Sites(objects), ManagementZones(objects),
          NetworkZones(objects), Interfaces(objects), Assignments(objects))
  }

  lemma NoParts()
    ensures PartsOf([]) == Parts([], [], [], [], [], [])
  {
  }

  lemma NextPart(objects: seq<StoredObject>, k: nat)
    requires k < |objects|
    ensures PartsOf(objects[..k + 1]) ==
            if Decodes(objects[k]) then PartsOf(objects[..k]).Plus(objects[k]) else PartsOf(objects[..k])
  {
    hide Seqs.Collect;
    Seqs.CollectSnoc(PickScope, objects, k);
    Seqs.CollectSnoc(PickSite, objects, k);
    Seqs.CollectSnoc(PickManagementZone, objects, k);
    Seqs.CollectSnoc(PickNetworkZone, objects, k);
    Seqs.CollectSnoc(PickInterface, objects, k);
    Seqs.CollectSnoc(PickAssignment, objects, k);
  }

  /** What the first loop asks of an object; desired and actual states are only
      decoded later. */
  predicate Sound(o: StoredObject)
  {
    EnvelopeOk(o) && (Decodes(o) || o.objectType.DesiredObject? || o.objectType.ActualObject?)
  }

  /** The first loop: envelopes, repeats, and the typed parts in one pass. */
  method Sift(objects: seq<StoredObject>) returns (ok: bool, parts: Parts)
    ensures ok <==> (forall o | o in objects :: Sound(o)) && Sorting.DistinctKeys(objects, ObjectID)
    ensures ok ==> parts == PartsOf(objects)
  {
    ok, parts := false, Parts([], [], [], [], [], []);
    var seen: set<string> := {};
    assert Sorting.SeenKeys(seen, objects[..0], ObjectID);
    assert objects[..0] == [];
    NoParts();
    hide PartsOf;
    hide Sorting.SeenKeys;
    hide Sorting.DistinctKeys;
    hide EnvelopeOk;
    hide Decodes;
    for k := 0 to |objects|
      invariant !ok
      invariant forall o | o in objects[..k] :: Sound(o)
      invariant Sorting.SeenKeys(seen, objects[..k], ObjectID)
      invariant parts == PartsOf(objects[..k])
    {
      var o := objects[k];
      assert o in objects && objects[..k + 1] == objects[..k] + [o];
      if !EnvelopeOk(o) { return; }
      Sorting.SeenNext(seen, objects, ObjectID, k);
      if ObjectID(o) in seen { return; }
      seen := seen + {ObjectID(o)};
      NextPart(objects, k);
      if Decodes(o) {
        parts := parts.Plus(o);
      } else if !o.objectType.DesiredObject? && !o.objectType.ActualObject? {
        return;
      }
    }
    assert objects[..|objects|] == objects;
    Sorting.SeenAll(seen, objects, ObjectID);
    ok := true;
  }

  method AllTyped(objects: seq<StoredObject>, t: Topology) returns (ok: bool)
    requires Accepted(t)
    ensures ok <==> forall o | o in objects :: TypedOk(o, t)
  {
    hide TypedOk;
    hide Accepted;
    for k := 0 to |objects|
      invariant forall o | o in objects[..k] :: TypedOk(o, t)
    {
      assert objects[k] in objects && objects[..k + 1] == objects[..k] + [objects[k]];
      var typed := ValidateTypedObject(objects[k], t);
      if !typed { return false; }
    }
    assert objects[..|objects|] == objects;
    return true;
  }

  lemma Accepts(t: Topology, scopes: seq<Scope>, sites: seq<Site>, zones: seq<ManagementZone>)
    requires WellFormed(t, scopes, sites, zones)
    ensures Accepted(t)
  {
    hide WellFormed;
  }

  /** Accepts exactly the valid snapshots, in whatever order they come. */
  method ValidateStoredObjects(objects: seq<StoredObject>) returns (ok: bool)
    ensures ok <==> SnapshotOk(objects)
  {
    hide EnvelopeOk;
    hide WellFormed;
    hide AssignmentsOk;
    hide NetworkOk;
    hide Accepted;
    hide Describes;
    hide Sorting.DistinctKeys;
    if |objects| == 0 { return false; }
    var sifted, parts := Sift(objects);
    if !sifted { return false; }
    var scopes, sites, zones, assignments := parts.scopes, parts.sites, parts.zones, parts.assignments;
    hide Scopes;
    hide Sites;
    hide ManagementZones;
    hide NetworkZones;
    hide Interfaces;
    hide Assignments;
    var topologyOk, t := NewTopology(scopes, sites, zones);
    if !topologyOk {
      forall other ensures !SnapshotFits(other, objects) {
        if WellFormed(other, scopes, sites, zones) { DescribedBy(other, scopes, sites, zones); }
      }
      return false;
    }
    Accepts(t, scopes, sites, zones);
    forall other | SnapshotFits(other, objects) ensures other == t {
      TopologyUnique(other, t, scopes, sites, zones, scopes, sites, zones);
    }
    var typed := AllTyped(objects, t);
    if !typed { return false; }
    var assignmentsOk := ValidateRoleAssignments(assignments, t);
    if !assignmentsOk { return false; }
    var networkOk := ValidateNetworkContracts(parts.networkZones, parts.interfaces, assignments, t);
    if !networkOk { return false; }
    assert SnapshotFits(t, objects);
    return true;
  }
}
