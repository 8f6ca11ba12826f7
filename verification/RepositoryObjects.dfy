/** What a stored object has to answer to, said of the other stored objects: its
    place in the scope tree, who owns it by what authority, and what it refers to
    (internal/corecontracts/objects.go, topology.go, roles.go and state.go). */
module RepositoryObjects {
  import opened Metadata
  import opened Network
  import opened Objects
  import opened Options
  import opened RepositoryGuarantees
  import opened Roles
  import opened Topology
  import ParentForest
  import Seqs
  import Sorting

  type ObjectMap = map<string, StoredObject>

  // ----- the stored scopes, sites and zones -----

  function ScopesIn(objects: ObjectMap): map<string, Scope>
  {
    map id | id in objects && PickScope(objects[id]).Some? :: PickScope(objects[id]).value
  }

  function SitesIn(objects: ObjectMap): map<string, Site>
  {
    map id | id in objects && PickSite(objects[id]).Some? :: PickSite(objects[id]).value
  }

  function ZonesIn(objects: ObjectMap): map<string, ManagementZone>
  {
    map id | id in objects && PickManagementZone(objects[id]).Some? :: PickManagementZone(objects[id]).value
  }

  function ParentLinks(scopes: map<string, Scope>): ParentForest.Parents
  {
    map id | id in scopes :: scopes[id].parentID
  }

  /** `above` is the scope itself or met on the way up from it. */
  ghost predicate IsUp(scopes: map<string, Scope>, above: string, scope: string)
  {
    scope in scopes && ParentForest.Above(ParentLinks(scopes), above, scope)
  }

  ghost predicate AtOrAbove(objects: ObjectMap, above: string, scope: string)
  {
    IsUp(ScopesIn(objects), above, scope)
  }

  /** The owner stands at or above the scope, and is the global scope or was
      delegated the authority. */
  ghost predicate Governs(objects: ObjectMap, owner: string, scope: string, authority: Authority)
  {
    && AtOrAbove(objects, owner, scope) && owner in ScopesIn(objects)
    && (ScopesIn(objects)[owner].kind.GlobalScope? || authority in ScopesIn(objects)[owner].delegated)
  }

  // ----- agreement with the validated index -----

  /** The index the validator builds is these maps. */
  ghost predicate Agrees(objects: ObjectMap, t: Topology)
  {
    && t.scopes == ScopesIn(objects) && t.sites == SitesIn(objects) && t.zones == ZonesIn(objects)
    && IsRoot(t.scopes, t.rootID) && forall id | IsRoot(t.scopes, id) :: id == t.rootID
  }

  lemma NamesItself(o: StoredObject, t: Topology)
    requires TypedOk(o, t)
    ensures PickScope(o).Some? ==> PickScope(o).value.id == ObjectID(o)
    ensures PickSite(o).Some? ==> PickSite(o).value.id == ObjectID(o)
    ensures PickManagementZone(o).Some? ==> PickManagementZone(o).value.id == ObjectID(o)
  {
    hide OwnedBy;
    hide AssignmentOk;
  }

  /** An index of what `pick` finds is a map over the stored objects themselves. */
  lemma IndexIsMap<T(!new)>(objects: ObjectMap, listing: seq<StoredObject>, pick: StoredObject -> Option<T>, key: T -> string,
                            index: map<string, T>)
    requires IndexOf(objects, listing, ObjectID) && IndexOf(index, Seqs.Collect(pick, listing), key)
    requires forall o | o in listing && pick(o).Some? :: key(pick(o).value) == ObjectID(o)
    ensures index == map id | id in objects && pick(objects[id]).Some? :: pick(objects[id]).value
  {
    PartsOfMap(objects, listing, pick);
    hide Seqs.Collect;
    var found := map id | id in objects && pick(objects[id]).Some? :: pick(objects[id]).value;
    forall id | id in index ensures id in found && found[id] == index[id] {
      var k :| k in objects && pick(objects[k]) == Some(index[id]);
      assert objects[k] in listing;
    }
    forall id | id in found ensures id in index && index[id] == found[id] {
      assert objects[id] in listing && found[id] in Seqs.Collect(pick, listing);
    }
  }

  lemma FittingScopes(objects: ObjectMap, listing: seq<StoredObject>, t: Topology)
    requires IndexOf(objects, listing, ObjectID) && SnapshotFits(t, listing)
    ensures t.scopes == ScopesIn(objects)
  {
    hide IndexOf;
    hide EnvelopeOk;
    hide TypedOk;
    hide AssignmentsOk;
    hide NetworkOk;
    hide WellFormed;
    hide PickScope;
    hide Sorting.DistinctKeys;
    FittingIndexes(listing, t);
    forall o | o in listing && PickScope(o).Some? ensures ScopeID(PickScope(o).value) == ObjectID(o) { NamesItself(o, t); }
    IndexIsMap(objects, listing, PickScope, ScopeID, t.scopes);
  }

  lemma FittingSites(objects: ObjectMap, listing: seq<StoredObject>, t: Topology)
    requires IndexOf(objects, listing, ObjectID) && SnapshotFits(t, listing)
    ensures t.sites == SitesIn(objects)
  {
    hide IndexOf;
    hide EnvelopeOk;
    hide TypedOk;
    hide AssignmentsOk;
    hide NetworkOk;
    hide WellFormed;
    hide PickSite;
    hide Sorting.DistinctKeys;
    FittingIndexes(listing, t);
    forall o | o in listing && PickSite(o).Some? ensures SiteID(PickSite(o).value) == ObjectID(o) { NamesItself(o, t); }
    IndexIsMap(objects, listing, PickSite, SiteID, t.sites);
  }

  lemma FittingZones(objects: ObjectMap, listing: seq<StoredObject>, t: Topology)
    requires IndexOf(objects, listing, ObjectID) && SnapshotFits(t, listing)
    ensures t.zones == ZonesIn(objects)
  {
    hide IndexOf;
    hide EnvelopeOk;
    hide TypedOk;
    hide AssignmentsOk;
    hide NetworkOk;
    hide WellFormed;
    hide PickManagementZone;
    hide Sorting.DistinctKeys;
    FittingIndexes(listing, t);
    forall o | o in listing && PickManagementZone(o).Some? ensures ZoneID(PickManagementZone(o).value) == ObjectID(o) { NamesItself(o, t); }
    IndexIsMap(objects, listing, PickManagementZone, ZoneID, t.zones);
  }

  lemma FittingAgrees(objects: ObjectMap, listing: seq<StoredObject>, t: Topology)
    requires IndexOf(objects, listing, ObjectID) && SnapshotFits(t, listing)
    ensures Agrees(objects, t)
  {
    hide IndexOf;
    hide SnapshotFits;
    hide ScopesIn;
    hide SitesIn;
    hide ZonesIn;
    hide IsRoot;
    FittingScopes(objects, listing, t);
    FittingSites(objects, listing, t);
    FittingZones(objects, listing, t);
    FittingIndexes(listing, t);
  }

  lemma FittingIndexes(listing: seq<StoredObject>, t: Topology)
    requires SnapshotFits(t, listing)
    ensures IndexOf(t.scopes, Seqs.Collect(PickScope, listing), ScopeID)
    ensures IndexOf(t.sites, Seqs.Collect(PickSite, listing), SiteID)
    ensures IndexOf(t.zones, Seqs.Collect(PickManagementZone, listing), ZoneID)
    ensures IsRoot(t.scopes, t.rootID) && forall id | IsRoot(t.scopes, id) :: id == t.rootID
  {
    hide EnvelopeOk;
    hide TypedOk;
    hide AssignmentsOk;
    hide NetworkOk;
    hide ScopeOk;
    hide SiteOk;
    hide ZoneOk;
    hide ParentForest.Rooted;
    assert WellFormed(t, Scopes(listing), Sites(listing), ManagementZones(listing));
  }

  lemma OwnedIff(objects: ObjectMap, t: Topology, owner: string, scope: string, authority: Authority)
    requires Agrees(objects, t)
    ensures Contains(t, owner, scope) <==> AtOrAbove(objects, owner, scope)
    ensures OwnedBy(t, owner, scope, authority) <==> Governs(objects, owner, scope, authority)
  {
    assert ParentsOf(t.scopes) == ParentLinks(ScopesIn(objects));
    hide ScopesIn;
    hide SitesIn;
    hide ZonesIn;
    assert IsRoot(t.scopes, owner) <==> owner in t.scopes && t.scopes[owner].kind.GlobalScope?;
    if Contains(t, owner, scope) { assert owner in ParentsOf(t.scopes); }
  }

  // ----- one object among the others -----

  /** The document speaks of the object and its scope, and the owner may configure it. */
  ghost predicate InPlace(objects: ObjectMap, m: ObjectMetadata, id: string, scopeID: string)
  {
    id == m.objectID && scopeID == m.scopeID && Governs(objects, m.ownerScope, m.scopeID, Configuration)
  }

  /** Global controllers sit at the global scope and no site; site controllers at the
      scope of their site; cluster members at either. */
  predicate RoleFits(objects: ObjectMap, m: ObjectMetadata, d: RoleDocument)
    requires m.scopeID in ScopesIn(objects)
  {
    var kind := ScopesIn(objects)[m.scopeID].kind;
    var atGlobal := kind.GlobalScope? && d.siteID == "";
    var atSite := kind.SiteScope? && d.siteID in SitesIn(objects) && SitesIn(objects)[d.siteID].scopeID == m.scopeID && d.siteID != "";
    && (d.role.GlobalController? ==> atGlobal) && (d.role.SiteController? ==> atSite)
    && (d.role.ControllerClusterMember? ==> atGlobal || atSite)
  }

  ghost predicate RolePlaced(objects: ObjectMap, m: ObjectMetadata, d: RoleDocument)
  {
    && Valid(m) && IsIdentifier(d.targetNodeID) && IsIdentifier(d.serviceIdentityID) && !d.role.UnknownRole?
    && Governs(objects, m.ownerScope, m.scopeID, DesiredState)
    && (d.siteID != "" ==>
          d.siteID in SitesIn(objects) && AtOrAbove(objects, SitesIn(objects)[d.siteID].scopeID, m.scopeID))
    && RoleFits(objects, m, d)
    && (d.managementZoneID != "" ==>
          && d.managementZoneID in ZonesIn(objects)
          && AtOrAbove(objects, ZonesIn(objects)[d.managementZoneID].scopeID, m.scopeID)
          && (d.siteID != "" && ZonesIn(objects)[d.managementZoneID].siteID != "" ==>
                ZonesIn(objects)[d.managementZoneID].siteID == d.siteID))
  }

  /** Intent is owned from above by desired-state authority. */
  ghost predicate IntentPlaced(objects: ObjectMap, m: ObjectMetadata, d: DesiredDocument)
  {
    && Valid(m) && Governs(objects, m.ownerScope, m.scopeID, DesiredState)
    && IsIdentifier(d.targetObjectID) && IsIdentifier(d.kind) && d.spec.JsonObject?
  }

  /** Observations are reported from above, without any authority. */
  ghost predicate ObservationPlaced(objects: ObjectMap, m: ObjectMetadata, d: ActualDocument)
  {
    && Valid(m) && AtOrAbove(objects, m.ownerScope, m.scopeID)
    && IsIdentifier(d.targetObjectID) && IsIdentifier(d.desiredObjectID) && IsIdentifier(d.sourceNodeID) && IsIdentifier(d.kind)
    && !d.status.InvalidStatus? && d.observedAt != ZERO_TIME && d.state.JsonObject?
  }

  ghost predicate Placed(objects: ObjectMap, o: StoredObject)
  {
    var m := o.metadata;
    match o.document.content
    case ScopeContent(s) =>
      && o.objectType.ScopeObject? && s.id == m.objectID
      && (if s.kind.GlobalScope? then m.scopeID == m.ownerScope == s.id
          else m.scopeID == s.parentID && Governs(objects, m.ownerScope, s.id, Configuration))
    case SiteContent(s) => o.objectType.SiteObject? && InPlace(objects, m, s.id, s.scopeID)
    case ManagementZoneContent(z) => o.objectType.ManagementZoneObject? && InPlace(objects, m, z.id, z.scopeID)
    case NetworkZoneContent(z) => o.objectType.NetworkZoneObject? && InPlace(objects, m, z.id, z.scopeID)
    case InterfaceContent(i) => o.objectType.InterfaceObject? && InPlace(objects, m, i.id, i.scopeID)
    case RoleContent(d) => o.objectType.RoleObject? && RolePlaced(objects, m, d)
    case DesiredContent(d) => o.objectType.DesiredObject? && IntentPlaced(objects, m, d)
    case ActualContent(d) => o.objectType.ActualObject? && ObservationPlaced(objects, m, d)
    case _ => false
  }

  lemma GovernedIsStored(objects: ObjectMap, owner: string, scope: string, authority: Authority)
    requires Governs(objects, owner, scope, authority)
    ensures scope in ScopesIn(objects)
  {
  }

  lemma RoleFitsIff(objects: ObjectMap, t: Topology, m: ObjectMetadata, d: RoleDocument)
    requires Agrees(objects, t) && m.scopeID in t.scopes && (d.siteID != "" ==> d.siteID in t.sites)
    ensures RoleFitsScope(AssignmentFrom(m, d), t) <==> RoleFits(objects, m, d)
  {
    hide ScopesIn;
    hide SitesIn;
    hide ZonesIn;
  }

  lemma ZoneFitsIff(objects: ObjectMap, t: Topology, m: ObjectMetadata, d: RoleDocument)
    requires Agrees(objects, t)
    ensures ZoneFits(AssignmentFrom(m, d), t) <==>
            (d.managementZoneID != "" ==>
               && d.managementZoneID in ZonesIn(objects)
               && AtOrAbove(objects, ZonesIn(objects)[d.managementZoneID].scopeID, m.scopeID)
               && (d.siteID != "" && ZonesIn(objects)[d.managementZoneID].siteID != "" ==>
                     ZonesIn(objects)[d.managementZoneID].siteID == d.siteID))
  {
    hide ScopesIn;
    hide SitesIn;
    hide ZonesIn;
    hide Contains;
    hide AtOrAbove;
    if d.managementZoneID in t.zones { OwnedIff(objects, t, t.zones[d.managementZoneID].scopeID, m.scopeID, DesiredState); }
  }

  lemma RoleIff(objects: ObjectMap, t: Topology, m: ObjectMetadata, d: RoleDocument)
    requires Agrees(objects, t)
    ensures AssignmentOk(AssignmentFrom(m, d), t) <==> RolePlaced(objects, m, d)
  {
    hide ScopesIn;
    hide SitesIn;
    hide ZonesIn;
    hide Valid;
    hide IsIdentifier;
    hide Contains;
    hide AtOrAbove;
    hide OwnedBy;
    hide Governs;
    hide ZoneFits;
    hide RoleFits;
    hide RoleFitsScope;
    OwnedIff(objects, t, m.ownerScope, m.scopeID, DesiredState);
    if Governs(objects, m.ownerScope, m.scopeID, DesiredState) { GovernedIsStored(objects, m.ownerScope, m.scopeID, DesiredState); }
    if d.siteID in t.sites { OwnedIff(objects, t, t.sites[d.siteID].scopeID, m.scopeID, DesiredState); }
    if m.scopeID in t.scopes && (d.siteID != "" ==> d.siteID in t.sites) { RoleFitsIff(objects, t, m, d); }
    ZoneFitsIff(objects, t, m, d);
  }

  lemma StateIff(objects: ObjectMap, t: Topology, m: ObjectMetadata)
    requires Agrees(objects, t)
    ensures forall d :: DesiredOk(m, d, t) <==> IntentPlaced(objects, m, d)
    ensures forall d :: ActualOk(m, d, t) <==> ObservationPlaced(objects, m, d)
  {
    hide ScopesIn;
    hide SitesIn;
    hide ZonesIn;
    hide Valid;
    hide IsIdentifier;
    OwnedIff(objects, t, m.ownerScope, m.scopeID, DesiredState);
    ScopeKnown(objects, t, m.ownerScope, m.scopeID);
    hide Contains;
    hide AtOrAbove;
    hide OwnedBy;
    hide Governs;
  }

  lemma ScopeKnown(objects: ObjectMap, t: Topology, owner: string, scope: string)
    requires Agrees(objects, t)
    ensures Governs(objects, owner, scope, DesiredState) || AtOrAbove(objects, owner, scope) ==> scope in t.scopes
  {
    hide ScopesIn;
    hide SitesIn;
    hide ZonesIn;
  }

  /** An object passes the typed check exactly when it is placed among the others. */
  lemma TypedIff(objects: ObjectMap, t: Topology, o: StoredObject)
    requires Agrees(objects, t)
    ensures TypedOk(o, t) <==> Placed(objects, o)
  {
    hide Agrees;
    hide Contains;
    hide OwnedBy;
    hide Governs;
    hide AssignmentOk;
    hide RolePlaced;
    hide DesiredOk;
    hide ActualOk;
    hide IntentPlaced;
    hide ObservationPlaced;
    var m := o.metadata;
    OwnedIff(objects, t, m.ownerScope, m.scopeID, Configuration);
    match o.document.content
    case ScopeContent(s) => OwnedIff(objects, t, m.ownerScope, s.id, Configuration);
    case RoleContent(d) => RoleIff(objects, t, m, d);
    case DesiredContent(d) => StateIff(objects, t, m);
    case ActualContent(d) => StateIff(objects, t, m);
    case _ =>
  }
}
