/** Complete snapshots said of the stored objects: exactly which repositories are
    valid (internal/corecontracts/objects.go, topology.go, roles.go, network.go). */
module RepositorySnapshot {
  import opened Metadata
  import opened Network
  import opened Objects
  import opened Options
  import opened Repository
  import opened RepositoryGuarantees
  import opened RepositoryObjects
  import opened RepositoryRuns
  import opened Roles
  import opened Topology
  import ParentForest
  import Seqs
  import Sorting
  import Text

  // ----- indexes of the stored objects -----

  /** What `pick` finds is indexed by the identifiers of the stored objects. */
  lemma PartIndex<T(!new)>(objects: ObjectMap, listing: seq<StoredObject>, pick: StoredObject -> Option<T>, key: T -> string,
                           index: map<string, T>)
    requires IndexOf(objects, listing, ObjectID) && Sorting.DistinctKeys(listing, ObjectID)
    requires index == map id | id in objects && pick(objects[id]).Some? :: pick(objects[id]).value
    requires forall o | o in listing && pick(o).Some? :: key(pick(o).value) == ObjectID(o)
    ensures IndexOf(index, Seqs.Collect(pick, listing), key)
    ensures Sorting.DistinctKeys(Seqs.Collect(pick, listing), key)
  {
    Seqs.CollectDistinct(pick, listing, ObjectID, key);
    PartsOfMap(objects, listing, pick);
    hide Seqs.Collect;
    hide Sorting.DistinctKeys;
    var s := Seqs.Collect(pick, listing);
    forall y | y in s ensures key(y) in index && index[key(y)] == y {
      var id :| id in objects && pick(objects[id]) == Some(y);
      assert objects[id] in listing;
    }
    forall id | id in index ensures index[id] in s && key(index[id]) == id { assert objects[id] in listing; }
  }

  /** Elements differ in a second key exactly when the indexed values do. */
  lemma DistinctIff<T(!new), K(!new)>(index: map<string, T>, s: seq<T>, key: T -> string, other: T -> K)
    requires IndexOf(index, s, key) && Sorting.DistinctKeys(s, key)
    ensures Sorting.DistinctKeys(s, other) <==>
            forall a, b | a in index && b in index && a != b :: other(index[a]) != other(index[b])
  {
    if Sorting.DistinctKeys(s, other) {
      forall a, b | a in index && b in index && a != b ensures other(index[a]) != other(index[b]) {
        if other(index[a]) == other(index[b]) { Sorting.SameKeySameElement(s, other, index[a], index[b]); }
      }
    }
    if forall a, b | a in index && b in index && a != b :: other(index[a]) != other(index[b]) {
      forall i, j | 0 <= i < j < |s| ensures other(s[i]) != other(s[j]) {
        assert s[i] in s && s[j] in s && key(s[i]) != key(s[j]);
      }
    }
  }

  // ----- the tree -----

  ghost predicate ScopeStands(s: Scope, scopes: map<string, Scope>)
  {
    && IsIdentifier(s.id) && Text.IsDisplayName(s.name) && !s.kind.UnknownScope?
    && (s.kind.GlobalScope? <==> s.parentID == "") && (s.kind.GlobalScope? ==> s.delegated == [])
    && (s.parentID != "" ==> s.parentID in scopes && s.parentID != s.id)
    && (forall a | a in s.delegated :: !a.UnknownAuthority?)
    && forall i, j | 0 <= i < j < |s.delegated| :: s.delegated[i] != s.delegated[j]
  }

  /** One global scope at the end of every way up. */
  ghost predicate TreeStands(scopes: map<string, Scope>)
  {
    && (forall id | id in scopes :: ScopeStands(scopes[id], scopes))
    && (exists root :: root in scopes && scopes[root].kind.GlobalScope?)
    && (forall a, b | a in scopes && b in scopes && scopes[a].kind.GlobalScope? && scopes[b].kind.GlobalScope? :: a == b)
    && forall id | id in scopes :: ParentForest.Ends(ParentLinks(scopes), id)
  }

  ghost predicate Keys<T>(index: map<string, T>, key: T -> string)
  {
    forall id | id in index :: key(index[id]) == id
  }

  lemma NotEmpty(id: string)
    requires IsIdentifier(id)
    ensures id != ""
  {
  }

  lemma ScopeIff(s: Scope, scopes: map<string, Scope>)
    requires s.parentID == "" || (s.parentID in scopes && IsIdentifier(s.parentID))
    ensures ScopeOk(s) <==> ScopeStands(s, scopes)
  {
    hide IsIdentifier;
    hide Text.IsDisplayName;
    if IsIdentifier("") { NotEmpty(""); }
    if Sorting.DistinctKeys(s.delegated, Itself) {
      forall i, j | 0 <= i < j < |s.delegated| ensures s.delegated[i] != s.delegated[j] {
        assert Itself(s.delegated[i]) != Itself(s.delegated[j]);
      }
    }
    if s.parentID != "" && s.kind.GlobalScope? { assert !ScopeOk(s) && !ScopeStands(s, scopes); }
  }

  lemma OneRootIff(scopes: map<string, Scope>)
    ensures OneRoot(scopes) <==>
            && (exists root :: root in scopes && scopes[root].kind.GlobalScope?)
            && forall a, b | a in scopes && b in scopes && scopes[a].kind.GlobalScope? && scopes[b].kind.GlobalScope? :: a == b
  {
    if root :| root in scopes && scopes[root].kind.GlobalScope? { assert IsRoot(scopes, root); }
    forall a, b | a in scopes && b in scopes && scopes[a].kind.GlobalScope? && scopes[b].kind.GlobalScope?
      ensures OneRoot(scopes) ==> a == b
    {
      assert IsRoot(scopes, a) && IsRoot(scopes, b);
    }
  }

  lemma TreeIff(scopes: map<string, Scope>)
    requires Keys(scopes, ScopeID)
    ensures (forall id | id in scopes :: ScopeOk(scopes[id])) && TreeOk(scopes) <==> TreeStands(scopes)
  {
    OneRootIff(scopes);
    hide OneRoot;
    hide ScopeOk;
    hide ScopeStands;
    hide ParentForest.Rooted;
    hide ParentForest.Ends;
    hide Keys;
    LinksAre(scopes);
    if (forall id | id in scopes :: ScopeOk(scopes[id])) && ParentForest.Rooted(ParentLinks(scopes)) {
      forall id | id in scopes
        ensures ScopeStands(scopes[id], scopes) && ParentForest.Ends(ParentLinks(scopes), id)
      {
        RootedScope(scopes, id);
      }
    }
    if TreeStands(scopes) {
      forall id | id in scopes ensures ScopeOk(scopes[id]) {
        StandsIdentifier(scopes, id);
        if scopes[id].parentID != "" { StandsIdentifier(scopes, scopes[id].parentID); }
        ScopeIff(scopes[id], scopes);
      }
      StandingRooted(scopes);
    }
  }

  lemma LinksAre(scopes: map<string, Scope>)
    ensures ParentsOf(scopes) == ParentLinks(scopes)
  {
  }

  lemma RootedScope(scopes: map<string, Scope>, id: string)
    requires Keys(scopes, ScopeID) && id in scopes && ParentForest.Rooted(ParentLinks(scopes))
    requires forall x | x in scopes :: ScopeOk(scopes[x])
    ensures ScopeStands(scopes[id], scopes) && ParentForest.Ends(ParentLinks(scopes), id)
  {
    hide ScopeOk;
    hide ScopeStands;
    hide ParentForest.Ends;
    hide IsIdentifier;
    assert id in ParentLinks(scopes);
    hide Keys;
    if scopes[id].parentID != "" { OkIdentifier(scopes, scopes[id].parentID); }
    ScopeIff(scopes[id], scopes);
  }

  lemma StandingRooted(scopes: map<string, Scope>)
    requires Keys(scopes, ScopeID) && TreeStands(scopes)
    ensures ParentForest.Rooted(ParentLinks(scopes))
  {
    hide ScopeStands;
    hide ParentForest.Ends;
    hide IsIdentifier;
    forall id | id in scopes ensures id != "" && (scopes[id].parentID == "" || scopes[id].parentID in scopes) {
      StandsIdentifier(scopes, id);
      NotEmpty(id);
    }
    hide Keys;
  }

  lemma OkIdentifier(scopes: map<string, Scope>, id: string)
    requires Keys(scopes, ScopeID) && id in scopes && ScopeOk(scopes[id])
    ensures IsIdentifier(id)
  {
    hide IsIdentifier;
    assert ScopeID(scopes[id]) == id;
  }

  lemma StandsIdentifier(scopes: map<string, Scope>, id: string)
    requires Keys(scopes, ScopeID) && id in scopes && ScopeStands(scopes[id], scopes)
    ensures IsIdentifier(id) && (scopes[id].parentID == "" || scopes[id].parentID in scopes)
  {
    hide IsIdentifier;
    assert ScopeID(scopes[id]) == id;
  }

  /** Each site has a site scope of its own. */
  ghost predicate SitesStand(sites: map<string, Site>, scopes: map<string, Scope>)
  {
    && (forall id | id in sites ::
          && IsIdentifier(id) && Text.IsDisplayName(sites[id].name)
          && sites[id].scopeID in scopes && scopes[sites[id].scopeID].kind.SiteScope?)
    && forall a, b | a in sites && b in sites && a != b :: sites[a].scopeID != sites[b].scopeID
  }

  /** A management zone has a scope, and if it names a site, one at or below the site's. */
  ghost predicate ZonesStand(zones: map<string, ManagementZone>, sites: map<string, Site>, scopes: map<string, Scope>)
  {
    forall id | id in zones ::
      && IsIdentifier(id) && Text.IsDisplayName(zones[id].name) && zones[id].scopeID in scopes
      && (zones[id].siteID != "" ==> zones[id].siteID in sites && IsUp(scopes, sites[zones[id].siteID].scopeID, zones[id].scopeID))
  }

  lemma SiteIff(s: Site, scopes: map<string, Scope>)
    ensures SiteOk(s, scopes) <==>
            IsIdentifier(s.id) && Text.IsDisplayName(s.name) && s.scopeID in scopes && scopes[s.scopeID].kind.SiteScope?
  {
    hide IsIdentifier;
    hide Text.IsDisplayName;
  }

  lemma ZoneIff(z: ManagementZone, scopes: map<string, Scope>, sites: map<string, Site>)
    ensures ZoneOk(z, scopes, sites) <==>
            && IsIdentifier(z.id) && Text.IsDisplayName(z.name) && z.scopeID in scopes
            && (z.siteID != "" ==> z.siteID in sites && IsUp(scopes, sites[z.siteID].scopeID, z.scopeID))
  {
    assert ParentsOf(scopes) == ParentLinks(scopes);
    hide IsIdentifier;
    hide Text.IsDisplayName;
    hide ParentForest.Above;
  }

  lemma SitesIff(index: map<string, Site>, sites: seq<Site>, scopes: map<string, Scope>)
    requires IndexOf(index, sites, SiteID) && Sorting.DistinctKeys(sites, SiteID)
    ensures (forall s | s in sites :: SiteOk(s, scopes)) && Sorting.DistinctKeys(sites, SiteScopeID) <==> SitesStand(index, scopes)
  {
    DistinctIff(index, sites, SiteID, SiteScopeID);
    hide SiteOk;
    hide IsIdentifier;
    hide Text.IsDisplayName;
    hide Sorting.DistinctKeys;
    forall id | id in index
      ensures SiteOk(index[id], scopes) <==>
              && IsIdentifier(id) && Text.IsDisplayName(index[id].name)
              && index[id].scopeID in scopes && scopes[index[id].scopeID].kind.SiteScope?
    {
      assert SiteID(index[id]) == id;
      SiteIff(index[id], scopes);
    }
  }

  lemma ZonesIff(index: map<string, ManagementZone>, zones: seq<ManagementZone>, scopes: map<string, Scope>, sites: map<string, Site>)
    requires IndexOf(index, zones, ZoneID)
    ensures (forall z | z in zones :: ZoneOk(z, scopes, sites)) <==> ZonesStand(index, sites, scopes)
  {
    hide ZoneOk;
    hide IsUp;
    hide IsIdentifier;
    hide Text.IsDisplayName;
    forall id | id in index
      ensures ZoneOk(index[id], scopes, sites) <==>
              && IsIdentifier(id) && Text.IsDisplayName(index[id].name) && index[id].scopeID in scopes
              && (index[id].siteID != "" ==>
                    index[id].siteID in sites && IsUp(scopes, sites[index[id].siteID].scopeID, index[id].scopeID))
    {
      assert ZoneID(index[id]) == id;
      ZoneIff(index[id], scopes, sites);
    }
  }

  // ----- role assignments -----

  function RolesIn(objects: ObjectMap): map<string, RoleAssignment>
  {
    map id | id in objects && PickAssignment(objects[id]).Some? :: PickAssignment(objects[id]).value
  }

  /** No node is bound to one role and service identity twice. */
  ghost predicate RolesApart(roles: map<string, RoleAssignment>)
  {
    forall a, b | a in roles && b in roles && a != b ::
      || roles[a].targetNodeID != roles[b].targetNodeID || roles[a].role != roles[b].role
      || roles[a].serviceIdentityID != roles[b].serviceIdentityID
  }

  /** Two control planes share a scope exactly when they share a service identity. */
  ghost predicate PlanesPairOff(roles: map<string, RoleAssignment>)
  {
    forall a, b | a in roles && b in roles && roles[a].role.Controls() && roles[b].role.Controls() ::
      roles[a].metadata.scopeID == roles[b].metadata.scopeID <==> roles[a].serviceIdentityID == roles[b].serviceIdentityID
  }

  lemma PlanesIff(roles: map<string, RoleAssignment>, assignments: seq<RoleAssignment>)
    requires IndexOf(roles, assignments, AssignmentObjectID)
    ensures ControlPlanesPairOff(assignments) <==> PlanesPairOff(roles)
  {
    if PlanesPairOff(roles) {
      forall a, b | a in assignments && b in assignments && a.role.Controls() && b.role.Controls()
        ensures a.metadata.scopeID == b.metadata.scopeID <==> a.serviceIdentityID == b.serviceIdentityID
      {
        assert roles[AssignmentObjectID(a)] == a && roles[AssignmentObjectID(b)] == b;
      }
    }
  }

  lemma RolesIff(roles: map<string, RoleAssignment>, assignments: seq<RoleAssignment>, t: Topology)
    requires IndexOf(roles, assignments, AssignmentObjectID) && Sorting.DistinctKeys(assignments, AssignmentObjectID)
    requires forall a | a in assignments :: AssignmentOk(a, t)
    ensures AssignmentsOk(assignments, t) <==> RolesApart(roles) && PlanesPairOff(roles)
  {
    hide AssignmentOk;
    DistinctIff(roles, assignments, AssignmentObjectID, Binding);
    PlanesIff(roles, assignments);
    hide Sorting.DistinctKeys;
    hide ControlPlanesPairOff;
    hide PlanesPairOff;
    hide IndexOf;
  }

  // ----- the network -----

  function NetworkZonesIn(objects: ObjectMap): map<string, NetworkZone>
  {
    map id | id in objects && PickNetworkZone(objects[id]).Some? :: PickNetworkZone(objects[id]).value
  }

  function InterfacesIn(objects: ObjectMap): map<string, NetworkInterface>
  {
    map id | id in objects && PickInterface(objects[id]).Some? :: PickInterface(objects[id]).value
  }

  /** A network zone lies at or below the scope of its site. */
  ghost predicate NetworkZoneStands(z: NetworkZone, objects: ObjectMap)
  {
    && IsIdentifier(z.id) && Text.IsDisplayName(z.name) && !z.kind.UnknownZoneKind? && IsIdentifier(z.scopeID) && IsIdentifier(z.siteID)
    && z.siteID in SitesIn(objects) && AtOrAbove(objects, SitesIn(objects)[z.siteID].scopeID, z.scopeID)
  }

  /** Some role assignment binds the node to the site. */
  ghost predicate Assigned(roles: map<string, RoleAssignment>, nodeID: string, siteID: string)
  {
    siteID != "" && exists id | id in roles :: roles[id].targetNodeID == nodeID && roles[id].siteID == siteID
  }

  /** An interface lies in a zone of its site, at or below the scopes of both, on a
      node that is assigned there. */
  ghost predicate InterfaceLies(i: NetworkInterface, objects: ObjectMap)
  {
    && i.siteID in SitesIn(objects) && AtOrAbove(objects, SitesIn(objects)[i.siteID].scopeID, i.scopeID)
    && i.zoneID in NetworkZonesIn(objects) && NetworkZonesIn(objects)[i.zoneID].siteID == i.siteID
    && AtOrAbove(objects, NetworkZonesIn(objects)[i.zoneID].scopeID, i.scopeID)
    && Assigned(RolesIn(objects), i.nodeID, i.siteID)
  }

  /** It is within the limits of its kind: only VLANs carry a number and only VLAN and
      virtual interfaces a parent; physical ones have a hardware address. */
  ghost predicate InterfaceFitsKind(i: NetworkInterface)
  {
    && IsIdentifier(i.id) && IsIdentifier(i.nodeID) && IsIdentifier(i.scopeID) && IsIdentifier(i.siteID)
    && IsIdentifier(i.zoneID) && Text.IsDisplayName(i.name) && !i.kind.UnknownInterfaceKind? && !i.state.InvalidLink?
    && 68 <= i.mtu <= 65535 && i.linkSpeed <= 10_000_000
    && !i.mac.MalformedMac? && (i.kind.Physical? ==> i.mac.CanonicalMac?)
    && |i.addresses| <= 64 && (forall a | a in i.addresses :: a.canonical)
    && (forall j, k | 0 <= j < k < |i.addresses| :: i.addresses[j] != i.addresses[k])
    && (i.kind.VLAN? <==> i.vlanID.Some?) && (i.vlanID.Some? ==> 1 <= i.vlanID.value <= 4094 && i.parentID != "")
    && (i.parentID != "" ==> i.kind.VLAN? || i.kind.Virtual?)
  }

  /** The parent it names is another interface of its node, site and scope. */
  predicate ParentStands(i: NetworkInterface, interfaces: map<string, NetworkInterface>)
  {
    i.parentID != "" ==>
      && i.parentID in interfaces && i.parentID != i.id
      && SamePlace(interfaces[i.parentID], i)
  }

  /** No two interfaces of a node share a name in any case, or a VLAN number on one parent. */
  ghost predicate InterfacesApart(interfaces: map<string, NetworkInterface>)
  {
    forall a, b | a in interfaces && b in interfaces && a != b && interfaces[a].nodeID == interfaces[b].nodeID ::
      && Text.Lower(interfaces[a].name) != Text.Lower(interfaces[b].name)
      && !(&& interfaces[a].kind.VLAN? && interfaces[b].kind.VLAN? && interfaces[a].parentID == interfaces[b].parentID
           && interfaces[a].vlanID == interfaces[b].vlanID)
  }

  ghost function OnNodeIn(interfaces: map<string, NetworkInterface>, nodeID: string): set<string>
  {
    set id | id in interfaces && interfaces[id].nodeID == nodeID
  }

  ghost predicate NetworkStands(objects: ObjectMap)
  {
    && (forall id | id in NetworkZonesIn(objects) :: NetworkZoneStands(NetworkZonesIn(objects)[id], objects))
    && (forall id | id in InterfacesIn(objects) :: InterfaceStands(InterfacesIn(objects)[id], objects))
    && InterfacesApart(InterfacesIn(objects)) && (forall n: string :: |OnNodeIn(InterfacesIn(objects), n)| <= 64)
    && forall id | id in InterfacesIn(objects) :: ParentForest.Ends(Links(objects), id)
  }

  ghost predicate InterfaceStands(i: NetworkInterface, objects: ObjectMap)
  {
    InterfaceLies(i, objects) && InterfaceFitsKind(i) && ParentStands(i, InterfacesIn(objects))
  }

  lemma AssignedIff(roles: map<string, RoleAssignment>, assignments: seq<RoleAssignment>, nodeID: string, siteID: string)
    requires IndexOf(roles, assignments, AssignmentObjectID)
    ensures KnownAt(nodeID, siteID, assignments) <==> Assigned(roles, nodeID, siteID)
  {
    if KnownAt(nodeID, siteID, assignments) {
      var a :| a in assignments && a.siteID == siteID && a.siteID != "" && a.targetNodeID == nodeID;
      assert roles[AssignmentObjectID(a)] == a;
    }
    if Assigned(roles, nodeID, siteID) {
      var id :| id in roles && roles[id].targetNodeID == nodeID && roles[id].siteID == siteID;
      assert roles[id] in assignments;
    }
  }

  lemma NetworkZoneIff(z: NetworkZone, objects: ObjectMap, t: Topology)
    requires Agrees(objects, t)
    ensures NetworkZoneOk(z, t) <==> NetworkZoneStands(z, objects)
  {
    hide ScopesIn;
    hide SitesIn;
    hide ZonesIn;
    hide Contains;
    hide AtOrAbove;
    hide IsIdentifier;
    hide Text.IsDisplayName;
    if z.siteID in t.sites { OwnedIff(objects, t, t.sites[z.siteID].scopeID, z.scopeID, Configuration); }
  }

  lemma PlacedIff(i: NetworkInterface, objects: ObjectMap, t: Topology)
    requires Agrees(objects, t)
    ensures PlacedOk(i, NetworkZonesIn(objects), t) <==>
            && i.siteID in SitesIn(objects) && AtOrAbove(objects, SitesIn(objects)[i.siteID].scopeID, i.scopeID)
            && i.zoneID in NetworkZonesIn(objects) && NetworkZonesIn(objects)[i.zoneID].siteID == i.siteID
            && AtOrAbove(objects, NetworkZonesIn(objects)[i.zoneID].scopeID, i.scopeID)
  {
    hide ScopesIn;
    hide SitesIn;
    hide ZonesIn;
    hide NetworkZonesIn;
    hide Contains;
    hide AtOrAbove;
    var zones := NetworkZonesIn(objects);
    if i.siteID in t.sites { OwnedIff(objects, t, t.sites[i.siteID].scopeID, i.scopeID, Configuration); }
    if i.zoneID in zones { OwnedIff(objects, t, zones[i.zoneID].scopeID, i.scopeID, Configuration); }
  }

  lemma KindIff(i: NetworkInterface)
    ensures NamedOk(i) && LimitsOk(i) && AddressesOk(i.addresses) && LinkageOk(i) <==> InterfaceFitsKind(i)
  {
    hide IsIdentifier;
    hide Text.IsDisplayName;
    AddressesIff(i.addresses);
    hide Sorting.DistinctKeys;
  }

  lemma AddressesIff(s: seq<AddressText>)
    ensures Sorting.DistinctKeys(s, AddressItself) <==> forall j, k | 0 <= j < k < |s| :: s[j] != s[k]
  {
    if Sorting.DistinctKeys(s, AddressItself) {
      forall j, k | 0 <= j < k < |s| ensures s[j] != s[k] { assert AddressItself(s[j]) != AddressItself(s[k]); }
    }
  }

  lemma InterfaceIff(i: NetworkInterface, objects: ObjectMap, assignments: seq<RoleAssignment>, t: Topology)
    requires Agrees(objects, t) && IndexOf(RolesIn(objects), assignments, AssignmentObjectID)
    ensures InterfaceOk(i, NetworkZonesIn(objects), assignments, t) <==> InterfaceLies(i, objects) && InterfaceFitsKind(i)
  {
    PlacedIff(i, objects, t);
    AssignedIff(RolesIn(objects), assignments, i.nodeID, i.siteID);
    KindIff(i);
    hide Agrees;
    hide IndexOf;
    hide RolesIn;
    hide NetworkZonesIn;
    hide SitesIn;
    hide AtOrAbove;
    hide Contains;
    hide Assigned;
    hide KnownAt;
    hide NamedOk;
    hide LimitsOk;
    hide AddressesOk;
    hide LinkageOk;
    hide InterfaceFitsKind;
    hide PlacedOk;
  }

  lemma ParentIff(i: NetworkInterface, interfaces: map<string, NetworkInterface>)
    ensures ParentOk(i, interfaces) <==> ParentStands(i, interfaces)
  {
  }

  lemma NamesIff(interfaces: map<string, NetworkInterface>, a: string, b: string)
    requires a in interfaces && b in interfaces
    ensures NameOnNode(interfaces[a]) == NameOnNode(interfaces[b]) <==>
            interfaces[a].nodeID == interfaces[b].nodeID && Text.Lower(interfaces[a].name) == Text.Lower(interfaces[b].name)
    ensures VLANBinding(interfaces[a]) == VLANBinding(interfaces[b]) <==>
            && interfaces[a].nodeID == interfaces[b].nodeID && interfaces[a].parentID == interfaces[b].parentID
            && interfaces[a].vlanID == interfaces[b].vlanID
  {
    hide Text.Lower;
  }

  ghost predicate VLANsDiffer(interfaces: map<string, NetworkInterface>)
  {
    forall a, b | a in interfaces && b in interfaces && a != b && interfaces[a].kind.VLAN? && interfaces[b].kind.VLAN? ::
      VLANBinding(interfaces[a]) != VLANBinding(interfaces[b])
  }

  lemma VLANsIff(interfaces: map<string, NetworkInterface>, s: seq<NetworkInterface>)
    requires IndexOf(interfaces, s, InterfaceID)
    ensures VLANsApart(s) <==> VLANsDiffer(interfaces)
  {
    hide VLANBinding;
    if VLANsApart(s) {
      forall a, b | a in interfaces && b in interfaces && a != b && interfaces[a].kind.VLAN? && interfaces[b].kind.VLAN?
        ensures VLANBinding(interfaces[a]) != VLANBinding(interfaces[b])
      {
        assert interfaces[a] in s && interfaces[b] in s && InterfaceID(interfaces[a]) == a && InterfaceID(interfaces[b]) == b;
      }
    }
    if VLANsDiffer(interfaces) {
      forall i, j | i in s && j in s && i.kind.VLAN? && j.kind.VLAN? && VLANBinding(i) == VLANBinding(j) ensures i == j {
        assert interfaces[InterfaceID(i)] == i && interfaces[InterfaceID(j)] == j;
      }
    }
  }

  lemma ApartIff(interfaces: map<string, NetworkInterface>, s: seq<NetworkInterface>)
    requires IndexOf(interfaces, s, InterfaceID) && Sorting.DistinctKeys(s, InterfaceID)
    ensures Sorting.DistinctKeys(s, NameOnNode) && VLANsApart(s) <==> InterfacesApart(interfaces)
  {
    DistinctIff(interfaces, s, InterfaceID, NameOnNode);
    VLANsIff(interfaces, s);
    hide Sorting.DistinctKeys;
    hide VLANsApart;
    hide IndexOf;
    hide NameOnNode;
    hide VLANBinding;
    hide Text.Lower;
    forall a, b | a in interfaces && b in interfaces
      ensures NameOnNode(interfaces[a]) == NameOnNode(interfaces[b]) <==>
              interfaces[a].nodeID == interfaces[b].nodeID && Text.Lower(interfaces[a].name) == Text.Lower(interfaces[b].name)
      ensures VLANBinding(interfaces[a]) == VLANBinding(interfaces[b]) <==>
              && interfaces[a].nodeID == interfaces[b].nodeID && interfaces[a].parentID == interfaces[b].parentID
              && interfaces[a].vlanID == interfaces[b].vlanID
    {
      NamesIff(interfaces, a, b);
    }
  }

  lemma OnNodeAgrees(interfaces: map<string, NetworkInterface>, s: seq<NetworkInterface>, nodeID: string)
    requires IndexOf(interfaces, s, InterfaceID)
    ensures OnNodeIn(interfaces, nodeID) == OnNode(s, nodeID)
  {
    forall id | id in OnNode(s, nodeID) ensures id in OnNodeIn(interfaces, nodeID) {
      var i :| i in s && i.nodeID == nodeID && i.id == id;
      assert InterfaceID(i) == id && interfaces[id] == i;
    }
    forall id | id in OnNodeIn(interfaces, nodeID) ensures id in OnNode(s, nodeID) {
      assert interfaces[id] in s && InterfaceID(interfaces[id]) == id;
    }
  }

  lemma LinksAgree(objects: ObjectMap)
    ensures Links(objects) == InterfaceParents(InterfacesIn(objects))
  {
    hide PickInterface;
  }

  /** With every parent known, chains are rooted exactly when they end. */
  lemma RootedIff(interfaces: map<string, NetworkInterface>)
    requires forall id | id in interfaces :: InterfaceID(interfaces[id]) == id && IsIdentifier(id)
    requires forall id | id in interfaces :: ParentStands(interfaces[id], interfaces)
    ensures ParentForest.Rooted(InterfaceParents(interfaces)) <==>
            forall id | id in interfaces :: ParentForest.Ends(InterfaceParents(interfaces), id)
  {
    hide IsIdentifier;
    hide ParentForest.Ends;
    if "" in interfaces { NotEmpty(""); }
  }

  ghost predicate Indexed(objects: ObjectMap, zones: seq<NetworkZone>, interfaces: seq<NetworkInterface>,
                          assignments: seq<RoleAssignment>)
  {
    && IndexOf(NetworkZonesIn(objects), zones, NetworkZoneID) && Sorting.DistinctKeys(zones, NetworkZoneID)
    && IndexOf(InterfacesIn(objects), interfaces, InterfaceID) && Sorting.DistinctKeys(interfaces, InterfaceID)
    && IndexOf(RolesIn(objects), assignments, AssignmentObjectID)
  }

  lemma AllZonesIff(zones: map<string, NetworkZone>, s: seq<NetworkZone>, objects: ObjectMap, t: Topology)
    requires Agrees(objects, t) && IndexOf(zones, s, NetworkZoneID)
    ensures (forall z | z in s :: NetworkZoneOk(z, t)) <==> forall id | id in zones :: NetworkZoneStands(zones[id], objects)
  {
    hide Agrees;
    hide NetworkZoneOk;
    hide NetworkZoneStands;
    forall id | id in zones ensures NetworkZoneOk(zones[id], t) <==> NetworkZoneStands(zones[id], objects) {
      NetworkZoneIff(zones[id], objects, t);
    }
  }

  lemma AllInterfacesIff(objects: ObjectMap, s: seq<NetworkInterface>, assignments: seq<RoleAssignment>, t: Topology)
    requires Agrees(objects, t) && IndexOf(RolesIn(objects), assignments, AssignmentObjectID)
    requires IndexOf(InterfacesIn(objects), s, InterfaceID)
    ensures (forall i | i in s :: InterfaceOk(i, NetworkZonesIn(objects), assignments, t) && ParentOk(i, InterfacesIn(objects))) <==>
            forall id | id in InterfacesIn(objects) :: InterfaceStands(InterfacesIn(objects)[id], objects)
  {
    hide Agrees;
    hide InterfaceOk;
    hide InterfaceLies;
    hide InterfaceFitsKind;
    hide ParentOk;
    hide ParentStands;
    hide RolesIn;
    hide NetworkZonesIn;
    hide InterfacesIn;
    var interfaces := InterfacesIn(objects);
    forall id | id in interfaces
      ensures InterfaceOk(interfaces[id], NetworkZonesIn(objects), assignments, t) && ParentOk(interfaces[id], interfaces) <==>
              InterfaceStands(interfaces[id], objects)
    {
      InterfaceIff(interfaces[id], objects, assignments, t);
      ParentIff(interfaces[id], interfaces);
    }
  }

  lemma StandingParts(i: NetworkInterface, objects: ObjectMap)
    requires InterfaceStands(i, objects)
    ensures IsIdentifier(i.id) && ParentStands(i, InterfacesIn(objects))
  {
    hide InterfaceLies;
    hide ParentStands;
    hide IsIdentifier;
  }

  lemma ChainsIff(objects: ObjectMap, s: seq<NetworkInterface>)
    requires IndexOf(InterfacesIn(objects), s, InterfaceID)
    requires forall id | id in InterfacesIn(objects) :: InterfaceStands(InterfacesIn(objects)[id], objects)
    ensures ParentForest.Rooted(InterfaceParents(InterfacesIn(objects))) <==>
            forall id | id in InterfacesIn(objects) :: ParentForest.Ends(Links(objects), id)
  {
    LinksAgree(objects);
    hide InterfaceStands;
    hide ParentStands;
    hide InterfacesIn;
    hide Links;
    hide IsIdentifier;
    hide ParentForest.Rooted;
    hide ParentForest.Ends;
    var interfaces := InterfacesIn(objects);
    forall id | id in interfaces
      ensures InterfaceID(interfaces[id]) == id && IsIdentifier(id) && ParentStands(interfaces[id], interfaces)
    {
      StandingParts(interfaces[id], objects);
    }
    RootedIff(interfaces);
  }

  lemma NetworkFitsIff(objects: ObjectMap, zones: seq<NetworkZone>, interfaces: seq<NetworkInterface>,
                       assignments: seq<RoleAssignment>, t: Topology)
    requires Agrees(objects, t) && Indexed(objects, zones, interfaces, assignments)
    ensures NetworkFits(NetworkZonesIn(objects), InterfacesIn(objects), zones, interfaces, assignments, t) <==> NetworkStands(objects)
  {
    hide Agrees;
    hide IndexOf;
    hide Sorting.DistinctKeys;
    hide NetworkZoneOk;
    hide NetworkZoneStands;
    hide InterfaceOk;
    hide InterfaceStands;
    hide ParentOk;
    hide InterfacesApart;
    hide VLANsApart;
    hide NetworkZonesIn;
    hide InterfacesIn;
    hide RolesIn;
    hide Links;
    hide OnNode;
    hide OnNodeIn;
    hide ParentForest.Rooted;
    hide ParentForest.Ends;
    AllZonesIff(NetworkZonesIn(objects), zones, objects, t);
    AllInterfacesIff(objects, interfaces, assignments, t);
    ApartIff(InterfacesIn(objects), interfaces);
    forall n: string ensures OnNodeIn(InterfacesIn(objects), n) == OnNode(interfaces, n) {
      OnNodeAgrees(InterfacesIn(objects), interfaces, n);
    }
    if forall id | id in InterfacesIn(objects) :: InterfaceStands(InterfacesIn(objects)[id], objects) {
      ChainsIff(objects, interfaces);
    }
  }

  lemma NetworkOkIff(objects: ObjectMap, zones: seq<NetworkZone>, interfaces: seq<NetworkInterface>,
                     assignments: seq<RoleAssignment>, t: Topology)
    requires Agrees(objects, t) && Indexed(objects, zones, interfaces, assignments)
    ensures NetworkOk(zones, interfaces, assignments, t) <==> NetworkStands(objects)
  {
    NetworkFitsIff(objects, zones, interfaces, assignments, t);
    hide NetworkStands;
    hide NetworkFits;
    hide Agrees;
    if NetworkOk(zones, interfaces, assignments, t) {
      var zonesByID, byID :| NetworkFits(zonesByID, byID, zones, interfaces, assignments, t);
      FitsIndexes(zonesByID, byID, zones, interfaces, assignments, t);
      hide IndexOf;
      hide NetworkZonesIn;
      hide InterfacesIn;
      IndexUnique(zonesByID, NetworkZonesIn(objects), zones, zones, NetworkZoneID);
      IndexUnique(byID, InterfacesIn(objects), interfaces, interfaces, InterfaceID);
    }
  }

  lemma FitsIndexes(zonesByID: map<string, NetworkZone>, byID: map<string, NetworkInterface>, zones: seq<NetworkZone>,
                    interfaces: seq<NetworkInterface>, assignments: seq<RoleAssignment>, t: Topology)
    requires NetworkFits(zonesByID, byID, zones, interfaces, assignments, t)
    ensures IndexOf(zonesByID, zones, NetworkZoneID) && IndexOf(byID, interfaces, InterfaceID)
  {
    hide IndexOf;
    hide InterfaceOk;
    hide NetworkZoneOk;
    hide ParentOk;
    hide VLANsApart;
  }

  // ----- the envelope -----

  /** Identified, at its first generation or later, under a version token, and not
      updated before it was created; a JSON object of a known type. */
  predicate EnvelopeStands(o: StoredObject)
  {
    var m := o.metadata;
    && Text.IsIdentifier(m.objectID, 255, true) && Text.IsIdentifier(m.scopeID, 255, true) && Text.IsIdentifier(m.ownerScope, 255, true)
    && m.generation >= 1 && Text.IsOpaqueToken(m.resourceVersion)
    && m.createdAt != 0 && m.updatedAt != 0 && m.createdAt <= m.updatedAt
    && !o.objectType.UnknownObject? && !o.document.content.NotAnObject? && !o.document.content.Malformed?
  }

  lemma EnvelopeIff(o: StoredObject)
    ensures EnvelopeOk(o) <==> EnvelopeStands(o)
  {
    hide Text.IsIdentifier;
    hide Text.IsOpaqueToken;
  }

  // ----- the whole repository -----

  /** A repository that stands: every object is well formed and placed, the scopes
      form one tree with its sites and zones, role assignments differ and control
      planes pair off, and the network stands. */
  ghost predicate StoreStands(objects: ObjectMap)
  {
    && objects != map[]
    && (forall id | id in objects :: EnvelopeStands(objects[id]) && Placed(objects, objects[id]))
    && TreeStands(ScopesIn(objects)) && SitesStand(SitesIn(objects), ScopesIn(objects))
    && ZonesStand(ZonesIn(objects), SitesIn(objects), ScopesIn(objects))
    && RolesApart(RolesIn(objects)) && PlanesPairOff(RolesIn(objects)) && NetworkStands(objects)
  }

  /** Every document names the object that holds it. */
  predicate NamesOwn(o: StoredObject)
  {
    && (PickScope(o).Some? ==> PickScope(o).value.id == ObjectID(o))
    && (PickSite(o).Some? ==> PickSite(o).value.id == ObjectID(o))
    && (PickManagementZone(o).Some? ==> PickManagementZone(o).value.id == ObjectID(o))
    && (PickNetworkZone(o).Some? ==> PickNetworkZone(o).value.id == ObjectID(o))
    && (PickInterface(o).Some? ==> PickInterface(o).value.id == ObjectID(o))
  }

  lemma PlacedNames(objects: ObjectMap, o: StoredObject)
    requires Placed(objects, o)
    ensures NamesOwn(o)
  {
    hide Governs;
    hide RolePlaced;
    hide IntentPlaced;
    hide ObservationPlaced;
  }

  lemma TypedNames(o: StoredObject, t: Topology)
    requires TypedOk(o, t)
    ensures NamesOwn(o)
  {
    hide OwnedBy;
    hide AssignmentOk;
    hide DesiredOk;
    hide ActualOk;
  }

  /** The parts of a listing and the maps of its objects. */
  ghost predicate PartsIndexed(objects: ObjectMap, listing: seq<StoredObject>)
  {
    && IndexOf(ScopesIn(objects), Scopes(listing), ScopeID) && Sorting.DistinctKeys(Scopes(listing), ScopeID)
    && IndexOf(SitesIn(objects), Sites(listing), SiteID) && Sorting.DistinctKeys(Sites(listing), SiteID)
    && IndexOf(ZonesIn(objects), ManagementZones(listing), ZoneID) && Sorting.DistinctKeys(ManagementZones(listing), ZoneID)
    && Indexed(objects, NetworkZones(listing), Interfaces(listing), Assignments(listing))
    && Sorting.DistinctKeys(Assignments(listing), AssignmentObjectID)
  }

  lemma ScopesIndexed(objects: ObjectMap, listing: seq<StoredObject>)
    requires IndexOf(objects, listing, ObjectID) && Sorting.DistinctKeys(listing, ObjectID)
    requires forall o | o in listing :: NamesOwn(o)
    ensures IndexOf(ScopesIn(objects), Scopes(listing), ScopeID) && Sorting.DistinctKeys(Scopes(listing), ScopeID)
  {
    hide IndexOf;
    hide Sorting.DistinctKeys;
    hide Seqs.Collect;
    forall o | o in listing && PickScope(o).Some? ensures ScopeID(PickScope(o).value) == ObjectID(o) { assert NamesOwn(o); }
    hide PickScope;
    PartIndex(objects, listing, PickScope, ScopeID, ScopesIn(objects));
  }

  lemma SitesIndexed(objects: ObjectMap, listing: seq<StoredObject>)
    requires IndexOf(objects, listing, ObjectID) && Sorting.DistinctKeys(listing, ObjectID)
    requires forall o | o in listing :: NamesOwn(o)
    ensures IndexOf(SitesIn(objects), Sites(listing), SiteID) && Sorting.DistinctKeys(Sites(listing), SiteID)
  {
    hide IndexOf;
    hide Sorting.DistinctKeys;
    hide Seqs.Collect;
    forall o | o in listing && PickSite(o).Some? ensures SiteID(PickSite(o).value) == ObjectID(o) { assert NamesOwn(o); }
    hide PickSite;
    PartIndex(objects, listing, PickSite, SiteID, SitesIn(objects));
  }

  lemma ZonesIndexed(objects: ObjectMap, listing: seq<StoredObject>)
    requires IndexOf(objects, listing, ObjectID) && Sorting.DistinctKeys(listing, ObjectID)
    requires forall o | o in listing :: NamesOwn(o)
    ensures IndexOf(ZonesIn(objects), ManagementZones(listing), ZoneID) && Sorting.DistinctKeys(ManagementZones(listing), ZoneID)
  {
    hide IndexOf;
    hide Sorting.DistinctKeys;
    hide Seqs.Collect;
    forall o | o in listing && PickManagementZone(o).Some? ensures ZoneID(PickManagementZone(o).value) == ObjectID(o) { assert NamesOwn(o); }
    hide PickManagementZone;
    PartIndex(objects, listing, PickManagementZone, ZoneID, ZonesIn(objects));
  }

  lemma NetworkZonesIndexed(objects: ObjectMap, listing: seq<StoredObject>)
    requires IndexOf(objects, listing, ObjectID) && Sorting.DistinctKeys(listing, ObjectID)
    requires forall o | o in listing :: NamesOwn(o)
    ensures IndexOf(NetworkZonesIn(objects), NetworkZones(listing), NetworkZoneID) && Sorting.DistinctKeys(NetworkZones(listing), NetworkZoneID)
  {
    hide IndexOf;
    hide Sorting.DistinctKeys;
    hide Seqs.Collect;
    forall o | o in listing && PickNetworkZone(o).Some? ensures NetworkZoneID(PickNetworkZone(o).value) == ObjectID(o) { assert NamesOwn(o); }
    hide PickNetworkZone;
    PartIndex(objects, listing, PickNetworkZone, NetworkZoneID, NetworkZonesIn(objects));
  }

  lemma InterfacesIndexed(objects: ObjectMap, listing: seq<StoredObject>)
    requires IndexOf(objects, listing, ObjectID) && Sorting.DistinctKeys(listing, ObjectID)
    requires forall o | o in listing :: NamesOwn(o)
    ensures IndexOf(InterfacesIn(objects), Interfaces(listing), InterfaceID) && Sorting.DistinctKeys(Interfaces(listing), InterfaceID)
  {
    hide IndexOf;
    hide Sorting.DistinctKeys;
    hide Seqs.Collect;
    forall o | o in listing && PickInterface(o).Some? ensures InterfaceID(PickInterface(o).value) == ObjectID(o) { assert NamesOwn(o); }
    hide PickInterface;
    PartIndex(objects, listing, PickInterface, InterfaceID, InterfacesIn(objects));
  }

  lemma RolesIndexed(objects: ObjectMap, listing: seq<StoredObject>)
    requires IndexOf(objects, listing, ObjectID) && Sorting.DistinctKeys(listing, ObjectID)
    requires forall o | o in listing :: NamesOwn(o)
    ensures IndexOf(RolesIn(objects), Assignments(listing), AssignmentObjectID) && Sorting.DistinctKeys(Assignments(listing), AssignmentObjectID)
  {
    hide IndexOf;
    hide Sorting.DistinctKeys;
    hide Seqs.Collect;
    forall o | o in listing && PickAssignment(o).Some? ensures AssignmentObjectID(PickAssignment(o).value) == ObjectID(o) { assert NamesOwn(o); }
    hide PickAssignment;
    PartIndex(objects, listing, PickAssignment, AssignmentObjectID, RolesIn(objects));
  }

  lemma PartsAreIndexed(objects: ObjectMap, listing: seq<StoredObject>)
    requires IndexOf(objects, listing, ObjectID) && Sorting.DistinctKeys(listing, ObjectID)
    requires forall o | o in listing :: NamesOwn(o)
    ensures PartsIndexed(objects, listing)
  {
    hide *;
    ScopesIndexed(objects, listing);
    SitesIndexed(objects, listing);
    ZonesIndexed(objects, listing);
    NetworkZonesIndexed(objects, listing);
    InterfacesIndexed(objects, listing);
    RolesIndexed(objects, listing);
    PartsTogether(objects, listing);
  }

  lemma PartsTogether(objects: ObjectMap, listing: seq<StoredObject>)
    requires IndexOf(ScopesIn(objects), Scopes(listing), ScopeID) && Sorting.DistinctKeys(Scopes(listing), ScopeID)
    requires IndexOf(SitesIn(objects), Sites(listing), SiteID) && Sorting.DistinctKeys(Sites(listing), SiteID)
    requires IndexOf(ZonesIn(objects), ManagementZones(listing), ZoneID) && Sorting.DistinctKeys(ManagementZones(listing), ZoneID)
    requires IndexOf(NetworkZonesIn(objects), NetworkZones(listing), NetworkZoneID)
    requires Sorting.DistinctKeys(NetworkZones(listing), NetworkZoneID)
    requires IndexOf(InterfacesIn(objects), Interfaces(listing), InterfaceID) && Sorting.DistinctKeys(Interfaces(listing), InterfaceID)
    requires IndexOf(RolesIn(objects), Assignments(listing), AssignmentObjectID)
    requires Sorting.DistinctKeys(Assignments(listing), AssignmentObjectID)
    ensures PartsIndexed(objects, listing)
  {
    hide IndexOf;
    hide Sorting.DistinctKeys;
  }

  lemma ScopesKeyed(objects: ObjectMap, listing: seq<StoredObject>)
    requires IndexOf(ScopesIn(objects), Scopes(listing), ScopeID)
    ensures Keys(ScopesIn(objects), ScopeID)
    ensures (forall s | s in Scopes(listing) :: ScopeOk(s)) <==> forall id | id in ScopesIn(objects) :: ScopeOk(ScopesIn(objects)[id])
  {
    hide ScopeOk;
    hide ScopesIn;
    hide Scopes;
  }

  /** The lists describe a topology with these maps exactly when the maps stand. */
  lemma TopologyIff(objects: ObjectMap, listing: seq<StoredObject>, t: Topology)
    requires PartsIndexed(objects, listing)
    requires t.scopes == ScopesIn(objects) && t.sites == SitesIn(objects) && t.zones == ZonesIn(objects) && IsRoot(t.scopes, t.rootID)
    ensures WellFormed(t, Scopes(listing), Sites(listing), ManagementZones(listing)) <==>
            && TreeStands(ScopesIn(objects)) && SitesStand(SitesIn(objects), ScopesIn(objects))
            && ZonesStand(ZonesIn(objects), SitesIn(objects), ScopesIn(objects))
  {
    hide ScopesIn;
    hide SitesIn;
    hide ZonesIn;
    hide Scopes;
    hide Sites;
    hide ManagementZones;
    hide IndexOf;
    hide Sorting.DistinctKeys;
    hide ScopeOk;
    hide SiteOk;
    hide ZoneOk;
    hide TreeOk;
    hide TreeStands;
    hide SitesStand;
    hide ZonesStand;
    hide IsRoot;
    hide Indexed;
    ScopesKeyed(objects, listing);
    TreeIff(t.scopes);
    SitesIff(t.sites, Sites(listing), t.scopes);
    ZonesIff(t.zones, ManagementZones(listing), t.scopes, t.sites);
  }

  lemma RolesTyped(objects: ObjectMap, listing: seq<StoredObject>, t: Topology)
    requires IndexOf(objects, listing, ObjectID) && forall o | o in listing :: TypedOk(o, t)
    ensures forall a | a in Assignments(listing) :: AssignmentOk(a, t)
  {
    Seqs.Collected(PickAssignment, listing);
    hide Seqs.Collect;
    hide AssignmentOk;
    hide TypedOk;
    hide PickAssignment;
    forall a | a in Assignments(listing) ensures AssignmentOk(a, t) {
      var o :| o in listing && PickAssignment(o) == Some(a);
      RoleTyped(o, t);
    }
  }

  lemma RoleTyped(o: StoredObject, t: Topology)
    requires TypedOk(o, t) && PickAssignment(o).Some?
    ensures AssignmentOk(PickAssignment(o).value, t)
  {
    hide AssignmentOk;
    hide OwnedBy;
  }

  /** Around one topology the listing fits exactly when the objects stand. */
  lemma FitsIff(objects: ObjectMap, listing: seq<StoredObject>, t: Topology)
    requires IndexOf(objects, listing, ObjectID) && Sorting.DistinctKeys(listing, ObjectID) && Agrees(objects, t)
    requires PartsIndexed(objects, listing)
    ensures SnapshotFits(t, listing) <==> StoreStands(objects)
  {
    hide *;
    AgreesParts(objects, t);
    TopologyIff(objects, listing, t);
    TypedAll(objects, listing, t);
    NotNothing(objects, listing);
    if forall o | o in listing :: EnvelopeOk(o) && TypedOk(o, t) {
      RolesTyped(objects, listing, t);
      IndexedParts(objects, listing);
      RolesIff(RolesIn(objects), Assignments(listing), t);
      NetworkOkIff(objects, NetworkZones(listing), Interfaces(listing), Assignments(listing), t);
    }
    FitsParts(objects, listing, t);
  }

  lemma AgreesParts(objects: ObjectMap, t: Topology)
    requires Agrees(objects, t)
    ensures t.scopes == ScopesIn(objects) && t.sites == SitesIn(objects) && t.zones == ZonesIn(objects)
    ensures IsRoot(t.scopes, t.rootID)
  {
    hide ScopesIn;
    hide SitesIn;
    hide ZonesIn;
  }

  lemma IndexedParts(objects: ObjectMap, listing: seq<StoredObject>)
    requires PartsIndexed(objects, listing)
    ensures Indexed(objects, NetworkZones(listing), Interfaces(listing), Assignments(listing))
    ensures IndexOf(RolesIn(objects), Assignments(listing), AssignmentObjectID)
    ensures Sorting.DistinctKeys(Assignments(listing), AssignmentObjectID)
  {
    hide IndexOf;
    hide Sorting.DistinctKeys;
  }

  lemma NotNothing(objects: ObjectMap, listing: seq<StoredObject>)
    requires IndexOf(objects, listing, ObjectID)
    ensures listing != [] <==> objects != map[]
  {
    if listing != [] { assert listing[0] in listing && ObjectID(listing[0]) in objects; }
    if objects != map[] { var id :| id in objects; }
  }

  lemma TypedAll(objects: ObjectMap, listing: seq<StoredObject>, t: Topology)
    requires IndexOf(objects, listing, ObjectID) && Agrees(objects, t)
    ensures (forall o | o in listing :: EnvelopeOk(o) && TypedOk(o, t)) <==>
            forall id | id in objects :: EnvelopeStands(objects[id]) && Placed(objects, objects[id])
  {
    hide Agrees;
    hide EnvelopeOk;
    hide EnvelopeStands;
    hide TypedOk;
    hide Placed;
    forall id | id in objects
      ensures EnvelopeOk(objects[id]) && TypedOk(objects[id], t) <==> EnvelopeStands(objects[id]) && Placed(objects, objects[id])
    {
      EnvelopeIff(objects[id]);
      TypedIff(objects, t, objects[id]);
    }
  }

  lemma FitsParts(objects: ObjectMap, listing: seq<StoredObject>, t: Topology)
    requires Sorting.DistinctKeys(listing, ObjectID) && (listing != [] <==> objects != map[])
    requires (forall o | o in listing :: EnvelopeOk(o) && TypedOk(o, t)) <==>
             forall id | id in objects :: EnvelopeStands(objects[id]) && Placed(objects, objects[id])
    requires WellFormed(t, Scopes(listing), Sites(listing), ManagementZones(listing)) <==>
             && TreeStands(ScopesIn(objects)) && SitesStand(SitesIn(objects), ScopesIn(objects))
             && ZonesStand(ZonesIn(objects), SitesIn(objects), ScopesIn(objects))
    requires (forall o | o in listing :: EnvelopeOk(o) && TypedOk(o, t)) ==>
               && (AssignmentsOk(Assignments(listing), t) <==> RolesApart(RolesIn(objects)) && PlanesPairOff(RolesIn(objects)))
               && (NetworkOk(NetworkZones(listing), Interfaces(listing), Assignments(listing), t) <==> NetworkStands(objects))
    ensures SnapshotFits(t, listing) <==> StoreStands(objects)
  {
    hide EnvelopeOk;
    hide EnvelopeStands;
    hide TypedOk;
    hide Placed;
    hide WellFormed;
    hide TreeStands;
    hide SitesStand;
    hide ZonesStand;
    hide AssignmentsOk;
    hide NetworkOk;
    hide NetworkStands;
    hide RolesApart;
    hide PlanesPairOff;
    hide ScopesIn;
    hide SitesIn;
    hide ZonesIn;
    hide RolesIn;
    hide Sorting.DistinctKeys;
  }

  /** A repository passes complete validation exactly when it stands. */
  lemma SnapshotIff(objects: ObjectMap)
    requires Keyed(objects)
    ensures SnapshotOk(Ordered(objects)) <==> StoreStands(objects)
  {
    hide *;
    var listing := Ordered(objects);
    OrderedIndexes(objects);
    if SnapshotOk(listing) {
      var t := SomeFit(listing);
      FittingAgrees(objects, listing, t);
      FittingNames(listing, t);
      PartsAreIndexed(objects, listing);
      FitsIff(objects, listing, t);
    }
    if StoreStands(objects) {
      var t := StandingTopology(objects);
      StandingNames(objects, listing);
      PartsAreIndexed(objects, listing);
      FitsIff(objects, listing, t);
      FitIsOk(t, listing);
    }
  }

  lemma SomeFit(listing: seq<StoredObject>) returns (t: Topology)
    requires SnapshotOk(listing)
    ensures SnapshotFits(t, listing)
  {
    hide SnapshotFits;
    t :| SnapshotFits(t, listing);
  }

  lemma FitIsOk(t: Topology, listing: seq<StoredObject>)
    requires SnapshotFits(t, listing)
    ensures SnapshotOk(listing)
  {
    hide SnapshotFits;
  }

  lemma FittingNames(listing: seq<StoredObject>, t: Topology)
    requires SnapshotFits(t, listing)
    ensures forall o | o in listing :: NamesOwn(o)
  {
    hide EnvelopeOk;
    hide TypedOk;
    hide WellFormed;
    hide AssignmentsOk;
    hide NetworkOk;
    hide NamesOwn;
    forall o | o in listing ensures NamesOwn(o) { TypedNames(o, t); }
  }

  lemma StandingNames(objects: ObjectMap, listing: seq<StoredObject>)
    requires IndexOf(objects, listing, ObjectID) && StoreStands(objects)
    ensures forall o | o in listing :: NamesOwn(o)
  {
    hide Placed;
    hide NamesOwn;
    hide TreeStands;
    hide SitesStand;
    hide ZonesStand;
    hide NetworkStands;
    hide RolesApart;
    hide PlanesPairOff;
    forall o | o in listing ensures NamesOwn(o) {
      assert objects[ObjectID(o)] == o;
      PlacedNames(objects, o);
    }
  }

  lemma StandingTopology(objects: ObjectMap) returns (t: Topology)
    requires StoreStands(objects)
    ensures Agrees(objects, t)
  {
    hide ScopesIn;
    hide SitesIn;
    hide ZonesIn;
    hide SitesStand;
    hide ZonesStand;
    hide NetworkStands;
    hide RolesApart;
    hide PlanesPairOff;
    hide Placed;
    hide ScopeStands;
    hide ParentForest.Ends;
    var scopes := ScopesIn(objects);
    var root :| root in scopes && scopes[root].kind.GlobalScope?;
    t := Topology(root, scopes, SitesIn(objects), ZonesIn(objects));
  }

  /** Every reachable repository stands, whatever calls were made. */
  lemma ReachableStands(initial: seq<StoredObject>, calls: seq<Call>)
    requires SnapshotOk(initial)
    ensures StoreStands(Run(Start(initial), calls).objects)
  {
    hide *;
    ReachableGuarantees(initial, calls);
    var now := Run(Start(initial), calls);
    ConsistentIs(now);
    SnapshotIff(now.objects);
  }

  lemma ConsistentIs(s: Store)
    requires Consistent(s)
    ensures Keyed(s.objects) && SnapshotOk(Ordered(s.objects))
  {
    hide SnapshotOk;
    hide Ordered;
  }
}
