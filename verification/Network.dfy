/** Network zones and interfaces of a distributed snapshot
    (internal/corecontracts/network.go). */
module Network {
  import opened Metadata
  import opened Options
  import opened Topology
  import opened Roles
  import ParentForest
  import Seqs
  import Sorting
  import Text

  datatype NetworkZoneKind =
    | Unassigned | WAN | LAN | Management | DMZ | Cluster | Storage | Backup | Trusted | UnknownZoneKind(text: string)
  datatype InterfaceKind = Physical | Bond | Bridge | VLAN | Virtual | UnknownInterfaceKind(text: string)
  datatype LinkState = LinkUp | LinkDown | LinkUnknown | InvalidLink(text: string)

  /** Parsing of addresses is not part of this model: a text says whether it is
      in canonical form. */
  datatype MacText = NoMac | CanonicalMac(text: string) | MalformedMac(text: string)
  datatype AddressText = AddressText(text: string, canonical: bool)

  datatype NetworkZone = NetworkZone(id: string, name: string, kind: NetworkZoneKind, scopeID: string, siteID: string)

  datatype NetworkInterface = NetworkInterface(
    id: string, nodeID: string, name: string, kind: InterfaceKind, scopeID: string, siteID: string, zoneID: string,
    mac: MacText, state: LinkState, addresses: seq<AddressText>, mtu: nat, linkSpeed: nat,
    parentID: string, vlanID: Option<nat>)

  const MAX_INTERFACES_PER_NODE := 64
  const MAX_ADDRESSES := 64
  const MAX_LINK_SPEED := 10_000_000

  function NetworkZoneID(z: NetworkZone): string { z.id }
  function InterfaceID(i: NetworkInterface): string { i.id }
  function NameOnNode(i: NetworkInterface): (string, string) { (i.nodeID, Text.Lower(i.name)) }
  function VLANBinding(i: NetworkInterface): (string, string, Option<nat>) { (i.nodeID, i.parentID, i.vlanID) }
  function AddressItself(a: AddressText): AddressText { a }

  // ----- one zone, one interface -----

  ghost predicate NetworkZoneOk(z: NetworkZone, t: Topology)
  {
    && IsIdentifier(z.id) && Text.IsDisplayName(z.name) && !z.kind.UnknownZoneKind?
    && IsIdentifier(z.scopeID) && IsIdentifier(z.siteID)
    && z.siteID in t.sites && Contains(t, t.sites[z.siteID].scopeID, z.scopeID)
  }

  /** A node is known at a site when a role assignment binds it there. */
  ghost predicate KnownAt(nodeID: string, siteID: string, assignments: seq<RoleAssignment>)
  {
    exists a | a in assignments :: a.siteID == siteID && a.siteID != "" && a.targetNodeID == nodeID
  }

  ghost predicate PlacedOk(i: NetworkInterface, zones: map<string, NetworkZone>, t: Topology)
  {
    && i.siteID in t.sites && Contains(t, t.sites[i.siteID].scopeID, i.scopeID)
    && i.zoneID in zones && zones[i.zoneID].siteID == i.siteID && Contains(t, zones[i.zoneID].scopeID, i.scopeID)
  }

  predicate NamedOk(i: NetworkInterface)
  {
    && IsIdentifier(i.id) && IsIdentifier(i.nodeID) && IsIdentifier(i.scopeID) && IsIdentifier(i.siteID)
    && IsIdentifier(i.zoneID) && Text.IsDisplayName(i.name)
    && !i.kind.UnknownInterfaceKind? && !i.state.InvalidLink?
  }

  predicate LimitsOk(i: NetworkInterface)
  {
    && 68 <= i.mtu <= 65535 && i.linkSpeed <= MAX_LINK_SPEED
    && !i.mac.MalformedMac? && (i.kind.Physical? ==> !i.mac.NoMac?)
  }

  ghost predicate AddressesOk(addresses: seq<AddressText>)
  {
    && |addresses| <= MAX_ADDRESSES && (forall a | a in addresses :: a.canonical)
    && Sorting.DistinctKeys(addresses, AddressItself)
  }

  /** Only VLANs carry a VLAN number, and only VLAN and virtual interfaces a parent. */
  predicate LinkageOk(i: NetworkInterface)
  {
    && (if i.kind.VLAN? then i.parentID != "" && i.vlanID.Some? && 1 <= i.vlanID.value <= 4094 else i.vlanID.None?)
    && (i.parentID != "" ==> i.kind.VLAN? || i.kind.Virtual?)
  }

  ghost predicate InterfaceOk(i: NetworkInterface, zones: map<string, NetworkZone>, assignments: seq<RoleAssignment>,
                              t: Topology)
  {
    && NamedOk(i) && PlacedOk(i, zones, t) && KnownAt(i.nodeID, i.siteID, assignments)
    && LimitsOk(i) && AddressesOk(i.addresses) && LinkageOk(i)
  }

  // ----- a complete snapshot -----

  function OnNode(interfaces: seq<NetworkInterface>, nodeID: string): set<string>
  {
    set i | i in interfaces && i.nodeID == nodeID :: i.id
  }

  ghost predicate ParentOk(i: NetworkInterface, byID: map<string, NetworkInterface>)
  {
    i.parentID == "" ||
    (&& i.parentID in byID && i.parentID != i.id
     && byID[i.parentID].nodeID == i.nodeID && byID[i.parentID].siteID == i.siteID
     && byID[i.parentID].scopeID == i.scopeID)
  }

  function InterfaceParents(byID: map<string, NetworkInterface>): ParentForest.Parents
  {
    map id | id in byID :: byID[id].parentID
  }

  ghost predicate VLANsApart(interfaces: seq<NetworkInterface>)
  {
    forall i, j | i in interfaces && j in interfaces && i.kind.VLAN? && j.kind.VLAN? && VLANBinding(i) == VLANBinding(j) ::
      i == j
  }

  ghost predicate NetworkFits(zonesByID: map<string, NetworkZone>, byID: map<string, NetworkInterface>,
                              zones: seq<NetworkZone>, interfaces: seq<NetworkInterface>,
                              assignments: seq<RoleAssignment>, t: Topology)
  {
    && (forall z | z in zones :: NetworkZoneOk(z, t)) && Sorting.DistinctKeys(zones, NetworkZoneID)
    && IndexOf(zonesByID, zones, NetworkZoneID)
    && (forall i | i in interfaces :: InterfaceOk(i, zonesByID, assignments, t))
    && Sorting.DistinctKeys(interfaces, InterfaceID) && IndexOf(byID, interfaces, InterfaceID)
    && Sorting.DistinctKeys(interfaces, NameOnNode)
    && (forall n: string :: |OnNode(interfaces, n)| <= MAX_INTERFACES_PER_NODE)
    && (forall i | i in interfaces :: ParentOk(i, byID)) && VLANsApart(interfaces)
    && ParentForest.Rooted(InterfaceParents(byID))
  }

  ghost predicate NetworkOk(zones: seq<NetworkZone>, interfaces: seq<NetworkInterface>,
                            assignments: seq<RoleAssignment>, t: Topology)
  {
    exists zonesByID, byID :: NetworkFits(zonesByID, byID, zones, interfaces, assignments, t)
  }

  lemma NetworkPermuted(zones: seq<NetworkZone>, interfaces: seq<NetworkInterface>, assignments: seq<RoleAssignment>,
                        zones': seq<NetworkZone>, interfaces': seq<NetworkInterface>, assignments': seq<RoleAssignment>,
                        t: Topology)
    requires multiset(zones) == multiset(zones') && multiset(interfaces) == multiset(interfaces')
    requires multiset(assignments) == multiset(assignments') && NetworkOk(zones, interfaces, assignments, t)
    ensures NetworkOk(zones', interfaces', assignments', t)
  {
    hide NetworkFits;
    var zonesByID, byID :| NetworkFits(zonesByID, byID, zones, interfaces, assignments, t);
    FitsPermuted(zonesByID, byID, zones, interfaces, assignments, zones', interfaces', assignments', t);
  }

  lemma FitsPermuted(zonesByID: map<string, NetworkZone>, byID: map<string, NetworkInterface>,
                     zones: seq<NetworkZone>, interfaces: seq<NetworkInterface>, assignments: seq<RoleAssignment>,
                     zones': seq<NetworkZone>, interfaces': seq<NetworkInterface>, assignments': seq<RoleAssignment>,
                     t: Topology)
    requires multiset(zones) == multiset(zones') && multiset(interfaces) == multiset(interfaces')
    requires multiset(assignments) == multiset(assignments')
    requires NetworkFits(zonesByID, byID, zones, interfaces, assignments, t)
    ensures NetworkFits(zonesByID, byID, zones', interfaces', assignments', t)
  {
    hide NetworkZoneOk;
    hide PlacedOk;
    hide NamedOk;
    hide LimitsOk;
    hide AddressesOk;
    hide LinkageOk;
    hide ParentOk;
    Sorting.SameElements(zones, zones');
    Sorting.SameElements(interfaces, interfaces');
    Sorting.SameElements(assignments, assignments');
    Sorting.DistinctPermuted(zones, zones', NetworkZoneID);
    Sorting.DistinctPermuted(interfaces, interfaces', InterfaceID);
    Sorting.DistinctPermuted(interfaces, interfaces', NameOnNode);
    forall n: string ensures OnNode(interfaces', n) == OnNode(interfaces, n) {}
    forall n, s | KnownAt(n, s, assignments) ensures KnownAt(n, s, assignments') {}
  }

  // ----- what an accepted snapshot guarantees -----

  /** Every interface's parent chain is finite, and everything on it stays on
      the interface's node, site and scope. */
  lemma ChainStaysHome(zonesByID: map<string, NetworkZone>, byID: map<string, NetworkInterface>,
                       zones: seq<NetworkZone>, interfaces: seq<NetworkInterface>, assignments: seq<RoleAssignment>,
                       t: Topology, i: NetworkInterface)
    requires NetworkFits(zonesByID, byID, zones, interfaces, assignments, t) && i in interfaces
    ensures ParentForest.Ends(InterfaceParents(byID), i.id)
    ensures forall id | ParentForest.Above(InterfaceParents(byID), id, i.id) ::
              && id in byID && byID[id].nodeID == i.nodeID && byID[id].siteID == i.siteID
              && byID[id].scopeID == i.scopeID
  {
    hide InterfaceOk;
    hide NetworkZoneOk;
    hide VLANsApart;
    var parents := InterfaceParents(byID);
    assert i.id in parents;
    forall id | ParentForest.Above(parents, id, i.id)
      ensures id in byID && byID[id].nodeID == i.nodeID && byID[id].siteID == i.siteID && byID[id].scopeID == i.scopeID
    {
      var n: nat :| ParentForest.Up(parents, i.id, n) == id;
      HomeUp(byID, interfaces, i, n);
    }
  }

  lemma {:induction false} HomeUp(byID: map<string, NetworkInterface>, interfaces: seq<NetworkInterface>,
                                  i: NetworkInterface, n: nat)
    requires IndexOf(byID, interfaces, InterfaceID) && i in interfaces && "" !in byID
    requires forall j | j in interfaces :: ParentOk(j, byID)
    ensures var id := ParentForest.Up(InterfaceParents(byID), i.id, n);
            id != "" ==> && id in byID && byID[id].nodeID == i.nodeID && byID[id].siteID == i.siteID
                         && byID[id].scopeID == i.scopeID
  {
    if n > 0 {
      HomeUp(byID, interfaces, i, n - 1);
      var below := ParentForest.Up(InterfaceParents(byID), i.id, n - 1);
      if below != "" { assert ParentOk(byID[below], byID); }
    }
  }

  // ----- the validator -----

  method ValidateNetworkZone(z: NetworkZone, t: Topology) returns (ok: bool)
    requires Accepted(t)
    ensures ok <==> NetworkZoneOk(z, t)
  {
    hide Accepted;
    hide Contains;
    if !IsIdentifier(z.id) || !Text.IsDisplayName(z.name) || z.kind.UnknownZoneKind? || !IsIdentifier(z.scopeID) ||
       !IsIdentifier(z.siteID) || z.siteID !in t.sites {
      return false;
    }
    ok := ContainsInTopology(t, t.sites[z.siteID].scopeID, z.scopeID);
  }

  method IndexNetworkZones(zones: seq<NetworkZone>, t: Topology) returns (ok: bool, byID: map<string, NetworkZone>)
    requires Accepted(t)
    ensures ok <==> (forall z | z in zones :: NetworkZoneOk(z, t)) && Sorting.DistinctKeys(zones, NetworkZoneID)
    ensures ok ==> IndexOf(byID, zones, NetworkZoneID)
  {
    hide Accepted;
    hide NetworkZoneOk;
    ok, byID := false, map[];
    for k := 0 to |zones|
      invariant !ok
      invariant forall z | z in zones[..k] :: NetworkZoneOk(z, t)
      invariant Sorting.DistinctKeys(zones[..k], NetworkZoneID) && IndexOf(byID, zones[..k], NetworkZoneID)
    {
      var zone := zones[k];
      assert zone in zones && zones[..k + 1] == zones[..k] + [zone];
      var zoneOk := ValidateNetworkZone(zone, t);
      if !zoneOk { return; }
      if zone.id in byID {
        Sorting.RepeatSpoils(zones, NetworkZoneID, k, byID[zone.id]);
        return;
      }
      IndexGrows(byID, zones[..k], NetworkZoneID, zone);
      Sorting.DistinctSnoc(zones[..k], NetworkZoneID, zone);
      byID := byID[zone.id := zone];
    }
    assert zones[..|zones|] == zones;
    ok := true;
  }

  ghost predicate KnowsNodes(known: set<(string, string)>, assignments: seq<RoleAssignment>)
  {
    forall s, n :: (s, n) in known <==> KnownAt(n, s, assignments)
  }

  /** Site and node of every assignment bound to a site. */
  method NodesAtSites(assignments: seq<RoleAssignment>) returns (known: set<(string, string)>)
    ensures KnowsNodes(known, assignments)
  {
    known := {};
    for k := 0 to |assignments|
      invariant forall s, n :: (s, n) in known <==> KnownAt(n, s, assignments[..k])
    {
      var a := assignments[k];
      assert assignments[..k + 1] == assignments[..k] + [a];
      ghost var before := known;
      if a.siteID != "" { known := known + {(a.siteID, a.targetNodeID)}; }
      forall s, n ensures (s, n) in known <==> KnownAt(n, s, assignments[..k + 1]) {
        if KnownAt(n, s, assignments[..k]) {
          var b :| b in assignments[..k] && b.siteID == s && b.siteID != "" && b.targetNodeID == n;
          assert b in assignments[..k + 1];
        }
        if KnownAt(n, s, assignments[..k + 1]) {
          var b :| b in assignments[..k + 1] && b.siteID == s && b.siteID != "" && b.targetNodeID == n;
          assert b == a || b in assignments[..k];
        }
        assert a in assignments[..k + 1];
      }
    }
    assert assignments[..|assignments|] == assignments;
  }

  method ValidateAddresses(addresses: seq<AddressText>) returns (ok: bool)
    ensures ok <==> AddressesOk(addresses)
  {
    if |addresses| > MAX_ADDRESSES { return false; }
    var seen: set<AddressText> := {};
    assert Sorting.SeenKeys(seen, addresses[..0], AddressItself);
    hide Sorting.SeenKeys;
    hide Sorting.DistinctKeys;
    for k := 0 to |addresses|
      invariant forall a | a in addresses[..k] :: a.canonical
      invariant Sorting.SeenKeys(seen, addresses[..k], AddressItself)
    {
      assert addresses[k] in addresses && addresses[..k + 1] == addresses[..k] + [addresses[k]];
      if !addresses[k].canonical { return false; }
      Sorting.SeenNext(seen, addresses, AddressItself, k);
      if addresses[k] in seen { return false; }
      seen := seen + {addresses[k]};
    }
    assert addresses[..|addresses|] == addresses;
    Sorting.SeenAll(seen, addresses, AddressItself);
    return true;
  }

  method ValidateNetworkInterface(i: NetworkInterface, zones: map<string, NetworkZone>, known: set<(string, string)>,
                                  ghost assignments: seq<RoleAssignment>, t: Topology)
    returns (ok: bool)
    requires Accepted(t) && KnowsNodes(known, assignments)
    ensures ok <==> InterfaceOk(i, zones, assignments, t)
  {
    hide Accepted;
    hide Contains;
    hide NamedOk;
    hide LimitsOk;
    hide LinkageOk;
    hide AddressesOk;
    assert KnownAt(i.nodeID, i.siteID, assignments) <==> (i.siteID, i.nodeID) in known;
    hide KnownAt;
    if !NamedOk(i) || i.siteID !in t.sites { return false; }
    var inSite := ContainsInTopology(t, t.sites[i.siteID].scopeID, i.scopeID);
    if !inSite || i.zoneID !in zones || zones[i.zoneID].siteID != i.siteID { return false; }
    var inZone := ContainsInTopology(t, zones[i.zoneID].scopeID, i.scopeID);
    if !inZone || (i.siteID, i.nodeID) !in known || !LimitsOk(i) { return false; }
    var addressesOk := ValidateAddresses(i.addresses);
    return addressesOk && LinkageOk(i);
  }

  /** `count` counts the interfaces of each node. */
  ghost predicate Counts(count: map<string, nat>, interfaces: seq<NetworkInterface>)
  {
    && (forall n | n in count :: count[n] == |OnNode(interfaces, n)|)
    && (forall n | n !in count :: OnNode(interfaces, n) == {})
  }

  lemma OnNodeSnoc(front: seq<NetworkInterface>, i: NetworkInterface, n: string)
    ensures OnNode(front + [i], n) == OnNode(front, n) + if i.nodeID == n then {i.id} else {}
  {
    var both := OnNode(front, n) + if i.nodeID == n then {i.id} else {};
    forall id | id in OnNode(front + [i], n) ensures id in both {
      var j :| j in front + [i] && j.nodeID == n && j.id == id;
      assert j == i || j in front;
    }
    forall id | id in both ensures id in OnNode(front + [i], n) {
      if id in OnNode(front, n) {
        var j :| j in front && j.nodeID == n && j.id == id;
        assert j in front + [i];
      } else {
        assert i in front + [i];
      }
    }
  }

  lemma CountNext(count: map<string, nat>, front: seq<NetworkInterface>, i: NetworkInterface)
    requires Counts(count, front) && forall j | j in front :: j.id != i.id
    ensures Counts(count[i.nodeID := (if i.nodeID in count then count[i.nodeID] else 0) + 1], front + [i])
  {
    assert i.id !in OnNode(front, i.nodeID);
    hide OnNode;
    var next := count[i.nodeID := (if i.nodeID in count then count[i.nodeID] else 0) + 1];
    if i.nodeID !in count { assert OnNode(front, i.nodeID) == {}; }
    forall n | n in next ensures next[n] == |OnNode(front + [i], n)| {
      OnNodeSnoc(front, i, n);
    }
    forall n | n !in next ensures OnNode(front + [i], n) == {} {
      OnNodeSnoc(front, i, n);
    }
  }

  lemma CountsCapped(count: map<string, nat>, interfaces: seq<NetworkInterface>)
    requires Counts(count, interfaces) && forall n | n in count :: count[n] <= MAX_INTERFACES_PER_NODE
    ensures forall n: string :: |OnNode(interfaces, n)| <= MAX_INTERFACES_PER_NODE
  {
    forall n: string ensures |OnNode(interfaces, n)| <= MAX_INTERFACES_PER_NODE {
      if n !in count { assert OnNode(interfaces, n) == {}; }
    }
  }

  lemma CountExceeded(count: map<string, nat>, all: seq<NetworkInterface>, k: nat, n: string)
    requires k <= |all| && Counts(count, all[..k]) && n in count && count[n] > MAX_INTERFACES_PER_NODE
    ensures |OnNode(all, n)| > MAX_INTERFACES_PER_NODE
  {
    Seqs.SubsetCount(OnNode(all[..k], n), OnNode(all, n));
  }

  /** The per-interface conditions and the three that span interfaces. */
  ghost predicate InterfacesOk(interfaces: seq<NetworkInterface>, zones: map<string, NetworkZone>,
                               assignments: seq<RoleAssignment>, t: Topology)
  {
    && (forall i | i in interfaces :: InterfaceOk(i, zones, assignments, t))
    && Sorting.DistinctKeys(interfaces, InterfaceID)
    && Sorting.DistinctKeys(interfaces, NameOnNode)
    && (forall n: string :: |OnNode(interfaces, n)| <= MAX_INTERFACES_PER_NODE)
  }

  method IndexInterfaces(interfaces: seq<NetworkInterface>, zones: map<string, NetworkZone>,
                         assignments: seq<RoleAssignment>, t: Topology)
    returns (ok: bool, byID: map<string, NetworkInterface>)
    requires Accepted(t)
    ensures ok <==> InterfacesOk(interfaces, zones, assignments, t)
    ensures ok ==> IndexOf(byID, interfaces, InterfaceID)
  {
    hide *;
    ok, byID := false, map[];
    var known := NodesAtSites(assignments);
    var names: set<(string, string)> := {};
    var count: map<string, nat> := map[];
    assert interfaces[..0] == [];
    NothingIndexed(zones, assignments, t);
    for k := 0 to |interfaces|
      invariant !ok && Indexing(byID, names, count, interfaces[..k], zones, assignments, t)
    {
      var i := interfaces[k];
      var interfaceOk := ValidateNetworkInterface(i, zones, known, assignments, t);
      var counted := (if i.nodeID in count then count[i.nodeID] else 0) + 1;
      IndexingNext(byID, names, count, interfaces, k, zones, assignments, t);
      NamesOf(i);
      if !interfaceOk || i.id in byID || NameOnNode(i) in names || counted > MAX_INTERFACES_PER_NODE { return; }
      count := count[i.nodeID := counted];
      names := names + {NameOnNode(i)};
      byID := byID[i.id := i];
    }
    assert interfaces[..|interfaces|] == interfaces;
    IndexingDone(byID, names, count, interfaces, zones, assignments, t);
    ok := true;
  }

  /** What the loop over the interfaces has established for a prefix. */
  ghost predicate Indexing(byID: map<string, NetworkInterface>, names: set<(string, string)>, count: map<string, nat>,
                           s: seq<NetworkInterface>, zones: map<string, NetworkZone>, assignments: seq<RoleAssignment>,
                           t: Topology)
  {
    && (forall i | i in s :: InterfaceOk(i, zones, assignments, t))
    && Sorting.DistinctKeys(s, InterfaceID) && IndexOf(byID, s, InterfaceID) && Sorting.SeenKeys(names, s, NameOnNode)
    && Counts(count, s) && forall n | n in count :: count[n] <= MAX_INTERFACES_PER_NODE
  }

  lemma NothingIndexed(zones: map<string, NetworkZone>, assignments: seq<RoleAssignment>, t: Topology)
    ensures Indexing(map[], {}, map[], [], zones, assignments, t)
  {
    CountsNothing();
  }

  lemma NamesOf(i: NetworkInterface)
    ensures InterfaceID(i) == i.id
  {
  }

  lemma IndexingNext(byID: map<string, NetworkInterface>, names: set<(string, string)>, count: map<string, nat>,
                     s: seq<NetworkInterface>, k: nat, zones: map<string, NetworkZone>, assignments: seq<RoleAssignment>,
                     t: Topology)
    requires k < |s| && Indexing(byID, names, count, s[..k], zones, assignments, t)
    ensures var i := s[k];
            var counted := (if i.nodeID in count then count[i.nodeID] else 0) + 1;
            if InterfaceOk(i, zones, assignments, t) && i.id !in byID && NameOnNode(i) !in names &&
               counted <= MAX_INTERFACES_PER_NODE then
              Indexing(byID[i.id := i], names + {NameOnNode(i)}, count[i.nodeID := counted], s[..k + 1], zones, assignments, t)
            else !InterfacesOk(s, zones, assignments, t)
  {
    hide InterfaceOk;
    hide Counts;
    hide OnNode;
    hide NameOnNode;
    hide Sorting.SeenKeys;
    var i := s[k];
    assert i in s && s[..k + 1] == s[..k] + [i];
    var counted := (if i.nodeID in count then count[i.nodeID] else 0) + 1;
    Sorting.SeenNext(names, s, NameOnNode, k);
    if i.id in byID {
      Sorting.RepeatSpoils(s, InterfaceID, k, byID[i.id]);
    } else {
      IndexGrows(byID, s[..k], InterfaceID, i);
      Sorting.DistinctSnoc(s[..k], InterfaceID, i);
      CountNext(count, s[..k], i);
      hide Sorting.DistinctKeys;
      hide IndexOf;
      if counted > MAX_INTERFACES_PER_NODE { CountExceeded(count[i.nodeID := counted], s, k + 1, i.nodeID); }
    }
  }

  lemma IndexingDone(byID: map<string, NetworkInterface>, names: set<(string, string)>, count: map<string, nat>,
                     s: seq<NetworkInterface>, zones: map<string, NetworkZone>, assignments: seq<RoleAssignment>, t: Topology)
    requires Indexing(byID, names, count, s, zones, assignments, t)
    ensures InterfacesOk(s, zones, assignments, t) && IndexOf(byID, s, InterfaceID)
  {
    hide InterfaceOk;
    hide OnNode;
    Sorting.SeenAll(names, s, NameOnNode);
    CountsCapped(count, s);
    hide Counts;
    hide Sorting.SeenKeys;
  }

  lemma CountsNothing()
    ensures Counts(map[], [])
  {
  }

  /** VLANs met so far, by binding. */
  ghost predicate BindsVLANs(bindings: map<(string, string, Option<nat>), NetworkInterface>, s: seq<NetworkInterface>)
  {
    && (forall i | i in s && i.kind.VLAN? :: VLANBinding(i) in bindings && bindings[VLANBinding(i)] == i)
    && (forall b | b in bindings :: bindings[b] in s && bindings[b].kind.VLAN? && VLANBinding(bindings[b]) == b)
  }

  method CheckParents(interfaces: seq<NetworkInterface>, byID: map<string, NetworkInterface>) returns (ok: bool)
    requires IndexOf(byID, interfaces, InterfaceID) && Sorting.DistinctKeys(interfaces, InterfaceID)
    requires forall i | i in interfaces :: LinkageOk(i)
    ensures ok <==> (forall i | i in interfaces :: ParentOk(i, byID)) && VLANsApart(interfaces)
  {
    var bindings: map<(string, string, Option<nat>), NetworkInterface> := map[];
    assert BindsVLANs(bindings, interfaces[..0]);
    hide BindsVLANs;
    hide VLANsApart;
    for k := 0 to |interfaces|
      invariant forall i | i in interfaces[..k] :: ParentOk(i, byID)
      invariant BindsVLANs(bindings, interfaces[..k])
    {
      var i := interfaces[k];
      assert i in interfaces && interfaces[..k + 1] == interfaces[..k] + [i];
      if i.parentID != "" {
        if i.parentID !in byID || byID[i.parentID].id == i.id { return false; }
        var parent := byID[i.parentID];
        if parent.nodeID != i.nodeID || parent.siteID != i.siteID || parent.scopeID != i.scopeID { return false; }
        if i.kind.VLAN? {
          if VLANBinding(i) in bindings {
            VLANRepeated(bindings, interfaces, k);
            return false;
          }
          BindsNext(bindings, interfaces[..k], i);
          bindings := bindings[VLANBinding(i) := i];
        }
      }
      if !i.kind.VLAN? { BindsSkip(bindings, interfaces[..k], i); }
    }
    assert interfaces[..|interfaces|] == interfaces;
    BindsApart(bindings, interfaces);
    return true;
  }

  lemma BindsNext(bindings: map<(string, string, Option<nat>), NetworkInterface>, front: seq<NetworkInterface>,
                  i: NetworkInterface)
    requires BindsVLANs(bindings, front) && i.kind.VLAN? && VLANBinding(i) !in bindings
    ensures BindsVLANs(bindings[VLANBinding(i) := i], front + [i])
  {
  }

  lemma BindsSkip(bindings: map<(string, string, Option<nat>), NetworkInterface>, front: seq<NetworkInterface>,
                  i: NetworkInterface)
    requires BindsVLANs(bindings, front) && !i.kind.VLAN?
    ensures BindsVLANs(bindings, front + [i])
  {
  }

  lemma BindsApart(bindings: map<(string, string, Option<nat>), NetworkInterface>, s: seq<NetworkInterface>)
    requires BindsVLANs(bindings, s)
    ensures VLANsApart(s)
  {
  }

  lemma VLANRepeated(bindings: map<(string, string, Option<nat>), NetworkInterface>, s: seq<NetworkInterface>, k: nat)
    requires k < |s| && BindsVLANs(bindings, s[..k]) && s[k].kind.VLAN? && VLANBinding(s[k]) in bindings
    requires Sorting.DistinctKeys(s, InterfaceID)
    ensures !VLANsApart(s)
  {
    var other := bindings[VLANBinding(s[k])];
    var j :| 0 <= j < k && s[j] == other;
    assert InterfaceID(s[j]) != InterfaceID(s[k]);
    assert s[j] in s && s[k] in s;
  }

  method CheckChains(byID: map<string, NetworkInterface>) returns (ok: bool)
    requires ParentForest.Closed(InterfaceParents(byID))
    ensures ok <==> ParentForest.Rooted(InterfaceParents(byID))
  {
    var ids := Sorting.RangeKeys(byID.Keys);
    ListsKeys(ids, byID);
    for k := 0 to |ids|
      invariant forall id | id in ids[..k] :: ParentForest.Ends(InterfaceParents(byID), id)
    {
      assert ids[..k + 1] == ids[..k] + [ids[k]] && ids[k] in ids;
      var ends := ParentForest.WalkEnds(InterfaceParents(byID), ids[k]);
      if !ends { return false; }
    }
    assert ids[..|ids|] == ids;
    return true;
  }

  /** Accepts exactly the snapshots whose zones, interfaces and parent links all fit. */
  method ValidateNetworkContracts(zones: seq<NetworkZone>, interfaces: seq<NetworkInterface>,
                                  assignments: seq<RoleAssignment>, t: Topology)
    returns (ok: bool)
    requires Accepted(t)
    ensures ok <==> NetworkOk(zones, interfaces, assignments, t)
  {
    hide Accepted;
    hide NetworkZoneOk;
    hide InterfacesOk;
    hide NetworkFits;
    var zonesOk, zonesByID := IndexNetworkZones(zones, t);
    if !zonesOk {
      forall z, i ensures !NetworkFits(z, i, zones, interfaces, assignments, t) {
        FitsZones(z, i, zones, interfaces, assignments, t);
      }
      return false;
    }
    var interfacesOk, byID := IndexInterfaces(interfaces, zonesByID, assignments, t);
    if !interfacesOk {
      forall z, i ensures !NetworkFits(z, i, zones, interfaces, assignments, t) {
        FitsInterfaces(z, i, zonesByID, zones, interfaces, assignments, t);
      }
      return false;
    }
    InterfacesLinked(interfaces, zonesByID, assignments, t);
    var parentsOk := CheckParents(interfaces, byID);
    if !parentsOk {
      forall z, i ensures !NetworkFits(z, i, zones, interfaces, assignments, t) {
        FitsParents(z, i, byID, zones, interfaces, assignments, t);
      }
      return false;
    }
    ParentsClosed(interfaces, byID);
    var chainsOk := CheckChains(byID);
    if !chainsOk {
      forall z, i ensures !NetworkFits(z, i, zones, interfaces, assignments, t) {
        FitsParents(z, i, byID, zones, interfaces, assignments, t);
      }
      return false;
    }
    FitsAssembled(zonesByID, byID, zones, interfaces, assignments, t);
    return true;
  }

  lemma FitsAssembled(zonesByID: map<string, NetworkZone>, byID: map<string, NetworkInterface>, zones: seq<NetworkZone>,
                      interfaces: seq<NetworkInterface>, assignments: seq<RoleAssignment>, t: Topology)
    requires (forall z | z in zones :: NetworkZoneOk(z, t)) && Sorting.DistinctKeys(zones, NetworkZoneID)
    requires IndexOf(zonesByID, zones, NetworkZoneID) && InterfacesOk(interfaces, zonesByID, assignments, t)
    requires IndexOf(byID, interfaces, InterfaceID)
    requires (forall i | i in interfaces :: ParentOk(i, byID)) && VLANsApart(interfaces)
    requires ParentForest.Rooted(InterfaceParents(byID))
    ensures NetworkFits(zonesByID, byID, zones, interfaces, assignments, t)
  {
  }

  lemma FitsZones(z: map<string, NetworkZone>, i: map<string, NetworkInterface>, zones: seq<NetworkZone>,
                  interfaces: seq<NetworkInterface>, assignments: seq<RoleAssignment>, t: Topology)
    ensures NetworkFits(z, i, zones, interfaces, assignments, t) ==>
              (forall y | y in zones :: NetworkZoneOk(y, t)) && Sorting.DistinctKeys(zones, NetworkZoneID)
  {
    hide NetworkZoneOk;
    hide InterfaceOk;
  }

  lemma FitsInterfaces(z: map<string, NetworkZone>, i: map<string, NetworkInterface>, index: map<string, NetworkZone>,
                       zones: seq<NetworkZone>, interfaces: seq<NetworkInterface>, assignments: seq<RoleAssignment>,
                       t: Topology)
    requires IndexOf(index, zones, NetworkZoneID)
    ensures NetworkFits(z, i, zones, interfaces, assignments, t) ==> InterfacesOk(interfaces, index, assignments, t)
  {
    hide NetworkZoneOk;
    hide InterfaceOk;
    if NetworkFits(z, i, zones, interfaces, assignments, t) { IndexUnique(index, z, zones, zones, NetworkZoneID); }
  }

  lemma FitsParents(z: map<string, NetworkZone>, i: map<string, NetworkInterface>, byID: map<string, NetworkInterface>,
                    zones: seq<NetworkZone>, interfaces: seq<NetworkInterface>, assignments: seq<RoleAssignment>,
                    t: Topology)
    requires IndexOf(byID, interfaces, InterfaceID)
    ensures NetworkFits(z, i, zones, interfaces, assignments, t) ==>
              && (forall j | j in interfaces :: ParentOk(j, byID)) && VLANsApart(interfaces)
              && ParentForest.Rooted(InterfaceParents(byID))
  {
    hide NetworkZoneOk;
    hide InterfaceOk;
    if NetworkFits(z, i, zones, interfaces, assignments, t) { IndexUnique(byID, i, interfaces, interfaces, InterfaceID); }
  }

  lemma InterfacesLinked(interfaces: seq<NetworkInterface>, zones: map<string, NetworkZone>,
                         assignments: seq<RoleAssignment>, t: Topology)
    requires InterfacesOk(interfaces, zones, assignments, t)
    ensures forall i | i in interfaces :: LinkageOk(i) && i.id != ""
    ensures Sorting.DistinctKeys(interfaces, InterfaceID)
  {
    hide PlacedOk;
    hide KnownAt;
  }

  lemma ParentsClosed(interfaces: seq<NetworkInterface>, byID: map<string, NetworkInterface>)
    requires IndexOf(byID, interfaces, InterfaceID) && forall i | i in interfaces :: ParentOk(i, byID) && i.id != ""
    ensures ParentForest.Closed(InterfaceParents(byID))
  {
    forall id | id in byID ensures id != "" && (byID[id].parentID == "" || byID[id].parentID in byID) {
      assert byID[id] in interfaces;
    }
  }
}
