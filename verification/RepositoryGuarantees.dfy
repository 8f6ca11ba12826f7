/** What the validated snapshot means for every reachable repository state, said
    of the stored objects themselves (internal/corecontracts/objects.go,
    roles.go and network.go). */
module RepositoryGuarantees {
  import opened Network
  import opened Objects
  import opened Repository
  import opened RepositoryHistory
  import opened RepositoryRuns
  import opened Roles
  import opened Topology
  import ParentForest
  import Options
  import Seqs
  import Sorting

  function Start(initial: seq<StoredObject>): Store { Store(Filled(initial), map[]) }

  /** Every list of typed parts names exactly what `pick` finds in the map. */
  lemma PartsOfMap<T(!new)>(objects: map<string, StoredObject>, listing: seq<StoredObject>, pick: StoredObject -> Options.Option<T>)
    requires IndexOf(objects, listing, ObjectID)
    ensures forall id | id in objects && pick(objects[id]).Some? :: pick(objects[id]).value in Seqs.Collect(pick, listing)
    ensures forall y | y in Seqs.Collect(pick, listing) :: exists id | id in objects :: pick(objects[id]) == Options.Some(y)
  {
    Seqs.Collected(pick, listing);
    forall y | y in Seqs.Collect(pick, listing) ensures exists id | id in objects :: pick(objects[id]) == Options.Some(y) {
      var o :| o in listing && pick(o) == Options.Some(y);
      assert objects[ObjectID(o)] == o;
    }
  }

  // ----- the global root -----

  predicate IsGlobalScope(o: StoredObject)
  {
    o.objectType.ScopeObject? && Decodes(o) && o.document.content.scope.kind.GlobalScope?
  }

  /** The one object that is the global scope. */
  ghost predicate RootIs(objects: map<string, StoredObject>, root: string)
  {
    root in objects && forall id | id in objects :: IsGlobalScope(objects[id]) <==> id == root
  }

  lemma ScopeNamesObject(o: StoredObject, t: Topology)
    requires TypedOk(o, t) && o.objectType.ScopeObject?
    ensures Decodes(o) && o.document.content.scope.id == ObjectID(o)
  {
    hide OwnedBy;
  }

  lemma TopologyRoot(t: Topology, scopes: seq<Scope>, sites: seq<Site>, zones: seq<ManagementZone>)
    requires WellFormed(t, scopes, sites, zones)
    ensures t.rootID in t.scopes && t.scopes[t.rootID] in scopes && t.scopes[t.rootID].id == t.rootID
    ensures t.scopes[t.rootID].kind.GlobalScope?
    ensures forall s | s in scopes && s.kind.GlobalScope? :: s.id == t.rootID
  {
    hide ScopeOk;
    hide SiteOk;
    hide ZoneOk;
    hide ParentForest.Rooted;
    forall s | s in scopes && s.kind.GlobalScope? ensures s.id == t.rootID {
      assert IsRoot(t.scopes, s.id);
    }
  }

  lemma FittingRoot(objects: map<string, StoredObject>, listing: seq<StoredObject>, t: Topology)
    requires IndexOf(objects, listing, ObjectID) && SnapshotFits(t, listing)
    ensures RootIs(objects, t.rootID)
  {
    hide WellFormed;
    hide EnvelopeOk;
    hide TypedOk;
    hide AssignmentsOk;
    hide NetworkOk;
    hide Sorting.DistinctKeys;
    hide RootIs;
    TopologyRoot(t, Scopes(listing), Sites(listing), ManagementZones(listing));
    PartsOfMap(objects, listing, PickScope);
    forall id | id in objects && objects[id].objectType.ScopeObject?
      ensures Decodes(objects[id]) && objects[id].document.content.scope.id == id
    {
      ScopeNamesObject(objects[id], t);
    }
    RootFromScopes(objects, Scopes(listing), t.scopes[t.rootID]);
  }

  lemma RootFromScopes(objects: map<string, StoredObject>, scopes: seq<Scope>, top: Scope)
    requires forall id | id in objects && PickScope(objects[id]).Some? :: PickScope(objects[id]).value in scopes
    requires forall y | y in scopes :: exists id | id in objects :: PickScope(objects[id]) == Options.Some(y)
    requires forall id | id in objects && objects[id].objectType.ScopeObject? ::
               Decodes(objects[id]) && objects[id].document.content.scope.id == id
    requires top in scopes && top.kind.GlobalScope? && forall s | s in scopes && s.kind.GlobalScope? :: s.id == top.id
    ensures RootIs(objects, top.id)
  {
    var id :| id in objects && PickScope(objects[id]) == Options.Some(top);
    assert id == top.id;
    forall other | other in objects && IsGlobalScope(objects[other]) ensures other == top.id {
      assert PickScope(objects[other]).value in scopes;
    }
  }

  /** The global root is the same object for ever. */
  lemma RootStays(s: Store, calls: seq<Call>, root: string)
    requires Consistent(s) && RootIs(s.objects, root)
    ensures RootIs(Run(s, calls).objects, root)
  {
    ObjectLives(s, calls, root);
    RunConsistent(s, calls);
    var now := Run(s, calls).objects;
    assert IsGlobalScope(now[root]);
    hide Run;
    hide Evolves;
    hide SnapshotFits;
    var t :| SnapshotFits(t, Ordered(now));
    OrderedIndexes(now);
    FittingRoot(now, Ordered(now), t);
  }

  // ----- control planes -----

  /** The assignment an object holds, if it makes a node part of a control plane. */
  function ControllerOf(o: StoredObject): Options.Option<RoleAssignment>
  {
    var a := PickAssignment(o);
    if a.Some? && a.value.role.Controls() then a else Options.None
  }

  /** Two controller assignments share a scope exactly when they share a service identity. */
  ghost predicate ControllersPairOff(objects: map<string, StoredObject>)
  {
    forall a, b | a in objects && b in objects && ControllerOf(objects[a]).Some? && ControllerOf(objects[b]).Some? ::
      ControllerOf(objects[a]).value.metadata.scopeID == ControllerOf(objects[b]).value.metadata.scopeID <==>
      ControllerOf(objects[a]).value.serviceIdentityID == ControllerOf(objects[b]).value.serviceIdentityID
  }

  lemma FittingControllers(objects: map<string, StoredObject>, listing: seq<StoredObject>, t: Topology)
    requires IndexOf(objects, listing, ObjectID) && SnapshotFits(t, listing)
    ensures ControllersPairOff(objects)
  {
    hide WellFormed;
    hide EnvelopeOk;
    hide TypedOk;
    hide AssignmentOk;
    hide NetworkOk;
    hide Sorting.DistinctKeys;
    PartsOfMap(objects, listing, PickAssignment);
    hide IndexOf;
    hide PickAssignment;
  }

  // ----- interface chains -----

  /** The parent links of the stored interfaces. */
  function Links(objects: map<string, StoredObject>): ParentForest.Parents
  {
    map id | id in objects && PickInterface(objects[id]).Some? :: PickInterface(objects[id]).value.parentID
  }

  predicate SamePlace(a: NetworkInterface, b: NetworkInterface)
  {
    a.nodeID == b.nodeID && a.siteID == b.siteID && a.scopeID == b.scopeID
  }

  lemma InterfaceNamesObject(o: StoredObject, t: Topology)
    requires TypedOk(o, t) && PickInterface(o).Some?
    ensures PickInterface(o).value.id == ObjectID(o)
  {
    hide OwnedBy;
  }

  lemma LinksAgree(objects: map<string, StoredObject>, interfaces: seq<NetworkInterface>, byID: map<string, NetworkInterface>)
    requires forall id | id in objects && PickInterface(objects[id]).Some? ::
               PickInterface(objects[id]).value in interfaces && PickInterface(objects[id]).value.id == id
    requires forall y | y in interfaces :: exists id | id in objects :: PickInterface(objects[id]) == Options.Some(y)
    requires IndexOf(byID, interfaces, InterfaceID)
    ensures Links(objects) == InterfaceParents(byID)
    ensures forall id | id in byID :: id in objects && PickInterface(objects[id]) == Options.Some(byID[id])
  {
    forall id | id in byID ensures id in objects && PickInterface(objects[id]) == Options.Some(byID[id]) {
      var k :| k in objects && PickInterface(objects[k]) == Options.Some(byID[id]);
    }
    hide PickInterface;
  }

  /** Every interface's parent chain is finite and stays on one node, site and scope. */
  ghost predicate ChainsHome(objects: map<string, StoredObject>)
  {
    forall id | id in objects && PickInterface(objects[id]).Some? ::
      && ParentForest.Ends(Links(objects), id)
      && forall up | ParentForest.Above(Links(objects), up, id) ::
           && up in objects && PickInterface(objects[up]).Some?
           && SamePlace(PickInterface(objects[up]).value, PickInterface(objects[id]).value)
  }

  lemma FittingInterfaces(objects: map<string, StoredObject>, listing: seq<StoredObject>, t: Topology)
    requires IndexOf(objects, listing, ObjectID) && SnapshotFits(t, listing)
    ensures forall id | id in objects && PickInterface(objects[id]).Some? :: PickInterface(objects[id]).value.id == id
    ensures NetworkOk(NetworkZones(listing), Interfaces(listing), Assignments(listing), t)
  {
    hide WellFormed;
    hide EnvelopeOk;
    hide TypedOk;
    hide AssignmentsOk;
    hide NetworkOk;
    hide PickInterface;
    forall id | id in objects && PickInterface(objects[id]).Some? ensures PickInterface(objects[id]).value.id == id {
      InterfaceNamesObject(objects[id], t);
    }
  }

  lemma FittingChains(objects: map<string, StoredObject>, listing: seq<StoredObject>, t: Topology)
    requires IndexOf(objects, listing, ObjectID) && SnapshotFits(t, listing)
    ensures ChainsHome(objects)
  {
    var zones, interfaces, assignments := NetworkZones(listing), Interfaces(listing), Assignments(listing);
    PartsOfMap(objects, listing, PickInterface);
    FittingInterfaces(objects, listing, t);
    hide SnapshotFits;
    hide IndexOf;
    hide NetworkFits;
    var zonesByID, byID :| NetworkFits(zonesByID, byID, zones, interfaces, assignments, t);
    FittingIndex(zonesByID, byID, zones, interfaces, assignments, t);
    LinksAgree(objects, interfaces, byID);
    hide PickInterface;
    hide Links;
    forall id | id in objects && PickInterface(objects[id]).Some?
      ensures ParentForest.Ends(Links(objects), id)
      ensures forall up | ParentForest.Above(Links(objects), up, id) ::
                && up in objects && PickInterface(objects[up]).Some?
                && SamePlace(PickInterface(objects[up]).value, PickInterface(objects[id]).value)
    {
      ChainStaysHome(zonesByID, byID, zones, interfaces, assignments, t, PickInterface(objects[id]).value);
    }
  }

  lemma FittingIndex(zonesByID: map<string, NetworkZone>, byID: map<string, NetworkInterface>, zones: seq<NetworkZone>,
                     interfaces: seq<NetworkInterface>, assignments: seq<RoleAssignment>, t: Topology)
    requires NetworkFits(zonesByID, byID, zones, interfaces, assignments, t)
    ensures IndexOf(byID, interfaces, InterfaceID)
  {
  }

  // ----- all of it, at every reachable state -----

  /** From an accepted snapshot, whatever calls follow: the whole state stays
      valid, the global root never changes, controllers pair off with scopes, and
      interface chains stay home. */
  lemma ReachableGuarantees(initial: seq<StoredObject>, calls: seq<Call>)
    requires SnapshotOk(initial)
    ensures var now := Run(Start(initial), calls);
            && Consistent(now) && ControllersPairOff(now.objects) && ChainsHome(now.objects)
            && exists root :: RootIs(Start(initial).objects, root) && RootIs(now.objects, root)
  {
    var start := Start(initial);
    hide SnapshotOk;
    StartConsistent(initial);
    RunConsistent(start, calls);
    var root := ConsistentRoot(start);
    RootStays(start, calls, root);
    ConsistentMeans(Run(start, calls));
  }

  lemma ConsistentMeans(s: Store)
    requires Consistent(s)
    ensures ControllersPairOff(s.objects) && ChainsHome(s.objects)
  {
    hide SnapshotFits;
    hide Ordered;
    OrderedIndexes(s.objects);
    var t :| SnapshotFits(t, Ordered(s.objects));
    FittingControllers(s.objects, Ordered(s.objects), t);
    FittingChains(s.objects, Ordered(s.objects), t);
  }

  lemma ConsistentRoot(s: Store) returns (root: string)
    requires Consistent(s)
    ensures RootIs(s.objects, root)
  {
    hide SnapshotFits;
    hide Ordered;
    OrderedIndexes(s.objects);
    var t :| SnapshotFits(t, Ordered(s.objects));
    FittingRoot(s.objects, Ordered(s.objects), t);
    root := t.rootID;
  }

  // ----- what a listing shows -----

  /** The object is stored, and of the type, scope and owner the filter names, if any. */
  predicate Wanted(objects: map<string, StoredObject>, f: ObjectFilter, o: StoredObject)
  {
    && ObjectID(o) in objects && objects[ObjectID(o)] == o
    && (f.objectType == Options.Some(o.objectType) || f.objectType.None?)
    && f.scopeID in {"", o.metadata.scopeID} && f.ownerScope in {"", o.metadata.ownerScope}
  }

  lemma ListedIsWanted(objects: map<string, StoredObject>, listing: seq<StoredObject>, f: ObjectFilter, o: StoredObject)
    requires IndexOf(objects, listing, ObjectID) && o in Admitted(f, listing)
    ensures Wanted(objects, f, o)
  {
    Seqs.Collected(PickAdmitted(f), listing);
    hide Seqs.Collect;
    var x :| x in listing && PickAdmitted(f)(x) == Options.Some(o);
    hide IndexOf;
    IndexedUnder(objects, listing, o);
  }

  lemma IndexedUnder(objects: map<string, StoredObject>, listing: seq<StoredObject>, o: StoredObject)
    requires IndexOf(objects, listing, ObjectID)
    ensures o in listing <==> ObjectID(o) in objects && objects[ObjectID(o)] == o
  {
  }

  lemma WantedIsListed(objects: map<string, StoredObject>, listing: seq<StoredObject>, f: ObjectFilter, o: StoredObject)
    requires IndexOf(objects, listing, ObjectID) && Wanted(objects, f, o)
    ensures o in Admitted(f, listing)
  {
    Seqs.Collected(PickAdmitted(f), listing);
    hide Seqs.Collect;
    hide IndexOf;
    IndexedUnder(objects, listing, o);
    assert PickAdmitted(f)(o) == Options.Some(o);
  }

  lemma ListedOnce(listing: seq<StoredObject>, f: ObjectFilter, o: StoredObject)
    requires Sorting.DistinctKeys(listing, ObjectID)
    ensures multiset(Admitted(f, listing))[o] <= 1
  {
    Seqs.CollectDistinct(PickAdmitted(f), listing, ObjectID, ObjectID);
    hide Seqs.Collect;
    if o in Admitted(f, listing) { Sorting.DistinctOnce(Admitted(f, listing), ObjectID, o); }
  }

  /** A filter lists exactly the stored objects it wants, and each once. */
  lemma ListingMeans(objects: map<string, StoredObject>, f: ObjectFilter, o: StoredObject)
    requires Keyed(objects)
    ensures o in Admitted(f, Ordered(objects)) <==> Wanted(objects, f, o)
    ensures multiset(Admitted(f, Ordered(objects)))[o] <= 1
  {
    hide *;
    OrderedIndexes(objects);
    ListedOnce(Ordered(objects), f, o);
    if o in Admitted(f, Ordered(objects)) { ListedIsWanted(objects, Ordered(objects), f, o); }
    if Wanted(objects, f, o) { WantedIsListed(objects, Ordered(objects), f, o); }
  }
}
