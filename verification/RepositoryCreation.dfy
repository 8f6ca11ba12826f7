/** Exactly which calls write, down to the stored objects; when a statement of
    intent or an observation can be added; and the object every repository can begin
    with (internal/corecontracts/objects.go, state.go and memory_repository.go). */
module RepositoryCreation {
  import opened Metadata
  import opened Mutations
  import opened Network
  import opened Objects
  import opened Repository
  import opened RepositoryAcceptance
  import opened RepositoryObjects
  import opened RepositoryRuns
  import opened RepositorySnapshot
  import opened RepositoryWrites
  import opened Roles
  import opened Topology
  import ParentForest
  import Seqs
  import Sorting
  import Text

  // ----- which calls write -----

  /** The one version a call can store follows what it replaces and leaves a
      repository that stands. */
  ghost predicate Fits(s: Store, c: Call, o: StoredObject)
  {
    && Stored(s, c, o) && (c.request.objectID in s.objects ==> MayFollow(s.objects[c.request.objectID], o))
    && StoreStands(s.objects[c.request.objectID := o])
  }

  lemma FitsIsStands(s: Store, c: Call, o: StoredObject)
    requires Consistent(s)
    ensures Fits(s, c, o) <==> Stands(s, c, o)
  {
    hide *;
    ConsistentIs(s);
    if Stored(s, c, o) {
      StoredUnder(s, c, o);
      KeyedAfter(s.objects, c.request.objectID, o);
      SnapshotIff(s.objects[c.request.objectID := o]);
    }
    FitsAndStands(s, c, o);
  }

  lemma KeyedAfter(objects: map<string, StoredObject>, id: string, o: StoredObject)
    requires Keyed(objects) && ObjectID(o) == id
    ensures Keyed(objects[id := o])
  {
  }

  lemma FitsAndStands(s: Store, c: Call, o: StoredObject)
    requires Stored(s, c, o) ==>
               (SnapshotOk(Ordered(s.objects[c.request.objectID := o])) <==> StoreStands(s.objects[c.request.objectID := o]))
    ensures Fits(s, c, o) <==> Stands(s, c, o)
  {
    hide SnapshotOk;
    hide Ordered;
    hide StoreStands;
    hide MayFollow;
    hide Stored;
  }

  /** A call writes exactly when it is timely and some version it can store fits. */
  lemma WritesExactly(s: Store, c: Call)
    requires Consistent(s)
    ensures Writes(s, c) <==> Timely(s, c) && exists o :: Fits(s, c, o)
  {
    hide *;
    WritesIff(s, c);
    if o :| Stands(s, c, o) { FitsIsStands(s, c, o); }
    if o :| Fits(s, c, o) { FitsIsStands(s, c, o); }
  }

  // ----- adding intent and observations -----

  /** Objects that no other object depends on. */
  predicate IsState(t: ObjectType) { t.DesiredObject? || t.ActualObject? }

  lemma StateIsNoPart(o: StoredObject)
    requires IsState(o.objectType)
    ensures PickScope(o).None? && PickSite(o).None? && PickManagementZone(o).None?
    ensures PickNetworkZone(o).None? && PickInterface(o).None? && PickAssignment(o).None?
  {
  }

  lemma {:induction false} OthersAll(snapshot: seq<StoredObject>, id: string)
    requires forall o | o in snapshot :: ObjectID(o) != id
    ensures Others(snapshot, id) == snapshot
  {
    if snapshot != [] {
      var n := |snapshot| - 1;
      assert snapshot[..n + 1] == snapshot && snapshot[n] in snapshot;
      OthersAll(snapshot[..n], id);
      OthersNext(snapshot, id, n);
      assert snapshot == snapshot[..n] + [snapshot[n]];
    }
  }

  lemma PartsKept(listing: seq<StoredObject>, o: StoredObject)
    requires IsState(o.objectType) && forall x | x in listing :: ObjectID(x) != ObjectID(o)
    ensures Scopes(Candidate(listing, o)) == Scopes(listing) && Sites(Candidate(listing, o)) == Sites(listing)
    ensures ManagementZones(Candidate(listing, o)) == ManagementZones(listing)
    ensures NetworkZones(Candidate(listing, o)) == NetworkZones(listing) && Interfaces(Candidate(listing, o)) == Interfaces(listing)
    ensures Assignments(Candidate(listing, o)) == Assignments(listing)
  {
    hide Candidate;
    StateIsNoPart(o);
    hide PickScope;
    hide PickSite;
    hide PickManagementZone;
    hide PickNetworkZone;
    hide PickInterface;
    hide PickAssignment;
    CandidateKeepsParts(PickScope, listing, o);
    CandidateKeepsParts(PickSite, listing, o);
    CandidateKeepsParts(PickManagementZone, listing, o);
    CandidateKeepsParts(PickNetworkZone, listing, o);
    CandidateKeepsParts(PickInterface, listing, o);
    CandidateKeepsParts(PickAssignment, listing, o);
  }

  lemma CandidateIsMore(listing: seq<StoredObject>, o: StoredObject)
    requires forall x | x in listing :: ObjectID(x) != ObjectID(o)
    ensures Candidate(listing, o) == listing + [o]
  {
    OthersAll(listing, ObjectID(o));
  }

  /** A further statement or observation fits exactly if it does by itself. */
  lemma StateFitsIff(t: Topology, listing: seq<StoredObject>, o: StoredObject)
    requires SnapshotFits(t, listing) && IsState(o.objectType) && forall x | x in listing :: ObjectID(x) != ObjectID(o)
    ensures SnapshotFits(t, Candidate(listing, o)) <==> EnvelopeOk(o) && TypedOk(o, t)
  {
    hide EnvelopeOk;
    hide TypedOk;
    hide WellFormed;
    hide AssignmentsOk;
    hide NetworkOk;
    hide Scopes;
    hide Sites;
    hide ManagementZones;
    hide NetworkZones;
    hide Interfaces;
    hide Assignments;
    PartsKept(listing, o);
    CandidateIsMore(listing, o);
    hide Candidate;
    assert o in listing + [o] && forall x | x in listing :: x in listing + [o];
    if EnvelopeOk(o) && TypedOk(o, t) { Sorting.DistinctSnoc(listing, ObjectID, o); }
  }

  lemma StateSettlesIff(s: Store, o: StoredObject)
    requires Consistent(s) && IsState(o.objectType) && ObjectID(o) !in s.objects
    ensures SnapshotOk(Candidate(Ordered(s.objects), o)) <==> EnvelopeOk(o) && Placed(s.objects, o)
  {
    hide SnapshotFits;
    hide Ordered;
    hide Placed;
    hide EnvelopeOk;
    hide TypedOk;
    hide Candidate;
    OrderedIndexes(s.objects);
    var listing := Ordered(s.objects);
    var t :| SnapshotFits(t, listing);
    FittingAgrees(s.objects, listing, t);
    hide Agrees;
    TypedIff(s.objects, t, o);
    forall x | x in listing ensures ObjectID(x) != ObjectID(o) { IndexNames(s.objects, listing, x); }
    hide IndexOf;
    StateFitsIff(t, listing, o);
    if SnapshotOk(Candidate(listing, o)) {
      var t' :| SnapshotFits(t', Candidate(listing, o));
      SameTopology(t, t', listing, o);
    }
  }

  lemma IndexNames(objects: ObjectMap, listing: seq<StoredObject>, x: StoredObject)
    requires IndexOf(objects, listing, ObjectID) && x in listing
    ensures ObjectID(x) in objects
  {
  }

  lemma SameTopology(t: Topology, t': Topology, listing: seq<StoredObject>, o: StoredObject)
    requires SnapshotFits(t, listing) && SnapshotFits(t', Candidate(listing, o)) && IsState(o.objectType)
    requires forall x | x in listing :: ObjectID(x) != ObjectID(o)
    ensures t == t'
  {
    hide *;
    FitsWell(t, listing);
    FitsWell(t', Candidate(listing, o));
    PartsKept(listing, o);
    TopologyUnique(t, t', Scopes(listing), Sites(listing), ManagementZones(listing),
                   Scopes(listing), Sites(listing), ManagementZones(listing));
  }

  /** Intent or an observation is created exactly when the call is timely, the
      identifier is free, no guard is given, and the new object is well formed and
      placed among the stored ones. */
  lemma StateCreatedIff(s: Store, c: Call, o: StoredObject)
    requires Consistent(s) && IsState(c.request.objectType) && c.request.operation.Create?
    requires Carries(o, c) && IsFirst(o)
    ensures Writes(s, c) <==>
            && Timely(s, c) && c.request.objectID !in s.objects && c.request.precondition.None?
            && EnvelopeOk(o) && Placed(s.objects, o)
  {
    hide *;
    CarriesIs(o, c);
    WritesIff(s, c);
    if Writes(s, c) {
      WrittenStands(s, c);
      var w := Answer(s, c).value;
      CreatedIs(s, c, w, o);
      StandsSettled(s, c, o);
      StateSettlesIff(s, o);
    }
    if Timely(s, c) && c.request.objectID !in s.objects && c.request.precondition.None? && EnvelopeOk(o) && Placed(s.objects, o) {
      StateSettlesIff(s, o);
      SettledStands(s, c, o);
    }
  }

  lemma CarriesIs(o: StoredObject, c: Call)
    requires Carries(o, c)
    ensures ObjectID(o) == c.request.objectID && o.objectType == c.request.objectType
  {
  }

  /** There is one version a create can store. */
  lemma CreatedIs(s: Store, c: Call, w: StoredObject, o: StoredObject)
    requires Stands(s, c, w) && c.request.operation.Create? && Carries(o, c) && IsFirst(o)
    ensures w == o && c.request.objectID !in s.objects && c.request.precondition.None?
  {
    hide MayFollow;
    hide SnapshotOk;
    hide Ordered;
    hide Follows;
    hide Names;
    assert Stored(s, c, w);
  }

  lemma StandsSettled(s: Store, c: Call, o: StoredObject)
    requires Consistent(s) && Stands(s, c, o)
    ensures SnapshotOk(Candidate(Ordered(s.objects), o))
  {
    hide SnapshotOk;
    hide Ordered;
    hide Candidate;
    hide MayFollow;
    hide Consistent;
    StoredUnder(s, c, o);
    hide Stored;
    CandidateLists(s, o);
  }

  lemma SettledStands(s: Store, c: Call, o: StoredObject)
    requires Consistent(s) && c.request.objectID !in s.objects && c.request.operation.Create? && c.request.precondition.None?
    requires Carries(o, c) && IsFirst(o) && SnapshotOk(Candidate(Ordered(s.objects), o))
    ensures Stands(s, c, o)
  {
    hide SnapshotOk;
    hide Ordered;
    hide Candidate;
    hide MayFollow;
    hide Consistent;
    CarriesIs(o, c);
    CandidateLists(s, o);
    hide Carries;
    hide IsFirst;
    assert Stored(s, c, o);
  }

  // ----- where every repository can begin -----

  /** The global scope a repository is bootstrapped with. */
  function Bootstrap(createdAt: Time): StoredObject
  {
    StoredObject(
      ObjectMetadata("global", "global", "global", 1, "bootstrap-v0.3-global", createdAt, createdAt), ScopeObject,
      Document(ScopeContent(Scope("global", GlobalScope, "Global", "", [])), 0))
  }

  /** Printable characters without a space among them. */
  predicate IsWord(s: string)
  {
    1 <= |s| <= 63 && forall i | 0 <= i < |s| :: '-' <= s[i] <= 'z'
  }

  lemma WordIsToken(s: string)
    requires IsWord(s)
    ensures Text.IsOpaqueToken(s) && Text.IsDisplayName(s)
  {
    assert !Text.IsSpace(s[0]) && !Text.IsSpace(s[|s| - 1]);
    assert Text.Trim(s) == s;
    Short(s);
    hide Text.Trim;
    hide Text.ByteLength;
  }

  lemma BootstrapWords()
    ensures IsIdentifier("global") && IsWord("Global") && IsWord("bootstrap-v0.3-global")
  {
  }

  lemma {:induction false} Short(s: string)
    ensures Text.ByteLength(s) <= 4 * |s|
  {
    if s != "" { Short(s[1..]); }
  }

  lemma OneScope(o: StoredObject)
    requires o.objectType.ScopeObject? && Decodes(o)
    ensures Scopes([o]) == [o.document.content.scope] && Sites([o]) == [] && ManagementZones([o]) == []
    ensures NetworkZones([o]) == [] && Interfaces([o]) == [] && Assignments([o]) == []
  {
    Seqs.CollectOne(PickScope, o);
    Seqs.CollectOne(PickSite, o);
    Seqs.CollectOne(PickManagementZone, o);
    Seqs.CollectOne(PickNetworkZone, o);
    Seqs.CollectOne(PickInterface, o);
    Seqs.CollectOne(PickAssignment, o);
  }

  lemma GlobalAlone(s: Scope)
    requires ScopeOk(s) && s.kind.GlobalScope?
    ensures WellFormed(Topology(s.id, map[s.id := s], map[], map[]), [s], [], [])
  {
    var scopes := map[s.id := s];
    var parents := ParentsOf(scopes);
    NotEmpty(s.id);
    hide ScopeOk;
    assert IsRoot(scopes, s.id);
    assert ParentForest.Up(parents, s.id, 0) == s.id && ParentForest.Up(parents, s.id, 1) == "";
    assert ParentForest.Ends(parents, s.id);
  }

  lemma NoNetwork(t: Topology)
    ensures NetworkOk([], [], [], t) && AssignmentsOk([], t)
  {
    var zones: seq<NetworkZone>, interfaces: seq<NetworkInterface>, none: seq<RoleAssignment> := [], [], [];
    assert forall n: string :: OnNode(interfaces, n) == {};
    assert InterfaceParents(map[]) == map[];
    assert NetworkFits(map[], map[], zones, interfaces, none, t);
  }

  /** The bootstrap object alone is a valid snapshot. */
  lemma BootstrapValid(createdAt: Time)
    requires createdAt != ZERO_TIME
    ensures SnapshotOk([Bootstrap(createdAt)])
  {
    var o := Bootstrap(createdAt);
    var s := o.document.content.scope;
    var t := Topology(s.id, map[s.id := s], map[], map[]);
    BootstrapOk(createdAt, t);
    assert Decodes(o) && s.kind.GlobalScope? && o.objectType.ScopeObject?;
    hide *;
    OneScope(o);
    GlobalAlone(s);
    NoNetwork(t);
    AloneFits(o, s, t);
    SomeTopology(t, [o]);
  }

  lemma BootstrapOk(createdAt: Time, t: Topology)
    requires createdAt != ZERO_TIME
    ensures var o := Bootstrap(createdAt);
            EnvelopeOk(o) && TypedOk(o, t) && ScopeOk(o.document.content.scope)
  {
    BootstrapWords();
    WordIsToken("Global");
    WordIsToken("bootstrap-v0.3-global");
    hide *;
    BootstrapIs(createdAt);
    RootObjectOk(Bootstrap(createdAt), "global", "Global", "bootstrap-v0.3-global", t);
  }

  lemma BootstrapIs(at: Time)
    ensures Bootstrap(at).metadata == ObjectMetadata("global", "global", "global", 1, "bootstrap-v0.3-global", at, at)
    ensures Bootstrap(at).objectType == ScopeObject
    ensures Bootstrap(at).document.content == ScopeContent(Scope("global", GlobalScope, "Global", "", []))
  {
  }

  lemma RootObjectOk(o: StoredObject, id: string, name: string, version: string, t: Topology)
    requires IsIdentifier(id) && Text.IsDisplayName(name) && Text.IsOpaqueToken(version)
    requires o.metadata.updatedAt == o.metadata.createdAt != ZERO_TIME
    requires o.metadata == ObjectMetadata(id, id, id, 1, version, o.metadata.createdAt, o.metadata.createdAt)
    requires o.objectType == ScopeObject && o.document.content == ScopeContent(Scope(id, GlobalScope, name, "", []))
    ensures EnvelopeOk(o) && TypedOk(o, t) && ScopeOk(o.document.content.scope)
  {
    hide IsIdentifier;
    hide Text.IsDisplayName;
    hide Text.IsOpaqueToken;
    hide OwnedBy;
    hide AssignmentOk;
  }

  lemma AloneFits(o: StoredObject, s: Scope, t: Topology)
    requires EnvelopeOk(o) && TypedOk(o, t) && Scopes([o]) == [s] && Sites([o]) == [] && ManagementZones([o]) == []
    requires NetworkZones([o]) == [] && Interfaces([o]) == [] && Assignments([o]) == []
    requires WellFormed(t, [s], [], []) && NetworkOk([], [], [], t) && AssignmentsOk([], t)
    ensures SnapshotFits(t, [o])
  {
    hide EnvelopeOk;
    hide TypedOk;
    hide WellFormed;
    hide NetworkOk;
    hide AssignmentsOk;
    hide Scopes;
    hide Sites;
    hide ManagementZones;
    hide NetworkZones;
    hide Interfaces;
    hide Assignments;
  }

  lemma SomeTopology(t: Topology, objects: seq<StoredObject>)
    requires SnapshotFits(t, objects)
    ensures SnapshotOk(objects)
  {
    hide SnapshotFits;
  }
}
