/** Exactly which calls the object repository writes, and why it refuses the
    others (internal/corecontracts/objects.go and memory_repository.go). */
module RepositoryAcceptance {
  import opened Metadata
  import opened Mutations
  import opened Network
  import opened Objects
  import opened Options
  import opened Repository
  import opened RepositoryHistory
  import opened RepositoryRuns
  import opened RepositoryWrites
  import opened Roles
  import opened Topology
  import Seqs
  import Sorting
  import Text

  // ----- what an object keeps for life -----

  datatype Identity =
    | ScopeIdentity(scopeKind: ScopeKind)
    | ZoneIdentity(zoneKind: NetworkZoneKind, zoneSite: string)
    | InterfaceIdentity(nodeID: string, interfaceKind: InterfaceKind, siteID: string)
    | RoleIdentity(role: NodeRole, serviceIdentityID: string)
    | DesiredIdentity(kind: string, target: string)
    | ActualIdentity(observedKind: string, observedTarget: string, desiredObjectID: string, sourceNodeID: string)
    | NoIdentity

  function IdentityOf(o: StoredObject): Identity
  {
    match o.document.content
    case ScopeContent(s) => ScopeIdentity(s.kind)
    case NetworkZoneContent(z) => ZoneIdentity(z.kind, z.siteID)
    case InterfaceContent(i) => InterfaceIdentity(i.nodeID, i.kind, i.siteID)
    case RoleContent(d) => RoleIdentity(d.role, d.serviceIdentityID)
    case DesiredContent(d) => DesiredIdentity(d.kind, d.targetObjectID)
    case ActualContent(d) => ActualIdentity(d.kind, d.targetObjectID, d.desiredObjectID, d.sourceNodeID)
    case _ => NoIdentity
  }

  /** Observations never go back. */
  predicate ObservedLater(was: StoredObject, o: StoredObject)
  {
    was.document.content.ActualContent? && o.document.content.ActualContent? ==>
      && was.document.content.actual.observedGeneration <= o.document.content.actual.observedGeneration
      && was.document.content.actual.observedAt <= o.document.content.actual.observedAt
  }

  /** The node, site or management zone of a role assignment changed, or its scope or owner. */
  predicate Relocated(was: StoredObject, o: StoredObject)
    requires was.document.content.RoleContent? && o.document.content.RoleContent?
  {
    var a, b := was.document.content.role, o.document.content.role;
    || a.targetNodeID != b.targetNodeID || a.siteID != b.siteID || a.managementZoneID != b.managementZoneID
    || was.metadata.scopeID != o.metadata.scopeID || was.metadata.ownerScope != o.metadata.ownerScope
  }

  /** A new version of a role assignment relocates it or says the same. */
  predicate MovesOrRests(was: StoredObject, o: StoredObject)
  {
    was.document.content.RoleContent? && o.document.content.RoleContent? && Differ(was, o) ==> Relocated(was, o)
  }

  predicate MayFollow(was: StoredObject, o: StoredObject)
  {
    IdentityOf(was) == IdentityOf(o) && ObservedLater(was, o) && MovesOrRests(was, o)
  }

  // ----- succession -----

  lemma IdentityKept(was: StoredObject, o: StoredObject)
    requires Decodes(was) && Decodes(o) && o.objectType == was.objectType
    ensures IdentityOf(was) == IdentityOf(o) && ObservedLater(was, o) <==>
            && KeepsIdentity(was.document.content, o.document.content)
            && KeepsRole(was.document.content, o.document.content)
  {
  }

  lemma MovedIs(was: StoredObject, o: StoredObject)
    requires was.document.content.RoleContent? && o.document.content.RoleContent?
    ensures Relocated(was, o) <==>
            Moved(AssignmentFrom(was.metadata, was.document.content.role), AssignmentFrom(o.metadata, o.document.content.role))
  {
  }

  /** A version that follows and one that relocated agree on when the generation rises. */
  lemma RisesOnce(was: StoredObject, o: StoredObject)
    requires Valid(was.metadata) && Valid(o.metadata) && Follows(was, o)
    requires was.document.content.RoleContent? && o.document.content.RoleContent? && !o.objectType.ActualObject?
    requires IdentityOf(was) == IdentityOf(o)
    ensures Succeeds(was.metadata, o.metadata, Relocated(was, o)) <==> MovesOrRests(was, o)
  {
    hide Valid;
    assert Relocated(was, o) ==> Differ(was, o);
  }

  /** Replacing an object that is no part of the topology leaves the parts alone. */
  lemma {:induction false} OthersKeepParts<T>(pick: StoredObject -> Option<T>, snapshot: seq<StoredObject>, id: string)
    requires forall o | o in snapshot && ObjectID(o) == id :: pick(o).None?
    ensures Seqs.Collect(pick, Others(snapshot, id)) == Seqs.Collect(pick, snapshot)
  {
    if snapshot == [] {
    } else {
      var n := |snapshot| - 1;
      var front, last := snapshot[..n], snapshot[n];
      assert snapshot[..n + 1] == snapshot && last in snapshot;
      OthersNext(snapshot, id, n);
      OthersKeepParts(pick, front, id);
      hide Others;
      Seqs.CollectSnoc(pick, snapshot, n);
      Seqs.CollectOne(pick, last);
      Seqs.CollectJoins(pick, Others(front, id), if ObjectID(last) == id then [] else [last]);
    }
  }

  lemma CandidateKeepsParts<T>(pick: StoredObject -> Option<T>, snapshot: seq<StoredObject>, next: StoredObject)
    requires (forall o | o in snapshot && ObjectID(o) == ObjectID(next) :: pick(o).None?) && pick(next).None?
    ensures Seqs.Collect(pick, Candidate(snapshot, next)) == Seqs.Collect(pick, snapshot)
  {
    OthersKeepParts(pick, snapshot, ObjectID(next));
    Seqs.CollectOne(pick, next);
    Seqs.CollectJoins(pick, Others(snapshot, ObjectID(next)), [next]);
  }

  lemma FitsTopology(t: Topology, objects: seq<StoredObject>)
    requires SnapshotFits(t, objects)
    ensures TopologyFits(objects) && TopologyOf(objects) == t
  {
    hide EnvelopeOk;
    hide AssignmentsOk;
    hide NetworkOk;
    hide WellFormed;
    forall o | o in objects ensures Decodes(o) { assert TypedOk(o, t); }
    hide TypedOk;
    DescribedBy(t, Scopes(objects), Sites(objects), ManagementZones(objects));
    TopologyUnique(t, TopologyOf(objects), Scopes(objects), Sites(objects), ManagementZones(objects),
                   Scopes(objects), Sites(objects), ManagementZones(objects));
  }

  lemma FitsTyped(t: Topology, objects: seq<StoredObject>, o: StoredObject)
    requires SnapshotFits(t, objects) && o in objects
    ensures Valid(o.metadata) && Decodes(o) && !o.objectType.UnknownObject? && o.document.IsJsonObject()
    ensures o.document.content.RoleContent? ==> AssignmentOk(AssignmentFrom(o.metadata, o.document.content.role), t)
  {
    hide AssignmentsOk;
    hide NetworkOk;
    hide WellFormed;
    hide AssignmentOk;
    hide Valid;
    assert EnvelopeOk(o) && TypedOk(o, t);
  }

  /** Both topologies of a role's succession are the same. */
  lemma RoleKeepsTopology(t: Topology, t': Topology, snapshot: seq<StoredObject>, was: StoredObject, next: StoredObject)
    requires SnapshotFits(t, snapshot) && SnapshotFits(t', Candidate(snapshot, next))
    requires was in snapshot && ObjectID(was) == ObjectID(next) && was.objectType.RoleObject? && next.objectType.RoleObject?
    ensures t' == t
  {
    SnapshotDistinctBy(t, snapshot);
    forall o | o in snapshot && ObjectID(o) == ObjectID(next) ensures o == was {
      Sorting.SameKeySameElement(snapshot, ObjectID, o, was);
    }
    CandidateKeepsParts(PickScope, snapshot, next);
    CandidateKeepsParts(PickSite, snapshot, next);
    CandidateKeepsParts(PickManagementZone, snapshot, next);
    FitsWell(t, snapshot);
    FitsWell(t', Candidate(snapshot, next));
    hide SnapshotFits;
    hide Candidate;
    hide WellFormed;
    TopologyUnique(t, t', Scopes(snapshot), Sites(snapshot), ManagementZones(snapshot),
                   Scopes(snapshot), Sites(snapshot), ManagementZones(snapshot));
  }

  lemma SnapshotDistinctBy(t: Topology, objects: seq<StoredObject>)
    requires SnapshotFits(t, objects)
    ensures Sorting.DistinctKeys(objects, ObjectID)
  {
  }

  lemma FitsWell(t: Topology, objects: seq<StoredObject>)
    requires SnapshotFits(t, objects)
    ensures WellFormed(t, Scopes(objects), Sites(objects), ManagementZones(objects))
  {
  }

  lemma InCandidate(snapshot: seq<StoredObject>, next: StoredObject)
    ensures next in Candidate(snapshot, next)
  {
    assert Candidate(snapshot, next)[|Others(snapshot, ObjectID(next))|] == next;
  }

  /** The typed succession check, inside valid snapshots, is the short condition. */
  lemma SuccessionIff(snapshot: seq<StoredObject>, was: StoredObject, next: StoredObject)
    requires SnapshotOk(snapshot) && SnapshotOk(Candidate(snapshot, next)) && was in snapshot && Follows(was, next)
    ensures CheckTypedSuccessor(was, next, snapshot).None? <==> MayFollow(was, next)
  {
    hide SnapshotFits;
    hide Candidate;
    hide CheckTypedSuccessor;
    hide MayFollow;
    var t :| SnapshotFits(t, snapshot);
    var t' :| SnapshotFits(t', Candidate(snapshot, next));
    FollowsOn(was, next);
    hide Follows;
    if was.objectType.RoleObject? {
      RoleKeepsTopology(t, t', snapshot, was, next);
      FittingRole(t, snapshot, was, next);
    } else {
      FittingOther(t, t', snapshot, was, next);
    }
  }

  lemma FollowsOn(was: StoredObject, o: StoredObject)
    requires Follows(was, o)
    ensures o.objectType == was.objectType && ObjectID(o) == ObjectID(was)
  {
  }

  lemma FittingRole(t: Topology, snapshot: seq<StoredObject>, was: StoredObject, next: StoredObject)
    requires SnapshotFits(t, snapshot) && SnapshotFits(t, Candidate(snapshot, next)) && was in snapshot && Follows(was, next)
    requires was.objectType.RoleObject? && next.objectType == was.objectType
    ensures CheckTypedSuccessor(was, next, snapshot).None? <==> MayFollow(was, next)
  {
    hide SnapshotFits;
    hide Candidate;
    InCandidate(snapshot, next);
    FitsTopology(t, Candidate(snapshot, next));
    FitsTyped(t, snapshot, was);
    FitsTyped(t, Candidate(snapshot, next), next);
    RoleSuccessionIff(t, was, next);
    hide TopologyFits;
    hide MayFollow;
    hide Follows;
    hide AssignmentOk;
    hide CheckRoleSuccessor;
  }

  lemma FittingOther(t: Topology, t': Topology, snapshot: seq<StoredObject>, was: StoredObject, next: StoredObject)
    requires SnapshotFits(t, snapshot) && SnapshotFits(t', Candidate(snapshot, next)) && was in snapshot
    requires !was.objectType.RoleObject? && next.objectType == was.objectType
    ensures CheckTypedSuccessor(was, next, snapshot).None? <==> MayFollow(was, next)
  {
    hide SnapshotFits;
    hide Candidate;
    InCandidate(snapshot, next);
    FitsTopology(t', Candidate(snapshot, next));
    FitsTyped(t, snapshot, was);
    FitsTyped(t', Candidate(snapshot, next), next);
    IdentityKept(was, next);
    OtherSuccession(was, next);
    hide TopologyFits;
    hide MovesOrRests;
    hide ObservedLater;
    hide KeepsIdentity;
    hide KeepsRole;
    hide CheckRoleSuccessor;
  }

  lemma OtherSuccession(was: StoredObject, next: StoredObject)
    requires Decodes(was) && Decodes(next) && !was.objectType.RoleObject? && was.objectType == next.objectType
    ensures MovesOrRests(was, next) && KeepsRole(was.document.content, next.document.content)
    ensures DecodedForSuccession(was) && DecodedForSuccession(next)
  {
  }

  lemma RoleSuccessionIff(t: Topology, was: StoredObject, next: StoredObject)
    requires Follows(was, next) && Decodes(was) && Decodes(next) && was.objectType.RoleObject?
    requires Valid(was.metadata) && Valid(next.metadata)
    requires AssignmentOk(AssignmentFrom(was.metadata, was.document.content.role), t)
    requires AssignmentOk(AssignmentFrom(next.metadata, next.document.content.role), t)
    ensures MayFollow(was, next) <==>
            CheckRoleSuccessor(AssignmentFrom(was.metadata, was.document.content.role),
                               AssignmentFrom(next.metadata, next.document.content.role), t).None?
  {
    hide AssignmentOk;
    hide Valid;
    hide Succeeds;
    hide Moved;
    MovedIs(was, next);
    hide Relocated;
    if IdentityOf(was) == IdentityOf(next) { RisesOnce(was, next); }
  }

  /** Over any run an object keeps its identity and its observations never go back. */
  lemma IdentityForLife(s: Store, calls: seq<Call>, id: string)
    requires Consistent(s) && id in s.objects
    ensures id in Run(s, calls).objects
    ensures IdentityOf(Run(s, calls).objects[id]) == IdentityOf(s.objects[id])
    ensures ObservedLater(s.objects[id], Run(s, calls).objects[id])
  {
    hide Consistent;
    hide Run;
    ObjectLives(s, calls, id);
    IdentityKept(s.objects[id], Run(s, calls).objects[id]);
    hide KeepsIdentity;
    hide KeepsRole;
    hide ObservedLater;
  }

  // ----- which calls write -----

  /** What the repository is asked before it looks at objects. */
  predicate Timely(s: Store, c: Call)
  {
    !c.canceled && Text.IsOpaqueToken(c.key) && c.key !in s.receipts
  }

  /** The version the call would store, and that it may stand there: it follows
      the version it replaces, and the repository that holds it is valid. */
  ghost predicate Stands(s: Store, c: Call, o: StoredObject)
  {
    && Stored(s, c, o)
    && (c.request.objectID in s.objects ==> MayFollow(s.objects[c.request.objectID], o))
    && SnapshotOk(Ordered(s.objects[c.request.objectID := o]))
  }

  /** The candidate snapshot of a write lists the repository after it. */
  lemma CandidateLists(s: Store, o: StoredObject)
    requires Consistent(s)
    ensures SnapshotOk(Candidate(Ordered(s.objects), o)) <==> SnapshotOk(Ordered(s.objects[ObjectID(o) := o]))
  {
    var after := s.objects[ObjectID(o) := o];
    var candidate := Candidate(Ordered(s.objects), o);
    OrderedIndexes(s.objects);
    CandidateIndexes(s.objects, Ordered(s.objects), o);
    CandidateDistinct(Ordered(s.objects), o);
    assert Keyed(after);
    OrderedIndexes(after);
    hide Keyed;
    hide Candidate;
    hide Ordered;
    hide SnapshotOk;
    hide IndexOf;
    hide Sorting.DistinctKeys;
    ListingsAgree(after, candidate, Ordered(after));
    if SnapshotOk(candidate) { SnapshotPermuted(candidate, Ordered(after)); }
    if SnapshotOk(Ordered(after)) { SnapshotPermuted(Ordered(after), candidate); }
  }

  lemma CandidateDistinct(snapshot: seq<StoredObject>, o: StoredObject)
    requires Sorting.DistinctKeys(snapshot, ObjectID)
    ensures Sorting.DistinctKeys(Candidate(snapshot, o), ObjectID)
  {
    var id := ObjectID(o);
    var pick := (x: StoredObject) => if ObjectID(x) == id then None else Some(x);
    OthersAre(snapshot, id);
    Seqs.Collected(pick, snapshot);
    Seqs.CollectDistinct(pick, snapshot, ObjectID, ObjectID);
    forall x | x in Others(snapshot, id) ensures ObjectID(x) != id {
      var y :| y in snapshot && pick(y) == Some(x);
    }
    Sorting.DistinctSnoc(Others(snapshot, id), ObjectID, o);
  }

  lemma ConsistentObject(s: Store, id: string)
    requires Consistent(s) && id in s.objects
    ensures s.objects[id] in Ordered(s.objects) && Valid(s.objects[id].metadata) && ObjectID(s.objects[id]) == id
  {
    hide SnapshotFits;
    hide Ordered;
    hide Valid;
    OrderedIndexes(s.objects);
    var t :| SnapshotFits(t, Ordered(s.objects));
    FitsTyped(t, Ordered(s.objects), s.objects[id]);
  }

  lemma TakenIff(s: Store, id: string)
    requires Consistent(s)
    ensures Taken(Ordered(s.objects), id) <==> id in s.objects
  {
    hide SnapshotOk;
    hide Ordered;
    OrderedIndexes(s.objects);
    if id in s.objects { assert s.objects[id] in Ordered(s.objects); }
  }

  lemma FirstOnly(c: Call, o: StoredObject)
    requires Carries(o, c) && IsFirst(o)
    ensures c.version.Some? && o == FirstVersion(c.request, c.now, c.version.value)
  {
  }

  lemma NextOnly(was: StoredObject, c: Call, o: StoredObject)
    requires Carries(o, c) && Follows(was, o)
    ensures c.version.Some? && o == NextVersion(was, c.request, c.now, c.version.value)
    ensures DesiredChanged(was, c.request) <==> !o.objectType.ActualObject? && Differ(was, o)
  {
  }

  lemma NamedGuard(p: Precondition, was: StoredObject)
    requires Valid(was.metadata) && Names(p, was)
    ensures CheckPrecondition(p, was.metadata).None?
  {
    IdentifierNotEmpty(was.metadata.objectID);
    hide IsIdentifier;
  }

  lemma IdentifierNotEmpty(id: string)
    requires IsIdentifier(id)
    ensures id != ""
  {
  }

  lemma FollowSucceeds(was: StoredObject, o: StoredObject)
    requires Valid(was.metadata) && Valid(o.metadata) && Follows(was, o)
    ensures Succeeds(was.metadata, o.metadata, !o.objectType.ActualObject? && Differ(was, o))
  {
    hide Valid;
  }

  /** A standing version is what the checks let through. */
  lemma StandingReplaced(s: Store, c: Call, o: StoredObject)
    requires Consistent(s) && Stands(s, c, o) && c.request.objectID in s.objects
    ensures c.version.Some?
    ensures CheckReplace(s.objects[c.request.objectID], c.request, Ordered(s.objects), c.now, c.version.value).None?
    ensures o == NextVersion(s.objects[c.request.objectID], c.request, c.now, c.version.value)
    ensures SnapshotOk(Candidate(Ordered(s.objects), o))
  {
    hide SnapshotOk;
    hide Ordered;
    hide Candidate;
    hide MayFollow;
    var was := s.objects[c.request.objectID];
    ConsistentObject(s, c.request.objectID);
    StoredUnder(s, c, o);
    CandidateLists(s, o);
    NextOnly(was, c, o);
    SuccessionIff(Ordered(s.objects), was, o);
    StandingValid(Candidate(Ordered(s.objects), o), o, Ordered(s.objects));
    NamedGuard(c.request.precondition.value, was);
    FollowSucceeds(was, o);
    hide CheckPrecondition;
    hide CheckTypedSuccessor;
    hide Succeeds;
    hide NextVersion;
    hide DesiredChanged;
    hide Differ;
    hide Consistent;
    hide Names;
  }

  lemma StandingValid(objects: seq<StoredObject>, o: StoredObject, snapshot: seq<StoredObject>)
    requires SnapshotOk(objects) && objects == Candidate(snapshot, o)
    ensures Valid(o.metadata) && !o.objectType.UnknownObject? && o.document.IsJsonObject()
  {
    InCandidate(snapshot, o);
    hide SnapshotFits;
    hide Candidate;
    var t :| SnapshotFits(t, objects);
    FitsTyped(t, objects, o);
  }

  lemma StandingWrites(s: Store, c: Call, o: StoredObject)
    requires Consistent(s) && Timely(s, c) && Stands(s, c, o)
    ensures Writes(s, c)
  {
    hide SnapshotOk;
    hide Ordered;
    hide Candidate;
    hide MayFollow;
    TakenIff(s, c.request.objectID);
    CandidateLists(s, o);
    StoredUnder(s, c, o);
    StandingValid(Candidate(Ordered(s.objects), o), o, Ordered(s.objects));
    hide CheckReplace;
    hide Text.IsOpaqueToken;
    hide Taken;
    if c.request.objectID in s.objects {
      StandingReplaced(s, c, o);
    } else {
      FirstOnly(c, o);
    }
    hide Follows;
    hide Names;
    hide Consistent;
    hide NextVersion;
    hide FirstVersion;
  }

  lemma WrittenStands(s: Store, c: Call)
    requires Consistent(s) && Writes(s, c)
    ensures Timely(s, c) && Answer(s, c).Ok? && Stands(s, c, Answer(s, c).value)
  {
    hide SnapshotOk;
    hide Ordered;
    hide Candidate;
    hide MayFollow;
    hide Answer;
    hide After;
    var o := Answer(s, c).value;
    WriteIsWellFormed(s, c);
    PreparedIs(s, c);
    WriteSettles(s, c);
    CandidateLists(s, o);
    hide Prepare;
    if c.request.objectID in s.objects {
      ConsistentObject(s, c.request.objectID);
      SuccessionIff(Ordered(s.objects), s.objects[c.request.objectID], o);
      RewriteTyped(s, c, c.request.objectID);
    }
    hide Follows;
    hide Carries;
    hide Names;
  }

  lemma RewriteTyped(s: Store, c: Call, id: string)
    requires Rewrites(s, c, id)
    ensures Answer(s, c).Ok? && Answer(s, c).value.objectType == s.objects[id].objectType
    ensures CheckTypedSuccessor(s.objects[id], Answer(s, c).value, Ordered(s.objects)).None?
  {
    RewriteChecked(s, c, id);
    ReplaceChecked(s.objects[id], c.request, Ordered(s.objects), c.now, c.version.value);
    hide *;
  }

  /** A call writes exactly when it is timely and the version it asks for may
      stand: guard, succession and the validity of the whole repository. */
  lemma WritesIff(s: Store, c: Call)
    requires Consistent(s)
    ensures Writes(s, c) <==> Timely(s, c) && exists o :: Stands(s, c, o)
  {
    hide *;
    if Writes(s, c) {
      WrittenStands(s, c);
    } else if o :| Timely(s, c) && Stands(s, c, o) {
      StandingWrites(s, c, o);
    }
  }

  // ----- why calls are refused -----

  /** A call that gets as far as the object it names. */
  predicate Considered(s: Store, c: Call)
  {
    && Timely(s, c) && c.version.Some? && c.now != ZERO_TIME
    && !c.request.objectType.UnknownObject? && c.request.document.IsJsonObject()
  }

  predicate GuardUsable(p: Precondition)
  {
    IsIdentifier(p.objectID) && Text.IsOpaqueToken(p.resourceVersion) && p.generation != Some(0)
  }

  lemma ConsideredAnswer(s: Store, c: Call)
    requires Considered(s, c)
    ensures Answer(s, c) == Prepare(Current(s, c.request.objectID), c.request, Ordered(s.objects), c.now, c.version.value)
  {
    hide Prepare;
    hide Ordered;
    hide Text.IsOpaqueToken;
  }

  lemma GuardErrors(p: Precondition, was: StoredObject)
    requires Valid(was.metadata)
    ensures CheckPrecondition(p, was.metadata) ==
            if p.objectID == "" || p.resourceVersion == "" then Some(PreconditionRequired)
            else if !GuardUsable(p) then Some(InvalidPrecondition)
            else if !Names(p, was) then Some(PreconditionFailed)
            else None
  {
    hide Valid;
    hide IsIdentifier;
    hide Text.IsOpaqueToken;
  }

  lemma RoleErrors(a: RoleAssignment, b: RoleAssignment, t: Topology)
    ensures CheckRoleSuccessor(a, b, t).None? || CheckRoleSuccessor(a, b, t).value in {InvalidTransition, InvalidRoleAssignment}
  {
    hide AssignmentOk;
    hide Succeeds;
  }

  predicate Unfit(e: Error) { e.InvalidTransition? || e.InvalidObject? || e.InvalidRoleAssignment? }

  lemma SuccessorErrors(was: StoredObject, next: StoredObject, snapshot: seq<StoredObject>)
    requires next.objectType == was.objectType
    ensures CheckTypedSuccessor(was, next, snapshot).None? || Unfit(CheckTypedSuccessor(was, next, snapshot).value)
  {
    hide TopologyFits;
    hide CheckRoleSuccessor;
    hide KeepsIdentity;
    hide Candidate;
    if was.objectType.RoleObject? && TopologyFits(Candidate(snapshot, next)) && Decodes(was) && Decodes(next) {
      RoleErrors(AssignmentFrom(was.metadata, was.document.content.role),
                 AssignmentFrom(next.metadata, next.document.content.role), TopologyOf(Candidate(snapshot, next)));
    }
  }

  /** The error a replace of the stored version meets, if any: by its guard
      first, and past the guard only for an unfit version. */
  predicate Explains(request: MutationRequest, was: StoredObject, e: Option<Error>)
  {
    if request.precondition.None? then e == Some(PreconditionRequired)
    else
      var p := request.precondition.value;
      if p.objectID == "" || p.resourceVersion == "" then e == Some(PreconditionRequired)
      else if !GuardUsable(p) then e == Some(InvalidPrecondition)
      else if !Names(p, was) then e == Some(PreconditionFailed)
      else e.None? || Unfit(e.value)
  }

  lemma ReplaceErrors(was: StoredObject, request: MutationRequest, snapshot: seq<StoredObject>, now: Time, version: string)
    requires Valid(was.metadata)
    ensures Explains(request, was, CheckReplace(was, request, snapshot, now, version))
  {
    hide CheckPrecondition;
    hide CheckTypedSuccessor;
    hide Succeeds;
    hide NextVersion;
    hide Names;
    hide GuardUsable;
    NextVersionType(was, request, now, version);
    if request.precondition.Some? { GuardErrors(request.precondition.value, was); }
    if request.objectType == was.objectType { SuccessorErrors(was, NextVersion(was, request, now, version), snapshot); }
  }

  lemma UnsettledExplained(request: MutationRequest, was: StoredObject)
    requires Explains(request, was, None)
    ensures Explains(request, was, Some(InvalidObject))
  {
  }

  /** Creating what is stored is refused; what is not is created or invalid. */
  lemma CreateAnswers(s: Store, c: Call)
    requires Consistent(s) && Considered(s, c) && c.request.operation.Create?
    ensures if c.request.objectID in s.objects then Answer(s, c) == Err(ObjectAlreadyExists)
            else if c.request.precondition.Some? then Answer(s, c) == Err(InvalidMutation)
            else Answer(s, c).Ok? || Answer(s, c) == Err(InvalidObject)
  {
    ConsideredAnswer(s, c);
    hide Answer;
    hide Ordered;
    hide Taken;
    hide Consistent;
    hide SnapshotOk;
    hide Candidate;
    hide FirstVersion;
    TakenIff(s, c.request.objectID);
  }

  function ErrorOf(r: Result<StoredObject>): Option<Error>
  {
    if r.Ok? then None else Some(r.error)
  }

  lemma PreparedReplace(current: Option<StoredObject>, request: MutationRequest, snapshot: seq<StoredObject>, now: Time,
                        version: string)
    requires request.operation.Replace? && !request.objectType.UnknownObject? && request.document.IsJsonObject()
    requires now != ZERO_TIME
    ensures current.None? ==> Prepare(current, request, snapshot, now, version) == Err(ObjectNotFound)
    ensures current.Some? ==>
              var refused := CheckReplace(current.value, request, snapshot, now, version);
              var e := ErrorOf(Prepare(current, request, snapshot, now, version));
              e == refused || (refused.None? && e == Some(InvalidObject))
  {
    hide CheckReplace;
    hide SnapshotOk;
    hide Candidate;
    hide NextVersion;
  }

  /** Replacing what is not stored is refused; a replace of the stored version
      fails by its guard or as an unfit version. */
  lemma ReplaceAnswers(s: Store, c: Call)
    requires Consistent(s) && Considered(s, c) && c.request.operation.Replace?
    ensures if c.request.objectID in s.objects then Explains(c.request, s.objects[c.request.objectID], ErrorOf(Answer(s, c)))
            else Answer(s, c) == Err(ObjectNotFound)
  {
    hide Answer;
    hide Ordered;
    hide Consistent;
    hide CheckReplace;
    hide Prepare;
    hide Explains;
    hide Valid;
    hide Timely;
    hide ErrorOf;
    var id, version := c.request.objectID, c.version.value;
    ConsideredAnswer(s, c);
    PreparedReplace(Current(s, id), c.request, Ordered(s.objects), c.now, version);
    if id in s.objects {
      ConsistentObject(s, id);
      ReplaceErrors(s.objects[id], c.request, Ordered(s.objects), c.now, version);
      if Explains(c.request, s.objects[id], None) { UnsettledExplained(c.request, s.objects[id]); }
    }
  }
}
