/** Node role assignments (internal/corecontracts/roles.go). */
module Roles {
  import opened Metadata
  import opened Options
  import opened Topology
  import Sorting

  datatype NodeRole =
    | ManagementNode | GlobalController | SiteController | ControllerClusterMember | WorkerNode | ManagedNode | Agent
    | DataNode | ConsensusNode | RepositoryNode | TelemetryNode | BackupRepositoryNode | EdgeGateway
    | UnknownRole(text: string)
  {
    /** Roles that make a node part of a control plane. */
    predicate Controls() { GlobalController? || SiteController? || ControllerClusterMember? }
  }

  datatype RoleAssignment = RoleAssignment(
    metadata: ObjectMetadata, targetNodeID: string, serviceIdentityID: string, role: NodeRole,
    siteID: string, managementZoneID: string)

  // ----- one assignment -----

  /** Ownership as every typed object has it: the owner contains the scope, and
      is the root or was delegated the authority. */
  ghost predicate OwnedBy(t: Topology, ownerScope: string, scopeID: string, authority: Authority)
  {
    Contains(t, ownerScope, scopeID) && (ownerScope == t.rootID || IsDelegated(t, ownerScope, authority))
  }

  predicate RoleFitsScope(a: RoleAssignment, t: Topology)
    requires a.metadata.scopeID in t.scopes && (a.siteID != "" ==> a.siteID in t.sites)
  {
    var kind := t.scopes[a.metadata.scopeID].kind;
    match a.role
    case GlobalController => kind.GlobalScope? && a.siteID == ""
    case SiteController => a.siteID != "" && kind.SiteScope? && t.sites[a.siteID].scopeID == a.metadata.scopeID
    case ControllerClusterMember =>
      && (kind.GlobalScope? || kind.SiteScope?)
      && (kind.GlobalScope? ==> a.siteID == "")
      && (kind.SiteScope? ==> a.siteID != "" && t.sites[a.siteID].scopeID == a.metadata.scopeID)
    case _ => true
  }

  ghost predicate ZoneFits(a: RoleAssignment, t: Topology)
  {
    a.managementZoneID == "" ||
    (&& a.managementZoneID in t.zones
     && Contains(t, t.zones[a.managementZoneID].scopeID, a.metadata.scopeID)
     && (a.siteID == "" || t.zones[a.managementZoneID].siteID in {"", a.siteID}))
  }

  ghost predicate AssignmentOk(a: RoleAssignment, t: Topology)
  {
    && Valid(a.metadata) && IsIdentifier(a.targetNodeID) && IsIdentifier(a.serviceIdentityID) && !a.role.UnknownRole?
    && a.metadata.scopeID in t.scopes
    && OwnedBy(t, a.metadata.ownerScope, a.metadata.scopeID, DesiredState)
    && (a.siteID != "" ==> a.siteID in t.sites && Contains(t, t.sites[a.siteID].scopeID, a.metadata.scopeID))
    && RoleFitsScope(a, t)
    && ZoneFits(a, t)
  }

  method ContainsInTopology(t: Topology, ancestor: string, descendant: string) returns (found: bool)
    requires Accepted(t)
    ensures found <==> Contains(t, ancestor, descendant)
  {
    AcceptedTree(t);
    hide Accepted;
    found := ContainsScope(t.scopes, ancestor, descendant);
  }

  method CheckOwner(t: Topology, ownerScope: string, scopeID: string, authority: Authority) returns (ok: bool)
    requires Accepted(t)
    ensures ok <==> OwnedBy(t, ownerScope, scopeID, authority)
  {
    hide Accepted;
    ok := ContainsInTopology(t, ownerScope, scopeID);
    ok := ok && (ownerScope == t.rootID || IsDelegated(t, ownerScope, authority));
  }

  method ValidateRoleAssignment(a: RoleAssignment, t: Topology) returns (ok: bool)
    requires Accepted(t)
    ensures ok <==> AssignmentOk(a, t)
  {
    hide Accepted;
    hide Valid;
    hide IsIdentifier;
    hide OwnedBy;
    hide Contains;
    if !Valid(a.metadata) || !IsIdentifier(a.targetNodeID) || !IsIdentifier(a.serviceIdentityID) ||
       a.role.UnknownRole? || a.metadata.scopeID !in t.scopes {
      return false;
    }
    var owned := CheckOwner(t, a.metadata.ownerScope, a.metadata.scopeID, DesiredState);
    if !owned { return false; }
    if a.siteID != "" {
      if a.siteID !in t.sites { return false; }
      var inSite := ContainsInTopology(t, t.sites[a.siteID].scopeID, a.metadata.scopeID);
      if !inSite { return false; }
    }
    if !RoleFitsScope(a, t) { return false; }
    if a.managementZoneID != "" {
      if a.managementZoneID !in t.zones { return false; }
      var zone := t.zones[a.managementZoneID];
      var inZone := ContainsInTopology(t, zone.scopeID, a.metadata.scopeID);
      if !inZone { return false; }
      if a.siteID != "" && zone.siteID != "" && zone.siteID != a.siteID { return false; }
    }
    return true;
  }

  // ----- succession -----

  predicate Moved(current: RoleAssignment, next: RoleAssignment)
  {
    || current.targetNodeID != next.targetNodeID || current.metadata.scopeID != next.metadata.scopeID
    || current.metadata.ownerScope != next.metadata.ownerScope || current.siteID != next.siteID
    || current.managementZoneID != next.managementZoneID
  }

  /** A re-placement keeps role and service identity, and advances the
      generation exactly when something moved. */
  ghost function CheckRoleSuccessor(current: RoleAssignment, next: RoleAssignment, t: Topology): Option<Error>
  {
    if !AssignmentOk(current, t) || !AssignmentOk(next, t) then Some(InvalidRoleAssignment)
    else if current.role != next.role || current.serviceIdentityID != next.serviceIdentityID ||
            !Succeeds(current.metadata, next.metadata, Moved(current, next)) then Some(InvalidTransition)
    else None
  }

  method ValidateRoleAssignmentSuccessor(current: RoleAssignment, next: RoleAssignment, t: Topology)
    returns (r: Option<Error>)
    requires Accepted(t)
    ensures r == CheckRoleSuccessor(current, next, t)
  {
    hide Accepted;
    hide AssignmentOk;
    hide Succeeds;
    var currentOk := ValidateRoleAssignment(current, t);
    if !currentOk { return Some(InvalidRoleAssignment); }
    var nextOk := ValidateRoleAssignment(next, t);
    if !nextOk { return Some(InvalidRoleAssignment); }
    if current.role != next.role || current.serviceIdentityID != next.serviceIdentityID { return Some(InvalidTransition); }
    if !Succeeds(current.metadata, next.metadata, Moved(current, next)) { return Some(InvalidTransition); }
    return None;
  }

  // ----- a complete set -----

  function AssignmentObjectID(a: RoleAssignment): string { a.metadata.objectID }
  function Binding(a: RoleAssignment): (string, NodeRole, string) { (a.targetNodeID, a.role, a.serviceIdentityID) }

  /** Control planes and scopes pair off: two controllers share a scope exactly
      when they share a service identity. */
  ghost predicate ControlPlanesPairOff(assignments: seq<RoleAssignment>)
  {
    forall a, b | a in assignments && b in assignments && a.role.Controls() && b.role.Controls() ::
      a.metadata.scopeID == b.metadata.scopeID <==> a.serviceIdentityID == b.serviceIdentityID
  }

  ghost predicate AssignmentsOk(assignments: seq<RoleAssignment>, t: Topology)
  {
    && (forall a | a in assignments :: AssignmentOk(a, t))
    && Sorting.DistinctKeys(assignments, AssignmentObjectID)
    && Sorting.DistinctKeys(assignments, Binding)
    && ControlPlanesPairOff(assignments)
  }

  /** Scope and service identity of every controller. */
  function Pairs(assignments: seq<RoleAssignment>): set<(string, string)>
  {
    set a | a in assignments && a.role.Controls() :: (a.metadata.scopeID, a.serviceIdentityID)
  }

  predicate PairOff(pairs: set<(string, string)>)
  {
    forall p, q | p in pairs && q in pairs :: p.0 == q.0 <==> p.1 == q.1
  }

  lemma PairsPairOff(assignments: seq<RoleAssignment>)
    ensures PairOff(Pairs(assignments)) <==> ControlPlanesPairOff(assignments)
  {
    var pairs := Pairs(assignments);
    forall a | a in assignments && a.role.Controls() ensures (a.metadata.scopeID, a.serviceIdentityID) in pairs {}
    if ControlPlanesPairOff(assignments) {
      forall p, q | p in pairs && q in pairs ensures p.0 == q.0 <==> p.1 == q.1 {
        var a :| a in assignments && a.role.Controls() && p == (a.metadata.scopeID, a.serviceIdentityID);
        var b :| b in assignments && b.role.Controls() && q == (b.metadata.scopeID, b.serviceIdentityID);
      }
    }
    if PairOff(pairs) {
      forall a, b | a in assignments && b in assignments && a.role.Controls() && b.role.Controls()
        ensures a.metadata.scopeID == b.metadata.scopeID <==> a.serviceIdentityID == b.serviceIdentityID
      {
        var p, q := (a.metadata.scopeID, a.serviceIdentityID), (b.metadata.scopeID, b.serviceIdentityID);
        assert p in pairs && q in pairs;
      }
    }
  }

  /** The two control-plane maps of the loop are these pairs, read either way. */
  predicate Mirrors(planes: map<string, string>, planeScopes: map<string, string>, pairs: set<(string, string)>)
  {
    && (forall p | p in pairs :: p.0 in planes && planes[p.0] == p.1 && p.1 in planeScopes && planeScopes[p.1] == p.0)
    && (forall s | s in planes :: (s, planes[s]) in pairs)
    && (forall i | i in planeScopes :: (planeScopes[i], i) in pairs)
  }

  lemma MirrorsPairOff(planes: map<string, string>, planeScopes: map<string, string>, pairs: set<(string, string)>)
    requires Mirrors(planes, planeScopes, pairs)
    ensures PairOff(pairs)
  {
  }

  lemma MirrorsAdd(planes: map<string, string>, planeScopes: map<string, string>, pairs: set<(string, string)>,
                   scope: string, identity: string)
    requires Mirrors(planes, planeScopes, pairs)
    requires scope in planes ==> planes[scope] == identity
    requires identity in planeScopes ==> planeScopes[identity] == scope
    ensures Mirrors(planes[scope := identity], planeScopes[identity := scope], pairs + {(scope, identity)})
  {
  }

  /** A controller that disagrees with either map breaks the pairing. */
  lemma MirrorsRefuse(planes: map<string, string>, planeScopes: map<string, string>, pairs: set<(string, string)>,
                      all: set<(string, string)>, scope: string, identity: string)
    requires Mirrors(planes, planeScopes, pairs) && pairs <= all && (scope, identity) in all
    requires (scope in planes && planes[scope] != identity) || (identity in planeScopes && planeScopes[identity] != scope)
    ensures !PairOff(all)
  {
    if scope in planes && planes[scope] != identity {
      assert (scope, planes[scope]) in all;
    } else {
      assert (planeScopes[identity], identity) in all;
    }
  }

  lemma PairsSnoc(front: seq<RoleAssignment>, a: RoleAssignment)
    ensures Pairs(front + [a]) ==
            Pairs(front) + if a.role.Controls() then {(a.metadata.scopeID, a.serviceIdentityID)} else {}
  {
  }

  lemma PairsWithin(all: seq<RoleAssignment>, k: nat)
    requires k < |all|
    ensures Pairs(all[..k]) <= Pairs(all)
    ensures all[k].role.Controls() ==> (all[k].metadata.scopeID, all[k].serviceIdentityID) in Pairs(all)
  {
  }

  method ValidateRoleAssignments(assignments: seq<RoleAssignment>, t: Topology) returns (ok: bool)
    requires Accepted(t)
    ensures ok <==> AssignmentsOk(assignments, t)
  {
    hide Accepted;
    hide AssignmentOk;
    hide ControlPlanesPairOff;
    PairsPairOff(assignments);
    hide PairOff;
    var objectIDs: set<string> := {};
    var bindings: set<(string, NodeRole, string)> := {};
    var controlPlanes: map<string, string> := map[];
    var controlPlaneScopes: map<string, string> := map[];
    assert Sorting.SeenKeys(objectIDs, assignments[..0], AssignmentObjectID);
    assert Sorting.SeenKeys(bindings, assignments[..0], Binding);
    hide Sorting.SeenKeys;
    hide Sorting.DistinctKeys;
    assert Mirrors(controlPlanes, controlPlaneScopes, Pairs([]));
    hide Mirrors;
    hide Pairs;
    for k := 0 to |assignments|
      invariant forall a | a in assignments[..k] :: AssignmentOk(a, t)
      invariant Sorting.SeenKeys(objectIDs, assignments[..k], AssignmentObjectID)
      invariant Sorting.SeenKeys(bindings, assignments[..k], Binding)
      invariant Mirrors(controlPlanes, controlPlaneScopes, Pairs(assignments[..k]))
    {
      var a := assignments[k];
      assert a in assignments && assignments[..k + 1] == assignments[..k] + [a];
      var assignmentOk := ValidateRoleAssignment(a, t);
      if !assignmentOk { return false; }
      Sorting.SeenNext(objectIDs, assignments, AssignmentObjectID, k);
      if AssignmentObjectID(a) in objectIDs { return false; }
      Sorting.SeenNext(bindings, assignments, Binding, k);
      if Binding(a) in bindings { return false; }
      objectIDs := objectIDs + {AssignmentObjectID(a)};
      bindings := bindings + {Binding(a)};
      PairsSnoc(assignments[..k], a);
      if a.role.Controls() {
        var scope, identity := a.metadata.scopeID, a.serviceIdentityID;
        if (scope in controlPlanes && controlPlanes[scope] != identity) ||
           (identity in controlPlaneScopes && controlPlaneScopes[identity] != scope) {
          PairsWithin(assignments, k);
          MirrorsRefuse(controlPlanes, controlPlaneScopes, Pairs(assignments[..k]), Pairs(assignments), scope, identity);
          return false;
        }
        MirrorsAdd(controlPlanes, controlPlaneScopes, Pairs(assignments[..k]), scope, identity);
        controlPlanes := controlPlanes[scope := identity];
        controlPlaneScopes := controlPlaneScopes[identity := scope];
      }
    }
    assert assignments[..|assignments|] == assignments;
    Sorting.SeenAll(objectIDs, assignments, AssignmentObjectID);
    Sorting.SeenAll(bindings, assignments, Binding);
    MirrorsPairOff(controlPlanes, controlPlaneScopes, Pairs(assignments));
    return true;
  }

  lemma AssignmentsPermuted(a: seq<RoleAssignment>, b: seq<RoleAssignment>, t: Topology)
    requires multiset(a) == multiset(b) && AssignmentsOk(a, t)
    ensures AssignmentsOk(b, t)
  {
    hide AssignmentOk;
    Sorting.SameElements(a, b);
    Sorting.DistinctPermuted(a, b, AssignmentObjectID);
    Sorting.DistinctPermuted(a, b, Binding);
  }
}
