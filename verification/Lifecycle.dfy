/** The node lifecycle: the table of allowed transitions and what every run of
    accepted transitions keeps (internal/nodelifecycle/lifecycle.go). */
module Lifecycle {
  import opened Metadata
  import opened Options
  import Sorting
  import Text

  datatype State =
    | Discovered | Enrolling | Ready | Degraded | Draining | Maintenance | Updating | Replacing | Removing | Offline
    | Recovering | Retired | UnknownState(text: string)
  {
    predicate Valid() { !UnknownState? }
    predicate NeedsReason() { Degraded? || Offline? || Recovering? || Retired? }

    /** States a node only enters after it was drained. */
    predicate Drained() { Maintenance? || Updating? || Replacing? || Removing? }

    predicate NotYetManaged() { Discovered? || Enrolling? }
  }

  datatype TransitionType = Desired | Observation | UnknownType(text: string)

  datatype Check =
    | EnrollmentAuthorized | IdentityVerified | ReadinessPassed | MaintenancePreflightPassed | SchedulingDisabled
    | SchedulingEnabled | DrainComplete | NoActiveJobs | NoActivePlacements | StatefulWorkloadsSafe
    | OperationApproved | OperationCancelled | RollbackVerified | UpdateVerified | ReplacementNodeReady
    | StateSynchronized | SwitchoverVerified | ReplacementHealthVerified | RemovalApproved | RemovalVerified
    | RecoveryStarted | RecoveryVerified | RetirementApproved | NoManagedState | UnknownCheck(text: string)

  datatype Node = Node(metadata: ObjectMetadata, state: State, stateChangedAt: Time, reason: string)

  datatype Request = Request(to: State, kind: TransitionType, reason: string, precondition: Precondition, passed: seq<Check>)

  datatype Rule = Rule(kind: TransitionType, required: seq<Check>)

  // ----- the table -----

  const DRAIN_CHECKS: seq<Check> :=
    [MaintenancePreflightPassed, SchedulingDisabled, DrainComplete, NoActiveJobs, NoActivePlacements, StatefulWorkloadsSafe]

  function Observed(required: seq<Check>): Option<Rule> { Some(Rule(Observation, required)) }
  function Intended(required: seq<Check>): Option<Rule> { Some(Rule(Desired, required)) }

  function RuleFor(from: State, to: State): Option<Rule>
  {
    match (from, to)
    case (Discovered, Enrolling) => Intended([EnrollmentAuthorized])
    case (Discovered, Retired) => Intended([RetirementApproved, NoManagedState])
    case (Enrolling, Ready) => Observed([IdentityVerified, ReadinessPassed])
    case (Enrolling, Degraded) => Observed([])
    case (Enrolling, Offline) => Observed([])
    case (Enrolling, Retired) => Intended([RetirementApproved, NoManagedState])
    case (Ready, Degraded) => Observed([])
    case (Ready, Draining) => Intended([MaintenancePreflightPassed, SchedulingDisabled])
    case (Ready, Offline) => Observed([])
    case (Degraded, Ready) => Observed([ReadinessPassed])
    case (Degraded, Draining) => Intended([MaintenancePreflightPassed, SchedulingDisabled])
    case (Degraded, Offline) => Observed([])
    case (Degraded, Recovering) => Observed([RecoveryStarted])
    case (Draining, Maintenance) => Observed(DRAIN_CHECKS)
    case (Draining, Ready) => Intended([OperationCancelled, SchedulingEnabled, ReadinessPassed])
    case (Draining, Degraded) => Observed([])
    case (Draining, Offline) => Observed([])
    case (Maintenance, Ready) => Intended([SchedulingEnabled, ReadinessPassed])
    case (Maintenance, Updating) => Intended([OperationApproved, MaintenancePreflightPassed])
    case (Maintenance, Replacing) => Intended([OperationApproved, ReplacementNodeReady, StateSynchronized])
    case (Maintenance, Removing) => Intended([OperationApproved, RemovalApproved] + DRAIN_CHECKS)
    case (Maintenance, Degraded) => Observed([])
    case (Maintenance, Offline) => Observed([])
    case (Updating, Ready) => Observed([UpdateVerified, SchedulingEnabled, ReadinessPassed])
    case (Updating, Maintenance) => Observed([UpdateVerified])
    case (Updating, Degraded) => Observed([])
    case (Updating, Offline) => Observed([])
    case (Replacing, Retired) =>
      Observed([ReplacementNodeReady, StateSynchronized, SwitchoverVerified, ReplacementHealthVerified])
    case (Replacing, Maintenance) => Intended([OperationCancelled, RollbackVerified])
    case (Replacing, Degraded) => Observed([])
    case (Replacing, Offline) => Observed([])
    case (Removing, Retired) => Observed([RemovalVerified, RetirementApproved])
    case (Removing, Maintenance) => Intended([OperationCancelled, RollbackVerified])
    case (Removing, Degraded) => Observed([])
    case (Removing, Offline) => Observed([])
    case (Offline, Recovering) => Observed([IdentityVerified, RecoveryStarted])
    case (Offline, Retired) => Intended([RetirementApproved, NoManagedState, StatefulWorkloadsSafe])
    case (Recovering, Ready) => Observed([RecoveryVerified, ReadinessPassed])
    case (Recovering, Degraded) => Observed([])
    case (Recovering, Offline) => Observed([])
    case (Recovering, Draining) => Intended([MaintenancePreflightPassed, SchedulingDisabled])
    case _ => None
  }

  // ----- the table, read by the state that is entered -----

  /** The states from which each state may be entered. */
  predicate MayEnter(from: State, to: State)
  {
    match to
    case Discovered => false
    case Enrolling => from.Discovered?
    case Ready => from.Enrolling? || from.Degraded? || from.Draining? || from.Maintenance? || from.Updating? || from.Recovering?
    case Degraded => from.Valid() && !from.Discovered? && !from.Degraded? && !from.Offline? && !from.Retired?
    case Draining => from.Ready? || from.Degraded? || from.Recovering?
    case Maintenance => from.Draining? || from.Updating? || from.Replacing? || from.Removing?
    case Updating => from.Maintenance?
    case Replacing => from.Maintenance?
    case Removing => from.Maintenance?
    case Offline => from.Valid() && !from.Discovered? && !from.Offline? && !from.Retired?
    case Recovering => from.Degraded? || from.Offline?
    case Retired => from.NotYetManaged() || from.Replacing? || from.Removing? || from.Offline?
    case UnknownState(_) => false
  }

  /** Entries an operator decides on; all others are observed. */
  predicate IsIntent(from: State, to: State)
  {
    || to.Enrolling? || to.Draining? || to.Updating? || to.Replacing? || to.Removing?
    || (to.Ready? && (from.Draining? || from.Maintenance?))
    || (to.Maintenance? && (from.Replacing? || from.Removing?))
    || (to.Retired? && (from.NotYetManaged() || from.Offline?))
  }

  /** What must have been checked for each entry. */
  function Needed(from: State, to: State): set<Check>
  {
    match to
    case Enrolling => {EnrollmentAuthorized}
    case Ready =>
      {ReadinessPassed} + (if from.Enrolling? then {IdentityVerified} else {}) +
      (if from.Draining? || from.Maintenance? || from.Updating? then {SchedulingEnabled} else {}) +
      (if from.Draining? then {OperationCancelled} else {}) + (if from.Updating? then {UpdateVerified} else {}) +
      (if from.Recovering? then {RecoveryVerified} else {})
    case Draining => {MaintenancePreflightPassed, SchedulingDisabled}
    case Maintenance =>
      if from.Draining? then
        {MaintenancePreflightPassed, SchedulingDisabled, DrainComplete, NoActiveJobs, NoActivePlacements, StatefulWorkloadsSafe}
      else if from.Updating? then {UpdateVerified}
      else {OperationCancelled, RollbackVerified}
    case Updating => {OperationApproved, MaintenancePreflightPassed}
    case Replacing => {OperationApproved, ReplacementNodeReady, StateSynchronized}
    case Removing =>
      {OperationApproved, RemovalApproved, MaintenancePreflightPassed, SchedulingDisabled, DrainComplete, NoActiveJobs,
       NoActivePlacements, StatefulWorkloadsSafe}
    case Recovering => {RecoveryStarted} + if from.Offline? then {IdentityVerified} else {}
    case Retired =>
      if from.Replacing? then {ReplacementNodeReady, StateSynchronized, SwitchoverVerified, ReplacementHealthVerified}
      else if from.Removing? then {RemovalVerified, RetirementApproved}
      else {RetirementApproved, NoManagedState} + if from.Offline? then {StatefulWorkloadsSafe} else {}
    case _ => {}
  }

  function ChecksOf(required: seq<Check>): set<Check> { set c | c in required }

  lemma TableAllows(from: State, to: State)
    ensures RuleFor(from, to).Some? <==> MayEnter(from, to)
  {
  }

  lemma TableKinds(from: State, to: State)
    requires MayEnter(from, to)
    ensures RuleFor(from, to).Some? && RuleFor(from, to).value.kind == if IsIntent(from, to) then Desired else Observation
  {
  }

  lemma TableAsks(from: State, to: State)
    requires MayEnter(from, to)
    ensures RuleFor(from, to).Some? && ChecksOf(RuleFor(from, to).value.required) == Needed(from, to)
  {
  }

  // ----- validation -----

  predicate ReasonOk(state: State, reason: string)
  {
    && Text.Trim(reason) == reason && |reason| <= 512 && (forall c | c in reason :: !Text.IsControl(c))
    && (state.NeedsReason() <==> reason != "")
  }

  predicate NodeOk(n: Node)
  {
    && Valid(n.metadata) && n.state.Valid() && n.stateChangedAt != ZERO_TIME
    && n.metadata.createdAt <= n.stateChangedAt <= n.metadata.updatedAt && ReasonOk(n.state, n.reason)
  }

  predicate InitialOk(n: Node)
  {
    && NodeOk(n) && n.state.Discovered? && n.metadata.generation == 1
    && n.metadata.createdAt == n.metadata.updatedAt == n.stateChangedAt
  }

  function CheckItself(c: Check): Check { c }

  /** Known checks, none twice, and all that the rule asks for. */
  ghost predicate EvidenceOk(passed: seq<Check>, required: seq<Check>)
  {
    && (forall c | c in passed :: !c.UnknownCheck?) && Sorting.DistinctKeys(passed, CheckItself)
    && forall c | c in required :: c in passed
  }

  method ValidateEvidence(passed: seq<Check>, required: seq<Check>) returns (ok: bool)
    ensures ok <==> EvidenceOk(passed, required)
  {
    var seen: set<Check> := {};
    assert Sorting.SeenKeys(seen, passed[..0], CheckItself);
    for k := 0 to |passed|
      invariant forall c | c in passed[..k] :: !c.UnknownCheck?
      invariant Sorting.SeenKeys(seen, passed[..k], CheckItself)
    {
      hide Sorting.SeenKeys;
      hide Sorting.DistinctKeys;
      assert passed[k] in passed && passed[..k + 1] == passed[..k] + [passed[k]];
      Sorting.SeenNext(seen, passed, CheckItself, k);
      if passed[k].UnknownCheck? || passed[k] in seen { return false; }
      seen := seen + {passed[k]};
    }
    assert passed[..|passed|] == passed;
    SeenAre(seen, passed);
    for k := 0 to |required|
      invariant forall c | c in required[..k] :: c in passed
    {
      assert required[k] in required && required[..k + 1] == required[..k] + [required[k]];
      if required[k] !in seen { return false; }
    }
    assert required[..|required|] == required;
    return true;
  }

  lemma SeenAre(seen: set<Check>, passed: seq<Check>)
    requires Sorting.SeenKeys(seen, passed, CheckItself)
    ensures Sorting.DistinctKeys(passed, CheckItself) && forall c :: c in seen <==> c in passed
  {
  }

  datatype Refusal = InvalidLifecycle | Transition | Guard(error: Error) | InvalidEvidence

  /** Why a transition is refused, in the order of the checks; `None` if it stands. */
  ghost function CheckTransition(current: Node, next: Node, r: Request): Option<Refusal>
  {
    if !NodeOk(current) || !NodeOk(next) then Some(InvalidLifecycle)
    else if !r.to.Valid() || r.kind.UnknownType? || r.to != next.state || r.reason != next.reason then Some(Transition)
    else
      var guard := CheckPrecondition(r.precondition, current.metadata);
      if guard.Some? then Some(Guard(guard.value))
      else
        var rule := RuleFor(current.state, next.state);
        if rule.None? || r.kind != rule.value.kind || current.metadata.scopeID != next.metadata.scopeID ||
           current.metadata.ownerScope != next.metadata.ownerScope || next.stateChangedAt != next.metadata.updatedAt ||
           next.stateChangedAt <= current.stateChangedAt then Some(Transition)
        else if !EvidenceOk(r.passed, rule.value.required) then Some(InvalidEvidence)
        else if !Succeeds(current.metadata, next.metadata, r.kind.Desired?) then Some(Transition)
        else None
  }

  /** The successor belongs to the same node, is newer, and counts decisions. */
  predicate Continues(current: Node, next: Node, decided: bool)
  {
    && next.metadata.objectID == current.metadata.objectID && next.metadata.createdAt == current.metadata.createdAt
    && next.metadata.scopeID == current.metadata.scopeID && next.metadata.ownerScope == current.metadata.ownerScope
    && next.metadata.resourceVersion != current.metadata.resourceVersion
    && next.metadata.generation as int == current.metadata.generation + (if decided then 1 else 0)
    && current.metadata.updatedAt <= next.metadata.updatedAt
    && next.stateChangedAt == next.metadata.updatedAt && next.stateChangedAt > current.stateChangedAt
  }

  /** The guard names the version it was made for. */
  predicate Names(p: Precondition, current: Node)
  {
    && p.objectID == current.metadata.objectID && p.resourceVersion == current.metadata.resourceVersion
    && (p.generation.Some? ==> p.generation.value == current.metadata.generation)
  }

  /** Known checks, each once, and all that are needed. */
  ghost predicate Proves(passed: seq<Check>, needed: set<Check>)
  {
    && (forall c | c in passed :: !c.UnknownCheck?) && (forall i, j | 0 <= i < j < |passed| :: passed[i] != passed[j])
    && forall c | c in needed :: c in passed
  }

  /** Everything a transition has to meet. */
  ghost predicate Lawful(current: Node, next: Node, r: Request)
  {
    && NodeOk(current) && NodeOk(next) && r.to == next.state && r.reason == next.reason && Names(r.precondition, current)
    && MayEnter(current.state, next.state)
    && r.kind == (if IsIntent(current.state, next.state) then Desired else Observation)
    && Proves(r.passed, Needed(current.state, next.state))
    && Continues(current, next, r.kind.Desired?)
  }

  lemma GuardIff(p: Precondition, current: Node)
    requires NodeOk(current)
    ensures CheckPrecondition(p, current.metadata).None? <==> Names(p, current)
  {
    hide ReasonOk;
    hide Text.IsOpaqueToken;
    assert Text.IsOpaqueToken(current.metadata.resourceVersion) && current.metadata.resourceVersion != "" by {
      TokenNotEmpty(current.metadata.resourceVersion);
    }
    assert IsIdentifier(current.metadata.objectID);
    assert current.metadata.objectID != "";
  }

  lemma TokenNotEmpty(s: string)
    requires Text.IsOpaqueToken(s)
    ensures s != ""
  {
  }

  lemma ProvesIff(passed: seq<Check>, required: seq<Check>)
    ensures EvidenceOk(passed, required) <==> Proves(passed, ChecksOf(required))
  {
  }

  lemma ContinuesIff(current: Node, next: Node, decided: bool)
    requires NodeOk(current) && NodeOk(next)
    requires current.metadata.scopeID == next.metadata.scopeID && current.metadata.ownerScope == next.metadata.ownerScope
    requires next.stateChangedAt == next.metadata.updatedAt && next.stateChangedAt > current.stateChangedAt
    ensures Succeeds(current.metadata, next.metadata, decided) <==> Continues(current, next, decided)
  {
    hide ReasonOk;
    hide Valid;
  }

  lemma NodeStates(n: Node)
    requires NodeOk(n)
    ensures n.state.Valid()
  {
    hide ReasonOk;
    hide Valid;
  }

  /** Accepted are exactly the lawful transitions. */
  lemma LawfulIff(current: Node, next: Node, r: Request)
    ensures CheckTransition(current, next, r).None? <==> Lawful(current, next, r)
  {
    hide NodeOk;
    hide RuleFor;
    hide MayEnter;
    hide IsIntent;
    hide Needed;
    hide EvidenceOk;
    hide Proves;
    hide Names;
    hide CheckPrecondition;
    hide Succeeds;
    hide ChecksOf;
    if NodeOk(current) && NodeOk(next) {
      NodeStates(next);
      GuardIff(r.precondition, current);
      TableAllows(current.state, next.state);
      if MayEnter(current.state, next.state) {
        TableKinds(current.state, next.state);
        TableAsks(current.state, next.state);
        ProvesIff(r.passed, RuleFor(current.state, next.state).value.required);
        if current.metadata.scopeID == next.metadata.scopeID && current.metadata.ownerScope == next.metadata.ownerScope &&
           next.stateChangedAt == next.metadata.updatedAt && next.stateChangedAt > current.stateChangedAt {
          ContinuesIff(current, next, r.kind.Desired?);
        }
      }
    }
  }

  method ValidateTransition(current: Node, next: Node, r: Request) returns (refusal: Option<Refusal>)
    ensures refusal == CheckTransition(current, next, r)
    ensures refusal.None? <==> Lawful(current, next, r)
  {
    LawfulIff(current, next, r);
    hide Lawful;
    hide NodeOk;
    hide RuleFor;
    hide Succeeds;
    hide CheckPrecondition;
    hide EvidenceOk;
    if !NodeOk(current) || !NodeOk(next) { return Some(InvalidLifecycle); }
    if !r.to.Valid() || r.kind.UnknownType? || r.to != next.state || r.reason != next.reason { return Some(Transition); }
    var guard := CheckPrecondition(r.precondition, current.metadata);
    if guard.Some? { return Some(Guard(guard.value)); }
    var rule := RuleFor(current.state, next.state);
    if rule.None? || r.kind != rule.value.kind { return Some(Transition); }
    if current.metadata.scopeID != next.metadata.scopeID || current.metadata.ownerScope != next.metadata.ownerScope {
      return Some(Transition);
    }
    if next.stateChangedAt != next.metadata.updatedAt || next.stateChangedAt <= current.stateChangedAt {
      return Some(Transition);
    }
    var evidenceOk := ValidateEvidence(r.passed, rule.value.required);
    if !evidenceOk { return Some(InvalidEvidence); }
    return if Succeeds(current.metadata, next.metadata, r.kind.Desired?) then None else Some(Transition);
  }

  // ----- runs -----

  /** Versions of one node from its discovery on, each accepted after the one before. */
  ghost predicate Run(nodes: seq<Node>, requests: seq<Request>)
  {
    && |nodes| == |requests| + 1 && InitialOk(nodes[0])
    && forall i | 0 <= i < |requests| :: CheckTransition(nodes[i], nodes[i + 1], requests[i]).None?
  }

  /** What one accepted transition says. */
  ghost predicate Steps(current: Node, next: Node, r: Request)
  {
    && RuleFor(current.state, next.state).Some? && r.kind == RuleFor(current.state, next.state).value.kind
    && EvidenceOk(r.passed, RuleFor(current.state, next.state).value.required)
    && next.stateChangedAt > current.stateChangedAt
    && next.metadata.objectID == current.metadata.objectID && next.metadata.createdAt == current.metadata.createdAt
    && next.metadata.scopeID == current.metadata.scopeID && next.metadata.ownerScope == current.metadata.ownerScope
    && next.metadata.resourceVersion != current.metadata.resourceVersion
    && next.metadata.generation as int == current.metadata.generation + if r.kind.Desired? then 1 else 0
  }

  lemma StepOf(nodes: seq<Node>, requests: seq<Request>, i: nat)
    requires Run(nodes, requests) && i < |requests|
    ensures Steps(nodes[i], nodes[i + 1], requests[i])
  {
    hide NodeOk;
    hide RuleFor;
    hide EvidenceOk;
    hide CheckPrecondition;
    assert CheckTransition(nodes[i], nodes[i + 1], requests[i]).None?;
  }

  lemma Shape(nodes: seq<Node>, requests: seq<Request>)
    requires Run(nodes, requests)
    ensures |nodes| == |requests| + 1 && nodes[0].state.Discovered? && nodes[0].metadata.generation == 1
  {
    hide CheckTransition;
  }

  /** The time of the last change of state strictly increases. */
  lemma {:induction false} TimeAdvances(nodes: seq<Node>, requests: seq<Request>, i: nat, j: nat)
    requires Run(nodes, requests) && i < j <= |requests|
    ensures |nodes| == |requests| + 1 && nodes[i].stateChangedAt < nodes[j].stateChangedAt
  {
    hide Run;
    Shape(nodes, requests);
    hide RuleFor;
    hide EvidenceOk;
    StepOf(nodes, requests, j - 1);
    if i < j - 1 { TimeAdvances(nodes, requests, i, j - 1); }
  }

  function DesiredIn(requests: seq<Request>): nat
  {
    if requests == [] then 0
    else DesiredIn(requests[..|requests| - 1]) + if requests[|requests| - 1].kind.Desired? then 1 else 0
  }

  /** The generation counts the desired transitions; identity and ownership never change. */
  lemma {:induction false} GenerationCounts(nodes: seq<Node>, requests: seq<Request>, n: nat)
    requires Run(nodes, requests) && n <= |requests|
    ensures |nodes| == |requests| + 1 && nodes[n].metadata.generation as int == 1 + DesiredIn(requests[..n])
    ensures nodes[n].metadata.objectID == nodes[0].metadata.objectID && nodes[n].metadata.createdAt == nodes[0].metadata.createdAt
    ensures nodes[n].metadata.scopeID == nodes[0].metadata.scopeID && nodes[n].metadata.ownerScope == nodes[0].metadata.ownerScope
  {
    hide Run;
    Shape(nodes, requests);
    hide RuleFor;
    hide EvidenceOk;
    if n > 0 {
      GenerationCounts(nodes, requests, n - 1);
      StepOf(nodes, requests, n - 1);
      assert requests[..n][..n - 1] == requests[..n - 1];
    }
  }

  /** Nothing follows retirement. */
  lemma RetiredIsFinal(nodes: seq<Node>, requests: seq<Request>, i: nat)
    requires Run(nodes, requests) && i <= |requests|
    ensures |nodes| == |requests| + 1 && (nodes[i].state.Retired? ==> i == |requests|)
  {
    hide Run;
    Shape(nodes, requests);
    if i < |requests| { StepOf(nodes, requests, i); }
  }

  /** Drained at `i`: the last entry into the drained states, at `j`, came from
      draining into maintenance with all six drain checks. */
  ghost predicate EnteredAt(nodes: seq<Node>, requests: seq<Request>, j: nat, i: nat)
    requires |nodes| == |requests| + 1
  {
    && 1 <= j <= i <= |requests| && nodes[j - 1].state.Draining? && nodes[j].state.Maintenance?
    && (forall c | c in DRAIN_CHECKS :: c in requests[j - 1].passed)
    && forall k | j <= k <= i :: nodes[k].state.Drained()
  }

  ghost predicate WasDrained(nodes: seq<Node>, requests: seq<Request>, i: nat)
    requires |nodes| == |requests| + 1
  {
    exists j: nat :: EnteredAt(nodes, requests, j, i)
  }

  lemma DrainRule(current: Node, next: Node, r: Request)
    requires Steps(current, next, r) && next.state.Drained()
    ensures current.state.Drained() ||
            (current.state.Draining? && next.state.Maintenance? && forall c | c in DRAIN_CHECKS :: c in r.passed)
  {
    hide Sorting.DistinctKeys;
  }

  lemma StillDrained(nodes: seq<Node>, requests: seq<Request>, j: nat, i: nat)
    requires |nodes| == |requests| + 1 && 1 <= i <= |requests| && EnteredAt(nodes, requests, j, i - 1) && nodes[i].state.Drained()
    ensures EnteredAt(nodes, requests, j, i)
  {
  }

  lemma {:induction false} DrainedBefore(nodes: seq<Node>, requests: seq<Request>, i: nat) returns (j: nat)
    requires Run(nodes, requests) && i <= |requests| && |nodes| == |requests| + 1 && nodes[i].state.Drained()
    ensures EnteredAt(nodes, requests, j, i)
  {
    hide Run;
    Shape(nodes, requests);
    hide Steps;
    StepOf(nodes, requests, i - 1);
    DrainRule(nodes[i - 1], nodes[i], requests[i - 1]);
    if nodes[i - 1].state.Drained() {
      j := DrainedBefore(nodes, requests, i - 1);
      StillDrained(nodes, requests, j, i);
    } else {
      j := i;
    }
  }

  lemma ManagedRule(current: Node, next: Node, r: Request)
    requires Steps(current, next, r) && !current.state.NotYetManaged()
    ensures !next.state.NotYetManaged()
    ensures next.state.Retired? ==> current.state.Replacing? || current.state.Removing? || current.state.Offline?
  {
    hide EvidenceOk;
  }

  lemma {:induction false} StaysManaged(nodes: seq<Node>, requests: seq<Request>, i: nat, j: nat)
    requires Run(nodes, requests) && i <= j <= |requests| && |nodes| == |requests| + 1 && !nodes[i].state.NotYetManaged()
    ensures !nodes[j].state.NotYetManaged()
  {
    hide Run;
    hide Steps;
    if i < j {
      StaysManaged(nodes, requests, i, j - 1);
      StepOf(nodes, requests, j - 1);
      ManagedRule(nodes[j - 1], nodes[j], requests[j - 1]);
    }
  }

  /** A node that was ever ready retires only out of replacement, removal or an
      outage; and out of an outage only with its workloads safe and no state left. */
  lemma ReadyRetirement(nodes: seq<Node>, requests: seq<Request>, i: nat, n: nat)
    requires Run(nodes, requests) && i < n <= |requests| && |nodes| == |requests| + 1
    requires nodes[i].state.Ready? && nodes[n].state.Retired?
    ensures nodes[n - 1].state.Replacing? || nodes[n - 1].state.Removing? || nodes[n - 1].state.Offline?
    ensures nodes[n - 1].state.Offline? ==>
              NoManagedState in requests[n - 1].passed && StatefulWorkloadsSafe in requests[n - 1].passed
    ensures nodes[n - 1].state.Replacing? || nodes[n - 1].state.Removing? ==>
              WasDrained(nodes, requests, n - 1)
  {
    hide Run;
    hide Steps;
    hide EnteredAt;
    StaysManaged(nodes, requests, i, n - 1);
    StepOf(nodes, requests, n - 1);
    ManagedRule(nodes[n - 1], nodes[n], requests[n - 1]);
    if nodes[n - 1].state.Replacing? || nodes[n - 1].state.Removing? {
      var j := DrainedBefore(nodes, requests, n - 1);
    } else {
      OutageRule(nodes[n - 1], nodes[n], requests[n - 1]);
    }
  }

  lemma OutageRule(current: Node, next: Node, r: Request)
    requires Steps(current, next, r) && current.state.Offline? && next.state.Retired?
    ensures NoManagedState in r.passed && StatefulWorkloadsSafe in r.passed
  {
    hide Sorting.DistinctKeys;
  }
}
