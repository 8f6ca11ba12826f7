/** What a node has behind it in each state: the evidence of every entry, over
    every run of accepted transitions (internal/nodelifecycle/lifecycle.go). */
module LifecycleRuns {
  import opened Lifecycle
  import opened Metadata
  import opened Options
  import Seqs
  import Sorting
  import Text

  /** The `i`-th transition of the run enters a state out of another with these checks passed. */
  predicate Passed(requests: seq<Request>, i: nat, c: Check)
  {
    i < |requests| && c in requests[i].passed
  }

  /** A version of a node by itself: a state entered between its creation and its
      last update, with a reason exactly where something went wrong or ended. */
  predicate Stands(n: Node)
  {
    && Valid(n.metadata) && !n.state.UnknownState? && n.stateChangedAt != 0
    && n.metadata.createdAt <= n.stateChangedAt && n.stateChangedAt <= n.metadata.updatedAt
    && (n.state.Degraded? || n.state.Offline? || n.state.Recovering? || n.state.Retired? <==> n.reason != "")
    && Text.Trim(n.reason) == n.reason && |n.reason| <= 512 && forall i | 0 <= i < |n.reason| :: !Text.IsControl(n.reason[i])
  }

  lemma NodeIff(n: Node)
    ensures NodeOk(n) <==> Stands(n)
  {
    hide Valid;
    hide Text.Trim;
    hide Text.IsControl;
    if NodeOk(n) {
      forall i | 0 <= i < |n.reason| ensures !Text.IsControl(n.reason[i]) { assert n.reason[i] in n.reason; }
    }
  }

  /** Every version of a run stands, the first one just discovered. */
  lemma VersionsStand(nodes: seq<Node>, requests: seq<Request>, i: nat)
    requires Run(nodes, requests) && i <= |requests|
    ensures |nodes| == |requests| + 1 && Stands(nodes[i])
    ensures nodes[0].state.Discovered? && nodes[0].metadata.generation == 1
    ensures nodes[0].metadata.createdAt == nodes[0].metadata.updatedAt == nodes[0].stateChangedAt
  {
    assert InitialOk(nodes[0]);
    hide NodeOk;
    hide CheckTransition;
    NodeIff(nodes[i]);
    if i > 0 {
      LawfulIff(nodes[i - 1], nodes[i], requests[i - 1]);
    }
  }

  lemma StepLawful(nodes: seq<Node>, requests: seq<Request>, i: nat)
    requires Run(nodes, requests) && i < |requests|
    ensures |nodes| == |requests| + 1 && Lawful(nodes[i], nodes[i + 1], requests[i])
  {
    hide CheckTransition;
    hide Lawful;
    LawfulIff(nodes[i], nodes[i + 1], requests[i]);
  }

  lemma StepProves(nodes: seq<Node>, requests: seq<Request>, i: nat)
    requires Run(nodes, requests) && i < |requests|
    ensures |nodes| == |requests| + 1 && MayEnter(nodes[i].state, nodes[i + 1].state)
    ensures forall c | c in Needed(nodes[i].state, nodes[i + 1].state) :: Passed(requests, i, c)
    ensures requests[i].kind.Desired? <==> IsIntent(nodes[i].state, nodes[i + 1].state)
  {
    hide Run;
    hide MayEnter;
    hide Needed;
    hide IsIntent;
    hide NodeOk;
    hide Names;
    StepLawful(nodes, requests, i);
  }

  /** Every entry into service has passed readiness; out of enrolment the identity
      was verified, out of draining, maintenance or an update scheduling is enabled
      again, an update was verified, a drain was cancelled and a recovery verified. */
  lemma ReadyIsEarned(nodes: seq<Node>, requests: seq<Request>, i: nat)
    requires Run(nodes, requests) && i < |requests| && |nodes| == |requests| + 1 && nodes[i + 1].state.Ready?
    ensures Passed(requests, i, ReadinessPassed)
    ensures nodes[i].state.Enrolling? ==> Passed(requests, i, IdentityVerified)
    ensures nodes[i].state.Draining? || nodes[i].state.Maintenance? || nodes[i].state.Updating? ==>
              Passed(requests, i, SchedulingEnabled)
    ensures nodes[i].state.Draining? ==> Passed(requests, i, OperationCancelled)
    ensures nodes[i].state.Updating? ==> Passed(requests, i, UpdateVerified)
    ensures nodes[i].state.Recovering? ==> Passed(requests, i, RecoveryVerified)
  {
    hide Run;
    hide Passed;
    hide MayEnter;
    hide IsIntent;
    StepProves(nodes, requests, i);
  }

  /** Scheduling was disabled and the preflight passed before any drain; nothing is
      updated, replaced or removed without approval and its own checks, and only out
      of maintenance. */
  lemma WorkIsApproved(nodes: seq<Node>, requests: seq<Request>, i: nat)
    requires Run(nodes, requests) && i < |requests| && |nodes| == |requests| + 1
    ensures nodes[i + 1].state.Draining? ==>
              Passed(requests, i, SchedulingDisabled) && Passed(requests, i, MaintenancePreflightPassed)
    ensures nodes[i + 1].state.Updating? || nodes[i + 1].state.Replacing? || nodes[i + 1].state.Removing? ==>
              nodes[i].state.Maintenance? && Passed(requests, i, OperationApproved) && requests[i].kind.Desired?
    ensures nodes[i + 1].state.Updating? ==> Passed(requests, i, MaintenancePreflightPassed)
    ensures nodes[i + 1].state.Replacing? ==>
              Passed(requests, i, ReplacementNodeReady) && Passed(requests, i, StateSynchronized)
    ensures nodes[i + 1].state.Removing? ==>
              && Passed(requests, i, RemovalApproved) && Passed(requests, i, DrainComplete) && Passed(requests, i, NoActiveJobs)
              && Passed(requests, i, NoActivePlacements) && Passed(requests, i, StatefulWorkloadsSafe)
    ensures nodes[i + 1].state.Maintenance? && (nodes[i].state.Replacing? || nodes[i].state.Removing?) ==>
              Passed(requests, i, OperationCancelled) && Passed(requests, i, RollbackVerified)
    ensures nodes[i + 1].state.Maintenance? && nodes[i].state.Updating? ==> Passed(requests, i, UpdateVerified)
  {
    hide Run;
    hide Passed;
    StepProves(nodes, requests, i);
  }

  /** A node retires with approval and nothing left on it, or after its replacement
      took over, or after its removal was verified. */
  lemma RetirementIsProved(nodes: seq<Node>, requests: seq<Request>, i: nat)
    requires Run(nodes, requests) && i < |requests| && |nodes| == |requests| + 1 && nodes[i + 1].state.Retired?
    ensures nodes[i].state.Replacing? ==>
              && Passed(requests, i, SwitchoverVerified) && Passed(requests, i, ReplacementHealthVerified)
              && Passed(requests, i, ReplacementNodeReady) && Passed(requests, i, StateSynchronized)
    ensures nodes[i].state.Removing? ==> Passed(requests, i, RemovalVerified) && Passed(requests, i, RetirementApproved)
    ensures !nodes[i].state.Replacing? && !nodes[i].state.Removing? ==>
              Passed(requests, i, RetirementApproved) && Passed(requests, i, NoManagedState) && requests[i].kind.Desired?
  {
    hide Run;
    hide Passed;
    StepProves(nodes, requests, i);
  }

  /** Recovery is started, after an outage only with the identity verified anew. */
  lemma RecoveryIsStarted(nodes: seq<Node>, requests: seq<Request>, i: nat)
    requires Run(nodes, requests) && i < |requests| && |nodes| == |requests| + 1 && nodes[i + 1].state.Recovering?
    ensures Passed(requests, i, RecoveryStarted) && (nodes[i].state.Offline? ==> Passed(requests, i, IdentityVerified))
  {
    hide Run;
    hide Passed;
    hide MayEnter;
    StepProves(nodes, requests, i);
  }

  // ----- from discovery on -----

  lemma StartsDiscovered(nodes: seq<Node>, requests: seq<Request>)
    requires Run(nodes, requests)
    ensures |nodes| == |requests| + 1 && nodes[0].state.Discovered?
  {
    hide CheckTransition;
  }

  /** A node is discovered once, at the start, and enrols once, right after. */
  lemma EnrolledOnce(nodes: seq<Node>, requests: seq<Request>, i: nat)
    requires Run(nodes, requests) && i <= |requests| && |nodes| == |requests| + 1
    ensures nodes[i].state.Discovered? <==> i == 0
    ensures nodes[i].state.Enrolling? ==> i == 1
  {
    hide Run;
    StartsDiscovered(nodes, requests);
    if i > 0 {
      StepProves(nodes, requests, i - 1);
      if i > 1 { StepProves(nodes, requests, i - 2); }
    }
  }

  /** Whatever a node becomes after its first transition, it was authorized to enrol
      first, unless that transition retired it. */
  lemma EnrolledFirst(nodes: seq<Node>, requests: seq<Request>, i: nat)
    requires Run(nodes, requests) && 1 <= i <= |requests| && |nodes| == |requests| + 1
    requires !nodes[i].state.Retired? || i > 1
    ensures nodes[1].state.Enrolling? && Passed(requests, 0, EnrollmentAuthorized) && requests[0].kind.Desired?
  {
    hide Run;
    hide Passed;
    StartsDiscovered(nodes, requests);
    StepProves(nodes, requests, 0);
    if i > 1 { StepProves(nodes, requests, 1); }
  }

  // ----- identity -----

  ghost predicate Verified(requests: seq<Request>, n: nat)
  {
    exists j: nat | j < n :: Passed(requests, j, IdentityVerified)
  }

  /** The node went from enrolling straight to degraded before transition `n`. */
  predicate Bypassed(nodes: seq<Node>, n: nat)
  {
    1 < n && 2 < |nodes| && nodes[1].state.Enrolling? && nodes[2].state.Degraded?
  }

  lemma VerifiedLater(requests: seq<Request>, n: nat)
    requires Verified(requests, n)
    ensures Verified(requests, n + 1)
  {
  }

  lemma VerifiedAt(requests: seq<Request>, n: nat)
    requires Passed(requests, n, IdentityVerified)
    ensures Verified(requests, n + 1)
  {
  }

  /** In service or drained, or degraded, recovering or under way after that, a node's
      identity was verified at some earlier transition, unless it degraded while it
      was enrolling. */
  lemma {:induction false} IdentityBeforeService(nodes: seq<Node>, requests: seq<Request>, i: nat)
    requires Run(nodes, requests) && i <= |requests| && |nodes| == |requests| + 1
    requires !nodes[i].state.NotYetManaged() && !nodes[i].state.Offline? && !nodes[i].state.Retired?
    ensures Verified(requests, i) || Bypassed(nodes, i)
  {
    hide Run;
    hide Passed;
    hide Verified;
    StartsDiscovered(nodes, requests);
    StepProves(nodes, requests, i - 1);
    var from := nodes[i - 1].state;
    if from.Enrolling? {
      EnrolledOnce(nodes, requests, i - 1);
      if nodes[i].state.Ready? { VerifiedAt(requests, i - 1); }
    } else if from.Offline? {
      VerifiedAt(requests, i - 1);
    } else {
      IdentityBeforeService(nodes, requests, i - 1);
      if Verified(requests, i - 1) { VerifiedLater(requests, i - 1); }
    }
  }

  /** The transitions that ask for a verified identity. */
  predicate AsksIdentity(nodes: seq<Node>, j: nat)
  {
    && j + 1 < |nodes|
    && (|| (nodes[j].state.Enrolling? && nodes[j + 1].state.Ready?)
        || (nodes[j].state.Offline? && nodes[j + 1].state.Recovering?))
  }

  function PickOther(c: Check): Option<Check> { if c.IdentityVerified? then None else Some(c) }

  /** The same checks without the one for the identity. */
  function Others(passed: seq<Check>): seq<Check>
  {
    Seqs.Collect(PickOther, passed)
  }

  function Unverified(requests: seq<Request>): (r: seq<Request>)
    ensures |r| == |requests|
  {
    seq(|requests|, i requires 0 <= i < |requests| => requests[i].(passed := Others(requests[i].passed)))
  }

  lemma OthersProve(passed: seq<Check>, needed: set<Check>)
    requires Proves(passed, needed) && IdentityVerified !in needed
    ensures Proves(Others(passed), needed) && IdentityVerified !in Others(passed)
  {
    Seqs.Collected(PickOther, passed);
    assert Sorting.DistinctKeys(passed, CheckItself);
    forall x | PickOther(x).Some? ensures CheckItself(PickOther(x).value) == CheckItself(x) {}
    Seqs.CollectDistinct(PickOther, passed, CheckItself, CheckItself);
    forall c | c in Others(passed) ensures !c.UnknownCheck? && !c.IdentityVerified? {
      var x :| x in passed && PickOther(x) == Some(c);
    }
    forall c | c in needed ensures c in Others(passed) { assert PickOther(c) == Some(c); }
    forall i, j | 0 <= i < j < |Others(passed)| ensures Others(passed)[i] != Others(passed)[j] {
      assert CheckItself(Others(passed)[i]) != CheckItself(Others(passed)[j]);
    }
  }

  lemma NeedsIdentity(from: State, to: State)
    requires IdentityVerified in Needed(from, to)
    ensures (from.Enrolling? && to.Ready?) || (from.Offline? && to.Recovering?)
  {
  }

  lemma UnverifiedStep(current: Node, next: Node, r: Request)
    requires Lawful(current, next, r)
    requires !(current.state.Enrolling? && next.state.Ready?) && !(current.state.Offline? && next.state.Recovering?)
    ensures Lawful(current, next, r.(passed := Others(r.passed))) && IdentityVerified !in Others(r.passed)
  {
    hide Needed;
    hide Others;
    hide Proves;
    hide NodeOk;
    hide MayEnter;
    hide IsIntent;
    hide Names;
    hide Continues;
    if IdentityVerified in Needed(current.state, next.state) { NeedsIdentity(current.state, next.state); }
    OthersProve(r.passed, Needed(current.state, next.state));
  }

  lemma UnverifiedRun(nodes: seq<Node>, requests: seq<Request>)
    requires Run(nodes, requests) && forall j: nat | j < |requests| :: !AsksIdentity(nodes, j)
    ensures Run(nodes, Unverified(requests)) && !Verified(Unverified(requests), |requests|)
  {
    StartsDiscovered(nodes, requests);
    forall i: nat | i < |requests|
      ensures CheckTransition(nodes[i], nodes[i + 1], Unverified(requests)[i]).None?
      ensures !Passed(Unverified(requests), i, IdentityVerified)
    {
      hide Run;
      hide CheckTransition;
      hide Lawful;
      hide Others;
      StepLawful(nodes, requests, i);
      assert !AsksIdentity(nodes, i);
      UnverifiedStep(nodes[i], nodes[i + 1], requests[i]);
      LawfulIff(nodes[i], nodes[i + 1], Unverified(requests)[i]);
    }
    hide CheckTransition;
    hide Unverified;
  }

  /** Along these states the identity is verified whatever evidence comes exactly
      when some transition leads from enrolling to ready or from offline to
      recovering. */
  lemma IdentityVerifiedIff(nodes: seq<Node>, requests: seq<Request>)
    requires Run(nodes, requests)
    ensures (forall other | Run(nodes, other) :: Verified(other, |other|)) <==>
            exists j: nat | j < |requests| :: AsksIdentity(nodes, j)
  {
    hide Run;
    hide Verified;
    hide Passed;
    hide Unverified;
    StartsDiscovered(nodes, requests);
    if j: nat :| j < |requests| && AsksIdentity(nodes, j) {
      forall other | Run(nodes, other) ensures Verified(other, |other|) {
        StartsDiscovered(nodes, other);
        StepProves(nodes, other, j);
        IdentityKnown(other, j);
      }
    } else {
      UnverifiedRun(nodes, requests);
    }
  }

  lemma IdentityKnown(requests: seq<Request>, j: nat)
    requires Passed(requests, j, IdentityVerified)
    ensures Verified(requests, |requests|)
  {
  }

  // ----- a node in service whose identity nobody verified -----

  function Version(state: State, generation: uint64, version: string, at: Time, reason: string): Node
  {
    Node(ObjectMetadata("n", "g", "g", generation, version, 1, at), state, at, reason)
  }

  function Ask(to: State, kind: TransitionType, reason: string, version: string, passed: seq<Check>): Request
  {
    Request(to, kind, reason, Precondition("n", version, None), passed)
  }

  lemma VersionOk(state: State, generation: uint64, version: string, at: Time, reason: string)
    requires state.Valid() && generation != 0 && version in {"1", "2", "3", "4"} && at >= 1
    requires reason == if state.NeedsReason() then "r" else ""
    ensures NodeOk(Version(state, generation, version, at, reason))
  {
    assert Text.Trim(version) == version && Text.Trim("r") == "r" && Text.Trim("") == "";
    assert version[1..] == [] && Text.ByteLength(version[1..]) == 0;
    assert forall c | c in version :: '1' <= c <= '4';
  }

  lemma Enrols(d: Node, e: Node, r: Request)
    requires d == Version(Discovered, 1, "1", 1, "") && e == Version(Enrolling, 2, "2", 2, "")
    requires r == Ask(Enrolling, Desired, "", "1", [EnrollmentAuthorized])
    ensures CheckTransition(d, e, r).None? && InitialOk(d)
  {
    VersionOk(Discovered, 1, "1", 1, "");
    VersionOk(Enrolling, 2, "2", 2, "");
    hide NodeOk;
    assert "1"[0] == '1' && "2"[0] == '2';
    LawfulIff(d, e, r);
    hide CheckTransition;
  }

  lemma Degrades(e: Node, g: Node, r: Request)
    requires e == Version(Enrolling, 2, "2", 2, "") && g == Version(Degraded, 2, "3", 3, "r")
    requires r == Ask(Degraded, Observation, "r", "2", [])
    ensures CheckTransition(e, g, r).None?
  {
    VersionOk(Enrolling, 2, "2", 2, "");
    VersionOk(Degraded, 2, "3", 3, "r");
    hide NodeOk;
    assert "2"[0] == '2' && "3"[0] == '3';
    LawfulIff(e, g, r);
    hide CheckTransition;
  }

  lemma Readies(g: Node, n: Node, r: Request)
    requires g == Version(Degraded, 2, "3", 3, "r") && n == Version(Ready, 2, "4", 4, "")
    requires r == Ask(Ready, Observation, "", "3", [ReadinessPassed])
    ensures CheckTransition(g, n, r).None?
  {
    VersionOk(Degraded, 2, "3", 3, "r");
    VersionOk(Ready, 2, "4", 4, "");
    hide NodeOk;
    assert "3"[0] == '3' && "4"[0] == '4';
    LawfulIff(g, n, r);
    hide CheckTransition;
  }

  /** Discovered, enrolled, degraded and ready: in service without a verified identity. */
  lemma UnverifiedService() returns (nodes: seq<Node>, requests: seq<Request>)
    ensures Run(nodes, requests) && |requests| == 3 && |nodes| == 4 && nodes[3].state.Ready? && !Verified(requests, 3)
  {
    hide CheckTransition;
    hide InitialOk;
    var d, e := Version(Discovered, 1, "1", 1, ""), Version(Enrolling, 2, "2", 2, "");
    var g, n := Version(Degraded, 2, "3", 3, "r"), Version(Ready, 2, "4", 4, "");
    nodes := [d, e, g, n];
    requests := [Ask(Enrolling, Desired, "", "1", [EnrollmentAuthorized]), Ask(Degraded, Observation, "r", "2", []),
                 Ask(Ready, Observation, "", "3", [ReadinessPassed])];
    Enrols(d, e, requests[0]);
    Degrades(e, g, requests[1]);
    Readies(g, n, requests[2]);
  }
}
