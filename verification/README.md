# A verified model of the control plane's contracts

The control plane keeps a tree of scopes with delegated authority, a repository of
versioned objects, network changes that must prove themselves before they are
committed, and a set of planners. Most of its core is free of I/O: values are
checked, canonicalized, compared, and either accepted whole or refused. This
project models that core in Dafny and proves what it promises over every input,
every run and every reachable state.

What is modelled, by package:

- `internal/corecontracts`: object metadata with compare-and-swap guards, the scope
  tree, role assignments, network zones and interfaces, complete snapshots, mutations,
  and the in-memory repository with idempotency receipts (`Metadata`, `ParentForest`,
  `Topology`, `Roles`, `Network`, `Objects`, `Mutations`, `Repository`,
  `RepositoryRuns`, `RepositoryHistory`, `RepositoryGuarantees`, `RepositoryWrites`,
  `RepositoryAcceptance`, `RepositoryObjects`, `RepositorySnapshot`, `RepositoryCreation`);
- `internal/networkpolicy`: change plans, the change machine, verification freshness
  and the bridge that turns fresh evidence into a machine event (`ChangePlan`,
  `PlanMeaning`, `ChangeMachine`, `ChangeRuns`, `ChangeCommit`, `ChangeLongestRun`,
  `ChangeLedger`, `Verification`, `VerificationPreflight`);
- `internal/market`: the install order of modules (`InstallOrder`);
- `internal/capacity`: the capacity assessment and the workload curve (`Reals`,
  `CapacityPlanner`, `CapacityAssessment`, `CapacityListed`, `CurvePoints`, `WorkloadCurve`,
  `CurveMeaning`);
- `internal/recovery`: backup parent chains (`BackupChains`);
- `internal/inventory`: reconciliation and the device registry (`Inventory`,
  `InventoryMeaning`);
- `internal/placement`: least-loaded placement (`PlacementScores`, `Placement`,
  `PlacementListed`);
- `internal/networktelemetry`: sample windows and aggregates (`Telemetry`,
  `TelemetryAggregates`, `TelemetryMeaning`);
- `internal/nodelifecycle`: the transition table and its runs (`Lifecycle`,
  `LifecycleRuns`).

`Text`, `Options`, `Seqs` and `Sorting` hold what several of these share. Code that
updates variables or fields is modelled by methods, loops and classes proved against
value-level specifications; the lemmas then speak about those specifications, and for
every main operation some say what it does in terms of its raw input, the stored objects
or the history alone.
`dafny verify dfyconfig.toml` checks everything.

## How the source is represented

- A SHA-256 digest of JSON is an injective constructor (`Sha256Of`); text that is no
  digest of anything modelled is `OtherText`. Identities and fingerprints are equal
  exactly when what they were taken of is.
- Instants and durations are integers in nanoseconds, and 0 is Go's zero time.
- `float64` is `real`: the tolerances of the capacity package are kept exactly, IEEE
  rounding, NaN and infinities are not modelled.
- `uint64` arithmetic is unbounded except where wrap-around can matter: generations,
  machine versions and placement scores wrap explicitly.
- Go's `sort` is used through its contract, a sorted permutation, and ranging over a
  map yields every key once in an order nothing may depend on.
- Every locked method is one atomic step. Clock readings, allocated versions,
  cancellation, and the calls other callers get in between are parameters.
- Keys that the source joins with NUL bytes are tuples, except the telemetry series
  key, which is sorted by and kept as text.

## Properties that turned out not to hold as stated

- Estimates on a workload curve do not always rise with the target: the builder calls a
  curve ready although its workloads fall by less than the tolerance.
  `WorkloadCurve.ReadyAnswersRiseIff` gives the exact condition for every ready curve, and
  `WorkloadCurve.DipIsReady` an admissible request that fails it.
- The reported safe capacity is not always the worst case: two nodes closer than the
  tolerance are taken away in the order of their names. `CapacityAssessment.ExactIff` gives
  the exact condition on the nodes, `SeparatedIsExact` the usual sufficient one,
  `OverstatedAtMost` bounds the error, and `NearTieOverstates` is an example.
- A placement score is computed on 64 bits and wraps for amounts above 18446744073709.
  `PlacementScores.ScoreExactIff` and `DominantExactIff` say exactly when it is right,
  `Placement.ChoiceTrueIff` when a plan's choice still is, and `OverflowMisplaces` is an
  admissible request whose plan is not.
- A node in service need not have had its identity verified: it may degrade while it is
  enrolling and become ready from there. `LifecycleRuns.IdentityVerifiedIff` gives the exact
  condition on the states of a run, and `LifecycleRuns.UnverifiedService` is such a run.

## Model

| member | source | states |
|---|---|---|
| InstallOrder.ResolveInstallOrder | internal/market/dependencies.go:16-73 | succeeds exactly when names are valid and distinct, every dependency is known and the graph has no cycle; then every module is listed once after all its dependencies; a reported cycle runs through the module it names, and a reported unknown dependency is one |
| InstallOrder.Resolver.Visit | internal/market/dependencies.go:39-60 | the recursive closure that colours modules and appends to the order is the depth-first search `Explore`, and it terminates by the number of modules not yet entered |
| InstallOrder.ExploreSound | internal/market/dependencies.go:42-60 | from any consistent colouring, in which the modules being visited form a path, a visit keeps the order dependencies-first or has found a cycle through the module it names |
| InstallOrder.ResolutionComplete | internal/market/dependencies.go:62-72 | visiting every module yields an install order of an acyclic graph, or a cycle |
| InstallOrder.OrderExcludesCycles | internal/market/dependencies.go:16-73 | a graph that has an install order has no cycle |
| InstallOrder.GraphIgnoresListing | internal/market/dependencies.go:16-37 | the order in which modules are listed reaches neither the verdict nor the install order |
| InstallOrder.ResolutionMeans | internal/market/dependencies.go:16-73 | in terms of the listed modules: resolution succeeds exactly when every dependency names a listed module and no modules require each other in a ring; its order has each module once, after all it requires; and a reported cycle is a ring that begins at the named module |
| ChangePlan.BuildChangePlan | internal/networkpolicy/change_plan.go:145-196 | builds exactly the well-formed requests, into the canonical plan, which rebuilds to itself; `PlanMeaning` says of the request as given which those are and what the plan holds |
| ChangePlan.CanonicalInterfaces | internal/networkpolicy/change_plan.go:198-229 | accepts exactly valid, distinct interfaces of which one at least changes, sorted by identifier and indexed |
| ChangePlan.CanonicalForwarding | internal/networkpolicy/change_plan.go:231-266 | accepts exactly authorized forwarding between declared zones, each direction once: denied unless enabled, and across the WAN only with an edge gateway |
| ChangePlan.CanonicalProbes | internal/networkpolicy/change_plan.go:268-301 | accepts exactly distinct probes bound to a declared interface and its zone |
| ChangePlan.ValidateProbeCoverage | internal/networkpolicy/change_plan.go:303-321 | holds exactly when every changed interface is probed and a control-plane probe runs on a management path |
| ChangePlan.ValidateTimeouts | internal/networkpolicy/change_plan.go:323-343 | holds exactly when every timeout is positive and bounded and the probe timeout is within the apply window |
| ChangePlan.PlanIgnoresListing | internal/networkpolicy/change_plan.go:145-196 | requests that list the same parts in another order build the same plan |
| ChangePlan.CanonicalIffBuilt | internal/networkpolicy/change_plan.go:145-196 | a plan rebuilds to itself exactly when some request builds it |
| ChangePlan.IdentityDecides | internal/networkpolicy/change_plan.go:353-361 | two canonical plans with one identity are one plan |
| PlanMeaning.PlannedIff | internal/networkpolicy/change_plan.go:145-343 | a request is planned exactly when, as it was given, its names are valid once trimmed, timeouts lie in (0, 15 min] with the probe within the window, one of at most 64 distinct interfaces changes, forwarding joins declared zones within a zone or enabled and through a gateway to or from the WAN, probes are bound to an interface and its zone, changed interfaces are watched and a control-plane probe runs on MANAGEMENT or LAN |
| PlanMeaning.PlanHolds | internal/networkpolicy/change_plan.go:170-195 | the plan holds exactly the cleaned interfaces, forwarding and probes of the request, the first and last in ascending order, its timeouts, default deny and the seven steps from snapshot to decision |
| ChangeMachine.NewChangeMachine | internal/networkpolicy/change_machine.go:82-103 | a machine is made exactly for a canonical plan and a real instant, in its starting state |
| ChangeMachine.Controller.Apply | internal/networkpolicy/change_machine.go:114-152 | the new state, the answer and the returned snapshot are those of the value-level step, which `ChangeLedger` pins from the accepted events alone; a call that is not accepted changes nothing |
| ChangeMachine.Controller.Transition | internal/networkpolicy/change_machine.go:154-225 | moves exactly where the transition table does, and leaves everything alone where it does not; where each event leads is `ChangeLedger.EndingsIff` and `LedgerTells` |
| ChangeMachine.Controller.CopySnapshot | internal/networkpolicy/change_machine.go:246-255 | the passed probes are listed in plan order |
| ChangeRuns.ReachableSound | internal/networkpolicy/change_machine.go:114-235 | the invariant that ties state, clock, passed probes and processed events together holds after every sequence of calls |
| ChangeRuns.StepSound | internal/networkpolicy/change_machine.go:114-235 | every call keeps that invariant |
| ChangeRuns.CommitSafety | internal/networkpolicy/change_machine.go:154-225 | a committed run has on record snapshot, preflight, temporary apply and a passing report for every probe, so for one on every changed interface and one on a management path, none later than start plus the snapshot, preflight and apply timeouts |
| ChangeCommit.CommittedIff | internal/networkpolicy/change_machine.go:154-225 | a run is committed exactly when its accepted calls are snapshot, preflight, temporary apply, in this order, and then one passing report for each probe of the plan and nothing else |
| ChangeCommit.TimesInOrder | internal/networkpolicy/change_machine.go:135-144 | the accepted events of any run never run backwards in time |
| ChangeLedger.LedgerTells | internal/networkpolicy/change_machine.go:114-235 | every reachable machine is the one its accepted events tell: state from the last event (for a timeout, also the one before), deadline from the event that opened the phase, the reason of the last failure or its phase's fallback kept through a rollback, the captured snapshot, the probes reported as passed, version, time and record |
| ChangeLedger.EndingsIff | internal/networkpolicy/change_machine.go:158-220 | a run is rolled back exactly when its last accepted event says the rollback succeeded; failed closed exactly when that event is a failed snapshot, preflight or rollback or a timeout accepted in one of these phases; rollback pending exactly after a failed probe or a timeout accepted in the apply window or while probing |
| ChangeLedger.AnswersAreTold | internal/networkpolicy/change_machine.go:114-152 | every further call is answered from the ledger alone: accepted exactly when well formed, new, expecting one more than the number of accepted events, awaited and in time; a replay exactly when the same event was accepted, a conflict when only its identifier was |
| ChangeLedger.EventsWellFormed | internal/networkpolicy/change_machine.go:257-303 | which fields each kind of event must and may carry |
| ChangeLedger.ShownProbes | internal/networkpolicy/change_machine.go:246-255 | a caller is shown exactly the probes reported as passed, each once, in ascending order |
| ChangeRuns.FailsOnlyAfterRollback | internal/networkpolicy/change_machine.go:175-220 | a run that applied the temporary configuration and failed closed did so out of a pending rollback |
| ChangeRuns.DeadlineAhead | internal/networkpolicy/change_machine.go:227-235 | while a change is under way its last update is not past its deadline |
| ChangeRuns.TerminalIsFinal | internal/networkpolicy/change_machine.go:33-35 | no sequence of calls moves a terminal machine |
| ChangeRuns.EventBound | internal/networkpolicy/change_machine.go:114-152 | the version is one more than the number of accepted calls, of which there are at most four more than probes |
| ChangeLongestRun.BoundAttained | internal/networkpolicy/change_machine.go:114-225 | for every canonical plan some run accepts exactly that many |
| ChangeRuns.VersionsInTurn | internal/networkpolicy/change_machine.go:128-130 | the accepted calls expected consecutive versions: one writer for each |
| ChangeRuns.TimeoutsTerminate | internal/networkpolicy/change_machine.go:131-225 | from any unfinished state one or two fresh timeouts at or after the deadline reach a terminal state |
| ChangeRuns.FinishedInTime | internal/networkpolicy/change_machine.go:131-235 | if every accepted timeout comes within d of the deadline it reports, no state of a run is later than start plus the snapshot, preflight, apply and rollback timeouts plus twice d, and an unfinished change has its deadline at least d before that |
| ChangeLongestRun.LimitAttained | internal/networkpolicy/change_machine.go:131-235 | for every canonical plan and every d some such run ends right on that limit |
| ChangeRuns.RedeliveryIsReplayed | internal/networkpolicy/change_machine.go:118-127 | an accepted event delivered again, any number of calls later and with any expected version, is a replay and changes nothing |
| ChangeRuns.RejectedCallsVanish | internal/networkpolicy/change_machine.go:114-152 | a call that is not accepted can be put anywhere into a run: no later state and no later answer changes |
| ChangeRuns.OnlyAcceptedCallsCount | internal/networkpolicy/change_machine.go:114-152 | the state is a function of the accepted calls alone |
| Verification.EvaluateVerificationFreshness | internal/networkpolicy/verification_freshness.go:133-216 | evaluates exactly well-formed evidence, and lists exactly the missing, failed and stale checks, each list sorted |
| Verification.EvaluateChangePlanVerificationFreshness | internal/networkpolicy/verification_freshness.go:75-127 | evaluates exactly evidence on declared probes of a canonical plan; ready exactly when every probe is covered, every check passed and now is before the expiry |
| Verification.CanonicalVerificationChecks | internal/networkpolicy/verification_freshness.go:239-279 | accepts exactly valid checks with distinct names, indexed by name |
| Verification.CanonicalRequiredChecks | internal/networkpolicy/verification_freshness.go:218-237 | accepts exactly valid, distinct names, and returns them sorted |
| Verification.VerificationExpiry | internal/networkpolicy/verification_preflight.go:194-203 | the running minimum is the expiry of the evidence |
| Verification.ExpiryIsFirst | internal/networkpolicy/verification_preflight.go:194-203 | before the expiry the verification and every check is fresh, from it on something is not |
| Verification.ReadyIffSpeaks | internal/networkpolicy/verification_freshness.go:133-216 | a verdict on plan evidence is ready exactly when the evidence covers, passes and is unexpired |
| Verification.EvidenceAcceptedIff | internal/networkpolicy/verification_freshness.go:75-279 | evidence is accepted for a canonical plan exactly when it names plan and revision, is not from the future beyond the skew, and each of its 1 to 128 checks names a probe of the plan once, says pass or fail, and is no later than now or the verification beyond the skew |
| VerificationPreflight.BuildVerificationPreflightAdmission | internal/networkpolicy/verification_preflight.go:41-92 | a ready admission expires with its evidence and always later than now, so the guard against an expired one refuses nothing |
| VerificationPreflight.ApplyVerifiedPreflight | internal/networkpolicy/verification_preflight.go:127-150 | an admission that matches the machine and has not expired becomes one call to the machine at the admitted version |
| VerificationPreflight.BuildCurrentVerificationPreflightAdmission | internal/networkpolicy/verification_current.go:14-27 | admission is built for the machine's own plan only |
| VerificationPreflight.ValidateCurrentVerificationPlan | internal/networkpolicy/verification_current.go:81-106 | holds exactly when the caller's plan rebuilds to its own identity and revision, and that identity is the machine's |
| VerificationPreflight.ApplyCurrentVerifiedPreflight | internal/networkpolicy/verification_current.go:38-79 | answers exactly when the evidence, told apart by header and checks (`IdentityTellsEvidence`), still backs the admission at that instant, the machine matches it and it has not expired; the answer is one Apply of its event at the admitted version; a refusal changes nothing itself |
| VerificationPreflight.SuccessfulBridge | internal/networkpolicy/verification_current.go:38-79 | success means the machine of exactly this plan has processed exactly this admission's event, which is no other's, at an instant when the evidence covers the plan, passes and is unexpired; the evidence names this plan and revision and, whatever evidence the admission was built from, is that evidence up to the order of its checks; if the machine moved now, it moved from the matched state to the apply window |
| VerificationPreflight.EventNamesAdmission | internal/networkpolicy/verification_preflight.go:99-121 | two usable admissions with one event identifier are one admission |
| VerificationPreflight.IdentityTellsEvidence | internal/networkpolicy/verification_preflight.go:205-220 | two pieces of evidence with distinct names have one identity exactly when their headers are equal and their checks are the same up to order |
| VerificationPreflight.AdmissionServes | internal/networkpolicy/verification_preflight.go:41-150 | from its evaluation until it expires a ready admission is backed by its evidence and usable: what was built is accepted |
| VerificationPreflight.SameVersionSameMachine | internal/networkpolicy/change_machine.go:145-151 | if the version has not moved, nothing has |
| ParentForest.WalkEnds | internal/corecontracts/topology.go:281-298 | the walk with a visited set succeeds exactly when the chain of parents ends |
| ParentForest.WalkFinds | internal/corecontracts/topology.go:159-180 | the walk finds an ancestor exactly when it is met on the way up |
| Topology.NewTopology | internal/corecontracts/topology.go:72-134 | accepts exactly the lists that describe one rooted tree of valid scopes with well-bound sites and zones, and returns its index |
| Topology.ContainsScope | internal/corecontracts/topology.go:159-180 | containment is reachability along parents |
| Topology.CheckTree | internal/corecontracts/topology.go:96-108 | holds exactly when every parent is known and every path ends at the root |
| Topology.ValidateScope | internal/corecontracts/topology.go:197-233 | accepts exactly the well-formed scopes |
| Topology.ValidateManagementZone | internal/corecontracts/topology.go:258-279 | accepts exactly zones in a known scope, inside their site if they name one |
| Topology.ContainmentIsTreeOrder | internal/corecontracts/topology.go:159-180 | on an accepted topology containment is a partial order with the root on top in which two scopes above a third are comparable |
| Topology.TopologyUnique | internal/corecontracts/topology.go:72-134 | at most one topology fits, whatever the order of the lists |
| Roles.ValidateRoleAssignment | internal/corecontracts/roles.go:65-141 | accepts exactly assignments owned with desired-state authority whose role, site and zone fit their scope |
| Roles.ValidateRoleAssignmentSuccessor | internal/corecontracts/roles.go:147-166 | a re-placement keeps role and service identity and advances the generation exactly when something moved |
| Roles.ValidateRoleAssignments | internal/corecontracts/roles.go:171-205 | accepts exactly valid, distinct assignments in which control planes and scopes pair off |
| Network.ValidateNetworkContracts | internal/corecontracts/network.go:127-204 | accepts exactly zones and interfaces that are valid, named once on a node, within the limit, on a known node at their site, with parents of the right kind, distinct VLAN bindings and chains that end |
| Network.ChainStaysHome | internal/corecontracts/network.go:172-202 | every interface's parent chain is finite and stays on its node, site and scope |
| Network.ValidateNetworkInterface | internal/corecontracts/network.go:232-312 | accepts exactly the well-placed, well-named interfaces with valid limits, addresses and linkage |
| Network.NetworkPermuted | internal/corecontracts/network.go:127-204 | acceptance does not depend on the order of zones, interfaces and assignments |
| Objects.ValidateStoredObjects | internal/corecontracts/objects.go:162-237 | accepts exactly the complete snapshots: valid envelopes, distinct identifiers, one topology that every typed object fits, valid roles and network |
| Objects.ValidateTypedObject | internal/corecontracts/objects.go:369-461 | accepts exactly documents that name their object and scope under an owner with the authority; `RepositoryObjects.TypedIff` says it of the stored objects |
| Objects.SnapshotPermuted | internal/corecontracts/objects.go:162-237 | validity of a snapshot does not depend on the order of its objects |
| Mutations.PrepareMutation | internal/corecontracts/objects.go:242-314 | the result is the first or next version, or the first error in the order of the checks, judged against the snapshot in any order; what the version holds is `RepositoryWrites.WriteStores`, which are accepted `RepositoryAcceptance.WritesIff` |
| Mutations.ReplaceInSnapshot | internal/corecontracts/objects.go:590-608 | the candidate is the snapshot without the object's old version plus the new one, sorted |
| Mutations.ValidateTypedSuccessor | internal/corecontracts/objects.go:463-543 | by type, the fields an object keeps for life, judged in the candidate's topology |
| Mutations.TopologyFromObjects | internal/corecontracts/objects.go:545-576 | succeeds exactly when scopes, sites and zones decode and describe a topology, and returns it |
| Repository.NewMemoryObjectRepository | internal/corecontracts/memory_repository.go:28-42 | a repository is made exactly from a valid snapshot, holding its objects and no receipts |
| Repository.MemoryObjectRepository.Apply | internal/corecontracts/memory_repository.go:98-133 | answer and new state are those of the value-level step, which stores what was requested (`RepositoryWrites.WriteStores`); a failure or a replay changes nothing |
| Repository.MemoryObjectRepository.SnapshotLocked | internal/corecontracts/memory_repository.go:135-141 | the slice is a rearrangement of the ordered listing |
| Repository.MemoryObjectRepository.Get | internal/corecontracts/memory_repository.go:82-96 | returns exactly the stored object, or the error for a canceled call, an invalid identifier or a missing object |
| Repository.MemoryObjectRepository.List | internal/corecontracts/memory_repository.go:44-80 | exactly the admitted objects, each once, sorted by type and identifier; or the error for a canceled call or an invalid filter |
| Repository.ListingIsUnique | internal/corecontracts/memory_repository.go:58-79 | only one such listing exists, so the order in which the map is ranged does not show |
| Repository.PrepareIgnoresOrder | internal/corecontracts/memory_repository.go:122-141 | the order in which the map is ranged does not reach the outcome |
| RepositoryRuns.StepConsistent | internal/corecontracts/memory_repository.go:98-133 | every call keeps the whole-state invariant: each object under its identifier, and all together a valid snapshot |
| RepositoryRuns.ReachableValid | internal/corecontracts/memory_repository.go:98-133 | after any calls from an accepted snapshot, the stored objects in any order pass complete validation |
| RepositoryHistory.OnlyWritesCount | internal/corecontracts/memory_repository.go:98-133 | refused calls and replays leave no trace: the store is a function of the writes alone |
| RepositoryHistory.ReplayReturnsFirst | internal/corecontracts/memory_repository.go:111-116 | whatever happened since, repeating a request under its key returns the first result and changes nothing, and another request under that key is a conflict |
| RepositoryHistory.SuccessOrigin | internal/corecontracts/memory_repository.go:111-132 | every success in a run, replayed or not, is one write at or before it |
| RepositoryHistory.ObjectLives | internal/corecontracts/objects.go:277-307 | over any run no object is lost; its type, creation time and identity fields are fixed, its update time never goes back, and its generation grows by exactly the number of changes of its desired content |
| RepositoryHistory.VersionNeverReturns | internal/corecontracts/metadata.go:86-112 | with never-repeating versions, an object that was rewritten never again carries the version it had |
| RepositoryHistory.NoLostUpdates | internal/corecontracts/metadata.go:86-112 | of two replaces under different keys guarded by one version of one object, anywhere in a run, at most one succeeds |
| RepositoryWrites.WriteStores | internal/corecontracts/objects.go:257-314 | a write stores the requested document, type, scope and owner under the requested identifier, with the call's version and time; created at that time with generation 1, or, by a replace whose guard names the stored version, keeping its creation time; the generation rises by one exactly when document, scope or owner differ and the type is not an observation; answer and receipt are that object, and no other is touched |
| RepositoryWrites.LastWriteWins | internal/corecontracts/memory_repository.go:98-133 | over any run an object is the one of the start if no call wrote it, and otherwise holds what the last call that wrote it asked for |
| RepositoryWrites.GenerationCountsChanges | internal/corecontracts/objects.go:290-301 | over any run the generation of an object is its first one plus the number of consecutive stored versions that differ in document, scope or owner |
| RepositoryAcceptance.WritesIff | internal/corecontracts/memory_repository.go:98-133 | in a consistent repository a call writes exactly when it is not canceled, its key is valid and new, and the one version it can store stands: guard, succession by type, and the validity of the whole repository with it |
| RepositoryAcceptance.SuccessionIff | internal/corecontracts/objects.go:463-543 | inside valid snapshots the typed succession check is that the fields fixed for life are kept, observations never go back, and a role assignment that differs was relocated, so a mere re-spelling of its document is refused |
| RepositoryAcceptance.CreateAnswers | internal/corecontracts/objects.go:266-279 | creating what is stored is refused as existing, a guard on a create as invalid, and anything else only as an invalid object |
| RepositoryAcceptance.ReplaceAnswers | internal/corecontracts/objects.go:279-313 | replacing what is not stored is refused as not found; a replace fails by its guard, missing, unusable or naming another version, and past the guard only as an unfit version |
| RepositoryAcceptance.IdentityForLife | internal/corecontracts/objects.go:463-543 | over any run an object keeps the identity of its type, and observed generation and time never go back |
| RepositoryGuarantees.RootStays | internal/corecontracts/objects.go:463-480 | the global root is the same object after any run |
| RepositoryGuarantees.ReachableGuarantees | internal/corecontracts/memory_repository.go:98-133 | in every reachable state the root is the one from the start, two controllers share a scope exactly when they share a service identity, and interface chains are finite and stay on one node, site and scope |
| RepositoryGuarantees.ListingMeans | internal/corecontracts/memory_repository.go:44-80 | a filter lists exactly the stored objects of the type, scope and owner it names, each once |
| RepositoryObjects.TypedIff | internal/corecontracts/objects.go:369-461 | an object passes the typed check exactly when it is placed among the stored objects: its document names it, its owner is met on the way up from its scope and is the global scope or delegates the authority of its type, and role, site and zone fit |
| RepositorySnapshot.SnapshotIff | internal/corecontracts/objects.go:162-237 | a repository passes complete validation exactly when it stands: every object is well formed and placed; one global scope ends every way up and each other scope has another stored one as parent; each site has a site scope of its own and a zone's site lies at or above it; no role binding repeats and control planes pair off with scopes; every interface lies in a zone of its site on a node assigned there, fits its kind, has a parent of its own place on a chain that ends, and shares neither name nor VLAN number on its node |
| RepositorySnapshot.TreeIff | internal/corecontracts/topology.go:72-134 | the scopes of a topology in these terms |
| RepositorySnapshot.NetworkOkIff | internal/corecontracts/network.go:127-312 | the network contracts in these terms |
| RepositorySnapshot.ReachableStands | internal/corecontracts/memory_repository.go:98-133 | every repository reachable from an accepted snapshot stands |
| RepositoryCreation.WritesExactly | internal/corecontracts/memory_repository.go:98-133 | a call writes exactly when it is timely and the version it can store follows what it replaces and leaves a repository that stands |
| RepositoryCreation.StateCreatedIff | internal/corecontracts/state.go:54-112 | intent or an observation is created exactly when the call is timely, the identifier free, no guard given, and the object well formed and placed |
| RepositoryCreation.BootstrapValid | internal/corecontracts/objects.go:147-158 | the bootstrap object alone is a valid snapshot |
| CapacityAssessment.BuildAssessment | internal/capacity/planner.go:64-148 | succeeds exactly on admissible input, and the assessment describes it: totals, what is left without the nodes taken away, bottleneck and confidence; `CapacityListed` says both of the nodes as listed |
| CapacityAssessment.Tally | internal/capacity/planner.go:105-118 | the running choices end at the least reserve and the least score with the smallest identifier; the tolerant tie-break never fires |
| CapacityAssessment.ExactIff | internal/capacity/planner.go:119-129 | on admissible input whose nodes the tolerant comparator orders, the reported safe capacity survives every failure of up to N eligible nodes and is attained by one, unless some eligible node is smaller than another, close to it and before it by name, with fewer than N nodes ranked before it and at least N before the other |
| CapacityAssessment.TakenByRank | internal/capacity/planner.go:119-129 | there, exactly the nodes with fewer than N others ranked before them are taken away |
| CapacityAssessment.ExactForAnyCut | internal/capacity/planner.go:119-129 | whatever rearrangement the sort yields, what its cut leaves is the exact worst case exactly when no node taken away is smaller than one kept |
| CapacityAssessment.SeparatedIsExact | internal/capacity/planner.go:119-129 | it is exact whenever no two eligible capacities are distinct and close |
| CapacityAssessment.OverstatedAtMost | internal/capacity/planner.go:119-129 | where the comparator sorts, it exceeds the worst case by at most one tolerance for each node lost |
| CapacityAssessment.NearTieOverstates | internal/capacity/planner.go:120-125 | an admissible request whose figure is not the worst case |
| CapacityAssessment.SafeSurvivesFailures | internal/capacity/planner.go:126-147 | where the comparator orders, a safe verdict means the survivors of every planned-for failure carry the expected workload up to the verdict's tolerance, plus one tolerance for each node lost if the cut falls inside a near tie |
| CapacityAssessment.AssessmentIgnoresOrder | internal/capacity/planner.go:103-129 | any order of the nodes gives the same assessment |
| CapacityListed.EligibleMeans | internal/capacity/planner.go:76-99 | eligible are exactly the trimmed forms of the listed nodes that are healthy and have the role, each once |
| CapacityListed.AdmissibleIff | internal/capacity/planner.go:64-102 | input is admissible exactly when the request and every node are well formed as listed, no two nodes share a trimmed name, and more are in service than may fail |
| CapacityListed.AssessmentListed | internal/capacity/planner.go:96-148 | the number of nodes in service, their workload, and the capacities left without a set of N of them, which where they are ordered is the set of rank below N; the bottleneck has the least reserve and the confidence is the weakest, the first name among equals; 0 < safe < technical |
| CapacityListed.ExactIffListed | internal/capacity/planner.go:96-129 | where the listed nodes in service are ordered, the safe capacity survives every failure of N of them and some failure leaves just that, exactly when the cut does not fall between two about equal nodes |
| CapacityListed.SafeSurvivesListed | internal/capacity/planner.go:96-147 | a safe verdict means the nodes in service that survive any planned-for failure carry the expected workload, up to the tolerances |
| CapacityListed.OutOfServiceIgnored | internal/capacity/planner.go:96-98 | listing a further node that is unhealthy or of another role changes nothing in the assessment |
| CapacityListed.AssessmentIDDecides | internal/capacity/planner.go:138-147 | two assessments with one identifier are the same assessment |
| CapacityPlanner.WorstLossIff | internal/capacity/planner.go:126-129 | for any rearrangement, also where the comparator does not order: losing the first N is the worst of all losses of as many exactly when none of them is smaller than one kept |
| CapacityPlanner.HeaviestWithin | internal/capacity/planner.go:126-129 | no loss of as many nodes costs more than losing the heaviest, up to a slack for each |
| CurvePoints.MonotoneIff | internal/capacity/workload_curve.go:195-219 | estimates rise with the target exactly when the workloads rise up to the last factor that any target can get past |
| CurvePoints.NonDecreasingCurve | internal/capacity/workload_curve.go:195-219 | on an exactly non-decreasing curve estimates rise, stay within the observed workloads, and exist only within the widened range |
| CurvePoints.EstimateUses | internal/capacity/workload_curve.go:201-218 | an estimate is an observed workload or lies between two adjacent ones |
| CurvePoints.Resolved | internal/capacity/workload_curve.go:196-219 | a target in range is close to a sample or inside a segment, so the final error is unreachable |
| CurvePoints.EstimateIsFinite | internal/capacity/workload_curve.go:211-215 | every estimate is positive and bounded, so the overflow error is unreachable |
| CurvePoints.DipWithinTolerance | internal/capacity/workload_curve.go:124-133 | three samples that pass the builder's test and whose estimates fall |
| WorkloadCurve.ReadyAnswersRiseIff | internal/capacity/workload_curve.go:195-219 | on every curve that was built and is ready, the estimator's answers rise with the target exactly when the workloads rise up to the last factor that any target can get past |
| WorkloadCurve.DipIsReady | internal/capacity/workload_curve.go:124-133 | an admissible request that builds a ready curve on which the estimator's answers fall |
| WorkloadCurve.BuildWorkloadCurve | internal/capacity/workload_curve.go:68-164 | builds exactly admissible points, sorted, ready exactly when no workload drops by more than the tolerance, with the weakest confidence |
| WorkloadCurve.EstimateWorkloadCurve | internal/capacity/workload_curve.go:169-220 | refuses only evidence that does not rebuild to itself and targets out of bounds; otherwise nothing for a blocked curve or outside the widened range, else a value by snapping or interpolation |
| WorkloadCurve.Resolve | internal/capacity/workload_curve.go:201-219 | the two scans always find the estimate |
| WorkloadCurve.BuiltIsGenuine | internal/capacity/workload_curve.go:176-187 | the builder's own output is accepted, and rebuilding it changes nothing |
| WorkloadCurve.BuiltIgnoresOrder | internal/capacity/workload_curve.go:117-122 | any order of the points builds the same curve |
| CurveMeaning.BuiltIff | internal/capacity/workload_curve.go:68-116 | a curve is built exactly from enough points, none repeated in identifier, profile or factor, each within its bounds, for a known scope and unit |
| CurveMeaning.BuiltMeans | internal/capacity/workload_curve.go:117-163 | the curve has exactly the listed points in ascending order of their factors; it is ready exactly when none falls below the one before by more than a billionth; and it is as certain as its least certain point |
| CurveMeaning.AnswerMeans | internal/capacity/workload_curve.go:188-220 | an answer has a value exactly on a curve that never falls and within what was observed: the workload of the first sample about there, else the value on the line between its neighbours |
| CurveMeaning.TamperingShows | internal/capacity/workload_curve.go:176-187 | accepted evidence with one identity agrees in status, reason and confidence, and in its points up to order and spaces |
| BackupChains.ValidateBackupParentCycles | internal/recovery/integrity.go:256-289 | succeeds exactly when every named parent exists and every chain ends |
| BackupChains.ParentChecker.Visit | internal/recovery/integrity.go:262-282 | the recursive visit succeeds exactly when the record's chain is known throughout and ends |
| BackupChains.NoRepeatsIff | internal/recovery/integrity.go:256-289 | with every parent known, all chains end exactly when no walk repeats |
| BackupChains.ValidateBackupParentLinks | internal/recovery/integrity.go:291-329 | holds exactly when every link joins records of one home, an available parent, forward times and fitting modes |
| BackupChains.LinksStandIff | internal/recovery/integrity.go:291-329 | the links stand exactly when every backup that names a parent rests on a known one: same scope, owner, target and storage, complete with its artifact when the child was asked for, no later data, and a mode it can build on |
| BackupChains.ChainUnited | internal/recovery/integrity.go:256-329 | everything above a backup shares its scope, owner, target and provider storage; strict ancestors are available, completed before it was requested, and full exactly at the chain's parentless end |
| Inventory.ReconcileObservations | internal/inventory/reconcile.go:26-75 | succeeds exactly on usable observations, and lists each device once in ascending order with its newest observation and sorted sources |
| Inventory.LatestIsFirstBest | internal/inventory/reconcile.go:46-55 | the newest observation is the first best by time, then smallest source |
| Inventory.LatestJoins | internal/inventory/state.go:32-35 | comparing batch winners gives the winner of all |
| Inventory.MergeStrings | internal/inventory/state.go:75-89 | the sorted set of trimmed, non-empty values |
| Inventory.MemoryRegistry.Ingest | internal/inventory/state.go:18-39 | merges a usable batch device by device and lists the outcome; an unusable one changes nothing |
| Inventory.IngestExtends | internal/inventory/state.go:18-39 | merging a batch into the registry of a history gives the registry of both |
| Inventory.GroupingIsIrrelevant | internal/inventory/state.go:18-39 | any grouping into batches gives the registry of all observations in one |
| Inventory.AnyGrouping | internal/inventory/state.go:18-39 | raw batches, in any grouping that Ingest accepts, end in the registry that one batch of their concatenation gives |
| InventoryMeaning.AcceptedIff | internal/inventory/reconcile.go:26-44 | a batch is accepted exactly when every observation names a device, a source and a time |
| InventoryMeaning.RegistryMeans | internal/inventory/state.go:18-39 | after any run of accepted batches the registry holds exactly the devices seen, each with its newest observation, of equally new ones that of the first source by name and then the first received, and all its sources in ascending order |
| Inventory.MemoryRegistry.Get | internal/inventory/state.go:47-55 | returns the device stored under the trimmed identifier, if any |
| Inventory.MemoryRegistry.ListLocked | internal/inventory/state.go:57-68 | all devices in ascending order |
| PlacementScores.ScoreExactIff | internal/placement/plan.go:227-231 | a resource's wrapped score never exceeds the true one, which is at most a million, and equals it exactly up to the largest exact amount |
| PlacementScores.DominantExactIff | internal/placement/plan.go:227-231 | a candidate's score is right exactly when some resource that really dominates does not wrap |
| Placement.BuildPlan | internal/placement/plan.go:79-145 | succeeds exactly on admissible input with an eligible candidate to which a move is allowed, and selects the first by score and identifier |
| Placement.PlanScoreBound | internal/placement/plan.go:224-231 | the selected candidate is eligible and its score at most a million |
| Placement.PlanIgnoresOrder | internal/placement/plan.go:113-119 | any order of the candidates gives the same plan |
| Placement.ChoiceTrueIff | internal/placement/plan.go:113-119 | a plan is for the truly least-loaded eligible candidate exactly when no eligible candidate whose dominant resource wrapped is ranked ahead of that one |
| Placement.SmallNodesPlacedTruly | internal/placement/plan.go:113-119 | it is whenever no allocatable amount exceeds the largest exact one |
| PlacementListed.PlanListed | internal/placement/plan.go:79-145 | the plan is for the least loaded listed candidate, by the largest wrapped share of three resources and then by name, among those in service, of the role, at an allowed site and zone, not to be kept apart from, and with room; a stateful workload leaves its node only with an adapter and a healthy replica |
| PlacementListed.PlanIff | internal/placement/plan.go:79-145 | on admissible input there is a plan exactly when the least loaded candidate that suits may be moved to |
| PlacementListed.AdmissibleIff | internal/placement/plan.go:147-222 | input is admissible exactly when request and candidates are well formed as given and no two candidates share a trimmed name |
| Placement.OverflowMisplaces | internal/placement/plan.go:227-231 | an admissible request whose plan is for a nearly full node although an eligible one is all but idle |
| Placement.Contains | internal/placement/plan.go:240-243 | membership by binary search in a sorted list is membership |
| Placement.CanonicalIDs | internal/placement/plan.go:247-262 | accepts exactly valid identifiers without repetition, trimmed and sorted |
| Placement.NormalizeCandidate | internal/placement/plan.go:193-222 | accepts exactly valid candidates whose usage is within what they can allocate |
| Placement.NormalizeRequest | internal/placement/plan.go:147-191 | accepts exactly valid requests |
| Telemetry.NormalizeBatch | internal/networktelemetry/telemetry.go:242-281 | accepts exactly batches of valid observations with distinct identifiers and pairwise disjoint windows in every series, and sorts them |
| Telemetry.NormalizeObservations | internal/networktelemetry/telemetry.go:283-330 | accepts exactly observations whose trimmed fields, window, count, age and confidence are valid and whose identifiers differ without regard to case |
| Telemetry.NeighboursDecide | internal/networktelemetry/telemetry.go:272-279 | in sorted order, checking neighbours is checking all pairs |
| Telemetry.NeighboursChain | internal/networktelemetry/telemetry.go:272-279 | every window of a series ends before the next of them starts |
| TelemetryAggregates.AggregateNormalized | internal/networktelemetry/telemetry.go:341-389 | fails only when a series has too many samples; otherwise one report for each series, by key, with its average and its age in whole seconds |
| TelemetryAggregates.AggregateBatch | internal/networktelemetry/telemetry.go:333-339 | refuses exactly invalid batches and too many samples |
| TelemetryAggregates.AggregatesConserve | internal/networktelemetry/telemetry.go:359-363 | the aggregates' sample counts add up to the observations' |
| TelemetryAggregates.AggregateMeans | internal/networktelemetry/telemetry.go:346-388 | each average lies between the least value and the peak, the window spans the series, and the latest value is that of its unique latest window |
| TelemetryAggregates.AcceptedInOrder | internal/networktelemetry/telemetry.go:242-281 | what an accepted batch hands to the aggregation: sorted, neighbours apart, windows and counts positive |
| TelemetryAggregates.TieBreakIdle | internal/networktelemetry/telemetry.go:370-375 | a later window always ends later, so the tie-break on equal ends never decides |
| TelemetryAggregates.ReportsAreFresh | internal/networktelemetry/telemetry.go:318-323 | no report of an accepted batch is older than the batch allows |
| TelemetryAggregates.BatchOrderForgotten | internal/networktelemetry/telemetry.go:272-272 | any order of the observations is sorted into the same batch |
| TelemetryMeaning.SeriesIff | internal/networktelemetry/telemetry.go:566-572 | the keys of two accepted observations agree exactly when target kind, target in any case and metric do |
| TelemetryMeaning.BatchIff | internal/networktelemetry/telemetry.go:242-330 | a batch is accepted exactly when its observations, as they came in, are acceptable one by one and two by two have other identifiers and in one series other times |
| TelemetryMeaning.CountableIff | internal/networktelemetry/telemetry.go:359-361 | an accepted batch is aggregated exactly when no series has more than 10^15 samples |
| TelemetryMeaning.ReportSummarizes | internal/networktelemetry/telemetry.go:341-389 | each report of an accepted batch sums the samples and weighted values of exactly the observations of its series, bounds their values, times and confidence, attains each bound, and rounds its age up to seconds |
| TelemetryMeaning.CoveredOnce | internal/networktelemetry/telemetry.go:341-389 | every observation of an accepted batch is covered by exactly one report |
| Lifecycle.ValidateTransition | internal/nodelifecycle/lifecycle.go:305-352 | accepts exactly the lawful transitions: a state that may be entered from the current one, the kind of that entry, known checks without repetition that include all it needs, a guard naming the current version, and a successor of the same node, later and counting decisions; otherwise the first refusal in the order of the checks |
| Lifecycle.ValidateEvidence | internal/nodelifecycle/lifecycle.go:363-380 | holds exactly for known checks, none twice, that include all required ones |
| Lifecycle.DrainedBefore | internal/nodelifecycle/lifecycle.go:181-259 | whenever a node is in maintenance, updating, replacing or removing, its last entry into these states was from draining into maintenance with all six drain checks |
| Lifecycle.ReadyRetirement | internal/nodelifecycle/lifecycle.go:181-246 | a node that was ever ready retires only out of replacing, removing or offline; out of offline with its workloads safe and no state left, out of the others after it was drained |
| LifecycleRuns.ReadyIsEarned | internal/nodelifecycle/lifecycle.go:181-246 | over every run each entry into ready passed readiness; out of enrolling the identity was verified, out of draining, maintenance or updating scheduling enabled, out of draining the operation cancelled, out of updating the update and out of recovering the recovery verified |
| LifecycleRuns.WorkIsApproved | internal/nodelifecycle/lifecycle.go:192-240 | over every run scheduling was disabled and the preflight passed before each drain; updating, replacing and removing are entered only from maintenance, approved and with their own checks; and what ends them early was cancelled, rolled back or verified |
| LifecycleRuns.RetirementIsProved | internal/nodelifecycle/lifecycle.go:181-246 | over every run retirement out of replacing verified switchover and replacement, out of removing the removal, and otherwise was approved with no managed state left |
| LifecycleRuns.RecoveryIsStarted | internal/nodelifecycle/lifecycle.go:202-241 | over every run recovery was started, after an outage only with the identity verified |
| LifecycleRuns.EnrolledFirst | internal/nodelifecycle/lifecycle.go:181-190 | over every run whatever a node becomes was preceded by an authorized enrolment right after discovery, unless it was retired at once |
| LifecycleRuns.IdentityVerifiedIff | internal/nodelifecycle/lifecycle.go:181-246 | along the states of a run the identity is verified whatever evidence comes exactly when some transition leads from enrolling to ready or from offline to recovering |
| LifecycleRuns.IdentityBeforeService | internal/nodelifecycle/lifecycle.go:181-246 | outside discovery, enrolment, outage and retirement a node had its identity verified before, unless it degraded while enrolling |
| LifecycleRuns.UnverifiedService | internal/nodelifecycle/lifecycle.go:186-206 | a run from discovery to ready in which nobody verified the identity |
| Lifecycle.GenerationCounts | internal/nodelifecycle/lifecycle.go:305-352 | the generation is one more than the number of desired transitions; identity and ownership never change |
| Lifecycle.TimeAdvances | internal/nodelifecycle/lifecycle.go:341-343 | the time of the last change of state strictly increases along a run |
| Lifecycle.RetiredIsFinal | internal/nodelifecycle/lifecycle.go:245-245 | nothing follows retirement |
| LifecycleRuns.VersionsStand | internal/nodelifecycle/lifecycle.go:261-298 | every version along a run has its state entered between creation and last update and a reason exactly when degraded, offline, recovering or retired; the first is just discovered, at generation 1 |

## Left out

- HTTP handlers, configuration, logging, PostgreSQL adapters, orchestration jobs and the remaining packages: plumbing, or single-branch checks.
- JSON: documents are typed contents plus a spelling, so decoding, duplicate keys and timestamps that do not marshal are not modelled; two spellings may decode alike and still be different documents.
- Foreign parsers: IP prefixes, MAC addresses and regular expressions beyond the identifier grammar are flags or predicates; `strings.ToLower` and `strings.ToUpper` are modelled on ASCII letters.
- Sorting in place: Go's `sort` is applied to copies as a sequence function, so no aliasing of slices is modelled.
- Error texts: errors are modelled by kind, not by message.
- Deep copies of stored objects: values cannot be aliased here.
- `ValidateStatePair` and `IsConverged` (internal/corecontracts/state.go): single comparisons on top of the modelled state checks.
- Repository.MemoryObjectRepository.Apply: the version allocator and the clock are parameters; that versions never repeat is a hypothesis of `NoLostUpdates` only.
- ChangeMachine.NewChangeMachine: plan identifiers are compared as digests, so a hexadecimal spelling that is no digest is just another text; and a nil slice and an empty one, which the comparison of plans and the JSON behind their identity tell apart, are one empty sequence.
- VerificationPreflight.ApplyVerifiedPreflight: how a digest is printed into the event identifier is a parameter, taken as injective where it matters.
- IEEE arithmetic: sums of capacities, interpolation and averages are exact here.
- The technical limit of an assessment: nodes are taken away by safe capacity, so no worst case is claimed for it.
- Forecasts, calibration, horizons and the evidence and reuse chain of the capacity package: threshold branches and long field comparisons.
- BackupChains.ValidateBackupParentCycles: runs on records that the per-record validator has already passed; that validator is modelled only as far as parents and times go, and the other recovery links are not.
- Telemetry.NormalizeBatch: whether an identifier parses as a network address is given with it.
- `BuildRecommendationInput` (internal/networktelemetry/telemetry.go): choosing the boundary with the least reserve would only add an easy member.
- CapacityAssessment.HeaviestFirst: where the tolerant comparator does not order the nodes the source's sort gives some rearrangement; the model fixes one, `ExactIff` says nothing there, and `ExactForAnyCut` holds for any.
- Lifecycle.ValidateTransition: reasons are Unicode by construction, so the check for invalid UTF-8 has nothing to refuse.
