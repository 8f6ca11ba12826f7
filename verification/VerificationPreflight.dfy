/** The admission that binds fresh evidence to one preflight snapshot, and the
    bridge that turns it into a preflight event (internal/networkpolicy/
    verification_preflight.go and verification_current.go).

    Other callers may reach the machine between the bridge's own calls; the
    calls they get in are parameters here. */
module VerificationPreflight {
  import opened ChangePlan
  import opened ChangeMachine
  import opened ChangeRuns
  import opened Verification
  import Seqs
  import Sorting
  import Text

  const ADMISSION_SCHEMA := "network.change.verification-preflight-admission/v1"

  /** An admission without its own identity. */
  datatype Terms = Terms(
    schemaVersion: string, planID: Digest<Body>, revisionID: string, evidenceID: Digest<Evidence>,
    machineVersion: nat, evaluatedAt: Time, expiresAt: Time, ready: bool,
    missing: seq<string>, stale: seq<string>, failed: seq<string>,
    executionAuthorized: bool, productionMutationAllowed: bool)

  datatype Admission = Admission(admissionID: Digest<Terms>, terms: Terms)

  datatype BuiltAdmission = Admitted(admission: Admission) | InvalidAdmission

  // ----- identities -----

  function TrimmedCheck(c: Check): Check { c.(name := Text.Trim(c.name)) }

  /** Evidence is told apart by its content, up to the order of its checks. */
  function EvidenceIdentity(e: Evidence): Digest<Evidence>
  {
    Sha256Of(e.(checks := Sorting.SortByKey(Seqs.Map(TrimmedCheck, e.checks), CheckName)))
  }

  /** The same evidence: one header, and the same checks in some order. */
  predicate SameEvidence(e: Evidence, e': Evidence)
  {
    && e.schemaVersion == e'.schemaVersion && e.planID == e'.planID && e.revisionID == e'.revisionID
    && e.verifiedAt == e'.verifiedAt && multiset(e.checks) == multiset(e'.checks)
  }

  /** Distinct names in their trimmed form, as every accepted evidence has them. */
  ghost predicate NamedApart(checks: seq<Check>)
  {
    (forall c | c in checks :: Text.Trim(c.name) == c.name) && Sorting.DistinctKeys(checks, CheckName)
  }

  lemma TrimmedAlready(checks: seq<Check>)
    requires NamedApart(checks)
    ensures Seqs.Map(TrimmedCheck, checks) == checks
  {
    forall c | c in checks ensures TrimmedCheck(c) == c {}
    Seqs.MapFixed(TrimmedCheck, checks);
  }

  /** The identity tells evidence apart exactly by its header and its checks. */
  lemma IdentityTellsEvidence(e: Evidence, e': Evidence)
    requires NamedApart(e.checks) && NamedApart(e'.checks)
    ensures EvidenceIdentity(e) == EvidenceIdentity(e') <==> SameEvidence(e, e')
  {
    hide *;
    TrimmedAlready(e.checks);
    TrimmedAlready(e'.checks);
    if EvidenceIdentity(e) == EvidenceIdentity(e') {
      IdentityContent(e, e');
      SameFrom(e, e');
    }
    if SameEvidence(e, e') { SameIdentity(e, e'); }
  }

  lemma IdentityContent(e: Evidence, e': Evidence)
    requires EvidenceIdentity(e) == EvidenceIdentity(e')
    ensures e.schemaVersion == e'.schemaVersion && e.planID == e'.planID && e.revisionID == e'.revisionID
    ensures e.verifiedAt == e'.verifiedAt
    ensures Sorting.SortByKey(Seqs.Map(TrimmedCheck, e.checks), CheckName) == Sorting.SortByKey(Seqs.Map(TrimmedCheck, e'.checks), CheckName)
  {
    hide Sorting.SortByKey;
    hide Seqs.Map;
    var sorted, sorted' := Sorting.SortByKey(Seqs.Map(TrimmedCheck, e.checks), CheckName),
                           Sorting.SortByKey(Seqs.Map(TrimmedCheck, e'.checks), CheckName);
    var content, content' := e.(checks := sorted), e'.(checks := sorted');
    assert content.checks == sorted && content'.checks == sorted';
  }

  lemma SameFrom(e: Evidence, e': Evidence)
    requires e.schemaVersion == e'.schemaVersion && e.planID == e'.planID && e.revisionID == e'.revisionID
    requires e.verifiedAt == e'.verifiedAt
    requires Sorting.SortByKey(e.checks, CheckName) == Sorting.SortByKey(e'.checks, CheckName)
    ensures SameEvidence(e, e')
  {
    assert multiset(Sorting.SortByKey(e.checks, CheckName)) == multiset(e.checks);
    hide Sorting.SortByKey;
  }

  lemma SameIdentity(e: Evidence, e': Evidence)
    requires SameEvidence(e, e') && NamedApart(e.checks)
    requires Seqs.Map(TrimmedCheck, e.checks) == e.checks && Seqs.Map(TrimmedCheck, e'.checks) == e'.checks
    ensures EvidenceIdentity(e) == EvidenceIdentity(e')
  {
    hide Sorting.SortByKey;
    hide NamedApart;
    SortedChecksAgree(e.checks, e'.checks);
  }

  lemma SortedChecksAgree(a: seq<Check>, b: seq<Check>)
    requires NamedApart(a) && multiset(a) == multiset(b)
    ensures Sorting.SortByKey(a, CheckName) == Sorting.SortByKey(b, CheckName)
  {
    Sorting.SortByKeyUnique(a, b, CheckName);
  }

  lemma AcceptedNames(now: Time, plan: Plan, e: Evidence, policy: Policy)
    requires PlanEvidenceOk(now, plan, e, policy)
    ensures NamedApart(e.checks)
    ensures e.planID == plan.planID && e.revisionID == plan.body.revisionID
  {
    forall c | c in e.checks ensures Text.Trim(c.name) == c.name {
      assert CheckOk(c, e.verifiedAt, now, policy.maxFutureSkew);
      TrimmedName(c);
    }
  }

  lemma TrimmedName(c: Check)
    requires IsIdentifier(c.name)
    ensures Text.Trim(c.name) == c.name
  {
  }

  function SortedStrings(s: seq<string>): seq<string>
  {
    Sorting.StringOrder(s);
    Sorting.SortBy(s, Text.Less)
  }

  function AdmissionIdentity(t: Terms): Digest<Terms>
  {
    Sha256Of(t.(missing := SortedStrings(t.missing), stale := SortedStrings(t.stale), failed := SortedStrings(t.failed)))
  }

  // ----- building -----

  ghost predicate CanBuild(now: Time, plan: Plan, snapshot: Snapshot, e: Evidence, policy: Policy)
  {
    && now != ZERO_TIME && snapshot.planID == plan.planID && snapshot.state.Preflight? && snapshot.version != 0
    && PlanEvidenceOk(now, plan, e, policy)
  }

  /** What an admission says of the evidence, the plan and the machine it was built from. */
  ghost predicate BuiltFrom(a: Admission, now: Time, plan: Plan, snapshot: Snapshot, e: Evidence, policy: Policy)
  {
    var t := a.terms;
    && CanBuild(now, plan, snapshot, e, policy)
    && (t.ready <==> Speaks(now, plan, e, policy.maxAge))
    && t.evaluatedAt == now
    && t.expiresAt == (if t.ready then Expiry(e.checks, e.verifiedAt, policy.maxAge) else ZERO_TIME)
    && (t.ready ==> now < t.expiresAt)
    && t.evidenceID == EvidenceIdentity(e) && t.planID == plan.planID
    && t.revisionID == plan.body.revisionID && t.machineVersion == snapshot.version
    && VerdictFits(FreshnessVerdict(t.ready, t.missing, t.stale, t.failed), now, ProbeIDs(plan), e, policy.maxAge)
    && t.schemaVersion == ADMISSION_SCHEMA && !t.executionAuthorized && !t.productionMutationAllowed
    && a.admissionID == AdmissionIdentity(t)
  }

  /** A ready admission is never built already expired, so the source's guard
      against one refuses nothing. */
  method BuildVerificationPreflightAdmission(now: Time, plan: Plan, snapshot: Snapshot, e: Evidence, policy: Policy)
    returns (r: BuiltAdmission)
    ensures r.Admitted? <==> CanBuild(now, plan, snapshot, e, policy)
    ensures r.Admitted? ==> BuiltFrom(r.admission, now, plan, snapshot, e, policy)
  {
    hide PlanEvidenceOk;
    hide VerdictFits;
    hide EvidenceIdentity;
    hide AdmissionIdentity;
    hide Has;
    hide Expiry;
    if now == ZERO_TIME || snapshot.planID != plan.planID || !snapshot.state.Preflight? || snapshot.version == 0 {
      return InvalidAdmission;
    }
    var evaluation := EvaluateChangePlanVerificationFreshness(now, plan, e, policy);
    if evaluation.InvalidEvidence? { return InvalidAdmission; }
    var verdict := evaluation.verdict;
    var expiresAt := ZERO_TIME;
    if verdict.ready {
      expiresAt := VerificationExpiry(e, policy.maxAge);
      if expiresAt <= now {
        assert false;
      }
    }
    var terms := Terms(ADMISSION_SCHEMA, plan.planID, plan.body.revisionID, EvidenceIdentity(e), snapshot.version,
                       now, expiresAt, verdict.ready, verdict.missing, verdict.stale, verdict.failed, false, false);
    r := Admitted(Admission(AdmissionIdentity(terms), terms));
  }

  // ----- the event -----

  predicate ValidAdmission(a: Admission)
  {
    var t := a.terms;
    && t.schemaVersion == ADMISSION_SCHEMA
    && a.admissionID.WellFormed() && t.planID.WellFormed() && IsIdentifier(t.revisionID) && t.evidenceID.WellFormed()
    && t.machineVersion != 0 && t.evaluatedAt != ZERO_TIME
    && !t.executionAuthorized && !t.productionMutationAllowed
    && (if t.ready then
          t.expiresAt != ZERO_TIME && t.evaluatedAt < t.expiresAt && |t.missing| == |t.stale| == |t.failed| == 0
        else t.expiresAt == ZERO_TIME)
    && a.admissionID == AdmissionIdentity(t)
  }

  /** The event an admission stands for; `hex` prints a digest. */
  function PreflightEvent(a: Admission, at: Time, hex: Digest<Terms> -> string): Event
  {
    Event("preflight-" + hex(a.admissionID), PreflightPassed, "", "", "", at)
  }

  /** The admission still yields its event at this instant; the expiry itself
      is already too late. */
  predicate Usable(a: Admission, at: Time)
  {
    ValidAdmission(a) && a.terms.ready && at != ZERO_TIME && a.terms.evaluatedAt <= at < a.terms.expiresAt
  }

  datatype BridgeOutcome = Refused | Answered(outcome: Outcome)

  // ----- the bridge -----

  /** Other callers' calls, in the order the machine's lock admits them. */
  method Interleave(machine: Controller, others: seq<Call>)
    modifies machine
    ensures machine.Value() == Run(old(machine.Value()), others)
  {
    ghost var start := machine.Value();
    hide After;
    for k := 0 to |others|
      invariant Run(start, others) == Run(machine.Value(), others[k..])
    {
      assert others[k..][1..] == others[k + 1..];
      var _, _ := machine.Apply(others[k].event, others[k].expectedVersion);
    }
  }

  /** What the admission must agree with in the machine it is applied to. */
  predicate Matches(a: Admission, s: Snapshot)
  {
    s.planID == a.terms.planID && s.state.Preflight? && s.version == a.terms.machineVersion
  }

  method ApplyVerifiedPreflight(machine: Controller, a: Admission, at: Time, hex: Digest<Terms> -> string,
                                between: seq<Call>)
    returns (view: View, r: BridgeOutcome)
    modifies machine
    ensures r.Refused? <==> !(Matches(a, old(machine.snapshot)) && Usable(a, at))
    ensures r.Refused? ==> machine.Value() == old(machine.Value())
    ensures r.Answered? ==>
              var m := Run(old(machine.Value()), between);
              && machine.Value() == After(m, PreflightEvent(a, at, hex), a.terms.machineVersion)
              && r.outcome == Verdict(m, PreflightEvent(a, at, hex), a.terms.machineVersion)
  {
    view := machine.CopySnapshot();
    if view.snapshot.planID != a.terms.planID || !view.snapshot.state.Preflight? ||
       view.snapshot.version != a.terms.machineVersion {
      return view, Refused;
    }
    hide ValidAdmission;
    if !ValidAdmission(a) || !a.terms.ready || at == ZERO_TIME || at < a.terms.evaluatedAt || at >= a.terms.expiresAt {
      return view, Refused;
    }
    hide After;
    hide Verdict;
    Interleave(machine, between);
    var outcome;
    view, outcome := machine.Apply(PreflightEvent(a, at, hex), a.terms.machineVersion);
    r := Answered(outcome);
  }

  /** The plan the caller holds is the one the machine was made for. */
  method ValidateCurrentVerificationPlan(machine: Controller, currentPlan: Plan) returns (view: View, ok: bool)
    ensures view == machine.Value().Show()
    ensures ok <==>
            && WellFormed(RequestOf(currentPlan))
            && Canonical(RequestOf(currentPlan)).planID == currentPlan.planID
            && Canonical(RequestOf(currentPlan)).body.revisionID == currentPlan.body.revisionID
            && machine.snapshot.planID == currentPlan.planID
  {
    view := machine.CopySnapshot();
    ok := false;
    var built := BuildChangePlan(RequestOf(currentPlan));
    if !built.Built? { return; }
    if built.plan.planID != currentPlan.planID || built.plan.body.revisionID != currentPlan.body.revisionID { return; }
    ok := view.snapshot.planID == currentPlan.planID;
  }

  /** The admission boundary used by the orchestrator. */
  method BuildCurrentVerificationPreflightAdmission(now: Time, currentPlan: Plan, machine: Controller, e: Evidence,
                                                    policy: Policy)
    returns (r: BuiltAdmission)
    ensures r.Admitted? <==> CanBuild(now, currentPlan, machine.snapshot, e, policy)
    ensures r.Admitted? && IsCanonical(machine.plan) && machine.snapshot.planID == machine.plan.planID ==>
              currentPlan == machine.plan
  {
    var view, ok := ValidateCurrentVerificationPlan(machine, currentPlan);
    if !ok { return InvalidAdmission; }
    r := BuildVerificationPreflightAdmission(now, currentPlan, view.snapshot, e, policy);
    if r.Admitted? && IsCanonical(machine.plan) && machine.snapshot.planID == machine.plan.planID {
      IdentityDecides(currentPlan, machine.plan);
    }
  }

  /** The evidence behind an admission, re-examined at the instant of use. */
  ghost predicate Backed(a: Admission, plan: Plan, e: Evidence, policy: Policy, at: Time)
  {
    && a.terms.planID == plan.planID && a.terms.revisionID == plan.body.revisionID
    && a.terms.evidenceID == EvidenceIdentity(e)
    && PlanEvidenceOk(at, plan, e, policy) && Speaks(at, plan, e, policy.maxAge)
    && a.terms.expiresAt == Expiry(e.checks, e.verifiedAt, policy.maxAge)
  }

  lemma BackedPlanStands(a: Admission, plan: Plan, e: Evidence, policy: Policy, at: Time)
    requires Backed(a, plan, e, policy, at)
    ensures WellFormed(RequestOf(plan)) && Canonical(RequestOf(plan)) == plan && at != ZERO_TIME
  {
  }

  method ApplyCurrentVerifiedPreflight(machine: Controller, currentPlan: Plan, a: Admission, e: Evidence,
                                       policy: Policy, at: Time, hex: Digest<Terms> -> string,
                                       before: seq<Call>, between: seq<Call>)
    returns (view: View, r: BridgeOutcome)
    modifies machine
    ensures r.Answered? <==>
              && Backed(a, currentPlan, e, policy, at)
              && old(machine.snapshot).planID == currentPlan.planID
              && Matches(a, Run(old(machine.Value()), before).snapshot) && Usable(a, at)
    ensures r.Answered? ==>
              var m := Run(Run(old(machine.Value()), before), between);
              && machine.Value() == After(m, PreflightEvent(a, at, hex), a.terms.machineVersion)
              && r.outcome == Verdict(m, PreflightEvent(a, at, hex), a.terms.machineVersion)
    ensures r.Refused? ==>
              machine.Value() == old(machine.Value()) || machine.Value() == Run(old(machine.Value()), before)
  {
    hide EvidenceIdentity;
    hide ValidAdmission;
    hide Run;
    hide After;
    hide Verdict;
    hide PlanEvidenceOk;
    var ok;
    view, ok := ValidateCurrentVerificationPlan(machine, currentPlan);
    if Backed(a, currentPlan, e, policy, at) { BackedPlanStands(a, currentPlan, e, policy, at); }
    hide IsCanonical;
    hide WellFormed;
    hide Canonical;
    if !ok || a.terms.planID != currentPlan.planID || a.terms.revisionID != currentPlan.body.revisionID ||
       at == ZERO_TIME || EvidenceIdentity(e) != a.terms.evidenceID {
      return view, Refused;
    }
    var evaluation := EvaluateChangePlanVerificationFreshness(at, currentPlan, e, policy);
    if evaluation.InvalidEvidence? || !evaluation.verdict.ready { return view, Refused; }
    var expectedExpiry := VerificationExpiry(e, policy.maxAge);
    if a.terms.expiresAt != expectedExpiry { return view, Refused; }
    assert Backed(a, currentPlan, e, policy, at);
    Interleave(machine, before);
    view, r := ApplyVerifiedPreflight(machine, a, at, hex, between);
  }

  // ----- what an admission is good for -----

  lemma EvidenceKeeps(now: Time, plan: Plan, e: Evidence, policy: Policy, at: Time)
    requires PlanEvidenceOk(now, plan, e, policy) && now <= at && at != ZERO_TIME
    ensures PlanEvidenceOk(at, plan, e, policy)
  {
    hide IsCanonical;
    hide IsIdentifier;
    forall c | c in e.checks ensures CheckOk(c, e.verifiedAt, at, policy.maxFutureSkew) {
      assert CheckOk(c, e.verifiedAt, now, policy.maxFutureSkew);
    }
  }

  lemma EvidenceNamesPlan(now: Time, plan: Plan, e: Evidence, policy: Policy)
    requires PlanEvidenceOk(now, plan, e, policy)
    ensures plan.planID.WellFormed() && IsIdentifier(plan.body.revisionID) && now != ZERO_TIME
  {
    hide IsCanonical;
    hide IsIdentifier;
    hide ChecksOk;
  }

  lemma ReadyListsNothing(v: FreshnessVerdict, now: Time, required: set<string>, e: Evidence, maxAge: int)
    requires VerdictFits(v, now, required, e, maxAge) && v.ready
    ensures v.missing == v.stale == v.failed == []
  {
    hide Sorting.SortedBy;
  }

  /** From its evaluation until it expires, a ready admission is backed by the
      evidence it was built from and yields its event. */
  lemma AdmissionServes(a: Admission, now: Time, plan: Plan, snapshot: Snapshot, e: Evidence, policy: Policy, at: Time)
    requires BuiltFrom(a, now, plan, snapshot, e, policy) && a.terms.ready && a.terms.expiresAt != ZERO_TIME
    requires now <= at < a.terms.expiresAt && at != ZERO_TIME
    ensures Backed(a, plan, e, policy, at) && Usable(a, at)
  {
    hide PlanEvidenceOk;
    hide VerdictFits;
    hide EvidenceIdentity;
    hide AdmissionIdentity;
    hide Has;
    hide Expiry;
    hide IsIdentifier;
    EvidenceKeeps(now, plan, e, policy, at);
    EvidenceNamesPlan(now, plan, e, policy);
    ReadyListsNothing(FreshnessVerdict(a.terms.ready, a.terms.missing, a.terms.stale, a.terms.failed), now, ProbeIDs(plan), e,
                      policy.maxAge);
    assert a.terms.evidenceID.WellFormed() && a.admissionID.WellFormed() by {
      DigestsWellFormed(e, a.terms);
    }
  }

  lemma DigestsWellFormed(e: Evidence, t: Terms)
    ensures EvidenceIdentity(e).WellFormed() && AdmissionIdentity(t).WellFormed()
  {
  }

  // ----- what a successful bridge means -----

  /** A machine whose preflight event for `a` went through, either now or as a
      replay of the same delivery. */
  ghost predicate Bridged(m: Machine, a: Admission, at: Time, hex: Digest<Terms> -> string)
  {
    var e := PreflightEvent(a, at, hex);
    e.id in m.processed && m.processed[e.id] == DigestOf(e)
  }

  /** Like the digest itself, its print tells different contents apart. */
  ghost predicate Injective(hex: Digest<Terms> -> string)
  {
    forall d, d' | hex(d) == hex(d') :: d == d'
  }

  /** An event identifier belongs to one admission only. */
  lemma EventNamesAdmission(a: Admission, b: Admission, at: Time, at': Time, hex: Digest<Terms> -> string)
    requires Injective(hex) && Usable(a, at) && Usable(b, at')
    requires PreflightEvent(a, at, hex).id == PreflightEvent(b, at', hex).id
    ensures a == b
  {
    var prefix := "preflight-";
    var p, q := prefix + hex(a.admissionID), prefix + hex(b.admissionID);
    assert p[|prefix|..] == hex(a.admissionID) && q[|prefix|..] == hex(b.admissionID);
    assert a.admissionID == b.admissionID;
    assert a.terms.missing == a.terms.stale == a.terms.failed == [];
    assert b.terms.missing == b.terms.stale == b.terms.failed == [];
  }

  /** Whatever other callers do in between, success means that the machine of
      exactly this plan has processed exactly this admission's event, which is no
      other admission's, at an instant when the whole evidence covers the plan,
      passes and is unexpired.
      If the machine moved now, no other call had changed it since the
      admission was matched, and it moved from preflight to the apply window. */
  lemma SuccessfulBridge(start: Machine, began: Time, before: seq<Call>, between: seq<Call>, currentPlan: Plan,
                         a: Admission, e: Evidence, policy: Policy, at: Time, hex: Digest<Terms> -> string)
    requires IsCanonical(start.plan) && Sound(start, began)
    requires Backed(a, currentPlan, e, policy, at) && start.snapshot.planID == currentPlan.planID
    requires Matches(a, Run(start, before).snapshot) && Usable(a, at) && Injective(hex)
    requires var m := Run(Run(start, before), between);
             !Verdict(m, PreflightEvent(a, at, hex), a.terms.machineVersion).Rejected?
    ensures forall b, at' | Usable(b, at') && PreflightEvent(b, at', hex).id == PreflightEvent(a, at, hex).id :: b == a
    ensures currentPlan == start.plan
    ensures Speaks(at, start.plan, e, policy.maxAge)
    ensures e.planID == start.plan.planID && e.revisionID == start.plan.body.revisionID
    ensures forall now, plan, snapshot, e0, policy0 | BuiltFrom(a, now, plan, snapshot, e0, policy0) ::
              SameEvidence(e0, e) && snapshot.version == Run(start, before).snapshot.version
    ensures var m := Run(Run(start, before), between);
            var result := After(m, PreflightEvent(a, at, hex), a.terms.machineVersion);
            && Bridged(result, a, at, hex)
            && (Verdict(m, PreflightEvent(a, at, hex), a.terms.machineVersion).Accepted? ==>
                  m == Run(start, before) && result.State().ApplyWindow? && result.snapshot.updatedAt == at)
  {
    BackedPlan(start, began, currentPlan, a, e, policy, at);
    hide *;
    forall b, at' | Usable(b, at') && PreflightEvent(b, at', hex).id == PreflightEvent(a, at, hex).id ensures b == a {
      EventNamesAdmission(a, b, at, at', hex);
    }
    forall now, plan, snapshot, e0, policy0 | BuiltFrom(a, now, plan, snapshot, e0, policy0)
      ensures SameEvidence(e0, e) && snapshot.version == Run(start, before).snapshot.version
    {
      AdmittedEvidence(a, now, plan, snapshot, e0, policy0, currentPlan, e, policy, at);
      MatchedVersion(a, now, plan, snapshot, e0, policy0, Run(start, before).snapshot);
    }
    BackedEvidence(a, currentPlan, e, policy, at);
    BridgedAfter(start, began, before, between, a, at, hex);
  }

  lemma BackedEvidence(a: Admission, plan: Plan, e: Evidence, policy: Policy, at: Time)
    requires Backed(a, plan, e, policy, at)
    ensures e.planID == plan.planID && e.revisionID == plan.body.revisionID
  {
    hide PlanEvidenceOk;
    AcceptedNames(at, plan, e, policy);
  }

  lemma MatchedVersion(a: Admission, now: Time, plan: Plan, snapshot: Snapshot, e0: Evidence, policy0: Policy, s: Snapshot)
    requires BuiltFrom(a, now, plan, snapshot, e0, policy0) && Matches(a, s)
    ensures snapshot.version == s.version
  {
    hide CanBuild;
    hide VerdictFits;
  }

  /** The evidence the bridge re-examines is the evidence the admission was built from. */
  lemma AdmittedEvidence(a: Admission, now: Time, plan: Plan, snapshot: Snapshot, e0: Evidence, policy0: Policy,
                         currentPlan: Plan, e: Evidence, policy: Policy, at: Time)
    requires BuiltFrom(a, now, plan, snapshot, e0, policy0) && Backed(a, currentPlan, e, policy, at)
    ensures SameEvidence(e0, e)
  {
    hide PlanEvidenceOk;
    hide Speaks;
    hide VerdictFits;
    hide EvidenceIdentity;
    hide AdmissionIdentity;
    hide SameEvidence;
    hide NamedApart;
    AcceptedNames(now, plan, e0, policy0);
    AcceptedNames(at, currentPlan, e, policy);
    IdentityTellsEvidence(e0, e);
  }

  lemma BackedPlan(start: Machine, began: Time, currentPlan: Plan, a: Admission, e: Evidence, policy: Policy, at: Time)
    requires IsCanonical(start.plan) && Sound(start, began)
    requires Backed(a, currentPlan, e, policy, at) && start.snapshot.planID == currentPlan.planID
    ensures currentPlan == start.plan && Speaks(at, start.plan, e, policy.maxAge)
  {
    assert start.snapshot.planID == start.plan.planID;
    BackedPlanStands(a, currentPlan, e, policy, at);
    IdentityDecides(currentPlan, start.plan);
    hide *;
    SpeaksFor(a, currentPlan, e, policy, at);
  }

  lemma SpeaksFor(a: Admission, plan: Plan, e: Evidence, policy: Policy, at: Time)
    requires Backed(a, plan, e, policy, at)
    ensures Speaks(at, plan, e, policy.maxAge)
  {
  }

  lemma BridgedAfter(start: Machine, began: Time, before: seq<Call>, between: seq<Call>,
                     a: Admission, at: Time, hex: Digest<Terms> -> string)
    requires Sound(start, began) && Matches(a, Run(start, before).snapshot)
    requires !Verdict(Run(Run(start, before), between), PreflightEvent(a, at, hex), a.terms.machineVersion).Rejected?
    ensures var m := Run(Run(start, before), between);
            var result := After(m, PreflightEvent(a, at, hex), a.terms.machineVersion);
            && Bridged(result, a, at, hex)
            && (Verdict(m, PreflightEvent(a, at, hex), a.terms.machineVersion).Accepted? ==>
                  m == Run(start, before) && result.State().ApplyWindow? && result.snapshot.updatedAt == at)
  {
    RunSound(start, before, began);
    var seen := Run(start, before);
    var m := Run(seen, between);
    var event := PreflightEvent(a, at, hex);
    var c := Call(event, a.terms.machineVersion);
    hide Sound;
    if Accepts(m, c) {
      AcceptedShape(m, c);
      SameVersionSameMachine(seen, between, began);
      hide Next;
      PreflightOpensWindow(m, event);
    } else {
      hide ValidEvent;
    }
  }

  /** The version is a faithful clock: if it has not moved, nothing has. */
  lemma {:induction false} SameVersionSameMachine(m: Machine, calls: seq<Call>, began: Time)
    requires Sound(m, began)
    ensures Run(m, calls).snapshot.version >= m.snapshot.version
    ensures Run(m, calls).snapshot.version == m.snapshot.version ==> Run(m, calls) == m
    decreases |calls|
  {
    if calls != [] {
      StepSound(m, calls[0], began);
      if Accepts(m, calls[0]) {
        AcceptedShape(m, calls[0]);
        StateBound(m, began);
        RecordGrows(m, calls[0]);
      }
      hide Next;
      hide Verdict;
      hide PhaseSound;
      hide ProbesSound;
      SameVersionSameMachine(Step(m, calls[0]), calls[1..], began);
    }
  }

  lemma PreflightOpensWindow(m: Machine, e: Event)
    requires e.kind.PreflightPassed? && Next(m, e).Move?
    ensures Next(m, e).snapshot.state.ApplyWindow?
  {
  }
}
