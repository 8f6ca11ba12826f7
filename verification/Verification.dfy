/** Connectivity evidence, its freshness, and the admission that turns fresh
    evidence into a preflight event (internal/networkpolicy/
    verification_freshness.go, verification_preflight.go, verification_current.go). */
module Verification {
  import opened ChangePlan
  import opened ChangeMachine
  import opened ChangeRuns
  import Seqs
  import Sorting
  import Text

  // ----- evidence -----

  datatype CheckStatus = Pass | Fail | UnknownStatus(text: string)

  datatype Check = Check(name: string, status: CheckStatus, evidenceDigest: Digest<string>, observedAt: Time)

  datatype Evidence = Evidence(
    schemaVersion: string, planID: Digest<Body>, revisionID: string, verifiedAt: Time, checks: seq<Check>)

  datatype Policy = Policy(maxAge: int, maxFutureSkew: int)

  datatype FreshnessVerdict = FreshnessVerdict(ready: bool, missing: seq<string>, stale: seq<string>, failed: seq<string>)

  datatype Evaluation = Evaluated(verdict: FreshnessVerdict) | InvalidEvidence

  const FRESHNESS_SCHEMA := "network.change.verification-freshness/v1"
  const MAX_CHECKS := MAX_PROBES
  const MAX_AGE_LIMIT := 24 * 60 * 60 * SECOND
  const MAX_SKEW_LIMIT := 5 * 60 * SECOND

  function CheckName(c: Check): string { c.name }

  predicate CheckOk(c: Check, verifiedAt: Time, now: Time, skew: int)
  {
    && IsIdentifier(c.name) && !c.status.UnknownStatus? && c.evidenceDigest.WellFormed()
    && c.observedAt != ZERO_TIME && c.observedAt <= now + skew && c.observedAt <= verifiedAt + skew
  }

  ghost predicate ChecksOk(checks: seq<Check>, verifiedAt: Time, now: Time, skew: int)
  {
    && 1 <= |checks| <= MAX_CHECKS
    && (forall c | c in checks :: CheckOk(c, verifiedAt, now, skew))
    && Sorting.DistinctKeys(checks, CheckName)
  }

  ghost predicate RequiredOk(required: seq<string>)
  {
    && 1 <= |required| <= MAX_CHECKS
    && (forall n | n in required :: IsIdentifier(Text.Trim(n)))
    && Sorting.DistinctKeys(required, Text.Trim)
  }

  predicate PolicyOk(p: Policy)
  {
    0 < p.maxAge <= MAX_AGE_LIMIT && 0 <= p.maxFutureSkew <= MAX_SKEW_LIMIT
  }

  /** The evidence belongs to the plan and revision, and is intact and not from
      the future. Says nothing yet about being complete, passing or fresh. */
  ghost predicate EvidenceOk(now: Time, planID: Digest<Body>, revisionID: string, e: Evidence, p: Policy)
  {
    && now != ZERO_TIME && planID.WellFormed() && IsIdentifier(revisionID)
    && e.schemaVersion == FRESHNESS_SCHEMA && e.planID == planID && e.revisionID == revisionID
    && PolicyOk(p)
    && e.verifiedAt != ZERO_TIME && e.verifiedAt <= now + p.maxFutureSkew
    && ChecksOk(e.checks, e.verifiedAt, now, p.maxFutureSkew)
  }

  ghost predicate Has(checks: seq<Check>, name: string)
  {
    exists c | c in checks :: c.name == name
  }

  ghost predicate HasFailed(checks: seq<Check>, name: string)
  {
    exists c | c in checks :: c.name == name && !c.status.Pass?
  }

  ghost predicate HasStale(checks: seq<Check>, name: string, now: Time, maxAge: int)
  {
    exists c | c in checks :: c.name == name && c.observedAt + maxAge <= now
  }

  /** The verdict lists exactly what stands against the evidence. */
  ghost predicate VerdictFits(v: FreshnessVerdict, now: Time, required: set<string>, e: Evidence, maxAge: int)
  {
    && (forall n :: n in v.missing <==> n in required && !Has(e.checks, n))
    && (forall n :: n in v.failed <==> n in required && HasFailed(e.checks, n))
    && (forall n :: n in v.stale <==>
          (n in required && HasStale(e.checks, n, now, maxAge)) ||
          (n == "verification" && e.verifiedAt + maxAge <= now))
    && Sorting.SortedBy(v.missing, Text.Less) && Sorting.SortedBy(v.failed, Text.Less)
    && Sorting.SortedBy(v.stale, Text.Less)
    && v.ready == (v.missing == v.stale == v.failed == [])
  }

  // ----- expiry -----

  /** The instant the first part of the evidence goes stale. */
  function Expiry(checks: seq<Check>, verifiedAt: Time, maxAge: int): Time
  {
    if checks == [] then verifiedAt + maxAge
    else
      var earlier := Expiry(checks[..|checks| - 1], verifiedAt, maxAge);
      var candidate := checks[|checks| - 1].observedAt + maxAge;
      if candidate < earlier then candidate else earlier
  }

  /** Before the expiry everything is fresh, and from then on something is not. */
  lemma {:induction false} ExpiryIsFirst(checks: seq<Check>, verifiedAt: Time, maxAge: int, now: Time)
    ensures now < Expiry(checks, verifiedAt, maxAge) <==>
            now < verifiedAt + maxAge && forall c | c in checks :: now < c.observedAt + maxAge
  {
    if checks != [] {
      var n := |checks| - 1;
      assert checks == checks[..n] + [checks[n]];
      ExpiryIsFirst(checks[..n], verifiedAt, maxAge, now);
    }
  }

  method VerificationExpiry(e: Evidence, maxAge: int) returns (expiresAt: Time)
    ensures expiresAt == Expiry(e.checks, e.verifiedAt, maxAge)
  {
    expiresAt := e.verifiedAt + maxAge;
    for k := 0 to |e.checks|
      invariant expiresAt == Expiry(e.checks[..k], e.verifiedAt, maxAge)
    {
      assert e.checks[..k + 1][..k] == e.checks[..k];
      var candidate := e.checks[k].observedAt + maxAge;
      if candidate < expiresAt { expiresAt := candidate; }
    }
    assert e.checks[..|e.checks|] == e.checks;
  }

  // ----- evaluation -----

  method CanonicalRequiredChecks(input: seq<string>) returns (ok: bool, result: seq<string>)
    ensures ok <==> RequiredOk(input)
    ensures ok ==> multiset(result) == multiset(Seqs.Map(Text.Trim, input)) && Sorting.SortedBy(result, Text.Less)
  {
    hide IsIdentifier;
    hide Text.Trim;
    hide RequiredSoFar;
    ok, result := false, [];
    if |input| == 0 || |input| > MAX_CHECKS { return; }
    var seen: set<string> := {};
    RequiredNone();
    for k := 0 to |input|
      invariant !ok && |result| == k && forall i | 0 <= i < k :: result[i] == Text.Trim(input[i])
      invariant RequiredSoFar(input[..k], seen)
    {
      var name := Text.Trim(input[k]);
      assert input[k] in input && input[..k + 1] == input[..k] + [input[k]];
      if !IsIdentifier(name) { return; }
      if name in seen {
        var x := RequiredSeen(input[..k], seen, name);
        Sorting.RepeatSpoils(input, Text.Trim, k, x);
        return;
      }
      RequiredNext(input[..k], seen, input[k]);
      seen := seen + {name};
      result := result + [name];
    }
    assert input[..|input|] == input;
    RequiredAll(input, seen);
    assert result == Seqs.Map(Text.Trim, input);
    Sorting.StringOrder(result);
    result := Sorting.SortBy(result, Text.Less);
    ok := true;
  }

  ghost predicate RequiredSoFar(input: seq<string>, seen: set<string>)
  {
    && (forall n | n in input :: IsIdentifier(Text.Trim(n)))
    && Sorting.DistinctKeys(input, Text.Trim)
    && seen == (set n | n in input :: Text.Trim(n))
  }

  lemma RequiredNone()
    ensures RequiredSoFar([], {})
  {
  }

  lemma RequiredSeen(input: seq<string>, seen: set<string>, name: string) returns (x: string)
    requires RequiredSoFar(input, seen) && name in seen
    ensures x in input && Text.Trim(x) == name
  {
    x :| x in input && Text.Trim(x) == name;
  }

  lemma RequiredNext(input: seq<string>, seen: set<string>, x: string)
    requires RequiredSoFar(input, seen) && IsIdentifier(Text.Trim(x)) && Text.Trim(x) !in seen
    ensures RequiredSoFar(input + [x], seen + {Text.Trim(x)})
  {
    hide IsIdentifier;
    hide Text.Trim;
    Sorting.DistinctSnoc(input, Text.Trim, x);
  }

  lemma RequiredAll(input: seq<string>, seen: set<string>)
    requires RequiredSoFar(input, seen) && 1 <= |input| <= MAX_CHECKS
    ensures RequiredOk(input)
  {
  }

  ghost predicate ChecksByName(byName: map<string, Check>, checks: seq<Check>)
  {
    && (forall c | c in checks :: c.name in byName && byName[c.name] == c)
    && (forall n | n in byName :: byName[n] in checks && byName[n].name == n)
  }

  method CanonicalVerificationChecks(input: seq<Check>, verifiedAt: Time, now: Time, skew: int)
    returns (ok: bool, byName: map<string, Check>)
    ensures ok <==> ChecksOk(input, verifiedAt, now, skew)
    ensures ok ==> ChecksByName(byName, input)
  {
    hide IsIdentifier;
    ok, byName := false, map[];
    if |input| == 0 || |input| > MAX_CHECKS { return; }
    for k := 0 to |input|
      invariant !ok && ChecksByName(byName, input[..k])
      invariant forall c | c in input[..k] :: CheckOk(c, verifiedAt, now, skew)
      invariant Sorting.DistinctKeys(input[..k], CheckName)
    {
      var check := input[k];
      assert check in input && input[..k + 1] == input[..k] + [check];
      if !IsIdentifier(check.name) { return; }
      if check.name in byName {
        Sorting.RepeatSpoils(input, CheckName, k, byName[check.name]);
        return;
      }
      if check.status.UnknownStatus? || !check.evidenceDigest.WellFormed() || check.observedAt == ZERO_TIME ||
         check.observedAt > now + skew || check.observedAt > verifiedAt + skew {
        return;
      }
      Sorting.DistinctSnoc(input[..k], CheckName, check);
      byName := byName[check.name := check];
    }
    assert input[..|input|] == input;
    ok := true;
  }

  method EvaluateVerificationFreshness(now: Time, planID: Digest<Body>, revisionID: string, e: Evidence,
                                       policy: Policy, requiredChecks: seq<string>)
    returns (r: Evaluation)
    ensures r.Evaluated? <==> EvidenceOk(now, planID, revisionID, e, policy) && RequiredOk(requiredChecks)
    ensures r.Evaluated? ==>
              VerdictFits(r.verdict, now, (set n | n in requiredChecks :: Text.Trim(n)), e, policy.maxAge)
  {
    if now == ZERO_TIME || !planID.WellFormed() || !IsIdentifier(revisionID) ||
       e.schemaVersion != FRESHNESS_SCHEMA || !e.planID.WellFormed() || e.planID != planID ||
       !IsIdentifier(e.revisionID) || e.revisionID != revisionID || !PolicyOk(policy) ||
       e.verifiedAt == ZERO_TIME || e.verifiedAt > now + policy.maxFutureSkew {
      return InvalidEvidence;
    }
    hide IsIdentifier;
    hide Text.Trim;
    hide RequiredOk;
    hide ChecksOk;
    var requiredOk, required := CanonicalRequiredChecks(requiredChecks);
    if !requiredOk { return InvalidEvidence; }
    var checksOk, checks := CanonicalVerificationChecks(e.checks, e.verifiedAt, now, policy.maxFutureSkew);
    if !checksOk { return InvalidEvidence; }
    var verdict := Judge(required, checks, now, e, policy.maxAge);
    TrimmedNames(required, requiredChecks);
    r := Evaluated(verdict);
  }

  lemma TrimmedNames(result: seq<string>, input: seq<string>)
    requires multiset(result) == multiset(Seqs.Map(Text.Trim, input))
    ensures (set n | n in result) == (set n | n in input :: Text.Trim(n))
  {
    hide Text.Trim;
    var trimmed := Seqs.Map(Text.Trim, input);
    Sorting.SameElements(result, trimmed);
    forall n | n in input ensures Text.Trim(n) in trimmed {
      var i :| 0 <= i < |input| && input[i] == n;
      assert trimmed[i] == Text.Trim(n);
    }
  }

  /** The loop over the required checks, and the three sorted lists. */
  method Judge(required: seq<string>, checks: map<string, Check>, now: Time, e: Evidence, maxAge: int)
    returns (v: FreshnessVerdict)
    requires ChecksByName(checks, e.checks)
    ensures VerdictFits(v, now, (set n | n in required), e, maxAge)
  {
    var missing, stale, failed := [], [], [];
    if e.verifiedAt + maxAge <= now { stale := stale + ["verification"]; }
    ghost var stale0 := stale;
    for k := 0 to |required|
      invariant forall n :: n in missing <==> n in required[..k] && !Has(e.checks, n)
      invariant forall n :: n in failed <==> n in required[..k] && HasFailed(e.checks, n)
      invariant forall n :: n in stale <==> (n in required[..k] && HasStale(e.checks, n, now, maxAge)) || n in stale0
    {
      var name := required[k];
      assert required[..k + 1] == required[..k] + [name];
      Lookup(checks, e.checks, name, now, maxAge);
      if name !in checks {
        missing := missing + [name];
      } else {
        var check := checks[name];
        if !check.status.Pass? { failed := failed + [name]; }
        if check.observedAt + maxAge <= now { stale := stale + [name]; }
      }
    }
    assert required[..|required|] == required;
    var m := SortStrings(missing);
    var s := SortStrings(stale);
    var f := SortStrings(failed);
    v := FreshnessVerdict(|m| == 0 && |s| == 0 && |f| == 0, m, s, f);
  }

  lemma Lookup(byName: map<string, Check>, checks: seq<Check>, name: string, now: Time, maxAge: int)
    requires ChecksByName(byName, checks)
    ensures Has(checks, name) <==> name in byName
    ensures HasFailed(checks, name) <==> name in byName && !byName[name].status.Pass?
    ensures HasStale(checks, name, now, maxAge) <==> name in byName && byName[name].observedAt + maxAge <= now
  {
  }

  method SortStrings(s: seq<string>) returns (r: seq<string>)
    ensures forall n :: n in r <==> n in s
    ensures Sorting.SortedBy(r, Text.Less) && |r| == |s|
  {
    Sorting.StringOrder(s);
    r := Sorting.SortBy(s, Text.Less);
    Sorting.SameElements(r, s);
  }

  // ----- evaluation against a plan -----

  ghost predicate PlanEvidenceOk(now: Time, plan: Plan, e: Evidence, policy: Policy)
  {
    && IsCanonical(plan)
    && (forall c | c in e.checks :: c.name in ProbeIDs(plan))
    && EvidenceOk(now, plan.planID, plan.body.revisionID, e, policy)
  }

  /** Evidence that speaks for a change at this instant: it covers every probe
      of the plan, every check passed, and nothing has gone stale. */
  ghost predicate Speaks(now: Time, plan: Plan, e: Evidence, maxAge: int)
  {
    && (forall p | p in plan.body.probes :: Has(e.checks, p.id))
    && (forall c | c in e.checks :: c.status.Pass?)
    && now < Expiry(e.checks, e.verifiedAt, maxAge)
  }

  /** A check that names a probe of the plan, says pass or fail, and is neither from
      the future nor later than the verification it belongs to. */
  ghost predicate CheckStands(c: Check, plan: Plan, e: Evidence, latest: Time, skew: int)
  {
    && (exists p | p in plan.body.probes :: p.id == c.name) && (c.status.Pass? || c.status.Fail?) && c.evidenceDigest.WellFormed()
    && c.observedAt != ZERO_TIME && c.observedAt <= latest && c.observedAt - e.verifiedAt <= skew
  }

  /** Evidence is accepted for a plan exactly when it names it, is not from the
      future, and its checks stand, each probe at most once. */
  lemma EvidenceAcceptedIff(now: Time, plan: Plan, e: Evidence, policy: Policy)
    requires IsCanonical(plan)
    ensures PlanEvidenceOk(now, plan, e, policy) <==>
            && now != ZERO_TIME && e.schemaVersion == "network.change.verification-freshness/v1"
            && e.planID == plan.planID && e.revisionID == plan.body.revisionID
            && 0 < policy.maxAge <= 86_400_000_000_000 && 0 <= policy.maxFutureSkew <= 300_000_000_000
            && e.verifiedAt != ZERO_TIME && e.verifiedAt - policy.maxFutureSkew <= now && 1 <= |e.checks| <= 128
            && (forall c | c in e.checks :: CheckStands(c, plan, e, now + policy.maxFutureSkew, policy.maxFutureSkew))
            && forall i, j | 0 <= i < j < |e.checks| :: e.checks[i].name != e.checks[j].name
  {
    hide *;
    PlanNames(plan);
    ChecksStandIff(now, plan, e, policy);
    PolicyStandsIff(policy);
    EvidenceParts(now, plan, e, policy);
  }

  lemma PolicyStandsIff(p: Policy)
    ensures PolicyOk(p) <==> 0 < p.maxAge <= 86_400_000_000_000 && 0 <= p.maxFutureSkew <= 300_000_000_000
  {
  }

  lemma EvidenceParts(now: Time, plan: Plan, e: Evidence, policy: Policy)
    requires IsCanonical(plan) && plan.planID.WellFormed() && IsIdentifier(plan.body.revisionID)
    ensures PlanEvidenceOk(now, plan, e, policy) <==>
            && now != ZERO_TIME && e.schemaVersion == "network.change.verification-freshness/v1"
            && e.planID == plan.planID && e.revisionID == plan.body.revisionID && PolicyOk(policy)
            && e.verifiedAt != ZERO_TIME && e.verifiedAt - policy.maxFutureSkew <= now
            && (forall c | c in e.checks :: c.name in ProbeIDs(plan))
            && ChecksOk(e.checks, e.verifiedAt, now, policy.maxFutureSkew)
  {
    hide IsCanonical;
    hide IsIdentifier;
    hide PolicyOk;
    hide ChecksOk;
    hide ProbeIDs;
  }

  lemma ChecksStandIff(now: Time, plan: Plan, e: Evidence, policy: Policy)
    requires forall name | name in ProbeIDs(plan) :: IsIdentifier(name)
    ensures (&& (forall c | c in e.checks :: c.name in ProbeIDs(plan))
             && ChecksOk(e.checks, e.verifiedAt, now, policy.maxFutureSkew)) <==>
            && 1 <= |e.checks| <= 128
            && (forall c | c in e.checks :: CheckStands(c, plan, e, now + policy.maxFutureSkew, policy.maxFutureSkew))
            && forall i, j | 0 <= i < j < |e.checks| :: e.checks[i].name != e.checks[j].name
  {
    hide IsIdentifier;
    forall c | c in e.checks
      ensures CheckStands(c, plan, e, now + policy.maxFutureSkew, policy.maxFutureSkew) <==>
              c.name in ProbeIDs(plan) && CheckOk(c, e.verifiedAt, now, policy.maxFutureSkew)
    {
      NamedProbe(plan, c.name);
      hide ProbeIDs;
    }
    hide CheckStands;
    hide CheckOk;
    hide ProbeIDs;
    DistinctNames(e.checks);
    hide Sorting.DistinctKeys;
  }

  lemma DistinctNames(checks: seq<Check>)
    ensures Sorting.DistinctKeys(checks, CheckName) <==> forall i, j | 0 <= i < j < |checks| :: checks[i].name != checks[j].name
  {
    if Sorting.DistinctKeys(checks, CheckName) {
      forall i, j | 0 <= i < j < |checks| ensures checks[i].name != checks[j].name {
        assert CheckName(checks[i]) != CheckName(checks[j]);
      }
    }
  }

  lemma NamedProbe(plan: Plan, name: string)
    ensures name in ProbeIDs(plan) <==> exists p | p in plan.body.probes :: p.id == name
  {
  }

  lemma PlanNames(plan: Plan)
    requires IsCanonical(plan)
    ensures plan.planID.WellFormed() && IsIdentifier(plan.body.revisionID)
    ensures forall name | name in ProbeIDs(plan) :: IsIdentifier(name)
  {
    CanonicalPlanFacts(plan);
    CanonicalSafe(plan);
    assert plan.planID == Sha256Of(plan.body);
    hide IsCanonical;
    hide IsIdentifier;
  }

  method EvaluateChangePlanVerificationFreshness(now: Time, plan: Plan, e: Evidence, policy: Policy)
    returns (r: Evaluation)
    ensures r.Evaluated? <==> PlanEvidenceOk(now, plan, e, policy)
    ensures r.Evaluated? ==> (r.verdict.ready <==> Speaks(now, plan, e, policy.maxAge))
    ensures r.Evaluated? ==> VerdictFits(r.verdict, now, ProbeIDs(plan), e, policy.maxAge)
  {
    if plan.planID != Sha256Of(plan.body) {
      NotCanonical(plan);
      return InvalidEvidence;
    }
    var built := BuildChangePlan(RequestOf(plan));
    if !built.Built? || built.plan.planID != plan.planID { return InvalidEvidence; }
    CanonicalSafe(built.plan);
    assert built.plan == plan;
    hide IsCanonical;
    CanonicalPlanFacts(plan);
    hide PlanFacts;
    hide RequiredOk;
    hide EvidenceOk;
    hide VerdictFits;
    var required, requiredSet := RequiredByPlan(plan);
    var declared := AllDeclared(e.checks, requiredSet);
    if !declared { return InvalidEvidence; }
    PlanRequires(plan, required);
    r := EvaluateVerificationFreshness(now, plan.planID, plan.body.revisionID, e, policy, required);
    if r.Evaluated? { ReadyIffSpeaks(r.verdict, now, plan, e, policy.maxAge); }
  }

  method RequiredByPlan(plan: Plan) returns (required: seq<string>, requiredSet: set<string>)
    ensures required == Seqs.Map(ProbeID, plan.body.probes) && requiredSet == ProbeIDs(plan)
  {
    required, requiredSet := [], {};
    for k := 0 to |plan.body.probes|
      invariant required == Seqs.Map(ProbeID, plan.body.probes[..k])
      invariant requiredSet == set p | p in plan.body.probes[..k] :: p.id
    {
      assert plan.body.probes[..k + 1] == plan.body.probes[..k] + [plan.body.probes[k]];
      required := required + [plan.body.probes[k].id];
      requiredSet := requiredSet + {plan.body.probes[k].id};
    }
    assert plan.body.probes[..|plan.body.probes|] == plan.body.probes;
  }

  method AllDeclared(checks: seq<Check>, requiredSet: set<string>) returns (declared: bool)
    ensures declared <==> forall c | c in checks :: c.name in requiredSet
  {
    for k := 0 to |checks|
      invariant forall c | c in checks[..k] :: c.name in requiredSet
    {
      assert checks[..k + 1] == checks[..k] + [checks[k]];
      assert checks[k] in checks;
      if checks[k].name !in requiredSet { return false; }
    }
    assert checks[..|checks|] == checks;
    return true;
  }

  lemma NotCanonical(plan: Plan)
    requires plan.planID != Sha256Of(plan.body)
    ensures !IsCanonical(plan)
  {
    if IsCanonical(plan) { CanonicalSafe(plan); }
  }

  lemma PlanRequires(plan: Plan, required: seq<string>)
    requires PlanFacts(plan) && required == Seqs.Map(ProbeID, plan.body.probes)
    ensures RequiredOk(required)
    ensures (set n | n in required :: Text.Trim(n)) == ProbeIDs(plan)
  {
    var probes := plan.body.probes;
    forall i | 0 <= i < |required| ensures IsIdentifier(required[i]) && Text.Trim(required[i]) == required[i] {
      assert probes[i] in probes;
      Text.TrimIdentifier(required[i], 128, false);
    }
    hide IsIdentifier;
    hide Text.Trim;
    forall i, j | 0 <= i < j < |required| ensures Text.Trim(required[i]) != Text.Trim(required[j]) {
      assert ProbeID(probes[i]) != ProbeID(probes[j]);
    }
    forall p | p in probes ensures p.id in required {
      var i :| 0 <= i < |probes| && probes[i] == p;
      assert required[i] == p.id;
    }
  }

  /** The verdict is "ready" exactly when the evidence speaks for the change. */
  lemma ReadyIffSpeaks(v: FreshnessVerdict, now: Time, plan: Plan, e: Evidence, maxAge: int)
    requires VerdictFits(v, now, ProbeIDs(plan), e, maxAge)
    requires forall c | c in e.checks :: c.name in ProbeIDs(plan)
    ensures v.ready <==> Speaks(now, plan, e, maxAge)
  {
    ExpiryIsFirst(e.checks, e.verifiedAt, maxAge, now);
    assert v.missing == [] <==> forall p | p in plan.body.probes :: Has(e.checks, p.id) by {
      if v.missing != [] {
        assert v.missing[0] in v.missing;
      } else {
        forall p | p in plan.body.probes ensures Has(e.checks, p.id) { assert p.id in ProbeIDs(plan); }
      }
    }
    assert v.failed == [] <==> forall c | c in e.checks :: c.status.Pass? by {
      if v.failed != [] {
        assert v.failed[0] in v.failed;
      } else {
        forall c | c in e.checks ensures c.status.Pass? { assert !HasFailed(e.checks, c.name); }
      }
    }
    assert v.stale == [] <==> now < e.verifiedAt + maxAge && forall c | c in e.checks :: now < c.observedAt + maxAge by {
      if v.stale != [] {
        assert v.stale[0] in v.stale;
      } else {
        assert "verification" !in v.stale;
        forall c | c in e.checks ensures now < c.observedAt + maxAge { assert !HasStale(e.checks, c.name, now, maxAge); }
      }
    }
  }
}
