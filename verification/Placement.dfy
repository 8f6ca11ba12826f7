/** Choosing the least-loaded eligible node (internal/placement/plan.go). */
module Placement {
  import opened Metadata
  import opened Options
  import opened PlacementScores
  import Seqs
  import Sorting
  import Text

  datatype Candidate = Candidate(
    nodeID: string, siteID: string, zoneID: string, roles: seq<string>, healthy: bool, schedulable: bool,
    allocatable: Resources, used: Resources)

  datatype Class = Stateless | Stateful | UnknownClass(text: string)

  datatype Request = Request(
    workloadID: string, workload: Class, requiredRole: string, allowedSites: seq<string>, allowedZones: seq<string>,
    antiAffinity: seq<string>, resources: Resources, currentNodeID: string, migrationAdapter: string,
    healthyReplicasOutside: nat, topologyGeneration: uint64, topologyVersion: string)

  /** The identity of a plan is a digest of these three, taken as injective; every
      other field is read off them or constant. */
  datatype Plan = Plan(request: Request, selected: Candidate, score: nat)

  // ----- lists of identifiers -----

  predicate IsIdentifier(s: string) { Text.IsIdentifier(s, 128, true) }
  function Itself(s: string): string { s }

  predicate IsRole(s: string)
  {
    s in {"management-node", "global-controller", "site-controller", "controller-cluster-member", "worker-node",
          "managed-node", "agent", "data-node", "consensus-node", "repository-node", "telemetry-node",
          "backup-repository-node", "edge-gateway"}
  }

  function SortStrings(s: seq<string>): (r: seq<string>)
    ensures multiset(r) == multiset(s) && Sorting.SortedBy(r, Text.Less)
  {
    Sorting.StringOrder(s);
    Sorting.SortBy(s, Text.Less)
  }

  /** Comparing neighbours of a sorted list finds every repetition. */
  lemma NeighboursDecide(s: seq<string>)
    requires Sorting.SortedBy(s, Text.Less)
    ensures (forall i | 1 <= i < |s| :: s[i] != s[i - 1]) <==> Sorting.DistinctKeys(s, Itself)
  {
    if forall i | 1 <= i < |s| :: s[i] != s[i - 1] {
      forall i, j | 0 <= i < j < |s| ensures Itself(s[i]) != Itself(s[j]) {
        assert s[i + 1] != s[i];
        assert !Text.Less(s[i + 1], s[i]) && (i + 1 < j ==> !Text.Less(s[j], s[i + 1]));
        Text.LessTotal(s[i], s[i + 1]);
        Text.LessTotal(s[i + 1], s[j]);
        if i + 1 < j && s[i + 1] != s[j] {
          Text.LessTransitive(s[i], s[i + 1], s[j]);
        }
        Text.LessAsymmetric(s[i], s[j]);
      }
    }
    if Sorting.DistinctKeys(s, Itself) {
      forall i | 1 <= i < |s| ensures s[i] != s[i - 1] { assert Itself(s[i - 1]) != Itself(s[i]); }
    }
  }

  method HasRepetition(s: seq<string>) returns (found: bool)
    requires Sorting.SortedBy(s, Text.Less)
    ensures found <==> !Sorting.DistinctKeys(s, Itself)
  {
    NeighboursDecide(s);
    hide Sorting.DistinctKeys;
    hide Sorting.SortedBy;
    var i := 1;
    while i < |s|
      invariant 1 <= i && forall k | 1 <= k < i && k < |s| :: s[k] != s[k - 1]
    {
      if s[i] == s[i - 1] { return true; }
      i := i + 1;
    }
    return false;
  }

  /** Trimmed, sorted, valid and without repetition; or refused. */
  ghost predicate Canonical(values: seq<string>)
  {
    var trimmed := Seqs.Map(Text.Trim, values);
    (forall v | v in trimmed :: IsIdentifier(v)) && Sorting.DistinctKeys(trimmed, Itself)
  }

  method CanonicalIDs(values: seq<string>) returns (r: Option<seq<string>>)
    ensures r.Some? <==> Canonical(values)
    ensures r.Some? ==> r.value == SortStrings(Seqs.Map(Text.Trim, values))
  {
    hide IsIdentifier;
    hide Sorting.DistinctKeys;
    ghost var trimmed := Seqs.Map(Text.Trim, values);
    var result: seq<string> := [];
    for k := 0 to |values|
      invariant result == trimmed[..k] && forall v | v in trimmed[..k] :: IsIdentifier(v)
    {
      var value := Text.Trim(values[k]);
      assert value == trimmed[k] && value in trimmed && trimmed[..k + 1] == trimmed[..k] + [value];
      if !IsIdentifier(value) { return None; }
      result := result + [value];
    }
    assert trimmed[..|trimmed|] == trimmed;
    var sorted := SortStrings(result);
    var repeated := HasRepetition(sorted);
    if repeated {
      if Sorting.DistinctKeys(result, Itself) { Sorting.DistinctPermuted(result, sorted, Itself); }
      return None;
    }
    Sorting.DistinctPermuted(sorted, result, Itself);
    return Some(sorted);
  }

  /** Binary search in a sorted list: the first position not below `wanted`. */
  method SearchStrings(values: seq<string>, wanted: string) returns (at: nat)
    requires Sorting.SortedBy(values, Text.Less)
    ensures at <= |values|
    ensures forall i | 0 <= i < at :: Text.Less(values[i], wanted)
    ensures forall i | at <= i < |values| :: !Text.Less(values[i], wanted)
  {
    var lo, hi := 0, |values|;
    while lo < hi
      invariant 0 <= lo <= hi <= |values|
      invariant forall i | 0 <= i < lo :: Text.Less(values[i], wanted)
      invariant forall i | hi <= i < |values| :: !Text.Less(values[i], wanted)
    {
      var mid := (lo + hi) / 2;
      Halves(values, wanted, mid);
      if Text.Less(values[mid], wanted) { lo := mid + 1; } else { hi := mid; }
    }
    at := lo;
  }

  lemma Halves(values: seq<string>, wanted: string, mid: nat)
    requires Sorting.SortedBy(values, Text.Less) && mid < |values|
    ensures Text.Less(values[mid], wanted) ==> forall i | 0 <= i <= mid :: Text.Less(values[i], wanted)
    ensures !Text.Less(values[mid], wanted) ==> forall i | mid <= i < |values| :: !Text.Less(values[i], wanted)
  {
    Text.LessIsStrictTotal();
    hide Text.Less;
    forall i | 0 <= i < mid && Text.Less(values[mid], wanted) ensures Text.Less(values[i], wanted) {
      assert !Text.Less(values[mid], values[i]);
    }
    forall i | mid < i < |values| && !Text.Less(values[mid], wanted) ensures !Text.Less(values[i], wanted) {
      assert !Text.Less(values[i], values[mid]);
    }
  }

  lemma SearchFinds(values: seq<string>, wanted: string, at: nat)
    requires Sorting.SortedBy(values, Text.Less) && at <= |values|
    requires forall i | 0 <= i < at :: Text.Less(values[i], wanted)
    requires forall i | at <= i < |values| :: !Text.Less(values[i], wanted)
    ensures wanted in values <==> at < |values| && values[at] == wanted
  {
    if wanted in values {
      var k :| 0 <= k < |values| && values[k] == wanted;
      Text.LessAsymmetric(wanted, wanted);
      assert at <= k && (at < k ==> !Text.Less(values[k], values[at]));
      Text.LessTotal(values[at], wanted);
    }
  }

  /** Membership by binary search is membership. */
  method Contains(values: seq<string>, wanted: string) returns (found: bool)
    requires Sorting.SortedBy(values, Text.Less)
    ensures found <==> wanted in values
  {
    var i := SearchStrings(values, wanted);
    SearchFinds(values, wanted, i);
    return i < |values| && values[i] == wanted;
  }

  method Allowed(value: string, values: seq<string>) returns (ok: bool)
    requires Sorting.SortedBy(values, Text.Less)
    ensures ok <==> values == [] || value in values
  {
    if |values| == 0 { return true; }
    ok := Contains(values, value);
  }

  // ----- admission -----

  function SortedTrimmed(values: seq<string>): seq<string> { SortStrings(Seqs.Map(Text.Trim, values)) }

  /** The request as the plan sees it. */
  function NormalRequest(r: Request): Request
  {
    r.(workloadID := Text.Trim(r.workloadID), currentNodeID := Text.Trim(r.currentNodeID),
       migrationAdapter := Text.Trim(r.migrationAdapter), topologyVersion := Text.Trim(r.topologyVersion),
       allowedSites := SortedTrimmed(r.allowedSites), allowedZones := SortedTrimmed(r.allowedZones),
       antiAffinity := SortedTrimmed(r.antiAffinity))
  }

  predicate FieldsOk(r: Request)
  {
    && IsIdentifier(Text.Trim(r.workloadID)) && !r.workload.UnknownClass? && IsRole(r.requiredRole)
    && r.resources.cpu != 0 && r.resources.memory != 0 && r.resources.storage != 0 && r.topologyGeneration != 0
    && IsIdentifier(Text.Trim(r.topologyVersion))
    && (Text.Trim(r.currentNodeID) == "" || IsIdentifier(Text.Trim(r.currentNodeID)))
    && (Text.Trim(r.migrationAdapter) == "" || IsIdentifier(Text.Trim(r.migrationAdapter)))
  }

  ghost predicate RequestOk(r: Request)
  {
    FieldsOk(r) && Canonical(r.allowedSites) && Canonical(r.allowedZones) && Canonical(r.antiAffinity)
  }

  function NormalCandidate(c: Candidate): Candidate
  {
    c.(nodeID := Text.Trim(c.nodeID), siteID := Text.Trim(c.siteID), zoneID := Text.Trim(c.zoneID), roles := SortStrings(c.roles))
  }

  ghost predicate CandidateOk(c: Candidate)
  {
    && IsIdentifier(Text.Trim(c.nodeID)) && IsIdentifier(Text.Trim(c.siteID)) && IsIdentifier(Text.Trim(c.zoneID))
    && HoldsAll(c.allocatable, c.used)
    && c.roles != [] && (forall r | r in c.roles :: IsRole(r)) && Sorting.DistinctKeys(c.roles, Itself)
  }

  method NormalizeRequest(r: Request) returns (n: Option<Request>)
    ensures n.Some? <==> RequestOk(r)
    ensures n.Some? ==> n.value == NormalRequest(r)
  {
    hide FieldsOk;
    hide Canonical;
    hide SortStrings;
    if !FieldsOk(r) { return None; }
    var sites := CanonicalIDs(r.allowedSites);
    if sites.None? { return None; }
    var zones := CanonicalIDs(r.allowedZones);
    if zones.None? { return None; }
    var apart := CanonicalIDs(r.antiAffinity);
    if apart.None? { return None; }
    return Some(r.(workloadID := Text.Trim(r.workloadID), currentNodeID := Text.Trim(r.currentNodeID),
                   migrationAdapter := Text.Trim(r.migrationAdapter), topologyVersion := Text.Trim(r.topologyVersion),
                   allowedSites := sites.value, allowedZones := zones.value, antiAffinity := apart.value));
  }

  method NormalizeCandidate(c: Candidate) returns (n: Option<Candidate>)
    ensures n.Some? <==> CandidateOk(c)
    ensures n.Some? ==> n.value == NormalCandidate(c)
  {
    hide IsIdentifier;
    hide IsRole;
    hide Text.Trim;
    if !IsIdentifier(Text.Trim(c.nodeID)) || !IsIdentifier(Text.Trim(c.siteID)) || !IsIdentifier(Text.Trim(c.zoneID)) ||
       !HoldsAll(c.allocatable, c.used) || |c.roles| == 0 {
      return None;
    }
    for k := 0 to |c.roles|
      invariant forall r | r in c.roles[..k] :: IsRole(r)
    {
      assert c.roles[k] in c.roles && c.roles[..k + 1] == c.roles[..k] + [c.roles[k]];
      if !IsRole(c.roles[k]) { return None; }
    }
    assert c.roles[..|c.roles|] == c.roles;
    var sorted := SortStrings(c.roles);
    hide Sorting.DistinctKeys;
    var repeated := HasRepetition(sorted);
    if repeated {
      if Sorting.DistinctKeys(c.roles, Itself) { Sorting.DistinctPermuted(c.roles, sorted, Itself); }
      return None;
    }
    Sorting.DistinctPermuted(sorted, c.roles, Itself);
    return Some(NormalCandidate(c));
  }

  // ----- eligibility -----

  /** What the constraints ask of a candidate, in terms of the lists as given. */
  predicate Eligible(c: Candidate, r: Request)
    requires HoldsAll(c.allocatable, c.used)
  {
    && c.healthy && c.schedulable && r.requiredRole in c.roles
    && (r.allowedSites == [] || c.siteID in r.allowedSites) && (r.allowedZones == [] || c.zoneID in r.allowedZones)
    && c.nodeID !in r.antiAffinity && Fits(c.allocatable, c.used, r.resources)
  }

  function Score(c: Candidate, r: Request): nat
    requires HoldsAll(c.allocatable, c.used)
  {
    DominantPPM(c.allocatable, c.used, r.resources)
  }

  function TrueScore(c: Candidate, r: Request): nat
    requires HoldsAll(c.allocatable, c.used)
  {
    TrueDominantPPM(c.allocatable, c.used, r.resources)
  }

  function TrimmedNodeID(c: Candidate): string { Text.Trim(c.nodeID) }
  function NodeID(c: Candidate): string { c.nodeID }

  function PickEligible(r: Request): Candidate -> Option<Candidate>
  {
    (c: Candidate) => if HoldsAll(c.allocatable, c.used) && Eligible(NormalCandidate(c), r) then Some(NormalCandidate(c)) else None
  }

  function EligibleOf(r: Request, candidates: seq<Candidate>): seq<Candidate>
  {
    Seqs.Collect(PickEligible(r), candidates)
  }

  ghost predicate Admissible(r: Request, candidates: seq<Candidate>)
  {
    && RequestOk(r) && 1 <= |candidates| <= 4096
    && (forall c | c in candidates :: CandidateOk(c)) && Sorting.DistinctKeys(candidates, TrimmedNodeID)
  }

  // ----- the choice -----

  /** Lower score first, then smaller identifier. */
  predicate Before(score: Candidate -> nat, a: Candidate, b: Candidate)
  {
    score(a) < score(b) || (score(a) == score(b) && Text.Less(a.nodeID, b.nodeID))
  }

  ghost predicate IsFirst(score: Candidate -> nat, best: Candidate, s: seq<Candidate>)
  {
    best in s && forall c | c in s && c != best :: Before(score, best, c)
  }

  function ScoreFor(r: Request): Candidate -> nat
  {
    (c: Candidate) => if HoldsAll(c.allocatable, c.used) then Score(c, r) else 0
  }

  function TrueScoreFor(r: Request): Candidate -> nat
  {
    (c: Candidate) => if HoldsAll(c.allocatable, c.used) then TrueScore(c, r) else 0
  }

  /** A stateful workload only moves with an adapter and a healthy replica elsewhere. */
  predicate MoveOk(r: Request, best: Candidate)
  {
    r.workload.Stateful? && r.currentNodeID != "" && best.nodeID != r.currentNodeID ==>
      r.migrationAdapter != "" && r.healthyReplicasOutside != 0
  }

  ghost predicate IsPlan(p: Plan, r: Request, candidates: seq<Candidate>)
  {
    var n := NormalRequest(r);
    && p.request == n && IsFirst(ScoreFor(n), p.selected, EligibleOf(n, candidates))
    && p.score == ScoreFor(n)(p.selected) && MoveOk(n, p.selected)
  }

  lemma FirstOnce(score: Candidate -> nat, a: Candidate, b: Candidate, s: seq<Candidate>, t: seq<Candidate>)
    requires multiset(s) == multiset(t) && IsFirst(score, a, s) && IsFirst(score, b, t)
    ensures a == b
  {
    Sorting.SameElements(s, t);
    Text.LessAsymmetric(a.nodeID, b.nodeID);
  }

  /** The plan does not depend on the order of the candidates. */
  lemma PlanIgnoresOrder(p: Plan, q: Plan, r: Request, a: seq<Candidate>, b: seq<Candidate>)
    requires multiset(a) == multiset(b) && IsPlan(p, r, a) && IsPlan(q, r, b)
    ensures p == q
  {
    var n := NormalRequest(r);
    Seqs.CollectPermuted(PickEligible(n), a, b);
    hide IsFirst;
    hide NormalRequest;
    hide ScoreFor;
    FirstOnce(ScoreFor(n), p.selected, q.selected, EligibleOf(n, a), EligibleOf(n, b));
  }

  /** All of them can hold and fit what is asked. */
  predicate AllFit(r: Request, s: seq<Candidate>)
  {
    forall c | c in s :: HoldsAll(c.allocatable, c.used) && Fits(c.allocatable, c.used, r.resources)
  }

  lemma EligibleFit(r: Request, candidates: seq<Candidate>)
    ensures AllFit(r, EligibleOf(r, candidates))
    ensures forall c | c in EligibleOf(r, candidates) :: HoldsAll(c.allocatable, c.used) && Eligible(c, r)
  {
    hide SortStrings;
    hide Text.Trim;
    Seqs.Collected(PickEligible(r), candidates);
  }

  predicate Misscored(r: Request, c: Candidate)
  {
    HoldsAll(c.allocatable, c.used) && !Measurable(c.allocatable, c.used, r.resources)
  }

  lemma Scores(r: Request, c: Candidate)
    requires HoldsAll(c.allocatable, c.used) && Fits(c.allocatable, c.used, r.resources)
    ensures ScoreFor(r)(c) <= TrueScoreFor(r)(c) <= MILLION
    ensures ScoreFor(r)(c) == TrueScoreFor(r)(c) <==> !Misscored(r, c)
  {
    hide DominantPPM;
    hide TrueDominantPPM;
    hide Measurable;
    DominantExactIff(c.allocatable, c.used, r.resources);
  }

  /** A plan's score is at most a million, and the plan is for an eligible candidate. */
  lemma PlanScoreBound(p: Plan, r: Request, candidates: seq<Candidate>)
    requires IsPlan(p, r, candidates)
    ensures p.score <= MILLION
    ensures HoldsAll(p.selected.allocatable, p.selected.used) && Eligible(p.selected, NormalRequest(r))
  {
    var n := NormalRequest(r);
    hide ScoreFor;
    hide TrueScoreFor;
    hide Misscored;
    hide NormalRequest;
    EligibleFit(n, candidates);
    hide EligibleOf;
    hide Eligible;
    hide Fits;
    hide HoldsAll;
    Scores(n, p.selected);
  }

  /** Whatever the score, distinct identifiers leave one candidate first. */
  lemma {:induction false} FirstExists(score: Candidate -> nat, s: seq<Candidate>) returns (best: Candidate)
    requires s != [] && Sorting.DistinctKeys(s, NodeID)
    ensures IsFirst(score, best, s)
  {
    var front, last := s[..|s| - 1], s[|s| - 1];
    assert s == front + [last];
    best := last;
    if front != [] {
      var first := FirstExists(score, front);
      assert first in s && last in s;
      if first != last { RankTotal(score, s, first, last); }
      if !Before(score, last, first) {
        best := first;
      } else {
        forall c | c in front && c != first ensures Before(score, last, c) { RankTransitive(score, last, first, c); }
      }
    }
  }

  lemma RankTransitive(score: Candidate -> nat, a: Candidate, b: Candidate, c: Candidate)
    requires Before(score, a, b) && Before(score, b, c)
    ensures Before(score, a, c)
  {
    if Text.Less(a.nodeID, b.nodeID) && Text.Less(b.nodeID, c.nodeID) { Text.LessTransitive(a.nodeID, b.nodeID, c.nodeID); }
  }

  /** The plan is for the truly least-loaded eligible candidate exactly when no
      eligible candidate whose dominant resource wrapped is ranked ahead of that one. */
  lemma ChoiceTrueIff(p: Plan, r: Request, candidates: seq<Candidate>) returns (truest: Candidate)
    requires Admissible(r, candidates) && IsPlan(p, r, candidates)
    ensures var n := NormalRequest(r);
            var s := EligibleOf(n, candidates);
            && IsFirst(TrueScoreFor(n), truest, s)
            && (IsFirst(TrueScoreFor(n), p.selected, s) <==>
                !exists c | c in s :: Misscored(n, c) && Before(ScoreFor(n), c, truest))
  {
    var n := NormalRequest(r);
    var s := EligibleOf(n, candidates);
    hide *;
    EligibleFit(n, candidates);
    PlanParts(p, r, candidates);
    truest := FirstExists(TrueScoreFor(n), s);
    Overtakes(n, s, p.selected, truest);
    if IsFirst(TrueScoreFor(n), p.selected, s) { FirstOnce(TrueScoreFor(n), p.selected, truest, s, s); }
  }

  lemma PlanParts(p: Plan, r: Request, candidates: seq<Candidate>)
    requires Admissible(r, candidates) && IsPlan(p, r, candidates)
    ensures var s := EligibleOf(NormalRequest(r), candidates);
            && s != [] && Sorting.DistinctKeys(s, NodeID) && IsFirst(ScoreFor(NormalRequest(r)), p.selected, s)
  {
    hide RequestOk;
    hide CandidateOk;
    hide NormalRequest;
    hide EligibleOf;
    hide ScoreFor;
    EligibleApart(NormalRequest(r), candidates);
  }

  lemma Overtakes(r: Request, s: seq<Candidate>, best: Candidate, truest: Candidate)
    requires AllFit(r, s) && IsFirst(ScoreFor(r), best, s) && IsFirst(TrueScoreFor(r), truest, s)
    ensures best == truest <==> !exists c | c in s :: Misscored(r, c) && Before(ScoreFor(r), c, truest)
  {
    Scores(r, best);
    Scores(r, truest);
    hide ScoreFor;
    hide TrueScoreFor;
    hide Misscored;
    hide AllFit;
    if best != truest {
      Text.LessAsymmetric(best.nodeID, truest.nodeID);
      assert Misscored(r, best) && Before(ScoreFor(r), best, truest);
    } else {
      forall c | c in s ensures !Before(ScoreFor(r), c, truest) {
        Text.LessAsymmetric(c.nodeID, best.nodeID);
      }
    }
  }

  /** With every allocatable amount small enough, the choice is the true one. */
  lemma SmallNodesPlacedTruly(p: Plan, r: Request, candidates: seq<Candidate>)
    requires IsPlan(p, r, candidates)
    requires forall c | c in EligibleOf(NormalRequest(r), candidates) ::
               c.allocatable.cpu <= LARGEST_EXACT && c.allocatable.memory <= LARGEST_EXACT && c.allocatable.storage <= LARGEST_EXACT
    ensures IsFirst(TrueScoreFor(NormalRequest(r)), p.selected, EligibleOf(NormalRequest(r), candidates))
  {
    var n := NormalRequest(r);
    var s := EligibleOf(n, candidates);
    EligibleFit(n, candidates);
    hide EligibleOf;
    hide NormalRequest;
    hide ScoreFor;
    hide TrueScoreFor;
    hide Fits;
    hide HoldsAll;
    hide Measurable;
    forall c | c in s ensures TrueScoreFor(n)(c) == ScoreFor(n)(c) {
      SmallIsMeasurable(c.allocatable, c.used, n.resources);
      Scores(n, c);
    }
  }

  const WORKER: seq<string> := ["worker-node"]

  function ExampleRequest(): Request
  {
    Request("w", Stateless, "worker-node", [], [], [], Resources(1, 1, 1), "", "", 0, 1, "v")
  }

  /** Nearly full, with an enormous storage. */
  function FullNode(): Candidate
  {
    Candidate("a", "s", "z", WORKER, true, true,
              Resources(MILLION, MILLION, 18_446_744_073_710), Resources(0, 0, 18_446_744_073_709))
  }

  function IdleNode(): Candidate
  {
    Candidate("b", "s", "z", WORKER, true, true, Resources(MILLION, MILLION, MILLION), Resources(10, 10, 10))
  }

  /** An admissible request whose plan is for a nearly full node, its score wrapped to
      almost nothing, although the other eligible node is all but idle. */
  lemma OverflowMisplaces() returns (p: Plan, r: Request, candidates: seq<Candidate>)
    ensures Admissible(r, candidates) && IsPlan(p, r, candidates)
    ensures var s := EligibleOf(NormalRequest(r), candidates);
            && s == candidates == [FullNode(), IdleNode()] && p.selected == FullNode()
            && IsFirst(TrueScoreFor(NormalRequest(r)), IdleNode(), s)
  {
    var full, idle := FullNode(), IdleNode();
    r, candidates := ExampleRequest(), [full, idle];
    ExampleNormal();
    ExampleCandidate(full);
    ExampleCandidate(idle);
    ExampleEligible();
    ExampleRanks();
    assert "a"[0] == 'a' && "b"[0] == 'b';
    assert TrimmedNodeID(full) != TrimmedNodeID(idle);
    p := Plan(r, full, ScoreFor(r)(full));
    hide RequestOk;
    hide CandidateOk;
    hide NormalRequest;
    hide EligibleOf;
    hide ScoreFor;
    hide TrueScoreFor;
    hide IsFirst;
  }

  lemma ExampleNormal()
    ensures RequestOk(ExampleRequest()) && NormalRequest(ExampleRequest()) == ExampleRequest()
  {
    var none: seq<string> := [];
    assert Seqs.Map(Text.Trim, none) == none;
    Sorting.SameElements(SortStrings(none), none);
    assert Text.Trim("w") == "w" && Text.Trim("v") == "v" && Text.Trim("") == "";
  }

  lemma OneSorted(x: string)
    ensures SortStrings([x]) == [x]
  {
    Sorting.SameElements(SortStrings([x]), [x]);
    assert SortStrings([x])[0] in SortStrings([x]);
  }

  lemma ExampleCandidate(c: Candidate)
    requires c.nodeID in {"a", "b"} && c.siteID == "s" && c.zoneID == "z" && c.roles == WORKER && HoldsAll(c.allocatable, c.used)
    ensures CandidateOk(c) && NormalCandidate(c) == c && TrimmedNodeID(c) == c.nodeID
  {
    OneSorted("worker-node");
    assert Text.Trim(c.nodeID) == c.nodeID && Text.Trim("s") == "s" && Text.Trim("z") == "z";
    hide SortStrings;
  }

  lemma ExamplePicked(c: Candidate)
    requires c == FullNode() || c == IdleNode()
    ensures PickEligible(ExampleRequest())(c) == Some(c)
  {
    ExampleCandidate(c);
    hide NormalCandidate;
    assert "worker-node" in WORKER;
    assert Eligible(c, ExampleRequest());
    hide Eligible;
  }

  lemma ExampleEligible()
    ensures EligibleOf(ExampleRequest(), [FullNode(), IdleNode()]) == [FullNode(), IdleNode()]
  {
    var pick, full, idle := PickEligible(ExampleRequest()), FullNode(), IdleNode();
    ExamplePicked(full);
    ExamplePicked(idle);
    hide PickEligible;
    hide FullNode;
    hide IdleNode;
    hide Seqs.Collect;
    Seqs.CollectOne(pick, full);
    Seqs.CollectOne(pick, idle);
    Seqs.CollectJoins(pick, [full], [idle]);
    assert [full] + [idle] == [full, idle];
  }

  lemma ExampleRanks()
    ensures IsFirst(ScoreFor(ExampleRequest()), FullNode(), [FullNode(), IdleNode()])
    ensures IsFirst(TrueScoreFor(ExampleRequest()), IdleNode(), [FullNode(), IdleNode()])
  {
    var r, full, idle := ExampleRequest(), FullNode(), IdleNode();
    ExampleScores();
    hide WrappedPPM;
    hide TruePPM;
    assert ScoreFor(r)(full) == 1 && ScoreFor(r)(idle) == 11;
    assert TrueScoreFor(r)(full) == MILLION && TrueScoreFor(r)(idle) == 11;
    hide ScoreFor;
    hide TrueScoreFor;
  }

  lemma ExampleScores()
    ensures WrappedPPM(0, 1, MILLION) == TruePPM(0, 1, MILLION) == 1
    ensures WrappedPPM(10, 1, MILLION) == TruePPM(10, 1, MILLION) == 11
    ensures WrappedPPM(18_446_744_073_709, 1, 18_446_744_073_710) == 0
    ensures TruePPM(18_446_744_073_709, 1, 18_446_744_073_710) == MILLION
  {
  }

  // ----- the planner -----

  method Constrained(c: Candidate, r: Request) returns (ok: bool)
    requires HoldsAll(c.allocatable, c.used) && Sorting.SortedBy(r.allowedSites, Text.Less)
    requires Sorting.SortedBy(r.allowedZones, Text.Less) && Sorting.SortedBy(r.antiAffinity, Text.Less)
    ensures ok <==> Eligible(c, r)
  {
    if !c.healthy || !c.schedulable || r.requiredRole !in c.roles { return false; }
    var site := Allowed(c.siteID, r.allowedSites);
    if !site { return false; }
    var zone := Allowed(c.zoneID, r.allowedZones);
    if !zone { return false; }
    var apart := Contains(r.antiAffinity, c.nodeID);
    return !apart && Fits(c.allocatable, c.used, r.resources);
  }

  lemma NormalSorted(r: Request)
    ensures var n := NormalRequest(r);
            && Sorting.SortedBy(n.allowedSites, Text.Less) && Sorting.SortedBy(n.allowedZones, Text.Less)
            && Sorting.SortedBy(n.antiAffinity, Text.Less)
  {
    hide Sorting.SortedBy;
  }

  ghost predicate AllApart(candidates: seq<Candidate>)
  {
    (forall c | c in candidates :: CandidateOk(c)) && Sorting.DistinctKeys(candidates, TrimmedNodeID)
  }

  /** What the screening loop has when it has seen the candidates `s`. */
  ghost predicate Screened(r: Request, s: seq<Candidate>, seen: set<string>, eligible: seq<Candidate>)
  {
    && (forall c | c in s :: CandidateOk(c)) && Sorting.SeenKeys(seen, s, TrimmedNodeID)
    && eligible == EligibleOf(r, s)
  }

  lemma ScreenedNone(r: Request)
    ensures Screened(r, [], {}, [])
  {
  }

  lemma ScreenedNext(r: Request, s: seq<Candidate>, k: nat, seen: set<string>, eligible: seq<Candidate>)
    requires k < |s| && Screened(r, s[..k], seen, eligible)
    ensures if CandidateOk(s[k]) && TrimmedNodeID(s[k]) !in seen then
              HoldsAll(s[k].allocatable, s[k].used) &&
              Screened(r, s[..k + 1], seen + {TrimmedNodeID(s[k])},
                       if Eligible(NormalCandidate(s[k]), r) then eligible + [NormalCandidate(s[k])] else eligible)
            else !AllApart(s)
  {
    hide CandidateOk;
    hide Eligible;
    hide EligibleOf;
    hide NormalCandidate;
    hide TrimmedNodeID;
    hide HoldsAll;
    hide Sorting.SeenKeys;
    hide Sorting.DistinctKeys;
    assert s[k] in s && s[..k + 1] == s[..k] + [s[k]];
    Sorting.SeenNext(seen, s, TrimmedNodeID, k);
    if CandidateOk(s[k]) {
      NormalHolds(s[k]);
      EligibleNext(r, s, k);
    }
  }

  lemma EligibleNext(r: Request, s: seq<Candidate>, k: nat)
    requires k < |s| && HoldsAll(s[k].allocatable, s[k].used)
    requires HoldsAll(NormalCandidate(s[k]).allocatable, NormalCandidate(s[k]).used)
    ensures EligibleOf(r, s[..k + 1]) ==
            if Eligible(NormalCandidate(s[k]), r) then EligibleOf(r, s[..k]) + [NormalCandidate(s[k])] else EligibleOf(r, s[..k])
  {
    hide Seqs.Collect;
    hide Eligible;
    hide NormalCandidate;
    hide HoldsAll;
    Seqs.CollectSnoc(PickEligible(r), s, k);
  }

  lemma ScreenedAll(r: Request, s: seq<Candidate>, seen: set<string>, eligible: seq<Candidate>)
    requires Screened(r, s, seen, eligible)
    ensures AllApart(s) && eligible == EligibleOf(r, s)
  {
    hide CandidateOk;
    Sorting.SeenAll(seen, s, TrimmedNodeID);
    hide Seqs.Collect;
  }

  method Screen(r: Request, candidates: seq<Candidate>) returns (ok: bool, eligible: seq<Candidate>)
    requires Sorting.SortedBy(r.allowedSites, Text.Less) && Sorting.SortedBy(r.allowedZones, Text.Less)
    requires Sorting.SortedBy(r.antiAffinity, Text.Less)
    ensures ok <==> AllApart(candidates)
    ensures ok ==> eligible == EligibleOf(r, candidates)
  {
    hide *;
    eligible := [];
    var seen: set<string> := {};
    assert candidates[..0] == [];
    ScreenedNone(r);
    for k := 0 to |candidates|
      invariant Screened(r, candidates[..k], seen, eligible)
    {
      var raw := candidates[k];
      ScreenedNext(r, candidates, k, seen, eligible);
      var normal := NormalizeCandidate(raw);
      if normal.None? { return false, []; }
      var candidate := normal.value;
      NormalHolds(raw);
      if candidate.nodeID in seen { return false, []; }
      seen := seen + {candidate.nodeID};
      var fine := Constrained(candidate, r);
      if fine { eligible := eligible + [candidate]; }
    }
    assert candidates[..|candidates|] == candidates;
    ScreenedAll(r, candidates, seen, eligible);
    ok := true;
  }

  lemma NormalHolds(c: Candidate)
    requires CandidateOk(c)
    ensures HoldsAll(c.allocatable, c.used)
    ensures NormalCandidate(c).allocatable == c.allocatable && NormalCandidate(c).used == c.used
    ensures NormalCandidate(c).nodeID == TrimmedNodeID(c)
  {
  }

  /** Sorting the eligible and taking the first. */
  method Least(r: Request, eligible: seq<Candidate>) returns (best: Candidate)
    requires eligible != [] && Sorting.DistinctKeys(eligible, NodeID)
    ensures IsFirst(ScoreFor(r), best, eligible)
  {
    var less := (a, b) => Before(ScoreFor(r), a, b);
    RankOrders(ScoreFor(r), eligible);
    var sorted := Sorting.SortBy(eligible, less);
    Sorting.SameElements(sorted, eligible);
    best := sorted[0];
    hide ScoreFor;
    forall c | c in eligible && c != best ensures Before(ScoreFor(r), best, c) {
      var i :| 0 <= i < |sorted| && sorted[i] == c;
      assert !less(sorted[i], sorted[0]);
      RankTotal(ScoreFor(r), eligible, best, c);
    }
  }

  lemma RankOrders(score: Candidate -> nat, s: seq<Candidate>)
    ensures Sorting.Orders(s, (a, b) => Before(score, a, b))
  {
    Text.LessIsStrictTotal();
    hide Text.Less;
  }

  lemma RankTotal(score: Candidate -> nat, s: seq<Candidate>, a: Candidate, b: Candidate)
    requires Sorting.DistinctKeys(s, NodeID) && a in s && b in s && a != b
    ensures Before(score, a, b) || Before(score, b, a)
  {
    Text.LessTotal(a.nodeID, b.nodeID);
    if a.nodeID == b.nodeID { Sorting.SameKeySameElement(s, NodeID, a, b); }
  }

  method BuildPlan(r: Request, candidates: seq<Candidate>) returns (p: Option<Plan>)
    ensures p.Some? ==> Admissible(r, candidates) && IsPlan(p.value, r, candidates)
    ensures p.None? ==> !Admissible(r, candidates) || forall q :: !IsPlan(q, r, candidates)
  {
    hide RequestOk;
    hide CandidateOk;
    var normal := NormalizeRequest(r);
    if normal.None? { return None; }
    if |candidates| == 0 || |candidates| > 4096 { return None; }
    var n := normal.value;
    NormalSorted(r);
    hide NormalRequest;
    var ok, eligible := Screen(n, candidates);
    if !ok { return None; }
    if |eligible| == 0 { return None; }
    EligibleApart(n, candidates);
    var best := Least(n, eligible);
    hide EligibleOf;
    hide ScoreFor;
    if !MoveOk(n, best) {
      forall q ensures !IsPlan(q, r, candidates) {
        if IsPlan(q, r, candidates) { FirstOnce(ScoreFor(n), best, q.selected, eligible, eligible); }
      }
      return None;
    }
    return Some(Plan(n, best, ScoreFor(n)(best)));
  }

  lemma EligibleApart(r: Request, candidates: seq<Candidate>)
    requires Sorting.DistinctKeys(candidates, TrimmedNodeID)
    ensures Sorting.DistinctKeys(EligibleOf(r, candidates), NodeID)
  {
    Seqs.CollectDistinct(PickEligible(r), candidates, TrimmedNodeID, NodeID);
  }
}
