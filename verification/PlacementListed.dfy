/** A placement plan said of the candidates and the request as they were given
    (internal/placement/plan.go). */
module PlacementListed {
  import opened Metadata
  import opened Options
  import opened Placement
  import opened PlacementScores
  import Seqs
  import Sorting
  import Text

  // ----- what the request asks of a candidate -----

  /** The trimmed value is one of the trimmed values. */
  ghost predicate Among(value: string, values: seq<string>)
  {
    exists v | v in values :: Text.Trim(v) == Text.Trim(value)
  }

  predicate HasRoom(allocatable: Resources, used: Resources, need: Resources)
  {
    && used.cpu + need.cpu <= allocatable.cpu && used.memory + need.memory <= allocatable.memory
    && used.storage + need.storage <= allocatable.storage
  }

  /** In service, of the role, where it may run, not where it must not, and with room. */
  ghost predicate Suits(c: Candidate, r: Request)
  {
    && c.healthy && c.schedulable && r.requiredRole in c.roles
    && (r.allowedSites == [] || Among(c.siteID, r.allowedSites))
    && (r.allowedZones == [] || Among(c.zoneID, r.allowedZones))
    && !Among(c.nodeID, r.antiAffinity) && HasRoom(c.allocatable, c.used, r.resources)
  }

  /** Parts per million of one resource in use afterwards, as 64 bits compute them. */
  function Share(used: uint64, need: uint64, allocatable: uint64): nat
    requires 0 < allocatable
  {
    (used + need) * 1_000_000 % 0x1_0000_0000_0000_0000 / allocatable
  }

  /** The largest share of the three resources. */
  predicate IsLoad(c: Candidate, r: Request, load: nat)
  {
    && HoldsAll(c.allocatable, c.used)
    && var cpu := Share(c.used.cpu, r.resources.cpu, c.allocatable.cpu);
       var memory := Share(c.used.memory, r.resources.memory, c.allocatable.memory);
       var storage := Share(c.used.storage, r.resources.storage, c.allocatable.storage);
       cpu <= load && memory <= load && storage <= load && (load == cpu || load == memory || load == storage)
  }

  // ----- lists -----

  lemma AmongSorted(value: string, values: seq<string>)
    ensures Text.Trim(value) in SortedTrimmed(values) <==> Among(value, values)
    ensures SortedTrimmed(values) == [] <==> values == []
  {
    var trimmed := Seqs.Map(Text.Trim, values);
    Sorting.SameElements(SortedTrimmed(values), trimmed);
    hide SortStrings;
    hide Text.Trim;
    if Among(value, values) {
      var v :| v in values && Text.Trim(v) == Text.Trim(value);
      var i :| 0 <= i < |values| && values[i] == v;
      assert trimmed[i] == Text.Trim(value);
    }
    if Text.Trim(value) in trimmed {
      var i :| 0 <= i < |trimmed| && trimmed[i] == Text.Trim(value);
      assert values[i] in values;
    }
  }

  lemma RolesKept(c: Candidate, role: string)
    ensures role in NormalCandidate(c).roles <==> role in c.roles
  {
    Sorting.SameElements(SortStrings(c.roles), c.roles);
  }

  lemma RoomIs(allocatable: Resources, used: Resources, need: Resources)
    requires HoldsAll(allocatable, used)
    ensures Fits(allocatable, used, need) <==> HasRoom(allocatable, used, need)
  {
  }

  /** A listed candidate suits exactly when its normal form is eligible. */
  lemma SuitsIff(c: Candidate, r: Request)
    requires HoldsAll(c.allocatable, c.used)
    ensures Suits(c, r) <==> Eligible(NormalCandidate(c), NormalRequest(r))
  {
    AmongSorted(c.siteID, r.allowedSites);
    AmongSorted(c.zoneID, r.allowedZones);
    AmongSorted(c.nodeID, r.antiAffinity);
    RolesKept(c, r.requiredRole);
    RoomIs(c.allocatable, c.used, r.resources);
    hide SortStrings;
    hide SortedTrimmed;
    hide Among;
    hide Text.Trim;
    hide Fits;
    hide HoldsAll;
    hide HasRoom;
  }

  lemma ShareIs(used: uint64, need: uint64, allocatable: uint64)
    requires 0 < allocatable && used + need <= allocatable
    ensures WrappedPPM(used, need, allocatable) == Share(used, need, allocatable)
  {
  }

  lemma LoadIs(c: Candidate, r: Request, load: nat)
    requires HoldsAll(c.allocatable, c.used) && HasRoom(c.allocatable, c.used, r.resources)
    ensures IsLoad(c, r, load) <==> load == ScoreFor(NormalRequest(r))(NormalCandidate(c))
  {
    ShareIs(c.used.cpu, r.resources.cpu, c.allocatable.cpu);
    ShareIs(c.used.memory, r.resources.memory, c.allocatable.memory);
    ShareIs(c.used.storage, r.resources.storage, c.allocatable.storage);
    hide Share;
    hide WrappedPPM;
    hide SortStrings;
    hide Text.Trim;
  }

  // ----- what is accepted -----

  predicate Named(s: string) { Text.IsIdentifier(Text.Trim(s), 128, true) }

  /** Identifiers of which no two are the same once trimmed. */
  predicate NamedApart(values: seq<string>)
  {
    && (forall i | 0 <= i < |values| :: Named(values[i]))
    && forall i, j | 0 <= i < j < |values| :: Text.Trim(values[i]) != Text.Trim(values[j])
  }

  predicate RequestListed(r: Request)
  {
    && Named(r.workloadID) && Named(r.topologyVersion) && r.topologyGeneration >= 1 && (r.workload.Stateless? || r.workload.Stateful?)
    && IsRole(r.requiredRole) && r.resources.cpu >= 1 && r.resources.memory >= 1 && r.resources.storage >= 1
    && (Text.Trim(r.currentNodeID) != "" ==> Named(r.currentNodeID))
    && (Text.Trim(r.migrationAdapter) != "" ==> Named(r.migrationAdapter))
    && NamedApart(r.allowedSites) && NamedApart(r.allowedZones) && NamedApart(r.antiAffinity)
  }

  predicate CandidateListed(c: Candidate)
  {
    && Named(c.nodeID) && Named(c.siteID) && Named(c.zoneID)
    && c.allocatable.cpu >= 1 && c.allocatable.memory >= 1 && c.allocatable.storage >= 1
    && c.used.cpu <= c.allocatable.cpu && c.used.memory <= c.allocatable.memory && c.used.storage <= c.allocatable.storage
    && |c.roles| >= 1 && (forall i | 0 <= i < |c.roles| :: IsRole(c.roles[i]))
    && forall i, j | 0 <= i < j < |c.roles| :: c.roles[i] != c.roles[j]
  }

  lemma NamedApartIff(values: seq<string>)
    ensures Canonical(values) <==> NamedApart(values)
  {
    hide Text.Trim;
    hide Text.IsIdentifier;
    var trimmed := Seqs.Map(Text.Trim, values);
    if Canonical(values) {
      forall i | 0 <= i < |values| ensures Named(values[i]) { assert trimmed[i] in trimmed; }
      forall i, j | 0 <= i < j < |values| ensures Text.Trim(values[i]) != Text.Trim(values[j]) {
        assert Itself(trimmed[i]) != Itself(trimmed[j]);
      }
    }
    if NamedApart(values) {
      forall v | v in trimmed ensures Placement.IsIdentifier(v) { var i :| 0 <= i < |trimmed| && trimmed[i] == v; }
    }
  }

  lemma RequestIff(r: Request)
    ensures RequestOk(r) <==> RequestListed(r)
  {
    hide Text.Trim;
    hide Text.IsIdentifier;
    hide IsRole;
    hide Canonical;
    hide NamedApart;
    NamedApartIff(r.allowedSites);
    NamedApartIff(r.allowedZones);
    NamedApartIff(r.antiAffinity);
  }

  lemma CandidateIff(c: Candidate)
    ensures CandidateOk(c) <==> CandidateListed(c)
  {
    hide Text.Trim;
    hide Text.IsIdentifier;
    hide IsRole;
    if CandidateOk(c) {
      forall i | 0 <= i < |c.roles| ensures IsRole(c.roles[i]) { assert c.roles[i] in c.roles; }
      forall i, j | 0 <= i < j < |c.roles| ensures c.roles[i] != c.roles[j] { assert Itself(c.roles[i]) != Itself(c.roles[j]); }
    }
  }

  /** Input is admissible exactly when request and candidates are well formed as
      given and no two candidates share a name. */
  lemma AdmissibleIff(r: Request, candidates: seq<Candidate>)
    ensures Admissible(r, candidates) <==>
            && RequestListed(r) && 1 <= |candidates| <= 4096 && (forall c | c in candidates :: CandidateListed(c))
            && forall i, j | 0 <= i < j < |candidates| :: Text.Trim(candidates[i].nodeID) != Text.Trim(candidates[j].nodeID)
  {
    RequestIff(r);
    forall c | c in candidates ensures CandidateOk(c) <==> CandidateListed(c) { CandidateIff(c); }
    hide RequestOk;
    hide RequestListed;
    hide CandidateOk;
    hide CandidateListed;
    hide Text.Trim;
    if Sorting.DistinctKeys(candidates, TrimmedNodeID) {
      forall i, j | 0 <= i < j < |candidates| ensures Text.Trim(candidates[i].nodeID) != Text.Trim(candidates[j].nodeID) {
        assert TrimmedNodeID(candidates[i]) != TrimmedNodeID(candidates[j]);
      }
    }
  }

  // ----- the choice -----

  /** Less loaded, or as loaded and named first. */
  ghost predicate Outranks(c: Candidate, d: Candidate, r: Request)
  {
    exists load, other | IsLoad(c, r, load) && IsLoad(d, r, other) ::
      load < other || (load == other && Text.Less(Text.Trim(c.nodeID), Text.Trim(d.nodeID)))
  }

  /** The least loaded of the candidates that suit. */
  ghost predicate Chosen(c: Candidate, r: Request, candidates: seq<Candidate>)
  {
    && c in candidates && Suits(c, r)
    && forall d | d in candidates && d != c && Suits(d, r) :: Outranks(c, d, r)
  }

  /** Stateless workloads may go anywhere; stateful ones leave their node only with
      an adapter and a healthy replica elsewhere. */
  predicate MayMove(c: Candidate, r: Request)
  {
    || !r.workload.Stateful? || Text.Trim(r.currentNodeID) == "" || Text.Trim(c.nodeID) == Text.Trim(r.currentNodeID)
    || (Text.Trim(r.migrationAdapter) != "" && r.healthyReplicasOutside > 0)
  }

  /** The plan names the candidate and what was asked for. */
  predicate Shows(p: Plan, c: Candidate, r: Request)
  {
    && p.selected.nodeID == Text.Trim(c.nodeID) && p.selected.siteID == Text.Trim(c.siteID)
    && p.selected.zoneID == Text.Trim(c.zoneID) && IsLoad(c, r, p.score)
    && p.request.workloadID == Text.Trim(r.workloadID) && p.request.resources == r.resources
    && p.request.topologyGeneration == r.topologyGeneration && p.request.topologyVersion == Text.Trim(r.topologyVersion)
  }

  lemma EligibleFrom(r: Request, candidates: seq<Candidate>, x: Candidate) returns (c: Candidate)
    requires x in EligibleOf(NormalRequest(r), candidates)
    ensures c in candidates && HoldsAll(c.allocatable, c.used) && NormalCandidate(c) == x && Suits(c, r)
  {
    hide NormalRequest;
    hide NormalCandidate;
    hide Eligible;
    hide HoldsAll;
    hide Suits;
    var n := NormalRequest(r);
    Seqs.Collected(PickEligible(n), candidates);
    c :| c in candidates && PickEligible(n)(c) == Some(x);
    SuitsIff(c, r);
  }

  lemma EligibleHas(r: Request, candidates: seq<Candidate>, c: Candidate)
    requires c in candidates && HoldsAll(c.allocatable, c.used) && Suits(c, r)
    ensures NormalCandidate(c) in EligibleOf(NormalRequest(r), candidates)
  {
    hide NormalRequest;
    hide NormalCandidate;
    hide Eligible;
    hide HoldsAll;
    hide Suits;
    var n := NormalRequest(r);
    SuitsIff(c, r);
    Seqs.Collected(PickEligible(n), candidates);
    assert PickEligible(n)(c) == Some(NormalCandidate(c));
  }

  lemma RanksIff(c: Candidate, d: Candidate, r: Request)
    requires HoldsAll(c.allocatable, c.used) && HoldsAll(d.allocatable, d.used)
    requires HasRoom(c.allocatable, c.used, r.resources) && HasRoom(d.allocatable, d.used, r.resources)
    ensures Outranks(c, d, r) <==> Before(ScoreFor(NormalRequest(r)), NormalCandidate(c), NormalCandidate(d))
  {
    hide IsLoad;
    hide ScoreFor;
    hide HoldsAll;
    hide HasRoom;
    hide Text.Less;
    hide NormalRequest;
    var score := ScoreFor(NormalRequest(r));
    LoadIs(c, r, score(NormalCandidate(c)));
    LoadIs(d, r, score(NormalCandidate(d)));
    NameIs(c);
    NameIs(d);
    hide NormalCandidate;
    if Outranks(c, d, r) {
      var load, other :| IsLoad(c, r, load) && IsLoad(d, r, other) &&
        (load < other || (load == other && Text.Less(Text.Trim(c.nodeID), Text.Trim(d.nodeID))));
      LoadIs(c, r, load);
      LoadIs(d, r, other);
    }
  }

  lemma NameIs(c: Candidate)
    ensures NormalCandidate(c).nodeID == Text.Trim(c.nodeID)
  {
  }

  ghost predicate AllHold(candidates: seq<Candidate>)
  {
    (forall c | c in candidates :: HoldsAll(c.allocatable, c.used)) && Sorting.DistinctKeys(candidates, TrimmedNodeID)
  }

  lemma AdmissibleHold(r: Request, candidates: seq<Candidate>)
    requires Admissible(r, candidates)
    ensures AllHold(candidates)
  {
    hide RequestOk;
    hide Sorting.DistinctKeys;
    forall c | c in candidates ensures HoldsAll(c.allocatable, c.used) { assert CandidateOk(c); }
  }

  lemma NormalApart(candidates: seq<Candidate>, c: Candidate, d: Candidate)
    requires AllHold(candidates) && c in candidates && d in candidates && c != d
    ensures NormalCandidate(c) != NormalCandidate(d)
  {
    hide HoldsAll;
    hide SortStrings;
    if NormalCandidate(c) == NormalCandidate(d) {
      NameIs(c);
      NameIs(d);
      Sorting.SameKeySameElement(candidates, TrimmedNodeID, c, d);
    }
  }

  /** First among the eligible is the chosen one of the candidates. */
  lemma FirstIsChosen(r: Request, candidates: seq<Candidate>, c: Candidate)
    requires AllHold(candidates) && c in candidates
    ensures Chosen(c, r, candidates) <==>
            IsFirst(ScoreFor(NormalRequest(r)), NormalCandidate(c), EligibleOf(NormalRequest(r), candidates)) && Suits(c, r)
  {
    hide ScoreFor;
    hide NormalRequest;
    hide NormalCandidate;
    hide EligibleOf;
    hide HoldsAll;
    hide Before;
    hide Outranks;
    hide Sorting.DistinctKeys;
    var n := NormalRequest(r);
    var eligible, x := EligibleOf(n, candidates), NormalCandidate(c);
    if Chosen(c, r, candidates) {
      EligibleHas(r, candidates, c);
      forall y | y in eligible && y != x ensures Before(ScoreFor(n), x, y) {
        var d := EligibleFrom(r, candidates, y);
        SuitsRoom(c, r);
        SuitsRoom(d, r);
        RanksIff(c, d, r);
      }
    }
    if IsFirst(ScoreFor(n), x, eligible) && Suits(c, r) {
      forall d | d in candidates && d != c && Suits(d, r) ensures Outranks(c, d, r) {
        EligibleHas(r, candidates, d);
        NormalApart(candidates, c, d);
        SuitsRoom(c, r);
        SuitsRoom(d, r);
        RanksIff(c, d, r);
      }
    }
  }

  lemma SuitsRoom(c: Candidate, r: Request)
    requires Suits(c, r)
    ensures HasRoom(c.allocatable, c.used, r.resources)
  {
  }

  /** The plan is for the least loaded listed candidate that suits the request. */
  lemma PlanListed(p: Plan, r: Request, candidates: seq<Candidate>) returns (c: Candidate)
    requires Admissible(r, candidates) && IsPlan(p, r, candidates)
    ensures Chosen(c, r, candidates) && MayMove(c, r) && Shows(p, c, r)
  {
    AdmissibleHold(r, candidates);
    hide Admissible;
    hide IsFirst;
    hide EligibleOf;
    hide ScoreFor;
    hide NormalRequest;
    hide Chosen;
    hide Suits;
    PlanSelects(p, r, candidates);
    c := EligibleFrom(r, candidates, p.selected);
    FirstIsChosen(r, candidates, c);
    SuitsRoom(c, r);
    LoadIs(c, r, p.score);
    PlanShows(p, c, r);
  }

  lemma PlanSelects(p: Plan, r: Request, candidates: seq<Candidate>)
    requires IsPlan(p, r, candidates)
    ensures p.selected in EligibleOf(NormalRequest(r), candidates)
  {
    hide ScoreFor;
    hide NormalRequest;
    hide EligibleOf;
  }

  lemma PlanShows(p: Plan, c: Candidate, r: Request)
    requires p.request == NormalRequest(r) && NormalCandidate(c) == p.selected && IsLoad(c, r, p.score)
    ensures MoveOk(NormalRequest(r), p.selected) <==> MayMove(c, r)
    ensures Shows(p, c, r)
  {
    hide SortStrings;
    hide Text.Trim;
    hide IsLoad;
  }

  /** There is a plan exactly when the least loaded candidate that suits may be moved to. */
  lemma PlanIff(r: Request, candidates: seq<Candidate>)
    requires Admissible(r, candidates)
    ensures (exists p :: IsPlan(p, r, candidates)) <==> exists c :: Chosen(c, r, candidates) && MayMove(c, r)
  {
    hide *;
    if p :| IsPlan(p, r, candidates) { var _ := PlanListed(p, r, candidates); }
    if c :| Chosen(c, r, candidates) && MayMove(c, r) { var _ := ChosenPlan(r, candidates, c); }
  }

  lemma ChosenPlan(r: Request, candidates: seq<Candidate>, c: Candidate) returns (p: Plan)
    requires Admissible(r, candidates) && Chosen(c, r, candidates) && MayMove(c, r)
    ensures IsPlan(p, r, candidates)
  {
    AdmissibleHold(r, candidates);
    hide Admissible;
    hide Suits;
    hide IsFirst;
    hide EligibleOf;
    hide ScoreFor;
    hide NormalRequest;
    hide NormalCandidate;
    hide MoveOk;
    hide MayMove;
    FirstIsChosen(r, candidates, c);
    var n := NormalRequest(r);
    p := Plan(n, NormalCandidate(c), ScoreFor(n)(NormalCandidate(c)));
    SuitsRoom(c, r);
    LoadIs(c, r, p.score);
    PlanShows(p, c, r);
  }
}
