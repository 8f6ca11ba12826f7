/** The capacity assessment said of the nodes as they are listed: which count,
    what is left when some of them fail, and what does not matter
    (internal/capacity/planner.go). */
module CapacityListed {
  import opened CapacityAssessment
  import opened CapacityPlanner
  import opened Options
  import opened Reals
  import Roles
  import Seqs
  import Sorting
  import Text

  // ----- positions in the list -----

  /** The positions of the healthy nodes of the role. */
  ghost function InService(role: Roles.NodeRole, nodes: seq<Node>): set<nat>
  {
    set i: nat | i < |nodes| && nodes[i].healthy && nodes[i].role == role
  }

  /** An amount summed over some positions. */
  ghost function SumAt(amount: Node -> real, nodes: seq<Node>, at: set<nat>): real
  {
    if nodes == [] then 0.0
    else
      var n := |nodes| - 1;
      SumAt(amount, nodes[..n], at) + if n in at then amount(nodes[n]) else 0.0
  }

  /** The trimmed nodes at some positions. */
  ghost function NodesAt(nodes: seq<Node>, at: set<nat>): seq<Node>
  {
    if nodes == [] then []
    else
      var n := |nodes| - 1;
      NodesAt(nodes[..n], at) + if n in at then [Trimmed(nodes[n])] else []
  }

  lemma {:induction false} EligibleAt(role: Roles.NodeRole, nodes: seq<Node>, at: set<nat>)
    requires forall i: nat | i < |nodes| :: i in at <==> nodes[i].healthy && nodes[i].role == role
    ensures Eligible(role, nodes) == NodesAt(nodes, at)
  {
    if nodes != [] { EligibleAt(role, nodes[..|nodes| - 1], at); }
  }

  lemma {:induction false} NodesAtSum(amount: Node -> real, nodes: seq<Node>, at: set<nat>)
    requires forall n: Node :: amount(Trimmed(n)) == amount(n)
    ensures Total(amount, NodesAt(nodes, at)) == SumAt(amount, nodes, at)
  {
    if nodes != [] {
      var n := |nodes| - 1;
      NodesAtSum(amount, nodes[..n], at);
      hide Total;
      TotalJoins(amount, NodesAt(nodes[..n], at), if n in at then [Trimmed(nodes[n])] else []);
      TotalOne(amount, Trimmed(nodes[n]));
      TotalNone(amount);
    }
  }

  lemma TotalNone(amount: Node -> real)
    ensures Total(amount, []) == 0.0
  {
  }

  lemma {:induction false} NodesAtWithin(nodes: seq<Node>, at: set<nat>, all: set<nat>)
    requires at <= all
    ensures multiset(NodesAt(nodes, at)) <= multiset(NodesAt(nodes, all))
  {
    if nodes != [] { NodesAtWithin(nodes[..|nodes| - 1], at, all); }
  }

  lemma {:induction false} NodesAtCount(nodes: seq<Node>, at: set<nat>)
    requires forall i | i in at :: i < |nodes|
    ensures |NodesAt(nodes, at)| == |at|
  {
    if nodes == [] {
      assert at == {};
    } else {
      var n := |nodes| - 1;
      NodesAtCount(nodes[..n], at - {n});
      NodesAtOnly(nodes[..n], at, at - {n});
    }
  }

  /** Only positions in the list matter. */
  lemma {:induction false} NodesAtOnly(nodes: seq<Node>, a: set<nat>, b: set<nat>)
    requires forall i: nat | i < |nodes| :: i in a <==> i in b
    ensures NodesAt(nodes, a) == NodesAt(nodes, b)
  {
    if nodes != [] { NodesAtOnly(nodes[..|nodes| - 1], a, b); }
  }

  predicate StandsAt(x: Node, nodes: seq<Node>, at: set<nat>, i: nat)
  {
    i < |nodes| && i in at && Trimmed(nodes[i]) == x
  }

  lemma {:induction false} MemberStands(nodes: seq<Node>, at: set<nat>, x: Node) returns (i: nat)
    requires x in NodesAt(nodes, at)
    ensures StandsAt(x, nodes, at, i)
  {
    hide Trimmed;
    var n := |nodes| - 1;
    if x in NodesAt(nodes[..n], at) {
      i := MemberStands(nodes[..n], at, x);
    } else {
      i := n;
    }
  }

  lemma {:induction false} StandsMember(nodes: seq<Node>, at: set<nat>, x: Node, i: nat)
    requires StandsAt(x, nodes, at, i)
    ensures x in NodesAt(nodes, at)
  {
    hide Trimmed;
    var n := |nodes| - 1;
    if i < n { StandsMember(nodes[..n], at, x, i); }
  }

  lemma NodesAtMembers(nodes: seq<Node>, at: set<nat>, x: Node)
    ensures x in NodesAt(nodes, at) <==> exists i: nat :: StandsAt(x, nodes, at, i)
  {
    hide NodesAt;
    hide StandsAt;
    if x in NodesAt(nodes, at) { var _ := MemberStands(nodes, at, x); }
    if i: nat :| StandsAt(x, nodes, at, i) { StandsMember(nodes, at, x, i); }
  }

  lemma {:induction false} SumApart(amount: Node -> real, nodes: seq<Node>, at: set<nat>, lost: set<nat>)
    requires lost <= at
    ensures SumAt(amount, nodes, at - lost) == SumAt(amount, nodes, at) - SumAt(amount, nodes, lost)
  {
    if nodes != [] { SumApart(amount, nodes[..|nodes| - 1], at, lost); }
  }

  // ----- the eligible nodes -----

  lemma EligibleListed(role: Roles.NodeRole, nodes: seq<Node>)
    ensures Eligible(role, nodes) == NodesAt(nodes, InService(role, nodes))
    ensures |Eligible(role, nodes)| == |InService(role, nodes)|
  {
    EligibleAt(role, nodes, InService(role, nodes));
    NodesAtCount(nodes, InService(role, nodes));
  }

  /** Eligible are exactly the trimmed forms of the listed nodes that are healthy
      and have the role, and where names differ, each of them once. */
  lemma EligibleMeans(role: Roles.NodeRole, nodes: seq<Node>, x: Node)
    ensures x in Eligible(role, nodes) <==>
            exists n | n in nodes :: n.healthy && n.role == role && x == n.(id := Text.Trim(n.id), target := Text.Trim(n.target))
    ensures Sorting.DistinctKeys(nodes, TrimmedID) ==> multiset(Eligible(role, nodes))[x] <= 1
  {
    hide Text.Trim;
    Seqs.Collected(PickEligible(role), nodes);
    hide Seqs.Collect;
    if x in Eligible(role, nodes) {
      var n :| n in nodes && PickEligible(role)(n) == Some(x);
      assert n.healthy && n.role == role && x == n.(id := Text.Trim(n.id), target := Text.Trim(n.target));
    }
    if n :| n in nodes && n.healthy && n.role == role && x == n.(id := Text.Trim(n.id), target := Text.Trim(n.target)) {
      assert PickEligible(role)(n) == Some(x);
    }
    if Sorting.DistinctKeys(nodes, TrimmedID) { EligibleOnce(role, nodes, x); }
  }

  lemma EligibleOnce(role: Roles.NodeRole, nodes: seq<Node>, x: Node)
    requires Sorting.DistinctKeys(nodes, TrimmedID)
    ensures multiset(Eligible(role, nodes))[x] <= 1
  {
    hide Text.Trim;
    Seqs.CollectDistinct(PickEligible(role), nodes, TrimmedID, NodeID);
    hide Seqs.Collect;
    if x in Eligible(role, nodes) { Sorting.DistinctOnce(Eligible(role, nodes), NodeID, x); }
  }

  // ----- failures -----

  /** At most `n` nodes in service fail. */
  ghost predicate Loses(lost: set<nat>, role: Roles.NodeRole, nodes: seq<Node>, n: nat)
  {
    lost <= InService(role, nodes) && |lost| <= n
  }

  /** The safe capacity of the nodes that stay in service. */
  ghost function Remaining(role: Roles.NodeRole, nodes: seq<Node>, lost: set<nat>): real
  {
    SumAt(SafeCapacity, nodes, InService(role, nodes) - lost)
  }

  lemma CapacityTrims()
    ensures forall n: Node :: SafeCapacity(Trimmed(n)) == SafeCapacity(n)
    ensures forall n: Node :: Workload(Trimmed(n)) == Workload(n)
    ensures forall n: Node :: TechnicalLimit(Trimmed(n)) == TechnicalLimit(n)
  {
  }

  /** A failure of listed nodes as a failure of eligible ones. */
  lemma LostFails(lost: set<nat>, role: Roles.NodeRole, nodes: seq<Node>, n: nat)
    requires Loses(lost, role, nodes, n)
    ensures Fails(NodesAt(nodes, lost), Eligible(role, nodes), n) && |NodesAt(nodes, lost)| == |lost|
    ensures Left(Eligible(role, nodes), NodesAt(nodes, lost)) == Remaining(role, nodes, lost)
  {
    var at := InService(role, nodes);
    EligibleListed(role, nodes);
    NodesAtWithin(nodes, lost, at);
    NodesAtCount(nodes, lost);
    CapacityTrims();
    NodesAtSum(SafeCapacity, nodes, at);
    NodesAtSum(SafeCapacity, nodes, lost);
    SumApart(SafeCapacity, nodes, at, lost);
  }

  /** The positions of failed eligible nodes. */
  ghost function PositionsOf(failed: seq<Node>, role: Roles.NodeRole, nodes: seq<Node>): set<nat>
  {
    set i | i in InService(role, nodes) && Trimmed(nodes[i]) in failed
  }

  lemma PositionsList(failed: seq<Node>, role: Roles.NodeRole, nodes: seq<Node>)
    requires Sorting.DistinctKeys(nodes, TrimmedID) && multiset(failed) <= multiset(Eligible(role, nodes))
    ensures multiset(NodesAt(nodes, PositionsOf(failed, role, nodes))) == multiset(failed)
  {
    var at, lost := InService(role, nodes), PositionsOf(failed, role, nodes);
    EligibleListed(role, nodes);
    NodesAtWithin(nodes, lost, at);
    forall x ensures multiset(NodesAt(nodes, lost))[x] == multiset(failed)[x] {
      EligibleOnce(role, nodes, x);
      NodesAtMembers(nodes, lost, x);
      NodesAtMembers(nodes, at, x);
      PositionsHold(failed, role, nodes, x);
      CountsAgree(NodesAt(nodes, lost), failed, Eligible(role, nodes), x);
    }
  }

  lemma PositionsHold(failed: seq<Node>, role: Roles.NodeRole, nodes: seq<Node>, x: Node)
    requires multiset(failed) <= multiset(Eligible(role, nodes))
    ensures x in NodesAt(nodes, PositionsOf(failed, role, nodes)) <==> x in failed
  {
    var at, lost := InService(role, nodes), PositionsOf(failed, role, nodes);
    EligibleListed(role, nodes);
    NodesAtMembers(nodes, lost, x);
    NodesAtMembers(nodes, at, x);
    if x in failed {
      assert x in multiset(failed) && x in multiset(Eligible(role, nodes));
      var i: nat :| StandsAt(x, nodes, at, i);
      assert StandsAt(x, nodes, lost, i);
    }
  }

  lemma CountsAgree(a: seq<Node>, b: seq<Node>, all: seq<Node>, x: Node)
    requires multiset(a) <= multiset(all) && multiset(b) <= multiset(all) && multiset(all)[x] <= 1 && (x in a <==> x in b)
    ensures multiset(a)[x] == multiset(b)[x]
  {
    assert x in a <==> multiset(a)[x] > 0;
    assert x in b <==> multiset(b)[x] > 0;
  }

  /** A failure of eligible nodes as a failure of listed ones. */
  lemma FailsLost(failed: seq<Node>, role: Roles.NodeRole, nodes: seq<Node>, n: nat) returns (lost: set<nat>)
    requires Sorting.DistinctKeys(nodes, TrimmedID) && Fails(failed, Eligible(role, nodes), n)
    ensures Loses(lost, role, nodes, n) && |lost| == |failed|
    ensures Left(Eligible(role, nodes), failed) == Remaining(role, nodes, lost)
    ensures multiset(NodesAt(nodes, lost)) == multiset(failed)
  {
    lost := PositionsOf(failed, role, nodes);
    PositionsList(failed, role, nodes);
    Sorting.SameElements(NodesAt(nodes, lost), failed);
    NodesAtCount(nodes, lost);
    LostFails(lost, role, nodes, n);
    TotalPermuted(SafeCapacity, NodesAt(nodes, lost), failed);
    hide Total;
    hide NodesAt;
    hide Eligible;
    hide PositionsOf;
    hide Sorting.DistinctKeys;
  }

  /** The figure survives every failure of up to `n` nodes in service, and some
      failure of `n` of them leaves exactly that. */
  ghost predicate ExactOver(reported: real, role: Roles.NodeRole, nodes: seq<Node>, n: nat)
  {
    && (forall lost | Loses(lost, role, nodes, n) :: reported <= Remaining(role, nodes, lost))
    && exists lost | Loses(lost, role, nodes, n) && |lost| == n :: reported == Remaining(role, nodes, lost)
  }

  lemma ExactListed(reported: real, role: Roles.NodeRole, nodes: seq<Node>, n: nat)
    requires Sorting.DistinctKeys(nodes, TrimmedID)
    ensures ExactOver(reported, role, nodes, n) <==> Exact(reported, Eligible(role, nodes), n)
  {
    hide Loses;
    hide Fails;
    hide Remaining;
    hide Left;
    hide Eligible;
    hide Sorting.DistinctKeys;
    if ExactOver(reported, role, nodes, n) {
      forall failed | Fails(failed, Eligible(role, nodes), n) ensures reported <= Left(Eligible(role, nodes), failed) {
        var _ := FailsLost(failed, role, nodes, n);
      }
      var lost :| Loses(lost, role, nodes, n) && |lost| == n && reported == Remaining(role, nodes, lost);
      LostFails(lost, role, nodes, n);
    }
    if Exact(reported, Eligible(role, nodes), n) {
      forall lost | Loses(lost, role, nodes, n) ensures reported <= Remaining(role, nodes, lost) {
        LostFails(lost, role, nodes, n);
      }
      var failed :| Fails(failed, Eligible(role, nodes), n) && |failed| == n && reported == Left(Eligible(role, nodes), failed);
      var _ := FailsLost(failed, role, nodes, n);
    }
  }

  // ----- the order in which nodes are given up -----

  /** Capacities within a billionth of the larger one, or of 1, count as equal. */
  predicate AboutEqual(x: real, y: real)
  {
    var larger := if x < 1.0 && y < 1.0 then 1.0 else if x < y then y else x;
    x - y <= larger * 0.000_000_001 && y - x <= larger * 0.000_000_001
  }

  /** The larger node goes first, and of about equal ones the one named first. */
  predicate GoesFirst(a: Node, b: Node)
  {
    if AboutEqual(a.safeCapacity, b.safeCapacity) then Text.Less(Text.Trim(a.id), Text.Trim(b.id))
    else a.safeCapacity > b.safeCapacity
  }

  lemma GoesFirstIs(a: Node, b: Node)
    requires NodeOk(Trimmed(a)) && NodeOk(Trimmed(b))
    ensures GoesFirst(a, b) <==> Heavier(Trimmed(a), Trimmed(b))
  {
    hide Text.Less;
    hide Text.Trim;
    hide Text.IsIdentifier;
    hide ConfidenceOk;
  }

  /** The nodes in service are ordered by what goes first: about equal does not
      run in circles. */
  ghost predicate Ordered(role: Roles.NodeRole, nodes: seq<Node>)
  {
    && (forall i, j | i in InService(role, nodes) && j in InService(role, nodes) ::
          !(GoesFirst(nodes[i], nodes[j]) && GoesFirst(nodes[j], nodes[i])))
    && (forall i, j, k | i in InService(role, nodes) && j in InService(role, nodes) && k in InService(role, nodes) &&
          !GoesFirst(nodes[j], nodes[i]) && !GoesFirst(nodes[k], nodes[j]) :: !GoesFirst(nodes[k], nodes[i]))
  }

  /** How many nodes in service go before the one at `i`. */
  ghost function RankAt(role: Roles.NodeRole, nodes: seq<Node>, i: nat): nat
    requires i < |nodes|
  {
    |set k | k in InService(role, nodes) && GoesFirst(nodes[k], nodes[i])|
  }

  ghost predicate ListedOk(nodes: seq<Node>)
  {
    (forall n | n in nodes :: NodeOk(Trimmed(n))) && Sorting.DistinctKeys(nodes, TrimmedID)
  }

  lemma AdmissibleListed(request: Request, nodes: seq<Node>)
    ensures Admissible(request, nodes) <==>
            && RequestOk(request) && 1 <= |nodes| <= 4096 && ListedOk(nodes)
            && request.failureReserve < |InService(request.role, nodes)|
  {
    EligibleListed(request.role, nodes);
    hide Eligible;
    hide InService;
    hide NodeOk;
  }

  /** A confidence whose score lies in the band of its level; certified as spelled. */
  predicate Claims(c: Confidence)
  {
    match Text.Lower(Text.Trim(c.level))
    case "low" => 0.0 <= c.score < 0.5
    case "medium" => 0.5 <= c.score < 0.75
    case "high" => 0.75 <= c.score < 0.95
    case "certified" => 0.95 <= c.score <= 1.0 && c.level == "certified"
    case _ => false
  }

  /** Magnitudes up to this are taken for finite. */
  predicate Bounded(x: real) { -1_000_000_000_000_000_000_000.0 <= x <= 1_000_000_000_000_000_000_000.0 }

  predicate NodeListed(n: Node)
  {
    && Text.IsIdentifier(Text.Trim(n.id), 255, true) && Text.IsIdentifier(Text.Trim(n.target), 255, true) && !n.role.UnknownRole?
    && n.metric.KnownMetric? && Claims(n.confidence) && Bounded(n.workload) && Bounded(n.technicalLimit) && Bounded(n.reserve)
    && 0.0 <= n.workload && 0.0 < n.safeCapacity < n.technicalLimit
  }

  lemma NodeIff(n: Node)
    ensures NodeOk(Trimmed(n)) <==> NodeListed(n)
  {
    hide Text.IsIdentifier;
    hide Text.Trim;
    hide Text.Lower;
  }

  /** Input is admissible exactly when the request and every node are well formed as
      listed, no two nodes share a name, and more are in service than may fail. */
  lemma AdmissibleIff(request: Request, nodes: seq<Node>)
    ensures Admissible(request, nodes) <==>
            && Text.IsIdentifier(Text.Trim(request.scopeID), 255, true) && !request.role.UnknownRole? && !request.unit.UnknownUnit?
            && 0 <= request.failureReserve <= 16 && 0.0 <= request.expectedWorkload && Bounded(request.expectedWorkload)
            && 1 <= |nodes| <= 4096 && (forall n | n in nodes :: NodeListed(n))
            && (forall i, j | 0 <= i < j < |nodes| :: Text.Trim(nodes[i].id) != Text.Trim(nodes[j].id))
            && request.failureReserve < |InService(request.role, nodes)|
  {
    AdmissibleListed(request, nodes);
    hide Admissible;
    forall n | n in nodes ensures NodeOk(Trimmed(n)) <==> NodeListed(n) { NodeIff(n); }
    hide NodeOk;
    hide NodeListed;
    hide Trimmed;
    hide Text.IsIdentifier;
    hide Text.Trim;
    hide InService;
    if Sorting.DistinctKeys(nodes, TrimmedID) {
      forall i, j | 0 <= i < j < |nodes| ensures Text.Trim(nodes[i].id) != Text.Trim(nodes[j].id) {
        assert TrimmedID(nodes[i]) != TrimmedID(nodes[j]);
      }
    }
  }

  lemma GoesFirstAt(nodes: seq<Node>, i: nat, j: nat)
    requires ListedOk(nodes) && i < |nodes| && j < |nodes|
    ensures GoesFirst(nodes[i], nodes[j]) <==> Heavier(Trimmed(nodes[i]), Trimmed(nodes[j]))
  {
    hide GoesFirst;
    hide Heavier;
    hide NodeOk;
    hide Trimmed;
    GoesFirstIs(nodes[i], nodes[j]);
  }

  lemma EligibleHas(role: Roles.NodeRole, nodes: seq<Node>, i: nat)
    requires i in InService(role, nodes)
    ensures Trimmed(nodes[i]) in Eligible(role, nodes)
  {
    EligibleListed(role, nodes);
    NodesAtMembers(nodes, InService(role, nodes), Trimmed(nodes[i]));
    assert StandsAt(Trimmed(nodes[i]), nodes, InService(role, nodes), i);
  }

  lemma EligibleFrom(role: Roles.NodeRole, nodes: seq<Node>, x: Node) returns (i: nat)
    requires x in Eligible(role, nodes)
    ensures i in InService(role, nodes) && Trimmed(nodes[i]) == x
  {
    EligibleListed(role, nodes);
    NodesAtMembers(nodes, InService(role, nodes), x);
    i :| StandsAt(x, nodes, InService(role, nodes), i);
  }

  lemma OrderedListed(role: Roles.NodeRole, nodes: seq<Node>)
    requires ListedOk(nodes) && Ordered(role, nodes)
    ensures Sorting.Orders(Eligible(role, nodes), Heavier)
  {
    hide GoesFirst;
    hide Heavier;
    hide Trimmed;
    hide Eligible;
    hide ListedOk;
    var e := Eligible(role, nodes);
    forall a, b | a in e && b in e ensures !(Heavier(a, b) && Heavier(b, a)) {
      var i := EligibleFrom(role, nodes, a);
      var j := EligibleFrom(role, nodes, b);
      GoesFirstAt(nodes, i, j);
      GoesFirstAt(nodes, j, i);
    }
    forall a, b, c | a in e && b in e && c in e && !Heavier(b, a) && !Heavier(c, b) ensures !Heavier(c, a) {
      var i := EligibleFrom(role, nodes, a);
      var j := EligibleFrom(role, nodes, b);
      var k := EligibleFrom(role, nodes, c);
      GoesFirstAt(nodes, j, i);
      GoesFirstAt(nodes, k, j);
      GoesFirstAt(nodes, k, i);
    }
  }

  ghost function TrimmedAt(nodes: seq<Node>, at: set<nat>): set<Node>
    requires forall i | i in at :: i < |nodes|
  {
    set i | i in at :: Trimmed(nodes[i])
  }

  lemma TrimmedApart(nodes: seq<Node>, i: nat, k: nat)
    requires Sorting.DistinctKeys(nodes, TrimmedID) && i < |nodes| && k < |nodes| && i != k
    ensures Trimmed(nodes[i]) != Trimmed(nodes[k])
  {
    hide Text.Trim;
    assert TrimmedID(nodes[i]) != TrimmedID(nodes[k]);
  }

  lemma {:induction false} TrimmedCount(nodes: seq<Node>, at: set<nat>)
    requires Sorting.DistinctKeys(nodes, TrimmedID) && forall i | i in at :: i < |nodes|
    ensures |TrimmedAt(nodes, at)| == |at|
  {
    hide Trimmed;
    hide Sorting.DistinctKeys;
    if at != {} {
      var k :| k in at;
      var rest := at - {k};
      TrimmedCount(nodes, rest);
      forall i | i in rest ensures Trimmed(nodes[i]) != Trimmed(nodes[k]) { TrimmedApart(nodes, i, k); }
      assert TrimmedAt(nodes, at) == TrimmedAt(nodes, rest) + {Trimmed(nodes[k])};
    }
  }

  lemma RankListed(role: Roles.NodeRole, nodes: seq<Node>, i: nat)
    requires ListedOk(nodes) && i < |nodes|
    ensures Rank(Trimmed(nodes[i]), Eligible(role, nodes)) == RankAt(role, nodes, i)
  {
    hide GoesFirst;
    hide Heavier;
    hide Trimmed;
    hide Eligible;
    hide NodeOk;
    var before := set k | k in InService(role, nodes) && GoesFirst(nodes[k], nodes[i]);
    HeavierListed(role, nodes, i, before);
    ListedDistinct(nodes);
    hide ListedOk;
    TrimmedCount(nodes, before);
  }

  lemma HeavierListed(role: Roles.NodeRole, nodes: seq<Node>, i: nat, before: set<nat>)
    requires ListedOk(nodes) && i < |nodes|
    requires before == set k | k in InService(role, nodes) && GoesFirst(nodes[k], nodes[i])
    ensures (forall k | k in before :: k < |nodes|)
    ensures (set y | y in Eligible(role, nodes) && Heavier(y, Trimmed(nodes[i]))) == TrimmedAt(nodes, before)
  {
    hide GoesFirst;
    hide Heavier;
    hide Trimmed;
    hide Eligible;
    hide ListedOk;
    var heavier := set y | y in Eligible(role, nodes) && Heavier(y, Trimmed(nodes[i]));
    forall y | y in heavier ensures y in TrimmedAt(nodes, before) {
      var k := EligibleFrom(role, nodes, y);
      GoesFirstAt(nodes, k, i);
    }
    forall y | y in TrimmedAt(nodes, before) ensures y in heavier {
      var k :| k in before && Trimmed(nodes[k]) == y;
      EligibleHas(role, nodes, k);
      GoesFirstAt(nodes, k, i);
    }
  }

  /** Two nodes about equal, the smaller named first, and the cut after `n` nodes
      falls between them. */
  ghost predicate CutsBetween(role: Roles.NodeRole, nodes: seq<Node>, n: nat, i: nat, j: nat)
  {
    && i in InService(role, nodes) && j in InService(role, nodes)
    && nodes[i].safeCapacity < nodes[j].safeCapacity && AboutEqual(nodes[i].safeCapacity, nodes[j].safeCapacity)
    && Text.Less(Text.Trim(nodes[i].id), Text.Trim(nodes[j].id))
    && RankAt(role, nodes, i) < n <= RankAt(role, nodes, j)
  }

  ghost predicate CutsListed(role: Roles.NodeRole, nodes: seq<Node>, n: nat)
  {
    exists i: nat, j: nat :: CutsBetween(role, nodes, n, i, j)
  }

  lemma AboutEqualIs(a: Node, b: Node)
    requires NodeOk(Trimmed(a)) && NodeOk(Trimmed(b))
    ensures AboutEqual(a.safeCapacity, b.safeCapacity) <==> Close(a.safeCapacity, b.safeCapacity)
  {
    hide Text.Less;
    hide Text.Trim;
    hide Text.IsIdentifier;
    hide ConfidenceOk;
  }

  lemma CutsEligible(role: Roles.NodeRole, nodes: seq<Node>, n: nat, i: nat, j: nat)
    requires ListedOk(nodes) && CutsBetween(role, nodes, n, i, j)
    ensures CutsNearTie(Eligible(role, nodes), n)
  {
    hide Eligible;
    hide NodeOk;
    hide Close;
    hide AboutEqual;
    hide Rank;
    hide RankAt;
    hide Text.Less;
    hide Text.Trim;
    EligibleHas(role, nodes, i);
    EligibleHas(role, nodes, j);
    RankListed(role, nodes, i);
    RankListed(role, nodes, j);
    AboutEqualIs(nodes[i], nodes[j]);
    assert Trimmed(nodes[i]) in Eligible(role, nodes) && Trimmed(nodes[j]) in Eligible(role, nodes);
  }

  lemma EligibleCuts(role: Roles.NodeRole, nodes: seq<Node>, n: nat, x: Node, y: Node)
    requires ListedOk(nodes) && x in Eligible(role, nodes) && y in Eligible(role, nodes)
    requires x.safeCapacity < y.safeCapacity && Close(x.safeCapacity, y.safeCapacity) && Text.Less(x.id, y.id)
    requires Rank(x, Eligible(role, nodes)) < n <= Rank(y, Eligible(role, nodes))
    ensures CutsListed(role, nodes, n)
  {
    hide Eligible;
    hide NodeOk;
    hide Close;
    hide AboutEqual;
    hide Rank;
    hide RankAt;
    hide Text.Less;
    hide Text.Trim;
    var i := EligibleFrom(role, nodes, x);
    var j := EligibleFrom(role, nodes, y);
    RankListed(role, nodes, i);
    RankListed(role, nodes, j);
    AboutEqualIs(nodes[i], nodes[j]);
    assert CutsBetween(role, nodes, n, i, j);
  }

  lemma CutsAgree(role: Roles.NodeRole, nodes: seq<Node>, n: nat)
    requires ListedOk(nodes)
    ensures CutsListed(role, nodes, n) <==> CutsNearTie(Eligible(role, nodes), n)
  {
    hide Eligible;
    hide ListedOk;
    hide Close;
    hide Rank;
    hide CutsBetween;
    hide Text.Less;
    var e := Eligible(role, nodes);
    if CutsListed(role, nodes, n) {
      var i: nat, j: nat :| CutsBetween(role, nodes, n, i, j);
      CutsEligible(role, nodes, n, i, j);
    }
    if CutsNearTie(e, n) {
      var x, y :| x in e && y in e && x.safeCapacity < y.safeCapacity && Close(x.safeCapacity, y.safeCapacity) &&
                  Text.Less(x.id, y.id) && Rank(x, e) < n <= Rank(y, e);
      EligibleCuts(role, nodes, n, x, y);
    }
  }

  /** Where the listed nodes in service are ordered, the reported safe capacity is
      the exact worst case over their failures unless the cut falls between two
      that are about equal. */
  lemma ExactIffListed(a: Assessment, request: Request, nodes: seq<Node>)
    requires Admissible(request, nodes) && Describes(a, request, Eligible(request.role, nodes))
    requires Ordered(request.role, nodes)
    ensures 0 <= request.failureReserve < |InService(request.role, nodes)|
    ensures ExactOver(a.safeCapacity, request.role, nodes, request.failureReserve) <==>
            !CutsListed(request.role, nodes, request.failureReserve)
  {
    hide *;
    AdmissibleListed(request, nodes);
    ListedDistinct(nodes);
    OrderedListed(request.role, nodes);
    ExactIff(a, request, nodes);
    ExactListed(a.safeCapacity, request.role, nodes, request.failureReserve);
    CutsAgree(request.role, nodes, request.failureReserve);
  }

  lemma ListedDistinct(nodes: seq<Node>)
    requires ListedOk(nodes)
    ensures Sorting.DistinctKeys(nodes, TrimmedID)
  {
  }

  // ----- the figures -----

  /** The least amount among the nodes in service, the first name among equals. */
  ghost predicate LeastAt(amount: Node -> real, role: Roles.NodeRole, nodes: seq<Node>, i: nat)
  {
    && i in InService(role, nodes)
    && forall j | j in InService(role, nodes) && j != i ::
         || amount(nodes[i]) < amount(nodes[j])
         || (amount(nodes[i]) == amount(nodes[j]) && Text.Less(Text.Trim(nodes[i].id), Text.Trim(nodes[j].id)))
  }

  lemma FirstListed(amount: Node -> real, role: Roles.NodeRole, nodes: seq<Node>, b: Node) returns (i: nat)
    requires First(amount, b, Eligible(role, nodes)) && Sorting.DistinctKeys(nodes, TrimmedID)
    requires forall n: Node :: amount(Trimmed(n)) == amount(n)
    ensures LeastAt(amount, role, nodes, i) && Trimmed(nodes[i]) == b
  {
    hide Text.Less;
    hide Text.Trim;
    hide Eligible;
    i := EligibleFrom(role, nodes, b);
    forall j | j in InService(role, nodes) && j != i
      ensures amount(nodes[i]) < amount(nodes[j]) ||
              (amount(nodes[i]) == amount(nodes[j]) && Text.Less(Text.Trim(nodes[i].id), Text.Trim(nodes[j].id)))
    {
      EligibleHas(role, nodes, j);
      TrimmedApart(nodes, i, j);
      assert amount(Trimmed(nodes[j])) == amount(nodes[j]) && amount(Trimmed(nodes[i])) == amount(nodes[i]);
    }
  }

  /** The given-up nodes as positions. */
  lemma TakenListed(request: Request, nodes: seq<Node>) returns (lost: set<nat>)
    requires Admissible(request, nodes)
    ensures lost <= InService(request.role, nodes) && |lost| == request.failureReserve
    ensures 0 <= request.failureReserve <= |Eligible(request.role, nodes)|
    ensures multiset(NodesAt(nodes, lost)) == multiset(Taken(Eligible(request.role, nodes), request.failureReserve))
    ensures Ordered(request.role, nodes) ==>
              forall i | i in InService(request.role, nodes) ::
                i < |nodes| && (i in lost <==> RankAt(request.role, nodes, i) < request.failureReserve)
  {
    hide *;
    var n := request.failureReserve;
    AdmissibleListed(request, nodes);
    AdmissibleEligible(request, nodes);
    ListedDistinct(nodes);
    var eligible := Eligible(request.role, nodes);
    var taken := Taken(eligible, n);
    TakenAndKept(eligible, n);
    TakenFails(taken, Kept(eligible, n));
    FailsAlike(taken + Kept(eligible, n), eligible, n);
    lost := FailsLost(taken, request.role, nodes, n);
    LosesIs(lost, request.role, nodes, n);
    if Ordered(request.role, nodes) {
      OrderedListed(request.role, nodes);
      forall i | i in InService(request.role, nodes)
        ensures i < |nodes| && (i in lost <==> RankAt(request.role, nodes, i) < n)
      {
        TakenByRank(eligible, n, Trimmed(nodes[i]));
        EligibleHas(request.role, nodes, i);
        RankListed(request.role, nodes, i);
        LostMembers(nodes, lost, i, taken);
      }
    }
  }

  lemma LosesIs(lost: set<nat>, role: Roles.NodeRole, nodes: seq<Node>, n: nat)
    requires Loses(lost, role, nodes, n)
    ensures lost <= InService(role, nodes) && forall i | i in InService(role, nodes) :: i < |nodes|
  {
  }

  lemma LostMembers(nodes: seq<Node>, lost: set<nat>, i: nat, taken: seq<Node>)
    requires Sorting.DistinctKeys(nodes, TrimmedID) && multiset(NodesAt(nodes, lost)) == multiset(taken) && i < |nodes|
    ensures i in lost <==> Trimmed(nodes[i]) in taken
  {
    hide Trimmed;
    hide NodesAt;
    hide Sorting.DistinctKeys;
    var x := Trimmed(nodes[i]);
    Sorting.SameElements(NodesAt(nodes, lost), taken);
    NodesAtMembers(nodes, lost, x);
    if i in lost { assert StandsAt(x, nodes, lost, i); }
    if x in taken {
      var j: nat :| StandsAt(x, nodes, lost, j);
      if i != j { TrimmedApart(nodes, i, j); }
    }
  }

  /** A reserve counts as used up only beyond a billionth. */
  predicate Short(reserve: real) { reserve < -0.000_000_001 }

  lemma ShortIs(x: real)
    ensures x < -Slack(x) <==> Short(x)
  {
  }

  ghost predicate Capacities(a: Assessment, request: Request, nodes: seq<Node>, lost: set<nat>)
  {
    var at := InService(request.role, nodes);
    && lost <= at && |lost| == request.failureReserve
    && (Ordered(request.role, nodes) ==> forall i | i in at :: i in lost <==> RankAt(request.role, nodes, i) < |lost|)
    && a.healthyNodes == |at| && a.workload == SumAt(Workload, nodes, at)
    && a.safeCapacity == SumAt(SafeCapacity, nodes, at - lost)
    && a.technicalLimit == SumAt(TechnicalLimit, nodes, at - lost)
    && a.safeReserve == a.safeCapacity - request.expectedWorkload
  }

  /** The bottleneck is the node in service with the least reserve. */
  ghost predicate Bottleneck(a: Assessment, role: Roles.NodeRole, nodes: seq<Node>, i: nat)
  {
    && LeastAt(Reserve, role, nodes, i)
    && a.bottleneckNode == Text.Trim(nodes[i].id) && a.bottleneckTarget == Text.Trim(nodes[i].target)
    && a.bottleneckMetric == nodes[i].metric && (a.safe <==> !Short(a.safeReserve) && !Short(nodes[i].reserve))
  }

  /** The confidence is that of the node in service of which the least is known. */
  ghost predicate Weakest(a: Assessment, role: Roles.NodeRole, nodes: seq<Node>, i: nat)
  {
    && LeastAt(Score, role, nodes, i) && a.confidence == nodes[i].confidence
    && (a.action.CollectEvidence? <==> a.confidence.level == "low")
    && (a.action.AddRoleCapacity? <==> a.confidence.level != "low" && Short(a.safeReserve))
  }

  lemma CapacitiesListed(a: Assessment, request: Request, nodes: seq<Node>) returns (lost: set<nat>)
    requires Admissible(request, nodes) && Figures(a, request, Eligible(request.role, nodes))
    ensures Capacities(a, request, nodes, lost)
  {
    hide *;
    lost := TakenListed(request, nodes);
    var eligible, at := Eligible(request.role, nodes), InService(request.role, nodes);
    var taken := Taken(eligible, request.failureReserve);
    FiguresAre(a, request, eligible);
    EligibleListed(request.role, nodes);
    CapacityTrims();
    NodesAtSum(Workload, nodes, at);
    LeftListed(SafeCapacity, nodes, at, lost, taken);
    LeftListed(TechnicalLimit, nodes, at, lost, taken);
    CapacitiesAre(a, request, nodes, lost);
  }

  lemma FiguresAre(a: Assessment, request: Request, eligible: seq<Node>)
    requires Figures(a, request, eligible)
    ensures 0 <= request.failureReserve <= |eligible| && a.healthyNodes == |eligible|
    ensures a.workload == Total(Workload, eligible)
    ensures var taken := Taken(eligible, request.failureReserve);
            && a.safeCapacity == Total(SafeCapacity, eligible) - Total(SafeCapacity, taken)
            && a.technicalLimit == Total(TechnicalLimit, eligible) - Total(TechnicalLimit, taken)
    ensures a.safeReserve == a.safeCapacity - request.expectedWorkload
  {
    hide Total;
    hide Taken;
    hide ByID;
    hide Normal;
  }

  lemma CapacitiesAre(a: Assessment, request: Request, nodes: seq<Node>, lost: set<nat>)
    requires lost <= InService(request.role, nodes) && |lost| == request.failureReserve
    requires Ordered(request.role, nodes) ==>
               forall i | i in InService(request.role, nodes) ::
                 i < |nodes| && (i in lost <==> RankAt(request.role, nodes, i) < request.failureReserve)
    requires a.healthyNodes == |InService(request.role, nodes)|
    requires a.workload == SumAt(Workload, nodes, InService(request.role, nodes))
    requires a.safeCapacity == SumAt(SafeCapacity, nodes, InService(request.role, nodes) - lost)
    requires a.technicalLimit == SumAt(TechnicalLimit, nodes, InService(request.role, nodes) - lost)
    requires a.safeReserve == a.safeCapacity - request.expectedWorkload
    ensures Capacities(a, request, nodes, lost)
  {
    hide SumAt;
    hide Ordered;
    hide RankAt;
  }

  lemma LeftListed(amount: Node -> real, nodes: seq<Node>, at: set<nat>, lost: set<nat>, taken: seq<Node>)
    requires lost <= at && multiset(NodesAt(nodes, lost)) == multiset(taken)
    requires forall n: Node :: amount(Trimmed(n)) == amount(n)
    ensures Total(amount, NodesAt(nodes, at)) - Total(amount, taken) == SumAt(amount, nodes, at - lost)
  {
    NodesAtSum(amount, nodes, at);
    NodesAtSum(amount, nodes, lost);
    TotalPermuted(amount, NodesAt(nodes, lost), taken);
    SumApart(amount, nodes, at, lost);
  }

  lemma ChoicesListed(a: Assessment, request: Request, nodes: seq<Node>) returns (b: nat, c: nat)
    requires Sorting.DistinctKeys(nodes, TrimmedID) && Describes(a, request, Eligible(request.role, nodes))
    ensures Bottleneck(a, request.role, nodes, b) && Weakest(a, request.role, nodes, c)
  {
    hide Figures;
    hide First;
    hide LeastAt;
    hide Slack;
    hide Short;
    hide Text.Trim;
    hide Eligible;
    hide Sorting.DistinctKeys;
    var x :| First(Reserve, x, Eligible(request.role, nodes)) && NamesBottleneck(a, x);
    var y :| First(Score, y, Eligible(request.role, nodes)) && NamesConfidence(a, y);
    b := FirstListed(Reserve, request.role, nodes, x);
    c := FirstListed(Score, request.role, nodes, y);
    ListedLeast(Reserve, request.role, nodes, b);
    ListedLeast(Score, request.role, nodes, c);
    ShortIs(a.safeReserve);
    ShortIs(x.reserve);
  }

  lemma ListedLeast(amount: Node -> real, role: Roles.NodeRole, nodes: seq<Node>, i: nat)
    requires LeastAt(amount, role, nodes, i)
    ensures i < |nodes|
  {
  }

  lemma {:induction false} SumsCompare(nodes: seq<Node>, at: set<nat>)
    requires forall i | i in at && i < |nodes| ::
               0.0 <= nodes[i].workload && 0.0 < nodes[i].safeCapacity < nodes[i].technicalLimit
    ensures 0.0 <= SumAt(Workload, nodes, at) && 0.0 <= SumAt(SafeCapacity, nodes, at) <= SumAt(TechnicalLimit, nodes, at)
    ensures (exists i :: i in at && i < |nodes|) ==> 0.0 < SumAt(SafeCapacity, nodes, at) < SumAt(TechnicalLimit, nodes, at)
  {
    if nodes != [] { SumsCompare(nodes[..|nodes| - 1], at); }
  }

  lemma ListedAmounts(nodes: seq<Node>, at: set<nat>)
    requires ListedOk(nodes)
    ensures forall i | i in at && i < |nodes| ::
              0.0 <= nodes[i].workload && 0.0 < nodes[i].safeCapacity < nodes[i].technicalLimit
  {
    forall i | i in at && i < |nodes|
      ensures 0.0 <= nodes[i].workload && 0.0 < nodes[i].safeCapacity < nodes[i].technicalLimit
    {
      assert NodeOk(Trimmed(nodes[i]));
    }
  }

  lemma SomeoneStays(at: set<nat>, lost: set<nat>)
    requires lost <= at && |lost| < |at|
    ensures exists i :: i in at - lost
  {
    assert at * lost == lost && |at| == |at - lost| + |at * lost|;
    var i :| i in at - lost;
  }

  /** The assessment over the listed nodes: figures, bottleneck and confidence. At
      least one node in service stays, so the figures make sense. */
  lemma AssessmentListed(a: Assessment, request: Request, nodes: seq<Node>)
    requires Admissible(request, nodes) && Describes(a, request, Eligible(request.role, nodes))
    ensures exists lost :: Capacities(a, request, nodes, lost)
    ensures exists i: nat :: Bottleneck(a, request.role, nodes, i)
    ensures exists i: nat :: Weakest(a, request.role, nodes, i)
    ensures 0.0 <= a.workload && 0.0 < a.safeCapacity < a.technicalLimit
    ensures a.request == request.(scopeID := Text.Trim(request.scopeID))
  {
    hide *;
    AdmissibleListed(request, nodes);
    ListedDistinct(nodes);
    DescribesFigures(a, request, Eligible(request.role, nodes));
    var lost := CapacitiesListed(a, request, nodes);
    var b, c := ChoicesListed(a, request, nodes);
    FiguresSensible(a, request, nodes, lost);
  }

  lemma DescribesFigures(a: Assessment, request: Request, eligible: seq<Node>)
    requires Describes(a, request, eligible)
    ensures Figures(a, request, eligible) && a.request == request.(scopeID := Text.Trim(request.scopeID))
  {
    hide First;
    hide Taken;
    hide Total;
    hide Text.Trim;
  }

  lemma FiguresSensible(a: Assessment, request: Request, nodes: seq<Node>, lost: set<nat>)
    requires ListedOk(nodes) && Capacities(a, request, nodes, lost)
    requires request.failureReserve < |InService(request.role, nodes)|
    ensures 0.0 <= a.workload && 0.0 < a.safeCapacity < a.technicalLimit
  {
    hide ListedOk;
    hide Ordered;
    hide SumAt;
    var at := InService(request.role, nodes);
    ListedAmounts(nodes, at);
    SumsCompare(nodes, at);
    SumsCompare(nodes, at - lost);
    SomeoneStays(at, lost);
  }

  /** A safe verdict holds through every failure of nodes in service that was
      planned for, up to the tolerance of the verdict and, where the cut falls
      between two about equal nodes, one more for each node lost. */
  lemma SafeSurvivesListed(a: Assessment, request: Request, nodes: seq<Node>, largest: real, lost: set<nat>)
    requires Admissible(request, nodes) && Describes(a, request, Eligible(request.role, nodes)) && a.safe
    requires Ordered(request.role, nodes)
    requires largest >= 1.0 && forall i | i in InService(request.role, nodes) :: nodes[i].safeCapacity <= largest
    requires Loses(lost, request.role, nodes, request.failureReserve)
    ensures request.expectedWorkload <=
            Remaining(request.role, nodes, lost) + Slack(a.safeReserve) + Times(|lost|, largest * RELATIVE)
    ensures !CutsListed(request.role, nodes, request.failureReserve) ==>
              request.expectedWorkload <= Remaining(request.role, nodes, lost) + Slack(a.safeReserve)
  {
    EligibleBelow(request.role, nodes, largest);
    hide *;
    AdmissibleListed(request, nodes);
    OrderedListed(request.role, nodes);
    LostFails(lost, request.role, nodes, request.failureReserve);
    CutsAgree(request.role, nodes, request.failureReserve);
    SafeSurvivesFailures(a, request, nodes, largest, NodesAt(nodes, lost));
  }

  lemma EligibleBelow(role: Roles.NodeRole, nodes: seq<Node>, largest: real)
    requires forall i | i in InService(role, nodes) :: nodes[i].safeCapacity <= largest
    ensures forall n | n in Eligible(role, nodes) :: n.safeCapacity <= largest
  {
    forall n | n in Eligible(role, nodes) ensures n.safeCapacity <= largest {
      hide Eligible;
      var i := EligibleFrom(role, nodes, n);
    }
  }

  // ----- what does not matter, and what the identity tells -----

  /** Listing a further node that is not in service changes nothing. */
  lemma OutOfServiceIgnored(a: Assessment, b: Assessment, request: Request, before: seq<Node>, x: Node, after: seq<Node>)
    requires !x.healthy || x.role != request.role
    requires Admissible(request, before + after) && Describes(a, request, Eligible(request.role, before + after))
    requires Describes(b, request, Eligible(request.role, before + [x] + after))
    ensures a == b
  {
    hide *;
    AdmissibleEligible(request, before + after);
    EligibleWithout(request.role, before, x, after);
    DescribesOnce(a, b, request, Eligible(request.role, before + after), Eligible(request.role, before + [x] + after));
  }

  lemma EligibleWithout(role: Roles.NodeRole, before: seq<Node>, x: Node, after: seq<Node>)
    requires !x.healthy || x.role != role
    ensures multiset(Eligible(role, before + [x] + after)) == multiset(Eligible(role, before + after))
  {
    hide Seqs.Collect;
    Seqs.CollectMiddle(PickEligible(role), before, x, after);
  }

  lemma SameFiguresRequest(b: Assessment, r: Request, r': Request, eligible: seq<Node>)
    requires Describes(b, r', eligible) && r.(scopeID := Text.Trim(r.scopeID)) == r'.(scopeID := Text.Trim(r'.scopeID))
    ensures Describes(b, r, eligible)
  {
    hide First;
    hide Taken;
    hide Total;
    hide Text.Trim;
    hide Slack;
    assert Normal(r) == Normal(r') && r.failureReserve == r'.failureReserve && r.expectedWorkload == r'.expectedWorkload;
  }

  lemma SameIDSameInput(a: Assessment, b: Assessment, r: Request, r': Request, p: seq<Node>, q: seq<Node>)
    requires Describes(a, r, p) && Describes(b, r', q) && a.id == b.id
    ensures r.(scopeID := Text.Trim(r.scopeID)) == r'.(scopeID := Text.Trim(r'.scopeID)) && multiset(p) == multiset(q)
  {
    hide First;
    hide Taken;
    hide Total;
    hide Text.Trim;
    hide Slack;
    assert ByID(p) == ByID(q) && Normal(r) == Normal(r');
  }

  /** Two assessments with one identifier are the same assessment, of the same
      request over the same nodes in service. */
  lemma AssessmentIDDecides(a: Assessment, b: Assessment, request: Request, other: Request, x: seq<Node>, y: seq<Node>)
    requires Admissible(request, x) && Describes(a, request, Eligible(request.role, x))
    requires Admissible(other, y) && Describes(b, other, Eligible(other.role, y))
    requires a.id == b.id
    ensures a == b
  {
    hide *;
    AdmissibleEligible(request, x);
    SameIDSameInput(a, b, request, other, Eligible(request.role, x), Eligible(other.role, y));
    SameFiguresRequest(b, request, other, Eligible(other.role, y));
    DescribesOnce(a, b, request, Eligible(request.role, x), Eligible(other.role, y));
  }
}
