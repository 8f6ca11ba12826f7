/** The capacity assessment and how near its figure comes to the true worst case
    over failures (internal/capacity/planner.go). */
module CapacityAssessment {
  import opened CapacityPlanner
  import opened Options
  import opened Reals
  import Roles
  import Seqs
  import Sorting
  import Text

  // ----- the order in which nodes are taken away -----

  /** Larger capacities first; near ties go by identifier. */
  predicate Heavier(a: Node, b: Node)
  {
    if !Close(a.safeCapacity, b.safeCapacity) then a.safeCapacity > b.safeCapacity else Text.Less(a.id, b.id)
  }

  /** sort.Slice with that comparator. It is a total preorder only on some inputs;
      on the others the outcome is just a rearrangement. */
  function HeaviestFirst(nodes: seq<Node>): (r: seq<Node>)
    ensures multiset(r) == multiset(nodes)
  {
    if nodes == [] then []
    else
      assert nodes == [nodes[0]] + nodes[1..];
      Sorting.Insert(nodes[0], HeaviestFirst(nodes[1..]), Heavier)
  }

  lemma {:induction false} HeaviestFirstSorted(nodes: seq<Node>)
    requires Sorting.Orders(nodes, Heavier)
    ensures Sorting.SortedBy(HeaviestFirst(nodes), Heavier)
  {
    if nodes != [] {
      var tail := HeaviestFirst(nodes[1..]);
      Sorting.SameElements(tail, nodes[1..]);
      assert forall x | x in nodes[1..] :: x in nodes;
      assert forall x | x in [nodes[0]] + tail :: x in nodes;
      HeaviestFirstSorted(nodes[1..]);
      Sorting.InsertSorted(nodes[0], tail, Heavier);
    }
  }

  function ByID(nodes: seq<Node>): seq<Node>
  {
    Sorting.SortByKey(nodes, NodeID)
  }

  /** The `n` nodes taken away, and the others. */
  function Taken(eligible: seq<Node>, n: nat): seq<Node>
    requires n <= |eligible|
  {
    OrderLength(eligible);
    HeaviestFirst(ByID(eligible))[..n]
  }

  function Kept(eligible: seq<Node>, n: nat): seq<Node>
    requires n <= |eligible|
  {
    OrderLength(eligible);
    HeaviestFirst(ByID(eligible))[n..]
  }

  lemma OrderLength(eligible: seq<Node>)
    ensures |HeaviestFirst(ByID(eligible))| == |eligible| == |ByID(eligible)|
  {
    Sorting.SameElements(HeaviestFirst(ByID(eligible)), eligible);
    Sorting.SameElements(ByID(eligible), eligible);
  }

  lemma TakenAndKept(eligible: seq<Node>, n: nat)
    requires n <= |eligible|
    ensures multiset(Taken(eligible, n) + Kept(eligible, n)) == multiset(eligible) && |Taken(eligible, n)| == n
  {
    OrderLength(eligible);
    Split(HeaviestFirst(ByID(eligible)), n);
  }

  lemma Split(s: seq<Node>, n: nat)
    requires n <= |s|
    ensures s[..n] + s[n..] == s
  {
  }

  // ----- what an assessment says -----

  function Reserve(n: Node): real { n.reserve }
  function Score(n: Node): real { n.confidence.score }

  /** Least by `amount`, and the smallest identifier among equals. */
  ghost predicate First(amount: Node -> real, b: Node, nodes: seq<Node>)
  {
    && b in nodes
    && forall n | n in nodes && n != b :: amount(b) < amount(n) || (amount(b) == amount(n) && Text.Less(b.id, n.id))
  }

  function Normal(request: Request): Request { request.(scopeID := Text.Trim(request.scopeID)) }

  function ActionFor(c: Confidence, reserve: real): Action
  {
    if c.level == "low" then CollectEvidence else if reserve < -Slack(reserve) then AddRoleCapacity else NoAction
  }

  ghost predicate Describes(a: Assessment, request: Request, eligible: seq<Node>)
  {
    && Figures(a, request, eligible)
    && (exists b :: First(Reserve, b, eligible) && NamesBottleneck(a, b))
    && (exists b :: First(Score, b, eligible) && NamesConfidence(a, b))
  }

  ghost predicate Figures(a: Assessment, request: Request, eligible: seq<Node>)
  {
    var n := request.failureReserve;
    && 0 <= n <= |eligible|
    && a.id == Sha256Of(Normal(request), ByID(eligible)) && a.request == Normal(request) && a.healthyNodes == |eligible|
    && a.workload == Total(Workload, eligible)
    && a.safeCapacity == Total(SafeCapacity, eligible) - Total(SafeCapacity, Taken(eligible, n))
    && a.technicalLimit == Total(TechnicalLimit, eligible) - Total(TechnicalLimit, Taken(eligible, n))
    && a.safeReserve == a.safeCapacity - request.expectedWorkload
  }

  predicate NamesBottleneck(a: Assessment, b: Node)
  {
    && a.bottleneckNode == b.id && a.bottleneckMetric == b.metric && a.bottleneckTarget == b.target
    && a.safe == (a.safeReserve >= -Slack(a.safeReserve) && b.reserve >= -Slack(b.reserve))
  }

  predicate NamesConfidence(a: Assessment, b: Node)
  {
    a.confidence == b.confidence && a.action == ActionFor(b.confidence, a.safeReserve)
  }

  lemma DescribesCapacity(a: Assessment, request: Request, eligible: seq<Node>)
    requires Describes(a, request, eligible)
    ensures 0 <= request.failureReserve <= |eligible|
    ensures a.safeCapacity == Left(eligible, Taken(eligible, request.failureReserve))
    ensures a.safeReserve == a.safeCapacity - request.expectedWorkload
    ensures a.safe ==> a.safeReserve >= -Slack(a.safeReserve)
  {
    hide Total;
    hide Taken;
    hide First;
    hide Slack;
  }

  // ----- the worst case -----

  /** What is left when some nodes fail. */
  function Left(eligible: seq<Node>, failed: seq<Node>): real
  {
    Total(SafeCapacity, eligible) - Total(SafeCapacity, failed)
  }

  ghost predicate Survives(reported: real, eligible: seq<Node>, n: nat)
  {
    forall failed | Fails(failed, eligible, n) :: reported <= Left(eligible, failed)
  }

  ghost predicate Attained(reported: real, eligible: seq<Node>, n: nat)
  {
    exists failed | Fails(failed, eligible, n) && |failed| == n :: reported == Left(eligible, failed)
  }

  /** The reported capacity survives every failure of up to `n` nodes, and some
      failure of `n` nodes leaves exactly that. */
  ghost predicate Exact(reported: real, eligible: seq<Node>, n: nat)
  {
    Survives(reported, eligible, n) && Attained(reported, eligible, n)
  }

  /** The tie-break puts a smaller node among the first `n` and leaves a larger one out. */
  ghost predicate Overtaken(eligible: seq<Node>, n: nat)
    requires n <= |eligible|
  {
    exists x, y | x in Taken(eligible, n) && y in Kept(eligible, n) :: x.safeCapacity < y.safeCapacity
  }

  lemma FailsAlike(a: seq<Node>, b: seq<Node>, n: nat)
    requires multiset(a) == multiset(b)
    ensures forall failed :: Fails(failed, a, n) <==> Fails(failed, b, n)
  {
  }

  lemma TakenFails(taken: seq<Node>, kept: seq<Node>)
    ensures Fails(taken, taken + kept, |taken|)
  {
  }

  lemma WorstLossSurvives(eligible: seq<Node>, taken: seq<Node>, kept: seq<Node>)
    requires multiset(taken + kept) == multiset(eligible)
    ensures Survives(Left(eligible, taken), eligible, |taken|) <==> WorstLoss(taken, kept)
  {
    hide Total;
    hide Fails;
    FailsAlike(taken + kept, eligible, |taken|);
    if WorstLoss(taken, kept) {
      forall failed | Fails(failed, eligible, |taken|) ensures Left(eligible, taken) <= Left(eligible, failed) {
        assert Total(SafeCapacity, failed) <= Total(SafeCapacity, taken);
      }
    } else {
      var failed :| Fails(failed, taken + kept, |taken|) && Total(SafeCapacity, failed) > Total(SafeCapacity, taken);
      assert Left(eligible, taken) > Left(eligible, failed);
    }
  }

  lemma WorstLossIsExact(eligible: seq<Node>, taken: seq<Node>, kept: seq<Node>)
    requires multiset(taken + kept) == multiset(eligible)
    ensures Exact(Left(eligible, taken), eligible, |taken|) <==> WorstLoss(taken, kept)
  {
    hide Total;
    hide Fails;
    hide WorstLoss;
    hide Survives;
    hide Left;
    FailsAlike(taken + kept, eligible, |taken|);
    TakenFails(taken, kept);
    WorstLossSurvives(eligible, taken, kept);
  }

  // ----- ranks: when the figure is exact, read off the nodes -----

  /** How many of the nodes are taken away before `x`. */
  ghost function Rank(x: Node, nodes: seq<Node>): nat
  {
    |set y | y in nodes && Heavier(y, x)|
  }

  /** A node is taken away before one that is close to it but larger, for its smaller
      name, and the cut after `n` nodes falls between the two. */
  ghost predicate CutsNearTie(nodes: seq<Node>, n: nat)
  {
    exists x, y | x in nodes && y in nodes ::
      && x.safeCapacity < y.safeCapacity && Close(x.safeCapacity, y.safeCapacity) && Text.Less(x.id, y.id)
      && Rank(x, nodes) < n <= Rank(y, nodes)
  }

  /** Distinct names leave no two nodes level. */
  lemma NamesSeparate(nodes: seq<Node>)
    requires Sorting.DistinctKeys(nodes, NodeID) && AllOk(nodes)
    ensures Sorting.Separates(nodes, Heavier)
  {
    forall a, b | a in nodes && b in nodes && a != b ensures Heavier(a, b) || Heavier(b, a) {
      assert NodeOk(a) && NodeOk(b);
      if a.id == b.id { Sorting.SameKeySameElement(nodes, NodeID, a, b); }
      Text.LessTotal(a.id, b.id);
      OneIsHeavier(a, b);
    }
  }

  lemma OneIsHeavier(a: Node, b: Node)
    requires NodeOk(a) && NodeOk(b) && (Text.Less(a.id, b.id) || Text.Less(b.id, a.id))
    ensures Heavier(a, b) || Heavier(b, a)
  {
    hide Text.Less;
  }

  function Members(s: seq<Node>): set<Node> { set y | y in s }

  lemma {:induction false} MembersCount(s: seq<Node>)
    requires Sorting.DistinctKeys(s, NodeID)
    ensures |Members(s)| == |s|
  {
    if s != [] {
      var n := |s| - 1;
      var front, last := s[..n], s[n];
      MembersCount(front);
      assert s == front + [last];
      NotBefore(s, n, n);
      assert Members(s) == Members(front) + {last};
    }
  }

  lemma RankAlike(x: Node, a: seq<Node>, b: seq<Node>)
    requires multiset(a) == multiset(b)
    ensures Rank(x, a) == Rank(x, b)
  {
    Sorting.SameElements(a, b);
    hide Heavier;
    assert (set y | y in a && Heavier(y, x)) == (set y | y in b && Heavier(y, x));
  }

  /** In sorted order a node's rank is its position. */
  lemma RankIsPosition(s: seq<Node>, k: nat)
    requires k < |s| && Sorting.DistinctKeys(s, NodeID) && Sorting.Orders(s, Heavier)
    requires Sorting.SortedBy(s, Heavier) && Sorting.Separates(s, Heavier)
    ensures Rank(s[k], s) == k
  {
    hide Heavier;
    forall y | y in s ensures Heavier(y, s[k]) <==> y in s[..k] {
      var j :| 0 <= j < |s| && s[j] == y;
      if j < k {
        assert !Heavier(s[k], s[j]) && NodeID(s[j]) != NodeID(s[k]);
      } else if k < j {
        assert !Heavier(s[j], s[k]);
        NotBefore(s, j, k);
      } else {
        NotBefore(s, j, k);
      }
    }
    assert (set y | y in s && Heavier(y, s[k])) == Members(s[..k]);
    MembersCount(s[..k]);
  }

  lemma NotBefore(s: seq<Node>, j: nat, k: nat)
    requires Sorting.DistinctKeys(s, NodeID) && k <= j < |s|
    ensures s[j] !in s[..k]
  {
    forall i | 0 <= i < k ensures s[i] != s[j] { assert NodeID(s[i]) != NodeID(s[j]); }
  }

  /** Where the comparator orders the nodes, exactly the nodes of rank below `n` are
      taken away. */
  lemma TakenByRank(eligible: seq<Node>, n: nat, x: Node)
    requires n <= |eligible| && Sorting.Orders(eligible, Heavier) && Sorting.DistinctKeys(eligible, NodeID) && AllOk(eligible)
    ensures x in Taken(eligible, n) <==> x in eligible && Rank(x, eligible) < n
    ensures x in Kept(eligible, n) <==> x in eligible && n <= Rank(x, eligible)
  {
    hide Heavier;
    var order := HeaviestFirst(ByID(eligible));
    OrderLength(eligible);
    SortedOrder(eligible);
    Sorting.SameElements(order, eligible);
    RankAlike(x, order, eligible);
    hide Rank;
    if x in eligible {
      var k :| 0 <= k < |order| && order[k] == x;
      RankIsPosition(order, k);
      Position(order, k, n);
    } else {
      Split(order, n);
    }
  }

  lemma SortedOrder(eligible: seq<Node>)
    requires Sorting.Orders(eligible, Heavier) && Sorting.DistinctKeys(eligible, NodeID) && AllOk(eligible)
    ensures var order := HeaviestFirst(ByID(eligible));
            && Sorting.DistinctKeys(order, NodeID) && Sorting.Orders(order, Heavier)
            && Sorting.SortedBy(order, Heavier) && Sorting.Separates(order, Heavier)
  {
    hide Heavier;
    hide NodeOk;
    var order := HeaviestFirst(ByID(eligible));
    Sorting.SameElements(ByID(eligible), eligible);
    Sorting.SameElements(order, eligible);
    HeaviestFirstSorted(ByID(eligible));
    Sorting.DistinctPermuted(eligible, order, NodeID);
    NamesSeparate(order);
  }

  lemma Position(order: seq<Node>, k: nat, n: nat)
    requires k < |order| && n <= |order| && Sorting.DistinctKeys(order, NodeID)
    ensures order[k] in order[..n] <==> k < n
    ensures order[k] in order[n..] <==> n <= k
  {
    forall i | 0 <= i < |order| && order[i] == order[k] ensures i == k { assert NodeID(order[i]) == NodeID(order[k]); }
  }

  lemma OvertakenIsNearTie(eligible: seq<Node>, n: nat)
    requires n <= |eligible| && Sorting.Orders(eligible, Heavier) && Sorting.DistinctKeys(eligible, NodeID) && AllOk(eligible)
    ensures Overtaken(eligible, n) <==> CutsNearTie(eligible, n)
  {
    hide NodeOk;
    hide Taken;
    hide Kept;
    hide Rank;
    if Overtaken(eligible, n) {
      var x, y :| x in Taken(eligible, n) && y in Kept(eligible, n) && x.safeCapacity < y.safeCapacity;
      TakenByRank(eligible, n, x);
      TakenByRank(eligible, n, y);
      LighterFirst(eligible, x, y);
    }
    if CutsNearTie(eligible, n) {
      var x, y :| x in eligible && y in eligible && x.safeCapacity < y.safeCapacity && Rank(x, eligible) < n <= Rank(y, eligible);
      TakenByRank(eligible, n, x);
      TakenByRank(eligible, n, y);
    }
  }

  /** A smaller node ranks before a larger one only for being close and for its name. */
  lemma LighterFirst(nodes: seq<Node>, x: Node, y: Node)
    requires Sorting.Orders(nodes, Heavier) && Sorting.DistinctKeys(nodes, NodeID) && AllOk(nodes) && x in nodes && y in nodes
    requires x.safeCapacity < y.safeCapacity && Rank(x, nodes) < Rank(y, nodes)
    ensures Close(x.safeCapacity, y.safeCapacity) && Text.Less(x.id, y.id)
  {
    NamesSeparate(nodes);
    hide NodeOk;
    if Heavier(y, x) { RanksFall(nodes, y, x); }
  }

  lemma RanksFall(nodes: seq<Node>, a: Node, b: Node)
    requires Sorting.Orders(nodes, Heavier) && a in nodes && b in nodes && Heavier(a, b)
    ensures Rank(a, nodes) <= Rank(b, nodes)
  {
    hide Heavier;
    var before, after := set y | y in nodes && Heavier(y, a), set y | y in nodes && Heavier(y, b);
    forall y | y in before ensures y in after {
      assert !Heavier(b, a) && !Heavier(a, y);
      StrictlyBefore(nodes, y, a, b);
    }
    Seqs.SubsetCount(before, after);
  }

  lemma StrictlyBefore(nodes: seq<Node>, y: Node, a: Node, b: Node)
    requires Sorting.Orders(nodes, Heavier) && y in nodes && a in nodes && b in nodes
    requires Heavier(y, a) && Heavier(a, b)
    ensures Heavier(y, b)
  {
    hide Heavier;
    assert !Heavier(b, a) && !Heavier(a, y);
  }

  /** Where the comparator orders the eligible nodes, the reported safe capacity is
      the exact worst case over failures unless the cut falls inside a near tie. */
  lemma ExactIff(a: Assessment, request: Request, nodes: seq<Node>)
    requires Admissible(request, nodes) && Describes(a, request, Eligible(request.role, nodes))
    requires Sorting.Orders(Eligible(request.role, nodes), Heavier)
    ensures 0 <= request.failureReserve < |Eligible(request.role, nodes)|
    ensures Exact(a.safeCapacity, Eligible(request.role, nodes), request.failureReserve) <==>
            !CutsNearTie(Eligible(request.role, nodes), request.failureReserve)
  {
    hide *;
    var eligible, n := Eligible(request.role, nodes), request.failureReserve;
    AdmissibleEligible(request, nodes);
    DescribesCapacity(a, request, eligible);
    ExactUnlessOvertaken(eligible, n);
    OvertakenIsNearTie(eligible, n);
  }

  ghost predicate AllOk(nodes: seq<Node>)
  {
    forall n | n in nodes :: NodeOk(n)
  }

  lemma AdmissibleEligible(request: Request, nodes: seq<Node>)
    requires Admissible(request, nodes)
    ensures 0 <= request.failureReserve < |Eligible(request.role, nodes)| && AllOk(Eligible(request.role, nodes))
    ensures Sorting.DistinctKeys(Eligible(request.role, nodes), NodeID)
  {
    hide NodeOk;
    hide Trimmed;
    EligibleOk(request.role, nodes);
  }

  /** For any cut of any rearrangement: what is left is the exact worst case unless a
      smaller node was taken away than one that was kept. */
  lemma ExactForAnyCut(eligible: seq<Node>, taken: seq<Node>, kept: seq<Node>)
    requires AllOk(eligible) && multiset(taken + kept) == multiset(eligible)
    ensures Exact(Left(eligible, taken), eligible, |taken|) <==> Heaviest(taken, kept, 0.0)
  {
    CutNonNegative(eligible, taken, kept);
    hide *;
    WorstLossIsExact(eligible, taken, kept);
    WorstLossIff(taken, kept);
  }

  lemma CutNonNegative(eligible: seq<Node>, taken: seq<Node>, kept: seq<Node>)
    requires AllOk(eligible) && multiset(taken + kept) == multiset(eligible)
    ensures NonNegative(taken)
  {
    Sorting.SameElements(taken + kept, eligible);
    forall x | x in taken ensures x.safeCapacity >= 0.0 {
      assert x in taken + kept;
      assert NodeOk(x);
    }
  }

  lemma ExactUnlessOvertaken(eligible: seq<Node>, n: nat)
    requires n <= |eligible| && AllOk(eligible)
    ensures Exact(Left(eligible, Taken(eligible, n)), eligible, n) <==> !Overtaken(eligible, n)
  {
    hide AllOk;
    hide Exact;
    hide Left;
    hide Taken;
    hide Kept;
    TakenAndKept(eligible, n);
    ExactForAnyCut(eligible, Taken(eligible, n), Kept(eligible, n));
  }

  lemma TakenNonNegative(eligible: seq<Node>, n: nat)
    requires n <= |eligible| && forall x | x in eligible :: NodeOk(x)
    ensures NonNegative(Taken(eligible, n))
  {
    TakenAndKept(eligible, n);
    Sorting.SameElements(Taken(eligible, n) + Kept(eligible, n), eligible);
    hide Taken;
    hide Kept;
    forall x | x in Taken(eligible, n) ensures x.safeCapacity >= 0.0 {
      assert x in Taken(eligible, n) + Kept(eligible, n);
    }
  }

  /** What the eligible nodes inherit from the admission of all nodes. */
  lemma EligibleOk(role: Roles.NodeRole, nodes: seq<Node>)
    requires (forall n | n in nodes :: NodeOk(Trimmed(n))) && Sorting.DistinctKeys(nodes, TrimmedID)
    ensures forall n | n in Eligible(role, nodes) :: NodeOk(n)
    ensures Sorting.DistinctKeys(Eligible(role, nodes), NodeID)
  {
    hide NodeOk;
    Seqs.Collected(PickEligible(role), nodes);
    Seqs.CollectDistinct(PickEligible(role), nodes, TrimmedID, NodeID);
  }

  // ----- separated capacities -----

  /** No two eligible capacities are distinct and yet close. */
  ghost predicate Separated(nodes: seq<Node>)
  {
    forall a, b | a in nodes && b in nodes :: !NearTie(a.safeCapacity, b.safeCapacity)
  }

  predicate HeavierExactly(a: Node, b: Node)
  {
    a.safeCapacity > b.safeCapacity || (a.safeCapacity == b.safeCapacity && Text.Less(a.id, b.id))
  }

  lemma SeparatedCompares(a: Node, b: Node)
    requires !NearTie(a.safeCapacity, b.safeCapacity) && Finite(a.safeCapacity)
    ensures Heavier(a, b) <==> HeavierExactly(a, b)
  {
  }

  lemma SeparatedOrders(nodes: seq<Node>)
    requires Separated(nodes) && forall n | n in nodes :: NodeOk(n)
    ensures Sorting.Orders(nodes, Heavier)
  {
    forall a, b | a in nodes && b in nodes ensures Heavier(a, b) <==> HeavierExactly(a, b) { SeparatedCompares(a, b); }
    hide Heavier;
    hide NodeOk;
    hide Separated;
    Text.LessIsStrictTotal();
    forall a, b, c | a in nodes && b in nodes && c in nodes && !Heavier(b, a) && !Heavier(c, b) ensures !Heavier(c, a) {}
  }

  lemma SortedPairs(s: seq<Node>, n: nat, slack: real)
    requires n <= |s| && Sorting.SortedBy(s, Heavier)
    requires forall a, b | a in s && b in s && Close(a.safeCapacity, b.safeCapacity) :: b.safeCapacity <= a.safeCapacity + slack
    requires slack >= 0.0
    ensures Heaviest(s[..n], s[n..], slack)
  {
    forall x, y | x in s[..n] && y in s[n..] ensures y.safeCapacity <= x.safeCapacity + slack {
      hide Heavier;
      hide Close;
      var i :| 0 <= i < n && s[i] == x;
      var j :| n <= j < |s| && s[j] == y;
      assert !Heavier(s[j], s[i]);
      NotHeavier(x, y);
    }
  }

  lemma NotHeavier(x: Node, y: Node)
    requires !Heavier(y, x)
    ensures y.safeCapacity <= x.safeCapacity || Close(x.safeCapacity, y.safeCapacity)
  {
  }

  /** Whenever the comparator orders the nodes, what is taken away is heaviest up
      to the slack that closeness allows. */
  lemma TakenHeaviest(eligible: seq<Node>, n: nat, slack: real)
    requires n <= |eligible| && Sorting.Orders(eligible, Heavier) && slack >= 0.0
    requires forall a, b | a in eligible && b in eligible && Close(a.safeCapacity, b.safeCapacity) ::
               b.safeCapacity <= a.safeCapacity + slack
    ensures Heaviest(Taken(eligible, n), Kept(eligible, n), slack)
  {
    hide Heavier;
    hide Close;
    var order := HeaviestFirst(ByID(eligible));
    Sorting.SameElements(ByID(eligible), eligible);
    Sorting.SameElements(order, eligible);
    HeaviestFirstSorted(ByID(eligible));
    SortedPairs(order, n, slack);
  }

  /** With separated capacities the reported figure is exact. */
  lemma SeparatedIsExact(a: Assessment, request: Request, nodes: seq<Node>)
    requires Admissible(request, nodes) && Describes(a, request, Eligible(request.role, nodes))
    requires Separated(Eligible(request.role, nodes))
    ensures Exact(a.safeCapacity, Eligible(request.role, nodes), request.failureReserve)
  {
    EligibleOk(request.role, nodes);
    SeparatedOrders(Eligible(request.role, nodes));
    ExactIff(a, request, nodes);
    hide NodeOk;
    hide Describes;
    hide Exact;
    hide Rank;
  }

  /** In general, as long as closeness is consistent enough to sort by, the figure
      exceeds the true worst case by at most one tolerance for each node lost. */
  lemma OverstatedAtMost(a: Assessment, request: Request, nodes: seq<Node>, largest: real, failed: seq<Node>)
    requires Admissible(request, nodes) && Describes(a, request, Eligible(request.role, nodes))
    requires Sorting.Orders(Eligible(request.role, nodes), Heavier)
    requires largest >= 1.0 && forall n | n in Eligible(request.role, nodes) :: n.safeCapacity <= largest
    requires Fails(failed, Eligible(request.role, nodes), request.failureReserve)
    ensures a.safeCapacity <= Left(Eligible(request.role, nodes), failed) +
                              Times(|failed|, largest * RELATIVE)
  {
    hide NodeOk;
    hide Total;
    hide Times;
    hide Taken;
    hide Sorting.Orders;
    hide Describes;
    DescribesCapacity(a, request, Eligible(request.role, nodes));
    EligibleOk(request.role, nodes);
    LossWithin(Eligible(request.role, nodes), request.failureReserve, largest, failed);
  }

  lemma LossWithin(eligible: seq<Node>, n: nat, largest: real, failed: seq<Node>)
    requires n <= |eligible| && Sorting.Orders(eligible, Heavier) && largest >= 1.0 && Fails(failed, eligible, n)
    requires forall x | x in eligible :: NodeOk(x) && x.safeCapacity <= largest
    ensures Total(SafeCapacity, failed) <= Total(SafeCapacity, Taken(eligible, n)) + Times(|failed|, largest * RELATIVE)
  {
    var slack := largest * RELATIVE;
    forall a, b | a in eligible && b in eligible && Close(a.safeCapacity, b.safeCapacity)
      ensures b.safeCapacity <= a.safeCapacity + slack
    {
      CloseWithin(a, b, largest);
    }
    TakenNonNegative(eligible, n);
    TakenAndKept(eligible, n);
    hide NodeOk;
    hide Total;
    hide Times;
    hide Taken;
    hide Kept;
    hide Close;
    hide Sorting.Orders;
    TakenHeaviest(eligible, n, slack);
    HeaviestWithin(Taken(eligible, n), Kept(eligible, n), failed, slack);
  }

  lemma CloseWithin(a: Node, b: Node, largest: real)
    requires NodeOk(a) && NodeOk(b) && a.safeCapacity <= largest && b.safeCapacity <= largest && largest >= 1.0
    requires Close(a.safeCapacity, b.safeCapacity)
    ensures b.safeCapacity <= a.safeCapacity + largest * RELATIVE
  {
  }

  /** A safe verdict holds through every failure planned for, up to the tolerance of
      the verdict and, where near ties are cut, one more for each node lost. */
  lemma SafeSurvivesFailures(a: Assessment, request: Request, nodes: seq<Node>, largest: real, failed: seq<Node>)
    requires Admissible(request, nodes) && Describes(a, request, Eligible(request.role, nodes)) && a.safe
    requires Sorting.Orders(Eligible(request.role, nodes), Heavier)
    requires largest >= 1.0 && forall n | n in Eligible(request.role, nodes) :: n.safeCapacity <= largest
    requires Fails(failed, Eligible(request.role, nodes), request.failureReserve)
    ensures request.expectedWorkload <=
            Left(Eligible(request.role, nodes), failed) + Slack(a.safeReserve) + Times(|failed|, largest * RELATIVE)
    ensures !CutsNearTie(Eligible(request.role, nodes), request.failureReserve) ==>
              request.expectedWorkload <= Left(Eligible(request.role, nodes), failed) + Slack(a.safeReserve)
  {
    OverstatedAtMost(a, request, nodes, largest, failed);
    ExactIff(a, request, nodes);
    DescribesCapacity(a, request, Eligible(request.role, nodes));
    hide Sorting.Orders;
    hide Admissible;
    hide Describes;
    hide Fails;
    hide Left;
    hide Slack;
    hide Times;
    hide Taken;
    hide CutsNearTie;
  }

  // ----- a near tie -----

  function Example(id: string, capacity: real): Node
  {
    Node(id, Roles.WorkerNode, true, 0.0, capacity, 10.0, Confidence("certified", 1.0), KnownMetric("cpu"), "t", 1.0)
  }

  lemma NearTieTaken(a: Node, b: Node)
    requires a.id == "a" && b.id == "b" && a != b && Close(a.safeCapacity, b.safeCapacity)
    ensures Taken([a, b], 1) == [a] && Kept([a, b], 1) == [b]
  {
    NamesInOrder();
    assert Heavier(a, b) && !Heavier(b, a);
    hide Close;
    assert NodeID(a) == "a" && NodeID(b) == "b";
    assert !Sorting.KeyLess(NodeID)(b, a);
    Sorting.SortByKeyFixed([a, b], NodeID);
    hide Sorting.SortByKey;
    PairTaken(a, b);
  }

  lemma NamesInOrder()
    ensures Text.Less("a", "b") && !Text.Less("b", "a")
  {
    assert "a"[0] == 'a' && "b"[0] == 'b' && "a"[1..] == [] && "b"[1..] == [];
  }

  lemma PairTaken(a: Node, b: Node)
    requires Heavier(a, b) && !Heavier(b, a)
    ensures HeaviestFirst([a, b]) == [a, b]
  {
    hide Heavier;
    assert [a, b][1..] == [b] && [b][1..] == [];
    assert HeaviestFirst([b]) == Sorting.Insert(b, [], Heavier) == [b];
  }

  lemma ExamplesEligible(a: Node, b: Node)
    requires a.healthy && b.healthy && a.role == b.role && Trimmed(a) == a && Trimmed(b) == b
    ensures Eligible(a.role, [a, b]) == [a, b]
  {
    hide Trimmed;
    Seqs.CollectOne(PickEligible(a.role), a);
    Seqs.CollectOne(PickEligible(a.role), b);
    Seqs.CollectJoins(PickEligible(a.role), [a], [b]);
    assert [a] + [b] == [a, b];
  }

  lemma ExampleOk(id: string, capacity: real)
    requires id in {"a", "b"} && 0.5 <= capacity <= 2.0
    ensures NodeOk(Example(id, capacity)) && Trimmed(Example(id, capacity)) == Example(id, capacity)
  {
    assert Text.Trim(id) == id && Text.Trim("t") == "t" && Text.Trim("certified") == "certified";
    assert Text.Lower("certified") == "certified";
  }

  /** Two nodes closer than the tolerance: the smaller one is taken away because of
      its name, and the figure promises more than the loss of the other leaves. */
  lemma NearTieOverstates() returns (request: Request, nodes: seq<Node>)
    ensures Admissible(request, nodes)
    ensures forall a | Describes(a, request, Eligible(request.role, nodes)) ::
              !Exact(a.safeCapacity, Eligible(request.role, nodes), request.failureReserve)
  {
    var a, b := Example("a", 1.0), Example("b", 1.000_000_000_5);
    request, nodes := Request("s", Roles.WorkerNode, Devices, 1, 0.0), [a, b];
    NearTieAdmissible(request, a, b);
    NearTieTaken(a, b);
    assert a in Taken(nodes, 1) && b in Kept(nodes, 1);
    assert Overtaken(nodes, 1);
    AdmissibleEligible(request, nodes);
    hide *;
    ExactUnlessOvertaken(nodes, 1);
    forall r | Describes(r, request, Eligible(request.role, nodes))
      ensures !Exact(r.safeCapacity, Eligible(request.role, nodes), request.failureReserve)
    {
      DescribesCapacity(r, request, nodes);
    }
  }

  lemma NearTieAdmissible(request: Request, a: Node, b: Node)
    requires request == Request("s", Roles.WorkerNode, Devices, 1, 0.0)
    requires a == Example("a", 1.0) && b == Example("b", 1.000_000_000_5)
    ensures Admissible(request, [a, b]) && Eligible(request.role, [a, b]) == [a, b]
    ensures Close(a.safeCapacity, b.safeCapacity)
  {
    assert Text.Trim("s") == "s" && RequestOk(request);
    ExampleOk("a", 1.0);
    ExampleOk("b", 1.000_000_000_5);
    ExamplesEligible(a, b);
    assert TrimmedID(a) == Trimmed(a).id && TrimmedID(b) == Trimmed(b).id;
    assert a.id[0] == 'a' && b.id[0] == 'b';
    hide NodeOk;
    hide Trimmed;
    hide Text.Trim;
    hide Eligible;
  }

  // ----- the order of the input -----

  /** Any order of the nodes gives the same assessment. */
  lemma AssessmentIgnoresOrder(a: Assessment, b: Assessment, request: Request, x: seq<Node>, y: seq<Node>)
    requires Admissible(request, x) && multiset(x) == multiset(y)
    requires Describes(a, request, Eligible(request.role, x)) && Describes(b, request, Eligible(request.role, y))
    ensures a == b
  {
    var p, q := Eligible(request.role, x), Eligible(request.role, y);
    EligibleOk(request.role, x);
    Seqs.CollectPermuted(PickEligible(request.role), x, y);
    DescribesOnce(a, b, request, p, q);
  }

  lemma FiguresOnce(a: Assessment, b: Assessment, request: Request, p: seq<Node>, q: seq<Node>)
    requires multiset(p) == multiset(q) && Sorting.DistinctKeys(p, NodeID)
    requires Figures(a, request, p) && Figures(b, request, q)
    ensures a.id == b.id && a.request == b.request && a.healthyNodes == b.healthyNodes && a.workload == b.workload
    ensures a.safeCapacity == b.safeCapacity && a.technicalLimit == b.technicalLimit && a.safeReserve == b.safeReserve
  {
    Sorting.SameElements(p, q);
    Sorting.SortByKeyUnique(p, q, NodeID);
    TotalPermuted(Workload, p, q);
    TotalPermuted(SafeCapacity, p, q);
    TotalPermuted(TechnicalLimit, p, q);
    assert Taken(p, request.failureReserve) == Taken(q, request.failureReserve);
    hide Taken;
    hide Total;
    hide Sorting.SortByKey;
    hide Text.Trim;
    hide Sorting.DistinctKeys;
  }

  lemma DescribesOnce(a: Assessment, b: Assessment, request: Request, p: seq<Node>, q: seq<Node>)
    requires multiset(p) == multiset(q) && Sorting.DistinctKeys(p, NodeID)
    requires Describes(a, request, p) && Describes(b, request, q)
    ensures a == b
  {
    FiguresOnce(a, b, request, p, q);
    hide Figures;
    hide First;
    hide Slack;
    hide Sorting.DistinctKeys;
    var s :| First(Reserve, s, p) && NamesBottleneck(a, s);
    var t :| First(Reserve, t, q) && NamesBottleneck(b, t);
    FirstOnce(Reserve, s, t, p, q);
    var u :| First(Score, u, p) && NamesConfidence(a, u);
    var v :| First(Score, v, q) && NamesConfidence(b, v);
    FirstOnce(Score, u, v, p, q);
  }

  lemma FirstOnce(amount: Node -> real, s: Node, t: Node, p: seq<Node>, q: seq<Node>)
    requires multiset(p) == multiset(q) && First(amount, s, p) && First(amount, t, q)
    ensures s == t
  {
    Sorting.SameElements(p, q);
    Text.LessAsymmetric(s.id, t.id);
  }

  // ----- the planner -----

  /** What the totals loop has when it has seen `done`, a prefix in order of identifiers. */
  ghost predicate Tallied(done: seq<Node>, workload: real, safe: real, technical: real)
  {
    workload == Total(Workload, done) && safe == Total(SafeCapacity, done) && technical == Total(TechnicalLimit, done)
  }

  lemma TalliedNext(s: seq<Node>, k: nat, workload: real, safe: real, technical: real)
    requires k < |s| && Tallied(s[..k], workload, safe, technical)
    ensures Tallied(s[..k + 1], workload + s[k].workload, safe + s[k].safeCapacity, technical + s[k].technicalLimit)
  {
    assert s[..k + 1][..k] == s[..k];
  }

  /** In ascending order of identifiers a later node never wins a tie. */
  lemma FirstNext(amount: Node -> real, s: seq<Node>, k: nat, b: Node)
    requires 0 < k < |s| && Sorting.DistinctKeys(s, NodeID) && Sorting.SortedBy(s, Sorting.KeyLess(NodeID))
    requires First(amount, b, s[..k])
    ensures !Text.Less(s[k].id, b.id)
    ensures First(amount, if amount(s[k]) < amount(b) then s[k] else b, s[..k + 1])
  {
    IDsAscend(s, k, b);
    hide Text.Less;
    hide Sorting.SortedBy;
    hide Sorting.DistinctKeys;
    Text.LessAsymmetric(b.id, s[k].id);
    assert s[..k + 1] == s[..k] + [s[k]];
    if amount(s[k]) >= amount(b) { assert b in s[..k + 1]; } else { assert s[k] in s[..k + 1]; }
  }

  lemma IDsAscend(s: seq<Node>, k: nat, b: Node)
    requires k < |s| && Sorting.DistinctKeys(s, NodeID) && Sorting.SortedBy(s, Sorting.KeyLess(NodeID)) && b in s[..k]
    ensures Text.Less(b.id, s[k].id)
  {
    var i :| 0 <= i < k && s[i] == b;
    assert !Sorting.KeyLess(NodeID)(s[k], s[i]);
    assert NodeID(s[i]) != NodeID(s[k]);
    Text.LessTotal(s[k].id, b.id);
  }

  lemma FirstStart(amount: Node -> real, s: seq<Node>)
    requires s != []
    ensures First(amount, s[0], s[..1])
  {
  }

  lemma FullScore(n: Node)
    requires NodeOk(n) && n.confidence.score >= 1.0
    ensures n.confidence == Confidence("certified", 1.0)
  {
  }

  method Admit(request: Request, nodes: seq<Node>) returns (ok: bool, eligible: seq<Node>)
    ensures ok <==> (forall n | n in nodes :: NodeOk(Trimmed(n))) && Sorting.DistinctKeys(nodes, TrimmedID)
    ensures ok ==> eligible == Eligible(request.role, nodes)
  {
    eligible := [];
    var seen: set<string> := {};
    assert nodes[..0] == [] && Eligible(request.role, []) == [] && Sorting.SeenKeys(seen, [], TrimmedID);
    hide NodeOk;
    hide Sorting.SeenKeys;
    hide Sorting.DistinctKeys;
    hide Seqs.Collect;
    for k := 0 to |nodes|
      invariant forall n | n in nodes[..k] :: NodeOk(Trimmed(n))
      invariant Sorting.SeenKeys(seen, nodes[..k], TrimmedID)
      invariant eligible == Eligible(request.role, nodes[..k])
    {
      var node := Trimmed(nodes[k]);
      assert nodes[k] in nodes && nodes[..k + 1] == nodes[..k] + [nodes[k]];
      Sorting.SeenNext(seen, nodes, TrimmedID, k);
      Seqs.CollectSnoc(PickEligible(request.role), nodes, k);
      if !NodeOk(node) || node.id in seen { return false, []; }
      seen := seen + {node.id};
      if node.healthy && node.role == request.role { eligible := eligible + [node]; }
    }
    assert nodes[..|nodes|] == nodes;
    Sorting.SeenAll(seen, nodes, TrimmedID);
    ok := true;
  }

  /** In order of identifiers, all different. */
  ghost predicate Arranged(nodes: seq<Node>)
  {
    nodes != [] && Sorting.DistinctKeys(nodes, NodeID) && Sorting.SortedBy(nodes, Sorting.KeyLess(NodeID)) && AllOk(nodes)
  }

  /** The running choices after the first `k` nodes; nothing is chosen before the first. */
  ghost predicate Chosen(nodes: seq<Node>, k: nat, bottleneck: Node, confidence: Confidence)
  {
    && 0 < |nodes| && k <= |nodes|
    && if k == 0 then bottleneck == nodes[0] && confidence == Confidence("certified", 1.0)
       else First(Reserve, bottleneck, nodes[..k]) && exists b :: First(Score, b, nodes[..k]) && b.confidence == confidence
  }

  predicate Replaces(node: Node, bottleneck: Node)
  {
    node.reserve < bottleneck.reserve || (Close(node.reserve, bottleneck.reserve) && Text.Less(node.id, bottleneck.id))
  }

  lemma ChosenNext(nodes: seq<Node>, k: nat, bottleneck: Node, confidence: Confidence)
    requires Arranged(nodes) && k < |nodes| && Chosen(nodes, k, bottleneck, confidence)
    ensures Chosen(nodes, k + 1, if Replaces(nodes[k], bottleneck) then nodes[k] else bottleneck,
                   if nodes[k].confidence.score < confidence.score then nodes[k].confidence else confidence)
  {
    hide First;
    hide Close;
    hide NodeOk;
    if k == 0 {
      FirstStart(Reserve, nodes);
      FirstStart(Score, nodes);
      Text.LessAsymmetric(nodes[0].id, nodes[0].id);
      if nodes[0].confidence.score >= 1.0 { FullScore(nodes[0]); }
    } else {
      var b :| First(Score, b, nodes[..k]) && b.confidence == confidence;
      FirstNext(Reserve, nodes, k, bottleneck);
      FirstNext(Score, nodes, k, b);
    }
  }

  lemma NothingYet(eligible: seq<Node>)
    requires Arranged(eligible)
    ensures eligible != [] && Tallied(eligible[..0], 0.0, 0.0, 0.0)
    ensures Chosen(eligible, 0, eligible[0], Confidence("certified", 1.0))
  {
  }

  method Tally(eligible: seq<Node>) returns (workload: real, safe: real, technical: real, confidence: Confidence, bottleneck: Node)
    requires Arranged(eligible)
    ensures Tallied(eligible, workload, safe, technical) && Chosen(eligible, |eligible|, bottleneck, confidence)
  {
    hide *;
    NothingYet(eligible);
    workload, safe, technical := 0.0, 0.0, 0.0;
    confidence := Confidence("certified", 1.0);
    bottleneck := eligible[0];
    for k := 0 to |eligible|
      invariant Tallied(eligible[..k], workload, safe, technical) && Chosen(eligible, k, bottleneck, confidence)
    {
      var node := eligible[k];
      TalliedNext(eligible, k, workload, safe, technical);
      ChosenNext(eligible, k, bottleneck, confidence);
      workload, safe, technical := workload + node.workload, safe + node.safeCapacity, technical + node.technicalLimit;
      if node.confidence.score < confidence.score { confidence := node.confidence; }
      if Replaces(node, bottleneck) { bottleneck := node; }
    }
    assert eligible[..|eligible|] == eligible;
  }

  method TakeAway(taken: seq<Node>, safeTotal: real, technicalTotal: real) returns (safe: real, technical: real)
    ensures safe == safeTotal - Total(SafeCapacity, taken) && technical == technicalTotal - Total(TechnicalLimit, taken)
  {
    safe, technical := safeTotal, technicalTotal;
    for k := 0 to |taken|
      invariant safe == safeTotal - Total(SafeCapacity, taken[..k])
      invariant technical == technicalTotal - Total(TechnicalLimit, taken[..k])
    {
      assert taken[..k + 1][..k] == taken[..k];
      safe, technical := safe - taken[k].safeCapacity, technical - taken[k].technicalLimit;
    }
    assert taken[..|taken|] == taken;
  }

  method BuildAssessment(request: Request, nodes: seq<Node>) returns (r: Option<Assessment>)
    ensures r.Some? <==> Admissible(request, nodes)
    ensures r.Some? ==> Describes(r.value, request, Eligible(request.role, nodes))
  {
    hide NodeOk;
    hide Trimmed;
    hide Describes;
    if !RequestOk(request) || |nodes| == 0 || |nodes| > 4096 { return None; }
    var ok, listed := Admit(request, nodes);
    if !ok || |listed| <= request.failureReserve { return None; }
    EligibleOk(request.role, nodes);
    var a := Assess(request, listed);
    r := Some(a);
  }

  method Assess(request: Request, listed: seq<Node>) returns (a: Assessment)
    requires 0 <= request.failureReserve < |listed| && Sorting.DistinctKeys(listed, NodeID)
    requires forall n | n in listed :: NodeOk(n)
    ensures Describes(a, request, listed)
  {
    hide *;
    var n := request.failureReserve;
    OrderLength(listed);
    ArrangedByID(listed);
    var eligible := ByID(listed);
    var workload, safe, technical, confidence, bottleneck := Tally(eligible);
    safe, technical := TakeAway(HeaviestFirst(eligible)[..n], safe, technical);
    var reserve := safe - request.expectedWorkload;
    a := Assessment(Sha256Of(Normal(request), eligible), Normal(request), |eligible|, workload, safe, technical, reserve,
                    bottleneck.id, bottleneck.metric, bottleneck.target, confidence,
                    reserve >= -Slack(reserve) && bottleneck.reserve >= -Slack(bottleneck.reserve),
                    ActionFor(confidence, reserve));
    AddsUp(a, request, listed, eligible);
    Names(a, request, eligible, listed, bottleneck);
  }

  lemma ArrangedByID(listed: seq<Node>)
    requires listed != [] && Sorting.DistinctKeys(listed, NodeID) && forall n | n in listed :: NodeOk(n)
    ensures Arranged(ByID(listed)) && multiset(ByID(listed)) == multiset(listed)
  {
    hide NodeOk;
    Sorting.SameElements(ByID(listed), listed);
    Sorting.DistinctPermuted(listed, ByID(listed), NodeID);
  }

  lemma AddsUp(a: Assessment, request: Request, listed: seq<Node>, eligible: seq<Node>)
    requires 0 <= request.failureReserve <= |listed| && eligible == ByID(listed) && |HeaviestFirst(eligible)| == |listed|
    requires a.id == Sha256Of(Normal(request), eligible) && a.request == Normal(request) && a.healthyNodes == |listed|
    requires exists safe, technical :: Tallied(eligible, a.workload, safe, technical) &&
               a.safeCapacity == safe - Total(SafeCapacity, HeaviestFirst(eligible)[..request.failureReserve]) &&
               a.technicalLimit == technical - Total(TechnicalLimit, HeaviestFirst(eligible)[..request.failureReserve])
    requires a.safeReserve == a.safeCapacity - request.expectedWorkload
    ensures Figures(a, request, listed)
  {
    Sorting.SameElements(eligible, listed);
    TotalPermuted(Workload, eligible, listed);
    TotalPermuted(SafeCapacity, eligible, listed);
    TotalPermuted(TechnicalLimit, eligible, listed);
    hide Total;
    hide HeaviestFirst;
    hide Normal;
  }

  lemma Names(a: Assessment, request: Request, eligible: seq<Node>, listed: seq<Node>, bottleneck: Node)
    requires multiset(eligible) == multiset(listed) && Chosen(eligible, |eligible|, bottleneck, a.confidence)
    requires Figures(a, request, listed)
    requires a.bottleneckNode == bottleneck.id && a.bottleneckMetric == bottleneck.metric && a.bottleneckTarget == bottleneck.target
    requires a.safe == (a.safeReserve >= -Slack(a.safeReserve) && bottleneck.reserve >= -Slack(bottleneck.reserve))
    requires a.action == ActionFor(a.confidence, a.safeReserve)
    ensures Describes(a, request, listed)
  {
    hide Figures;
    hide First;
    hide ActionFor;
    hide Slack;
    assert NamesBottleneck(a, bottleneck);
    assert eligible[..|eligible|] == eligible;
    FirstPermuted(Reserve, bottleneck, eligible, listed);
    var least :| First(Score, least, eligible) && a.confidence == least.confidence;
    FirstPermuted(Score, least, eligible, listed);
    assert NamesConfidence(a, least);
  }

  lemma FirstPermuted(amount: Node -> real, b: Node, p: seq<Node>, q: seq<Node>)
    requires multiset(p) == multiset(q) && First(amount, b, p)
    ensures First(amount, b, q)
  {
    Sorting.SameElements(p, q);
  }
}
