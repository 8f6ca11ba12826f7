/** Capacity after losing the largest nodes (internal/capacity/planner.go). */
module CapacityPlanner {
  import opened Options
  import opened Reals
  import Roles
  import Seqs
  import Sorting
  import Text

  datatype WorkloadUnit = Devices | ConcurrentSessions | JobsPerMinute | RequestsPerSecond | Instances | UnknownUnit(text: string)
  datatype Metric = KnownMetric(name: string) | UnknownMetric(name: string)
  datatype Confidence = Confidence(level: string, score: real)

  datatype Node = Node(
    id: string, role: Roles.NodeRole, healthy: bool, workload: real, safeCapacity: real, technicalLimit: real,
    confidence: Confidence, metric: Metric, target: string, reserve: real)

  datatype Request = Request(
    scopeID: string, role: Roles.NodeRole, unit: WorkloadUnit, failureReserve: int, expectedWorkload: real)

  datatype Action = NoAction | CollectEvidence | AddRoleCapacity

  /** The identity is a digest of the request and the eligible nodes, taken as injective. */
  datatype Digest = Sha256Of(request: Request, nodes: seq<Node>)

  datatype Assessment = Assessment(
    id: Digest, request: Request, healthyNodes: nat, workload: real, safeCapacity: real, technicalLimit: real,
    safeReserve: real, bottleneckNode: string, bottleneckMetric: Metric, bottleneckTarget: string,
    confidence: Confidence, safe: bool, action: Action)

  // ----- admission -----

  predicate IsIdentifier(s: string) { Text.IsIdentifier(s, 255, true) }

  function Trimmed(n: Node): Node { n.(id := Text.Trim(n.id), target := Text.Trim(n.target)) }
  function TrimmedID(n: Node): string { Text.Trim(n.id) }
  function NodeID(n: Node): string { n.id }

  /** The level is normalized for its band, but the evidence made up for a
      certified node looks at the level as it was spelled. */
  predicate ConfidenceOk(c: Confidence)
  {
    var level := Text.Lower(Text.Trim(c.level));
    && 0.0 <= c.score <= 1.0
    && (|| (level == "low" && c.score < 0.5)
        || (level == "medium" && 0.5 <= c.score < 0.75)
        || (level == "high" && 0.75 <= c.score < 0.95)
        || (level == "certified" && 0.95 <= c.score && c.level == "certified"))
  }

  predicate NodeOk(n: Node)
  {
    && IsIdentifier(n.id) && IsIdentifier(n.target) && !n.role.UnknownRole?
    && Finite(n.workload) && n.workload >= 0.0
    && FinitePositive(n.safeCapacity) && FinitePositive(n.technicalLimit) && n.safeCapacity < n.technicalLimit
    && Finite(n.reserve) && n.metric.KnownMetric? && ConfidenceOk(n.confidence)
  }

  predicate RequestOk(r: Request)
  {
    && IsIdentifier(Text.Trim(r.scopeID)) && !r.role.UnknownRole? && !r.unit.UnknownUnit?
    && 0 <= r.failureReserve <= 16 && Finite(r.expectedWorkload) && r.expectedWorkload >= 0.0
  }

  function PickEligible(role: Roles.NodeRole): Node -> Option<Node>
  {
    (n: Node) => if n.healthy && n.role == role then Some(Trimmed(n)) else None
  }

  /** The healthy nodes of the required role, as listed. */
  function Eligible(role: Roles.NodeRole, nodes: seq<Node>): seq<Node>
  {
    Seqs.Collect(PickEligible(role), nodes)
  }

  ghost predicate Admissible(request: Request, nodes: seq<Node>)
  {
    && RequestOk(request) && 1 <= |nodes| <= 4096
    && (forall n | n in nodes :: NodeOk(Trimmed(n))) && Sorting.DistinctKeys(nodes, TrimmedID)
    && request.failureReserve < |Eligible(request.role, nodes)|
  }

  // ----- totals -----

  function Workload(n: Node): real { n.workload }
  function SafeCapacity(n: Node): real { n.safeCapacity }
  function TechnicalLimit(n: Node): real { n.technicalLimit }

  function Total(amount: Node -> real, nodes: seq<Node>): real
  {
    if nodes == [] then 0.0 else Total(amount, nodes[..|nodes| - 1]) + amount(nodes[|nodes| - 1])
  }

  lemma {:induction false} TotalJoins(amount: Node -> real, a: seq<Node>, b: seq<Node>)
    ensures Total(amount, a + b) == Total(amount, a) + Total(amount, b)
  {
    if b == [] {
      assert a + b == a;
    } else {
      var n := |b| - 1;
      assert (a + b)[..|a| + n] == a + b[..n];
      TotalJoins(amount, a, b[..n]);
    }
  }

  lemma TotalOne(amount: Node -> real, n: Node)
    ensures Total(amount, [n]) == amount(n)
  {
    assert [n][..0] == [];
  }

  lemma TotalWithout(amount: Node -> real, nodes: seq<Node>, k: nat)
    requires k < |nodes|
    ensures Total(amount, nodes) == Total(amount, Seqs.Without(nodes, k)) + amount(nodes[k])
  {
    hide Total;
    assert nodes == nodes[..k] + [nodes[k]] + nodes[k + 1..];
    TotalJoins(amount, nodes[..k] + [nodes[k]], nodes[k + 1..]);
    TotalJoins(amount, nodes[..k], [nodes[k]]);
    TotalJoins(amount, nodes[..k], nodes[k + 1..]);
    TotalOne(amount, nodes[k]);
  }

  lemma {:induction false} TotalPermuted(amount: Node -> real, a: seq<Node>, b: seq<Node>)
    requires multiset(a) == multiset(b)
    ensures Total(amount, a) == Total(amount, b)
  {
    if a == [] {
      assert |multiset(b)| == |b|;
    } else {
      Seqs.WithoutOne(a, 0);
      var k := Seqs.Occurs(b, a[0]);
      Seqs.WithoutOne(b, k);
      TotalPermuted(amount, Seqs.Without(a, 0), Seqs.Without(b, k));
      TotalWithout(amount, a, 0);
      TotalWithout(amount, b, k);
    }
  }

  // ----- worst cases -----

  /** Some of the nodes, at most `n` of them. */
  predicate Fails(failed: seq<Node>, nodes: seq<Node>, n: nat)
  {
    multiset(failed) <= multiset(nodes) && |failed| <= n
  }

  /** No node kept is larger than a node lost, up to a slack. */
  ghost predicate Heaviest(taken: seq<Node>, rest: seq<Node>, slack: real)
  {
    forall x, y | x in taken && y in rest :: y.safeCapacity <= x.safeCapacity + slack
  }

  ghost predicate NonNegative(nodes: seq<Node>)
  {
    forall x | x in nodes :: x.safeCapacity >= 0.0
  }

  lemma HeaviestFewer(taken: seq<Node>, i: nat, rest: seq<Node>, slack: real)
    requires i < |taken| && Heaviest(taken, rest, slack) && NonNegative(taken)
    ensures Heaviest(Seqs.Without(taken, i), rest, slack) && NonNegative(Seqs.Without(taken, i))
  {
    assert forall x | x in Seqs.Without(taken, i) :: x in taken;
  }

  /** A slack for each of `n` nodes. */
  function Times(n: nat, slack: real): real
  {
    if n == 0 then 0.0 else Times(n - 1, slack) + slack
  }

  lemma OneMore(n: nat, slack: real)
    requires n > 0
    ensures Times(n, slack) == Times(n - 1, slack) + slack
  {
  }

  /** Some node lost can be matched with one of `taken` that is no smaller. */
  lemma Match(taken: seq<Node>, rest: seq<Node>, failed: seq<Node>, slack: real) returns (i: nat, k: nat)
    requires failed != [] && Fails(failed, taken + rest, |taken|) && Heaviest(taken, rest, slack) && slack >= 0.0
    ensures i < |taken| && k < |failed| && failed[k].safeCapacity <= taken[i].safeCapacity + slack
    ensures Fails(Seqs.Without(failed, k), Seqs.Without(taken, i) + rest, |taken| - 1)
  {
    if j :| 0 <= j < |failed| && failed[j] in taken {
      k := j;
      i :| 0 <= i < |taken| && taken[i] == failed[k];
      DropBoth(taken, i, rest, failed, k);
    } else {
      i, k := 0, 0;
      DropUnlike(taken, rest, failed);
      assert taken[0] in taken;
    }
  }

  /** Losing `taken` costs at least as much as losing any other nodes, up to a
      slack for each. */
  lemma {:induction false} HeaviestWithin(taken: seq<Node>, rest: seq<Node>, failed: seq<Node>, slack: real)
    requires Fails(failed, taken + rest, |taken|) && NonNegative(taken) && Heaviest(taken, rest, slack) && slack >= 0.0
    ensures Total(SafeCapacity, failed) <= Total(SafeCapacity, taken) + Times(|failed|, slack)
    decreases |taken|
  {
    if failed == [] {
      TotalAtLeastZero(taken);
    } else {
      hide *;
      var i, k := Match(taken, rest, failed, slack);
      HeaviestFewer(taken, i, rest, slack);
      WithoutLength(taken, i);
      WithoutLength(failed, k);
      HeaviestWithin(Seqs.Without(taken, i), rest, Seqs.Without(failed, k), slack);
      TotalWithout(SafeCapacity, taken, i);
      TotalWithout(SafeCapacity, failed, k);
      OneMore(|failed|, slack);
      CapacityIs(taken[i]);
      CapacityIs(failed[k]);
    }
  }

  lemma CapacityIs(n: Node)
    ensures SafeCapacity(n) == n.safeCapacity
  {
  }

  lemma WithoutLength(s: seq<Node>, k: nat)
    requires k < |s|
    ensures |Seqs.Without(s, k)| == |s| - 1
  {
  }

  lemma {:induction false} TotalAtLeastZero(nodes: seq<Node>)
    requires forall x | x in nodes :: x.safeCapacity >= 0.0
    ensures Total(SafeCapacity, nodes) >= 0.0
  {
    if nodes != [] { TotalAtLeastZero(nodes[..|nodes| - 1]); }
  }

  lemma DropBoth(taken: seq<Node>, i: nat, rest: seq<Node>, failed: seq<Node>, k: nat)
    requires i < |taken| && k < |failed| && taken[i] == failed[k] && Fails(failed, taken + rest, |taken|)
    ensures Fails(Seqs.Without(failed, k), Seqs.Without(taken, i) + rest, |Seqs.Without(taken, i)|)
  {
    Seqs.WithoutOne(failed, k);
    Seqs.WithoutOne(taken, i);
  }

  lemma DropUnlike(taken: seq<Node>, rest: seq<Node>, failed: seq<Node>)
    requires failed != [] && Fails(failed, taken + rest, |taken|)
    requires forall k | 0 <= k < |failed| :: failed[k] !in taken
    ensures taken != [] && failed[0] in rest
    ensures Fails(Seqs.Without(failed, 0), Seqs.Without(taken, 0) + rest, |Seqs.Without(taken, 0)|)
  {
    OutsideTaken(taken, rest, failed);
    assert failed[0] in multiset(failed);
    Seqs.WithoutOne(failed, 0);
    Included(multiset(failed), multiset{failed[0]}, multiset(rest), multiset(Seqs.Without(taken, 0)));
  }

  lemma Included(all: multiset<Node>, one: multiset<Node>, rest: multiset<Node>, more: multiset<Node>)
    requires all <= rest
    ensures all - one <= more + rest
  {
  }

  lemma OutsideTaken(taken: seq<Node>, rest: seq<Node>, failed: seq<Node>)
    requires multiset(failed) <= multiset(taken + rest) && forall k | 0 <= k < |failed| :: failed[k] !in taken
    ensures multiset(failed) <= multiset(rest)
  {
    forall x ensures multiset(failed)[x] <= multiset(rest)[x] {
      if x in failed {
        assert multiset(taken)[x] == 0;
      }
    }
  }

  /** No loss of up to as many nodes costs more than losing `taken`. */
  ghost predicate WorstLoss(taken: seq<Node>, rest: seq<Node>)
  {
    forall failed | Fails(failed, taken + rest, |taken|) :: Total(SafeCapacity, failed) <= Total(SafeCapacity, taken)
  }

  /** The capacity left when `taken` is lost is the worst over all losses of as
      many nodes exactly when no node lost is smaller than a node kept. */
  lemma WorstLossIff(taken: seq<Node>, rest: seq<Node>)
    requires NonNegative(taken)
    ensures WorstLoss(taken, rest) <==> Heaviest(taken, rest, 0.0)
  {
    hide Total;
    hide Fails;
    if Heaviest(taken, rest, 0.0) {
      hide Heaviest;
      hide NonNegative;
      forall failed | Fails(failed, taken + rest, |taken|) ensures Total(SafeCapacity, failed) <= Total(SafeCapacity, taken) {
        HeaviestWithin(taken, rest, failed, 0.0);
        NoSlack(|failed|);
      }
    } else {
      var x, y :| x in taken && y in rest && x.safeCapacity < y.safeCapacity;
      var _ := WorseLoss(taken, rest, x, y);
    }
  }

  lemma NoSlack(n: nat)
    ensures Times(n, 0.0) == 0.0
  {
  }

  /** Swapping a lost node for a larger one that was kept loses more. */
  lemma WorseLoss(taken: seq<Node>, rest: seq<Node>, x: Node, y: Node) returns (failed: seq<Node>)
    requires x in taken && y in rest && x.safeCapacity < y.safeCapacity
    ensures Fails(failed, taken + rest, |taken|) && Total(SafeCapacity, failed) > Total(SafeCapacity, taken)
  {
    hide Total;
    var i :| 0 <= i < |taken| && taken[i] == x;
    var kept := Seqs.Without(taken, i);
    failed := kept + [y];
    Seqs.WithoutOne(taken, i);
    SwapFits(kept, rest, x, y);
    TotalWithout(SafeCapacity, taken, i);
    TotalJoins(SafeCapacity, kept, [y]);
    TotalOne(SafeCapacity, y);
  }

  lemma SwapFits(kept: seq<Node>, rest: seq<Node>, x: Node, y: Node)
    requires y in rest
    ensures multiset(kept + [y]) <= multiset(kept) + multiset{x} + multiset(rest)
  {
    assert multiset{y} <= multiset(rest);
  }
}
