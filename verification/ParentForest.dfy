/** Parent links between identifiers, "" meaning "no parent". Scope trees and
    interface chains are both walked along such links. */
module ParentForest {

  type Parents = map<string, string>

  /** Every parent named is itself known, and the empty string never is. */
  predicate Closed(parents: Parents)
  {
    "" !in parents && forall x | x in parents :: parents[x] == "" || parents[x] in parents
  }

  /** The n-th parent of `x`, or "" once the chain has ended. */
  function Up(parents: Parents, x: string, n: nat): string
  {
    if n == 0 then x
    else
      var y := Up(parents, x, n - 1);
      if y in parents then parents[y] else ""
  }

  ghost predicate Ends(parents: Parents, x: string)
  {
    exists n: nat :: Up(parents, x, n) == ""
  }

  ghost predicate Rooted(parents: Parents)
  {
    Closed(parents) && forall x | x in parents :: Ends(parents, x)
  }

  /** `a` is `d` itself or is met on the way up from it. */
  ghost predicate Above(parents: Parents, a: string, d: string)
  {
    a in parents && exists n: nat :: Up(parents, d, n) == a
  }

  lemma {:induction false} UpJoins(parents: Parents, x: string, n: nat, m: nat)
    ensures Up(parents, Up(parents, x, n), m) == Up(parents, x, n + m)
  {
    if m > 0 { UpJoins(parents, x, n, m - 1); }
  }

  lemma {:induction false} EndedStays(parents: Parents, x: string, n: nat, m: nat)
    requires "" !in parents && Up(parents, x, n) == "" && n <= m
    ensures Up(parents, x, m) == ""
  {
    if n < m { EndedStays(parents, x, n, m - 1); }
  }

  /** A walk that comes back to where it was goes round for ever. */
  lemma {:induction false} CycleNeverEnds(parents: Parents, x: string, i: nat, n: nat, m: nat)
    requires i < n && Up(parents, x, i) == Up(parents, x, n)
    requires forall k: nat | k < n :: Up(parents, x, k) in parents
    ensures exists k: nat :: k < n && Up(parents, x, m) == Up(parents, x, k)
    ensures Up(parents, x, m) in parents
  {
    if m >= n {
      CycleNeverEnds(parents, x, i, n, m - 1);
      var k: nat :| k < n && Up(parents, x, m - 1) == Up(parents, x, k);
      if k + 1 < n {
        assert Up(parents, x, m) == Up(parents, x, k + 1);
      } else {
        assert Up(parents, x, m) == Up(parents, x, n) == Up(parents, x, i);
      }
    } else {
      assert Up(parents, x, m) in parents;
    }
  }

  lemma RepeatNeverEnds(parents: Parents, x: string, i: nat, n: nat)
    requires "" !in parents && i < n && Up(parents, x, i) == Up(parents, x, n)
    requires forall k: nat | k < n :: Up(parents, x, k) in parents
    ensures !Ends(parents, x)
  {
    forall m: nat ensures Up(parents, x, m) != "" { CycleNeverEnds(parents, x, i, n, m); }
  }

  /** Walks up from `x` remembering where it has been; fails on a repeat. */
  method WalkEnds(parents: Parents, x: string) returns (ok: bool)
    requires Closed(parents) && x in parents
    ensures ok <==> Ends(parents, x)
  {
    var seen: set<string> := {};
    var current := x;
    ghost var n: nat := 0;
    while current != ""
      invariant current == Up(parents, x, n) && (current == "" || current in parents)
      invariant seen <= parents.Keys
      invariant forall k: nat | k < n :: Up(parents, x, k) in seen
      invariant forall y | y in seen :: exists k: nat :: k < n && Up(parents, x, k) == y
      decreases parents.Keys - seen
    {
      if current in seen {
        ghost var i: nat :| i < n && Up(parents, x, i) == current;
        RepeatNeverEnds(parents, x, i, n);
        return false;
      }
      seen := seen + {current};
      current := parents[current];
      n := n + 1;
    }
    return true;
  }

  // ----- the order of a rooted forest -----

  lemma AboveReflexive(parents: Parents, x: string)
    requires x in parents
    ensures Above(parents, x, x)
  {
    assert Up(parents, x, 0) == x;
  }

  lemma AboveTransitive(parents: Parents, a: string, b: string, c: string)
    requires Above(parents, a, b) && Above(parents, b, c)
    ensures Above(parents, a, c)
  {
    var n: nat :| Up(parents, c, n) == b;
    var m: nat :| Up(parents, b, m) == a;
    UpJoins(parents, c, n, m);
    assert Up(parents, c, n + m) == a;
  }

  lemma OnTheWay(parents: Parents, x: string, n: nat)
    requires "" !in parents && Up(parents, x, n) in parents
    ensures forall k: nat | k <= n :: Up(parents, x, k) in parents
  {
    forall k: nat | k <= n ensures Up(parents, x, k) in parents {
      if Up(parents, x, k) !in parents {
        if k < n {
          assert Up(parents, x, k + 1) == "";
          EndedStays(parents, x, k + 1, n);
        }
      }
    }
  }

  lemma AboveAntisymmetric(parents: Parents, a: string, b: string)
    requires Rooted(parents) && Above(parents, a, b) && Above(parents, b, a)
    ensures a == b
  {
    var n: nat :| Up(parents, b, n) == a;
    var m: nat :| Up(parents, a, m) == b;
    UpJoins(parents, b, n, m);
    if n + m > 0 {
      OnTheWay(parents, b, n + m);
      var e: nat :| Up(parents, b, e) == "";
      CycleNeverEnds(parents, b, 0, n + m, e);
    }
  }

  lemma AboveComparable(parents: Parents, a: string, b: string, d: string)
    requires Above(parents, a, d) && Above(parents, b, d)
    ensures Above(parents, a, b) || Above(parents, b, a)
  {
    var n: nat :| Up(parents, d, n) == a;
    var m: nat :| Up(parents, d, m) == b;
    if n <= m {
      UpJoins(parents, d, n, m - n);
      assert Up(parents, a, m - n) == b;
    } else {
      UpJoins(parents, d, m, n - m);
      assert Up(parents, b, n - m) == a;
    }
  }

  /** Every walk ends at an element without a parent. */
  lemma {:induction false} EndsAtTop(parents: Parents, x: string, n: nat) returns (top: string)
    requires Closed(parents) && x in parents && Up(parents, x, n) == ""
    ensures Above(parents, top, x) && parents[top] == ""
    decreases n
  {
    if Up(parents, x, n - 1) == "" {
      top := EndsAtTop(parents, x, n - 1);
    } else {
      top := Up(parents, x, n - 1);
      UpStaysKnown(parents, x, n - 1);
    }
  }

  lemma TopOf(parents: Parents, x: string) returns (top: string)
    requires Rooted(parents) && x in parents
    ensures Above(parents, top, x) && top in parents && parents[top] == ""
  {
    var n: nat :| Up(parents, x, n) == "";
    top := EndsAtTop(parents, x, n);
  }

  lemma {:induction false} UpStaysKnown(parents: Parents, x: string, n: nat)
    requires Closed(parents) && x in parents
    ensures Up(parents, x, n) == "" || Up(parents, x, n) in parents
  {
    if n > 0 { UpStaysKnown(parents, x, n - 1); }
  }

  /** Membership on the way up, by the source's walk: it stops at the ancestor,
      or at the top. */
  method WalkFinds(parents: Parents, a: string, d: string) returns (found: bool)
    requires Rooted(parents) && a in parents && d in parents
    ensures found <==> Above(parents, a, d)
  {
    var current := d;
    ghost var n: nat := 0;
    ghost var end: nat :| Up(parents, d, end) == "";
    while current != ""
      invariant current == Up(parents, d, n) && (current == "" || current in parents)
      invariant n <= end
      invariant forall k: nat | k < n :: Up(parents, d, k) != a
      decreases end - n
    {
      if current == a { return true; }
      current := parents[current];
      n := n + 1;
    }
    forall k: nat ensures Up(parents, d, k) != a {
      if n <= k { EndedStays(parents, d, n, k); }
    }
    return false;
  }
}
