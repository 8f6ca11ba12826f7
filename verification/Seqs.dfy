/** Small facts about slices. */
module Seqs {
  import opened Options
  import Sorting

  /** Applies `f` to every element, in place order. */
  function Map<A, B>(f: A -> B, s: seq<A>): (r: seq<B>)
    ensures |r| == |s|
    ensures forall i | 0 <= i < |s| :: r[i] == f(s[i])
  {
    seq(|s|, i requires 0 <= i < |s| => f(s[i]))
  }

  function Without<A>(s: seq<A>, k: nat): seq<A>
    requires k < |s|
  {
    s[..k] + s[k + 1..]
  }

  lemma WithoutOne<A>(s: seq<A>, k: nat)
    requires k < |s|
    ensures multiset(s) == multiset(Without(s, k)) + multiset{s[k]}
    ensures multiset(Without(s, k)) == multiset(s) - multiset{s[k]}
  {
    assert s == s[..k] + [s[k]] + s[k + 1..];
  }

  lemma MapWithoutOne<A, B>(f: A -> B, s: seq<A>, k: nat)
    requires k < |s|
    ensures multiset(Map(f, s)) == multiset(Map(f, Without(s, k))) + multiset{f(s[k])}
  {
    WithoutOne(Map(f, s), k);
    assert Map(f, Without(s, k)) == Without(Map(f, s), k);
  }

  lemma Occurs<A>(s: seq<A>, x: A) returns (k: nat)
    requires x in multiset(s)
    ensures k < |s| && s[k] == x
  {
    assert x in s;
    k :| 0 <= k < |s| && s[k] == x;
  }

  /** A rearrangement of the input rearranges the image. */
  lemma {:induction false} MapPermuted<A, B>(f: A -> B, a: seq<A>, b: seq<A>)
    requires multiset(a) == multiset(b)
    ensures multiset(Map(f, a)) == multiset(Map(f, b))
  {
    if a == [] {
      assert |multiset(b)| == |b|;
    } else {
      WithoutOne(a, 0);
      var k := Occurs(b, a[0]);
      WithoutOne(b, k);
      assert multiset(Without(a, 0)) == multiset(Without(b, k));
      MapPermuted(f, Without(a, 0), Without(b, k));
      MapWithoutOne(f, a, 0);
      MapWithoutOne(f, b, k);
    }
  }

  lemma MapFixed<A>(f: A -> A, s: seq<A>)
    requires forall x | x in s :: f(x) == x
    ensures Map(f, s) == s
  {
  }

  /** What `pick` finds in the elements of `s`, in place order. */
  function Collect<A, B>(pick: A -> Option<B>, s: seq<A>): seq<B>
  {
    if s == [] then []
    else
      var front, last := s[..|s| - 1], s[|s| - 1];
      Collect(pick, front) + if pick(last).Some? then [pick(last).value] else []
  }

  lemma {:induction false} Collected<A, B>(pick: A -> Option<B>, s: seq<A>)
    ensures forall x | x in s && pick(x).Some? :: pick(x).value in Collect(pick, s)
    ensures forall y | y in Collect(pick, s) :: exists x | x in s :: pick(x) == Some(y)
  {
    if s != [] {
      var front, last := s[..|s| - 1], s[|s| - 1];
      assert s == front + [last];
      Collected(pick, front);
      forall y | y in Collect(pick, s) ensures exists x | x in s :: pick(x) == Some(y) {
        if y in Collect(pick, front) {
          var x :| x in front && pick(x) == Some(y);
          assert x in s;
        } else {
          assert last in s && pick(last) == Some(y);
        }
      }
    }
  }

  lemma CollectSnoc<A, B>(pick: A -> Option<B>, s: seq<A>, i: nat)
    requires i < |s|
    ensures Collect(pick, s[..i + 1]) == Collect(pick, s[..i]) + if pick(s[i]).Some? then [pick(s[i]).value] else []
  {
    assert s[..i + 1][..i] == s[..i];
  }

  lemma {:induction false} CollectJoins<A, B>(pick: A -> Option<B>, a: seq<A>, b: seq<A>)
    ensures Collect(pick, a + b) == Collect(pick, a) + Collect(pick, b)
  {
    if b == [] {
      assert a + b == a;
    } else {
      var n := |b| - 1;
      assert (a + b)[..|a| + n] == a + b[..n];
      CollectJoins(pick, a, b[..n]);
    }
  }

  lemma CollectWithoutOne<A, B>(pick: A -> Option<B>, s: seq<A>, k: nat)
    requires k < |s|
    ensures multiset(Collect(pick, s)) ==
            multiset(Collect(pick, Without(s, k))) + if pick(s[k]).Some? then multiset{pick(s[k]).value} else multiset{}
  {
    hide Collect;
    assert s == s[..k] + [s[k]] + s[k + 1..];
    CollectMiddle(pick, s[..k], s[k], s[k + 1..]);
  }

  lemma CollectMiddle<A, B>(pick: A -> Option<B>, before: seq<A>, x: A, after: seq<A>)
    ensures multiset(Collect(pick, before + [x] + after)) ==
            multiset(Collect(pick, before + after)) + if pick(x).Some? then multiset{pick(x).value} else multiset{}
  {
    hide Collect;
    CollectOne(pick, x);
    CollectJoins(pick, before + [x], after);
    CollectJoins(pick, before, [x]);
    CollectJoins(pick, before, after);
    Middle(Collect(pick, before), Collect(pick, [x]), Collect(pick, after));
  }

  lemma CollectOne<A, B>(pick: A -> Option<B>, x: A)
    ensures Collect(pick, [x]) == if pick(x).Some? then [pick(x).value] else []
  {
    assert [x][..0] == [];
  }

  lemma Middle<A>(a: seq<A>, m: seq<A>, b: seq<A>)
    ensures multiset(a + m + b) == multiset(a + b) + multiset(m)
  {
  }

  /** A rearrangement of the input rearranges what is collected. */
  lemma {:induction false} CollectPermuted<A, B>(pick: A -> Option<B>, a: seq<A>, b: seq<A>)
    requires multiset(a) == multiset(b)
    ensures multiset(Collect(pick, a)) == multiset(Collect(pick, b))
  {
    if a == [] {
      assert |multiset(b)| == |b|;
    } else {
      WithoutOne(a, 0);
      var k := Occurs(b, a[0]);
      WithoutOne(b, k);
      CollectPermuted(pick, Without(a, 0), Without(b, k));
      CollectWithoutOne(pick, a, 0);
      CollectWithoutOne(pick, b, k);
    }
  }

  /** Collecting keeps keys apart that were apart. */
  lemma {:induction false} CollectDistinct<A(!new), B(!new), K(!new)>(pick: A -> Option<B>, s: seq<A>, keyIn: A -> K, keyOut: B -> K)
    requires Sorting.DistinctKeys(s, keyIn)
    requires forall x | x in s && pick(x).Some? :: keyOut(pick(x).value) == keyIn(x)
    ensures Sorting.DistinctKeys(Collect(pick, s), keyOut)
  {
    if s != [] {
      var front, last := s[..|s| - 1], s[|s| - 1];
      assert s == front + [last] && last in s;
      CollectDistinct(pick, front, keyIn, keyOut);
      CollectSnoc(pick, s, |s| - 1);
      assert s[..|s| - 1 + 1] == s;
      if pick(last).Some? {
        Collected(pick, front);
        hide Collect;
        forall y | y in Collect(pick, front) ensures keyOut(y) != keyOut(pick(last).value) {
          var x :| x in front && pick(x) == Some(y);
        }
        Sorting.DistinctSnoc(Collect(pick, front), keyOut, pick(last).value);
      }
    }
  }

  /** A subset is no larger, and as large only when it is everything. */
  lemma {:induction false} SubsetCount<A>(a: set<A>, b: set<A>)
    requires a <= b
    ensures |a| <= |b|
    ensures |a| == |b| ==> a == b
  {
    if a != {} {
      var x :| x in a;
      SubsetCount(a - {x}, b - {x});
    }
  }
}
