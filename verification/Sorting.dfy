/** Sorting as Go's `sort` package offers it: a comparator decides the order,
    and only "sorted, and a permutation" is promised. Everything proved about a
    sorted slice in this project uses that contract alone. */
module Sorting {
  import Text

  /** `less` arranges the elements of `s` in one total preorder: it never
      holds both ways round, and "not after" is transitive. */
  ghost predicate Orders<T(!new)>(s: seq<T>, less: (T, T) -> bool)
  {
    && (forall a, b | a in s && b in s :: !(less(a, b) && less(b, a)))
    && (forall a, b, c | a in s && b in s && c in s && !less(b, a) && !less(c, b) :: !less(c, a))
  }

  /** Distinct elements of `s` never compare equal. */
  ghost predicate Separates<T(!new)>(s: seq<T>, less: (T, T) -> bool)
  {
    forall a, b | a in s && b in s && a != b :: less(a, b) || less(b, a)
  }

  ghost predicate SortedBy<T(!new)>(s: seq<T>, less: (T, T) -> bool)
  {
    forall i, j | 0 <= i < j < |s| :: !less(s[j], s[i])
  }

  lemma SameElements<T(!new)>(a: seq<T>, b: seq<T>)
    requires multiset(a) == multiset(b)
    ensures |a| == |b|
    ensures forall x :: x in a <==> x in b
  {
    assert |multiset(a)| == |a| && |multiset(b)| == |b|;
    assert forall x :: x in a <==> x in multiset(a);
    assert forall x :: x in b <==> x in multiset(b);
  }

  function Insert<T(!new)>(x: T, s: seq<T>, less: (T, T) -> bool): (r: seq<T>)
    ensures multiset(r) == multiset(s) + multiset{x}
  {
    if s == [] then [x]
    else if less(s[0], x) then
      assert s == [s[0]] + s[1..];
      [s[0]] + Insert(x, s[1..], less)
    else [x] + s
  }

  lemma {:induction false} InsertSorted<T(!new)>(x: T, s: seq<T>, less: (T, T) -> bool)
    requires Orders([x] + s, less) && SortedBy(s, less)
    ensures SortedBy(Insert(x, s, less), less)
  {
    if s == [] {
    } else if less(s[0], x) {
      var tail := Insert(x, s[1..], less);
      assert forall y | y in [x] + s[1..] :: y in [x] + s;
      InsertSorted(x, s[1..], less);
      forall j | 0 <= j < |tail| ensures !less(tail[j], s[0]) {
        assert tail[j] in multiset(tail);
        assert tail[j] == x || tail[j] in s[1..];
      }
    } else {
      assert x in [x] + s && s[0] in [x] + s;
      forall j | 0 <= j < |s| ensures !less(s[j], x) {
        assert s[j] in [x] + s;
        assert j > 0 ==> !less(s[j], s[0]);
      }
    }
  }

  /** sort.Slice on a copy. */
  function SortBy<T(!new)>(s: seq<T>, less: (T, T) -> bool): (r: seq<T>)
    requires Orders(s, less)
    ensures multiset(r) == multiset(s)
    ensures SortedBy(r, less)
  {
    if s == [] then []
    else
      var tail := SortBy(s[1..], less);
      assert s == [s[0]] + s[1..];
      assert Orders([s[0]] + tail, less) && SortedBy(Insert(s[0], tail, less), less) by {
        SameElements(tail, s[1..]);
        forall x | x in [s[0]] + tail ensures x in s {
          assert x == s[0] || x in tail;
          assert x == s[0] || x in s[1..];
        }
        InsertSorted(s[0], tail, less);
      }
      Insert(s[0], tail, less)
  }

  lemma SortedHead<T(!new)>(a: seq<T>, b: seq<T>, less: (T, T) -> bool)
    requires multiset(a) == multiset(b) && a != []
    requires SortedBy(a, less) && SortedBy(b, less) && Separates(a, less)
    ensures b != [] && a[0] == b[0]
  {
    SameElements(a, b);
    assert a[0] in a && b[0] in b;
    var i :| 0 <= i < |b| && b[i] == a[0];
    var j :| 0 <= j < |a| && a[j] == b[0];
    assert i > 0 ==> !less(b[i], b[0]);
    assert j > 0 ==> !less(a[j], a[0]);
  }

  lemma RemoveHead<T>(s: seq<T>)
    requires s != []
    ensures multiset(s[1..]) == multiset(s) - multiset{s[0]}
  {
    assert s == [s[0]] + s[1..];
  }

  /** A comparator that separates distinct elements leaves only one sorted
      arrangement, so the outcome of a sort does not depend on the input order. */
  lemma {:induction false} SortedUnique<T(!new)>(a: seq<T>, b: seq<T>, less: (T, T) -> bool)
    requires multiset(a) == multiset(b)
    requires SortedBy(a, less) && SortedBy(b, less) && Separates(a, less)
    ensures a == b
  {
    SameElements(a, b);
    if a != [] {
      SortedHead(a, b, less);
      RemoveHead(a);
      RemoveHead(b);
      assert forall x | x in a[1..] :: x in a;
      SortedUnique(a[1..], b[1..], less);
    }
  }

  // ----- sorting by a string key -----

  /** No two positions carry the same key. */
  ghost predicate DistinctKeys<T, K>(s: seq<T>, key: T -> K)
  {
    forall i, j | 0 <= i < j < |s| :: key(s[i]) != key(s[j])
  }

  lemma SameKeySameElement<T, K>(s: seq<T>, key: T -> K, x: T, y: T)
    requires DistinctKeys(s, key) && x in s && y in s && key(x) == key(y)
    ensures x == y
  {
    var i :| 0 <= i < |s| && s[i] == x;
    var j :| 0 <= j < |s| && s[j] == y;
    assert i == j;
  }

  lemma DistinctOnce<T, K>(s: seq<T>, key: T -> K, x: T)
    requires DistinctKeys(s, key) && x in s
    ensures multiset(s)[x] == 1
  {
    var i :| 0 <= i < |s| && s[i] == x;
    assert s == s[..i] + [x] + s[i + 1..];
    assert x !in s[..i] && x !in s[i + 1..];
  }

  lemma Twice<T>(s: seq<T>, i: nat, j: nat)
    requires i < j < |s| && s[i] == s[j]
    ensures multiset(s)[s[i]] >= 2
  {
    assert s == s[..i] + [s[i]] + s[i + 1..j] + [s[j]] + s[j + 1..];
  }

  /** Distinct keys survive any rearrangement. */
  lemma DistinctPermuted<T(!new), K>(a: seq<T>, b: seq<T>, key: T -> K)
    requires multiset(a) == multiset(b) && DistinctKeys(a, key)
    ensures DistinctKeys(b, key)
  {
    SameElements(a, b);
    forall i, j | 0 <= i < j < |b| ensures key(b[i]) != key(b[j]) {
      assert b[i] in a && b[j] in a;
      if key(b[i]) == key(b[j]) {
        SameKeySameElement(a, key, b[i], b[j]);
        Twice(b, i, j);
        DistinctOnce(a, key, b[i]);
      }
    }
  }

  lemma DistinctSnoc<T, K>(front: seq<T>, key: T -> K, x: T)
    requires DistinctKeys(front, key) && forall y | y in front :: key(y) != key(x)
    ensures DistinctKeys(front + [x], key)
  {
  }

  /** An element whose key was met before spoils the whole list. */
  lemma RepeatSpoils<T, K>(s: seq<T>, key: T -> K, k: nat, y: T)
    requires k < |s| && y in s[..k] && key(y) == key(s[k])
    ensures !DistinctKeys(s, key)
  {
    var j :| 0 <= j < k && s[j] == y;
    assert key(s[j]) == key(s[k]);
  }

  /** `seen` holds the keys of `s`, which are all different: what a loop that
      refuses repeats keeps. */
  ghost predicate SeenKeys<T(!new), K(!new)>(seen: set<K>, s: seq<T>, key: T -> K)
  {
    DistinctKeys(s, key) && seen == set x | x in s :: key(x)
  }

  lemma SeenNext<T(!new), K(!new)>(seen: set<K>, s: seq<T>, key: T -> K, k: nat)
    requires k < |s| && SeenKeys(seen, s[..k], key)
    ensures key(s[k]) !in seen ==> SeenKeys(seen + {key(s[k])}, s[..k + 1], key)
    ensures key(s[k]) in seen ==> !DistinctKeys(s, key)
  {
    assert s[..k + 1] == s[..k] + [s[k]];
    if key(s[k]) in seen {
      var y :| y in s[..k] && key(y) == key(s[k]);
      RepeatSpoils(s, key, k, y);
    } else {
      DistinctSnoc(s[..k], key, s[k]);
    }
  }

  lemma SeenAll<T(!new), K(!new)>(seen: set<K>, s: seq<T>, key: T -> K)
    requires SeenKeys(seen, s, key)
    ensures DistinctKeys(s, key)
  {
  }

  function KeyLess<T>(key: T -> string): (T, T) -> bool
  {
    (a, b) => Text.Less(key(a), key(b))
  }

  lemma KeyOrders<T(!new)>(s: seq<T>, key: T -> string)
    ensures Orders(s, KeyLess(key))
  {
    Text.LessIsStrictTotal();
  }

  lemma KeySeparates<T(!new)>(s: seq<T>, key: T -> string)
    requires DistinctKeys(s, key)
    ensures Separates(s, KeyLess(key))
  {
    forall a, b | a in s && b in s && a != b ensures KeyLess(key)(a, b) || KeyLess(key)(b, a) {
      Text.LessTotal(key(a), key(b));
      if key(a) == key(b) { SameKeySameElement(s, key, a, b); }
    }
  }

  function SortByKey<T(!new)>(s: seq<T>, key: T -> string): (r: seq<T>)
    ensures multiset(r) == multiset(s)
    ensures SortedBy(r, KeyLess(key))
  {
    KeyOrders(s, key);
    SortBy(s, KeyLess(key))
  }

  /** With distinct keys a sort by key forgets how its input was arranged. */
  lemma SortByKeyUnique<T(!new)>(a: seq<T>, b: seq<T>, key: T -> string)
    requires multiset(a) == multiset(b) && DistinctKeys(a, key)
    ensures SortByKey(a, key) == SortByKey(b, key)
  {
    DistinctPermuted(a, SortByKey(a, key), key);
    KeySeparates(SortByKey(a, key), key);
    SortedUnique(SortByKey(a, key), SortByKey(b, key), KeyLess(key));
  }

  lemma SortByKeyFixed<T(!new)>(s: seq<T>, key: T -> string)
    requires SortedBy(s, KeyLess(key)) && DistinctKeys(s, key)
    ensures SortByKey(s, key) == s
  {
    KeySeparates(s, key);
    SortedUnique(s, SortByKey(s, key), KeyLess(key));
  }

  // ----- map keys: Go iterates them in an arbitrary order, then sorts -----

  /** Ranging over the keys of a Go map: every key once, in no set order. */
  method RangeKeys<T(==)>(keys: set<T>) returns (r: seq<T>)
    ensures multiset(r) == multiset(keys)
  {
    r := [];
    var rest := keys;
    while rest != {}
      invariant multiset(r) + multiset(rest) == multiset(keys)
    {
      var k :| k in rest;
      rest := rest - {k};
      r := r + [k];
    }
  }

  /** The keys in ascending order. */
  ghost function Ascending(keys: set<string>): (r: seq<string>)
    ensures multiset(r) == multiset(keys)
    ensures SortedBy(r, Text.Less)
  {
    if keys == {} then []
    else
      var k :| k in keys;
      var tail := Ascending(keys - {k});
      InsertSortedString(k, tail);
      Insert(k, tail, Text.Less)
  }

  lemma AscendingListed(keys: set<string>)
    ensures forall x :: x in Ascending(keys) <==> x in keys
  {
    var s := Ascending(keys);
    assert forall x :: x in s <==> x in multiset(s);
  }

  lemma AscendingOnce(keys: set<string>)
    ensures forall i, j | 0 <= i < j < |Ascending(keys)| :: Ascending(keys)[i] != Ascending(keys)[j]
  {
    var s := Ascending(keys);
    forall i, j | 0 <= i < j < |s| ensures s[i] != s[j] {
      if s[i] == s[j] { Twice(s, i, j); }
    }
  }

  lemma StringOrder(s: seq<string>)
    ensures Orders(s, Text.Less) && Separates(s, Text.Less)
  {
    Text.LessIsStrictTotal();
  }

  lemma InsertSortedString(k: string, tail: seq<string>)
    requires SortedBy(tail, Text.Less)
    ensures SortedBy(Insert(k, tail, Text.Less), Text.Less)
  {
    StringOrder([k] + tail);
    InsertSorted(k, tail, Text.Less);
  }

  /** sort.Strings over the keys of a map. */
  method SortedKeys(keys: set<string>) returns (r: seq<string>)
    ensures r == Ascending(keys)
  {
    var unsorted := RangeKeys(keys);
    StringOrder(unsorted);
    r := SortBy(unsorted, Text.Less);
    StringOrder(r);
    SortedUnique(r, Ascending(keys), Text.Less);
  }
}
