/** What every run of the object repository keeps
    (internal/corecontracts/memory_repository.go). */
module RepositoryRuns {
  import opened Metadata
  import opened Mutations
  import opened Network
  import opened Objects
  import opened Options
  import opened Repository
  import opened Roles
  import opened Topology
  import Seqs
  import Sorting

  // ----- a map of objects and its listings -----

  /** The ordered listing indexes back to the map it lists. */
  lemma OrderedIndexes(objects: map<string, StoredObject>)
    requires Keyed(objects)
    ensures IndexOf(objects, Ordered(objects), ObjectID) && Sorting.DistinctKeys(Ordered(objects), ObjectID)
  {
    Known(objects);
    var ids := Sorting.Ascending(objects.Keys);
    Sorting.AscendingOnce(objects.Keys);
    ListingIndexes(objects, ids);
    hide IndexOf;
    hide Listing;
  }

  lemma ListingIndexes(objects: map<string, StoredObject>, ids: seq<string>)
    requires Keyed(objects) && (forall id :: id in ids <==> id in objects)
    requires forall i, j | 0 <= i < j < |ids| :: ids[i] != ids[j]
    ensures IndexOf(objects, Listing(objects, ids), ObjectID)
    ensures Sorting.DistinctKeys(Listing(objects, ids), ObjectID)
  {
    var listing := Listing(objects, ids);
    forall id | id in objects ensures objects[id] in listing {
      assert id in ids;
      var k :| 0 <= k < |ids| && ids[k] == id;
      assert listing[k] == objects[id];
    }
  }

  /** Two listings of one map are rearrangements of each other. */
  lemma ListingsAgree(objects: map<string, StoredObject>, a: seq<StoredObject>, b: seq<StoredObject>)
    requires IndexOf(objects, a, ObjectID) && Sorting.DistinctKeys(a, ObjectID)
    requires IndexOf(objects, b, ObjectID) && Sorting.DistinctKeys(b, ObjectID)
    ensures multiset(a) == multiset(b)
  {
    forall o ensures multiset(a)[o] == multiset(b)[o] {
      if o in a {
        assert o in b;
        Sorting.DistinctOnce(a, ObjectID, o);
        Sorting.DistinctOnce(b, ObjectID, o);
      } else {
        assert o !in b;
      }
    }
  }

  lemma {:induction false} FilledIndexes(initial: seq<StoredObject>)
    requires Sorting.DistinctKeys(initial, ObjectID)
    ensures IndexOf(Filled(initial), initial, ObjectID)
  {
    if initial != [] {
      var front, last := initial[..|initial| - 1], initial[|initial| - 1];
      assert initial == front + [last];
      FilledIndexes(front);
      forall o | o in front ensures ObjectID(o) != ObjectID(last) {}
    }
  }

  lemma CandidateIndexes(objects: map<string, StoredObject>, listing: seq<StoredObject>, next: StoredObject)
    requires IndexOf(objects, listing, ObjectID)
    ensures IndexOf(objects[ObjectID(next) := next], Candidate(listing, next), ObjectID)
  {
    var id := ObjectID(next);
    var pick := (o: StoredObject) => if ObjectID(o) == id then None else Some(o);
    Seqs.Collected(pick, listing);
    OthersAre(listing, id);
    forall o | o in Others(listing, id) ensures o in listing && ObjectID(o) != id {
      var x :| x in listing && pick(x) == Some(o);
    }
    forall o | o in listing && ObjectID(o) != id ensures o in Others(listing, id) {
      assert pick(o) == Some(o);
    }
  }

  // ----- the invariant -----

  /** Every object sits under its own identifier, and all of them together pass
      complete validation. */
  ghost predicate Consistent(s: Store)
  {
    Keyed(s.objects) && SnapshotOk(Ordered(s.objects))
  }

  lemma SnapshotDistinct(objects: seq<StoredObject>)
    requires SnapshotOk(objects)
    ensures Sorting.DistinctKeys(objects, ObjectID)
  {
  }

  lemma StartConsistent(initial: seq<StoredObject>)
    requires SnapshotOk(initial)
    ensures Consistent(Store(Filled(initial), map[]))
  {
    SnapshotDistinct(initial);
    hide SnapshotOk;
    FilledIndexes(initial);
    assert Keyed(Filled(initial));
    OrderedIndexes(Filled(initial));
    ListingsAgree(Filled(initial), initial, Ordered(Filled(initial)));
    SnapshotPermuted(initial, Ordered(Filled(initial)));
  }

  /** What a write stores: the candidate snapshot it belongs to was validated. */
  lemma WriteSettles(s: Store, c: Call)
    requires Writes(s, c)
    ensures SnapshotOk(Candidate(Ordered(s.objects), Answer(s, c).value))
    ensures ObjectID(Answer(s, c).value) == c.request.objectID
  {
    hide Ordered;
    hide SnapshotOk;
    hide CheckReplace;
    hide Candidate;
  }

  lemma StepConsistent(s: Store, c: Call)
    requires Consistent(s)
    ensures Consistent(After(s, c))
  {
    hide Answer;
    hide SnapshotOk;
    hide Ordered;
    hide Candidate;
    hide IndexOf;
    if Writes(s, c) {
      WriteSettles(s, c);
      var next := Answer(s, c).value;
      var objects := After(s, c).objects;
      var candidate := Candidate(Ordered(s.objects), next);
      OrderedIndexes(s.objects);
      CandidateIndexes(s.objects, Ordered(s.objects), next);
      SnapshotDistinct(candidate);
      OrderedIndexes(objects);
      ListingsAgree(objects, candidate, Ordered(objects));
      SnapshotPermuted(candidate, Ordered(objects));
    }
  }

  // ----- runs -----

  ghost function Run(s: Store, calls: seq<Call>): Store
  {
    if calls == [] then s else After(Run(s, calls[..|calls| - 1]), calls[|calls| - 1])
  }

  lemma RunStep(s: Store, calls: seq<Call>, k: nat)
    requires k < |calls|
    ensures Run(s, calls[..k + 1]) == After(Run(s, calls[..k]), calls[k])
  {
    assert calls[..k + 1][..k] == calls[..k];
  }

  lemma {:induction false} RunConsistent(s: Store, calls: seq<Call>)
    requires Consistent(s)
    ensures Consistent(Run(s, calls))
  {
    if calls != [] {
      RunConsistent(s, calls[..|calls| - 1]);
      StepConsistent(Run(s, calls[..|calls| - 1]), calls[|calls| - 1]);
    }
  }

  /** Every reachable state passes complete validation, in any object order. */
  lemma ReachableValid(initial: seq<StoredObject>, calls: seq<Call>, listing: seq<StoredObject>)
    requires SnapshotOk(initial)
    requires multiset(listing) == multiset(Ordered(Run(Store(Filled(initial), map[]), calls).objects))
    ensures SnapshotOk(listing)
  {
    hide SnapshotOk;
    StartConsistent(initial);
    RunConsistent(Store(Filled(initial), map[]), calls);
    SnapshotPermuted(Ordered(Run(Store(Filled(initial), map[]), calls).objects), listing);
  }
}
