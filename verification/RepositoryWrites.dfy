/** What the object repository stores, said of requests and stored versions
    alone (internal/corecontracts/objects.go, PrepareMutation, and
    memory_repository.go, Apply). */
module RepositoryWrites {
  import opened Metadata
  import opened Mutations
  import opened Objects
  import opened Options
  import opened Repository
  import opened RepositoryHistory
  import opened RepositoryRuns
  import Text

  // ----- one version and the next -----

  /** The version holds what the call asked for, stamped with what the call brought. */
  predicate Carries(o: StoredObject, c: Call)
  {
    && o.objectType == c.request.objectType && o.document == c.request.document
    && o.metadata.objectID == c.request.objectID && o.metadata.scopeID == c.request.scopeID
    && o.metadata.ownerScope == c.request.ownerScope
    && Some(o.metadata.resourceVersion) == c.version && o.metadata.updatedAt == c.now
  }

  /** Two versions that say different things. */
  predicate Differ(a: StoredObject, b: StoredObject)
  {
    a.document != b.document || a.metadata.scopeID != b.metadata.scopeID || a.metadata.ownerScope != b.metadata.ownerScope
  }

  /** A version follows another: born at the same time, no older, under another
      token; the generation rises exactly when they differ, and observations,
      whose generation never rises, stay where they are. */
  predicate Follows(was: StoredObject, o: StoredObject)
  {
    && o.metadata.objectID == was.metadata.objectID && o.objectType == was.objectType
    && o.metadata.createdAt == was.metadata.createdAt && was.metadata.updatedAt <= o.metadata.updatedAt
    && o.metadata.resourceVersion != was.metadata.resourceVersion
    && (if o.objectType.ActualObject? then
          && o.metadata.generation == was.metadata.generation
          && o.metadata.scopeID == was.metadata.scopeID && o.metadata.ownerScope == was.metadata.ownerScope
        else
          o.metadata.generation as int == was.metadata.generation + if Differ(was, o) then 1 else 0)
  }

  predicate IsFirst(o: StoredObject)
  {
    o.metadata.generation == 1 && o.metadata.createdAt == o.metadata.updatedAt
  }

  /** The guard names the version it replaces. */
  predicate Names(p: Precondition, was: StoredObject)
  {
    && p.objectID == was.metadata.objectID && p.resourceVersion == was.metadata.resourceVersion
    && (p.generation.Some? ==> p.generation.value == was.metadata.generation)
  }

  // ----- what a write stores -----

  lemma FirstIs(request: MutationRequest, now: Time, version: string)
    ensures var o := FirstVersion(request, now, version);
            IsFirst(o) && Carries(o, Call(false, request, "", now, Some(version)))
  {
  }

  lemma NextIs(was: StoredObject, request: MutationRequest, snapshot: seq<StoredObject>, now: Time, version: string)
    requires CheckReplace(was, request, snapshot, now, version).None?
    ensures var o := NextVersion(was, request, now, version);
            Follows(was, o) && Carries(o, Call(false, request, "", now, Some(version)))
    ensures request.precondition.Some? && Names(request.precondition.value, was)
  {
    hide CheckReplace;
    hide CheckTypedSuccessor;
    hide CheckPrecondition;
    hide Valid;
    hide Names;
    ReplaceChecked(was, request, snapshot, now, version);
    GuardNames(request.precondition.value, was);
  }

  lemma GuardNames(p: Precondition, was: StoredObject)
    requires CheckPrecondition(p, was.metadata).None?
    ensures Names(p, was)
  {
    hide Valid;
    hide IsIdentifier;
    hide Text.IsOpaqueToken;
  }

  /** What happens to the object a write names. */
  ghost predicate Stored(s: Store, c: Call, o: StoredObject)
  {
    && Carries(o, c)
    && (if c.request.objectID in s.objects then
          && c.request.operation.Replace? && Follows(s.objects[c.request.objectID], o)
          && c.request.precondition.Some? && Names(c.request.precondition.value, s.objects[c.request.objectID])
        else c.request.operation.Create? && c.request.precondition.None? && IsFirst(o))
  }

  lemma PreparedIs(s: Store, c: Call)
    requires Writes(s, c)
    ensures Stored(s, c, Answer(s, c).value)
  {
    WriteIsWellFormed(s, c);
    var id, version := c.request.objectID, c.version.value;
    FirstIs(c.request, c.now, version);
    if id in s.objects && CheckReplace(s.objects[id], c.request, Ordered(s.objects), c.now, version).None? {
      NextIs(s.objects[id], c.request, Ordered(s.objects), c.now, version);
    }
    hide Answer;
    hide Ordered;
    hide CheckReplace;
    hide FirstVersion;
    hide NextVersion;
    hide SnapshotOk;
    hide Candidate;
    hide Follows;
    hide Names;
    hide IsFirst;
  }

  /** A write stores the requested document under the requested identifier, type,
      scope and owner, with the version and time of the call; it is the object's
      first version, or it follows the stored one, which the guard names. The
      same object is the answer and the receipt, and no other object is touched. */
  lemma WriteStores(s: Store, c: Call)
    requires Writes(s, c)
    ensures var id, now := c.request.objectID, After(s, c);
            && id in now.objects && Stored(s, c, now.objects[id]) && Answer(s, c) == Ok(now.objects[id])
            && now.receipts == s.receipts[c.key := Receipt(Sha256Of(c.request), now.objects[id])]
            && now.objects.Keys == s.objects.Keys + {id}
            && forall other | other in s.objects && other != id :: now.objects[other] == s.objects[other]
  {
    hide Answer;
    hide Stored;
    PreparedIs(s, c);
    StoredUnder(s, c, Answer(s, c).value);
  }

  lemma StoredUnder(s: Store, c: Call, o: StoredObject)
    requires Stored(s, c, o)
    ensures ObjectID(o) == c.request.objectID
  {
  }

  // ----- over a run -----

  ghost predicate WroteAt(s: Store, calls: seq<Call>, id: string, k: nat)
  {
    k < |calls| && Writes(Run(s, calls[..k]), calls[k]) && calls[k].request.objectID == id
  }

  ghost predicate LastWroteAt(s: Store, calls: seq<Call>, id: string, k: nat)
  {
    WroteAt(s, calls, id, k) && forall j: nat | k < j :: !WroteAt(s, calls, id, j)
  }

  lemma WroteEarlier(s: Store, calls: seq<Call>, n: nat, id: string, k: nat)
    requires n <= |calls|
    ensures WroteAt(s, calls[..n], id, k) <==> k < n && WroteAt(s, calls, id, k)
  {
    if k < n { assert calls[..n][..k] == calls[..k] && calls[..n][k] == calls[k]; }
  }

  lemma LastIs(s: Store, calls: seq<Call>, id: string)
    requires calls != [] && WroteAt(s, calls, id, |calls| - 1)
    ensures LastWroteAt(s, calls, id, |calls| - 1)
  {
  }

  lemma LastStays(s: Store, calls: seq<Call>, id: string, k: nat)
    requires calls != [] && !WroteAt(s, calls, id, |calls| - 1) && LastWroteAt(s, calls[..|calls| - 1], id, k)
    ensures LastWroteAt(s, calls, id, k)
  {
    var n := |calls| - 1;
    WroteEarlier(s, calls, n, id, k);
    forall j: nat | k < j ensures !WroteAt(s, calls, id, j) {
      WroteEarlier(s, calls, n, id, j);
      hide WroteAt;
      if j >= n { NotPast(s, calls, id, j); }
    }
  }

  lemma NotPast(s: Store, calls: seq<Call>, id: string, j: nat)
    requires calls != [] && j >= |calls| - 1 && !WroteAt(s, calls, id, |calls| - 1)
    ensures !WroteAt(s, calls, id, j)
  {
  }

  lemma StepKeeps(s: Store, c: Call, id: string)
    requires !(Writes(s, c) && c.request.objectID == id)
    ensures id in After(s, c).objects <==> id in s.objects
    ensures id in s.objects ==> After(s, c).objects[id] == s.objects[id]
  {
    hide Answer;
    if Writes(s, c) { WriteStores(s, c); }
  }

  lemma LastStep(s: Store, calls: seq<Call>, id: string)
    requires calls != []
    ensures var n := |calls| - 1;
            if WroteAt(s, calls, id, n) then
              id in Run(s, calls).objects && Carries(Run(s, calls).objects[id], calls[n])
            else
              var before := Run(s, calls[..n]);
              && (id in Run(s, calls).objects <==> id in before.objects)
              && (id in before.objects ==> Run(s, calls).objects[id] == before.objects[id])
  {
    var n := |calls| - 1;
    var before := Run(s, calls[..n]);
    assert Run(s, calls) == After(before, calls[n]);
    hide After;
    hide Writes;
    hide Run;
    if WroteAt(s, calls, id, n) {
      WriteStores(before, calls[n]);
    } else {
      StepKeeps(before, calls[n], id);
    }
    hide Carries;
  }

  /** An object is the one of the start if no call wrote it, and otherwise holds
      what the last call that wrote it asked for. */
  lemma {:induction false} LastWriteWins(s: Store, calls: seq<Call>, id: string)
    ensures (exists k: nat :: WroteAt(s, calls, id, k)) ==>
              exists k: nat :: LastWroteAt(s, calls, id, k) && id in Run(s, calls).objects &&
                               Carries(Run(s, calls).objects[id], calls[k])
    ensures (forall k: nat :: !WroteAt(s, calls, id, k)) ==>
              && (id in Run(s, calls).objects <==> id in s.objects)
              && (id in s.objects ==> Run(s, calls).objects[id] == s.objects[id])
  {
    if calls == [] {
    } else {
      var n := |calls| - 1;
      LastStep(s, calls, id);
      if WroteAt(s, calls, id, n) {
        LastIs(s, calls, id);
      } else {
        LastWriteWins(s, calls[..n], id);
        forall k: nat ensures WroteAt(s, calls[..n], id, k) <==> WroteAt(s, calls, id, k) {
          WroteEarlier(s, calls, n, id, k);
          if k >= n { NotPast(s, calls, id, k); }
        }
        hide WroteAt;
        hide Run;
        if k: nat :| LastWroteAt(s, calls[..n], id, k) && id in Run(s, calls[..n]).objects &&
                     Carries(Run(s, calls[..n]).objects[id], calls[..n][k]) {
          LastStays(s, calls, id, k);
        }
      }
    }
  }

  // ----- generations -----

  /** How often the run changed what the object says, read off the stored versions. */
  ghost function TimesChanged(s: Store, calls: seq<Call>, id: string): nat
  {
    if calls == [] then 0
    else
      var n := |calls| - 1;
      var before, after := Run(s, calls[..n]).objects, Run(s, calls).objects;
      TimesChanged(s, calls[..n], id) +
      if id in before && id in after && !after[id].objectType.ActualObject? && Differ(before[id], after[id]) then 1 else 0
  }

  /** From one state to the next an object is left alone, is created or is followed. */
  lemma StepFollows(s: Store, c: Call, id: string)
    requires id in After(s, c).objects
    ensures var now := After(s, c).objects[id];
            if id in s.objects then now == s.objects[id] || Follows(s.objects[id], now) else IsFirst(now)
  {
    hide Answer;
    hide After;
    hide Follows;
    hide IsFirst;
    hide Carries;
    hide Names;
    if Writes(s, c) && c.request.objectID == id {
      WriteStores(s, c);
    } else {
      StepKeeps(s, c, id);
    }
  }

  lemma FollowsRaises(was: StoredObject, o: StoredObject)
    requires was == o || Follows(was, o)
    ensures o.metadata.generation as int == was.metadata.generation +
            if !o.objectType.ActualObject? && Differ(was, o) then 1 else 0
  {
  }

  lemma {:induction false} NeverLost(s: Store, calls: seq<Call>, id: string)
    requires id in s.objects
    ensures id in Run(s, calls).objects
  {
    if calls != [] {
      NeverLost(s, calls[..|calls| - 1], id);
      LastStep(s, calls, id);
    }
  }

  /** Over any run the generation of an object is that of its first version plus
      one for every change of what it says. */
  lemma {:induction false} GenerationCountsChanges(s: Store, calls: seq<Call>, id: string)
    requires id in Run(s, calls).objects
    ensures Run(s, calls).objects[id].metadata.generation as int ==
            (if id in s.objects then s.objects[id].metadata.generation else 1) + TimesChanged(s, calls, id)
  {
    hide After;
    hide Differ;
    hide Follows;
    if calls != [] {
      var n := |calls| - 1;
      var before := Run(s, calls[..n]);
      StepFollows(before, calls[n], id);
      if id in before.objects {
        GenerationCountsChanges(s, calls[..n], id);
        FollowsRaises(before.objects[id], Run(s, calls).objects[id]);
      } else {
        NothingChanged(s, calls[..n], id);
        if id in s.objects { NeverLost(s, calls[..n], id); }
      }
    }
  }

  lemma {:induction false} NothingChanged(s: Store, calls: seq<Call>, id: string)
    requires id !in Run(s, calls).objects
    ensures TimesChanged(s, calls, id) == 0
  {
    hide After;
    hide Differ;
    if calls != [] {
      var n := |calls| - 1;
      assert Run(s, calls) == Run(Run(s, calls[..n]), [calls[n]]);
      if id in Run(s, calls[..n]).objects { NeverLost(Run(s, calls[..n]), [calls[n]], id); }
      NothingChanged(s, calls[..n], id);
    }
  }
}
