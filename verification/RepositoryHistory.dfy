/** Histories of the object repository: receipts, versions, and the life of one
    object over any run (internal/corecontracts/memory_repository.go). */
module RepositoryHistory {
  import opened Metadata
  import opened Mutations
  import opened Objects
  import opened Options
  import opened Repository
  import opened RepositoryRuns
  import opened Roles
  import opened Topology
  import Text

  lemma {:induction false} RunJoins(s: Store, a: seq<Call>, b: seq<Call>)
    ensures Run(s, a + b) == Run(Run(s, a), b)
  {
    hide After;
    if b == [] {
      assert a + b == a;
    } else {
      var n := |b| - 1;
      assert (a + b)[..|a| + n] == a + b[..n];
      RunJoins(s, a, b[..n]);
    }
  }

  /** The calls of the run that write. */
  ghost function Written(s: Store, calls: seq<Call>): seq<Call>
  {
    if calls == [] then []
    else
      var n := |calls| - 1;
      Written(s, calls[..n]) + if Writes(Run(s, calls[..n]), calls[n]) then [calls[n]] else []
  }

  /** Refused calls and replays leave no trace: the store is a function of the
      writes alone. */
  lemma {:induction false} OnlyWritesCount(s: Store, calls: seq<Call>)
    ensures Run(s, Written(s, calls)) == Run(s, calls)
  {
    hide Answer;
    if calls != [] {
      var n := |calls| - 1;
      OnlyWritesCount(s, calls[..n]);
      var front := Written(s, calls[..n]);
      assert (front + [calls[n]])[..|front|] == front && front + [] == front;
    }
  }

  // ----- receipts -----

  lemma {:induction false} ReceiptsStay(s: Store, calls: seq<Call>, key: string)
    requires key in s.receipts
    ensures key in Run(s, calls).receipts && Run(s, calls).receipts[key] == s.receipts[key]
  {
    hide Answer;
    if calls != [] { ReceiptsStay(s, calls[..|calls| - 1], key); }
  }

  lemma WriteLeavesReceipt(s: Store, c: Call)
    requires Writes(s, c)
    ensures c.key in After(s, c).receipts
    ensures After(s, c).receipts[c.key] == Receipt(Sha256Of(c.request), Answer(s, c).value)
  {
    hide Answer;
  }

  lemma ReceiptDecides(s: Store, c: Call)
    requires c.key in s.receipts && Text.IsOpaqueToken(c.key) && !c.canceled && !c.request.document.content.Malformed?
    ensures Answer(s, c) == if s.receipts[c.key].fingerprint == Sha256Of(c.request) then Ok(s.receipts[c.key].result)
                            else Err(IdempotencyConflict)
    ensures After(s, c) == s
  {
    hide Prepare;
    hide Ordered;
  }

  lemma WriteIsWellFormed(s: Store, c: Call)
    requires Writes(s, c)
    ensures !c.canceled && Text.IsOpaqueToken(c.key) && !c.request.document.content.Malformed? && c.version.Some?
    ensures Answer(s, c) == Prepare(Current(s, c.request.objectID), c.request, Ordered(s.objects), c.now, c.version.value)
  {
    hide Prepare;
    hide Ordered;
  }

  /** Whatever happened since, repeating a request under its key returns the
      first result and changes nothing, and the key serves no other request. */
  lemma ReplayReturnsFirst(s: Store, c: Call, later: seq<Call>, again: Call)
    requires Writes(s, c) && again.key == c.key && !again.canceled && !again.request.document.content.Malformed?
    ensures var now := Run(After(s, c), later);
            && Answer(now, again) == (if again.request == c.request then Answer(s, c) else Err(IdempotencyConflict))
            && After(now, again) == now
  {
    WriteIsWellFormed(s, c);
    WriteLeavesReceipt(s, c);
    hide After;
    hide Answer;
    ReceiptsStay(After(s, c), later, c.key);
    ReceiptDecides(Run(After(s, c), later), again);
  }

  /** A receipt is traced back to the call that wrote it. */
  lemma {:induction false} ReceiptOrigin(start: Store, calls: seq<Call>, key: string) returns (k: nat)
    requires start.receipts == map[] && key in Run(start, calls).receipts
    ensures k < |calls| && calls[k].key == key && Writes(Run(start, calls[..k]), calls[k])
    ensures Run(start, calls).receipts[key] ==
            Receipt(Sha256Of(calls[k].request), Answer(Run(start, calls[..k]), calls[k]).value)
  {
    hide Answer;
    var n := |calls| - 1;
    var before := Run(start, calls[..n]);
    if key in before.receipts && !(Writes(before, calls[n]) && calls[n].key == key) {
      k := ReceiptOrigin(start, calls[..n], key);
      assert calls[..n][..k] == calls[..k];
    } else {
      k := n;
    }
  }

  /** Every success, replayed or not, is one write earlier in the run or here. */
  lemma SuccessOrigin(start: Store, calls: seq<Call>, i: nat) returns (k: nat)
    requires start.receipts == map[] && i < |calls| && Answer(Run(start, calls[..i]), calls[i]).Ok?
    ensures k <= i && Writes(Run(start, calls[..k]), calls[k])
    ensures calls[k].key == calls[i].key && calls[k].request == calls[i].request
    ensures Answer(Run(start, calls[..k]), calls[k]) == Answer(Run(start, calls[..i]), calls[i])
  {
    var now := Run(start, calls[..i]);
    if calls[i].key in now.receipts {
      k := ReceiptOrigin(start, calls[..i], calls[i].key);
      assert calls[..i][..k] == calls[..k];
      AnswersFromReceipt(now, calls[i]);
      hide Answer;
      hide Run;
    } else {
      k := i;
    }
  }

  lemma AnswersFromReceipt(s: Store, c: Call)
    requires Answer(s, c).Ok? && c.key in s.receipts
    ensures s.receipts[c.key] == Receipt(Sha256Of(c.request), Answer(s, c).value)
  {
    hide Prepare;
    hide Ordered;
  }

  // ----- one write -----

  /** The call writes a new version of an object that is already stored. */
  ghost predicate Rewrites(s: Store, c: Call, id: string)
  {
    Writes(s, c) && c.request.objectID == id && id in s.objects
  }

  /** A rewrite is a replace whose guard, succession and typed checks all hold. */
  lemma RewriteChecked(s: Store, c: Call, id: string)
    requires Rewrites(s, c, id)
    ensures c.request.operation.Replace? && c.version.Some?
    ensures Answer(s, c) == Ok(NextVersion(s.objects[id], c.request, c.now, c.version.value))
    ensures CheckReplace(s.objects[id], c.request, Ordered(s.objects), c.now, c.version.value).None?
  {
    WriteIsWellFormed(s, c);
    hide Answer;
    hide Ordered;
    hide CheckReplace;
    hide NextVersion;
    hide SnapshotOk;
  }

  lemma ReplaceChecked(current: StoredObject, request: MutationRequest, snapshot: seq<StoredObject>, now: Time,
                       version: string)
    requires CheckReplace(current, request, snapshot, now, version).None?
    ensures var next := NextVersion(current, request, now, version);
            && request.precondition.Some? && CheckPrecondition(request.precondition.value, current.metadata).None?
            && next.objectType == current.objectType && CheckTypedSuccessor(current, next, snapshot).None?
            && Succeeds(current.metadata, next.metadata, DesiredChanged(current, request))
  {
    hide CheckPrecondition;
    hide CheckTypedSuccessor;
    hide Succeeds;
    hide DesiredChanged;
  }

  /** A role assignment keeps its role and its service identity. */
  predicate KeepsRole(before: Content, after: Content)
  {
    match (before, after)
    case (RoleContent(a), RoleContent(b)) => a.role == b.role && a.serviceIdentityID == b.serviceIdentityID
    case _ => true
  }

  /** What every later version of an object shares with an earlier one. */
  ghost predicate Evolves(before: StoredObject, after: StoredObject)
  {
    && ObjectID(after) == ObjectID(before) && after.objectType == before.objectType
    && after.metadata.createdAt == before.metadata.createdAt && before.metadata.updatedAt <= after.metadata.updatedAt
    && Decodes(before) && Decodes(after)
    && KeepsIdentity(before.document.content, after.document.content)
    && KeepsRole(before.document.content, after.document.content)
  }

  lemma EvolvesTransitive(a: StoredObject, b: StoredObject, c: StoredObject)
    requires Evolves(a, b) && Evolves(b, c)
    ensures Evolves(a, c)
  {
  }

  lemma EvolvesReflexive(o: StoredObject)
    requires Decodes(o)
    ensures Evolves(o, o)
  {
  }

  lemma SnapshotDecodes(objects: seq<StoredObject>, o: StoredObject)
    requires SnapshotOk(objects) && o in objects
    ensures Decodes(o)
  {
    var t :| SnapshotFits(t, objects);
    assert TypedOk(o, t);
  }

  lemma ConsistentDecodes(s: Store, id: string)
    requires Consistent(s) && id in s.objects
    ensures Decodes(s.objects[id]) && ObjectID(s.objects[id]) == id
  {
    hide SnapshotOk;
    hide Ordered;
    OrderedIndexes(s.objects);
    SnapshotDecodes(Ordered(s.objects), s.objects[id]);
  }

  lemma SuccessorKeeps(current: StoredObject, next: StoredObject, snapshot: seq<StoredObject>)
    requires next.objectType == current.objectType && Decodes(current) && Decodes(next)
    requires CheckTypedSuccessor(current, next, snapshot).None?
    ensures KeepsIdentity(current.document.content, next.document.content)
    ensures KeepsRole(current.document.content, next.document.content)
  {
    hide TopologyFits;
    hide Candidate;
    hide AssignmentOk;
  }

  /** A rewrite keeps the object's identity for life, takes the version allocated
      for the call, and raises the generation by one exactly when the desired
      content changed. */
  lemma RewriteEvolves(s: Store, c: Call, id: string)
    requires Consistent(s) && Rewrites(s, c, id)
    ensures var now := After(s, c).objects;
            && id in now && Evolves(s.objects[id], now[id])
            && c.version == Some(now[id].metadata.resourceVersion)
            && now[id].metadata.generation as int ==
               s.objects[id].metadata.generation + (if DesiredChanged(s.objects[id], c.request) then 1 else 0)
  {
    ConsistentDecodes(s, id);
    StepConsistent(s, c);
    RewriteChecked(s, c, id);
    var version := c.version.value;
    var next := NextVersion(s.objects[id], c.request, c.now, version);
    ReplaceChecked(s.objects[id], c.request, Ordered(s.objects), c.now, version);
    WriteSettles(s, c);
    hide Answer;
    hide Consistent;
    hide CheckReplace;
    hide Prepare;
    hide CheckTypedSuccessor;
    assert After(s, c).objects[id] == next;
    ConsistentDecodes(After(s, c), id);
    hide After;
    SuccessorKeeps(s.objects[id], next, Ordered(s.objects));
    hide Ordered;
    hide KeepsIdentity;
    hide KeepsRole;
    hide Valid;
  }

  /** Other objects are left alone by a call. */
  lemma OthersUntouched(s: Store, c: Call, id: string)
    requires id in s.objects && !Rewrites(s, c, id)
    ensures id in After(s, c).objects && After(s, c).objects[id] == s.objects[id]
  {
    if Writes(s, c) {
      WriteSettles(s, c);
      hide Answer;
    }
  }

  // ----- the life of one object -----

  /** How many calls of the run change the desired content of the object. */
  ghost function Changes(s: Store, calls: seq<Call>, id: string): nat
  {
    if calls == [] then 0
    else
      var n := |calls| - 1;
      var before := Run(s, calls[..n]);
      Changes(s, calls[..n], id) +
      if Rewrites(before, calls[n], id) && DesiredChanged(before.objects[id], calls[n].request) then 1 else 0
  }

  /** Over any run an object is never lost; its type, creation time and identity
      fields are fixed; its update time never goes back; and its generation counts
      the changes of its desired content exactly, so it never wraps. */
  lemma {:induction false} ObjectLives(s: Store, calls: seq<Call>, id: string)
    requires Consistent(s) && id in s.objects
    ensures var now := Run(s, calls).objects;
            && id in now && Evolves(s.objects[id], now[id])
            && now[id].metadata.generation as int == s.objects[id].metadata.generation + Changes(s, calls, id)
  {
    hide After;
    hide Rewrites;
    hide DesiredChanged;
    hide Evolves;
    hide Consistent;
    if calls == [] {
      ConsistentDecodes(s, id);
      EvolvesReflexive(s.objects[id]);
    } else {
      var n := |calls| - 1;
      var before := Run(s, calls[..n]);
      ObjectLives(s, calls[..n], id);
      RunConsistent(s, calls[..n]);
      StepLives(before, calls[n], id);
      EvolvesTransitive(s.objects[id], before.objects[id], After(before, calls[n]).objects[id]);
    }
  }

  lemma StepLives(s: Store, c: Call, id: string)
    requires Consistent(s) && id in s.objects
    ensures var now := After(s, c).objects;
            && id in now && Evolves(s.objects[id], now[id])
            && now[id].metadata.generation as int == s.objects[id].metadata.generation +
               (if Rewrites(s, c, id) && DesiredChanged(s.objects[id], c.request) then 1 else 0)
  {
    hide *;
    if Rewrites(s, c, id) {
      RewriteEvolves(s, c, id);
    } else {
      OthersUntouched(s, c, id);
      ConsistentDecodes(s, id);
      EvolvesReflexive(s.objects[id]);
    }
  }

  // ----- no lost updates -----

  /** The allocator never hands out a version twice, nor one stored at the start. */
  ghost predicate FreshVersions(start: Store, calls: seq<Call>)
  {
    && (forall i, j | 0 <= i < j < |calls| && calls[i].version.Some? :: calls[i].version != calls[j].version)
    && (forall i, id | 0 <= i < |calls| && id in start.objects ::
          calls[i].version != Some(start.objects[id].metadata.resourceVersion))
  }

  /** A stored version is the one from the start, or some call's. */
  lemma {:induction false} VersionOrigin(s: Store, calls: seq<Call>, id: string)
    requires id in Run(s, calls).objects
    ensures (id in s.objects && s.objects[id] == Run(s, calls).objects[id]) ||
            exists k | 0 <= k < |calls| :: calls[k].version == Some(Run(s, calls).objects[id].metadata.resourceVersion)
  {
    hide Answer;
    if calls != [] {
      var n := |calls| - 1;
      var before := Run(s, calls[..n]);
      if Writes(before, calls[n]) && ObjectID(Answer(before, calls[n]).value) == id {
        WriteCarriesVersion(before, calls[n]);
      } else {
        VersionOrigin(s, calls[..n], id);
      }
    }
  }

  lemma WriteCarriesVersion(s: Store, c: Call)
    requires Writes(s, c)
    ensures c.version == Some(Answer(s, c).value.metadata.resourceVersion)
  {
    WriteIsWellFormed(s, c);
    hide Answer;
    hide Ordered;
    hide SnapshotOk;
    hide CheckReplace;
  }

  /** Once an object has been rewritten it never again carries the version it
      had before. */
  lemma VersionNeverReturns(start: Store, calls: seq<Call>, i: nat, j: nat, id: string)
    requires FreshVersions(start, calls) && i < j <= |calls| && Rewrites(Run(start, calls[..i]), calls[i], id)
    requires id in Run(start, calls[..j]).objects
    ensures Run(start, calls[..j]).objects[id].metadata.resourceVersion !=
            Run(start, calls[..i]).objects[id].metadata.resourceVersion
  {
    var at, end := Run(start, calls[..i]), Run(start, calls[..j]);
    var written := After(at, calls[i]);
    var later := calls[i + 1..j];
    assert calls[..j] == calls[..i + 1] + later;
    hide *;
    VersionOrigin(start, calls[..i], id);
    RunStep(start, calls, i);
    RunJoins(start, calls[..i + 1], later);
    RewriteTakesVersion(at, calls[i], id);
    VersionOrigin(written, later, id);
    FreshVersionDiffers(start, calls, i, j, at.objects[id].metadata.resourceVersion,
                        end.objects[id].metadata.resourceVersion, later);
  }

  lemma RewriteTakesVersion(s: Store, c: Call, id: string)
    requires Rewrites(s, c, id)
    ensures id in s.objects && id in After(s, c).objects
    ensures c.version == Some(After(s, c).objects[id].metadata.resourceVersion)
  {
    WriteSettles(s, c);
    WriteCarriesVersion(s, c);
    hide Answer;
  }

  /** Versions allocated from call `i` on differ from those known before it. */
  lemma FreshVersionDiffers(start: Store, calls: seq<Call>, i: nat, j: nat, was: string, newest: string, later: seq<Call>)
    requires FreshVersions(start, calls) && i < j <= |calls| && later == calls[i + 1..j]
    requires (exists id | id in start.objects :: start.objects[id].metadata.resourceVersion == was) ||
             exists k | 0 <= k < |calls[..i]| :: calls[..i][k].version == Some(was)
    requires calls[i].version == Some(newest) || exists k | 0 <= k < |later| :: later[k].version == Some(newest)
    ensures was != newest
  {
    var k: nat;
    if calls[i].version == Some(newest) {
      k := i;
    } else {
      var k' :| 0 <= k' < |later| && later[k'].version == Some(newest);
      k := i + 1 + k';
    }
    assert i <= k < j && calls[k].version == Some(newest);
    if exists id | id in start.objects :: start.objects[id].metadata.resourceVersion == was {
    } else {
      var k0 :| 0 <= k0 < |calls[..i]| && calls[..i][k0].version == Some(was);
      assert calls[k0].version == Some(was);
    }
  }

  /** A replace of the object guarded by the version. */
  predicate Guarded(c: Call, id: string, version: string)
  {
    && c.request.operation.Replace? && c.request.objectID == id
    && c.request.precondition.Some? && c.request.precondition.value.resourceVersion == version
  }

  lemma GuardHolds(s: Store, c: Call, id: string, version: string)
    requires Writes(s, c) && Guarded(c, id, version)
    ensures Rewrites(s, c, id) && s.objects[id].metadata.resourceVersion == version
  {
    GuardIs(c, id, version);
    ReplaceNeedsCurrent(s, c);
    RewriteIs(s, c, id);
    hide *;
    RewriteChecked(s, c, id);
    ReplaceChecked(s.objects[id], c.request, Ordered(s.objects), c.now, c.version.value);
    GuardMatches(c.request.precondition.value, s.objects[id].metadata);
  }

  lemma GuardIs(c: Call, id: string, version: string)
    requires Guarded(c, id, version)
    ensures c.request.objectID == id && c.request.operation.Replace?
    ensures c.request.precondition.Some? && c.request.precondition.value.resourceVersion == version
  {
  }

  lemma GuardMatches(p: Precondition, current: ObjectMetadata)
    requires CheckPrecondition(p, current).None?
    ensures p.objectID == current.objectID && p.resourceVersion == current.resourceVersion
  {
    hide Valid;
  }

  lemma RewriteIs(s: Store, c: Call, id: string)
    requires Writes(s, c) && c.request.objectID == id && id in s.objects
    ensures Rewrites(s, c, id)
  {
  }

  lemma ReplaceNeedsCurrent(s: Store, c: Call)
    requires Writes(s, c) && c.request.operation.Replace?
    ensures c.request.objectID in s.objects
  {
    WriteIsWellFormed(s, c);
    hide Answer;
    hide Ordered;
    hide CheckReplace;
    hide Settle;
  }

  /** No lost updates: of two replaces of one object under different keys that are
      guarded by the same version, anywhere in a run, at most one succeeds; replays
      of either are counted as that one write. */
  lemma NoLostUpdates(start: Store, calls: seq<Call>, i: nat, j: nat, id: string, version: string)
    requires start.receipts == map[] && FreshVersions(start, calls)
    requires i < |calls| && j < |calls| && calls[i].key != calls[j].key
    requires Guarded(calls[i], id, version) && Guarded(calls[j], id, version)
    ensures !(Answer(Run(start, calls[..i]), calls[i]).Ok? && Answer(Run(start, calls[..j]), calls[j]).Ok?)
  {
    hide *;
    if Answer(Run(start, calls[..i]), calls[i]).Ok? && Answer(Run(start, calls[..j]), calls[j]).Ok? {
      var a := SuccessOrigin(start, calls, i);
      var b := SuccessOrigin(start, calls, j);
      SameGuard(calls[i], calls[a], id, version);
      SameGuard(calls[j], calls[b], id, version);
      GuardHolds(Run(start, calls[..a]), calls[a], id, version);
      GuardHolds(Run(start, calls[..b]), calls[b], id, version);
      RewriteKnown(Run(start, calls[..a]), calls[a], id);
      RewriteKnown(Run(start, calls[..b]), calls[b], id);
      if a < b {
        VersionNeverReturns(start, calls, a, b, id);
      } else {
        VersionNeverReturns(start, calls, b, a, id);
      }
    }
  }

  lemma SameGuard(a: Call, b: Call, id: string, version: string)
    requires Guarded(a, id, version) && a.request == b.request
    ensures Guarded(b, id, version)
  {
  }

  lemma RewriteKnown(s: Store, c: Call, id: string)
    requires Rewrites(s, c, id)
    ensures id in s.objects
  {
  }
}
