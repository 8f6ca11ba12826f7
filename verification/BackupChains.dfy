/** The parent chains of backups: the recursive three-colour check and the check
    of each link (internal/recovery/integrity.go). */
module BackupChains {
  import opened Options
  import opened ParentForest
  import opened Topology

  type Time = int

  datatype Mode = Full | Incremental | Differential | OtherMode(text: string)
  datatype State = Planned | Running | Completed | Failed | Expired | Deleted | OtherState(text: string)
  datatype Target = Target(kind: string, id: string, scopeID: string)
  datatype Provider = Provider(providerID: string, adapterID: string, version: string, repositoryID: string, operationID: string)
  {
    /** Where an artifact lives; the operation that made it does not matter. */
    predicate SameStorage(other: Provider)
    {
      providerID == other.providerID && adapterID == other.adapterID && version == other.version && repositoryID == other.repositoryID
    }
  }

  datatype Backup = Backup(
    id: string, scopeID: string, ownerScope: string, target: Target, mode: Mode, state: State, parentID: string,
    provider: Provider, hasArtifact: bool, requestedAt: Time, startedAt: Option<Time>, dataCapturedAt: Option<Time>,
    completedAt: Option<Time>)

  function BackupID(b: Backup): string { b.id }

  /** What the validator of a single record has established before the graph is
      looked at: only dependent modes name a parent, and times run forwards. */
  predicate RecordOk(b: Backup)
  {
    && b.id != "" && (b.parentID != "" <==> b.mode.Incremental? || b.mode.Differential?) && b.parentID != b.id
    && (b.startedAt.Some? ==> b.requestedAt <= b.startedAt.value)
    && (b.completedAt.Some? ==> (if b.startedAt.Some? then b.startedAt.value else b.requestedAt) <= b.completedAt.value)
  }

  /** The index of a set of records with distinct identifiers. */
  ghost predicate Indexed(index: map<string, Backup>, backups: seq<Backup>)
  {
    (forall b | b in backups :: RecordOk(b)) && IndexOf(index, backups, BackupID)
  }

  function ParentIDs(index: map<string, Backup>): Parents
  {
    map id | id in index :: index[id].parentID
  }

  // ----- complete chains -----

  /** The walk up from `x` meets only known records and ends. */
  ghost predicate Complete(parents: Parents, x: string)
  {
    exists n: nat :: EndsAt(parents, x, n)
  }

  ghost predicate EndsAt(parents: Parents, x: string, n: nat)
  {
    Up(parents, x, n) == "" && forall k: nat | k < n :: Up(parents, x, k) in parents
  }

  /** A record's chain is complete when it has no parent or its parent's is. */
  lemma CompleteStep(parents: Parents, x: string)
    requires "" !in parents && x in parents
    ensures Complete(parents, x) <==> parents[x] == "" || Complete(parents, parents[x])
  {
    assert Up(parents, x, 0) == x && Up(parents, x, 1) == parents[x];
    var p := parents[x];
    if p == "" {
      assert EndsAt(parents, x, 1);
    } else {
      if n: nat :| EndsAt(parents, p, n) {
        ShiftUp(parents, x, n);
        assert EndsAt(parents, x, n + 1) by {
          forall k: nat | k < n + 1 ensures Up(parents, x, k) in parents { if k > 0 { ShiftUp(parents, x, k - 1); } }
        }
      }
      if n: nat :| EndsAt(parents, x, n) {
        assert n > 1;
        ShiftUp(parents, x, n - 1);
        forall k: nat | k < n - 1 ensures Up(parents, p, k) in parents { ShiftUp(parents, x, k); }
        assert EndsAt(parents, p, n - 1);
      }
    }
  }

  lemma ShiftUp(parents: Parents, x: string, k: nat)
    requires x in parents
    ensures Up(parents, parents[x], k) == Up(parents, x, k + 1)
  {
    assert Up(parents, x, 1) == parents[x];
    UpJoins(parents, x, 1, k);
  }

  lemma AllComplete(parents: Parents)
    requires "" !in parents
    ensures (forall x | x in parents :: Complete(parents, x)) <==> Rooted(parents)
  {
    if Rooted(parents) {
      forall x | x in parents ensures Complete(parents, x) {
        var n: nat :| Up(parents, x, n) == "";
        FirstEnd(parents, x, n);
      }
    }
    if forall x | x in parents :: Complete(parents, x) {
      forall x | x in parents ensures parents[x] == "" || parents[x] in parents {
        CompleteStep(parents, x);
        if parents[x] != "" { CompleteIsKnown(parents, parents[x]); }
      }
      forall x | x in parents ensures Ends(parents, x) {
        var n: nat :| EndsAt(parents, x, n);
        assert Up(parents, x, n) == "";
      }
    }
  }

  lemma CompleteIsKnown(parents: Parents, x: string)
    requires Complete(parents, x) && x != ""
    ensures x in parents
  {
    var n: nat :| EndsAt(parents, x, n);
    assert Up(parents, x, 0) == x;
  }

  lemma {:induction false} FirstEnd(parents: Parents, x: string, n: nat)
    requires Closed(parents) && x in parents && Up(parents, x, n) == ""
    ensures Complete(parents, x)
  {
    if k: nat :| k < n && Up(parents, x, k) == "" {
      FirstEnd(parents, x, k);
    } else {
      forall k: nat | k < n ensures Up(parents, x, k) in parents { UpStaysKnown(parents, x, k); }
      assert EndsAt(parents, x, n);
    }
  }

  // ----- no walk repeats -----

  /** No walk of known records comes back to one it has met. */
  ghost predicate NoRepeats(parents: Parents)
  {
    forall x, i: nat, j: nat | x in parents && i < j && Up(parents, x, j) != "" :: Up(parents, x, i) != Up(parents, x, j)
  }

  lemma NoRepeatsIff(parents: Parents)
    requires Closed(parents)
    ensures NoRepeats(parents) <==> Rooted(parents)
  {
    if NoRepeats(parents) {
      forall x | x in parents ensures Ends(parents, x) { WalkRunsOut(parents, x, 0, {}); }
    }
    if Rooted(parents) {
      forall x, i: nat, j: nat | x in parents && i < j && Up(parents, x, j) != ""
        ensures Up(parents, x, i) != Up(parents, x, j)
      {
        UpStaysKnown(parents, x, j);
        OnTheWay(parents, x, j);
        if Up(parents, x, i) == Up(parents, x, j) { RepeatNeverEnds(parents, x, i, j); }
      }
    }
  }

  ghost predicate Met(parents: Parents, x: string, n: nat, y: string)
  {
    exists k: nat :: k < n && Up(parents, x, k) == y
  }

  /** Without repeats a walk uses up the records. */
  lemma {:induction false} WalkRunsOut(parents: Parents, x: string, n: nat, seen: set<string>)
    requires Closed(parents) && NoRepeats(parents) && x in parents && seen <= parents.Keys
    requires forall y | y in seen :: Met(parents, x, n, y)
    ensures Ends(parents, x)
    decreases parents.Keys - seen
  {
    var here := Up(parents, x, n);
    UpStaysKnown(parents, x, n);
    if here != "" {
      assert here !in seen && Met(parents, x, n + 1, here);
      forall y | y in seen ensures Met(parents, x, n + 1, y) {
        var k: nat :| k < n && Up(parents, x, k) == y;
      }
      WalkRunsOut(parents, x, n + 1, seen + {here});
    }
  }

  // ----- the three-colour check -----

  datatype Colour = Visiting | Visited

  /** The records being visited, each the parent of the one before; `next` comes
      after the last. */
  ghost predicate Path(parents: Parents, path: seq<string>, next: string)
  {
    && (forall i | 0 <= i < |path| :: path[i] in parents)
    && forall i | 0 <= i < |path| :: parents[path[i]] == Following(path, next, i)
  }

  function Following(path: seq<string>, next: string, i: nat): string
    requires i < |path|
  {
    if i + 1 < |path| then path[i + 1] else next
  }

  lemma PathGrows(parents: Parents, path: seq<string>, id: string)
    requires Path(parents, path, id) && id in parents
    ensures Path(parents, path + [id], parents[id])
  {
  }

  /** From a record of the path the walk reaches whatever comes after the path. */
  lemma {:induction false} PathLeads(parents: Parents, path: seq<string>, next: string, i: nat)
    requires Path(parents, path, next) && i < |path|
    ensures Up(parents, path[i], |path| - i) == next
    ensures forall k: nat | k < |path| - i :: Up(parents, path[i], k) in parents
    decreases |path| - i
  {
    assert Up(parents, path[i], 0) == path[i];
    if i + 1 < |path| {
      PathLeads(parents, path, next, i + 1);
      ShiftUp(parents, path[i], |path| - i - 1);
      forall k: nat | k < |path| - i ensures Up(parents, path[i], k) in parents {
        if k > 0 { ShiftUp(parents, path[i], k - 1); }
      }
    } else {
      ShiftUp(parents, path[i], 0);
      assert parents[path[i]] == next;
    }
  }

  /** Meeting a record that is being visited is a cycle. */
  lemma PathCloses(parents: Parents, path: seq<string>, id: string)
    requires "" !in parents && Path(parents, path, id) && id in path
    ensures !Complete(parents, id)
  {
    var i :| 0 <= i < |path| && path[i] == id;
    PathLeads(parents, path, id, i);
    assert Up(parents, id, 0) == id;
    RepeatNeverEnds(parents, id, 0, |path| - i);
  }

  class ParentChecker {
    const parents: Parents
    var states: map<string, Colour>

    constructor (parents: Parents)
      ensures this.parents == parents && states == map[]
    {
      this.parents := parents;
      states := map[];
    }

    /** Exactly the records of the path are being visited, and whatever has been
        visited has a complete chain. */
    ghost predicate Coloured(path: seq<string>)
      reads this
    {
      && "" !in parents && states.Keys <= parents.Keys
      && (forall x | x in states :: states[x].Visiting? <==> x in path)
      && (forall x | x in path :: x in states)
      && (forall x | x in states && states[x].Visited? :: Complete(parents, x))
    }

    method Visit(id: string, ghost path: seq<string>) returns (ok: bool)
      requires Coloured(path) && id in parents && Path(parents, path, id)
      modifies this
      ensures ok <==> Complete(parents, id)
      ensures ok ==> Coloured(path)
      ensures old(states).Keys <= states.Keys
      decreases parents.Keys - states.Keys
    {
      hide Complete;
      if id in states && states[id].Visiting? {
        PathCloses(parents, path, id);
        return false;
      }
      if id in states && states[id].Visited? { return true; }
      states := states[id := Visiting];
      assert states.Keys == old(states).Keys + {id} && id in parents.Keys - old(states).Keys;
      var parent := parents[id];
      CompleteStep(parents, id);
      PathGrows(parents, path, id);
      if parent != "" {
        if parent !in parents {
          Unknown(parents, parent);
          return false;
        }
        ok := Visit(parent, path + [id]);
        if !ok { return; }
      }
      states := states[id := Visited];
      return true;
    }
  }

  lemma Unknown(parents: Parents, x: string)
    requires x != "" && x !in parents
    ensures !Complete(parents, x)
  {
    assert Up(parents, x, 0) == x;
  }

  lemma NoneYet(checker: ParentChecker)
    requires "" !in checker.parents && checker.states == map[]
    ensures checker.Coloured([])
  {
  }

  lemma EmptyPath(parents: Parents, id: string)
    ensures Path(parents, [], id)
  {
  }

  ghost predicate AllListedComplete(parents: Parents, backups: seq<Backup>)
  {
    forall b | b in backups :: Complete(parents, b.id)
  }

  lemma ListedComplete(index: map<string, Backup>, backups: seq<Backup>)
    requires Indexed(index, backups)
    ensures AllListedComplete(ParentIDs(index), backups) <==> Rooted(ParentIDs(index))
    ensures "" !in ParentIDs(index)
  {
    var parents := ParentIDs(index);
    forall x | x in parents ensures x != "" && index[x] in backups && index[x].id == x { IndexedAt(index, backups, x); }
    AllComplete(parents);
    hide Complete;
    hide Rooted;
    hide RecordOk;
    if AllListedComplete(parents, backups) {
      forall x | x in parents ensures Complete(parents, x) { assert index[x] in backups; }
    }
  }

  lemma ListedKnown(index: map<string, Backup>, backups: seq<Backup>, k: nat)
    requires Indexed(index, backups) && k < |backups|
    ensures backups[k].id in ParentIDs(index)
  {
    hide RecordOk;
    assert backups[k] in backups && BackupID(backups[k]) in index;
  }

  lemma CompleteNext(parents: Parents, backups: seq<Backup>, k: nat)
    requires k < |backups| && AllListedComplete(parents, backups[..k])
    ensures Complete(parents, backups[k].id) ==> AllListedComplete(parents, backups[..k + 1])
    ensures !Complete(parents, backups[k].id) ==> !AllListedComplete(parents, backups)
  {
    hide Complete;
    assert backups[k] in backups && backups[..k + 1] == backups[..k] + [backups[k]];
  }

  /** Succeeds exactly when every named parent exists and every chain ends. */
  method ValidateBackupParentCycles(backups: seq<Backup>, index: map<string, Backup>) returns (ok: bool)
    requires Indexed(index, backups)
    ensures ok <==> Rooted(ParentIDs(index))
  {
    var parents := ParentIDs(index);
    assert AllListedComplete(parents, backups[..0]);
    hide *;
    ListedComplete(index, backups);
    var checker := new ParentChecker(parents);
    NoneYet(checker);
    for k := 0 to |backups|
      invariant checker.Coloured([]) && checker.parents == parents
      invariant AllListedComplete(parents, backups[..k])
    {
      ListedKnown(index, backups, k);
      EmptyPath(parents, backups[k].id);
      CompleteNext(parents, backups, k);
      var complete := checker.Visit(backups[k].id, []);
      if !complete { return false; }
    }
    assert backups[..|backups|] == backups;
    return true;
  }

  // ----- the links -----

  predicate Available(b: Backup)
  {
    (b.state.Completed? || b.state.Expired?) && b.hasArtifact && b.completedAt.Some?
  }

  /** Records of one chain share scope, owner, target and provider storage. */
  predicate SameHome(a: Backup, b: Backup)
  {
    a.scopeID == b.scopeID && a.ownerScope == b.ownerScope && a.target == b.target && a.provider.SameStorage(b.provider)
  }

  predicate LinkOk(child: Backup, parent: Backup)
  {
    && SameHome(parent, child) && Available(parent)
    && parent.completedAt.value <= child.requestedAt
    && !(parent.dataCapturedAt.Some? && child.dataCapturedAt.Some? && parent.dataCapturedAt.value > child.dataCapturedAt.value)
    && (child.mode.Differential? ==> parent.mode.Full?)
    && (child.mode.Incremental? ==> parent.mode.Full? || parent.mode.Incremental?)
  }

  ghost predicate Linked(index: map<string, Backup>)
  {
    forall id | id in index && index[id].parentID != "" ::
      index[id].parentID in index && LinkOk(index[id], index[index[id].parentID])
  }

  method ValidateBackupParentLinks(backups: seq<Backup>, index: map<string, Backup>) returns (ok: bool)
    requires Indexed(index, backups)
    ensures ok <==> Linked(index)
  {
    hide RecordOk;
    hide LinkOk;
    for k := 0 to |backups|
      invariant forall b | b in backups[..k] && b.parentID != "" :: b.parentID in index && LinkOk(b, index[b.parentID])
    {
      var backup := backups[k];
      assert backup in backups && backups[..k + 1] == backups[..k] + [backup];
      if backup.parentID != "" {
        if backup.parentID !in index || !LinkOk(backup, index[backup.parentID]) { return false; }
      }
    }
    assert backups[..|backups|] == backups;
    return true;
  }

  /** A backup that depends on another rests on one of the same target, owner and
      storage that was complete, with its artifact, when it was asked for; captured
      no later data; and is of a mode it can build on. */
  predicate RestsOn(child: Backup, parent: Backup)
  {
    && child.scopeID == parent.scopeID && child.ownerScope == parent.ownerScope
    && child.target.kind == parent.target.kind && child.target.id == parent.target.id && child.target.scopeID == parent.target.scopeID
    && child.provider.providerID == parent.provider.providerID && child.provider.adapterID == parent.provider.adapterID
    && child.provider.version == parent.provider.version && child.provider.repositoryID == parent.provider.repositoryID
    && parent.hasArtifact && (parent.state == Completed || parent.state == Expired)
    && parent.completedAt.Some? && parent.completedAt.value <= child.requestedAt
    && (parent.dataCapturedAt.Some? && child.dataCapturedAt.Some? ==> parent.dataCapturedAt.value <= child.dataCapturedAt.value)
    && match child.mode
       case Differential => parent.mode == Full
       case Incremental => parent.mode == Full || parent.mode == Incremental
       case _ => true
  }

  lemma LinkMeans(child: Backup, parent: Backup)
    ensures LinkOk(child, parent) <==> RestsOn(child, parent)
  {
  }

  /** The links stand exactly when every backup that names a parent rests on a known one. */
  lemma LinksStandIff(backups: seq<Backup>, index: map<string, Backup>)
    requires Indexed(index, backups)
    ensures Linked(index) <==>
            forall b | b in backups && b.parentID != "" :: exists p | p in backups :: p.id == b.parentID && RestsOn(b, p)
  {
    hide RecordOk;
    hide LinkOk;
    hide RestsOn;
    if Linked(index) {
      forall b | b in backups && b.parentID != "" ensures exists p | p in backups :: p.id == b.parentID && RestsOn(b, p) {
        assert BackupID(b) in index && index[b.id] == b;
        var p := index[b.parentID];
        assert p in backups && BackupID(p) == b.parentID;
        LinkMeans(b, p);
      }
    }
    if forall b | b in backups && b.parentID != "" :: exists p | p in backups :: p.id == b.parentID && RestsOn(b, p) {
      forall id | id in index && index[id].parentID != ""
        ensures index[id].parentID in index && LinkOk(index[id], index[index[id].parentID])
      {
        var p :| p in backups && p.id == index[id].parentID && RestsOn(index[id], p);
        assert BackupID(p) in index && index[p.id] == p;
        LinkMeans(index[id], p);
      }
    }
  }

  // ----- what a checked chain is -----

  /** Any record above another on its chain: they share their home; one strictly
      above is an available full or incremental backup completed before the other
      was asked for; and it is full exactly where the chain ends. */
  ghost predicate Precedes(a: Backup, b: Backup)
  {
    && SameHome(a, b)
    && (a.id != b.id ==>
          && Available(a) && a.completedAt.value <= b.requestedAt && (a.mode.Full? || a.mode.Incremental?)
          && (a.mode.Full? <==> a.parentID == ""))
  }

  lemma StepPrecedes(child: Backup, parent: Backup)
    requires RecordOk(child) && RecordOk(parent) && child.parentID == parent.id && LinkOk(child, parent)
    ensures Precedes(parent, child)
  {
  }

  lemma PrecedesTransitive(a: Backup, b: Backup, c: Backup)
    requires Precedes(a, b) && Precedes(b, c) && RecordOk(b) && a.id != b.id && b.id != c.id
    ensures Precedes(a, c)
  {
  }

  /** Along a checked chain, up to its parentless end. */
  lemma {:induction false} ChainHolds(index: map<string, Backup>, backups: seq<Backup>, x: string, n: nat)
    requires Indexed(index, backups) && Linked(index) && x in index && Up(ParentIDs(index), x, n) != ""
    ensures Up(ParentIDs(index), x, n) in index && Precedes(index[Up(ParentIDs(index), x, n)], index[x])
  {
    var parents := ParentIDs(index);
    hide RecordOk;
    hide LinkOk;
    hide Rooted;
    hide Indexed;
    hide Precedes;
    hide Linked;
    IndexedAt(index, backups, x);
    if n == 0 {
      PrecedesItself(index[x]);
    } else {
      var below := Up(parents, x, n - 1);
      assert below in parents;
      IndexedAt(index, backups, below);
      ChainHolds(index, backups, x, n - 1);
      var above := parents[below];
      LinkedAt(index, below);
      IndexedAt(index, backups, above);
      StepPrecedes(index[below], index[above]);
      if below != x { PrecedesTransitive(index[above], index[below], index[x]); }
    }
  }

  lemma PrecedesItself(b: Backup)
    ensures Precedes(b, b)
  {
  }

  lemma IndexedAt(index: map<string, Backup>, backups: seq<Backup>, id: string)
    requires Indexed(index, backups) && id in index
    ensures id != "" && RecordOk(index[id]) && index[id].id == id && index[id].parentID != id
  {
    assert index[id] in backups;
  }

  lemma LinkedAt(index: map<string, Backup>, id: string)
    requires Linked(index) && id in index && index[id].parentID != ""
    ensures index[id].parentID in index && LinkOk(index[id], index[index[id].parentID])
  {
    hide LinkOk;
  }

  /** Everything above a backup, in particular the parentless end of its chain,
      which a dependent backup has as a full one. */
  lemma ChainUnited(index: map<string, Backup>, backups: seq<Backup>, x: string)
    requires Indexed(index, backups) && Linked(index) && Rooted(ParentIDs(index)) && x in index
    ensures forall a | Above(ParentIDs(index), a, x) :: a in index && Precedes(index[a], index[x])
    ensures exists top | Above(ParentIDs(index), top, x) :: top in index && index[top].parentID == "" && (top != x ==> index[top].mode.Full?)
  {
    var parents := ParentIDs(index);
    forall a | Above(parents, a, x) ensures a in index && Precedes(index[a], index[x]) {
      var n: nat :| Up(parents, x, n) == a;
      assert a != "" by { assert index[a] in backups; }
      ChainHolds(index, backups, x, n);
    }
    var top := TopOf(parents, x);
    assert index[top] in backups && index[x] in backups && index[top].id == top && index[x].id == x;
    assert Precedes(index[top], index[x]);
  }
}
