/** The fail-closed network change plan (internal/networkpolicy/change_plan.go
    and policy.go): validation, canonical form, identity. */
module ChangePlan {
  import Seqs
  import Sorting
  import Text

  // ----- vocabulary -----

  /** A security zone, as spelled. */
  type Zone = string

  predicate IsZone(z: Zone)
  {
    z in {"WAN", "LAN", "MANAGEMENT", "DMZ", "CLUSTER", "STORAGE", "BACKUP"}
  }

  datatype ProbeKind = LinkState | ZoneReachability | ControlPlane | UnknownKind(text: string)

  /** An interface of the node; `changed` marks one the revision affects. */
  datatype InterfaceIntent = InterfaceIntent(id: string, zone: Zone, changed: bool)

  datatype ConnectivityProbe = ConnectivityProbe(id: string, kind: ProbeKind, interfaceID: string, zone: Zone)

  datatype ForwardingIntent = ForwardingIntent(source: Zone, destination: Zone, enabled: bool, edgeGateway: bool)

  /** Durations in nanoseconds. */
  datatype TimeoutPolicy = TimeoutPolicy(snapshot: int, preflight: int, applyWindow: int, probe: int, rollback: int)

  datatype Request = Request(
    nodeID: string, revisionID: string,
    interfaces: seq<InterfaceIntent>, forwarding: seq<ForwardingIntent>,
    probes: seq<ConnectivityProbe>, timeouts: TimeoutPolicy)

  datatype Stage = SnapshotStage | PreflightStage | ApplyWindowStage | ProbeStage | DecisionStage
  datatype Action =
    | CaptureRecoverySnapshot | ValidateNetworkContract | ValidateManagementPath | AuthorizeForwarding
    | OpenTemporaryWindow | RunConnectivityProbes | CommitOrRollback
  datatype ChangeStep = ChangeStep(order: int, stage: Stage, action: Action)

  /** Everything in a plan but its identity. */
  datatype Body = Body(
    schemaVersion: string, nodeID: string, revisionID: string,
    interfaces: seq<InterfaceIntent>, forwarding: seq<ForwardingIntent>, forwardingDefaultDeny: bool,
    probes: seq<ConnectivityProbe>, timeouts: TimeoutPolicy, steps: seq<ChangeStep>)

  /** A digest field: the SHA-256 of some content, taken as injective, or any
      other text a caller may have put there. */
  datatype Digest<T> = Sha256Of(content: T) | OtherText(text: string)
  {
    /** sha256:<64 hex digits> */
    predicate WellFormed()
    {
      Sha256Of? || (|text| == 71 && text[..7] == "sha256:" && forall i | 7 <= i < 71 :: IsHex(text[i]))
    }
  }

  predicate IsHex(c: char)
  {
    '0' <= c <= '9' || 'a' <= c <= 'f' || 'A' <= c <= 'F'
  }

  datatype Plan = Plan(planID: Digest<Body>, body: Body)

  const SCHEMA_VERSION := "network.change.plan/v1"
  const MAX_INTERFACES := 64
  const MAX_FORWARDING := 128
  const MAX_PROBES := 128
  const SECOND := 1_000_000_000
  const MAX_PHASE_TIMEOUT := 15 * 60 * SECOND

  const STEPS: seq<ChangeStep> := [
    ChangeStep(1, SnapshotStage, CaptureRecoverySnapshot),
    ChangeStep(2, PreflightStage, ValidateNetworkContract),
    ChangeStep(3, PreflightStage, ValidateManagementPath),
    ChangeStep(4, PreflightStage, Action.AuthorizeForwarding),
    ChangeStep(5, ApplyWindowStage, OpenTemporaryWindow),
    ChangeStep(6, ProbeStage, RunConnectivityProbes),
    ChangeStep(7, DecisionStage, CommitOrRollback)]

  predicate IsIdentifier(s: string)
  {
    Text.IsIdentifier(s, 128, false)
  }

  // ----- what a well-formed request is -----

  function NormalZone(z: Zone): Zone { Text.Upper(Text.Trim(z)) }

  function NormalInterface(i: InterfaceIntent): InterfaceIntent
  {
    i.(id := Text.Trim(i.id), zone := NormalZone(i.zone))
  }

  function NormalForwarding(f: ForwardingIntent): ForwardingIntent
  {
    f.(source := NormalZone(f.source), destination := NormalZone(f.destination))
  }

  function NormalProbe(p: ConnectivityProbe): ConnectivityProbe
  {
    p.(id := Text.Trim(p.id), interfaceID := Text.Trim(p.interfaceID), zone := NormalZone(p.zone))
  }

  lemma ZoneStays(z: Zone)
    requires IsZone(z)
    ensures NormalZone(z) == z
  {
    assert z != [] && !Text.IsSpace(z[0]) && !Text.IsSpace(z[|z| - 1]);
    assert forall c | c in z :: !('a' <= c <= 'z');
    UpperStays(z);
  }

  lemma UpperStays(s: string)
    requires forall c | c in s :: !('a' <= c <= 'z')
    ensures Text.Upper(s) == s
  {
    forall i | 0 <= i < |s| ensures Text.Upper(s)[i] == s[i] { assert s[i] in s; }
  }

  /** The request with the surrounding whitespace of every identifier and zone
      removed, and zones in upper case. */
  function Normal(r: Request): Request
  {
    Request(Text.Trim(r.nodeID), Text.Trim(r.revisionID),
            Seqs.Map(NormalInterface, r.interfaces), Seqs.Map(NormalForwarding, r.forwarding),
            Seqs.Map(NormalProbe, r.probes), r.timeouts)
  }

  function InterfaceID(i: InterfaceIntent): string { i.id }
  function ProbeID(p: ConnectivityProbe): string { p.id }
  function Direction(f: ForwardingIntent): (Zone, Zone) { (f.source, f.destination) }

  ghost predicate TimeoutsOk(t: TimeoutPolicy)
  {
    && 0 < t.snapshot <= MAX_PHASE_TIMEOUT
    && 0 < t.preflight <= MAX_PHASE_TIMEOUT
    && 0 < t.applyWindow <= MAX_PHASE_TIMEOUT
    && 0 < t.probe <= t.applyWindow
    && 0 < t.rollback <= MAX_PHASE_TIMEOUT
  }

  ghost predicate InterfacesOk(interfaces: seq<InterfaceIntent>)
  {
    && 1 <= |interfaces| <= MAX_INTERFACES
    && (forall i | i in interfaces :: IsIdentifier(i.id) && IsZone(i.zone))
    && Sorting.DistinctKeys(interfaces, InterfaceID)
    && (exists i | i in interfaces :: i.changed)
  }

  /** Forwarding is denied unless enabled, and to or from the WAN it also needs
      an edge gateway. Traffic within a zone is not forwarded at all. */
  predicate Authorized(f: ForwardingIntent)
  {
    && IsZone(f.source) && IsZone(f.destination)
    && (f.source == f.destination ||
        (f.enabled && (f.source == "WAN" || f.destination == "WAN" ==> f.edgeGateway)))
  }

  ghost predicate ZoneDeclared(interfaces: seq<InterfaceIntent>, z: Zone)
  {
    exists i | i in interfaces :: i.zone == z
  }

  ghost predicate ForwardingFits(f: ForwardingIntent, interfaces: seq<InterfaceIntent>)
  {
    Authorized(f) && ZoneDeclared(interfaces, f.source) && ZoneDeclared(interfaces, f.destination)
  }

  ghost predicate ForwardingOk(forwarding: seq<ForwardingIntent>, interfaces: seq<InterfaceIntent>)
  {
    && |forwarding| <= MAX_FORWARDING
    && (forall f | f in forwarding :: ForwardingFits(f, interfaces))
    && Sorting.DistinctKeys(forwarding, Direction)
  }

  ghost predicate Bound(p: ConnectivityProbe, interfaces: seq<InterfaceIntent>)
  {
    exists i | i in interfaces :: i.id == p.interfaceID && i.zone == p.zone
  }

  ghost predicate ProbeOk(p: ConnectivityProbe, interfaces: seq<InterfaceIntent>)
  {
    IsIdentifier(p.id) && IsIdentifier(p.interfaceID) && !p.kind.UnknownKind? && Bound(p, interfaces)
  }

  ghost predicate ProbesOk(probes: seq<ConnectivityProbe>, interfaces: seq<InterfaceIntent>)
  {
    && 1 <= |probes| <= MAX_PROBES
    && (forall p | p in probes :: ProbeOk(p, interfaces))
    && Sorting.DistinctKeys(probes, ProbeID)
  }

  ghost predicate Covered(i: InterfaceIntent, probes: seq<ConnectivityProbe>)
  {
    exists p | p in probes :: p.interfaceID == i.id
  }

  predicate OnManagementPath(p: ConnectivityProbe)
  {
    p.kind.ControlPlane? && (p.zone == "MANAGEMENT" || p.zone == "LAN")
  }

  /** Every changed interface is probed, and a control-plane probe watches the
      management path. */
  ghost predicate CoverageOk(interfaces: seq<InterfaceIntent>, probes: seq<ConnectivityProbe>)
  {
    && (forall i | i in interfaces && i.changed :: Covered(i, probes))
    && (exists p | p in probes :: OnManagementPath(p))
  }

  ghost predicate NormalOk(r: Request)
  {
    && IsIdentifier(r.nodeID) && IsIdentifier(r.revisionID)
    && TimeoutsOk(r.timeouts)
    && InterfacesOk(r.interfaces)
    && ForwardingOk(r.forwarding, r.interfaces)
    && ProbesOk(r.probes, r.interfaces)
    && CoverageOk(r.interfaces, r.probes)
  }

  ghost predicate WellFormed(r: Request)
  {
    NormalOk(Normal(r))
  }

  // ----- the canonical plan -----

  predicate ForwardingLess(a: ForwardingIntent, b: ForwardingIntent)
  {
    if a.source == b.source then Text.Less(a.destination, b.destination) else Text.Less(a.source, b.source)
  }

  lemma ForwardingOrders(s: seq<ForwardingIntent>)
    ensures Sorting.Orders(s, ForwardingLess)
    ensures Sorting.DistinctKeys(s, Direction) ==> Sorting.Separates(s, ForwardingLess)
  {
    Text.LessIsStrictTotal();
    hide Text.Less;
    if Sorting.DistinctKeys(s, Direction) {
      forall a, b | a in s && b in s && a != b ensures ForwardingLess(a, b) || ForwardingLess(b, a) {
        if Direction(a) == Direction(b) { Sorting.SameKeySameElement(s, Direction, a, b); }
      }
    }
  }

  function Arranged(r: Request): Request
  {
    ForwardingOrders(r.forwarding);
    r.(interfaces := Sorting.SortByKey(r.interfaces, InterfaceID),
       forwarding := Sorting.SortBy(r.forwarding, ForwardingLess),
       probes := Sorting.SortByKey(r.probes, ProbeID))
  }

  function PlanOf(r: Request): Plan
  {
    var body := Body(SCHEMA_VERSION, r.nodeID, r.revisionID, r.interfaces, r.forwarding, true,
                     r.probes, r.timeouts, STEPS);
    Plan(Sha256Of(body), body)
  }

  ghost function Canonical(r: Request): Plan
    requires WellFormed(r)
  {
    PlanOf(Arranged(Normal(r)))
  }

  function RequestOf(p: Plan): Request
  {
    Request(p.body.nodeID, p.body.revisionID, p.body.interfaces, p.body.forwarding, p.body.probes, p.body.timeouts)
  }

  /** The plans a change machine accepts: those their own request rebuilds. */
  ghost predicate IsCanonical(p: Plan)
  {
    WellFormed(RequestOf(p)) && Canonical(RequestOf(p)) == p
  }

  // ----- canonical form: order-free, a fixed point, and safe -----

  ghost predicate Rearranged(a: Request, b: Request)
  {
    && a.nodeID == b.nodeID && a.revisionID == b.revisionID && a.timeouts == b.timeouts
    && multiset(a.interfaces) == multiset(b.interfaces)
    && multiset(a.forwarding) == multiset(b.forwarding)
    && multiset(a.probes) == multiset(b.probes)
  }

  lemma RearrangedOk(a: Request, b: Request)
    requires NormalOk(a) && Rearranged(a, b)
    ensures NormalOk(b)
  {
    Sorting.SameElements(a.interfaces, b.interfaces);
    Sorting.SameElements(a.forwarding, b.forwarding);
    Sorting.SameElements(a.probes, b.probes);
    Sorting.DistinctPermuted(a.interfaces, b.interfaces, InterfaceID);
    Sorting.DistinctPermuted(a.forwarding, b.forwarding, Direction);
    Sorting.DistinctPermuted(a.probes, b.probes, ProbeID);
    assert forall z :: ZoneDeclared(a.interfaces, z) ==> ZoneDeclared(b.interfaces, z);
    assert forall p :: ProbeOk(p, a.interfaces) ==> ProbeOk(p, b.interfaces);
    assert forall i :: Covered(i, a.probes) ==> Covered(i, b.probes);
  }

  lemma NormalRearranged(a: Request, b: Request)
    requires Rearranged(a, b)
    ensures Rearranged(Normal(a), Normal(b))
  {
    Seqs.MapPermuted(NormalInterface, a.interfaces, b.interfaces);
    Seqs.MapPermuted(NormalForwarding, a.forwarding, b.forwarding);
    Seqs.MapPermuted(NormalProbe, a.probes, b.probes);
  }

  lemma NormalFixed(r: Request)
    requires NormalOk(r)
    ensures Normal(r) == r
  {
    Text.TrimIdentifier(r.nodeID, 128, false);
    Text.TrimIdentifier(r.revisionID, 128, false);
    forall i | i in r.interfaces ensures NormalInterface(i) == i { InterfaceStays(i); }
    forall f | f in r.forwarding ensures NormalForwarding(f) == f {
      ZoneStays(f.source);
      ZoneStays(f.destination);
    }
    forall p | p in r.probes ensures NormalProbe(p) == p {
      assert ProbeOk(p, r.interfaces);
      var i :| i in r.interfaces && i.id == p.interfaceID && i.zone == p.zone;
      ProbeStays(p);
    }
    hide NormalInterface;
    hide NormalForwarding;
    hide NormalProbe;
    Seqs.MapFixed(NormalInterface, r.interfaces);
    Seqs.MapFixed(NormalForwarding, r.forwarding);
    Seqs.MapFixed(NormalProbe, r.probes);
  }

  lemma InterfaceStays(i: InterfaceIntent)
    requires IsIdentifier(i.id) && IsZone(i.zone)
    ensures NormalInterface(i) == i
  {
    Text.TrimIdentifier(i.id, 128, false);
    ZoneStays(i.zone);
  }

  lemma ProbeStays(p: ConnectivityProbe)
    requires IsIdentifier(p.id) && IsIdentifier(p.interfaceID) && IsZone(p.zone)
    ensures NormalProbe(p) == p
  {
    Text.TrimIdentifier(p.id, 128, false);
    Text.TrimIdentifier(p.interfaceID, 128, false);
    ZoneStays(p.zone);
  }

  lemma ArrangedUnique(a: Request, b: Request)
    requires NormalOk(a) && Rearranged(a, b)
    ensures NormalOk(b) && Arranged(a) == Arranged(b)
  {
    RearrangedOk(a, b);
    Sorting.SortByKeyUnique(a.interfaces, b.interfaces, InterfaceID);
    Sorting.SortByKeyUnique(a.probes, b.probes, ProbeID);
    var f, g := Arranged(a).forwarding, Arranged(b).forwarding;
    Sorting.SameElements(a.forwarding, f);
    Sorting.DistinctPermuted(a.forwarding, f, Direction);
    ForwardingOrders(f);
    Sorting.SortedUnique(f, g, ForwardingLess);
  }

  /** The order in which a request lists its parts does not reach the plan. */
  lemma PlanIgnoresListing(a: Request, b: Request)
    requires WellFormed(a) && Rearranged(a, b)
    ensures WellFormed(b) && Canonical(a) == Canonical(b)
  {
    NormalRearranged(a, b);
    ArrangedUnique(Normal(a), Normal(b));
  }

  /** Building a plan from a built plan changes nothing: the machine's
      integrity check accepts exactly the plans that were built. */
  lemma CanonicalIffBuilt(p: Plan)
    ensures IsCanonical(p) <==> exists r :: WellFormed(r) && Canonical(r) == p
  {
    forall r | WellFormed(r) && Canonical(r) == p ensures IsCanonical(p) {
      var arranged := Arranged(Normal(r));
      assert RequestOf(p) == arranged;
      assert Rearranged(Normal(r), arranged);
      ArrangedUnique(Normal(r), arranged);
      NormalFixed(arranged);
    }
  }

  /** What the safety argument needs of a canonical plan. */
  lemma CanonicalSafe(p: Plan)
    requires IsCanonical(p)
    ensures p.planID == Sha256Of(p.body)
    ensures NormalOk(RequestOf(p))
  {
    var r := RequestOf(p);
    assert Rearranged(Normal(r), Arranged(Normal(r)));
    RearrangedOk(Normal(r), Arranged(Normal(r)));
  }

  /** Plans are told apart by their identity alone. */
  lemma IdentityDecides(p: Plan, q: Plan)
    requires IsCanonical(p) && IsCanonical(q) && p.planID == q.planID
    ensures p == q
  {
    CanonicalSafe(p);
    CanonicalSafe(q);
  }

  // ----- the builder -----

  /** `byID` indexes the interfaces by their identifier. */
  ghost predicate Indexes(byID: map<string, InterfaceIntent>, interfaces: seq<InterfaceIntent>)
  {
    && (forall i | i in interfaces :: i.id in byID && byID[i.id] == i)
    && (forall id | id in byID :: byID[id] in interfaces && byID[id].id == id)
  }

  method ValidateTimeouts(t: TimeoutPolicy) returns (ok: bool)
    ensures ok <==> TimeoutsOk(t)
  {
    var values := [t.snapshot, t.preflight, t.applyWindow, t.probe, t.rollback];
    for k := 0 to |values|
      invariant forall j | 0 <= j < k :: 0 < values[j] <= MAX_PHASE_TIMEOUT
    {
      if values[k] <= 0 || values[k] > MAX_PHASE_TIMEOUT {
        assert values[0] == t.snapshot && values[1] == t.preflight && values[2] == t.applyWindow;
        return false;
      }
    }
    assert values[0] == t.snapshot && values[1] == t.preflight && values[2] == t.applyWindow;
    assert values[3] == t.probe && values[4] == t.rollback;
    return t.probe <= t.applyWindow;
  }

  method CanonicalInterfaces(input: seq<InterfaceIntent>)
    returns (ok: bool, result: seq<InterfaceIntent>, byID: map<string, InterfaceIntent>)
    ensures ok <==> InterfacesOk(Seqs.Map(NormalInterface, input))
    ensures ok ==> result == Sorting.SortByKey(Seqs.Map(NormalInterface, input), InterfaceID)
    ensures ok ==> Indexes(byID, Seqs.Map(NormalInterface, input))
  {
    hide IsIdentifier;
    hide Text.Trim;
    hide InterfacesSoFar;
    ghost var all := Seqs.Map(NormalInterface, input);
    ok, result, byID := false, [], map[];
    if |input| == 0 || |input| > MAX_INTERFACES { return; }
    var changed := 0;
    NoInterfaces();
    for k := 0 to |input|
      invariant !ok && |result| == k && result == all[..k]
      invariant InterfacesSoFar(result, byID, changed)
    {
      var item := NormalInterface(input[k]);
      assert item == all[k] && item in all;
      if !IsIdentifier(item.id) || !IsZone(item.zone) { return; }
      if item.id in byID {
        IndexedInterface(result, byID, changed, item.id);
        Sorting.RepeatSpoils(all, InterfaceID, k, byID[item.id]);
        return;
      }
      NextInterface(result, byID, changed, item);
      if item.changed { changed := changed + 1; }
      byID := byID[item.id := item];
      result := result + [item];
    }
    assert result == all;
    SomeChanged(result, byID, changed);
    if changed == 0 { return; }
    result := Sorting.SortByKey(result, InterfaceID);
    ok := true;
  }

  ghost predicate InterfacesSoFar(result: seq<InterfaceIntent>, byID: map<string, InterfaceIntent>, changed: nat)
  {
    && (forall i | i in result :: IsIdentifier(i.id) && IsZone(i.zone))
    && Sorting.DistinctKeys(result, InterfaceID)
    && Indexes(byID, result)
    && (changed > 0 <==> exists i | i in result :: i.changed)
  }

  lemma NoInterfaces()
    ensures InterfacesSoFar([], map[], 0)
  {
  }

  lemma IndexedInterface(result: seq<InterfaceIntent>, byID: map<string, InterfaceIntent>, changed: nat, id: string)
    requires InterfacesSoFar(result, byID, changed) && id in byID
    ensures byID[id] in result && byID[id].id == id
  {
  }

  lemma NextInterface(result: seq<InterfaceIntent>, byID: map<string, InterfaceIntent>, changed: nat, item: InterfaceIntent)
    requires InterfacesSoFar(result, byID, changed)
    requires IsIdentifier(item.id) && IsZone(item.zone) && item.id !in byID
    ensures InterfacesSoFar(result + [item], byID[item.id := item], if item.changed then changed + 1 else changed)
  {
    hide IsIdentifier;
    Sorting.DistinctSnoc(result, InterfaceID, item);
    assert item in result + [item];
  }

  lemma SomeChanged(result: seq<InterfaceIntent>, byID: map<string, InterfaceIntent>, changed: nat)
    requires InterfacesSoFar(result, byID, changed)
    ensures 1 <= |result| <= MAX_INTERFACES ==> (InterfacesOk(result) <==> changed > 0)
    ensures Indexes(byID, result)
  {
  }

  lemma DeclaredByIndex(zones: set<Zone>, byID: map<string, InterfaceIntent>, interfaces: seq<InterfaceIntent>)
    requires Indexes(byID, interfaces) && zones == set id | id in byID :: byID[id].zone
    ensures forall z :: z in zones <==> ZoneDeclared(interfaces, z)
  {
    forall z ensures z in zones <==> ZoneDeclared(interfaces, z) {
      if z in zones {
        var id :| id in byID && byID[id].zone == z;
        assert byID[id] in interfaces;
      }
      if ZoneDeclared(interfaces, z) {
        var i :| i in interfaces && i.zone == z;
        assert byID[i.id].zone == z;
      }
    }
  }

  /** Looks zones up among the declared interfaces in place of the source's set. */
  method CanonicalForwarding(input: seq<ForwardingIntent>, byID: map<string, InterfaceIntent>,
                             ghost interfaces: seq<InterfaceIntent>)
    returns (ok: bool, result: seq<ForwardingIntent>)
    requires Indexes(byID, interfaces)
    ensures ok <==> ForwardingOk(Seqs.Map(NormalForwarding, input), interfaces)
    ensures ok ==> Sorting.Orders(Seqs.Map(NormalForwarding, input), ForwardingLess)
                   && result == Sorting.SortBy(Seqs.Map(NormalForwarding, input), ForwardingLess)
  {
    ghost var all := Seqs.Map(NormalForwarding, input);
    ok, result := false, [];
    if |input| > MAX_FORWARDING { return; }
    var zones := set id | id in byID :: byID[id].zone;
    DeclaredByIndex(zones, byID, interfaces);
    var seen: set<(Zone, Zone)> := {};
    assert all[..0] == [];
    hide *;
    NoForwarding(interfaces);
    for k := 0 to |input|
      invariant !ok && result == all[..k] && ForwardingSoFar(all[..k], seen, interfaces)
    {
      var f := NormalForwarding(input[k]);
      NextForwarding(all, k, seen, interfaces, zones);
      if !Admits(f, zones, seen) {
        result := [];
        return;
      }
      seen := seen + {Direction(f)};
      result := result + [f];
    }
    assert all[..|all|] == all;
    AllForwarding(all, seen, interfaces);
    ForwardingOrders(result);
    result := Sorting.SortBy(result, ForwardingLess);
    ok := true;
  }

  /** Authorized between declared zones, in a direction not met before. */
  predicate Admits(f: ForwardingIntent, zones: set<Zone>, seen: set<(Zone, Zone)>)
  {
    Authorized(f) && f.source in zones && f.destination in zones && Direction(f) !in seen
  }

  ghost predicate ForwardingSoFar(s: seq<ForwardingIntent>, seen: set<(Zone, Zone)>, interfaces: seq<InterfaceIntent>)
  {
    (forall f | f in s :: ForwardingFits(f, interfaces)) && Sorting.SeenKeys(seen, s, Direction)
  }

  lemma NoForwarding(interfaces: seq<InterfaceIntent>)
    ensures ForwardingSoFar([], {}, interfaces)
  {
  }

  lemma NextForwarding(s: seq<ForwardingIntent>, k: nat, seen: set<(Zone, Zone)>, interfaces: seq<InterfaceIntent>,
                       zones: set<Zone>)
    requires k < |s| && ForwardingSoFar(s[..k], seen, interfaces)
    requires forall z :: z in zones <==> ZoneDeclared(interfaces, z)
    ensures if Admits(s[k], zones, seen) then
              ForwardingSoFar(s[..k + 1], seen + {Direction(s[k])}, interfaces)
            else !ForwardingOk(s, interfaces)
  {
    hide Authorized;
    hide ZoneDeclared;
    hide Direction;
    hide Sorting.SeenKeys;
    hide Sorting.DistinctKeys;
    assert s[k] in s && s[..k + 1] == s[..k] + [s[k]];
    Sorting.SeenNext(seen, s, Direction, k);
  }

  lemma AllForwarding(s: seq<ForwardingIntent>, seen: set<(Zone, Zone)>, interfaces: seq<InterfaceIntent>)
    requires ForwardingSoFar(s, seen, interfaces) && |s| <= MAX_FORWARDING
    ensures ForwardingOk(s, interfaces)
  {
    hide ForwardingFits;
    Sorting.SeenAll(seen, s, Direction);
  }

  method CanonicalProbes(input: seq<ConnectivityProbe>, byID: map<string, InterfaceIntent>,
                         ghost interfaces: seq<InterfaceIntent>)
    returns (ok: bool, result: seq<ConnectivityProbe>)
    requires Indexes(byID, interfaces)
    ensures ok <==> ProbesOk(Seqs.Map(NormalProbe, input), interfaces)
    ensures ok ==> result == Sorting.SortByKey(Seqs.Map(NormalProbe, input), ProbeID)
  {
    hide IsIdentifier;
    hide Text.Trim;
    hide Bound;
    hide ProbesSoFar;
    ghost var all := Seqs.Map(NormalProbe, input);
    ok, result := false, [];
    if |input| == 0 || |input| > MAX_PROBES { return; }
    var seen: set<string> := {};
    NoProbes(interfaces);
    for k := 0 to |input|
      invariant !ok && |result| == k && result == all[..k]
      invariant ProbesSoFar(result, seen, interfaces)
    {
      var probe := NormalProbe(input[k]);
      assert probe == all[k] && probe in all;
      BoundByIndex(probe, byID, interfaces);
      if !IsIdentifier(probe.id) || !IsIdentifier(probe.interfaceID) || probe.kind.UnknownKind? { return; }
      if probe.interfaceID !in byID || byID[probe.interfaceID].zone != probe.zone { return; }
      if probe.id in seen {
        var p := SeenProbe(result, seen, interfaces, probe.id);
        Sorting.RepeatSpoils(all, ProbeID, k, p);
        return;
      }
      NextProbe(result, seen, interfaces, probe);
      seen := seen + {probe.id};
      result := result + [probe];
    }
    assert result == all;
    AllProbes(result, seen, interfaces);
    result := Sorting.SortByKey(result, ProbeID);
    ok := true;
  }

  ghost predicate ProbesSoFar(result: seq<ConnectivityProbe>, seen: set<string>, interfaces: seq<InterfaceIntent>)
  {
    && (forall p | p in result :: ProbeOk(p, interfaces))
    && Sorting.DistinctKeys(result, ProbeID)
    && seen == (set p | p in result :: p.id)
  }

  lemma NoProbes(interfaces: seq<InterfaceIntent>)
    ensures ProbesSoFar([], {}, interfaces)
  {
  }

  lemma SeenProbe(result: seq<ConnectivityProbe>, seen: set<string>, interfaces: seq<InterfaceIntent>, id: string)
    returns (p: ConnectivityProbe)
    requires ProbesSoFar(result, seen, interfaces) && id in seen
    ensures p in result && ProbeID(p) == id
  {
    p :| p in result && p.id == id;
  }

  lemma NextProbe(result: seq<ConnectivityProbe>, seen: set<string>, interfaces: seq<InterfaceIntent>, p: ConnectivityProbe)
    requires ProbesSoFar(result, seen, interfaces) && ProbeOk(p, interfaces) && p.id !in seen
    ensures ProbesSoFar(result + [p], seen + {p.id}, interfaces)
  {
    hide ProbeOk;
    Sorting.DistinctSnoc(result, ProbeID, p);
  }

  lemma AllProbes(result: seq<ConnectivityProbe>, seen: set<string>, interfaces: seq<InterfaceIntent>)
    requires ProbesSoFar(result, seen, interfaces) && 1 <= |result| <= MAX_PROBES
    ensures ProbesOk(result, interfaces)
  {
  }

  lemma BoundByIndex(p: ConnectivityProbe, byID: map<string, InterfaceIntent>, interfaces: seq<InterfaceIntent>)
    requires Indexes(byID, interfaces)
    ensures Bound(p, interfaces) <==> p.interfaceID in byID && byID[p.interfaceID].zone == p.zone
  {
  }

  method ValidateProbeCoverage(interfaces: seq<InterfaceIntent>, probes: seq<ConnectivityProbe>) returns (ok: bool)
    ensures ok <==> CoverageOk(interfaces, probes)
  {
    var covered: set<string> := {};
    var managementPath := false;
    for k := 0 to |probes|
      invariant covered == set p | p in probes[..k] :: p.interfaceID
      invariant managementPath <==> exists p | p in probes[..k] :: OnManagementPath(p)
    {
      assert probes[..k + 1] == probes[..k] + [probes[k]];
      covered := covered + {probes[k].interfaceID};
      if OnManagementPath(probes[k]) { managementPath := true; }
    }
    assert probes[..|probes|] == probes;
    for k := 0 to |interfaces|
      invariant forall i | i in interfaces[..k] && i.changed :: Covered(i, probes)
    {
      assert interfaces[..k + 1] == interfaces[..k] + [interfaces[k]];
      assert interfaces[k] in interfaces;
      if interfaces[k].changed && interfaces[k].id !in covered { return false; }
    }
    assert interfaces[..|interfaces|] == interfaces;
    return managementPath;
  }

  datatype Built = Built(plan: Plan) | InvalidChangePlan

  method BuildChangePlan(request: Request) returns (r: Built)
    ensures r.Built? <==> WellFormed(request)
    ensures r.Built? ==> r.plan == Canonical(request) && IsCanonical(r.plan)
  {
    hide NormalOk;
    hide Sorting.SortBy;
    hide Text.Trim;
    ghost var normal := Normal(request);
    var nodeID, revisionID := Text.Trim(request.nodeID), Text.Trim(request.revisionID);
    var timeoutsOk := ValidateTimeouts(request.timeouts);
    var interfacesOk, interfaces, byID := CanonicalInterfaces(request.interfaces);
    if !IsIdentifier(nodeID) || !IsIdentifier(revisionID) || !timeoutsOk || !interfacesOk {
      NormalOkParts(normal);
      return InvalidChangePlan;
    }
    var forwardingOk, forwarding := CanonicalForwarding(request.forwarding, byID, normal.interfaces);
    var probesOk, probes := CanonicalProbes(request.probes, byID, normal.interfaces);
    var coverageOk := ValidateProbeCoverage(interfaces, probes);
    NormalOkParts(normal);
    if !forwardingOk || !probesOk { return InvalidChangePlan; }
    CoverageRearranged(normal.interfaces, interfaces, normal.probes, probes);
    if !coverageOk { return InvalidChangePlan; }
    assert Arranged(normal) == Request(nodeID, revisionID, interfaces, forwarding, probes, request.timeouts);
    r := Built(PlanOf(Request(nodeID, revisionID, interfaces, forwarding, probes, request.timeouts)));
    CanonicalIffBuilt(r.plan);
  }

  lemma NormalOkParts(r: Request)
    ensures NormalOk(r) <==>
            && IsIdentifier(r.nodeID) && IsIdentifier(r.revisionID) && TimeoutsOk(r.timeouts)
            && InterfacesOk(r.interfaces) && ForwardingOk(r.forwarding, r.interfaces)
            && ProbesOk(r.probes, r.interfaces) && CoverageOk(r.interfaces, r.probes)
  {
  }

  lemma CoverageRearranged(a: seq<InterfaceIntent>, b: seq<InterfaceIntent>,
                           p: seq<ConnectivityProbe>, q: seq<ConnectivityProbe>)
    requires multiset(a) == multiset(b) && multiset(p) == multiset(q)
    ensures CoverageOk(a, p) <==> CoverageOk(b, q)
  {
    Sorting.SameElements(a, b);
    Sorting.SameElements(p, q);
    assert forall i :: Covered(i, p) <==> Covered(i, q);
  }
}
