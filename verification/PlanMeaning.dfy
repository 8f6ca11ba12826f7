/** Change plans said of the request as it was given: exactly which requests are
    planned, and what the plan holds (internal/networkpolicy/change_plan.go and
    policy.go). */
module PlanMeaning {
  import opened ChangePlan
  import Seqs
  import Sorting
  import Text

  function ZoneOf(z: Zone): Zone { Text.Upper(Text.Trim(z)) }

  predicate KnownZone(z: Zone)
  {
    ZoneOf(z) in {"WAN", "LAN", "MANAGEMENT", "DMZ", "CLUSTER", "STORAGE", "BACKUP"}
  }

  predicate Named(s: string) { Text.IsIdentifier(Text.Trim(s), 128, false) }

  // ----- what is asked of each part -----

  predicate InPhase(t: int) { 0 < t <= 900_000_000_000 }

  predicate TimeoutsListed(t: TimeoutPolicy)
  {
    InPhase(t.snapshot) && InPhase(t.preflight) && InPhase(t.applyWindow) && InPhase(t.probe) && InPhase(t.rollback) && t.probe <= t.applyWindow
  }

  ghost predicate InterfacesListed(s: seq<InterfaceIntent>)
  {
    && 1 <= |s| <= 64 && (forall i | i in s :: Named(i.id) && KnownZone(i.zone))
    && (forall i, j | 0 <= i < j < |s| :: Text.Trim(s[i].id) != Text.Trim(s[j].id)) && exists i | i in s :: i.changed
  }

  /** Some interface lies in the zone. */
  ghost predicate Declared(s: seq<InterfaceIntent>, z: Zone)
  {
    exists i | i in s :: ZoneOf(i.zone) == ZoneOf(z)
  }

  /** Within a zone, or enabled and, where the WAN is concerned, through a gateway. */
  predicate Allowed(f: ForwardingIntent)
  {
    || ZoneOf(f.source) == ZoneOf(f.destination)
    || (f.enabled && (f.edgeGateway || (ZoneOf(f.source) != "WAN" && ZoneOf(f.destination) != "WAN")))
  }

  ghost predicate ForwardingListed(s: seq<ForwardingIntent>, interfaces: seq<InterfaceIntent>)
  {
    && |s| <= 128
    && (forall f | f in s ::
          && KnownZone(f.source) && KnownZone(f.destination) && Allowed(f)
          && Declared(interfaces, f.source) && Declared(interfaces, f.destination))
    && forall i, j | 0 <= i < j < |s| :: ZoneOf(s[i].source) != ZoneOf(s[j].source) || ZoneOf(s[i].destination) != ZoneOf(s[j].destination)
  }

  /** The probe watches this interface. */
  predicate Watches(p: ConnectivityProbe, i: InterfaceIntent) { Text.Trim(p.interfaceID) == Text.Trim(i.id) }

  ghost predicate ProbesListed(s: seq<ConnectivityProbe>, interfaces: seq<InterfaceIntent>)
  {
    && 1 <= |s| <= 128
    && (forall p | p in s ::
          && Named(p.id) && Named(p.interfaceID) && !p.kind.UnknownKind?
          && exists i | i in interfaces :: Watches(p, i) && ZoneOf(p.zone) == ZoneOf(i.zone))
    && forall i, j | 0 <= i < j < |s| :: Text.Trim(s[i].id) != Text.Trim(s[j].id)
  }

  /** Changed interfaces are watched, and so is the way back to the control plane. */
  ghost predicate Watched(interfaces: seq<InterfaceIntent>, probes: seq<ConnectivityProbe>)
  {
    && (forall i | i in interfaces && i.changed :: exists p | p in probes :: Watches(p, i))
    && exists p | p in probes :: p.kind.ControlPlane? && (ZoneOf(p.zone) == "MANAGEMENT" || ZoneOf(p.zone) == "LAN")
  }

  ghost predicate Plannable(r: Request)
  {
    && Named(r.nodeID) && Named(r.revisionID) && TimeoutsListed(r.timeouts) && InterfacesListed(r.interfaces)
    && ForwardingListed(r.forwarding, r.interfaces) && ProbesListed(r.probes, r.interfaces) && Watched(r.interfaces, r.probes)
  }

  // ----- lists and their normal forms -----

  lemma Mapped<A, B>(f: A -> B, s: seq<A>, i: nat)
    requires i < |s|
    ensures |Seqs.Map(f, s)| == |s| && Seqs.Map(f, s)[i] == f(s[i]) && s[i] in s && f(s[i]) in Seqs.Map(f, s)
  {
    assert Seqs.Map(f, s)[i] in Seqs.Map(f, s);
  }

  lemma MappedFrom<A, B>(f: A -> B, s: seq<A>, y: B) returns (x: A)
    requires y in Seqs.Map(f, s)
    ensures x in s && f(x) == y
  {
    var t := Seqs.Map(f, s);
    var i :| 0 <= i < |t| && t[i] == y;
    x := s[i];
  }

  lemma MappedTo<A, B>(f: A -> B, s: seq<A>, x: A)
    requires x in s
    ensures f(x) in Seqs.Map(f, s)
  {
    var i :| 0 <= i < |s| && s[i] == x;
    Mapped(f, s, i);
  }

  lemma InterfacesIff(s: seq<InterfaceIntent>)
    ensures InterfacesOk(Seqs.Map(NormalInterface, s)) <==> InterfacesListed(s)
  {
    hide Text.Trim;
    hide Text.Upper;
    hide Text.IsIdentifier;
    var t := Seqs.Map(NormalInterface, s);
    if InterfacesOk(t) {
      forall i | i in s ensures Named(i.id) && KnownZone(i.zone) { MappedTo(NormalInterface, s, i); }
      forall i, j | 0 <= i < j < |s| ensures Text.Trim(s[i].id) != Text.Trim(s[j].id) {
        assert InterfaceID(t[i]) != InterfaceID(t[j]);
      }
      var x :| x in t && x.changed;
      var i := MappedFrom(NormalInterface, s, x);
    }
    if InterfacesListed(s) {
      forall x | x in t ensures IsIdentifier(x.id) && IsZone(x.zone) { var i := MappedFrom(NormalInterface, s, x); }
      var i :| i in s && i.changed;
      MappedTo(NormalInterface, s, i);
    }
  }

  lemma DeclaredIff(s: seq<InterfaceIntent>, z: Zone)
    ensures ZoneDeclared(Seqs.Map(NormalInterface, s), ZoneOf(z)) <==> Declared(s, z)
  {
    hide Text.Trim;
    hide Text.Upper;
    var t := Seqs.Map(NormalInterface, s);
    if ZoneDeclared(t, ZoneOf(z)) {
      var x :| x in t && x.zone == ZoneOf(z);
      var i := MappedFrom(NormalInterface, s, x);
    }
    if Declared(s, z) {
      var i :| i in s && ZoneOf(i.zone) == ZoneOf(z);
      MappedTo(NormalInterface, s, i);
    }
  }

  lemma AllowedIff(f: ForwardingIntent)
    ensures Authorized(NormalForwarding(f)) <==> KnownZone(f.source) && KnownZone(f.destination) && Allowed(f)
  {
    hide Text.Trim;
    hide Text.Upper;
  }

  lemma FitsIff(f: ForwardingIntent, interfaces: seq<InterfaceIntent>)
    ensures ForwardingFits(NormalForwarding(f), Seqs.Map(NormalInterface, interfaces)) <==>
            && KnownZone(f.source) && KnownZone(f.destination) && Allowed(f)
            && Declared(interfaces, f.source) && Declared(interfaces, f.destination)
  {
    AllowedIff(f);
    DeclaredIff(interfaces, f.source);
    DeclaredIff(interfaces, f.destination);
    hide Authorized;
    hide Declared;
    hide ZoneDeclared;
    hide Text.Trim;
    hide Text.Upper;
  }

  lemma ForwardingIff(s: seq<ForwardingIntent>, interfaces: seq<InterfaceIntent>)
    ensures ForwardingOk(Seqs.Map(NormalForwarding, s), Seqs.Map(NormalInterface, interfaces)) <==>
            ForwardingListed(s, interfaces)
  {
    hide Text.Trim;
    hide Text.Upper;
    hide Declared;
    hide Allowed;
    hide KnownZone;
    hide ForwardingFits;
    var t, u := Seqs.Map(NormalForwarding, s), Seqs.Map(NormalInterface, interfaces);
    if ForwardingOk(t, u) {
      forall f | f in s
        ensures KnownZone(f.source) && KnownZone(f.destination) && Allowed(f)
        ensures Declared(interfaces, f.source) && Declared(interfaces, f.destination)
      {
        MappedTo(NormalForwarding, s, f);
        FitsIff(f, interfaces);
      }
      forall i, j | 0 <= i < j < |s|
        ensures ZoneOf(s[i].source) != ZoneOf(s[j].source) || ZoneOf(s[i].destination) != ZoneOf(s[j].destination)
      {
        assert Direction(t[i]) != Direction(t[j]);
      }
    }
    if ForwardingListed(s, interfaces) {
      forall x | x in t ensures ForwardingFits(x, u) {
        var f := MappedFrom(NormalForwarding, s, x);
        FitsIff(f, interfaces);
      }
      forall i, j | 0 <= i < j < |t| ensures Direction(t[i]) != Direction(t[j]) {}
    }
  }

  lemma BoundIff(p: ConnectivityProbe, interfaces: seq<InterfaceIntent>)
    ensures Bound(NormalProbe(p), Seqs.Map(NormalInterface, interfaces)) <==>
            exists i | i in interfaces :: Watches(p, i) && ZoneOf(p.zone) == ZoneOf(i.zone)
  {
    hide Text.Trim;
    hide Text.Upper;
    var t := Seqs.Map(NormalInterface, interfaces);
    if Bound(NormalProbe(p), t) {
      var x :| x in t && x.id == NormalProbe(p).interfaceID && x.zone == NormalProbe(p).zone;
      var i := MappedFrom(NormalInterface, interfaces, x);
    }
    if i :| i in interfaces && Watches(p, i) && ZoneOf(p.zone) == ZoneOf(i.zone) {
      MappedTo(NormalInterface, interfaces, i);
    }
  }

  lemma ProbesIff(s: seq<ConnectivityProbe>, interfaces: seq<InterfaceIntent>)
    ensures ProbesOk(Seqs.Map(NormalProbe, s), Seqs.Map(NormalInterface, interfaces)) <==> ProbesListed(s, interfaces)
  {
    hide Text.Trim;
    hide Text.Upper;
    hide Text.IsIdentifier;
    hide Bound;
    hide Watches;
    var t, u := Seqs.Map(NormalProbe, s), Seqs.Map(NormalInterface, interfaces);
    if ProbesOk(t, u) {
      forall p | p in s
        ensures Named(p.id) && Named(p.interfaceID) && !p.kind.UnknownKind?
        ensures exists i | i in interfaces :: Watches(p, i) && ZoneOf(p.zone) == ZoneOf(i.zone)
      {
        MappedTo(NormalProbe, s, p);
        assert ProbeOk(NormalProbe(p), u);
        BoundIff(p, interfaces);
      }
      forall i, j | 0 <= i < j < |s| ensures Text.Trim(s[i].id) != Text.Trim(s[j].id) { assert ProbeID(t[i]) != ProbeID(t[j]); }
    }
    if ProbesListed(s, interfaces) {
      forall x | x in t ensures ProbeOk(x, u) {
        var p := MappedFrom(NormalProbe, s, x);
        BoundIff(p, interfaces);
      }
      forall i, j | 0 <= i < j < |t| ensures ProbeID(t[i]) != ProbeID(t[j]) {}
    }
  }

  lemma WatchedIff(interfaces: seq<InterfaceIntent>, probes: seq<ConnectivityProbe>)
    ensures CoverageOk(Seqs.Map(NormalInterface, interfaces), Seqs.Map(NormalProbe, probes)) <==> Watched(interfaces, probes)
  {
    hide Text.Trim;
    hide Text.Upper;
    var u, t := Seqs.Map(NormalInterface, interfaces), Seqs.Map(NormalProbe, probes);
    if CoverageOk(u, t) {
      forall i | i in interfaces && i.changed ensures exists p | p in probes :: Watches(p, i) {
        MappedTo(NormalInterface, interfaces, i);
        assert Covered(NormalInterface(i), t);
        var x :| x in t && x.interfaceID == NormalInterface(i).id;
        var p := MappedFrom(NormalProbe, probes, x);
      }
      var y :| y in t && OnManagementPath(y);
      var q := MappedFrom(NormalProbe, probes, y);
    }
    if Watched(interfaces, probes) {
      forall x | x in u && x.changed ensures Covered(x, t) {
        var i := MappedFrom(NormalInterface, interfaces, x);
        var p :| p in probes && Watches(p, i);
        MappedTo(NormalProbe, probes, p);
      }
      var q :| q in probes && q.kind.ControlPlane? && (ZoneOf(q.zone) == "MANAGEMENT" || ZoneOf(q.zone) == "LAN");
      MappedTo(NormalProbe, probes, q);
    }
  }

  lemma TimeoutsIff(t: TimeoutPolicy)
    ensures TimeoutsOk(t) <==> TimeoutsListed(t)
  {
  }

  /** A request is planned exactly when it is plannable as it was given. */
  lemma PlannedIff(r: Request)
    ensures WellFormed(r) <==> Plannable(r)
  {
    hide Text.Trim;
    hide Text.IsIdentifier;
    hide InterfacesOk;
    hide ForwardingOk;
    hide ProbesOk;
    hide CoverageOk;
    hide TimeoutsOk;
    hide InterfacesListed;
    hide ForwardingListed;
    hide ProbesListed;
    hide Watched;
    hide TimeoutsListed;
    InterfacesIff(r.interfaces);
    ForwardingIff(r.forwarding, r.interfaces);
    ProbesIff(r.probes, r.interfaces);
    WatchedIff(r.interfaces, r.probes);
    TimeoutsIff(r.timeouts);
  }

  // ----- what the plan holds -----

  /** A list holds exactly the cleaned elements of another. */
  ghost predicate HoldsCleaned<A(!new), B(!new)>(clean: A -> B, listed: seq<A>, planned: seq<B>)
  {
    && |planned| == |listed| && (forall x | x in listed :: clean(x) in planned)
    && forall y | y in planned :: exists x | x in listed :: clean(x) == y
  }

  function CleanInterface(i: InterfaceIntent): InterfaceIntent { InterfaceIntent(Text.Trim(i.id), ZoneOf(i.zone), i.changed) }
  function CleanForwarding(f: ForwardingIntent): ForwardingIntent
  {
    ForwardingIntent(ZoneOf(f.source), ZoneOf(f.destination), f.enabled, f.edgeGateway)
  }
  function CleanProbe(p: ConnectivityProbe): ConnectivityProbe
  {
    ConnectivityProbe(Text.Trim(p.id), p.kind, Text.Trim(p.interfaceID), ZoneOf(p.zone))
  }

  lemma HoldsMapped<A(!new), B(!new)>(clean: A -> B, listed: seq<A>, planned: seq<B>, f: A -> B)
    requires multiset(planned) == multiset(Seqs.Map(f, listed)) && forall x :: f(x) == clean(x)
    ensures HoldsCleaned(clean, listed, planned)
  {
    Sorting.SameElements(planned, Seqs.Map(f, listed));
    forall x | x in listed ensures clean(x) in planned { MappedTo(f, listed, x); }
    forall y | y in planned ensures exists x | x in listed :: clean(x) == y { var x := MappedFrom(f, listed, y); }
  }

  /** The seven steps: snapshot first, decision last. */
  predicate Steps(steps: seq<ChangeStep>)
  {
    && |steps| == 7 && (forall k | 0 <= k < 7 :: steps[k].order == k + 1)
    && steps[0] == ChangeStep(1, SnapshotStage, CaptureRecoverySnapshot)
    && steps[1].stage == steps[2].stage == steps[3].stage == PreflightStage
    && steps[1].action == ValidateNetworkContract && steps[2].action == ValidateManagementPath
    && steps[3].action == Action.AuthorizeForwarding && steps[4] == ChangeStep(5, ApplyWindowStage, OpenTemporaryWindow)
    && steps[5] == ChangeStep(6, ProbeStage, RunConnectivityProbes) && steps[6] == ChangeStep(7, DecisionStage, CommitOrRollback)
  }

  /** The plan of a request: its parts cleaned and in order, forwarding denied by
      default, and the fixed steps. */
  ghost predicate Plans(b: Body, r: Request)
  {
    && Header(b, r) && HoldsCleaned(CleanForwarding, r.forwarding, b.forwarding)
    && HoldsCleaned(CleanInterface, r.interfaces, b.interfaces) && HoldsCleaned(CleanProbe, r.probes, b.probes)
    && (forall i, j | 0 <= i < j < |b.interfaces| :: Text.Less(b.interfaces[i].id, b.interfaces[j].id))
    && (forall i, j | 0 <= i < j < |b.probes| :: Text.Less(b.probes[i].id, b.probes[j].id))
  }

  predicate Header(b: Body, r: Request)
  {
    && b.schemaVersion == "network.change.plan/v1" && b.nodeID == Text.Trim(r.nodeID) && b.revisionID == Text.Trim(r.revisionID)
    && b.timeouts == r.timeouts && b.forwardingDefaultDeny && Steps(b.steps)
  }

  lemma Ascends<T(!new)>(s: seq<T>, key: T -> string)
    requires Sorting.SortedBy(s, Sorting.KeyLess(key)) && Sorting.DistinctKeys(s, key)
    ensures forall i, j | 0 <= i < j < |s| :: Text.Less(key(s[i]), key(s[j]))
  {
    forall i, j | 0 <= i < j < |s| ensures Text.Less(key(s[i]), key(s[j])) {
      assert !Sorting.KeyLess(key)(s[j], s[i]) && key(s[i]) != key(s[j]);
      Text.LessTotal(key(s[i]), key(s[j]));
    }
  }

  lemma InterfacesPlanned(r: Request)
    requires WellFormed(r)
    ensures var s := Sorting.SortByKey(Normal(r).interfaces, InterfaceID);
            HoldsCleaned(CleanInterface, r.interfaces, s) && forall i, j | 0 <= i < j < |s| :: Text.Less(s[i].id, s[j].id)
  {
    hide Text.Trim;
    hide Text.Upper;
    hide Text.Less;
    var n := Normal(r).interfaces;
    var s := Sorting.SortByKey(n, InterfaceID);
    assert Sorting.DistinctKeys(n, InterfaceID);
    hide NormalOk;
    Sorting.DistinctPermuted(n, s, InterfaceID);
    Ascends(s, InterfaceID);
    HoldsMapped(CleanInterface, r.interfaces, s, NormalInterface);
  }

  lemma ProbesPlanned(r: Request)
    requires WellFormed(r)
    ensures var s := Sorting.SortByKey(Normal(r).probes, ProbeID);
            HoldsCleaned(CleanProbe, r.probes, s) && forall i, j | 0 <= i < j < |s| :: Text.Less(s[i].id, s[j].id)
  {
    hide Text.Trim;
    hide Text.Upper;
    hide Text.Less;
    var n := Normal(r).probes;
    var s := Sorting.SortByKey(n, ProbeID);
    assert Sorting.DistinctKeys(n, ProbeID);
    hide NormalOk;
    Sorting.DistinctPermuted(n, s, ProbeID);
    Ascends(s, ProbeID);
    HoldsMapped(CleanProbe, r.probes, s, NormalProbe);
  }

  lemma ForwardingPlanned(r: Request)
    ensures Sorting.Orders(Normal(r).forwarding, ForwardingLess)
    ensures HoldsCleaned(CleanForwarding, r.forwarding, Sorting.SortBy(Normal(r).forwarding, ForwardingLess))
  {
    hide Text.Trim;
    hide Text.Upper;
    ForwardingOrders(Normal(r).forwarding);
    hide ForwardingLess;
    HoldsMapped(CleanForwarding, r.forwarding, Sorting.SortBy(Normal(r).forwarding, ForwardingLess), NormalForwarding);
  }

  lemma CanonicalParts(r: Request)
    requires WellFormed(r)
    ensures Sorting.Orders(Normal(r).forwarding, ForwardingLess)
    ensures var b := Canonical(r).body;
            && Header(b, r) && b.interfaces == Sorting.SortByKey(Normal(r).interfaces, InterfaceID)
            && b.forwarding == Sorting.SortBy(Normal(r).forwarding, ForwardingLess)
            && b.probes == Sorting.SortByKey(Normal(r).probes, ProbeID)
    ensures Canonical(r).planID == Sha256Of(Canonical(r).body)
  {
    ForwardingOrders(Normal(r).forwarding);
    hide WellFormed;
    hide Text.Trim;
    hide ForwardingLess;
    hide NormalInterface;
    hide NormalForwarding;
    hide NormalProbe;
    hide Sorting.SortByKey;
    hide Sorting.SortBy;
  }

  /** What the canonical plan of an accepted request holds; its identity is that of
      this content and no other. */
  lemma PlanHolds(r: Request)
    requires WellFormed(r)
    ensures Plans(Canonical(r).body, r) && Canonical(r).planID == Sha256Of(Canonical(r).body)
  {
    hide *;
    CanonicalParts(r);
    InterfacesPlanned(r);
    ProbesPlanned(r);
    ForwardingPlanned(r);
    PlansFrom(Canonical(r).body, r);
  }

  lemma PlansFrom(b: Body, r: Request)
    requires Header(b, r) && HoldsCleaned(CleanForwarding, r.forwarding, b.forwarding)
    requires HoldsCleaned(CleanInterface, r.interfaces, b.interfaces) && HoldsCleaned(CleanProbe, r.probes, b.probes)
    requires forall i, j | 0 <= i < j < |b.interfaces| :: Text.Less(b.interfaces[i].id, b.interfaces[j].id)
    requires forall i, j | 0 <= i < j < |b.probes| :: Text.Less(b.probes[i].id, b.probes[j].id)
    ensures Plans(b, r)
  {
    hide Header;
    hide HoldsCleaned;
    hide Text.Less;
  }
}
