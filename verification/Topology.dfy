/** The scope tree with its sites and management zones
    (internal/corecontracts/topology.go). */
module Topology {
  import opened Metadata
  import ParentForest
  import Sorting
  import Text

  datatype ScopeKind = GlobalScope | ManagementScope | SiteScope | ResourceScope | UnknownScope(text: string)
  datatype Authority = RBAC | Policy | Configuration | DesiredState | Applications | UnknownAuthority(text: string)

  datatype Scope = Scope(id: string, kind: ScopeKind, name: string, parentID: string, delegated: seq<Authority>)
  datatype Site = Site(id: string, name: string, scopeID: string)
  datatype ManagementZone = ManagementZone(id: string, name: string, scopeID: string, siteID: string)

  /** The validated index. */
  datatype Topology = Topology(
    rootID: string, scopes: map<string, Scope>, sites: map<string, Site>, zones: map<string, ManagementZone>)

  function ScopeID(s: Scope): string { s.id }
  function SiteID(s: Site): string { s.id }
  function SiteScopeID(s: Site): string { s.scopeID }
  function ZoneID(z: ManagementZone): string { z.id }
  function Itself(a: Authority): Authority { a }

  // ----- what a well-formed topology is -----

  ghost predicate ScopeOk(s: Scope)
  {
    && IsIdentifier(s.id) && Text.IsDisplayName(s.name) && !s.kind.UnknownScope?
    && (if s.kind.GlobalScope? then s.parentID == "" && s.delegated == []
        else IsIdentifier(s.parentID) && s.parentID != s.id)
    && (forall a | a in s.delegated :: !a.UnknownAuthority?)
    && Sorting.DistinctKeys(s.delegated, Itself)
  }

  /** `index` maps exactly the keys of `s` to their elements. */
  ghost predicate IndexOf<T(!new)>(index: map<string, T>, s: seq<T>, key: T -> string)
  {
    && (forall x | x in s :: key(x) in index && index[key(x)] == x)
    && (forall k | k in index :: index[k] in s && key(index[k]) == k)
  }

  lemma IndexUnique<T(!new)>(a: map<string, T>, b: map<string, T>, s: seq<T>, t: seq<T>, key: T -> string)
    requires multiset(s) == multiset(t) && IndexOf(a, s, key) && IndexOf(b, t, key)
    ensures a == b
  {
    Sorting.SameElements(s, t);
    forall k | k in a ensures k in b && a[k] == b[k] { assert a[k] in t; }
    forall k | k in b ensures k in a { assert b[k] in s; }
  }

  function ParentsOf(scopes: map<string, Scope>): ParentForest.Parents
  {
    map id | id in scopes :: scopes[id].parentID
  }

  ghost predicate OneRoot(scopes: map<string, Scope>)
  {
    && (exists id :: IsRoot(scopes, id))
    && (forall a, b | IsRoot(scopes, a) && IsRoot(scopes, b) :: a == b)
  }

  predicate IsRoot(scopes: map<string, Scope>, id: string)
  {
    id in scopes && scopes[id].kind.GlobalScope?
  }

  /** One global scope, every parent known, every path up ends. */
  ghost predicate TreeOk(scopes: map<string, Scope>)
  {
    && OneRoot(scopes)
    && ParentForest.Rooted(ParentsOf(scopes))
  }

  ghost predicate SiteOk(s: Site, scopes: map<string, Scope>)
  {
    IsIdentifier(s.id) && Text.IsDisplayName(s.name) && s.scopeID in scopes && scopes[s.scopeID].kind.SiteScope?
  }

  ghost predicate ZoneOk(z: ManagementZone, scopes: map<string, Scope>, sites: map<string, Site>)
  {
    && IsIdentifier(z.id) && Text.IsDisplayName(z.name) && z.scopeID in scopes
    && (z.siteID == "" || (z.siteID in sites && ParentForest.Above(ParentsOf(scopes), sites[z.siteID].scopeID, z.scopeID)))
  }

  ghost predicate WellFormed(t: Topology, scopes: seq<Scope>, sites: seq<Site>, zones: seq<ManagementZone>)
  {
    && (forall s | s in scopes :: ScopeOk(s)) && Sorting.DistinctKeys(scopes, ScopeID)
    && IndexOf(t.scopes, scopes, ScopeID) && TreeOk(t.scopes)
    && IsRoot(t.scopes, t.rootID)
    && (forall s | s in sites :: SiteOk(s, t.scopes)) && Sorting.DistinctKeys(sites, SiteID)
    && Sorting.DistinctKeys(sites, SiteScopeID) && IndexOf(t.sites, sites, SiteID)
    && (forall z | z in zones :: ZoneOk(z, t.scopes, t.sites)) && Sorting.DistinctKeys(zones, ZoneID)
    && IndexOf(t.zones, zones, ZoneID)
  }

  /** The lists describe a topology. */
  ghost predicate Describes(scopes: seq<Scope>, sites: seq<Site>, zones: seq<ManagementZone>)
  {
    exists t :: WellFormed(t, scopes, sites, zones)
  }

  /** At most one topology fits, whatever order the lists come in. */
  lemma TopologyUnique(a: Topology, b: Topology, scopes: seq<Scope>, sites: seq<Site>, zones: seq<ManagementZone>,
                       scopes': seq<Scope>, sites': seq<Site>, zones': seq<ManagementZone>)
    requires multiset(scopes) == multiset(scopes') && multiset(sites) == multiset(sites') && multiset(zones) == multiset(zones')
    requires WellFormed(a, scopes, sites, zones) && WellFormed(b, scopes', sites', zones')
    ensures a == b
  {
    hide ScopeOk;
    hide SiteOk;
    hide ZoneOk;
    IndexUnique(a.scopes, b.scopes, scopes, scopes', ScopeID);
    IndexUnique(a.sites, b.sites, sites, sites', SiteID);
    IndexUnique(a.zones, b.zones, zones, zones', ZoneID);
  }

  lemma WellFormedPermuted(t: Topology, scopes: seq<Scope>, sites: seq<Site>, zones: seq<ManagementZone>,
                           scopes': seq<Scope>, sites': seq<Site>, zones': seq<ManagementZone>)
    requires multiset(scopes) == multiset(scopes') && multiset(sites) == multiset(sites') && multiset(zones) == multiset(zones')
    requires WellFormed(t, scopes, sites, zones)
    ensures WellFormed(t, scopes', sites', zones')
  {
    hide ScopeOk;
    hide SiteOk;
    hide ZoneOk;
    Sorting.SameElements(scopes, scopes');
    Sorting.SameElements(sites, sites');
    Sorting.SameElements(zones, zones');
    Sorting.DistinctPermuted(scopes, scopes', ScopeID);
    Sorting.DistinctPermuted(sites, sites', SiteID);
    Sorting.DistinctPermuted(sites, sites', SiteScopeID);
    Sorting.DistinctPermuted(zones, zones', ZoneID);
  }

  // ----- containment -----

  ghost predicate Accepted(t: Topology)
  {
    exists scopes, sites, zones :: WellFormed(t, scopes, sites, zones)
  }

  /** `descendant` is `ancestor` or nested under it. */
  ghost predicate Contains(t: Topology, ancestor: string, descendant: string)
  {
    descendant in t.scopes && ParentForest.Above(ParentsOf(t.scopes), ancestor, descendant)
  }

  predicate IsDelegated(t: Topology, scopeID: string, authority: Authority)
  {
    scopeID in t.scopes && authority in t.scopes[scopeID].delegated
  }

  /** Containment orders the scopes of an accepted topology as a tree: a partial
      order with the root on top in which any two scopes above a third are
      comparable. */
  lemma ContainmentIsTreeOrder(t: Topology, a: string, b: string, c: string)
    requires Accepted(t)
    ensures a in t.scopes ==> Contains(t, a, a) && Contains(t, t.rootID, a)
    ensures Contains(t, a, b) && Contains(t, b, a) ==> a == b
    ensures Contains(t, a, b) && Contains(t, b, c) ==> Contains(t, a, c)
    ensures Contains(t, a, c) && Contains(t, b, c) ==> Contains(t, a, b) || Contains(t, b, a)
  {
    AcceptedTree(t);
    var parents := ParentsOf(t.scopes);
    if a in t.scopes {
      ParentForest.AboveReflexive(parents, a);
      RootAbove(t, a);
    }
    if Contains(t, a, b) && Contains(t, b, a) { ParentForest.AboveAntisymmetric(parents, a, b); }
    if Contains(t, a, b) && Contains(t, b, c) { ParentForest.AboveTransitive(parents, a, b, c); }
    if Contains(t, a, c) && Contains(t, b, c) { ParentForest.AboveComparable(parents, a, b, c); }
  }

  lemma AcceptedTree(t: Topology)
    requires Accepted(t)
    ensures TreeOk(t.scopes) && IsRoot(t.scopes, t.rootID)
    ensures forall id | id in t.scopes :: ScopeOk(t.scopes[id]) && t.scopes[id].id == id
  {
    hide ScopeOk;
    hide SiteOk;
    hide ZoneOk;
    hide TreeOk;
  }

  lemma RootAbove(t: Topology, a: string)
    requires Accepted(t) && a in t.scopes
    ensures ParentForest.Above(ParentsOf(t.scopes), t.rootID, a)
  {
    AcceptedTree(t);
    hide Accepted;
    hide ScopeOk;
    hide ParentForest.Above;
    hide ParentForest.Rooted;
    var top := ParentForest.TopOf(ParentsOf(t.scopes), a);
    TopIsGlobal(t.scopes[top]);
    assert IsRoot(t.scopes, top);
  }

  lemma TopIsGlobal(s: Scope)
    requires ScopeOk(s) && s.parentID == ""
    ensures s.kind.GlobalScope?
  {
  }

  method ContainsScope(scopes: map<string, Scope>, ancestor: string, descendant: string) returns (found: bool)
    requires ParentForest.Rooted(ParentsOf(scopes))
    ensures found <==> descendant in scopes && ParentForest.Above(ParentsOf(scopes), ancestor, descendant)
  {
    if ancestor !in scopes || descendant !in scopes { return false; }
    found := ParentForest.WalkFinds(ParentsOf(scopes), ancestor, descendant);
  }

  // ----- building -----

  method ValidateScope(s: Scope) returns (ok: bool)
    ensures ok <==> ScopeOk(s)
  {
    hide IsIdentifier;
    hide Text.IsDisplayName;
    if !IsIdentifier(s.id) || !Text.IsDisplayName(s.name) || s.kind.UnknownScope? { return false; }
    if s.kind.GlobalScope? {
      if s.parentID != "" { return false; }
    } else if !IsIdentifier(s.parentID) || s.parentID == s.id {
      return false;
    }
    var seen: set<Authority> := {};
    for k := 0 to |s.delegated|
      invariant forall a | a in s.delegated[..k] :: !a.UnknownAuthority?
      invariant Sorting.DistinctKeys(s.delegated[..k], Itself)
      invariant seen == set a | a in s.delegated[..k]
    {
      var a := s.delegated[k];
      assert a in s.delegated && s.delegated[..k + 1] == s.delegated[..k] + [a];
      if a.UnknownAuthority? { return false; }
      if a in seen {
        Sorting.RepeatSpoils(s.delegated, Itself, k, a);
        return false;
      }
      Sorting.DistinctSnoc(s.delegated[..k], Itself, a);
      seen := seen + {a};
    }
    assert s.delegated[..|s.delegated|] == s.delegated;
    return !s.kind.GlobalScope? || |s.delegated| == 0;
  }

  lemma IndexGrows<T(!new)>(index: map<string, T>, s: seq<T>, key: T -> string, x: T)
    requires IndexOf(index, s, key) && key(x) !in index
    ensures IndexOf(index[key(x) := x], s + [x], key)
  {
  }

  /** The first loop: each scope sound, no identifier twice, one global scope. */
  method IndexScopes(scopes: seq<Scope>) returns (ok: bool, rootID: string, index: map<string, Scope>)
    ensures ok ==>
              && (forall s | s in scopes :: ScopeOk(s)) && Sorting.DistinctKeys(scopes, ScopeID)
              && IndexOf(index, scopes, ScopeID) && OneRoot(index) && IsRoot(index, rootID)
    ensures !ok ==>
              || (exists s :: s in scopes && !ScopeOk(s)) || !Sorting.DistinctKeys(scopes, ScopeID)
              || forall other :: IndexOf(other, scopes, ScopeID) ==> !OneRoot(other)
  {
    ok, rootID, index := false, "", map[];
    assert RootFound(index, rootID);
    hide ScopeOk;
    hide RootFound;
    hide OneRoot;
    for k := 0 to |scopes|
      invariant !ok
      invariant forall s | s in scopes[..k] :: ScopeOk(s)
      invariant Sorting.DistinctKeys(scopes[..k], ScopeID)
      invariant IndexOf(index, scopes[..k], ScopeID) && "" !in index
      invariant RootFound(index, rootID)
    {
      var scope := scopes[k];
      assert scope in scopes && scopes[..k + 1] == scopes[..k] + [scope];
      var scopeOk := ValidateScope(scope);
      if !scopeOk { return; }
      if scope.id in index {
        Sorting.RepeatSpoils(scopes, ScopeID, k, index[scope.id]);
        return;
      }
      if scope.kind.GlobalScope? {
        if rootID != "" {
          RootSettled(index, rootID);
          TwoRoots(scopes, index[rootID], scope);
          return;
        }
      }
      NamedScope(scope);
      RootNext(index, rootID, scope);
      if scope.kind.GlobalScope? { rootID := scope.id; }
      IndexGrows(index, scopes[..k], ScopeID, scope);
      Sorting.DistinctSnoc(scopes[..k], ScopeID, scope);
      index := index[scope.id := scope];
    }
    assert scopes[..|scopes|] == scopes;
    RootSettled(index, rootID);
    if rootID == "" {
      forall other | IndexOf(other, scopes, ScopeID) ensures !OneRoot(other) {
        IndexUnique(index, other, scopes, scopes, ScopeID);
      }
      return;
    }
    ok := true;
  }

  /** `rootID` is the only global scope so far, or "" while there is none. */
  ghost predicate RootFound(index: map<string, Scope>, rootID: string)
  {
    if rootID == "" then forall id | id in index :: !index[id].kind.GlobalScope?
    else IsRoot(index, rootID) && forall id | id in index && id != rootID :: !index[id].kind.GlobalScope?
  }

  lemma RootNext(index: map<string, Scope>, rootID: string, scope: Scope)
    requires RootFound(index, rootID) && scope.id !in index && scope.id != ""
    requires scope.kind.GlobalScope? ==> rootID == ""
    ensures RootFound(index[scope.id := scope], if scope.kind.GlobalScope? then scope.id else rootID)
  {
  }

  lemma RootSettled(index: map<string, Scope>, rootID: string)
    requires RootFound(index, rootID)
    ensures rootID == "" ==> !OneRoot(index)
    ensures rootID != "" ==> OneRoot(index) && IsRoot(index, rootID)
  {
  }

  lemma NamedScope(s: Scope)
    requires ScopeOk(s)
    ensures s.id != ""
  {
  }

  lemma TwoRoots(scopes: seq<Scope>, a: Scope, b: Scope)
    requires a in scopes && b in scopes && a.kind.GlobalScope? && b.kind.GlobalScope? && a.id != b.id
    ensures forall other :: IndexOf(other, scopes, ScopeID) ==> !OneRoot(other)
  {
    forall other | IndexOf(other, scopes, ScopeID) ensures !OneRoot(other) {
      assert IsRoot(other, a.id) && IsRoot(other, b.id);
    }
  }

  ghost predicate ScopesSound(index: map<string, Scope>)
  {
    forall id | id in index :: ScopeOk(index[id]) && index[id].id == id
  }

  /** The second and third loops, over the map in any order. */
  method CheckTree(index: map<string, Scope>) returns (ok: bool)
    requires ScopesSound(index)
    ensures ok <==> ParentForest.Rooted(ParentsOf(index))
  {
    hide ScopeOk;
    var ids := Sorting.RangeKeys(index.Keys);
    ListsKeys(ids, index);
    for k := 0 to |ids|
      invariant forall id | id in ids[..k] :: index[id].kind.GlobalScope? || index[id].parentID in index
    {
      assert ids[..k + 1] == ids[..k] + [ids[k]] && ids[k] in ids;
      if !index[ids[k]].kind.GlobalScope? && index[ids[k]].parentID !in index {
        OrphanUnrooted(index, ids[k]);
        return false;
      }
    }
    assert ids[..|ids|] == ids;
    ParentsKnown(index);
    for k := 0 to |ids|
      invariant forall id | id in ids[..k] :: ParentForest.Ends(ParentsOf(index), id)
    {
      assert ids[..k + 1] == ids[..k] + [ids[k]] && ids[k] in ids;
      var ends := ParentForest.WalkEnds(ParentsOf(index), ids[k]);
      if !ends { return false; }
    }
    assert ids[..|ids|] == ids;
    return true;
  }

  lemma ListsKeys<T>(ids: seq<string>, index: map<string, T>)
    requires multiset(ids) == multiset(index.Keys)
    ensures forall id :: id in ids <==> id in index
  {
    assert forall id :: id in ids <==> id in multiset(ids);
  }

  lemma OrphanUnrooted(index: map<string, Scope>, id: string)
    requires ScopesSound(index) && id in index && !index[id].kind.GlobalScope? && index[id].parentID !in index
    ensures !ParentForest.Rooted(ParentsOf(index))
  {
    assert ScopeOk(index[id]);
    assert ParentsOf(index)[id] == index[id].parentID;
  }

  lemma ParentsKnown(index: map<string, Scope>)
    requires ScopesSound(index)
    requires forall id | id in index :: index[id].kind.GlobalScope? || index[id].parentID in index
    ensures ParentForest.Closed(ParentsOf(index))
  {
    forall id | id in index ensures id != "" && (index[id].kind.GlobalScope? ==> index[id].parentID == "") {
      assert ScopeOk(index[id]);
    }
  }

  ghost predicate SitesOk(sites: seq<Site>, scopes: map<string, Scope>)
  {
    && (forall s | s in sites :: SiteOk(s, scopes)) && Sorting.DistinctKeys(sites, SiteID)
    && Sorting.DistinctKeys(sites, SiteScopeID)
  }

  method IndexSites(sites: seq<Site>, scopes: map<string, Scope>) returns (ok: bool, index: map<string, Site>)
    ensures ok <==> SitesOk(sites, scopes)
    ensures ok ==> IndexOf(index, sites, SiteID)
  {
    hide SiteOk;
    ok, index := false, map[];
    var siteByScope: map<string, Site> := map[];
    for k := 0 to |sites|
      invariant !ok
      invariant forall s | s in sites[..k] :: SiteOk(s, scopes)
      invariant Sorting.DistinctKeys(sites[..k], SiteID) && IndexOf(index, sites[..k], SiteID)
      invariant Sorting.DistinctKeys(sites[..k], SiteScopeID) && IndexOf(siteByScope, sites[..k], SiteScopeID)
    {
      var site := sites[k];
      assert site in sites && sites[..k + 1] == sites[..k] + [site];
      var siteOk := ValidateSite(site, scopes);
      if !siteOk { return; }
      if site.id in index {
        Sorting.RepeatSpoils(sites, SiteID, k, index[site.id]);
        return;
      }
      if site.scopeID in siteByScope {
        Sorting.RepeatSpoils(sites, SiteScopeID, k, siteByScope[site.scopeID]);
        return;
      }
      IndexGrows(index, sites[..k], SiteID, site);
      IndexGrows(siteByScope, sites[..k], SiteScopeID, site);
      Sorting.DistinctSnoc(sites[..k], SiteID, site);
      Sorting.DistinctSnoc(sites[..k], SiteScopeID, site);
      siteByScope := siteByScope[site.scopeID := site];
      index := index[site.id := site];
    }
    assert sites[..|sites|] == sites;
    ok := true;
  }

  method ValidateSite(s: Site, scopes: map<string, Scope>) returns (ok: bool)
    ensures ok <==> SiteOk(s, scopes)
  {
    ok := IsIdentifier(s.id) && Text.IsDisplayName(s.name) && s.scopeID in scopes && scopes[s.scopeID].kind.SiteScope?;
  }

  ghost predicate ZonesOk(zones: seq<ManagementZone>, scopes: map<string, Scope>, sites: map<string, Site>)
  {
    (forall z | z in zones :: ZoneOk(z, scopes, sites)) && Sorting.DistinctKeys(zones, ZoneID)
  }

  method IndexZones(zones: seq<ManagementZone>, scopes: map<string, Scope>, sites: map<string, Site>)
    returns (ok: bool, index: map<string, ManagementZone>)
    requires ParentForest.Rooted(ParentsOf(scopes))
    ensures ok <==> ZonesOk(zones, scopes, sites)
    ensures ok ==> IndexOf(index, zones, ZoneID)
  {
    hide ZoneOk;
    ok, index := false, map[];
    for k := 0 to |zones|
      invariant !ok
      invariant forall z | z in zones[..k] :: ZoneOk(z, scopes, sites)
      invariant Sorting.DistinctKeys(zones[..k], ZoneID) && IndexOf(index, zones[..k], ZoneID)
    {
      var zone := zones[k];
      assert zone in zones && zones[..k + 1] == zones[..k] + [zone];
      var zoneOk := ValidateManagementZone(zone, scopes, sites);
      if !zoneOk { return; }
      if zone.id in index {
        Sorting.RepeatSpoils(zones, ZoneID, k, index[zone.id]);
        return;
      }
      IndexGrows(index, zones[..k], ZoneID, zone);
      Sorting.DistinctSnoc(zones[..k], ZoneID, zone);
      index := index[zone.id := zone];
    }
    assert zones[..|zones|] == zones;
    ok := true;
  }

  method ValidateManagementZone(z: ManagementZone, scopes: map<string, Scope>, sites: map<string, Site>) returns (ok: bool)
    requires ParentForest.Rooted(ParentsOf(scopes))
    ensures ok <==> ZoneOk(z, scopes, sites)
  {
    if !IsIdentifier(z.id) || !Text.IsDisplayName(z.name) || z.scopeID !in scopes { return false; }
    if z.siteID == "" { return true; }
    if z.siteID !in sites { return false; }
    ok := ContainsScope(scopes, sites[z.siteID].scopeID, z.scopeID);
  }

  /** Accepts exactly the lists that describe a topology, and returns it. */
  method NewTopology(scopes: seq<Scope>, sites: seq<Site>, zones: seq<ManagementZone>) returns (ok: bool, t: Topology)
    ensures ok <==> Describes(scopes, sites, zones)
    ensures ok ==> WellFormed(t, scopes, sites, zones)
  {
    hide ScopeOk;
    hide SitesOk;
    hide ZonesOk;
    hide WellFormed;
    t := Topology("", map[], map[], map[]);
    var scopesOk, rootID, index := IndexScopes(scopes);
    if !scopesOk {
      forall other ensures !WellFormed(other, scopes, sites, zones) { WellFormedScopes(other, scopes, sites, zones); }
      return false, t;
    }
    assert ScopesSound(index);
    var treeOk := CheckTree(index);
    var sitesOk, siteIndex := IndexSites(sites, index);
    if !treeOk || !sitesOk {
      forall other ensures !WellFormed(other, scopes, sites, zones) {
        WellFormedSites(other, index, scopes, sites, zones);
      }
      return false, t;
    }
    var zonesOk, zoneIndex := IndexZones(zones, index, siteIndex);
    t := Topology(rootID, index, siteIndex, zoneIndex);
    if !zonesOk {
      forall other ensures !WellFormed(other, scopes, sites, zones) {
        WellFormedZones(other, index, siteIndex, scopes, sites, zones);
      }
      return false, t;
    }
    Assembled(t, scopes, sites, zones);
    DescribedBy(t, scopes, sites, zones);
    ok := true;
  }

  lemma Assembled(t: Topology, scopes: seq<Scope>, sites: seq<Site>, zones: seq<ManagementZone>)
    requires (forall s | s in scopes :: ScopeOk(s)) && Sorting.DistinctKeys(scopes, ScopeID)
    requires IndexOf(t.scopes, scopes, ScopeID) && TreeOk(t.scopes) && IsRoot(t.scopes, t.rootID)
    requires SitesOk(sites, t.scopes) && IndexOf(t.sites, sites, SiteID)
    requires ZonesOk(zones, t.scopes, t.sites) && IndexOf(t.zones, zones, ZoneID)
    ensures WellFormed(t, scopes, sites, zones)
  {
  }

  lemma DescribedBy(t: Topology, scopes: seq<Scope>, sites: seq<Site>, zones: seq<ManagementZone>)
    requires WellFormed(t, scopes, sites, zones)
    ensures Describes(scopes, sites, zones)
  {
    hide WellFormed;
  }

  lemma WellFormedScopes(t: Topology, scopes: seq<Scope>, sites: seq<Site>, zones: seq<ManagementZone>)
    ensures WellFormed(t, scopes, sites, zones) ==>
              && (forall s | s in scopes :: ScopeOk(s)) && Sorting.DistinctKeys(scopes, ScopeID)
              && IndexOf(t.scopes, scopes, ScopeID) && OneRoot(t.scopes)
  {
    hide ScopeOk;
    hide SiteOk;
    hide ZoneOk;
  }

  lemma WellFormedSites(t: Topology, index: map<string, Scope>,
                        scopes: seq<Scope>, sites: seq<Site>, zones: seq<ManagementZone>)
    requires IndexOf(index, scopes, ScopeID)
    ensures WellFormed(t, scopes, sites, zones) ==> ParentForest.Rooted(ParentsOf(index)) && SitesOk(sites, index)
  {
    hide ScopeOk;
    hide SiteOk;
    hide ZoneOk;
    if WellFormed(t, scopes, sites, zones) { IndexUnique(index, t.scopes, scopes, scopes, ScopeID); }
  }

  lemma WellFormedZones(t: Topology, index: map<string, Scope>, siteIndex: map<string, Site>,
                        scopes: seq<Scope>, sites: seq<Site>, zones: seq<ManagementZone>)
    requires IndexOf(index, scopes, ScopeID) && IndexOf(siteIndex, sites, SiteID)
    ensures WellFormed(t, scopes, sites, zones) ==> ZonesOk(zones, index, siteIndex)
  {
    hide ScopeOk;
    hide SiteOk;
    hide ZoneOk;
    if WellFormed(t, scopes, sites, zones) {
      IndexUnique(index, t.scopes, scopes, scopes, ScopeID);
      IndexUnique(siteIndex, t.sites, sites, sites, SiteID);
    }
  }
}
