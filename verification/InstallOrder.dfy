/** Market module install order (internal/market/dependencies.go): a
    three-colour depth-first search over the declared dependencies. */
module InstallOrder {
  import Text
  import Seqs
  import Sorting

  datatype Module = Module(name: string, dependsOn: seq<string>)

  datatype Outcome =
    | Installed(order: seq<string>)
    | MissingName
    | DuplicateModule(name: string)
    | UnknownDependency(name: string, dependency: string)
    | DependencyCycle(name: string)

  /** Trimmed module name to the dependency names as written. */
  type Graph = map<string, seq<string>>

  // ----- what the graph means -----

  function NameOf(m: Module): string
  {
    Text.Trim(m.name)
  }

  ghost predicate NamesOk(modules: seq<Module>)
  {
    && (forall m | m in modules :: NameOf(m) != "")
    && Sorting.DistinctKeys(modules, NameOf)
  }

  function GraphOf(modules: seq<Module>): Graph
  {
    if modules == [] then map[]
    else
      var last := modules[|modules| - 1];
      GraphOf(modules[..|modules| - 1])[NameOf(last) := last.dependsOn]
  }

  ghost predicate DependsOn(g: Graph, a: string, b: string)
  {
    a in g && exists d | d in g[a] :: Text.Trim(d) == b
  }

  ghost predicate AllKnown(g: Graph)
  {
    forall a, d | a in g && d in g[a] :: Text.Trim(d) in g
  }

  ghost predicate IsPath(g: Graph, p: seq<string>)
  {
    forall i | 0 <= i < |p| - 1 :: DependsOn(g, p[i], p[i + 1])
  }

  /** A path of at least one dependency that comes back to where it began. */
  ghost predicate IsCycle(g: Graph, p: seq<string>)
  {
    |p| >= 2 && IsPath(g, p) && p[0] == p[|p| - 1]
  }

  ghost predicate Acyclic(g: Graph)
  {
    forall p :: !IsCycle(g, p)
  }

  ghost predicate NoRepeats(s: seq<string>)
  {
    forall i, j | 0 <= i < j < |s| :: s[i] != s[j]
  }

  /** Everything a listed module depends on is listed before it. */
  ghost predicate DependenciesFirst(g: Graph, order: seq<string>)
  {
    forall i, b | 0 <= i < |order| && DependsOn(g, order[i], b) :: b in order[..i]
  }

  ghost predicate IsInstallOrder(g: Graph, order: seq<string>)
  {
    && NoRepeats(order)
    && (forall a :: a in order <==> a in g)
    && DependenciesFirst(g, order)
  }

  // ----- the search -----

  /** A module absent from the state map has not been reached yet. */
  datatype Colour = Visiting | Visited

  datatype Search = Search(state: map<string, Colour>, order: seq<string>)
  datatype Progress = Ok(search: Search) | CycleAt(name: string)

  /** The dependencies of a module in the order they are visited: sorted as
      written, then trimmed. */
  function Dependencies(g: Graph, name: string): (r: seq<string>)
    requires name in g
  {
    Sorting.StringOrder(g[name]);
    var sorted := Sorting.SortBy(g[name], Text.Less);
    seq(|sorted|, i requires 0 <= i < |sorted| => Text.Trim(sorted[i]))
  }

  lemma DependenciesAre(g: Graph, name: string)
    requires name in g
    ensures forall b :: b in Dependencies(g, name) <==> DependsOn(g, name, b)
  {
    hide Text.Trim;
    hide Sorting.SortBy;
    hide Sorting.SortedBy;
    hide Sorting.Orders;
    hide Sorting.Separates;
    Sorting.StringOrder(g[name]);
    var sorted := Sorting.SortBy(g[name], Text.Less);
    Sorting.SameElements(sorted, g[name]);
    forall b | DependsOn(g, name, b) ensures b in Dependencies(g, name) {
      var d :| d in g[name] && Text.Trim(d) == b;
      assert d in sorted;
      var i :| 0 <= i < |sorted| && sorted[i] == d;
      assert Dependencies(g, name)[i] == b;
    }
  }

  lemma DependenciesKnown(g: Graph, name: string)
    requires AllKnown(g) && name in g
    ensures forall n | n in Dependencies(g, name) :: n in g
  {
    DependenciesAre(g, name);
  }

  function Explore(g: Graph, s: Search, name: string): (r: Progress)
    requires AllKnown(g) && name in g
    ensures r.Ok? ==> s.state.Keys <= r.search.state.Keys
    decreases |g.Keys - s.state.Keys|, 0
  {
    if name in s.state then
      if s.state[name].Visiting? then CycleAt(name) else Ok(s)
    else
      var entered := s.(state := s.state[name := Visiting]);
      EntryShrinks(g, s, name);
      DependenciesKnown(g, name);
      match ExploreAll(g, entered, Dependencies(g, name))
      case CycleAt(at) => CycleAt(at)
      case Ok(t) => Ok(Search(t.state[name := Visited], t.order + [name]))
  }

  function ExploreAll(g: Graph, s: Search, names: seq<string>): (r: Progress)
    requires AllKnown(g) && forall n | n in names :: n in g
    ensures r.Ok? ==> s.state.Keys <= r.search.state.Keys
    decreases |g.Keys - s.state.Keys|, |names|
  {
    if names == [] then Ok(s)
    else
      match Explore(g, s, names[0])
      case CycleAt(at) => CycleAt(at)
      case Ok(t) =>
        Seqs.SubsetCount(g.Keys - t.state.Keys, g.Keys - s.state.Keys);
        ExploreAll(g, t, names[1..])
  }

  lemma EntryShrinks(g: Graph, s: Search, name: string)
    requires name in g && name !in s.state
    ensures |g.Keys - s.state[name := Visiting].Keys| < |g.Keys - s.state.Keys|
  {
    assert g.Keys - s.state[name := Visiting].Keys == (g.Keys - s.state.Keys) - {name};
  }

  // ----- soundness of the search -----

  /** `path` lists the modules being visited, outermost first; the order lists
      the finished ones. */
  ghost predicate Consistent(g: Graph, s: Search, path: seq<string>)
  {
    && s.state.Keys <= g.Keys
    && NoRepeats(path) && IsPath(g, path)
    && (forall a :: a in path <==> a in s.state && s.state[a].Visiting?)
    && NoRepeats(s.order) && DependenciesFirst(g, s.order)
    && (forall a :: a in s.order <==> a in s.state && s.state[a].Visited?)
  }

  ghost predicate ReachedFrom(g: Graph, path: seq<string>, name: string)
  {
    path == [] || DependsOn(g, path[|path| - 1], name)
  }

  ghost predicate CycleThrough(g: Graph, name: string)
  {
    exists p :: IsCycle(g, p) && p[0] == name
  }

  /** Meeting a module that is still being visited closes a cycle. */
  lemma ClosesCycle(g: Graph, s: Search, path: seq<string>, name: string)
    requires Consistent(g, s, path) && ReachedFrom(g, path, name)
    requires name in s.state && s.state[name].Visiting?
    ensures CycleThrough(g, name)
  {
    var i :| 0 <= i < |path| && path[i] == name;
    var p := path[i..] + [name];
    forall k | 0 <= k < |p| - 1 ensures DependsOn(g, p[k], p[k + 1]) {
      if k + 1 < |path| - i {
        assert DependsOn(g, path[i + k], path[i + k + 1]);
      }
    }
    assert IsCycle(g, p) && p[0] == name;
  }

  lemma VisitedIsOrdered(g: Graph, s: Search, path: seq<string>, name: string)
    requires Consistent(g, s, path) && name in s.state && s.state[name].Visited?
    ensures name in s.order
  {
  }

  lemma EnterKeepsConsistent(g: Graph, s: Search, name: string, path: seq<string>)
    requires Consistent(g, s, path) && name in g && name !in s.state && ReachedFrom(g, path, name)
    ensures Consistent(g, s.(state := s.state[name := Visiting]), path + [name])
  {
    var inner := path + [name];
    forall i | 0 <= i < |inner| - 1 ensures DependsOn(g, inner[i], inner[i + 1]) {
      if i + 1 < |path| { assert DependsOn(g, path[i], path[i + 1]); }
    }
  }

  lemma LeaveKeepsConsistent(g: Graph, t: Search, name: string, path: seq<string>)
    requires Consistent(g, t, path + [name])
    requires forall b | DependsOn(g, name, b) :: b in t.order
    ensures Consistent(g, Search(t.state[name := Visited], t.order + [name]), path)
  {
    var inner := path + [name];
    assert inner[|path|] == name && name in inner;
    forall i | 0 <= i < |path| - 1 ensures DependsOn(g, path[i], path[i + 1]) {
      assert DependsOn(g, inner[i], inner[i + 1]);
    }
    forall i, j | 0 <= i < j < |path| ensures path[i] != path[j] {
      assert inner[i] != inner[j];
    }
    forall a ensures a in path <==> a in inner && a != name {
      if a in path {
        var i :| 0 <= i < |path| && path[i] == a;
        assert inner[i] != inner[|path|];
      }
    }
    var order := t.order + [name];
    forall i, b | 0 <= i < |order| && DependsOn(g, order[i], b) ensures b in order[..i] {
      if i < |t.order| {
        assert t.order[i] == order[i] && order[..i] == t.order[..i];
      } else {
        assert order[..i] == t.order;
      }
    }
  }

  lemma {:induction false} ExploreSound(g: Graph, s: Search, name: string, path: seq<string>)
    requires AllKnown(g) && name in g && Consistent(g, s, path) && ReachedFrom(g, path, name)
    ensures match Explore(g, s, name)
            case Ok(t) => Consistent(g, t, path) && s.order <= t.order && name in t.order
            case CycleAt(at) => CycleThrough(g, at)
    decreases |g.Keys - s.state.Keys|, 0
  {
    hide Consistent;
    if name in s.state {
      if s.state[name].Visiting? {
        ClosesCycle(g, s, path, name);
      } else {
        VisitedIsOrdered(g, s, path, name);
      }
    } else {
      var entered := s.(state := s.state[name := Visiting]);
      EntryShrinks(g, s, name);
      DependenciesAre(g, name);
      EnterKeepsConsistent(g, s, name, path);
      ExploreAllSound(g, entered, Dependencies(g, name), path + [name]);
      if ExploreAll(g, entered, Dependencies(g, name)).Ok? {
        var t := ExploreAll(g, entered, Dependencies(g, name)).search;
        LeaveKeepsConsistent(g, t, name, path);
        assert s.order <= t.order + [name];
      }
    }
  }

  lemma OrderedAlong(s: seq<string>, t: seq<string>, u: seq<string>, names: seq<string>)
    requires s <= t <= u && names != [] && names[0] in t && forall n | n in names[1..] :: n in u
    ensures s <= u && forall n | n in names :: n in u
  {
    assert u[..|t|] == t;
    forall n | n in names ensures n in u { assert n == names[0] || n in names[1..]; }
  }

  lemma {:induction false} ExploreAllSound(g: Graph, s: Search, names: seq<string>, path: seq<string>)
    requires AllKnown(g) && Consistent(g, s, path)
    requires forall n | n in names :: n in g && ReachedFrom(g, path, n)
    ensures match ExploreAll(g, s, names)
            case Ok(t) => Consistent(g, t, path) && s.order <= t.order && forall n | n in names :: n in t.order
            case CycleAt(at) => CycleThrough(g, at)
    decreases |g.Keys - s.state.Keys|, |names|
  {
    hide Consistent;
    hide CycleThrough;
    hide ReachedFrom;
    hide AllKnown;
    if names != [] {
      ExploreSound(g, s, names[0], path);
      if Explore(g, s, names[0]).Ok? {
        var t := Explore(g, s, names[0]).search;
        Seqs.SubsetCount(g.Keys - t.state.Keys, g.Keys - s.state.Keys);
        assert forall n | n in names[1..] :: n in names;
        ExploreAllSound(g, t, names[1..], path);
        if ExploreAll(g, t, names[1..]).Ok? {
          OrderedAlong(s.order, t.order, ExploreAll(g, t, names[1..]).search.order, names);
        }
      }
    }
  }

  // ----- the whole resolution -----

  /** The search from every module, in ascending name order. */
  ghost function Resolution(g: Graph): Progress
    requires AllKnown(g)
  {
    Sorting.AscendingListed(g.Keys);
    ExploreAll(g, Search(map[], []), Sorting.Ascending(g.Keys))
  }

  /** An install order leaves no room for a cycle: along a cycle positions
      would have to fall for ever. */
  lemma OrderExcludesCycles(g: Graph, order: seq<string>)
    requires IsInstallOrder(g, order)
    ensures Acyclic(g)
  {
    forall p ensures !IsCycle(g, p) {
      if IsCycle(g, p) {
        assert DependsOn(g, p[0], p[1]);
        var i :| 0 <= i < |order| && order[i] == p[0];
        var k := PositionsFall(g, order, p, i);
      }
    }
  }

  lemma {:induction false} PositionsFall(g: Graph, order: seq<string>, p: seq<string>, i: nat) returns (k: nat)
    requires IsInstallOrder(g, order) && |p| >= 2 && IsPath(g, p)
    requires i < |order| && order[i] == p[0]
    ensures k < i && order[k] == p[|p| - 1]
  {
    assert DependsOn(g, p[0], p[1]) && p[1] in order[..i];
    var j :| 0 <= j < i && order[j] == p[1];
    if |p| == 2 {
      k := j;
    } else {
      forall n | 0 <= n < |p[1..]| - 1 ensures DependsOn(g, p[1..][n], p[1..][n + 1]) {
        assert DependsOn(g, p[n + 1], p[n + 2]);
      }
      k := PositionsFall(g, order, p[1..], j);
    }
  }

  /** The search finds an order exactly when there is one to find. */
  lemma ResolutionComplete(g: Graph)
    requires AllKnown(g)
    ensures match Resolution(g)
            case Ok(t) => IsInstallOrder(g, t.order) && Acyclic(g)
            case CycleAt(at) => CycleThrough(g, at) && !Acyclic(g)
  {
    Sorting.AscendingListed(g.Keys);
    ExploreAllSound(g, Search(map[], []), Sorting.Ascending(g.Keys), []);
    if Resolution(g).Ok? {
      OrderExcludesCycles(g, Resolution(g).search.order);
    }
  }

  /** The recursive closure and the two variables it updates. */
  class Resolver {
    const graph: Graph
    var state: map<string, Colour>
    var order: seq<string>

    constructor (g: Graph)
      ensures graph == g && Progressed() == Search(map[], [])
    {
      graph, state, order := g, map[], [];
    }

    ghost function Progressed(): Search
      reads this
    {
      Search(state, order)
    }

    /** Returns the name at which a cycle was met, if any. */
    method Visit(name: string) returns (ok: bool, at: string)
      requires AllKnown(graph) && name in graph
      modifies this
      ensures Explore(graph, old(Progressed()), name) == if ok then Ok(Progressed()) else CycleAt(at)
      decreases |graph.Keys - state.Keys|
    {
      hide AllKnown;
      hide Dependencies;
      at := name;
      if name in state {
        return state[name].Visited?, name;
      }
      EntryShrinks(graph, Progressed(), name);
      DependenciesKnown(graph, name);
      state := state[name := Visiting];
      var dependencies := Dependencies(graph, name);
      ghost var entered := Progressed();
      var i := 0;
      while i < |dependencies|
        invariant i <= |dependencies|
        invariant entered.state.Keys <= state.Keys
        invariant ExploreAll(graph, entered, dependencies) == ExploreAll(graph, Progressed(), dependencies[i..])
      {
        Seqs.SubsetCount(graph.Keys - state.Keys, graph.Keys - entered.state.Keys);
        ok, at := Visit(dependencies[i]);
        if !ok { return; }
        assert dependencies[i..][1..] == dependencies[i + 1..];
        i := i + 1;
      }
      state := state[name := Visited];
      order := order + [name];
      ok := true;
    }
  }

  lemma GraphKeys(modules: seq<Module>)
    ensures forall a :: a in GraphOf(modules) <==> exists m | m in modules :: NameOf(m) == a
  {
    if modules != [] {
      var front, last := modules[..|modules| - 1], modules[|modules| - 1];
      GraphKeys(front);
      assert modules == front + [last];
    }
  }

  method Index(modules: seq<Module>) returns (byName: Graph, r: Outcome)
    ensures r.Installed? ==> NamesOk(modules) && byName == GraphOf(modules)
    ensures !r.Installed? ==> (r.MissingName? || r.DuplicateModule?) && !NamesOk(modules)
  {
    byName, r := map[], Installed([]);
    assert modules[..0] == [] && NamesOk([]) && GraphOf([]) == map[];
    hide *;
    var i := 0;
    while i < |modules|
      invariant i <= |modules| && r.Installed?
      invariant NamesOk(modules[..i]) && byName == GraphOf(modules[..i])
    {
      var name := NameOf(modules[i]);
      NameDecides(modules, i);
      if name == "" { return byName, MissingName; }
      if name in byName { return byName, DuplicateModule(name); }
      byName := byName[name := modules[i].dependsOn];
      i := i + 1;
    }
    assert modules[..i] == modules;
  }

  /** A new, non-empty name extends the graph; any other spoils the names. */
  lemma NameDecides(modules: seq<Module>, i: nat)
    requires i < |modules| && NamesOk(modules[..i])
    ensures var name := NameOf(modules[i]);
            if name == "" || name in GraphOf(modules[..i]) then !NamesOk(modules)
            else NamesOk(modules[..i + 1]) && GraphOf(modules[..i + 1]) == GraphOf(modules[..i])[name := modules[i].dependsOn]
  {
    hide NameOf;
    var name := NameOf(modules[i]);
    GraphKeys(modules[..i]);
    assert modules[i] in modules && modules[..i + 1] == modules[..i] + [modules[i]];
    if name == "" {
    } else if name in GraphOf(modules[..i]) {
      var m :| m in modules[..i] && NameOf(m) == name;
      Sorting.RepeatSpoils(modules, NameOf, i, m);
    } else {
      assert modules[..i + 1][..i] == modules[..i];
      Sorting.DistinctSnoc(modules[..i], NameOf, modules[i]);
    }
  }

  /** Looks for a dependency outside the graph, in whatever order the map is ranged. */
  method FindUnknown(byName: Graph) returns (found: bool, name: string, dependency: string)
    ensures found <==> !AllKnown(byName)
    ensures found ==> name in byName && dependency !in byName && DependsOn(byName, name, dependency)
  {
    found, name, dependency := false, "", "";
    var rest := byName.Keys;
    while rest != {}
      invariant rest <= byName.Keys
      invariant forall a, d | a in byName && a !in rest && d in byName[a] :: Text.Trim(d) in byName
    {
      name :| name in rest;
      var i := 0;
      while i < |byName[name]|
        invariant i <= |byName[name]|
        invariant forall d | d in byName[name][..i] :: Text.Trim(d) in byName
      {
        dependency := Text.Trim(byName[name][i]);
        if dependency !in byName {
          return true, name, dependency;
        }
        i := i + 1;
      }
      rest := rest - {name};
    }
  }

  method VisitEvery(byName: Graph) returns (ok: bool, at: string, order: seq<string>)
    requires AllKnown(byName)
    ensures ok ==> Resolution(byName).Ok? && Resolution(byName).search.order == order
    ensures !ok ==> Resolution(byName) == CycleAt(at)
  {
    hide AllKnown;
    at, order := "", [];
    var resolver := new Resolver(byName);
    var names := Sorting.SortedKeys(byName.Keys);
    Sorting.AscendingListed(byName.Keys);
    var i := 0;
    while i < |names|
      invariant i <= |names|
      invariant Resolution(byName) == ExploreAll(byName, resolver.Progressed(), names[i..])
    {
      assert names[i..][0] == names[i] && names[i..][1..] == names[i + 1..];
      ok, at := resolver.Visit(names[i]);
      if !ok { return; }
      i := i + 1;
    }
    ok, order := true, resolver.order;
  }

  method ResolveInstallOrder(modules: seq<Module>) returns (r: Outcome)
    ensures r.Installed? <==>
            NamesOk(modules) && AllKnown(GraphOf(modules)) && Acyclic(GraphOf(modules))
    ensures r.Installed? ==> IsInstallOrder(GraphOf(modules), r.order)
    ensures r.Installed? ==> Resolution(GraphOf(modules)).Ok? && r.order == Resolution(GraphOf(modules)).search.order
    ensures r.DependencyCycle? ==> NamesOk(modules) && CycleThrough(GraphOf(modules), r.name)
    ensures r.UnknownDependency? ==>
              && r.dependency !in GraphOf(modules)
              && DependsOn(GraphOf(modules), r.name, r.dependency)
    ensures r.MissingName? || r.DuplicateModule? ==> !NamesOk(modules)
  {
    hide AllKnown;
    hide Acyclic;
    hide NamesOk;
    hide IsInstallOrder;
    hide CycleThrough;
    hide DependsOn;
    var byName;
    byName, r := Index(modules);
    if !r.Installed? { return; }
    var unknown, name, dependency := FindUnknown(byName);
    if unknown { return UnknownDependency(name, dependency); }

    ResolutionComplete(byName);
    var ok, at, order := VisitEvery(byName);
    r := if ok then Installed(order) else DependencyCycle(at);
  }

  // ----- determinism -----

  /** The order in which the modules are listed does not reach the graph, hence
      neither the verdict nor the install order. */
  lemma GraphIgnoresListing(a: seq<Module>, b: seq<Module>)
    requires multiset(a) == multiset(b) && NamesOk(a)
    ensures NamesOk(b) && GraphOf(a) == GraphOf(b)
  {
    Sorting.SameElements(a, b);
    Sorting.DistinctPermuted(a, b, NameOf);
    GraphKeys(a);
    GraphKeys(b);
    forall k | k in GraphOf(a) ensures k in GraphOf(b) && GraphOf(a)[k] == GraphOf(b)[k] {
      var m :| m in a && NameOf(m) == k;
      GraphValue(a, m);
      GraphValue(b, m);
    }
  }

  lemma {:induction false} GraphValue(modules: seq<Module>, m: Module)
    requires NamesOk(modules) && m in modules
    ensures NameOf(m) in GraphOf(modules) && GraphOf(modules)[NameOf(m)] == m.dependsOn
  {
    var n := |modules| - 1;
    var front := modules[..n];
    assert modules == front + [modules[n]];
    if m != modules[n] {
      assert NamesOk(front);
      GraphValue(front, m);
      var k :| 0 <= k < n && modules[k] == m;
      assert NameOf(modules[k]) != NameOf(modules[n]);
    }
  }

  // ----- the same, said of the modules as they are listed -----

  /** `a` lists `b` among its dependencies. */
  ghost predicate Requires(a: Module, b: Module)
  {
    exists d | d in a.dependsOn :: Text.Trim(d) == Text.Trim(b.name)
  }

  ghost predicate EveryDependencyListed(modules: seq<Module>)
  {
    forall m, d | m in modules && d in m.dependsOn :: exists n | n in modules :: Text.Trim(n.name) == Text.Trim(d)
  }

  /** Modules each of which requires the next, the last requiring the first. */
  ghost predicate ModuleCycle(modules: seq<Module>, ring: seq<Module>)
  {
    && ring != [] && (forall m | m in ring :: m in modules)
    && (forall i | 0 <= i < |ring| - 1 :: Requires(ring[i], ring[i + 1])) && Requires(ring[|ring| - 1], ring[0])
  }

  /** Every module once, each after all it requires. */
  ghost predicate OrdersModules(modules: seq<Module>, order: seq<string>)
  {
    && NoRepeats(order) && (forall a | a in order :: exists m | m in modules :: Text.Trim(m.name) == a)
    && (forall m | m in modules :: Text.Trim(m.name) in order)
    && forall m, d, i | m in modules && d in m.dependsOn && 0 <= i < |order| && order[i] == Text.Trim(m.name) ::
         Text.Trim(d) in order[..i]
  }

  lemma Named(modules: seq<Module>, a: string) returns (m: Module)
    requires NamesOk(modules) && a in GraphOf(modules)
    ensures m in modules && Text.Trim(m.name) == a && GraphOf(modules)[a] == m.dependsOn
  {
    hide Text.Trim;
    GraphKeys(modules);
    m :| m in modules && NameOf(m) == a;
    GraphValue(modules, m);
  }

  lemma Listed(modules: seq<Module>, m: Module)
    requires NamesOk(modules) && m in modules
    ensures Text.Trim(m.name) in GraphOf(modules) && GraphOf(modules)[Text.Trim(m.name)] == m.dependsOn
  {
    hide Text.Trim;
    GraphValue(modules, m);
  }

  lemma KnownMeans(modules: seq<Module>)
    requires NamesOk(modules)
    ensures AllKnown(GraphOf(modules)) <==> EveryDependencyListed(modules)
  {
    hide Text.Trim;
    hide GraphOf;
    hide NamesOk;
    var g := GraphOf(modules);
    if AllKnown(g) {
      forall m, d | m in modules && d in m.dependsOn ensures exists n | n in modules :: Text.Trim(n.name) == Text.Trim(d) {
        Listed(modules, m);
        var n := Named(modules, Text.Trim(d));
      }
    }
    if EveryDependencyListed(modules) {
      forall a, d | a in g && d in g[a] ensures Text.Trim(d) in g {
        var m := Named(modules, a);
        var n :| n in modules && Text.Trim(n.name) == Text.Trim(d);
        Listed(modules, n);
      }
    }
  }

  lemma RequiresIs(modules: seq<Module>, m: Module, b: string)
    requires NamesOk(modules) && m in modules
    ensures DependsOn(GraphOf(modules), Text.Trim(m.name), b) <==> exists d | d in m.dependsOn :: Text.Trim(d) == b
  {
    hide Text.Trim;
    hide GraphOf;
    hide NamesOk;
    Listed(modules, m);
  }

  /** Every install order of the graph orders the modules, and the other way round. */
  lemma OrderMeans(modules: seq<Module>, order: seq<string>)
    requires NamesOk(modules)
    ensures IsInstallOrder(GraphOf(modules), order) <==> OrdersModules(modules, order)
  {
    hide Text.Trim;
    hide GraphOf;
    hide NamesOk;
    hide NoRepeats;
    hide DependsOn;
    var g := GraphOf(modules);
    if IsInstallOrder(g, order) {
      forall a | a in order ensures exists m | m in modules :: Text.Trim(m.name) == a { var m := Named(modules, a); }
      forall m | m in modules ensures Text.Trim(m.name) in order { Listed(modules, m); }
      forall m, d, i | m in modules && d in m.dependsOn && 0 <= i < |order| && order[i] == Text.Trim(m.name)
        ensures Text.Trim(d) in order[..i]
      {
        RequiresIs(modules, m, Text.Trim(d));
      }
    }
    if OrdersModules(modules, order) {
      forall a | a in g ensures a in order { var m := Named(modules, a); }
      forall a | a in order ensures a in g {
        var m :| m in modules && Text.Trim(m.name) == a;
        Listed(modules, m);
      }
      forall i, b | 0 <= i < |order| && DependsOn(g, order[i], b) ensures b in order[..i] {
        assert order[i] in order;
        var m :| m in modules && Text.Trim(m.name) == order[i];
        RequiresIs(modules, m, b);
        var d :| d in m.dependsOn && Text.Trim(d) == b;
      }
    }
  }

  /** A cycle of names is a ring of modules that starts at the named one. */
  lemma CycleMeans(modules: seq<Module>, p: seq<string>) returns (ring: seq<Module>)
    requires NamesOk(modules) && IsCycle(GraphOf(modules), p)
    ensures ModuleCycle(modules, ring) && Text.Trim(ring[0].name) == p[0]
  {
    hide Text.Trim;
    hide GraphOf;
    hide NamesOk;
    var n := |p| - 1;
    ring := [];
    for k := 0 to n
      invariant |ring| == k && forall i | 0 <= i < k :: ring[i] in modules && Text.Trim(ring[i].name) == p[i]
    {
      assert DependsOn(GraphOf(modules), p[k], p[k + 1]);
      var m := Named(modules, p[k]);
      ring := ring + [m];
    }
    forall i | 0 <= i < n ensures Requires(ring[i], ring[if i + 1 < n then i + 1 else 0]) {
      assert DependsOn(GraphOf(modules), p[i], p[i + 1]);
      RequiresIs(modules, ring[i], p[i + 1]);
      assert Text.Trim(ring[if i + 1 < n then i + 1 else 0].name) == p[i + 1];
    }
  }

  lemma RingIsCycle(modules: seq<Module>, ring: seq<Module>)
    requires NamesOk(modules) && ModuleCycle(modules, ring)
    ensures !Acyclic(GraphOf(modules))
  {
    hide Text.Trim;
    hide GraphOf;
    hide NamesOk;
    var n := |ring|;
    var p := seq(n + 1, i requires 0 <= i <= n => Text.Trim(ring[if i < n then i else 0].name));
    forall i | 0 <= i < n ensures DependsOn(GraphOf(modules), p[i], p[i + 1]) {
      var next := ring[if i + 1 < n then i + 1 else 0];
      assert ring[i] in ring && Requires(ring[i], next);
      RequiresIs(modules, ring[i], Text.Trim(next.name));
    }
    CycleRefutes(GraphOf(modules), p);
  }

  lemma CycleRefutes(g: Graph, p: seq<string>)
    requires IsCycle(g, p)
    ensures !Acyclic(g)
  {
  }

  /** The names form no cycle exactly when the modules form no ring. */
  lemma AcyclicMeans(modules: seq<Module>)
    requires NamesOk(modules)
    ensures Acyclic(GraphOf(modules)) <==> forall ring :: !ModuleCycle(modules, ring)
  {
    hide GraphOf;
    hide NamesOk;
    hide IsCycle;
    hide ModuleCycle;
    if !Acyclic(GraphOf(modules)) {
      var p :| IsCycle(GraphOf(modules), p);
      var ring := CycleMeans(modules, p);
    }
    forall ring | ModuleCycle(modules, ring) ensures !Acyclic(GraphOf(modules)) { RingIsCycle(modules, ring); }
  }

  /** The result in terms of the modules. */
  lemma ResolutionMeans(modules: seq<Module>)
    requires NamesOk(modules)
    ensures AllKnown(GraphOf(modules)) && Acyclic(GraphOf(modules)) <==>
            EveryDependencyListed(modules) && forall ring :: !ModuleCycle(modules, ring)
    ensures AllKnown(GraphOf(modules)) && Resolution(GraphOf(modules)).Ok? ==>
              OrdersModules(modules, Resolution(GraphOf(modules)).search.order)
    ensures AllKnown(GraphOf(modules)) && Resolution(GraphOf(modules)).CycleAt? ==>
              exists ring: seq<Module> :: ModuleCycle(modules, ring) && Text.Trim(ring[0].name) == Resolution(GraphOf(modules)).name
  {
    hide *;
    KnownMeans(modules);
    AcyclicMeans(modules);
    var g := GraphOf(modules);
    if AllKnown(g) {
      ResolutionComplete(g);
      if Resolution(g).Ok? {
        OrderMeans(modules, Resolution(g).search.order);
      } else {
        var p := SomeCycle(g, Resolution(g).name);
        var ring := CycleMeans(modules, p);
        RingBegins(modules, ring);
      }
    }
  }

  lemma SomeCycle(g: Graph, name: string) returns (p: seq<string>)
    requires CycleThrough(g, name)
    ensures IsCycle(g, p) && |p| >= 2 && p[0] == name
  {
    p :| IsCycle(g, p) && p[0] == name;
  }

  lemma RingBegins(modules: seq<Module>, ring: seq<Module>)
    requires ModuleCycle(modules, ring)
    ensures ring != []
  {
  }
}
