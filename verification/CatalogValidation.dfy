/** Validation of the user's service catalog by a depth-first search with `visiting` and `visited` sets,
    and the parser that admits a new entry. */
module CatalogValidation {
  import opened Wrappers
  import opened Text
  import opened ServiceGraph
  import opened ServiceCatalog
  import opened ServiceExpansion

  function Custom(builtin: string -> bool, services: seq<string>): (r: seq<string>)
    ensures forall s :: s in r <==> s in services && !builtin(s)
  {
    if services == [] then []
    else if builtin(services[0]) then Custom(builtin, services[1..])
    else [services[0]] + Custom(builtin, services[1..])
  }

  /** The test that exempts built-in services from validation. */
  function BuiltinTest(presets: Catalog): string -> bool {
    name => IsBuiltin(presets, name)
  }

  /** The includes validation follows: every one that is not a built-in preset. */
  function IncludeGraph(builtin: string -> bool, catalog: Catalog): Graph {
    map name | name in catalog :: Custom(builtin, catalog[name].services)
  }

  ghost predicate SoundEntry(builtin: string -> bool, catalog: Catalog, name: string)
    requires name in catalog
  {
    forall d :: d in catalog[name].services ==> d != name && (builtin(d) || d in catalog)
  }

  ghost predicate ValidFor(builtin: string -> bool, catalog: Catalog) {
    (forall name :: name in catalog ==> SoundEntry(builtin, catalog, name)) &&
    Acyclic(IncludeGraph(builtin, catalog))
  }

  /** Every include that is not built in exists, nothing includes itself, and the includes form no cycle. */
  ghost predicate ValidCatalog(presets: Catalog, catalog: Catalog) {
    ValidFor(BuiltinTest(presets), catalog)
  }

  /** What `visited` certifies: sound entries, closed under includes, on no cycle. */
  ghost predicate Cleared(builtin: string -> bool, catalog: Catalog, nodes: set<string>) {
    var g := IncludeGraph(builtin, catalog);
    && nodes <= catalog.Keys
    && (forall name {:trigger SoundEntry(builtin, catalog, name)} ::
          name in nodes ==> SoundEntry(builtin, catalog, name))
    && Closed(g, nodes)
    && (forall name {:trigger Leads(g, name, name)} :: name in nodes ==> !Leads(g, name, name))
  }

  lemma ClearedExtend(builtin: string -> bool, catalog: Catalog, nodes: set<string>, name: string)
    requires Cleared(builtin, catalog, nodes) && name in catalog && name !in nodes
    requires name !in catalog[name].services
    requires forall d :: d in catalog[name].services ==> d in nodes || builtin(d)
    ensures Cleared(builtin, catalog, nodes + {name})
  {
    var g := IncludeGraph(builtin, catalog);
    if Leads(g, name, name) {
      var p :| IsPath(g, p) && |p| > 1 && p[0] == name && p[|p| - 1] == name;
      assert Edge(g, p[0], p[1]);
      PathTail(g, p, 1);
      ClosedKeepsPaths(g, nodes, p[1..], |p| - 2);
      assert false;
    }
  }

  lemma ClearedIsValid(builtin: string -> bool, catalog: Catalog)
    requires Cleared(builtin, catalog, catalog.Keys)
    ensures ValidFor(builtin, catalog)
  {
    var g := IncludeGraph(builtin, catalog);
    forall a ensures !Leads(g, a, a) {
      if a !in catalog { NoSuccessorNoPath(g, a); }
    }
  }

  lemma NoSuccessorNoPath(g: Graph, a: string)
    requires a !in g
    ensures !Leads(g, a, a)
  {
    forall p | |p| > 1 && p[0] == a ensures !IsPath(g, p) {
      assert !Edge(g, p[0], p[1]);
    }
  }

  /** Names on the path to `name` also lead to what `name` includes. */
  lemma PathExtends(g: Graph, path: set<string>, name: string, dependency: string)
    requires name in g && dependency in g[name]
    requires forall v :: v in path && v != name ==> Leads(g, v, name)
    ensures forall v :: v in path ==> Leads(g, v, dependency)
  {
    forall v | v in path ensures Leads(g, v, dependency) {
      if v == name { LeadsEdge(g, name, dependency); } else { LeadsSnoc(g, v, name, dependency); }
    }
  }

  /** An unsound entry, or one on a cycle. */
  ghost predicate IsFlaw(builtin: string -> bool, catalog: Catalog, name: string) {
    (name in catalog && !SoundEntry(builtin, catalog, name)) || Leads(IncludeGraph(builtin, catalog), name, name)
  }

  /** The entry or something it includes, directly or not, is a flaw. */
  ghost predicate Flawed(builtin: string -> bool, catalog: Catalog, name: string) {
    || IsFlaw(builtin, catalog, name)
    || exists x :: Leads(IncludeGraph(builtin, catalog), name, x) && IsFlaw(builtin, catalog, x)
  }

  lemma FlawedIsInvalid(builtin: string -> bool, catalog: Catalog, name: string)
    requires Flawed(builtin, catalog, name)
    ensures !ValidFor(builtin, catalog)
  {
  }

  lemma UnsoundInclude(builtin: string -> bool, catalog: Catalog, name: string, dependency: string)
    requires name in catalog && dependency in catalog[name].services
    requires dependency == name || (!builtin(dependency) && dependency !in catalog)
    ensures Flawed(builtin, catalog, name)
  {
    assert !SoundEntry(builtin, catalog, name);
  }

  lemma FlawedInclude(builtin: string -> bool, catalog: Catalog, name: string, dependency: string)
    requires name in catalog && dependency in IncludeGraph(builtin, catalog)[name]
    requires Flawed(builtin, catalog, dependency)
    ensures Flawed(builtin, catalog, name)
  {
    var g := IncludeGraph(builtin, catalog);
    LeadsEdge(g, name, dependency);
    if !IsFlaw(builtin, catalog, dependency) {
      var x :| Leads(g, dependency, x) && IsFlaw(builtin, catalog, x);
      LeadsCons(g, name, dependency, x);
    }
  }

  lemma ClearedIsNotFlawed(builtin: string -> bool, catalog: Catalog, nodes: set<string>, name: string)
    requires Cleared(builtin, catalog, nodes) && name in nodes
    ensures !Flawed(builtin, catalog, name)
  {
    var g := IncludeGraph(builtin, catalog);
    forall x | Leads(g, name, x) ensures !IsFlaw(builtin, catalog, x) {
      var p :| IsPath(g, p) && |p| > 1 && p[0] == name && p[|p| - 1] == x;
      ClosedKeepsPaths(g, nodes, p, |p| - 1);
    }
  }

  class Validator {
    var visiting: set<string>
    var visited: set<string>

    constructor ()
      ensures visiting == {} && visited == {}
    {
      visiting, visited := {}, {};
    }

    /** Every name on the current path leads to `name`. */
    ghost predicate OnPath(builtin: string -> bool, catalog: Catalog, name: string)
      reads this
    {
      && visiting <= catalog.Keys
      && visited !! visiting
      && Cleared(builtin, catalog, visited)
      && forall v :: v in visiting ==> Leads(IncludeGraph(builtin, catalog), v, name)
    }

    method ValidateDependencies(builtin: string -> bool, catalog: Catalog, name: string) returns (ok: bool)
      requires OnPath(builtin, catalog, name)
      requires name in catalog
      modifies this
      ensures visiting == old(visiting)
      ensures ok ==> name in visited && old(visited) <= visited
      ensures ok ==> visited !! visiting && Cleared(builtin, catalog, visited)
      ensures ok <==> !Flawed(builtin, catalog, name)
      decreases catalog.Keys - visiting, 0
    {
      if name in visited {
        ClearedIsNotFlawed(builtin, catalog, visited, name);
        return true;
      }
      if name in visiting {
        return false;
      }
      assert name in catalog.Keys - visiting;
      visiting := visiting + {name};
      ok := ValidateIncludes(builtin, catalog, name);
      visiting := visiting - {name};
      if ok {
        ClearedExtend(builtin, catalog, visited, name);
        visited := visited + {name};
        ClearedIsNotFlawed(builtin, catalog, visited, name);
      }
    }

    /** The loop over the includes of `name`, which is the end of the current path. */
    method ValidateIncludes(builtin: string -> bool, catalog: Catalog, name: string) returns (ok: bool)
      requires name in catalog && name in visiting && visiting <= catalog.Keys
      requires visited !! visiting && Cleared(builtin, catalog, visited)
      requires forall v :: v in visiting && v != name ==> Leads(IncludeGraph(builtin, catalog), v, name)
      modifies this
      ensures visiting == old(visiting)
      ensures ok ==> old(visited) <= visited && visited !! visiting && Cleared(builtin, catalog, visited)
      ensures ok ==> name !in catalog[name].services
      ensures ok ==> forall d :: d in catalog[name].services ==> d in visited || builtin(d)
      ensures !ok ==> Flawed(builtin, catalog, name)
      decreases catalog.Keys - visiting, 1
    {
      var services := catalog[name].services;
      for i := 0 to |services|
        invariant visiting == old(visiting)
        invariant old(visited) <= visited && visited !! visiting && Cleared(builtin, catalog, visited)
        invariant forall j :: 0 <= j < i ==> services[j] != name
        invariant forall j :: 0 <= j < i ==> services[j] in visited || builtin(services[j])
      {
        var dependency := services[i];
        if dependency == name {
          UnsoundInclude(builtin, catalog, name, dependency);
          return false;
        }
        if builtin(dependency) {
          continue;
        }
        if dependency !in catalog {
          UnsoundInclude(builtin, catalog, name, dependency);
          return false;
        }
        PathExtends(IncludeGraph(builtin, catalog), visiting, name, dependency);
        ok := ValidateDependencies(builtin, catalog, dependency);
        if !ok {
          FlawedInclude(builtin, catalog, name, dependency);
          return;
        }
      }
      ok := true;
    }
  }

  /** Acceptance is exactly validity, in whatever order the catalog's names are taken. */
  method ValidateCatalog(presets: Catalog, catalog: Catalog) returns (ok: bool)
    ensures ok <==> ValidCatalog(presets, catalog)
  {
    var builtin := BuiltinTest(presets);
    var v := new Validator();
    var rest := catalog.Keys;
    while rest != {}
      invariant rest <= catalog.Keys
      invariant v.visiting == {} && Cleared(builtin, catalog, v.visited) && catalog.Keys - rest <= v.visited
      decreases rest
    {
      var name :| name in rest;
      rest := rest - {name};
      var fine := v.ValidateDependencies(builtin, catalog, name);
      if !fine {
        FlawedIsInvalid(builtin, catalog, name);
        return false;
      }
    }
    assert v.visited == catalog.Keys;
    ClearedIsValid(builtin, catalog);
    ok := true;
  }

  // ----- Admitting an entry -----

  datatype Ipv4Reading = NotIpv4 | Ipv4(text: string) | BadRange

  /** A raw selector together with the readings that need address and host-name syntax. */
  datatype Selector = Selector(text: string, ipv4: Ipv4Reading, host: Option<string>)

  datatype Reading = Blank | Cidr(cidr: string) | Service(name: string) | Domain(domain: string) | Unusable

  function Read(registry: Catalog, s: Selector): Reading {
    var text := TrimSpace(s.text);
    if text == "" then Blank
    else if s.ipv4.BadRange? then Unusable
    else if s.ipv4.Ipv4? then Cidr(s.ipv4.text)
    else if Canonical(text) != "" && Canonical(text) in registry then Service(Canonical(text))
    else if IsAlias(Canonical(text)) && '.' !in text then Unusable
    else if s.host.None? then Unusable
    else Domain(s.host.value)
  }

  function Readings(registry: Catalog, selectors: seq<Selector>): (readings: seq<Reading>)
    ensures |readings| == |selectors|
    ensures forall i :: 0 <= i < |selectors| ==> readings[i] == Read(registry, selectors[i])
  {
    seq(|selectors|, i requires 0 <= i < |selectors| => Read(registry, selectors[i]))
  }

  function Services(readings: seq<Reading>): seq<string> {
    if readings == [] then [] else
      var r := readings[|readings| - 1];
      Services(readings[..|readings| - 1]) + if r.Service? then [r.name] else []
  }

  function DomainsOf(readings: seq<Reading>): seq<string> {
    if readings == [] then [] else
      var r := readings[|readings| - 1];
      DomainsOf(readings[..|readings| - 1]) + if r.Domain? then [r.domain] else []
  }

  function CidrsOf(readings: seq<Reading>): seq<string> {
    if readings == [] then [] else
      var r := readings[|readings| - 1];
      CidrsOf(readings[..|readings| - 1]) + if r.Cidr? then [r.cidr] else []
  }

  /** The definition a list of selectors stands for: each kind in first-occurrence order. */
  function DefinitionFrom(readings: seq<Reading>): Definition {
    Definition(AppendNew([], Services(readings)), AppendNew([], DomainsOf(readings)), AppendNew([], CidrsOf(readings)))
  }

  function DefinitionOf(registry: Catalog, selectors: seq<Selector>): Definition {
    DefinitionFrom(Readings(registry, selectors))
  }

  /** Every selector can be read, and none is the name being defined. */
  predicate AreUsable(readings: seq<Reading>, name: string) {
    forall i :: 0 <= i < |readings| ==> !readings[i].Unusable? && readings[i] != Service(name)
  }

  ghost predicate Admissible(presets: Catalog, catalog: Catalog, name: string, selectors: seq<Selector>) {
    var registry := Merge(presets, catalog);
    var d := DefinitionOf(registry, selectors);
    && IsAlias(Canonical(name)) && !IsBuiltin(presets, Canonical(name))
    && AreUsable(Readings(registry, selectors), Canonical(name))
    && d != Definition([], [], [])
    && ValidCatalog(presets, catalog[Canonical(name) := d])
  }

  lemma {:induction false} ServicesMeaning(readings: seq<Reading>)
    ensures forall v :: v in Services(readings) ==> Service(v) in readings
  {
    if readings != [] {
      ServicesMeaning(readings[..|readings| - 1]);
    }
  }

  function Appended(out: seq<string>, v: string): seq<string> {
    if v in out then out else out + [v]
  }

  function Collected(d: Definition, r: Reading): Definition {
    match r
    case Service(v) => d.(services := Appended(d.services, v))
    case Domain(v) => d.(domains := Appended(d.domains, v))
    case Cidr(v) => d.(cidrs := Appended(d.cidrs, v))
    case _ => d
  }

  lemma OneMoreReading(front: seq<Reading>, r: Reading)
    ensures DefinitionFrom(front + [r]) == Collected(DefinitionFrom(front), r)
  {
    assert (front + [r])[..|front|] == front;
    AppendNewConcat([], Services(front), if r.Service? then [r.name] else []);
    AppendNewConcat([], DomainsOf(front), if r.Domain? then [r.domain] else []);
    AppendNewConcat([], CidrsOf(front), if r.Cidr? then [r.cidr] else []);
  }

  function CollectedAll(readings: seq<Reading>): Definition {
    if readings == [] then Definition([], [], [])
    else Collected(CollectedAll(readings[..|readings| - 1]), readings[|readings| - 1])
  }

  lemma {:induction false} CollectedAllIsDefinition(readings: seq<Reading>)
    ensures CollectedAll(readings) == DefinitionFrom(readings)
  {
    if readings != [] {
      var front, last := readings[..|readings| - 1], readings[|readings| - 1];
      CollectedAllIsDefinition(front);
      OneMoreReading(front, last);
      assert readings == front + [last];
    }
  }

  method CollectSelectors(readings: seq<Reading>, name: string) returns (r: Option<Definition>)
    ensures r == if AreUsable(readings, name) then Some(DefinitionFrom(readings)) else None
  {
    var d := Definition([], [], []);
    for i := 0 to |readings|
      invariant d == CollectedAll(readings[..i])
      invariant AreUsable(readings[..i], name)
    {
      assert readings[..i + 1][..i] == readings[..i];
      match readings[i]
      case Blank =>
      case Unusable =>
        return None;
      case Cidr(cidr) =>
        if cidr !in d.cidrs { d := d.(cidrs := d.cidrs + [cidr]); }
      case Service(service) =>
        if service == name {
          return None;
        }
        if service !in d.services { d := d.(services := d.services + [service]); }
      case Domain(domain) =>
        if domain !in d.domains { d := d.(domains := d.domains + [domain]); }
    }
    assert readings[..|readings|] == readings;
    CollectedAllIsDefinition(readings);
    r := Some(d);
  }

  method ParseDefinition(presets: Catalog, catalog: Catalog, name: string, selectors: seq<Selector>)
    returns (r: Option<(string, Definition)>)
    ensures r.Some? <==> Admissible(presets, catalog, name, selectors)
    ensures r.Some? ==> r.value == (Canonical(name), DefinitionOf(Merge(presets, catalog), selectors))
  {
    var normalized := Canonical(name);
    if !IsAlias(normalized) || IsBuiltin(presets, normalized) {
      return None;
    }
    var definition := CollectSelectors(Readings(Merge(presets, catalog), selectors), normalized);
    if definition.None? {
      return None;
    }
    var d := definition.value;
    if d.services == [] && d.domains == [] && d.cidrs == [] {
      return None;
    }
    var valid := ValidateCatalog(presets, catalog[normalized := d]);
    if !valid {
      return None;
    }
    r := Some((normalized, d));
  }
}
