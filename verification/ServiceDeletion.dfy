/** Setting and deleting custom services on the stored firewall settings. Deletion is guarded by a
    depth-first reachability check that normalises names differently from the expander; the lemmas
    here relate the two. */
module ServiceDeletion {
  import opened Wrappers
  import opened Text
  import opened ServiceGraph
  import opened ServiceCatalog
  import opened ServiceExpansion
  import opened CatalogValidation

  datatype SelectorSet = SelectorSet(services: seq<string>, domains: seq<string>, cidrs: seq<string>)

  datatype Mode = Disabled | Targets | Split

  datatype FirewallSettings = FirewallSettings(
    mode: Mode,
    catalog: Catalog,
    targets: SelectorSet,
    proxy: SelectorSet,
    bypass: SelectorSet,
    draftTargets: SelectorSet,
    draftProxy: SelectorSet,
    draftBypass: SelectorSet)

  datatype DeleteError =
    | NotFound | ReadOnly
    | UsedByTargets | UsedBySplit | UsedByTargetsDraft | UsedBySplitDraft | UsedByService
    | FirewallRejected | SaveFailed

  function TrimLowerAll(names: seq<string>): (r: seq<string>)
    ensures |r| == |names| && forall i :: 0 <= i < |names| ==> r[i] == TrimLower(names[i])
  {
    seq(|names|, i requires 0 <= i < |names| => TrimLower(names[i]))
  }

  /** The include graph as the deletion check sees it: the catalog alone, names trimmed and lower-cased. */
  function MatchGraph(catalog: Catalog): Graph {
    map name | name in catalog :: TrimLowerAll(catalog[name].services)
  }

  ghost predicate Matches(catalog: Catalog, root: string, target: string) {
    Reaches(MatchGraph(catalog), root, target, {})
  }

  ghost predicate UsedFrom(catalog: Catalog, roots: seq<string>, target: string) {
    exists root :: root in roots && Matches(catalog, TrimLower(root), target)
  }

  ghost predicate UsedByEntry(catalog: Catalog, target: string) {
    exists name :: name in catalog && TrimLower(name) != target && Matches(catalog, TrimLower(name), target)
  }

  class DependencyWalk {
    var visiting: set<string>

    constructor ()
      ensures visiting == {}
    {
      visiting := {};
    }

    method DependencyMatches(catalog: Catalog, root: string, target: string) returns (found: bool)
      requires target !in visiting
      modifies this
      ensures visiting == old(visiting)
      ensures found <==> Reaches(MatchGraph(catalog), root, target, old(visiting))
      decreases catalog.Keys - visiting
    {
      ghost var g := MatchGraph(catalog);
      if root == target {
        ReachesStep(g, root, target, visiting);
        return true;
      }
      if root in visiting {
        return false;
      }
      ReachesStep(g, root, target, visiting);
      if root !in catalog {
        return false;
      }
      assert root in catalog.Keys - visiting;
      ghost var inner := visiting + {root};
      visiting := visiting + {root};
      var dependencies := TrimLowerAll(catalog[root].services);
      for i := 0 to |dependencies|
        invariant visiting == inner
        invariant forall j :: 0 <= j < i ==> !Reaches(g, dependencies[j], target, inner)
      {
        var dependency := dependencies[i];
        found := DependencyMatches(catalog, dependency, target);
        if dependency == target || found {
          ReachesStep(g, dependency, target, inner);
          visiting := visiting - {root};
          return true;
        }
      }
      visiting := visiting - {root};
      found := false;
    }
  }

  method TargetsReferenceService(roots: seq<string>, catalog: Catalog, target: string) returns (used: bool)
    ensures used <==> UsedFrom(catalog, roots, target)
  {
    for i := 0 to |roots|
      invariant !UsedFrom(catalog, roots[..i], target)
    {
      var walk := new DependencyWalk();
      var found := walk.DependencyMatches(catalog, TrimLower(roots[i]), target);
      if found {
        assert roots[i] in roots;
        return true;
      }
      assert forall r :: r in roots[..i + 1] <==> r in roots[..i] || r == roots[i];
    }
    assert roots[..|roots|] == roots;
    used := false;
  }

  method FindReferencingService(catalog: Catalog, target: string) returns (used: bool)
    ensures used <==> UsedByEntry(catalog, TrimLower(target))
  {
    var wanted := TrimLower(target);
    var rest := catalog.Keys;
    while rest != {}
      invariant rest <= catalog.Keys
      invariant forall name :: name in catalog.Keys - rest ==>
                  TrimLower(name) == wanted || !Matches(catalog, TrimLower(name), wanted)
      decreases rest
    {
      var name :| name in rest;
      rest := rest - {name};
      if TrimLower(name) == wanted {
        continue;
      }
      var walk := new DependencyWalk();
      var found := walk.DependencyMatches(catalog, TrimLower(name), wanted);
      if found {
        return true;
      }
    }
    used := false;
  }

  // ----- The check agrees with the expander -----

  /** What catalogs built by set and delete calls look like. */
  ghost predicate StoredNames(presets: Catalog, catalog: Catalog) {
    forall name :: name in catalog ==>
      && IsAlias(name) && name != DEPRECATED_ALIAS && name !in presets
      && forall d :: d in catalog[name].services ==> IsAlias(d) && d != DEPRECATED_ALIAS
  }

  /** The expander reaches `name` from the selector `root`. */
  ghost predicate ExpanderReaches(presets: Catalog, catalog: Catalog, root: string, name: string) {
    Reaches(ExpandGraph(Merge(presets, catalog)), Canonical(root), name, {})
  }

  lemma ExpandEdgeIsMatchEdge(presets: Catalog, catalog: Catalog, a: string, b: string)
    requires IsPresetTable(presets) && b !in presets
    requires Edge(ExpandGraph(Merge(presets, catalog)), a, b)
    ensures a !in presets && Edge(MatchGraph(catalog), a, b)
  {
    var services := Merge(presets, catalog)[a].services;
    var i :| 0 <= i < |services| && b == CanonicalAll(services)[i];
    assert MatchGraph(catalog)[a][i] == TrimLower(services[i]);
  }

  /** Whatever the expander can reach, the deletion check finds, for every stored catalog. */
  lemma ExpanderReachIsMatched(presets: Catalog, catalog: Catalog, root: string, name: string)
    requires IsPresetTable(presets) && name !in presets
    requires ExpanderReaches(presets, catalog, root, name)
    ensures Matches(catalog, TrimLower(root), name)
  {
    var g := ExpandGraph(Merge(presets, catalog));
    var p :| IsPathAvoiding(g, p, Canonical(root), name, {});
    ExpandPathIsMatchPath(presets, catalog, p, |p| - 1);
    assert p[0] == TrimLower(root);
    assert IsPathAvoiding(MatchGraph(catalog), p, TrimLower(root), name, {});
  }

  lemma UnmatchedIsUnreached(presets: Catalog, catalog: Catalog, root: string, name: string)
    requires IsPresetTable(presets) && name !in presets
    requires !Matches(catalog, TrimLower(root), name)
    ensures !ExpanderReaches(presets, catalog, root, name)
  {
    if ExpanderReaches(presets, catalog, root, name) { ExpanderReachIsMatched(presets, catalog, root, name); }
  }

  lemma {:induction false} ExpandPathIsMatchPath(presets: Catalog, catalog: Catalog, p: seq<string>, k: nat)
    requires IsPresetTable(presets) && k < |p|
    requires IsPath(ExpandGraph(Merge(presets, catalog)), p) && p[|p| - 1] !in presets
    ensures p[|p| - 1 - k] !in presets
    ensures forall i, j :: |p| - 1 - k <= i && j == i + 1 && j < |p| ==> Edge(MatchGraph(catalog), p[i], p[j])
  {
    if k > 0 {
      ExpandPathIsMatchPath(presets, catalog, p, k - 1);
      ExpandEdgeIsMatchEdge(presets, catalog, p[|p| - 1 - k], p[|p| - k]);
    }
  }

  /** On catalogs built by set and delete calls the check finds nothing more than the expander. */
  lemma MatchedIsExpanderReach(presets: Catalog, catalog: Catalog, root: string, name: string)
    requires StoredNames(presets, catalog) && name in catalog
    requires Matches(catalog, TrimLower(root), name)
    ensures ExpanderReaches(presets, catalog, root, name)
  {
    var g, h := MatchGraph(catalog), ExpandGraph(Merge(presets, catalog));
    var p :| IsPathAvoiding(g, p, TrimLower(root), name, {});
    assert |p| > 1 ==> Edge(g, p[0], p[1]);
    forall i, j | 0 <= i && j == i + 1 && j < |p| ensures Edge(h, p[i], p[j]) {
      assert Edge(g, p[i], p[j]);
      var services := catalog[p[i]].services;
      var x :| 0 <= x < |services| && p[j] == TrimLowerAll(services)[x];
      assert services[x] in services;
      CanonicalOfAlias(services[x]);
      AliasIsTrimmedLower(services[x]);
      assert h[p[i]][x] == services[x];
    }
    assert IsPathAvoiding(h, p, Canonical(root), name, {});
  }

  // ----- Deletion leaves expansions alone -----

  lemma {:induction false} EmittedWithout(registry: Catalog, kind: Kind, service: string, visiting: set<string>,
                                          name: string)
    requires !Reaches(ExpandGraph(registry), Canonical(service), name, visiting)
    ensures Emitted(registry - {name}, kind, service, visiting) == Emitted(registry, kind, service, visiting)
    decreases registry.Keys - visiting, 0
  {
    var n := Canonical(service);
    if n !in visiting {
      var g := ExpandGraph(registry);
      ReachesStep(g, n, name, visiting);
      if n in registry {
        assert n in registry.Keys - visiting;
        var services := registry[n].services;
        forall i | 0 <= i < |services| ensures !Reaches(g, Canonical(services[i]), name, visiting + {n}) {
          assert g[n][i] in g[n];
        }
        EmittedAllWithout(registry, kind, services, visiting + {n}, name);
      }
    }
  }

  lemma {:induction false} EmittedAllWithout(registry: Catalog, kind: Kind, services: seq<string>,
                                             visiting: set<string>, name: string)
    requires forall i :: 0 <= i < |services| ==> !Reaches(ExpandGraph(registry), Canonical(services[i]), name, visiting)
    ensures EmittedAll(registry - {name}, kind, services, visiting) == EmittedAll(registry, kind, services, visiting)
    decreases registry.Keys - visiting, |services| + 1
  {
    if services != [] {
      EmittedAllWithout(registry, kind, services[..|services| - 1], visiting, name);
      EmittedWithout(registry, kind, services[|services| - 1], visiting, name);
    }
  }

  /** Family domains stand for built-in services. */
  ghost predicate IsFamilyTable(presets: Catalog, families: map<string, string>) {
    forall d :: d in families ==> Canonical(families[d]) in presets
  }

  lemma {:induction false} LiteralsWithout(presets: Catalog, registry: Catalog, families: map<string, string>,
                                           texts: seq<string>, name: string)
    requires IsPresetTable(presets) && IsFamilyTable(presets, families) && name !in presets
    requires forall n :: n in presets ==> n in registry && registry[n] == presets[n]
    ensures LiteralDomains(registry - {name}, families, texts) == LiteralDomains(registry, families, texts)
  {
    if texts != [] {
      LiteralsWithout(presets, registry, families, texts[..|texts| - 1], name);
      var domain := TrimLower(texts[|texts| - 1]);
      if domain != "" && domain in families {
        var builtin := Canonical(families[domain]);
        ReachesStep(ExpandGraph(registry), builtin, name, {});
        assert ExpandGraph(registry)[builtin] == [];
        EmittedWithout(registry, Domains, families[domain], {}, name);
      }
    }
  }

  function DomainList(presets: Catalog, families: map<string, string>, catalog: Catalog, s: SelectorSet): seq<string> {
    ExpandedDomains(Merge(presets, catalog), families, s.services, s.domains)
  }

  function CidrList(presets: Catalog, catalog: Catalog, s: SelectorSet): seq<string> {
    ExpandedCidrs(Merge(presets, catalog), s.services, s.cidrs)
  }

  /** A selector set the check clears expands to the same two lists, in the same order, without the entry. */
  lemma DeletionKeepsExpansion(presets: Catalog, families: map<string, string>, catalog: Catalog, s: SelectorSet,
                               name: string)
    requires IsPresetTable(presets) && IsFamilyTable(presets, families) && name !in presets
    requires !UsedFrom(catalog, s.services, name)
    ensures DomainList(presets, families, catalog - {name}, s) == DomainList(presets, families, catalog, s)
    ensures CidrList(presets, catalog - {name}, s) == CidrList(presets, catalog, s)
  {
    var registry := Merge(presets, catalog);
    assert Merge(presets, catalog - {name}) == registry - {name};
    forall i | 0 <= i < |s.services| ensures !Reaches(ExpandGraph(registry), Canonical(s.services[i]), name, {}) {
      assert s.services[i] in s.services;
      UnmatchedIsUnreached(presets, catalog, s.services[i], name);
    }
    EmittedAllWithout(registry, Domains, s.services, {}, name);
    EmittedAllWithout(registry, Cidrs, s.services, {}, name);
    LiteralsWithout(presets, registry, families, s.domains, name);
  }

  // ----- The stored settings -----

  function SelectorSets(f: FirewallSettings): seq<SelectorSet> {
    [f.targets, f.proxy, f.bypass, f.draftTargets, f.draftProxy, f.draftBypass]
  }

  /** The first check a deletion fails, if any. */
  ghost function Refusal(presets: Catalog, f: FirewallSettings, name: string): Option<DeleteError> {
    var entry := Canonical(name);
    if !IsAlias(entry) then Some(NotFound)
    else if entry in presets then Some(ReadOnly)
    else if entry !in f.catalog then Some(NotFound)
    else if UsedFrom(f.catalog, f.targets.services, entry) then Some(UsedByTargets)
    else if UsedFrom(f.catalog, f.proxy.services, entry) || UsedFrom(f.catalog, f.bypass.services, entry)
         then Some(UsedBySplit)
    else if UsedFrom(f.catalog, f.draftTargets.services, entry) then Some(UsedByTargetsDraft)
    else if UsedFrom(f.catalog, f.draftProxy.services, entry) || UsedFrom(f.catalog, f.draftBypass.services, entry)
         then Some(UsedBySplitDraft)
    else if UsedByEntry(f.catalog, entry) then Some(UsedByService)
    else None
  }

  /** The active part of the firewall uses `target`; a change then reapplies the connection. */
  ghost predicate ActiveReferences(f: FirewallSettings, target: string) {
    match f.mode
    case Disabled => false
    case Targets => UsedFrom(f.catalog, f.targets.services, target)
    case Split => UsedFrom(f.catalog, f.proxy.services, target) || UsedFrom(f.catalog, f.bypass.services, target)
  }

  method ReferencesActively(f: FirewallSettings, target: string) returns (used: bool)
    ensures used <==> ActiveReferences(f, target)
  {
    match f.mode {
      case Disabled => used := false;
      case Targets => used := TargetsReferenceService(f.targets.services, f.catalog, target);
      case Split =>
        used := TargetsReferenceService(f.proxy.services, f.catalog, target);
        if !used {
          used := TargetsReferenceService(f.bypass.services, f.catalog, target);
        }
    }
  }

  /** Setting the service reapplies the connection: the active part used the name as given or as stored. */
  ghost predicate ReappliesAfterSet(f: FirewallSettings, name: string) {
    ActiveReferences(f, name) || ActiveReferences(f, Canonical(name))
  }

  ghost predicate StoredCatalog(presets: Catalog, catalog: Catalog) {
    StoredNames(presets, catalog) && ValidCatalog(presets, catalog)
  }

  lemma ReadServiceIsRegistered(registry: Catalog, s: Selector, v: string)
    requires Read(registry, s) == Service(v)
    ensures v in registry
  {
  }

  lemma ParsedServicesAreRegistered(registry: Catalog, selectors: seq<Selector>)
    ensures forall d :: d in DefinitionOf(registry, selectors).services ==> d in registry
  {
    var readings := Readings(registry, selectors);
    AppendNewContents([], Services(readings));
    ServicesMeaning(readings);
    forall v | v in Services(readings) ensures v in registry {
      var i :| 0 <= i < |readings| && readings[i] == Service(v);
      ReadServiceIsRegistered(registry, selectors[i], v);
    }
  }

  lemma NewNameIsStored(presets: Catalog, name: string)
    requires IsPresetTable(presets) && IsAlias(Canonical(name)) && !IsBuiltin(presets, Canonical(name))
    ensures Canonical(name) != DEPRECATED_ALIAS && Canonical(name) !in presets
  {
    AliasIsTrimmedLower(Canonical(name));
  }

  lemma StoredNamesExtend(presets: Catalog, catalog: Catalog, name: string, d: Definition)
    requires IsPresetTable(presets) && StoredNames(presets, catalog)
    requires IsAlias(name) && name != DEPRECATED_ALIAS && name !in presets
    requires forall s :: s in d.services ==> s in Merge(presets, catalog)
    ensures StoredNames(presets, catalog[name := d])
  {
  }

  lemma SetKeepsStored(presets: Catalog, catalog: Catalog, name: string, selectors: seq<Selector>)
    requires IsPresetTable(presets) && StoredCatalog(presets, catalog)
    requires Admissible(presets, catalog, name, selectors)
    ensures StoredCatalog(presets, catalog[Canonical(name) := DefinitionOf(Merge(presets, catalog), selectors)])
  {
    NewNameIsStored(presets, name);
    ParsedServicesAreRegistered(Merge(presets, catalog), selectors);
    StoredNamesExtend(presets, catalog, Canonical(name), DefinitionOf(Merge(presets, catalog), selectors));
  }

  lemma UnusedIsNotIncluded(catalog: Catalog, a: string, name: string)
    requires IsAlias(a) && IsAlias(name) && a in catalog && a != name
    requires !UsedByEntry(catalog, name)
    ensures name !in catalog[a].services
  {
    AliasIsTrimmedLower(a);
    AliasIsTrimmedLower(name);
    var g := MatchGraph(catalog);
    if i :| 0 <= i < |catalog[a].services| && catalog[a].services[i] == name {
      assert g[a][i] == name;
      assert IsPathAvoiding(g, [a, name], a, name, {});
    }
  }

  lemma WithoutUnusedEntry(builtin: string -> bool, catalog: Catalog, name: string)
    requires ValidFor(builtin, catalog)
    requires forall a :: a in catalog && a != name ==> name !in catalog[a].services
    ensures ValidFor(builtin, catalog - {name})
  {
    forall a | a in catalog - {name} ensures SoundEntry(builtin, catalog - {name}, a) {
      assert SoundEntry(builtin, catalog, a);
    }
    SubgraphAcyclic(IncludeGraph(builtin, catalog), IncludeGraph(builtin, catalog - {name}));
  }

  lemma DeleteKeepsStored(presets: Catalog, catalog: Catalog, name: string)
    requires StoredCatalog(presets, catalog) && name in catalog
    requires !UsedByEntry(catalog, name)
    ensures StoredCatalog(presets, catalog - {name})
  {
    forall a | a in catalog && a != name ensures name !in catalog[a].services {
      UnusedIsNotIncluded(catalog, a, name);
    }
    WithoutUnusedEntry(BuiltinTest(presets), catalog, name);
  }

  /** With `NotReapplied` the caller gets an error although the catalog is changed. */
  datatype SetOutcome = Stored | Refused | NotReapplied

  /** A set or delete request, with the outcomes of firewall validation, of saving and of reapplying. */
  datatype Request =
    | SetService(name: string, selectors: seq<Selector>, firewallAccepts: bool, saves: bool, reapplies: bool)
    | DeleteService(name: string, firewallAccepts: bool, saves: bool)

  class SettingsStore {
    var settings: FirewallSettings

    constructor (initial: FirewallSettings)
      ensures settings == initial
    {
      settings := initial;
    }

    method Set(presets: Catalog, name: string, selectors: seq<Selector>, firewallAccepts: bool, saves: bool,
               reapplies: bool)
      returns (r: SetOutcome)
      modifies this
      ensures r.Refused? <==> !(Admissible(presets, old(settings.catalog), name, selectors) && firewallAccepts && saves)
      ensures r.NotReapplied? <==> !r.Refused? && ReappliesAfterSet(old(settings), name) && !reapplies
      ensures settings == if r.Refused? then old(settings) else
                old(settings).(catalog := old(settings.catalog)[
                  Canonical(name) := DefinitionOf(Merge(presets, old(settings.catalog)), selectors)])
      ensures IsPresetTable(presets) && StoredCatalog(presets, old(settings.catalog)) ==>
                StoredCatalog(presets, settings.catalog)
    {
      var reapply := ReferencesActively(settings, name);
      var parsed := ParseDefinition(presets, settings.catalog, name, selectors);
      if parsed.None? {
        return Refused;
      }
      if !reapply {
        reapply := ReferencesActively(settings, parsed.value.0);
      }
      if !firewallAccepts || !saves {
        return Refused;
      }
      ghost var catalog := settings.catalog;
      settings := settings.(catalog := settings.catalog[parsed.value.0 := parsed.value.1]);
      if IsPresetTable(presets) && StoredCatalog(presets, catalog) {
        SetKeepsStored(presets, catalog, name, selectors);
      }
      r := if reapply && !reapplies then NotReapplied else Stored;
    }

    method Delete(presets: Catalog, name: string, firewallAccepts: bool, saves: bool) returns (r: Option<DeleteError>)
      modifies this
      ensures r == var refusal := Refusal(presets, old(settings), name);
                   if refusal.Some? then refusal
                   else if !firewallAccepts then Some(FirewallRejected)
                   else if !saves then Some(SaveFailed)
                   else None
      ensures settings == if r.Some? then old(settings)
                          else old(settings).(catalog := old(settings.catalog) - {Canonical(name)})
      ensures r.None? ==> !ActiveReferences(old(settings), Canonical(name))
      ensures StoredCatalog(presets, old(settings.catalog)) ==> StoredCatalog(presets, settings.catalog)
    {
      var entry := Canonical(name);
      if !IsAlias(entry) {
        return Some(NotFound);
      }
      if entry in presets {
        return Some(ReadOnly);
      }
      if entry !in settings.catalog {
        return Some(NotFound);
      }
      var used := TargetsReferenceService(settings.targets.services, settings.catalog, entry);
      if used {
        return Some(UsedByTargets);
      }
      used := TargetsReferenceService(settings.proxy.services, settings.catalog, entry);
      if !used {
        used := TargetsReferenceService(settings.bypass.services, settings.catalog, entry);
      }
      if used {
        return Some(UsedBySplit);
      }
      used := TargetsReferenceService(settings.draftTargets.services, settings.catalog, entry);
      if used {
        return Some(UsedByTargetsDraft);
      }
      used := TargetsReferenceService(settings.draftProxy.services, settings.catalog, entry);
      if !used {
        used := TargetsReferenceService(settings.draftBypass.services, settings.catalog, entry);
      }
      if used {
        return Some(UsedBySplitDraft);
      }
      AliasIsTrimmedLower(entry);
      used := FindReferencingService(settings.catalog, entry);
      if used {
        return Some(UsedByService);
      }
      if !firewallAccepts {
        return Some(FirewallRejected);
      }
      if !saves {
        return Some(SaveFailed);
      }
      if StoredCatalog(presets, settings.catalog) {
        DeleteKeepsStored(presets, settings.catalog, entry);
      }
      settings := settings.(catalog := settings.catalog - {entry});
      r := None;
    }

    /** Any run of requests keeps a stored catalog valid; `EmptyIsStored` starts one. */
    method Run(presets: Catalog, requests: seq<Request>)
      requires IsPresetTable(presets)
      requires StoredCatalog(presets, settings.catalog)
      modifies this
      ensures StoredCatalog(presets, settings.catalog)
    {
      for i := 0 to |requests|
        invariant StoredCatalog(presets, settings.catalog)
      {
        match requests[i]
        case SetService(name, selectors, firewallAccepts, saves, reapplies) =>
          var r := Set(presets, name, selectors, firewallAccepts, saves, reapplies);
        case DeleteService(name, firewallAccepts, saves) =>
          var r := Delete(presets, name, firewallAccepts, saves);
      }
    }
  }

  /** The empty catalog is one a run may start from. */
  lemma EmptyIsStored(presets: Catalog)
    ensures StoredCatalog(presets, map[])
  {
    forall a ensures !Leads(IncludeGraph(BuiltinTest(presets), map[]), a, a) {
      NoSuccessorNoPath(IncludeGraph(BuiltinTest(presets), map[]), a);
    }
  }

  /** A permitted deletion changes the expansion of none of the six stored selector sets. */
  lemma PermittedDeletionIsInvisible(presets: Catalog, families: map<string, string>, f: FirewallSettings, name: string,
                                     i: nat)
    requires IsPresetTable(presets) && IsFamilyTable(presets, families)
    requires Refusal(presets, f, name) == None
    requires i < |SelectorSets(f)|
    ensures var s, rest := SelectorSets(f)[i], f.catalog - {Canonical(name)};
            && DomainList(presets, families, rest, s) == DomainList(presets, families, f.catalog, s)
            && CidrList(presets, rest, s) == CidrList(presets, f.catalog, s)
  {
    DeletionKeepsExpansion(presets, families, f.catalog, SelectorSets(f)[i], Canonical(name));
  }

  /** On a catalog built by set and delete calls, an existing custom entry is refused exactly when the
      expander reaches it from one of the six selector sets or from another catalog entry. */
  lemma RefusedExactlyWhenReached(presets: Catalog, f: FirewallSettings, name: string)
    requires IsPresetTable(presets) && StoredNames(presets, f.catalog)
    requires name in f.catalog
    ensures Refusal(presets, f, name) != None <==>
            || (exists s, root ::
                  s in SelectorSets(f) && root in s.services && ExpanderReaches(presets, f.catalog, root, name))
            || (exists root :: root in f.catalog && root != name && ExpanderReaches(presets, f.catalog, root, name))
  {
    CanonicalOfAlias(name);
    forall root ensures Matches(f.catalog, TrimLower(root), name) <==> ExpanderReaches(presets, f.catalog, root, name) {
      if Matches(f.catalog, TrimLower(root), name) { MatchedIsExpanderReach(presets, f.catalog, root, name); }
      if ExpanderReaches(presets, f.catalog, root, name) { ExpanderReachIsMatched(presets, f.catalog, root, name); }
    }
    forall root | root in f.catalog ensures TrimLower(root) == root {
      AliasIsTrimmedLower(root);
    }
    SixSets(f, name);
  }

  lemma SixSets(f: FirewallSettings, name: string)
    ensures (exists s :: s in SelectorSets(f) && UsedFrom(f.catalog, s.services, name)) <==>
            || UsedFrom(f.catalog, f.targets.services, name) || UsedFrom(f.catalog, f.proxy.services, name)
            || UsedFrom(f.catalog, f.bypass.services, name) || UsedFrom(f.catalog, f.draftTargets.services, name)
            || UsedFrom(f.catalog, f.draftProxy.services, name) || UsedFrom(f.catalog, f.draftBypass.services, name)
  {
    forall s ensures s in SelectorSets(f) <==>
                     s in {f.targets, f.proxy, f.bypass, f.draftTargets, f.draftProxy, f.draftBypass} {
      var sets := SelectorSets(f);
      assert sets[0] == f.targets && sets[1] == f.proxy && sets[2] == f.bypass &&
             sets[3] == f.draftTargets && sets[4] == f.draftProxy && sets[5] == f.draftBypass;
    }
  }
}
