/** What a service that was set stands for, from the texts it was given. */
module ServiceMeaning {
  import opened Wrappers
  import opened Text
  import opened ServiceGraph
  import opened ServiceCatalog
  import opened ServiceExpansion
  import opened CatalogValidation
  import opened ServiceDeletion

  // ----- Texts -----

  /** Trimming takes the white space off both ends and nothing else. */
  lemma TrimSpaceMeaning(s: string) returns (front: string, back: string)
    ensures s == front + TrimSpace(s) + back && IsBlank(front) && IsBlank(back)
    ensures TrimSpace(s) != "" ==> !IsSpace(TrimSpace(s)[0]) && !IsSpace(TrimSpace(s)[|TrimSpace(s)| - 1])
  {
    front := TrimLeftMeaning(s);
    back := TrimRightMeaning(TrimLeft(s));
    if TrimSpace(s) != "" { assert TrimSpace(s)[0] == TrimLeft(s)[0]; }
  }

  lemma {:induction false} TrimLeftMeaning(s: string) returns (front: string)
    ensures s == front + TrimLeft(s) && IsBlank(front)
    ensures TrimLeft(s) != "" ==> !IsSpace(TrimLeft(s)[0])
  {
    front := "";
    if s != "" && IsSpace(s[0]) {
      front := TrimLeftMeaning(s[1..]);
      front := [s[0]] + front;
    }
  }

  lemma {:induction false} TrimRightMeaning(s: string) returns (back: string)
    ensures s == TrimRight(s) + back && IsBlank(back)
    ensures TrimRight(s) != "" ==> !IsSpace(TrimRight(s)[|TrimRight(s)| - 1])
  {
    back := "";
    if s != "" && IsSpace(s[|s| - 1]) {
      back := TrimRightMeaning(s[..|s| - 1]);
      back := back + [s[|s| - 1]];
    }
  }

  lemma LowerKeepsSpace(c: char)
    ensures IsSpace(LowerChar(c)) <==> IsSpace(c)
  {
  }

  /** Lower case adds 32 to the codes 65 to 90, the capitals, and keeps every other character. */
  lemma LowerMeaning(s: string, i: nat)
    requires i < |s|
    ensures ToLower(s)[i] as int == if 65 <= s[i] as int <= 90 then s[i] as int + 32 else s[i] as int
  {
  }

  predicate IsLetter(code: int) {
    97 <= code <= 122
  }

  /** An alias starts with a letter and goes on with letters, digits and hyphens. */
  lemma AliasMeaning(s: string)
    ensures IsAlias(s) <==>
              && s != "" && IsLetter(s[0] as int)
              && forall i :: 0 <= i < |s| ==> IsLetter(s[i] as int) || 48 <= s[i] as int <= 57 || s[i] as int == 45
  {
  }

  lemma TrimmedStays(s: string)
    requires s != "" ==> !IsSpace(s[0]) && !IsSpace(s[|s| - 1])
    ensures TrimSpace(s) == s
  {
  }

  /** The name a text spells: trimmed, in lower case. */
  lemma CanonicalTrimmed(text: string)
    ensures var name := ToLower(TrimSpace(text));
            Canonical(TrimSpace(text)) == if name == "telegram-web" then "telegram" else name
  {
    var t := TrimSpace(text);
    var front, back := TrimSpaceMeaning(text);
    if t != "" {
      LowerKeepsSpace(t[0]);
      LowerKeepsSpace(t[|t| - 1]);
    }
    TrimmedStays(ToLower(t));
  }

  // ----- Selectors -----

  /** The name a selector spells; the deprecated one stands for its replacement. */
  function NameOf(s: Selector): string {
    var name := ToLower(TrimSpace(s.text));
    if name == "telegram-web" then "telegram" else name
  }

  /** The selector names a service of the registry. */
  predicate Names(registry: Catalog, s: Selector, service: string) {
    TrimSpace(s.text) != "" && s.ipv4.NotIpv4? && NameOf(s) == service && service in registry
  }

  /** The selector looks like a service and is none: an alias without a dot. */
  predicate IsUnknown(registry: Catalog, s: Selector) {
    s.ipv4.NotIpv4? && NameOf(s) !in registry && IsAlias(NameOf(s)) && '.' !in TrimSpace(s.text)
  }

  predicate IsHost(registry: Catalog, s: Selector, host: string) {
    && TrimSpace(s.text) != "" && s.ipv4.NotIpv4? && NameOf(s) !in registry && !IsUnknown(registry, s)
    && s.host == Some(host)
  }

  predicate IsRange(s: Selector, cidr: string) {
    TrimSpace(s.text) != "" && s.ipv4 == Ipv4(cidr)
  }

  /** The selector can be read: it is blank, an IPv4 selector, a registered service or a host. */
  predicate IsReadable(registry: Catalog, s: Selector) {
    || TrimSpace(s.text) == "" || s.ipv4.Ipv4?
    || (s.ipv4.NotIpv4? && (NameOf(s) in registry || (!IsUnknown(registry, s) && s.host.Some?)))
  }

  lemma ReadMeaning(registry: Catalog, s: Selector, v: string)
    requires "" !in registry
    ensures Read(registry, s) == Service(v) <==> Names(registry, s, v)
    ensures Read(registry, s) == Domain(v) <==> IsHost(registry, s, v)
    ensures Read(registry, s) == Cidr(v) <==> IsRange(s, v)
    ensures Read(registry, s).Unusable? <==> !IsReadable(registry, s)
    ensures Read(registry, s) == Blank <==> TrimSpace(s.text) == ""
  {
    CanonicalTrimmed(s.text);
  }

  lemma {:induction false} ListedReadings(readings: seq<Reading>, v: string)
    ensures v in Services(readings) <==> Service(v) in readings
    ensures v in DomainsOf(readings) <==> Domain(v) in readings
    ensures v in CidrsOf(readings) <==> Cidr(v) in readings
  {
    if readings != [] {
      var last := |readings| - 1;
      ListedReadings(readings[..last], v);
      assert forall r :: r in readings <==> r in readings[..last] || r == readings[last];
    }
  }

  /** A definition lists exactly the services, hosts and IPv4 ranges its selectors stand for. */
  lemma DefinitionLists(registry: Catalog, selectors: seq<Selector>, v: string)
    requires "" !in registry
    ensures var d := DefinitionOf(registry, selectors);
            && (v in d.services <==> exists s :: s in selectors && Names(registry, s, v))
            && (v in d.domains <==> exists s :: s in selectors && IsHost(registry, s, v))
            && (v in d.cidrs <==> exists s :: s in selectors && IsRange(s, v))
  {
    var readings := Readings(registry, selectors);
    ListedReadings(readings, v);
    AppendNewContents([], Services(readings));
    AppendNewContents([], DomainsOf(readings));
    AppendNewContents([], CidrsOf(readings));
    ReadingsOf(registry, selectors, Service(v));
    ReadingsOf(registry, selectors, Domain(v));
    ReadingsOf(registry, selectors, Cidr(v));
    forall s | s in selectors
      ensures (Read(registry, s) == Service(v) <==> Names(registry, s, v))
           && (Read(registry, s) == Domain(v) <==> IsHost(registry, s, v))
           && (Read(registry, s) == Cidr(v) <==> IsRange(s, v))
    {
      ReadMeaning(registry, s, v);
    }
  }

  lemma ReadingsOf(registry: Catalog, selectors: seq<Selector>, r: Reading)
    ensures r in Readings(registry, selectors) <==> exists s :: s in selectors && Read(registry, s) == r
  {
    var readings := Readings(registry, selectors);
    if s :| s in selectors && Read(registry, s) == r {
      var i :| 0 <= i < |selectors| && selectors[i] == s;
      assert readings[i] == r;
    }
  }

  // ----- Which services can be set -----

  /** A service can be set exactly if its name is an alias no preset has, every selector can be read, none
      names the service itself, not all are blank, and the includes stay sound and free of cycles. */
  lemma AdmissibleExactly(presets: Catalog, catalog: Catalog, name: string, selectors: seq<Selector>)
    requires "" !in presets && "" !in catalog
    ensures var registry, key := Merge(presets, catalog), Canonical(name);
            Admissible(presets, catalog, name, selectors) <==>
              && IsAlias(key) && key !in presets
              && (forall s :: s in selectors ==> IsReadable(registry, s) && !Names(registry, s, key))
              && (exists s :: s in selectors && TrimSpace(s.text) != "")
              && ValidCatalog(presets, catalog[key := DefinitionOf(registry, selectors)])
  {
    var registry, key := Merge(presets, catalog), Canonical(name);
    var readings := Readings(registry, selectors);
    if IsAlias(key) { CanonicalIsCanonical(name); }
    UsableExactly(registry, selectors, key);
    if AreUsable(readings, key) { EmptyExactly(registry, selectors); }
  }

  lemma CanonicalIsCanonical(name: string)
    requires IsAlias(Canonical(name))
    ensures Canonical(Canonical(name)) == Canonical(name)
  {
    CanonicalOfAlias(Canonical(name));
  }

  lemma UsableExactly(registry: Catalog, selectors: seq<Selector>, key: string)
    requires "" !in registry
    ensures AreUsable(Readings(registry, selectors), key) <==>
              forall s :: s in selectors ==> IsReadable(registry, s) && !Names(registry, s, key)
  {
    var readings := Readings(registry, selectors);
    forall s ensures (IsReadable(registry, s) && !Names(registry, s, key)) <==>
                       !Read(registry, s).Unusable? && Read(registry, s) != Service(key)
    {
      ReadMeaning(registry, s, key);
    }
    assert forall i :: 0 <= i < |selectors| ==> readings[i] == Read(registry, selectors[i]);
  }

  lemma EmptyExactly(registry: Catalog, selectors: seq<Selector>)
    requires "" !in registry && forall s :: s in selectors ==> IsReadable(registry, s)
    ensures DefinitionOf(registry, selectors) == Definition([], [], []) <==>
              forall s :: s in selectors ==> TrimSpace(s.text) == ""
  {
    var d := DefinitionOf(registry, selectors);
    if s :| s in selectors && TrimSpace(s.text) != "" {
      var v := if s.ipv4.Ipv4? then s.ipv4.text else if NameOf(s) in registry then NameOf(s) else s.host.value;
      DefinitionLists(registry, selectors, v);
    } else {
      if d.services != [] { DefinitionLists(registry, selectors, d.services[0]); }
      if d.domains != [] { DefinitionLists(registry, selectors, d.domains[0]); }
      if d.cidrs != [] { DefinitionLists(registry, selectors, d.cidrs[0]); }
    }
  }

  // ----- Including one service -----

  /** No entry includes the name, so defining it adds no cycle. */
  lemma UnusedNameIsFree(builtin: string -> bool, catalog: Catalog, key: string, d: Definition)
    requires ValidFor(builtin, catalog) && key !in d.services && !builtin(key)
    requires forall x :: x in d.services ==> builtin(x) || x in catalog
    requires key !in catalog || forall x :: x in d.services ==> builtin(x)
    ensures ValidFor(builtin, catalog[key := d])
  {
    var after := catalog[key := d];
    var g, h := IncludeGraph(builtin, catalog), IncludeGraph(builtin, after);
    forall name | name in after ensures SoundEntry(builtin, after, name) {
      if name != key { assert SoundEntry(builtin, catalog, name); }
    }
    if key in catalog {
      SubgraphAcyclic(g, h);
    } else {
      forall a ensures !Leads(h, a, a) {
        if Leads(h, a, a) { NoWayBack(builtin, catalog, key, d, a); }
      }
    }
  }

  lemma NoWayBack(builtin: string -> bool, catalog: Catalog, key: string, d: Definition, a: string)
    requires ValidFor(builtin, catalog) && key !in d.services && !builtin(key) && key !in catalog
    ensures !Leads(IncludeGraph(builtin, catalog[key := d]), a, a)
  {
    var g, h := IncludeGraph(builtin, catalog), IncludeGraph(builtin, catalog[key := d]);
    if p :| IsPath(h, p) && |p| > 1 && p[0] == a && p[|p| - 1] == a {
      forall j | 1 <= j < |p| ensures p[j] != key {
        assert Edge(h, p[j - 1], p[j]);
        if p[j - 1] != key { assert SoundEntry(builtin, catalog, p[j - 1]); }
      }
      assert p[|p| - 1] != key;
      forall i, j | 0 <= i && j == i + 1 && j < |p| ensures Edge(g, p[i], p[j]) {
        assert Edge(h, p[i], p[j]) && p[i] != key;
      }
      assert Leads(g, a, a);
    }
  }

  lemma IncludedAlone(registry: Catalog, s: Selector, service: string)
    requires "" !in registry && Names(registry, s, service)
    ensures DefinitionOf(registry, [s]) == Definition([service], [], [])
  {
    ReadMeaning(registry, s, service);
    var readings := Readings(registry, [s]);
    assert readings == [Service(service)] && readings[..0] == [];
    assert Services(readings) == [service] && DomainsOf(readings) == [] && CidrsOf(readings) == [];
    assert AppendNew([], [service]) == AppendNew([service], []) == [service];
  }

  lemma OneIncludeIsAdmissible(presets: Catalog, catalog: Catalog, name: string, s: Selector)
    requires "" !in presets && "" !in catalog && IsAlias(Canonical(name)) && Canonical(name) !in presets
    requires Names(Merge(presets, catalog), s, NameOf(s)) && NameOf(s) != Canonical(name)
    requires ValidCatalog(presets, catalog[Canonical(name) := DefinitionOf(Merge(presets, catalog), [s])])
    ensures Admissible(presets, catalog, name, [s])
  {
    var registry, key := Merge(presets, catalog), Canonical(name);
    forall x | x in [s] ensures IsReadable(registry, x) && !Names(registry, x, key) {
    }
    assert s in [s] && TrimSpace(s.text) != "";
    AdmissibleExactly(presets, catalog, name, [s]);
  }

  /** A name that spells a registered service, in any case and padding, can be set as that service under any
      other free alias; so can a preset under an alias in use. */
  lemma ServiceCanBeIncluded(presets: Catalog, catalog: Catalog, name: string, s: Selector)
    requires IsPresetTable(presets) && StoredCatalog(presets, catalog)
    requires Names(Merge(presets, catalog), s, NameOf(s)) && NameOf(s) != Canonical(name)
    requires IsAlias(Canonical(name)) && Canonical(name) !in presets
    requires Canonical(name) !in catalog || NameOf(s) in presets
    ensures Admissible(presets, catalog, name, [s])
    ensures DefinitionOf(Merge(presets, catalog), [s]) == Definition([NameOf(s)], [], [])
  {
    var builtin, key := BuiltinTest(presets), Canonical(name);
    IncludedAlone(Merge(presets, catalog), s, NameOf(s));
    CanonicalIsCanonical(name);
    assert !builtin(key);
    if NameOf(s) in presets {
      CanonicalOfAlias(NameOf(s));
      assert builtin(NameOf(s));
    }
    UnusedNameIsFree(builtin, catalog, key, Definition([NameOf(s)], [], []));
    OneIncludeIsAdmissible(presets, catalog, name, s);
  }

  /** An alias without a dot that is no registered service is refused, whatever else is given. */
  lemma UnknownServiceIsRefused(presets: Catalog, catalog: Catalog, name: string, selectors: seq<Selector>, s: Selector)
    requires "" !in presets && "" !in catalog
    requires s in selectors && TrimSpace(s.text) != "" && IsUnknown(Merge(presets, catalog), s)
    ensures !Admissible(presets, catalog, name, selectors)
  {
    AdmissibleExactly(presets, catalog, name, selectors);
    assert !IsReadable(Merge(presets, catalog), s);
  }

  // ----- Expanding a service that was set -----

  /** The domains, or CIDRs, a service stands for. */
  ghost predicate Provides(registry: Catalog, kind: Kind, service: string, v: string) {
    v in EmittedAll(registry, kind, [service], {})
  }

  lemma ProvidesMeaning(registry: Catalog, kind: Kind, service: string, v: string)
    ensures Provides(registry, kind, service, v) <==> Supplies(registry, kind, Canonical(service), {}, v)
  {
    EmittedAllMeaning(registry, kind, [service], {});
    assert service in [service];
  }

  lemma ReachedIsOwnOrIncluded(registry: Catalog, key: string, t: string)
    requires key in registry && Reaches(ExpandGraph(registry), key, t, {})
    ensures t == key || exists x ::
              x in registry[key].services && Reaches(ExpandGraph(registry), Canonical(x), t, {})
  {
    var g, d := ExpandGraph(registry), registry[key];
    ReachesStep(g, key, t, {});
    if t != key {
      var next :| next in g[key] && Reaches(g, next, t, {} + {key});
      var p :| IsPathAvoiding(g, p, next, t, {} + {key});
      assert IsPathAvoiding(g, p, next, t, {});
      var i :| 0 <= i < |d.services| && CanonicalAll(d.services)[i] == next;
      assert d.services[i] in d.services && Reaches(g, Canonical(d.services[i]), t, {});
    }
  }

  lemma IncludedIsReached(registry: Catalog, key: string, x: string, t: string)
    requires key in registry && x in registry[key].services && Reaches(ExpandGraph(registry), Canonical(x), t, {})
    ensures Reaches(ExpandGraph(registry), key, t, {})
  {
    var g, d := ExpandGraph(registry), registry[key];
    var p :| IsPathAvoiding(g, p, Canonical(x), t, {});
    var i :| 0 <= i < |d.services| && d.services[i] == x;
    assert CanonicalAll(d.services)[i] == Canonical(x);
    PathCons(g, key, p);
    assert IsPathAvoiding(g, [key] + p, key, t, {});
  }

  /** A service provides its own entries and what the services it includes provide. */
  lemma ProvidesStep(registry: Catalog, kind: Kind, service: string, v: string)
    requires Canonical(service) in registry
    ensures Provides(registry, kind, service, v) <==>
              || v in Entries(registry[Canonical(service)], kind)
              || exists x :: x in registry[Canonical(service)].services && Provides(registry, kind, x, v)
  {
    var key := Canonical(service);
    ProvidesMeaning(registry, kind, service, v);
    if Supplies(registry, kind, key, {}, v) {
      var t :| t in registry && Reaches(ExpandGraph(registry), key, t, {}) && v in Entries(registry[t], kind);
      ReachedIsOwnOrIncluded(registry, key, t);
      if x :| x in registry[key].services && Reaches(ExpandGraph(registry), Canonical(x), t, {}) {
        ProvidesMeaning(registry, kind, x, v);
      }
    }
    if v in Entries(registry[key], kind) {
      assert IsPathAvoiding(ExpandGraph(registry), [key], key, key, {});
      assert Reaches(ExpandGraph(registry), key, key, {});
    }
    if x :| x in registry[key].services && Provides(registry, kind, x, v) {
      ProvidesMeaning(registry, kind, x, v);
      var t :| t in registry && Reaches(ExpandGraph(registry), Canonical(x), t, {}) && v in Entries(registry[t], kind);
      IncludedIsReached(registry, key, x, t);
    }
  }

  /** The expansions of one service are what it provides. */
  lemma ExpansionProvides(registry: Catalog, families: map<string, string>, service: string, v: string)
    ensures v in ExpandedDomains(registry, families, [service], []) <==> Provides(registry, Domains, service, v)
    ensures v in ExpandedCidrs(registry, [service], []) <==> Provides(registry, Cidrs, service, v)
  {
    AppendNewContents([], EmittedAll(registry, Domains, [service], {}) + LiteralDomains(registry, families, []));
    AppendNewContents([], EmittedAll(registry, Cidrs, [service], {}) + LiteralCidrs([]));
  }

  /** The selector is the host, or names a service that expands to it. */
  ghost predicate GivesDomain(before: Catalog, after: Catalog, families: map<string, string>, s: Selector, v: string) {
    IsHost(before, s, v) || (Names(before, s, NameOf(s)) && v in ExpandedDomains(after, families, [NameOf(s)], []))
  }

  ghost predicate GivesCidr(before: Catalog, after: Catalog, s: Selector, v: string) {
    IsRange(s, v) || (Names(before, s, NameOf(s)) && v in ExpandedCidrs(after, [NameOf(s)], []))
  }

  /** What a service expands to: its own entries and what the services it includes expand to. */
  lemma ExpansionStep(registry: Catalog, families: map<string, string>, service: string, v: string)
    requires Canonical(service) in registry
    ensures var d := registry[Canonical(service)];
            && (v in ExpandedDomains(registry, families, [service], []) <==>
                  || v in d.domains
                  || exists x :: x in d.services && v in ExpandedDomains(registry, families, [x], []))
            && (v in ExpandedCidrs(registry, [service], []) <==>
                  v in d.cidrs || exists x :: x in d.services && v in ExpandedCidrs(registry, [x], []))
  {
    forall x
      ensures (v in ExpandedDomains(registry, families, [x], []) <==> Provides(registry, Domains, x, v))
           && (v in ExpandedCidrs(registry, [x], []) <==> Provides(registry, Cidrs, x, v))
    {
      ExpansionProvides(registry, families, x, v);
    }
    ProvidesStep(registry, Domains, service, v);
    ProvidesStep(registry, Cidrs, service, v);
  }

  lemma NamedServicesGive(before: Catalog, after: Catalog, families: map<string, string>, selectors: seq<Selector>,
                          d: Definition, v: string)
    requires forall x :: x in d.services <==> exists s :: s in selectors && Names(before, s, x)
    requires v in d.domains <==> exists s :: s in selectors && IsHost(before, s, v)
    requires v in d.cidrs <==> exists s :: s in selectors && IsRange(s, v)
    ensures (v in d.domains || exists x :: x in d.services && v in ExpandedDomains(after, families, [x], [])) <==>
              exists s :: s in selectors && GivesDomain(before, after, families, s, v)
    ensures (v in d.cidrs || exists x :: x in d.services && v in ExpandedCidrs(after, [x], [])) <==>
              exists s :: s in selectors && GivesCidr(before, after, s, v)
  {
    forall x | x in d.services ensures exists s :: s in selectors && Names(before, s, NameOf(s)) && NameOf(s) == x {
      var s :| s in selectors && Names(before, s, x);
    }
    forall s | s in selectors && Names(before, s, NameOf(s)) ensures NameOf(s) in d.services {
    }
  }

  lemma SetServiceExpands(presets: Catalog, catalog: Catalog, families: map<string, string>, name: string,
                          selectors: seq<Selector>, d: Definition, v: string)
    requires "" !in presets && "" !in catalog && IsAlias(Canonical(name)) && Canonical(name) !in presets
    requires d == DefinitionOf(Merge(presets, catalog), selectors)
    ensures var before, after := Merge(presets, catalog), Merge(presets, catalog[Canonical(name) := d]);
            && (v in ExpandedDomains(after, families, [name], []) <==>
                  exists s :: s in selectors && GivesDomain(before, after, families, s, v))
            && (v in ExpandedCidrs(after, [name], []) <==>
                  exists s :: s in selectors && GivesCidr(before, after, s, v))
  {
    var before, after := Merge(presets, catalog), Merge(presets, catalog[Canonical(name) := d]);
    ExpansionStep(after, families, name, v);
    DefinitionLists(before, selectors, v);
    forall x ensures x in d.services <==> exists s :: s in selectors && Names(before, s, x) {
      DefinitionLists(before, selectors, x);
    }
    NamedServicesGive(before, after, families, selectors, d, v);
  }

  /** A service that was set expands to exactly the hosts, or IPv4 ranges, among its selectors and to what the
      services named by the others expand to. */
  method SetThenExpand(store: SettingsStore, presets: Catalog, families: map<string, string>, name: string,
                       selectors: seq<Selector>, firewallAccepts: bool, saves: bool, reapplies: bool)
    returns (r: SetOutcome, domains: seq<string>, cidrs: seq<string>)
    requires IsPresetTable(presets) && StoredCatalog(presets, store.settings.catalog)
    modifies store
    ensures NoDuplicates(domains) && NoDuplicates(cidrs)
    ensures !r.Refused? ==>
              var before, after := Merge(presets, old(store.settings.catalog)), Merge(presets, store.settings.catalog);
              forall v ::
                && (v in domains <==> exists s :: s in selectors && GivesDomain(before, after, families, s, v))
                && (v in cidrs <==> exists s :: s in selectors && GivesCidr(before, after, s, v))
  {
    ghost var catalog := store.settings.catalog;
    r := store.Set(presets, name, selectors, firewallAccepts, saves, reapplies);
    var registry := Merge(presets, store.settings.catalog);
    domains := ExpandTargetDomains(registry, families, [name], []);
    cidrs := ExpandTargetCidrs(registry, [name], []);
    ExpandedDomainsMeaning(registry, families, [name], []);
    ExpandedCidrsMeaning(registry, [name], []);
    if !r.Refused? {
      ghost var before := Merge(presets, catalog);
      forall v
        ensures (v in domains <==> exists s :: s in selectors && GivesDomain(before, registry, families, s, v))
             && (v in cidrs <==> exists s :: s in selectors && GivesCidr(before, registry, s, v))
      {
        SetServiceExpands(presets, catalog, families, name, selectors, DefinitionOf(before, selectors), v);
      }
    }
  }
}
