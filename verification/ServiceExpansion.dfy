/** Expansion of services and literal selectors to domain and CIDR lists.

    The walk goes over the include graph depth first, remembers only the names on the current path, and
    skips values it has already emitted. `Emitted` is that walk without the skipping; the methods are
    proved equal to it with duplicates dropped, and `EmittedMeaning` says which values it holds. */
module ServiceExpansion {
  import opened Text
  import opened ServiceGraph
  import opened ServiceCatalog

  /** `out` followed by the values of `more` it does not hold yet, each once. */
  function AppendNew(out: seq<string>, more: seq<string>): (r: seq<string>)
    ensures out <= r
    decreases |more|
  {
    if more == [] then out
    else AppendNew(if more[0] in out then out else out + [more[0]], more[1..])
  }

  ghost predicate NoDuplicates(s: seq<string>) {
    forall i, j :: 0 <= i < j < |s| ==> s[i] != s[j]
  }

  lemma {:induction false} AppendNewConcat(out: seq<string>, a: seq<string>, b: seq<string>)
    ensures AppendNew(out, a + b) == AppendNew(AppendNew(out, a), b)
    decreases |a|
  {
    if a == [] {
      assert a + b == b;
    } else {
      assert (a + b)[0] == a[0] && (a + b)[1..] == a[1..] + b;
      AppendNewConcat(if a[0] in out then out else out + [a[0]], a[1..], b);
    }
  }

  lemma {:induction false} AppendNewContents(out: seq<string>, more: seq<string>)
    ensures forall v :: v in AppendNew(out, more) <==> v in out || v in more
    ensures NoDuplicates(out) ==> NoDuplicates(AppendNew(out, more))
    decreases |more|
  {
    if more != [] {
      AppendNewContents(if more[0] in out then out else out + [more[0]], more[1..]);
      assert forall v :: v in more <==> v == more[0] || v in more[1..];
    }
  }

  /** Everything a depth-first walk from `service` meets, in order, duplicates included. */
  function Emitted(registry: Catalog, kind: Kind, service: string, visiting: set<string>): seq<string>
    decreases registry.Keys - visiting, 0
  {
    var name := Canonical(service);
    if name !in registry || name in visiting then []
    else
      assert name in registry.Keys - visiting;
      EmittedAll(registry, kind, registry[name].services, visiting + {name}) + Entries(registry[name], kind)
  }

  function EmittedAll(registry: Catalog, kind: Kind, services: seq<string>, visiting: set<string>): seq<string>
    decreases registry.Keys - visiting, |services|
  {
    if services == [] then []
    else EmittedAll(registry, kind, services[..|services| - 1], visiting) +
         Emitted(registry, kind, services[|services| - 1], visiting)
  }

  /** `value` is an entry of a registered service that `from` reaches off the path `avoid`. */
  ghost predicate Supplies(registry: Catalog, kind: Kind, from: string, avoid: set<string>, value: string) {
    exists t :: t in registry && Reaches(ExpandGraph(registry), from, t, avoid) && value in Entries(registry[t], kind)
  }

  /** The walk with only a path set still meets exactly the entries of every reachable service. */
  lemma {:induction false} EmittedMeaning(registry: Catalog, kind: Kind, service: string, visiting: set<string>)
    ensures forall v :: v in Emitted(registry, kind, service, visiting) <==>
                        Supplies(registry, kind, Canonical(service), visiting, v)
    decreases registry.Keys - visiting, 0
  {
    var g := ExpandGraph(registry);
    var name := Canonical(service);
    if name !in registry {
      forall t | t in registry ensures !Reaches(g, name, t, visiting) {
        if name !in visiting { ReachesStep(g, name, t, visiting); }
      }
    } else if name in visiting {
    } else {
      assert name in registry.Keys - visiting;
      var d := registry[name];
      var inner := visiting + {name};
      EmittedAllMeaning(registry, kind, d.services, inner);
      forall v
        ensures v in Emitted(registry, kind, service, visiting) <==> Supplies(registry, kind, name, visiting, v)
      {
        forall t ensures Reaches(g, name, t, visiting) <==>
                         name == t || exists i ::
                           0 <= i < |d.services| && Reaches(g, Canonical(d.services[i]), t, inner) {
          ReachesStep(g, name, t, visiting);
          assert g[name] == CanonicalAll(d.services);
        }
      }
    }
  }

  ghost predicate SuppliedByAny(registry: Catalog, kind: Kind, services: seq<string>, avoid: set<string>, value: string)
  {
    exists service :: service in services && Supplies(registry, kind, Canonical(service), avoid, value)
  }

  lemma {:induction false} EmittedAllMeaning(registry: Catalog, kind: Kind, services: seq<string>,
                                             visiting: set<string>)
    ensures forall v :: v in EmittedAll(registry, kind, services, visiting) <==>
                        SuppliedByAny(registry, kind, services, visiting, v)
    decreases registry.Keys - visiting, |services|
  {
    if services != [] {
      var last := |services| - 1;
      EmittedAllMeaning(registry, kind, services[..last], visiting);
      EmittedMeaning(registry, kind, services[last], visiting);
      forall v ensures v in EmittedAll(registry, kind, services, visiting) <==>
                       SuppliedByAny(registry, kind, services, visiting, v) {
        assert forall s :: s in services <==> s in services[..last] || s == services[last];
      }
    }
  }

  /** Literal domains are lower-cased and trimmed, blanks are dropped, and a family's root domain
      stands for its whole built-in service. */
  function LiteralDomain(registry: Catalog, families: map<string, string>, text: string): seq<string> {
    var domain := TrimLower(text);
    if domain == "" then []
    else if domain in families then Emitted(registry, Domains, families[domain], {})
    else [domain]
  }

  function LiteralCidr(text: string): seq<string> {
    var cidr := TrimSpace(text);
    if cidr == "" then [] else [cidr]
  }

  function LiteralDomains(registry: Catalog, families: map<string, string>, texts: seq<string>): seq<string> {
    if texts == [] then []
    else LiteralDomains(registry, families, texts[..|texts| - 1]) +
         LiteralDomain(registry, families, texts[|texts| - 1])
  }

  function LiteralCidrs(texts: seq<string>): seq<string> {
    if texts == [] then []
    else LiteralCidrs(texts[..|texts| - 1]) + LiteralCidr(texts[|texts| - 1])
  }

  /** What the two expanders return: first occurrences, services before literals. */
  function ExpandedDomains(registry: Catalog, families: map<string, string>, services: seq<string>,
                           domains: seq<string>): seq<string>
  {
    AppendNew([], EmittedAll(registry, Domains, services, {}) + LiteralDomains(registry, families, domains))
  }

  function ExpandedCidrs(registry: Catalog, services: seq<string>, cidrs: seq<string>): seq<string> {
    AppendNew([], EmittedAll(registry, Cidrs, services, {}) + LiteralCidrs(cidrs))
  }

  lemma {:induction false} LiteralDomainAt(registry: Catalog, families: map<string, string>, texts: seq<string>,
                                           v: string)
    returns (i: nat)
    requires v in LiteralDomains(registry, families, texts)
    ensures i < |texts| && v in LiteralDomain(registry, families, texts[i])
  {
    i := |texts| - 1;
    if v !in LiteralDomain(registry, families, texts[i]) { i := LiteralDomainAt(registry, families, texts[..i], v); }
  }

  lemma {:induction false} LiteralDomainIsIn(registry: Catalog, families: map<string, string>, texts: seq<string>,
                                             i: nat, v: string)
    requires i < |texts| && v in LiteralDomain(registry, families, texts[i])
    ensures v in LiteralDomains(registry, families, texts)
  {
    if i < |texts| - 1 { LiteralDomainIsIn(registry, families, texts[..|texts| - 1], i, v); }
  }

  lemma LiteralDomainsMeaning(registry: Catalog, families: map<string, string>, texts: seq<string>)
    ensures forall v :: v in LiteralDomains(registry, families, texts) <==>
                        exists i :: 0 <= i < |texts| && v in LiteralDomain(registry, families, texts[i])
  {
    forall v | v in LiteralDomains(registry, families, texts)
      ensures exists i :: 0 <= i < |texts| && v in LiteralDomain(registry, families, texts[i])
    {
      var i := LiteralDomainAt(registry, families, texts, v);
    }
    forall i, v | 0 <= i < |texts| && v in LiteralDomain(registry, families, texts[i])
      ensures v in LiteralDomains(registry, families, texts)
    {
      LiteralDomainIsIn(registry, families, texts, i, v);
    }
  }

  lemma {:induction false} LiteralCidrsMeaning(texts: seq<string>)
    ensures forall v :: v in LiteralCidrs(texts) <==>
              v != "" && exists i :: 0 <= i < |texts| && v == TrimSpace(texts[i])
  {
    if texts != [] {
      var last := |texts| - 1;
      LiteralCidrsMeaning(texts[..last]);
      forall v
        ensures v in LiteralCidrs(texts) <==> v != "" && exists i :: 0 <= i < |texts| && v == TrimSpace(texts[i])
      {
        if v in LiteralCidrs(texts[..last]) {
          var i :| 0 <= i < last && v == TrimSpace(texts[..last][i]);
          assert v == TrimSpace(texts[i]);
        }
        if i :| 0 <= i < last && v == TrimSpace(texts[i]) && v != "" {
          assert texts[..last][i] == texts[i];
        }
      }
    }
  }

  /** A domain belongs to the expansion: it comes from a service reachable from a root or from the
      service a family domain stands for, or it is one of the literals. */
  ghost predicate BelongsToDomains(registry: Catalog, families: map<string, string>, services: seq<string>,
                                   domains: seq<string>, v: string)
  {
    || SuppliedByAny(registry, Domains, services, {}, v)
    || (exists i :: 0 <= i < |domains| && TrimLower(domains[i]) in families &&
          TrimLower(domains[i]) != "" && Supplies(registry, Domains, Canonical(families[TrimLower(domains[i])]), {}, v))
    || (exists i :: 0 <= i < |domains| && v == TrimLower(domains[i]) && v != "" && v !in families)
  }

  ghost predicate BelongsToCidrs(registry: Catalog, services: seq<string>, cidrs: seq<string>, v: string) {
    || SuppliedByAny(registry, Cidrs, services, {}, v)
    || (exists i :: 0 <= i < |cidrs| && v == TrimSpace(cidrs[i]) && v != "")
  }

  lemma ExpandedDomainsMeaning(registry: Catalog, families: map<string, string>, services: seq<string>,
                               domains: seq<string>)
    ensures NoDuplicates(ExpandedDomains(registry, families, services, domains))
    ensures forall v :: v in ExpandedDomains(registry, families, services, domains) <==>
                        BelongsToDomains(registry, families, services, domains, v)
  {
    var fromServices := EmittedAll(registry, Domains, services, {});
    AppendNewContents([], fromServices + LiteralDomains(registry, families, domains));
    EmittedAllMeaning(registry, Domains, services, {});
    LiteralDomainsMeaning(registry, families, domains);
    forall i | 0 <= i < |domains| && TrimLower(domains[i]) in families
      ensures forall v :: v in Emitted(registry, Domains, families[TrimLower(domains[i])], {}) <==>
                          Supplies(registry, Domains, Canonical(families[TrimLower(domains[i])]), {}, v) {
      EmittedMeaning(registry, Domains, families[TrimLower(domains[i])], {});
    }
  }

  lemma ExpandedCidrsMeaning(registry: Catalog, services: seq<string>, cidrs: seq<string>)
    ensures NoDuplicates(ExpandedCidrs(registry, services, cidrs))
    ensures forall v :: v in ExpandedCidrs(registry, services, cidrs) <==> BelongsToCidrs(registry, services, cidrs, v)
  {
    AppendNewContents([], EmittedAll(registry, Cidrs, services, {}) + LiteralCidrs(cidrs));
    EmittedAllMeaning(registry, Cidrs, services, {});
    LiteralCidrsMeaning(cidrs);
  }

  /** The accumulators one expansion shares between its walks. */
  class Expansion {
    var out: seq<string>
    var seen: set<string>
    var visiting: set<string>

    ghost predicate Valid()
      reads this
    {
      forall v :: v in seen <==> v in out
    }

    constructor ()
      ensures Valid() && out == [] && visiting == {}
    {
      out, seen, visiting := [], {}, {};
    }

    method AppendService(registry: Catalog, kind: Kind, service: string)
      requires Valid()
      modifies this
      ensures Valid() && visiting == old(visiting)
      ensures out == AppendNew(old(out), Emitted(registry, kind, service, old(visiting)))
      decreases registry.Keys - visiting, 0
    {
      var name := Canonical(service);
      if name !in registry {
        return;
      }
      if name in visiting {
        return;
      }
      assert name in registry.Keys - visiting;
      visiting := visiting + {name};
      AppendServices(registry, kind, registry[name].services);
      ghost var included := EmittedAll(registry, kind, registry[name].services, visiting);
      AppendValues(Entries(registry[name], kind));
      AppendNewConcat(old(out), included, Entries(registry[name], kind));
      visiting := visiting - {name};
    }

    /** The loop over included services, and over the roots of an expansion. */
    method AppendServices(registry: Catalog, kind: Kind, services: seq<string>)
      requires Valid()
      modifies this
      ensures Valid() && visiting == old(visiting)
      ensures out == AppendNew(old(out), EmittedAll(registry, kind, services, old(visiting)))
      decreases registry.Keys - visiting, 1
    {
      for i := 0 to |services|
        invariant Valid() && visiting == old(visiting)
        invariant out == AppendNew(old(out), EmittedAll(registry, kind, services[..i], visiting))
      {
        assert services[..i + 1][..i] == services[..i];
        AppendNewConcat(old(out), EmittedAll(registry, kind, services[..i], visiting),
                        Emitted(registry, kind, services[i], visiting));
        AppendService(registry, kind, services[i]);
      }
      assert services[..|services|] == services;
    }

    method AppendValues(values: seq<string>)
      requires Valid()
      modifies this
      ensures Valid() && visiting == old(visiting)
      ensures out == AppendNew(old(out), values)
    {
      for i := 0 to |values|
        invariant Valid() && visiting == old(visiting)
        invariant out == AppendNew(old(out), values[..i])
      {
        assert values[..i + 1] == values[..i] + [values[i]];
        AppendNewConcat(old(out), values[..i], [values[i]]);
        if values[i] !in seen {
          seen := seen + {values[i]};
          out := out + [values[i]];
        }
      }
      assert values[..|values|] == values;
    }

    method AppendLiteralDomain(registry: Catalog, families: map<string, string>, text: string)
      requires Valid() && visiting == {}
      modifies this
      ensures Valid() && visiting == {}
      ensures out == AppendNew(old(out), LiteralDomain(registry, families, text))
    {
      var domain := TrimLower(text);
      if domain == "" {
        return;
      }
      if domain in families {
        AppendService(registry, Domains, families[domain]);
        return;
      }
      AppendValues([domain]);
    }
  }

  method ExpandTargetDomains(registry: Catalog, families: map<string, string>, services: seq<string>,
                             domains: seq<string>)
    returns (out: seq<string>)
    ensures out == ExpandedDomains(registry, families, services, domains)
  {
    var e := new Expansion();
    e.AppendServices(registry, Domains, services);
    ghost var roots := e.out;
    for i := 0 to |domains|
      invariant e.Valid() && e.visiting == {}
      invariant e.out == AppendNew(roots, LiteralDomains(registry, families, domains[..i]))
    {
      assert domains[..i + 1][..i] == domains[..i];
      AppendNewConcat(roots, LiteralDomains(registry, families, domains[..i]),
                      LiteralDomain(registry, families, domains[i]));
      e.AppendLiteralDomain(registry, families, domains[i]);
    }
    assert domains[..|domains|] == domains;
    AppendNewConcat([], EmittedAll(registry, Domains, services, {}), LiteralDomains(registry, families, domains));
    out := e.out;
  }

  method ExpandTargetCidrs(registry: Catalog, services: seq<string>, cidrs: seq<string>) returns (out: seq<string>)
    ensures out == ExpandedCidrs(registry, services, cidrs)
  {
    var e := new Expansion();
    e.AppendServices(registry, Cidrs, services);
    ghost var roots := e.out;
    for i := 0 to |cidrs|
      invariant e.Valid() && e.visiting == {}
      invariant e.out == AppendNew(roots, LiteralCidrs(cidrs[..i]))
    {
      assert cidrs[..i + 1][..i] == cidrs[..i];
      AppendNewConcat(roots, LiteralCidrs(cidrs[..i]), LiteralCidr(cidrs[i]));
      var cidr := TrimSpace(cidrs[i]);
      if cidr == "" {
        continue;
      }
      e.AppendValues([cidr]);
    }
    assert cidrs[..|cidrs|] == cidrs;
    AppendNewConcat([], EmittedAll(registry, Cidrs, services, {}), LiteralCidrs(cidrs));
    out := e.out;
  }
}
