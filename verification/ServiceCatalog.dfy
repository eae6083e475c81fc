/** The registry of target services: built-in presets merged with the user's catalog.
    Every definition takes the preset table as a parameter, so the theorems hold for any preset table
    whose entries include no other service; `PresetTable.Presets` is the table shipped with the program. */
module ServiceCatalog {
  import opened Text
  import opened ServiceGraph

  datatype Definition = Definition(services: seq<string>, domains: seq<string>, cidrs: seq<string>)

  type Catalog = map<string, Definition>

  /** Which list of a definition an expansion collects. */
  datatype Kind = Domains | Cidrs

  function Entries(d: Definition, kind: Kind): seq<string> {
    if kind == Domains then d.domains else d.cidrs
  }

  const DEPRECATED_ALIAS := "telegram-web"
  const DEPRECATED_REPLACEMENT := "telegram"

  function Canonical(value: string): string {
    var name := TrimLower(value);
    if name == DEPRECATED_ALIAS then DEPRECATED_REPLACEMENT else name
  }

  predicate IsBuiltin(presets: Catalog, name: string) {
    Canonical(name) in presets
  }

  /** Presets win over custom entries of the same name. */
  function Merge(presets: Catalog, custom: Catalog): Catalog {
    custom + presets
  }

  /** What a preset table looks like: canonical names, the replacement of the deprecated alias among
      them, and no entry that includes another service. */
  ghost predicate IsPresetTable(presets: Catalog) {
    DEPRECATED_REPLACEMENT in presets &&
    forall name :: name in presets ==>
      IsAlias(name) && name != DEPRECATED_ALIAS && presets[name].services == []
  }

  /** Included services, as the expander follows them. */
  function CanonicalAll(names: seq<string>): (r: seq<string>)
    ensures |r| == |names| && forall i :: 0 <= i < |names| ==> r[i] == Canonical(names[i])
  {
    seq(|names|, i requires 0 <= i < |names| => Canonical(names[i]))
  }

  function ExpandGraph(registry: Catalog): Graph {
    map name | name in registry :: CanonicalAll(registry[name].services)
  }

  lemma CanonicalOfAlias(name: string)
    requires IsAlias(name) && name != DEPRECATED_ALIAS
    ensures Canonical(name) == name
  {
    AliasIsTrimmedLower(name);
  }
}
