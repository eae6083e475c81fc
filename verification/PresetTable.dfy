/** The preset table and the family domains shipped with the program. */
module PresetTable {
  import opened Text
  import opened ServiceCatalog
  import opened ServiceExpansion
  import opened ServiceDeletion

  const MOBILE_DOMAINS: seq<string> := ["myaccount.google.com", "one.google.com", "support.google.com",
                                        "www.google.com",
    "mtalk.google.com", "dns.google.com", "dns.google", "googleapis.com", "clients6.google.com",
    "gstatic.com", "googleusercontent.com"]

  const MOBILE_CIDRS: seq<string> := ["74.125.205.0/24", "173.194.73.0/24"]

  function MobileDomains(primaryHost: string): seq<string> {
    ["accounts.google.com", primaryHost] + MOBILE_DOMAINS
  }

  const PRESET_NAMES: set<string> := {"youtube", "instagram", "netflix", "discord", "whatsapp", "telegram", "twitter",
    "facetime", "gemini", "gemini-mobile", "notebooklm", "notebooklm-mobile"}

  function PresetDomains(name: string): seq<string> {
    if name == "youtube" then
      ["youtube.com", "youtu.be", "youtube-nocookie.com", "youtubei.googleapis.com",
       "youtube.googleapis.com", "googlevideo.com", "ytimg.com", "ggpht.com"]
    else if name == "instagram" then
      ["instagram.com", "cdninstagram.com", "fbcdn.net", "facebook.com", "facebook.net",
       "fbsbx.com"]
    else if name == "netflix" then
      ["netflix.com", "netflix.net", "nflxvideo.net", "nflximg.net", "nflximg.com",
       "nflxso.net", "nflxext.com", "nflxsearch.net", "fast.com"]
    else if name == "discord" then
      ["discord.com", "discord.gg", "discord.gift", "discord.media", "discordapp.com",
       "discordapp.net"]
    else if name == "whatsapp" then
      ["whatsapp.com", "web.whatsapp.com", "whatsapp.net", "static.whatsapp.net",
       "mmg.whatsapp.net", "graph.whatsapp.net", "pps.whatsapp.net", "g.whatsapp.net"]
    else if name == "telegram" then
      ["telegram.org", "t.me", "telegram.me", "web.telegram.org", "desktop.telegram.org",
       "core.telegram.org"]
    else if name == "twitter" then
      ["x.com", "twitter.com", "t.co", "twimg.com"]
    else if name == "facetime" then
      ["facetime.apple.com", "facetime.icloud.com", "gateway.icloud.com", "relay.icloud.com",
       "push.apple.com", "courier.push.apple.com"]
    else if name == "gemini" then
      ["accounts.google.com", "content.googleapis.com", "gemini.google.com",
       "geminiweb-pa.clients6.google.com", "generativelanguage.googleapis.com",
       "lh3.googleusercontent.com", "myaccount.google.com", "ogads-pa.clients6.google.com",
       "one.google.com", "ssl.gstatic.com", "support.google.com",
       "waa-pa.clients6.google.com", "www.google.com", "www.gstatic.com"]
    else if name == "gemini-mobile" then
      MobileDomains("gemini.google.com")
    else if name == "notebooklm" then
      ["accounts.google.com", "content.googleapis.com", "generativelanguage.googleapis.com",
       "lh3.googleusercontent.com", "notebooklm.google.com"]
    else if name == "notebooklm-mobile" then
      MobileDomains("notebooklm.google.com")
    else []
  }

  function PresetCidrs(name: string): seq<string> {
    if name == "telegram" then ["91.108.0.0/16", "149.154.0.0/16"]
    else if name in {"gemini-mobile", "notebooklm-mobile"} then MOBILE_CIDRS
    else []
  }

  /** No preset includes another service. */
  function Presets(): Catalog {
    map name | name in PRESET_NAMES :: Definition([], PresetDomains(name), PresetCidrs(name))
  }

  function Families(): map<string, string> {
    map[
      "youtube.com" := "youtube",
      "instagram.com" := "instagram",
      "netflix.com" := "netflix",
      "discord.com" := "discord",
      "whatsapp.com" := "whatsapp",
      "x.com" := "twitter",
      "twitter.com" := "twitter",
      "gemini.google.com" := "gemini",
      "notebooklm.google.com" := "notebooklm",
      "telegram.org" := "telegram",
      "web.telegram.org" := "telegram",
      "facetime.apple.com" := "facetime"
    ]
  }

  lemma PresetNamesAreAliases()
    ensures forall name :: name in PRESET_NAMES ==> IsAlias(name) && name != DEPRECATED_ALIAS
  {
  }

  /** The hypotheses of the catalog theorems hold of the shipped tables. */
  lemma ShippedTables()
    ensures IsPresetTable(Presets()) && IsFamilyTable(Presets(), Families())
  {
    PresetNamesAreAliases();
    forall d | d in Families() ensures Canonical(Families()[d]) in Presets() {
      CanonicalOfAlias(Families()[d]);
    }
  }

  /** Whatever the user's catalog holds, a built-in service stands for its own list. */
  lemma PresetEmitsItself(presets: Catalog, custom: Catalog, kind: Kind, name: string)
    requires IsPresetTable(presets) && name in presets
    ensures Emitted(Merge(presets, custom), kind, name, {}) == Entries(presets[name], kind)
    ensures EmittedAll(Merge(presets, custom), kind, [name], {}) == Entries(presets[name], kind)
  {
    CanonicalOfAlias(name);
    var registry := Merge(presets, custom);
    assert registry[name] == presets[name];
    assert EmittedAll(registry, kind, presets[name].services, {name}) == [];
    assert [name][..0] == [];
  }

  lemma ServiceAlone(registry: Catalog, families: map<string, string>, name: string)
    ensures ExpandedDomains(registry, families, [name], []) == AppendNew([], EmittedAll(registry, Domains, [name], {}))
    ensures ExpandedCidrs(registry, [name], []) == AppendNew([], EmittedAll(registry, Cidrs, [name], {}))
  {
    assert EmittedAll(registry, Domains, [name], {}) + [] == EmittedAll(registry, Domains, [name], {});
    assert EmittedAll(registry, Cidrs, [name], {}) + [] == EmittedAll(registry, Cidrs, [name], {});
  }

  lemma PresetExpandsToItself(custom: Catalog, name: string)
    requires name in PRESET_NAMES
    ensures ExpandedDomains(Merge(Presets(), custom), Families(), [name], []) == AppendNew([], PresetDomains(name))
    ensures ExpandedCidrs(Merge(Presets(), custom), [name], []) == AppendNew([], PresetCidrs(name))
  {
    ShippedTables();
    TableExpandsToItself(Presets(), custom, Families(), name);
  }

  lemma TableExpandsToItself(presets: Catalog, custom: Catalog, families: map<string, string>, name: string)
    requires IsPresetTable(presets) && name in presets
    ensures ExpandedDomains(Merge(presets, custom), families, [name], []) == AppendNew([], presets[name].domains)
    ensures ExpandedCidrs(Merge(presets, custom), [name], []) == AppendNew([], presets[name].cidrs)
  {
    ServiceAlone(Merge(presets, custom), families, name);
    PresetEmitsItself(presets, custom, Domains, name);
    PresetEmitsItself(presets, custom, Cidrs, name);
  }

  lemma FamiliesArePresets()
    ensures "" !in Families() && forall d :: d in Families() ==> Families()[d] in PRESET_NAMES
  {
  }

  /** A family's root domain, in any case and padding, stands for the same list. */
  lemma FamilyExpandsToPreset(custom: Catalog, text: string)
    requires TrimLower(text) in Families()
    ensures ExpandedDomains(Merge(Presets(), custom), Families(), [], [text]) == AppendNew([],
        PresetDomains(Families()[TrimLower(text)]))
  {
    var name := Families()[TrimLower(text)];
    ShippedTables();
    FamiliesArePresets();
    PresetEmitsItself(Presets(), custom, Domains, name);
    FamilyLiteral(Merge(Presets(), custom), Families(), text);
  }

  lemma FamilyLiteral(registry: Catalog, families: map<string, string>, text: string)
    requires TrimLower(text) in families && "" !in families
    ensures ExpandedDomains(registry, families, [], [text]) == AppendNew([],
                                                                         Emitted(registry, Domains,
                                                                             families[TrimLower(text)], {}))
  {
    assert [text][..0] == [];
    assert LiteralDomains(registry, families, [text]) == Emitted(registry, Domains, families[TrimLower(text)], {});
  }
}
