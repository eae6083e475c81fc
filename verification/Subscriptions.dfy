/** Subscriptions, their nodes, and the keys that exclude a node from automatic selection. The list of
    keys is kept as a set: it is only ever searched. */
module Subscriptions {
  import opened Wrappers
  import opened Text

  datatype Node = Node(id: string, name: string, amneziaWg: bool)

  datatype Subscription = Subscription(id: string, nodes: seq<Node>, expiresAt: Option<int>)

  const NO_NODE := Node("", "", false)
  const NO_SUBSCRIPTION := Subscription("", [], None)

  predicate IsExpired(sub: Subscription, now: int) {
    sub.expiresAt.Some? && sub.expiresAt.value <= now
  }

  function FindNode(nodes: seq<Node>, id: string): (found: Option<Node>)
    ensures found.Some? ==> found.value in nodes && found.value.id == id
    ensures found.None? ==> forall n :: n in nodes ==> n.id != id
  {
    if nodes == [] then None
    else if nodes[0].id == id then Some(nodes[0])
    else FindNode(nodes[1..], id)
  }

  function Key(sub: string, node: string): string {
    var s, n := TrimSpace(sub), TrimSpace(node);
    if s == "" || n == "" then "" else s + "/" + n
  }

  /** The index of the first slash, or the length. */
  function Slash(s: string): (i: nat)
    ensures i <= |s| && '/' !in s[..i]
    ensures i < |s| ==> s[i] == '/'
  {
    if s == [] || s[0] == '/' then 0 else 1 + Slash(s[1..])
  }

  function SplitKey(raw: string): Option<(string, string)> {
    var s := TrimSpace(raw);
    var cut := Slash(s);
    if cut == 0 || cut >= |s| - 1 then None
    else
      var sub, node := TrimSpace(s[..cut]), TrimSpace(s[cut + 1..]);
      if sub == "" || node == "" then None else Some((sub, node))
  }

  function Rekeyed(raw: string): Option<string> {
    match SplitKey(raw)
    case None => None
    case Some(pair) => Some(Key(pair.0, pair.1))
  }

  function Normalized(values: set<string>): set<string> {
    set v | v in values && Rekeyed(v).Some? :: Rekeyed(v).value
  }

  predicate Names(value: string, target: string) {
    TrimSpace(value) == target || Rekeyed(value) == Some(target)
  }

  predicate IsExcluded(values: set<string>, sub: string, node: string) {
    Key(sub, node) != "" && exists v :: v in values && Names(v, Key(sub, node))
  }

  // ----- What appending a key and normalising does -----

  /** IDs whose key survives being split and built again. */
  predicate Addressable(sub: string, node: string) {
    Rekeyed(Key(sub, node)) == Some(Key(sub, node))
  }

  /** Neither ID is blank, and the subscription's has no slash in it. */
  predicate ArePlain(sub: string, node: string) {
    TrimSpace(sub) != "" && TrimSpace(node) != "" && '/' !in TrimSpace(sub)
  }

  predicate IsTrimmed(s: string) {
    s == "" || (!IsSpace(s[0]) && !IsSpace(s[|s| - 1]))
  }

  lemma {:induction false} TrimLeftTrims(s: string)
    ensures var r := TrimLeft(s); r == "" || !IsSpace(r[0])
  {
    if s != [] && IsSpace(s[0]) { TrimLeftTrims(s[1..]); }
  }

  lemma {:induction false} TrimRightTrims(s: string)
    ensures var r := TrimRight(s); r == "" || (r[0] == s[0] && !IsSpace(r[|r| - 1]))
  {
    if s != [] && IsSpace(s[|s| - 1]) { TrimRightTrims(s[..|s| - 1]); }
  }

  lemma TrimTrims(s: string)
    ensures IsTrimmed(TrimSpace(s))
    ensures IsTrimmed(s) ==> TrimSpace(s) == s
  {
    TrimLeftTrims(s);
    TrimRightTrims(TrimLeft(s));
  }

  lemma {:induction false} SlashAt(s: string, t: string)
    requires '/' !in s
    ensures Slash(s + "/" + t) == |s|
  {
    if s == [] {
      assert (s + "/" + t)[0] == '/';
    } else {
      assert (s + "/" + t)[1..] == s[1..] + "/" + t;
      SlashAt(s[1..], t);
    }
  }

  lemma SplitKeyOf(left: string, right: string)
    requires left != "" && right != "" && '/' !in left && IsTrimmed(left + "/" + right)
    requires TrimSpace(left) != "" && TrimSpace(right) != ""
    ensures SplitKey(left + "/" + right) == Some((TrimSpace(left), TrimSpace(right)))
  {
    var k := left + "/" + right;
    TrimTrims(k);
    SlashAt(left, right);
    assert k[..|left|] == left && k[|left| + 1..] == right;
  }

  /** Plain IDs are addressable: splitting their key gives them back. */
  lemma KeyRoundTrip(sub: string, node: string)
    requires ArePlain(sub, node)
    ensures SplitKey(Key(sub, node)) == Some((TrimSpace(sub), TrimSpace(node)))
    ensures Addressable(sub, node)
  {
    var s, n, k := TrimSpace(sub), TrimSpace(node), Key(sub, node);
    TrimTrims(sub);
    TrimTrims(node);
    assert k[0] == s[0] && k[|k| - 1] == n[|n| - 1];
    TrimTrims(s);
    TrimTrims(n);
    SplitKeyOf(s, n);
  }

  lemma RekeyedIsTrimmed(v: string)
    requires Rekeyed(v).Some?
    ensures IsTrimmed(Rekeyed(v).value) && Rekeyed(Rekeyed(v).value) == Rekeyed(v)
  {
    var s := TrimSpace(v);
    var cut := Slash(s);
    var pair := SplitKey(v).value;
    TrimTrims(s[..cut]);
    TrimTrims(s[cut + 1..]);
    TrimTrims(pair.0);
    TrimTrims(pair.1);
    TrimKeepsCharacters(s[..cut]);
    KeyRoundTrip(pair.0, pair.1);
  }

  lemma {:induction false} TrimLeftKeepsCharacters(s: string)
    ensures forall c :: c in TrimLeft(s) ==> c in s
  {
    if s != [] && IsSpace(s[0]) { TrimLeftKeepsCharacters(s[1..]); }
  }

  lemma {:induction false} TrimRightKeepsCharacters(s: string)
    ensures forall c :: c in TrimRight(s) ==> c in s
  {
    if s != [] && IsSpace(s[|s| - 1]) { TrimRightKeepsCharacters(s[..|s| - 1]); }
  }

  lemma TrimKeepsCharacters(s: string)
    ensures forall c :: c in TrimSpace(s) ==> c in s
  {
    TrimLeftKeepsCharacters(s);
    TrimRightKeepsCharacters(TrimLeft(s));
  }

  /** The key just appended excludes its node exactly when it survives being split and built again. */
  lemma ExclusionTakes(sub: string, node: string)
    ensures IsExcluded(Normalized({Key(sub, node)}), sub, node) <==> Addressable(sub, node)
  {
    var k := Key(sub, node);
    var values := Normalized({k});
    if Rekeyed(k).Some? {
      var r := Rekeyed(k).value;
      RekeyedIsTrimmed(k);
      TrimTrims(r);
      assert values == {r};
      if r == k {
        assert Names(r, k);
      }
    } else {
      assert values == {};
    }
  }

  lemma TrimIdempotent(v: string)
    ensures TrimSpace(TrimSpace(v)) == TrimSpace(v)
    ensures Rekeyed(TrimSpace(v)) == Rekeyed(v)
  {
    TrimTrims(v);
    TrimTrims(TrimSpace(v));
  }

  lemma NamesByKey(value: string, target: string)
    requires Rekeyed(target) == Some(target) && Names(value, target)
    ensures Rekeyed(value) == Some(target)
  {
    if TrimSpace(value) == target { TrimIdempotent(value); }
  }

  lemma AddressableIsNotBlank(sub: string, node: string)
    requires Addressable(sub, node)
    ensures Key(sub, node) != "" && sub != "" && node != ""
  {
    assert TrimSpace("") == "" && Rekeyed("") == None;
  }

  /** Excluding one more node never readmits another, and excludes that one. */
  lemma ExclusionsGrow(values: set<string>, extra: string, sub: string, node: string)
    requires Addressable(sub, node)
    requires IsExcluded(values, sub, node) || extra == Key(sub, node)
    ensures IsExcluded(Normalized(values + {extra}), sub, node)
  {
    var k := Key(sub, node);
    AddressableIsNotBlank(sub, node);
    assert Names(k, k);
    var v :| v in values + {extra} && Names(v, k);
    NamesByKey(v, k);
    assert k in Normalized(values + {extra}) && Names(k, k);
  }

  /** What normalised values exclude, the values behind them name. */
  lemma ExcludedBySource(values: set<string>, sub: string, node: string)
    requires Addressable(sub, node) && IsExcluded(Normalized(values), sub, node)
    ensures exists v :: v in values && Rekeyed(v) == Some(Key(sub, node))
  {
    var k := Key(sub, node);
    var r :| r in Normalized(values) && Names(r, k);
    var v :| v in values && Rekeyed(v) == Some(r);
    RekeyedIsTrimmed(v);
    NamesByKey(r, k);
  }

  lemma TrimDropsBlank(s: string)
    requires s != "" && IsTrimmed(s)
    ensures TrimSpace(s + " ") == s
  {
    var t := s + " ";
    assert TrimLeft(t) == t;
    assert t[..|t| - 1] == s;
    assert TrimRight(s) == s;
  }

  /** A blank before a slash inside the subscription's ID loses the exclusion. */
  lemma BlankBeforeSlashLosesExclusion(a: string, b: string, node: string)
    requires a != "" && b != "" && node != "" && IsTrimmed(a) && IsTrimmed(b) && IsTrimmed(node) && '/' !in a
    ensures !IsExcluded(Normalized({Key(a + " /" + b, node)}), a + " /" + b, node)
  {
    var sub := a + " /" + b;
    ExclusionTakes(sub, node);
    TrimTrims(sub);
    TrimTrims(node);
    var k, left, rest := Key(sub, node), a + " ", b + "/" + node;
    assert k == left + "/" + rest;
    assert k[0] == a[0] && k[|k| - 1] == node[|node| - 1];
    TrimDropsBlank(a);
    TrimTrims(rest);
    SplitKeyOf(left, rest);
    TrimTrims(a);
    assert |Key(a, rest)| == |k| - 1;
  }

  // ----- The IDs the program makes -----

  const SERVER_LIST := "server-list"
  const HEX_DIGITS := "0123456789abcdef"

  /** A digest after a prefix, or the list of single servers. */
  predicate IsGenerated(id: string) {
    id == SERVER_LIST
    || (|id| > 4 && id[..4] == "sub-" && forall i :: 4 <= i < |id| ==> id[i] in HEX_DIGITS)
  }

  /** Such IDs are plain, so that every exclusion of theirs survives. */
  lemma GeneratedIsPlain(sub: string, node: string)
    requires IsGenerated(sub) && TrimSpace(node) != ""
    ensures ArePlain(sub, node) && Addressable(sub, node)
  {
    if sub == SERVER_LIST {
      assert '/' !in sub && IsTrimmed(sub);
    } else {
      assert sub[0] == 's' && sub[1] == 'u' && sub[2] == 'b' && sub[3] == '-' by { assert sub == sub[..4] + sub[4..]; }
      forall i | 0 <= i < |sub| ensures sub[i] != '/' && !IsSpace(sub[i]) {
        if i >= 4 { assert sub[i] in HEX_DIGITS; }
      }
    }
    TrimTrims(sub);
    KeyRoundTrip(sub, node);
  }
}
