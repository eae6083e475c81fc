/** The order in which reserve candidates are preferred. */
module ReserveRanking {
  import opened Wrappers
  import opened ProbeHealth
  import opened NodeSelection
  import opened Sorting

  /** A node as a reserve candidate: the IDs it is known by and the tag of its handler, if it has one. */
  datatype Candidate = Candidate(sub: string, node: string, tag: string)

  datatype Ranking = Ranking(candidate: Candidate, healthy: bool, score: real, known: bool)

  const SCORE_EQUIVALENCE := 100.0

  function RankingOf(c: Candidate, health: HealthMap): Ranking {
    var h := Lookup(health, c.node);
    Ranking(c, h.healthy, Score(h), c.node in health)
  }

  type Ranker = Candidate -> Ranking

  function RankerFor(health: HealthMap): Ranker {
    c => RankingOf(c, health)
  }

  function RankedBy(candidates: seq<Candidate>, rank: Ranker): (r: seq<Ranking>)
    ensures |r| == |candidates| && forall i :: 0 <= i < |r| ==> r[i] == rank(candidates[i])
  {
    seq(|candidates|, i requires 0 <= i < |candidates| => rank(candidates[i]))
  }

  function Rankings(candidates: seq<Candidate>, health: HealthMap): seq<Ranking> {
    RankedBy(candidates, RankerFor(health))
  }

  /** Known healthy nodes, then unknown ones, then known unhealthy ones. */
  function Tier(r: Ranking): nat {
    if r.known && r.healthy then 0 else if !r.known then 1 else 2
  }

  // ----- The order -----

  /** Byte-wise comparison of strings. */
  predicate LexLess(a: string, b: string) {
    b != "" && (a == "" || a[0] < b[0] || (a[0] == b[0] && LexLess(a[1..], b[1..])))
  }

  lemma {:induction false} LexIsTotal(a: string, b: string)
    ensures LexLess(a, b) ==> !LexLess(b, a)
    ensures LexLess(a, b) || LexLess(b, a) || a == b
    ensures a == b ==> !LexLess(a, b)
  {
    if a != "" && b != "" {
      LexIsTotal(a[1..], b[1..]);
      assert a == [a[0]] + a[1..] && b == [b[0]] + b[1..];
    }
  }

  lemma {:induction false} LexIsTransitive(a: string, b: string, c: string)
    ensures LexLess(a, b) && LexLess(b, c) ==> LexLess(a, c)
  {
    if a != "" && b != "" && c != "" { LexIsTransitive(a[1..], b[1..], c[1..]); }
  }

  predicate NamedBefore(a: Candidate, b: Candidate) {
    if a.sub != b.sub then LexLess(a.sub, b.sub)
    else if a.node != b.node then LexLess(a.node, b.node)
    else LexLess(a.tag, b.tag)
  }

  predicate RanksAhead(a: Ranking, b: Ranking) {
    if Tier(a) != Tier(b) then Tier(a) < Tier(b)
    else if a.score != b.score then a.score > b.score
    else NamedBefore(a.candidate, b.candidate)
  }

  lemma NamedBeforeIsTotal(a: Candidate, b: Candidate)
    ensures NamedBefore(a, b) ==> !NamedBefore(b, a)
    ensures NamedBefore(a, b) || NamedBefore(b, a) || a == b
    ensures a == b ==> !NamedBefore(a, b)
  {
    LexIsTotal(a.sub, b.sub);
    LexIsTotal(a.node, b.node);
    LexIsTotal(a.tag, b.tag);
  }

  lemma NamedBeforeIsTransitive(a: Candidate, b: Candidate, c: Candidate)
    ensures NamedBefore(a, b) && NamedBefore(b, c) ==> NamedBefore(a, c)
  {
    LexIsTransitive(a.sub, b.sub, c.sub);
    LexIsTransitive(a.node, b.node, c.node);
    LexIsTransitive(a.tag, b.tag, c.tag);
    LexIsTotal(a.sub, b.sub);
    LexIsTotal(a.node, b.node);
  }

  lemma RanksAheadIsOrder()
    ensures IsOrder(RanksAhead)
  {
    forall x, y | RanksAhead(x, y) ensures !RanksAhead(y, x) {
      NamedBeforeIsTotal(x.candidate, y.candidate);
    }
    forall x, y, z | !RanksAhead(y, x) && !RanksAhead(z, y) ensures !RanksAhead(z, x) {
      NamedBeforeIsTotal(x.candidate, y.candidate);
      NamedBeforeIsTotal(y.candidate, z.candidate);
      NamedBeforeIsTotal(x.candidate, z.candidate);
      NamedBeforeIsTransitive(x.candidate, y.candidate, z.candidate);
    }
  }

  /** Two different rankings of one health map are always told apart. */
  lemma RankingsAreSeparated(candidates: seq<Candidate>, health: HealthMap)
    ensures Separates(Rankings(candidates, health), RanksAhead)
  {
    var r := Rankings(candidates, health);
    forall x, y | x in r && y in r && x != y ensures RanksAhead(x, y) || RanksAhead(y, x) {
      NamedBeforeIsTotal(x.candidate, y.candidate);
    }
  }

  // ----- The second slot -----

  /** The first entry from k on that may take the second slot, or the length. */
  function Alternative(s: seq<Ranking>, k: nat): (i: nat)
    requires 2 <= k <= |s|
    ensures k <= i <= |s|
    ensures i < |s| ==>
              Tier(s[i]) == Tier(s[1]) && s[i].score >= s[1].score - SCORE_EQUIVALENCE &&
              s[i].candidate.sub != s[0].candidate.sub
    decreases |s| - k
  {
    if k == |s| || Tier(s[k]) != Tier(s[1]) || s[k].score < s[1].score - SCORE_EQUIVALENCE then |s|
    else if s[k].candidate.sub != s[0].candidate.sub then k
    else Alternative(s, k + 1)
  }

  function Diversified(s: seq<Ranking>): (r: seq<Ranking>)
    ensures |r| == |s|
  {
    if |s| < 3 || s[0].candidate.sub != s[1].candidate.sub || Alternative(s, 2) == |s| then s
    else
      var i := Alternative(s, 2);
      [s[0], s[i]] + s[1..i] + s[i + 1..]
  }

  /** Moves entry i to the second slot and the ones between one place down. */
  method MoveToSecond(ranked: array<Ranking>, i: nat)
    requires 2 <= i < ranked.Length
    modifies ranked
    ensures ranked[..] == old(ranked[0..1] + [ranked[i]] + ranked[1..i] + ranked[i + 1..])
  {
    ghost var s := ranked[..];
    var candidate, k := ranked[i], i;
    while k > 1
      invariant 1 <= k <= i < ranked.Length == |s|
      invariant forall j :: 0 <= j <= k || i < j < ranked.Length ==> ranked[j] == s[j]
      invariant forall j {:trigger ranked[j]} :: k < j <= i ==> ranked[j] == s[j - 1]
    {
      ranked[k] := ranked[k - 1];
      k := k - 1;
    }
    ranked[1] := candidate;
    assert ranked[..] == s[0..1] + [s[i]] + s[1..i] + s[i + 1..];
  }

  method PreferEquivalentDifferentSubscription(ranked: array<Ranking>)
    modifies ranked
    ensures ranked[..] == Diversified(old(ranked[..]))
  {
    if ranked.Length < 3 || ranked[0].candidate.sub != ranked[1].candidate.sub {
      return;
    }
    ghost var s := ranked[..];
    var secondTier, minimum := Tier(ranked[1]), ranked[1].score - SCORE_EQUIVALENCE;
    var i := 2;
    while i < ranked.Length
      invariant 2 <= i <= ranked.Length && ranked[..] == s
      invariant Alternative(s, 2) == Alternative(s, i)
    {
      var candidate := ranked[i];
      assert candidate == s[i];
      if Tier(candidate) != secondTier || candidate.score < minimum {
        return;
      }
      if candidate.candidate.sub != ranked[0].candidate.sub {
        MoveToSecond(ranked, i);
        assert s[0..1] + [s[i]] == [s[0], s[i]];
        return;
      }
      i := i + 1;
    }
  }

  /** The entries of a tier score no better the later they come. */
  lemma SortedFalls(s: seq<Ranking>, i: nat, j: nat)
    requires Sorted(s, RanksAhead) && i < j < |s|
    ensures Tier(s[i]) < Tier(s[j]) || (Tier(s[i]) == Tier(s[j]) && s[i].score >= s[j].score)
  {
    assert !RanksAhead(s[j], s[i]);
  }

  /** In a sorted list the search that stops early still finds an alternative whenever there is one. */
  lemma {:induction false} AlternativeIsFound(s: seq<Ranking>, k: nat, j: nat)
    requires Sorted(s, RanksAhead) && 2 <= k <= j < |s|
    requires Tier(s[j]) == Tier(s[1]) && s[j].score >= s[1].score - SCORE_EQUIVALENCE
    requires s[j].candidate.sub != s[0].candidate.sub
    ensures Alternative(s, k) <= j
    decreases |s| - k
  {
    SortedFalls(s, 1, k);
    if k < j {
      SortedFalls(s, k, j);
      AlternativeIsFound(s, k + 1, j);
    }
  }

  lemma MovingPermutes<T>(s: seq<T>, i: nat)
    requires 1 <= i < |s|
    ensures multiset([s[0], s[i]] + s[1..i] + s[i + 1..]) == multiset(s)
  {
    var a, b, c, d := [s[0]], s[1..i], [s[i]], s[i + 1..];
    assert s == a + b + c + d;
    assert [s[0], s[i]] == a + c;
  }

  lemma DiversifiedPermutes(s: seq<Ranking>)
    ensures multiset(Diversified(s)) == multiset(s)
  {
    if Diversified(s) != s { MovingPermutes(s, Alternative(s, 2)); }
  }

  function WithoutSecond(s: seq<Ranking>): seq<Ranking> {
    if |s| < 2 then s else [s[0]] + s[2..]
  }

  // ----- The ranking -----

  function Order(candidates: seq<Candidate>, health: HealthMap): (r: seq<Ranking>)
    ensures |r| == |candidates|
  {
    Diversified(StableSort(Rankings(candidates, health), RanksAhead))
  }

  function Candidates(s: seq<Ranking>): (r: seq<Candidate>)
    ensures |r| == |s| && forall i :: 0 <= i < |s| ==> r[i] == s[i].candidate
  {
    seq(|s|, i requires 0 <= i < |s| => s[i].candidate)
  }

  method RankWith(candidates: seq<Candidate>, rank: Ranker) returns (ordered: seq<Candidate>)
    ensures ordered == Candidates(Diversified(StableSort(RankedBy(candidates, rank), RanksAhead)))
  {
    var ranked: seq<Ranking> := [];
    for i := 0 to |candidates|
      invariant ranked == RankedBy(candidates, rank)[..i]
    {
      ranked := ranked + [rank(candidates[i])];
    }
    assert ranked == RankedBy(candidates, rank);
    var sorted := StableSort(ranked, RanksAhead);
    var slots := new Ranking[|sorted|](i requires 0 <= i < |sorted| => sorted[i]);
    assert slots[..] == sorted;
    PreferEquivalentDifferentSubscription(slots);
    ordered := Unwrapped(slots);
  }

  method Unwrapped(slots: array<Ranking>) returns (ordered: seq<Candidate>)
    ensures ordered == Candidates(slots[..])
  {
    ordered := [];
    for i := 0 to slots.Length
      invariant ordered == Candidates(slots[..])[..i]
    {
      ordered := ordered + [slots[i].candidate];
    }
  }

  method RankManagedReserveCandidates(candidates: seq<Candidate>, health: HealthMap) returns (ordered: seq<Candidate>)
    ensures ordered == Candidates(Order(candidates, health))
  {
    ordered := RankWith(candidates, RankerFor(health));
  }

  /** The order is a permutation; the best candidate comes first; leaving the second slot aside the rest
      stays sorted; the second slot keeps its tier and gives up at most 100 points for another subscription. */
  lemma OrderIsSound(candidates: seq<Candidate>, health: HealthMap)
    ensures var r, s := Order(candidates, health), StableSort(Rankings(candidates, health), RanksAhead);
            && multiset(r) == multiset(Rankings(candidates, health))
            && Sorted(WithoutSecond(r), RanksAhead)
            && (r != [] ==> r[0] == s[0] && forall x :: x in r ==> !RanksAhead(x, r[0]))
            && (|r| >= 2 ==> Tier(r[1]) == Tier(s[1]) && s[1].score - SCORE_EQUIVALENCE <= r[1].score <= s[1].score)
  {
    var rankings := Rankings(candidates, health);
    var s := StableSort(rankings, RanksAhead);
    RanksAheadIsOrder();
    SortPermutes(rankings, RanksAhead);
    SortSorts(rankings, RanksAhead);
    DiversifiedPermutes(s);
    WithoutSecondIsSorted(s);
    if s != [] { BestStaysFirst(s); }
    if |s| >= 2 { SecondGivesUpLittle(s); }
  }

  lemma BestStaysFirst(s: seq<Ranking>)
    requires s != [] && Sorted(s, RanksAhead)
    ensures Diversified(s)[0] == s[0] && forall x :: x in Diversified(s) ==> !RanksAhead(x, s[0])
  {
    DiversifiedPermutes(s);
    NamedBeforeIsTotal(s[0].candidate, s[0].candidate);
    forall x | x in Diversified(s) ensures !RanksAhead(x, s[0]) {
      assert x in multiset(Diversified(s));
      var k :| 0 <= k < |s| && s[k] == x;
    }
  }

  lemma SecondGivesUpLittle(s: seq<Ranking>)
    requires |s| >= 2 && Sorted(s, RanksAhead)
    ensures var r := Diversified(s);
            Tier(r[1]) == Tier(s[1]) && s[1].score - SCORE_EQUIVALENCE <= r[1].score <= s[1].score
  {
    if |s| >= 3 && Alternative(s, 2) < |s| { SortedFalls(s, 1, Alternative(s, 2)); }
  }

  lemma WithoutSecondIsSorted(s: seq<Ranking>)
    requires Sorted(s, RanksAhead)
    ensures Sorted(WithoutSecond(Diversified(s)), RanksAhead)
  {
    var r := Diversified(s);
    if r != s {
      var i := Alternative(s, 2);
      assert WithoutSecond(r) == s[..i] + s[i + 1..];
    }
  }

  /** Health tiers never go down along the order. */
  lemma TiersAreInOrder(candidates: seq<Candidate>, health: HealthMap, i: nat, j: nat)
    requires i < j < |candidates|
    ensures Tier(Order(candidates, health)[i]) <= Tier(Order(candidates, health)[j])
  {
    var rankings := Rankings(candidates, health);
    var s := StableSort(rankings, RanksAhead);
    RanksAheadIsOrder();
    SortSorts(rankings, RanksAhead);
    DiversifiedTiers(s, i, j);
  }

  lemma DiversifiedTiers(s: seq<Ranking>, i: nat, j: nat)
    requires Sorted(s, RanksAhead) && i < j < |s|
    ensures Tier(Diversified(s)[i]) <= Tier(Diversified(s)[j])
  {
    var r := Diversified(s);
    SortedFalls(s, i, j);
    if r != s {
      var k := Alternative(s, 2);
      var i', j' := From(i, k), From(j, k);
      assert r[i] == s[i'] && r[j] == s[j'];
      if i' < j' {
        SortedFalls(s, i', j');
      } else if i == 1 {
        assert i' == k && Tier(s[k]) == Tier(s[1]);
        if j' > 1 { SortedFalls(s, 1, j'); }
      }
    }
  }

  /** Where the rotation that moves entry k to the second slot takes entry i from. */
  function From(i: nat, k: nat): nat {
    if i == 1 then k else if 2 <= i <= k then i - 1 else i
  }

  lemma SecondIsDiverse(s: seq<Ranking>, j: nat)
    requires Sorted(s, RanksAhead) && 1 <= j < |s|
    requires Tier(s[j]) == Tier(s[1]) && s[j].score >= s[1].score - SCORE_EQUIVALENCE
    requires s[j].candidate.sub != s[0].candidate.sub
    ensures Diversified(s)[1].candidate.sub != Diversified(s)[0].candidate.sub
  {
    if s[1].candidate.sub == s[0].candidate.sub {
      AlternativeIsFound(s, 2, j);
    }
  }

  /** The second slot goes to another subscription than the first whenever a candidate of the tier and
      within 100 points of the plain runner-up has one. */
  lemma SecondSlotIsDiverse(candidates: seq<Candidate>, health: HealthMap, j: nat)
    requires 1 <= j < |candidates|
    requires var s := StableSort(Rankings(candidates, health), RanksAhead);
             && Tier(s[j]) == Tier(s[1]) && s[j].score >= s[1].score - SCORE_EQUIVALENCE
             && s[j].candidate.sub != s[0].candidate.sub
    ensures var r := Order(candidates, health);
            r[1].candidate.sub != r[0].candidate.sub
  {
    RanksAheadIsOrder();
    SortSorts(Rankings(candidates, health), RanksAhead);
    SecondIsDiverse(StableSort(Rankings(candidates, health), RanksAhead), j);
  }

  /** Whatever sort arranges the rankings, stable or not, the order is the same. */
  lemma OrderIgnoresSort(candidates: seq<Candidate>, health: HealthMap, sorted: seq<Ranking>)
    requires multiset(sorted) == multiset(Rankings(candidates, health)) && Sorted(sorted, RanksAhead)
    ensures Diversified(sorted) == Order(candidates, health)
  {
    var rankings := Rankings(candidates, health);
    RanksAheadIsOrder();
    SortPermutes(rankings, RanksAhead);
    SortSorts(rankings, RanksAhead);
    RankingsAreSeparated(candidates, health);
    var stable := StableSort(rankings, RanksAhead);
    assert Separates(stable, RanksAhead) by {
      forall x | x in stable ensures x in rankings { SortKeepsMembers(rankings, RanksAhead, x); }
    }
    SortedUnique(stable, sorted, RanksAhead);
  }

  /** The order depends on which candidates there are, not on how they are listed. */
  lemma OrderIgnoresInputOrder(a: seq<Candidate>, b: seq<Candidate>, health: HealthMap)
    requires multiset(a) == multiset(b)
    ensures Order(a, health) == Order(b, health)
  {
    var rb := Rankings(b, health);
    RankingsPermute(a, b, RankerFor(health));
    RanksAheadIsOrder();
    SortPermutes(rb, RanksAhead);
    SortSorts(rb, RanksAhead);
    OrderIgnoresSort(a, health, StableSort(rb, RanksAhead));
  }

  lemma RemoveAt<T>(s: seq<T>, k: nat)
    requires k < |s|
    ensures multiset(s) == multiset(s[..k] + s[k + 1..]) + multiset{s[k]}
  {
    assert s == s[..k] + [s[k]] + s[k + 1..];
  }

  lemma SameMultisetEmpty<T>(a: seq<T>, b: seq<T>)
    requires multiset(a) == multiset(b) && a == []
    ensures b == []
  {
    assert |multiset(b)| == |b|;
  }

  lemma CancelOne<T>(m: multiset<T>, n: multiset<T>, x: T)
    requires m + multiset{x} == n + multiset{x}
    ensures m == n
  {
    assert (m + multiset{x}) - multiset{x} == m && (n + multiset{x}) - multiset{x} == n;
  }

  lemma RankedByRemoval(candidates: seq<Candidate>, rank: Ranker, k: nat)
    requires k < |candidates|
    ensures multiset(RankedBy(candidates, rank)) ==
              multiset(RankedBy(candidates[..k] + candidates[k + 1..], rank)) + multiset{rank(candidates[k])}
  {
    var r := RankedBy(candidates, rank);
    RemoveAt(r, k);
    assert r[..k] + r[k + 1..] == RankedBy(candidates[..k] + candidates[k + 1..], rank);
  }

  lemma {:induction false} RankingsPermute(a: seq<Candidate>, b: seq<Candidate>, rank: Ranker)
    requires multiset(a) == multiset(b)
    ensures multiset(RankedBy(a, rank)) == multiset(RankedBy(b, rank))
    decreases |a|
  {
    if a == [] {
      SameMultisetEmpty(a, b);
    } else {
      assert a[0] in multiset(b);
      var k :| 0 <= k < |b| && b[k] == a[0];
      var a', b' := a[..0] + a[1..], b[..k] + b[k + 1..];
      SameMultisetWithout(a, b, k);
      RankingsPermute(a', b', rank);
      RankedByRemoval(a, rank, 0);
      RankedByRemoval(b, rank, k);
    }
  }

  lemma SameMultisetWithout<T>(a: seq<T>, b: seq<T>, k: nat)
    requires a != [] && k < |b| && b[k] == a[0] && multiset(a) == multiset(b)
    ensures multiset(a[..0] + a[1..]) == multiset(b[..k] + b[k + 1..])
  {
    RemoveAt(a, 0);
    RemoveAt(b, k);
    CancelOne(multiset(a[..0] + a[1..]), multiset(b[..k] + b[k + 1..]), a[0]);
  }
}
