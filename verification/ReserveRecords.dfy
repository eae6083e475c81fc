/** What the reserve candidates are compared by, and what the returned reserve entries say. */
module ReserveRecords {
  import opened Wrappers
  import opened ProbeHealth
  import opened NodeSelection
  import opened Sorting
  import opened ReserveRanking
  import opened ReserveSelection
  import OutboundSwitch

  // ----- The order -----

  /** The first string comes before the second one: it is a proper prefix, or has the smaller character where
      they part. */
  ghost predicate SpelledBefore(a: string, b: string) {
    exists k :: 0 <= k <= |a| && k < |b| && a[..k] == b[..k] && (k == |a| || a[k] < b[k])
  }

  lemma HeadsAgreeOrFall(a: string, b: string)
    requires SpelledBefore(a, b)
    ensures b != "" && (a == "" || a[0] <= b[0])
  {
    var k :| 0 <= k <= |a| && k < |b| && a[..k] == b[..k] && (k == |a| || a[k] < b[k]);
    if k > 0 { assert a[0] == a[..k][0] && b[0] == b[..k][0]; }
  }

  lemma {:induction false} LexLessMeaning(a: string, b: string)
    ensures LexLess(a, b) <==> SpelledBefore(a, b)
  {
    if a != "" && b != "" && a[0] == b[0] {
      LexLessMeaning(a[1..], b[1..]);
      if SpelledBefore(a[1..], b[1..]) { PartLater(a, b); }
      if SpelledBefore(a, b) { PartEarlier(a, b); }
    } else if SpelledBefore(a, b) {
      HeadsAgreeOrFall(a, b);
    } else if b != "" {
      assert a[..0] == b[..0];
    }
  }

  lemma PartLater(a: string, b: string)
    requires a != "" && b != "" && a[0] == b[0] && SpelledBefore(a[1..], b[1..])
    ensures SpelledBefore(a, b)
  {
    var x, y := a[1..], b[1..];
    var k :| 0 <= k <= |x| && k < |y| && x[..k] == y[..k] && (k == |x| || x[k] < y[k]);
    assert a[..k + 1] == [a[0]] + x[..k] && b[..k + 1] == [b[0]] + y[..k];
  }

  lemma PartEarlier(a: string, b: string)
    requires a != "" && b != "" && a[0] == b[0] && SpelledBefore(a, b)
    ensures SpelledBefore(a[1..], b[1..])
  {
    var x, y := a[1..], b[1..];
    var k :| 0 <= k <= |a| && k < |b| && a[..k] == b[..k] && (k == |a| || a[k] < b[k]);
    assert k > 0;
    assert x[..k - 1] == a[..k][1..] && y[..k - 1] == b[..k][1..];
  }

  /** What a candidate is ranked by: its node's health and score, and whether it has any history. */
  lemma RankingIs(c: Candidate, health: HealthMap)
    ensures RankingOf(c, health) ==
              if c.node in health then Ranking(c, health[c.node].healthy, Score(health[c.node]), true)
              else Ranking(c, false, Score(UNKNOWN), false)
  {
  }

  /** Known healthy nodes come before unknown ones, and those before known unhealthy ones. */
  predicate IsOfBetterTier(a: Ranking, b: Ranking) {
    (a.known && a.healthy && !(b.known && b.healthy)) || (!a.known && b.known && !b.healthy)
  }

  /** The better tier comes first, in a tier the higher score, and with equal scores the subscription, the node
      and the tag in the order of their spelling decide. */
  ghost predicate ComesBefore(a: Ranking, b: Ranking) {
    var c, d := a.candidate, b.candidate;
    || IsOfBetterTier(a, b)
    || (!IsOfBetterTier(b, a)
        && (a.score > b.score
            || (a.score == b.score
                && if c.sub != d.sub then SpelledBefore(c.sub, d.sub)
                   else if c.node != d.node then SpelledBefore(c.node, d.node)
                   else SpelledBefore(c.tag, d.tag))))
  }

  lemma RanksAheadMeaning(a: Ranking, b: Ranking)
    ensures RanksAhead(a, b) <==> ComesBefore(a, b)
  {
    LexLessMeaning(a.candidate.sub, b.candidate.sub);
    LexLessMeaning(a.candidate.node, b.candidate.node);
    LexLessMeaning(a.candidate.tag, b.candidate.tag);
  }

  lemma TwoAreSorted<T(!new)>(r: seq<T>, less: (T, T) -> bool)
    requires |r| == 2 && r[0] != r[1] && IsOrder(less) && (less(r[0], r[1]) || less(r[1], r[0]))
    ensures StableSort(r, less) == if less(r[0], r[1]) then r else [r[1], r[0]]
  {
    var front := r[..1];
    assert front[..0] == [] && StableSort(front, less) == [r[0]];
    assert [r[0]][..0] == [];
    assert Insert(r[1], [], less) == [r[1]];
    assert r == [r[0], r[1]];
  }

  lemma PairIsSorted(reserves: seq<Candidate>, health: HealthMap)
    requires |reserves| == 2 && reserves[0] != reserves[1]
    ensures var r := RankedWith(reserves, RankerFor(health));
            r[0] in reserves && r[1] in reserves && ComesBefore(RankingOf(r[0], health), RankingOf(r[1], health))
  {
    var rankings := RankedBy(reserves, RankerFor(health));
    var s := StableSort(rankings, RanksAhead);
    RankingsAreSeparated(reserves, health);
    RanksAheadIsOrder();
    assert rankings[0] in rankings && rankings[1] in rankings;
    TwoAreSorted(rankings, RanksAhead);
    RanksAheadMeaning(s[0], s[1]);
  }

  // ----- The returned entries -----

  /** Of two returned reserves the one that comes before the other is returned first. */
  lemma ReservesAreInOrder(successful: seq<Candidate>, health: HealthMap, previous: seq<Entry>, now: int)
    requires DistinctReserves(previous)
    ensures var states := SelectedStates(successful, health, previous, now);
            |states| >= 2 ==>
              ComesBefore(RankingOf(states[0].candidate, health), RankingOf(states[1].candidate, health))
  {
    var confirmed, rank := Confirmed(successful, health), RankerFor(health);
    if confirmed != [] {
      var choice := Chosen(confirmed, previous, rank);
      ChoiceIsBounded(confirmed, previous, rank);
      if |choice.reserves| == 2 {
        assert choice.reserves[0].tag != choice.reserves[1].tag;
        PairIsSorted(choice.reserves, health);
      }
    }
  }

  /** The wins of the last entry of the tag, which later entries of other tags leave alone. */
  function WinsOf(previous: seq<Entry>, tag: string): int {
    if previous == [] then 0
    else if exists i :: 1 <= i < |previous| && previous[i].candidate.tag == tag then WinsOf(previous[1..], tag)
    else if previous[0].candidate.tag == tag then previous[0].promotionWins else 0
  }

  lemma {:induction false} WinsOfFront(front: seq<Entry>, last: Entry, tag: string)
    ensures WinsOf(front + [last], tag) ==
              if last.candidate.tag == tag then last.promotionWins else WinsOf(front, tag)
  {
    var all := front + [last];
    if front != [] {
      assert all[1..] == front[1..] + [last];
      WinsOfFront(front[1..], last, tag);
      assert all[|front|] == last;
      assert forall i :: 1 <= i < |front| ==> all[i] == front[i];
      if last.candidate.tag != tag && !(exists i :: 1 <= i < |front| && front[i].candidate.tag == tag) {
        assert !(exists i :: 1 <= i < |all| && all[i].candidate.tag == tag);
      }
    }
  }

  lemma {:induction false} WinsBeforeMeaning(previous: seq<Entry>, tag: string)
    ensures WinsBefore(previous, tag) == WinsOf(previous, tag)
  {
    if previous != [] {
      var front, last := previous[..|previous| - 1], previous[|previous| - 1];
      WinsBeforeMeaning(front, tag);
      WinsOfFront(front, last, tag);
      assert previous == front + [last];
    }
  }

  /** What an entry says: when it was verified, the score and the number of samples of its node, and why it is
      there. The second of two reserves is there for its provider exactly if that is another one than the
      first's; a pending candidate counts one win more than its last entry. */
  predicate SaysWhy(states: seq<Entry>, i: nat, previous: seq<Entry>, score: real, health: HealthMap, now: int)
    requires i < |states|
  {
    var c := states[i].candidate;
    var h := if c.node in health then health[c.node] else UNKNOWN;
    states[i] ==
      if i == 2
      then Entry(c, OutboundSwitch.Candidate, now, score, h.successes + h.failures, AwaitingConfirmation,
                 WinsOf(previous, c.tag) + 1)
      else Entry(c, OutboundSwitch.Reserve, now, score, h.successes + h.failures,
                 if i == 1 && c.sub != states[0].candidate.sub then ProviderDiversity else BestScore, 0)
  }

  lemma EntriesAreLabelled(choice: Choice, previous: seq<Entry>, rank: Ranker, health: HealthMap, now: int, i: nat)
    requires |choice.reserves| <= 2 && (choice.pending.Some? ==> |choice.reserves| == 2)
    requires i < |States(choice, previous, rank, health, now)|
    ensures var states := States(choice, previous, rank, health, now);
            SaysWhy(states, i, previous, rank(states[i].candidate).score, health, now)
  {
    WinsBeforeMeaning(previous, States(choice, previous, rank, health, now)[i].candidate.tag);
  }

  lemma SelectedAreLabelled(confirmed: seq<Candidate>, health: HealthMap, previous: seq<Entry>, rank: Ranker, now: int,
                            i: nat)
    requires DistinctReserves(previous) && forall c :: rank(c).candidate == c
    requires i < |SelectedWith(confirmed, health, previous, rank, now)|
    ensures var states := SelectedWith(confirmed, health, previous, rank, now);
            SaysWhy(states, i, previous, rank(states[i].candidate).score, health, now)
  {
    ChoiceIsBounded(confirmed, previous, rank);
    EntriesAreLabelled(Chosen(confirmed, previous, rank), previous, rank, health, now, i);
  }

  /** A candidate is confirmed from the second success in a row on. */
  lemma ConfirmedFromTwoOn(c: Candidate, health: HealthMap)
    ensures IsConfirmed(c, health) <==> c.node in health && health[c.node].successStreak >= 2
  {
  }

  /** Every returned entry says so. */
  lemma EntriesSayWhy(successful: seq<Candidate>, health: HealthMap, previous: seq<Entry>, now: int, i: nat)
    requires DistinctReserves(previous) && i < |SelectedStates(successful, health, previous, now)|
    ensures var states := SelectedStates(successful, health, previous, now);
            SaysWhy(states, i, previous, RankingOf(states[i].candidate, health).score, health, now)
  {
    SelectedAreLabelled(Confirmed(successful, health), health, previous, RankerFor(health), now, i);
  }

  // ----- Promotion -----

  /** The challenger is better than the incumbent by 50 points and by a fifth of what the incumbent lacks of
      10000 points, or is healthy where the incumbent is not. */
  predicate IsClearlyBetter(c: Ranking, incumbent: Ranking) {
    var gain := c.score - incumbent.score;
    && c.healthy
    && (incumbent.healthy ==>
          gain >= 50.0 && incumbent.score < 10000.0 && 5.0 * gain >= 10000.0 - incumbent.score)
  }

  /** Both reserves are of one provider, and a candidate of another scores at most 100 points less. */
  predicate BringsProvider(c: Ranking, pair: seq<Candidate>, incumbent: Ranking)
    requires |pair| == 2
  {
    && pair[0].sub == pair[1].sub && c.candidate.sub != pair[0].sub
    && c.healthy && incumbent.healthy && c.score >= incumbent.score - 100.0
  }

  lemma FifthOf(gain: real, cost: real)
    requires cost > 0.0
    ensures gain / cost >= 0.20 <==> 5.0 * gain >= cost
  {
    var q := gain / cost;
    assert q * cost == gain;
    if q >= 0.20 {
      assert (q - 0.20) * cost >= 0.0;
    } else {
      assert (0.20 - q) * cost > 0.0;
    }
  }

  /** The reserve with the lower score is the one that can be displaced, the first one if they are equal. */
  function Lower(pair: seq<Candidate>, rank: Ranker): nat
    requires |pair| == 2
  {
    if rank(pair[0]).score <= rank(pair[1]).score then 0 else 1
  }

  lemma BetterMeaning(c: Ranking, incumbent: Ranking)
    ensures IsMeaningfullyBetter(c, incumbent) <==> IsClearlyBetter(c, incumbent)
  {
    if incumbent.score < 10000.0 { FifthOf(c.score - incumbent.score, 10000.0 - incumbent.score); }
  }

  /** The candidate may take the place of one of the pair. */
  predicate MayDisplace(c: Candidate, pair: seq<Candidate>, rank: Ranker)
    requires |pair| == 2
  {
    var incumbent := rank(pair[Lower(pair, rank)]);
    !HasTag(pair, c.tag) && (IsClearlyBetter(rank(c), incumbent) || BringsProvider(rank(c), pair, incumbent))
  }

  lemma ChallengesMeaning(c: Candidate, pair: seq<Candidate>, rank: Ranker)
    requires |pair| == 2 && rank(c).candidate == c
    ensures Weakest(pair, rank) == Lower(pair, rank)
    ensures !HasTag(pair, c.tag) && Challenges(c, pair, rank) <==> MayDisplace(c, pair, rank)
  {
    BetterMeaning(rank(c), rank(pair[Lower(pair, rank)]));
  }

  lemma {:induction false} ChallengerIsFirst(ranked: seq<Candidate>, pair: seq<Candidate>, rank: Ranker, k: nat)
    requires |pair| == 2 && k <= |ranked| && forall c :: rank(c).candidate == c
    requires forall j :: 0 <= j < k ==> !MayDisplace(ranked[j], pair, rank)
    requires k < |ranked| ==> MayDisplace(ranked[k], pair, rank)
    ensures Challenger(ranked, pair, rank) == if k < |ranked| then Some(ranked[k]) else None
  {
    if ranked != [] {
      ChallengesMeaning(ranked[0], pair, rank);
      if k > 0 { ChallengerIsFirst(ranked[1..], pair, rank, k - 1); }
    }
  }

  /** The first candidate in the order that may displace one of two reserves takes the place of the lower scored
      one exactly if its last entry counted a win; otherwise it is left pending, and without such a candidate
      the two stay. */
  lemma PromotionExactly(confirmed: seq<Candidate>, previous: seq<Entry>, rank: Ranker, k: nat)
    requires forall c :: rank(c).candidate == c
    requires var ranked := RankedWith(confirmed, rank);
             var pair := Filled(Retained(previous, confirmed), ranked);
             && |pair| == 2 && k <= |ranked| && (forall j :: 0 <= j < k ==> !MayDisplace(ranked[j], pair, rank))
             && (k < |ranked| ==> MayDisplace(ranked[k], pair, rank))
    ensures var ranked := RankedWith(confirmed, rank);
            var pair := Filled(Retained(previous, confirmed), ranked);
            Chosen(confirmed, previous, rank) ==
              if k == |ranked| then Choice(pair, None)
              else if WinsOf(previous, ranked[k].tag) >= 1 then Choice(pair[Lower(pair, rank) := ranked[k]], None)
              else Choice(pair, Some(ranked[k]))
  {
    var ranked := RankedWith(confirmed, rank);
    var pair := Filled(Retained(previous, confirmed), ranked);
    ChallengerIsFirst(ranked, pair, rank, k);
    if k < |ranked| {
      WinsBeforeMeaning(previous, ranked[k].tag);
      ChallengesMeaning(ranked[k], pair, rank);
    }
  }
}
