/** Which candidates are probed next, and which of the successful ones become reserves. */
module ReserveSelection {
  import opened Wrappers
  import opened Arithmetic
  import opened ProbeHealth
  import opened NodeSelection
  import opened Sorting
  import opened ReserveRanking
  import OutboundSwitch

  type Role = OutboundSwitch.Role

  datatype SelectionReason = BestScore | ProviderDiversity | AwaitingConfirmation | Unset

  datatype Entry = Entry(candidate: Candidate, role: Role, verifiedAt: int, score: real, samples: int,
                         reason: SelectionReason, promotionWins: int)

  const RESERVE_LIMIT := 2
  const PROBE_LIMIT := 2
  const HEALTHY_CONFIRMATIONS := 2
  const PROMOTION_CONFIRMATIONS := 2
  const PROMOTION_ABSOLUTE := 50.0
  const PROMOTION_RELATIVE := 0.20

  predicate HasTag(cs: seq<Candidate>, tag: string) {
    exists c :: c in cs && c.tag == tag
  }

  ghost predicate DistinctTags(cs: seq<Candidate>) {
    forall i, j :: 0 <= i < j < |cs| ==> cs[i].tag != cs[j].tag
  }

  // ----- Probe order -----

  function Fresh(ranked: seq<Candidate>, existing: seq<Candidate>, health: HealthMap, measured: bool): seq<Candidate> {
    if ranked == [] then []
    else
      var last := ranked[|ranked| - 1];
      Fresh(ranked[..|ranked| - 1], existing, health, measured)
      + if !HasTag(existing, last.tag) && (last.node in health) == measured then [last] else []
  }

  /** How many measured candidates go before the unknown ones. */
  function MeasuredSlots(existing: nat, unknown: nat, measured: nat): int {
    var open := PROBE_LIMIT - existing;
    Min(if unknown > 0 && open > 0 then open - 1 else open, measured)
  }

  /** The unknown candidate whose turn it is in the given minute. */
  function Turn(unknown: nat, minute: nat): nat
    requires unknown > 0
  {
    minute % unknown
  }

  /** The old reserves, then measured candidates while slots last, then the unknown ones starting with the
      one whose turn it is, then the rest. */
  function Arranged(existing: seq<Candidate>, measured: seq<Candidate>, unknown: seq<Candidate>,
                    minute: nat): seq<Candidate>
    requires |existing| <= PROBE_LIMIT
  {
    var slots := MeasuredSlots(|existing|, |unknown|, |measured|);
    var offset := if unknown == [] then 0 else Turn(|unknown|, minute);
    existing + measured[..slots] + unknown[offset..] + unknown[..offset] + measured[slots..]
  }

  method SplitFresh(existing: seq<Candidate>, ranked: seq<Candidate>, health: HealthMap)
    returns (measured: seq<Candidate>, unknown: seq<Candidate>)
    ensures measured == Fresh(ranked, existing, health, true) && unknown == Fresh(ranked, existing, health, false)
  {
    measured, unknown := [], [];
    for i := 0 to |ranked|
      invariant measured == Fresh(ranked[..i], existing, health, true)
      invariant unknown == Fresh(ranked[..i], existing, health, false)
    {
      assert ranked[..i + 1][..i] == ranked[..i];
      var candidate := ranked[i];
      if HasTag(existing, candidate.tag) {
        continue;
      }
      if candidate.node in health {
        measured := measured + [candidate];
      } else {
        unknown := unknown + [candidate];
      }
    }
    assert ranked[..|ranked|] == ranked;
  }

  method ManagedReserveProbeOrder(existing: seq<Candidate>, ranked: seq<Candidate>, health: HealthMap, minute: nat)
    returns (ordered: seq<Candidate>)
    requires |existing| <= PROBE_LIMIT
    ensures ordered == Arranged(existing, Fresh(ranked, existing, health, true), Fresh(ranked, existing, health, false),
                                minute)
  {
    var measured, unknown := SplitFresh(existing, ranked, health);
    ordered := existing;
    var slots := PROBE_LIMIT - |ordered|;
    if |unknown| > 0 && slots > 0 {
      slots := slots - 1;
    }
    if slots > |measured| {
      slots := |measured|;
    }
    ordered := ordered + measured[..slots];
    if |unknown| > 0 {
      var offset := minute % |unknown|;
      ordered := ordered + unknown[offset..];
      ordered := ordered + unknown[..offset];
    }
    ordered := ordered + measured[slots..];
  }

  lemma ProbeOrderIsComplete(existing: seq<Candidate>, measured: seq<Candidate>, unknown: seq<Candidate>, minute: nat)
    requires |existing| <= PROBE_LIMIT
    ensures multiset(Arranged(existing, measured, unknown, minute)) ==
              multiset(existing) + multiset(measured) + multiset(unknown)
    ensures existing <= Arranged(existing, measured, unknown, minute)
  {
    var slots := MeasuredSlots(|existing|, |unknown|, |measured|);
    var offset := if unknown == [] then 0 else Turn(|unknown|, minute);
    SplitMultiset(measured, slots);
    SplitMultiset(unknown, offset);
    var m, n, u, v := measured[..slots], measured[slots..], unknown[..offset], unknown[offset..];
    assert multiset(existing + m + v + u + n) ==
           multiset(existing) + multiset(m) + multiset(v) + multiset(u) + multiset(n);
  }

  lemma SplitMultiset<T>(s: seq<T>, k: nat)
    requires k <= |s|
    ensures multiset(s[..k]) + multiset(s[k..]) == multiset(s)
  {
    assert s == s[..k] + s[k..];
  }

  /** While a probe is not taken by an old reserve, the unknown candidate whose turn it is gets one. */
  lemma UnknownGetsItsTurn(existing: seq<Candidate>, measured: seq<Candidate>, unknown: seq<Candidate>, minute: nat)
    requires |existing| < PROBE_LIMIT && unknown != []
    ensures var ordered := Arranged(existing, measured, unknown, minute);
            exists i :: 0 <= i < PROBE_LIMIT && i < |ordered| && ordered[i] == unknown[Turn(|unknown|, minute)]
  {
    var i := |existing| + MeasuredSlots(|existing|, |unknown|, |measured|);
    assert Arranged(existing, measured, unknown, minute)[i] == unknown[Turn(|unknown|, minute)];
  }

  /** Every unknown candidate gets its turn within as many minutes as there are unknown candidates. */
  lemma EveryUnknownGetsATurn(unknown: nat, k: nat, start: nat)
    requires k < unknown
    ensures exists minute :: start <= minute < start + unknown && Turn(unknown, minute) == k
  {
    var q, offset := start / unknown, start % unknown;
    assert start == q * unknown + offset;
    if k >= offset {
      var minute := start + k - offset;
      QuotientAndRemainder(minute, unknown, q, k);
      assert Turn(unknown, minute) == k;
    } else {
      var minute := start + k - offset + unknown;
      assert (q + 1) * unknown == q * unknown + unknown;
      QuotientAndRemainder(minute, unknown, q + 1, k);
      assert Turn(unknown, minute) == k;
    }
  }

  /** With more entries than the limit, which the runtime state can hold after a failed switch, the slots
      would be negative. */
  lemma TooManyExistingFail(existing: nat, unknown: nat, measured: nat)
    ensures MeasuredSlots(existing, unknown, measured) < 0 <==> existing > PROBE_LIMIT
  {
  }

  // ----- The choice -----

  predicate IsConfirmed(c: Candidate, health: HealthMap) {
    Lookup(health, c.node).successStreak >= HEALTHY_CONFIRMATIONS
  }

  function Confirmed(successful: seq<Candidate>, health: HealthMap): (r: seq<Candidate>)
    ensures forall c :: c in r <==> c in successful && IsConfirmed(c, health)
    ensures |r| <= |successful|
  {
    if successful == [] then []
    else
      var last := successful[|successful| - 1];
      Confirmed(successful[..|successful| - 1], health) + if IsConfirmed(last, health) then [last] else []
  }

  function ByTag(cs: seq<Candidate>, tag: string): (r: Option<Candidate>)
    ensures r.Some? ==> r.value in cs && r.value.tag == tag
    ensures r.None? ==> !HasTag(cs, tag)
  {
    if cs == [] then None
    else if cs[|cs| - 1].tag == tag then Some(cs[|cs| - 1])
    else ByTag(cs[..|cs| - 1], tag)
  }

  /** The wins in the last previous entry with the tag. */
  function WinsBefore(previous: seq<Entry>, tag: string): int {
    if previous == [] then 0
    else if previous[|previous| - 1].candidate.tag == tag then previous[|previous| - 1].promotionWins
    else WinsBefore(previous[..|previous| - 1], tag)
  }

  /** The first two old reserves that are confirmed again. */
  function Retained(previous: seq<Entry>, confirmed: seq<Candidate>): (r: seq<Candidate>)
    ensures |r| <= RESERVE_LIMIT && forall c :: c in r ==> c in confirmed
  {
    if previous == [] then []
    else
      var before, last := Retained(previous[..|previous| - 1], confirmed), previous[|previous| - 1];
      var again := ByTag(confirmed, last.candidate.tag);
      if last.role.Reserve? && again.Some? && |before| < RESERVE_LIMIT then before + [again.value] else before
  }

  /** `reserves` filled up to the limit with the best of the rest. */
  function Filled(reserves: seq<Candidate>, ranked: seq<Candidate>): (r: seq<Candidate>)
    requires |reserves| <= RESERVE_LIMIT
    ensures reserves <= r && |r| <= RESERVE_LIMIT
    ensures forall c :: c in r ==> c in reserves || c in ranked
    ensures ranked != [] ==> r != []
    decreases |ranked|
  {
    if |reserves| >= RESERVE_LIMIT || ranked == [] then reserves
    else if HasTag(reserves, ranked[0].tag) then Filled(reserves, ranked[1..])
    else Filled(reserves + [ranked[0]], ranked[1..])
  }

  predicate IsMeaningfullyBetter(challenger: Ranking, incumbent: Ranking) {
    if !challenger.healthy || !incumbent.healthy then challenger.healthy && !incumbent.healthy
    else
      var improvement, cost := challenger.score - incumbent.score, HEALTHY_BONUS - incumbent.score;
      improvement >= PROMOTION_ABSOLUTE && cost > 0.0 && improvement / cost >= PROMOTION_RELATIVE
  }

  predicate IsWithinDiversityWindow(challenger: Ranking, incumbent: Ranking) {
    challenger.healthy && incumbent.healthy && challenger.score >= incumbent.score - SCORE_EQUIVALENCE
  }

  function Weakest(reserves: seq<Candidate>, rank: Ranker): nat
    requires |reserves| == 2
  {
    if rank(reserves[1]).score < rank(reserves[0]).score then 1 else 0
  }

  predicate Challenges(c: Candidate, reserves: seq<Candidate>, rank: Ranker)
    requires |reserves| == 2
  {
    var weakest := reserves[Weakest(reserves, rank)];
    || IsMeaningfullyBetter(rank(c), rank(weakest))
    || (reserves[0].sub == reserves[1].sub && c.sub != reserves[0].sub &&
        IsWithinDiversityWindow(rank(c), rank(weakest)))
  }

  function Challenger(ranked: seq<Candidate>, reserves: seq<Candidate>, rank: Ranker): (r: Option<Candidate>)
    requires |reserves| == 2
    ensures r.Some? ==> r.value in ranked && !HasTag(reserves, r.value.tag) && Challenges(r.value, reserves, rank)
  {
    if ranked == [] then None
    else if !HasTag(reserves, ranked[0].tag) && Challenges(ranked[0], reserves, rank) then Some(ranked[0])
    else Challenger(ranked[1..], reserves, rank)
  }

  datatype Choice = Choice(reserves: seq<Candidate>, pending: Option<Candidate>)

  /** A challenger takes the weakest reserve's place once it has won twice; until then it waits. */
  function Challenged(reserves: seq<Candidate>, ranked: seq<Candidate>, previous: seq<Entry>, rank: Ranker): Choice
    requires |reserves| <= RESERVE_LIMIT
  {
    if |reserves| < RESERVE_LIMIT then Choice(reserves, None)
    else
      match Challenger(ranked, reserves, rank)
      case None => Choice(reserves, None)
      case Some(c) =>
        if WinsBefore(previous, c.tag) + 1 >= PROMOTION_CONFIRMATIONS
        then Choice(reserves[Weakest(reserves, rank) := c], None)
        else Choice(reserves, Some(c))
  }

  function RankedWith(candidates: seq<Candidate>, rank: Ranker): (r: seq<Candidate>)
    ensures |r| == |candidates|
  {
    Candidates(Diversified(StableSort(RankedBy(candidates, rank), RanksAhead)))
  }

  function Chosen(confirmed: seq<Candidate>, previous: seq<Entry>, rank: Ranker): Choice {
    var ranked := RankedWith(confirmed, rank);
    Challenged(Filled(Retained(previous, confirmed), ranked), ranked, previous, rank)
  }

  // ----- The method -----

  function Labelled(c: Candidate, role: Role, reason: SelectionReason, wins: int, rank: Ranker, health: HealthMap,
                    now: int): Entry
  {
    var h := Lookup(health, c.node);
    Entry(c, role, now, rank(c).score, h.successes + h.failures, reason, wins)
  }

  function LabelledReserves(ordered: seq<Candidate>, rank: Ranker, health: HealthMap, now: int): (r: seq<Entry>)
    ensures |r| == |ordered|
    ensures forall i :: 0 <= i < |r| ==>
              r[i].candidate == ordered[i] && r[i].role.Reserve? && r[i].promotionWins == 0 && r[i].verifiedAt == now
  {
    seq(|ordered|, i requires 0 <= i < |ordered| =>
      var reason := if i == 1 && ordered[i].sub != ordered[0].sub then ProviderDiversity else BestScore;
      Labelled(ordered[i], OutboundSwitch.Reserve, reason, 0, rank, health, now))
  }

  function States(choice: Choice, previous: seq<Entry>, rank: Ranker, health: HealthMap, now: int): seq<Entry> {
    LabelledReserves(RankedWith(choice.reserves, rank), rank, health, now)
    + match choice.pending
      case None => []
      case Some(c) => [Labelled(c, OutboundSwitch.Candidate, AwaitingConfirmation, WinsBefore(previous, c.tag) + 1,
                                rank, health, now)]
  }

  method KeepOldReserves(previous: seq<Entry>, confirmed: seq<Candidate>) returns (reserves: seq<Candidate>)
    ensures reserves == Retained(previous, confirmed)
  {
    reserves := [];
    for i := 0 to |previous|
      invariant reserves == Retained(previous[..i], confirmed)
    {
      assert previous[..i + 1][..i] == previous[..i];
      if previous[i].role.Reserve? {
        var again := ByTag(confirmed, previous[i].candidate.tag);
        if again.Some? && |reserves| < RESERVE_LIMIT {
          reserves := reserves + [again.value];
        }
      }
    }
    assert previous[..|previous|] == previous;
  }

  method FillReserves(kept: seq<Candidate>, ranked: seq<Candidate>) returns (reserves: seq<Candidate>)
    requires |kept| <= RESERVE_LIMIT
    ensures reserves == Filled(kept, ranked)
  {
    reserves := kept;
    var i := 0;
    while i < |ranked|
      invariant 0 <= i <= |ranked| && |reserves| <= RESERVE_LIMIT
      invariant Filled(kept, ranked) == Filled(reserves, ranked[i..])
    {
      if |reserves| >= RESERVE_LIMIT {
        break;
      }
      assert ranked[i..][1..] == ranked[i + 1..];
      if !HasTag(reserves, ranked[i].tag) {
        reserves := reserves + [ranked[i]];
      }
      i := i + 1;
    }
  }

  method Challenge(start: seq<Candidate>, ranked: seq<Candidate>, previous: seq<Entry>, rank: Ranker)
    returns (reserves: seq<Candidate>, pending: Option<Candidate>)
    requires |start| <= RESERVE_LIMIT
    ensures Choice(reserves, pending) == Challenged(start, ranked, previous, rank)
  {
    reserves, pending := start, None;
    if |reserves| != RESERVE_LIMIT {
      return;
    }
    var weakest := if rank(reserves[1]).score < rank(reserves[0]).score then 1 else 0;
    var i := 0;
    while i < |ranked|
      invariant 0 <= i <= |ranked| && reserves == start && pending == None
      invariant Challenger(ranked, start, rank) == Challenger(ranked[i..], start, rank)
    {
      var challenger := ranked[i];
      assert ranked[i..][0] == challenger && ranked[i..][1..] == ranked[i + 1..];
      if !HasTag(reserves, challenger.tag) && Challenges(challenger, reserves, rank) {
        var wins := WinsBefore(previous, challenger.tag) + 1;
        if wins >= PROMOTION_CONFIRMATIONS {
          reserves := reserves[weakest := challenger];
        } else {
          pending := Some(challenger);
        }
        return;
      }
      i := i + 1;
    }
  }

  method ConfirmedOf(successful: seq<Candidate>, health: HealthMap) returns (confirmed: seq<Candidate>)
    ensures confirmed == Confirmed(successful, health)
  {
    confirmed := [];
    for i := 0 to |successful|
      invariant confirmed == Confirmed(successful[..i], health)
    {
      assert successful[..i + 1][..i] == successful[..i];
      if IsConfirmed(successful[i], health) {
        confirmed := confirmed + [successful[i]];
      }
    }
    assert successful[..|successful|] == successful;
  }

  method Choose(confirmed: seq<Candidate>, previous: seq<Entry>, rank: Ranker)
    returns (reserves: seq<Candidate>, pending: Option<Candidate>)
    ensures Choice(reserves, pending) == Chosen(confirmed, previous, rank)
  {
    var ranked := RankWith(confirmed, rank);
    reserves := KeepOldReserves(previous, confirmed);
    reserves := FillReserves(reserves, ranked);
    reserves, pending := Challenge(reserves, ranked, previous, rank);
  }

  method Label(choice: Choice, previous: seq<Entry>, rank: Ranker, health: HealthMap, now: int)
    returns (states: seq<Entry>)
    ensures states == States(choice, previous, rank, health, now)
  {
    var ordered := RankWith(choice.reserves, rank);
    states := LabelledReserves(ordered, rank, health, now);
    match choice.pending {
      case None =>
      case Some(c) =>
        states := states + [Labelled(c, OutboundSwitch.Candidate, AwaitingConfirmation, WinsBefore(previous, c.tag) + 1,
                                     rank, health, now)];
    }
  }

  method SelectWith(successful: seq<Candidate>, health: HealthMap, previous: seq<Entry>, rank: Ranker, now: int)
    returns (states: seq<Entry>)
    ensures states == SelectedWith(Confirmed(successful, health), health, previous, rank, now)
  {
    var confirmed := ConfirmedOf(successful, health);
    if |confirmed| == 0 {
      return [];
    }
    var reserves, pending := Choose(confirmed, previous, rank);
    states := Label(Choice(reserves, pending), previous, rank, health, now);
  }

  function SelectedWith(confirmed: seq<Candidate>, health: HealthMap, previous: seq<Entry>, rank: Ranker,
                        now: int): seq<Entry>
  {
    if confirmed == [] then [] else States(Chosen(confirmed, previous, rank), previous, rank, health, now)
  }

  /** What `successful` leads to under the default score. */
  function SelectedStates(successful: seq<Candidate>, health: HealthMap, previous: seq<Entry>, now: int): seq<Entry> {
    SelectedWith(Confirmed(successful, health), health, previous, RankerFor(health), now)
  }

  method SelectManagedReserveStates(successful: seq<Candidate>, health: HealthMap, previous: seq<Entry>, now: int)
    returns (states: seq<Entry>)
    ensures states == SelectedStates(successful, health, previous, now)
  {
    states := SelectWith(successful, health, previous, RankerFor(health), now);
  }

  // ----- What the choice guarantees -----

  ghost predicate DistinctReserves(previous: seq<Entry>) {
    forall i, j :: 0 <= i < j < |previous| && previous[i].role.Reserve? && previous[j].role.Reserve? ==>
      previous[i].candidate.tag != previous[j].candidate.tag
  }

  lemma RankedWithKeepsMembers(candidates: seq<Candidate>, rank: Ranker, c: Candidate)
    requires forall x :: x in candidates ==> rank(x).candidate == x
    ensures c in RankedWith(candidates, rank) <==> c in candidates
  {
    var ranked := RankedBy(candidates, rank);
    var sorted := StableSort(ranked, RanksAhead);
    var order := Diversified(sorted);
    DiversifiedPermutes(sorted);
    if c in candidates {
      var i :| 0 <= i < |candidates| && candidates[i] == c;
      assert ranked[i] in ranked;
      SortKeepsMembers(ranked, RanksAhead, ranked[i]);
      assert ranked[i] in multiset(sorted);
      var j :| 0 <= j < |order| && order[j] == ranked[i];
      assert RankedWith(candidates, rank)[j] == c;
    }
    if c in RankedWith(candidates, rank) {
      var j :| 0 <= j < |order| && order[j].candidate == c;
      assert order[j] in multiset(order);
      assert order[j] in sorted;
      SortKeepsMembers(ranked, RanksAhead, order[j]);
    }
  }

  lemma {:induction false} RetainedIsOld(previous: seq<Entry>, confirmed: seq<Candidate>, c: Candidate)
    requires c in Retained(previous, confirmed)
    ensures exists i :: 0 <= i < |previous| && previous[i].role.Reserve? && previous[i].candidate.tag == c.tag
  {
    var front, last := previous[..|previous| - 1], |previous| - 1;
    if c in Retained(front, confirmed) {
      RetainedIsOld(front, confirmed, c);
      var i :| 0 <= i < |front| && front[i].role.Reserve? && front[i].candidate.tag == c.tag;
      assert previous[i] == front[i];
    } else {
      assert previous[last].role.Reserve? && previous[last].candidate.tag == c.tag;
    }
  }

  lemma {:induction false} RetainedIsDistinct(previous: seq<Entry>, confirmed: seq<Candidate>)
    requires DistinctReserves(previous)
    ensures DistinctTags(Retained(previous, confirmed))
  {
    if previous != [] {
      var front, last := previous[..|previous| - 1], previous[|previous| - 1];
      RetainedIsDistinct(front, confirmed);
      forall c | c in Retained(front, confirmed) && last.role.Reserve? ensures c.tag != last.candidate.tag {
        RetainedIsOld(front, confirmed, c);
        var i :| 0 <= i < |front| && front[i].role.Reserve? && front[i].candidate.tag == c.tag;
        assert previous[i] == front[i];
      }
    }
  }

  lemma {:induction false} FilledIsDistinct(reserves: seq<Candidate>, ranked: seq<Candidate>)
    requires |reserves| <= RESERVE_LIMIT && DistinctTags(reserves)
    ensures DistinctTags(Filled(reserves, ranked))
    ensures |Filled(reserves, ranked)| < RESERVE_LIMIT ==>
              forall c :: c in ranked ==> HasTag(Filled(reserves, ranked), c.tag)
    decreases |ranked|
  {
    if |reserves| < RESERVE_LIMIT && ranked != [] {
      var next := if HasTag(reserves, ranked[0].tag) then reserves else reserves + [ranked[0]];
      FilledIsDistinct(next, ranked[1..]);
      var full := Filled(reserves, ranked);
      assert HasTag(next, ranked[0].tag) by {
        if !HasTag(reserves, ranked[0].tag) { assert next[|reserves|] == ranked[0]; }
      }
      TagStays(next, full, ranked[0].tag);
      assert forall c :: c in ranked ==> c == ranked[0] || c in ranked[1..];
    }
  }

  lemma TagStays(a: seq<Candidate>, b: seq<Candidate>, tag: string)
    requires a <= b && HasTag(a, tag)
    ensures HasTag(b, tag)
  {
    var c :| c in a && c.tag == tag;
    assert c in b;
  }

  /** At most two reserves and one pending candidate, all confirmed, no tag twice; and fewer than two reserves
      only when no other candidate is confirmed. */
  ghost predicate IsBounded(choice: Choice, confirmed: seq<Candidate>) {
    && |choice.reserves| <= RESERVE_LIMIT && DistinctTags(choice.reserves)
    && (forall c :: c in choice.reserves ==> c in confirmed)
    && (choice.pending.Some? ==>
          && choice.pending.value in confirmed && !HasTag(choice.reserves, choice.pending.value.tag)
          && |choice.reserves| == RESERVE_LIMIT)
    && (|choice.reserves| < RESERVE_LIMIT ==> forall c :: c in confirmed ==> HasTag(choice.reserves, c.tag))
  }

  lemma ChallengedIsBounded(full: seq<Candidate>, ranked: seq<Candidate>, confirmed: seq<Candidate>,
                            previous: seq<Entry>, rank: Ranker)
    requires |full| <= RESERVE_LIMIT && DistinctTags(full) && (forall c :: c in full || c in ranked ==> c in confirmed)
    requires |full| < RESERVE_LIMIT ==> forall c :: c in confirmed ==> HasTag(full, c.tag)
    ensures IsBounded(Challenged(full, ranked, previous, rank), confirmed)
  {
    if |full| == RESERVE_LIMIT && Challenger(ranked, full, rank).Some? {
      var c := Challenger(ranked, full, rank).value;
      assert full[0].tag != c.tag && full[1].tag != c.tag;
    }
  }

  lemma ChoiceIsBounded(confirmed: seq<Candidate>, previous: seq<Entry>, rank: Ranker)
    requires DistinctReserves(previous) && forall x :: x in confirmed ==> rank(x).candidate == x
    ensures IsBounded(Chosen(confirmed, previous, rank), confirmed)
  {
    var ranked, kept := RankedWith(confirmed, rank), Retained(previous, confirmed);
    forall c ensures c in ranked <==> c in confirmed { RankedWithKeepsMembers(confirmed, rank, c); }
    RetainedIsDistinct(previous, confirmed);
    FilledIsDistinct(kept, ranked);
    ChallengedIsBounded(Filled(kept, ranked), ranked, confirmed, previous, rank);
  }

  /** The candidate won before and challenges the pair, which it is not part of. */
  predicate Beats(c: Candidate, pair: seq<Candidate>, previous: seq<Entry>, rank: Ranker)
    requires |pair| == 2
  {
    !HasTag(pair, c.tag) && WinsBefore(previous, c.tag) >= 1 && Challenges(c, pair, rank)
  }

  /** The choice is `full`, or lets a candidate that beats it take the place of the lower scored of the two. */
  ghost predicate IsDisplacement(choice: Choice, full: seq<Candidate>, confirmed: seq<Candidate>, previous: seq<Entry>,
                                 rank: Ranker)
  {
    || choice.reserves == full
    || (|full| == 2 && var weakest := Weakest(full, rank);
        && rank(full[weakest]).score <= rank(full[1 - weakest]).score
        && exists c :: c in confirmed && Beats(c, full, previous, rank) && choice.reserves == full[weakest := c])
  }

  /** The kept reserves and the best of the rest are chosen, except that one challenger may take the place of
      the lower-scored of two, and only one that carried a promotion win already and beats it clearly or
      brings another subscription. */
  lemma OnlyAWinnerDisplaces(confirmed: seq<Candidate>, previous: seq<Entry>, rank: Ranker)
    requires forall x :: x in confirmed ==> rank(x).candidate == x
    ensures var kept := Retained(previous, confirmed);
            var full := Filled(kept, RankedWith(confirmed, rank));
            kept <= full && IsDisplacement(Chosen(confirmed, previous, rank), full, confirmed, previous, rank)
  {
    var ranked := RankedWith(confirmed, rank);
    var full := Filled(Retained(previous, confirmed), ranked);
    if |full| == 2 && Challenger(ranked, full, rank).Some? {
      RankedWithKeepsMembers(confirmed, rank, Challenger(ranked, full, rank).value);
    }
  }

  // ----- What the new entries guarantee -----

  function ReserveCount(previous: seq<Entry>): nat {
    if previous == [] then 0
    else ReserveCount(previous[..|previous| - 1]) + if previous[|previous| - 1].role.Reserve? then 1 else 0
  }

  /** An old reserve that is confirmed again. */
  predicate IsConfirmedAgain(e: Entry, previous: seq<Entry>, confirmed: seq<Candidate>) {
    e in previous && e.role.Reserve? && HasTag(confirmed, e.candidate.tag)
  }

  /** Of at most two old reserves all that are confirmed again are retained, of more the first two. */
  lemma {:induction false} RetainedHasAll(previous: seq<Entry>, confirmed: seq<Candidate>, e: Entry)
    requires IsConfirmedAgain(e, previous, confirmed)
    ensures |Retained(previous, confirmed)| <= ReserveCount(previous)
    ensures HasTag(Retained(previous, confirmed), e.candidate.tag) ||
            (ReserveCount(previous) > RESERVE_LIMIT == |Retained(previous, confirmed)|)
  {
    var front, last := previous[..|previous| - 1], previous[|previous| - 1];
    var before, after := Retained(front, confirmed), Retained(previous, confirmed);
    RetainedIsCounted(front, confirmed);
    if e in front {
      RetainedHasAll(front, confirmed, e);
      if HasTag(before, e.candidate.tag) { TagStays(before, after, e.candidate.tag); }
    } else if |before| < RESERVE_LIMIT {
      assert after[|before|].tag == e.candidate.tag;
    }
  }

  lemma {:induction false} RetainedIsCounted(previous: seq<Entry>, confirmed: seq<Candidate>)
    ensures |Retained(previous, confirmed)| <= ReserveCount(previous)
  {
    if previous != [] { RetainedIsCounted(previous[..|previous| - 1], confirmed); }
  }

  ghost predicate DistinctEntries(states: seq<Entry>) {
    forall i, j :: 0 <= i < j < |states| ==> states[i].candidate.tag != states[j].candidate.tag
  }

  lemma RankedWithIsDistinct(reserves: seq<Candidate>, rank: Ranker)
    requires |reserves| <= RESERVE_LIMIT && DistinctTags(reserves)
    requires forall x :: x in reserves ==> rank(x).candidate == x
    ensures DistinctTags(RankedWith(reserves, rank))
  {
    forall c | c in reserves ensures c in RankedWith(reserves, rank) { RankedWithKeepsMembers(reserves, rank, c); }
    if |reserves| == 2 {
      assert reserves[0] in RankedWith(reserves, rank) && reserves[1] in RankedWith(reserves, rank);
    }
  }

  /** The reserves of the choice in some order, then its pending candidate, all verified now. */
  ghost predicate Shows(states: seq<Entry>, choice: Choice, now: int) {
    var n := |choice.reserves|;
    && |states| == n + (if choice.pending.Some? then 1 else 0)
    && (forall i :: 0 <= i < n ==> states[i].role.Reserve? && states[i].candidate in choice.reserves)
    && (choice.pending.Some? ==> states[n].role.Candidate? && states[n].candidate == choice.pending.value)
    && (forall c :: c in choice.reserves ==> exists i :: 0 <= i < n && states[i].candidate == c)
    && (forall e :: e in states ==> e.verifiedAt == now)
  }

  lemma StatesShowTheChoice(choice: Choice, previous: seq<Entry>, rank: Ranker, health: HealthMap, now: int)
    requires |choice.reserves| <= RESERVE_LIMIT && DistinctTags(choice.reserves)
    requires forall x :: x in choice.reserves ==> rank(x).candidate == x
    requires choice.pending.Some? ==>
               |choice.reserves| == RESERVE_LIMIT && !HasTag(choice.reserves, choice.pending.value.tag)
    ensures var states := States(choice, previous, rank, health, now);
            Shows(states, choice, now) && DistinctEntries(states)
  {
    var ordered := RankedWith(choice.reserves, rank);
    RankedWithIsDistinct(choice.reserves, rank);
    forall c ensures c in ordered <==> c in choice.reserves { RankedWithKeepsMembers(choice.reserves, rank, c); }
    var states := States(choice, previous, rank, health, now);
    forall c | c in choice.reserves ensures exists i :: 0 <= i < |ordered| && states[i].candidate == c {
      var i :| 0 <= i < |ordered| && ordered[i] == c;
      assert states[i].candidate == c;
    }
  }

  lemma NothingElseIsConfirmed(states: seq<Entry>, choice: Choice, confirmed: seq<Candidate>, now: int, c: Candidate)
    requires Shows(states, choice, now) && IsBounded(choice, confirmed) && |states| < RESERVE_LIMIT && c in confirmed
    ensures exists e :: e in states && e.candidate.tag == c.tag
  {
    var kept :| kept in choice.reserves && kept.tag == c.tag;
    var i :| 0 <= i < |choice.reserves| && states[i].candidate == kept;
    assert states[i] in states;
  }

  /** At most two reserves, then at most one candidate that awaits its promotion; every one successful and
      confirmed in this pass, no tag twice, and fewer than two only when no other is confirmed. */
  ghost predicate IsBoundedSelection(states: seq<Entry>, successful: seq<Candidate>, health: HealthMap, now: int) {
    && |states| <= RESERVE_LIMIT + 1 && DistinctEntries(states)
    && (forall i :: 0 <= i < |states| ==>
          if i < RESERVE_LIMIT then states[i].role.Reserve? else states[i].role.Candidate?)
    && (forall e :: e in states ==>
          e.candidate in successful && IsConfirmed(e.candidate, health) && e.verifiedAt == now)
    && (|states| < RESERVE_LIMIT ==>
          forall c :: c in successful && IsConfirmed(c, health) ==> exists e :: e in states && e.candidate.tag == c.tag)
  }

  lemma BoundedChoiceSelects(states: seq<Entry>, choice: Choice, successful: seq<Candidate>, health: HealthMap,
                             now: int)
    requires Shows(states, choice, now) && DistinctEntries(states) && IsBounded(choice, Confirmed(successful, health))
    ensures IsBoundedSelection(states, successful, health, now)
  {
    forall c | |states| < RESERVE_LIMIT && c in successful && IsConfirmed(c, health)
      ensures exists e :: e in states && e.candidate.tag == c.tag
    {
      NothingElseIsConfirmed(states, choice, Confirmed(successful, health), now, c);
    }
  }

  lemma SelectionIsBounded(successful: seq<Candidate>, health: HealthMap, previous: seq<Entry>, now: int)
    requires DistinctReserves(previous)
    ensures IsBoundedSelection(SelectedStates(successful, health, previous, now), successful, health, now)
  {
    var confirmed, rank := Confirmed(successful, health), RankerFor(health);
    if confirmed != [] {
      var choice := Chosen(confirmed, previous, rank);
      ChoiceIsBounded(confirmed, previous, rank);
      StatesShowTheChoice(choice, previous, rank, health, now);
      BoundedChoiceSelects(States(choice, previous, rank, health, now), choice, successful, health, now);
    }
  }

  ghost predicate IsReserveIn(states: seq<Entry>, tag: string) {
    exists i :: 0 <= i < |states| && states[i].role.Reserve? && states[i].candidate.tag == tag
  }

  lemma ReservesAreShown(states: seq<Entry>, choice: Choice, now: int, tag: string)
    requires Shows(states, choice, now) && HasTag(choice.reserves, tag)
    ensures IsReserveIn(states, tag)
  {
    var c :| c in choice.reserves && c.tag == tag;
    var i :| 0 <= i < |choice.reserves| && states[i].candidate == c;
  }

  /** The entries have a reserve of the tag, or a candidate that beats the pair has taken its place and the
      other of the pair, which scores no less, is there. */
  ghost predicate StaysUnlessBeaten(states: seq<Entry>, tag: string, full: seq<Candidate>, confirmed: seq<Candidate>,
                                    previous: seq<Entry>, rank: Ranker)
  {
    || IsReserveIn(states, tag)
    || (|full| == 2 && var weakest := Weakest(full, rank);
        && tag == full[weakest].tag && rank(full[weakest]).score <= rank(full[1 - weakest]).score
        && IsReserveIn(states, full[1 - weakest].tag)
        && exists c :: c in confirmed && Beats(c, full, previous, rank) && IsReserveIn(states, c.tag))
  }

  lemma FullStaysUnlessBeaten(states: seq<Entry>, choice: Choice, full: seq<Candidate>, confirmed: seq<Candidate>,
                              previous: seq<Entry>, rank: Ranker, now: int, tag: string)
    requires Shows(states, choice, now) && IsDisplacement(choice, full, confirmed, previous, rank) && HasTag(full, tag)
    ensures StaysUnlessBeaten(states, tag, full, confirmed, previous, rank)
  {
    if HasTag(choice.reserves, tag) {
      ReservesAreShown(states, choice, now, tag);
    } else {
      var weakest := Weakest(full, rank);
      var c :| c in confirmed && Beats(c, full, previous, rank) && choice.reserves == full[weakest := c];
      assert choice.reserves[weakest] == c && choice.reserves[1 - weakest] == full[1 - weakest];
      ReservesAreShown(states, choice, now, c.tag);
      ReservesAreShown(states, choice, now, full[1 - weakest].tag);
    }
  }

  /** Of at most two old reserves every one that is confirmed again is a reserve again, except the
      lower-scored of two when a candidate that won before beats it and takes the place. */
  lemma OldReservesStay(successful: seq<Candidate>, health: HealthMap, previous: seq<Entry>, now: int, e: Entry)
    requires DistinctReserves(previous) && ReserveCount(previous) <= RESERVE_LIMIT
    requires IsConfirmedAgain(e, previous, Confirmed(successful, health))
    ensures var confirmed, rank := Confirmed(successful, health), RankerFor(health);
            StaysUnlessBeaten(SelectedStates(successful, health, previous, now), e.candidate.tag,
                              Filled(Retained(previous, confirmed),
                                     RankedWith(confirmed, rank)), confirmed, previous, rank)
  {
    var confirmed, rank := Confirmed(successful, health), RankerFor(health);
    var choice, kept := Chosen(confirmed, previous, rank), Retained(previous, confirmed);
    var full := Filled(kept, RankedWith(confirmed, rank));
    ChoiceIsBounded(confirmed, previous, rank);
    StatesShowTheChoice(choice, previous, rank, health, now);
    OnlyAWinnerDisplaces(confirmed, previous, rank);
    RetainedHasAll(previous, confirmed, e);
    TagStays(kept, full, e.candidate.tag);
    FullStaysUnlessBeaten(States(choice, previous, rank, health, now), choice, full, confirmed, previous, rank, now,
                          e.candidate.tag);
  }

  /** A pass probes two candidates at most, and two cannot challenge each other: such a pass neither
      displaces a confirmed reserve nor leaves a pending candidate. */
  lemma TwoCandidatesNeverChallenge(confirmed: seq<Candidate>, previous: seq<Entry>, rank: Ranker)
    requires |confirmed| <= PROBE_LIMIT && DistinctTags(confirmed) && DistinctReserves(previous)
    requires forall x :: x in confirmed ==> rank(x).candidate == x
    ensures var choice := Chosen(confirmed, previous, rank);
            choice.pending == None && Retained(previous, confirmed) <= choice.reserves
  {
    var ranked, kept := RankedWith(confirmed, rank), Retained(previous, confirmed);
    RetainedIsDistinct(previous, confirmed);
    FilledIsDistinct(kept, ranked);
    var full := Filled(kept, ranked);
    if |full| == 2 && Challenger(ranked, full, rank).Some? {
      var c := Challenger(ranked, full, rank).value;
      RankedWithKeepsMembers(confirmed, rank, c);
      RankedWithKeepsMembers(confirmed, rank, full[0]);
      RankedWithKeepsMembers(confirmed, rank, full[1]);
      assert full[0].tag != c.tag && full[1].tag != c.tag && full[0].tag != full[1].tag;
      ThreeNeedThreePlaces(confirmed, full[0], full[1], c);
    }
  }

  lemma ThreeNeedThreePlaces(cs: seq<Candidate>, a: Candidate, b: Candidate, c: Candidate)
    requires a in cs && b in cs && c in cs && a.tag != b.tag && a.tag != c.tag && b.tag != c.tag
    ensures |cs| >= 3
  {
    var i :| 0 <= i < |cs| && cs[i] == a;
    var j :| 0 <= j < |cs| && cs[j] == b;
    var k :| 0 <= k < |cs| && cs[k] == c;
  }

  // ----- The order in which probes complete does not matter -----

  lemma {:induction false} ConfirmedCounts(s: seq<Candidate>, health: HealthMap, c: Candidate)
    ensures multiset(Confirmed(s, health))[c] == if IsConfirmed(c, health) then multiset(s)[c] else 0
  {
    if s != [] {
      assert s == s[..|s| - 1] + [s[|s| - 1]];
      ConfirmedCounts(s[..|s| - 1], health, c);
    }
  }

  lemma ByTagIsUnique(cs: seq<Candidate>, c: Candidate)
    requires DistinctTags(cs) && c in cs
    ensures ByTag(cs, c.tag) == Some(c)
  {
    assert HasTag(cs, c.tag);
  }

  lemma {:induction false} RetainedIgnoresOrder(previous: seq<Entry>, a: seq<Candidate>, b: seq<Candidate>)
    requires DistinctTags(a) && DistinctTags(b) && forall c :: c in a <==> c in b
    ensures Retained(previous, a) == Retained(previous, b)
  {
    if previous != [] {
      var tag := previous[|previous| - 1].candidate.tag;
      RetainedIgnoresOrder(previous[..|previous| - 1], a, b);
      if ByTag(a, tag).Some? { ByTagIsUnique(b, ByTag(a, tag).value); }
      if ByTag(b, tag).Some? { ByTagIsUnique(a, ByTag(b, tag).value); }
    }
  }

  lemma {:induction false} ConfirmedIsDistinct(s: seq<Candidate>, health: HealthMap)
    requires DistinctTags(s)
    ensures DistinctTags(Confirmed(s, health))
  {
    if s != [] {
      var front, last := s[..|s| - 1], s[|s| - 1];
      ConfirmedIsDistinct(front, health);
      forall c | c in Confirmed(front, health) ensures c.tag != last.tag {
        var i :| 0 <= i < |front| && front[i] == c;
        assert s[i] == c;
      }
    }
  }

  lemma RankedWithIgnoresOrder(a: seq<Candidate>, b: seq<Candidate>, health: HealthMap)
    requires multiset(a) == multiset(b)
    ensures RankedWith(a, RankerFor(health)) == RankedWith(b, RankerFor(health))
  {
    OrderIgnoresInputOrder(a, b, health);
    assert forall s :: RankedWith(s, RankerFor(health)) == Candidates(Order(s, health));
  }

  /** The workers report in any order; the reserves are the same. */
  lemma SelectionIgnoresCompletionOrder(a: seq<Candidate>, b: seq<Candidate>, health: HealthMap, previous: seq<Entry>,
                                        now: int)
    requires multiset(a) == multiset(b) && DistinctTags(a) && DistinctTags(b)
    ensures SelectedStates(a, health, previous, now) == SelectedStates(b, health, previous, now)
  {
    var ca, cb := Confirmed(a, health), Confirmed(b, health);
    forall c ensures multiset(ca)[c] == multiset(cb)[c] {
      ConfirmedCounts(a, health, c);
      ConfirmedCounts(b, health, c);
    }
    assert multiset(ca) == multiset(cb);
    forall c ensures c in ca <==> c in cb {
      assert c in multiset(ca) <==> c in multiset(cb);
    }
    ConfirmedIsDistinct(a, health);
    ConfirmedIsDistinct(b, health);
    RetainedIgnoresOrder(previous, ca, cb);
    RankedWithIgnoresOrder(ca, cb, health);
    assert |multiset(ca)| == |ca| && |multiset(cb)| == |cb|;
  }
}
