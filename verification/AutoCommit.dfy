/** Committing an automatic decision: a rejected candidate is excluded and the next one tried. */
module AutoCommit {
  import opened Wrappers
  import opened Text
  import opened ProbeHealth
  import opened AntiFlap
  import opened Subscriptions
  import opened NodeSelection
  import opened AutoSelection
  import OutboundSwitch

  // ----- Evaluation settles on offered nodes only -----

  /** Every stored entry carries the ID it is stored under. */
  ghost predicate IsKeyed(health: HealthMap) {
    forall id :: id in health ==> health[id].id == id
  }

  /** The subscription has a node of that ID which the rule allows. */
  ghost predicate Offers(sub: Subscription, id: string, rule: Rule) {
    exists n :: n in sub.nodes && n.id == id && rule(sub.id, n)
  }

  predicate StandsDown(health: HealthMap, id: string, threshold: int) {
    id in health && health[id].id == id && health[id].failureStreak >= threshold
  }

  lemma ChooseSettlesOnOffered(best: Node, owner: Subscription, currentSub: Subscription, fallback: Subscription,
                               anywhere: bool, health: HealthMap, state: AutoState, policy: SwitchPolicy,
                               current: string, now: int, rule: Rule)
    requires IsKeyed(health) && best.id != "" && Offers(owner, best.id, rule)
    requires FindNode(currentSub.nodes, current).Some? && CurrentExcluded(currentSub, current, rule) ==>
               StandsDown(health, current, policy.failureThreshold)
    ensures var d := Choose(best, owner, currentSub, fallback, anywhere, health, state, policy, current, false, now);
            d.healthy ==> Offers(d.owner, d.selected.id, rule) && d.owner in {owner, currentSub}
  {
  }

  /** What gathering the subscriptions maintains. */
  ghost predicate IsSound(pool: Pool, subs: seq<Subscription>, rule: Rule, policy: SwitchPolicy, current: string) {
    && IsKeyed(pool.health)
    && (forall n :: n in pool.nodes ==> n.id != "" && n.id in pool.owners)
    && (forall id :: id in pool.owners ==> pool.owners[id] in subs && Offers(pool.owners[id], id, rule))
    && (pool.currentSub != NO_SUBSCRIPTION ==>
          pool.currentSub in subs &&
          (CurrentExcluded(pool.currentSub, current, rule) ==>
             StandsDown(pool.health, current, policy.failureThreshold)))
  }

  ghost predicate AllNamed(subs: seq<Subscription>) {
    forall sub :: sub in subs ==> forall n :: n in sub.nodes ==> n.id != ""
  }

  lemma JoinedIsKeyed(pool: Pool, sub: Subscription, rule: Rule, policy: SwitchPolicy, state: AutoState,
                      current: string, now: int)
    requires IsKeyed(pool.health)
    ensures IsKeyed(Joined(pool, sub, rule, policy, state, current, now).health)
  {
    ForcedIsKeyed(pool.health, current, EXPIRED_REASON, now, policy.failureThreshold);
    ForcedIsKeyed(pool.health, current, EXCLUDED_REASON, now, policy.failureThreshold);
  }

  lemma JoinedOwnersOffer(pool: Pool, before: seq<Subscription>, sub: Subscription, rule: Rule, policy: SwitchPolicy,
                          state: AutoState, current: string, now: int, id: string)
    requires forall other :: other in pool.owners ==>
               pool.owners[other] in before && Offers(pool.owners[other], other, rule)
    requires id in Joined(pool, sub, rule, policy, state, current, now).owners
    ensures var owner := Joined(pool, sub, rule, policy, state, current, now).owners[id];
            owner in before + [sub] && Offers(owner, id, rule)
  {
    if id !in pool.owners {
      var n :| n in Selectable(sub, rule, now) && n.id == id;
      assert n in sub.nodes && rule(sub.id, n);
    }
  }

  lemma JoinedIsSound(pool: Pool, before: seq<Subscription>, sub: Subscription, rule: Rule, policy: SwitchPolicy,
                      state: AutoState, current: string, now: int)
    requires IsSound(pool, before, rule, policy, current) && forall n :: n in sub.nodes ==> n.id != ""
    ensures IsSound(Joined(pool, sub, rule, policy, state, current, now), before + [sub], rule, policy, current)
  {
    var next := Joined(pool, sub, rule, policy, state, current, now);
    JoinedIsKeyed(pool, sub, rule, policy, state, current, now);
    forall id | id in next.owners ensures next.owners[id] in before + [sub] && Offers(next.owners[id], id, rule) {
      JoinedOwnersOffer(pool, before, sub, rule, policy, state, current, now, id);
    }
    assert sub in before + [sub] && (pool.currentSub in before ==> pool.currentSub in before + [sub]);
  }

  lemma {:induction false} GatheredIsSound(subs: seq<Subscription>, rule: Rule, policy: SwitchPolicy, state: AutoState,
                                           current: string, now: int, health: HealthMap)
    requires IsKeyed(health) && AllNamed(subs)
    ensures IsSound(Gathered(subs, rule, policy, state, current, now, health), subs, rule, policy, current)
  {
    if subs != [] {
      var front, last := subs[..|subs| - 1], subs[|subs| - 1];
      assert forall s :: s in front ==> s in subs;
      GatheredIsSound(front, rule, policy, state, current, now, health);
      JoinedIsSound(Gathered(front, rule, policy, state, current, now, health), front, last, rule, policy, state,
                    current, now);
      assert subs == front + [last];
    }
  }

  lemma EvaluateIsKeyed(sub: Subscription, rule: Rule, policy: SwitchPolicy, state: AutoState, now: int)
    requires IsKeyed(state.health)
    ensures IsKeyed(Evaluate(sub, rule, policy, state, None, now).health)
  {
    ForcedIsKeyed(state.health, CurrentIn(sub, state), EXCLUDED_REASON, now, policy.failureThreshold);
    assert Evaluate(sub, rule, policy, state, None, now).health in
             {state.health, Forced(state.health, CurrentIn(sub, state), EXCLUDED_REASON, now, policy.failureThreshold)};
  }

  lemma ForcedIsKeyed(health: HealthMap, id: string, reason: string, at: int, threshold: int)
    requires IsKeyed(health)
    ensures IsKeyed(Forced(health, id, reason, at, threshold))
  {
  }

  lemma BestIsOffered(sub: Subscription, rule: Rule, health: HealthMap, now: int)
    requires Selectable(sub, rule, now) != [] && AllNamed([sub])
    ensures var best := Best(Selectable(sub, rule, now), health);
            best.id != "" && Offers(sub, best.id, rule)
  {
    var best := Best(Selectable(sub, rule, now), health);
    assert sub in [sub] && best in sub.nodes && rule(sub.id, best);
  }

  lemma ExcludedStandsDown(sub: Subscription, rule: Rule, policy: SwitchPolicy, state: AutoState, now: int)
    requires Selectable(sub, rule, now) != [] && CurrentExcluded(sub, CurrentIn(sub, state), rule)
    ensures StandsDown(Evaluate(sub, rule, policy, state, None, now).health, CurrentIn(sub, state),
                       policy.failureThreshold)
  {
  }

  /** Deciding again without probing never settles on a node the rule bars, not even on the active one. */
  lemma EvaluateSettlesOnOffered(sub: Subscription, rule: Rule, policy: SwitchPolicy, state: AutoState, now: int)
    requires IsKeyed(state.health) && AllNamed([sub])
    ensures var d := Evaluate(sub, rule, policy, state, None, now);
            d.healthy ==> d.owner in {sub} && Offers(d.owner, d.selected.id, rule)
  {
    var current, nodes := CurrentIn(sub, state), Selectable(sub, rule, now);
    if nodes != [] {
      var health := Evaluate(sub, rule, policy, state, None, now).health;
      EvaluateIsKeyed(sub, rule, policy, state, now);
      BestIsOffered(sub, rule, health, now);
      if CurrentExcluded(sub, current, rule) { ExcludedStandsDown(sub, rule, policy, state, now); }
      ChooseSettlesOnOffered(Best(nodes, health), sub, sub, sub, false, health, state, policy, current, now, rule);
    }
  }

  lemma EvaluateAllSettlesOnOffered(subs: seq<Subscription>, rule: Rule, policy: SwitchPolicy, state: AutoState,
                                    now: int)
    requires IsKeyed(state.health) && AllNamed(subs)
    ensures var d := EvaluateAll(subs, rule, policy, state, None, now);
            IsKeyed(d.health) && (d.healthy ==> d.owner in subs && Offers(d.owner, d.selected.id, rule))
  {
    var current, start := CurrentAnywhere(state), HealthFor(state.health, subs);
    GatheredIsSound(subs, rule, policy, state, current, now, start);
    var pool := Gathered(subs, rule, policy, state, current, now, start);
    if pool.nodes != [] {
      var best := Best(pool.nodes, pool.health);
      ChooseSettlesOnOffered(best, pool.owners[best.id], pool.currentSub, pool.fallback, true, pool.health, state,
                             policy, current, now, rule);
    }
  }

  // ----- An undecided evaluation means that no selectable node is healthy -----

  datatype Scope = One(sub: Subscription) | All(subs: seq<Subscription>)

  function Subs(scope: Scope): seq<Subscription> {
    match scope case One(sub) => [sub] case All(subs) => subs
  }

  ghost predicate NoneHealthy(subs: seq<Subscription>, rule: Rule, health: HealthMap, now: int) {
    forall sub, n :: sub in subs && n in Selectable(sub, rule, now) ==> !Lookup(health, n.id).healthy
  }

  lemma {:induction false} GatheredHasAll(subs: seq<Subscription>, rule: Rule, policy: SwitchPolicy, state: AutoState,
                                          current: string, now: int, health: HealthMap, sub: Subscription, n: Node)
    requires sub in subs && n in Selectable(sub, rule, now)
    ensures n in Gathered(subs, rule, policy, state, current, now, health).nodes
  {
    var front := subs[..|subs| - 1];
    if sub in front { GatheredHasAll(front, rule, policy, state, current, now, health, sub, n); }
  }

  lemma BestIsHealthyIfAny(nodes: seq<Node>, health: HealthMap)
    requires nodes != [] && !Lookup(health, Best(nodes, health).id).healthy
    ensures forall n :: n in nodes ==> !Lookup(health, n.id).healthy
  {
    forall n | n in nodes ensures !Lookup(health, n.id).healthy {
      BestIsCheapest(nodes, health, n);
    }
  }

  lemma UndecidedOne(sub: Subscription, rule: Rule, policy: SwitchPolicy, state: AutoState, now: int)
    requires !Evaluate(sub, rule, policy, state, None, now).healthy
    ensures NoneHealthy([sub], rule, Evaluate(sub, rule, policy, state, None, now).health, now)
  {
    var d := Evaluate(sub, rule, policy, state, None, now);
    if Selectable(sub, rule, now) != [] { BestIsHealthyIfAny(Selectable(sub, rule, now), d.health); }
  }

  lemma UndecidedAll(subs: seq<Subscription>, rule: Rule, policy: SwitchPolicy, state: AutoState, now: int)
    requires !EvaluateAll(subs, rule, policy, state, None, now).healthy
    ensures NoneHealthy(subs, rule, EvaluateAll(subs, rule, policy, state, None, now).health, now)
  {
    var current, start := CurrentAnywhere(state), HealthFor(state.health, subs);
    var pool := Gathered(subs, rule, policy, state, current, now, start);
    if pool.nodes != [] { BestIsHealthyIfAny(pool.nodes, pool.health); }
    forall sub, n | sub in subs && n in Selectable(sub, rule, now) ensures !Lookup(pool.health, n.id).healthy {
      GatheredHasAll(subs, rule, policy, state, current, now, start, sub, n);
    }
  }

  /** Either evaluation, without probing. */
  type Decider = (Rule, SwitchPolicy, AutoState, int) -> Decision

  function DeciderFor(scope: Scope): Decider {
    match scope
    case One(sub) => (rule: Rule, policy, state, now) => Evaluate(sub, rule, policy, state, None, now)
    case All(subs) => (rule: Rule, policy, state, now) => EvaluateAll(subs, rule, policy, state, None, now)
  }

  ghost predicate IsGoodDecision(d: Decision, subs: seq<Subscription>, rule: Rule, now: int) {
    && IsKeyed(d.health)
    && (d.healthy ==> d.owner in subs && Offers(d.owner, d.selected.id, rule))
    && (!d.healthy ==> NoneHealthy(subs, rule, d.health, now))
  }

  ghost predicate DecidesWell(decide: Decider, subs: seq<Subscription>) {
    forall rule, policy, state: AutoState, now ::
      IsKeyed(state.health) ==> IsGoodDecision(decide(rule, policy, state, now), subs, rule, now)
  }

  lemma DeciderDecidesWell(scope: Scope)
    requires AllNamed(Subs(scope))
    ensures DecidesWell(DeciderFor(scope), Subs(scope))
  {
    forall rule, policy, state: AutoState, now | IsKeyed(state.health)
      ensures IsGoodDecision(DeciderFor(scope)(rule, policy, state, now), Subs(scope), rule, now)
    {
      match scope {
        case One(sub) =>
          EvaluateIsKeyed(sub, rule, policy, state, now);
          EvaluateSettlesOnOffered(sub, rule, policy, state, now);
          if !Evaluate(sub, rule, policy, state, None, now).healthy { UndecidedOne(sub, rule, policy, state, now); }
        case All(subs) =>
          EvaluateAllSettlesOnOffered(subs, rule, policy, state, now);
          if !EvaluateAll(subs, rule, policy, state, None, now).healthy {
            UndecidedAll(subs, rule, policy, state, now);
          }
      }
    }
  }

  // ----- Excluded pairs -----

  type Pair = (string, string)

  function PairOf(d: Decision): Pair {
    (d.owner.id, d.selected.id)
  }

  /** Every node of the subscriptions has an exclusion key that survives normalisation. */
  ghost predicate AllAddressable(subs: seq<Subscription>) {
    forall sub, n :: sub in subs && n in sub.nodes ==> Addressable(sub.id, n.id)
  }

  ghost predicate AreExcluded(pairs: seq<Pair>, excluded: set<string>) {
    pairs == []
    || (var last := pairs[|pairs| - 1];
        AreExcluded(pairs[..|pairs| - 1], excluded) && Addressable(last.0, last.1) &&
        IsExcluded(excluded, last.0, last.1))
  }

  function WithKey(settings: Settings, pair: Pair): Settings {
    settings.(excluded := Normalized(settings.excluded + {Key(pair.0, pair.1)}))
  }

  lemma {:induction false} ExclusionsStay(pairs: seq<Pair>, settings: Settings, pair: Pair)
    requires AreExcluded(pairs, settings.excluded)
    ensures AreExcluded(pairs, WithKey(settings, pair).excluded)
  {
    if pairs != [] {
      var last := pairs[|pairs| - 1];
      ExclusionsStay(pairs[..|pairs| - 1], settings, pair);
      ExclusionsGrow(settings.excluded, Key(pair.0, pair.1), last.0, last.1);
    }
  }

  lemma ExcludingOneMore(pairs: seq<Pair>, settings: Settings, pair: Pair)
    requires AreExcluded(pairs, settings.excluded) && Addressable(pair.0, pair.1)
    ensures AreExcluded(pairs + [pair], WithKey(settings, pair).excluded)
  {
    ExclusionsStay(pairs, settings, pair);
    ExclusionsGrow(settings.excluded, Key(pair.0, pair.1), pair.0, pair.1);
    assert (pairs + [pair])[..|pairs|] == pairs;
  }

  lemma OfferedIsNotExcluded(settings: Settings, sub: Subscription, id: string)
    requires Offers(sub, id, RuleOf(settings))
    ensures !IsExcluded(settings.excluded, sub.id, id)
  {
    var n :| n in sub.nodes && n.id == id && RuleOf(settings)(sub.id, n);
  }

  /** A pair that is not excluded is none of the excluded ones. */
  lemma {:induction false} NotExcludedIsNew(pairs: seq<Pair>, excluded: set<string>, pair: Pair)
    requires AreExcluded(pairs, excluded) && !IsExcluded(excluded, pair.0, pair.1)
    ensures pair !in pairs
  {
    if pairs != [] {
      var front, last := pairs[..|pairs| - 1], pairs[|pairs| - 1];
      NotExcludedIsNew(front, excluded, pair);
      assert pairs == front + [last];
    }
  }

  /** The IDs the program makes meet that. */
  lemma GeneratedAreAddressable(subs: seq<Subscription>)
    requires forall sub :: sub in subs ==> IsGenerated(sub.id) && forall n :: n in sub.nodes ==> !IsBlank(n.id)
    ensures AllAddressable(subs)
  {
    forall sub, n | sub in subs && n in sub.nodes ensures Addressable(sub.id, n.id) {
      BlankTrimsAway(n.id);
      GeneratedIsPlain(sub.id, n.id);
    }
  }

  lemma AddressableIsNamed(subs: seq<Subscription>)
    requires AllAddressable(subs)
    ensures AllNamed(subs)
  {
    forall sub, n | sub in subs && n in sub.nodes ensures n.id != "" {
      AddressableIsNotBlank(sub.id, n.id);
    }
  }

  ghost predicate Has(sub: Subscription, id: string) {
    exists n :: n in sub.nodes && n.id == id
  }

  /** The decision names a node of one of the subscriptions. */
  ghost predicate IsSettled(subs: seq<Subscription>, d: Decision) {
    d.owner in subs && Has(d.owner, d.selected.id)
  }

  // ----- Every evaluation, with probing or without, is settled and keyed -----

  lemma {:induction false} ProbedIsKeyed(health: HealthMap, results: seq<(string, Probe)>, threshold: int)
    requires IsKeyed(health)
    ensures IsKeyed(Probed(health, results, threshold))
  {
    if results != [] { ProbedIsKeyed(health, results[..|results| - 1], threshold); }
  }

  lemma MeasuredIsKeyed(health: HealthMap, state: AutoState, current: string, probing: Option<Probing>, threshold: int,
                        now: int)
    requires IsKeyed(health)
    ensures IsKeyed(Measured(health, state, current, probing, threshold, now))
  {
    if probing.Some? {
      ProbedIsKeyed(health, probing.value.results, threshold);
      var probed := Probed(health, probing.value.results, threshold);
      if probing.value.egressFailure.Some? {
        ForcedIsKeyed(probed, current, probing.value.egressFailure.value, now, threshold);
      }
    }
  }

  lemma {:induction false} GatheredIsKeyed(subs: seq<Subscription>, rule: Rule, policy: SwitchPolicy, state: AutoState,
                                           current: string, now: int, health: HealthMap)
    requires IsKeyed(health)
    ensures IsKeyed(Gathered(subs, rule, policy, state, current, now, health).health)
  {
    if subs != [] {
      var front := subs[..|subs| - 1];
      GatheredIsKeyed(front, rule, policy, state, current, now, health);
      JoinedIsKeyed(Gathered(front, rule, policy, state, current, now, health), subs[|subs| - 1], rule, policy, state,
                    current, now);
    }
  }

  /** Owners and the active subscription are subscriptions that were gathered. */
  ghost predicate IsOwned(pool: Pool, subs: seq<Subscription>) {
    && (forall n :: n in pool.nodes ==> n.id in pool.owners)
    && (forall id :: id in pool.owners ==> pool.owners[id] in subs && Has(pool.owners[id], id))
    && (pool.currentSub == NO_SUBSCRIPTION || pool.currentSub in subs)
  }

  lemma {:induction false} GatheredIsOwned(subs: seq<Subscription>, rule: Rule, policy: SwitchPolicy, state: AutoState,
                                           current: string, now: int, health: HealthMap)
    ensures IsOwned(Gathered(subs, rule, policy, state, current, now, health), subs)
  {
    if subs != [] {
      var front, last := subs[..|subs| - 1], subs[|subs| - 1];
      GatheredIsOwned(front, rule, policy, state, current, now, health);
      var before := Gathered(front, rule, policy, state, current, now, health);
      JoinedIsOwned(before, front, last, rule, policy, state, current, now);
      assert subs == front + [last];
    }
  }

  lemma JoinedIsOwned(pool: Pool, before: seq<Subscription>, sub: Subscription, rule: Rule, policy: SwitchPolicy,
                      state: AutoState, current: string, now: int)
    requires IsOwned(pool, before)
    ensures IsOwned(Joined(pool, sub, rule, policy, state, current, now), before + [sub])
  {
    var next := Joined(pool, sub, rule, policy, state, current, now);
    assert forall s :: s in before ==> s in before + [sub];
    assert sub in before + [sub];
    forall id | id in next.owners ensures next.owners[id] in before + [sub] && Has(next.owners[id], id) {
      if id !in pool.owners {
        var n :| n in Selectable(sub, rule, now) && n.id == id;
        assert n in sub.nodes;
      }
    }
  }

  lemma ChoiceIsSettled(best: Node, owner: Subscription, currentSub: Subscription, fallback: Subscription,
                        anywhere: bool, health: HealthMap, state: AutoState, policy: SwitchPolicy, current: string,
                        probed: bool, now: int)
    requires Has(owner, best.id)
    ensures var d := Choose(best, owner, currentSub, fallback, anywhere, health, state, policy, current, probed, now);
            && d.health == health
            && (d.healthy ==>
                  && Has(d.owner, d.selected.id)
                  && (d.owner == owner || (d.owner == currentSub && currentSub.nodes != [])))
  {
  }

  lemma EvaluateIsSettled(sub: Subscription, rule: Rule, policy: SwitchPolicy, state: AutoState,
                          probing: Option<Probing>, now: int)
    ensures var d := Evaluate(sub, rule, policy, state, probing, now);
            && (d.healthy ==> IsSettled([sub], d))
            && (IsKeyed(state.health) ==> IsKeyed(d.health))
  {
    var current, nodes, threshold := CurrentIn(sub, state), Selectable(sub, rule, now), policy.failureThreshold;
    if nodes != [] {
      var checked := if CurrentExcluded(sub, current, rule)
                     then Forced(state.health, current, EXCLUDED_REASON, now, threshold) else state.health;
      var health := Measured(checked, state, current, probing, threshold, now);
      if IsKeyed(state.health) {
        ForcedIsKeyed(state.health, current, EXCLUDED_REASON, now, threshold);
        MeasuredIsKeyed(checked, state, current, probing, threshold, now);
      }
      assert Best(nodes, health) in sub.nodes;
      ChoiceIsSettled(Best(nodes, health), sub, sub, sub, false, health, state, policy, current, probing.Some?, now);
    }
  }

  lemma EvaluateAllIsSettled(subs: seq<Subscription>, rule: Rule, policy: SwitchPolicy, state: AutoState,
                             probing: Option<Probing>, now: int)
    ensures var d := EvaluateAll(subs, rule, policy, state, probing, now);
            && (d.healthy ==> IsSettled(subs, d))
            && (IsKeyed(state.health) ==> IsKeyed(d.health))
  {
    var current, start := CurrentAnywhere(state), HealthFor(state.health, subs);
    var pool := Gathered(subs, rule, policy, state, current, now, start);
    GatheredIsOwned(subs, rule, policy, state, current, now, start);
    if IsKeyed(state.health) { GatheredIsKeyed(subs, rule, policy, state, current, now, start); }
    if pool.nodes != [] {
      var health := Measured(pool.health, state, current, probing, policy.failureThreshold, now);
      if IsKeyed(state.health) { MeasuredIsKeyed(pool.health, state, current, probing, policy.failureThreshold, now); }
      var best := Best(pool.nodes, health);
      ChoiceIsSettled(best, pool.owners[best.id], pool.currentSub, pool.fallback, true, health, state, policy, current,
                      probing.Some?, now);
    }
  }

  // ----- The attempts -----

  const MAX_ATTEMPTS := 3

  /** The state is the snapshot's. */
  datatype Prepared = Prepared(scope: Scope, settings: Settings, state: AutoState, decision: Decision)

  datatype Applied = Success | CandidateRejected | Broken

  /** What one round of the loop meets; `reloaded` is the state after the failed attempt, with the cached
      health merged in. */
  datatype Attempt = Attempt(cancelledBefore: bool, applied: Applied, cancelledAfter: bool, reloaded: Option<AutoState>,
                             now: int)

  datatype Ending =
    | Quit(exit: Exit)
    | GaveUp
    | NoneLeft(fallback: AutoState)
    | Connected(node: Node)

  function CountSelectable(subs: seq<Subscription>, rule: Rule, now: int): nat {
    if subs == [] then 0
    else CountSelectable(subs[..|subs| - 1], rule, now) + |Selectable(subs[|subs| - 1], rule, now)|
  }

  predicate IsLater(a: Option<int>, b: Option<int>) {
    a.Some? && (b.None? || a.value > b.value)
  }

  /** The later observation of each node, except that the stored one of the failed node always wins. */
  function Merged(stored: HealthMap, probed: HealthMap, failed: string): HealthMap {
    map id | id in stored.Keys + probed.Keys ::
      if id in stored && (failed == id || id !in probed || IsLater(stored[id].checkedAt, probed[id].checkedAt))
      then stored[id] else probed[id]
  }

  /** The state handed on when no healthy candidate is left. It is built from the snapshot taken before the
      probes, not from the state the failed attempts left behind. */
  function FallbackState(prepared: Prepared, decision: Decision): AutoState {
    var s := prepared.state.(health := decision.health, mode := OutboundSwitch.Auto,
                             failureReason := Some(decision.reason));
    match prepared.scope
    case One(sub) => s.(subscription := sub.id)
    case All(_) =>
      s.(scope := "all", subscription := if decision.fallback.id != "" then decision.fallback.id else s.subscription)
  }

  ghost predicate Distinct(pairs: seq<Pair>) {
    forall i, j :: 0 <= i < j < |pairs| ==> pairs[i] != pairs[j]
  }

  lemma DistinctGrows(pairs: seq<Pair>, pair: Pair)
    requires Distinct(pairs) && pair !in pairs
    ensures Distinct(pairs + [pair])
  {
  }

  /** The settings and the decision a round starts from. */
  datatype Point = Point(settings: Settings, decision: Decision)

  ghost predicate IsOnCourse(subs: seq<Subscription>, point: Point, tried: seq<Pair>) {
    && IsKeyed(point.decision.health) && Distinct(tried) && AreExcluded(tried, point.settings.excluded)
    && (point.decision.healthy ==> IsSettled(subs, point.decision) && PairOf(point.decision) !in tried)
  }

  /** After a rejection: exclude the candidate and decide again on the reloaded state. */
  function Next(decide: Decider, point: Point, round: Attempt): Point {
    match round.reloaded
    case None => point
    case Some(state) =>
      var d := point.decision;
      var settings := WithKey(point.settings, PairOf(d));
      Point(settings, decide(RuleOf(settings), settings.policy,
                                state.(health := Merged(state.health, d.health, d.selected.id)), round.now))
  }

  /** What one rejection leads to. */
  ghost predicate IsNext(subs: seq<Subscription>, point: Point, round: Attempt, next: Point, tried: seq<Pair>) {
    && IsOnCourse(subs, next, tried + [PairOf(point.decision)])
    && next.settings == WithKey(point.settings, PairOf(point.decision))
    && (!next.decision.healthy ==> NoneHealthy(subs, RuleOf(next.settings), next.decision.health, round.now))
  }

  lemma NextIsOnCourse(decide: Decider, subs: seq<Subscription>, point: Point, round: Attempt, tried: seq<Pair>)
    requires DecidesWell(decide, subs) && AllAddressable(subs) && round.reloaded.Some?
    requires IsKeyed(round.reloaded.value.health)
    requires point.decision.healthy && IsOnCourse(subs, point, tried)
    ensures IsNext(subs, point, round, Next(decide, point, round), tried)
  {
    var pair, next := PairOf(point.decision), Next(decide, point, round);
    assert Addressable(pair.0, pair.1) by {
      var n :| n in point.decision.owner.nodes && n.id == point.decision.selected.id;
    }
    ExcludingOneMore(tried, point.settings, pair);
    DistinctGrows(tried, pair);
    var state := round.reloaded.value;
    var merged := state.(health := Merged(state.health, point.decision.health, pair.1));
    assert IsGoodDecision(decide(RuleOf(next.settings), next.settings.policy, merged, round.now), subs,
                          RuleOf(next.settings), round.now);
    if next.decision.healthy {
      OfferedIsNotExcluded(next.settings, next.decision.owner, next.decision.selected.id);
      NotExcludedIsNew(tried + [pair], next.settings.excluded, PairOf(next.decision));
    }
  }

  // ----- The loop -----

  /** From the start of one round to the start of the next. */
  type Stepper = (Point, Attempt) -> Point

  ghost predicate KeepsCourse(step: Stepper, subs: seq<Subscription>) {
    forall point: Point, round: Attempt, tried |
      point.decision.healthy && IsOnCourse(subs, point, tried) && Met(round).Rejected? &&
      IsKeyed(round.reloaded.value.health) ::
      IsNext(subs, point, round, step(point, round), tried)
  }

  function StepperFor(scope: Scope): Stepper {
    (point, round) => Next(DeciderFor(scope), point, round)
  }

  lemma StepperKeepsCourse(scope: Scope)
    requires AllAddressable(Subs(scope))
    ensures KeepsCourse(StepperFor(scope), Subs(scope))
  {
    AddressableIsNamed(Subs(scope));
    DeciderDecidesWell(scope);
    forall point: Point, round: Attempt, tried |
      point.decision.healthy && IsOnCourse(Subs(scope), point, tried) && Met(round).Rejected? &&
      IsKeyed(round.reloaded.value.health)
      ensures IsNext(Subs(scope), point, round, StepperFor(scope)(point, round), tried)
    {
      NextIsOnCourse(DeciderFor(scope), Subs(scope), point, round, tried);
    }
  }

  /** How the loop was left, or with Rejected or Untried, that it may go on. */
  datatype Exit = Cancelled | Stopped | ReloadFailed | Accepted | Rejected | Untried

  /** How applying the candidate of a round ends. */
  function Met(round: Attempt): Exit {
    if round.applied.Success? then Accepted
    else if round.cancelledAfter then Cancelled
    else if round.applied.Broken? then Stopped
    else if round.reloaded.None? then ReloadFailed
    else Rejected
  }

  predicate AllRejected(attempts: seq<Attempt>, k: nat)
    requires k <= |attempts|
  {
    k == 0 || (AllRejected(attempts, k - 1) && Met(attempts[k - 1]).Rejected?)
  }

  /** Where round k starts, when the candidates of all rounds before it were rejected. */
  function Course(step: Stepper, start: Point, attempts: seq<Attempt>, k: nat): Point
    requires k <= |attempts|
  {
    if k == 0 then start else step(Course(step, start, attempts, k - 1), attempts[k - 1])
  }

  function Tried(step: Stepper, start: Point, attempts: seq<Attempt>, k: nat): (pairs: seq<Pair>)
    requires k <= |attempts|
    ensures |pairs| == k
  {
    if k == 0 then []
    else Tried(step, start, attempts, k - 1) + [PairOf(Course(step, start, attempts, k - 1).decision)]
  }

  predicate AllTriable(step: Stepper, start: Point, attempts: seq<Attempt>, k: nat)
    requires k <= |attempts|
  {
    k == 0 || (AllTriable(step, start, attempts, k - 1) && Course(step, start, attempts, k - 1).decision.healthy)
  }

  ghost predicate AreKeyed(attempts: seq<Attempt>) {
    forall a :: a in attempts && a.reloaded.Some? ==> IsKeyed(a.reloaded.value.health)
  }

  lemma {:induction false} CourseHolds(step: Stepper, subs: seq<Subscription>, start: Point, attempts: seq<Attempt>,
                                       k: nat)
    requires k <= |attempts| && AllRejected(attempts, k) && AllTriable(step, start, attempts, k)
    requires KeepsCourse(step, subs) && AreKeyed(attempts) && IsOnCourse(subs, start, [])
    ensures var point := Course(step, start, attempts, k);
            && IsOnCourse(subs, point, Tried(step, start, attempts, k))
            && point.settings == WithKeys(start.settings, Tried(step, start, attempts, k))
            && (k > 0 && !point.decision.healthy ==>
                  NoneHealthy(subs, RuleOf(point.settings), point.decision.health, attempts[k - 1].now))
  {
    if k > 0 {
      CourseHolds(step, subs, start, attempts, k - 1);
      var before, tried := Course(step, start, attempts, k - 1), Tried(step, start, attempts, k - 1);
      assert IsNext(subs, before, attempts[k - 1], Course(step, start, attempts, k), tried);
      var pair := PairOf(before.decision);
      assert (tried + [pair])[..k - 1] == tried;
    }
  }

  lemma CountOneMore(subs: seq<Subscription>, rule: Rule, now: int, i: nat)
    requires i < |subs|
    ensures CountSelectable(subs[..i + 1], rule, now) ==
              CountSelectable(subs[..i], rule, now) + |Selectable(subs[i], rule, now)|
  {
    assert subs[..i + 1][..i] == subs[..i];
  }

  /** One attempt per selectable node, three at most. */
  method Limit(scope: Scope, rule: Rule, now: int) returns (limit: nat)
    ensures limit == Min(MAX_ATTEMPTS, CountSelectable(Subs(scope), rule, now))
  {
    var subs := Subs(scope);
    var total := 0;
    for i := 0 to |subs|
      invariant total == CountSelectable(subs[..i], rule, now)
    {
      CountOneMore(subs, rule, now, i);
      total := total + |Selectable(subs[i], rule, now)|;
    }
    assert subs[..|subs|] == subs;
    limit := Min(MAX_ATTEMPTS, total);
  }

  function WithKeys(settings: Settings, pairs: seq<Pair>): Settings {
    if pairs == [] then settings else WithKey(WithKeys(settings, pairs[..|pairs| - 1]), pairs[|pairs| - 1])
  }

  /** Exactly the nodes excluded from the start and those whose key was tried are excluded after the attempts. */
  lemma {:induction false} WithKeysExcludes(settings: Settings, pairs: seq<Pair>, sub: string, node: string)
    requires Addressable(sub, node) && forall p :: p in pairs ==> Addressable(p.0, p.1)
    ensures IsExcluded(WithKeys(settings, pairs).excluded, sub, node) <==>
              IsExcluded(settings.excluded, sub, node) || exists p :: p in pairs && Key(p.0, p.1) == Key(sub, node)
  {
    if pairs != [] {
      var front, last := pairs[..|pairs| - 1], pairs[|pairs| - 1];
      assert pairs == front + [last];
      WithKeysExcludes(settings, front, sub, node);
      WithKeyExcludes(WithKeys(settings, front), last, sub, node);
    }
  }

  lemma WithKeyExcludes(settings: Settings, pair: Pair, sub: string, node: string)
    requires Addressable(sub, node) && Addressable(pair.0, pair.1)
    ensures IsExcluded(WithKey(settings, pair).excluded, sub, node) <==>
              IsExcluded(settings.excluded, sub, node) || Key(pair.0, pair.1) == Key(sub, node)
  {
    var k, extra := Key(sub, node), Key(pair.0, pair.1);
    if IsExcluded(settings.excluded, sub, node) || extra == k {
      ExclusionsGrow(settings.excluded, extra, sub, node);
    } else if IsExcluded(WithKey(settings, pair).excluded, sub, node) {
      ExcludedBySource(settings.excluded + {extra}, sub, node);
    }
  }

  lemma TriedAreDistinct(step: Stepper, subs: seq<Subscription>, start: Point, attempts: seq<Attempt>, n: nat)
    requires n <= |attempts| && AllTriable(step, start, attempts, n) && (n > 0 ==> AllRejected(attempts, n - 1))
    requires KeepsCourse(step, subs) && AreKeyed(attempts) && IsOnCourse(subs, start, [])
    ensures Distinct(Tried(step, start, attempts, n))
  {
    if n > 0 {
      CourseHolds(step, subs, start, attempts, n - 1);
      DistinctGrows(Tried(step, start, attempts, n - 1), PairOf(Course(step, start, attempts, n - 1).decision));
    }
  }

  /** How the loop ends from round k on, and how many candidates it has applied by then. */
  function Outcome(step: Stepper, start: Point, attempts: seq<Attempt>, k: nat, limit: nat): (Exit, nat)
    requires k <= limit <= |attempts|
    decreases limit - k
  {
    if k == limit then (Resumable(k), k)
    else if attempts[k].cancelledBefore then (Cancelled, k)
    else if !Course(step, start, attempts, k).decision.healthy then (Resumable(k), k)
    else if Met(attempts[k]).Rejected? then Outcome(step, start, attempts, k + 1, limit)
    else (Met(attempts[k]), k + 1)
  }

  function Resumable(k: nat): Exit {
    if k == 0 then Untried else Rejected
  }

  lemma {:induction false} OutcomeHolds(step: Stepper, start: Point, attempts: seq<Attempt>, k: nat, limit: nat)
    requires k <= limit <= |attempts| && AllRejected(attempts, k) && AllTriable(step, start, attempts, k)
    ensures var (exit, n) := Outcome(step, start, attempts, k, limit);
            && k <= n <= limit && AllTriable(step, start, attempts, n)
            && (exit.Rejected? || exit.Untried? ==> AllRejected(attempts, n) && exit == Resumable(n))
            && (n > 0 ==> AllRejected(attempts, n - 1))
            && (exit.Accepted? || exit.Stopped? || exit.ReloadFailed? ==> n > 0 && Met(attempts[n - 1]) == exit)
    decreases limit - k
  {
    if k < limit && !attempts[k].cancelledBefore && Course(step, start, attempts, k).decision.healthy &&
       Met(attempts[k]).Rejected? {
      OutcomeHolds(step, start, attempts, k + 1, limit);
    }
  }

  /** `point` is where the last round started that applied a candidate, or where the next one would have. */
  method TryCandidates(step: Stepper, start: Point, attempts: seq<Attempt>, limit: nat)
    returns (exit: Exit, tried: seq<Pair>, point: Point)
    requires limit <= |attempts|
    ensures Outcome(step, start, attempts, 0, limit) == (exit, |tried|) && |tried| <= |attempts|
    ensures tried == Tried(step, start, attempts, |tried|)
    ensures exit.Rejected? || exit.Untried? ==> point == Course(step, start, attempts, |tried|)
    ensures exit.Accepted? ==> tried != [] && point == Course(step, start, attempts, |tried| - 1)
  {
    tried, point := [], start;
    var attempt := 0;
    while attempt < limit
      invariant 0 <= attempt <= limit && |tried| == attempt
      invariant Outcome(step, start, attempts, 0, limit) == Outcome(step, start, attempts, attempt, limit)
      invariant point == Course(step, start, attempts, attempt)
      invariant tried == Tried(step, start, attempts, attempt)
    {
      var round := attempts[attempt];
      if round.cancelledBefore {
        return Cancelled, tried, point;
      }
      var decision := point.decision;
      if !decision.healthy {
        break;
      }
      tried := tried + [PairOf(decision)];
      attempt := attempt + 1;
      exit := Met(round);
      if !exit.Rejected? {
        return;
      }
      point := step(point, round);
    }
    exit := Resumable(attempt);
  }

  /** At most three candidates are tried and no subscription and node twice, even if the evaluation would
      rather keep the active node; only a rejected candidate is followed by another one. */
  ghost predicate IsBounded(prepared: Prepared, step: Stepper, attempts: seq<Attempt>, now: int, tried: seq<Pair>)
    requires |attempts| == MAX_ATTEMPTS
  {
    && |tried| <= 3 && |tried| <= CountSelectable(Subs(prepared.scope), RuleOf(prepared.settings), now)
    && tried == Tried(step, Point(prepared.settings, prepared.decision), attempts, |tried|) && Distinct(tried)
    && (tried != [] ==> AllRejected(attempts, |tried| - 1))
  }

  /** The result is what the attempts lead to, round by round. */
  ghost predicate IsRunOf(prepared: Prepared, step: Stepper, attempts: seq<Attempt>, now: int, exit: Exit,
                          tried: seq<Pair>, point: Point)
    requires |attempts| == MAX_ATTEMPTS
  {
    var start := Point(prepared.settings, prepared.decision);
    var limit := Min(MAX_ATTEMPTS, CountSelectable(Subs(prepared.scope), RuleOf(prepared.settings), now));
    && Outcome(step, start, attempts, 0, limit) == (exit, |tried|)
    && |tried| <= limit
    && (exit.Rejected? || exit.Untried? ==> point == Course(step, start, attempts, |tried|))
    && (exit.Accepted? ==> tried != [] && point == Course(step, start, attempts, |tried| - 1))
  }

  /** How the loop is left. */
  ghost predicate EndsAs(attempts: seq<Attempt>, exit: Exit, tried: seq<Pair>, point: Point)
    requires |tried| <= |attempts|
  {
    var n := |tried|;
    && (exit.Untried? ==> n == 0)
    && (exit.Accepted? ==> n > 0 && attempts[n - 1].applied.Success? && PairOf(point.decision) == tried[n - 1])
    && (exit.Stopped? ==> n > 0 && attempts[n - 1].applied.Broken?)
    && (exit.Rejected? ==> n > 0 && AllRejected(attempts, n))
  }

  /** Without a healthy candidate after rejections, no node left to select is healthy. */
  ghost predicate LeavesNone(prepared: Prepared, attempts: seq<Attempt>, exit: Exit, tried: seq<Pair>, point: Point)
    requires |tried| <= |attempts|
  {
    exit.Rejected? && tried != [] && !point.decision.healthy ==>
      NoneHealthy(Subs(prepared.scope), RuleOf(WithKeys(prepared.settings, tried)), point.decision.health,
                  attempts[|tried| - 1].now)
  }

  lemma OutcomeEnds(step: Stepper, start: Point, attempts: seq<Attempt>, limit: nat, exit: Exit, tried: seq<Pair>,
                    point: Point)
    requires limit <= |attempts|
    requires Outcome(step, start, attempts, 0, limit) == (exit, |tried|) && |tried| <= |attempts|
    requires tried == Tried(step, start, attempts, |tried|)
    requires exit.Accepted? ==> tried != [] && point == Course(step, start, attempts, |tried| - 1)
    ensures EndsAs(attempts, exit, tried, point)
  {
    OutcomeHolds(step, start, attempts, 0, limit);
  }

  lemma RejectionEnds(step: Stepper, prepared: Prepared, attempts: seq<Attempt>, n: nat)
    requires AreKeyed(attempts) && KeepsCourse(step, Subs(prepared.scope))
    requires IsOnCourse(Subs(prepared.scope), Point(prepared.settings, prepared.decision), [])
    requires 0 < n <= |attempts| && AllRejected(attempts, n)
    requires AllTriable(step, Point(prepared.settings, prepared.decision), attempts, n)
    ensures var start := Point(prepared.settings, prepared.decision);
            var d := Course(step, start, attempts, n).decision;
            !d.healthy ==>
              NoneHealthy(Subs(prepared.scope), RuleOf(WithKeys(prepared.settings, Tried(step, start, attempts, n))),
                          d.health, attempts[n - 1].now)
  {
    CourseHolds(step, Subs(prepared.scope), Point(prepared.settings, prepared.decision), attempts, n);
  }

  lemma OutcomeCounts(step: Stepper, start: Point, attempts: seq<Attempt>, limit: nat, n: nat)
    requires limit <= |attempts| && n == Outcome(step, start, attempts, 0, limit).1
    ensures n <= limit && AllTriable(step, start, attempts, n) && (n > 0 ==> AllRejected(attempts, n - 1))
  {
    OutcomeHolds(step, start, attempts, 0, limit);
  }

  lemma OutcomeIsBounded(step: Stepper, prepared: Prepared, attempts: seq<Attempt>, now: int, tried: seq<Pair>)
    requires |attempts| == MAX_ATTEMPTS && AreKeyed(attempts) && KeepsCourse(step, Subs(prepared.scope))
    requires IsOnCourse(Subs(prepared.scope), Point(prepared.settings, prepared.decision), [])
    requires |tried| <= Min(MAX_ATTEMPTS, CountSelectable(Subs(prepared.scope), RuleOf(prepared.settings), now))
    requires AllTriable(step, Point(prepared.settings, prepared.decision), attempts, |tried|)
    requires tried != [] ==> AllRejected(attempts, |tried| - 1)
    requires tried == Tried(step, Point(prepared.settings, prepared.decision), attempts, |tried|)
    ensures IsBounded(prepared, step, attempts, now, tried)
  {
    TriedAreDistinct(step, Subs(prepared.scope), Point(prepared.settings, prepared.decision), attempts, |tried|);
  }

  /** The attempts can only move from one settled decision to the next. */
  ghost predicate IsGuided(prepared: Prepared, step: Stepper, attempts: seq<Attempt>) {
    && AreKeyed(attempts) && KeepsCourse(step, Subs(prepared.scope))
    && IsOnCourse(Subs(prepared.scope), Point(prepared.settings, prepared.decision), [])
  }

  /** The loop has applied n candidates of those it may. */
  ghost predicate Applies(step: Stepper, start: Point, attempts: seq<Attempt>, limit: nat, exit: Exit, n: nat) {
    limit <= |attempts| && n <= limit && Outcome(step, start, attempts, 0, limit) == (exit, n)
  }

  lemma RunIsBounded(step: Stepper, prepared: Prepared, attempts: seq<Attempt>, now: int, limit: nat, exit: Exit,
                     tried: seq<Pair>)
    requires |attempts| == MAX_ATTEMPTS && IsGuided(prepared, step, attempts)
    requires limit == Min(MAX_ATTEMPTS, CountSelectable(Subs(prepared.scope), RuleOf(prepared.settings), now))
    requires Applies(step, Point(prepared.settings, prepared.decision), attempts, limit, exit, |tried|)
    requires tried == Tried(step, Point(prepared.settings, prepared.decision), attempts, |tried|)
    ensures IsBounded(prepared, step, attempts, now, tried)
  {
    OutcomeCounts(step, Point(prepared.settings, prepared.decision), attempts, limit, |tried|);
    OutcomeIsBounded(step, prepared, attempts, now, tried);
  }

  lemma RunLeavesNone(step: Stepper, prepared: Prepared, attempts: seq<Attempt>, limit: nat, exit: Exit,
                      tried: seq<Pair>, point: Point)
    requires IsGuided(prepared, step, attempts)
    requires Applies(step, Point(prepared.settings, prepared.decision), attempts, limit, exit, |tried|)
    requires tried == Tried(step, Point(prepared.settings, prepared.decision), attempts, |tried|)
    requires exit.Rejected? ==> point == Course(step, Point(prepared.settings, prepared.decision), attempts, |tried|)
    ensures LeavesNone(prepared, attempts, exit, tried, point)
  {
    if exit.Rejected? && tried != [] {
      OutcomeHolds(step, Point(prepared.settings, prepared.decision), attempts, 0, limit);
      RejectionEnds(step, prepared, attempts, |tried|);
    }
  }

  method TryPrepared(step: Stepper, prepared: Prepared, attempts: seq<Attempt>, now: int)
    returns (exit: Exit, tried: seq<Pair>, point: Point)
    requires |attempts| == MAX_ATTEMPTS
    ensures IsRunOf(prepared, step, attempts, now, exit, tried, point) && EndsAs(attempts, exit, tried, point)
    ensures IsGuided(prepared, step, attempts) ==>
              IsBounded(prepared, step, attempts, now, tried) && LeavesNone(prepared, attempts, exit, tried, point)
  {
    var limit := Limit(prepared.scope, RuleOf(prepared.settings), now);
    exit, tried, point := TryCandidates(step, Point(prepared.settings, prepared.decision), attempts, limit);
    OutcomeEnds(step, Point(prepared.settings, prepared.decision), attempts, limit, exit, tried, point);
    OutcomeCounts(step, Point(prepared.settings, prepared.decision), attempts, limit, |tried|);
    if IsGuided(prepared, step, attempts) {
      RunIsBounded(step, prepared, attempts, now, limit, exit, tried);
      RunLeavesNone(step, prepared, attempts, limit, exit, tried, point);
    }
  }

  /** What an evaluation of the subscriptions and well-formed stored health give, and that no key of theirs
      is lost in normalisation. */
  ghost predicate IsRegular(prepared: Prepared, attempts: seq<Attempt>) {
    && AreKeyed(attempts) && IsKeyed(prepared.decision.health)
    && (prepared.decision.healthy ==> IsSettled(Subs(prepared.scope), prepared.decision))
    && AllAddressable(Subs(prepared.scope))
  }

  lemma RegularIsGuided(prepared: Prepared, attempts: seq<Attempt>)
    requires IsRegular(prepared, attempts)
    ensures IsGuided(prepared, StepperFor(prepared.scope), attempts)
  {
    StepperKeepsCourse(prepared.scope);
  }

  method CommitPreparedAutoSelection(prepared: Prepared, attempts: seq<Attempt>, now: int)
    returns (ending: Ending, exit: Exit, tried: seq<Pair>, point: Point)
    requires |attempts| == MAX_ATTEMPTS
    ensures IsRunOf(prepared, StepperFor(prepared.scope), attempts, now, exit, tried, point)
    ensures EndsAs(attempts, exit, tried, point)
    ensures IsRegular(prepared, attempts) ==>
              && IsBounded(prepared, StepperFor(prepared.scope), attempts, now, tried)
              && LeavesNone(prepared, attempts, exit, tried, point)
    ensures ending == match exit
                      case Accepted => Connected(point.decision.selected)
                      case Rejected => if point.decision.healthy then GaveUp
                                       else NoneLeft(FallbackState(prepared, point.decision))
                      case Untried => if point.decision.healthy then Connected(NO_NODE)
                                      else NoneLeft(FallbackState(prepared, point.decision))
                      case _ => Quit(exit)
  {
    exit, tried, point := TryPrepared(StepperFor(prepared.scope), prepared, attempts, now);
    if IsRegular(prepared, attempts) { RegularIsGuided(prepared, attempts); }
    if exit.Cancelled? || exit.Stopped? || exit.ReloadFailed? {
      ending := Quit(exit);
    } else if exit.Rejected? && point.decision.healthy {
      ending := GaveUp;
    } else if !exit.Accepted? && !point.decision.healthy {
      ending := NoneLeft(FallbackState(prepared, point.decision));
    } else {
      ending := Connected(if exit.Accepted? then point.decision.selected else NO_NODE);
    }
  }
}
