/** What the automatic mode captures, remembers and writes, entry by entry and field by field. */
module AutoRecords {
  import opened Wrappers
  import opened Text
  import opened ProbeHealth
  import opened AntiFlap
  import opened Subscriptions
  import opened NodeSelection
  import opened AutoSelection
  import opened AutoCommit
  import opened AutoHealth
  import OutboundSwitch

  // ----- Which observation survives -----

  /** The entry of a node that was checked later, and the second one on a tie. */
  function LaterOf(first: Option<NodeHealth>, second: Option<NodeHealth>): Option<NodeHealth> {
    match (first, second)
    case (_, None) => first
    case (None, _) => second
    case (Some(a), Some(b)) =>
      match (a.checkedAt, b.checkedAt)
      case (None, _) => second
      case (Some(_), None) => first
      case (Some(x), Some(y)) => if x > y then first else second
  }

  function EntryOf(health: HealthMap, id: string): Option<NodeHealth> {
    if id in health then Some(health[id]) else None
  }

  /** The cache was filled for the route the state is on. */
  predicate IsForRoute(key: CacheKey, s: AutoState) {
    && key.scope == s.scope && key.subscription == s.subscription && key.node == s.node && key.mode == s.mode
    && key.connected == s.connected && key.zapretTest == s.zapretTest && key.lastSwitchAt == s.lastSwitchAt
    && key.lastTransportSwitchAt == s.lastTransportSwitchAt && key.transport == EffectiveTransport(s)
  }

  /** A captured state is the stored one; with a cache filled for its route it has the cached failure reason,
      and of each node the stored or the cached entry, whichever was checked later. A stored entry under the
      empty ID always stays. */
  lemma CapturedIsLater(w: World, id: string)
    ensures var state := Captured(w).state;
            if w.cache.Some? && IsForRoute(w.cache.value.key, w.persisted)
            then && state == w.persisted.(health := state.health, failureReason := w.cache.value.failureReason)
                 && EntryOf(state.health, id) ==
                      if id == "" && id in w.persisted.health then EntryOf(w.persisted.health, id)
                      else LaterOf(EntryOf(w.persisted.health, id), EntryOf(w.cache.value.health, id))
            else state == w.persisted
  {
  }

  /** After a rejection the next decision is made on the reloaded state. Of the rejected node it has the
      reloaded entry, of every other one the reloaded or the known one, whichever was checked later; a node
      known on one side only is kept. */
  lemma RetryDecidesOn(decide: Decider, point: Point, round: Attempt) returns (health: HealthMap)
    requires round.reloaded.Some?
    ensures var next := Next(decide, point, round);
            && next.settings == point.settings.(excluded := next.settings.excluded)
            && next.decision == decide(RuleOf(next.settings), point.settings.policy,
                                       round.reloaded.value.(health := health), round.now)
    ensures forall id ::
              var reloaded, known := EntryOf(round.reloaded.value.health, id), EntryOf(point.decision.health, id);
              EntryOf(health, id) == if id == point.decision.selected.id && reloaded.Some? then reloaded
                                     else LaterOf(reloaded, known)
  {
    health := Merged(round.reloaded.value.health, point.decision.health, point.decision.selected.id);
  }

  // ----- The cache -----

  /** Only the automatic mode on a subscription, outside a Zapret test, fills the cache. What a pass noted is
      what the next one captures, as long as the store is still on the route. */
  lemma NotedIsCaptured(w: World, s: AutoState, now: int, id: string)
    requires s == w.persisted.(health := s.health, failureReason := s.failureReason) && id != ""
    ensures var noted := w.(cache := Remembered(w.cache, s, false, now));
            var state := Captured(noted).state;
            if s.mode == OutboundSwitch.Auto && s.subscription != "" && !s.zapretTest
            then && state == w.persisted.(health := state.health, failureReason := s.failureReason)
                 && EntryOf(state.health, id) == LaterOf(EntryOf(w.persisted.health, id), EntryOf(s.health, id))
            else noted.cache == None && state == w.persisted
  {
    CapturedIsLater(w.(cache := Remembered(w.cache, s, false, now)), id);
  }

  /** After a save, and however much was only noted since, the next save is asked for when the failure reason
      changes or five minutes have passed. */
  lemma SavesEveryFiveMinutes(w: World, s: AutoState, noted: AutoState, next: AutoState, saved: int, later: int,
                              now: int)
    requires s.mode == OutboundSwitch.Auto && s.subscription != "" && !s.zapretTest
    requires noted == s.(health := noted.health, failureReason := noted.failureReason, trackerId := noted.trackerId,
                         trackerWins := noted.trackerWins)
    ensures var first := Save(w, s, true, saved);
            var second := first.(cache := Remembered(first.cache, noted, false, later));
            && (ShouldPersist(first.cache, first.persisted, next, now) <==>
                  s.failureReason != next.failureReason || now - saved >= 300 * 1_000_000_000)
            && (ShouldPersist(second.cache, second.persisted, next, now) <==>
                  s.failureReason != next.failureReason || now - saved >= 300 * 1_000_000_000)
  {
  }

  // ----- The states a pass writes -----

  /** An applied node is recorded as connected over the proxy, the tracker reset and the switch dated. */
  lemma RecordedFields(found: AutoState, before: AutoState, plan: Plan, subscription: string, now: int)
    ensures var d := plan.decision;
            Recorded(found, before, plan, subscription, now) ==
              AutoState(OutboundSwitch.Auto, true, subscription, d.selected.id, OutboundSwitch.Proxy, found.scope,
                        d.health, if d.switch then now else found.lastSwitchAt,
                        if EffectiveTransport(before) == OutboundSwitch.Proxy then found.lastTransportSwitchAt else now,
                        "", 0, found.failureReason, found.zapretTest, found.managed)
  {
  }

  /** A route that stays keeps everything but health, tracker and failure reason. */
  lemma KeptFields(s: AutoState, plan: Plan)
    ensures var d := plan.decision;
            Kept(s, plan) ==
              AutoState(s.mode, s.connected, s.subscription, s.node, s.transport, if plan.all then "all" else s.scope,
                        d.health, s.lastSwitchAt, s.lastTransportSwitchAt, d.trackerId, d.trackerWins, None,
                        s.zapretTest, s.managed)
  {
  }

  /** A route given up is disconnected; what it lacks of subscription and node comes from the decision. */
  lemma GivenUpFields(s: AutoState, plan: Plan)
    ensures var d := plan.decision;
            GivenUp(s, plan) ==
              AutoState(OutboundSwitch.Auto, false, if s.subscription == "" then d.fallback.id else s.subscription,
                        if s.node == "" then d.current else s.node, s.transport, s.scope, d.health, s.lastSwitchAt,
                        s.lastTransportSwitchAt, s.trackerId, s.trackerWins, Some(d.reason), s.zapretTest, s.managed)
  {
  }

  /** A pass on the Zapret transport stays on it, for the owner of the choice or, without one, the fallback. */
  lemma ZapretFields(s: AutoState, plan: Plan)
    ensures var d := plan.decision;
            ZapretState(s, plan) ==
              AutoState(OutboundSwitch.Auto, true,
                        if d.owner.id != "" || !plan.all then d.owner.id else d.fallback.id, s.node,
                        OutboundSwitch.Zapret, s.scope, d.health, s.lastSwitchAt, s.lastTransportSwitchAt, s.trackerId,
                        s.trackerWins, Some(if s.failureReason.Some? then s.failureReason.value else d.reason),
                        s.zapretTest, s.managed)
  {
  }

  /** The fallback of a commit without a healthy candidate. */
  lemma FallbackFields(prepared: Prepared, d: Decision)
    ensures var s, all := prepared.state, prepared.scope.All?;
            FallbackState(prepared, d) ==
              AutoState(OutboundSwitch.Auto, s.connected,
                        if !all then prepared.scope.sub.id else if d.fallback.id == "" then s.subscription
                        else d.fallback.id, s.node, s.transport, if all then "all" else s.scope, d.health,
                        s.lastSwitchAt, s.lastTransportSwitchAt, s.trackerId, s.trackerWins, Some(d.reason),
                        s.zapretTest, s.managed)
  {
  }

  /** A pass over all subscriptions saves the scope along with the rest, if both saves succeed. */
  lemma ScopeIsSaved(w: World, s: AutoState, plan: Plan, env: Env)
    ensures SaveWithScope(w, s, plan, env).persisted ==
              if !env.saves then w.persisted
              else if plan.all && env.savesScope then Saved(s).(scope := "all") else Saved(s)
  {
  }

  // ----- The choice -----

  /** What an evaluation with a healthy candidate chooses. Disconnected, it reconnects to the candidate. On a
      connected route the tracker counts one win more for the node that won the pass before, and starts at one
      for another; a working node is left for its optimization candidate exactly after the cooldown and with
      the wins demanded. */
  predicate ChoosesWell(d: Decision, state: AutoState, policy: SwitchPolicy, probed: bool, all: bool, now: int) {
    var c, b := Lookup(d.health, d.current), Lookup(d.health, d.candidate.id);
    var won := state.connected && probed && IsOptimizationCandidate(c, b, policy);
    && b.healthy && d.reconnect == !state.connected && (!state.connected ==> d.reason == RecoverDisconnected)
    && d.trackerId == (if won then b.id else "")
    && d.trackerWins == (if !won then 0 else if state.trackerId == b.id then state.trackerWins + 1 else 1)
    && (state.connected && c.id != "" && c.healthy && c.failureStreak < policy.failureThreshold
        && IsOptimizationCandidate(c, b, policy) && b.id != "" ==>
          (d.reason == Judged(QualityImproved) <==>
           now - state.lastSwitchAt >= policy.cooldown
           && (policy.requiredWins <= 0 || d.trackerWins >= policy.requiredWins)))
    && (!state.connected || d.reason == Judged(QualityImproved) ==> d.selected == d.candidate)
    && (d.switch <==> d.selected.id != d.current || (all && d.owner.id != state.subscription))
  }

  lemma ChoiceChoosesWell(best: Node, owner: Subscription, currentSub: Subscription, fallback: Subscription,
                          anywhere: bool, health: HealthMap, state: AutoState, policy: SwitchPolicy, current: string,
                          probed: bool, now: int)
    ensures var d := Choose(best, owner, currentSub, fallback, anywhere, health, state, policy, current, probed, now);
            && d.health == health && d.candidate == best && d.current == current
            && (d.healthy <==> Lookup(health, best.id).healthy)
            && (d.healthy ==> ChoosesWell(d, state, policy, probed, anywhere, now))
  {
    var c, b := Lookup(health, current), Lookup(health, best.id);
    var wins := OptimizationWins(state, c, b, policy, probed).1;
    if IsOptimizationCandidate(c, b, policy) && c.id != "" && b.id != "" && c.failureStreak < policy.failureThreshold {
      SwitchExactly(c, b, now, state.lastSwitchAt, policy, wins);
    }
  }

  /** Without a reason to leave it, a connected route keeps its node as the subscription lists it; otherwise the
      best node is taken. */
  lemma KeepsUnlessLeaving(best: Node, owner: Subscription, currentSub: Subscription, fallback: Subscription,
                           anywhere: bool, health: HealthMap, state: AutoState, policy: SwitchPolicy, current: string,
                           probed: bool, now: int)
    requires state.connected && Lookup(health, best.id).healthy
    ensures var d := Choose(best, owner, currentSub, fallback, anywhere, health, state, policy, current, probed, now);
            var leaves := d.reason in {Judged(NoCurrentNode), Judged(CurrentUnhealthy), Judged(QualityImproved)};
            if !leaves && current != "" && exists n :: n in currentSub.nodes && n.id == current
            then d.selected in currentSub.nodes && d.selected.id == current && d.owner == currentSub
            else d.selected == best && d.owner == owner
  {
  }

  /** A node that fails, or no node at all, is left at once for a healthy one. */
  lemma FailingIsLeftAtOnce(current: NodeHealth, candidate: NodeHealth, now: int, lastSwitch: int,
                            policy: SwitchPolicy, wins: int)
    requires candidate.id != "" && candidate.healthy
    ensures ShouldSwitchWithWins(current, candidate, now, lastSwitch, policy, wins) == NoCurrentNode <==>
              current.id == ""
    ensures ShouldSwitchWithWins(current, candidate, now, lastSwitch, policy, wins) == CurrentUnhealthy <==>
              current.id != "" && (!current.healthy || current.failureStreak >= policy.failureThreshold)
  {
  }

  /** A subscription offers its nodes that are neither excluded nor hidden, up to the moment it expires. */
  lemma OffersUntilExpiry(sub: Subscription, settings: Settings, now: int, n: Node)
    ensures n in Selectable(sub, RuleOf(settings), now) <==>
              && n in sub.nodes && n !in settings.hidden && !IsExcluded(settings.excluded, sub.id, n.id)
              && (sub.expiresAt.Some? ==> now < sub.expiresAt.value)
  {
  }

  lemma EvaluateChoosesWell(sub: Subscription, rule: Rule, policy: SwitchPolicy, state: AutoState,
                            probing: Option<Probing>, now: int)
    ensures var d := Evaluate(sub, rule, policy, state, probing, now);
            d.healthy ==> ChoosesWell(d, state, policy, probing.Some?, false, now)
  {
    var nodes := Selectable(sub, rule, now);
    if nodes != [] {
      var health := Evaluate(sub, rule, policy, state, probing, now).health;
      ChoiceChoosesWell(Best(nodes, health), sub, sub, sub, false, health, state, policy, CurrentIn(sub, state),
                        probing.Some?, now);
    }
  }

  lemma EvaluateAllChoosesWell(subs: seq<Subscription>, rule: Rule, policy: SwitchPolicy, state: AutoState,
                               probing: Option<Probing>, now: int)
    ensures var d := EvaluateAll(subs, rule, policy, state, probing, now);
            d.healthy ==> ChoosesWell(d, state, policy, probing.Some?, true, now)
  {
    var current, start := CurrentAnywhere(state), HealthFor(state.health, subs);
    var pool := Gathered(subs, rule, policy, state, current, now, start);
    if pool.nodes != [] {
      NodesAreOwned(subs, rule, policy, state, current, now, start);
      var health := Measured(pool.health, state, current, probing, policy.failureThreshold, now);
      var best := Best(pool.nodes, health);
      ChoiceChoosesWell(best, pool.owners[best.id], pool.currentSub, pool.fallback, true, health, state, policy,
                        current,
                        probing.Some?, now);
    }
  }

  /** Every pass that finds a healthy candidate chooses so. */
  lemma PassesChooseWell(snap: Snapshot, env: Env)
    ensures var plan := Planned(snap, env);
            plan.Some? && plan.value.decision.healthy ==>
              ChoosesWell(plan.value.decision, snap.state, snap.settings.policy, true, plan.value.all, env.evaluatedAt)
  {
    var rule, policy := RuleOf(snap.settings), snap.settings.policy;
    EvaluateAllChoosesWell(snap.subs, rule, policy, snap.state, Some(env.probing), env.evaluatedAt);
    var found := FindSubscription(snap.subs, snap.state.subscription);
    if found.Some? { EvaluateChoosesWell(found.value, rule, policy, snap.state, Some(env.probing), env.evaluatedAt); }
  }

  /** A pass looks at all subscriptions if the scope is all, if its subscription is named so or not at all, or
      if that has expired; otherwise at the subscription alone, and without it there is no plan. */
  lemma PassScope(snap: Snapshot, env: Env)
    ensures var plan, state := Planned(snap, env), snap.state;
            var all := || state.scope == "all" || IsBlank(state.subscription) || TrimLower(state.subscription) == "all"
                       || exists sub :: sub in snap.subs && sub.id == state.subscription && sub.expiresAt.Some?
                            && sub.expiresAt.value <= env.evaluatedAt;
            && (plan.Some? <==> all || exists sub :: sub in snap.subs && sub.id == state.subscription)
            && (plan.Some? ==> plan.value.all == all)
  {
    FindSubscriptionFinds(snap.subs, snap.state.subscription);
    assert ActiveExpired(snap, env.evaluatedAt) <==> exists sub ::
        sub in snap.subs && sub.id == snap.state.subscription && sub.expiresAt.Some?
        && sub.expiresAt.value <= env.evaluatedAt;
  }

  lemma {:induction false} FindSubscriptionFinds(subs: seq<Subscription>, id: string)
    ensures FindSubscription(subs, id).Some? <==> exists sub :: sub in subs && sub.id == id
  {
    if subs != [] {
      FindSubscriptionFinds(subs[1..], id);
      assert forall s :: s in subs <==> s == subs[0] || s in subs[1..];
    }
  }

  /** Outside the automatic mode, without a subscription, and during a Zapret test a pass changes nothing. */
  lemma PassIsIdle(planner: Planner, snap: Snapshot, w: World, env: Env)
    requires snap.state.mode != OutboundSwitch.Auto || snap.state.subscription == "" || snap.state.zapretTest
    ensures Finished(planner, snap, w, env) == w
  {
  }

  /** The evaluation of a subscription starts from the node of the state if that is on the subscription and the
      route is a proxy one, and from none otherwise. */
  lemma EvaluationStartsFrom(sub: Subscription, rule: Rule, policy: SwitchPolicy, state: AutoState,
                             probing: Option<Probing>, now: int)
    ensures Evaluate(sub, rule, policy, state, probing, now).current ==
              if state.subscription == sub.id && EffectiveTransport(state) == OutboundSwitch.Proxy then state.node
              else ""
  {
  }

  lemma AllStartFrom(subs: seq<Subscription>, rule: Rule, policy: SwitchPolicy, state: AutoState,
                     probing: Option<Probing>, now: int)
    ensures EvaluateAll(subs, rule, policy, state, probing, now).current ==
              if EffectiveTransport(state) == OutboundSwitch.Proxy then state.node else ""
  {
  }

  /** So does a pass, which looks at the subscription the state is on, or at all. */
  lemma PassStartsFrom(snap: Snapshot, env: Env)
    ensures var plan := Planned(snap, env);
            plan.Some? ==>
              plan.value.decision.current ==
                if EffectiveTransport(snap.state) == OutboundSwitch.Proxy then snap.state.node else ""
  {
    var rule, policy, found := RuleOf(snap.settings), snap.settings.policy,
      FindSubscription(snap.subs, snap.state.subscription);
    AllStartFrom(snap.subs, rule, policy, snap.state, Some(env.probing), env.evaluatedAt);
    if found.Some? {
      FoundHasId(snap.subs, snap.state.subscription);
      EvaluationStartsFrom(found.value, rule, policy, snap.state, Some(env.probing), env.evaluatedAt);
    }
  }

  lemma {:induction false} FoundHasId(subs: seq<Subscription>, id: string)
    requires FindSubscription(subs, id).Some?
    ensures FindSubscription(subs, id).value.id == id
  {
    if subs[0].id != id { FoundHasId(subs[1..], id); }
  }

  /** A decision that finds no healthy candidate asks for nothing, and tells whether there was a candidate. */
  predicate DecidesNothing(d: Decision) {
    && !d.switch && !d.reconnect && d.selected == NO_NODE && d.trackerId == "" && d.trackerWins == 0
    && d.reason in {AllExcluded, NoneHealthy} && (d.reason == AllExcluded ==> d.candidate == NO_NODE)
  }

  lemma UndecidedOne(sub: Subscription, rule: Rule, policy: SwitchPolicy, state: AutoState, probing: Option<Probing>,
                     now: int)
    ensures var d := Evaluate(sub, rule, policy, state, probing, now); d.healthy || DecidesNothing(d)
  {
  }

  lemma UndecidedAmongAll(subs: seq<Subscription>, rule: Rule, policy: SwitchPolicy, state: AutoState,
                          probing: Option<Probing>, now: int)
    ensures var d := EvaluateAll(subs, rule, policy, state, probing, now); d.healthy || DecidesNothing(d)
  {
  }

  lemma UndecidedPassDecidesNothing(snap: Snapshot, env: Env)
    ensures var plan := Planned(snap, env);
            plan.Some? ==> plan.value.decision.healthy || DecidesNothing(plan.value.decision)
  {
    var rule, policy := RuleOf(snap.settings), snap.settings.policy;
    var found := FindSubscription(snap.subs, snap.state.subscription);
    UndecidedAmongAll(snap.subs, rule, policy, snap.state, Some(env.probing), env.evaluatedAt);
    if found.Some? { UndecidedOne(found.value, rule, policy, snap.state, Some(env.probing), env.evaluatedAt); }
  }

  // ----- What an evaluation does to the health of other nodes -----

  lemma {:induction false} ProbedKeepsOthers(health: HealthMap, results: seq<(string, Probe)>, threshold: int,
                                             id: string)
    requires forall r :: r in results ==> r.0 != id
    ensures EntryOf(Probed(health, results, threshold), id) == EntryOf(health, id)
  {
    if results != [] {
      assert results[|results| - 1] in results;
      ProbedKeepsOthers(health, results[..|results| - 1], threshold, id);
    }
  }

  lemma {:induction false} GatheredKeepsOthers(subs: seq<Subscription>, rule: Rule, policy: SwitchPolicy,
                                               state: AutoState, current: string, now: int, health: HealthMap,
                                               id: string)
    requires id != current
    ensures EntryOf(Gathered(subs, rule, policy, state, current, now, health).health, id) == EntryOf(health, id)
  {
    if subs != [] {
      GatheredKeepsOthers(subs[..|subs| - 1], rule, policy, state, current, now, health, id);
    }
  }

  /** An evaluation of all subscriptions drops the entries of nodes that none of them has; it changes no other but
      those of the current node and of the probed ones. */
  lemma EvaluateAllKeepsOthers(subs: seq<Subscription>, rule: Rule, policy: SwitchPolicy, state: AutoState,
                               probing: Option<Probing>, now: int, id: string)
    requires id != state.node && id != ""
    requires probing.Some? ==> forall r :: r in probing.value.results ==> r.0 != id
    ensures EntryOf(EvaluateAll(subs, rule, policy, state, probing, now).health, id) ==
              if exists sub, n :: sub in subs && n in sub.nodes && n.id == id then EntryOf(state.health, id) else None
  {
    var current, start := CurrentAnywhere(state), HealthFor(state.health, subs);
    var pool := Gathered(subs, rule, policy, state, current, now, start);
    GatheredKeepsOthers(subs, rule, policy, state, current, now, start, id);
    if probing.Some? { ProbedKeepsOthers(pool.health, probing.value.results, policy.failureThreshold, id); }
  }
}
