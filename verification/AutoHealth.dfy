/** The periodic health check of the automatic mode. Probing runs without the store lock between a capture
    and a commit that both hold it, so a pass commits only what is still true. Health observations that
    need not reach the disk every time wait in a cache. */
module AutoHealth {
  import opened Wrappers
  import opened Text
  import opened ProbeHealth
  import opened AntiFlap
  import opened Subscriptions
  import opened NodeSelection
  import opened AutoSelection
  import opened AutoCommit
  import OutboundSwitch

  // ----- The store and the cache -----

  const PERSIST_INTERVAL := 300 * SECOND

  datatype CacheKey = CacheKey(
    scope: string,
    subscription: string,
    node: string,
    mode: SelectionMode,
    connected: bool,
    transport: Transport,
    zapretTest: bool,
    lastSwitchAt: int,
    lastTransportSwitchAt: int)

  datatype Cache = Cache(key: CacheKey, health: HealthMap, failureReason: Option<Reason>, lastPersistAt: Option<int>)

  datatype World = World(subs: seq<Subscription>, settings: Settings, persisted: AutoState, cache: Option<Cache>)

  datatype Snapshot = Snapshot(subs: seq<Subscription>, settings: Settings, persisted: AutoState, state: AutoState)

  function KeyOf(s: AutoState): CacheKey {
    CacheKey(s.scope, s.subscription, s.node, s.mode, s.connected, EffectiveTransport(s), s.zapretTest, s.lastSwitchAt,
             s.lastTransportSwitchAt)
  }

  predicate Matches(cache: Option<Cache>, s: AutoState) {
    cache.Some? && cache.value.key == KeyOf(s)
  }

  function WithCached(cache: Option<Cache>, s: AutoState): AutoState {
    if Matches(cache, s)
    then s.(health := Merged(s.health, cache.value.health, ""), failureReason := cache.value.failureReason)
    else s
  }

  function Remembered(cache: Option<Cache>, s: AutoState, persisted: bool, now: int): Option<Cache> {
    if s.mode != OutboundSwitch.Auto || s.subscription == "" || s.zapretTest then None
    else Some(Cache(KeyOf(s), s.health, s.failureReason,
                    if persisted then Some(now) else if cache.Some? then cache.value.lastPersistAt else None))
  }

  predicate ShouldPersist(cache: Option<Cache>, persisted: AutoState, next: AutoState, now: int) {
    || !Matches(cache, persisted)
    || persisted.failureReason != next.failureReason
    || cache.value.lastPersistAt.None?
    || now - cache.value.lastPersistAt.value >= PERSIST_INTERVAL
  }

  function Captured(w: World): Snapshot {
    Snapshot(w.subs, w.settings, w.persisted, WithCached(w.cache, w.persisted))
  }

  /** What the commit compares: the stored state counts only with the cached health merged in. */
  predicate IsCurrent(snap: Snapshot, w: World) {
    var now := Captured(w);
    now.subs == snap.subs && now.settings == snap.settings && now.state == snap.state
  }

  // ----- One pass -----

  /** What a pass meets: measurements, clock readings, and how the calls it makes turn out. `applied` is the
      state found after the node was applied, `marked` the one after the connection was marked failed;
      `left` is what starting the Zapret fallback or a failed apply call leaves behind. `failsBack` tells
      whether the Zapret transport may be left for the candidate. */
  datatype Env = Env(
    probing: Probing,
    evaluatedAt: int,
    committedAt: int,
    failsBack: bool,
    applied: Option<AutoState>,
    marked: Option<AutoState>,
    left: World,
    saves: bool,
    savesScope: bool)

  datatype Plan = Plan(all: bool, decision: Decision)

  /** Evaluating a snapshot; an unknown subscription is an error. */
  type Planner = (Snapshot, Env) -> Option<Plan>

  predicate IsGlobal(scope: string) {
    IsBlank(scope) || TrimLower(scope) == "all"
  }

  predicate ActiveExpired(snap: Snapshot, now: int) {
    exists sub :: sub in snap.subs && sub.id == snap.state.subscription && IsExpired(sub, now)
  }

  function FindSubscription(subs: seq<Subscription>, id: string): Option<Subscription> {
    if subs == [] then None
    else if subs[0].id == id then Some(subs[0])
    else FindSubscription(subs[1..], id)
  }

  function Planned(snap: Snapshot, env: Env): Option<Plan> {
    var rule, policy := RuleOf(snap.settings), snap.settings.policy;
    if snap.state.scope == "all" || ActiveExpired(snap, env.evaluatedAt) || IsGlobal(snap.state.subscription) then
      Some(Plan(true, EvaluateAll(snap.subs, rule, policy, snap.state, Some(env.probing), env.evaluatedAt)))
    else
      match FindSubscription(snap.subs, snap.state.subscription)
      case None => None
      case Some(sub) => Some(Plan(false, Evaluate(sub, rule, policy, snap.state, Some(env.probing), env.evaluatedAt)))
  }

  function Save(w: World, s: AutoState, ok: bool, now: int): World {
    if ok then w.(persisted := Saved(s), cache := Remembered(w.cache, s, true, now)) else w
  }

  /** The scope is saved on its own after the rest, over the state then in the store. */
  function SaveScope(w: World, env: Env): World {
    Save(w, w.persisted.(scope := "all"), env.savesScope, env.committedAt)
  }

  /** A save, after which a pass over all subscriptions saves the scope unless the first save failed. */
  function SaveWithScope(w: World, s: AutoState, plan: Plan, env: Env): World {
    var saved := Save(w, s, env.saves, env.committedAt);
    if plan.all && env.saves then SaveScope(saved, env) else saved
  }

  function Scoped(s: AutoState, all: bool): AutoState {
    if all then s.(scope := "all") else s
  }

  /** The state after a node of the subscription was applied for a decision. */
  function Recorded(found: AutoState, before: AutoState, plan: Plan, subscription: string, now: int): AutoState {
    var d := plan.decision;
    found.(health := d.health, trackerId := "", trackerWins := 0, mode := OutboundSwitch.Auto, connected := true,
           subscription := subscription, node := d.selected.id, transport := OutboundSwitch.Proxy,
           lastTransportSwitchAt := if EffectiveTransport(before).Proxy? then found.lastTransportSwitchAt else now,
           lastSwitchAt := if d.switch then now else found.lastSwitchAt)
  }

  /** The state of a route that stays as it is. */
  function Kept(s: AutoState, plan: Plan): AutoState {
    var d := plan.decision;
    Scoped(s.(health := d.health, trackerId := d.trackerId, trackerWins := d.trackerWins, failureReason := None),
           plan.all)
  }

  function GivenUp(s: AutoState, plan: Plan): AutoState {
    var d := plan.decision;
    s.(health := d.health, mode := OutboundSwitch.Auto, connected := false, failureReason := Some(d.reason),
       subscription := if s.subscription == "" then d.fallback.id else s.subscription,
       node := if s.node == "" then d.current else s.node)
  }

  /** The subscription a pass on the Zapret transport is about. */
  function ZapretTarget(plan: Plan): string {
    if plan.all && plan.decision.owner.id == "" then plan.decision.fallback.id else plan.decision.owner.id
  }

  /** The state of a pass on the Zapret transport. */
  function ZapretState(s: AutoState, plan: Plan): AutoState {
    var d := plan.decision;
    s.(transport := OutboundSwitch.Zapret, mode := OutboundSwitch.Auto, subscription := ZapretTarget(plan),
       connected := true, health := d.health,
       failureReason := if s.failureReason.None? then Some(d.reason) else s.failureReason)
  }

  /** The state for which the pass asks whether to save it or only to remember it. */
  function Asked(snap: Snapshot, plan: Plan, env: Env): Option<AutoState> {
    var d := plan.decision;
    if EffectiveTransport(snap.state).Zapret? then
      if d.healthy && env.failsBack then None else Some(ZapretState(snap.state, plan))
    else if d.healthy && !d.reconnect && !d.switch then Some(Kept(snap.state, plan))
    else None
  }

  /** What saving the asked state leaves; the Zapret branch saves the scope on its own. */
  function Persisting(w: World, snap: Snapshot, plan: Plan, next: AutoState, env: Env): World {
    if EffectiveTransport(snap.state).Zapret? then SaveWithScope(w, next, plan, env)
    else Save(w, next, env.saves, env.committedAt)
  }

  /** What only remembering it leaves. */
  function Noting(w: World, snap: Snapshot, plan: Plan, next: AutoState, env: Env): World {
    var noted := w.(cache := Remembered(w.cache, next, false, env.committedAt));
    if EffectiveTransport(snap.state).Zapret? && plan.all then SaveScope(noted, env) else noted
  }

  /** A node is applied for the decision and the result recorded. */
  function Applying(w: World, before: AutoState, plan: Plan, subscription: string, env: Env): World {
    if env.applied.None? then env.left
    else SaveWithScope(w, Recorded(env.applied.value, before, plan, subscription, env.committedAt), plan, env)
  }

  /** No healthy candidate on the proxy route. */
  function GivingUp(w: World, snap: Snapshot, plan: Plan, env: Env): World {
    var d := plan.decision;
    if snap.settings.zapret && (plan.all ==> d.fallback.id != "") then env.left
    else if plan.all && d.fallback.id == "" then
      Save(w, snap.state.(health := d.health, connected := false, failureReason := Some(d.reason)), env.saves,
           env.committedAt)
    else if !snap.state.connected then SaveWithScope(w, GivenUp(Scoped(snap.state, plan.all), plan), plan, env)
    else if env.marked.None? then env.left
    else SaveWithScope(w, GivenUp(env.marked.value, plan), plan, env)
  }

  function Committed(w: World, snap: Snapshot, plan: Plan, env: Env): World {
    match Asked(snap, plan, env)
    case Some(next) =>
      if ShouldPersist(w.cache, snap.persisted, next, env.committedAt) then Persisting(w, snap, plan, next, env)
      else Noting(w, snap, plan, next, env)
    case None =>
      if EffectiveTransport(snap.state).Zapret? then
        Applying(w, ZapretState(snap.state, plan), plan, ZapretTarget(plan), env)
      else if !plan.decision.healthy then GivingUp(w, snap, plan, env)
      else Applying(w, snap.state, plan, plan.decision.owner.id, env)
  }

  predicate RunsAutomatically(s: AutoState) {
    !s.zapretTest && s.mode == OutboundSwitch.Auto && s.subscription != ""
  }

  /** The locked end of a pass that started from `snap`. */
  function Finished(planner: Planner, snap: Snapshot, w: World, env: Env): World {
    if !RunsAutomatically(snap.state) then w
    else match planner(snap, env)
      case None => w
      case Some(plan) => if IsCurrent(snap, w) then Committed(w, snap, plan, env) else w
  }

  /** The whole pass in one go. */
  function Atomic(planner: Planner, w: World, env: Env): World {
    Finished(planner, Captured(w), w, env)
  }

  class Service {
    var world: World

    method Capture() returns (snap: Snapshot)
      ensures snap == Captured(world)
    {
      var state := world.persisted;
      if world.cache.Some? && world.cache.value.key == KeyOf(state) {
        state := state.(health := Merged(state.health, world.cache.value.health, ""),
                        failureReason := world.cache.value.failureReason);
      }
      snap := Snapshot(world.subs, world.settings, world.persisted, state);
    }

    method SaveState(s: AutoState, ok: bool, now: int)
      modifies this
      ensures world == Save(old(world), s, ok, now)
    {
      if !ok {
        return;
      }
      world := world.(persisted := Saved(s));
      world := world.(cache := Remembered(world.cache, s, true, now));
    }

    method PersistAutoScope(env: Env)
      modifies this
      ensures world == SaveScope(old(world), env)
    {
      SaveState(world.persisted.(scope := "all"), env.savesScope, env.committedAt);
    }

    method SaveAndScope(s: AutoState, plan: Plan, env: Env)
      modifies this
      ensures world == SaveWithScope(old(world), s, plan, env)
    {
      SaveState(s, env.saves, env.committedAt);
      if plan.all && env.saves {
        PersistAutoScope(env);
      }
    }

    method CommitAutoSelection(before: AutoState, plan: Plan, subscription: string, env: Env)
      modifies this
      ensures world == Applying(old(world), before, plan, subscription, env)
    {
      if env.applied.None? {
        world := env.left;
        return;
      }
      SaveAndScope(Recorded(env.applied.value, before, plan, subscription, env.committedAt), plan, env);
    }

    method HandleZapretDecision(snap: Snapshot, plan: Plan, env: Env)
      requires EffectiveTransport(snap.state).Zapret?
      modifies this
      ensures world == Committed(old(world), snap, plan, env)
    {
      var state := ZapretState(snap.state, plan);
      if plan.decision.healthy && env.failsBack {
        CommitAutoSelection(state, plan, ZapretTarget(plan), env);
        return;
      }
      if ShouldPersist(world.cache, snap.persisted, state, env.committedAt) {
        SaveAndScope(state, plan, env);
        return;
      }
      world := world.(cache := Remembered(world.cache, state, false, env.committedAt));
      if plan.all {
        PersistAutoScope(env);
      }
    }

    method PersistFailure(snap: Snapshot, plan: Plan, env: Env)
      modifies this
      ensures world == GivingUp(old(world), snap, plan, env)
    {
      var d := plan.decision;
      if snap.settings.zapret && (plan.all ==> d.fallback.id != "") {
        world := env.left;
      } else if plan.all && d.fallback.id == "" {
        SaveState(snap.state.(health := d.health, connected := false, failureReason := Some(d.reason)), env.saves,
                  env.committedAt);
      } else if !snap.state.connected {
        SaveAndScope(GivenUp(Scoped(snap.state, plan.all), plan), plan, env);
      } else if env.marked.None? {
        world := env.left;
      } else {
        SaveAndScope(GivenUp(env.marked.value, plan), plan, env);
      }
    }

    method CommitHealthCheck(snap: Snapshot, plan: Plan, env: Env)
      modifies this
      ensures world == Committed(old(world), snap, plan, env)
    {
      var d := plan.decision;
      if EffectiveTransport(snap.state).Zapret? {
        HandleZapretDecision(snap, plan, env);
        return;
      }
      if !d.healthy {
        PersistFailure(snap, plan, env);
        return;
      }
      if !d.reconnect && !d.switch {
        var next := Kept(snap.state, plan);
        if ShouldPersist(world.cache, snap.persisted, next, env.committedAt) {
          SaveState(next, env.saves, env.committedAt);
        } else {
          world := world.(cache := Remembered(world.cache, next, false, env.committedAt));
        }
        return;
      }
      CommitAutoSelection(snap.state, plan, d.owner.id, env);
    }

    /** The part of a pass that follows the capture. */
    method FinishHealthCheck(snap: Snapshot, env: Env)
      modifies this
      ensures world == Finished(Planned, snap, old(world), env)
    {
      if !RunsAutomatically(snap.state) {
        return;
      }
      var plan := Planned(snap, env);
      if plan.None? {
        return;
      }
      var now := Capture();
      if now.subs != snap.subs || now.settings != snap.settings || now.state != snap.state {
        return;
      }
      CommitHealthCheck(snap, plan.value, env);
    }
  }

  // ----- Atomicity -----

  /** The stored failure reasons at capture and at commit, which the comparison does not see, lead to
      different answers to the question whether to save. */
  predicate IsMasked(snap: Snapshot, w: World, next: AutoState, now: int) {
    && Matches(w.cache, w.persisted) && w.cache.value.lastPersistAt.Some?
    && now - w.cache.value.lastPersistAt.value < PERSIST_INTERVAL
    && (snap.persisted.failureReason == next.failureReason) != (w.persisted.failureReason == next.failureReason)
  }

  lemma CurrentKeysAgree(w0: World, w: World)
    requires IsCurrent(Captured(w0), w)
    ensures KeyOf(w0.persisted) == KeyOf(w.persisted)
    ensures !Matches(w0.cache, w0.persisted) && !Matches(w.cache, w.persisted) ==> w0.persisted == w.persisted
  {
    assert KeyOf(WithCached(w0.cache, w0.persisted)) == KeyOf(w0.persisted);
    assert KeyOf(WithCached(w.cache, w.persisted)) == KeyOf(w.persisted);
  }

  /** A plan depends on the merged state, not on the stored one. */
  ghost predicate IgnoresStored(planner: Planner) {
    forall a: Snapshot, b: Snapshot, env | a.subs == b.subs && a.settings == b.settings && a.state == b.state ::
      planner(a, env) == planner(b, env)
  }

  lemma PlannedIgnoresStored()
    ensures IgnoresStored(Planned)
  {
  }

  /** The pass and an uninterrupted one leave different things, and the pass leaves something. If the captured
      reason is the new one the pass only remembers and the other saves; otherwise it is the other way
      round. */
  predicate Diverges(snap: Snapshot, w: World, plan: Plan, next: AutoState, env: Env) {
    var saving, noting := Persisting(w, snap, plan, next, env), Noting(w, snap, plan, next, env);
    && IsMasked(snap, w, next, env.committedAt) && saving != noting
    && w != if snap.persisted.failureReason == next.failureReason then noting else saving
  }

  /** The pass asks whether to save, on the proxy route or on the Zapret transport, and the answer diverges. */
  predicate IsTorn(snap: Snapshot, w: World, plan: Plan, env: Env) {
    && RunsAutomatically(snap.state) && IsCurrent(snap, w)
    && var next := Asked(snap, plan, env); next.Some? && Diverges(snap, w, plan, next.value, env)
  }

  /** For every world at capture, every world at commit, whatever other writers did in between, and every
      outcome of probes and calls: the pass changes nothing, or does what an uninterrupted pass at the commit
      does, exactly unless it is torn. */
  lemma PassIsAtomicUnless(planner: Planner, w0: World, w: World, env: Env)
    requires IgnoresStored(planner)
    ensures var snap, plan := Captured(w0), planner(Captured(w0), env);
            Finished(planner, snap, w, env) == w || Finished(planner, snap, w, env) == Atomic(planner, w, env) <==>
              !(plan.Some? && IsTorn(snap, w, plan.value, env))
  {
    var snap, now := Captured(w0), Captured(w);
    if RunsAutomatically(snap.state) && planner(snap, env).Some? && IsCurrent(snap, w) {
      CurrentKeysAgree(w0, w);
      assert planner(snap, env) == planner(now, env);
      CommitsDiffer(snap, now, w, planner(snap, env).value, env);
    }
  }

  /** Two snapshots that show the same state but for the stored failure reason commit differently exactly
      when one saves and the other remembers. */
  lemma CommitsDiffer(snap: Snapshot, now: Snapshot, w: World, plan: Plan, env: Env)
    requires snap.settings == now.settings && snap.state == now.state && now.persisted == w.persisted
    requires KeyOf(snap.persisted) == KeyOf(w.persisted)
    ensures Committed(w, snap, plan, env) == w || Committed(w, snap, plan, env) == Committed(w, now, plan, env) <==>
              !(Asked(snap, plan, env).Some? && Diverges(snap, w, plan, Asked(snap, plan, env).value, env))
  {
    var next := Asked(snap, plan, env);
    assert next == Asked(now, plan, env);
    if next.Some? {
      assert Persisting(w, snap, plan, next.value, env) == Persisting(w, now, plan, next.value, env);
      assert Noting(w, snap, plan, next.value, env) == Noting(w, now, plan, next.value, env);
    }
  }

  /** The same of the program's own evaluation. */
  lemma HealthCheckIsAtomicUnless(w0: World, w: World, env: Env)
    ensures var snap, plan := Captured(w0), Planned(Captured(w0), env);
            Finished(Planned, snap, w, env) == w || Finished(Planned, snap, w, env) == Atomic(Planned, w, env) <==>
              !(plan.Some? && IsTorn(snap, w, plan.value, env))
  {
    PlannedIgnoresStored();
    PassIsAtomicUnless(Planned, w0, w, env);
  }

  // ----- A pass that diverges -----

  /** A subscription whose only node is the active one and healthy is kept. */
  lemma OnlyNodeIsKept(sub: Subscription, node: Node, rule: Rule, policy: SwitchPolicy, state: AutoState, now: int)
    requires sub.nodes == [node] && node.id != "" && sub.expiresAt == None && rule(sub.id, node)
    requires state.subscription == sub.id && state.node == node.id && state.connected
    requires EffectiveTransport(state).Proxy?
    requires Lookup(state.health, node.id).healthy
    ensures var d := Evaluate(sub, rule, policy, state, Some(Probing([], None)), now);
            d.healthy && !d.reconnect && !d.switch && d.health == state.health
  {
    var nodes := Selectable(sub, rule, now);
    assert node in sub.nodes;
    assert node in nodes && forall n :: n in nodes ==> n == node;
    assert FindNode(sub.nodes, node.id) == Some(node);
    assert Best(nodes, state.health) == node;
  }

  lemma SelfMergeKeeps(health: HealthMap)
    ensures Merged(health, health, "") == health
  {
  }

  const UNMANAGED := Managed(OutboundSwitch.Vpn, None, 0, None, [], map[], OutboundSwitch.Xray)

  /** A world with one subscription, one healthy active node and a warm cache. `seen` is the failure reason in
      the cache, `stored` the one in the store. */
  function WarmWorld(policy: SwitchPolicy, transport: Transport, seen: Option<Reason>, stored: Option<Reason>): World {
    var health: HealthMap := map["n" := UNKNOWN.(id := "n", healthy := true)];
    var state := AutoState(OutboundSwitch.Auto, true, "s", "n", transport, "s", health, 0, 0, "", 0, stored, false,
                           UNMANAGED);
    World([Subscription("s", [Node("n", "", false)], None)], Settings({}, {}, policy, false), state,
          Some(Cache(KeyOf(state), health, seen, Some(0))))
  }

  /** A pass that finds nothing new; it may not leave the Zapret transport. */
  function WarmEnv(left: World): Env {
    Env(Probing([], None), 1, 1, false, None, None, left, true, true)
  }

  lemma WarmIsCurrent(policy: SwitchPolicy, transport: Transport, seen: Option<Reason>, before: Option<Reason>,
                      after: Option<Reason>)
    ensures var w0, w := WarmWorld(policy, transport, seen, before), WarmWorld(policy, transport, seen, after);
            Captured(w0).state == w.persisted.(failureReason := seen) && IsCurrent(Captured(w0), w)
  {
    SelfMergeKeeps(WarmWorld(policy, transport, seen, before).persisted.health);
  }

  lemma OnlySubscriptionIsKept(snap: Snapshot, sub: Subscription, node: Node, env: Env)
    requires snap.subs == [sub] && sub.id == "s" && sub.expiresAt == None && snap.state.scope == "s"
    requires sub.nodes == [node] && node.id != "" && RuleOf(snap.settings)(sub.id, node)
    requires snap.state.subscription == "s" && snap.state.node == node.id && snap.state.connected
    requires EffectiveTransport(snap.state).Proxy? && Lookup(snap.state.health, node.id).healthy
    requires env.probing == Probing([], None)
    ensures Planned(snap, env).Some? &&
            Asked(snap, Planned(snap, env).value, env) == Some(Kept(snap.state, Planned(snap, env).value))
  {
    PlannedOnlySubscription(snap, sub, env);
    OnlyNodeIsKept(sub, node, RuleOf(snap.settings), snap.settings.policy, snap.state, env.evaluatedAt);
  }

  /** Saving moves the time of the last save, so the two answers differ and saving is not nothing. */
  lemma WarmDiverges(policy: SwitchPolicy, transport: Transport, seen: Option<Reason>, before: Option<Reason>,
                     plan: Plan, next: AutoState)
    requires before != seen && next.failureReason == seen && !plan.all
    requires next.mode == OutboundSwitch.Auto && next.subscription != "" && !next.zapretTest
    ensures var w0, w := WarmWorld(policy, transport, seen, before), WarmWorld(policy, transport, seen, seen);
            Diverges(Captured(w0), w, plan, next, WarmEnv(w))
  {
    var w0, w := WarmWorld(policy, transport, seen, before), WarmWorld(policy, transport, seen, seen);
    assert Persisting(w, Captured(w0), plan, next, WarmEnv(w)).cache.value.lastPersistAt == Some(1);
    assert Noting(w, Captured(w0), plan, next, WarmEnv(w)).cache.value.lastPersistAt == Some(0);
  }

  /** The pass over the warm world asks about a state that shows the reason seen. */
  ghost predicate AsksWarmly(snap: Snapshot, plan: Option<Plan>, seen: Option<Reason>, env: Env) {
    && plan.Some? && !plan.value.all
    && var next := Asked(snap, plan.value, env);
       && next.Some? && next.value.failureReason == seen && next.value.mode == OutboundSwitch.Auto
       && next.value.subscription != "" && !next.value.zapretTest
  }

  lemma WarmProxyAsks(policy: SwitchPolicy, before: Option<Reason>)
    ensures var snap := Captured(WarmWorld(policy, OutboundSwitch.Proxy, None, before));
            var env := WarmEnv(WarmWorld(policy, OutboundSwitch.Proxy, None, None));
            AsksWarmly(snap, Planned(snap, env), None, env)
  {
    var snap := Captured(WarmWorld(policy, OutboundSwitch.Proxy, None, before));
    WarmIsCurrent(policy, OutboundSwitch.Proxy, None, before, None);
    assert RuleOf(snap.settings)("s", Node("n", "", false));
    OnlySubscriptionIsKept(snap, snap.subs[0], Node("n", "", false),
                           WarmEnv(WarmWorld(policy, OutboundSwitch.Proxy, None, None)));
    PlannedOnlySubscription(snap, snap.subs[0], WarmEnv(WarmWorld(policy, OutboundSwitch.Proxy, None, None)));
  }

  lemma ZapretAsks(snap: Snapshot, plan: Plan, env: Env)
    requires EffectiveTransport(snap.state).Zapret? && !env.failsBack && snap.state.failureReason.Some?
    requires !plan.all && plan.decision.owner.id != "" && !snap.state.zapretTest
    ensures AsksWarmly(snap, Some(plan), snap.state.failureReason, env)
  {
  }

  lemma EvaluatedOwner(sub: Subscription, rule: Rule, policy: SwitchPolicy, state: AutoState, probing: Option<Probing>,
                       now: int)
    ensures Evaluate(sub, rule, policy, state, probing, now).owner == sub
  {
  }

  lemma WarmZapretAsks(policy: SwitchPolicy, seen: Option<Reason>, before: Option<Reason>)
    requires seen.Some?
    ensures var snap := Captured(WarmWorld(policy, OutboundSwitch.Zapret, seen, before));
            var env := WarmEnv(WarmWorld(policy, OutboundSwitch.Zapret, seen, seen));
            AsksWarmly(snap, Planned(snap, env), seen, env)
  {
    var snap := Captured(WarmWorld(policy, OutboundSwitch.Zapret, seen, before));
    var env := WarmEnv(WarmWorld(policy, OutboundSwitch.Zapret, seen, seen));
    WarmIsCurrent(policy, OutboundSwitch.Zapret, seen, before, seen);
    PlannedOnlySubscription(snap, snap.subs[0], env);
    EvaluatedOwner(snap.subs[0], RuleOf(snap.settings), snap.settings.policy, snap.state, Some(env.probing),
                   env.evaluatedAt);
    ZapretAsks(snap, Planned(snap, env).value, env);
  }

  lemma PlannerCanDiverge(planner: Planner, policy: SwitchPolicy, transport: Transport, seen: Option<Reason>,
                          before: Option<Reason>)
    requires IgnoresStored(planner) && before != seen
    requires var w0, w := WarmWorld(policy, transport, seen, before), WarmWorld(policy, transport, seen, seen);
             AsksWarmly(Captured(w0), planner(Captured(w0), WarmEnv(w)), seen, WarmEnv(w))
    ensures var w0, w := WarmWorld(policy, transport, seen, before), WarmWorld(policy, transport, seen, seen);
            && Finished(planner, Captured(w0), w, WarmEnv(w)) != w
            && Finished(planner, Captured(w0), w, WarmEnv(w)) != Atomic(planner, w, WarmEnv(w))
  {
    var w0, w := WarmWorld(policy, transport, seen, before), WarmWorld(policy, transport, seen, seen);
    var plan := planner(Captured(w0), WarmEnv(w)).value;
    WarmIsCurrent(policy, transport, seen, before, seen);
    WarmDiverges(policy, transport, seen, before, plan, Asked(Captured(w0), plan, WarmEnv(w)).value);
    PassIsAtomicUnless(planner, w0, w, WarmEnv(w));
  }

  /** A stored failure reason that another writer changed while the probes ran tears the pass, on the proxy
      route and on the Zapret transport, under every policy. */
  lemma PassCanDiverge(policy: SwitchPolicy, transport: Transport, seen: Option<Reason>, before: Option<Reason>)
    requires (transport.Proxy? && seen == None) || (transport.Zapret? && seen.Some?)
    requires before != seen
    ensures var w0, w := WarmWorld(policy, transport, seen, before), WarmWorld(policy, transport, seen, seen);
            && Finished(Planned, Captured(w0), w, WarmEnv(w)) != w
            && Finished(Planned, Captured(w0), w, WarmEnv(w)) != Atomic(Planned, w, WarmEnv(w))
  {
    PlannedIgnoresStored();
    if transport.Proxy? {
      WarmProxyAsks(policy, before);
      PlannerCanDiverge(Planned, policy, OutboundSwitch.Proxy, None, before);
    } else {
      WarmZapretAsks(policy, seen, before);
      PlannerCanDiverge(Planned, policy, OutboundSwitch.Zapret, seen, before);
    }
  }

  lemma OneLetterIsNotGlobal()
    ensures !IsGlobal("s")
  {
    assert 's' in "s" && !IsSpace('s');
    TrimLowerIsNoLonger("s");
  }

  lemma PlannedOnlySubscription(snap: Snapshot, sub: Subscription, env: Env)
    requires snap.subs == [sub] && sub.id == "s" && sub.expiresAt == None
    requires snap.state.subscription == "s" && snap.state.scope == "s"
    ensures Planned(snap, env) ==
              Some(Plan(false, Evaluate(sub, RuleOf(snap.settings), snap.settings.policy, snap.state, Some(env.probing),
                                        env.evaluatedAt)))
  {
    OneLetterIsNotGlobal();
    assert FindSubscription(snap.subs, "s") == Some(sub);
    assert !ActiveExpired(snap, env.evaluatedAt);
  }

  lemma TrimLowerIsNoLonger(s: string)
    ensures |TrimLower(s)| <= |s|
  {
    TrimLeftIsNoLonger(ToLower(s));
    TrimRightIsNoLonger(TrimLeft(ToLower(s)));
  }

  lemma {:induction false} TrimLeftIsNoLonger(s: string)
    ensures |TrimLeft(s)| <= |s|
  {
    if s != [] && IsSpace(s[0]) { TrimLeftIsNoLonger(s[1..]); }
  }

  lemma {:induction false} TrimRightIsNoLonger(s: string)
    ensures |TrimRight(s)| <= |s|
  {
    if s != [] && IsSpace(s[|s| - 1]) { TrimRightIsNoLonger(s[..|s| - 1]); }
  }
}
