/** The automatic decision: which node to use, and whether that means a switch. One clock reading serves
    one decision; probe results and the check of the live route are inputs. */
module AutoSelection {
  import opened Wrappers
  import opened ProbeHealth
  import opened AntiFlap
  import opened Subscriptions
  import opened NodeSelection
  import OutboundSwitch

  type Transport = OutboundSwitch.Transport
  type SelectionMode = OutboundSwitch.SelectionMode

  /** `hidden` holds the nodes whose title a hide keyword matches. */
  datatype Settings = Settings(excluded: set<string>, hidden: set<Node>, policy: SwitchPolicy, zapret: bool)

  datatype Reason =
    | AllExcluded
    | NoneHealthy
    | RecoverDisconnected
    | CurrentMissing
    | Judged(verdict: Verdict)
    | Reported(text: string)

  /** What the state records of the managed backend. */
  datatype Managed = Managed(
    mode: OutboundSwitch.OperationalMode,
    selected: Option<OutboundSwitch.Tag>,
    generation: nat,
    operation: Option<OutboundSwitch.Operation>,
    outbounds: seq<OutboundSwitch.Outbound>,
    backoff: map<OutboundSwitch.Tag, OutboundSwitch.Backoff>,
    kind: OutboundSwitch.Kind)

  /** The persisted state as the automatic mode sees it. */
  datatype AutoState = AutoState(
    mode: SelectionMode,
    connected: bool,
    subscription: string,
    node: string,
    transport: Transport,
    scope: string,
    health: HealthMap,
    lastSwitchAt: int,
    lastTransportSwitchAt: int,
    trackerId: string,
    trackerWins: int,
    failureReason: Option<Reason>,
    zapretTest: bool,
    managed: Managed)

  /** The same state as the outbound switch sees it. */
  function RuntimeOf(s: AutoState): OutboundSwitch.RuntimeState {
    var m := s.managed;
    OutboundSwitch.RuntimeState(m.mode, m.selected, m.generation, m.operation, m.outbounds, m.backoff, m.kind,
                                s.subscription, s.node, s.mode, s.connected, s.transport)
  }

  function WithRuntime(s: AutoState, r: OutboundSwitch.RuntimeState): (after: AutoState)
    ensures RuntimeOf(after) == r
  {
    s.(managed := Managed(r.mode, r.selected, r.generation, r.operation, r.outbounds, r.backoff, r.kind),
       subscription := r.subscription, node := r.node, mode := r.chosen, connected := r.connected,
       transport := r.transport)
  }

  /** What saving the state puts into the store. */
  function Saved(s: AutoState): (saved: AutoState)
    ensures RuntimeOf(saved) == OutboundSwitch.Stamped(RuntimeOf(s))
  {
    s.(managed := s.managed.(mode := OutboundSwitch.Stamped(RuntimeOf(s)).mode))
  }

  function EffectiveTransport(s: AutoState): Transport {
    OutboundSwitch.EffectiveOf(s.transport, s.connected, s.subscription, s.node, s.mode)
  }

  /** Results in the order they completed, and the failure of the live check if there was one. */
  datatype Probing = Probing(results: seq<(string, Probe)>, egressFailure: Option<string>)

  datatype Decision = Decision(
    current: string,
    candidate: Node,
    selected: Node,
    owner: Subscription,
    fallback: Subscription,
    health: HealthMap,
    healthy: bool,
    switch: bool,
    reconnect: bool,
    reason: Reason,
    trackerId: string,
    trackerWins: int)

  // ----- Selectable nodes -----

  /** Which nodes of which subscription may be selected. */
  type Rule = (string, Node) -> bool

  function RuleOf(settings: Settings): Rule {
    (sub, node: Node) => !IsExcluded(settings.excluded, sub, node.id) && node !in settings.hidden
  }

  function AllowedNodes(nodes: seq<Node>, sub: string, rule: Rule): (allowed: seq<Node>)
    ensures forall n :: n in allowed <==> n in nodes && rule(sub, n)
    ensures |allowed| <= |nodes|
  {
    if nodes == [] then []
    else
      var front, last := nodes[..|nodes| - 1], nodes[|nodes| - 1];
      AllowedNodes(front, sub, rule) + if rule(sub, last) then [last] else []
  }

  function Selectable(sub: Subscription, rule: Rule, now: int): seq<Node> {
    if IsExpired(sub, now) then [] else AllowedNodes(sub.nodes, sub.id, rule)
  }

  predicate CurrentExcluded(sub: Subscription, id: string, rule: Rule) {
    id != "" && match FindNode(sub.nodes, id)
                case Some(n) => !rule(sub.id, n)
                case None => !rule(sub.id, Node(id, "", false))
  }

  // ----- Health updates -----

  const EXCLUDED_REASON := "current node is excluded from auto mode"
  const EXPIRED_REASON := "active subscription expired"

  /** Counts a failure against the node and makes its streak reach the threshold. */
  function Forced(health: HealthMap, id: string, reason: string, at: int, threshold: int): (r: HealthMap)
    ensures forall other :: other != id ==> (other in r <==> other in health)
    ensures forall other :: other != id && other in health ==> r[other] == health[other]
    ensures id != "" ==> id in r && r[id].id == id && r[id].failureStreak >= threshold && r[id].successStreak == 0
    ensures id != "" ==> (r[id].healthy ==> Lookup(health, id).failureStreak < 0)
  {
    if id == "" then health
    else
      var h := Lookup(health, id);
      var failed := Observed(h.(id := id), Probe(false, h.last, at, reason, 1));
      var t := Max(threshold, 1);
      health[id := if failed.failureStreak < t then failed.(failureStreak := t) else failed]
  }

  method ForceHealthFailure(health: HealthMap, id: string, reason: string, at: int, threshold: int)
    returns (r: HealthMap)
    ensures r == Forced(health, id, reason, at, threshold)
  {
    r := health;
    if id == "" {
      return;
    }
    var t := if threshold < 1 then 1 else threshold;
    var updated := Lookup(health, id).(id := id);
    updated := UpdateHealth(updated, false, updated.last, at, reason, 1);
    if updated.failureStreak < t {
      updated := updated.(failureStreak := t);
    }
    r := health[id := updated];
  }

  function Probed(health: HealthMap, results: seq<(string, Probe)>, threshold: int): HealthMap {
    if results == [] then health
    else
      var before, (id, p) := Probed(health, results[..|results| - 1], threshold), results[|results| - 1];
      before[id := Observed(Lookup(before, id), p.(threshold := threshold)).(id := id)]
  }

  /** A healthy current node whose live route fails its check is failed too. */
  function LiveChecked(health: HealthMap, state: AutoState, current: string, failure: Option<string>, threshold: int,
                       now: int): HealthMap
  {
    if state.connected && EffectiveTransport(state).Proxy? && current != "" && Lookup(health, current).healthy &&
       failure.Some?
    then Forced(health, current, failure.value, now, threshold) else health
  }

  function Measured(health: HealthMap, state: AutoState, current: string, probing: Option<Probing>, threshold: int,
                    now: int): HealthMap
  {
    match probing
    case None => health
    case Some(p) => LiveChecked(Probed(health, p.results, threshold), state, current, p.egressFailure, threshold, now)
  }

  method Measure(health: HealthMap, state: AutoState, current: string, probing: Option<Probing>, threshold: int,
                 now: int)
    returns (r: HealthMap)
    ensures r == Measured(health, state, current, probing, threshold, now)
  {
    r := health;
    if probing.None? {
      return;
    }
    var results := probing.value.results;
    var i := 0;
    while i < |results|
      invariant 0 <= i <= |results|
      invariant r == Probed(health, results[..i], threshold)
    {
      var (id, p) := results[i];
      var updated := UpdateHealth(Lookup(r, id), p.success, p.latency, p.at, p.reason, threshold);
      r := r[id := updated.(id := id)];
      assert results[..i + 1][..i] == results[..i];
      i := i + 1;
    }
    assert results[..i] == results;
    if state.connected && EffectiveTransport(state).Proxy? && current != "" && Lookup(r, current).healthy &&
       probing.value.egressFailure.Some? {
      r := ForceHealthFailure(r, current, probing.value.egressFailure.value, now, threshold);
    }
  }

  // ----- The choice -----

  function OptimizationWins(state: AutoState, current: NodeHealth, candidate: NodeHealth, policy: SwitchPolicy,
                            probed: bool): (string, int)
  {
    if !probed || !IsOptimizationCandidate(current, candidate, policy) then ("", 0)
    else if state.trackerId == candidate.id then (candidate.id, state.trackerWins + 1)
    else (candidate.id, 1)
  }

  function Judgement(state: AutoState, current: string, best: Node, health: HealthMap, policy: SwitchPolicy,
                     probed: bool, now: int): Verdict
  {
    var c, b := Lookup(health, current), Lookup(health, best.id);
    ShouldSwitchWithWins(c, b, now, state.lastSwitchAt, policy, OptimizationWins(state, c, b, policy, probed).1)
  }

  /** The tail of both evaluations. `anywhere` says that the subscription may change with the node. */
  function Choose(best: Node, owner: Subscription, currentSub: Subscription, fallback: Subscription, anywhere: bool,
                  health: HealthMap, state: AutoState, policy: SwitchPolicy, current: string, probed: bool,
                  now: int): Decision {
    var rest := Decision(current, best, NO_NODE, owner, fallback, health, false, false, false, NoneHealthy, "", 0);
    if !Lookup(health, best.id).healthy then rest
    else if !state.connected then
      rest.(healthy := true, selected := best, reconnect := true, reason := RecoverDisconnected,
            switch := best.id != current || (anywhere && owner.id != state.subscription))
    else
      var verdict := Judgement(state, current, best, health, policy, probed, now);
      var tracker := OptimizationWins(state, Lookup(health, current), Lookup(health, best.id), policy, probed);
      var active := FindNode(currentSub.nodes, current);
      var keep := !verdict.Switches() && current != "" && active.Some?;
      var selected, from := if keep then active.value else best, if keep then currentSub else owner;
      rest.(healthy := true, selected := selected, owner := from,
            switch := selected.id != current || (anywhere && from.id != state.subscription),
            reason := if !verdict.Switches() && current != "" && active.None? then CurrentMissing else Judged(verdict),
            trackerId := tracker.0, trackerWins := tracker.1)
  }

  // ----- One subscription -----

  function CurrentIn(sub: Subscription, state: AutoState): string {
    if state.subscription == sub.id && EffectiveTransport(state).Proxy? then state.node else ""
  }

  function NothingSelectable(current: string, owner: Subscription, fallback: Subscription, health: HealthMap): Decision
  {
    Decision(current, NO_NODE, NO_NODE, owner, fallback, health, false, false, false, AllExcluded, "", 0)
  }

  function Evaluate(sub: Subscription, rule: Rule, policy: SwitchPolicy, state: AutoState, probing: Option<Probing>,
                    now: int): Decision
  {
    var current, nodes := CurrentIn(sub, state), Selectable(sub, rule, now);
    var threshold := policy.failureThreshold;
    if nodes == [] then NothingSelectable(current, sub, sub, state.health)
    else
      var checked := if CurrentExcluded(sub, current, rule)
                     then Forced(state.health, current, EXCLUDED_REASON, now, threshold) else state.health;
      var health := Measured(checked, state, current, probing, threshold, now);
      Choose(Best(nodes, health), sub, sub, sub, false, health, state, policy, current, probing.Some?, now)
  }

  method EvaluateAutoSelection(sub: Subscription, rule: Rule, policy: SwitchPolicy, state: AutoState,
                               probing: Option<Probing>, now: int)
    returns (decision: Decision)
    ensures decision == Evaluate(sub, rule, policy, state, probing, now)
  {
    var health := state.health;
    var threshold := policy.failureThreshold;
    var current := CurrentIn(sub, state);
    var nodes := Selectable(sub, rule, now);
    if nodes == [] {
      return NothingSelectable(current, sub, sub, health);
    }
    if CurrentExcluded(sub, current, rule) {
      health := ForceHealthFailure(health, current, EXCLUDED_REASON, now, threshold);
    }
    health := Measure(health, state, current, probing, threshold, now);
    var best := SelectBestNode(nodes, health);
    decision := Choose(best.value, sub, sub, sub, false, health, state, policy, current, probing.Some?, now);
  }

  // ----- All subscriptions -----

  function HealthFor(health: HealthMap, subs: seq<Subscription>): HealthMap {
    map id | id in health && exists sub :: sub in subs && exists n :: n in sub.nodes && n.id == id :: health[id]
  }

  datatype Pool = Pool(nodes: seq<Node>, owners: map<string, Subscription>, currentSub: Subscription,
                       fallback: Subscription, health: HealthMap)

  /** The first subscription to offer a node ID owns it. */
  function WithOwners(owners: map<string, Subscription>, nodes: seq<Node>, sub: Subscription)
    : (r: map<string, Subscription>)
    ensures forall id :: id in r <==> id in owners || exists n :: n in nodes && n.id == id
    ensures forall id :: id in r ==> r[id] == if id in owners then owners[id] else sub
  {
    owners + map n | n in nodes && n.id !in owners :: n.id := sub
  }

  function Joined(pool: Pool, sub: Subscription, rule: Rule, policy: SwitchPolicy, state: AutoState, current: string,
                  now: int): Pool
  {
    var threshold, active := policy.failureThreshold, sub.id == state.subscription;
    if IsExpired(sub, now) then
      if active && current != "" then pool.(health := Forced(pool.health, current, EXPIRED_REASON, now, threshold))
      else pool
    else
      var selectable := Selectable(sub, rule, now);
      Pool(pool.nodes + selectable, WithOwners(pool.owners, selectable, sub),
           if active then sub else pool.currentSub,
           if active || (pool.fallback.id == "" && sub.nodes != []) then sub else pool.fallback,
           if active && CurrentExcluded(sub, current, rule)
           then Forced(pool.health, current, EXCLUDED_REASON, now, threshold) else pool.health)
  }

  function Gathered(subs: seq<Subscription>, rule: Rule, policy: SwitchPolicy, state: AutoState, current: string,
                    now: int, health: HealthMap): Pool
  {
    if subs == [] then Pool([], map[], NO_SUBSCRIPTION, NO_SUBSCRIPTION, health)
    else Joined(Gathered(subs[..|subs| - 1], rule, policy, state, current, now, health), subs[|subs| - 1], rule, policy,
                state, current, now)
  }

  function CurrentAnywhere(state: AutoState): string {
    if EffectiveTransport(state).Proxy? then state.node else ""
  }

  lemma {:induction false} NodesAreOwned(subs: seq<Subscription>, rule: Rule, policy: SwitchPolicy, state: AutoState,
                                         current: string, now: int, health: HealthMap)
    ensures var pool := Gathered(subs, rule, policy, state, current, now, health);
            forall n :: n in pool.nodes ==> n.id in pool.owners
  {
    if subs != [] { NodesAreOwned(subs[..|subs| - 1], rule, policy, state, current, now, health); }
  }

  function EvaluateAll(subs: seq<Subscription>, rule: Rule, policy: SwitchPolicy, state: AutoState,
                       probing: Option<Probing>, now: int): Decision
  {
    var current, threshold := CurrentAnywhere(state), policy.failureThreshold;
    var pool := Gathered(subs, rule, policy, state, current, now, HealthFor(state.health, subs));
    if pool.nodes == [] then NothingSelectable(current, NO_SUBSCRIPTION, pool.fallback, pool.health)
    else
      NodesAreOwned(subs, rule, policy, state, current, now, HealthFor(state.health, subs));
      var health := Measured(pool.health, state, current, probing, threshold, now);
      var best := Best(pool.nodes, health);
      Choose(best, pool.owners[best.id], pool.currentSub, pool.fallback, true, health, state, policy, current,
             probing.Some?, now)
  }

  method GatherCandidates(subs: seq<Subscription>, rule: Rule, policy: SwitchPolicy, state: AutoState, current: string,
                          now: int, start: HealthMap)
    returns (pool: Pool)
    ensures pool == Gathered(subs, rule, policy, state, current, now, start)
  {
    var health := start;
    var threshold := policy.failureThreshold;
    var fallback, currentSub := NO_SUBSCRIPTION, NO_SUBSCRIPTION;
    var candidates: seq<Node> := [];
    var owners: map<string, Subscription> := map[];
    var i := 0;
    while i < |subs|
      invariant 0 <= i <= |subs|
      invariant Pool(candidates, owners, currentSub, fallback, health) ==
                  Gathered(subs[..i], rule, policy, state, current, now, start)
    {
      var sub := subs[i];
      assert subs[..i + 1][..i] == subs[..i];
      i := i + 1;
      if IsExpired(sub, now) {
        if sub.id == state.subscription && current != "" {
          health := ForceHealthFailure(health, current, EXPIRED_REASON, now, threshold);
        }
        continue;
      }
      if fallback.id == "" && |sub.nodes| > 0 {
        fallback := sub;
      }
      if sub.id == state.subscription {
        currentSub := sub;
        fallback := sub;
      }
      var selectable := Selectable(sub, rule, now);
      if CurrentExcluded(sub, current, rule) && sub.id == state.subscription {
        health := ForceHealthFailure(health, current, EXCLUDED_REASON, now, threshold);
      }
      candidates := candidates + selectable;
      owners := WithOwners(owners, selectable, sub);
    }
    assert subs[..i] == subs;
    pool := Pool(candidates, owners, currentSub, fallback, health);
  }

  method EvaluateAutoSelectionAll(subs: seq<Subscription>, rule: Rule, policy: SwitchPolicy, state: AutoState,
                                  probing: Option<Probing>, now: int)
    returns (decision: Decision)
    ensures decision == EvaluateAll(subs, rule, policy, state, probing, now)
  {
    var current, start := CurrentAnywhere(state), HealthFor(state.health, subs);
    var pool := GatherCandidates(subs, rule, policy, state, current, now, start);
    if pool.nodes == [] {
      return NothingSelectable(current, NO_SUBSCRIPTION, pool.fallback, pool.health);
    }
    var health := Measure(pool.health, state, current, probing, policy.failureThreshold, now);
    var best := SelectBestNode(pool.nodes, health);
    NodesAreOwned(subs, rule, policy, state, current, now, start);
    decision := Choose(best.value, pool.owners[best.value.id], pool.currentSub, pool.fallback, true, health, state,
                       policy, current, probing.Some?, now);
  }
}
