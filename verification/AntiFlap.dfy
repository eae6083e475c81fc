/** When the automatic mode may leave a working node for a better one. */
module AntiFlap {
  import opened ProbeHealth

  datatype SwitchPolicy = SwitchPolicy(
    allowOptimization: bool,
    currentCeiling: int,
    cooldown: int,
    latencyImprovement: int,
    relativeImprovement: real,
    requiredWins: int,
    failureThreshold: int,
    healthyCeiling: int)

  /** The reasons the decision gives. */
  datatype Verdict =
    | CandidateUnusable
    | NoCurrentNode
    | CurrentUnhealthy
    | OptimizationDisabled
    | WithinCeiling
    | CooldownActive
    | Unconfirmed
    | RelativeTooSmall
    | ImprovementTooSmall
    | QualityImproved
    | CurrentAcceptable
  {
    predicate Switches() {
      NoCurrentNode? || CurrentUnhealthy? || QualityImproved?
    }
  }

  function ShouldSwitchWithWins(current: NodeHealth, candidate: NodeHealth, now: int, lastSwitch: int,
                                policy: SwitchPolicy, wins: int): Verdict
  {
    if candidate.id == "" || !candidate.healthy then CandidateUnusable
    else if current.id == "" then NoCurrentNode
    else if !current.healthy || current.failureStreak >= policy.failureThreshold then CurrentUnhealthy
    else if !policy.allowOptimization then OptimizationDisabled
    else if policy.currentCeiling > 0 && current.average <= policy.currentCeiling then WithinCeiling
    else if now - lastSwitch < policy.cooldown then CooldownActive
    else if policy.requiredWins > 0 && wins < policy.requiredWins then Unconfirmed
    else
      var currentCost, candidateCost := Cost(current), Cost(candidate);
      if currentCost > 0 && candidateCost > 0 && policy.relativeImprovement > 0.0
        && (currentCost - candidateCost) as real / currentCost as real < policy.relativeImprovement
      then RelativeTooSmall
      else if 0 < currentCost <= policy.healthyCeiling && currentCost - candidateCost < policy.latencyImprovement
      then ImprovementTooSmall
      else if candidateCost > 0 && currentCost - candidateCost >= policy.latencyImprovement then QualityImproved
      else CurrentAcceptable
  }

  predicate IsOptimizationCandidate(current: NodeHealth, candidate: NodeHealth, policy: SwitchPolicy) {
    && policy.allowOptimization && current.healthy && candidate.healthy && current.id != candidate.id
    && !(policy.currentCeiling > 0 && current.average <= policy.currentCeiling)
    && MateriallyCheaper(Cost(current), Cost(candidate), policy)
  }

  predicate MateriallyCheaper(current: int, candidate: int, policy: SwitchPolicy) {
    && current > 0 && candidate > 0 && current - candidate >= policy.latencyImprovement
    && !(policy.relativeImprovement > 0.0
         && (current - candidate) as real / current as real < policy.relativeImprovement)
  }

  predicate Cooled(now: int, lastSwitch: int, policy: SwitchPolicy) {
    now - lastSwitch >= policy.cooldown
  }

  predicate Confirmed(wins: int, policy: SwitchPolicy) {
    policy.requiredWins <= 0 || wins >= policy.requiredWins
  }

  /** Two different measured nodes, the current one working. */
  predicate Comparable(current: NodeHealth, candidate: NodeHealth, policy: SwitchPolicy) {
    && current.id != "" && candidate.id != "" && current.id != candidate.id
    && current.healthy && current.failureStreak < policy.failureThreshold
  }

  /** The only way past the candidate test: a worthless current cost and a demand for a negative improvement. */
  predicate Slips(current: NodeHealth, candidate: NodeHealth, policy: SwitchPolicy) {
    && policy.allowOptimization && candidate.healthy
    && !(policy.currentCeiling > 0 && current.average <= policy.currentCeiling)
    && Cost(current) <= 0 < Cost(candidate) && Cost(current) - Cost(candidate) >= policy.latencyImprovement
  }

  /** A working node is left exactly for a confirmed optimization candidate after the cooldown, except in
      the case `Slips`, which a policy that asks for no negative improvement rules out. */
  lemma SwitchExactly(current: NodeHealth, candidate: NodeHealth, now: int, lastSwitch: int, policy: SwitchPolicy,
                      wins: int)
    requires Comparable(current, candidate, policy)
    ensures ShouldSwitchWithWins(current, candidate, now, lastSwitch, policy, wins).Switches() <==>
              (IsOptimizationCandidate(current, candidate, policy) || Slips(current, candidate, policy))
              && Cooled(now, lastSwitch, policy) && Confirmed(wins, policy)
    ensures Slips(current, candidate, policy) ==>
              policy.latencyImprovement < 0 && !IsOptimizationCandidate(current, candidate, policy)
  {
  }

  /** The node never failed, and its cost is its last latency. */
  predicate IsSteady(h: NodeHealth) {
    && h.failures == 0 && h.successes >= CONFIDENT_SUCCESSES && h.variation <= 0 && h.failureStreak <= 0
    && h.instability <= 0 && h.average == 0 && h.last >= 0
  }

  lemma SteadyCost(h: NodeHealth)
    requires IsSteady(h)
    ensures Cost(h) == h.last
  {
    assert 0.0 / h.successes as real == 0.0;
    assert FailureRateCost(h) == 0;
  }

  /** The case does occur: a node at no latency is left for a slower one once a policy asks for an
      improvement that is negative enough. */
  lemma SlipsHappen(current: NodeHealth, candidate: NodeHealth, now: int, lastSwitch: int, policy: SwitchPolicy,
                    wins: int)
    requires IsSteady(current) && IsSteady(candidate) && current.last == 0 < candidate.last
    requires Comparable(current, candidate, policy) && candidate.healthy && policy.allowOptimization
    requires policy.currentCeiling <= 0
    requires policy.latencyImprovement <= -candidate.last && Cooled(now, lastSwitch, policy) && Confirmed(wins, policy)
    ensures Slips(current, candidate, policy) && Cost(current) < Cost(candidate)
    ensures ShouldSwitchWithWins(current, candidate, now, lastSwitch, policy, wins).Switches()
  {
    SteadyCost(current);
    SteadyCost(candidate);
    SwitchExactly(current, candidate, now, lastSwitch, policy, wins);
  }

  // ----- Chains of switches on one health map -----

  function Power(b: real, n: nat): real {
    if n == 0 then 1.0 else Power(b, n - 1) * b
  }

  /** Every node of the chain was left for the next one because of its quality. */
  ghost predicate IsChain(chain: seq<NodeHealth>, policy: SwitchPolicy) {
    forall i, j {:trigger chain[i], chain[j]} ::
      0 <= i < |chain| && j == i + 1 < |chain| ==> IsOptimizationCandidate(chain[i], chain[j], policy)
  }

  function Costs(chain: seq<NodeHealth>): (costs: seq<int>)
    ensures |costs| == |chain|
  {
    if chain == [] then [] else Costs(chain[..|chain| - 1]) + [Cost(chain[|chain| - 1])]
  }

  lemma {:induction false} CostAt(chain: seq<NodeHealth>, k: nat)
    requires k < |chain|
    ensures Costs(chain)[k] == Cost(chain[k])
  {
    if k < |chain| - 1 { CostAt(chain[..|chain| - 1], k); }
  }

  lemma ChainCheapens(chain: seq<NodeHealth>, policy: SwitchPolicy, k: nat)
    requires IsChain(chain, policy) && k + 1 < |chain|
    ensures MateriallyCheaper(Costs(chain)[k], Costs(chain)[k + 1], policy)
  {
    CostAt(chain, k);
    CostAt(chain, k + 1);
    assert IsOptimizationCandidate(chain[k], chain[k + 1], policy);
  }

  lemma FactorPositive(x: real, k: real)
    requires k > 0.0 && x * k > 0.0
    ensures x > 0.0
  {
    if x < 0.0 { ProductPositive(-x, k); }
  }

  lemma StepCuts(current: int, candidate: int, policy: SwitchPolicy)
    requires MateriallyCheaper(current, candidate, policy) && policy.relativeImprovement > 0.0
    ensures policy.relativeImprovement < 1.0 && candidate < current
    ensures candidate as real <= current as real * (1.0 - policy.relativeImprovement)
  {
    var a, b := current as real, candidate as real;
    var r := (a - b) / a;
    assert r * a == a - b;
    assert (r - policy.relativeImprovement) * a >= 0.0;
    assert (1.0 - r) * a == b;
    FactorPositive(1.0 - r, a);
    ProductPositive(policy.relativeImprovement, a);
  }

  lemma Scale(x: real, y: real, k: real)
    requires x <= y && k >= 0.0
    ensures x * k <= y * k
  {
    assert (y - x) * k >= 0.0;
  }

  lemma CutFurther(first: real, previous: real, last: real, keep: real, n: nat)
    requires 0.0 <= keep && last <= previous * keep && previous <= first * Power(keep, n)
    ensures last <= first * Power(keep, n + 1)
  {
    Scale(previous, first * Power(keep, n), keep);
    var p := Power(keep, n);
    assert first * p * keep == first * (p * keep);
  }

  ghost predicate IsDownhill(costs: seq<int>, policy: SwitchPolicy) {
    forall k, m {:trigger costs[k], costs[m]} ::
      0 <= k && m == k + 1 < |costs| ==> MateriallyCheaper(costs[k], costs[m], policy)
  }

  /** Along a chain every cost is materially below the one before. */
  lemma ChainIsDownhill(chain: seq<NodeHealth>, policy: SwitchPolicy)
    requires IsChain(chain, policy)
    ensures IsDownhill(Costs(chain), policy)
  {
    forall k, m {:trigger Costs(chain)[k], Costs(chain)[m]} | 0 <= k && m == k + 1 < |Costs(chain)|
      ensures MateriallyCheaper(Costs(chain)[k], Costs(chain)[m], policy)
    {
      ChainCheapens(chain, policy, k);
    }
  }

  /** Each switch leaves at most the share 1 - RelativeImprovement of the cost, so k of them leave its
      k-th power. */
  lemma {:induction false} GeometricDecay(costs: seq<int>, policy: SwitchPolicy, i: nat, j: nat)
    requires IsDownhill(costs, policy) && policy.relativeImprovement > 0.0
    requires i < j < |costs|
    ensures policy.relativeImprovement < 1.0
    ensures 0 < costs[j] && costs[j] as real <= costs[i] as real * Power(1.0 - policy.relativeImprovement, j - i)
    decreases j
  {
    var keep := 1.0 - policy.relativeImprovement;
    StepCuts(costs[j - 1], costs[j], policy);
    if i < j - 1 {
      GeometricDecay(costs, policy, i, j - 1);
    }
    CutFurther(costs[i] as real, costs[j - 1] as real, costs[j] as real, keep, j - 1 - i);
  }

  /** A chain is strictly downhill under a policy that asks for any improvement, so it never comes back
      to a node and is no longer than the first cost. */
  lemma {:induction false} ChainNeverReturns(chain: seq<NodeHealth>, policy: SwitchPolicy, i: nat, j: nat)
    requires IsChain(chain, policy) && (policy.relativeImprovement > 0.0 || policy.latencyImprovement > 0)
    requires i < j < |chain|
    ensures 0 < Costs(chain)[j] <= Costs(chain)[i] - (j - i) && chain[i] != chain[j]
    decreases j
  {
    ChainCheapens(chain, policy, j - 1);
    if policy.relativeImprovement > 0.0 {
      StepCuts(Costs(chain)[j - 1], Costs(chain)[j], policy);
    }
    if i < j - 1 { ChainNeverReturns(chain, policy, i, j - 1); }
    CostAt(chain, i);
    CostAt(chain, j);
  }

  function HealthOf(health: map<string, NodeHealth>, ids: seq<string>): (chain: seq<NodeHealth>)
    requires forall id :: id in ids ==> id in health
    ensures |chain| == |ids| && forall k :: 0 <= k < |ids| ==> chain[k] == health[ids[k]]
  {
    seq(|ids|, k requires 0 <= k < |ids| => health[ids[k]])
  }

  /** Over one health map no node comes back, and there are no more switches than the first node's cost. */
  lemma NodesNeverReturn(health: map<string, NodeHealth>, ids: seq<string>, policy: SwitchPolicy, i: nat, j: nat)
    requires forall id :: id in ids ==> id in health
    requires IsChain(HealthOf(health, ids), policy)
    requires policy.relativeImprovement > 0.0 || policy.latencyImprovement > 0
    requires i < j < |ids|
    ensures ids[i] != ids[j] && Cost(health[ids[j]]) <= Cost(health[ids[i]]) - (j - i)
    ensures |ids| <= Cost(health[ids[0]])
  {
    var chain := HealthOf(health, ids);
    ChainNeverReturns(chain, policy, i, j);
    ChainNeverReturns(chain, policy, 0, |ids| - 1);
    CostAt(chain, i);
    CostAt(chain, j);
    CostAt(chain, 0);
  }

  /** With both demands at zero two equal nodes may alternate for ever. */
  lemma IdleDemandsAllowPingPong(a: NodeHealth, policy: SwitchPolicy)
    requires a.healthy && a.id == "a" && Cost(a) > 0
    requires policy.allowOptimization && policy.currentCeiling <= 0
    requires policy.latencyImprovement <= 0 && policy.relativeImprovement <= 0.0
    ensures IsChain([a, a.(id := "b"), a], policy)
  {
    var b := a.(id := "b");
    assert Cost(a) == Cost(b);
  }
}
