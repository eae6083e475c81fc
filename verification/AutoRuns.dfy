/** Whole runs of health checks: how far apart switches for quality are, and how often the new node had
    won before. Any other writer may act between two passes and between a pass's capture and commit. */
module AutoRuns {
  import opened Wrappers
  import opened ProbeHealth
  import opened AntiFlap
  import opened NodeSelection
  import opened Subscriptions
  import opened AutoSelection
  import opened AutoCommit
  import opened AutoHealth

  // ----- What one evaluation guarantees -----

  /** The decision leaves a working node for a better one. */
  predicate IsQualitySwitch(d: Decision) {
    d.healthy && !d.reconnect && d.switch && d.reason == Judged(QualityImproved)
  }

  /** The tracker is cleared, continued or started. */
  predicate TracksFrom(d: Decision, s: AutoState) {
    || (d.trackerId == "" && d.trackerWins == 0)
    || (d.trackerId == s.trackerId && d.trackerWins == s.trackerWins + 1)
    || d.trackerWins == 1
  }

  /** The node could replace the current one at the health the decision was made with. */
  predicate IsCandidateOf(d: Decision, id: string, policy: SwitchPolicy) {
    d.candidate.id == id && IsOptimizationCandidate(Lookup(d.health, d.current), Lookup(d.health, id), policy)
  }

  /** A counted win is a win of the tracked node. */
  predicate TracksCandidate(d: Decision, policy: SwitchPolicy) {
    d.trackerId != "" || d.trackerWins != 0 ==> IsCandidateOf(d, d.trackerId, policy)
  }

  ghost predicate Follows(d: Decision, s: AutoState, policy: SwitchPolicy, now: int) {
    && TracksFrom(d, s)
    && (IsQualitySwitch(d) ==>
          d.selected == d.candidate && Cooled(now, s.lastSwitchAt, policy) && Confirmed(d.trackerWins, policy))
    && (IsKeyed(s.health) ==> IsKeyed(d.health) && TracksCandidate(d, policy))
  }

  /** A counted win is a win: the tracked node was the optimization candidate of that pass. */
  lemma TrackedIsCandidate(best: Node, owner: Subscription, currentSub: Subscription, fallback: Subscription,
                           anywhere: bool, health: HealthMap, state: AutoState, policy: SwitchPolicy, current: string,
                           probed: bool, now: int)
    requires IsKeyed(health)
    ensures TracksCandidate(Choose(best, owner, currentSub, fallback, anywhere, health, state, policy, current, probed,
                                   now), policy)
  {
  }

  lemma ChoiceFollows(best: Node, owner: Subscription, currentSub: Subscription, fallback: Subscription, anywhere: bool,
                      health: HealthMap, state: AutoState, policy: SwitchPolicy, current: string, probed: bool,
                      now: int)
    requires IsKeyed(state.health) ==> IsKeyed(health)
    ensures Follows(Choose(best, owner, currentSub, fallback, anywhere, health, state, policy, current, probed, now),
                    state, policy, now)
  {
    if IsKeyed(state.health) {
      TrackedIsCandidate(best, owner, currentSub, fallback, anywhere, health, state, policy, current, probed, now);
    }
  }

  ghost predicate FollowsPolicy(planner: Planner) {
    forall snap: Snapshot, env | planner(snap, env).Some? ::
      Follows(planner(snap, env).value.decision, snap.state, snap.settings.policy, env.evaluatedAt)
  }

  lemma EvaluateFollows(sub: Subscription, rule: Rule, policy: SwitchPolicy, state: AutoState, probing: Option<Probing>,
                        now: int)
    ensures Follows(Evaluate(sub, rule, policy, state, probing, now), state, policy, now)
  {
    var current, nodes := CurrentIn(sub, state), Selectable(sub, rule, now);
    EvaluateIsSettled(sub, rule, policy, state, probing, now);
    if nodes != [] {
      var health := Evaluate(sub, rule, policy, state, probing, now).health;
      ChoiceFollows(Best(nodes, health), sub, sub, sub, false, health, state, policy, current, probing.Some?, now);
    }
  }

  lemma EvaluateAllFollows(subs: seq<Subscription>, rule: Rule, policy: SwitchPolicy, state: AutoState,
                           probing: Option<Probing>, now: int)
    ensures Follows(EvaluateAll(subs, rule, policy, state, probing, now), state, policy, now)
  {
    var current, start := CurrentAnywhere(state), HealthFor(state.health, subs);
    var pool := Gathered(subs, rule, policy, state, current, now, start);
    EvaluateAllIsSettled(subs, rule, policy, state, probing, now);
    if pool.nodes != [] {
      NodesAreOwned(subs, rule, policy, state, current, now, start);
      var health := Measured(pool.health, state, current, probing, policy.failureThreshold, now);
      var best := Best(pool.nodes, health);
      ChoiceFollows(best, pool.owners[best.id], pool.currentSub, pool.fallback, true, health, state, policy, current,
                    probing.Some?, now);
    }
  }

  lemma PlannedFollowsPolicy()
    ensures FollowsPolicy(Planned)
  {
    forall snap: Snapshot, env | Planned(snap, env).Some?
      ensures Follows(Planned(snap, env).value.decision, snap.state, snap.settings.policy, env.evaluatedAt)
    {
      var rule, policy := RuleOf(snap.settings), snap.settings.policy;
      EvaluateAllFollows(snap.subs, rule, policy, snap.state, Some(env.probing), env.evaluatedAt);
      var found := FindSubscription(snap.subs, snap.state.subscription);
      if found.Some? { EvaluateFollows(found.value, rule, policy, snap.state, Some(env.probing), env.evaluatedAt); }
    }
  }

  // ----- Runs -----

  /** A pass that started from any snapshot, or another writer. */
  datatype Step = Pass(at: int, snap: Snapshot, env: Env) | Other(at: int)

  /** Others may do as they like, except that the last switch does not move back or ahead of the clock, and
      a tracker is kept or cleared. */
  predicate IsBenign(before: AutoState, after: AutoState, at: int) {
    && before.lastSwitchAt <= after.lastSwitchAt <= Max(before.lastSwitchAt, at)
    && ((after.trackerId == before.trackerId && after.trackerWins == before.trackerWins) || after.trackerWins <= 0)
  }

  /** Stored and cached entries carry the ID they are stored under. */
  ghost predicate IsKeyedWorld(w: World) {
    IsKeyed(w.persisted.health) && (w.cache.Some? ==> IsKeyed(w.cache.value.health))
  }

  ghost predicate IsStep(planner: Planner, before: World, step: Step, after: World) {
    match step
    case Other(at) => IsBenign(before.persisted, after.persisted, at) && IsKeyedWorld(after)
    case Pass(at, snap, env) =>
      && env.saves && env.evaluatedAt <= at == env.committedAt && IsKeyedWorld(env.left)
      && IsBenign(before.persisted, env.left.persisted, at)
      && (env.applied.Some? ==> IsBenign(before.persisted, env.applied.value, at))
      && (env.marked.Some? ==> IsBenign(before.persisted, env.marked.value, at))
      && after == Finished(planner, snap, before, env)
  }

  datatype Run = Run(worlds: seq<World>, steps: seq<Step>)

  ghost predicate IsRun(planner: Planner, run: Run) {
    && |run.worlds| == |run.steps| + 1
    && IsKeyedWorld(run.worlds[0]) && run.worlds[0].persisted.trackerWins <= 0
    && (forall i :: 0 <= i < |run.steps| ==> run.worlds[0].persisted.lastSwitchAt <= run.steps[i].at)
    && (forall i, j :: 0 <= i <= j < |run.steps| ==> run.steps[i].at <= run.steps[j].at)
    && (forall i {:trigger run.steps[i]} ::
          0 <= i < |run.steps| ==> IsStep(planner, run.worlds[i], run.steps[i], run.worlds[i + 1]))
  }

  /** The decision a pass commits, if it commits one on the proxy route. */
  function Decided(planner: Planner, before: World, step: Step): Option<Decision> {
    if step.Pass? && RunsAutomatically(step.snap.state) && planner(step.snap, step.env).Some? &&
       IsCurrent(step.snap, before)
       && !EffectiveTransport(step.snap.state).Zapret?
    then Some(planner(step.snap, step.env).value.decision) else None
  }

  /** The step switches for quality and the new node is applied. */
  predicate SwitchesForQuality(planner: Planner, before: World, step: Step) {
    var d := Decided(planner, before, step);
    d.Some? && IsQualitySwitch(d.value) && step.env.applied.Some?
  }

  /** The step's pass found the node to be the optimization candidate under the policy of that pass. */
  predicate Supports(planner: Planner, before: World, step: Step, id: string) {
    var d := Decided(planner, before, step);
    d.Some? && IsCandidateOf(d.value, id, step.snap.settings.policy)
  }

  // ----- What a commit stores -----

  /** Nothing of the last switch, the tracker and the health is changed. */
  predicate Copies(p: AutoState, s: AutoState) {
    p.lastSwitchAt == s.lastSwitchAt && SameTracker(p, s) && p.health == s.health
  }

  predicate SameTracker(a: AutoState, b: AutoState) {
    a.trackerId == b.trackerId && a.trackerWins == b.trackerWins
  }

  lemma SaveCopies(w: World, s: AutoState, plan: Plan, env: Env)
    requires env.saves
    ensures Copies(SaveWithScope(w, s, plan, env).persisted, s)
    ensures IsKeyed(s.health) ==> IsKeyedWorld(SaveWithScope(w, s, plan, env))
    ensures Copies(Save(w, s, env.saves, env.committedAt).persisted, s)
    ensures IsKeyed(s.health) ==> IsKeyedWorld(Save(w, s, env.saves, env.committedAt))
  {
  }

  lemma NotingCopies(w: World, snap: Snapshot, plan: Plan, next: AutoState, env: Env)
    ensures Copies(Noting(w, snap, plan, next, env).persisted, w.persisted)
    ensures IsKeyedWorld(w) && IsKeyed(next.health) ==> IsKeyedWorld(Noting(w, snap, plan, next, env))
  {
  }

  /** The commit leaves one of these states in the store, or what a call left. */
  ghost predicate Stores(p: AutoState, w: World, snap: Snapshot, plan: Plan, env: Env) {
    var d := plan.decision;
    || Copies(p, w.persisted)
    || (p.health == d.health && p.lastSwitchAt == snap.state.lastSwitchAt
        && (SameTracker(p, snap.state)
            || (!EffectiveTransport(snap.state).Zapret? && p.trackerId == d.trackerId &&
                p.trackerWins == d.trackerWins)))
    || (env.marked.Some? && p.health == d.health && p.lastSwitchAt == env.marked.value.lastSwitchAt
        && SameTracker(p, env.marked.value))
    || (env.applied.Some? && p.health == d.health && p.trackerWins == 0
        && p.lastSwitchAt == if d.switch then env.committedAt else env.applied.value.lastSwitchAt)
  }

  ghost predicate StoresOrLeaves(after: World, w: World, snap: Snapshot, plan: Plan, env: Env) {
    || after == env.left
    || (Stores(after.persisted, w, snap, plan, env)
        && (IsKeyedWorld(w) && IsKeyed(plan.decision.health) ==> IsKeyedWorld(after)))
  }

  lemma ApplyingStores(w: World, snap: Snapshot, before: AutoState, plan: Plan, subscription: string, env: Env)
    requires env.saves
    ensures StoresOrLeaves(Applying(w, before, plan, subscription, env), w, snap, plan, env)
  {
    if env.applied.Some? {
      SaveCopies(w, Recorded(env.applied.value, before, plan, subscription, env.committedAt), plan, env);
    }
  }

  lemma GivingUpStores(w: World, snap: Snapshot, plan: Plan, env: Env)
    requires env.saves
    ensures StoresOrLeaves(GivingUp(w, snap, plan, env), w, snap, plan, env)
  {
    var d := plan.decision;
    SaveCopies(w, snap.state.(health := d.health, connected := false, failureReason := Some(d.reason)), plan, env);
    SaveCopies(w, GivenUp(Scoped(snap.state, plan.all), plan), plan, env);
    if env.marked.Some? { SaveCopies(w, GivenUp(env.marked.value, plan), plan, env); }
  }

  lemma AskingStores(w: World, snap: Snapshot, plan: Plan, next: AutoState, env: Env)
    requires env.saves && Asked(snap, plan, env) == Some(next)
    ensures StoresOrLeaves(Persisting(w, snap, plan, next, env), w, snap, plan, env)
    ensures StoresOrLeaves(Noting(w, snap, plan, next, env), w, snap, plan, env)
  {
    SaveCopies(w, next, plan, env);
    NotingCopies(w, snap, plan, next, env);
  }

  lemma CommitStores(w: World, snap: Snapshot, plan: Plan, env: Env)
    requires env.saves
    ensures StoresOrLeaves(Committed(w, snap, plan, env), w, snap, plan, env)
  {
    var next := Asked(snap, plan, env);
    if next.Some? {
      AskingStores(w, snap, plan, next.value, env);
    } else {
      ApplyingStores(w, snap, ZapretState(snap.state, plan), plan, ZapretTarget(plan), env);
      ApplyingStores(w, snap, snap.state, plan, plan.decision.owner.id, env);
      GivingUpStores(w, snap, plan, env);
    }
  }

  lemma QualitySwitchStores(w: World, snap: Snapshot, plan: Plan, env: Env)
    requires env.saves && env.applied.Some? && IsQualitySwitch(plan.decision) && !EffectiveTransport(snap.state).Zapret?
    ensures Committed(w, snap, plan, env).persisted.lastSwitchAt == env.committedAt
  {
    SaveCopies(w, Recorded(env.applied.value, snap.state, plan, plan.decision.owner.id, env.committedAt), plan, env);
  }

  // ----- Cooldown -----

  /** A pass moves the last switch forward only to its own time, and sets it there when it switches for quality. */
  lemma StepMovesLastSwitch(planner: Planner, before: World, step: Step, after: World)
    requires IsStep(planner, before, step, after) && before.persisted.lastSwitchAt <= step.at
    ensures before.persisted.lastSwitchAt <= after.persisted.lastSwitchAt <= step.at
    ensures SwitchesForQuality(planner, before, step) ==> after.persisted.lastSwitchAt == step.at
  {
    if step.Pass? && RunsAutomatically(step.snap.state) && planner(step.snap, step.env).Some? &&
       IsCurrent(step.snap, before) {
      var plan := planner(step.snap, step.env).value;
      assert step.snap.state.lastSwitchAt == before.persisted.lastSwitchAt;
      CommitStores(before, step.snap, plan, step.env);
      if SwitchesForQuality(planner, before, step) { QualitySwitchStores(before, step.snap, plan, step.env); }
    }
  }

  lemma RunMovesLastSwitch(planner: Planner, run: Run, k: nat)
    requires IsRun(planner, run) && k < |run.steps| && run.worlds[k].persisted.lastSwitchAt <= run.steps[k].at
    ensures run.worlds[k].persisted.lastSwitchAt <= run.worlds[k + 1].persisted.lastSwitchAt <= run.steps[k].at
    ensures SwitchesForQuality(planner, run.worlds[k], run.steps[k]) ==>
              run.worlds[k + 1].persisted.lastSwitchAt == run.steps[k].at
  {
    StepMovesLastSwitch(planner, run.worlds[k], run.steps[k], run.worlds[k + 1]);
  }

  lemma RunIsTimed(planner: Planner, run: Run, i: nat, j: nat)
    requires IsRun(planner, run) && i <= j < |run.steps|
    ensures run.worlds[0].persisted.lastSwitchAt <= run.steps[i].at <= run.steps[j].at
  {
  }

  lemma {:induction false} LastSwitchBounded(planner: Planner, run: Run, k: nat)
    requires IsRun(planner, run) && k < |run.steps|
    ensures run.worlds[k].persisted.lastSwitchAt <= run.steps[k].at
  {
    if k == 0 {
      RunIsTimed(planner, run, 0, 0);
    } else {
      LastSwitchBounded(planner, run, k - 1);
      RunMovesLastSwitch(planner, run, k - 1);
      RunIsTimed(planner, run, k - 1, k);
    }
  }

  lemma {:induction false} LastSwitchStays(planner: Planner, run: Run, i: nat, k: nat)
    requires IsRun(planner, run) && i < k < |run.worlds|
    requires SwitchesForQuality(planner, run.worlds[i], run.steps[i])
    ensures run.worlds[k].persisted.lastSwitchAt >= run.steps[i].at
  {
    LastSwitchBounded(planner, run, k - 1);
    RunMovesLastSwitch(planner, run, k - 1);
    if i < k - 1 { LastSwitchStays(planner, run, i, k - 1); }
  }

  /** Over any run, two switches for quality are at least the cooldown apart that is in force at the second. */
  lemma SwitchesAreCooldownApart(planner: Planner, run: Run, i: nat, j: nat)
    requires FollowsPolicy(planner) && IsRun(planner, run) && i < j < |run.steps|
    requires SwitchesForQuality(planner, run.worlds[i], run.steps[i])
    requires SwitchesForQuality(planner, run.worlds[j], run.steps[j])
    ensures run.steps[j].at - run.steps[i].at >= run.steps[j].snap.settings.policy.cooldown
  {
    LastSwitchStays(planner, run, i, j);
    var step := run.steps[j];
    assert step.snap.state.lastSwitchAt == run.worlds[j].persisted.lastSwitchAt;
    assert Follows(planner(step.snap, step.env).value.decision, step.snap.state, step.snap.settings.policy,
                   step.env.evaluatedAt);
  }

  // ----- Wins -----

  /** The passes, since the stored tracker last was another one or empty, whose optimization candidate was the node. */
  function Wins(planner: Planner, run: Run, n: nat, id: string): nat
    requires n < |run.worlds| && |run.worlds| == |run.steps| + 1
  {
    if n == 0 || run.worlds[n].persisted.trackerId != id || run.worlds[n].persisted.trackerWins <= 0 then 0
    else Wins(planner, run, n - 1, id) + if Supports(planner, run.worlds[n - 1], run.steps[n - 1], id) then 1 else 0
  }

  // The state a current snapshot shows is keyed if the world is.
  lemma CapturedIsKeyed(w: World)
    requires IsKeyedWorld(w)
    ensures IsKeyed(Captured(w).state.health)
  {
  }

  lemma StepIsKeyed(planner: Planner, before: World, step: Step, after: World)
    requires FollowsPolicy(planner) && IsStep(planner, before, step, after) && IsKeyedWorld(before)
    ensures IsKeyedWorld(after)
  {
    if step.Pass? && RunsAutomatically(step.snap.state) && planner(step.snap, step.env).Some? &&
       IsCurrent(step.snap, before) {
      var plan := planner(step.snap, step.env).value;
      CapturedIsKeyed(before);
      assert Follows(plan.decision, step.snap.state, step.snap.settings.policy, step.env.evaluatedAt);
      CommitStores(before, step.snap, plan, step.env);
    }
  }

  lemma {:induction false} RunIsKeyed(planner: Planner, run: Run, n: nat)
    requires FollowsPolicy(planner) && IsRun(planner, run) && n < |run.worlds|
    ensures IsKeyedWorld(run.worlds[n])
  {
    if n > 0 {
      RunIsKeyed(planner, run, n - 1);
      StepIsKeyed(planner, run.worlds[n - 1], run.steps[n - 1], run.worlds[n]);
    }
  }

  /** The stored tracker is as it was, or counts the candidate of the step once or once more. */
  predicate TrackerMoves(before: AutoState, after: AutoState, supported: bool) {
    || SameTracker(after, before)
    || (supported && (after.trackerWins == 1
                      || (after.trackerId == before.trackerId && after.trackerWins == before.trackerWins + 1)))
  }

  lemma StepMovesTracker(planner: Planner, before: World, step: Step, after: World)
    requires FollowsPolicy(planner) && IsStep(planner, before, step, after) && IsKeyedWorld(before)
    requires after.persisted.trackerWins > 0
    ensures TrackerMoves(before.persisted, after.persisted,
                         Supports(planner, before, step, after.persisted.trackerId))
  {
    if step.Pass? && RunsAutomatically(step.snap.state) && planner(step.snap, step.env).Some? &&
       IsCurrent(step.snap, before) {
      assert SameTracker(step.snap.state, before.persisted);
      var plan := planner(step.snap, step.env).value;
      CommitStores(before, step.snap, plan, step.env);
      CapturedIsKeyed(before);
      assert Follows(plan.decision, step.snap.state, step.snap.settings.policy, step.env.evaluatedAt);
    }
  }

  lemma RunMovesTracker(planner: Planner, run: Run, n: nat)
    requires FollowsPolicy(planner) && IsRun(planner, run) && 0 < n < |run.worlds|
    requires run.worlds[n].persisted.trackerWins > 0
    ensures TrackerMoves(run.worlds[n - 1].persisted, run.worlds[n].persisted,
                         Supports(planner, run.worlds[n - 1], run.steps[n - 1], run.worlds[n].persisted.trackerId))
  {
    RunIsKeyed(planner, run, n - 1);
    StepMovesTracker(planner, run.worlds[n - 1], run.steps[n - 1], run.worlds[n]);
  }

  /** The stored count never exceeds the number of passes that were won. */
  lemma {:induction false} StoredWinsAreReal(planner: Planner, run: Run, n: nat)
    requires FollowsPolicy(planner) && IsRun(planner, run) && n < |run.worlds|
    ensures run.worlds[n].persisted.trackerWins <= Wins(planner, run, n, run.worlds[n].persisted.trackerId)
  {
    if n > 0 && run.worlds[n].persisted.trackerWins > 0 {
      StoredWinsAreReal(planner, run, n - 1);
      RunMovesTracker(planner, run, n);
    }
  }

  /** Over any run, the node a switch for quality moves to was the optimization candidate of at least as many
      passes as the policy demands, the switching one included. */
  lemma SwitchesAreConfirmed(planner: Planner, run: Run, j: nat)
    requires FollowsPolicy(planner) && IsRun(planner, run) && j < |run.steps|
    requires SwitchesForQuality(planner, run.worlds[j], run.steps[j])
    ensures var d := Decided(planner, run.worlds[j], run.steps[j]).value;
            var required := run.steps[j].snap.settings.policy.requiredWins;
            && Wins(planner, run, j, d.selected.id) + 1 >= required
            && (required > 0 ==> Supports(planner, run.worlds[j], run.steps[j], d.selected.id))
  {
    StoredWinsAreReal(planner, run, j);
    RunIsKeyed(planner, run, j);
    CapturedIsKeyed(run.worlds[j]);
    var step := run.steps[j];
    assert Follows(planner(step.snap, step.env).value.decision, step.snap.state, step.snap.settings.policy,
                   step.env.evaluatedAt);
    assert step.snap.state.trackerId == run.worlds[j].persisted.trackerId &&
           step.snap.state.trackerWins == run.worlds[j].persisted.trackerWins;
  }

  // ----- The program's own evaluation -----

  lemma PlannedSwitchesAreCooldownApart(run: Run, i: nat, j: nat)
    requires IsRun(Planned, run) && i < j < |run.steps|
    requires SwitchesForQuality(Planned, run.worlds[i], run.steps[i])
    requires SwitchesForQuality(Planned, run.worlds[j], run.steps[j])
    ensures run.steps[j].at - run.steps[i].at >= run.steps[j].snap.settings.policy.cooldown
  {
    PlannedFollowsPolicy();
    SwitchesAreCooldownApart(Planned, run, i, j);
  }

  lemma PlannedSwitchesAreConfirmed(run: Run, j: nat)
    requires IsRun(Planned, run) && j < |run.steps|
    requires SwitchesForQuality(Planned, run.worlds[j], run.steps[j])
    ensures var d := Decided(Planned, run.worlds[j], run.steps[j]).value;
            var required := run.steps[j].snap.settings.policy.requiredWins;
            && Wins(Planned, run, j, d.selected.id) + 1 >= required
            && (required > 0 ==> Supports(Planned, run.worlds[j], run.steps[j], d.selected.id))
  {
    PlannedFollowsPolicy();
    SwitchesAreConfirmed(Planned, run, j);
  }

  /** A store that forgets the tracker whenever it is read lets no pass switch for quality under a policy
      that demands two wins or more. */
  lemma ForgottenTrackerNeverSwitches(snap: Snapshot, env: Env)
    requires snap.state.trackerId == "" && snap.state.trackerWins == 0 && snap.settings.policy.requiredWins > 1
    ensures Planned(snap, env).Some? ==> !IsQualitySwitch(Planned(snap, env).value.decision)
  {
    PlannedFollowsPolicy();
    if Planned(snap, env).Some? {
      assert Follows(Planned(snap, env).value.decision, snap.state, snap.settings.policy, env.evaluatedAt);
    }
  }
}
