/** Health checks over all subscriptions while the Zapret transport stands in. A pass that only remembers its
    observations saves the scope right after, which puts what the store held back into the cache. */
module AutoZapret {
  import opened Wrappers
  import opened ProbeHealth
  import AntiFlap
  import opened Subscriptions
  import opened NodeSelection
  import opened AutoSelection
  import opened AutoCommit
  import opened AutoHealth

  // ----- One pass -----

  /** The pass is over all subscriptions, on the Zapret transport, stays there and only remembers. */
  predicate IsQuiet(planner: Planner, w: World, env: Env) {
    var snap := Captured(w);
    && RunsAutomatically(snap.state) && EffectiveTransport(snap.state).Zapret? && planner(snap, env).Some?
    && var plan := planner(snap, env).value;
       && plan.all && !(plan.decision.healthy && env.failsBack) && env.savesScope
       && !ShouldPersist(w.cache, w.persisted, ZapretState(snap.state, plan), env.committedAt)
  }

  /** What a quiet pass leaves: the state that was stored, under scope "all", in the store and in the cache. */
  function Reset(w: World, now: int): World {
    var s := w.persisted.(scope := "all");
    w.(persisted := Saved(s), cache := Some(Cache(KeyOf(s), s.health, s.failureReason, Some(now))))
  }

  /** A quiet pass loses its own observations and every one the cache held. */
  lemma QuietPassResets(planner: Planner, w: World, env: Env)
    requires IsQuiet(planner, w, env)
    ensures Atomic(planner, w, env) == Reset(w, env.committedAt)
  {
  }

  lemma ResetShowsStored(w: World, now: int)
    ensures Captured(Reset(w, now)).state == Saved(w.persisted.(scope := "all"))
  {
    SelfMergeKeeps(w.persisted.health);
  }

  /** The reset also restarts the time after which observations must be saved: after a quiet pass the next
      one is quiet exactly if it also stays, comes within that time and finds a failure reason stored. */
  lemma QuietPassRepeats(planner: Planner, w: World, env: Env, next: Env)
    requires IsQuiet(planner, w, env)
    ensures var after := Reset(w, env.committedAt);
            var plan := planner(Captured(after), next);
            IsQuiet(planner, after, next) <==>
              && plan.Some? && plan.value.all && !(plan.value.decision.healthy && next.failsBack) && next.savesScope
              && next.committedAt - env.committedAt < PERSIST_INTERVAL && w.persisted.failureReason.Some?
  {
    ResetShowsStored(w, env.committedAt);
    assert KeyOf(Reset(w, env.committedAt).persisted) == KeyOf(w.persisted.(scope := "all"));
  }

  // ----- Runs of passes -----

  ghost predicate IsQuietRun(planner: Planner, worlds: seq<World>, envs: seq<Env>) {
    && |worlds| == |envs| + 1
    && forall i {:trigger envs[i]} :: 0 <= i < |envs| ==>
         IsQuiet(planner, worlds[i], envs[i]) && worlds[i + 1] == Atomic(planner, worlds[i], envs[i])
  }

  /** However many passes such a run has, the stored health never changes, and from the second pass on every
      one of them starts from it. */
  lemma {:induction false} QuietRunLearnsNothing(planner: Planner, worlds: seq<World>, envs: seq<Env>, k: nat)
    requires IsQuietRun(planner, worlds, envs) && k < |worlds|
    ensures worlds[k].persisted.health == worlds[0].persisted.health
    ensures k > 0 ==> Captured(worlds[k]).state.health == worlds[0].persisted.health
  {
    if k > 0 {
      QuietRunLearnsNothing(planner, worlds, envs, k - 1);
      assert IsQuiet(planner, worlds[k - 1], envs[k - 1]);
      QuietPassResets(planner, worlds[k - 1], envs[k - 1]);
      ResetShowsStored(worlds[k - 1], envs[k - 1].committedAt);
    }
  }

  // ----- So the transport is never left -----

  function Successes(results: seq<(string, Probe)>, id: string): nat {
    if results == [] then 0
    else
      var last := results[|results| - 1];
      Successes(results[..|results| - 1], id) + if last.0 == id && last.1.success then 1 else 0
  }

  predicate GrowsBy(after: HealthMap, before: HealthMap, id: string, n: nat) {
    Lookup(after, id).successStreak <= Max(Lookup(before, id).successStreak, 0) + n
  }

  lemma ObservedStreak(h: NodeHealth, p: Probe)
    ensures Observed(h, p).successStreak == if p.success then h.successStreak + 1 else 0
  {
  }

  lemma {:induction false} ProbedGrows(health: HealthMap, results: seq<(string, Probe)>, threshold: int, id: string)
    ensures GrowsBy(Probed(health, results, threshold), health, id, Successes(results, id))
  {
    if results != [] {
      var front, last := results[..|results| - 1], results[|results| - 1];
      ProbedGrows(health, front, threshold, id);
      ObservedStreak(Lookup(Probed(health, front, threshold), last.0), last.1.(threshold := threshold));
    }
  }

  lemma MeasuredGrows(health: HealthMap, state: AutoState, current: string, p: Probing, threshold: int, now: int,
                      id: string)
    ensures GrowsBy(Measured(health, state, current, Some(p), threshold, now), health, id, Successes(p.results, id))
  {
    ProbedGrows(health, p.results, threshold, id);
  }

  lemma {:induction false} GatheredGrows(subs: seq<Subscription>, rule: Rule, policy: AntiFlap.SwitchPolicy,
                                         state: AutoState, current: string, now: int, health: HealthMap, id: string)
    ensures GrowsBy(Gathered(subs, rule, policy, state, current, now, health).health, health, id, 0)
  {
    if subs != [] { GatheredGrows(subs[..|subs| - 1], rule, policy, state, current, now, health, id); }
  }

  /** One evaluation adds at most its own successes to a streak. */
  lemma EvaluationGrows(subs: seq<Subscription>, rule: Rule, policy: AntiFlap.SwitchPolicy, state: AutoState,
                        p: Probing, now: int, id: string)
    ensures GrowsBy(EvaluateAll(subs, rule, policy, state, Some(p), now).health, state.health, id,
                    Successes(p.results, id))
  {
    var current, start := CurrentAnywhere(state), HealthFor(state.health, subs);
    var pool := Gathered(subs, rule, policy, state, current, now, start);
    GatheredGrows(subs, rule, policy, state, current, now, start, id);
    MeasuredGrows(pool.health, state, current, p, policy.failureThreshold, now, id);
  }

  /** Failing back takes a candidate with a streak of `threshold` successes. A node that lacks more of them
      than one pass can add never gets there in a run that is quiet from the start. */
  lemma StreakNeverReached(worlds: seq<World>, envs: seq<Env>, k: nat, env: Env, id: string, threshold: int)
    requires IsQuietRun(Planned, worlds, envs) && 0 < k < |worlds|
    requires Max(Lookup(worlds[0].persisted.health, id).successStreak, 0) + Successes(env.probing.results,
        id) < threshold
    ensures var plan := Planned(Captured(worlds[k]), env);
            plan.Some? && plan.value.all ==> Lookup(plan.value.decision.health, id).successStreak < threshold
  {
    var snap := Captured(worlds[k]);
    QuietRunLearnsNothing(Planned, worlds, envs, k);
    EvaluationGrows(snap.subs, RuleOf(snap.settings), snap.settings.policy, snap.state, env.probing, env.evaluatedAt,
                    id);
  }
}
