/** The state an automatic commit writes when no candidate is left. It is the one from before the probes, so
    what the failed attempts recorded of the managed backend is lost. */
module AutoFallback {
  import opened Wrappers
  import opened Subscriptions
  import opened AutoSelection
  import opened AutoCommit
  import OutboundSwitch

  type Runtime = OutboundSwitch.RuntimeState
  type Tag = OutboundSwitch.Tag

  // ----- What one failed switch loses by it -----

  /** The failed switch got as far as recording something: its intent, or the pause of a rejected candidate. */
  predicate LeavesTrace(s: Runtime, live: Tag, lookup: OutboundSwitch.Lookup, current: Tag, candidate: Tag,
                        skipProbe: bool, now: int, w: OutboundSwitch.World)
  {
    && w.reload && OutboundSwitch.Pinned(s, live, lookup, w)
    && (OutboundSwitch.Intends(s, current, candidate, skipProbe, now, w)
        || (OutboundSwitch.Rejects(s, current, candidate, skipProbe, now, w) && w.saveBackoff))
  }

  /** Writing the connection back changes nothing. */
  predicate IsPlain(s: Runtime) {
    && s.connected && s.transport == OutboundSwitch.EffectiveTransport(s) && s.operation == None
    && s.mode != OutboundSwitch.Recovering
  }

  predicate SameRecords(a: Runtime, b: Runtime) {
    a.generation == b.generation && a.outbounds == b.outbounds && a.backoff == b.backoff
  }

  lemma TraceShows(s: Runtime, live: Tag, lookup: OutboundSwitch.Lookup, current: Tag, candidate: Tag,
                   subscription: string, node: string, skipProbe: bool, now: int, w: OutboundSwitch.World)
    requires !OutboundSwitch.Reaches(s, live, lookup, current, candidate, skipProbe, now, w) && w.reload
    ensures var latest := OutboundSwitch.Switched(s, live, lookup, current, candidate, subscription, node, skipProbe,
                                                  now, w);
            SameRecords(latest, s) <==> !LeavesTrace(s, live, lookup, current, candidate, skipProbe, now, w)
  {
    if OutboundSwitch.Rejects(s, current, candidate, skipProbe, now, w) && w.saveBackoff {
      var paused := OutboundSwitch.Paused(s, candidate, now, w);
      assert candidate in s.backoff ==> paused.backoff[candidate].failures == s.backoff[candidate].failures + 1;
      assert candidate in paused.backoff;
    }
  }

  /** What the fallback writes, seen as the outbound switch sees it. */
  lemma FallbackRuntime(prepared: Prepared, d: Decision)
    ensures var s, fallback := RuntimeOf(prepared.state), RuntimeOf(FallbackState(prepared, d));
            && fallback == s.(subscription := fallback.subscription, chosen := OutboundSwitch.Auto)
            && RuntimeOf(Saved(FallbackState(prepared, d))) == OutboundSwitch.Stamped(fallback)
  {
  }

  lemma SelectionTrace(s: Runtime, live: Tag, lookup: OutboundSwitch.Lookup, current: Tag, candidate: Tag,
                       subscription: string, node: string, chosen: OutboundSwitch.SelectionMode, skipProbe: bool,
                       now: int, w: OutboundSwitch.World)
    requires OutboundSwitch.Handled(s, live, lookup, w) && w.savePreserved
    requires !OutboundSwitch.Reaches(s, live, lookup, current, candidate, skipProbe, now, w)
    ensures SameRecords(OutboundSwitch.SelectionState(s, live, lookup, current, candidate, subscription, node, chosen,
                                                      skipProbe, now, w), s) <==>
              !LeavesTrace(s, live, lookup, current, candidate, skipProbe, now, w)
  {
    if w.reload { TraceShows(s, live, lookup, current, candidate, subscription, node, skipProbe, now, w); }
  }

  /** Writing over `s` rather than over what the failed switch left stores something else exactly when the
      records differ or the switch found a connection to put right. */
  lemma RestoredMatters(s: Runtime, latest: Runtime, active: string)
    requires OutboundSwitch.Restored(latest, s)
    ensures OutboundSwitch.Stamped(s.(subscription := active, chosen := OutboundSwitch.Auto)) ==
            OutboundSwitch.Stamped(latest.(subscription := active, chosen := OutboundSwitch.Auto)) <==>
              SameRecords(latest, s) && IsPlain(s)
  {
  }

  /** A handled switch that fails as the last candidate of an automatic commit: the state then written is the
      one its result would give exactly when it left no trace and its connection needed no putting right. */
  lemma FallbackForgetsExactly(prepared: Prepared, d: Decision, live: Tag, lookup: OutboundSwitch.Lookup, current: Tag,
                               candidate: Tag, subscription: string, node: string, skipProbe: bool, now: int,
                               w: OutboundSwitch.World)
    requires OutboundSwitch.Handled(RuntimeOf(prepared.state), live, lookup, w) && w.savePreserved
    requires !OutboundSwitch.Reaches(RuntimeOf(prepared.state), live, lookup, current, candidate, skipProbe, now, w)
    ensures var s := RuntimeOf(prepared.state);
            var latest := OutboundSwitch.SelectionState(s, live, lookup, current, candidate, subscription, node,
                                                        OutboundSwitch.Auto, skipProbe, now, w);
            Saved(FallbackState(prepared, d)) ==
            Saved(FallbackState(prepared.(state := WithRuntime(prepared.state, latest)), d)) <==>
              !LeavesTrace(s, live, lookup, current, candidate, skipProbe, now, w) && IsPlain(s)
  {
    var s := RuntimeOf(prepared.state);
    var latest := OutboundSwitch.SelectionState(s, live, lookup, current, candidate, subscription, node,
                                                OutboundSwitch.Auto, skipProbe, now, w);
    OutboundSwitch.FailedSelection(s, live, lookup, current, candidate, subscription, node, OutboundSwitch.Auto,
                                   skipProbe, now, w);
    SelectionTrace(s, live, lookup, current, candidate, subscription, node, OutboundSwitch.Auto, skipProbe, now, w);
    RestoredMatters(s, latest, FallbackState(prepared, d).subscription);
    FallbackDiffers(prepared, d, latest);
  }

  lemma FallbackDiffers(prepared: Prepared, d: Decision, latest: Runtime)
    requires latest.subscription == prepared.state.subscription
    ensures var s, active := RuntimeOf(prepared.state), FallbackState(prepared, d).subscription;
            Saved(FallbackState(prepared, d)) ==
            Saved(FallbackState(prepared.(state := WithRuntime(prepared.state, latest)), d)) <==>
              OutboundSwitch.Stamped(s.(subscription := active, chosen := OutboundSwitch.Auto)) ==
              OutboundSwitch.Stamped(latest.(subscription := active, chosen := OutboundSwitch.Auto))
  {
    var after := prepared.(state := WithRuntime(prepared.state, latest));
    FallbackRuntime(prepared, d);
    FallbackRuntime(after, d);
    var a, b := Saved(FallbackState(prepared, d)), Saved(FallbackState(after, d));
    assert RuntimeOf(a) == RuntimeOf(b) ==> a == b;
  }

  // ----- A run that loses the entry of a handler -----

  /** The only node of the subscription is the decision, and may be tried. */
  ghost predicate DecidesOnOnlyNode(prepared: Prepared, node: Node, now: int) {
    && prepared.scope.One? && prepared.scope.sub.nodes == [node]
    && prepared.decision.healthy && IsSettled([prepared.scope.sub], prepared.decision)
    && !IsExpired(prepared.scope.sub, now) && RuleOf(prepared.settings)(prepared.scope.sub.id, node)
  }

  lemma OnlyNodeIsCounted(sub: Subscription, node: Node, rule: Rule, now: int)
    requires sub.nodes == [node] && !IsExpired(sub, now) && rule(sub.id, node)
    ensures CountSelectable([sub], rule, now) == 1
  {
    assert node in sub.nodes && Selectable(sub, rule, now) != [];
    assert [sub][..0] == [];
  }

  lemma OnlyNodeLeavesNone(step: Stepper, prepared: Prepared, node: Node, attempts: seq<Attempt>, now: int)
    requires |attempts| == MAX_ATTEMPTS && DecidesOnOnlyNode(prepared, node, now) && AreKeyed(attempts)
    requires !attempts[0].cancelledBefore && Met(attempts[0]).Rejected?
    requires KeepsCourse(step, Subs(prepared.scope)) && IsKeyed(prepared.decision.health)
    ensures var start := Point(prepared.settings, prepared.decision);
            && Outcome(step, start, attempts, 0, 1) == (Rejected, 1)
            && !Course(step, start, attempts, 1).decision.healthy
  {
    var start := Point(prepared.settings, prepared.decision);
    CourseHolds(step, Subs(prepared.scope), start, attempts, 1);
    var tried := Tried(step, start, attempts, 1);
    assert tried == [PairOf(prepared.decision)] by { assert Tried(step, start, attempts, 0) == []; }
    assert Course(step, start, attempts, 0) == start;
  }

  /** Once the only node is rejected, the commit ends with the fallback state. */
  method RejectOnlyNode(prepared: Prepared, node: Node, attempts: seq<Attempt>, now: int)
    returns (fallback: AutoState, d: Decision)
    requires |attempts| == MAX_ATTEMPTS && IsRegular(prepared, attempts) && DecidesOnOnlyNode(prepared, node, now)
    requires !attempts[0].cancelledBefore && Met(attempts[0]).Rejected?
    ensures fallback == FallbackState(prepared, d)
  {
    var ending, exit, tried, point := CommitPreparedAutoSelection(prepared, attempts, now);
    StepperKeepsCourse(prepared.scope);
    OnlyNodeIsCounted(prepared.scope.sub, node, RuleOf(prepared.settings), now);
    OnlyNodeLeavesNone(StepperFor(prepared.scope), prepared, node, attempts, now);
    fallback, d := ending.fallback, point.decision;
  }

  /** The switch saves its intent and selects the candidate, and the route then fails its check, which is a
      failure of the candidate. */
  predicate FailsEgress(s: Runtime, live: Tag, lookup: OutboundSwitch.Lookup, current: Tag, candidate: Tag,
                        skipProbe: bool, now: int, w: OutboundSwitch.World)
  {
    && OutboundSwitch.Pinned(s, live, lookup, w) && OutboundSwitch.Intends(s, current, candidate, skipProbe, now, w)
    && w.select && !w.egress && w.savePreserved && w.reload
  }

  /** After a rejected switch the store lists the candidate, which has a handler. */
  lemma EgressFailureLists(s: Runtime, live: Tag, lookup: OutboundSwitch.Lookup, current: Tag, candidate: Tag,
                           subscription: string, node: string, chosen: OutboundSwitch.SelectionMode, skipProbe: bool,
                           now: int, w: OutboundSwitch.World, handlers: set<Tag>)
    requires FailsEgress(s, live, lookup, current, candidate, skipProbe, now, w)
    ensures var after := OutboundSwitch.SelectionState(s, live, lookup, current, candidate, subscription, node, chosen,
                                                       skipProbe, now, w);
            OutboundSwitch.HasReserve(after.outbounds, candidate) && after.generation == s.generation + 1
    ensures candidate in OutboundSwitch.SelectionHandlers(s, live, lookup, current, candidate, skipProbe, now, w,
                                                          handlers)
  {
    var outbounds := if current == OutboundSwitch.Direct then s.outbounds
                     else OutboundSwitch.WithOutbound(s.outbounds,
                                                      OutboundSwitch.Entry(current, s.subscription, s.node,
                                                                           OutboundSwitch.Active));
    OutboundSwitch.WithOutboundListed(outbounds,
                                      OutboundSwitch.Entry(candidate, subscription, node, OutboundSwitch.Reserve).(
                                        verifiedAt := Some(now)));
  }

  /** An automatic commit over a managed backend: its only candidate is switched to and fails the check of the
      route, and the fallback is saved. `reloaded` is the store after the switch, which lists the candidate
      under a new generation; the fallback brings list, generation and pauses back to those of the snapshot,
      while the candidate's handler stays. */
  method RejectedSwitchIsForgotten(router: OutboundSwitch.Router, prepared: Prepared, node: Node,
                                   lookup: OutboundSwitch.Lookup, skipProbe: bool, now: int, w: OutboundSwitch.World)
    returns (reloaded: AutoState, fallback: AutoState)
    requires OutboundSwitch.Backed(router.Now()) && router.persisted == RuntimeOf(prepared.state)
    requires DecidesOnOnlyNode(prepared, node, now) && AllAddressable([prepared.scope.sub])
    requires IsKeyed(prepared.state.health) && IsKeyed(prepared.decision.health)
    requires FailsEgress(router.persisted, router.live, lookup,
                         OutboundSwitch.PinnedTag(router.persisted, lookup, router.tagOf),
                         OutboundSwitch.Node(router.tagOf(prepared.scope.sub.id, node.id)), skipProbe, now, w)
    modifies router
    ensures var candidate := OutboundSwitch.Node(router.tagOf(prepared.scope.sub.id, node.id));
            && OutboundSwitch.HasReserve(reloaded.managed.outbounds, candidate) && candidate in router.handlers
            && reloaded.managed.generation == old(router.persisted).generation + 1
    ensures router.persisted == RuntimeOf(Saved(fallback))
    ensures router.persisted.outbounds == old(router.persisted).outbounds
    ensures router.persisted.generation == old(router.persisted).generation
    ensures router.persisted.backoff == old(router.persisted).backoff
  {
    var sub := prepared.scope.sub;
    ghost var before, live, handlers := router.persisted, router.live, router.handlers;
    ghost var current := OutboundSwitch.PinnedTag(before, lookup, router.tagOf);
    var r := router.ApplyNodeSelection(lookup, sub.id, node.id, OutboundSwitch.Auto, skipProbe, now, w);
    EgressFailureLists(before, live, lookup, current, OutboundSwitch.Node(router.tagOf(sub.id, node.id)), sub.id,
                       node.id, OutboundSwitch.Auto, skipProbe, now, w, handlers);
    reloaded := WithRuntime(prepared.state, router.persisted);
    var rejected := Attempt(false, CandidateRejected, false, Some(reloaded), now);
    var d;
    fallback, d := RejectOnlyNode(prepared, node, [rejected, rejected, rejected], now);
    FallbackRuntime(prepared, d);
    router.Save(RuntimeOf(fallback), true);
  }
}
