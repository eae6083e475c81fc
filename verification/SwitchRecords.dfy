/** What the operations on the route write into the store, entry by entry and field by field. */
module SwitchRecords {
  import opened Wrappers
  import opened Text
  import opened OutboundSwitch

  /** The listed entries of a tag, in order. */
  function EntriesOf(outbounds: seq<Outbound>, tag: Tag): seq<Outbound> {
    if outbounds == [] then []
    else if outbounds[0].tag == tag then [outbounds[0]] + EntriesOf(outbounds[1..], tag)
    else EntriesOf(outbounds[1..], tag)
  }

  lemma EntriesOfFront(first: Outbound, rest: seq<Outbound>, tag: Tag)
    ensures EntriesOf([first] + rest, tag) ==
              if first.tag == tag then [first] + EntriesOf(rest, tag) else EntriesOf(rest, tag)
  {
    assert ([first] + rest)[1..] == rest;
  }

  /** A tag's entries with the first one made anew; what is left blank or unset stays as it was. */
  function Renewed(entries: seq<Outbound>, o: Outbound): seq<Outbound> {
    if entries == [] then [o]
    else
      var first := entries[0];
      [Outbound(o.tag, if o.subscription == "" then first.subscription else o.subscription,
                if o.node == "" then first.node else o.node, o.role,
                if o.verifiedAt.None? then first.verifiedAt else o.verifiedAt, o.retireAfter, o.removeBy)]
      + entries[1..]
  }

  lemma RenewedTwice(entries: seq<Outbound>, o: Outbound, next: Outbound)
    requires o.tag == next.tag && o.subscription == next.subscription && o.node == next.node
    requires o.verifiedAt == next.verifiedAt
    ensures Renewed(Renewed(entries, o), next) == Renewed(entries, next)
  {
    if entries != [] {
      var r := Renewed(entries, o);
      assert r[1..] == entries[1..];
    }
  }

  /** Updating an outbound renews its tag's entries and leaves those of every other tag alone. */
  lemma {:induction false} UpdatedEntries(outbounds: seq<Outbound>, o: Outbound, tag: Tag)
    ensures EntriesOf(WithOutbound(outbounds, o), tag) ==
              if tag == o.tag then Renewed(EntriesOf(outbounds, tag), o) else EntriesOf(outbounds, tag)
  {
    if outbounds == [] {
      EntriesOfFront(o, [], tag);
    } else if outbounds[0].tag == o.tag {
      EntriesOfFront(Merged(outbounds[0], o), outbounds[1..], tag);
    } else {
      UpdatedEntries(outbounds[1..], o, tag);
      EntriesOfFront(outbounds[0], WithOutbound(outbounds[1..], o), tag);
    }
  }

  /** The intent lists the current node as active and the candidate as a reserve verified now. */
  lemma IntentEntries(s: RuntimeState, current: Tag, candidate: Tag, subscription: string, node: string, now: int,
                      tag: Tag)
    requires current != candidate
    ensures EntriesOf(SwitchIntent(s, current, candidate, subscription, node, now).outbounds, tag) ==
              var entries := EntriesOf(s.outbounds, tag);
              if tag == candidate
              then Renewed(entries, Outbound(tag, subscription, node, Reserve, Some(now), None, None))
              else if tag == current && tag != Direct
              then Renewed(entries, Outbound(tag, s.subscription, s.node, Active, None, None, None))
              else entries
  {
    var active := Entry(current, s.subscription, s.node, Active);
    var reserve := Entry(candidate, subscription, node, Reserve).(verifiedAt := Some(now));
    UpdatedEntries(s.outbounds, active, tag);
    UpdatedEntries(if current == Direct then s.outbounds else WithOutbound(s.outbounds, active), reserve, tag);
  }

  /** The switched state lists the current node as draining, for five minutes and at most half an hour, and the
      candidate as active. */
  lemma DoneEntries(s: RuntimeState, current: Tag, candidate: Tag, subscription: string, node: string, now: int,
                    tag: Tag)
    requires current != candidate
    ensures EntriesOf(SwitchDone(s, current, candidate, subscription, node, now).outbounds, tag) ==
              var entries := EntriesOf(s.outbounds, tag);
              if tag == candidate
              then Renewed(entries, Outbound(tag, subscription, node, Active, Some(now), None, None))
              else if tag == current && tag != Direct
              then Renewed(entries,
                           Outbound(tag, s.subscription, s.node, Draining, None, Some(now + 300), Some(now + 1800)))
              else entries
  {
    var intent := SwitchIntent(s, current, candidate, subscription, node, now);
    var draining := DrainingEntry(current, s.subscription, s.node, now);
    var active := Entry(candidate, subscription, node, Active).(verifiedAt := Some(now));
    IntentEntries(s, current, candidate, subscription, node, now, tag);
    UpdatedEntries(intent.outbounds, draining, tag);
    UpdatedEntries(if current == Direct then intent.outbounds else WithOutbound(intent.outbounds, draining), active,
                   tag);
    RenewedTwice(EntriesOf(s.outbounds, tag), Entry(candidate, subscription, node, Reserve).(verifiedAt := Some(now)),
                 active);
    RenewedTwice(EntriesOf(s.outbounds, tag), Entry(current, s.subscription, s.node, Active), draining);
  }

  // ----- Node selections -----

  lemma RecordedFields(latest: RuntimeState, s: RuntimeState, candidate: Tag, subscription: string, node: string,
                       chosen: SelectionMode, now: int, w: World)
    requires w.saveCommit && w.readCommitted
    ensures Concluded(latest, s, true, candidate, subscription, node, chosen, now, w) ==
              RuntimeState(Vpn, Some(candidate), if w.reload then latest.generation else s.generation, None,
                           WithOutbound(if w.reload then latest.outbounds else s.outbounds,
                                        Outbound(candidate, subscription, node, Active, Some(now), None, None)),
                           s.backoff, Xray, subscription, node, chosen, true, Proxy)
  {
  }

  lemma MovedFields(s: RuntimeState, current: Tag, candidate: Tag, subscription: string, node: string, skipProbe: bool,
                    now: int, w: World)
    requires Proceeds(s, current, candidate, skipProbe, now, w)
    ensures var after := Moved(s, current, candidate, subscription, node, skipProbe, now, w);
            if candidate == current then after == s
            else after.generation == s.generation + 1 &&
                 after.outbounds == SwitchDone(s, current, candidate, subscription, node, now).outbounds
  {
  }

  /** What a recorded selection leaves in the store. The route left is draining only if the store could be read
      again; the pauses of candidates are those from before the selection. */
  lemma RecordedSwitch(s: RuntimeState, live: Tag, lookup: Lookup, current: Tag, candidate: Tag, subscription: string,
                       node: string, chosen: SelectionMode, skipProbe: bool, now: int, w: World, tag: Tag)
    requires Reaches(s, live, lookup, current, candidate, skipProbe, now, w) && w.saveCommit && w.readCommitted
    ensures var after := SelectionState(s, live, lookup, current, candidate, subscription, node, chosen, skipProbe,
                                        now, w);
            var moved, entries := w.reload && candidate != current, EntriesOf(s.outbounds, tag);
            && after == RuntimeState(Vpn, Some(candidate), if moved then s.generation + 1 else s.generation, None,
                                     after.outbounds, s.backoff, Xray, subscription, node, chosen, true, Proxy)
            && EntriesOf(after.outbounds, tag) ==
                 if tag == candidate
                 then Renewed(entries, Outbound(tag, subscription, node, Active, Some(now), None, None))
                 else if moved && tag == current && tag != Direct
                 then Renewed(entries, Outbound(tag, s.subscription, s.node, Draining, None, Some(now + 300),
                                                Some(now + 1800)))
                 else entries
  {
    var latest := Moved(s, current, candidate, subscription, node, skipProbe, now, w);
    var active := Outbound(candidate, subscription, node, Active, Some(now), None, None);
    RecordedFields(latest, s, candidate, subscription, node, chosen, now, w);
    MovedFields(s, current, candidate, subscription, node, skipProbe, now, w);
    UpdatedEntries(if w.reload then latest.outbounds else s.outbounds, active, tag);
    RenewedTwice(EntriesOf(s.outbounds, tag), active, active);
    if candidate != current { DoneEntries(s, current, candidate, subscription, node, now, tag); }
  }

  /** The number of failures in a row, and the seconds a candidate is left alone after so many. */
  function FailuresOf(s: RuntimeState, candidate: Tag): nat {
    if candidate in s.backoff then s.backoff[candidate].failures else 0
  }

  function PauseAfter(failures: nat): int {
    match failures
    case 0 => 0
    case 1 => 300
    case 2 => 600
    case 3 => 1200
    case _ => 1800
  }

  lemma RestoredFields(latest: RuntimeState, s: RuntimeState, live: Tag, subscription: string, node: string,
                       chosen: SelectionMode, now: int, w: World)
    requires w.savePreserved && latest.selected == s.selected && latest.kind == s.kind
    ensures var from := if w.reload then latest else s;
            Concluded(latest, s, false, live, subscription, node, chosen, now, w) ==
              RuntimeState(if EffectiveTransport(s) == Proxy then Vpn else DirectMode, s.selected, from.generation,
                           None, from.outbounds, from.backoff, s.kind, s.subscription, s.node, s.chosen, true,
                           EffectiveTransport(s))
  {
  }

  /** What a failed attempt notes. */
  lemma AttemptedFields(s: RuntimeState, current: Tag, candidate: Tag, subscription: string, node: string,
                        skipProbe: bool, now: int, w: World)
    ensures var after := Attempted(s, current, candidate, subscription, node, skipProbe, now, w);
            var intended, rejected := Intends(s, current, candidate, skipProbe, now, w),
                                      Rejects(s, current, candidate, skipProbe, now, w);
            var failures := FailuresOf(s, candidate) + 1;
            && after.selected == s.selected && after.kind == s.kind && !(intended && rejected)
            && after.generation == (if intended then s.generation + 1 else s.generation)
            && after.backoff == (if rejected && w.saveBackoff
                                 then s.backoff[candidate := Backoff(failures, now + PauseAfter(failures))]
                                 else if intended then s.backoff - {candidate} else s.backoff)
            && after.outbounds == (if intended then SwitchIntent(s, current, candidate, subscription, node,
                                                                 now).outbounds else s.outbounds)
  {
  }

  /** The transport a state stands for. */
  function TransportOf(s: RuntimeState): Transport {
    if s.transport.DirectTransport? && s.connected && !s.chosen.Disconnected? && !IsBlank(s.subscription)
       && !IsBlank(s.node)
    then Proxy else s.transport
  }

  /** What a failed selection leaves in the store when the old connection is written back: the connection it
      started from, and, if the store could be read again, what the attempt noted. */
  lemma FailedSwitch(s: RuntimeState, live: Tag, lookup: Lookup, current: Tag, candidate: Tag, subscription: string,
                     node: string, chosen: SelectionMode, skipProbe: bool, now: int, w: World, tag: Tag)
    requires Handled(s, live, lookup, w) && !Reaches(s, live, lookup, current, candidate, skipProbe, now, w)
    requires w.savePreserved
    ensures var after := SelectionState(s, live, lookup, current, candidate, subscription, node, chosen, skipProbe,
                                        now, w);
            var tried := w.reload && Pinned(s, live, lookup, w);
            var intended := tried && Intends(s, current, candidate, skipProbe, now, w);
            var paused := tried && w.saveBackoff && Rejects(s, current, candidate, skipProbe, now, w);
            var entries, failures := EntriesOf(s.outbounds, tag), FailuresOf(s, candidate) + 1;
            && after == RuntimeState(if TransportOf(s) == Proxy then Vpn else DirectMode, s.selected,
                                     if intended then s.generation + 1 else s.generation, None, after.outbounds,
                                     if paused then s.backoff[candidate := Backoff(failures,
                                         now + PauseAfter(failures))]
                                     else if intended then s.backoff - {candidate} else s.backoff, s.kind,
                                     s.subscription, s.node, s.chosen, true, TransportOf(s))
            && EntriesOf(after.outbounds, tag) ==
                 if intended && tag == candidate
                 then Renewed(entries, Outbound(tag, subscription, node, Reserve, Some(now), None, None))
                 else if intended && tag == current && tag != Direct
                 then Renewed(entries, Outbound(tag, s.subscription, s.node, Active, None, None, None))
                 else entries
  {
    var latest := Switched(s, live, lookup, current, candidate, subscription, node, skipProbe, now, w);
    assert Pinned(s, live, lookup, w) ==>
        latest == Attempted(s, current, candidate, subscription, node, skipProbe, now, w);
    AttemptedFields(s, current, candidate, subscription, node, skipProbe, now, w);
    RestoredFields(latest, s, candidate, subscription, node, chosen, now, w);
    if candidate != current { IntentEntries(s, current, candidate, subscription, node, now, tag); }
  }

  lemma RejectedIsPaused(s: RuntimeState, live: Tag, lookup: Lookup, current: Tag, candidate: Tag,
                         subscription: string, node: string, chosen: SelectionMode, skipProbe: bool, now: int,
                         w: World)
    requires Pinned(s, live, lookup, w) && Rejects(s, current, candidate, skipProbe, now, w) && w.saveBackoff
    requires w.savePreserved ==> w.reload
    ensures var after := SelectionState(s, live, lookup, current, candidate, subscription, node, chosen, skipProbe,
                                        now, w);
            forall later :: IsPaused(after, candidate, later) <==>
              later < now + PauseAfter(FailuresOf(s, candidate) + 1)
  {
    var latest := Attempted(s, current, candidate, subscription, node, skipProbe, now, w);
    AttemptedFields(s, current, candidate, subscription, node, skipProbe, now, w);
    if w.savePreserved { RestoredFields(latest, s, candidate, subscription, node, chosen, now, w); }
  }

  /** A candidate that was rejected is not switched to before its pause ends. */
  lemma PausedIsNotTried(s: RuntimeState, live: Tag, lookup: Lookup, current: Tag, candidate: Tag, subscription: string,
                         node: string, chosen: SelectionMode, skipProbe: bool, now: int, w: World, live2: Tag,
                         lookup2: Lookup, current2: Tag, skipProbe2: bool, later: int, w2: World)
    requires Pinned(s, live, lookup, w) && Rejects(s, current, candidate, skipProbe, now, w) && w.saveBackoff
    requires w.savePreserved ==> w.reload
    requires later < now + PauseAfter(FailuresOf(s, candidate) + 1)
    ensures var after := SelectionState(s, live, lookup, current, candidate, subscription, node, chosen, skipProbe,
                                        now, w);
            SelectionOutcome(after, live2, lookup2, current2, candidate, skipProbe2, later, w2) in {NotHandled, Failed}
  {
    RejectedIsPaused(s, live, lookup, current, candidate, subscription, node, chosen, skipProbe, now, w);
  }

  /** A selection is left to the static reload exactly if there is no route to switch from or the route cannot
      be taken hold of: a direct one cannot be selected; a tunnel, or a node no longer listed, is not what the
      backend says is selected; the node's subscription is gone; its handler cannot be prepared. */
  lemma NotHandledExactly(s: RuntimeState, live: Tag, lookup: Lookup, current: Tag, candidate: Tag, skipProbe: bool,
                          now: int, w: World)
    ensures SelectionOutcome(s, live, lookup, current, candidate, skipProbe, now, w) == NotHandled <==>
              || s.subscription == "" || s.node == "" || (!s.connected && s.mode != DirectMode)
              || (s.mode == DirectMode && !w.selectDirect)
              || (s.mode != DirectMode && (s.kind == AmneziaWg || lookup == NodeMissing)
                  && !(w.readsBack && s.selected == Some(live)))
              || (s.mode != DirectMode && s.kind == Xray && lookup == SubscriptionMissing)
              || (s.mode != DirectMode && s.kind == Xray && lookup == NodeFound && !w.prepareCurrent)
  {
  }

  // ----- The other operations -----

  /** After a fail-open every active entry drains, and no other changes. */
  lemma FailOpenRecords(s: RuntimeState, now: int, i: nat)
    requires i < |s.outbounds|
    ensures var after, o := Stamped(DirectState(s, now)), s.outbounds[i];
            && |after.outbounds| == |s.outbounds|
            && after == RuntimeState(DirectMode, Some(Direct), s.generation + 1, None, after.outbounds, s.backoff,
                                     s.kind, s.subscription, s.node, s.chosen, false, DirectTransport)
            && after.outbounds[i] ==
                 if o.role == Active
                 then Outbound(o.tag, o.subscription, o.node, Draining, o.verifiedAt, Some(now + 300), Some(now + 1800))
                 else o
  {
  }

  /** A recorded AmneziaWG switch lists the tunnel as active and the route left as draining. */
  lemma TunnelRecords(s: RuntimeState, tunnel: Tag, profile: string, chosen: SelectionMode, now: int, tag: Tag)
    ensures var after, entries := Stamped(TunnelState(s, tunnel, profile, chosen, now)), EntriesOf(s.outbounds, tag);
            && after == RuntimeState(Vpn, Some(tunnel), s.generation + 1, None, after.outbounds, s.backoff, AmneziaWg,
                                     "server-list", profile, chosen, true, Proxy)
            && EntriesOf(after.outbounds, tag) ==
                 if tag == tunnel
                 then Renewed(entries, Outbound(tag, "server-list", profile, Active, Some(now), None, None))
                 else if s.selected == Some(tag) && tag != Direct
                 then Renewed(entries, Outbound(tag, "", "", Draining, None, Some(now + 300), Some(now + 1800)))
                 else entries
  {
    var active := Entry(tunnel, "server-list", profile, Active).(verifiedAt := Some(now));
    UpdatedEntries(s.outbounds, active, tag);
    UpdatedEntries(WithOutbound(s.outbounds, active), DrainingEntry(Selected(s), "", "", now), tag);
  }

  /** A fail-open or AmneziaWG switch that is abandoned leaves the state without an operation, or, if that
      cannot be saved, the intent. */
  lemma AbandonedRecords(s: RuntimeState, from: Option<Tag>, to: Tag, w: World)
    ensures Abandoned(s, Intent(s, from, to), w) ==
              if !w.saveIntent then s
              else RuntimeState(if !w.savePreserved || s.mode == Recovering then Recovering
                                else if s.connected && s.transport == Proxy then Vpn else DirectMode, s.selected,
                                if w.savePreserved then s.generation else s.generation + 1,
                                if w.savePreserved then None else Some(Operation(from, to)), s.outbounds, s.backoff,
                                s.kind, s.subscription, s.node, s.chosen, s.connected, s.transport)
  {
  }

  /** A refused removal lists the tag as draining, due at once. */
  lemma RefusedRemovalRecords(s: RuntimeState, removed: Tag, now: int, tag: Tag)
    ensures EntriesOf(Stamped(s.(outbounds := WithOutbound(s.outbounds, RetiredNow(removed, now)))).outbounds, tag) ==
              if tag == removed
              then Renewed(EntriesOf(s.outbounds, tag),
                           Outbound(tag, "", "", Draining, None, Some(now), Some(now + 1800)))
              else EntriesOf(s.outbounds, tag)
  {
    UpdatedEntries(s.outbounds, RetiredNow(removed, now), tag);
  }

  /** A removal spares exactly the tag that is read back as selected and the tags the list it reads names. */
  lemma SparedTags(s: Snapshot, tag: Tag, w: World)
    ensures Spared(s, tag, w) <==>
              (w.readsBack && tag == s.live) || (w.reload && EntriesOf(s.persisted.outbounds, tag) != [])
  {
    EntriesAreListed(s.persisted.outbounds, tag);
    if Listed(s.persisted.outbounds, tag) {
      var i :| 0 <= i < |s.persisted.outbounds| && s.persisted.outbounds[i].tag == tag;
      assert s.persisted.outbounds[i] in EntriesOf(s.persisted.outbounds, tag);
    }
    if EntriesOf(s.persisted.outbounds, tag) != [] {
      var o := EntriesOf(s.persisted.outbounds, tag)[0];
      assert o in s.persisted.outbounds && o.tag == tag;
    }
  }

  // ----- A switch and a cleanup -----

  lemma {:induction false} EntriesAreListed(outbounds: seq<Outbound>, tag: Tag)
    ensures forall o :: o in EntriesOf(outbounds, tag) <==> o in outbounds && o.tag == tag
  {
    if outbounds != [] {
      EntriesAreListed(outbounds[1..], tag);
      assert forall o :: o in outbounds <==> o == outbounds[0] || o in outbounds[1..];
    }
  }

  /** An entry asks for its handler to go. */
  predicate Expired(o: Outbound, now: int) {
    o.role == Draining && o.retireAfter.Some? && o.retireAfter.value <= now
  }

  /** A handler goes exactly if an entry of its tag asks for it, it is neither selected nor an end of the
      operation under way, and the backend lets it go. */
  lemma RetiredByEntries(outbounds: seq<Outbound>, tag: Tag, now: int, live: Tag, operation: Option<Operation>,
                         stuck: set<Tag>)
    ensures Retired(outbounds, tag, now, live, operation, stuck) <==>
              && tag != live && tag !in stuck
              && (operation.Some? ==> operation.value.from != Some(tag) && operation.value.to != tag)
              && exists o :: o in EntriesOf(outbounds, tag) && Expired(o, now)
  {
    EntriesAreListed(outbounds, tag);
    if Retired(outbounds, tag, now, live, operation, stuck) {
      var o :| o in outbounds && o.tag == tag && Retires(o, now, live, operation, stuck);
      assert o in EntriesOf(outbounds, tag) && Expired(o, now);
    }
    if o :| o in EntriesOf(outbounds, tag) && Expired(o, now) {
      assert Retired(outbounds, tag, now, live, operation, stuck) <==> Retires(o, now, live, operation, stuck);
    }
  }

  lemma LeftStaysUnlessExpired(outbounds: seq<Outbound>, entries: seq<Outbound>, left: Tag, subscription: string,
                               node: string, now: int, live: Tag, later: int, stuck: set<Tag>)
    requires EntriesOf(outbounds, left) ==
               Renewed(entries, Outbound(left, subscription, node, Draining, None, Some(now + 300), Some(now + 1800)))
    requires live != left
    ensures !Retired(outbounds, left, later, live, None, stuck) <==>
              left in stuck || (later < now + 300 &&
                                (entries != [] ==> forall o :: o in entries[1..] ==> !Expired(o, later)))
  {
    var all := EntriesOf(outbounds, left);
    RetiredByEntries(outbounds, left, later, live, None, stuck);
    assert Expired(all[0], later) <==> later >= now + 300;
    if entries != [] { assert all == [all[0]] + entries[1..]; }
    assert forall o :: o in all <==> o == all[0] || (entries != [] && o in entries[1..]);
  }

  lemma LeftHasHandler(s: RuntimeState, live: Tag, lookup: Lookup, candidate: Tag, skipProbe: bool, now: int, w: World,
                       handlers: set<Tag>, tagOf: (string, string) -> string)
    requires Backed(Snapshot(s, live, handlers))
    requires var left := PinnedTag(s, lookup, tagOf);
             left != Direct && left != candidate && Reaches(s, live, lookup, left, candidate, skipProbe, now, w)
    ensures var left := PinnedTag(s, lookup, tagOf);
            left in SelectionHandlers(s, live, lookup, left, candidate, skipProbe, now, w, handlers)
  {
  }

  /** A cleanup after a recorded switch removes the handler of the route left if five minutes have passed, or
      if another entry of its tag asks for it, unless the backend does not answer. */
  method SwitchThenCleanUp(router: Router, lookup: Lookup, subscription: string, node: string, chosen: SelectionMode,
                           skipProbe: bool, now: int, w: World, later: int, stuck: set<Tag>, w2: World)
    returns (r: Outcome)
    requires Backed(router.Now())
    modifies router
    ensures var s, left := old(router.persisted), PinnedTag(old(router.persisted), lookup, router.tagOf);
            r == Done && w.reload && left != Direct && left != Node(router.tagOf(subscription, node)) ==>
              var entries := EntriesOf(s.outbounds, left);
              (left in router.handlers <==>
               || !w2.readsBack || left in stuck
               || (later < now + 300 && (entries != [] ==> forall o :: o in entries[1..] ==> !Expired(o, later))))
  {
    ghost var s, live := router.persisted, router.live;
    ghost var left, to := PinnedTag(s, lookup, router.tagOf), Node(router.tagOf(subscription, node));
    r := router.ApplyNodeSelection(lookup, subscription, node, chosen, skipProbe, now, w);
    ghost var after, handlers := router.persisted, router.handlers;
    router.CleanupManagedOutbounds(later, stuck, w2);
    if r == Done && w.reload && left != Direct && left != to {
      RecordedSwitch(s, live, lookup, left, to, subscription, node, chosen, skipProbe, now, w, left);
      LeftStaysUnlessExpired(after.outbounds, EntriesOf(s.outbounds, left), left, s.subscription, s.node, now, to,
                             later, stuck);
      LeftHasHandler(s, live, lookup, to, skipProbe, now, w, old(router.handlers), router.tagOf);
      assert left in handlers;
    }
  }
}
