/** Switching the router between outbounds: the managed switch, the fail-open fallback to direct, and
    the switch to an AmneziaWG tunnel; and the removal of handlers no longer needed.

    The backend is a selected tag and a set of live handlers, the store one persisted state; every call
    to either can fail, as the booleans of `World` say. All operations run under the store lock. Every
    effect goes through one of four calls of `Router`, each of which records in two ghost flags whether
    the state it exposes, which is what a crash at that point leaves behind, is still acceptable.
    Environment assumptions: a failed select changes nothing, and a select that rolls back to a handler
    which is still there succeeds. */
module OutboundSwitch {
  import opened Wrappers
  import opened Text

  datatype Tag = Direct | Node(name: string)

  datatype Role = Active | Reserve | Candidate | Draining

  datatype Outbound = Outbound(
    tag: Tag,
    subscription: string,
    node: string,
    role: Role,
    verifiedAt: Option<int>,
    retireAfter: Option<int>,
    removeBy: Option<int>)

  datatype Backoff = Backoff(failures: nat, retryAfter: int)

  datatype Operation = Operation(from: Option<Tag>, to: Tag)

  datatype OperationalMode = Vpn | DirectMode | Recovering
  datatype Transport = DirectTransport | Proxy | Zapret
  datatype SelectionMode = Auto | Manual | Disconnected
  datatype Kind = Xray | AmneziaWg

  datatype RuntimeState = RuntimeState(
    mode: OperationalMode,
    selected: Option<Tag>,
    generation: nat,
    operation: Option<Operation>,
    outbounds: seq<Outbound>,
    backoff: map<Tag, Backoff>,
    kind: Kind,
    subscription: string,
    node: string,
    chosen: SelectionMode,
    connected: bool,
    transport: Transport)

  /** An unset selection means traffic leaves directly. */
  function Selected(s: RuntimeState): Tag {
    if s.selected.Some? then s.selected.value else Direct
  }

  function EffectiveOf(transport: Transport, connected: bool, subscription: string, node: string,
                       chosen: SelectionMode): Transport
  {
    if transport == DirectTransport && connected && !IsBlank(subscription) && !IsBlank(node) && chosen != Disconnected
    then Proxy else transport
  }

  function EffectiveTransport(s: RuntimeState): Transport {
    EffectiveOf(s.transport, s.connected, s.subscription, s.node, s.chosen)
  }

  /** Saving derives the operational mode unless a switch is under way. */
  function Stamped(s: RuntimeState): RuntimeState {
    if s.mode == Recovering then s
    else s.(mode := if s.connected && s.transport == Proxy then Vpn else DirectMode)
  }

  const DRAIN := 300
  const REMOVE := 1800

  /** `next` with the fields it leaves empty taken from the entry it replaces. */
  function Merged(previous: Outbound, next: Outbound): Outbound {
    next.(subscription := if next.subscription == "" then previous.subscription else next.subscription,
          node := if next.node == "" then previous.node else next.node,
          verifiedAt := if next.verifiedAt == None then previous.verifiedAt else next.verifiedAt)
  }

  function WithOutbound(outbounds: seq<Outbound>, next: Outbound): (r: seq<Outbound>)
    ensures forall o :: o in r ==> o in outbounds || (o.tag == next.tag && o.role == next.role)
  {
    if outbounds == [] then [next]
    else if outbounds[0].tag == next.tag then [Merged(outbounds[0], next)] + outbounds[1..]
    else [outbounds[0]] + WithOutbound(outbounds[1..], next)
  }

  lemma {:induction false} WithOutboundListed(outbounds: seq<Outbound>, next: Outbound)
    ensures exists o :: o in WithOutbound(outbounds, next) && o.tag == next.tag && o.role == next.role
  {
    var r := WithOutbound(outbounds, next);
    if outbounds != [] && outbounds[0].tag != next.tag {
      WithOutboundListed(outbounds[1..], next);
    } else {
      assert r[0].tag == next.tag && r[0].role == next.role;
    }
  }

  lemma {:induction false} WithOutboundIn(front: seq<Outbound>, o: Outbound, tail: seq<Outbound>, next: Outbound)
    requires o.tag == next.tag && forall x :: x in front ==> x.tag != next.tag
    ensures WithOutbound(front + [o] + tail, next) == front + [Merged(o, next)] + tail
  {
    var all := front + [o] + tail;
    if front == [] {
      assert all[0] == o && all[1..] == tail;
    } else {
      assert all[0] == front[0] && all[1..] == front[1..] + [o] + tail;
      WithOutboundIn(front[1..], o, tail, next);
    }
  }

  lemma {:induction false} WithOutboundNew(outbounds: seq<Outbound>, next: Outbound)
    requires forall x :: x in outbounds ==> x.tag != next.tag
    ensures WithOutbound(outbounds, next) == outbounds + [next]
  {
    if outbounds != [] { WithOutboundNew(outbounds[1..], next); }
  }

  lemma SplitAt<T>(s: seq<T>, k: nat, x: T)
    requires k < |s|
    ensures s == s[..k] + [s[k]] + s[k + 1..]
    ensures s[k := x] == s[..k] + [x] + s[k + 1..]
  {
  }

  lemma WithOutboundAt(outbounds: seq<Outbound>, next: Outbound, k: nat)
    requires k <= |outbounds| && forall j :: 0 <= j < k ==> outbounds[j].tag != next.tag
    requires k < |outbounds| ==> outbounds[k].tag == next.tag
    ensures WithOutbound(outbounds, next) ==
            if k < |outbounds| then outbounds[k := Merged(outbounds[k], next)] else outbounds + [next]
  {
    if k < |outbounds| {
      SplitAt(outbounds, k, Merged(outbounds[k], next));
      WithOutboundIn(outbounds[..k], outbounds[k], outbounds[k + 1..], next);
    } else {
      WithOutboundNew(outbounds, next);
    }
  }

  method UpdateRuntimeOutbound(outbounds: seq<Outbound>, next: Outbound) returns (updated: seq<Outbound>)
    ensures updated == WithOutbound(outbounds, next)
  {
    for i := 0 to |outbounds|
      invariant forall j :: 0 <= j < i ==> outbounds[j].tag != next.tag
    {
      if outbounds[i].tag == next.tag {
        WithOutboundAt(outbounds, next, i);
        return outbounds[i := Merged(outbounds[i], next)];
      }
    }
    WithOutboundAt(outbounds, next, |outbounds|);
    updated := outbounds + [next];
  }

  function Entry(tag: Tag, subscription: string, node: string, role: Role): Outbound {
    Outbound(tag, subscription, node, role, None, None, None)
  }

  function DrainingEntry(tag: Tag, subscription: string, node: string, now: int): Outbound {
    Entry(tag, subscription, node, Draining).(retireAfter := Some(now + DRAIN), removeBy := Some(now + REMOVE))
  }

  function RetiredNow(tag: Tag, now: int): Outbound {
    Entry(tag, "", "", Draining).(retireAfter := Some(now), removeBy := Some(now + REMOVE))
  }

  // ----- What a crash may leave behind -----

  datatype Snapshot = Snapshot(persisted: RuntimeState, live: Tag, handlers: set<Tag>)

  /** The live tag is the persisted selection or an end of the persisted operation. */
  predicate Covered(s: Snapshot) {
    || s.live == Selected(s.persisted)
    || (s.persisted.operation.Some? &&
        (s.live == s.persisted.operation.value.to ||
         s.live == (if s.persisted.operation.value.from.Some? then s.persisted.operation.value.from.value else Direct)))
  }

  /** The balancer points at a handler that exists. */
  predicate Backed(s: Snapshot) {
    s.live == Direct || s.live in s.handlers
  }

  /** Which calls of an operation succeed. */
  datatype World = World(
    selectDirect: bool,
    readsBack: bool,
    prepareCurrent: bool,
    pin: bool,
    prepareCandidate: bool,
    probe: bool,
    wait: bool,
    confirm: bool,
    saveBackoff: bool,
    remove: bool,
    saveIntent: bool,
    select: bool,
    loadSettings: bool,
    egress: bool,
    persistConfig: bool,
    saveSwitched: bool,
    reload: bool,
    readCommitted: bool,
    saveCommit: bool,
    savePreserved: bool)

  datatype Lookup = SubscriptionMissing | NodeMissing | NodeFound

  datatype Outcome = NotHandled | Failed | Done | ReadBackFailed | CommitUnsaved

  // ----- The states an operation writes -----

  function SwitchIntent(s: RuntimeState, current: Tag, candidate: Tag, subscription: string, node: string,
                        now: int): RuntimeState
  {
    var outbounds :=
      if current == Direct then s.outbounds
      else WithOutbound(s.outbounds, Entry(current, s.subscription, s.node, Active));
    s.(backoff := s.backoff - {candidate},
       outbounds := WithOutbound(outbounds, Entry(candidate, subscription, node, Reserve).(verifiedAt := Some(now))),
       mode := Recovering,
       generation := s.generation + 1,
       operation := Some(Operation(Some(current), candidate)))
  }

  function SwitchDone(s: RuntimeState, current: Tag, candidate: Tag, subscription: string, node: string,
                      now: int): RuntimeState
  {
    var intent := SwitchIntent(s, current, candidate, subscription, node, now);
    var outbounds :=
      if current == Direct then intent.outbounds
      else WithOutbound(intent.outbounds, DrainingEntry(current, s.subscription, s.node, now));
    intent.(outbounds := WithOutbound(outbounds,
                                      Entry(candidate, subscription, node, Active).(verifiedAt := Some(now))))
  }

  /** The connection a failed switch restores. `latest` is what the store holds by then. */
  function Preserved(latest: RuntimeState, s: RuntimeState): RuntimeState {
    latest.(subscription := s.subscription, node := s.node, chosen := s.chosen, transport := s.transport,
            operation := None, mode := Vpn, connected := true)
  }

  function Committed(latest: RuntimeState, s: RuntimeState, w: World, live: Tag,
                     subscription: string, node: string, chosen: SelectionMode, now: int): RuntimeState {
    var c := s.(subscription := subscription, kind := Xray, node := node, chosen := chosen, connected := true,
                mode := Vpn, operation := None, transport := Proxy);
    var c := if w.reload then c.(generation := latest.generation, outbounds := latest.outbounds) else c;
    if w.readCommitted
    then c.(selected := Some(live),
            outbounds := WithOutbound(c.outbounds, Entry(live, subscription, node, Active).(verifiedAt := Some(now))))
    else c
  }

  function Drained(o: Outbound, now: int): Outbound {
    if o.role != Active then o
    else o.(role := Draining, retireAfter := Some(now + DRAIN), removeBy := Some(now + REMOVE))
  }

  function DrainActive(outbounds: seq<Outbound>, now: int): (r: seq<Outbound>)
    ensures |r| == |outbounds|
    ensures forall i :: 0 <= i < |r| ==> r[i] == Drained(outbounds[i], now)
  {
    seq(|outbounds|, i requires 0 <= i < |outbounds| => Drained(outbounds[i], now))
  }

  function Intent(s: RuntimeState, from: Option<Tag>, to: Tag): RuntimeState {
    s.(mode := Recovering, generation := s.generation + 1, operation := Some(Operation(from, to)))
  }

  function DirectState(s: RuntimeState, now: int): RuntimeState {
    s.(mode := DirectMode, selected := Some(Direct), operation := None, generation := s.generation + 1,
       outbounds := DrainActive(s.outbounds, now), connected := false, transport := DirectTransport)
  }

  /** What an abandoned switch leaves in the store: nothing new, the state without an operation, or
      the intent if clearing it could not be saved. */
  function Abandoned(s: RuntimeState, intent: RuntimeState, w: World): RuntimeState {
    if !w.saveIntent then s
    else if w.savePreserved then Stamped(s.(operation := None))
    else Stamped(intent)
  }

  const AWG_SUBSCRIPTION := "server-list"

  function TunnelState(s: RuntimeState, tag: Tag, profile: string, chosen: SelectionMode, now: int): RuntimeState {
    var previous := Selected(s);
    var added := WithOutbound(s.outbounds, Entry(tag, AWG_SUBSCRIPTION, profile, Active).(verifiedAt := Some(now)));
    Intent(s, Some(previous), tag).(
      kind := AmneziaWg, subscription := AWG_SUBSCRIPTION, node := profile, chosen := chosen, connected := true,
      mode := Vpn, transport := Proxy, selected := Some(tag), operation := None,
      outbounds := if previous == Direct || previous == tag then added
                   else WithOutbound(added, DrainingEntry(previous, "", "", now)))
  }

  // ----- Removal of handlers -----

  /** A draining entry whose grace period is over. */
  predicate Due(o: Outbound, now: int) {
    o.role == Draining && o.retireAfter.Some? && now >= o.retireAfter.value
  }

  /** The tag is selected or an end of the persisted operation. */
  predicate Protected(tag: Tag, live: Tag, operation: Option<Operation>) {
    tag == live || (operation.Some? && (operation.value.from == Some(tag) || operation.value.to == tag))
  }

  /** Cleanup removes the handler of this entry, if the backend lets it. */
  predicate Retires(o: Outbound, now: int, live: Tag, operation: Option<Operation>, stuck: set<Tag>) {
    Due(o, now) && !Protected(o.tag, live, operation) && o.tag !in stuck
  }

  ghost predicate Retired(outbounds: seq<Outbound>, tag: Tag, now: int, live: Tag, operation: Option<Operation>,
                          stuck: set<Tag>)
  {
    exists o :: o in outbounds && o.tag == tag && Retires(o, now, live, operation, stuck)
  }

  predicate Listed(outbounds: seq<Outbound>, tag: Tag) {
    exists i :: 0 <= i < |outbounds| && outbounds[i].tag == tag
  }

  function Kept(outbounds: seq<Outbound>, now: int, live: Tag, operation: Option<Operation>,
                stuck: set<Tag>): seq<Outbound>
  {
    if outbounds == [] then [] else
      var last := outbounds[|outbounds| - 1];
      Kept(outbounds[..|outbounds| - 1], now, live, operation, stuck) +
      if Retires(last, now, live, operation, stuck) then [] else [last]
  }

  lemma {:induction false} KeptMeaning(outbounds: seq<Outbound>, now: int, live: Tag, operation: Option<Operation>,
                                       stuck: set<Tag>)
    ensures forall o :: o in Kept(outbounds, now, live, operation, stuck) <==>
                        o in outbounds && !Retires(o, now, live, operation, stuck)
  {
    if outbounds != [] {
      KeptMeaning(outbounds[..|outbounds| - 1], now, live, operation, stuck);
      assert forall o :: o in outbounds <==> o in outbounds[..|outbounds| - 1] || o == outbounds[|outbounds| - 1];
    }
  }

  /** A cleanup removes a handler only through a due, unprotected draining entry of its tag. */
  lemma RetiredOnlyWhenDue(outbounds: seq<Outbound>, tag: Tag, now: int, live: Tag, operation: Option<Operation>,
                           stuck: set<Tag>)
    requires Retired(outbounds, tag, now, live, operation, stuck)
    ensures tag != live && !Protected(tag, live, operation) && tag !in stuck
    ensures exists o ::
              o in outbounds && o.tag == tag && Due(o, now) && o !in Kept(outbounds, now, live, operation, stuck)
  {
    KeptMeaning(outbounds, now, live, operation, stuck);
    var o :| o in outbounds && o.tag == tag && Retires(o, now, live, operation, stuck);
  }

  /** An entry stays listed without its handler exactly when it is not due itself and another entry of its
      tag, which re-adding a draining tag leaves behind, is retired. */
  lemma ListedWithoutHandler(outbounds: seq<Outbound>, o: Outbound, now: int, live: Tag, operation: Option<Operation>,
                             stuck: set<Tag>)
    ensures o in Kept(outbounds, now, live, operation, stuck) &&
            Retired(outbounds, o.tag, now, live, operation, stuck) <==>
            o in outbounds && !Due(o, now)
            && exists x :: x in outbounds && x != o && x.tag == o.tag && Retires(x, now, live, operation, stuck)
  {
    KeptMeaning(outbounds, now, live, operation, stuck);
  }

  /** A draining tag that was listed again as a reserve: the cleanup takes the handler and keeps the reserve. */
  lemma ReaddedTagLosesHandler(name: string, subscription: string, node: string, live: Tag)
    requires live != Node(name)
    ensures var reserve := Entry(Node(name), subscription, node, Reserve);
            var outbounds := [RetiredNow(Node(name), 0), reserve];
            && Kept(outbounds, 0, live, None, {}) == [reserve]
            && Retired(outbounds, Node(name), 0, live, None, {})
  {
    var retired, reserve := RetiredNow(Node(name), 0), Entry(Node(name), subscription, node, Reserve);
    var outbounds := [retired, reserve];
    assert outbounds[..1] == [retired] && [retired][..0] == [];
    assert retired in outbounds && Retires(retired, 0, live, None, {});
    assert Kept([retired], 0, live, None, {}) == [];
  }

  // ----- The operations -----

  /** The tag a managed switch takes for the current route. The backend gives a node the same tag every time. */
  function PinnedTag(s: RuntimeState, lookup: Lookup, tagOf: (string, string) -> string): Tag {
    if s.mode == DirectMode then Direct
    else if s.kind == AmneziaWg || lookup == NodeMissing then Selected(s)
    else Node(tagOf(s.subscription, s.node))
  }

  /** There is a current route to switch from. */
  predicate HasRoute(s: RuntimeState) {
    (s.connected || s.mode == DirectMode) && s.subscription != "" && s.node != ""
  }

  /** The managed switch takes the route on; otherwise the static reload does. */
  predicate Handled(s: RuntimeState, live: Tag, lookup: Lookup, w: World) {
    HasRoute(s) &&
    if s.mode == DirectMode then w.selectDirect
    else if s.kind == AmneziaWg || lookup == NodeMissing then s.selected.Some? && w.readsBack && live == Selected(s)
    else lookup == NodeFound && w.prepareCurrent
  }

  /** The current route is settled under its pinned tag. */
  predicate Pinned(s: RuntimeState, live: Tag, lookup: Lookup, w: World) {
    Handled(s, live, lookup, w) && (s.mode == DirectMode || s.kind == AmneziaWg || w.pin)
  }

  predicate IsPaused(s: RuntimeState, candidate: Tag, now: int) {
    candidate in s.backoff && now < s.backoff[candidate].retryAfter
  }

  /** The candidate is probed as often as the situation asks: a recovery from direct mode asks twice. */
  predicate Confirmed(s: RuntimeState, skipProbe: bool, w: World) {
    if s.mode == DirectMode then w.probe && w.wait && w.confirm else skipProbe || w.probe
  }

  /** The calls from the saved intent to the saved switch all succeed. */
  predicate Switches(w: World) {
    w.saveIntent && w.select && w.egress && w.persistConfig && w.saveSwitched
  }

  /** The switch proper succeeds. Choosing the current node again needs no probe and only the
      configuration to be written. */
  predicate Proceeds(s: RuntimeState, current: Tag, candidate: Tag, skipProbe: bool, now: int, w: World) {
    && w.prepareCandidate && !IsPaused(s, candidate, now)
    && if candidate == current then w.persistConfig else Confirmed(s, skipProbe, w) && Switches(w)
  }

  /** A switch gets as far as its final save. */
  predicate Reaches(s: RuntimeState, live: Tag, lookup: Lookup, current: Tag, candidate: Tag, skipProbe: bool, now: int,
                    w: World)
  {
    Pinned(s, live, lookup, w) && Proceeds(s, current, candidate, skipProbe, now, w)
  }

  /** A probe fails, which pauses the candidate and removes its handler. */
  predicate ProbeFails(s: RuntimeState, skipProbe: bool, w: World) {
    if s.mode == DirectMode then !w.probe || (w.wait && !w.confirm) else !skipProbe && !w.probe
  }

  /** The switch gets as far as saving its intent. */
  predicate Intends(s: RuntimeState, current: Tag, candidate: Tag, skipProbe: bool, now: int, w: World) {
    && w.prepareCandidate && !IsPaused(s, candidate, now) && candidate != current
    && Confirmed(s, skipProbe, w) && w.saveIntent
  }

  /** The switch rejects its candidate. */
  predicate Rejects(s: RuntimeState, current: Tag, candidate: Tag, skipProbe: bool, now: int, w: World) {
    w.prepareCandidate && !IsPaused(s, candidate, now) && candidate != current && ProbeFails(s, skipProbe, w)
  }

  /** How a node selection ends, from the guards alone. */
  function SelectionOutcome(s: RuntimeState, live: Tag, lookup: Lookup, current: Tag, candidate: Tag, skipProbe: bool,
                            now: int, w: World): Outcome
  {
    if !Handled(s, live, lookup, w) then NotHandled
    else if !Reaches(s, live, lookup, current, candidate, skipProbe, now, w) then Failed
    else CommitOutcome(w)
  }

  function CommitOutcome(w: World): Outcome {
    if !w.saveCommit then CommitUnsaved else if !w.readCommitted then ReadBackFailed else Done
  }

  /** The candidate is not tried again for five minutes, then ten, twenty and half an hour. */
  function Paused(s: RuntimeState, candidate: Tag, now: int, w: World): RuntimeState {
    var failures := if candidate in s.backoff then s.backoff[candidate].failures + 1 else 1;
    var delay := if failures == 1 then 300 else if failures == 2 then 600 else if failures == 3 then 1200 else 1800;
    if w.saveBackoff then Stamped(s.(backoff := s.backoff[candidate := Backoff(failures, now + delay)])) else s
  }

  /** What a failed switch leaves in the store before the old connection is written back. */
  function Attempted(s: RuntimeState, current: Tag, candidate: Tag, subscription: string, node: string,
                     skipProbe: bool, now: int, w: World): RuntimeState
  {
    if Rejects(s, current, candidate, skipProbe, now, w) then Paused(s, candidate, now, w)
    else if Intends(s, current, candidate, skipProbe, now, w)
    then SwitchIntent(s.(transport := EffectiveTransport(s)), current, candidate, subscription, node, now)
    else s
  }

  /** The store after the candidate was tried from the pinned route. */
  function Moved(s: RuntimeState, current: Tag, candidate: Tag, subscription: string, node: string, skipProbe: bool,
                 now: int, w: World): RuntimeState
  {
    if !Proceeds(s, current, candidate, skipProbe, now, w)
    then Attempted(s, current, candidate, subscription, node, skipProbe, now, w)
    else if candidate == current then s
    else SwitchDone(s.(transport := EffectiveTransport(s)), current, candidate, subscription, node, now)
  }

  /** The store when a handled switch is made or has failed. */
  function Switched(s: RuntimeState, live: Tag, lookup: Lookup, current: Tag, candidate: Tag, subscription: string,
                    node: string, skipProbe: bool, now: int, w: World): RuntimeState
  {
    if Pinned(s, live, lookup, w) then Moved(s, current, candidate, subscription, node, skipProbe, now, w) else s
  }

  /** The last save of a handled switch: the new route recorded, or the old connection written back. */
  function Concluded(latest: RuntimeState, before: RuntimeState, switched: bool, live: Tag, subscription: string,
                     node: string, chosen: SelectionMode, now: int, w: World): RuntimeState
  {
    var s := before.(transport := EffectiveTransport(before));
    if switched
    then if w.saveCommit then Stamped(Committed(latest, s, w, live, subscription, node, chosen, now)) else latest
    else if w.savePreserved then Stamped(Preserved(if w.reload then latest else s, s)) else latest
  }

  /** What a node selection leaves in the store. */
  function SelectionState(s: RuntimeState, live: Tag, lookup: Lookup, current: Tag, candidate: Tag,
                          subscription: string, node: string, chosen: SelectionMode, skipProbe: bool, now: int,
                          w: World): RuntimeState
  {
    if !Handled(s, live, lookup, w) then s
    else Concluded(Switched(s, live, lookup, current, candidate, subscription, node, skipProbe, now, w), s,
                   Reaches(s, live, lookup, current, candidate, skipProbe, now, w), candidate, subscription, node,
                   chosen, now, w)
  }

  /** The tag a node selection leaves selected. */
  function SelectionLive(s: RuntimeState, live: Tag, lookup: Lookup, current: Tag, candidate: Tag, skipProbe: bool,
                         now: int, w: World): Tag
  {
    if Reaches(s, live, lookup, current, candidate, skipProbe, now, w) then candidate
    else if Pinned(s, live, lookup, w) then current
    else live
  }

  /** The handlers after the current route was looked at. */
  function PinHandlers(s: RuntimeState, lookup: Lookup, current: Tag, w: World, handlers: set<Tag>): set<Tag> {
    if HasRoute(s) && s.mode != DirectMode && s.kind == Xray && lookup == NodeFound && w.prepareCurrent
    then handlers + {current} else handlers
  }

  /** The handlers after the candidate was tried. */
  function TryHandlers(s: RuntimeState, current: Tag, candidate: Tag, skipProbe: bool, now: int, w: World,
                       handlers: set<Tag>): set<Tag>
  {
    var prepared := if w.prepareCandidate then handlers + {candidate} else handlers;
    if Rejects(s, current, candidate, skipProbe, now, w) && w.remove then prepared - {candidate} else prepared
  }

  /** The handlers a node selection leaves. */
  function SelectionHandlers(s: RuntimeState, live: Tag, lookup: Lookup, current: Tag, candidate: Tag,
                             skipProbe: bool, now: int, w: World, handlers: set<Tag>): set<Tag>
  {
    var pinned := PinHandlers(s, lookup, current, w, handlers);
    if Pinned(s, live, lookup, w) then TryHandlers(s, current, candidate, skipProbe, now, w, pinned) else pinned
  }

  /** A selection that starts with the tags in agreement ends so: the switch is recorded or was none, or it
      failed and did not have to select the current node first. */
  predicate EndsInAgreement(s: RuntimeState, live: Tag, lookup: Lookup, current: Tag, candidate: Tag, skipProbe: bool,
                            now: int, w: World)
  {
    if Reaches(s, live, lookup, current, candidate, skipProbe, now, w)
    then (w.saveCommit && w.readCommitted) || candidate == live
    else Pinned(s, live, lookup, w) ==> current == live
  }

  /** Pinning the current route shows a live tag that the persisted state does not account for. */
  predicate Exposes(s: RuntimeState, live: Tag, lookup: Lookup, current: Tag, w: World) {
    Pinned(s, live, lookup, w) && current != live && !Covered(Snapshot(s, current, {}))
  }

  /** A selection that starts with the tags in agreement exposes covered states only: the pinned tag, the
      recorded switch and the connection written back are all accounted for. */
  predicate StaysCovered(s: RuntimeState, live: Tag, lookup: Lookup, current: Tag, candidate: Tag, skipProbe: bool,
                         now: int, w: World)
  {
    && !Exposes(s, live, lookup, current, w)
    && if Reaches(s, live, lookup, current, candidate, skipProbe, now, w)
       then w.saveCommit && !w.readCommitted ==> candidate == live
       else w.savePreserved && Pinned(s, live, lookup, w) ==> current == live
  }

  /** Same connection; at most the operation, its mode and bookkeeping differ. */
  predicate SameConnection(a: RuntimeState, b: RuntimeState) {
    && a.selected == b.selected && a.kind == b.kind && a.connected == b.connected
    && a.subscription == b.subscription && a.node == b.node && a.chosen == b.chosen
    && a.transport in {b.transport, EffectiveTransport(b)}
    && a.mode in {b.mode, Recovering, Stamped(b).mode}
  }

  /** What a failed switch writes back: the old connection, marked connected, in the mode its transport implies. */
  predicate Restored(a: RuntimeState, b: RuntimeState) {
    && a.selected == b.selected && a.kind == b.kind && a.connected && a.operation == None
    && a.subscription == b.subscription && a.node == b.node && a.chosen == b.chosen
    && a.transport == EffectiveTransport(b)
    && a.mode == (if a.transport == Proxy then Vpn else DirectMode)
  }

  /** The committed result of a switch. */
  ghost predicate OnRoute(s: RuntimeState, live: Tag, subscription: string, node: string) {
    && s.selected == Some(live) && s.operation == None && s.mode == Vpn && s.kind == Xray
    && s.subscription == subscription && s.node == node && s.connected && s.transport == Proxy
    && exists o :: o in s.outbounds && o.tag == live && o.role == Active
  }

  /** A managed switch would pin the tag the state says is selected. */
  ghost predicate PinsSelection(s: RuntimeState, tagOf: (string, string) -> string) {
    HasRoute(s) ==> forall lookup :: PinnedTag(s, lookup, tagOf) == Selected(s)
  }

  /** Saving the state would not change its operational mode. */
  predicate IsStamped(s: RuntimeState) {
    Stamped(s) == s
  }

  /** Writing back the connection of a settled route keeps it settled: a direct route may not come back as a
      VPN one, nor a VPN route as a direct one. */
  predicate RestoresPin(s: RuntimeState) {
    if s.mode == DirectMode then EffectiveTransport(s) != Proxy || s.kind == AmneziaWg
    else EffectiveTransport(s) == Proxy || Selected(s) == Direct
  }

  /** A saved intent hides that the route is direct, and the state says that a node is connected. */
  predicate ForgetsDirect(s: RuntimeState) {
    s.mode == DirectMode && HasRoute(s) && s.connected && s.kind == Xray
  }

  /** The old connection written back is settled if and only if `RestoresPin` says so. */
  lemma RestoringKeepsPin(before: RuntimeState, after: RuntimeState, tagOf: (string, string) -> string)
    requires HasRoute(before) && PinsSelection(before, tagOf) && Restored(after, before)
    ensures PinsSelection(after, tagOf) <==> RestoresPin(before)
  {
    assert PinnedTag(before, NodeFound, tagOf) == Selected(before);
    assert HasRoute(after) && Selected(after) == Selected(before);
    if RestoresPin(before) {
      forall lookup ensures PinnedTag(after, lookup, tagOf) == Selected(after) {
        assert PinnedTag(before, lookup, tagOf) == Selected(before);
      }
    } else {
      assert PinnedTag(after, NodeFound, tagOf) != Selected(after);
    }
  }

  /** A saved intent keeps the route settled if and only if the route is not a direct one it hides. */
  lemma IntentKeepsPin(before: RuntimeState, after: RuntimeState, tagOf: (string, string) -> string)
    requires PinsSelection(before, tagOf) && after.mode == Recovering
    requires after.selected == before.selected && after.kind == before.kind && after.connected == before.connected
    requires after.subscription == before.subscription && after.node == before.node
    ensures PinsSelection(after, tagOf) <==> !ForgetsDirect(before)
  {
    if ForgetsDirect(before) {
      assert PinnedTag(before, NodeFound, tagOf) == Selected(before);
      assert PinnedTag(after, NodeFound, tagOf) != Selected(after);
    } else if HasRoute(after) {
      forall lookup ensures PinnedTag(after, lookup, tagOf) == Selected(after) {
        assert PinnedTag(before, lookup, tagOf) == Selected(before);
      }
    }
  }

  /** States that differ in neither route nor selection pin alike. */
  lemma SamePin(before: RuntimeState, after: RuntimeState, tagOf: (string, string) -> string)
    requires PinsSelection(before, tagOf)
    requires before.selected == after.selected && before.kind == after.kind
    requires before.subscription == after.subscription && before.node == after.node
    requires HasRoute(after) ==> HasRoute(before) && (after.mode == DirectMode <==> before.mode == DirectMode)
    ensures PinsSelection(after, tagOf)
  {
    if HasRoute(after) {
      forall lookup ensures PinnedTag(after, lookup, tagOf) == Selected(after) {
        assert PinnedTag(before, lookup, tagOf) == Selected(before);
      }
    }
  }

  /** Two recoveries from the direct fallback that fail one after the other leave a state that claims a
      connected VPN while the selection is still direct, so the next switch pins a tag nobody recorded. */
  lemma SecondFailedRecoveryLosesPin(fallback: RuntimeState, first: RuntimeState, second: RuntimeState,
                                     tagOf: (string, string) -> string)
    requires HasRoute(fallback) && fallback.mode == DirectMode && fallback.selected == Some(Direct)
    requires fallback.kind == Xray
    requires !fallback.connected && fallback.transport == DirectTransport && fallback.chosen != Disconnected
    requires !IsBlank(fallback.subscription) && !IsBlank(fallback.node)
    requires Restored(first, fallback) && Restored(second, first)
    ensures PinsSelection(first, tagOf) && first.mode == DirectMode && first.connected
    ensures second.mode == Vpn && Selected(second) == Direct && !PinsSelection(second, tagOf)
    ensures forall handlers :: !Covered(Snapshot(second, PinnedTag(second, NodeFound, tagOf), handlers))
  {
    assert PinnedTag(second, NodeFound, tagOf) == Node(tagOf(second.subscription, second.node));
  }

  /** What runs under the store lock, plus the preparation of handlers, which does not need it. */
  datatype Request =
    | PrepareOnly(name: string, w: World)
    | Switch(lookup: Lookup, subscription: string, node: string, chosen: SelectionMode, skipProbe: bool, now: int,
             w: World)
    | FailOpen(now: int, w: World)
    | Tunnel(tag: Tag, profile: string, chosen: SelectionMode, now: int, w: World)
    | Cleanup(now: int, stuck: set<Tag>, w: World)
    | SafeRemove(tag: Tag, now: int, w: World)

  /** How a request of a run ended, and what it started from. */
  datatype Step = Step(outcome: Outcome, before: Snapshot)

  function FailOpenOutcome(w: World): Outcome {
    if !(w.saveIntent && w.selectDirect && w.persistConfig) then Failed
    else if w.saveCommit then Done
    else CommitUnsaved
  }

  function TunnelOutcome(w: World): Outcome {
    if w.saveIntent && w.select && w.loadSettings && w.egress && w.saveCommit then Done else Failed
  }

  /** How a request ends, from what it starts with and which of its calls succeed. */
  function RequestOutcome(request: Request, before: Snapshot, tagOf: (string, string) -> string): Outcome {
    match request
    case Switch(lookup, subscription, node, _, skipProbe, now, w) =>
      SelectionOutcome(before.persisted, before.live, lookup, PinnedTag(before.persisted, lookup, tagOf),
                       Node(tagOf(subscription, node)), skipProbe, now, w)
    case FailOpen(_, w) => FailOpenOutcome(w)
    case Tunnel(tag, _, _, _, w) => if tag in before.handlers then TunnelOutcome(w) else NotHandled
    case _ => Done
  }

  /** Which failures of a request leave a settled route settled. */
  predicate KeepsPin(request: Request, before: Snapshot, tagOf: (string, string) -> string) {
    var s := before.persisted;
    match request
    case Switch(lookup, subscription, node, _, skipProbe, now, w) =>
      if w.savePreserved then RestoresPin(s)
      else !(Pinned(s, before.live, lookup, w) && ForgetsDirect(s)
             && Intends(s, PinnedTag(s, lookup, tagOf), Node(tagOf(subscription, node)), skipProbe, now, w))
    case FailOpen(_, w) => !(w.saveIntent && !w.savePreserved && ForgetsDirect(s))
    case Tunnel(_, _, _, _, w) => !(w.saveIntent && !w.savePreserved && ForgetsDirect(s))
    case _ => true
  }

  /** The step is done or declined, or fails in a way that keeps the route settled. */
  predicate Clean(request: Request, step: Step, tagOf: (string, string) -> string) {
    step.outcome in {NotHandled, Done} || (step.outcome == Failed && KeepsPin(request, step.before, tagOf))
  }

  /** Every listed reserve has a handler. */
  ghost predicate ReservesBacked(s: Snapshot) {
    forall o :: o in s.persisted.outbounds && o.role == Reserve ==> o.tag in s.handlers
  }

  ghost predicate HasReserve(outbounds: seq<Outbound>, tag: Tag) {
    exists o :: o in outbounds && o.role == Reserve && o.tag == tag
  }

  /** The handler is selected, or the store can be read and lists it. */
  predicate Spared(s: Snapshot, tag: Tag, w: World) {
    (w.readsBack && s.live == tag) || (w.reload && Listed(s.persisted.outbounds, tag))
  }

  /** The requests that take the handler of a listed reserve: a switch that rejects it as its candidate, a
      cleanup that retires another entry of its tag, and a removal that cannot read the list. */
  ghost predicate LosesReserve(request: Request, before: Snapshot, tagOf: (string, string) -> string) {
    var s := before.persisted;
    match request
    case Switch(lookup, subscription, node, _, skipProbe, now, w) =>
      var candidate := Node(tagOf(subscription, node));
      && Pinned(s, before.live, lookup, w) && w.remove && HasReserve(s.outbounds, candidate)
      && Rejects(s, PinnedTag(s, lookup, tagOf), candidate, skipProbe, now, w)
    case Cleanup(now, stuck, w) =>
      w.readsBack && exists o ::
        o in s.outbounds && o.role == Reserve && Retired(s.outbounds, o.tag, now, before.live, s.operation, stuck)
    case SafeRemove(tag, _, w) => !Spared(before, tag, w) && w.remove && HasReserve(s.outbounds, tag)
    case _ => false
  }

  // ----- What a node selection leaves behind -----

  lemma FailedSelection(s: RuntimeState, live: Tag, lookup: Lookup, current: Tag, candidate: Tag,
                        subscription: string, node: string, chosen: SelectionMode, skipProbe: bool, now: int, w: World)
    requires Handled(s, live, lookup, w) && !Reaches(s, live, lookup, current, candidate, skipProbe, now, w)
    ensures var after := SelectionState(s, live, lookup, current, candidate, subscription, node, chosen, skipProbe, now,
                                        w);
            if w.savePreserved then Restored(after, s) else SameConnection(after, s)
  {
  }

  lemma RecordedSelection(s: RuntimeState, live: Tag, lookup: Lookup, current: Tag, candidate: Tag,
                          subscription: string, node: string, chosen: SelectionMode, skipProbe: bool, now: int,
                          w: World)
    requires Reaches(s, live, lookup, current, candidate, skipProbe, now, w) && w.saveCommit && w.readCommitted
    ensures OnRoute(SelectionState(s, live, lookup, current, candidate, subscription, node, chosen, skipProbe, now, w),
                    candidate, subscription, node)
  {
    var latest := Switched(s, live, lookup, current, candidate, subscription, node, skipProbe, now, w);
    WithOutboundListed(if w.reload then latest.outbounds else s.outbounds,
                       Entry(candidate, subscription, node, Active).(verifiedAt := Some(now)));
  }

  lemma SwitchedSelects(s: RuntimeState, live: Tag, lookup: Lookup, current: Tag, candidate: Tag, subscription: string,
                        node: string, skipProbe: bool, now: int, w: World)
    ensures Switched(s, live, lookup, current, candidate, subscription, node, skipProbe, now, w).selected == s.selected
  {
  }

  lemma ConcludedSelects(latest: RuntimeState, before: RuntimeState, switched: bool, live: Tag, subscription: string,
                         node: string, chosen: SelectionMode, now: int, w: World)
    requires latest.selected == before.selected
    ensures Selected(Concluded(latest, before, switched, live, subscription, node, chosen, now, w)) ==
              if switched && w.saveCommit && w.readCommitted then live else Selected(before)
  {
  }

  lemma ConcludedCovers(latest: RuntimeState, before: RuntimeState, switched: bool, live: Tag, subscription: string,
                        node: string, chosen: SelectionMode, now: int, w: World, handlers: set<Tag>)
    requires latest.selected == before.selected && Covered(Snapshot(latest, live, handlers))
    ensures Covered(Snapshot(Concluded(latest, before, switched, live, subscription, node, chosen, now, w), live,
                             handlers))
            <==> if switched then w.saveCommit && !w.readCommitted ==> live == Selected(before)
                 else w.savePreserved ==> live == Selected(before)
  {
  }

  lemma SwitchedIsCovered(s: RuntimeState, live: Tag, lookup: Lookup, current: Tag, candidate: Tag,
                          subscription: string, node: string, skipProbe: bool, now: int, w: World, handlers: set<Tag>)
    requires live == Selected(s) && !Exposes(s, live, lookup, current, w)
    ensures Covered(Snapshot(Switched(s, live, lookup, current, candidate, subscription, node, skipProbe, now, w),
                             SelectionLive(s, live, lookup, current, candidate, skipProbe, now, w), handlers))
  {
    assert Pinned(s, live, lookup, w) ==> Covered(Snapshot(s, current, {}));
  }

  lemma SelectionCovers(s: RuntimeState, live: Tag, lookup: Lookup, current: Tag, candidate: Tag, subscription: string,
                        node: string, chosen: SelectionMode, skipProbe: bool, now: int, w: World, handlers: set<Tag>)
    requires live == Selected(s) && !Exposes(s, live, lookup, current, w)
    ensures Covered(Snapshot(SelectionState(s, live, lookup, current, candidate, subscription, node, chosen, skipProbe,
                                            now, w),
                             SelectionLive(s, live, lookup, current, candidate, skipProbe, now, w), handlers))
            <==> StaysCovered(s, live, lookup, current, candidate, skipProbe, now, w)
  {
    var latest := Switched(s, live, lookup, current, candidate, subscription, node, skipProbe, now, w);
    var done := Reaches(s, live, lookup, current, candidate, skipProbe, now, w);
    var left := SelectionLive(s, live, lookup, current, candidate, skipProbe, now, w);
    SwitchedSelects(s, live, lookup, current, candidate, subscription, node, skipProbe, now, w);
    SwitchedIsCovered(s, live, lookup, current, candidate, subscription, node, skipProbe, now, w, handlers);
    ConcludedCovers(latest, s, done, left, subscription, node, chosen, now, w, handlers);
  }

  /** Persisted and live tags that agree before a selection agree after it exactly as `EndsInAgreement` says. */
  lemma SelectionAgrees(s: RuntimeState, live: Tag, lookup: Lookup, current: Tag, candidate: Tag,
                        subscription: string, node: string, chosen: SelectionMode, skipProbe: bool, now: int, w: World)
    requires live == Selected(s)
    ensures SelectionLive(s, live, lookup, current, candidate, skipProbe, now, w) ==
              Selected(SelectionState(s, live, lookup, current, candidate, subscription, node, chosen, skipProbe, now,
                                      w))
            <==> EndsInAgreement(s, live, lookup, current, candidate, skipProbe, now, w)
  {
    var latest := Switched(s, live, lookup, current, candidate, subscription, node, skipProbe, now, w);
    var done := Reaches(s, live, lookup, current, candidate, skipProbe, now, w);
    SwitchedSelects(s, live, lookup, current, candidate, subscription, node, skipProbe, now, w);
    ConcludedSelects(latest, s, done, candidate, subscription, node, chosen, now, w);
  }

  /** A selection that fails leaves a settled route settled exactly as `KeepsPin` says. */
  lemma FailedSelectionPins(s: RuntimeState, live: Tag, lookup: Lookup, current: Tag, candidate: Tag,
                            subscription: string, node: string, chosen: SelectionMode, skipProbe: bool, now: int,
                            w: World, tagOf: (string, string) -> string)
    requires IsStamped(s) && PinsSelection(s, tagOf)
    requires Handled(s, live, lookup, w) && !Reaches(s, live, lookup, current, candidate, skipProbe, now, w)
    ensures PinsSelection(SelectionState(s, live, lookup, current, candidate, subscription, node, chosen, skipProbe,
                                         now,
                                         w), tagOf)
            <==> if w.savePreserved then RestoresPin(s)
                 else !(Pinned(s, live, lookup, w) && ForgetsDirect(s)
                        && Intends(s, current, candidate, skipProbe, now, w))
  {
    var after := SelectionState(s, live, lookup, current, candidate, subscription, node, chosen, skipProbe, now, w);
    FailedSelection(s, live, lookup, current, candidate, subscription, node, chosen, skipProbe, now, w);
    if w.savePreserved {
      RestoringKeepsPin(s, after, tagOf);
    } else if Pinned(s, live, lookup, w) && Intends(s, current, candidate, skipProbe, now, w) {
      IntentKeepsPin(s, after, tagOf);
    } else {
      SamePin(s, after, tagOf);
    }
  }

  /** No outbound becomes a reserve but the candidate. */
  ghost predicate AddsReserve(after: seq<Outbound>, before: seq<Outbound>, candidate: Tag) {
    forall o :: o in after && o.role == Reserve ==> o in before || o.tag == candidate
  }

  lemma SwitchAddsReserve(s: RuntimeState, current: Tag, candidate: Tag, subscription: string, node: string, now: int)
    ensures AddsReserve(SwitchIntent(s, current, candidate, subscription, node, now).outbounds, s.outbounds, candidate)
    ensures AddsReserve(SwitchDone(s, current, candidate, subscription, node, now).outbounds, s.outbounds, candidate)
  {
  }

  lemma MovedReserves(s: RuntimeState, current: Tag, candidate: Tag, subscription: string, node: string,
                      skipProbe: bool, now: int, w: World)
    ensures var after := Moved(s, current, candidate, subscription, node, skipProbe, now, w).outbounds;
            if w.prepareCandidate && !Rejects(s, current, candidate, skipProbe, now, w)
            then AddsReserve(after, s.outbounds, candidate) else after == s.outbounds
  {
    SwitchAddsReserve(s.(transport := EffectiveTransport(s)), current, candidate, subscription, node, now);
  }

  lemma ConcludedReserves(latest: RuntimeState, before: RuntimeState, switched: bool, live: Tag, subscription: string,
                          node: string, chosen: SelectionMode, now: int, w: World, candidate: Tag)
    requires AddsReserve(latest.outbounds, before.outbounds, candidate)
    ensures AddsReserve(Concluded(latest, before, switched, live, subscription, node, chosen, now, w).outbounds,
                        before.outbounds, candidate)
    ensures !switched && latest.outbounds == before.outbounds ==>
              Concluded(latest, before, switched, live, subscription, node, chosen, now,
                        w).outbounds == before.outbounds
  {
  }

  lemma SelectionReserves(s: RuntimeState, live: Tag, lookup: Lookup, current: Tag, candidate: Tag,
                          subscription: string, node: string, chosen: SelectionMode, skipProbe: bool, now: int,
                          w: World)
    ensures var after := SelectionState(s, live, lookup, current, candidate, subscription, node, chosen, skipProbe, now,
                                        w).outbounds;
            if Pinned(s, live, lookup, w) && w.prepareCandidate && !Rejects(s, current, candidate, skipProbe, now, w)
            then AddsReserve(after, s.outbounds, candidate) else after == s.outbounds
  {
    var latest := Switched(s, live, lookup, current, candidate, subscription, node, skipProbe, now, w);
    var done := Reaches(s, live, lookup, current, candidate, skipProbe, now, w);
    MovedReserves(s, current, candidate, subscription, node, skipProbe, now, w);
    ConcludedReserves(latest, s, done, candidate, subscription, node, chosen, now, w, candidate);
  }

  lemma ReservesStay(after: RuntimeState, before: RuntimeState, live: Tag, left: Tag, candidate: Tag,
                     handlers: set<Tag>, kept: set<Tag>, tried: bool, lost: bool)
    requires ReservesBacked(Snapshot(before, live, handlers)) && handlers - {candidate} <= kept
    requires if tried then AddsReserve(after.outbounds, before.outbounds, candidate) && candidate in kept
             else after.outbounds == before.outbounds
    requires if lost then !tried && candidate !in kept else handlers <= kept
    ensures ReservesBacked(Snapshot(after, left, kept)) <==> !(lost && HasReserve(before.outbounds, candidate))
  {
  }

  /** A selection takes the handler of a listed reserve exactly by rejecting it. */
  lemma SelectionKeepsReserves(s: RuntimeState, live: Tag, lookup: Lookup, current: Tag, candidate: Tag,
                               subscription: string, node: string, chosen: SelectionMode, skipProbe: bool, now: int,
                               w: World, handlers: set<Tag>, left: Tag)
    requires ReservesBacked(Snapshot(s, live, handlers))
    ensures ReservesBacked(Snapshot(SelectionState(s, live, lookup, current, candidate, subscription, node, chosen,
                                                   skipProbe, now, w), left,
                                    SelectionHandlers(s, live, lookup, current, candidate, skipProbe, now, w,
                                                      handlers)))
            <==> !(Pinned(s, live, lookup, w) && w.remove && HasReserve(s.outbounds, candidate)
                   && Rejects(s, current, candidate, skipProbe, now, w))
  {
    var pinned, rejected := Pinned(s, live, lookup, w), Rejects(s, current, candidate, skipProbe, now, w);
    SelectionReserves(s, live, lookup, current, candidate, subscription, node, chosen, skipProbe, now, w);
    ReservesStay(SelectionState(s, live, lookup, current, candidate, subscription, node, chosen, skipProbe, now, w), s,
                 live, left, candidate, handlers,
                 SelectionHandlers(s, live, lookup, current, candidate, skipProbe, now, w, handlers),
                 pinned && w.prepareCandidate && !rejected, pinned && rejected && w.remove);
  }

  lemma SwitchKeepsReserves(request: Request, before: Snapshot, after: Snapshot, tagOf: (string, string) -> string)
    requires request.Switch?
    requires var Switch(lookup, subscription, node, chosen, skipProbe, now, w) := request;
             var s, current, to := before.persisted, PinnedTag(before.persisted, lookup, tagOf),
                                   Node(tagOf(subscription, node));
             && after.persisted == SelectionState(s, before.live, lookup, current, to, subscription, node, chosen,
                                                  skipProbe, now, w)
             && after.handlers == SelectionHandlers(s, before.live, lookup, current, to, skipProbe, now, w,
                                                    before.handlers)
    ensures ReservesBacked(before) ==> (ReservesBacked(after) <==> !LosesReserve(request, before, tagOf))
  {
    if ReservesBacked(before) {
      var Switch(lookup, subscription, node, chosen, skipProbe, now, w) := request;
      SelectionKeepsReserves(before.persisted, before.live, lookup, PinnedTag(before.persisted, lookup, tagOf),
                             Node(tagOf(subscription, node)), subscription, node, chosen, skipProbe, now, w,
                             before.handlers, after.live);
    }
  }

  lemma CleanupKeepsReserves(now: int, stuck: set<Tag>, w: World, before: Snapshot, after: Snapshot,
                             tagOf: (string, string) -> string)
    requires var s, live := before.persisted, before.live;
             if w.readsBack
             then (forall t :: t in after.handlers <==>
                     t in before.handlers && !Retired(s.outbounds, t, now, live, s.operation, stuck))
             else after.handlers == before.handlers
    requires after.persisted.outbounds in
               {before.persisted.outbounds,
                Kept(before.persisted.outbounds, now, before.live, before.persisted.operation, stuck)}
    ensures ReservesBacked(before) ==>
              (ReservesBacked(after) <==> !LosesReserve(Cleanup(now, stuck, w), before, tagOf))
  {
    var s := before.persisted;
    KeptMeaning(s.outbounds, now, before.live, s.operation, stuck);
    forall o | o in s.outbounds && o.role == Reserve ensures o in after.persisted.outbounds {
    }
  }

  lemma RemovalKeepsReserves(tag: Tag, now: int, w: World, before: Snapshot, after: Snapshot,
                             tagOf: (string, string) -> string)
    requires after.handlers == if Spared(before, tag, w) || !w.remove then before.handlers else before.handlers - {tag}
    requires var outbounds := before.persisted.outbounds;
             if Spared(before, tag, w) || w.remove || !w.saveCommit then after.persisted.outbounds == outbounds
             else after.persisted.outbounds == WithOutbound(outbounds, RetiredNow(tag, now))
    ensures ReservesBacked(before) ==>
              (ReservesBacked(after) <==> !LosesReserve(SafeRemove(tag, now, w), before, tagOf))
  {
  }

  lemma SwitchedIsStamped(s: RuntimeState, live: Tag, lookup: Lookup, current: Tag, candidate: Tag,
                          subscription: string, node: string, skipProbe: bool, now: int, w: World)
    requires IsStamped(s)
    ensures IsStamped(Switched(s, live, lookup, current, candidate, subscription, node, skipProbe, now, w))
  {
  }

  lemma ConcludedIsStamped(latest: RuntimeState, before: RuntimeState, switched: bool, live: Tag, subscription: string,
                           node: string, chosen: SelectionMode, now: int, w: World)
    requires IsStamped(latest)
    ensures IsStamped(Concluded(latest, before, switched, live, subscription, node, chosen, now, w))
  {
  }

  lemma SelectionIsStamped(s: RuntimeState, live: Tag, lookup: Lookup, current: Tag, candidate: Tag,
                           subscription: string, node: string, chosen: SelectionMode, skipProbe: bool, now: int,
                           w: World)
    requires IsStamped(s)
    ensures IsStamped(SelectionState(s, live, lookup, current, candidate, subscription, node, chosen, skipProbe, now,
                                     w))
  {
    SwitchedIsStamped(s, live, lookup, current, candidate, subscription, node, skipProbe, now, w);
    ConcludedIsStamped(Switched(s, live, lookup, current, candidate, subscription, node, skipProbe, now, w), s,
                       Reaches(s, live, lookup, current, candidate, skipProbe, now, w), candidate, subscription, node,
                       chosen, now, w);
  }

  lemma AbandonedPins(s: RuntimeState, from: Option<Tag>, to: Tag, w: World, tagOf: (string, string) -> string)
    requires IsStamped(s) && PinsSelection(s, tagOf)
    ensures PinsSelection(Abandoned(s, Intent(s, from, to), w), tagOf) <==>
              !(w.saveIntent && !w.savePreserved && ForgetsDirect(s))
  {
    if w.saveIntent && !w.savePreserved {
      IntentKeepsPin(s, Stamped(Intent(s, from, to)), tagOf);
    } else {
      SamePin(s, Abandoned(s, Intent(s, from, to), w), tagOf);
    }
  }

  lemma RecordedSelectionPins(s: RuntimeState, live: Tag, lookup: Lookup, current: Tag, candidate: Tag,
                              subscription: string, node: string, chosen: SelectionMode, skipProbe: bool, now: int,
                              w: World, tagOf: (string, string) -> string)
    requires Reaches(s, live, lookup, current, candidate, skipProbe, now, w) && w.saveCommit && w.readCommitted
    requires candidate == Node(tagOf(subscription, node))
    ensures PinsSelection(SelectionState(s, live, lookup, current, candidate, subscription, node, chosen, skipProbe,
                                         now,
                                         w), tagOf)
  {
    RecordedSelection(s, live, lookup, current, candidate, subscription, node, chosen, skipProbe, now, w);
  }

  class Router {
    const tagOf: (string, string) -> string
    var persisted: RuntimeState
    var live: Tag
    var handlers: set<Tag>
    /** Every state exposed so far was `Covered`, and every one `Backed`. */
    ghost var everCovered: bool
    ghost var everBacked: bool

    constructor (tagOf: (string, string) -> string, persisted: RuntimeState, live: Tag, handlers: set<Tag>)
      ensures this.tagOf == tagOf && this.persisted == persisted && this.live == live && this.handlers == handlers
      ensures everCovered && everBacked
    {
      this.tagOf, this.persisted, this.live, this.handlers := tagOf, persisted, live, handlers;
      everCovered, everBacked := true, true;
    }

    ghost function Now(): Snapshot
      reads this
    {
      Snapshot(persisted, live, handlers)
    }

    predicate Agrees()
      reads this
    {
      live == Selected(persisted)
    }

    /** Persisted and live tags agree, and so does the tag a switch would take for the current route. */
    ghost predicate Settled()
      reads this
    {
      Agrees() && PinsSelection(persisted, tagOf)
    }

    // ----- Single calls -----

    method Save(s: RuntimeState, ok: bool)
      modifies this
      ensures persisted == if ok then Stamped(s) else old(persisted)
      ensures live == old(live) && handlers == old(handlers)
      ensures everCovered == (old(everCovered) && Covered(Now())) && everBacked == (old(everBacked) && Backed(Now()))
    {
      if ok {
        persisted := Stamped(s);
      }
      everCovered, everBacked := everCovered && Covered(Now()), everBacked && Backed(Now());
    }

    /** Selecting needs the handler; a failed select changes nothing. */
    method Select(tag: Tag, ok: bool) returns (done: bool)
      modifies this
      ensures done == (ok && (tag == Direct || tag in handlers))
      ensures live == if done then tag else old(live)
      ensures persisted == old(persisted) && handlers == old(handlers)
      ensures everCovered == (old(everCovered) && Covered(Now())) && everBacked == (old(everBacked) && Backed(Now()))
    {
      done := ok && (tag == Direct || tag in handlers);
      if done {
        live := tag;
      }
      everCovered, everBacked := everCovered && Covered(Now()), everBacked && Backed(Now());
    }

    /** A rollback select: by assumption it succeeds when the handler is there. */
    method Rollback(tag: Tag)
      modifies this
      ensures live == if tag == Direct || tag in handlers then tag else old(live)
      ensures persisted == old(persisted) && handlers == old(handlers)
      ensures everCovered == (old(everCovered) && Covered(Now())) && everBacked == (old(everBacked) && Backed(Now()))
    {
      var done := Select(tag, true);
    }

    method Prepare(tag: Tag, ok: bool)
      modifies this
      ensures handlers == if ok then old(handlers) + {tag} else old(handlers)
      ensures live == old(live) && persisted == old(persisted)
      ensures everCovered == (old(everCovered) && Covered(Now())) && everBacked == (old(everBacked) && Backed(Now()))
    {
      if ok {
        handlers := handlers + {tag};
      }
      everCovered, everBacked := everCovered && Covered(Now()), everBacked && Backed(Now());
    }

    method Remove(tag: Tag, ok: bool)
      modifies this
      ensures handlers == if ok then old(handlers) - {tag} else old(handlers)
      ensures live == old(live) && persisted == old(persisted)
      ensures everCovered == (old(everCovered) && Covered(Now())) && everBacked == (old(everBacked) && Backed(Now()))
    {
      if ok {
        handlers := handlers - {tag};
      }
      everCovered, everBacked := everCovered && Covered(Now()), everBacked && Backed(Now());
    }

    // ----- Fail-open to direct -----

    method ActivateManagedDirect(now: int, w: World) returns (r: Outcome)
      requires Backed(Now())
      modifies this
      ensures r in {Failed, Done, CommitUnsaved}
      ensures r == FailOpenOutcome(w)
      ensures handlers == old(handlers)
      ensures r == Done ==> persisted == Stamped(DirectState(old(persisted), now)) && live == Direct
      ensures r == CommitUnsaved ==>
        live == Direct && persisted == Stamped(Intent(old(persisted), old(persisted).selected, Direct))
      ensures r == Failed ==>
                persisted == Abandoned(old(persisted), Intent(old(persisted), old(persisted).selected, Direct), w)
      ensures r == Failed && old(Agrees()) ==> live == old(live)
      ensures Backed(Now()) && everBacked == old(everBacked)
      ensures old(Agrees()) ==> everCovered == old(everCovered)
      ensures old(Agrees()) ==> (Agrees() <==> r != CommitUnsaved || Selected(old(persisted)) == Direct)
    {
      var s := persisted;
      var from := s.selected;
      Save(Intent(s, from, Direct), w.saveIntent);
      if !w.saveIntent {
        return Failed;
      }
      var selected := Select(Direct, w.selectDirect);
      if !selected {
        Save(s.(operation := None), w.savePreserved);
        return Failed;
      }
      if !w.persistConfig {
        if from.Some? {
          Rollback(from.value);
        }
        Save(s.(operation := None), w.savePreserved);
        return Failed;
      }
      Save(DirectState(s, now), w.saveCommit);
      r := if w.saveCommit then Done else CommitUnsaved;
    }

    // ----- The switch to an AmneziaWG tunnel -----

    /** From the saved intent to the commit; `tag` is the verified tunnel's outbound. */
    method ConnectTunnel(tag: Tag, profile: string, chosen: SelectionMode, now: int, w: World) returns (r: Outcome)
      requires Backed(Now()) && tag in handlers
      modifies this
      ensures r in {Failed, Done}
      ensures r == TunnelOutcome(w)
      ensures handlers == old(handlers)
      ensures r == Done ==> persisted == Stamped(TunnelState(old(persisted), tag, profile, chosen, now)) && live == tag
      ensures r == Failed ==>
        persisted == Abandoned(old(persisted), Intent(old(persisted), Some(Selected(old(persisted))), tag), w)
      ensures r == Failed && old(Agrees()) ==> live == old(live)
      ensures Backed(Now()) && everBacked == old(everBacked)
      ensures old(Agrees()) ==> everCovered == old(everCovered) && Agrees()
    {
      var s := persisted;
      var previous := Selected(s);
      Save(Intent(s, Some(previous), tag), w.saveIntent);
      if !w.saveIntent {
        return Failed;
      }
      var selected := Select(tag, w.select);
      if !selected {
        Save(s.(operation := None), w.savePreserved);
        return Failed;
      }
      if !w.loadSettings || !w.egress {
        Rollback(previous);
        Save(s.(operation := None), w.savePreserved);
        return Failed;
      }
      Save(TunnelState(s, tag, profile, chosen, now), w.saveCommit);
      if !w.saveCommit {
        Rollback(previous);
        Save(s.(operation := None), w.savePreserved);
        return Failed;
      }
      r := Done;
    }

    // ----- The managed switch -----

    /** Settles the current route; `Done` once its tag is known and, for an Xray route, selected. */
    method PinCurrent(lookup: Lookup, w: World) returns (r: Outcome, current: Tag)
      requires Backed(Now())
      modifies this
      ensures r in {NotHandled, Failed, Done}
      ensures persisted == old(persisted)
      ensures r != NotHandled <==> Handled(persisted, old(live), lookup, w)
      ensures r == Done <==> Pinned(persisted, old(live), lookup, w)
      ensures r == Done ==> current == PinnedTag(persisted, lookup, tagOf) && live == current
      ensures r != Done ==> live == old(live)
      ensures handlers == PinHandlers(persisted, lookup, PinnedTag(persisted, lookup, tagOf), w, old(handlers))
      ensures Backed(Now()) && everBacked == old(everBacked)
      ensures everCovered ==> old(everCovered) && (live != old(live) ==> Covered(Now()))
      ensures old(Agrees()) ==> everCovered == (old(everCovered) && Covered(Now()))
    {
      var s := persisted;
      current := Direct;
      if !HasRoute(s) {
        return NotHandled, current;
      }
      if s.mode == DirectMode {
        var selected := Select(Direct, w.selectDirect);
        return if selected then Done else NotHandled, current;
      }
      if s.kind == AmneziaWg {
        current := Selected(s);
        return if s.selected.None? || !w.readsBack || live != current then NotHandled else Done, current;
      }
      match lookup {
        case SubscriptionMissing => return NotHandled, current;
        case NodeMissing =>
          current := Selected(s);
          if s.selected.None? || !w.readsBack || live != current {
            return NotHandled, current;
          }
        case NodeFound =>
          current := Node(tagOf(s.subscription, s.node));
          Prepare(current, w.prepareCurrent);
          if !w.prepareCurrent {
            return NotHandled, current;
          }
      }
      var pinned := Select(current, w.pin);
      r := if pinned then Done else Failed;
    }

    /** A failed probe pauses the candidate and removes its handler. */
    method RejectCandidate(candidate: Tag, now: int, w: World)
      requires Backed(Now()) && live != candidate
      modifies this
      ensures live == old(live)
      ensures persisted == Paused(old(persisted), candidate, now, w)
      ensures handlers == if w.remove then old(handlers) - {candidate} else old(handlers)
      ensures everCovered ==> old(everCovered)
      ensures Backed(Now()) && everBacked == old(everBacked)
      ensures old(Covered(Now())) ==> Covered(Now()) && everCovered == old(everCovered)
    {
      var failures := if candidate in persisted.backoff then persisted.backoff[candidate].failures + 1 else 1;
      var delay := if failures == 1 then 300 else if failures == 2 then 600 else if failures == 3 then 1200 else 1800;
      Save(persisted.(backoff := persisted.backoff[candidate := Backoff(failures, now + delay)]), w.saveBackoff);
      Remove(candidate, w.remove);
    }

    /** Intent, select, verify, persist; on failure the current handler is selected again. */
    method SwitchTo(s: RuntimeState, current: Tag, candidate: Tag, subscription: string, node: string, now: int,
                    w: World)
      returns (ok: bool)
      requires Backed(Now()) && live == current && candidate in handlers
      requires s == persisted.(transport := EffectiveTransport(persisted))
      modifies this
      ensures handlers == old(handlers)
      ensures ok <==> Switches(w)
      ensures live == if ok then candidate else current
      ensures persisted == if ok then SwitchDone(s, current, candidate, subscription, node, now)
                           else if w.saveIntent then SwitchIntent(s, current, candidate, subscription, node, now)
                           else old(persisted)
      ensures everCovered ==> old(everCovered)
      ensures Backed(Now()) && everBacked == old(everBacked)
      ensures old(Covered(Now())) ==> Covered(Now()) && everCovered == old(everCovered)
    {
      var intent := SwitchIntent(s, current, candidate, subscription, node, now);
      Save(intent, w.saveIntent);
      if !w.saveIntent {
        return false;
      }
      var selected := Select(candidate, w.select);
      if !selected {
        return false;
      }
      if !w.egress || !w.persistConfig {
        Rollback(current);
        return false;
      }
      Save(SwitchDone(s, current, candidate, subscription, node, now), w.saveSwitched);
      if !w.saveSwitched {
        Rollback(current);
        return false;
      }
      ok := true;
    }

    /** Probes the candidate; a recovery from direct mode waits and probes again. */
    method Confirm(candidate: Tag, skipProbe: bool, now: int, w: World) returns (ok: bool)
      requires Backed(Now()) && live != candidate
      modifies this
      ensures ok <==> Confirmed(old(persisted), skipProbe, w)
      ensures live == old(live)
      ensures persisted == if ProbeFails(old(persisted), skipProbe, w) then Paused(old(persisted), candidate, now, w)
                           else old(persisted)
      ensures handlers == if ProbeFails(old(persisted), skipProbe, w) && w.remove then old(handlers) - {candidate}
                          else old(handlers)
      ensures Backed(Now()) && everBacked == old(everBacked)
      ensures old(Covered(Now())) ==> Covered(Now()) && everCovered == old(everCovered)
      ensures everCovered ==> old(everCovered)
    {
      var directRecovery := persisted.mode == DirectMode;
      if (!skipProbe || directRecovery) && !w.probe {
        RejectCandidate(candidate, now, w);
        return false;
      }
      if directRecovery && !w.wait {
        return false;
      }
      if directRecovery && !w.confirm {
        RejectCandidate(candidate, now, w);
        return false;
      }
      ok := true;
    }

    method ConfirmAndSwitch(s: RuntimeState, current: Tag, candidate: Tag, subscription: string, node: string,
                            skipProbe: bool, now: int, w: World)
      returns (done: bool)
      requires Backed(Now()) && live == current != candidate && candidate in handlers
      requires s == persisted.(transport := EffectiveTransport(persisted))
      modifies this
      ensures done <==> Confirmed(old(persisted), skipProbe, w) && Switches(w)
      ensures live == if done then candidate else current
      ensures persisted ==
              if done then SwitchDone(s, current, candidate, subscription, node, now)
              else if ProbeFails(old(persisted), skipProbe, w) then Paused(old(persisted), candidate, now, w)
              else if Confirmed(old(persisted), skipProbe, w) && w.saveIntent
              then SwitchIntent(s, current, candidate, subscription, node, now)
              else old(persisted)
      ensures handlers == if ProbeFails(old(persisted), skipProbe, w) && w.remove then old(handlers) - {candidate}
                          else old(handlers)
      ensures Backed(Now()) && everBacked == old(everBacked)
      ensures old(Covered(Now())) ==> Covered(Now()) && everCovered == old(everCovered)
      ensures everCovered ==> old(everCovered)
    {
      var confirmed := Confirm(candidate, skipProbe, now, w);
      if !confirmed {
        return false;
      }
      done := SwitchTo(s, current, candidate, subscription, node, now, w);
    }

    /** The prepared candidate is probed and switched to; choosing the current node only writes the
        configuration. */
    method SwitchPrepared(s: RuntimeState, current: Tag, candidate: Tag, subscription: string, node: string,
                          skipProbe: bool, now: int, w: World)
      returns (done: bool)
      requires Backed(Now()) && live == current && candidate in handlers
      requires w.prepareCandidate && !IsPaused(persisted, candidate, now)
      requires s == persisted.(transport := EffectiveTransport(persisted))
      modifies this
      ensures done <==> Proceeds(old(persisted), current, candidate, skipProbe, now, w)
      ensures live == if done then candidate else current
      ensures persisted == Moved(old(persisted), current, candidate, subscription, node, skipProbe, now, w)
      ensures handlers == if Rejects(old(persisted), current, candidate, skipProbe, now, w) && w.remove
                          then old(handlers) - {candidate} else old(handlers)
      ensures Backed(Now()) && everBacked == old(everBacked)
      ensures old(Covered(Now())) ==> Covered(Now()) && everCovered == old(everCovered)
      ensures everCovered ==> old(everCovered)
    {
      if candidate == current {
        return w.persistConfig;
      }
      done := ConfirmAndSwitch(s, current, candidate, subscription, node, skipProbe, now, w);
    }

    /** Preparing the candidate, then probing it and the switch proper. */
    method MoveFrom(s: RuntimeState, current: Tag, subscription: string, node: string, skipProbe: bool, now: int,
                    w: World)
      returns (done: bool)
      requires Backed(Now()) && live == current
      requires s == persisted.(transport := EffectiveTransport(persisted))
      modifies this
      ensures done <==> Proceeds(old(persisted), current, Node(tagOf(subscription, node)), skipProbe, now, w)
      ensures live == if done then Node(tagOf(subscription, node)) else current
      ensures persisted == Moved(old(persisted), current, Node(tagOf(subscription, node)), subscription, node,
                                 skipProbe, now, w)
      ensures handlers == TryHandlers(old(persisted), current, Node(tagOf(subscription, node)), skipProbe, now, w,
                                      old(handlers))
      ensures Backed(Now()) && everBacked == old(everBacked)
      ensures old(Covered(Now())) ==> Covered(Now()) && everCovered == old(everCovered)
      ensures everCovered ==> old(everCovered)
    {
      var candidate := Node(tagOf(subscription, node));
      Prepare(candidate, w.prepareCandidate);
      if !w.prepareCandidate || IsPaused(s, candidate, now) {
        return false;
      }
      done := SwitchPrepared(s, current, candidate, subscription, node, skipProbe, now, w);
    }

    method TryManagedNodeSelection(s: RuntimeState, lookup: Lookup, subscription: string, node: string, skipProbe: bool,
                                   now: int, w: World)
      returns (r: Outcome)
      requires Backed(Now())
      requires s == persisted.(transport := EffectiveTransport(persisted))
      modifies this
      ensures r in {NotHandled, Failed, Done}
      ensures r != NotHandled <==> Handled(old(persisted), old(live), lookup, w)
      ensures r == Done <==>
        Reaches(old(persisted), old(live), lookup, PinnedTag(old(persisted), lookup, tagOf),
                Node(tagOf(subscription, node)), skipProbe, now, w)
      ensures live == SelectionLive(old(persisted), old(live), lookup, PinnedTag(old(persisted), lookup, tagOf),
                                    Node(tagOf(subscription, node)), skipProbe, now, w)
      ensures persisted == Switched(old(persisted), old(live), lookup, PinnedTag(old(persisted), lookup, tagOf),
                                    Node(tagOf(subscription, node)), subscription, node, skipProbe, now, w)
      ensures handlers == SelectionHandlers(old(persisted), old(live), lookup,
                                            PinnedTag(old(persisted), lookup, tagOf), Node(tagOf(subscription, node)),
                                            skipProbe, now, w, old(handlers))
      ensures Backed(Now()) && everBacked == old(everBacked)
      ensures old(Agrees()) ==>
        && everCovered == (old(everCovered) && !Exposes(old(persisted), old(live), lookup,
                                                        PinnedTag(old(persisted), lookup, tagOf), w))
      ensures Exposes(old(persisted), old(live), lookup, PinnedTag(old(persisted), lookup, tagOf), w) ==> !everCovered
    {
      var pinned, current := PinCurrent(lookup, w);
      if pinned != Done {
        return pinned;
      }
      var done := MoveFrom(s, current, subscription, node, skipProbe, now, w);
      r := if done then Done else Failed;
    }

    /** The two ends of a handled switch: the new route recorded as the backend reads it back, or the old
        connection written back. `before` is the state the selection started from. */
    method Conclude(before: RuntimeState, switched: bool, subscription: string, node: string, chosen: SelectionMode,
                    now: int, w: World)
      returns (r: Outcome)
      modifies this
      ensures live == old(live) && handlers == old(handlers)
      ensures r == if switched then CommitOutcome(w) else Failed
      ensures persisted == Concluded(old(persisted), before, switched, live, subscription, node, chosen, now, w)
      ensures everBacked == (old(everBacked) && Backed(Now()))
      ensures everCovered == (old(everCovered) && Covered(Now()))
    {
      var s := before.(transport := EffectiveTransport(before));
      if !switched {
        Save(Preserved(if w.reload then persisted else s, s), w.savePreserved);
        return Failed;
      }
      Save(Committed(persisted, s, w, live, subscription, node, chosen, now), w.saveCommit);
      r := CommitOutcome(w);
    }

    method SelectNode(lookup: Lookup, subscription: string, node: string, chosen: SelectionMode, skipProbe: bool,
                      now: int, w: World)
      returns (r: Outcome)
      requires Backed(Now())
      modifies this
      ensures r == SelectionOutcome(old(persisted), old(live), lookup, PinnedTag(old(persisted), lookup, tagOf),
                                    Node(tagOf(subscription, node)), skipProbe, now, w)
      ensures persisted == SelectionState(old(persisted), old(live), lookup, PinnedTag(old(persisted), lookup, tagOf),
                                          Node(tagOf(subscription,
                                                     node)), subscription, node, chosen, skipProbe, now, w)
      ensures live == SelectionLive(old(persisted), old(live), lookup, PinnedTag(old(persisted), lookup, tagOf),
                                    Node(tagOf(subscription, node)), skipProbe, now, w)
      ensures handlers == SelectionHandlers(old(persisted), old(live), lookup,
                                            PinnedTag(old(persisted), lookup, tagOf), Node(tagOf(subscription, node)),
                                            skipProbe, now, w, old(handlers))
      ensures Backed(Now()) && everBacked == old(everBacked)
      ensures old(Agrees()) ==>
        everCovered == (old(everCovered) && Covered(Now())
                        && !Exposes(old(persisted), old(live), lookup, PinnedTag(old(persisted), lookup, tagOf), w))
      ensures Exposes(old(persisted), old(live), lookup, PinnedTag(old(persisted), lookup, tagOf), w) ==> !everCovered
    {
      var before := persisted;
      var s := before.(transport := EffectiveTransport(before));
      r := TryManagedNodeSelection(s, lookup, subscription, node, skipProbe, now, w);
      if r != NotHandled {
        r := Conclude(before, r == Done, subscription, node, chosen, now, w);
      }
    }

    /** A node selection on a managed backend. A route the managed switch does not handle is left to the
        static reload, which is not part of this model. */
    method ApplyNodeSelection(lookup: Lookup, subscription: string, node: string, chosen: SelectionMode,
                              skipProbe: bool, now: int, w: World)
      returns (r: Outcome)
      requires Backed(Now())
      modifies this
      ensures var before, current, to := old(persisted), PinnedTag(old(persisted), lookup, tagOf),
                                         Node(tagOf(subscription, node));
              && r == SelectionOutcome(before, old(live), lookup, current, to, skipProbe, now, w)
              && persisted == SelectionState(before, old(live), lookup, current, to, subscription, node, chosen,
                                             skipProbe, now, w)
              && live == SelectionLive(before, old(live), lookup, current, to, skipProbe, now, w)
              && handlers == SelectionHandlers(before, old(live), lookup, current, to, skipProbe, now, w, old(handlers))
      ensures Backed(Now()) && everBacked == old(everBacked)
      ensures old(Agrees()) ==>
        var before, current, to := old(persisted), PinnedTag(old(persisted), lookup, tagOf),
                                   Node(tagOf(subscription, node));
        && (Agrees() <==> EndsInAgreement(before, old(live), lookup, current, to, skipProbe, now, w))
        && everCovered ==
             (old(everCovered) && StaysCovered(before, old(live), lookup, current, to, skipProbe, now, w))
      ensures Exposes(old(persisted), old(live), lookup, PinnedTag(old(persisted), lookup, tagOf), w) ==> !everCovered
    {
      ghost var before, current := persisted, PinnedTag(persisted, lookup, tagOf);
      ghost var to := Node(tagOf(subscription, node));
      r := SelectNode(lookup, subscription, node, chosen, skipProbe, now, w);
      if old(Agrees()) {
        SelectionAgrees(before, old(live), lookup, current, to, subscription, node, chosen, skipProbe, now, w);
        if !Exposes(before, old(live), lookup, current, w) {
          SelectionCovers(before, old(live), lookup, current, to, subscription, node, chosen, skipProbe, now, w,
                          handlers);
        }
      }
    }

    method RemoveRetired(now: int, stuck: set<Tag>) returns (kept: seq<Outbound>)
      requires Backed(Now())
      modifies this
      ensures live == old(live) && persisted == old(persisted)
      ensures kept == Kept(persisted.outbounds, now, live, persisted.operation, stuck)
      ensures |kept| <= |persisted.outbounds|
      ensures forall t :: t in handlers <==>
                t in old(handlers) && !Retired(persisted.outbounds, t, now, live, persisted.operation, stuck)
      ensures Backed(Now()) && everBacked == old(everBacked)
      ensures old(Covered(Now())) ==> everCovered == old(everCovered)
    {
      var s := persisted;
      kept := [];
      for i := 0 to |s.outbounds|
        invariant persisted == s && live == old(live)
        invariant kept == Kept(s.outbounds[..i], now, live, s.operation, stuck) && |kept| <= i
        invariant forall t :: t in handlers <==>
          t in old(handlers) && !Retired(s.outbounds[..i], t, now, live, s.operation, stuck)
        invariant Backed(Now()) && everBacked == old(everBacked)
        invariant old(Covered(Now())) ==> everCovered == old(everCovered)
      {
        var o := s.outbounds[i];
        assert s.outbounds[..i + 1][..i] == s.outbounds[..i];
        assert forall x :: x in s.outbounds[..i + 1] <==> x in s.outbounds[..i] || x == o;
        if !Due(o, now) || Protected(o.tag, live, s.operation) {
          kept := kept + [o];
          continue;
        }
        Remove(o.tag, o.tag !in stuck);
        if o.tag in stuck {
          kept := kept + [o];
        }
      }
      assert s.outbounds[..|s.outbounds|] == s.outbounds;
    }

    /** Removes retired handlers; `stuck` are the tags the backend refuses to remove. */
    method CleanupManagedOutbounds(now: int, stuck: set<Tag>, w: World)
      requires Backed(Now())
      modifies this
      ensures live == old(live)
      ensures !w.readsBack ==> persisted == old(persisted) && handlers == old(handlers)
      ensures w.readsBack ==> forall t :: t in handlers <==>
        t in old(handlers) && !Retired(old(persisted).outbounds, t, now, old(live), old(persisted).operation, stuck)
      ensures w.readsBack && w.saveCommit ==>
        var kept := Kept(old(persisted).outbounds, now, old(live), old(persisted).operation, stuck);
        persisted == if |kept| == |old(persisted).outbounds| then old(persisted)
                     else Stamped(old(persisted).(outbounds := kept))
      ensures !w.saveCommit ==> persisted == old(persisted)
      ensures Backed(Now()) && everBacked == old(everBacked)
      ensures old(Covered(Now())) ==> everCovered == old(everCovered)
    {
      if !w.readsBack {
        return;
      }
      var s := persisted;
      var kept := RemoveRetired(now, stuck);
      if |kept| < |s.outbounds| {
        Save(s.(outbounds := kept), w.saveCommit);
      }
    }

    /** Removes a handler unless it is selected or listed; a refused removal schedules a cleanup. */
    method SafeRemoveManagedOutbound(tag: Tag, now: int, w: World)
      requires Backed(Now())
      modifies this
      ensures live == old(live)
      ensures
        var spared := Spared(old(Now()), tag, w);
        && handlers == (if spared || !w.remove then old(handlers) else old(handlers) - {tag})
        && persisted == (if spared || w.remove || !w.saveCommit then old(persisted) else
             Stamped(old(persisted).(outbounds := WithOutbound(old(persisted).outbounds, RetiredNow(tag, now)))))
      ensures w.readsBack || tag != old(live) ==> Backed(Now()) && everBacked == old(everBacked)
      ensures old(Covered(Now())) ==> everCovered == old(everCovered)
    {
      if w.readsBack && live == tag {
        return;
      }
      if w.reload && Listed(persisted.outbounds, tag) {
        return;
      }
      Remove(tag, w.remove);
      if !w.remove {
        var outbounds := UpdateRuntimeOutbound(persisted.outbounds, RetiredNow(tag, now));
        Save(persisted.(outbounds := outbounds), w.saveCommit);
      }
    }

    // ----- Runs -----

    method HandleSwitch(request: Request) returns (r: Outcome)
      requires Backed(Now()) && request.Switch?
      modifies this
      ensures Backed(Now()) && everBacked == old(everBacked)
      ensures r == RequestOutcome(request, old(Now()), tagOf)
      ensures old(ReservesBacked(Now())) ==> (ReservesBacked(Now()) <==> !LosesReserve(request, old(Now()), tagOf))
      ensures old(Settled()) && IsStamped(old(persisted)) ==>
        && IsStamped(persisted)
        && (r == Failed ==> (Settled() <==> KeepsPin(request, old(Now()), tagOf)))
        && (r in {NotHandled, Done} ==> Settled())
        && (r in {NotHandled, Failed, Done} ==> everCovered == old(everCovered))
    {
      ghost var before := persisted;
      var Switch(lookup, subscription, node, chosen, skipProbe, now, w) := request;
      ghost var current, candidate := PinnedTag(before, lookup, tagOf), Node(tagOf(subscription, node));
      r := ApplyNodeSelection(lookup, subscription, node, chosen, skipProbe, now, w);
      SwitchKeepsReserves(request, old(Now()), Now(), tagOf);
      if old(Settled()) && IsStamped(before) {
        assert r != NotHandled ==> current == old(live);
        SelectionIsStamped(before, old(live), lookup, current, candidate, subscription, node, chosen, skipProbe, now,
                           w);
        if r == Failed {
          FailedSelectionPins(before, old(live), lookup, current, candidate, subscription, node, chosen, skipProbe, now,
                              w, tagOf);
        } else if r == Done {
          RecordedSelectionPins(before, old(live), lookup, current, candidate, subscription, node, chosen, skipProbe,
                                now, w, tagOf);
        }
      }
    }

    method HandleFailOpen(request: Request) returns (r: Outcome)
      requires Backed(Now()) && request.FailOpen?
      modifies this
      ensures Backed(Now()) && everBacked == old(everBacked)
      ensures r == RequestOutcome(request, old(Now()), tagOf)
      ensures old(ReservesBacked(Now())) ==> (ReservesBacked(Now()) <==> !LosesReserve(request, old(Now()), tagOf))
      ensures old(Settled()) && IsStamped(old(persisted)) ==>
        && IsStamped(persisted)
        && (r == Failed ==> (Settled() <==> KeepsPin(request, old(Now()), tagOf)))
        && (r == Done ==> Settled())
        && everCovered == old(everCovered)
    {
      ghost var before := persisted;
      r := ActivateManagedDirect(request.now, request.w);
      if r == Failed && old(Settled()) && IsStamped(before) {
        AbandonedPins(before, before.selected, Direct, request.w, tagOf);
      }
    }

    method HandleTunnel(request: Request) returns (r: Outcome)
      requires Backed(Now()) && request.Tunnel? && request.tag in handlers
      modifies this
      ensures Backed(Now()) && everBacked == old(everBacked)
      ensures r == RequestOutcome(request, old(Now()), tagOf)
      ensures old(ReservesBacked(Now())) ==> (ReservesBacked(Now()) <==> !LosesReserve(request, old(Now()), tagOf))
      ensures old(Settled()) && IsStamped(old(persisted)) ==>
        && IsStamped(persisted)
        && (r == Failed ==> (Settled() <==> KeepsPin(request, old(Now()), tagOf)))
        && (r == Done ==> Settled())
        && everCovered == old(everCovered)
    {
      ghost var before := persisted;
      r := ConnectTunnel(request.tag, request.profile, request.chosen, request.now, request.w);
      if r == Failed && old(Settled()) && IsStamped(before) {
        AbandonedPins(before, Some(Selected(before)), request.tag, request.w, tagOf);
      }
    }

    method HandleRemoval(request: Request)
      requires Backed(Now())
      requires request.Cleanup? || (request.SafeRemove? && request.w.readsBack)
      modifies this
      ensures Backed(Now()) && everBacked == old(everBacked)
      ensures old(ReservesBacked(Now())) ==> (ReservesBacked(Now()) <==> !LosesReserve(request, old(Now()), tagOf))
      ensures old(Settled()) && IsStamped(old(persisted)) ==>
        Settled() && IsStamped(persisted) && everCovered == old(everCovered)
    {
      ghost var before := persisted;
      match request {
        case Cleanup(now, stuck, w) =>
          CleanupManagedOutbounds(now, stuck, w);
          CleanupKeepsReserves(now, stuck, w, old(Now()), Now(), tagOf);
        case SafeRemove(tag, now, w) =>
          SafeRemoveManagedOutbound(tag, now, w);
          RemovalKeepsReserves(tag, now, w, old(Now()), Now(), tagOf);
      }
      if old(Settled()) && IsStamped(before) { SamePin(before, persisted, tagOf); }
    }

    /** One request; a tunnel request is skipped if its handler is gone. A failure leaves a settled route
        settled exactly as `KeepsPin` says. */
    method Handle(request: Request) returns (r: Outcome)
      requires Backed(Now()) && (request.SafeRemove? ==> request.w.readsBack)
      modifies this
      ensures Backed(Now()) && everBacked == old(everBacked)
      ensures r == RequestOutcome(request, old(Now()), tagOf)
      ensures old(ReservesBacked(Now())) ==> (ReservesBacked(Now()) <==> !LosesReserve(request, old(Now()), tagOf))
      ensures old(Settled()) && IsStamped(old(persisted)) ==>
        && IsStamped(persisted)
        && (r == Failed ==> (Settled() <==> KeepsPin(request, old(Now()), tagOf)))
        && (r in {NotHandled, Done} ==> Settled())
        && (r in {NotHandled, Failed, Done} ==> everCovered == old(everCovered))
    {
      r := Done;
      match request {
        case PrepareOnly(name, w) =>
          Prepare(Node(name), w.prepareCandidate);
        case Switch(_, _, _, _, _, _, _) =>
          r := HandleSwitch(request);
        case FailOpen(_, _) =>
          r := HandleFailOpen(request);
        case Tunnel(tag, _, _, _, _) =>
          r := NotHandled;
          if tag in handlers {
            r := HandleTunnel(request);
          }
        case _ =>
          HandleRemoval(request);
      }
    }

    /** Any run of requests keeps the balancer on an existing handler, at every point of every request. As
        long as every step is clean, every point also is `Covered` and every request ends settled. */
    method Run(requests: seq<Request>) returns (log: seq<Step>)
      requires Backed(Now())
      requires forall i :: 0 <= i < |requests| && requests[i].SafeRemove? ==> requests[i].w.readsBack
      modifies this
      ensures |log| == |requests| && forall i :: 0 <= i < |log| ==>
                log[i].outcome == RequestOutcome(requests[i], log[i].before, tagOf)
      ensures requests != [] ==> log[0].before == old(Now())
      ensures Backed(Now()) && everBacked == old(everBacked)
      ensures old(Settled()) && IsStamped(old(persisted))
              && (forall i :: 0 <= i < |log| ==> Clean(requests[i], log[i], tagOf)) ==>
                Settled() && IsStamped(persisted) && everCovered == old(everCovered)
      ensures old(ReservesBacked(Now()))
              && (forall i :: 0 <= i < |log| ==> !LosesReserve(requests[i], log[i].before, tagOf)) ==>
                ReservesBacked(Now())
    {
      log := [];
      for i := 0 to |requests|
        invariant |log| == i && forall j :: 0 <= j < i ==>
                    log[j].outcome == RequestOutcome(requests[j], log[j].before, tagOf)
        invariant if i == 0 then Snapshot(persisted, live, handlers) == old(Now()) else log[0].before == old(Now())
        invariant Backed(Now()) && everBacked == old(everBacked)
        invariant i == 0 ==> everCovered == old(everCovered)
        invariant old(Settled()) && IsStamped(old(persisted))
                  && (forall j :: 0 <= j < i ==> Clean(requests[j], log[j], tagOf)) ==>
                    Settled() && IsStamped(persisted) && everCovered == old(everCovered)
        invariant old(ReservesBacked(Now()))
                  && (forall j :: 0 <= j < i ==> !LosesReserve(requests[j], log[j].before, tagOf)) ==>
                    ReservesBacked(Now())
      {
        var before := Snapshot(persisted, live, handlers);
        var outcome := Handle(requests[i]);
        log := log + [Step(outcome, before)];
      }
    }
  }

  const NOTHING_WORKS := World(false, false, false, false, false, false, false, false, false, false,
                               false, false, false, false, false, false, false, false, false, false)

  /** Two recoveries from the direct fallback that fail one after the other, and a third selection that only
      gets as far as pinning the current node: the live tag is then one the persisted state does not name. */
  method TwoFailedRecoveriesLosePin(tagOf: (string, string) -> string, fallback: RuntimeState, subscription: string,
                                    node: string)
    returns (router: Router, first: Outcome, second: Outcome)
    requires HasRoute(fallback) && fallback.mode == DirectMode && fallback.selected == Some(Direct)
    requires fallback.kind == Xray
    requires !fallback.connected && fallback.transport == DirectTransport && fallback.chosen != Disconnected
    requires !IsBlank(fallback.subscription) && !IsBlank(fallback.node)
    ensures first == Failed && second == Failed && !router.everCovered
  {
    router := new Router(tagOf, fallback, Direct, {});
    var failing := NOTHING_WORKS.(selectDirect := true, savePreserved := true);
    first := router.ApplyNodeSelection(NodeFound, subscription, node, Manual, false, 0, failing);
    ghost var one := router.persisted;
    second := router.ApplyNodeSelection(NodeFound, subscription, node, Manual, false, 0, failing);
    SecondFailedRecoveryLosesPin(fallback, one, router.persisted, tagOf);
    var third := router.ApplyNodeSelection(NodeFound, subscription, node, Manual, false, 0,
                                           NOTHING_WORKS.(prepareCurrent := true, pin := true));
  }

  /** A switch whose last save fails, from any settled state that another node can be switched to. */
  method UnsavedSwitchDisagrees(tagOf: (string, string) -> string, s: RuntimeState, subscription: string, node: string,
                                now: int)
    returns (router: Router, r: Outcome)
    requires HasRoute(s) && s.mode == Vpn && s.kind == Xray && s.selected == Some(Node(tagOf(s.subscription, s.node)))
    requires tagOf(subscription, node) != tagOf(s.subscription, s.node)
    requires !IsPaused(s, Node(tagOf(subscription, node)), now)
    ensures r == CommitUnsaved && !router.Agrees()
  {
    var current := Node(tagOf(s.subscription, s.node));
    router := new Router(tagOf, s, current, {current});
    r := router.ApplyNodeSelection(NodeFound, subscription, node, Manual, true, now,
                                   NOTHING_WORKS.(prepareCurrent := true, pin := true, prepareCandidate := true,
                                                  saveIntent := true,
                                                  select := true, egress := true, persistConfig := true,
                                                  saveSwitched := true));
  }
}
