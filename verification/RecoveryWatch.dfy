/** The watch over the active route: when repeated failures start a failover. */
module RecoveryWatch {
  import opened Wrappers

  datatype FailureClass = Runtime | Egress

  /** Rounds a failure of the class must last before it is acted on. */
  function Threshold(failureClass: FailureClass): nat {
    if failureClass.Egress? then 4 else 2
  }

  /** What one round meets. The route is read before the check, after it, and once more for the record. */
  datatype Round = Round(
    busy: bool,
    routeBefore: string,
    failed: bool,
    cancelled: bool,
    routeAfter: string,
    needed: bool,
    route: string,
    failureClass: FailureClass,
    now: int,
    retryInterval: int,
    canFailOver: bool,
    failsOver: bool)

  class Watch {
    var failures: nat
    var routeKey: string
    var failureClass: Option<FailureClass>
    var lastRecoveryAt: Option<int>

    constructor ()
      ensures failures == 0 && lastRecoveryAt == None
    {
      failures, routeKey, failureClass, lastRecoveryAt := 0, "", None, None;
    }

    /** The fields say what the rounds so far amount to. */
    ghost predicate Reflects(history: seq<Round>)
      reads this
    {
      && failures == Streak(history) && lastRecoveryAt == OpenStart(history)
      && (failures > 0 ==> routeKey == Suspect(history).0 && failureClass == Some(Suspect(history).1))
    }

    method RunConnectionWatchOnce(round: Round, ghost history: seq<Round>) returns (started: bool)
      requires Reflects(history)
      modifies this
      ensures Reflects(history + [round])
      ensures started == Starts(history, round)
    {
      started := false;
      OneMoreRound(history, round);
      if round.busy {
        return;
      }
      if round.failed {
        failures, failureClass := 0, None;
        return;
      }
      if round.cancelled {
        failures, failureClass := 0, None;
        return;
      }
      if round.routeBefore != round.routeAfter {
        failures, routeKey := 0, "";
        return;
      }
      if !round.needed {
        lastRecoveryAt, failures, routeKey := None, 0, "";
        return;
      }
      if round.route != routeKey || failureClass != Some(round.failureClass) {
        routeKey, failureClass, failures := round.route, Some(round.failureClass), 0;
      }
      failures := failures + 1;
      if failures < Threshold(round.failureClass) {
        return;
      }
      if lastRecoveryAt.Some? && round.now < lastRecoveryAt.value + round.retryInterval {
        return;
      }
      lastRecoveryAt, started := Some(round.now), true;
      if round.canFailOver && round.failsOver {
        lastRecoveryAt, failures, routeKey := None, 0, "";
      }
    }
  }

  // ----- What a history of rounds amounts to -----

  /** The round is a completed check of a steady route that finds it failing. */
  predicate IsFailing(r: Round) {
    !r.busy && !r.failed && !r.cancelled && r.routeBefore == r.routeAfter && r.needed
  }

  predicate IsHealthy(r: Round) {
    !r.busy && !r.failed && !r.cancelled && r.routeBefore == r.routeAfter && !r.needed
  }

  function Last(history: seq<Round>): Round
    requires history != []
  {
    history[|history| - 1]
  }

  function Before(history: seq<Round>): seq<Round>
    requires history != []
  {
    history[..|history| - 1]
  }

  /** Route and class of the failing round that was completed last. */
  function Suspect(history: seq<Round>): (string, FailureClass) {
    if history == [] then ("", Runtime)
    else if IsFailing(Last(history)) then (Last(history).route, Last(history).failureClass)
    else Suspect(Before(history))
  }

  /** Completed failing rounds in a row up to the round, all with its route and class. */
  function FailingRow(history: seq<Round>, r: Round): nat
    decreases |history|, 1
  {
    if Streak(history) > 0 && Suspect(history) == (r.route, r.failureClass) then Streak(history) + 1 else 1
  }

  /** Completed failing rounds of one route and class that end the history. A skipped round counts neither
      way; any other round and a successful failover end the row. */
  function Streak(history: seq<Round>): nat
    decreases |history|, 0
  {
    if history == [] then 0
    else
      var before, r := Before(history), Last(history);
      if r.busy then Streak(before)
      else if !IsFailing(r) || Recovers(before, r) then 0
      else FailingRow(before, r)
  }

  predicate Starts(history: seq<Round>, r: Round)
    decreases |history|, 2
  {
    && IsFailing(r) && FailingRow(history, r) >= Threshold(r.failureClass)
    && var open := OpenStart(history); open.Some? ==> r.now >= open.value + r.retryInterval
  }

  predicate Recovers(history: seq<Round>, r: Round)
    decreases |history|, 3
  {
    Starts(history, r) && r.canFailOver && r.failsOver
  }

  /** When failover was started last, unless a healthy round or its success closed the matter since. */
  function OpenStart(history: seq<Round>): Option<int>
    decreases |history|, 0
  {
    if history == [] then None
    else
      var before, r := Before(history), Last(history);
      if IsHealthy(r) || Recovers(before, r) then None
      else if Starts(before, r) then Some(r.now)
      else OpenStart(before)
  }

  lemma OneMoreRound(history: seq<Round>, r: Round)
    ensures Completed(history + [r]) == Completed(history) + if r.busy then [] else [r]
    ensures Suspect(history + [r]) == if IsFailing(r) then (r.route, r.failureClass) else Suspect(history)
    ensures Streak(history + [r]) ==
              if r.busy then Streak(history)
              else if !IsFailing(r) || Recovers(history, r) then 0
              else FailingRow(history, r)
    ensures OpenStart(history + [r]) ==
              if IsHealthy(r) || Recovers(history, r) then None
              else if Starts(history, r) then Some(r.now)
              else OpenStart(history)
  {
    assert Before(history + [r]) == history && Last(history + [r]) == r;
  }

  // ----- What that means -----

  function Completed(history: seq<Round>): (c: seq<Round>)
    ensures |c| <= |history|
  {
    if history == [] then []
    else Completed(Before(history)) + if Last(history).busy then [] else [Last(history)]
  }

  /** The last n completed rounds all find the same route failing in the same way. */
  predicate EndsFailing(history: seq<Round>, n: nat, suspect: (string, FailureClass)) {
    var c := Completed(history);
    n <= |c| && forall k :: |c| - n <= k < |c| ==> IsFailing(c[k]) && (c[k].route, c[k].failureClass) == suspect
  }

  lemma {:induction false} StreakIsReal(history: seq<Round>)
    ensures EndsFailing(history, Streak(history), Suspect(history))
  {
    if history != [] { StreakIsReal(Before(history)); }
  }

  /** A failover starts only after four (egress) or two (runtime) completed rounds in a row that failed on
      the same route in the same class. */
  lemma StartIsConfirmed(history: seq<Round>, r: Round)
    requires Starts(history, r)
    ensures EndsFailing(history + [r], if r.failureClass.Egress? then 4 else 2, (r.route, r.failureClass))
  {
    StreakIsReal(history);
    OneMoreRound(history, r);
  }

  /** Conversely so many failing rounds, none of which recovered, do start one unless one started within
      the retry interval and nothing has closed it. The rounds before it are counted from round m on. */
  lemma ConfirmedFailureStarts(history: seq<Round>, r: Round, m: nat)
    requires IsFailing(r)
    requires EndsFailing(history + [r], if r.failureClass.Egress? then 4 else 2, (r.route, r.failureClass))
    requires m <= |history|
    requires |Completed(history[..m])| + (if r.failureClass.Egress? then 3 else 1) <= |Completed(history)|
    requires forall i :: m <= i < |history| ==> !Recovers(history[..i], history[i])
    ensures Starts(history, r) <==> OpenStart(history) == None || r.now >= OpenStart(history).value + r.retryInterval
  {
    var n := Threshold(r.failureClass) - 1;
    OneMoreRound(history, r);
    var c := Completed(history);
    assert Completed(history + [r]) == c + [r];
    assert EndsFailing(history, n, (r.route, r.failureClass)) by {
      forall k | |c| - n <= k < |c|
        ensures IsFailing(c[k]) && (c[k].route, c[k].failureClass) == (r.route, r.failureClass)
      {
        assert (c + [r])[k] == c[k];
      }
    }
    StreakIsLongest(history, n, (r.route, r.failureClass), m);
  }

  lemma {:induction false} StreakIsLongest(history: seq<Round>, n: nat, suspect: (string, FailureClass), m: nat)
    requires n > 0 && EndsFailing(history, n, suspect)
    requires m <= |history| && |Completed(history[..m])| + n <= |Completed(history)|
    requires forall i :: m <= i < |history| ==> !Recovers(history[..i], history[i])
    ensures Streak(history) >= n && Suspect(history) == suspect
  {
    var before, c := Before(history), Completed(history);
    assert history[..|history|] == history;
    assert before[..m] == history[..m];
    assert forall i :: m <= i < |before| ==> before[..i] == history[..i] && before[i] == history[i];
    if Last(history).busy {
      assert c == Completed(before);
      StreakIsLongest(before, n, suspect, m);
    } else {
      assert c[|c| - 1] == Last(history);
      if n > 1 {
        forall k | |c| - n <= k < |c| - 1
          ensures IsFailing(Completed(before)[k])
          ensures (Completed(before)[k].route, Completed(before)[k].failureClass) == suspect
        {
          assert c[k] == Completed(before)[k];
        }
        StreakIsLongest(before, n - 1, suspect, m);
      }
    }
  }

  /** Two starts with neither a healthy round nor a successful failover between them are at least the retry
      interval apart. */
  lemma StartsAreSpaced(history: seq<Round>, i: nat, j: nat)
    requires i < j < |history| && Starts(history[..i], history[i]) && Starts(history[..j], history[j])
    requires forall k :: i <= k < j ==> !IsHealthy(history[k]) && !Recovers(history[..k], history[k])
    requires forall k, m :: 0 <= k <= m < |history| ==> history[k].now <= history[m].now
    ensures history[j].now >= history[i].now + history[j].retryInterval
  {
    StartStaysOpen(history, i, j);
  }

  lemma {:induction false} StartStaysOpen(history: seq<Round>, i: nat, j: nat)
    requires i < j <= |history| && Starts(history[..i], history[i])
    requires forall k :: i <= k < j ==> !IsHealthy(history[k]) && !Recovers(history[..k], history[k])
    requires forall k, m :: 0 <= k <= m < |history| ==> history[k].now <= history[m].now
    ensures OpenStart(history[..j]).Some? && OpenStart(history[..j]).value >= history[i].now
  {
    var upTo := history[..j];
    assert Before(upTo) == history[..j - 1] && Last(upTo) == history[j - 1];
    if i < j - 1 { StartStaysOpen(history, i, j - 1); }
  }
}
