/** Rolling health of a node and the score derived from it. Durations are whole nanoseconds; float64
    values are reals, and a conversion back to a duration truncates. */
module ProbeHealth {
  import opened Wrappers

  const MILLISECOND := 1_000_000
  const SECOND := 1_000_000_000

  datatype NodeHealth = NodeHealth(
    id: string,
    last: int,
    average: int,
    variation: int,
    successes: int,
    failures: int,
    failureStreak: int,
    successStreak: int,
    instability: int,
    checkedAt: Option<int>,
    healthy: bool,
    failureReason: string)

  /** The value a missing map entry reads as. */
  const UNKNOWN := NodeHealth("", 0, 0, 0, 0, 0, 0, 0, 0, None, false, "")

  const INSTABILITY_PER_FAILURE := 3
  const MAX_INSTABILITY := 20

  function Abs(x: int): int {
    if x < 0 then -x else x
  }

  function Min(a: int, b: int): int {
    if a <= b then a else b
  }

  function Max(a: int, b: int): int {
    if a >= b then a else b
  }

  /** Go's division, which truncates. */
  function Quotient(a: int, b: int): int
    requires b > 0
  {
    if a >= 0 then a / b else -((-a) / b)
  }

  datatype Probe = Probe(success: bool, latency: int, at: int, reason: string, threshold: int)

  function SmoothedVariation(h: NodeHealth, latency: int): int {
    var deviation := Abs(latency - h.average);
    if h.average == 0 then h.variation
    else if h.variation == 0 then deviation
    else Quotient(h.variation * 4 + deviation, 5)
  }

  function Observed(h: NodeHealth, p: Probe): NodeHealth {
    var seen := h.(checkedAt := Some(p.at), last := p.latency);
    if p.success then
      seen.(healthy := true,
            successes := h.successes + 1,
            successStreak := h.successStreak + 1,
            failureStreak := 0,
            instability := if h.instability > 0 then h.instability - 1 else h.instability,
            failureReason := "",
            variation := SmoothedVariation(h, p.latency),
            average := if h.average == 0 then p.latency else Quotient(h.average * 4 + p.latency, 5))
    else
      seen.(failures := h.failures + 1,
            failureStreak := h.failureStreak + 1,
            successStreak := 0,
            instability := Min(h.instability + INSTABILITY_PER_FAILURE, MAX_INSTABILITY),
            failureReason := p.reason,
            average := if h.average == 0 then p.latency else h.average,
            healthy := h.successes > 0 && h.failureStreak + 1 < Max(p.threshold, 1))
  }

  method UpdateHealth(previous: NodeHealth, success: bool, latency: int, checkedAt: int, failureReason: string,
                      failureThreshold: int)
    returns (updated: NodeHealth)
    ensures updated == Observed(previous, Probe(success, latency, checkedAt, failureReason, failureThreshold))
  {
    updated := previous.(checkedAt := Some(checkedAt), last := latency);
    var threshold := failureThreshold;
    if threshold < 1 {
      threshold := 1;
    }
    if success {
      updated := updated.(healthy := true, successes := updated.successes + 1);
      updated := updated.(successStreak := updated.successStreak + 1, failureStreak := 0);
      if updated.instability > 0 {
        updated := updated.(instability := updated.instability - 1);
      }
      updated := updated.(failureReason := "");
      var previousAverage := updated.average;
      if previousAverage == 0 {
        updated := updated.(average := latency);
      } else {
        var deviation := latency - previousAverage;
        if deviation < 0 {
          deviation := -deviation;
        }
        var variation := updated.variation;
        if variation == 0 {
          variation := deviation;
        } else {
          variation := Quotient(variation * 4 + deviation, 5);
        }
        updated := updated.(variation := variation, average := Quotient(previousAverage * 4 + latency, 5));
      }
      return;
    }
    updated := updated.(healthy := false, failures := updated.failures + 1);
    updated := updated.(failureStreak := updated.failureStreak + 1, successStreak := 0);
    updated := updated.(instability := Min(updated.instability + INSTABILITY_PER_FAILURE, MAX_INSTABILITY));
    updated := updated.(failureReason := failureReason);
    if updated.average == 0 {
      updated := updated.(average := latency);
    }
    if updated.successes > 0 && updated.failureStreak < threshold {
      updated := updated.(healthy := true);
    }
  }

  // ----- Whole histories -----

  function After(history: seq<Probe>): NodeHealth {
    if history == [] then UNKNOWN
    else Observed(After(history[..|history| - 1]), history[|history| - 1])
  }

  function CountSuccesses(history: seq<Probe>): nat {
    if history == [] then 0
    else CountSuccesses(history[..|history| - 1]) + if history[|history| - 1].success then 1 else 0
  }

  /** The number of probes with the given outcome that end the history. */
  function Streak(history: seq<Probe>, success: bool): (n: nat)
    ensures n <= |history|
  {
    if history == [] || history[|history| - 1].success != success then 0
    else 1 + Streak(history[..|history| - 1], success)
  }

  ghost predicate LatenciesWithin(history: seq<Probe>, lo: int, hi: int) {
    forall p :: p in history ==> lo <= p.latency <= hi
  }

  /** For every history, counters and streaks count, and the penalty is in range and worked off by a
      run of successes, completely after twenty of them. */
  lemma {:induction false} Counters(history: seq<Probe>)
    ensures var h := After(history);
            && h.successes == CountSuccesses(history) <= |history| && h.failures == |history| - CountSuccesses(history)
            && h.successStreak == Streak(history, true) && h.failureStreak == Streak(history, false)
            && 0 <= h.instability <= Max(0, MAX_INSTABILITY - Streak(history, true))
  {
    if history != [] { Counters(history[..|history| - 1]); }
  }

  /** For every history of latencies in [lo, hi] the average stays there and the variation within the spread. */
  lemma {:induction false} LatencyBounds(history: seq<Probe>, lo: int, hi: int)
    requires history != [] && 0 < lo && LatenciesWithin(history, lo, hi)
    ensures var h := After(history);
            lo <= h.average <= hi && 0 <= h.variation <= hi - lo && h.last == history[|history| - 1].latency
  {
    var front, p := history[..|history| - 1], history[|history| - 1];
    assert p in history && forall q :: q in front ==> q in history;
    if front != [] { LatencyBounds(front, lo, hi); }
  }

  /** Healthy exactly when the last probe succeeded, or one succeeded before and the failures since are
      fewer than the last probe's threshold. */
  lemma HealthyMeaning(history: seq<Probe>)
    requires history != []
    ensures var last := history[|history| - 1];
            After(history).healthy <==>
              last.success || (CountSuccesses(history) > 0 && Streak(history, false) < Max(last.threshold, 1))
  {
    Counters(history);
    Counters(history[..|history| - 1]);
  }

  /** A success moves the average and the variation a fifth of the way. */
  lemma SuccessSmooths(h: NodeHealth, p: Probe)
    requires p.success && p.latency > 0 && h.average > 0 && h.variation > 0
    ensures Observed(h, p).average == (4 * h.average + p.latency) / 5
    ensures Observed(h, p).variation ==
              (4 * h.variation + if p.latency < h.average then h.average - p.latency else p.latency - h.average) / 5
  {
  }

  // ----- Score -----

  function Truncate(r: real): int {
    if r >= 0.0 then r.Floor else -((-r).Floor)
  }

  const HEALTHY_BONUS := 10_000.0
  const UNHEALTHY_PENALTY := 10_000.0
  const HEALTHY_LATENCY_CEILING := 300 * MILLISECOND
  const RECENT_WEIGHT := 0.2
  const AVERAGE_WEIGHT := 0.8
  const VARIATION_WEIGHT := 1.5
  const FAILURE_RATE_PENALTY := 2500 * MILLISECOND
  const CONFIDENT_SUCCESSES := 4
  const MISSING_SUCCESS_PENALTY := 15 * MILLISECOND
  const FAILURE_STREAK_PENALTY := 3 * SECOND
  const INSTABILITY_PENALTY := 500 * MILLISECOND
  const LATENCY_BASELINE := 2 * SECOND

  function WeightedLatency(recent: int, average: int): int {
    if recent <= 0 then average
    else if average <= 0 then recent
    else
      Truncate((recent as real * RECENT_WEIGHT + average as real * AVERAGE_WEIGHT) / (RECENT_WEIGHT + AVERAGE_WEIGHT))
  }

  function VariationCost(h: NodeHealth): int {
    if h.variation > 0 then Truncate(h.variation as real * VARIATION_WEIGHT) else 0
  }

  function ConfidenceCost(h: NodeHealth): int {
    if h.healthy && 0 < h.successes < CONFIDENT_SUCCESSES
    then (CONFIDENT_SUCCESSES - h.successes) * MISSING_SUCCESS_PENALTY else 0
  }

  /** The lifetime failure rate, discounted by the current run of successes. */
  function FailureRate(failures: int, attempts: int, streak: nat): real
    requires attempts > 0
  {
    failures as real / attempts as real * FAILURE_RATE_PENALTY as real / (1.0 + streak as real)
  }

  function FailureRateCost(h: NodeHealth): int {
    var attempts := h.successes + h.failures;
    if attempts <= 0 then 0 else Truncate(FailureRate(h.failures, attempts, Max(h.successStreak, 0)))
  }

  function StreakCost(h: NodeHealth): int {
    if h.failureStreak > 0 then h.failureStreak * FAILURE_STREAK_PENALTY else 0
  }

  function InstabilityCost(h: NodeHealth): int {
    if h.instability > 0 then h.instability * INSTABILITY_PENALTY else 0
  }

  /** The latency-equivalent cost nodes are compared by. */
  function Cost(h: NodeHealth): int {
    WeightedLatency(h.last, h.average) + VariationCost(h) + ConfidenceCost(h) +
    FailureRateCost(h) + StreakCost(h) + InstabilityCost(h)
  }

  function Score(h: NodeHealth): real {
    var latency := if Cost(h) <= 0 then LATENCY_BASELINE else Cost(h);
    (if h.healthy then HEALTHY_BONUS else -UNHEALTHY_PENALTY) - latency as real / MILLISECOND as real
  }

  lemma ShareOfProduct(a: nat, b: nat, k: nat)
    requires b > 0
    ensures (a as real / b as real * k as real) == (a * k) as real / b as real
  {
    var q := a as real / b as real;
    assert q * b as real == a as real;
    assert (q * k as real) * b as real == (a * k) as real;
  }

  lemma QuotientTwice(x: real, b: nat, d: nat)
    requires b > 0 && d > 0
    ensures b * d > 0 && x / b as real / d as real == x / (b * d) as real
  {
    var q := x / b as real / d as real;
    assert q * d as real == x / b as real;
    assert (q * d as real) * b as real == x;
    assert (b * d) as real == b as real * d as real;
    assert q * (b * d) as real == x;
  }

  lemma Between(x: real, q: real, k: real, r: real)
    requires k > 0.0 && 0.0 <= r < k && x * k == q * k + r
    ensures q <= x < q + 1.0
  {
    CancelFactor(q, x, k);
    assert (q + 1.0 - x) * k == k - r;
    QuotientIsPositive(q + 1.0 - x, k);
  }

  lemma DivisionInReals(a: nat, b: nat)
    requires b > 0
    ensures (a as real / b as real) * b as real == (a / b) as real * b as real + (a % b) as real
  {
    var q, r := a / b, a % b;
    assert a == q * b + r;
    ProductInReals(q, b);
  }

  lemma ProductInReals(q: nat, b: nat)
    ensures (q * b) as real == q as real * b as real
  {
  }

  lemma FloorOfQuotient(a: nat, b: nat)
    requires b > 0
    ensures (a as real / b as real).Floor == a / b
  {
    DivisionInReals(a, b);
    Between(a as real / b as real, (a / b) as real, b as real, (a % b) as real);
  }

  lemma QuotientIsPositive(d: real, k: real)
    requires k > 0.0 && d * k > 0.0
    ensures d > 0.0
  {
    CancelFactor(0.0, d, k);
  }

  lemma RateIs(h: NodeHealth)
    requires h.successes >= 0 && h.failures >= 0 && h.successStreak >= 0 && h.successes + h.failures > 0
    ensures (h.successes + h.failures) * (1 + h.successStreak) > 0
    ensures FailureRateCost(h) == h.failures * 2_500_000_000 / ((h.successes + h.failures) * (1 + h.successStreak))
  {
    var n, d := h.successes + h.failures, 1 + h.successStreak;
    ShareOfProduct(h.failures, n, 2_500_000_000);
    QuotientTwice((h.failures * 2_500_000_000) as real, n, d);
    FloorOfQuotient(h.failures * 2_500_000_000, n * d);
  }

  lemma LatencyIs(h: NodeHealth)
    requires h.variation >= 0
    ensures WeightedLatency(h.last, h.average) ==
              if h.last <= 0 then h.average else if h.average <= 0 then h.last else (h.last + 4 * h.average) / 5
    ensures VariationCost(h) == 3 * h.variation / 2
  {
  }

  lemma PenaltiesAre(h: NodeHealth)
    requires h.failureStreak >= 0 && h.instability >= 0
    ensures ConfidenceCost(h) == if h.healthy && 0 < h.successes < 4 then (4 - h.successes) * 15_000_000 else 0
    ensures StreakCost(h) == h.failureStreak * 3_000_000_000 && InstabilityCost(h) == h.instability * 500_000_000
  {
  }

  /** The cost of a measured node in nanoseconds: a fifth of the last latency and four of the average, where both
      are known, the variation and a half of it again, 15 ms for each success a healthy node lacks of four, 2.5 s
      times the share of failures, divided by one more than the successes in a row, 3 s for each failure in a row,
      and 500 ms for each point of the penalty. */
  lemma CostIs(h: NodeHealth)
    requires h.variation >= 0 && h.successes >= 0 && h.failures >= 0
    requires h.successStreak >= 0 && h.failureStreak >= 0 && h.instability >= 0 && h.successes + h.failures > 0
    ensures (h.successes + h.failures) * (1 + h.successStreak) > 0
    ensures Cost(h) ==
              (if h.last <= 0 then h.average else if h.average <= 0 then h.last else (h.last + 4 * h.average) / 5)
              + 3 * h.variation / 2
              + (if h.healthy && 0 < h.successes < 4 then (4 - h.successes) * 15_000_000 else 0)
              + h.failures * 2_500_000_000 / ((h.successes + h.failures) * (1 + h.successStreak))
              + h.failureStreak * 3_000_000_000 + h.instability * 500_000_000
  {
    RateIs(h);
    LatencyIs(h);
    PenaltiesAre(h);
  }

  /** The score: 10000 points up or down for being healthy or not, less the cost in milliseconds, or two
      seconds if it has none. */
  lemma ScoreIs(h: NodeHealth)
    ensures Score(h) == (if h.healthy then 10000.0 else -10000.0)
                        - (if Cost(h) > 0 then Cost(h) else 2_000_000_000) as real / 1_000_000.0
  {
  }

  lemma CancelFactor(x: real, y: real, k: real)
    requires k > 0.0 && x * k <= y * k
    ensures x <= y
  {
    var d := x - y;
    assert d * k <= 0.0;
    if d > 0.0 { ProductPositive(d, k); }
  }

  lemma ProductPositive(a: real, b: real)
    requires a > 0.0 && b > 0.0
    ensures a * b > 0.0
  {
  }

  lemma DiscountShrinks(x: real, d: real)
    requires x >= 0.0 && d >= 1.0
    ensures 0.0 <= x / d <= x
  {
    var q := x / d;
    assert q * d == x;
    CancelFactor(0.0, q, d);
    assert q * (d - 1.0) >= 0.0;
  }

  lemma RatioBounds(f: real, n: real)
    requires 0.0 <= f <= n && n > 0.0
    ensures 0.0 <= f / n <= (f + 1.0) / (n + 1.0) <= 1.0
  {
    var r, q := f / n, (f + 1.0) / (n + 1.0);
    assert r * n == f && q * (n + 1.0) == f + 1.0;
    CancelFactor(0.0, r, n);
    CancelFactor(r, 1.0, n);
    assert r * (n + 1.0) == f + r;
    CancelFactor(r, q, n + 1.0);
    CancelFactor(q, 1.0, n + 1.0);
  }

  /** One more failure never lowers the discounted failure rate, which stays within its penalty. */
  lemma FailureRateGrows(failures: nat, attempts: nat, streak: nat)
    requires attempts > 0 && failures <= attempts
    ensures 0.0 <= FailureRate(failures, attempts, streak) <= FailureRate(failures + 1, attempts + 1, 0)
    ensures FailureRate(failures + 1, attempts + 1, 0) <= FAILURE_RATE_PENALTY as real
  {
    var f, n := failures as real, attempts as real;
    RatioBounds(f, n);
    DiscountShrinks(f / n * FAILURE_RATE_PENALTY as real, 1.0 + streak as real);
  }

  lemma TruncateGrows(x: real, y: real, top: int)
    requires 0.0 <= x <= y <= top as real
    ensures 0 <= Truncate(x) <= Truncate(y) <= top
  {
  }

  lemma FailureKeepsCounters(h: NodeHealth, p: Probe)
    requires !p.success
    requires h.successes >= 0 && h.failures >= 0 && h.successStreak >= 0 && h.successes + h.failures > 0
    ensures 0 <= FailureRateCost(h) <= FailureRateCost(Observed(h, p)) <= FAILURE_RATE_PENALTY
  {
    var attempts, g := h.successes + h.failures, Observed(h, p);
    FailureRateGrows(h.failures, attempts, h.successStreak);
    TruncateGrows(FailureRate(h.failures, attempts, h.successStreak), FailureRate(h.failures + 1, attempts + 1, 0),
                  FAILURE_RATE_PENALTY);
    assert g.successes + g.failures == attempts + 1 && g.failures == h.failures + 1 && g.successStreak == 0;
  }

  lemma WeightedPositive(recent: int, average: int)
    requires recent > 0 && average > 0
    ensures Min(recent, average) <= WeightedLatency(recent, average) <= Max(recent, average)
  {
  }

  lemma FailurePenalties(h: NodeHealth, p: Probe)
    requires !p.success && h.failureStreak >= 0 && 0 <= h.instability <= MAX_INSTABILITY && h.variation >= 0
    ensures var g := Observed(h, p);
            && StreakCost(g) == StreakCost(h) + FAILURE_STREAK_PENALTY
            && InstabilityCost(h) <= InstabilityCost(g)
            && InstabilityCost(g) <= InstabilityCost(h) + INSTABILITY_PER_FAILURE * INSTABILITY_PENALTY
            && -3 * MISSING_SUCCESS_PENALTY <= ConfidenceCost(g) - ConfidenceCost(h) <= 3 * MISSING_SUCCESS_PENALTY
            && StreakCost(h) >= 0 && InstabilityCost(h) >= 0 && ConfidenceCost(h) >= 0 && VariationCost(h) >= 0
  {
  }

  /** What one more failure at the last latency adds to the cost. */
  lemma FailureAddsCost(history: seq<Probe>, p: Probe, hi: int)
    requires history != [] && LatenciesWithin(history, 1, hi)
    requires !p.success && p.latency == history[|history| - 1].latency
    ensures var h := After(history);
            0 < Cost(h) < Cost(Observed(h, p)) < Cost(h) + 20 * SECOND
  {
    var h := After(history);
    var g := Observed(h, p);
    assert history[|history| - 1] in history;
    Counters(history);
    LatencyBounds(history, 1, hi);
    FailureKeepsCounters(h, p);
    WeightedPositive(h.last, h.average);
    assert g.last == h.last && g.average == h.average && g.variation == h.variation;
    FailurePenalties(h, p);
  }

  /** For every history of positive latencies, one more failure at the last latency lowers the score,
      unless it turns an unhealthy node healthy, which takes a larger threshold than the one before. */
  lemma FailureLowersScore(history: seq<Probe>, p: Probe, hi: int)
    requires history != [] && LatenciesWithin(history, 1, hi)
    requires !p.success && p.latency == history[|history| - 1].latency
    ensures var h, g := After(history), Observed(After(history), p);
            && (Score(g) < Score(h) <==>
                  h.healthy || h.successes == 0 || h.failureStreak + 1 >= Max(p.threshold, 1))
            && (!h.healthy && g.healthy ==> p.threshold > history[|history| - 1].threshold)
  {
    FailureAddsCost(history, p, hi);
    HealthyMeaning(history);
    Counters(history);
    var h, g := After(history), Observed(After(history), p);
    var d := Cost(g) - Cost(h);
    var m := MILLISECOND as real;
    assert Cost(g) as real / m == Cost(h) as real / m + d as real / m;
  }

  /** A threshold raised between two failures makes the score rise with the second one. */
  lemma FailureCanRaiseScore()
    ensures var start := [Probe(true, 100 * MILLISECOND, 0, "", 1), Probe(false, 100 * MILLISECOND, 1, "timeout", 1)];
            var p := Probe(false, 100 * MILLISECOND, 2, "timeout", 3);
            Score(After(start + [p])) > Score(After(start))
  {
    var up, down := Probe(true, 100 * MILLISECOND, 0, "", 1), Probe(false, 100 * MILLISECOND, 1, "timeout", 1);
    var p := Probe(false, 100 * MILLISECOND, 2, "timeout", 3);
    var start := [up, down];
    assert start[..|start| - 1] == [up] && [up][..0] == [];
    assert After([up]) == Observed(After([]), up);
    assert After(start) == Observed(After([up]), down);
    assert (start + [p])[..|start + [p]| - 1] == start;
    FailureAddsCost(start, p, 100 * MILLISECOND);
  }
}
