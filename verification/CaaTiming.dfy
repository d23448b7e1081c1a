/** Timing arithmetic of the Cancel-All-After switch, in both places that compute
    it, and the dispatch budget that has to fit into it. */
module CaaTiming {
  import opened Wrappers
  import opened StrategyDispatch

  const MILLIS_PER_SECOND: nat := 1_000
  const REFRESH_MULTIPLIER: nat := 3
  const MIN_TIMEOUT_SECS: nat := 10
  const MAX_TIMEOUT_SECS: nat := 120

  datatype TimingError = PollTooLarge | TimeoutOutOfRange | BudgetOverflow | BudgetExceedsWindow

  function CheckedMul(a: nat, b: nat): Option<nat> {
    if a * b <= U64_MAX then Some(a * b) else None
  }

  function SaturatingMul(a: nat, b: nat): nat {
    if a * b <= U64_MAX then a * b else U64_MAX
  }

  function DivCeil(a: nat, b: nat): nat
    requires b > 0
  {
    a / b + (if a % b == 0 then 0 else 1)
  }

  function Max(a: nat, b: nat): nat { if a >= b then a else b }

  // ---------- configuration validation ----------

  function TimeoutSeconds(pollIntervalMs: nat): Result<nat, TimingError> {
    match CheckedMul(DivCeil(pollIntervalMs, MILLIS_PER_SECOND), REFRESH_MULTIPLIER)
    case None => Err(PollTooLarge)
    case Some(tripled) =>
      var requested := Max(tripled, MIN_TIMEOUT_SECS);
      if requested <= MAX_TIMEOUT_SECS then Ok(requested) else Err(PollTooLarge)
  }

  function DispatchBudgetMs(strategyCount: nat, tickTimeoutMs: nat): Option<nat> {
    if strategyCount > U64_MAX then None
    else
      match CheckedMul(strategyCount, 2)
      case None => None
      case Some(doubled) => CheckedMul(doubled, tickTimeoutMs)
  }

  function ValidateDispatchBudget(strategyCount: nat, pollIntervalMs: nat, tickTimeoutMs: nat): Result<(), TimingError> {
    match TimeoutSeconds(pollIntervalMs)
    case Err(error) => Err(error)
    case Ok(seconds) =>
      match (CheckedMul(seconds, MILLIS_PER_SECOND), DispatchBudgetMs(strategyCount, tickTimeoutMs))
      case (None, _) => Err(PollTooLarge)
      case (_, None) => Err(BudgetOverflow)
      case (Some(window), Some(budget)) => if budget <= window then Ok(()) else Err(BudgetExceedsWindow)
  }

  // ---------- the runtime's own computation ----------

  function NewTimeout(seconds: nat): Result<nat, TimingError> {
    if MIN_TIMEOUT_SECS <= seconds <= MAX_TIMEOUT_SECS then Ok(seconds) else Err(TimeoutOutOfRange)
  }

  function CancelAllAfterTimeout(pollIntervalMs: nat): Result<nat, TimingError> {
    match CheckedMul(DivCeil(pollIntervalMs, MILLIS_PER_SECOND), REFRESH_MULTIPLIER)
    case None => Err(PollTooLarge)
    case Some(tripled) => NewTimeout(Max(tripled, MIN_TIMEOUT_SECS))
  }

  const MAX_POLL_INTERVAL_MS: nat := MAX_TIMEOUT_SECS / REFRESH_MULTIPLIER * MILLIS_PER_SECOND

  function HeartbeatPeriodMs(timeoutSeconds: nat): nat {
    Max(SaturatingMul(timeoutSeconds, MILLIS_PER_SECOND) / REFRESH_MULTIPLIER, 1)
  }

  // ---------- properties ----------

  /** The two computations agree on every u64 poll interval, and both accept it
      exactly up to the advertised maximum. */
  lemma TimeoutsAgree(pollIntervalMs: nat)
    requires pollIntervalMs <= U64_MAX
    ensures TimeoutSeconds(pollIntervalMs).Ok? <==> pollIntervalMs <= MAX_POLL_INTERVAL_MS
    ensures CancelAllAfterTimeout(pollIntervalMs).Ok? <==> pollIntervalMs <= MAX_POLL_INTERVAL_MS
    ensures TimeoutSeconds(pollIntervalMs).Ok? ==>
              TimeoutSeconds(pollIntervalMs).value == CancelAllAfterTimeout(pollIntervalMs).value
  {
  }

  /** An accepted timeout leaves room for three poll intervals and for three
      heartbeat periods, less than three milliseconds of which are lost to rounding. */
  lemma TimeoutCoversPolls(pollIntervalMs: nat)
    requires pollIntervalMs <= MAX_POLL_INTERVAL_MS
    ensures var t := CancelAllAfterTimeout(pollIntervalMs).value;
            && MIN_TIMEOUT_SECS <= t <= MAX_TIMEOUT_SECS
            && 3 * pollIntervalMs <= t * MILLIS_PER_SECOND
            && 3 * HeartbeatPeriodMs(t) <= t * MILLIS_PER_SECOND < 3 * HeartbeatPeriodMs(t) + 3
  {
  }

  /** A configuration is accepted exactly when its poll interval is within 40 s and
      two tick timeouts per strategy fit into three poll intervals rounded up to
      seconds, or into ten seconds if that is more; twice the number of strategies
      must itself be a u64. */
  lemma BudgetAcceptedIff(strategyCount: nat, pollIntervalMs: nat, tickTimeoutMs: nat)
    requires strategyCount <= U64_MAX && pollIntervalMs <= U64_MAX && tickTimeoutMs <= U64_MAX
    ensures ValidateDispatchBudget(strategyCount, pollIntervalMs, tickTimeoutMs).Ok?
       <==> && pollIntervalMs <= 40_000 && 2 * strategyCount <= U64_MAX
            && (2 * strategyCount * tickTimeoutMs <= 10_000
                || 2 * strategyCount * tickTimeoutMs <= 3_000 * ((pollIntervalMs + 999) / 1_000))
    ensures pollIntervalMs > 40_000 ==>
              ValidateDispatchBudget(strategyCount, pollIntervalMs, tickTimeoutMs) == Err(PollTooLarge)
  {
    TimeoutsAgree(pollIntervalMs);
    if pollIntervalMs <= 40_000 {
      WindowIs(pollIntervalMs);
      BudgetIs(strategyCount, tickTimeoutMs);
      DoubleTimes(strategyCount, tickTimeoutMs);
    }
  }

  lemma DoubleTimes(n: nat, t: nat)
    ensures n * 2 * t == 2 * n * t
  {
    assert n * 2 == 2 * n;
  }

  lemma WindowIs(pollIntervalMs: nat)
    requires pollIntervalMs <= 40_000
    ensures TimeoutSeconds(pollIntervalMs).Ok?
    ensures TimeoutSeconds(pollIntervalMs).value == Max(3 * ((pollIntervalMs + 999) / 1_000), 10) <= 120
  {
  }

  lemma BudgetIs(strategyCount: nat, tickTimeoutMs: nat)
    requires strategyCount <= U64_MAX
    ensures DispatchBudgetMs(strategyCount, tickTimeoutMs)
         == if strategyCount * 2 <= U64_MAX && strategyCount * 2 * tickTimeoutMs <= U64_MAX
            then Some(strategyCount * 2 * tickTimeoutMs) else None
  {
  }

  /** An accepted configuration keeps every dispatch round, whatever its
      strategies do, inside the Cancel-All-After window. */
  lemma AcceptedRoundsFit(
    strategies: seq<string>, counts: seq<nat>, dispatch: Dispatch, attempts: seq<Attempt>,
    pollIntervalMs: nat, tickTimeoutMs: nat)
    requires |strategies| == |attempts| && pollIntervalMs <= U64_MAX && tickTimeoutMs <= U64_MAX
    requires ValidateDispatchBudget(|strategies|, pollIntervalMs, tickTimeoutMs).Ok?
    ensures CancelAllAfterTimeout(pollIntervalMs).Ok?
    ensures Round(strategies, counts, dispatch, attempts, tickTimeoutMs, |strategies|).elapsed
         <= CancelAllAfterTimeout(pollIntervalMs).value * MILLIS_PER_SECOND
  {
    TimeoutsAgree(pollIntervalMs);
    RoundIsBounded(strategies, counts, dispatch, attempts, tickTimeoutMs, |strategies|);
  }

  function SlowAttempt(timeout: nat): Attempt {
    Attempt(Work(timeout + 1, true), Work(timeout, true))
  }

  /** The budget is attained: from clean counters, a round in which every tick
      times out and every reconciliation uses its whole deadline completes after
      exactly two timeouts per strategy. */
  lemma {:induction false} BudgetIsAttained(strategies: seq<string>, counts: seq<nat>, timeout: nat, n: nat)
    requires n <= |strategies| == |counts| && forall i | 0 <= i < |counts| :: counts[i] == 0
    ensures var slow := seq(|strategies|, _ => SlowAttempt(timeout));
            var round := Round(strategies, counts, ReconcileTimer, slow, timeout, n);
            && round.ending == Completed && |round.counts| == |counts|
            && (forall i | n <= i < |counts| :: round.counts[i] == 0)
            && round.elapsed == 2 * n * timeout
  {
    if n > 0 {
      BudgetIsAttained(strategies, counts, timeout, n - 1);
      OneMoreStrategy(n, timeout);
    }
  }
}
