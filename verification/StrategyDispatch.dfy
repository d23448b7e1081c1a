/** One dispatch round: every matching strategy gets a bounded tick, and a tick
    that times out gets one bounded reconciliation. Durations are milliseconds. */
module StrategyDispatch {
  import opened Wrappers
  import opened TickFailures

  datatype Dispatch =
    | ConfirmedCandle(instrumentId: string)
    | PrivateEvent(instrument: Option<string>)
    | InstrumentUpdated(instrumentId: string)
    | ReconcileTimer
    | StreamStateChanged

  /** A future: how long it would run and whether it ends well. */
  datatype Work = Work(takes: nat, succeeds: bool)

  /** What one strategy does in a round: its tick, and the reconciliation that
      follows a timeout. */
  datatype Attempt = Attempt(tick: Work, recovery: Work)

  datatype Bounded = Done(succeeds: bool) | TimedOut

  /** A future raced against a deadline; finishing on the deadline still counts. */
  function Within(work: Work, timeout: nat): Bounded {
    if work.takes <= timeout then Done(work.succeeds) else TimedOut
  }

  function Spent(work: Work, timeout: nat): nat {
    if work.takes <= timeout then work.takes else timeout
  }

  /** `Stopped` is a strategy that failed too often; `Aborted` is an error of the
      round itself. Both end the round. */
  datatype Ending = Completed | Stopped(index: nat) | Aborted(index: nat)

  datatype RoundState = RoundState(counts: seq<nat>, ending: Ending, elapsed: nat)

  predicate Matches(dispatch: Dispatch, instrumentId: string) {
    match dispatch
    case ConfirmedCandle(id) => instrumentId == id
    case InstrumentUpdated(id) => instrumentId == id
    case PrivateEvent(id) => id == None || id == Some(instrumentId)
    case ReconcileTimer => true
    case StreamStateChanged => true
  }

  predicate TickSucceeds(attempt: Attempt, timeout: nat) {
    Within(attempt.tick, timeout) == Done(true)
  }

  function TickStrategy(counts: seq<nat>, index: nat, attempt: Attempt, timeout: nat): RoundState {
    var spent := Spent(attempt.tick, timeout);
    var success := TickSucceeds(attempt, timeout);
    var reported := Reported(counts, index, success);
    if index >= |counts| then RoundState(counts, Aborted(index), spent)
    else if success then RoundState(reported, Completed, spent)
    else if reported[index] >= MAX_CONSECUTIVE then RoundState(reported, Stopped(index), spent)
    else if Within(attempt.tick, timeout).Done? then RoundState(reported, Completed, spent)
    else
      RoundState(reported,
                 if Within(attempt.recovery, timeout) == Done(true) then Completed else Aborted(index),
                 spent + Spent(attempt.recovery, timeout))
  }

  /** The round over the first `n` strategies. */
  function Round(
    strategies: seq<string>, counts: seq<nat>, dispatch: Dispatch, attempts: seq<Attempt>, timeout: nat, n: nat): RoundState
    requires n <= |strategies| == |attempts|
  {
    if n == 0 then RoundState(counts, Completed, 0)
    else
      var before := Round(strategies, counts, dispatch, attempts, timeout, n - 1);
      if before.ending != Completed || !Matches(dispatch, strategies[n - 1]) then before
      else
        var tick := TickStrategy(before.counts, n - 1, attempts[n - 1], timeout);
        tick.(elapsed := before.elapsed + tick.elapsed)
  }

  method TickStrategyWithTimeout(
    failures: StrategyTickFailureTracker, index: nat, attempt: Attempt, timeout: nat)
    returns (ending: Ending, elapsed: nat)
    modifies failures
    ensures RoundState(failures.consecutiveFailures, ending, elapsed)
         == TickStrategy(old(failures.consecutiveFailures), index, attempt, timeout)
  {
    elapsed := Spent(attempt.tick, timeout);
    match Within(attempt.tick, timeout) {
      case Done(true) =>
        var recorded := failures.RecordSuccess(index);
        ending := if recorded.Ok? then Completed else Aborted(index);
      case Done(false) =>
        var failure := failures.RecordFailure(index);
        match failure {
          case Err(_) => ending := Aborted(index);
          case Ok(Stop(_)) => ending := Stopped(index);
          case Ok(Retry(_)) => ending := Completed;
        }
      case TimedOut =>
        var failure := failures.RecordFailure(index);
        match failure {
          case Err(_) => ending := Aborted(index);
          case Ok(Stop(_)) => ending := Stopped(index);
          case Ok(Retry(_)) =>
            elapsed := elapsed + Spent(attempt.recovery, timeout);
            ending := if Within(attempt.recovery, timeout) == Done(true) then Completed else Aborted(index);
        }
    }
  }

  /** The dispatch loop with its early return. */
  method ExecuteStrategyDispatch(
    strategies: seq<string>, failures: StrategyTickFailureTracker, dispatch: Dispatch, attempts: seq<Attempt>, timeout: nat)
    returns (ending: Ending, elapsed: nat)
    requires |strategies| == |attempts|
    modifies failures
    ensures RoundState(failures.consecutiveFailures, ending, elapsed)
         == Round(strategies, old(failures.consecutiveFailures), dispatch, attempts, timeout, |strategies|)
  {
    ghost var counts := failures.consecutiveFailures;
    ending, elapsed := Completed, 0;
    for index := 0 to |strategies|
      invariant RoundState(failures.consecutiveFailures, Completed, elapsed)
             == Round(strategies, counts, dispatch, attempts, timeout, index)
      invariant ending == Completed
    {
      if !Matches(dispatch, strategies[index]) {
        continue;
      }
      var spent;
      ending, spent := TickStrategyWithTimeout(failures, index, attempts[index], timeout);
      elapsed := elapsed + spent;
      if ending != Completed {
        RoundEndsEarly(strategies, counts, dispatch, attempts, timeout, index + 1, |strategies|);
        return;
      }
    }
  }

  lemma {:induction false} RoundEndsEarly(
    strategies: seq<string>, counts: seq<nat>, dispatch: Dispatch, attempts: seq<Attempt>, timeout: nat, m: nat, n: nat)
    requires m <= n <= |strategies| == |attempts|
    requires Round(strategies, counts, dispatch, attempts, timeout, m).ending != Completed
    ensures Round(strategies, counts, dispatch, attempts, timeout, n)
         == Round(strategies, counts, dispatch, attempts, timeout, m)
  {
    if m < n {
      RoundEndsEarly(strategies, counts, dispatch, attempts, timeout, m, n - 1);
    }
  }

  // ---------- what a round guarantees ----------

  lemma TickIsBounded(counts: seq<nat>, index: nat, attempt: Attempt, timeout: nat)
    ensures TickStrategy(counts, index, attempt, timeout).elapsed <= timeout + timeout
  {
  }

  lemma OneMoreStrategy(n: nat, timeout: nat)
    requires n > 0
    ensures 2 * n * timeout == 2 * (n - 1) * timeout + (timeout + timeout)
  {
  }

  /** A round never takes longer than two timeouts per strategy. */
  lemma {:induction false} RoundIsBounded(
    strategies: seq<string>, counts: seq<nat>, dispatch: Dispatch, attempts: seq<Attempt>, timeout: nat, n: nat)
    requires n <= |strategies| == |attempts|
    ensures Round(strategies, counts, dispatch, attempts, timeout, n).elapsed <= 2 * n * timeout
  {
    if n > 0 {
      RoundIsBounded(strategies, counts, dispatch, attempts, timeout, n - 1);
      OneMoreStrategy(n, timeout);
      var before := Round(strategies, counts, dispatch, attempts, timeout, n - 1);
      TickIsBounded(before.counts, n - 1, attempts[n - 1], timeout);
    }
  }

  /** After a completed round the counters of its strategies tell who failed in
      it, and no other counter has moved. */
  lemma {:induction false} CompletedRoundCounts(
    strategies: seq<string>, counts: seq<nat>, dispatch: Dispatch, attempts: seq<Attempt>, timeout: nat, n: nat)
    requires n <= |strategies| == |attempts| == |counts|
    requires Round(strategies, counts, dispatch, attempts, timeout, n).ending == Completed
    ensures var after := Round(strategies, counts, dispatch, attempts, timeout, n).counts;
            && |after| == |counts|
            && forall i | 0 <= i < |counts| ::
                 if i < n && Matches(dispatch, strategies[i]) then
                   after[i] == (if TickSucceeds(attempts[i], timeout) then 0 else counts[i] + 1)
                 else after[i] == counts[i]
  {
    if n > 0 {
      CompletedRoundCounts(strategies, counts, dispatch, attempts, timeout, n - 1);
    }
  }

  predicate EverySucceeds(attempts: seq<Attempt>, timeout: nat) {
    forall i | 0 <= i < |attempts| :: TickSucceeds(attempts[i], timeout)
  }

  /** After a completed round over all strategies, `has_failures` means exactly
      that some strategy failed in this very round. */
  lemma FailuresAreFromThisRound(
    strategies: seq<string>, counts: seq<nat>, dispatch: Dispatch, attempts: seq<Attempt>, timeout: nat)
    requires |strategies| == |attempts| == |counts|
    requires dispatch.StreamStateChanged? || dispatch.ReconcileTimer?
    requires Round(strategies, counts, dispatch, attempts, timeout, |strategies|).ending == Completed
    ensures AnyFailure(Round(strategies, counts, dispatch, attempts, timeout, |strategies|).counts)
       <==> !EverySucceeds(attempts, timeout)
  {
    CompletedRoundCounts(strategies, counts, dispatch, attempts, timeout, |strategies|);
    var after := Round(strategies, counts, dispatch, attempts, timeout, |strategies|).counts;
    if !EverySucceeds(attempts, timeout) {
      var i :| 0 <= i < |attempts| && !TickSucceeds(attempts[i], timeout);
      assert after[i] > 0;
    }
  }

  lemma {:induction false} RoundKeepsCount(
    strategies: seq<string>, counts: seq<nat>, dispatch: Dispatch, attempts: seq<Attempt>, timeout: nat, n: nat)
    requires n <= |strategies| == |attempts|
    ensures |Round(strategies, counts, dispatch, attempts, timeout, n).counts| == |counts|
  {
    if n > 0 {
      RoundKeepsCount(strategies, counts, dispatch, attempts, timeout, n - 1);
    }
  }

  // ---------- whom a round reaches, and how it ends ----------

  /** The one instrument a dispatch is meant for; `None` means every strategy. */
  function Addressee(dispatch: Dispatch): Option<string> {
    match dispatch
    case ConfirmedCandle(id) => Some(id)
    case InstrumentUpdated(id) => Some(id)
    case PrivateEvent(id) => id
    case _ => None
  }

  ghost predicate Reaches(dispatch: Dispatch, instrumentId: string) {
    Addressee(dispatch) == None || Addressee(dispatch) == Some(instrumentId)
  }

  lemma MatchesAddressee(dispatch: Dispatch, instrumentId: string)
    ensures Matches(dispatch, instrumentId) <==> Reaches(dispatch, instrumentId)
  {
  }

  /** A strategy gets through its part of the round: its tick succeeds in time; or,
      with fewer than two failures in a row behind it, the tick fails in time, or
      runs out of time and the recovery succeeds in time. */
  ghost predicate Survives(count: nat, attempt: Attempt, timeout: nat) {
    || (attempt.tick.takes <= timeout && attempt.tick.succeeds)
    || (count < 2 && (attempt.tick.takes <= timeout
                      || (attempt.recovery.takes <= timeout && attempt.recovery.succeeds)))
  }

  /** All strategies reached among the first `n` get through. */
  ghost predicate AllSurvive(
    strategies: seq<string>, counts: seq<nat>, dispatch: Dispatch, attempts: seq<Attempt>, timeout: nat, n: nat)
    requires n <= |strategies| == |counts| == |attempts|
  {
    forall i | 0 <= i < n && Reaches(dispatch, strategies[i]) :: Survives(counts[i], attempts[i], timeout)
  }

  lemma TickEnds(counts: seq<nat>, index: nat, attempt: Attempt, timeout: nat)
    requires index < |counts|
    ensures TickStrategy(counts, index, attempt, timeout).ending
         == if Survives(counts[index], attempt, timeout) then Completed
            else if counts[index] >= 2 then Stopped(index) else Aborted(index)
  {
  }

  /** A round completes exactly when every strategy it reaches gets through. */
  lemma {:induction false} RoundCompletesIff(
    strategies: seq<string>, counts: seq<nat>, dispatch: Dispatch, attempts: seq<Attempt>, timeout: nat, n: nat)
    requires n <= |strategies| == |counts| == |attempts|
    ensures Round(strategies, counts, dispatch, attempts, timeout, n).ending == Completed
       <==> AllSurvive(strategies, counts, dispatch, attempts, timeout, n)
  {
    if n > 0 {
      RoundCompletesIff(strategies, counts, dispatch, attempts, timeout, n - 1);
      MatchesAddressee(dispatch, strategies[n - 1]);
      var before := Round(strategies, counts, dispatch, attempts, timeout, n - 1);
      if before.ending == Completed {
        CompletedRoundCounts(strategies, counts, dispatch, attempts, timeout, n - 1);
        TickEnds(before.counts, n - 1, attempts[n - 1], timeout);
      }
    }
  }

  /** Otherwise it ends with the first strategy that does not: a stop at its third
      failure in a row, an abort when only its recovery failed. */
  lemma {:induction false} RoundEndsAtFirst(
    strategies: seq<string>, counts: seq<nat>, dispatch: Dispatch, attempts: seq<Attempt>, timeout: nat, n: nat, i: nat)
    requires i < n <= |strategies| == |counts| == |attempts|
    requires AllSurvive(strategies, counts, dispatch, attempts, timeout, i)
    requires Reaches(dispatch, strategies[i]) && !Survives(counts[i], attempts[i], timeout)
    ensures Round(strategies, counts, dispatch, attempts, timeout, n).ending
         == if counts[i] >= 2 then Stopped(i) else Aborted(i)
  {
    if i + 1 < n {
      RoundEndsAtFirst(strategies, counts, dispatch, attempts, timeout, n - 1, i);
    } else {
      RoundCompletesIff(strategies, counts, dispatch, attempts, timeout, i);
      CompletedRoundCounts(strategies, counts, dispatch, attempts, timeout, i);
      MatchesAddressee(dispatch, strategies[i]);
      TickEnds(Round(strategies, counts, dispatch, attempts, timeout, i).counts, i, attempts[i], timeout);
    }
  }

  /** A completed round touches the counters of the strategies it reaches and no
      other. */
  lemma RoundReachesOnly(
    strategies: seq<string>, counts: seq<nat>, dispatch: Dispatch, attempts: seq<Attempt>, timeout: nat, i: nat)
    requires i < |strategies| == |counts| == |attempts|
    requires Round(strategies, counts, dispatch, attempts, timeout, |strategies|).ending == Completed
    ensures var after := Round(strategies, counts, dispatch, attempts, timeout, |strategies|).counts;
            i < |after|
            && after[i] == if !Reaches(dispatch, strategies[i]) then counts[i]
                           else if attempts[i].tick.takes <= timeout && attempts[i].tick.succeeds then 0
                           else counts[i] + 1
  {
    CompletedRoundCounts(strategies, counts, dispatch, attempts, timeout, |strategies|);
    MatchesAddressee(dispatch, strategies[i]);
  }

  /** The time of one strategy: its tick, cut off at the timeout, and after a cut the
      recovery, cut off too. */
  function TimeOf(attempt: Attempt, timeout: nat): nat {
    if attempt.tick.takes <= timeout then attempt.tick.takes
    else timeout + (if attempt.recovery.takes <= timeout then attempt.recovery.takes else timeout)
  }

  ghost function TimeFrom(
    strategies: seq<string>, dispatch: Dispatch, attempts: seq<Attempt>, timeout: nat, n: nat): nat
    requires n <= |strategies| == |attempts|
  {
    if n == 0 then 0
    else
      TimeFrom(strategies, dispatch, attempts, timeout, n - 1)
      + (if Reaches(dispatch, strategies[n - 1]) then TimeOf(attempts[n - 1], timeout) else 0)
  }

  /** A completed round takes exactly the time of the strategies it reaches. */
  lemma {:induction false} CompletedRoundTime(
    strategies: seq<string>, counts: seq<nat>, dispatch: Dispatch, attempts: seq<Attempt>, timeout: nat, n: nat)
    requires n <= |strategies| == |counts| == |attempts|
    requires Round(strategies, counts, dispatch, attempts, timeout, n).ending == Completed
    ensures Round(strategies, counts, dispatch, attempts, timeout, n).elapsed
         == TimeFrom(strategies, dispatch, attempts, timeout, n)
  {
    if n > 0 {
      CompletedRoundTime(strategies, counts, dispatch, attempts, timeout, n - 1);
      CompletedRoundCounts(strategies, counts, dispatch, attempts, timeout, n - 1);
      MatchesAddressee(dispatch, strategies[n - 1]);
    }
  }
}
