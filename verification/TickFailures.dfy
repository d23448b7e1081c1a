/** Consecutive tick failures per strategy; the third one stops the runtime. */
module TickFailures {
  import opened Wrappers

  const MAX_CONSECUTIVE: nat := 3

  datatype TickFailure = Retry(consecutive: nat) | Stop(consecutive: nat)

  datatype TrackerError = Untracked(index: nat)

  class StrategyTickFailureTracker {
    var consecutiveFailures: seq<nat>

    constructor (strategyCount: nat)
      ensures consecutiveFailures == seq(strategyCount, _ => 0)
    {
      consecutiveFailures := seq(strategyCount, _ => 0);
    }

    method RecordSuccess(index: nat) returns (result: Result<(), TrackerError>)
      modifies this
      ensures result.Ok? <==> index < |old(consecutiveFailures)|
      ensures consecutiveFailures == Reported(old(consecutiveFailures), index, true)
    {
      if index >= |consecutiveFailures| {
        return Err(Untracked(index));
      }
      consecutiveFailures := consecutiveFailures[index := 0];
      result := Ok(());
    }

    method RecordFailure(index: nat) returns (result: Result<TickFailure, TrackerError>)
      modifies this
      ensures consecutiveFailures == Reported(old(consecutiveFailures), index, false)
      ensures result == if index >= |old(consecutiveFailures)| then Err(Untracked(index))
                        else if consecutiveFailures[index] >= MAX_CONSECUTIVE then Ok(Stop(consecutiveFailures[index]))
                        else Ok(Retry(consecutiveFailures[index]))
    {
      if index >= |consecutiveFailures| {
        return Err(Untracked(index));
      }
      var count := consecutiveFailures[index] + 1;
      consecutiveFailures := consecutiveFailures[index := count];
      result := if count >= MAX_CONSECUTIVE then Ok(Stop(count)) else Ok(Retry(count));
    }

    method HasFailures() returns (yes: bool)
      ensures yes == AnyFailure(consecutiveFailures)
    {
      yes := exists i | 0 <= i < |consecutiveFailures| :: consecutiveFailures[i] > 0;
    }
  }

  predicate AnyFailure(counts: seq<nat>) {
    exists i | 0 <= i < |counts| :: counts[i] > 0
  }

  function Reported(counts: seq<nat>, index: nat, success: bool): seq<nat> {
    if index >= |counts| then counts else counts[index := if success then 0 else counts[index] + 1]
  }

  // ---------- streaks ----------

  datatype Report = Report(index: nat, success: bool)

  function AfterReports(strategyCount: nat, reports: seq<Report>): (counts: seq<nat>)
    ensures |counts| == strategyCount
  {
    if reports == [] then seq(strategyCount, _ => 0)
    else
      var last := reports[|reports| - 1];
      Reported(AfterReports(strategyCount, reports[..|reports| - 1]), last.index, last.success)
  }

  /** The results of one strategy, oldest first. */
  function ResultsOf(reports: seq<Report>, index: nat): seq<bool> {
    if reports == [] then []
    else
      var last := reports[|reports| - 1];
      ResultsOf(reports[..|reports| - 1], index) + (if last.index == index then [last.success] else [])
  }

  /** `n` is the length of the run of failures at the end. */
  ghost predicate TrailingFailures(results: seq<bool>, n: nat) {
    && n <= |results|
    && (forall k | |results| - n <= k < |results| :: !results[k])
    && (n < |results| ==> results[|results| - n - 1])
  }

  /** The stop verdict means that the strategy's last three results failed. */
  lemma StopMeansThreeInARow(strategyCount: nat, reports: seq<Report>, index: nat)
    requires index < strategyCount
    ensures var results := ResultsOf(reports, index);
            AfterReports(strategyCount, reports)[index] >= MAX_CONSECUTIVE <==>
              |results| >= 3 && !results[|results| - 1] && !results[|results| - 2] && !results[|results| - 3]
  {
    CountersAreStreaks(strategyCount, reports, index);
  }

  /** Each counter is the strategy's current failure streak; other strategies
      never interfere. */
  lemma {:induction false} CountersAreStreaks(strategyCount: nat, reports: seq<Report>, index: nat)
    requires index < strategyCount
    ensures TrailingFailures(ResultsOf(reports, index), AfterReports(strategyCount, reports)[index])
  {
    if reports != [] {
      CountersAreStreaks(strategyCount, reports[..|reports| - 1], index);
    }
  }
}
