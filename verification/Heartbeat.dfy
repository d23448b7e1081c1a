/** The Cancel-All-After heartbeat: a timed refresh loop with a deadline per
    refresh, run against the exchange's own expiry timer. Instants are
    nanoseconds, and the loop is never scheduled late. */
module Heartbeat {
  import opened CaaTiming

  const NANOS_PER_MILLI: nat := 1_000_000

  /** A tick this late still keeps the interval's original phase. */
  const TICK_SLACK: nat := 5 * NANOS_PER_MILLI

  function Period(timeoutSeconds: nat): nat { HeartbeatPeriodMs(timeoutSeconds) * NANOS_PER_MILLI }

  function Window(timeoutSeconds: nat): nat { timeoutSeconds * MILLIS_PER_SECOND * NANOS_PER_MILLI }

  /** What the environment does to one iteration. A refresh reaches the exchange
      and is answered at offsets from its start. */
  datatype Beat =
    | Refresh(arrives: nat, replies: nat, accepted: bool)
    | StopWhileWaiting
    | StopWhileRefreshing

  datatype Ending = Running | Stopped | Failed(at: nat)

  /** `clock` is when the previous iteration ended, `nextTick` the interval's next
      deadline, `starts` when refreshes were sent, `arrivals` when the acknowledged
      ones reached the exchange. */
  datatype Loop = Loop(clock: nat, nextTick: nat, starts: seq<nat>, arrivals: seq<nat>, ending: Ending)

  ghost predicate Causal(beat: Beat) {
    beat.Refresh? ==> beat.arrives <= beat.replies
  }

  function NextTick(deadline: nat, now: nat, period: nat): nat {
    if now > deadline + TICK_SLACK then now + period else deadline + period
  }

  /** The interval's first tick completes at once. */
  function Spawned(at: nat, period: nat): Loop { Loop(at, at + period, [], [], Running) }

  function Beats(loop: Loop, beat: Beat, period: nat): Loop {
    if loop.ending != Running then loop
    else if beat.StopWhileWaiting? then loop.(ending := Stopped)
    else
      var start := Max(loop.clock, loop.nextTick);
      var ticked := loop.(nextTick := NextTick(loop.nextTick, start, period), starts := loop.starts + [start]);
      match beat
      case Refresh(arrives, replies, accepted) =>
        if replies > period then ticked.(clock := start + period, ending := Failed(start + period))
        else if !accepted then ticked.(clock := start + replies, ending := Failed(start + replies))
        else ticked.(clock := start + replies, arrivals := loop.arrivals + [start + arrives])
      case _ => ticked.(ending := Stopped)
  }

  function AfterBeats(spawnedAt: nat, period: nat, beats: seq<Beat>): Loop {
    if beats == [] then Spawned(spawnedAt, period)
    else Beats(AfterBeats(spawnedAt, period, beats[..|beats| - 1]), beats[|beats| - 1], period)
  }

  method RunHeartbeat(spawnedAt: nat, period: nat, beats: seq<Beat>)
    returns (starts: seq<nat>, arrivals: seq<nat>, ending: Ending)
    ensures starts == AfterBeats(spawnedAt, period, beats).starts
    ensures arrivals == AfterBeats(spawnedAt, period, beats).arrivals
    ensures ending == AfterBeats(spawnedAt, period, beats).ending
  {
    var clock: nat, nextTick: nat := spawnedAt, spawnedAt + period;
    starts, arrivals, ending := [], [], Running;
    for i := 0 to |beats|
      invariant Loop(clock, nextTick, starts, arrivals, Running) == AfterBeats(spawnedAt, period, beats[..i])
      invariant ending == Running
    {
      assert beats[..i + 1][..|beats[..i + 1]| - 1] == beats[..i];
      if beats[i].StopWhileWaiting? {
        EndedStays(spawnedAt, period, beats, i + 1);
        return starts, arrivals, Stopped;
      }
      var start := Max(clock, nextTick);
      nextTick := NextTick(nextTick, start, period);
      starts := starts + [start];
      if beats[i].StopWhileRefreshing? {
        EndedStays(spawnedAt, period, beats, i + 1);
        return starts, arrivals, Stopped;
      }
      var replies := beats[i].replies;
      if replies > period || !beats[i].accepted {
        EndedStays(spawnedAt, period, beats, i + 1);
        return starts, arrivals, Failed(start + (if replies > period then period else replies));
      }
      clock := start + replies;
      arrivals := arrivals + [start + beats[i].arrives];
    }
    assert beats[..|beats|] == beats;
  }

  lemma {:induction false} EndedStays(spawnedAt: nat, period: nat, beats: seq<Beat>, i: nat)
    requires i <= |beats| && AfterBeats(spawnedAt, period, beats[..i]).ending != Running
    ensures AfterBeats(spawnedAt, period, beats) == AfterBeats(spawnedAt, period, beats[..i])
  {
    if i < |beats| {
      assert beats[..|beats| - 1][..i] == beats[..i];
      EndedStays(spawnedAt, period, beats[..|beats| - 1], i);
    } else {
      assert beats[..i] == beats;
    }
  }

  // ---------- timing ----------

  /** The newest instant the exchange timer counts from, as far as the loop knows. */
  function LastArrival(spawnedAt: nat, arrivals: seq<nat>): nat {
    if arrivals == [] then spawnedAt else arrivals[|arrivals| - 1]
  }

  ghost predicate GapsAtMost(arrivals: seq<nat>, gap: nat) {
    forall i, j | 0 <= i < j < |arrivals| && j == i + 1 :: arrivals[i] <= arrivals[j] <= arrivals[i] + gap
  }

  ghost predicate OnTime(spawnedAt: nat, period: nat, loop: Loop) {
    var last := LastArrival(spawnedAt, loop.arrivals);
    && GapsAtMost(loop.arrivals, 2 * period)
    && (loop.arrivals != [] ==> spawnedAt + period <= loop.arrivals[0] <= spawnedAt + 2 * period)
    && (loop.ending == Running ==> last <= Max(loop.clock, loop.nextTick) <= last + period)
    && (loop.ending.Failed? ==> loop.ending.at <= last + 2 * period)
  }

  /** Acknowledged refreshes arrive at most two periods apart, the first within
      two periods of the spawn, and a failure is reported within two periods of
      the refresh before it. */
  lemma {:induction false} RefreshesAreOnTime(spawnedAt: nat, period: nat, beats: seq<Beat>)
    requires forall beat | beat in beats :: Causal(beat)
    ensures OnTime(spawnedAt, period, AfterBeats(spawnedAt, period, beats))
    ensures AfterBeats(spawnedAt, period, beats).nextTick >= spawnedAt + period
  {
    if beats != [] {
      assert Causal(beats[|beats| - 1]);
      RefreshesAreOnTime(spawnedAt, period, beats[..|beats| - 1]);
      BeatStaysOnTime(spawnedAt, period, AfterBeats(spawnedAt, period, beats[..|beats| - 1]), beats[|beats| - 1]);
    }
  }

  lemma BeatStaysOnTime(spawnedAt: nat, period: nat, loop: Loop, beat: Beat)
    requires OnTime(spawnedAt, period, loop) && Causal(beat) && loop.nextTick >= spawnedAt + period
    ensures OnTime(spawnedAt, period, Beats(loop, beat, period))
    ensures Beats(loop, beat, period).nextTick >= spawnedAt + period
  {
  }

  ghost predicate SpacedStarts(spawnedAt: nat, period: nat, loop: Loop) {
    && (forall i, j | 0 <= i < j < |loop.starts| && j == i + 1 ::
          loop.starts[j] + 5_000_000 >= loop.starts[i] + period)
    && (loop.starts != [] ==>
          loop.starts[0] == spawnedAt + period
          && loop.nextTick + 5_000_000 >= loop.starts[|loop.starts| - 1] + period)
    && (loop.starts == [] ==> loop.clock == spawnedAt && loop.nextTick == spawnedAt + period)
  }

  /** Refreshes are never sent in a burst: the first one a period after the spawn,
      each next one at least a period, less the interval's 5 ms slack, later. */
  lemma {:induction false} RefreshesAreSpaced(spawnedAt: nat, period: nat, beats: seq<Beat>)
    ensures SpacedStarts(spawnedAt, period, AfterBeats(spawnedAt, period, beats))
  {
    if beats != [] {
      RefreshesAreSpaced(spawnedAt, period, beats[..|beats| - 1]);
      BeatKeepsSpacing(spawnedAt, period, AfterBeats(spawnedAt, period, beats[..|beats| - 1]), beats[|beats| - 1]);
    }
  }

  lemma BeatKeepsSpacing(spawnedAt: nat, period: nat, loop: Loop, beat: Beat)
    requires SpacedStarts(spawnedAt, period, loop)
    ensures SpacedStarts(spawnedAt, period, Beats(loop, beat, period))
  {
  }

  /** The refresh is acknowledged before its deadline, one period after it starts. */
  predicate InTime(beat: Beat, period: nat) { beat.Refresh? && beat.accepted && beat.replies <= period }

  /** The loop goes on exactly while every refresh is acknowledged in time, and then
      each of them has been sent and has arrived. */
  lemma {:induction false} BeatsOnIff(spawnedAt: nat, period: nat, beats: seq<Beat>)
    ensures var loop := AfterBeats(spawnedAt, period, beats);
            && (loop.ending == Running <==> forall i | 0 <= i < |beats| :: InTime(beats[i], period))
            && (loop.ending == Running ==>
                  && |loop.starts| == |loop.arrivals| == |beats|
                  && forall i | 0 <= i < |beats| :: loop.arrivals[i] == loop.starts[i] + beats[i].arrives)
  {
    if beats != [] {
      BeatsOnIff(spawnedAt, period, beats[..|beats| - 1]);
    }
  }

  /** It ends with the first one that is not: by a stop, or by a failure reported
      when the refusal arrives or the deadline passes. */
  lemma EndsAtFirst(spawnedAt: nat, period: nat, beats: seq<Beat>, i: nat)
    requires i < |beats| && !InTime(beats[i], period)
    requires forall k | 0 <= k < i :: InTime(beats[k], period)
    ensures var loop, sent := AfterBeats(spawnedAt, period, beats), AfterBeats(spawnedAt, period, beats[..i + 1]).starts;
            && loop == AfterBeats(spawnedAt, period, beats[..i + 1])
            && |loop.arrivals| == i
            && (beats[i].StopWhileWaiting? ==> loop.ending == Stopped && |sent| == i)
            && (beats[i].StopWhileRefreshing? ==> loop.ending == Stopped && |sent| == i + 1)
            && (beats[i].Refresh? ==>
                  |sent| == i + 1
                  && loop.ending == Failed(sent[i] + (if beats[i].replies <= period then beats[i].replies else period)))
  {
    var upTo := beats[..i + 1];
    assert upTo[..|upTo| - 1] == beats[..i];
    BeatsOnIff(spawnedAt, period, beats[..i]);
    EndedStays(spawnedAt, period, beats, i + 1);
  }

  /** Three periods fit into the exchange window. */
  lemma PeriodsFitWindow(timeoutSeconds: nat)
    requires MIN_TIMEOUT_SECS <= timeoutSeconds <= MAX_TIMEOUT_SECS
    ensures 0 < 3 * Period(timeoutSeconds) <= Window(timeoutSeconds)
  {
  }

  /** The timer never runs out between acknowledged refreshes, and a failure that
      follows one is reported at least a full period before the earliest expiry. */
  lemma TimerNeverExpires(timeoutSeconds: nat, spawnedAt: nat, beats: seq<Beat>)
    requires MIN_TIMEOUT_SECS <= timeoutSeconds <= MAX_TIMEOUT_SECS
    requires forall beat | beat in beats :: Causal(beat)
    ensures var loop := AfterBeats(spawnedAt, Period(timeoutSeconds), beats);
            && (forall i, j | 0 <= i < j < |loop.arrivals| && j == i + 1 ::
                  loop.arrivals[j] < loop.arrivals[i] + Window(timeoutSeconds))
            && (loop.ending.Failed? && loop.arrivals != [] ==>
                  loop.ending.at + Period(timeoutSeconds)
                  <= loop.arrivals[|loop.arrivals| - 1] + Window(timeoutSeconds))
  {
    PeriodsFitWindow(timeoutSeconds);
    RefreshesAreOnTime(spawnedAt, Period(timeoutSeconds), beats);
  }

  /** The first refresh arrives, or its failure is reported, before the arm at
      startup expires. */
  ghost predicate FirstOutcomeInTime(timeoutSeconds: nat, armedAt: nat, spawnedAt: nat, beats: seq<Beat>) {
    var loop := AfterBeats(spawnedAt, Period(timeoutSeconds), beats);
    && (loop.arrivals != [] ==> loop.arrivals[0] < armedAt + Window(timeoutSeconds))
    && (loop.arrivals == [] && loop.ending.Failed? ==> loop.ending.at < armedAt + Window(timeoutSeconds))
  }

  /** In every run the first refresh arrives or is reported failed before the
      startup arm expires, exactly when the heartbeat is spawned early enough after
      it: two periods must still fit. */
  lemma FirstGapIsExact(timeoutSeconds: nat, armedAt: nat, spawnedAt: nat)
    requires MIN_TIMEOUT_SECS <= timeoutSeconds <= MAX_TIMEOUT_SECS
    ensures (forall beats: seq<Beat> | (forall beat | beat in beats :: Causal(beat)) ::
               FirstOutcomeInTime(timeoutSeconds, armedAt, spawnedAt, beats))
       <==> spawnedAt + 2 * Period(timeoutSeconds) < armedAt + Window(timeoutSeconds)
  {
    var period := Period(timeoutSeconds);
    forall beats: seq<Beat> | (forall beat | beat in beats :: Causal(beat))
      ensures spawnedAt + 2 * period < armedAt + Window(timeoutSeconds) ==>
                FirstOutcomeInTime(timeoutSeconds, armedAt, spawnedAt, beats)
    {
      RefreshesAreOnTime(spawnedAt, period, beats);
    }
    var slowest := [Refresh(period, period, true)];
    assert slowest[..|slowest| - 1] == [];
    assert AfterBeats(spawnedAt, period, slowest).arrivals == [spawnedAt + 2 * period];
    assert FirstOutcomeInTime(timeoutSeconds, armedAt, spawnedAt, slowest) <==>
      spawnedAt + 2 * period < armedAt + Window(timeoutSeconds);
  }
}
