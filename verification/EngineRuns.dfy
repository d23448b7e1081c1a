/** Whole runs of the runtime loop: reconciliation before dispatch, and what
    becomes of confirmed candles. */
module EngineRuns {
  import opened Wrappers
  import opened HealthTracker
  import opened TickFailures
  import opened StrategyDispatch
  import opened TradingEngine

  /** The last step of a run; `None` when the inputs are not a run, because an arm
      was not on offer or the loop had already ended. */
  function Play(s: EngineState, inputs: seq<Input>): Option<EngineStep> {
    if inputs == [] then Some(EngineStep(s, Continue, None))
    else
      match Play(s, inputs[..|inputs| - 1])
      case None => None
      case Some(before) =>
        if before.decision != Continue || !Offered(before.state, inputs[|inputs| - 1]) then None
        else Some(TakeInput(before.state, inputs[|inputs| - 1]))
  }

  ghost predicate IsRun(s: EngineState, inputs: seq<Input>) { Play(s, inputs).Some? }

  lemma {:induction false} PrefixIsRun(s: EngineState, inputs: seq<Input>, n: nat)
    requires IsRun(s, inputs) && n <= |inputs|
    ensures IsRun(s, inputs[..n])
    ensures n < |inputs| ==> Play(s, inputs[..n]).value.decision == Continue
    ensures n < |inputs| ==> Offered(Play(s, inputs[..n]).value.state, inputs[n])
    ensures n < |inputs| ==>
      Play(s, inputs[..n + 1]) == Some(TakeInput(Play(s, inputs[..n]).value.state, inputs[n]))
  {
    if n == |inputs| {
      assert inputs[..n] == inputs;
    } else if n + 1 == |inputs| {
      assert inputs[..n + 1] == inputs;
    } else {
      var front := inputs[..|inputs| - 1];
      PrefixIsRun(s, front, n);
      assert front[..n] == inputs[..n] && front[..n + 1] == inputs[..n + 1];
    }
  }

  function StateAt(s: EngineState, inputs: seq<Input>, n: nat): EngineState
    requires n <= |inputs| && IsRun(s, inputs[..n])
  {
    Play(s, inputs[..n]).value.state
  }

  // ---------- reconciliation before dispatch ----------

  ghost predicate Balanced(s: EngineState) { |s.counts| == |s.strategies| }

  /** Strategies may not be dispatched to before they have been reconciled. */
  ghost predicate Owes(s: EngineState) { AllReady(s.tracker) ==> s.reconcileRequested }

  /** Some stream is not ready at some point while the events are drained. */
  ghost predicate Dips(s: EngineState, events: seq<HealthEvent>) {
    exists n: nat :: n <= |events| && !AllReady(HandleEvents(s, events[..n]).tracker)
  }

  ghost predicate Reconciled(step: EngineStep) { step.executed == Some(Executed(StreamStateChanged, true)) }

  ghost predicate Dispatches(step: EngineStep) {
    step.executed.Some? && !step.executed.value.dispatch.StreamStateChanged?
  }

  lemma EventKeepsOwing(s: EngineState, e: HealthEvent)
    requires Owes(s)
    ensures Owes(HandleEvent(s, e))
  {
  }

  lemma {:induction false} EventsKeepOwing(s: EngineState, events: seq<HealthEvent>)
    requires Owes(s) || Dips(s, events)
    ensures Owes(HandleEvents(s, events))
  {
    if events != [] {
      var front := events[..|events| - 1];
      if AllReady(HandleEvents(s, events).tracker) {
        if !Owes(s) {
          var n: nat :| n <= |events| && !AllReady(HandleEvents(s, events[..n]).tracker);
          assert n < |events| by { assert events[..|events|] == events; }
          assert front[..n] == events[..n];
        }
        EventsKeepOwing(s, front);
        EventKeepsOwing(HandleEvents(s, front), events[|events| - 1]);
      }
    }
  }

  /** A round that goes on reconciled every strategy exactly when it leaves the
      latch clear. */
  lemma LatchTellsTheRound(s: EngineState, attempts: seq<Attempt>)
    requires Balanced(s) && |attempts| == |s.strategies| && AllReady(s.tracker)
    requires ReconcileStep(s, attempts).decision == Continue
    ensures ReconcileStep(s, attempts).executed == Some(Executed(StreamStateChanged, EverySucceeds(attempts, s.timeout)))
    ensures ReconcileStep(s, attempts).state.reconcileRequested <==> !EverySucceeds(attempts, s.timeout)
  {
    FailuresAreFromThisRound(s.strategies, s.counts, StreamStateChanged, attempts, s.timeout);
  }

  lemma DispatchKeepsBalance(s: EngineState, dispatch: Dispatch, attempts: seq<Attempt>)
    requires Balanced(s) && |attempts| == |s.strategies|
    ensures Balanced(DispatchStep(s, dispatch, attempts).state)
  {
    RoundKeepsCount(s.strategies, s.counts, dispatch, attempts, s.timeout, |s.strategies|);
  }

  lemma StepKeepsBalance(s: EngineState, input: Input)
    requires Balanced(s) && Offered(s, input)
    ensures Balanced(TakeInput(s, input).state)
    ensures TakeInput(s, input).state.strategies == s.strategies
  {
    var attempts := Attempts(input, s);
    match input {
      case ServerTimeFailed(_, _) => DispatchKeepsBalance(s, StreamStateChanged, attempts);
      case PrivateArrived(event, _) =>
        if event.Some? { DispatchKeepsBalance(s, PrivateEvent(event.value), attempts); }
      case TimerTicked(_) =>
        DispatchKeepsBalance(s.(reconcileRequested := false), StreamStateChanged, attempts);
        DispatchKeepsBalance(s, ReconcileTimer, attempts);
      case HealthArrived(first, queued, _) =>
        if first.Some? {
          HandleKeepsStrategies(s, Drained(first.value, queued));
          var handled := HandleEvents(s, Drained(first.value, queued));
          DispatchKeepsBalance(handled.(reconcileRequested := false), StreamStateChanged, attempts);
        }
      case PendingReady(_) =>
        var id := FirstPending(s);
        DispatchKeepsBalance(s.(pending := s.pending - {id}), ConfirmedCandle(id), attempts);
      case PublicArrived(event, _) =>
        if event.Some? {
          DispatchKeepsBalance(s, ConfirmedCandle(event.value.instrumentId), attempts);
          DispatchKeepsBalance(s, InstrumentUpdated(event.value.instrumentId), attempts);
        }
      case _ =>
    }
  }

  /** While a reconciliation is owed nothing but a reconciliation runs, and it
      stays owed until one succeeds for every strategy. */
  lemma StepKeepsOwing(s: EngineState, input: Input)
    requires Balanced(s) && Offered(s, input)
    requires Owes(s) || HealthDips(s, input)
    ensures !Dispatches(TakeInput(s, input))
    ensures TakeInput(s, input).decision == Continue && !Reconciled(TakeInput(s, input)) ==>
              Owes(TakeInput(s, input).state)
  {
    if input.TimerTicked? && s.reconcileRequested && AllReady(s.tracker) {
      ReconcileKeepsOwing(s, input.attempts);
    } else if input.HealthArrived? && input.first.Some? {
      var events := Drained(input.first.value, input.queued);
      EventsKeepOwing(s, events);
      HandleKeepsStrategies(s, events);
      var handled := HandleEvents(s, events);
      if AllReady(handled.tracker) {
        ReconcileKeepsOwing(handled, input.attempts);
      }
    }
  }

  lemma ReconcileKeepsOwing(s: EngineState, attempts: seq<Attempt>)
    requires Balanced(s) && |attempts| == |s.strategies| && AllReady(s.tracker)
    ensures !Dispatches(ReconcileStep(s, attempts))
    ensures ReconcileStep(s, attempts).decision == Continue && !Reconciled(ReconcileStep(s, attempts)) ==>
              Owes(ReconcileStep(s, attempts).state)
  {
    if ReconcileStep(s, attempts).decision == Continue {
      LatchTellsTheRound(s, attempts);
    }
  }

  ghost predicate HealthDips(s: EngineState, input: Input) {
    input.HealthArrived? && input.first.Some? && Dips(s, Drained(input.first.value, input.queued))
  }

  /** A mandatory stream is not ready when iteration `k` starts, or becomes so
      while that iteration drains health events. */
  ghost predicate UnreadyIn(s: EngineState, inputs: seq<Input>, k: nat)
    requires IsRun(s, inputs) && k < |inputs|
  {
    PrefixIsRun(s, inputs, k);
    !AllReady(StateAt(s, inputs, k).tracker) || HealthDips(StateAt(s, inputs, k), inputs[k])
  }

  ghost predicate ReconciledIn(s: EngineState, inputs: seq<Input>, j: nat)
    requires IsRun(s, inputs) && j < |inputs|
  {
    PrefixIsRun(s, inputs, j);
    Reconciled(TakeInput(StateAt(s, inputs, j), inputs[j]))
  }

  ghost predicate DispatchesIn(s: EngineState, inputs: seq<Input>, i: nat)
    requires IsRun(s, inputs) && i < |inputs|
  {
    PrefixIsRun(s, inputs, i);
    Dispatches(TakeInput(StateAt(s, inputs, i), inputs[i]))
  }

  lemma {:induction false} RunKeepsBalance(s: EngineState, inputs: seq<Input>)
    requires IsRun(s, inputs) && Balanced(s)
    ensures Balanced(Play(s, inputs).value.state)
    ensures Play(s, inputs).value.state.strategies == s.strategies
  {
    if inputs != [] {
      var front := inputs[..|inputs| - 1];
      RunKeepsBalance(s, front);
      StepKeepsBalance(Play(s, front).value.state, inputs[|inputs| - 1]);
    }
  }

  /** A reconciliation is owed when iteration `k` starts, or will be once its
      health events are drained. */
  ghost predicate OwesAt(s: EngineState, inputs: seq<Input>, k: nat)
    requires IsRun(s, inputs) && k < |inputs|
  {
    PrefixIsRun(s, inputs, k);
    Owes(StateAt(s, inputs, k)) || HealthDips(StateAt(s, inputs, k), inputs[k])
  }

  lemma {:induction false} OwesUntilReconciled(s: EngineState, inputs: seq<Input>, k: nat, i: nat)
    requires IsRun(s, inputs) && Balanced(s) && k <= i < |inputs| && OwesAt(s, inputs, k)
    requires forall j: nat | k <= j < i :: !ReconciledIn(s, inputs, j)
    ensures OwesAt(s, inputs, i)
    decreases i
  {
    if i > k {
      OwesUntilReconciled(s, inputs, k, i - 1);
      OwesOneMore(s, inputs, i - 1);
    }
  }

  lemma OwesOneMore(s: EngineState, inputs: seq<Input>, i: nat)
    requires IsRun(s, inputs) && Balanced(s) && i + 1 < |inputs| && OwesAt(s, inputs, i) && !ReconciledIn(s, inputs, i)
    ensures OwesAt(s, inputs, i + 1)
  {
    PrefixIsRun(s, inputs, i);
    PrefixIsRun(s, inputs, i + 1);
    RunKeepsBalance(s, inputs[..i]);
    StepKeepsOwing(StateAt(s, inputs, i), inputs[i]);
  }

  /** Between a moment when a mandatory stream is not ready and the next candle,
      private-event, instrument or timer dispatch lies a stream-state round in
      which every strategy succeeded. */
  lemma ReconcileBeforeDispatch(s: EngineState, inputs: seq<Input>, k: nat, i: nat)
    requires IsRun(s, inputs) && Balanced(s) && k <= i < |inputs|
    requires UnreadyIn(s, inputs, k) && DispatchesIn(s, inputs, i)
    ensures exists j: nat :: k <= j < i && ReconciledIn(s, inputs, j)
  {
    if forall j: nat | k <= j < i :: !ReconciledIn(s, inputs, j) {
      OwesUntilReconciled(s, inputs, k, i);
      PrefixIsRun(s, inputs, i);
      RunKeepsBalance(s, inputs[..i]);
      StepKeepsOwing(StateAt(s, inputs, i), inputs[i]);
    }
  }

  /** An engine with mandatory streams starts out owing that round. */
  lemma NothingBeforeFirstReconciliation(
    streams: set<Stream>, strategies: seq<string>, timeout: nat, inputs: seq<Input>, i: nat)
    requires streams != {} && IsRun(FreshEngine(streams, strategies, timeout), inputs) && i < |inputs|
    requires DispatchesIn(FreshEngine(streams, strategies, timeout), inputs, i)
    ensures exists j: nat :: j < i && ReconciledIn(FreshEngine(streams, strategies, timeout), inputs, j)
  {
    var s := FreshEngine(streams, strategies, timeout);
    assert inputs[..0] == [] && Play(s, []).value.state == s;
    assert UnreadyIn(s, inputs, 0);
    ReconcileBeforeDispatch(s, inputs, 0, i);
  }

  // ---------- confirmed candles ----------

  function Bar(event: PublicEvent, id: string): seq<int> {
    match event
    case Candle(instrumentId, barTs) => if instrumentId == id then [barTs] else []
    case InstrumentChange(_) => []
  }

  function Arriving(input: Input, id: string): seq<int> {
    if input.PublicArrived? && input.event.Some? then Bar(input.event.value, id) else []
  }

  /** The bars of an instrument that arrived, in order. */
  function Arrived(inputs: seq<Input>, id: string): seq<int> {
    if inputs == [] then [] else Arrived(inputs[..|inputs| - 1], id) + Arriving(inputs[|inputs| - 1], id)
  }

  /** The bar a step handed to the strategies. */
  function Delivering(s: EngineState, input: Input, id: string): seq<int> {
    if input.PendingReady? && s.pending != map[] then Bar(Candle(FirstPending(s), s.pending[FirstPending(s)]), id)
    else if DispatchReady(s) then Arriving(input, id)
    else []
  }

  function Delivered(s: EngineState, inputs: seq<Input>, id: string): seq<int>
    requires IsRun(s, inputs)
  {
    if inputs == [] then []
    else
      var front := inputs[..|inputs| - 1];
      Delivered(s, front, id) + Delivering(Play(s, front).value.state, inputs[|inputs| - 1], id)
  }

  function Waiting(s: EngineState, id: string): seq<int> {
    if id in s.pending then [s.pending[id]] else []
  }

  /** A delivery is an executed candle round, and there is no other. */
  lemma DeliveryIsDispatch(s: EngineState, input: Input, id: string)
    requires Offered(s, input)
    ensures Delivering(s, input, id) != []
       <==> TakeInput(s, input).executed.Some? && TakeInput(s, input).executed.value.dispatch == ConfirmedCandle(id)
  {
    if input.HealthArrived? && input.first.Some? {
      HandleKeepsStrategies(s, Drained(input.first.value, input.queued));
    }
  }

  /** What one step may do to the bars of an instrument: nothing; deliver the
      waiting one; deliver the arriving one while none waits; drop an arriving one
      older than the waiting one; or let the arriving one wait in its place. */
  ghost predicate BarsMove(arriving: seq<int>, delivering: seq<int>, before: seq<int>, after: seq<int>) {
    || (arriving == delivering == [] && after == before)
    || (arriving == [] && delivering == before && after == [])
    || (arriving == delivering && |arriving| == 1 && before == after == [])
    || (|arriving| == |before| == 1 && delivering == [] && after == before && arriving[0] < before[0])
    || (|arriving| == 1 && |before| <= 1 && delivering == [] && after == arriving
        && (before != [] ==> before[0] <= arriving[0]))
  }

  lemma StepMovesBars(s: EngineState, input: Input, id: string)
    requires Offered(s, input) && id in s.strategies
    ensures BarsMove(Arriving(input, id), Delivering(s, input, id), Waiting(s, id), Waiting(TakeInput(s, input).state, id))
  {
    if input.HealthArrived? && input.first.Some? {
      HandleKeepsStrategies(s, Drained(input.first.value, input.queued));
    }
  }

  // No bar is lost without a newer one in its place.

  ghost predicate Covered(bars: seq<int>, others: seq<int>) {
    forall b | b in bars :: exists c :: c in others && b <= c
  }

  lemma CoverGrows(arrived: seq<int>, delivered: seq<int>, arriving: seq<int>, delivering: seq<int>,
                   before: seq<int>, after: seq<int>)
    requires Covered(arrived, delivered + before) && BarsMove(arriving, delivering, before, after)
    ensures Covered(arrived + arriving, delivered + delivering + after)
  {
    var was, now := delivered + before, delivered + delivering + after;
    forall b | b in arrived + arriving
      ensures exists c :: c in now && b <= c
    {
      if b in arrived {
        var c :| c in was && b <= c;
        if c !in now {
          assert c in before && after == arriving;
          assert arriving[0] in now;
        }
      } else {
        assert b == arriving[0];
        assert delivering == arriving ==> b in now;
        assert after != [] ==> after[0] in now;
      }
    }
  }

  /** Every bar that arrived for a traded instrument has been delivered, or waits,
      or has given way to a bar at least as new that was or does. */
  lemma {:induction false} NoCandleIsLost(s: EngineState, inputs: seq<Input>, id: string)
    requires Balanced(s) && s.pending == map[] && id in s.strategies && IsRun(s, inputs)
    ensures Covered(Arrived(inputs, id), Delivered(s, inputs, id) + Waiting(Play(s, inputs).value.state, id))
  {
    if inputs != [] {
      var front, input := inputs[..|inputs| - 1], inputs[|inputs| - 1];
      NoCandleIsLost(s, front, id);
      RunKeepsBalance(s, front);
      var before := Play(s, front).value.state;
      StepMovesBars(before, input, id);
      CoverGrows(Arrived(front, id), Delivered(s, front, id), Arriving(input, id),
                 Delivering(before, input, id), Waiting(before, id), Waiting(TakeInput(before, input).state, id));
    }
  }

  // Deliveries do not overtake each other.

  ghost predicate Sorted(bars: seq<int>) { forall i, j | 0 <= i < j < |bars| :: bars[i] <= bars[j] }

  ghost predicate SameNewest(bars: seq<int>, others: seq<int>) {
    if bars == [] then others == [] else others != [] && bars[|bars| - 1] == others[|others| - 1]
  }

  lemma OrderGrows(arrived: seq<int>, delivered: seq<int>, arriving: seq<int>, delivering: seq<int>,
                   before: seq<int>, after: seq<int>)
    requires Sorted(arrived + arriving) && BarsMove(arriving, delivering, before, after)
    requires Sorted(delivered + before) && SameNewest(arrived, delivered + before)
    ensures Sorted(delivered + delivering + after) && SameNewest(arrived + arriving, delivered + delivering + after)
  {
    var was, now := delivered + before, delivered + delivering + after;
    if arriving == [] {
      assert arrived + arriving == arrived && now == was;
    } else {
      assert (arrived + arriving)[|arrived|] == arriving[0];
      if arrived != [] {
        assert (arrived + arriving)[|arrived| - 1] == arrived[|arrived| - 1] <= arriving[0];
        assert forall i | 0 <= i < |was| :: was[i] <= was[|was| - 1];
        assert forall i | 0 <= i < |delivered| :: delivered[i] == was[i];
        assert before != [] ==> was[|was| - 1] == before[0];
      }
      assert now == delivered + arriving;
    }
  }

  /** When the bars of a traded instrument arrive in order they are delivered in
      order, and the newest one that arrived is the newest delivered or waiting. */
  lemma {:induction false} CandlesKeepOrder(s: EngineState, inputs: seq<Input>, id: string)
    requires Balanced(s) && s.pending == map[] && id in s.strategies && IsRun(s, inputs)
    requires Sorted(Arrived(inputs, id))
    ensures var bars := Delivered(s, inputs, id) + Waiting(Play(s, inputs).value.state, id);
            Sorted(bars) && SameNewest(Arrived(inputs, id), bars)
  {
    if inputs != [] {
      var front, input := inputs[..|inputs| - 1], inputs[|inputs| - 1];
      SortedPrefix(Arrived(front, id), Arriving(input, id));
      CandlesKeepOrder(s, front, id);
      RunKeepsBalance(s, front);
      var before := Play(s, front).value.state;
      StepMovesBars(before, input, id);
      OrderGrows(Arrived(front, id), Delivered(s, front, id), Arriving(input, id),
                 Delivering(before, input, id), Waiting(before, id), Waiting(TakeInput(before, input).state, id));
    }
  }

  lemma SortedPrefix(bars: seq<int>, more: seq<int>)
    requires Sorted(bars + more)
    ensures Sorted(bars)
  {
    assert forall i | 0 <= i < |bars| :: bars[i] == (bars + more)[i];
  }
}
