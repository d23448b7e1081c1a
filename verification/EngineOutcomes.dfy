/** What each input of the runtime loop leads to, and when a run goes on: stated on
    the inputs and on what strategies do in a round. */
module EngineOutcomes {
  import opened Wrappers
  import Ordered
  import opened HealthTracker
  import opened StrategyDispatch
  import opened TradingEngine
  import opened EngineRuns

  // ---------- every arrival is one round ----------

  /** What an input asks for on its own: a private event, an instrument change and a
      timer tick each ask for one round of their own kind and instrument. */
  function Asks(input: Input): seq<Dispatch> {
    match input
    case PrivateArrived(Some(instrument), _) => [PrivateEvent(instrument)]
    case PublicArrived(Some(InstrumentChange(id)), _) => [InstrumentUpdated(id)]
    case TimerTicked(_) => [ReconcileTimer]
    case _ => []
  }

  /** The round a step executed, if it is of such a kind. */
  function OwnRound(step: EngineStep): seq<Dispatch> {
    if step.executed.None? then []
    else
      match step.executed.value.dispatch
      case ConfirmedCandle(_) => []
      case StreamStateChanged => []
      case own => [own]
  }

  predicate ReadyAndClear(s: EngineState) { s.tracker.mandatory <= s.tracker.ready && !s.reconcileRequested }

  /** An arrival while the streams are ready and the latch is clear is one executed
      round; while they are not it is none, and nothing else starts such a round. */
  lemma ArrivalIsRound(s: EngineState, input: Input)
    requires Offered(s, input)
    ensures OwnRound(TakeInput(s, input)) == if ReadyAndClear(s) then Asks(input) else []
  {
    if input.HealthArrived? && input.first.Some? {
      HandleKeepsStrategies(s, Drained(input.first.value, input.queued));
    }
  }

  function OwnRounds(s: EngineState, inputs: seq<Input>): seq<Dispatch>
    requires IsRun(s, inputs)
  {
    if inputs == [] then [] else OwnRounds(s, inputs[..|inputs| - 1]) + OwnRound(Play(s, inputs).value)
  }

  /** What was asked for in iterations that began ready and clear. */
  function AskedWhileReady(s: EngineState, inputs: seq<Input>): seq<Dispatch>
    requires IsRun(s, inputs)
  {
    if inputs == [] then []
    else
      var front := inputs[..|inputs| - 1];
      AskedWhileReady(s, front)
      + (if ReadyAndClear(Play(s, front).value.state) then Asks(inputs[|inputs| - 1]) else [])
  }

  /** Over every run: each event asked for while ready is executed once, in order,
      and no such round has another cause. */
  lemma {:induction false} EveryArrivalRuns(s: EngineState, inputs: seq<Input>)
    requires IsRun(s, inputs)
    ensures OwnRounds(s, inputs) == AskedWhileReady(s, inputs)
  {
    if inputs != [] {
      var front := inputs[..|inputs| - 1];
      EveryArrivalRuns(s, front);
      ArrivalIsRound(Play(s, front).value.state, inputs[|inputs| - 1]);
    }
  }

  /** The stream-state rounds: after a reported server-time failure while ready and
      clear; at a timer tick with the latch set and the streams ready; after health
      events that end no stream task, fail no start and leave the latch set and the
      streams ready. */
  lemma ReconciliationsAreDue(s: EngineState, input: Input)
    requires Offered(s, input)
    ensures (TakeInput(s, input).executed.Some? && TakeInput(s, input).executed.value.dispatch == StreamStateChanged)
       <==> || (input.ServerTimeFailed? && input.reported && ReadyAndClear(s))
            || (input.TimerTicked? && s.tracker.mandatory <= s.tracker.ready && s.reconcileRequested)
            || (input.HealthArrived? && input.first.Some? && !Breaks(s, input)
                && var after := HandleEvents(s, Drained(input.first.value, input.queued));
                   after.reconcileRequested && after.tracker.mandatory <= after.tracker.ready)
  {
    if input.HealthArrived? && input.first.Some? {
      HandleKeepsStrategies(s, Drained(input.first.value, input.queued));
      FailsStartIff(HandleEvents(s, Drained(input.first.value, input.queued)).tracker);
    }
  }

  /** An executed round moves the counters as its dispatch over this input's attempts
      does, and its record tells whether every tick succeeded; without a round the
      counters rest. The strategies and their timeout never change. */
  lemma RoundsMoveCounters(s: EngineState, input: Input)
    requires Offered(s, input)
    ensures TakeInput(s, input).state.strategies == s.strategies && TakeInput(s, input).state.timeout == s.timeout
    ensures var step, attempts := TakeInput(s, input), Attempts(input, s);
            match step.executed
            case None => step.state.counts == s.counts
            case Some(executed) =>
              && step.state.counts
                 == Round(s.strategies, s.counts, executed.dispatch, attempts, s.timeout, |s.strategies|).counts
              && (executed.allSucceeded <==>
                    forall i | 0 <= i < |attempts| :: attempts[i].tick.takes <= s.timeout && attempts[i].tick.succeeds)
  {
    if input.HealthArrived? && input.first.Some? {
      HandleKeepsStrategies(s, Drained(input.first.value, input.queued));
    }
  }

  // ---------- when a run goes on ----------

  ghost predicate EndsTask(e: HealthEvent) { e.kind == StreamTaskPanicked || e.kind == StreamTaskExitedUnexpectedly }

  /** A mandatory stream has failed before it was ever ready. */
  ghost predicate FailsStart(t: TrackerState) {
    exists stream :: stream in t.mandatory && stream in t.failedBeforeReady && stream !in t.ready
  }

  lemma FailsStartIff(t: TrackerState)
    ensures FailsStart(t) <==> StartupReadinessError(t).Some?
  {
    if FailedMandatory(t) != {} {
      var stream := Ordered.SomeMember(FailedMandatory(t));
    }
    if FailsStart(t) {
      var stream :| stream in t.mandatory && stream in t.failedBeforeReady && stream !in t.ready;
      assert stream in FailedMandatory(t);
    }
  }

  /** The inputs that end the loop by themselves. */
  ghost predicate Breaks(s: EngineState, input: Input) {
    match input
    case HeartbeatFailed(_) => true
    case ServerTimeFailed(reported, _) => !reported
    case CtrlC => true
    case DiagnosticStarted => false
    case DiagnosticDone(safe) => !safe
    case PrivateArrived(event, _) => event == None
    case TimerTicked(_) => false
    case HealthArrived(None, _, _) => true
    case HealthArrived(Some(first), queued, _) =>
      var events := Drained(first, queued);
      (exists i :: 0 <= i < |events| && EndsTask(events[i])) || FailsStart(HandleEvents(s, events).tracker)
    case PendingReady(_) => false
    case PublicArrived(event, _) => event == None
    case Level2Changed(isOpen) => !isOpen
  }

  /** The round of this step reached a strategy that did not get through. */
  ghost predicate RoundFails(s: EngineState, input: Input)
    requires Offered(s, input) && Balanced(s)
  {
    TakeInput(s, input).executed.Some?
    && !AllSurvive(s.strategies, s.counts, TakeInput(s, input).executed.value.dispatch, Attempts(input, s), s.timeout,
                   |s.strategies|)
  }

  lemma DispatchGoesOn(s: EngineState, dispatch: Dispatch, attempts: seq<Attempt>)
    requires Balanced(s) && |attempts| == |s.strategies|
    ensures DispatchStep(s, dispatch, attempts).decision == Continue <==>
              (DispatchStep(s, dispatch, attempts).executed.Some? ==>
                 AllSurvive(s.strategies, s.counts, dispatch, attempts, s.timeout, |s.strategies|))
  {
    RoundCompletesIff(s.strategies, s.counts, dispatch, attempts, s.timeout, |s.strategies|);
  }

  lemma BreaksHealth(s: EngineState, first: HealthEvent, queued: seq<HealthEvent>)
    ensures var events := Drained(first, queued);
            HealthFatal(s, events) <==>
              (exists i :: 0 <= i < |events| && EndsTask(events[i])) || FailsStart(HandleEvents(s, events).tracker)
  {
    var events := Drained(first, queued);
    FailsStartIff(HandleEvents(s, events).tracker);
    assert forall i | 0 <= i < |events| :: EndsTask(events[i]) <==> IsTaskLifecycleError(events[i].kind);
  }

  /** The loop goes on exactly when the input does not end it and every strategy
      reached by its round gets through. */
  lemma GoesOnIff(s: EngineState, input: Input)
    requires Offered(s, input) && Balanced(s)
    ensures TakeInput(s, input).decision == Continue <==> !Breaks(s, input) && !RoundFails(s, input)
  {
    var attempts := Attempts(input, s);
    match input {
      case ServerTimeFailed(_, _) => DispatchGoesOn(s, StreamStateChanged, attempts);
      case PrivateArrived(event, _) =>
        if event.Some? { DispatchGoesOn(s, PrivateEvent(event.value), attempts); }
      case TimerTicked(_) =>
        DispatchGoesOn(s.(reconcileRequested := false), StreamStateChanged, attempts);
        DispatchGoesOn(s, ReconcileTimer, attempts);
      case HealthArrived(first, queued, _) =>
        if first.Some? {
          BreaksHealth(s, first.value, queued);
          HandleKeepsStrategies(s, Drained(first.value, queued));
          var handled := HandleEvents(s, Drained(first.value, queued));
          DispatchGoesOn(handled.(reconcileRequested := false), StreamStateChanged, attempts);
        }
      case PendingReady(_) =>
        var id := FirstPending(s);
        DispatchGoesOn(s.(pending := s.pending - {id}), ConfirmedCandle(id), attempts);
      case PublicArrived(event, _) =>
        if event.Some? {
          DispatchGoesOn(s, ConfirmedCandle(event.value.instrumentId), attempts);
          DispatchGoesOn(s, InstrumentUpdated(event.value.instrumentId), attempts);
        }
      case _ =>
    }
  }

  /** Each input that ends the loop does so with its own decision. */
  lemma BreakSaysWhy(s: EngineState, input: Input)
    requires Offered(s, input) && Breaks(s, input)
    ensures TakeInput(s, input).executed == None
    ensures TakeInput(s, input).decision
         == if input == HeartbeatFailed(true) then Fatal(HeartbeatFailure)
            else if input == HeartbeatFailed(false) || input == Level2Changed(false) then ErrorReturn
            else if input == CtrlC then OperatorShutdown
            else Fatal(FatalRuntimeError)
  {
    if input.HealthArrived? && input.first.Some? {
      BreaksHealth(s, input.first.value, input.queued);
    }
  }

  /** A round that fails ends the loop by the first strategy that did not get
      through: its third failure in a row, or a recovery that failed. */
  lemma RoundFailureSaysWhy(s: EngineState, input: Input, i: nat)
    requires Offered(s, input) && Balanced(s) && TakeInput(s, input).executed.Some? && i < |s.strategies|
    requires var dispatch := TakeInput(s, input).executed.value.dispatch;
             && AllSurvive(s.strategies, s.counts, dispatch, Attempts(input, s), s.timeout, i)
             && Reaches(dispatch, s.strategies[i]) && !Survives(s.counts[i], Attempts(input, s)[i], s.timeout)
    ensures TakeInput(s, input).decision == Fatal(if s.counts[i] >= 2 then StrategyFailure else FatalRuntimeError)
  {
    var attempts, dispatch := Attempts(input, s), TakeInput(s, input).executed.value.dispatch;
    RoundEndsAtFirst(s.strategies, s.counts, dispatch, attempts, s.timeout, |s.strategies|, i);
    DecisionOfRound(s, input);
  }

  lemma DecisionOfRound(s: EngineState, input: Input)
    requires Offered(s, input) && TakeInput(s, input).executed.Some?
    ensures TakeInput(s, input).decision
         == AfterRound(Round(s.strategies, s.counts, TakeInput(s, input).executed.value.dispatch, Attempts(input, s),
                             s.timeout, |s.strategies|).ending)
  {
    if input.HealthArrived? && input.first.Some? {
      HandleKeepsStrategies(s, Drained(input.first.value, input.queued));
    }
  }

  /** Over every run: no input before the last one ends the loop, and every round
      before the last one was got through by all it reached. */
  lemma RunGoesOn(s: EngineState, inputs: seq<Input>, k: nat)
    requires IsRun(s, inputs) && Balanced(s) && k + 1 < |inputs|
    ensures IsRun(s, inputs[..k]) && Offered(StateAt(s, inputs, k), inputs[k]) && Balanced(StateAt(s, inputs, k))
    ensures !Breaks(StateAt(s, inputs, k), inputs[k]) && !RoundFails(StateAt(s, inputs, k), inputs[k])
  {
    PrefixIsRun(s, inputs, k);
    PrefixIsRun(s, inputs, k + 1);
    RunKeepsBalance(s, inputs[..k]);
    GoesOnIff(StateAt(s, inputs, k), inputs[k]);
  }

  // ---------- what the loop remembers ----------

  /** The health events an input brings: the first and up to 64 more in the queue. */
  function Health(input: Input): seq<HealthEvent> {
    match input
    case HealthArrived(Some(first), queued, _) => [first] + (if |queued| <= 64 then queued else queued[..64])
    case _ => []
  }

  function HealthHistory(inputs: seq<Input>): seq<HealthEvent> {
    if inputs == [] then [] else HealthHistory(inputs[..|inputs| - 1]) + Health(inputs[|inputs| - 1])
  }

  lemma {:induction false} HandledTracker(
    s: EngineState, streams: set<Stream>, past: seq<HealthEvent>, events: seq<HealthEvent>)
    requires s.tracker == AfterEvents(streams, past)
    ensures HandleEvents(s, events).tracker == AfterEvents(streams, past + events)
  {
    if events == [] {
      assert past + events == past;
    } else {
      var front := events[..|events| - 1];
      HandledTracker(s, streams, past, front);
      assert (past + events)[..|past + events| - 1] == past + front;
    }
  }

  lemma StepTracker(s: EngineState, input: Input)
    requires Offered(s, input)
    ensures TakeInput(s, input).state.tracker == HandleEvents(s, Health(input)).tracker
  {
    if input.HealthArrived? && input.first.Some? {
      assert Health(input) == Drained(input.first.value, input.queued);
      HandleKeepsStrategies(s, Health(input));
    }
  }

  /** Over every run the readiness sets are those of all health events received. */
  lemma {:induction false} TrackerIsHistory(
    streams: set<Stream>, strategies: seq<string>, timeout: nat, inputs: seq<Input>)
    requires IsRun(FreshEngine(streams, strategies, timeout), inputs)
    ensures Play(FreshEngine(streams, strategies, timeout), inputs).value.state.tracker
         == AfterEvents(streams, HealthHistory(inputs))
  {
    if inputs != [] {
      var s, front, input := FreshEngine(streams, strategies, timeout), inputs[..|inputs| - 1], inputs[|inputs| - 1];
      TrackerIsHistory(streams, strategies, timeout, front);
      StepTracker(Play(s, front).value.state, input);
      HandledTracker(Play(s, front).value.state, streams, HealthHistory(front), Health(input));
    }
  }

  /** An acknowledgement, or the loss of a subscribed stream. */
  ghost predicate SetsLatch(e: HealthEvent) {
    e.kind == SubscriptionAckSucceeded || e.kind == StreamDisconnectedAfterSubscription
    || e.kind == StreamFailedAfterSubscription
  }

  lemma {:induction false} EventsSetLatch(s: EngineState, events: seq<HealthEvent>)
    ensures HandleEvents(s, events).reconcileRequested
       <==> s.reconcileRequested || exists i :: 0 <= i < |events| && SetsLatch(events[i])
  {
    if events != [] {
      var front := events[..|events| - 1];
      EventsSetLatch(s, front);
      assert forall i | 0 <= i < |front| :: front[i] == events[i];
    }
  }

  /** The latch moves only by health events and by the reconciliation it asks for:
      that one clears it when every strategy succeeded and sets it otherwise. */
  lemma LatchMoves(s: EngineState, input: Input)
    requires Offered(s, input) && Balanced(s) && TakeInput(s, input).decision == Continue
    ensures var step, events := TakeInput(s, input), Health(input);
            if step.executed.Some? && step.executed.value.dispatch == StreamStateChanged && !input.ServerTimeFailed?
            then step.state.reconcileRequested <==> !step.executed.value.allSucceeded
            else step.state.reconcileRequested
                 <==> s.reconcileRequested || exists i :: 0 <= i < |events| && SetsLatch(events[i])
  {
    EventsSetLatch(s, Health(input));
    if input.TimerTicked? && s.reconcileRequested && AllReady(s.tracker) {
      LatchTellsTheRound(s, input.attempts);
    } else if input.HealthArrived? && input.first.Some? {
      assert Health(input) == Drained(input.first.value, input.queued);
      HandleKeepsStrategies(s, Health(input));
      var handled := HandleEvents(s, Health(input));
      if handled.reconcileRequested && AllReady(handled.tracker) {
        LatchTellsTheRound(handled, input.attempts);
      }
    }
  }

  /** An instrument that is not traded never has a candle waiting. */
  lemma {:induction false} OnlyTradedWait(s: EngineState, inputs: seq<Input>, id: string)
    requires IsRun(s, inputs) && Balanced(s) && id !in s.strategies && id !in s.pending
    ensures id !in Play(s, inputs).value.state.pending
  {
    if inputs != [] {
      var front, input := inputs[..|inputs| - 1], inputs[|inputs| - 1];
      OnlyTradedWait(s, front, id);
      RunKeepsBalance(s, front);
      if input.HealthArrived? && input.first.Some? {
        HandleKeepsStrategies(Play(s, front).value.state, Drained(input.first.value, input.queued));
      }
    }
  }
}
