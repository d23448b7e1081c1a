/** The runtime loop: one input per `select!` arm, one decision per input.
    Strategy work, channel contents and clocks are inputs. */
module TradingEngine {
  import opened Wrappers
  import opened Ordered
  import opened HealthTracker
  import opened TickFailures
  import opened StrategyDispatch

  const HEALTH_CHANNEL_CAPACITY: nat := 64

  datatype Reason = HeartbeatFailure | StrategyFailure | FatalRuntimeError

  /** `ErrorReturn` leaves the loop with an error without the fail-closed path. */
  datatype Decision = Continue | OperatorShutdown | Fatal(reason: Reason) | ErrorReturn

  datatype PublicEvent = Candle(instrumentId: string, barTs: int) | InstrumentChange(instrumentId: string)

  /** What one iteration receives; `attempts` are the strategies' answers to the
      round it may start. A closed channel delivers `None`. */
  datatype Input =
    | HeartbeatFailed(reported: bool)
    | ServerTimeFailed(reported: bool, attempts: seq<Attempt>)
    | CtrlC
    | DiagnosticStarted
    | DiagnosticDone(safe: bool)
    | PrivateArrived(privateEvent: Option<Option<string>>, attempts: seq<Attempt>)
    | TimerTicked(attempts: seq<Attempt>)
    | HealthArrived(first: Option<HealthEvent>, queued: seq<HealthEvent>, attempts: seq<Attempt>)
    | PendingReady(attempts: seq<Attempt>)
    | PublicArrived(event: Option<PublicEvent>, attempts: seq<Attempt>)
    | Level2Changed(open: bool)

  datatype EngineState = EngineState(
    tracker: TrackerState, reconcileRequested: bool, pending: map<string, int>,
    strategies: seq<string>, counts: seq<nat>, timeout: nat)

  /** A dispatch round that was executed, and whether every strategy succeeded. */
  datatype Executed = Executed(dispatch: Dispatch, allSucceeded: bool)

  datatype EngineStep = EngineStep(state: EngineState, decision: Decision, executed: Option<Executed>)

  function FreshEngine(streams: set<Stream>, strategies: seq<string>, timeout: nat): EngineState {
    EngineState(NewTracker(streams), false, map[], strategies, seq(|strategies|, _ => 0), timeout)
  }

  predicate DispatchReady(s: EngineState) { AllReady(s.tracker) && !s.reconcileRequested }

  function RoundOf(s: EngineState, dispatch: Dispatch, attempts: seq<Attempt>): RoundState
    requires |attempts| == |s.strategies|
  {
    Round(s.strategies, s.counts, dispatch, attempts, s.timeout, |s.strategies|)
  }

  function AfterRound(ending: Ending): Decision {
    match ending
    case Completed => Continue
    case Stopped(_) => Fatal(StrategyFailure)
    case Aborted(_) => Fatal(FatalRuntimeError)
  }

  function DispatchStep(s: EngineState, dispatch: Dispatch, attempts: seq<Attempt>): EngineStep
    requires |attempts| == |s.strategies|
  {
    if !DispatchReady(s) then EngineStep(s, Continue, None)
    else
      var round := RoundOf(s, dispatch, attempts);
      EngineStep(s.(counts := round.counts), AfterRound(round.ending),
                 Some(Executed(dispatch, EverySucceeds(attempts, s.timeout))))
  }

  /** Clears the latch, reconciles every strategy, and sets it again on failure. */
  function ReconcileStep(s: EngineState, attempts: seq<Attempt>): EngineStep
    requires |attempts| == |s.strategies|
  {
    var step := DispatchStep(s.(reconcileRequested := false), StreamStateChanged, attempts);
    if step.decision == Continue && AnyFailure(step.state.counts) then
      step.(state := step.state.(reconcileRequested := true))
    else step
  }

  predicate RequestsReconcile(kind: EventKind) {
    kind.SubscriptionAckSucceeded? || kind.StreamDisconnectedAfterSubscription? || kind.StreamFailedAfterSubscription?
  }

  function HandleEvent(s: EngineState, e: HealthEvent): EngineState {
    s.(reconcileRequested := s.reconcileRequested || RequestsReconcile(e.kind), tracker := Recorded(s.tracker, e))
  }

  function HandleEvents(s: EngineState, events: seq<HealthEvent>): EngineState {
    if events == [] then s
    else HandleEvent(HandleEvents(s, events[..|events| - 1]), events[|events| - 1])
  }

  /** The first event and at most a channel's worth of queued ones. */
  function Drained(first: HealthEvent, queued: seq<HealthEvent>): seq<HealthEvent> {
    [first] + (if |queued| <= HEALTH_CHANNEL_CAPACITY then queued else queued[..HEALTH_CHANNEL_CAPACITY])
  }

  predicate HealthFatal(s: EngineState, events: seq<HealthEvent>) {
    (exists i | 0 <= i < |events| :: IsTaskLifecycleError(events[i].kind))
    || StartupReadinessError(HandleEvents(s, events).tracker).Some?
  }

  function HealthStep(s: EngineState, first: HealthEvent, queued: seq<HealthEvent>, attempts: seq<Attempt>): EngineStep
    requires |attempts| == |s.strategies|
  {
    HandleKeepsStrategies(s, Drained(first, queued));
    var handled := HandleEvents(s, Drained(first, queued));
    if HealthFatal(s, Drained(first, queued)) then EngineStep(handled, Fatal(FatalRuntimeError), None)
    else if handled.reconcileRequested && AllReady(handled.tracker) then ReconcileStep(handled, attempts)
    else EngineStep(handled, Continue, None)
  }

  lemma {:induction false} HandleKeepsStrategies(s: EngineState, events: seq<HealthEvent>)
    ensures HandleEvents(s, events)
         == s.(tracker := HandleEvents(s, events).tracker, reconcileRequested := HandleEvents(s, events).reconcileRequested)
  {
    if events != [] {
      HandleKeepsStrategies(s, events[..|events| - 1]);
    }
  }

  /** A candle that cannot be dispatched yet waits, the newest bar per instrument. */
  function Deferred(s: EngineState, id: string, barTs: int): EngineState {
    if id !in s.strategies || (id in s.pending && barTs < s.pending[id]) then s
    else s.(pending := s.pending[id := barTs])
  }

  function PublicStep(s: EngineState, event: PublicEvent, attempts: seq<Attempt>): EngineStep
    requires |attempts| == |s.strategies|
  {
    match event
    case Candle(id, barTs) =>
      if DispatchReady(s) then DispatchStep(s, ConfirmedCandle(id), attempts)
      else EngineStep(Deferred(s, id, barTs), Continue, None)
    case InstrumentChange(id) => DispatchStep(s, InstrumentUpdated(id), attempts)
  }

  function Attempts(input: Input, s: EngineState): seq<Attempt> {
    if input.HeartbeatFailed? || input.CtrlC? || input.DiagnosticStarted? || input.DiagnosticDone? || input.Level2Changed?
    then seq(|s.strategies|, _ => Attempt(Work(0, true), Work(0, true)))
    else input.attempts
  }

  predicate PendingCandleReady(s: EngineState) { DispatchReady(s) && s.pending != map[] }

  /** The pending map is ordered by instrument. */
  function FirstPending(s: EngineState): (id: string)
    requires s.pending != map[]
    ensures id in s.pending
  {
    FirstKey(s.pending.Keys)
  }

  /** The arm can be taken: the pending-candle arm has its guard, the two arms
      polled after it wait while that guard holds, and the round inputs speak for
      every strategy. */
  predicate Offered(s: EngineState, input: Input) {
    && |Attempts(input, s)| == |s.strategies|
    && (input.PendingReady? ==> PendingCandleReady(s))
    && (input.PublicArrived? || input.Level2Changed? ==> !PendingCandleReady(s))
  }

  function TakeInput(s: EngineState, input: Input): EngineStep
    requires Offered(s, input)
  {
    match input
    case HeartbeatFailed(reported) =>
      EngineStep(s, if reported then Fatal(HeartbeatFailure) else ErrorReturn, None)
    case ServerTimeFailed(reported, attempts) =>
      if reported then DispatchStep(s, StreamStateChanged, attempts)
      else EngineStep(s, Fatal(FatalRuntimeError), None)
    case CtrlC => EngineStep(s, OperatorShutdown, None)
    case DiagnosticStarted => EngineStep(s, Continue, None)
    case DiagnosticDone(safe) => EngineStep(s, if safe then Continue else Fatal(FatalRuntimeError), None)
    case PrivateArrived(event, attempts) =>
      (match event
       case None => EngineStep(s, Fatal(FatalRuntimeError), None)
       case Some(instrument) => DispatchStep(s, PrivateEvent(instrument), attempts))
    case TimerTicked(attempts) =>
      if s.reconcileRequested && AllReady(s.tracker) then ReconcileStep(s, attempts)
      else DispatchStep(s, ReconcileTimer, attempts)
    case HealthArrived(first, queued, attempts) =>
      (match first
       case None => EngineStep(s, Fatal(FatalRuntimeError), None)
       case Some(e) => HealthStep(s, e, queued, attempts))
    case PendingReady(attempts) =>
      var id := FirstPending(s);
      PublicStep(s.(pending := s.pending - {id}), Candle(id, s.pending[id]), attempts)
    case PublicArrived(event, attempts) =>
      (match event
       case None => EngineStep(s, Fatal(FatalRuntimeError), None)
       case Some(e) => PublicStep(s, e, attempts))
    case Level2Changed(open) => EngineStep(s, if open then Continue else ErrorReturn, None)
  }

  class TradingEngine {
    const strategies: seq<string>
    const tickTimeoutMs: nat
    const tracker: WebsocketHealthTracker
    const failures: StrategyTickFailureTracker
    var websocketReconcileRequested: bool
    var pendingConfirmedCandles: map<string, int>

    ghost function State(): EngineState
      reads this, tracker, failures
    {
      EngineState(tracker.State(), websocketReconcileRequested, pendingConfirmedCandles,
                  strategies, failures.consecutiveFailures, tickTimeoutMs)
    }

    constructor (streams: set<Stream>, strategies: seq<string>, tickTimeoutMs: nat)
      ensures State() == FreshEngine(streams, strategies, tickTimeoutMs)
      ensures fresh(tracker) && fresh(failures)
    {
      this.strategies, this.tickTimeoutMs := strategies, tickTimeoutMs;
      tracker := new WebsocketHealthTracker(streams);
      failures := new StrategyTickFailureTracker(|strategies|);
      websocketReconcileRequested, pendingConfirmedCandles := false, map[];
    }

    method WebsocketStrategyDispatchReady() returns (ready: bool)
      ensures ready == DispatchReady(State())
    {
      var streamsReady := tracker.AllMandatoryStreamsReady();
      ready := streamsReady && !websocketReconcileRequested;
    }

    method StrategyDispatchDecision(dispatch: Dispatch, attempts: seq<Attempt>)
      returns (decision: Decision, ghost executed: Option<Executed>)
      requires |attempts| == |strategies|
      modifies failures
      ensures EngineStep(State(), decision, executed) == DispatchStep(old(State()), dispatch, attempts)
    {
      executed := None;
      var ready := WebsocketStrategyDispatchReady();
      if !ready {
        return Continue, executed;
      }
      var ending, _ := ExecuteStrategyDispatch(strategies, failures, dispatch, attempts, tickTimeoutMs);
      executed := Some(Executed(dispatch, EverySucceeds(attempts, tickTimeoutMs)));
      decision := AfterRound(ending);
    }

    method WebsocketReconciliationDecision(attempts: seq<Attempt>)
      returns (decision: Decision, ghost executed: Option<Executed>)
      requires |attempts| == |strategies|
      modifies this, failures
      ensures EngineStep(State(), decision, executed) == ReconcileStep(old(State()), attempts)
    {
      websocketReconcileRequested := false;
      decision, executed := StrategyDispatchDecision(StreamStateChanged, attempts);
      var failed := failures.HasFailures();
      if decision == Continue && failed {
        websocketReconcileRequested := true;
      }
    }

    method HandleWebsocketHealthEvent(e: HealthEvent)
      modifies this, tracker
      ensures State() == HandleEvent(old(State()), e)
    {
      match e.kind {
        case SubscriptionAckSucceeded | StreamDisconnectedAfterSubscription | StreamFailedAfterSubscription =>
          websocketReconcileRequested := true;
        case _ =>
      }
      tracker.Record(e);
    }

    /** Drains the queued events before judging readiness. */
    method ProcessWebsocketHealthEvents(first: HealthEvent, queued: seq<HealthEvent>) returns (fatal: bool)
      modifies this, tracker
      ensures State() == HandleEvents(old(State()), Drained(first, queued))
      ensures fatal == HealthFatal(old(State()), Drained(first, queued))
    {
      ghost var events := Drained(first, queued);
      var lifecycleError := IsTaskLifecycleError(first.kind);
      HandleWebsocketHealthEvent(first);
      assert events[..1] == [first];
      var capacity := if |queued| <= HEALTH_CHANNEL_CAPACITY then |queued| else HEALTH_CHANNEL_CAPACITY;
      for i := 0 to capacity
        invariant State() == HandleEvents(old(State()), events[..i + 1])
        invariant lifecycleError <==> exists k | 0 <= k < i + 1 :: IsTaskLifecycleError(events[k].kind)
      {
        assert events[..i + 2][..|events[..i + 2]| - 1] == events[..i + 1];
        assert events[i + 1] == queued[i];
        lifecycleError := lifecycleError || IsTaskLifecycleError(queued[i].kind);
        HandleWebsocketHealthEvent(queued[i]);
      }
      assert events[..capacity + 1] == events;
      var readinessError := tracker.ReadinessError();
      fatal := lifecycleError || readinessError.Some?;
    }

    method WebsocketHealthDecision(first: Option<HealthEvent>, queued: seq<HealthEvent>, attempts: seq<Attempt>)
      returns (decision: Decision, ghost executed: Option<Executed>)
      requires |attempts| == |strategies|
      modifies this, tracker, failures
      ensures EngineStep(State(), decision, executed)
           == if first == None then EngineStep(old(State()), Fatal(FatalRuntimeError), None)
              else HealthStep(old(State()), first.value, queued, attempts)
    {
      executed := None;
      if first == None {
        return Fatal(FatalRuntimeError), executed;
      }
      HandleKeepsStrategies(State(), Drained(first.value, queued));
      var fatal := ProcessWebsocketHealthEvents(first.value, queued);
      if fatal {
        return Fatal(FatalRuntimeError), executed;
      }
      var streamsReady := tracker.AllMandatoryStreamsReady();
      if websocketReconcileRequested && streamsReady {
        decision, executed := WebsocketReconciliationDecision(attempts);
        return;
      }
      decision := Continue;
    }

    method ReconciliationTimerDecision(attempts: seq<Attempt>)
      returns (decision: Decision, ghost executed: Option<Executed>)
      requires |attempts| == |strategies|
      modifies this, failures
      ensures EngineStep(State(), decision, executed) == TakeInput(old(State()), TimerTicked(attempts))
    {
      var streamsReady := tracker.AllMandatoryStreamsReady();
      if websocketReconcileRequested && streamsReady {
        decision, executed := WebsocketReconciliationDecision(attempts);
        return;
      }
      decision, executed := StrategyDispatchDecision(ReconcileTimer, attempts);
    }

    method DeferConfirmedCandle(id: string, barTs: int)
      modifies this
      ensures State() == Deferred(old(State()), id, barTs)
    {
      if id !in strategies {
        return;
      }
      if id !in pendingConfirmedCandles {
        pendingConfirmedCandles := pendingConfirmedCandles[id := barTs];
      } else if barTs >= pendingConfirmedCandles[id] {
        pendingConfirmedCandles := pendingConfirmedCandles[id := barTs];
      }
    }

    method PublicRuntimeEventDecision(event: PublicEvent, attempts: seq<Attempt>)
      returns (decision: Decision, ghost executed: Option<Executed>)
      requires |attempts| == |strategies|
      modifies this, failures
      ensures EngineStep(State(), decision, executed) == PublicStep(old(State()), event, attempts)
    {
      executed := None;
      var ready := WebsocketStrategyDispatchReady();
      match event {
        case Candle(id, barTs) =>
          if !ready {
            DeferConfirmedCandle(id, barTs);
            return Continue, executed;
          }
          decision, executed := StrategyDispatchDecision(ConfirmedCandle(id), attempts);
        case InstrumentChange(id) =>
          decision, executed := StrategyDispatchDecision(InstrumentUpdated(id), attempts);
      }
    }

    method PendingConfirmedCandleDecision(attempts: seq<Attempt>)
      returns (decision: Decision, ghost executed: Option<Executed>)
      requires Offered(State(), PendingReady(attempts))
      modifies this, failures
      ensures EngineStep(State(), decision, executed) == TakeInput(old(State()), PendingReady(attempts))
    {
      var id := FirstKey(pendingConfirmedCandles.Keys);
      var barTs := pendingConfirmedCandles[id];
      pendingConfirmedCandles := pendingConfirmedCandles - {id};
      decision, executed := PublicRuntimeEventDecision(Candle(id, barTs), attempts);
    }

    /** One iteration of the loop. */
    method Iterate(input: Input) returns (decision: Decision, ghost executed: Option<Executed>)
      requires Offered(State(), input)
      modifies this, tracker, failures
      ensures EngineStep(State(), decision, executed) == TakeInput(old(State()), input)
    {
      executed := None;
      decision := Continue;
      match input {
        case HeartbeatFailed(reported) =>
          decision := if reported then Fatal(HeartbeatFailure) else ErrorReturn;
        case ServerTimeFailed(reported, attempts) =>
          if reported {
            decision, executed := StrategyDispatchDecision(StreamStateChanged, attempts);
          } else {
            decision := Fatal(FatalRuntimeError);
          }
        case CtrlC => decision := OperatorShutdown;
        case DiagnosticStarted =>
        case DiagnosticDone(safe) => if !safe { decision := Fatal(FatalRuntimeError); }
        case PrivateArrived(event, attempts) =>
          if event == None {
            decision := Fatal(FatalRuntimeError);
          } else {
            decision, executed := StrategyDispatchDecision(PrivateEvent(event.value), attempts);
          }
        case TimerTicked(attempts) => decision, executed := ReconciliationTimerDecision(attempts);
        case HealthArrived(first, queued, attempts) =>
          decision, executed := WebsocketHealthDecision(first, queued, attempts);
        case PendingReady(attempts) => decision, executed := PendingConfirmedCandleDecision(attempts);
        case PublicArrived(event, attempts) =>
          if event == None {
            decision := Fatal(FatalRuntimeError);
          } else {
            decision, executed := PublicRuntimeEventDecision(event.value, attempts);
          }
        case Level2Changed(open) => if !open { decision := ErrorReturn; }
      }
    }
  }
}
