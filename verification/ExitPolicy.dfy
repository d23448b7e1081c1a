/** How the engine leaves: what it remembers about the exchange's
    Cancel-All-After timer, and what that timer really does. */
module ExitPolicy {
  import opened Wrappers

  /** `heartbeat` and `refresher` are the task handles the engine holds. */
  datatype Engine = Engine(configured: bool, armed: bool, attempted: bool, heartbeat: bool, refresher: bool)

  function NewEngine(configured: bool): Engine { Engine(configured, false, false, false, false) }

  predicate MayBeArmed(e: Engine) { e.armed || e.attempted }

  /** What the environment answers to an operator shutdown. */
  datatype Shutdown = Shutdown(cleanups: seq<bool>, refresherStops: bool, heartbeatStops: bool, disarmAcked: bool)

  datatype Exit = Clean | Ambiguous | FailClosed(leftArmed: bool)

  function ArmAttempted(e: Engine, acked: bool): Engine { e.(attempted := true, armed := e.armed || acked) }

  function DisarmAttempted(e: Engine, acked: bool): Engine {
    if e.configured && !acked then e else e.(armed := false, attempted := false)
  }

  /** Every strategy cleaned up and every running task stopped. */
  predicate CleanedUp(e: Engine, x: Shutdown) {
    && (forall i | 0 <= i < |x.cleanups| :: x.cleanups[i])
    && (e.refresher ==> x.refresherStops)
    && (e.heartbeat ==> x.heartbeatStops)
  }

  predicate DisarmSent(e: Engine, x: Shutdown) { e.configured && CleanedUp(e, x) }

  function TasksStopped(e: Engine, x: Shutdown): Engine {
    e.(refresher := e.refresher && !x.refresherStops, heartbeat := e.heartbeat && !x.heartbeatStops)
  }

  function AfterShutdown(e: Engine, x: Shutdown): Engine {
    if CleanedUp(e, x) then DisarmAttempted(TasksStopped(e, x), x.disarmAcked) else TasksStopped(e, x)
  }

  function ShutdownExit(e: Engine, x: Shutdown): Exit {
    if CleanedUp(e, x) && (e.configured ==> x.disarmAcked) then Clean else Ambiguous
  }

  function AfterFatal(e: Engine): Engine { e.(heartbeat := false, refresher := false) }

  class TradingEngine {
    const configured: bool
    var cancelAllAfterArmed: bool
    var cancelAllAfterArmAttempted: bool
    var heartbeatHeld: bool
    var refresherHeld: bool

    ghost function State(): Engine
      reads this
    {
      Engine(configured, cancelAllAfterArmed, cancelAllAfterArmAttempted, heartbeatHeld, refresherHeld)
    }

    constructor (configured: bool)
      ensures State() == NewEngine(configured)
    {
      this.configured := configured;
      cancelAllAfterArmed, cancelAllAfterArmAttempted, heartbeatHeld, refresherHeld := false, false, false, false;
    }

    method RefreshCancelAllAfter(acked: bool) returns (ok: bool)
      modifies this
      ensures State() == ArmAttempted(old(State()), acked) && ok == acked
    {
      cancelAllAfterArmAttempted := true;
      if !acked {
        return false;
      }
      cancelAllAfterArmed := true;
      ok := true;
    }

    method DisarmCancelAllAfter(acked: bool) returns (ok: bool)
      modifies this
      ensures State() == DisarmAttempted(old(State()), acked)
      ensures ok == (configured ==> acked)
    {
      if !configured {
        cancelAllAfterArmed, cancelAllAfterArmAttempted := false, false;
        return true;
      }
      if !acked {
        return false;
      }
      cancelAllAfterArmed, cancelAllAfterArmAttempted := false, false;
      ok := true;
    }

    method StopServerTimeRefresher(stops: bool) returns (ok: bool)
      modifies this
      ensures State() == old(State()).(refresher := old(refresherHeld) && !stops)
      ensures ok == (old(refresherHeld) ==> stops)
    {
      if refresherHeld && !stops {
        return false;
      }
      refresherHeld := false;
      ok := true;
    }

    method StopCancelAllAfterHeartbeat(stops: bool) returns (ok: bool)
      modifies this
      ensures State() == old(State()).(heartbeat := old(heartbeatHeld) && !stops)
      ensures ok == (old(heartbeatHeld) ==> stops)
    {
      if heartbeatHeld && !stops {
        return false;
      }
      heartbeatHeld := false;
      ok := true;
    }

    /** Cleans up every strategy whatever happens to the others, stops both tasks,
        and disarms only when all of it went well. */
    method ShutdownForOperator(x: Shutdown) returns (exit: Exit, disarmSent: bool)
      modifies this
      ensures State() == AfterShutdown(old(State()), x)
      ensures exit == ShutdownExit(old(State()), x)
      ensures disarmSent == DisarmSent(old(State()), x)
    {
      var clean := true;
      for i := 0 to |x.cleanups|
        invariant State() == old(State())
        invariant clean <==> forall j | 0 <= j < i :: x.cleanups[j]
      {
        clean := clean && x.cleanups[i];
      }
      var refresherStopped := StopServerTimeRefresher(x.refresherStops);
      var heartbeatStopped := StopCancelAllAfterHeartbeat(x.heartbeatStops);
      clean := clean && refresherStopped && heartbeatStopped;
      disarmSent := false;
      if clean {
        disarmSent := configured;
        clean := DisarmCancelAllAfter(x.disarmAcked);
      }
      exit := if clean then Clean else Ambiguous;
    }

    /** Aborts both tasks and leaves the timer alone. */
    method FailClosedForFatalError() returns (exit: Exit)
      modifies this
      ensures State() == AfterFatal(old(State()))
      ensures exit == FailClosed(MayBeArmed(old(State())))
    {
      heartbeatHeld, refresherHeld := false, false;
      exit := FailClosed(cancelAllAfterArmed || cancelAllAfterArmAttempted);
    }
  }

  // ---------- the engine and the exchange ----------

  /** What becomes of a request that sets the timer: it lands while the sender
      waits, never, or possibly after the sender has given it up. */
  datatype Fate = Landed | Lost | Stray

  datatype Phase = Starting | Looping | Exited

  /** `timer` is the exchange's; `strays` are refreshes given up while they may
      still land; `beating` is the heartbeat task's own life. */
  datatype System = System(engine: Engine, phase: Phase, beating: bool, timer: bool, strays: nat)

  datatype Event =
    | Arm(fate: Fate, acked: bool)
    | HeartbeatStarted
    | RefresherStarted
    | LoopEntered
    | Beat(fate: Fate, acked: bool)
    | OperatorShutdown(inFlight: Option<Fate>, shutdown: Shutdown, disarmLands: bool)
    | FatalExit(inFlight: Option<Fate>)
    | ErrorExit(inFlight: Option<Fate>)
    | StrayLands
    | TimerFires

  function Start(configured: bool): System { System(NewEngine(configured), Starting, false, false, 0) }

  /** When an event can happen. An acknowledged request has landed, only a beating
      heartbeat has a refresh in flight, and an engine is configured exactly when
      it has a strategy to clean up. */
  predicate Possible(s: System, event: Event) {
    match event
    case Arm(fate, acked) =>
      s.phase == Starting && s.engine.configured && !s.engine.attempted && (acked ==> fate == Landed)
    case HeartbeatStarted => s.phase == Starting && s.engine.armed && !s.engine.heartbeat
    case RefresherStarted => s.phase == Starting && s.engine.heartbeat && !s.engine.refresher
    case LoopEntered => s.phase == Starting && (s.engine.configured ==> s.engine.refresher)
    case Beat(fate, acked) => s.beating && (acked ==> fate == Landed)
    case OperatorShutdown(inFlight, x, disarmLands) =>
      s.phase == Looping && (inFlight.Some? ==> s.beating) && (s.engine.configured <==> x.cleanups != [])
      && (x.disarmAcked ==> disarmLands) && (disarmLands ==> DisarmSent(s.engine, x))
    case FatalExit(inFlight) => s.phase != Exited && (inFlight.Some? ==> s.beating)
    case ErrorExit(inFlight) => s.phase == Looping && (inFlight.Some? ==> s.beating)
    case StrayLands => s.strays > 0
    case TimerFires => s.timer
  }

  function Fated(s: System, fate: Fate): System {
    match fate
    case Landed => s.(timer := true)
    case Lost => s
    case Stray => s.(strays := s.strays + 1)
  }

  /** The heartbeat ends, giving up a refresh in flight. */
  function GivenUp(s: System, inFlight: Option<Fate>): System {
    var given := if inFlight.Some? then Fated(s, inFlight.value) else s;
    given.(beating := false)
  }

  function Happen(s: System, event: Event): System
    requires Possible(s, event)
  {
    match event
    case Arm(fate, acked) => Fated(s, fate).(engine := ArmAttempted(s.engine, acked))
    case HeartbeatStarted => s.(engine := s.engine.(heartbeat := true), beating := true)
    case RefresherStarted => s.(engine := s.engine.(refresher := true))
    case LoopEntered => s.(phase := Looping)
    case Beat(fate, acked) => Fated(s, fate).(beating := acked)
    case OperatorShutdown(inFlight, x, disarmLands) =>
      var given := GivenUp(s, inFlight);
      given.(engine := AfterShutdown(s.engine, x), phase := Exited, timer := given.timer && !disarmLands)
    case FatalExit(inFlight) => GivenUp(s, inFlight).(engine := AfterFatal(s.engine), phase := Exited)
    case ErrorExit(inFlight) => GivenUp(s, inFlight).(engine := AfterFatal(s.engine), phase := Exited)
    case StrayLands => s.(timer := true, strays := s.strays - 1)
    case TimerFires => s.(timer := false)
  }

  function Play(s: System, events: seq<Event>): Option<System> {
    if events == [] then Some(s)
    else
      match Play(s, events[..|events| - 1])
      case None => None
      case Some(before) =>
        var event := events[|events| - 1];
        if Possible(before, event) then Some(Happen(before, event)) else None
  }

  ghost predicate IsRun(s: System, events: seq<Event>) { Play(s, events).Some? }

  // ---------- every run ----------

  /** An operator shutdown in which everything went well and the exchange
      confirmed the disarm. */
  ghost predicate CleanShutdown(event: Event) {
    && event.OperatorShutdown?
    && (forall i | 0 <= i < |event.shutdown.cleanups| :: event.shutdown.cleanups[i])
    && event.shutdown.refresherStops && event.shutdown.heartbeatStops && event.shutdown.disarmAcked
  }

  ghost predicate Attempts(events: seq<Event>) { exists i | 0 <= i < |events| :: events[i].Arm? }

  ghost predicate Disarms(events: seq<Event>) { exists i | 0 <= i < |events| :: CleanShutdown(events[i]) }

  /** A refresh of the heartbeat was given up: not acknowledged, or stopped under way. */
  ghost predicate GivesUp(events: seq<Event>) {
    exists i | 0 <= i < |events| :: GaveUpAt(events[i])
  }

  predicate GaveUpAt(event: Event) {
    match event
    case Beat(_, acked) => !acked
    case OperatorShutdown(inFlight, _, _) => inFlight.Some?
    case FatalExit(inFlight) => inFlight.Some?
    case ErrorExit(inFlight) => inFlight.Some?
    case _ => false
  }

  ghost predicate StrayAfterDisarm(events: seq<Event>) {
    exists i, j | 0 <= i < j < |events| :: CleanShutdown(events[i]) && events[j].StrayLands?
  }

  /** What the engine and the exchange have in common, given the configuration. */
  ghost predicate Consistent(s: System) {
    && (s.engine.armed ==> s.engine.attempted)
    && (s.beating ==> s.phase != Exited)
    && (s.phase != Exited && s.engine.refresher ==> s.engine.heartbeat)
    && (s.phase != Exited && s.engine.heartbeat ==> s.engine.armed)
    && (s.phase == Looping && s.engine.configured ==> s.engine.refresher)
    && (!s.engine.configured ==> !s.engine.attempted && !s.engine.heartbeat && !s.beating && !s.timer && s.strays == 0)
    && (s.phase != Exited && (s.timer || s.strays > 0) ==> s.engine.attempted)
    && (s.beating ==> s.engine.attempted)
  }

  ghost predicate Remembers(s: System, events: seq<Event>) {
    && (s.engine.attempted <==> Attempts(events) && !Disarms(events))
    && (Disarms(events) ==> s.phase == Exited)
    && (s.timer || s.strays > 0 ==> Attempts(events))
    && (s.timer && !s.engine.attempted ==> StrayAfterDisarm(events))
    && (s.strays > 0 && (s.engine.armed || Disarms(events)) ==> GivesUp(events))
    && (s.timer && Disarms(events) ==> GivesUp(events))
  }

  lemma StepStaysConsistent(s: System, event: Event)
    requires Consistent(s) && Possible(s, event)
    ensures Consistent(Happen(s, event)) && Happen(s, event).engine.configured == s.engine.configured
  {
  }

  lemma HistoryGrows(events: seq<Event>, event: Event)
    ensures Attempts(events + [event]) <==> Attempts(events) || event.Arm?
    ensures Disarms(events + [event]) <==> Disarms(events) || CleanShutdown(event)
    ensures GivesUp(events + [event]) <==> GivesUp(events) || GaveUpAt(event)
    ensures StrayAfterDisarm(events) ==> StrayAfterDisarm(events + [event])
    ensures Disarms(events) && event.StrayLands? ==> StrayAfterDisarm(events + [event])
  {
    var more := events + [event];
    assert forall i | 0 <= i < |events| :: more[i] == events[i];
    assert more[|events|] == event;
  }

  lemma StepRemembers(s: System, events: seq<Event>, event: Event)
    requires Consistent(s) && Remembers(s, events) && Possible(s, event)
    ensures Remembers(Happen(s, event), events + [event])
  {
    HistoryGrows(events, event);
  }

  lemma {:induction false} EveryRunRemembers(configured: bool, events: seq<Event>)
    requires IsRun(Start(configured), events)
    ensures var s := Play(Start(configured), events).value;
            Consistent(s) && Remembers(s, events) && s.engine.configured == configured
  {
    if events != [] {
      var front, event := events[..|events| - 1], events[|events| - 1];
      EveryRunRemembers(configured, front);
      var before := Play(Start(configured), front).value;
      StepStaysConsistent(before, event);
      StepRemembers(before, front, event);
      assert events == front + [event];
    }
  }

  /** The engine believes the timer may be armed exactly when it has tried to arm
      it and no clean shutdown has been confirmed since: no fatal exit, error exit
      or ambiguous shutdown makes it forget. */
  lemma FlagsAreHistory(configured: bool, events: seq<Event>)
    requires IsRun(Start(configured), events)
    ensures MayBeArmed(Play(Start(configured), events).value.engine) <==> Attempts(events) && !Disarms(events)
    ensures Attempts(events) ==> configured
  {
    EveryRunRemembers(configured, events);
    AttemptsAreConfigured(configured, events);
  }

  lemma {:induction false} AttemptsAreConfigured(configured: bool, events: seq<Event>)
    requires IsRun(Start(configured), events)
    ensures Attempts(events) ==> configured
  {
    if events != [] {
      var front := events[..|events| - 1];
      AttemptsAreConfigured(configured, front);
      EveryRunRemembers(configured, front);
      HistoryGrows(front, events[|events| - 1]);
      assert events == front + [events[|events| - 1]];
    }
  }

  /** The exchange's timer runs unnoticed only when a refresh that was given up
      has landed after a confirmed disarm. */
  lemma TimerIsFlagged(configured: bool, events: seq<Event>)
    requires IsRun(Start(configured), events) && Play(Start(configured), events).value.timer
    ensures MayBeArmed(Play(Start(configured), events).value.engine) || StrayAfterDisarm(events)
  {
    EveryRunRemembers(configured, events);
  }

  // ---------- what the engine can know ----------

  ghost predicate Truthful(s: System) { s.timer ==> MayBeArmed(s.engine) }

  /** What the engine and its heartbeat see of an event. They do not see whether an
      unacknowledged request lands, nor what the exchange's timer does. */
  datatype Sight =
    | SawArm(acked: bool)
    | SawHeartbeatStart
    | SawRefresherStart
    | SawLoop
    | SawBeat(acked: bool)
    | SawShutdown(busy: bool, shutdown: Shutdown)
    | SawFatal(busy: bool)
    | SawError(busy: bool)

  function SightOf(event: Event): seq<Sight> {
    match event
    case Arm(_, acked) => [SawArm(acked)]
    case HeartbeatStarted => [SawHeartbeatStart]
    case RefresherStarted => [SawRefresherStart]
    case LoopEntered => [SawLoop]
    case Beat(_, acked) => [SawBeat(acked)]
    case OperatorShutdown(inFlight, x, _) => [SawShutdown(inFlight.Some?, x)]
    case FatalExit(inFlight) => [SawFatal(inFlight.Some?)]
    case ErrorExit(inFlight) => [SawError(inFlight.Some?)]
    case StrayLands => []
    case TimerFires => []
  }

  function Seen(events: seq<Event>): seq<Sight> {
    if events == [] then [] else Seen(events[..|events| - 1]) + SightOf(events[|events| - 1])
  }

  ghost predicate SeenDisarm(seen: seq<Sight>) {
    exists i | 0 <= i < |seen| :: seen[i].SawShutdown? && CleanSight(seen[i].shutdown)
  }

  ghost predicate CleanSight(x: Shutdown) {
    (forall i | 0 <= i < |x.cleanups| :: x.cleanups[i]) && x.refresherStops && x.heartbeatStops && x.disarmAcked
  }

  predicate GaveUpSight(sight: Sight) {
    match sight
    case SawBeat(acked) => !acked
    case SawShutdown(busy, _) => busy
    case SawFatal(busy) => busy
    case SawError(busy) => busy
    case _ => false
  }

  ghost predicate SeenGivingUp(seen: seq<Sight>) {
    exists i | 0 <= i < |seen| :: GaveUpSight(seen[i])
  }

  lemma SightsExtend(seen: seq<Sight>, more: seq<Sight>)
    requires |more| <= 1
    ensures SeenDisarm(seen + more) <==>
              SeenDisarm(seen) || (more != [] && more[0].SawShutdown? && CleanSight(more[0].shutdown))
    ensures SeenGivingUp(seen + more) <==> SeenGivingUp(seen) || (more != [] && GaveUpSight(more[0]))
  {
    var all := seen + more;
    assert forall i | 0 <= i < |seen| :: all[i] == seen[i];
    assert more != [] ==> all[|seen|] == more[0];
  }

  lemma SightTells(event: Event)
    ensures CleanShutdown(event) <==>
              SightOf(event) != [] && SightOf(event)[0].SawShutdown? && CleanSight(SightOf(event)[0].shutdown)
    ensures GaveUpAt(event) <==> SightOf(event) != [] && GaveUpSight(SightOf(event)[0])
  {
  }

  lemma SeenOneMore(front: seq<Event>, event: Event)
    requires Disarms(front) <==> SeenDisarm(Seen(front))
    requires GivesUp(front) <==> SeenGivingUp(Seen(front))
    ensures Disarms(front + [event]) <==> SeenDisarm(Seen(front) + SightOf(event))
    ensures GivesUp(front + [event]) <==> SeenGivingUp(Seen(front) + SightOf(event))
  {
    HistoryGrows(front, event);
    SightTells(event);
    SightsExtend(Seen(front), SightOf(event));
  }

  /** Whether the disarm was confirmed, and whether a refresh was given up, can be
      told from what was seen. */
  lemma {:induction false} SeenTells(events: seq<Event>)
    ensures Disarms(events) <==> SeenDisarm(Seen(events))
    ensures GivesUp(events) <==> SeenGivingUp(Seen(events))
  {
    if events != [] {
      SeenTells(events[..|events| - 1]);
      SeenOneMore(events[..|events| - 1], events[|events| - 1]);
      assert events == events[..|events| - 1] + [events[|events| - 1]];
    }
  }

  /** The event as it would be if everything given up were still on its way. */
  function Worsened(event: Event): seq<Event> {
    match event
    case Arm(fate, acked) => [Arm(if acked then fate else Stray, acked)]
    case Beat(fate, acked) => [Beat(if acked then fate else Stray, acked)]
    case OperatorShutdown(inFlight, x, lands) => [OperatorShutdown(AllStray(inFlight), x, lands)]
    case FatalExit(inFlight) => [FatalExit(AllStray(inFlight))]
    case ErrorExit(inFlight) => [ErrorExit(AllStray(inFlight))]
    case StrayLands => []
    case TimerFires => []
    case _ => [event]
  }

  function AllStray(inFlight: Option<Fate>): Option<Fate> { if inFlight.Some? then Some(Stray) else None }

  function Worst(events: seq<Event>): seq<Event> {
    if events == [] then [] else Worst(events[..|events| - 1]) + Worsened(events[|events| - 1])
  }

  ghost predicate SameEngine(a: System, b: System) {
    a.engine == b.engine && a.phase == b.phase && a.beating == b.beating
  }

  lemma WorstStep(s: System, w: System, event: Event)
    requires SameEngine(s, w) && Possible(s, event) && Worsened(event) != []
    ensures Possible(w, Worsened(event)[0])
    ensures SameEngine(Happen(s, event), Happen(w, Worsened(event)[0]))
    ensures Happen(w, Worsened(event)[0]).strays >= w.strays + (if GaveUpAt(event) then 1 else 0)
    ensures SightOf(Worsened(event)[0]) == SightOf(event)
  {
    match event {
      case Arm(_, _) =>
      case Beat(_, _) =>
      case OperatorShutdown(_, _, _) =>
      case FatalExit(_) =>
      case ErrorExit(_) =>
      case _ =>
    }
  }

  lemma PlayOneMore(s: System, front: seq<Event>, event: Event)
    ensures IsRun(s, front + [event]) <==> IsRun(s, front) && Possible(Play(s, front).value, event)
    ensures IsRun(s, front + [event]) ==> Play(s, front + [event]).value == Happen(Play(s, front).value, event)
    ensures Seen(front + [event]) == Seen(front) + SightOf(event)
  {
    assert (front + [event])[..|front + [event]| - 1] == front;
  }

  /** The worst run looks the same to the engine, and what was given up in it can
      still land. */
  lemma {:induction false} WorstLooksTheSame(s: System, events: seq<Event>)
    requires IsRun(s, events)
    ensures IsRun(s, Worst(events)) && Seen(Worst(events)) == Seen(events)
    ensures SameEngine(Play(s, events).value, Play(s, Worst(events)).value)
    ensures GivesUp(events) ==> Play(s, Worst(events)).value.strays > 0
  {
    if events != [] {
      var front, event := events[..|events| - 1], events[|events| - 1];
      assert events == front + [event];
      WorstLooksTheSame(s, front);
      HistoryGrows(front, event);
      PlayOneMore(s, front, event);
      if Worsened(event) != [] {
        WorstStep(Play(s, front).value, Play(s, Worst(front)).value, event);
        PlayOneMore(s, Worst(front), Worsened(event)[0]);
      } else {
        assert Worst(events) == Worst(front);
      }
    }
  }

  /** What the engine reports about the timer is true in every run that looks the
      same to it, if and only if it has not confirmed a disarm after giving up a
      refresh: none unacknowledged, and none under way when the heartbeat was
      stopped. */
  lemma ReportStaysTrueIff(configured: bool, events: seq<Event>)
    requires IsRun(Start(configured), events)
    ensures (forall other | IsRun(Start(configured), other) && Seen(other) == Seen(events) ::
               Truthful(Play(Start(configured), other).value))
       <==> !(Disarms(events) && GivesUp(events))
  {
    var start := Start(configured);
    SeenTells(events);
    if Disarms(events) && GivesUp(events) {
      var other := WorstIsUntruthful(configured, events);
    } else {
      forall other | IsRun(start, other) && Seen(other) == Seen(events)
        ensures Truthful(Play(start, other).value)
      {
        SeenTells(other);
        EveryRunRemembers(configured, other);
      }
    }
  }

  lemma StrayIsUntruthful(w: System)
    requires w.strays > 0 && !MayBeArmed(w.engine)
    ensures Possible(w, StrayLands) && !Truthful(Happen(w, StrayLands))
  {
  }

  lemma DisarmedIsUnflagged(configured: bool, events: seq<Event>)
    requires IsRun(Start(configured), events) && Disarms(events)
    ensures !MayBeArmed(Play(Start(configured), events).value.engine)
  {
    EveryRunRemembers(configured, events);
  }

  lemma WorstIsUntruthful(configured: bool, events: seq<Event>) returns (other: seq<Event>)
    requires IsRun(Start(configured), events) && Disarms(events) && GivesUp(events)
    ensures IsRun(Start(configured), other) && Seen(other) == Seen(events)
    ensures !Truthful(Play(Start(configured), other).value)
  {
    other := Worst(events) + [StrayLands];
    DisarmedIsUnflagged(configured, events);
    WorstLooksTheSame(Start(configured), events);
    StrayIsUntruthful(Play(Start(configured), Worst(events)).value);
    PlayOneMore(Start(configured), Worst(events), StrayLands);
  }

  /** Every refresh of the heartbeat so far was acknowledged. */
  ghost predicate AllAcknowledged(events: seq<Event>) {
    forall i | 0 <= i < |events| :: events[i].Beat? ==> events[i].acked
  }

  /** Told before the call: a shutdown whose disarm is sent and confirmed reports
      the truth, in every run that looks the same, exactly when the heartbeat had
      every refresh acknowledged and is stopped between two of them. */
  lemma ShutdownReportStaysTrueIff(events: seq<Event>, inFlight: Option<Fate>, x: Shutdown, exit: Event)
    requires exit == OperatorShutdown(inFlight, x, true) && IsRun(Start(true), events + [exit])
    requires DisarmSent(Play(Start(true), events).value.engine, x) && x.disarmAcked
    ensures IsRun(Start(true), events)
    ensures (forall other | IsRun(Start(true), other) && Seen(other) == Seen(events + [exit]) ::
               Truthful(Play(Start(true), other).value))
       <==> inFlight == None && AllAcknowledged(events)
  {
    PlayOneMore(Start(true), events, exit);
    EveryRunRemembers(true, events);
    HistoryGrows(events, exit);
    ReportStaysTrueIff(true, events + [exit]);
    OnlyBeatsGiveUp(true, events);
  }

  /** While the engine runs, only an unacknowledged heartbeat refresh is given up. */
  lemma {:induction false} OnlyBeatsGiveUp(configured: bool, events: seq<Event>)
    requires IsRun(Start(configured), events) && Play(Start(configured), events).value.phase != Exited
    ensures GivesUp(events) <==> !AllAcknowledged(events)
  {
    if events != [] {
      var front, event := events[..|events| - 1], events[|events| - 1];
      assert events == front + [event];
      PlayOneMore(Start(configured), front, event);
      OnlyBeatsGiveUp(configured, front);
      HistoryGrows(front, event);
      assert AllAcknowledged(events) <==> AllAcknowledged(front) && (event.Beat? ==> event.acked) by {
        assert forall i | 0 <= i < |front| :: events[i] == front[i];
      }
    }
  }

  /** The unsound case happens: a refresh under way when the heartbeat is stopped
      lands after the disarm was confirmed, and nothing is flagged. */
  lemma StoppedRefreshCanRearm()
    ensures exists events :: IsRun(Start(true), events) && StrayAfterDisarm(events)
                          && Play(Start(true), events).value.timer && !MayBeArmed(Play(Start(true), events).value.engine)
  {
    var begun := Starts(Start(true));
    var exit := OperatorShutdown(Some(Stray), Shutdown([true], true, true, true), true);
    StrayAfter(begun, exit);
    assert IsRun(Start(true), begun + [exit] + [StrayLands]);
  }

  lemma StrayFollows(begun: seq<Event>, exit: Event)
    requires CleanShutdown(exit)
    ensures StrayAfterDisarm(begun + [exit] + [StrayLands])
  {
    HistoryGrows(begun, exit);
    HistoryGrows(begun + [exit], StrayLands);
  }

  lemma StrayAfter(begun: seq<Event>, exit: Event)
    requires IsRun(Start(true), begun) && exit == OperatorShutdown(Some(Stray), Shutdown([true], true, true, true), true)
    requires Play(Start(true), begun).value == System(Engine(true, true, true, true, true), Looping, true, true, 0)
    ensures var events := begun + [exit] + [StrayLands];
            && IsRun(Start(true), events) && StrayAfterDisarm(events)
            && Play(Start(true), events).value.timer && !MayBeArmed(Play(Start(true), events).value.engine)
  {
    PlayOneMore(Start(true), begun, exit);
    PlayOneMore(Start(true), begun + [exit], StrayLands);
    StrayFollows(begun, exit);
  }

  lemma Starts(start: System) returns (begun: seq<Event>)
    requires start == Start(true)
    ensures IsRun(start, begun)
    ensures Play(start, begun).value == System(Engine(true, true, true, true, true), Looping, true, true, 0)
  {
    var e1 := [Arm(Landed, true)];
    var e2 := e1 + [HeartbeatStarted];
    var e3 := e2 + [RefresherStarted];
    begun := e3 + [LoopEntered];
    assert e1 == [] + e1 && Play(start, []) == Some(start);
    PlayOneMore(start, [], Arm(Landed, true));
    PlayOneMore(start, e1, HeartbeatStarted);
    PlayOneMore(start, e2, RefresherStarted);
    PlayOneMore(start, e3, LoopEntered);
  }

  /** In a run the disarm is sent exactly by the operator shutdowns, of a configured
      engine, in which every cleanup and both stops succeeded. */
  lemma DisarmIsSentWhen(configured: bool, events: seq<Event>, event: Event)
    requires IsRun(Start(configured), events + [event]) && event.OperatorShutdown?
    ensures IsRun(Start(configured), events)
    ensures DisarmSent(Play(Start(configured), events).value.engine, event.shutdown)
       <==> configured && event.shutdown.refresherStops && event.shutdown.heartbeatStops
            && forall i | 0 <= i < |event.shutdown.cleanups| :: event.shutdown.cleanups[i]
  {
    assert (events + [event])[..|events|] == events;
    EveryRunRemembers(configured, events);
  }

  /** An operator shutdown reports a clean exit exactly when it was a clean shutdown
      of a configured engine, or the engine was never configured: such an engine
      holds no task and sends no disarm, so nothing can fail. */
  lemma CleanExitIff(configured: bool, events: seq<Event>, exit: Event)
    requires IsRun(Start(configured), events + [exit]) && exit.OperatorShutdown?
    ensures IsRun(Start(configured), events)
    ensures ShutdownExit(Play(Start(configured), events).value.engine, exit.shutdown)
         == if configured ==> CleanShutdown(exit) then Clean else Ambiguous
  {
    PlayOneMore(Start(configured), events, exit);
    EveryRunRemembers(configured, events);
  }

  /** A clean exit leaves nothing flagged, an ambiguous one leaves the engine flagged. */
  lemma ExitTellsTheFlags(configured: bool, events: seq<Event>, exit: Event)
    requires IsRun(Start(configured), events + [exit]) && exit.OperatorShutdown?
    ensures IsRun(Start(configured), events)
    ensures ShutdownExit(Play(Start(configured), events).value.engine, exit.shutdown) == Clean
       <==> !MayBeArmed(Play(Start(configured), events + [exit]).value.engine)
  {
    PlayOneMore(Start(configured), events, exit);
    EveryRunRemembers(configured, events);
    EveryRunRemembers(configured, events + [exit]);
    HistoryGrows(events, exit);
    CleanExitIff(configured, events, exit);
  }

  /** After an exit a task handle is held only when its stop was tried and failed. */
  lemma HandlesAfterExit(configured: bool, events: seq<Event>, exit: Event)
    requires IsRun(Start(configured), events + [exit])
    requires exit.OperatorShutdown? || exit.FatalExit? || exit.ErrorExit?
    ensures IsRun(Start(configured), events)
    ensures var before := Play(Start(configured), events).value.engine;
            var after := Play(Start(configured), events + [exit]).value.engine;
            && (after.heartbeat <==> before.heartbeat && exit.OperatorShutdown? && !exit.shutdown.heartbeatStops)
            && (after.refresher <==> before.refresher && exit.OperatorShutdown? && !exit.shutdown.refresherStops)
  {
    PlayOneMore(Start(configured), events, exit);
    EveryRunRemembers(configured, events);
  }

  /** The armed flag means that the arm was acknowledged and no clean shutdown
      confirmed since. */
  lemma {:induction false} ArmedIsHistory(configured: bool, events: seq<Event>)
    requires IsRun(Start(configured), events)
    ensures Play(Start(configured), events).value.engine.armed <==> Acknowledges(events) && !Disarms(events)
  {
    if events != [] {
      var front, event := events[..|events| - 1], events[|events| - 1];
      assert events == front + [event];
      PlayOneMore(Start(configured), front, event);
      ArmedIsHistory(configured, front);
      EveryRunRemembers(configured, front);
      ArmedStep(Play(Start(configured), front).value, front, event);
    }
  }

  ghost predicate Acknowledges(events: seq<Event>) {
    exists i | 0 <= i < |events| :: events[i].Arm? && events[i].acked
  }

  lemma ArmedStep(s: System, front: seq<Event>, event: Event)
    requires Consistent(s) && Remembers(s, front) && Possible(s, event)
    requires s.engine.armed <==> Acknowledges(front) && !Disarms(front)
    ensures Happen(s, event).engine.armed <==> Acknowledges(front + [event]) && !Disarms(front + [event])
  {
    HistoryGrows(front, event);
    var all := front + [event];
    assert all[|front|] == event && forall i | 0 <= i < |front| :: all[i] == front[i];
    assert Acknowledges(all) <==> Acknowledges(front) || (event.Arm? && event.acked);
  }
}
