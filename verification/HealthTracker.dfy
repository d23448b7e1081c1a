/** Readiness of the mandatory WebSocket streams. */
module HealthTracker {
  import opened Wrappers
  import opened Ordered

  datatype StreamKind = Public | Private | Business

  datatype ChannelClass = PublicMarketData | PublicCandles | PrivateTrading | PrivateAlgoOrders

  datatype Stream = Stream(kind: StreamKind, channelClass: ChannelClass, instrumentCount: nat)

  function KindRank(kind: StreamKind): nat {
    match kind
    case Public => 0
    case Private => 1
    case Business => 2
  }

  function ClassRank(channelClass: ChannelClass): nat {
    match channelClass
    case PublicMarketData => 0
    case PublicCandles => 1
    case PrivateTrading => 2
    case PrivateAlgoOrders => 3
  }

  /** The order of the stream sets: kind, then channel class, then size. */
  predicate StreamLeq(a: Stream, b: Stream) {
    KindRank(a.kind) < KindRank(b.kind)
    || (a.kind == b.kind
        && (ClassRank(a.channelClass) < ClassRank(b.channelClass)
            || (a.channelClass == b.channelClass && a.instrumentCount <= b.instrumentCount)))
  }

  datatype EventKind =
    | ConnectAttempt | Connected | LoginAckSucceeded | LoginFailed
    | SubscriptionAckSucceeded | SubscriptionAckFailed | ReconnectScheduled
    | StreamDisconnectedAfterSubscription | StreamFailedBeforeSubscription | StreamFailedAfterSubscription
    | StreamTaskPanicked | StreamTaskExitedUnexpectedly

  datatype HealthEvent = HealthEvent(stream: Stream, kind: EventKind)

  datatype TrackerState = TrackerState(
    expected: set<Stream>, mandatory: set<Stream>,
    ready: set<Stream>, everReady: set<Stream>, failedBeforeReady: set<Stream>)

  /** Every expected stream is mandatory. */
  function NewTracker(streams: set<Stream>): TrackerState {
    TrackerState(streams, streams, {}, {}, {})
  }

  predicate IsAck(kind: EventKind) { kind.SubscriptionAckSucceeded? }

  /** The failures that count when they come before the first acknowledgement. */
  predicate IsFailure(kind: EventKind) {
    kind.LoginFailed? || kind.SubscriptionAckFailed? || kind.StreamFailedBeforeSubscription?
    || kind.StreamTaskPanicked? || kind.StreamTaskExitedUnexpectedly?
  }

  /** The events after which the stream task is gone. */
  predicate IsTaskLifecycleError(kind: EventKind) {
    kind.StreamTaskPanicked? || kind.StreamTaskExitedUnexpectedly?
  }

  function Recorded(s: TrackerState, e: HealthEvent): TrackerState {
    if e.stream !in s.expected then s
    else if IsAck(e.kind) then
      s.(ready := s.ready + {e.stream}, everReady := s.everReady + {e.stream},
         failedBeforeReady := s.failedBeforeReady - {e.stream})
    else if IsFailure(e.kind) then
      s.(ready := s.ready - {e.stream},
         failedBeforeReady :=
           if e.stream in s.everReady then s.failedBeforeReady else s.failedBeforeReady + {e.stream})
    else s.(ready := s.ready - {e.stream})
  }

  function FailedMandatory(s: TrackerState): set<Stream> {
    set stream | stream in s.mandatory && stream in s.failedBeforeReady && stream !in s.ready
  }

  datatype ReadinessFailure = ReadinessFailure(count: nat, first: Stream)

  lemma StreamsAreOrdered()
    ensures TotalOrder(StreamLeq)
  {
  }

  /** Public before private before business; then by channel class; then by size. */
  lemma StreamOrderMeans(a: Stream, b: Stream)
    requires StreamLeq(a, b)
    ensures b.kind == Public ==> a.kind == Public
    ensures b.kind == Private ==> a.kind != Business
    ensures a.kind == b.kind && b.channelClass == PublicMarketData ==> a.channelClass == PublicMarketData
    ensures a.kind == b.kind && b.channelClass == PublicCandles ==>
              a.channelClass == PublicMarketData || a.channelClass == PublicCandles
    ensures a.kind == b.kind && b.channelClass == PrivateTrading ==> a.channelClass != PrivateAlgoOrders
    ensures a.kind == b.kind && a.channelClass == b.channelClass ==> a.instrumentCount <= b.instrumentCount
  {
  }

  function FirstStream(streams: set<Stream>): (first: Stream)
    requires streams != {}
    ensures first in streams && forall other | other in streams :: StreamLeq(first, other)
  {
    StreamsAreOrdered();
    Least(streams, StreamLeq)
  }

  /** How many mandatory streams failed before readiness, and the first of them. */
  function StartupReadinessError(s: TrackerState): Option<ReadinessFailure> {
    var failed := FailedMandatory(s);
    if failed == {} then None else Some(ReadinessFailure(|failed|, FirstStream(failed)))
  }

  predicate AllReady(s: TrackerState) { s.mandatory <= s.ready }

  class WebsocketHealthTracker {
    var expected: set<Stream>
    var mandatory: set<Stream>
    var ready: set<Stream>
    var everReady: set<Stream>
    var failedBeforeReady: set<Stream>

    ghost function State(): TrackerState
      reads this
    {
      TrackerState(expected, mandatory, ready, everReady, failedBeforeReady)
    }

    constructor (streams: set<Stream>)
      ensures State() == NewTracker(streams)
    {
      expected, mandatory := streams, streams;
      ready, everReady, failedBeforeReady := {}, {}, {};
    }

    method Record(e: HealthEvent)
      modifies this
      ensures State() == Recorded(old(State()), e)
    {
      if e.stream !in expected {
        return;
      }
      match e.kind {
        case SubscriptionAckSucceeded =>
          ready := ready + {e.stream};
          everReady := everReady + {e.stream};
          failedBeforeReady := failedBeforeReady - {e.stream};
        case LoginFailed | SubscriptionAckFailed | StreamFailedBeforeSubscription
           | StreamTaskPanicked | StreamTaskExitedUnexpectedly =>
          ready := ready - {e.stream};
          if e.stream !in everReady {
            failedBeforeReady := failedBeforeReady + {e.stream};
          }
        case ConnectAttempt | Connected | LoginAckSucceeded | ReconnectScheduled
           | StreamDisconnectedAfterSubscription | StreamFailedAfterSubscription =>
          ready := ready - {e.stream};
      }
    }

    method ReadinessError() returns (error: Option<ReadinessFailure>)
      ensures error == StartupReadinessError(State())
    {
      var failed := set stream | stream in mandatory && stream in failedBeforeReady && stream !in ready;
      error := if failed == {} then None else Some(ReadinessFailure(|failed|, FirstStream(failed)));
    }

    method AllMandatoryStreamsReady() returns (yes: bool)
      ensures yes == AllReady(State())
    {
      yes := mandatory <= ready;
    }
  }

  // ---------- what the sets mean ----------

  function AfterEvents(streams: set<Stream>, events: seq<HealthEvent>): TrackerState {
    if events == [] then NewTracker(streams)
    else Recorded(AfterEvents(streams, events[..|events| - 1]), events[|events| - 1])
  }

  /** The newest event recorded for a stream. */
  function LastKind(events: seq<HealthEvent>, stream: Stream): Option<EventKind> {
    if events == [] then None
    else if events[|events| - 1].stream == stream then Some(events[|events| - 1].kind)
    else LastKind(events[..|events| - 1], stream)
  }

  ghost predicate EverAcked(events: seq<HealthEvent>, stream: Stream) {
    exists e :: e in events && e.stream == stream && e.kind == SubscriptionAckSucceeded
  }

  /** Login refused, subscription refused, stream failed before subscription, task
      panicked, task gone. */
  const FATAL_BEFORE_READY: set<EventKind> := {
    LoginFailed, SubscriptionAckFailed, StreamFailedBeforeSubscription, StreamTaskPanicked, StreamTaskExitedUnexpectedly
  }

  ghost predicate EverFailed(events: seq<HealthEvent>, stream: Stream) {
    exists e :: e in events && e.stream == stream && e.kind in FATAL_BEFORE_READY
  }

  /** The three sets are histories: ready streams were last heard acknowledging,
      ever-ready ones acknowledged once, failed ones never did and failed. */
  lemma {:induction false} SetsAreHistories(streams: set<Stream>, events: seq<HealthEvent>, stream: Stream)
    requires stream in streams
    ensures var s := AfterEvents(streams, events);
            && s.expected == streams && s.mandatory == streams
            && (stream in s.ready <==> LastKind(events, stream) == Some(SubscriptionAckSucceeded))
            && (stream in s.everReady <==> EverAcked(events, stream))
            && (stream in s.failedBeforeReady <==> !EverAcked(events, stream) && EverFailed(events, stream))
            && (stream in s.ready ==> stream in s.everReady)
  {
    if events != [] {
      var front, e := events[..|events| - 1], events[|events| - 1];
      SetsAreHistories(streams, front, stream);
      assert forall x :: x in events <==> x in front || x == e by {
        assert events == front + [e];
      }
    }
  }

  /** Startup fails exactly when some mandatory stream has failed and was never
      acknowledged; having become ready once clears it for good. */
  lemma StartupErrorMeans(streams: set<Stream>, events: seq<HealthEvent>)
    ensures StartupReadinessError(AfterEvents(streams, events)).Some?
       <==> exists stream :: stream in streams && !EverAcked(events, stream) && EverFailed(events, stream)
  {
    var s := AfterEvents(streams, events);
    forall stream | stream in streams
      ensures stream in FailedMandatory(s) <==> !EverAcked(events, stream) && EverFailed(events, stream)
    {
      SetsAreHistories(streams, events, stream);
    }
    MandatoryIsFixed(streams, events);
    if FailedMandatory(s) != {} {
      var stream := SomeMember(FailedMandatory(s));
      assert stream in streams;
    }
  }

  lemma {:induction false} MandatoryIsFixed(streams: set<Stream>, events: seq<HealthEvent>)
    ensures AfterEvents(streams, events).mandatory == streams
    ensures AfterEvents(streams, events).expected == streams
  {
    if events != [] {
      MandatoryIsFixed(streams, events[..|events| - 1]);
    }
  }
}
