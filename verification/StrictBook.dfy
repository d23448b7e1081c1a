/** The strict Level-2 book: a snapshot starts an epoch, chained increments
    extend it, and any fault empties the book. */
module StrictBook {
  import opened Wrappers
  import opened BookTypes
  import opened BookSides
  import opened BookFeatures
  import opened RollingWindow

  datatype FeatureSnapshot = FeatureSnapshot(
    instrumentId: string, epoch: nat, generation: nat, sequenceId: int,
    exchangeTs: int, receivedAt: nat, bidLevelCount: nat, askLevelCount: nat,
    book: StaticFeatures, rolling: Rolling)

  datatype Outcome = Features(snapshot: FeatureSnapshot) | Heartbeat

  datatype BookState = BookState(
    instrumentId: string, bids: Side, asks: Side, valid: bool,
    epoch: nat, generation: nat, sequenceId: Option<int>,
    features: Option<FeatureSnapshot>, points: seq<Point>)

  datatype Transition = Transition(state: BookState, result: Result<Outcome, BookError>)

  function Fresh(instrumentId: string): BookState {
    BookState(instrumentId, map[], map[], false, 0, 0, None, None, [])
  }

  function SaturatingNext(x: nat): nat { if x >= U64_MAX then U64_MAX else x + 1 }

  function Invalidated(s: BookState): BookState {
    BookState(s.instrumentId, map[], map[], false, s.epoch, s.generation, None, None, [])
  }

  function Fail(s: BookState, error: BookError): Transition {
    Transition(Invalidated(s), Err(error))
  }

  function ValidateBook(bids: Side, asks: Side): Result<(), BookError> {
    if bids == map[] || asks == map[] then Err(EmptySide)
    else
      var bestBid, bestAsk := Best(Bid, bids.Keys), Best(Ask, asks.Keys);
      if bestBid >= bestAsk then Err(CrossedBook(bestBid, bestAsk)) else Ok(())
  }

  function SnapshotOf(s: BookState, m: Message, book: StaticFeatures): FeatureSnapshot {
    FeatureSnapshot(s.instrumentId, s.epoch, s.generation, m.sequenceId, m.exchangeTs, m.receivedAt,
                    |s.bids|, |s.asks|, book, Measures(s.points + [PointOf(book, m)]))
  }

  function PointOf(book: StaticFeatures, m: Message): Point {
    Point(book.mid, book.imbalanceL10, m.receivedAt)
  }

  function CacheFeatures(s: BookState, m: Message, book: StaticFeatures): Transition {
    var snapshot := SnapshotOf(s, m, book);
    Transition(s.(features := Some(snapshot), points := Push(s.points, PointOf(book, m))), Ok(Features(snapshot)))
  }

  /** Computes the features of an updated book and caches them. */
  function FinishFeatures(s: BookState, m: Message): Transition {
    match Static(Ladder(Bid, s.bids), Ladder(Ask, s.asks))
    case Err(error) => Fail(s, error)
    case Ok(book) => CacheFeatures(s, m, book)
  }

  function NextBook(m: Message): Result<(Side, Side), BookError> {
    if |m.asks| > MAX_DEPTH || |m.bids| > MAX_DEPTH then Err(DepthOverflow)
    else
      match SnapshotSide(m.bids)
      case Err(error) => Err(error)
      case Ok(bids) =>
        match SnapshotSide(m.asks)
        case Err(error) => Err(error)
        case Ok(asks) =>
          match ValidateBook(bids, asks)
          case Err(error) => Err(error)
          case Ok(_) => Ok((bids, asks))
  }

  function StartEpoch(s: BookState, bids: Side, asks: Side, m: Message): BookState {
    s.(bids := bids, asks := asks, valid := true,
       epoch := SaturatingNext(s.epoch), generation := SaturatingNext(s.generation),
       sequenceId := Some(m.sequenceId), points := [])
  }

  function SnapshotStep(s: BookState, m: Message): Transition {
    match NextBook(m)
    case Err(error) => Fail(s, error)
    case Ok((bids, asks)) => FinishFeatures(StartEpoch(s, bids, asks, m), m)
  }

  predicate IsHeartbeat(m: Message, current: int) {
    m.asks == [] && m.bids == [] && m.sequenceId == current && m.previousSequenceId == current
  }

  /** Both sides after an increment: updated, then trimmed, then validated. */
  function Increment(bids: Side, asks: Side, m: Message): Result<(Side, Side), BookError> {
    match SideUpdate(bids, m.bids)
    case Err(error) => Err(error)
    case Ok(newBids) =>
      match SideUpdate(asks, m.asks)
      case Err(error) => Err(error)
      case Ok(newAsks) =>
        var trimmedBids, trimmedAsks := Trimmed(Bid, newBids, MAX_DEPTH), Trimmed(Ask, newAsks, MAX_DEPTH);
        match ValidateBook(trimmedBids, trimmedAsks)
        case Err(error) => Err(error)
        case Ok(_) => Ok((trimmedBids, trimmedAsks))
  }

  function Advance(s: BookState, bids: Side, asks: Side, m: Message): BookState {
    s.(bids := bids, asks := asks, generation := SaturatingNext(s.generation), sequenceId := Some(m.sequenceId))
  }

  function IncrementStep(s: BookState, m: Message): Transition {
    if !s.valid || s.sequenceId == None then Transition(s, Err(UpdateBeforeSnapshot))
    else
      var current := s.sequenceId.value;
      if IsHeartbeat(m, current) then Transition(s, Ok(Heartbeat))
      else if m.previousSequenceId != current then
        Fail(s, SequenceGap(current, m.previousSequenceId, m.sequenceId))
      else if m.sequenceId <= current then Fail(s, RegressingSequence(current, m.sequenceId))
      else
        match Increment(s.bids, s.asks, m)
        case Err(error) => Fail(s, error)
        case Ok((bids, asks)) => FinishFeatures(Advance(s, bids, asks, m), m)
  }

  /** The whole effect of one message. */
  function Step(s: BookState, m: Message): Transition {
    if m.instrumentId != s.instrumentId then
      Transition(s, Err(InstrumentMismatch(s.instrumentId, m.instrumentId)))
    else if m.action == Snapshot then SnapshotStep(s, m)
    else IncrementStep(s, m)
  }

  class OkxLevel2Book {
    const instrumentId: string
    var bids: Side
    var asks: Side
    var valid: bool
    var epoch: nat
    var generation: nat
    var sequenceId: Option<int>
    var features: Option<FeatureSnapshot>
    var points: seq<Point>

    ghost function State(): BookState
      reads this
    {
      BookState(instrumentId, bids, asks, valid, epoch, generation, sequenceId, features, points)
    }

    constructor (instrumentId: string)
      ensures State() == Fresh(instrumentId)
    {
      this.instrumentId := instrumentId;
      bids, asks, valid, epoch, generation := map[], map[], false, 0, 0;
      sequenceId, features, points := None, None, [];
    }

    method Invalidate()
      modifies this
      ensures State() == Invalidated(old(State()))
    {
      bids := map[];
      asks := map[];
      valid := false;
      sequenceId := None;
      features := None;
      points := [];
    }

    method Apply(m: Message) returns (result: Result<Outcome, BookError>)
      modifies this
      ensures Transition(State(), result) == Step(old(State()), m)
    {
      if m.instrumentId != instrumentId {
        return Err(InstrumentMismatch(instrumentId, m.instrumentId));
      }
      match m.action {
        case Snapshot => result := ApplySnapshot(m);
        case Update => result := ApplyIncrement(m);
      }
    }

    method ApplySnapshot(m: Message) returns (result: Result<Outcome, BookError>)
      modifies this
      ensures Transition(State(), result) == SnapshotStep(old(State()), m)
    {
      var fault: Option<BookError> := None;
      var newBids: Side, newAsks: Side := map[], map[];
      if |m.asks| > MAX_DEPTH || |m.bids| > MAX_DEPTH {
        fault := Some(DepthOverflow);
      } else {
        var bidSide := BuildSnapshotSide(m.bids);
        var askSide := BuildSnapshotSide(m.asks);
        match (bidSide, askSide) {
          case (Err(error), _) => fault := Some(error);
          case (_, Err(error)) => fault := Some(error);
          case (Ok(b), Ok(a)) =>
            newBids, newAsks := b, a;
            var verdict := ValidateBook(b, a);
            if verdict.Err? { fault := Some(verdict.error); }
        }
      }
      if fault.Some? {
        Invalidate();
        return Err(fault.value);
      }
      bids, asks := newBids, newAsks;
      valid := true;
      epoch := SaturatingNext(epoch);
      generation := SaturatingNext(generation);
      sequenceId := Some(m.sequenceId);
      points := [];
      assert State() == StartEpoch(old(State()), newBids, newAsks, m);
      result := Finish(m);
    }

    method ApplyIncrement(m: Message) returns (result: Result<Outcome, BookError>)
      modifies this
      ensures Transition(State(), result) == IncrementStep(old(State()), m)
    {
      if !valid || sequenceId == None {
        return Err(UpdateBeforeSnapshot);
      }
      var current := sequenceId.value;
      if IsHeartbeat(m, current) {
        return Ok(Heartbeat);
      }
      if m.previousSequenceId != current {
        Invalidate();
        return Err(SequenceGap(current, m.previousSequenceId, m.sequenceId));
      }
      if m.sequenceId <= current {
        Invalidate();
        return Err(RegressingSequence(current, m.sequenceId));
      }
      var verdict;
      verdict, bids := ApplySide(bids, m.bids);
      if verdict.Err? {
        Invalidate();
        return Err(verdict.error);
      }
      verdict, asks := ApplySide(asks, m.asks);
      if verdict.Err? {
        Invalidate();
        return Err(verdict.error);
      }
      bids := TrimToDepth(Bid, bids);
      asks := TrimToDepth(Ask, asks);
      verdict := ValidateBook(bids, asks);
      if verdict.Err? {
        Invalidate();
        return Err(verdict.error);
      }
      generation := SaturatingNext(generation);
      sequenceId := Some(m.sequenceId);
      assert State() == Advance(old(State()), bids, asks, m);
      result := Finish(m);
    }

    method Finish(m: Message) returns (result: Result<Outcome, BookError>)
      modifies this
      ensures Transition(State(), result) == FinishFeatures(old(State()), m)
    {
      match Static(Ladder(Bid, bids), Ladder(Ask, asks)) {
        case Err(error) =>
          Invalidate();
          result := Err(error);
        case Ok(book) =>
          result := Cache(m, book);
      }
    }

    method Cache(m: Message, book: StaticFeatures) returns (result: Result<Outcome, BookError>)
      modifies this
      ensures Transition(State(), result) == CacheFeatures(old(State()), m, book)
    {
      var rolling, updated := RollingFeatures(points, book.mid, book.imbalanceL10, m.receivedAt);
      var snapshot := FeatureSnapshot(instrumentId, epoch, generation, m.sequenceId, m.exchangeTs,
                                      m.receivedAt, |bids|, |asks|, book, rolling);
      points := updated;
      features := Some(snapshot);
      result := Ok(Features(snapshot));
    }
  }
}
