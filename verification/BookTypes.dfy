/** Messages, stored levels and faults of the Level-2 books.
    Decimals are exact reals, so rounding and overflow do not occur. */
module BookTypes {

  /** One price row of a message; a zero quantity asks for removal. */
  datatype Level = Level(price: real, quantity: real, orderCount: nat)

  /** What a book stores under a price. */
  datatype BookLevel = BookLevel(quantity: real, orderCount: nat)

  type Side = map<real, BookLevel>

  datatype SideKind = Bid | Ask

  datatype Action = Snapshot | Update

  datatype Message = Message(
    instrumentId: string,
    action: Action,
    bids: seq<Level>,
    asks: seq<Level>,
    exchangeTs: int,
    sequenceId: int,
    previousSequenceId: int,
    receivedAt: nat)

  datatype BookError =
    | InstrumentMismatch(expected: string, received: string)
    | UpdateBeforeSnapshot
    | SequenceGap(expectedPrevious: int, actualPrevious: int, sequenceId: int)
    | RegressingSequence(current: int, incoming: int)
    | DuplicatePrice(price: real)
    | UnknownRemoval(price: real)
    | EmptySide
    | CrossedBook(bestBid: real, bestAsk: real)
    | DepthOverflow
    | ZeroDenominator

  const MAX_DEPTH: nat := 400

  /** The public parser only lets positive prices and non-negative quantities through. */
  predicate WellFormedLevels(levels: seq<Level>) {
    forall level | level in levels :: level.price > 0.0 && level.quantity >= 0.0
  }

  predicate WellFormed(m: Message) {
    WellFormedLevels(m.bids) && WellFormedLevels(m.asks)
  }
}
