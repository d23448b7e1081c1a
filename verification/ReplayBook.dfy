/** The lenient replay book: it counts anomalies, keeps applying rows and
    loses its trust until the next snapshot. */
module ReplayBook {
  import opened Wrappers
  import opened BookTypes
  import opened BookSides
  import opened BookFeatures

  datatype Counters = Counters(
    invalidLevels: nat, unknownRemovals: nat, duplicateLevels: nat, nonMonotonicSnapshotSides: nat,
    updateBeforeSnapshot: nat, depthOverflow: nat, emptySides: nat, crossed: nat)

  const NO_ANOMALY := Counters(0, 0, 0, 0, 0, 0, 0, 0)

  datatype ReplayState = ReplayState(
    instrumentId: string, bids: Side, asks: Side, trusted: bool, hasSnapshot: bool,
    sequenceEpoch: Option<nat>, sequenceId: Option<int>)

  datatype ReplayTransition = ReplayTransition(state: ReplayState, result: Result<Counters, BookError>)

  function FreshReplay(instrumentId: string): ReplayState {
    ReplayState(instrumentId, map[], map[], false, false, None, None)
  }

  // ---------- one side ----------

  /** A side and the three row anomalies counted while updating it. */
  datatype SideCount = SideCount(side: Side, invalid: nat, unknown: nat, duplicate: nat)

  function CountRow(done: SideCount, seen: set<real>, row: Level): SideCount {
    if row.price in seen then done.(duplicate := done.duplicate + 1)
    else if row.price <= 0.0 || row.quantity < 0.0 then done.(invalid := done.invalid + 1)
    else if row.quantity == 0.0 then
      if row.price in done.side then done.(side := done.side - {row.price})
      else done.(unknown := done.unknown + 1)
    else done.(side := done.side[row.price := Stored(row)])
  }

  function CountSide(side: Side, rows: seq<Level>): SideCount {
    if rows == [] then SideCount(side, 0, 0, 0)
    else
      var front := rows[..|rows| - 1];
      CountRow(CountSide(side, front), Prices(front), rows[|rows| - 1])
  }

  function AddCounts(c: Counters, s: SideCount): Counters {
    c.(invalidLevels := c.invalidLevels + s.invalid,
       unknownRemovals := c.unknownRemovals + s.unknown,
       duplicateLevels := c.duplicateLevels + s.duplicate)
  }

  lemma OneMoreRow(side: Side, rows: seq<Level>, i: nat)
    requires i < |rows|
    ensures CountSide(side, rows[..i + 1]) == CountRow(CountSide(side, rows[..i]), Prices(rows[..i]), rows[i])
    ensures Prices(rows[..i + 1]) == Prices(rows[..i]) + {rows[i].price}
  {
    assert rows[..i + 1][..|rows[..i + 1]| - 1] == rows[..i];
    assert rows[..i + 1] == rows[..i] + [rows[i]];
  }

  method ApplyRows(side: Side, rows: seq<Level>, counters: Counters) returns (updated: Side, counted: Counters)
    ensures updated == CountSide(side, rows).side
    ensures counted == AddCounts(counters, CountSide(side, rows))
  {
    var done := SideCount(side, 0, 0, 0);
    var seen: set<real> := {};
    for i := 0 to |rows|
      invariant seen == Prices(rows[..i])
      invariant done == CountSide(side, rows[..i])
    {
      var row := rows[i];
      OneMoreRow(side, rows, i);
      assert CountSide(side, rows[..i + 1]) == CountRow(done, seen, row);
      if row.price in seen {
        done := done.(duplicate := done.duplicate + 1);
        continue;
      }
      seen := seen + {row.price};
      if row.price <= 0.0 || row.quantity < 0.0 {
        done := done.(invalid := done.invalid + 1);
        continue;
      }
      if row.quantity == 0.0 {
        if row.price in done.side {
          done := done.(side := done.side - {row.price});
        } else {
          done := done.(unknown := done.unknown + 1);
        }
      } else {
        done := done.(side := done.side[row.price := Stored(row)]);
      }
    }
    assert rows[..|rows|] == rows;
    updated, counted := done.side, AddCounts(counters, done);
  }

  // ---------- one event ----------

  /** Adjacent prices move away from the touch: asks rise, bids fall. */
  predicate StrictlyOrdered(kind: SideKind, rows: seq<Level>) {
    forall i | 0 <= i < |rows| - 1 :: Better(kind, rows[i].price, rows[i + 1].price)
  }

  function Flag(b: bool): nat { if b then 1 else 0 }

  /** The book an event is applied to: a snapshot starts empty and trusted. */
  function Opened(s: ReplayState, m: Message): ReplayState {
    if m.action == Snapshot then s.(bids := map[], asks := map[], trusted := true, hasSnapshot := true)
    else if !s.hasSnapshot then s.(trusted := false)
    else s
  }

  function OpeningCounters(s: ReplayState, m: Message): Counters {
    if m.action == Snapshot then
      NO_ANOMALY.(nonMonotonicSnapshotSides :=
        Flag(!StrictlyOrdered(Ask, m.asks)) + Flag(!StrictlyOrdered(Bid, m.bids)))
    else NO_ANOMALY.(updateBeforeSnapshot := Flag(!s.hasSnapshot))
  }

  function Leveled(s: ReplayState, m: Message): (ReplayState, Counters) {
    var start := Opened(s, m);
    var asks, bids := CountSide(start.asks, m.asks), CountSide(start.bids, m.bids);
    (start.(asks := asks.side, bids := bids.side),
     AddCounts(AddCounts(OpeningCounters(s, m), asks), bids))
  }

  predicate IsCrossed(bids: Side, asks: Side) {
    bids != map[] && asks != map[] && Best(Bid, bids.Keys) >= Best(Ask, asks.Keys)
  }

  function FinishCounters(s: ReplayState, c: Counters): Counters {
    c.(depthOverflow := c.depthOverflow + Flag(|s.bids| > MAX_DEPTH || |s.asks| > MAX_DEPTH),
       emptySides := c.emptySides + Flag(s.bids == map[] || s.asks == map[]),
       crossed := c.crossed + Flag(IsCrossed(s.bids, s.asks)))
  }

  /** The counted anomalies that end the trust of an epoch; unknown removals do not. */
  predicate Breaks(c: Counters) {
    c.invalidLevels > 0 || c.duplicateLevels > 0 || c.nonMonotonicSnapshotSides > 0
    || c.updateBeforeSnapshot > 0 || c.depthOverflow > 0
  }

  function Finished(s: ReplayState, c: Counters): (ReplayState, Counters) {
    var counted := FinishCounters(s, c);
    var usable := s.bids != map[] && s.asks != map[] && !IsCrossed(s.bids, s.asks);
    (s.(trusted := s.trusted && !Breaks(counted) && usable), counted)
  }

  function ReplayStep(s: ReplayState, m: Message, epoch: nat, sequenceId: Option<int>): ReplayTransition {
    if m.instrumentId != s.instrumentId then
      ReplayTransition(s, Err(InstrumentMismatch(s.instrumentId, m.instrumentId)))
    else
      var (leveled, counters) := Leveled(s, m);
      var (finished, counted) :=
        Finished(leveled.(sequenceEpoch := Some(epoch), sequenceId := sequenceId), counters);
      ReplayTransition(finished, Ok(counted))
  }

  class OrderBook {
    const instrumentId: string
    var bids: Side
    var asks: Side
    var trusted: bool
    var hasSnapshot: bool
    var sequenceEpoch: Option<nat>
    var sequenceId: Option<int>

    ghost function State(): ReplayState
      reads this
    {
      ReplayState(instrumentId, bids, asks, trusted, hasSnapshot, sequenceEpoch, sequenceId)
    }

    constructor (instrumentId: string)
      ensures State() == FreshReplay(instrumentId)
    {
      this.instrumentId := instrumentId;
      bids, asks, trusted, hasSnapshot := map[], map[], false, false;
      sequenceEpoch, sequenceId := None, None;
    }

    method Reset()
      modifies this
      ensures State() == FreshReplay(instrumentId)
    {
      bids := map[];
      asks := map[];
      trusted := false;
      hasSnapshot := false;
      sequenceEpoch := None;
      sequenceId := None;
    }

    method MarkUntrusted()
      modifies this
      ensures State() == old(State()).(trusted := false)
    {
      trusted := false;
    }

    method ApplyLevels(m: Message) returns (counters: Counters)
      modifies this
      ensures (State(), counters) == Leveled(old(State()), m)
    {
      counters := NO_ANOMALY;
      if m.action == Snapshot {
        bids := map[];
        asks := map[];
        trusted := true;
        hasSnapshot := true;
        var sides := Flag(!StrictlyOrdered(Ask, m.asks));
        sides := sides + Flag(!StrictlyOrdered(Bid, m.bids));
        counters := counters.(nonMonotonicSnapshotSides := sides);
      } else if !hasSnapshot {
        counters := counters.(updateBeforeSnapshot := 1);
        trusted := false;
      }
      assert State() == Opened(old(State()), m);
      assert counters == OpeningCounters(old(State()), m);
      asks, counters := ApplyRows(asks, m.asks, counters);
      bids, counters := ApplyRows(bids, m.bids, counters);
    }

    method FinishApply(counters: Counters) returns (counted: Counters)
      modifies this
      ensures (State(), counted) == Finished(old(State()), counters)
    {
      counted := counters;
      if |bids| > MAX_DEPTH || |asks| > MAX_DEPTH {
        counted := counted.(depthOverflow := counted.depthOverflow + 1);
      }
      if counted.invalidLevels > 0 || counted.duplicateLevels > 0 || counted.nonMonotonicSnapshotSides > 0
        || counted.updateBeforeSnapshot > 0 || counted.depthOverflow > 0
      {
        trusted := false;
      }
      if bids == map[] || asks == map[] {
        counted := counted.(emptySides := counted.emptySides + 1);
        trusted := false;
      } else if Best(Bid, bids.Keys) >= Best(Ask, asks.Keys) {
        counted := counted.(crossed := counted.crossed + 1);
        trusted := false;
      }
    }

    method Apply(m: Message, epoch: nat) returns (result: Result<Counters, BookError>)
      modifies this
      ensures ReplayTransition(State(), result) == ReplayStep(old(State()), m, epoch, Some(m.sequenceId))
    {
      if m.instrumentId != instrumentId {
        return Err(InstrumentMismatch(instrumentId, m.instrumentId));
      }
      var counters := ApplyLevels(m);
      sequenceEpoch := Some(epoch);
      sequenceId := Some(m.sequenceId);
      counters := FinishApply(counters);
      result := Ok(counters);
    }

    method ApplyHistorical(m: Message, epoch: nat) returns (result: Result<Counters, BookError>)
      modifies this
      ensures ReplayTransition(State(), result) == ReplayStep(old(State()), m, epoch, None)
    {
      if m.instrumentId != instrumentId {
        return Err(InstrumentMismatch(instrumentId, m.instrumentId));
      }
      var counters := ApplyLevels(m);
      sequenceEpoch := Some(epoch);
      sequenceId := None;
      counters := FinishApply(counters);
      result := Ok(counters);
    }
  }

  // ---------- what survives every event ----------

  /** Stored levels stay positive whatever arrives; trust means a usable book. */
  ghost predicate ReplayInvariant(s: ReplayState) {
    && PositiveSide(s.bids) && PositiveSide(s.asks)
    && (s.trusted ==>
          && s.hasSnapshot
          && 1 <= |s.bids| <= MAX_DEPTH && 1 <= |s.asks| <= MAX_DEPTH
          && !IsCrossed(s.bids, s.asks))
  }

  lemma {:induction false} CountSideStaysPositive(side: Side, rows: seq<Level>)
    requires PositiveSide(side)
    ensures PositiveSide(CountSide(side, rows).side)
  {
    if rows != [] {
      CountSideStaysPositive(side, rows[..|rows| - 1]);
    }
  }

  lemma StepKeepsReplayInvariant(s: ReplayState, m: Message, epoch: nat, sequenceId: Option<int>)
    requires ReplayInvariant(s)
    ensures ReplayInvariant(ReplayStep(s, m, epoch, sequenceId).state)
  {
    if m.instrumentId == s.instrumentId {
      var start := Opened(s, m);
      CountSideStaysPositive(start.asks, m.asks);
      CountSideStaysPositive(start.bids, m.bids);
      var t := ReplayStep(s, m, epoch, sequenceId).state;
      assert |t.bids| == 0 <==> t.bids == map[];
      assert |t.asks| == 0 <==> t.asks == map[];
    }
  }

  datatype ReplayCall =
    | ApplyEvent(message: Message, epoch: nat)
    | ApplyArchived(message: Message, epoch: nat)
    | ResetBook
    | Distrust

  function CallResult(s: ReplayState, call: ReplayCall): ReplayState {
    match call
    case ApplyEvent(m, epoch) => ReplayStep(s, m, epoch, Some(m.sequenceId)).state
    case ApplyArchived(m, epoch) => ReplayStep(s, m, epoch, None).state
    case ResetBook => FreshReplay(s.instrumentId)
    case Distrust => s.(trusted := false)
  }

  function AfterCalls(instrumentId: string, calls: seq<ReplayCall>): ReplayState {
    if calls == [] then FreshReplay(instrumentId)
    else CallResult(AfterCalls(instrumentId, calls[..|calls| - 1]), calls[|calls| - 1])
  }

  /** Over every run of arbitrary events, malformed ones included. */
  lemma {:induction false} EveryReplayRun(instrumentId: string, calls: seq<ReplayCall>)
    ensures ReplayInvariant(AfterCalls(instrumentId, calls))
  {
    if calls != [] {
      var s := AfterCalls(instrumentId, calls[..|calls| - 1]);
      EveryReplayRun(instrumentId, calls[..|calls| - 1]);
      match calls[|calls| - 1]
      case ApplyEvent(m, epoch) => StepKeepsReplayInvariant(s, m, epoch, Some(m.sequenceId));
      case ApplyArchived(m, epoch) => StepKeepsReplayInvariant(s, m, epoch, None);
      case _ =>
    }
  }

  lemma UncrossedIsTradable(bids: Side, asks: Side)
    requires PositiveSide(bids) && PositiveSide(asks)
    requires bids != map[] && asks != map[] && !IsCrossed(bids, asks)
    ensures TradableLadders(Ladder(Bid, bids), Ladder(Ask, asks))
  {
    assert |bids| != 0 && |asks| != 0;
    var b, a := Ladder(Bid, bids), Ladder(Ask, asks);
    assert b[0].price == Best(Bid, bids.Keys) && a[0].price == Best(Ask, asks.Keys);
  }

  // ---------- imbalance and midpoint-based prices ----------

  function DepthImbalance(bids: seq<Rung>, asks: seq<Rung>, levels: nat): Option<real> {
    var bid, ask := Quantity(Take(bids, levels)), Quantity(Take(asks, levels));
    if levels > 0 && bid + ask > 0.0 then Some((bid - ask) / (bid + ask)) else None
  }

  lemma DepthIsPositiveIff(side: Side, kind: SideKind, levels: nat)
    requires PositiveSide(side) && levels > 0
    ensures var depth := Quantity(Take(Ladder(kind, side), levels));
            if side == map[] then depth == 0.0 else depth > 0.0
  {
    var rungs := Ladder(kind, side);
    if side != map[] {
      assert |side| != 0;
      TakePositive(rungs, levels);
      SumsPositive(Take(rungs, levels));
    }
  }

  lemma ImbalanceOfDepths(bids: seq<Rung>, asks: seq<Rung>, levels: nat)
    requires levels > 0 && Quantity(Take(bids, levels)) >= 0.0 && Quantity(Take(asks, levels)) >= 0.0
    ensures DepthImbalance(bids, asks, levels)
         == if Quantity(Take(bids, levels)) == 0.0 && Quantity(Take(asks, levels)) == 0.0 then None
            else Some(Imbalance(bids, asks, levels))
  {
  }

  /** Trusted or not, the replay imbalance is the strict one, and it is missing
      only on an empty book. */
  lemma ReplayFeaturesAgree(s: ReplayState, bids: seq<Rung>, asks: seq<Rung>, levels: nat)
    requires ReplayInvariant(s) && levels > 0 && bids == Ladder(Bid, s.bids) && asks == Ladder(Ask, s.asks)
    ensures DepthImbalance(bids, asks, levels)
         == if s.bids == map[] && s.asks == map[] then None else Some(Imbalance(bids, asks, levels))
  {
    DepthIsPositiveIff(s.bids, Bid, levels);
    DepthIsPositiveIff(s.asks, Ask, levels);
    ImbalanceOfDepths(bids, asks, levels);
  }

  /** On a two-sided uncrossed book, trusted or not, the price that the imbalance
      shifts stays strictly inside the spread. */
  lemma ReplayPriceInside(s: ReplayState, bids: seq<Rung>, asks: seq<Rung>, levels: nat)
    requires ReplayInvariant(s) && levels > 0 && bids == Ladder(Bid, s.bids) && asks == Ladder(Ask, s.asks)
    requires s.bids != map[] && s.asks != map[] && !IsCrossed(s.bids, s.asks)
    ensures bids != [] && asks != []
    ensures bids[0].price
            < MultiLevelMicroprice(bids[0].price, asks[0].price, Imbalance(bids, asks, levels))
            < asks[0].price
  {
    UncrossedIsTradable(s.bids, s.asks);
    ImbalancesBounded(bids, asks, levels);
    MultiLevelBetween(bids[0].price, asks[0].price, Imbalance(bids, asks, levels));
  }

  // ---------- the rank-weighted microprice ----------

  function RankWeight(rank: nat): real
    requires rank > 0
  {
    1.0 / (rank as real)
  }

  /** Rank-weighted level microprices over the first `n` level pairs. */
  function WeightedPrices(bids: seq<Rung>, asks: seq<Rung>, n: nat): real
    requires n <= |bids| && n <= |asks|
  {
    if n == 0 then 0.0
    else
      var bid, ask := bids[n - 1], asks[n - 1];
      WeightedPrices(bids, asks, n - 1)
      + (if bid.quantity + ask.quantity <= 0.0 then 0.0 else ClassicMicroprice(bid, ask) * RankWeight(n))
  }

  function WeightTotal(bids: seq<Rung>, asks: seq<Rung>, n: nat): real
    requires n <= |bids| && n <= |asks|
  {
    if n == 0 then 0.0
    else
      WeightTotal(bids, asks, n - 1)
      + (if bids[n - 1].quantity + asks[n - 1].quantity <= 0.0 then 0.0 else RankWeight(n))
  }

  /** How many level pairs a depth request reaches. */
  function Paired(bids: seq<Rung>, asks: seq<Rung>, levels: nat): (n: nat)
    ensures n <= |bids| && n <= |asks|
  {
    var pairs := if |bids| <= |asks| then |bids| else |asks|;
    if levels <= pairs then levels else pairs
  }

  function WeightedMean(bids: seq<Rung>, asks: seq<Rung>, n: nat): Option<real>
    requires n <= |bids| && n <= |asks|
  {
    var weights := WeightTotal(bids, asks, n);
    if weights > 0.0 then Some(WeightedPrices(bids, asks, n) / weights) else None
  }

  method WeightedMicroprice(bids: seq<Rung>, asks: seq<Rung>, levels: nat) returns (price: Option<real>)
    ensures price == WeightedMean(bids, asks, Paired(bids, asks, levels))
  {
    var weightedPrice, weightSum := 0.0, 0.0;
    for index := 0 to Paired(bids, asks, levels)
      invariant weightedPrice == WeightedPrices(bids, asks, index)
      invariant weightSum == WeightTotal(bids, asks, index)
    {
      var bid, ask := bids[index], asks[index];
      if bid.quantity + ask.quantity <= 0.0 {
        continue;
      }
      var rankWeight := RankWeight(index + 1);
      weightedPrice := weightedPrice + ClassicMicroprice(bid, ask) * rankWeight;
      weightSum := weightSum + rankWeight;
    }
    price := if weightSum > 0.0 then Some(weightedPrice / weightSum) else None;
  }

  lemma RankWeightPositive(rank: nat)
    requires rank > 0
    ensures RankWeight(rank) > 0.0
  {
    var w := RankWeight(rank);
    assert w * (rank as real) == 1.0;
    ScaleOrder(0.0, w, rank as real);
  }

  /** A weighted total whose mean lies strictly between two prices. */
  ghost predicate MeanBetween(low: real, high: real, prices: real, weights: real) {
    weights > 0.0 && low * weights < prices < high * weights
  }

  lemma AccumulateBetween(low: real, high: real, prices: real, weights: real, price: real, w: real)
    requires low < price < high && w > 0.0
    requires MeanBetween(low, high, prices, weights) || prices == weights == 0.0
    ensures MeanBetween(low, high, prices + price * w, weights + w)
  {
    ScaleOrder(low, price, w);
    ScaleOrder(price, high, w);
    assert low * (weights + w) == low * weights + low * w;
    assert high * (weights + w) == high * weights + high * w;
  }

  lemma SumsUnfold(bids: seq<Rung>, asks: seq<Rung>, n: nat)
    requires 0 < n <= |bids| && n <= |asks| && bids[n - 1].quantity + asks[n - 1].quantity > 0.0
    ensures WeightedPrices(bids, asks, n)
         == WeightedPrices(bids, asks, n - 1) + ClassicMicroprice(bids[n - 1], asks[n - 1]) * RankWeight(n)
    ensures WeightTotal(bids, asks, n) == WeightTotal(bids, asks, n - 1) + RankWeight(n)
  {
  }

  lemma PairStep(bids: seq<Rung>, asks: seq<Rung>, n: nat, low: real, high: real, prices: real, weights: real)
    requires 0 < n <= |bids| && n <= |asks|
    requires PositiveRungs(bids) && PositiveRungs(asks) && low <= bids[n - 1].price < asks[n - 1].price <= high
    requires MeanBetween(low, high, prices, weights) || prices == weights == 0.0
    ensures bids[n - 1].quantity + asks[n - 1].quantity > 0.0
    ensures MeanBetween(low, high, prices + ClassicMicroprice(bids[n - 1], asks[n - 1]) * RankWeight(n),
                        weights + RankWeight(n))
  {
    var bid, ask := bids[n - 1], asks[n - 1];
    assert bid in bids && ask in asks;
    ClassicBetween(bid, ask);
    RankWeightPositive(n);
    AccumulateBetween(low, high, prices, weights, ClassicMicroprice(bid, ask), RankWeight(n));
  }

  lemma {:induction false} SumsBetween(bids: seq<Rung>, asks: seq<Rung>, n: nat, low: real, high: real)
    requires 0 < n <= |bids| && n <= |asks|
    requires PositiveRungs(bids) && PositiveRungs(asks)
    requires forall i | 0 <= i < n :: low <= bids[i].price < asks[i].price <= high
    ensures MeanBetween(low, high, WeightedPrices(bids, asks, n), WeightTotal(bids, asks, n))
  {
    var prices, weights := WeightedPrices(bids, asks, n - 1), WeightTotal(bids, asks, n - 1);
    if n > 1 {
      SumsBetween(bids, asks, n - 1, low, high);
    }
    PairStep(bids, asks, n, low, high, prices, weights);
    SumsUnfold(bids, asks, n);
  }

  lemma MeanDivides(low: real, high: real, prices: real, weights: real)
    requires MeanBetween(low, high, prices, weights)
    ensures low < prices / weights < high
  {
    DivideBetween(prices, weights, low, high);
  }

  lemma PairsAreNested(bids: seq<Rung>, asks: seq<Rung>, n: nat)
    requires TradableLadders(bids, asks) && 0 < n <= |bids| && n <= |asks|
    ensures forall i | 0 <= i < n :: bids[n - 1].price <= bids[i].price < asks[i].price <= asks[n - 1].price
  {
    forall i | 0 <= i < n
      ensures bids[n - 1].price <= bids[i].price < asks[i].price <= asks[n - 1].price
    {
      assert bids[i].price <= bids[0].price && asks[0].price <= asks[i].price;
    }
  }

  /** The result exists exactly when a level pair is used, and then it lies
      strictly between the deepest bid and the deepest ask it used. */
  lemma WeightedMicropriceBetween(bids: seq<Rung>, asks: seq<Rung>, levels: nat)
    requires TradableLadders(bids, asks)
    ensures WeightedMean(bids, asks, Paired(bids, asks, levels)).Some? <==> levels > 0
    ensures var n := Paired(bids, asks, levels);
            n > 0 ==> bids[n - 1].price < WeightedMean(bids, asks, n).value < asks[n - 1].price
  {
    var n := Paired(bids, asks, levels);
    if n > 0 {
      PairsAreNested(bids, asks, n);
      SumsBetween(bids, asks, n, bids[n - 1].price, asks[n - 1].price);
      MeanDivides(bids[n - 1].price, asks[n - 1].price, WeightedPrices(bids, asks, n), WeightTotal(bids, asks, n));
    }
  }
}
