/** Every field of a feature snapshot by its defining equation, with sums taken
    from the touch outwards and every depth written out. */
module FeatureFields {
  import opened Wrappers
  import opened BookTypes
  import opened BookSides
  import opened BookFeatures
  import opened FeatureMeaning

  // ---------- sums over levels ----------

  type Measure = (Rung, nat) -> real

  /** Adds the measure of the rungs at the positions from `k` up to `n`. */
  function Sum(rungs: seq<Rung>, k: nat, n: nat, measure: Measure): real
    requires k <= n <= |rungs|
    decreases n - k
  {
    if k == n then 0.0 else measure(rungs[k], k) + Sum(rungs, k + 1, n, measure)
  }

  lemma {:induction false} SumSplits(rungs: seq<Rung>, k: nat, n: nat, measure: Measure)
    requires k < n <= |rungs|
    ensures Sum(rungs, k, n, measure) == Sum(rungs, k, n - 1, measure) + measure(rungs[n - 1], n - 1)
    decreases n - k
  {
    if k < n - 1 {
      SumSplits(rungs, k + 1, n, measure);
    }
  }

  const QUANTITY: Measure := (rung: Rung, rank: nat) => rung.quantity
  const NOTIONAL: Measure := (rung: Rung, rank: nat) => rung.price * rung.quantity
  const RANKED: Measure := (rung: Rung, rank: nat) => rung.quantity / ((rank + 1) as real)

  function AtMost(rungs: seq<Rung>, n: nat): nat { if n <= |rungs| then n else |rungs| }

  /** The `n` levels nearest the touch, or all when there are fewer. */
  function Nearest(rungs: seq<Rung>, n: nat, measure: Measure): real {
    Sum(rungs, 0, AtMost(rungs, n), measure)
  }

  lemma {:induction false} PrefixTotals(rungs: seq<Rung>, n: nat)
    requires n <= |rungs|
    ensures Quantity(rungs[..n]) == Sum(rungs, 0, n, QUANTITY)
    ensures Notional(rungs[..n]) == Sum(rungs, 0, n, NOTIONAL)
    ensures RankWeighted(rungs[..n]) == Sum(rungs, 0, n, RANKED)
  {
    if n > 0 {
      PrefixTotals(rungs, n - 1);
      SumSplits(rungs, 0, n, QUANTITY);
      SumSplits(rungs, 0, n, NOTIONAL);
      SumSplits(rungs, 0, n, RANKED);
      assert rungs[..n][..|rungs[..n]| - 1] == rungs[..n - 1];
    }
  }

  lemma TakeTotals(rungs: seq<Rung>, n: nat)
    ensures Quantity(Take(rungs, n)) == Nearest(rungs, n, QUANTITY)
    ensures Notional(Take(rungs, n)) == Nearest(rungs, n, NOTIONAL)
    ensures RankWeighted(Take(rungs, n)) == Nearest(rungs, n, RANKED)
  {
    PrefixTotals(rungs, AtMost(rungs, n));
    assert Take(rungs, n) == rungs[..AtMost(rungs, n)];
  }

  // ---------- imbalances ----------

  /** The ratio of the difference of two sums to their total. */
  ghost predicate Balances(value: real, bid: real, ask: real) {
    bid > 0.0 && ask > 0.0 && value * (bid + ask) == bid - ask
  }

  lemma RatioBalances(bid: real, ask: real)
    requires bid > 0.0 && ask > 0.0
    ensures Balances(SignedRatio(bid, ask), bid, ask)
  {
  }

  lemma ImbalanceBalances(bids: seq<Rung>, asks: seq<Rung>, n: nat)
    requires TradableLadders(bids, asks) && n > 0
    ensures Balances(Imbalance(bids, asks, n), Nearest(bids, n, QUANTITY), Nearest(asks, n, QUANTITY))
    ensures Balances(NotionalImbalance(bids, asks, n), Nearest(bids, n, NOTIONAL), Nearest(asks, n, NOTIONAL))
  {
    TakeTotals(bids, n); TakeTotals(asks, n);
    TakePositive(bids, n); TakePositive(asks, n);
    SumsPositive(Take(bids, n)); SumsPositive(Take(asks, n));
    RatioBalances(Quantity(Take(bids, n)), Quantity(Take(asks, n)));
    RatioBalances(Notional(Take(bids, n)), Notional(Take(asks, n)));
  }

  lemma WeightedBalances(bids: seq<Rung>, asks: seq<Rung>)
    requires TradableLadders(bids, asks)
    ensures Balances(DistanceWeightedImbalance(bids, asks), Nearest(bids, 400, RANKED), Nearest(asks, 400, RANKED))
  {
    TakeTotals(bids, MAX_DEPTH); TakeTotals(asks, MAX_DEPTH);
    TakePositive(bids, MAX_DEPTH); TakePositive(asks, MAX_DEPTH);
    SumsPositive(Take(bids, MAX_DEPTH)); SumsPositive(Take(asks, MAX_DEPTH));
    RatioBalances(RankWeighted(Take(bids, MAX_DEPTH)), RankWeighted(Take(asks, MAX_DEPTH)));
  }

  ghost predicate BalancesAt(value: real, bids: seq<Rung>, asks: seq<Rung>, n: nat) {
    Balances(value, Nearest(bids, n, QUANTITY), Nearest(asks, n, QUANTITY))
  }

  lemma ImbalanceFields(bids: seq<Rung>, asks: seq<Rung>, f: StaticFeatures)
    requires Static(bids, asks) == Ok(f)
    ensures f.imbalanceL1 == Imbalance(bids, asks, 1) && f.imbalanceL3 == Imbalance(bids, asks, 3)
    ensures f.imbalanceL5 == Imbalance(bids, asks, 5) && f.imbalanceL10 == Imbalance(bids, asks, 10)
    ensures f.imbalanceL25 == Imbalance(bids, asks, 25) && f.imbalanceL50 == Imbalance(bids, asks, 50)
    ensures f.imbalanceL100 == Imbalance(bids, asks, 100) && f.imbalanceL200 == Imbalance(bids, asks, 200)
    ensures f.imbalanceL400 == Imbalance(bids, asks, 400) && f.notionalImbalance == NotionalImbalance(bids, asks, 400)
    ensures f.distanceWeightedImbalance == DistanceWeightedImbalance(bids, asks)
  {
  }

  /** Every imbalance field times the depth of both sides is the difference of the
      sides, over the levels its name says. */
  lemma ImbalancesMean(bids: seq<Rung>, asks: seq<Rung>, f: StaticFeatures)
    requires TradableLadders(bids, asks) && Static(bids, asks) == Ok(f)
    ensures BalancesAt(f.imbalanceL1, bids, asks, 1) && BalancesAt(f.imbalanceL3, bids, asks, 3)
    ensures BalancesAt(f.imbalanceL5, bids, asks, 5) && BalancesAt(f.imbalanceL10, bids, asks, 10)
    ensures BalancesAt(f.imbalanceL25, bids, asks, 25) && BalancesAt(f.imbalanceL50, bids, asks, 50)
    ensures BalancesAt(f.imbalanceL100, bids, asks, 100) && BalancesAt(f.imbalanceL200, bids, asks, 200)
    ensures BalancesAt(f.imbalanceL400, bids, asks, 400)
    ensures Balances(f.notionalImbalance, Nearest(bids, 400, NOTIONAL), Nearest(asks, 400, NOTIONAL))
    ensures Balances(f.distanceWeightedImbalance, Nearest(bids, 400, RANKED), Nearest(asks, 400, RANKED))
  {
    ImbalanceFields(bids, asks, f);
    forall n: nat | n > 0 ensures BalancesAt(Imbalance(bids, asks, n), bids, asks, n) {
      ImbalanceBalances(bids, asks, n);
    }
    ImbalanceBalances(bids, asks, 400);
    WeightedBalances(bids, asks);
  }

  // ---------- prices ----------

  lemma PriceFields(bids: seq<Rung>, asks: seq<Rung>, f: StaticFeatures)
    requires Static(bids, asks) == Ok(f)
    ensures bids != [] && asks != []
    ensures f.bestBid == bids[0].price && f.bestAsk == asks[0].price
    ensures f.spread == f.bestAsk - f.bestBid && f.mid == (f.bestAsk + f.bestBid) / 2.0
  {
  }

  lemma ClassicField(bids: seq<Rung>, asks: seq<Rung>, f: StaticFeatures)
    requires Static(bids, asks) == Ok(f)
    ensures bids != [] && asks != [] && bids[0].quantity + asks[0].quantity > 0.0
    ensures f.classicMicroprice == ClassicMicroprice(bids[0], asks[0])
  {
  }

  lemma ClassicMeans(f: StaticFeatures, bid: Rung, ask: Rung)
    requires bid.price < ask.price && bid.quantity > 0.0 && ask.quantity > 0.0
    requires f.bestBid == bid.price && f.spread == ask.price - bid.price
    requires f.classicMicroprice == ClassicMicroprice(bid, ask)
    ensures (f.classicMicroprice - f.bestBid) * (bid.quantity + ask.quantity) == f.spread * bid.quantity
  {
    ClassicLeans(bid, ask);
  }

  lemma Doubled(half: real, whole: real)
    requires half == whole / 2.0
    ensures 2.0 * half == whole
  {
  }

  ghost predicate PriceEquations(f: StaticFeatures, bid: Rung, ask: Rung) {
    && f.bestBid == bid.price && f.bestAsk == ask.price
    && f.spread == ask.price - bid.price && f.mid == (ask.price + bid.price) / 2.0
    && (f.classicMicroprice - f.bestBid) * (bid.quantity + ask.quantity) == f.spread * bid.quantity
    && 2.0 * f.micropriceDisplacement == f.spread * f.distanceWeightedImbalance
    && f.multiLevelMicroprice == f.mid + f.micropriceDisplacement
  }

  /** The prices of the touch, and both microprices by their equations. */
  lemma PricesMean(bids: seq<Rung>, asks: seq<Rung>, f: StaticFeatures)
    requires TradableLadders(bids, asks) && Static(bids, asks) == Ok(f)
    ensures PriceEquations(f, bids[0], asks[0])
  {
    assert bids[0] in bids && asks[0] in asks;
    PriceFields(bids, asks, f);
    ClassicField(bids, asks, f);
    StaticPrices(bids, asks, f);
    DisplacementLeans(bids, asks, f);
    EquationsFollow(f, bids[0], asks[0]);
  }

  lemma EquationsFollow(f: StaticFeatures, bid: Rung, ask: Rung)
    requires bid.price < ask.price && bid.quantity > 0.0 && ask.quantity > 0.0
    requires f.bestBid == bid.price && f.bestAsk == ask.price
    requires f.spread == ask.price - bid.price && f.mid == (ask.price + bid.price) / 2.0
    requires f.classicMicroprice == ClassicMicroprice(bid, ask)
    requires f.micropriceDisplacement == f.multiLevelMicroprice - f.mid && Leans(f)
    ensures PriceEquations(f, bid, ask)
  {
    ClassicMeans(f, bid, ask);
    Doubled(f.micropriceDisplacement, f.spread * f.distanceWeightedImbalance);
  }

  // ---------- depth ----------

  /** No further from the mid than so many basis points of it. */
  predicate InsideBps(kind: SideKind, price: real, mid: real, bps: nat) {
    (if kind.Bid? then mid - price else price - mid) * 10000.0 <= mid * (bps as real)
  }

  /** Adds the measure of every level inside, wherever it stands. */
  function SumInside(kind: SideKind, rungs: seq<Rung>, k: nat, mid: real, bps: nat, measure: Measure): real
    requires k <= |rungs|
    decreases |rungs| - k
  {
    if k == |rungs| then 0.0
    else
      (if InsideBps(kind, rungs[k].price, mid, bps) then measure(rungs[k], k) else 0.0)
      + SumInside(kind, rungs, k + 1, mid, bps, measure)
  }

  lemma InsideIsWithin(kind: SideKind, price: real, mid: real, bps: nat)
    ensures InsideBps(kind, price, mid, bps)
       <==> Within(kind, price, if kind.Bid? then BidFloor(mid, bps) else AskCeiling(mid, bps))
  {
    var x := bps as real;
    assert mid * (1.0 - x / 10000.0) * 10000.0 == mid * 10000.0 - mid * x;
    assert mid * (1.0 + x / 10000.0) * 10000.0 == mid * 10000.0 + mid * x;
  }

  lemma {:induction false} SumInsidePrefix(
    kind: SideKind, rungs: seq<Rung>, k: nat, t: nat, mid: real, bps: nat, measure: Measure)
    requires k <= |rungs| && t <= |rungs|
    requires forall i | 0 <= i < t :: InsideBps(kind, rungs[i].price, mid, bps)
    requires forall i | t <= i < |rungs| :: !InsideBps(kind, rungs[i].price, mid, bps)
    ensures SumInside(kind, rungs, k, mid, bps, measure) == if k <= t then Sum(rungs, k, t, measure) else 0.0
    decreases |rungs| - k
  {
    if k < |rungs| {
      SumInsidePrefix(kind, rungs, k + 1, t, mid, bps, measure);
    }
  }

  lemma ScanTotals(kind: SideKind, rungs: seq<Rung>, mid: real, bps: nat)
    requires SortedRungs(kind, rungs)
    ensures var taken := TakeWithin(kind, rungs, if kind.Bid? then BidFloor(mid, bps) else AskCeiling(mid, bps));
            && Quantity(taken) == SumInside(kind, rungs, 0, mid, bps, QUANTITY)
            && Notional(taken) == SumInside(kind, rungs, 0, mid, bps, NOTIONAL)
  {
    var limit := if kind.Bid? then BidFloor(mid, bps) else AskCeiling(mid, bps);
    var t := |TakeWithin(kind, rungs, limit)|;
    forall i | 0 <= i < |rungs| ensures InsideBps(kind, rungs[i].price, mid, bps) <==> i < t {
      InsideIsWithin(kind, rungs[i].price, mid, bps);
      assert i < t ==> TakeWithin(kind, rungs, limit)[i] == rungs[i];
      assert i > t ==> Better(kind, rungs[t].price, rungs[i].price);
    }
    PrefixTotals(rungs, t);
    SumInsidePrefix(kind, rungs, 0, t, mid, bps, QUANTITY);
    SumInsidePrefix(kind, rungs, 0, t, mid, bps, NOTIONAL);
  }

  ghost predicate MoveMeans(d: Depth, bids: seq<Rung>, asks: seq<Rung>, mid: real, bps: nat) {
    && d.bidQuantity == SumInside(Bid, bids, 0, mid, bps, QUANTITY)
    && d.bidNotional == SumInside(Bid, bids, 0, mid, bps, NOTIONAL)
    && d.askQuantity == SumInside(Ask, asks, 0, mid, bps, QUANTITY)
    && d.askNotional == SumInside(Ask, asks, 0, mid, bps, NOTIONAL)
  }

  lemma MovesScan(bids: seq<Rung>, asks: seq<Rung>, mid: real, bps: nat)
    requires SortedRungs(Bid, bids) && SortedRungs(Ask, asks)
    ensures MoveMeans(DepthToMove(bids, asks, mid, bps), bids, asks, mid, bps)
  {
    ScanTotals(Bid, bids, mid, bps);
    ScanTotals(Ask, asks, mid, bps);
  }

  lemma NearField(bids: seq<Rung>, asks: seq<Rung>, f: StaticFeatures)
    requires Static(bids, asks) == Ok(f)
    ensures f.nearBookDepth == NearBookDepth(bids, asks, 10)
  {
  }

  lemma MoveField1(bids: seq<Rung>, asks: seq<Rung>, f: StaticFeatures)
    requires Static(bids, asks) == Ok(f)
    ensures f.depthMove1 == DepthToMove(bids, asks, f.mid, 1)
  {
  }

  lemma MoveField2(bids: seq<Rung>, asks: seq<Rung>, f: StaticFeatures)
    requires Static(bids, asks) == Ok(f)
    ensures f.depthMove2 == DepthToMove(bids, asks, f.mid, 2)
  {
  }

  lemma MoveField5(bids: seq<Rung>, asks: seq<Rung>, f: StaticFeatures)
    requires Static(bids, asks) == Ok(f)
    ensures f.depthMove5 == DepthToMove(bids, asks, f.mid, 5)
  {
  }

  lemma MoveField10(bids: seq<Rung>, asks: seq<Rung>, f: StaticFeatures)
    requires Static(bids, asks) == Ok(f)
    ensures f.depthMove10 == DepthToMove(bids, asks, f.mid, 10)
  {
  }

  /** Each depth move adds up exactly the levels within its own basis points of the
      mid, and the near depth the ten best levels of each side. */
  lemma DepthsMean(bids: seq<Rung>, asks: seq<Rung>, f: StaticFeatures)
    requires TradableLadders(bids, asks) && Static(bids, asks) == Ok(f)
    ensures MoveMeans(f.depthMove1, bids, asks, f.mid, 1) && MoveMeans(f.depthMove2, bids, asks, f.mid, 2)
    ensures MoveMeans(f.depthMove5, bids, asks, f.mid, 5) && MoveMeans(f.depthMove10, bids, asks, f.mid, 10)
    ensures f.nearBookDepth.bidQuantity == Nearest(bids, 10, QUANTITY)
    ensures f.nearBookDepth.bidNotional == Nearest(bids, 10, NOTIONAL)
    ensures f.nearBookDepth.askQuantity == Nearest(asks, 10, QUANTITY)
    ensures f.nearBookDepth.askNotional == Nearest(asks, 10, NOTIONAL)
  {
    NearField(bids, asks, f);
    MoveField1(bids, asks, f); MoveField2(bids, asks, f);
    MoveField5(bids, asks, f); MoveField10(bids, asks, f);
    forall bps: nat ensures MoveMeans(DepthToMove(bids, asks, f.mid, bps), bids, asks, f.mid, bps) {
      MovesScan(bids, asks, f.mid, bps);
    }
    TakeTotals(bids, 10);
    TakeTotals(asks, 10);
  }

  // ---------- slopes and vacuum ----------

  lemma SlopeFields(bids: seq<Rung>, asks: seq<Rung>, f: StaticFeatures)
    requires Static(bids, asks) == Ok(f)
    ensures f.depthSlope == DepthSlope(bids, asks, f.mid, 10) && f.liquidityVacuum == LiquidityVacuum(bids, asks)
  {
  }

  lemma QuotientMeans(numerator: real, denominator: real)
    requires numerator > 0.0 && denominator > 0.0
    ensures PositiveRatio(numerator, denominator) * denominator == numerator
  {
  }

  /** The price of the tenth level, or of the last one on a shorter side. */
  function Edge(rungs: seq<Rung>): real
    requires rungs != []
  {
    rungs[AtMost(rungs, 10) - 1].price
  }

  lemma SlopeMeans(distance: real, mid: real, depth: real, slope: real)
    requires distance > 0.0 && mid > 0.0 && depth > 0.0
    requires slope == PositiveRatio(distance * 10000.0, mid * depth)
    ensures SlopeEquation(slope, distance, mid, depth)
  {
    assert mid * depth > 0.0;
    QuotientMeans(distance * 10000.0, mid * depth);
  }

  lemma EdgesOutside(bids: seq<Rung>, asks: seq<Rung>, mid: real)
    requires TradableLadders(bids, asks) && bids[0].price < mid < asks[0].price
    ensures EdgePrice(bids, 10, mid) == Edge(bids) < mid
    ensures EdgePrice(asks, 10, mid) == Edge(asks) > mid
  {
    assert Edge(bids) <= bids[0].price;
    assert Edge(asks) >= asks[0].price;
  }

  lemma DepthsPositive(rungs: seq<Rung>)
    requires PositiveRungs(rungs) && rungs != []
    ensures Quantity(Take(rungs, 10)) == Nearest(rungs, 10, QUANTITY) > 0.0
  {
    TakeTotals(rungs, 10);
    TakePositive(rungs, 10);
    SumsPositive(Take(rungs, 10));
  }

  lemma MidInside(bids: seq<Rung>, asks: seq<Rung>, f: StaticFeatures)
    requires TradableLadders(bids, asks) && Static(bids, asks) == Ok(f)
    ensures 0.0 < bids[0].price < f.mid < asks[0].price
  {
    assert bids[0] in bids;
    PriceFields(bids, asks, f);
  }

  ghost predicate SlopeEquation(slope: real, distance: real, mid: real, depth: real) {
    slope * (mid * depth) == distance * 10000.0
  }

  lemma SlopeTerms(
    bids: seq<Rung>, asks: seq<Rung>, mid: real, bidEdge: real, bidDepth: real, askEdge: real, askDepth: real)
    requires EdgePrice(bids, 10, mid) == bidEdge && Quantity(Take(bids, 10)) == bidDepth
    requires EdgePrice(asks, 10, mid) == askEdge && Quantity(Take(asks, 10)) == askDepth
    ensures DepthSlope(bids, asks, mid, 10)
         == Slope(PositiveRatio((mid - bidEdge) * 10000.0, mid * bidDepth),
                  PositiveRatio((askEdge - mid) * 10000.0, mid * askDepth))
  {
  }

  lemma SlopeOfTerms(
    slope: Slope, mid: real, bidEdge: real, bidDepth: real, askEdge: real, askDepth: real)
    requires 0.0 < mid && bidEdge < mid < askEdge && bidDepth > 0.0 && askDepth > 0.0
    requires slope == Slope(PositiveRatio((mid - bidEdge) * 10000.0, mid * bidDepth),
                            PositiveRatio((askEdge - mid) * 10000.0, mid * askDepth))
    ensures SlopeEquation(slope.bid, mid - bidEdge, mid, bidDepth)
    ensures SlopeEquation(slope.ask, askEdge - mid, mid, askDepth)
  {
    SlopeMeans(mid - bidEdge, mid, bidDepth, slope.bid);
    SlopeMeans(askEdge - mid, mid, askDepth, slope.ask);
  }

  lemma SidesSlope(bids: seq<Rung>, asks: seq<Rung>, mid: real, slope: Slope)
    requires TradableLadders(bids, asks) && 0.0 < bids[0].price < mid < asks[0].price
    requires slope == DepthSlope(bids, asks, mid, 10)
    ensures SlopeEquation(slope.bid, mid - Edge(bids), mid, Nearest(bids, 10, QUANTITY))
    ensures SlopeEquation(slope.ask, Edge(asks) - mid, mid, Nearest(asks, 10, QUANTITY))
  {
    EdgesOutside(bids, asks, mid);
    DepthsPositive(bids);
    DepthsPositive(asks);
    var bidEdge, bidDepth := Edge(bids), Nearest(bids, 10, QUANTITY);
    var askEdge, askDepth := Edge(asks), Nearest(asks, 10, QUANTITY);
    SlopeTerms(bids, asks, mid, bidEdge, bidDepth, askEdge, askDepth);
    SlopeOfTerms(slope, mid, bidEdge, bidDepth, askEdge, askDepth);
  }

  /** A slope is the distance of the edge from the mid, in basis points of the mid,
      per unit of the depth up to the edge. */
  lemma SlopesMean(bids: seq<Rung>, asks: seq<Rung>, f: StaticFeatures)
    requires TradableLadders(bids, asks) && Static(bids, asks) == Ok(f)
    ensures SlopeEquation(f.depthSlope.bid, f.mid - Edge(bids), f.mid, Nearest(bids, 10, QUANTITY))
    ensures SlopeEquation(f.depthSlope.ask, Edge(asks) - f.mid, f.mid, Nearest(asks, 10, QUANTITY))
  {
    SlopeFields(bids, asks, f);
    MidInside(bids, asks, f);
    SidesSlope(bids, asks, f.mid, f.depthSlope);
  }

  ghost predicate VacuumBy(v: real, near: real, deep: real) { (1.0 - v) * deep == near }

  ghost predicate VacuumAtLeast(v: real, near: real, deep: real) { (1.0 - v) * deep <= near }

  lemma ShareMeans(share: real, v: real, near: real, deep: real)
    requires near > 0.0 && deep > 0.0 && share == PositiveRatio(near, deep) && 1.0 - v <= share
    ensures VacuumAtLeast(v, near, deep)
    ensures 1.0 - v == share ==> VacuumBy(v, near, deep)
  {
    var rest := 1.0 - v;
    QuotientMeans(near, deep);
    ScaleOrder(rest, share, deep);
    assert share * deep == near && rest * deep <= near;
  }

  lemma NearAndDeep(rungs: seq<Rung>)
    requires PositiveRungs(rungs) && rungs != []
    ensures 0.0 < Nearest(rungs, 5, NOTIONAL) && 0.0 < Nearest(rungs, 50, NOTIONAL)
    ensures NearShare(rungs) == PositiveRatio(Nearest(rungs, 5, NOTIONAL), Nearest(rungs, 50, NOTIONAL))
  {
    TakeTotals(rungs, 5); TakeTotals(rungs, 50);
    TakePositive(rungs, 5); TakePositive(rungs, 50);
    SumsPositive(Take(rungs, 5)); SumsPositive(Take(rungs, 50));
  }

  /** One minus the vacuum is the smaller of the two sides' shares of five levels in
      fifty, by notional. */
  lemma VacuumMeans(bids: seq<Rung>, asks: seq<Rung>, f: StaticFeatures)
    requires TradableLadders(bids, asks) && Static(bids, asks) == Ok(f)
    ensures VacuumAtLeast(f.liquidityVacuum, Nearest(bids, 5, NOTIONAL), Nearest(bids, 50, NOTIONAL))
    ensures VacuumAtLeast(f.liquidityVacuum, Nearest(asks, 5, NOTIONAL), Nearest(asks, 50, NOTIONAL))
    ensures VacuumBy(f.liquidityVacuum, Nearest(bids, 5, NOTIONAL), Nearest(bids, 50, NOTIONAL))
         || VacuumBy(f.liquidityVacuum, Nearest(asks, 5, NOTIONAL), Nearest(asks, 50, NOTIONAL))
  {
    SlopeFields(bids, asks, f);
    FeaturesOfTradableBook(bids, asks);
    NearAndDeep(bids);
    NearAndDeep(asks);
    ShareMeans(NearShare(bids), f.liquidityVacuum, Nearest(bids, 5, NOTIONAL), Nearest(bids, 50, NOTIONAL));
    ShareMeans(NearShare(asks), f.liquidityVacuum, Nearest(asks, 5, NOTIONAL), Nearest(asks, 50, NOTIONAL));
  }
}
