/** Features of one book, over its two ladders (levels from the touch outwards). */
module BookFeatures {
  import opened Wrappers
  import opened BookTypes
  import opened BookSides

  datatype Rung = Rung(price: real, quantity: real)

  /** A side in iteration order. */
  function Ladder(kind: SideKind, side: Side): (rungs: seq<Rung>)
    ensures |rungs| == |side|
    ensures SortedRungs(kind, rungs)
    ensures forall i | 0 <= i < |rungs| ::
              rungs[i].price in side && rungs[i].quantity == side[rungs[i].price].quantity
    ensures rungs != [] ==> rungs[0].price == Best(kind, side.Keys)
  {
    var prices := BestFirst(kind, side.Keys);
    assert forall i | 0 <= i < |prices| :: prices[i] in side;
    var rungs := seq(|prices|, i requires 0 <= i < |prices| => Rung(prices[i], side[prices[i]].quantity));
    assert |side.Keys| == |side|;
    rungs
  }

  ghost predicate SortedRungs(kind: SideKind, rungs: seq<Rung>) {
    forall i, j | 0 <= i < j < |rungs| :: Better(kind, rungs[i].price, rungs[j].price)
  }

  ghost predicate PositiveRungs(rungs: seq<Rung>) {
    forall rung | rung in rungs :: rung.price > 0.0 && rung.quantity > 0.0
  }

  function Take(rungs: seq<Rung>, levels: nat): seq<Rung> {
    if levels <= |rungs| then rungs[..levels] else rungs
  }

  function Quantity(rungs: seq<Rung>): real {
    if rungs == [] then 0.0
    else Quantity(rungs[..|rungs| - 1]) + rungs[|rungs| - 1].quantity
  }

  function Notional(rungs: seq<Rung>): real {
    if rungs == [] then 0.0
    else Notional(rungs[..|rungs| - 1]) + rungs[|rungs| - 1].price * rungs[|rungs| - 1].quantity
  }

  /** Quantities divided by their 1-based distance rank. */
  function RankWeighted(rungs: seq<Rung>): real {
    if rungs == [] then 0.0
    else RankWeighted(rungs[..|rungs| - 1]) + rungs[|rungs| - 1].quantity / (|rungs| as real)
  }

  function SignedRatio(bid: real, ask: real): real {
    if bid + ask <= 0.0 then 0.0 else (bid - ask) / (bid + ask)
  }

  function PositiveRatio(numerator: real, denominator: real): real {
    if numerator <= 0.0 || denominator <= 0.0 then 0.0 else numerator / denominator
  }

  function Min(a: real, b: real): real { if a <= b then a else b }

  function Clamp(x: real, low: real, high: real): real {
    if x < low then low else if x > high then high else x
  }

  function Imbalance(bids: seq<Rung>, asks: seq<Rung>, levels: nat): real {
    SignedRatio(Quantity(Take(bids, levels)), Quantity(Take(asks, levels)))
  }

  function NotionalImbalance(bids: seq<Rung>, asks: seq<Rung>, levels: nat): real {
    SignedRatio(Notional(Take(bids, levels)), Notional(Take(asks, levels)))
  }

  function DistanceWeightedImbalance(bids: seq<Rung>, asks: seq<Rung>): real {
    SignedRatio(RankWeighted(Take(bids, MAX_DEPTH)), RankWeighted(Take(asks, MAX_DEPTH)))
  }

  // ---------- depth to move ----------

  datatype Depth = Depth(bidQuantity: real, askQuantity: real, bidNotional: real, askNotional: real)

  predicate Within(kind: SideKind, price: real, limit: real) {
    if kind.Bid? then price >= limit else price <= limit
  }

  /** The early-exit scan of a ladder. */
  function TakeWithin(kind: SideKind, rungs: seq<Rung>, limit: real): (taken: seq<Rung>)
    ensures |taken| <= |rungs| && taken == rungs[..|taken|]
    ensures forall rung | rung in taken :: Within(kind, rung.price, limit)
    ensures |taken| < |rungs| ==> !Within(kind, rungs[|taken|].price, limit)
  {
    if rungs == [] || !Within(kind, rungs[0].price, limit) then []
    else
      var rest := TakeWithin(kind, rungs[1..], limit);
      assert [rungs[0]] + rest == rungs[..|rest| + 1];
      [rungs[0]] + rest
  }

  function BidFloor(mid: real, basisPoints: nat): real {
    mid * (1.0 - (basisPoints as real) / 10000.0)
  }

  function AskCeiling(mid: real, basisPoints: nat): real {
    mid * (1.0 + (basisPoints as real) / 10000.0)
  }

  function DepthToMove(bids: seq<Rung>, asks: seq<Rung>, mid: real, basisPoints: nat): Depth {
    var bid := TakeWithin(Bid, bids, BidFloor(mid, basisPoints));
    var ask := TakeWithin(Ask, asks, AskCeiling(mid, basisPoints));
    Depth(Quantity(bid), Quantity(ask), Notional(bid), Notional(ask))
  }

  function NearBookDepth(bids: seq<Rung>, asks: seq<Rung>, levels: nat): Depth {
    Depth(Quantity(Take(bids, levels)), Quantity(Take(asks, levels)),
          Notional(Take(bids, levels)), Notional(Take(asks, levels)))
  }

  // ---------- slope and vacuum ----------

  datatype Slope = Slope(bid: real, ask: real)

  /** The rung at the requested rank, the last one of a shorter ladder, or the
      fallback price of an empty one. */
  function EdgePrice(rungs: seq<Rung>, levels: nat, fallback: real): real {
    var rank := if levels == 0 then 0 else levels - 1;
    if rank < |rungs| then rungs[rank].price
    else if rungs != [] then rungs[|rungs| - 1].price
    else fallback
  }

  function DepthSlope(bids: seq<Rung>, asks: seq<Rung>, mid: real, levels: nat): Slope {
    Slope(
      PositiveRatio((mid - EdgePrice(bids, levels, mid)) * 10000.0, mid * Quantity(Take(bids, levels))),
      PositiveRatio((EdgePrice(asks, levels, mid) - mid) * 10000.0, mid * Quantity(Take(asks, levels))))
  }

  function NearShare(rungs: seq<Rung>): real {
    PositiveRatio(Notional(Take(rungs, 5)), Notional(Take(rungs, 50)))
  }

  function LiquidityVacuum(bids: seq<Rung>, asks: seq<Rung>): real {
    Clamp(1.0 - Min(NearShare(bids), NearShare(asks)), 0.0, 1.0)
  }

  // ---------- the static part of a feature snapshot ----------

  datatype StaticFeatures = StaticFeatures(
    bestBid: real, bestAsk: real, mid: real, spread: real,
    classicMicroprice: real, multiLevelMicroprice: real, micropriceDisplacement: real,
    imbalanceL1: real, imbalanceL3: real, imbalanceL5: real, imbalanceL10: real, imbalanceL25: real,
    imbalanceL50: real, imbalanceL100: real, imbalanceL200: real, imbalanceL400: real,
    distanceWeightedImbalance: real, notionalImbalance: real,
    nearBookDepth: Depth, depthMove1: Depth, depthMove2: Depth, depthMove5: Depth, depthMove10: Depth,
    depthSlope: Slope, liquidityVacuum: real)

  function ClassicMicroprice(bid: Rung, ask: Rung): real
    requires bid.quantity + ask.quantity != 0.0
  {
    (ask.price * bid.quantity + bid.price * ask.quantity) / (bid.quantity + ask.quantity)
  }

  function MultiLevelMicroprice(bid: real, ask: real, imbalance: real): real {
    (ask + bid) / 2.0 + (ask - bid) * imbalance / 2.0
  }

  function Static(bids: seq<Rung>, asks: seq<Rung>): Result<StaticFeatures, BookError> {
    if bids == [] || asks == [] then Err(EmptySide)
    else if bids[0].quantity + asks[0].quantity <= 0.0 then Err(ZeroDenominator)
    else
      var bid, ask := bids[0].price, asks[0].price;
      var mid := (ask + bid) / 2.0;
      var weighted := DistanceWeightedImbalance(bids, asks);
      Ok(StaticFeatures(
        bid, ask, mid, ask - bid,
        ClassicMicroprice(bids[0], asks[0]),
        MultiLevelMicroprice(bid, ask, weighted),
        MultiLevelMicroprice(bid, ask, weighted) - mid,
        Imbalance(bids, asks, 1), Imbalance(bids, asks, 3), Imbalance(bids, asks, 5),
        Imbalance(bids, asks, 10), Imbalance(bids, asks, 25), Imbalance(bids, asks, 50),
        Imbalance(bids, asks, 100), Imbalance(bids, asks, 200), Imbalance(bids, asks, 400),
        weighted, NotionalImbalance(bids, asks, MAX_DEPTH),
        NearBookDepth(bids, asks, 10),
        DepthToMove(bids, asks, mid, 1), DepthToMove(bids, asks, mid, 2),
        DepthToMove(bids, asks, mid, 5), DepthToMove(bids, asks, mid, 10),
        DepthSlope(bids, asks, mid, 10),
        LiquidityVacuum(bids, asks)))
  }

  // ---------- bounds ----------

  lemma ScaleOrder(a: real, b: real, d: real)
    requires d > 0.0
    ensures a <= b <==> a * d <= b * d
    ensures a < b <==> a * d < b * d
  {
    if a < b {
      assert (b - a) * d > 0.0;
    } else {
      assert (a - b) * d >= 0.0;
      assert a > b ==> (a - b) * d > 0.0;
    }
  }

  lemma BelowOne(q: real, d: real)
    requires d > 0.0
    ensures q <= 1.0 <==> q * d <= d
    ensures q < 1.0 <==> q * d < d
  {
    ScaleOrder(q, 1.0, d);
    ScaleOrder(1.0, q, d);
    var whole := 1.0 * d;
    assert whole == d;
  }

  lemma AboveMinusOne(q: real, d: real)
    requires d > 0.0
    ensures q > -1.0 <==> q * d > -d
  {
    ScaleOrder(-1.0, q, d);
  }

  lemma ScaledWithin(q: real, d: real) returns (scaled: real)
    requires d > 0.0 && -1.0 < q < 1.0
    ensures scaled == q * d
    ensures -d < scaled < d
  {
    scaled := q * d;
    BelowOne(q, d);
    AboveMinusOne(q, d);
  }

  lemma DivideBetween(n: real, d: real, low: real, high: real)
    requires d > 0.0 && low * d < n < high * d
    ensures low < n / d < high
  {
    var q := n / d;
    assert q * d == n;
    ScaleOrder(low, q, d);
    ScaleOrder(q, high, d);
  }

  lemma SignedRatioBounded(bid: real, ask: real)
    requires bid > 0.0 && ask > 0.0
    ensures -1.0 < SignedRatio(bid, ask) < 1.0
  {
    DivideBetween(bid - ask, bid + ask, -1.0, 1.0);
  }

  lemma {:induction false} SumsPositive(rungs: seq<Rung>)
    requires PositiveRungs(rungs)
    ensures rungs != [] ==> Quantity(rungs) > 0.0 && Notional(rungs) > 0.0 && RankWeighted(rungs) > 0.0
  {
    if rungs != [] {
      var front, last := rungs[..|rungs| - 1], rungs[|rungs| - 1];
      assert last in rungs;
      assert forall rung | rung in front :: rung in rungs;
      SumsPositive(front);
      assert last.price * last.quantity > 0.0;
    }
  }

  lemma TakePositive(rungs: seq<Rung>, levels: nat)
    requires PositiveRungs(rungs) && rungs != [] && levels > 0
    ensures PositiveRungs(Take(rungs, levels)) && Take(rungs, levels) != []
  {
    assert forall rung | rung in Take(rungs, levels) :: rung in rungs;
  }

  lemma ClassicBetween(bid: Rung, ask: Rung)
    requires bid.price < ask.price && bid.quantity > 0.0 && ask.quantity > 0.0
    ensures bid.price < ClassicMicroprice(bid, ask) < ask.price
  {
    var n := ask.price * bid.quantity + bid.price * ask.quantity;
    var d := bid.quantity + ask.quantity;
    assert bid.price * bid.quantity < ask.price * bid.quantity;
    assert bid.price * ask.quantity < ask.price * ask.quantity;
    assert bid.price * d == bid.price * bid.quantity + bid.price * ask.quantity;
    assert ask.price * d == ask.price * bid.quantity + ask.price * ask.quantity;
    DivideBetween(n, d, bid.price, ask.price);
  }

  lemma MultiLevelBetween(bid: real, ask: real, imbalance: real)
    requires bid < ask && -1.0 < imbalance < 1.0
    ensures bid < MultiLevelMicroprice(bid, ask, imbalance) < ask
  {
    var spread := ask - bid;
    var shift := ScaledWithin(imbalance, spread);
    assert MultiLevelMicroprice(bid, ask, imbalance) == (ask + bid) / 2.0 + shift / 2.0;
  }

  /** What every uncrossed book with positive stored levels guarantees. */
  ghost predicate TradableLadders(bids: seq<Rung>, asks: seq<Rung>) {
    && bids != [] && asks != []
    && SortedRungs(Bid, bids) && SortedRungs(Ask, asks)
    && PositiveRungs(bids) && PositiveRungs(asks)
    && bids[0].price < asks[0].price
  }

  lemma ImbalancesBounded(bids: seq<Rung>, asks: seq<Rung>, levels: nat)
    requires TradableLadders(bids, asks) && levels > 0
    ensures -1.0 < Imbalance(bids, asks, levels) < 1.0
    ensures -1.0 < NotionalImbalance(bids, asks, levels) < 1.0
    ensures -1.0 < DistanceWeightedImbalance(bids, asks) < 1.0
  {
    TakePositive(bids, levels); TakePositive(asks, levels);
    SumsPositive(Take(bids, levels)); SumsPositive(Take(asks, levels));
    SignedRatioBounded(Quantity(Take(bids, levels)), Quantity(Take(asks, levels)));
    SignedRatioBounded(Notional(Take(bids, levels)), Notional(Take(asks, levels)));
    TakePositive(bids, MAX_DEPTH); TakePositive(asks, MAX_DEPTH);
    SumsPositive(Take(bids, MAX_DEPTH)); SumsPositive(Take(asks, MAX_DEPTH));
    SignedRatioBounded(RankWeighted(Take(bids, MAX_DEPTH)), RankWeighted(Take(asks, MAX_DEPTH)));
  }

  lemma {:induction false} PrefixSums(rungs: seq<Rung>, n: nat)
    requires PositiveRungs(rungs) && n <= |rungs|
    ensures Quantity(rungs[..n]) <= Quantity(rungs)
    ensures Notional(rungs[..n]) <= Notional(rungs)
  {
    if n < |rungs| {
      var front := rungs[..|rungs| - 1];
      assert forall rung | rung in front :: rung in rungs;
      assert front[..n] == rungs[..n];
      PrefixSums(front, n);
      var last := rungs[|rungs| - 1];
      assert last in rungs;
      assert last.price * last.quantity > 0.0;
    } else {
      assert rungs[..n] == rungs;
    }
  }

  /** The five-level prefix never exceeds the fifty-level one. */
  lemma NearShareBounded(rungs: seq<Rung>)
    requires PositiveRungs(rungs) && rungs != []
    ensures 0.0 < NearShare(rungs) <= 1.0
  {
    TakePositive(rungs, 5); TakePositive(rungs, 50);
    SumsPositive(Take(rungs, 5)); SumsPositive(Take(rungs, 50));
    var deep := Take(rungs, 50);
    var n := |Take(rungs, 5)|;
    assert deep[..n] == Take(rungs, 5);
    PrefixSums(deep, n);
    var near, total := Notional(Take(rungs, 5)), Notional(deep);
    assert near <= total;
    PositiveQuotient(near, total);
    ShareAtMostOne(near, total);
  }

  lemma ShareAtMostOne(part: real, whole: real)
    requires 0.0 < part <= whole
    ensures PositiveRatio(part, whole) <= 1.0
  {
    var q := part / whole;
    assert q * whole == part;
    BelowOne(q, whole);
  }

  lemma PositiveQuotient(numerator: real, denominator: real)
    requires numerator > 0.0 && denominator > 0.0
    ensures PositiveRatio(numerator, denominator) > 0.0
  {
    var q := numerator / denominator;
    assert q * denominator == numerator;
    ScaleOrder(0.0, q, denominator);
  }

  lemma SlopesPositive(bids: seq<Rung>, asks: seq<Rung>, mid: real, levels: nat)
    requires TradableLadders(bids, asks) && levels > 0
    requires bids[0].price < mid < asks[0].price
    ensures DepthSlope(bids, asks, mid, levels).bid > 0.0
    ensures DepthSlope(bids, asks, mid, levels).ask > 0.0
  {
    TakePositive(bids, levels); TakePositive(asks, levels);
    SumsPositive(Take(bids, levels)); SumsPositive(Take(asks, levels));
    assert bids[0] in bids;
    var bq, aq := Quantity(Take(bids, levels)), Quantity(Take(asks, levels));
    assert mid * bq > 0.0;
    assert mid * aq > 0.0;
    assert EdgePrice(bids, levels, mid) <= bids[0].price;
    assert EdgePrice(asks, levels, mid) >= asks[0].price;
    PositiveQuotient((mid - EdgePrice(bids, levels, mid)) * 10000.0, mid * bq);
    PositiveQuotient((EdgePrice(asks, levels, mid) - mid) * 10000.0, mid * aq);
  }

  ghost predicate OpenUnit(x: real) { -1.0 < x < 1.0 }

  /** Every bound the features of a valid book satisfy. */
  ghost predicate FeatureBounds(f: StaticFeatures) {
    && f.bestBid < f.mid < f.bestAsk && f.spread == f.bestAsk - f.bestBid
    && f.bestBid < f.classicMicroprice < f.bestAsk
    && f.bestBid < f.multiLevelMicroprice < f.bestAsk
    && OpenUnit(f.imbalanceL1) && OpenUnit(f.imbalanceL3) && OpenUnit(f.imbalanceL5)
    && OpenUnit(f.imbalanceL10) && OpenUnit(f.imbalanceL25) && OpenUnit(f.imbalanceL50)
    && OpenUnit(f.imbalanceL100) && OpenUnit(f.imbalanceL200) && OpenUnit(f.imbalanceL400)
    && OpenUnit(f.distanceWeightedImbalance) && OpenUnit(f.notionalImbalance)
    && f.depthSlope.bid > 0.0 && f.depthSlope.ask > 0.0
    && 0.0 <= f.liquidityVacuum < 1.0
  }

  /** On a tradable book no feature can fail, and every bound holds; the clamp
      of the liquidity vacuum is then the identity. */
  lemma FeaturesOfTradableBook(bids: seq<Rung>, asks: seq<Rung>)
    requires TradableLadders(bids, asks)
    ensures Static(bids, asks).Ok?
    ensures FeatureBounds(Static(bids, asks).value)
    ensures LiquidityVacuum(bids, asks) == 1.0 - Min(NearShare(bids), NearShare(asks))
  {
    assert bids[0] in bids && asks[0] in asks;
    var bid, ask := bids[0].price, asks[0].price;
    ClassicBetween(bids[0], asks[0]);
    forall levels: nat | levels > 0
      ensures OpenUnit(Imbalance(bids, asks, levels))
    {
      ImbalancesBounded(bids, asks, levels);
    }
    ImbalancesBounded(bids, asks, MAX_DEPTH);
    MultiLevelBetween(bid, ask, DistanceWeightedImbalance(bids, asks));
    SlopesPositive(bids, asks, (ask + bid) / 2.0, 10);
    NearShareBounded(bids);
    NearShareBounded(asks);
  }

  // ---------- the early exit is exact and monotone ----------

  function AllWithin(kind: SideKind, rungs: seq<Rung>, limit: real): seq<Rung> {
    if rungs == [] then []
    else (if Within(kind, rungs[0].price, limit) then [rungs[0]] else []) + AllWithin(kind, rungs[1..], limit)
  }

  lemma {:induction false} NoneWithin(kind: SideKind, rungs: seq<Rung>, limit: real)
    requires forall rung | rung in rungs :: !Within(kind, rung.price, limit)
    ensures AllWithin(kind, rungs, limit) == []
  {
    if rungs != [] {
      assert rungs[0] in rungs;
      NoneWithin(kind, rungs[1..], limit);
    }
  }

  /** Stopping at the first level outside the threshold loses nothing. */
  lemma {:induction false} EarlyExitIsExact(kind: SideKind, rungs: seq<Rung>, limit: real)
    requires SortedRungs(kind, rungs)
    ensures TakeWithin(kind, rungs, limit) == AllWithin(kind, rungs, limit)
  {
    if rungs != [] {
      if Within(kind, rungs[0].price, limit) {
        EarlyExitIsExact(kind, rungs[1..], limit);
      } else {
        assert forall i | 0 < i < |rungs| :: Better(kind, rungs[0].price, rungs[i].price);
        NoneWithin(kind, rungs, limit);
      }
    }
  }

  lemma TakeWithinGrows(kind: SideKind, rungs: seq<Rung>, tight: real, loose: real)
    requires PositiveRungs(rungs)
    requires if kind.Bid? then loose <= tight else tight <= loose
    ensures Quantity(TakeWithin(kind, rungs, tight)) <= Quantity(TakeWithin(kind, rungs, loose))
    ensures Notional(TakeWithin(kind, rungs, tight)) <= Notional(TakeWithin(kind, rungs, loose))
  {
    var small, large := TakeWithin(kind, rungs, tight), TakeWithin(kind, rungs, loose);
    assert |small| > |large| ==> Within(kind, small[|large|].price, tight);
    assert forall rung | rung in large :: rung in rungs;
    assert small == large[..|small|];
    PrefixSums(large, |small|);
  }

  lemma ThresholdsWiden(mid: real, narrow: nat, wide: nat)
    requires mid >= 0.0 && narrow <= wide
    ensures BidFloor(mid, wide) <= BidFloor(mid, narrow)
    ensures AskCeiling(mid, narrow) <= AskCeiling(mid, wide)
  {
    var f, g := (narrow as real) / 10000.0, (wide as real) / 10000.0;
    if mid > 0.0 {
      ScaleOrder(1.0 - g, 1.0 - f, mid);
      ScaleOrder(1.0 + f, 1.0 + g, mid);
    }
  }

  /** A wider price move never meets less depth. */
  lemma DepthToMoveIsMonotone(bids: seq<Rung>, asks: seq<Rung>, mid: real, narrow: nat, wide: nat)
    requires PositiveRungs(bids) && PositiveRungs(asks) && mid >= 0.0 && narrow <= wide
    ensures var a, b := DepthToMove(bids, asks, mid, narrow), DepthToMove(bids, asks, mid, wide);
            a.bidQuantity <= b.bidQuantity && a.askQuantity <= b.askQuantity
            && a.bidNotional <= b.bidNotional && a.askNotional <= b.askNotional
  {
    ThresholdsWiden(mid, narrow, wide);
    TakeWithinGrows(Bid, bids, BidFloor(mid, narrow), BidFloor(mid, wide));
    TakeWithinGrows(Ask, asks, AskCeiling(mid, narrow), AskCeiling(mid, wide));
  }
}
