/** What the features say: which way they lean, and when they are extreme. */
module FeatureMeaning {
  import opened Wrappers
  import opened BookTypes
  import opened BookSides
  import opened BookFeatures
  import opened RollingWindow

  // ---------- imbalances and microprices ----------

  lemma SignedRatioLeans(bid: real, ask: real)
    requires bid > 0.0 && ask > 0.0
    ensures SignedRatio(bid, ask) > 0.0 <==> bid > ask
    ensures SignedRatio(bid, ask) < 0.0 <==> bid < ask
    ensures SignedRatio(ask, bid) == -SignedRatio(bid, ask)
  {
    var r := SignedRatio(bid, ask);
    assert r * (bid + ask) == bid - ask;
    ScaleOrder(0.0, r, bid + ask);
    ScaleOrder(r, 0.0, bid + ask);
  }

  /** Every imbalance is positive exactly when the bids are heavier, negative when
      the asks are, and changes its sign when the sides are exchanged. */
  lemma ImbalancesLean(bids: seq<Rung>, asks: seq<Rung>, levels: nat)
    requires TradableLadders(bids, asks) && levels > 0
    ensures Imbalance(bids, asks, levels) > 0.0 <==> Quantity(Take(bids, levels)) > Quantity(Take(asks, levels))
    ensures Imbalance(asks, bids, levels) == -Imbalance(bids, asks, levels)
    ensures NotionalImbalance(bids, asks, levels) > 0.0 <==> Notional(Take(bids, levels)) > Notional(Take(asks, levels))
    ensures NotionalImbalance(asks, bids, levels) == -NotionalImbalance(bids, asks, levels)
    ensures DistanceWeightedImbalance(bids, asks) > 0.0
       <==> RankWeighted(Take(bids, MAX_DEPTH)) > RankWeighted(Take(asks, MAX_DEPTH))
    ensures DistanceWeightedImbalance(asks, bids) == -DistanceWeightedImbalance(bids, asks)
  {
    TakePositive(bids, levels); TakePositive(asks, levels);
    SumsPositive(Take(bids, levels)); SumsPositive(Take(asks, levels));
    SignedRatioLeans(Quantity(Take(bids, levels)), Quantity(Take(asks, levels)));
    SignedRatioLeans(Notional(Take(bids, levels)), Notional(Take(asks, levels)));
    TakePositive(bids, MAX_DEPTH); TakePositive(asks, MAX_DEPTH);
    SumsPositive(Take(bids, MAX_DEPTH)); SumsPositive(Take(asks, MAX_DEPTH));
    SignedRatioLeans(RankWeighted(Take(bids, MAX_DEPTH)), RankWeighted(Take(asks, MAX_DEPTH)));
  }

  /** The classic microprice moves from the middle towards the thinner side, and
      its distance to the bid is the bid's share of the spread. */
  lemma ClassicLeans(bid: Rung, ask: Rung)
    requires bid.price < ask.price && bid.quantity > 0.0 && ask.quantity > 0.0
    ensures var total := bid.quantity + ask.quantity;
            (ClassicMicroprice(bid, ask) - bid.price) * total == (ask.price - bid.price) * bid.quantity
    ensures ClassicMicroprice(bid, ask) > (ask.price + bid.price) / 2.0 <==> bid.quantity > ask.quantity
  {
    var total, spread := bid.quantity + ask.quantity, ask.price - bid.price;
    var price := ClassicMicroprice(bid, ask);
    assert price * total == ask.price * bid.quantity + bid.price * ask.quantity;
    DistributeLess(price, bid.price, total);
    DistributeLess(ask.price, bid.price, bid.quantity);
    assert bid.price * total == bid.price * bid.quantity + bid.price * ask.quantity;
    assert (price - bid.price) * total == spread * bid.quantity;
    ShareOfSpread(price - bid.price, spread, bid.quantity, ask.quantity);
  }

  lemma DistributeLess(a: real, b: real, c: real)
    ensures (a - b) * c == a * c - b * c
  {
  }

  lemma ShareOfSpread(x: real, spread: real, near: real, far: real)
    requires spread > 0.0 && near > 0.0 && far > 0.0 && x * (near + far) == spread * near
    ensures x > spread / 2.0 <==> near > far
  {
    var half := spread / 2.0;
    ScaleOrder(half, x, near + far);
    assert half * (near + far) == half * near + half * far;
    assert spread * near == half * near + half * near;
    ScaleOrder(far, near, half);
    assert half * near == near * half && half * far == far * half;
  }

  lemma ShiftLeans(bid: real, ask: real, imbalance: real)
    requires bid < ask
    ensures MultiLevelMicroprice(bid, ask, imbalance) - (ask + bid) / 2.0 == (ask - bid) * imbalance / 2.0
    ensures MultiLevelMicroprice(bid, ask, imbalance) > (ask + bid) / 2.0 <==> imbalance > 0.0
  {
    ScaleOrder(0.0, imbalance, ask - bid);
    assert (ask - bid) * imbalance == imbalance * (ask - bid);
  }

  lemma StaticPrices(bids: seq<Rung>, asks: seq<Rung>, f: StaticFeatures)
    requires bids != [] && asks != [] && Static(bids, asks) == Ok(f)
    ensures f.spread == asks[0].price - bids[0].price && f.mid == (asks[0].price + bids[0].price) / 2.0
    ensures f.distanceWeightedImbalance == DistanceWeightedImbalance(bids, asks)
    ensures f.multiLevelMicroprice == MultiLevelMicroprice(bids[0].price, asks[0].price, f.distanceWeightedImbalance)
    ensures f.micropriceDisplacement == f.multiLevelMicroprice - f.mid
  {
  }

  ghost predicate Leans(f: StaticFeatures) {
    && f.micropriceDisplacement == f.spread * f.distanceWeightedImbalance / 2.0
    && (f.multiLevelMicroprice > f.mid <==> f.distanceWeightedImbalance > 0.0)
  }

  lemma ShiftedLeans(f: StaticFeatures, bid: real, ask: real)
    requires bid < ask && f.spread == ask - bid && f.mid == (ask + bid) / 2.0
    requires f.multiLevelMicroprice == MultiLevelMicroprice(bid, ask, f.distanceWeightedImbalance)
    requires f.micropriceDisplacement == f.multiLevelMicroprice - f.mid
    ensures Leans(f)
  {
    ShiftLeans(bid, ask, f.distanceWeightedImbalance);
  }

  /** The multi-level microprice leans with the weighted imbalance, by half of the
      spread it takes up. */
  lemma DisplacementLeans(bids: seq<Rung>, asks: seq<Rung>, f: StaticFeatures)
    requires TradableLadders(bids, asks) && Static(bids, asks) == Ok(f)
    ensures Leans(f)
  {
    StaticPrices(bids, asks, f);
    ShiftedLeans(f, bids[0].price, asks[0].price);
  }

  // ---------- liquidity vacuum ----------

  lemma PrefixIsLess(rungs: seq<Rung>, n: nat)
    requires PositiveRungs(rungs) && n < |rungs|
    ensures Notional(rungs[..n]) < Notional(rungs)
  {
    var front, last := rungs[..|rungs| - 1], rungs[|rungs| - 1];
    assert forall rung | rung in front :: rung in rungs;
    assert front[..n] == rungs[..n];
    PrefixSums(front, n);
    assert last in rungs;
    assert last.price * last.quantity > 0.0;
  }

  lemma ShareIsWholeIff(part: real, whole: real)
    requires 0.0 < part && 0.0 < whole
    ensures PositiveRatio(part, whole) == 1.0 <==> part == whole
  {
    var q := part / whole;
    assert q * whole == part;
    assert 1.0 * whole == whole;
  }

  lemma NearShareIsWholeIff(rungs: seq<Rung>)
    requires PositiveRungs(rungs) && rungs != []
    ensures NearShare(rungs) == 1.0 <==> |rungs| <= 5
  {
    TakePositive(rungs, 5); TakePositive(rungs, 50);
    SumsPositive(Take(rungs, 5)); SumsPositive(Take(rungs, 50));
    ShareIsWholeIff(Notional(Take(rungs, 5)), Notional(Take(rungs, 50)));
    if |rungs| <= 5 {
      assert Take(rungs, 5) == rungs == Take(rungs, 50);
    } else {
      assert Take(rungs, 50)[..5] == Take(rungs, 5);
      PrefixIsLess(Take(rungs, 50), 5);
    }
  }

  /** There is no vacuum exactly when neither side has a level beyond its fifth. */
  lemma VacuumIsZeroIff(bids: seq<Rung>, asks: seq<Rung>)
    requires TradableLadders(bids, asks)
    ensures LiquidityVacuum(bids, asks) == 0.0 <==> |bids| <= 5 && |asks| <= 5
  {
    FeaturesOfTradableBook(bids, asks);
    NearShareBounded(bids);
    NearShareBounded(asks);
    NearShareIsWholeIff(bids);
    NearShareIsWholeIff(asks);
  }

  // ---------- rolling measures ----------

  /** Velocity has the sign of the imbalance change once a microsecond has passed. */
  lemma VelocityLeans(history: seq<Point>, previous: Point, current: Point)
    requires ElapsedMicros(current.receivedAt, previous.receivedAt) > 0
    ensures Velocity(history + [previous, current]) > 0.0 <==> current.imbalance > previous.imbalance
    ensures Velocity(history + [previous, current]) < 0.0 <==> current.imbalance < previous.imbalance
  {
    var all := history + [previous, current];
    assert all[|all| - 2] == previous && all[|all| - 1] == current;
    var change := (current.imbalance - previous.imbalance) * 1000000.0;
    QuotientSign(change, ElapsedMicros(current.receivedAt, previous.receivedAt) as real);
  }

  lemma QuotientSign(n: real, d: real)
    requires d > 0.0
    ensures n / d > 0.0 <==> n > 0.0
    ensures n / d < 0.0 <==> n < 0.0
    ensures n / d == 1.0 <==> n == d
  {
    var q := n / d;
    assert q * d == n;
    ScaleOrder(0.0, q, d);
    ScaleOrder(q, 0.0, d);
    assert 1.0 * d == d;
  }

  ghost predicate Unopposed(history: seq<Point>, sign: int) {
    forall p | p in history :: Sign(p.imbalance) == 0 || Sign(p.imbalance) == sign
  }

  lemma {:induction false} AllMatchIff(history: seq<Point>, sign: int)
    ensures CountMatching(history, sign) <= CountSigned(history)
    ensures CountMatching(history, sign) == CountSigned(history) <==> Unopposed(history, sign)
  {
    if history != [] {
      var front, last := history[..|history| - 1], history[|history| - 1];
      AllMatchIff(front, sign);
      assert forall p :: p in history <==> p in front || p == last by {
        assert history == front + [last];
      }
    }
  }

  /** With a signed newest observation, persistence is positive, and it is one
      exactly when no observation in the window has the opposite sign. */
  lemma PersistenceIsOneIff(history: seq<Point>)
    requires history != [] && Sign(history[|history| - 1].imbalance) != 0
    ensures Persistence(history) > 0.0
    ensures Persistence(history) == 1.0 <==> Unopposed(history, Sign(history[|history| - 1].imbalance))
  {
    var sign := Sign(history[|history| - 1].imbalance);
    AllMatchIff(history, sign);
    QuotientSign(CountMatching(history, sign) as real, CountSigned(history) as real);
  }

  ghost predicate Flat(history: seq<Point>) {
    forall i, j | 0 <= i < |history| && 0 <= j < |history| && j == i + 1 :: history[i].mid == history[j].mid
  }

  lemma ReturnIsZeroIff(previous: real, current: real)
    requires previous > 0.0
    ensures AbsoluteReturnBps(previous, current) >= 0.0
    ensures AbsoluteReturnBps(previous, current) == 0.0 <==> previous == current
  {
    QuotientSign(Abs(current - previous), previous);
  }

  lemma {:induction false} ReturnsAreZeroIff(history: seq<Point>)
    requires forall p | p in history :: p.mid > 0.0
    ensures SumReturns(history) >= 0.0
    ensures SumReturns(history) == 0.0 <==> Flat(history)
  {
    if |history| >= 2 {
      var front := history[..|history| - 1];
      assert forall p | p in front :: p in history;
      ReturnsAreZeroIff(front);
      assert history[|history| - 2] in history;
      ReturnIsZeroIff(history[|history| - 2].mid, history[|history| - 1].mid);
      assert Flat(history) <==> Flat(front) && history[|history| - 2].mid == history[|history| - 1].mid by {
        assert forall i | 0 <= i < |front| :: front[i] == history[i];
      }
    }
  }

  /** Volatility is zero exactly when the mid never moved. */
  lemma VolatilityIsZeroIff(history: seq<Point>)
    requires forall p | p in history :: p.mid > 0.0
    ensures Volatility(history) == 0.0 <==> Flat(history)
  {
    ReturnsAreZeroIff(history);
    if |history| >= 2 {
      QuotientSign(SumReturns(history), (|history| - 1) as real);
    }
  }

  // ---------- rolling measures by their equations ----------

  /** Velocity is the imbalance change per second, over the whole microseconds
      between the last two observations; without any it is zero. */
  lemma VelocityMeans(history: seq<Point>)
    ensures |history| < 2 ==> Velocity(history) == 0.0
    ensures |history| >= 2 ==>
              var previous, current := history[|history| - 2], history[|history| - 1];
              && (current.receivedAt < previous.receivedAt + 1000 ==> Velocity(history) == 0.0)
              && (previous.receivedAt + 1000 <= current.receivedAt
                  && current.receivedAt - previous.receivedAt <= U64_MAX ==>
                    Velocity(history) * (((current.receivedAt - previous.receivedAt) / 1000) as real)
                    == (current.imbalance - previous.imbalance) * 1000000.0)
  {
    if |history| >= 2 {
      var previous, current := history[|history| - 2], history[|history| - 1];
      var change := (current.imbalance - previous.imbalance) * 1000000.0;
      if previous.receivedAt + 1000 <= current.receivedAt && current.receivedAt - previous.receivedAt <= U64_MAX {
        var micros := ((current.receivedAt - previous.receivedAt) / 1000) as real;
        assert Velocity(history) == change / micros;
        QuotientTimes(change, micros);
      }
    }
  }

  lemma QuotientTimes(n: real, d: real)
    requires d != 0.0
    ensures n / d * d == n
  {
  }

  function Leaning(history: seq<Point>): set<nat> {
    set i: nat | i < |history| && history[i].imbalance != 0.0
  }

  /** The observations that lean as the newest one does. */
  function Agreeing(history: seq<Point>, newest: real): set<nat> {
    set i: nat | i < |history|
              && ((history[i].imbalance > 0.0 && newest > 0.0) || (history[i].imbalance < 0.0 && newest < 0.0))
  }

  lemma LeaningGrows(front: seq<Point>, last: Point)
    ensures |Leaning(front + [last])| == |Leaning(front)| + (if last.imbalance != 0.0 then 1 else 0)
  {
    var all := front + [last];
    assert Leaning(all) == Leaning(front) + (if last.imbalance != 0.0 then {|front|} else {});
  }

  lemma AgreeingGrows(front: seq<Point>, last: Point, newest: real)
    ensures |Agreeing(front + [last], newest)|
         == |Agreeing(front, newest)|
            + (if last.imbalance != 0.0 && Sign(last.imbalance) == Sign(newest) then 1 else 0)
  {
    var all := front + [last];
    var agrees := last.imbalance != 0.0 && Sign(last.imbalance) == Sign(newest);
    assert Agreeing(all, newest) == Agreeing(front, newest) + (if agrees then {|front|} else {});
  }

  lemma {:induction false} CountsAreSizes(history: seq<Point>, newest: real)
    ensures CountSigned(history) == |Leaning(history)|
    ensures CountMatching(history, Sign(newest)) == |Agreeing(history, newest)|
  {
    if history == [] {
      assert Leaning(history) == {} && Agreeing(history, newest) == {};
    } else {
      var front, last := history[..|history| - 1], history[|history| - 1];
      assert history == front + [last];
      CountsAreSizes(front, newest);
      LeaningGrows(front, last);
      AgreeingGrows(front, last, newest);
    }
  }

  /** Persistence is the share of the leaning observations that lean as the newest
      one does. */
  lemma PersistenceMeans(history: seq<Point>)
    ensures history == [] || Leaning(history) == {} ==> Persistence(history) == 0.0
    ensures history != [] && Leaning(history) != {} ==>
              Persistence(history) * (|Leaning(history)| as real)
              == |Agreeing(history, history[|history| - 1].imbalance)| as real
  {
    if history != [] {
      CountsAreSizes(history, history[|history| - 1].imbalance);
      if Leaning(history) != {} {
        assert |Leaning(history)| != 0;
        QuotientTimes(|Agreeing(history, history[|history| - 1].imbalance)| as real, |Leaning(history)| as real);
      }
    }
  }

  /** The absolute mid returns in basis points, oldest first, from position `k`. */
  function Returns(history: seq<Point>, k: nat): real
    requires k < |history|
    requires forall p | p in history :: p.mid > 0.0
    decreases |history| - k
  {
    if k == |history| - 1 then 0.0
    else
      var previous, current := history[k].mid, history[k + 1].mid;
      assert history[k] in history;
      (if current >= previous then current - previous else previous - current) / previous * 10000.0
      + Returns(history, k + 1)
  }

  lemma {:induction false} ReturnsSplit(history: seq<Point>, k: nat)
    requires k + 1 < |history| && forall p | p in history :: p.mid > 0.0
    ensures forall p | p in history[..|history| - 1] :: p.mid > 0.0
    ensures Returns(history, k)
         == Returns(history[..|history| - 1], k)
            + AbsoluteReturnBps(history[|history| - 2].mid, history[|history| - 1].mid)
    decreases |history| - k
  {
    var front := history[..|history| - 1];
    assert forall p | p in front :: p in history;
    assert history[k] in history;
    if k + 2 < |history| {
      ReturnsSplit(history, k + 1);
    }
  }

  lemma {:induction false} SumIsReturns(history: seq<Point>)
    requires history != [] && forall p | p in history :: p.mid > 0.0
    ensures SumReturns(history) == Returns(history, 0)
  {
    if |history| >= 2 {
      ReturnsSplit(history, 0);
      SumIsReturns(history[..|history| - 1]);
    }
  }

  /** Volatility is the mean of those returns. */
  lemma VolatilityMeans(history: seq<Point>)
    requires history != [] && forall p | p in history :: p.mid > 0.0
    ensures |history| == 1 ==> Volatility(history) == 0.0
    ensures |history| >= 2 ==> Volatility(history) * ((|history| - 1) as real) == Returns(history, 0)
  {
    SumIsReturns(history);
    if |history| >= 2 {
      QuotientTimes(SumReturns(history), (|history| - 1) as real);
    }
  }
}
