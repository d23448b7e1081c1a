/** What an event does to the replay book and what it counts, stated on the rows. */
module ReplayOutcomes {
  import opened Wrappers
  import opened BookTypes
  import opened BookSides
  import opened BookFeatures
  import opened ReplayBook

  // ---------- the rows of one side ----------

  ghost predicate Repeats(rows: seq<Level>, i: int)
    requires 0 <= i < |rows|
  {
    exists j :: 0 <= j < i && rows[j].price == rows[i].price
  }

  ghost predicate WellMade(row: Level) { row.price > 0.0 && row.quantity >= 0.0 }

  /** Only the first row of a price counts, and only when it is well made. */
  ghost predicate Effective(rows: seq<Level>, i: int)
    requires 0 <= i < |rows|
  {
    !Repeats(rows, i) && WellMade(rows[i])
  }

  ghost predicate Touches(rows: seq<Level>, p: real) {
    exists i :: 0 <= i < |rows| && Effective(rows, i) && rows[i].price == p
  }

  /** `after` holds what the effective rows say, and `before` everywhere else. */
  ghost predicate Applies(before: Side, rows: seq<Level>, after: Side) {
    && (forall i | 0 <= i < |rows| && Effective(rows, i) ::
          if rows[i].quantity == 0.0 then rows[i].price !in after
          else rows[i].price in after && after[rows[i].price] == BookLevel(rows[i].quantity, rows[i].orderCount))
    && (forall p | !Touches(rows, p) :: p in after <==> p in before)
    && (forall p | !Touches(rows, p) && p in before && p in after :: after[p] == before[p])
  }

  ghost function Duplicates(rows: seq<Level>): set<nat> {
    set i: nat | i < |rows| && Repeats(rows, i)
  }

  ghost function Invalids(rows: seq<Level>): set<nat> {
    set i: nat | i < |rows| && !Repeats(rows, i) && !WellMade(rows[i])
  }

  ghost function Unknowns(before: Side, rows: seq<Level>): set<nat> {
    set i: nat | i < |rows| && Effective(rows, i) && rows[i].quantity == 0.0 && rows[i].price !in before
  }

  lemma RepeatsStay(front: seq<Level>, row: Level, i: nat)
    requires i < |front|
    ensures Repeats(front + [row], i) <==> Repeats(front, i)
    ensures (front + [row])[i] == front[i]
  {
    var rows := front + [row];
    assert forall j | 0 <= j <= i :: rows[j] == front[j];
  }

  lemma RepeatsAtEnd(front: seq<Level>, row: Level)
    ensures Repeats(front + [row], |front|) <==> row.price in Prices(front)
  {
    var rows := front + [row];
    assert rows[|front|] == row && forall j | 0 <= j < |front| :: rows[j] == front[j];
    if row.price in Prices(front) {
      var level :| level in front && level.price == row.price;
      var j :| 0 <= j < |front| && front[j] == level;
      assert rows[j].price == rows[|front|].price;
    }
  }

  lemma PositionsStay(front: seq<Level>, row: Level)
    ensures forall i: nat | i < |front| ::
              (Repeats(front + [row], i) <==> Repeats(front, i)) && (front + [row])[i] == front[i]
  {
    forall i: nat | i < |front|
      ensures (Repeats(front + [row], i) <==> Repeats(front, i)) && (front + [row])[i] == front[i]
    {
      RepeatsStay(front, row, i);
    }
  }

  lemma DuplicatesGrow(front: seq<Level>, row: Level)
    ensures |Duplicates(front + [row])| == |Duplicates(front)| + Flag(row.price in Prices(front))
  {
    PositionsStay(front, row);
    RepeatsAtEnd(front, row);
    assert Duplicates(front + [row]) == Duplicates(front) + (if row.price in Prices(front) then {|front|} else {});
  }

  lemma InvalidsGrow(front: seq<Level>, row: Level)
    ensures |Invalids(front + [row])| == |Invalids(front)| + Flag(row.price !in Prices(front) && !WellMade(row))
  {
    PositionsStay(front, row);
    RepeatsAtEnd(front, row);
    assert Invalids(front + [row])
        == Invalids(front) + (if row.price !in Prices(front) && !WellMade(row) then {|front|} else {});
  }

  lemma UnknownsGrow(before: Side, front: seq<Level>, row: Level)
    ensures |Unknowns(before, front + [row])|
         == |Unknowns(before, front)|
            + Flag(row.price !in Prices(front) && WellMade(row) && row.quantity == 0.0 && row.price !in before)
  {
    PositionsStay(front, row);
    RepeatsAtEnd(front, row);
    var counts := row.price !in Prices(front) && WellMade(row) && row.quantity == 0.0 && row.price !in before;
    assert Unknowns(before, front + [row]) == Unknowns(before, front) + (if counts then {|front|} else {});
  }

  lemma TouchesGrow(front: seq<Level>, row: Level, p: real)
    ensures Touches(front + [row], p)
       <==> Touches(front, p) || (row.price !in Prices(front) && WellMade(row) && row.price == p)
  {
    var rows := front + [row];
    RepeatsAtEnd(front, row);
    forall i: nat | i < |front| ensures (Effective(rows, i) <==> Effective(front, i)) && rows[i] == front[i] {
      RepeatsStay(front, row, i);
    }
    if Touches(front, p) {
      var i :| 0 <= i < |front| && Effective(front, i) && front[i].price == p;
      assert Effective(rows, i) && rows[i].price == p;
    }
    if row.price !in Prices(front) && WellMade(row) && row.price == p {
      assert Effective(rows, |front|) && rows[|front|].price == p;
    }
  }

  lemma UntouchedWhenNew(front: seq<Level>, p: real)
    requires p !in Prices(front)
    ensures !Touches(front, p)
  {
    forall i | 0 <= i < |front| ensures front[i].price != p {
      assert front[i] in front;
    }
  }

  /** The side after one more row. */
  function Moved(side: Side, row: Level, counts: bool): Side {
    if !counts then side
    else if row.quantity == 0.0 then side - {row.price}
    else side[row.price := BookLevel(row.quantity, row.orderCount)]
  }

  lemma AppliesGrow(before: Side, front: seq<Level>, row: Level, side: Side)
    requires Applies(before, front, side)
    ensures Applies(before, front + [row], Moved(side, row, row.price !in Prices(front) && WellMade(row)))
  {
    var rows, counts := front + [row], row.price !in Prices(front) && WellMade(row);
    var after := Moved(side, row, counts);
    RepeatsAtEnd(front, row);
    forall i | 0 <= i < |rows| && Effective(rows, i)
      ensures if rows[i].quantity == 0.0 then rows[i].price !in after
              else rows[i].price in after && after[rows[i].price] == BookLevel(rows[i].quantity, rows[i].orderCount)
    {
      if i < |front| {
        RepeatsStay(front, row, i);
        assert front[i] in front;
      }
    }
    forall p | !Touches(rows, p)
      ensures p in after <==> p in before
      ensures p in before && p in after ==> after[p] == before[p]
    {
      TouchesGrow(front, row, p);
    }
  }

  lemma RowMoves(done: SideCount, seen: set<real>, row: Level)
    ensures var next, counts := CountRow(done, seen, row), row.price !in seen && WellMade(row);
            && next.side == Moved(done.side, row, counts)
            && next.duplicate == done.duplicate + Flag(row.price in seen)
            && next.invalid == done.invalid + Flag(row.price !in seen && !WellMade(row))
            && next.unknown == done.unknown + Flag(counts && row.quantity == 0.0 && row.price !in done.side)
  {
    if row.price !in done.side {
      assert done.side - {row.price} == done.side;
    }
  }

  ghost predicate Means(before: Side, rows: seq<Level>, done: SideCount) {
    && Applies(before, rows, done.side)
    && done.duplicate == |Duplicates(rows)| && done.invalid == |Invalids(rows)|
    && done.unknown == |Unknowns(before, rows)|
  }

  lemma MeaningGrows(before: Side, front: seq<Level>, row: Level, done: SideCount, rows: seq<Level>, next: SideCount)
    requires Means(before, front, done) && rows == front + [row] && next == CountRow(done, Prices(front), row)
    ensures Means(before, rows, next)
  {
    RowMoves(done, Prices(front), row);
    DuplicatesGrow(front, row);
    InvalidsGrow(front, row);
    UnknownsGrow(before, front, row);
    AppliesGrow(before, front, row, done.side);
    if row.price !in Prices(front) {
      UntouchedWhenNew(front, row.price);
    }
  }

  /** The lenient loop: repeated rows, ill-made first rows and removals of unknown
      prices are counted, and the effective rows are applied. */
  lemma {:induction false} RowsMean(before: Side, rows: seq<Level>)
    ensures Means(before, rows, CountSide(before, rows))
  {
    if rows == [] {
      assert Duplicates(rows) == {} && Invalids(rows) == {} && Unknowns(before, rows) == {};
    } else {
      var front, row := rows[..|rows| - 1], rows[|rows| - 1];
      assert rows == front + [row];
      RowsMean(before, front);
      MeaningGrows(before, front, row, CountSide(before, front), rows, CountSide(before, rows));
    }
  }

  // ---------- one event ----------

  ghost predicate InOrder(kind: SideKind, rows: seq<Level>) {
    forall i, j | 0 <= i < j < |rows| ::
      if kind.Bid? then rows[i].price > rows[j].price else rows[i].price < rows[j].price
  }

  lemma {:induction false} AdjacentIsOrdered(kind: SideKind, rows: seq<Level>)
    ensures StrictlyOrdered(kind, rows) <==> InOrder(kind, rows)
  {
    if |rows| >= 2 {
      var front, n := rows[..|rows| - 1], |rows| - 1;
      AdjacentIsOrdered(kind, front);
      assert forall i | 0 <= i < n :: front[i] == rows[i];
      if StrictlyOrdered(kind, rows) {
        assert StrictlyOrdered(kind, front);
        assert Better(kind, rows[n - 1].price, rows[n].price);
        assert forall i | 0 <= i < n :: i == n - 1 || Better(kind, front[i].price, front[n - 1].price);
      }
    }
  }

  /** The sides an event starts from. */
  function Before(s: ReplayState, m: Message, kind: SideKind): Side {
    if m.action == Snapshot then map[] else if kind.Bid? then s.bids else s.asks
  }

  lemma CrossedIff(bids: Side, asks: Side)
    ensures IsCrossed(bids, asks) <==> exists b, a :: b in bids && a in asks && b >= a
  {
    if bids != map[] && asks != map[] {
      var bid, ask := Best(Bid, bids.Keys), Best(Ask, asks.Keys);
      assert bid in bids && ask in asks;
      if b, a :| b in bids && a in asks && b >= a {
        assert bid >= b && ask <= a;
      }
    }
  }

  /** What an event of the book's own instrument does to the sides, and the row
      anomalies it counts over both. */
  lemma RowCountersMean(s: ReplayState, m: Message, epoch: nat, sequenceId: Option<int>, t: ReplayState, c: Counters)
    requires m.instrumentId == s.instrumentId && ReplayStep(s, m, epoch, sequenceId) == ReplayTransition(t, Ok(c))
    ensures Applies(Before(s, m, Bid), m.bids, t.bids) && Applies(Before(s, m, Ask), m.asks, t.asks)
    ensures c.duplicateLevels == |Duplicates(m.asks)| + |Duplicates(m.bids)|
    ensures c.invalidLevels == |Invalids(m.asks)| + |Invalids(m.bids)|
    ensures c.unknownRemovals == |Unknowns(Before(s, m, Ask), m.asks)| + |Unknowns(Before(s, m, Bid), m.bids)|
  {
    RowsMean(Before(s, m, Bid), m.bids);
    RowsMean(Before(s, m, Ask), m.asks);
    CountedSides(s, m, epoch, sequenceId, t, c);
  }

  lemma CountedSides(s: ReplayState, m: Message, epoch: nat, sequenceId: Option<int>, t: ReplayState, c: Counters)
    requires m.instrumentId == s.instrumentId && ReplayStep(s, m, epoch, sequenceId) == ReplayTransition(t, Ok(c))
    ensures var asks, bids := CountSide(Before(s, m, Ask), m.asks), CountSide(Before(s, m, Bid), m.bids);
            && t.bids == bids.side && t.asks == asks.side
            && c.duplicateLevels == asks.duplicate + bids.duplicate && c.invalidLevels == asks.invalid + bids.invalid
            && c.unknownRemovals == asks.unknown + bids.unknown
  {
  }

  /** The conditions of the event and of the resulting book, each counted once, and
      what the book records of the event. */
  lemma EventCountersMean(s: ReplayState, m: Message, epoch: nat, sequenceId: Option<int>, t: ReplayState, c: Counters)
    requires m.instrumentId == s.instrumentId && ReplayStep(s, m, epoch, sequenceId) == ReplayTransition(t, Ok(c))
    ensures c.nonMonotonicSnapshotSides
         == if m.action == Snapshot then Flag(!InOrder(Ask, m.asks)) + Flag(!InOrder(Bid, m.bids)) else 0
    ensures c.updateBeforeSnapshot == Flag(m.action == Update && !s.hasSnapshot)
    ensures c.depthOverflow == Flag(|t.bids| > 400 || |t.asks| > 400)
    ensures c.emptySides == Flag(t.bids == map[] || t.asks == map[])
    ensures c.crossed == Flag(exists b, a :: b in t.bids && a in t.asks && b >= a)
    ensures t.hasSnapshot <==> m.action == Snapshot || s.hasSnapshot
    ensures t.sequenceEpoch == Some(epoch) && t.sequenceId == sequenceId && t.instrumentId == s.instrumentId
  {
    AdjacentIsOrdered(Ask, m.asks);
    AdjacentIsOrdered(Bid, m.bids);
    CrossedIff(t.bids, t.asks);
  }

  /** An event of another instrument is refused and changes nothing. */
  lemma ForeignRefused(s: ReplayState, m: Message, epoch: nat, sequenceId: Option<int>)
    ensures ReplayStep(s, m, epoch, sequenceId).result.Ok? <==> m.instrumentId == s.instrumentId
    ensures m.instrumentId != s.instrumentId ==>
              ReplayStep(s, m, epoch, sequenceId)
              == ReplayTransition(s, Err(InstrumentMismatch(s.instrumentId, m.instrumentId)))
  {
  }

  /** After an event the book is trusted exactly when a snapshot opened it or trust
      was held, no row was repeated or ill made, a snapshot's rows were in order, and
      the book is two-sided, uncrossed and within 400 levels. Unknown removals do not
      matter. */
  lemma TrustedIff(s: ReplayState, m: Message, epoch: nat, sequenceId: Option<int>)
    requires m.instrumentId == s.instrumentId
    ensures var t := ReplayStep(s, m, epoch, sequenceId).state;
            t.trusted <==>
              && (m.action == Snapshot || (s.trusted && s.hasSnapshot))
              && Duplicates(m.bids) == {} && Duplicates(m.asks) == {}
              && Invalids(m.bids) == {} && Invalids(m.asks) == {}
              && (m.action == Snapshot ==> InOrder(Bid, m.bids) && InOrder(Ask, m.asks))
              && 1 <= |t.bids| <= 400 && 1 <= |t.asks| <= 400
              && (forall b, a | b in t.bids && a in t.asks :: b < a)
  {
    ForeignRefused(s, m, epoch, sequenceId);
    var t, c := ReplayStep(s, m, epoch, sequenceId).state, ReplayStep(s, m, epoch, sequenceId).result.value;
    RowCountersMean(s, m, epoch, sequenceId, t, c);
    EventCountersMean(s, m, epoch, sequenceId, t, c);
    TrustOf(s, m, epoch, sequenceId, t, c);
    NoneIffEmpty(m);
    assert |t.bids| == 0 <==> t.bids == map[];
    assert |t.asks| == 0 <==> t.asks == map[];
  }

  lemma NoneIffEmpty(m: Message)
    ensures |Duplicates(m.asks)| + |Duplicates(m.bids)| == 0 <==> Duplicates(m.asks) == {} && Duplicates(m.bids) == {}
    ensures |Invalids(m.asks)| + |Invalids(m.bids)| == 0 <==> Invalids(m.asks) == {} && Invalids(m.bids) == {}
  {
  }

  lemma TrustOf(s: ReplayState, m: Message, epoch: nat, sequenceId: Option<int>, t: ReplayState, c: Counters)
    requires m.instrumentId == s.instrumentId && ReplayStep(s, m, epoch, sequenceId) == ReplayTransition(t, Ok(c))
    ensures t.trusted <==>
              && (m.action == Snapshot || (s.trusted && s.hasSnapshot))
              && c.invalidLevels == 0 && c.duplicateLevels == 0 && c.nonMonotonicSnapshotSides == 0
              && c.depthOverflow == 0 && c.emptySides == 0 && c.crossed == 0
  {
  }

  // ---------- the rank-weighted microprice ----------

  /** Pair `k` counts with one over its rank when it holds any quantity. */
  function Share(bids: seq<Rung>, asks: seq<Rung>, k: nat): real
    requires k < |bids| && k < |asks|
  {
    if bids[k].quantity + asks[k].quantity > 0.0 then 1.0 / ((k + 1) as real) else 0.0
  }

  function Shares(bids: seq<Rung>, asks: seq<Rung>, k: nat, n: nat): real
    requires k <= n <= |bids| && n <= |asks|
    decreases n - k
  {
    if k == n then 0.0 else Share(bids, asks, k) + Shares(bids, asks, k + 1, n)
  }

  function SharedPrices(bids: seq<Rung>, asks: seq<Rung>, k: nat, n: nat): real
    requires k <= n <= |bids| && n <= |asks|
    decreases n - k
  {
    if k == n then 0.0
    else
      (if bids[k].quantity + asks[k].quantity > 0.0
       then ClassicMicroprice(bids[k], asks[k]) * Share(bids, asks, k) else 0.0)
      + SharedPrices(bids, asks, k + 1, n)
  }

  lemma {:induction false} SharesSplit(bids: seq<Rung>, asks: seq<Rung>, k: nat, n: nat)
    requires k < n <= |bids| && n <= |asks|
    ensures Shares(bids, asks, k, n) == Shares(bids, asks, k, n - 1) + Share(bids, asks, n - 1)
    ensures SharedPrices(bids, asks, k, n)
         == SharedPrices(bids, asks, k, n - 1)
            + (if bids[n - 1].quantity + asks[n - 1].quantity > 0.0
               then ClassicMicroprice(bids[n - 1], asks[n - 1]) * Share(bids, asks, n - 1) else 0.0)
    decreases n - k
  {
    if k < n - 1 {
      SharesSplit(bids, asks, k + 1, n);
    }
  }

  lemma {:induction false} TotalsAreShares(bids: seq<Rung>, asks: seq<Rung>, n: nat)
    requires n <= |bids| && n <= |asks|
    ensures WeightTotal(bids, asks, n) == Shares(bids, asks, 0, n)
    ensures WeightedPrices(bids, asks, n) == SharedPrices(bids, asks, 0, n)
  {
    if n > 0 {
      TotalsAreShares(bids, asks, n - 1);
      SharesSplit(bids, asks, 0, n);
    }
  }

  /** The rank-weighted price is the mean of the level microprices with weight one
      over the rank; it is missing only when nothing has weight. */
  lemma WeightedMeanMeans(bids: seq<Rung>, asks: seq<Rung>, n: nat)
    requires n <= |bids| && n <= |asks|
    ensures WeightedMean(bids, asks, n).Some? <==> Shares(bids, asks, 0, n) > 0.0
    ensures WeightedMean(bids, asks, n).Some? ==>
              WeightedMean(bids, asks, n).value * Shares(bids, asks, 0, n) == SharedPrices(bids, asks, 0, n)
  {
    TotalsAreShares(bids, asks, n);
  }
}
