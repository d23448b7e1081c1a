/** When the strict book takes a message, what it then stores, and what it says
    when it refuses: stated on the rows and the stored levels alone. */
module StrictOutcomes {
  import opened Wrappers
  import opened BookTypes
  import opened BookSides
  import opened RollingWindow
  import opened StrictBook
  import opened StrictRuns

  // ---------- what rows do to a side ----------

  /** `after` holds the quantity and count of every non-zero row, nothing under the
      price of a zero row, and `before` everywhere else. */
  ghost predicate Overlays(before: Side, rows: seq<Level>, after: Side) {
    && (forall i | 0 <= i < |rows| && rows[i].quantity != 0.0 ::
          rows[i].price in after && after[rows[i].price] == BookLevel(rows[i].quantity, rows[i].orderCount))
    && (forall i | 0 <= i < |rows| && rows[i].quantity == 0.0 :: rows[i].price !in after)
    && (forall p | !Mentions(rows, p) :: p in after <==> p in before)
    && (forall p | !Mentions(rows, p) && p in before :: after[p] == before[p])
  }

  ghost predicate Mentions(rows: seq<Level>, p: real) {
    exists i :: 0 <= i < |rows| && rows[i].price == p
  }

  lemma MergedOverlays(before: Side, rows: seq<Level>)
    requires DistinctPrices(rows)
    ensures Overlays(before, rows, Merged(before, rows))
  {
    var after := Merged(before, rows);
    forall i | 0 <= i < |rows|
      ensures rows[i].quantity != 0.0 ==>
                rows[i].price in after && after[rows[i].price] == BookLevel(rows[i].quantity, rows[i].orderCount)
      ensures rows[i].quantity == 0.0 ==> rows[i].price !in after
    {
      assert rows[i] in rows;
      assert forall row | row in rows && row.price == rows[i].price :: row == rows[i];
    }
    forall p | !Mentions(rows, p)
      ensures p in after <==> p in before
      ensures p in before ==> after[p] == before[p]
    {
      assert forall row | row in rows :: row.price != p;
    }
  }

  lemma OverlayIsUnique(before: Side, rows: seq<Level>, x: Side, y: Side)
    requires Overlays(before, rows, x) && Overlays(before, rows, y)
    ensures x == y
  {
    forall p
      ensures p in x <==> p in y
      ensures p in x && p in y ==> x[p] == y[p]
    {
      if Mentions(rows, p) {
        var i :| 0 <= i < |rows| && rows[i].price == p;
        assert rows[i].quantity == 0.0 || rows[i].quantity != 0.0;
      }
    }
  }

  /** An update succeeds exactly when no price is repeated and every zero row names
      a stored price, and then it lays the rows over the side. */
  lemma UpdateOverlays(before: Side, rows: seq<Level>, after: Side)
    ensures SideUpdate(before, rows) == Ok(after)
       <==> DistinctPrices(rows) && RemovalsKnown(before, rows) && Overlays(before, rows, after)
  {
    SideUpdateIsMerge(before, rows);
    if DistinctPrices(rows) {
      MergedOverlays(before, rows);
      if Overlays(before, rows, after) {
        OverlayIsUnique(before, rows, after, Merged(before, rows));
      }
    }
  }

  // ---------- snapshot sides ----------

  ghost predicate NonZeroDistinct(rows: seq<Level>) {
    forall i, j | 0 <= i < j < |rows| && rows[i].quantity != 0.0 && rows[j].quantity != 0.0 ::
      rows[i].price != rows[j].price
  }

  /** `side` holds the quantity and count of every non-zero row and nothing else. */
  ghost predicate Stores(rows: seq<Level>, side: Side) {
    && (forall i | 0 <= i < |rows| && rows[i].quantity != 0.0 ::
          rows[i].price in side && side[rows[i].price] == BookLevel(rows[i].quantity, rows[i].orderCount))
    && (forall p | p in side :: NamedBy(rows, p))
  }

  ghost predicate NamedBy(rows: seq<Level>, p: real) {
    exists i :: 0 <= i < |rows| && rows[i].price == p && rows[i].quantity != 0.0
  }

  lemma StoreIsUnique(rows: seq<Level>, x: Side, y: Side)
    requires Stores(rows, x) && Stores(rows, y)
    ensures x == y
  {
    forall p
      ensures p in x <==> p in y
      ensures p in x && p in y ==> x[p] == y[p]
    {
      if NamedBy(rows, p) {
        var i :| 0 <= i < |rows| && rows[i].price == p && rows[i].quantity != 0.0;
      }
    }
  }

  lemma NamedGrows(front: seq<Level>, row: Level, p: real)
    ensures NamedBy(front + [row], p) <==> NamedBy(front, p) || (row.price == p && row.quantity != 0.0)
  {
    var rows := front + [row];
    assert rows[|front|] == row && forall i | 0 <= i < |front| :: rows[i] == front[i];
  }

  lemma StoresGrows(front: seq<Level>, row: Level, side: Side)
    requires Stores(front, side) && (row.quantity != 0.0 ==> row.price !in side)
    ensures Stores(front + [row],
                   if row.quantity == 0.0 then side else side[row.price := BookLevel(row.quantity, row.orderCount)])
  {
    var rows := front + [row];
    var after := if row.quantity == 0.0 then side else side[row.price := BookLevel(row.quantity, row.orderCount)];
    assert forall i | 0 <= i < |front| :: rows[i] == front[i];
    forall p | p in after ensures NamedBy(rows, p) {
      NamedGrows(front, row, p);
    }
  }

  /** A snapshot side is accepted exactly when its non-zero rows repeat no price,
      and then it stores those rows. */
  lemma {:induction false} SnapshotStores(rows: seq<Level>)
    ensures SnapshotSide(rows).Ok? <==> NonZeroDistinct(rows)
    ensures SnapshotSide(rows).Ok? ==> Stores(rows, SnapshotSide(rows).value)
  {
    if rows != [] {
      var front, row := rows[..|rows| - 1], rows[|rows| - 1];
      assert rows == front + [row];
      SnapshotStores(front);
      if SnapshotSide(front).Ok? {
        var side := SnapshotSide(front).value;
        DistinctGrows(front, row, side);
        if row.quantity == 0.0 || row.price !in side {
          StoresGrows(front, row, side);
        }
      } else {
        DistinctShrinks(front, row);
      }
    }
  }

  lemma DistinctShrinks(front: seq<Level>, row: Level)
    ensures NonZeroDistinct(front + [row]) ==> NonZeroDistinct(front)
  {
    var rows := front + [row];
    assert forall i | 0 <= i < |front| :: rows[i] == front[i];
  }

  lemma DistinctGrows(front: seq<Level>, row: Level, side: Side)
    requires NonZeroDistinct(front) && Stores(front, side)
    ensures NonZeroDistinct(front + [row]) <==> row.quantity == 0.0 || row.price !in side
  {
    var rows := front + [row];
    assert rows[|front|] == row && forall i | 0 <= i < |front| :: rows[i] == front[i];
    if row.quantity != 0.0 && row.price in side {
      var i :| 0 <= i < |front| && front[i].price == row.price && front[i].quantity != 0.0;
      assert rows[i].price == rows[|front|].price;
    }
  }

  // ---------- when a message is taken ----------

  /** A book that can be traded on: both sides there, every bid below every ask. */
  ghost predicate TwoSided(bids: Side, asks: Side) { bids != map[] && asks != map[] && Uncrossed(bids, asks) }

  ghost predicate Empty(s: BookState) {
    s.bids == map[] && s.asks == map[] && !s.valid && s.sequenceId == None && s.features == None && s.points == []
  }

  /** Why two sides cannot be traded on. */
  ghost predicate SaysWhy(bids: Side, asks: Side, error: BookError) {
    if bids == map[] || asks == map[] then error == EmptySide
    else
      error.CrossedBook? && error.bestBid in bids && error.bestAsk in asks
      && (forall p | p in bids :: p <= error.bestBid) && (forall p | p in asks :: p >= error.bestAsk)
  }

  lemma ValidateSaysWhy(bids: Side, asks: Side)
    ensures ValidateBook(bids, asks).Ok? <==> TwoSided(bids, asks)
    ensures ValidateBook(bids, asks).Err? ==> SaysWhy(bids, asks, ValidateBook(bids, asks).error)
  {
    ValidateIsUncrossed(bids, asks);
  }

  /** The chain continues: an advancing update right after what the book holds. */
  ghost predicate Advances(s: BookState, m: Message) {
    && m.instrumentId == s.instrumentId && m.action == Update && s.valid
    && s.sequenceId == Some(m.previousSequenceId) && m.previousSequenceId < m.sequenceId
  }

  /** An advancing update whose rows apply is taken exactly when the 400 best levels
      of each updated side make a two-sided uncrossed book, and those levels are
      then stored; a side that grows past 400 is no reason to refuse. */
  lemma IncrementTakenIff(s: BookState, m: Message, newBids: Side, newAsks: Side, b: Side, a: Side)
    requires BookInvariant(s) && WellFormed(m) && Advances(s, m)
    requires DistinctPrices(m.bids) && RemovalsKnown(s.bids, m.bids) && Overlays(s.bids, m.bids, newBids)
    requires DistinctPrices(m.asks) && RemovalsKnown(s.asks, m.asks) && Overlays(s.asks, m.asks, newAsks)
    requires KeepsBest(Bid, newBids, b, 400) && KeepsBest(Ask, newAsks, a, 400)
    ensures IsFeatures(Step(s, m).result) <==> TwoSided(b, a)
    ensures TwoSided(b, a) ==> Step(s, m).state.bids == b && Step(s, m).state.asks == a
    ensures !TwoSided(b, a) ==> Empty(Step(s, m).state)
    ensures !TwoSided(b, a) ==> Step(s, m).result.Err? && SaysWhy(b, a, Step(s, m).result.error)
  {
    UpdateOverlays(s.bids, m.bids, newBids);
    UpdateOverlays(s.asks, m.asks, newAsks);
    TrimIsUnique(Bid, newBids, b, MAX_DEPTH);
    TrimIsUnique(Ask, newAsks, a, MAX_DEPTH);
    ValidateSaysWhy(b, a);
    StepKeepsInvariant(s, m);
    if TwoSided(b, a) {
      AcceptedEffect(s, m, Step(s, m));
    }
  }

  /** An update with a repeated price or an unknown removal is refused and empties
      the book; a faulty bid row is reported before any ask row. */
  lemma IncrementRefused(s: BookState, m: Message)
    requires BookInvariant(s) && WellFormed(m) && Advances(s, m)
    requires !(DistinctPrices(m.bids) && RemovalsKnown(s.bids, m.bids)
               && DistinctPrices(m.asks) && RemovalsKnown(s.asks, m.asks))
    ensures Step(s, m).result.Err? && Empty(Step(s, m).state)
    ensures if !(DistinctPrices(m.bids) && RemovalsKnown(s.bids, m.bids))
            then FirstFault(s.bids, m.bids, Step(s, m).result.error)
            else FirstFault(s.asks, m.asks, Step(s, m).result.error)
  {
    SideUpdateIsMerge(s.bids, m.bids);
    SideUpdateIsMerge(s.asks, m.asks);
    StepKeepsInvariant(s, m);
    FaultIsFirst(s.bids, m.bids);
    FaultIsFirst(s.asks, m.asks);
  }

  /** The error of the first row that cannot be applied. */
  ghost predicate FirstFault(before: Side, rows: seq<Level>, error: BookError) {
    exists i :: 0 <= i < |rows| && FaultAt(before, rows, i, error)
  }

  ghost predicate FaultAt(before: Side, rows: seq<Level>, i: int, error: BookError)
    requires 0 <= i < |rows|
  {
    && DistinctPrices(rows[..i]) && RemovalsKnown(before, rows[..i])
    && (if Mentions(rows[..i], rows[i].price) then error == DuplicatePrice(rows[i].price)
        else rows[i].quantity == 0.0 && rows[i].price !in before && error == UnknownRemoval(rows[i].price))
  }

  lemma {:induction false} FaultIsFirst(before: Side, rows: seq<Level>)
    ensures SideUpdate(before, rows).Err? ==> FirstFault(before, rows, SideUpdate(before, rows).error)
  {
    if rows != [] && SideUpdate(before, rows).Err? {
      var front, row, error := rows[..|rows| - 1], rows[|rows| - 1], SideUpdate(before, rows).error;
      if SideUpdate(before, front).Err? {
        FaultIsFirst(before, front);
        var i :| 0 <= i < |front| && FaultAt(before, front, i, error);
        assert front[..i] == rows[..i];
        assert FaultAt(before, rows, i, error);
      } else {
        SideUpdateIsMerge(before, front);
        UpdateOverlays(before, front, SideUpdate(before, front).value);
        MentionsPrices(front, row.price);
        assert FaultAt(before, rows, |rows| - 1, error);
      }
    }
  }

  lemma MentionsPrices(rows: seq<Level>, p: real)
    ensures Mentions(rows, p) <==> p in Prices(rows)
  {
    if p in Prices(rows) {
      var row :| row in rows && row.price == p;
      var i :| 0 <= i < |rows| && rows[i] == row;
    }
  }

  /** A snapshot is taken exactly when it is within depth, repeats no non-zero price
      on a side, and its stored rows make a two-sided uncrossed book. */
  lemma SnapshotTakenIff(s: BookState, m: Message)
    requires BookInvariant(s) && WellFormed(m) && m.instrumentId == s.instrumentId && m.action == Snapshot
    ensures IsFeatures(Step(s, m).result) <==>
              && |m.bids| <= 400 && |m.asks| <= 400 && NonZeroDistinct(m.bids) && NonZeroDistinct(m.asks)
              && exists b, a :: Stores(m.bids, b) && Stores(m.asks, a) && TwoSided(b, a)
    ensures if IsFeatures(Step(s, m).result)
            then Stores(m.bids, Step(s, m).state.bids) && Stores(m.asks, Step(s, m).state.asks)
            else Step(s, m).result.Err? && Empty(Step(s, m).state)
    ensures |m.bids| > 400 || |m.asks| > 400 ==> Step(s, m).result == Err(DepthOverflow)
  {
    StepKeepsInvariant(s, m);
    SnapshotStores(m.bids);
    SnapshotStores(m.asks);
    if NonZeroDistinct(m.bids) && NonZeroDistinct(m.asks) {
      var b, a := SnapshotSide(m.bids).value, SnapshotSide(m.asks).value;
      ValidateSaysWhy(b, a);
      forall x, y | Stores(m.bids, x) && Stores(m.asks, y) ensures x == b && y == a {
        StoreIsUnique(m.bids, x, b);
        StoreIsUnique(m.asks, y, a);
      }
      if Accepts(s, m) {
        AcceptedEffect(s, m, Step(s, m));
      }
    }
  }

  /** The events that leave the book alone or break its chain, each with its own
      answer. */
  lemma OtherOutcomes(s: BookState, m: Message)
    requires BookInvariant(s)
    ensures m.instrumentId != s.instrumentId ==>
              Step(s, m).state == s && Step(s, m).result == Err(InstrumentMismatch(s.instrumentId, m.instrumentId))
    ensures m.instrumentId == s.instrumentId && m.action == Update && !s.valid ==>
              Step(s, m).state == s && Step(s, m).result == Err(UpdateBeforeSnapshot)
    ensures Step(s, m).result == Ok(Heartbeat) <==>
              && m.instrumentId == s.instrumentId && m.action == Update && s.valid
              && m.bids == [] && m.asks == [] && m.sequenceId == m.previousSequenceId == s.sequenceId.value
    ensures Step(s, m).result == Ok(Heartbeat) ==> Step(s, m).state == s
    ensures m.instrumentId == s.instrumentId && m.action == Update && s.valid
            && m.previousSequenceId != s.sequenceId.value ==>
              && Empty(Step(s, m).state)
              && Step(s, m).result == Err(SequenceGap(s.sequenceId.value, m.previousSequenceId, m.sequenceId))
    ensures m.instrumentId == s.instrumentId && m.action == Update && s.valid
            && m.previousSequenceId == s.sequenceId.value && m.sequenceId <= s.sequenceId.value
            && (m.bids != [] || m.asks != [] || m.sequenceId < s.sequenceId.value) ==>
              Empty(Step(s, m).state) && Step(s, m).result == Err(RegressingSequence(s.sequenceId.value, m.sequenceId))
  {
  }

  /** Returned features carry the message's own stamps and the stored levels'
      counts, and the newest rolling point is the one they describe. */
  lemma FeaturesCarryMessage(s: BookState, m: Message, f: FeatureSnapshot)
    requires BookInvariant(s) && WellFormed(m) && Step(s, m).result == Ok(Features(f))
    ensures f.instrumentId == m.instrumentId && f.sequenceId == m.sequenceId
    ensures f.exchangeTs == m.exchangeTs && f.receivedAt == m.receivedAt
    ensures f.bidLevelCount == |Step(s, m).state.bids| && f.askLevelCount == |Step(s, m).state.asks|
    ensures var points := Step(s, m).state.points;
            points != [] && points[|points| - 1] == Point(f.book.mid, f.book.imbalanceL10, m.receivedAt)
  {
    StepKeepsInvariant(s, m);
    AcceptedEffect(s, m, Step(s, m));
    StampsOf(s, m, f);
  }

  lemma StampsOf(s: BookState, m: Message, f: FeatureSnapshot)
    requires Step(s, m).result == Ok(Features(f))
    ensures f.exchangeTs == m.exchangeTs && f.receivedAt == m.receivedAt
  {
  }
}
