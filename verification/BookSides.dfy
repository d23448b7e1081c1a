/** One side of a book: an ordered map from price to level, its in-place
    updates and its depth trim. */
module BookSides {
  import opened Wrappers
  import opened Ordered
  import opened BookTypes

  // ---------- price order ----------

  /** Bids prefer the higher price, asks the lower one. */
  predicate Better(kind: SideKind, p: real, q: real) {
    if kind.Bid? then p > q else p < q
  }

  function Opposite(kind: SideKind): SideKind {
    if kind.Bid? then Ask else Bid
  }

  ghost predicate IsBest(kind: SideKind, prices: set<real>, p: real) {
    p in prices && forall q | q in prices && q != p :: Better(kind, p, q)
  }

  lemma {:induction false} BestExists(kind: SideKind, prices: set<real>)
    requires prices != {}
    ensures exists p :: IsBest(kind, prices, p)
  {
    var x := SomeMember(prices);
    var rest := prices - {x};
    if rest == {} {
      assert prices == {x};
      assert IsBest(kind, prices, x);
    } else {
      BestExists(kind, rest);
      var y :| IsBest(kind, rest, y);
      var p := if Better(kind, x, y) then x else y;
      assert forall q | q in prices :: q == x || q in rest;
      assert IsBest(kind, prices, p);
    }
  }

  /** The key an ordered map reports at its best end for this side. */
  function Best(kind: SideKind, prices: set<real>): (p: real)
    requires prices != {}
    ensures IsBest(kind, prices, p)
  {
    BestExists(kind, prices);
    var p :| p in prices && forall q | q in prices && q != p :: Better(kind, p, q);
    p
  }

  /** The key at the far end, the one trimming removes. */
  function Worst(kind: SideKind, prices: set<real>): (p: real)
    requires prices != {}
    ensures p in prices && forall q | q in prices && q != p :: Better(kind, q, p)
  {
    Best(Opposite(kind), prices)
  }

  predicate BestFirstSorted(kind: SideKind, s: seq<real>) {
    forall i, j | 0 <= i < j < |s| :: Better(kind, s[i], s[j])
  }

  /** Iteration order of a side, from the touch outwards. */
  function BestFirst(kind: SideKind, prices: set<real>): (s: seq<real>)
    ensures |s| == |prices|
    ensures forall p :: p in s <==> p in prices
    ensures BestFirstSorted(kind, s)
  {
    if prices == {} then []
    else
      var p := Best(kind, prices);
      var rest := BestFirst(kind, prices - {p});
      assert forall q | q in rest :: Better(kind, p, q);
      [p] + rest
  }

  /** Only positive prices with positive quantities are stored. */
  ghost predicate PositiveSide(side: Side) {
    forall p | p in side :: p > 0.0 && side[p].quantity > 0.0
  }

  // ---------- applying rows to a side ----------

  function Prices(levels: seq<Level>): (s: set<real>)
    ensures forall level | level in levels :: level.price in s
  {
    set level | level in levels :: level.price
  }

  function Stored(level: Level): BookLevel {
    BookLevel(level.quantity, level.orderCount)
  }

  predicate DistinctPrices(levels: seq<Level>) {
    forall i, j | 0 <= i < j < |levels| :: levels[i].price != levels[j].price
  }

  predicate RemovalsKnown(side: Side, levels: seq<Level>) {
    forall level | level in levels && level.quantity == 0.0 :: level.price in side
  }

  function Removals(levels: seq<Level>): set<real> {
    set level | level in levels && level.quantity == 0.0 :: level.price
  }

  function Upserts(levels: seq<Level>): Side
    requires DistinctPrices(levels)
  {
    map level | level in levels && level.quantity != 0.0 :: level.price := Stored(level)
  }

  /** The order-free meaning of an incremental side: the old side without the
      removed prices, overlaid with the new levels. */
  function Merged(side: Side, levels: seq<Level>): Side
    requires DistinctPrices(levels)
  {
    (side - Removals(levels)) + Upserts(levels)
  }

  function ApplyRow(side: Side, seen: set<real>, row: Level): Result<Side, BookError> {
    if row.price in seen then Err(DuplicatePrice(row.price))
    else if row.quantity == 0.0 then
      if row.price in side then Ok(side - {row.price}) else Err(UnknownRemoval(row.price))
    else Ok(side[row.price := Stored(row)])
  }

  /** Row-by-row meaning of an incremental side; the first faulty row decides the error. */
  function SideUpdate(side: Side, levels: seq<Level>): Result<Side, BookError> {
    if levels == [] then Ok(side)
    else
      var front := levels[..|levels| - 1];
      match SideUpdate(side, front)
      case Err(error) => Err(error)
      case Ok(done) => ApplyRow(done, Prices(front), levels[|levels| - 1])
  }

  lemma SideUpdateErrSticks(side: Side, levels: seq<Level>, i: nat)
    requires i <= |levels|
    requires SideUpdate(side, levels[..i]).Err?
    ensures SideUpdate(side, levels) == SideUpdate(side, levels[..i])
  {
    if i < |levels| {
      var front := levels[..|levels| - 1];
      assert front[..i] == levels[..i];
      SideUpdateErrSticks(side, front, i);
    } else {
      assert levels[..i] == levels;
    }
  }

  /** The in-place loop: on a fault the side is left half updated. */
  method ApplySide(side: Side, levels: seq<Level>) returns (result: Result<(), BookError>, updated: Side)
    ensures result == match SideUpdate(side, levels) { case Ok(_) => Ok(()) case Err(error) => Err(error) }
    ensures result.Ok? ==> SideUpdate(side, levels) == Ok(updated)
  {
    updated := side;
    var seen: set<real> := {};
    for i := 0 to |levels|
      invariant seen == Prices(levels[..i])
      invariant SideUpdate(side, levels[..i]) == Ok(updated)
    {
      var row := levels[i];
      assert levels[..i + 1][..|levels[..i + 1]| - 1] == levels[..i];
      assert levels[..i + 1] == levels[..i] + [row];
      ghost var step := ApplyRow(updated, seen, row);
      assert SideUpdate(side, levels[..i + 1]) == step;
      if row.price in seen {
        SideUpdateErrSticks(side, levels, i + 1);
        return Err(DuplicatePrice(row.price)), updated;
      }
      seen := seen + {row.price};
      if row.quantity == 0.0 {
        if row.price !in updated {
          SideUpdateErrSticks(side, levels, i + 1);
          return Err(UnknownRemoval(row.price)), updated;
        }
        updated := updated - {row.price};
      } else {
        updated := updated[row.price := Stored(row)];
      }
    }
    assert levels[..|levels|] == levels;
    result := Ok(());
  }

  lemma ExtendLevels(front: seq<Level>, row: Level)
    ensures forall level :: level in front + [row] <==> level in front || level == row
    ensures DistinctPrices(front + [row]) <==> DistinctPrices(front) && row.price !in Prices(front)
  {
    var all := front + [row];
    assert all[|front|] == row;
    assert forall i | 0 <= i < |front| :: all[i] == front[i];
  }

  lemma UpsertsExtend(front: seq<Level>, row: Level)
    requires DistinctPrices(front) && DistinctPrices(front + [row])
    ensures Upserts(front + [row])
         == if row.quantity == 0.0 then Upserts(front) else Upserts(front)[row.price := Stored(row)]
  {
    ExtendLevels(front, row);
    var extended := Upserts(front + [row]);
    forall level | level in front && level.quantity != 0.0
      ensures level.price in extended && extended[level.price] == Stored(level)
    {
      assert level in front + [row];
    }
    if row.quantity != 0.0 {
      assert row in front + [row];
      assert extended[row.price] == Stored(row);
    }
  }

  lemma OverlayRemove(side: Side, removals: set<real>, upserts: Side, p: real)
    requires p !in upserts
    ensures (side - (removals + {p})) + upserts == ((side - removals) + upserts) - {p}
  {
  }

  lemma OverlayInsert(side: Side, removals: set<real>, upserts: Side, p: real, stored: BookLevel)
    ensures (side - removals) + upserts[p := stored] == ((side - removals) + upserts)[p := stored]
  {
  }

  lemma RemovalsExtend(front: seq<Level>, row: Level)
    ensures Removals(front + [row]) == Removals(front) + (if row.quantity == 0.0 then {row.price} else {})
  {
    ExtendLevels(front, row);
  }

  lemma MergedExtends(side: Side, front: seq<Level>, row: Level)
    requires DistinctPrices(front) && DistinctPrices(front + [row])
    ensures Merged(side, front + [row])
         == if row.quantity == 0.0 then Merged(side, front) - {row.price}
            else Merged(side, front)[row.price := Stored(row)]
  {
    RemovalsExtend(front, row);
    UpsertsExtend(front, row);
    if row.quantity == 0.0 {
      ExtendLevels(front, row);
      OverlayRemove(side, Removals(front), Upserts(front), row.price);
    } else {
      assert Removals(front) + {} == Removals(front);
      OverlayInsert(side, Removals(front), Upserts(front), row.price, Stored(row));
    }
  }

  lemma MergedOutside(side: Side, levels: seq<Level>, p: real)
    requires DistinctPrices(levels) && p !in Prices(levels)
    ensures p in Merged(side, levels) <==> p in side
    ensures p in side ==> Merged(side, levels)[p] == side[p]
  {
  }

  /** The loop succeeds exactly on distinct prices whose removals name stored
      prices, and then it computes the order-free merge. */
  lemma {:induction false} SideUpdateIsMerge(side: Side, levels: seq<Level>)
    ensures SideUpdate(side, levels).Ok? <==> DistinctPrices(levels) && RemovalsKnown(side, levels)
    ensures SideUpdate(side, levels).Ok? ==> SideUpdate(side, levels).value == Merged(side, levels)
  {
    if levels == [] {
      assert Merged(side, levels) == side;
    } else {
      var front, row := levels[..|levels| - 1], levels[|levels| - 1];
      assert levels == front + [row];
      ExtendLevels(front, row);
      SideUpdateIsMerge(side, front);
      if DistinctPrices(levels) {
        MergedExtends(side, front, row);
        MergedOutside(side, front, row.price);
      }
    }
  }

  // ---------- the order of rows does not matter ----------

  lemma TwiceInMultiset(levels: seq<Level>, i: nat, j: nat)
    requires i < j < |levels| && levels[i] == levels[j]
    ensures multiset(levels)[levels[i]] >= 2
  {
    assert levels == levels[..j] + levels[j..];
    assert levels[..j][i] in multiset(levels[..j]);
    assert levels[j..][0] in multiset(levels[j..]);
  }

  lemma {:induction false} DistinctOccurOnce(levels: seq<Level>, level: Level)
    requires DistinctPrices(levels)
    ensures multiset(levels)[level] <= 1
  {
    if levels != [] {
      var front, row := levels[..|levels| - 1], levels[|levels| - 1];
      assert levels == front + [row];
      ExtendLevels(front, row);
      DistinctOccurOnce(front, level);
      assert level == row ==> level !in multiset(front);
    }
  }

  lemma DistinctIsOrderFree(a: seq<Level>, b: seq<Level>)
    requires multiset(a) == multiset(b) && DistinctPrices(a)
    ensures DistinctPrices(b)
  {
    forall i, j | 0 <= i < j < |b| ensures b[i].price != b[j].price {
      if b[i].price == b[j].price {
        assert b[i] in multiset(b) && b[j] in multiset(b);
        assert b[i] in a && b[j] in a;
        var m, n :| 0 <= m < |a| && 0 <= n < |a| && a[m] == b[i] && a[n] == b[j];
        assert m == n;
        TwiceInMultiset(b, i, j);
        DistinctOccurOnce(a, b[i]);
      }
    }
  }

  lemma SameRows(a: seq<Level>, b: seq<Level>)
    requires multiset(a) == multiset(b)
    ensures forall level :: level in a <==> level in b
  {
    forall level ensures level in a <==> level in b {
      assert level in a <==> level in multiset(a);
      assert level in b <==> level in multiset(b);
    }
  }

  lemma SameUpserts(a: seq<Level>, b: seq<Level>)
    requires DistinctPrices(a) && DistinctPrices(b)
    requires forall level :: level in a <==> level in b
    ensures Upserts(a) == Upserts(b)
  {
    forall p | p in Upserts(a) ensures p in Upserts(b) && Upserts(b)[p] == Upserts(a)[p] {
      var level :| level in a && level.quantity != 0.0 && level.price == p;
      assert level in b;
    }
    forall p | p in Upserts(b) ensures p in Upserts(a) {
      var level :| level in b && level.quantity != 0.0 && level.price == p;
      assert level in a;
    }
  }

  /** Every permutation of the rows gives the same success and the same side. */
  lemma SideUpdateIsOrderFree(side: Side, a: seq<Level>, b: seq<Level>)
    requires multiset(a) == multiset(b)
    ensures SideUpdate(side, a).Ok? <==> SideUpdate(side, b).Ok?
    ensures SideUpdate(side, a).Ok? ==> SideUpdate(side, a).value == SideUpdate(side, b).value
  {
    SideUpdateIsMerge(side, a);
    SideUpdateIsMerge(side, b);
    SameRows(a, b);
    if DistinctPrices(a) {
      DistinctIsOrderFree(a, b);
      SameUpserts(a, b);
      assert Removals(a) == Removals(b);
    } else if DistinctPrices(b) {
      DistinctIsOrderFree(b, a);
    }
  }

  // ---------- snapshots ----------

  /** Snapshot rows with a zero quantity are skipped, not treated as removals. */
  function Live(levels: seq<Level>): (live: seq<Level>)
    ensures |live| <= |levels|
    ensures forall level :: level in live <==> level in levels && level.quantity != 0.0
  {
    if levels == [] then []
    else
      var row := levels[|levels| - 1];
      assert levels == levels[..|levels| - 1] + [row];
      Live(levels[..|levels| - 1]) + (if row.quantity == 0.0 then [] else [row])
  }

  function SnapshotSide(levels: seq<Level>): Result<Side, BookError> {
    if levels == [] then Ok(map[])
    else
      var row := levels[|levels| - 1];
      match SnapshotSide(levels[..|levels| - 1])
      case Err(error) => Err(error)
      case Ok(side) =>
        if row.quantity == 0.0 then Ok(side)
        else if row.price in side then Err(DuplicatePrice(row.price))
        else Ok(side[row.price := Stored(row)])
  }

  lemma SnapshotErrSticks(levels: seq<Level>, i: nat)
    requires i <= |levels|
    requires SnapshotSide(levels[..i]).Err?
    ensures SnapshotSide(levels) == SnapshotSide(levels[..i])
  {
    if i < |levels| {
      assert levels[..|levels| - 1][..i] == levels[..i];
      SnapshotErrSticks(levels[..|levels| - 1], i);
    } else {
      assert levels[..i] == levels;
    }
  }

  method BuildSnapshotSide(levels: seq<Level>) returns (result: Result<Side, BookError>)
    ensures result == SnapshotSide(levels)
  {
    var side: Side := map[];
    for i := 0 to |levels|
      invariant SnapshotSide(levels[..i]) == Ok(side)
    {
      var row := levels[i];
      assert levels[..i + 1][..|levels[..i + 1]| - 1] == levels[..i];
      if row.quantity == 0.0 {
        continue;
      }
      if row.price in side {
        SnapshotErrSticks(levels, i + 1);
        return Err(DuplicatePrice(row.price));
      }
      side := side[row.price := Stored(row)];
    }
    assert levels[..|levels|] == levels;
    result := Ok(side);
  }

  /** A snapshot side is accepted exactly when its non-zero rows have distinct
      prices, and it stores exactly those rows. */
  lemma {:induction false} SnapshotSideIsUpserts(levels: seq<Level>)
    ensures SnapshotSide(levels).Ok? <==> DistinctPrices(Live(levels))
    ensures SnapshotSide(levels).Ok? ==> SnapshotSide(levels).value == Upserts(Live(levels))
  {
    if levels != [] {
      var front, row := levels[..|levels| - 1], levels[|levels| - 1];
      SnapshotSideIsUpserts(front);
      if row.quantity == 0.0 {
        assert Live(levels) == Live(front);
      } else {
        assert Live(levels) == Live(front) + [row];
        ExtendLevels(Live(front), row);
        if DistinctPrices(Live(front)) {
          UpsertsKeys(Live(front));
          if DistinctPrices(Live(levels)) {
            UpsertsExtend(Live(front), row);
          }
        }
      }
    }
  }

  lemma UpsertsKeys(levels: seq<Level>)
    requires DistinctPrices(levels)
    requires forall level | level in levels :: level.quantity != 0.0
    ensures Upserts(levels).Keys == Prices(levels)
  {
  }

  // ---------- depth trim ----------

  /** `kept` is `side` cut to its `depth` best prices. */
  ghost predicate KeepsBest(kind: SideKind, side: Side, kept: Side, depth: nat) {
    && Submap(kept, side)
    && |kept| == (if |side| <= depth then |side| else depth)
    && forall p, q | p in kept && q in side && q !in kept :: Better(kind, p, q)
  }

  ghost predicate Submap(small: Side, large: Side) {
    forall p | p in small :: p in large && small[p] == large[p]
  }

  function Trimmed(kind: SideKind, side: Side, depth: nat): Side
    decreases |side|
  {
    if |side| <= depth then side
    else
      RemoveShrinks(side, Worst(kind, side.Keys));
      Trimmed(kind, side - {Worst(kind, side.Keys)}, depth)
  }

  lemma RemoveShrinks(side: Side, p: real)
    requires p in side
    ensures (side - {p}).Keys == side.Keys - {p}
    ensures |side - {p}| == |side| - 1
  {
    var smaller := side - {p};
    assert smaller.Keys == side.Keys - {p};
    assert |smaller| == |smaller.Keys|;
  }

  method TrimToDepth(kind: SideKind, side: Side) returns (trimmed: Side)
    ensures trimmed == Trimmed(kind, side, MAX_DEPTH)
  {
    trimmed := side;
    while |trimmed| > MAX_DEPTH
      invariant Trimmed(kind, trimmed, MAX_DEPTH) == Trimmed(kind, side, MAX_DEPTH)
      decreases |trimmed|
    {
      var price := Worst(kind, trimmed.Keys);
      RemoveShrinks(trimmed, price);
      trimmed := trimmed - {price};
    }
  }

  /** Trimming keeps exactly the `depth` best prices ... */
  lemma {:induction false} TrimKeepsBest(kind: SideKind, side: Side, depth: nat)
    ensures KeepsBest(kind, side, Trimmed(kind, side, depth), depth)
    decreases |side|
  {
    if |side| > depth {
      var worst := Worst(kind, side.Keys);
      var smaller := side - {worst};
      RemoveShrinks(side, worst);
      TrimKeepsBest(kind, smaller, depth);
      var kept := Trimmed(kind, smaller, depth);
      forall p, q | p in kept && q in side && q !in kept ensures Better(kind, p, q) {
        assert q == worst || q in smaller;
      }
    }
  }

  /** ... and nothing else does. */
  lemma TrimIsUnique(kind: SideKind, side: Side, kept: Side, depth: nat)
    requires KeepsBest(kind, side, kept, depth)
    ensures kept == Trimmed(kind, side, depth)
  {
    var other := Trimmed(kind, side, depth);
    TrimKeepsBest(kind, side, depth);
    if forall p | p in kept.Keys :: p in other.Keys {
      SubsetSameSize(kept.Keys, other.Keys);
    } else if forall q | q in other.Keys :: q in kept.Keys {
      SubsetSameSize(other.Keys, kept.Keys);
    } else {
      assert false;
    }
    assert forall p | p in kept :: kept[p] == other[p];
    assert kept == other;
  }

  lemma SubsetSameSize(a: set<real>, b: set<real>)
    requires a <= b && |a| == |b|
    ensures a == b
  {
    assert |b| == |a| + |b - a| by {
      assert b == a + (b - a);
    }
    assert b - a == {};
  }

  /** A trim never moves the top of the book. */
  lemma TrimKeepsTop(kind: SideKind, side: Side, depth: nat)
    requires depth >= 1 && side != map[]
    ensures Trimmed(kind, side, depth) != map[]
    ensures Best(kind, Trimmed(kind, side, depth).Keys) == Best(kind, side.Keys)
    ensures Trimmed(kind, side, depth)[Best(kind, side.Keys)] == side[Best(kind, side.Keys)]
  {
    TrimKeepsBest(kind, side, depth);
    var kept := Trimmed(kind, side, depth);
    assert |side| > 0;
    assert |kept| > 0;
    var top, keptTop := Best(kind, side.Keys), Best(kind, kept.Keys);
    assert top in kept || Better(kind, keptTop, top);
  }
}
