/** Live candles: REST bars overlaid by WebSocket hints, cut to the newest. */
module CandleMerge {
  import opened Ordered

  datatype Bar = Bar(tsMs: int, payload: int)

  function LastWins(bars: seq<Bar>): map<int, Bar> {
    if bars == [] then map[]
    else LastWins(bars[..|bars| - 1])[bars[|bars| - 1].tsMs := bars[|bars| - 1]]
  }

  /** The map holds, for each instant, the last bar of that instant. */
  lemma {:induction false} LastWinsMeans(bars: seq<Bar>, ts: int)
    ensures ts in LastWins(bars) <==> exists i :: 0 <= i < |bars| && bars[i].tsMs == ts
    ensures ts in LastWins(bars) ==>
              exists i :: 0 <= i < |bars| && bars[i] == LastWins(bars)[ts] && bars[i].tsMs == ts
                          && forall j | i < j < |bars| :: bars[j].tsMs != ts
  {
    if bars != [] {
      var front, last := bars[..|bars| - 1], bars[|bars| - 1];
      LastWinsMeans(front, ts);
      if last.tsMs == ts {
        assert bars[|bars| - 1].tsMs == ts;
      } else if ts in LastWins(front) {
        var i :| 0 <= i < |front| && front[i] == LastWins(front)[ts] && front[i].tsMs == ts
                 && forall j | i < j < |front| :: front[j].tsMs != ts;
        assert bars[i] == LastWins(bars)[ts] && bars[i].tsMs == ts;
        assert forall j | i < j < |bars| :: bars[j].tsMs != ts;
      }
    }
  }

  predicate NotBefore(a: int, b: int) { a >= b }

  function Largest(instants: set<int>): (m: int)
    requires instants != {}
    ensures m in instants && forall x | x in instants :: x <= m
  {
    var m := Least(instants, NotBefore);
    assert forall x | x in instants :: NotBefore(m, x);
    m
  }

  ghost predicate Orders(order: seq<int>, instants: set<int>) {
    && |order| == |instants|
    && (forall k | 0 <= k < |order| :: order[k] in instants)
    && (forall x | x in instants :: x in order)
    && (forall i, j | 0 <= i < j < |order| :: order[i] < order[j])
  }

  lemma LargestComesLast(instants: set<int>, m: int, rest: seq<int>)
    requires m in instants && (forall x | x in instants :: x <= m) && Orders(rest, instants - {m})
    ensures Orders(rest + [m], instants)
  {
    var order := rest + [m];
    forall x | x in instants ensures x in order {
      assert x == m || x in rest;
      assert order[|rest|] == m;
    }
  }

  /** The instants of a sorted map in its iteration order. */
  function Ascending(instants: set<int>): (order: seq<int>)
    ensures Orders(order, instants)
  {
    if instants == {} then []
    else
      var m := Largest(instants);
      var rest := Ascending(instants - {m});
      LargestComesLast(instants, m, rest);
      rest + [m]
  }

  ghost predicate Holds(merged: seq<Bar>, ts: int) { exists i :: 0 <= i < |merged| && merged[i].tsMs == ts }

  lemma {:induction false} KeyedByInstant(bars: seq<Bar>)
    ensures forall ts | ts in LastWins(bars) :: LastWins(bars)[ts].tsMs == ts
  {
    if bars != [] {
      KeyedByInstant(bars[..|bars| - 1]);
    }
  }

  /** Strictly ascending, at most `limit` bars, each the stored one of its instant,
      and an instant is missing only when `limit` newer ones are there. */
  ghost predicate NewestPart(candles: map<int, Bar>, merged: seq<Bar>, limit: nat) {
    && |merged| == (if |candles| <= limit then |candles| else limit)
    && (forall i, j | 0 <= i < j < |merged| :: merged[i].tsMs < merged[j].tsMs)
    && (forall i | 0 <= i < |merged| :: merged[i].tsMs in candles && candles[merged[i].tsMs] == merged[i])
    && (forall ts | ts in candles ::
          Holds(merged, ts) || (|merged| == limit && forall i | 0 <= i < |merged| :: ts < merged[i].tsMs))
  }

  function Picked(candles: map<int, Bar>, order: seq<int>): (bars: seq<Bar>)
    requires forall k | 0 <= k < |order| :: order[k] in candles
    ensures |bars| == |order| && forall k | 0 <= k < |order| :: bars[k] == candles[order[k]]
  {
    seq(|order|, k requires 0 <= k < |order| => candles[order[k]])
  }

  lemma SkippedIsOlder(order: seq<int>, skip: nat, k: nat)
    requires skip <= |order| && k < |order|
    requires forall i, j | 0 <= i < j < |order| :: order[i] < order[j]
    ensures k >= skip ==> order[skip..][k - skip] == order[k]
    ensures k < skip ==> forall i | 0 <= i < |order[skip..]| :: order[k] < order[skip..][i]
  {
  }

  lemma SkippingKeepsNewest(candles: map<int, Bar>, order: seq<int>, kept: seq<int>, skip: nat, limit: nat)
    requires forall ts | ts in candles :: candles[ts].tsMs == ts
    requires |order| == |candles| && (forall k | 0 <= k < |order| :: order[k] in candles)
    requires forall ts | ts in candles :: ts in order
    requires forall i, j | 0 <= i < j < |order| :: order[i] < order[j]
    requires skip == (if |candles| <= limit then 0 else |candles| - limit) && kept == order[skip..]
    ensures NewestPart(candles, Picked(candles, kept), limit)
  {
    var merged := Picked(candles, kept);
    assert forall i | 0 <= i < |merged| :: merged[i].tsMs == kept[i];
    forall ts | ts in candles
      ensures Holds(merged, ts) || (|merged| == limit && forall i | 0 <= i < |merged| :: ts < merged[i].tsMs)
    {
      var k :| 0 <= k < |order| && order[k] == ts;
      SkippedIsOlder(order, skip, k);
      assert k >= skip ==> merged[k - skip].tsMs == ts;
    }
  }

  /** The values of a sorted map after skipping all but the newest `limit`. */
  method NewestOf(candles: map<int, Bar>, limit: nat) returns (merged: seq<Bar>)
    requires forall ts | ts in candles :: candles[ts].tsMs == ts
    ensures NewestPart(candles, merged, limit)
  {
    var order := Ascending(candles.Keys);
    var skip := if |order| <= limit then 0 else |order| - limit;
    SkippingKeepsNewest(candles, order, order[skip..], skip, limit);
    merged := Picked(candles, order[skip..]);
  }

  /** REST bars first, hints after, so that a hint replaces the bar of its instant. */
  method MergeLiveCandleHints(restCandles: seq<Bar>, websocketHints: seq<Bar>, limit: nat) returns (merged: seq<Bar>)
    ensures NewestPart(LastWins(restCandles + websocketHints), merged, limit)
  {
    var bars := restCandles + websocketHints;
    var candlesByTsMs: map<int, Bar> := map[];
    for i := 0 to |bars|
      invariant candlesByTsMs == LastWins(bars[..i])
    {
      assert bars[..i + 1][..|bars[..i + 1]| - 1] == bars[..i];
      candlesByTsMs := candlesByTsMs[bars[i].tsMs := bars[i]];
    }
    assert bars[..|bars|] == bars;
    KeyedByInstant(bars);
    merged := NewestOf(candlesByTsMs, limit);
  }
}
