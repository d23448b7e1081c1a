/** The 32-point rolling window: velocity, persistence and volatility. Instants
    are nanoseconds on one monotonic clock. */
module RollingWindow {
  import opened Wrappers

  const WINDOW: nat := 32

  datatype Point = Point(mid: real, imbalance: real, receivedAt: nat)

  datatype Rolling = Rolling(velocity: real, persistence: real, volatility: real)

  function Sign(x: real): int {
    if x > 0.0 then 1 else if x < 0.0 then -1 else 0
  }

  function Abs(x: real): real { if x < 0.0 then -x else x }

  function AbsoluteReturnBps(previous: real, current: real): real {
    if previous <= 0.0 then 0.0 else Abs(current - previous) / previous * 10000.0
  }

  /** Whole microseconds since an earlier instant, zero when time went back,
      capped at the largest u64. */
  function ElapsedMicros(now: nat, earlier: nat): nat {
    var micros := if now < earlier then 0 else (now - earlier) / 1000;
    if micros > U64_MAX then U64_MAX else micros
  }

  // ---------- definitions over a history ----------

  /** Imbalance change per second between the last two observations. */
  function Velocity(history: seq<Point>): real {
    if |history| < 2 then 0.0
    else
      var previous, current := history[|history| - 2], history[|history| - 1];
      var micros := ElapsedMicros(current.receivedAt, previous.receivedAt);
      if micros == 0 then 0.0
      else (current.imbalance - previous.imbalance) * 1000000.0 / (micros as real)
  }

  function CountSigned(history: seq<Point>): nat {
    if history == [] then 0
    else CountSigned(history[..|history| - 1]) + (if Sign(history[|history| - 1].imbalance) != 0 then 1 else 0)
  }

  function CountMatching(history: seq<Point>, sign: int): nat {
    if history == [] then 0
    else
      var last := Sign(history[|history| - 1].imbalance);
      CountMatching(history[..|history| - 1], sign) + (if last != 0 && last == sign then 1 else 0)
  }

  /** Share of the signed observations that agree with the newest one. */
  function Persistence(history: seq<Point>): real {
    if history == [] || CountSigned(history) == 0 then 0.0
    else
      (CountMatching(history, Sign(history[|history| - 1].imbalance)) as real) / (CountSigned(history) as real)
  }

  function SumReturns(history: seq<Point>): real {
    if |history| < 2 then 0.0
    else
      SumReturns(history[..|history| - 1])
      + AbsoluteReturnBps(history[|history| - 2].mid, history[|history| - 1].mid)
  }

  /** Mean absolute mid return, in basis points, over consecutive observations. */
  function Volatility(history: seq<Point>): real {
    if |history| < 2 then 0.0 else SumReturns(history) / ((|history| - 1) as real)
  }

  function Measures(history: seq<Point>): Rolling {
    Rolling(Velocity(history), Persistence(history), Volatility(history))
  }

  /** The newest `n` observations. */
  function Newest(history: seq<Point>, n: nat): seq<Point> {
    if |history| <= n then history else history[|history| - n..]
  }

  function Push(points: seq<Point>, point: Point): seq<Point> {
    (if |points| == WINDOW then points[1..] else points) + [point]
  }

  // ---------- the loops ----------

  /** Counts and sums over the stored points, then stores the new one. */
  method RollingFeatures(points: seq<Point>, mid: real, imbalance: real, receivedAt: nat)
    returns (rolling: Rolling, updated: seq<Point>)
    ensures rolling == Measures(points + [Point(mid, imbalance, receivedAt)])
    ensures updated == Push(points, Point(mid, imbalance, receivedAt))
  {
    ghost var history := points + [Point(mid, imbalance, receivedAt)];
    assert history[..|history| - 1] == points;

    var velocity := 0.0;
    if points != [] {
      var previous := points[|points| - 1];
      var micros := ElapsedMicros(receivedAt, previous.receivedAt);
      if micros != 0 {
        velocity := (imbalance - previous.imbalance) * 1000000.0 / (micros as real);
      }
    }

    var sign := Sign(imbalance);
    var observed, matching := 0, 0;
    for i := 0 to |points|
      invariant observed == CountSigned(points[..i])
      invariant matching == CountMatching(points[..i], sign)
    {
      assert points[..i + 1][..|points[..i + 1]| - 1] == points[..i];
      var pointSign := Sign(points[i].imbalance);
      if pointSign != 0 {
        observed := observed + 1;
        matching := matching + (if pointSign == sign then 1 else 0);
      }
    }
    assert points[..|points|] == points;
    if sign != 0 {
      observed, matching := observed + 1, matching + 1;
    }
    var persistence := if observed == 0 then 0.0 else (matching as real) / (observed as real);

    var sum, count := 0.0, 0;
    var previousMid: Option<real> := None;
    for i := 0 to |points|
      invariant i == 0 ==> previousMid == None && count == 0
      invariant i > 0 ==> previousMid == Some(points[i - 1].mid) && count == i - 1
      invariant sum == SumReturns(points[..i])
    {
      assert points[..i + 1][..|points[..i + 1]| - 1] == points[..i];
      if previousMid.Some? {
        sum := sum + AbsoluteReturnBps(previousMid.value, points[i].mid);
        count := count + 1;
      }
      previousMid := Some(points[i].mid);
    }
    if previousMid.Some? {
      sum := sum + AbsoluteReturnBps(previousMid.value, mid);
      count := count + 1;
    }
    var volatility := if count == 0 then 0.0 else sum / (count as real);

    updated := points;
    if |updated| == WINDOW {
      updated := updated[1..];
    }
    updated := updated + [Point(mid, imbalance, receivedAt)];
    rolling := Rolling(velocity, persistence, volatility);
  }

  // ---------- bounds and the window ----------

  lemma {:induction false} MatchingAtMostSigned(history: seq<Point>, sign: int)
    ensures CountMatching(history, sign) <= CountSigned(history)
  {
    if history != [] {
      MatchingAtMostSigned(history[..|history| - 1], sign);
    }
  }

  lemma QuotientInUnit(part: real, whole: real)
    requires 0.0 <= part <= whole && whole > 0.0
    ensures 0.0 <= part / whole <= 1.0
  {
    var q := part / whole;
    assert q * whole == part;
    assert q > 1.0 ==> (q - 1.0) * whole > 0.0;
    assert (q - 1.0) * whole == q * whole - whole;
    assert q < 0.0 ==> -q * whole > 0.0;
  }

  lemma NonNegativeQuotient(part: real, whole: real)
    requires 0.0 <= part && whole > 0.0
    ensures 0.0 <= part / whole
  {
    var q := part / whole;
    assert q * whole == part;
    assert q < 0.0 ==> -q * whole > 0.0;
  }

  lemma {:induction false} ReturnsNonNegative(history: seq<Point>)
    ensures SumReturns(history) >= 0.0
  {
    if |history| >= 2 {
      ReturnsNonNegative(history[..|history| - 1]);
      var p, c := history[|history| - 2].mid, history[|history| - 1].mid;
      if p > 0.0 {
        NonNegativeQuotient(Abs(c - p), p);
      }
    }
  }

  /** Persistence is a share and volatility is never negative. */
  lemma MeasuresBounded(history: seq<Point>)
    ensures 0.0 <= Persistence(history) <= 1.0
    ensures Volatility(history) >= 0.0
  {
    if history != [] && CountSigned(history) != 0 {
      var sign := Sign(history[|history| - 1].imbalance);
      MatchingAtMostSigned(history, sign);
      QuotientInUnit(CountMatching(history, sign) as real, CountSigned(history) as real);
    }
    if |history| >= 2 {
      ReturnsNonNegative(history);
      NonNegativeQuotient(SumReturns(history), (|history| - 1) as real);
    }
  }

  /** Pushing into the window keeps it the newest 32 of the whole history. */
  lemma PushKeepsNewest(history: seq<Point>, point: Point)
    ensures Push(Newest(history, 32), point) == Newest(history + [point], 32)
  {
  }

  /** The measures read the window plus the new point: the newest 33. */
  lemma WindowIsNewest(history: seq<Point>, point: Point)
    ensures Newest(history, 32) + [point] == Newest(history + [point], 33)
  {
  }
}
