/** What holds of the strict book over every run of well-formed messages. */
module StrictRuns {
  import opened Wrappers
  import opened BookTypes
  import opened BookSides
  import opened BookFeatures
  import opened RollingWindow
  import opened StrictBook

  // ---------- valid sides ----------

  ghost predicate Uncrossed(bids: Side, asks: Side) {
    forall b, a | b in bids && a in asks :: b < a
  }

  ghost predicate ValidSides(bids: Side, asks: Side) {
    && 1 <= |bids| <= MAX_DEPTH && 1 <= |asks| <= MAX_DEPTH
    && PositiveSide(bids) && PositiveSide(asks)
    && Uncrossed(bids, asks)
  }

  lemma ValidateIsUncrossed(bids: Side, asks: Side)
    ensures ValidateBook(bids, asks).Ok? <==> bids != map[] && asks != map[] && Uncrossed(bids, asks)
  {
    if bids != map[] && asks != map[] {
      var b, a := Best(Bid, bids.Keys), Best(Ask, asks.Keys);
      assert b in bids && a in asks;
      if b < a {
        forall p, q | p in bids && q in asks ensures p < q {
          assert p == b || Better(Bid, b, p);
          assert q == a || Better(Ask, a, q);
        }
      }
    }
  }

  lemma UpdateStaysPositive(side: Side, levels: seq<Level>)
    requires PositiveSide(side) && WellFormedLevels(levels) && SideUpdate(side, levels).Ok?
    ensures PositiveSide(SideUpdate(side, levels).value)
  {
    SideUpdateIsMerge(side, levels);
  }

  lemma SnapshotIsPositive(levels: seq<Level>)
    requires WellFormedLevels(levels) && SnapshotSide(levels).Ok?
    ensures PositiveSide(SnapshotSide(levels).value)
  {
    SnapshotSideIsUpserts(levels);
  }

  lemma {:induction false} SnapshotSize(levels: seq<Level>)
    requires SnapshotSide(levels).Ok?
    ensures |SnapshotSide(levels).value| <= |levels|
  {
    if levels != [] {
      SnapshotSize(levels[..|levels| - 1]);
    }
  }

  lemma LaddersTradable(bids: Side, asks: Side)
    requires ValidSides(bids, asks)
    ensures TradableLadders(Ladder(Bid, bids), Ladder(Ask, asks))
  {
    var b, a := Ladder(Bid, bids), Ladder(Ask, asks);
    assert b[0].price in bids && a[0].price in asks;
  }

  lemma SnapshotSidesValid(m: Message)
    requires WellFormed(m) && NextBook(m).Ok?
    ensures ValidSides(NextBook(m).value.0, NextBook(m).value.1)
  {
    var (bids, asks) := NextBook(m).value;
    SnapshotIsPositive(m.bids); SnapshotIsPositive(m.asks);
    SnapshotSize(m.bids); SnapshotSize(m.asks);
    ValidateIsUncrossed(bids, asks);
    NonEmptySize(bids); NonEmptySize(asks);
  }

  lemma NonEmptySize(side: Side)
    requires side != map[]
    ensures |side| >= 1
  {
    assert |side| != 0;
  }

  lemma IncrementSidesValid(bids: Side, asks: Side, m: Message)
    requires WellFormed(m) && PositiveSide(bids) && PositiveSide(asks) && Increment(bids, asks, m).Ok?
    ensures ValidSides(Increment(bids, asks, m).value.0, Increment(bids, asks, m).value.1)
  {
    var (b, a) := Increment(bids, asks, m).value;
    UpdateStaysPositive(bids, m.bids); UpdateStaysPositive(asks, m.asks);
    TrimKeepsBest(Bid, SideUpdate(bids, m.bids).value, MAX_DEPTH);
    TrimKeepsBest(Ask, SideUpdate(asks, m.asks).value, MAX_DEPTH);
    ValidateIsUncrossed(b, a);
    NonEmptySize(b); NonEmptySize(a);
  }

  // ---------- the state invariant ----------

  /** The cached features describe exactly the current book. */
  ghost predicate Describes(f: FeatureSnapshot, s: BookState)
    requires s.bids != map[] && s.asks != map[]
  {
    && f.instrumentId == s.instrumentId && f.epoch == s.epoch && f.generation == s.generation
    && Some(f.sequenceId) == s.sequenceId
    && f.bidLevelCount == |s.bids| && f.askLevelCount == |s.asks|
    && f.book.bestBid == Best(Bid, s.bids.Keys) && f.book.bestAsk == Best(Ask, s.asks.Keys)
    && FeatureBounds(f.book)
    && 0.0 <= f.rolling.persistence <= 1.0 && f.rolling.volatility >= 0.0
  }

  ghost predicate BookInvariant(s: BookState) {
    && (s.valid <==> s.sequenceId.Some?)
    && (s.valid <==> s.features.Some?)
    && (s.valid ==>
          ValidSides(s.bids, s.asks) && Describes(s.features.value, s) && 1 <= |s.points| <= WINDOW)
    && (!s.valid ==> s == Invalidated(s))
  }

  /** A validated book always yields features, and they describe it. */
  lemma FinishSucceeds(s: BookState, m: Message)
    requires s.valid && ValidSides(s.bids, s.asks) && s.sequenceId == Some(m.sequenceId) && |s.points| <= WINDOW
    ensures FinishFeatures(s, m).result.Ok? && FinishFeatures(s, m).result.value.Features?
    ensures FinishFeatures(s, m).state.features == Some(FinishFeatures(s, m).result.value.snapshot)
    ensures BookInvariant(FinishFeatures(s, m).state)
  {
    LaddersTradable(s.bids, s.asks);
    FeaturesOfTradableBook(Ladder(Bid, s.bids), Ladder(Ask, s.asks));
    var book := Static(Ladder(Bid, s.bids), Ladder(Ask, s.asks)).value;
    MeasuresBounded(s.points + [PointOf(book, m)]);
  }

  /** Exactly when a message is turned into features. */
  ghost predicate Accepts(s: BookState, m: Message) {
    && m.instrumentId == s.instrumentId
    && (if m.action == Snapshot then NextBook(m).Ok?
        else s.valid && s.sequenceId.Some? && !IsHeartbeat(m, s.sequenceId.value)
             && m.previousSequenceId == s.sequenceId.value < m.sequenceId
             && Increment(s.bids, s.asks, m).Ok?)
  }

  ghost predicate KeepsAlive(s: BookState, m: Message) {
    && m.instrumentId == s.instrumentId && m.action == Update
    && s.valid && s.sequenceId.Some? && IsHeartbeat(m, s.sequenceId.value)
  }

  ghost predicate Foreign(s: BookState, m: Message) {
    m.instrumentId != s.instrumentId
  }

  /** No message fails after its sides were validated: acceptance is decided
      by the sides and the sequence alone, every other own-instrument message
      leaves an empty book, and the invariant survives in all cases. */
  lemma StepKeepsInvariant(s: BookState, m: Message)
    requires BookInvariant(s) && WellFormed(m)
    ensures BookInvariant(Step(s, m).state)
    ensures Accepts(s, m) <==> Step(s, m).result.Ok? && Step(s, m).result.value.Features?
    ensures KeepsAlive(s, m) <==> Step(s, m).result == Ok(Heartbeat)
    ensures KeepsAlive(s, m) || Foreign(s, m) ==> Step(s, m).state == s
    ensures !Accepts(s, m) && !KeepsAlive(s, m) && !Foreign(s, m) ==> Step(s, m).state == Invalidated(s)
    ensures Accepts(s, m) ==> Step(s, m).state.valid
    ensures Accepts(s, m) ==> Step(s, m).state.features == Some(Step(s, m).result.value.snapshot)
  {
    if Accepts(s, m) {
      if m.action == Snapshot {
        SnapshotSidesValid(m);
        var (bids, asks) := NextBook(m).value;
        FinishSucceeds(StartEpoch(s, bids, asks, m), m);
      } else {
        IncrementSidesValid(s.bids, s.asks, m);
        var (bids, asks) := Increment(s.bids, s.asks, m).value;
        FinishSucceeds(Advance(s, bids, asks, m), m);
      }
    }
  }

  // ---------- runs ----------

  datatype Accepted = Accepted(message: Message, snapshot: FeatureSnapshot)

  /** A run with its history: the accepted messages of the current epoch, the
      number of feature outcomes and the number of accepted snapshots. */
  datatype Run = Run(state: BookState, epochLog: seq<Accepted>, featureCount: nat, snapshotCount: nat)

  predicate IsFeatures(r: Result<Outcome, BookError>) {
    r.Ok? && r.value.Features?
  }

  function Extend(run: Run, m: Message): Run {
    ExtendWith(run, m, Step(run.state, m))
  }

  function ExtendWith(run: Run, m: Message, t: Transition): Run {
    if IsFeatures(t.result) then
      var entry := Accepted(m, t.result.value.snapshot);
      if m.action == Snapshot then
        Run(t.state, [entry], run.featureCount + 1, run.snapshotCount + 1)
      else
        Run(t.state, run.epochLog + [entry], run.featureCount + 1, run.snapshotCount)
    else
      Run(t.state, if t.state.valid then run.epochLog else [], run.featureCount, run.snapshotCount)
  }

  /** The public calls that change a book. */
  datatype BookCall = Receive(message: Message) | Invalidate

  function Called(run: Run, call: BookCall): Run {
    match call
    case Receive(m) => Extend(run, m)
    case Invalidate => Run(Invalidated(run.state), [], run.featureCount, run.snapshotCount)
  }

  function Play(instrumentId: string, calls: seq<BookCall>): Run {
    if calls == [] then Run(Fresh(instrumentId), [], 0, 0)
    else Called(Play(instrumentId, calls[..|calls| - 1]), calls[|calls| - 1])
  }

  function Saturated(n: nat): nat { if n > U64_MAX then U64_MAX else n }

  function Rows(kind: SideKind, m: Message): seq<Level> { if kind.Bid? then m.bids else m.asks }

  /** The epoch's messages folded into a side that is never trimmed. */
  function Fold(kind: SideKind, log: seq<Accepted>): Result<Side, BookError> {
    if log == [] then Ok(map[])
    else
      var last := log[|log| - 1].message;
      if last.action == Snapshot then SnapshotSide(Rows(kind, last))
      else
        match Fold(kind, log[..|log| - 1])
        case Err(error) => Err(error)
        case Ok(side) => SideUpdate(side, Rows(kind, last))
  }

  /** The untrimmed fold exists and never exceeds the depth limit. */
  ghost predicate FitsDepth(kind: SideKind, log: seq<Accepted>) {
    forall i | 0 <= i <= |log| :: Fold(kind, log[..i]).Ok? && |Fold(kind, log[..i]).value| <= MAX_DEPTH
  }

  /** Trimming only forgets. */
  ghost predicate ForgetsOnly(kind: SideKind, side: Side, log: seq<Accepted>) {
    && Fold(kind, log).Ok?
    && Submap(side, Fold(kind, log).value)
    && (FitsDepth(kind, log) ==> side == Fold(kind, log).value)
  }

  function Observations(log: seq<Accepted>): (points: seq<Point>)
    ensures |points| == |log|
  {
    seq(|log|, i requires 0 <= i < |log| => PointOf(log[i].snapshot.book, log[i].message))
  }

  ghost predicate LinkAt(log: seq<Accepted>, i: int)
    requires 0 <= i < |log|
  {
    if i == 0 then log[0].message.action == Snapshot
    else
      && log[i].message.action == Update
      && log[i].message.previousSequenceId == log[i - 1].message.sequenceId
      && log[i - 1].message.sequenceId < log[i].message.sequenceId
  }

  /** One snapshot first, then increments that chain and strictly advance. */
  ghost predicate Chains(log: seq<Accepted>) {
    forall i | 0 <= i < |log| :: LinkAt(log, i)
  }

  ghost predicate MeasuredAt(log: seq<Accepted>, i: int)
    requires 0 <= i < |log|
  {
    log[i].snapshot.rolling == Measures(Newest(Observations(log)[..i + 1], 33))
  }

  /** Every outcome of the epoch measured its history: the newest 33 points. */
  ghost predicate MeasuresHistory(log: seq<Accepted>) {
    forall i | 0 <= i < |log| :: MeasuredAt(log, i)
  }

  /** The newest entry of the log is the current state of the book. */
  ghost predicate Heads(log: seq<Accepted>, s: BookState) {
    && (s.valid <==> log != [])
    && (log != [] ==>
          s.sequenceId == Some(log[|log| - 1].message.sequenceId) &&
          s.features == Some(log[|log| - 1].snapshot))
  }

  ghost predicate Counts(run: Run) {
    && run.state.generation == Saturated(run.featureCount)
    && run.state.epoch == Saturated(run.snapshotCount)
  }

  ghost predicate RunInvariant(run: Run) {
    && BookInvariant(run.state)
    && Counts(run)
    && Heads(run.epochLog, run.state)
    && Chains(run.epochLog)
    && run.state.points == Newest(Observations(run.epochLog), 32)
    && MeasuresHistory(run.epochLog)
    && ForgetsOnly(Bid, run.state.bids, run.epochLog)
    && ForgetsOnly(Ask, run.state.asks, run.epochLog)
  }

  lemma MergedMonotone(small: Side, large: Side, levels: seq<Level>)
    requires Submap(small, large) && SideUpdate(small, levels).Ok?
    ensures SideUpdate(large, levels).Ok?
    ensures Submap(SideUpdate(small, levels).value, SideUpdate(large, levels).value)
  {
    SideUpdateIsMerge(small, levels);
    SideUpdateIsMerge(large, levels);
  }

  lemma FitsDepthShrinks(kind: SideKind, log: seq<Accepted>, entry: Accepted)
    requires FitsDepth(kind, log + [entry])
    ensures FitsDepth(kind, log)
    ensures Fold(kind, log + [entry]).Ok? && |Fold(kind, log + [entry]).value| <= MAX_DEPTH
  {
    var longer := log + [entry];
    assert longer[..|longer|] == longer;
    forall i | 0 <= i <= |log| ensures Fold(kind, log[..i]).Ok? && |Fold(kind, log[..i]).value| <= MAX_DEPTH {
      assert longer[..i] == log[..i];
    }
  }

  lemma IncrementForgetsOnly(kind: SideKind, side: Side, log: seq<Accepted>, entry: Accepted)
    requires ForgetsOnly(kind, side, log) && entry.message.action == Update
    requires SideUpdate(side, Rows(kind, entry.message)).Ok?
    ensures ForgetsOnly(kind, Trimmed(kind, SideUpdate(side, Rows(kind, entry.message)).value, MAX_DEPTH), log + [entry])
  {
    var rows, longer := Rows(kind, entry.message), log + [entry];
    assert longer[..|longer| - 1] == log;
    MergedMonotone(side, Fold(kind, log).value, rows);
    var updated := SideUpdate(side, rows).value;
    TrimKeepsBest(kind, updated, MAX_DEPTH);
    if FitsDepth(kind, longer) {
      FitsDepthShrinks(kind, log, entry);
    }
  }

  lemma ObservationsExtend(log: seq<Accepted>, entry: Accepted)
    ensures Observations(log + [entry]) == Observations(log) + [PointOf(entry.snapshot.book, entry.message)]
  {
  }

  lemma LogExtends(log: seq<Accepted>, entry: Accepted)
    requires MeasuresHistory(log)
    requires entry.snapshot.rolling
          == Measures(Newest(Observations(log), WINDOW) + [PointOf(entry.snapshot.book, entry.message)])
    ensures MeasuresHistory(log + [entry])
  {
    var longer, point := log + [entry], PointOf(entry.snapshot.book, entry.message);
    ObservationsExtend(log, entry);
    forall i | 0 <= i < |longer|
      ensures MeasuredAt(longer, i)
    {
      if i < |log| {
        assert MeasuredAt(log, i) && longer[i] == log[i];
        assert Observations(longer)[..i + 1] == Observations(log)[..i + 1];
      } else {
        assert Observations(longer)[..i + 1] == Observations(log) + [point];
        WindowIsNewest(Observations(log), point);
      }
    }
  }

  /** What one accepted message does to the fields, for the run proofs. */
  ghost predicate AcceptedInto(s: BookState, m: Message, f: FeatureSnapshot, t: BookState) {
    && t.valid && t.sequenceId == Some(m.sequenceId) && t.features == Some(f)
    && t.generation == SaturatingNext(s.generation)
    && (if m.action == Snapshot then
          && t.epoch == SaturatingNext(s.epoch)
          && SnapshotSide(m.bids) == Ok(t.bids) && SnapshotSide(m.asks) == Ok(t.asks)
          && MeasuredOver([], f, m, t)
        else
          && t.epoch == s.epoch && s.valid
          && s.sequenceId == Some(m.previousSequenceId) && m.previousSequenceId < m.sequenceId
          && SideUpdate(s.bids, m.bids).Ok? && SideUpdate(s.asks, m.asks).Ok?
          && t.bids == Trimmed(Bid, SideUpdate(s.bids, m.bids).value, MAX_DEPTH)
          && t.asks == Trimmed(Ask, SideUpdate(s.asks, m.asks).value, MAX_DEPTH)
          && MeasuredOver(s.points, f, m, t))
  }

  ghost predicate MeasuredOver(points: seq<Point>, f: FeatureSnapshot, m: Message, t: BookState) {
    && t.points == Push(points, PointOf(f.book, m))
    && f.rolling == Measures(points + [PointOf(f.book, m)])
  }

  lemma FinishEffect(s: BookState, m: Message, t: Transition)
    requires t == FinishFeatures(s, m) && IsFeatures(t.result)
    ensures var f := t.result.value.snapshot;
            t.state == s.(features := Some(f), points := t.state.points) && MeasuredOver(s.points, f, m, t.state)
  {
  }

  lemma NextBookMeans(m: Message, bids: Side, asks: Side)
    requires NextBook(m) == Ok((bids, asks))
    ensures SnapshotSide(m.bids) == Ok(bids) && SnapshotSide(m.asks) == Ok(asks)
  {
  }

  lemma AcceptedSnapshotEffect(s: BookState, m: Message, bids: Side, asks: Side, t: Transition)
    requires NextBook(m) == Ok((bids, asks)) && m.action == Snapshot
    requires t == FinishFeatures(StartEpoch(s, bids, asks, m), m) && IsFeatures(t.result)
    requires t.state.valid
    ensures AcceptedInto(s, m, t.result.value.snapshot, t.state)
  {
    NextBookMeans(m, bids, asks);
    FinishEffect(StartEpoch(s, bids, asks, m), m, t);
  }

  lemma IncrementMeans(bids: Side, asks: Side, m: Message, newBids: Side, newAsks: Side)
    requires Increment(bids, asks, m) == Ok((newBids, newAsks))
    ensures SideUpdate(bids, m.bids).Ok? && newBids == Trimmed(Bid, SideUpdate(bids, m.bids).value, MAX_DEPTH)
    ensures SideUpdate(asks, m.asks).Ok? && newAsks == Trimmed(Ask, SideUpdate(asks, m.asks).value, MAX_DEPTH)
  {
  }

  lemma AcceptedIncrementEffect(s: BookState, m: Message, bids: Side, asks: Side, t: Transition)
    requires s.valid && m.action == Update
    requires s.sequenceId == Some(m.previousSequenceId) && m.previousSequenceId < m.sequenceId
    requires Increment(s.bids, s.asks, m) == Ok((bids, asks))
    requires t == FinishFeatures(Advance(s, bids, asks, m), m) && IsFeatures(t.result)
    ensures AcceptedInto(s, m, t.result.value.snapshot, t.state)
  {
    IncrementMeans(s.bids, s.asks, m, bids, asks);
    FinishEffect(Advance(s, bids, asks, m), m, t);
  }

  lemma AcceptedEffect(s: BookState, m: Message, t: Transition)
    requires BookInvariant(s) && WellFormed(m) && Accepts(s, m) && t == Step(s, m)
    ensures IsFeatures(t.result)
    ensures AcceptedInto(s, m, t.result.value.snapshot, t.state)
  {
    StepKeepsInvariant(s, m);
    if m.action == Snapshot {
      var (bids, asks) := NextBook(m).value;
      assert t == FinishFeatures(StartEpoch(s, bids, asks, m), m);
      AcceptedSnapshotEffect(s, m, bids, asks, t);
    } else {
      var (bids, asks) := Increment(s.bids, s.asks, m).value;
      assert t == FinishFeatures(Advance(s, bids, asks, m), m);
      AcceptedIncrementEffect(s, m, bids, asks, t);
    }
  }

  lemma SnapshotExtends(run: Run, m: Message, f: FeatureSnapshot, t: BookState, next: Run)
    requires RunInvariant(run) && m.action == Snapshot && BookInvariant(t)
    requires AcceptedInto(run.state, m, f, t)
    requires next == Run(t, [Accepted(m, f)], run.featureCount + 1, run.snapshotCount + 1)
    ensures RunInvariant(next)
  {
    var entry := Accepted(m, f);
    ForgetsNothingYet(Bid, t.bids, entry);
    ForgetsNothingYet(Ask, t.asks, entry);
    FirstObservation(entry, t);
  }

  lemma ForgetsNothingYet(kind: SideKind, side: Side, entry: Accepted)
    requires entry.message.action == Snapshot && SnapshotSide(Rows(kind, entry.message)) == Ok(side)
    ensures ForgetsOnly(kind, side, [entry])
  {
    assert Fold(kind, [entry]) == Ok(side);
  }

  lemma FirstObservation(entry: Accepted, t: BookState)
    requires MeasuredOver([], entry.snapshot, entry.message, t)
    ensures MeasuresHistory([entry]) && t.points == Newest(Observations([entry]), WINDOW)
  {
    var point := PointOf(entry.snapshot.book, entry.message);
    assert Observations([entry]) == [point];
    assert Observations([entry])[..1] == [] + [point];
    assert Push([], point) == [point];
  }

  lemma ChainsExtend(log: seq<Accepted>, entry: Accepted)
    requires Chains(log) && log != [] && entry.message.action == Update
    requires log[|log| - 1].message.sequenceId == entry.message.previousSequenceId < entry.message.sequenceId
    ensures Chains(log + [entry])
  {
    var longer := log + [entry];
    forall i | 0 <= i < |longer| ensures LinkAt(longer, i) {
      assert i < |log| ==> LinkAt(log, i);
    }
  }

  lemma IncrementExtends(run: Run, m: Message, f: FeatureSnapshot, t: BookState, next: Run)
    requires RunInvariant(run) && m.action == Update && BookInvariant(t)
    requires AcceptedInto(run.state, m, f, t)
    requires next == Run(t, run.epochLog + [Accepted(m, f)], run.featureCount + 1, run.snapshotCount)
    ensures RunInvariant(next)
  {
    var s, log, entry := run.state, run.epochLog, Accepted(m, f);
    ObservationsExtend(log, entry);
    PushKeepsNewest(Observations(log), PointOf(f.book, m));
    assert MeasuresHistory(log + [entry]) by { LogExtends(log, entry); }
    assert Chains(log + [entry]) by { ChainsExtend(log, entry); }
    assert ForgetsOnly(Bid, t.bids, log + [entry]) by { IncrementForgetsOnly(Bid, s.bids, log, entry); }
    assert ForgetsOnly(Ask, t.asks, log + [entry]) by { IncrementForgetsOnly(Ask, s.asks, log, entry); }
  }

  /** A transition either records features or leaves the book as it was or empty. */
  ghost predicate Faithful(s: BookState, m: Message, t: Transition) {
    && BookInvariant(t.state)
    && (if IsFeatures(t.result) then AcceptedInto(s, m, t.result.value.snapshot, t.state)
        else t.state == s || t.state == Invalidated(s))
  }

  lemma StepIsFaithful(s: BookState, m: Message)
    requires BookInvariant(s) && WellFormed(m)
    ensures Faithful(s, m, Step(s, m))
  {
    StepKeepsInvariant(s, m);
    if Accepts(s, m) {
      AcceptedEffect(s, m, Step(s, m));
    }
  }

  lemma FaithfulExtends(run: Run, m: Message, t: Transition, next: Run)
    requires RunInvariant(run) && Faithful(run.state, m, t) && next == ExtendWith(run, m, t)
    ensures RunInvariant(next)
  {
    if !IsFeatures(t.result) {
      RejectedExtends(run, t.state, next);
    } else {
      FeaturesExtend(run, m, t.result.value.snapshot, t.state, next);
    }
  }

  lemma FeaturesExtend(run: Run, m: Message, f: FeatureSnapshot, t: BookState, next: Run)
    requires RunInvariant(run) && BookInvariant(t) && AcceptedInto(run.state, m, f, t)
    requires next == ExtendWith(run, m, Transition(t, Ok(Features(f))))
    ensures RunInvariant(next)
  {
    if m.action == Snapshot {
      SnapshotExtends(run, m, f, t, next);
    } else {
      IncrementExtends(run, m, f, t, next);
    }
  }

  lemma RejectedExtends(run: Run, t: BookState, next: Run)
    requires RunInvariant(run) && (t == run.state || t == Invalidated(run.state))
    requires next == Run(t, if t.valid then run.epochLog else [], run.featureCount, run.snapshotCount)
    ensures RunInvariant(next)
  {
    assert Observations([]) == [];
  }

  lemma CallKeepsRunInvariant(run: Run, call: BookCall, next: Run)
    requires RunInvariant(run) && (call.Receive? ==> WellFormed(call.message)) && next == Called(run, call)
    ensures RunInvariant(next)
  {
    match call
    case Receive(m) =>
      StepIsFaithful(run.state, m);
      FaithfulExtends(run, m, Step(run.state, m), next);
    case Invalidate =>
      RejectedExtends(run, Invalidated(run.state), next);
  }

  /** The whole-run theorem of the strict book: messages and invalidations in any
      order. */
  lemma {:induction false} EveryRun(instrumentId: string, calls: seq<BookCall>)
    requires forall call | call in calls :: call.Receive? ==> WellFormed(call.message)
    ensures RunInvariant(Play(instrumentId, calls))
  {
    if calls == [] {
      assert Observations([]) == [];
    } else {
      EveryRun(instrumentId, calls[..|calls| - 1]);
      CallKeepsRunInvariant(Play(instrumentId, calls[..|calls| - 1]), calls[|calls| - 1], Play(instrumentId, calls));
    }
  }

  /** The cached features are those of the stored levels. */
  ghost predicate CachesCurrent(s: BookState) {
    s.features.Some? ==> Static(Ladder(Bid, s.bids), Ladder(Ask, s.asks)) == Ok(s.features.value.book)
  }

  lemma FinishCachesCurrent(s: BookState, m: Message)
    ensures CachesCurrent(FinishFeatures(s, m).state)
  {
  }

  lemma SnapshotCachesCurrent(s: BookState, m: Message)
    ensures CachesCurrent(SnapshotStep(s, m).state)
  {
    match NextBook(m)
    case Err(_) =>
    case Ok((bids, asks)) => FinishCachesCurrent(StartEpoch(s, bids, asks, m), m);
  }

  /** An increment either leaves the book alone, empties it, or finishes an advance. */
  lemma IncrementShape(s: BookState, m: Message)
    ensures var t := IncrementStep(s, m).state;
            || t == s || t == Invalidated(s)
            || (Increment(s.bids, s.asks, m).Ok?
                && var sides := Increment(s.bids, s.asks, m).value;
                   t == FinishFeatures(Advance(s, sides.0, sides.1, m), m).state)
  {
  }

  lemma IncrementCachesCurrent(s: BookState, m: Message)
    requires CachesCurrent(s)
    ensures CachesCurrent(IncrementStep(s, m).state)
  {
    IncrementShape(s, m);
    if Increment(s.bids, s.asks, m).Ok? {
      var sides := Increment(s.bids, s.asks, m).value;
      FinishCachesCurrent(Advance(s, sides.0, sides.1, m), m);
    }
  }

  lemma StepCachesCurrent(s: BookState, m: Message)
    requires CachesCurrent(s)
    ensures CachesCurrent(Step(s, m).state)
  {
    SnapshotCachesCurrent(s, m);
    IncrementCachesCurrent(s, m);
  }

  /** Over every run, malformed messages included, no stale features are served. */
  lemma {:induction false} EveryRunCachesCurrent(instrumentId: string, calls: seq<BookCall>)
    ensures CachesCurrent(Play(instrumentId, calls).state)
  {
    if calls != [] {
      EveryRunCachesCurrent(instrumentId, calls[..|calls| - 1]);
      match calls[|calls| - 1]
      case Receive(m) => StepCachesCurrent(Play(instrumentId, calls[..|calls| - 1]).state, m);
      case Invalidate =>
    }
  }
}
