/** The strict and the replay book agree: over any run, one of them stays clean
    exactly when the other one accepts everything without trimming, and then
    both hold the same levels. */
module BookAgreement {
  import opened Wrappers
  import opened BookTypes
  import opened BookSides
  import opened BookFeatures
  import opened StrictBook
  import opened StrictRuns
  import opened ReplayBook

  // ---------- one side ----------

  ghost predicate NothingCounted(c: SideCount) {
    c.invalid == 0 && c.unknown == 0 && c.duplicate == 0
  }

  lemma CleanRow(done: SideCount, seen: set<real>, row: Level)
    ensures NothingCounted(CountRow(done, seen, row)) <==>
              NothingCounted(done) && ApplyRow(done.side, seen, row).Ok? && row.price > 0.0 && row.quantity >= 0.0
    ensures NothingCounted(CountRow(done, seen, row)) ==>
              ApplyRow(done.side, seen, row).value == CountRow(done, seen, row).side
  {
  }

  ghost predicate CleanSide(side: Side, rows: seq<Level>) {
    NothingCounted(CountSide(side, rows))
  }

  lemma {:induction false} CleanSideIsUpdate(side: Side, rows: seq<Level>)
    ensures CleanSide(side, rows) <==> SideUpdate(side, rows).Ok? && WellFormedLevels(rows)
    ensures CleanSide(side, rows) ==> SideUpdate(side, rows).value == CountSide(side, rows).side
  {
    if rows != [] {
      var front, row := rows[..|rows| - 1], rows[|rows| - 1];
      CleanSideIsUpdate(side, front);
      CleanRow(CountSide(side, front), Prices(front), row);
      WellFormedExtends(front, row);
      assert rows == front + [row];
    }
  }

  lemma WellFormedExtends(front: seq<Level>, row: Level)
    ensures WellFormedLevels(front + [row]) <==> WellFormedLevels(front) && row.price > 0.0 && row.quantity >= 0.0
  {
    ExtendLevels(front, row);
  }

  ghost predicate ZeroFree(rows: seq<Level>) {
    forall row | row in rows :: row.quantity != 0.0
  }

  lemma {:induction false} LiveOfZeroFree(rows: seq<Level>)
    requires ZeroFree(rows)
    ensures Live(rows) == rows
    ensures SnapshotSide(rows).Ok? ==> |SnapshotSide(rows).value| == |rows|
  {
    if rows != [] {
      assert rows[|rows| - 1] in rows;
      LiveOfZeroFree(rows[..|rows| - 1]);
      assert rows == rows[..|rows| - 1] + [rows[|rows| - 1]];
    }
  }

  lemma OrderedIsDistinct(kind: SideKind, rows: seq<Level>)
    requires StrictlyOrdered(kind, rows)
    ensures DistinctPrices(rows)
  {
    forall i, j | 0 <= i < j < |rows| ensures rows[i].price != rows[j].price {
      OrderedPair(kind, rows, i, j);
    }
  }

  lemma {:induction false} OrderedPair(kind: SideKind, rows: seq<Level>, i: nat, j: nat)
    requires StrictlyOrdered(kind, rows) && i < j < |rows|
    ensures Better(kind, rows[i].price, rows[j].price)
    decreases j
  {
    if i + 1 < j {
      OrderedPair(kind, rows, i, j - 1);
      assert Better(kind, rows[j - 1].price, rows[j - 1 + 1].price);
    }
  }

  /** An ordered snapshot side is clean in the replay book exactly when it is
      well formed and names no removal ... */
  lemma CleanSnapshotSide(kind: SideKind, rows: seq<Level>)
    requires StrictlyOrdered(kind, rows)
    ensures CleanSide(map[], rows) <==> WellFormedLevels(rows) && ZeroFree(rows)
  {
    OrderedIsDistinct(kind, rows);
    CleanSideIsUpdate(map[], rows);
    SideUpdateIsMerge(map[], rows);
  }

  /** ... and the strict side is then the same. */
  lemma SnapshotSideAgrees(kind: SideKind, rows: seq<Level>)
    requires StrictlyOrdered(kind, rows) && WellFormedLevels(rows) && ZeroFree(rows)
    ensures SnapshotSide(rows) == Ok(CountSide(map[], rows).side)
    ensures |CountSide(map[], rows).side| == |rows|
  {
    OrderedIsDistinct(kind, rows);
    CleanSnapshotSide(kind, rows);
    CleanSideIsUpdate(map[], rows);
    SideUpdateIsMerge(map[], rows);
    LiveOfZeroFree(rows);
    SnapshotSideIsUpserts(rows);
    NothingToRemove(rows);
  }

  lemma NothingToRemove(rows: seq<Level>)
    requires DistinctPrices(rows)
    ensures Merged(map[], rows) == Upserts(rows)
  {
  }

  // ---------- one event ----------

  /** The replay book stays trusted and finds nothing unknown to remove. */
  ghost predicate CleanStep(r: ReplayState, m: Message, epoch: nat) {
    var t := ReplayStep(r, m, epoch, Some(m.sequenceId));
    t.result.Ok? && t.state.trusted && t.result.value.unknownRemovals == 0
  }

  /** The event follows the sequence a receiver has seen so far. */
  ghost predicate Continues(current: Option<int>, m: Message) {
    m.action == Snapshot
    || (current.Some? && (m.previousSequenceId == current.value < m.sequenceId || IsHeartbeat(m, current.value)))
  }

  ghost predicate Fits(updated: Result<Side, BookError>) {
    updated.Ok? && |updated.value| <= MAX_DEPTH
  }

  /** The strict book takes a well-formed event without needing to skip, sort or trim. */
  ghost predicate PlainStep(s: BookState, m: Message) {
    && Step(s, m).result.Ok?
    && WellFormed(m)
    && (if m.action == Snapshot then
          && StrictlyOrdered(Ask, m.asks) && StrictlyOrdered(Bid, m.bids)
          && ZeroFree(m.asks) && ZeroFree(m.bids)
        else Fits(SideUpdate(s.bids, m.bids)) && Fits(SideUpdate(s.asks, m.asks)))
  }

  ghost predicate Agree(s: BookState, r: ReplayState) {
    && s.instrumentId == r.instrumentId
    && BookInvariant(s) && s.valid && r.trusted && r.hasSnapshot
    && s.bids == r.bids && s.asks == r.asks
    && s.sequenceId == r.sequenceId
  }

  ghost predicate BothFresh(s: BookState, r: ReplayState) {
    s == Fresh(s.instrumentId) && r == FreshReplay(s.instrumentId)
  }

  function UpdatedSide(kind: SideKind, r: ReplayState, m: Message): Side {
    CountSide(if kind.Bid? then Opened(r, m).bids else Opened(r, m).asks, Rows(kind, m)).side
  }

  lemma ReplayEffect(r: ReplayState, m: Message, epoch: nat)
    requires m.instrumentId == r.instrumentId
    ensures var t := ReplayStep(r, m, epoch, Some(m.sequenceId)).state;
            && t.bids == UpdatedSide(Bid, r, m) && t.asks == UpdatedSide(Ask, r, m)
            && t.hasSnapshot == Opened(r, m).hasSnapshot
            && t.sequenceId == Some(m.sequenceId) && t.instrumentId == r.instrumentId
  {
  }

  ghost predicate UsableSides(bids: Side, asks: Side) {
    |bids| <= MAX_DEPTH && |asks| <= MAX_DEPTH && ValidateBook(bids, asks).Ok?
  }

  lemma FinishMeans(s: ReplayState, c: Counters)
    ensures var (finished, counted) := Finished(s, c);
            finished.trusted && counted.unknownRemovals == 0 <==>
              s.trusted && !Breaks(c) && c.unknownRemovals == 0 && UsableSides(s.bids, s.asks)
  {
  }

  lemma OpeningMeans(r: ReplayState, m: Message)
    ensures OpeningCounters(r, m).unknownRemovals == 0
    ensures !Breaks(OpeningCounters(r, m)) <==>
              && (m.action == Snapshot ==> StrictlyOrdered(Ask, m.asks) && StrictlyOrdered(Bid, m.bids))
              && (m.action == Update ==> r.hasSnapshot)
  {
  }

  lemma AddMeans(c: Counters, asks: SideCount, bids: SideCount)
    ensures var sum := AddCounts(AddCounts(c, asks), bids);
            !Breaks(sum) && sum.unknownRemovals == 0 <==>
              !Breaks(c) && c.unknownRemovals == 0 && NothingCounted(asks) && NothingCounted(bids)
  {
  }

  lemma CountersMean(r: ReplayState, m: Message)
    ensures var (leveled, c) := Leveled(r, m);
            && leveled == Opened(r, m).(bids := UpdatedSide(Bid, r, m), asks := UpdatedSide(Ask, r, m))
            && (!Breaks(c) && c.unknownRemovals == 0 <==>
                  && CleanSide(Opened(r, m).bids, m.bids) && CleanSide(Opened(r, m).asks, m.asks)
                  && (m.action == Snapshot ==> StrictlyOrdered(Ask, m.asks) && StrictlyOrdered(Bid, m.bids))
                  && (m.action == Update ==> r.hasSnapshot))
  {
    OpeningMeans(r, m);
    AddMeans(OpeningCounters(r, m), CountSide(Opened(r, m).asks, m.asks), CountSide(Opened(r, m).bids, m.bids));
  }

  /** What a clean replay step means, anomaly by anomaly. */
  lemma CleanStepMeans(r: ReplayState, m: Message, epoch: nat)
    requires m.instrumentId == r.instrumentId
    ensures CleanStep(r, m, epoch) <==>
              && Opened(r, m).trusted && Opened(r, m).hasSnapshot
              && CleanSide(Opened(r, m).bids, m.bids) && CleanSide(Opened(r, m).asks, m.asks)
              && (m.action == Snapshot ==> StrictlyOrdered(Ask, m.asks) && StrictlyOrdered(Bid, m.bids))
              && UsableSides(UpdatedSide(Bid, r, m), UpdatedSide(Ask, r, m))
  {
    var (leveled, c) := Leveled(r, m);
    CountersMean(r, m);
    FinishMeans(leveled.(sequenceEpoch := Some(epoch), sequenceId := Some(m.sequenceId)), c);
  }

  lemma SnapshotsAgree(s: BookState, r: ReplayState, m: Message, epoch: nat)
    requires BookInvariant(s) && s.instrumentId == r.instrumentId == m.instrumentId && m.action == Snapshot
    ensures CleanStep(r, m, epoch) <==> PlainStep(s, m)
    ensures PlainStep(s, m) ==> Agree(Step(s, m).state, ReplayStep(r, m, epoch, Some(m.sequenceId)).state)
    ensures PlainStep(s, m) ==> Step(s, m).state.sequenceId == Some(m.sequenceId)
  {
    CleanStepMeans(r, m, epoch);
    if StrictlyOrdered(Ask, m.asks) && StrictlyOrdered(Bid, m.bids) {
      CleanSnapshotSide(Ask, m.asks);
      CleanSnapshotSide(Bid, m.bids);
      if WellFormed(m) && ZeroFree(m.asks) && ZeroFree(m.bids) {
        SnapshotSideAgrees(Ask, m.asks);
        SnapshotSideAgrees(Bid, m.bids);
        StepKeepsInvariant(s, m);
        if Accepts(s, m) {
          AcceptedEffect(s, m, Step(s, m));
          ReplayEffect(r, m, epoch);
        }
      }
    }
  }

  /** An update that fits needs no trim. */
  lemma IncrementWithoutTrim(bids: Side, asks: Side, m: Message)
    requires Fits(SideUpdate(bids, m.bids)) && Fits(SideUpdate(asks, m.asks))
    ensures var b, a := SideUpdate(bids, m.bids).value, SideUpdate(asks, m.asks).value;
            Increment(bids, asks, m).Ok? <==> ValidateBook(b, a).Ok?
  {
  }

  lemma HeartbeatsAgree(s: BookState, r: ReplayState, m: Message, epoch: nat)
    requires Agree(s, r) && m.instrumentId == s.instrumentId && m.action == Update
    requires IsHeartbeat(m, s.sequenceId.value)
    ensures CleanStep(r, m, epoch) && PlainStep(s, m)
    ensures Agree(Step(s, m).state, ReplayStep(r, m, epoch, Some(m.sequenceId)).state)
  {
    CleanStepMeans(r, m, epoch);
    ReplayEffect(r, m, epoch);
    ValidateIsUncrossed(s.bids, s.asks);
  }

  /** For a chained update both books ask for the same thing. */
  lemma UpdateConditionsAgree(s: BookState, r: ReplayState, m: Message, epoch: nat)
    requires Agree(s, r) && m.instrumentId == s.instrumentId && m.action == Update
    ensures CleanStep(r, m, epoch) <==>
              WellFormed(m) && Fits(SideUpdate(s.bids, m.bids)) && Fits(SideUpdate(s.asks, m.asks))
              && Increment(s.bids, s.asks, m).Ok?
  {
    CleanStepMeans(r, m, epoch);
    CleanSideIsUpdate(s.bids, m.bids);
    CleanSideIsUpdate(s.asks, m.asks);
    if Fits(SideUpdate(s.bids, m.bids)) && Fits(SideUpdate(s.asks, m.asks)) {
      IncrementWithoutTrim(s.bids, s.asks, m);
    }
  }

  lemma UpdatesAgree(s: BookState, r: ReplayState, m: Message, epoch: nat)
    requires Agree(s, r) && m.instrumentId == s.instrumentId && m.action == Update
    requires !IsHeartbeat(m, s.sequenceId.value)
    ensures Continues(s.sequenceId, m) && CleanStep(r, m, epoch) <==> PlainStep(s, m)
  {
    UpdateConditionsAgree(s, r, m, epoch);
    if WellFormed(m) {
      StepKeepsInvariant(s, m);
    }
  }

  lemma UpdatesLandAlike(s: BookState, r: ReplayState, m: Message, epoch: nat)
    requires Agree(s, r) && m.instrumentId == s.instrumentId && m.action == Update
    requires !IsHeartbeat(m, s.sequenceId.value) && PlainStep(s, m)
    ensures Agree(Step(s, m).state, ReplayStep(r, m, epoch, Some(m.sequenceId)).state)
    ensures Step(s, m).state.sequenceId == Some(m.sequenceId)
  {
    StepKeepsInvariant(s, m);
    AcceptedEffect(s, m, Step(s, m));
    ReplayEffect(r, m, epoch);
    CleanSideIsUpdate(s.bids, m.bids);
    CleanSideIsUpdate(s.asks, m.asks);
    UpdatesAgree(s, r, m, epoch);
  }

  lemma StepsAgree(s: BookState, r: ReplayState, m: Message, epoch: nat)
    requires Agree(s, r) || BothFresh(s, r)
    ensures Continues(s.sequenceId, m) && CleanStep(r, m, epoch) <==> PlainStep(s, m)
    ensures PlainStep(s, m) ==> Agree(Step(s, m).state, ReplayStep(r, m, epoch, Some(m.sequenceId)).state)
    ensures PlainStep(s, m) ==> Step(s, m).state.sequenceId == Some(m.sequenceId)
  {
    if m.instrumentId == s.instrumentId {
      if m.action == Snapshot {
        SnapshotsAgree(s, r, m, epoch);
      } else if Agree(s, r) {
        if IsHeartbeat(m, s.sequenceId.value) {
          HeartbeatsAgree(s, r, m, epoch);
        } else {
          UpdatesAgree(s, r, m, epoch);
          if PlainStep(s, m) { UpdatesLandAlike(s, r, m, epoch); }
        }
      }
    }
  }

  // ---------- runs ----------

  datatype Event = Event(message: Message, epoch: nat)

  function StrictAfter(s: BookState, events: seq<Event>): BookState {
    if events == [] then s
    else Step(StrictAfter(s, events[..|events| - 1]), events[|events| - 1].message).state
  }

  function ReplayAfter(r: ReplayState, events: seq<Event>): ReplayState {
    if events == [] then r
    else
      var e := events[|events| - 1];
      ReplayStep(ReplayAfter(r, events[..|events| - 1]), e.message, e.epoch, Some(e.message.sequenceId)).state
  }

  function LastId(events: seq<Event>): Option<int> {
    if events == [] then None else Some(events[|events| - 1].message.sequenceId)
  }

  /** Every update follows the event before it. */
  ghost predicate Chained(events: seq<Event>) {
    forall i | 0 <= i < |events| :: Continues(LastId(events[..i]), events[i].message)
  }

  ghost predicate ReplayStaysClean(r: ReplayState, events: seq<Event>) {
    forall i | 0 <= i < |events| ::
      CleanStep(ReplayAfter(r, events[..i]), events[i].message, events[i].epoch)
  }

  ghost predicate StrictStaysPlain(s: BookState, events: seq<Event>) {
    forall i | 0 <= i < |events| :: PlainStep(StrictAfter(s, events[..i]), events[i].message)
  }

  lemma SplitPlain(s: BookState, front: seq<Event>, e: Event)
    ensures StrictStaysPlain(s, front + [e])
       <==> StrictStaysPlain(s, front) && PlainStep(StrictAfter(s, front), e.message)
  {
    var all := front + [e];
    assert all[|front|] == e && all[..|front|] == front;
    assert forall i | 0 <= i < |front| :: all[i] == front[i] && all[..i] == front[..i];
  }

  lemma SplitClean(r: ReplayState, front: seq<Event>, e: Event)
    ensures ReplayStaysClean(r, front + [e])
       <==> ReplayStaysClean(r, front) && CleanStep(ReplayAfter(r, front), e.message, e.epoch)
  {
    var all := front + [e];
    assert all[|front|] == e && all[..|front|] == front;
    assert forall i | 0 <= i < |front| :: all[i] == front[i] && all[..i] == front[..i];
  }

  lemma SplitChained(front: seq<Event>, e: Event)
    ensures Chained(front + [e]) <==> Chained(front) && Continues(LastId(front), e.message)
  {
    var all := front + [e];
    assert all[|front|] == e && all[..|front|] == front;
    assert forall i | 0 <= i < |front| :: all[i] == front[i] && all[..i] == front[..i];
  }

  /** A run that opens with a snapshot may follow anything: earlier runs, faults,
      lost trust. Only fresh books may see another event first. */
  ghost predicate Opens(s: BookState, r: ReplayState, events: seq<Event>) {
    BothFresh(s, r) || events == [] || events[0].message.action == Snapshot
  }

  lemma OneMoreAgrees(s: BookState, r: ReplayState, front: seq<Event>, e: Event)
    requires BookInvariant(s) && s.instrumentId == r.instrumentId && Opens(s, r, front + [e])
    requires Chained(front) && ReplayStaysClean(r, front) && StrictStaysPlain(s, front)
    requires front != [] ==> Agree(StrictAfter(s, front), ReplayAfter(r, front))
    requires front != [] ==> StrictAfter(s, front).sequenceId == LastId(front)
    ensures var after, replayed := StrictAfter(s, front), ReplayAfter(r, front);
            && (Continues(LastId(front), e.message) && CleanStep(replayed, e.message, e.epoch)
                <==> PlainStep(after, e.message))
            && (PlainStep(after, e.message) ==>
                  && Agree(Step(after, e.message).state,
                           ReplayStep(replayed, e.message, e.epoch, Some(e.message.sequenceId)).state)
                  && Step(after, e.message).state.sequenceId == Some(e.message.sequenceId))
  {
    if front == [] && !BothFresh(s, r) {
      assert (front + [e])[0] == e;
      if e.message.instrumentId == s.instrumentId {
        SnapshotsAgree(s, r, e.message, e.epoch);
      }
    } else {
      StepsAgree(StrictAfter(s, front), ReplayAfter(r, front), e.message, e.epoch);
    }
  }

  /** The run is clean for one book exactly when it is plain for the other, and
      then both hold the same levels and sequence id. */
  ghost predicate AgreeOver(s: BookState, r: ReplayState, events: seq<Event>) {
    && (Chained(events) && ReplayStaysClean(r, events) <==> StrictStaysPlain(s, events))
    && (StrictStaysPlain(s, events) && events != [] ==>
          && Agree(StrictAfter(s, events), ReplayAfter(r, events))
          && StrictAfter(s, events).sequenceId == LastId(events))
  }

  lemma AgreementExtends(s: BookState, r: ReplayState, front: seq<Event>, e: Event, events: seq<Event>)
    requires BookInvariant(s) && s.instrumentId == r.instrumentId && Opens(s, r, events)
    requires events == front + [e] && AgreeOver(s, r, front)
    ensures AgreeOver(s, r, events)
  {
    SplitPlain(s, front, e);
    SplitClean(r, front, e);
    SplitChained(front, e);
    if StrictStaysPlain(s, front) {
      OneMoreAgrees(s, r, front, e);
    }
    assert events[..|events| - 1] == front;
  }

  /** Both directions over every run from any two books of one instrument: a
      chained run keeps the replay book trusted with no unknown removal exactly
      when the strict book accepts every event and each is well formed, ordered
      and within depth; both books then hold identical sides and the same sequence
      id, whatever they held before. */
  lemma {:induction false} BooksAgree(s: BookState, r: ReplayState, events: seq<Event>)
    requires BookInvariant(s) && s.instrumentId == r.instrumentId && Opens(s, r, events)
    ensures AgreeOver(s, r, events)
  {
    if events != [] {
      var front, e := events[..|events| - 1], events[|events| - 1];
      assert events == front + [e];
      assert front != [] ==> front[0] == events[0];
      BooksAgree(s, r, front);
      AgreementExtends(s, r, front, e, events);
    }
  }

  /** In particular from two new books, for every sequence of events. */
  lemma NewBooksAgree(instrumentId: string, events: seq<Event>)
    ensures AgreeOver(Fresh(instrumentId), FreshReplay(instrumentId), events)
  {
    BooksAgree(Fresh(instrumentId), FreshReplay(instrumentId), events);
  }
}
