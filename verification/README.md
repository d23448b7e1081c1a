# OKX trading runtime: a Dafny model

This project models the stateful core of an OKX spot trading runtime and proves
what its state machines keep over whole runs. Every module follows one source
file or component. Code that updates fields in place is a class whose methods are
proved equal to a pure step function; the properties are lemmas about that
function, over every input and every run.

**Level-2 books.** `BookTypes`, `BookSides`, `BookFeatures`, `RollingWindow`,
`StrictBook`, `StrictRuns`, `StrictOutcomes`, `FeatureMeaning` and `FeatureFields`
model the strict book: a snapshot
starts an epoch, chained increments extend it, any fault empties it, each side is
trimmed to 400 levels, and features are cached. `ReplayBook` and `ReplayOutcomes` are the
lenient book with sticky trust. `BookAgreement` relates the two. Prices and quantities are exact
reals. Input rows of the strict book are taken with a positive price and a
non-negative quantity, which the parser enforces
(crates/okx-public-protocol/src/lib.rs:142-147); nothing is assumed of the rows of
the replay book.

**REST client.** `RatePacer` is the sliding-window limiter with cooldowns,
`Pagination` the cursor loops, `CapabilityCache` the two-lock cache under arbitrary
interleavings, `CandleMerge` the overlay of live candle hints.

**Runtime loop.** `HealthTracker`, `TickFailures`, `StrategyDispatch` and
`TradingEngine` model the loop: one input per `select!` arm, one decision per
input. `EngineRuns` proves reconciliation before dispatch and what becomes of
confirmed candles, `EngineOutcomes` what every other input leads to and when a run goes
on. `ExitPolicy` models the engine's exits together with the
exchange's Cancel-All-After timer.

**Timing.** `CaaTiming` holds the two timeout computations and the dispatch budget,
`Heartbeat` the timed refresh loop against the exchange's expiry timer. `Ordered` and
`Wrappers` hold what several modules share.

Three properties hold only under a condition, and each condition is an if and only
if:

- A run whose events chain keeps the replay book trusted without unknown removals
  exactly when every event is *plain* for the strict book: accepted, well formed,
  ordered and zero-free in snapshots, and needing no trim. Both books then hold the
  same levels, whatever state they were in when the run's first snapshot arrived
  (`BookAgreement.BooksAgree`). The levels can also coincide on runs that are not
  plain: a snapshot whose bids are listed out of order builds the same side in both
  books and costs the replay book its trust.
- The engine's last report about the Cancel-All-After timer can be wrong: a refresh
  given up when the heartbeat stops may land after the confirmed disarm
  (`ExitPolicy.StoppedRefreshCanRearm`). The report is true in every run that looks
  the same to the engine exactly when it has not both confirmed a disarm and given up
  a heartbeat refresh (`ExitPolicy.ReportStaysTrueIff`); told before a shutdown whose
  disarm is confirmed, exactly when every refresh was acknowledged and the stop
  arrives between two refreshes (`ExitPolicy.ShutdownReportStaysTrueIff`).
- The first heartbeat refresh arrives, or is reported failed, before the startup arm
  expires exactly when two periods still fit after the spawn
  (`Heartbeat.FirstGapIsExact`). The source spawns the heartbeat after the arm's
  reply; that delay is bounded by the HTTP request timeout
  (crates/okx-trading-runtime/src/okx/client.rs:346-355), which is unrelated to the
  window.

The pacer takes its instant before the lock, so a later lock section may carry an
older reading. Its spacing lemmas therefore carry the largest such skew as a
parameter; with no skew they are the plain window plus 50 ms.

## Model

| member | source | states |
|---|---|---|
| BookSides.Best | crates/okx-market-model/src/level2.rs:340-349 | the end key of an ordered side: highest bid, lowest ask |
| BookSides.ApplySide | crates/okx-market-model/src/level2.rs:764-788 | the in-place row loop computes the fold `SideUpdate`, result and error alike |
| BookSides.SideUpdateIsMerge | crates/okx-market-model/src/level2.rs:764-788 | success iff prices are distinct and removals name stored prices; the result is the side minus removals overlaid with upserts |
| BookSides.SideUpdateIsOrderFree | crates/okx-market-model/src/level2.rs:764-788 | every permutation of the rows has the same success and the same side |
| BookSides.BuildSnapshotSide | crates/okx-market-model/src/level2.rs:740-762 | the snapshot loop computes `SnapshotSide` |
| BookSides.SnapshotSideIsUpserts | crates/okx-market-model/src/level2.rs:740-762 | accepted iff the non-zero rows have distinct prices, and exactly those rows are stored |
| BookSides.TrimToDepth | crates/okx-market-model/src/level2.rs:790-801 | the pop loop computes `Trimmed` at 400 levels |
| BookSides.TrimKeepsBest | crates/okx-market-model/src/level2.rs:790-801 | a trim keeps a submap of the right size whose prices are all better than the dropped ones |
| BookSides.TrimIsUnique | crates/okx-market-model/src/level2.rs:790-801 | nothing but the trim has that property |
| BookSides.TrimKeepsTop | crates/okx-market-model/src/level2.rs:790-801 | a trim leaves the best price and its level unchanged |
| BookFeatures.Ladder | crates/okx-market-model/src/level2.rs:420-435 | a side in iteration order: sorted from the touch, every level once |
| BookFeatures.ClassicBetween | crates/okx-market-model/src/level2.rs:352-358 | the classic microprice lies strictly inside the spread |
| BookFeatures.MultiLevelBetween | crates/okx-market-model/src/level2.rs:369 | the multi-level microprice lies strictly inside the spread |
| BookFeatures.ImbalancesBounded | crates/okx-market-model/src/level2.rs:420-471 | every imbalance lies strictly between -1 and 1, at any depth |
| BookFeatures.NearShareBounded | crates/okx-market-model/src/level2.rs:543-572 | the 5-level notional never exceeds the 50-level one |
| BookFeatures.SlopesPositive | crates/okx-market-model/src/level2.rs:507-541 | both depth slopes are positive |
| BookFeatures.FeaturesOfTradableBook | crates/okx-market-model/src/level2.rs:334-418 | no feature of a valid book fails, all bounds hold together, and the vacuum's clamp is the identity |
| BookFeatures.EarlyExitIsExact | crates/okx-market-model/src/level2.rs:484-505 | stopping at the first level outside the threshold loses no level inside it |
| BookFeatures.DepthToMoveIsMonotone | crates/okx-market-model/src/level2.rs:484-505 | quantity and notional on both sides grow with the basis points |
| FeatureMeaning.SignedRatioLeans | crates/okx-market-model/src/level2.rs:821-828 | its sign tells which side is larger; exchanging the sides negates it |
| FeatureMeaning.ImbalancesLean | crates/okx-market-model/src/level2.rs:420-471 | each imbalance is positive iff the bid sum is larger, and antisymmetric |
| FeatureMeaning.ClassicLeans | crates/okx-market-model/src/level2.rs:352-358 | the classic microprice divides the spread in the ratio of the quantities, above the mid iff the bid is larger |
| FeatureMeaning.DisplacementLeans | crates/okx-market-model/src/level2.rs:368-369 | the displacement is half the spread times the weighted imbalance, and the price is above mid iff that is positive |
| FeatureMeaning.VacuumIsZeroIff | crates/okx-market-model/src/level2.rs:543-572 | the vacuum is zero iff neither side has a sixth level |
| FeatureMeaning.VelocityLeans | crates/okx-market-model/src/level2.rs:580-599 | velocity has the sign of the imbalance change |
| FeatureMeaning.PersistenceIsOneIff | crates/okx-market-model/src/level2.rs:600-618 | persistence is positive, and one iff no observation opposes the newest |
| FeatureMeaning.VolatilityIsZeroIff | crates/okx-market-model/src/level2.rs:619-634 | volatility is zero iff the mid never moved |
| FeatureMeaning.VelocityMeans | crates/okx-market-model/src/level2.rs:580-599 | velocity times the whole microseconds is a million times the imbalance change; zero without any |
| FeatureMeaning.PersistenceMeans | crates/okx-market-model/src/level2.rs:600-618 | persistence times the number of leaning observations is the number that lean as the newest |
| FeatureMeaning.VolatilityMeans | crates/okx-market-model/src/level2.rs:619-634 | volatility times the number of moves is the sum of absolute returns in basis points |
| FeatureFields.ImbalancesMean | crates/okx-market-model/src/level2.rs:359-373 | each imbalance field, L1 to L400, notional and weighted, times both sides' depth is their difference, over the levels its name says |
| FeatureFields.PricesMean | crates/okx-market-model/src/level2.rs:350-369 | best prices, spread, mid and both microprices by their equations |
| FeatureFields.DepthsMean | crates/okx-market-model/src/level2.rs:473-505 | each depth move sums exactly the levels within its own basis points of the mid; near depth is the ten best of each side |
| FeatureFields.SlopesMean | crates/okx-market-model/src/level2.rs:507-541 | each slope times mid times depth is the distance of the edge in ten-thousandths |
| FeatureFields.VacuumMeans | crates/okx-market-model/src/level2.rs:543-572 | one minus the vacuum is the smaller share of five levels in fifty, by notional |
| RollingWindow.RollingFeatures | crates/okx-market-model/src/level2.rs:574-645 | the counting and summing loops compute the measures' definitions over stored points plus the new one, and push it |
| RollingWindow.MeasuresBounded | crates/okx-market-model/src/level2.rs:600-634 | persistence lies in [0, 1], volatility is not negative |
| RollingWindow.PushKeepsNewest | crates/okx-market-model/src/level2.rs:636-643 | pushing keeps the window the newest 32 of the whole history |
| RollingWindow.WindowIsNewest | crates/okx-market-model/src/level2.rs:574-645 | window plus new point are the newest 33 |
| StrictBook.OkxLevel2Book.constructor | crates/okx-market-model/src/level2.rs:149-161 | a new book is empty, invalid, at epoch and generation zero |
| StrictBook.OkxLevel2Book.Invalidate | crates/okx-market-model/src/level2.rs:195-202 | empties everything but the two counters |
| StrictBook.OkxLevel2Book.Apply | crates/okx-market-model/src/level2.rs:178-193 | the whole new state and result are those of `Step` |
| StrictBook.OkxLevel2Book.ApplySnapshot | crates/okx-market-model/src/level2.rs:220-258 | depth limits, side building, validation, new epoch, or an empty book with the first fault |
| StrictBook.OkxLevel2Book.ApplyIncrement | crates/okx-market-model/src/level2.rs:260-320 | heartbeat, gap, regression, side updates in order, trim, validation, or an empty book |
| StrictBook.OkxLevel2Book.Finish | crates/okx-market-model/src/level2.rs:322-332 | features are cached and returned, or the book is emptied |
| StrictBook.OkxLevel2Book.Cache | crates/okx-market-model/src/level2.rs:375-417 | the snapshot carries epoch, generation, sequence and counts of the state, and the window advances |
| StrictRuns.ValidateIsUncrossed | crates/okx-market-model/src/level2.rs:803-819 | comparing the two best prices decides that every bid is below every ask |
| StrictRuns.FinishSucceeds | crates/okx-market-model/src/level2.rs:322-418 | feature errors after validation cannot happen, and the cached features describe the book |
| StrictRuns.StepKeepsInvariant | crates/okx-market-model/src/level2.rs:178-320 | the state invariant survives; acceptance, heartbeat and emptying are each characterised by a condition on the input |
| StrictRuns.IncrementForgetsOnly | crates/okx-market-model/src/level2.rs:296-305 | an increment keeps a side a submap of the untrimmed fold, equal while the fold fits |
| StrictRuns.EveryRun | crates/okx-market-model/src/level2.rs:178-356 | over every run of messages and invalidations: valid iff sequence iff features; positive uncrossed sides of 1 to 400 levels; ids chain and increase; counters count outcomes, saturating; measures equal their definition over the epoch's newest 33 observations; trimming only forgets |
| StrictRuns.EveryRunCachesCurrent | crates/okx-market-model/src/level2.rs:204-206 | over every run of messages and invalidations, malformed messages included, cached features are those of the stored levels |
| StrictOutcomes.UpdateOverlays | crates/okx-market-model/src/level2.rs:764-788 | an update succeeds iff no price repeats and removals name stored prices, and then stores each row's own quantity and count and leaves the rest |
| StrictOutcomes.SnapshotStores | crates/okx-market-model/src/level2.rs:740-762 | a snapshot side is accepted iff its non-zero rows repeat no price, and holds those rows' quantities and counts and nothing else |
| StrictOutcomes.IncrementTakenIff | crates/okx-market-model/src/level2.rs:283-318 | an advancing update whose rows apply is taken iff the 400 best levels of each side are two-sided and uncrossed, and those are stored; otherwise an empty book and the reason |
| StrictOutcomes.IncrementRefused | crates/okx-market-model/src/level2.rs:764-788 | a faulty row empties the book; the error is the first faulty bid row's, else the first faulty ask row's |
| StrictOutcomes.SnapshotTakenIff | crates/okx-market-model/src/level2.rs:220-258 | taken iff within 400 rows, without repeated non-zero prices, two-sided and uncrossed; stores exactly the rows or empties the book |
| StrictOutcomes.OtherOutcomes | crates/okx-market-model/src/level2.rs:178-283 | heartbeat, foreign instrument, early update, gap and regression: each iff or with its own condition, error and effect |
| StrictOutcomes.FeaturesCarryMessage | crates/okx-market-model/src/level2.rs:375-386 | returned features carry the message's stamps, the level counts, and the newest rolling point |
| ReplayBook.ApplyRows | crates/okx-market-model/src/replay_book.rs:347-376 | the row loop computes the side and the three row anomalies |
| ReplayBook.OrderBook.constructor | crates/okx-market-model/src/replay_book.rs:71-81 | a new book is empty and untrusted |
| ReplayBook.OrderBook.Reset | crates/okx-market-model/src/replay_book.rs:90-97 | everything returns to the fresh state |
| ReplayBook.OrderBook.MarkUntrusted | crates/okx-market-model/src/replay_book.rs:99-101 | only the trust is lost |
| ReplayBook.OrderBook.ApplyLevels | crates/okx-market-model/src/replay_book.rs:140-162 | a snapshot clears and re-trusts, an update before one distrusts, rows are applied and counted |
| ReplayBook.OrderBook.FinishApply | crates/okx-market-model/src/replay_book.rs:164-187 | overflow, empty and crossed sides are counted; anomalies other than unknown removals end the trust |
| ReplayBook.OrderBook.Apply | crates/okx-market-model/src/replay_book.rs:103-113 | the whole event is `ReplayStep`; a foreign instrument changes nothing |
| ReplayBook.OrderBook.ApplyHistorical | crates/okx-market-model/src/replay_book.rs:115-127 | the same without a sequence id |
| ReplayBook.StepKeepsReplayInvariant | crates/okx-market-model/src/replay_book.rs:140-187 | stored levels stay positive even untrusted; trust means a two-sided uncrossed book within depth |
| ReplayBook.EveryReplayRun | crates/okx-market-model/src/replay_book.rs:90-187 | that invariant over every sequence of calls with arbitrary rows |
| ReplayBook.ReplayFeaturesAgree | crates/okx-market-model/src/replay_book.rs:227-243 | trusted or not, the imbalance is the strict one, and missing only on an empty book |
| ReplayBook.ReplayPriceInside | crates/okx-market-model/src/replay_book.rs:279-283 | on any two-sided uncrossed book, trusted or not, the multi-level price lies inside the spread |
| ReplayBook.WeightedMicroprice | crates/okx-market-model/src/replay_book.rs:255-277 | the accumulating loop computes the rank-weighted mean |
| ReplayBook.WeightedMicropriceBetween | crates/okx-market-model/src/replay_book.rs:255-277 | it exists iff a level is asked for, and lies strictly between the deepest bid and ask used |
| ReplayOutcomes.RowsMean | crates/okx-market-model/src/replay_book.rs:347-376 | only the first row of a price counts, and only when well made; the three row anomalies are counted one by one and the other rows applied |
| ReplayOutcomes.RowCountersMean | crates/okx-market-model/src/replay_book.rs:140-162 | an event applies both sides to what it starts from and adds both sides' row anomalies |
| ReplayOutcomes.EventCountersMean | crates/okx-market-model/src/replay_book.rs:140-187 | order, early update, depth, emptiness and crossing are each counted once, by condition |
| ReplayOutcomes.TrustedIff | crates/okx-market-model/src/replay_book.rs:164-187 | after an event the book is trusted iff opened or trusted before, no repeated or ill-made row, snapshot in order, two-sided, uncrossed and within 400 |
| ReplayOutcomes.ForeignRefused | crates/okx-market-model/src/replay_book.rs:129-138 | an event of another instrument is refused and changes nothing |
| ReplayOutcomes.WeightedMeanMeans | crates/okx-market-model/src/replay_book.rs:255-277 | the price times the sum of one over rank is the sum of the level microprices over rank |
| BookAgreement.CleanSideIsUpdate | crates/okx-market-model/src/replay_book.rs:347-376 | no row anomaly is counted iff the rows are well formed and the strict update succeeds, and then the sides are equal |
| BookAgreement.CleanSnapshotSide | crates/okx-market-model/src/replay_book.rs:140-162 | an ordered snapshot side is counted clean iff its rows are well formed and free of zeros |
| BookAgreement.SnapshotSideAgrees | crates/okx-market-model/src/level2.rs:740-762 | ordered zero-free snapshot sides are accepted by both books with the same levels |
| BookAgreement.CleanStepMeans | crates/okx-market-model/src/replay_book.rs:140-187 | what it takes for one event to keep the replay book trusted without unknown removals |
| BookAgreement.StepsAgree | crates/okx-market-model/src/replay_book.rs:103-187 | one event of a following sequence is clean for one book iff plain for the other, and both land on the same sides |
| BookAgreement.BooksAgree | crates/okx-market-model/src/level2.rs:220-320 | from any two books of one instrument, over every run that opens with a snapshot: chained and clean for the replay book iff plain for the strict book, and then identical sides and sequence id |
| BookAgreement.NewBooksAgree | crates/okx-market-model/src/replay_book.rs:103-187 | the same from two new books, over every run whatever |
| RatePacer.RateLimitPacer.constructor | crates/okx-trading-runtime/src/okx/client.rs:3885-3932 | a new pacer has no cooldowns and no requests |
| RatePacer.RateLimitPacer.RecordRateLimitAt | crates/okx-trading-runtime/src/okx/client.rs:3885-3892 | the key's cooldown ends two seconds after the report |
| RatePacer.RateLimitPacer.ReserveOrWait | crates/okx-trading-runtime/src/okx/client.rs:3894-3932 | the in-place queue section equals `Reserve`: zero limit, cooldown, expiry, grant or wait |
| RatePacer.OtherKeysUntouched | crates/okx-trading-runtime/src/okx/client.rs:3885-3932 | a section leaves every other key's queue and cooldown alone |
| RatePacer.QueueHolds | crates/okx-trading-runtime/src/okx/client.rs:3894-3932 | over every run a queue is the newest part of its grants, at most the limit long, and everything older has expired |
| RatePacer.GrantsAreSpaced | crates/okx-trading-runtime/src/okx/client.rs:3894-3932 | any limit + 1 consecutive grants of a key span the window plus 50 ms, less the clock skew |
| RatePacer.MarginAbsorbsSkew | crates/okx-trading-runtime/src/okx/client.rs:87 | a skew within the 50 ms margin never breaks the exchange's window |
| RatePacer.NoGrantDuringCooldown | crates/okx-trading-runtime/src/okx/client.rs:3885-3910 | no grant on a key within two seconds of a recorded limit, less twice the skew |
| RatePacer.WaitsArePositive | crates/okx-trading-runtime/src/okx/client.rs:3861-3868 | every wait returned is strictly positive |
| RatePacer.GrantedAfterWindow | crates/okx-trading-runtime/src/okx/client.rs:3861-3868 | without a cooldown one full sleep is enough |
| RatePacer.GrantedWithinTwoSleeps | crates/okx-trading-runtime/src/okx/client.rs:3861-3868 | with nothing else on the key the wait loop is granted after at most two sleeps |
| RatePacer.GrantedIff | crates/okx-trading-runtime/src/okx/client.rs:3894-3932 | granted iff the limit is positive, no cooldown runs and fewer than the limit of grants are younger than window plus 50 ms; only a zero limit is an error |
| RatePacer.WaitIsExact | crates/okx-trading-runtime/src/okx/client.rs:3899-3930 | a wait ends with the running cooldown or when the oldest grant leaves the window; asking earlier is refused, and after the window's wait granted |
| RatePacer.ReportCoolsDown | crates/okx-trading-runtime/src/okx/client.rs:3885-3892 | a report sets the key's cooldown two seconds ahead and nothing else |
| Pagination.AppendPage | crates/okx-trading-runtime/src/okx/client.rs:1660-1680 | the item loop refuses a blank id and gathers unseen keys in order |
| Pagination.TakePage | crates/okx-trading-runtime/src/okx/client.rs:1646-1692 | one page is refused, ends the list, or names the next cursor, by the same checks in the same order |
| Pagination.RequestPage | crates/okx-trading-runtime/src/okx/client.rs:1646-1692 | a refused page rules out completion, a final page is the completing one, otherwise the cursor moves on |
| Pagination.AppendEndpoint | crates/okx-trading-runtime/src/okx/client.rs:1635-1697 | against any endpoint: success iff some page among the first twenty completes the list, and then everything received has been gathered; otherwise the error of the first page that is wrong, or too many pages |
| Pagination.FetchOne | crates/okx-trading-runtime/src/okx/client.rs:1547-1609 | success iff the list completes; the result is the first-occurrence dedupe, has no duplicate key, and every item is of the instrument asked for |
| Pagination.FetchHistory | crates/okx-trading-runtime/src/okx/client.rs:1611-1633 | success iff both endpoints complete; the result is the first-occurrence dedupe of the concatenation, every item of the instrument asked for |
| Pagination.FetchListing | crates/okx-trading-runtime/src/okx/client.rs:1547-1609 | against an endpoint paging a list of distinct ids: the whole list in order iff it has fewer than 20 full pages, otherwise a refusal |
| Pagination.RequestsMeans | crates/okx-trading-runtime/src/okx/client.rs:1646-1697 | a completing page is unique, and counts only within the bound |
| Pagination.FirstOccurrencesAreDistinct | crates/okx-trading-runtime/src/okx/client.rs:1660-1680 | no duplicate survives and no unseen key is lost |
| Pagination.FirstOccurrencesPick | crates/okx-trading-runtime/src/okx/client.rs:1660-1680 | the dedupe keeps, in order, exactly the items whose key is new at their position |
| Pagination.CompleteBelongs | crates/okx-trading-runtime/src/okx/client.rs:1635-1697 | everything received of a completed list has the instrument asked for and a usable id |
| Pagination.FirstOccurrencesCompose | crates/okx-trading-runtime/src/okx/client.rs:1611-1633 | the shared key set makes two lists dedupe as their concatenation |
| Pagination.GatheredMeans | crates/okx-trading-runtime/src/okx/client.rs:1660-1680 | gathering item by item keeps exactly the first occurrences of unseen keys |
| Pagination.ListingCompletes | crates/okx-trading-runtime/src/okx/client.rs:1547-1609 | a paged list completes within the bound iff it has fewer than 20 full pages, and is then received whole |
| CapabilityCache.StepKeepsSafe | crates/okx-trading-runtime/src/okx/client.rs:1267-1410 | one lock section of any thread keeps the invariant |
| CapabilityCache.EveryInterleavingIsSafe | crates/okx-trading-runtime/src/okx/client.rs:1267-1410 | under every interleaving a cached generation of another level implies an outstanding revoke; with none, every generation matches |
| CapabilityCache.BusyThreadsFinish | crates/okx-trading-runtime/src/okx/client.rs:1351-1410 | a thread inside the protocol can always take its next section, and a revoke empties the cache |
| CapabilityCache.RevokesSettle | crates/okx-trading-runtime/src/okx/client.rs:1404-1410 | after the owed revokes none is outstanding and the invariant holds |
| CapabilityCache.TuplesAreStable | crates/okx-trading-runtime/src/okx/client.rs:1286-1301 | a cached trading tuple changes only through a revoke |
| CapabilityCache.MismatchOwes | crates/okx-trading-runtime/src/okx/client.rs:1351-1402 | a differing level leaves the thread owing a revoke, a matching or first one does not; a failed request owes one |
| CapabilityCache.RememberStores | crates/okx-trading-runtime/src/okx/client.rs:1286-1301 | a held generation is stored under its instrument and nothing else changes, unless another tuple is cached: then a revoke is owed |
| CapabilityCache.CacheIsHistory | crates/okx-trading-runtime/src/okx/client.rs:1267-1410 | over every interleaving a remembered generation stays until a revoke or a newer one of its instrument |
| CapabilityCache.ObservedIsNewest | crates/okx-trading-runtime/src/okx/client.rs:1351-1363 | the observed level is the newest observation |
| CandleMerge.MergeLiveCandleHints | crates/okx-trading-runtime/src/okx/client.rs:4458-4469 | strictly ascending, the stored bar of each instant, at most the limit, and a missing instant is older than all kept |
| CandleMerge.LastWinsMeans | crates/okx-trading-runtime/src/okx/client.rs:4463-4466 | the stored bar of an instant is the last one, so a hint replaces a REST bar |
| HealthTracker.WebsocketHealthTracker.constructor | crates/okx-trading-runtime/src/app/websocket_health_tracker.rs:20-41 | every expected stream is mandatory and none is ready |
| HealthTracker.WebsocketHealthTracker.Record | crates/okx-trading-runtime/src/app/websocket_health_tracker.rs:43-74 | the three sets move by the kind of the event; unexpected streams are ignored |
| HealthTracker.WebsocketHealthTracker.ReadinessError | crates/okx-trading-runtime/src/app/websocket_health_tracker.rs:76-89 | reports how many mandatory streams failed before readiness, and the first of them |
| HealthTracker.FirstStream | crates/okx-trading-runtime/src/okx/websocket/health.rs:71-76 | the stream an ordered set yields first: by kind, channel class and size |
| HealthTracker.StreamOrderMeans | crates/okx-trading-runtime/src/okx/websocket/health.rs:23-76 | public before private before business, then by channel class, then by size |
| HealthTracker.WebsocketHealthTracker.AllMandatoryStreamsReady | crates/okx-trading-runtime/src/app/websocket_health_tracker.rs:91-93 | every mandatory stream is in the ready set |
| HealthTracker.SetsAreHistories | crates/okx-trading-runtime/src/app/websocket_health_tracker.rs:43-74 | ready iff the newest event acknowledged; failed iff never acknowledged and failed once |
| HealthTracker.StartupErrorMeans | crates/okx-trading-runtime/src/app/websocket_health_tracker.rs:76-89 | the startup error exists iff a stream failed and was never acknowledged |
| TickFailures.StrategyTickFailureTracker.constructor | crates/okx-trading-runtime/src/app/strategy_tick_failure.rs:21-25 | all counters start at zero |
| TickFailures.StrategyTickFailureTracker.RecordSuccess | crates/okx-trading-runtime/src/app/strategy_tick_failure.rs:27-35 | clears one counter, or fails on an unknown index |
| TickFailures.StrategyTickFailureTracker.RecordFailure | crates/okx-trading-runtime/src/app/strategy_tick_failure.rs:37-53 | raises one counter and stops at three |
| TickFailures.StrategyTickFailureTracker.HasFailures | crates/okx-trading-runtime/src/app/strategy_tick_failure.rs:55-59 | some counter is not zero |
| TickFailures.CountersAreStreaks | crates/okx-trading-runtime/src/app/strategy_tick_failure.rs:20-60 | each counter is that strategy's current failure streak |
| TickFailures.StopMeansThreeInARow | crates/okx-trading-runtime/src/app/strategy_tick_failure.rs:37-53 | the stop verdict iff the strategy's last three results failed |
| StrategyDispatch.TickStrategyWithTimeout | crates/okx-trading-runtime/src/app/strategy_tick_execution.rs:108-225 | one bounded tick and, after a timeout that does not stop the runtime, one bounded reconciliation |
| StrategyDispatch.ExecuteStrategyDispatch | crates/okx-trading-runtime/src/app/strategy_tick_execution.rs:58-86 | the loop with its early return computes `Round`: counters, ending and time |
| StrategyDispatch.RoundIsBounded | crates/okx-trading-runtime/src/app/strategy_tick_execution.rs:58-225 | a round takes at most two timeouts per strategy |
| StrategyDispatch.CompletedRoundCounts | crates/okx-trading-runtime/src/app/strategy_tick_execution.rs:58-161 | after a completed round each matching counter tells the outcome of this round, the others have not moved |
| StrategyDispatch.FailuresAreFromThisRound | crates/okx-trading-runtime/src/app/live.rs:725 | after a completed round over all strategies, failures are recorded iff a strategy failed in it |
| StrategyDispatch.RoundReachesOnly | crates/okx-trading-runtime/src/app/strategy_tick_execution.rs:88-106 | a completed round moves the counters of the addressed instrument's strategies, or of all, and no other |
| StrategyDispatch.RoundCompletesIff | crates/okx-trading-runtime/src/app/strategy_tick_execution.rs:58-225 | a round completes iff every strategy reached gets through: success, or a retryable failure, or a timeout with a recovery in time |
| StrategyDispatch.RoundEndsAtFirst | crates/okx-trading-runtime/src/app/strategy_tick_execution.rs:147-225 | otherwise it ends with the first that does not: stopped at its third failure, aborted by its recovery |
| StrategyDispatch.CompletedRoundTime | crates/okx-trading-runtime/src/app/strategy_tick_execution.rs:108-225 | a completed round takes exactly the time of the strategies reached, ticks and recoveries cut off at the timeout |
| CaaTiming.TimeoutsAgree | crates/okx-trading-runtime/src/app/cancel_all_after_heartbeat.rs:213-226 | both timeout computations accept a u64 poll interval iff it is at most 40000 ms, with the same value |
| CaaTiming.TimeoutCoversPolls | crates/okx-trading-runtime/src/app/cancel_all_after_heartbeat.rs:206-211 | an accepted timeout holds three polls and three heartbeat periods, losing less than 3 ms to rounding |
| CaaTiming.AcceptedRoundsFit | crates/okx-trading-runtime/src/config/validation.rs:143-186 | an accepted configuration keeps every round inside the Cancel-All-After window |
| CaaTiming.BudgetIsAttained | crates/okx-trading-runtime/src/config/validation.rs:165-173 | the budget is tight: some completed round takes exactly two timeouts per strategy |
| CaaTiming.BudgetAcceptedIff | crates/okx-trading-runtime/src/config/validation.rs:143-186 | accepted iff the poll interval is at most 40 s and two tick timeouts per strategy fit the window; a larger interval is reported as such |
| Heartbeat.RunHeartbeat | crates/okx-trading-runtime/src/app/cancel_all_after_heartbeat.rs:135-183 | the timed loop computes starts, arrivals and ending of `AfterBeats` |
| Heartbeat.RefreshesAreOnTime | crates/okx-trading-runtime/src/app/cancel_all_after_heartbeat.rs:135-183 | refreshes arrive at most two periods apart, and a failure is reported within two periods of the last |
| Heartbeat.RefreshesAreSpaced | crates/okx-trading-runtime/src/app/cancel_all_after_heartbeat.rs:142-150 | the first refresh starts a period after the spawn, each next at least a period, less 5 ms, later |
| Heartbeat.BeatsOnIff | crates/okx-trading-runtime/src/app/cancel_all_after_heartbeat.rs:146-161 | the loop goes on iff every refresh is acknowledged within the deadline, and then each was sent and arrived |
| Heartbeat.EndsAtFirst | crates/okx-trading-runtime/src/app/cancel_all_after_heartbeat.rs:146-183 | it ends with the first that is not: stopped, or failed when refused or when the deadline passes |
| Heartbeat.TimerNeverExpires | crates/okx-trading-runtime/src/app/cancel_all_after_heartbeat.rs:135-211 | the timer never runs out between refreshes, and a failure after one is reported a full period before the earliest expiry |
| Heartbeat.FirstGapIsExact | crates/okx-trading-runtime/src/app/live.rs:1136-1137 | in every run the first refresh arrives or is reported failed before the startup arm expires, iff two periods fit between spawn and expiry |
| TradingEngine.TradingEngine.constructor | crates/okx-trading-runtime/src/app/live.rs:317-336 | no latch, no pending candle, clean counters |
| TradingEngine.TradingEngine.WebsocketStrategyDispatchReady | crates/okx-trading-runtime/src/app/live.rs:708-711 | all mandatory streams ready and no reconciliation requested |
| TradingEngine.TradingEngine.StrategyDispatchDecision | crates/okx-trading-runtime/src/app/live.rs:669-706 | nothing while not ready, otherwise one round and its decision |
| TradingEngine.TradingEngine.WebsocketReconciliationDecision | crates/okx-trading-runtime/src/app/live.rs:713-729 | the latch is cleared, the round runs, and a failure in it sets the latch again |
| TradingEngine.TradingEngine.HandleWebsocketHealthEvent | crates/okx-trading-runtime/src/app/live.rs:1198-1245 | acknowledgements and losses after subscription set the latch; the tracker records |
| TradingEngine.TradingEngine.ProcessWebsocketHealthEvents | crates/okx-trading-runtime/src/app/live.rs:1247-1271 | the queued events are drained before readiness is judged |
| TradingEngine.TradingEngine.WebsocketHealthDecision | crates/okx-trading-runtime/src/app/live.rs:463-486 | a closed channel or a fatal event ends the loop, a due reconciliation runs |
| TradingEngine.TradingEngine.ReconciliationTimerDecision | crates/okx-trading-runtime/src/app/live.rs:488-507 | a due reconciliation takes the place of the timer dispatch |
| TradingEngine.TradingEngine.DeferConfirmedCandle | crates/okx-trading-runtime/src/app/live.rs:566-598 | a traded instrument keeps its newest bar, others keep none |
| TradingEngine.TradingEngine.PublicRuntimeEventDecision | crates/okx-trading-runtime/src/app/live.rs:535-564 | a candle is deferred or dispatched, an instrument change dispatched |
| TradingEngine.TradingEngine.PendingConfirmedCandleDecision | crates/okx-trading-runtime/src/app/live.rs:600-616 | the first pending candle in key order leaves the map and is dispatched |
| Ordered.FirstKey | crates/okx-trading-runtime/src/app/live.rs:603 | the key a text-ordered map pops first is not after any other |
| Ordered.TextLeqMeans | crates/okx-trading-runtime/src/app/live.rs:248 | text order: a beginning comes first, else the smaller character where they first differ |
| TradingEngine.TradingEngine.Iterate | crates/okx-trading-runtime/src/app/live.rs:337-404 | one iteration is `TakeInput`, for every arm |
| EngineRuns.LatchTellsTheRound | crates/okx-trading-runtime/src/app/live.rs:713-729 | after a reconciliation that goes on, the latch is clear iff every strategy succeeded |
| EngineRuns.EventsKeepOwing | crates/okx-trading-runtime/src/app/live.rs:1198-1271 | once a stream was not ready, draining events cannot make all ready without setting the latch |
| EngineRuns.StepKeepsOwing | crates/okx-trading-runtime/src/app/live.rs:463-729 | while a reconciliation is owed only a reconciliation runs, and it stays owed until one succeeds for all |
| EngineRuns.ReconcileBeforeDispatch | crates/okx-trading-runtime/src/app/live.rs:463-729 | in every run, between an unready moment and the next dispatch lies a stream-state round in which every strategy succeeded |
| EngineRuns.NothingBeforeFirstReconciliation | crates/okx-trading-runtime/src/app/live.rs:317-405 | a fresh engine with mandatory streams dispatches nothing before its first such round |
| EngineRuns.DeliveryIsDispatch | crates/okx-trading-runtime/src/app/live.rs:535-616 | a delivered bar is an executed candle round, and there is no other candle round |
| EngineRuns.StepMovesBars | crates/okx-trading-runtime/src/app/live.rs:566-616 | the five things one step may do to an instrument's bars |
| EngineRuns.NoCandleIsLost | crates/okx-trading-runtime/src/app/live.rs:535-616 | every bar that arrived for a traded instrument was delivered, waits, or gave way to one at least as new |
| EngineRuns.CandlesKeepOrder | crates/okx-trading-runtime/src/app/live.rs:337-390 | bars that arrive in order are delivered in order, and the newest arrival is the newest delivered or waiting |
| EngineOutcomes.ArrivalIsRound | crates/okx-trading-runtime/src/app/live.rs:488-706 | a private event, instrument change or timer tick while ready and clear is one round of its own kind and instrument, otherwise none |
| EngineOutcomes.EveryArrivalRuns | crates/okx-trading-runtime/src/app/live.rs:337-404 | over every run those rounds are exactly what was asked for while ready, in order |
| EngineOutcomes.ReconciliationsAreDue | crates/okx-trading-runtime/src/app/live.rs:463-533 | when exactly a stream-state round runs |
| EngineOutcomes.RoundsMoveCounters | crates/okx-trading-runtime/src/app/live.rs:669-706 | an executed round moves the counters as its dispatch does; without one they rest |
| EngineOutcomes.GoesOnIff | crates/okx-trading-runtime/src/app/live.rs:395-403 | the loop goes on iff the input does not end it and every strategy reached gets through |
| EngineOutcomes.BreakSaysWhy | crates/okx-trading-runtime/src/app/live.rs:407-541 | each input that ends the loop does so without a round and with its own decision and reason |
| EngineOutcomes.RoundFailureSaysWhy | crates/okx-trading-runtime/src/app/live.rs:695-705 | a failed round ends the loop as a strategy failure at a third failure in a row, as a runtime error otherwise |
| EngineOutcomes.RunGoesOn | crates/okx-trading-runtime/src/app/live.rs:337-404 | over every run no input before the last ends the loop and every round before it was got through |
| EngineOutcomes.TrackerIsHistory | crates/okx-trading-runtime/src/app/live.rs:1244-1268 | over every run the readiness sets are those of all health events received, at most 65 per iteration |
| EngineOutcomes.EventsSetLatch | crates/okx-trading-runtime/src/app/live.rs:1198-1207 | draining sets the latch iff it was set or an event acknowledges or loses a subscription |
| EngineOutcomes.LatchMoves | crates/okx-trading-runtime/src/app/live.rs:713-729 | the latch moves only by health events and by the reconciliation it asks for |
| EngineOutcomes.OnlyTradedWait | crates/okx-trading-runtime/src/app/live.rs:574-580 | over every run no candle of an untraded instrument waits |
| ExitPolicy.TradingEngine.constructor | crates/okx-trading-runtime/src/app/live.rs:154-163 | nothing is armed, attempted or held |
| ExitPolicy.TradingEngine.RefreshCancelAllAfter | crates/okx-trading-runtime/src/app/live.rs:1273-1301 | the attempt is remembered before the request, the arm after its reply |
| ExitPolicy.TradingEngine.DisarmCancelAllAfter | crates/okx-trading-runtime/src/app/live.rs:1303-1318 | both flags are cleared only when unconfigured or confirmed |
| ExitPolicy.TradingEngine.StopServerTimeRefresher | crates/okx-trading-runtime/src/app/live.rs:955-965 | a failed stop keeps the handle |
| ExitPolicy.TradingEngine.StopCancelAllAfterHeartbeat | crates/okx-trading-runtime/src/app/live.rs:943-953 | a failed stop keeps the handle |
| ExitPolicy.TradingEngine.ShutdownForOperator | crates/okx-trading-runtime/src/app/live.rs:795-899 | every strategy is cleaned up, both tasks stopped, and the disarm sent only when all succeeded |
| ExitPolicy.TradingEngine.FailClosedForFatalError | crates/okx-trading-runtime/src/app/live.rs:901-937 | both tasks are aborted, the flags stay, and the exit reports them |
| ExitPolicy.FlagsAreHistory | crates/okx-trading-runtime/src/app/live.rs:795-941 | in every run the flags are set iff an arm was attempted and no clean shutdown was confirmed |
| ExitPolicy.ArmedIsHistory | crates/okx-trading-runtime/src/app/live.rs:1292 | the armed flag means an acknowledged arm and no clean shutdown confirmed since |
| ExitPolicy.CleanExitIff | crates/okx-trading-runtime/src/app/live.rs:858-898 | an operator shutdown exits clean iff it is a clean shutdown, or the engine was never configured and so holds no task |
| ExitPolicy.ExitTellsTheFlags | crates/okx-trading-runtime/src/app/live.rs:878-898 | a clean exit leaves nothing flagged, an ambiguous one leaves the engine flagged |
| ExitPolicy.HandlesAfterExit | crates/okx-trading-runtime/src/app/live.rs:943-985 | after an exit a task handle is held only when its stop was tried and failed |
| ExitPolicy.TimerIsFlagged | crates/okx-trading-runtime/src/app/live.rs:939-941 | a running exchange timer is flagged unless a given-up refresh landed after a confirmed disarm |
| ExitPolicy.ReportStaysTrueIff | crates/okx-trading-runtime/src/app/live.rs:836-899 | the report about the timer is true in every run that looks the same to the engine iff it has not both confirmed a disarm and given up a heartbeat refresh |
| ExitPolicy.ShutdownReportStaysTrueIff | crates/okx-trading-runtime/src/app/cancel_all_after_heartbeat.rs:163-183 | for a shutdown with a confirmed disarm: iff every refresh was acknowledged and the stop found none under way |
| ExitPolicy.WorstLooksTheSame | crates/okx-trading-runtime/src/app/cancel_all_after_heartbeat.rs:163-183 | with every given-up request still on its way, the run looks the same to the engine |
| ExitPolicy.StoppedRefreshCanRearm | crates/okx-trading-runtime/src/app/cancel_all_after_heartbeat.rs:163-183 | a run in which a stopped refresh lands after a clean shutdown of a strategy, unflagged |
| ExitPolicy.DisarmIsSentWhen | crates/okx-trading-runtime/src/app/live.rs:858-866 | in every run the disarm is sent iff configured, every cleanup succeeded and both tasks stopped |

## Left out

- Decimal arithmetic: rounding to 28 digits and overflow panics; prices, quantities and features are exact reals.
- Latency timestamps: parsed_at, book_applied_at and features_ready_at are copied clock readings.
- Integer widths other than the saturating u64 counters and the u64 timing arithmetic; row, page and retry counts are unbounded.
- Instant and Duration overflow, and poisoned locks.
- ReplayBook: the level iterators, total depth, the quantity queries and the top-of-book accessors, which are single map lookups.
- RatePacer: the sleeping `wait` loop itself is represented by its successive reservations.
- CapabilityCache: modelled on values as a state machine, because its point is the interleaving; the order in which waiting threads get a lock is arbitrary.
- Pagination: a page longer than the limit counts as the last page, as in the source; the order in which the fields of one item are checked is not modelled beyond instrument, id and cursor.
- Pagination: the algo order history loop, which repeats the same protocol once per state.
- CandleMerge: the hint cache that supplies the bars.
- StrategyDispatch: what strategies do; a tick is a duration and an outcome.
- TradingEngine: the Level-2 shadow observation and latency counters, which never decide anything; the account check of the diagnostic arm is an input.
- HealthTracker: the wording of the readiness error.
- Heartbeat.TimerNeverExpires: assumes that the loop is never scheduled late, as the source's timing does; the interval's 5 ms slack for late ticks is modelled.
- ExitPolicy: a refused and an unanswered refresh are not told apart, as in the source; either may still land.
- ExitPolicy: exits through an error return are modelled as aborting the tasks without a disarm, since dropping the engine drops the heartbeat; the process being killed is not modelled.
- HTTP, WebSocket, signing, JSON and TOML handling, endpoint tables, the demo and soak drivers, and the economics preflight.
- Configuration validation other than the Cancel-All-After timing and the dispatch budget.
