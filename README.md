# Paragon market-structure core, modelled in Dafny

Paragon's handlers work on one-minute candles, keyed by symbol and timerange:

- `aggregate_candle` rolls a candle up into a higher-timeframe candle (5m, 15m, ...). A bucket
  that closes is stored in the database. A websocket send is only a TODO (`candle.rs:66`).
- `process_session` tracks the trading session (Asian, London, New York) a candle falls in,
  with that session's window and prices. A session the candle lies outside is stored in the
  database.
- `processfairvaluegap` looks for a fair value gap in the last three candles. A gap is stored
  and then broadcast to the websocket clients. An older variant in `two_d_structures.rs`
  only stores it.
- `process_trend` runs a trend automaton. A counter move opens a subtrend. A break of the
  subtrend's bound is a break of structure. A close beyond the trend's extreme is a change of
  character: the trend ends, and the queued candles strictly after the subtrend's start are replayed
  to rebuild the new trend, so the candle that opened the subtrend is dropped. Structures are stored and broadcast. The trend is stored after
  every candle that meets an existing trend, and broadcast only on a reversal.

Of these, only `aggregate_candle` has a caller in this code base: `main.rs:28-35` runs it for
each timerange. The other handlers are modelled as they stand. The model keeps the sink calls as
a ghost `events` log, and each handler's state as `map`/`seq` fields of a class, which the methods
reassign. Modules:

- `Wrappers`: `Option`, `Result` and map helpers.
- `Entities`: the records and the sink `Event`s.
- `TimeUtils`: `is_in_timerange`.
- `SessionTable`: the `SESSIONS` table.
- `Sessions`: session handling, with class `SessionTracker`.
- `CandleAggregation`: class `CandleAggregator`.
- `FairValueGaps` and `LegacyFairValueGaps`: the two gap detectors.
- `TrendAutomaton`: one `get_trends` step, as a pure function `Step`.
- `TrendReplay`: the queue, the pass and replay specification.
- `Trends`: class `TrendEngine`, with `get_trends`, `process_queue` and `process_trend` as methods.

Conventions:

- Timestamps are integer milliseconds since the Unix epoch.
- A time of day is milliseconds since midnight UTC.
- Prices and volumes are `real`.
- A candle's direction is an input field (`Bullish`, `Bearish`, `Doji`).
- The map key is `symbol + "-" + timerange`.
- The source's `label` field is named `name`, because `label` is a Dafny keyword.

Where the code and its prose description disagree, the model follows the code. The one exception is the session window of finding 1, see Findings:

- Aggregated candles keep the timestamp of their first constituent. Timestamps are not snapped to a bucket boundary.
- A bucket closes only when the new candle is strictly later than the bucket's start plus the duration.
- `relative_high` and `relative_low` of a trend are set when the trend opens and never reassigned.
- A candle whose direction differs from the trend's counts as a counter move, doji included.

## Model

| member | source | states |
|---|---|---|
| TimeUtils.EndsAreMembers | src/utils/utils.rs:3-10 | both ends of a window belong to it, whether or not it wraps |
| TimeUtils.OrderedWindow | src/utils/utils.rs:4-5 | for start <= end, membership is exactly start <= time <= end |
| TimeUtils.WrappingWindow | src/utils/utils.rs:6-8 | for start > end, membership is time >= start or time <= end, so the gap strictly between end and start is excluded |
| TimeUtils.DegenerateWindow | src/utils/utils.rs:3-10 | a window whose ends coincide holds that instant only |
| TimeUtils.ClockArc | src/utils/utils.rs:3-10 | on the 24-hour clock, a time is in the window iff walking forward from start reaches it no later than end |
| SessionTable.TableOrder | src/entities/session.rs:26-42 | the table holds three sessions, in order Asian, London, New York |
| SessionTable.AsianWrapsMidnight | src/entities/session.rs:27-31 | the Asian session runs 22:00 to 07:30, so start > end and it wraps midnight |
| SessionTable.SessionsAbut | src/entities/session.rs:26-42 | each session ends where the next one starts; London and New York do not wrap |
| Sessions.FirstMatch | src/handlers/sessions.rs:100-108 | the index returned covers the time and no earlier entry does; None means no entry covers it |
| Sessions.FirstMatchPartition | src/handlers/sessions.rs:100-108 | every time of day gets a session. Asian covers [22:00, 07:30], London (07:30, 12:00], New York (12:00, 22:00) |
| Sessions.SharedBoundaries | src/handlers/sessions.rs:101-104 | a shared boundary goes to the earlier table entry: 07:30 to Asian, 12:00 to London, 22:00 to Asian |
| Sessions.GetRightSession | src/handlers/sessions.rs:100-108 | returns Ok with the first table session covering the candle's time of day, and Err exactly when none does |
| Sessions.SessionBoundsAsWrittenDates | src/handlers/sessions.rs:111-137 | the dates of the window as written: the candle's own date for London and New York; for Asian, the previous day before 07:00, else the next day for the end |
| Sessions.AsWrittenWindowMissesItsCandle | src/handlers/sessions.rs:117-124 | a 07:15 candle is in the Asian session, yet the window computed for it starts after it |
| Sessions.HourBelowSeven | src/handlers/sessions.rs:120 | the hour test `hour() < 7` holds exactly for times of day before 07:00 |
| Sessions.AsWrittenWindowHoldsIff | src/handlers/sessions.rs:111-137 | for every instant, the window computed as written for its table session holds it iff its time of day lies outside 07:00 to 07:30 |
| Sessions.BoundsAgreeOutsideBand | src/handlers/sessions.rs:111-137 | the corrected window and the window as written coincide iff the time of day lies outside 07:00 to 07:30 |
| Sessions.SessionBoundsHoldTimestamp | src/handlers/sessions.rs:111-137 | with the day chosen against the session end, the window the table gives a candle contains that candle |
| Sessions.OpenSessionFromCandle | src/handlers/sessions.rs:19-36 | a new session takes the looked-up label, the candle's prices, volume and symbol. It takes the corrected window, which contains the candle. That window equals the one computed as written iff the time of day lies outside 07:00 to 07:30 |
| Sessions.ExtendSessionAccumulates | src/handlers/sessions.rs:42-56 | an update keeps label, window and open. It updates high and low to the extremes, sets close to the candle's close, adds the volume, and keeps low <= high |
| Sessions.NextSessionHoldsCandle | src/handlers/sessions.rs:12-57 | with the corrected window, the session after processing contains the candle just processed |
| Sessions.SessionTracker.ShouldCreateNewSession | src/handlers/sessions.rs:62-91 | true iff there is no session or the candle lies outside it; in the latter case the old session is persisted first |
| Sessions.SessionTracker.ProcessSession | src/handlers/sessions.rs:12-60 | always Ok; the new state is the next session for the candle, opened or extended |
| CandleAggregation.FirstCandleStored | src/handlers/candle.rs:58-64 | a key's first candle is stored relabelled with the timerange and nothing is persisted |
| CandleAggregation.ClosesOnlyPastBoundary | src/handlers/candle.rs:34 | a bucket is persisted iff the candle is strictly later than its start plus the duration, so not at equality |
| CandleAggregation.ClosureRestarts | src/handlers/candle.rs:34-44 | on closure the old bucket is persisted and the new candle, relabelled, starts the next bucket |
| CandleAggregation.MergeAccumulates | src/handlers/candle.rs:45-56 | inside the bucket, high and low go to the extremes, close to the new close and volume adds. Open, timestamp and the labels are kept, and low <= high is kept |
| CandleAggregation.RunWithinBucketMerges | src/handlers/candle.rs:45-56 | any run of candles inside the bucket folds to max high, min low, last close and total volume, with nothing persisted |
| CandleAggregation.LaterCloses | src/handlers/candle.rs:34-44 | one candle past the boundary persists the bucket and opens the next |
| CandleAggregation.OneBucketCloses | src/handlers/candle.rs:21-75 | a first candle, candles inside its bucket, then a later candle persist exactly one bucket holding the aggregate of the run |
| CandleAggregation.AggregateAllSplit | src/handlers/candle.rs:21-75 | feeding two batches in turn equals feeding their concatenation |
| CandleAggregation.CandleAggregator.AggregateCandle | src/handlers/candle.rs:21-75 | Ok; the key's accumulator becomes the aggregated candle and a closed bucket is persisted |
| FairValueGaps.ScanFromSet | src/handlers/structures.rs:56-70 | once a direction is set, the scan fails iff some later non-doji candle has another direction; otherwise it keeps that direction |
| FairValueGaps.CommonDirectionMeaning | src/handlers/structures.rs:52-70 | the scan fails iff two non-doji candles differ. It finds no direction iff all candles are doji. Otherwise the direction found is a candle's own non-doji direction, and every non-doji candle shares it |
| FairValueGaps.GapConditions | src/handlers/structures.rs:72-105 | a gap is reported iff the three candles agree and, when bullish, high[0] < low[2] (gap from high[0] up to low[2]) or, when bearish, low[0] > high[2] (gap from high[2] up to low[0]); a reported gap has low < high |
| FairValueGaps.WindowKeepsLatest | src/handlers/structures.rs:36-50 | a window of at most three candles, extended by one, keeps the latest three candles in order |
| FairValueGaps.FairValueGapDetector.ProcessFairValueGap | src/handlers/structures.rs:30-121 | a new key stores the candle. More than three stored candles is an error. Otherwise the window slides, and a gap found in a full window is persisted and then broadcast |
| LegacyFairValueGaps.SecondCandleReadsPastEnd | src/handlers/two_d_structures.rs:59-65 | with two same-direction candles stored, evaluation reads index 2 of a two-element list |
| LegacyFairValueGaps.LegacyGapInverted | src/handlers/two_d_structures.rs:59-73 | any gap the legacy code reports has high < low, high and low exchanged |
| LegacyFairValueGaps.LegacyAgreesUpToOrder | src/handlers/two_d_structures.rs:33-73 | on three candles the legacy detector reports a gap iff the current one does, with the bounds exchanged |
| LegacyFairValueGaps.LegacyWindowBounded | src/handlers/two_d_structures.rs:24-31 | a window of at most three stays at most three and ends with the new candle; a full window drops its oldest candle |
| LegacyFairValueGaps.LegacyFairValueGapDetector.ProcessFairValueGap | src/handlers/two_d_structures.rs:18-101 | a new key stores the candle; otherwise the window slides, a reported gap is persisted, and an out-of-range read is an error |
| TrendAutomaton.Step | src/handlers/trends.rs:118-420 | keeps "a subtrend only beside a trend of the other direction, no doji trend". A reversal returns the subtrend's start and clears both. A new subtrend starts at the candle. Identity fields are kept. The trend is persisted last and broadcast on reversal |
| TrendAutomaton.NoTrendDoji | src/handlers/trends.rs:372-378 | without a trend a doji changes nothing and reports nothing |
| TrendAutomaton.NoTrendOpens | src/handlers/trends.rs:379-397 | without a trend a non-doji candle opens one from its own prices and time, with nothing persisted |
| TrendAutomaton.ContinuationWithoutSubtrend | src/handlers/trends.rs:260-271 | a same-direction candle with no subtrend moves the end time (set at :130). Each extreme and its time moves only on a strict improvement, and the trend is persisted |
| TrendAutomaton.CounterMoveOpensSubtrend | src/handlers/trends.rs:351-366 | a counter candle with no subtrend seeds a subtrend from the candle and persists the unchanged trend |
| TrendAutomaton.BearishBreakOfStructure | src/handlers/trends.rs:138-186 | a close below a bullish subtrend's low is a bearish break of structure. The trend's high becomes the subtrend's high, the subtrend is removed, and the BOS and relative high/low are broadcast and persisted |
| TrendAutomaton.BullishBreakOfStructure | src/handlers/trends.rs:201-244 | the mirror: a close above a bearish subtrend's high is a bullish break of structure, and the trend's low becomes the subtrend's low |
| TrendAutomaton.SubtrendWithoutBreak | src/handlers/trends.rs:187-258 | a same-direction candle that breaks nothing moves only the trend's end time and one side of the subtrend. A bullish subtrend raises its high, relative high and time on a strictly higher high (:187-200). Any other subtrend, a doji one included, lowers its low, relative low and time on a strictly lower low (:245-258) |
| TrendAutomaton.CounterMoveUnderSubtrend | src/handlers/trends.rs:272-350 | a counter candle closing beyond the trend's high (bullish subtrend) or low (bearish) is a reversal: order block and change of character are reported, the subtrend's start is returned and both are cleared. Otherwise only the end time moves |
| TrendAutomaton.DojiSubtrendCounterNoop | src/handlers/trends.rs:272-350 | a counter candle under a doji subtrend matches neither branch. The trend's end does not move, no reversal is possible, and only the unchanged trend is persisted |
| TrendAutomaton.OrderBlockSpan | src/handlers/trends.rs:287-295 | the order block spans the subtrend's last candle, from its high down to the last relative low (bullish) or its own low |
| TrendReplay.KeepAfter | src/handlers/trends.rs:110-113 | keeps exactly the candles later than the instant, as a sub-multiset; it shrinks when any candle is at or before the instant |
| TrendReplay.KeepAfterConcat | src/handlers/trends.rs:112 | filtering distributes over concatenation, so order is kept |
| TrendReplay.KeepAfterCompose | src/handlers/trends.rs:110-113 | filtering at an earlier instant and then a later one is filtering at the later one; filtering twice at one instant is idempotent |
| TrendReplay.Pass | src/handlers/trends.rs:77-90 | a pass stops at the first reversal. The instant returned is the starting subtrend's start or a queued candle's timestamp, both states are then cleared, and the invariant is kept |
| TrendReplay.PassReversalShrinksQueue | src/handlers/trends.rs:71-92 | a pass from a cleared state that finds a reversal makes the filtered queue strictly shorter, so the replay loop ends |
| TrendReplay.Replay | src/handlers/trends.rs:68-92 | the replay keeps the invariant and leaves a sub-multiset of the queue. A further pass over it finds no reversal and changes nothing |
| TrendReplay.ProcessTrendSpec | src/handlers/trends.rs:56-97 | without reversal the step's result with the candle queued; after one, the step's events come first and every remaining queued candle is later than the reversal instant |
| Trends.TrendEngine.ContinueTrend | src/handlers/trends.rs:129-271 | the same-direction branch: the subtrend map and sinks change as the continuation says |
| Trends.TrendEngine.CounterTrend | src/handlers/trends.rs:272-367 | the counter-direction branch: the subtrend map and sinks change as the counter move says, and the reversal instant is returned |
| Trends.TrendEngine.GetTrends | src/handlers/trends.rs:118-420 | returns Ok with the reversal instant; the key's trend and subtrend become the step's, and its events are appended |
| Trends.TrendEngine.ProcessQueue | src/handlers/trends.rs:99-116 | Err for a missing key with nothing changed; otherwise Ok, and the key's queue keeps only later candles |
| Trends.TrendEngine.ReplayPass | src/handlers/trends.rs:76-91 | one pass of the loop over the queue equals Pass from a cleared state, and the queue is filtered at the reversal |
| Trends.TrendEngine.ReplayQueue | src/handlers/trends.rs:68-92 | the while loop equals Replay of the queue and keeps the engine invariant |
| Trends.TrendEngine.ProcessTrend | src/handlers/trends.rs:56-97 | Ok; the key's trend, subtrend, queue and sinks are those of ProcessTrendSpec, and the engine invariant holds |

## Left out

- Database writes and websocket broadcasts become appends to a ghost `events` log, in the
  source's call order.
- Log lines leave no trace in the model: the `println!` at `candle.rs:37` and the `eprintln!` at
  `sessions.rs:81`.
- Also left out: JSON serialisation, `main.rs` and the websocket server.
- Sink failures are not modelled: every sink call succeeds. The source's `?` returns that stop
  partway and leave partial updates are not modelled.
- Concurrency is not modelled: DashMap sharding, the session `Mutex`, and several tasks on one
  key. Calls run one after another.
- `process_queue` still holds the read guard `queue_exists` (`trends.rs:103`) when it calls
  `QUEUE.entry` for the same key (`:111`). Under DashMap's locking, that call waits for the guard
  the same task holds. The call at `:86` also runs inside the read guard of the loop at `:76`.
  Called from `:65`, the queue always holds at least the candle pushed at `:60`, so the guard is
  taken. The code as written therefore most likely blocks on every reversal. The model runs each
  call as if the earlier guards had been released.
- Floating point rounding: prices and volumes are `real`.
- Calendar arithmetic is integer days of `DayMs`. Leap seconds and chrono's date range limits are left out.
- The `CANDLES` static at `trends.rs:31` is never used there, and is left out.
- The `Timerange` record carries only a name and a duration.
- Trends.TrendEngine.ProcessTrend: requires that the candle's own symbol and timerange give the
  key the caller passes. The source reads `get_trends` state under the candle's key but queues
  under the arguments' key. No caller in this code base fixes how they relate.
- Trends.TrendEngine.GetTrends: two branch helpers, ContinueTrend and CounterTrend, split its body
  to keep each proof small. The re-read of the stored trend at `trends.rs:400-403` cannot fail
  once the trend has just been written, so its error is not modelled.
- Sessions.SessionTracker.ProcessSession: uses the corrected session bounds
  (Sessions.SessionBounds); the code as written is Sessions.SessionBoundsAsWritten (see Findings).
  The `get_right_session` error cannot occur, because every time of day is covered.
- Sessions.OpenSessionFromCandle: its "window holds the candle" holds for the corrected window
  only. The window the code computes holds an Asian candle only outside 07:00 to 07:30
  (Sessions.AsWrittenWindowHoldsIff). It equals the corrected window exactly outside that band
  (Sessions.BoundsAgreeOutsideBand).
- Sessions.NextSessionHoldsCandle: holds for the corrected window only. With the code's window, a
  session opened by a candle between 07:00 and 07:30 does not contain that candle, so the next
  candle of that band opens another session.

## Findings

| source | as written | input that shows it | evidently intended | confidence | as-written member | corrected member |
|---|---|---|---|---|---|---|
| src/handlers/sessions.rs:120 | the Asian window starts on the previous day only when the hour is below 7 | a candle at 07:15 UTC: it is in the Asian session (until 07:30), but its window runs 22:00 that day to 07:30 the next, so it excludes the candle | choose the previous day whenever the time of day is at or before the session end, 07:30 | not executed | Sessions.AsWrittenWindowHoldsIff | Sessions.SessionBoundsHoldTimestamp |
| src/handlers/two_d_structures.rs:59-65 | the gap check indexes `last_candles[2]` with no length check | a key holding one candle receives a second of the same non-doji direction: the list has two elements and index 2 is read (a panic in Rust) | evaluate only with three candles stored, as src/handlers/structures.rs:47-50 does | not executed | LegacyFairValueGaps.SecondCandleReadsPastEnd | FairValueGaps.GapConditions |
| src/handlers/two_d_structures.rs:62-70 | a bullish gap stores high = high[0] and low = low[2] (bearish: high = high[2], low = low[0]) | three bullish candles with high[0] = 1 and low[2] = 2: the gap is stored with high 1 and low 2 | the upper bound as high and the lower bound as low, as src/handlers/structures.rs:81-90 does | not executed | LegacyFairValueGaps.LegacyGapInverted | FairValueGaps.GapConditions |
