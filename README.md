# Crypto scanner core, modelled in Dafny

This project models the decision and stream-processing core of a crypto
"EV scanner" backend written in TypeScript. It also models the state-string
mapping of the Android client, which is written in Kotlin.

- **Collector.** It keeps one exchange WebSocket open (`CoinbaseWsClient`) and turns its
  ticker, match and level-2 messages into per-product metrics in a
  key-value store: last price, 24h change, 24h dollar volume, three rolling
  traded-volume windows, and top-of-book spread and depth.
- **Universe.** It picks the tracked products by 24h dollar volume, with BTC-USD and
  ETH-USD always first.
- **Scanner engine.** It reads those metrics and produces a single verdict:
  - it resolves the market regime;
  - it applies a hard veto, then a volume-drop veto that rewrites the stored baseline;
  - it applies a guardrail penalty from recent verdicts;
  - it scores every product;
  - it keeps the top three;
  - it walks the 7/14/21/28/30-day window buckets;
  - it gives BUY, SETUP_FORMING or NO_TRADE.
- **Scanner service.** It stores the verdict as the latest one, in a history capped at 200, and
  maintains the BUY counter and the no-trade streak.
- **`TradeState`.** The Android app reads the backend's state string with
  `TradeState.fromString` and prints it with `displayName`.

Every store, socket and REST call is replaced by state held in a Dafny
object or by an explicit parameter:

- The store is a `MetricsStore.Store` object whose numeric keys live in a
  `map<Key, real>`, with structured keys in place of the `m:<id>:<field>`
  strings.
- The socket is a `ReadyState` plus the list of frames sent on it.
- The REST responses are the arguments `products` and `tickers`.
- `Date.now()` is a `now` argument.

Numbers are `real`.

Modules follow the source files:

| module | source |
|---|---|
| `Candles` | `src/utils/candles.ts` |
| `Levels` | `src/utils/levels.ts` |
| `MathUtils` | `src/utils/math.ts` |
| `ScanTypes` | `src/scanner/types.ts`, the verdict records |
| `MetricsStore` | the key-value store, as an object |
| `ScannerEngine` | `src/scanner/engine.ts` |
| `ScanService` | `src/scanner/service.ts` |
| `RollingVolume` | `src/collector/rollingVolume.ts` |
| `CoinbaseWs` | `src/coinbase/ws.ts` |
| `Collector` | `src/collector/index.ts` |
| `Universe` | `src/coinbase/universe.ts` |
| `TradeState` | `android/.../domain/model/ScanResult.kt` |

`Sorting` and `Wrappers` are shared helpers. `Sorting.SortBy` is a stable
insertion sort, as JavaScript's `Array.prototype.sort` is stable.

The pure parts of the engine are functions (`ScanOf` and the functions it is
built from). The `ScannerEngine` class runs the same steps against the
store, with the `for` loop over `WINDOWS` and its early return, and its
`Scan` is proved to agree with `ScanOf`. The stateful parts are classes:

- `RollingVolume` is a class over a `seq` of entries.
- `CoinbaseWsClient` is a class with its timer and socket fields.
- `Collector` is a class holding its order-book and rolling-window maps.
- `ProductUniverse` is a class whose `Refresh` loop fills the volume record.
- `ScannerService` is a class that updates the store.

The design description and the code differ in these places. The model
follows the code.

- Without a cached BTC regime label, the engine classifies the change
  itself with a −2 threshold (`src/scanner/engine.ts:63`), while the
  collector labels with −3 (`src/collector/index.ts:87`), although the
  design says the two use the same thresholds.
  `Collector.TrendThresholdsDisagree` pins the band [−3, −2) where they differ.
- The hard veto returns before the volume baseline is written
  (`src/scanner/engine.ts:69-71`). The baseline is not refreshed on every
  call, as the design says.
- The guardrail penalty is 10 or 5, never their sum 15
  (`src/scanner/engine.ts:213-215`).
- NO_TRADE candidates are not removed before ranking
  (`src/scanner/engine.ts:37-41`).
- The book is created on first use, so a diff with no earlier snapshot is
  applied rather than ignored (`src/collector/index.ts:117-123`).
- A snapshot stores zero-size levels verbatim (`src/collector/index.ts:135-136`).
  The design says a zero size removes a level, which holds only for diffs.
- `close()` clears the reconnect timer and closes the socket
  (`src/coinbase/ws.ts:87-90`), but the socket's close event then schedules a
  new reconnect (`src/coinbase/ws.ts:44-48`, `92-100`). So closing does not
  cancel reconnection, as the design says it does: after `backoffMs` the
  client connects again. `CoinbaseWs.CloseThenCloseEvent` states this.
- The app reads the backend's own `SETUP_FORMING` and `NO_TRADE` strings
  (`src/scanner/types.ts:3`, passed to `fromString` at
  `android/app/src/main/java/com/kaos/evcryptoscanner/data/repository/ScanRepository.kt:46`)
  as UNKNOWN, because `fromString` knows only `BUY`, `SETUP FORMING — WAIT`,
  `WAIT` and `NO TRADE`. This is the app's real behaviour, not a modelling choice.
  `TradeState.UnknownValues` states it.

## Model

| member | source | states |
|---|---|---|
| Candles.NormalizeCandles | src/utils/candles.ts:10-21 | the output has the input's length, is sorted by time, and is a permutation of the rows mapped to candles |
| Candles.NormalizedFieldsArePositional | src/utils/candles.ts:12-19 | every output candle is some row read positionally as time, low, high, open, close, volume |
| Candles.NormalizeOrderedRows | src/utils/candles.ts:20 | the sort is stable: rows already in time order come out in their own order |
| Levels.FindSupportResistance | src/utils/levels.ts:3-9 | support and resistance are closes of the series, every close lies between them, and the midpoint is equidistant from both |
| Levels.IsNearZeroTarget | src/utils/levels.ts:12 | nothing is near a zero target |
| Levels.IsNearRelativeDistance | src/utils/levels.ts:13 | for a non-zero target, near iff the relative distance in percent is at most `pct` |
| Levels.IsNearItself | src/utils/levels.ts:11-14 | a non-zero target is near itself for any non-negative `pct` |
| Levels.IsNearMonotone | src/utils/levels.ts:11-14 | widening `pct` keeps a value near |
| MathUtils.Clamp | src/utils/math.ts:1-3 | with `min <= max` the result lies in the range, is the value when it is inside, and the violated bound otherwise |
| MathUtils.ClampMonotone | src/utils/math.ts:1-3 | clamping keeps order and never widens the gap between two values |
| MathUtils.Mean | src/utils/math.ts:5-8 | the mean of no values is 0; otherwise mean times count is the sum |
| MathUtils.MeanBounds | src/utils/math.ts:5-8 | a mean of terms that all lie between two bounds lies between them |
| MathUtils.MeanBetweenMinAndMax | src/utils/math.ts:5-8 | a non-empty mean lies between the minimum and the maximum |
| RollingVolume.RollingVolume.constructor | src/collector/rollingVolume.ts:2-3 | a new window is empty and keeps its horizon |
| RollingVolume.RollingVolume.AddValue | src/collector/rollingVolume.ts:5-8 | `add` appends the entry, then trims at its timestamp |
| RollingVolume.RollingVolume.Sum | src/collector/rollingVolume.ts:10-13 | `sum` trims at its timestamp and returns the total of what is left |
| RollingVolume.RollingVolume.Trim | src/collector/rollingVolume.ts:15-20 | the while loop leaves exactly the trimmed buffer |
| RollingVolume.TrimmedIsSuffix | src/collector/rollingVolume.ts:17-19 | trimming removes a prefix only; the rest keeps order and values |
| RollingVolume.TrimmedDropsOnlyOld | src/collector/rollingVolume.ts:15-20 | after trimming the front is at or after the cutoff, and every removed entry was before it |
| RollingVolume.TrimmedKeepsRecent | src/collector/rollingVolume.ts:17-18 | every entry at or after the cutoff, one exactly at it included, is retained at its shifted position |
| RollingVolume.TrimmedIdempotent | src/collector/rollingVolume.ts:15-20 | trimming twice at the same cutoff is trimming once |
| RollingVolume.SumAtIsStable | src/collector/rollingVolume.ts:10-13 | `sum(t)` is the total of the trimmed entries, and calling it twice with the same `t` gives the same total and state |
| RollingVolume.AddKeepsNewEntry | src/collector/rollingVolume.ts:5-8 | with a non-negative horizon the entry just added survives its own trim and is last, and `sum` at the same time counts everything left |
| RollingVolume.TrimmedOrderedInsideHorizon | src/collector/rollingVolume.ts:15-20 | for entries in timestamp order, no retained entry is older than the cutoff |
| RollingVolume.AddKeepsOrdered | src/collector/rollingVolume.ts:5-8 | adding a timestamp no earlier than the last keeps the buffer in timestamp order |
| ScannerEngine.ClassifyRegime | src/scanner/engine.ts:62-66 | FALLING iff change < −2, TRENDING iff change > 1, BASING otherwise |
| ScannerEngine.ResolveRegimeCases | src/scanner/engine.ts:19-21 | a cached trend label wins; only without one is the BTC change classified |
| ScannerEngine.FieldOf | src/scanner/engine.ts:82-92 | one value per id, read from that id's key, with a missing key read as 0 |
| ScannerEngine.MedianBetweenMinAndMax | src/scanner/engine.ts:89-98 | the median of a non-empty list lies between its minimum and maximum; it is the partner of the function `ScannerEngine.Median` |
| ScannerEngine.CheckVetoCases | src/scanner/engine.ts:68-80 | a hard veto is a veto and leaves the store alone; otherwise the baseline becomes the aggregate volume, and the veto fires iff old baseline > 0, aggregate < 0.9 × baseline, the id list is non-empty and the median change ≥ 0 |
| ScannerEngine.LoadedMetricsAreThePricedIds | src/scanner/engine.ts:100-143 | exactly the tracked ids with a non-zero stored price are loaded, each with its own stored metrics |
| ScannerEngine.GuardrailCases | src/scanner/engine.ts:210-216 | the penalty is 10 iff buys ≥ 2, 5 iff buys < 2 and streak ≥ 3, 0 otherwise, never 15 |
| ScannerEngine.WindowDaysFor | src/scanner/engine.ts:189 | the window is one of 7, 14 and 21 days |
| ScannerEngine.WindowDaysBands | src/scanner/engine.ts:189 | the window is 7 days exactly above a 10% move, 14 exactly for a move above 5% up to 10%, and 21 otherwise |
| ScannerEngine.ScoreProduct | src/scanner/engine.ts:145-208 | no candidate iff fewer than 20 daily candles or the liquidity gate fails; otherwise the score is in [0, 100] and whole when the guardrail is; it is the clamp to [0, 100] of the component sum less the guardrail, with volume-up meaning 24h volume above 0.7 × the 7-day average dollar volume; volume confirmation means 24h volume above that average; the window, near-support, near-breakout, late-entry and acceleration flags are as defined, and the state follows the verdict rule |
| ScannerEngine.GuardrailLowersScore | src/scanner/engine.ts:168-187 | a larger guardrail never raises the score and lowers it by at most the difference; it changes neither whether a product is scored nor any field but the score and the state |
| ScannerEngine.ScoreCeiling | src/scanner/engine.ts:168-187 | a score is at most max(0, regime points + 90 − guardrail) |
| ScannerEngine.GuardrailBlocksBuy | src/scanner/engine.ts:168-195 | a BUY is possible only while the guardrail is at most the regime points + 10, so the 10-point guardrail rules out BUY in a FALLING regime |
| ScannerEngine.VerdictRules | src/scanner/engine.ts:190-195 | BUY iff score ≥ 80, no late entry, accelerating and confirmed volume; SETUP_FORMING iff not BUY and score ≥ 50; NO_TRADE iff score < 50 |
| ScannerEngine.Candidates | src/scanner/engine.ts:37-39 | every kept candidate is the scoring of one of the loaded products |
| ScannerEngine.CandidatesComplete | src/scanner/engine.ts:37-39 | every loaded product whose scoring is not null is kept as a candidate |
| ScannerEngine.CandidatesAtMostProducts | src/scanner/engine.ts:37-39 | there are never more candidates than loaded products |
| ScannerEngine.RankedIsTopThree | src/scanner/engine.ts:41 | at most three candidates by score descending, all from the input, and any left out scores no higher than the third kept; as a multiset the ranked list is contained in the input; it is the partner of the function `ScannerEngine.Ranked` |
| ScannerEngine.RankedStable | src/scanner/engine.ts:41 | the sort is stable: the kept candidates of any one score are a prefix of that score's candidates in their input order |
| Sorting.SortByStable | src/scanner/engine.ts:41 | sorting by a key keeps, for every key value, the elements with that value in their input order |
| ScannerEngine.FindBuyWithinIsFirst | src/scanner/engine.ts:44 | `find` returns the first BUY within the window, and nothing only when there is none |
| ScannerEngine.SelectBuyUnfolded | src/scanner/engine.ts:43-48 | the loop tries the thresholds 7, 14, 21, 28, 30 in turn and returns at the first hit |
| ScannerEngine.FirstWithinIsTightest | src/scanner/engine.ts:43-48 | when no BUY has a window under the threshold, the first BUY within it has the smallest window and is the first BUY of that window |
| ScannerEngine.SelectBuyPicksTightestWindow | src/scanner/engine.ts:43-48 | a BUY is selected iff a ranked candidate is a BUY, and the one selected has the tightest window, first in ranked order among those; it is the partner of the function `ScannerEngine.SelectBuy` |
| ScannerEngine.BuildBuyResult | src/scanner/engine.ts:218-252 | the result is a BUY for the candidate's product with its score, price and window |
| ScannerEngine.BuyPlanLevels | src/scanner/engine.ts:224-240 | TP1 = 1.1 × price and TP2 = 1.2 × price; stop = 0.97 × support; the buy zone is support to 1.03 × support near support, else price to 1.02 × price; ROI bands (20, 12) for windows ≤ 7, else (35, 25); with a positive price, price < TP1 < TP2 |
| ScannerEngine.MissingReasonsOrder | src/scanner/engine.ts:264-267 | each missing reason appears exactly when its condition holds, at most once, in the order volume, level, late entry |
| ScannerEngine.RawScoreIsWhole | src/scanner/engine.ts:171-187 | every score component is a whole number of points |
| ScannerEngine.RoundOfWhole | src/scanner/engine.ts:282 | `Math.round` returns a whole score unchanged |
| ScannerEngine.RankedForQualifies | src/scanner/engine.ts:34-41 | every ranked candidate is a tracked, priced product with ≥ 20 daily candles that passes the liquidity gate, with a 7/14/21 window and the verdict rule's state |
| ScannerEngine.ScanVetoAndBaseline | src/scanner/engine.ts:18-32 | under the hard veto the verdict is NO_TRADE with the single reason "market regime veto" and the store is unchanged; otherwise the baseline becomes the aggregate volume whatever the verdict; under either veto, hard or volume, the verdict is that same NO_TRADE result |
| ScannerEngine.SelectRules | src/scanner/engine.ts:43-59 | BUY iff some ranked candidate is a BUY (with score ≥ 80); SETUP_FORMING iff none is and the best scores ≥ 50; a named product is a ranked one |
| ScannerEngine.ScanVerdictRules | src/scanner/engine.ts:18-59 | without a veto the verdict follows the selection rules on the stored metrics' top three, and a named product is tracked, priced, has ≥ 20 daily candles and passes the liquidity gate; with `ScanVetoAndBaseline` it is the partner of the function `ScannerEngine.ScanOf` |
| ScannerEngine.ScannerEngine.constructor | src/scanner/engine.ts:12-16 | the engine keeps its store and its liquidity settings |
| ScannerEngine.ScannerEngine.Scan | src/scanner/engine.ts:18-60 | the method's result and the store afterwards are those of the scan function on the store before |
| ScannerEngine.ScannerEngine.Choose | src/scanner/engine.ts:43-59 | the loop over the windows and the fallbacks compute the selection function |
| ScannerEngine.ScannerEngine.CheckVeto | src/scanner/engine.ts:68-80 | the veto and the rewritten store are those of the veto function |
| ScannerEngine.ScannerEngine.LoadMetrics | src/scanner/engine.ts:100-143 | the loop pushes exactly the loaded-metrics list |
| ScannerEngine.ScannerEngine.GetBuyGuardrail | src/scanner/engine.ts:210-216 | the guardrail of the two stored counters, missing ones read as 0 |
| ScannerEngine.ScannerEngine.BuildSetupResult | src/scanner/engine.ts:254-285 | the pushes build the missing reasons in order; the result is SETUP_FORMING with the rounded score and the confirm level |
| ScanService.PushTrimKeepsNewest | src/scanner/service.ts:21-22 | pushing onto a trimmed history and trimming again equals trimming the full history: the newest 200 are kept |
| ScanService.LeadingNoTrades | src/scanner/service.ts:27-30 | the streak is the length of the run of NO_TRADE verdicts at the head of the history |
| ScanService.ScannerService.constructor | src/scanner/service.ts:10-16 | the service and its engine share one store |
| ScanService.ScannerService.Run | src/scanner/service.ts:18-33 | returns exactly the engine's verdict; it becomes the latest; the history is newest first and capped at 200; BUY adds one to the buys and zeroes the streak, NO_TRADE adds one to the streak, SETUP_FORMING zeroes it; the counter update is the function `ScanService.Counted` |
| ScanService.ScannerService.Record | src/scanner/service.ts:20-31 | the verdict becomes the latest, heads the history capped at 200; BUY adds one to the buys and zeroes the streak, NO_TRADE adds one to the streak, SETUP_FORMING zeroes it; no other key changes; the counter update is the function `ScanService.Counted` |
| ScanService.ScannerService.Latest | src/scanner/service.ts:35-39 | returns the stored latest verdict (`None` when the key is absent); after a run it is that run's |
| CoinbaseWs.Dedup | src/coinbase/ws.ts:60 | `[...new Set(ids)]` has no repeats and the same elements |
| CoinbaseWs.DedupKeepsFirstOccurrenceOrder | src/coinbase/ws.ts:60 | ids appear in the order of their first occurrence |
| CoinbaseWs.DedupOfDistinct | src/coinbase/ws.ts:60 | a list without repeats is kept as it is |
| CoinbaseWs.SubscribedStep | src/coinbase/ws.ts:67-85 | a subscribe frame adds its ids to the subscription and an unsubscribe frame removes its ids |
| CoinbaseWs.BackoffIsCappedDoubling | src/coinbase/ws.ts:92-99 | after k failed attempts the backoff is min(1000 × 2^k, 30000), so it stays in [1000, 30000] |
| CoinbaseWs.BackoffReachesCap | src/coinbase/ws.ts:97 | from the fifth failed attempt on, the backoff is 30000 |
| CoinbaseWs.CoinbaseWsClient.constructor | src/coinbase/ws.ts:13-23 | no socket, no timer, backoff 1000, no products |
| CoinbaseWs.CoinbaseWsClient.Connect | src/coinbase/ws.ts:25-27 | clears a pending timer and opens a fresh connecting socket with nothing sent; keeps the backoff and products |
| CoinbaseWs.CoinbaseWsClient.HandleOpen | src/coinbase/ws.ts:28-35 | the backoff resets to 1000, and the product list is subscribed when non-empty, so the subscription is exact |
| CoinbaseWs.CoinbaseWsClient.HandleClose | src/coinbase/ws.ts:44-48 | a reconnect is pending, armed with the current backoff unless one was already pending |
| CoinbaseWs.CoinbaseWsClient.HandleError | src/coinbase/ws.ts:49-52 | a connecting or open socket starts closing; nothing else changes |
| CoinbaseWs.CoinbaseWsClient.FireReconnectTimer | src/coinbase/ws.ts:95-99 | clears the timer, doubles the backoff up to 30000 and reconnects |
| CoinbaseWs.CoinbaseWsClient.IsConnected | src/coinbase/ws.ts:55-57 | connected iff the socket is open |
| CoinbaseWs.CoinbaseWsClient.SetProducts | src/coinbase/ws.ts:59-65 | as written: stores the deduplicated ids; on an open socket it unsubscribes and resubscribes the new list, which leaves every old product subscribed |
| CoinbaseWs.CoinbaseWsClient.SetProductsCorrected | src/coinbase/ws.ts:59-65 | stores the deduplicated ids; on an open socket it unsubscribes the old list and subscribes the new, so the subscription stays exact |
| CoinbaseWs.CoinbaseWsClient.Subscribe | src/coinbase/ws.ts:67-75 | sends a subscribe frame only on an open socket |
| CoinbaseWs.CoinbaseWsClient.UnsubscribeAll | src/coinbase/ws.ts:77-85 | sends an unsubscribe frame for the stored list only on an open socket |
| CoinbaseWs.CoinbaseWsClient.Close | src/coinbase/ws.ts:87-90 | clears any pending timer and starts closing the socket; it does not stop the close event from arming a new timer |
| CoinbaseWs.CloseThenCloseEvent | src/coinbase/ws.ts:44-100 | after `close()` and the close event it fires, the socket is closed and a reconnect is pending with the current backoff |
| CoinbaseWs.CoinbaseWsClient.ScheduleReconnect | src/coinbase/ws.ts:92-100 | a no-op while a timer is pending; otherwise arms one with the current backoff |
| CoinbaseWs.CoinbaseWsClient.ClearReconnect | src/coinbase/ws.ts:102-107 | no timer is pending afterwards |
| CoinbaseWs.SetProductsLeavesOldSubscribed | src/coinbase/ws.ts:59-65 | switching an open connection from BTC-USD to ETH-USD leaves both subscribed |
| Collector.TickerTrend | src/collector/index.ts:86-89 | FALLING iff change < −3, TRENDING iff change > 1, BASING otherwise |
| Collector.TrendThresholdsDisagree | src/collector/index.ts:87 | the collector's label and the engine's fallback differ exactly on changes in [−3, −2) |
| Collector.HardVetoUnderTickerTrend | src/collector/index.ts:86-89 | with the collector's label cached, the hard veto fires iff the BTC change is below −3 |
| Collector.TickerWritesOnlyItsProduct | src/collector/index.ts:76-84 | a ticker writes only its own product's price, change, volume and time keys: the price, (price − open)/open × 100 or 0 for a zero open, volume × price, and the time; handling the same ticker again later changes only the time |
| Collector.SetLevel | src/collector/index.ts:146 | `map.set`: the price now has the given size and every other price is unchanged |
| Collector.DeleteLevel | src/collector/index.ts:144 | `map.delete`: the price is absent and every other price is unchanged |
| Collector.LoadLevelsLastWins | src/collector/index.ts:135-136 | after loading a snapshot side, a price has the size of its last occurrence, zero sizes included |
| Collector.ApplyChangesLastWins | src/collector/index.ts:137-149 | after a diff, a price has the size of its last change on that side: the size, or absent after a zero; "buy" selects bids and any other side asks; it is the partner of the functions `Collector.ApplyChange` and `Collector.ApplyChanges` |
| Collector.ChangesKeepDistinctPrices | src/collector/index.ts:137-149 | diffs keep each side free of repeated prices |
| Collector.SnapshotHasDistinctPrices | src/collector/index.ts:130-136 | a loaded snapshot side has no repeated prices |
| Collector.BookStatsOf | src/collector/index.ts:151-165 | no stats iff either side is empty |
| Collector.TopBidsAreHighest | src/collector/index.ts:151-153 | the best 10 bids, highest first: any bid left out is no higher than the tenth kept, and the first is the highest; it is the partner of the function `Collector.TopBids` |
| Collector.TopAsksAreLowest | src/collector/index.ts:154-156 | the best 10 asks, lowest first: any ask left out is no lower than the tenth kept, and the first is the lowest; it is the partner of the function `Collector.TopAsks` |
| Collector.SpreadOfUncrossedBook | src/collector/index.ts:159-162 | an uncrossed book with a positive best bid has a non-negative spread, positive when the ask is above the bid |
| Collector.MatchWindowStep | src/collector/index.ts:108-114 | after `add` at `ts`, `sum(ts)` trims nothing more and is the total of the window |
| Collector.WindowOfHorizon | src/collector/index.ts:92-98 | a window found or created for a product has the horizon of its map |
| Collector.Collector.constructor | src/collector/index.ts:16-35 | no books, no windows, no products, not connected, a fresh client without a socket |
| Collector.Collector.Start | src/collector/index.ts:37-41 | records the products, hands the deduplicated list to the client through its as-written `setProducts`, and starts connecting, with no reconnect pending |
| Collector.Collector.UpdateProducts | src/collector/index.ts:51-54 | records the products and hands the deduplicated list to the client; on an open socket the frames are an unsubscribe and a subscribe of the new list, so the new products join the subscription and none leaves it; on any other socket nothing is sent |
| Collector.Collector.IsWsConnected | src/collector/index.ts:43-45 | returns the connected flag |
| Collector.Collector.GetTrackedCount | src/collector/index.ts:47-49 | returns the number of tracked products |
| Collector.Collector.OnSocketOpen | src/collector/index.ts:32 | connected, and subscribed to exactly the tracked products |
| Collector.Collector.OnSocketClose | src/collector/index.ts:33 | not connected, and a reconnect is pending |
| Collector.Collector.OnSocketError | src/coinbase/ws.ts:49-52 | a connecting or open socket starts closing, any other is left as it is, and the feed stays marked connected until the close event |
| Collector.Collector.OnReconnectTimer | src/coinbase/ws.ts:95-99 | the client is connecting again |
| Collector.Collector.HandleMessage | src/collector/index.ts:56-71 | a ticker, match, snapshot or update message has exactly the effect of its handler below; any other type changes neither books, windows nor store |
| Collector.Collector.HandleTicker | src/collector/index.ts:73-90 | an empty product id changes nothing; otherwise the ticker writes, plus the trend label for BTC-USD only; books and windows are untouched |
| Collector.Collector.HandleMatch | src/collector/index.ts:100-115 | an empty product id changes nothing; otherwise size × price is added to the product's 5-, 15- and 60-minute windows, and each window's sum is written; books and the trend label are untouched |
| Collector.Collector.AddAndSum | src/collector/index.ts:108-114 | one window map after `add` and `sum`: only the product's window changes, to the window after the add, the sum is its total, and all windows keep the map's horizon |
| Collector.Collector.HandleLevel2 | src/collector/index.ts:125-169 | an empty product id changes nothing; otherwise the product's book (created empty if missing) gets the snapshot or the diff, and its top-of-book stats are written; windows and the trend label are untouched |
| Collector.Collector.LoadSide | src/collector/index.ts:130-136 | the snapshot loop loads the side from empty |
| Collector.Collector.ApplyUpdate | src/collector/index.ts:137-149 | the diff loop applies the changes in order |
| Collector.Collector.PublishTopOfBook | src/collector/index.ts:151-168 | writes spread and depth when both sides are non-empty and nothing otherwise |
| Collector.Collector.TopOfBook | src/collector/index.ts:151-165 | the two sorts, the spread and the depth compute the book's stats: none when a side is empty |
| Universe.Tradable | src/coinbase/universe.ts:25-30 | exactly the products ending in "-USD", not trading-disabled and "online" |
| Universe.Upsert | src/coinbase/universe.ts:38 | a record write: the key now maps to the value, other keys are unchanged, and keys stay unique |
| Universe.VolumesAreTickerNotional | src/coinbase/universe.ts:32-42 | a product has a volume iff it is tradable and its ticker was fetched, and the volume is price × base volume; a failed fetch excludes only that product; it is the partner of the function `Universe.Volumes` |
| Universe.VolumeOfEntry | src/coinbase/universe.ts:44 | with unique keys, each entry is what the record finds for its key |
| Universe.VolumeOfFound | src/coinbase/universe.ts:44 | a value the record finds is one of its entries |
| Universe.WithoutAnchors | src/coinbase/universe.ts:49 | exactly the ids that are not anchors |
| Universe.Slice | src/coinbase/universe.ts:49 | `slice(0, n)` is a prefix of min(n, length) elements, or of length + n for a negative `n` |
| Universe.SortedIdsByVolume | src/coinbase/universe.ts:44-46 | the sorted ids are the record's keys, without repeats, by volume descending |
| Universe.WithoutAnchorsKeepsOrder | src/coinbase/universe.ts:49 | filtering keeps the descending order and the absence of repeats |
| Universe.UniverseIdsShape | src/coinbase/universe.ts:44-50 | the list starts with BTC-USD and ETH-USD, has no repeats, at most topN further ids (topN ≥ 0) that all have a volume and are not anchors, in non-increasing volume order; with `UniverseIdsComplete` it is the partner of the function `Universe.UniverseIds` |
| Universe.UniverseIdsComplete | src/coinbase/universe.ts:49-50 | a product with a volume that is left out means the topN slots are full and it has no more volume than any id kept |
| Universe.ProductUniverse.constructor | src/coinbase/universe.ts:10-21 | the snapshot starts empty with time 0 |
| Universe.ProductUniverse.Refresh | src/coinbase/universe.ts:23-60 | the loop builds the volume record, and the snapshot is replaced wholesale by the ranked one and returned |
| Universe.ProductUniverse.GetSnapshot | src/coinbase/universe.ts:62-64 | returns the last stored snapshot |
| Universe.SnapshotTracksTradables | src/coinbase/universe.ts:23-56 | a refreshed universe leads with the anchors, has no repeats, and otherwise tracks only tradable products whose ticker was fetched |
| TradeState.UpperChar | android/app/src/main/java/com/kaos/evcryptoscanner/domain/model/ScanResult.kt:24 | ASCII lower-case letters map to their upper-case forms, and no lower-case ASCII letter is ever returned |
| TradeState.UpperIdempotent | android/app/src/main/java/com/kaos/evcryptoscanner/domain/model/ScanResult.kt:24 | upper-casing twice is upper-casing once |
| TradeState.DisplayNameIsUpper | android/app/src/main/java/com/kaos/evcryptoscanner/domain/model/ScanResult.kt:33-38 | every display name is already upper case |
| TradeState.FromDisplayName | android/app/src/main/java/com/kaos/evcryptoscanner/domain/model/ScanResult.kt:23-38 | `fromString(displayName(s)) == s` for every state; with `DisplayNameInjective` and `FromStringRecognises` it is the partner of the functions `TradeState.FromString` and `TradeState.DisplayName` |
| TradeState.DisplayNameInjective | android/app/src/main/java/com/kaos/evcryptoscanner/domain/model/ScanResult.kt:33-38 | two states have the same display name iff they are equal |
| TradeState.FromStringIgnoresCase | android/app/src/main/java/com/kaos/evcryptoscanner/domain/model/ScanResult.kt:24 | a value reads as its upper-cased form |
| TradeState.FromStringRecognises | android/app/src/main/java/com/kaos/evcryptoscanner/domain/model/ScanResult.kt:23-31 | a value reads as BUY, WAIT or NO_TRADE iff its upper case is that state's display name, or "WAIT" for WAIT |
| TradeState.WaitAliases | android/app/src/main/java/com/kaos/evcryptoscanner/domain/model/ScanResult.kt:26 | "WAIT" and "SETUP FORMING — WAIT", in any case, read as WAIT |
| TradeState.UnknownValues | android/app/src/main/java/com/kaos/evcryptoscanner/domain/model/ScanResult.kt:24-29 | null and the backend's own "NO_TRADE" and "SETUP_FORMING" read as UNKNOWN, as do "UNKNOWN" and "" |

## Left out

- I/O:
  - The Redis client (`src/store/redis.ts`) is not part of this model. The store is the in-memory `MetricsStore.Store`.
  - The Upstash auto-decoding of numbers is reflected only in `HasLastPrice`, where a stored 0 is falsy.
- Concurrency: `await`, `Promise.all` and the store's asynchrony are sequential reads and writes. Messages are handled one at a time.
- Clocks: `Date.now()` is a `now` parameter.
- ScanService.ScannerService.Run, ScanService.ScannerService.Record: the 7-day expiry on the BUY counter (`src/scanner/service.ts:25`) is not modelled, because it needs a clock. In the model `BuysLast7d` only grows, while in the source it disappears 7 days after the last BUY.
- Parsing:
  - JSON parsing of candles, of WebSocket messages and of the stored verdict is left out. Messages arrive as a `Message` datatype and candle rows as rows of at least six numbers.
  - `latest()` returns null only for an absent or empty key (`src/scanner/service.ts:37`), modelled as `None`. A stored verdict that does not parse makes `latest()` throw (`src/scanner/service.ts:38`); this is not modelled. If the store client decoded `scan:latest` into an object, as it does for numbers, `String(raw)` would not parse either; that is not modelled.
- Rendering: the text of the verdicts (`toFixed(4)`, the prose lines) is left out. The numeric plan fields are kept instead.
- Floating point:
  - Numbers are exact reals, and `NaN`, `Infinity` and `Number()` of non-numeric strings are left out.
  - The one `NaN` that decides a branch is the median of an empty id list, whose `>= 0` test is false. It is modelled exactly, by requiring a non-empty list for the volume veto.
  - `Math.min` of no closes is excluded by the 20-candle gate.
- Candle refresh: the job in `src/index.ts:28-39` and the REST client are outside the modelled core. Daily candles enter as stored rows of at least six numbers, which is how the engine and `normalizeCandles` read them (`src/scanner/engine.ts:139`, `src/utils/candles.ts:12`). The refresh job in fact stores the already-normalised objects (`src/index.ts:32-35`, `src/coinbase/rest.ts:48-53`), and the model does not follow what destructuring those as arrays would give.
- Hourly candles: `candles1h` is loaded by the engine but never used by scoring, so it is left out of `ProductMetrics`.
- Socket:
  - The socket is a `ReadyState` plus the frames sent on it.
  - The listeners of a replaced socket (`ws.on` on an old socket after a new `connect`) are not modelled. Every event belongs to the current socket.
  - The channel list in the frames is left out.
- Collector.Collector.HandleMatch: the three rolling windows are stored as values (`RollingVolume.Window`) in maps and use the same specification functions as the `RollingVolume` class. Sharing of one window object between maps does not arise in the source and is not modelled.
- Collector: each side of an order book is a sequence of levels in insertion order, which is the iteration order of a JavaScript `Map`. It is not a Dafny `map`, because the top-of-book sort is stable over that order.
- Collector.Collector.UpdateProducts: the collector calls the as-written `SetProducts` (see Findings), so its invariant is only that an open socket is subscribed to at least the tracked products. Exact subscription is promised only just after the socket opens (`OnSocketOpen`). The corrected `SetProductsCorrected` is proved to keep the subscription exact, but the collector does not use it.
- Universe: the REST calls are parameters.
  - `products` is the product list.
  - `tickers` maps each product whose ticker fetch succeeded to its price and volume. A product missing from it is one whose fetch threw.
  - The warning log is left out.
- TradeState.UpperChar: Kotlin's `uppercase()` is modelled only for the letters whose upper case is one ASCII letter (`a`–`z`, `ı`, `ſ`). Other Unicode case mappings are left out, including the ligatures that expand to two letters. None of those produces one of the four names.
- The Android UI, the Android networking and storage plumbing, the HTTP server, the scheduler, the push notifications, the REST client and the configuration loader are outside the modelled core. Their defaults appear as `ScannerEngine.DefaultEnv` (50 bps, 50000 USD) and the `topN` parameter.

## Findings

| source | as written | input that shows it | evidently intended | confidence | as-written member | corrected member |
|---|---|---|---|---|---|---|
| src/coinbase/ws.ts:59-65 | `setProducts` assigns the new list before calling `unsubscribeAll`, so the unsubscribe frame names the new products and the old products stay subscribed | open socket subscribed to ["BTC-USD"], then `setProducts(["ETH-USD"])`: frames subscribe BTC-USD, unsubscribe ETH-USD, subscribe ETH-USD, leaving both subscribed | unsubscribe the previous list, then subscribe the new one, so the subscription equals the product list | not executed | CoinbaseWs.CoinbaseWsClient.SetProducts, CoinbaseWs.SetProductsLeavesOldSubscribed | CoinbaseWs.CoinbaseWsClient.SetProductsCorrected |
