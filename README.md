# Investment tracker core, modelled in Dafny

This project models the logic of `tracker.py`, a small investment tracker. The tracker sends a
daily price summary and intraday price alerts for three instruments:

- gold (`GC=F`, quoted in USD);
- two London-listed ETFs (`ISWD.L`, `HBKS.L`, quoted in GBP or pence).

The model covers four pieces of that logic and proves what each promises:

- **Quote normalisation** (`get_asset_price`). A provider's daily samples become a record of
  GBP prices and optional USD prices. This covers pence detection on London tickers, the
  two currency branches, and the failure cases: no data, no rate, or a zero rate on the USD
  branch.
- **Trend calculation** (`calculate_trend`). This is the change of an asset over its last N
  recorded days of history:
  - only entries with a non-null price count;
  - dates are compared as Python compares strings;
  - the sort is stable and newest first;
  - when the history holds at most N entries, the oldest entry is used.
- **History lifecycle.** The daily summary records today's GBP prices by replacing any
  existing entry for today, then trims the history to the retention window when it saves.
  `History` is a class whose `entries` field these methods reassign.
- **Alert state machine** (`cmd_watch`, `load_alerts_state`, `save_alerts_state`):
  - the day-scoped list of alert keys already fired;
  - its reset on the first load of a new day;
  - the per-asset checks: intraday move against a threshold, and inclusive above/below
    limits;
  - the rule that a key fires at most once a day;
  - the date stamp written on save. The clock is read once at load and once at save, so a
    run that crosses midnight saves the first day's keys under the second day's date, and
    those keys do not fire again on the second day.

  `AlertState` is a class whose `date` and `fired` fields the evaluation updates in place.

The clock, the network and the file system are parameters. `today` and `cutoff` are date
strings. Each asset's provider answer is a `Quote` holding the daily (open, close) samples,
and the exchange rate is an optional real. The stored history and the alert documents are
passed in as values and handed back as values. A caller passes one `Quote` per entry of
`ASSETS`, in order.

Modules, one file each:

- `Wrappers`: `Option`.
- `DateOrder`: Python's ordering of strings, with its order laws.
- `PriceChange`: the percentage helpers.
- `Normalizer`: quote normalisation.
- `HistoryStore`: the entry filters, their lemmas, and the `History` class.
- `TrendCalculator`: `calculate_trend`.
- `AlertStateMachine`: alert keys, the firing rule, the `AlertState` class, and one watch
  run.
- `DailySummary`: the summary loop and its effect on the history.

## Model

| member | source | states |
|---|---|---|
| PriceChange.PercentChange | tracker.py:275-278 | None exactly when the past value is 0. Otherwise, the past value grown by the result (as a percentage) is the current value. The result is positive exactly when the price rose from a positive past value, or fell from a negative one. |
| PriceChange.DailyChangePct | tracker.py:366-368 | 0 when the previous close is 0. Otherwise, the percentage that takes the previous close to the current price. |
| Normalizer.IsLseTicker | tracker.py:175 | True exactly when the ticker is some prefix followed by `.L`. |
| Normalizer.RawQuoteOf | tracker.py:160-171 | None exactly without samples. Otherwise the current value is the last close and the open is the last open. The previous close is the close before the last, or the last open when there is only one sample. |
| Normalizer.PenceAdjusted | tracker.py:175-179 | On an LSE ticker whose current value exceeds 100, all three values are divided by 100 together. Otherwise none of them changes. |
| Normalizer.FromUsd | tracker.py:182-194 | The USD fields are the adjusted raw values, and each USD field is its GBP field times the rate. |
| Normalizer.FromGbp | tracker.py:196-209 | The GBP fields are the adjusted raw values. The USD fields are GBP times the rate when there is a rate, and all absent when there is none. |
| Normalizer.Normalize | tracker.py:173-222 | Fails exactly for a USD-native asset with no rate or a zero rate. Otherwise the native-currency fields are the pence-adjusted raw values, and the other currency is converted at the rate, or left absent when there is no rate. |
| Normalizer.AssetPrice | tracker.py:143-222 | None exactly when the provider returned no data, or the asset is USD-native without a usable rate. |
| Normalizer.AssetPriceOfSamples | tracker.py:164-218 | With data, the price record is the normalisation of the last close, the last open and the previous close (the close before the last, or the last open for a single sample). |
| Normalizer.PenceExample | tracker.py:175-209 | A GBP asset quoted at 650 pence with rate 1.25 gives £6.50 and $8.125. |
| DateOrder.LessIrreflexive | tracker.py:244 | No date string is before itself. |
| DateOrder.LessTransitive | tracker.py:244 | String order is transitive. |
| DateOrder.LessTotal | tracker.py:265 | Any two distinct date strings are ordered one way or the other. |
| DateOrder.LessAsymmetric | tracker.py:265 | A date before another is not after it. |
| DateOrder.LessEqAntisymmetric | tracker.py:265 | Strings ordered both ways are equal. |
| DateOrder.LessEqTransitive | tracker.py:244 | `<=` on strings is transitive. |
| DateOrder.LessLessEq | tracker.py:265 | `a < b <= c` implies `a < c`. |
| DateOrder.LessEqLess | tracker.py:265 | `a <= b < c` implies `a < c`. |
| HistoryStore.Stored | tracker.py:364 | The recorded entry holds exactly the day's assets, each with its price present. |
| HistoryStore.WithoutDate | tracker.py:413 | Keeps exactly the entries of other dates. |
| HistoryStore.Replaced | tracker.py:413-418 | The result holds the new entry, last, and exactly the old entries of other dates. |
| HistoryStore.Retained | tracker.py:242-245 | Keeps exactly the entries dated on or after the cutoff. |
| HistoryStore.EntriesOnWithoutDate | tracker.py:413 | Dropping a date removes all of that date's entries, and every other date keeps its entries in order. |
| HistoryStore.EntriesOnRetained | tracker.py:242-245 | A date inside the window keeps all its entries in order. A date outside it keeps none. |
| HistoryStore.ReplacedOnDate | tracker.py:413-418 | After recording, the only entry of the recorded date is the new one, and other dates are unchanged. |
| HistoryStore.WithoutDateIdempotent | tracker.py:413 | Dropping a date twice is dropping it once. |
| HistoryStore.ReplaceTwice | tracker.py:413-418 | Two recordings on the same date leave only the second: replace, not duplicate. |
| HistoryStore.ReplacedUnique | tracker.py:413-418 | Recording keeps the history keyed by date. |
| HistoryStore.RetainedUnique | tracker.py:242-245 | Trimming keeps the history keyed by date. |
| HistoryStore.SavedToday | tracker.py:411-419 | Recording then saving leaves exactly the new entry for today, when the cutoff is not after today. |
| HistoryStore.RetainedAppend | tracker.py:242-245 | Trimming a concatenation trims each part. |
| HistoryStore.RetainedIdempotent | tracker.py:242-245 | Trimming twice is trimming once. |
| HistoryStore.WithoutDateRetained | tracker.py:242-245 | Dropping a date and trimming commute. |
| HistoryStore.RetainedReplaced | tracker.py:411-419 | After recording and trimming, the new entry comes last, after the trimmed entries of other dates. |
| HistoryStore.RecordAndSaveTwice | tracker.py:411-419 | Recording and saving the same entry twice gives the history of doing it once. |
| HistoryStore.History.Load | tracker.py:225-231 | A missing store loads as an empty history. Otherwise the stored entries are loaded. |
| HistoryStore.History.RecordToday | tracker.py:413-418 | The new entries are the replacement of the old. Today has exactly the new entry, other dates keep their entries, and being keyed by date is preserved. |
| HistoryStore.History.Save | tracker.py:238-245 | The new entries are the trimmed old entries. An entry stays exactly when its date is on or after the cutoff, dates in the window keep their entries, and being keyed by date is preserved. |
| TrendCalculator.Points | tracker.py:256-259 | Every entry with a non-null price for the asset yields its point, and every point comes from such an entry. |
| TrendCalculator.SortDesc | tracker.py:265 | A permutation of its input (same multiset). |
| TrendCalculator.InsertPermutes | tracker.py:265 | Insertion adds exactly the one point. |
| TrendCalculator.SortDescDescending | tracker.py:265 | The sort is newest first. |
| TrendCalculator.PointsOnSort | tracker.py:265 | The sort is stable: the points of each date keep their history order. |
| TrendCalculator.CountLaterSort | tracker.py:265 | Sorting does not change how many points are newer than a date. |
| TrendCalculator.LatestIndex | tracker.py:265-267 | Gives the newest point, the first listed among ties. |
| TrendCalculator.EarliestIndex | tracker.py:269-271 | Gives the oldest point, the last listed among ties. |
| TrendCalculator.SortDescHead | tracker.py:265-267 | The sorted list starts with the newest point, the first listed among ties. |
| TrendCalculator.SortDescLast | tracker.py:265-271 | The sorted list ends with the oldest point, the last listed among ties. |
| TrendCalculator.Trend | tracker.py:256-262 | None when fewer than two entries hold a price for the asset. |
| TrendCalculator.TrendMeaning | tracker.py:251-278 | With at least two points, the result is the percentage change from the past point to the newest point. The past point is the oldest when there are at most `days` points, else the one at position `days` in newest-first order. |
| TrendCalculator.PointsDistinct | tracker.py:256-259 | A history keyed by date gives each date at most one point. |
| TrendCalculator.NewestLeads | tracker.py:265-267 | With distinct dates, the newest point is first after the sort. |
| TrendCalculator.OldestTrails | tracker.py:269-271 | With distinct dates, the oldest point is last after the sort. |
| TrendCalculator.RankedAt | tracker.py:272-273 | With distinct dates, the point with exactly `n` newer points is at position `n` of the sort. |
| TrendCalculator.TrendWithUniqueDates | tracker.py:251-278 | For a history keyed by date, the trend is the change from entry `j` to the newest entry `i`. Entry `j` is the oldest when there are at most `days` points (graceful degradation), otherwise the entry with exactly `days` newer points. |
| AlertStateMachine.KeyString | tracker.py:462-491 | Lays out the tag (`intraday_`, `price_above_`, `price_below_`) and then the asset, plus the sign for an intraday key, so the asset and the kind can be read back from the string. |
| AlertStateMachine.KeyStringInjective | tracker.py:462-491 | Distinct alert keys have distinct key strings, so keying by datatype loses nothing. |
| AlertStateMachine.Threshold | tracker.py:442-457 | The asset's own threshold when configured, else the configured default, else 2.0. |
| AlertStateMachine.LimitsFor | tracker.py:476 | The asset's configured limits, or no limits when it has no entry. |
| AlertStateMachine.IntradayAlert | tracker.py:457-462 | Fires exactly when the open is non-zero and the move is at least the threshold. The sign is the sign of the percentage change: `+` exactly when the price rose from a positive open, or fell from a negative one. |
| AlertStateMachine.AboveAlert | tracker.py:478-480 | Raises the asset's above key exactly when an upper limit is set and the price is at or over it. |
| AlertStateMachine.BelowAlert | tracker.py:489-491 | Raises the asset's below key exactly when a lower limit is set and the price is at or under it. |
| AlertStateMachine.Candidates | tracker.py:456-496 | All of the asset's keys, without duplicates. An intraday key is present exactly when the intraday check raises it. Above is present exactly when a limit is set and price >= limit. Below is present exactly when a limit is set and price <= limit. |
| AlertStateMachine.AssetCandidates | tracker.py:448-451 | An asset without a price triggers nothing. |
| AlertStateMachine.Triggered | tracker.py:447-451 | Every triggered key belongs to an asset that had a price in this cycle. |
| AlertStateMachine.AssetCandidatesRaise | tracker.py:448-496 | The keys of one quote are exactly the candidate keys of its price, and there are none without a price. |
| AlertStateMachine.TriggeredFrom | tracker.py:447-498 | A key is triggered in a cycle exactly when it is among the keys of some asset's quote. |
| AlertStateMachine.TriggeredMembers | tracker.py:447-498 | A key is triggered exactly when some asset has a price and the key is among that price's candidate keys. |
| AlertStateMachine.AboveLimitTriggers | tracker.py:475-486 | A priced asset at or above its upper limit triggers its above key (for example, above £10 at £10.50). |
| AlertStateMachine.Step | tracker.py:464-472 | Appends the key exactly when it is not there yet: the result holds the old keys and the new one, one longer only when the key is new. |
| AlertStateMachine.Fire | tracker.py:464-498 | Firing never shortens the fired list and adds at most one key per trigger. |
| AlertStateMachine.FireExtends | tracker.py:464-498 | Firing only appends: earlier keys stay, in order. |
| AlertStateMachine.FireMembers | tracker.py:464-498 | Afterwards, a key has fired exactly when it fired before or was triggered now. |
| AlertStateMachine.FireAddsNew | tracker.py:464-498 | Every triggered key that had not fired before is among the keys the cycle added. |
| AlertStateMachine.FireNoDup | tracker.py:464-498 | The fired list never gains a duplicate. |
| AlertStateMachine.FireNewKeys | tracker.py:464-498 | Each key added was triggered now and had not fired before. |
| AlertStateMachine.FireNothingNew | tracker.py:464-498 | A cycle whose triggered keys have all fired adds nothing. |
| AlertStateMachine.FireIdempotent | tracker.py:464-498 | Repeating a cycle with the same conditions fires nothing more. |
| AlertStateMachine.SpikeThenDip | tracker.py:461-473 | A spike and a dip of one asset are independent keys: each fires once on the same day and never again. |
| AlertStateMachine.Loaded | tracker.py:281-294 | A loaded state is undated or dated today, and a non-empty fired list is today's stored one. |
| AlertStateMachine.LoadOnNewDay | tracker.py:289-292 | A stored state from another day loads as an empty list dated today. |
| AlertStateMachine.LoadAfterSave | tracker.py:286-294 | A state saved today loads back unchanged today. |
| AlertStateMachine.AlertState.Load | tracker.py:281-294 | The fields are the loaded state. |
| AlertStateMachine.AlertState.Mark | tracker.py:464-473 | The key is appended exactly when it had not fired. The result says whether it was new. |
| AlertStateMachine.AlertState.CheckIntraday | tracker.py:456-473 | Fires the intraday key exactly as IntradayAlert prescribes. |
| AlertStateMachine.AlertState.CheckLimits | tracker.py:475-498 | Fires the above key, then the below key, as AboveAlert and BelowAlert prescribe. |
| AlertStateMachine.AlertState.EvaluateQuote | tracker.py:448-498 | Moves the fired list from the state after the first `i` assets to the state after the first `i + 1`. |
| AlertStateMachine.AlertState.Evaluate | tracker.py:447-498 | The new fired list is the old one with this cycle's triggered keys fired, and the returned alerts are exactly what was appended. |
| AlertStateMachine.AlertState.Save | tracker.py:297-305 | Stamps today's date on save, leaves the fired list unchanged, and writes it. |
| AlertStateMachine.Watch | tracker.py:428-501 | The state is loaded on the load day and saved dated the save day, whether or not anything fired. Its list is the loaded list with this cycle's keys fired. The alerts sent are exactly the keys triggered now that had not fired on the load day. |
| AlertStateMachine.MidnightCarriesKeys | tracker.py:281-305 | A run that loads on one day and saves on the next carries the first day's keys into the second: they are loaded there and do not fire again. |
| AlertStateMachine.WatchKeepsNoDup | tracker.py:464-501 | A saved fired list never holds a key twice. |
| AlertStateMachine.SameDayRerun | tracker.py:281-501 | A second run on the same day with the same conditions sends nothing. |
| AlertStateMachine.NewDayRefires | tracker.py:289-292 | On a new day, every triggered key fires again. |
| DailySummary.RowOf | tracker.py:353-394 | Unavailable exactly when the asset has no price. Otherwise it holds the asset's GBP price, USD price and previous close, the daily change and its percentage against the previous close (0 when that close is 0), and the 5- and 22-recording trends of the history as loaded, absent when history holds fewer than two prices. |
| DailySummary.GbpPrice | tracker.py:361-364 | The GBP price exactly when the asset has one. |
| DailySummary.Collect | tracker.py:364 | The dictionary's keys are exactly the assets that had a price. |
| DailySummary.CollectValue | tracker.py:364 | Each key holds the price of its last priced occurrence. |
| DailySummary.TodaysPrices | tracker.py:353-364 | Today's prices are keyed by exactly the assets that had a price. |
| DailySummary.TodaysPricesValue | tracker.py:361-364 | Each such key maps to that asset's GBP price. |
| DailySummary.AfterSummary | tracker.py:411-419 | Unchanged when no asset had a price. Otherwise an entry remains exactly when it is inside the window and is either today's new entry or an old entry of another date. |
| DailySummary.AfterSummaryKeyed | tracker.py:411-419 | A run keeps the history keyed by date. When some asset had a price, it leaves exactly today's new entry for today. |
| DailySummary.AfterSummaryTwice | tracker.py:411-419 | A second run on the same day with the same quotes leaves the history unchanged. |
| DailySummary.SummarizeQuote | tracker.py:353-394 | Computes the asset's row and its GBP price as RowOf and GbpPrice specify. |
| DailySummary.Summary | tracker.py:333-419 | One row per asset, computed on the history as loaded. The history is then recorded and trimmed when any asset had a price, and left untouched otherwise. |

## Left out

- Network access. The yfinance calls (`get_gbp_usd_rate`, `ticker.history`) and
  `send_telegram_message` are foreign-library I/O. Their results are parameters: the samples
  in a `Quote` and the optional rate. A fetch that raises is modelled as an empty sample
  list, which the source handles the same way (both yield None).
- File I/O. Reading and writing JSON, directory creation, path constants and `load_config`
  are left out. A malformed or unreadable document is not modelled; the stored documents
  arrive as well-formed values.
- The clock and timezone. `datetime.now(LONDON_TZ)` and the `timedelta` cutoff arithmetic
  (`HISTORY_DAYS = 90`) become the `today` and `cutoff` parameters.
- Message text. Formatting (`format_price_gbp`, `format_price_usd`, `format_change`,
  `format_trend`, emoji and Markdown lines) is presentation only. The summary rows and the
  list of newly fired keys stand for the messages.
- Floating point. Prices and percentages are `real`, so IEEE rounding is not modelled.
- CLI and logging plumbing: `setup_logging`, `main`, argument parsing and `cmd_test`.
- TrendCalculator.Trend: `days` is a `nat`. Python's negative indexing for a negative
  `days` is not modelled; the callers pass 5 and 22.
- AlertStateMachine.Threshold: a `default_threshold_pct` or per-asset threshold given as
  JSON null, or as a non-number, makes the source raise. The model takes thresholds as
  reals, and an absent default as 2.0.
- AlertStateMachine.Loaded: a stored fired list holding strings that are not alert keys is
  not modelled; the list is a sequence of alert keys.
- AlertStateMachine.AlertState.Evaluate: the returned list is the suffix of the fired list
  that the cycle appended, rather than a separate list built alongside it. The source
  appends a message at exactly the moments it appends a key, so the two agree.
