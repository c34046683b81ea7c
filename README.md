# Intraday signal scanner: indicator, classifier and ranking core

This project models the decision logic of an intraday equity-signal
dashboard in Dafny and proves its properties. The dashboard pulls
one- or five-minute OHLCV bars (open, high, low, close, volume) for a list of
exchange symbols. It then does four things:

- derives indicators from the bars (`compute_indicators`);
- scores and ranks the symbols by recent activity and keeps the top ones
  (`select_top_movers`);
- classifies each selected mover's latest bar as BUY, SELL or HOLD by fixed
  thresholds (`compute_signal`);
- picks the emoji that heads a notification (`format_alert`).

Values are exact `real`s. A pandas NaN is `None` in `Floats.Option<real>`.
The helpers in `Floats` propagate NaN through arithmetic. Every comparison
with NaN is false.

Modules, one per component:

- `Floats` (`floats.dfy`): the NaN-aware division, scaling, addition,
  absolute value and comparisons the source relies on.
- `Indicators` (`indicators.dfy`): the `Bar` record and the columns
  `compute_indicators` adds. These are typical price times volume, its
  running sum, the running volume sum, VWAP, ATR percent, the 20-bar
  rolling mean of volume and the volume ratio.
  - `Enriched` defines every column from prefix and window sums.
  - `ComputeIndicators` computes the same columns in one loop with running
    totals. It is proved equal to `Enriched`.
  - EMA(9), EMA(21), RSI(6) and ATR(14) come from an external
    technical-analysis library. They enter as the opaque columns of a
    `Library` value.
- `Signals` (`signals.dfy`): the classifier `ComputeSignal` over the
  six-value `Snapshot` read from the latest row.
- `Movers` (`movers.dfy`): the part of `select_top_movers` after the data
  has been fetched.
  - The fetch results are a `seq<Fetch>` of symbols with their bars, or
    `None` on failure.
  - The library is a function `ta: seq<Bar> -> Library`.
  - `CollectRecords` is the loop that appends one record per symbol with
    data.
  - `SortByScore` models the sort by score: descending, NaN last.
  - `HeadCount` models `head(top_n)`, including pandas' rule for a
    negative count.
  - `SelectTopMovers` puts these together.
- `Alerts` (`alerts.dfy`): the emoji choice of `format_alert`.

Behaviour the source settles:

- Percent change is measured from the first bar's open, not its close.
- The neutral HOLD reason is "Neutral/No clear setup".
- Equal scores have no tie-break; `SelectTopMovers` promises nothing about
  their order.
- Both setups use strict comparisons. A snapshot with the close equal to
  VWAP and EMA9 equal to EMA21 is HOLD even when RSI and volume qualify
  (`Signals.DocumentedScenarios`).
- A NaN close is not among the NaN checks. It makes both setups false, so
  such a snapshot is a neutral HOLD, not "Insufficient data".

## Model

| member | source | states |
|---|---|---|
| `Indicators.ComputeIndicators` | streamlit_app.py:31-53 | The one-pass computation with running sums yields exactly the enriched series `Enriched`. An empty series gives an empty result. |
| `Indicators.Enriched` | streamlit_app.py:33-52 | One row per bar, every derived column the same length as the input, and row i holds bar i. |
| `Indicators.VwapIsCumulativeAverage` | streamlit_app.py:36-40 | VWAP times the cumulative volume over bars 0..i equals the cumulative typical-price-volume. With non-negative volumes, VWAP is NaN exactly when no bar so far traded, and then both sums are zero (a 0/0 NaN). |
| `Indicators.VwapWithinRange` | streamlit_app.py:36-40 | If Low ≤ Close ≤ High and volume ≥ 0 on every bar, and some bar traded, VWAP at bar i is defined and lies in [min Low, max High] of bars 0..i. |
| `Indicators.WindowStart` | streamlit_app.py:50 | The rolling window ending at bar i starts at max(0, i-19) and holds min(i+1, 20) bars, so it is never empty. |
| `Indicators.VolumeMeanWindow` | streamlit_app.py:50 | vol_mean20 at bar i times min(i+1, 20) is the volume over bars max(0, i-19)..i. Before bar 20 it equals cum_vol divided by i+1. |
| `Indicators.VolumeRatioBounds` | streamlit_app.py:50-52 | With non-negative volumes, vol_mean20 ≥ 0. vol_ratio is NaN exactly when every volume in the window is zero. Otherwise vol_ratio times vol_mean20 equals the bar's volume, and vol_ratio lies in [0, window length]. |
| `Indicators.FirstBarVolumeRatio` | streamlit_app.py:50-52 | On bar 0 the volume ratio is exactly 1, or NaN when that bar has no volume. |
| `Indicators.AtrPercent` | streamlit_app.py:48 | ATR_pct is defined exactly when ATR is defined and the close is non-zero, and then ATR_pct · Close = 100 · ATR. |
| `Signals.ComputeSignal` | streamlit_app.py:56-91 | The reason is "Insufficient data" exactly when VWAP, EMA9, EMA21, RSI6 or vol_ratio is undefined, and the signal is then HOLD. BUY iff all are defined and close > vwap, ema9 > ema21, 55 ≤ rsi6 ≤ 70 and vol_ratio ≥ 1.5. SELL iff close < vwap, ema9 < ema21, 30 ≤ rsi6 ≤ 45 and vol_ratio ≥ 1.3. HOLD iff the reason is "Insufficient data" or "Neutral/No clear setup", so a fully defined snapshot meeting neither setup gets "Neutral/No clear setup". Each signal carries its own reason. |
| `Signals.Name` | streamlit_app.py:84-89 | The classifier's labels are exactly "BUY", "SELL" and "HOLD". |
| `Signals.RulesExclusive` | streamlit_app.py:70-82 | No values satisfy both the BUY and the SELL conditions. |
| `Signals.UndefinedIndicatorsHold` | streamlit_app.py:65-67 | When a checked indicator is NaN, any two snapshots that agree on the checked values both get (HOLD, "Insufficient data"), whatever their close. |
| `Signals.SignalKeptUnderHigherVolume` | streamlit_app.py:70-87 | Raising the volume ratio never withdraws a BUY or a SELL. |
| `Signals.DocumentedScenarios` | streamlit_app.py:84-89 | Worked examples: a BUY, a SELL, a neutral HOLD, and a HOLD at the VWAP on the EMA cross. |
| `Signals.FirstBarHolds` | streamlit_app.py:50-87 | The first row of any series is classified HOLD, because its volume ratio is 1 or NaN. |
| `Signals.QuietSeriesHolds` | streamlit_app.py:36-67 | If no bar of a series traded, its latest row is (HOLD, "Insufficient data"). |
| `Movers.PercentChange` | streamlit_app.py:111 | The percent change is defined exactly when the first open is non-zero, and then pct · Open[0] = 100 · (latest Close − Open[0]). |
| `Movers.Score` | streamlit_app.py:129 | The score is 2·vol_ratio + atr_pct + \|pct_change\|, and NaN exactly when any of the three is NaN. |
| `Movers.ScoreIgnoresDirection` | streamlit_app.py:129 | A fall and a rise of equal size score the same. |
| `Movers.ScoreMonotone` | streamlit_app.py:129 | With a non-negative volume ratio and ATR percent, the score is non-negative and does not decrease when any of its parts grows. |
| `Movers.SortByScore` | streamlit_app.py:130 | The sorted frame is a permutation of the frame in which no row precedes one with a higher score, and NaN scores come last. |
| `Movers.CollectRecords` | streamlit_app.py:99-124 | The fetch loop yields `Records`: one record per symbol whose fetch produced a non-empty series, in symbol order. |
| `Movers.SelectTopMovers` | streamlit_app.py:94-132 | Returns [] when no symbol yields data. Otherwise returns `head(top_n)` of the records: each row is a scored record. Defined scores come in non-increasing order, followed by undefined ones. Every record left out ranks no higher than every record kept. |
| `Movers.TopOfRanking` | streamlit_app.py:130-131 | The first n rows of a ranked permutation are a sub-multiset of the frame with correct scores. Every row left over may follow every row kept. |
| `Movers.ProvenanceOfTop` | streamlit_app.py:125-132 | Every row of a sub-multiset of the scored frame holds one of the collected records. |
| `Movers.RecordsProvenance` | streamlit_app.py:102-121 | Every record is the record of some fetch that produced data. |
| `Movers.RecordsPerUsableFetch` | streamlit_app.py:102-124 | The number of records equals the number of fetches that produced data. |
| `Movers.SkippedFetchContributesNothing` | streamlit_app.py:105-106 | Removing a failed or empty fetch from the input leaves the records unchanged. |
| `Movers.SkippedSymbolsNeverSelected` | streamlit_app.py:102-132 | A symbol none of whose fetches produced data has no record, so it is never selected. |
| `Alerts.Emoji` | streamlit_app.py:136 | Green exactly for "BUY", red exactly for "SELL", white for every other signal text. |
| `Alerts.EmojiIdentifiesSignal` | streamlit_app.py:136 | Over the classifier's labels, two signals get the same emoji exactly when they are the same signal. |
| `Alerts.HoldIsWhite` | streamlit_app.py:136 | A classified snapshot is HOLD exactly when its alert carries the white circle. |

## Left out

- Market-data downloads, the `datetime.utcnow()` time windows and
  `df.dropna()` (streamlit_app.py:100-107, 211-216). These are network I/O
  and the clock. Fetch results are an input `seq<Fetch>`, taken as already
  cleaned of NaN. Timestamps and the frame's DatetimeIndex are not modelled.
- EMA, RSI and ATR inside the technical-analysis library
  (streamlit_app.py:42-47). That library is not part of this model. Its
  columns are opaque `Option<real>` inputs. In `Movers` the library is an
  arbitrary function of the bars.
- The `except` branch of `compute_signal` (streamlit_app.py:90-91). That
  branch only catches failures on non-float cells, for example a missing
  column or a Python `None`. Every model cell is a float or NaN, so
  `ComputeSignal` is total and the "Error in signal" reason never arises.
- The same holds for the `except` of the fetch loop
  (streamlit_app.py:122-124). It is modelled only as skipping a symbol
  whose fetch failed or came back empty.
- The fallbacks `... if 'vol_ratio' in latest else 0` and the same one for
  ATR_pct (streamlit_app.py:112-113). `compute_indicators` always adds
  these columns, so the fallback value 0 is never taken.
- Div: a non-zero number divided by zero is +inf or −inf in the source, and the
  model gives NaN. For VWAP and the volume ratio this never happens with
  non-negative volumes: `VwapIsCumulativeAverage` and `VolumeRatioBounds`
  show a zero divisor always comes with a zero dividend. It can happen for
  `AtrPercent` with a zero close and for `PercentChange` with a zero first
  open.
- IEEE-754 rounding in the running sums and divisions. The thresholds 1.5
  and 1.3 are exact decimals.
- `compute_indicators` adds its columns to the caller's frame in place.
  `ComputeIndicators` instead returns a new series. Every caller
  reassigns `df` to the result of a fresh `dropna()` copy, so the aliasing
  cannot be observed.
- SortByScore: pandas' default sort is not stable, and this model fixes
  one order among equal scores. No contract of `SelectTopMovers` depends
  on that order.
- All dashboard code: widgets, tables, styling, `color_signal`, session
  state, and the per-symbol signal table loop (streamlit_app.py:141-250,
  279-285).
- The Telegram transport `send_telegram_message` and the alert-log appends
  (streamlit_app.py:16-28, 260-277). These are HTTP and session side
  effects.
- The background auto-refresh scheduler (streamlit_app.py:288-303).
- The `{price:.2f}` formatting and the HTML assembly of `format_alert`
  (streamlit_app.py:137). That is float-to-decimal text formatting. Only
  the emoji choice is modelled.
- Emoji: the model's three constants are the code points U+1F7E2 (green
  circle), U+1F534 (red circle) and U+26AA (white circle). The literals at
  streamlit_app.py:136 spell the UTF-8 bytes of these characters read as
  Windows-1252 text. The contracts state only which signal text selects
  which of three distinct strings, and that holds for either spelling.
