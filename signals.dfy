/** The signal classifier `compute_signal`: a fixed threshold rule over the
    latest row of an enriched series that answers BUY, SELL or HOLD together
    with the reason shown to the trader. */
module Signals {
  import opened Floats
  import opened Indicators

  datatype Signal = Buy | Sell | Hold

  /** The label the dashboard shows and the alert carries. */
  function Name(s: Signal): (n: string)
    ensures n in {"BUY", "SELL", "HOLD"}
  {
    match s
    case Buy => "BUY"
    case Sell => "SELL"
    case Hold => "HOLD"
  }

  /** The six values of a row that the classifier reads. */
  datatype Snapshot = Snapshot(
    close: Option<real>,
    vwap: Option<real>,
    ema9: Option<real>,
    ema21: Option<real>,
    rsi6: Option<real>,
    volRatio: Option<real>)

  const InsufficientData := "Insufficient data"
  const BuyReason := "Above VWAP + EMA9>EMA21 + RSI in [55-70] + Vol>=1.5x"
  const SellReason := "Below VWAP + EMA9<EMA21 + RSI in [30-45] + Vol>=1.3x"
  const NoSetup := "Neutral/No clear setup"

  /** The values the classifier checks for NaN; the close is not among them. */
  predicate IndicatorsDefined(s: Snapshot) {
    s.vwap.Some? && s.ema9.Some? && s.ema21.Some? && s.rsi6.Some? && s.volRatio.Some?
  }

  /** The BUY setup over defined values. */
  predicate BuyRule(price: real, vwap: real, ema9: real, ema21: real, rsi6: real, volRatio: real) {
    price > vwap && ema9 > ema21 && 55.0 <= rsi6 <= 70.0 && volRatio >= 1.5
  }

  /** The SELL setup over defined values. */
  predicate SellRule(price: real, vwap: real, ema9: real, ema21: real, rsi6: real, volRatio: real) {
    price < vwap && ema9 < ema21 && 30.0 <= rsi6 <= 45.0 && volRatio >= 1.3
  }

  /** Classifies one snapshot. The NaN check comes before any comparison; a
      NaN close makes every comparison with it false, so such a snapshot is
      neutral. */
  function ComputeSignal(s: Snapshot): (r: (Signal, string))
    ensures !IndicatorsDefined(s) ==> r == (Hold, InsufficientData)
    ensures r.1 == InsufficientData <==> !IndicatorsDefined(s)
    ensures r.0 == Buy <==>
      IndicatorsDefined(s) && s.close.Some? &&
      BuyRule(s.close.value, s.vwap.value, s.ema9.value, s.ema21.value, s.rsi6.value, s.volRatio.value)
    ensures r.0 == Sell <==>
      IndicatorsDefined(s) && s.close.Some? &&
      SellRule(s.close.value, s.vwap.value, s.ema9.value, s.ema21.value, s.rsi6.value, s.volRatio.value)
    ensures r.0 == Hold <==> r.1 == InsufficientData || r.1 == NoSetup
    ensures r.0 == Buy <==> r.1 == BuyReason
    ensures r.0 == Sell <==> r.1 == SellReason
  {
    if !IndicatorsDefined(s) then
      (Hold, InsufficientData)
    else
      var price, vwap := s.close, s.vwap.value;
      var ema9, ema21, rsi6, volRatio := s.ema9.value, s.ema21.value, s.rsi6.value, s.volRatio.value;
      var buy := Greater(price, vwap) && ema9 > ema21 && rsi6 >= 55.0 && rsi6 <= 70.0 && volRatio >= 1.5;
      var sell := Less(price, vwap) && ema9 < ema21 && rsi6 >= 30.0 && rsi6 <= 45.0 && volRatio >= 1.3;
      if buy then (Buy, BuyReason)
      else if sell then (Sell, SellReason)
      else (Hold, NoSetup)
  }

  /** The snapshot the classifier reads from a row of the enriched series. */
  function SnapshotOf(row: Row): Snapshot {
    Snapshot(Some(row.bar.close), row.vwap, row.ema9, row.ema21, row.rsi6, row.volRatio)
  }

  // ---------------------------------------------------------------------------
  // Properties of the rule

  /** No values satisfy both setups: one needs the price above VWAP, the
      other below it. */
  lemma RulesExclusive(price: real, vwap: real, ema9: real, ema21: real, rsi6: real, volRatio: real)
    ensures !(BuyRule(price, vwap, ema9, ema21, rsi6, volRatio) &&
              SellRule(price, vwap, ema9, ema21, rsi6, volRatio))
  {
  }

  /** When any checked indicator is NaN the answer is "Insufficient data"
      whatever the other values, the close included. */
  lemma UndefinedIndicatorsHold(s: Snapshot, t: Snapshot)
    requires !IndicatorsDefined(s)
    requires s.vwap == t.vwap && s.ema9 == t.ema9 && s.ema21 == t.ema21
    requires s.rsi6 == t.rsi6 && s.volRatio == t.volRatio
    ensures ComputeSignal(s) == ComputeSignal(t) == (Hold, InsufficientData)
  {
  }

  /** More volume never withdraws a BUY or a SELL. */
  lemma SignalKeptUnderHigherVolume(s: Snapshot, volRatio: real)
    requires ComputeSignal(s).0 != Hold
    requires IndicatorsDefined(s) && volRatio >= s.volRatio.value
    ensures ComputeSignal(s.(volRatio := Some(volRatio))) == ComputeSignal(s)
  {
  }

  /** Worked examples: a BUY at the middle of the thresholds, a SELL, a
      neutral HOLD, and a snapshot at the VWAP and on the EMA cross, which the
      strict comparisons classify HOLD although RSI and volume qualify. */
  lemma DocumentedScenarios()
    ensures ComputeSignal(Snapshot(Some(101.0), Some(100.0), Some(101.0), Some(100.0), Some(60.0), Some(2.0)))
      == (Buy, BuyReason)
    ensures ComputeSignal(Snapshot(Some(100.0), Some(100.0), Some(100.0), Some(100.0), Some(60.0), Some(2.0)))
      == (Hold, NoSetup)
    ensures ComputeSignal(Snapshot(Some(90.0), Some(100.0), Some(90.0), Some(100.0), Some(35.0), Some(1.5)))
      == (Sell, SellReason)
    ensures ComputeSignal(Snapshot(Some(100.0), Some(100.0), Some(100.0), Some(100.0), Some(50.0), Some(1.0)))
      == (Hold, NoSetup)
  {
  }

  /** The first row of a series is never a BUY or a SELL: its volume ratio
      is 1 or NaN, below both volume thresholds. */
  lemma FirstBarHolds(bars: seq<Bar>, lib: Library)
    requires |bars| > 0
    ensures ComputeSignal(SnapshotOf(Enriched(bars, lib)[0])).0 == Hold
  {
    EnrichedColumns(bars, lib, 0);
    FirstBarVolumeRatio(bars);
  }

  /** While no bar of the series has traded, VWAP is NaN and the latest row
      is classified HOLD for insufficient data. */
  lemma QuietSeriesHolds(bars: seq<Bar>, lib: Library)
    requires |bars| > 0
    requires forall k :: 0 <= k < |bars| ==> bars[k].volume == 0.0
    ensures ComputeSignal(SnapshotOf(Enriched(bars, lib)[|bars| - 1])) == (Hold, InsufficientData)
  {
    EnrichedColumns(bars, lib, |bars| - 1);
    VwapIsCumulativeAverage(bars, |bars| - 1);
  }
}
