/** The indicator engine: the columns that `compute_indicators` adds to a
    series of one- or five-minute bars. VWAP, the 20-bar rolling mean of volume, the
    volume ratio and ATR percent are computed here; EMA(9), EMA(21), RSI(6)
    and ATR(14) come from a technical-analysis library and enter the model as
    opaque columns. */
module Indicators {
  import opened Floats

  /** One bar of market data (timestamps are not modelled). */
  datatype Bar = Bar(open: real, high: real, low: real, close: real, volume: real)

  /** The columns the technical-analysis library returns for a series. */
  datatype Library = Library(
    ema9: seq<Option<real>>,
    ema21: seq<Option<real>>,
    rsi6: seq<Option<real>>,
    atr: seq<Option<real>>)

  /** One row of the enriched series: the bar and every column added to it. */
  datatype Row = Row(
    bar: Bar,
    tpv: real,
    cumTpv: real,
    cumVol: real,
    vwap: Option<real>,
    ema9: Option<real>,
    ema21: Option<real>,
    rsi6: Option<real>,
    atr: Option<real>,
    atrPct: Option<real>,
    volMean20: real,
    volRatio: Option<real>)

  /** Length of the trailing window of the rolling volume mean. */
  const VolumeWindow: nat := 20

  /** A bar whose close lies within its range and whose volume is not negative. */
  predicate Ordered(b: Bar) {
    b.low <= b.close <= b.high && b.volume >= 0.0
  }

  function TypicalPrice(b: Bar): real {
    (b.high + b.low + b.close) / 3.0
  }

  /** Typical price times volume (the `TPV` column). */
  function Tpv(b: Bar): real {
    TypicalPrice(b) * b.volume
  }

  function Volume(b: Bar): real {
    b.volume
  }

  /** The sum of `f` over bars lo..hi - 1. */
  function Sum(bars: seq<Bar>, f: Bar -> real, lo: nat, hi: nat): real
    requires lo <= hi <= |bars|
    decreases hi
  {
    if lo == hi then 0.0 else Sum(bars, f, lo, hi - 1) + f(bars[hi - 1])
  }

  /** First bar of the rolling window that ends at bar `i`: max(0, i - 19). */
  function WindowStart(i: nat): (start: nat)
    ensures start <= i
    ensures i + 1 - start == if i + 1 < VolumeWindow then i + 1 else VolumeWindow
  {
    if i + 1 < VolumeWindow then 0 else i + 1 - VolumeWindow
  }

  /** Cell `i` of a library column assigned to the frame, read by position:
      NaN past the column's end. Every library cell is an arbitrary
      `Option<real>`, so a cell that index alignment leaves NaN is covered. */
  function Aligned(column: seq<Option<real>>, i: nat): Option<real> {
    if i < |column| then column[i] else None
  }

  /** `ATR / Close * 100`, NaN when ATR is NaN or the close is zero. */
  function AtrPercent(atr: Option<real>, close: real): (r: Option<real>)
    ensures r.Some? <==> atr.Some? && close != 0.0
    ensures r.Some? ==> r.value * close == 100.0 * atr.value
  {
    match atr
    case None => None
    case Some(a) => Scale(100.0, Div(a, close))
  }

  /** Cumulative typical-price-volume over bars 0..i (`cum_TPV`). */
  function CumTpv(bars: seq<Bar>, i: nat): real
    requires i < |bars|
  {
    Sum(bars, Tpv, 0, i + 1)
  }

  /** Cumulative volume over bars 0..i (`cum_vol`). */
  function CumVol(bars: seq<Bar>, i: nat): real
    requires i < |bars|
  {
    Sum(bars, Volume, 0, i + 1)
  }

  /** Volume over the rolling window that ends at bar `i`. */
  function WindowVolume(bars: seq<Bar>, i: nat): real
    requires i < |bars|
  {
    Sum(bars, Volume, WindowStart(i), i + 1)
  }

  /** `cum_TPV / cum_vol`. */
  function Vwap(bars: seq<Bar>, i: nat): Option<real>
    requires i < |bars|
  {
    Div(CumTpv(bars, i), CumVol(bars, i))
  }

  /** Trailing mean of volume over at most 20 bars, at least one (`vol_mean20`). */
  function VolumeMean(bars: seq<Bar>, i: nat): real
    requires i < |bars|
  {
    WindowVolume(bars, i) / (i + 1 - WindowStart(i)) as real
  }

  /** `Volume / vol_mean20`. */
  function VolumeRatio(bars: seq<Bar>, i: nat): Option<real>
    requires i < |bars|
  {
    Div(bars[i].volume, VolumeMean(bars, i))
  }

  /** Row `i` of the enriched series, each column as the source defines it. */
  function RowAt(bars: seq<Bar>, lib: Library, i: nat): Row
    requires i < |bars|
  {
    var b := bars[i];
    var atr := Aligned(lib.atr, i);
    Row(b, Tpv(b), CumTpv(bars, i), CumVol(bars, i), Vwap(bars, i),
        Aligned(lib.ema9, i), Aligned(lib.ema21, i), Aligned(lib.rsi6, i),
        atr, AtrPercent(atr, b.close), VolumeMean(bars, i), VolumeRatio(bars, i))
  }

  /** The enriched series: one row per bar. */
  function Enriched(bars: seq<Bar>, lib: Library): (rows: seq<Row>)
    ensures |rows| == |bars|
    ensures forall i :: 0 <= i < |rows| ==> rows[i].bar == bars[i]
  {
    seq(|bars|, i requires 0 <= i < |bars| => RowAt(bars, lib, i))
  }

  /** Computes the columns in one pass, keeping the two cumulative sums and
      the sum of the rolling window as running totals. */
  method ComputeIndicators(bars: seq<Bar>, lib: Library) returns (rows: seq<Row>)
    ensures rows == Enriched(bars, lib)
  {
    rows := [];
    if |bars| == 0 {
      return;
    }
    var cumTpv, cumVol, windowSum := 0.0, 0.0, 0.0;
    var i := 0;
    while i < |bars|
      invariant 0 <= i <= |bars|
      invariant |rows| == i
      invariant forall k :: 0 <= k < i ==> rows[k] == RowAt(bars, lib, k)
      invariant cumTpv == Sum(bars, Tpv, 0, i)
      invariant cumVol == Sum(bars, Volume, 0, i)
      invariant windowSum == Sum(bars, Volume, WindowStart(i), i)
    {
      var b := bars[i];
      var start := WindowStart(i);
      cumTpv := cumTpv + Tpv(b);
      cumVol := cumVol + Volume(b);
      windowSum := windowSum + Volume(b);
      var mean := windowSum / (i + 1 - start) as real;
      var atr := Aligned(lib.atr, i);
      var row := Row(b, Tpv(b), cumTpv, cumVol, Div(cumTpv, cumVol),
                     Aligned(lib.ema9, i), Aligned(lib.ema21, i), Aligned(lib.rsi6, i),
                     atr, AtrPercent(atr, b.close), mean, Div(b.volume, mean));
      assert row == RowAt(bars, lib, i);
      rows := rows + [row];
      if i + 1 >= VolumeWindow {
        SumDropFirst(bars, Volume, start, i + 1);
        windowSum := windowSum - Volume(bars[start]);
      }
      i := i + 1;
    }
  }

  // ---------------------------------------------------------------------------
  // Sums

  lemma {:induction false} SumDropFirst(bars: seq<Bar>, f: Bar -> real, lo: nat, hi: nat)
    requires lo < hi <= |bars|
    ensures Sum(bars, f, lo + 1, hi) == Sum(bars, f, lo, hi) - f(bars[lo])
    decreases hi
  {
    if hi > lo + 1 {
      SumDropFirst(bars, f, lo, hi - 1);
    }
  }

  /** A sum of non-negative volumes is non-negative, and it is zero only when
      every volume is zero. */
  lemma {:induction false} VolumeSumZero(bars: seq<Bar>, lo: nat, hi: nat)
    requires lo <= hi <= |bars|
    requires forall k :: lo <= k < hi ==> bars[k].volume >= 0.0
    ensures Sum(bars, Volume, lo, hi) >= 0.0
    ensures Sum(bars, Volume, lo, hi) == 0.0 <==> forall k :: lo <= k < hi ==> bars[k].volume == 0.0
    decreases hi
  {
    if lo < hi {
      VolumeSumZero(bars, lo, hi - 1);
    }
  }

  /** When every volume is zero so is every typical-price-volume product. */
  lemma {:induction false} QuietTpvSum(bars: seq<Bar>, lo: nat, hi: nat)
    requires lo <= hi <= |bars|
    requires forall k :: lo <= k < hi ==> bars[k].volume == 0.0
    ensures Sum(bars, Tpv, lo, hi) == 0.0
    decreases hi
  {
    if lo < hi {
      QuietTpvSum(bars, lo, hi - 1);
    }
  }

  // ---------------------------------------------------------------------------
  // Price range of a prefix

  /** The lowest low of bars 0..n - 1. */
  function MinLow(bars: seq<Bar>, n: nat): (m: real)
    requires 0 < n <= |bars|
    ensures forall k :: 0 <= k < n ==> m <= bars[k].low
    ensures exists k :: 0 <= k < n && m == bars[k].low
  {
    if n == 1 then bars[0].low
    else
      var m := MinLow(bars, n - 1);
      if bars[n - 1].low < m then bars[n - 1].low else m
  }

  /** The highest high of bars 0..n - 1. */
  function MaxHigh(bars: seq<Bar>, n: nat): (m: real)
    requires 0 < n <= |bars|
    ensures forall k :: 0 <= k < n ==> bars[k].high <= m
    ensures exists k :: 0 <= k < n && m == bars[k].high
  {
    if n == 1 then bars[0].high
    else
      var m := MaxHigh(bars, n - 1);
      if bars[n - 1].high > m then bars[n - 1].high else m
  }

  /** One bar's typical-price-volume is at least `lo` times its volume when
      its low is. */
  lemma BarTpvAbove(b: Bar, lo: real)
    requires Ordered(b) && lo <= b.low
    ensures lo * b.volume <= Tpv(b)
  {
    assert (TypicalPrice(b) - lo) * b.volume >= 0.0;
  }

  /** One bar's typical-price-volume is at most `hi` times its volume when
      its high is. */
  lemma BarTpvBelow(b: Bar, hi: real)
    requires Ordered(b) && b.high <= hi
    ensures Tpv(b) <= hi * b.volume
  {
    assert (hi - TypicalPrice(b)) * b.volume >= 0.0;
  }

  /** Over bars 0..n - 1 the typical-price-volume sum is at least `lo` times
      the volume sum when no low is below `lo`. */
  lemma {:induction false} TpvSumAbove(bars: seq<Bar>, n: nat, lo: real)
    requires n <= |bars|
    requires forall k :: 0 <= k < n ==> Ordered(bars[k]) && lo <= bars[k].low
    ensures lo * Sum(bars, Volume, 0, n) <= Sum(bars, Tpv, 0, n)
  {
    if n > 0 {
      TpvSumAbove(bars, n - 1, lo);
      var b := bars[n - 1];
      BarTpvAbove(b, lo);
      ScaledSumAbove(lo, Sum(bars, Volume, 0, n - 1), Sum(bars, Tpv, 0, n - 1), b.volume, Tpv(b),
                     Sum(bars, Volume, 0, n), Sum(bars, Tpv, 0, n));
    }
  }

  /** Over bars 0..n - 1 the typical-price-volume sum is at most `hi` times
      the volume sum when no high is above `hi`. */
  lemma {:induction false} TpvSumBelow(bars: seq<Bar>, n: nat, hi: real)
    requires n <= |bars|
    requires forall k :: 0 <= k < n ==> Ordered(bars[k]) && bars[k].high <= hi
    ensures Sum(bars, Tpv, 0, n) <= hi * Sum(bars, Volume, 0, n)
  {
    if n > 0 {
      TpvSumBelow(bars, n - 1, hi);
      var b := bars[n - 1];
      BarTpvBelow(b, hi);
      ScaledSumBelow(hi, Sum(bars, Volume, 0, n - 1), Sum(bars, Tpv, 0, n - 1), b.volume, Tpv(b),
                     Sum(bars, Volume, 0, n), Sum(bars, Tpv, 0, n));
    }
  }

  lemma ScaledSumAbove(c: real, v: real, t: real, w: real, u: real, vs: real, ts: real)
    requires c * v <= t && c * w <= u && vs == v + w && ts == t + u
    ensures c * vs <= ts
  {
    assert c * vs == c * v + c * w;
  }

  lemma ScaledSumBelow(c: real, v: real, t: real, w: real, u: real, vs: real, ts: real)
    requires t <= c * v && u <= c * w && vs == v + w && ts == t + u
    ensures ts <= c * vs
  {
    assert c * vs == c * v + c * w;
  }

  lemma PositiveFactor(a: real, v: real)
    requires v > 0.0 && a * v >= 0.0
    ensures a >= 0.0
  {
  }

  lemma QuotientAbove(t: real, v: real, lo: real)
    requires v > 0.0 && lo * v <= t
    ensures lo <= t / v
  {
    var q := t / v;
    assert q * v == t;
    assert (q - lo) * v == t - lo * v;
    PositiveFactor(q - lo, v);
  }

  lemma QuotientBelow(t: real, v: real, hi: real)
    requires v > 0.0 && t <= hi * v
    ensures t / v <= hi
  {
    var q := t / v;
    assert q * v == t;
    assert (hi - q) * v == hi * v - t;
    PositiveFactor(hi - q, v);
  }

  // ---------------------------------------------------------------------------
  // Properties of the enriched series

  /** Every row of the enriched series holds the bar it was derived from and
      the columns computed from bars 0..i; the library columns pass through,
      read as NaN past their end. */
  lemma EnrichedColumns(bars: seq<Bar>, lib: Library, i: nat)
    requires i < |bars|
    ensures Enriched(bars, lib)[i].bar == bars[i]
    ensures Enriched(bars, lib)[i].tpv == Tpv(bars[i])
    ensures Enriched(bars, lib)[i].cumTpv == CumTpv(bars, i)
    ensures Enriched(bars, lib)[i].cumVol == CumVol(bars, i)
    ensures Enriched(bars, lib)[i].vwap == Vwap(bars, i)
    ensures Enriched(bars, lib)[i].ema9 == Aligned(lib.ema9, i)
    ensures Enriched(bars, lib)[i].ema21 == Aligned(lib.ema21, i)
    ensures Enriched(bars, lib)[i].rsi6 == Aligned(lib.rsi6, i)
    ensures Enriched(bars, lib)[i].atr == Aligned(lib.atr, i)
    ensures Enriched(bars, lib)[i].atrPct == AtrPercent(Aligned(lib.atr, i), bars[i].close)
    ensures Enriched(bars, lib)[i].volMean20 == VolumeMean(bars, i)
    ensures Enriched(bars, lib)[i].volRatio == VolumeRatio(bars, i)
  {
    assert Enriched(bars, lib)[i] == RowAt(bars, lib, i);
  }

  /** VWAP at bar `i` is the cumulative typical-price-volume over bars 0..i
      divided by the cumulative volume, NaN while that volume is zero. With
      non-negative volumes that happens only when no bar so far traded, and
      then the cumulative typical-price-volume is zero as well: the NaN of
      the model is the 0/0 NaN of the source, never an infinity. */
  lemma VwapIsCumulativeAverage(bars: seq<Bar>, i: nat)
    requires i < |bars|
    requires forall k :: 0 <= k < |bars| ==> bars[k].volume >= 0.0
    ensures Vwap(bars, i).None? <==> forall k :: 0 <= k <= i ==> bars[k].volume == 0.0
    ensures Vwap(bars, i).None? ==> CumTpv(bars, i) == 0.0
    ensures Vwap(bars, i).Some? ==> Vwap(bars, i).value * CumVol(bars, i) == CumTpv(bars, i)
  {
    VolumeSumZero(bars, 0, i + 1);
    if CumVol(bars, i) == 0.0 {
      QuietTpvSum(bars, 0, i + 1);
    }
  }

  /** With ordered bars and some volume traded, VWAP at bar `i` lies between
      the lowest low and the highest high of bars 0..i. */
  lemma VwapWithinRange(bars: seq<Bar>, i: nat)
    requires i < |bars|
    requires forall k :: 0 <= k <= i ==> Ordered(bars[k])
    requires exists k :: 0 <= k <= i && bars[k].volume > 0.0
    ensures Vwap(bars, i).Some?
    ensures MinLow(bars, i + 1) <= Vwap(bars, i).value <= MaxHigh(bars, i + 1)
  {
    PrefixTraded(bars, i);
    AverageAbove(bars, i + 1, MinLow(bars, i + 1));
    AverageBelow(bars, i + 1, MaxHigh(bars, i + 1));
    assert Vwap(bars, i) == Some(CumTpv(bars, i) / CumVol(bars, i));
  }

  /** Some bar among 0..i traded, so the cumulative volume is positive. */
  lemma PrefixTraded(bars: seq<Bar>, i: nat)
    requires i < |bars|
    requires forall k :: 0 <= k <= i ==> Ordered(bars[k])
    requires exists k :: 0 <= k <= i && bars[k].volume > 0.0
    ensures CumVol(bars, i) > 0.0
  {
    var traded :| 0 <= traded <= i && bars[traded].volume > 0.0;
    VolumeSumZero(bars, 0, i + 1);
  }

  /** The volume-weighted average typical price of bars 0..n - 1 is at least
      `lo` when no low is below it. */
  lemma AverageAbove(bars: seq<Bar>, n: nat, lo: real)
    requires n <= |bars| && Sum(bars, Volume, 0, n) > 0.0
    requires forall k :: 0 <= k < n ==> Ordered(bars[k]) && lo <= bars[k].low
    ensures lo <= Sum(bars, Tpv, 0, n) / Sum(bars, Volume, 0, n)
  {
    TpvSumAbove(bars, n, lo);
    QuotientAbove(Sum(bars, Tpv, 0, n), Sum(bars, Volume, 0, n), lo);
  }

  /** The volume-weighted average typical price of bars 0..n - 1 is at most
      `hi` when no high is above it. */
  lemma AverageBelow(bars: seq<Bar>, n: nat, hi: real)
    requires n <= |bars| && Sum(bars, Volume, 0, n) > 0.0
    requires forall k :: 0 <= k < n ==> Ordered(bars[k]) && bars[k].high <= hi
    ensures Sum(bars, Tpv, 0, n) / Sum(bars, Volume, 0, n) <= hi
  {
    TpvSumBelow(bars, n, hi);
    QuotientBelow(Sum(bars, Tpv, 0, n), Sum(bars, Volume, 0, n), hi);
  }

  /** The rolling mean of volume is defined from the first bar: it averages
      the min(i + 1, 20) volumes of bars max(0, i - 19)..i. Over the first 20
      bars it equals the cumulative volume divided by the number of bars. */
  lemma VolumeMeanWindow(bars: seq<Bar>, i: nat)
    requires i < |bars|
    ensures var n := if i + 1 < VolumeWindow then i + 1 else VolumeWindow;
      VolumeMean(bars, i) * n as real == Sum(bars, Volume, i + 1 - n, i + 1)
    ensures i + 1 < VolumeWindow ==> VolumeMean(bars, i) * (i + 1) as real == CumVol(bars, i)
  {
    var n := if i + 1 < VolumeWindow then i + 1 else VolumeWindow;
    var t := WindowVolume(bars, i);
    assert (t / n as real) * n as real == t;
  }

  /** With non-negative volumes the volume ratio is NaN only when every volume
      in the window is zero (0/0 in the source); otherwise it lies between 0
      and the number of bars in the window. */
  lemma VolumeRatioBounds(bars: seq<Bar>, i: nat)
    requires i < |bars|
    requires forall k :: 0 <= k < |bars| ==> bars[k].volume >= 0.0
    ensures VolumeMean(bars, i) >= 0.0
    ensures VolumeRatio(bars, i).None? <==> forall k :: WindowStart(i) <= k <= i ==> bars[k].volume == 0.0
    ensures VolumeRatio(bars, i).Some? ==> VolumeRatio(bars, i).value * VolumeMean(bars, i) == bars[i].volume
    ensures VolumeRatio(bars, i).Some? ==> 0.0 <= VolumeRatio(bars, i).value <= (i + 1 - WindowStart(i)) as real
  {
    var n := (i + 1 - WindowStart(i)) as real;
    WindowTotal(bars, i);
    RatioArithmetic(bars[i].volume, WindowVolume(bars, i), n);
  }

  /** The volume of the rolling window ending at bar `i` covers that bar's
      volume and is zero exactly when every bar in the window is quiet. */
  lemma WindowTotal(bars: seq<Bar>, i: nat)
    requires i < |bars|
    requires forall k :: 0 <= k < |bars| ==> bars[k].volume >= 0.0
    ensures bars[i].volume <= WindowVolume(bars, i)
    ensures WindowVolume(bars, i) == 0.0 <==> forall k :: WindowStart(i) <= k <= i ==> bars[k].volume == 0.0
  {
    var start := WindowStart(i);
    VolumeSumZero(bars, start, i + 1);
    VolumeSumZero(bars, start, i);
  }

  lemma RatioArithmetic(v: real, total: real, n: real)
    requires 0.0 <= v <= total && n >= 1.0
    ensures total / n >= 0.0
    ensures total / n == 0.0 <==> total == 0.0
    ensures total / n != 0.0 ==> 0.0 <= v / (total / n) <= n
  {
    var mean := total / n;
    assert mean * n == total;
    PositiveFactor(mean, n);
    if mean != 0.0 {
      var ratio := v / mean;
      assert ratio * mean == v;
      assert (n - ratio) * mean == total - v;
      PositiveFactor(n - ratio, mean);
      PositiveFactor(ratio, mean);
    }
  }

  /** On the first bar the rolling mean is that bar's volume, so the volume
      ratio is exactly 1, or NaN when nothing traded. */
  lemma FirstBarVolumeRatio(bars: seq<Bar>)
    requires |bars| > 0
    ensures VolumeRatio(bars, 0) == if bars[0].volume == 0.0 then None else Some(1.0)
  {
    var v := bars[0].volume;
    assert WindowStart(0) == 0;
    assert Sum(bars, Volume, 0, 1) == Sum(bars, Volume, 0, 0) + Volume(bars[0]);
    assert WindowVolume(bars, 0) == v;
    assert VolumeMean(bars, 0) == v / 1.0;
    assert v / 1.0 == v;
    if v != 0.0 {
      assert v / v == 1.0;
    }
  }
}
