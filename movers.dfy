/** Mover ranking, the part of `select_top_movers` after the market data has
    been fetched: one record per symbol with data, a composite activity score,
    a sort by score from high to low with NaN scores last, and the first
    `top_n` rows. */
module Movers {
  import opened Floats
  import opened Indicators

  /** What the fetch produced for one symbol: `None` when it failed. */
  datatype Fetch = Fetch(symbol: string, data: Option<seq<Bar>>)

  /** The record appended for a symbol with data. */
  datatype MoverRecord = MoverRecord(
    symbol: string,
    pctChange: Option<real>,
    volRatio: Option<real>,
    atrPct: Option<real>,
    price: real)

  /** A row of the ranked frame: a record and its `score` column. */
  datatype Mover = Mover(record: MoverRecord, score: Option<real>)

  /** A fetch that yields a record; an empty or failed one is skipped. */
  predicate Usable(f: Fetch) {
    f.data.Some? && |f.data.value| > 0
  }

  /** Percent change of the latest close from the first bar's open. */
  function PercentChange(bars: seq<Bar>): (r: Option<real>)
    requires |bars| > 0
    ensures r.Some? <==> bars[0].open != 0.0
    ensures r.Some? ==> r.value * bars[0].open == 100.0 * (bars[|bars| - 1].close - bars[0].open)
  {
    var open := bars[0].open;
    var d := Div(bars[|bars| - 1].close - open, open);
    if d.Some? then
      assert (100.0 * d.value) * open == 100.0 * (d.value * open);
      Some(100.0 * d.value)
    else None
  }

  /** The record of a symbol with data, read from the latest enriched row. */
  function RecordOf(f: Fetch, ta: seq<Bar> -> Library): MoverRecord
    requires Usable(f)
  {
    var bars := f.data.value;
    var latest := Enriched(bars, ta(bars))[|bars| - 1];
    MoverRecord(f.symbol, PercentChange(bars), latest.volRatio, latest.atrPct, latest.bar.close)
  }

  /** The records the fetch loop collects, in the order of the symbols. */
  function Records(fetches: seq<Fetch>, ta: seq<Bar> -> Library): seq<MoverRecord> {
    if fetches == [] then []
    else
      var last := fetches[|fetches| - 1];
      Records(fetches[..|fetches| - 1], ta) + if Usable(last) then [RecordOf(last, ta)] else []
  }

  /** `2 * vol_ratio + atr_pct + |pct_change|`, NaN when any part is NaN. */
  function Score(r: MoverRecord): (s: Option<real>)
    ensures s.Some? <==> r.volRatio.Some? && r.atrPct.Some? && r.pctChange.Some?
    ensures s.Some? ==> s.value == 2.0 * r.volRatio.value + r.atrPct.value + AbsReal(r.pctChange.value)
  {
    Add(Add(Scale(2.0, r.volRatio), r.atrPct), Abs(r.pctChange))
  }

  /** A fall counts the same as a rise of the same size. */
  lemma ScoreIgnoresDirection(r: MoverRecord)
    requires r.pctChange.Some?
    ensures Score(r.(pctChange := Some(-r.pctChange.value))) == Score(r)
  {
  }

  /** With a non-negative volume ratio and ATR percent the score is
      non-negative, and it grows with each of its three parts. */
  lemma ScoreMonotone(r: MoverRecord, s: MoverRecord)
    requires Score(r).Some? && Score(s).Some? && r.volRatio.value >= 0.0 && r.atrPct.value >= 0.0
    requires s.volRatio.value >= r.volRatio.value && s.atrPct.value >= r.atrPct.value
    requires AbsReal(s.pctChange.value) >= AbsReal(r.pctChange.value)
    ensures 0.0 <= Score(r).value <= Score(s).value
  {
  }

  /** The frame with its `score` column. */
  function Scored(records: seq<MoverRecord>): (rows: seq<Mover>)
    ensures |rows| == |records|
    ensures forall i :: 0 <= i < |rows| ==> rows[i] == Mover(records[i], Score(records[i]))
  {
    seq(|records|, i requires 0 <= i < |records| => Mover(records[i], Score(records[i])))
  }

  /** Whether a row with score `a` may stand before one with score `b` in a
      sort from high to low that puts NaN last. */
  predicate Precedes(a: Option<real>, b: Option<real>) {
    match (a, b)
    case (Some(x), Some(y)) => x >= y
    case (Some(_), None) => true
    case (None, Some(_)) => false
    case (None, None) => true
  }

  predicate Ranked(s: seq<Mover>) {
    forall i, j :: 0 <= i < j < |s| ==> Precedes(s[i].score, s[j].score)
  }

  /** Inserts `m` before the first row it may precede. */
  function Insert(m: Mover, s: seq<Mover>): seq<Mover> {
    if s == [] then [m]
    else if Precedes(m.score, s[0].score) then [m] + s
    else [s[0]] + Insert(m, s[1..])
  }

  lemma {:induction false} InsertPermutes(m: Mover, s: seq<Mover>)
    ensures multiset(Insert(m, s)) == multiset(s) + multiset{m}
  {
    if s != [] && !Precedes(m.score, s[0].score) {
      InsertPermutes(m, s[1..]);
      assert s == [s[0]] + s[1..];
    }
  }

  lemma {:induction false} InsertKeepsRanked(m: Mover, s: seq<Mover>)
    requires Ranked(s)
    ensures Ranked(Insert(m, s))
  {
    if s == [] {
    } else if Precedes(m.score, s[0].score) {
      var r := [m] + s;
      forall i, j | 0 <= i < j < |r| ensures Precedes(r[i].score, r[j].score) {
        if i == 0 {
          PrecedesTransitive(m.score, s[0].score, s[j - 1].score);
        }
      }
    } else {
      var t := s[1..];
      assert Ranked(t);
      InsertKeepsRanked(m, t);
      var u := Insert(m, t);
      InsertPermutes(m, t);
      var r := [s[0]] + u;
      forall i, j | 0 <= i < j < |r| ensures Precedes(r[i].score, r[j].score) {
        if i == 0 {
          var x := r[j];
          assert x in multiset(u);
          assert x == m || x in multiset(t);
          if x != m {
            var k :| 0 <= k < |t| && t[k] == x;
            assert s[k + 1] == x;
          }
        }
      }
    }
  }

  lemma PrecedesTransitive(a: Option<real>, b: Option<real>, c: Option<real>)
    requires Precedes(a, b) && Precedes(b, c)
    ensures Precedes(a, c)
  {
  }

  /** The sort by score: a ranked permutation of the frame. pandas gives no
      order among equal scores; insertion gives one of the admissible orders,
      and no contract below depends on which. */
  function SortByScore(s: seq<Mover>): (r: seq<Mover>)
    ensures multiset(r) == multiset(s)
    ensures Ranked(r)
  {
    if s == [] then []
    else
      var rest := SortByScore(s[1..]);
      InsertPermutes(s[0], rest);
      InsertKeepsRanked(s[0], rest);
      SplitFirst(s);
      Insert(s[0], rest)
  }

  lemma SplitFirst(s: seq<Mover>)
    requires |s| > 0
    ensures multiset(s) == multiset(s[1..]) + multiset{s[0]}
  {
    assert s == [s[0]] + s[1..];
  }

  /** How many rows `head(n)` keeps of `len`: pandas drops the last |n| rows
      for a negative `n`. */
  function HeadCount(n: int, len: nat): (k: nat)
    ensures k <= len
  {
    if n >= 0 then (if n < len then n else len)
    else if len + n > 0 then len + n else 0
  }

  /** Collects one record per symbol with data, skipping failed and empty
      fetches. */
  method CollectRecords(fetches: seq<Fetch>, ta: seq<Bar> -> Library) returns (records: seq<MoverRecord>)
    ensures records == Records(fetches, ta)
  {
    records := [];
    for i := 0 to |fetches|
      invariant records == Records(fetches[..i], ta)
    {
      assert fetches[..i + 1][..i] == fetches[..i];
      var f := fetches[i];
      if !Usable(f) {
        continue;
      }
      var bars := f.data.value;
      var rows := ComputeIndicators(bars, ta(bars));
      var latest := rows[|rows| - 1];
      var pctChange := PercentChange(bars);
      records := records + [MoverRecord(f.symbol, pctChange, latest.volRatio, latest.atrPct, latest.bar.close)];
    }
    assert fetches[..|fetches|] == fetches;
  }

  /** The top `topN` movers: the first rows of the frame sorted by score. */
  method SelectTopMovers(fetches: seq<Fetch>, ta: seq<Bar> -> Library, topN: int) returns (top: seq<Mover>)
    ensures Records(fetches, ta) == [] ==> top == []
    ensures |top| == HeadCount(topN, |Records(fetches, ta)|)
    ensures multiset(top) <= multiset(Scored(Records(fetches, ta)))
    ensures forall i :: 0 <= i < |top| ==> top[i].score == Score(top[i].record)
    ensures forall i, j :: 0 <= i < j < |top| && top[j].score.Some? ==>
      top[i].score.Some? && top[i].score.value >= top[j].score.value
    ensures forall m, t :: m in multiset(Scored(Records(fetches, ta))) - multiset(top) && t in top ==>
      Precedes(t.score, m.score)
    ensures forall i :: 0 <= i < |top| ==> top[i].record in Records(fetches, ta)
  {
    var records := CollectRecords(fetches, ta);
    if |records| == 0 {
      return [];
    }
    var frame := Scored(records);
    var ranked := SortByScore(frame);
    var n := HeadCount(topN, |ranked|);
    top := ranked[..n];
    TopOfRanking(records, ranked, n);
    ProvenanceOfTop(fetches, ta, top);
  }

  /** What the first `n` rows of a ranked permutation of the frame keep and
      leave. */
  lemma TopOfRanking(records: seq<MoverRecord>, ranked: seq<Mover>, n: nat)
    requires multiset(ranked) == multiset(Scored(records)) && Ranked(ranked) && n <= |ranked|
    ensures multiset(ranked[..n]) <= multiset(Scored(records))
    ensures forall i :: 0 <= i < n ==> ranked[i].score == Score(ranked[i].record)
    ensures forall i, j :: 0 <= i < j < n && ranked[j].score.Some? ==>
      ranked[i].score.Some? && ranked[i].score.value >= ranked[j].score.value
    ensures forall m, t :: m in multiset(Scored(records)) - multiset(ranked[..n]) && t in ranked[..n] ==>
      Precedes(t.score, m.score)
  {
    var frame := Scored(records);
    var top, rest := ranked[..n], ranked[n..];
    assert ranked == top + rest;
    assert multiset(ranked) == multiset(top) + multiset(rest);
    LeftoverRanksLower(ranked, n, multiset(frame));
    forall i | 0 <= i < n ensures ranked[i].score == Score(ranked[i].record) {
      ScoredMember(records, ranked[i]);
    }
  }

  /** A row of the scored frame carries the score of its record. */
  lemma ScoredMember(records: seq<MoverRecord>, m: Mover)
    requires m in multiset(Scored(records))
    ensures m.score == Score(m.record)
  {
    var frame := Scored(records);
    var j :| 0 <= j < |frame| && frame[j] == m;
  }

  /** Cutting a ranked sequence after `n` rows leaves behind only rows that
      every kept row may precede. */
  lemma LeftoverRanksLower(ranked: seq<Mover>, n: nat, all: multiset<Mover>)
    requires Ranked(ranked) && n <= |ranked|
    requires all == multiset(ranked[..n]) + multiset(ranked[n..])
    ensures forall m, t :: m in all - multiset(ranked[..n]) && t in ranked[..n] ==> Precedes(t.score, m.score)
  {
    var top, rest := ranked[..n], ranked[n..];
    forall m, t | m in all - multiset(top) && t in top
      ensures Precedes(t.score, m.score)
    {
      assert m in rest;
      var j :| 0 <= j < |rest| && rest[j] == m;
      var i :| 0 <= i < n && top[i] == t;
      assert ranked[n + j] == m && ranked[i] == t;
    }
  }


  /** Every row of a sub-multiset of the frame holds one of the records. */
  lemma ProvenanceOfTop(fetches: seq<Fetch>, ta: seq<Bar> -> Library, top: seq<Mover>)
    requires multiset(top) <= multiset(Scored(Records(fetches, ta)))
    ensures forall i :: 0 <= i < |top| ==> top[i].record in Records(fetches, ta)
  {
    var records := Records(fetches, ta);
    var frame := Scored(records);
    forall i | 0 <= i < |top| ensures top[i].record in records {
      assert top[i] in multiset(top);
      assert top[i] in multiset(frame);
      var j :| 0 <= j < |frame| && frame[j] == top[i];
      assert records[j] == top[i].record;
    }
  }

  // ---------------------------------------------------------------------------
  // Properties of the fetch loop

  /** Every record comes from a fetch that produced data. */
  lemma {:induction false} RecordsProvenance(fetches: seq<Fetch>, ta: seq<Bar> -> Library, j: nat)
    requires j < |Records(fetches, ta)|
    ensures exists k :: 0 <= k < |fetches| && Usable(fetches[k]) && Records(fetches, ta)[j] == RecordOf(fetches[k], ta)
  {
    var init := fetches[..|fetches| - 1];
    var last := fetches[|fetches| - 1];
    if j < |Records(init, ta)| {
      RecordsProvenance(init, ta, j);
      var k :| 0 <= k < |init| && Usable(init[k]) && Records(init, ta)[j] == RecordOf(init[k], ta);
      assert init[k] == fetches[k];
    } else {
      assert Usable(last) && Records(fetches, ta)[j] == RecordOf(last, ta);
    }
  }

  /** The number of fetches that produced data. */
  function CountUsable(fetches: seq<Fetch>): nat {
    if fetches == [] then 0
    else CountUsable(fetches[..|fetches| - 1]) + if Usable(fetches[|fetches| - 1]) then 1 else 0
  }

  /** One record per fetch that produced data. */
  lemma {:induction false} RecordsPerUsableFetch(fetches: seq<Fetch>, ta: seq<Bar> -> Library)
    ensures |Records(fetches, ta)| == CountUsable(fetches)
  {
    if fetches != [] {
      RecordsPerUsableFetch(fetches[..|fetches| - 1], ta);
    }
  }

  /** Records distribute over a split of the fetches. */
  lemma {:induction false} RecordsConcat(a: seq<Fetch>, b: seq<Fetch>, ta: seq<Bar> -> Library)
    ensures Records(a + b, ta) == Records(a, ta) + Records(b, ta)
  {
    if b != [] {
      var b' := b[..|b| - 1];
      assert (a + b)[..|a + b| - 1] == a + b';
      RecordsConcat(a, b', ta);
    } else {
      assert a + b == a;
    }
  }

  /** Removing a failed or empty fetch from the input leaves the records as
      they were. */
  lemma SkippedFetchContributesNothing(fetches: seq<Fetch>, k: nat, ta: seq<Bar> -> Library)
    requires k < |fetches| && !Usable(fetches[k])
    ensures Records(fetches, ta) == Records(fetches[..k] + fetches[k + 1..], ta)
  {
    var pre, upto, post := fetches[..k], fetches[..k + 1], fetches[k + 1..];
    assert fetches == upto + post;
    assert upto[..|upto| - 1] == pre;
    assert Records(upto, ta) == Records(pre, ta);
    RecordsConcat(upto, post, ta);
    RecordsConcat(pre, post, ta);
  }


  /** A symbol none of whose fetches produced data has no record, so it is
      never among the selected movers. */
  lemma {:induction false} SkippedSymbolsNeverSelected(fetches: seq<Fetch>, ta: seq<Bar> -> Library, symbol: string)
    requires forall k :: 0 <= k < |fetches| && fetches[k].symbol == symbol ==> !Usable(fetches[k])
    ensures forall r :: r in Records(fetches, ta) ==> r.symbol != symbol
  {
    if fetches != [] {
      var init := fetches[..|fetches| - 1];
      assert forall k :: 0 <= k < |init| ==> init[k] == fetches[k];
      SkippedSymbolsNeverSelected(init, ta, symbol);
    }
  }
}
