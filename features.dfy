/** Feature derivation from monthly price levels: lagged momentum
    (scripts/build_momentum_multi.py, scripts/build_momentum.py), one-month
    returns (scripts/build_features.py), the wide-to-long melt, `dropna` and the
    (-2, 2) sanity band. */
module Features {
  import opened Common
  import opened Sorting
  import opened Text
  import opened Universe

  /** One row of Monthly_Data: its parsed date and the raw text of every
      other cell. */
  datatype LevelRow = LevelRow(date: Date, cells: seq<string>)

  /** Monthly_Data after loading: `names` are the headers after the date
      column (the benchmark first, the stock ids after it). */
  datatype Levels = Levels(names: seq<string>, rows: seq<LevelRow>)

  predicate WellFormed(t: Levels) {
    RowsOfWidth(t.rows, |t.names|)
  }

  predicate RowsOfWidth(rows: seq<LevelRow>, n: nat) {
    forall i :: 0 <= i < |rows| ==> |rows[i].cells| == n
  }

  /** A long-format row: date, stock id, value. */
  datatype LongRow = LongRow(date: Date, ticker: string, value: Float)

  function RowDate(r: LevelRow): Date { r.date }

  lemma DateLeTotal()
    ensures TotalPreorder(DateLe)
  {
  }

  /** `sort_values("date")` (NaT last). */
  function ByDate(rows: seq<LevelRow>): (s: seq<LevelRow>)
    ensures |s| == |rows|
    ensures forall k :: 0 <= k < |s| ==> s[k] in rows
    ensures forall n: nat :: RowsOfWidth(rows, n) ==> RowsOfWidth(s, n)
  {
    SortByPerm(rows, RowDate, DateLe);
    SortBy(rows, RowDate, DateLe)
  }

  lemma ByDateSorted(rows: seq<LevelRow>)
    ensures SortedBy(ByDate(rows), RowDate, DateLe)
  {
    DateLeTotal();
    SortBySorted(rows, RowDate, DateLe);
  }


  /** Column `j` through `pd.to_numeric(cleaned, errors="coerce")`, as the
      multi-horizon script prepares its prices. */
  function CleanColumn(parse: string -> Option<real>, rows: seq<LevelRow>, j: nat): (p: seq<Option<real>>)
    requires forall i :: 0 <= i < |rows| ==> j < |rows[i].cells|
    ensures |p| == |rows|
  {
    seq(|rows|, i requires 0 <= i < |rows| => CoerceStripped(parse, rows[i].cells[j]))
  }

  /** Column `j` through `pd.to_numeric(raw, errors="coerce")`, with no cleaning. */
  function RawColumn(parse: string -> Option<real>, rows: seq<LevelRow>, j: nat): (p: seq<Option<real>>)
    requires forall i :: 0 <= i < |rows| ==> j < |rows[i].cells|
    ensures |p| == |rows|
  {
    seq(|rows|, i requires 0 <= i < |rows| => CoerceRaw(parse, rows[i].cells[j]))
  }

  /** `Series.shift(k)`: `k` missing values in front, the last `k` dropped. */
  function Shift(p: seq<Option<real>>, k: nat): (s: seq<Option<real>>)
    ensures |s| == |p|
  {
    if k >= |p| then seq(|p|, _ => None) else seq(k, _ => None) + p[..|p| - k]
  }

  lemma ShiftAt(p: seq<Option<real>>, k: nat, i: nat)
    requires i < |p|
    ensures Shift(p, k)[i] == if i >= k then p[i - k] else None
  {
  }

  /** `px.shift(near) / px.shift(far) - 1` on one column. */
  function Lagged(p: seq<Option<real>>, near: nat, far: nat): (m: seq<Float>)
    ensures |m| == |p|
  {
    var a := Shift(p, near);
    var b := Shift(p, far);
    seq(|p|, i requires 0 <= i < |p| => RelChange(a[i], b[i]))
  }

  /** The lagged ratio read off the prices: no value in the first `far` rows,
      `p[i - near] / p[i - far] - 1` after them (missing if either price is). */
  lemma LaggedAt(p: seq<Option<real>>, near: nat, far: nat, i: nat)
    requires near <= far && i < |p|
    ensures Lagged(p, near, far)[i] == if i >= far then RelChange(p[i - near], p[i - far]) else NaN
  {
    ShiftAt(p, near, i);
    ShiftAt(p, far, i);
  }

  /** The lagged ratio at row `i >= far`: `p[i - near] / p[i - far] - 1`. */
  function LagScore(p: seq<Option<real>>, near: nat, far: nat, i: nat): Float
    requires near <= far <= i < |p|
  {
    RelChange(p[i - near], p[i - far])
  }

  function LaggedWide(px: seq<seq<Option<real>>>, near: nat, far: nat): (w: seq<seq<Float>>)
    ensures |w| == |px| && forall j :: 0 <= j < |px| ==> |w[j]| == |px[j]|
  {
    seq(|px|, j requires 0 <= j < |px| => Lagged(px[j], near, far))
  }

  function MeltColumn(dates: seq<Date>, name: string, col: seq<Float>): (r: seq<LongRow>)
    requires |col| == |dates|
    ensures |r| == |dates| && forall i :: 0 <= i < |dates| ==> r[i] == LongRow(dates[i], name, col[i])
  {
    seq(|dates|, i requires 0 <= i < |dates| => LongRow(dates[i], name, col[i]))
  }

  predicate Shaped(dates: seq<Date>, names: seq<string>, wide: seq<seq<Float>>) {
    |wide| == |names| && forall j :: 0 <= j < |wide| ==> |wide[j]| == |dates|
  }

  /** `melt(id_vars="date")`: column after column, each top to bottom. */
  function Melt(dates: seq<Date>, names: seq<string>, wide: seq<seq<Float>>): seq<LongRow>
    requires Shaped(dates, names, wide)
  {
    if |names| == 0 then []
    else MeltColumn(dates, names[0], wide[0]) + Melt(dates, names[1..], wide[1..])
  }

  /** The melt holds one row per (date row, column) cell and nothing else. */
  lemma {:induction false} MeltMembers(dates: seq<Date>, names: seq<string>, wide: seq<seq<Float>>, x: LongRow)
    requires Shaped(dates, names, wide)
    ensures x in Melt(dates, names, wide) <==>
            exists j, i :: 0 <= j < |names| && 0 <= i < |dates| && x == LongRow(dates[i], names[j], wide[j][i])
    decreases |names|
  {
    if names != [] {
      MeltMembers(dates, names[1..], wide[1..], x);
      var head := MeltColumn(dates, names[0], wide[0]);
      if x in head {
        var i :| 0 <= i < |dates| && head[i] == x;
        assert x == LongRow(dates[i], names[0], wide[0][i]);
      }
      if x in Melt(dates, names[1..], wide[1..]) {
        var j, i :| 0 <= j < |names[1..]| && 0 <= i < |dates| && x == LongRow(dates[i], names[1..][j], wide[1..][j][i]);
        assert x == LongRow(dates[i], names[j + 1], wide[j + 1][i]);
      }
      if exists j, i :: 0 <= j < |names| && 0 <= i < |dates| && x == LongRow(dates[i], names[j], wide[j][i]) {
        var j, i :| 0 <= j < |names| && 0 <= i < |dates| && x == LongRow(dates[i], names[j], wide[j][i]);
        if j == 0 {
          assert head[i] == x;
        } else {
          assert x == LongRow(dates[i], names[1..][j - 1], wide[1..][j - 1][i]);
        }
      }
    }
  }

  /** A boolean mask over the value column. */
  function Filter(rows: seq<LongRow>, keep: Float -> bool): (r: seq<LongRow>)
    ensures |r| <= |rows|
  {
    if |rows| == 0 then []
    else (if keep(rows[0].value) then [rows[0]] else []) + Filter(rows[1..], keep)
  }

  /** The mask keeps exactly the rows whose value it accepts. */
  lemma {:induction false} FilterMembers(rows: seq<LongRow>, keep: Float -> bool, x: LongRow)
    ensures x in Filter(rows, keep) <==> x in rows && keep(x.value)
    decreases |rows|
  {
    if |rows| > 0 {
      FilterMembers(rows[1..], keep, x);
      assert x in rows <==> x == rows[0] || x in rows[1..];
    }
  }

  /** `dropna(subset=[value])`: NaN goes, the infinities stay. */
  predicate Defined(f: Float) { !f.NaN? }

  /** `(v > -2.0) & (v < 2.0)`. */
  predicate InBand(f: Float) { FloatGt(f, -2.0) && FloatLt(f, 2.0) }

  function PairOf(x: LongRow): (Date, string) { (x.date, x.ticker) }

  lemma {:induction false} FilterDistinct(rows: seq<LongRow>, keep: Float -> bool)
    requires DistinctKeys(rows, PairOf)
    ensures DistinctKeys(Filter(rows, keep), PairOf)
    decreases |rows|
  {
    if rows != [] {
      var tail := rows[1..];
      assert DistinctKeys(tail, PairOf) by {
        forall a, b | 0 <= a < b < |tail| ensures PairOf(tail[a]) != PairOf(tail[b]) {
          assert tail[a] == rows[a + 1] && tail[b] == rows[b + 1];
        }
      }
      FilterDistinct(tail, keep);
      if keep(rows[0].value) {
        var t := Filter(tail, keep);
        forall m | 0 <= m < |t| ensures PairOf(t[m]) != PairOf(rows[0]) {
          FilterMembers(tail, keep, t[m]);
          var k :| 0 <= k < |tail| && tail[k] == t[m];
          assert rows[k + 1] == t[m];
        }
        ConsDistinct(rows[0], t);
      }
    }
  }

  /** A row whose pair is new keeps the pairs distinct. */
  lemma ConsDistinct(x: LongRow, t: seq<LongRow>)
    requires DistinctKeys(t, PairOf)
    requires forall m :: 0 <= m < |t| ==> PairOf(t[m]) != PairOf(x)
    ensures DistinctKeys([x] + t, PairOf)
  {
    var r := [x] + t;
    forall a, b | 0 <= a < b < |r| ensures PairOf(r[a]) != PairOf(r[b]) {
      assert r[b] == t[b - 1];
      if a > 0 {
        assert r[a] == t[a - 1];
      }
    }
  }

  /** With distinct dates and distinct column names, no (date, id) pair is
      melted twice. */
  lemma {:induction false} MeltDistinct(dates: seq<Date>, names: seq<string>, wide: seq<seq<Float>>)
    requires Shaped(dates, names, wide)
    requires forall a, b :: 0 <= a < b < |dates| ==> dates[a] != dates[b]
    requires forall a, b :: 0 <= a < b < |names| ==> names[a] != names[b]
    ensures DistinctKeys(Melt(dates, names, wide), PairOf)
    decreases |names|
  {
    if names != [] {
      var head := MeltColumn(dates, names[0], wide[0]);
      var tail := Melt(dates, names[1..], wide[1..]);
      MeltDistinct(dates, names[1..], wide[1..]);
      forall y | y in tail ensures y.ticker != names[0] {
        MeltMembers(dates, names[1..], wide[1..], y);
        var j, i :| 0 <= j < |names[1..]| && 0 <= i < |dates| && y == LongRow(dates[i], names[1..][j], wide[1..][j][i]);
        assert names[1..][j] == names[j + 1];
      }
      var r := head + tail;
      forall a, b | 0 <= a < b < |r| ensures PairOf(r[a]) != PairOf(r[b]) {
        if b < |head| {
          assert r[a] == head[a] && r[b] == head[b];
        } else if a < |head| {
          assert r[b] == tail[b - |head|];
        } else {
          assert r[a] == tail[a - |head|] && r[b] == tail[b - |head|];
        }
      }
    }
  }

  /** Every melted row carries one of the column names. */
  lemma {:induction false} MeltTickers(dates: seq<Date>, names: seq<string>, wide: seq<seq<Float>>, x: LongRow)
    requires Shaped(dates, names, wide)
    requires x in Melt(dates, names, wide)
    ensures x.ticker in names
    decreases |names|
  {
    var head := MeltColumn(dates, names[0], wide[0]);
    if x !in head {
      MeltTickers(dates, names[1..], wide[1..], x);
    }
  }

  /** The long frame of a lagged ratio: melt of `shift(near) / shift(far) - 1`. */
  function LaggedLong(dates: seq<Date>, names: seq<string>, px: seq<seq<Option<real>>>, near: nat, far: nat): seq<LongRow>
    requires |px| == |names| && forall j :: 0 <= j < |px| ==> |px[j]| == |dates|
  {
    Melt(dates, names, LaggedWide(px, near, far))
  }

  /** Melting a lagged frame and filtering it: a row is kept exactly when it
      comes from a column `j` and a date row `i` at least `far` rows down, its
      value is the lagged ratio there, and the mask keeps that value. */
  lemma LaggedLongMembers(dates: seq<Date>, names: seq<string>, px: seq<seq<Option<real>>>,
                          near: nat, far: nat, keep: Float -> bool, x: LongRow)
    requires near <= far && |px| == |names| && forall j :: 0 <= j < |px| ==> |px[j]| == |dates|
    requires !keep(NaN)
    ensures x in Filter(LaggedLong(dates, names, px, near, far), keep) <==>
            keep(x.value) &&
            exists j, i :: && 0 <= j < |names| && far <= i < |dates|
                           && x == LongRow(dates[i], names[j], LagScore(px[j], near, far, i))
  {
    var wide := LaggedWide(px, near, far);
    MeltMembers(dates, names, wide, x);
    FilterMembers(Melt(dates, names, wide), keep, x);
    if x in Filter(Melt(dates, names, wide), keep) {
      var j, i :| 0 <= j < |names| && 0 <= i < |dates| && x == LongRow(dates[i], names[j], wide[j][i]);
      LaggedAt(px[j], near, far, i);
    }
    if keep(x.value) && exists j, i :: && 0 <= j < |names| && far <= i < |dates|
                                       && x == LongRow(dates[i], names[j], LagScore(px[j], near, far, i)) {
      var j, i :| && 0 <= j < |names| && far <= i < |dates|
                  && x == LongRow(dates[i], names[j], LagScore(px[j], near, far, i));
      LaggedAt(px[j], near, far, i);
      assert x == LongRow(dates[i], names[j], wide[j][i]);
    }
  }

  /** Under `dropna`, the row of column `j` at date row `i >= far` is kept
      exactly when its lagged ratio is not NaN. */
  lemma LaggedLongDefined(dates: seq<Date>, names: seq<string>, px: seq<seq<Option<real>>>,
                          near: nat, far: nat, j: nat, i: nat)
    requires near <= far && |px| == |names| && forall j :: 0 <= j < |px| ==> |px[j]| == |dates|
    requires j < |names| && far <= i < |dates|
    ensures var x := LongRow(dates[i], names[j], LagScore(px[j], near, far, i));
            x in Filter(LaggedLong(dates, names, px, near, far), Defined) <==> !x.value.NaN?
  {
    var x := LongRow(dates[i], names[j], LagScore(px[j], near, far, i));
    LaggedLongMembers(dates, names, px, near, far, Defined, x);
  }

  /** ---- scripts/build_momentum_multi.py ---- */

  /** The cleaned prices of the stock columns (the headers after the
      benchmark), column-major. */
  function StockPrices(parse: string -> Option<real>, names: seq<string>, rows: seq<LevelRow>): (px: seq<seq<Option<real>>>)
    requires |names| >= 1 && RowsOfWidth(rows, |names|)
    ensures |px| == |names| - 1
    ensures forall j :: 0 <= j < |px| ==> px[j] == CleanColumn(parse, rows, j + 1) && |px[j]| == |rows|
  {
    seq(|names| - 1, j requires 0 <= j < |names| - 1 => CleanColumn(parse, rows, j + 1))
  }

  /** Prices `px[j]` of column `ids[j]`, one per date. */
  predicate PriceGrid(dates: seq<Date>, ids: seq<string>, px: seq<seq<Option<real>>>) {
    |px| == |ids| && forall j :: 0 <= j < |px| ==> |px[j]| == |dates|
  }

  /** The momentum frame of cleaned prices at sorted dates:
      `shift(1) / shift(1 + L) - 1`, melt, `dropna`. */
  function MomentumOf(dates: seq<Date>, ids: seq<string>, px: seq<seq<Option<real>>>, lookback: nat): seq<LongRow>
    requires PriceGrid(dates, ids, px)
  {
    Filter(LaggedLong(dates, ids, px, 1, 1 + lookback), Defined)
  }

  /** `compute_momentum(levels, lookback)`. A frame with no column after the
      date has no `columns[1]`: `IndexError`. */
  function MomentumSpec(parse: string -> Option<real>, t: Levels, lookback: nat): (r: Result<seq<LongRow>>)
    requires WellFormed(t)
    ensures r.Err? <==> |t.names| < 1
    ensures r.Err? ==> r.error == IndexError
  {
    if |t.names| < 1 then Err(IndexError)
    else
      var rows := ByDate(t.rows);
      Ok(MomentumOf(Keys(rows, RowDate), t.names[1..], StockPrices(parse, t.names, rows), lookback))
  }

  /** `compute_momentum` with its per-column cleaning loop. */
  method ComputeMomentum(parse: string -> Option<real>, t: Levels, lookback: nat) returns (r: Result<seq<LongRow>>)
    requires WellFormed(t)
    ensures r == MomentumSpec(parse, t, lookback)
  {
    if |t.names| < 1 {
      return Err(IndexError);
    }
    var rows := ByDate(t.rows);
    var px: seq<seq<Option<real>>> := [];
    for c := 1 to |t.names|
      invariant |px| == c - 1
      invariant forall j :: 0 <= j < c - 1 ==> px[j] == CleanColumn(parse, rows, j + 1)
    {
      px := px + [CleanColumn(parse, rows, c)];
    }
    assert px == StockPrices(parse, t.names, rows);
    var long := LaggedLong(Keys(rows, RowDate), t.names[1..], px, 1, 1 + lookback);
    r := Ok(Filter(long, Defined));
  }

  /** Every momentum row is a defined score of a stock column `j` at a date
      row `i >= L + 1`: `p[i - 1] / p[i - 1 - L] - 1` on its prices `p`. */
  lemma MomentumRowsSound(dates: seq<Date>, ids: seq<string>, px: seq<seq<Option<real>>>, lookback: nat, x: LongRow)
    requires PriceGrid(dates, ids, px)
    requires x in MomentumOf(dates, ids, px, lookback)
    ensures !x.value.NaN?
    ensures exists j, i :: && 0 <= j < |ids| && 1 + lookback <= i < |dates|
                           && x == LongRow(dates[i], ids[j], LagScore(px[j], 1, 1 + lookback, i))
  {
    LaggedLongMembers(dates, ids, px, 1, 1 + lookback, Defined, x);
  }

  /** Each stock column `j` and date row `i >= L + 1` gives its row exactly
      when the score is defined: a missing price on either side gives none,
      and nothing bounds the value (the infinities of a zero lagged price
      stay). */
  lemma MomentumRowsComplete(dates: seq<Date>, ids: seq<string>, px: seq<seq<Option<real>>>, lookback: nat, j: nat, i: nat)
    requires PriceGrid(dates, ids, px)
    requires j < |ids| && 1 + lookback <= i < |dates|
    ensures var x := LongRow(dates[i], ids[j], LagScore(px[j], 1, 1 + lookback, i));
            x in MomentumOf(dates, ids, px, lookback) <==> x.value != NaN
  {
    LaggedLongDefined(dates, ids, px, 1, 1 + lookback, j, i);
  }

  /** Only stock columns become ids: never the date, and never the benchmark
      when the headers are distinct. */
  lemma MomentumTickers(parse: string -> Option<real>, t: Levels, lookback: nat, x: LongRow)
    requires WellFormed(t) && |t.names| >= 1
    requires x in MomentumSpec(parse, t, lookback).value
    ensures x.ticker in t.names[1..]
    ensures (forall a, b :: 0 <= a < b < |t.names| ==> t.names[a] != t.names[b]) ==> x.ticker != t.names[0]
  {
    var rows := ByDate(t.rows);
    var dates := Keys(rows, RowDate);
    var px := StockPrices(parse, t.names, rows);
    FilterMembers(LaggedLong(dates, t.names[1..], px, 1, 1 + lookback), Defined, x);
    MeltTickers(dates, t.names[1..], LaggedWide(px, 1, 1 + lookback), x);
    if forall a, b :: 0 <= a < b < |t.names| ==> t.names[a] != t.names[b] {
      var k :| 0 <= k < |t.names[1..]| && t.names[1..][k] == x.ticker;
      assert t.names[k + 1] == x.ticker;
    }
  }

  /** With distinct dates and headers, at most one row per (date, id). */
  lemma MomentumOnePerPair(parse: string -> Option<real>, t: Levels, lookback: nat)
    requires WellFormed(t) && |t.names| >= 1
    requires DistinctKeys(t.rows, RowDate)
    requires forall a, b :: 0 <= a < b < |t.names| ==> t.names[a] != t.names[b]
    ensures DistinctKeys(MomentumSpec(parse, t, lookback).value, PairOf)
  {
    var rows := ByDate(t.rows);
    SortByDistinct(t.rows, RowDate, DateLe);
    var dates := Keys(rows, RowDate);
    var names := t.names[1..];
    var wide := LaggedWide(StockPrices(parse, t.names, rows), 1, 1 + lookback);
    MeltDistinct(dates, names, wide);
    FilterDistinct(Melt(dates, names, wide), Defined);
  }

  /** A zero lagged price under a positive one gives `+inf`, and it survives:
      this script has no sanity band. */
  lemma MomentumKeepsInfinity(dates: seq<Date>, ids: seq<string>, px: seq<seq<Option<real>>>, lookback: nat, j: nat, i: nat)
    requires PriceGrid(dates, ids, px)
    requires j < |ids| && 1 + lookback <= i < |dates|
    requires px[j][i - 1].Some? && px[j][i - 1].value > 0.0 && px[j][i - 1 - lookback] == Some(0.0)
    ensures LongRow(dates[i], ids[j], PosInf) in MomentumOf(dates, ids, px, lookback)
  {
    assert LagScore(px[j], 1, 1 + lookback, i) == PosInf;
    MomentumRowsComplete(dates, ids, px, lookback, j, i);
  }

  /** ---- scripts/build_momentum.py and scripts/build_features.py ---- */

  /** The position of a kept stock column among all headers. */
  function StockIndex(names: seq<string>, c: string): (j: nat)
    requires |names| >= 1 && c in names[1..]
    ensures 1 <= j < |names| && names[j] == c
  {
    1 + IndexOf(names[1..], c).value
  }

  /** The kept stock columns through `pd.to_numeric(errors="coerce")`, uncleaned. */
  function KeptPrices(parse: string -> Option<real>, names: seq<string>, rows: seq<LevelRow>, stock: seq<string>): (px: seq<seq<Option<real>>>)
    requires |names| >= 1 && RowsOfWidth(rows, |names|) && forall c :: c in stock ==> c in names[1..]
    ensures |px| == |stock|
    ensures forall k :: 0 <= k < |px| ==> px[k] == RawColumn(parse, rows, StockIndex(names, stock[k])) && |px[k]| == |rows|
  {
    seq(|stock|, k requires 0 <= k < |stock| => RawColumn(parse, rows, StockIndex(names, stock[k])))
  }

  /** The long output of date-sorted rows once the universe is known: lag,
      melt, `dropna`, band. Every row is a kept stock strictly inside (-2, 2). */
  function BandedLong(parse: string -> Option<real>, names: seq<string>, rows: seq<LevelRow>, stock: seq<string>,
                      near: nat, far: nat): (r: seq<LongRow>)
    requires |names| >= 1 && RowsOfWidth(rows, |names|) && forall c :: c in stock ==> c in names[1..]
    ensures forall x :: x in r ==> InBand(x.value) && x.ticker in stock
  {
    var px := KeptPrices(parse, names, rows, stock);
    var dates := Keys(rows, RowDate);
    var r := Filter(Filter(LaggedLong(dates, stock, px, near, far), Defined), InBand);
    assert forall x :: x in r ==> InBand(x.value) && x.ticker in stock by {
      forall x | x in r ensures InBand(x.value) && x.ticker in stock {
        FilterMembers(Filter(LaggedLong(dates, stock, px, near, far), Defined), InBand, x);
        FilterMembers(LaggedLong(dates, stock, px, near, far), Defined, x);
        MeltTickers(dates, stock, LaggedWide(px, near, far), x);
      }
    }
    r
  }

  /** Every row of the banded output: a kept stock column `k`, a sorted row
      `i` at least `far` down, the lagged ratio of its prices there, strictly
      inside (-2, 2). */
  lemma BandedRowsSound(parse: string -> Option<real>, names: seq<string>, rows: seq<LevelRow>, stock: seq<string>,
                        near: nat, far: nat, x: LongRow)
    requires |names| >= 1 && RowsOfWidth(rows, |names|) && forall c :: c in stock ==> c in names[1..]
    requires near <= far
    requires x in BandedLong(parse, names, rows, stock, near, far)
    ensures InBand(x.value)
    ensures exists k, i :: && 0 <= k < |stock| && far <= i < |rows|
                           && x == LongRow(rows[i].date, stock[k], LagScore(KeptPrices(parse, names, rows, stock)[k], near, far, i))
  {
    FilterMembers(Filter(LaggedLong(Keys(rows, RowDate), stock, KeptPrices(parse, names, rows, stock), near, far), Defined), InBand, x);
    LaggedLongMembers(Keys(rows, RowDate), stock, KeptPrices(parse, names, rows, stock), near, far, Defined, x);
  }

  /** Each kept column `k` and row `i >= far` gives its row exactly when the
      lagged ratio is strictly inside (-2, 2). */
  lemma BandedRowsComplete(parse: string -> Option<real>, names: seq<string>, rows: seq<LevelRow>, stock: seq<string>,
                           near: nat, far: nat, k: nat, i: nat)
    requires |names| >= 1 && RowsOfWidth(rows, |names|) && forall c :: c in stock ==> c in names[1..]
    requires near <= far && k < |stock| && far <= i < |rows|
    ensures var x := LongRow(rows[i].date, stock[k], LagScore(KeptPrices(parse, names, rows, stock)[k], near, far, i));
            x in BandedLong(parse, names, rows, stock, near, far) <==> InBand(x.value)
  {
    var x := LongRow(rows[i].date, stock[k], LagScore(KeptPrices(parse, names, rows, stock)[k], near, far, i));
    FilterMembers(Filter(LaggedLong(Keys(rows, RowDate), stock, KeptPrices(parse, names, rows, stock), near, far), Defined), InBand, x);
    LaggedLongMembers(Keys(rows, RowDate), stock, KeptPrices(parse, names, rows, stock), near, far, Defined, x);
  }

  /** `main` of scripts/build_momentum.py: `shift(1) / shift(7) - 1` on the
      large-cap columns, melted and banded. Errors: no benchmark column
      (`IndexError`), missing fixed Basic_Data headers (`KeyError`), bad cap
      text or an empty universe (`ValueError`). */
  function Momentum6m(parse: string -> Option<real>, t: Levels, basic: Table): (r: Result<seq<LongRow>>)
    requires WellFormed(t) && Universe.Rectangular(basic)
    ensures |t.names| < 1 ==> r == Err(IndexError)
    ensures |t.names| >= 1 ==> (r.Err? <==> MomentumUniverse(parse, basic, t.names[1..]).Err?)
    ensures r.Err? && |t.names| >= 1 ==> r.error == MomentumUniverse(parse, basic, t.names[1..]).error
    ensures r.Ok? ==> forall x :: x in r.value ==> InBand(x.value) && x.ticker in t.names[1..]
  {
    if |t.names| < 1 then Err(IndexError)
    else match MomentumUniverse(parse, basic, t.names[1..])
      case Err(e) => Err(e)
      case Ok(stock) => Ok(BandedLong(parse, t.names, ByDate(t.rows), stock, 1, 7))
  }

  /** The 6-month score at sorted row `i` is `p[i - 1] / p[i - 7] - 1`: the
      first seven rows (0..6) never carry one. */
  lemma Momentum6mRows(p: seq<Option<real>>, i: nat)
    requires 7 <= i < |p|
    ensures LagScore(p, 1, 7, i) == RelChange(p[i - 1], p[i - 7])
    ensures forall r :: 0 <= r < 7 ==> Lagged(p, 1, 7)[r].NaN?
  {
    forall r | 0 <= r < 7 ensures Lagged(p, 1, 7)[r].NaN? {
      LaggedAt(p, 1, 7, r);
    }
  }

  /** `main` of scripts/build_features.py: `pct_change(fill_method=None)` on
      the large-cap columns, melted and banded. */
  function FeatureReturns(parse: string -> Option<real>, t: Levels, basic: Table): (r: Result<seq<LongRow>>)
    requires WellFormed(t) && Universe.Rectangular(basic)
    ensures |t.names| < 1 ==> r == Err(IndexError)
    ensures |t.names| >= 1 ==> (r.Err? <==> FeaturesUniverse(parse, basic, t.names[1..]).Err?)
    ensures r.Err? && |t.names| >= 1 ==> r.error == FeaturesUniverse(parse, basic, t.names[1..]).error
    ensures r.Ok? ==> forall x :: x in r.value ==> InBand(x.value) && x.ticker in t.names[1..]
  {
    if |t.names| < 1 then Err(IndexError)
    else match FeaturesUniverse(parse, basic, t.names[1..])
      case Err(e) => Err(e)
      case Ok(stock) => Ok(BandedLong(parse, t.names, ByDate(t.rows), stock, 0, 1))
  }

  /** The wide return frame: row 0 is always missing, row `i` is
      `p[i] / p[i - 1] - 1`, missing when either price is (no padding). */
  lemma ReturnsWideAt(p: seq<Option<real>>, i: nat)
    requires i < |p|
    ensures Lagged(p, 0, 1)[i] == if i == 0 then NaN else LagScore(p, 0, 1, i)
    ensures i >= 1 ==> LagScore(p, 0, 1, i) == RelChange(p[i], p[i - 1])
    ensures i >= 1 && (p[i].None? || p[i - 1].None?) ==> Lagged(p, 0, 1)[i].NaN?
  {
    LaggedAt(p, 0, 1, i);
  }

  /** The benchmark (first header) is never a return column when headers are distinct. */
  lemma FeatureReturnsSkipBenchmark(parse: string -> Option<real>, t: Levels, basic: Table, x: LongRow)
    requires WellFormed(t) && Universe.Rectangular(basic) && |t.names| >= 1
    requires forall a, b :: 0 <= a < b < |t.names| ==> t.names[a] != t.names[b]
    requires FeatureReturns(parse, t, basic).Ok? && x in FeatureReturns(parse, t, basic).value
    ensures x.ticker != t.names[0]
  {
    var k :| 0 <= k < |t.names[1..]| && t.names[1..][k] == x.ticker;
    assert t.names[k + 1] == x.ticker;
  }
}
