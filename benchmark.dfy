/** The benchmark series (the first column after the date in Monthly_Data)
    and what the scripts build from it: the level cleaning and `pct_change`
    shared by scripts/build_portfolio.py, scripts/compute_metrics.py,
    scripts/build_benchmark.py and scripts/relative_performance.py; the
    frozen benchmark row; the metrics assembly of compute_metrics.py; and the
    relative cumulative performance of each portfolio. */
module Benchmark {
  import opened Common
  import opened Sorting
  import opened Text
  import opened Series
  import opened Metrics
  import opened Features

  /** A benchmark level that parsed: its date (possibly NaT) and value. */
  datatype Level = Level(date: Date, value: real)

  /** One benchmark return, dated at the later of its two levels. A zero
      earlier level gives an infinity, which `dropna` keeps. */
  datatype BenchRet = BenchRet(date: Date, ret: Float)

  predicate HasBenchCell(rows: seq<LevelRow>) {
    forall i :: 0 <= i < |rows| ==> |rows[i].cells| >= 1
  }

  /** The benchmark cell of a row with every character outside
      [0-9 . - e E] deleted, then `pd.to_numeric(..., errors="coerce")`: an
      empty or unparsable leftover is missing. */
  function LevelOf(parse: string -> Option<real>, row: LevelRow): (v: Option<real>)
    requires |row.cells| >= 1
    ensures StripNonNumeric(row.cells[0]) == [] ==> v.None?
  {
    CoerceStripped(parse, row.cells[0])
  }

  /** `dropna(subset=[bench_col])`: the rows whose level parsed, in order. */
  function ValidLevels(parse: string -> Option<real>, rows: seq<LevelRow>): (v: seq<Level>)
    requires HasBenchCell(rows)
    ensures |v| <= |rows|
    ensures forall l :: l in v <==>
              exists i :: 0 <= i < |rows| && rows[i].date == l.date && LevelOf(parse, rows[i]) == Some(l.value)
  {
    if |rows| == 0 then []
    else
      var n := |rows| - 1;
      var rest := ValidLevels(parse, rows[..n]);
      assert forall i :: 0 <= i < n ==> rows[..n][i] == rows[i];
      match LevelOf(parse, rows[n])
      case None => rest
      case Some(x) => rest + [Level(rows[n].date, x)]
  }

  /** `pct_change` between two consecutive valid levels: the ratio minus one,
      NaN only for 0/0. */
  function Change(prev: Level, next: Level): (r: Float)
    ensures prev.value != 0.0 ==> r == Num(next.value / prev.value - 1.0)
    ensures r.NaN? <==> prev.value == 0.0 && next.value == 0.0
  {
    RelChange(Some(next.value), Some(prev.value))
  }

  /** `pct_change(fill_method=None)` over the valid levels, then `dropna`:
      the first level has no predecessor, and a 0/0 change is dropped. */
  function Returns(v: seq<Level>): (r: seq<BenchRet>)
    ensures |r| <= (if |v| == 0 then 0 else |v| - 1)
    ensures forall x :: x in r ==> !x.ret.NaN?
  {
    if |v| < 2 then []
    else
      var n := |v| - 1;
      var c := Change(v[n - 1], v[n]);
      Returns(v[..n]) + (if c.NaN? then [] else [BenchRet(v[n].date, c)])
  }

  /** No two consecutive valid levels are both zero. */
  predicate NoFlatZero(v: seq<Level>) {
    forall j :: 0 <= j < |v| - 1 ==> v[j].value != 0.0 || v[j + 1].value != 0.0
  }

  /** Returns bridge gaps: return `j` is the change from valid level `j` to
      valid level `j + 1`, whatever rows lay between them, and there is one
      return per valid level but the first. */
  lemma {:induction false} ReturnsAt(v: seq<Level>)
    requires NoFlatZero(v)
    ensures |Returns(v)| == (if |v| == 0 then 0 else |v| - 1)
    ensures forall j :: 0 <= j < |v| - 1 ==> Returns(v)[j] == BenchRet(v[j + 1].date, Change(v[j], v[j + 1]))
  {
    if |v| >= 2 {
      var n := |v| - 1;
      assert NoFlatZero(v[..n]) by {
        forall j | 0 <= j < |v[..n]| - 1 ensures v[..n][j].value != 0.0 || v[..n][j + 1].value != 0.0 {
          assert v[..n][j] == v[j] && v[..n][j + 1] == v[j + 1];
        }
      }
      ReturnsAt(v[..n]);
      assert v[..n][n - 1] == v[n - 1];
    }
  }

  /** Every return is the change between two consecutive valid levels. */
  lemma {:induction false} ReturnsSources(v: seq<Level>)
    ensures forall k :: 0 <= k < |Returns(v)| ==>
              exists j :: 0 <= j < |v| - 1 && Returns(v)[k] == BenchRet(v[j + 1].date, Change(v[j], v[j + 1]))
  {
    if |v| >= 2 {
      var n := |v| - 1;
      ReturnsSources(v[..n]);
      var rest := Returns(v[..n]);
      var c := Change(v[n - 1], v[n]);
      assert Returns(v) == rest + (if c.NaN? then [] else [BenchRet(v[n].date, c)]);
      forall k | 0 <= k < |Returns(v)|
        ensures exists j :: 0 <= j < |v| - 1 && Returns(v)[k] == BenchRet(v[j + 1].date, Change(v[j], v[j + 1]))
      {
        if k < |rest| {
          var j :| 0 <= j < |v[..n]| - 1 && rest[k] == BenchRet(v[..n][j + 1].date, Change(v[..n][j], v[..n][j + 1]));
          assert v[..n][j] == v[j] && v[..n][j + 1] == v[j + 1];
          assert Returns(v)[k] == BenchRet(v[j + 1].date, Change(v[j], v[j + 1]));
        } else {
          assert Returns(v)[k] == BenchRet(v[(n - 1) + 1].date, Change(v[n - 1], v[(n - 1) + 1]));
        }
      }
    } else {
      assert |Returns(v)| == 0;
    }
  }

  /** With no zero level, every return is finite. */
  lemma {:induction false} ReturnsFinite(v: seq<Level>)
    requires forall j :: 0 <= j < |v| ==> v[j].value != 0.0
    ensures forall k :: 0 <= k < |Returns(v)| ==> Returns(v)[k].ret.Num?
  {
    ReturnsSources(v);
  }

  /** The benchmark return series of Monthly_Data: sort by date, clean and
      coerce the benchmark column, drop the rows without a level, then
      `pct_change` and `dropna`. A frame with no column after the date has no
      `columns[1]`: `IndexError`. */
  function BenchmarkReturns(parse: string -> Option<real>, t: Levels): (r: Result<seq<BenchRet>>)
    requires WellFormed(t)
    ensures r.Err? <==> |t.names| == 0
    ensures r.Err? ==> r.error == IndexError
    ensures r.Ok? ==> |r.value| < |t.rows| || |t.rows| == 0
  {
    if |t.names| == 0 then Err(IndexError)
    else
      var rows := ByDate(t.rows);
      Ok(Returns(ValidLevels(parse, rows)))
  }

  /** The derivation as scripts/build_benchmark.py runs it: the benchmark
      column is overwritten in place by its cleaned values, the rows without
      a level are dropped, and the changes are collected. */
  method BuildBenchmark(parse: string -> Option<real>, t: Levels) returns (r: Result<seq<BenchRet>>)
    requires WellFormed(t)
    ensures r == BenchmarkReturns(parse, t)
  {
    if |t.names| == 0 {
      return Err(IndexError);
    }
    var rows := ByDate(t.rows);
    var level := CleanLevels(parse, rows);
    var valid := DropMissing(parse, rows, level);
    var rets := PctChange(valid);
    return Ok(rets);
  }

  /** The benchmark column overwritten by its cleaned, coerced values. */
  method CleanLevels(parse: string -> Option<real>, rows: seq<LevelRow>) returns (level: array<Option<real>>)
    requires HasBenchCell(rows)
    ensures fresh(level) && level.Length == |rows|
    ensures forall k :: 0 <= k < |rows| ==> level[k] == LevelOf(parse, rows[k])
  {
    level := new Option<real>[|rows|];
    for i := 0 to |rows|
      invariant forall k :: 0 <= k < i ==> level[k] == LevelOf(parse, rows[k])
    {
      level[i] := LevelOf(parse, rows[i]);
    }
  }

  /** `dropna(subset=[bench_col])` over the cleaned column. */
  method DropMissing(ghost parse: string -> Option<real>, rows: seq<LevelRow>, level: array<Option<real>>)
    returns (valid: seq<Level>)
    requires HasBenchCell(rows) && level.Length == |rows|
    requires forall k :: 0 <= k < |rows| ==> level[k] == LevelOf(parse, rows[k])
    ensures valid == ValidLevels(parse, rows)
  {
    valid := [];
    for i := 0 to |rows|
      invariant valid == ValidLevels(parse, rows[..i])
    {
      assert rows[..i + 1][..i] == rows[..i];
      if level[i].Some? {
        valid := valid + [Level(rows[i].date, level[i].value)];
      }
    }
    assert rows[..|rows|] == rows;
  }

  /** `pct_change(fill_method=None)` followed by `dropna` over the valid levels. */
  method PctChange(valid: seq<Level>) returns (rets: seq<BenchRet>)
    ensures rets == Returns(valid)
  {
    rets := [];
    for i := 0 to |valid|
      invariant rets == Returns(valid[..i])
    {
      assert valid[..i + 1][..i] == valid[..i];
      if i >= 1 {
        var c := Change(valid[i - 1], valid[i]);
        if !c.NaN? {
          rets := rets + [BenchRet(valid[i].date, c)];
        }
      }
    }
    assert valid[..|valid|] == valid;
  }

  /** Every return of Monthly_Data is the change between two levels that
      parsed, dated at the later one, with rows without a level in between
      skipped. */
  lemma BenchmarkReturnsSources(parse: string -> Option<real>, t: Levels, x: BenchRet)
    requires WellFormed(t) && BenchmarkReturns(parse, t).Ok?
    requires x in BenchmarkReturns(parse, t).value
    ensures exists a, b :: && a in ValidLevels(parse, ByDate(t.rows)) && b in ValidLevels(parse, ByDate(t.rows))
                           && x == BenchRet(b.date, Change(a, b))
  {
    var v := ValidLevels(parse, ByDate(t.rows));
    ReturnsSources(v);
    var k :| 0 <= k < |Returns(v)| && Returns(v)[k] == x;
    var j :| 0 <= j < |v| - 1 && x == BenchRet(v[j + 1].date, Change(v[j], v[j + 1]));
    assert v[j] in v && v[j + 1] in v;
  }

  /** ---- scripts/build_benchmark.py: the frozen metrics row ---- */

  /** The values of a return series with no infinite entry. */
  function RetValues(b: seq<BenchRet>): (xs: seq<real>)
    requires forall k :: 0 <= k < |b| ==> b[k].ret.Num?
    ensures |xs| == |b| && forall k :: 0 <= k < |b| ==> xs[k] == b[k].ret.v
  {
    seq(|b|, k requires 0 <= k < |b| => b[k].ret.v)
  }

  /** The single "Benchmark" row of benchmark_metrics.csv: the statistics of
      src/momentum/metrics.py on the saved returns (their `dropna` has
      nothing left to drop) and "—" in the p-value column. */
  function FrozenRow(n: Numerics, b: seq<BenchRet>): (row: MetricsRow)
    requires Finite(b)
    ensures row.name == "Benchmark" && row.p == Dash
    ensures |b| == 0 ==> row.ret.NaN? && row.vol.NaN? && row.sharpe.NaN? && row.sortino.NaN?
    ensures |b| < 2 ==> row.vol.NaN? && row.sharpe.NaN?
    ensures |b| >= 2 ==> row.vol.Num?
    ensures row.ret == CagrOf(n, RetValues(b)) && row.vol == AnnVolOf(n, RetValues(b))
    ensures row.sharpe == SharpeOf(n, RetValues(b)) && row.sortino == SortinoOf(n, RetValues(b))
    ensures |b| > 0 && (forall k :: 0 <= k < |b| ==> b[k].ret.v >= 0.0) ==> row.sortino.PosInf?
  {
    var xs := RetValues(b);
    MetricsRow("Benchmark", CagrOf(n, xs), AnnVolOf(n, xs), SharpeOf(n, xs), SortinoOf(n, xs), Dash)
  }

  /** ---- scripts/compute_metrics.py ---- */

  /** One line of a `portfolio_returns_top{n}.csv`: its date and the raw text
      of its value. */
  datatype FileRow = FileRow(date: int, text: string)

  /** A portfolio file as a series: `pd.to_numeric(..., errors="coerce")` on
      the value column, indexed by the date column. */
  function FileSeries(parse: string -> Option<real>, rows: seq<FileRow>): (s: seq<Obs>)
    ensures |s| == |rows|
    ensures forall k :: 0 <= k < |rows| ==> s[k] == Obs(rows[k].date, CoerceRaw(parse, rows[k].text))
  {
    seq(|rows|, k requires 0 <= k < |rows| => Obs(rows[k].date, CoerceRaw(parse, rows[k].text)))
  }

  /** One loaded portfolio: the file of size `n` as a date-sorted series named "Top n". */
  function Loaded(parse: string -> Option<real>, rows: seq<FileRow>, n: nat): (s: Named)
    ensures s.name == TopLabel(n) && |s.series| == |rows|
  {
    Named(TopLabel(n), SortObs(FileSeries(parse, rows)))
  }

  /** The first `i` entries of the `named` dictionary of `load_portfolios()`. */
  function PortfoliosUpTo(parse: string -> Option<real>, files: seq<seq<FileRow>>, i: nat): (named: seq<Named>)
    requires |files| == |TopNs| && i <= |TopNs|
    ensures |named| == i
    ensures forall k :: 0 <= k < i ==> named[k].name == TopLabel(TopNs[k]) && |named[k].series| == |files[k]|
  {
    if i == 0 then [] else PortfoliosUpTo(parse, files, i - 1) + [Loaded(parse, files[i - 1], TopNs[i - 1])]
  }

  /** `load_portfolios()`: one series per portfolio size, named "Top n", in
      the order of the sizes. */
  function Portfolios(parse: string -> Option<real>, files: seq<seq<FileRow>>): (named: seq<Named>)
    requires |files| == |TopNs|
  {
    PortfoliosUpTo(parse, files, |TopNs|)
  }

  /** `load_portfolios` with its loop filling the `named` dictionary. */
  method LoadPortfolios(parse: string -> Option<real>, files: seq<seq<FileRow>>) returns (named: seq<Named>)
    requires |files| == |TopNs|
    ensures named == Portfolios(parse, files)
  {
    named := [];
    for i := 0 to |TopNs|
      invariant named == PortfoliosUpTo(parse, files, i)
    {
      named := named + [Loaded(parse, files[i], TopNs[i])];
    }
  }

  lemma {:induction false} PortfoliosUpToAt(parse: string -> Option<real>, files: seq<seq<FileRow>>, i: nat, k: nat)
    requires |files| == |TopNs| && k < i <= |TopNs|
    ensures PortfoliosUpTo(parse, files, i)[k] == Loaded(parse, files[k], TopNs[k])
  {
    var prev := PortfoliosUpTo(parse, files, i - 1);
    var last := Loaded(parse, files[i - 1], TopNs[i - 1]);
    assert PortfoliosUpTo(parse, files, i) == prev + [last];
    if k < i - 1 {
      PortfoliosUpToAt(parse, files, i - 1, k);
      assert (prev + [last])[k] == prev[k];
    } else {
      assert (prev + [last])[k] == last;
    }
  }

  /** Each series `load_portfolios` returns is named after its size, holds
      exactly the lines of its file, and is in date order. */
  lemma PortfolioSeries(parse: string -> Option<real>, files: seq<seq<FileRow>>, i: nat)
    requires |files| == |TopNs| && i < |TopNs|
    ensures var s := Portfolios(parse, files)[i];
            && s.name == TopLabel(TopNs[i])
            && multiset(s.series) == multiset(FileSeries(parse, files[i]))
            && SortedBy(s.series, ObsDate, IntLe)
  {
    PortfoliosUpToAt(parse, files, |TopNs|, i);
    SortObsSorted(FileSeries(parse, files[i]));
  }

  /** A return series the metrics can take: every return finite. */
  predicate Finite(b: seq<BenchRet>) {
    forall k :: 0 <= k < |b| ==> b[k].ret.Num?
  }

  /** The returns as a series indexed by date. Entries whose date is NaT are
      kept by `load_benchmark_returns` but never survive the alignment:
      `index.min()` skips NaT and `index >= common_start` is false on it. */
  function BenchObs(b: seq<BenchRet>): (s: seq<Obs>)
    requires Finite(b)
    ensures |s| == |BenchPoints(b)|
    ensures forall o :: o in s <==> o.value.Some? && Point(o.date, o.value.value) in BenchPoints(b)
  {
    var p := BenchPoints(b);
    var s := seq(|p|, k requires 0 <= k < |p| => Obs(p[k].date, Some(p[k].value)));
    assert forall o :: o in s ==> o.value.Some? && Point(o.date, o.value.value) in p;
    assert forall k :: 0 <= k < |p| ==> s[k] == Obs(p[k].date, Some(p[k].value));
    s
  }

  /** The table of `main`: the aligned portfolios, then the aligned
      benchmark under the name "Benchmark" (`{**portfolios_aligned,
      "Benchmark": bench_aligned}`), through `metrics_table`, which cannot
      fail since the benchmark name is present. */
  function Assemble(n: Numerics, a: Aligned): (r: Result<seq<MetricsRow>>)
    ensures r.Ok? && |r.value| == |a.named| + 1
  {
    var all := a.named + [Named("Benchmark", a.bench)];
    assert all[|all| - 1].name == "Benchmark";
    MetricsTableSpec(n, all, "Benchmark")
  }

  /** With the five portfolios in size order, the table lists them in that
      order, each with a p-value label against the benchmark, and ends with
      the benchmark, labelled "—". */
  lemma AssembleRows(n: Numerics, a: Aligned)
    requires |a.named| == |TopNs|
    requires forall i :: 0 <= i < |TopNs| ==> a.named[i].name == TopLabel(TopNs[i])
    ensures var rows := Assemble(n, a).value;
            && rows[|TopNs|].name == "Benchmark" && rows[|TopNs|].p == Dash
            && forall i :: 0 <= i < |TopNs| ==> rows[i].name == TopLabel(TopNs[i]) && rows[i].p != Dash
  {
    var all := a.named + [Named("Benchmark", a.bench)];
    assert all[|TopNs|].name == "Benchmark";
    forall i | 0 <= i < |TopNs| ensures all[i].name != "Benchmark" {
      assert all[i].name[0] == 'T';
    }
    forall i | 0 <= i < |all| ensures MetricsTableSpec(n, all, "Benchmark").value[i].p == Dash <==> i == |TopNs| {
      MetricsTableLabels(n, all, "Benchmark", i);
    }
  }

  /** `main` of scripts/compute_metrics.py: the portfolios and the benchmark
      cut to their common start, then the table of all six. */
  function ComputeMetrics(n: Numerics, parse: string -> Option<real>, files: seq<seq<FileRow>>, t: Levels)
    : (r: Result<seq<MetricsRow>>)
    requires |files| == |TopNs| && WellFormed(t)
    requires BenchmarkReturns(parse, t).Ok? ==> Finite(BenchmarkReturns(parse, t).value)
    ensures |t.names| == 0 ==> r == Err(IndexError)
    ensures |t.names| > 0 ==>
              (r.Err? <==> BenchmarkReturns(parse, t).value == []
                           && forall i :: 0 <= i < |TopNs| ==> files[i] == [])
    ensures r.Err? ==> r.error == IndexError || r.error == ValueError
    ensures r.Ok? ==> |r.value| == |TopNs| + 1
  {
    match BenchmarkReturns(parse, t)
    case Err(e) => Err(e)
    case Ok(b) =>
      var series := Portfolios(parse, files);
      if b != [] && BenchObs(b) == [] && forall i :: 0 <= i < |series| ==> series[i].series == [] then
        // every benchmark date is NaT and every portfolio empty: `starts` is
        // [NaT], so `common_start` is NaT and every series is cut to nothing
        Assemble(n, Aligned(series, [], 0))
      else
        match AlignCommonStart(series, BenchObs(b))
        case Err(e) => Err(e)
        case Ok(a) => Assemble(n, a)
  }

  /** The metrics table of compute_metrics.py has the five portfolios in
      size order, each labelled against the benchmark, and the benchmark as
      its last row, labelled "—". */
  lemma ComputeMetricsRows(n: Numerics, parse: string -> Option<real>, files: seq<seq<FileRow>>, t: Levels)
    requires |files| == |TopNs| && WellFormed(t)
    requires BenchmarkReturns(parse, t).Ok? ==> Finite(BenchmarkReturns(parse, t).value)
    requires ComputeMetrics(n, parse, files, t).Ok?
    ensures var rows := ComputeMetrics(n, parse, files, t).value;
            && rows[|TopNs|].name == "Benchmark" && rows[|TopNs|].p == Dash
            && forall i :: 0 <= i < |TopNs| ==> rows[i].name == TopLabel(TopNs[i]) && rows[i].p != Dash
  {
    var b := BenchmarkReturns(parse, t).value;
    var series := Portfolios(parse, files);
    forall i | 0 <= i < |TopNs| ensures series[i].name == TopLabel(TopNs[i]) {
      PortfoliosUpToAt(parse, files, |TopNs|, i);
    }
    if b != [] && BenchObs(b) == [] && forall i :: 0 <= i < |series| ==> series[i].series == [] {
      AssembleRows(n, Aligned(series, [], 0));
    } else {
      AssembleRows(n, AlignCommonStart(series, BenchObs(b)).value);
    }
  }

  /** ---- scripts/relative_performance.py ---- */

  /** The rows whose date parsed. */
  function DatedRows(rows: seq<LevelRow>): (d: seq<LevelRow>)
    ensures |d| <= |rows|
    ensures forall r :: r in d <==> r in rows && r.date.Some?
  {
    if |rows| == 0 then []
    else
      assert forall r :: r in rows <==> r == rows[0] || r in rows[1..];
      (if rows[0].date.Some? then [rows[0]] else []) + DatedRows(rows[1..])
  }

  /** `load_bench()`: the same cleaning, but `dropna()` over both the date
      and the level, so rows with an unparsed date go before `pct_change`
      too. */
  function RelativeBench(parse: string -> Option<real>, t: Levels): (r: Result<seq<BenchRet>>)
    requires WellFormed(t)
    ensures r.Err? <==> |t.names| == 0
    ensures r.Err? ==> r.error == IndexError
  {
    if |t.names| == 0 then Err(IndexError)
    else
      var rows := ByDate(t.rows);
      Ok(Returns(ValidLevels(parse, DatedRows(rows))))
  }

  /** Every return of `load_bench` carries a parsed date. */
  lemma RelativeBenchDated(parse: string -> Option<real>, t: Levels)
    requires WellFormed(t) && RelativeBench(parse, t).Ok?
    ensures forall k :: 0 <= k < |RelativeBench(parse, t).value| ==> RelativeBench(parse, t).value[k].date.Some?
  {
    var v := ValidLevels(parse, DatedRows(ByDate(t.rows)));
    ReturnsSources(v);
    forall k | 0 <= k < |Returns(v)| ensures Returns(v)[k].date.Some? {
      var j :| 0 <= j < |v| - 1 && Returns(v)[k] == BenchRet(v[j + 1].date, Change(v[j], v[j + 1]));
      assert v[j + 1] in v;
    }
  }

  lemma {:induction false} DatedRowsAll(rows: seq<LevelRow>)
    requires forall i :: 0 <= i < |rows| ==> rows[i].date.Some?
    ensures DatedRows(rows) == rows
  {
    if |rows| > 0 {
      DatedRowsAll(rows[1..]);
      assert [rows[0]] + rows[1..] == rows;
    }
  }

  /** When every date of Monthly_Data parses, `load_bench` and the other
      three derivations give the same series. */
  lemma RelativeBenchAgrees(parse: string -> Option<real>, t: Levels)
    requires WellFormed(t)
    requires forall i :: 0 <= i < |t.rows| ==> t.rows[i].date.Some?
    ensures RelativeBench(parse, t) == BenchmarkReturns(parse, t)
  {
    var rows := ByDate(t.rows);
    forall i | 0 <= i < |rows| ensures rows[i].date.Some? {
      assert rows[i] in t.rows;
    }
    DatedRowsAll(rows);
  }

  /** `load_port(n)`: the coerced values of a portfolio file, `dropna()`, in
      file order. */
  function LoadPort(parse: string -> Option<real>, rows: seq<FileRow>): (s: seq<Point>)
    ensures forall p :: p in s <==> Obs(p.date, Some(p.value)) in FileSeries(parse, rows)
  {
    DropNa(FileSeries(parse, rows))
  }

  /** The benchmark side of `rp.align(rb, join="inner")`: the benchmark's
      value on each shared date. */
  function BenchSide(o: seq<Point>, bench: seq<Point>): (s: seq<Point>)
    requires forall k :: 0 <= k < |o| ==> o[k].date in Dates(bench)
    ensures |s| == |o|
    ensures forall k :: 0 <= k < |o| ==> s[k].date == o[k].date && s[k].value == ValueAt(bench, o[k].date)
  {
    seq(|o|, k requires 0 <= k < |o| => Point(o[k].date, ValueAt(bench, o[k].date)))
  }

  /** One entry of `cum_p / cum_b`. */
  datatype RelPoint = RelPoint(date: int, ratio: Float)

  /** The shared months of a portfolio and the benchmark, in the portfolio's order. */
  function Shared(port: seq<Point>, bench: seq<Point>): (o: seq<Point>)
    ensures forall k :: 0 <= k < |o| ==> o[k] in port && o[k].date in Dates(bench)
  {
    var o := Overlap(port, bench);
    assert forall k :: 0 <= k < |o| ==> o[k] in o;
    o
  }

  /** The ratio series of one portfolio: both sides inner-aligned, each
      turned into its anchored cumulative index (`dropna().sort_index()`,
      then `cumprod` shifted to start at 1.0), and divided month by month. */
  function Relative(port: seq<Point>, bench: seq<Point>): (rel: seq<RelPoint>)
    ensures |rel| == |Overlap(port, bench)|
    ensures rel != [] ==> rel[0].ratio == Num(1.0)
    ensures forall k :: 0 <= k < |rel| ==> rel[k].date in Dates(port) && rel[k].date in Dates(bench)
  {
    var o := Shared(port, bench);
    var cp := PointsIndex(SortPoints(o), 1.0);
    var cb := PointsIndex(SortPoints(BenchSide(o, bench)), 1.0);
    RelDates(o, bench);
    var rel := seq(|cp|, k requires 0 <= k < |cp| => RelPoint(cp[k].date, Quotient(cp[k].value, cb[k].value)));
    assert forall k :: 0 <= k < |rel| ==> rel[k].date in Dates(port) && rel[k].date in Dates(bench) by {
      forall k | 0 <= k < |rel| ensures rel[k].date in Dates(port) && rel[k].date in Dates(bench) {
        var x := SortPoints(o)[k];
        assert x in multiset(SortPoints(o));
        assert x in o;
        var i :| 0 <= i < |port| && port[i] == x;
        assert Dates(port)[i] == x.date;
      }
    }
    rel
  }

  /** After the inner alignment both cumulative indexes sit on the same
      months, in the same order, so the ratio pairs each month with itself. */
  lemma RelDates(o: seq<Point>, bench: seq<Point>)
    requires forall k :: 0 <= k < |o| ==> o[k].date in Dates(bench)
    ensures Keys(SortPoints(o), PointDate) == Keys(SortPoints(BenchSide(o, bench)), PointDate)
  {
    SortByKeys(o, BenchSide(o, bench), PointDate, IntLe);
  }

  /** The relative series is in date order. */
  lemma RelativeSorted(port: seq<Point>, bench: seq<Point>)
    ensures forall i, j :: 0 <= i < j < |Relative(port, bench)| ==> Relative(port, bench)[i].date <= Relative(port, bench)[j].date
  {
    var o := Shared(port, bench);
    SortPointsSorted(o);
  }

  /** The returns with a parsed date, as points, in their order. */
  function BenchPoints(b: seq<BenchRet>): (s: seq<Point>)
    requires Finite(b)
    ensures |s| <= |b|
    ensures (forall k :: 0 <= k < |b| ==> b[k].date.Some?) ==>
              |s| == |b| && forall k :: 0 <= k < |b| ==> s[k] == Point(b[k].date.value, b[k].ret.v)
  {
    if |b| == 0 then []
    else (if b[0].date.Some? then [Point(b[0].date.value, b[0].ret.v)] else []) + BenchPoints(b[1..])
  }

  /** A point is kept exactly when some return carries its date and value;
      the NaT-dated returns are the ones dropped. */
  lemma {:induction false} BenchPointsMembers(b: seq<BenchRet>)
    requires Finite(b)
    ensures forall p :: p in BenchPoints(b) <==>
              exists k :: 0 <= k < |b| && b[k].date == Some(p.date) && b[k].ret == Num(p.value)
  {
    if |b| > 0 {
      BenchPointsMembers(b[1..]);
      forall p ensures p in BenchPoints(b) <==>
                 exists k :: 0 <= k < |b| && b[k].date == Some(p.date) && b[k].ret == Num(p.value)
      {
        if exists k :: 0 <= k < |b| && b[k].date == Some(p.date) && b[k].ret == Num(p.value) {
          var k :| 0 <= k < |b| && b[k].date == Some(p.date) && b[k].ret == Num(p.value);
          if k > 0 {
            assert b[1..][k - 1] == b[k];
          }
        }
        if p in BenchPoints(b[1..]) {
          var k :| 0 <= k < |b[1..]| && b[1..][k].date == Some(p.date) && b[1..][k].ret == Num(p.value);
          assert b[k + 1] == b[1..][k];
        }
      }
    }
  }

  /** The ratio series of one portfolio file against a fixed benchmark. */
  function RelativeOf(parse: string -> Option<real>, bench: seq<Point>): seq<FileRow> -> seq<RelPoint>
  {
    file => Relative(LoadPort(parse, file), bench)
  }

  /** The ratio series of the first `i` portfolio sizes. */
  function RelativesUpTo(parse: string -> Option<real>, files: seq<seq<FileRow>>, bench: seq<Point>, i: nat)
    : (rels: seq<seq<RelPoint>>)
    requires |files| == |TopNs| && i <= |TopNs|
    ensures |rels| == i
  {
    MapUpTo(RelativeOf(parse, bench), files, i)
  }

  /** Entry `k` is the ratio series of portfolio size `TopNs[k]`. */
  lemma RelativesUpToAt(parse: string -> Option<real>, files: seq<seq<FileRow>>, bench: seq<Point>, i: nat, k: nat)
    requires |files| == |TopNs| && k < i <= |TopNs|
    ensures RelativesUpTo(parse, files, bench, i)[k] == Relative(LoadPort(parse, files[k]), bench)
  {
    MapUpToAt(RelativeOf(parse, bench), files, i, k);
  }

  /** `main` of scripts/relative_performance.py: the benchmark is loaded
      once, then the loop over the portfolio sizes builds one ratio series
      per portfolio. */
  method RelativeAll(parse: string -> Option<real>, files: seq<seq<FileRow>>, t: Levels)
    returns (r: Result<seq<seq<RelPoint>>>)
    requires |files| == |TopNs| && WellFormed(t)
    requires RelativeBench(parse, t).Ok? ==> Finite(RelativeBench(parse, t).value)
    ensures r.Err? <==> |t.names| == 0
    ensures r.Err? ==> r.error == IndexError
    ensures r.Ok? ==> r.value == RelativesUpTo(parse, files, BenchPoints(RelativeBench(parse, t).value), |TopNs|)
  {
    var loaded := RelativeBench(parse, t);
    if loaded.Err? {
      return Err(loaded.error);
    }
    var bench := BenchPoints(loaded.value);
    var rels: seq<seq<RelPoint>> := [];
    for i := 0 to |TopNs|
      invariant rels == RelativesUpTo(parse, files, bench, i)
    {
      assert RelativeOf(parse, bench)(files[i]) == Relative(LoadPort(parse, files[i]), bench);
      rels := rels + [Relative(LoadPort(parse, files[i]), bench)];
    }
    return Ok(rels);
  }
}
