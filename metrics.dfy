/** src/momentum/metrics.py: the annualised statistics of a monthly return
    series and their NaN/inf guards, the common-start alignment, and the
    metrics table with its paired-test p-value label. The power, the square
    root and the t-test are supplied by the caller. */
module Metrics {
  import opened Common
  import opened Sorting
  import opened Series

  /** The floating-point and statistical primitives the statistics call:
      `x ** y`, `np.sqrt`, and the p-value of `scipy.stats.ttest_rel` on two
      paired samples (`None` when scipy returns NaN). */
  datatype Numerics = Numerics(pow: (real, real) -> Float, sqrt: real -> real,
                               ttest: (seq<real>, seq<real>) -> Option<real>)

  /** `cagr` on the non-missing values: the `len / 12`-year root of the gross
      product, minus one. */
  function CagrOf(n: Numerics, xs: seq<real>): (c: Float)
    ensures xs == [] ==> c.NaN?
  {
    if |xs| == 0 then NaN
    else
      var yrs := (|xs| as real) / 12.0;
      MinusOne(n.pow(GrossProd(xs), 1.0 / yrs))
  }

  /** `cagr(r)`: `dropna` first, NaN when nothing is left. */
  function Cagr(n: Numerics, r: seq<Option<real>>): (c: Float)
    ensures Present(r) == [] ==> c.NaN?
  {
    CagrOf(n, Present(r))
  }

  /** Missing months do not count: inserting a NaN anywhere changes nothing. */
  lemma CagrIgnoresMissing(n: Numerics, a: seq<Option<real>>, b: seq<Option<real>>)
    ensures Cagr(n, a + [None] + b) == Cagr(n, a + b)
  {
    PresentAppend(a + [None], b);
    PresentAppend(a, [None]);
    PresentAppend(a, b);
    assert Present([None]) == [];
  }

  /** `ann_vol` on the non-missing values: the sample standard deviation
      (ddof = 1) scaled by `sqrt(12)`, NaN below two observations. */
  function AnnVolOf(n: Numerics, xs: seq<real>): (v: Float)
    ensures v.NaN? <==> |xs| < 2
    ensures v.Num? || v.NaN?
  {
    if |xs| > 1 then Num(n.sqrt(SampleVariance(xs)) * n.sqrt(12.0)) else NaN
  }

  function AnnVol(n: Numerics, r: seq<Option<real>>): (v: Float)
    ensures v.NaN? <==> |Present(r)| < 2
  {
    AnnVolOf(n, Present(r))
  }

  /** `ret / vol if vol and vol > 0 else nan`: a NaN or non-positive
      volatility gives NaN (NaN is truthy but fails `> 0`; 0.0 is falsy). */
  function Ratio(ret: Float, vol: Float): (s: Float)
    ensures !(vol.Num? && vol.v > 0.0) ==> s.NaN?
    ensures vol.Num? && vol.v > 0.0 && ret.Num? ==> s == Num(ret.v / vol.v)
    ensures vol.Num? && vol.v > 0.0 && !ret.Num? ==> s == ret
  {
    if vol.Num? && vol.v > 0.0 then DivPos(ret, vol.v) else NaN
  }

  function SharpeOf(n: Numerics, xs: seq<real>): (s: Float)
    ensures |xs| < 2 ==> s.NaN?
  {
    Ratio(CagrOf(n, xs), AnnVolOf(n, xs))
  }

  /** `sharpe(r)` with `rf = 0`. */
  function Sharpe(n: Numerics, r: seq<Option<real>>): (s: Float)
    ensures |Present(r)| < 2 ==> s.NaN?
    ensures !(AnnVol(n, r).Num? && AnnVol(n, r).v > 0.0) ==> s.NaN?
  {
    SharpeOf(n, Present(r))
  }

  /** `r[r < 0]`. */
  function Negatives(xs: seq<real>): (neg: seq<real>)
    ensures |neg| <= |xs|
    ensures forall x :: x in neg <==> x in xs && x < 0.0
  {
    if |xs| == 0 then []
    else
      assert forall x :: x in xs <==> x == xs[0] || x in xs[1..];
      (if xs[0] < 0.0 then [xs[0]] else []) + Negatives(xs[1..])
  }

  /** `sortino` on the non-missing values: NaN when empty, `+inf` when no
      month is negative, otherwise CAGR over the annualised downside
      deviation (ddof = 1, so a single negative month gives NaN). */
  function SortinoOf(n: Numerics, xs: seq<real>): (s: Float)
    ensures xs == [] ==> s.NaN?
    ensures xs != [] && (forall k :: 0 <= k < |xs| ==> xs[k] >= 0.0) ==> s.PosInf?
  {
    if |xs| == 0 then NaN
    else
      var neg := Negatives(xs);
      if |neg| == 0 then PosInf
      else
        assert neg[0] in xs && neg[0] < 0.0;
        Ratio(CagrOf(n, xs), AnnVolOf(n, neg))
  }

  function Sortino(n: Numerics, r: seq<Option<real>>): (s: Float)
  {
    SortinoOf(n, Present(r))
  }

  /** The outcomes of `sortino`: NaN on an empty series, `+inf` on a
      non-empty one with no negative month, NaN with exactly one negative
      month; and `+inf` otherwise only when the CAGR itself is infinite. */
  lemma SortinoCases(n: Numerics, r: seq<Option<real>>)
    ensures Present(r) == [] ==> Sortino(n, r).NaN?
    ensures Present(r) != [] && (forall x :: x in Present(r) ==> x >= 0.0) ==> Sortino(n, r).PosInf?
    ensures |Negatives(Present(r))| == 1 ==> Sortino(n, r).NaN?
    ensures Sortino(n, r).PosInf? ==>
              Present(r) != [] && ((forall x :: x in Present(r) ==> x >= 0.0) || Cagr(n, r).PosInf?)
  {
    var xs := Present(r);
    var neg := Negatives(xs);
    if xs != [] && neg != [] {
      assert neg[0] in xs && neg[0] < 0.0;
    }
  }

  /** `max()` of a non-empty list of reals. */
  function MaxReal(xs: seq<real>): (m: real)
    requires xs != []
    ensures m in xs && forall k :: 0 <= k < |xs| ==> xs[k] <= m
  {
    if |xs| == 1 then xs[0]
    else
      var m := MaxReal(xs[1..]);
      assert forall k :: 1 <= k < |xs| ==> xs[k] == xs[1..][k - 1];
      if xs[0] >= m then xs[0] else m
  }

  /** `cummax()`: entry `k` is the largest of the first `k + 1` values. */
  function CumMax(xs: seq<real>): (m: seq<real>)
    ensures |m| == |xs|
    ensures forall k :: 0 <= k < |xs| ==> xs[k] <= m[k] && xs[0] <= m[k] && m[k] in xs[..k + 1]
  {
    seq(|xs|, k requires 0 <= k < |xs| =>
      var pre := xs[..k + 1];
      assert pre[0] == xs[0] && pre[k] == xs[k];
      MaxReal(pre))
  }

  /** `min()` of a non-empty list. */
  function MinOf(xs: seq<real>): (m: real)
    requires xs != []
    ensures m in xs && forall k :: 0 <= k < |xs| ==> m <= xs[k]
  {
    if |xs| == 1 then xs[0]
    else
      var m := MinOf(xs[1..]);
      assert forall k :: 1 <= k < |xs| ==> xs[k] == xs[1..][k - 1];
      if xs[0] <= m then xs[0] else m
  }

  /** `x / peak - 1` against a positive running peak: never positive while
      the value is at or below its peak, and at least -1 while the value is
      not negative. */
  function Drawdown(x: real, peak: real): (d: real)
    requires peak > 0.0
    ensures x <= peak ==> d <= 0.0
    ensures x == peak ==> d == 0.0
    ensures x >= 0.0 ==> d >= -1.0
  {
    assert x == peak ==> x / peak == peak / peak == 1.0;
    x / peak - 1.0
  }

  /** The drawdown series `idx / cummax(idx) - 1` of an index whose first
      value is 1 (so every running peak is at least 1): it starts at 0 and is
      never positive. */
  function Drawdowns(idx: seq<real>): (dd: seq<real>)
    requires idx != [] && idx[0] == 1.0
    ensures |dd| == |idx|
    ensures dd[0] == 0.0
    ensures forall k :: 0 <= k < |idx| ==> dd[k] <= 0.0
    ensures forall k :: 0 <= k < |idx| && idx[k] >= 0.0 ==> dd[k] >= -1.0
  {
    var peak := CumMax(idx);
    assert idx[..1] == [idx[0]];
    seq(|idx|, k requires 0 <= k < |idx| => Drawdown(idx[k], peak[k]))
  }

  /** `max_drawdown(r)`: the lowest drawdown of the anchored index, NaN on an
      empty series, never positive otherwise. */
  function MaxDrawdown(r: seq<Obs>): (m: Float)
    ensures r == [] ==> m.NaN?
    ensures r != [] ==> m.Num? && m.v <= 0.0
  {
    var idx := Values(CumIndexAnchored(r, 1.0));
    if |idx| == 0 then NaN else Num(MinOf(Drawdowns(idx)))
  }

  /** Growth factors that are not negative multiply to a non-negative index. */
  lemma {:induction false} GrossProdNonNegative(xs: seq<real>)
    requires forall k :: 0 <= k < |xs| ==> xs[k] >= -1.0
    ensures GrossProd(xs) >= 0.0
    decreases |xs|
  {
    if xs != [] {
      var init := xs[..|xs| - 1];
      GrossProdNonNegative(init);
      var g, f := GrossProd(init), 1.0 + xs[|xs| - 1];
      assert g >= 0.0 && f >= 0.0;
      assert g * f >= 0.0;
    }
  }

  lemma FilledAtLeastMinusOne(r: seq<Obs>)
    requires forall k :: 0 <= k < |r| && r[k].value.Some? ==> r[k].value.value >= -1.0
    ensures forall k :: 0 <= k < |r| ==> Filled(SortObs(r))[k] >= -1.0
  {
    var sorted := SortObs(r);
    forall k | 0 <= k < |r| ensures Filled(sorted)[k] >= -1.0 {
      assert sorted[k] in multiset(sorted);
      assert sorted[k] in r;
    }
  }

  /** When no month loses more than everything, the index never goes
      negative, so no drawdown is worse than -100%. */
  lemma MaxDrawdownAtLeastMinusOne(r: seq<Obs>)
    requires forall k :: 0 <= k < |r| && r[k].value.Some? ==> r[k].value.value >= -1.0
    ensures MaxDrawdown(r).Num? ==> MaxDrawdown(r).v >= -1.0
  {
    if r != [] {
      var f := Filled(SortObs(r));
      FilledAtLeastMinusOne(r);
      var idx := Values(CumIndexAnchored(r, 1.0));
      forall k | 0 <= k < |idx| ensures idx[k] >= 0.0 {
        GrossProdNonNegative(f[..k]);
      }
      var dd := Drawdowns(idx);
      assert MinOf(dd) in dd;
    }
  }

  /** The input of `align_common_start`, and what it returns. */
  datatype Aligned = Aligned(named: seq<Named>, bench: seq<Obs>, start: int)

  /** The earliest dates of the non-empty inputs, the benchmark last. */
  function Starts(series: seq<Named>, bench: seq<Obs>): (st: seq<int>)
    ensures st == [] <==> bench == [] && forall i :: 0 <= i < |series| ==> series[i].series == []
    ensures forall d :: d in st <==>
              (exists i :: 0 <= i < |series| && series[i].series != [] && MinDate(series[i].series) == d)
              || (bench != [] && MinDate(bench) == d)
  {
    if |series| == 0 then (if bench != [] then [MinDate(bench)] else [])
    else
      var rest := Starts(series[1..], bench);
      assert forall i :: 1 <= i < |series| ==> series[i] == series[1..][i - 1];
      (if series[0].series != [] then [MinDate(series[0].series)] else []) + rest
  }

  /** `max()` of a non-empty list. */
  function MaxOf(xs: seq<int>): (m: int)
    requires xs != []
    ensures m in xs && forall k :: 0 <= k < |xs| ==> xs[k] <= m
  {
    if |xs| == 1 then xs[0]
    else
      var m := MaxOf(xs[1..]);
      assert forall k :: 1 <= k < |xs| ==> xs[k] == xs[1..][k - 1];
      if xs[0] >= m then xs[0] else m
  }

  function TrimAll(series: seq<Named>, c: int): (r: seq<Named>)
    ensures |r| == |series|
    ensures forall i :: 0 <= i < |series| ==> r[i] == Named(series[i].name, Since(series[i].series, c))
  {
    seq(|series|, i requires 0 <= i < |series| => Named(series[i].name, Since(series[i].series, c)))
  }

  /** `align_common_start(series_dict, bench)`: every series and the
      benchmark cut to the latest of their first dates; `max([])` raises
      `ValueError` when every input is empty. */
  function AlignCommonStart(series: seq<Named>, bench: seq<Obs>): (r: Result<Aligned>)
    ensures r.Err? <==> bench == [] && forall i :: 0 <= i < |series| ==> series[i].series == []
    ensures r.Err? ==> r.error == ValueError
    ensures r.Ok? ==> |r.value.named| == |series|
                      && forall i :: 0 <= i < |series| ==> r.value.named[i].name == series[i].name
  {
    var st := Starts(series, bench);
    if |st| == 0 then Err(ValueError)
    else
      var c := MaxOf(st);
      Ok(Aligned(TrimAll(series, c), Since(bench, c), c))
  }

  /** The common start is the latest first date: no non-empty input starts
      after it, and some input starts exactly on it. */
  lemma CommonStartIsLatestFirst(series: seq<Named>, bench: seq<Obs>)
    requires AlignCommonStart(series, bench).Ok?
    ensures var c := AlignCommonStart(series, bench).value.start;
            && (forall i :: 0 <= i < |series| && series[i].series != [] ==> MinDate(series[i].series) <= c)
            && (bench != [] ==> MinDate(bench) <= c)
            && ((exists i :: 0 <= i < |series| && series[i].series != [] && MinDate(series[i].series) == c)
                || (bench != [] && MinDate(bench) == c))
  {
    var st := Starts(series, bench);
    var c := MaxOf(st);
    forall i | 0 <= i < |series| && series[i].series != [] ensures MinDate(series[i].series) <= c {
      assert MinDate(series[i].series) in st;
    }
    if bench != [] {
      assert MinDate(bench) in st;
    }
  }

  /** Exactly the entries on or after the common start survive, in every
      series and in the benchmark. */
  lemma AlignKeepsExactlyFromStart(series: seq<Named>, bench: seq<Obs>, i: nat, o: Obs)
    requires AlignCommonStart(series, bench).Ok? && i < |series|
    ensures var a := AlignCommonStart(series, bench).value;
            && (o in a.named[i].series <==> o in series[i].series && o.date >= a.start)
            && (o in a.bench <==> o in bench && o.date >= a.start)
  {
  }

  /** The p-value cell of one row of the metrics table. */
  datatype PLabel =
    | Dash                          // the benchmark against itself: "—"
    | NaNText                       // "NaN": fewer than 3 paired months, or a NaN p-value
    | PValue(p: real, stars: nat)   // `f"{p:.4f}"` followed by `stars` asterisks

  /** The significance stars of src/momentum/metrics.py: `***` below 0.001,
      `**` below 0.01, `*` below 0.05. */
  function Stars(p: real): (s: nat)
    ensures s <= 3
    ensures s == 3 <==> p < 0.001
    ensures s == 2 <==> 0.001 <= p < 0.01
    ensures s == 1 <==> 0.01 <= p < 0.05
    ensures s == 0 <==> p >= 0.05
  {
    if p < 0.001 then 3 else if p < 0.01 then 2 else if p < 0.05 then 1 else 0
  }

  /** A smaller p-value never earns fewer stars. */
  lemma StarsMonotone(p: real, q: real)
    requires p <= q
    ensures Stars(q) <= Stars(p)
  {
  }

  /** The label of a portfolio against the cleaned benchmark. */
  function PLabelOf(n: Numerics, s: seq<Point>, bench: seq<Point>): (l: PLabel)
    ensures |Overlap(s, bench)| < 3 ==> l == NaNText
    ensures l != Dash
    ensures l.PValue? ==> l.stars == Stars(l.p)
  {
    var aligned := InnerAlign(s, bench);
    if |aligned.0| < 3 then NaNText
    else match n.ttest(aligned.0, aligned.1)
      case None => NaNText
      case Some(p) => PValue(p, Stars(p))
  }

  /** One row of the table: name, CAGR, volatility, Sharpe, Sortino, label. */
  datatype MetricsRow = MetricsRow(name: string, ret: Float, vol: Float, sharpe: Float, sortino: Float, p: PLabel)

  /** The position of the first series with a name (`named_series[name]`). */
  function FindNamed(named: seq<Named>, name: string): (r: Option<nat>)
    ensures r.None? <==> forall i :: 0 <= i < |named| ==> named[i].name != name
    ensures r.Some? ==> r.value < |named| && named[r.value].name == name
  {
    if |named| == 0 then None
    else if named[0].name == name then Some(0)
    else match FindNamed(named[1..], name)
      case None => None
      case Some(j) => Some(j + 1)
  }

  /** One row: the statistics of the cleaned series itself, and the label
      against the cleaned benchmark. */
  function RowOf(n: Numerics, entry: Named, benchName: string, bench: seq<Point>): (row: MetricsRow)
    ensures row.name == entry.name
    ensures entry.name == benchName ==> row.p == Dash
    ensures entry.name != benchName ==> row.p == PLabelOf(n, Clean(entry.series), bench)
  {
    var vals := Values(Clean(entry.series));
    MetricsRow(entry.name, CagrOf(n, vals), AnnVolOf(n, vals), SharpeOf(n, vals), SortinoOf(n, vals),
               if entry.name == benchName then Dash else PLabelOf(n, Clean(entry.series), bench))
  }

  /** The row maker of one table: `RowOf` against a fixed benchmark. */
  function RowMaker(n: Numerics, benchName: string, bench: seq<Point>): (f: Named -> MetricsRow)
    ensures forall entry :: f(entry) == RowOf(n, entry, benchName, bench)
  {
    entry => RowOf(n, entry, benchName, bench)
  }

  /** `metrics_table(named_series, bench_name)`, one row per input series in
      input order; `ValueError` when no series carries the benchmark name. */
  function MetricsTableSpec(n: Numerics, named: seq<Named>, benchName: string): (r: Result<seq<MetricsRow>>)
    ensures r.Err? <==> forall i :: 0 <= i < |named| ==> named[i].name != benchName
    ensures r.Err? ==> r.error == ValueError
    ensures r.Ok? ==> |r.value| == |named| && forall i :: 0 <= i < |named| ==> r.value[i].name == named[i].name
  {
    match FindNamed(named, benchName)
    case None => Err(ValueError)
    case Some(b) =>
      var row := RowMaker(n, benchName, Clean(named[b].series));
      var rows := MapUpTo(row, named, |named|);
      assert forall i :: 0 <= i < |named| ==> rows[i].name == named[i].name by {
        forall i | 0 <= i < |named| ensures rows[i].name == named[i].name {
          MapUpToAt(row, named, |named|, i);
        }
      }
      Ok(rows)
  }

  /** `metrics_table`: the loop over the series that appends one row each. */
  method MetricsTable(n: Numerics, named: seq<Named>, benchName: string) returns (r: Result<seq<MetricsRow>>)
    ensures r == MetricsTableSpec(n, named, benchName)
  {
    var b := FindNamed(named, benchName);
    if b.None? {
      return Err(ValueError);
    }
    var bench := Clean(named[b.value].series);
    ghost var row := RowMaker(n, benchName, bench);
    var rows: seq<MetricsRow> := [];
    for i := 0 to |named|
      invariant rows == MapUpTo(row, named, i)
    {
      rows := rows + [RowOf(n, named[i], benchName, bench)];
    }
    return Ok(rows);
  }

  /** The benchmark's own row is labelled "—"; any other row whose series
      shares fewer than three months with the benchmark is labelled "NaN". */
  lemma MetricsTableLabels(n: Numerics, named: seq<Named>, benchName: string, i: nat)
    requires MetricsTableSpec(n, named, benchName).Ok? && i < |named|
    ensures MetricsTableSpec(n, named, benchName).value[i].p == Dash <==> named[i].name == benchName
    ensures var b := FindNamed(named, benchName).value;
            named[i].name != benchName && |Overlap(Clean(named[i].series), Clean(named[b].series))| < 3 ==>
              MetricsTableSpec(n, named, benchName).value[i].p == NaNText
  {
    var b := FindNamed(named, benchName).value;
    MapUpToAt(RowMaker(n, benchName, Clean(named[b].series)), named, |named|, i);
  }

  /** Every statistic of a row is computed on that row's own series,
      independently of the benchmark. */
  lemma MetricsTableStatistics(n: Numerics, named: seq<Named>, benchName: string, i: nat)
    requires MetricsTableSpec(n, named, benchName).Ok? && i < |named|
    ensures var row := MetricsTableSpec(n, named, benchName).value[i];
            var vals := Values(Clean(named[i].series));
            && row.ret == CagrOf(n, vals) && row.vol == AnnVolOf(n, vals)
            && row.sharpe == SharpeOf(n, vals) && row.sortino == SortinoOf(n, vals)
            && (|vals| < 2 ==> row.vol.NaN? && row.sharpe.NaN?)
  {
    var b := FindNamed(named, benchName).value;
    MapUpToAt(RowMaker(n, benchName, Clean(named[b].series)), named, |named|, i);
  }
}
