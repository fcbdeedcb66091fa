/** scripts/pretty_table.py: which summary file a horizon is drawn from, and
    which rows, columns and cell texts its table image shows. */
module PrettyTable {
  import opened Common
  import opened Text
  import opened Universe
  import opened Reports
  import Metrics

  /** `_sig`: the number of stars after a p-value: three below 0.01, two
      below 0.05, one below 0.10, none for NaN. */
  function SigStars(p: Float): (s: nat)
    ensures s <= 3
    ensures p.NaN? || p.PosInf? ==> s == 0
    ensures p.NegInf? ==> s == 3
    ensures p.Num? ==> (s == 3 <==> p.v < 0.01)
    ensures p.Num? ==> (s == 2 <==> 0.01 <= p.v < 0.05)
    ensures p.Num? ==> (s == 1 <==> 0.05 <= p.v < 0.10)
    ensures p.Num? ==> (s == 0 <==> p.v >= 0.10)
  {
    if p.NaN? then 0
    else if FloatLt(p, 0.01) then 3
    else if FloatLt(p, 0.05) then 2
    else if FloatLt(p, 0.10) then 1
    else 0
  }

  /** A smaller p-value never earns fewer stars. */
  lemma SigStarsMonotone(p: real, q: real)
    requires p <= q
    ensures SigStars(Num(q)) <= SigStars(Num(p))
  {
  }

  /** The table image is more generous than src/momentum/metrics.py: every
      p-value gets at least the stars it gets there, and strictly more
      between 0.001 and 0.10. */
  lemma SigStarsAtLeastMetrics(p: real)
    ensures Metrics.Stars(p) <= SigStars(Num(p))
    ensures 0.001 <= p < 0.10 ==> Metrics.Stars(p) < SigStars(Num(p))
  {
  }

  function StarText(k: nat): (s: string)
    ensures |s| == k && forall i :: 0 <= i < k ==> s[i] == '*'
  {
    seq(k, _ => '*')
  }

  /** The files `_find_summary_path` tries, in order: the horizon's
      performance then metrics summary, and for 6 months also the two
      generic names. */
  function SummaryCandidates(L: nat): (c: seq<string>)
    ensures |c| == if L == 6 then 4 else 2
    ensures c[0] == PerfPath(L) && c[1] == MetricsPath(L)
  {
    [PerfPath(L), MetricsPath(L)] +
    (if L == 6 then ["results/performance_summary.csv", "results/metrics_summary.csv"] else [])
  }

  /** `_find_summary_path`: the first candidate that exists, or
      `FileNotFoundError` when none does. `isFile` stands for `Path.exists`. */
  method FindSummaryPath(L: nat, isFile: string -> bool) returns (r: Result<string>)
    ensures r.Ok? ==> exists k :: && 0 <= k < |SummaryCandidates(L)|
                                  && r.value == SummaryCandidates(L)[k] && isFile(r.value)
                                  && forall j :: 0 <= j < k ==> !isFile(SummaryCandidates(L)[j])
    ensures r.Err? <==> forall k :: 0 <= k < |SummaryCandidates(L)| ==> !isFile(SummaryCandidates(L)[k])
    ensures r.Err? ==> r.error == FileNotFound
  {
    // Both branches of the suffix expression give "_6m" for 6.
    var suffix := "_" + NatToString(L) + "m";
    var candidates := ["results/performance_summary" + suffix + ".csv",
                       "results/metrics_summary" + suffix + ".csv"];
    if L == 6 {
      candidates := candidates + ["results/performance_summary.csv", "results/metrics_summary.csv"];
    }
    assert candidates[0] == PerfPath(L) && candidates[1] == MetricsPath(L);
    assert candidates == SummaryCandidates(L);
    for i := 0 to |candidates|
      invariant forall j :: 0 <= j < i ==> !isFile(candidates[j])
    {
      if isFile(candidates[i]) {
        return Ok(candidates[i]);
      }
    }
    return Err(FileNotFound);
  }

  /** `keep_rows`: the "Top N" labels present, in the order of TOPNS, then
      "Benchmark" when present. */
  function KeepRows(f: Frame): (r: seq<string>)
    ensures forall x :: x in r <==> x in RowLabels(f) && (x in TopLabels() || x == "Benchmark")
    ensures "Benchmark" in RowLabels(f) <==> |r| > 0 && r[|r| - 1] == "Benchmark"
    ensures forall i :: 0 <= i < |r| - 1 ==> r[i] in TopLabels()
    ensures forall i, j :: 0 <= i < j < |r| ==> r[i] != r[j]
  {
    var tops := PresentIn(TopLabels(), RowLabels(f));
    TopLabelsDistinct();
    PresentInDistinct(TopLabels(), RowLabels(f));
    assert "Benchmark" !in TopLabels() by {
      forall i | 0 <= i < |TopLabels()| ensures TopLabels()[i] != "Benchmark" {
        assert TopLabels()[i][..4] == "Top ";
      }
    }
    tops + (if "Benchmark" in RowLabels(f) then ["Benchmark"] else [])
  }

  /** The column order of the table, and the four numeric columns of it. */
  const ColsOrder: seq<string> := ["Ann.Return", "Ann.Vol", "Sharpe", "Sortino", "p_HAC"]
  const MetricCols: seq<string> := ["Ann.Return", "Ann.Vol", "Sharpe", "Sortino"]

  /** The heading that replaces `p_HAC` in the image. */
  const PHeading: string := "p-HAC (vs BM)"

  /** The columns of the image: the kept columns with `p_HAC` moved to the
      end under its display heading. */
  function ShownColumns(f: Frame): (c: seq<string>)
  {
    PresentIn(MetricCols, ColumnSet(f)) + (if "p_HAC" in f.columns then [PHeading] else [])
  }

  /** `cols` keeps the fixed order; its last entry is `p_HAC` exactly when
      that column exists, so the image columns are `cols` with it renamed. */
  lemma KeptColumns(f: Frame)
    ensures var cols := PresentIn(ColsOrder, ColumnSet(f));
            && cols == PresentIn(MetricCols, ColumnSet(f)) + (if "p_HAC" in f.columns then ["p_HAC"] else [])
            && |ShownColumns(f)| == |cols|
            && forall x :: x in ShownColumns(f) <==> (x in cols && x != "p_HAC") || (x == PHeading && "p_HAC" in cols)
  {
    assert ColsOrder == MetricCols + ["p_HAC"];
    PresentInAppend(MetricCols, ["p_HAC"], ColumnSet(f));
    assert PresentIn(["p_HAC"], ColumnSet(f)) == if "p_HAC" in f.columns then ["p_HAC"] else [];
    assert "p_HAC" !in PresentIn(MetricCols, ColumnSet(f));
  }

  /** The p-value a cell holds for `pd.to_numeric(..., errors="coerce")`. */
  function NumericValue(parse: string -> Option<real>, c: Cell): (x: Float)
    ensures c.Number? ==> x == c.f
    ensures c.Str? ==> (x.NaN? <==> CoerceRaw(parse, c.s).None?)
  {
    match c
    case Number(f) => f
    case Str(s) => match CoerceRaw(parse, s) { case Some(v) => Num(v) case None => NaN }
  }

  /** One cell of the p column: the number with its stars, the original
      text when it is not a number, empty when missing. `fmt` is `{:.4f}`. */
  function PText(parse: string -> Option<real>, fmt: Float -> string, c: Cell): (s: string)
    ensures !NumericValue(parse, c).NaN? ==>
              s == fmt(NumericValue(parse, c)) + StarText(SigStars(NumericValue(parse, c)))
    ensures c == Number(NaN) ==> s == ""
    ensures c.Str? && NumericValue(parse, c).NaN? ==> s == c.s
  {
    var x := NumericValue(parse, c);
    if !x.NaN? then fmt(x) + StarText(SigStars(x))
    else match c
      case Number(_) => ""
      case Str(t) => t
  }

  /** A numeric column under `{:.4f}`: empty for NaN, and `ValueError` for a
      text cell, which the float format cannot take. */
  function FormatColumn(fmt: Float -> string, cells: seq<Cell>): (r: Result<seq<string>>)
    ensures r.Err? <==> exists i :: 0 <= i < |cells| && cells[i].Str?
    ensures r.Err? ==> r.error == ValueError
    ensures r.Ok? ==> |r.value| == |cells|
    ensures r.Ok? ==> forall i :: 0 <= i < |cells| ==>
              cells[i].Number? && r.value[i] == (if cells[i].f.NaN? then "" else fmt(cells[i].f))
  {
    if exists i :: 0 <= i < |cells| && cells[i].Str? then Err(ValueError)
    else Ok(seq(|cells|, i requires 0 <= i < |cells| => if cells[i].f.NaN? then "" else fmt(cells[i].f)))
  }

  /** Column `c` of `df.loc[rows, ...]`. */
  function Column(f: Frame, rows: seq<string>, c: string): (cells: seq<Cell>)
    requires FrameRect(f) && c in ColumnSet(f)
    requires forall i :: 0 <= i < |rows| ==> rows[i] in RowLabels(f)
    ensures |cells| == |rows|
    ensures forall i :: 0 <= i < |rows| ==> cells[i] == At(f, rows[i], c)
  {
    seq(|rows|, i requires 0 <= i < |rows| => At(f, rows[i], c))
  }

  /** The image table, column by column. */
  datatype Plot = Plot(index: seq<string>, columns: seq<string>, data: seq<seq<string>>)

  /** The loop of `_format_for_plot` over the p column. */
  method FormatPValues(raw: seq<Cell>, parse: string -> Option<real>, fmt: Float -> string)
    returns (formatted: seq<string>)
    ensures |formatted| == |raw|
    ensures forall k :: 0 <= k < |raw| ==> formatted[k] == PText(parse, fmt, raw[k])
  {
    formatted := [];
    for i := 0 to |raw|
      invariant |formatted| == i
      invariant forall k :: 0 <= k < i ==> formatted[k] == PText(parse, fmt, raw[k])
    {
      formatted := formatted + [PText(parse, fmt, raw[i])];
    }
  }

  /** The numeric formats applied in the order of `names`: each present
      column rendered, or the `ValueError` of a column holding text. */
  function FormatAll(f: Frame, rows: seq<string>, names: seq<string>, fmt: Float -> string)
    : (r: Result<(seq<string>, seq<seq<string>>)>)
    requires FrameRect(f)
    requires forall i :: 0 <= i < |rows| ==> rows[i] in RowLabels(f)
    ensures r.Err? ==> r.error == ValueError
    decreases |names|
  {
    if |names| == 0 then Ok(([], []))
    else
      var c := names[0];
      var rest := FormatAll(f, rows, names[1..], fmt);
      if c !in f.columns then rest
      else match FormatColumn(fmt, Column(f, rows, c))
        case Err(_) => Err(ValueError)
        case Ok(strs) => Then(([c], [strs]), rest)
  }

  /** The formats fail exactly when a present column holds text; otherwise
      they give the present columns, in order, each rendered. */
  lemma {:induction false} FormatAllSpec(f: Frame, rows: seq<string>, names: seq<string>, fmt: Float -> string)
    requires FrameRect(f)
    requires forall i :: 0 <= i < |rows| ==> rows[i] in RowLabels(f)
    ensures var r := FormatAll(f, rows, names, fmt);
            && (r.Err? <==> exists c :: c in names && c in f.columns && FormatColumn(fmt, Column(f, rows, c)).Err?)
            && (r.Ok? ==> && r.value.0 == PresentIn(names, ColumnSet(f))
                          && |r.value.1| == |r.value.0|
                          && forall k :: 0 <= k < |r.value.0| ==>
                               r.value.1[k] == FormatColumn(fmt, Column(f, rows, r.value.0[k])).value)
    decreases |names|
  {
    if |names| > 0 {
      var c := names[0];
      assert forall x :: x in names <==> x == c || x in names[1..];
      FormatAllSpec(f, rows, names[1..], fmt);
      var rest := FormatAll(f, rows, names[1..], fmt);
      if c in f.columns && FormatColumn(fmt, Column(f, rows, c)).Ok? && rest.Ok? {
        var r := FormatAll(f, rows, names, fmt);
        assert r.value.0 == [c] + rest.value.0;
        assert r.value.1 == [FormatColumn(fmt, Column(f, rows, c)).value] + rest.value.1;
        assert ([c] + rest.value.0)[1..] == rest.value.0;
      }
    }
  }

  /** `done` followed by what the remaining formats give. */
  function Then(done: (seq<string>, seq<seq<string>>), rest: Result<(seq<string>, seq<seq<string>>)>)
    : Result<(seq<string>, seq<seq<string>>)>
  {
    match rest
    case Err(e) => Err(e)
    case Ok((cols, data)) => Ok((done.0 + cols, done.1 + data))
  }

  lemma ThenAssoc(a: (seq<string>, seq<seq<string>>), b: (seq<string>, seq<seq<string>>),
                  x: Result<(seq<string>, seq<seq<string>>)>)
    ensures Then(a, Then(b, x)) == Then((a.0 + b.0, a.1 + b.1), x)
    ensures Then(([], []), x) == x
    ensures Then(a, Ok(([], []))) == Ok(a)
  {
    if x.Ok? {
      assert a.0 + (b.0 + x.value.0) == (a.0 + b.0) + x.value.0;
      assert a.1 + (b.1 + x.value.1) == (a.1 + b.1) + x.value.1;
      assert [] + x.value.0 == x.value.0 && [] + x.value.1 == x.value.1;
    }
    assert a.0 + [] == a.0 && a.1 + [] == a.1;
  }

  /** The loop of `_format_for_plot` over the numeric formats. */
  method FormatMetrics(f: Frame, rows: seq<string>, names: seq<string>, fmt: Float -> string)
    returns (r: Result<(seq<string>, seq<seq<string>>)>)
    requires FrameRect(f)
    requires forall i :: 0 <= i < |rows| ==> rows[i] in RowLabels(f)
    ensures r == FormatAll(f, rows, names, fmt)
  {
    var cols: seq<string> := [];
    var data: seq<seq<string>> := [];
    assert names[0..] == names;
    ThenAssoc(([], []), ([], []), FormatAll(f, rows, names, fmt));
    for j := 0 to |names|
      invariant FormatAll(f, rows, names, fmt) == Then((cols, data), FormatAll(f, rows, names[j..], fmt))
    {
      var c := names[j];
      assert names[j..][0] == c && names[j..][1..] == names[j + 1..];
      var rest := FormatAll(f, rows, names[j + 1..], fmt);
      if c in f.columns {
        match FormatColumn(fmt, Column(f, rows, c))
        case Err(_) =>
          return Err(ValueError);
        case Ok(strs) =>
          ThenAssoc((cols, data), ([c], [strs]), rest);
          cols := cols + [c];
          data := data + [strs];
      }
    }
    assert names[|names|..] == [];
    ThenAssoc((cols, data), ([], []), Ok(([], [])));
    return Ok((cols, data));
  }

  /** `_format_for_plot`: selects the kept rows and columns, writes the p
      column as text and moves it last, then renders the numeric columns. */
  method FormatForPlot(f: Frame, parse: string -> Option<real>, fmt: Float -> string) returns (r: Result<Plot>)
    requires FrameRect(f)
    ensures r.Err? <==> exists c :: c in MetricCols && c in f.columns && FormatColumn(fmt, Column(f, KeepRows(f), c)).Err?
    ensures r.Err? ==> r.error == ValueError
    ensures r.Ok? ==> && r.value.index == KeepRows(f)
                      && r.value.columns == ShownColumns(f)
                      && |r.value.data| == |r.value.columns|
    ensures r.Ok? ==> forall k :: 0 <= k < |PresentIn(MetricCols, ColumnSet(f))| ==>
                        r.value.data[k] == FormatColumn(fmt, Column(f, KeepRows(f), PresentIn(MetricCols, ColumnSet(f))[k])).value
    ensures r.Ok? && "p_HAC" in f.columns ==>
              var last := r.value.data[|r.value.data| - 1];
              && |last| == |KeepRows(f)|
              && forall i :: 0 <= i < |KeepRows(f)| ==> last[i] == PText(parse, fmt, At(f, KeepRows(f)[i], "p_HAC"))
  {
    var rows := KeepRows(f);
    var pText: seq<string> := [];
    if "p_HAC" in f.columns {
      pText := FormatPValues(Column(f, rows, "p_HAC"), parse, fmt);
    }
    var metrics := FormatMetrics(f, rows, MetricCols, fmt);
    FormatAllSpec(f, rows, MetricCols, fmt);
    if metrics.Err? {
      return Err(ValueError);
    }
    var (cols, data) := metrics.value;
    if "p_HAC" in f.columns {
      cols := cols + [PHeading];
      data := data + [pText];
    }
    return Ok(Plot(rows, cols, data));
  }
}
