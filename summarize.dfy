/** scripts/summarize_results.py: `load_perf` (one horizon's summary,
    normalised and cut to the Top-N rows and three metrics), `wide_metric`
    (one metric as a Top-N by horizon matrix) and `bestN_table` (the Top-N
    with the largest metric at each horizon). */
module SummarizeResults {
  import opened Common
  import opened Text
  import opened Universe
  import opened Reports

  /** The columns `load_perf` requires and returns, in this order. */
  const Needed: seq<string> := ["Ann.Return", "Ann.Vol", "Sharpe"]

  predicate HasNeeded(f: Frame) {
    "Ann.Return" in f.columns && "Ann.Vol" in f.columns && "Sharpe" in f.columns
  }

  /** The file `load_perf(L)` reads: the performance summary when it
      exists, else the metrics summary. `isFile` stands for `Path.exists`. */
  function SourceFile(L: nat, isFile: string -> bool): Option<string>
  {
    if isFile(PerfPath(L)) then Some(PerfPath(L))
    else if isFile(MetricsPath(L)) then Some(MetricsPath(L))
    else None
  }

  /** `df.loc[present, ["Ann.Return", "Ann.Vol", "Sharpe"]]` for labels that
      are all present. */
  function Pick(f: Frame, present: seq<string>): (g: Frame)
    requires FrameRect(f) && HasNeeded(f)
    requires forall i :: 0 <= i < |present| ==> present[i] in RowLabels(f)
    ensures FrameRect(g) && g.columns == Needed && |g.index| == |present|
    ensures forall i :: 0 <= i < |present| ==>
              && g.index[i] == Label(present[i])
              && g.rows[i] == [At(f, present[i], "Ann.Return"), At(f, present[i], "Ann.Vol"), At(f, present[i], "Sharpe")]
  {
    Frame(seq(|present|, i requires 0 <= i < |present| => Label(present[i])),
          Needed,
          seq(|present|, i requires 0 <= i < |present| =>
            [At(f, present[i], "Ann.Return"), At(f, present[i], "Ann.Vol"), At(f, present[i], "Sharpe")]))
  }

  /** `load_perf(L)`: `FileNotFoundError` when neither summary exists; the
      file read through `read` (standing for `pd.read_csv`) and normalised;
      `ValueError` when one of the three metrics is missing or when no
      "Top N" row is present; otherwise the Top-N rows in TOPNS order and
      the three metric columns. */
  function LoadPerf(L: nat, isFile: string -> bool, read: string -> Sheet, show: Float -> string): (r: Result<Frame>)
    ensures r == Err(FileNotFound) <==> !isFile(PerfPath(L)) && !isFile(MetricsPath(L))
    ensures r.Err? ==> r.error == FileNotFound || r.error == ValueError
    ensures r.Ok? ==> FrameRect(r.value) && r.value.columns == Needed && |r.value.index| > 0
  {
    match SourceFile(L, isFile)
    case None => Err(FileNotFound)
    case Some(path) =>
      var f := NormalizeCols(show, read(path));
      if !HasNeeded(f) then Err(ValueError)
      else
        var present := PresentIn(TopLabels(), RowLabels(f));
        if |present| == 0 then Err(ValueError) else Ok(Pick(f, present))
  }

  /** The normalised frame of the file `load_perf(L)` reads. */
  function SourceFrame(L: nat, isFile: string -> bool, read: string -> Sheet, show: Float -> string): (f: Frame)
    requires SourceFile(L, isFile).Some?
  {
    NormalizeCols(show, read(SourceFile(L, isFile).value))
  }

  /** Some "Top N" label of TOPNS labels a row. */
  predicate AnyTopRow(f: Frame) {
    exists i :: 0 <= i < |TopNs| && TopLabel(TopNs[i]) in RowLabels(f)
  }

  lemma TopLabelsAt(i: nat)
    requires i < |TopNs|
    ensures TopLabels()[i] == TopLabel(TopNs[i])
  {
  }

  /** Once a file is found, the performance summary first: `ValueError`
      exactly when a metric is missing after normalisation or when the file
      has no "Top N" row of TOPNS. */
  lemma LoadPerfErrors(L: nat, isFile: string -> bool, read: string -> Sheet, show: Float -> string)
    requires isFile(PerfPath(L)) || isFile(MetricsPath(L))
    ensures SourceFile(L, isFile).value == (if isFile(PerfPath(L)) then PerfPath(L) else MetricsPath(L))
    ensures var f := SourceFrame(L, isFile, read, show);
            LoadPerf(L, isFile, read, show) == Err(ValueError) <==> !HasNeeded(f) || !AnyTopRow(f)
  {
    AnyTopRowPresent(SourceFrame(L, isFile, read, show));
  }

  /** Some label of TOPNS labels a row exactly when `present` is not empty. */
  lemma AnyTopRowPresent(f: Frame)
    ensures AnyTopRow(f) <==> |PresentIn(TopLabels(), RowLabels(f))| > 0
  {
    var present := PresentIn(TopLabels(), RowLabels(f));
    if |present| > 0 {
      assert present[0] in TopLabels();
      var i :| 0 <= i < |TopLabels()| && TopLabels()[i] == present[0];
      TopLabelsAt(i);
    }
    if AnyTopRow(f) {
      var i :| 0 <= i < |TopNs| && TopLabel(TopNs[i]) in RowLabels(f);
      TopLabelsAt(i);
      assert TopLabels()[i] in present;
    }
  }

  /** A frame as `load_perf` returns it: the three metric columns, and row
      labels that are distinct "Top N" labels of TOPNS. */
  predicate Loaded(g: Frame) {
    && FrameRect(g) && g.columns == Needed
    && (forall i :: 0 <= i < |g.index| ==> g.index[i].Label? && g.index[i].s in TopLabels())
    && (forall i, j :: 0 <= i < j < |g.index| ==> g.index[i] != g.index[j])
  }

  /** What `load_perf` returns: one row per "Top N" label of TOPNS that
      labels a row of the file, in TOPNS order (`PresentIn`), with the
      file's three metric cells. */
  lemma LoadPerfFrame(L: nat, isFile: string -> bool, read: string -> Sheet, show: Float -> string)
    requires LoadPerf(L, isFile, read, show).Ok?
    ensures var g := LoadPerf(L, isFile, read, show).value;
            var f := SourceFrame(L, isFile, read, show);
            var present := PresentIn(TopLabels(), RowLabels(f));
            && FrameRect(f) && HasNeeded(f) && |g.index| == |present|
            && forall i :: 0 <= i < |present| ==>
                 && g.index[i] == Label(present[i])
                 && g.rows[i] == [At(f, present[i], "Ann.Return"), At(f, present[i], "Ann.Vol"), At(f, present[i], "Sharpe")]
  {
    var f := SourceFrame(L, isFile, read, show);
    assert LoadPerf(L, isFile, read, show) == Ok(Pick(f, PresentIn(TopLabels(), RowLabels(f))));
  }

  lemma LoadPerfLoaded(L: nat, isFile: string -> bool, read: string -> Sheet, show: Float -> string)
    requires LoadPerf(L, isFile, read, show).Ok?
    ensures Loaded(LoadPerf(L, isFile, read, show).value)
  {
    var g := LoadPerf(L, isFile, read, show).value;
    var f := SourceFrame(L, isFile, read, show);
    var present := PresentIn(TopLabels(), RowLabels(f));
    LoadPerfFrame(L, isFile, read, show);
    TopLabelsDistinct();
    PresentInDistinct(TopLabels(), RowLabels(f));
    forall i | 0 <= i < |g.index| ensures g.index[i].Label? && g.index[i].s in TopLabels() {
      assert present[i] in present;
    }
  }

  /** ---- `wide_metric` ---- */

  /** A loop over `xs` that ends at the first exception: one value per
      element, or the first error. */
  function Gather<A, T>(step: A -> Result<T>, xs: seq<A>, k: nat): Result<seq<T>>
    requires k <= |xs|
  {
    if k == 0 then Ok([])
    else match Gather(step, xs, k - 1)
      case Err(e) => Err(e)
      case Ok(acc) =>
        match step(xs[k - 1])
        case Err(e) => Err(e)
        case Ok(v) => Ok(acc + [v])
  }

  /** The loop gets through exactly when every step does, and keeps every
      step's value in order. */
  lemma {:induction false} GatherOk<A, T>(step: A -> Result<T>, xs: seq<A>, k: nat)
    requires k <= |xs|
    ensures Gather(step, xs, k).Ok? <==> forall i :: 0 <= i < k ==> step(xs[i]).Ok?
    ensures Gather(step, xs, k).Ok? ==>
              |Gather(step, xs, k).value| == k &&
              forall i :: 0 <= i < k ==> Gather(step, xs, k).value[i] == step(xs[i]).value
  {
    if k > 0 {
      GatherOk(step, xs, k - 1);
      var prev := Gather(step, xs, k - 1);
      if prev.Ok? && step(xs[k - 1]).Ok? {
        var acc := prev.value;
        var last := step(xs[k - 1]).value;
        assert Gather(step, xs, k).value == acc + [last];
        forall i | 0 <= i < k ensures Gather(step, xs, k).value[i] == step(xs[i]).value {
          if i < k - 1 {
            assert (acc + [last])[i] == acc[i];
          } else {
            assert (acc + [last])[i] == last;
          }
        }
      }
    }
  }

  /** Steps that all succeed with values `vs` gather exactly `vs`. */
  lemma GatherAll<A, T>(step: A -> Result<T>, xs: seq<A>, k: nat, vs: seq<T>)
    requires k <= |xs| && |vs| == k
    requires forall i :: 0 <= i < k ==> step(xs[i]) == Ok(vs[i])
    ensures Gather(step, xs, k) == Ok(vs)
  {
    GatherOk(step, xs, k);
    assert Gather(step, xs, k).value == vs;
  }

  /** The first failing step decides the error. */
  lemma {:induction false} GatherFirstError<A, T>(step: A -> Result<T>, xs: seq<A>, k: nat, i: nat)
    requires i < k <= |xs|
    requires step(xs[i]).Err? && forall j :: 0 <= j < i ==> step(xs[j]).Ok?
    ensures Gather(step, xs, k) == Err(step(xs[i]).error)
  {
    if k - 1 > i {
      GatherFirstError(step, xs, k - 1, i);
    } else {
      GatherOk(step, xs, i);
    }
  }

  /** Once a step has failed, later steps do not run. */
  lemma {:induction false} GatherErrorSticks<A, T>(step: A -> Result<T>, xs: seq<A>, k: nat, m: nat)
    requires k <= m <= |xs| && Gather(step, xs, k).Err?
    ensures Gather(step, xs, m) == Gather(step, xs, k)
    decreases m - k
  {
    if k < m {
      GatherErrorSticks(step, xs, k, m - 1);
    }
  }

  /** Column `j` with its row labels. */
  function LabelledCells(g: Frame, j: nat): (c: seq<(string, Cell)>)
    requires FrameRect(g) && j < |g.columns|
    requires forall i :: 0 <= i < |g.index| ==> g.index[i].Label?
    ensures |c| == |g.index|
    ensures forall i :: 0 <= i < |g.index| ==> c[i] == (g.index[i].s, g.rows[i][j])
  {
    seq(|g.index|, i requires 0 <= i < |g.index| => (g.index[i].s, g.rows[i][j]))
  }

  /** `int(x.split()[1])` for the label of one cell. */
  function Relabel(p: (string, Cell)): Result<(int, Cell)>
  {
    match ParseTopLabel(p.0)
    case Err(e) => Err(e)
    case Ok(size) => Ok((size, p.1))
  }

  /** A label of TOPNS is read back as its size. */
  lemma TopLabelsParse(x: string)
    requires x in TopLabels()
    ensures ParseTopLabel(x).Ok? && ParseTopLabel(x).value in TopNs
    ensures ParseTopLabel(x).value >= 0 && TopLabel(ParseTopLabel(x).value) == x
  {
    var i :| 0 <= i < |TopLabels()| && TopLabels()[i] == x;
    TopLabelsAt(i);
    ParseTopLabelRoundTrip(TopNs[i]);
  }

  /** `df[metric]`, then `s.index = [int(x.split()[1]) for x in s.index]`:
      `KeyError` for a missing column, then the first label that does not
      read as a number raises. */
  function MetricSeries(g: Frame, metric: string): Result<seq<(int, Cell)>>
    requires Loaded(g)
  {
    match IndexOf(g.columns, metric)
    case None => Err(KeyError)
    case Some(j) => Gather(Relabel, LabelledCells(g, j), |g.index|)
  }

  /** On a loaded frame only a missing metric raises: row `i` becomes the
      size its label names, with its cell of the metric. */
  lemma MetricSeriesLoaded(g: Frame, metric: string)
    requires Loaded(g)
    ensures MetricSeries(g, metric).Err? <==> metric !in Needed
    ensures MetricSeries(g, metric).Err? ==> MetricSeries(g, metric).error == KeyError
    ensures MetricSeries(g, metric).Ok? ==>
              var j := IndexOf(Needed, metric).value;
              var s := MetricSeries(g, metric).value;
              && |s| == |g.index|
              && forall i :: 0 <= i < |s| ==> s[i].0 >= 0 && TopLabel(s[i].0) == g.index[i].s && s[i].1 == g.rows[i][j]
  {
    if metric in Needed {
      var j := IndexOf(Needed, metric).value;
      var c := LabelledCells(g, j);
      forall i | 0 <= i < |c| ensures Relabel(c[i]).Ok? && Relabel(c[i]).value.0 >= 0 && TopLabel(Relabel(c[i]).value.0) == c[i].0 {
        TopLabelsParse(g.index[i].s);
      }
      GatherOk(Relabel, c, |c|);
    }
  }

  /** One step of the loop of `wide_metric`: load, then select. */
  function SeriesFor(metric: string, isFile: string -> bool, read: string -> Sheet, show: Float -> string, L: nat): Result<seq<(int, Cell)>>
  {
    match LoadPerf(L, isFile, read, show)
    case Err(e) => Err(e)
    case Ok(g) =>
      LoadPerfLoaded(L, isFile, read, show);
      MetricSeries(g, metric)
  }

  function SeriesStep(metric: string, isFile: string -> bool, read: string -> Sheet, show: Float -> string): (step: nat -> Result<seq<(int, Cell)>>)
  {
    (L: nat) => SeriesFor(metric, isFile, read, show, L)
  }

  /** The matrix of one metric: rows the TOPNS sizes, columns the horizon labels. */
  datatype Wide = Wide(sizes: seq<nat>, columns: seq<string>, cells: seq<seq<Cell>>)

  /** `f"{L}m"`. */
  function HorizonLabel(L: nat): string
  {
    NatToString(L) + "m"
  }

  function HorizonLabels(): (ls: seq<string>)
    ensures |ls| == |Horizons|
  {
    seq(|Horizons|, h requires 0 <= h < |Horizons| => HorizonLabel(Horizons[h]))
  }

  /** Some pair of the series has size `n`. */
  predicate Has(s: seq<(int, Cell)>, n: int) {
    exists k :: 0 <= k < |s| && s[k].0 == n
  }

  /** The cell of the first pair with size `n`, NaN when there is none (the
      outer join of `concat`). */
  function CellOf(s: seq<(int, Cell)>, n: int): Cell
  {
    if |s| == 0 then Number(NaN)
    else if s[0].0 == n then s[0].1
    else CellOf(s[1..], n)
  }

  /** Size `n` is in no series. */
  predicate Absent(cols: seq<seq<(int, Cell)>>, n: int) {
    forall h :: 0 <= h < |cols| ==> !Has(cols[h], n)
  }

  /** `pd.concat(frames, axis=1).loc[ns]` and the new column labels:
      `KeyError` when a size of `ns` is in no series. */
  function Reindex(cols: seq<seq<(int, Cell)>>, ns: seq<nat>): (r: Result<Wide>)
  {
    if exists i :: 0 <= i < |ns| && Absent(cols, ns[i]) then Err(KeyError)
    else Ok(Wide(ns, HorizonLabels(),
                 seq(|ns|, i requires 0 <= i < |ns| =>
                   seq(|cols|, h requires 0 <= h < |cols| => CellOf(cols[h], ns[i])))))
  }

  /** `wide_metric(metric)` as a function of the files. */
  function WideSpec(metric: string, isFile: string -> bool, read: string -> Sheet, show: Float -> string): Result<Wide>
  {
    var step := SeriesStep(metric, isFile, read, show);
    match Gather(step, Horizons, |Horizons|)
    case Err(e) => Err(e)
    case Ok(cols) => Reindex(cols, TopNs)
  }

  /** The body of the loop of `wide_metric` for horizon `L`. */
  method LoadSeries(metric: string, isFile: string -> bool, read: string -> Sheet, show: Float -> string, L: nat)
    returns (s: Result<seq<(int, Cell)>>)
    ensures s == SeriesFor(metric, isFile, read, show, L)
  {
    var loaded := LoadPerf(L, isFile, read, show);
    if loaded.Err? {
      return Err(loaded.error);
    }
    LoadPerfLoaded(L, isFile, read, show);
    s := MetricSeries(loaded.value, metric);
  }

  /** `wide_metric(metric)`: its loop over HORIZONS, then the join. */
  method WideMetric(metric: string, isFile: string -> bool, read: string -> Sheet, show: Float -> string)
    returns (r: Result<Wide>)
    ensures r == WideSpec(metric, isFile, read, show)
  {
    ghost var step := SeriesStep(metric, isFile, read, show);
    var frames: seq<seq<(int, Cell)>> := [];
    for k := 0 to |Horizons|
      invariant Gather(step, Horizons, k) == Ok(frames)
    {
      var s := LoadSeries(metric, isFile, read, show, Horizons[k]);
      assert step(Horizons[k]) == s;
      if s.Err? {
        GatherErrorSticks(step, Horizons, k + 1, |Horizons|);
        return Err(s.error);
      }
      frames := frames + [s.value];
    }
    r := Reindex(frames, TopNs);
  }

  /** ---- What `wide_metric` computes ---- */

  /** The pair of size `n` is the first one, when the sizes before it differ. */
  lemma {:induction false} CellOfFirst(s: seq<(int, Cell)>, n: int, k: nat)
    requires k < |s| && s[k].0 == n
    requires forall k' :: 0 <= k' < k ==> s[k'].0 != n
    ensures CellOf(s, n) == s[k].1
  {
    if k > 0 {
      CellOfFirst(s[1..], n, k - 1);
    }
  }

  /** No pair of size `n`: the join leaves NaN. */
  lemma {:induction false} CellOfMissing(s: seq<(int, Cell)>, n: int)
    requires !Has(s, n)
    ensures CellOf(s, n) == Number(NaN)
  {
    if |s| > 0 {
      assert !Has(s[1..], n) by {
        forall k | 0 <= k < |s[1..]| ensures s[1..][k].0 != n {
          assert s[1..][k] == s[k + 1];
        }
      }
      CellOfMissing(s[1..], n);
    }
  }

  /** The cell of size `n` in horizon frame `g`: the frame's cell of the
      metric in row "Top n", or NaN when that row is missing. */
  function LoadedCell(g: Frame, metric: string, n: nat): Cell
    requires Loaded(g) && metric in Needed
  {
    if TopLabel(n) in RowLabels(g) then At(g, TopLabel(n), metric) else Number(NaN)
  }

  /** Relabelled series of a loaded frame: size `n` is present exactly when
      row "Top n" is, and carries that row's cell. */
  lemma SeriesCell(g: Frame, metric: string, n: nat)
    requires Loaded(g) && metric in Needed
    ensures Has(SeriesOf(g, metric), n) <==> TopLabel(n) in RowLabels(g)
    ensures CellOf(SeriesOf(g, metric), n) == LoadedCell(g, metric, n)
  {
    var s := SeriesOf(g, metric);
    SeriesPositions(g, metric, n);
    if TopLabel(n) in RowLabels(g) {
      var k := IndexOf(g.index, Label(TopLabel(n))).value;
      CellOfFirst(s, n, k);
    } else {
      CellOfMissing(s, n);
    }
  }

  /** In the series of a loaded frame, size `n` sits exactly where label
      "Top n" does, next to that row's cell. */
  lemma SeriesPositions(g: Frame, metric: string, n: nat)
    requires Loaded(g) && metric in Needed
    ensures |SeriesOf(g, metric)| == |g.index|
    ensures forall k :: 0 <= k < |g.index| ==>
              && (SeriesOf(g, metric)[k].0 == n <==> g.index[k] == Label(TopLabel(n)))
              && SeriesOf(g, metric)[k].1 == g.rows[k][IndexOf(Needed, metric).value]
  {
    MetricSeriesLoaded(g, metric);
    var s := SeriesOf(g, metric);
    ParseTopLabelRoundTrip(n);
    forall k | 0 <= k < |s| ensures s[k].0 == n <==> g.index[k] == Label(TopLabel(n)) {
      ParseTopLabelRoundTrip(s[k].0);
    }
  }

  /** One horizon's step loads the frame and then needs the metric. */
  lemma SeriesForOk(metric: string, isFile: string -> bool, read: string -> Sheet, show: Float -> string, L: nat)
    ensures SeriesFor(metric, isFile, read, show, L).Ok? <==> LoadPerf(L, isFile, read, show).Ok? && metric in Needed
    ensures LoadPerf(L, isFile, read, show).Err? ==>
              SeriesFor(metric, isFile, read, show, L) == Err(LoadPerf(L, isFile, read, show).error)
    ensures LoadPerf(L, isFile, read, show).Ok? && metric !in Needed ==>
              SeriesFor(metric, isFile, read, show, L) == Err(KeyError)
  {
    if LoadPerf(L, isFile, read, show).Ok? {
      LoadPerfLoaded(L, isFile, read, show);
      MetricSeriesLoaded(LoadPerf(L, isFile, read, show).value, metric);
    }
  }

  /** The frame of horizon `h`, when it loads. */
  function HorizonFrame(isFile: string -> bool, read: string -> Sheet, show: Float -> string, h: nat): (g: Frame)
    requires h < |Horizons| && LoadPerf(Horizons[h], isFile, read, show).Ok?
    ensures Loaded(g)
  {
    LoadPerfLoaded(Horizons[h], isFile, read, show);
    LoadPerf(Horizons[h], isFile, read, show).value
  }

  /** The relabelled series of a loaded frame. */
  function SeriesOf(g: Frame, metric: string): seq<(int, Cell)>
    requires Loaded(g) && metric in Needed
  {
    MetricSeriesLoaded(g, metric);
    MetricSeries(g, metric).value
  }

  /** `concat(...).loc[ns]` on series `cols`: `KeyError` exactly when a
      size is in no series, otherwise the cell of each size in each series. */
  lemma ReindexCells(cols: seq<seq<(int, Cell)>>, ns: seq<nat>)
    ensures Reindex(cols, ns).Err? <==> exists i :: 0 <= i < |ns| && Absent(cols, ns[i])
    ensures Reindex(cols, ns).Err? ==> Reindex(cols, ns).error == KeyError
    ensures Reindex(cols, ns).Ok? ==>
              var w := Reindex(cols, ns).value;
              && w.sizes == ns && w.columns == HorizonLabels() && |w.cells| == |ns|
              && forall i :: 0 <= i < |ns| ==>
                   && |w.cells[i]| == |cols|
                   && forall h :: 0 <= h < |cols| ==> w.cells[i][h] == CellOf(cols[h], ns[i])
  {
  }

  /** Size `n` labels a row of frame `g`. */
  predicate HasRow(g: Frame, n: nat) {
    TopLabel(n) in RowLabels(g)
  }

  /** Size `n` labels a row of none of the frames `gs`. */
  predicate Missing(gs: seq<Frame>, n: nat) {
    forall h :: 0 <= h < |gs| ==> !HasRow(gs[h], n)
  }

  /** The relabelled series of each of the loaded frames `gs`. */
  function SeriesCols(gs: seq<Frame>, metric: string): (cols: seq<seq<(int, Cell)>>)
    requires metric in Needed
    requires forall h :: 0 <= h < |gs| ==> Loaded(gs[h])
    ensures |cols| == |gs|
    ensures forall h :: 0 <= h < |gs| ==> cols[h] == SeriesOf(gs[h], metric)
  {
    seq(|gs|, h requires 0 <= h < |gs| => SeriesOf(gs[h], metric))
  }

  /** A size is in no series of loaded frames exactly when it labels no row. */
  lemma AbsentMissing(gs: seq<Frame>, metric: string, n: nat)
    requires metric in Needed
    requires forall h :: 0 <= h < |gs| ==> Loaded(gs[h])
    ensures Absent(SeriesCols(gs, metric), n) <==> Missing(gs, n)
    ensures forall h :: 0 <= h < |gs| ==> CellOf(SeriesCols(gs, metric)[h], n) == LoadedCell(gs[h], metric, n)
  {
    var cols := SeriesCols(gs, metric);
    forall h | 0 <= h < |gs|
      ensures Has(cols[h], n) <==> HasRow(gs[h], n)
      ensures CellOf(cols[h], n) == LoadedCell(gs[h], metric, n)
    {
      SeriesCell(gs[h], metric, n);
    }
  }

  /** `w` is the matrix of sizes `ns` by the horizons of frames `gs`: the
      cell of size `n` at horizon `h` is frame `h`'s cell of the metric in
      row "Top n", NaN when that frame lacks the row, and every size is in
      some frame. */
  predicate JoinOf(w: Wide, gs: seq<Frame>, metric: string, ns: seq<nat>)
    requires metric in Needed
    requires forall h :: 0 <= h < |gs| ==> Loaded(gs[h])
  {
    && w.sizes == ns && w.columns == HorizonLabels() && |w.cells| == |ns|
    && forall i :: 0 <= i < |ns| ==>
         && !Missing(gs, ns[i])
         && |w.cells[i]| == |gs|
         && forall h :: 0 <= h < |gs| ==> w.cells[i][h] == LoadedCell(gs[h], metric, ns[i])
  }

  /** The join of the series of loaded frames `gs`, one per horizon: it
      raises `KeyError` exactly when some size of `ns` labels a row in no
      frame, and otherwise holds each frame's cell of row "Top n" (NaN where
      a frame lacks it). */
  lemma ReindexLoaded(gs: seq<Frame>, metric: string, ns: seq<nat>)
    requires metric in Needed
    requires forall h :: 0 <= h < |gs| ==> Loaded(gs[h])
    ensures var r := Reindex(SeriesCols(gs, metric), ns);
            && (r.Err? <==> exists i :: 0 <= i < |ns| && Missing(gs, ns[i]))
            && (r.Err? ==> r.error == KeyError)
            && (r.Ok? ==> JoinOf(r.value, gs, metric, ns))
  {
    var cols := SeriesCols(gs, metric);
    ReindexCells(cols, ns);
    forall i | 0 <= i < |ns|
      ensures Absent(cols, ns[i]) <==> Missing(gs, ns[i])
      ensures forall h :: 0 <= h < |gs| ==> CellOf(cols[h], ns[i]) == LoadedCell(gs[h], metric, ns[i])
    {
      AbsentMissing(gs, metric, ns[i]);
    }
  }

  /** The frames of the four horizons, when all load. */
  function HorizonFrames(isFile: string -> bool, read: string -> Sheet, show: Float -> string): (gs: seq<Frame>)
    requires forall h :: 0 <= h < |Horizons| ==> LoadPerf(Horizons[h], isFile, read, show).Ok?
    ensures |gs| == |Horizons|
    ensures forall h :: 0 <= h < |Horizons| ==> Loaded(gs[h])
  {
    seq(|Horizons|, h requires 0 <= h < |Horizons| => HorizonFrame(isFile, read, show, h))
  }

  /** When every file loads and the metric is known, the loop collects each
      horizon's relabelled series and the result is their join. */
  lemma WideFrames(metric: string, isFile: string -> bool, read: string -> Sheet, show: Float -> string)
    requires metric in Needed
    requires forall h :: 0 <= h < |Horizons| ==> LoadPerf(Horizons[h], isFile, read, show).Ok?
    ensures var gs := HorizonFrames(isFile, read, show);
            WideSpec(metric, isFile, read, show) == Reindex(SeriesCols(gs, metric), TopNs)
  {
    var step := SeriesStep(metric, isFile, read, show);
    var gs := HorizonFrames(isFile, read, show);
    var cols := SeriesCols(gs, metric);
    forall h | 0 <= h < |Horizons| ensures step(Horizons[h]) == Ok(cols[h]) {
      SeriesOfFrame(metric, isFile, read, show, h);
    }
    GatherAll(step, Horizons, |Horizons|, cols);
  }

  /** Horizon `h`'s step yields the series of its frame. */
  lemma SeriesOfFrame(metric: string, isFile: string -> bool, read: string -> Sheet, show: Float -> string, h: nat)
    requires metric in Needed
    requires h < |Horizons| && LoadPerf(Horizons[h], isFile, read, show).Ok?
    ensures SeriesFor(metric, isFile, read, show, Horizons[h]) == Ok(SeriesOf(HorizonFrame(isFile, read, show, h), metric))
  {
    LoadPerfLoaded(Horizons[h], isFile, read, show);
    MetricSeriesLoaded(HorizonFrame(isFile, read, show, h), metric);
  }

  /** A matrix comes back only when every horizon loads and has the metric:
      its rows are TOPNS, its columns "1m", "3m", "6m", "12m", the cell of
      size `n` at horizon `h` is that horizon's cell of row "Top n" (NaN when
      that file lacks the row), and every size is in some horizon. */
  lemma WideCells(metric: string, isFile: string -> bool, read: string -> Sheet, show: Float -> string)
    requires WideSpec(metric, isFile, read, show).Ok?
    ensures metric in Needed
    ensures forall h :: 0 <= h < |Horizons| ==> LoadPerf(Horizons[h], isFile, read, show).Ok?
    ensures JoinOf(WideSpec(metric, isFile, read, show).value, HorizonFrames(isFile, read, show), metric, TopNs)
  {
    WideOkLoads(metric, isFile, read, show);
    WideFrames(metric, isFile, read, show);
    ReindexLoaded(HorizonFrames(isFile, read, show), metric, TopNs);
  }

  /** A matrix comes back only when every horizon's file loads and the
      metric is one of the three. */
  lemma WideOkLoads(metric: string, isFile: string -> bool, read: string -> Sheet, show: Float -> string)
    requires WideSpec(metric, isFile, read, show).Ok?
    ensures metric in Needed
    ensures forall h :: 0 <= h < |Horizons| ==> LoadPerf(Horizons[h], isFile, read, show).Ok?
  {
    var step := SeriesStep(metric, isFile, read, show);
    GatherOk(step, Horizons, |Horizons|);
    forall h | 0 <= h < |Horizons| ensures LoadPerf(Horizons[h], isFile, read, show).Ok? && metric in Needed {
      assert step(Horizons[h]).Ok?;
      SeriesForOk(metric, isFile, read, show, Horizons[h]);
    }
    assert step(Horizons[0]).Ok?;
  }

  /** The first horizon whose file fails to load decides the error, provided
      the metric was found in every horizon before it. */
  lemma WideLoadError(metric: string, isFile: string -> bool, read: string -> Sheet, show: Float -> string, h: nat)
    requires h < |Horizons| && LoadPerf(Horizons[h], isFile, read, show).Err?
    requires forall h' :: 0 <= h' < h ==> LoadPerf(Horizons[h'], isFile, read, show).Ok?
    requires h > 0 ==> metric in Needed
    ensures WideSpec(metric, isFile, read, show) == Err(LoadPerf(Horizons[h], isFile, read, show).error)
  {
    var step := SeriesStep(metric, isFile, read, show);
    forall h' | 0 <= h' < h ensures step(Horizons[h']).Ok? {
      SeriesForOk(metric, isFile, read, show, Horizons[h']);
    }
    SeriesForOk(metric, isFile, read, show, Horizons[h]);
    GatherFirstError(step, Horizons, |Horizons|, h);
  }

  /** A metric other than the three raises `KeyError` once the first file loads. */
  lemma WideMissingMetric(metric: string, isFile: string -> bool, read: string -> Sheet, show: Float -> string)
    requires LoadPerf(Horizons[0], isFile, read, show).Ok? && metric !in Needed
    ensures WideSpec(metric, isFile, read, show) == Err(KeyError)
  {
    var step := SeriesStep(metric, isFile, read, show);
    SeriesForOk(metric, isFile, read, show, Horizons[0]);
    GatherFirstError(step, Horizons, |Horizons|, 0);
  }

  /** With every file loaded and a known metric, `.loc[TOPNS]` raises
      `KeyError` exactly when some size of TOPNS labels a row in no file. */
  lemma WideJoinError(metric: string, isFile: string -> bool, read: string -> Sheet, show: Float -> string)
    requires metric in Needed
    requires forall h :: 0 <= h < |Horizons| ==> LoadPerf(Horizons[h], isFile, read, show).Ok?
    ensures WideSpec(metric, isFile, read, show).Err? <==>
              exists i :: 0 <= i < |TopNs| && Missing(HorizonFrames(isFile, read, show), TopNs[i])
    ensures WideSpec(metric, isFile, read, show).Err? ==> WideSpec(metric, isFile, read, show).error == KeyError
  {
    WideFrames(metric, isFile, read, show);
    ReindexLoaded(HorizonFrames(isFile, read, show), metric, TopNs);
  }

  /** ---- `bestN_table` ---- */

  /** `s.idxmax()` on the floats `xs[..n]`: the position of the first
      largest value, NaN skipped, None when every value is NaN. */
  function FirstMax(xs: seq<Float>, n: nat): (k: Option<nat>)
    requires n <= |xs|
    ensures k.Some? ==> k.value < n && !xs[k.value].NaN?
  {
    if n == 0 then None
    else
      var best := FirstMax(xs, n - 1);
      if xs[n - 1].NaN? then best
      else if best.None? || !FloatLe(xs[n - 1], xs[best.value]) then Some(n - 1)
      else best
  }

  /** Position `k` holds the first largest value of `xs[..n]`: it is a
      number, no value is above it and every value before it is below it. */
  predicate FirstMaxAt(xs: seq<Float>, n: nat, k: nat)
    requires n <= |xs|
  {
    && k < n && !xs[k].NaN?
    && (forall i :: 0 <= i < n && !xs[i].NaN? ==> FloatLe(xs[i], xs[k]))
    && (forall i :: 0 <= i < k && !xs[i].NaN? ==> !FloatLe(xs[k], xs[i]))
  }

  /** The order on non-NaN floats is total and transitive. */
  lemma FloatLeOrder(a: Float, b: Float, c: Float)
    ensures !a.NaN? && !b.NaN? ==> FloatLe(a, b) || FloatLe(b, a)
    ensures FloatLe(a, b) && FloatLe(b, c) ==> FloatLe(a, c)
  {
  }

  /** `FirstMax` finds exactly the first largest value, and finds nothing
      exactly when every value is NaN. */
  lemma {:induction false} FirstMaxSpec(xs: seq<Float>, n: nat)
    requires n <= |xs|
    ensures FirstMax(xs, n).None? <==> forall i :: 0 <= i < n ==> xs[i].NaN?
    ensures forall k: nat :: FirstMax(xs, n) == Some(k) <==> FirstMaxAt(xs, n, k)
  {
    if n > 0 {
      FirstMaxSpec(xs, n - 1);
      var best := FirstMax(xs, n - 1);
      var x := xs[n - 1];
      if best.Some? {
        var b := best.value;
        FloatLeOrder(x, xs[b], x);
        forall i | 0 <= i < n && !xs[i].NaN? ensures FloatLe(xs[i], xs[FirstMax(xs, n).value]) {
          FloatLeOrder(xs[i], xs[b], x);
        }
        forall i | 0 <= i < n - 1 && !xs[i].NaN? && !x.NaN? && !FloatLe(x, xs[b]) ensures !FloatLe(x, xs[i]) {
          FloatLeOrder(x, xs[i], xs[b]);
        }
      }
      FirstMaxUnique(xs, n);
    }
  }

  /** At most one position holds the first largest value. */
  lemma FirstMaxUnique(xs: seq<Float>, n: nat)
    requires n <= |xs|
    ensures forall k, k' :: FirstMaxAt(xs, n, k) && FirstMaxAt(xs, n, k') ==> k == k'
  {
  }

  /** Column `j` of a frame, top to bottom. */
  function ColumnOf(g: Frame, j: nat): (c: seq<Cell>)
    requires FrameRect(g) && j < |g.columns|
    ensures |c| == |g.index|
    ensures forall i :: 0 <= i < |c| ==> c[i] == g.rows[i][j]
  {
    seq(|g.index|, i requires 0 <= i < |g.index| => g.rows[i][j])
  }

  /** Some cell holds text (the column is not numeric). */
  predicate AnyText(c: seq<Cell>) {
    exists i :: 0 <= i < |c| && c[i].Str?
  }

  /** The floats of a numeric column. */
  function Floats(c: seq<Cell>): (xs: seq<Float>)
    requires !AnyText(c)
    ensures |xs| == |c|
    ensures forall i :: 0 <= i < |c| ==> c[i] == Number(xs[i])
  {
    seq(|c|, i requires 0 <= i < |c| => c[i].f)
  }

  /** `s.idxmax()` as a position: `TypeError` on a text column, `ValueError`
      when every value is NaN. */
  function IdxMax(c: seq<Cell>): (r: Result<nat>)
    ensures r.Ok? ==> !AnyText(c) && FirstMaxAt(Floats(c), |c|, r.value)
    ensures r.Err? <==> AnyText(c) || forall i :: 0 <= i < |c| ==> c[i] == Number(NaN)
    ensures r.Err? ==> r.error == (if AnyText(c) then TypeError else ValueError)
  {
    if AnyText(c) then Err(TypeError)
    else
      var xs := Floats(c);
      FirstMaxSpec(xs, |xs|);
      match FirstMax(xs, |xs|)
      case None => Err(ValueError)
      case Some(k) => Ok(k)
  }

  /** One horizon of `bestN_table`: `df[metric]`, its `idxmax()` read back
      as a size with `int(idx_top.split()[1])`, and `s.max()`. */
  function BestOf(g: Frame, metric: string): Result<(int, Float)>
    requires Loaded(g)
  {
    match IndexOf(g.columns, metric)
    case None => Err(KeyError)
    case Some(j) =>
      var c := ColumnOf(g, j);
      match IdxMax(c)
      case Err(e) => Err(e)
      case Ok(k) =>
        match ParseTopLabel(g.index[k].s)
        case Err(e) => Err(e)
        case Ok(n) => Ok((n, Floats(c)[k]))
  }

  /** On a loaded frame: `KeyError` for a metric other than the three,
      `TypeError` for a text column, `ValueError` for an all-NaN column, and
      no other error. */
  lemma BestOfErrors(g: Frame, metric: string)
    requires Loaded(g)
    ensures metric !in Needed ==> BestOf(g, metric) == Err(KeyError)
    ensures metric in Needed ==>
              var c := ColumnOf(g, IndexOf(Needed, metric).value);
              && (AnyText(c) ==> BestOf(g, metric) == Err(TypeError))
              && (!AnyText(c) && (forall i :: 0 <= i < |c| ==> c[i] == Number(NaN)) ==> BestOf(g, metric) == Err(ValueError))
              && (BestOf(g, metric).Err? ==> AnyText(c) || forall i :: 0 <= i < |c| ==> c[i] == Number(NaN))
  {
    if metric in Needed {
      var c := ColumnOf(g, IndexOf(Needed, metric).value);
      var r := IdxMax(c);
      if r.Ok? {
        TopLabelsParse(g.index[r.value].s);
      }
    }
  }

  /** A result names the size of the row that holds the first largest value
      of the metric, and that value. */
  lemma BestOfFound(g: Frame, metric: string)
    requires Loaded(g) && BestOf(g, metric).Ok?
    ensures metric in Needed
    ensures var c := ColumnOf(g, IndexOf(Needed, metric).value);
            var best := BestOf(g, metric).value;
            && !AnyText(c) && best.0 >= 0
            && exists k: nat :: && FirstMaxAt(Floats(c), |c|, k)
                                && g.index[k] == Label(TopLabel(best.0))
                                && best.1 == Floats(c)[k]
  {
    var c := ColumnOf(g, IndexOf(Needed, metric).value);
    var k := IdxMax(c).value;
    TopLabelsParse(g.index[k].s);
  }

  /** A row of the table: the horizon label, the best Top-N size and its value. */
  datatype BestRow = BestRow(horizon: string, bestN: int, value: Float)

  /** The row of horizon `L`: load, then pick the best size. */
  function BestFor(metric: string, isFile: string -> bool, read: string -> Sheet, show: Float -> string, L: nat): Result<BestRow>
  {
    match LoadPerf(L, isFile, read, show)
    case Err(e) => Err(e)
    case Ok(g) =>
      LoadPerfLoaded(L, isFile, read, show);
      match BestOf(g, metric)
      case Err(e) => Err(e)
      case Ok(best) => Ok(BestRow(HorizonLabel(L), best.0, best.1))
  }

  function BestStep(metric: string, isFile: string -> bool, read: string -> Sheet, show: Float -> string): (step: nat -> Result<BestRow>)
  {
    (L: nat) => BestFor(metric, isFile, read, show, L)
  }

  /** `bestN_table(metric)` as a function of the files: one row per horizon,
      or the first exception. */
  function BestNSpec(metric: string, isFile: string -> bool, read: string -> Sheet, show: Float -> string): Result<seq<BestRow>>
  {
    Gather(BestStep(metric, isFile, read, show), Horizons, |Horizons|)
  }

  /** The body of the loop of `bestN_table` for horizon `L`. */
  method LoadBest(metric: string, isFile: string -> bool, read: string -> Sheet, show: Float -> string, L: nat)
    returns (row: Result<BestRow>)
    ensures row == BestFor(metric, isFile, read, show, L)
  {
    var loaded := LoadPerf(L, isFile, read, show);
    if loaded.Err? {
      return Err(loaded.error);
    }
    LoadPerfLoaded(L, isFile, read, show);
    var best := BestOf(loaded.value, metric);
    if best.Err? {
      return Err(best.error);
    }
    row := Ok(BestRow(HorizonLabel(L), best.value.0, best.value.1));
  }

  /** `bestN_table(metric)`: its loop over HORIZONS (writing the table to a
      file is not modelled). */
  method BestNTable(metric: string, isFile: string -> bool, read: string -> Sheet, show: Float -> string)
    returns (r: Result<seq<BestRow>>)
    ensures r == BestNSpec(metric, isFile, read, show)
  {
    ghost var step := BestStep(metric, isFile, read, show);
    var rows: seq<BestRow> := [];
    for k := 0 to |Horizons|
      invariant Gather(step, Horizons, k) == Ok(rows)
    {
      var row := LoadBest(metric, isFile, read, show, Horizons[k]);
      assert step(Horizons[k]) == row;
      if row.Err? {
        assert Gather(step, Horizons, k + 1) == Err(row.error);
        GatherErrorSticks(step, Horizons, k + 1, |Horizons|);
        return Err(row.error);
      }
      rows := rows + [row.value];
    }
    assert step == BestStep(metric, isFile, read, show);
    r := Ok(rows);
  }

  /** A table comes back only when every horizon's file loads and yields a
      best size: row `h` is labelled with horizon `h` and holds that
      horizon's best size and value. */
  lemma BestNRows(metric: string, isFile: string -> bool, read: string -> Sheet, show: Float -> string)
    requires BestNSpec(metric, isFile, read, show).Ok?
    ensures forall h :: 0 <= h < |Horizons| ==> LoadPerf(Horizons[h], isFile, read, show).Ok?
    ensures var rows := BestNSpec(metric, isFile, read, show).value;
            && |rows| == |Horizons|
            && forall h :: 0 <= h < |Horizons| ==>
                 && rows[h].horizon == HorizonLabel(Horizons[h])
                 && BestOf(HorizonFrame(isFile, read, show, h), metric) == Ok((rows[h].bestN, rows[h].value))
  {
    var step := BestStep(metric, isFile, read, show);
    GatherOk(step, Horizons, |Horizons|);
    forall h | 0 <= h < |Horizons|
      ensures LoadPerf(Horizons[h], isFile, read, show).Ok?
      ensures BestNSpec(metric, isFile, read, show).value[h] == BestFor(metric, isFile, read, show, Horizons[h]).value
    {
      assert step(Horizons[h]).Ok?;
      BestForOk(metric, isFile, read, show, h);
    }
    forall h | 0 <= h < |Horizons|
      ensures BestNSpec(metric, isFile, read, show).value[h].horizon == HorizonLabel(Horizons[h])
      ensures var row := BestNSpec(metric, isFile, read, show).value[h];
              BestOf(HorizonFrame(isFile, read, show, h), metric) == Ok((row.bestN, row.value))
    {
      BestForOk(metric, isFile, read, show, h);
    }
  }

  /** A row of horizon `h` comes from its loaded frame. */
  lemma BestForOk(metric: string, isFile: string -> bool, read: string -> Sheet, show: Float -> string, h: nat)
    requires h < |Horizons| && BestFor(metric, isFile, read, show, Horizons[h]).Ok?
    ensures LoadPerf(Horizons[h], isFile, read, show).Ok?
    ensures var row := BestFor(metric, isFile, read, show, Horizons[h]).value;
            && row.horizon == HorizonLabel(Horizons[h])
            && BestOf(HorizonFrame(isFile, read, show, h), metric) == Ok((row.bestN, row.value))
  {
  }

  /** The first horizon whose row fails decides the error. */
  lemma BestNFirstError(metric: string, isFile: string -> bool, read: string -> Sheet, show: Float -> string, h: nat)
    requires h < |Horizons| && BestFor(metric, isFile, read, show, Horizons[h]).Err?
    requires forall h' :: 0 <= h' < h ==> BestFor(metric, isFile, read, show, Horizons[h']).Ok?
    ensures BestNSpec(metric, isFile, read, show) == Err(BestFor(metric, isFile, read, show, Horizons[h]).error)
  {
    GatherFirstError(BestStep(metric, isFile, read, show), Horizons, |Horizons|, h);
  }
}
