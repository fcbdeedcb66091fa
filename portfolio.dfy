/** scripts/build_portfolio.py: the monthly Top-N backtest. At each formation
    date the defined momentum scores are ranked in descending order, the top
    `n` ids are held over the next formation date, and the equal-weight mean
    of their available returns is recorded at that holding date. Also the
    returns panel of `load_inputs` and the `annualized_metrics` guards. */
module Portfolio {
  import opened Common
  import opened Sorting
  import opened Series
  import opened Metrics

  /** One row of momentum_long.csv: formation date (NaT possible), stock id,
      6-month score (NaN when missing). */
  datatype MomRow = MomRow(date: Date, ticker: string, score: Float)

  /** One row of stock_returns_long.csv after `to_numeric(errors="coerce")`. */
  datatype RetRow = RetRow(date: Date, ticker: string, ret: Option<real>)

  /** The wide returns frame `rets_wide`: its dated index labels, its
      columns, and its non-missing cells keyed by (date, id). */
  datatype Panel = Panel(dates: set<int>, columns: set<string>, cells: map<(int, string), real>)

  /** Whether two rows carry the same (date, id) pair. */
  predicate DuplicatePair(rows: seq<RetRow>) {
    exists i, j :: 0 <= i < j < |rows| && rows[i].date == rows[j].date && rows[i].ticker == rows[j].ticker
  }

  /** `rets_long.pivot(index="date", columns="NR", values="ret_1m")`: one
      column per id, one index label per date, one cell per row with a date
      and a return, and `ValueError` when a (date, id) pair occurs twice. */
  function Pivot(rows: seq<RetRow>): (r: Result<Panel>)
    ensures r.Err? <==> DuplicatePair(rows)
    ensures r.Err? ==> r.error == ValueError
  {
    if DuplicatePair(rows) then Err(ValueError)
    else
      var dates := set i | 0 <= i < |rows| && rows[i].date.Some? :: rows[i].date.value;
      var columns := set i | 0 <= i < |rows| :: rows[i].ticker;
      var cells := map i | 0 <= i < |rows| && rows[i].date.Some? && rows[i].ret.Some? ::
                     (rows[i].date.value, rows[i].ticker) := rows[i].ret.value;
      Ok(Panel(dates, columns, cells))
  }

  /** The pivot's columns are the ids of the rows and its dates their dates. */
  lemma PivotLabels(rows: seq<RetRow>)
    requires Pivot(rows).Ok?
    ensures forall c :: c in Pivot(rows).value.columns <==> exists i :: 0 <= i < |rows| && rows[i].ticker == c
    ensures forall d :: d in Pivot(rows).value.dates <==> exists i :: 0 <= i < |rows| && rows[i].date == Some(d)
  {
  }

  /** Every row with a date and a return is a cell holding that return... */
  lemma PivotKeepsRows(rows: seq<RetRow>)
    requires Pivot(rows).Ok?
    ensures forall i :: 0 <= i < |rows| && rows[i].date.Some? && rows[i].ret.Some? ==>
              var key := (rows[i].date.value, rows[i].ticker);
              key in Pivot(rows).value.cells && Pivot(rows).value.cells[key] == rows[i].ret.value
  {
  }

  /** ...and every cell is such a row. */
  lemma PivotCellsFromRows(rows: seq<RetRow>)
    requires Pivot(rows).Ok?
    ensures forall d, c :: (d, c) in Pivot(rows).value.cells ==>
              exists i :: 0 <= i < |rows| && rows[i] == RetRow(Some(d), c, Some(Pivot(rows).value.cells[(d, c)]))
  {
  }

  /** `sorted(mom["NR"].astype(str).unique())` as a set. */
  function Universe(mom: seq<MomRow>): (u: set<string>)
    ensures forall c :: c in u <==> exists i :: 0 <= i < |mom| && mom[i].ticker == c
  {
    set i | 0 <= i < |mom| :: mom[i].ticker
  }

  /** `rets_wide.reindex(columns=keep_cols)`: only the columns of the universe. */
  function Restrict(p: Panel, u: set<string>): Panel
  {
    Panel(p.dates, p.columns * u, map k | k in p.cells && k.1 in u :: p.cells[k])
  }

  /** The returns half of `load_inputs`: pivot, then keep the momentum ids. */
  function LoadReturns(mom: seq<MomRow>, rets: seq<RetRow>): Result<Panel>
  {
    match Pivot(rets)
    case Err(e) => Err(e)
    case Ok(p) => Ok(Restrict(p, Universe(mom)))
  }

  /** No id outside the momentum file survives... */
  lemma LoadReturnsColumns(mom: seq<MomRow>, rets: seq<RetRow>)
    requires LoadReturns(mom, rets).Ok?
    ensures forall c :: c in LoadReturns(mom, rets).value.columns <==>
              (exists i :: 0 <= i < |mom| && mom[i].ticker == c) && (exists i :: 0 <= i < |rets| && rets[i].ticker == c)
  {
    PivotLabels(rets);
  }

  /** ...and every surviving cell is the return of a row of the returns
      file for an id of the momentum file. */
  lemma LoadReturnsCells(mom: seq<MomRow>, rets: seq<RetRow>)
    requires LoadReturns(mom, rets).Ok?
    ensures var p := LoadReturns(mom, rets).value;
            forall d, c :: (d, c) in p.cells ==>
              (exists i :: 0 <= i < |mom| && mom[i].ticker == c) &&
              exists i :: 0 <= i < |rets| && rets[i] == RetRow(Some(d), c, Some(p.cells[(d, c)]))
  {
    var q := Pivot(rets).value;
    var p := LoadReturns(mom, rets).value;
    PivotCellsFromRows(rets);
    assert forall k :: k in p.cells ==> k in q.cells && p.cells[k] == q.cells[k];
  }

  /** The dated formation dates, in row order. */
  function DatedOnly(mom: seq<MomRow>): (ds: seq<int>)
    ensures forall d :: d in ds <==> exists i :: 0 <= i < |mom| && mom[i].date == Some(d)
  {
    if |mom| == 0 then []
    else
      var rest := DatedOnly(mom[1..]);
      assert forall i :: 1 <= i < |mom| ==> mom[i] == mom[1..][i - 1];
      (if mom[0].date.Some? then [mom[0].date.value] else []) + rest
  }

  /** `sorted(mom["date"].dropna().unique())`. */
  function FormationDates(mom: seq<MomRow>): seq<int>
  {
    SortedUnique(DatedOnly(mom))
  }

  /** The formation dates are the distinct dates of the momentum file... */
  lemma FormationDatesMembers(mom: seq<MomRow>)
    ensures forall d :: d in FormationDates(mom) <==> exists i :: 0 <= i < |mom| && mom[i].date == Some(d)
  {
  }

  /** ...in strictly increasing order. */
  lemma FormationDatesSorted(mom: seq<MomRow>)
    ensures forall i, j :: 0 <= i < j < |FormationDates(mom)| ==> FormationDates(mom)[i] < FormationDates(mom)[j]
  {
  }

  /** `mom[mom["date"] == t].dropna(subset=["mom_6m"])`. */
  function Cross(mom: seq<MomRow>, t: int): (c: seq<MomRow>)
    ensures |c| <= |mom|
  {
    if |mom| == 0 then []
    else (if mom[0].date == Some(t) && !mom[0].score.NaN? then [mom[0]] else []) + Cross(mom[1..], t)
  }

  /** The cross-section at `t` keeps exactly the rows dated `t` with a
      defined score, in file order. */
  lemma {:induction false} CrossMembers(mom: seq<MomRow>, t: int)
    ensures forall x :: x in Cross(mom, t) <==> x in mom && x.date == Some(t) && !x.score.NaN?
    ensures multiset(Cross(mom, t)) <= multiset(mom)
  {
    if mom != [] {
      CrossMembers(mom[1..], t);
      assert mom == [mom[0]] + mom[1..];
    }
  }

  function ScoreOf(x: MomRow): Float { x.score }

  /** Descending score order: `a` ranks at or before `b`. */
  predicate ScoreGe(a: Float, b: Float) { FloatLe(b, a) }

  lemma ScoreGeTotal()
    ensures TotalPreorder(ScoreGe)
  {
  }

  /** `sort_values("mom_6m", ascending=False)`, with ties kept in row order. */
  function Ranked(cross: seq<MomRow>): seq<MomRow>
  {
    SortBy(cross, ScoreOf, ScoreGe)
  }

  /** `head(n)`: the first `n` rows, or all but the last `-n` when `n` is negative. */
  function Head<T>(s: seq<T>, n: int): seq<T>
  {
    if n >= 0 then (if n < |s| then s[..n] else s)
    else if |s| + n > 0 then s[..|s| + n] else []
  }

  /** The rows picked at formation date `t`. */
  function Selected(mom: seq<MomRow>, t: int, n: int): seq<MomRow>
  {
    Head(Ranked(Cross(mom, t)), n)
  }

  function Tickers(sel: seq<MomRow>): (ts: seq<string>)
    ensures |ts| == |sel| && forall k :: 0 <= k < |sel| ==> ts[k] == sel[k].ticker
  {
    seq(|sel|, k requires 0 <= k < |sel| => sel[k].ticker)
  }

  /** `rets_wide.loc[holding, tickers]` once every ticker is a column: one
      possibly missing return per selected id, duplicates included. */
  function Realised(p: Panel, h: int, tickers: seq<string>): (r: seq<Option<real>>)
    ensures |r| == |tickers|
  {
    seq(|tickers|, k requires 0 <= k < |tickers| =>
      if (h, tickers[k]) in p.cells then Some(p.cells[(h, tickers[k])]) else None)
  }

  /** What one formation period contributes. */
  datatype Period = Skip | Emit(value: real) | Fail(error: Error)

  /** Whether every selected id is a column of the returns frame; `.loc`
      raises `KeyError` otherwise. */
  predicate Covered(p: Panel, tickers: seq<string>) {
    forall k :: 0 <= k < |tickers| ==> tickers[k] in p.columns
  }

  /** `r.mean(skipna=True)` unless `r.dropna()` is empty. */
  function Average(got: seq<real>): (r: Period)
    ensures r.Emit? <==> |got| > 0
    ensures r.Emit? ==> r.value == Mean(got) && MinOf(got) <= r.value <= MaxReal(got)
    ensures !r.Fail?
  {
    if |got| == 0 then Skip
    else
      MeanWithin(got);
      Emit(Mean(got))
  }

  /** The loop body once the ids are chosen: skip when `h` is not a date of
      the returns frame, `KeyError` when a chosen id has no column, and the
      average of the available returns otherwise. */
  function Holding(p: Panel, h: int, tickers: seq<string>): Period
  {
    if h !in p.dates then Skip
    else if !Covered(p, tickers) then Fail(KeyError)
    else Average(Present(Realised(p, h, tickers)))
  }

  /** One pass of the loop body for formation date `f` and holding date `h`:
      skip when no score is defined at `f`, otherwise hold the selected ids
      over `h`. */
  function PeriodAt(mom: seq<MomRow>, p: Panel, n: int, f: int, h: int): Period
  {
    if |Cross(mom, f)| == 0 then Skip else Holding(p, h, Tickers(Selected(mom, f, n)))
  }

  /** The cases of one period: skips, a `KeyError` exactly when a selected
      id is not a column, and otherwise the mean of the available returns,
      which lies between their minimum and maximum. */
  lemma PeriodCases(mom: seq<MomRow>, p: Panel, n: int, f: int, h: int)
    ensures var r := PeriodAt(mom, p, n, f, h);
            var sel := Selected(mom, f, n);
            var got := Present(Realised(p, h, Tickers(sel)));
            && (|Cross(mom, f)| == 0 || h !in p.dates ==> r == Skip)
            && (r.Fail? ==> r.error == KeyError)
            && (r.Fail? <==> |Cross(mom, f)| > 0 && h in p.dates && exists k :: 0 <= k < |sel| && sel[k].ticker !in p.columns)
            && (r.Emit? <==> |Cross(mom, f)| > 0 && h in p.dates && !r.Fail? && |got| > 0)
            && (r.Emit? ==> r.value == Mean(got) && MinOf(got) <= r.value <= MaxReal(got))
  {
    var sel := Selected(mom, f, n);
    var tickers := Tickers(sel);
    assert !Covered(p, tickers) <==> exists k :: 0 <= k < |sel| && sel[k].ticker !in p.columns by {
      if !Covered(p, tickers) {
        var k :| 0 <= k < |tickers| && tickers[k] !in p.columns;
        assert sel[k].ticker !in p.columns;
      }
    }
  }

  /** Dafny's reals: an average of values in `[lo, hi]` stays in `[lo, hi]`. */
  lemma {:induction false} SumWithin(xs: seq<real>, lo: real, hi: real)
    requires forall k :: 0 <= k < |xs| ==> lo <= xs[k] <= hi
    ensures (|xs| as real) * lo <= Sum(xs) <= (|xs| as real) * hi
    decreases |xs|
  {
    if xs != [] {
      var n := |xs| - 1;
      SumWithin(xs[..n], lo, hi);
      assert (|xs| as real) * lo == (n as real) * lo + lo;
      assert (|xs| as real) * hi == (n as real) * hi + hi;
    }
  }

  lemma QuotientWithin(s: real, c: real, lo: real, hi: real)
    requires c > 0.0 && c * lo <= s <= c * hi
    ensures lo <= s / c <= hi
  {
    assert (s / c) * c == s;
  }

  /** An equal-weight mean lies between the smallest and largest value. */
  lemma MeanWithin(xs: seq<real>)
    requires xs != []
    ensures MinOf(xs) <= Mean(xs) <= MaxReal(xs)
  {
    MeanBounds(xs, MinOf(xs), MaxReal(xs));
  }

  lemma MeanBounds(xs: seq<real>, lo: real, hi: real)
    requires xs != []
    requires forall k :: 0 <= k < |xs| ==> lo <= xs[k] <= hi
    ensures lo <= Mean(xs) <= hi
  {
    SumWithin(xs, lo, hi);
    QuotientWithin(Sum(xs), |xs| as real, lo, hi);
  }

  /** The periods of the loop over the formation dates `ds`: period `j`
      forms at `ds[j - 1]` and holds over `ds[j]`; there is no period 0. */
  function Periods(mom: seq<MomRow>, p: Panel, n: int, ds: seq<int>): (ps: seq<Period>)
    ensures |ps| == |ds|
  {
    PeriodsWith(PeriodFn(mom, p, n), ds, |ds|)
  }

  /** `PeriodAt` for fixed inputs, as a function of the two dates. */
  function PeriodFn(mom: seq<MomRow>, p: Panel, n: int): (int, int) -> Period
  {
    (f, h) => PeriodAt(mom, p, n, f, h)
  }

  lemma PeriodFnAt(mom: seq<MomRow>, p: Panel, n: int, f: int, h: int)
    ensures PeriodFn(mom, p, n)(f, h) == PeriodAt(mom, p, n, f, h)
  {
  }

  /** The first `k` periods, each computed by `at` from its formation and
      holding dates. */
  function PeriodsWith(at: (int, int) -> Period, ds: seq<int>, k: nat): (ps: seq<Period>)
    requires k <= |ds|
    ensures |ps| == k
  {
    if k == 0 then []
    else PeriodsWith(at, ds, k - 1) + [if k == 1 then Skip else at(ds[k - 2], ds[k - 1])]
  }

  lemma {:induction false} PeriodsWithAt(at: (int, int) -> Period, ds: seq<int>, k: nat, j: nat)
    requires 1 <= j < k <= |ds|
    ensures PeriodsWith(at, ds, k)[j] == at(ds[j - 1], ds[j])
  {
    var prev := PeriodsWith(at, ds, k - 1);
    var last := if k == 1 then Skip else at(ds[k - 2], ds[k - 1]);
    assert PeriodsWith(at, ds, k) == prev + [last];
    if j < k - 1 {
      PeriodsWithAt(at, ds, k - 1, j);
      assert (prev + [last])[j] == prev[j];
    } else {
      assert (prev + [last])[j] == last;
    }
  }

  lemma PeriodsAt(mom: seq<MomRow>, p: Panel, n: int, ds: seq<int>, j: nat)
    requires 1 <= j < |ds|
    ensures Periods(mom, p, n, ds)[j] == PeriodAt(mom, p, n, ds[j - 1], ds[j])
  {
    PeriodsWithAt(PeriodFn(mom, p, n), ds, |ds|, j);
    PeriodFnAt(mom, p, n, ds[j - 1], ds[j]);
  }

  /** `port_rets` after the first `k` periods: skips add nothing, an emitting
      period appends its mean at its holding date, and the first failure
      ends the loop with that error. */
  function Collect(ps: seq<Period>, ds: seq<int>, k: nat): Result<seq<Point>>
    requires |ps| == |ds| && (k == 0 || k < |ds|)
  {
    if k == 0 then Ok([])
    else match Collect(ps, ds, k - 1)
      case Err(e) => Err(e)
      case Ok(acc) =>
        match ps[k]
        case Skip => Ok(acc)
        case Emit(v) => Ok(acc + [Point(ds[k], v)])
        case Fail(e) => Err(e)
  }

  /** The loop of `build_portfolio_returns` over the dates `ds`: every date
      but the last forms one period. */
  function Holdings(mom: seq<MomRow>, p: Panel, n: int, ds: seq<int>): Result<seq<Point>>
  {
    Collect(Periods(mom, p, n, ds), ds, if |ds| == 0 then 0 else |ds| - 1)
  }

  /** `build_portfolio_returns(mom, rets_wide, top_n)` as a function: the
      loop over the sorted formation dates. */
  function PortfolioReturns(mom: seq<MomRow>, p: Panel, n: int): Result<seq<Point>>
  {
    Holdings(mom, p, n, FormationDates(mom))
  }

  /** One more period that does not fail extends the result by its point, if any. */
  lemma CollectNext(ps: seq<Period>, ds: seq<int>, k: nat)
    requires |ps| == |ds| && k + 1 < |ds|
    requires Collect(ps, ds, k).Ok? && !ps[k + 1].Fail?
    ensures Collect(ps, ds, k + 1) ==
              Ok(Collect(ps, ds, k).value + if ps[k + 1].Emit? then [Point(ds[k + 1], ps[k + 1].value)] else [])
  {
    if ps[k + 1].Skip? {
      assert Collect(ps, ds, k).value + [] == Collect(ps, ds, k).value;
    }
  }

  /** Once a period has raised, the loop result is that error. */
  lemma {:induction false} CollectErrorSticks(ps: seq<Period>, ds: seq<int>, k: nat, m: nat)
    requires |ps| == |ds| && k <= m && (m == 0 || m < |ds|)
    requires Collect(ps, ds, k).Err?
    ensures Collect(ps, ds, m) == Collect(ps, ds, k)
    decreases m - k
  {
    if k < m {
      CollectErrorSticks(ps, ds, k, m - 1);
    }
  }

  /** `build_portfolio_returns`: the sorted formation dates, then the loop. */
  method BuildPortfolioReturns(mom: seq<MomRow>, p: Panel, n: int) returns (r: Result<seq<Point>>)
    ensures r == PortfolioReturns(mom, p, n)
  {
    var dates := FormationDates(mom);
    r := HoldPeriods(mom, p, n, dates);
  }

  /** The loop of `build_portfolio_returns` over the dates `ds`, whose
      periods are `Periods(mom, p, n, ds)`: a failing period ends it, an
      emitting one appends to `port_rets`. */
  method HoldPeriods(mom: seq<MomRow>, p: Panel, n: int, ds: seq<int>) returns (r: Result<seq<Point>>)
    ensures r == Holdings(mom, p, n, ds)
  {
    ghost var ps := Periods(mom, p, n, ds);
    ghost var last: nat := if |ds| == 0 then 0 else |ds| - 1;
    var portRets: seq<Point> := [];
    var t := 0;
    while t < |ds| - 1
      invariant 0 <= t <= last
      invariant Collect(ps, ds, t) == Ok(portRets)
    {
      var period := HoldOnce(mom, p, n, ds, t);
      if period.Fail? {
        assert Collect(ps, ds, t + 1) == Err(period.error);
        CollectErrorSticks(ps, ds, t + 1, last);
        return Err(period.error);
      }
      CollectNext(ps, ds, t);
      if period.Emit? {
        portRets := portRets + [Point(ds[t + 1], period.value)];
      }
      t := t + 1;
    }
    assert t == last;
    return Ok(portRets);
  }

  /** The body of that loop for the formation date `ds[t]`, each `continue`
      a `Skip`: the period formed there. */
  method HoldOnce(mom: seq<MomRow>, p: Panel, n: int, ds: seq<int>, t: nat) returns (period: Period)
    requires t + 1 < |ds|
    ensures period == Periods(mom, p, n, ds)[t + 1]
  {
    PeriodsAt(mom, p, n, ds, t + 1);
    var formation := ds[t];
    var holding := ds[t + 1];
    var cross := Cross(mom, formation);
    if |cross| == 0 {
      return Skip;
    }
    var tickers := Tickers(Head(Ranked(cross), n));
    if holding !in p.dates {
      return Skip;
    }
    if !Covered(p, tickers) {
      return Fail(KeyError);
    }
    var got := Present(Realised(p, holding, tickers));
    if |got| == 0 {
      return Skip;
    }
    return Emit(Mean(got));
  }

  /** What the loop emits: at most one point per period, and every point
      is the value of an emitting period at that period's holding date. */
  lemma {:induction false} CollectSources(ps: seq<Period>, ds: seq<int>, k: nat)
    requires |ps| == |ds| && (k == 0 || k < |ds|)
    requires Collect(ps, ds, k).Ok?
    ensures var out := Collect(ps, ds, k).value;
            && |out| <= k
            && (forall a :: 0 <= a < |out| ==> exists j :: 1 <= j <= k && out[a].date == ds[j] && ps[j] == Emit(out[a].value))
    decreases k
  {
    if k > 0 {
      CollectSources(ps, ds, k - 1);
      var acc := Collect(ps, ds, k - 1).value;
      var out := Collect(ps, ds, k).value;
      if ps[k].Emit? {
        assert out == acc + [Point(ds[k], ps[k].value)];
        forall a | 0 <= a < |out|
          ensures exists j :: 1 <= j <= k && out[a].date == ds[j] && ps[j] == Emit(out[a].value)
        {
          if a == |acc| {
            assert out[a] == Point(ds[k], ps[k].value);
          } else {
            assert out[a] == acc[a];
          }
        }
      }
    }
  }

  /** Every emitting period has its point. */
  lemma {:induction false} CollectComplete(ps: seq<Period>, ds: seq<int>, k: nat)
    requires |ps| == |ds| && (k == 0 || k < |ds|)
    requires Collect(ps, ds, k).Ok?
    ensures forall j :: 1 <= j <= k && ps[j].Emit? ==> Point(ds[j], ps[j].value) in Collect(ps, ds, k).value
    decreases k
  {
    if k > 0 {
      CollectComplete(ps, ds, k - 1);
    }
  }

  /** Over increasing dates the points come out at strictly increasing dates. */
  lemma {:induction false} CollectOrdered(ps: seq<Period>, ds: seq<int>, k: nat)
    requires |ps| == |ds| && (k == 0 || k < |ds|)
    requires forall i, j :: 0 <= i < j < |ds| ==> ds[i] < ds[j]
    requires Collect(ps, ds, k).Ok?
    ensures var out := Collect(ps, ds, k).value;
            forall a, b :: 0 <= a < b < |out| ==> out[a].date < out[b].date
    decreases k
  {
    if k > 0 {
      CollectOrdered(ps, ds, k - 1);
      CollectSources(ps, ds, k - 1);
      var acc := Collect(ps, ds, k - 1).value;
      forall a | 0 <= a < |acc| ensures acc[a].date < ds[k] {
        var j :| 1 <= j <= k - 1 && acc[a].date == ds[j] && ps[j] == Emit(acc[a].value);
      }
    }
  }

  /** The loop raises exactly when some period fails, and then with that
      period's error. */
  lemma {:induction false} CollectError(ps: seq<Period>, ds: seq<int>, k: nat)
    requires |ps| == |ds| && (k == 0 || k < |ds|)
    ensures Collect(ps, ds, k).Err? <==> exists j :: 1 <= j <= k && ps[j].Fail?
    ensures Collect(ps, ds, k).Err? ==> exists j :: 1 <= j <= k && ps[j] == Fail(Collect(ps, ds, k).error)
    decreases k
  {
    if k > 0 {
      CollectError(ps, ds, k - 1);
    }
  }

  /** Every selected row is a row of the momentum file. */
  lemma SelectedFromMom(mom: seq<MomRow>, t: int, n: int, k: nat)
    requires k < |Selected(mom, t, n)|
    ensures Selected(mom, t, n)[k] in mom
  {
    var cross := Cross(mom, t);
    var ranked := Ranked(cross);
    HeadPrefix(ranked, n);
    CrossMembers(mom, t);
    SortByPerm(cross, ScoreOf, ScoreGe);
    assert Selected(mom, t, n)[k] == ranked[k];
    assert ranked[k] in multiset(cross);
  }

  /** Period `j` of the list is the period formed at `ds[j - 1]`. */
  lemma PeriodsMatch(mom: seq<MomRow>, p: Panel, n: int, ds: seq<int>)
    ensures forall j :: 1 <= j < |ds| ==> Periods(mom, p, n, ds)[j] == PeriodAt(mom, p, n, ds[j - 1], ds[j])
  {
    forall j | 1 <= j < |ds| ensures Periods(mom, p, n, ds)[j] == PeriodAt(mom, p, n, ds[j - 1], ds[j]) {
      PeriodsAt(mom, p, n, ds, j);
    }
  }

  /** A period raises only `KeyError`, and never when every momentum id is
      a returns column. */
  lemma PeriodError(mom: seq<MomRow>, p: Panel, n: int, f: int, h: int)
    ensures PeriodAt(mom, p, n, f, h).Fail? ==> PeriodAt(mom, p, n, f, h).error == KeyError
    ensures (forall i :: 0 <= i < |mom| ==> mom[i].ticker in p.columns) ==> !PeriodAt(mom, p, n, f, h).Fail?
  {
    if forall i :: 0 <= i < |mom| ==> mom[i].ticker in p.columns {
      var sel := Selected(mom, f, n);
      forall q | 0 <= q < |sel| ensures sel[q].ticker in p.columns {
        SelectedFromMom(mom, f, n, q);
      }
      assert Covered(p, Tickers(sel));
    }
  }

  /** The errors of the loop over any dates: only `KeyError`, and none when
      every momentum id is a returns column. */
  lemma HoldingsError(mom: seq<MomRow>, p: Panel, n: int, ds: seq<int>)
    ensures Holdings(mom, p, n, ds).Err? ==> Holdings(mom, p, n, ds).error == KeyError
    ensures (forall i :: 0 <= i < |mom| ==> mom[i].ticker in p.columns) ==> Holdings(mom, p, n, ds).Ok?
  {
    var ps := Periods(mom, p, n, ds);
    var k := if |ds| == 0 then 0 else |ds| - 1;
    PeriodsMatch(mom, p, n, ds);
    CollectError(ps, ds, k);
    if Collect(ps, ds, k).Err? {
      var j :| 1 <= j <= k && ps[j] == Fail(Collect(ps, ds, k).error);
      PeriodError(mom, p, n, ds[j - 1], ds[j]);
    }
    if forall i :: 0 <= i < |mom| ==> mom[i].ticker in p.columns {
      forall j | 1 <= j <= k ensures !ps[j].Fail? {
        PeriodError(mom, p, n, ds[j - 1], ds[j]);
      }
    }
  }

  /** Over increasing dates, the holding dates of the result strictly increase. */
  lemma HoldingsOrdered(mom: seq<MomRow>, p: Panel, n: int, ds: seq<int>)
    requires forall i, j :: 0 <= i < j < |ds| ==> ds[i] < ds[j]
    requires Holdings(mom, p, n, ds).Ok?
    ensures var out := Holdings(mom, p, n, ds).value;
            forall a, b :: 0 <= a < b < |out| ==> out[a].date < out[b].date
  {
    CollectOrdered(Periods(mom, p, n, ds), ds, if |ds| == 0 then 0 else |ds| - 1);
  }

  /** Each point sits at a date `ds[j]` other than the first and carries
      the mean of period `j` (`PeriodsMatch`); there are fewer points than
      dates. */
  lemma HoldingsSources(mom: seq<MomRow>, p: Panel, n: int, ds: seq<int>)
    requires Holdings(mom, p, n, ds).Ok?
    ensures var ps := Periods(mom, p, n, ds);
            var out := Holdings(mom, p, n, ds).value;
            && |out| <= (if |ds| == 0 then 0 else |ds| - 1)
            && forall a :: 0 <= a < |out| ==> exists j :: 1 <= j < |ds| && out[a].date == ds[j] && ps[j] == Emit(out[a].value)
  {
    CollectSources(Periods(mom, p, n, ds), ds, if |ds| == 0 then 0 else |ds| - 1);
  }

  /** Every period that has a mean has its point: no emitted return is lost. */
  lemma HoldingsComplete(mom: seq<MomRow>, p: Panel, n: int, ds: seq<int>)
    requires Holdings(mom, p, n, ds).Ok?
    ensures var ps := Periods(mom, p, n, ds);
            forall j :: 1 <= j < |ds| && ps[j].Emit? ==> Point(ds[j], ps[j].value) in Holdings(mom, p, n, ds).value
  {
    CollectComplete(Periods(mom, p, n, ds), ds, if |ds| == 0 then 0 else |ds| - 1);
  }

  /** `build_portfolio_returns` raises only `KeyError`, and cannot raise
      when every momentum id is a returns column (as `load_inputs` ensures
      for the ids it keeps). */
  lemma PortfolioReturnsError(mom: seq<MomRow>, p: Panel, n: int)
    ensures PortfolioReturns(mom, p, n).Err? ==> PortfolioReturns(mom, p, n).error == KeyError
    ensures (forall i :: 0 <= i < |mom| ==> mom[i].ticker in p.columns) ==> PortfolioReturns(mom, p, n).Ok?
  {
    HoldingsError(mom, p, n, FormationDates(mom));
  }

  /** The holding dates of `build_portfolio_returns` strictly increase. */
  lemma PortfolioReturnsOrdered(mom: seq<MomRow>, p: Panel, n: int)
    requires PortfolioReturns(mom, p, n).Ok?
    ensures var out := PortfolioReturns(mom, p, n).value;
            forall a, b :: 0 <= a < b < |out| ==> out[a].date < out[b].date
  {
    FormationDatesSorted(mom);
    HoldingsOrdered(mom, p, n, FormationDates(mom));
  }

  /** The ranking is a reordering of the cross-section, best score first. */
  lemma RankedOrder(cross: seq<MomRow>)
    ensures multiset(Ranked(cross)) == multiset(cross)
    ensures forall i, j :: 0 <= i < j < |cross| ==> ScoreGe(Ranked(cross)[i].score, Ranked(cross)[j].score)
  {
    ScoreGeTotal();
    SortBySorted(cross, ScoreOf, ScoreGe);
    SortByPerm(cross, ScoreOf, ScoreGe);
  }

  /** `head(n)` is a prefix, of length `min(n, |s|)` for `n >= 0`. */
  lemma HeadPrefix<T>(s: seq<T>, n: int)
    ensures Head(s, n) == s[..|Head(s, n)|]
    ensures n >= 0 ==> |Head(s, n)| == if n < |s| then n else |s|
    ensures n < 0 ==> |Head(s, n)| == if |s| + n > 0 then |s| + n else 0
  {
  }

  /** The selection rule at one formation date: the ranked rows are the
      defined scores at `t` reordered, best first; a non-negative `n` keeps
      `min(n, count)` of them, all from the front, so no kept score is below
      a dropped one. */
  lemma SelectionRule(mom: seq<MomRow>, t: int, n: int)
    ensures var cross := Cross(mom, t);
            var ranked := Ranked(cross);
            var sel := Selected(mom, t, n);
            && multiset(ranked) == multiset(cross)
            && sel == ranked[..|sel|]
            && (n >= 0 ==> |sel| == if n < |cross| then n else |cross|)
            && (forall i, j :: 0 <= i < |sel| <= j < |ranked| ==> ScoreGe(ranked[i].score, ranked[j].score))
            && (forall i :: 0 <= i < |sel| ==> sel[i].date == Some(t) && !sel[i].score.NaN?)
  {
    var cross := Cross(mom, t);
    var ranked := Ranked(cross);
    RankedOrder(cross);
    HeadPrefix(ranked, n);
    var sel := Selected(mom, t, n);
    forall i | 0 <= i < |sel| ensures sel[i].date == Some(t) && !sel[i].score.NaN? {
      SelectedDefined(mom, t, n, i);
    }
  }

  /** Every selected row is dated `t` and has a defined score. */
  lemma SelectedDefined(mom: seq<MomRow>, t: int, n: int, k: nat)
    requires k < |Selected(mom, t, n)|
    ensures Selected(mom, t, n)[k].date == Some(t) && !Selected(mom, t, n)[k].score.NaN?
  {
    var cross := Cross(mom, t);
    var ranked := Ranked(cross);
    HeadPrefix(ranked, n);
    CrossMembers(mom, t);
    SortByPerm(cross, ScoreOf, ScoreGe);
    assert Selected(mom, t, n)[k] == ranked[k];
    assert ranked[k] in multiset(cross);
  }

  lemma PresentSingle(x: Option<real>)
    ensures Present([x]) == if x.Some? then [x.value] else []
  {
    assert [x][..0] == [];
  }

  lemma MeanSingle(v: real)
    ensures Mean([v]) == v
  {
    assert [v][..0] == [];
    assert Sum([v]) == Sum([]) + v;
  }

  /** A Top-1 portfolio that emits realises exactly the return of the
      best-ranked id at the holding date. */
  lemma TopOneRealisesLeader(mom: seq<MomRow>, p: Panel, f: int, h: int)
    requires PeriodAt(mom, p, 1, f, h).Emit?
    ensures var leader := Ranked(Cross(mom, f))[0].ticker;
            (h, leader) in p.cells && PeriodAt(mom, p, 1, f, h).value == p.cells[(h, leader)]
  {
    var ranked := Ranked(Cross(mom, f));
    var sel := Selected(mom, f, 1);
    HeadPrefix(ranked, 1);
    assert sel == [ranked[0]];
    var tickers := Tickers(sel);
    assert tickers == [ranked[0].ticker];
    var got := Realised(p, h, tickers);
    assert got == [got[0]];
    PresentSingle(got[0]);
    assert Holding(p, h, tickers) == Average(Present(got));
    assert got[0].Some?;
    MeanSingle(got[0].value);
  }

  /** The three statistics of `annualized_metrics`. */
  datatype Annualized = Annualized(ret: Float, vol: Float, sharpe: Float)

  /** `annualized_metrics(returns)`: NaN for all three on an empty series;
      otherwise the geometric annual return, the sample volatility (NaN below
      two points) and their ratio (NaN unless the volatility is positive).
      The results coincide with `cagr`, `ann_vol` and `sharpe` of
      src/momentum/metrics.py. */
  function AnnualizedMetrics(num: Numerics, rs: seq<Option<real>>): (m: Annualized)
    ensures Present(rs) == [] ==> m.ret.NaN? && m.vol.NaN? && m.sharpe.NaN?
    ensures |Present(rs)| == 1 ==> m.vol.NaN? && m.sharpe.NaN?
    ensures m.ret == Cagr(num, rs) && m.vol == AnnVol(num, rs) && m.sharpe == Sharpe(num, rs)
  {
    var r := Present(rs);
    if |r| == 0 then Annualized(NaN, NaN, NaN)
    else
      var yrs := (|r| as real) / 12.0;
      var annReturn := MinusOne(num.pow(GrossProd(r), 1.0 / yrs));
      var annVol := if |r| > 1 then Num(num.sqrt(SampleVariance(r)) * num.sqrt(12.0)) else NaN;
      var sharpe := if annVol.Num? && annVol.v > 0.0 then DivPos(annReturn, annVol.v) else NaN;
      Annualized(annReturn, annVol, sharpe)
  }
}
