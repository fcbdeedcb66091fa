/** Monthly return series as the metric and report scripts hold them: a date
    index with float values, `dropna`, `sort_index`, the inner `align` of two
    series, and the three cumulative-index conventions of the repository
    (src/momentum/metrics.py, scripts/build_portfolio.py and
    scripts/relative_performance.py). */
module Series {
  import opened Common
  import opened Sorting

  /** One entry of a return series: its month and its value (`None` is NaN). */
  datatype Obs = Obs(date: int, value: Option<real>)

  /** One entry of a series with no missing value. */
  datatype Point = Point(date: int, value: real)

  /** A series with a name (one entry of a `dict[str, pd.Series]`). */
  datatype Named = Named(name: string, series: seq<Obs>)

  function ObsDate(o: Obs): int { o.date }

  function PointDate(p: Point): int { p.date }

  /** `sort_index()`. */
  function SortObs(s: seq<Obs>): (r: seq<Obs>)
    ensures |r| == |s| && multiset(r) == multiset(s)
  {
    SortByPerm(s, ObsDate, IntLe);
    SortBy(s, ObsDate, IntLe)
  }

  lemma SortObsSorted(s: seq<Obs>)
    ensures SortedBy(SortObs(s), ObsDate, IntLe)
  {
    IntLeTotal();
    SortBySorted(s, ObsDate, IntLe);
  }

  /** `sort_index()` on a series without missing values. */
  function SortPoints(s: seq<Point>): (r: seq<Point>)
    ensures |r| == |s| && multiset(r) == multiset(s)
  {
    SortByPerm(s, PointDate, IntLe);
    SortBy(s, PointDate, IntLe)
  }

  lemma SortPointsSorted(s: seq<Point>)
    ensures SortedBy(SortPoints(s), PointDate, IntLe)
  {
    IntLeTotal();
    SortBySorted(s, PointDate, IntLe);
  }

  /** `dropna()`: the defined entries, in order. */
  function DropNa(s: seq<Obs>): (r: seq<Point>)
    ensures |r| <= |s|
    ensures forall p :: p in r <==> Obs(p.date, Some(p.value)) in s
  {
    if |s| == 0 then []
    else
      var n := |s| - 1;
      var rest := DropNa(s[..n]);
      assert s == s[..n] + [s[n]];
      match s[n].value
      case None => rest
      case Some(v) => rest + [Point(s[n].date, v)]
  }

  /** The number of defined entries. */
  function CountDefined(s: seq<Obs>): (c: nat)
    ensures c <= |s|
  {
    if |s| == 0 then 0 else CountDefined(s[..|s| - 1]) + (if s[|s| - 1].value.Some? then 1 else 0)
  }

  lemma {:induction false} DropNaLength(s: seq<Obs>)
    ensures |DropNa(s)| == CountDefined(s)
  {
    if s != [] {
      DropNaLength(s[..|s| - 1]);
    }
  }

  /** `dropna().sort_index()`. */
  function Clean(s: seq<Obs>): (r: seq<Point>)
    ensures |r| == |DropNa(s)|
    ensures forall p :: p in r <==> Obs(p.date, Some(p.value)) in s
  {
    var d := DropNa(s);
    var r := SortPoints(d);
    assert forall p :: p in r <==> p in multiset(r);
    assert forall p :: p in d <==> p in multiset(d);
    r
  }

  function Values(s: seq<Point>): (v: seq<real>)
    ensures |v| == |s| && forall k :: 0 <= k < |s| ==> v[k] == s[k].value
  {
    seq(|s|, k requires 0 <= k < |s| => s[k].value)
  }

  function Dates(s: seq<Point>): (d: seq<int>)
    ensures |d| == |s| && forall k :: 0 <= k < |s| ==> d[k] == s[k].date
  {
    seq(|s|, k requires 0 <= k < |s| => s[k].date)
  }

  /** `fillna(0)` over a series' values. */
  function Filled(s: seq<Obs>): (f: seq<real>)
    ensures |f| == |s| && forall k :: 0 <= k < |s| ==> f[k] == FillZero(s[k].value)
  {
    seq(|s|, k requires 0 <= k < |s| => FillZero(s[k].value))
  }

  /** The entries on or after month `c` (`v[v.index >= c]`), in order. */
  function Since(s: seq<Obs>, c: int): (r: seq<Obs>)
    ensures |r| <= |s|
    ensures forall o :: o in r <==> o in s && o.date >= c
  {
    if |s| == 0 then []
    else
      assert forall o :: o in s <==> o == s[0] || o in s[1..];
      (if s[0].date >= c then [s[0]] else []) + Since(s[1..], c)
  }

  /** `s.index.min()` of a non-empty series. */
  function MinDate(s: seq<Obs>): (m: int)
    requires s != []
    ensures exists k :: 0 <= k < |s| && s[k].date == m
    ensures forall k :: 0 <= k < |s| ==> m <= s[k].date
  {
    if |s| == 1 then s[0].date
    else
      var m := MinDate(s[1..]);
      assert forall k :: 1 <= k < |s| ==> s[k] == s[1..][k - 1];
      if s[0].date <= m then s[0].date else m
  }

  /** The value of the first entry of `b` dated `d`. */
  function ValueAt(b: seq<Point>, d: int): (v: real)
    requires d in Dates(b)
    ensures exists k :: 0 <= k < |b| && b[k].date == d && b[k].value == v
                        && forall k' :: 0 <= k' < k ==> b[k'].date != d
  {
    if b[0].date == d then b[0].value
    else
      assert d in Dates(b[1..]) by {
        var k :| 0 <= k < |b| && Dates(b)[k] == d;
        assert Dates(b[1..])[k - 1] == d;
      }
      var v := ValueAt(b[1..], d);
      assert forall k :: 1 <= k < |b| ==> b[k] == b[1..][k - 1];
      v
  }

  /** The entries of `a` whose date also indexes `b`, in `a`'s order. */
  function Overlap(a: seq<Point>, b: seq<Point>): (r: seq<Point>)
    ensures |r| <= |a|
    ensures forall p :: p in r <==> p in a && p.date in Dates(b)
  {
    if |a| == 0 then []
    else
      assert forall p :: p in a <==> p == a[0] || p in a[1..];
      (if a[0].date in Dates(b) then [a[0]] else []) + Overlap(a[1..], b)
  }

  /** `a.align(b, join="inner")` on two date-sorted series with unique
      dates: both sides on the shared dates, as paired value lists. */
  function InnerAlign(a: seq<Point>, b: seq<Point>): (r: (seq<real>, seq<real>))
    ensures |r.0| == |r.1| == |Overlap(a, b)|
    ensures forall k :: 0 <= k < |r.0| ==> r.0[k] == Overlap(a, b)[k].value
    ensures forall k :: 0 <= k < |r.1| ==>
              Overlap(a, b)[k].date in Dates(b) && r.1[k] == ValueAt(b, Overlap(a, b)[k].date)
  {
    var o := Overlap(a, b);
    assert forall k :: 0 <= k < |o| ==> o[k] in o;
    (Values(o), seq(|o|, k requires 0 <= k < |o| => ValueAt(b, o[k].date)))
  }

  /** `start` times the growth of the returns strictly before each position:
      `(1 + v).cumprod().shift(1, fill_value=1.0) * start`. */
  function AnchoredGrowth(v: seq<real>, start: real): (a: seq<real>)
    ensures |a| == |v|
    ensures a != [] ==> a[0] == start
  {
    seq(|v|, k requires 0 <= k < |v| => GrossProd(v[..k]) * start)
  }

  lemma AnchoredGrowthStep(v: seq<real>, start: real, k: nat)
    requires k + 1 < |v|
    ensures AnchoredGrowth(v, start)[k + 1] == AnchoredGrowth(v, start)[k] * (1.0 + v[k])
  {
    assert v[..k + 1][..k] == v[..k];
    var g := GrossProd(v[..k]);
    assert GrossProd(v[..k + 1]) * start == g * (1.0 + v[k]) * start;
    assert g * (1.0 + v[k]) * start == g * start * (1.0 + v[k]);
  }

  /** `start` times the growth of the returns up to and including each
      position: `(1 + v).cumprod() * start`. */
  function RunningGrowth(v: seq<real>, start: real): (a: seq<real>)
    ensures |a| == |v|
  {
    seq(|v|, k requires 0 <= k < |v| => GrossProd(v[..k + 1]) * start)
  }

  lemma RunningGrowthStep(v: seq<real>, start: real, k: nat)
    requires k < |v|
    ensures k == 0 ==> RunningGrowth(v, start)[0] == start * (1.0 + v[0])
    ensures k > 0 ==> RunningGrowth(v, start)[k] == RunningGrowth(v, start)[k - 1] * (1.0 + v[k])
  {
    assert v[..k + 1][..k] == v[..k];
    if k == 0 {
      assert v[..1][..0] == [];
    }
    var g := GrossProd(v[..k]);
    assert GrossProd(v[..k + 1]) * start == g * (1.0 + v[k]) * start;
    assert g * (1.0 + v[k]) * start == g * start * (1.0 + v[k]);
  }

  /** The two growth conventions differ by the shift alone. */
  lemma AnchoredIsShiftedRunning(v: seq<real>, start: real, k: nat)
    requires k + 1 < |v|
    ensures AnchoredGrowth(v, start)[k + 1] == RunningGrowth(v, start)[k]
  {
  }

  /** A date index paired with values. */
  function WithDates(d: seq<int>, v: seq<real>): (s: seq<Point>)
    requires |d| == |v|
    ensures |s| == |d| && forall k :: 0 <= k < |d| ==> s[k] == Point(d[k], v[k])
  {
    seq(|d|, k requires 0 <= k < |d| => Point(d[k], v[k]))
  }

  function ObsDates(s: seq<Obs>): (d: seq<int>)
    ensures |d| == |s| && forall k :: 0 <= k < |s| ==> d[k] == s[k].date
  {
    seq(|s|, k requires 0 <= k < |s| => s[k].date)
  }

  /** The cumulative index of src/momentum/metrics.py: sorted by date, missing
      returns counted as 0, and shifted one step so that the first date
      carries `start` itself. */
  function CumIndexAnchored(rets: seq<Obs>, start: real): (c: seq<Point>)
    ensures |c| == |rets|
    ensures forall k :: 0 <= k < |c| ==> c[k].date == SortObs(rets)[k].date
    ensures c != [] ==> c[0].value == start
  {
    var r := SortObs(rets);
    WithDates(ObsDates(r), AnchoredGrowth(Filled(r), start))
  }

  /** Each anchored entry is the previous one grown by the previous return. */
  lemma CumIndexAnchoredStep(rets: seq<Obs>, start: real, k: nat)
    requires k + 1 < |rets|
    ensures var c := CumIndexAnchored(rets, start);
            c[k + 1].value == c[k].value * (1.0 + FillZero(SortObs(rets)[k].value))
  {
    AnchoredGrowthStep(Filled(SortObs(rets)), start, k);
  }

  /** The anchored index runs forward in time. */
  lemma CumIndexAnchoredSorted(rets: seq<Obs>, start: real)
    ensures forall i, j :: 0 <= i < j < |rets| ==>
              CumIndexAnchored(rets, start)[i].date <= CumIndexAnchored(rets, start)[j].date
  {
    SortObsSorted(rets);
  }

  /** The cumulative index of scripts/build_portfolio.py: no sort and no
      anchor, so entry `k` already includes return `k`. */
  function CumIndexUnanchored(rets: seq<Obs>, start: real): (c: seq<Point>)
    ensures |c| == |rets|
    ensures forall k :: 0 <= k < |c| ==> c[k].date == rets[k].date
  {
    WithDates(ObsDates(rets), RunningGrowth(Filled(rets), start))
  }

  /** The first unanchored entry is `start` grown by the first return, and
      each later one is the previous one grown by its own return. */
  lemma CumIndexUnanchoredStep(rets: seq<Obs>, start: real, k: nat)
    requires k < |rets|
    ensures k == 0 ==> CumIndexUnanchored(rets, start)[0].value == start * (1.0 + FillZero(rets[0].value))
    ensures k > 0 ==> CumIndexUnanchored(rets, start)[k].value ==
                      CumIndexUnanchored(rets, start)[k - 1].value * (1.0 + FillZero(rets[k].value))
  {
    RunningGrowthStep(Filled(rets), start, k);
  }

  /** On a date-sorted series the anchored index one step later equals the
      unanchored one. */
  lemma AnchoredIsShiftedUnanchored(rets: seq<Obs>, start: real, k: nat)
    requires k + 1 < |rets|
    requires SortObs(rets) == rets
    ensures CumIndexAnchored(rets, start)[k + 1].value == CumIndexUnanchored(rets, start)[k].value
  {
    AnchoredIsShiftedRunning(Filled(rets), start, k);
  }

  /** The anchored index of a series with no missing value, in its order. */
  function PointsIndex(r: seq<Point>, start: real): (c: seq<Point>)
    ensures |c| == |r| && forall k :: 0 <= k < |r| ==> c[k].date == r[k].date
    ensures c != [] ==> c[0].value == start
  {
    WithDates(Dates(r), AnchoredGrowth(Values(r), start))
  }

  lemma PointsIndexStep(r: seq<Point>, start: real, k: nat)
    requires k + 1 < |r|
    ensures PointsIndex(r, start)[k + 1].value == PointsIndex(r, start)[k].value * (1.0 + r[k].value)
  {
    AnchoredGrowthStep(Values(r), start, k);
  }

  /** The cumulative index of scripts/relative_performance.py is
      `PointsIndex(Clean(rets), start)`: missing returns are dropped, not
      counted as 0, before the anchored product, so it has one entry per
      defined return. */
  lemma DroppedIndexLength(rets: seq<Obs>, start: real)
    ensures |PointsIndex(Clean(rets), start)| == CountDefined(rets)
  {
    DropNaLength(rets);
  }

  /** Every entry of the dropped index sits on the date of a defined input entry. */
  lemma DroppedIndexDates(rets: seq<Obs>, start: real, k: nat)
    requires k < |Clean(rets)|
    ensures exists v :: Obs(PointsIndex(Clean(rets), start)[k].date, Some(v)) in rets
  {
    var p := Clean(rets)[k];
    assert p in Clean(rets);
  }
}
