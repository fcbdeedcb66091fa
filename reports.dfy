/** The summary CSV files as the report scripts (scripts/pretty_table.py,
    scripts/summarize_results.py) read them: cells, frames with a row index,
    the header normalisation both scripts share, and label selection. */
module Reports {
  import opened Common
  import opened Text
  import opened Universe

  /** A cell as `read_csv` yields it: a float (NaN when the field is empty)
      or, in a column holding any non-numeric text, a string. */
  datatype Cell = Number(f: Float) | Str(s: string)

  /** A CSV file: the header and the data rows. */
  datatype Csv = Csv(header: seq<string>, rows: seq<seq<Cell>>)

  predicate CsvRect(c: Csv) {
    forall i :: 0 <= i < |c.rows| ==> |c.rows[i]| == |c.header|
  }

  /** Every file `read_csv` returns has one field per header in every row. */
  type Sheet = c: Csv | CsvRect(c) witness Csv([], [])

  /** A row label: the default `RangeIndex` position, or the text of the
      `Portfolio` column once it is the index. */
  datatype RowKey = Position(n: nat) | Label(s: string)

  datatype Frame = Frame(index: seq<RowKey>, columns: seq<string>, rows: seq<seq<Cell>>)

  predicate FrameRect(f: Frame) {
    && |f.rows| == |f.index|
    && forall i :: 0 <= i < |f.rows| ==> |f.rows[i]| == |f.columns|
  }

  /** The text labels of the index (`label in df.index`). */
  function RowLabels(f: Frame): (s: set<string>)
    ensures forall x :: x in s <==> Label(x) in f.index
  {
    set i | 0 <= i < |f.index| && f.index[i].Label? :: f.index[i].s
  }

  function ColumnSet(f: Frame): (s: set<string>)
    ensures forall x :: x in s <==> x in f.columns
  {
    set c | c in f.columns
  }

  /** `df.loc[row, col]` for a present row label and column, taking the first
      occurrence of each. */
  function At(f: Frame, row: string, col: string): (c: Cell)
    requires FrameRect(f) && row in RowLabels(f) && col in ColumnSet(f)
  {
    var i := IndexOf(f.index, Label(row)).value;
    var j := IndexOf(f.columns, col).value;
    f.rows[i][j]
  }

  /** The cell comes from the first row with the label and the first column
      with the header. */
  lemma AtFirst(f: Frame, row: string, col: string)
    requires FrameRect(f) && row in RowLabels(f) && col in ColumnSet(f)
    ensures exists i, j :: && 0 <= i < |f.index| && f.index[i] == Label(row)
                           && (forall i' :: 0 <= i' < i ==> f.index[i'] != Label(row))
                           && 0 <= j < |f.columns| && f.columns[j] == col
                           && (forall j' :: 0 <= j' < j ==> f.columns[j'] != col)
                           && At(f, row, col) == f.rows[i][j]
  {
    var i := IndexOf(f.index, Label(row)).value;
    var j := IndexOf(f.columns, col).value;
    assert At(f, row, col) == f.rows[i][j];
  }

  /** The header spellings both report scripts map onto one name. */
  const RenameMap: map<string, string> := map[
    "Ann. Return (CAGR)" := "Ann.Return",
    "Ann.Return (CAGR)" := "Ann.Return",
    "Annualized Return (CAGR)" := "Ann.Return",
    "Annualised Return (CAGR)" := "Ann.Return",
    "Ann. Vol" := "Ann.Vol",
    "Ann Vol" := "Ann.Vol",
    "Ann.Volatility" := "Ann.Vol",
    "Annualized Volatility" := "Ann.Vol",
    "Annualised Volatility" := "Ann.Vol",
    "Sharpe" := "Sharpe",
    "Sortino" := "Sortino",
    "p-HAC (vs BM)" := "p_HAC"
  ]

  /** `df.rename(columns=rename)`: unmapped names pass through. */
  function Rename(c: string): (r: string)
    ensures c in RenameMap ==> r == RenameMap[c]
    ensures c !in RenameMap ==> r == c
  {
    if c in RenameMap then RenameMap[c] else c
  }

  /** A header after `c.strip()` and the rename. */
  function NormalizeHeader(c: string): (r: string)
  {
    Rename(Trim(c))
  }

  lemma RenameTargets()
    ensures forall c :: c in RenameMap ==>
              RenameMap[c] in {"Ann.Return", "Ann.Vol", "Sharpe", "Sortino", "p_HAC"}
  {
  }

  /** A rename target carries no surrounding blanks and maps to itself. */
  predicate Fixed(t: string) {
    Trim(t) == t && Rename(t) == t
  }

  /** The three targets that are not spellings themselves: none equals a
      key of the map (only "Ann Vol" has the length of one of them). */
  lemma NotRenamed(v: string)
    requires |v| == 10 || |v| == 5 || v == "Ann.Vol"
    ensures v !in RenameMap
  {
    if v == "Ann.Vol" {
      assert v[3] != "Ann Vol"[3] && v[1] != "Sortino"[1];
    }
  }

  lemma ReturnFixed()
    ensures Fixed("Ann.Return")
  {
    NotRenamed("Ann.Return");
    TrimNoSpace("Ann.Return");
  }

  lemma VolFixed()
    ensures Fixed("Ann.Vol")
  {
    NotRenamed("Ann.Vol");
    TrimNoSpace("Ann.Vol");
  }

  lemma SharpeFixed()
    ensures Fixed("Sharpe")
  {
    assert "Sharpe" in RenameMap;
    assert RenameMap["Sharpe"] == "Sharpe";
    TrimNoSpace("Sharpe");
  }

  lemma SortinoFixed()
    ensures Fixed("Sortino")
  {
    assert "Sortino" in RenameMap;
    assert RenameMap["Sortino"] == "Sortino";
    TrimNoSpace("Sortino");
  }

  lemma PHacFixed()
    ensures Fixed("p_HAC")
  {
    NotRenamed("p_HAC");
    TrimNoSpace("p_HAC");
  }

  /** Normalising a header twice changes nothing more than normalising once. */
  lemma NormalizeHeaderIdempotent(c: string)
    ensures NormalizeHeader(NormalizeHeader(c)) == NormalizeHeader(c)
  {
    var t := Trim(c);
    if t in RenameMap {
      var v := RenameMap[t];
      RenameTargets();
      if v == "Ann.Return" { ReturnFixed(); }
      else if v == "Ann.Vol" { VolFixed(); }
      else if v == "Sharpe" { SharpeFixed(); }
      else if v == "Sortino" { SortinoFixed(); }
      else { PHacFixed(); }
    } else {
      TrimIdempotent(c);
    }
  }

  /** `astype(str)` of a cell; `show` renders a float as Python does. */
  function Render(show: Float -> string, c: Cell): string {
    match c
    case Number(x) => show(x)
    case Str(s) => s
  }

  function Without<T>(xs: seq<T>, p: nat): (r: seq<T>)
    requires p < |xs|
    ensures |r| == |xs| - 1
    ensures forall k :: 0 <= k < |r| ==> r[k] == if k < p then xs[k] else xs[k + 1]
  {
    xs[..p] + xs[p + 1..]
  }

  /** `df.columns = [c.strip() for c in df.columns]` then the rename. */
  function Headers(h: seq<string>): (r: seq<string>)
    ensures |r| == |h| && forall k :: 0 <= k < |h| ==> r[k] == NormalizeHeader(h[k])
  {
    seq(|h|, k requires 0 <= k < |h| => NormalizeHeader(h[k]))
  }

  /** `_normalize_cols` / `_normalize_perf_columns`: a `Portfolio` column, if
      any, becomes the index as text and leaves the columns; every other
      header is stripped and renamed; the rows keep their order. */
  function NormalizeCols(show: Float -> string, c: Sheet): (f: Frame)
    ensures FrameRect(f)
    ensures |f.index| == |c.rows|
    ensures "Portfolio" !in c.header ==>
              && (forall i :: 0 <= i < |f.index| ==> f.index[i] == Position(i))
              && f.columns == Headers(c.header) && f.rows == c.rows
    ensures "Portfolio" in c.header ==>
              var p := IndexOf(c.header, "Portfolio").value;
              && (forall i :: 0 <= i < |f.index| ==> f.index[i] == Label(Render(show, c.rows[i][p])))
              && f.columns == Headers(Without(c.header, p))
              && (forall i :: 0 <= i < |f.rows| ==> f.rows[i] == Without(c.rows[i], p))
  {
    match IndexOf(c.header, "Portfolio")
    case None =>
      Frame(seq(|c.rows|, i requires 0 <= i => Position(i)), Headers(c.header), c.rows)
    case Some(p) =>
      Frame(seq(|c.rows|, i requires 0 <= i < |c.rows| => Label(Render(show, c.rows[i][p]))),
            Headers(Without(c.header, p)),
            seq(|c.rows|, i requires 0 <= i < |c.rows| => Without(c.rows[i], p)))
  }

  /** `a` is `b` with some elements left out, order kept. */
  predicate IsSubseq<T(==)>(a: seq<T>, b: seq<T>)
    decreases |b|
  {
    |a| == 0 || (|b| > 0 && ((a[0] == b[0] && IsSubseq(a[1..], b[1..])) || IsSubseq(a, b[1..])))
  }

  /** `[w for w in wanted if w in have]`. */
  function PresentIn(wanted: seq<string>, have: set<string>): (r: seq<string>)
    ensures forall x :: x in r <==> x in wanted && x in have
    ensures IsSubseq(r, wanted)
  {
    if |wanted| == 0 then []
    else
      var rest := PresentIn(wanted[1..], have);
      if wanted[0] in have then
        assert ([wanted[0]] + rest)[1..] == rest;
        [wanted[0]] + rest
      else rest
  }

  /** The filter distributes over concatenation of the wanted list. */
  lemma {:induction false} PresentInAppend(a: seq<string>, b: seq<string>, have: set<string>)
    ensures PresentIn(a + b, have) == PresentIn(a, have) + PresentIn(b, have)
    decreases |a|
  {
    if |a| == 0 {
      assert a + b == b;
    } else {
      assert (a + b)[0] == a[0] && (a + b)[1..] == a[1..] + b;
      PresentInAppend(a[1..], b, have);
    }
  }

  /** A list without repeats keeps none after the filter. */
  lemma {:induction false} PresentInDistinct(wanted: seq<string>, have: set<string>)
    requires forall i, j :: 0 <= i < j < |wanted| ==> wanted[i] != wanted[j]
    ensures forall i, j :: 0 <= i < j < |PresentIn(wanted, have)| ==>
              PresentIn(wanted, have)[i] != PresentIn(wanted, have)[j]
    decreases |wanted|
  {
    if |wanted| > 0 {
      assert forall i, j :: 0 <= i < j < |wanted[1..]| ==> wanted[1..][i] != wanted[1..][j] by {
        forall i, j | 0 <= i < j < |wanted[1..]| ensures wanted[1..][i] != wanted[1..][j] {
          assert wanted[1..][i] == wanted[i + 1] && wanted[1..][j] == wanted[j + 1];
        }
      }
      PresentInDistinct(wanted[1..], have);
      var rest := PresentIn(wanted[1..], have);
      assert wanted[0] !in wanted[1..];
      assert wanted[0] !in rest;
      var r := PresentIn(wanted, have);
      if wanted[0] in have {
        assert r == [wanted[0]] + rest;
        forall i, j | 0 <= i < j < |r| ensures r[i] != r[j] {
          assert r[j] == rest[j - 1] && r[j] in rest;
          if i > 0 {
            assert r[i] == rest[i - 1];
            assert 0 <= i - 1 < j - 1 < |rest|;
          } else {
            assert r[i] == wanted[0];
          }
        }
      } else {
        assert r == rest;
      }
    }
  }

  /** `[f"Top {n}" for n in TOPNS]`. */
  function TopLabels(): (ls: seq<string>)
    ensures |ls| == |TopNs|
  {
    seq(|TopNs|, i requires 0 <= i < |TopNs| => TopLabel(TopNs[i]))
  }

  /** Where each script looks for the summary of horizon `L` first and second. */
  function PerfPath(L: nat): (p: string)
  {
    "results/performance_summary_" + NatToString(L) + "m.csv"
  }

  function MetricsPath(L: nat): (p: string)
  {
    "results/metrics_summary_" + NatToString(L) + "m.csv"
  }

  /** `int(label.split()[1])`: the second word of a row label as an integer;
      a label of one word raises `IndexError`, a non-number `ValueError`. */
  function ParseTopLabel(x: string): (r: Result<int>)
    ensures |Words(x)| < 2 ==> r == Err(IndexError)
    ensures |Words(x)| >= 2 ==> r == ParseInt(Words(x)[1])
  {
    var ws := Words(x);
    if |ws| < 2 then Err(IndexError) else ParseInt(ws[1])
  }

  /** Reading back a label `f"Top {n}"` gives `n`. */
  lemma ParseTopLabelRoundTrip(n: nat)
    ensures ParseTopLabel(TopLabel(n)) == Ok(n)
  {
    var d := NatToString(n);
    var s := TopLabel(n);
    assert s == "Top" + (" " + d);
    assert NoSpace("Top");
    LeadingWordWhole("Top", " " + d);
    assert s[|"Top"|..] == " " + d;
    assert (" " + d)[1..] == d;
    assert NoSpace(d);
    WordsOfWord(d);
    assert Words(" " + d) == Words(d);
    assert Words(s) == ["Top"] + Words(" " + d);
    ParseIntRoundTrip(n);
  }

  /** Distinct sizes give distinct labels. */
  lemma TopLabelInjective(a: nat, b: nat)
    requires TopLabel(a) == TopLabel(b)
    ensures a == b
  {
    ParseTopLabelRoundTrip(a);
    ParseTopLabelRoundTrip(b);
  }

  lemma TopLabelsDistinct()
    ensures forall i, j :: 0 <= i < j < |TopLabels()| ==> TopLabels()[i] != TopLabels()[j]
  {
    forall i, j | 0 <= i < j < |TopLabels()|
      ensures TopLabels()[i] != TopLabels()[j]
    {
      if TopLabels()[i] == TopLabels()[j] {
        TopLabelInjective(TopNs[i], TopNs[j]);
      }
    }
  }
}
