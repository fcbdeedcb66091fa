/** The large-cap universe of the build scripts (scripts/build_momentum.py,
    scripts/build_features.py): ids whose parsed market cap exceeds 10 billion,
    intersected with the stock columns of the price file in that file's order. */
module Universe {
  import opened Common
  import opened Text
  import opened Columns

  /** A semicolon-separated table as read: a header and rows of raw cell text. */
  datatype Table = Table(columns: seq<string>, rows: seq<seq<string>>)

  predicate Rectangular(t: Table) {
    forall i :: 0 <= i < |t.rows| ==> |t.rows[i]| == |t.columns|
  }

  /** The position of the first column with an exact header (`df[name]`),
      or of the first row with a label (`df.loc[label]`). */
  function IndexOf<T(==)>(cols: seq<T>, name: T): (r: Option<nat>)
    ensures r.None? <==> name !in cols
    ensures r.Some? ==> r.value < |cols| && cols[r.value] == name
    ensures r.Some? ==> forall j :: 0 <= j < r.value ==> cols[j] != name
  {
    if |cols| == 0 then None
    else if cols[0] == name then Some(0)
    else match IndexOf(cols[1..], name)
      case None => None
      case Some(j) => Some(j + 1)
  }

  /** The cells of column `j`, top to bottom. */
  function Cells(t: Table, j: nat): (c: seq<string>)
    requires Rectangular(t) && j < |t.columns|
    ensures |c| == |t.rows|
  {
    seq(|t.rows|, i requires 0 <= i < |t.rows| => t.rows[i][j])
  }

  /** The id column after `astype(str).str.strip()`. */
  function Ids(t: Table, nr: nat): (ids: seq<string>)
    requires Rectangular(t) && nr < |t.columns|
    ensures |ids| == |t.rows|
  {
    var c := Cells(t, nr);
    seq(|c|, i requires 0 <= i < |c| => Trim(c[i]))
  }

  /** The market-cap text as `_to_float_series` sees it: the id column was
      stripped in place first, which matters only when both are one column. */
  function CapText(t: Table, nr: nat, mcap: nat): (c: seq<string>)
    requires Rectangular(t) && nr < |t.columns| && mcap < |t.columns|
    ensures |c| == |t.rows|
  {
    if mcap == nr then Ids(t, nr) else Cells(t, mcap)
  }

  /** `set(basic.loc[basic[mcap] > 10_000_000_000, nr])`. */
  function EligibleIds(ids: seq<string>, caps: seq<Option<real>>): (e: set<string>)
    requires |ids| == |caps|
    ensures forall x :: x in e <==>
              exists i :: 0 <= i < |ids| && ids[i] == x && caps[i].Some? && caps[i].value > LargeCap
  {
    if |ids| == 0 then {}
    else
      var n := |ids| - 1;
      var rest := EligibleIds(ids[..n], caps[..n]);
      assert forall i :: 0 <= i < n ==> ids[..n][i] == ids[i] && caps[..n][i] == caps[i];
      if caps[n].Some? && caps[n].value > LargeCap then rest + {ids[n]} else rest
  }

  /** `[c for c in all_stock_cols if str(c) in eligible_ids]`. */
  function KeepStockColumns(stock: seq<string>, eligible: set<string>): (r: seq<string>)
    ensures |r| <= |stock|
    ensures forall c :: c in r <==> c in stock && c in eligible
  {
    if |stock| == 0 then []
    else (if stock[0] in eligible then [stock[0]] else []) + KeepStockColumns(stock[1..], eligible)
  }

  /** The filter keeps the price file's column order: it distributes over
      concatenation. */
  lemma {:induction false} KeepStockColumnsAppend(a: seq<string>, b: seq<string>, eligible: set<string>)
    ensures KeepStockColumns(a + b, eligible) == KeepStockColumns(a, eligible) + KeepStockColumns(b, eligible)
    decreases |a|
  {
    if a == [] {
      assert a + b == b;
    } else {
      assert (a + b)[0] == a[0] && (a + b)[1..] == a[1..] + b;
      KeepStockColumnsAppend(a[1..], b, eligible);
    }
  }

  /** The common tail of both scripts once the id column `nr` and the cap
      column `mcap` are known: the kept stock columns, a `ValueError` from
      `astype(float)` on unparsable cap text, or a `ValueError` when no stock
      column is eligible. */
  function SelectLargeCaps(parse: string -> Option<real>, t: Table, nr: nat, mcap: nat,
                           stock: seq<string>): (r: Result<seq<string>>)
    requires Rectangular(t) && nr < |t.columns| && mcap < |t.columns|
    ensures ToFloatSeries(parse, CapText(t, nr, mcap)).Err? ==> r == Err(ValueError)
    ensures ToFloatSeries(parse, CapText(t, nr, mcap)).Ok? ==>
              var e := EligibleIds(Ids(t, nr), ToFloatSeries(parse, CapText(t, nr, mcap)).value);
              && (r.Ok? <==> exists c :: c in stock && c in e)
              && (r.Err? ==> r.error == ValueError)
              && (r.Ok? ==> r.value == KeepStockColumns(stock, e))
  {
    match ToFloatSeries(parse, CapText(t, nr, mcap))
    case Err(_) => Err(ValueError)
    case Ok(caps) =>
      var e := EligibleIds(Ids(t, nr), caps);
      var keep := KeepStockColumns(stock, e);
      if |keep| == 0 then
        assert forall c :: c in stock ==> c !in e;
        Err(ValueError)
      else
        assert keep[0] in stock && keep[0] in e;
        Ok(keep)
  }

  /** The id and market-cap header candidates of scripts/build_features.py. */
  const IdCandidates: seq<string> := ["NR", "Nr", "Id", "ID", "Ticker", "Symbol"]
  const CapCandidates: seq<string> :=
    ["MktCap", "MarketCap", "Market Cap", "Company Market Capitalization",
     "Company Market Capitalization (Local)", "Market Capitalization"]

  /** scripts/build_features.py: the columns are found by `_find_column`, and a
      missing one raises `ValueError` before anything is parsed. */
  function FeaturesUniverse(parse: string -> Option<real>, basic: Table, stock: seq<string>): (r: Result<seq<string>>)
    requires Rectangular(basic)
    ensures FindColumnSpec(basic.columns, IdCandidates).None? ==> r == Err(ValueError)
    ensures FindColumnSpec(basic.columns, CapCandidates).None? ==> r == Err(ValueError)
    ensures r.Ok? ==> r.value != [] && forall c :: c in r.value ==> c in stock
  {
    ResolveAndSelect(parse, basic, stock, IdCandidates, CapCandidates)
  }

  function ResolveAndSelect(parse: string -> Option<real>, basic: Table, stock: seq<string>,
                            idCands: seq<string>, capCands: seq<string>): (r: Result<seq<string>>)
    requires Rectangular(basic)
    ensures FindColumnSpec(basic.columns, idCands).None? ==> r == Err(ValueError)
    ensures FindColumnSpec(basic.columns, capCands).None? ==> r == Err(ValueError)
    ensures r.Ok? ==> r.value != [] && forall c :: c in r.value ==> c in stock
  {
    var nrCol := FindColumnSpec(basic.columns, idCands);
    var capCol := FindColumnSpec(basic.columns, capCands);
    if nrCol.None? || capCol.None? then Err(ValueError)
    else
      var nr := IndexOf(basic.columns, nrCol.value).value;
      var mcap := IndexOf(basic.columns, capCol.value).value;
      SelectLargeCaps(parse, basic, nr, mcap, stock)
  }

  /** The fixed headers of scripts/build_momentum.py. */
  const MomentumIdHeader: string := "NR"
  const MomentumCapHeader: string := " Company Market Capitalization "

  /** scripts/build_momentum.py: the headers are fixed and matched exactly, so
      a missing one is a `KeyError` from `basic[...]`; the `None` test after
      them can never fire. */
  function MomentumUniverse(parse: string -> Option<real>, basic: Table, stock: seq<string>): (r: Result<seq<string>>)
    requires Rectangular(basic)
    ensures MomentumIdHeader !in basic.columns || MomentumCapHeader !in basic.columns ==> r == Err(KeyError)
    ensures r.Ok? ==> r.value != [] && forall c :: c in r.value ==> c in stock
    ensures r.Err? && MomentumIdHeader in basic.columns && MomentumCapHeader in basic.columns ==> r.error == ValueError
  {
    match (IndexOf(basic.columns, MomentumIdHeader), IndexOf(basic.columns, MomentumCapHeader))
    case (Some(nr), Some(mcap)) => SelectLargeCaps(parse, basic, nr, mcap, stock)
    case _ => Err(KeyError)
  }
}
