/** The key figures of scripts/data_summary.py: the required columns, the
    label column chosen for the chart, and the unique-id counts behind
    "valid market cap" and "market cap over 10 billion". */
module DataSummary {
  import opened Common
  import opened Text
  import opened Columns
  import opened Universe

  /** The header candidates `main` hands to `_find_column`. */
  const NrCandidates: seq<string> := ["NR", "Nr", "Id", "ID"]
  const NameCandidates: seq<string> := ["Company Common Name", "Common Name", "Name"]
  const SymbolCandidates: seq<string> := ["SYMBOL", "Symbol", "Ticker"]
  const McapCandidates: seq<string> :=
    ["MktCap", "MarketCap", "Market Cap", "Company Market Capitalization",
     "Company Market Capitalization (Local)", "Market Capitalization",
     " Company Market Capitalization "]

  /** The figures of the "key figures" table that the model covers. */
  datatype Summary = Summary(nTotal: nat, nValid: nat, nOver10b: nat, pctOver10b: real)

  /** `set(ids)`: what `nunique` counts (the ids are strings, never missing). */
  function IdSet(ids: seq<string>): (s: set<string>)
    ensures forall x :: x in s <==> x in ids
  {
    set i | 0 <= i < |ids| :: ids[i]
  }

  /** The ids of `valid`: rows whose parsed cap is present and positive. */
  function ValidIds(ids: seq<string>, caps: seq<Option<real>>): (s: set<string>)
    requires |ids| == |caps|
    ensures forall x :: x in s <==>
              exists i :: 0 <= i < |ids| && ids[i] == x && caps[i].Some? && caps[i].value > 0.0
  {
    set i | 0 <= i < |ids| && caps[i].Some? && caps[i].value > 0.0 :: ids[i]
  }

  /** The ids of `over10b`: valid rows whose cap exceeds 10 billion. */
  function LargeIds(ids: seq<string>, caps: seq<Option<real>>): (s: set<string>)
    requires |ids| == |caps|
    ensures forall x :: x in s <==>
              exists i :: && 0 <= i < |ids| && ids[i] == x && caps[i].Some?
                          && caps[i].value > 0.0 && caps[i].value > LargeCap
  {
    set i | 0 <= i < |ids| && caps[i].Some? && caps[i].value > 0.0 && caps[i].value > LargeCap :: ids[i]
  }

  lemma SubsetCard(a: set<string>, b: set<string>)
    requires a <= b
    ensures |a| <= |b|
  {
    assert b == a + (b - a);
  }

  /** Every large id is a valid id and every valid id is an id, so the three
      unique counts are ordered. */
  lemma CountsOrdered(ids: seq<string>, caps: seq<Option<real>>)
    requires |ids| == |caps|
    ensures LargeIds(ids, caps) <= ValidIds(ids, caps) <= IdSet(ids)
    ensures |LargeIds(ids, caps)| <= |ValidIds(ids, caps)| <= |IdSet(ids)|
  {
    SubsetCard(LargeIds(ids, caps), ValidIds(ids, caps));
    SubsetCard(ValidIds(ids, caps), IdSet(ids));
  }

  /** The `> 0` test adds nothing once the cap exceeds 10 billion: the
      over-10B ids are exactly the large-cap universe of the build scripts. */
  lemma LargeIdsAreEligible(ids: seq<string>, caps: seq<Option<real>>)
    requires |ids| == |caps|
    ensures LargeIds(ids, caps) == EligibleIds(ids, caps)
  {
  }

  /** `(n_over10b / n_total) * 100 if n_total > 0 else 0.0`: the share of
      ALL unique ids, not of the valid ones. */
  function Pct(over: nat, total: nat): (p: real)
    ensures total == 0 ==> p == 0.0
    ensures total > 0 ==> p * (total as real) == (over as real) * 100.0
  {
    if total > 0 then (over as real) / (total as real) * 100.0 else 0.0
  }

  lemma PctBounds(over: nat, total: nat)
    requires over <= total
    ensures 0.0 <= Pct(over, total) <= 100.0
  {
    if total > 0 {
      var p := Pct(over, total);
      assert p * (total as real) <= 100.0 * (total as real);
    }
  }

  /** The three unique counts and the share, for the stripped ids and the
      parsed caps of the same rows. */
  function Tally(ids: seq<string>, caps: seq<Option<real>>): (s: Summary)
    requires |ids| == |caps|
    ensures s.nOver10b <= s.nValid <= s.nTotal
    ensures s.nTotal == 0 <==> |ids| == 0
    ensures 0.0 <= s.pctOver10b <= 100.0
    ensures s.nTotal > 0 ==> s.pctOver10b * (s.nTotal as real) == (s.nOver10b as real) * 100.0
  {
    CountsOrdered(ids, caps);
    var total := |IdSet(ids)|;
    var over := |LargeIds(ids, caps)|;
    PctBounds(over, total);
    assert |ids| > 0 ==> ids[0] in IdSet(ids);
    Summary(total, |ValidIds(ids, caps)|, over, Pct(over, total))
  }

  /** The statistics part of `main` once the columns are known: the id
      column is stripped in place, then the cap column is cleaned (which may
      raise), then the ids are tallied. */
  function Counts(parse: string -> Option<real>, basic: Table, nr: nat, mcap: nat): (r: Result<Summary>)
    requires Rectangular(basic) && nr < |basic.columns| && mcap < |basic.columns|
    ensures ToFloatSeries(parse, CapText(basic, nr, mcap)).Err? <==> r == Err(ValueError)
    ensures r.Ok? ==> r.value == Tally(Ids(basic, nr), ToFloatSeries(parse, CapText(basic, nr, mcap)).value)
  {
    match ToFloatSeries(parse, CapText(basic, nr, mcap))
    case Err(_) => Err(ValueError)
    case Ok(caps) => Ok(Tally(Ids(basic, nr), caps))
  }

  /** `main` up to the key figures: a missing id or cap column is a
      `ValueError` raised before anything is parsed. */
  function Summarize(parse: string -> Option<real>, basic: Table): (r: Result<Summary>)
    requires Rectangular(basic)
    ensures FindColumnSpec(basic.columns, NrCandidates).None? ==> r == Err(ValueError)
    ensures FindColumnSpec(basic.columns, McapCandidates).None? ==> r == Err(ValueError)
    ensures r.Err? ==> r.error == ValueError
    ensures r.Ok? ==> r.value.nOver10b <= r.value.nValid <= r.value.nTotal
    ensures r.Ok? ==> (r.value.nTotal == 0 <==> |basic.rows| == 0)
    ensures r.Ok? ==> 0.0 <= r.value.pctOver10b <= 100.0
  {
    var nrCol := FindColumnSpec(basic.columns, NrCandidates);
    var capCol := FindColumnSpec(basic.columns, McapCandidates);
    if nrCol.None? || capCol.None? then Err(ValueError)
    else
      var nr := IndexOf(basic.columns, nrCol.value).value;
      var mcap := IndexOf(basic.columns, capCol.value).value;
      var r := Counts(parse, basic, nr, mcap);
      assert r.Ok? ==> |Ids(basic, nr)| == |basic.rows|;
      r
  }

  /** Which column `_pick_label_col` takes its labels from. */
  datatype LabelSource = NameColumn | SymbolColumn | IdColumn

  /** `if col and col in basic.columns`: a found, non-empty header. */
  predicate Present(cols: seq<string>, col: Option<string>) {
    col.Some? && |col.value| > 0 && col.value in cols
  }

  /** `_pick_label_col`: the name column when present, else the symbol
      column, else the id column. A present column is passed over only when
      the frame has no rows, since `astype(str)` leaves nothing missing for
      `notna().any()` to reject. */
  function PickLabelCol(cols: seq<string>, rowCount: nat, nameCol: Option<string>,
                        symbolCol: Option<string>): (src: LabelSource)
    ensures src == NameColumn <==> Present(cols, nameCol) && rowCount > 0
    ensures src == SymbolColumn <==>
              !(Present(cols, nameCol) && rowCount > 0) && Present(cols, symbolCol) && rowCount > 0
    ensures src == IdColumn <==> rowCount == 0 || (!Present(cols, nameCol) && !Present(cols, symbolCol))
  {
    if Present(cols, nameCol) && rowCount > 0 then NameColumn
    else if Present(cols, symbolCol) && rowCount > 0 then SymbolColumn
    else IdColumn
  }

  /** The `Label` column of the chart (`label_series.astype(str).str.strip()`):
      the chosen column stripped once more. The id column is read after
      `main` stripped it in place, the other two as loaded. */
  function Labels(basic: Table, nr: nat, nameCol: Option<string>, symbolCol: Option<string>): (ls: seq<string>)
    requires Rectangular(basic) && nr < |basic.columns|
    ensures |ls| == |basic.rows|
  {
    match PickLabelCol(basic.columns, |basic.rows|, nameCol, symbolCol)
    case NameColumn => StrippedCells(basic, IndexOf(basic.columns, nameCol.value).value)
    case SymbolColumn => StrippedCells(basic, IndexOf(basic.columns, symbolCol.value).value)
    case IdColumn =>
      var ids := Ids(basic, nr);
      seq(|ids|, i requires 0 <= i < |ids| => Trim(ids[i]))
  }

  function StrippedCells(basic: Table, j: nat): (c: seq<string>)
    requires Rectangular(basic) && j < |basic.columns|
    ensures |c| == |basic.rows|
  {
    seq(|basic.rows|, i requires 0 <= i < |basic.rows| => Trim(basic.rows[i][j]))
  }

  /** With the id column already stripped in place by `main`, the label of
      every row in the id-column case is its id: stripping twice changes
      nothing, so the chart labels agree with the ids counted above. */
  lemma LabelsOfIds(basic: Table, nr: nat, nameCol: Option<string>, symbolCol: Option<string>)
    requires Rectangular(basic) && nr < |basic.columns|
    requires PickLabelCol(basic.columns, |basic.rows|, nameCol, symbolCol) == IdColumn
    ensures Labels(basic, nr, nameCol, symbolCol) == Ids(basic, nr)
  {
    var ls := Labels(basic, nr, nameCol, symbolCol);
    var ids := Ids(basic, nr);
    forall i | 0 <= i < |ls|
      ensures ls[i] == ids[i]
    {
      TrimIdempotent(basic.rows[i][nr]);
    }
  }
}
