/** `_find_column` (scripts/build_features.py, scripts/data_summary.py and the
    unused copy in scripts/build_momentum.py): pick a column of a frame by a
    list of candidate headers, ignoring case and surrounding whitespace. */
module Columns {
  import opened Common
  import opened Text

  /** `str(c).strip().lower()`. */
  function NormKey(c: string): string {
    Lower(Trim(c))
  }

  /** `{str(c).strip().lower(): c for c in df.columns}`: a later column
      overwrites an earlier one with the same key. */
  function NormToOrig(cols: seq<string>): (m: map<string, string>)
    ensures m.Keys == set c | c in cols :: NormKey(c)
  {
    IndexBy(cols, NormKey)
  }

  /** A map from each key to the last element having it. */
  function IndexBy(cols: seq<string>, key: string -> string): (m: map<string, string>)
    ensures m.Keys == set c | c in cols :: key(c)
  {
    if |cols| == 0 then map[]
    else
      var init := cols[..|cols| - 1];
      assert cols == init + [cols[|cols| - 1]];
      IndexBy(init, key)[key(cols[|cols| - 1]) := cols[|cols| - 1]]
  }

  /** Each key maps to the LAST element that has it. */
  lemma {:induction false} IndexByLastWins(cols: seq<string>, key: string -> string, k: string)
    requires k in IndexBy(cols, key)
    ensures exists i :: && 0 <= i < |cols| && cols[i] == IndexBy(cols, key)[k] && key(cols[i]) == k
                        && (forall j :: i < j < |cols| ==> key(cols[j]) != k)
  {
    var n := |cols|;
    var init := cols[..n - 1];
    var last := cols[n - 1];
    var m := IndexBy(cols, key);
    assert m == IndexBy(init, key)[key(last) := last];
    if key(last) != k {
      assert k in IndexBy(init, key) && m[k] == IndexBy(init, key)[k];
      IndexByLastWins(init, key, k);
      var i :| && 0 <= i < |init| && init[i] == IndexBy(init, key)[k] && key(init[i]) == k
               && (forall j :: i < j < |init| ==> key(init[j]) != k);
      assert cols[i] == init[i];
      assert forall j :: i < j < n - 1 ==> cols[j] == init[j];
      assert forall j :: i < j < n ==> key(cols[j]) != k;
    } else {
      assert m[k] == last;
      assert cols[n - 1] == m[k] && key(cols[n - 1]) == k;
    }
  }

  lemma NormToOrigLastWins(cols: seq<string>, k: string)
    requires k in NormToOrig(cols)
    ensures exists i :: && 0 <= i < |cols| && cols[i] == NormToOrig(cols)[k] && NormKey(cols[i]) == k
                        && (forall j :: i < j < |cols| ==> NormKey(cols[j]) != k)
  {
    IndexByLastWins(cols, NormKey, k);
  }

  /** The candidate search, stated as a function: what `norm` holds for the
      first candidate whose key it has. */
  function FirstMatch(norm: map<string, string>, cands: seq<string>, key: string -> string): (r: Option<string>)
    ensures r.None? <==> forall i :: 0 <= i < |cands| ==> key(cands[i]) !in norm
    ensures r.Some? ==> exists i :: && 0 <= i < |cands| && key(cands[i]) in norm
                                    && r.value == norm[key(cands[i])]
                                    && (forall j :: 0 <= j < i ==> key(cands[j]) !in norm)
  {
    if |cands| == 0 then None
    else if key(cands[0]) in norm then Some(norm[key(cands[0])])
    else
      var r := FirstMatch(norm, cands[1..], key);
      assert forall i :: 1 <= i < |cands| ==> cands[i] == cands[1..][i - 1];
      if r.Some? then
        var i :| && 0 <= i < |cands[1..]| && key(cands[1..][i]) in norm
                 && r.value == norm[key(cands[1..][i])]
                 && (forall j :: 0 <= j < i ==> key(cands[1..][j]) !in norm);
        assert key(cands[i + 1]) in norm && r.value == norm[key(cands[i + 1])];
        r
      else r
  }

  function FindColumnSpec(cols: seq<string>, cands: seq<string>): (r: Option<string>)
    ensures r.Some? ==> r.value in cols
  {
    FirstMatchIsColumn(cols, cands, NormKey);
    FirstMatch(NormToOrig(cols), cands, NormKey)
  }

  lemma FirstMatchIsColumn(cols: seq<string>, cands: seq<string>, key: string -> string)
    ensures FirstMatch(IndexBy(cols, key), cands, key).Some? ==> FirstMatch(IndexBy(cols, key), cands, key).value in cols
  {
    var norm := IndexBy(cols, key);
    var r := FirstMatch(norm, cands, key);
    if r.Some? {
      var i :| 0 <= i < |cands| && key(cands[i]) in norm && r.value == norm[key(cands[i])];
      IndexByLastWins(cols, key, key(cands[i]));
    }
  }

  /** `_find_column(df, candidates)`: the loop over candidates with its early return. */
  method FindColumn(cols: seq<string>, cands: seq<string>) returns (r: Option<string>)
    ensures r == FindColumnSpec(cols, cands)
  {
    var norm := NormToOrig(cols);
    var i := 0;
    while i < |cands|
      invariant 0 <= i <= |cands|
      invariant FirstMatch(norm, cands, NormKey) == FirstMatch(norm, cands[i..], NormKey)
    {
      var key := NormKey(cands[i]);
      if key in norm {
        return Some(norm[key]);
      }
      assert cands[i..][1..] == cands[i + 1..];
      i := i + 1;
    }
    return None;
  }

  lemma FirstMatchIndexByNone(cols: seq<string>, cands: seq<string>, key: string -> string)
    ensures FirstMatch(IndexBy(cols, key), cands, key).None? <==>
            forall i, c :: 0 <= i < |cands| && c in cols ==> key(cands[i]) != key(c)
  {
    var norm := IndexBy(cols, key);
    if FirstMatch(norm, cands, key).None? {
      forall i, c | 0 <= i < |cands| && c in cols ensures key(cands[i]) != key(c) {
        assert key(c) in norm;
      }
    }
  }

  lemma FirstMatchIndexBySome(cols: seq<string>, cands: seq<string>, key: string -> string)
    requires FirstMatch(IndexBy(cols, key), cands, key).Some?
    ensures exists i :: && 0 <= i < |cands| && key(cands[i]) in IndexBy(cols, key)
                        && FirstMatch(IndexBy(cols, key), cands, key).value == IndexBy(cols, key)[key(cands[i])]
                        && (forall j, c :: 0 <= j < i && c in cols ==> key(cands[j]) != key(c))
  {
    var norm := IndexBy(cols, key);
    var r := FirstMatch(norm, cands, key);
    var i :| && 0 <= i < |cands| && key(cands[i]) in norm
             && r.value == norm[key(cands[i])]
             && (forall j :: 0 <= j < i ==> key(cands[j]) !in norm);
    forall j, c | 0 <= j < i && c in cols ensures key(cands[j]) != key(c) {
      assert key(c) in norm;
    }
  }

  /** What the search returns, in the source's terms: `None` exactly when no
      candidate key is the key of a column; otherwise the column recorded for
      the first candidate key some column has (the last column with that key,
      by `NormToOrigLastWins`). */
  lemma FindColumnFirstCandidate(cols: seq<string>, cands: seq<string>)
    ensures FindColumnSpec(cols, cands).None? <==>
            forall i, c :: 0 <= i < |cands| && c in cols ==> NormKey(cands[i]) != NormKey(c)
    ensures FindColumnSpec(cols, cands).Some? ==>
            exists i :: && 0 <= i < |cands| && NormKey(cands[i]) in NormToOrig(cols)
                        && FindColumnSpec(cols, cands).value == NormToOrig(cols)[NormKey(cands[i])]
                        && (forall j, c :: 0 <= j < i && c in cols ==> NormKey(cands[j]) != NormKey(c))
  {
    FirstMatchIndexByNone(cols, cands, NormKey);
    if FindColumnSpec(cols, cands).Some? {
      FirstMatchIndexBySome(cols, cands, NormKey);
    }
  }
}
