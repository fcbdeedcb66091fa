/** Shared vocabulary of the momentum backtest model: missing values, errors,
    pandas float cells with their infinities, dates as month indices, and the
    small real-number folds (sum, product, mean) that several scripts use. */
module Common {

  datatype Option<+T> = None | Some(value: T)

  /** The Python exceptions the scripts raise on bad input. */
  datatype Error =
    | ValueError      // `raise ValueError(...)`, `float(...)` on a malformed string, `max([])`
    | KeyError        // a label that `.loc[...]` or `df[...]` cannot find
    | IndexError      // `df.columns[1]` on a frame with too few columns
    | FileNotFound    // `raise FileNotFoundError(...)`
    | TypeError       // an order comparison between a number and a string

  datatype Result<+T> = Ok(value: T) | Err(error: Error)

  /** A float64 cell as pandas holds it; `NaN` doubles as "missing" since pandas
      cannot tell the two apart. Rounding is not modelled. */
  datatype Float = Num(v: real) | PosInf | NegInf | NaN

  /** A date already parsed to a month index; `None` is NaT. */
  type Date = Option<int>

  /** The portfolio sizes and momentum horizons the scripts iterate over. */
  const TopNs: seq<nat> := [10, 20, 30, 40, 50]
  const Horizons: seq<nat> := [1, 3, 6, 12]

  /** The market-cap threshold of the large-cap universe (10 billion). */
  const LargeCap: real := 10000000000.0

  /** Ascending date order with NaT last, as `sort_values`/`sort_index` place it. */
  predicate DateLe(a: Date, b: Date) {
    match a
    case None => b.None?
    case Some(x) => b.None? || x <= b.value
  }

  /** A total order over float cells: NaN below -inf below the reals below +inf.
      Only non-NaN values are ever compared with it. */
  function FloatRank(f: Float): (r: int)
  {
    match f
    case NaN => 0
    case NegInf => 1
    case Num(_) => 2
    case PosInf => 3
  }

  predicate FloatLe(a: Float, b: Float) {
    if a.Num? && b.Num? then a.v <= b.v else FloatRank(a) <= FloatRank(b)
  }

  /** `x < c` for a float cell and a finite constant (every comparison with NaN is false). */
  predicate FloatLt(f: Float, c: real) {
    match f
    case Num(x) => x < c
    case NegInf => true
    case PosInf => false
    case NaN => false
  }

  /** `x > c` for a float cell and a finite constant. */
  predicate FloatGt(f: Float, c: real) {
    match f
    case Num(x) => x > c
    case NegInf => false
    case PosInf => true
    case NaN => false
  }

  /** The float64 quotient of two finite reals: a zero divisor gives a signed
      infinity, or NaN for 0/0 (the sign of zero is not modelled). */
  function Quotient(a: real, b: real): (r: Float)
    ensures b != 0.0 ==> r == Num(a / b)
    ensures b == 0.0 ==> (r.NaN? <==> a == 0.0) && (r.PosInf? <==> a > 0.0) && (r.NegInf? <==> a < 0.0)
  {
    if b != 0.0 then Num(a / b)
    else if a > 0.0 then PosInf
    else if a < 0.0 then NegInf
    else NaN
  }

  /** `f - 1.0` on a float cell. */
  function MinusOne(f: Float): Float {
    match f
    case Num(x) => Num(x - 1.0)
    case _ => f
  }

  /** `num / den - 1.0` on two possibly missing prices, the building block of
      momentum and `pct_change`: missing on either side gives NaN. */
  function RelChange(num: Option<real>, den: Option<real>): (r: Float)
    ensures (num.None? || den.None?) ==> r.NaN?
    ensures num.Some? && den.Some? && den.value != 0.0 ==> r == Num(num.value / den.value - 1.0)
    ensures num.Some? && den.Some? && den.value == 0.0 ==>
      (r.NaN? <==> num.value == 0.0) && (r.PosInf? <==> num.value > 0.0) && (r.NegInf? <==> num.value < 0.0)
  {
    if num.None? || den.None? then NaN else MinusOne(Quotient(num.value, den.value))
  }

  /** A float cell divided by a positive real. */
  function DivPos(f: Float, d: real): Float
    requires d > 0.0
  {
    match f
    case Num(x) => Num(x / d)
    case _ => f
  }

  /** The non-missing values, in order (`dropna`). */
  function Present(xs: seq<Option<real>>): (r: seq<real>)
    ensures |r| <= |xs|
    ensures forall v :: v in r <==> Some(v) in xs
  {
    if |xs| == 0 then []
    else
      var rest := Present(xs[..|xs| - 1]);
      assert xs == xs[..|xs| - 1] + [xs[|xs| - 1]];
      match xs[|xs| - 1]
      case None => rest
      case Some(v) => rest + [v]
  }

  lemma {:induction false} PresentAppend(xs: seq<Option<real>>, ys: seq<Option<real>>)
    ensures Present(xs + ys) == Present(xs) + Present(ys)
    decreases |ys|
  {
    if ys == [] {
      assert xs + ys == xs;
    } else {
      var ys' := ys[..|ys| - 1];
      assert (xs + ys)[..|xs + ys| - 1] == xs + ys';
      PresentAppend(xs, ys');
    }
  }

  /** `[f(xs[0]), ..., f(xs[m - 1])]`, built one element at a time as a
      loop appends them. */
  function MapUpTo<A, B>(f: A -> B, xs: seq<A>, m: nat): (ys: seq<B>)
    requires m <= |xs|
    ensures |ys| == m
  {
    if m == 0 then [] else MapUpTo(f, xs, m - 1) + [f(xs[m - 1])]
  }

  lemma {:induction false} MapUpToAt<A, B>(f: A -> B, xs: seq<A>, m: nat, k: nat)
    requires k < m <= |xs|
    ensures MapUpTo(f, xs, m)[k] == f(xs[k])
  {
    var prev := MapUpTo(f, xs, m - 1);
    var last := f(xs[m - 1]);
    assert MapUpTo(f, xs, m) == prev + [last];
    if k < m - 1 {
      MapUpToAt(f, xs, m - 1, k);
      assert (prev + [last])[k] == prev[k];
    } else {
      assert (prev + [last])[k] == last;
    }
  }

  /** `fillna(0)`. */
  function FillZero(o: Option<real>): real {
    match o
    case None => 0.0
    case Some(v) => v
  }

  function Sum(xs: seq<real>): real {
    if |xs| == 0 then 0.0 else Sum(xs[..|xs| - 1]) + xs[|xs| - 1]
  }

  /** The product of the gross returns `1 + x` (the `(1 + r).prod()` of several scripts). */
  function GrossProd(xs: seq<real>): real {
    if |xs| == 0 then 1.0 else GrossProd(xs[..|xs| - 1]) * (1.0 + xs[|xs| - 1])
  }

  /** The arithmetic mean of a non-empty list. */
  function Mean(xs: seq<real>): real
    requires xs != []
  {
    Sum(xs) / (|xs| as real)
  }

  /** The sample variance with ddof = 1, defined from two observations on. */
  function SampleVariance(xs: seq<real>): real
    requires |xs| >= 2
  {
    SquaredDeviations(xs, Mean(xs)) / ((|xs| - 1) as real)
  }

  function SquaredDeviations(xs: seq<real>, m: real): (r: real)
    ensures r >= 0.0
  {
    if |xs| == 0 then 0.0
    else
      var d := xs[|xs| - 1] - m;
      SquareNonNegative(d);
      SquaredDeviations(xs[..|xs| - 1], m) + d * d
  }

  lemma SquareNonNegative(d: real)
    ensures d * d >= 0.0
  {
    if d < 0.0 {
      assert d * d == (-d) * (-d);
    }
  }

  lemma SampleVarianceNonNegative(xs: seq<real>)
    requires |xs| >= 2
    ensures SampleVariance(xs) >= 0.0
  {
  }

  /** The decimal text of a natural number, as f-strings render `int`s. */
  function NatToString(n: nat): (s: string)
    ensures |s| >= 1
    ensures forall i :: 0 <= i < |s| ==> '0' <= s[i] <= '9'
  {
    if n < 10 then [DigitChar(n)] else NatToString(n / 10) + [DigitChar(n % 10)]
  }

  /** The row label of a portfolio, `f"Top {n}"`. */
  function TopLabel(n: nat): (s: string)
    ensures |s| >= 5 && s[..4] == "Top "
  {
    "Top " + NatToString(n)
  }

  function DigitChar(d: nat): (c: char)
    requires d < 10
    ensures '0' <= c <= '9'
  {
    (48 + d) as char
  }
}
