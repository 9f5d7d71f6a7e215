/** Shared vocabulary: optional values, Python dict lookups, numpy-style clamps and
    the list aggregates (sum, product, mean, pairwise differences) the engines use. */
module Common {

  datatype Option<+T> = None | Some(value: T) {
    function GetOr(default: T): T {
      match this
      case Some(v) => v
      case None => default
    }
  }

  /** A numeric entry read with `float(d.get(key, default))`: absent, a number, or a
      value that `float` rejects (the call raises). */
  datatype Field = Missing | Num(v: real) | Bad

  /** `float(d.get(key, default))`; None when the conversion raises. */
  function ReadFloat(f: Field, default: real): Option<real> {
    match f
    case Missing => Some(default)
    case Num(v) => Some(v)
    case Bad => None
  }

  /** `d.get(k, default)` on a dict of numbers. */
  function Get(m: map<string, real>, k: string, default: real): real {
    if k in m then m[k] else default
  }

  function Min(a: real, b: real): real { if b < a then b else a }

  function Max(a: real, b: real): real { if b > a then b else a }

  function Abs(x: real): real { if x < 0.0 then -x else x }

  /** `np.clip(x, lo, hi)`, that is `min(max(x, lo), hi)`; with `lo > hi` it yields `hi`. */
  function Clip(x: real, lo: real, hi: real): (r: real)
    ensures lo <= hi ==> lo <= r <= hi
    ensures lo <= x <= hi ==> r == x
    ensures x < lo <= hi ==> r == lo
    ensures lo <= hi < x ==> r == hi
  {
    Min(Max(x, lo), hi)
  }

  /** Python `sum`, accumulated left to right. */
  function Sum(s: seq<real>): real {
    if s == [] then 0.0 else Sum(s[..|s| - 1]) + s[|s| - 1]
  }

  /** `np.prod`, accumulated left to right. */
  function Prod(s: seq<real>): real {
    if s == [] then 1.0 else Prod(s[..|s| - 1]) * s[|s| - 1]
  }

  /** `np.mean` of a non-empty list. */
  function Mean(s: seq<real>): real
    requires |s| > 0
  {
    Sum(s) / |s| as real
  }

  /** `np.diff`: the differences of neighbouring entries. */
  function Diffs(h: seq<real>): (d: seq<real>)
    ensures |d| == if |h| < 2 then 0 else |h| - 1
  {
    if |h| < 2 then [] else seq(|h| - 1, i requires 0 <= i < |h| - 1 => h[i + 1] - h[i])
  }

  /** Element-wise absolute values (`np.abs`). */
  function AbsAll(s: seq<real>): (r: seq<real>)
    ensures |r| == |s|
  {
    seq(|s|, i requires 0 <= i < |s| => Abs(s[i]))
  }

  lemma SumAppend(s: seq<real>, x: real)
    ensures Sum(s + [x]) == Sum(s) + x
  {
    assert (s + [x])[..|s|] == s;
  }

  lemma ProdAppend(s: seq<real>, x: real)
    ensures Prod(s + [x]) == Prod(s) * x
  {
    assert (s + [x])[..|s|] == s;
  }

  /** A sum of terms in [lo, hi] lies in [|s|·lo, |s|·hi]. */
  lemma {:induction false} SumBounds(s: seq<real>, lo: real, hi: real)
    requires forall i :: 0 <= i < |s| ==> lo <= s[i] <= hi
    ensures |s| as real * lo <= Sum(s) <= |s| as real * hi
  {
    if s != [] {
      SumBounds(s[..|s| - 1], lo, hi);
    }
  }

  /** The mean of terms in [lo, hi] lies in [lo, hi]. */
  lemma MeanBounds(s: seq<real>, lo: real, hi: real)
    requires |s| > 0
    requires forall i :: 0 <= i < |s| ==> lo <= s[i] <= hi
    ensures lo <= Mean(s) <= hi
  {
    SumBounds(s, lo, hi);
    var n := |s| as real;
    assert n * lo <= Sum(s) <= n * hi;
    assert Sum(s) / n >= lo by { assert Sum(s) >= lo * n; }
    assert Sum(s) / n <= hi by { assert Sum(s) <= hi * n; }
  }

  /** A sum of non-negative terms is non-negative. */
  lemma {:induction false} SumNonNegative(s: seq<real>)
    requires forall i :: 0 <= i < |s| ==> s[i] >= 0.0
    ensures Sum(s) >= 0.0
  {
    if s != [] {
      SumNonNegative(s[..|s| - 1]);
    }
  }

  lemma MeanNonNegative(s: seq<real>)
    requires |s| > 0
    requires forall i :: 0 <= i < |s| ==> s[i] >= 0.0
    ensures Mean(s) >= 0.0
  {
    SumNonNegative(s);
  }

  /** A product of factors in [0, 1] lies in [0, 1]. */
  lemma {:induction false} ProdUnit(s: seq<real>)
    requires forall i :: 0 <= i < |s| ==> 0.0 <= s[i] <= 1.0
    ensures 0.0 <= Prod(s) <= 1.0
  {
    if s != [] {
      ProdUnit(s[..|s| - 1]);
      var p := Prod(s[..|s| - 1]);
      var x := s[|s| - 1];
      assert 0.0 <= x <= 1.0;
      MulUnit(p, x);
      assert Prod(s) == p * x;
    }
  }

  lemma MulUnit(p: real, x: real)
    requires 0.0 <= p <= 1.0 && 0.0 <= x <= 1.0
    ensures 0.0 <= p * x <= p
  {
    assert p * x <= p * 1.0 by {
      assert p * (1.0 - x) >= 0.0;
    }
  }
}
