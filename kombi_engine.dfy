/** Combination tickets (backend/core/kombi_engine.py): enumerate the k-subsets of
    the candidate tips for every configured size, score each subset, keep those
    within the odds and risk limits, rank them by score and return the best `top_n`. */
module Kombi {
  import opened Common
  import opened Ranking

  /** A candidate single tip; `None` marks an absent key. `probability` is read as
      `t["probability"]` on every path, so every tip carries one. */
  datatype Tip = Tip(probability: real, odds: Option<real>, valueScore: Option<real>, risk: Option<real>)

  /** The `kombi` section of the configuration. */
  datatype Config = Config(sizes: seq<nat>, maxOdds: real, maxRisk: real, topN: nat)

  /** What `KombiEngine.__init__` uses when the section is absent. */
  const DefaultConfig := Config([2, 3], 10.0, 0.65, 5)

  /** The statistics record `_evaluate_kombi` returns. */
  datatype Combo = Combo(legs: seq<Tip>, combinedProbability: real, combinedOdds: real,
                         avgValue: real, avgRisk: real, correlation: real, finalScore: real)

  /** The ranking key of `generate_kombi`. */
  function Score(c: Combo): real { c.finalScore }

  // ------------------------------------------------------------------------
  // itertools.combinations, over leg indices
  // ------------------------------------------------------------------------

  ghost predicate Increasing(c: seq<nat>) {
    forall i, j :: 0 <= i < j < |c| ==> c[i] < c[j]
  }

  /** `a` comes before `b` in lexicographic order. */
  ghost predicate LexLess(a: seq<nat>, b: seq<nat>) {
    exists i :: 0 <= i < |a| && i < |b| && a[..i] == b[..i] && a[i] < b[i]
  }

  function PrependAll(x: nat, cs: seq<seq<nat>>): (r: seq<seq<nat>>)
    ensures |r| == |cs|
    ensures forall i :: 0 <= i < |cs| ==> r[i] == [x] + cs[i]
  {
    seq(|cs|, i requires 0 <= i < |cs| => [x] + cs[i])
  }

  /** `itertools.combinations(range(lo, n), k)`: the k-element subsets of
      `lo .. n-1`, each as an increasing index list, in lexicographic order. */
  function Combinations(lo: nat, n: nat, k: nat): seq<seq<nat>>
    decreases n - lo
  {
    if k == 0 then [[]]
    else if lo >= n then []
    else PrependAll(lo, Combinations(lo + 1, n, k - 1)) + Combinations(lo + 1, n, k)
  }

  /** `c` is a k-subset of `lo .. n-1`, listed in increasing order. */
  ghost predicate IsCombination(c: seq<nat>, lo: nat, n: nat, k: nat) {
    |c| == k && Increasing(c) && forall i :: 0 <= i < |c| ==> lo <= c[i] < n
  }

  /** Every enumerated combination has `k` increasing indices from `lo .. n-1`. */
  lemma {:induction false} CombinationsShape(lo: nat, n: nat, k: nat)
    ensures forall m :: 0 <= m < |Combinations(lo, n, k)| ==> IsCombination(Combinations(lo, n, k)[m], lo, n, k)
    decreases n - lo
  {
    if k > 0 && lo < n {
      var sub := Combinations(lo + 1, n, k - 1);
      var b := Combinations(lo + 1, n, k);
      CombinationsShape(lo + 1, n, k - 1);
      CombinationsShape(lo + 1, n, k);
      var a := PrependAll(lo, sub);
      assert Combinations(lo, n, k) == a + b;
      forall m | 0 <= m < |a + b| ensures IsCombination((a + b)[m], lo, n, k) {
        if m < |a| {
          assert IsCombination(sub[m], lo + 1, n, k - 1);
          assert (a + b)[m] == [lo] + sub[m];
        } else {
          assert (a + b)[m] == b[m - |a|];
          assert IsCombination(b[m - |a|], lo + 1, n, k);
        }
      }
    }
  }

  /** `c` lists indices from `lo .. n-1` in strictly increasing order, stated one
      element at a time. */
  ghost predicate Ascending(c: seq<nat>, lo: nat, n: nat)
    decreases |c|
  {
    c == [] || (lo <= c[0] < n && Ascending(c[1..], c[0] + 1, n))
  }

  /** The tail of an increasing index list lies above its head. */
  lemma TailAbove(c: seq<nat>, lo: nat, n: nat)
    requires |c| > 0 && Increasing(c)
    requires forall i :: 0 <= i < |c| ==> lo <= c[i] < n
    ensures Increasing(c[1..]) && forall i :: 0 <= i < |c[1..]| ==> c[0] + 1 <= c[1..][i] < n
  {
    var t := c[1..];
    forall i, j | 0 <= i < j < |t| ensures t[i] < t[j] {
      assert t[i] == c[i + 1] && t[j] == c[j + 1];
    }
    forall i | 0 <= i < |t| ensures c[0] + 1 <= t[i] < n {
      assert t[i] == c[i + 1] && c[0] < c[i + 1];
    }
  }

  lemma {:induction false} AscendingOf(c: seq<nat>, lo: nat, n: nat)
    requires Increasing(c)
    requires forall i :: 0 <= i < |c| ==> lo <= c[i] < n
    ensures Ascending(c, lo, n)
    decreases |c|
  {
    if c != [] {
      TailAbove(c, lo, n);
      AscendingOf(c[1..], c[0] + 1, n);
    }
  }

  /** Position `m` of the subsets holding `lo` is `lo` before position `m` of the subsets above `lo`. */
  lemma PrependIndex(lo: nat, n: nat, k: nat, m: nat)
    requires k > 0 && lo < n && m < |Combinations(lo + 1, n, k - 1)|
    ensures m < |Combinations(lo, n, k)|
    ensures Combinations(lo, n, k)[m] == [lo] + Combinations(lo + 1, n, k - 1)[m]
  {
    var a := Combinations(lo + 1, n, k - 1);
    assert Combinations(lo, n, k) == PrependAll(lo, a) + Combinations(lo + 1, n, k);
  }

  /** The subsets without `lo` follow those holding it. */
  lemma SkipIndex(lo: nat, n: nat, k: nat, j: nat)
    requires k > 0 && lo < n && j < |Combinations(lo + 1, n, k)|
    ensures |Combinations(lo + 1, n, k - 1)| + j < |Combinations(lo, n, k)|
    ensures Combinations(lo, n, k)[|Combinations(lo + 1, n, k - 1)| + j] == Combinations(lo + 1, n, k)[j]
  {
    var a := Combinations(lo + 1, n, k - 1);
    assert Combinations(lo, n, k) == PrependAll(lo, a) + Combinations(lo + 1, n, k);
  }

  lemma {:induction false} Enumerated(lo: nat, n: nat, k: nat, c: seq<nat>) returns (m: nat)
    requires |c| == k && Ascending(c, lo, n)
    ensures m < |Combinations(lo, n, k)| && Combinations(lo, n, k)[m] == c
    decreases n - lo
  {
    if k == 0 {
      m := 0;
    } else if c[0] == lo {
      m := Enumerated(lo + 1, n, k - 1, c[1..]);
      PrependIndex(lo, n, k, m);
      assert c == [c[0]] + c[1..];
    } else {
      assert Ascending(c, lo + 1, n);
      var j := Enumerated(lo + 1, n, k, c);
      SkipIndex(lo, n, k, j);
      m := |Combinations(lo + 1, n, k - 1)| + j;
    }
  }

  /** Every k-subset of `lo .. n-1` is enumerated, and `m` is its position. */
  lemma CombinationsComplete(lo: nat, n: nat, k: nat, c: seq<nat>) returns (m: nat)
    requires |c| == k && Increasing(c)
    requires forall i :: 0 <= i < |c| ==> lo <= c[i] < n
    ensures m < |Combinations(lo, n, k)| && Combinations(lo, n, k)[m] == c
    ensures c in Combinations(lo, n, k)
  {
    AscendingOf(c, lo, n);
    m := Enumerated(lo, n, k, c);
  }

  /** A size larger than the pool yields no combination at all. */
  lemma {:induction false} CombinationsTooLarge(lo: nat, n: nat, k: nat)
    requires lo <= n && k > n - lo
    ensures Combinations(lo, n, k) == []
    decreases n - lo
  {
    if lo < n {
      CombinationsTooLarge(lo + 1, n, k - 1);
      CombinationsTooLarge(lo + 1, n, k);
    }
  }

  function Binomial(m: nat, k: nat): nat {
    if k == 0 then 1 else if m == 0 then 0 else Binomial(m - 1, k - 1) + Binomial(m - 1, k)
  }

  /** There are C(n - lo, k) combinations. */
  lemma {:induction false} CombinationsCount(lo: nat, n: nat, k: nat)
    requires lo <= n
    ensures |Combinations(lo, n, k)| == Binomial(n - lo, k)
    decreases n - lo
  {
    if k > 0 && lo < n {
      CombinationsCount(lo + 1, n, k - 1);
      CombinationsCount(lo + 1, n, k);
    }
  }

  /** The enumeration is strictly increasing in lexicographic order. */
  lemma {:induction false} CombinationsLexOrder(lo: nat, n: nat, k: nat)
    ensures forall i, j :: 0 <= i < j < |Combinations(lo, n, k)| ==>
      LexLess(Combinations(lo, n, k)[i], Combinations(lo, n, k)[j])
    decreases n - lo
  {
    if k > 0 && lo < n {
      var sub := Combinations(lo + 1, n, k - 1);
      var a := PrependAll(lo, sub);
      var b := Combinations(lo + 1, n, k);
      CombinationsLexOrder(lo + 1, n, k - 1);
      CombinationsLexOrder(lo + 1, n, k);
      CombinationsShape(lo + 1, n, k);
      var all := a + b;
      forall i, j | 0 <= i < j < |all| ensures LexLess(all[i], all[j]) {
        if j < |a| {
          var p :| 0 <= p < |sub[i]| && p < |sub[j]| && sub[i][..p] == sub[j][..p] && sub[i][p] < sub[j][p];
          assert all[i] == [lo] + sub[i] && all[j] == [lo] + sub[j];
          assert all[i][..p + 1] == [lo] + sub[i][..p];
          assert all[j][..p + 1] == [lo] + sub[j][..p];
          assert all[i][p + 1] == sub[i][p] && all[j][p + 1] == sub[j][p];
        } else if i >= |a| {
          assert all[i] == b[i - |a|] && all[j] == b[j - |a|];
        } else {
          assert all[i] == [lo] + sub[i];
          assert all[j] == b[j - |a|] && b[j - |a|] in b;
          assert all[i][..0] == all[j][..0];
          assert all[i][0] < all[j][0];
        }
      }
    }
  }

  /** The tips at the given indices, in index order. */
  function Pick(tips: seq<Tip>, idx: seq<nat>): (r: seq<Tip>)
    requires forall i :: 0 <= i < |idx| ==> idx[i] < |tips|
    ensures |r| == |idx|
  {
    seq(|idx|, i requires 0 <= i < |idx| => tips[idx[i]])
  }

  // ------------------------------------------------------------------------
  // _correlation_score
  // ------------------------------------------------------------------------

  /** Every entry of `pairs` is an index pair into a list of length `n`. */
  ghost predicate PairsIn(pairs: seq<seq<nat>>, n: nat) {
    forall j :: 0 <= j < |pairs| ==> |pairs[j]| == 2 && pairs[j][0] < n && pairs[j][1] < n
  }

  lemma PairsShape(n: nat)
    ensures PairsIn(Combinations(0, n, 2), n)
  {
    var ps := Combinations(0, n, 2);
    CombinationsShape(0, n, 2);
    forall j | 0 <= j < |ps| ensures |ps[j]| == 2 && ps[j][0] < n && ps[j][1] < n {
      assert IsCombination(ps[j], 0, n, 2);
    }
  }

  /** `abs(a["probability"] - b["probability"]) + abs(a["value_score"] - b["value_score"])`;
      None when either tip has no `value_score` (the lookup raises). */
  function PairDiff(a: Tip, b: Tip): Option<real> {
    if a.valueScore.None? || b.valueScore.None? then None
    else Some(Abs(a.probability - b.probability) + Abs(a.valueScore.value - b.valueScore.value))
  }

  function PairDiffAt(legs: seq<Tip>, pairs: seq<seq<nat>>, j: nat): Option<real>
    requires PairsIn(pairs, |legs|) && j < |pairs|
  {
    PairDiff(legs[pairs[j][0]], legs[pairs[j][1]])
  }

  /** The `diffs` list built over `pairs`, or None when one of them raises. */
  function PairDiffs(legs: seq<Tip>, pairs: seq<seq<nat>>): (r: Option<seq<real>>)
    requires PairsIn(pairs, |legs|)
    ensures r.Some? ==> |r.value| == |pairs| && forall i :: 0 <= i < |r.value| ==> r.value[i] >= 0.0
    ensures r.None? <==> exists j :: 0 <= j < |pairs| && PairDiffAt(legs, pairs, j).None?
  {
    if pairs == [] then Some([])
    else
      var init := pairs[..|pairs| - 1];
      assert forall j :: 0 <= j < |init| ==> init[j] == pairs[j];
      assert forall j :: 0 <= j < |init| ==> PairDiffAt(legs, init, j) == PairDiffAt(legs, pairs, j);
      match PairDiffs(legs, init)
      case None => None
      case Some(ds) =>
        match PairDiffAt(legs, pairs, |pairs| - 1)
        case None => None
        case Some(d) => Some(ds + [d])
  }

  /** `_correlation_score`: one minus the mean pairwise difference, floored at 0;
      None when a tip lacks `value_score` and has a partner. */
  function Correlation(legs: seq<Tip>): (r: Option<real>)
    ensures r.Some? ==> 0.0 <= r.value <= 1.0
  {
    PairsShape(|legs|);
    match PairDiffs(legs, Combinations(0, |legs|, 2))
    case None => None
    case Some(ds) => Some(DiffScore(ds))
  }

  /** The score from the `diffs` list: one minus their mean (0 for no pair), floored at 0. */
  function DiffScore(ds: seq<real>): (r: real)
    requires forall i :: 0 <= i < |ds| ==> ds[i] >= 0.0
    ensures 0.0 <= r <= 1.0
  {
    var corr := if ds == [] then 0.0 else Mean(ds);
    assert corr >= 0.0 by {
      if ds != [] { MeanNonNegative(ds); }
    }
    Max(0.0, 1.0 - corr)
  }

  /** Fewer than two legs: no pair, so the score is 1. */
  lemma CorrelationNoPairs(legs: seq<Tip>)
    requires |legs| < 2
    ensures Correlation(legs) == Some(1.0)
  {
    CombinationsTooLarge(0, |legs|, 2);
  }

  /** Identical legs (same probability and value) are maximally correlated: score 1. */
  lemma CorrelationIdentical(legs: seq<Tip>)
    requires forall i :: 0 <= i < |legs| ==> legs[i].valueScore.Some?
    requires forall i :: 0 <= i < |legs| ==> legs[i].probability == legs[0].probability
    requires forall i :: 0 <= i < |legs| ==> legs[i].valueScore == legs[0].valueScore
    ensures Correlation(legs) == Some(1.0)
  {
    var pairs := Combinations(0, |legs|, 2);
    PairsShape(|legs|);
    DiffsZero(legs, pairs);
    var ds := PairDiffs(legs, pairs).value;
    var corr := if ds == [] then 0.0 else Mean(ds);
    if ds != [] {
      SumBounds(ds, 0.0, 0.0);
      assert Sum(ds) == 0.0;
    }
    assert corr == 0.0;
    assert Correlation(legs) == Some(Max(0.0, 1.0 - corr));
  }

  lemma {:induction false} DiffsZero(legs: seq<Tip>, pairs: seq<seq<nat>>)
    requires PairsIn(pairs, |legs|)
    requires forall i :: 0 <= i < |legs| ==> legs[i].valueScore.Some?
    requires forall i :: 0 <= i < |legs| ==> legs[i].probability == legs[0].probability
    requires forall i :: 0 <= i < |legs| ==> legs[i].valueScore == legs[0].valueScore
    ensures PairDiffs(legs, pairs).Some?
    ensures forall i :: 0 <= i < |pairs| ==> PairDiffs(legs, pairs).value[i] == 0.0
  {
    if pairs != [] {
      var init := pairs[..|pairs| - 1];
      assert forall j :: 0 <= j < |init| ==> init[j] == pairs[j];
      assert forall j :: 0 <= j < |init| ==> PairDiffAt(legs, init, j) == PairDiffAt(legs, pairs, j);
      DiffsZero(legs, init);
    }
  }

  /** `_correlation_score` raises exactly when there are at least two legs and
      one of them has no `value_score`. */
  lemma CorrelationFails(legs: seq<Tip>)
    ensures Correlation(legs).None? <==>
      |legs| >= 2 && exists i :: 0 <= i < |legs| && legs[i].valueScore.None?
  {
    var n := |legs|;
    var pairs := Combinations(0, n, 2);
    PairsShape(n);
    if n < 2 {
      CombinationsTooLarge(0, n, 2);
    }
    if Correlation(legs).None? {
      var j :| 0 <= j < |pairs| && PairDiffAt(legs, pairs, j).None?;
      assert legs[pairs[j][0]].valueScore.None? || legs[pairs[j][1]].valueScore.None?;
    }
    if n >= 2 && exists i :: 0 <= i < n && legs[i].valueScore.None? {
      var i :| 0 <= i < n && legs[i].valueScore.None?;
      var c: seq<nat>;
      if i + 1 < n {
        c := [i, i + 1];
      } else {
        c := [i - 1, i];
      }
      var _ := CombinationsComplete(0, n, 2, c);
      var j :| 0 <= j < |pairs| && pairs[j] == c;
      assert PairDiffAt(legs, pairs, j).None?;
    }
  }

  /** One more pair extends the `diffs` list by that pair's difference. */
  lemma PairDiffsStep(legs: seq<Tip>, pairs: seq<seq<nat>>, j: nat, diffs: seq<real>)
    requires PairsIn(pairs, |legs|) && j < |pairs|
    requires PairsIn(pairs[..j], |legs|) && PairDiffs(legs, pairs[..j]) == Some(diffs)
    ensures PairsIn(pairs[..j + 1], |legs|)
    ensures PairDiffAt(legs, pairs, j).Some? ==>
      PairDiffs(legs, pairs[..j + 1]) == Some(diffs + [PairDiffAt(legs, pairs, j).value])
  {
    var p := pairs[..j + 1];
    assert p[..j] == pairs[..j];
    assert p[j] == pairs[j];
    assert PairDiffAt(legs, p, j) == PairDiffAt(legs, pairs, j);
  }

  /** `_correlation_score` as written: a loop over the pairs appending to `diffs`. */
  method CorrelationScore(legs: seq<Tip>) returns (r: Option<real>)
    ensures r == Correlation(legs)
  {
    var pairs := Combinations(0, |legs|, 2);
    PairsShape(|legs|);
    var diffs := CollectDiffs(legs, pairs);
    if diffs.None? {
      return None;
    }
    var corr := if |diffs.value| > 0 then Mean(diffs.value) else 0.0;
    r := Some(Max(0.0, 1.0 - corr));
  }

  /** The loop of `_correlation_score` over the pairs, appending to `diffs`; None
      where a lookup raises. */
  method CollectDiffs(legs: seq<Tip>, pairs: seq<seq<nat>>) returns (r: Option<seq<real>>)
    requires PairsIn(pairs, |legs|)
    ensures r == PairDiffs(legs, pairs)
  {
    var diffs: seq<real> := [];
    for j := 0 to |pairs|
      invariant PairsIn(pairs[..j], |legs|)
      invariant PairDiffs(legs, pairs[..j]) == Some(diffs)
    {
      PairDiffsStep(legs, pairs, j, diffs);
      var a := legs[pairs[j][0]];
      var b := legs[pairs[j][1]];
      if a.valueScore.None? || b.valueScore.None? {
        assert PairDiffAt(legs, pairs, j).None?;
        return None;
      }
      var dp := Abs(a.probability - b.probability);
      var dv := Abs(a.valueScore.value - b.valueScore.value);
      diffs := diffs + [dp + dv];
    }
    assert pairs[..|pairs|] == pairs;
    r := Some(diffs);
  }

  // ------------------------------------------------------------------------
  // _evaluate_kombi
  // ------------------------------------------------------------------------

  function LegOdds(t: Tip): real { t.odds.GetOr(2.0) }
  function LegValue(t: Tip): real { t.valueScore.GetOr(0.0) }
  function LegRisk(t: Tip): real { t.risk.GetOr(0.5) }

  function Probabilities(legs: seq<Tip>): (r: seq<real>)
    ensures |r| == |legs| && forall i :: 0 <= i < |legs| ==> r[i] == legs[i].probability
  {
    seq(|legs|, i requires 0 <= i < |legs| => legs[i].probability)
  }

  function OddsOf(legs: seq<Tip>): (r: seq<real>)
    ensures |r| == |legs| && forall i :: 0 <= i < |legs| ==> r[i] == LegOdds(legs[i])
  {
    seq(|legs|, i requires 0 <= i < |legs| => LegOdds(legs[i]))
  }

  function ValuesOf(legs: seq<Tip>): (r: seq<real>)
    ensures |r| == |legs| && forall i :: 0 <= i < |legs| ==> r[i] == LegValue(legs[i])
  {
    seq(|legs|, i requires 0 <= i < |legs| => LegValue(legs[i]))
  }

  function RisksOf(legs: seq<Tip>): (r: seq<real>)
    ensures |r| == |legs| && forall i :: 0 <= i < |legs| ==> r[i] == LegRisk(legs[i])
  {
    seq(|legs|, i requires 0 <= i < |legs| => LegRisk(legs[i]))
  }

  /** `_evaluate_kombi`; None when the correlation score raises. */
  function Evaluate(legs: seq<Tip>): Option<Combo>
    requires |legs| >= 1
  {
    match Correlation(legs)
    case None => None
    case Some(corr) =>
      var p := Prod(Probabilities(legs));
      var v := Mean(ValuesOf(legs));
      var k := Mean(RisksOf(legs));
      Some(Combo(legs, p, Prod(OddsOf(legs)), v, k, corr,
                 p * 0.25 + v * 0.40 + corr * 0.20 + (1.0 - k) * 0.15))
  }

  /** `_evaluate_kombi` as written, calling the correlation loop. */
  method EvaluateKombi(legs: seq<Tip>) returns (r: Option<Combo>)
    requires |legs| >= 1
    ensures r == Evaluate(legs)
  {
    var probs := Probabilities(legs);
    var combinedProb := Prod(probs);
    var combinedOdds := Prod(OddsOf(legs));
    var avgValue := Mean(ValuesOf(legs));
    var avgRisk := Mean(RisksOf(legs));
    var corr := CorrelationScore(legs);
    if corr.None? {
      return None;
    }
    var finalScore := combinedProb * 0.25 + avgValue * 0.40 + corr.value * 0.20 + (1.0 - avgRisk) * 0.15;
    r := Some(Combo(legs, combinedProb, combinedOdds, avgValue, avgRisk, corr.value, finalScore));
  }

  /** Evaluating a combination raises exactly when it has two or more legs and one
      of them lacks `value_score`. */
  lemma EvaluateFails(legs: seq<Tip>)
    requires |legs| >= 1
    ensures Evaluate(legs).None? <==> |legs| >= 2 && exists i :: 0 <= i < |legs| && legs[i].valueScore.None?
  {
    CorrelationFails(legs);
  }

  /** With every probability, value score and risk in [0, 1], the ranking score is
      in [0, 1] (its weights sum to one). */
  lemma EvaluateUnit(legs: seq<Tip>)
    requires |legs| >= 1
    requires forall i :: 0 <= i < |legs| ==> 0.0 <= legs[i].probability <= 1.0
    requires forall i :: 0 <= i < |legs| ==> 0.0 <= LegValue(legs[i]) <= 1.0
    requires forall i :: 0 <= i < |legs| ==> 0.0 <= LegRisk(legs[i]) <= 1.0
    ensures Evaluate(legs).Some? ==> 0.0 <= Evaluate(legs).value.finalScore <= 1.0
  {
    ProdUnit(Probabilities(legs));
    MeanBounds(ValuesOf(legs), 0.0, 1.0);
    MeanBounds(RisksOf(legs), 0.0, 1.0);
  }

  /** A single leg without `odds`, `value_score` and `risk` gets the defaults
      2.0, 0.0 and 0.5 and a correlation of 1. */
  lemma EvaluateDefaults(p: real)
    ensures var c := Evaluate([Tip(p, None, None, None)]);
      c.Some? && c.value.combinedProbability == p && c.value.combinedOdds == 2.0 &&
      c.value.avgValue == 0.0 && c.value.avgRisk == 0.5 && c.value.correlation == 1.0 &&
      c.value.finalScore == p * 0.25 + 0.275
  {
    var legs := [Tip(p, None, None, None)];
    CorrelationNoPairs(legs);
    assert Probabilities(legs) == [p];
    assert OddsOf(legs) == [2.0];
    assert ValuesOf(legs) == [0.0];
    assert RisksOf(legs) == [0.5];
    assert [p][..0] == [] && [2.0][..0] == [] && [0.0][..0] == [] && [0.5][..0] == [];
  }

  // ------------------------------------------------------------------------
  // generate_kombi
  // ------------------------------------------------------------------------

  /** Every configured size is at least 1 (a size of 0 would average an empty list). */
  ghost predicate ValidSizes(sizes: seq<nat>) {
    forall m :: 0 <= m < |sizes| ==> sizes[m] >= 1
  }

  /** Non-empty index lists into a list of length `n`. */
  ghost predicate IndexCombos(cs: seq<seq<nat>>, n: nat) {
    forall m :: 0 <= m < |cs| ==> |cs[m]| >= 1 && forall i :: 0 <= i < |cs[m]| ==> cs[m][i] < n
  }

  lemma CombosIndexed(n: nat, k: nat)
    requires k >= 1
    ensures IndexCombos(Combinations(0, n, k), n)
  {
    var cs := Combinations(0, n, k);
    CombinationsShape(0, n, k);
    forall m | 0 <= m < |cs| ensures |cs[m]| >= 1 && forall i :: 0 <= i < |cs[m]| ==> cs[m][i] < n {
      assert IsCombination(cs[m], 0, n, k);
    }
  }

  /** The odds filter and the risk filter of `generate_kombi`. */
  predicate WithinLimits(c: Combo, cfg: Config) {
    !(c.combinedOdds > cfg.maxOdds) && !(c.avgRisk > cfg.maxRisk)
  }

  /** The evaluation of each combination in `cs`, in order. */
  function Evaluations(tips: seq<Tip>, cs: seq<seq<nat>>): (r: seq<Option<Combo>>)
    requires IndexCombos(cs, |tips|)
    ensures |r| == |cs|
    ensures forall m :: 0 <= m < |cs| ==> r[m] == Evaluate(Pick(tips, cs[m]))
  {
    seq(|cs|, m requires 0 <= m < |cs| && IndexCombos(cs, |tips|) => Evaluate(Pick(tips, cs[m])))
  }

  /** The inner loop of `generate_kombi` over a list of evaluation results: the records
      that pass both filters, in order; None at the first evaluation that raised. */
  function Filtered(evals: seq<Option<Combo>>, cfg: Config): Option<seq<Combo>> {
    if evals == [] then Some([])
    else
      match Filtered(evals[..|evals| - 1], cfg)
      case None => None
      case Some(acc) =>
        match evals[|evals| - 1]
        case None => None
        case Some(st) => Some(if WithinLimits(st, cfg) then acc + [st] else acc)
  }

  /** The statistics of the combinations in `cs` that pass both filters, in order;
      None when evaluating one of them raises. */
  function SurvivorsOf(tips: seq<Tip>, cs: seq<seq<nat>>, cfg: Config): Option<seq<Combo>>
    requires IndexCombos(cs, |tips|)
  {
    Filtered(Evaluations(tips, cs), cfg)
  }

  /** `all_combos` after the loop over `sizes`; sizes larger than the pool are skipped. */
  function Survivors(tips: seq<Tip>, sizes: seq<nat>, cfg: Config): Option<seq<Combo>>
    requires ValidSizes(sizes)
  {
    if sizes == [] then Some([])
    else
      var init := sizes[..|sizes| - 1];
      var size := sizes[|sizes| - 1];
      assert forall m :: 0 <= m < |init| ==> init[m] == sizes[m];
      match Survivors(tips, init, cfg)
      case None => None
      case Some(acc) =>
        if |tips| < size then Some(acc)
        else
          CombosIndexed(|tips|, size);
          match SurvivorsOf(tips, Combinations(0, |tips|, size), cfg)
          case None => None
          case Some(more) => Some(acc + more)
  }

  /** `generate_kombi`: the `top_n` best surviving combinations by score; None when
      the call raises. */
  function Kombis(tips: seq<Tip>, cfg: Config): Option<seq<Combo>>
    requires ValidSizes(cfg.sizes)
  {
    if |tips| < 2 then Some([])
    else
      match Survivors(tips, cfg.sizes, cfg)
      case None => None
      case Some(all) => Some(Take(SortDesc(all, Score), cfg.topN))
  }

  lemma {:induction false} FilteredPrefixFails(evals: seq<Option<Combo>>, j: nat, cfg: Config)
    requires j <= |evals| && Filtered(evals[..j], cfg).None?
    ensures Filtered(evals, cfg).None?
    decreases |evals|
  {
    if j < |evals| {
      var init := evals[..|evals| - 1];
      assert init[..j] == evals[..j];
      FilteredPrefixFails(init, j, cfg);
    } else {
      assert evals[..j] == evals;
    }
  }

  lemma {:induction false} SurvivorsPrefixFails(tips: seq<Tip>, sizes: seq<nat>, k: nat, cfg: Config)
    requires ValidSizes(sizes) && k <= |sizes|
    requires ValidSizes(sizes[..k])
    requires Survivors(tips, sizes[..k], cfg).None?
    ensures Survivors(tips, sizes, cfg).None?
    decreases |sizes|
  {
    if k < |sizes| {
      var init := sizes[..|sizes| - 1];
      assert init[..k] == sizes[..k];
      assert forall m :: 0 <= m < |init| ==> init[m] == sizes[m];
      SurvivorsPrefixFails(tips, init, k, cfg);
    } else {
      assert sizes[..k] == sizes;
    }
  }

  /** One more evaluation result extends the filter pass by one step. */
  lemma FilteredStep(evals: seq<Option<Combo>>, j: nat, cfg: Config, found: seq<Combo>)
    requires j < |evals| && Filtered(evals[..j], cfg) == Some(found)
    ensures evals[j].None? ==> Filtered(evals[..j + 1], cfg).None?
    ensures evals[j].Some? && WithinLimits(evals[j].value, cfg) ==>
      Filtered(evals[..j + 1], cfg) == Some(found + [evals[j].value])
    ensures evals[j].Some? && !WithinLimits(evals[j].value, cfg) ==> Filtered(evals[..j + 1], cfg) == Some(found)
  {
    assert evals[..j + 1][..j] == evals[..j];
    assert evals[..j + 1][j] == evals[j];
  }

  /** The inner loop of `generate_kombi` over the combinations of one size. */
  method CollectSurvivors(tips: seq<Tip>, combos: seq<seq<nat>>, cfg: Config) returns (r: Option<seq<Combo>>)
    requires IndexCombos(combos, |tips|)
    ensures r == SurvivorsOf(tips, combos, cfg)
  {
    ghost var evals := Evaluations(tips, combos);
    var found: seq<Combo> := [];
    for j := 0 to |combos|
      invariant Filtered(evals[..j], cfg) == Some(found)
    {
      var stats := EvaluateKombi(Pick(tips, combos[j]));
      assert evals[j] == stats;
      FilteredStep(evals, j, cfg, found);
      if stats.None? {
        FilteredPrefixFails(evals, j + 1, cfg);
        return None;
      }
      if stats.value.combinedOdds > cfg.maxOdds {
        // odds filter
      } else if stats.value.avgRisk > cfg.maxRisk {
        // risk filter
      } else {
        found := found + [stats.value];
      }
    }
    assert evals[..|combos|] == evals;
    r := Some(found);
  }

  /** One more size extends the collected survivors by that size's survivors. */
  lemma SurvivorsStep(tips: seq<Tip>, sizes: seq<nat>, s: nat, cfg: Config, acc: seq<Combo>)
    requires s < |sizes| && ValidSizes(sizes[..s]) && sizes[s] >= 1
    requires Survivors(tips, sizes[..s], cfg) == Some(acc)
    ensures ValidSizes(sizes[..s + 1])
    ensures |tips| < sizes[s] ==> Survivors(tips, sizes[..s + 1], cfg) == Some(acc)
    ensures |tips| >= sizes[s] ==> IndexCombos(Combinations(0, |tips|, sizes[s]), |tips|)
    ensures |tips| >= sizes[s] && SurvivorsOf(tips, Combinations(0, |tips|, sizes[s]), cfg).None? ==>
      Survivors(tips, sizes[..s + 1], cfg).None?
    ensures |tips| >= sizes[s] && SurvivorsOf(tips, Combinations(0, |tips|, sizes[s]), cfg).Some? ==>
      Survivors(tips, sizes[..s + 1], cfg) == Some(acc + SurvivorsOf(tips, Combinations(0, |tips|, sizes[s]), cfg).value)
  {
    assert sizes[..s + 1][..s] == sizes[..s];
    assert sizes[..s + 1][s] == sizes[s];
    CombosIndexed(|tips|, sizes[s]);
  }

  /** `generate_kombi` as written: a loop over the sizes collecting the surviving
      combinations, then a stable descending sort and the `top_n` slice. */
  method GenerateKombi(tips: seq<Tip>, cfg: Config) returns (r: Option<seq<Combo>>)
    requires ValidSizes(cfg.sizes)
    ensures r == Kombis(tips, cfg)
  {
    if |tips| < 2 {
      return Some([]);
    }
    var allCombos: seq<Combo> := [];
    for s := 0 to |cfg.sizes|
      invariant ValidSizes(cfg.sizes[..s])
      invariant Survivors(tips, cfg.sizes[..s], cfg) == Some(allCombos)
    {
      var size := cfg.sizes[s];
      SurvivorsStep(tips, cfg.sizes, s, cfg, allCombos);
      if |tips| >= size {
        var more := CollectSurvivors(tips, Combinations(0, |tips|, size), cfg);
        if more.None? {
          SurvivorsPrefixFails(tips, cfg.sizes, s + 1, cfg);
          return None;
        }
        allCombos := allCombos + more.value;
      }
    }
    assert cfg.sizes[..|cfg.sizes|] == cfg.sizes;
    if allCombos == [] {
      return Some([]);
    }
    var ranked := SortDesc(allCombos, Score);
    r := Some(Take(ranked, cfg.topN));
  }

  // ------------------------------------------------------------------------
  // What generate_kombi returns
  // ------------------------------------------------------------------------

  /** `c` is one of the combinations `generate_kombi` enumerates: an increasing index
      list whose length is a configured size not larger than the pool. */
  ghost predicate Candidate(tips: seq<Tip>, sizes: seq<nat>, c: seq<nat>) {
    exists k :: 0 <= k < |sizes| && 1 <= sizes[k] <= |tips| && IsCombination(c, 0, |tips|, sizes[k])
  }

  lemma {:induction false} FilteredSound(evals: seq<Option<Combo>>, cfg: Config, all: seq<Combo>)
    requires Filtered(evals, cfg) == Some(all)
    ensures forall x :: 0 <= x < |all| ==> WithinLimits(all[x], cfg) && Some(all[x]) in evals
    decreases |evals|
  {
    if evals != [] {
      var init := evals[..|evals| - 1];
      var acc := Filtered(init, cfg).value;
      FilteredSound(init, cfg, acc);
      forall x | 0 <= x < |all| ensures WithinLimits(all[x], cfg) && Some(all[x]) in evals {
        if x < |acc| {
          assert all[x] == acc[x];
          var m :| 0 <= m < |init| && init[m] == Some(acc[x]);
          assert evals[m] == init[m];
        } else {
          assert Some(all[x]) == evals[|evals| - 1];
        }
      }
    }
  }

  lemma {:induction false} FilteredComplete(evals: seq<Option<Combo>>, cfg: Config, all: seq<Combo>, m: nat)
    requires Filtered(evals, cfg) == Some(all)
    requires m < |evals| && evals[m].Some? && WithinLimits(evals[m].value, cfg)
    ensures evals[m].value in all
    decreases |evals|
  {
    var init := evals[..|evals| - 1];
    var acc := Filtered(init, cfg).value;
    if m < |init| {
      assert init[m] == evals[m];
      FilteredComplete(init, cfg, acc, m);
    }
  }

  lemma {:induction false} FilteredFails(evals: seq<Option<Combo>>, cfg: Config)
    ensures Filtered(evals, cfg).None? <==> None in evals
    decreases |evals|
  {
    if evals != [] {
      var init := evals[..|evals| - 1];
      FilteredFails(init, cfg);
      if None in init {
        var m :| 0 <= m < |init| && init[m] == None;
        assert evals[m] == None;
      }
      if None in evals {
        var m :| 0 <= m < |evals| && evals[m] == None;
        if m < |init| {
          assert init[m] == None;
        }
      }
    }
  }

  lemma SurvivorsOfSound(tips: seq<Tip>, cs: seq<seq<nat>>, cfg: Config, all: seq<Combo>)
    requires IndexCombos(cs, |tips|)
    requires SurvivorsOf(tips, cs, cfg) == Some(all)
    ensures forall x :: 0 <= x < |all| ==>
      (WithinLimits(all[x], cfg) && exists m :: 0 <= m < |cs| && Evaluate(Pick(tips, cs[m])) == Some(all[x]))
  {
    var evals := Evaluations(tips, cs);
    FilteredSound(evals, cfg, all);
    forall x | 0 <= x < |all| ensures exists m :: 0 <= m < |cs| && Evaluate(Pick(tips, cs[m])) == Some(all[x]) {
      var m :| 0 <= m < |evals| && evals[m] == Some(all[x]);
      assert Evaluate(Pick(tips, cs[m])) == Some(all[x]);
    }
  }

  lemma SurvivorsOfComplete(tips: seq<Tip>, cs: seq<seq<nat>>, cfg: Config, all: seq<Combo>, m: nat)
    requires IndexCombos(cs, |tips|)
    requires SurvivorsOf(tips, cs, cfg) == Some(all)
    requires m < |cs| && Evaluate(Pick(tips, cs[m])).Some?
    requires WithinLimits(Evaluate(Pick(tips, cs[m])).value, cfg)
    ensures Evaluate(Pick(tips, cs[m])).value in all
  {
    var evals := Evaluations(tips, cs);
    assert evals[m] == Evaluate(Pick(tips, cs[m]));
    FilteredComplete(evals, cfg, all, m);
  }

  lemma SurvivorsOfFails(tips: seq<Tip>, cs: seq<seq<nat>>, cfg: Config)
    requires IndexCombos(cs, |tips|)
    ensures SurvivorsOf(tips, cs, cfg).None? <==>
      exists m :: 0 <= m < |cs| && Evaluate(Pick(tips, cs[m])).None?
  {
    var evals := Evaluations(tips, cs);
    FilteredFails(evals, cfg);
    if None in evals {
      var m :| 0 <= m < |evals| && evals[m] == None;
      assert Evaluate(Pick(tips, cs[m])).None?;
    }
    if exists m :: 0 <= m < |cs| && Evaluate(Pick(tips, cs[m])).None? {
      var m :| 0 <= m < |cs| && Evaluate(Pick(tips, cs[m])).None?;
      assert evals[m] == None;
    }
  }

  /** A candidate for the sizes before the last is a candidate for all of them. */
  lemma CandidateGrow(tips: seq<Tip>, sizes: seq<nat>, c: seq<nat>)
    requires sizes != [] && Candidate(tips, sizes[..|sizes| - 1], c)
    ensures Candidate(tips, sizes, c)
  {
    var init := sizes[..|sizes| - 1];
    var i :| 0 <= i < |init| && 1 <= init[i] <= |tips| && IsCombination(c, 0, |tips|, init[i]);
    assert sizes[i] == init[i];
  }

  /** A combination of the last size, when it fits the pool, is a candidate. */
  lemma CandidateLast(tips: seq<Tip>, sizes: seq<nat>, c: seq<nat>)
    requires sizes != [] && 1 <= sizes[|sizes| - 1] <= |tips|
    requires IsCombination(c, 0, |tips|, sizes[|sizes| - 1])
    ensures Candidate(tips, sizes, c)
  {
  }

  /** A candidate is one for the sizes before the last, or a combination of the last size. */
  lemma CandidateSplit(tips: seq<Tip>, sizes: seq<nat>, c: seq<nat>)
    requires sizes != [] && Candidate(tips, sizes, c)
    ensures Candidate(tips, sizes[..|sizes| - 1], c) ||
      (1 <= sizes[|sizes| - 1] <= |tips| && IsCombination(c, 0, |tips|, sizes[|sizes| - 1]))
  {
    var init := sizes[..|sizes| - 1];
    var i :| 0 <= i < |sizes| && 1 <= sizes[i] <= |tips| && IsCombination(c, 0, |tips|, sizes[i]);
    if i < |init| {
      assert init[i] == sizes[i];
    }
  }

  /** For one size: every kept record is a within-limits evaluation of a combination. */
  lemma SizeSound(tips: seq<Tip>, size: nat, cfg: Config, more: seq<Combo>)
    requires IndexCombos(Combinations(0, |tips|, size), |tips|)
    requires SurvivorsOf(tips, Combinations(0, |tips|, size), cfg) == Some(more)
    ensures forall x :: 0 <= x < |more| ==>
      (WithinLimits(more[x], cfg) && exists c :: IsCombination(c, 0, |tips|, size) && Evaluate(Pick(tips, c)) == Some(more[x]))
  {
    var cs := Combinations(0, |tips|, size);
    CombinationsShape(0, |tips|, size);
    SurvivorsOfSound(tips, cs, cfg, more);
    forall x | 0 <= x < |more|
      ensures exists c :: IsCombination(c, 0, |tips|, size) && Evaluate(Pick(tips, c)) == Some(more[x])
    {
      var m :| 0 <= m < |cs| && Evaluate(Pick(tips, cs[m])) == Some(more[x]);
      assert IsCombination(cs[m], 0, |tips|, size);
    }
  }

  /** For one size: every within-limits combination is kept. */
  lemma SizeComplete(tips: seq<Tip>, size: nat, cfg: Config, more: seq<Combo>, c: seq<nat>)
    requires IndexCombos(Combinations(0, |tips|, size), |tips|)
    requires SurvivorsOf(tips, Combinations(0, |tips|, size), cfg) == Some(more)
    requires IsCombination(c, 0, |tips|, size) && size >= 1
    requires Evaluate(Pick(tips, c)).Some? && WithinLimits(Evaluate(Pick(tips, c)).value, cfg)
    ensures Evaluate(Pick(tips, c)).value in more
  {
    var m := CombinationsComplete(0, |tips|, size, c);
    SurvivorsOfComplete(tips, Combinations(0, |tips|, size), cfg, more, m);
  }

  /** For one size: collecting raises exactly when one combination fails to evaluate. */
  lemma SizeFails(tips: seq<Tip>, size: nat, cfg: Config)
    requires IndexCombos(Combinations(0, |tips|, size), |tips|) && size >= 1
    ensures SurvivorsOf(tips, Combinations(0, |tips|, size), cfg).None? <==>
      exists c :: IsCombination(c, 0, |tips|, size) && Evaluate(Pick(tips, c)).None?
  {
    var cs := Combinations(0, |tips|, size);
    SurvivorsOfFails(tips, cs, cfg);
    if SurvivorsOf(tips, cs, cfg).None? {
      CombinationsShape(0, |tips|, size);
      var m :| 0 <= m < |cs| && Evaluate(Pick(tips, cs[m])).None?;
      assert IsCombination(cs[m], 0, |tips|, size);
    }
    if exists c :: IsCombination(c, 0, |tips|, size) && Evaluate(Pick(tips, c)).None? {
      var c :| IsCombination(c, 0, |tips|, size) && Evaluate(Pick(tips, c)).None?;
      var m := CombinationsComplete(0, |tips|, size, c);
      assert Evaluate(Pick(tips, cs[m])).None?;
    }
  }

  /** Every surviving record passed both filters and is the evaluation of an
      enumerated combination. */
  lemma {:induction false} SurvivorsSound(tips: seq<Tip>, sizes: seq<nat>, cfg: Config, all: seq<Combo>)
    requires ValidSizes(sizes)
    requires Survivors(tips, sizes, cfg) == Some(all)
    ensures forall x :: 0 <= x < |all| ==>
      (WithinLimits(all[x], cfg) && exists c :: Candidate(tips, sizes, c) && Evaluate(Pick(tips, c)) == Some(all[x]))
    decreases |sizes|
  {
    if sizes != [] {
      var init := sizes[..|sizes| - 1];
      var size := sizes[|sizes| - 1];
      assert ValidSizes(init) by {
        assert forall i :: 0 <= i < |init| ==> init[i] == sizes[i];
      }
      var acc := Survivors(tips, init, cfg).value;
      SurvivorsSound(tips, init, cfg, acc);
      var more: seq<Combo> := [];
      if |tips| >= size {
        CombosIndexed(|tips|, size);
        more := SurvivorsOf(tips, Combinations(0, |tips|, size), cfg).value;
        SizeSound(tips, size, cfg, more);
      }
      assert all == acc + more;
      forall x | 0 <= x < |all| ensures WithinLimits(all[x], cfg) &&
        exists c :: Candidate(tips, sizes, c) && Evaluate(Pick(tips, c)) == Some(all[x])
      {
        if x < |acc| {
          assert all[x] == acc[x];
          var c :| Candidate(tips, init, c) && Evaluate(Pick(tips, c)) == Some(acc[x]);
          CandidateGrow(tips, sizes, c);
        } else {
          assert all[x] == more[x - |acc|];
          var c :| IsCombination(c, 0, |tips|, size) && Evaluate(Pick(tips, c)) == Some(more[x - |acc|]);
          CandidateLast(tips, sizes, c);
        }
      }
    }
  }

  /** Every enumerated combination that evaluates and passes both filters survives. */
  lemma {:induction false} SurvivorsComplete(tips: seq<Tip>, sizes: seq<nat>, cfg: Config, all: seq<Combo>, c: seq<nat>)
    requires ValidSizes(sizes)
    requires Survivors(tips, sizes, cfg) == Some(all)
    requires Candidate(tips, sizes, c)
    requires Evaluate(Pick(tips, c)).Some? && WithinLimits(Evaluate(Pick(tips, c)).value, cfg)
    ensures Evaluate(Pick(tips, c)).value in all
    decreases |sizes|
  {
    var init := sizes[..|sizes| - 1];
    var size := sizes[|sizes| - 1];
    assert ValidSizes(init) by {
      assert forall i :: 0 <= i < |init| ==> init[i] == sizes[i];
    }
    var acc := Survivors(tips, init, cfg).value;
    CandidateSplit(tips, sizes, c);
    if Candidate(tips, init, c) {
      SurvivorsComplete(tips, init, cfg, acc, c);
    } else {
      CombosIndexed(|tips|, size);
      var more := SurvivorsOf(tips, Combinations(0, |tips|, size), cfg).value;
      SizeComplete(tips, size, cfg, more, c);
      assert all == acc + more;
    }
  }

  /** Collecting the survivors raises exactly when evaluating one enumerated
      combination raises. */
  lemma {:induction false} SurvivorsFails(tips: seq<Tip>, sizes: seq<nat>, cfg: Config)
    requires ValidSizes(sizes)
    ensures Survivors(tips, sizes, cfg).None? <==>
      exists c :: Candidate(tips, sizes, c) && Evaluate(Pick(tips, c)).None?
    decreases |sizes|
  {
    if sizes != [] {
      var init := sizes[..|sizes| - 1];
      var size := sizes[|sizes| - 1];
      assert ValidSizes(init) by {
        assert forall i :: 0 <= i < |init| ==> init[i] == sizes[i];
      }
      SurvivorsFails(tips, init, cfg);
      if |tips| >= size {
        CombosIndexed(|tips|, size);
        SizeFails(tips, size, cfg);
      }
      if Survivors(tips, sizes, cfg).None? {
        if Survivors(tips, init, cfg).None? {
          var c :| Candidate(tips, init, c) && Evaluate(Pick(tips, c)).None?;
          CandidateGrow(tips, sizes, c);
        } else {
          var c :| IsCombination(c, 0, |tips|, size) && Evaluate(Pick(tips, c)).None?;
          CandidateLast(tips, sizes, c);
        }
      }
      if exists c :: Candidate(tips, sizes, c) && Evaluate(Pick(tips, c)).None? {
        var c :| Candidate(tips, sizes, c) && Evaluate(Pick(tips, c)).None?;
        CandidateSplit(tips, sizes, c);
      }
    }
  }

  /** The result is at most `top_n` records, best first, each the evaluation of an
      enumerated combination that passed both filters. */
  lemma KombisSound(tips: seq<Tip>, cfg: Config)
    requires ValidSizes(cfg.sizes)
    ensures var r := Kombis(tips, cfg);
      r.Some? ==> (|r.value| <= cfg.topN && SortedDesc(r.value, Score) &&
        forall x :: 0 <= x < |r.value| ==>
          (WithinLimits(r.value[x], cfg) &&
           exists c :: Candidate(tips, cfg.sizes, c) && Evaluate(Pick(tips, c)) == Some(r.value[x])))
  {
    if |tips| >= 2 && Survivors(tips, cfg.sizes, cfg).Some? {
      var all := Survivors(tips, cfg.sizes, cfg).value;
      SurvivorsSound(tips, cfg.sizes, cfg, all);
      var q := SortDesc(all, Score);
      var r := Take(q, cfg.topN);
      TakeSorted(q, Score, cfg.topN);
      forall x | 0 <= x < |r| ensures WithinLimits(r[x], cfg) &&
        exists c :: Candidate(tips, cfg.sizes, c) && Evaluate(Pick(tips, c)) == Some(r[x])
      {
        assert r[x] == q[x];
        assert q[x] in multiset(all);
        var y :| 0 <= y < |all| && all[y] == q[x];
      }
    }
  }

  /** Top-n optimality: with at least two tips, every enumerated combination that
      evaluates and passes both filters is returned, or the result is full and
      every returned record scores at least as high. */
  lemma KombisOptimal(tips: seq<Tip>, cfg: Config, c: seq<nat>)
    requires ValidSizes(cfg.sizes)
    requires |tips| >= 2 && Kombis(tips, cfg).Some?
    requires Candidate(tips, cfg.sizes, c)
    requires Evaluate(Pick(tips, c)).Some? && WithinLimits(Evaluate(Pick(tips, c)).value, cfg)
    ensures var st := Evaluate(Pick(tips, c)).value;
      var r := Kombis(tips, cfg).value;
      st in r || (|r| == cfg.topN && forall y :: y in r ==> Score(y) >= Score(st))
  {
    var all := Survivors(tips, cfg.sizes, cfg).value;
    SurvivorsComplete(tips, cfg.sizes, cfg, all, c);
    TakeSortDescTop(all, Score, cfg.topN, Evaluate(Pick(tips, c)).value);
  }

  /** `generate_kombi` raises exactly when there are at least two tips, some tip has
      no `value_score`, and some configured size is between 2 and the pool size. */
  lemma KombisFails(tips: seq<Tip>, cfg: Config)
    requires ValidSizes(cfg.sizes)
    ensures Kombis(tips, cfg).None? <==>
      |tips| >= 2 &&
      (exists k :: 0 <= k < |cfg.sizes| && 2 <= cfg.sizes[k] <= |tips|) &&
      (exists i :: 0 <= i < |tips| && tips[i].valueScore.None?)
  {
    var n := |tips|;
    if n >= 2 {
      SurvivorsFails(tips, cfg.sizes, cfg);
      if Kombis(tips, cfg).None? {
        var c :| Candidate(tips, cfg.sizes, c) && Evaluate(Pick(tips, c)).None?;
        FailingCandidate(tips, cfg.sizes, c);
      }
      if (exists k :: 0 <= k < |cfg.sizes| && 2 <= cfg.sizes[k] <= n) &&
         (exists i :: 0 <= i < n && tips[i].valueScore.None?) {
        var k :| 0 <= k < |cfg.sizes| && 2 <= cfg.sizes[k] <= n;
        var i :| 0 <= i < n && tips[i].valueScore.None?;
        MissingValueFails(tips, cfg.sizes, k, i);
      }
    }
  }

  /** A candidate that fails to evaluate has at least two legs, one without `value_score`. */
  lemma FailingCandidate(tips: seq<Tip>, sizes: seq<nat>, c: seq<nat>)
    requires Candidate(tips, sizes, c) && Evaluate(Pick(tips, c)).None?
    ensures exists k :: 0 <= k < |sizes| && 2 <= sizes[k] <= |tips|
    ensures exists i :: 0 <= i < |tips| && tips[i].valueScore.None?
  {
    var k :| 0 <= k < |sizes| && 1 <= sizes[k] <= |tips| && IsCombination(c, 0, |tips|, sizes[k]);
    EvaluateFails(Pick(tips, c));
    var j :| 0 <= j < |c| && Pick(tips, c)[j].valueScore.None?;
    assert tips[c[j]].valueScore.None?;
  }

  /** A tip without `value_score` makes every combination of a size of two or more
      that holds it fail to evaluate. */
  lemma MissingValueFails(tips: seq<Tip>, sizes: seq<nat>, k: nat, i: nat)
    requires k < |sizes| && 2 <= sizes[k] <= |tips|
    requires i < |tips| && tips[i].valueScore.None?
    ensures exists c :: Candidate(tips, sizes, c) && Evaluate(Pick(tips, c)).None?
  {
    var c := Containing(|tips|, sizes[k], i);
    var at := if i < sizes[k] then i else sizes[k] - 1;
    assert Candidate(tips, sizes, c);
    EvaluateFails(Pick(tips, c));
    assert Pick(tips, c)[at] == tips[i];
  }

  /** Fewer than two tips give no ticket; otherwise the result is a prefix of the
      surviving combinations sorted by score, and combinations of equal score keep
      their enumeration order (size order, then the lexicographic order of
      `itertools.combinations`). */
  lemma KombisStable(tips: seq<Tip>, cfg: Config)
    requires ValidSizes(cfg.sizes)
    ensures |tips| < 2 ==> Kombis(tips, cfg) == Some([])
    ensures |tips| >= 2 && Survivors(tips, cfg.sizes, cfg).Some? ==>
      (var all := Survivors(tips, cfg.sizes, cfg).value;
       Kombis(tips, cfg).value <= SortDesc(all, Score) &&
       forall v :: Tied(SortDesc(all, Score), Score, v) == Tied(all, Score, v))
  {
    if |tips| >= 2 && Survivors(tips, cfg.sizes, cfg).Some? {
      var all := Survivors(tips, cfg.sizes, cfg).value;
      forall v ensures Tied(SortDesc(all, Score), Score, v) == Tied(all, Score, v) {
        SortDescStable(all, Score, v);
      }
    }
  }

  /** A size-`s` combination of `0 .. n-1` containing index `i`. */
  function Containing(n: nat, s: nat, i: nat): (c: seq<nat>)
    requires 1 <= s <= n && i < n
    ensures IsCombination(c, 0, n, s)
    ensures c[if i < s then i else s - 1] == i
  {
    seq(s, j requires 0 <= j < s => if j == s - 1 && i >= s then i else j)
  }
}
