/** Bayesian combination of engine probabilities (backend/core/bayesian_updater.py):
    volatility-damped probabilities become odds-form likelihoods whose logs are
    averaged by reliability and applied to the prior odds. `np.log` and `np.exp` are
    parameters (`ln`, `exp`); the model keeps the control flow and the clamps. */
module Bayes {
  import opened Common
  import opened Ranking

  datatype BayesConfig = BayesConfig(prior: real, minReliability: real, maxEngines: nat, volatilityWeight: real)

  const DefaultBayesConfig := BayesConfig(0.5, 0.1, 50, 0.15)

  /** One engine output: its `prob`, `reliability` and `volatility` fields (`Bad`
      also stands for an entry that is not a dict, which the same `except` skips). */
  datatype Reading = Reading(prob: Field, reliability: Field, volatility: Field)

  /** `_correct_for_volatility`. */
  function CorrectForVolatility(cfg: BayesConfig, prob: real, volatility: real): (r: real)
    ensures 0.01 <= r <= 0.99
  {
    Clip(Damped(cfg, prob, Clip(volatility, 0.0, 1.0)), 0.01, 0.99)
  }

  /** The probability scaled down by the clipped volatility, before the clamp. */
  function Damped(cfg: BayesConfig, prob: real, vol: real): real {
    prob * (1.0 - vol * cfg.volatilityWeight)
  }

  /** More volatility never raises the corrected probability (for a non-negative
      probability and volatility weight). */
  lemma VolatilityDampens(cfg: BayesConfig, prob: real, v1: real, v2: real)
    requires prob >= 0.0 && cfg.volatilityWeight >= 0.0 && v1 <= v2
    ensures CorrectForVolatility(cfg, prob, v2) <= CorrectForVolatility(cfg, prob, v1)
  {
    ClipMonotone(v1, v2, 0.0, 1.0);
    DampMonotone(cfg, prob, Clip(v1, 0.0, 1.0), Clip(v2, 0.0, 1.0));
    ClipMonotone(Damped(cfg, prob, Clip(v2, 0.0, 1.0)), Damped(cfg, prob, Clip(v1, 0.0, 1.0)), 0.01, 0.99);
  }

  /** A larger volatility leaves less of the probability. */
  lemma DampMonotone(cfg: BayesConfig, prob: real, c1: real, c2: real)
    requires prob >= 0.0 && cfg.volatilityWeight >= 0.0 && c1 <= c2
    ensures Damped(cfg, prob, c2) <= Damped(cfg, prob, c1)
  {
    var w := cfg.volatilityWeight;
    ScaleLe(w, c1, c2);
    MulLe(prob, 1.0 - c2 * w, 1.0 - c1 * w);
  }

  lemma ScaleLe(p: real, a: real, b: real)
    requires p >= 0.0 && a <= b
    ensures a * p <= b * p
  {
    MulNonNegative(b - a, p);
    assert b * p - a * p == (b - a) * p;
  }

  lemma MulLe(p: real, a: real, b: real)
    requires p >= 0.0 && a <= b
    ensures p * a <= p * b
  {
    MulNonNegative(p, b - a);
    assert p * b - p * a == p * (b - a);
  }

  lemma ClipMonotone(a: real, b: real, lo: real, hi: real)
    requires a <= b
    ensures Clip(a, lo, hi) <= Clip(b, lo, hi)
  {
  }

  /** The odds-form likelihood, clamped to [1e-6, 1e6]. */
  function Likelihood(p: real): real
    requires 0.01 <= p <= 0.99
  {
    Clip(p / (1.0 - p + 0.000000001), 0.000001, 1000000.0)
  }

  /** For a corrected probability the clamp never binds: the odds lie in [0.01, 99]. */
  lemma LikelihoodUnclamped(p: real)
    requires 0.01 <= p <= 0.99
    ensures Likelihood(p) == p / (1.0 - p + 0.000000001)
    ensures 0.01 <= Likelihood(p) <= 99.0
  {
    var d := 1.0 - p + 0.000000001;
    assert 0.01 <= d <= 1.0;
    var q := p / d;
    assert q * d == p;
    assert q >= 0.0;
    MulNonNegative(q, 1.0 - d);
    assert q - p == q * (1.0 - d);
    MulNonNegative(q, d - 0.01);
    assert q * d - q * 0.01 == q * (d - 0.01);
    assert 0.01 <= q <= 99.0;
    assert Clip(q, 0.000001, 1000000.0) == q;
  }

  lemma DivNonNegative(a: real, b: real)
    requires a >= 0.0 && b > 0.0
    ensures a / b >= 0.0
  {
  }

  lemma MulNonNegative(a: real, b: real)
    requires a >= 0.0 && b >= 0.0
    ensures a * b >= 0.0
  {
  }

  /** A reading that parses: the likelihood of its corrected probability and its
      clamped reliability. A reading is skipped exactly when one of its three
      `float(...)` conversions raises. */
  function Parse(cfg: BayesConfig, e: Reading): (r: Option<(real, real)>)
    ensures r.None? <==> e.prob == Bad || e.reliability == Bad || e.volatility == Bad
  {
    var prob := ReadFloat(e.prob, 0.5);
    var reliability := ReadFloat(e.reliability, 0.5);
    var volatility := ReadFloat(e.volatility, 0.0);
    if prob.Some? && reliability.Some? && volatility.Some? then
      var p := CorrectForVolatility(cfg, prob.value, volatility.value);
      Some((Likelihood(p), Clip(reliability.value, cfg.minReliability, 1.0)))
    else
      None
  }

  /** The readings that survive the `except: continue`, in order. */
  function Parsed(cfg: BayesConfig, es: seq<Reading>): (r: seq<(real, real)>)
    ensures |r| <= |es|
  {
    if es == [] then []
    else
      var rest := Parsed(cfg, es[..|es| - 1]);
      match Parse(cfg, es[|es| - 1])
      case None => rest
      case Some(x) => rest + [x]
  }

  /** `log_likelihoods` for the parsed readings. */
  function LogLikelihoods(ln: real -> real, xs: seq<(real, real)>): (r: seq<real>)
    ensures |r| == |xs|
  {
    if xs == [] then [] else LogLikelihoods(ln, xs[..|xs| - 1]) + [ln(xs[|xs| - 1].0)]
  }

  /** `log_weights` for the parsed readings. */
  function Reliabilities(xs: seq<(real, real)>): (r: seq<real>)
    ensures |r| == |xs|
  {
    if xs == [] then [] else Reliabilities(xs[..|xs| - 1]) + [xs[|xs| - 1].1]
  }

  /** Σ a_i·w_i, left to right. */
  function Dot(a: seq<real>, w: seq<real>): real
    requires |a| == |w|
  {
    if a == [] then 0.0 else Dot(a[..|a| - 1], w[..|w| - 1]) + a[|a| - 1] * w[|w| - 1]
  }

  /** `np.average(a, weights=w)`; None when the weights sum to zero (it raises). */
  function Average(a: seq<real>, w: seq<real>): Option<real>
    requires |a| == |w|
  {
    if Sum(w) == 0.0 then None else Some(Dot(a, w) / Sum(w))
  }

  /** The prior odds and the clamped posterior for a weighted log-likelihood. */
  function PosteriorOf(cfg: BayesConfig, exp: real -> real, weightedLl: real): (r: real)
    requires 0.0 <= cfg.prior <= 1.0
    requires exp(weightedLl) > 0.0
    ensures 0.01 <= r <= 0.99
  {
    var denominator := 1.0 - cfg.prior + 0.000000001;
    assert denominator > 0.0;
    var priorOdds := cfg.prior / denominator;
    DivNonNegative(cfg.prior, denominator);
    var postOdds := priorOdds * exp(weightedLl);
    MulNonNegative(priorOdds, exp(weightedLl));
    Clip(postOdds / (1.0 + postOdds), 0.01, 0.99)
  }

  /** `update`; None when the reliabilities sum to zero (possible only with a
      non-positive `min_reliability`). */
  function Update(cfg: BayesConfig, outputs: seq<Reading>, ln: real -> real, exp: real -> real): Option<real>
    requires 0.0 <= cfg.prior <= 1.0
    requires forall x :: exp(x) > 0.0
  {
    if outputs == [] then Some(cfg.prior)
    else
      var xs := Parsed(cfg, Take(outputs, cfg.maxEngines));
      if xs == [] then Some(cfg.prior)
      else
        match Average(LogLikelihoods(ln, xs), Reliabilities(xs))
        case None => None
        case Some(wll) => Some(PosteriorOf(cfg, exp, wll))
  }

  /** `update` as written: a loop collecting log-likelihoods and weights. */
  method UpdatePosterior(cfg: BayesConfig, outputs: seq<Reading>, ln: real -> real, exp: real -> real)
    returns (r: Option<real>)
    requires 0.0 <= cfg.prior <= 1.0
    requires forall x :: exp(x) > 0.0
    ensures r == Update(cfg, outputs, ln, exp)
  {
    if |outputs| == 0 {
      return Some(cfg.prior);
    }
    var used := outputs;
    if |outputs| > cfg.maxEngines {
      used := outputs[..cfg.maxEngines];
    }
    assert used == Take(outputs, cfg.maxEngines);
    var logLikelihoods, logWeights := CollectEvidence(cfg, used, ln);
    ghost var xs := Parsed(cfg, used);
    if |logLikelihoods| == 0 {
      assert xs == [];
      return Some(cfg.prior);
    }
    assert xs != [];
    if Sum(logWeights) == 0.0 {
      assert Average(LogLikelihoods(ln, xs), Reliabilities(xs)) == None;
      return None;
    }
    var weightedLl := Dot(logLikelihoods, logWeights) / Sum(logWeights);
    assert Average(LogLikelihoods(ln, xs), Reliabilities(xs)) == Some(weightedLl);
    r := Some(PosteriorOf(cfg, exp, weightedLl));
  }

  lemma ParsedStep(cfg: BayesConfig, es: seq<Reading>, i: nat)
    requires i < |es|
    ensures Parsed(cfg, es[..i + 1]) ==
      Parsed(cfg, es[..i]) + (if Parse(cfg, es[i]).Some? then [Parse(cfg, es[i]).value] else [])
  {
    assert es[..i + 1][..i] == es[..i];
  }

  lemma LogLikelihoodsAppend(ln: real -> real, xs: seq<(real, real)>, x: (real, real))
    ensures LogLikelihoods(ln, xs + [x]) == LogLikelihoods(ln, xs) + [ln(x.0)]
    ensures Reliabilities(xs + [x]) == Reliabilities(xs) + [x.1]
  {
    assert (xs + [x])[..|xs|] == xs;
  }

  /** The loop of `update`: the log-likelihoods and weights of the readings that
      parse, in order. */
  method CollectEvidence(cfg: BayesConfig, used: seq<Reading>, ln: real -> real)
    returns (logLikelihoods: seq<real>, logWeights: seq<real>)
    ensures logLikelihoods == LogLikelihoods(ln, Parsed(cfg, used))
    ensures logWeights == Reliabilities(Parsed(cfg, used))
  {
    logLikelihoods, logWeights := [], [];
    for i := 0 to |used|
      invariant logLikelihoods == LogLikelihoods(ln, Parsed(cfg, used[..i]))
      invariant logWeights == Reliabilities(Parsed(cfg, used[..i]))
    {
      ParsedStep(cfg, used, i);
      var e := used[i];
      var prob := ReadFloat(e.prob, 0.5);
      var reliability := ReadFloat(e.reliability, 0.5);
      var volatility := ReadFloat(e.volatility, 0.0);
      if prob.Some? && reliability.Some? && volatility.Some? {
        var rel := Clip(reliability.value, cfg.minReliability, 1.0);
        var p := CorrectForVolatility(cfg, prob.value, volatility.value);
        var likelihood := Clip(p / (1.0 - p + 0.000000001), 0.000001, 1000000.0);
        assert Parse(cfg, e) == Some((likelihood, rel));
        LogLikelihoodsAppend(ln, Parsed(cfg, used[..i]), (likelihood, rel));
        assert Parsed(cfg, used[..i + 1]) == Parsed(cfg, used[..i]) + [(likelihood, rel)];
        logLikelihoods := logLikelihoods + [ln(likelihood)];
        logWeights := logWeights + [rel];
      } else {
        assert Parse(cfg, e) == None;
        assert Parsed(cfg, used[..i + 1]) == Parsed(cfg, used[..i]);
      }
    }
    assert used[..|used|] == used;
  }

  /** The result is the prior (no usable reading) or a posterior in [0.01, 0.99]. */
  lemma UpdateBounds(cfg: BayesConfig, outputs: seq<Reading>, ln: real -> real, exp: real -> real)
    requires 0.0 <= cfg.prior <= 1.0
    requires forall x :: exp(x) > 0.0
    ensures var r := Update(cfg, outputs, ln, exp);
      r.Some? ==> r.value == cfg.prior || 0.01 <= r.value <= 0.99
  {
  }

  /** With a positive `min_reliability` the weights never sum to zero, so the call
      never raises. */
  lemma UpdateNeverFails(cfg: BayesConfig, outputs: seq<Reading>, ln: real -> real, exp: real -> real)
    requires 0.0 <= cfg.prior <= 1.0
    requires forall x :: exp(x) > 0.0
    requires cfg.minReliability > 0.0
    ensures Update(cfg, outputs, ln, exp).Some?
  {
    if outputs != [] {
      var xs := Parsed(cfg, Take(outputs, cfg.maxEngines));
      if xs != [] {
        var ws := Reliabilities(xs);
        var lo := Min(cfg.minReliability, 1.0);
        ParsedWeights(cfg, Take(outputs, cfg.maxEngines));
        ReliabilitiesAtLeast(xs, lo);
        SumPositiveTerms(ws, lo);
        assert Average(LogLikelihoods(ln, xs), ws).Some?;
      }
    }
  }

  /** Every weight is clipped into [`min_reliability`, 1]: at most 1, and at least
      `min_reliability` (1 when that exceeds 1). */
  lemma {:induction false} ParsedWeights(cfg: BayesConfig, es: seq<Reading>)
    ensures forall i :: 0 <= i < |Parsed(cfg, es)| ==> Parsed(cfg, es)[i].1 >= Min(cfg.minReliability, 1.0)
    ensures forall i :: 0 <= i < |Parsed(cfg, es)| ==> Parsed(cfg, es)[i].1 <= 1.0
    ensures cfg.minReliability <= 1.0 ==>
      forall i :: 0 <= i < |Parsed(cfg, es)| ==> cfg.minReliability <= Parsed(cfg, es)[i].1
  {
    if es != [] {
      ParsedWeights(cfg, es[..|es| - 1]);
    }
  }

  lemma {:induction false} ReliabilitiesAtLeast(xs: seq<(real, real)>, lo: real)
    requires forall i :: 0 <= i < |xs| ==> xs[i].1 >= lo
    ensures forall i :: 0 <= i < |xs| ==> Reliabilities(xs)[i] >= lo
  {
    if xs != [] {
      ReliabilitiesAtLeast(xs[..|xs| - 1], lo);
    }
  }

  lemma SumPositiveTerms(s: seq<real>, lo: real)
    requires |s| > 0 && lo > 0.0 && forall i :: 0 <= i < |s| ==> s[i] >= lo
    ensures Sum(s) > 0.0
  {
    SumNonNegative(s[..|s| - 1]);
  }

  /** Only the first `max_engines` outputs matter. */
  lemma UpdateTruncates(cfg: BayesConfig, a: seq<Reading>, b: seq<Reading>, ln: real -> real, exp: real -> real)
    requires 0.0 <= cfg.prior <= 1.0
    requires forall x :: exp(x) > 0.0
    requires a != [] && b != [] && Take(a, cfg.maxEngines) == Take(b, cfg.maxEngines)
    ensures Update(cfg, a, ln, exp) == Update(cfg, b, ln, exp)
  {
  }

  /** When no reading parses, the prior comes back unchanged. */
  lemma {:induction false} UpdateAllBad(cfg: BayesConfig, outputs: seq<Reading>, ln: real -> real, exp: real -> real)
    requires 0.0 <= cfg.prior <= 1.0
    requires forall x :: exp(x) > 0.0
    requires forall i :: 0 <= i < |outputs| ==> Parse(cfg, outputs[i]).None?
    ensures Update(cfg, outputs, ln, exp) == Some(cfg.prior)
  {
    if outputs != [] {
      NoneParsed(cfg, Take(outputs, cfg.maxEngines));
    }
  }

  lemma {:induction false} NoneParsed(cfg: BayesConfig, es: seq<Reading>)
    requires forall i :: 0 <= i < |es| ==> Parse(cfg, es[i]).None?
    ensures Parsed(cfg, es) == []
  {
    if es != [] {
      NoneParsed(cfg, es[..|es| - 1]);
    }
  }
}
