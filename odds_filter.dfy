/** The tip gate of backend/pipeline/odds_filter.py: prices of at least 1.60 pass,
    shorter prices must clear six ordered guards. */
module Filter {
  import opened Common

  /** A tip as a dict of numbers. */
  type Tip = map<string, real>

  /** The thresholds `OddsFilter.__init__` fixes (its `config` argument is unused). */
  datatype OddsFilter = OddsFilter(minOdds: real, minProb: real, minConf: real,
                                   minDeepValue: real, maxRisk: real, minEvEdge: real)
  {
    /** `allow_tip`; None when it raises: a KeyError for a missing `odds`,
        `probability` or `confidence`, or a ZeroDivisionError for a zero price that
        reaches the fair-odds guard. */
    function AllowTip(tip: Tip): (r: Option<bool>)
      ensures r.None? <==> (
        !("odds" in tip && "probability" in tip && "confidence" in tip) ||
        (tip["odds"] < minOdds && tip["odds"] == 0.0 && StrictGuards(tip)))
      ensures ("odds" in tip && "probability" in tip && "confidence" in tip && tip["odds"] >= minOdds) ==>
        r == Some(true)
    {
      if !("odds" in tip && "probability" in tip && "confidence" in tip) then None
      else
        var odds := tip["odds"];
        var prob := tip["probability"];
        var conf := tip["confidence"];
        var deepVal := Get(tip, "deep_value", 0.0);
        var risk := Get(tip, "risk", 0.0);
        var fairOdds := Get(tip, "fair_odds", odds);
        var closingEstimate := Get(tip, "expected_closing_line", odds);
        if odds >= minOdds then Some(true)
        else if prob < minProb then Some(false)
        else if conf < minConf then Some(false)
        else if deepVal < minDeepValue then Some(false)
        else if risk > maxRisk then Some(false)
        else if odds == 0.0 then None
        else
          var fairEdge := fairOdds / odds - 1.0;
          if fairEdge < minEvEdge then Some(false)
          else if closingEstimate <= odds then Some(false)
          else Some(true)
    }

    /** Guards 2/A to 2/D, the ones checked before the division. */
    predicate StrictGuards(tip: Tip)
      requires "odds" in tip && "probability" in tip && "confidence" in tip
    {
      tip["probability"] >= minProb && tip["confidence"] >= minConf &&
      Get(tip, "deep_value", 0.0) >= minDeepValue && Get(tip, "risk", 0.0) <= maxRisk
    }
  }

  const DefaultOddsFilter := OddsFilter(1.60, 0.78, 0.70, 0.55, 0.38, 0.07)

  /** Below `min_odds` (and at a non-zero price) a tip passes exactly when all six
      guards hold. */
  lemma ShortPriceIff(f: OddsFilter, tip: Tip)
    requires "odds" in tip && "probability" in tip && "confidence" in tip
    requires tip["odds"] < f.minOdds && tip["odds"] != 0.0
    ensures f.AllowTip(tip) == Some(
      f.StrictGuards(tip) &&
      Get(tip, "fair_odds", tip["odds"]) / tip["odds"] - 1.0 >= f.minEvEdge &&
      Get(tip, "expected_closing_line", tip["odds"]) > tip["odds"])
  {
  }

  /** Without `fair_odds` the edge is zero, so a short price is rejected. */
  lemma MissingFairOddsRejects(tip: Tip)
    requires "odds" in tip && "probability" in tip && "confidence" in tip
    requires tip["odds"] < 1.60 && tip["odds"] != 0.0 && "fair_odds" !in tip
    ensures DefaultOddsFilter.AllowTip(tip) == Some(false)
  {
    DivSelf(tip["odds"]);
  }

  lemma DivSelf(x: real)
    requires x != 0.0
    ensures x / x == 1.0
  {
  }

  /** Without `expected_closing_line` the closing guard fails, so a short price is
      rejected. */
  lemma MissingClosingLineRejects(tip: Tip)
    requires "odds" in tip && "probability" in tip && "confidence" in tip
    requires tip["odds"] < 1.60 && tip["odds"] != 0.0 && "expected_closing_line" !in tip
    ensures DefaultOddsFilter.AllowTip(tip) == Some(false)
  {
  }

  /** A missing `deep_value` counts as 0 and fails its guard. */
  lemma MissingDeepValueRejects(tip: Tip)
    requires "odds" in tip && "probability" in tip && "confidence" in tip
    requires tip["odds"] < 1.60 && "deep_value" !in tip
    ensures DefaultOddsFilter.AllowTip(tip) == Some(false)
  {
  }

  /** A missing `risk` counts as 0, which passes its guard: the tip is judged as if
      it carried `risk = 0`. */
  lemma MissingRiskPasses(f: OddsFilter, tip: Tip)
    requires "risk" !in tip && f.maxRisk >= 0.0
    ensures f.AllowTip(tip) == f.AllowTip(tip["risk" := 0.0])
  {
    var t := tip["risk" := 0.0];
    assert forall k :: k != "risk" ==> (k in t <==> k in tip) && (k in tip ==> t[k] == tip[k]);
  }

  /** The guards compare strictly, so a tip exactly at every threshold passes. */
  lemma BoundaryPasses()
    ensures DefaultOddsFilter.AllowTip(map["odds" := 1.5, "probability" := 0.78, "confidence" := 0.70,
      "deep_value" := 0.55, "risk" := 0.38, "fair_odds" := 1.605, "expected_closing_line" := 1.51]) == Some(true)
  {
  }
}
