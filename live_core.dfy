/** The live helpers of backend/core/live_engine.py: price drift, the FlashScore
    momentum, the SofaScore xG score, the danger flag, the live probability and the
    decision rule. Scraper calls become inputs: a stats dict is None when the scraper
    returned None. `round` is left out. */
module LiveCore {
  import opened Common

  /** A stats dict of numbers (a flag such as `var_check` is truthy when non-zero). */
  type Stats = map<string, real>

  /** The one threshold of `LiveEngine.__init__` the modelled helpers read. */
  datatype LiveConfig = LiveConfig(dangerAttackThreshold: real)

  const DefaultLiveConfig := LiveConfig(65.0)

  datatype Drift = Drift(previousOdds: real, currentOdds: real, driftPercent: real)

  /** `_odds_drift`, with the scraper's `(prev, current)` pair as input (None when the
      scraper raises). */
  function OddsDrift(prices: Option<(real, real)>): (r: Drift)
    ensures r.previousOdds != 0.0
    ensures r.driftPercent * r.previousOdds == r.previousOdds - r.currentOdds
    ensures prices.None? ==> r == Drift(2.0, 2.0, 0.0)
    ensures prices.Some? && prices.value.0 == 0.0 ==> r.previousOdds == 1.0
  {
    var (prev0, current) := if prices.Some? then prices.value else (2.0, 2.0);
    var prev := if prev0 == 0.0 then 1.0 else prev0;
    Drift(prev, current, (prev - current) / prev)
  }

  /** A shortening price (current below a positive previous one) gives a positive drift. */
  lemma DriftSign(prev: real, current: real)
    requires prev > 0.0
    ensures OddsDrift(Some((prev, current))).driftPercent > 0.0 <==> current < prev
  {
    var d := OddsDrift(Some((prev, current))).driftPercent;
    assert d * prev == prev - current;
    if d > 0.0 {
      assert d * prev > 0.0;
    } else {
      assert d * prev <= 0.0 by { assert (-d) * prev >= 0.0; }
    }
  }

  /** Python truthiness of the stats argument: None or an empty dict is false. */
  predicate Truthy(s: Option<Stats>) {
    s.Some? && s.value != map[]
  }

  /** `_momentum_engine`. */
  function MomentumEngine(flash: Option<Stats>): (r: real)
    ensures 0.0 <= r <= 3.0
    ensures !Truthy(flash) ==> r == 0.0
    ensures (flash.Some? &&
      !("dangerous_attacks" in flash.value && "attacks" in flash.value && "shots_on_goal" in flash.value)) ==>
      r == 0.0
  {
    if !Truthy(flash) then 0.0
    else
      var d := flash.value;
      var momentum :=
        if "dangerous_attacks" in d && "attacks" in d && "shots_on_goal" in d then
          (d["dangerous_attacks"] * 0.6 + d["attacks"] * 0.3 + d["shots_on_goal"] * 0.1) / 100.0
        else 0.0;
      Max(0.0, Min(3.0, momentum))
  }

  /** `_xg_engine`. */
  function XgEngine(sofa: Option<Stats>): (r: real)
    ensures 0.0 <= r <= 3.0
    ensures !Truthy(sofa) ==> r == 0.0
    ensures sofa.Some? && !("xg_now" in sofa.value && "xg_prev" in sofa.value) ==> r == 0.0
  {
    if !Truthy(sofa) then 0.0
    else
      var d := sofa.value;
      if "xg_now" in d && "xg_prev" in d then
        var xgDelta := d["xg_now"] - d["xg_prev"];
        var xgScore := xgDelta * 2.0 + Get(d, "pressure_index", 0.0) * 0.3 + Get(d, "shot_quality", 0.0) * 0.2;
        Max(0.0, Min(3.0, xgScore))
      else 0.0
  }

  /** `_danger_zone`: the three checks in order; a None dict raises at its first use
      and the flag keeps what the earlier checks set. */
  function DangerZone(cfg: LiveConfig, flash: Option<Stats>, sofa: Option<Stats>): (r: bool)
    ensures r <==> (
      flash.Some? && (Get(flash.value, "red_cards", 0.0) > 0.0 ||
      (sofa.Some? && (Get(sofa.value, "var_check", 0.0) != 0.0 ||
                      Get(flash.value, "dangerous_attacks", 0.0) > cfg.dangerAttackThreshold))))
  {
    var danger := false;
    if flash.None? then danger
    else
      var danger := danger || Get(flash.value, "red_cards", 0.0) > 0.0;
      if sofa.None? then danger
      else
        var danger := danger || Get(sofa.value, "var_check", 0.0) != 0.0;
        danger || Get(flash.value, "dangerous_attacks", 0.0) > cfg.dangerAttackThreshold
  }

  /** With both dicts present the flag is the disjunction of the three checks. */
  lemma DangerBothPresent(cfg: LiveConfig, flash: Stats, sofa: Stats)
    ensures DangerZone(cfg, Some(flash), Some(sofa)) <==>
      Get(flash, "red_cards", 0.0) > 0.0 || Get(sofa, "var_check", 0.0) != 0.0 ||
      Get(flash, "dangerous_attacks", 0.0) > cfg.dangerAttackThreshold
  {
  }

  /** `_estimate_live_prob`. */
  function EstimateLiveProb(drift: Drift, momentum: real, xg: real, danger: bool): (r: real)
    ensures 0.05 <= r <= 0.95
  {
    var base := 0.50 + drift.driftPercent * 0.8 + momentum * 0.15 + xg * 0.10;
    var base := if danger then base - 0.12 else base;
    Max(0.05, Min(0.95, base))
  }

  /** Danger never raises the estimate, and lowers it by exactly 0.12 when neither
      estimate is clamped. */
  lemma DangerLowersEstimate(drift: Drift, momentum: real, xg: real)
    ensures EstimateLiveProb(drift, momentum, xg, true) <= EstimateLiveProb(drift, momentum, xg, false)
    ensures var base := 0.50 + drift.driftPercent * 0.8 + momentum * 0.15 + xg * 0.10;
      0.17 <= base <= 0.95 ==>
        EstimateLiveProb(drift, momentum, xg, true) == EstimateLiveProb(drift, momentum, xg, false) - 0.12
  {
  }

  datatype Reason = StrongSignal | NoValue | WeakMomentum | NotStrongEnough

  datatype Decision = Decision(liveTip: bool, reason: Reason, confidence: real)

  /** The confidence blend of `_ai_decision`, before the danger discount. */
  function BlendedConfidence(liveProb: real, liveValue: real, momentum: real, xg: real): real {
    liveProb * 0.4 + Max(0.0, liveValue) * 0.3 + momentum * 0.2 + xg * 0.1
  }

  /** `_ai_decision`. */
  function AiDecision(liveProb: real, liveValue: real, momentum: real, xg: real, danger: bool): (r: Decision)
    ensures r.confidence == (if danger then 0.7 else 1.0) * BlendedConfidence(liveProb, liveValue, momentum, xg)
    ensures r.liveTip <==> r.confidence > 0.65 && liveValue > 0.05
    ensures r.liveTip <==> r.reason == StrongSignal
    ensures !r.liveTip ==> (r.reason == NoValue <==> liveValue < 0.0)
    ensures !r.liveTip ==> (r.reason == WeakMomentum <==> 0.0 <= liveValue && momentum < 0.5)
  {
    var confidence := BlendedConfidence(liveProb, liveValue, momentum, xg);
    var confidence := if danger then confidence * 0.7 else confidence;
    if confidence > 0.65 && liveValue > 0.05 then Decision(true, StrongSignal, confidence)
    else if liveValue < 0.0 then Decision(false, NoValue, confidence)
    else if momentum < 0.5 then Decision(false, WeakMomentum, confidence)
    else Decision(false, NotStrongEnough, confidence)
  }

  /** Danger can only withdraw a tip: with non-negative inputs, a tip given under
      danger is also given without it. */
  lemma DangerOnlyWithdraws(liveProb: real, liveValue: real, momentum: real, xg: real)
    requires liveProb >= 0.0 && momentum >= 0.0 && xg >= 0.0
    ensures AiDecision(liveProb, liveValue, momentum, xg, true).liveTip ==>
      AiDecision(liveProb, liveValue, momentum, xg, false).liveTip
  {
    var c := BlendedConfidence(liveProb, liveValue, momentum, xg);
    assert c >= 0.0;
  }

  datatype LiveResult = LiveResult(liveTip: bool, reason: Reason, liveProbability: real, liveValue: real,
                                   confidence: real, drift: Drift, momentum: real, xgMomentum: real,
                                   dangerZone: bool, liveOdds: real)

  /** The live value of `analyze_live_match`: the estimate times the price, less the
      chance of losing (the price is not reduced by the stake, unlike the pre-match `ev`). */
  function LiveValue(prob: real, odds: real): real {
    prob * odds - (1.0 - prob)
  }

  /** `analyze_live_match` with the scraper results as inputs. */
  function AnalyzeLiveMatch(cfg: LiveConfig, prices: Option<(real, real)>, flash: Option<Stats>,
                            sofa: Option<Stats>): (r: LiveResult)
    ensures 0.05 <= r.liveProbability <= 0.95
    ensures r.liveOdds == r.drift.currentOdds
    ensures r.liveValue == LiveValue(r.liveProbability, r.liveOdds)
    ensures r.liveTip ==> r.liveValue > 0.05 && r.confidence > 0.65
  {
    var drift := OddsDrift(prices);
    var momentum := MomentumEngine(flash);
    var xg := XgEngine(sofa);
    var danger := DangerZone(cfg, flash, sofa);
    var liveProb := EstimateLiveProb(drift, momentum, xg, danger);
    var liveOdds := drift.currentOdds;
    var liveValue := LiveValue(liveProb, liveOdds);
    var decision := AiDecision(liveProb, liveValue, momentum, xg, danger);
    LiveResult(decision.liveTip, decision.reason, liveProb, liveValue, decision.confidence,
               drift, momentum, xg, danger, liveOdds)
  }

  /** When the scrapers give nothing the price stays at 2.0, the estimate is 0.5 and
      the value 0.5, yet the confidence of 0.35 gives no tip, for weak momentum. */
  lemma AnalyzeWithoutData(cfg: LiveConfig)
    ensures var r := AnalyzeLiveMatch(cfg, None, None, None);
      r.liveProbability == 0.5 && r.liveValue == 0.5 && r.confidence == 0.35 &&
      !r.liveTip && r.reason == WeakMomentum
  {
  }
}
