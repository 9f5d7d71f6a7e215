/** Edge evaluation (backend/core/edge_evaluator.py): expected value per outcome, a
    clamped value index corrected for volatility and momentum, the best outcome and
    an edge score in [0, 1]. */
module Edge {
  import opened Common

  datatype Outcome = Home | Draw | Away

  /** The dict `evaluate_edge` returns. */
  datatype EdgeResult = EdgeResult(evHome: real, evDraw: real, evAway: real,
                                   valueIndex: real, bestPick: Outcome, edgeScore: real)

  /** The inner `ev`: −1 when there are no usable odds, otherwise the expected profit
      of a unit stake. */
  function Ev(prob: real, odds: real): real {
    if odds <= 0.000000001 then -1.0 else prob * (odds - 1.0) - (1.0 - prob)
  }

  /** With usable odds the expected value is `p·odds − 1`, so it is non-negative
      exactly when `p·odds ≥ 1`; without, it is −1 whatever the probability. */
  lemma EvMeaning(prob: real, odds: real)
    ensures odds <= 0.000000001 ==> Ev(prob, odds) == -1.0
    ensures odds > 0.000000001 ==> Ev(prob, odds) == prob * odds - 1.0
    ensures odds > 0.000000001 ==> (Ev(prob, odds) >= 0.0 <==> prob * odds >= 1.0)
  {
  }

  /** Python `max` of three numbers. */
  function Max3(a: real, b: real, c: real): (m: real)
    ensures m >= a && m >= b && m >= c
    ensures m == a || m == b || m == c
  {
    Max(Max(a, b), c)
  }

  /** `best_pick_map[max_ev]`: the dict literal keyed by the EVs keeps, for equal keys,
      the label written last. */
  function BestPick(evHome: real, evDraw: real, evAway: real): Outcome {
    (map[evHome := Home][evDraw := Draw][evAway := Away])[Max3(evHome, evDraw, evAway)]
  }

  function EvOf(r: EdgeResult, o: Outcome): real {
    match o
    case Home => r.evHome
    case Draw => r.evDraw
    case Away => r.evAway
  }

  /** The momentum correction: a falling price strengthens the index, a rising one
      weakens it, a move within ±0.02 leaves it. */
  function MomentumScale(v: real, momentum: real): real {
    if momentum < -0.02 then v * 1.1
    else if momentum > 0.02 then v * 0.9
    else v
  }

  /** `value_index` from the largest EV, the volatility and the momentum. */
  function ValueIndex(maxEv: real, volatility: real, momentum: real): (r: real)
    ensures 0.0 <= r <= 1.0
  {
    var v := Clip((maxEv + 1.0) / 2.0, 0.0, 1.0) * (1.0 - volatility * 0.2);
    Clip(MomentumScale(v, momentum), 0.0, 1.0)
  }

  /** `evaluate_edge`, with missing odds read as 0, missing probabilities as 0.33,
      missing volatility and momentum as 0 and missing confidence as 0.5. */
  function EvaluateEdge(fused: map<string, real>, features: map<string, real>, liquidity: map<string, real>): (r: EdgeResult)
    ensures 0.0 <= r.valueIndex <= 1.0 && 0.0 <= r.edgeScore <= 1.0
    ensures EvOf(r, r.bestPick) == Max3(r.evHome, r.evDraw, r.evAway)
  {
    var evHome := Ev(Get(fused, "prob_home", 0.33), Get(features, "odds_home", 0.0));
    var evDraw := Ev(Get(fused, "prob_draw", 0.33), Get(features, "odds_draw", 0.0));
    var evAway := Ev(Get(fused, "prob_away", 0.33), Get(features, "odds_away", 0.0));
    var maxEv := Max3(evHome, evDraw, evAway);
    var valueIndex := ValueIndex(maxEv, Get(liquidity, "volatility_index", 0.0), Get(liquidity, "momentum", 0.0));
    BestPickValue(evHome, evDraw, evAway);
    EdgeResult(evHome, evDraw, evAway, valueIndex, BestPick(evHome, evDraw, evAway),
               EdgeScore(valueIndex, Get(fused, "confidence", 0.5)))
  }

  /** The picked outcome has the largest EV. */
  lemma BestPickValue(evHome: real, evDraw: real, evAway: real)
    ensures var r := EdgeResult(evHome, evDraw, evAway, 0.0, BestPick(evHome, evDraw, evAway), 0.0);
      EvOf(r, r.bestPick) == Max3(evHome, evDraw, evAway)
  {
  }

  /** Ties resolve away over draw over home. */
  lemma BestPickTies(evHome: real, evDraw: real, evAway: real)
    ensures var m := Max3(evHome, evDraw, evAway);
      BestPick(evHome, evDraw, evAway) ==
        (if evAway == m then Away else if evDraw == m then Draw else Home)
  {
  }

  /** With a non-negative base index (volatility at most 5) the momentum correction
      orders the index: falling price ≥ flat ≥ rising price. */
  lemma MomentumOrders(maxEv: real, volatility: real, down: real, flat: real, up: real)
    requires volatility <= 5.0
    requires down < -0.02 && -0.02 <= flat <= 0.02 && up > 0.02
    ensures ValueIndex(maxEv, volatility, down) >= ValueIndex(maxEv, volatility, flat) >= ValueIndex(maxEv, volatility, up)
  {
    var b := Clip((maxEv + 1.0) / 2.0, 0.0, 1.0);
    assert 0.0 <= 1.0 - volatility * 0.2;
    var v := b * (1.0 - volatility * 0.2);
    assert v >= 0.0;
    assert v * 1.1 >= v >= v * 0.9;
  }

  /** `edge_score`: the value index scaled by the confidence, clamped to [0, 1]. */
  function EdgeScore(valueIndex: real, confidence: real): real {
    Clip(valueIndex * confidence, 0.0, 1.0)
  }

  /** With a confidence in [0, 1] the clamp never binds and the edge score never
      exceeds the value index. */
  lemma EdgeBelowIndex(valueIndex: real, confidence: real)
    requires 0.0 <= valueIndex <= 1.0 && 0.0 <= confidence <= 1.0
    ensures EdgeScore(valueIndex, confidence) == valueIndex * confidence <= valueIndex
  {
    MulUnit(valueIndex, confidence);
  }

  /** Without odds every EV is −1, the value index and the edge score are 0, and the
      three-way tie resolves to "away". */
  lemma NoOdds(fused: map<string, real>, liquidity: map<string, real>)
    ensures var r := EvaluateEdge(fused, map[], liquidity);
      r.evHome == r.evDraw == r.evAway == -1.0 && r.valueIndex == 0.0 &&
      r.bestPick == Away && r.edgeScore == 0.0
  {
    BestPickTies(-1.0, -1.0, -1.0);
  }
}
