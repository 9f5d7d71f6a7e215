# Tippmester quantum engine: the betting decision rules, modelled and proved

This project models the decision arithmetic of the Tippmester backend. That backend
turns per-match predictions, odds and live statistics into betting tips. Each part
below is one module, in one `.dfy` file per source file:

- `kombi_engine.dfy` (`Kombi`): the combination-ticket optimiser. It enumerates the
  k-subsets of the candidate tips and scores each one by probability product, odds
  product, averages and a pairwise correlation. It keeps the tickets within the odds
  and risk limits and returns the `top_n` best by score.
- `bias_engine.dfy` (`Bias`): the bias correction. Four clamped bias components
  are combined as a weighted sum. The sum is clamped to ±`max_correction` and added
  to the Bayesian probability, which is then clamped again.
- `edge_evaluator.dfy` (`Edge`): expected value per outcome, the value index, the
  best pick (with the tie rule of a Python dict literal) and the edge score.
- `fusion_engine.dfy` (`Fusion`): the `FusionEngine` class. It holds three weight
  tables that are updated in place. It has the weighted fusion of engine outputs,
  ROI-based reweighting, the drift penalty and the meta layer.
- `bayesian_updater.dfy` (`Bayes`): the volatility correction, the parsing loop of
  `update`, and the reliability-weighted posterior.
- `odds_filter.dfy` (`Filter`): the gate that allows or rejects a tip, with six
  ordered guards below odds 1.60.
- `sharp_money_tracker.dfy` (`Sharp`): the signals read from an odds history:
  direction, sharp strength, public noise, the manipulation pattern and momentum.
  The sharp strength is modelled both as written and as evidently intended (see
  "## Findings").
- `public_money_engine.dfy` (`Public`): the public/sharp money probability shift,
  with clamps on probability, confidence and risk, and the per-match prediction loop.
- `live_core.dfy` (`LiveCore`): the live engine of `backend/core/live_engine.py`:
  odds drift, momentum, xG, the danger zone, the live probability, the live value
  and the decision rule with its reasons.
- `live_events.dfy` (`LiveEvents`): the live xG and next-event caps of
  `backend/engine/live_engine.py`.
- `feature_builder.dfy` (`Features`): the `FeatureBuilder` class. It runs the
  feature extractors, validates the result and memoises it in its `cache` field.
- `tip_generator.dfy` (`TipGenerator`): the priority score, the combination
  shortlist and the live threshold filter of `TipGeneratorPro`.
- `tip_pipeline.dfy` (`Pipeline`): ranking the evaluated matches and selecting the
  top ten.
- `common.dfy` (`Common`) and `ranking.dfy` (`Ranking`): shared definitions.
  - `Common` holds `Option`, numeric fields that may fail to parse, `np.clip`, sums,
    products, means and differences.
  - `Ranking` holds the stable descending sort that stands for Python's `sorted(...,
    reverse=True)`, list slicing, and the `Tied` view that states stability.

Python floats are modelled as `real`. A Python exception becomes a `None` result:
a `KeyError`, a `float(...)` that raises, or a `TypeError` from arithmetic on a
non-number. The model also keeps the paths where the source catches an exception
and falls back to a default.

Dictionaries of numbers become `map<string, real>` read with a default. A dictionary
that is iterated in insertion order becomes a sequence of pairs. Loops in the source
become Dafny methods with loop invariants, and each is proved equal to a
specification function. The properties are then proved about that function.

## Model

| member | source | states |
|---|---|---|
| Kombi.CombinationsShape | backend/core/kombi_engine.py:141 | every enumerated combination is `k` strictly increasing indices in range, so its legs are distinct input tips in input order |
| Kombi.CombinationsComplete | backend/core/kombi_engine.py:141 | every strictly increasing list of `k` indices in range is enumerated |
| Kombi.CombinationsLexOrder | backend/core/kombi_engine.py:141 | combinations are enumerated in strictly increasing lexicographic order, as `itertools.combinations` yields them |
| Kombi.CombinationsCount | backend/core/kombi_engine.py:141 | there are exactly C(n, k) combinations |
| Kombi.CombinationsTooLarge | backend/core/kombi_engine.py:137-139 | a size larger than the pool yields no combination |
| Kombi.PairDiffs | backend/core/kombi_engine.py:47-52 | one non-negative `|Δp| + |Δv|` per pair; the read of `value_score` raises exactly when some pair has a leg without one |
| Kombi.Correlation | backend/core/kombi_engine.py:42-54 | the correlation score lies in [0, 1] |
| Kombi.CorrelationNoPairs | backend/core/kombi_engine.py:42-54 | with fewer than two legs there is no pair and the score is 1 |
| Kombi.CorrelationIdentical | backend/core/kombi_engine.py:42-54 | legs with equal probability and value score correlate at 1 |
| Kombi.CorrelationFails | backend/core/kombi_engine.py:42-54 | the score raises if and only if there are two or more legs and one lacks `value_score` |
| Kombi.CorrelationScore | backend/core/kombi_engine.py:42-54 | the loop that collects the pair differences computes the correlation score |
| Kombi.CollectDiffs | backend/core/kombi_engine.py:43-47 | the loop over the pairs builds exactly the `diffs` list, or raises where a leg lacks `value_score` |
| Kombi.DiffScore | backend/core/kombi_engine.py:49-52 | for non-negative differences the score lies in [0, 1] |
| Kombi.EvaluateKombi | backend/core/kombi_engine.py:59-117 | `_evaluate_kombi` computes the combination statistics |
| Kombi.EvaluateFails | backend/core/kombi_engine.py:59-117 | evaluation raises if and only if there are two or more legs and one lacks `value_score` |
| Kombi.EvaluateUnit | backend/core/kombi_engine.py:102-107 | with leg probabilities, values and risks in [0, 1], the final score lies in [0, 1] |
| Kombi.EvaluateDefaults | backend/core/kombi_engine.py:75-107 | a missing odds reads 2.0, value 0.0 and risk 0.5; a single leg scores `0.25·p + 0.275` |
| Kombi.FilteredSound | backend/core/kombi_engine.py:142-152 | every record the filter pass keeps is within the odds and risk limits and is one of the evaluation results |
| Kombi.FilteredComplete | backend/core/kombi_engine.py:142-152 | every evaluation result within the limits is kept |
| Kombi.FilteredFails | backend/core/kombi_engine.py:142-152 | the filter pass raises if and only if one evaluation raised |
| Kombi.SurvivorsOfSound | backend/core/kombi_engine.py:141-152 | every kept ticket is the evaluation of one enumerated combination and is within the odds and risk limits |
| Kombi.SurvivorsOfComplete | backend/core/kombi_engine.py:141-152 | every enumerated combination whose evaluation is within the limits is kept |
| Kombi.SurvivorsOfFails | backend/core/kombi_engine.py:141-152 | collecting raises if and only if one enumerated combination fails to evaluate |
| Kombi.CollectSurvivors | backend/core/kombi_engine.py:141-152 | the inner loop over combinations keeps exactly the surviving tickets, in order |
| Kombi.SurvivorsSound | backend/core/kombi_engine.py:137-152 | over all sizes, every kept ticket is a within-limits evaluation of a combination of a size that fits the pool |
| Kombi.SurvivorsComplete | backend/core/kombi_engine.py:137-152 | over all sizes, every within-limits combination of a fitting size is kept |
| Kombi.SurvivorsFails | backend/core/kombi_engine.py:137-152 | over all sizes, the call raises if and only if some candidate combination fails to evaluate |
| Kombi.GenerateKombi | backend/core/kombi_engine.py:122-161 | the nested loops, the sort and the slice compute the ranked ticket list |
| Kombi.KombisSound | backend/core/kombi_engine.py:145-161 | at most `top_n` tickets, in non-increasing score order, each a within-limits evaluation of a candidate combination |
| Kombi.KombisOptimal | backend/core/kombi_engine.py:159-161 | a within-limits ticket left out of the result scores no higher than each of `top_n` returned tickets |
| Kombi.KombisFails | backend/core/kombi_engine.py:122-161 | the call raises if and only if there are at least two tips, a size from 2 up to the pool size, and a tip without `value_score` |
| Kombi.KombisStable | backend/core/kombi_engine.py:131-161 | fewer than two tips give an empty list; otherwise the result is a prefix of the sorted tickets, and tickets of equal score keep their enumeration order |
| Bias.DriftBias | backend/core/bias_engine.py:38-42 | the drift component lies in [−0.3, 0.3] and equals the drift inside that range |
| Bias.MarketBias | backend/core/bias_engine.py:47-51 | the market component lies in [−0.5, 0.5] and equals `public_money − 0.5` for money in [0, 1] |
| Bias.ModelDevBias | backend/core/bias_engine.py:56-60 | the deviation component lies in [−0.5, 0.5] and equals `2·model_std` for `|model_std| ≤ 0.25` |
| Bias.FormBias | backend/core/bias_engine.py:65-69 | the form component lies in [−0.4, 0.4] and equals `0.4·form_score` for scores in [−1, 1] |
| Bias.AggregateBias | backend/core/bias_engine.py:74-85 | the accumulating loop computes the clamped weighted sum |
| Bias.AggregateBounds | backend/core/bias_engine.py:79-85 | the correction lies in ±`max_correction` and is the plain weighted sum when that is within range |
| Bias.UnweightedIgnored | backend/core/bias_engine.py:80-82 | a component whose key has no weight does not change the sum |
| Bias.Correct | backend/core/bias_engine.py:124-153 | the corrected probability lies in [0.01, 0.99] and the correction within ±`max_correction` |
| Bias.ApplyBias | backend/core/bias_engine.py:90-155 | the loop over the Bayes outputs builds the corrected dict |
| Bias.ApplyBiasKeys | backend/core/bias_engine.py:122-153 | exactly the matches whose probability parses get a record, each with a probability in [0.01, 0.99] |
| Bias.ApplyBiasFails | backend/core/bias_engine.py:122-134 | the call raises if and only if a parsed match has a metadata value that is not a number |
| Bias.DefaultCorrection | backend/core/bias_engine.py:125-146 | with default weights and no metadata the components are (0, 0, 0.1, 0) and the correction is exactly 0.025 |
| Bias.DefaultWeightedSum | backend/core/bias_engine.py:25-30 | the default weights give the default components a weighted sum of 0.025 |
| Edge.EvMeaning | backend/core/edge_evaluator.py:68-71 | with odds at most 1e-9 the EV is −1 whatever the probability; otherwise it is `p·odds − 1`, non-negative exactly when `p·odds ≥ 1` |
| Edge.ValueIndex | backend/core/edge_evaluator.py:84-98 | the value index lies in [0, 1] |
| Edge.EvaluateEdge | backend/core/edge_evaluator.py:36-126 | value index and edge score lie in [0, 1], and the best pick's EV is the largest of the three |
| Edge.BestPickValue | backend/core/edge_evaluator.py:103-108 | the dict-literal lookup picks an outcome whose EV is the maximum |
| Edge.BestPickTies | backend/core/edge_evaluator.py:103-108 | on equal EVs the later key wins: away over draw over home |
| Edge.MomentumOrders | backend/core/edge_evaluator.py:93-96 | a falling market gives an index no lower than a flat one, and a flat one no lower than a rising one |
| Edge.EdgeBelowIndex | backend/core/edge_evaluator.py:113-114 | with confidence in [0, 1] the edge score is `value_index·confidence`, never above the value index |
| Edge.NoOdds | backend/core/edge_evaluator.py:54-75 | without odds all EVs are −1, the value index and edge score are 0, and the pick is away |
| Fusion.FuseFallback | backend/core/fusion_engine.py:64-65 | no weight is collected if and only if no output is usable |
| Fusion.UnusableIgnored | backend/core/fusion_engine.py:52-54 | an output without `prob_home` does not change the fused result |
| Fusion.FuseSingle | backend/core/fusion_engine.py:67-72 | a single usable engine's probabilities pass through unchanged, whatever its weight |
| Fusion.FuseBounds | backend/core/fusion_engine.py:56-72 | with used probabilities in [0, 1], each fused probability lies in [0, 1] |
| Fusion.Penalised | backend/core/fusion_engine.py:115 | the penalised weight is at least 0.3, below the old weight when that exceeds 0.3, and at most 2.0 |
| Fusion.Scaled | backend/core/fusion_engine.py:105 | the ROI rescaling lies in [0.5, 2.0], with 0.5 at the minimum ROI and 2.0 at the maximum |
| Fusion.MinRoi | backend/core/fusion_engine.py:94 | the minimum is attained and bounds every ROI from below |
| Fusion.MaxRoi | backend/core/fusion_engine.py:95 | the maximum is attained and bounds every ROI from above |
| Fusion.Recalculated | backend/core/fusion_engine.py:88-106 | ROI-tracked engines get weights in [0.5, 2.0] (all 1.0 when the spread is below 1e-9; min gets 0.5, max gets 2.0 otherwise); other engines keep theirs |
| Fusion.FusionEngine.constructor | backend/core/fusion_engine.py:29-33 | all three tables start empty |
| Fusion.FusionEngine.EngineWeight | backend/core/fusion_engine.py:85-86 | an engine without a stored weight weighs 1.0, and every weight lies in [0.3, 2.0] |
| Fusion.FusionEngine.Fuse | backend/core/fusion_engine.py:38-76 | the loop over the engine outputs computes the fused distribution |
| Fusion.FusionEngine.RecalculateWeights | backend/core/fusion_engine.py:88-106 | the weight table becomes the recalculated table; ROI and drift tables are unchanged; weights stay in [0.3, 2.0] |
| Fusion.FusionEngine.UpdateEngineRoi | backend/core/fusion_engine.py:81-83 | the ROI is recorded, then the weights are recalculated |
| Fusion.FusionEngine.UpdateDrift | backend/core/fusion_engine.py:111-115 | the error rate is recorded; above 0.2 the engine's weight becomes `max(0.3, 0.7·old)`, otherwise the weights are untouched |
| Fusion.ApplyMetaLayer | backend/core/fusion_engine.py:120-138 | empty meta returns the input; otherwise a copy with `(p + boost)/1.1` and the scaled confidence, other keys kept; a missing key raises |
| Fusion.MetaLayerOnFallback | backend/core/fusion_engine.py:136 | the fallback of `fuse` has no confidence, so a non-empty meta layer on it raises |
| Fusion.MetaLayerShrinks | backend/core/fusion_engine.py:132-134 | without boosts, a distribution summing to 1 comes out summing to 1/1.1 |
| Bayes.CorrectForVolatility | backend/core/bayesian_updater.py:32-39 | the corrected probability lies in [0.01, 0.99] |
| Bayes.VolatilityDampens | backend/core/bayesian_updater.py:37-39 | higher volatility never raises the corrected probability |
| Bayes.LikelihoodUnclamped | backend/core/bayesian_updater.py:85 | for a corrected probability the odds-form likelihood lies in [0.01, 99], so the [1e-6, 1e6] clamp never binds |
| Bayes.PosteriorOf | backend/core/bayesian_updater.py:98-104 | the posterior lies in [0.01, 0.99] |
| Bayes.CollectEvidence | backend/core/bayesian_updater.py:70-89 | the parsing loop collects the log-likelihoods and clipped reliabilities of exactly the entries that parse, in order |
| Bayes.UpdatePosterior | backend/core/bayesian_updater.py:44-104 | `update` computes the specified posterior |
| Bayes.UpdateBounds | backend/core/bayesian_updater.py:60-104 | the result is the prior or lies in [0.01, 0.99] |
| Bayes.UpdateNeverFails | backend/core/bayesian_updater.py:79-95 | with a positive `min_reliability` the weights never sum to zero, so `np.average` never raises |
| Bayes.UpdateTruncates | backend/core/bayesian_updater.py:64-65 | only the first `max_engines` entries matter |
| Bayes.Parse | backend/core/bayesian_updater.py:71-76 | an entry is skipped exactly when its `prob`, `reliability` or `volatility` fails to convert |
| Bayes.UpdateAllBad | backend/core/bayesian_updater.py:71-92 | when no entry parses, for whichever of its three fields, the prior is returned |
| Bayes.ParsedWeights | backend/core/bayesian_updater.py:79 | every collected reliability is at most 1 and at least `min(min_reliability, 1)`, so at least `min_reliability` when that is at most 1 |
| Filter.OddsFilter.AllowTip | backend/pipeline/odds_filter.py:29-72 | odds at or above `min_odds` are always allowed; the call raises exactly when odds, probability or confidence is missing, or on the fair-edge division by zero odds |
| Filter.ShortPriceIff | backend/pipeline/odds_filter.py:46-72 | below `min_odds`, a tip is allowed if and only if all six guards pass |
| Filter.MissingFairOddsRejects | backend/pipeline/odds_filter.py:63-65 | a missing `fair_odds` gives edge 0 and rejects a short price |
| Filter.MissingClosingLineRejects | backend/pipeline/odds_filter.py:68-69 | a missing `expected_closing_line` rejects a short price |
| Filter.MissingDeepValueRejects | backend/pipeline/odds_filter.py:54-55 | a missing `deep_value` rejects a short price |
| Filter.MissingRiskPasses | backend/pipeline/odds_filter.py:58-59 | a missing `risk` behaves as risk 0 |
| Filter.BoundaryPasses | backend/pipeline/odds_filter.py:46-69 | a tip exactly at the probability, confidence, deep-value and risk thresholds passes |
| Sharp.SharpMoneyTracker.DetectDirection | backend/engine/sharp_money_tracker.py:32-42 | neutral exactly for fewer than three points; strong down exactly when the last three points strictly fall, strong up exactly when they strictly rise, mixed otherwise |
| Sharp.SharpMoneyTracker.SharpStrength | backend/engine/sharp_money_tracker.py:47-71 | as intended: the strength is one of 0, 1/3, 2/3, 1; it is 0 exactly for fewer than three points or no condition holding, and 1 exactly when all three conditions hold |
| Sharp.SharpMoneyTracker.SharpStrengthAsWritten | backend/engine/sharp_money_tracker.py:58-71 | as written: the strength is 0 or 1/3, and 1/3 exactly when at least one of the three conditions holds |
| Sharp.StrengthAsWrittenUndercounts | backend/engine/sharp_money_tracker.py:58-71 | the written strength never exceeds the intended one, is 0 exactly when the intended one is, and equals it exactly when at most one condition holds |
| Sharp.StrengthAsWrittenDiffers | backend/engine/sharp_money_tracker.py:58-71 | on the prices 2.0, 1.9, 1.8 the written strength is 1/3 and the intended one 2/3 |
| Sharp.SharpMoneyTracker.PublicNoise | backend/engine/sharp_money_tracker.py:76-86 | the noise is at most 1, 0 for fewer than three points, and otherwise 0 or at least `min(1, limit/0.05)` |
| Sharp.SharpMoneyTracker.Analyze | backend/engine/sharp_money_tracker.py:114-144 | the analysis carries the four sub-results and the momentum unchanged |
| Sharp.IsManipulated | backend/engine/sharp_money_tracker.py:91-109 | the pattern holds exactly for four or more points whose first three steps are below −0.02, above 0.02 and below −0.02, so the points fall, rise, then fall |
| Sharp.MomentumTelescopes | backend/engine/sharp_money_tracker.py:132-136 | the momentum is half the move over the last two steps |
| Sharp.DirectionMirror | backend/engine/sharp_money_tracker.py:36-40 | negating the history swaps strong down and strong up |
| Sharp.ManipulatedIsMixed | backend/engine/sharp_money_tracker.py:97-109 | a manipulated four-point history is classified as mixed |
| Sharp.AnalyzeShiftInvariant | backend/engine/sharp_money_tracker.py:114-144 | shifting every price by a constant leaves the whole analysis unchanged |
| Public.PublicCore | backend/engine/public_money_engine.py:69-104 | the core raises if and only if one of its five inputs is not a number |
| Public.CoreDefaults | backend/engine/public_money_engine.py:79-104 | with every input at its default, the probability is exactly 0.5 |
| Public.PublicShareLowers | backend/engine/public_money_engine.py:88 | more public money never raises the probability |
| Public.SharpShareRaises | backend/engine/public_money_engine.py:91 | more sharp money never lowers the probability |
| Public.ShorteningRaises | backend/engine/public_money_engine.py:94-95 | odds shortening from the opening price never lowers the probability |
| Public.Normalize | backend/engine/public_money_engine.py:109-110 | the result lies in [0.01, 0.99] and equals the input inside that range |
| Public.Confidence | backend/engine/public_money_engine.py:115-120 | the confidence lies in [min_conf, 1] when `min_conf ≤ 1` and equals `min_conf` above; it raises exactly for a non-numeric data quality |
| Public.Risk | backend/engine/public_money_engine.py:125-126 | the risk lies in [0, 1] |
| Public.PredictOne | backend/engine/public_money_engine.py:39-50 | probability in [0.01, 0.99] and risk in [0, 1]; a failing core falls back to 0.53 |
| Public.Predict | backend/engine/public_money_engine.py:34-64 | the loop over the matches builds the specified outputs dict |
| Public.PredictedFailsOn | backend/engine/public_money_engine.py:46-52 | a match whose confidence raises makes the whole call raise |
| Public.PredictedKeys | backend/engine/public_money_engine.py:37-64 | one entry per match id, each with probability in [0.01, 0.99] and risk in [0, 1] |
| LiveCore.OddsDrift | backend/core/live_engine.py:124-132 | a previous price of 0 becomes 1.0, a failed fetch gives (2, 2, 0), and `drift·prev = prev − current` |
| LiveCore.DriftSign | backend/core/live_engine.py:132 | with a positive previous price the drift is positive exactly when the price shortened |
| LiveCore.MomentumEngine | backend/core/live_engine.py:152-165 | momentum lies in [0, 3] and is 0 for missing or empty data or a missing key |
| LiveCore.XgEngine | backend/core/live_engine.py:178-195 | xG momentum lies in [0, 3] and is 0 for missing or empty data or a missing xG key |
| LiveCore.DangerZone | backend/core/live_engine.py:200-216 | the flag holds exactly when the guards reached before an exception fire: red cards, then VAR, then dangerous attacks above the threshold |
| LiveCore.DangerBothPresent | backend/core/live_engine.py:204-211 | with both data sources present: red cards, VAR check or attacks above the threshold |
| LiveCore.EstimateLiveProb | backend/core/live_engine.py:221-231 | the live probability lies in [0.05, 0.95] |
| LiveCore.DangerLowersEstimate | backend/core/live_engine.py:228-231 | danger never raises the estimate and lowers it by exactly 0.12 when no clamp binds |
| LiveCore.AiDecision | backend/core/live_engine.py:236-262 | confidence is the blend, times 0.7 in danger; tip if and only if confidence > 0.65 and value > 0.05; reasons in the order no value, weak momentum, not strong enough |
| LiveCore.DangerOnlyWithdraws | backend/core/live_engine.py:249-254 | a tip given in danger is also given without it |
| LiveCore.AnalyzeLiveMatch | backend/core/live_engine.py:44-107 | probability in [0.05, 0.95], live odds the current price, `value = p·odds − (1 − p)`, and a tip only with value > 0.05 and confidence > 0.65 |
| LiveCore.AnalyzeWithoutData | backend/core/live_engine.py:44-107 | with no scraper data: probability 0.5, value 0.5, confidence 0.35, no tip, reason weak momentum |
| LiveEvents.LiveXg | backend/engine/live_engine.py:83-89 | live xG is at most 1, and non-negative for non-negative counts |
| LiveEvents.LiveXgMonotone | backend/engine/live_engine.py:87-88 | more home shots never lower live xG |
| LiveEvents.NextEventProb | backend/engine/live_engine.py:94-106 | each event probability is at most 1, and all are 0 when both counts are missing |
| LiveEvents.CornerReadsAttacksOnly | backend/engine/live_engine.py:99 | the corner probability depends only on `attacks_home` |
| LiveEvents.FoulSymmetric | backend/engine/live_engine.py:98-100 | swapping attacks and danger keeps the foul probability; moving weight to danger never lowers the shot probability |
| Features.MatchId | backend/core/feature_builder.py:56 | a truthy `match_id` is the id, whatever its type; a falsy or absent one falls back to `id`, or None |
| Features.TeamStats | backend/core/feature_builder.py:90-96 | the team extractor yields exactly its four keys |
| Features.FormFeatures | backend/core/feature_builder.py:98-106 | the form extractor yields exactly its three keys; it raises exactly when a truthy form is text or a dict |
| Features.FormAverages | backend/core/feature_builder.py:98-106 | a falsy form (None, 0, empty) averages 0, a number is its own average, a non-empty list its mean; the difference is 0 unless both forms are truthy, where it is the difference of the averages |
| Features.Implied | backend/core/feature_builder.py:108-117 | the implied probability times the price is 1 for a present non-zero price; otherwise it is 0 |
| Features.OddsFeatures | backend/core/feature_builder.py:108-117 | the odds extractor yields exactly its six keys, unless it raises |
| Features.MomentumFeatures | backend/core/feature_builder.py:119-134 | the momentum extractor yields exactly velocity and acceleration; it raises exactly when the history has no length, or has three or more entries and is not a list of numbers |
| Features.MomentumDerivatives | backend/core/feature_builder.py:119-134 | both are 0 below three prices; otherwise velocity is the last step and acceleration `h[-1] − 2h[-2] + h[-3]` |
| Features.MetaFeatures | backend/core/feature_builder.py:136-141 | the meta extractor yields exactly its three keys |
| Features.LiveFeatures | backend/core/feature_builder.py:143-149 | the live extractor yields exactly its four keys |
| Features.BuiltValid | backend/core/feature_builder.py:63-76 | the merged features always pass `_validate`, and carry the live keys exactly when `live` is set |
| Features.FeatureBuilder.constructor | backend/core/feature_builder.py:40-41 | the cache starts empty |
| Features.FeatureBuilder.BuildFeatures | backend/core/feature_builder.py:46-85 | with the cache keyed by id and live flag: a cached key returns the stored entry; a raising extractor returns the error dict and stores nothing; otherwise the built features are stored and returned |
| Features.RepeatedCall | backend/core/feature_builder.py:56-61 | a second call with the same id and live flag returns the first call's result |
| Features.DistinctIds | backend/core/feature_builder.py:56-61 | a match whose id differs from the first call's, and is not yet cached, gets its own features |
| TipGenerator.PriorityBounds | backend/pipeline/tip_generator_pro.py:34-53 | with inputs in [0, 1] the priority lies in [0, 100]; an empty prediction scores 5 |
| TipGenerator.GenerateKombi | backend/pipeline/tip_generator_pro.py:122-142 | the filtering loop, the sort and the slice compute the shortlist |
| TipGenerator.KombiPoolSound | backend/pipeline/tip_generator_pro.py:124-138 | every pooled entry is an input prediction with priority ≥ 45 and value score ≥ 0.25 |
| TipGenerator.KombiPoolComplete | backend/pipeline/tip_generator_pro.py:124-138 | every qualifying prediction is pooled |
| TipGenerator.KombiPoolFails | backend/pipeline/tip_generator_pro.py:126-130 | the call raises if and only if a prediction clears the priority bar without a `value_score` |
| TipGenerator.KombiShortlist | backend/pipeline/tip_generator_pro.py:140-142 | at most three entries, sorted by priority, all qualifying; a qualifying entry left out ranks no higher than all three |
| TipGenerator.KombiStable | backend/pipeline/tip_generator_pro.py:140-142 | the shortlist is a prefix of the sorted pool, and equal priorities keep their input order |
| TipGenerator.GenerateLive | backend/pipeline/tip_generator_pro.py:147-169 | the filtering loop computes the live tips |
| TipGenerator.LiveTipsExact | backend/pipeline/tip_generator_pro.py:150-169 | the tips are exactly the entries with game chance at least 0.72, each scored by its game chance |
| Pipeline.RiskRanksHigher | backend/pipeline/tip_pipeline.py:44-46 | with edge and value equal, the riskier result ranks strictly higher |
| Pipeline.Evaluated | backend/pipeline/tip_pipeline.py:34-39 | one orchestrator result per match, in match order |
| Pipeline.GenerateTips | backend/pipeline/tip_pipeline.py:33-59 | `sorted_all` is the stable ranking of the results, `tips` its first ten, `count` their number |
| Pipeline.ResponseShape | backend/pipeline/tip_pipeline.py:42-57 | the ranking is a permutation, non-increasing and stable; `tips` has min(10, n) entries; a result left out ranks no higher than every tip |

## Findings

| source | as written | input that shows it | evidently intended | confidence | as-written member | corrected member |
|---|---|---|---|---|---|---|
| backend/engine/sharp_money_tracker.py:58-71 | `abs(np.diff(h)[-1]) > threshold` is a NumPy boolean, so `+` on the three conditions is a logical or: the score is True or False and the strength is 0 or 1/3 | prices 2.0, 1.9, 1.8: fast and large but not low-variance, giving 1/3 | the share of the three conditions that hold (2/3 here; the docstring of `analyze` shows 0.67) | not executed; rests on NumPy's boolean `+` being a logical or | Sharp.SharpMoneyTracker.SharpStrengthAsWritten, Sharp.StrengthAsWrittenDiffers | Sharp.SharpMoneyTracker.SharpStrength, used by `Analyze` |

## Left out

- Rounding: every `round(...)` on an output is dropped, and values are kept exact. Python floats are modelled as exact reals, so NaN, infinities and IEEE rounding are not modelled.
- Sharp.SharpMoneyTracker.SharpStrength: returns `score/3` exactly, not rounded to three decimals (1/3, not 0.333); the same holds for `SharpStrengthAsWritten`.
- TipGenerator.PriorityBounds: the priority is unrounded, so a score just below 45 that Python rounds up to 45.0 is excluded here but pooled by the source.
- TipGenerator.GenerateKombi: sorts by the unrounded priority, so priorities that round to the same tenth (50.04 and 50.01) tie and keep their input order in the source, but are ordered by value here.
- TipGenerator.KombiStable: its ties are ties of the unrounded priority, not of the rounded one the source sorts by.
- LiveCore.EstimateLiveProb: reads the unrounded drift, where the source reads `drift_percent` after it is rounded to four decimals, so the estimate can differ by up to 0.8·0.00005.
- LiveCore.AnalyzeLiveMatch: inherits the unrounded drift of `EstimateLiveProb`, so its probability, value and decision are those of the unrounded drift.
- Kombi.KombisFails: every tip carries a `probability` by its type, so the `KeyError` of `t["probability"]` on a tip without one (in `_correlation_score` and `_evaluate_kombi`) is not modelled; only the missing `value_score` raises.
- `np.log` and `np.exp` in the Bayesian update are function parameters. The proofs rely only on the exponential being positive.
- Bayes.UpdatePosterior: requires a prior in [0, 1], because the prior-odds division is only proved non-negative there. A zero weight sum, which `np.average` rejects, is modelled as a `None` result.
- The `np.std` confidence of `fuse` is a function parameter, so nothing is proved about its value.
- Fusion.FusionEngine.Fuse: requires the stored weights in [0.3, 2.0], the invariant every update keeps. Weights set from outside the class are not modelled.
- Kombi.GenerateKombi: configured sizes are at least 1 (a size of 0 makes the source take the mean of an empty list) and `top_n` is a natural number (a negative slice bound is not modelled).
- The scraper calls (`get_live_odds`, `get_live_stats`) and the orchestrator's `predict_match` are inputs to the model. The scraper results are optional values, with `None` for a failed call.
- `LiveEngine.__init__` thresholds other than the danger threshold (`max_drift`, `min_drift`, `momentum_spike`, `xg_spike`) are never read by the modelled methods.
- Non-numeric values in the live statistics, odds dicts and prediction dicts are not modelled. These dicts hold numbers only, and `var_check` is read as a non-zero number.
- The tip pipeline's results carry only the three ranked scores. A result missing `edge`, `value` or `risk` (a `KeyError` in the sort key) is not modelled.
- Features.FeatureBuilder.BuildFeatures: the cache is keyed by the id value and the live flag, not by the printed f-string, so ids that print alike (the text "7" and the number 7, or the text "None" and an absent id) share one entry in the source but not here; ints and floats are not told apart.
- Features.MatchId: a match value is None, a number, text, a list of numbers or a dict of numbers; booleans and lists or dicts holding other values are not modelled.
- `generate_single`, `_tippmix_filter` and the stake in `generate_live` depend on scrapers, a risk engine and a bankroll engine that are not part of this model.
- The sigmoid `_momentum` and `analyze_live_state` of `backend/engine/live_engine.py` are not modelled. `analyze_live_state` multiplies a dict by a number, which always raises.
- The scheduler (wall-clock polling in a thread), the web application startup, `system_flow`, the master and ensemble pipelines, the coach explainer and the anomaly engine are outside the decision rules modelled here.
- Logging and `traceback` output are not modelled.
