/** Bias correction (backend/core/bias_engine.py): four clamped bias components read
    from per-match metadata, a weighted and clamped aggregate, and the corrected
    probability clamped to [0.01, 0.99]. */
module Bias {
  import opened Common

  /** The engine's configuration: `bias_weights` and `max_correction`. */
  datatype BiasConfig = BiasConfig(weights: map<string, real>, maxCorrection: real)

  const DefaultWeights: map<string, real> :=
    map["drift" := 0.30, "market" := 0.25, "model_dev" := 0.25, "form" := 0.20]

  const DefaultBiasConfig := BiasConfig(DefaultWeights, 0.15)

  /** The metadata of one match; an absent key reads as `Missing`. */
  type Meta = map<string, Field>

  /** One corrected record: probability, the components in insertion order, the correction. */
  datatype BiasResult = BiasResult(probability: real, components: seq<(string, real)>, correction: real)

  function DriftBias(drift: real): (r: real)
    ensures -0.3 <= r <= 0.3
    ensures -0.3 <= drift <= 0.3 ==> r == drift
  {
    Clip(drift, -0.3, 0.3)
  }

  function MarketBias(publicMoney: real): (r: real)
    ensures -0.5 <= r <= 0.5
    ensures 0.0 <= publicMoney <= 1.0 ==> r == publicMoney - 0.5
  {
    Clip(publicMoney - 0.5, -0.5, 0.5)
  }

  function ModelDevBias(modelStd: real): (r: real)
    ensures -0.5 <= r <= 0.5
    ensures -0.25 <= modelStd <= 0.25 ==> r == 2.0 * modelStd
  {
    Clip(modelStd * 2.0, -0.5, 0.5)
  }

  function FormBias(formScore: real): (r: real)
    ensures -0.4 <= r <= 0.4
    ensures -1.0 <= formScore <= 1.0 ==> r == 0.4 * formScore
  {
    Clip(formScore * 0.4, -0.4, 0.4)
  }

  /** `Σ weights.get(k, 0) · v` over the components, left to right. */
  function WeightedSum(weights: map<string, real>, comps: seq<(string, real)>): real {
    if comps == [] then 0.0
    else WeightedSum(weights, comps[..|comps| - 1]) + Get(weights, comps[|comps| - 1].0, 0.0) * comps[|comps| - 1].1
  }

  /** `_aggregate_bias`: the weighted sum clamped to ±max_correction. */
  function Aggregate(cfg: BiasConfig, comps: seq<(string, real)>): real {
    Clip(WeightedSum(cfg.weights, comps), -cfg.maxCorrection, cfg.maxCorrection)
  }

  /** `_aggregate_bias` as written: a loop accumulating `total`. */
  method AggregateBias(cfg: BiasConfig, comps: seq<(string, real)>) returns (r: real)
    ensures r == Aggregate(cfg, comps)
  {
    var total := 0.0;
    for i := 0 to |comps|
      invariant total == WeightedSum(cfg.weights, comps[..i])
    {
      assert comps[..i + 1][..i] == comps[..i];
      var (k, v) := comps[i];
      var w := Get(cfg.weights, k, 0.0);
      total := total + w * v;
    }
    assert comps[..|comps|] == comps;
    r := Clip(total, -cfg.maxCorrection, cfg.maxCorrection);
  }

  /** The correction never exceeds `max_correction` in size, and is the plain weighted
      sum whenever that is within bounds. */
  lemma AggregateBounds(cfg: BiasConfig, comps: seq<(string, real)>)
    requires cfg.maxCorrection >= 0.0
    ensures -cfg.maxCorrection <= Aggregate(cfg, comps) <= cfg.maxCorrection
    ensures Abs(WeightedSum(cfg.weights, comps)) <= cfg.maxCorrection ==>
      Aggregate(cfg, comps) == WeightedSum(cfg.weights, comps)
  {
  }

  /** A component without a weight contributes nothing. */
  lemma {:induction false} UnweightedIgnored(weights: map<string, real>, comps: seq<(string, real)>, k: string, v: real)
    requires k !in weights
    ensures WeightedSum(weights, comps + [(k, v)]) == WeightedSum(weights, comps)
  {
    assert (comps + [(k, v)])[..|comps|] == comps;
  }

  /** `meta.get(key, default)` passed to a numpy clamp; None when the value is not a number. */
  function MetaValue(meta: Meta, key: string, default: real): Option<real> {
    ReadFloat(if key in meta then meta[key] else Missing, default)
  }

  /** The components dict, in insertion order; None when a metadata value is not a number. */
  function Components(meta: Meta): Option<seq<(string, real)>> {
    var d := MetaValue(meta, "drift", 0.0);
    var p := MetaValue(meta, "public_money", 0.5);
    var s := MetaValue(meta, "model_std", 0.05);
    var f := MetaValue(meta, "form_score", 0.0);
    if d.None? || p.None? || s.None? || f.None? then None
    else Some([("drift", DriftBias(d.value)), ("market", MarketBias(p.value)),
               ("model_dev", ModelDevBias(s.value)), ("form", FormBias(f.value))])
  }

  /** The record for one match with base probability `base`. */
  function Correct(cfg: BiasConfig, base: real, meta: Meta): (r: Option<BiasResult>)
    ensures r.Some? ==> 0.01 <= r.value.probability <= 0.99
    ensures r.Some? && cfg.maxCorrection >= 0.0 ==> -cfg.maxCorrection <= r.value.correction <= cfg.maxCorrection
  {
    match Components(meta)
    case None => None
    case Some(comps) =>
      var correction := Aggregate(cfg, comps);
      Some(BiasResult(Clip(base + correction, 0.01, 0.99), comps, correction))
  }

  /** The metadata of `id`, or an empty dict. */
  function MetaFor(metaData: map<string, Meta>, id: string): Meta {
    if id in metaData then metaData[id] else map[]
  }

  /** `apply_bias` over the `bayes_output` items in order (each item's
      `probability` field, or `Bad` when the item is not a dict): a match whose
      probability does not parse is skipped; a metadata value that is not a number
      makes the call raise (None). */
  function ApplyBiasSpec(cfg: BiasConfig, outputs: seq<(string, Field)>, metaData: map<string, Meta>): Option<map<string, BiasResult>> {
    if outputs == [] then Some(map[])
    else
      var (id, f) := outputs[|outputs| - 1];
      match ApplyBiasSpec(cfg, outputs[..|outputs| - 1], metaData)
      case None => None
      case Some(acc) =>
        match ReadFloat(f, 0.5)
        case None => Some(acc)
        case Some(base) =>
          match Correct(cfg, base, MetaFor(metaData, id))
          case None => None
          case Some(res) => Some(acc[id := res])
  }

  /** `apply_bias` as written: a loop filling the `corrected` dict. */
  method ApplyBias(cfg: BiasConfig, outputs: seq<(string, Field)>, metaData: map<string, Meta>)
    returns (r: Option<map<string, BiasResult>>)
    ensures r == ApplyBiasSpec(cfg, outputs, metaData)
  {
    var corrected: map<string, BiasResult> := map[];
    for i := 0 to |outputs|
      invariant ApplyBiasSpec(cfg, outputs[..i], metaData) == Some(corrected)
    {
      var id := outputs[i].0;
      var base := ReadFloat(outputs[i].1, 0.5);
      ApplyBiasUnfold(cfg, outputs, i, metaData);
      if base.Some? {
        var meta := MetaFor(metaData, id);
        var comps := Components(meta);
        if comps.None? {
          assert Correct(cfg, base.value, meta).None?;
          ApplyBiasPrefixFails(cfg, outputs, i + 1, metaData);
          return None;
        }
        var correction := AggregateBias(cfg, comps.value);
        var finalProb := Clip(base.value + correction, 0.01, 0.99);
        assert Correct(cfg, base.value, meta) == Some(BiasResult(finalProb, comps.value, correction));
        corrected := corrected[id := BiasResult(finalProb, comps.value, correction)];
      }
    }
    assert outputs[..|outputs|] == outputs;
    r := Some(corrected);
  }

  /** One step of `apply_bias`'s loop, in terms of the previous items' result. */
  lemma ApplyBiasUnfold(cfg: BiasConfig, outputs: seq<(string, Field)>, i: nat, metaData: map<string, Meta>)
    requires i < |outputs|
    ensures ApplyBiasSpec(cfg, outputs[..i + 1], metaData) ==
      match ApplyBiasSpec(cfg, outputs[..i], metaData)
      case None => None
      case Some(acc) =>
        match ReadFloat(outputs[i].1, 0.5)
        case None => Some(acc)
        case Some(base) =>
          match Correct(cfg, base, MetaFor(metaData, outputs[i].0))
          case None => None
          case Some(res) => Some(acc[outputs[i].0 := res])
  {
    assert outputs[..i + 1][..i] == outputs[..i];
  }

  lemma {:induction false} ApplyBiasPrefixFails(cfg: BiasConfig, outputs: seq<(string, Field)>, j: nat, metaData: map<string, Meta>)
    requires j <= |outputs|
    requires ApplyBiasSpec(cfg, outputs[..j], metaData).None?
    ensures ApplyBiasSpec(cfg, outputs, metaData).None?
  {
    if j < |outputs| {
      assert outputs[..|outputs| - 1][..j] == outputs[..j];
      ApplyBiasPrefixFails(cfg, outputs[..|outputs| - 1], j, metaData);
    } else {
      assert outputs[..j] == outputs;
    }
  }

  /** The match ids `apply_bias` keeps: those whose probability parses. */
  function Parsed(outputs: seq<(string, Field)>): set<string> {
    set i | 0 <= i < |outputs| && outputs[i].1 != Bad :: outputs[i].0
  }

  /** Exactly the matches whose probability parses get a record, each with a
      probability in [0.01, 0.99]. */
  lemma {:induction false} ApplyBiasKeys(cfg: BiasConfig, outputs: seq<(string, Field)>, metaData: map<string, Meta>)
    ensures var r := ApplyBiasSpec(cfg, outputs, metaData);
      r.Some? ==> (r.value.Keys == Parsed(outputs) &&
        forall id :: id in r.value ==> 0.01 <= r.value[id].probability <= 0.99)
  {
    if outputs != [] {
      var init := outputs[..|outputs| - 1];
      var (id, f) := outputs[|outputs| - 1];
      ApplyBiasKeys(cfg, init, metaData);
      ParsedStep(outputs);
      var prev := ApplyBiasSpec(cfg, init, metaData);
      if prev.Some? && f != Bad {
        var base := ReadFloat(f, 0.5).value;
        var res := Correct(cfg, base, MetaFor(metaData, id));
        if res.Some? {
          assert ApplyBiasSpec(cfg, outputs, metaData) == Some(prev.value[id := res.value]);
        }
      }
    }
  }

  /** How `Parsed` grows by one output. */
  lemma ParsedStep(outputs: seq<(string, Field)>)
    requires outputs != []
    ensures var last := outputs[|outputs| - 1];
      Parsed(outputs) == Parsed(outputs[..|outputs| - 1]) + (if last.1 == Bad then {} else {last.0})
  {
    var init := outputs[..|outputs| - 1];
    assert forall i :: 0 <= i < |init| ==> init[i] == outputs[i];
  }

  /** `apply_bias` raises exactly when a match whose probability parses has a
      metadata value that is not a number. */
  lemma {:induction false} ApplyBiasFails(cfg: BiasConfig, outputs: seq<(string, Field)>, metaData: map<string, Meta>)
    ensures ApplyBiasSpec(cfg, outputs, metaData).None? <==>
      exists i :: 0 <= i < |outputs| && outputs[i].1 != Bad && Components(MetaFor(metaData, outputs[i].0)).None?
  {
    if outputs != [] {
      var init := outputs[..|outputs| - 1];
      ApplyBiasFails(cfg, init, metaData);
      assert forall i :: 0 <= i < |init| ==> init[i] == outputs[i];
    }
  }

  /** The weighted sum of the four components `apply_bias` builds. */
  lemma WeightedSumFour(weights: map<string, real>, c: seq<(string, real)>)
    requires |c| == 4
    ensures WeightedSum(weights, c) ==
      Get(weights, c[0].0, 0.0) * c[0].1 + Get(weights, c[1].0, 0.0) * c[1].1 +
      Get(weights, c[2].0, 0.0) * c[2].1 + Get(weights, c[3].0, 0.0) * c[3].1
  {
    var c1, c2, c3 := c[..1], c[..2], c[..3];
    assert c1[..0] == [] && c2[..1] == c1 && c3[..2] == c2;
    assert WeightedSum(weights, c1) == Get(weights, c[0].0, 0.0) * c[0].1;
    assert WeightedSum(weights, c2) == WeightedSum(weights, c1) + Get(weights, c[1].0, 0.0) * c[1].1;
    assert WeightedSum(weights, c3) == WeightedSum(weights, c2) + Get(weights, c[2].0, 0.0) * c[2].1;
  }

  /** With the default weights and no metadata the correction is 0.025 (the
      `model_std` default of 0.05 doubled, weighted by 0.25). */
  lemma DefaultCorrection(base: real)
    ensures Correct(DefaultBiasConfig, base, map[]) ==
      Some(BiasResult(Clip(base + 0.025, 0.01, 0.99),
                      [("drift", 0.0), ("market", 0.0), ("model_dev", 0.1), ("form", 0.0)], 0.025))
  {
    var comps := [("drift", 0.0), ("market", 0.0), ("model_dev", 0.1), ("form", 0.0)];
    assert Components(map[]) == Some(comps);
    DefaultWeightedSum();
  }

  lemma DefaultWeightedSum()
    ensures WeightedSum(DefaultWeights, [("drift", 0.0), ("market", 0.0), ("model_dev", 0.1), ("form", 0.0)]) == 0.025
  {
    WeightedSumFour(DefaultWeights, [("drift", 0.0), ("market", 0.0), ("model_dev", 0.1), ("form", 0.0)]);
    assert Get(DefaultWeights, "model_dev", 0.0) == 0.25 by {
      assert "model_dev" != "form";
    }
  }
}
