/** Fusion of engine outputs (backend/core/fusion_engine.py): a weighted mean of
    the engines' 3-way probabilities, and the per-engine weight tables that ROI and
    drift feedback update in place. */
module Fusion {
  import opened Common

  /** Every stored weight lies in [0.3, 2.0]: ROI rescaling yields [0.5, 2.0] and the
      drift penalty never goes below 0.3. */
  ghost predicate WeightsInRange(w: map<string, real>) {
    forall k :: k in w ==> 0.3 <= w[k] <= 2.0
  }

  /** `_get_engine_weight` on a weight table: 1.0 for an engine without a weight. */
  function EngineWeightIn(w: map<string, real>, name: string): real {
    Get(w, name, 1.0)
  }

  /** An engine output is used when it has a `prob_home` key. */
  predicate Usable(out: map<string, real>) {
    "prob_home" in out
  }

  /** The `weights` list `fuse` builds. */
  function WeightsOf(w: map<string, real>, outputs: seq<(string, map<string, real>)>): seq<real> {
    if outputs == [] then []
    else
      var last := outputs[|outputs| - 1];
      WeightsOf(w, outputs[..|outputs| - 1]) + (if Usable(last.1) then [EngineWeightIn(w, last.0)] else [])
  }

  /** A probability scaled by its engine's weight. */
  function Weighted(p: real, wt: real): real {
    p * wt
  }

  /** The `probs[...]` list `fuse` builds for one probability key. */
  function TermsOf(w: map<string, real>, outputs: seq<(string, map<string, real>)>, key: string): seq<real> {
    if outputs == [] then []
    else
      var last := outputs[|outputs| - 1];
      TermsOf(w, outputs[..|outputs| - 1], key) +
        (if Usable(last.1) then [Weighted(Get(last.1, key, 0.0), EngineWeightIn(w, last.0))] else [])
  }

  /** What `fuse` returns when no output is usable; it has no `confidence` key. */
  const Fallback: map<string, real> := map["prob_home" := 0.33, "prob_draw" := 0.33, "prob_away" := 0.33]

  /** `fuse`: Σ p·w / Σ w per outcome, and the spread of the three weighted sums as
      confidence (`np.std`, passed in as `std`). */
  function Fused(w: map<string, real>, outputs: seq<(string, map<string, real>)>, std: (real, real, real) -> real): map<string, real>
    requires WeightsInRange(w)
  {
    var weights := WeightsOf(w, outputs);
    if weights == [] then Fallback
    else
      WeightsPositive(w, outputs);
      SumPositive(weights);
      var total := Sum(weights);
      var h, d, a := Sum(TermsOf(w, outputs, "prob_home")), Sum(TermsOf(w, outputs, "prob_draw")), Sum(TermsOf(w, outputs, "prob_away"));
      map["prob_home" := h / total, "prob_draw" := d / total, "prob_away" := a / total, "confidence" := std(h, d, a)]
  }

  lemma {:induction false} WeightsPositive(w: map<string, real>, outputs: seq<(string, map<string, real>)>)
    requires WeightsInRange(w)
    ensures forall i :: 0 <= i < |WeightsOf(w, outputs)| ==> WeightsOf(w, outputs)[i] >= 0.3
  {
    if outputs != [] {
      WeightsPositive(w, outputs[..|outputs| - 1]);
    }
  }

  lemma SumPositive(s: seq<real>)
    requires |s| > 0 && forall i :: 0 <= i < |s| ==> s[i] >= 0.3
    ensures Sum(s) > 0.0
  {
    SumNonNegative(s[..|s| - 1]);
  }

  /** The fallback is used exactly when no output has `prob_home`. */
  lemma {:induction false} FuseFallback(w: map<string, real>, outputs: seq<(string, map<string, real>)>)
    ensures WeightsOf(w, outputs) == [] <==> forall i :: 0 <= i < |outputs| ==> !Usable(outputs[i].1)
  {
    if outputs != [] {
      var init := outputs[..|outputs| - 1];
      FuseFallback(w, init);
      assert forall i :: 0 <= i < |init| ==> init[i] == outputs[i];
    }
  }

  /** An output without `prob_home` is skipped: appending it changes nothing. */
  lemma UnusableIgnored(w: map<string, real>, outputs: seq<(string, map<string, real>)>, name: string, out: map<string, real>,
                        std: (real, real, real) -> real)
    requires WeightsInRange(w) && !Usable(out)
    ensures Fused(w, outputs + [(name, out)], std) == Fused(w, outputs, std)
  {
    var more := outputs + [(name, out)];
    assert more[..|more| - 1] == outputs;
    assert WeightsOf(w, more) == WeightsOf(w, outputs);
    assert TermsOf(w, more, "prob_home") == TermsOf(w, outputs, "prob_home");
    assert TermsOf(w, more, "prob_draw") == TermsOf(w, outputs, "prob_draw");
    assert TermsOf(w, more, "prob_away") == TermsOf(w, outputs, "prob_away");
  }

  /** A single usable engine's probabilities pass through unchanged, whatever its weight. */
  lemma FuseSingle(w: map<string, real>, name: string, out: map<string, real>, std: (real, real, real) -> real, key: string)
    requires WeightsInRange(w) && Usable(out)
    requires key == "prob_home" || key == "prob_draw" || key == "prob_away"
    ensures Fused(w, [(name, out)], std)[key] == Get(out, key, 0.0)
  {
    var outputs := [(name, out)];
    var wt := EngineWeightIn(w, name);
    var p := Get(out, key, 0.0);
    assert outputs[..0] == [];
    assert WeightsOf(w, outputs) == [wt];
    assert TermsOf(w, outputs, key) == [Weighted(p, wt)];
    assert [wt][..0] == [] && [Weighted(p, wt)][..0] == [];
    assert Sum([wt]) == wt && Sum([Weighted(p, wt)]) == p * wt;
    assert wt > 0.0;
    assert p * wt / wt == p;
    var f := Fused(w, outputs, std);
    assert f[key] == Sum(TermsOf(w, outputs, key)) / Sum(WeightsOf(w, outputs));
  }

  /** Weighted terms of probabilities in [0, 1] sum to between 0 and the total weight. */
  lemma {:induction false} TermsBounded(w: map<string, real>, outputs: seq<(string, map<string, real>)>, key: string)
    requires WeightsInRange(w)
    requires forall i :: 0 <= i < |outputs| && Usable(outputs[i].1) ==> 0.0 <= Get(outputs[i].1, key, 0.0) <= 1.0
    ensures 0.0 <= Sum(TermsOf(w, outputs, key)) <= Sum(WeightsOf(w, outputs))
  {
    if outputs != [] {
      var init := outputs[..|outputs| - 1];
      assert forall i :: 0 <= i < |init| ==> init[i] == outputs[i];
      TermsBounded(w, init, key);
      var last := outputs[|outputs| - 1];
      if Usable(last.1) {
        var p, wt := Get(last.1, key, 0.0), EngineWeightIn(w, last.0);
        assert 0.0 <= p <= 1.0;
        WeightedBound(p, wt);
        assert TermsOf(w, outputs, key) == TermsOf(w, init, key) + [Weighted(p, wt)];
        assert WeightsOf(w, outputs) == WeightsOf(w, init) + [wt];
        SumAppend(TermsOf(w, init, key), Weighted(p, wt));
        SumAppend(WeightsOf(w, init), wt);
        var x := Weighted(p, wt);
        assert 0.0 <= x <= wt;
        assert Sum(TermsOf(w, outputs, key)) == Sum(TermsOf(w, init, key)) + x;
        assert Sum(WeightsOf(w, outputs)) == Sum(WeightsOf(w, init)) + wt;
      } else {
        assert TermsOf(w, outputs, key) == TermsOf(w, init, key);
        assert WeightsOf(w, outputs) == WeightsOf(w, init);
      }
    }
  }

  lemma WeightedBound(p: real, wt: real)
    requires 0.0 <= p <= 1.0 && wt >= 0.0
    ensures 0.0 <= Weighted(p, wt) <= wt
  {
    ScaleBound(p, wt);
  }

  lemma ScaleBound(p: real, wt: real)
    requires 0.0 <= p <= 1.0 && wt >= 0.0
    ensures 0.0 <= p * wt <= wt
  {
    assert (1.0 - p) * wt >= 0.0;
  }

  lemma DivUnit(a: real, b: real)
    requires 0.0 <= a <= b && b > 0.0
    ensures 0.0 <= a / b <= 1.0
  {
    assert a / b * b == a;
  }

  /** With every used probability in [0, 1], each fused probability lies in [0, 1]. */
  lemma FuseBounds(w: map<string, real>, outputs: seq<(string, map<string, real>)>, std: (real, real, real) -> real, key: string)
    requires WeightsInRange(w)
    requires key == "prob_home" || key == "prob_draw" || key == "prob_away"
    requires forall i :: 0 <= i < |outputs| && Usable(outputs[i].1) ==> 0.0 <= Get(outputs[i].1, key, 0.0) <= 1.0
    ensures 0.0 <= Fused(w, outputs, std)[key] <= 1.0
  {
    var weights := WeightsOf(w, outputs);
    if weights != [] {
      WeightsPositive(w, outputs);
      SumPositive(weights);
      TermsBounded(w, outputs, key);
      DivUnit(Sum(TermsOf(w, outputs, key)), Sum(weights));
    }
  }

  /** The drift penalty: 70% of the current weight, at least 0.3. */
  function Penalised(w: map<string, real>, engine: string): (r: real)
    ensures 0.3 <= r
    ensures EngineWeightIn(w, engine) > 0.3 ==> r < EngineWeightIn(w, engine)
    ensures WeightsInRange(w) ==> r <= 2.0
  {
    Max(0.3, EngineWeightIn(w, engine) * 0.7)
  }

  /** The ROI rescaling of one engine into [0.5, 2.0]. */
  function Scaled(roi: real, lo: real, hi: real): (r: real)
    requires lo <= roi <= hi && hi - lo >= 0.000000001
    ensures 0.5 <= r <= 2.0
    ensures roi == lo ==> r == 0.5
    ensures roi == hi ==> r == 2.0
  {
    DivUnit(roi - lo, hi - lo);
    assert (hi - lo) / (hi - lo) == 1.0;
    0.5 + 1.5 * ((roi - lo) / (hi - lo))
  }

  lemma MinExists(m: map<string, real>)
    requires m != map[]
    ensures exists k :: k in m && forall j :: j in m ==> m[k] <= m[j]
    decreases |m.Keys|
  {
    var k :| k in m;
    var rest := m - {k};
    assert forall j :: j in rest <==> j in m && j != k;
    assert forall j :: j in rest ==> rest[j] == m[j];
    if rest == map[] {
      assert rest.Keys == m.Keys - {k};
      assert m.Keys == {k};
    } else {
      assert |rest.Keys| < |m.Keys| by {
        assert rest.Keys == m.Keys - {k};
      }
      MinExists(rest);
      var k2 :| k2 in rest && forall j :: j in rest ==> rest[k2] <= rest[j];
      var best := if m[k] <= m[k2] then k else k2;
      forall j | j in m ensures m[best] <= m[j] {
        if j != k { assert j in rest; }
      }
    }
  }

  lemma MaxExists(m: map<string, real>)
    requires m != map[]
    ensures exists k :: k in m && forall j :: j in m ==> m[j] <= m[k]
    decreases |m.Keys|
  {
    var k :| k in m;
    var rest := m - {k};
    assert forall j :: j in rest <==> j in m && j != k;
    assert forall j :: j in rest ==> rest[j] == m[j];
    if rest == map[] {
      assert rest.Keys == m.Keys - {k};
      assert m.Keys == {k};
    } else {
      assert |rest.Keys| < |m.Keys| by {
        assert rest.Keys == m.Keys - {k};
      }
      MaxExists(rest);
      var k2 :| k2 in rest && forall j :: j in rest ==> rest[j] <= rest[k2];
      var best := if m[k2] <= m[k] then k else k2;
      forall j | j in m ensures m[j] <= m[best] {
        if j != k { assert j in rest; }
      }
    }
  }

  /** `min(engine_roi.values())`. */
  function MinRoi(roi: map<string, real>): (r: real)
    requires roi != map[]
    ensures forall k :: k in roi ==> r <= roi[k]
    ensures exists k :: k in roi && roi[k] == r
  {
    MinExists(roi);
    var k :| k in roi && forall j :: j in roi ==> roi[k] <= roi[j];
    roi[k]
  }

  /** `max(engine_roi.values())`. */
  function MaxRoi(roi: map<string, real>): (r: real)
    requires roi != map[]
    ensures forall k :: k in roi ==> roi[k] <= r
    ensures exists k :: k in roi && roi[k] == r
  {
    MaxExists(roi);
    var k :| k in roi && forall j :: j in roi ==> roi[j] <= roi[k];
    roi[k]
  }

  /** The weight `_recalculate_weights` gives an engine with ROI `x`. */
  function RoiWeight(roi: map<string, real>, x: real): real
    requires roi != map[]
    requires MinRoi(roi) <= x <= MaxRoi(roi)
  {
    if MaxRoi(roi) - MinRoi(roi) < 0.000000001 then 1.0 else Scaled(x, MinRoi(roi), MaxRoi(roi))
  }

  /** The weight table after `_recalculate_weights`. */
  function Recalculated(w: map<string, real>, roi: map<string, real>): (r: map<string, real>)
    ensures r.Keys == w.Keys + roi.Keys
    ensures forall k :: k in w && k !in roi ==> r[k] == w[k]
    ensures forall k :: k in roi ==> 0.5 <= r[k] <= 2.0
    ensures roi != map[] && MaxRoi(roi) - MinRoi(roi) < 0.000000001 ==> forall k :: k in roi ==> r[k] == 1.0
    ensures roi != map[] && MaxRoi(roi) - MinRoi(roi) >= 0.000000001 ==>
      forall k :: k in roi ==> (roi[k] == MinRoi(roi) ==> r[k] == 0.5) && (roi[k] == MaxRoi(roi) ==> r[k] == 2.0)
    ensures WeightsInRange(w) ==> WeightsInRange(r)
  {
    if roi == map[] then w
    else w + map k | k in roi :: RoiWeight(roi, roi[k])
  }

  class FusionEngine {
    var engineWeights: map<string, real>
    var engineRoi: map<string, real>
    var engineDrift: map<string, real>

    ghost predicate Valid()
      reads this
    {
      WeightsInRange(engineWeights)
    }

    constructor()
      ensures Valid()
      ensures engineWeights == map[] && engineRoi == map[] && engineDrift == map[]
    {
      engineWeights := map[];
      engineRoi := map[];
      engineDrift := map[];
    }

    /** `_get_engine_weight`. */
    function EngineWeight(name: string): (r: real)
      reads this
      requires Valid()
      ensures 0.3 <= r <= 2.0
      ensures name !in engineWeights ==> r == 1.0
    {
      EngineWeightIn(engineWeights, name)
    }

    /** `fuse`: the loop collecting the weighted probabilities of the usable outputs. */
    method Fuse(outputs: seq<(string, map<string, real>)>, std: (real, real, real) -> real) returns (r: map<string, real>)
      requires Valid()
      ensures r == Fused(engineWeights, outputs, std)
    {
      var homes: seq<real> := [];
      var draws: seq<real> := [];
      var aways: seq<real> := [];
      var weights: seq<real> := [];
      for i := 0 to |outputs|
        invariant weights == WeightsOf(engineWeights, outputs[..i])
        invariant homes == TermsOf(engineWeights, outputs[..i], "prob_home")
        invariant draws == TermsOf(engineWeights, outputs[..i], "prob_draw")
        invariant aways == TermsOf(engineWeights, outputs[..i], "prob_away")
      {
        assert outputs[..i + 1][..i] == outputs[..i];
        var name := outputs[i].0;
        var out := outputs[i].1;
        if Usable(out) {
          var weight := EngineWeight(name);
          homes := homes + [Weighted(Get(out, "prob_home", 0.0), weight)];
          draws := draws + [Weighted(Get(out, "prob_draw", 0.0), weight)];
          aways := aways + [Weighted(Get(out, "prob_away", 0.0), weight)];
          weights := weights + [weight];
        }
      }
      assert outputs[..|outputs|] == outputs;
      if weights == [] {
        return Fallback;
      }
      WeightsPositive(engineWeights, outputs);
      SumPositive(weights);
      var total := Sum(weights);
      r := map["prob_home" := Sum(homes) / total, "prob_draw" := Sum(draws) / total, "prob_away" := Sum(aways) / total,
               "confidence" := std(Sum(homes), Sum(draws), Sum(aways))];
    }

    /** `_recalculate_weights`: a loop over the engines with an ROI. */
    method RecalculateWeights()
      modifies this
      requires Valid()
      ensures Valid()
      ensures engineRoi == old(engineRoi) && engineDrift == old(engineDrift)
      ensures engineWeights == Recalculated(old(engineWeights), engineRoi)
    {
      if engineRoi == map[] {
        return;
      }
      var lo := MinRoi(engineRoi);
      var hi := MaxRoi(engineRoi);
      ghost var w0 := engineWeights;
      var todo := engineRoi.Keys;
      while todo != {}
        invariant todo <= engineRoi.Keys
        invariant engineWeights.Keys == w0.Keys + (engineRoi.Keys - todo)
        invariant forall j :: j in engineRoi.Keys - todo ==> engineWeights[j] == RoiWeight(engineRoi, engineRoi[j])
        invariant forall j :: j in w0 && j !in engineRoi.Keys - todo ==> engineWeights[j] == w0[j]
        invariant WeightsInRange(w0)
        invariant engineRoi == old(engineRoi) && engineDrift == old(engineDrift)
        decreases todo
      {
        var k :| k in todo;
        if hi - lo < 0.000000001 {
          engineWeights := engineWeights[k := 1.0];
        } else {
          engineWeights := engineWeights[k := Scaled(engineRoi[k], lo, hi)];
        }
        todo := todo - {k};
      }
      assert engineRoi.Keys - todo == engineRoi.Keys;
      var r := Recalculated(w0, engineRoi);
      assert engineWeights.Keys == r.Keys;
      forall j | j in r ensures engineWeights[j] == r[j] {
        if j in engineRoi {
          assert r[j] == RoiWeight(engineRoi, engineRoi[j]);
        }
      }
      assert engineWeights == r;
    }

    /** `update_engine_roi`: record the ROI, then rescale every ROI-tracked weight. */
    method UpdateEngineRoi(name: string, roi: real)
      modifies this
      requires Valid()
      ensures Valid()
      ensures engineRoi == old(engineRoi)[name := roi] && engineDrift == old(engineDrift)
      ensures engineWeights == Recalculated(old(engineWeights), engineRoi)
    {
      engineRoi := engineRoi[name := roi];
      RecalculateWeights();
    }

    /** `update_drift`: record the error rate; above 0.2 the engine's weight is cut
        to 70%, never below 0.3. */
    method UpdateDrift(engine: string, errorRate: real)
      modifies this
      requires Valid()
      ensures Valid()
      ensures engineDrift == old(engineDrift)[engine := errorRate] && engineRoi == old(engineRoi)
      ensures errorRate > 0.2 ==> engineWeights == old(engineWeights)[engine := Penalised(old(engineWeights), engine)]
      ensures errorRate <= 0.2 ==> engineWeights == old(engineWeights)
    {
      engineDrift := engineDrift[engine := errorRate];
      if errorRate > 0.2 {
        engineWeights := engineWeights[engine := Max(0.3, EngineWeight(engine) * 0.7)];
      }
    }
  }

  /** `apply_meta_layer`: for a non-empty meta dict, each probability becomes
      `(p + boost) / 1.1` and the confidence is scaled; None when `fused` lacks one of
      the keys it reads (KeyError). */
  function ApplyMetaLayer(fused: map<string, real>, meta: map<string, real>): (r: Option<map<string, real>>)
    ensures meta == map[] ==> r == Some(fused)
    ensures meta != map[] ==>
      (r.None? <==> !("prob_home" in fused && "prob_draw" in fused && "prob_away" in fused && "confidence" in fused))
    ensures meta != map[] && r.Some? ==>
      r.value.Keys == fused.Keys &&
      (forall k :: k in fused && k !in {"prob_home", "prob_draw", "prob_away", "confidence"} ==> r.value[k] == fused[k]) &&
      r.value["prob_home"] == (fused["prob_home"] + Get(meta, "boost_home", 0.0)) / 1.1 &&
      r.value["prob_draw"] == (fused["prob_draw"] + Get(meta, "boost_draw", 0.0)) / 1.1 &&
      r.value["prob_away"] == (fused["prob_away"] + Get(meta, "boost_away", 0.0)) / 1.1 &&
      r.value["confidence"] == fused["confidence"] * Get(meta, "confidence_factor", 1.0)
  {
    if meta == map[] then Some(fused)
    else if !("prob_home" in fused && "prob_draw" in fused && "prob_away" in fused && "confidence" in fused) then None
    else
      Some(fused["prob_home" := (fused["prob_home"] + Get(meta, "boost_home", 0.0)) / 1.1]
                ["prob_draw" := (fused["prob_draw"] + Get(meta, "boost_draw", 0.0)) / 1.1]
                ["prob_away" := (fused["prob_away"] + Get(meta, "boost_away", 0.0)) / 1.1]
                ["confidence" := fused["confidence"] * Get(meta, "confidence_factor", 1.0)])
  }

  /** The fallback of `fuse` has no confidence, so a non-empty meta layer on it raises. */
  lemma MetaLayerOnFallback(meta: map<string, real>)
    requires meta != map[]
    ensures ApplyMetaLayer(Fallback, meta).None?
  {
    assert "confidence" !in Fallback;
  }

  /** Without boosts, the meta layer shrinks a distribution summing to 1 to one
      summing to 1/1.1. */
  lemma MetaLayerShrinks(fused: map<string, real>, meta: map<string, real>)
    requires meta != map[] && "boost_home" !in meta && "boost_draw" !in meta && "boost_away" !in meta
    requires "prob_home" in fused && "prob_draw" in fused && "prob_away" in fused && "confidence" in fused
    requires fused["prob_home"] + fused["prob_draw"] + fused["prob_away"] == 1.0
    ensures var r := ApplyMetaLayer(fused, meta).value;
      r["prob_home"] + r["prob_draw"] + r["prob_away"] == 1.0 / 1.1
  {
  }
}
