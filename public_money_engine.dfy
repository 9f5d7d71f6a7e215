/** The anti-public probability shift of backend/engine/public_money_engine.py: a
    linear shift of 0.5 by public share, sharp share, price move and bookmaker shift,
    then clamps on probability, confidence and risk. `round` is left out. */
module Public {
  import opened Common

  /** A match's data: each key absent, a number, or a value arithmetic rejects. */
  type MatchData = map<string, Field>

  /** The scalings and the confidence floor read from `config["public"]`. */
  datatype PublicConfig = PublicConfig(publicScaling: real, sharpScaling: real, oddsMoveScaling: real,
                                       minConf: real)

  const DefaultPublicConfig := PublicConfig(0.18, 0.25, 0.15, 0.60)

  const FallbackProb := 0.53

  datatype PublicOutput = PublicOutput(probability: real, confidence: real, risk: real)

  /** `data.get(key, default)` used in arithmetic; None when the value is not a number. */
  function Lookup(data: MatchData, key: string, default: real): Option<real> {
    if key in data then ReadFloat(data[key], default) else Some(default)
  }

  /** `_public_core`; None when it raises. */
  function PublicCore(cfg: PublicConfig, data: MatchData): (r: Option<real>)
    ensures r.None? <==> exists k :: (k in data && data[k] == Bad &&
      k in {"public_pct", "sharp_pct", "odds_open", "odds_now", "bookmaker_shift"})
  {
    var publicPct := Lookup(data, "public_pct", 0.50);
    var sharpPct := Lookup(data, "sharp_pct", 0.50);
    var oddsOpen := Lookup(data, "odds_open", 2.00);
    var oddsNow := Lookup(data, "odds_now", 2.00);
    var bookmakerShift := Lookup(data, "bookmaker_shift", 0.0);
    if publicPct.None? || sharpPct.None? || oddsOpen.None? || oddsNow.None? || bookmakerShift.None? then
      None
    else
      Some(0.5 + Shift(cfg, publicPct.value, sharpPct.value, oddsOpen.value, oddsNow.value,
                       bookmakerShift.value))
  }

  /** `prob_shift`: the sum of the four effects. */
  function Shift(cfg: PublicConfig, publicPct: real, sharpPct: real, oddsOpen: real, oddsNow: real,
                 bookmakerShift: real): real
  {
    var publicBias := (publicPct - 0.50) * -cfg.publicScaling;
    var sharpBias := (sharpPct - 0.50) * cfg.sharpScaling;
    var oddsMoveEffect := (oddsOpen - oddsNow) * cfg.oddsMoveScaling;
    var bookEffect := bookmakerShift * 0.10;
    publicBias + sharpBias + oddsMoveEffect + bookEffect
  }

  /** With every input at its default the core is a coin flip. */
  lemma CoreDefaults(cfg: PublicConfig)
    ensures PublicCore(cfg, map[]) == Some(0.5)
  {
  }

  /** A larger public share lowers the probability (for a non-negative scaling). */
  lemma PublicShareLowers(cfg: PublicConfig, data: MatchData, a: real, b: real)
    requires cfg.publicScaling >= 0.0 && a <= b
    requires PublicCore(cfg, data).Some?
    ensures PublicCore(cfg, data["public_pct" := Num(b)]).value <= PublicCore(cfg, data["public_pct" := Num(a)]).value
  {
    var lo, hi := data["public_pct" := Num(a)], data["public_pct" := Num(b)];
    var s, o, n, k := Lookup(data, "sharp_pct", 0.50), Lookup(data, "odds_open", 2.00),
      Lookup(data, "odds_now", 2.00), Lookup(data, "bookmaker_shift", 0.0);
    assert Lookup(lo, "sharp_pct", 0.50) == s == Lookup(hi, "sharp_pct", 0.50);
    assert Lookup(lo, "odds_open", 2.00) == o == Lookup(hi, "odds_open", 2.00);
    assert Lookup(lo, "odds_now", 2.00) == n == Lookup(hi, "odds_now", 2.00);
    assert Lookup(lo, "bookmaker_shift", 0.0) == k == Lookup(hi, "bookmaker_shift", 0.0);
    assert PublicCore(cfg, lo) == Some(0.5 + Shift(cfg, a, s.value, o.value, n.value, k.value));
    assert PublicCore(cfg, hi) == Some(0.5 + Shift(cfg, b, s.value, o.value, n.value, k.value));
    assert (b - a) * cfg.publicScaling >= 0.0;
  }

  /** A larger sharp share raises the probability (for a non-negative scaling). */
  lemma SharpShareRaises(cfg: PublicConfig, data: MatchData, a: real, b: real)
    requires cfg.sharpScaling >= 0.0 && a <= b
    requires PublicCore(cfg, data).Some?
    ensures PublicCore(cfg, data["sharp_pct" := Num(a)]).value <= PublicCore(cfg, data["sharp_pct" := Num(b)]).value
  {
    var lo, hi := data["sharp_pct" := Num(a)], data["sharp_pct" := Num(b)];
    var p, o, n, k := Lookup(data, "public_pct", 0.50), Lookup(data, "odds_open", 2.00),
      Lookup(data, "odds_now", 2.00), Lookup(data, "bookmaker_shift", 0.0);
    assert Lookup(lo, "public_pct", 0.50) == p == Lookup(hi, "public_pct", 0.50);
    assert Lookup(lo, "odds_open", 2.00) == o == Lookup(hi, "odds_open", 2.00);
    assert Lookup(lo, "odds_now", 2.00) == n == Lookup(hi, "odds_now", 2.00);
    assert Lookup(lo, "bookmaker_shift", 0.0) == k == Lookup(hi, "bookmaker_shift", 0.0);
    assert PublicCore(cfg, lo) == Some(0.5 + Shift(cfg, p.value, a, o.value, n.value, k.value));
    assert PublicCore(cfg, hi) == Some(0.5 + Shift(cfg, p.value, b, o.value, n.value, k.value));
    assert (b - a) * cfg.sharpScaling >= 0.0;
  }

  /** A shortening price (current below opening) raises the probability above what an
      unchanged price gives (for a non-negative scaling). */
  lemma ShorteningRaises(cfg: PublicConfig, data: MatchData, open: real, now: real)
    requires cfg.oddsMoveScaling >= 0.0 && now <= open
    requires PublicCore(cfg, data).Some?
    ensures PublicCore(cfg, data["odds_open" := Num(open)]["odds_now" := Num(open)]).value <=
            PublicCore(cfg, data["odds_open" := Num(open)]["odds_now" := Num(now)]).value
  {
    var lo := data["odds_open" := Num(open)]["odds_now" := Num(open)];
    var hi := data["odds_open" := Num(open)]["odds_now" := Num(now)];
    var p, s, k := Lookup(data, "public_pct", 0.50), Lookup(data, "sharp_pct", 0.50),
      Lookup(data, "bookmaker_shift", 0.0);
    assert Lookup(lo, "public_pct", 0.50) == p == Lookup(hi, "public_pct", 0.50);
    assert Lookup(lo, "sharp_pct", 0.50) == s == Lookup(hi, "sharp_pct", 0.50);
    assert Lookup(lo, "bookmaker_shift", 0.0) == k == Lookup(hi, "bookmaker_shift", 0.0);
    assert Lookup(lo, "odds_open", 2.00) == Some(open) == Lookup(hi, "odds_open", 2.00);
    assert Lookup(lo, "odds_now", 2.00) == Some(open) && Lookup(hi, "odds_now", 2.00) == Some(now);
    assert PublicCore(cfg, lo) == Some(0.5 + Shift(cfg, p.value, s.value, open, open, k.value));
    assert PublicCore(cfg, hi) == Some(0.5 + Shift(cfg, p.value, s.value, open, now, k.value));
    assert (open - now) * cfg.oddsMoveScaling >= 0.0;
    assert (open - open) * cfg.oddsMoveScaling == 0.0;
  }

  /** `_normalize`. */
  function Normalize(p: real): (r: real)
    ensures 0.01 <= r <= 0.99
    ensures 0.01 <= p <= 0.99 ==> r == p
  {
    Max(0.01, Min(0.99, p))
  }

  /** `_confidence`; None when `public_data_quality` is not a number. */
  function Confidence(cfg: PublicConfig, prob: real, data: MatchData): (r: Option<real>)
    ensures r.None? <==> "public_data_quality" in data && data["public_data_quality"] == Bad
    ensures r.Some? && cfg.minConf <= 1.0 ==> cfg.minConf <= r.value <= 1.0
    ensures r.Some? && cfg.minConf > 1.0 ==> r.value == cfg.minConf
  {
    match Lookup(data, "public_data_quality", 0.75)
    case None => None
    case Some(quality) =>
      var stability := 1.0 - Abs(prob - 0.5);
      var conf := quality * 0.6 + stability * 0.4;
      Some(Max(cfg.minConf, Min(1.0, conf)))
  }

  /** `_risk`. */
  function Risk(prob: real, conf: real): (r: real)
    ensures 0.0 <= r <= 1.0
  {
    Min(1.0, Max(0.0, (1.0 - prob) * 0.5 + (1.0 - conf) * 0.5))
  }

  /** One iteration of `predict`: the core, or the fallback when it raises, then the
      clamps. None when `_confidence` raises (outside the `try`). */
  function PredictOne(cfg: PublicConfig, data: MatchData): (r: Option<PublicOutput>)
    ensures r.Some? ==> 0.01 <= r.value.probability <= 0.99 && 0.0 <= r.value.risk <= 1.0
    ensures PublicCore(cfg, data).None? && r.Some? ==> r.value.probability == FallbackProb
  {
    var prob := Normalize(PublicCore(cfg, data).GetOr(FallbackProb));
    match Confidence(cfg, prob, data)
    case None => None
    case Some(conf) => Some(PublicOutput(prob, conf, Risk(prob, conf)))
  }

  /** `predict` over the matches in dict order; None when it raises. */
  function Predicted(cfg: PublicConfig, matches: seq<(string, MatchData)>): Option<map<string, PublicOutput>> {
    if matches == [] then Some(map[])
    else
      var last := matches[|matches| - 1];
      match Predicted(cfg, matches[..|matches| - 1])
      case None => None
      case Some(outputs) =>
        match PredictOne(cfg, last.1)
        case None => None
        case Some(out) => Some(outputs[last.0 := out])
  }

  /** `predict` as written: a loop filling the `outputs` dict. */
  method Predict(cfg: PublicConfig, matches: seq<(string, MatchData)>) returns (r: Option<map<string, PublicOutput>>)
    ensures r == Predicted(cfg, matches)
  {
    var outputs: map<string, PublicOutput> := map[];
    for i := 0 to |matches|
      invariant Predicted(cfg, matches[..i]) == Some(outputs)
    {
      assert matches[..i + 1][..i] == matches[..i];
      var (matchId, data) := matches[i];
      var prob: real;
      var core := PublicCore(cfg, data);
      if core.Some? {
        prob := core.value;
      } else {
        prob := FallbackProb;
      }
      prob := Normalize(prob);
      var conf := Confidence(cfg, prob, data);
      if conf.None? {
        PredictedFailsOn(cfg, matches, i);
        return None;
      }
      var risk := Risk(prob, conf.value);
      outputs := outputs[matchId := PublicOutput(prob, conf.value, risk)];
    }
    assert matches[..|matches|] == matches;
    r := Some(outputs);
  }

  /** Once one match makes `predict` raise, the whole call raises. */
  lemma {:induction false} PredictedFailsOn(cfg: PublicConfig, matches: seq<(string, MatchData)>, i: nat)
    requires i < |matches| && PredictOne(cfg, matches[i].1).None?
    ensures Predicted(cfg, matches).None?
  {
    if i < |matches| - 1 {
      assert matches[..|matches| - 1][i] == matches[i];
      PredictedFailsOn(cfg, matches[..|matches| - 1], i);
    }
  }

  /** The match ids, as a set. */
  function MatchIds(matches: seq<(string, MatchData)>): set<string> {
    if matches == [] then {} else MatchIds(matches[..|matches| - 1]) + {matches[|matches| - 1].0}
  }

  /** The result holds one entry per match id, each with a probability in
      [0.01, 0.99] and a risk in [0, 1]. */
  lemma {:induction false} PredictedKeys(cfg: PublicConfig, matches: seq<(string, MatchData)>)
    requires Predicted(cfg, matches).Some?
    ensures var outputs := Predicted(cfg, matches).value;
      outputs.Keys == MatchIds(matches) &&
      (forall k :: k in outputs ==> 0.01 <= outputs[k].probability <= 0.99 && 0.0 <= outputs[k].risk <= 1.0)
  {
    if matches != [] {
      PredictedKeys(cfg, matches[..|matches| - 1]);
    }
  }
}
