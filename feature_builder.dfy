/** The feature extraction of backend/core/feature_builder.py: six extractors merged
    into one feature dict, checked for the required keys and memoised per match id
    and live flag in the builder's `cache`. */
module Features {
  import opened Common

  /** The values a match dict and a feature dict hold. */
  datatype Value = NoneValue | Number(x: real) | Text(s: string) | NumberList(xs: seq<real>) |
                   NumberDict(d: map<string, real>)

  type Match = map<string, Value>

  /** The keys of the feature dict. */
  datatype FeatureKey =
    | TeamHome | TeamAway | League | Importance
    | FormHomeAvg | FormAwayAvg | FormDiff
    | OddsHome | OddsDraw | OddsAway | ImpliedHome | ImpliedDraw | ImpliedAway
    | OddsVelocity | OddsAcceleration
    | Timestamp | Market | AiPriority
    | Minute | ScoreHome | ScoreAway | LiveIntensity
    | Error

  type FeatureSet = map<FeatureKey, Value>

  /** `match.get(key, default)`. */
  function Lookup(m: Match, key: string, default: Value): Value {
    if key in m then m[key] else default
  }

  /** Python truthiness of a value: None, 0, the empty string, list and dict are
      false. */
  predicate Truthy(v: Value) {
    match v
    case NoneValue => false
    case Number(x) => x != 0.0
    case Text(s) => s != ""
    case NumberList(xs) => xs != []
    case NumberDict(d) => d != map[]
  }

  /** `match.get("match_id") or match.get("id")`: a falsy `match_id` falls back to
      `id`, and an absent `id` is None. */
  function MatchId(m: Match): (r: Value)
    ensures Truthy(Lookup(m, "match_id", NoneValue)) ==> r == m["match_id"]
    ensures !Truthy(Lookup(m, "match_id", NoneValue)) ==> r == Lookup(m, "id", NoneValue)
  {
    var matchId := Lookup(m, "match_id", NoneValue);
    if Truthy(matchId) then matchId else Lookup(m, "id", NoneValue)
  }

  /** The cache key `f"{match_id}_live={live}"`, kept as the id value and the flag. */
  datatype CacheKey = CacheKey(id: Value, live: bool)

  /** `_extract_team_stats`. */
  function TeamStats(m: Match): (r: FeatureSet)
    ensures r.Keys == {TeamHome, TeamAway, League, Importance}
  {
    map[TeamHome := Lookup(m, "home_team", NoneValue), TeamAway := Lookup(m, "away_team", NoneValue),
        League := Lookup(m, "league", NoneValue), Importance := Lookup(m, "importance", Number(1.0))]
  }

  /** `np.mean` of a truthy form: a number is its own mean and a non-empty list its
      average; `np.mean` raises on text and on a dict. */
  function MeanOf(v: Value): Option<real>
    requires Truthy(v)
  {
    match v
    case Number(x) => Some(x)
    case NumberList(xs) => Some(Mean(xs))
    case _ => None
  }

  /** `np.mean(form) if form else 0.0`. */
  function FormAvg(v: Value): Option<real> {
    if Truthy(v) then MeanOf(v) else Some(0.0)
  }

  /** `_extract_form_features`; None when the mean of a truthy form raises. */
  function FormFeatures(m: Match): (r: Option<FeatureSet>)
    ensures r.Some? ==> r.value.Keys == {FormHomeAvg, FormAwayAvg, FormDiff}
    ensures var home, away := Lookup(m, "form_home", NumberList([])), Lookup(m, "form_away", NumberList([]));
      r.None? <==> (Truthy(home) && (home.Text? || home.NumberDict?)) ||
                   (Truthy(away) && (away.Text? || away.NumberDict?))
  {
    var home := Lookup(m, "form_home", NumberList([]));
    var away := Lookup(m, "form_away", NumberList([]));
    var h, a := FormAvg(home), FormAvg(away);
    if h.None? || a.None? then None
    else
      Some(map[FormHomeAvg := Number(h.value), FormAwayAvg := Number(a.value),
               FormDiff := Number(if Truthy(home) && Truthy(away) then h.value - a.value else 0.0)])
  }

  /** A falsy form averages 0, a number is its own average and a non-empty list its
      mean; the difference is 0 unless both forms are truthy, where it is the
      difference of the averages. */
  lemma FormAverages(m: Match)
    requires FormFeatures(m).Some?
    ensures var home, away := Lookup(m, "form_home", NumberList([])), Lookup(m, "form_away", NumberList([]));
      var f := FormFeatures(m).value;
      (!Truthy(home) ==> f[FormHomeAvg] == Number(0.0)) &&
      (home.Number? ==> f[FormHomeAvg] == Number(home.x)) &&
      (home.NumberList? && home.xs != [] ==> f[FormHomeAvg] == Number(Mean(home.xs))) &&
      (!Truthy(away) ==> f[FormAwayAvg] == Number(0.0)) &&
      (away.Number? ==> f[FormAwayAvg] == Number(away.x)) &&
      (away.NumberList? && away.xs != [] ==> f[FormAwayAvg] == Number(Mean(away.xs))) &&
      (!Truthy(home) || !Truthy(away) ==> f[FormDiff] == Number(0.0)) &&
      (Truthy(home) && Truthy(away) ==> f[FormDiff] == Number(f[FormHomeAvg].x - f[FormAwayAvg].x))
  {
  }

  /** `1 / odds.get(k, 999) if odds.get(k) else 0.0`: the implied probability of a
      present, non-zero price, else 0. */
  function Implied(odds: map<string, real>, k: string): (r: real)
    ensures k in odds && odds[k] != 0.0 ==> r * odds[k] == 1.0
    ensures !(k in odds && odds[k] != 0.0) ==> r == 0.0
  {
    if k in odds && odds[k] != 0.0 then 1.0 / odds[k] else 0.0
  }

  /** `_extract_odds_features`; None when `odds` is not a dict (it raises). */
  function OddsFeatures(m: Match): (r: Option<FeatureSet>)
    ensures r.Some? ==> r.value.Keys == {OddsHome, OddsDraw, OddsAway, ImpliedHome, ImpliedDraw,
                                         ImpliedAway}
  {
    var odds := Lookup(m, "odds", NumberDict(map[]));
    if !odds.NumberDict? then None
    else
      var d := odds.d;
      Some(map[OddsHome := Number(Get(d, "home", 0.0)), OddsDraw := Number(Get(d, "draw", 0.0)),
               OddsAway := Number(Get(d, "away", 0.0)), ImpliedHome := Number(Implied(d, "home")),
               ImpliedDraw := Number(Implied(d, "draw")), ImpliedAway := Number(Implied(d, "away"))])
  }

  /** `len(v)`, which raises on None and on a number. */
  function Len(v: Value): Option<nat> {
    match v
    case Text(s) => Some(|s|)
    case NumberList(xs) => Some(|xs|)
    case NumberDict(d) => Some(|d.Keys|)
    case _ => None
  }

  /** `_extract_momentum_features`; None when the history has no length, or when it
      has three or more entries that are not numbers to subtract (text, or a dict
      indexed by -1). */
  function MomentumFeatures(m: Match): (r: Option<FeatureSet>)
    ensures r.Some? ==> r.value.Keys == {OddsVelocity, OddsAcceleration}
    ensures var history := Lookup(m, "odds_history", NumberList([]));
      r.None? <==> Len(history).None? || (Len(history).value >= 3 && !history.NumberList?)
  {
    var history := Lookup(m, "odds_history", NumberList([]));
    var len := Len(history);
    if len.None? then None
    else if len.value < 3 then Some(map[OddsVelocity := Number(0.0), OddsAcceleration := Number(0.0)])
    else if !history.NumberList? then None
    else
      var h := history.xs;
      var n := |h|;
      Some(map[OddsVelocity := Number(h[n - 1] - h[n - 2]),
               OddsAcceleration := Number((h[n - 1] - h[n - 2]) - (h[n - 2] - h[n - 3]))])
  }

  /** Velocity is the last step and acceleration the second difference; both are 0
      for fewer than three prices. */
  lemma MomentumDerivatives(m: Match, h: seq<real>)
    requires Lookup(m, "odds_history", NumberList([])) == NumberList(h)
    ensures var f := MomentumFeatures(m).value;
      (|h| < 3 ==> f[OddsVelocity] == Number(0.0) && f[OddsAcceleration] == Number(0.0)) &&
      (|h| >= 3 ==> (f[OddsVelocity] == Number(h[|h| - 1] - h[|h| - 2]) &&
        f[OddsAcceleration] == Number(h[|h| - 1] - 2.0 * h[|h| - 2] + h[|h| - 3])))
  {
  }

  /** `_extract_meta_features`. */
  function MetaFeatures(m: Match): (r: FeatureSet)
    ensures r.Keys == {Timestamp, Market, AiPriority}
  {
    map[Timestamp := Lookup(m, "timestamp", NoneValue), Market := Lookup(m, "market", Text("1x2")),
        AiPriority := Lookup(m, "ai_priority", Number(1.0))]
  }

  /** `_extract_live_features`. */
  function LiveFeatures(m: Match): (r: FeatureSet)
    ensures r.Keys == {Minute, ScoreHome, ScoreAway, LiveIntensity}
  {
    map[Minute := Lookup(m, "minute", Number(0.0)), ScoreHome := Lookup(m, "score_home", Number(0.0)),
        ScoreAway := Lookup(m, "score_away", Number(0.0)),
        LiveIntensity := Lookup(m, "live_intensity", Number(1.0))]
  }

  /** `_validate` passes: every required key is present. */
  predicate Validated(f: FeatureSet) {
    TeamHome in f && TeamAway in f && League in f && OddsHome in f && OddsAway in f
  }

  /** The merged features of one match; None when an extractor raises. */
  function Built(m: Match, live: bool): Option<FeatureSet> {
    var form, odds, momentum := FormFeatures(m), OddsFeatures(m), MomentumFeatures(m);
    if form.None? || odds.None? || momentum.None? then None
    else
      var f := TeamStats(m) + form.value + odds.value + momentum.value + MetaFeatures(m);
      Some(if live then f + LiveFeatures(m) else f)
  }

  /** The required keys come from the team and odds extractors, and no prematch
      extractor emits a live key. */
  lemma PartKeys(m: Match)
    requires OddsFeatures(m).Some? && FormFeatures(m).Some? && MomentumFeatures(m).Some?
    ensures TeamHome in TeamStats(m) && TeamAway in TeamStats(m) && League in TeamStats(m)
    ensures OddsHome in OddsFeatures(m).value && OddsAway in OddsFeatures(m).value
    ensures Minute !in TeamStats(m) && Minute !in FormFeatures(m).value && Minute !in OddsFeatures(m).value
    ensures Minute !in MomentumFeatures(m).value && Minute !in MetaFeatures(m)
    ensures Minute in LiveFeatures(m)
  {
  }

  /** The built features always pass `_validate`, and carry the live keys exactly
      when `live` is set. */
  lemma BuiltValid(m: Match, live: bool)
    requires Built(m, live).Some?
    ensures Validated(Built(m, live).value)
    ensures Minute in Built(m, live).value <==> live
  {
    PartKeys(m);
    var f := TeamStats(m) + FormFeatures(m).value + OddsFeatures(m).value + MomentumFeatures(m).value +
      MetaFeatures(m);
    assert Built(m, live).value == if live then f + LiveFeatures(m) else f;
  }

  /** `build_features` returns this dict when it raises. */
  const ErrorResult: FeatureSet := map[Error := Text("feature_builder_failed")]

  /** `FeatureBuilder`: the memo table of feature sets by cache key. */
  class FeatureBuilder {
    var cache: map<CacheKey, FeatureSet>

    /** Every cached entry passed validation. */
    ghost predicate Valid()
      reads this
    {
      forall k :: k in cache ==> Validated(cache[k])
    }

    constructor()
      ensures Valid() && cache == map[]
    {
      cache := map[];
    }

    /** `build_features`: a cached entry comes back as stored; otherwise the features
        are built, validated and stored, unless an extractor raises, in which case
        the error dict comes back and nothing is stored. */
    method BuildFeatures(m: Match, live: bool) returns (r: FeatureSet)
      requires Valid()
      modifies this
      ensures Valid()
      ensures var key := CacheKey(MatchId(m), live);
        if key in old(cache) then r == old(cache)[key] && cache == old(cache)
        else if Built(m, live).None? then r == ErrorResult && cache == old(cache)
        else r == Built(m, live).value && cache == old(cache)[key := r]
      ensures r == ErrorResult || Validated(r)
    {
      var key := CacheKey(MatchId(m), live);
      if key in cache {
        return cache[key];
      }
      var built := Extract(m, live);
      if built.None? {
        return ErrorResult;
      }
      BuiltValid(m, live);
      cache := cache[key := built.value];
      r := built.value;
    }
  }

  /** The `features.update(...)` sequence of `build_features`; None when an extractor
      raises. */
  method Extract(m: Match, live: bool) returns (r: Option<FeatureSet>)
    ensures r == Built(m, live)
  {
    var form := FormFeatures(m);
    var odds := OddsFeatures(m);
    var momentum := MomentumFeatures(m);
    if form.None? || odds.None? || momentum.None? {
      return None;
    }
    var features := TeamStats(m) + form.value + odds.value + momentum.value + MetaFeatures(m);
    if live {
      features := features + LiveFeatures(m);
    }
    r := Some(features);
  }

  /** A repeated call with the same id and live flag returns the first result and
      leaves the cache as the first call left it. */
  method RepeatedCall(b: FeatureBuilder, m1: Match, m2: Match, live: bool)
    returns (r1: FeatureSet, r2: FeatureSet)
    requires b.Valid() && MatchId(m1) == MatchId(m2) && Built(m1, live).Some?
    modifies b
    ensures r2 == r1 && Validated(r1)
  {
    r1 := b.BuildFeatures(m1, live);
    ghost var after := b.cache;
    r2 := b.BuildFeatures(m2, live);
    assert b.cache == after;
  }

  /** Matches with different ids are cached apart: a second match whose entry is not
      yet cached gets its own features, whatever the first call stored. */
  method DistinctIds(b: FeatureBuilder, m1: Match, m2: Match, live: bool)
    returns (r1: FeatureSet, r2: FeatureSet)
    requires b.Valid() && MatchId(m1) != MatchId(m2) && CacheKey(MatchId(m2), live) !in b.cache
    requires Built(m2, live).Some?
    modifies b
    ensures r2 == Built(m2, live).value && Validated(r2)
  {
    r1 := b.BuildFeatures(m1, live);
    r2 := b.BuildFeatures(m2, live);
  }
}
