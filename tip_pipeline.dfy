/** The ranking of backend/pipeline/tip_pipeline.py: every match's orchestrator
    result is collected, the list is sorted by a blend of edge, value and risk, and
    the best ten are returned with their count. */
module Pipeline {
  import opened Ranking

  /** The parts of an orchestrator result the ranking reads. */
  datatype Evaluation = Evaluation(matchId: string, edgeScore: real, valueIndex: real, riskScore: real)

  const TopTips: nat := 10

  /** The sort key of `generate_tips`. */
  function RankScore(e: Evaluation): real {
    e.edgeScore * 0.5 + e.valueIndex * 0.35 + e.riskScore * 0.15
  }

  /** The risk score carries a positive weight: with edge and value equal, the riskier
      result ranks strictly higher. */
  lemma RiskRanksHigher(a: Evaluation, b: Evaluation)
    requires a.edgeScore == b.edgeScore && a.valueIndex == b.valueIndex
    ensures RankScore(a) < RankScore(b) <==> a.riskScore < b.riskScore
  {
  }

  datatype TipsResponse = TipsResponse(count: nat, tips: seq<Evaluation>, sortedAll: seq<Evaluation>)

  /** The orchestrator results in match order. */
  function Evaluated<M>(matches: seq<M>, predict: M -> Evaluation): (r: seq<Evaluation>)
    ensures |r| == |matches| && forall i :: 0 <= i < |matches| ==> r[i] == predict(matches[i])
  {
    seq(|matches|, i requires 0 <= i < |matches| => predict(matches[i]))
  }

  /** `generate_tips`, with `MasterOrchestratorInstance.predict_match` as `predict`. */
  method GenerateTips<M>(matches: seq<M>, predict: M -> Evaluation) returns (r: TipsResponse)
    ensures r.sortedAll == SortDesc(Evaluated(matches, predict), RankScore)
    ensures r.tips == Take(r.sortedAll, TopTips)
    ensures r.count == |r.tips|
  {
    var evaluated: seq<Evaluation> := [];
    for i := 0 to |matches|
      invariant evaluated == Evaluated(matches[..i], predict)
    {
      var result := predict(matches[i]);
      evaluated := evaluated + [result];
    }
    assert matches[..|matches|] == matches;
    evaluated := SortDesc(evaluated, RankScore);
    var topTips := Take(evaluated, TopTips);
    r := TipsResponse(|topTips|, topTips, evaluated);
  }

  /** The response: `sorted_all` is a permutation of the results, ordered by rank
      score and stable within equal scores; `tips` is its first min(10, n) entries;
      and no result left out of `tips` outranks one in it. */
  lemma ResponseShape(all: seq<Evaluation>, x: Evaluation)
    requires x in all
    ensures var sorted := SortDesc(all, RankScore);
      var tips := Take(sorted, TopTips);
      multiset(sorted) == multiset(all) && SortedDesc(sorted, RankScore) &&
      (forall v :: Tied(sorted, RankScore, v) == Tied(all, RankScore, v)) &&
      |tips| == (if |all| < TopTips then |all| else TopTips) && tips <= sorted &&
      (x in tips || forall y :: y in tips ==> RankScore(y) >= RankScore(x))
  {
    forall v ensures Tied(SortDesc(all, RankScore), RankScore, v) == Tied(all, RankScore, v) {
      SortDescStable(all, RankScore, v);
    }
    TakeSortDescTop(all, RankScore, TopTips, x);
  }
}
