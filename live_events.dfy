/** The capped live indices of backend/engine/live_engine.py: the live xG index and
    the next-event probabilities, each a linear score capped at 1. */
module LiveEvents {
  import opened Common

  /** Match statistics as a dict of numbers. */
  type MatchStats = map<string, real>

  datatype EventProbs = EventProbs(shot: real, corner: real, foul: real)

  /** `_live_xg`. */
  function LiveXg(d: MatchStats): (r: real)
    ensures r <= 1.0
    ensures Get(d, "shots_home", 0.0) >= 0.0 && Get(d, "dangerous_home", 0.0) >= 0.0 ==> 0.0 <= r
  {
    var shots := Get(d, "shots_home", 0.0);
    var danger := Get(d, "dangerous_home", 0.0);
    Min(1.0, 0.03 * shots + 0.015 * danger)
  }

  /** More home shots never lower the xG index. */
  lemma LiveXgMonotone(d: MatchStats, a: real, b: real)
    requires a <= b
    ensures LiveXg(d["shots_home" := a]) <= LiveXg(d["shots_home" := b])
  {
  }

  /** `_next_event_prob`. */
  function NextEventProb(d: MatchStats): (r: EventProbs)
    ensures r.shot <= 1.0 && r.corner <= 1.0 && r.foul <= 1.0
    ensures "attacks_home" !in d && "dangerous_home" !in d ==> r == EventProbs(0.0, 0.0, 0.0)
  {
    var attacks := Get(d, "attacks_home", 0.0);
    var danger := Get(d, "dangerous_home", 0.0);
    EventProbs(Min(1.0, 0.02 * attacks + 0.03 * danger), Min(1.0, 0.01 * attacks),
               Min(1.0, 0.005 * (attacks + danger)))
  }

  /** The corner probability reads `attacks_home` only. */
  lemma CornerReadsAttacksOnly(d: MatchStats, e: MatchStats)
    requires Get(d, "attacks_home", 0.0) == Get(e, "attacks_home", 0.0)
    ensures NextEventProb(d).corner == NextEventProb(e).corner
  {
  }

  /** The foul probability is symmetric in attacks and dangerous attacks; the shot
      probability weighs dangerous attacks more. */
  lemma FoulSymmetric(d: MatchStats, a: real, b: real)
    requires a <= b
    ensures NextEventProb(d["attacks_home" := a]["dangerous_home" := b]).foul ==
            NextEventProb(d["attacks_home" := b]["dangerous_home" := a]).foul
    ensures NextEventProb(d["attacks_home" := b]["dangerous_home" := a]).shot <=
            NextEventProb(d["attacks_home" := a]["dangerous_home" := b]).shot
  {
  }
}
