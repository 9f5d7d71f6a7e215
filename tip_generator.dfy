/** The selection rules of backend/pipeline/tip_generator_pro.py: the 0-100 priority
    score, the kombi shortlist (priority at least 45, value score at least 0.25, best
    three by priority) and the live threshold (game chance at least 0.72). */
module TipGenerator {
  import opened Common
  import opened Ranking

  /** One match's prediction dict. */
  type Prediction = map<string, real>

  const MaxKombi: nat := 3

  /** `_priority` (unrounded). */
  function Priority(p: Prediction): real {
    var deep := Get(p, "deep_value", 0.0);
    var value := Get(p, "value_score", 0.0);
    var conf := Get(p, "confidence", 0.0);
    var risk := Get(p, "risk", 0.5);
    deep * 40.0 + value * 25.0 + conf * 25.0 + (1.0 - risk) * 10.0
  }

  /** With every input in [0, 1] the priority lies in [0, 100]; an empty prediction
      scores 5. */
  lemma PriorityBounds(p: Prediction)
    requires forall k :: k in p ==> 0.0 <= p[k] <= 1.0
    ensures 0.0 <= Priority(p) <= 100.0
    ensures p == map[] ==> Priority(p) == 5.0
  {
  }

  datatype KombiEntry = KombiEntry(matchId: string, priority: real, data: Prediction)

  function PriorityOf(e: KombiEntry): real { e.priority }

  /** The `arr` list `generate_kombi` builds, in input order; None when it raises (an
      entry that clears the priority bar has no `value_score`). */
  function KombiPool(preds: seq<(string, Prediction)>): Option<seq<KombiEntry>> {
    if preds == [] then Some([])
    else
      var last := preds[|preds| - 1];
      match KombiPool(preds[..|preds| - 1])
      case None => None
      case Some(arr) =>
        var prio := Priority(last.1);
        if prio < 45.0 then Some(arr)
        else if "value_score" !in last.1 then None
        else if last.1["value_score"] < 0.25 then Some(arr)
        else Some(arr + [KombiEntry(last.0, prio, last.1)])
  }

  /** `generate_kombi`: the pool sorted by priority (stable) and cut to three. */
  function Kombi(preds: seq<(string, Prediction)>): Option<seq<KombiEntry>> {
    match KombiPool(preds)
    case None => None
    case Some(arr) => Some(Take(SortDesc(arr, PriorityOf), MaxKombi))
  }

  /** `generate_kombi` as written: a filtering loop, then the sort and the slice. */
  method GenerateKombi(preds: seq<(string, Prediction)>) returns (r: Option<seq<KombiEntry>>)
    ensures r == Kombi(preds)
  {
    var arr: seq<KombiEntry> := [];
    for i := 0 to |preds|
      invariant KombiPool(preds[..i]) == Some(arr)
    {
      assert preds[..i + 1][..i] == preds[..i];
      var (mId, p) := preds[i];
      var prio := Priority(p);
      if prio < 45.0 {
        continue;
      }
      if "value_score" !in p {
        KombiPoolPrefixFails(preds, i + 1);
        return None;
      }
      if p["value_score"] < 0.25 {
        continue;
      }
      arr := arr + [KombiEntry(mId, prio, p)];
    }
    assert preds[..|preds|] == preds;
    r := Some(Take(SortDesc(arr, PriorityOf), MaxKombi));
  }

  lemma {:induction false} KombiPoolPrefixFails(preds: seq<(string, Prediction)>, j: nat)
    requires j <= |preds| && KombiPool(preds[..j]).None?
    ensures KombiPool(preds).None?
  {
    if j < |preds| {
      assert preds[..|preds| - 1][..j] == preds[..j];
      KombiPoolPrefixFails(preds[..|preds| - 1], j);
    } else {
      assert preds[..j] == preds;
    }
  }

  /** A prediction that makes the shortlist pool. */
  predicate Qualifies(p: Prediction) {
    Priority(p) >= 45.0 && "value_score" in p && p["value_score"] >= 0.25
  }

  /** Every pooled entry is an input prediction that qualifies, with its priority. */
  lemma {:induction false} KombiPoolSound(preds: seq<(string, Prediction)>)
    requires KombiPool(preds).Some?
    ensures forall e :: e in KombiPool(preds).value ==>
      Qualifies(e.data) && e.priority == Priority(e.data) && (e.matchId, e.data) in preds
  {
    if preds != [] {
      var init := preds[..|preds| - 1];
      KombiPoolSound(init);
      forall e | e in KombiPool(init).value ensures (e.matchId, e.data) in preds {
        assert (e.matchId, e.data) in init;
      }
    }
  }

  /** Every qualifying input prediction is pooled. */
  lemma {:induction false} KombiPoolComplete(preds: seq<(string, Prediction)>, i: nat)
    requires KombiPool(preds).Some? && i < |preds| && Qualifies(preds[i].1)
    ensures KombiEntry(preds[i].0, Priority(preds[i].1), preds[i].1) in KombiPool(preds).value
  {
    var init := preds[..|preds| - 1];
    if i < |preds| - 1 {
      assert init[i] == preds[i];
      KombiPoolComplete(init, i);
    }
  }

  /** `generate_kombi` raises exactly when some prediction clears the priority bar
      without a `value_score`. */
  lemma {:induction false} KombiPoolFails(preds: seq<(string, Prediction)>)
    ensures KombiPool(preds).None? <==>
      exists i :: 0 <= i < |preds| && Priority(preds[i].1) >= 45.0 && "value_score" !in preds[i].1
  {
    if preds != [] {
      var init := preds[..|preds| - 1];
      KombiPoolFails(init);
      if exists i :: 0 <= i < |init| && Priority(init[i].1) >= 45.0 && "value_score" !in init[i].1 {
        var i :| 0 <= i < |init| && Priority(init[i].1) >= 45.0 && "value_score" !in init[i].1;
        assert preds[i] == init[i];
      }
      if KombiPool(preds).None? && KombiPool(init).Some? {
        assert Priority(preds[|preds| - 1].1) >= 45.0 && "value_score" !in preds[|preds| - 1].1;
      }
      if exists i :: 0 <= i < |preds| && Priority(preds[i].1) >= 45.0 && "value_score" !in preds[i].1 {
        var i :| 0 <= i < |preds| && Priority(preds[i].1) >= 45.0 && "value_score" !in preds[i].1;
        if i < |init| {
          assert init[i] == preds[i];
        }
      }
    }
  }

  /** The shortlist holds at most three qualifying entries in non-increasing priority,
      and no qualifying prediction left out outranks one that made it. */
  lemma KombiShortlist(preds: seq<(string, Prediction)>, i: nat)
    requires Kombi(preds).Some? && i < |preds| && Qualifies(preds[i].1)
    ensures var r := Kombi(preds).value;
      |r| <= MaxKombi && SortedDesc(r, PriorityOf) &&
      (forall e :: e in r ==> Qualifies(e.data) && e.priority == Priority(e.data)) &&
      (KombiEntry(preds[i].0, Priority(preds[i].1), preds[i].1) in r ||
       (|r| == MaxKombi && forall e :: e in r ==> e.priority >= Priority(preds[i].1)))
  {
    var arr := KombiPool(preds).value;
    var sorted := SortDesc(arr, PriorityOf);
    KombiPoolSound(preds);
    KombiPoolComplete(preds, i);
    TakeSorted(sorted, PriorityOf, MaxKombi);
    forall e | e in Take(sorted, MaxKombi) ensures e in arr {
      assert e in multiset(sorted);
    }
    TakeSortDescTop(arr, PriorityOf, MaxKombi, KombiEntry(preds[i].0, Priority(preds[i].1), preds[i].1));
  }

  /** The shortlist is a prefix of the pool sorted by priority, and entries of equal
      priority keep their input order. */
  lemma KombiStable(preds: seq<(string, Prediction)>)
    requires KombiPool(preds).Some?
    ensures var arr := KombiPool(preds).value;
      Kombi(preds).value <= SortDesc(arr, PriorityOf) &&
      forall v :: Tied(SortDesc(arr, PriorityOf), PriorityOf, v) == Tied(arr, PriorityOf, v)
  {
    var arr := KombiPool(preds).value;
    forall v ensures Tied(SortDesc(arr, PriorityOf), PriorityOf, v) == Tied(arr, PriorityOf, v) {
      SortDescStable(arr, PriorityOf, v);
    }
  }

  datatype LiveTip = LiveTip(matchId: string, liveScore: real, data: Prediction)

  /** The tips of `generate_live` (the stake is left out); None when an entry has no
      `game_chance` (it raises). */
  function LiveTips(live: seq<(string, Prediction)>): Option<seq<LiveTip>> {
    if live == [] then Some([])
    else
      var last := live[|live| - 1];
      match LiveTips(live[..|live| - 1])
      case None => None
      case Some(tips) =>
        if "game_chance" !in last.1 then None
        else if last.1["game_chance"] < 0.72 then Some(tips)
        else Some(tips + [LiveTip(last.0, last.1["game_chance"], last.1)])
  }

  /** `generate_live` as written: a filtering loop. */
  method GenerateLive(live: seq<(string, Prediction)>) returns (r: Option<seq<LiveTip>>)
    ensures r == LiveTips(live)
  {
    var tips: seq<LiveTip> := [];
    for i := 0 to |live|
      invariant LiveTips(live[..i]) == Some(tips)
    {
      assert live[..i + 1][..i] == live[..i];
      var (mId, p) := live[i];
      if "game_chance" !in p {
        LiveTipsPrefixFails(live, i + 1);
        return None;
      }
      if p["game_chance"] < 0.72 {
        continue;
      }
      tips := tips + [LiveTip(mId, p["game_chance"], p)];
    }
    assert live[..|live|] == live;
    r := Some(tips);
  }

  lemma {:induction false} LiveTipsPrefixFails(live: seq<(string, Prediction)>, j: nat)
    requires j <= |live| && LiveTips(live[..j]).None?
    ensures LiveTips(live).None?
  {
    if j < |live| {
      assert live[..|live| - 1][..j] == live[..j];
      LiveTipsPrefixFails(live[..|live| - 1], j);
    } else {
      assert live[..j] == live;
    }
  }

  /** Every live tip is an input entry with a game chance of at least 0.72, and every
      such entry yields a tip (every entry has a game chance when the call returns). */
  lemma {:induction false} LiveTipsExact(live: seq<(string, Prediction)>)
    requires LiveTips(live).Some?
    ensures forall t :: t in LiveTips(live).value ==>
      (t.matchId, t.data) in live && "game_chance" in t.data && t.liveScore == t.data["game_chance"] >= 0.72
    ensures forall i :: 0 <= i < |live| ==> (
      "game_chance" in live[i].1 &&
      (live[i].1["game_chance"] >= 0.72 ==>
        LiveTip(live[i].0, live[i].1["game_chance"], live[i].1) in LiveTips(live).value))
  {
    if live != [] {
      var init := live[..|live| - 1];
      LiveTipsExact(init);
      forall t | t in LiveTips(init).value ensures (t.matchId, t.data) in live {
        assert (t.matchId, t.data) in init;
      }
      forall i | 0 <= i < |init| ensures init[i] == live[i] { }
    }
  }
}
