/** Odds-history signals of backend/engine/sharp_money_tracker.py: the trend of the
    last three prices, a strength read from three sharp-money conditions, a noise
    level, a reversal pattern and a short-term momentum. The strength is modelled
    twice: as written (the conditions joined by a NumPy boolean `+`, which is a
    logical or) and as evidently intended (the share of conditions that hold), which
    `analyze` uses here. `round` is left out: values are unrounded. */
module Sharp {
  import opened Common

  datatype Direction = Neutral | StrongDown | StrongUp | Mixed

  /** The thresholds fixed by `SharpMoneyTracker.__init__` (`config` is unused;
      `sharp_volume_threshold` is the total-move threshold). */
  datatype SharpMoneyTracker = SharpMoneyTracker(sharpSpeedThreshold: real, sharpVolumeThreshold: real,
                                                 publicNoiseLimit: real)
  {
    /** `detect_direction`: the last three prices strictly falling or rising. */
    function DetectDirection(h: seq<real>): (r: Direction)
      ensures r == Neutral <==> |h| < 3
      ensures r == StrongDown <==> |h| >= 3 && h[|h| - 1] < h[|h| - 2] < h[|h| - 3]
      ensures r == StrongUp <==> |h| >= 3 && h[|h| - 1] > h[|h| - 2] > h[|h| - 3]
      ensures r == Mixed <==>
                |h| >= 3 && !(h[|h| - 1] < h[|h| - 2] < h[|h| - 3]) && !(h[|h| - 1] > h[|h| - 2] > h[|h| - 3])
    {
      if |h| < 3 then Neutral
      else if h[|h| - 1] < h[|h| - 2] < h[|h| - 3] then StrongDown
      else if h[|h| - 1] > h[|h| - 2] > h[|h| - 3] then StrongUp
      else Mixed
    }

    /** The first condition of `sharp_strength`: the last step is fast. */
    predicate FastLastMove(h: seq<real>)
      requires |h| >= 3
    {
      Abs(Diffs(h)[|h| - 2]) > sharpSpeedThreshold
    }

    /** The second condition: the move from the first to the last price is large. */
    predicate LargeMove(h: seq<real>)
      requires |h| >= 3
    {
      Abs(h[|h| - 1] - h[0]) > sharpVolumeThreshold
    }

    /** The third condition: the population variance is low. */
    predicate LowVariance(h: seq<real>)
      requires |h| >= 3
    {
      PVariance(h) < 0.003
    }

    /** `sharp_strength` as evidently intended: the share of the three conditions that
        hold, so 2/3 when two of them do. */
    function SharpStrength(h: seq<real>): (r: real)
      ensures r == 0.0 || r == 1.0 / 3.0 || r == 2.0 / 3.0 || r == 1.0
      ensures r == 0.0 <==> |h| < 3 || !(FastLastMove(h) || LargeMove(h) || LowVariance(h))
      ensures r == 1.0 <==> |h| >= 3 && FastLastMove(h) && LargeMove(h) && LowVariance(h)
    {
      if |h| < 3 then 0.0
      else
        var score := Indicator(FastLastMove(h)) + Indicator(LargeMove(h)) + Indicator(LowVariance(h));
        score as real / 3.0
    }

    /** `sharp_strength` as written: `abs(np.diff(h)[-1]) > threshold` is a NumPy
        boolean, and `+` on NumPy booleans is a logical or, so the score is True or
        False and the strength 1/3 or 0. */
    function SharpStrengthAsWritten(h: seq<real>): (r: real)
      ensures r == 0.0 || r == 1.0 / 3.0
      ensures r == 1.0 / 3.0 <==> |h| >= 3 && (FastLastMove(h) || LargeMove(h) || LowVariance(h))
    {
      if |h| < 3 then 0.0
      else
        var score := FastLastMove(h) || LargeMove(h) || LowVariance(h);
        Indicator(score) as real / 3.0
    }

    /** `public_noise`: the mean absolute step, scaled by 0.05 and capped at 1, or 0
        below the noise limit. */
    function PublicNoise(h: seq<real>): (r: real)
      ensures |h| < 3 ==> r == 0.0
      ensures r <= 1.0
      ensures r == 0.0 || Min(1.0, publicNoiseLimit / 0.05) <= r
    {
      if |h| < 3 then 0.0
      else
        var meanDiff := Mean(AbsAll(Diffs(h)));
        if meanDiff < publicNoiseLimit then 0.0
        else Min(1.0, meanDiff / 0.05)
    }

    /** `analyze`: the four signals and the momentum, side by side. */
    function Analyze(h: seq<real>): (r: Analysis)
      ensures r.direction == DetectDirection(h) && r.sharpStrength == SharpStrength(h)
      ensures r.publicNoise == PublicNoise(h) && r.manipulated == IsManipulated(h)
      ensures r.momentum == Momentum(h)
    {
      Analysis(DetectDirection(h), SharpStrength(h), PublicNoise(h), IsManipulated(h), Momentum(h))
    }
  }

  const DefaultSharpMoneyTracker := SharpMoneyTracker(0.015, 0.020, 0.010)

  datatype Analysis = Analysis(direction: Direction, sharpStrength: real, publicNoise: real,
                               manipulated: bool, momentum: real)

  /** A Python bool used as 0 or 1. */
  function Indicator(b: bool): nat { if b then 1 else 0 }

  /** `statistics.pvariance`: the mean squared deviation from the mean. */
  function PVariance(h: seq<real>): real
    requires |h| > 0
  {
    Mean(Deviations(h, Mean(h)))
  }

  function Deviations(h: seq<real>, m: real): (r: seq<real>)
    ensures |r| == |h|
  {
    seq(|h|, i requires 0 <= i < |h| => (h[i] - m) * (h[i] - m))
  }

  /** `is_manipulated`: a fall, a rise and a fall again, each over 0.02, in the first
      three steps. */
  function IsManipulated(h: seq<real>): (r: bool)
    ensures r <==> |h| >= 4 && h[1] - h[0] < -0.02 && h[2] - h[1] > 0.02 && h[3] - h[2] < -0.02
    ensures r ==> h[1] < h[0] && h[2] > h[1] && h[3] < h[2]
  {
    if |h| < 4 then false
    else
      var diffs := Diffs(h);
      diffs[0] < -0.02 && diffs[1] > 0.02 && diffs[2] < -0.02
  }

  /** The momentum of `analyze`: the mean of the last two steps, or 0 for three
      prices or fewer. */
  function Momentum(h: seq<real>): real {
    if |h| > 3 then Mean(Diffs(h[|h| - 3..])) else 0.0
  }

  /** The mean of the last two steps telescopes to half the move over them. */
  lemma MomentumTelescopes(h: seq<real>)
    requires |h| > 3
    ensures Momentum(h) == (h[|h| - 1] - h[|h| - 3]) / 2.0
  {
    var w := h[|h| - 3..];
    var d := Diffs(w);
    assert d == [w[1] - w[0], w[2] - w[1]];
    assert Sum(d) == Sum([w[1] - w[0]]) + (w[2] - w[1]);
  }

  /** The written strength never exceeds the intended one, is zero exactly when the
      intended one is, and agrees with it exactly when at most one condition holds. */
  lemma StrengthAsWrittenUndercounts(t: SharpMoneyTracker, h: seq<real>)
    ensures t.SharpStrengthAsWritten(h) <= t.SharpStrength(h)
    ensures t.SharpStrengthAsWritten(h) == 0.0 <==> t.SharpStrength(h) == 0.0
    ensures t.SharpStrengthAsWritten(h) == t.SharpStrength(h) <==> t.SharpStrength(h) <= 1.0 / 3.0
  {
  }

  /** A steady fall of 0.1 per step is fast and large but too volatile: the written
      strength is 1/3 where the intended one is 2/3. */
  lemma StrengthAsWrittenDiffers()
    ensures DefaultSharpMoneyTracker.SharpStrengthAsWritten([2.0, 1.9, 1.8]) == 1.0 / 3.0
    ensures DefaultSharpMoneyTracker.SharpStrength([2.0, 1.9, 1.8]) == 2.0 / 3.0
  {
    var h := [2.0, 1.9, 1.8];
    var t := DefaultSharpMoneyTracker;
    assert Diffs(h)[1] == -0.1;
    assert Mean(h) == 1.9 by {
      assert Sum(h) == Sum([2.0, 1.9]) + 1.8;
      assert Sum([2.0, 1.9]) == Sum([2.0]) + 1.9;
    }
    var dev := [0.01, 0.0, 0.01];
    assert Deviations(h, 1.9) == dev;
    assert Sum(dev) == Sum([0.01, 0.0]) + 0.01;
    assert Sum([0.01, 0.0]) == Sum([0.01]) + 0.0;
    assert !t.LowVariance(h);
  }

  /** The price with every entry negated. */
  function Negated(h: seq<real>): (r: seq<real>)
    ensures |r| == |h|
  {
    seq(|h|, i requires 0 <= i < |h| => -h[i])
  }

  /** Mirroring the prices swaps a strong fall and a strong rise. */
  lemma DirectionMirror(t: SharpMoneyTracker, h: seq<real>)
    ensures t.DetectDirection(h) == StrongDown <==> t.DetectDirection(Negated(h)) == StrongUp
    ensures t.DetectDirection(h) == StrongUp <==> t.DetectDirection(Negated(h)) == StrongDown
  {
  }

  /** On four prices the reversal pattern ends in a fall after a rise, which is
      neither trend. */
  lemma ManipulatedIsMixed(t: SharpMoneyTracker, h: seq<real>)
    requires |h| == 4 && IsManipulated(h)
    ensures t.DetectDirection(h) == Mixed
  {
  }

  /** The prices with a constant added. */
  function Shifted(h: seq<real>, c: real): (r: seq<real>)
    ensures |r| == |h|
  {
    seq(|h|, i requires 0 <= i < |h| => h[i] + c)
  }

  lemma {:induction false} SumShifted(h: seq<real>, c: real)
    ensures Sum(Shifted(h, c)) == Sum(h) + |h| as real * c
  {
    if h != [] {
      var n := |h| - 1;
      assert Shifted(h, c)[..n] == Shifted(h[..n], c);
      SumShifted(h[..n], c);
    }
  }

  lemma DiffsShifted(h: seq<real>, c: real)
    ensures Diffs(Shifted(h, c)) == Diffs(h)
  {
  }

  /** Every signal depends only on price moves: adding a constant to all prices
      changes none of them. */
  lemma AnalyzeShiftInvariant(t: SharpMoneyTracker, h: seq<real>, c: real)
    ensures t.Analyze(Shifted(h, c)) == t.Analyze(h)
  {
    var s := Shifted(h, c);
    DiffsShifted(h, c);
    if |h| >= 3 {
      VarianceShifted(h, c);
    }
    if |h| > 3 {
      assert s[|s| - 3..] == Shifted(h[|h| - 3..], c);
      DiffsShifted(h[|h| - 3..], c);
    }
  }

  lemma MeanShifted(h: seq<real>, c: real)
    requires |h| > 0
    ensures Mean(Shifted(h, c)) == Mean(h) + c
  {
    SumShifted(h, c);
    var n := |h| as real;
    assert Mean(Shifted(h, c)) == (Sum(h) + n * c) / n;
    assert (Sum(h) + n * c) / n == Sum(h) / n + c;
  }

  lemma VarianceShifted(h: seq<real>, c: real)
    requires |h| > 0
    ensures PVariance(Shifted(h, c)) == PVariance(h)
  {
    var s := Shifted(h, c);
    MeanShifted(h, c);
    forall i | 0 <= i < |h|
      ensures Deviations(s, Mean(s))[i] == Deviations(h, Mean(h))[i]
    {
      assert s[i] - Mean(s) == h[i] - Mean(h);
    }
    assert Deviations(s, Mean(s)) == Deviations(h, Mean(h));
  }
}
