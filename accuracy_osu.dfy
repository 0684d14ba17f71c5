/**
 * AccuracyTools.Osu: estimates the Great/Ok/Meh/Miss counts of an osu!
 * score from a target accuracy and a miss count, and computes the accuracy
 * of a set of statistics.
 */
module Osu {
  import opened Wrappers
  import opened Numerics
  import opened Game

  /** `beatmap.HitObjects.Count(x => x is Slider)`. */
  function SliderCount(beatmap: Beatmap): nat {
    CountKind(beatmap.hitObjects, Slider)
  }

  /** The large ticks: every nested SliderTick or SliderRepeat. */
  function LargeTickCount(beatmap: Beatmap): nat {
    SumNested(beatmap.hitObjects, IsLargeTick)
  }

  /**
   * The accuracy without the misses, clamped into [0, 1]: what the rest of
   * the objects must reach so that the whole score reaches `accuracy`.
   */
  function RelevantAccuracy(accuracy: real, total: int, misses: int): (r: real)
    requires RelevantAccuracyDefined(accuracy, total, misses)
    ensures 0.0 <= r <= 1.0
    // every object a miss: accuracy·total over +0 is +∞ or −∞, clamped to 1 or 0
    ensures total == misses ==> r == (if accuracy * total as real > 0.0 then 1.0 else 0.0)
  {
    if total == misses then
      if accuracy * total as real > 0.0 then 1.0 else 0.0
    else
      Clamp(accuracy * total as real / (total - misses) as real, 0.0, 1.0)
  }

  /**
   * Whether the relevant accuracy is a number: when every object is a miss
   * the quotient has a zero denominator, and a zero numerator as well makes
   * it NaN.
   */
  predicate RelevantAccuracyDefined(accuracy: real, total: int, misses: int) {
    total != misses || accuracy * total as real != 0.0
  }

  /** The main curve's count of 50s per 100: `(1 - (acc - 0.25) / 0.75)^2`. */
  function Ratio50To100(relevantAccuracy: real): (r: real)
    ensures r >= 0.0
  {
    var u := 1.0 - (relevantAccuracy - 0.25) / 0.75;
    u * u
  }

  /**
   * The main curve's unrounded count of 100s, from
   * accuracy = (6 c300 + 2 c100 + c50) / (6 hits) with c50 = c100 * ratio.
   */
  function Count100Estimate(relevantResultCount: int, relevantAccuracy: real): real {
    6.0 * relevantResultCount as real * (1.0 - relevantAccuracy)
      / (5.0 * Ratio50To100(relevantAccuracy) + 4.0)
  }

  /** The base accuracy formula over the four judgement counts (6:2:1:0 per judged object). */
  function BaseAccuracy(great: int, ok: int, meh: int, miss: int): real
    requires great + ok + meh + miss != 0
  {
    (6 * great + 2 * ok + meh) as real / (6 * (great + ok + meh + miss)) as real
  }

  /** The comment's three points of the main curve: 0 at 100%, 1/9 at 75%, 4/9 at 50%. */
  lemma RatioAtCommentedPoints()
    ensures Ratio50To100(1.0) == 0.0
    ensures Ratio50To100(0.75) == 1.0 / 9.0
    ensures Ratio50To100(0.5) == 4.0 / 9.0
  {
  }

  /** The main curve in terms of u = 1 - (acc - 0.25) / 0.75, which runs over [0, 1]. */
  lemma MainCurveInU(relevantAccuracy: real) returns (u: real)
    requires 0.25 <= relevantAccuracy <= 1.0
    ensures 0.0 <= u <= 1.0
    ensures Ratio50To100(relevantAccuracy) == u * u
    ensures 1.0 - relevantAccuracy == 0.75 * u
  {
    u := 1.0 - (relevantAccuracy - 0.25) / 0.75;
  }

  /** 4.5 u (1 + u^2) <= 5 u^2 + 4 on [0, 1]: the difference is (1 - u)(4.5 u^2 - 0.5 u + 4). */
  lemma CubicBound(u: real)
    requires 0.0 <= u <= 1.0
    ensures 4.5 * u * (1.0 + u * u) <= 5.0 * u * u + 4.0
  {
    var q := 4.5 * u * u - 0.5 * u + 4.0;
    assert q >= 0.0 by {
      assert 4.5 * u * u >= 0.0;
      assert 0.5 * u <= 0.5;
    }
    assert (1.0 - u) * q >= 0.0;
    assert 5.0 * u * u + 4.0 - 4.5 * u * (1.0 + u * u) == (1.0 - u) * q;
  }

  /**
   * On the main curve the estimated 100s and 50s together never exceed the
   * objects that are not misses, so no negative count of 300s is produced.
   */
  lemma MainCurveFits(relevantResultCount: int, relevantAccuracy: real)
    requires relevantResultCount > 0
    requires 0.25 <= relevantAccuracy <= 1.0
    ensures var e := Count100Estimate(relevantResultCount, relevantAccuracy);
      0.0 <= e <= e + e * Ratio50To100(relevantAccuracy) <= relevantResultCount as real
  {
    var n := relevantResultCount as real;
    var u := MainCurveInU(relevantAccuracy);
    var r := Ratio50To100(relevantAccuracy);
    var d := 5.0 * r + 4.0;
    var y := 6.0 * n * (1.0 - relevantAccuracy);
    var e := Count100Estimate(relevantResultCount, relevantAccuracy);
    assert e == y / d;
    assert y == n * (4.5 * u) by {
      assert 1.0 - relevantAccuracy == 0.75 * u;
    }
    MulNonneg(n, 4.5 * u);
    DivNonneg(y, d);
    MulNonneg(e, r);
    // e (1 + r) d = n (4.5 u (1 + r)) <= n d
    DivTimes(y, d);
    assert e * d == y;
    CubicBound(u);
    MulLe(n, 4.5 * u * (1.0 + r), d);
    assert (e * (1.0 + r)) * d == n * (4.5 * u * (1.0 + r)) by {
      assert (e * (1.0 + r)) * d == (e * d) * (1.0 + r);
    }
    CancelLe(e * (1.0 + r), n, d);
  }

  /** What the main curve's estimate solves: 6n - 4e - 5e·ratio = 6n·accuracy. */
  lemma MainCurveSolves(relevantResultCount: int, relevantAccuracy: real)
    ensures var e := Count100Estimate(relevantResultCount, relevantAccuracy);
      var n := relevantResultCount as real;
      6.0 * n - 4.0 * e - 5.0 * e * Ratio50To100(relevantAccuracy) == 6.0 * n * relevantAccuracy
  {
    var n := relevantResultCount as real;
    var r := Ratio50To100(relevantAccuracy);
    var d := 5.0 * r + 4.0;
    var e := Count100Estimate(relevantResultCount, relevantAccuracy);
    assert e * d == 6.0 * n * (1.0 - relevantAccuracy);
  }

  /** Points within 3 of 6n·accuracy put the base accuracy within 1/(2n) of it. */
  lemma PointsCloseToAccuracy(great: int, ok: int, meh: int, miss: int, n: int, accuracy: real)
    requires great + ok + meh + miss == n > 0
    requires var p := (6 * great + 2 * ok + meh) as real;
      var t := 6.0 * n as real * accuracy;
      t - 3.0 <= p <= t + 3.0
    ensures accuracy - 1.0 / (2.0 * n as real) <= BaseAccuracy(great, ok, meh, miss)
                                              <= accuracy + 1.0 / (2.0 * n as real)
  {
    var r := n as real;
    var p := (6 * great + 2 * ok + meh) as real;
    assert BaseAccuracy(great, ok, meh, miss) == p / (6.0 * r);
    assert accuracy * (6.0 * r) == 6.0 * r * accuracy;
    ShareWithin(accuracy, p, 6.0 * r, 3.0);
    assert 3.0 / (6.0 * r) == 1.0 / (2.0 * r);
  }

  /** With no misses the clamped relevant accuracy is the target accuracy itself. */
  lemma RelevantAccuracyWithoutMisses(accuracy: real, total: int)
    requires total != 0 && 0.0 <= accuracy <= 1.0
    ensures RelevantAccuracy(accuracy, total, 0) == accuracy
  {
    var t := total as real;
    assert accuracy * t / t == accuracy;
  }

  /** At 100% the main curve estimates no 100s and no 50s. */
  lemma MainCurveAtFullAccuracy(n: int)
    ensures Count100Estimate(n, 1.0) == 0.0
    ensures Ratio50To100(1.0) == 0.0
  {
  }

  /** Two ordered values in [0, n] round to ordered integers in [0, n]. */
  lemma RoundPairFits(e: real, s: real, n: int)
    requires 0.0 <= e <= s <= n as real
    ensures 0 <= Round(e) <= Round(s) <= n
  {
    RoundBetweenInts(e, 0, n);
    RoundBetweenInts(s, 0, n);
    RoundMonotone(e, s);
  }

  /**
   * Rounding the 100s and the 100s-plus-50s of an exact solution of
   * 6n - 4·c100 - 5·c50 = 6n·accuracy keeps the base accuracy within 1/(2n).
   */
  lemma RoundedCountsClose(n: int, e: real, er: real, accuracy: real)
    requires n > 0
    requires 6.0 * n as real - 4.0 * e - 5.0 * er == 6.0 * n as real * accuracy
    ensures var j := FromEstimates(n, e, er);
      accuracy - 1.0 / (2.0 * n as real) <= BaseAccuracy(j.great, j.ok, j.meh, j.miss)
                                        <= accuracy + 1.0 / (2.0 * n as real)
  {
    var ok := Round(e);
    var rs := Round(e + er);
    var meh := rs - ok;
    var great := n - ok - meh;
    var r := n as real;
    var t := 6.0 * r * accuracy;
    var p := (6 * great + 2 * ok + meh) as real;
    assert p - t == (ok as real - e) + 5.0 * ((e + er) - rs as real);
    PointsCloseToAccuracy(great, ok, meh, 0, n, accuracy);
  }

  /** The judgement counts of a score. */
  datatype Judgements = Judgements(great: int, ok: int, meh: int, miss: int)

  /** The points, at 6 per 300, that `n` objects earn at accuracy `ra`. */
  function TargetPoints(n: int, ra: real): real {
    6.0 * n as real * ra
  }

  /** The main curve's unrounded count of 50s: the 100s times `Ratio50To100`. */
  function Count50Estimate(n: int, ra: real): real {
    Count100Estimate(n, ra) * Ratio50To100(ra)
  }

  /** Rounded estimates of 100s and of 100s-plus-50s; the 300s fill the rest of the `n` objects. */
  function FromEstimates(n: int, count100Estimate: real, count50Estimate: real): (j: Judgements)
    ensures j.great + j.ok + j.meh + j.miss == n
  {
    var ok := Round(count100Estimate);
    var meh := Round(count100Estimate + count50Estimate) - ok;
    Judgements(n - ok - meh, ok, meh, 0)
  }

  /** The main curve: 100s from the relevant accuracy, and 50s at ratio `Ratio50To100` to them. */
  function MainCurve(n: int, ra: real): (j: Judgements)
    ensures j.great + j.ok + j.meh + j.miss == n
  {
    FromEstimates(n, Count100Estimate(n, ra), Count50Estimate(n, ra))
  }

  /** The main curve computed step by step, as the estimator does, is `MainCurve`. */
  lemma MainCurveOfEstimates(n: int, ra: real, ratio: real, count100Estimate: real, count50Estimate: real)
    requires ratio == Ratio50To100(ra)
    requires count100Estimate == Count100Estimate(n, ra)
    requires count50Estimate == count100Estimate * ratio
    ensures FromEstimates(n, count100Estimate, count50Estimate) == MainCurve(n, ra)
  {
    assert count50Estimate == Count50Estimate(n, ra);
  }

  /** The zero-300s curve: 6n·ra - n 100s and the rest 50s. */
  function NoGreatCurve(n: int, ra: real): (j: Judgements)
    ensures j.great + j.ok + j.meh + j.miss == n
  {
    var e := TargetPoints(n, ra) - n as real;
    FromEstimates(n, e, n as real - e)
  }

  /** The only-50s curve: 6n·ra 50s, and the objects not given a 50 become misses. */
  function MehOnlyCurve(n: int, ra: real): (j: Judgements)
    ensures j.great + j.ok + j.meh + j.miss == n
  {
    var meh := Round(TargetPoints(n, ra));
    Judgements(0, 0, meh, n - meh)
  }

  /**
   * The counts the three curves give to `n` objects that are not misses at
   * relevant accuracy `ra`: the main curve from 25% up, the zero-300s curve
   * from 1/6 up, and the only-50s curve below that.
   */
  function CurveJudgements(n: int, ra: real): (j: Judgements)
    ensures j.great + j.ok + j.meh + j.miss == n
  {
    if ra >= 0.25 then MainCurve(n, ra)
    else if ra >= 1.0 / 6.0 then NoGreatCurve(n, ra)
    else MehOnlyCurve(n, ra)
  }

  /**
   * `generateHitResults` without overrides, as a reference: the curves applied
   * to the objects that are not misses, at the relevant accuracy.
   */
  function EstimatedJudgements(total: int, misses: int, accuracy: real): (j: Judgements)
    requires RelevantAccuracyDefined(accuracy, total, misses)
    ensures j.great + j.ok + j.meh + j.miss == total
  {
    var c := CurveJudgements(total - misses, RelevantAccuracy(accuracy, total, misses));
    c.(miss := c.miss + misses)
  }

  /** Below 25% there are no 300s, and below 1/6 no 100s either. */
  lemma CurveJudgementsLowAccuracy(n: int, ra: real)
    requires ra < 0.25
    ensures CurveJudgements(n, ra).great == 0
    ensures ra < 1.0 / 6.0 ==> CurveJudgements(n, ra).ok == 0
    ensures ra >= 1.0 / 6.0 ==> CurveJudgements(n, ra).miss == 0
  {
    if ra >= 1.0 / 6.0 {
      var e := 6.0 * n as real * ra - n as real;
      assert e + (n as real - e) == n as real;
      RoundOfInt(n);
    }
  }

  /** The zero-300s curve's 100s lie in [0, n]. */
  lemma NoGreatCurveFits(n: int, ra: real)
    requires n > 0 && 1.0 / 6.0 <= ra < 0.25
    ensures 0.0 <= 6.0 * n as real * ra - n as real <= n as real
  {
    var r := n as real;
    MulLe(6.0 * r, 1.0 / 6.0, ra);
    MulLe(6.0 * r, ra, 0.25);
  }

  /** The only-50s curve's 50s lie in [0, n]. */
  lemma MehOnlyCurveFits(n: int, ra: real)
    requires n > 0 && 0.0 <= ra < 1.0 / 6.0
    ensures 0.0 <= 6.0 * n as real * ra <= n as real
  {
    var r := n as real;
    MulNonneg(6.0 * r, ra);
    MulLe(6.0 * r, ra, 1.0 / 6.0);
  }

  /** On the main curve no count is negative. */
  lemma MainCurveNonNegative(n: int, ra: real)
    requires n > 0 && 0.25 <= ra <= 1.0
    ensures var j := CurveJudgements(n, ra);
      j.great >= 0 && j.ok >= 0 && j.meh >= 0 && j.miss >= 0
  {
    MainCurveFits(n, ra);
    var e := Count100Estimate(n, ra);
    RoundPairFits(e, e + e * Ratio50To100(ra), n);
  }

  /** On the zero-300s curve no count is negative. */
  lemma NoGreatCurveNonNegative(n: int, ra: real)
    requires n > 0 && 1.0 / 6.0 <= ra < 0.25
    ensures var j := CurveJudgements(n, ra);
      j.great >= 0 && j.ok >= 0 && j.meh >= 0 && j.miss >= 0
  {
    NoGreatCurveFits(n, ra);
    RoundBetweenInts(6.0 * n as real * ra - n as real, 0, n);
    CurveJudgementsLowAccuracy(n, ra);
  }

  /** On the only-50s curve no count is negative. */
  lemma MehOnlyCurveNonNegative(n: int, ra: real)
    requires n > 0 && 0.0 <= ra < 1.0 / 6.0
    ensures var j := CurveJudgements(n, ra);
      j.great >= 0 && j.ok >= 0 && j.meh >= 0 && j.miss >= 0
  {
    MehOnlyCurveFits(n, ra);
    RoundBetweenInts(6.0 * n as real * ra, 0, n);
  }

  /** For objects that are not misses, at a relevant accuracy in [0, 1], no count is negative. */
  lemma CurveJudgementsNonNegative(n: int, ra: real)
    requires n > 0 && 0.0 <= ra <= 1.0
    ensures var j := CurveJudgements(n, ra);
      j.great >= 0 && j.ok >= 0 && j.meh >= 0 && j.miss >= 0
  {
    if ra >= 0.25 {
      MainCurveNonNegative(n, ra);
    } else if ra >= 1.0 / 6.0 {
      NoGreatCurveNonNegative(n, ra);
    } else {
      MehOnlyCurveNonNegative(n, ra);
    }
  }

  /** On the main curve rounding keeps the base accuracy within 1/(2n) of the target. */
  lemma MainCurveRoundTrip(n: int, ra: real)
    requires n > 0 && 0.25 <= ra <= 1.0
    ensures var j := CurveJudgements(n, ra);
      ra - 1.0 / (2.0 * n as real) <= BaseAccuracy(j.great, j.ok, j.meh, j.miss)
                                  <= ra + 1.0 / (2.0 * n as real)
  {
    var e := Count100Estimate(n, ra);
    var er := Count50Estimate(n, ra);
    assert CurveJudgements(n, ra) == FromEstimates(n, e, er);
    assert 6.0 * n as real - 4.0 * e - 5.0 * er == 6.0 * n as real * ra by {
      MainCurveSolves(n, ra);
      assert 5.0 * e * Ratio50To100(ra) == 5.0 * er;
    }
    RoundedCountsClose(n, e, er, ra);
  }

  /** On the zero-300s curve rounding keeps the base accuracy within 1/(2n) of the target. */
  lemma NoGreatCurveRoundTrip(n: int, ra: real)
    requires n > 0 && 1.0 / 6.0 <= ra < 0.25
    ensures var j := CurveJudgements(n, ra);
      ra - 1.0 / (2.0 * n as real) <= BaseAccuracy(j.great, j.ok, j.meh, j.miss)
                                  <= ra + 1.0 / (2.0 * n as real)
  {
    CurveJudgementsLowAccuracy(n, ra);
    var t := 6.0 * n as real * ra;
    var ok := Round(t - n as real);
    assert (6 * 0 + 2 * ok + (n - ok)) as real == t + (ok as real - (t - n as real));
    PointsCloseToAccuracy(0, ok, n - ok, 0, n, ra);
  }

  /** On the only-50s curve rounding keeps the base accuracy within 1/(2n) of the target. */
  lemma MehOnlyCurveRoundTrip(n: int, ra: real)
    requires n > 0 && 0.0 <= ra < 1.0 / 6.0
    ensures var j := CurveJudgements(n, ra);
      ra - 1.0 / (2.0 * n as real) <= BaseAccuracy(j.great, j.ok, j.meh, j.miss)
                                  <= ra + 1.0 / (2.0 * n as real)
  {
    var meh := Round(6.0 * n as real * ra);
    PointsCloseToAccuracy(0, 0, meh, n - meh, n, ra);
  }

  /** Rounding keeps the curves' counts within 1/(2n) of the accuracy they invert. */
  lemma CurveJudgementsRoundTrip(n: int, ra: real)
    requires n > 0 && 0.0 <= ra <= 1.0
    ensures var j := CurveJudgements(n, ra);
      ra - 1.0 / (2.0 * n as real) <= BaseAccuracy(j.great, j.ok, j.meh, j.miss)
                                  <= ra + 1.0 / (2.0 * n as real)
  {
    if ra >= 0.25 {
      MainCurveRoundTrip(n, ra);
    } else if ra >= 1.0 / 6.0 {
      NoGreatCurveRoundTrip(n, ra);
    } else {
      MehOnlyCurveRoundTrip(n, ra);
    }
  }

  /** With fewer misses than objects (and at least none) the estimate has no negative count. */
  lemma EstimatedJudgementsNonNegative(total: int, misses: int, accuracy: real)
    requires 0 <= misses < total
    ensures var j := EstimatedJudgements(total, misses, accuracy);
      j.great >= 0 && j.ok >= 0 && j.meh >= 0 && j.miss >= misses
  {
    CurveJudgementsNonNegative(total - misses, RelevantAccuracy(accuracy, total, misses));
  }

  /**
   * With every object a miss and a non-zero accuracy the estimate is all
   * misses, whichever way the clamp goes.
   */
  lemma EstimatedJudgementsAllMisses(total: int, accuracy: real)
    requires total > 0 && accuracy != 0.0
    ensures EstimatedJudgements(total, total, accuracy) == Judgements(0, 0, 0, total)
  {
    NonZeroProduct(accuracy, total);
    CurveJudgementsOfNone(RelevantAccuracy(accuracy, total, total));
  }

  lemma NonZeroProduct(accuracy: real, total: int)
    requires total > 0 && accuracy != 0.0
    ensures accuracy * total as real != 0.0
  {
    if accuracy > 0.0 {
      MulLe(accuracy, 1.0, total as real);
    } else {
      MulLe(-accuracy, 1.0, total as real);
    }
  }

  /** No objects get no judgements, at either end of the clamp. */
  lemma CurveJudgementsOfNone(ra: real)
    requires ra == 0.0 || ra == 1.0
    ensures CurveJudgements(0, ra) == Judgements(0, 0, 0, 0)
  {
    RoundOfInt(0);
    if ra == 1.0 {
      assert Ratio50To100(1.0) == 0.0;
      assert Count100Estimate(0, 1.0) == 0.0;
      assert Count50Estimate(0, 1.0) == 0.0;
      assert Round(0.0 + 0.0) == Round(0.0) == 0;
    } else {
      assert TargetPoints(0, 0.0) == 0.0;
    }
  }

  /** A perfect play (100%, no misses) is estimated as all 300s. */
  lemma EstimatedJudgementsOfPerfectPlay(total: int)
    requires total != 0
    ensures EstimatedJudgements(total, 0, 1.0) == Judgements(total, 0, 0, 0)
  {
    RelevantAccuracyWithoutMisses(1.0, total);
    MainCurveAtFullAccuracy(total);
    RoundOfInt(0);
  }

  /** Without misses the estimate's base accuracy is within 1/(2n) of the target. */
  lemma EstimatedJudgementsRoundTrip(total: int, accuracy: real)
    requires total > 0 && 0.0 <= accuracy <= 1.0
    ensures var j := EstimatedJudgements(total, 0, accuracy);
      accuracy - 1.0 / (2.0 * total as real) <= BaseAccuracy(j.great, j.ok, j.meh, j.miss)
                                            <= accuracy + 1.0 / (2.0 * total as real)
  {
    RelevantAccuracyWithoutMisses(accuracy, total);
    CurveJudgementsRoundTrip(total, accuracy);
  }

  /**
   * The estimate is not monotone in the accuracy, and it can miss the
   * target by more than 1/6 of an object: one object at 40% is estimated as
   * a 50 (accuracy 1/6, this lemma), at 39% as a 100 (accuracy 1/3,
   * `EstimateOfOneAt39`). At 40% the unrounded 100s are exactly 1/2, which
   * rounds to the even 0, and 0.82 objects round to one 50.
   */
  lemma EstimateOfOneAt40()
    ensures EstimatedJudgements(1, 0, 0.4) == Judgements(0, 0, 1, 0)
    ensures BaseAccuracy(0, 0, 1, 0) == 1.0 / 6.0
  {
    RelevantAccuracyWithoutMisses(0.4, 1);
    assert Ratio50To100(0.4) == 0.64;
    assert Count100Estimate(1, 0.4) == 0.5;
    RoundUnique(0.5, 0);
    RoundUnique(0.5 + 0.5 * 0.64, 1);
    assert BaseAccuracy(0, 0, 1, 0) == 1.0 / 6.0 by {
      assert (6 * 0 + 2 * 0 + 1) as real == 1.0 && (6 * (0 + 0 + 1 + 0)) as real == 6.0;
    }
  }

  /** One object at 39%: a little over 1/2 a 100 rounds to one 100, twice the accuracy of 40%. */
  lemma EstimateOfOneAt39()
    ensures EstimatedJudgements(1, 0, 0.39) == Judgements(0, 1, 0, 0)
    ensures BaseAccuracy(0, 1, 0, 0) == 1.0 / 3.0
  {
    RelevantAccuracyWithoutMisses(0.39, 1);
    var ratio := 3721.0 / 5625.0;
    assert Ratio50To100(0.39) == ratio;
    var e := 3.66 / (41105.0 / 5625.0);
    assert Count100Estimate(1, 0.39) == e;
    assert 0.5 < e < 0.51;
    RoundUnique(e, 1);
    assert 0.5 < e + e * ratio < 1.5;
    RoundUnique(e + e * ratio, 1);
    assert BaseAccuracy(0, 1, 0, 0) == 1.0 / 3.0 by {
      assert (6 * 0 + 2 * 1 + 0) as real == 2.0 && (6 * (0 + 1 + 0 + 0)) as real == 6.0;
    }
  }

  /**
   * The curve part of `generateHitResults` for the `relevantResultCount`
   * objects that are not misses: the 100s and 50s it estimates, and how many
   * of those objects the only-50s curve turns into misses.
   */
  method EstimateOnCurves(relevantResultCount: int, relevantAccuracy: real)
    returns (countGood: int, countMeh: int, curveMisses: int)
    ensures Judgements(relevantResultCount - countGood - countMeh - curveMisses, countGood, countMeh, curveMisses)
         == CurveJudgements(relevantResultCount, relevantAccuracy)
  {
    curveMisses := 0;
    if relevantAccuracy >= 0.25 {
      var ratio50To100 := Ratio50To100(relevantAccuracy);
      var count100Estimate := Count100Estimate(relevantResultCount, relevantAccuracy);
      var count50Estimate := count100Estimate * ratio50To100;
      MainCurveOfEstimates(relevantResultCount, relevantAccuracy, ratio50To100, count100Estimate, count50Estimate);
      countGood := Round(count100Estimate);
      countMeh := Round(count100Estimate + count50Estimate) - countGood;
    } else if relevantAccuracy >= 1.0 / 6.0 {
      var count100Estimate := 6.0 * relevantResultCount as real * relevantAccuracy - relevantResultCount as real;
      var count50Estimate := relevantResultCount as real - count100Estimate;
      assert count100Estimate == TargetPoints(relevantResultCount, relevantAccuracy) - relevantResultCount as real;
      countGood := Round(count100Estimate);
      countMeh := Round(count100Estimate + count50Estimate) - countGood;
    } else {
      var count50Estimate := 6.0 * relevantResultCount as real * relevantAccuracy;
      assert count50Estimate == TargetPoints(relevantResultCount, relevantAccuracy);
      countGood := 0;
      countMeh := Round(count50Estimate);
      curveMisses := relevantResultCount - countMeh;
    }
  }

  /**
   * `generateHitResults`: with an Ok or Meh override the counts are taken as
   * given and the 300s fill the rest; otherwise the target accuracy is
   * inverted on one of three curves. LargeTickMiss and SliderTailHit are
   * added only for non-null arguments.
   */
  method EstimateHitResults(beatmap: Beatmap, accuracy: real, misses: int, mehs: Option<int>,
                            goods: Option<int>, largeTickMisses: Option<int>, sliderTailMisses: Option<int>)
    returns (result: Statistics)
    requires mehs.Some? || goods.Some? || RelevantAccuracyDefined(accuracy, |beatmap.hitObjects|, misses)
    ensures result.Keys == {Great, Ok, Meh, Miss}
                           + (if largeTickMisses.Some? then {LargeTickMiss} else {})
                           + (if sliderTailMisses.Some? then {SliderTailHit} else {})
    // every judged object gets exactly one of the four results, on every path
    ensures result[Great] + result[Ok] + result[Meh] + result[Miss] == |beatmap.hitObjects|
    ensures largeTickMisses.Some? ==> result[LargeTickMiss] == largeTickMisses.value
    ensures sliderTailMisses.Some? ==> result[SliderTailHit] == SliderCount(beatmap) - sliderTailMisses.value
    // overrides are used as given and the accuracy is ignored
    ensures mehs.Some? || goods.Some? ==>
      result[Ok] == goods.GetOr(0) && result[Meh] == mehs.GetOr(0) && result[Miss] == misses
    // otherwise the counts are the curves' estimate
    ensures mehs.None? && goods.None? ==>
      Judgements(result[Great], result[Ok], result[Meh], result[Miss])
        == EstimatedJudgements(|beatmap.hitObjects|, misses, accuracy)
  {
    var countMiss, countMeh, countGood := misses, mehs, goods;
    var countGreat: int;
    var totalResultCount := |beatmap.hitObjects|;

    if countMeh.Some? || countGood.Some? {
      countGreat := totalResultCount - countGood.GetOr(0) - countMeh.GetOr(0) - countMiss;
    } else {
      var relevantResultCount := totalResultCount - countMiss;
      var relevantAccuracy := RelevantAccuracy(accuracy, totalResultCount, countMiss);
      var good, meh, curveMisses := EstimateOnCurves(relevantResultCount, relevantAccuracy);
      countGood, countMeh, countMiss := Some(good), Some(meh), countMiss + curveMisses;
      countGreat := totalResultCount - countGood.value - countMeh.value - countMiss;
    }

    result := map[Great := countGreat, Ok := countGood.GetOr(0), Meh := countMeh.GetOr(0), Miss := countMiss];
    if largeTickMisses.Some? {
      result := result[LargeTickMiss := largeTickMisses.value];
    }
    if sliderTailMisses.Some? {
      result := result[SliderTailHit := SliderCount(beatmap) - sliderTailMisses.value];
    }
  }

  /**
   * `GenerateHitResults`: under the osu! Classic mod with NoSliderHeadAccuracy
   * the score is a stable one and gets no LargeTickMiss or SliderTailHit;
   * otherwise both are added from the given counts.
   */
  method GenerateHitResults(beatmap: Beatmap, mods: seq<Mod>, accuracy: real, goods: Option<int>,
                            mehs: Option<int>, misses: int, largeTickMisses: int, sliderTailMisses: int)
    returns (result: Statistics)
    requires mehs.Some? || goods.Some? || RelevantAccuracyDefined(accuracy, |beatmap.hitObjects|, misses)
    ensures HasJudgementCounts(result)
    ensures result[Great] + result[Ok] + result[Meh] + result[Miss] == |beatmap.hitObjects|
    ensures ClassicWithoutSliderHeadAccuracy(mods) ==> result.Keys == {Great, Ok, Meh, Miss}
    ensures !ClassicWithoutSliderHeadAccuracy(mods) ==>
      && result.Keys == {Great, Ok, Meh, Miss, LargeTickMiss, SliderTailHit}
      && result[LargeTickMiss] == largeTickMisses
      && result[SliderTailHit] == SliderCount(beatmap) - sliderTailMisses
    ensures mehs.Some? || goods.Some? ==>
      result[Ok] == goods.GetOr(0) && result[Meh] == mehs.GetOr(0) && result[Miss] == misses
    ensures mehs.None? && goods.None? ==>
      Judgements(result[Great], result[Ok], result[Meh], result[Miss])
        == EstimatedJudgements(|beatmap.hitObjects|, misses, accuracy)
  {
    if ClassicWithoutSliderHeadAccuracy(mods) {
      result := EstimateHitResults(beatmap, accuracy, misses, mehs, goods, None, None);
    } else {
      result := EstimateHitResults(beatmap, accuracy, misses, mehs, goods, Some(largeTickMisses),
                                   Some(sliderTailMisses));
    }
  }

  /** The four judgement counts the accuracy reads are all present. */
  predicate HasJudgementCounts(statistics: Statistics) {
    Great in statistics && Ok in statistics && Meh in statistics && Miss in statistics
  }

  /** The points a score earns: 6/2/1 per 300/100/50, plus 3 per slider tail hit and 0.6 per large tick hit when present. */
  function Points(beatmap: Beatmap, statistics: Statistics): real
    requires HasJudgementCounts(statistics)
  {
    (6 * statistics[Great] + 2 * statistics[Ok] + statistics[Meh]) as real
    + (if SliderTailHit in statistics then (3 * statistics[SliderTailHit]) as real else 0.0)
    + (if LargeTickMiss in statistics
       then 0.6 * (LargeTickCount(beatmap) - statistics[LargeTickMiss]) as real else 0.0)
  }

  /** The most points the same judgements could earn: 6 per judged object, 3 per slider, 0.6 per large tick. */
  function MaxPoints(beatmap: Beatmap, statistics: Statistics): real
    requires HasJudgementCounts(statistics)
  {
    (6 * (statistics[Great] + statistics[Ok] + statistics[Meh] + statistics[Miss])) as real
    + (if SliderTailHit in statistics then (3 * SliderCount(beatmap)) as real else 0.0)
    + (if LargeTickMiss in statistics then 0.6 * LargeTickCount(beatmap) as real else 0.0)
  }

  /**
   * `GetAccuracy`: points over maximum points. The four judgement counts are
   * read with the dictionary indexer, so an absent one fails with its key.
   */
  function GetAccuracy(beatmap: Beatmap, statistics: Statistics): (r: Result<real>)
    ensures Great !in statistics ==> r == Failure(KeyNotFound(Great))
    ensures Great in statistics && Ok !in statistics ==> r == Failure(KeyNotFound(Ok))
    ensures Great in statistics && Ok in statistics && Meh !in statistics ==> r == Failure(KeyNotFound(Meh))
    ensures {Great, Ok, Meh} <= statistics.Keys && Miss !in statistics ==> r == Failure(KeyNotFound(Miss))
    ensures r.Success? <==> HasJudgementCounts(statistics) && MaxPoints(beatmap, statistics) != 0.0
    // the division by a zero maximum gives NaN or an infinity, not an exception
    ensures HasJudgementCounts(statistics) && MaxPoints(beatmap, statistics) == 0.0 ==> r == Failure(NonFinite)
    ensures r.Success? ==> r.value * MaxPoints(beatmap, statistics) == Points(beatmap, statistics)
  {
    if Great !in statistics then Failure(KeyNotFound(Great))
    else if Ok !in statistics then Failure(KeyNotFound(Ok))
    else if Meh !in statistics then Failure(KeyNotFound(Meh))
    else if Miss !in statistics then Failure(KeyNotFound(Miss))
    else
      var points, maxPoints := Points(beatmap, statistics), MaxPoints(beatmap, statistics);
      if maxPoints == 0.0 then Failure(NonFinite)
      else
        DivTimes(points, maxPoints);
        Success(points / maxPoints)
  }

  /** Without slider-tail and large-tick entries the accuracy is the base 6:2:1 formula. */
  lemma AccuracyOfJudgementsOnly(beatmap: Beatmap, statistics: Statistics)
    requires statistics.Keys == {Great, Ok, Meh, Miss}
    requires statistics[Great] + statistics[Ok] + statistics[Meh] + statistics[Miss] != 0
    ensures GetAccuracy(beatmap, statistics)
         == Success(BaseAccuracy(statistics[Great], statistics[Ok], statistics[Meh], statistics[Miss]))
  {
    var great, ok, meh, miss := statistics[Great], statistics[Ok], statistics[Meh], statistics[Miss];
    assert SliderTailHit !in statistics && LargeTickMiss !in statistics;
    assert Points(beatmap, statistics) == (6 * great + 2 * ok + meh) as real;
    assert MaxPoints(beatmap, statistics) == (6 * (great + ok + meh + miss)) as real;
  }

  /**
   * With non-negative counts, slider-tail hits at most the sliders and large
   * tick misses at most the ticks, the accuracy lies in [0, 1].
   */
  lemma AccuracyInUnitInterval(beatmap: Beatmap, statistics: Statistics)
    requires HasJudgementCounts(statistics)
    requires statistics[Great] >= 0 && statistics[Ok] >= 0 && statistics[Meh] >= 0 && statistics[Miss] >= 0
    requires SliderTailHit in statistics ==> 0 <= statistics[SliderTailHit] <= SliderCount(beatmap)
    requires LargeTickMiss in statistics ==> 0 <= statistics[LargeTickMiss] <= LargeTickCount(beatmap)
    requires MaxPoints(beatmap, statistics) != 0.0
    ensures GetAccuracy(beatmap, statistics).Success?
    ensures 0.0 <= GetAccuracy(beatmap, statistics).value <= 1.0
  {
    var p, m := Points(beatmap, statistics), MaxPoints(beatmap, statistics);
    assert 0.0 <= p <= m;
    QuotientInUnitInterval(p, m);
  }

  /** Only 300s, every slider tail hit and no large tick missed is 100%. */
  lemma AccuracyOfPerfectPlay(beatmap: Beatmap, statistics: Statistics)
    requires HasJudgementCounts(statistics)
    requires statistics[Great] > 0 && statistics[Ok] == 0 && statistics[Meh] == 0 && statistics[Miss] == 0
    requires SliderTailHit in statistics ==> statistics[SliderTailHit] == SliderCount(beatmap)
    requires LargeTickMiss in statistics ==> statistics[LargeTickMiss] == 0
    ensures GetAccuracy(beatmap, statistics) == Success(1.0)
  {
    var m := MaxPoints(beatmap, statistics);
    assert Points(beatmap, statistics) == m;
    assert m > 0.0;
    SelfQuotient(m);
  }
}
