/**
 * The older stand-alone calculator (perfomance-calc/PPCalculator.cs): its
 * 300/100/50 accuracy and the osu! statistics it builds from the four
 * counts. A score with no hits at all counts as 100%.
 */
module LegacyCalculator {
  import opened Numerics
  import opened Game
  import Osu

  /** `CalculateAccuracy(count300, count100, count50, missCount)`. */
  function CalculateAccuracy(count300: int, count100: int, count50: int, missCount: int): (r: real)
    ensures count300 + count100 + count50 + missCount == 0 ==> r == 1.0
    ensures count300 + count100 + count50 + missCount != 0 ==>
      r * ((count300 + count100 + count50 + missCount) as real * 300.0)
        == count300 as real * 300.0 + count100 as real * 100.0 + count50 as real * 50.0
  {
    var totalHits := count300 + count100 + count50 + missCount;
    if totalHits == 0 then 1.0
    else
      var numerator := count300 as real * 300.0 + count100 as real * 100.0 + count50 as real * 50.0;
      var denominator := totalHits as real * 300.0;
      numerator / denominator
  }

  /** For counts that are not negative the accuracy lies in [0, 1]. */
  lemma AccuracyInUnitInterval(count300: nat, count100: nat, count50: nat, missCount: nat)
    ensures 0.0 <= CalculateAccuracy(count300, count100, count50, missCount) <= 1.0
  {
    var totalHits := count300 + count100 + count50 + missCount;
    if totalHits != 0 {
      QuotientInUnitInterval(count300 as real * 300.0 + count100 as real * 100.0 + count50 as real * 50.0,
                             totalHits as real * 300.0);
    }
  }

  /** Only 300s is 100%. */
  lemma AccuracyOfOnlyGreats(count300: int)
    requires count300 != 0
    ensures CalculateAccuracy(count300, 0, 0, 0) == 1.0
  {
    SelfQuotient(count300 as real * 300.0);
  }

  /**
   * 300:100:50 is 6:2:1, so with at least one hit this is the base formula
   * of the osu! estimator.
   */
  lemma AgreesWithBaseAccuracy(count300: int, count100: int, count50: int, missCount: int)
    requires count300 + count100 + count50 + missCount != 0
    ensures CalculateAccuracy(count300, count100, count50, missCount)
         == Osu.BaseAccuracy(count300, count100, count50, missCount)
  {
    var n := count300 as real * 300.0 + count100 as real * 100.0 + count50 as real * 50.0;
    var d := (count300 + count100 + count50 + missCount) as real * 300.0;
    assert n == 50.0 * (6 * count300 + 2 * count100 + count50) as real;
    assert d == 50.0 * (6 * (count300 + count100 + count50 + missCount)) as real;
    ScaledQuotient((6 * count300 + 2 * count100 + count50) as real,
                   (6 * (count300 + count100 + count50 + missCount)) as real, 50.0);
  }

  lemma ScaledQuotient(p: real, q: real, c: real)
    requires q != 0.0 && c != 0.0
    ensures (c * p) / (c * q) == p / q
  {
  }

  /** The statistics `CalculatePP` hands to the performance calculator. */
  function LegacyStatistics(count300: int, count100: int, count50: int, missCount: int): (r: Statistics)
    ensures r.Keys == {Great, Ok, Meh, Miss}
    ensures r[Great] == count300 && r[Ok] == count100 && r[Meh] == count50 && r[Miss] == missCount
  {
    map[Great := count300, Ok := count100, Meh := count50, Miss := missCount]
  }

  /**
   * Apart from the zero-hit case (1 here, no value there) the two
   * calculators agree: the accuracy it computes is the osu! accuracy of the
   * statistics it builds, on any beatmap.
   */
  lemma AgreesWithOsuAccuracy(beatmap: Beatmap, count300: int, count100: int, count50: int, missCount: int)
    requires count300 + count100 + count50 + missCount != 0
    ensures Osu.GetAccuracy(beatmap, LegacyStatistics(count300, count100, count50, missCount))
         == Success(CalculateAccuracy(count300, count100, count50, missCount))
  {
    Osu.AccuracyOfJudgementsOnly(beatmap, LegacyStatistics(count300, count100, count50, missCount));
    AgreesWithBaseAccuracy(count300, count100, count50, missCount);
  }

  /** With no hits the estimator's accuracy has no value while this one is 1. */
  lemma ZeroHitsDisagree(beatmap: Beatmap)
    ensures CalculateAccuracy(0, 0, 0, 0) == 1.0
    ensures Osu.GetAccuracy(beatmap, LegacyStatistics(0, 0, 0, 0)).Failure?
  {
    var statistics := LegacyStatistics(0, 0, 0, 0);
    assert SliderTailHit !in statistics && LargeTickMiss !in statistics;
    assert Osu.MaxPoints(beatmap, statistics) == 0.0;
  }
}
