/**
 * AccuracyTools.Taiko: the Great/Ok/Miss counts of an osu!taiko score from a
 * target accuracy, and the accuracy of a set of statistics. A Great is worth
 * 2, an Ok 1 and a Miss 0, out of 2 per object of the maximum combo.
 */
module Taiko {
  import opened Wrappers
  import opened Numerics
  import opened Game

  /**
   * `generateHitResults`: an Ok override is used as given and the Greats
   * fill the rest; otherwise the counts are chosen so that 2·Great + Ok is
   * the rounded target total. Nothing clamps the Greats at zero. The mods
   * the public wrapper takes are not used.
   */
  function GenerateHitResults(beatmap: Beatmap, accuracy: real, misses: int, goods: Option<int>): (r: Statistics)
    ensures r.Keys == {Great, Ok, Meh, Miss}
    ensures r[Great] + r[Ok] + r[Miss] == MaxCombo(beatmap.hitObjects)
    ensures r[Meh] == 0 && r[Miss] == misses
    ensures goods.Some? ==> r[Ok] == goods.value
    ensures goods.None? ==> 2 * r[Great] + r[Ok] == TargetTotal(accuracy, MaxCombo(beatmap.hitObjects))
  {
    var totalResultCount := MaxCombo(beatmap.hitObjects);
    var countGreat :=
      if goods.Some? then totalResultCount - goods.value - misses
      else TargetTotal(accuracy, totalResultCount) - (totalResultCount - misses);
    var countGood := if goods.Some? then goods.value else totalResultCount - countGreat - misses;
    map[Great := countGreat, Ok := countGood, Meh := 0, Miss := misses]
  }

  /** `(int)Math.Round(accuracy * totalResultCount * 2)`: the points a score at `accuracy` earns. */
  function TargetTotal(accuracy: real, totalResultCount: int): int {
    Round(accuracy * totalResultCount as real * 2.0)
  }

  /**
   * `GetAccuracy`: (2·Great + Ok) / (2·(Great + Ok + Miss)). The three counts
   * are read with the dictionary indexer, so an absent one fails with its key.
   */
  function GetAccuracy(statistics: Statistics): (r: Result<real>)
    ensures Great !in statistics ==> r == Failure(KeyNotFound(Great))
    ensures Great in statistics && Ok !in statistics ==> r == Failure(KeyNotFound(Ok))
    ensures Great in statistics && Ok in statistics && Miss !in statistics ==> r == Failure(KeyNotFound(Miss))
    ensures r.Success? <==> {Great, Ok, Miss} <= statistics.Keys
                            && statistics[Great] + statistics[Ok] + statistics[Miss] != 0
    ensures {Great, Ok, Miss} <= statistics.Keys && statistics[Great] + statistics[Ok] + statistics[Miss] == 0
            ==> r == Failure(NonFinite)
    ensures r.Success? ==>
      r.value * (2 * (statistics[Great] + statistics[Ok] + statistics[Miss])) as real
        == (2 * statistics[Great] + statistics[Ok]) as real
  {
    if Great !in statistics then Failure(KeyNotFound(Great))
    else if Ok !in statistics then Failure(KeyNotFound(Ok))
    else if Miss !in statistics then Failure(KeyNotFound(Miss))
    else
      var total := statistics[Great] + statistics[Ok] + statistics[Miss];
      if total == 0 then Failure(NonFinite)
      else Success((2 * statistics[Great] + statistics[Ok]) as real / (2 * total) as real)
  }

  /**
   * Without an override the accuracy of the estimate is exactly the rounded
   * target total over twice the maximum combo, and so lies within 1/(4·combo)
   * of the target.
   */
  lemma AccuracyOfEstimate(beatmap: Beatmap, accuracy: real, misses: int)
    requires MaxCombo(beatmap.hitObjects) > 0
    ensures var combo := MaxCombo(beatmap.hitObjects);
      var r := GetAccuracy(GenerateHitResults(beatmap, accuracy, misses, None));
      && r == Success(TargetTotal(accuracy, combo) as real / (2 * combo) as real)
      && accuracy - 1.0 / (4.0 * combo as real) <= r.value <= accuracy + 1.0 / (4.0 * combo as real)
  {
    TargetTotalClose(accuracy, MaxCombo(beatmap.hitObjects));
  }

  /** The rounded target total over 2·combo is within 1/(4·combo) of the accuracy. */
  lemma TargetTotalClose(accuracy: real, combo: int)
    requires combo > 0
    ensures var q := TargetTotal(accuracy, combo) as real / (2 * combo) as real;
      accuracy - 1.0 / (4.0 * combo as real) <= q <= accuracy + 1.0 / (4.0 * combo as real)
  {
    var t := TargetTotal(accuracy, combo) as real;
    assert (2 * combo) as real == 2.0 * combo as real;
    assert t / (2 * combo) as real == t / (2.0 * combo as real);
    assert accuracy * combo as real * 2.0 - 0.5 <= t <= accuracy * combo as real * 2.0 + 0.5;
    assert accuracy * (2.0 * combo as real) == accuracy * combo as real * 2.0;
    ShareWithin(accuracy, t, 2.0 * combo as real, 0.5);
    assert 0.5 / (2.0 * combo as real) == 1.0 / (4.0 * combo as real);
  }

  /**
   * Without an override a higher target accuracy never gives the estimate a
   * lower accuracy, whatever the misses.
   */
  lemma EstimateMonotone(beatmap: Beatmap, low: real, high: real, misses: int)
    requires MaxCombo(beatmap.hitObjects) > 0 && low <= high
    ensures var a, b := GetAccuracy(GenerateHitResults(beatmap, low, misses, None)),
                        GetAccuracy(GenerateHitResults(beatmap, high, misses, None));
      a.Success? && b.Success? && a.value <= b.value
  {
    var combo := MaxCombo(beatmap.hitObjects);
    TargetTotalMonotone(low, high, combo);
    DivLe(TargetTotal(low, combo) as real, TargetTotal(high, combo) as real, (2 * combo) as real);
    AccuracyOfEstimate(beatmap, low, misses);
    AccuracyOfEstimate(beatmap, high, misses);
  }

  /** A higher accuracy never aims lower. */
  lemma TargetTotalMonotone(low: real, high: real, n: int)
    requires low <= high && n >= 0
    ensures TargetTotal(low, n) <= TargetTotal(high, n)
  {
    TargetTotalScaled(low, n);
    TargetTotalScaled(high, n);
    RoundScaledMonotone(low, high, 2 * n);
  }

  /** The target as a rounded multiple of the doubled count. */
  lemma TargetTotalScaled(accuracy: real, n: int)
    ensures TargetTotal(accuracy, n) == Round(accuracy * (2 * n) as real)
  {
    var x, y := accuracy * n as real * 2.0, accuracy * (2 * n) as real;
    assert TargetTotal(accuracy, n) == Round(x);
    assert x == y;
    assert Round(x) == Round(y);
  }

  /** A single drum hit. */
  function OneDrumHit(): Beatmap {
    Beatmap([HitObject(DrumHit, [], 1)])
  }

  /**
   * Nothing clamps the Greats: at 0% on one object without misses the target
   * total is 0, so the estimate has -1 Greats and 2 Oks.
   */
  lemma GreatCanBeNegative()
    ensures var r := GenerateHitResults(OneDrumHit(), 0.0, 0, None);
      r[Great] == -1 && r[Ok] == 2
  {
    assert MaxCombo(OneDrumHit().hitObjects) == 1;
    RoundOfInt(0);
  }
}
