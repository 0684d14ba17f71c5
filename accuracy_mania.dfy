/**
 * AccuracyTools.Mania: the six judgement counts of an osu!mania score from a
 * target accuracy, and the accuracy of a set of statistics. The estimator
 * values a Perfect at 61 (60 under Classic), a Great at 60, a Good at 40, an
 * Ok at 20, a Meh at 10 and a Miss at 0, and fills the counts greedily from
 * the best judgement down.
 */
module Mania {
  import opened Wrappers
  import opened Numerics
  import opened Game

  /** One judgement per note and two per hold note (head and tail), unless Classic is active. */
  function TotalHits(beatmap: Beatmap, mods: seq<Mod>): (r: nat)
    ensures AnyModClassic(mods) ==> r == |beatmap.hitObjects|
    ensures !AnyModClassic(mods) ==> r == |beatmap.hitObjects| + CountKind(beatmap.hitObjects, HoldNote)
  {
    |beatmap.hitObjects| + (if AnyModClassic(mods) then 0 else CountKind(beatmap.hitObjects, HoldNote))
  }

  /** The estimator's value of a Perfect. */
  function PerfectValue(mods: seq<Mod>): int {
    if AnyModClassic(mods) then 60 else 61
  }

  /** `(int)Math.Round(accuracy * totalHits * perfectValue)`: the points a score at `accuracy` earns. */
  function TargetTotal(accuracy: real, totalHits: int, perfectValue: int): int {
    Round(accuracy * totalHits as real * perfectValue as real)
  }

  /** The points the estimator's values give a set of counts. */
  function Points(perfectValue: int, perfects: int, greats: int, goods: int, oks: int, mehs: int): int {
    perfectValue * perfects + 60 * greats + 40 * goods + 20 * oks + 10 * mehs
  }

  /** How far the counts lie above the same hits all judged Meh. */
  function Raise(perfectValue: int, perfects: int, greats: int, goods: int, oks: int): int {
    (perfectValue - 10) * perfects + 50 * greats + 30 * goods + 10 * oks
  }

  /**
   * The greedy part of `generateHitResults`. Starting from every hit a Meh,
   * `delta` is the raise still owed to reach the target; it takes as many
   * Perfects as the raise pays for, then Greats, Goods and Oks, and the hits
   * left over are Mehs.
   *
   * With a miss count between 0 and the hits, each count is the most that
   * fits after the ones before it (`Greedy`), every count is non-negative,
   * the raise never exceeds what was owed, and either no Meh is left or
   * less than one Ok's raise (10) is still owed. With more misses than hits
   * the Perfects take the negative remainder and the rest are 0.
   */
  method Allocate(targetTotal: int, totalHits: int, misses: int, perfectValue: int)
    returns (perfects: int, greats: int, goods: int, oks: int, mehs: int)
    requires perfectValue == 60 || perfectValue == 61
    ensures perfects + greats + goods + oks + mehs == totalHits - misses
    ensures 0 <= misses <= totalHits ==>
      Greedy(Max(targetTotal - 10 * (totalHits - misses), 0), totalHits - misses, perfectValue,
             perfects, greats, goods, oks, mehs)
    ensures 0 <= misses <= totalHits ==>
      && perfects >= 0 && greats >= 0 && goods >= 0 && oks >= 0 && mehs >= 0
      && Raise(perfectValue, perfects, greats, goods, oks) <= Max(targetTotal - 10 * (totalHits - misses), 0)
      && (mehs == 0 ||
          Max(targetTotal - 10 * (totalHits - misses), 0) - Raise(perfectValue, perfects, greats, goods, oks) < 10)
    ensures 0 <= misses <= totalHits && targetTotal >= perfectValue * (totalHits - misses) ==>
      perfects == totalHits - misses && greats == 0 && goods == 0 && oks == 0 && mehs == 0
    ensures misses > totalHits ==>
      perfects == totalHits - misses && greats == 0 && goods == 0 && oks == 0 && mehs == 0
  {
    var remainingHits := totalHits - misses;
    var delta := Max(targetTotal - 10 * remainingHits, 0);
    assert perfectValue * remainingHits - 10 * remainingHits == remainingHits * (perfectValue - 10);

    perfects := Take(delta, remainingHits, perfectValue - 10);
    delta := delta - perfects * (perfectValue - 10);
    remainingHits := remainingHits - perfects;
    assert (perfectValue - 10) * perfects == perfects * (perfectValue - 10);

    greats := Take(delta, remainingHits, 50);
    delta := delta - greats * 50;
    remainingHits := remainingHits - greats;

    goods := Take(delta, remainingHits, 30);
    delta := delta - goods * 30;
    remainingHits := remainingHits - goods;

    oks := Take(delta, remainingHits, 10);
    remainingHits := remainingHits - oks;

    mehs := remainingHits;
  }

  /**
   * The most judgements of raise `weight` that `owed` pays for within the
   * `remaining` hits: each of them is paid for, and either the hits are used
   * up or what is still owed buys no further one.
   */
  predicate MostThatFits(owed: int, remaining: int, weight: int, c: int) {
    0 <= c <= remaining && c * weight <= owed && (c == remaining || owed - c * weight < weight)
  }

  /** At most one count is the most that fits. */
  lemma MostThatFitsUnique(owed: int, remaining: int, weight: int, c: int, d: int)
    requires weight > 0 && MostThatFits(owed, remaining, weight, c) && MostThatFits(owed, remaining, weight, d)
    ensures c == d
  {
    if c < d {
      MulMonotone(c + 1, d, weight);
    } else if d < c {
      MulMonotone(d + 1, c, weight);
    }
  }

  /**
   * The greedy allocation of `hits` hits owed a raise of `delta`: the
   * Perfects (raise pv - 10), then the Greats (50), the Goods (30) and the
   * Oks (10), each the most that fits in what the ones before leave, and
   * the Mehs the hits left over.
   */
  predicate Greedy(delta: int, hits: int, perfectValue: int, perfects: int, greats: int, goods: int, oks: int, mehs: int) {
    var w := perfectValue - 10;
    && MostThatFits(delta, hits, w, perfects)
    && MostThatFits(delta - w * perfects, hits - perfects, 50, greats)
    && MostThatFits(delta - w * perfects - 50 * greats, hits - perfects - greats, 30, goods)
    && MostThatFits(delta - w * perfects - 50 * greats - 30 * goods, hits - perfects - greats - goods, 10, oks)
    && mehs == hits - perfects - greats - goods - oks
  }

  /**
   * One greedy step: as many judgements of the given raise as the owed raise
   * pays for, but no more than the hits left. A negative number of hits left
   * is taken whole.
   */
  function Take(owed: int, remaining: int, weight: int): (c: int)
    requires owed >= 0 && weight > 0
    ensures c <= remaining && c * weight <= owed
    ensures remaining < 0 ==> c == remaining
    ensures remaining >= 0 ==> c >= 0 && (c == remaining || owed - c * weight < weight)
    ensures owed >= remaining * weight ==> c == remaining
  {
    var q := Quot(owed, weight);
    if q <= remaining then
      assert q >= remaining ==> q * weight >= remaining * weight;
      q
    else
      MulMonotone(remaining, q, weight);
      remaining
  }

  lemma MulMonotone(a: int, b: int, w: int)
    requires a <= b && w > 0
    ensures a * w <= b * w
  {
    assert b * w - a * w == (b - a) * w;
  }

  /**
   * `generateHitResults`. Any of the four overrides switches the estimate
   * off: the given counts are used (an absent one as 0) and the Perfects fill
   * the rest. Otherwise the greedy allocation meets the rounded target total.
   * A perfect play (accuracy 1, no misses) is all Perfects.
   */
  method GenerateHitResults(beatmap: Beatmap, mods: seq<Mod>, accuracy: real, misses: int, mehs: Option<int>,
                            oks: Option<int>, goods: Option<int>, greats: Option<int>)
    returns (r: Statistics)
    ensures r.Keys == {Perfect, Great, Good, Ok, Meh, Miss}
    ensures r[Perfect] + r[Great] + r[Good] + r[Ok] + r[Meh] + r[Miss] == TotalHits(beatmap, mods)
    ensures r[Miss] == misses
    ensures mehs.Some? || oks.Some? || goods.Some? || greats.Some? ==>
      && r[Great] == greats.GetOr(0) && r[Good] == goods.GetOr(0)
      && r[Ok] == oks.GetOr(0) && r[Meh] == mehs.GetOr(0)
    ensures mehs.None? && oks.None? && goods.None? && greats.None? && 0 <= misses <= TotalHits(beatmap, mods) ==>
      var n := TotalHits(beatmap, mods);
      var pv := PerfectValue(mods);
      var delta := Max(TargetTotal(accuracy, n, pv) - 10 * (n - misses), 0);
      && r[Perfect] >= 0 && r[Great] >= 0 && r[Good] >= 0 && r[Ok] >= 0 && r[Meh] >= 0
      && Raise(pv, r[Perfect], r[Great], r[Good], r[Ok]) <= delta
      && (r[Meh] == 0 || delta - Raise(pv, r[Perfect], r[Great], r[Good], r[Ok]) < 10)
      && Greedy(delta, n - misses, pv, r[Perfect], r[Great], r[Good], r[Ok], r[Meh])
    ensures mehs.None? && oks.None? && goods.None? && greats.None? && accuracy == 1.0 && misses == 0 ==>
      r[Perfect] == TotalHits(beatmap, mods) && r[Great] == 0 && r[Good] == 0 && r[Ok] == 0 && r[Meh] == 0
    ensures mehs.None? && oks.None? && goods.None? && greats.None? && misses > TotalHits(beatmap, mods) ==>
      r[Perfect] == TotalHits(beatmap, mods) - misses && r[Great] == 0 && r[Good] == 0 && r[Ok] == 0 && r[Meh] == 0
  {
    var totalHits := TotalHits(beatmap, mods);
    if mehs.Some? || oks.Some? || goods.Some? || greats.Some? {
      var countPerfect := totalHits - (misses + mehs.GetOr(0) + oks.GetOr(0) + goods.GetOr(0) + greats.GetOr(0));
      r := map[Perfect := countPerfect, Great := greats.GetOr(0), Good := goods.GetOr(0),
               Ok := oks.GetOr(0), Meh := mehs.GetOr(0), Miss := misses];
    } else {
      var perfectValue := PerfectValue(mods);
      var targetTotal := TargetTotal(accuracy, totalHits, perfectValue);
      if accuracy == 1.0 {
        PerfectTarget(totalHits, perfectValue);
      }
      var perfects, countGreat, countGood, countOk, countMeh := Allocate(targetTotal, totalHits, misses, perfectValue);
      r := map[Perfect := perfects, Great := countGreat, Ok := countOk, Good := countGood,
               Meh := countMeh, Miss := misses];
    }
  }

  /**
   * When no more is owed than every hit a Perfect, the greedy allocation
   * leaves less than 20 of the raise unpaid: at most 19 points short of the
   * target.
   */
  lemma GreedyShortfall(delta: int, hits: int, perfectValue: int,
                        perfects: int, greats: int, goods: int, oks: int, mehs: int)
    requires perfectValue == 60 || perfectValue == 61
    requires 0 <= delta <= (perfectValue - 10) * hits
    requires Greedy(delta, hits, perfectValue, perfects, greats, goods, oks, mehs)
    ensures 0 <= delta - Raise(perfectValue, perfects, greats, goods, oks) < 20
  {
    if perfects == hits {
      assert (perfectValue - 10) * perfects == (perfectValue - 10) * hits;
    }
  }

  /** A target accuracy between lo/pv and hi/pv aims between lo and hi points per hit. */
  lemma TargetTotalBetween(accuracy: real, n: int, perfectValue: int, lo: int, hi: int)
    requires n > 0 && perfectValue > 0
    requires lo as real <= accuracy * perfectValue as real <= hi as real
    ensures lo * n <= TargetTotal(accuracy, n, perfectValue) <= hi * n
  {
    var x := accuracy * n as real * perfectValue as real;
    assert x == (accuracy * perfectValue as real) * n as real;
    MulLe(n as real, lo as real, accuracy * perfectValue as real);
    MulLe(n as real, accuracy * perfectValue as real, hi as real);
    assert (lo * n) as real == n as real * lo as real;
    assert (hi * n) as real == n as real * hi as real;
    RoundBetweenInts(x, lo * n, hi * n);
  }

  /** The target total is the accuracy's share of every hit a Perfect, rounded. */
  lemma TargetTotalClose(accuracy: real, n: int, perfectValue: int)
    ensures var d := (perfectValue * n) as real;
      accuracy * d - 0.5 <= TargetTotal(accuracy, n, perfectValue) as real <= accuracy * d + 0.5
  {
    var x := accuracy * n as real * perfectValue as real;
    assert (perfectValue * n) as real == n as real * perfectValue as real;
    assert x == accuracy * (n as real * perfectValue as real);
  }

  /**
   * The estimate inverts the accuracy: with no overrides and no misses, a
   * target from 10/pv (every hit a Meh) up to 1 comes back within 20/(pv·n),
   * where n counts the judgements and pv is a Perfect's value.
   */
  lemma EstimateRoundTrip(r: Statistics, mods: seq<Mod>, accuracy: real, n: int)
    requires n > 0 && 10.0 <= accuracy * PerfectValue(mods) as real && accuracy <= 1.0
    requires r.Keys == {Perfect, Great, Good, Ok, Meh, Miss} && r[Miss] == 0
    requires r[Perfect] + r[Great] + r[Good] + r[Ok] + r[Meh] + r[Miss] == n
    requires Greedy(Max(TargetTotal(accuracy, n, PerfectValue(mods)) - 10 * n, 0), n, PerfectValue(mods),
                    r[Perfect], r[Great], r[Good], r[Ok], r[Meh])
    ensures GetAccuracy(r, mods).Success?
    ensures var d := (PerfectValue(mods) * n) as real;
      accuracy - 20.0 / d <= GetAccuracy(r, mods).value <= accuracy + 20.0 / d
  {
    var pv := PerfectValue(mods);
    var p, g, gd, o, m := r[Perfect], r[Great], r[Good], r[Ok], r[Meh];
    PointsNearTarget(accuracy, n, pv, p, g, gd, o, m);
    ShareNearAccuracy(accuracy, n, pv, Points(pv, p, g, gd, o, m));
    assert Judged(r) == n;
    AccuracyIsPointsShare(r, mods);
  }

  /** Points less than 20 below the target total, over every hit a Perfect, are within 20/(pv·n) of the accuracy. */
  lemma ShareNearAccuracy(accuracy: real, n: int, perfectValue: int, points: int)
    requires n > 0 && perfectValue > 0
    requires TargetTotal(accuracy, n, perfectValue) - 20 < points <= TargetTotal(accuracy, n, perfectValue)
    ensures var d := (perfectValue * n) as real;
      accuracy - 20.0 / d <= points as real / d <= accuracy + 20.0 / d
  {
    TargetTotalClose(accuracy, n, perfectValue);
    assert TargetTotal(accuracy, n, perfectValue) as real - 19.0 <= points as real;
    MulMonotone(1, n, perfectValue);
    ShareWithin(accuracy, points as real, (perfectValue * n) as real, 20.0);
  }

  /** The greedy counts earn at most the target total and less than 20 below it. */
  lemma PointsNearTarget(accuracy: real, n: int, perfectValue: int,
                         perfects: int, greats: int, goods: int, oks: int, mehs: int)
    requires n > 0 && (perfectValue == 60 || perfectValue == 61)
    requires 10.0 <= accuracy * perfectValue as real && accuracy <= 1.0
    requires perfects + greats + goods + oks + mehs == n
    requires Greedy(Max(TargetTotal(accuracy, n, perfectValue) - 10 * n, 0), n, perfectValue,
                    perfects, greats, goods, oks, mehs)
    ensures var t := TargetTotal(accuracy, n, perfectValue);
      t - 20 < Points(perfectValue, perfects, greats, goods, oks, mehs) <= t
  {
    var t := TargetTotal(accuracy, n, perfectValue);
    assert accuracy * perfectValue as real <= perfectValue as real by {
      MulLe(perfectValue as real, accuracy, 1.0);
    }
    TargetTotalBetween(accuracy, n, perfectValue, 10, perfectValue);
    assert (perfectValue - 10) * n == perfectValue * n - 10 * n;
    GreedyShortfall(t - 10 * n, n, perfectValue, perfects, greats, goods, oks, mehs);
  }

  /**
   * Below 10/pv the estimate cannot go: with no overrides and no misses,
   * a target at most 10/pv gives every hit a Meh, and the accuracy 10/pv.
   */
  lemma EstimateFloor(r: Statistics, mods: seq<Mod>, accuracy: real, n: int)
    requires n > 0 && 0.0 <= accuracy && accuracy * PerfectValue(mods) as real <= 10.0
    requires r.Keys == {Perfect, Great, Good, Ok, Meh, Miss} && r[Miss] == 0
    requires r[Perfect] + r[Great] + r[Good] + r[Ok] + r[Meh] + r[Miss] == n
    requires Greedy(Max(TargetTotal(accuracy, n, PerfectValue(mods)) - 10 * n, 0), n, PerfectValue(mods),
                    r[Perfect], r[Great], r[Good], r[Ok], r[Meh])
    ensures r[Meh] == n
    ensures GetAccuracy(r, mods) == Success(10.0 / PerfectValue(mods) as real)
  {
    var pv := PerfectValue(mods);
    TargetTotalBetween(accuracy, n, pv, 0, 10);
    var p := r[Perfect];
    if p > 0 {
      MulMonotone(1, p, pv - 10);
    }
    assert r[Meh] == n;
    AccuracyIsPointsShare(r, mods);
    assert Points(pv, 0, 0, 0, 0, n) == 10 * n;
    assert (10 * n) as real / (pv * n) as real == 10.0 / pv as real by {
      assert (10 * n) as real == 10.0 * n as real;
      assert (pv * n) as real == pv as real * n as real;
    }
  }

  /** At accuracy 1 the target total is every hit a Perfect. */
  lemma PerfectTarget(totalHits: int, perfectValue: int)
    ensures TargetTotal(1.0, totalHits, perfectValue) == perfectValue * totalHits
  {
    assert 1.0 * totalHits as real * perfectValue as real == (perfectValue * totalHits) as real;
    RoundOfInt(perfectValue * totalHits);
  }

  /** `GetAccuracy`'s value of a Perfect: 300 under Classic, 305 otherwise. */
  function PerfectWeight(mods: seq<Mod>): int {
    if AnyModClassic(mods) then 300 else 305
  }

  /** The statistics hold the six judgements `GetAccuracy` reads. */
  predicate HasJudgements(statistics: Statistics) {
    {Perfect, Great, Good, Ok, Meh, Miss} <= statistics.Keys
  }

  /** The judgements counted. */
  function Judged(statistics: Statistics): int
    requires HasJudgements(statistics)
  {
    statistics[Perfect] + statistics[Great] + statistics[Good] + statistics[Ok] + statistics[Meh] + statistics[Miss]
  }

  /** The weighted hits of `GetAccuracy`. */
  function Weighted(mods: seq<Mod>, statistics: Statistics): int
    requires HasJudgements(statistics)
  {
    PerfectWeight(mods) * statistics[Perfect] + 300 * statistics[Great] + 200 * statistics[Good]
      + 100 * statistics[Ok] + 50 * statistics[Meh]
  }

  /**
   * `GetAccuracy`: the weighted hits over a Perfect's weight for every
   * judgement. The six counts are read with the dictionary indexer, so an
   * absent one fails with its key.
   */
  function GetAccuracy(statistics: Statistics, mods: seq<Mod>): (r: Result<real>)
    ensures Perfect !in statistics ==> r == Failure(KeyNotFound(Perfect))
    ensures Perfect in statistics && Great !in statistics ==> r == Failure(KeyNotFound(Great))
    ensures {Perfect, Great} <= statistics.Keys && Good !in statistics ==> r == Failure(KeyNotFound(Good))
    ensures {Perfect, Great, Good} <= statistics.Keys && Ok !in statistics ==> r == Failure(KeyNotFound(Ok))
    ensures {Perfect, Great, Good, Ok} <= statistics.Keys && Meh !in statistics ==> r == Failure(KeyNotFound(Meh))
    ensures {Perfect, Great, Good, Ok, Meh} <= statistics.Keys && Miss !in statistics
            ==> r == Failure(KeyNotFound(Miss))
    ensures r.Success? <==> HasJudgements(statistics) && Judged(statistics) != 0
    ensures HasJudgements(statistics) && Judged(statistics) == 0 ==> r == Failure(NonFinite)
    ensures r.Success? ==>
      r.value * (PerfectWeight(mods) * Judged(statistics)) as real == Weighted(mods, statistics) as real
  {
    if Perfect !in statistics then Failure(KeyNotFound(Perfect))
    else if Great !in statistics then Failure(KeyNotFound(Great))
    else if Good !in statistics then Failure(KeyNotFound(Good))
    else if Ok !in statistics then Failure(KeyNotFound(Ok))
    else if Meh !in statistics then Failure(KeyNotFound(Meh))
    else if Miss !in statistics then Failure(KeyNotFound(Miss))
    else
      var max := PerfectWeight(mods) * Judged(statistics);
      if max == 0 then Failure(NonFinite) else Success(Weighted(mods, statistics) as real / max as real)
  }

  /**
   * The accuracy weights are five times the estimator's values, so the
   * accuracy of any statistics is their estimator points over a Perfect's
   * value for every judgement.
   */
  lemma AccuracyIsPointsShare(statistics: Statistics, mods: seq<Mod>)
    requires HasJudgements(statistics) && Judged(statistics) != 0
    ensures PerfectWeight(mods) == 5 * PerfectValue(mods)
    ensures var s := statistics;
      Weighted(mods, s) == 5 * Points(PerfectValue(mods), s[Perfect], s[Great], s[Good], s[Ok], s[Meh])
    ensures var s := statistics;
      GetAccuracy(s, mods)
        == Success(Points(PerfectValue(mods), s[Perfect], s[Great], s[Good], s[Ok], s[Meh]) as real
                   / (PerfectValue(mods) * Judged(s)) as real)
  {
    var s := statistics;
    var p := Points(PerfectValue(mods), s[Perfect], s[Great], s[Good], s[Ok], s[Meh]) as real;
    var m := (PerfectValue(mods) * Judged(s)) as real;
    assert Weighted(mods, s) as real == 5.0 * p;
    assert (PerfectWeight(mods) * Judged(s)) as real == 5.0 * m;
    assert m != 0.0;
    assert (5.0 * p) / (5.0 * m) == p / m;
  }

  /** A perfect score (only Perfects) has accuracy 1. */
  lemma AccuracyOfOnlyPerfects(statistics: Statistics, mods: seq<Mod>)
    requires HasJudgements(statistics) && statistics[Perfect] > 0
    requires statistics[Great] == statistics[Good] == statistics[Ok] == statistics[Meh] == statistics[Miss] == 0
    ensures GetAccuracy(statistics, mods) == Success(1.0)
  {
    SelfQuotient((PerfectWeight(mods) * statistics[Perfect]) as real);
  }
}
