/**
 * AccuracyTools.Catch: the fruit, droplet and tiny-droplet counts of an
 * osu!catch score from a target accuracy, and the accuracy of a set of
 * statistics (caught objects over all objects).
 */
module Catch {
  import opened Wrappers
  import opened Numerics
  import opened Game

  /** The tiny droplets: every nested TinyDroplet of a JuiceStream. */
  function MaxTinyDroplets(beatmap: Beatmap): nat {
    SumNestedOf(beatmap.hitObjects, JuiceStream, IsTinyDroplet)
  }

  /**
   * The droplets that are not tiny: the nested Droplets of the juice streams
   * (a TinyDroplet is a Droplet too) minus the tiny ones.
   */
  function MaxDroplets(beatmap: Beatmap): int {
    SumNestedOf(beatmap.hitObjects, JuiceStream, IsDroplet) - MaxTinyDroplets(beatmap)
  }

  /** The fruits: each Fruit object, and each Fruit nested in a JuiceStream. */
  function MaxFruits(objs: seq<HitObject>): nat {
    if objs == [] then 0
    else
      (if objs[0].kind == Fruit then 1
       else if objs[0].kind == JuiceStream then Count(objs[0].nested, IsFruit)
       else 0)
      + MaxFruits(objs[1..])
  }

  /** Counting a weaker predicate counts at least as many. */
  lemma CountMonotone(xs: seq<ObjectKind>, p: ObjectKind -> bool, q: ObjectKind -> bool)
    requires forall k :: p(k) ==> q(k)
    ensures Count(xs, p) <= Count(xs, q)
  {
    if xs != [] {
      CountMonotone(xs[1..], p, q);
    }
  }

  lemma {:induction false} SumNestedOfMonotone(objs: seq<HitObject>, k: ObjectKind,
                                               p: ObjectKind -> bool, q: ObjectKind -> bool)
    requires forall x :: p(x) ==> q(x)
    ensures SumNestedOf(objs, k, p) <= SumNestedOf(objs, k, q)
  {
    if objs != [] {
      CountMonotone(objs[0].nested, p, q);
      SumNestedOfMonotone(objs[1..], k, p, q);
    }
  }

  /** There are never fewer droplets than tiny droplets, so the non-tiny droplets are not negative. */
  lemma MaxDropletsNonNegative(beatmap: Beatmap)
    ensures MaxDroplets(beatmap) >= 0
  {
    SumNestedOfMonotone(beatmap.hitObjects, JuiceStream, IsTinyDroplet, IsDroplet);
  }

  /** `(int)Math.Round(accuracy * total)`: the objects of `total` a score at `accuracy` catches. */
  function TargetHits(accuracy: real, total: int): int {
    Round(accuracy * total as real)
  }

  /** The objects the accuracy target counts: the maximum combo and the tiny droplets. */
  function TargetBase(beatmap: Beatmap): nat {
    MaxCombo(beatmap.hitObjects) + MaxTinyDroplets(beatmap)
  }

  /** The four counts the estimator derives; the misses are given. */
  datatype Counts = Counts(fruits: int, droplets: int, tinyDroplets: int, tinyMisses: int)

  /**
   * The counts of `generateHitResults`: the droplets are the given Ok count
   * or all droplets less the misses (at least 0); the misses the droplets do
   * not absorb come off the fruits; the tiny droplets are the given Meh
   * count or the target hits less fruits and droplets; the other tiny
   * droplets are missed. Neither the fruits nor the tiny droplets are
   * clamped at zero.
   */
  function Estimate(beatmap: Beatmap, accuracy: real, misses: int, mehs: Option<int>, goods: Option<int>): (c: Counts)
    ensures c.fruits + c.droplets + misses == MaxFruits(beatmap.hitObjects) + MaxDroplets(beatmap)
    ensures c.tinyDroplets + c.tinyMisses == MaxTinyDroplets(beatmap)
    ensures goods.Some? ==> c.droplets == goods.value
    ensures goods.None? ==> c.droplets == Max(0, MaxDroplets(beatmap) - misses) && c.droplets >= 0
    ensures mehs.Some? ==> c.tinyDroplets == mehs.value
    ensures mehs.None? ==> c.fruits + c.droplets + c.tinyDroplets == TargetHits(accuracy, TargetBase(beatmap))
  {
    var maxDroplets := MaxDroplets(beatmap);
    var countDroplets := if goods.Some? then goods.value else Max(0, maxDroplets - misses);
    var countFruits := MaxFruits(beatmap.hitObjects) - (misses - (maxDroplets - countDroplets));
    var countTinyDroplets :=
      if mehs.Some? then mehs.value else TargetHits(accuracy, TargetBase(beatmap)) - countFruits - countDroplets;
    Counts(countFruits, countDroplets, countTinyDroplets, MaxTinyDroplets(beatmap) - countTinyDroplets)
  }

  /** `generateHitResults`: the estimated counts under their hit results. */
  function GenerateHitResults(beatmap: Beatmap, accuracy: real, misses: int, mehs: Option<int>,
                              goods: Option<int>): (r: Statistics)
    ensures r.Keys == {Great, LargeTickHit, SmallTickHit, SmallTickMiss, Miss}
    ensures r[Great] + r[LargeTickHit] + r[Miss] == MaxFruits(beatmap.hitObjects) + MaxDroplets(beatmap)
    ensures r[SmallTickHit] + r[SmallTickMiss] == MaxTinyDroplets(beatmap)
    ensures r[Miss] == misses
    ensures goods.Some? ==> r[LargeTickHit] == goods.value
    ensures goods.None? ==> r[LargeTickHit] == Max(0, MaxDroplets(beatmap) - misses) && r[LargeTickHit] >= 0
    ensures mehs.Some? ==> r[SmallTickHit] == mehs.value
    ensures mehs.None? ==> r[Great] + r[LargeTickHit] + r[SmallTickHit] == TargetHits(accuracy, TargetBase(beatmap))
  {
    var c := Estimate(beatmap, accuracy, misses, mehs, goods);
    map[Great := c.fruits, LargeTickHit := c.droplets, SmallTickHit := c.tinyDroplets,
        SmallTickMiss := c.tinyMisses, Miss := misses]
  }

  /**
   * `GetAccuracy`: caught objects (fruits, droplets, tiny droplets) over all
   * objects, the missed ones included. The counts are read with the
   * dictionary indexer, so an absent one fails with its key.
   */
  function GetAccuracy(statistics: Statistics): (r: Result<real>)
    ensures Great !in statistics ==> r == Failure(KeyNotFound(Great))
    ensures Great in statistics && LargeTickHit !in statistics ==> r == Failure(KeyNotFound(LargeTickHit))
    ensures {Great, LargeTickHit} <= statistics.Keys && SmallTickHit !in statistics
            ==> r == Failure(KeyNotFound(SmallTickHit))
    ensures {Great, LargeTickHit, SmallTickHit} <= statistics.Keys && Miss !in statistics
            ==> r == Failure(KeyNotFound(Miss))
    ensures {Great, LargeTickHit, SmallTickHit, Miss} <= statistics.Keys && SmallTickMiss !in statistics
            ==> r == Failure(KeyNotFound(SmallTickMiss))
    ensures r.Success? <==> {Great, LargeTickHit, SmallTickHit, Miss, SmallTickMiss} <= statistics.Keys
                            && Caught(statistics) + statistics[Miss] + statistics[SmallTickMiss] != 0
    ensures {Great, LargeTickHit, SmallTickHit, Miss, SmallTickMiss} <= statistics.Keys
            && Caught(statistics) + statistics[Miss] + statistics[SmallTickMiss] == 0
            ==> r == Failure(NonFinite)
    ensures r.Success? ==>
      r.value * (Caught(statistics) + statistics[Miss] + statistics[SmallTickMiss]) as real
        == Caught(statistics) as real
  {
    if Great !in statistics then Failure(KeyNotFound(Great))
    else if LargeTickHit !in statistics then Failure(KeyNotFound(LargeTickHit))
    else if SmallTickHit !in statistics then Failure(KeyNotFound(SmallTickHit))
    else if Miss !in statistics then Failure(KeyNotFound(Miss))
    else if SmallTickMiss !in statistics then Failure(KeyNotFound(SmallTickMiss))
    else
      var hits := Caught(statistics);
      var total := hits + statistics[Miss] + statistics[SmallTickMiss];
      if total == 0 then Failure(NonFinite) else Success(hits as real / total as real)
  }

  /** The caught objects: fruits, droplets and tiny droplets. */
  function Caught(statistics: Statistics): int
    requires {Great, LargeTickHit, SmallTickHit} <= statistics.Keys
  {
    statistics[Great] + statistics[LargeTickHit] + statistics[SmallTickHit]
  }

  /** All objects of the beatmap: fruits, droplets and tiny droplets. */
  function Objects(beatmap: Beatmap): int {
    MaxFruits(beatmap.hitObjects) + MaxDroplets(beatmap) + MaxTinyDroplets(beatmap)
  }

  /**
   * Without a Meh override the estimate's accuracy is the rounded target
   * hits over all objects, whatever the miss count and the Ok override.
   */
  lemma AccuracyOfEstimate(beatmap: Beatmap, accuracy: real, misses: int, goods: Option<int>)
    requires Objects(beatmap) != 0
    ensures GetAccuracy(GenerateHitResults(beatmap, accuracy, misses, None, goods))
         == Success(TargetHits(accuracy, TargetBase(beatmap)) as real / Objects(beatmap) as real)
  {
  }

  /**
   * When the maximum combo counts exactly the fruits and the non-tiny
   * droplets, that accuracy is within 1/(2·objects) of the target.
   */
  lemma AccuracyOfEstimateClose(beatmap: Beatmap, accuracy: real, misses: int, goods: Option<int>)
    requires MaxCombo(beatmap.hitObjects) == MaxFruits(beatmap.hitObjects) + MaxDroplets(beatmap)
    requires MaxCombo(beatmap.hitObjects) + MaxTinyDroplets(beatmap) > 0
    ensures var r := GetAccuracy(GenerateHitResults(beatmap, accuracy, misses, None, goods));
      && r.Success?
      && accuracy - 1.0 / (2.0 * Objects(beatmap) as real) <= r.value
      && r.value <= accuracy + 1.0 / (2.0 * Objects(beatmap) as real)
  {
    AccuracyOfEstimate(beatmap, accuracy, misses, goods);
    assert TargetBase(beatmap) == Objects(beatmap);
    RoundedShareClose(accuracy, Objects(beatmap));
  }

  /**
   * Without a Meh override a higher target accuracy never gives the
   * estimate a lower accuracy, whatever the misses and the Ok override.
   */
  lemma EstimateMonotone(beatmap: Beatmap, low: real, high: real, misses: int, goods: Option<int>)
    requires Objects(beatmap) != 0 && low <= high
    ensures var a, b := GetAccuracy(GenerateHitResults(beatmap, low, misses, None, goods)),
                        GetAccuracy(GenerateHitResults(beatmap, high, misses, None, goods));
      a.Success? && b.Success? && a.value <= b.value
  {
    var base := TargetBase(beatmap);
    TargetHitsMonotone(low, high, base);
    MaxDropletsNonNegative(beatmap);
    DivLe(TargetHits(low, base) as real, TargetHits(high, base) as real, Objects(beatmap) as real);
    AccuracyOfEstimate(beatmap, low, misses, goods);
    AccuracyOfEstimate(beatmap, high, misses, goods);
  }

  /** A higher accuracy never aims lower. */
  lemma TargetHitsMonotone(low: real, high: real, total: int)
    requires low <= high && total >= 0
    ensures TargetHits(low, total) <= TargetHits(high, total)
  {
    RoundScaledMonotone(low, high, total);
  }

  /** TargetHits(accuracy, n)/n is within 1/(2n) of the accuracy. */
  lemma RoundedShareClose(accuracy: real, n: int)
    requires n > 0
    ensures accuracy - 1.0 / (2.0 * n as real) <= TargetHits(accuracy, n) as real / n as real
                                              <= accuracy + 1.0 / (2.0 * n as real)
  {
    var x := accuracy * n as real;
    var t := Round(x);
    assert x - 0.5 <= t as real <= x + 0.5;
    ShareClose(accuracy, t as real, n as real);
  }

  /** A single fruit. */
  function OneFruit(): Beatmap {
    Beatmap([HitObject(Fruit, [], 1)])
  }

  /**
   * Nothing clamps the fruits: two misses on a map of one fruit and no
   * droplets leave -1 fruits.
   */
  lemma FruitsCanBeNegative()
    ensures GenerateHitResults(OneFruit(), 1.0, 2, None, None)[Great] == -1
  {
    assert MaxFruits(OneFruit().hitObjects) == 1;
    assert MaxDroplets(OneFruit()) == 0;
  }

  /**
   * Nothing clamps the tiny droplets: at 0% on one fruit the target hits are
   * 0 while the fruit counts as caught, leaving -1 tiny droplets.
   */
  lemma TinyDropletsCanBeNegative()
    ensures GenerateHitResults(OneFruit(), 0.0, 0, None, None)[SmallTickHit] == -1
  {
    var r := GenerateHitResults(OneFruit(), 0.0, 0, None, None);
    assert MaxFruits(OneFruit().hitObjects) == 1;
    assert MaxDroplets(OneFruit()) == 0;
    assert r[LargeTickHit] == 0 && r[Great] == 1;
    assert MaxTinyDroplets(OneFruit()) == 0;
    assert MaxCombo(OneFruit().hitObjects) == 1;
    RoundOfInt(0);
    assert TargetHits(0.0, TargetBase(OneFruit())) == 0;
  }
}
