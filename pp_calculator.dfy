/**
 * PPCalculator: one performance-points request. It fetches the beatmap's
 * bytes, derives the hit-object limit of a failed score, builds the memo
 * key, looks up or computes the working beatmap, the playable beatmap and
 * the difficulty attributes in three process-wide memo maps, synthesises
 * the score's statistics from the target accuracy and the given counts,
 * and assembles the result.
 *
 * The osu! library is a parameter (`Library`): the beatmap cache behind
 * the fetch, the decoder, GetPlayableBeatmap, the difficulty calculator and
 * the performance calculator.
 *
 * The line numbers in this module's comments are those of PPCalculator.cs.
 */
module Calculator {
  import opened Wrappers
  import opened Numerics
  import opened Game
  import opened BeatmapTools
  import opened DifficultyKey
  import Osu
  import Taiko
  import Catch
  import Mania

  /** What the library's difficulty calculator produces; the calculator only stores and passes it on. */
  datatype DifficultyAttributes = DifficultyAttributes(starRating: real, maxCombo: int)

  /** The ScoreInfo handed to the performance calculator; its accuracy may be NaN. */
  datatype ScoreInfo = ScoreInfo(accuracy: Double, mods: seq<Mod>, maxCombo: int, statistics: Statistics)

  datatype PPCalculationResult = PPCalculationResult(
    pp: Double,
    calculatedAccuracy: Double,
    difficultyAttributes: DifficultyAttributes,
    beatmapMaxCombo: int,
    beatmapHitObjectsCount: int,
    scoreHitResultsCount: int)

  /**
   * The osu! library and the beatmap cache, as functions. GetPlayableBeatmap,
   * the difficulty calculator and the performance calculator may throw (a
   * beatmap the ruleset cannot convert, the 30-second cancellation): each
   * gives a Result.
   */
  datatype Library = Library(
    fetch: nat -> FetchOutcome,
    decode: (int, seq<byte>) -> Result<Beatmap>,
    playable: (Beatmap, Ruleset, seq<Mod>) -> Result<Beatmap>,
    difficulty: (Ruleset, Beatmap, seq<Mod>) -> Result<DifficultyAttributes>,
    performance: (Ruleset, ScoreInfo, DifficultyAttributes) -> Result<Double>)

  /** The six judgement categories counted as hit results. */
  const Judgements: set<HitResult> := {Miss, Meh, Ok, Good, Great, Perfect}

  /** `GetHitResultsCountForGivenStatistics`: Miss to Perfect, an absent one as 0. */
  function HitResultsCount(statistics: Statistics): int {
    CountOf(statistics, Miss) + CountOf(statistics, Meh) + CountOf(statistics, Ok)
      + CountOf(statistics, Good) + CountOf(statistics, Great) + CountOf(statistics, Perfect)
  }

  /** Tick, bonus, tail and ignore entries do not change the count. */
  lemma HitResultsCountIgnoresOtherResults(statistics: Statistics, k: HitResult, v: int)
    requires k !in Judgements
    ensures HitResultsCount(statistics[k := v]) == HitResultsCount(statistics)
  {
  }

  /** Adding one to a judgement adds one to the count, whether the entry was there or not. */
  lemma HitResultsCountCountsEachJudgement(statistics: Statistics, k: HitResult)
    requires k in Judgements
    ensures HitResultsCount(statistics[k := CountOf(statistics, k) + 1]) == HitResultsCount(statistics) + 1
  {
  }

  lemma HitResultsCountOfNothing()
    ensures HitResultsCount(map[]) == 0
  {
  }

  /**
   * Lines 149-159: statistics without a pass are impossible; a failed score
   * with statistics is cut to as many hit objects as it has judgements;
   * otherwise there is no limit.
   */
  function HitObjectsLimit(scoreStatistics: Option<Statistics>, passed: bool): (r: Result<Option<int>>)
    ensures r == Failure(ImpossibleCase) <==> scoreStatistics.None? && !passed
    ensures r.Success? ==> (r.value.Some? <==> scoreStatistics.Some? && !passed)
    ensures r.Success? && r.value.Some? ==> r.value.value == HitResultsCount(scoreStatistics.value)
  {
    if scoreStatistics.None? && !passed then Failure(ImpossibleCase)
    else if scoreStatistics.Some? && !passed then Success(Some(HitResultsCount(scoreStatistics.value)))
    else Success(None)
  }

  /** Lines 127-134: the ruleset of an id, osu! for an unknown one. */
  function RulesetOf(rulesetId: int): (r: Ruleset)
    ensures rulesetId == 1 <==> r == TaikoRuleset
    ensures rulesetId == 2 <==> r == CatchRuleset
    ensures rulesetId == 3 <==> r == ManiaRuleset
    ensures r == OsuRuleset <==> rulesetId !in {1, 2, 3}
  {
    if rulesetId == 1 then TaikoRuleset
    else if rulesetId == 2 then CatchRuleset
    else if rulesetId == 3 then ManiaRuleset
    else OsuRuleset
  }

  /** `statistics.TryGetValue(k, out v)` turned into an optional count; none without statistics. */
  function Given(scoreStatistics: Option<Statistics>, k: HitResult): (r: Option<int>)
    ensures r.Some? <==> scoreStatistics.Some? && k in scoreStatistics.value
    ensures r.Some? ==> r.value == scoreStatistics.value[k]
  {
    if scoreStatistics.Some? && k in scoreStatistics.value then Some(scoreStatistics.value[k]) else None
  }

  /** Line 210: the misses of the given statistics, 0 when absent. */
  function GivenMisses(scoreStatistics: Option<Statistics>): (r: int)
    ensures scoreStatistics.None? ==> r == 0
    ensures scoreStatistics.Some? ==> r == CountOf(scoreStatistics.value, Miss)
  {
    if scoreStatistics.Some? then CountOf(scoreStatistics.value, Miss) else 0
  }

  /**
   * What the osu! estimator promises of the statistics `s` it made: one of
   * the four results per object; the Ok and Meh overrides as given, or else
   * the curves' estimate; and, unless the score is a stable Classic one, the
   * large tick misses and the slider tails left after the tail misses.
   */
  predicate OsuEstimated(beatmap: Beatmap, mods: seq<Mod>, accuracy: real, misses: int, largeTickMisses: int,
                         sliderTailMisses: int, oks: Option<int>, mehs: Option<int>, s: Statistics)
  {
    && Osu.HasJudgementCounts(s)
    && s[Great] + s[Ok] + s[Meh] + s[Miss] == |beatmap.hitObjects|
    && (ClassicWithoutSliderHeadAccuracy(mods) ==> s.Keys == {Great, Ok, Meh, Miss})
    && (!ClassicWithoutSliderHeadAccuracy(mods) ==>
          && s.Keys == {Great, Ok, Meh, Miss, LargeTickMiss, SliderTailHit}
          && s[LargeTickMiss] == largeTickMisses
          && s[SliderTailHit] == Osu.SliderCount(beatmap) - sliderTailMisses)
    && (mehs.Some? || oks.Some? ==> s[Ok] == oks.GetOr(0) && s[Meh] == mehs.GetOr(0) && s[Miss] == misses)
    && (mehs.None? && oks.None? ==>
          && Osu.RelevantAccuracyDefined(accuracy, |beatmap.hitObjects|, misses)
          && Osu.Judgements(s[Great], s[Ok], s[Meh], s[Miss])
               == Osu.EstimatedJudgements(|beatmap.hitObjects|, misses, accuracy))
  }

  /**
   * What the mania estimator promises of the statistics `s` it made: the six
   * judgements, one per mania judgement of the beatmap; the misses as given;
   * any override used as given; otherwise the greedy allocation of the points
   * the rounded target asks for, and all Perfects for a perfect play.
   */
  predicate ManiaEstimated(beatmap: Beatmap, mods: seq<Mod>, accuracy: real, misses: int, greats: Option<int>,
                           oks: Option<int>, goods: Option<int>, mehs: Option<int>, s: Statistics)
  {
    var n := Mania.TotalHits(beatmap, mods);
    var pv := Mania.PerfectValue(mods);
    var overridden := mehs.Some? || oks.Some? || goods.Some? || greats.Some?;
    && s.Keys == {Perfect, Great, Good, Ok, Meh, Miss}
    && s[Perfect] + s[Great] + s[Good] + s[Ok] + s[Meh] + s[Miss] == n
    && s[Miss] == misses
    && (overridden ==>
          && s[Great] == greats.GetOr(0) && s[Good] == goods.GetOr(0)
          && s[Ok] == oks.GetOr(0) && s[Meh] == mehs.GetOr(0))
    && (!overridden && 0 <= misses <= n ==>
          Mania.Greedy(Max(Mania.TargetTotal(accuracy, n, pv) - 10 * (n - misses), 0), n - misses, pv,
                       s[Perfect], s[Great], s[Good], s[Ok], s[Meh]))
    && (!overridden && accuracy == 1.0 && misses == 0 ==>
          s[Perfect] == n && s[Great] == 0 && s[Good] == 0 && s[Ok] == 0 && s[Meh] == 0)
    && (!overridden && misses > n ==>
          s[Perfect] == n - misses && s[Great] == 0 && s[Good] == 0 && s[Ok] == 0 && s[Meh] == 0)
  }

  /** What the estimator of the ruleset promises of the statistics `s` it synthesised; nothing does for an unknown id. */
  predicate Estimated(rulesetId: int, beatmap: Beatmap, mods: seq<Mod>, accuracy: real, misses: int,
                      largeTickMisses: Option<int>, sliderTailHits: Option<int>,
                      greats: Option<int>, oks: Option<int>, goods: Option<int>, mehs: Option<int>, s: Statistics)
  {
    if rulesetId == 0 then
      OsuEstimated(beatmap, mods, accuracy, misses, largeTickMisses.GetOr(0), sliderTailHits.GetOr(0), oks, mehs, s)
    else if rulesetId == 1 then s == Taiko.GenerateHitResults(beatmap, accuracy, misses, goods)
    else if rulesetId == 2 then s == Catch.GenerateHitResults(beatmap, accuracy, misses, mehs, goods)
    else if rulesetId == 3 then ManiaEstimated(beatmap, mods, accuracy, misses, greats, oks, goods, mehs, s)
    else false
  }

  /**
   * `CalculateScoreStatistics`: the estimator of the ruleset, each fed the
   * overrides it takes (osu!: Ok and Meh; taiko: Good; catch: Meh and Good;
   * mania: all four). The slider-tail hits go where osu! expects tail
   * misses. An id outside 0..3 is not implemented.
   *
   * osu! with no override and every object missed divides accuracy·n by 0.
   * When accuracy·n is positive (negative) that is +∞ (−∞), which the clamp
   * turns into 1 (0). When accuracy·n is 0, because the accuracy is 0 or the
   * beatmap has no objects, it is NaN, which the source rounds and casts to
   * int. That cast has no specified value, so that case is NonFinite here.
   */
  method CalculateScoreStatistics(rulesetId: int, beatmap: Beatmap, mods: seq<Mod>, accuracy: real, misses: int,
                                  largeTickMisses: Option<int>, sliderTailHits: Option<int>,
                                  greats: Option<int>, oks: Option<int>, goods: Option<int>, mehs: Option<int>)
    returns (r: Result<Statistics>)
    ensures rulesetId !in {0, 1, 2, 3} ==> r == Failure(NotImplemented)
    ensures rulesetId in {1, 2, 3} ==> r.Success?
    ensures rulesetId == 0 ==>
      (r.Success? <==> mehs.Some? || oks.Some? || Osu.RelevantAccuracyDefined(accuracy, |beatmap.hitObjects|, misses))
    ensures rulesetId == 0 && r.Failure? ==> r.error == NonFinite
    ensures r.Success? ==>
      Estimated(rulesetId, beatmap, mods, accuracy, misses, largeTickMisses, sliderTailHits, greats, oks, goods, mehs,
                r.value)
    ensures rulesetId == 3 && r.Success? ==> HitResultsCount(r.value) == Mania.TotalHits(beatmap, mods)
  {
    if rulesetId == 0 {
      if mehs.Some? || oks.Some? || Osu.RelevantAccuracyDefined(accuracy, |beatmap.hitObjects|, misses) {
        var s := Osu.GenerateHitResults(beatmap, mods, accuracy, oks, mehs, misses,
                                        largeTickMisses.GetOr(0), sliderTailHits.GetOr(0));
        r := Success(s);
      } else {
        r := Failure(NonFinite);
      }
    } else if rulesetId == 1 {
      r := Success(Taiko.GenerateHitResults(beatmap, accuracy, misses, goods));
    } else if rulesetId == 2 {
      r := Success(Catch.GenerateHitResults(beatmap, accuracy, misses, mehs, goods));
    } else if rulesetId == 3 {
      var s := Mania.GenerateHitResults(beatmap, mods, accuracy, misses, mehs, oks, goods, greats);
      r := Success(s);
    } else {
      r := Failure(NotImplemented);
    }
  }

  /** `CalculateAccuracy`: the forward accuracy formula of the ruleset. */
  function CalculateAccuracy(rulesetId: int, beatmap: Beatmap, mods: seq<Mod>, statistics: Statistics): (r: Result<real>)
    ensures rulesetId == 0 ==> r == Osu.GetAccuracy(beatmap, statistics)
    ensures rulesetId == 1 ==> r == Taiko.GetAccuracy(statistics)
    ensures rulesetId == 2 ==> r == Catch.GetAccuracy(statistics)
    ensures rulesetId == 3 ==> r == Mania.GetAccuracy(statistics, mods)
    ensures rulesetId !in {0, 1, 2, 3} ==> r == Failure(NotImplemented)
  {
    if rulesetId == 0 then Osu.GetAccuracy(beatmap, statistics)
    else if rulesetId == 1 then Taiko.GetAccuracy(statistics)
    else if rulesetId == 2 then Catch.GetAccuracy(statistics)
    else if rulesetId == 3 then Mania.GetAccuracy(statistics, mods)
    else Failure(NotImplemented)
  }

  /** The synthesised mania statistics count exactly the mania judgements of the beatmap. */
  lemma ManiaHitResultsCount(statistics: Statistics, beatmap: Beatmap, mods: seq<Mod>)
    requires statistics.Keys == {Perfect, Great, Good, Ok, Meh, Miss}
    requires statistics[Perfect] + statistics[Great] + statistics[Good] + statistics[Ok] + statistics[Meh]
             + statistics[Miss] == Mania.TotalHits(beatmap, mods)
    ensures HitResultsCount(statistics) == Mania.TotalHits(beatmap, mods)
  {
  }

  /** The synthesised statistics of a score and the accuracy they give, NaN included. */
  datatype Score = Score(statistics: Statistics, accuracy: Double)

  /** A CalculateAccuracy result as the double the source carries on with: a division by zero is NaN or an infinity. */
  function AccuracyValue(r: Result<real>): (d: Double)
    ensures d.Finite? <==> r.Success?
    ensures d.Finite? ==> d.value == r.value
  {
    if r.Success? then Finite(r.value) else NotFinite
  }

  /**
   * Lines 192-211: a score is synthesised when the accuracy is given, the
   * ruleset id is known and, for osu! without an Ok or Meh override, the
   * relevant accuracy is not NaN.
   */
  predicate Synthesisable(rulesetId: int, playable: Beatmap, accuracy: Option<real>, scoreStatistics: Option<Statistics>) {
    && accuracy.Some? && rulesetId in {0, 1, 2, 3}
    && (rulesetId == 0 ==>
          || Given(scoreStatistics, Meh).Some? || Given(scoreStatistics, Ok).Some?
          || Osu.RelevantAccuracyDefined(accuracy.value, |playable.hitObjects|, GivenMisses(scoreStatistics)))
  }

  /** Why a score that is not synthesisable fails, in the order the source meets the three conditions. */
  function ScoreError(rulesetId: int, accuracy: Option<real>): Error {
    if accuracy.None? then NullAccuracy else if rulesetId !in {0, 1, 2, 3} then NotImplemented else NonFinite
  }

  /**
   * Lines 192-219: the statistics the ruleset's estimator synthesised from
   * the given counts (the misses as 0 when absent, the slider-tail hits as
   * all slider tails when absent), and the accuracy they give. That accuracy
   * fails only by a division by zero, which the source carries on with as
   * NaN or an infinity.
   */
  predicate Synthesised(rulesetId: int, playable: Beatmap, mods: seq<Mod>, accuracy: real,
                        scoreStatistics: Option<Statistics>, score: Score)
  {
    var calculated := CalculateAccuracy(rulesetId, playable, mods, score.statistics);
    && Estimated(rulesetId, playable, mods, accuracy, GivenMisses(scoreStatistics), Given(scoreStatistics, LargeTickMiss),
                 Some(Given(scoreStatistics, SliderTailHit).GetOr(CountKind(playable.hitObjects, Slider))),
                 Given(scoreStatistics, Great), Given(scoreStatistics, Ok), Given(scoreStatistics, Good),
                 Given(scoreStatistics, Meh), score.statistics)
    && (calculated.Failure? ==> calculated.error == NonFinite)
    && score.accuracy == AccuracyValue(calculated)
  }

  /**
   * Lines 192-219: the overrides are read from the given statistics, the
   * accuracy must be given, then the statistics are synthesised and their
   * accuracy computed; a NaN accuracy does not stop the calculation.
   */
  method ScoreOf(rulesetId: int, playable: Beatmap, mods: seq<Mod>, accuracy: Option<real>,
                 scoreStatistics: Option<Statistics>)
    returns (r: Result<Score>)
    ensures r.Success? <==> Synthesisable(rulesetId, playable, accuracy, scoreStatistics)
    ensures r.Failure? ==> r.error == ScoreError(rulesetId, accuracy)
    ensures r.Success? ==> Synthesised(rulesetId, playable, mods, accuracy.value, scoreStatistics, r.value)
    ensures r.Success? && rulesetId == 3 ==> HitResultsCount(r.value.statistics) == Mania.TotalHits(playable, mods)
  {
    var beatmapSliderTails := CountKind(playable.hitObjects, Slider);
    var largeTickMisses := Given(scoreStatistics, LargeTickMiss);
    var sliderTailHits := Given(scoreStatistics, SliderTailHit);
    var greats := Given(scoreStatistics, Great);
    var oks := Given(scoreStatistics, Ok);
    var goods := Given(scoreStatistics, Good);
    var mehs := Given(scoreStatistics, Meh);
    if accuracy.None? {
      return Failure(NullAccuracy);
    }
    var statistics := CalculateScoreStatistics(rulesetId, playable, mods, accuracy.value, GivenMisses(scoreStatistics),
                                               largeTickMisses, Some(sliderTailHits.GetOr(beatmapSliderTails)),
                                               greats, oks, goods, mehs);
    if statistics.Failure? {
      return Failure(statistics.error);
    }
    var calculated := CalculateAccuracy(rulesetId, playable, mods, statistics.value);
    r := Success(Score(statistics.value, AccuracyValue(calculated)));
  }

  /** One map entry per key kept: nothing is removed or overwritten. */
  predicate Extends<V(==)>(older: map<DifficultyAttributesKey, V>, newer: map<DifficultyAttributesKey, V>) {
    forall k :: k in older ==> k in newer && newer[k] == older[k]
  }

  /** Storing a key that was absent keeps every entry: the maps only grow. */
  lemma StoringNewKeyExtends<V>(m: map<DifficultyAttributesKey, V>, key: DifficultyAttributesKey, v: V)
    requires key !in m
    ensures Extends(m, m[key := v])
    ensures m[key := v].Keys == m.Keys + {key}
  {
  }

  /** The three process-wide memo maps. */
  class MemoCaches {
    var workingBeatmaps: map<DifficultyAttributesKey, Beatmap>
    var playableBeatmaps: map<DifficultyAttributesKey, Beatmap>
    var difficultyAttributes: map<DifficultyAttributesKey, DifficultyAttributes>

    constructor()
      ensures workingBeatmaps == map[] && playableBeatmaps == map[] && difficultyAttributes == map[]
    {
      workingBeatmaps := map[];
      playableBeatmaps := map[];
      difficultyAttributes := map[];
    }

    /**
     * Lines 167-177: a stored working beatmap is returned without parsing;
     * otherwise the bytes are parsed and the beatmap stored unless `store`
     * is false (an osu! Random mod). A parse that fails stores nothing.
     */
    method WorkingBeatmap(key: DifficultyAttributesKey, bytes: seq<byte>, hitObjectsLimit: Option<int>,
                          decode: (int, seq<byte>) -> Result<Beatmap>, store: bool)
      returns (r: Result<Beatmap>)
      modifies this
      ensures key in old(workingBeatmaps) ==> r == Success(old(workingBeatmaps)[key])
      ensures key !in old(workingBeatmaps) ==> r == ParseBeatmap(bytes, hitObjectsLimit, decode)
      ensures workingBeatmaps ==
        if key !in old(workingBeatmaps) && store && r.Success? then old(workingBeatmaps)[key := r.value]
        else old(workingBeatmaps)
      ensures Extends(old(workingBeatmaps), workingBeatmaps)
      ensures playableBeatmaps == old(playableBeatmaps) && difficultyAttributes == old(difficultyAttributes)
    {
      if key in workingBeatmaps {
        r := Success(workingBeatmaps[key]);
      } else {
        r := ParseBeatmap(bytes, hitObjectsLimit, decode);
        if r.Success? && store {
          workingBeatmaps := workingBeatmaps[key := r.value];
        }
      }
    }

    /**
     * Lines 179-190: a stored playable beatmap is returned as it is;
     * otherwise it is made from the working beatmap and stored unless
     * `store` is false (any Random mod). A conversion that throws stores
     * nothing.
     */
    method PlayableBeatmap(key: DifficultyAttributesKey, working: Beatmap, ruleset: Ruleset, mods: seq<Mod>,
                           playable: (Beatmap, Ruleset, seq<Mod>) -> Result<Beatmap>, store: bool)
      returns (r: Result<Beatmap>)
      modifies this
      ensures key in old(playableBeatmaps) ==> r == Success(old(playableBeatmaps)[key])
      ensures key !in old(playableBeatmaps) ==> r == playable(working, ruleset, mods)
      ensures playableBeatmaps ==
        if key !in old(playableBeatmaps) && store && r.Success? then old(playableBeatmaps)[key := r.value]
        else old(playableBeatmaps)
      ensures Extends(old(playableBeatmaps), playableBeatmaps)
      ensures workingBeatmaps == old(workingBeatmaps) && difficultyAttributes == old(difficultyAttributes)
    {
      if key in playableBeatmaps {
        r := Success(playableBeatmaps[key]);
      } else {
        r := playable(working, ruleset, mods);
        if r.Success? && store {
          playableBeatmaps := playableBeatmaps[key := r.value];
        }
      }
    }

    /**
     * Lines 233-243: stored difficulty attributes are returned as they
     * are; otherwise they are calculated and stored unless `store` is false
     * (any Random mod). A calculation that throws stores nothing.
     */
    method Difficulty(key: DifficultyAttributesKey, working: Beatmap, ruleset: Ruleset, mods: seq<Mod>,
                      difficulty: (Ruleset, Beatmap, seq<Mod>) -> Result<DifficultyAttributes>, store: bool)
      returns (r: Result<DifficultyAttributes>)
      modifies this
      ensures key in old(difficultyAttributes) ==> r == Success(old(difficultyAttributes)[key])
      ensures key !in old(difficultyAttributes) ==> r == difficulty(ruleset, working, mods)
      ensures difficultyAttributes ==
        if key !in old(difficultyAttributes) && store && r.Success? then old(difficultyAttributes)[key := r.value]
        else old(difficultyAttributes)
      ensures Extends(old(difficultyAttributes), difficultyAttributes)
      ensures workingBeatmaps == old(workingBeatmaps) && playableBeatmaps == old(playableBeatmaps)
    {
      if key in difficultyAttributes {
        r := Success(difficultyAttributes[key]);
      } else {
        r := difficulty(ruleset, working, mods);
        if r.Success? && store {
          difficultyAttributes := difficultyAttributes[key := r.value];
        }
      }
    }
  }

  /** The working beatmap and the playable beatmap made from it for the ruleset and the mods. */
  datatype Loaded = Loaded(working: Beatmap, playable: Beatmap)

  /**
   * Lines 167-190 for a key in neither beatmap map: parse the beatmap,
   * store it unless an osu! Random mod is on, make the playable beatmap and
   * store it unless any Random mod is on. A playable beatmap that cannot be
   * made fails the request with the working beatmap already stored.
   */
  method LoadBeatmaps(caches: MemoCaches, key: DifficultyAttributesKey, bytes: seq<byte>, hitObjectsLimit: Option<int>,
                      lib: Library, ruleset: Ruleset, mods: seq<Mod>)
    returns (r: Result<Loaded>)
    requires key !in caches.workingBeatmaps && key !in caches.playableBeatmaps
    modifies caches
    ensures ParseBeatmap(bytes, hitObjectsLimit, lib.decode).Failure? ==>
      && r == Failure(ParseBeatmap(bytes, hitObjectsLimit, lib.decode).error)
      && caches.workingBeatmaps == old(caches.workingBeatmaps)
      && caches.playableBeatmaps == old(caches.playableBeatmaps)
    ensures ParseBeatmap(bytes, hitObjectsLimit, lib.decode).Success? ==>
      var working := ParseBeatmap(bytes, hitObjectsLimit, lib.decode).value;
      var playable := lib.playable(working, ruleset, mods);
      && caches.workingBeatmaps
           == (if AnyOsuModRandom(mods) then old(caches.workingBeatmaps) else old(caches.workingBeatmaps)[key := working])
      && (playable.Failure? ==>
            r == Failure(playable.error) && caches.playableBeatmaps == old(caches.playableBeatmaps))
      && (playable.Success? ==>
            && r == Success(Loaded(working, playable.value))
            && caches.playableBeatmaps
                 == (if AnyModRandom(mods) then old(caches.playableBeatmaps)
                     else old(caches.playableBeatmaps)[key := playable.value]))
    ensures caches.difficultyAttributes == old(caches.difficultyAttributes)
  {
    var working := caches.WorkingBeatmap(key, bytes, hitObjectsLimit, lib.decode, !AnyOsuModRandom(mods));
    if working.Failure? {
      return Failure(working.error);
    }
    var playable := caches.PlayableBeatmap(key, working.value, ruleset, mods, lib.playable, !AnyModRandom(mods));
    if playable.Failure? {
      return Failure(playable.error);
    }
    r := Success(Loaded(working.value, playable.value));
  }

  /** The key's mods in a new array, ordered by acronym (line 161). */
  method NewKey(beatmapId: int, hitObjectsLimit: Option<int>, mods: seq<Mod>) returns (key: DifficultyAttributesKey)
    ensures fresh(key.mods)
    ensures key.beatmapId == beatmapId && key.hitObjects == hitObjectsLimit
    ensures key.mods[..] == OrderByAcronym(mods)
  {
    var ordered := OrderByAcronym(mods);
    var modsArray := new Mod[|ordered|](i requires 0 <= i < |ordered| => ordered[i]);
    key := DifficultyAttributesKey(beatmapId, hitObjectsLimit, modsArray);
  }

  class PPCalculator {
    /** The process-wide memo maps, shared by every calculator. */
    const caches: MemoCaches
    /** `LastDifficultyAttributes`: the attributes of the last calculation that got as far as them. */
    var lastDifficultyAttributes: Option<DifficultyAttributes>

    constructor(caches: MemoCaches)
      ensures this.caches == caches && lastDifficultyAttributes == None
    {
      this.caches := caches;
      lastDifficultyAttributes := None;
    }

    /**
     * Lines 137-190: fetch the beatmap, check it and the score's pass,
     * build the key, then load the working and the playable beatmap through
     * their memo maps. The key's array is new, so it is in none of the maps
     * and both beatmaps are computed; each is stored unless a Random mod
     * forbids it.
     */
    method Prepare(lib: Library, beatmapId: int, passed: bool, scoreMods: Option<seq<Mod>>,
                   scoreStatistics: Option<Statistics>, rulesetId: int)
      returns (r: Result<Loaded>, key: DifficultyAttributesKey)
      modifies caches
      ensures !Admitted(lib, scoreStatistics, passed) ==>
        && r == Failure(if |FetchedBytes(lib)| <= ShortLength then TimeoutError else ImpossibleCase)
        && caches.workingBeatmaps == old(caches.workingBeatmaps)
        && caches.playableBeatmaps == old(caches.playableBeatmaps)
      ensures Admitted(lib, scoreStatistics, passed) ==>
        && key.beatmapId == beatmapId && key.hitObjects == HitObjectsLimit(scoreStatistics, passed).value
        && fresh(key.mods) && key.mods[..] == OrderByAcronym(scoreMods.GetOr([]))
        && key !in old(caches.workingBeatmaps) && key !in old(caches.playableBeatmaps)
        && key !in old(caches.difficultyAttributes)
      ensures Admitted(lib, scoreStatistics, passed) && ParseBeatmap(FetchedBytes(lib), key.hitObjects, lib.decode).Failure? ==>
        && r == Failure(ParseBeatmap(FetchedBytes(lib), key.hitObjects, lib.decode).error)
        && caches.workingBeatmaps == old(caches.workingBeatmaps)
        && caches.playableBeatmaps == old(caches.playableBeatmaps)
      ensures Admitted(lib, scoreStatistics, passed) && ParseBeatmap(FetchedBytes(lib), key.hitObjects, lib.decode).Success? ==>
        var mods := scoreMods.GetOr([]);
        var working := ParseBeatmap(FetchedBytes(lib), key.hitObjects, lib.decode).value;
        var playable := lib.playable(working, RulesetOf(rulesetId), mods);
        && caches.workingBeatmaps
             == (if AnyOsuModRandom(mods) then old(caches.workingBeatmaps) else old(caches.workingBeatmaps)[key := working])
        && (playable.Failure? ==>
              r == Failure(playable.error) && caches.playableBeatmaps == old(caches.playableBeatmaps))
        && (playable.Success? ==>
              && r == Success(Loaded(working, playable.value))
              && caches.playableBeatmaps
                   == (if AnyModRandom(mods) then old(caches.playableBeatmaps)
                       else old(caches.playableBeatmaps)[key := playable.value]))
      ensures r.Success? ==> Admitted(lib, scoreStatistics, passed)
      ensures caches.difficultyAttributes == old(caches.difficultyAttributes)
    {
      var noMods := new Mod[0];
      key := DifficultyAttributesKey(beatmapId, None, noMods);
      var mods := scoreMods.GetOr([]);

      var beatmapBytes, _, _ := GetBeatmapBytes(lib.fetch);
      if |beatmapBytes| <= ShortLength {
        return Failure(TimeoutError), key;
      }
      var hitObjectsLimit := HitObjectsLimit(scoreStatistics, passed);
      if hitObjectsLimit.Failure? {
        return Failure(hitObjectsLimit.error), key;
      }

      key := NewKey(beatmapId, hitObjectsLimit.value, mods);
      assert key !in caches.workingBeatmaps && key !in caches.playableBeatmaps;
      assert key !in caches.difficultyAttributes;
      r := LoadBeatmaps(caches, key, beatmapBytes, hitObjectsLimit.value, lib, RulesetOf(rulesetId), mods);
    }

    /**
     * Lines 221-259, once the score is synthesised: see `Evaluated`.
     */
    method Evaluate(lib: Library, key: DifficultyAttributesKey, ruleset: Ruleset, working: Beatmap, playable: Beatmap,
                    scoreInfo: ScoreInfo)
      returns (result: Result<PPCalculationResult>)
      requires key !in caches.difficultyAttributes
      modifies this, caches
      ensures Evaluated(lib, key, ruleset, working, playable, scoreInfo,
                        old(caches.difficultyAttributes), caches.difficultyAttributes,
                        old(lastDifficultyAttributes), lastDifficultyAttributes, result)
      ensures caches.workingBeatmaps == old(caches.workingBeatmaps)
      ensures caches.playableBeatmaps == old(caches.playableBeatmaps)
    {
      var difficultyAttributes := caches.Difficulty(key, working, ruleset, scoreInfo.mods, lib.difficulty,
                                                    !AnyModRandom(scoreInfo.mods));
      if difficultyAttributes.Failure? {
        return Failure(difficultyAttributes.error);
      }
      lastDifficultyAttributes := Some(difficultyAttributes.value);
      var pp := lib.performance(ruleset, scoreInfo, difficultyAttributes.value);
      if pp.Failure? {
        return Failure(pp.error);
      }
      result := Success(PPCalculationResult(pp.value, scoreInfo.accuracy, difficultyAttributes.value,
                                            MaxCombo(playable.hitObjects), |playable.hitObjects|,
                                            HitResultsCount(scoreInfo.statistics)));
    }

    /**
     * Lines 192-259 once both beatmaps are loaded: synthesise the score,
     * then evaluate it. A score that cannot be synthesised fails before the
     * difficulty attributes are looked at.
     */
    method Complete(lib: Library, key: DifficultyAttributesKey, rulesetId: int, accuracy: Option<real>,
                    scoreMaxCombo: Option<int>, mods: seq<Mod>, scoreStatistics: Option<Statistics>,
                    working: Beatmap, playable: Beatmap)
      returns (result: Result<PPCalculationResult>, score: Score)
      requires key !in caches.difficultyAttributes
      modifies this, caches
      ensures !Synthesisable(rulesetId, playable, accuracy, scoreStatistics) ==>
        && result == Failure(ScoreError(rulesetId, accuracy))
        && caches.difficultyAttributes == old(caches.difficultyAttributes)
        && lastDifficultyAttributes == old(lastDifficultyAttributes)
      ensures Synthesisable(rulesetId, playable, accuracy, scoreStatistics) ==>
        && Synthesised(rulesetId, playable, mods, accuracy.value, scoreStatistics, score)
        && Evaluated(lib, key, RulesetOf(rulesetId), working, playable,
                     ScoreInfo(score.accuracy, mods, scoreMaxCombo.GetOr(MaxCombo(playable.hitObjects)), score.statistics),
                     old(caches.difficultyAttributes), caches.difficultyAttributes,
                     old(lastDifficultyAttributes), lastDifficultyAttributes, result)
      ensures caches.workingBeatmaps == old(caches.workingBeatmaps)
      ensures caches.playableBeatmaps == old(caches.playableBeatmaps)
    {
      score := Score(map[], NotFinite);
      var synthesised := ScoreOf(rulesetId, playable, mods, accuracy, scoreStatistics);
      if synthesised.Failure? {
        return Failure(synthesised.error), score;
      }
      score := synthesised.value;
      var maxCombo := scoreMaxCombo.GetOr(MaxCombo(playable.hitObjects));
      var scoreInfo := ScoreInfo(score.accuracy, mods, maxCombo, score.statistics);
      result := Evaluate(lib, key, RulesetOf(rulesetId), working, playable, scoreInfo);
    }

    /**
     * `CalculatePpAsync`. The checks fail in the source's order: a beatmap
     * of at most 30 bytes, then statistics missing for a failed score, both
     * before any memo map is touched; then a beatmap that does not parse;
     * then a playable beatmap that cannot be made, after the working beatmap
     * has been stored; then a missing accuracy, an unknown ruleset id or a
     * NaN osu! estimate, after both beatmaps have been stored; then the
     * difficulty and the performance calculators.
     *
     * The key's array is new, so it is in none of the memo maps: each
     * request computes all three values, and stores each of them unless a
     * Random mod forbids it. The maps only grow.
     */
    method CalculatePp(lib: Library, beatmapId: int, accuracy: Option<real>, passed: bool,
                       scoreMaxCombo: Option<int>, scoreMods: Option<seq<Mod>>,
                       scoreStatistics: Option<Statistics>, rulesetId: int)
      returns (result: Result<PPCalculationResult>,
               key: DifficultyAttributesKey, working: Beatmap, playable: Beatmap, score: Score)
      modifies this, caches
      ensures |FetchedBytes(lib)| <= ShortLength ==> result == Failure(TimeoutError)
      ensures |FetchedBytes(lib)| > ShortLength && scoreStatistics.None? && !passed ==>
        result == Failure(ImpossibleCase)
      ensures !Admitted(lib, scoreStatistics, passed) ==>
        && caches.workingBeatmaps == old(caches.workingBeatmaps)
        && caches.playableBeatmaps == old(caches.playableBeatmaps)
        && caches.difficultyAttributes == old(caches.difficultyAttributes)
      // a Random mod keeps the maps it concerns as they were
      ensures AnyOsuModRandom(scoreMods.GetOr([])) ==> caches.workingBeatmaps == old(caches.workingBeatmaps)
      ensures AnyModRandom(scoreMods.GetOr([])) ==>
        caches.playableBeatmaps == old(caches.playableBeatmaps)
        && caches.difficultyAttributes == old(caches.difficultyAttributes)
      // the key, built once the checks before the memo maps pass, is in none of them
      ensures Admitted(lib, scoreStatistics, passed) ==>
        && key.beatmapId == beatmapId && key.hitObjects == HitObjectsLimit(scoreStatistics, passed).value
        && fresh(key.mods) && key.mods[..] == OrderByAcronym(scoreMods.GetOr([]))
        && key !in old(caches.workingBeatmaps) && key !in old(caches.playableBeatmaps)
        && key !in old(caches.difficultyAttributes)
      ensures Admitted(lib, scoreStatistics, passed) && ParseBeatmap(FetchedBytes(lib), key.hitObjects, lib.decode).Failure? ==>
        && result == Failure(ParseBeatmap(FetchedBytes(lib), key.hitObjects, lib.decode).error)
        && caches.workingBeatmaps == old(caches.workingBeatmaps)
        && caches.playableBeatmaps == old(caches.playableBeatmaps)
        && caches.difficultyAttributes == old(caches.difficultyAttributes)
      // the working beatmap is stored before the playable beatmap is made
      ensures Admitted(lib, scoreStatistics, passed) && ParseBeatmap(FetchedBytes(lib), key.hitObjects, lib.decode).Success? ==>
        var mods := scoreMods.GetOr([]);
        var parsed := ParseBeatmap(FetchedBytes(lib), key.hitObjects, lib.decode).value;
        var made := lib.playable(parsed, RulesetOf(rulesetId), mods);
        && (!AnyOsuModRandom(mods) ==> caches.workingBeatmaps == old(caches.workingBeatmaps)[key := parsed])
        && (made.Failure? ==>
              && result == Failure(made.error)
              && caches.playableBeatmaps == old(caches.playableBeatmaps)
              && caches.difficultyAttributes == old(caches.difficultyAttributes))
        && (made.Success? ==>
              && working == parsed && Success(playable) == made
              && (!AnyModRandom(mods) ==> caches.playableBeatmaps == old(caches.playableBeatmaps)[key := playable]))
      // both beatmaps are stored before the score is synthesised and evaluated
      ensures Reached(lib, scoreStatistics, passed, key, rulesetId, scoreMods, working, playable) ==>
        && (!Synthesisable(rulesetId, playable, accuracy, scoreStatistics) ==>
              && result == Failure(ScoreError(rulesetId, accuracy))
              && caches.difficultyAttributes == old(caches.difficultyAttributes))
        && (Synthesisable(rulesetId, playable, accuracy, scoreStatistics) ==>
              && Synthesised(rulesetId, playable, scoreMods.GetOr([]), accuracy.value, scoreStatistics, score)
              && Evaluated(lib, key, RulesetOf(rulesetId), working, playable,
                           ScoreInfo(score.accuracy, scoreMods.GetOr([]),
                                     scoreMaxCombo.GetOr(MaxCombo(playable.hitObjects)), score.statistics),
                           old(caches.difficultyAttributes), caches.difficultyAttributes,
                           old(lastDifficultyAttributes), lastDifficultyAttributes, result))
      // the last attributes change only once they have been calculated
      ensures !(Reached(lib, scoreStatistics, passed, key, rulesetId, scoreMods, working, playable)
                && Synthesisable(rulesetId, playable, accuracy, scoreStatistics)
                && lib.difficulty(RulesetOf(rulesetId), working, scoreMods.GetOr([])).Success?) ==>
        lastDifficultyAttributes == old(lastDifficultyAttributes)
      ensures result.Success? ==>
        && Reached(lib, scoreStatistics, passed, key, rulesetId, scoreMods, working, playable)
        && Synthesisable(rulesetId, playable, accuracy, scoreStatistics)
    {
      working, playable, score := Beatmap([]), Beatmap([]), Score(map[], NotFinite);
      var mods := scoreMods.GetOr([]);

      var beatmaps;
      beatmaps, key := Prepare(lib, beatmapId, passed, scoreMods, scoreStatistics, rulesetId);
      if beatmaps.Failure? {
        return Failure(beatmaps.error), key, working, playable, score;
      }
      working, playable := beatmaps.value.working, beatmaps.value.playable;
      result, score := Complete(lib, key, rulesetId, accuracy, scoreMaxCombo, mods, scoreStatistics, working, playable);
    }
  }

  /** The fetched beatmap is long enough and the score's statistics are consistent with its pass. */
  predicate Admitted(lib: Library, scoreStatistics: Option<Statistics>, passed: bool) {
    |FetchedBytes(lib)| > ShortLength && HitObjectsLimit(scoreStatistics, passed).Success?
  }

  /**
   * A request got past both beatmaps: it was admitted, `working` is the
   * beatmap parsed with the key's limit and `playable` the beatmap made from it.
   */
  predicate Reached(lib: Library, scoreStatistics: Option<Statistics>, passed: bool, key: DifficultyAttributesKey,
                    rulesetId: int, scoreMods: Option<seq<Mod>>, working: Beatmap, playable: Beatmap)
  {
    && Admitted(lib, scoreStatistics, passed)
    && Success(working) == ParseBeatmap(FetchedBytes(lib), key.hitObjects, lib.decode)
    && Success(playable) == lib.playable(working, RulesetOf(rulesetId), scoreMods.GetOr([]))
  }

  /**
   * Lines 221-259 as a relation between the state before and after: the
   * difficulty attributes are calculated from the working beatmap and stored
   * unless a Random mod is on, become the last attributes, and the
   * performance calculator runs on them. A difficulty calculation that
   * throws leaves the map and the last attributes as they were; a
   * performance calculation that throws does so after both were updated.
   */
  predicate Evaluated(lib: Library, key: DifficultyAttributesKey, ruleset: Ruleset, working: Beatmap, playable: Beatmap,
                      scoreInfo: ScoreInfo,
                      attributesBefore: map<DifficultyAttributesKey, DifficultyAttributes>,
                      attributesAfter: map<DifficultyAttributesKey, DifficultyAttributes>,
                      lastBefore: Option<DifficultyAttributes>, lastAfter: Option<DifficultyAttributes>,
                      result: Result<PPCalculationResult>)
  {
    var attributes := lib.difficulty(ruleset, working, scoreInfo.mods);
    && (attributes.Failure? ==>
          && result == Failure(attributes.error)
          && attributesAfter == attributesBefore && lastAfter == lastBefore)
    && (attributes.Success? ==>
          var pp := lib.performance(ruleset, scoreInfo, attributes.value);
          && lastAfter == Some(attributes.value)
          && attributesAfter
               == (if AnyModRandom(scoreInfo.mods) then attributesBefore else attributesBefore[key := attributes.value])
          && (pp.Failure? ==> result == Failure(pp.error))
          && (pp.Success? ==>
                result == Success(PPCalculationResult(pp.value, scoreInfo.accuracy, attributes.value,
                                                      MaxCombo(playable.hitObjects), |playable.hitObjects|,
                                                      HitResultsCount(scoreInfo.statistics)))))
  }

  /** The bytes the retry loop ends with. */
  function FetchedBytes(lib: Library): seq<byte> {
    Retrieve(lib.fetch, 1, 0, []).bytes
  }
}
