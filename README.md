# SosuBot performance calculator, modelled in Dafny

This project models the core of SosuBot's osu! performance-points (pp)
calculator. A pp request names a beatmap, a ruleset, the score's mods, its
target accuracy and the judgement counts it already knows. The calculator
then:

- fetches the beatmap's bytes with a bounded retry loop;
- reads the format version from the file header and decodes the beatmap,
  cut to as many hit objects as a failed score reached;
- builds a memo key from the beatmap id, that hit-object limit and the
  mods ordered by acronym;
- looks up or computes the working beatmap, the playable beatmap and the
  difficulty attributes in three process-wide memo maps;
- synthesises the score's judgement statistics from the target accuracy
  (one estimator per ruleset: osu!, taiko, catch, mania);
- computes the accuracy those statistics really give and hands everything
  to the performance calculator.

The older stand-alone calculator's accuracy formula is modelled beside it.

Modules:

| module | file | models |
|---|---|---|
| `Numerics` | numerics.dfy | `Math.Round` (half to even), `Math.Clamp`, `Math.Min`/`Max`, C# integer division |
| `Game` | game.dfy | hit results, statistics maps, mods, hit objects, beatmaps, errors |
| `Wrappers` | wrappers.dfy | `Option` (C# nullable) |
| `Osu`, `Taiko`, `Catch`, `Mania` | accuracy_*.dfy | AccuracyTools.cs: each ruleset's `GenerateHitResults` and `GetAccuracy` |
| `BeatmapTools` | beatmap_tools.dfy | BeatmapTools.cs: `ParseBeatmap` and the `GetBeatmapBytes` retry loop |
| `DifficultyKey` | difficulty_key.dfy | Models/DifficultyAttributesKey.cs and the `OrderBy(m => m.Acronym)` of its mods |
| `Calculator` | pp_calculator.dfy | PPCalculator.cs: `CalculatePpAsync` and its helpers, the memo maps as a class |
| `LegacyCalculator` | legacy_calculator.dfy | perfomance-calc/PPCalculator.cs: the 300/100/50 accuracy |

Modelling decisions:

- `double` is `real`, and `int` is the unbounded `int`. `Math.Round` is
  round half to even. A missing dictionary key becomes `KeyNotFound(k)`,
  and an exception becomes a `Failure` carrying the matching `Error`.
- A `GetAccuracy` with a zero denominator returns `Failure(NonFinite)`
  where the source returns NaN or an infinity. That is no exception:
  `CalculatePpAsync` carries the value on into the `ScoreInfo` and the
  result. The calculator does the same with the `Double` value
  `NotFinite`, so such a score still reaches the difficulty and
  performance calculators.
- When every object is missed and no Ok or Meh count is given, the osu!
  estimator divides `accuracy · n` by 0. A positive `accuracy · n` gives
  +∞, which the clamp turns into 1. A negative one gives −∞, clamped to 0.
  Either way the estimate is all misses (`Osu.EstimatedJudgementsAllMisses`).
  When `accuracy · n` is 0, that is at accuracy 0 or on a beatmap with no
  objects, the quotient is NaN, and that case is `NonFinite` (see Left out).
- The memo key is a C# record with a `Mod[]` field, so its generated
  equality compares the array by reference. The Dafny key is a datatype
  with an `array<Mod>` field, which has the same equality. The key's array
  is new on every request, so no request ever finds an entry stored by an
  earlier one. `CalculatePp` proves that the key is in none of the three
  maps, so all three values are recomputed on every request. They are still
  stored unless a Random mod forbids it, which means the maps only grow.
  The record's `Equals(Mod[]?)` does compare contents. `OrderByAcronym`
  makes that comparison independent of the order in which the mods were
  given.
- `CalculatePpAsync` passes the score's slider-tail HITS (or, when none
  are given, the beatmap's slider count) into the osu! estimator's
  `sliderTailMisses` parameter. The osu! estimator then stores the slider
  count minus that value as `SliderTailHit`. The model does the same.
- The osu! library is a parameter, `Calculator.Library`. It holds the
  beatmap cache behind the fetch, the decoder, `GetPlayableBeatmap`, the
  difficulty calculator and the performance calculator, each as a function.
  The last four return a `Result`, since each may throw. A throwing
  `GetPlayableBeatmap` fails the request after the working beatmap was
  stored. A throwing performance calculator fails it after the difficulty
  attributes were stored and made the last ones.
- PPCalculator.cs and AccuracyTools.cs come from slightly different
  revisions. `CalculateAccuracy` passes the mods to osu!'s `GetAccuracy`,
  which takes none (line 304). It calls mania's `GetAccuracy` without the
  beatmap (line 307). It passes a nullable count where osu!'s estimator
  takes an `int` (line 289). In each case the model follows the callee's
  declared signature.

## Model

| member | source | states |
|---|---|---|
| Numerics.Round | AccuracyTools.cs:68 | `Math.Round`: the nearest integer, and the even one on a tie |
| Numerics.RoundUnique | AccuracyTools.cs:68 | any integer within 1/2 of x, even on a tie, is Round(x) |
| Numerics.RoundOfInt | AccuracyTools.cs:181 | rounding a whole number gives it back |
| Numerics.RoundMonotone | AccuracyTools.cs:68-69 | rounding preserves order, so a rounded estimate never overtakes a larger one |
| Numerics.RoundBetweenInts | AccuracyTools.cs:235 | a value between two integers rounds to an integer between them |
| Numerics.Clamp | AccuracyTools.cs:52 | `Math.Clamp`: the result lies in [lo, hi], equals x inside the range and the nearer bound outside it |
| Numerics.Min | AccuracyTools.cs:304 | `Math.Min`: the smaller argument |
| Numerics.Max | AccuracyTools.cs:301 | `Math.Max`: the larger argument |
| Numerics.Quot | AccuracyTools.cs:304 | C# integer division: for a non-negative dividend, the floor quotient q, with q·b ≤ a < (q+1)·b |
| Game.CountOf | PPCalculator.cs:273-278 | `GetValueOrDefault`: the stored count, or 0 for an absent key |
| Game.Count | AccuracyTools.cs:139 | counting matching objects never exceeds the number of objects |
| Game.CountKind | AccuracyTools.cs:139 | the number of objects of one kind is at most the number of objects |
| Osu.RelevantAccuracy | AccuracyTools.cs:45-52 | the relevant accuracy (over the non-missed objects) always lies in [0, 1]; with every object missed the ±∞ quotient is clamped to 1 when accuracy·objects is positive and to 0 when it is negative; accuracy·objects 0 (NaN) is excluded |
| Osu.RelevantAccuracyWithoutMisses | AccuracyTools.cs:45-52 | with no misses, an accuracy already in [0, 1] is the relevant accuracy |
| Osu.Ratio50To100 | AccuracyTools.cs:58 | the 50-to-100 ratio of the main curve is never negative |
| Osu.RatioAtCommentedPoints | AccuracyTools.cs:57-58 | the ratio is 0 at 100%, 1/9 at 75% and 4/9 at 50%, as the source comment promises |
| Osu.MainCurveAtFullAccuracy | AccuracyTools.cs:58-62 | at 100% the main curve estimates no 100s and no 50s |
| Osu.MainCurveFits | AccuracyTools.cs:60-65 | on the main curve the 100 estimate and the 100+50 estimate lie between 0 and the relevant count |
| Osu.MainCurveSolves | AccuracyTools.cs:60-62 | the 100 and 50 estimates solve the 6:2:1 accuracy equation exactly, before rounding |
| Osu.PointsCloseToAccuracy | AccuracyTools.cs:134-135 | counts whose 6:2:1 points are within 3 of the target give an accuracy within 1/(2n) of it |
| Osu.RoundPairFits | AccuracyTools.cs:68-69 | rounding two nested estimates within [0, n] keeps them nested within [0, n] |
| Osu.RoundedCountsClose | AccuracyTools.cs:66-71 | rounding an exact solution of the accuracy equation gives an accuracy within 1/(2n) of the target |
| Osu.FromEstimates | AccuracyTools.cs:66-71 | the rounded 100s and 50s plus the 300s left over account for every relevant object |
| Osu.MainCurve | AccuracyTools.cs:55-71 | the main curve's four counts add up to the relevant object count |
| Osu.MainCurveOfEstimates | AccuracyTools.cs:58-71 | the method's step-by-step estimates are exactly the main curve |
| Osu.NoGreatCurve | AccuracyTools.cs:73-87 | the no-300s curve's counts add up to the relevant object count |
| Osu.MehOnlyCurve | AccuracyTools.cs:88-103 | the only-50s curve's counts add up to the relevant object count |
| Osu.CurveJudgements | AccuracyTools.cs:54-103 | whichever curve the relevant accuracy selects, the counts add up to the relevant object count |
| Osu.EstimatedJudgements | AccuracyTools.cs:43-106 | the estimate plus the given misses accounts for every object of the beatmap |
| Osu.CurveJudgementsLowAccuracy | AccuracyTools.cs:73-103 | below 25% there are no 300s; below 1/6 also no 100s; from 1/6 up, no extra misses |
| Osu.NoGreatCurveFits | AccuracyTools.cs:76-80 | between 1/6 and 25% the 100 estimate lies between 0 and the relevant count |
| Osu.MehOnlyCurveFits | AccuracyTools.cs:92-97 | below 1/6 the 50 estimate lies between 0 and the relevant count |
| Osu.MainCurveNonNegative | AccuracyTools.cs:55-71 | from 25% up, no count of the main curve is negative |
| Osu.NoGreatCurveNonNegative | AccuracyTools.cs:73-87 | between 1/6 and 25%, no count of the no-300s curve is negative |
| Osu.MehOnlyCurveNonNegative | AccuracyTools.cs:88-103 | below 1/6, no count of the only-50s curve is negative |
| Osu.CurveJudgementsNonNegative | AccuracyTools.cs:54-103 | for any relevant accuracy in [0, 1], no estimated count is negative |
| Osu.MainCurveRoundTrip | AccuracyTools.cs:55-71 | the main curve's counts give back the target accuracy to within 1/(2n) |
| Osu.NoGreatCurveRoundTrip | AccuracyTools.cs:73-87 | the no-300s curve's counts give back the target accuracy to within 1/(2n) |
| Osu.MehOnlyCurveRoundTrip | AccuracyTools.cs:88-103 | the only-50s curve's counts give back the target accuracy to within 1/(2n) |
| Osu.CurveJudgementsRoundTrip | AccuracyTools.cs:54-103 | whatever the curve, the estimated counts give back the target accuracy to within 1/(2n) |
| Osu.EstimatedJudgementsNonNegative | AccuracyTools.cs:43-106 | with 0 ≤ misses < objects, every count is non-negative and the misses are at least those given |
| Osu.EstimatedJudgementsOfPerfectPlay | AccuracyTools.cs:43-106 | 100% with no misses is all 300s |
| Osu.EstimatedJudgementsRoundTrip | AccuracyTools.cs:43-106 | with no misses, the estimate's base accuracy is within 1/(2·objects) of the target |
| Osu.EstimatedJudgementsAllMisses | AccuracyTools.cs:43-106 | with every object missed and an accuracy other than 0, the estimate adds nothing: no 300s, 100s or 50s, and the misses as given |
| Osu.CurveJudgementsOfNone | AccuracyTools.cs:54-103 | no relevant objects get no judgements, whichever end of the clamp the relevant accuracy is at |
| Osu.EstimateOfOneAt40 | AccuracyTools.cs:55-71 | one object at 40% is estimated as one 50, whose accuracy is 1/6: the estimate can miss the target by more than 1/6 of an object |
| Osu.EstimateOfOneAt39 | AccuracyTools.cs:55-71 | one object at 39% is estimated as one 100, accuracy 1/3: a lower target gives a higher accuracy than 40%, so the estimate is not monotone |
| Osu.EstimateOnCurves | AccuracyTools.cs:54-103 | the loop-free branch code computes exactly the counts of the curve selected by the relevant accuracy |
| Osu.EstimateHitResults | AccuracyTools.cs:31-125 | the four judgements always, plus LargeTickMiss and SliderTailHit only when given; the counts sum to the object count; given 100s or 50s are used as they are and the accuracy is ignored; otherwise the counts are the curve estimate |
| Osu.GenerateHitResults | AccuracyTools.cs:20-29 | under Classic without slider-head accuracy only the four judgements, otherwise also the large-tick misses and the slider count minus the tail misses; the rest as for the estimator |
| Osu.GetAccuracy | AccuracyTools.cs:127-156 | a missing 300/100/50/miss entry fails with that key; zero full-score points is a division by zero (NaN); otherwise the accuracy times the full-score points is the earned points, with tail and large-tick bonuses |
| Osu.AccuracyOfJudgementsOnly | AccuracyTools.cs:134-135 | without tail and tick entries, the accuracy is the 6:2:1 formula |
| Osu.AccuracyInUnitInterval | AccuracyTools.cs:127-156 | with non-negative counts, tail hits at most the sliders and tick misses at most the ticks, the accuracy lies in [0, 1] |
| Osu.AccuracyOfPerfectPlay | AccuracyTools.cs:127-156 | only 300s, every tail hit and no tick missed is exactly 100% |
| Taiko.GenerateHitResults | AccuracyTools.cs:161-194 | keys 300/100/50/miss; 300s + 100s + misses is the max combo; no 50s; the given misses; a given 100 count is used as it is, otherwise 2·300s + 100s is the rounded target total |
| Taiko.GetAccuracy | AccuracyTools.cs:196-204 | a missing 300/100/miss entry fails with that key; no judged object is a division by zero; otherwise the accuracy times twice the judged count is 2·300s + 100s |
| Taiko.AccuracyOfEstimate | AccuracyTools.cs:179-203 | the estimate's accuracy is the rounded target over twice the max combo, within 1/(4·combo) of the target |
| Taiko.EstimateMonotone | AccuracyTools.cs:179-203 | without a 100 override, a higher target never gives the estimate a lower accuracy, whatever the misses |
| Taiko.TargetTotalMonotone | AccuracyTools.cs:181 | a higher accuracy never rounds to a lower target total |
| Taiko.TargetTotalClose | AccuracyTools.cs:181 | the rounded half-point target over twice the combo is within 1/(4·combo) of the accuracy |
| Taiko.GreatCanBeNegative | AccuracyTools.cs:181-186 | nothing clamps the 300s: one object at 0% gives -1 300s and 2 100s |
| Catch.MaxDropletsNonNegative | AccuracyTools.cs:219-223 | the large-droplet maximum (all droplets minus the tiny ones) is never negative |
| Catch.Estimate | AccuracyTools.cs:218-239 | fruits + droplets + misses is the number of fruits and droplets; tiny hits + tiny misses is the number of tiny droplets; given counts are used as they are; without a droplet count the droplets that are not missed are hit; without a tiny count the hits meet the rounded target |
| Catch.GenerateHitResults | AccuracyTools.cs:209-249 | the five catch results, with the same conservation laws and override cases as the estimate |
| Catch.GetAccuracy | AccuracyTools.cs:251-258 | each of the five missing entries fails with its key, in the source's order; no counted object is a division by zero; otherwise the accuracy times all objects is the caught objects |
| Catch.AccuracyOfEstimate | AccuracyTools.cs:235-257 | without a tiny count, the estimate's accuracy is the rounded target over all objects |
| Catch.AccuracyOfEstimateClose | AccuracyTools.cs:235-257 | when the max combo counts every fruit and droplet, the estimate's accuracy is within 1/(2n) of the target |
| Catch.EstimateMonotone | AccuracyTools.cs:235-257 | without a tiny-droplet override, a higher target never gives the estimate a lower accuracy, whatever the misses and the droplet override |
| Catch.TargetHitsMonotone | AccuracyTools.cs:235 | a higher accuracy never rounds to fewer target hits |
| Catch.RoundedShareClose | AccuracyTools.cs:235 | the rounded share of n is within 1/(2n) of the accuracy |
| Catch.FruitsCanBeNegative | AccuracyTools.cs:230-231 | more misses than objects makes the fruit count negative, as the source comment warns |
| Catch.TinyDropletsCanBeNegative | AccuracyTools.cs:235-236 | at 0% the tiny-droplet count can be negative; nothing clamps it |
| Mania.TotalHits | AccuracyTools.cs:273-275 | the object count under Classic, otherwise objects plus hold notes (each hold note's tail is judged) |
| Mania.Allocate | AccuracyTools.cs:298-323 | the five counts sum to the non-missed hits; with 0 ≤ misses ≤ hits each of Perfects, Greats, Goods and Oks is the most that fits in the raise the ones before it leave (`Greedy`, so the counts are determined), they are non-negative, their raise over the all-50s total never exceeds the target's, and 50s are left only when less than one 50's worth remains; a target of all Perfects gives all Perfects; more misses than hits gives negative Perfects and nothing else |
| Mania.Take | AccuracyTools.cs:304 | one greedy step: never more than remain or than the points owed pay for; everything when affordable; otherwise less than one step's worth is left owed |
| Mania.GenerateHitResults | AccuracyTools.cs:263-334 | the six mania results summing to the judged hits, with the given misses; given counts are used as they are, Perfects taking the rest; otherwise, with 0 ≤ misses ≤ judged hits, each count is the most that fits in the raise the ones before it leave (`Greedy`); more misses than judged hits gives the negative rest as Perfects and 0 for the others; 100% without misses is all Perfects |
| Mania.MostThatFitsUnique | AccuracyTools.cs:304-321 | each greedy step's count is determined: only one count is paid for and leaves less than one more step's worth owed |
| Mania.GreedyShortfall | AccuracyTools.cs:298-323 | when no more is owed than every hit a Perfect, the greedy counts leave less than 20 points of the raise unpaid |
| Mania.TargetTotalBetween | AccuracyTools.cs:296 | an accuracy between lo/pv and hi/pv rounds to a target between lo and hi points per hit |
| Mania.TargetTotalClose | AccuracyTools.cs:296 | the rounded target is within 1/2 of the accuracy's share of every hit a Perfect |
| Mania.PointsNearTarget | AccuracyTools.cs:296-323 | from 10/pv up, the greedy counts earn at most the target total and less than 20 points below it |
| Mania.ShareNearAccuracy | AccuracyTools.cs:296 | points less than 20 below the target, over every hit a Perfect, are within 20/(pv·n) of the accuracy |
| Mania.EstimateRoundTrip | AccuracyTools.cs:263-352 | with no overrides and no misses, a target from 10/pv up to 1 comes back from `GetAccuracy` within 20/(pv·n) |
| Mania.EstimateFloor | AccuracyTools.cs:296-323 | a target at most 10/pv gives every hit a Meh, whose accuracy is 10/pv: the estimate cannot go lower |
| Mania.PerfectTarget | AccuracyTools.cs:296 | at 100% the rounded target is every hit a Perfect |
| Mania.GetAccuracy | AccuracyTools.cs:336-352 | each missing entry fails with its key, in the source's order; no judged hit is a division by zero; otherwise the accuracy times the Perfect weight times the judged hits is the weighted sum |
| Mania.AccuracyIsPointsShare | AccuracyTools.cs:345-349 | the accuracy weights are five times the estimator's point values, so the accuracy is the points share the estimator aims at |
| Mania.AccuracyOfOnlyPerfects | AccuracyTools.cs:336-352 | only Perfects is exactly 100%, with or without Classic |
| BeatmapTools.FirstMatch | BeatmapTools.cs:26 | the first position from `from` where "v" is followed by a digit, or none when there is no such position |
| BeatmapTools.DigitRun | BeatmapTools.cs:26 | the longest run of digits starting at k: a slice of the text, all digits, and not followed by a digit |
| BeatmapTools.ParseInt | BeatmapTools.cs:26 | `int.Parse` of a digit run: an empty run is a format error, a value above int.MaxValue an overflow, otherwise the decimal value |
| BeatmapTools.VersionIn | BeatmapTools.cs:26 | a header without "v" followed by a digit is a format error |
| BeatmapTools.ReadVersion | BeatmapTools.cs:25-26 | fewer than 30 bytes is an out-of-range slice; otherwise the version is read from the first 30 bytes only |
| BeatmapTools.Take | BeatmapTools.cs:31 | `Take(limit)`: the first min(max(limit, 0), length) elements, in order |
| BeatmapTools.ParseBeatmap | BeatmapTools.cs:19-34 | a version error or a decoder error is passed on; otherwise the decoded beatmap with its hit objects cut to the limit when one is given |
| BeatmapTools.ShortInputFailsBeforeDecoding | BeatmapTools.cs:25 | fewer than 30 bytes fails before the decoder is called, whatever it would do |
| BeatmapTools.TruncationKeepsPrefix | BeatmapTools.cs:31 | a limited parse is the unlimited parse's hit objects cut to the limit |
| BeatmapTools.DecimalRoundTrip | BeatmapTools.cs:26 | the digits written for n are read back as n |
| BeatmapTools.DigitRunOf | BeatmapTools.cs:26 | a digit run laid out at k and ended by a non-digit is what the digit scan returns |
| BeatmapTools.VersionAt | BeatmapTools.cs:26 | with no "v" before position k, "v" and a digit run at k give the parsed run as the version |
| BeatmapTools.FirstLetterV | BeatmapTools.cs:26 | the first "v" followed by a digit is the regex match |
| BeatmapTools.NoEarlierMatch | BeatmapTools.cs:26 | a match with no match before it is the first match |
| BeatmapTools.VersionRoundTrip | BeatmapTools.cs:25-26 | a header "...v<n>" with no earlier "v" and n at most int.MaxValue reads back as version n |
| BeatmapTools.GetBeatmapBytes | BeatmapTools.cs:42-72 | the retry loop returns the bytes, attempts and fetch calls of the recursive retrieval from the first attempt |
| BeatmapTools.RetrieveBounded | BeatmapTools.cs:45-69 | the loop ends within the three attempts, calling the fetch at least once per attempt made and at most twice |
| BeatmapTools.CallsOfGetBeatmapBytes | BeatmapTools.cs:45-69 | a whole run makes 1 to 3 attempts and 1 to 6 fetch calls |
| BeatmapTools.LongFirstResult | BeatmapTools.cs:49-62 | a first fetch longer than 30 bytes is returned at once, after one call |
| BeatmapTools.ShortResultRefetchedOnce | BeatmapTools.cs:50-62 | a short result is fetched once more and that second result is returned, whatever its length |
| BeatmapTools.ThrowingRefetchKeepsShortResult | BeatmapTools.cs:59-68 | if the refetch throws, the short bytes are kept and the next attempt starts |
| BeatmapTools.AllCallsThrow | BeatmapTools.cs:44-71 | when every fetch throws, three attempts make three calls and return no bytes |
| BeatmapTools.RetrievedBytesWereFetched | BeatmapTools.cs:44-71 | the returned bytes are the initial empty bytes or the result of some call the loop made |
| DifficultyKey.DifficultyAttributesKey.Equals | Models/DifficultyAttributesKey.cs:8-12 | false for null; otherwise true exactly when the mods have the same length and are equal position by position |
| DifficultyKey.EqualsIgnoresIdAndLimit | Models/DifficultyAttributesKey.cs:11 | the beatmap id and the hit-object limit take no part in `Equals(Mod[]?)` |
| DifficultyKey.EqualsIsOrderSensitive | Models/DifficultyAttributesKey.cs:11 | the same two mods in the other order are not equal |
| DifficultyKey.KeysWithDifferentArraysDiffer | Models/DifficultyAttributesKey.cs:6 | the record's own equality: keys holding different arrays differ, whatever the arrays hold |
| DifficultyKey.InsertByAcronym | PPCalculator.cs:161 | inserting a mod adds exactly that mod and keeps the sequence sorted by acronym |
| DifficultyKey.OrderByAcronym | PPCalculator.cs:161 | the mods sorted by acronym, ordinal order: a permutation of the input |
| DifficultyKey.SortedOrderUnique | PPCalculator.cs:161 | when acronyms identify mods, two orderings by acronym of the same mods are identical |
| DifficultyKey.OrderByAcronymCanonical | PPCalculator.cs:161 | the same mods given in any order give the same ordered sequence |
| LegacyCalculator.CalculateAccuracy | perfomance-calc/PPCalculator.cs:114-123 | 1 with no hits; otherwise the accuracy times 300·hits is the 300/100/50 points |
| LegacyCalculator.AccuracyInUnitInterval | perfomance-calc/PPCalculator.cs:114-123 | non-negative counts give an accuracy in [0, 1] |
| LegacyCalculator.AccuracyOfOnlyGreats | perfomance-calc/PPCalculator.cs:119-122 | only 300s is 100% |
| LegacyCalculator.AgreesWithBaseAccuracy | perfomance-calc/PPCalculator.cs:119-122 | with at least one hit, the 300/100/50 formula is the osu! 6:2:1 formula |
| LegacyCalculator.LegacyStatistics | perfomance-calc/PPCalculator.cs:50-56 | the statistics map holds exactly the four counts under 300/100/50/miss |
| LegacyCalculator.AgreesWithOsuAccuracy | perfomance-calc/PPCalculator.cs:50-56 | with at least one hit, the legacy accuracy is the osu! accuracy of the statistics it builds, on any beatmap |
| LegacyCalculator.ZeroHitsDisagree | perfomance-calc/PPCalculator.cs:116-117 | with no hits, the legacy calculator says 100% while the osu! accuracy has no value |
| Calculator.HitResultsCountIgnoresOtherResults | PPCalculator.cs:271-280 | tick, bonus, tail and ignore entries do not change the hit-result count |
| Calculator.HitResultsCountCountsEachJudgement | PPCalculator.cs:271-280 | one more Miss/Meh/Ok/Good/Great/Perfect adds one to the count, present or not |
| Calculator.HitResultsCountOfNothing | PPCalculator.cs:271-280 | empty statistics count 0 |
| Calculator.HitObjectsLimit | PPCalculator.cs:149-159 | no statistics for a failed score is the impossible case; a failed score is limited to its judged count; a passed one has no limit |
| Calculator.RulesetOf | PPCalculator.cs:127-134 | ids 1, 2 and 3 are taiko, catch and mania; every other id is osu! |
| Calculator.Given | PPCalculator.cs:194-207 | `TryGetValue` on the optional statistics: a value exactly when the statistics exist and hold the key |
| Calculator.GivenMisses | PPCalculator.cs:210 | the given misses, 0 when absent or without statistics |
| Calculator.CalculateScoreStatistics | PPCalculator.cs:282-297 | dispatch to the ruleset's estimator with the overrides it takes; an unknown id is not implemented; the statistics meet everything the estimator promises (`Estimated`: osu!'s overrides and curve estimate, taiko's and catch's formulas, mania's greedy allocation); osu! fails only with every object missed, no override and accuracy·objects 0, that is accuracy 0 or no objects (NaN) |
| Calculator.CalculateAccuracy | PPCalculator.cs:299-310 | the accuracy formula of the ruleset; an unknown id is not implemented |
| Calculator.ManiaHitResultsCount | PPCalculator.cs:271-280 | for synthesised mania statistics the hit-result count is the beatmap's judged hits |
| Calculator.ScoreOf | PPCalculator.cs:192-219 | a score is synthesised exactly when the accuracy is given, the id is known and osu!'s relevant accuracy is not NaN, and otherwise fails with the first of those reasons; its statistics are the estimator's for the counts read from the given statistics (`Synthesised`), and its accuracy is theirs, NaN when the division is by zero |
| Calculator.StoringNewKeyExtends | PPCalculator.cs:174-176 | storing an absent key keeps every earlier entry and adds just that key |
| Calculator.MemoCaches.constructor | PPCalculator.cs:33-44 | the three memo maps start empty |
| Calculator.MemoCaches.WorkingBeatmap | PPCalculator.cs:167-177 | a stored working beatmap is returned as it is; otherwise the parse result, stored only when it succeeded and storing is allowed; the other maps are untouched |
| Calculator.MemoCaches.PlayableBeatmap | PPCalculator.cs:179-190 | a stored playable beatmap is returned; otherwise the library's result, stored when it succeeded and storing is allowed; the other maps are untouched |
| Calculator.MemoCaches.Difficulty | PPCalculator.cs:233-243 | stored attributes are returned; otherwise the calculator's result, stored when it succeeded and storing is allowed; the other maps are untouched |
| Calculator.LoadBeatmaps | PPCalculator.cs:167-190 | a failed parse stores nothing; otherwise the working beatmap is stored unless an osu! Random mod is on, even when the playable beatmap then cannot be made; a playable one that is made is stored unless any Random mod is on |
| Calculator.NewKey | PPCalculator.cs:161 | the key holds the id, the limit and a new array of the mods ordered by acronym |
| Calculator.PPCalculator.constructor | PPCalculator.cs:83 | a calculator starts with no last difficulty attributes |
| Calculator.PPCalculator.Prepare | PPCalculator.cs:137-190 | short bytes time out and an impossible score fails, both before the maps; otherwise the new key is in no map, and the beatmaps are parsed, made and stored as the Random mods allow, a failed conversion after the working beatmap was stored |
| Calculator.PPCalculator.Evaluate | PPCalculator.cs:221-259 | (`Evaluated`) a failed difficulty calculation changes nothing; otherwise the attributes are stored unless a Random mod is on and become the last attributes, and then the performance calculator's failure or pp is the result, with the score's accuracy and the playable beatmap's counts |
| Calculator.PPCalculator.Complete | PPCalculator.cs:192-259 | a score that cannot be synthesised fails before the difficulty map and the last attributes are touched; otherwise the synthesised score is evaluated with the given or beatmap max combo |
| Calculator.PPCalculator.CalculatePp | PPCalculator.cs:106-269 | the failures in the source's order, with the maps they leave alone; the key is in no map, so every value is recomputed and stored unless a Random mod forbids it; the synthesised statistics meet every estimator clause with the given counts substituted; a NaN accuracy is carried on; the last attributes change exactly when the difficulty attributes were calculated, before the performance calculator runs |

## Left out

- Floating point: `double` is an exact `real`. IEEE rounding of products and quotients is not modelled, so the 1/6 and 0.25 thresholds and `Math.Round` ties are exact.
- Integer width: C# `int` is unbounded here. `(int)` casts of a rounded `double`, and sums that would wrap at 32 bits, are not modelled.
- NaN and infinity: an accuracy that is NaN or infinite is the one value `NotFinite`. Which of the three it is, and what the performance calculator makes of it, is not modelled.
- Osu.EstimateHitResults: requires `mehs`, `goods` or `RelevantAccuracyDefined`. With every object missed, no override and accuracy·objects 0 (accuracy 0, or a beatmap with no objects), the relevant accuracy is 0/0 = NaN. The source then casts `Math.Round(NaN)` to `int`, which has no specified value in C#. `Calculator.CalculateScoreStatistics` reports that one case as `NonFinite`, and the request fails there.
- Osu.GenerateHitResults: has the same requirement as `Osu.EstimateHitResults`, for the same reason.
- Osu.EstimatedJudgements: has the same requirement, for the same reason.
- Osu.RelevantAccuracy: has the same requirement, for the same reason.
- Osu.EstimatedJudgementsRoundTrip: the bound proved is 1/(2·objects). A bound of 1/(6·objects) does not hold: one object at 40% comes out as one 50, accuracy 1/6 (`Osu.EstimateOfOneAt40`). The osu! estimate is not monotone in the target either (`Osu.EstimateOfOneAt39`).
- Mania.GenerateHitResults: that the estimate's accuracy grows with the target is not proved. The round trip within 20/(pv·n) is (`Mania.EstimateRoundTrip`), and so is the floor at 10/pv (`Mania.EstimateFloor`).
- `Math.Pow(x, 2)` is `x * x`.
- The osu! library is a parameter. Beatmap decoding, `GetPlayableBeatmap`, the difficulty and performance calculators, and the beatmap cache database behind the fetch are all functions passed in. Each of the four library calls returns a `Result`, so any of them may fail; why it fails is not modelled. BeatmapsCaching.cs and BeatmapsCacheDatabase.cs are not part of this model.
- The network, `Task.Delay` between attempts, the cancellation token, logging and concurrency (`ConcurrentDictionary`, async) are left out. The memo maps are updated one request at a time.
- Regex `\d` and `Encoding.Default`: the header is matched as bytes, with ASCII digits 0-9 only. Non-ASCII digits and the text decoding of bytes above 127 are not modelled.
- `OrderBy(m => m.Acronym)` is modelled as ordinal order, which agrees with the default string comparer on upper-case ASCII acronyms. `OrderBy` is stable. The model does not prove which of two mods with the same acronym comes first. When acronyms identify mods (`DifficultyKey.AcronymsIdentify`) there are no such ties, and the order is unique (`DifficultyKey.SortedOrderUnique`). Mods are compared as values. Mod settings and instance identity are not modelled beyond the acronym, family, ruleset and the Classic mod's NoSliderHeadAccuracy flag.
- Decoder exceptions are a `Failure` of the decoder's `Result`. `LoadedBeatmap` is the decoded `Beatmap` itself.
- The async `ParseBeatmap(int beatmapId)` overload is not modelled, since it only fetches and then parses. The legacy calculator's download and its `CalculatePP` orchestration are not modelled either; only its accuracy formula and statistics map are.
- The `_cache` switch is always on, so the memo maps are always consulted.
- Calculator.PPCalculator.CalculatePp: does not state `Extends` for the maps directly. It states each map's new value, from which growth follows. The `Extends` property itself is proved on the `MemoCaches` methods and `StoringNewKeyExtends`.
- `CalculateScoreStatistics` hands nullable large-tick misses to osu!'s `GenerateHitResults`, whose parameter is a plain `int` defaulting to 0. The model passes the value, or 0 when it is absent.
- A missing `accuracy` fails with `NullAccuracy`. The source's doc comment says the statistics would be used instead, but the code dereferences the value.
- `GetHashCode`, `ToString` and the `PPCalculationResult` record's other members are not modelled.
- The unused `beatmap` and `mods` parameters of the taiko and catch `GetAccuracy`, and the unused `beatmap` parameter of mania's, are dropped.
