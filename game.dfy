/**
 * The osu! game types the calculator works on: hit results and statistics,
 * mods, rulesets, and a beatmap as a sequence of hit objects with the kinds
 * of their nested objects. The beatmap decoder and the rulesets' own
 * judgement rules live in the osu! library; a hit object carries only what
 * the calculator reads of it.
 */
module Game {
  import opened Wrappers

  /** The judgement categories (osu.Game.Rulesets.Scoring.HitResult) the calculator names. */
  datatype HitResult =
    | Miss | Meh | Ok | Good | Great | Perfect
    | SmallTickMiss | SmallTickHit | LargeTickMiss | LargeTickHit
    | SliderTailHit | SmallBonus | LargeBonus | IgnoreMiss | IgnoreHit | ComboBreak

  /** A score's statistics: a count per hit result. */
  type Statistics = map<HitResult, int>

  /** `statistics.TryGetValue(k, out v)` with `v` left at its default 0 when absent. */
  function CountOf(stats: Statistics, k: HitResult): (r: int)
    ensures k in stats ==> r == stats[k]
    ensures k !in stats ==> r == 0
  {
    if k in stats then stats[k] else 0
  }

  /** Everything that can end a computation early. */
  datatype Error =
    | KeyNotFound(key: HitResult)   // the dictionary indexer on an absent key
    | NonFinite                     // a double division by zero (NaN or infinity)
    | NotImplemented                // a ruleset id outside 0..3
    | SliceOutOfRange               // bytes[..30] on a shorter array
    | FormatError                   // int.Parse of a string that is not a number
    | OverflowError                 // int.Parse of a number above int.MaxValue
    | TimeoutError                  // "Failed to cache a beatmap"
    | ImpossibleCase                // no statistics for a score that did not pass
    | NullAccuracy                  // accuracy!.Value on a null accuracy

  datatype Result<+T> = Success(value: T) | Failure(error: Error)

  /**
   * A double that may have come out of a division by zero: a finite value,
   * or NaN or an infinity, which the calculator passes on without looking at
   * which of the three it is.
   */
  datatype Double = Finite(value: real) | NotFinite

  /** The four rulesets; a ruleset id is 0, 1, 2 or 3 in this order. */
  datatype Ruleset = OsuRuleset | TaikoRuleset | CatchRuleset | ManiaRuleset

  /** The mod classes the calculator tests for with `is`. */
  datatype ModFamily = ClassicFamily | RandomFamily | OtherFamily

  /**
   * A mod: its acronym, its family, the ruleset it belongs to and, for the
   * osu! Classic mod, its NoSliderHeadAccuracy setting.
   */
  datatype Mod = Mod(acronym: string, family: ModFamily, ruleset: Ruleset, noSliderHeadAccuracy: bool)

  /** `m is ModClassic` (any ruleset's Classic mod). */
  predicate IsModClassic(m: Mod) { m.family == ClassicFamily }

  /** `m is ModRandom` (any ruleset's Random mod). */
  predicate IsModRandom(m: Mod) { m.family == RandomFamily }

  /** `m is OsuModRandom`. */
  predicate IsOsuModRandom(m: Mod) { m.family == RandomFamily && m.ruleset == OsuRuleset }

  /** `m is OsuModClassic`. */
  predicate IsOsuModClassic(m: Mod) { m.family == ClassicFamily && m.ruleset == OsuRuleset }

  predicate AnyModClassic(mods: seq<Mod>) { exists i | 0 <= i < |mods| :: IsModClassic(mods[i]) }

  predicate AnyModRandom(mods: seq<Mod>) { exists i | 0 <= i < |mods| :: IsModRandom(mods[i]) }

  predicate AnyOsuModRandom(mods: seq<Mod>) { exists i | 0 <= i < |mods| :: IsOsuModRandom(mods[i]) }

  /** `mods.OfType<OsuModClassic>().Any(m => m.NoSliderHeadAccuracy.Value)`. */
  predicate ClassicWithoutSliderHeadAccuracy(mods: seq<Mod>) {
    exists i | 0 <= i < |mods| :: IsOsuModClassic(mods[i]) && mods[i].noSliderHeadAccuracy
  }

  /** The classes of hit objects and nested hit objects of the four rulesets. */
  datatype ObjectKind =
    | HitCircle | Slider | SliderHeadCircle | SliderTick | SliderRepeat | SliderTailCircle | Spinner
    | Fruit | JuiceStream | Droplet | TinyDroplet | BananaShower | Banana
    | Note | HoldNote | HeadNote | TailNote
    | DrumHit | DrumRoll | DrumRollTick | Swell | SwellTick

  /** `k is Droplet`: in osu! TinyDroplet derives from Droplet, so both kinds are droplets. */
  predicate IsDroplet(k: ObjectKind) { k == Droplet || k == TinyDroplet }

  /** `k is TinyDroplet`. */
  predicate IsTinyDroplet(k: ObjectKind) { k == TinyDroplet }

  /** `k is SliderTick or SliderRepeat`: the large ticks of a slider. */
  predicate IsLargeTick(k: ObjectKind) { k == SliderTick || k == SliderRepeat }

  /** `k is Fruit`. */
  predicate IsFruit(k: ObjectKind) { k == Fruit }

  /**
   * A hit object: its class, the classes of its nested hit objects in order,
   * and how much it and its nested objects add to the beatmap's maximum combo
   * (the osu! library's judgement rules decide that).
   */
  datatype HitObject = HitObject(kind: ObjectKind, nested: seq<ObjectKind>, combo: nat)

  /** A decoded beatmap (IBeatmap): its hit objects in order. */
  datatype Beatmap = Beatmap(hitObjects: seq<HitObject>)

  /** `xs.Count(p)`. */
  function Count<T>(xs: seq<T>, p: T -> bool): (r: nat)
    ensures r <= |xs|
  {
    if xs == [] then 0 else (if p(xs[0]) then 1 else 0) + Count(xs[1..], p)
  }

  /** IBeatmap.GetMaxCombo(): the sum of each hit object's contribution. */
  function MaxCombo(objs: seq<HitObject>): nat {
    if objs == [] then 0 else objs[0].combo + MaxCombo(objs[1..])
  }

  /** `beatmap.HitObjects.Count(x => x is K)`. */
  function CountKind(objs: seq<HitObject>, k: ObjectKind): (r: nat)
    ensures r <= |objs|
  {
    if objs == [] then 0 else (if objs[0].kind == k then 1 else 0) + CountKind(objs[1..], k)
  }

  /** `beatmap.HitObjects.Sum(obj => obj.NestedHitObjects.Count(p))`. */
  function SumNested(objs: seq<HitObject>, p: ObjectKind -> bool): nat {
    if objs == [] then 0 else Count(objs[0].nested, p) + SumNested(objs[1..], p)
  }

  /** `beatmap.HitObjects.OfType<K>().Sum(s => s.NestedHitObjects.Count(p))`. */
  function SumNestedOf(objs: seq<HitObject>, k: ObjectKind, p: ObjectKind -> bool): nat {
    if objs == [] then 0
    else (if objs[0].kind == k then Count(objs[0].nested, p) else 0) + SumNestedOf(objs[1..], k, p)
  }
}
