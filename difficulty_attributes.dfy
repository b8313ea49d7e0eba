/**
 * Difficulty attributes: the four per-ruleset records a difficulty calculator writes, the
 * dataclasses they are decoded into, and the field-by-field re-encoding the performance
 * calculators send back to the native side.
 */
module DifficultyAttributesModel {
  import opened RulesetKinds
  import opened Native

  /** The NativeXDifficultyAttributes records, one variant per ruleset. */
  datatype NativeDifficultyAttributes =
    | NativeOsuDifficulty(
        starRating: Float, maxCombo: int,
        aimDifficulty: Float, aimDifficultSliderCount: Float, speedDifficulty: Float, speedNoteCount: Float,
        flashlightDifficulty: Float, sliderFactor: Float,
        aimTopWeightedSliderFactor: Float, speedTopWeightedSliderFactor: Float,
        aimDifficultStrainCount: Float, speedDifficultStrainCount: Float,
        nestedScorePerObject: Float, legacyScoreBaseMultiplier: Float, maximumLegacyComboScore: Float,
        drainRate: Float,
        hitCircleCount: int, sliderCount: int, spinnerCount: int)
    | NativeTaikoDifficulty(
        starRating: Float, maxCombo: int,
        mechanicalDifficulty: Float, rhythmDifficulty: Float, readingDifficulty: Float,
        colourDifficulty: Float, staminaDifficulty: Float, monoStaminaFactor: Float,
        consistencyFactor: Float, staminaTopStrains: Float)
    | NativeCatchDifficulty(starRating: Float, maxCombo: int)
    | NativeManiaDifficulty(starRating: Float, maxCombo: int)

  /** OsuDifficultyAttributes, TaikoDifficultyAttributes, CatchDifficultyAttributes, ManiaDifficultyAttributes. */
  datatype DifficultyAttributes =
    | OsuDifficultyAttributes(
        starRating: Float, maxCombo: int,
        aimDifficulty: Float, aimDifficultSliderCount: Float, speedDifficulty: Float, speedNoteCount: Float,
        flashlightDifficulty: Float, sliderFactor: Float,
        aimTopWeightedSliderFactor: Float, speedTopWeightedSliderFactor: Float,
        aimDifficultStrainCount: Float, speedDifficultStrainCount: Float,
        nestedScorePerObject: Float, legacyScoreBaseMultiplier: Float, maximumLegacyComboScore: Float,
        drainRate: Float,
        hitCircleCount: int, sliderCount: int, spinnerCount: int)
    | TaikoDifficultyAttributes(
        starRating: Float, maxCombo: int,
        mechanicalDifficulty: Float, rhythmDifficulty: Float, readingDifficulty: Float,
        colourDifficulty: Float, staminaDifficulty: Float, monoStaminaFactor: Float,
        consistencyFactor: Float, staminaTopStrains: Float)
    | CatchDifficultyAttributes(starRating: Float, maxCombo: int)
    | ManiaDifficultyAttributes(starRating: Float, maxCombo: int)

  /** The ruleset a native record belongs to. */
  function NativeKind(n: NativeDifficultyAttributes): RulesetKind {
    if n.NativeOsuDifficulty? then Osu
    else if n.NativeTaikoDifficulty? then Taiko
    else if n.NativeCatchDifficulty? then Catch
    else Mania
  }

  /** The ruleset an attributes value belongs to: its dataclass, as isinstance sees it. */
  function Kind(a: DifficultyAttributes): RulesetKind {
    if a.OsuDifficultyAttributes? then Osu
    else if a.TaikoDifficultyAttributes? then Taiko
    else if a.CatchDifficultyAttributes? then Catch
    else Mania
  }

  /**
   * The four from_native class methods: the variant of the record's own ruleset, with star
   * rating, max combo and, for osu! and taiko, every skill field and object count copied to
   * the field of the same name.
   */
  function FromNative(n: NativeDifficultyAttributes): (a: DifficultyAttributes)
    ensures Kind(a) == NativeKind(n)
    ensures a.starRating == n.starRating && a.maxCombo == n.maxCombo
    ensures n.NativeOsuDifficulty? ==> (a.OsuDifficultyAttributes?
      && a.aimDifficulty == n.aimDifficulty && a.aimDifficultSliderCount == n.aimDifficultSliderCount && a.speedDifficulty == n.speedDifficulty
      && a.speedNoteCount == n.speedNoteCount && a.flashlightDifficulty == n.flashlightDifficulty && a.sliderFactor == n.sliderFactor
      && a.aimTopWeightedSliderFactor == n.aimTopWeightedSliderFactor && a.speedTopWeightedSliderFactor == n.speedTopWeightedSliderFactor && a.aimDifficultStrainCount == n.aimDifficultStrainCount
      && a.speedDifficultStrainCount == n.speedDifficultStrainCount && a.nestedScorePerObject == n.nestedScorePerObject && a.legacyScoreBaseMultiplier == n.legacyScoreBaseMultiplier
      && a.maximumLegacyComboScore == n.maximumLegacyComboScore && a.drainRate == n.drainRate && a.hitCircleCount == n.hitCircleCount
      && a.sliderCount == n.sliderCount && a.spinnerCount == n.spinnerCount)
    ensures n.NativeTaikoDifficulty? ==> (a.TaikoDifficultyAttributes?
      && a.mechanicalDifficulty == n.mechanicalDifficulty && a.rhythmDifficulty == n.rhythmDifficulty && a.readingDifficulty == n.readingDifficulty
      && a.colourDifficulty == n.colourDifficulty && a.staminaDifficulty == n.staminaDifficulty && a.monoStaminaFactor == n.monoStaminaFactor
      && a.consistencyFactor == n.consistencyFactor && a.staminaTopStrains == n.staminaTopStrains)
  {
    if n.NativeOsuDifficulty? then
      OsuDifficultyAttributes(
        n.starRating, n.maxCombo, n.aimDifficulty, n.aimDifficultSliderCount,
        n.speedDifficulty, n.speedNoteCount, n.flashlightDifficulty, n.sliderFactor,
        n.aimTopWeightedSliderFactor, n.speedTopWeightedSliderFactor, n.aimDifficultStrainCount, n.speedDifficultStrainCount,
        n.nestedScorePerObject, n.legacyScoreBaseMultiplier, n.maximumLegacyComboScore, n.drainRate,
        n.hitCircleCount, n.sliderCount, n.spinnerCount)
    else if n.NativeTaikoDifficulty? then
      TaikoDifficultyAttributes(
        n.starRating, n.maxCombo, n.mechanicalDifficulty, n.rhythmDifficulty,
        n.readingDifficulty, n.colourDifficulty, n.staminaDifficulty, n.monoStaminaFactor,
        n.consistencyFactor, n.staminaTopStrains)
    else if n.NativeCatchDifficulty? then CatchDifficultyAttributes(n.starRating, n.maxCombo)
    else ManiaDifficultyAttributes(n.starRating, n.maxCombo)
  }

  /**
   * The native_diff record each performance calculator fills in, one assignment per field of
   * the attributes it was given.
   */
  function ToNative(a: DifficultyAttributes): (n: NativeDifficultyAttributes)
    ensures NativeKind(n) == Kind(a)
    ensures n.starRating == a.starRating && n.maxCombo == a.maxCombo
    ensures a.OsuDifficultyAttributes? ==> (n.NativeOsuDifficulty?
      && n.aimDifficulty == a.aimDifficulty && n.aimDifficultSliderCount == a.aimDifficultSliderCount && n.speedDifficulty == a.speedDifficulty
      && n.speedNoteCount == a.speedNoteCount && n.flashlightDifficulty == a.flashlightDifficulty && n.sliderFactor == a.sliderFactor
      && n.aimTopWeightedSliderFactor == a.aimTopWeightedSliderFactor && n.speedTopWeightedSliderFactor == a.speedTopWeightedSliderFactor && n.aimDifficultStrainCount == a.aimDifficultStrainCount
      && n.speedDifficultStrainCount == a.speedDifficultStrainCount && n.nestedScorePerObject == a.nestedScorePerObject && n.legacyScoreBaseMultiplier == a.legacyScoreBaseMultiplier
      && n.maximumLegacyComboScore == a.maximumLegacyComboScore && n.drainRate == a.drainRate && n.hitCircleCount == a.hitCircleCount
      && n.sliderCount == a.sliderCount && n.spinnerCount == a.spinnerCount)
    ensures a.TaikoDifficultyAttributes? ==> (n.NativeTaikoDifficulty?
      && n.mechanicalDifficulty == a.mechanicalDifficulty && n.rhythmDifficulty == a.rhythmDifficulty && n.readingDifficulty == a.readingDifficulty
      && n.colourDifficulty == a.colourDifficulty && n.staminaDifficulty == a.staminaDifficulty && n.monoStaminaFactor == a.monoStaminaFactor
      && n.consistencyFactor == a.consistencyFactor && n.staminaTopStrains == a.staminaTopStrains)
  {
    if a.OsuDifficultyAttributes? then
      NativeOsuDifficulty(
        a.starRating, a.maxCombo, a.aimDifficulty, a.aimDifficultSliderCount,
        a.speedDifficulty, a.speedNoteCount, a.flashlightDifficulty, a.sliderFactor,
        a.aimTopWeightedSliderFactor, a.speedTopWeightedSliderFactor, a.aimDifficultStrainCount, a.speedDifficultStrainCount,
        a.nestedScorePerObject, a.legacyScoreBaseMultiplier, a.maximumLegacyComboScore, a.drainRate,
        a.hitCircleCount, a.sliderCount, a.spinnerCount)
    else if a.TaikoDifficultyAttributes? then
      NativeTaikoDifficulty(
        a.starRating, a.maxCombo, a.mechanicalDifficulty, a.rhythmDifficulty,
        a.readingDifficulty, a.colourDifficulty, a.staminaDifficulty, a.monoStaminaFactor,
        a.consistencyFactor, a.staminaTopStrains)
    else if a.CatchDifficultyAttributes? then NativeCatchDifficulty(a.starRating, a.maxCombo)
    else NativeManiaDifficulty(a.starRating, a.maxCombo)
  }

  /** Decoding a record and re-encoding it reproduces every field of the record. */
  lemma NativeRoundTrip(n: NativeDifficultyAttributes)
    ensures ToNative(FromNative(n)) == n
  {
  }

  /** Re-encoding attributes and decoding the record gives back the same attributes. */
  lemma AttributesRoundTrip(a: DifficultyAttributes)
    ensures FromNative(ToNative(a)) == a
  {
  }
}
