/**
 * Performance attributes: the four per-ruleset records a performance calculator writes and the
 * dataclasses they are decoded into. Nullable fields arrive as {hasValue, value} pairs.
 */
module PerformanceAttributesModel {
  import opened Wrappers
  import opened RulesetKinds
  import opened Native

  /** The NativeXPerformanceAttributes records, one variant per ruleset. */
  datatype NativePerformanceAttributes =
    | NativeOsuPerformance(
        total: Float, aim: Float, speed: Float, accuracy: Float, flashlight: Float,
        effectiveMissCount: Float,
        speedDeviation: NativeOptional<Float>,
        comboBasedEstimatedMissCount: Float,
        scoreBasedEstimatedMissCount: NativeOptional<Float>,
        aimEstimatedSliderBreaks: Float, speedEstimatedSliderBreaks: Float)
    | NativeTaikoPerformance(
        total: Float, difficulty: Float, accuracy: Float,
        estimatedUnstableRate: NativeOptional<Float>)
    | NativeCatchPerformance(total: Float)
    | NativeManiaPerformance(total: Float, difficulty: Float)

  /** OsuPerformanceAttributes, TaikoPerformanceAttributes, CatchPerformanceAttributes, ManiaPerformanceAttributes. */
  datatype PerformanceAttributes =
    | OsuPerformanceAttributes(
        total: Float, aim: Float, speed: Float, accuracy: Float, flashlight: Float,
        effectiveMissCount: Float,
        speedDeviation: Option<Float>,
        comboBasedEstimatedMissCount: Float,
        scoreBasedEstimatedMissCount: Option<Float>,
        aimEstimatedSliderBreaks: Float, speedEstimatedSliderBreaks: Float)
    | TaikoPerformanceAttributes(
        total: Float, difficulty: Float, accuracy: Float,
        estimatedUnstableRate: Option<Float>)
    | CatchPerformanceAttributes(total: Float)
    | ManiaPerformanceAttributes(total: Float, difficulty: Float)

  /** The ruleset a native record belongs to. */
  function NativeKind(n: NativePerformanceAttributes): RulesetKind {
    if n.NativeOsuPerformance? then Osu
    else if n.NativeTaikoPerformance? then Taiko
    else if n.NativeCatchPerformance? then Catch
    else Mania
  }

  /** The ruleset an attributes value belongs to. */
  function Kind(p: PerformanceAttributes): RulesetKind {
    if p.OsuPerformanceAttributes? then Osu
    else if p.TaikoPerformanceAttributes? then Taiko
    else if p.CatchPerformanceAttributes? then Catch
    else Mania
  }

  /**
   * The four from_native class methods. Each plain field is copied to the field of the same
   * name; each nullable field is None exactly when its hasValue flag is false, whatever the
   * payload, and the payload otherwise.
   */
  function FromNative(n: NativePerformanceAttributes): (p: PerformanceAttributes)
    ensures Kind(p) == NativeKind(n) && p.total == n.total
    ensures n.NativeOsuPerformance? ==> (p.OsuPerformanceAttributes?
      && p.aim == n.aim && p.speed == n.speed && p.accuracy == n.accuracy && p.flashlight == n.flashlight
      && p.effectiveMissCount == n.effectiveMissCount && p.comboBasedEstimatedMissCount == n.comboBasedEstimatedMissCount
      && p.aimEstimatedSliderBreaks == n.aimEstimatedSliderBreaks && p.speedEstimatedSliderBreaks == n.speedEstimatedSliderBreaks)
    ensures n.NativeTaikoPerformance? ==> (p.TaikoPerformanceAttributes?
      && p.difficulty == n.difficulty && p.accuracy == n.accuracy)
    ensures n.NativeManiaPerformance? ==> p.ManiaPerformanceAttributes? && p.difficulty == n.difficulty
    ensures n.NativeOsuPerformance? ==>
      (p.speedDeviation.None? <==> !n.speedDeviation.hasValue)
      && (p.speedDeviation.Some? ==> p.speedDeviation.value == n.speedDeviation.value)
      && (p.scoreBasedEstimatedMissCount.None? <==> !n.scoreBasedEstimatedMissCount.hasValue)
      && (p.scoreBasedEstimatedMissCount.Some? ==> p.scoreBasedEstimatedMissCount.value == n.scoreBasedEstimatedMissCount.value)
    ensures n.NativeTaikoPerformance? ==>
      (p.estimatedUnstableRate.None? <==> !n.estimatedUnstableRate.hasValue)
      && (p.estimatedUnstableRate.Some? ==> p.estimatedUnstableRate.value == n.estimatedUnstableRate.value)
  {
    if n.NativeOsuPerformance? then
      OsuPerformanceAttributes(
        n.total, n.aim, n.speed, n.accuracy, n.flashlight,
        n.effectiveMissCount,
        DecodeOptional(n.speedDeviation),
        n.comboBasedEstimatedMissCount,
        DecodeOptional(n.scoreBasedEstimatedMissCount),
        n.aimEstimatedSliderBreaks, n.speedEstimatedSliderBreaks)
    else if n.NativeTaikoPerformance? then
      TaikoPerformanceAttributes(n.total, n.difficulty, n.accuracy, DecodeOptional(n.estimatedUnstableRate))
    else if n.NativeCatchPerformance? then
      CatchPerformanceAttributes(n.total)
    else
      ManiaPerformanceAttributes(n.total, n.difficulty)
  }

  /**
   * The record that carries the given attributes, absent values with a zero payload. The
   * source never builds one: this is the reference inverse against which AttributesRoundTrip
   * states that from_native can produce every attributes value.
   */
  function ToNative(p: PerformanceAttributes): (n: NativePerformanceAttributes)
    ensures NativeKind(n) == Kind(p) && n.total == p.total
    ensures p.OsuPerformanceAttributes? ==> (n.NativeOsuPerformance?
      && n.aim == p.aim && n.speed == p.speed && n.accuracy == p.accuracy && n.flashlight == p.flashlight
      && n.effectiveMissCount == p.effectiveMissCount && n.comboBasedEstimatedMissCount == p.comboBasedEstimatedMissCount
      && n.aimEstimatedSliderBreaks == p.aimEstimatedSliderBreaks && n.speedEstimatedSliderBreaks == p.speedEstimatedSliderBreaks
      && n.speedDeviation == EncodeOptional(p.speedDeviation, 0.0)
      && n.scoreBasedEstimatedMissCount == EncodeOptional(p.scoreBasedEstimatedMissCount, 0.0))
    ensures p.TaikoPerformanceAttributes? ==> (n.NativeTaikoPerformance?
      && n.difficulty == p.difficulty && n.accuracy == p.accuracy
      && n.estimatedUnstableRate == EncodeOptional(p.estimatedUnstableRate, 0.0))
    ensures p.ManiaPerformanceAttributes? ==> n.NativeManiaPerformance? && n.difficulty == p.difficulty
  {
    if p.OsuPerformanceAttributes? then
      NativeOsuPerformance(
        p.total, p.aim, p.speed, p.accuracy, p.flashlight,
        p.effectiveMissCount,
        EncodeOptional(p.speedDeviation, 0.0),
        p.comboBasedEstimatedMissCount,
        EncodeOptional(p.scoreBasedEstimatedMissCount, 0.0),
        p.aimEstimatedSliderBreaks, p.speedEstimatedSliderBreaks)
    else if p.TaikoPerformanceAttributes? then
      NativeTaikoPerformance(p.total, p.difficulty, p.accuracy, EncodeOptional(p.estimatedUnstableRate, 0.0))
    else if p.CatchPerformanceAttributes? then
      NativeCatchPerformance(p.total)
    else
      NativeManiaPerformance(p.total, p.difficulty)
  }

  /** Every attributes value, the optionals included, is decoded from the record that carries it. */
  lemma AttributesRoundTrip(p: PerformanceAttributes)
    ensures FromNative(ToNative(p)) == p
  {
    if p.OsuPerformanceAttributes? {
      OptionalRoundTrip(p.speedDeviation, 0.0);
      OptionalRoundTrip(p.scoreBasedEstimatedMissCount, 0.0);
    } else if p.TaikoPerformanceAttributes? {
      OptionalRoundTrip(p.estimatedUnstableRate, 0.0);
    }
  }
}
