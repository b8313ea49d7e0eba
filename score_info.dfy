/**
 * ScoreInfo: the play a performance calculation is about, and its marshaling into the
 * NativeScoreInfo record together with the ruleset, beatmap and mods handles.
 */
module ScoreInfos {
  import opened Wrappers
  import opened Native

  datatype ScoreInfo = ScoreInfo(
    maxCombo: int,
    accuracy: Float,
    countMiss: int, countMeh: int, countOk: int, countGood: int,
    countGreat: int, countPerfect: int, countSliderTailHit: int, countLargeTickMiss: int,
    legacyTotalScore: Option<int>)

  /** The record the performance calculators pass by value. */
  datatype NativeScoreInfo = NativeScoreInfo(
    rulesetHandle: Handle, beatmapHandle: Handle, modsHandle: Handle,
    maxCombo: int,
    accuracy: Float,
    legacyTotalScore: NativeOptional<int>,
    countMiss: int, countMeh: int, countOk: int, countGood: int,
    countGreat: int, countPerfect: int, countSliderTailHit: int, countLargeTickMiss: int)

  /** `ScoreInfo()`: the dataclass defaults, a perfect play with nothing recorded. */
  function Default(): (s: ScoreInfo)
    ensures s.maxCombo == 0 && s.accuracy == 1.0 && s.legacyTotalScore == None
    ensures s.countMiss == s.countMeh == s.countOk == s.countGood == 0
    ensures s.countGreat == s.countPerfect == s.countSliderTailHit == s.countLargeTickMiss == 0
  {
    ScoreInfo(0, 1.0, 0, 0, 0, 0, 0, 0, 0, 0, None)
  }

  /**
   * to_native: the three handles by value, max combo, accuracy and each of the eight counts
   * copied to the field of the same name, and the legacy total score as the tagged optional
   * (absent: hasValue false with payload 0).
   */
  function ToNative(s: ScoreInfo, rulesetHandle: Handle, beatmapHandle: Handle, modsHandle: Handle): (n: NativeScoreInfo)
    ensures n.rulesetHandle == rulesetHandle && n.beatmapHandle == beatmapHandle && n.modsHandle == modsHandle
    ensures n.maxCombo == s.maxCombo && n.accuracy == s.accuracy
    ensures n.countMiss == s.countMiss && n.countMeh == s.countMeh && n.countOk == s.countOk && n.countGood == s.countGood
    ensures n.countGreat == s.countGreat && n.countPerfect == s.countPerfect
    ensures n.countSliderTailHit == s.countSliderTailHit && n.countLargeTickMiss == s.countLargeTickMiss
    ensures n.legacyTotalScore.hasValue <==> s.legacyTotalScore.Some?
    ensures n.legacyTotalScore.value == if s.legacyTotalScore.Some? then s.legacyTotalScore.value else 0
  {
    NativeScoreInfo(
      rulesetHandle, beatmapHandle, modsHandle,
      s.maxCombo, s.accuracy,
      EncodeOptional(s.legacyTotalScore, 0),
      s.countMiss, s.countMeh, s.countOk, s.countGood,
      s.countGreat, s.countPerfect, s.countSliderTailHit, s.countLargeTickMiss)
  }

  /**
   * The reverse reading of the record's score part, which the source never performs: a
   * reference inverse against which ScoreRoundTrip and ToNativeOfFromNative state that
   * to_native loses nothing.
   */
  function FromNative(n: NativeScoreInfo): (s: ScoreInfo)
    ensures s.maxCombo == n.maxCombo && s.accuracy == n.accuracy
    ensures s.countMiss == n.countMiss && s.countMeh == n.countMeh && s.countOk == n.countOk && s.countGood == n.countGood
    ensures s.countGreat == n.countGreat && s.countPerfect == n.countPerfect
    ensures s.countSliderTailHit == n.countSliderTailHit && s.countLargeTickMiss == n.countLargeTickMiss
    ensures s.legacyTotalScore == DecodeOptional(n.legacyTotalScore)
  {
    ScoreInfo(
      n.maxCombo, n.accuracy,
      n.countMiss, n.countMeh, n.countOk, n.countGood,
      n.countGreat, n.countPerfect, n.countSliderTailHit, n.countLargeTickMiss,
      DecodeOptional(n.legacyTotalScore))
  }

  /** Round trip: every field of the score, the optional included, survives marshaling, whatever the handles. */
  lemma ScoreRoundTrip(s: ScoreInfo, rulesetHandle: Handle, beatmapHandle: Handle, modsHandle: Handle)
    ensures FromNative(ToNative(s, rulesetHandle, beatmapHandle, modsHandle)) == s
  {
    OptionalRoundTrip(s.legacyTotalScore, 0);
  }

  /** The record is canonical: a native score with the three given handles and a zero absent payload comes from exactly one ScoreInfo. */
  lemma ToNativeOfFromNative(n: NativeScoreInfo)
    requires !n.legacyTotalScore.hasValue ==> n.legacyTotalScore.value == 0
    ensures ToNative(FromNative(n), n.rulesetHandle, n.beatmapHandle, n.modsHandle) == n
  {
  }
}
