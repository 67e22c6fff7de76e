module Wrappers {
  datatype Option<T> = None | Some(value: T)
}

/** The rule-based classifier classify_emotion, applied to ratios that have
    already been measured on a face. */
module Classifier {
  import opened Wrappers
  import opened EmotionClasses

  /** Mouth height over width, and each eye's height over width. */
  datatype Measurements = Measurements(mouthRatio: real, leftEyeRatio: real, rightEyeRatio: real)

  /** Above this mouth ratio the mouth counts as open (a smile). */
  const OpenMouthRatio: real := 0.5
  /** Below this eye ratio an eye counts as nearly closed. */
  const ClosedEyeRatio: real := 0.2

  predicate MouthOpen(m: Measurements) {
    m.mouthRatio > OpenMouthRatio
  }

  predicate EyesClosed(m: Measurements) {
    m.leftEyeRatio < ClosedEyeRatio && m.rightEyeRatio < ClosedEyeRatio
  }

  /** First matching rule wins: no measurement gives UNTAGGED, an open mouth HAPPY,
      two nearly closed eyes SAD, anything else NEUTRAL. */
  function ClassifyEmotion(measurements: Option<Measurements>): (c: int)
    ensures IsClass(c)
    ensures c == UNTAGGED <==> measurements.None?
    ensures measurements.Some? ==> (c == HAPPY <==> MouthOpen(measurements.value))
    ensures measurements.Some? ==>
              (c == SAD <==> !MouthOpen(measurements.value) && EyesClosed(measurements.value))
  {
    match measurements
    case None => UNTAGGED
    case Some(m) =>
      if m.mouthRatio > OpenMouthRatio then HAPPY
      else if m.leftEyeRatio < ClosedEyeRatio && m.rightEyeRatio < ClosedEyeRatio then SAD
      else NEUTRAL
  }

  /** The rule-order example: mouth 0.6 with both eyes at 0.1 is HAPPY (the mouth
      cue is checked first), while the same eyes with the mouth at the threshold
      are SAD. */
  lemma OpenMouthWithClosedEyesIsHappy()
    ensures ClassifyEmotion(Some(Measurements(0.6, 0.1, 0.1))) == HAPPY
    ensures ClassifyEmotion(Some(Measurements(OpenMouthRatio, 0.1, 0.1))) == SAD
  {
  }

  /** The thresholds are strict: a mouth ratio equal to OpenMouthRatio is not an
      open mouth, and an eye ratio equal to ClosedEyeRatio is not a closed eye. */
  lemma ThresholdsAreStrict(left: real, right: real)
    ensures ClassifyEmotion(Some(Measurements(OpenMouthRatio, ClosedEyeRatio, right))) == NEUTRAL
    ensures ClassifyEmotion(Some(Measurements(OpenMouthRatio, left, ClosedEyeRatio))) == NEUTRAL
  {
  }
}
