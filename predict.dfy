/**
 * The voice verdict of `predict_audio`: the trained classifier's two class
 * probabilities are inputs here, and whether feature extraction succeeded
 * is a flag.
 */
module Predict {
  const AiThreshold: real := 0.80
  const AiLikelyThreshold: real := 0.60

  const AiLabel: string := "AI"
  const AiLikelyLabel: string := "AI_LIKELY"
  const HumanLabel: string := "HUMAN"
  const InvalidAudioLabel: string := "INVALID_AUDIO"

  /** `{"result": ..., "confidence": ...}` before the confidence is rounded. */
  datatype VoiceResult = VoiceResult(result: string, confidence: real)

  /** The threshold chain over the AI-class probability. */
  function DecideVoice(featuresPresent: bool, aiProba: real, humanProba: real): (r: VoiceResult)
    ensures r.result in {AiLabel, AiLikelyLabel, HumanLabel, InvalidAudioLabel}
  {
    if !featuresPresent then VoiceResult(InvalidAudioLabel, 0.0)
    else if aiProba >= AiThreshold then VoiceResult(AiLabel, aiProba)
    else if aiProba >= AiLikelyThreshold then VoiceResult(AiLikelyLabel, aiProba)
    else VoiceResult(HumanLabel, humanProba)
  }

  /**
   * Each label holds on exactly its own band of the AI probability, and the
   * confidence is the probability of the class the label names.
   */
  lemma DecideVoiceCases(featuresPresent: bool, aiProba: real, humanProba: real)
    ensures var r := DecideVoice(featuresPresent, aiProba, humanProba);
      && (r.result == InvalidAudioLabel <==> !featuresPresent)
      && (r.result == InvalidAudioLabel ==> r.confidence == 0.0)
      && (r.result == AiLabel <==> featuresPresent && aiProba >= 0.80)
      && (r.result == AiLikelyLabel <==> featuresPresent && 0.60 <= aiProba < 0.80)
      && (r.result == HumanLabel <==> featuresPresent && aiProba < 0.60)
      && (r.result in {AiLabel, AiLikelyLabel} ==> r.confidence == aiProba)
      && (r.result == HumanLabel ==> r.confidence == humanProba)
  {
  }

  /** A higher AI probability never moves the verdict towards HUMAN. */
  lemma DecideVoiceMonotone(a1: real, a2: real, h1: real, h2: real)
    requires a1 <= a2
    ensures DecideVoice(true, a1, h1).result == AiLabel ==> DecideVoice(true, a2, h2).result == AiLabel
    ensures DecideVoice(true, a2, h2).result == HumanLabel ==> DecideVoice(true, a1, h1).result == HumanLabel
  {
  }
}
