/**
 * How the components fit together: the spam engine's score feeds the final
 * decision, the classifier's verdict feeds the endpoint's classification,
 * and the language the speech recogniser names is one the endpoint accepts.
 */
module Pipeline {
  import opened Text
  import SpamEngine
  import FinalDecision
  import Predict
  import Transcribe
  import App

  /**
   * A manual spam phrase in the transcript makes the final verdict spam,
   * whatever the voice verdict and whatever intents are passed along.
   */
  lemma ManualPhraseForcesSpamVerdict(e: SpamEngine.SpamIntentEngine, text: string,
                                      voiceType: string, voiceConfidence: real, intents: seq<string>)
    requires SpamEngine.WeightsNonNegative(e.intents)
    requires e.ManualHit(e.Normalize(text))
    ensures FinalDecision.GetFinalVerdict(voiceType, voiceConfidence, e.ScoreTally(text).score, intents).finalLabel
            == FinalDecision.SpamVerdict
  {
    e.ManualOverride(text);
  }

  /**
   * The final decision is never milder than the engine's own label at the
   * top and bottom: an engine spam label gives a spam verdict, and a normal
   * verdict implies the engine's label was normal too.
   */
  lemma FinalAgreesWithEngine(score: real, matched: set<string>,
                              voiceType: string, voiceConfidence: real, intents: seq<string>)
    requires matched == set x | x in intents
    ensures SpamEngine.Label(score, matched) == SpamEngine.SpamLabel ==>
              FinalDecision.GetFinalVerdict(voiceType, voiceConfidence, score, intents).finalLabel == FinalDecision.SpamVerdict
    ensures FinalDecision.GetFinalVerdict(voiceType, voiceConfidence, score, intents).finalLabel == FinalDecision.NormalVerdict ==>
              SpamEngine.Label(score, matched) == SpamEngine.NormalLabel
  {
  }

  /**
   * The two labels can differ: a score of 0.65 with a single intent outside
   * both high-risk sets is suspicious for the engine (no corroboration) but
   * spam for the final decision.
   */
  lemma UncorroboratedScoreDisagrees()
    ensures SpamEngine.Label(0.65, {"SURVEY_SCAM"}) == SpamEngine.SuspiciousLabel
    ensures FinalDecision.LabelOf(0.65, {"SURVEY_SCAM"}) == FinalDecision.SpamVerdict
  {
    assert "SURVEY_SCAM" !in SpamEngine.ShortPhraseIntents;
    assert "SURVEY_SCAM" !in FinalDecision.HighRiskIntents;
  }

  /** A delivery scam at score 0 is normal for the engine but spam for the final decision. */
  lemma DeliveryScamDisagrees()
    ensures SpamEngine.Label(0.0, {"DELIVERY_SCAM"}) == SpamEngine.NormalLabel
    ensures FinalDecision.LabelOf(0.0, {"DELIVERY_SCAM"}) == FinalDecision.SpamVerdict
  {
    assert "DELIVERY_SCAM" in FinalDecision.HighRiskIntents;
  }

  /**
   * The classifier's verdict as the endpoint reports it: audio without
   * features is rejected, and with features the call is AI-generated
   * exactly when the AI probability reaches 0.6; the confidence is the
   * clamped probability of the reported class.
   */
  lemma VerdictToClassification(featuresPresent: bool, aiProba: real, humanProba: real)
    ensures var r := App.ClassifyVoice(Predict.DecideVoice(featuresPresent, aiProba, humanProba));
      && (r.Err? <==> !featuresPresent)
      && (r.Err? ==> r.error == App.InvalidAudio)
      && (r.Ok? ==> (r.value.classification == App.AiGenerated <==> aiProba >= 0.60))
      && (r.Ok? && aiProba >= 0.60 ==> r.value.confidence == FinalDecision.Clamp01(aiProba))
      && (r.Ok? && aiProba < 0.60 ==> r.value.confidence == FinalDecision.Clamp01(humanProba))
  {
    Predict.DecideVoiceCases(featuresPresent, aiProba, humanProba);
  }

  /** Every language the speech recogniser names, lower-cased, is one the endpoint supports. */
  lemma DetectedLanguageSupported(code: Option<string>)
    ensures Lower(Transcribe.LanguageName(code)) in App.SupportedLanguages
  {
    assert Lower("Tamil") == "tamil";
    assert Lower("English") == "english";
    assert Lower("Hindi") == "hindi";
    assert Lower("Malayalam") == "malayalam";
    assert Lower("Telugu") == "telugu";
  }
}
