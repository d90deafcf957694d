/**
 * Decision fusion: combines the voice verdict with the spam-intent score
 * and matched intents into the final call label. The label depends only on
 * the clamped score and the intents; the voice verdict is passed through.
 */
module FinalDecision {
  import opened Text
  import opened Sorting

  /**
   * Intents that never allow a normal verdict. This set is wider than the
   * scoring engine's own high-risk set: it adds SEXTORTION, UTILITY_THREAT
   * and DELIVERY_SCAM and leaves out MANUAL_SPAM.
   */
  const HighRiskIntents: set<string> := {
    "ACCOUNT_THREAT", "MONEY_LOSS", "LEGAL_THREAT", "SEXTORTION",
    "UTILITY_THREAT", "OTP_REQUEST", "PIN_REQUEST", "DELIVERY_SCAM"
  }

  const SpamVerdict: string := "IT IS A SPAM CALL, AVOID IT"
  const SuspiciousVerdict: string := "SUSPICIOUS CALL"
  const NormalVerdict: string := "NORMAL CALL"

  /** What `get_final_verdict` returns (before its two roundings). */
  datatype FinalVerdict = FinalVerdict(
    voiceType: string,
    voiceConfidence: real,
    spamScore: real,
    spamPercentage: int,
    matchedIntents: seq<string>,
    finalLabel: string)

  /** `max(0.0, min(1.0, x))`. */
  function Clamp01(x: real): (c: real)
    ensures 0.0 <= c <= 1.0
    ensures 0.0 <= x <= 1.0 ==> c == x
    ensures x < 0.0 ==> c == 0.0
    ensures x > 1.0 ==> c == 1.0
  {
    if x < 0.0 then 0.0 else if x > 1.0 then 1.0 else x
  }

  /** `int(c * 100)` for a clamped score: truncation, which is the floor for c >= 0. */
  function Percentage(c: real): (p: int)
    requires 0.0 <= c <= 1.0
    ensures 0 <= p <= 100
    ensures p as real <= c * 100.0 < p as real + 1.0
  {
    (c * 100.0).Floor
  }

  /** The rule chain on a clamped score and the set of matched intents. */
  function LabelOf(score: real, matched: set<string>): (l: string)
    ensures l in {SpamVerdict, SuspiciousVerdict, NormalVerdict}
  {
    if matched * HighRiskIntents != {} then
      if "DELIVERY_SCAM" in matched then SpamVerdict
      else if score >= 0.6 then SpamVerdict
      else SuspiciousVerdict
    else if score >= 0.6 then SpamVerdict
    else if score >= 0.3 then SuspiciousVerdict
    else NormalVerdict
  }

  /** `get_final_verdict`. */
  function GetFinalVerdict(voiceType: string, voiceConfidence: real, spamScore: real, matchedIntents: seq<string>): (v: FinalVerdict)
    ensures v.voiceType == Upper(voiceType)
    ensures v.voiceConfidence == voiceConfidence
    ensures v.spamScore == Clamp01(spamScore)
    ensures 0 <= v.spamPercentage <= 100
    ensures v.spamPercentage as real <= v.spamScore * 100.0 < v.spamPercentage as real + 1.0
    ensures Sorted(v.matchedIntents) && multiset(v.matchedIntents) == multiset(matchedIntents)
    ensures v.finalLabel in {SpamVerdict, SuspiciousVerdict, NormalVerdict}
  {
    var score := Clamp01(spamScore);
    var matched := set x | x in matchedIntents;
    FinalVerdict(Upper(voiceType), voiceConfidence, score, Percentage(score), Sort(matchedIntents), LabelOf(score, matched))
  }

  function Severity(l: string): nat
  {
    if l == SpamVerdict then 2 else if l == SuspiciousVerdict then 1 else 0
  }

  /** The voice type and confidence never influence the label. */
  lemma VoiceIndependent(vt1: string, vc1: real, vt2: string, vc2: real, spamScore: real, matchedIntents: seq<string>)
    ensures GetFinalVerdict(vt1, vc1, spamScore, matchedIntents).finalLabel ==
            GetFinalVerdict(vt2, vc2, spamScore, matchedIntents).finalLabel
  {
  }

  /** A delivery scam is always spam, whatever the score. */
  lemma DeliveryScamAlwaysSpam(voiceType: string, voiceConfidence: real, spamScore: real, matchedIntents: seq<string>)
    requires "DELIVERY_SCAM" in matchedIntents
    ensures GetFinalVerdict(voiceType, voiceConfidence, spamScore, matchedIntents).finalLabel == SpamVerdict
  {
    var matched := set x | x in matchedIntents;
    assert "DELIVERY_SCAM" in matched * HighRiskIntents;
  }

  /**
   * A high-risk intent is never normal: other than a delivery scam it is
   * spam from a clamped score of 0.6 and suspicious below.
   */
  lemma HighRiskNeverNormal(voiceType: string, voiceConfidence: real, spamScore: real, matchedIntents: seq<string>, x: string)
    requires x in matchedIntents && x in HighRiskIntents
    ensures GetFinalVerdict(voiceType, voiceConfidence, spamScore, matchedIntents).finalLabel != NormalVerdict
    ensures "DELIVERY_SCAM" !in matchedIntents ==>
              (GetFinalVerdict(voiceType, voiceConfidence, spamScore, matchedIntents).finalLabel == SpamVerdict
               <==> Clamp01(spamScore) >= 0.6)
  {
    var matched := set y | y in matchedIntents;
    assert x in matched * HighRiskIntents;
  }

  /** Without a high-risk intent the clamped score alone decides, both thresholds inclusive. */
  lemma ScoreThresholds(voiceType: string, voiceConfidence: real, spamScore: real, matchedIntents: seq<string>)
    requires forall x :: x in matchedIntents ==> x !in HighRiskIntents
    ensures var l := GetFinalVerdict(voiceType, voiceConfidence, spamScore, matchedIntents).finalLabel;
            && (l == SpamVerdict <==> Clamp01(spamScore) >= 0.6)
            && (l == SuspiciousVerdict <==> 0.3 <= Clamp01(spamScore) < 0.6)
            && (l == NormalVerdict <==> Clamp01(spamScore) < 0.3)
  {
    var matched := set y | y in matchedIntents;
    assert matched * HighRiskIntents == {};
  }

  /** For fixed intents a higher score never gives a milder label. */
  lemma LabelMonotone(voiceType: string, voiceConfidence: real, s1: real, s2: real, matchedIntents: seq<string>)
    requires s1 <= s2
    ensures Severity(GetFinalVerdict(voiceType, voiceConfidence, s1, matchedIntents).finalLabel) <=
            Severity(GetFinalVerdict(voiceType, voiceConfidence, s2, matchedIntents).finalLabel)
  {
  }

  /**
   * The intents are the input list sorted, duplicates included: sorting the
   * same intents in any order gives the same list.
   */
  lemma IntentsSortedWithDuplicates(voiceType: string, voiceConfidence: real, spamScore: real, a: seq<string>, b: seq<string>)
    requires multiset(a) == multiset(b)
    ensures |GetFinalVerdict(voiceType, voiceConfidence, spamScore, a).matchedIntents| == |a|
    ensures GetFinalVerdict(voiceType, voiceConfidence, spamScore, a).matchedIntents ==
            GetFinalVerdict(voiceType, voiceConfidence, spamScore, b).matchedIntents
  {
    SortIsCanonical(a, b);
    assert |multiset(Sort(a))| == |multiset(a)|;
  }
}
