# Voice AI detector: verified model of the decision core

This project is a Dafny model of the decision logic of a phone-call
screening service. The service works in five steps:

- It transcribes a call with a speech recogniser.
- It scores the transcript for spam intent.
- It asks a trained classifier whether the voice is synthetic.
- It fuses the spam score and the voice verdict into a final call label.
- It exposes the voice verdict through an HTTP endpoint guarded by an API key.

The model covers the pieces of that pipeline that are logic rather than I/O:

- **Spam intent engine** (`spam_engine.dfy`, module `SpamEngine`). The class
  `SpamIntentEngine` keeps the engine's configuration as fields: the intent
  catalog, the manual spam phrases, the native-script keyword lists, the
  safe phrases, the regex rules and the two context word lists. Its
  constructor sets them to the source's literals, and the catalog is a
  constructor argument. `Score` runs the passes in the source's order, each
  as a method with the source's loops, `break` and `continue`:
  1. manual override phrases;
  2. catalog phrases with the short-phrase rule;
  3. native-script keywords;
  4. regex rules with their context gates;
  5. safe-phrase removal of INSTRUCTION;
  6. the clamp and the three-way label.

  Each method is proved equal to a specification function over a running
  `Tally` (score and set of matched intents). The lemmas about those
  functions state what each pass adds.
- **Decision fusion** (`final_decision.dfy`, module `FinalDecision`):
  `get_final_verdict` as a function. Lemmas cover the high-risk,
  delivery-scam and threshold rules, independence from the voice verdict,
  monotonicity in the score, and sorting with duplicates kept.
- **Voice verdict** (`predict.dfy`, module `Predict`): the threshold chain
  over the classifier's AI-class probability.
- **Transcription helpers** (`transcribe.dfy`, module `Transcribe`): choosing
  the best of several transcripts, the join/lower/strip step, and the
  language-code mapping.
- **Endpoint rules** (`app.dfy`, module `App`):
  - the API-key check, extension and language normalization, and validation in its fixed order;
  - data-URI stripping of the audio payload;
  - mapping the voice verdict to the public classification.
- **Cross-component facts** (`pipeline.dfy`, module `Pipeline`):
  - a manual spam phrase forces the final spam verdict;
  - where the engine's label and the final label agree and differ;
  - how the voice verdict reaches the endpoint's classification.
- **Python string and list behaviour** (`text.dfy` and `sorting.dfy`):
  - `str.lower`/`upper` on ASCII letters, and `str.isspace`;
  - `strip`, whitespace collapsing (`re.sub(r"\s+", " ", ...)`) and substring search (`in`);
  - `split()` word counts, `str.join`, `str.find`, and `sorted` on strings in code-point order.

Scores are real numbers. Regex search and the Unicode `\w` class are
parameters of the engine: a `search(pattern, text)` oracle and a
`wordChar(c)` predicate. Header and JSON lookups, payload decoding and
the classifier's output are inputs of the functions that use them.

## Model

| member | source | states |
|---|---|---|
| SpamEngine.SpamIntentEngine.constructor | spam_intent/spam_engine.py:6-265 | The configuration fields hold the catalog passed in and the source's literal phrase, keyword, safe-phrase, regex and context lists. |
| SpamEngine.SpamIntentEngine.BlankNonWord | spam_intent/spam_engine.py:276 | Word and whitespace characters stay in place and every other character becomes a space; the length is kept. |
| SpamEngine.SpamIntentEngine.Normalize | spam_intent/spam_engine.py:273-278 | `_normalize` yields lower-case word characters separated by single spaces, with no leading or trailing space. |
| SpamEngine.SpamIntentEngine.NormalizeIdempotent | spam_intent/spam_engine.py:273-278 | `_normalize` applied twice equals `_normalize` applied once. |
| SpamEngine.SpamIntentEngine.NormalFormIsFixed | spam_intent/spam_engine.py:273-278 | A text already in normal form is its own normalization. |
| SpamEngine.SpamIntentEngine.StripToNormalForm | spam_intent/spam_engine.py:276-277 | Stripping a text of lower-case word characters and single spaces gives a normal form. |
| SpamEngine.SpamIntentEngine.CollapsedChars | spam_intent/spam_engine.py:274-277 | After lower-casing, blanking non-word characters and collapsing whitespace, every character is a space or a lower-case word character. |
| SpamEngine.SpamIntentEngine.ApplyManualPhrases | spam_intent/spam_engine.py:289-294 | The manual-phrase loop with its `break` lifts the score to at least 0.9 and adds MANUAL_SPAM exactly when some manual phrase's non-empty normal form occurs in the normalized text; otherwise the tally is unchanged. |
| SpamEngine.SpamIntentEngine.HasMoneyContext | spam_intent/spam_engine.py:267-268 | True exactly when some money keyword occurs at some position of the text. |
| SpamEngine.SpamIntentEngine.HasNonMoneyContext | spam_intent/spam_engine.py:270-271 | True exactly when some non-money context word occurs at some position of the text. |
| SpamEngine.SpamIntentEngine.ManualStageExact | spam_intent/spam_engine.py:283-294 | From the fresh tally the manual stage gives exactly score 0.9 and {MANUAL_SPAM} on a hit, and the empty tally otherwise. |
| SpamEngine.SpamIntentEngine.ShortPhraseRule | spam_intent/spam_engine.py:287-313 | Phrases of at most two words count only for intents of the short-phrase set; DELIVERY_SCAM is outside it, so its short phrases never count; longer phrases count exactly when they occur. |
| SpamEngine.SpamIntentEngine.ScanLanguage | spam_intent/spam_engine.py:302-315 | The scan of one language's phrases, with its `continue`s and `break`, finds a hit exactly when some phrase counts for the intent. |
| SpamEngine.SpamIntentEngine.ApplyCatalog | spam_intent/spam_engine.py:297-317 | The catalog loop, including the early exit once the intent is matched, computes the phrase-pass tally. |
| SpamEngine.SpamIntentEngine.CatalogHitsFresh | spam_intent/spam_engine.py:301-317 | For an intent not yet matched, the language scan reports a hit exactly when some phrase in some language counts. |
| SpamEngine.SpamIntentEngine.CatalogHitsFreshFrom | spam_intent/spam_engine.py:301-317 | The same equivalence for the languages from any position on. |
| SpamEngine.SpamIntentEngine.HitNamesMembers | spam_intent/spam_engine.py:297-317 | An intent is matched by the phrase pass exactly when its catalog entry has a counting phrase. |
| SpamEngine.SpamIntentEngine.HitWeight | spam_intent/spam_engine.py:298-314 | The weight added by the phrase pass is non-negative when the catalog weights are. |
| SpamEngine.SpamIntentEngine.PhraseTallyFresh | spam_intent/spam_engine.py:297-317 | For intents with distinct names not yet matched, the phrase pass adds each hitting intent's weight exactly once and adds exactly the hitting intents. |
| SpamEngine.SpamIntentEngine.PhraseTallyGrows | spam_intent/spam_engine.py:297-317 | With non-negative weights the phrase pass never lowers the score or removes an intent. |
| SpamEngine.SpamIntentEngine.ApplyNativeKeywords | spam_intent/spam_engine.py:320-324 | The nested keyword loops compute the native-pass tally: 0.3 and the intent for every (language, intent) list with a keyword in the lower-cased raw text. |
| SpamEngine.NativeListsSum | spam_intent/spam_engine.py:321-324 | Over one language, the score grows by 0.3 per hitting list and the intents grow by exactly the hitting lists' intents. |
| SpamEngine.NativeTallySum | spam_intent/spam_engine.py:320-324 | Over all languages, the score grows by 0.3 per hitting (language, intent) pair and the intents by exactly those intents. |
| SpamEngine.ListHits | spam_intent/spam_engine.py:321-324 | The number of hitting lists of a language is at most the number of lists. |
| SpamEngine.ListHitsPositive | spam_intent/spam_engine.py:322-324 | A list with a keyword in the text makes its language's hit count at least one. |
| SpamEngine.NativeHitsAtLeastSets | spam_intent/spam_engine.py:320-324 | When every language has a hitting list, the pair count is at least the number of languages. |
| SpamEngine.NativeIntents | spam_intent/spam_engine.py:321-324 | An intent is added by a language exactly when one of its lists for that intent has a keyword in the text. |
| SpamEngine.KeywordInEveryLanguage | spam_intent/spam_engine.py:320-324 | A keyword present at the same list in every language adds at least 0.3 per language and its intent. |
| SpamEngine.AllNativeIntentsLast | spam_intent/spam_engine.py:320-324 | The intents added by the last language are among those added by all languages. |
| SpamEngine.SpamIntentEngine.ConfiguredOtpLists | spam_intent/spam_engine.py:23-48 | The configured keywords have three languages, and in each of them OTP_REQUEST is the second keyword list and "otp" is that list's first keyword. |
| SpamEngine.SpamIntentEngine.NativeOtpTripleCounts | spam_intent/spam_engine.py:23-48 | With the configured keywords, "otp" in the raw text adds at least 0.9 and OTP_REQUEST through the native pass. |
| SpamEngine.UpperKeywordsNeverFire | spam_intent/spam_engine.py:281-322 | A keyword list hits lower-cased text only through a keyword without upper-case letters. |
| SpamEngine.UpperLastKeywordInert | spam_intent/spam_engine.py:281-322 | An upper-case last keyword (such as "OTP") never changes whether a list hits lower-cased text. |
| SpamEngine.SpamIntentEngine.NativeDeliveryIgnoresUpperOtp | spam_intent/spam_engine.py:23-48 | In every language the DELIVERY_SCAM list hits exactly when one of its first five keywords does: its "OTP" keyword can never match. |
| SpamEngine.ConfiguredKeywordsNonEmpty | spam_intent/spam_engine.py:23-48 | No configured native keyword is the empty string. |
| SpamEngine.SpamIntentEngine.NativeKeywordsNonEmpty | spam_intent/spam_engine.py:23-48 | The engine's keyword field has no empty keyword. |
| SpamEngine.RegexIncrement | spam_intent/spam_engine.py:332-369 | A firing regex rule adds between 0.2 and 0.35. |
| SpamEngine.SpamIntentEngine.ApplyRegexRule | spam_intent/spam_engine.py:328-371 | The pattern loop with both MONEY_LOSS checks, the DELIVERY_SCAM context check and the per-intent increments adds the intent's increment and the intent exactly when some pattern matches and the context gate is open; the non-money check never decides anything. |
| SpamEngine.SpamIntentEngine.ApplyRegexRules | spam_intent/spam_engine.py:327-371 | The regex pass over all configured rules computes the regex-pass tally. |
| SpamEngine.SpamIntentEngine.FiredIntents | spam_intent/spam_engine.py:327-371 | An intent is added by the regex pass exactly when one of its rules fires. |
| SpamEngine.SpamIntentEngine.RegexGain | spam_intent/spam_engine.py:327-371 | The regex pass adds between 0 and 0.35 per rule. |
| SpamEngine.SpamIntentEngine.RegexTallySum | spam_intent/spam_engine.py:327-371 | The regex pass adds exactly the increments of the firing rules and exactly their intents. |
| SpamEngine.SpamIntentEngine.RegexContextGuards | spam_intent/spam_engine.py:333-367 | MONEY_LOSS is added only with a money keyword in the normalized text; DELIVERY_SCAM only with a scam-context word in the raw text. |
| SpamEngine.SpamIntentEngine.RegexGainNoFire | spam_intent/spam_engine.py:327-371 | When no rule fires the regex pass adds nothing. |
| SpamEngine.SpamIntentEngine.SafeStep | spam_intent/spam_engine.py:374-377 | Only INSTRUCTION can be removed, and it is removed exactly when it was matched and a safe phrase is in the raw text. The score then drops by at most 0.2 and not below 0, and a non-negative score never rises. |
| SpamEngine.SpamIntentEngine.ScoreTally | spam_intent/spam_engine.py:380 | The clamped score is at most 1 and the intents are those of the passes. |
| SpamEngine.SpamIntentEngine.Score | spam_intent/spam_engine.py:280-396 | The result carries the clamped score and the label of that score and intents; its intents are sorted, duplicate-free and exactly the matched ones. |
| SpamEngine.SpamIntentEngine.PassesGrow | spam_intent/spam_engine.py:297-371 | With non-negative weights the phrase, native and regex passes never lower the score or drop an intent. |
| SpamEngine.SpamIntentEngine.ScoreInUnitInterval | spam_intent/spam_engine.py:374-380 | With non-negative weights the final score lies in [0, 1]. |
| SpamEngine.SpamIntentEngine.ManualOverride | spam_intent/spam_engine.py:289-390 | With non-negative weights, a manual phrase hit gives a score of at least 0.7, MANUAL_SPAM among the intents and the label "SPAM SCAM CALL". |
| SpamEngine.SpamIntentEngine.EmptyTranscript | spam_intent/spam_engine.py:280-396 | With no pattern matching the empty text, an empty transcript scores 0 with no intents and is "NORMAL CALL". |
| SpamEngine.SpamIntentEngine.PhraseTallyOnEmpty | spam_intent/spam_engine.py:297-317 | The phrase pass adds nothing on an empty normalized text. |
| SpamEngine.SpamIntentEngine.CatalogNoHit | spam_intent/spam_engine.py:301-317 | When no language has a counting phrase, the intent is not matched. |
| SpamEngine.NativeTallyOnEmpty | spam_intent/spam_engine.py:320-324 | With non-empty keywords the native pass adds nothing to an empty text. |
| SpamEngine.NoNativeHitsOnEmpty | spam_intent/spam_engine.py:320-324 | With non-empty keywords an empty text has no native hits and no native intents. |
| SpamEngine.NoListHits | spam_intent/spam_engine.py:321-324 | Lists that do not hit the empty text give no hits and no intents. |
| SpamEngine.Label | spam_intent/spam_engine.py:382-390 | The label is one of the three engine labels. |
| SpamEngine.LabelCases | spam_intent/spam_engine.py:382-390 | "SPAM SCAM CALL" iff score ≥ 0.6 and (a short-phrase intent or at least two intents); "SUSPICIOUS CALL" iff score ≥ 0.3 otherwise; "NORMAL CALL" iff score < 0.3. |
| SpamEngine.LabelMonotone | spam_intent/spam_engine.py:382-390 | For fixed intents a higher score never gives a milder label. |
| FinalDecision.Clamp01 | decision_engine/final_decision.py:32 | The clamped score lies in [0, 1], equals the input inside that range and the nearer bound outside it. |
| FinalDecision.Percentage | decision_engine/final_decision.py:33 | The percentage is the floor of 100 times the clamped score and lies in [0, 100]. |
| FinalDecision.LabelOf | decision_engine/final_decision.py:46-64 | The final label is one of the three verdict strings. |
| FinalDecision.GetFinalVerdict | decision_engine/final_decision.py:23-73 | The result carries the upper-cased voice type, the voice confidence, the clamped score and its percentage, and the intents sorted as a permutation of the input; the label is one of the three verdicts. |
| FinalDecision.VoiceIndependent | decision_engine/final_decision.py:46-64 | The voice type and confidence never change the label. |
| FinalDecision.DeliveryScamAlwaysSpam | decision_engine/final_decision.py:49-50 | DELIVERY_SCAM among the intents gives the spam verdict whatever the score. |
| FinalDecision.HighRiskNeverNormal | decision_engine/final_decision.py:47-52 | A high-risk intent never gives "NORMAL CALL"; without DELIVERY_SCAM the verdict is spam exactly when the clamped score is at least 0.6. |
| FinalDecision.ScoreThresholds | decision_engine/final_decision.py:55-64 | Without a high-risk intent: spam iff clamped score ≥ 0.6, suspicious iff 0.3 ≤ score < 0.6, normal iff score < 0.3. |
| FinalDecision.LabelMonotone | decision_engine/final_decision.py:46-64 | For fixed intents a higher score never gives a milder verdict. |
| FinalDecision.IntentsSortedWithDuplicates | decision_engine/final_decision.py:34-71 | The output intents keep duplicates and are the same for any reordering of the input list. |
| Predict.DecideVoice | inference/predict.py:16-37 | The verdict is one of AI, AI_LIKELY, HUMAN, INVALID_AUDIO. |
| Predict.DecideVoiceCases | inference/predict.py:8-37 | INVALID_AUDIO (confidence 0) iff no features; AI iff p ≥ 0.80; AI_LIKELY iff 0.60 ≤ p < 0.80; HUMAN iff p < 0.60; the confidence is the probability of the named class. |
| Predict.DecideVoiceMonotone | inference/predict.py:27-37 | A higher AI probability never moves the verdict towards HUMAN. |
| Transcribe.SelectBestText | stt/transcribe.py:13-18 | The result is "" iff every text strips to ""; otherwise it is the stripped form of the first text of maximal stripped length, and no stripped text is longer. |
| Transcribe.LongestIsFirstMaximum | stt/transcribe.py:18 | `max(..., key=len)` returns the first element of maximal length, and no element is longer. |
| Transcribe.BestOfStripped | stt/transcribe.py:15-18 | Over stripped texts, the chosen one is no shorter than any and is the first of its length. |
| Transcribe.FirstMaximumIsBest | stt/transcribe.py:15-18 | The first stripped text reaching the maximal length is the one chosen. |
| Transcribe.NonEmptyMembers | stt/transcribe.py:15 | Filtering keeps exactly the non-empty texts; the result is empty iff all are empty. |
| Transcribe.NonEmptyOrder | stt/transcribe.py:15 | Filtering keeps order: what precedes a kept text comes from before it. |
| Transcribe.NonEmptyAllNonEmpty | stt/transcribe.py:15 | Every filtered text is non-empty. |
| Transcribe.StrippedAll | stt/transcribe.py:15 | Stripping every text keeps the number of texts. |
| Transcribe.Transcript | stt/transcribe.py:65-66 | The transcript has no upper-case letter, no whitespace at either end, and is empty iff the joined segments are all whitespace. |
| Transcribe.TranscriptOfCleanSegments | stt/transcribe.py:65-66 | Lower-case segments without surrounding whitespace give exactly their space-joined text. |
| Transcribe.LanguageName | stt/transcribe.py:105-113 | The language is one of Tamil, English, Hindi, Malayalam, Telugu. |
| Transcribe.LanguageNameCases | stt/transcribe.py:105-113 | Codes are case-insensitive, a missing code means English, and any unknown code means English. |
| App.RequireApiKey | ui/app.py:59-61 | A truthy `x-api-key` header decides alone; otherwise the `X-API-KEY` header does; with a key configured, no truthy header means no access. |
| App.RequireApiKeySameHeader | ui/app.py:59-61 | The request is authorized iff the header value equals the configured key; an unset key accepts a request without the header. |
| App.SafeExtFromFormat | ui/app.py:64-70 | The extension starts with "." and is ".wav" for a missing or empty format. |
| App.SafeExtCases | ui/app.py:67-70 | Otherwise it is the stripped, lower-cased format with "." added only when missing; a whitespace-only format gives ".". |
| App.SafeExtIdempotent | ui/app.py:64-70 | Applying the function to its own output changes nothing. |
| App.NormalizeLanguage | ui/app.py:73-76 | The result is None exactly for a missing or empty value. |
| App.NormalizeLanguageShape | ui/app.py:73-76 | A normalized language has no upper-case letter and no surrounding whitespace, and is "" iff the value is all whitespace. |
| App.LanguageCaseInsensitive | ui/app.py:90-91 | A language is accepted whenever its stripped, lower-cased form is a supported language. |
| App.ValidateRequest | ui/app.py:82-98 | Validation fails only with one of the four request errors. |
| App.ValidationOrder | ui/app.py:82-98 | Each error is reported exactly when its check fails and every earlier one passes: 401 for the key, then language, format and missing audio, each 400. |
| App.AcceptedFormatExtension | ui/app.py:64-95 | The helper `_safe_ext_from_format` maps every format that passes validation to ".mp3". This is a fact about the helper only: the endpoint names its temporary file ".mp3" directly (ui/app.py:102) and never calls the helper. |
| App.StripDataUri | ui/app.py:106-107 | Without "base64," the payload is unchanged; otherwise the result is the text after the first "base64,". |
| App.NoMarkerInHeader | ui/app.py:106-107 | A marker whose first character does not recur cannot start inside a header that lacks it. |
| App.MarkerAfterHeader | ui/app.py:106-107 | The first "base64," of header + "base64," + payload is the one right after the header. |
| App.DataUriRoundTrip | ui/app.py:106-107 | A data URI whose header holds no "base64," strips back to its payload. |
| App.ClassifyVoice | ui/app.py:115-127 | INVALID_AUDIO is rejected; AI and AI_LIKELY become AI_GENERATED, anything else HUMAN; the confidence is the voice confidence clamped to [0, 1]; the explanation depends only on the classification. |
| App.ApiVoiceDetection | ui/app.py:79-137 | The first failing validation check is the response; otherwise the response is INVALID_BASE64 iff the payload does not decode, INVALID_AUDIO iff it decodes and the verdict is INVALID_AUDIO, and a success iff it decodes and the verdict is anything else; a success echoes the language as sent with the classified report. |
| App.ApiSuccessMeansValid | ui/app.py:79-137 | A success passed every check, echoes a supported language and a clamped confidence; an unauthorized request always gets 401. |
| Pipeline.ManualPhraseForcesSpamVerdict | decision_engine/final_decision.py:46-64 | A manual phrase in the transcript makes the final verdict spam, whatever the voice verdict and intents. |
| Pipeline.FinalAgreesWithEngine | decision_engine/final_decision.py:46-64 | An engine spam label gives the spam verdict, and a normal verdict implies a normal engine label. |
| Pipeline.UncorroboratedScoreDisagrees | decision_engine/final_decision.py:55-56 | Score 0.65 with one non-high-risk intent is suspicious for the engine but spam for the final decision. |
| Pipeline.DeliveryScamDisagrees | decision_engine/final_decision.py:49-50 | A delivery scam at score 0 is normal for the engine but spam for the final decision. |
| Pipeline.VerdictToClassification | ui/app.py:115-122 | Audio without features is rejected; otherwise the call is AI_GENERATED iff the AI probability is at least 0.6, with the clamped probability of the reported class. |
| Pipeline.DetectedLanguageSupported | stt/transcribe.py:105-113 | Every detected language name, lower-cased, is a supported endpoint language. |
| Text.Strip | spam_intent/spam_engine.py:277 | `strip()` is never longer than its input and has whitespace at neither end. |
| Text.StripShape | spam_intent/spam_engine.py:277 | `strip()` keeps a contiguous slice without whitespace at either end, empty iff the input is all whitespace. |
| Text.StripIdempotent | spam_intent/spam_engine.py:277 | `strip()` twice equals `strip()` once. |
| Text.CollapseSpaces | spam_intent/spam_engine.py:277 | Collapsing whitespace runs never lengthens the text. |
| Text.CollapseShape | spam_intent/spam_engine.py:277 | After collapsing, whitespace is single spaces only and every other character comes from the input. |
| Text.CollapseNoOp | spam_intent/spam_engine.py:277 | Text whose whitespace is single spaces is unchanged by collapsing. |
| Text.Contains | spam_intent/spam_engine.py:291 | `sub in s` holds for a prefix and never for a `sub` longer than `s`. |
| Text.ContainsIff | spam_intent/spam_engine.py:291 | `sub in s` holds exactly when `sub` occurs in `s` at some index. |
| Text.AnyContainedIff | spam_intent/spam_engine.py:267-271 | `any(k in s for k in needles)` holds exactly when some needle occurs in `s` at some index. |
| Text.IndexOf | ui/app.py:106-107 | The position found is the first occurrence, and there is none iff the text does not contain the substring. |
| Text.WordCountOfSingleSpaced | spam_intent/spam_engine.py:307 | A single-spaced, stripped text has one more word than spaces. |
| Text.Join | stt/transcribe.py:66 | The joined text starts with the first part and ends with the last; no parts give "". |
| Text.JoinLength | stt/transcribe.py:66 | The joined text's length is the parts' total plus one separator between each pair. |
| Sorting.StrLe | spam_intent/spam_engine.py:395 | String order puts a prefix first, and otherwise the first differing code point decides. |
| Sorting.Sort | spam_intent/spam_engine.py:395 | `sorted` yields a sorted permutation of its input. |
| Sorting.SortIsCanonical | decision_engine/final_decision.py:71 | Sorting depends only on the multiset of the input and is idempotent. |
| Sorting.SortSet | spam_intent/spam_engine.py:395 | Sorting a set yields a sorted, duplicate-free list of exactly its members. |

## Left out

- Regex semantics (`\b`, `.*`, digit repetitions, Unicode `\w`) are not modelled: regex search is a parameter of the engine (`search(pattern, text)`), and the word-character class of `_normalize` is a parameter (`wordChar`).
- Loading the intent catalog from its JSON file is not modelled: the catalog is a constructor argument, and JSON values other than strings and numbers are not represented.
- `str.lower`/`str.upper` are modelled on ASCII letters only; Unicode case mapping is not.
- SpamEngine.SpamIntentEngine.Score: the score is returned unrounded; `round(score, 2)` on binary floats is not modelled, and scores are exact reals.
- FinalDecision.GetFinalVerdict: `voice_confidence` and `spam_score` are returned unrounded (the source rounds to 3 and 2 places); the debug prints are not modelled.
- Predict.DecideVoice: the confidence is unrounded; model loading, feature extraction and `predict_proba` are inputs (a features-present flag and the two class probabilities).
- App.ClassifyVoice: `confidenceScore` is unrounded.
- FinalDecision.Percentage: the percentage is the floor of 100 times the clamped score over exact reals. The source's `int(spam_score * 100)` truncates a binary-float product, which can be one lower for ordinary two-decimal scores: in double precision 0.29 * 100 is 28.999999999999996, so 0.29 gives 28 where the model gives 29, and likewise 0.57 gives 56 and 0.58 gives 57 where the model gives 57 and 58.
- App.ApiVoiceDetection: JSON fields are optional strings, so a truthy non-string `audioBase64` (a number, a list) is not represented; the source lets it pass the missing-audio check and then answers 400 when base64 decoding fails.
- Transcribe.SelectBestText: the texts are strings, so a `None` element, which the source's `if t` filter skips, is not represented; an empty string is skipped the same way.
- SpamEngine.SpamIntentEngine.ManualOverride: holds for catalogs with non-negative weights; the source never checks weights, and a negative weight could pull the score below the spam threshold.
- SpamEngine.SpamIntentEngine.ScoreInUnitInterval: holds for catalogs with non-negative weights only, for the same reason.
- SpamEngine.SpamIntentEngine.EmptyTranscript: assumes no regex pattern matches the empty text, since the regex search is a parameter.
- SpamEngine.SpamIntentEngine.ApplyManualPhrases: `ManualHit` says some manual phrase hits; the `break` after the first hit does not change the result, so which phrase hit first is not recorded.
- Transcribe.LanguageName: the recogniser's detected code is an input (`None` for a missing code); whisper model loading and transcription are not modelled.
- App.RequireApiKeySameHeader: the two header lookups are two inputs; the web framework's case-insensitive lookup makes them the same value, which the lemma takes as its case.
- App.ApiSuccessMeansValid: base64 decoding, temp-file writes and the classifier call are inputs (`decodes` and the voice verdict); the 500 response on an unexpected exception is not modelled.
- The `/detect` and `/ui/voice-detection` routes and the home page are not modelled: they are file handling around the same pipeline, and the latter repeats the format and payload checks.
- The orchestration script that runs the whole pipeline and substitutes "[No speech detected]" for an empty transcript is not part of this model.
- Feature extraction, model training and the spam classifier wrapper are not part of this model: they are numeric library code over pickled models.
