/**
 * The request rules of the voice-detection HTTP endpoint: API-key check,
 * field normalization and validation in a fixed order, data-URI stripping
 * of the audio payload, and the mapping of the voice verdict to a public
 * classification. Header and JSON lookups are inputs (`None` for a missing
 * value); decoding the payload and running the classifier are inputs too.
 */
module App {
  import opened Text
  import FinalDecision
  import Predict

  const SupportedLanguages: set<string> := {"tamil", "english", "hindi", "malayalam", "telugu"}

  const AiGenerated: string := "AI_GENERATED"
  const Human: string := "HUMAN"
  const AiExplanation: string := "Unnatural pitch consistency and synthetic speech patterns detected"
  const HumanExplanation: string := "Natural pitch variation and human speech patterns detected"

  /** The endpoint's error responses. */
  datatype ApiError = Unauthorized | UnsupportedLanguage | FormatNotMp3 | MissingAudio | InvalidBase64 | InvalidAudio

  function Status(e: ApiError): int
  {
    if e == Unauthorized then 401 else 400
  }

  datatype Result<T> = Ok(value: T) | Err(error: ApiError)

  /** Python truthiness of an optional string: present and non-empty. */
  predicate Truthy(v: Option<string>)
  {
    v.Some? && v.value != []
  }

  /**
   * `_require_api_key`: the `x-api-key` header if truthy, else the
   * `X-API-KEY` header, compared with the configured key (which may be
   * unset).
   */
  function RequireApiKey(xApiKey: Option<string>, xApiKeyUpper: Option<string>, apiKey: Option<string>): (ok: bool)
    ensures Truthy(xApiKey) ==> (ok <==> xApiKey == apiKey)
    ensures !Truthy(xApiKey) ==> (ok <==> xApiKeyUpper == apiKey)
    ensures ok && apiKey.Some? ==> xApiKey == apiKey || xApiKeyUpper == apiKey
    ensures Truthy(apiKey) && !Truthy(xApiKey) && !Truthy(xApiKeyUpper) ==> !ok
  {
    var key := if Truthy(xApiKey) then xApiKey else xApiKeyUpper;
    key == apiKey
  }

  /**
   * Header lookup is case-insensitive, so both lookups see the same value:
   * the request is authorized exactly when that value equals the
   * configured key, and an unset key accepts a request without the header.
   */
  lemma RequireApiKeySameHeader(header: Option<string>, apiKey: Option<string>)
    ensures RequireApiKey(header, header, apiKey) <==> header == apiKey
    ensures RequireApiKey(None, None, None)
    ensures apiKey.Some? ==> !RequireApiKey(None, None, apiKey)
  {
  }

  /** `_safe_ext_from_format`: ".wav" for a missing or empty format, else the dotted, stripped, lower-cased format. */
  function SafeExtFromFormat(audioFormat: Option<string>): (ext: string)
    ensures ext != [] && ext[0] == '.'
    ensures !Truthy(audioFormat) ==> ext == ".wav"
  {
    if !Truthy(audioFormat) then ".wav"
    else
      var f := Lower(Strip(audioFormat.value));
      if f != [] && f[0] == '.' then f else "." + f
  }

  /**
   * The extension is the stripped, lower-cased format with a leading dot
   * added only when missing; a whitespace-only format gives "." rather than
   * ".wav".
   */
  lemma SafeExtCases(s: string)
    requires s != []
    ensures var f := Lower(Strip(s));
            SafeExtFromFormat(Some(s)) == (if f != [] && f[0] == '.' then f else "." + f)
    ensures (forall k :: 0 <= k < |s| ==> IsSpace(s[k])) ==> SafeExtFromFormat(Some(s)) == "."
  {
    StripShape(s);
  }

  /** Applying `_safe_ext_from_format` to its own output changes nothing. */
  lemma SafeExtIdempotent(audioFormat: Option<string>)
    ensures SafeExtFromFormat(Some(SafeExtFromFormat(audioFormat))) == SafeExtFromFormat(audioFormat)
  {
    var ext := SafeExtFromFormat(audioFormat);
    if Truthy(audioFormat) {
      var st := Strip(audioFormat.value);
      var f := Lower(st);
      assert f == [] || (!IsSpace(f[0]) && !IsSpace(f[|f| - 1])) by {
        if f != [] {
          assert f[0] == LowerChar(st[0]) && f[|f| - 1] == LowerChar(st[|st| - 1]);
        }
      }
      assert !IsSpace(ext[0]) && !IsSpace(ext[|ext| - 1]);
      assert NoUpper(ext);
    } else {
      assert ext == ".wav";
      assert !IsSpace(ext[0]) && !IsSpace(ext[|ext| - 1]);
      assert NoUpper(ext);
    }
    StripNoOp(ext);
    LowerOfLowerCase(ext);
  }

  /** `_normalize_language`: `None` for a missing or empty value, else the stripped, lower-cased value. */
  function NormalizeLanguage(language: Option<string>): (r: Option<string>)
    ensures r.None? <==> !Truthy(language)
  {
    if !Truthy(language) then None else Some(Lower(Strip(language.value)))
  }

  /**
   * A normalized language has no upper-case letter and no surrounding
   * whitespace; a whitespace-only value normalizes to "" (not `None`).
   */
  lemma NormalizeLanguageShape(s: string)
    requires s != []
    ensures var r := NormalizeLanguage(Some(s)).value;
            && NoUpper(r)
            && (r == [] || (!IsSpace(r[0]) && !IsSpace(r[|r| - 1])))
            && (r == [] <==> forall k :: 0 <= k < |s| ==> IsSpace(s[k]))
  {
    var st := Strip(s);
    StripShape(s);
    var r := Lower(st);
    if r != [] {
      assert r[0] == LowerChar(st[0]) && r[|r| - 1] == LowerChar(st[|st| - 1]);
    }
  }

  predicate LanguageOk(language: Option<string>)
  {
    NormalizeLanguage(language).Some? && NormalizeLanguage(language).value in SupportedLanguages
  }

  /** The format check: present and "mp3" after stripping and lower-casing. */
  predicate FormatOk(audioFormat: Option<string>)
  {
    Truthy(audioFormat) && Lower(Strip(audioFormat.value)) == "mp3"
  }

  /** The checks in the endpoint's order; the first that fails decides the error. */
  function ValidateRequest(authorized: bool, language: Option<string>, audioFormat: Option<string>, audioBase64: Option<string>): (r: Option<ApiError>)
    ensures r.Some? ==> r.value in {Unauthorized, UnsupportedLanguage, FormatNotMp3, MissingAudio}
  {
    if !authorized then Some(Unauthorized)
    else if !LanguageOk(language) then Some(UnsupportedLanguage)
    else if !FormatOk(audioFormat) then Some(FormatNotMp3)
    else if !Truthy(audioBase64) then Some(MissingAudio)
    else None
  }

  /** Each error is reported exactly when its check fails and every earlier check passes. */
  lemma ValidationOrder(authorized: bool, language: Option<string>, audioFormat: Option<string>, audioBase64: Option<string>)
    ensures var r := ValidateRequest(authorized, language, audioFormat, audioBase64);
      && (r == Some(Unauthorized) <==> !authorized)
      && (r == Some(UnsupportedLanguage) <==> authorized && !LanguageOk(language))
      && (r == Some(FormatNotMp3) <==> authorized && LanguageOk(language) && !FormatOk(audioFormat))
      && (r == Some(MissingAudio) <==> authorized && LanguageOk(language) && FormatOk(audioFormat) && !Truthy(audioBase64))
      && (r == None <==> authorized && LanguageOk(language) && FormatOk(audioFormat) && Truthy(audioBase64))
      && (r.Some? ==> (Status(r.value) == 401 <==> r.value == Unauthorized))
  {
  }

  /** A format the endpoint accepts always maps to the ".mp3" extension. */
  lemma AcceptedFormatExtension(audioFormat: Option<string>)
    requires FormatOk(audioFormat)
    ensures SafeExtFromFormat(audioFormat) == ".mp3"
  {
  }

  /** A language is accepted whatever its case and surrounding whitespace. */
  lemma LanguageCaseInsensitive(s: string)
    requires Lower(Strip(s)) in SupportedLanguages
    ensures LanguageOk(Some(s))
  {
  }

  /**
   * The payload after the first "base64," when there is one, unchanged
   * otherwise.
   */
  function StripDataUri(audioBase64: string): (r: string)
    ensures !Contains("base64,", audioBase64) ==> r == audioBase64
    ensures Contains("base64,", audioBase64) ==>
              |r| + 7 <= |audioBase64| && audioBase64 == audioBase64[..|audioBase64| - |r| - 7] + "base64," + r &&
              forall j :: 0 <= j < |audioBase64| - |r| - 7 ==> !("base64," <= audioBase64[j..])
  {
    match IndexOf("base64,", audioBase64)
    case None => audioBase64
    case Some(i) =>
      var r := audioBase64[i + 7..];
      assert audioBase64 == audioBase64[..i] + "base64," + r;
      r
  }

  /**
   * A marker whose first character does not recur in it cannot start inside
   * a header that does not contain it.
   */
  lemma NoMarkerInHeader(m: string, header: string, payload: string, i: nat)
    requires m != [] && forall k :: 0 < k < |m| ==> m[k] != m[0]
    requires !Contains(m, header) && i < |header|
    ensures !(m <= (header + m + payload)[i..])
  {
    var s := header + m + payload;
    var h := |header|;
    if i + |m| <= h {
      assert header[i..i + |m|] == s[i..i + |m|];
      if header[i..i + |m|] == m {
        ContainsAt(m, header, i);
      }
    } else {
      var k := h - i;
      assert s[i..][k] == s[h] == m[0];
      assert m[k] != s[i..][k];
    }
  }

  /** The first occurrence of such a marker is the one after the header. */
  lemma MarkerAfterHeader(m: string, header: string, payload: string)
    requires m != [] && forall k :: 0 < k < |m| ==> m[k] != m[0]
    requires !Contains(m, header)
    ensures IndexOf(m, header + m + payload) == Some(|header|)
  {
    var s := header + m + payload;
    var h := |header|;
    assert s[h..h + |m|] == m;
    ContainsAt(m, s, h);
    var i := IndexOf(m, s).value;
    if i < h {
      NoMarkerInHeader(m, header, payload, i);
    }
    assert m <= s[h..];
  }

  /**
   * A data URI whose header holds no "base64," strips back to its payload,
   * even when the payload itself holds "base64,".
   */
  lemma DataUriRoundTrip(header: string, payload: string)
    requires !Contains("base64,", header)
    ensures StripDataUri(header + "base64," + payload) == payload
  {
    MarkerAfterHeader("base64,", header, payload);
    var s := header + "base64," + payload;
    assert s[|header| + 7..] == payload;
  }

  /** The public verdict of the endpoint. */
  datatype VoiceReport = VoiceReport(classification: string, confidence: real, explanation: string)

  /** The explanation sentence, which depends only on the classification. */
  function Explanation(classification: string): string
  {
    if classification == AiGenerated then AiExplanation else HumanExplanation
  }

  /** Map the classifier's verdict: invalid audio is an error, AI and AI_LIKELY are AI-generated, the rest human. */
  function ClassifyVoice(voice: Predict.VoiceResult): (r: Result<VoiceReport>)
    ensures r.Err? <==> voice.result == Predict.InvalidAudioLabel
    ensures r.Err? ==> r.error == InvalidAudio
    ensures r.Ok? ==> 0.0 <= r.value.confidence <= 1.0 && r.value.confidence == FinalDecision.Clamp01(voice.confidence)
    ensures r.Ok? ==> (r.value.classification == AiGenerated <==> voice.result in {Predict.AiLabel, Predict.AiLikelyLabel})
    ensures r.Ok? ==> r.value.classification in {AiGenerated, Human}
    ensures r.Ok? ==> r.value.explanation == Explanation(r.value.classification)
  {
    if voice.result == Predict.InvalidAudioLabel then Err(InvalidAudio)
    else
      var classification := if voice.result in {Predict.AiLabel, Predict.AiLikelyLabel} then AiGenerated else Human;
      Ok(VoiceReport(classification, FinalDecision.Clamp01(voice.confidence), Explanation(classification)))
  }

  /** The success body: the language echoed as sent, and the voice report. */
  datatype Response = Response(language: string, report: VoiceReport)

  /**
   * `api_voice_detection`: validation, then payload decoding (an input:
   * `decodes` says whether the stripped payload is valid base64), then the
   * classifier's verdict on the decoded audio (an input too).
   */
  function ApiVoiceDetection(authorized: bool, language: Option<string>, audioFormat: Option<string>,
                             audioBase64: Option<string>, decodes: string -> bool,
                             voice: Predict.VoiceResult): (r: Result<Response>)
    ensures ValidateRequest(authorized, language, audioFormat, audioBase64).Some? ==>
              r == Err(ValidateRequest(authorized, language, audioFormat, audioBase64).value)
    ensures r == Err(InvalidBase64) <==>
              ValidateRequest(authorized, language, audioFormat, audioBase64).None? && !decodes(StripDataUri(audioBase64.value))
    ensures r == Err(InvalidAudio) <==>
              ValidateRequest(authorized, language, audioFormat, audioBase64).None? && decodes(StripDataUri(audioBase64.value)) &&
              voice.result == Predict.InvalidAudioLabel
    ensures r.Ok? <==>
              ValidateRequest(authorized, language, audioFormat, audioBase64).None? && decodes(StripDataUri(audioBase64.value)) &&
              voice.result != Predict.InvalidAudioLabel
    ensures r.Ok? ==> language.Some? && r.value.language == language.value && ClassifyVoice(voice) == Ok(r.value.report)
  {
    match ValidateRequest(authorized, language, audioFormat, audioBase64)
    case Some(e) => Err(e)
    case None =>
      if !decodes(StripDataUri(audioBase64.value)) then Err(InvalidBase64)
      else match ClassifyVoice(voice)
        case Err(e) => Err(e)
        case Ok(report) => Ok(Response(language.value, report))
  }

  /**
   * A successful response passed every check, echoes a supported language
   * and carries a clamped confidence; an unauthorized request always gets
   * 401, whatever else it holds.
   */
  lemma ApiSuccessMeansValid(authorized: bool, language: Option<string>, audioFormat: Option<string>,
                             audioBase64: Option<string>, decodes: string -> bool, voice: Predict.VoiceResult)
    ensures var r := ApiVoiceDetection(authorized, language, audioFormat, audioBase64, decodes, voice);
      && (r.Ok? ==> ValidateRequest(authorized, language, audioFormat, audioBase64).None?)
      && (r.Ok? ==> Lower(Strip(r.value.language)) in SupportedLanguages)
      && (r.Ok? ==> 0.0 <= r.value.report.confidence <= 1.0)
      && (r.Ok? ==> voice.result != Predict.InvalidAudioLabel)
      && (!authorized ==> r == Err(Unauthorized))
  {
  }
}
