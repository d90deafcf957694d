/**
 * The spam-intent scoring engine: turns a call transcript into a score in
 * [0, 1], the set of scam intents it matched and one of three coarse labels.
 *
 * The engine runs a fixed pipeline of passes over a running `Tally` (score
 * and matched intents): manual override phrases, catalog phrases, native
 * script keywords, context-gated regex rules and safe-phrase suppression,
 * then clamps the score and labels it. Each pass is specified by a function
 * over the `Tally` and implemented by a method whose loops follow the
 * source's `for`/`break`/`continue` structure; `Score` composes the methods.
 *
 * Two facilities of the Python runtime are parameters of the engine: the
 * Unicode word-character class `\w` (`wordChar`) and `re.search` (`search`,
 * an oracle from a pattern and a text to "matches somewhere").
 */
module SpamEngine {
  import opened Text
  import opened Sorting

  const ManualSpam: string := "MANUAL_SPAM"
  const Instruction: string := "INSTRUCTION"
  const DeliveryScam: string := "DELIVERY_SCAM"
  const MoneyLoss: string := "MONEY_LOSS"
  const LegalThreat: string := "LEGAL_THREAT"
  const OtpRequest: string := "OTP_REQUEST"
  const PinRequest: string := "PIN_REQUEST"
  const AccountThreat: string := "ACCOUNT_THREAT"

  /**
   * The engine's own high-risk set: intents whose short catalog phrases
   * still count, and whose presence lets a score of 0.6 or more be labelled
   * spam with a single intent.
   */
  const ShortPhraseIntents: set<string> :=
    {AccountThreat, MoneyLoss, LegalThreat, OtpRequest, PinRequest, ManualSpam}

  const SpamLabel: string := "SPAM SCAM CALL"
  const SuspiciousLabel: string := "SUSPICIOUS CALL"
  const NormalLabel: string := "NORMAL CALL"

  /** Phrases that force a spam verdict on their own. */
  const ManualSpamPhrases: seq<string> := [
    "abhinandan aalu",
    "amazon offer",
    "me bank account kyc gadhvi movie shinde account",
    "prabhutv kotha padam malayalam smartphone"
  ]

  /** Tamil, Telugu and Malayalam keywords per intent, matched in the raw lower-cased text. */
  const NativeLangKeywords: seq<NativeKeywordSet> := [
    NativeKeywordSet("ta", [
      KeywordList("ACCOUNT_THREAT", ["கணக்கு", "முடக்க", "சஸ்பெண்ட்", "தடை", "KYC", "சந்தேகம்"]),
      KeywordList("OTP_REQUEST", ["otp", "ஓடிபி", "உறுதிப்படுத்தும் குறியீடு"]),
      KeywordList("PIN_REQUEST", ["pin", "பின்", "upi pin"]),
      KeywordList("TOO_GOOD_TO_BE_TRUE", ["வெற்றி", "லாட்டரி", "பரிசு", "இலவச", "ஜாக்பாட்", "கேஷ்பேக்", "ஆஃபர்"]),
      KeywordList("MONEY_LOSS", ["பணம்", "நிதி", "ரூபாய்", "கட்டணம்", "டெபிட்", "கழித்த", "இழப்பு"]),
      KeywordList("DELIVERY_SCAM", ["டெலிவரி", "பார்சல்", "சரக்கு", "கூரியர்", "கட்டணம்", "OTP"])
    ]),
    NativeKeywordSet("te", [
      KeywordList("ACCOUNT_THREAT", ["ఖాతా", "బ్లాక్", "సస్పెండ్", "KYC", "సందేహ", "నిలిపి"]),
      KeywordList("OTP_REQUEST", ["otp", "ఓటిపి", "వెరిఫికేషన్ కోడ్"]),
      KeywordList("PIN_REQUEST", ["pin", "పిన్", "upi pin", "ఎంపిన్"]),
      KeywordList("TOO_GOOD_TO_BE_TRUE", ["లాటరీ", "బహుమతి", "ఉచితం", "జాక్పాట్", "ఆఫర్", "విజేత"]),
      KeywordList("MONEY_LOSS", ["డబ్బు", "నష్టం", "రూపాయలు", "చెల్లింపు", "డెబిట్", "కట్"]),
      KeywordList("DELIVERY_SCAM", ["డెలివరీ", "ప్యాకేజీ", "పార్సెల్", "కూరియర్", "ఫీజు", "OTP"])
    ]),
    NativeKeywordSet("ml", [
      KeywordList("ACCOUNT_THREAT", ["അക്കൗണ്ട്", "ബ്ലോക്ക്", "സസ്പെൻഡ്", "KYC", "സംശയം", "നിർത്തലാക്കും"]),
      KeywordList("OTP_REQUEST", ["otp", "ഓടിപി", "സ്ഥിരീകരണ കോഡ്"]),
      KeywordList("PIN_REQUEST", ["pin", "പിന്", "upi pin", "എംപിൻ"]),
      KeywordList("TOO_GOOD_TO_BE_TRUE", ["ലോട്ടറി", "സമ്മാനം", "ഫ്രീ", "ജാക്ക്പോട്ട്", "ഓഫർ", "വിജയി"]),
      KeywordList("MONEY_LOSS", ["പണം", "നഷ്ടം", "രൂപ", "ചാർജ്", "ഡെബിറ്റ്", "കുറവ്"]),
      KeywordList("DELIVERY_SCAM", ["ഡെലിവറി", "പാക്കേജ്", "പാർസൽ", "കൂറിയർ", "ഫീസ്", "OTP"])
    ])
  ]

  /** Harmless call-back phrases that cancel an INSTRUCTION match. */
  const SafePhrases: seq<string> := [
    "call me back",
    "please call me back",
    "call me when you can",
    "please call me",
    "give me a call",
    "call me later",
    "call kar lena",
    "baad me call karna",
    "call karlena"
  ]

  /** The regex rules, in dictionary order; each intent's patterns are tried in order. */
  const RegexPatterns: seq<RegexRule> := [
    RegexRule("LEGAL_THREAT", [
      @"\bsocial security\b",
      @"\bssn\b",
      @"\bunder investigation\b",
      @"\blegal action\b",
      @"\blaw enforcement\b",
      @"\bpolice\b",
      @"\barrest warrant\b",
      @"\bcourt notice\b",
      @"\bgovernment office\b",
      @"\bcase registered\b",
      "நீதிமன்றம்",
      "சட்டம்",
      "கோர்ட்",
      "పోలీసు",
      "కోర్టు",
      "നിയമം",
      "കോടതി",
      "अदालत",
      "पुलिस",
      "कानूनी"
    ]),
    RegexRule("MONEY_LOSS", [
      @"\brs\.?\s*\d+",
      @"\brupees?\s*\d+",
      @"\b\d+\s*(?:rupees|rs\.?)",
      @"\brs\s*\d+",
      @"\brupee\s*\d+",
      @"\b\d+\s*(?:pounds|gbp)\b",
      @"\bdebited\b",
      @"\bwithdrawn\b",
      @"\bmoney taken\b",
      @"\bfunds transferred\b",
      @"\bamount deducted\b",
      @"\bpayment\b",
      @"\btransaction\b",
      @"\brefund\b",
      @"\bbank details\b",
      @"\btransfer\b",
      "பணம்",
      "ரூபாய்",
      "கட்டணம்",
      "டெபிட்",
      "డబ్బు",
      "రూపాయ",
      "ചാർജ്",
      "രൂപ",
      "पैसा",
      "रुपये",
      "भुगतान"
    ]),
    RegexRule("OTP_REQUEST", [
      @"\botp\b",
      @"\bone[-\s]?time password\b",
      @"\b\d{4,8}\s*digit\b",
      @"\b\d{4,8}\s*digits\b",
      @"\b\d{4,8}\b\s*(?:ka|ki)?\s*otp",
      @"\bshare\s*otp\b",
      @"\btell\s*otp\b",
      "ஓடிபி",
      "ఓటిపి",
      "ഓടിപി",
      "ओटीपी"
    ]),
    RegexRule("PIN_REQUEST", [
      @"\bpin\b",
      @"\bupi\s*pin\b",
      @"\btransaction\s*pin\b",
      @"\bmpin\b",
      @"\bcvv\b",
      @"\bpassword\b",
      "பின்",
      "పిన్",
      "പിന്",
      "पिन"
    ]),
    RegexRule("DELIVERY_SCAM", [
      @"\bdelivery\b",
      @"\bparcel\b",
      @"\bcourier\b",
      @"\bpackage\b",
      @"\bamazon\b",
      @"\bflipkart\b",
      @"\bmeesho\b",
      @"\bmyntra\b",
      @"\bdelivery\s*cancel\b",
      @"\bparcel\s*cancel\b",
      "டெலிவரி",
      "பார்சல்",
      "డెలివరీ",
      "పార్సెల్",
      "ഡെലിവറി",
      "പാർസൽ",
      "डिलिवरी",
      "पार्सल"
    ]),
    RegexRule("ACCOUNT_THREAT", [
      @"\baccount\b.*\bkyc\b",
      @"\bkyc\b.*\baccount\b",
      @"\bkyc\b",
      @"\bbank\b.*\baccount\b.*\blocked\b",
      @"\baccount\b.*\blocked\b",
      @"\baccount\b.*\blocked\b.*\bsuspicious\b",
      @"\bsuspicious activity\b",
      @"\bverify\b.*\bidentity\b",
      @"\bidentity\b.*\bverify\b",
      @"\baccount\b.*\btemporarily locked\b",
      @"\btemporarily locked\b",
      "கணக்கு",
      "முடக்க",
      "సస్పెండ్",
      "బ్లాక్",
      "അക്കൗണ്ട്",
      "ബ്ലോക്ക്",
      "खाता",
      "ब्लॉक",
      "केवाईसी"
    ]),
    RegexRule("TOO_GOOD_TO_BE_TRUE", [
      @"\bamazon\b.*\boffer\b",
      @"\boffer\b.*\bamazon\b",
      @"\blucky\s*draw\b",
      @"\blottery\b",
      @"\bjackpot\b",
      @"\bwon\b.*\bprize\b",
      @"\bcongratulations\b",
      @"\bkbc\b",
      @"\bjeet\b",
      @"\binaam\b",
      @"\binam\b",
      @"\bpuraskar\b",
      @"\btax\s*refund\b",
      @"\brefund\b",
      "வெற்றி",
      "லாட்டரி",
      "பரிசு",
      "இலவச",
      "ஆஃபர்",
      "கேஷ்பேக்",
      "ലോട്ടറി",
      "സമ്മാനം",
      "വിജയി",
      "ഫ്രീ",
      "ഓഫർ",
      "లాటరీ",
      "బహుమతి",
      "విజేత",
      "ఆఫర్",
      "लॉटरी",
      "इनाम"
    ]),
    RegexRule("INSTRUCTION", [
      @"\bwhatsapp\b",
      @"\bcall\b",
      @"\bcontact\b",
      @"\bmessage\b",
      @"\bmsg\b",
      @"\bnumber\b",
      @"\bclick here\b",
      @"\bclick\b",
      @"\bregister\b",
      @"\bregistration fee\b",
      @"\bprocessing fee\b",
      @"\bpay\b.*\bfee\b",
      "கிளிக்",
      "அழைக்க",
      "தொடர்பு",
      "வாட்ஸ்அப்",
      "பதிவு",
      "క్లిక్",
      "కాల్",
      "వాట్సాప్",
      "రెజిస్టర్",
      "ക്ലിക്ക്",
      "വിളിക്കുക",
      "ബന്ധപ്പെടുക",
      "വാട്ട്സാപ്പ്",
      "രജിസ്റ്റർ",
      "कॉल",
      "क्लिक",
      "व्हाट्सएप",
      "रजिस्टर",
      "संपर्क"
    ])
  ]

  /** Words that give a MONEY_LOSS pattern its money context. */
  const MoneyKeywords: seq<string> := ["rs", "rupee", "rupees", "debit", "debited", "credit", "credited", "withdrawn", "payment", "transaction", "amount", "balance", "transfer", "upi"]

  /** Words of age and duration that make an amount-like pattern harmless. */
  const NonMoneyContext: seq<string> := ["years old", "year old", "age", "aged", "years", "months", "days", "minutes", "hours"]

  /** Words whose presence in the raw text lets a delivery pattern count. */
  const ScamContext: seq<string> := ["otp", "code", "pin", "payment", "pay", "fee", "charge", "refund", "cancel", "cancellation", "link", "address", "verification", "kyc", "hold", "blocked"]

  /** The trigger phrases of one intent in one language. */
  datatype LanguagePhrases = LanguagePhrases(lang: string, phrases: seq<string>)

  /** One catalog entry, in the catalog's order. */
  datatype IntentDefinition = IntentDefinition(name: string, weight: real, phrases: seq<LanguagePhrases>)

  /** Native-script keywords of one intent. */
  datatype KeywordList = KeywordList(intent: string, keywords: seq<string>)

  /** The keyword lists of one language. */
  datatype NativeKeywordSet = NativeKeywordSet(lang: string, lists: seq<KeywordList>)

  /** The patterns of one intent, tried in order. */
  datatype RegexRule = RegexRule(intent: string, patterns: seq<string>)

  /** The running state of one scoring call: `score` and `matched_intents`. */
  datatype Tally = Tally(score: real, matched: set<string>)

  /** What `score` returns. */
  datatype ScoreResult = ScoreResult(spamScore: real, callLabel: string, matchedIntents: seq<string>)

  function Max(a: real, b: real): real { if a >= b then a else b }

  function Min(a: real, b: real): real { if a <= b then a else b }

  predicate WeightsNonNegative(entries: seq<IntentDefinition>)
  {
    forall i :: 0 <= i < |entries| ==> entries[i].weight >= 0.0
  }

  /** The score a regex rule adds when it counts. */
  function RegexIncrement(intent: string): (inc: real)
    ensures 0.2 <= inc <= 0.35
  {
    if intent == MoneyLoss then 0.2
    else if intent == LegalThreat then 0.25
    else if intent == OtpRequest || intent == PinRequest then 0.35
    else if intent == DeliveryScam then 0.35
    else 0.3
  }

  /** The three-way label of a clamped score and its matched intents. */
  function Label(score: real, matched: set<string>): (l: string)
    ensures l in {SpamLabel, SuspiciousLabel, NormalLabel}
  {
    var hasHighRisk := matched * ShortPhraseIntents != {};
    if score >= 0.6 && (hasHighRisk || |matched| >= 2) then SpamLabel
    else if score >= 0.3 then SuspiciousLabel
    else NormalLabel
  }

  function Severity(l: string): nat
  {
    if l == SpamLabel then 2 else if l == SuspiciousLabel then 1 else 0
  }

  /**
   * The spam label needs corroboration: a score of at least 0.6 and either
   * an intent of the engine's high-risk set or two distinct intents. The
   * suspicious label is exactly the rest of the scores from 0.3 up.
   */
  lemma LabelCases(score: real, matched: set<string>)
    ensures Label(score, matched) == SpamLabel <==>
              score >= 0.6 && (matched * ShortPhraseIntents != {} || |matched| >= 2)
    ensures Label(score, matched) == SuspiciousLabel <==>
              score >= 0.3 && !(score >= 0.6 && (matched * ShortPhraseIntents != {} || |matched| >= 2))
    ensures Label(score, matched) == NormalLabel <==> score < 0.3
  {
  }

  /** For fixed intents, a higher score never gives a milder label. */
  lemma LabelMonotone(s1: real, s2: real, matched: set<string>)
    requires s1 <= s2
    ensures Severity(Label(s1, matched)) <= Severity(Label(s2, matched))
  {
  }

  class SpamIntentEngine {
    /** The intent catalog, in file order. */
    const intents: seq<IntentDefinition>
    /** Python's Unicode `\w` class. */
    const wordChar: char -> bool
    /** `re.search(pattern, text) is not None`. */
    const search: (string, string) -> bool

    const manualSpamPhrases: seq<string>
    const nativeLangKeywords: seq<NativeKeywordSet>
    const safePhrases: seq<string>
    const regexPatterns: seq<RegexRule>
    const moneyKeywords: seq<string>
    const nonMoneyContext: seq<string>

    /** The engine's fixed configuration holds the lists the engine is built with. */
    predicate Configured()
    {
      && manualSpamPhrases == ManualSpamPhrases
      && nativeLangKeywords == NativeLangKeywords
      && safePhrases == SafePhrases
      && regexPatterns == RegexPatterns
      && moneyKeywords == MoneyKeywords
      && nonMoneyContext == NonMoneyContext
    }

    constructor (intents: seq<IntentDefinition>, wordChar: char -> bool, search: (string, string) -> bool)
      ensures this.intents == intents && this.wordChar == wordChar && this.search == search
      ensures Configured()
    {
      this.intents := intents;
      this.wordChar := wordChar;
      this.search := search;
      manualSpamPhrases := ManualSpamPhrases;
      nativeLangKeywords := NativeLangKeywords;
      safePhrases := SafePhrases;
      regexPatterns := RegexPatterns;
      moneyKeywords := MoneyKeywords;
      nonMoneyContext := NonMoneyContext;
    }

    /**
     * `re.sub(r"[^\w\s]", " ", s)`: word and whitespace characters stay
     * where they are, every other character becomes a space.
     */
    function BlankNonWord(s: string): (r: string)
      ensures |r| == |s|
      ensures forall i :: 0 <= i < |s| && (wordChar(s[i]) || IsSpace(s[i])) ==> r[i] == s[i]
      ensures forall i :: 0 <= i < |s| && !wordChar(s[i]) && !IsSpace(s[i]) ==> r[i] == ' '
    {
      seq(|s|, i requires 0 <= i < |s| => if wordChar(s[i]) || IsSpace(s[i]) then s[i] else ' ')
    }

    /**
     * The shape of a normalized text: lower-case word characters separated
     * by single spaces, with no space at either end.
     */
    predicate NormalForm(s: string)
    {
      && (forall i :: 0 <= i < |s| ==> s[i] == ' ' || (wordChar(s[i]) && !IsSpace(s[i])))
      && NoUpper(s)
      && (forall i :: 0 <= i < |s| - 1 ==> !(s[i] == ' ' && s[i + 1] == ' '))
      && (s == [] || (s[0] != ' ' && s[|s| - 1] != ' '))
    }

    /**
     * `_normalize`: lower-case, blank out punctuation, collapse whitespace,
     * strip. The result is lower-case words of word characters separated by
     * single spaces.
     */
    function Normalize(text: string): (r: string)
      ensures NormalForm(r)
    {
      NormalizedShape(text);
      Strip(CollapseSpaces(BlankNonWord(Lower(text))))
    }

    lemma NormalizedShape(text: string)
      ensures NormalForm(Strip(CollapseSpaces(BlankNonWord(Lower(text)))))
    {
      var blanked := BlankNonWord(Lower(text));
      CollapsedChars(text);
      CollapseShape(blanked);
      StripToNormalForm(CollapseSpaces(blanked));
    }

    /** A character of a lowered, blanked text: a space or a lower-case word character. */
    predicate BlankedChar(c: char)
    {
      c == ' ' || (wordChar(c) && !IsSpace(c) && !IsUpper(c))
    }

    lemma CollapsedChars(text: string)
      ensures forall i :: 0 <= i < |CollapseSpaces(BlankNonWord(Lower(text)))| ==>
                BlankedChar(CollapseSpaces(BlankNonWord(Lower(text)))[i])
    {
      var blanked := BlankNonWord(Lower(text));
      var collapsed := CollapseSpaces(blanked);
      CollapseShape(blanked);
      forall i | 0 <= i < |collapsed| ensures BlankedChar(collapsed[i]) {
        if collapsed[i] != ' ' {
          var k :| 0 <= k < |blanked| && blanked[k] == collapsed[i];
        }
      }
    }

    /** Stripping a text of blanked characters without double spaces gives a normal form. */
    lemma StripToNormalForm(c: string)
      requires forall i :: 0 <= i < |c| ==> BlankedChar(c[i])
      requires forall i :: 0 <= i < |c| - 1 ==> !(c[i] == ' ' && c[i + 1] == ' ')
      ensures NormalForm(Strip(c))
    {
      StripShape(c);
      var r := Strip(c);
      var a := LeadCount(c);
      forall i | 0 <= i < |r| ensures BlankedChar(r[i]) {
        assert r[i] == c[a + i];
      }
      forall i | 0 <= i < |r| - 1 ensures !(r[i] == ' ' && r[i + 1] == ' ') {
        assert r[i] == c[a + i] && r[i + 1] == c[a + i + 1];
      }
    }

    /** A normalized text is its own normal form. */
    lemma NormalFormIsFixed(s: string)
      requires NormalForm(s)
      ensures Normalize(s) == s
    {
      LowerOfLowerCase(s);
      assert BlankNonWord(Lower(s)) == s;
      CollapseNoOp(s);
      StripNoOp(s);
    }

    /** `_normalize` is idempotent. */
    lemma NormalizeIdempotent(text: string)
      ensures Normalize(Normalize(text)) == Normalize(text)
    {
      NormalFormIsFixed(Normalize(text));
    }

    /** `_has_money_context`: some money keyword occurs somewhere in the text. */
    predicate HasMoneyContext(text: string)
      ensures HasMoneyContext(text) <==> exists k, i :: 0 <= k < |moneyKeywords| && OccursAt(moneyKeywords[k], text, i)
    {
      AnyContainedIff(moneyKeywords, text);
      AnyContained(moneyKeywords, text)
    }

    /** `_has_non_money_context`: some non-money context word occurs somewhere in the text. */
    predicate HasNonMoneyContext(text: string)
      ensures HasNonMoneyContext(text) <==> exists k, i :: 0 <= k < |nonMoneyContext| && OccursAt(nonMoneyContext[k], text, i)
    {
      AnyContainedIff(nonMoneyContext, text);
      AnyContained(nonMoneyContext, text)
    }

    // ---------------------------------------------------------------------
    // Pass 0: manual override phrases

    /** A manual phrase hits when its normal form is non-empty and occurs in the normalized text. */
    predicate NormalizedHit(np: string, norm: string)
    {
      np != [] && Contains(np, norm)
    }

    predicate ManualHit(norm: string)
    {
      exists j :: 0 <= j < |manualSpamPhrases| && NormalizedHit(Normalize(manualSpamPhrases[j]), norm)
    }

    /** Any hitting manual phrase lifts the score to at least 0.9 and adds MANUAL_SPAM. */
    function ManualStep(t: Tally, norm: string): Tally
    {
      if ManualHit(norm) then Tally(Max(t.score, 0.9), t.matched + {ManualSpam}) else t
    }

    /**
     * From the fresh tally the manual stage gives exactly 0.9 and MANUAL_SPAM
     * when a manual phrase hits, and leaves the tally empty otherwise.
     */
    lemma ManualStageExact(norm: string)
      ensures ManualHit(norm) ==> ManualStep(Tally(0.0, {}), norm) == Tally(0.9, {ManualSpam})
      ensures !ManualHit(norm) ==> ManualStep(Tally(0.0, {}), norm) == Tally(0.0, {})
    {
    }

    method ApplyManualPhrases(norm: string, t0: Tally) returns (t: Tally)
      ensures t == ManualStep(t0, norm)
    {
      t := t0;
      for i := 0 to |manualSpamPhrases|
        invariant t == t0
        invariant forall j :: 0 <= j < i ==> !NormalizedHit(Normalize(manualSpamPhrases[j]), norm)
      {
        var np := Normalize(manualSpamPhrases[i]);
        if np != [] && Contains(np, norm) {
          t := Tally(Max(t.score, 0.9), t.matched + {ManualSpam});
          return;
        }
        assert !NormalizedHit(np, norm);
      }
    }

    // ---------------------------------------------------------------------
    // Pass 1: catalog phrases

    /**
     * Whether one catalog phrase counts for `intent`: its normal form is
     * non-empty, it is not a phrase of two words or fewer for an intent
     * outside the short-phrase set (nor for DELIVERY_SCAM), and it occurs in
     * the normalized text.
     */
    /**
     * Whether a normalized catalog phrase counts for `intent`: it is
     * non-empty, it is not a phrase of two words or fewer for an intent
     * outside the short-phrase set (nor for DELIVERY_SCAM), and it occurs in
     * the normalized text.
     */
    predicate NormalizedCounts(intent: string, np: string, norm: string)
    {
      && np != []
      && !(WordCount(np) <= 2 && (intent !in ShortPhraseIntents || intent == DeliveryScam))
      && Contains(np, norm)
    }

    /**
     * A phrase of at most two words counts only for an intent of the
     * short-phrase set; DELIVERY_SCAM is not in that set, so its short
     * phrases never count and the engine's separate DELIVERY_SCAM check on
     * short phrases never decides anything. Longer phrases count exactly
     * when they occur.
     */
    lemma ShortPhraseRule(intent: string, np: string, norm: string)
      ensures DeliveryScam !in ShortPhraseIntents
      ensures WordCount(np) <= 2 && intent !in ShortPhraseIntents ==> !NormalizedCounts(intent, np, norm)
      ensures WordCount(np) <= 2 ==> !NormalizedCounts(DeliveryScam, np, norm)
      ensures WordCount(np) > 2 ==> (NormalizedCounts(intent, np, norm) <==> Contains(np, norm))
    {
    }

    /** Whether one catalog phrase, once normalized, counts for the intent. */
    predicate PhraseCounts(intent: string, phrase: string, norm: string)
    {
      NormalizedCounts(intent, Normalize(phrase), norm)
    }

    predicate LanguageHits(intent: string, phrases: seq<string>, norm: string)
    {
      exists i :: 0 <= i < |phrases| && PhraseCounts(intent, phrases[i], norm)
    }

    /** The scan of one language's phrases, stopping at the first that counts. */
    method ScanLanguage(intent: string, phrases: seq<string>, norm: string) returns (hit: bool)
      ensures hit == LanguageHits(intent, phrases, norm)
    {
      for pi := 0 to |phrases|
        invariant forall k :: 0 <= k < pi ==> !PhraseCounts(intent, phrases[k], norm)
      {
        var np := Normalize(phrases[pi]);
        if np == [] {
          assert !PhraseCounts(intent, phrases[pi], norm);
          continue;
        }
        if WordCount(np) <= 2 {
          if intent !in ShortPhraseIntents {
            assert !PhraseCounts(intent, phrases[pi], norm);
            continue;
          }
          if intent == DeliveryScam {
            continue;
          }
        }
        if Contains(np, norm) {
          assert PhraseCounts(intent, phrases[pi], norm);
          return true;
        }
        assert !PhraseCounts(intent, phrases[pi], norm);
      }
      return false;
    }

    /**
     * Whether the scan of an intent's languages finds a counting phrase. When
     * the intent is already matched (`already`), the scan stops after the
     * first language.
     */
    predicate CatalogHits(intent: string, langs: seq<LanguagePhrases>, norm: string, already: bool)
      decreases |langs|
    {
      langs != [] && (LanguageHits(intent, langs[0].phrases, norm) || (!already && CatalogHits(intent, langs[1..], norm, already)))
    }

    function PhraseStep(t: Tally, e: IntentDefinition, norm: string): Tally
    {
      if CatalogHits(e.name, e.phrases, norm, e.name in t.matched) then Tally(t.score + e.weight, t.matched + {e.name})
      else t
    }

    function PhraseTally(entries: seq<IntentDefinition>, norm: string, t: Tally): Tally
      decreases |entries|
    {
      if entries == [] then t
      else PhraseStep(PhraseTally(entries[..|entries| - 1], norm, t), entries[|entries| - 1], norm)
    }

    method ApplyCatalog(norm: string, t0: Tally) returns (t: Tally)
      ensures t == PhraseTally(intents, norm, t0)
    {
      t := t0;
      for i := 0 to |intents|
        invariant t == PhraseTally(intents[..i], norm, t0)
      {
        var entry := intents[i];
        ghost var before := t;
        ghost var already := entry.name in before.matched;
        for li := 0 to |entry.phrases|
          invariant t == before
          invariant li > 0 ==> !already
          invariant CatalogHits(entry.name, entry.phrases, norm, already)
                    == CatalogHits(entry.name, entry.phrases[li..], norm, already)
        {
          assert entry.phrases[li..][0] == entry.phrases[li];
          assert entry.phrases[li..][1..] == entry.phrases[li + 1..];
          var hit := ScanLanguage(entry.name, entry.phrases[li].phrases, norm);
          if hit {
            t := Tally(t.score + entry.weight, t.matched + {entry.name});
          }
          if entry.name in t.matched {
            break;
          }
        }
        assert t == PhraseStep(before, entry, norm);
        assert intents[..i + 1][..i] == intents[..i];
      }
      assert intents[..|intents|] == intents;
    }

    /** Some phrase, in some language of the entry, counts for the entry's intent. */
    predicate HasCountingPhrase(e: IntentDefinition, norm: string)
    {
      exists l, p :: 0 <= l < |e.phrases| && 0 <= p < |e.phrases[l].phrases| &&
        NormalizedCounts(e.name, Normalize(e.phrases[l].phrases[p]), norm)
    }

    /**
     * For an intent not yet matched, the scan over its languages hits exactly
     * when some phrase in some language counts.
     */
    lemma {:induction false} CatalogHitsFresh(e: IntentDefinition, norm: string)
      ensures CatalogHits(e.name, e.phrases, norm, false) <==> HasCountingPhrase(e, norm)
    {
      CatalogHitsFreshFrom(e, 0, norm);
    }

    lemma {:induction false} CatalogHitsFreshFrom(e: IntentDefinition, from: nat, norm: string)
      requires from <= |e.phrases|
      ensures CatalogHits(e.name, e.phrases[from..], norm, false) <==>
              exists l, p :: from <= l < |e.phrases| && 0 <= p < |e.phrases[l].phrases| &&
                NormalizedCounts(e.name, Normalize(e.phrases[l].phrases[p]), norm)
      decreases |e.phrases| - from
    {
      if from < |e.phrases| {
        CatalogHitsFreshFrom(e, from + 1, norm);
        assert e.phrases[from..][0] == e.phrases[from];
        assert e.phrases[from..][1..] == e.phrases[from + 1..];
      }
    }

    /** The names of the entries that have a counting phrase. */
    function HitNames(entries: seq<IntentDefinition>, norm: string): set<string>
      decreases |entries|
    {
      if entries == [] then {}
      else
        var last := entries[|entries| - 1];
        HitNames(entries[..|entries| - 1], norm) + (if HasCountingPhrase(last, norm) then {last.name} else {})
    }

    lemma {:induction false} HitNamesMembers(entries: seq<IntentDefinition>, norm: string, x: string)
      ensures x in HitNames(entries, norm) <==>
                exists i :: 0 <= i < |entries| && entries[i].name == x && HasCountingPhrase(entries[i], norm)
      decreases |entries|
    {
      if entries != [] {
        var init := entries[..|entries| - 1];
        HitNamesMembers(init, norm, x);
        assert forall i :: 0 <= i < |init| ==> entries[i] == init[i];
      }
    }

    /** The summed weights of the entries that have a counting phrase. */
    function HitWeight(entries: seq<IntentDefinition>, norm: string): (w: real)
      ensures WeightsNonNegative(entries) ==> w >= 0.0
      decreases |entries|
    {
      if entries == [] then 0.0
      else
        var init := entries[..|entries| - 1];
        var last := entries[|entries| - 1];
        assert WeightsNonNegative(entries) ==> WeightsNonNegative(init) by {
          assert forall i :: 0 <= i < |init| ==> init[i] == entries[i];
        }
        HitWeight(init, norm) + (if HasCountingPhrase(last, norm) then last.weight else 0.0)
    }

    predicate DistinctNames(entries: seq<IntentDefinition>)
    {
      forall i, j :: 0 <= i < j < |entries| ==> entries[i].name != entries[j].name
    }

    /**
     * With distinct intent names none of which is already matched (the
     * catalog is a dictionary), the catalog pass adds exactly the weights and
     * names of the intents that have a counting phrase.
     */
    lemma {:induction false} PhraseTallyFresh(entries: seq<IntentDefinition>, norm: string, t: Tally)
      requires DistinctNames(entries)
      requires forall i :: 0 <= i < |entries| ==> entries[i].name !in t.matched
      ensures PhraseTally(entries, norm, t).score == t.score + HitWeight(entries, norm)
      ensures PhraseTally(entries, norm, t).matched == t.matched + HitNames(entries, norm)
      decreases |entries|
    {
      if entries != [] {
        var init := entries[..|entries| - 1];
        var last := entries[|entries| - 1];
        assert forall i :: 0 <= i < |init| ==> init[i] == entries[i];
        PhraseTallyFresh(init, norm, t);
        var before := PhraseTally(init, norm, t);
        HitNamesMembers(init, norm, last.name);
        assert last.name !in before.matched;
        CatalogHitsFresh(last, norm);
      }
    }

    /** With non-negative weights the catalog pass never lowers the score nor drops an intent. */
    lemma {:induction false} PhraseTallyGrows(entries: seq<IntentDefinition>, norm: string, t: Tally)
      requires WeightsNonNegative(entries)
      ensures t.score <= PhraseTally(entries, norm, t).score
      ensures t.matched <= PhraseTally(entries, norm, t).matched
      decreases |entries|
    {
      if entries != [] {
        var init := entries[..|entries| - 1];
        assert forall i :: 0 <= i < |init| ==> init[i] == entries[i];
        PhraseTallyGrows(init, norm, t);
        assert entries[|entries| - 1].weight >= 0.0;
      }
    }

    // ---------------------------------------------------------------------
    // Pass 1.5: native-script keywords

    method ApplyNativeKeywords(raw: string, t0: Tally) returns (t: Tally)
      ensures t == NativeTally(nativeLangKeywords, raw, t0)
    {
      t := t0;
      for i := 0 to |nativeLangKeywords|
        invariant t == NativeTally(nativeLangKeywords[..i], raw, t0)
      {
        var lists := nativeLangKeywords[i].lists;
        ghost var before := t;
        for j := 0 to |lists|
          invariant t == NativeListsTally(lists[..j], raw, before)
        {
          if AnyContained(lists[j].keywords, raw) {
            t := Tally(t.score + 0.3, t.matched + {lists[j].intent});
          }
          assert lists[..j + 1][..j] == lists[..j];
        }
        assert lists[..|lists|] == lists;
        assert nativeLangKeywords[..i + 1][..i] == nativeLangKeywords[..i];
      }
      assert nativeLangKeywords[..|nativeLangKeywords|] == nativeLangKeywords;
    }

    /**
     * A transcript mentioning "otp" hits the OTP_REQUEST keywords of all
     * three languages: the native pass alone adds 0.9 and OTP_REQUEST.
     */
    lemma NativeOtpTripleCounts(raw: string, t: Tally)
      requires Configured()
      requires Contains("otp", raw)
      ensures NativeTally(nativeLangKeywords, raw, t).score >= t.score + 0.9
      ensures OtpRequest in NativeTally(nativeLangKeywords, raw, t).matched
    {
      ConfiguredOtpLists();
      KeywordInEveryLanguage(nativeLangKeywords, 1, OtpRequest, "otp", raw, t);
    }

    /** Each language lists "otp" first among its OTP_REQUEST keywords. */
    lemma ConfiguredOtpLists()
      requires Configured()
      ensures |nativeLangKeywords| == 3
      ensures forall i :: 0 <= i < 3 ==> KeywordAt(nativeLangKeywords[i], 1, OtpRequest, "otp")
    {
      assert KeywordAt(nativeLangKeywords[0], 1, OtpRequest, "otp");
      assert KeywordAt(nativeLangKeywords[1], 1, OtpRequest, "otp");
      assert KeywordAt(nativeLangKeywords[2], 1, OtpRequest, "otp");
    }

    /**
     * The upper-case "OTP" in each language's DELIVERY_SCAM keywords never
     * fires, because the pass searches the lower-cased transcript: those
     * lists fire exactly when one of their native-script words occurs.
     */
    lemma NativeDeliveryIgnoresUpperOtp(text: string, i: nat)
      requires Configured()
      requires i < |nativeLangKeywords|
      ensures nativeLangKeywords[i].lists[5].intent == DeliveryScam
      ensures AnyContained(nativeLangKeywords[i].lists[5].keywords, Lower(text)) <==>
              AnyContained(nativeLangKeywords[i].lists[5].keywords[..5], Lower(text))
    {
      var kws := nativeLangKeywords[i].lists[5].keywords;
      assert |kws| == 6 && kws[5] == "OTP";
      UpperLastKeywordInert(kws, text);
    }

    // ---------------------------------------------------------------------
    // Pass 2: context-gated regex rules

    /**
     * The context a rule needs beyond a pattern match: MONEY_LOSS needs a
     * money keyword in the normalized text, DELIVERY_SCAM a scam-context
     * word in the raw text.
     */
    predicate RegexGate(intent: string, norm: string, raw: string)
    {
      && (intent == MoneyLoss ==> HasMoneyContext(norm))
      && (intent == DeliveryScam ==> AnyContained(ScamContext, raw))
    }

    /** A rule counts when one of its patterns matches the raw text and its context gate is open. */
    predicate RuleFires(rule: RegexRule, norm: string, raw: string)
    {
      && (exists k :: 0 <= k < |rule.patterns| && search(rule.patterns[k], raw))
      && RegexGate(rule.intent, norm, raw)
    }

    function RegexStep(t: Tally, rule: RegexRule, norm: string, raw: string): Tally
    {
      if RuleFires(rule, norm, raw) then Tally(t.score + RegexIncrement(rule.intent), t.matched + {rule.intent})
      else t
    }

    function RegexTally(rules: seq<RegexRule>, norm: string, raw: string, t: Tally): Tally
      decreases |rules|
    {
      if rules == [] then t
      else RegexStep(RegexTally(rules[..|rules| - 1], norm, raw, t), rules[|rules| - 1], norm, raw)
    }

    /** The patterns of one rule, tried in order until one counts. */
    method ApplyRegexRule(rule: RegexRule, norm: string, raw: string, t0: Tally) returns (t: Tally)
      ensures t == RegexStep(t0, rule, norm, raw)
    {
      t := t0;
      var intent := rule.intent;
      for k := 0 to |rule.patterns|
        invariant t == t0
        invariant forall m :: 0 <= m < k ==> !(search(rule.patterns[m], raw) && RegexGate(intent, norm, raw))
      {
        if !search(rule.patterns[k], raw) {
          continue;
        }
        if intent == MoneyLoss {
          if HasNonMoneyContext(norm) && !HasMoneyContext(norm) {
            continue;
          }
          if !HasMoneyContext(norm) {
            continue;
          }
          t := Tally(t.score + 0.2, t.matched + {intent});
          return;
        }
        if intent == LegalThreat {
          t := Tally(t.score + 0.25, t.matched + {intent});
          return;
        }
        if intent in {OtpRequest, PinRequest} {
          t := Tally(t.score + 0.35, t.matched + {intent});
          return;
        }
        if intent == DeliveryScam {
          if !AnyContained(ScamContext, raw) {
            continue;
          }
          t := Tally(t.score + 0.35, t.matched + {intent});
          return;
        }
        t := Tally(t.score + 0.3, t.matched + {intent});
        return;
      }
    }

    method ApplyRegexRules(norm: string, raw: string, t0: Tally) returns (t: Tally)
      ensures t == RegexTally(regexPatterns, norm, raw, t0)
    {
      t := t0;
      for i := 0 to |regexPatterns|
        invariant t == RegexTally(regexPatterns[..i], norm, raw, t0)
      {
        t := ApplyRegexRule(regexPatterns[i], norm, raw, t);
        assert regexPatterns[..i + 1][..i] == regexPatterns[..i];
      }
      assert regexPatterns[..|regexPatterns|] == regexPatterns;
    }

    /** The intents of the rules that fire. */
    function FiredIntents(rules: seq<RegexRule>, norm: string, raw: string): (names: set<string>)
      ensures forall x :: x in names <==>
                exists i :: 0 <= i < |rules| && rules[i].intent == x && RuleFires(rules[i], norm, raw)
      decreases |rules|
    {
      if rules == [] then {}
      else
        var init := rules[..|rules| - 1];
        var last := rules[|rules| - 1];
        assert forall i :: 0 <= i < |init| ==> init[i] == rules[i];
        FiredIntents(init, norm, raw) + (if RuleFires(last, norm, raw) then {last.intent} else {})
    }

    /** The summed increments of the rules that fire. */
    function RegexGain(rules: seq<RegexRule>, norm: string, raw: string): (g: real)
      ensures 0.0 <= g <= 0.35 * |rules| as real
      decreases |rules|
    {
      if rules == [] then 0.0
      else
        var last := rules[|rules| - 1];
        RegexGain(rules[..|rules| - 1], norm, raw) + (if RuleFires(last, norm, raw) then RegexIncrement(last.intent) else 0.0)
    }

    /** The regex pass adds the increments and intents of exactly the rules that fire. */
    lemma {:induction false} RegexTallySum(rules: seq<RegexRule>, norm: string, raw: string, t: Tally)
      ensures RegexTally(rules, norm, raw, t).score == t.score + RegexGain(rules, norm, raw)
      ensures RegexTally(rules, norm, raw, t).matched == t.matched + FiredIntents(rules, norm, raw)
      decreases |rules|
    {
      if rules != [] {
        RegexTallySum(rules[..|rules| - 1], norm, raw, t);
      }
    }

    /**
     * The regex pass adds MONEY_LOSS only with a money keyword in the
     * normalized text and DELIVERY_SCAM only with a scam-context word in the
     * raw text, whatever the patterns match.
     */
    lemma RegexContextGuards(rules: seq<RegexRule>, norm: string, raw: string, t: Tally)
      ensures MoneyLoss in RegexTally(rules, norm, raw, t).matched - t.matched ==> HasMoneyContext(norm)
      ensures DeliveryScam in RegexTally(rules, norm, raw, t).matched - t.matched ==> AnyContained(ScamContext, raw)
    {
      RegexTallySum(rules, norm, raw, t);
    }

    // ---------------------------------------------------------------------
    // Safe-phrase suppression, clamp, label

    /**
     * A call-back phrase cancels INSTRUCTION and takes 0.2 off the score,
     * never below zero; nothing else is touched.
     */
    function SafeStep(t: Tally, raw: string): (r: Tally)
      ensures r.matched == t.matched || r.matched == t.matched - {Instruction}
      ensures Instruction !in t.matched ==> r == t
      ensures r != t ==> Instruction !in r.matched && r.score >= 0.0 && r.score >= t.score - 0.2
      ensures t.score >= 0.0 ==> r.score <= t.score
      ensures r.matched != t.matched <==> Instruction in t.matched && AnyContained(safePhrases, raw)
    {
      if Instruction in t.matched && AnyContained(safePhrases, raw) then
        Tally(Max(0.0, t.score - 0.2), t.matched - {Instruction})
      else t
    }

    /** The tally before clamping: the passes in the engine's order. */
    function Unclamped(text: string): Tally
    {
      var raw := Lower(text);
      var norm := Normalize(text);
      var t1 := ManualStep(Tally(0.0, {}), norm);
      var t2 := PhraseTally(intents, norm, t1);
      var t3 := NativeTally(nativeLangKeywords, raw, t2);
      var t4 := RegexTally(regexPatterns, norm, raw, t3);
      SafeStep(t4, raw)
    }

    /** The final score (capped at 1) and matched intents of a transcript. */
    function ScoreTally(text: string): (t: Tally)
      ensures t.score <= 1.0
      ensures t.matched == Unclamped(text).matched
    {
      var u := Unclamped(text);
      Tally(Min(u.score, 1.0), u.matched)
    }

    /** `score`: the engine's verdict on a transcript. */
    method Score(text: string) returns (r: ScoreResult)
      ensures r.spamScore == ScoreTally(text).score
      ensures r.callLabel == Label(r.spamScore, ScoreTally(text).matched)
      ensures Sorted(r.matchedIntents) && Distinct(r.matchedIntents)
      ensures forall x :: x in r.matchedIntents <==> x in ScoreTally(text).matched
    {
      var raw := Lower(text);
      var norm := Normalize(text);
      var t := Tally(0.0, {});
      t := ApplyManualPhrases(norm, t);
      t := ApplyCatalog(norm, t);
      t := ApplyNativeKeywords(raw, t);
      t := ApplyRegexRules(norm, raw, t);
      if Instruction in t.matched {
        if AnyContained(safePhrases, raw) {
          t := Tally(Max(0.0, t.score - 0.2), t.matched - {Instruction});
        }
      }
      var score := Min(t.score, 1.0);
      var callLabel := Label(score, t.matched);
      var intents := SortSet(t.matched);
      r := ScoreResult(score, callLabel, intents);
    }

    /** Every pass after the manual one keeps the intents it is given and never lowers the score. */
    lemma PassesGrow(text: string, t: Tally)
      requires WeightsNonNegative(intents)
      ensures var raw := Lower(text); var norm := Normalize(text);
              var t4 := RegexTally(regexPatterns, norm, raw, NativeTally(nativeLangKeywords, raw, PhraseTally(intents, norm, t)));
              t.score <= t4.score && t.matched <= t4.matched
    {
      var raw := Lower(text);
      var norm := Normalize(text);
      PhraseTallyGrows(intents, norm, t);
      var t2 := PhraseTally(intents, norm, t);
      NativeTallySum(nativeLangKeywords, raw, t2);
      var t3 := NativeTally(nativeLangKeywords, raw, t2);
      RegexTallySum(regexPatterns, norm, raw, t3);
    }

    /** With non-negative catalog weights the score lies in [0, 1]. */
    lemma ScoreInUnitInterval(text: string)
      requires WeightsNonNegative(intents)
      ensures 0.0 <= ScoreTally(text).score <= 1.0
    {
      PassesGrow(text, ManualStep(Tally(0.0, {}), Normalize(text)));
    }

    /**
     * A manual phrase in the transcript forces the verdict: the score stays
     * at 0.7 or more (0.9, less at most the 0.2 safe-phrase penalty),
     * MANUAL_SPAM is reported and the label is spam.
     */
    lemma ManualOverride(text: string)
      requires WeightsNonNegative(intents)
      requires ManualHit(Normalize(text))
      ensures ScoreTally(text).score >= 0.7
      ensures ManualSpam in ScoreTally(text).matched
      ensures Label(ScoreTally(text).score, ScoreTally(text).matched) == SpamLabel
    {
      PassesGrow(text, ManualStep(Tally(0.0, {}), Normalize(text)));
    }

    /**
     * An empty transcript scores 0 with no intents and is a normal call,
     * provided no regex pattern matches the empty text.
     */
    lemma EmptyTranscript()
      requires KeywordsNonEmpty(nativeLangKeywords)
      requires forall i, k :: 0 <= i < |regexPatterns| && 0 <= k < |regexPatterns[i].patterns| ==>
                 !search(regexPatterns[i].patterns[k], "")
      ensures ScoreTally("") == Tally(0.0, {})
      ensures Label(ScoreTally("").score, ScoreTally("").matched) == NormalLabel
    {
      assert Lower("") == [];
      assert Normalize("") == [];
      assert !ManualHit([]);
      PhraseTallyOnEmpty(intents, Tally(0.0, {}));
      NativeTallyOnEmpty(nativeLangKeywords, Tally(0.0, {}));
      RegexTallySum(regexPatterns, [], [], Tally(0.0, {}));
      assert RegexGain(regexPatterns, [], []) == 0.0 by {
        RegexGainNoFire(regexPatterns, [], []);
      }
      assert FiredIntents(regexPatterns, [], []) == {};
    }

    /** When no rule fires, the regex pass adds nothing. */
    lemma {:induction false} RegexGainNoFire(rules: seq<RegexRule>, norm: string, raw: string)
      requires forall i :: 0 <= i < |rules| ==> !RuleFires(rules[i], norm, raw)
      ensures RegexGain(rules, norm, raw) == 0.0
      decreases |rules|
    {
      if rules != [] {
        var init := rules[..|rules| - 1];
        assert forall i :: 0 <= i < |init| ==> init[i] == rules[i];
        RegexGainNoFire(init, norm, raw);
      }
    }

    /** No catalog phrase counts against an empty normalized text. */
    lemma {:induction false} PhraseTallyOnEmpty(entries: seq<IntentDefinition>, t: Tally)
      ensures PhraseTally(entries, [], t) == t
      decreases |entries|
    {
      if entries != [] {
        var last := entries[|entries| - 1];
        PhraseTallyOnEmpty(entries[..|entries| - 1], t);
        forall l | 0 <= l < |last.phrases|
          ensures !LanguageHits(last.name, last.phrases[l].phrases, [])
        {
          forall p | 0 <= p < |last.phrases[l].phrases|
            ensures !NormalizedCounts(last.name, Normalize(last.phrases[l].phrases[p]), [])
          {
            var np := Normalize(last.phrases[l].phrases[p]);
            if np != [] {
              NotContainedInEmpty(np);
            }
          }
        }
        CatalogNoHit(last.name, last.phrases, [], last.name in t.matched);
      }
    }

    lemma {:induction false} CatalogNoHit(intent: string, langs: seq<LanguagePhrases>, norm: string, already: bool)
      requires forall l :: 0 <= l < |langs| ==> !LanguageHits(intent, langs[l].phrases, norm)
      ensures !CatalogHits(intent, langs, norm, already)
      decreases |langs|
    {
      if langs != [] {
        CatalogNoHit(intent, langs[1..], norm, already);
      }
    }

    /** Every configured native keyword is non-empty. */
    lemma NativeKeywordsNonEmpty()
      requires Configured()
      ensures KeywordsNonEmpty(nativeLangKeywords)
    {
      ConfiguredKeywordsNonEmpty();
    }
  }

  // -----------------------------------------------------------------------
  // The native pass, which depends only on the keyword lists and the raw text

  function NativeListStep(t: Tally, kl: KeywordList, raw: string): Tally
  {
    if AnyContained(kl.keywords, raw) then Tally(t.score + 0.3, t.matched + {kl.intent}) else t
  }

  /** One language's keyword lists, in order. */
  function NativeListsTally(lists: seq<KeywordList>, raw: string, t: Tally): Tally
    decreases |lists|
  {
    if lists == [] then t
    else NativeListStep(NativeListsTally(lists[..|lists| - 1], raw, t), lists[|lists| - 1], raw)
  }

  /** All languages, in order. */
  function NativeTally(sets: seq<NativeKeywordSet>, raw: string, t: Tally): Tally
    decreases |sets|
  {
    if sets == [] then t
    else NativeListsTally(sets[|sets| - 1].lists, raw, NativeTally(sets[..|sets| - 1], raw, t))
  }

  /** The number of lists with a keyword in the text. */
  function ListHits(lists: seq<KeywordList>, raw: string): (n: nat)
    ensures n <= |lists|
    decreases |lists|
  {
    if lists == [] then 0
    else ListHits(lists[..|lists| - 1], raw) + (if AnyContained(lists[|lists| - 1].keywords, raw) then 1 else 0)
  }

  function NativeHits(sets: seq<NativeKeywordSet>, raw: string): nat
    decreases |sets|
  {
    if sets == [] then 0
    else NativeHits(sets[..|sets| - 1], raw) + ListHits(sets[|sets| - 1].lists, raw)
  }

  /** The intents of the lists with a keyword in the text. */
  function NativeIntents(lists: seq<KeywordList>, raw: string): (names: set<string>)
    ensures forall x :: x in names <==>
              exists j :: 0 <= j < |lists| && lists[j].intent == x && AnyContained(lists[j].keywords, raw)
    decreases |lists|
  {
    if lists == [] then {}
    else
      var init := lists[..|lists| - 1];
      var last := lists[|lists| - 1];
      assert forall j :: 0 <= j < |init| ==> init[j] == lists[j];
      NativeIntents(init, raw) + (if AnyContained(last.keywords, raw) then {last.intent} else {})
  }

  function AllNativeIntents(sets: seq<NativeKeywordSet>, raw: string): set<string>
    decreases |sets|
  {
    if sets == [] then {}
    else AllNativeIntents(sets[..|sets| - 1], raw) + NativeIntents(sets[|sets| - 1].lists, raw)
  }

  /** Every list that hits adds 0.3 and its intent, so hits in several languages add up. */
  lemma {:induction false} NativeListsSum(lists: seq<KeywordList>, raw: string, t: Tally)
    ensures NativeListsTally(lists, raw, t).score == t.score + 0.3 * ListHits(lists, raw) as real
    ensures NativeListsTally(lists, raw, t).matched == t.matched + NativeIntents(lists, raw)
    decreases |lists|
  {
    if lists != [] {
      NativeListsSum(lists[..|lists| - 1], raw, t);
    }
  }

  lemma {:induction false} NativeTallySum(sets: seq<NativeKeywordSet>, raw: string, t: Tally)
    ensures NativeTally(sets, raw, t).score == t.score + 0.3 * NativeHits(sets, raw) as real
    ensures NativeTally(sets, raw, t).matched == t.matched + AllNativeIntents(sets, raw)
    decreases |sets|
  {
    if sets != [] {
      var init := sets[..|sets| - 1];
      NativeTallySum(init, raw, t);
      NativeListsSum(sets[|sets| - 1].lists, raw, NativeTally(init, raw, t));
    }
  }

  lemma {:induction false} ListHitsPositive(lists: seq<KeywordList>, raw: string, j: nat)
    requires j < |lists| && AnyContained(lists[j].keywords, raw)
    ensures ListHits(lists, raw) >= 1
    decreases |lists|
  {
    if j < |lists| - 1 {
      ListHitsPositive(lists[..|lists| - 1], raw, j);
    }
  }

  lemma {:induction false} NativeHitsAtLeastSets(sets: seq<NativeKeywordSet>, raw: string)
    requires forall i :: 0 <= i < |sets| ==> ListHits(sets[i].lists, raw) >= 1
    ensures NativeHits(sets, raw) >= |sets|
    decreases |sets|
  {
    if sets != [] {
      var init := sets[..|sets| - 1];
      assert forall i :: 0 <= i < |init| ==> init[i] == sets[i];
      NativeHitsAtLeastSets(init, raw);
    }
  }

  /** The list at index `j` of a language belongs to `intent` and starts with `keyword`. */
  predicate KeywordAt(set_: NativeKeywordSet, j: nat, intent: string, keyword: string)
  {
    j < |set_.lists| && set_.lists[j].intent == intent &&
    set_.lists[j].keywords != [] && set_.lists[j].keywords[0] == keyword
  }

  /**
   * A keyword listed for the same intent in every language counts once per
   * language: a text containing it gains 0.3 per language and the intent.
   */
  lemma KeywordInEveryLanguage(sets: seq<NativeKeywordSet>, j: nat, intent: string, keyword: string, raw: string, t: Tally)
    requires sets != []
    requires forall i :: 0 <= i < |sets| ==> KeywordAt(sets[i], j, intent, keyword)
    requires Contains(keyword, raw)
    ensures NativeTally(sets, raw, t).score >= t.score + 0.3 * |sets| as real
    ensures intent in NativeTally(sets, raw, t).matched
  {
    forall i | 0 <= i < |sets| ensures ListHits(sets[i].lists, raw) >= 1 {
      assert KeywordAt(sets[i], j, intent, keyword);
      assert AnyContained(sets[i].lists[j].keywords, raw);
      ListHitsPositive(sets[i].lists, raw, j);
    }
    NativeHitsAtLeastSets(sets, raw);
    NativeTallySum(sets, raw, t);
    assert KeywordAt(sets[|sets| - 1], j, intent, keyword);
    assert AnyContained(sets[|sets| - 1].lists[j].keywords, raw);
    assert intent in NativeIntents(sets[|sets| - 1].lists, raw);
    AllNativeIntentsLast(sets, raw);
  }

  lemma AllNativeIntentsLast(sets: seq<NativeKeywordSet>, raw: string)
    requires sets != []
    ensures NativeIntents(sets[|sets| - 1].lists, raw) <= AllNativeIntents(sets, raw)
  {
  }

  /** A keyword holding an upper-case letter never occurs in a lower-cased text. */
  lemma UpperKeywordsNeverFire(keywords: seq<string>, text: string)
    ensures AnyContained(keywords, Lower(text)) ==>
              exists k :: 0 <= k < |keywords| && NoUpper(keywords[k]) && Contains(keywords[k], Lower(text))
  {
    if AnyContained(keywords, Lower(text)) {
      var k :| 0 <= k < |keywords| && Contains(keywords[k], Lower(text));
      ContainsNoUpper(keywords[k], Lower(text));
    }
  }

  predicate KeywordsNonEmpty(sets: seq<NativeKeywordSet>)
  {
    forall i, j, k :: 0 <= i < |sets| && 0 <= j < |sets[i].lists| && 0 <= k < |sets[i].lists[j].keywords| ==>
      sets[i].lists[j].keywords[k] != []
  }

  predicate ListsNonEmpty(lists: seq<KeywordList>)
  {
    forall j, k :: 0 <= j < |lists| && 0 <= k < |lists[j].keywords| ==> lists[j].keywords[k] != []
  }

  /** None of the configured native keywords is the empty string. */
  lemma ConfiguredKeywordsNonEmpty()
    ensures KeywordsNonEmpty(NativeLangKeywords)
  {
    assert ListsNonEmpty(NativeLangKeywords[0].lists);
    assert ListsNonEmpty(NativeLangKeywords[1].lists);
    assert ListsNonEmpty(NativeLangKeywords[2].lists);
    assert forall i :: 0 <= i < |NativeLangKeywords| ==> ListsNonEmpty(NativeLangKeywords[i].lists);
  }

  /** An upper-case last keyword can be dropped from a list searched in lower-cased text. */
  lemma UpperLastKeywordInert(kws: seq<string>, text: string)
    requires kws != [] && kws[|kws| - 1] != [] && IsUpper(kws[|kws| - 1][0])
    ensures AnyContained(kws, Lower(text)) <==> AnyContained(kws[..|kws| - 1], Lower(text))
  {
    var m := |kws| - 1;
    assert !NoUpper(kws[m]);
    UpperKeywordsNeverFire(kws, text);
    if AnyContained(kws, Lower(text)) {
      var k :| 0 <= k < |kws| && NoUpper(kws[k]) && Contains(kws[k], Lower(text));
      assert k != m;
      assert kws[..m][k] == kws[k];
    }
    if AnyContained(kws[..m], Lower(text)) {
      var k :| 0 <= k < m && Contains(kws[..m][k], Lower(text));
      assert kws[k] == kws[..m][k];
    }
  }

  /** No keyword list fires against the empty text when its keywords are non-empty. */
  lemma {:induction false} NativeTallyOnEmpty(sets: seq<NativeKeywordSet>, t: Tally)
    requires KeywordsNonEmpty(sets)
    ensures NativeTally(sets, [], t) == t
  {
    NativeTallySum(sets, [], t);
    NoNativeHitsOnEmpty(sets);
  }

  lemma {:induction false} NoNativeHitsOnEmpty(sets: seq<NativeKeywordSet>)
    requires KeywordsNonEmpty(sets)
    ensures NativeHits(sets, []) == 0 && AllNativeIntents(sets, []) == {}
    decreases |sets|
  {
    if sets != [] {
      var init := sets[..|sets| - 1];
      var lists := sets[|sets| - 1].lists;
      assert forall i :: 0 <= i < |init| ==> init[i] == sets[i];
      assert KeywordsNonEmpty(init);
      NoNativeHitsOnEmpty(init);
      forall j | 0 <= j < |lists| ensures !AnyContained(lists[j].keywords, []) {
        forall k | 0 <= k < |lists[j].keywords| ensures !Contains(lists[j].keywords[k], []) {
          NotContainedInEmpty(lists[j].keywords[k]);
        }
      }
      NoListHits(lists);
    }
  }

  lemma {:induction false} NoListHits(lists: seq<KeywordList>)
    requires forall j :: 0 <= j < |lists| ==> !AnyContained(lists[j].keywords, [])
    ensures ListHits(lists, []) == 0 && NativeIntents(lists, []) == {}
    decreases |lists|
  {
    if lists != [] {
      var init := lists[..|lists| - 1];
      assert forall j :: 0 <= j < |init| ==> init[j] == lists[j];
      NoListHits(init);
    }
  }
}
