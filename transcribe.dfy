/**
 * The pure steps of speech-to-text: choosing the best of several
 * transcripts, assembling a transcript from recognised segments, and
 * mapping a detected language code to a language name. The recogniser
 * itself is not part of this model; its outputs are inputs here.
 */
module Transcribe {
  import opened Text

  /** `[t.strip() for t in texts]`. */
  function StrippedAll(texts: seq<string>): (ss: seq<string>)
    ensures |ss| == |texts|
  {
    seq(|texts|, i requires 0 <= i < |texts| => Strip(texts[i]))
  }

  /** The non-empty elements, in order. */
  function NonEmpty(ss: seq<string>): (c: seq<string>)
    decreases |ss|
  {
    if ss == [] then []
    else if ss[0] != [] then [ss[0]] + NonEmpty(ss[1..])
    else NonEmpty(ss[1..])
  }

  /** Python's `max(c, key=len)`: the first of the longest elements. */
  function Longest(c: seq<string>): (m: string)
    requires c != []
    decreases |c|
  {
    if |c| == 1 then c[0]
    else
      var rest := Longest(c[1..]);
      if |rest| > |c[0]| then rest else c[0]
  }

  /**
   * `Longest` returns an element no shorter than any other, and every
   * element before the first occurrence of it is strictly shorter.
   */
  lemma {:induction false} LongestIsFirstMaximum(c: seq<string>)
    requires c != []
    ensures exists i :: 0 <= i < |c| && c[i] == Longest(c) && forall j :: 0 <= j < i ==> |c[j]| < |Longest(c)|
    ensures forall k :: 0 <= k < |c| ==> |c[k]| <= |Longest(c)|
    decreases |c|
  {
    if |c| > 1 {
      LongestIsFirstMaximum(c[1..]);
      var rest := Longest(c[1..]);
      if |rest| > |c[0]| {
        var i :| 0 <= i < |c[1..]| && c[1..][i] == rest && forall j :: 0 <= j < i ==> |c[1..][j]| < |rest|;
        assert c[i + 1] == rest;
        forall j | 0 <= j < i + 1 ensures |c[j]| < |rest| {
          if j > 0 {
            assert c[j] == c[1..][j - 1];
          }
        }
      } else {
        forall k | 0 <= k < |c| ensures |c[k]| <= |c[0]| {
          if k > 0 {
            assert c[k] == c[1..][k - 1];
          }
        }
      }
    }
  }

  /**
   * `_select_best_text`: "" exactly when every text is blank; otherwise the
   * stripped form of some text, no shorter than any stripped text, and
   * every stripped text before the first one it equals is strictly shorter.
   */
  function SelectBestText(texts: seq<string>): (r: string)
    ensures r == [] <==> forall i :: 0 <= i < |texts| ==> Strip(texts[i]) == []
    ensures r != [] ==>
              exists i :: 0 <= i < |texts| && r == Strip(texts[i]) &&
                forall j :: 0 <= j < i ==> |Strip(texts[j])| < |r|
    ensures forall i :: 0 <= i < |texts| ==> |Strip(texts[i])| <= |r|
  {
    var ss := StrippedAll(texts);
    assert forall i :: 0 <= i < |texts| ==> ss[i] == Strip(texts[i]);
    NonEmptyMembers(ss);
    var c := NonEmpty(ss);
    if c == [] then ""
    else
      BestOfStripped(ss);
      NonEmptyAllNonEmpty(ss);
      LongestIsFirstMaximum(c);
      Longest(c)
  }

  /**
   * Filtering keeps every non-empty element and nothing else, and an element
   * that comes out at position `k` is preceded only by elements that came
   * before it in the input.
   */
  lemma {:induction false} NonEmptyMembers(ss: seq<string>)
    ensures NonEmpty(ss) == [] <==> forall i :: 0 <= i < |ss| ==> ss[i] == []
    ensures forall x :: x in NonEmpty(ss) <==> x in ss && x != []
    decreases |ss|
  {
    if ss != [] {
      NonEmptyMembers(ss[1..]);
      assert forall x :: x in ss <==> x == ss[0] || x in ss[1..];
    }
  }

  lemma {:induction false} NonEmptyOrder(ss: seq<string>, i: nat)
    requires i < |ss| && ss[i] != []
    ensures exists k :: 0 <= k < |NonEmpty(ss)| && NonEmpty(ss)[k] == ss[i] &&
              forall m :: 0 <= m < k ==> NonEmpty(ss)[m] in ss[..i]
    decreases |ss|
  {
    if i == 0 {
      assert NonEmpty(ss)[0] == ss[0];
    } else {
      NonEmptyOrder(ss[1..], i - 1);
      var rest := NonEmpty(ss[1..]);
      var k :| 0 <= k < |rest| && rest[k] == ss[1..][i - 1] && forall m :: 0 <= m < k ==> rest[m] in ss[1..][..i - 1];
      assert ss[1..][..i - 1] == ss[1..i];
      var shift := if ss[0] != [] then 1 else 0;
      assert NonEmpty(ss)[k + shift] == ss[i];
      forall m | 0 <= m < k + shift ensures NonEmpty(ss)[m] in ss[..i] {
        if shift == 1 && m == 0 {
          assert NonEmpty(ss)[0] == ss[0];
        } else {
          assert NonEmpty(ss)[m] == rest[m - shift];
        }
      }
    }
  }

  /** The longest non-empty element is no shorter than any element, and the first of maximal length. */
  lemma BestOfStripped(ss: seq<string>)
    requires NonEmpty(ss) != []
    ensures forall i :: 0 <= i < |ss| ==> |ss[i]| <= |Longest(NonEmpty(ss))|
    ensures exists i :: 0 <= i < |ss| && ss[i] == Longest(NonEmpty(ss)) &&
              forall j :: 0 <= j < i ==> |ss[j]| < |Longest(NonEmpty(ss))|
  {
    var c := NonEmpty(ss);
    NonEmptyMembers(ss);
    var best := Longest(c);
    LongestIsFirstMaximum(c);
    var k :| 0 <= k < |c| && c[k] == best && forall j :: 0 <= j < k ==> |c[j]| < |best|;
    forall i | 0 <= i < |ss| ensures |ss[i]| <= |best| {
      if ss[i] != [] {
        assert ss[i] in c;
      }
    }
    assert best in c;
    var i :| 0 <= i < |ss| && ss[i] == best;
    var first := FirstAtLeast(ss, |best|, i);
    FirstMaximumIsBest(ss, first, k);
  }

  /** The first element of maximal length sits where `Longest` found its value. */
  lemma FirstMaximumIsBest(ss: seq<string>, first: nat, k: nat)
    requires NonEmpty(ss) != [] && k < |NonEmpty(ss)|
    requires NonEmpty(ss)[k] == Longest(NonEmpty(ss))
    requires forall j :: 0 <= j < k ==> |NonEmpty(ss)[j]| < |Longest(NonEmpty(ss))|
    requires forall i :: 0 <= i < |ss| ==> |ss[i]| <= |Longest(NonEmpty(ss))|
    requires first < |ss| && |ss[first]| >= |Longest(NonEmpty(ss))|
    requires forall j :: 0 <= j < first ==> |ss[j]| < |Longest(NonEmpty(ss))|
    ensures ss[first] == Longest(NonEmpty(ss))
  {
    var c := NonEmpty(ss);
    var best := Longest(c);
    assert ss[first] != [] by {
      assert best != [] by { NonEmptyAllNonEmpty(ss); }
    }
    NonEmptyOrder(ss, first);
    var k2 :| 0 <= k2 < |c| && c[k2] == ss[first] && forall m :: 0 <= m < k2 ==> c[m] in ss[..first];
    assert k2 == k;
  }

  lemma {:induction false} NonEmptyAllNonEmpty(ss: seq<string>)
    ensures forall k :: 0 <= k < |NonEmpty(ss)| ==> NonEmpty(ss)[k] != []
    decreases |ss|
  {
    if ss != [] {
      NonEmptyAllNonEmpty(ss[1..]);
    }
  }

  /**
   * The first index whose element is at least `n` long, given one at `i`;
   * the elements before it are all shorter.
   */
  function FirstAtLeast(ss: seq<string>, n: nat, i: nat): (f: nat)
    requires i < |ss| && |ss[i]| >= n
    ensures f <= i && |ss[f]| >= n
    ensures forall j :: 0 <= j < f ==> |ss[j]| < n
    decreases i
  {
    if exists j :: 0 <= j < i && |ss[j]| >= n then
      var j :| 0 <= j < i && |ss[j]| >= n;
      FirstAtLeast(ss, n, j)
    else i
  }

  /**
   * `" ".join(texts).lower().strip()`: no upper-case letter, no whitespace
   * at either end, and empty exactly when the joined segments are all
   * whitespace.
   */
  function Transcript(segments: seq<string>): (r: string)
    ensures NoUpper(r)
    ensures r == [] || (!IsSpace(r[0]) && !IsSpace(r[|r| - 1]))
    ensures r == [] <==> forall k :: 0 <= k < |Join(" ", segments)| ==> IsSpace(Join(" ", segments)[k])
  {
    StripLowerShape(Join(" ", segments));
    Strip(Lower(Join(" ", segments)))
  }

  lemma StripLowerShape(s: string)
    ensures var r := Strip(Lower(s));
            && NoUpper(r)
            && (r == [] || (!IsSpace(r[0]) && !IsSpace(r[|r| - 1])))
            && (r == [] <==> forall k :: 0 <= k < |s| ==> IsSpace(s[k]))
  {
    var lowered := Lower(s);
    StripShape(lowered);
    var r := Strip(lowered);
    var a := LeadCount(lowered);
    forall k | 0 <= k < |r| ensures !IsUpper(r[k]) {
      assert r[k] == lowered[a + k];
    }
    forall k | 0 <= k < |s| ensures IsSpace(lowered[k]) == IsSpace(s[k]) {
      assert lowered[k] == LowerChar(s[k]);
    }
  }

  /** Segments already lower-case and trimmed, none empty, are joined with single spaces. */
  lemma TranscriptOfCleanSegments(segments: seq<string>)
    requires forall k :: 0 <= k < |segments| ==> segments[k] != [] && NoUpper(segments[k])
    requires forall k :: 0 <= k < |segments| ==> !IsSpace(segments[k][0]) && !IsSpace(segments[k][|segments[k]| - 1])
    ensures Transcript(segments) == Join(" ", segments)
  {
    var j := Join(" ", segments);
    JoinNoUpper(segments);
    LowerOfLowerCase(j);
    JoinEnds(segments);
    StripNoOp(j);
  }

  lemma {:induction false} JoinNoUpper(segments: seq<string>)
    requires forall k :: 0 <= k < |segments| ==> NoUpper(segments[k])
    ensures NoUpper(Join(" ", segments))
    decreases |segments|
  {
    if |segments| > 1 {
      JoinNoUpper(segments[1..]);
      var j := Join(" ", segments);
      var rest := Join(" ", segments[1..]);
      forall k | 0 <= k < |j| ensures !IsUpper(j[k]) {
        if k > |segments[0]| {
          assert j[k] == rest[k - |segments[0]| - 1];
        }
      }
    }
  }

  lemma {:induction false} JoinEnds(segments: seq<string>)
    requires forall k :: 0 <= k < |segments| ==> segments[k] != []
    requires forall k :: 0 <= k < |segments| ==> !IsSpace(segments[k][0]) && !IsSpace(segments[k][|segments[k]| - 1])
    ensures segments != [] ==> Join(" ", segments) != []
    ensures var j := Join(" ", segments); j == [] || (!IsSpace(j[0]) && !IsSpace(j[|j| - 1]))
    decreases |segments|
  {
    if |segments| > 1 {
      JoinEnds(segments[1..]);
      var j := Join(" ", segments);
      var rest := Join(" ", segments[1..]);
      assert j[0] == segments[0][0];
      assert j[|j| - 1] == rest[|rest| - 1];
    }
  }

  /** The language code mapping, after lower-casing; a missing or unknown code is English. */
  function LanguageName(code: Option<string>): (name: string)
    ensures name in {"Tamil", "English", "Hindi", "Malayalam", "Telugu"}
  {
    var c := Lower(if code.Some? then code.value else "");
    if c == "ta" then "Tamil"
    else if c == "en" then "English"
    else if c == "hi" then "Hindi"
    else if c == "ml" then "Malayalam"
    else if c == "te" then "Telugu"
    else "English"
  }

  /** Upper-case codes map like their lower-case forms, and a missing code means English. */
  lemma LanguageNameCases(code: string)
    ensures LanguageName(None) == "English"
    ensures LanguageName(Some(code)) == LanguageName(Some(Lower(code)))
    ensures LanguageName(Some("TA")) == "Tamil" && LanguageName(Some("Te")) == "Telugu"
    ensures Lower(code) !in {"ta", "en", "hi", "ml", "te"} ==> LanguageName(Some(code)) == "English"
  {
    LowerIdempotent(code);
    assert Lower("TA") == "ta";
    assert Lower("Te") == "te";
  }
}
