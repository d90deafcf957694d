/**
 * Python string operations used by the classifier, on `seq<char>`:
 * ASCII case mapping, `str.isspace`, `strip`, whitespace collapsing,
 * substring search (`in`), `split()` word counting and `str.join`.
 */
module Text {

  /** A Python value that may be `None`. */
  datatype Option<T> = None | Some(value: T)

  /** Python's `str.isspace` (the same set as the `\s` class of `re` on str patterns). */
  predicate IsSpace(c: char)
  {
    ('\t' <= c <= '\r') || ('\U{1C}' <= c <= '\U{1F}') || c == ' ' || c == '\U{85}' || c == '\U{A0}'
    || c == '\U{1680}' || ('\U{2000}' <= c <= '\U{200A}') || c == '\U{2028}' || c == '\U{2029}'
    || c == '\U{202F}' || c == '\U{205F}' || c == '\U{3000}'
  }

  predicate IsUpper(c: char) { 'A' <= c <= 'Z' }

  predicate IsLowerChar(c: char) { 'a' <= c <= 'z' }

  /** True when no character of `s` is an upper-case ASCII letter. */
  predicate NoUpper(s: string) { forall i :: 0 <= i < |s| ==> !IsUpper(s[i]) }

  predicate NoLower(s: string) { forall i :: 0 <= i < |s| ==> !IsLowerChar(s[i]) }

  function LowerChar(c: char): (d: char)
    ensures !IsUpper(d)
    ensures IsSpace(d) == IsSpace(c)
    ensures !IsUpper(c) ==> d == c
  {
    if IsUpper(c) then (c as int + 32) as char else c
  }

  function UpperChar(c: char): (d: char)
    ensures !IsLowerChar(d)
    ensures IsSpace(d) == IsSpace(c)
    ensures !IsLowerChar(c) ==> d == c
  {
    if IsLowerChar(c) then (c as int - 32) as char else c
  }

  /** `str.lower()`, ASCII letters only. */
  function Lower(s: string): (r: string)
    ensures |r| == |s| && NoUpper(r)
    ensures forall i :: 0 <= i < |s| ==> r[i] == LowerChar(s[i])
  {
    seq(|s|, i requires 0 <= i < |s| => LowerChar(s[i]))
  }

  /** `str.upper()`, ASCII letters only. */
  function Upper(s: string): (r: string)
    ensures |r| == |s| && NoLower(r)
    ensures forall i :: 0 <= i < |s| ==> r[i] == UpperChar(s[i])
  {
    seq(|s|, i requires 0 <= i < |s| => UpperChar(s[i]))
  }

  lemma LowerIdempotent(s: string)
    ensures Lower(Lower(s)) == Lower(s)
  {
  }

  lemma {:induction false} LowerOfLowerCase(s: string)
    requires NoUpper(s)
    ensures Lower(s) == s
  {
  }

  /** Number of leading whitespace characters. */
  function LeadCount(s: string): (n: nat)
    ensures n <= |s|
    ensures forall k :: 0 <= k < n ==> IsSpace(s[k])
    ensures n < |s| ==> !IsSpace(s[n])
    decreases |s|
  {
    if s != [] && IsSpace(s[0]) then 1 + LeadCount(s[1..]) else 0
  }

  /** Number of trailing whitespace characters. */
  function TrailCount(s: string): (n: nat)
    ensures n <= |s|
    ensures forall k :: |s| - n <= k < |s| ==> IsSpace(s[k])
    ensures n < |s| ==> !IsSpace(s[|s| - 1 - n])
    decreases |s|
  {
    if s != [] && IsSpace(s[|s| - 1]) then 1 + TrailCount(s[..|s| - 1]) else 0
  }

  /** `str.lstrip()`. */
  function TrimStart(s: string): string
  {
    s[LeadCount(s)..]
  }

  /**
   * `str.strip()`: the slice of `s` between its leading and trailing
   * whitespace; never longer than `s`, and whitespace at neither end.
   */
  function Strip(s: string): (r: string)
    ensures |r| <= |s|
    ensures r == [] || (!IsSpace(r[0]) && !IsSpace(r[|r| - 1]))
  {
    var a := LeadCount(s);
    var t := s[a..];
    var b := TrailCount(t);
    assert t[..|t| - b] != [] ==> t[..|t| - b][0] == s[a] && t[..|t| - b][|t| - b - 1] == t[|t| - 1 - b];
    t[..|t| - b]
  }

  /** `strip()` keeps the slice after the leading whitespace. */
  lemma StripSlice(s: string)
    ensures LeadCount(s) + |Strip(s)| <= |s|
    ensures Strip(s) == s[LeadCount(s)..LeadCount(s) + |Strip(s)|]
  {
    var a := LeadCount(s);
    var t := s[a..];
    assert Strip(s) == t[..|t| - TrailCount(t)];
  }

  /** `strip()` is empty exactly when the input is all whitespace. */
  lemma StripEmpty(s: string)
    ensures Strip(s) == [] <==> forall k :: 0 <= k < |s| ==> IsSpace(s[k])
  {
    var a := LeadCount(s);
    var t := s[a..];
    var b := TrailCount(t);
    assert Strip(s) == t[..|t| - b];
    if k :| 0 <= k < |s| && !IsSpace(s[k]) {
      assert t[k - a] == s[k];
    } else {
      assert a == |s|;
    }
  }

  /**
   * `strip()` keeps a contiguous slice of its input that neither starts nor
   * ends with whitespace, and is empty exactly when the input is all
   * whitespace.
   */
  lemma StripShape(s: string)
    ensures LeadCount(s) + |Strip(s)| <= |s|
    ensures Strip(s) == s[LeadCount(s)..LeadCount(s) + |Strip(s)|]
    ensures Strip(s) == [] || (!IsSpace(Strip(s)[0]) && !IsSpace(Strip(s)[|Strip(s)| - 1]))
    ensures Strip(s) == [] <==> forall k :: 0 <= k < |s| ==> IsSpace(s[k])
  {
    StripSlice(s);
    StripEmpty(s);
  }

  /** A string with no whitespace at either end is its own `strip()`. */
  lemma {:induction false} StripNoOp(s: string)
    requires s == [] || (!IsSpace(s[0]) && !IsSpace(s[|s| - 1]))
    ensures Strip(s) == s
  {
    if s != [] {
      assert LeadCount(s) == 0;
      assert TrailCount(s) == 0;
    }
  }

  lemma StripIdempotent(s: string)
    ensures Strip(Strip(s)) == Strip(s)
  {
    StripShape(s);
    StripNoOp(Strip(s));
  }

  /**
   * `re.sub(r"\s+", " ", s)`: every maximal run of whitespace becomes one
   * space; everything else is kept in order.
   */
  function CollapseSpaces(s: string): (r: string)
    ensures |r| <= |s|
    decreases |s|
  {
    if s == [] then []
    else if IsSpace(s[0]) then [' '] + CollapseSpaces(TrimStart(s))
    else [s[0]] + CollapseSpaces(s[1..])
  }

  /**
   * After collapsing, the only whitespace is single spaces, every other
   * character comes from the input, and the first character is whitespace
   * exactly when the input's is.
   */
  lemma {:induction false} CollapseShape(s: string)
    ensures forall i :: 0 <= i < |CollapseSpaces(s)| && IsSpace(CollapseSpaces(s)[i]) ==> CollapseSpaces(s)[i] == ' '
    ensures forall i :: 0 <= i < |CollapseSpaces(s)| - 1 ==> !(CollapseSpaces(s)[i] == ' ' && CollapseSpaces(s)[i + 1] == ' ')
    ensures forall i :: 0 <= i < |CollapseSpaces(s)| ==> CollapseSpaces(s)[i] == ' ' || CollapseSpaces(s)[i] in s
    ensures (CollapseSpaces(s) == []) == (s == [])
    ensures CollapseSpaces(s) != [] ==> IsSpace(CollapseSpaces(s)[0]) == IsSpace(s[0])
    decreases |s|
  {
    if s != [] {
      var rest := if IsSpace(s[0]) then TrimStart(s) else s[1..];
      CollapseShape(rest);
      assert forall c :: c in rest ==> c in s;
      if IsSpace(s[0]) {
        assert rest != [] ==> !IsSpace(rest[0]);
      }
    }
  }

  /** A string whose only whitespace is single spaces is unchanged by collapsing. */
  lemma {:induction false} CollapseNoOp(s: string)
    requires forall i :: 0 <= i < |s| && IsSpace(s[i]) ==> s[i] == ' '
    requires forall i :: 0 <= i < |s| - 1 ==> !(s[i] == ' ' && s[i + 1] == ' ')
    ensures CollapseSpaces(s) == s
    decreases |s|
  {
    if s != [] {
      if IsSpace(s[0]) {
        assert LeadCount(s) == 1 by {
          if |s| > 1 {
            assert !IsSpace(s[1]);
            assert LeadCount(s[1..]) == 0;
          }
        }
        CollapseNoOp(s[1..]);
      } else {
        CollapseNoOp(s[1..]);
      }
    }
  }

  /** Python's `sub in s`: a prefix is contained, and nothing longer than `s` is. */
  predicate Contains(sub: string, s: string)
    ensures sub <= s ==> Contains(sub, s)
    ensures Contains(sub, s) ==> |sub| <= |s|
    decreases |s|
  {
    sub <= s || (s != [] && Contains(sub, s[1..]))
  }

  /** `sub` occurs in `s` at index `i`. */
  predicate OccursAt(sub: string, s: string, i: int)
  {
    0 <= i && i + |sub| <= |s| && s[i..i + |sub|] == sub
  }

  /** An occurrence of `sub` starting at index `i` of `s` makes `sub in s` true. */
  lemma {:induction false} ContainsAt(sub: string, s: string, i: nat)
    requires i + |sub| <= |s| && s[i..i + |sub|] == sub
    ensures Contains(sub, s)
    decreases i
  {
    if i == 0 {
      assert sub <= s;
    } else {
      assert s[1..][i - 1..i - 1 + |sub|] == sub;
      ContainsAt(sub, s[1..], i - 1);
    }
  }

  /** Every character of a contained string occurs in the containing string. */
  lemma {:induction false} ContainsChars(sub: string, s: string)
    requires Contains(sub, s)
    ensures |sub| <= |s|
    ensures forall c :: c in sub ==> c in s
    decreases |s|
  {
    if !(sub <= s) {
      ContainsChars(sub, s[1..]);
    }
  }

  /** A string contained in one without upper-case letters has none either. */
  lemma {:induction false} ContainsNoUpper(sub: string, s: string)
    requires Contains(sub, s) && NoUpper(s)
    ensures NoUpper(sub)
    decreases |s|
  {
    if !(sub <= s) {
      ContainsNoUpper(sub, s[1..]);
    }
  }

  /** A non-empty string never occurs in the empty string. */
  lemma NotContainedInEmpty(sub: string)
    requires sub != []
    ensures !Contains(sub, [])
  {
  }

  /** A string holding an upper-case ASCII letter never occurs in a lower-cased string. */
  lemma UpperNeverInLower(sub: string, s: string)
    requires exists i :: 0 <= i < |sub| && IsUpper(sub[i])
    ensures !Contains(sub, Lower(s))
  {
    if Contains(sub, Lower(s)) {
      ContainsNoUpper(sub, Lower(s));
      assert false;
    }
  }

  /** Python's `any(k in s for k in needles)`. */
  predicate AnyContained(needles: seq<string>, s: string)
  {
    exists i :: 0 <= i < |needles| && Contains(needles[i], s)
  }

  /** `sub in s` holds exactly when `sub` occurs in `s` at some index. */
  lemma ContainsIff(sub: string, s: string)
    ensures Contains(sub, s) <==> exists i :: OccursAt(sub, s, i)
  {
    if Contains(sub, s) {
      var r := IndexOf(sub, s);
      assert OccursAt(sub, s, r.value);
    } else if i :| OccursAt(sub, s, i) {
      ContainsAt(sub, s, i);
    }
  }

  /** Some needle is in `s` exactly when some needle occurs in `s` at some index. */
  lemma AnyContainedIff(needles: seq<string>, s: string)
    ensures AnyContained(needles, s) <==> exists k, i :: 0 <= k < |needles| && OccursAt(needles[k], s, i)
  {
    forall k | 0 <= k < |needles| {
      ContainsIff(needles[k], s);
    }
  }

  /**
   * Index of the first occurrence of `sub` in `s` (`str.find`), or `None`
   * when `sub in s` is false.
   */
  function IndexOf(sub: string, s: string): (r: Option<nat>)
    ensures r.None? <==> !Contains(sub, s)
    ensures r.Some? ==> r.value + |sub| <= |s| && s[r.value..r.value + |sub|] == sub
    ensures r.Some? ==> forall j :: 0 <= j < r.value ==> !(sub <= s[j..])
    decreases |s|
  {
    if sub <= s then Some(0)
    else if s == [] then None
    else match IndexOf(sub, s[1..])
      case None => None
      case Some(k) =>
        assert forall j :: 1 <= j <= k ==> s[j..] == s[1..][j - 1..];
        Some(k + 1)
  }

  /** Python's `len(s.split())`: the number of maximal runs of non-whitespace. */
  function WordCount(s: string): nat
    decreases |s|
  {
    if s == [] then 0
    else
      var last := |s| - 1;
      var starts := !IsSpace(s[last]) && (last == 0 || IsSpace(s[last - 1]));
      WordCount(s[..last]) + (if starts then 1 else 0)
  }

  /** Number of `' '` characters in `s`. */
  function SpaceCount(s: string): nat
    decreases |s|
  {
    if s == [] then 0 else SpaceCount(s[..|s| - 1]) + (if s[|s| - 1] == ' ' then 1 else 0)
  }

  /**
   * In a string made of words separated by single spaces, with no space at
   * either end, `split()` finds one word more than there are spaces.
   */
  lemma {:induction false} WordCountOfSingleSpaced(s: string)
    requires s != [] && s[0] != ' ' && s[|s| - 1] != ' '
    requires forall i :: 0 <= i < |s| && IsSpace(s[i]) ==> s[i] == ' '
    requires forall i :: 0 <= i < |s| - 1 ==> !(s[i] == ' ' && s[i + 1] == ' ')
    ensures WordCount(s) == SpaceCount(s) + 1
    decreases |s|
  {
    var last := |s| - 1;
    if last > 0 {
      var p := s[..last];
      if s[last - 1] == ' ' {
        // `p` ends with its only trailing space; drop it too
        var q := s[..last - 1];
        assert last - 1 > 0;
        assert q == p[..|p| - 1];
        WordCountOfSingleSpaced(q);
        assert WordCount(p) == WordCount(q);
        assert SpaceCount(p) == SpaceCount(q) + 1;
      } else {
        WordCountOfSingleSpaced(p);
      }
    }
  }

  /** Python's `sep.join(parts)`. */
  function Join(sep: string, parts: seq<string>): (r: string)
    ensures parts == [] ==> r == []
    ensures parts != [] ==> |parts[0]| <= |r| && r[..|parts[0]|] == parts[0]
    ensures parts != [] ==> |parts[|parts| - 1]| <= |r| && r[|r| - |parts[|parts| - 1]|..] == parts[|parts| - 1]
    decreases |parts|
  {
    if parts == [] then []
    else if |parts| == 1 then parts[0]
    else
      var rest := Join(sep, parts[1..]);
      assert parts[1..][|parts[1..]| - 1] == parts[|parts| - 1];
      assert (parts[0] + sep + rest)[|parts[0] + sep + rest| - |parts[|parts| - 1]|..] == rest[|rest| - |parts[|parts| - 1]|..];
      parts[0] + sep + rest
  }

  /** Joining one more part appends the separator and that part. */
  lemma {:induction false} JoinAppend(sep: string, parts: seq<string>, p: string)
    requires parts != []
    ensures Join(sep, parts + [p]) == Join(sep, parts) + sep + p
    decreases |parts|
  {
    if |parts| > 1 {
      assert (parts + [p])[1..] == parts[1..] + [p];
      JoinAppend(sep, parts[1..], p);
    }
  }

  /** The length of a join: every part plus one separator between each two. */
  lemma {:induction false} JoinLength(sep: string, parts: seq<string>)
    requires parts != []
    ensures |Join(sep, parts)| == TotalLength(parts) + |sep| * (|parts| - 1)
    decreases |parts|
  {
    if |parts| > 1 {
      JoinLength(sep, parts[1..]);
    }
  }

  function TotalLength(parts: seq<string>): nat
    decreases |parts|
  {
    if parts == [] then 0 else |parts[0]| + TotalLength(parts[1..])
  }
}
