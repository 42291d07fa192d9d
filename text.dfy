/**
 * Character and string primitives shared by the Python and JavaScript models:
 * decimal printing and reading, joining, substring search, whitespace
 * trimming and ASCII case mapping.
 */
module Text {

  predicate IsDigit(c: char)
  {
    '0' <= c <= '9'
  }

  predicate AllDigits(s: string)
  {
    forall i :: 0 <= i < |s| ==> IsDigit(s[i])
  }

  function DigitChar(d: nat): (c: char)
    requires d < 10
    ensures IsDigit(c) && c as int - '0' as int == d
  {
    (d + '0' as int) as char
  }

  /** Decimal digits of a natural number, most significant first, no leading zeros. */
  function NatToString(n: nat): (s: string)
    ensures |s| > 0 && AllDigits(s)
    ensures s[0] == '0' ==> n == 0
    decreases n
  {
    if n < 10 then [DigitChar(n)] else NatToString(n / 10) + [DigitChar(n % 10)]
  }

  /** Python's `str(i)` and JavaScript's `String(i)` for an integer. */
  function IntToString(i: int): string
  {
    if i < 0 then "-" + NatToString(-i) else NatToString(i)
  }

  /** The number a string of decimal digits denotes. */
  function DigitsValue(s: string): nat
    requires AllDigits(s)
  {
    if s == [] then 0 else DigitsValue(s[..|s| - 1]) * 10 + (s[|s| - 1] as int - '0' as int)
  }

  /** Printing a natural number and reading it back gives the number. */
  lemma {:induction false} NatToStringRoundTrip(n: nat)
    ensures DigitsValue(NatToString(n)) == n
    decreases n
  {
    if n >= 10 {
      NatToStringRoundTrip(n / 10);
      var s := NatToString(n);
      assert s[..|s| - 1] == NatToString(n / 10);
    }
  }

  /** Different numbers are written differently. */
  lemma NatToStringInjective(a: nat, b: nat)
    requires NatToString(a) == NatToString(b)
    ensures a == b
  {
    NatToStringRoundTrip(a);
    NatToStringRoundTrip(b);
  }

  /** `sep.join(parts)` (Python) and `parts.join(sep)` (JavaScript). */
  function Join(parts: seq<string>, sep: string): string
  {
    if parts == [] then ""
    else if |parts| == 1 then parts[0]
    else parts[0] + sep + Join(parts[1..], sep)
  }

  predicate StartsWith(s: string, prefix: string)
  {
    |prefix| <= |s| && s[..|prefix|] == prefix
  }

  /** A non-empty join begins with its first part. */
  lemma JoinStartsWith(parts: seq<string>, sep: string)
    requires parts != []
    ensures StartsWith(Join(parts, sep), parts[0])
  {
    if |parts| > 1 {
      assert Join(parts, sep) == parts[0] + (sep + Join(parts[1..], sep));
    }
  }

  /** String `<` in Python and JavaScript: lexicographic by code point. */
  predicate StrLess(a: string, b: string)
  {
    if a == [] then b != []
    else if b == [] then false
    else if a[0] != b[0] then a[0] < b[0]
    else StrLess(a[1..], b[1..])
  }

  lemma StrLessIrreflexive(a: string)
    ensures !StrLess(a, a)
  {
  }

  lemma StrLessAsymmetric(a: string, b: string)
    ensures StrLess(a, b) ==> !StrLess(b, a)
  {
  }

  lemma StrLessTransitive(a: string, b: string, c: string)
    requires StrLess(a, b) && StrLess(b, c)
    ensures StrLess(a, c)
  {
  }

  /** Two strings neither of which is less than the other are equal. */
  lemma StrLessTotal(a: string, b: string)
    ensures StrLess(a, b) || StrLess(b, a) || a == b
  {
  }

  /** Python's `sub in s` and JavaScript's `s.includes(sub)`. */
  predicate Contains(s: string, sub: string)
    decreases |s|
  {
    StartsWith(s, sub) || (|s| > 0 && Contains(s[1..], sub))
  }

  /** Python's `s.replace(a, b)` for single characters. */
  function ReplaceChar(s: string, a: char, b: char): (r: string)
    ensures |r| == |s|
    ensures forall i :: 0 <= i < |s| ==> r[i] == if s[i] == a then b else s[i]
  {
    if s == [] then [] else [if s[0] == a then b else s[0]] + ReplaceChar(s[1..], a, b)
  }

  /** The characters Python's `str.isspace` (and hence `str.strip`) treats as whitespace. */
  predicate PySpace(c: char)
  {
    ('\t' <= c <= '\r') || ('\U{001C}' <= c <= ' ') || c == '\U{0085}' || c == '\U{00A0}'
    || c == '\U{1680}' || ('\U{2000}' <= c <= '\U{200A}') || c == '\U{2028}' || c == '\U{2029}'
    || c == '\U{202F}' || c == '\U{205F}' || c == '\U{3000}'
  }

  /** The characters JavaScript's `String.prototype.trim` removes. */
  predicate JsSpace(c: char)
  {
    ('\t' <= c <= '\r') || c == ' ' || c == '\U{00A0}'
    || c == '\U{1680}' || ('\U{2000}' <= c <= '\U{200A}') || c == '\U{2028}' || c == '\U{2029}'
    || c == '\U{202F}' || c == '\U{205F}' || c == '\U{3000}' || c == '\U{FEFF}'
  }

  function TrimStart(s: string, space: char -> bool): (r: string)
    ensures |r| <= |s|
    ensures r != [] ==> !space(r[0])
  {
    if s != [] && space(s[0]) then TrimStart(s[1..], space) else s
  }

  function TrimEnd(s: string, space: char -> bool): (r: string)
    ensures |r| <= |s|
    ensures r != [] ==> r[0] == s[0]
    ensures r != [] ==> !space(r[|r| - 1])
  {
    if s != [] && space(s[|s| - 1]) then TrimEnd(s[..|s| - 1], space) else s
  }

  /** Python's `s.strip()`. */
  function Strip(s: string): (r: string)
    ensures r != [] ==> !PySpace(r[0]) && !PySpace(r[|r| - 1])
  {
    TrimEnd(TrimStart(s, PySpace), PySpace)
  }

  /** JavaScript's `s.trim()`. */
  function Trim(s: string): (r: string)
    ensures r != [] ==> !JsSpace(r[0]) && !JsSpace(r[|r| - 1])
  {
    TrimEnd(TrimStart(s, JsSpace), JsSpace)
  }

  /** Where trimming the start cuts: the leading run of white space ends at `i`. */
  lemma {:induction false} TrimStartCut(s: string, space: char -> bool) returns (i: nat)
    ensures i <= |s| && TrimStart(s, space) == s[i..]
    ensures forall k :: 0 <= k < i ==> space(s[k])
  {
    if s != [] && space(s[0]) {
      var rest := TrimStartCut(s[1..], space);
      i := rest + 1;
      assert s[1..][rest..] == s[i..];
      forall k | 1 <= k < i
        ensures space(s[k])
      {
        assert s[k] == s[1..][k - 1];
      }
    } else {
      i := 0;
    }
  }

  /** Where trimming the end cuts: the trailing run of white space starts at `j`. */
  lemma {:induction false} TrimEndCut(s: string, space: char -> bool) returns (j: nat)
    ensures j <= |s| && TrimEnd(s, space) == s[..j]
    ensures forall k :: j <= k < |s| ==> space(s[k])
  {
    if s != [] && space(s[|s| - 1]) {
      var init := s[..|s| - 1];
      j := TrimEndCut(init, space);
      assert init[..j] == s[..j];
      forall k | j <= k < |init|
        ensures space(s[k])
      {
        assert s[k] == init[k];
      }
    } else {
      j := |s|;
    }
  }

  /** Where trimming both ends cuts: only white space lies outside `s[i..j]`. */
  lemma TrimBothCut(s: string, space: char -> bool) returns (i: nat, j: nat)
    ensures i <= j <= |s| && TrimEnd(TrimStart(s, space), space) == s[i..j]
    ensures forall k :: 0 <= k < i ==> space(s[k])
    ensures forall k :: j <= k < |s| ==> space(s[k])
  {
    i := TrimStartCut(s, space);
    var t := s[i..];
    var n := TrimEndCut(t, space);
    j := i + n;
    assert t[..n] == s[i..j];
    forall k | j <= k < |s|
      ensures space(s[k])
    {
      assert s[k] == t[k - i];
    }
  }

  /**
   * `s.strip()` is `s` without its leading and trailing white space: a slice
   * of `s` with only white space before and after it, starting and ending
   * with a character that is not white space.
   */
  lemma StripMeaning(s: string)
    ensures exists i, j :: && 0 <= i <= j <= |s| && Strip(s) == s[i..j]
                           && (forall k :: 0 <= k < i ==> PySpace(s[k]))
                           && (forall k :: j <= k < |s| ==> PySpace(s[k]))
    ensures Strip(s) != [] ==> !PySpace(Strip(s)[0]) && !PySpace(Strip(s)[|Strip(s)| - 1])
  {
    var i, j := TrimBothCut(s, PySpace);
  }

  /** `s.trim()` is `s` without its leading and trailing white space, in JavaScript's sense of it. */
  lemma TrimMeaning(s: string)
    ensures exists i, j :: && 0 <= i <= j <= |s| && Trim(s) == s[i..j]
                           && (forall k :: 0 <= k < i ==> JsSpace(s[k]))
                           && (forall k :: j <= k < |s| ==> JsSpace(s[k]))
    ensures Trim(s) != [] ==> !JsSpace(Trim(s)[0]) && !JsSpace(Trim(s)[|Trim(s)| - 1])
  {
    var i, j := TrimBothCut(s, JsSpace);
  }

  predicate IsUpper(c: char) { 'A' <= c <= 'Z' }
  predicate IsLower(c: char) { 'a' <= c <= 'z' }

  function ToLowerChar(c: char): char
  {
    if IsUpper(c) then (c as int + 32) as char else c
  }

  function ToUpperChar(c: char): char
  {
    if IsLower(c) then (c as int - 32) as char else c
  }

  /** Python's `s.lower()` on ASCII letters. */
  function Lower(s: string): (r: string)
    ensures |r| == |s|
    ensures forall i :: 0 <= i < |s| ==> r[i] == ToLowerChar(s[i])
  {
    if s == [] then [] else [ToLowerChar(s[0])] + Lower(s[1..])
  }

  /**
   * Python's `s.title()` on ASCII letters: a letter is upper-cased when the
   * character before it is not a letter, and lower-cased otherwise.
   */
  function Title(s: string): (r: string)
    ensures |r| == |s|
  {
    TitleFrom(s, false)
  }

  function TitleFrom(s: string, previousCased: bool): (r: string)
    ensures |r| == |s|
    ensures s != [] ==> r[0] == if previousCased then ToLowerChar(s[0]) else ToUpperChar(s[0])
  {
    if s == [] then []
    else
      var c := if previousCased then ToLowerChar(s[0]) else ToUpperChar(s[0]);
      [c] + TitleFrom(s[1..], IsUpper(c) || IsLower(c))
  }

  predicate IsLetter(c: char) { IsUpper(c) || IsLower(c) }

  /** Each character of `title()` is upper-cased after a non-letter (or at the start) and lower-cased after a letter. */
  lemma TitleCases(s: string, i: nat)
    requires i < |s|
    ensures Title(s)[i] == if i > 0 && IsLetter(s[i - 1]) then ToLowerChar(s[i]) else ToUpperChar(s[i])
  {
    TitleFromAt(s, false, i);
  }

  lemma {:induction false} TitleFromAt(s: string, previousCased: bool, i: nat)
    requires i < |s|
    ensures TitleFrom(s, previousCased)[i]
      == if (if i == 0 then previousCased else IsLetter(s[i - 1])) then ToLowerChar(s[i]) else ToUpperChar(s[i])
  {
    if i > 0 {
      var c := if previousCased then ToLowerChar(s[0]) else ToUpperChar(s[0]);
      assert IsLetter(c) == IsLetter(s[0]);
      TitleFromAt(s[1..], IsUpper(c) || IsLower(c), i - 1);
      assert s[1..][i - 1] == s[i];
      if i > 1 {
        assert s[1..][i - 2] == s[i - 1];
      }
    }
  }
}
