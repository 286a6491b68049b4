/**
 * Strings as the service (Python) and the clients (JavaScript) see them:
 * which characters count as whitespace, stripping, word splitting, the
 * history preview and upper-casing.
 */
module Text {
  import opened Common

  /** Python's `str.isspace()` on one code point; `str.strip()` and `str.split()` use it. */
  predicate IsPySpace(c: char)
  {
    c == ' ' || ('\t' <= c <= '\r') || ('\U{1C}' <= c <= '\U{1F}')
    || c == '\U{85}' || c == '\U{A0}' || c == '\U{1680}' || ('\U{2000}' <= c <= '\U{200A}')
    || c == '\U{2028}' || c == '\U{2029}' || c == '\U{202F}' || c == '\U{205F}' || c == '\U{3000}'
  }

  /** ECMAScript WhiteSpace or LineTerminator; `String.prototype.trim()` removes these. */
  predicate IsJsSpace(c: char)
  {
    c == ' ' || ('\t' <= c <= '\r')
    || c == '\U{A0}' || c == '\U{1680}' || ('\U{2000}' <= c <= '\U{200A}')
    || c == '\U{2028}' || c == '\U{2029}' || c == '\U{202F}' || c == '\U{205F}' || c == '\U{3000}'
    || c == '\U{FEFF}'
  }

  /** Every character of `s` is whitespace under `space` (this includes the empty string). */
  predicate Blank(s: string, space: char -> bool)
  {
    forall i :: 0 <= i < |s| ==> space(s[i])
  }

  /** `s` without its leading whitespace. */
  function TrimStart(s: string, space: char -> bool): (r: string)
    ensures |r| <= |s| && r == s[|s| - |r|..]
    ensures forall i :: 0 <= i < |s| - |r| ==> space(s[i])
    ensures r == [] || !space(r[0])
  {
    if s != [] && space(s[0]) then
      var r := TrimStart(s[1..], space);
      assert forall i :: 1 <= i < |s| ==> s[i] == s[1..][i - 1];
      r
    else s
  }

  /** `s` without its trailing whitespace. */
  function TrimEnd(s: string, space: char -> bool): (r: string)
    ensures |r| <= |s| && r == s[..|r|]
    ensures forall i :: |r| <= i < |s| ==> space(s[i])
    ensures r == [] || !space(r[|r| - 1])
  {
    if s != [] && space(s[|s| - 1]) then
      var r := TrimEnd(s[..|s| - 1], space);
      assert forall i :: 0 <= i < |s| - 1 ==> s[i] == s[..|s| - 1][i];
      r
    else s
  }

  /** Python's `str.strip()` and JavaScript's `trim()`, each with its own whitespace set. */
  function Strip(s: string, space: char -> bool): (r: string)
    ensures |r| <= |s|
  {
    TrimEnd(TrimStart(s, space), space)
  }

  /**
   * What `strip()` leaves is a prefix of the input without its leading
   * whitespace, with no whitespace at either end.
   */
  lemma StripTrimsBothEnds(s: string, space: char -> bool)
    ensures Strip(s, space) != [] ==> !space(Strip(s, space)[0]) && !space(Strip(s, space)[|Strip(s, space)| - 1])
    ensures Strip(s, space) <= TrimStart(s, space)
  {
  }

  /** Stripping leaves nothing exactly when the string is all whitespace. */
  lemma StripEmptyIffBlank(s: string, space: char -> bool)
    ensures Strip(s, space) == [] <==> Blank(s, space)
  {
  }

  /** The longest prefix of `s` without whitespace. */
  function TakeWord(s: string, space: char -> bool): (w: string)
    ensures |w| <= |s| && w == s[..|w|]
    ensures forall i :: 0 <= i < |w| ==> !space(w[i])
    ensures |w| == |s| || space(s[|w|])
    ensures s != [] && !space(s[0]) ==> w != []
  {
    if s != [] && !space(s[0]) then [s[0]] + TakeWord(s[1..], space) else []
  }

  /** A word: a non-empty string with no whitespace in it. */
  predicate IsWord(w: string, space: char -> bool)
  {
    w != [] && forall i :: 0 <= i < |w| ==> !space(w[i])
  }

  /** Python's argument-less `str.split()`: the maximal runs of non-whitespace, in order. */
  function Split(s: string, space: char -> bool): (words: seq<string>)
    ensures |words| <= |s|
    decreases |s|
  {
    var t := TrimStart(s, space);
    if t == [] then [] else
      var w := TakeWord(t, space);
      [w] + Split(t[|w|..], space)
  }

  /** Every piece `Split` returns is a word. */
  lemma {:induction false} SplitGivesWords(s: string, space: char -> bool)
    ensures forall k :: 0 <= k < |Split(s, space)| ==> IsWord(Split(s, space)[k], space)
    decreases |s|
  {
    var t := TrimStart(s, space);
    if t != [] {
      var w := TakeWord(t, space);
      SplitGivesWords(t[|w|..], space);
      var rest := Split(t[|w|..], space);
      assert Split(s, space) == [w] + rest;
      forall k | 0 <= k < |Split(s, space)| ensures IsWord(Split(s, space)[k], space) {
        if k > 0 {
          assert Split(s, space)[k] == rest[k - 1];
        }
      }
    }
  }

  /** A string has no words exactly when it is all whitespace. */
  lemma SplitEmptyIffBlank(s: string, space: char -> bool)
    ensures Split(s, space) == [] <==> Blank(s, space)
  {
  }

  /** Positions `i >= 1` where whitespace is followed by a non-whitespace character. */
  function Boundaries(s: string, space: char -> bool): nat
  {
    if |s| < 2 then 0
    else (if space(s[0]) && !space(s[1]) then 1 else 0) + Boundaries(s[1..], space)
  }

  /**
   * The number of positions where a word starts: a non-whitespace character
   * at the front or right after whitespace. Counted independently of `Split`.
   */
  function WordStarts(s: string, space: char -> bool): nat
  {
    (if s != [] && !space(s[0]) then 1 else 0) + Boundaries(s, space)
  }

  /** Leading whitespace starts no word. */
  lemma {:induction false} TrimStartKeepsWordStarts(s: string, space: char -> bool)
    ensures WordStarts(TrimStart(s, space), space) == WordStarts(s, space)
    decreases |s|
  {
    if s != [] && space(s[0]) {
      TrimStartKeepsWordStarts(s[1..], space);
    }
  }

  /** Inside a string that starts with a word, the word starts after the first are those of what follows that word. */
  lemma {:induction false} BoundariesAfterWord(s: string, space: char -> bool)
    requires s != [] && !space(s[0])
    ensures Boundaries(s, space) == WordStarts(s[|TakeWord(s, space)|..], space)
    decreases |s|
  {
    var w := TakeWord(s, space);
    if |s| >= 2 && !space(s[1]) {
      BoundariesAfterWord(s[1..], space);
      assert w == [s[0]] + TakeWord(s[1..], space);
      assert s[|w|..] == s[1..][|TakeWord(s[1..], space)|..];
    } else if |s| >= 2 {
      assert |w| == 1;
    }
  }

  /** `len(text.split())` is the number of positions where a word starts. */
  lemma {:induction false} SplitCountsWordStarts(s: string, space: char -> bool)
    ensures |Split(s, space)| == WordStarts(s, space)
    decreases |s|
  {
    var t := TrimStart(s, space);
    TrimStartKeepsWordStarts(s, space);
    if t != [] {
      var w := TakeWord(t, space);
      BoundariesAfterWord(t, space);
      SplitCountsWordStarts(t[|w|..], space);
    }
  }

  /** Python's `s.endswith(suffix)`: case-sensitive comparison of the last characters. */
  predicate EndsWith(s: string, suffix: string)
  {
    |suffix| <= |s| && s[|s| - |suffix|..] == suffix
  }

  const PreviewLength := 150

  /**
   * How a history entry's text is shown: `text.substring(0, 150)` followed by
   * "...", whatever the length of the text.
   */
  function Preview(text: string): (p: string)
    ensures |p| == Min(|text|, PreviewLength) + 3
    ensures p[..|p| - 3] <= text
    ensures p[|p| - 3..] == "..."
    ensures |text| <= PreviewLength ==> p == text + "..."
  {
    text[..Min(|text|, PreviewLength)] + "..."
  }

  /** `toUpperCase` on one character, over ASCII letters. */
  function UpperChar(c: char): char
  {
    if 'a' <= c <= 'z' then (c as int - 32) as char else c
  }

  /** `toUpperCase` over ASCII: each lower-case letter becomes its capital, nothing else changes. */
  function ToUpper(s: string): (u: string)
    ensures |u| == |s|
    ensures forall i :: 0 <= i < |s| ==> u[i] == UpperChar(s[i])
  {
    if s == [] then [] else [UpperChar(s[0])] + ToUpper(s[1..])
  }
}
