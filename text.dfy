/**
 * String helpers that reproduce the Python built-ins the client relies on:
 * `str.lower()` (as far as comparisons with ASCII lower-case words go),
 * `str.strip()` / `str.lstrip(chars)` / `str.rstrip(chars)` and substring search.
 */
module Text {

  /** The characters for which Python's `str.isspace()` holds; `str.strip()` with no argument removes these. */
  const PySpace: set<char> := {
    '\t', '\n', '\U{0B}', '\U{0C}', '\r', '\U{1C}', '\U{1D}', '\U{1E}', '\U{1F}', ' ',
    '\U{85}', '\U{A0}', '\U{1680}',
    '\U{2000}', '\U{2001}', '\U{2002}', '\U{2003}', '\U{2004}', '\U{2005}', '\U{2006}',
    '\U{2007}', '\U{2008}', '\U{2009}', '\U{200A}',
    '\U{2028}', '\U{2029}', '\U{202F}', '\U{205F}', '\U{3000}'
  }

  /**
   * Lower-casing of one character. ASCII capitals map to their lower-case letter and the
   * KELVIN SIGN maps to 'k', as in Python; every other character is kept. No other character
   * has a Python lower-case form that is an ASCII letter, so comparing `Lower(s)` with an ASCII
   * lower-case word gives the same answer as comparing `s.lower()` with it.
   */
  function LowerChar(c: char): char {
    if 'A' <= c <= 'Z' then (c as int + 32) as char
    else if c == '\U{212A}' then 'k'
    else c
  }

  function Lower(s: string): (r: string)
    ensures |r| == |s|
    ensures forall i :: 0 <= i < |s| ==> r[i] == LowerChar(s[i])
  {
    seq(|s|, i requires 0 <= i < |s| => LowerChar(s[i]))
  }

  /** A word of ASCII characters none of which is a capital letter, such as "false" or "apikey". */
  predicate IsAsciiLowerWord(w: string) {
    forall i :: 0 <= i < |w| ==> w[i] < '\U{80}' && !('A' <= w[i] <= 'Z')
  }

  /**
   * The characters whose Python lower-case form is the ASCII character `d`: `d` itself, its
   * capital when `d` is a letter, and the KELVIN SIGN for 'k'.
   */
  predicate LowersTo(c: char, d: char) {
    || c == d
    || ('a' <= d <= 'z' && c as int == d as int - 32)
    || (d == 'k' && c == '\U{212A}')
  }

  /**
   * Comparing `s.lower()` with an ASCII lower-case word: equal exactly when `s` has the word's
   * length and each character is the word's character, its capital, or the KELVIN SIGN for 'k'.
   */
  lemma LowerMatchesWord(s: string, w: string)
    requires IsAsciiLowerWord(w)
    ensures Lower(s) == w <==> |s| == |w| && forall i :: 0 <= i < |s| ==> LowersTo(s[i], w[i])
  {
    if |s| == |w| && forall i :: 0 <= i < |s| ==> LowersTo(s[i], w[i]) {
      forall i | 0 <= i < |s| ensures Lower(s)[i] == w[i] {
        assert LowersTo(s[i], w[i]);
      }
    }
    if Lower(s) == w {
      forall i | 0 <= i < |s| ensures LowersTo(s[i], w[i]) {
        assert LowerChar(s[i]) == w[i];
      }
    }
  }

  /** The index of the first character at or after `i` that is not in `cs`, or `|s|`. */
  function FrontCut(s: string, cs: set<char>, i: nat): (n: nat)
    requires i <= |s|
    ensures i <= n <= |s|
    ensures forall k :: i <= k < n ==> s[k] in cs
    ensures n < |s| ==> s[n] !in cs
    decreases |s| - i
  {
    if i < |s| && s[i] in cs then FrontCut(s, cs, i + 1) else i
  }

  /** The index just after the last character of `s[lo..j]` that is not in `cs`, or `lo`. */
  function BackCut(s: string, cs: set<char>, lo: nat, j: nat): (n: nat)
    requires lo <= j <= |s|
    ensures lo <= n <= j
    ensures forall k :: n <= k < j ==> s[k] in cs
    ensures n > lo ==> s[n - 1] !in cs
    decreases j
  {
    if j > lo && s[j - 1] in cs then BackCut(s, cs, lo, j - 1) else j
  }

  /** The front cut is the only index with all of `cs` before it and no character of `cs` at it. */
  lemma {:induction false} FrontCutUnique(s: string, cs: set<char>, i: nat, n: nat)
    requires i <= n <= |s|
    requires forall k :: i <= k < n ==> s[k] in cs
    requires n < |s| ==> s[n] !in cs
    ensures FrontCut(s, cs, i) == n
    decreases |s| - i
  {
    if i < n {
      FrontCutUnique(s, cs, i + 1, n);
    }
  }

  /** The back cut is the only index with all of `cs` after it and no character of `cs` just before it. */
  lemma {:induction false} BackCutUnique(s: string, cs: set<char>, lo: nat, j: nat, n: nat)
    requires lo <= n <= j <= |s|
    requires forall k :: n <= k < j ==> s[k] in cs
    requires n > lo ==> s[n - 1] !in cs
    ensures BackCut(s, cs, lo, j) == n
    decreases j
  {
    if n < j {
      BackCutUnique(s, cs, lo, j - 1, n);
    }
  }

  /** `s.lstrip(chars)`: the longest suffix of `s` that does not start with a character of `cs`. */
  function TrimLeft(s: string, cs: set<char>): (r: string)
    ensures |r| <= |s| && r == s[|s| - |r|..]
    ensures forall k :: 0 <= k < |s| - |r| ==> s[k] in cs
    ensures r != [] ==> r[0] !in cs
  {
    s[FrontCut(s, cs, 0)..]
  }

  /** `s.rstrip(chars)`: the longest prefix of `s` that does not end with a character of `cs`. */
  function TrimRight(s: string, cs: set<char>): (r: string)
    ensures |r| <= |s| && r == s[..|r|]
    ensures forall k :: |r| <= k < |s| ==> s[k] in cs
    ensures r != [] ==> r[|r| - 1] !in cs
  {
    s[..BackCut(s, cs, 0, |s|)]
  }

  /** `s.lstrip(chars).rstrip(chars)`, which is also `s.strip(chars)`. */
  function Strip(s: string, cs: set<char>): string {
    TrimRight(TrimLeft(s, cs), cs)
  }

  /** A string that neither starts nor ends with a character of `cs` is not changed by stripping. */
  lemma StripKeeps(s: string, cs: set<char>)
    requires s != [] ==> s[0] !in cs && s[|s| - 1] !in cs
    ensures Strip(s, cs) == s
  {
  }

  /** Lower-casing changes nothing in a string without capitals. */
  lemma LowerKeeps(s: string)
    requires forall i :: 0 <= i < |s| ==> !('A' <= s[i] <= 'Z') && s[i] != '\U{212A}'
    ensures Lower(s) == s
  {
  }

  /** A string is blank when nothing is left once Python's whitespace is stripped. */
  predicate IsBlank(s: string) {
    Strip(s, PySpace) == ""
  }

  /** Stripping leaves nothing exactly when every character is one of those stripped. */
  lemma StripEmptyIff(s: string, cs: set<char>)
    ensures Strip(s, cs) == "" <==> forall k :: 0 <= k < |s| ==> s[k] in cs
  {
    var l := TrimLeft(s, cs);
    if Strip(s, cs) != "" {
      var r := Strip(s, cs);
      assert r[0] == l[0] && l[0] == s[|s| - |l|];
    }
  }

  /** `Strip` is the slice of `s` between the cut at the front and the cut at the back. */
  lemma StripSlice(s: string, cs: set<char>)
    ensures var i := |s| - |TrimLeft(s, cs)|;
      i + |Strip(s, cs)| <= |s| && Strip(s, cs) == s[i..i + |Strip(s, cs)|]
  {
    var l := TrimLeft(s, cs);
    var r := TrimRight(l, cs);
    var i := |s| - |l|;
    SliceOfSuffix(s, l, r, i);
  }

  /** A prefix `r` of the suffix `l` of `s` that starts at `i` is the slice of `s` from `i`. */
  lemma SliceOfSuffix(s: string, l: string, r: string, i: int)
    requires 0 <= i <= |s| && l == s[i..] && |r| <= |l| && r == l[..|r|]
    ensures i + |r| <= |s| && r == s[i..i + |r|]
  {
    forall k | 0 <= k < |r| ensures r[k] == s[i + k] {
      assert r[k] == l[k];
    }
  }

  /** Every character cut from the back of the left-trimmed string is in `cs`. */
  lemma StripCutBack(s: string, cs: set<char>)
    ensures var j := |s| - |TrimLeft(s, cs)| + |Strip(s, cs)|;
      forall k :: j <= k < |s| ==> s[k] in cs
  {
    var l := TrimLeft(s, cs);
    var i := |s| - |l|;
    var j := i + |Strip(s, cs)|;
    forall k | j <= k < |s| ensures s[k] in cs {
      assert s[k] == l[k - i];
    }
  }

  /**
   * The characterisation of `Strip`: the middle slice `s[i..j]` where `i` characters of `cs` are
   * cut from the front and the rest of the cut, all in `cs`, from the back; the slice neither
   * starts nor ends with a character of `cs`.
   */
  lemma StripIsMiddle(s: string, cs: set<char>)
    ensures var i := |s| - |TrimLeft(s, cs)|;
      var j := i + |Strip(s, cs)|;
      && i <= j <= |s|
      && Strip(s, cs) == s[i..j]
      && (forall k :: 0 <= k < i ==> s[k] in cs)
      && (forall k :: j <= k < |s| ==> s[k] in cs)
      && (Strip(s, cs) != "" ==> s[i] !in cs && s[j - 1] !in cs)
  {
    StripSlice(s, cs);
    StripCutBack(s, cs);
    var r := Strip(s, cs);
    var i := |s| - |TrimLeft(s, cs)|;
    if r != [] {
      assert s[i] == r[0] && s[i + |r| - 1] == r[|r| - 1];
    }
  }

  /** Stripping twice strips nothing more. */
  lemma StripIdempotent(s: string, cs: set<char>)
    ensures Strip(Strip(s, cs), cs) == Strip(s, cs)
  {
    var r := Strip(s, cs);
    StripIsMiddle(s, cs);
    if r != [] {
      assert TrimLeft(r, cs) == r;
      assert TrimRight(r, cs) == r;
    }
  }

  /** Python's `t in s` for strings. */
  predicate Contains(s: string, t: string) {
    exists i :: 0 <= i <= |s| - |t| && OccursAt(s, t, i)
  }

  /** `t` occurs in `s` starting at index `i`. */
  predicate OccursAt(s: string, t: string, i: int) {
    0 <= i <= |s| - |t| && s[i..i + |t|] == t
  }
}
